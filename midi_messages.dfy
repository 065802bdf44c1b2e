/** The message builder of midi.c: `validate_command`, `midi_make_message`
    and the six per-command `midi_make_message_*` builders. */
module MidiMessages {
  import opened MidiTypes

  /** `validate_command`: true for exactly the eight `enum midi_commands`
      constants (the switch's cases), false for every other byte. */
  function ValidateCommand(command: bv8): (valid: bool)
    ensures valid <==> 0x80 <= command && command & 0x0F == 0
  {
    || command == NoteOff.Value()
    || command == NoteOn.Value()
    || command == Aftertouch.Value()
    || command == ControlChange.Value()
    || command == ProgramChange.Value()
    || command == ChannelPressure.Value()
    || command == PitchBend.Value()
    || command == NonMusical.Value()
  }

  /** A byte passes `validate_command` exactly when it is a declared command. */
  lemma ValidIffDeclared(b: bv8)
    ensures ValidateCommand(b) <==> exists c: Command :: c.Value() == b
  {
  }

  /** `first_byte = command + channel` in `uint8_t` arithmetic. For a valid
      command and channel the addition is a bitwise OR: the command nibble
      stays in bits 4-7 and the channel fills bits 0-3. */
  function StatusByte(command: bv8, channel: bv8): (status: bv8)
    ensures ValidateCommand(command) && channel <= MaxChannel ==>
      && status == command | channel
      && status & 0xF0 == command
      && status & 0x0F == channel
  {
    command + channel
  }

  /** The status byte determines the command and the channel. */
  lemma StatusByteDecodes(c: Command, channel: bv8)
    requires channel <= MaxChannel
    ensures CommandOf(StatusByte(c.Value(), channel) & 0xF0) == Some(c)
    ensures StatusByte(c.Value(), channel) & 0x0F == channel
  {
  }

  /** The bytes a present parameter contributes to a message. */
  function DataBytes(p: Option<bv8>): (bytes: seq<bv8>)
    ensures |bytes| <= 1
  {
    if p.Some? then [p.value] else []
  }

  /** A MIDI message as midi.h describes it: the status byte followed by
      the present parameters, parameter 1 first. */
  function Message(command: bv8, channel: bv8, param1: Option<bv8>, param2: Option<bv8>): seq<bv8>
  {
    [StatusByte(command, channel)] + DataBytes(param1) + DataBytes(param2)
  }

  /** For a declared command on a valid channel, the message opens with
      the command constant ORed with the channel, then the parameters. */
  lemma DeclaredCommandMessage(c: Command, channel: bv8, param1: bv8, param2: Option<bv8>)
    requires channel <= MaxChannel
    ensures ValidateCommand(c.Value())
    ensures param2.Some? ==>
      Message(c.Value(), channel, Some(param1), param2) == [c.Value() | channel, param1, param2.value]
    ensures param2.None? ==>
      Message(c.Value(), channel, Some(param1), param2) == [c.Value() | channel, param1]
  {
  }

  /** The size `midi_make_message` reports: `bytes_count` starts at 1 and
      grows by one per present parameter. */
  function MessageSize(param1: Option<bv8>, param2: Option<bv8>): (size: bv8)
    ensures 1 <= size <= MaxMessageSize
    ensures forall command: bv8, channel: bv8 ::
      size as int == |Message(command, channel, param1, param2)|
  {
    var bytesCount: bv8 := 1;
    var bytesCount := if param1.Some? then bytesCount + 1 else bytesCount;
    if param2.Some? then bytesCount + 1 else bytesCount
  }

  /** The buffer length the writes need: slot 0 always, slot 1 for param1,
      slot 2 for param2. */
  function BufferNeed(param1: Option<bv8>, param2: Option<bv8>): nat
  {
    if param2.Some? then 3 else if param1.Some? then 2 else 1
  }

  /** Writes a present parameter into its fixed slot; leaves the buffer
      alone otherwise. */
  function Place(buf: seq<bv8>, slot: nat, p: Option<bv8>): seq<bv8>
    requires p.Some? ==> slot < |buf|
  {
    if p.Some? then buf[slot := p.value] else buf
  }

  /** The buffer after a successful `midi_make_message`: the status byte in
      slot 0, param1 in slot 1 and param2 in slot 2 when present, every
      other byte as the caller left it. */
  function Slots(before: seq<bv8>, command: bv8, channel: bv8, param1: Option<bv8>, param2: Option<bv8>): (after: seq<bv8>)
    requires BufferNeed(param1, param2) <= |before|
    ensures |after| == |before|
  {
    Place(Place(before[0 := StatusByte(command, channel)], 1, param1), 2, param2)
  }

  /** When param1 is present or param2 absent, the reported prefix of the
      buffer is exactly the message, whatever the buffer held before. */
  lemma SlotsHoldMessage(before: seq<bv8>, command: bv8, channel: bv8, param1: Option<bv8>, param2: Option<bv8>)
    requires BufferNeed(param1, param2) <= |before|
    requires param1.Some? || param2.None?
    ensures Slots(before, command, channel, param1, param2)[..MessageSize(param1, param2)]
         == Message(command, channel, param1, param2)
  {
  }

  /** With param1 absent and param2 present, param2 still goes to slot 2,
      outside the reported size 2: slot 1 keeps the caller's byte, so the
      reported prefix is the message only if that byte happens to equal
      param2. */
  lemma GapKeepsSlotOne(before: seq<bv8>, command: bv8, channel: bv8, param2: bv8)
    requires 3 <= |before|
    ensures MessageSize(None, Some(param2)) == 2
    ensures Slots(before, command, channel, None, Some(param2))[..3]
         == [StatusByte(command, channel), before[1], param2]
    ensures (Slots(before, command, channel, None, Some(param2))[..2]
             == Message(command, channel, None, Some(param2))) <==> before[1] == param2
  {
    var sent := Slots(before, command, channel, None, Some(param2))[..2];
    assert sent[1] == before[1];
    assert Message(command, channel, None, Some(param2))[1] == param2;
  }

  /** `midi_make_message`. Fails, writing nothing, when the buffer or the
      size pointer is missing, the channel is above 0xF or the command is
      not one of the eight constants; otherwise fills the fixed slots and
      reports the size. */
  method MakeMessage(command: bv8, channel: bv8, param1: Option<bv8>, param2: Option<bv8>,
                     msg: array?<bv8>, msgSize: SizeOut?) returns (ok: bool)
    requires msg != null && msgSize != null && channel <= MaxChannel && ValidateCommand(command) ==>
      BufferNeed(param1, param2) <= msg.Length
    modifies msg, msgSize
    ensures ok <==> msg != null && msgSize != null && channel <= MaxChannel && ValidateCommand(command)
    ensures ok ==> msg[..] == Slots(old(msg[..]), command, channel, param1, param2)
    ensures ok ==> msgSize.value == MessageSize(param1, param2)
    ensures !ok && msg != null ==> msg[..] == old(msg[..])
    ensures !ok && msgSize != null ==> msgSize.value == old(msgSize.value)
  {
    ok := false;
    if msg == null {
      return;
    }
    if msgSize == null {
      return;
    }
    if channel > MaxChannel {
      return;
    }
    if !ValidateCommand(command) {
      return;
    }
    var bytesCount: bv8 := 1;
    msg[0] := StatusByte(command, channel);
    if param1.Some? {
      msg[1] := param1.value;
      bytesCount := bytesCount + 1;
    }
    if param2.Some? {
      msg[2] := param2.value;
      bytesCount := bytesCount + 1;
    }
    msgSize.value := bytesCount;
    ok := true;
  }

  /** What every per-command builder promises on failure: nothing written. */
  twostate predicate Untouched(msg: array?<bv8>, msgSize: SizeOut?)
    reads msg, msgSize
  {
    && (msg != null ==> msg[..] == old(msg[..]))
    && (msgSize != null ==> msgSize.value == old(msgSize.value))
  }

  /** `midi_make_message_note_off`: `[0x80 | channel, key, velocity]`. */
  method MakeNoteOff(channel: bv8, key: bv8, velocity: bv8, msg: array?<bv8>, msgSize: SizeOut?) returns (ok: bool)
    requires msg != null && msgSize != null && channel <= MaxChannel ==> 3 <= msg.Length
    modifies msg, msgSize
    ensures ok <==> msg != null && msgSize != null && channel <= MaxChannel
    ensures ok ==> msg[..3] == [0x80 | channel, key, velocity] && msg[3..] == old(msg[3..])
    ensures ok ==> msgSize.value == 3
    ensures !ok ==> Untouched(msg, msgSize)
  {
    ok := MakeMessage(NoteOff.Value(), channel, Some(key), Some(velocity), msg, msgSize);
  }

  /** `midi_make_message_note_on`: `[0x90 | channel, key, velocity]`. */
  method MakeNoteOn(channel: bv8, key: bv8, velocity: bv8, msg: array?<bv8>, msgSize: SizeOut?) returns (ok: bool)
    requires msg != null && msgSize != null && channel <= MaxChannel ==> 3 <= msg.Length
    modifies msg, msgSize
    ensures ok <==> msg != null && msgSize != null && channel <= MaxChannel
    ensures ok ==> msg[..3] == [0x90 | channel, key, velocity] && msg[3..] == old(msg[3..])
    ensures ok ==> msgSize.value == 3
    ensures !ok ==> Untouched(msg, msgSize)
  {
    ok := MakeMessage(NoteOn.Value(), channel, Some(key), Some(velocity), msg, msgSize);
  }

  /** `midi_make_message_aftertouch`: `[0xA0 | channel, key, touch]`. */
  method MakeAftertouch(channel: bv8, key: bv8, touch: bv8, msg: array?<bv8>, msgSize: SizeOut?) returns (ok: bool)
    requires msg != null && msgSize != null && channel <= MaxChannel ==> 3 <= msg.Length
    modifies msg, msgSize
    ensures ok <==> msg != null && msgSize != null && channel <= MaxChannel
    ensures ok ==> msg[..3] == [0xA0 | channel, key, touch] && msg[3..] == old(msg[3..])
    ensures ok ==> msgSize.value == 3
    ensures !ok ==> Untouched(msg, msgSize)
  {
    ok := MakeMessage(Aftertouch.Value(), channel, Some(key), Some(touch), msg, msgSize);
  }

  /** `midi_make_message_control_change`: `[0xB0 | channel, controller, value]`. */
  method MakeControlChange(channel: bv8, controller: bv8, value: bv8, msg: array?<bv8>, msgSize: SizeOut?) returns (ok: bool)
    requires msg != null && msgSize != null && channel <= MaxChannel ==> 3 <= msg.Length
    modifies msg, msgSize
    ensures ok <==> msg != null && msgSize != null && channel <= MaxChannel
    ensures ok ==> msg[..3] == [0xB0 | channel, controller, value] && msg[3..] == old(msg[3..])
    ensures ok ==> msgSize.value == 3
    ensures !ok ==> Untouched(msg, msgSize)
  {
    ok := MakeMessage(ControlChange.Value(), channel, Some(controller), Some(value), msg, msgSize);
  }

  /** `midi_make_message_program_change`: `[0xC0 | channel, program]`, only
      one data byte, so slot 2 is left as it was. */
  method MakeProgramChange(channel: bv8, program: bv8, msg: array?<bv8>, msgSize: SizeOut?) returns (ok: bool)
    requires msg != null && msgSize != null && channel <= MaxChannel ==> 2 <= msg.Length
    modifies msg, msgSize
    ensures ok <==> msg != null && msgSize != null && channel <= MaxChannel
    ensures ok ==> msg[..2] == [0xC0 | channel, program] && msg[2..] == old(msg[2..])
    ensures ok ==> msgSize.value == 2
    ensures !ok ==> Untouched(msg, msgSize)
  {
    ok := MakeMessage(ProgramChange.Value(), channel, Some(program), None, msg, msgSize);
  }

  /** `midi_make_message_pitch_bend`: `[0xE0 | channel, lsb, msb]`. */
  method MakePitchBend(channel: bv8, lsb: bv8, msb: bv8, msg: array?<bv8>, msgSize: SizeOut?) returns (ok: bool)
    requires msg != null && msgSize != null && channel <= MaxChannel ==> 3 <= msg.Length
    modifies msg, msgSize
    ensures ok <==> msg != null && msgSize != null && channel <= MaxChannel
    ensures ok ==> msg[..3] == [0xE0 | channel, lsb, msb] && msg[3..] == old(msg[3..])
    ensures ok ==> msgSize.value == 3
    ensures !ok ==> Untouched(msg, msgSize)
  {
    ok := MakeMessage(PitchBend.Value(), channel, Some(lsb), Some(msb), msg, msgSize);
  }
}
