/** Clients of the session: what a caller can conclude from the contracts
    alone, for the documented uses of the library. */
module MidiScenarios {
  import opened MidiTypes
  import opened MidiMessages
  import opened MidiSession

  /** The examples in midi.h: Pitch Bend on channel index 0 is 0xE0,
      Control Change on channel index 8 is 0xB8. */
  lemma DocumentedExamples()
    ensures StatusByte(PitchBend.Value(), 0) == 0xE0
    ensures StatusByte(ControlChange.Value(), 8) == 0xB8
  {
  }

  /** A channel nibble in the command (0x85) or a byte below 0x80 (0x70)
      is not a command. */
  lemma RejectedCommands()
    ensures !ValidateCommand(0x85) && !ValidateCommand(0x70)
  {
  }

  /** Failing builds and sends never touch a buffer too short for the
      message: a 1-byte buffer with channel 16 is rejected unchanged, and
      a send with no transport never reads its buffer. */
  method ShortBufferRejected() returns (built: bool, sent: bool)
    ensures !built && !sent
  {
    var msg := new bv8[1];
    msg[0] := 0x42;
    var msgSize := new SizeOut(7);
    built := MakeNoteOn(16, 60, 100, msg, msgSize);
    assert msg[..] == [0x42] && msgSize.value == 7;
    var midi := new Midi();
    sent := midi.SendMessage(msg, 3);
  }

  /** Sending before `midi_init` fails. */
  method SendBeforeInit() returns (ok: bool)
    ensures !ok
  {
    var midi := new Midi();
    ok := midi.SendNoteOn(0, 60, 100);
  }

  /** Note On on channel 0 reaches the transport as `[0x90, 60, 100]` and
      succeeds when all three bytes are reported written. */
  method NoteOnDelivered() returns (ok: bool, port: Transport)
    ensures ok && port.calls == [[0x90, 60, 100]]
  {
    port := new Transport([3]);
    var midi := new Midi();
    var installed := midi.Init(port);
    ok := midi.SendNoteOn(0, 60, 100);
  }

  /** A transport that reports 2 of 3 bytes written makes the send fail,
      although it was called with the whole message. */
  method NoteOnShortWrite() returns (ok: bool, port: Transport)
    ensures !ok && port.calls == [[0x90, 60, 100]]
  {
    port := new Transport([2]);
    var midi := new Midi();
    var installed := midi.Init(port);
    ok := midi.SendNoteOn(0, 60, 100);
  }

  /** Pitch Bend on channel 15 reaches the transport as `[0xEF, 0x7F, 0x01]`. */
  method PitchBendDelivered() returns (ok: bool, port: Transport)
    ensures ok && port.calls == [[0xEF, 0x7F, 0x01]]
  {
    port := new Transport([3]);
    var midi := new Midi();
    var installed := midi.Init(port);
    ok := midi.SendPitchBend(15, 0x7F, 0x01);
  }

  /** A channel above 0xF is rejected before the transport is called. */
  method BadChannelNotSent() returns (ok: bool, port: Transport)
    ensures !ok && port.calls == []
  {
    port := new Transport([3]);
    var midi := new Midi();
    var installed := midi.Init(port);
    ok := midi.SendNoteOn(16, 60, 100);
  }
}
