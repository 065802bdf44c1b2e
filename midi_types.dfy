/** Declarations of midi.h: the eight command constants, the channel range,
    the message capacity, and the serial transport that `struct midi` holds. */
module MidiTypes {

  /** Presence of an optional parameter (a NULL or non-NULL `uint8_t *`). */
  datatype Option<+T> = None | Some(value: T)

  /** The status-nibble categories of `enum midi_commands`. */
  datatype Command =
    | NoteOff | NoteOn | Aftertouch | ControlChange
    | ProgramChange | ChannelPressure | PitchBend | NonMusical
  {
    /** The enum constant: the command nibble in bits 4-7, bits 0-3 clear. */
    function Value(): (v: bv8)
      ensures v & 0x0F == 0 && 0x80 <= v
    {
      match this
      case NoteOff => 0x80
      case NoteOn => 0x90
      case Aftertouch => 0xA0
      case ControlChange => 0xB0
      case ProgramChange => 0xC0
      case ChannelPressure => 0xD0
      case PitchBend => 0xE0
      case NonMusical => 0xF0
    }
  }

  /** The command whose enum constant is `b`, if there is one. */
  function CommandOf(b: bv8): (c: Option<Command>)
    ensures c.Some? ==> c.value.Value() == b
  {
    if b == 0x80 then Some(NoteOff)
    else if b == 0x90 then Some(NoteOn)
    else if b == 0xA0 then Some(Aftertouch)
    else if b == 0xB0 then Some(ControlChange)
    else if b == 0xC0 then Some(ProgramChange)
    else if b == 0xD0 then Some(ChannelPressure)
    else if b == 0xE0 then Some(PitchBend)
    else if b == 0xF0 then Some(NonMusical)
    else None
  }

  /** Every constant reads back as its own command. */
  lemma CommandOfValue(c: Command)
    ensures CommandOf(c.Value()) == Some(c)
  {
  }

  /** The eight constants are pairwise distinct. */
  lemma CommandValuesDistinct(c1: Command, c2: Command)
    ensures c1.Value() == c2.Value() ==> c1 == c2
  {
  }

  /** Channels are numbered from 0x0 (a `uint8_t` cannot go lower) up to 0xF. */
  const MaxChannel: bv8 := 0xF

  /** A message is a status byte and at most two data bytes. */
  const MaxMessageSize: bv8 := 3

  /** The `uint8_t *msg_size` out-parameter of the builders. */
  class SizeOut {
    var value: bv8

    constructor (initial: bv8)
      ensures value == initial
    {
      value := initial;
    }
  }

  /** The reply list once one reply has been consumed. */
  function Advance(replies: seq<bv8>): seq<bv8>
  {
    if replies == [] then [] else replies[1..]
  }

  /** The serial write function behind `struct midi`'s only field. What it
      does with the bytes is outside the model: its answers are a script
      fixed by whoever supplies it, and a ghost log records every call. */
  class Transport {
    var replies: seq<bv8>
    ghost var calls: seq<seq<bv8>>

    constructor (replies: seq<bv8>)
      ensures this.replies == replies && calls == []
    {
      this.replies := replies;
      calls := [];
    }

    /** The count the next call will report; 0 once the script is spent. */
    function NextReply(): bv8
      reads this
    {
      if replies == [] then 0 else replies[0]
    }

    /** `serial_write(buf, n)`: hands over the first `n` bytes of `buf` and
        reports how many were written. */
    method Write(buf: array<bv8>, n: bv8) returns (written: bv8)
      requires n as int <= buf.Length
      modifies this
      ensures calls == old(calls) + [buf[..n]]
      ensures written == old(NextReply())
      ensures replies == Advance(old(replies))
    {
      written := NextReply();
      replies := Advance(replies);
      calls := calls + [buf[..n]];
    }
  }
}
