/** The dispatcher of midi.c: `midi_init`, `midi_send_message`, `midi_send`
    and the six `midi_send_*` wrappers, as methods of `struct midi`. */
module MidiSession {
  import opened MidiTypes
  import opened MidiMessages

  /** `struct midi`: one slot for the serial write function. */
  class Midi {
    var serialWrite: Transport?

    /** A session starts with no transport installed. */
    constructor ()
      ensures serialWrite == null
    {
      serialWrite := null;
    }

    /** `midi_init`: installs the transport when it is present; a missing
        transport fails and leaves the slot as it was. */
    method Init(serialWrite: Transport?) returns (ok: bool)
      modifies this
      ensures ok <==> serialWrite != null
      ensures this.serialWrite == if ok then serialWrite else old(this.serialWrite)
    {
      ok := false;
      if serialWrite == null {
        return;
      }
      this.serialWrite := serialWrite;
      ok := true;
    }

    /** The guards `midi_send_message` passes before calling the transport. */
    predicate Dispatches(msg: array?<bv8>, msgSize: bv8)
      reads this
    {
      msg != null && 1 <= msgSize <= MaxMessageSize && serialWrite != null
    }

    /** `midi_send_message`: rejects a missing buffer, a size of 0 or above
        3, or a missing transport, without calling the transport; otherwise
        hands the first `msgSize` bytes to the transport once and succeeds
        exactly when it reports all of them written. */
    method SendMessage(msg: array?<bv8>, msgSize: bv8) returns (ok: bool)
      requires Dispatches(msg, msgSize) ==> msgSize as int <= msg.Length
      modifies serialWrite
      ensures !Dispatches(msg, msgSize) ==> !ok && (serialWrite != null ==> unchanged(serialWrite))
      ensures Dispatches(msg, msgSize) ==>
        && serialWrite.calls == old(serialWrite.calls) + [msg[..msgSize]]
        && serialWrite.replies == Advance(old(serialWrite.replies))
        && (ok <==> old(serialWrite.NextReply()) == msgSize)
    {
      ok := false;
      if msg == null {
        return;
      }
      if msgSize == 0 {
        return;
      }
      if msgSize > MaxMessageSize {
        return;
      }
      if serialWrite == null {
        return;
      }
      var written := serialWrite.Write(msg, msgSize);
      if written != msgSize {
        return;
      }
      ok := true;
    }

    /** `midi_send`: builds into an uninitialised 3-byte buffer, then sends
        it. A rejected command or channel fails before the transport is
        called. Otherwise the outcome is `SendMessage`'s on the built bytes:
        the status byte and the parameters in their fixed slots, cut to the
        reported size; with param1 present or param2 absent those bytes are
        exactly the message. */
    method Send(command: bv8, channel: bv8, param1: Option<bv8>, param2: Option<bv8>) returns (ok: bool)
      modifies serialWrite
      ensures !(channel <= MaxChannel && ValidateCommand(command)) || serialWrite == null ==>
        !ok && (serialWrite != null ==> unchanged(serialWrite))
      ensures channel <= MaxChannel && ValidateCommand(command) && serialWrite != null ==>
        && (exists stack: seq<bv8> | |stack| == 3 ::
              serialWrite.calls == old(serialWrite.calls)
                + [Slots(stack, command, channel, param1, param2)[..MessageSize(param1, param2)]])
        && ((param1.Some? || param2.None?) ==>
              serialWrite.calls == old(serialWrite.calls) + [Message(command, channel, param1, param2)])
        && serialWrite.replies == Advance(old(serialWrite.replies))
        && (ok <==> old(serialWrite.NextReply()) == MessageSize(param1, param2))
    {
      ok := false;
      var msg := new bv8[3];
      ghost var stack := msg[..];
      var msgSize := new SizeOut(0);
      var built := MakeMessage(command, channel, param1, param2, msg, msgSize);
      if !built {
        return;
      }
      ghost var sent := Slots(stack, command, channel, param1, param2)[..MessageSize(param1, param2)];
      assert msg[..msgSize.value] == sent;
      if param1.Some? || param2.None? {
        SlotsHoldMessage(stack, command, channel, param1, param2);
      }
      ok := SendMessage(msg, msgSize.value);
      assert serialWrite != null ==> serialWrite.calls == old(serialWrite.calls) + [sent];
    }

    /** `midi_send_note_off`: sends `[0x80 | channel, key, velocity]`. */
    method SendNoteOff(channel: bv8, key: bv8, velocity: bv8) returns (ok: bool)
      modifies serialWrite
      ensures channel > MaxChannel || serialWrite == null ==>
        !ok && (serialWrite != null ==> unchanged(serialWrite))
      ensures channel <= MaxChannel && serialWrite != null ==>
        && serialWrite.calls == old(serialWrite.calls) + [[0x80 | channel, key, velocity]]
        && serialWrite.replies == Advance(old(serialWrite.replies))
        && (ok <==> old(serialWrite.NextReply()) == 3)
    {
      if channel <= MaxChannel {
        DeclaredCommandMessage(NoteOff, channel, key, Some(velocity));
      }
      ok := Send(NoteOff.Value(), channel, Some(key), Some(velocity));
    }

    /** `midi_send_note_on`: sends `[0x90 | channel, key, velocity]`. */
    method SendNoteOn(channel: bv8, key: bv8, velocity: bv8) returns (ok: bool)
      modifies serialWrite
      ensures channel > MaxChannel || serialWrite == null ==>
        !ok && (serialWrite != null ==> unchanged(serialWrite))
      ensures channel <= MaxChannel && serialWrite != null ==>
        && serialWrite.calls == old(serialWrite.calls) + [[0x90 | channel, key, velocity]]
        && serialWrite.replies == Advance(old(serialWrite.replies))
        && (ok <==> old(serialWrite.NextReply()) == 3)
    {
      if channel <= MaxChannel {
        DeclaredCommandMessage(NoteOn, channel, key, Some(velocity));
      }
      ok := Send(NoteOn.Value(), channel, Some(key), Some(velocity));
    }

    /** `midi_send_aftertouch`: sends `[0xA0 | channel, key, touch]`. */
    method SendAftertouch(channel: bv8, key: bv8, touch: bv8) returns (ok: bool)
      modifies serialWrite
      ensures channel > MaxChannel || serialWrite == null ==>
        !ok && (serialWrite != null ==> unchanged(serialWrite))
      ensures channel <= MaxChannel && serialWrite != null ==>
        && serialWrite.calls == old(serialWrite.calls) + [[0xA0 | channel, key, touch]]
        && serialWrite.replies == Advance(old(serialWrite.replies))
        && (ok <==> old(serialWrite.NextReply()) == 3)
    {
      if channel <= MaxChannel {
        DeclaredCommandMessage(Aftertouch, channel, key, Some(touch));
      }
      ok := Send(Aftertouch.Value(), channel, Some(key), Some(touch));
    }

    /** `midi_send_control_change`: sends `[0xB0 | channel, controller, value]`. */
    method SendControlChange(channel: bv8, controller: bv8, value: bv8) returns (ok: bool)
      modifies serialWrite
      ensures channel > MaxChannel || serialWrite == null ==>
        !ok && (serialWrite != null ==> unchanged(serialWrite))
      ensures channel <= MaxChannel && serialWrite != null ==>
        && serialWrite.calls == old(serialWrite.calls) + [[0xB0 | channel, controller, value]]
        && serialWrite.replies == Advance(old(serialWrite.replies))
        && (ok <==> old(serialWrite.NextReply()) == 3)
    {
      if channel <= MaxChannel {
        DeclaredCommandMessage(ControlChange, channel, controller, Some(value));
      }
      ok := Send(ControlChange.Value(), channel, Some(controller), Some(value));
    }

    /** `midi_send_program_change`: sends the two bytes `[0xC0 | channel, program]`. */
    method SendProgramChange(channel: bv8, program: bv8) returns (ok: bool)
      modifies serialWrite
      ensures channel > MaxChannel || serialWrite == null ==>
        !ok && (serialWrite != null ==> unchanged(serialWrite))
      ensures channel <= MaxChannel && serialWrite != null ==>
        && serialWrite.calls == old(serialWrite.calls) + [[0xC0 | channel, program]]
        && serialWrite.replies == Advance(old(serialWrite.replies))
        && (ok <==> old(serialWrite.NextReply()) == 2)
    {
      if channel <= MaxChannel {
        DeclaredCommandMessage(ProgramChange, channel, program, None);
      }
      ok := Send(ProgramChange.Value(), channel, Some(program), None);
    }

    /** `midi_send_pitch_bend`: sends `[0xE0 | channel, lsb, msb]`. */
    method SendPitchBend(channel: bv8, lsb: bv8, msb: bv8) returns (ok: bool)
      modifies serialWrite
      ensures channel > MaxChannel || serialWrite == null ==>
        !ok && (serialWrite != null ==> unchanged(serialWrite))
      ensures channel <= MaxChannel && serialWrite != null ==>
        && serialWrite.calls == old(serialWrite.calls) + [[0xE0 | channel, lsb, msb]]
        && serialWrite.replies == Advance(old(serialWrite.replies))
        && (ok <==> old(serialWrite.NextReply()) == 3)
    {
      if channel <= MaxChannel {
        DeclaredCommandMessage(PitchBend, channel, lsb, Some(msb));
      }
      ok := Send(PitchBend.Value(), channel, Some(lsb), Some(msb));
    }
  }
}
