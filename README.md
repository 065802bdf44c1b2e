# MIDI message encoder — a Dafny model

This project models a small C library that encodes MIDI 1.0 channel voice
messages and hands them to a serial write function supplied by the caller.
The library has three layers:

- **Message builder** (`MidiMessages`). `validate_command` accepts exactly the
  eight `enum midi_commands` constants 0x80, 0x90, …, 0xF0.
  `midi_make_message` checks the buffer and size pointers, the channel (at
  most 0xF) and the command. It then writes the status byte
  `command + channel` into slot 0 of the caller's buffer. A present param1 goes
  to slot 1 and a present param2 to slot 2. The size (1 plus one per present
  parameter) is stored through the out-pointer. The six `midi_make_message_*`
  builders fix the command and the parameters.
- **Dispatcher** (`MidiSession`). `struct midi` becomes class `Midi`; its one
  field is the serial write slot. `midi_init` installs the transport.
  `midi_send_message` checks the buffer, the size (1 to 3) and that a
  transport is installed. It then calls the transport once and succeeds when
  the reported count equals the size. `midi_send` builds into a 3-byte stack
  buffer and dispatches it. The six `midi_send_*` wrappers fix the command.
- **Transport** (`MidiTypes.Transport`). The function pointer behind
  `struct midi`. Its answers come from a reply script fixed when it is
  created. A ghost log `calls` records the bytes of every call, so "the
  transport is not called" can be stated.

Bytes are `bv8`, so `command + channel` wraps like `uint8_t` arithmetic. The
C status codes 0 and -1 become `true` and `false`. A parameter pointer that
may be NULL becomes `Option<bv8>`. The `msg` buffer becomes `array?<bv8>` and
the `msg_size` out-pointer a nullable `SizeOut` cell; a NULL value for either
makes the builder fail.

Points where the code is followed rather than looser descriptions of it:

- With param1 absent and param2 present, param2 still goes to slot 2 and the
  reported size is 2. Slot 1 keeps whatever the buffer held. In `midi_send`
  that buffer is an uninitialised stack array, so the transport receives the
  status byte and a stale byte (`GapKeepsSlotOne`, and the existential clause
  of `Midi.Send`). It does not slide param2 into slot 1.
- The header table gives Program Change two data bytes. The code sends the
  status byte and one data byte (`MakeProgramChange`, `SendProgramChange`).
- Data bytes are copied verbatim: nothing checks the 7-bit convention.
- Every failure reports the same -1, so the model has one failure value and
  no error kinds.

## Model

| member | source | states |
|---|---|---|
| `MidiTypes.Command.Value` | midi.h:43-53 | each command constant has a clear low nibble and the high bit set |
| `MidiTypes.CommandOfValue` | midi.h:43-53 | every command constant reads back as its own command |
| `MidiTypes.CommandValuesDistinct` | midi.h:45-52 | the eight command constants are pairwise distinct |
| `MidiTypes.Transport.Write` | midi.h:39 | a call to the serial write function appends exactly the first `n` bytes of the buffer to the log and reports the next scripted count |
| `MidiMessages.ValidateCommand` | midi.c:400-424 | a command is valid iff its high bit is set and its low nibble is zero, which is exactly the eight enum constants |
| `MidiMessages.ValidIffDeclared` | midi.c:406-419 | a byte passes `validate_command` iff some declared command has it as its constant (both directions) |
| `MidiMessages.StatusByte` | midi.c:262-264 | for a valid command and a channel up to 0xF, the `uint8_t` sum `command + channel` equals their bitwise OR; its high nibble is the command and its low nibble the channel |
| `MidiMessages.StatusByteDecodes` | midi.h:26-32 | the status byte of a declared command and a valid channel gives back that command and that channel |
| `MidiMessages.DeclaredCommandMessage` | midi.c:262-278 | a declared command passes validation, and its message is the constant ORed with the channel followed by the parameters |
| `MidiMessages.MessageSize` | midi.c:237-280 | the reported size is in 1..3 and equals the length of the status byte plus the present parameters |
| `MidiMessages.SlotsHoldMessage` | midi.c:262-280 | with param1 present or param2 absent, the reported prefix of the buffer is the status byte followed by the present parameters, whatever the buffer held before |
| `MidiMessages.GapKeepsSlotOne` | midi.c:266-280 | with only param2 present, the size is 2, slot 1 keeps its old byte and param2 lands in slot 2; the reported prefix is the message iff the old byte equals param2 |
| `MidiMessages.MakeMessage` | midi.c:231-285 | succeeds iff both pointers are present, the channel is at most 0xF and the command is valid; on success the buffer is the fixed-slot update of its old contents and the size is the message size; on failure neither the buffer nor the size changes |
| `MidiMessages.MakeNoteOff` | midi.c:297-303 | builds `[0x80 + channel, key, velocity]` with size 3 iff the pointers are present and the channel is valid |
| `MidiMessages.MakeNoteOn` | midi.c:315-321 | builds `[0x90 + channel, key, velocity]` with size 3 |
| `MidiMessages.MakeAftertouch` | midi.c:333-339 | builds `[0xA0 + channel, key, touch]` with size 3 |
| `MidiMessages.MakeControlChange` | midi.c:351-357 | builds `[0xB0 + channel, controller, value]` with size 3 |
| `MidiMessages.MakeProgramChange` | midi.c:368-374 | builds `[0xC0 + channel, program]` with size 2 and leaves slot 2 untouched |
| `MidiMessages.MakePitchBend` | midi.c:386-392 | builds `[0xE0 + channel, lsb, msb]` with size 3 |
| `MidiSession.Midi.constructor` | midi.h:37-40 | a session holds one transport slot, unset at first |
| `MidiSession.Midi.Init` | midi.c:16-37 | installs the transport iff it is present; on failure the slot is unchanged |
| `MidiSession.Midi.SendMessage` | midi.c:87-128 | with no buffer, a size of 0 or above 3, or no transport, it fails and the transport is untouched; otherwise the transport is called once with exactly the first `msg_size` bytes, and the send succeeds iff the reported count equals the size |
| `MidiSession.Midi.Send` | midi.c:48-78 | a rejected channel or command, or a missing transport, fails without calling the transport; otherwise the transport receives the fixed-slot buffer cut to the message size (exactly the message when param1 is present or param2 absent), and success means the full size was reported |
| `MidiSession.Midi.SendNoteOff` | midi.c:138-143 | sends `[0x80 + channel, key, velocity]` once; fails without sending for a channel above 0xF or with no transport |
| `MidiSession.Midi.SendNoteOn` | midi.c:153-158 | sends `[0x90 + channel, key, velocity]` once, under the same failure conditions |
| `MidiSession.Midi.SendAftertouch` | midi.c:168-173 | sends `[0xA0 + channel, key, touch]` once, under the same failure conditions |
| `MidiSession.Midi.SendControlChange` | midi.c:183-189 | sends `[0xB0 + channel, controller, value]` once, under the same failure conditions |
| `MidiSession.Midi.SendProgramChange` | midi.c:198-204 | sends the two bytes `[0xC0 + channel, program]` once and succeeds iff 2 is reported |
| `MidiSession.Midi.SendPitchBend` | midi.c:214-219 | sends `[0xE0 + channel, lsb, msb]` once, under the same failure conditions |
| `MidiScenarios.DocumentedExamples` | midi.h:30-32 | Pitch Bend on channel 0 has status 0xE0, Control Change on channel 8 has 0xB8 |
| `MidiScenarios.RejectedCommands` | midi.c:406-419 | 0x85 (a channel nibble set) and 0x70 (below 0x80) fail `validate_command` |
| `MidiScenarios.ShortBufferRejected` | midi.c:241-260 | a build with channel 16 into a 1-byte buffer and a send of size 3 from that buffer with no transport are both admissible calls, and both fail |
| `MidiScenarios.SendBeforeInit` | midi.c:114-117 | a send on a session with no transport installed fails |
| `MidiScenarios.NoteOnDelivered` | midi.c:153-158 | Note On, channel 0, key 60, velocity 100 reaches the transport as `[0x90, 60, 100]` and succeeds when 3 is reported |
| `MidiScenarios.NoteOnShortWrite` | midi.c:119-123 | the same send fails when the transport reports 2 of 3 bytes |
| `MidiScenarios.PitchBendDelivered` | midi.c:214-219 | Pitch Bend on channel 15 with lsb 0x7F and msb 0x01 reaches the transport as `[0xEF, 0x7F, 0x01]` |
| `MidiScenarios.BadChannelNotSent` | midi.c:251-254 | channel 16 is rejected and the transport is never called |

## Left out

- The NULL checks on `midi` (midi.c:22, 58, 94): the session is the receiver object of the class methods, so it cannot be absent.
- What `serial_write` does with the bytes: the serial I/O is a foreign call. The transport is a reply script, and once the script is spent it reports 0 bytes written. Any sequence of answers can be scripted, so every outcome of the real call is covered.
- MakeMessage: on a call that passes every check, the `requires` asks for a buffer that holds the slots about to be written (1, 2 or 3 bytes by parameter presence); the C code writes them without knowing the buffer's size. Calls that fail a check may pass any buffer.
- Midi.SendMessage: on a call that reaches the transport, the `requires` asks that the buffer holds `msg_size` bytes, since the transport is handed that many; the C code passes the pointer on without knowing the buffer's size.
- Transport.Write: the transport is assumed not to write into the buffer it is given (C passes a non-const pointer) and not to call back into the library or change the session; the model's transport changes only its own reply script and log.
- Concurrency: the library has no locking, and the model is sequential.
- Running status, System Exclusive, parsing and timing: the library has none of these.
