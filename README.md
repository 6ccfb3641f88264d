# pwm_joy in Dafny

`pwm_joy.py` turns a Linux joystick (`/dev/input/js0`) into keyboard and mouse
input. On every pass of its main loop it does four things:

- it reads at most one 8-byte joystick event record and stores the new button or
  axis value;
- it drives every mapped axis as a PWM key channel (default: `x` on keys `a`/`d`,
  `y` on keys `w`/`s`, 10 Hz, deadzone 0.15). Within each period the key for the
  axis's sign is held for a fraction |v| of the period (`Pwm.StartDuty`,
  `Pwm.PressedDuty`);
- it integrates the mapped right-stick axes into a relative mouse motion (gain
  0.5). Whole units are moved out and the fraction is carried to the next pass;
- it passes the mapped buttons `tr2`/`tl2` through to the left and right mouse
  buttons.

This project models that core as Dafny:

- `events.dfy` (module `Events`): the output events and the configuration
  (frequency, deadzone, the three mapping tables in dictionary order). `Default`
  is the shipped configuration.
- `decoder.dfy` (module `Decoder`): the 'IhBB' little-endian record, its unpacking
  and packing, and `Scan`, the state change one read causes.
- `names.dfy` (module `Names`): the code-to-name tables, and the `unknown(0x..)`
  placeholder names with their hex formatting.
- `pwm.dfy` (module `Pwm`): one PWM channel as a state machine (`ChannelStep`),
  and lemmas over single steps and over runs of many ticks.
- `mouse.dfy` (module `Mouse`): truncation toward zero, the carry, one
  integrator tick, and lemmas over runs of many ticks.
- `translator.dfy` (module `Translator`): the class `PwmJoy`. It holds the
  program's global dictionaries and `main`'s locals as fields. Its methods are
  the program's steps, each written as the source's loops and proved against the
  specification functions above. `Tick` is one pass of the main loop.

Every call the program makes on the `pynput` keyboard or mouse controller is
appended to the field `events` as an `Output` value.

Where the code does something other than an idealised design, the model follows
the code:

- The release key is chosen by the sign of the axis at release time, not at
  press time. A sign change inside a period can therefore release the other key
  and leave the pressed one down (`Pwm.SignFlipReleasesOtherKey`).
- A period that ends while a key is held resets the channel to Idle without
  releasing the key (`Pwm.RolloverKeepsKeyDown`, `Pwm.RolloverPressesSecondKey`).
- The button pass-through calls `release` on every pass for every button that
  reads zero, so a tick at rest still emits one release per mapped button
  (`Translator.QuietTick`).
- A button's state is the raw value of its last event, not a boolean.

## Model

| member | source | states |
|---|---|---|
| Events.Period | pwm_joy.py:201 | the PWM period is positive and is the reciprocal of the frequency |
| Decoder.Unpack | pwm_joy.py:171 | a decoded record has a u32 time and an i16 value; type and number are bytes 6 and 7; the value is negative exactly when the sign bit of byte 5 is set |
| Decoder.UnpackPack | pwm_joy.py:171 | packing a well-formed event and unpacking it gives the same event back |
| Decoder.PackUnpack | pwm_joy.py:171 | unpacking any 8-byte record and packing it again gives the same bytes back |
| Decoder.Normalize | pwm_joy.py:188 | the axis value is the raw i16 over 32767, so it lies in [-32768/32767, 1] and keeps the raw sign |
| Decoder.Received | pwm_joy.py:165-171 | a read yields an event exactly when it returned 8 bytes, and that event packs back to those bytes |
| Decoder.ScanNothingRead | pwm_joy.py:165-170 | a read with no data queued, or an empty read, leaves both dictionaries unchanged |
| Decoder.Apply | pwm_joy.py:175-190 | a name is in a dictionary after the event exactly when it was before, or it is the non-empty name that the event's button (axis) bit selects from the button (axis) name table |
| Decoder.Scan | pwm_joy.py:163-190 | a read adds no name to either dictionary that is not in the matching name table of the device |
| Decoder.ScanInitialOnly | pwm_joy.py:172-174 | a whole record with neither the button bit nor the axis bit (the 0x80 bit alone, for one) changes nothing |
| Decoder.InitialBitIgnored | pwm_joy.py:172-174 | setting the 0x80 "initial" bit in a record's type byte keeps it decodable and changes nothing about what the read does |
| Decoder.ScanUpdates | pwm_joy.py:175-190 | the button bit stores the raw value under the button's name; the axis bit stores value/32767 under the axis's name; both can apply to one record; every other entry, and an entry under the empty name a record selects, is unchanged |
| Decoder.ScanKeepsRange | pwm_joy.py:185-189 | a scan keeps every stored axis value in [-32768/32767, 1] |
| Names.Hex | pwm_joy.py:146 | the hex rendering of a code is non-empty, uses only lower-case hex digits and has no leading zero; 0 is rendered "0" |
| Names.PadHex | pwm_joy.py:146 | '%0<width>x' is exactly `width` characters long when the digits are fewer, the digits alone otherwise, and uses only hex digits |
| Names.HexRoundTrip | pwm_joy.py:146 | reading the hex digits of a code back gives the code |
| Names.PadHexValue | pwm_joy.py:146 | zero-padding the hex digits to the '%02x'/'%03x' width keeps the value they spell |
| Names.UnknownName | pwm_joy.py:155 | the placeholder of a missing code is "unknown(0x", the padded hex digits, then ")", and the digits between read back as the code |
| Names.NameOf | pwm_joy.py:146 | `dict.get` with a default: a code in the table gets the table's name, any other code gets its placeholder |
| Names.NameTable | pwm_joy.py:145-147 | the table holds one name per code in the first `count` entries of the buffer, and never more codes than the buffer holds |
| Names.NamesAt | pwm_joy.py:145-147 | entry i of the names of a code sequence is the name of code i |
| Names.NameTableAt | pwm_joy.py:154-156 | entry i of the name table is the table's name for code i of the buffer, or its placeholder |
| Pwm.KeyFor | pwm_joy.py:220-221 | the key of an axis is its negative key exactly when the value is below zero (or both keys are the same) |
| Pwm.Advance | pwm_joy.py:215-218 | after the rollover check the elapsed time is below tmax, and not negative when the sum was not; the phase is kept or becomes Idle; the elapsed time differs from old + d only by a reset to 0 and Idle |
| Pwm.ChannelStep | pwm_joy.py:214-227 | a step takes the elapsed time of the rollover check and makes at most two key calls, each a press or a release of the key for the sign of v |
| Pwm.ElapsedBound | pwm_joy.py:215-218 | with a non-negative delta the elapsed time lies in [0, tmax) after a step; a rollover sets it to 0 and the phase to Idle before the press rule; otherwise it grows by the delta |
| Pwm.PressRule | pwm_joy.py:219-222 | a step presses key k exactly when the channel is Idle after the rollover check, abs(v) > deadzone and k is the key for the sign of v; after a press the channel is not Idle |
| Pwm.DeadzoneNoPress | pwm_joy.py:219 | inside the deadzone a step presses no key |
| Pwm.ReleaseRule | pwm_joy.py:223-227 | a step releases key k exactly when the channel is Pressed after the press rule, elapsed > abs(v*tmax) and k is the key for the current sign of v; the phase then becomes Released |
| Pwm.StepOutputShape | pwm_joy.py:214-227 | a step emits at most a press and a release, both of the key for the sign of v, the press first |
| Pwm.ReleasedWaits | pwm_joy.py:216-227 | Released is left only by a rollover: before the period ends the channel only counts time and emits nothing |
| Pwm.RolloverKeepsKeyDown | pwm_joy.py:216-222 | a rollover while Pressed emits no release; it presses again if the axis is out of the deadzone, otherwise it goes Idle |
| Pwm.FullDeflectionNoRelease | pwm_joy.py:224 | at abs(v) >= 1 a step never releases, because the elapsed time cannot exceed abs(v*tmax) >= tmax |
| Pwm.RunElapsedBound | pwm_joy.py:211-218 | starting inside the period, with non-negative deltas, the elapsed time stays in [0, tmax) after any number of ticks |
| Pwm.RunDeadzoneNoPress | pwm_joy.py:219-222 | an axis that stays inside the deadzone never presses a key over any number of ticks |
| Pwm.RunFullDeflectionNoRelease | pwm_joy.py:223-227 | at full deflection no key is released over any number of ticks |
| Pwm.ReleasedQuiet | pwm_joy.py:216-227 | a released channel that stays inside its period emits nothing over any number of ticks and only adds up the elapsed time |
| Pwm.PressedDuty | pwm_joy.py:219-227 | with the key down and a steady axis value v, within one period the only call is one release of the key for v, made exactly when the elapsed time passes abs(v*tmax) |
| Pwm.StartDuty | pwm_joy.py:214-227 | from the start of a period with a steady axis out of the deadzone, the first tick presses the key for v and the same key is released exactly when the elapsed time passes abs(v*tmax): the duty cycle abs(v) |
| Pwm.SignFlipReleasesOtherKey | pwm_joy.py:225-226 | with the shipped settings, an axis going from 0.5 to -0.5 within one period presses "d" and then releases "a" |
| Pwm.RolloverPressesSecondKey | pwm_joy.py:216-222 | with the shipped settings, "d" is pressed, the period ends before its release, and at -0.5 "a" is pressed with "d" still down |
| Mouse.Trunc | pwm_joy.py:233-235 | `int(r)` truncates toward zero: the result has the sign of r and lies within 1 of it, on the zero side |
| Mouse.Carry | pwm_joy.py:233-238 | the moved-out integer part plus the kept remainder equals the accumulator; the remainder is below 1 in magnitude and has the accumulator's sign; a part is moved out exactly when the magnitude reached 1 |
| Mouse.Increment | pwm_joy.py:228-232 | mappings with another target add nothing: with no mapping for the target the increment is 0 |
| Mouse.MouseStep | pwm_joy.py:233-242 | after a tick both remainders are below 1 in magnitude and at most one move has been made |
| Mouse.MouseStepSpec | pwm_joy.py:228-242 | after a tick both remainders are below 1 in magnitude; emitted plus kept equals old plus added along each axis; a move is emitted exactly when an accumulator reached magnitude 1; there is at most one move and it is never (0, 0) |
| Mouse.MouseRunConserves | pwm_joy.py:228-238 | over any number of ticks, everything emitted plus the final remainder equals the initial remainder plus everything added |
| Mouse.MouseRunRemainder | pwm_joy.py:233-238 | the remainders stay below 1 in magnitude over any number of ticks |
| Mouse.MouseRunNoDrift | pwm_joy.py:228-238 | from empty accumulators the emitted motion differs from the exact sum of the increments by less than 1 unit, after any number of ticks |
| Mouse.QuarterSteps | pwm_joy.py:228-242 | with the shipped gain, an axis at 0.5 adds 0.25 per tick; four ticks emit exactly one move by (1, 0) and leave nothing over |
| Translator.PwmAll | pwm_joy.py:214-227 | a pass keeps one channel per PWM mapping and makes at most two key calls per mapping |
| Translator.PwmAllChannels | pwm_joy.py:214-227 | after a PWM pass each channel is its own step with its own axis value; channels do not affect each other |
| Translator.PwmAllDeadzoneNoPress | pwm_joy.py:214-222 | a pass over axes all inside the deadzone presses no key |
| Translator.ButtonEvent | pwm_joy.py:244-245 | a button's call is a press or a release of its mouse button, a press exactly when its state is non-zero |
| Translator.ButtonEvents | pwm_joy.py:243-245 | exactly one event per mapped button in mapping order: a press exactly when its state is non-zero, a release exactly when it is zero |
| Translator.QuietTick | pwm_joy.py:211-245 | a tick with every mapped axis and button at zero presses no key and moves no mouse, and releases every mapped mouse button |
| Translator.StepChannel | pwm_joy.py:215-227 | the channel update as written in the loop body produces the channel and the key calls of the state-machine step |
| Translator.StepChannels | pwm_joy.py:214-227 | the loop over the PWM mappings leaves the channels and makes the key calls of the whole pass, in mapping order |
| Translator.ButtonCalls | pwm_joy.py:243-245 | the loop over the button mappings makes exactly the pass-through calls of `ButtonEvents` |
| Translator.Accumulate | pwm_joy.py:228-232 | the loop adds to each accumulator the sum of axis value times gain over the mappings that target it, and reads no axis of another target |
| Translator.CollectNames | pwm_joy.py:145-157 | building a table by appending each name makes the name table; each name is entered once in the state dictionary with the initial value |
| Translator.Open | pwm_joy.py:145-157 | opening the device with the linux/input.h code tables gives a new translator in the state the constructor describes |
| Translator.PwmJoy.constructor | pwm_joy.py:145-157 | after opening, the name tables are built from the code buffers through the given code tables, every axis reads 0.0 and every button 0, every channel is at the start of a period and Idle, the accumulators are empty, nothing has been emitted, and the state invariant holds |
| Translator.PwmJoy.ScanJoy | pwm_joy.py:163-190 | the dictionaries become the result of `Scan` on their old contents, and the state invariant is kept |
| Translator.PwmJoy.PwmPass | pwm_joy.py:214-227 | the channels and the appended key calls are those of the whole PWM pass; every elapsed time stays in [0, tmax) |
| Translator.PwmJoy.MousePass | pwm_joy.py:228-242 | the remainders and the appended move are those of one integrator tick on the increments of the mapped axes; the state invariant (remainders below 1, x = y = 0) is kept |
| Translator.PwmJoy.EmitMove | pwm_joy.py:233-242 | the integer parts are moved out by the carry, and one move is appended exactly when either is non-zero; x and y are 0 afterwards |
| Translator.PwmJoy.ButtonPass | pwm_joy.py:243-245 | the pass-through events of every mapped button are appended in mapping order |
| Translator.PwmJoy.Tick | pwm_joy.py:211-245 | one pass of the main loop: the dictionaries become `Scan` of the read, and the channels, the remainders and the appended events are the PWM pass, the integrator tick and the button pass-through, all on the updated state; the state invariant is kept |

## Left out

- Opening the device and the `ioctl` queries of `joy_init` (`os.listdir`, `os.open`, device name, axis and button counts, code buffers) are OS I/O. `Open` and the constructor take the code buffers and counts as parameters; the constructor also takes the code tables, which `Open` fills with `AxisNames` and `ButtonNames`.
- The `pynput` keyboard and mouse controllers are foreign code. Their calls are recorded as `Output` values in `events`.
- The wall clock (`get_time_delta`, `time.time`) and `time.sleep` are left out. The elapsed time `d` is a parameter of `Tick`.
- The endless `while True` loop is one `Tick`. Properties over many ticks are lemmas over sequences of ticks (`Pwm.Run`, `Mouse.MouseRun`).
- Floating point: all arithmetic is on exact reals, so IEEE rounding of `value / 32767.0`, `axis * gain` and the accumulated elapsed time is not modelled.
- The debug prints, the device listing, and the unused `ANALOG_THRESHOLD` have no effect on the state.
- The device name read with JSIOCGNAME is only printed, so it is not modelled.
- Translator.PwmJoy.Tick: requires `d >= 0`. The program uses the raw clock difference, which a clock step backwards could make negative.
- Translator.PwmJoy.ScanJoy: requires a read to return either nothing or a whole 8-byte record, and a record's number to index the name table its type bits select. In the program a short read raises a `struct.error` and an out-of-range number raises an `IndexError`, both uncaught.
- Translator.PwmJoy.constructor: requires every PWM axis, every mouse axis whose target is `mouse_x` or `mouse_y`, and every passed-through button to be in the device's name tables. The program raises a `KeyError` on the first pass otherwise. A mouse mapping with any other target is never read, so its axis may be missing. `Translator.Open` has the same requirement.
- The order of the mapping tables is that of the program's dictionaries, given as sequences in the configuration.
