# Television remote: a verified model

This project models the `Television` class of `Final.py`, a small state
machine behind a tkinter remote control. A television has four private
fields: power, muted, volume and channel. It has two pairs of class
constants: volume runs over 0..5 and channel over 0..3. Its operations are
guarded updates:

- power toggles unconditionally;
- mute toggles only while the set is on;
- channel up and channel down wrap modulo 4, only while the set is on;
- volume up and volume down saturate at 5 and 0, only while the set is on
  and not muted;
- `initialize` restores the factory state.

The `TelevisionRemote` window adds one more state change. Its number pad
writes the channel directly, only while the set is on. The pad's four
buttons pass 0, 1, 2 and 3.

Two modules, one per concern:

- `TvSpec` (tv_spec.dfy) holds the state as a value (`TvState`), one function
  per operation, and the remote's buttons (`Button`, `Press`). It also
  defines `Run` (a sequence of presses) and `Repeat` (one button pressed `n`
  times), and states the lemmas about them: bounds are kept, guards make
  buttons inert, channel and volume steps undo each other, channel wraps
  after four presses, volume saturates.
- `Final` (final.dfy) holds the class `Television`, whose fields its methods
  update in place under `modifies this`. It also holds the class
  `TelevisionRemote`, with the pad's direct channel write and the dispatch of
  each button to the television. `TvSpec.Press` is the value-level form of
  that dispatch (Final.py:118 and 127-157), and `Final.TelevisionRemote.Press`
  is proved against it. Every method's postcondition ties the new
  state to the matching `TvSpec` function of the old state. Each method also
  states that it keeps the bounds.

Python's `%` with a positive divisor gives a remainder in 0..divisor-1, and so
does Dafny's Euclidean `%`. So `(channel - 1) % 4` is written as it stands,
and channel 0 goes down to 3. This holds even for a channel outside 0..3.

The repository also holds `project 1.py`, a separate vote-counting window; it
is not modelled here.

## Model

| member | source | states |
|---|---|---|
| `TvSpec.Factory` | Final.py:10-14 | the factory state is off, unmuted, volume MIN_VOLUME (0), channel MIN_CHANNEL (0), and within bounds |
| `Final.Television.constructor` | Final.py:10-14 | a new television is in the factory state and within bounds |
| `Final.Television.Initialize` | Final.py:16-20 | from any prior state, the television returns to the same factory state the constructor builds |
| `TvSpec.TogglePower` | Final.py:22-23 | power flips whatever the state; muted, volume and channel are unchanged |
| `Final.Television.TogglePower` | Final.py:22-23 | the new state is `TogglePower` of the old one; bounds are kept |
| `TvSpec.TogglePowerTwice` | Final.py:22-23 | toggling power twice restores the original state |
| `TvSpec.ToggleMute` | Final.py:25-27 | while on, mute flips; while off, nothing changes; only the mute flag can change |
| `Final.Television.ToggleMute` | Final.py:25-27 | the new state is `ToggleMute` of the old one; bounds are kept |
| `TvSpec.ChannelUp` | Final.py:29-31 | while off, nothing changes; while on, the channel lands in 0..3 from any value, and from 0..3 it goes to the next one with 3 wrapping to 0; only the channel can change |
| `Final.Television.ChannelUp` | Final.py:29-31 | the new state is `ChannelUp` of the old one; bounds are kept |
| `TvSpec.ChannelDown` | Final.py:33-35 | while off, nothing changes; while on, the channel lands in 0..3 from any value, and from 0..3 it goes to the previous one with 0 wrapping to 3; only the channel can change |
| `Final.Television.ChannelDown` | Final.py:33-35 | the new state is `ChannelDown` of the old one; bounds are kept |
| `TvSpec.ChannelUpDownInverse` | Final.py:29-35 | while on, with the channel in 0..3, up then down and down then up both restore the whole state |
| `TvSpec.ChannelUpRepeated` | Final.py:29-31 | while on, `n > 0` presses of channel up give channel `(c + n) mod 4`, and nothing else changes |
| `TvSpec.ChannelUpFullCycle` | Final.py:29-31 | while on, four presses of channel up from a channel in 0..3 restore the state |
| `TvSpec.VolumeUp` | Final.py:37-39 | while off or muted, nothing changes; otherwise the volume rises by one below MAX_VOLUME and stays at most MAX_VOLUME; at 5 it stays 5; the 0..5 range is kept; only the volume can change |
| `Final.Television.VolumeUp` | Final.py:37-39 | the new state is `VolumeUp` of the old one; bounds are kept |
| `TvSpec.VolumeDown` | Final.py:41-43 | while off or muted, nothing changes; otherwise the volume falls by one above MIN_VOLUME and stays at least MIN_VOLUME; at 0 it stays 0; the 0..5 range is kept; only the volume can change |
| `Final.Television.VolumeDown` | Final.py:41-43 | the new state is `VolumeDown` of the old one; bounds are kept |
| `TvSpec.VolumeUpDownInverse` | Final.py:37-43 | while on and unmuted with volume in 0..5, down undoes up below 5, and up undoes down above 0 |
| `TvSpec.VolumeUpRepeated` | Final.py:37-39 | while on and unmuted, `n > 0` presses of volume up give `min(v + n, 5)`, and nothing else changes |
| `TvSpec.VolumeDownRepeated` | Final.py:41-43 | while on and unmuted, `n > 0` presses of volume down give `max(v - n, 0)`, and nothing else changes |
| `Final.Television.IsPowerOn` | Final.py:58-59 | reports the power flag; when it is off, mute, channel step, volume and the pad's channel write all leave the state unchanged |
| `Final.Television.IsMuted` | Final.py:61-62 | reports the mute flag; when it is set, both volume operations leave the state unchanged |
| `TvSpec.SelectChannel` | Final.py:121-123 | while off, nothing changes; while on, the channel becomes exactly the given value; only the channel can change; a value in 0..3 keeps the bounds |
| `Final.TelevisionRemote.constructor` | Final.py:72 | the remote owns a fresh television in the factory state |
| `Final.TelevisionRemote.SelectChannel` | Final.py:121-123 | the new television state is `SelectChannel` of the old one; a value in 0..3 keeps the bounds |
| `Final.TelevisionRemote.Press` | Final.py:127-157 | each button handler changes the television exactly as `Press` says; bounds are kept when a digit comes from the pad |
| `TvSpec.PressKeepsInRange` | Final.py:116-118 | one press keeps volume in 0..5 and channel in 0..3, provided a digit is one of the pad's four |
| `TvSpec.RunKeepsInRange` | Final.py:5-8 | any sequence of button presses from an in-range state keeps volume in 0..5 and channel in 0..3 |
| `TvSpec.PoweredOffInert` | Final.py:25-43 | while off, any sequence of presses without the power button leaves every field unchanged |
| `TvSpec.PoweredOffPrefixIgnored` | Final.py:25-43 | presses made while the set is off, without the power button, have no effect on what any later presses produce |
| `TvSpec.MutedVolumeInert` | Final.py:37-43 | while on and muted, any sequence of volume presses leaves every field unchanged |

## Left out

- `get_channel_image` (Final.py:45-56): opens and resizes an image file with PIL and prints when the file is missing. This is file I/O and a foreign library.
- `__str__` (Final.py:64-66): Python's formatting of the fields into a display string.
- `update_volume_notch` (Final.py:173-177): floating-point division for a pixel width, and canvas drawing.
- Widget construction, layout, enabling and disabling buttons, and label updates in `TelevisionRemote` (Final.py:69-119, 127-184). This is GUI glue. `Press` keeps only each handler's call into the television. `IsPowerOn` and `IsMuted` state why the disabled buttons would have been inert anyway.
- The tkinter event loop (Final.py:186-189). `Run` stands for a sequence of button events.
- Name mangling: `select_channel` reaches the private field through `_Television__channel`. The model writes the field directly.
