# Mouse device model

A Dafny model of `MouseDevice`, the mouse adapter of the game's
human-interface-device layer (`game/system/hid/devices/mouse.cpp`). The adapter
keeps live mouse state and turns raw windowing-library (SDL3) events into
engine input. The model covers:

- the list of active actions: the duplicate-suppression query
  `is_action_already_active`, and `clear_actions`, which reverts and erases
  every entry in place;
- `process_event`:
  - motion events track the cursor and, in camera mode, write two centred,
    clamped analog channels and the "moved" flags;
  - button events mirror into five status flags;
  - a pending bind assignment swallows a button-down;
  - otherwise a button-down dispatches the commands bound to its button;
- `poll_state`: it refreshes the relative motion and the left and right flags,
  then resets the scroll accumulator and sums the wheel events it drains;
- the cursor/camera mode toggle `enable_camera_control`, relative mouse mode
  and the camera sensitivities.

Everything is in one module, `HidMouse` (`mouse.dfy`). `MouseDevice` is a class
whose methods update its fields in place. Only the fields a method lists in its
`modifies` clause can change, so the frames also say "nothing else changes". In
particular, `EnableCameraControl` is the only method that may change
`controlCamera`. The device's button status is a value (`ButtonStatus`), as it
is a plain struct member in the source.

Calls into code the model cannot see are appended, in order, to the ghost trace
`MouseDevice.calls`. These are `revert_action`, `assign_button_bind`, the
command callbacks and the "no valid callback" warning. Relative mouse mode is
the ghost field `relativeMode`. The pad data's analog buffer is an
`array<int>` of at least four channels.

Floating-point values (positions, deltas, sensitivities, scroll) are reals.
The C++ `int(...)` conversion of the scaled delta is modelled exactly as
truncation toward zero (`TruncToInt`). The analog value is
`clamp(127 + trunc(rel * sens), 0, 255)`. The moved flag of an axis is set
exactly when that value is above 0, that is when the truncated scaled delta is
above -127. So a motion event with no movement on an axis still sets that
axis's flag, while a far-left motion does not.

Two behaviours of the code to note:

- The analog mapping truncates the scaled delta; it does not round it.
  `CameraAxisTruncates` shows this: 0.9 and -0.9 both leave the channel at 127.
- A non-movement `is_action_already_active` query is blocked by any active
  action on the same button code, including a movement action.

## Model

| member | source | states |
|---|---|---|
| `HidMouse.MouseDevice.constructor` | game/system/hid/devices/mouse.cpp:3-8 | a new device is in relative mouse mode, with no active actions and no external calls |
| `HidMouse.MouseDevice.IsActionAlreadyActive` | game/system/hid/devices/mouse.cpp:11-20 | true iff (movement query) some active action is a movement action, whatever its button, or (other query) some active action has the queried button code; false on an empty list |
| `HidMouse.MovementBlockedUntilCleared` | game/system/hid/devices/mouse.cpp:11-20 | while a movement action is active, a movement query with any button code is refused; on an empty list (what `ClearActions` leaves) it is accepted |
| `HidMouse.MouseDevice.PollState` | game/system/hid/devices/mouse.cpp:22-35 | relative motion stored; only the left and right flags refreshed from the button state; scroll total equals the sum of the drained wheel deltas, with nothing carried over from the previous value; wheel queue empty afterwards |
| `HidMouse.SumAppend` | game/system/hid/devices/mouse.cpp:31-34 | the accumulated scroll of two bursts of wheel events drained together is the sum of their separate totals |
| `HidMouse.MouseDevice.ClearActions` | game/system/hid/devices/mouse.cpp:37-42 | the list ends empty and the trace gains exactly the reverts of the old list, in list order; on an empty list nothing is called |
| `HidMouse.Reverts` | game/system/hid/devices/mouse.cpp:37-42 | clearing makes exactly one revert call per active action |
| `HidMouse.RevertsInOrder` | game/system/hid/devices/mouse.cpp:37-42 | the i-th revert call is for the i-th active action |
| `HidMouse.RevertsAppend` | game/system/hid/devices/mouse.cpp:38-41 | reverting a list reverts its front part first, then the rest (the erase-at-front loop order) |
| `HidMouse.MouseDevice.ProcessEvent` | game/system/hid/devices/mouse.cpp:44-118 | motion always sets the cursor position; in cursor mode it leaves pad data and moved flags untouched; in camera mode channels 2 and 3 become the mapped values, all other channels unchanged, each moved flag set iff its value is above 0 and never cleared; a button event changes only the button status and the trace, as below; other events change nothing |
| `HidMouse.MouseDevice.MoveCamera` | game/system/hid/devices/mouse.cpp:54-67 | channel 2 and channel 3 become clamp(127 + truncated scaled delta, 0, 255), nothing else in the buffer changes, moved flags only ever become true |
| `HidMouse.TruncToInt` | game/system/hid/devices/mouse.cpp:56 | the float-to-int conversion truncates toward zero: below or equal for non-negative input, above or equal for negative input, within 1 |
| `HidMouse.AnalogChannel` | game/system/hid/devices/mouse.cpp:56-62 | the value is always in [0,255]; it is 127 plus the delta when that fits, 0 below, 255 above; it is positive iff the delta is above -127 |
| `HidMouse.AnalogChannelMonotone` | game/system/hid/devices/mouse.cpp:56 | a larger scaled delta never yields a smaller analog value |
| `HidMouse.CameraAxisTruncates` | game/system/hid/devices/mouse.cpp:55-62 | example inputs: scaled motions of 0.9 and -0.9 leave the channel at rest (127); 1.5 gives 128 (a consequence of `TruncToInt`'s contract) |
| `HidMouse.MouseDevice.HandleButton` | game/system/hid/devices/mouse.cpp:68-117 | the button's flag mirrors the event, and the trace gains exactly the calls `ButtonEventCalls` describes |
| `HidMouse.Mirror` | game/system/hid/devices/mouse.cpp:73-89 | exactly the flag of a known button (left, right, middle, X1, X2) becomes "is button-down"; the other four are unchanged; an unknown code changes no flag |
| `HidMouse.FlagsDetermineStatus` | game/system/hid/devices/mouse.cpp:73-89 | the five per-button flags determine the whole button status, so the flag-wise contract of `Mirror` fixes the status |
| `HidMouse.BindCalls` | game/system/hid/devices/mouse.cpp:95-98 | the bind table is written once iff the assignment is for the mouse and not for an analog input; otherwise it is not written |
| `HidMouse.ButtonEventCalls` | game/system/hid/devices/mouse.cpp:93-116 | a button-up calls nothing; with an assignment pending, a button-down makes at most the one bind write and no command call; without one, a button-down on an unbound button calls nothing and on a bound button makes one call per command whose modifiers hold |
| `HidMouse.CommandCalls` | game/system/hid/devices/mouse.cpp:106-114 | an unsatisfied command fires nothing; a satisfied one makes exactly one call: its event callback if present, else its plain callback if present, else the warning |
| `HidMouse.Fired` | game/system/hid/devices/mouse.cpp:105-115 | dispatching a command list makes at most one call per command, and only command calls |
| `HidMouse.FiredOnePerSatisfied` | game/system/hid/devices/mouse.cpp:105-115 | the number of calls equals the number of commands whose modifier requirement holds |
| `HidMouse.FiredAppend` | game/system/hid/devices/mouse.cpp:105-115 | commands run in list order: a list split in two fires the first part's calls, then the second's |
| `HidMouse.DispatchCommands` | game/system/hid/devices/mouse.cpp:105-115 | the dispatch loop makes exactly the calls `Fired` specifies, in order |
| `HidMouse.MouseDevice.EnableRelativeMode` | game/system/hid/devices/mouse.cpp:120-123 | relative mouse mode becomes the requested setting |
| `HidMouse.MouseDevice.EnableCameraControl` | game/system/hid/devices/mouse.cpp:125-128 | camera mode and relative mouse mode both become the requested setting; no other method may change camera mode |
| `HidMouse.MouseDevice.SetCameraSens` | game/system/hid/devices/mouse.cpp:130-133 | the two sensitivities become the given values |

## Left out

- SDL3 calls have no visible source. Their results are method inputs:
  - `SDL_GetMouseState` and the button-mask bit tests become two "held" flags;
  - `SDL_GetRelativeMouseState` becomes the relative motion;
  - `SDL_GetModState` becomes a modifier-state value;
  - the wheel events `SDL_PeepEvents` drains become the `WheelQueue` class.
  Other event kinds in SDL's queue are not modelled.
- `SDL_SetWindowRelativeMouseMode` is the ghost field `relativeMode`. The
  window handle is not modelled.
- The absolute position that `poll_state` reads is discarded by the source too.
  The model does not take it as an input.
- `InputModifiers::has_necessary_modifiers` is a function parameter of the
  dispatch members. The modifier state is taken once per event; the source
  re-reads it for each command.
- The bodies of `revert_action` and `assign_button_bind` are not part of this
  model, and neither are the command callbacks. They appear only as entries in
  the `calls` trace, so their effects on the pad data and on the bind table are
  not modelled.
- Floating-point rounding of `xrel * sens` and of the scroll sum is not
  modelled: reals stand for floats. The undefined behaviour of converting an
  out-of-range float to `int` is not modelled either, nor the overflow of
  `127 + ...`.
- The initial values of the fields are not modelled beyond what the
  constructor's contract states: they are set in `mouse.h`, which is not part
  of this model. `lg::warn` logging is the `WarnNoCallback` trace entry. The
  `shared_ptr` ownership of the settings and pad data is not modelled.
- `ProcessEvent`: the optional bind assignment is passed by value, so "not
  cleared by this method" holds by construction rather than by a contract.
