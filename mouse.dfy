/**
 * A model of the mouse adapter of the game's human-interface-device layer
 * (game/system/hid/devices/mouse.cpp): the list of active actions, event
 * dispatch (cursor tracking, camera analog mapping, button mirroring,
 * rebinding and command dispatch), scroll accumulation and the camera-mode
 * toggle.
 *
 * The windowing library (SDL3) and the engine's binding code are not visible:
 * their results are inputs, and the calls the adapter makes into them are
 * recorded, in order, in a ghost trace of `ExternalCall`s.
 */
module HidMouse {

  type u8 = x: int | 0 <= x < 0x100
  type u32 = x: int | 0 <= x < 0x1_0000_0000

  datatype Option<T> = None | Some(value: T)

  // SDL3's mouse button codes (SDL_BUTTON_LEFT .. SDL_BUTTON_X2).
  const ButtonLeft: u8 := 1
  const ButtonMiddle: u8 := 2
  const ButtonRight: u8 := 3
  const ButtonX1: u8 := 4
  const ButtonX2: u8 := 5

  // The neutral value and the range of an analog channel.
  const AnalogCenter: int := 127
  const AnalogMin: int := 0
  const AnalogMax: int := 255

  // The two analog channels that camera control writes.
  const CameraXChannel: nat := 2
  const CameraYChannel: nat := 3

  /** Current state of the five mouse buttons, a value held by the device. */
  datatype ButtonStatus = ButtonStatus(left: bool, right: bool, middle: bool, mouse4: bool, mouse5: bool)

  /** Identity of a binding or a callback owned by the engine (opaque here). */
  type BindingRef = nat
  type CallbackRef = nat
  /** A required-modifier set of a command, interpreted by the engine. */
  type ModifierSet = nat
  /** The keyboard modifier state reported by the windowing library. */
  type ModState = nat

  /** A binding-triggered effect currently in progress. */
  datatype ActiveAction = ActiveAction(sdlMouseButton: u32, playerMovement: bool, binding: BindingRef)

  /**
   * A command bound to a mouse button. Either callback may be missing; the
   * event-aware one is preferred.
   */
  datatype CommandBinding = CommandBinding(
    modifiers: ModifierSet,
    eventCommand: Option<CallbackRef>,
    command: Option<CallbackRef>)

  datatype InputDeviceType = Controller | Keyboard | Mouse

  /** A pending request to capture the next input as a new binding. */
  datatype BindAssignment = BindAssignment(deviceType: InputDeviceType, forAnalog: bool, target: BindingRef)

  /** The hardware events the adapter distinguishes; positions and deltas are reals. */
  datatype Event =
    | MouseMotion(x: real, y: real, xrel: real, yrel: real)
    | MouseButtonDown(button: u8)
    | MouseButtonUp(button: u8)
    | OtherEvent
  {
    predicate IsButton() { MouseButtonDown? || MouseButtonUp? }
  }

  /** A call from the adapter into code outside this model. */
  datatype ExternalCall =
    | RevertAction(action: ActiveAction)
    | AssignButtonBind(button: u8, assignment: BindAssignment, mods: ModState)
    | InvokeEventCommand(callback: CallbackRef, event: Event)
    | InvokeCommand(callback: CallbackRef)
    | WarnNoCallback
  {
    /** True for the calls that command dispatch makes. */
    predicate IsCommandCall() { InvokeEventCommand? || InvokeCommand? || WarnNoCallback? }
  }

  // ---------------------------------------------------------------------
  // Active actions
  // ---------------------------------------------------------------------

  /**
   * Duplicate suppression: a movement query is blocked by any active movement
   * action, whatever its button; any other query is blocked by an active
   * action on the same button code, whether or not that action is a movement.
   */
  predicate AlreadyActive(actions: seq<ActiveAction>, code: u32, playerMovement: bool)
  {
    if playerMovement then exists i :: 0 <= i < |actions| && actions[i].playerMovement
    else exists i :: 0 <= i < |actions| && actions[i].sdlMouseButton == code
  }

  /** The revert calls that clearing `actions` makes, one per action. */
  function Reverts(actions: seq<ActiveAction>): (r: seq<ExternalCall>)
    ensures |r| == |actions|
  {
    if actions == [] then [] else [RevertAction(actions[0])] + Reverts(actions[1..])
  }

  /** Each action is reverted exactly once, at its own position in the list. */
  lemma {:induction false} RevertsInOrder(actions: seq<ActiveAction>, i: nat)
    requires i < |actions|
    ensures Reverts(actions)[i] == RevertAction(actions[i])
  {
    if i > 0 {
      RevertsInOrder(actions[1..], i - 1);
    }
  }

  /** Reverting a list split in two reverts the first part, then the second. */
  lemma {:induction false} RevertsAppend(a: seq<ActiveAction>, b: seq<ActiveAction>)
    ensures Reverts(a + b) == Reverts(a) + Reverts(b)
  {
    if a == [] {
      assert a + b == b;
    } else {
      assert (a + b)[1..] == a[1..] + b;
      RevertsAppend(a[1..], b);
    }
  }

  /**
   * A second movement action is refused while one is active, whatever its
   * button code; an empty list, which is what clearing leaves, refuses none.
   */
  lemma MovementBlockedUntilCleared(actions: seq<ActiveAction>, i: nat, code: u32)
    requires i < |actions| && actions[i].playerMovement
    ensures AlreadyActive(actions, code, true)
    ensures !AlreadyActive([], code, true)
  {
  }

  // ---------------------------------------------------------------------
  // Camera analog mapping
  // ---------------------------------------------------------------------

  /** C++'s conversion of a floating value to int: truncation toward zero. */
  function TruncToInt(r: real): (t: int)
    ensures 0.0 <= r ==> t as real <= r < t as real + 1.0
    ensures r < 0.0 ==> t as real - 1.0 < r <= t as real
  {
    if r >= 0.0 then r.Floor else -((-r).Floor)
  }

  /**
   * The analog value for a scaled, truncated motion delta: centred at 127 and
   * clamped to 0..255. It is positive exactly when the delta is above -127.
   */
  function AnalogChannel(scaled: int): (v: int)
    ensures AnalogMin <= v <= AnalogMax
    ensures AnalogMin - AnalogCenter <= scaled <= AnalogMax - AnalogCenter ==> v == AnalogCenter + scaled
    ensures scaled < AnalogMin - AnalogCenter ==> v == AnalogMin
    ensures scaled > AnalogMax - AnalogCenter ==> v == AnalogMax
    ensures v > AnalogMin <==> scaled > AnalogMin - AnalogCenter
  {
    Clamp(AnalogCenter + scaled, AnalogMin, AnalogMax)
  }

  /** std::clamp on ints. */
  function Clamp(v: int, lo: int, hi: int): int
    requires lo <= hi
  {
    if v < lo then lo else if hi < v then hi else v
  }

  /** The analog value for a relative motion and a sensitivity. */
  function CameraAxis(rel: real, sens: real): int
  {
    AnalogChannel(TruncToInt(rel * sens))
  }

  /** A larger scaled delta never gives a smaller analog value. */
  lemma AnalogChannelMonotone(a: int, b: int)
    requires a <= b
    ensures AnalogChannel(a) <= AnalogChannel(b)
  {
  }

  /**
   * The mapping truncates rather than rounds: a scaled motion of 0.9 leaves
   * the channel at rest, and one of -0.9 too.
   */
  lemma CameraAxisTruncates()
    ensures CameraAxis(0.9, 1.0) == AnalogCenter
    ensures CameraAxis(-0.9, 1.0) == AnalogCenter
    ensures CameraAxis(1.5, 1.0) == AnalogCenter + 1
  {
  }

  // ---------------------------------------------------------------------
  // Button mirroring
  // ---------------------------------------------------------------------

  /** The flag that mirrors `button`; false for a code that has none. */
  function Flag(s: ButtonStatus, button: u8): bool
  {
    if button == ButtonLeft then s.left
    else if button == ButtonRight then s.right
    else if button == ButtonMiddle then s.middle
    else if button == ButtonX1 then s.mouse4
    else if button == ButtonX2 then s.mouse5
    else false
  }

  predicate IsKnownButton(button: u8)
  {
    ButtonLeft <= button <= ButtonX2
  }

  /**
   * The status after a button event: the button's own flag becomes `down`,
   * every other flag keeps its value, and an unknown code changes nothing.
   */
  function Mirror(s: ButtonStatus, button: u8, down: bool): (r: ButtonStatus)
    ensures IsKnownButton(button) ==> Flag(r, button) == down
    ensures forall b: u8 :: b != button ==> Flag(r, b) == Flag(s, b)
    ensures !IsKnownButton(button) ==> r == s
  {
    if button == ButtonLeft then s.(left := down)
    else if button == ButtonRight then s.(right := down)
    else if button == ButtonMiddle then s.(middle := down)
    else if button == ButtonX1 then s.(mouse4 := down)
    else if button == ButtonX2 then s.(mouse5 := down)
    else s
  }

  /** The five flags determine the status. */
  lemma FlagsDetermineStatus(s: ButtonStatus, t: ButtonStatus)
    requires forall b: u8 :: Flag(s, b) == Flag(t, b)
    ensures s == t
  {
    assert Flag(s, ButtonLeft) == Flag(t, ButtonLeft);
    assert Flag(s, ButtonRight) == Flag(t, ButtonRight);
    assert Flag(s, ButtonMiddle) == Flag(t, ButtonMiddle);
    assert Flag(s, ButtonX1) == Flag(t, ButtonX1);
    assert Flag(s, ButtonX2) == Flag(t, ButtonX2);
  }

  // ---------------------------------------------------------------------
  // Rebinding and command dispatch
  // ---------------------------------------------------------------------

  /** What one command does when its button goes down. */
  function CommandCalls(c: CommandBinding, ev: Event, mods: ModState, hasModifiers: (ModifierSet, ModState) -> bool): (r: seq<ExternalCall>)
    ensures !hasModifiers(c.modifiers, mods) ==> r == []
    ensures hasModifiers(c.modifiers, mods) ==> |r| == 1 && r[0].IsCommandCall()
    ensures |r| == 1 && c.eventCommand.Some? ==> r[0] == InvokeEventCommand(c.eventCommand.value, ev)
    ensures |r| == 1 && r[0].InvokeCommand? ==> c.eventCommand.None? && c.command == Some(r[0].callback)
    ensures |r| == 1 && r[0].WarnNoCallback? ==> c.eventCommand.None? && c.command.None?
    ensures hasModifiers(c.modifiers, mods) && c.eventCommand.None? && c.command.Some? ==>
      r == [InvokeCommand(c.command.value)]
    ensures hasModifiers(c.modifiers, mods) && c.eventCommand.None? && c.command.None? ==>
      r == [WarnNoCallback]
  {
    if !hasModifiers(c.modifiers, mods) then []
    else if c.eventCommand.Some? then [InvokeEventCommand(c.eventCommand.value, ev)]
    else if c.command.Some? then [InvokeCommand(c.command.value)]
    else [WarnNoCallback]
  }

  /** The calls made by a list of commands, in list order. */
  function Fired(cmds: seq<CommandBinding>, ev: Event, mods: ModState, hasModifiers: (ModifierSet, ModState) -> bool): (r: seq<ExternalCall>)
    ensures |r| <= |cmds|
    ensures forall k :: 0 <= k < |r| ==> r[k].IsCommandCall()
  {
    if cmds == [] then []
    else CommandCalls(cmds[0], ev, mods, hasModifiers) + Fired(cmds[1..], ev, mods, hasModifiers)
  }

  /** The number of commands whose modifier requirement holds. */
  function SatisfiedCount(cmds: seq<CommandBinding>, mods: ModState, hasModifiers: (ModifierSet, ModState) -> bool): nat
  {
    if cmds == [] then 0
    else (if hasModifiers(cmds[0].modifiers, mods) then 1 else 0) + SatisfiedCount(cmds[1..], mods, hasModifiers)
  }

  /** Each satisfied command makes exactly one call, every other command none. */
  lemma {:induction false} FiredOnePerSatisfied(cmds: seq<CommandBinding>, ev: Event, mods: ModState, hasModifiers: (ModifierSet, ModState) -> bool)
    ensures |Fired(cmds, ev, mods, hasModifiers)| == SatisfiedCount(cmds, mods, hasModifiers)
  {
    if cmds != [] {
      FiredOnePerSatisfied(cmds[1..], ev, mods, hasModifiers);
    }
  }

  /** Commands are dispatched in list order: a split list fires its halves in turn. */
  lemma {:induction false} FiredAppend(a: seq<CommandBinding>, b: seq<CommandBinding>, ev: Event, mods: ModState, hasModifiers: (ModifierSet, ModState) -> bool)
    ensures Fired(a + b, ev, mods, hasModifiers) == Fired(a, ev, mods, hasModifiers) + Fired(b, ev, mods, hasModifiers)
  {
    if a == [] {
      assert a + b == b;
    } else {
      assert (a + b)[1..] == a[1..] + b;
      FiredAppend(a[1..], b, ev, mods, hasModifiers);
    }
  }

  /** A one-command list fires just that command's calls. */
  lemma FiredSingle(c: CommandBinding, ev: Event, mods: ModState, hasModifiers: (ModifierSet, ModState) -> bool)
    ensures Fired([c], ev, mods, hasModifiers) == CommandCalls(c, ev, mods, hasModifiers)
  {
    assert [c][1..] == [];
  }

  /** Dispatches `cmds` for event `ev`, returning the calls made, in order. */
  method DispatchCommands(cmds: seq<CommandBinding>, ev: Event, mods: ModState, hasModifiers: (ModifierSet, ModState) -> bool)
    returns (calls: seq<ExternalCall>)
    ensures calls == Fired(cmds, ev, mods, hasModifiers)
  {
    calls := [];
    for i := 0 to |cmds|
      invariant calls == Fired(cmds[..i], ev, mods, hasModifiers)
    {
      var command := cmds[i];
      ghost var before := calls;
      if hasModifiers(command.modifiers, mods) {
        if command.eventCommand.Some? {
          calls := calls + [InvokeEventCommand(command.eventCommand.value, ev)];
        } else if command.command.Some? {
          calls := calls + [InvokeCommand(command.command.value)];
        } else {
          calls := calls + [WarnNoCallback];
        }
      }
      assert calls == before + CommandCalls(command, ev, mods, hasModifiers);
      FiredSingle(command, ev, mods, hasModifiers);
      assert cmds[..i + 1] == cmds[..i] + [command];
      FiredAppend(cmds[..i], [command], ev, mods, hasModifiers);
    }
    assert cmds[..|cmds|] == cmds;
  }

  /** The call made when a pending bind assignment swallows a button-down. */
  function BindCalls(button: u8, assignment: BindAssignment, mods: ModState): (r: seq<ExternalCall>)
    ensures |r| <= 1
    ensures |r| == 1 <==> assignment.deviceType == Mouse && !assignment.forAnalog
    ensures forall k :: 0 <= k < |r| ==> r[k] == AssignButtonBind(button, assignment, mods)
  {
    if assignment.deviceType == Mouse && !assignment.forAnalog then [AssignButtonBind(button, assignment, mods)] else []
  }

  /**
   * The external calls of a button event: a pending assignment consumes a
   * button-down (at most one bind write, no command); otherwise a button-down
   * dispatches the commands bound to its button; a button-up calls nothing.
   */
  function ButtonEventCalls(
    ev: Event, commands: map<u32, seq<CommandBinding>>, pending: Option<BindAssignment>,
    mods: ModState, hasModifiers: (ModifierSet, ModState) -> bool): (r: seq<ExternalCall>)
    requires ev.IsButton()
    ensures ev.MouseButtonUp? ==> r == []
    ensures ev.MouseButtonDown? && pending.Some? ==>
      |r| <= 1 && (forall k :: 0 <= k < |r| ==> !r[k].IsCommandCall() && r[k] == AssignButtonBind(ev.button, pending.value, mods))
    ensures ev.MouseButtonDown? && pending.Some? ==>
      (|r| == 1 <==> pending.value.deviceType == Mouse && !pending.value.forAnalog)
    ensures ev.MouseButtonDown? && pending.None? && ev.button !in commands ==> r == []
    ensures ev.MouseButtonDown? && pending.None? && ev.button in commands ==>
      |r| == SatisfiedCount(commands[ev.button], mods, hasModifiers)
    ensures forall k :: 0 <= k < |r| ==> (r[k].IsCommandCall() <==> pending.None?)
  {
    if ev.MouseButtonUp? then []
    else if pending.Some? then BindCalls(ev.button, pending.value, mods)
    else if ev.button in commands then
      FiredOnePerSatisfied(commands[ev.button], ev, mods, hasModifiers);
      Fired(commands[ev.button], ev, mods, hasModifiers)
    else []
  }

  // ---------------------------------------------------------------------
  // Scroll accumulation
  // ---------------------------------------------------------------------

  /** Total of a sequence of wheel deltas. */
  function Sum(s: seq<real>): real
  {
    if s == [] then 0.0 else s[0] + Sum(s[1..])
  }

  /** Draining two bursts of wheel events in one poll adds their totals. */
  lemma {:induction false} SumAppend(a: seq<real>, b: seq<real>)
    ensures Sum(a + b) == Sum(a) + Sum(b)
  {
    if a == [] {
      assert a + b == b;
    } else {
      assert (a + b)[1..] == a[1..] + b;
      SumAppend(a[1..], b);
    }
  }

  /** The windowing library's queue of pending wheel events (their vertical deltas). */
  class WheelQueue {
    var pending: seq<real>

    constructor (pending: seq<real>)
      ensures this.pending == pending
    {
      this.pending := pending;
    }
  }

  // ---------------------------------------------------------------------
  // The device
  // ---------------------------------------------------------------------

  class MouseDevice {
    var activeActions: seq<ActiveAction>
    var buttonStatus: ButtonStatus
    var xcoord: real
    var ycoord: real
    var xrelPos: real
    var yrelPos: real
    var mouseMovedX: bool
    var mouseMovedY: bool
    var controlCamera: bool
    var xsens: real
    var ysens: real
    var scrollY: real
    /** Whether the window reports motion as relative deltas. */
    ghost var relativeMode: bool
    /** Every call made into code outside the model, in order. */
    ghost var calls: seq<ExternalCall>

    /** Creates the device; the window starts in relative mouse mode. */
    constructor ()
      ensures relativeMode
      ensures activeActions == [] && calls == []
    {
      activeActions := [];
      buttonStatus := ButtonStatus(false, false, false, false, false);
      xcoord, ycoord := 0.0, 0.0;
      xrelPos, yrelPos := 0.0, 0.0;
      mouseMovedX, mouseMovedY := false, false;
      // Placeholders: the real initial values are set in mouse.h.
      controlCamera := false;
      xsens, ysens := 1.0, 1.0;
      scrollY := 0.0;
      relativeMode := true;
      calls := [];
    }

    /** Whether an action on `code` (or, for movement, any movement action) is active. */
    method IsActionAlreadyActive(code: u32, playerMovement: bool) returns (active: bool)
      ensures active <==> AlreadyActive(activeActions, code, playerMovement)
      ensures activeActions == [] ==> !active
    {
      var i := 0;
      while i < |activeActions|
        invariant 0 <= i <= |activeActions|
        invariant !AlreadyActive(activeActions[..i], code, playerMovement)
      {
        var action := activeActions[i];
        if !playerMovement && action.sdlMouseButton == code {
          assert activeActions[i].sdlMouseButton == code;
          return true;
        } else if playerMovement && action.playerMovement {
          assert activeActions[i].playerMovement;
          return true;
        }
        assert activeActions[..i + 1] == activeActions[..i] + [action];
        i := i + 1;
      }
      assert activeActions[..i] == activeActions;
      return false;
    }

    /**
     * Reads the button mask, the relative motion and the pending wheel events.
     * Only the left and right flags are refreshed; the scroll total covers the
     * drained events alone.
     */
    method PollState(leftHeld: bool, rightHeld: bool, xrel: real, yrel: real, wheel: WheelQueue)
      modifies this`buttonStatus, this`xrelPos, this`yrelPos, this`scrollY, wheel`pending
      ensures xrelPos == xrel && yrelPos == yrel
      ensures buttonStatus == old(buttonStatus).(left := leftHeld, right := rightHeld)
      ensures scrollY == Sum(old(wheel.pending))
      ensures wheel.pending == []
    {
      xrelPos, yrelPos := xrel, yrel;
      buttonStatus := buttonStatus.(left := leftHeld, right := rightHeld);
      scrollY := 0.0;
      while wheel.pending != []
        invariant xrelPos == xrel && yrelPos == yrel
        invariant buttonStatus == old(buttonStatus).(left := leftHeld, right := rightHeld)
        invariant scrollY + Sum(wheel.pending) == Sum(old(wheel.pending))
        decreases |wheel.pending|
      {
        scrollY := scrollY + wheel.pending[0];
        wheel.pending := wheel.pending[1..];
      }
    }

    /** Reverts every active action, first to last, and empties the list. */
    method ClearActions()
      modifies this`activeActions, this`calls
      ensures activeActions == []
      ensures calls == old(calls) + Reverts(old(activeActions))
    {
      ghost var done: seq<ActiveAction> := [];
      while activeActions != []
        invariant done + activeActions == old(activeActions)
        invariant calls == old(calls) + Reverts(done)
        decreases |activeActions|
      {
        RevertsAppend(done, [activeActions[0]]);
        calls := calls + [RevertAction(activeActions[0])];
        done := done + [activeActions[0]];
        activeActions := activeActions[1..];
      }
      assert done == old(activeActions);
    }

    /**
     * Handles one event: motion moves the cursor (and, in camera mode, the
     * camera analog channels); a button event mirrors the button, then either
     * feeds a pending bind assignment or dispatches the button's commands.
     */
    method ProcessEvent(
      ev: Event, commands: map<u32, seq<CommandBinding>>, analog: array<int>,
      pending: Option<BindAssignment>, mods: ModState, hasModifiers: (ModifierSet, ModState) -> bool)
      requires analog.Length > CameraYChannel
      modifies this`xcoord, this`ycoord, this`mouseMovedX, this`mouseMovedY, this`buttonStatus, this`calls, analog
      ensures ev.MouseMotion? ==> xcoord == ev.x && ycoord == ev.y
      ensures ev.MouseMotion? && !controlCamera ==>
        analog[..] == old(analog[..]) && mouseMovedX == old(mouseMovedX) && mouseMovedY == old(mouseMovedY)
      ensures ev.MouseMotion? && controlCamera ==>
        var ax := CameraAxis(ev.xrel, xsens);
        var ay := CameraAxis(ev.yrel, ysens);
        analog[..] == old(analog[..])[CameraXChannel := ax][CameraYChannel := ay] &&
        mouseMovedX == (old(mouseMovedX) || ax > AnalogMin) &&
        mouseMovedY == (old(mouseMovedY) || ay > AnalogMin)
      ensures ev.MouseMotion? ==> buttonStatus == old(buttonStatus) && calls == old(calls)
      ensures ev.IsButton() ==>
        buttonStatus == Mirror(old(buttonStatus), ev.button, ev.MouseButtonDown?) &&
        calls == old(calls) + ButtonEventCalls(ev, commands, pending, mods, hasModifiers)
      ensures !ev.MouseMotion? ==>
        xcoord == old(xcoord) && ycoord == old(ycoord) && analog[..] == old(analog[..]) &&
        mouseMovedX == old(mouseMovedX) && mouseMovedY == old(mouseMovedY)
      ensures ev.OtherEvent? ==> buttonStatus == old(buttonStatus) && calls == old(calls)
    {
      match ev {
        case MouseMotion(x, y, xrel, yrel) =>
          xcoord := x;
          ycoord := y;
          if controlCamera {
            MoveCamera(xrel, yrel, analog);
          }
        case MouseButtonDown(_) =>
          HandleButton(ev, commands, pending, mods, hasModifiers);
        case MouseButtonUp(_) =>
          HandleButton(ev, commands, pending, mods, hasModifiers);
        case OtherEvent =>
      }
    }

    /** The camera-mode part of a motion event: two analog channels and the moved flags. */
    method MoveCamera(xrel: real, yrel: real, analog: array<int>)
      requires analog.Length > CameraYChannel
      modifies this`mouseMovedX, this`mouseMovedY, analog
      ensures
        var ax := CameraAxis(xrel, xsens);
        var ay := CameraAxis(yrel, ysens);
        analog[..] == old(analog[..])[CameraXChannel := ax][CameraYChannel := ay] &&
        mouseMovedX == (old(mouseMovedX) || ax > AnalogMin) &&
        mouseMovedY == (old(mouseMovedY) || ay > AnalogMin)
    {
      var xadjust := Clamp(AnalogCenter + TruncToInt(xrel * xsens), AnalogMin, AnalogMax);
      assert xadjust == CameraAxis(xrel, xsens);
      if xadjust > 0 {
        mouseMovedX := true;
      }
      analog[CameraXChannel] := xadjust;
      var yadjust := Clamp(AnalogCenter + TruncToInt(yrel * ysens), AnalogMin, AnalogMax);
      assert yadjust == CameraAxis(yrel, ysens);
      if yadjust > 0 {
        mouseMovedY := true;
      }
      analog[CameraYChannel] := yadjust;
    }

    /** The button part of event handling: mirroring, rebinding, command dispatch. */
    method HandleButton(
      ev: Event, commands: map<u32, seq<CommandBinding>>,
      pending: Option<BindAssignment>, mods: ModState, hasModifiers: (ModifierSet, ModState) -> bool)
      requires ev.IsButton()
      modifies this`buttonStatus, this`calls
      ensures buttonStatus == Mirror(old(buttonStatus), ev.button, ev.MouseButtonDown?)
      ensures calls == old(calls) + ButtonEventCalls(ev, commands, pending, mods, hasModifiers)
    {
      var down := ev.MouseButtonDown?;
      var button := ev.button;
      buttonStatus := Mirror(buttonStatus, button, down);

      // Binding re-assignment consumes the button-down.
      if pending.Some? && down {
        var assignment := pending.value;
        if assignment.deviceType == Mouse && !assignment.forAnalog {
          calls := calls + [AssignButtonBind(button, assignment, mods)];
        }
        return;
      }

      if down && button in commands {
        var fired := DispatchCommands(commands[button], ev, mods, hasModifiers);
        calls := calls + fired;
      }
    }

    /** Turns relative mouse mode on or off. */
    method EnableRelativeMode(enable: bool)
      modifies this`relativeMode
      ensures relativeMode == enable
    {
      relativeMode := enable;
    }

    /**
     * Switches between cursor mode and camera mode, the only place that does;
     * relative mouse mode always follows.
     */
    method EnableCameraControl(enable: bool)
      modifies this`controlCamera, this`relativeMode
      ensures controlCamera == enable && relativeMode == enable
    {
      controlCamera := enable;
      EnableRelativeMode(controlCamera);
    }

    /** Sets the two sensitivities of the camera mapping. */
    method SetCameraSens(x: real, y: real)
      modifies this`xsens, this`ysens
      ensures xsens == x && ysens == y
    {
      xsens, ysens := x, y;
    }
  }
}
