/**
 * `UHoloLensInputConverter` on values: the press/hold/release state of the two mouse buttons, the
 * set of simulated touch indices, and the gestures recognised, with one step function per handler.
 *
 * World time (`GetWorld()->GetTimeSeconds()`) is a parameter `now`; whether Slate is initialised
 * and whether the build targets HoloLens are parameters too. `ActiveTouches` only ever maps an
 * index to `true`, so it is the set of its keys.
 */
module HoloLensSteps {
  import opened Wrappers

  datatype Vec2 = Vec2(x: real, y: real)

  datatype Button = LeftButton | RightButton | OtherButton

  /** What the gesture handlers were called with, in order. */
  datatype Gesture = AirTap(position: Vec2) | TapAndHold(position: Vec2, duration: real)

  /** `bIsLeftMouseDown`, `bIsRightMouseDown`, `LastMousePosition`, `RightClickStartTime`. */
  datatype Pointer = Pointer(leftDown: bool, rightDown: bool, lastPosition: Vec2, rightClickStartTime: real)

  /** `bInputConversionEnabled`, `TapAndHoldThreshold`, the pointer, `ActiveTouches` and the gestures. */
  datatype Converter = Converter(enabled: bool, threshold: real, pointer: Pointer, touches: set<int>, gestures: seq<Gesture>)

  /** The constructor: enabled, a 1-second hold threshold, both buttons up, start time 0, no touches. */
  const InitialConverter := Converter(true, 1.0, Pointer(false, false, Vec2(0.0, 0.0), 0.0), {}, [])

  /** A right press is armed for tap-and-hold while the button is down with a start time above 0. */
  predicate Armed(c: Converter)
  {
    c.pointer.rightDown && c.pointer.rightClickStartTime > 0.0
  }

  /** Whether a tick at `now` completes the hold. */
  predicate HoldCompletes(c: Converter, now: real)
  {
    Armed(c) && now - c.pointer.rightClickStartTime >= c.threshold
  }

  // ---------------------------------------------------------------------
  // Touch simulation
  // ---------------------------------------------------------------------

  function TouchStartStep(c: Converter, index: int): Converter
  {
    c.(touches := c.touches + {index})
  }

  function TouchEndStep(c: Converter, index: int): Converter
  {
    c.(touches := c.touches - {index})
  }

  /** `SimulateTouchFromMouse(pressed)`: a touch on index 0 starts or ends, while conversion is on. */
  function TouchFromMouseStep(c: Converter, pressed: bool): Converter
  {
    if !c.enabled then c
    else if pressed then TouchStartStep(c, 0)
    else TouchEndStep(c, 0)
  }

  // ---------------------------------------------------------------------
  // Gestures
  // ---------------------------------------------------------------------

  /** `HandleAirTapGesture`: a touch on index 0 starts and ends at once (the gaze trace is left out). */
  function AirTapStep(c: Converter, position: Vec2): Converter
  {
    var t := TouchEndStep(TouchStartStep(c, 0), 0);
    t.(gestures := t.gestures + [AirTap(position)])
  }

  function TapAndHoldStep(c: Converter, position: Vec2, duration: real): Converter
  {
    c.(gestures := c.gestures + [TapAndHold(position, duration)])
  }

  /** `TickComponent` at world time `now`: a completed hold fires once and disarms the press. */
  function TickStep(c: Converter, now: real): Converter
  {
    if c.pointer.rightDown && c.pointer.rightClickStartTime > 0.0 then
      var held := now - c.pointer.rightClickStartTime;
      if held >= c.threshold then
        var t := TapAndHoldStep(c, c.pointer.lastPosition, held);
        t.(pointer := t.pointer.(rightClickStartTime := 0.0))
      else c
    else c
  }

  /** Ticks at the given world times, in order. */
  function Ticks(c: Converter, times: seq<real>): Converter
    decreases |times|
  {
    if |times| == 0 then c else Ticks(TickStep(c, times[0]), times[1..])
  }

  // ---------------------------------------------------------------------
  // Mouse handlers: whether the event was handled, and the new state
  // ---------------------------------------------------------------------

  function MouseDownStep(c: Converter, b: Button, position: Vec2, now: real): (bool, Converter)
  {
    if !c.enabled then (false, c)
    else
      var m := c.(pointer := c.pointer.(lastPosition := position));
      match b
      case LeftButton => (true, AirTapStep(m.(pointer := m.pointer.(leftDown := true)), position))
      case RightButton => (true, m.(pointer := m.pointer.(rightDown := true, rightClickStartTime := now)))
      case OtherButton => (false, m)
  }

  function MouseUpStep(c: Converter, b: Button): (bool, Converter)
  {
    if !c.enabled then (false, c)
    else match b
      case LeftButton => (true, c.(pointer := c.pointer.(leftDown := false)))
      case RightButton => (true, c.(pointer := c.pointer.(rightDown := false, rightClickStartTime := 0.0)))
      case OtherButton => (false, c)
  }

  /** `OnMouseMove`: remembers the position and never reports the event handled. */
  function MouseMoveStep(c: Converter, position: Vec2): (bool, Converter)
  {
    if !c.enabled then (false, c)
    else (false, c.(pointer := c.pointer.(lastPosition := position)))
  }

  // ---------------------------------------------------------------------
  // Enabling
  // ---------------------------------------------------------------------

  /** `EnableHoloLensInputConversion(enable)`: false only unhooks delegates; true needs Slate. */
  function EnableStep(c: Converter, enable: bool, slateReady: bool): Converter
  {
    if !enable then c
    else if slateReady then c.(enabled := true)
    else c
  }

  function BeginPlayStep(c: Converter, isHoloLens: bool, slateReady: bool): Converter
  {
    if isHoloLens || c.enabled then EnableStep(c, true, slateReady) else c
  }

  function EndPlayStep(c: Converter, slateReady: bool): Converter
  {
    EnableStep(c, false, slateReady)
  }

  // ---------------------------------------------------------------------
  // Properties
  // ---------------------------------------------------------------------

  /** A tick fires exactly when the hold completes; firing records one gesture and disarms the press. */
  lemma TickOutcome(c: Converter, now: real)
    ensures HoldCompletes(c, now) ==>
      TickStep(c, now) == c.(gestures := c.gestures + [TapAndHold(c.pointer.lastPosition, now - c.pointer.rightClickStartTime)],
                             pointer := c.pointer.(rightClickStartTime := 0.0)) &&
      !Armed(TickStep(c, now))
    ensures !HoldCompletes(c, now) ==> TickStep(c, now) == c
  {
  }

  /** Once disarmed, no number of ticks changes anything. */
  lemma {:induction false} DisarmedTicks(c: Converter, times: seq<real>)
    requires !Armed(c)
    ensures Ticks(c, times) == c
  {
    if |times| > 0 {
      DisarmedTicks(TickStep(c, times[0]), times[1..]);
    }
  }

  /** The first of `times` at which the hold completes. */
  function FirstCompletion(c: Converter, times: seq<real>): Option<real>
    decreases |times|
  {
    if |times| == 0 then None
    else if HoldCompletes(c, times[0]) then Some(times[0])
    else FirstCompletion(c, times[1..])
  }

  /**
   * Tap-and-hold fires at most once per press: over any run of ticks the state is unchanged, or it
   * is the state after the one tick at which the hold first completed.
   */
  lemma {:induction false} HoldFiresAtMostOnce(c: Converter, times: seq<real>)
    ensures Ticks(c, times) ==
      match FirstCompletion(c, times) case None => c case Some(t) => TickStep(c, t)
    ensures |Ticks(c, times).gestures| <= |c.gestures| + 1
  {
    if |times| > 0 {
      if HoldCompletes(c, times[0]) {
        DisarmedTicks(TickStep(c, times[0]), times[1..]);
      } else {
        HoldFiresAtMostOnce(c, times[1..]);
      }
    }
  }

  /**
   * Releasing the right button disarms the press, so no hold fires after it; a release before the
   * threshold, with every tick in between too early, never fires at all.
   */
  lemma QuickReleaseNeverFires(c: Converter, early: seq<real>, later: seq<real>)
    requires c.enabled
    requires forall i :: 0 <= i < |early| ==> early[i] - c.pointer.rightClickStartTime < c.threshold
    ensures var r := MouseUpStep(Ticks(c, early), RightButton).1;
      !Armed(r) && Ticks(r, later) == r && r.gestures == c.gestures
  {
    assert FirstCompletion(c, early).None? by {
      NoCompletion(c, early);
    }
    HoldFiresAtMostOnce(c, early);
    var r := MouseUpStep(c, RightButton).1;
    DisarmedTicks(r, later);
  }

  lemma {:induction false} NoCompletion(c: Converter, early: seq<real>)
    requires forall i :: 0 <= i < |early| ==> early[i] - c.pointer.rightClickStartTime < c.threshold
    ensures FirstCompletion(c, early).None?
  {
    if |early| > 0 {
      NoCompletion(c, early[1..]);
    }
  }

  /** A right press at world time 0 (or earlier) is never armed, so its hold never fires. */
  lemma PressAtTimeZeroNeverFires(c: Converter, position: Vec2, now: real, later: seq<real>)
    requires c.enabled && now <= 0.0
    ensures var r := MouseDownStep(c, RightButton, position, now).1; !Armed(r) && Ticks(r, later) == r
  {
    DisarmedTicks(MouseDownStep(c, RightButton, position, now).1, later);
  }

  /** While conversion is disabled the mouse handlers report nothing handled and change nothing. */
  lemma DisabledChangesNothing(c: Converter, b: Button, position: Vec2, now: real, pressed: bool)
    requires !c.enabled
    ensures MouseDownStep(c, b, position, now) == (false, c)
    ensures MouseUpStep(c, b) == (false, c)
    ensures MouseMoveStep(c, position) == (false, c)
    ensures TouchFromMouseStep(c, pressed) == c
  {
  }

  /** Disabling never clears the flag; enabling sets it exactly when Slate is initialised. */
  lemma EnableFlag(c: Converter, slateReady: bool)
    ensures EnableStep(c, false, slateReady) == c
    ensures EnableStep(c, true, slateReady).enabled == (c.enabled || slateReady)
  {
  }

  /** Touch start adds the index, touch end removes it; an air tap therefore leaves index 0 inactive. */
  lemma TouchSet(c: Converter, index: int, position: Vec2)
    ensures index in TouchStartStep(c, index).touches
    ensures TouchEndStep(c, index).touches == c.touches - {index}
    ensures AirTapStep(c, position).touches == c.touches - {0}
    ensures c.enabled ==> 0 !in MouseDownStep(c, LeftButton, position, 0.0).1.touches
  {
  }

  /** The first left click after construction records one air tap and leaves no touch active. */
  lemma FirstLeftClick(position: Vec2, now: real)
    ensures MouseDownStep(InitialConverter, LeftButton, position, now) ==
      (true, InitialConverter.(pointer := InitialConverter.pointer.(leftDown := true, lastPosition := position),
                               gestures := [AirTap(position)]))
  {
    assert InitialConverter.touches + {0} - {0} == {};
    assert InitialConverter.gestures + [AirTap(position)] == [AirTap(position)];
  }
}
