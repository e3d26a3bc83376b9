/**
 * `UHoloLensInputConverter` as a class: the component's flags, threshold, button state, touch set
 * and recognised gestures are fields that each handler updates in place. Every method is proved to
 * do what the matching step function of `HoloLensSteps` says, so the properties proved there hold
 * of the component.
 */
module HoloLensInput {
  import opened HoloLensSteps

  class HoloLensInputConverter {
    var enabled: bool
    var threshold: real
    var pointer: Pointer
    var touches: set<int>
    var gestures: seq<Gesture>

    function View(): Converter
      reads this
    {
      Converter(enabled, threshold, pointer, touches, gestures)
    }

    constructor ()
      ensures View() == InitialConverter
    {
      enabled := true;
      threshold := 1.0;
      pointer := Pointer(false, false, Vec2(0.0, 0.0), 0.0);
      touches := {};
      gestures := [];
    }

    /** Turns conversion on when running on HoloLens 2 or when it is configured on. */
    method BeginPlay(isHoloLens: bool, slateReady: bool)
      modifies this
      ensures View() == BeginPlayStep(old(View()), isHoloLens, slateReady)
    {
      if isHoloLens || enabled {
        EnableHoloLensInputConversion(true, slateReady);
      }
    }

    method EndPlay(slateReady: bool)
      modifies this
      ensures View() == EndPlayStep(old(View()), slateReady)
    {
      EnableHoloLensInputConversion(false, slateReady);
    }

    /** Fires tap-and-hold once the right button has been held for the threshold. */
    method TickComponent(now: real)
      modifies this
      ensures View() == TickStep(old(View()), now)
    {
      if pointer.rightDown && pointer.rightClickStartTime > 0.0 {
        var held := now - pointer.rightClickStartTime;
        if held >= threshold {
          HandleTapAndHoldGesture(pointer.lastPosition, held);
          pointer := pointer.(rightClickStartTime := 0.0);
        }
      }
    }

    method EnableHoloLensInputConversion(enable: bool, slateReady: bool)
      modifies this
      ensures View() == EnableStep(old(View()), enable, slateReady)
    {
      if !enable {
        // the input delegates are removed; the flag is left as it was
        return;
      }
      if slateReady {
        enabled := true;
      }
    }

    method SimulateTouchFromMouse(pressed: bool)
      modifies this
      ensures View() == TouchFromMouseStep(old(View()), pressed)
    {
      if !enabled {
        return;
      }
      if pressed {
        SimulateTouchStart(0);
      } else {
        SimulateTouchEnd(0);
      }
    }

    method HandleAirTapGesture(position: Vec2)
      modifies this
      ensures View() == AirTapStep(old(View()), position)
    {
      SimulateTouchStart(0);
      SimulateTouchEnd(0);
      gestures := gestures + [AirTap(position)];
    }

    method HandleTapAndHoldGesture(position: Vec2, duration: real)
      modifies this
      ensures View() == TapAndHoldStep(old(View()), position, duration)
    {
      gestures := gestures + [TapAndHold(position, duration)];
    }

    /** Left presses are air taps; right presses start timing a hold; other buttons are not handled. */
    method OnMouseButtonDown(b: Button, position: Vec2, now: real) returns (handled: bool)
      modifies this
      ensures (handled, View()) == MouseDownStep(old(View()), b, position, now)
    {
      if !enabled {
        return false;
      }
      pointer := pointer.(lastPosition := position);
      match b {
        case LeftButton =>
          pointer := pointer.(leftDown := true);
          HandleAirTapGesture(position);
          return true;
        case RightButton =>
          pointer := pointer.(rightDown := true, rightClickStartTime := now);
          return true;
        case OtherButton =>
          return false;
      }
    }

    /** Releasing a button clears its flag; releasing the right one also disarms tap-and-hold. */
    method OnMouseButtonUp(b: Button) returns (handled: bool)
      modifies this
      ensures (handled, View()) == MouseUpStep(old(View()), b)
    {
      if !enabled {
        return false;
      }
      match b {
        case LeftButton =>
          pointer := pointer.(leftDown := false);
          return true;
        case RightButton =>
          pointer := pointer.(rightDown := false, rightClickStartTime := 0.0);
          return true;
        case OtherButton =>
          return false;
      }
    }

    method OnMouseMove(position: Vec2) returns (handled: bool)
      modifies this
      ensures (handled, View()) == MouseMoveStep(old(View()), position)
    {
      if !enabled {
        return false;
      }
      pointer := pointer.(lastPosition := position);
      if pointer.leftDown || pointer.rightDown {
        var _ := SimulateTouchMove(0);
      }
      return false;
    }

    method SimulateTouchStart(index: int)
      modifies this
      ensures View() == TouchStartStep(old(View()), index)
    {
      touches := touches + {index};
    }

    method SimulateTouchEnd(index: int)
      modifies this
      ensures View() == TouchEndStep(old(View()), index)
    {
      touches := touches - {index};
    }

    /** A move of an active touch is only reported; nothing changes. */
    method SimulateTouchMove(index: int) returns (active: bool)
      ensures active == (index in touches)
    {
      active := index in touches;
    }
  }
}
