/** The long-press detector of `useTouchLongPress`: a touch (or pen) held down, or a
    mouse hovering, for `delay` milliseconds fires the long-press callback once, and
    the click that ends a touch long press is swallowed. */
module LongPress {
  import opened Common

  const DefaultDelay: nat := 600

  datatype PointerType = Mouse | Touch | Pen

  /** The hook's three refs, with the browser's timer table reduced to the one timer
      the hook can have armed. */
  class Detector {
    /** The delay option, 600 when none is given. */
    const delay: int
    /** `timeoutRef`: the id of the last timer set, or none. */
    var timeoutRef: Option<nat>
    /** Whether the timer named by `timeoutRef` is still due to fire. */
    var armed: bool
    /** The id the browser hands out next; ids are positive. */
    var nextTimerId: nat
    var longPressTriggered: bool
    var hoverTrigger: bool
    /** How many times the long-press callback has run. */
    var longPresses: nat

    predicate Valid()
      reads this`timeoutRef, this`armed, this`nextTimerId
    {
      && nextTimerId > 0
      && (armed ==> timeoutRef.Some?)
      && (timeoutRef.Some? ==> 0 < timeoutRef.value < nextTimerId)
    }

    constructor (delayOption: Option<int>)
      ensures Valid()
      ensures delay == if delayOption.Some? then delayOption.value else DefaultDelay
      ensures timeoutRef == None && !armed && !longPressTriggered && !hoverTrigger && longPresses == 0
    {
      delay := if delayOption.Some? then delayOption.value else DefaultDelay;
      timeoutRef := None;
      armed := false;
      nextTimerId := 1;
      longPressTriggered := false;
      hoverTrigger := false;
      longPresses := 0;
    }

    /** `clearLongPressTimeout`: cancel the pending timer, if any, and forget it. */
    method ClearLongPressTimeout()
      requires Valid()
      modifies this`timeoutRef, this`armed
      ensures Valid()
      ensures timeoutRef == None && !armed
    {
      if timeoutRef.None? {
        return;
      }
      armed := false;
      timeoutRef := None;
    }

    /** `startLongPressTimer`: clear the triggered flag and replace any pending timer
        by a new one. */
    method StartLongPressTimer()
      requires Valid()
      modifies this`longPressTriggered, this`timeoutRef, this`armed, this`nextTimerId
      ensures Valid()
      ensures !longPressTriggered && armed
      ensures timeoutRef == Some(old(nextTimerId)) && nextTimerId == old(nextTimerId) + 1
      ensures old(timeoutRef) != timeoutRef
    {
      longPressTriggered := false;
      ClearLongPressTimeout();
      timeoutRef := Some(nextTimerId);
      nextTimerId := nextTimerId + 1;
      armed := true;
    }

    /** `handlePointerDown`: a mouse press is ignored; a touch or pen press starts the
        timer as a touch long press. */
    method HandlePointerDown(pointerType: PointerType)
      requires Valid()
      modifies this`longPressTriggered, this`timeoutRef, this`armed, this`nextTimerId, this`hoverTrigger
      ensures Valid()
      ensures pointerType == Mouse ==>
                && longPressTriggered == old(longPressTriggered) && timeoutRef == old(timeoutRef)
                && armed == old(armed) && nextTimerId == old(nextTimerId) && hoverTrigger == old(hoverTrigger)
      ensures pointerType != Mouse ==>
                && !hoverTrigger && !longPressTriggered && armed
                && timeoutRef == Some(old(nextTimerId)) && nextTimerId == old(nextTimerId) + 1
    {
      if pointerType == Mouse {
        return;
      }
      hoverTrigger := false;
      StartLongPressTimer();
    }

    /** `handlePointerEnter`: only a mouse entering starts the timer, as a hover. */
    method HandlePointerEnter(pointerType: PointerType)
      requires Valid()
      modifies this`longPressTriggered, this`timeoutRef, this`armed, this`nextTimerId, this`hoverTrigger
      ensures Valid()
      ensures pointerType != Mouse ==>
                && longPressTriggered == old(longPressTriggered) && timeoutRef == old(timeoutRef)
                && armed == old(armed) && nextTimerId == old(nextTimerId) && hoverTrigger == old(hoverTrigger)
      ensures pointerType == Mouse ==>
                && hoverTrigger && !longPressTriggered && armed
                && timeoutRef == Some(old(nextTimerId)) && nextTimerId == old(nextTimerId) + 1
    {
      if pointerType != Mouse {
        return;
      }
      hoverTrigger := true;
      StartLongPressTimer();
    }

    /** Pointer up, leave and cancel: the pending timer is cancelled, so no long press
        fires from it. */
    method HandlePointerEnd()
      requires Valid()
      modifies this`timeoutRef, this`armed
      ensures Valid()
      ensures !armed && timeoutRef == None
    {
      ClearLongPressTimeout();
    }

    /** The armed timer fires: the callback runs once; a touch long press leaves the
        triggered flag set, a hover leaves it clear; the hover flag ends clear. The ref
        keeps the spent timer's id. */
    method TimerFires()
      requires Valid() && armed
      modifies this`armed, this`longPressTriggered, this`longPresses, this`hoverTrigger
      ensures Valid()
      ensures !armed && longPresses == old(longPresses) + 1
      ensures longPressTriggered == !old(hoverTrigger) && !hoverTrigger
    {
      armed := false;
      longPressTriggered := true;
      longPresses := longPresses + 1;
      if hoverTrigger {
        longPressTriggered := false;
      }
      hoverTrigger := false;
    }

    /** `shouldHandleClick`: false, once, after a triggered long press, which it
        consumes; true otherwise. */
    method ShouldHandleClick() returns (handle: bool)
      modifies this`longPressTriggered
      ensures handle == !old(longPressTriggered)
      ensures !longPressTriggered
    {
      if longPressTriggered {
        longPressTriggered := false;
        return false;
      }
      return true;
    }

    /** `resetLongPress`. */
    method ResetLongPress()
      modifies this`longPressTriggered
      ensures !longPressTriggered
    {
      longPressTriggered := false;
    }

    /** Unmounting clears the pending timer. */
    method Unmount()
      requires Valid()
      modifies this`timeoutRef, this`armed
      ensures Valid()
      ensures !armed && timeoutRef == None
    {
      ClearLongPressTimeout();
    }
  }

  /** A touch held until the timer fires triggers one long press, and of the clicks
      that follow only the first is swallowed. */
  method TouchLongPressScenario() returns (first: bool, second: bool, presses: nat)
    ensures !first && second && presses == 1
  {
    var d := new Detector(None);
    d.HandlePointerDown(Touch);
    d.TimerFires();
    d.HandlePointerEnd();
    first := d.ShouldHandleClick();
    second := d.ShouldHandleClick();
    presses := d.longPresses;
  }

  /** A hover long press fires the callback but does not swallow the next click. */
  method HoverLongPressScenario() returns (click: bool, presses: nat)
    ensures click && presses == 1
  {
    var d := new Detector(None);
    d.HandlePointerEnter(Mouse);
    d.TimerFires();
    click := d.ShouldHandleClick();
    presses := d.longPresses;
  }

  /** Lifting the finger before the delay cancels the timer: nothing fires, and the
      click is handled. */
  method ShortTapScenario() returns (armedAfter: bool, click: bool, presses: nat)
    ensures !armedAfter && click && presses == 0
  {
    var d := new Detector(Some(600));
    d.HandlePointerDown(Touch);
    d.HandlePointerEnd();
    armedAfter := d.armed;
    click := d.ShouldHandleClick();
    presses := d.longPresses;
  }
}
