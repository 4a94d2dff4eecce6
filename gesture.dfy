/**
  The touch handling of the slider as a function from the state before an
  event to the state after it: the specification the class's onTouchEvent
  is proved against, and the properties of whole gestures.
 */
module Gesture {
  import opened Wrappers
  import opened Geometry
  import opened HitTest
  import opened RangeSelection

  /** INVALID_POINTER_ID, the active pointer id before any gesture. */
  const InvalidPointerId: int := 255

  /**
    What the touch handling reads and does not change: the geometry,
    mSingleThumb, isEnabled(), mOnOff, notifyWhileDragging, whether a
    listener is registered, and mScaledTouchSlop.
   */
  datatype Config = Config(
    layout: Layout,
    singleThumb: bool,
    enabled: bool,
    onOff: bool,
    notifyWhileDragging: bool,
    hasListener: bool,
    touchSlop: int)

  /** pressedThumb, mIsDragging, mActivePointerId and mDownMotionX. */
  datatype Touch = Touch(pressed: Option<Thumb>, dragging: bool, activePointer: int, downX: real)

  /** Everything a touch event may change. */
  datatype BarState = BarState(sel: Selection, touch: Touch)

  /**
    A call of onRangeSeekBarValuesChanged, with the normalized positions the
    reported values are computed from and the inUse flag.
   */
  datatype Notification = Notification(min: real, max: real, inUse: bool)

  /**
    The touch events the slider distinguishes. x is the x-coordinate of the
    pointer the event is read for: the last pointer of a DOWN or POINTER_DOWN,
    the active pointer of a MOVE or UP. A POINTER_UP carries the index of the
    lifted pointer and the ids and x-coordinates of all pointers. Other
    stands for every action the switch has no case for.
   */
  datatype Event =
    | Down(x: real, id: int)
    | Move(x: real)
    | Up(x: real)
    | PointerDown(x: real, id: int)
    | PointerUp(index: nat, ids: seq<int>, xs: seq<real>)
    | Cancel
    | Other

  /** What the host guarantees of an event: a POINTER_UP leaves at least one pointer down. */
  predicate WellFormed(e: Event)
  {
    e.PointerUp? ==> |e.ids| == |e.xs| && 2 <= |e.ids| && e.index < |e.ids|
  }

  predicate AllWellFormed(es: seq<Event>)
  {
    forall i :: 0 <= i < |es| ==> WellFormed(es[i])
  }

  /** The result of handling one event: the new state, the return value of onTouchEvent, the listener calls. */
  datatype StepResult = StepResult(state: BarState, handled: bool, emitted: seq<Notification>)

  /** The listener call for selection s, if a listener is registered. */
  function Notify(c: Config, s: Selection, inUse: bool): (r: seq<Notification>)
  {
    if c.hasListener then [Notification(s.min, s.max, inUse)] else []
  }

  /**
    trackTouchEvent: the pressed thumb moves to the normalized position
    under x (the MIN thumb only when the slider has two thumbs); nothing
    moves when no thumb is pressed.
   */
  function TrackSelection(c: Config, pressed: Option<Thumb>, s: Selection, x: real): (r: Selection)
    ensures pressed.None? ==> r == s
    ensures c.singleThumb ==> r.min == s.min
    ensures pressed == Some(Min) ==> r.max == s.max
    ensures pressed == Some(Max) ==> r.min == s.min
    ensures Ordered(s) ==> Ordered(r)
  {
    if pressed == Some(Min) && !c.singleThumb then
      WithMin(s, ScreenToNormalized(c.layout, x))
    else if pressed == Some(Max) then
      WithMax(s, ScreenToNormalized(c.layout, x))
    else
      s
  }

  /**
    The tracked thumb lands exactly under the finger when the finger is
    within the span that thumb may occupy: [track start, max] for MIN and
    [min, track end] for MAX.
   */
  lemma TrackFollowsFinger(c: Config, pressed: Thumb, s: Selection, x: real)
    requires Ordered(s) && !c.layout.Degenerate()
    requires pressed == Min ==> !c.singleThumb && c.layout.padding <= x <= NormalizedToScreen(c.layout, s.max)
    requires pressed == Max ==> NormalizedToScreen(c.layout, s.min) <= x <= c.layout.TrackEnd()
    ensures var r := TrackSelection(c, Some(pressed), s, x);
            var n := ScreenToNormalized(c.layout, x);
            && NormalizedToScreen(c.layout, n) == x
            && r == (if pressed == Min then Selection(n, s.max) else Selection(s.min, n))
  {
    var l := c.layout;
    if pressed == Min {
      ScreenToNormalizedBetween(l, 0.0, s.max, x);
    } else {
      ScreenToNormalizedBetween(l, s.min, 1.0, x);
    }
  }

  /**
    Outside the span a thumb may occupy, the tracked thumb is clamped: MIN
    stops at the track start or at MAX, MAX stops at MIN or at the track end.
   */
  lemma TrackClampsBeyondSpan(c: Config, pressed: Thumb, s: Selection, x: real)
    requires Ordered(s) && !c.layout.Degenerate()
    requires pressed == Min ==> !c.singleThumb
    ensures var l := c.layout;
            var r := TrackSelection(c, Some(pressed), s, x);
            && (pressed == Min && x <= l.padding ==> r == Selection(0.0, s.max))
            && (pressed == Min && NormalizedToScreen(l, s.max) <= x ==> r == Selection(s.max, s.max))
            && (pressed == Max && x <= NormalizedToScreen(l, s.min) ==> r == Selection(s.min, s.min))
            && (pressed == Max && l.TrackEnd() <= x ==> r == Selection(s.min, 1.0))
  {
    var l := c.layout;
    if pressed == Min && NormalizedToScreen(l, s.max) <= x {
      ScreenRoundTrip(l, s.max);
      ScreenToNormalizedMonotone(l, NormalizedToScreen(l, s.max), x);
    }
    if pressed == Max && x <= NormalizedToScreen(l, s.min) {
      ScreenRoundTrip(l, s.min);
      ScreenToNormalizedMonotone(l, x, NormalizedToScreen(l, s.min));
    }
  }

  /**
    onSecondaryPointerUp: when the lifted pointer is the active one, tracking
    moves to another pointer that is still down (index 1 if the lifted one was
    index 0, index 0 otherwise), taking its x as the new down position.
   */
  function SecondaryPointerUp(t: Touch, index: nat, ids: seq<int>, xs: seq<real>): (r: Touch)
    requires |ids| == |xs| && 2 <= |ids| && index < |ids|
    ensures r.pressed == t.pressed && r.dragging == t.dragging
    ensures ids[index] != t.activePointer ==> r == t
    ensures ids[index] == t.activePointer ==>
              exists j :: 0 <= j < |ids| && j != index && r.activePointer == ids[j] && r.downX == xs[j]
  {
    if ids[index] == t.activePointer then
      var j := if index == 0 then 1 else 0;
      t.(activePointer := ids[j], downX := xs[j])
    else
      t
  }

  /** ACTION_DOWN: grab a thumb, start dragging, move it under x, report inUse = true. */
  function DownStep(c: Config, s: BarState, x: real, id: int): (r: StepResult)
    ensures r.handled && r.state.touch.pressed.Some? && r.state.touch.dragging
    ensures r.state.touch.activePointer == id && r.state.touch.downX == x
    ensures r.state.touch.pressed == Some(Min) ==> r.state.sel.max == s.sel.max
    ensures r.state.touch.pressed == Some(Max) ==> r.state.sel.min == s.sel.min
    ensures Ordered(s.sel) ==> Ordered(r.state.sel)
    ensures c.hasListener ==> r.emitted == [Notification(r.state.sel.min, r.state.sel.max, true)]
    ensures !c.hasListener ==> r.emitted == []
  {
    var hit := EvalPressedThumb(c.layout, x, s.sel.min, s.sel.max);
    var sel := TrackSelection(c, hit, s.sel, x);
    StepResult(BarState(sel, Touch(hit, true, id, x)), true, Notify(c, sel, true))
  }

  /**
    ACTION_MOVE: with a thumb pressed, follow x while dragging, or start
    dragging once x is farther than the touch slop from the down position;
    report inUse = true when notifyWhileDragging is set.
   */
  function MoveStep(c: Config, s: BarState, x: real): (r: StepResult)
    ensures r.handled
    ensures r.state.touch.pressed == s.touch.pressed
    ensures r.state.touch.activePointer == s.touch.activePointer && r.state.touch.downX == s.touch.downX
    ensures s.touch.dragging ==> r.state.touch.dragging
    ensures s.touch.pressed.None? ==> r.state == s && r.emitted == []
    ensures Ordered(s.sel) ==> Ordered(r.state.sel)
    ensures s.touch.pressed.Some? && s.touch.dragging ==>
              r.state.touch == s.touch && r.state.sel == TrackSelection(c, s.touch.pressed, s.sel, x)
    ensures !c.notifyWhileDragging || !c.hasListener ==> r.emitted == []
    ensures s.touch.pressed.Some? && c.notifyWhileDragging && c.hasListener ==>
              r.emitted == [Notification(r.state.sel.min, r.state.sel.max, true)]
    ensures r.emitted != [] ==> r.emitted == [Notification(r.state.sel.min, r.state.sel.max, true)]
  {
    var t := s.touch;
    if t.pressed.None? then
      StepResult(s, true, [])
    else
      var starts := !t.dragging && Abs(x - t.downX) > c.touchSlop as real;
      var sel := if t.dragging || starts then TrackSelection(c, t.pressed, s.sel, x) else s.sel;
      StepResult(BarState(sel, t.(dragging := t.dragging || starts)), true,
                 if c.notifyWhileDragging then Notify(c, sel, true) else [])
  }

  /** ACTION_UP: track x once, release the thumb, stop dragging, report inUse = false. */
  function UpStep(c: Config, s: BarState, x: real): (r: StepResult)
    ensures r.handled && r.state.touch.pressed.None? && !r.state.touch.dragging
    ensures r.state.touch.activePointer == s.touch.activePointer && r.state.touch.downX == s.touch.downX
    ensures Ordered(s.sel) ==> Ordered(r.state.sel)
    ensures c.hasListener ==> r.emitted == [Notification(r.state.sel.min, r.state.sel.max, false)]
    ensures !c.hasListener ==> r.emitted == []
  {
    var sel := TrackSelection(c, s.touch.pressed, s.sel, x);
    StepResult(BarState(sel, s.touch.(pressed := None, dragging := false)), true, Notify(c, sel, false))
  }

  /** onTouchEvent on state s. */
  function Step(c: Config, s: BarState, e: Event): (r: StepResult)
    requires WellFormed(e)
    ensures !c.enabled || !c.onOff ==> r == StepResult(s, false, [])
    ensures c.enabled && c.onOff ==> r.handled
    ensures Ordered(s.sel) ==> Ordered(r.state.sel)
    ensures !c.hasListener ==> r.emitted == []
    ensures forall k :: 0 <= k < |r.emitted| ==>
              r.emitted[k].min == r.state.sel.min && r.emitted[k].max == r.state.sel.max
  {
    if !c.enabled || !c.onOff then
      StepResult(s, false, [])
    else
      match e
      case Down(x, id) => DownStep(c, s, x, id)
      case Move(x) => MoveStep(c, s, x)
      case Up(x) => UpStep(c, s, x)
      case PointerDown(x, id) =>
        StepResult(s.(touch := s.touch.(activePointer := id, downX := x)), true, [])
      case PointerUp(index, ids, xs) =>
        StepResult(s.(touch := SecondaryPointerUp(s.touch, index, ids, xs)), true, [])
      case Cancel =>
        StepResult(s.(touch := s.touch.(dragging := false)), true, [])
      case Other =>
        StepResult(s, true, [])
  }

  /**
    A DOWN grabs a thumb (never none), starts dragging at once, moves the
    grabbed thumb under the finger and reports inUse = true.
   */
  lemma DownGrabsThumb(c: Config, s: BarState, x: real, id: int)
    requires c.enabled && c.onOff
    ensures var r := Step(c, s, Down(x, id));
            && r.state.touch.pressed == EvalPressedThumb(c.layout, x, s.sel.min, s.sel.max)
            && r.state.touch.pressed.Some?
            && r.state.touch.dragging
            && r.state.touch.activePointer == id && r.state.touch.downX == x
            && r.state.sel == TrackSelection(c, r.state.touch.pressed, s.sel, x)
            && r.emitted == Notify(c, r.state.sel, true)
  {
  }

  /** An UP releases the thumb, stops dragging and reports inUse = false. */
  lemma UpReleasesThumb(c: Config, s: BarState, x: real)
    requires c.enabled && c.onOff
    ensures var r := Step(c, s, Up(x));
            && r.state.touch.pressed.None?
            && !r.state.touch.dragging
            && r.state.sel == TrackSelection(c, s.touch.pressed, s.sel, x)
            && (c.hasListener ==> r.emitted == [Notification(r.state.sel.min, r.state.sel.max, false)])
  {
  }

  /**
    A CANCEL stops dragging and changes nothing else: the pressed thumb, the
    active pointer, the down position and the selection stay as they are,
    and nothing is reported.
   */
  lemma CancelKeepsThumb(c: Config, s: BarState)
    requires c.enabled && c.onOff
    ensures var r := Step(c, s, Cancel);
            && r.handled
            && r.state.sel == s.sel
            && r.state.touch == s.touch.(dragging := false)
            && r.emitted == []
  {
  }

  /**
    POINTER_DOWN, POINTER_UP and actions without a case never touch the
    selection, the pressed thumb or the dragging flag, and report nothing:
    POINTER_DOWN rebinds tracking to the new pointer, POINTER_UP rebinds it
    as onSecondaryPointerUp does, and any other action changes nothing.
   */
  lemma PointerEventsKeepSelection(c: Config, s: BarState, e: Event)
    requires c.enabled && c.onOff && WellFormed(e)
    requires e.PointerDown? || e.PointerUp? || e.Other?
    ensures var r := Step(c, s, e);
            && r.handled
            && r.emitted == []
            && r.state.sel == s.sel
            && r.state.touch.pressed == s.touch.pressed
            && r.state.touch.dragging == s.touch.dragging
            && (e.PointerDown? ==> r.state.touch.activePointer == e.id && r.state.touch.downX == e.x)
            && (e.PointerUp? ==> r.state.touch == SecondaryPointerUp(s.touch, e.index, e.ids, e.xs))
            && (e.Other? ==> r.state == s)
  {
  }

  /**
    A MOVE while a thumb is pressed but not dragged (as after a CANCEL)
    moves nothing until it is farther than the touch slop from the down
    position; then dragging starts and the thumb follows.
   */
  lemma MoveRespectsSlop(c: Config, s: BarState, x: real)
    requires c.enabled && c.onOff && s.touch.pressed.Some? && !s.touch.dragging
    ensures var r := Step(c, s, Move(x));
            && (Abs(x - s.touch.downX) <= c.touchSlop as real ==> r.state == s)
            && (Abs(x - s.touch.downX) > c.touchSlop as real ==>
                  r.state.touch.dragging && r.state.sel == TrackSelection(c, s.touch.pressed, s.sel, x))
  {
  }

  /**
    A MOVE during a drag moves the pressed thumb under x (within its clamp),
    keeps the gesture fields, and with notifyWhileDragging and a listener
    reports inUse = true.
   */
  lemma MoveFollowsDrag(c: Config, s: BarState, x: real)
    requires c.enabled && c.onOff && s.touch.pressed.Some? && s.touch.dragging
    ensures var r := Step(c, s, Move(x));
            && r.state.sel == TrackSelection(c, s.touch.pressed, s.sel, x)
            && r.state.touch == s.touch
            && (c.notifyWhileDragging && c.hasListener ==>
                  r.emitted == [Notification(r.state.sel.min, r.state.sel.max, true)])
            && (!c.notifyWhileDragging ==> r.emitted == [])
  {
  }

  /** The result of a sequence of events: the final state and every listener call in order. */
  datatype RunResult = RunResult(state: BarState, emitted: seq<Notification>)

  /** onTouchEvent applied to each event of es in turn. */
  function Run(c: Config, s: BarState, es: seq<Event>): RunResult
    requires AllWellFormed(es)
    decreases |es|
  {
    if es == [] then
      RunResult(s, [])
    else
      var r := Step(c, s, es[0]);
      var rest := Run(c, r.state, es[1..]);
      RunResult(rest.state, r.emitted + rest.emitted)
  }

  /** No sequence of events breaks 0 <= min <= max <= 1. */
  lemma {:induction false} RunKeepsOrdered(c: Config, s: BarState, es: seq<Event>)
    requires AllWellFormed(es) && Ordered(s.sel)
    ensures Ordered(Run(c, s, es).state.sel)
    decreases |es|
  {
    if es != [] {
      RunKeepsOrdered(c, Step(c, s, es[0]).state, es[1..]);
    }
  }

  /** A disabled or switched-off slider ignores every sequence of events. */
  lemma {:induction false} DisabledRunIsInert(c: Config, s: BarState, es: seq<Event>)
    requires AllWellFormed(es) && (!c.enabled || !c.onOff)
    ensures Run(c, s, es) == RunResult(s, [])
    decreases |es|
  {
    if es != [] {
      DisabledRunIsInert(c, s, es[1..]);
    }
  }

  /** Concatenating well-formed event sequences gives a well-formed one. */
  lemma AllWellFormedAppend(a: seq<Event>, b: seq<Event>)
    requires AllWellFormed(a) && AllWellFormed(b)
    ensures AllWellFormed(a + b)
  {
    forall i | 0 <= i < |a + b| ensures WellFormed((a + b)[i]) {
      if i < |a| { assert (a + b)[i] == a[i]; } else { assert (a + b)[i] == b[i - |a|]; }
    }
  }

  /** Running a + b is running a, then b from where a left off. */
  lemma {:induction false} RunAppend(c: Config, s: BarState, a: seq<Event>, b: seq<Event>)
    requires AllWellFormed(a) && AllWellFormed(b)
    ensures AllWellFormed(a + b)
    ensures var ra := Run(c, s, a);
            var rb := Run(c, ra.state, b);
            Run(c, s, a + b) == RunResult(rb.state, ra.emitted + rb.emitted)
    decreases |a|
  {
    AllWellFormedAppend(a, b);
    if a == [] {
      assert a + b == b;
    } else {
      var r := Step(c, s, a[0]);
      assert AllWellFormed(a[1..]);
      RunAppend(c, r.state, a[1..], b);
      var ra' := Run(c, r.state, a[1..]);
      var rb := Run(c, ra'.state, b);
      calc {
        Run(c, s, a + b);
      == { assert (a + b)[0] == a[0]; assert (a + b)[1..] == a[1..] + b; }
        RunResult(Run(c, r.state, a[1..] + b).state, r.emitted + Run(c, r.state, a[1..] + b).emitted);
      ==
        RunResult(rb.state, r.emitted + (ra'.emitted + rb.emitted));
      == { assert r.emitted + (ra'.emitted + rb.emitted) == (r.emitted + ra'.emitted) + rb.emitted; }
        RunResult(rb.state, (r.emitted + ra'.emitted) + rb.emitted);
      }
    }
  }

  /**
    Whatever came before, a gesture that ends with UP leaves no thumb pressed,
    no drag in progress, and (with a listener) ends with an inUse = false
    report of the final selection.
   */
  lemma GestureEndsReleased(c: Config, s: BarState, es: seq<Event>, x: real)
    requires AllWellFormed(es) && c.enabled && c.onOff
    ensures AllWellFormed(es + [Up(x)])
    ensures var r := Run(c, s, es + [Up(x)]);
            && r.state.touch.pressed.None?
            && !r.state.touch.dragging
            && (c.hasListener ==>
                  r.emitted != [] && r.emitted[|r.emitted| - 1] == Notification(r.state.sel.min, r.state.sel.max, false))
  {
    RunAppend(c, s, es, [Up(x)]);
    var ra := Run(c, s, es);
    assert Run(c, ra.state, [Up(x)]) == RunResult(Step(c, ra.state, Up(x)).state, Step(c, ra.state, Up(x)).emitted);
  }

  /**
    Tap-seek: a DOWN and an UP at the same x between the two thumbs (of a
    two-thumb slider) move the grabbed thumb exactly under the finger, leave
    the other where it was, and report inUse = true then inUse = false.
   */
  lemma TapSeek(c: Config, s: BarState, x: real, id: int)
    requires c.enabled && c.onOff && !c.singleThumb && !c.layout.Degenerate() && Ordered(s.sel)
    requires NormalizedToScreen(c.layout, s.sel.min) <= x <= NormalizedToScreen(c.layout, s.sel.max)
    ensures AllWellFormed([Down(x, id), Up(x)])
    ensures var t := EvalPressedThumb(c.layout, x, s.sel.min, s.sel.max).value;
            var r := Run(c, s, [Down(x, id), Up(x)]);
            var n := ScreenToNormalized(c.layout, x);
            && r.state.sel == (if t == Min then Selection(n, s.sel.max) else Selection(s.sel.min, n))
            && NormalizedToScreen(c.layout, n) == x
            && r.state.touch.pressed.None? && !r.state.touch.dragging
            && r.emitted == Notify(c, r.state.sel, true) + Notify(c, r.state.sel, false)
  {
    var l := c.layout;
    var t := EvalPressedThumb(l, x, s.sel.min, s.sel.max).value;
    var n := ScreenToNormalized(l, x);
    NormalizedToScreenMonotone(l, 0.0, s.sel.min);
    NormalizedToScreenMonotone(l, s.sel.max, 1.0);
    TrackFollowsFinger(c, t, s.sel, x);
    var r1 := Step(c, s, Down(x, id));
    assert r1.state.sel == (if t == Min then Selection(n, s.sel.max) else Selection(s.sel.min, n));
    var r2 := Step(c, r1.state, Up(x));
    assert r2.state.sel == r1.state.sel;
    assert Run(c, r1.state, [Up(x)]) == RunResult(r2.state, r2.emitted);
  }

  /**
    Dragging the MAX thumb of a two-thumb slider: DOWN on it, MOVE to x1 at
    or right of the MIN thumb, UP there. The MAX thumb ends under the finger,
    the MIN thumb does not move, and the reports are inUse = true (one more
    per MOVE when notifyWhileDragging is set) and then inUse = false.
   */
  lemma DragMaxThumb(c: Config, s: BarState, x0: real, x1: real, id: int)
    requires c.enabled && c.onOff && !c.layout.Degenerate() && Ordered(s.sel)
    requires EvalPressedThumb(c.layout, x0, s.sel.min, s.sel.max) == Some(Max)
    requires NormalizedToScreen(c.layout, s.sel.min) <= x1 <= c.layout.TrackEnd()
    ensures AllWellFormed([Down(x0, id), Move(x1), Up(x1)])
    ensures var r := Run(c, s, [Down(x0, id), Move(x1), Up(x1)]);
            var n := ScreenToNormalized(c.layout, x1);
            var sel := Selection(s.sel.min, n);
            && r.state.sel == sel
            && NormalizedToScreen(c.layout, n) == x1
            && r.state.touch.pressed.None? && !r.state.touch.dragging
            && (c.hasListener ==>
                  |r.emitted| == (if c.notifyWhileDragging then 3 else 2) &&
                  r.emitted[0].inUse && r.emitted[|r.emitted| - 1] == Notification(sel.min, sel.max, false))
  {
    var r1 := Step(c, s, Down(x0, id));
    assert r1.state.sel.min == s.sel.min;
    TrackFollowsFinger(c, Max, r1.state.sel, x1);
    var r2 := Step(c, r1.state, Move(x1));
    assert r2.state.sel == Selection(s.sel.min, ScreenToNormalized(c.layout, x1));
    var r3 := Step(c, r2.state, Up(x1));
    assert r3.state.sel == r2.state.sel;
    assert Run(c, r2.state, [Up(x1)]) == RunResult(r3.state, r3.emitted);
    assert [Down(x0, id), Move(x1), Up(x1)][1..] == [Move(x1), Up(x1)];
    assert [Move(x1), Up(x1)][1..] == [Up(x1)];
  }
}
