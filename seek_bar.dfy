/**
  The slider widget as an object whose fields its methods update in place.
  Every state-changing method is proved against the functions of
  RangeSelection and Gesture.
 */
module SeekBar {
  import opened Wrappers
  import opened Geometry
  import opened HitTest
  import opened RangeSelection
  import opened NumberTypes
  import opened Gesture

  /** DEFAULT_MINIMUM and DEFAULT_MAXIMUM (Integers), the range used when none is configured. */
  const DefaultMinimum: real := 0.0
  const DefaultMaximum: real := 100.0

  /** A java.lang.Number: its runtime class and its doubleValue(). */
  datatype JavaNumber = JavaNumber(cls: NumberClass, doubleValue: real)

  class CKSeekBar {
    // configuration read by the touch handling
    var layout: Layout
    var singleThumb: bool
    var enabled: bool
    var onOff: bool
    var notifyWhileDragging: bool
    var hasListener: bool
    var touchSlop: int

    // the range, as doubles, and the numeric type of its values
    var absoluteMinValuePrim: real
    var absoluteMaxValuePrim: real
    var numberType: NumberType

    // the selection
    var normalizedMinValue: real
    var normalizedMaxValue: real

    // the gesture in progress
    var pressedThumb: Option<Thumb>
    var isDragging: bool
    var activePointerId: int
    var downMotionX: real

    /** Every call of the listener so far, oldest first. */
    ghost var notifications: seq<Notification>

    /** The selection invariant 0 <= min <= max <= 1. */
    predicate Valid()
      reads this
    {
      Ordered(CurrentSelection())
    }

    function CurrentSelection(): Selection
      reads this
    {
      Selection(normalizedMinValue, normalizedMaxValue)
    }

    function CurrentTouch(): Touch
      reads this
    {
      Touch(pressedThumb, isDragging, activePointerId, downMotionX)
    }

    function CurrentConfig(): Config
      reads this
    {
      Config(layout, singleThumb, enabled, onOff, notifyWhileDragging, hasListener, touchSlop)
    }

    function State(): BarState
      reads this
    {
      BarState(CurrentSelection(), CurrentTouch())
    }

    /**
      A slider over [absoluteMin, absoluteMax] with the full range selected,
      no gesture in progress, enabled and switched on, without a listener.
     */
    constructor (layout: Layout, singleThumb: bool, touchSlop: int,
                 absoluteMin: real, absoluteMax: real, numberType: NumberType)
      ensures Valid()
      ensures CurrentSelection() == Selection(0.0, 1.0)
      ensures CurrentTouch() == Touch(None, false, InvalidPointerId, 0.0)
      ensures CurrentConfig() == Config(layout, singleThumb, true, true, false, false, touchSlop)
      ensures absoluteMinValuePrim == absoluteMin && absoluteMaxValuePrim == absoluteMax
      ensures this.numberType == numberType
      ensures notifications == []
    {
      this.layout := layout;
      this.singleThumb := singleThumb;
      this.touchSlop := touchSlop;
      enabled := true;
      onOff := true;
      notifyWhileDragging := false;
      hasListener := false;
      absoluteMinValuePrim := absoluteMin;
      absoluteMaxValuePrim := absoluteMax;
      this.numberType := numberType;
      normalizedMinValue := 0.0;
      normalizedMaxValue := 1.0;
      pressedThumb := None;
      isDragging := false;
      activePointerId := InvalidPointerId;
      downMotionX := 0.0;
      notifications := [];
    }

    /** setOnOff(boolean): switches touch handling on or off. */
    method SetOnOff(on: bool)
      modifies this`onOff
      ensures onOff == on
    {
      onOff := on;
    }

    /** The host's setEnabled, read back by isEnabled(). */
    method SetEnabled(on: bool)
      modifies this`enabled
      ensures enabled == on
    {
      enabled := on;
    }

    /** setNotifyWhileDragging. */
    method SetNotifyWhileDragging(flag: bool)
      modifies this`notifyWhileDragging
      ensures notifyWhileDragging == flag
    {
      notifyWhileDragging := flag;
    }

    /** setOnRangeSeekBarChangeListener with a listener (present) or null. */
    method SetListener(present: bool)
      modifies this`hasListener
      ensures hasListener == present
    {
      hasListener := present;
    }

    /**
      setRangeValues: stores both bounds as doubles, then derives the numeric
      type from the class of the minimum. An unsupported class throws after
      the bounds have been stored; the numeric type is then left as it was.
     */
    method SetRangeValues(minValue: JavaNumber, maxValue: JavaNumber) returns (r: Result<NumberType, string>)
      modifies this`absoluteMinValuePrim, this`absoluteMaxValuePrim, this`numberType
      ensures absoluteMinValuePrim == minValue.doubleValue && absoluteMaxValuePrim == maxValue.doubleValue
      ensures r.Success? <==> !minValue.cls.OtherNumber?
      ensures r.Success? ==> numberType == r.value && InstanceOf(minValue.cls, numberType)
      ensures r.Failure? ==> numberType == old(numberType)
    {
      absoluteMinValuePrim := minValue.doubleValue;
      absoluteMaxValuePrim := maxValue.doubleValue;
      r := FromNumber(minValue.cls);
      if r.Success? {
        numberType := r.value;
      }
    }

    /**
      setRangeToDefaultValues: the range DEFAULT_MINIMUM to DEFAULT_MAXIMUM,
      both Integers, used when the view is configured without attributes.
     */
    method SetRangeToDefaultValues()
      modifies this`absoluteMinValuePrim, this`absoluteMaxValuePrim, this`numberType
      ensures absoluteMinValuePrim == DefaultMinimum && absoluteMaxValuePrim == DefaultMaximum
      ensures numberType == Integer
    {
      var r := SetRangeValues(JavaNumber(JavaInteger, DefaultMinimum), JavaNumber(JavaInteger, DefaultMaximum));
    }

    /** setNormalizedMinValue. */
    method SetNormalizedMinValue(value: real)
      modifies this`normalizedMinValue
      ensures CurrentSelection() == WithMin(old(CurrentSelection()), value)
      ensures old(Valid()) ==> Valid()
    {
      normalizedMinValue := WithMin(CurrentSelection(), value).min;
    }

    /** setNormalizedMaxValue. */
    method SetNormalizedMaxValue(value: real)
      modifies this`normalizedMaxValue
      ensures CurrentSelection() == WithMax(old(CurrentSelection()), value)
      ensures old(Valid()) ==> Valid()
    {
      normalizedMaxValue := WithMax(CurrentSelection(), value).max;
    }

    /**
      setSelectedMinValue, given value.doubleValue(). On a range of zero width
      the min becomes 0. Otherwise a value between the range minimum and the
      selected maximum is kept exactly.
     */
    method SetSelectedMinValue(value: real)
      modifies this`normalizedMinValue
      ensures absoluteMaxValuePrim - absoluteMinValuePrim == 0.0 ==> normalizedMinValue == 0.0
      ensures absoluteMaxValuePrim - absoluteMinValuePrim != 0.0 ==>
                CurrentSelection() == WithMin(old(CurrentSelection()),
                                              ValueToNormalized(absoluteMinValuePrim, absoluteMaxValuePrim, value))
      ensures old(Valid()) ==> Valid()
      ensures old(Valid()) && absoluteMinValuePrim < absoluteMaxValuePrim &&
              absoluteMinValuePrim <= value <= NormalizedToValueUnrounded(absoluteMinValuePrim, absoluteMaxValuePrim, normalizedMaxValue) ==>
                NormalizedToValueUnrounded(absoluteMinValuePrim, absoluteMaxValuePrim, normalizedMinValue) == value
    {
      var lo, hi := absoluteMinValuePrim, absoluteMaxValuePrim;
      if 0.0 == hi - lo {
        SetNormalizedMinValue(0.0);
      } else {
        ghost var s := CurrentSelection();
        var n := ValueToNormalized(lo, hi, value);
        if Ordered(s) && lo < hi && lo <= value <= NormalizedToValueUnrounded(lo, hi, s.max) {
          ValueToNormalizedMonotone(lo, hi, lo, value);
          ValueToNormalizedMonotone(lo, hi, value, NormalizedToValueUnrounded(lo, hi, s.max));
          ValueToNormalizedRoundTrip(lo, hi, s.max);
          assert 0.0 <= n <= s.max;
        }
        SetNormalizedMinValue(n);
      }
    }

    /**
      setSelectedMaxValue, given value.doubleValue(). On a range of zero width
      the max becomes 1. Otherwise a value between the selected minimum and
      the range maximum is kept exactly.
     */
    method SetSelectedMaxValue(value: real)
      modifies this`normalizedMaxValue
      ensures absoluteMaxValuePrim - absoluteMinValuePrim == 0.0 ==> normalizedMaxValue == 1.0
      ensures absoluteMaxValuePrim - absoluteMinValuePrim != 0.0 ==>
                CurrentSelection() == WithMax(old(CurrentSelection()),
                                              ValueToNormalized(absoluteMinValuePrim, absoluteMaxValuePrim, value))
      ensures old(Valid()) ==> Valid()
      ensures old(Valid()) && absoluteMinValuePrim < absoluteMaxValuePrim &&
              NormalizedToValueUnrounded(absoluteMinValuePrim, absoluteMaxValuePrim, normalizedMinValue) <= value <= absoluteMaxValuePrim ==>
                NormalizedToValueUnrounded(absoluteMinValuePrim, absoluteMaxValuePrim, normalizedMaxValue) == value
    {
      var lo, hi := absoluteMinValuePrim, absoluteMaxValuePrim;
      if 0.0 == hi - lo {
        SetNormalizedMaxValue(1.0);
      } else {
        ghost var s := CurrentSelection();
        var n := ValueToNormalized(lo, hi, value);
        if Ordered(s) && lo < hi && NormalizedToValueUnrounded(lo, hi, s.min) <= value <= hi {
          ValueToNormalizedMonotone(lo, hi, NormalizedToValueUnrounded(lo, hi, s.min), value);
          ValueToNormalizedMonotone(lo, hi, value, hi);
          ValueToNormalizedRoundTrip(lo, hi, s.min);
          ValueToNormalizedRoundTrip(lo, hi, 1.0);
          assert s.min <= n <= 1.0;
        }
        SetNormalizedMaxValue(n);
      }
    }

    /** resetSelectedValues: selects the whole range, whatever was selected before. */
    method ResetSelectedValues()
      modifies this`normalizedMinValue, this`normalizedMaxValue
      ensures CurrentSelection() == Selection(0.0, 1.0)
    {
      var lo, hi := absoluteMinValuePrim, absoluteMaxValuePrim;
      if hi - lo != 0.0 {
        ValueToNormalizedRoundTrip(lo, hi, 0.0);
        ValueToNormalizedRoundTrip(lo, hi, 1.0);
        assert NormalizedToValueUnrounded(lo, hi, 0.0) == lo;
        assert NormalizedToValueUnrounded(lo, hi, 1.0) == hi;
      }
      SetSelectedMinValue(lo);
      SetSelectedMaxValue(hi);
    }

    /** onStartTrackingTouch. */
    method OnStartTrackingTouch()
      modifies this`isDragging
      ensures isDragging
    {
      isDragging := true;
    }

    /** onStopTrackingTouch. */
    method OnStopTrackingTouch()
      modifies this`isDragging
      ensures !isDragging
    {
      isDragging := false;
    }

    /** trackTouchEvent, given the x-coordinate of the active pointer. */
    method TrackTouchEvent(x: real)
      modifies this`normalizedMinValue, this`normalizedMaxValue
      ensures CurrentSelection() == TrackSelection(CurrentConfig(), pressedThumb, old(CurrentSelection()), x)
      ensures old(Valid()) ==> Valid()
    {
      if pressedThumb == Some(Min) && !singleThumb {
        SetNormalizedMinValue(ScreenToNormalized(layout, x));
      } else if pressedThumb == Some(Max) {
        SetNormalizedMaxValue(ScreenToNormalized(layout, x));
      }
    }

    /** onSecondaryPointerUp, given the lifted pointer's index and every pointer's id and x. */
    method OnSecondaryPointerUp(index: nat, ids: seq<int>, xs: seq<real>)
      requires |ids| == |xs| && 2 <= |ids| && index < |ids|
      modifies this`downMotionX, this`activePointerId
      ensures CurrentTouch() == SecondaryPointerUp(old(CurrentTouch()), index, ids, xs)
    {
      var pointerId := ids[index];
      if pointerId == activePointerId {
        var newPointerIndex := if index == 0 then 1 else 0;
        downMotionX := xs[newPointerIndex];
        activePointerId := ids[newPointerIndex];
      }
    }

    /** listener.onRangeSeekBarValuesChanged(min, max, inUse), when a listener is registered. */
    ghost method NotifyListener(inUse: bool)
      modifies this`notifications
      ensures notifications == old(notifications) + Notify(CurrentConfig(), CurrentSelection(), inUse)
    {
      if hasListener {
        notifications := notifications + [Notification(normalizedMinValue, normalizedMaxValue, inUse)];
      }
    }

    /**
      onTouchEvent: ignored (false) when disabled or switched off; otherwise
      the case for the event's action runs and the event is consumed (true).
     */
    method OnTouchEvent(e: Event) returns (handled: bool)
      requires WellFormed(e)
      modifies this`normalizedMinValue, this`normalizedMaxValue, this`pressedThumb, this`isDragging,
               this`activePointerId, this`downMotionX, this`notifications
      ensures var r := Step(old(CurrentConfig()), old(State()), e);
              State() == r.state && handled == r.handled && notifications == old(notifications) + r.emitted
      ensures old(Valid()) ==> Valid()
    {
      if !enabled {
        return false;
      }
      if !onOff {
        return false;
      }
      match e {
        case Down(x, id) =>
          ActionDown(x, id);
        case Move(x) =>
          ActionMove(x);
        case Up(x) =>
          ActionUp(x);
        case PointerDown(x, id) =>
          downMotionX := x;
          activePointerId := id;
        case PointerUp(index, ids, xs) =>
          OnSecondaryPointerUp(index, ids, xs);
        case Cancel =>
          if isDragging {
            OnStopTrackingTouch();
          }
        case Other =>
      }
      return true;
    }

    /**
      The ACTION_DOWN case of onTouchEvent. It has no branch for a missed
      touch: the thumb evalPressedThumb returns is never null.
     */
    method ActionDown(x: real, id: int)
      modifies this`normalizedMinValue, this`normalizedMaxValue, this`pressedThumb, this`isDragging,
               this`activePointerId, this`downMotionX, this`notifications
      ensures var r := DownStep(old(CurrentConfig()), old(State()), x, id);
              State() == r.state && notifications == old(notifications) + r.emitted
    {
      activePointerId := id;
      downMotionX := x;
      pressedThumb := EvalPressedThumb(layout, downMotionX, normalizedMinValue, normalizedMaxValue);
      OnStartTrackingTouch();
      TrackTouchEvent(x);
      assert State() == DownStep(old(CurrentConfig()), old(State()), x, id).state;
      NotifyListener(true);
    }

    /** The ACTION_MOVE case of onTouchEvent, given the active pointer's x. */
    method ActionMove(x: real)
      modifies this`normalizedMinValue, this`normalizedMaxValue, this`isDragging, this`notifications
      ensures var r := MoveStep(old(CurrentConfig()), old(State()), x);
              State() == r.state && notifications == old(notifications) + r.emitted
    {
      if pressedThumb.Some? {
        if isDragging {
          TrackTouchEvent(x);
        } else if Abs(x - downMotionX) > touchSlop as real {
          OnStartTrackingTouch();
          TrackTouchEvent(x);
        }
        if notifyWhileDragging {
          NotifyListener(true);
        }
      }
    }

    /** The ACTION_UP case of onTouchEvent, given the active pointer's x. */
    method ActionUp(x: real)
      modifies this`normalizedMinValue, this`normalizedMaxValue, this`pressedThumb, this`isDragging,
               this`notifications
      ensures var r := UpStep(old(CurrentConfig()), old(State()), x);
              State() == r.state && notifications == old(notifications) + r.emitted
    {
      if isDragging {
        TrackTouchEvent(x);
        OnStopTrackingTouch();
      } else {
        // a touch that never crossed the slop is a tap-seek to x
        OnStartTrackingTouch();
        TrackTouchEvent(x);
        OnStopTrackingTouch();
      }
      pressedThumb := None;
      NotifyListener(false);
    }

    /** onSaveInstanceState: a bundle that restores to the current selection. */
    method OnSaveInstanceState() returns (b: Bundle)
      ensures b.Keys == {MinKey, MaxKey}
      ensures RestoreSelection(b) == CurrentSelection()
    {
      b := map[MinKey := normalizedMinValue, MaxKey := normalizedMaxValue];
      RestoreSaved(CurrentSelection());
    }

    /** onRestoreInstanceState: takes both positions from the bundle as they are. */
    method OnRestoreInstanceState(b: Bundle)
      modifies this`normalizedMinValue, this`normalizedMaxValue
      ensures CurrentSelection() == RestoreSelection(b)
    {
      normalizedMinValue := GetDouble(b, MinKey);
      normalizedMaxValue := GetDouble(b, MaxKey);
    }
  }

  /**
    A view recreated with the same configuration and given the saved state
    shows the same selection as the one it replaces.
   */
  method RecreationKeepsSelection(bar: CKSeekBar) returns (recreated: CKSeekBar)
    ensures fresh(recreated)
    ensures recreated.CurrentSelection() == bar.CurrentSelection()
    ensures bar.Valid() ==> recreated.Valid()
  {
    var saved := bar.OnSaveInstanceState();
    recreated := new CKSeekBar(bar.layout, bar.singleThumb, bar.touchSlop,
                               bar.absoluteMinValuePrim, bar.absoluteMaxValuePrim, bar.numberType);
    recreated.OnRestoreInstanceState(saved);
  }
}
