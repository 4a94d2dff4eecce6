# CKSeekBar range slider: selection and gesture core in Dafny

CKSeekBar is an Android widget with two thumbs on one track. The user drags
the thumbs to pick a minimum and a maximum value from a numeric range. This
project models the widget's logic core and proves properties of it:

- the selected range, kept as two normalized positions `0 <= min <= max <= 1`
  by clamping setters;
- the conversion between values of the range, normalized positions and
  screen x-coordinates;
- hit-testing, which decides which thumb a touch grabs;
- the touch state machine driven by pointer events. It tracks the pressed
  thumb, the dragging flag, the active pointer and the down position, and it
  calls a listener;
- saving and restoring the selection across a view recreation.

Java `float` and `double` are modelled as exact `real`s.

Modules:

- `Geometry` (geometry.dfy): `normalizedToScreen` and `screenToNormalized` over a `Layout`. The layout holds the view width, the padding and the thumb hit radius.
- `HitTest` (hit_test.dfy): `isInThumbRange`, `evalPressedThumb` and `evalAvePressdThumb` (here `NearestThumb`).
- `RangeSelection` (selection.dfy): the selection, the two clamping setters as functions, `valueToNormalized` and the saved Bundle.
- `NumberTypes` (number_type.dfy): `NumberType.fromNumber` as the chain of `instanceof` tests from a value's class to a tag.
- `Gesture` (gesture.dfy): `onTouchEvent` as a pure function `Step` from one state to the next, `Run` over a sequence of events, and lemmas about whole gestures.
- `SeekBar` (seek_bar.dfy): the class `CKSeekBar`. It has the source's fields, and its methods update them in place. Each state-changing method is proved to match the functions above. The listener is a ghost log of `Notification(min, max, inUse)` records.

Behaviours of the code that the model keeps as written, although a reader
might expect otherwise:

- **Equal-distance tie.** When neither thumb is within reach and both are equally far from the touch, the code compares `touchX` with that common distance (CKSeekBar.java line 682), not with a thumb position. So the tie does not consistently go to one thumb. `HitTest.EqualDistanceExample` shows a touch midway between the thumbs that goes to MAX.
- **Dragging starts on DOWN.** A DOWN that grabs a thumb sets dragging at once (line 379). So there is no separate "pressed but not dragging" stage after a DOWN. The touch-slop branch of MOVE is only reached after a CANCEL, which clears dragging but keeps the pressed thumb.
- **UP always tracks once.** Every UP moves the pressed thumb to the touch position, whether or not a drag happened (lines 411-422).
- **Failed range setting leaves partial state.** `setRangeValues` stores both bounds before `fromNumber` throws, so an unsupported number class leaves those changes behind.
- **Restore does not clamp.** The positions are read back from the bundle as they are. A bundle without the keys gives `0.0` for each.

## Model

| member | source | states |
|---|---|---|
| `Geometry.NormalizedToScreen` | app/src/main/java/ck/ckseekbar/CKSeekBar.java:757-759 | position 0 maps to the left end of the track (the padding) and position 1 to the right end; on a non-degenerate layout every position in [0,1] lands on the track |
| `Geometry.ScreenToNormalized` | app/src/main/java/ck/ckseekbar/CKSeekBar.java:767-776 | the result is always in [0,1]; it is exactly 0 when `width <= 2*padding`; left of the track it is 0, right of it 1; for an x on the track, the result maps back to x |
| `Geometry.ScreenRoundTrip` | app/src/main/java/ck/ckseekbar/CKSeekBar.java:757-776 | with `width > 2*padding` and n in [0,1], `screenToNormalized(normalizedToScreen(n)) == n` |
| `Geometry.ScreenToNormalizedMonotone` | app/src/main/java/ck/ckseekbar/CKSeekBar.java:767-776 | screenToNormalized preserves the order of screen coordinates |
| `Geometry.NormalizedToScreenMonotone` | app/src/main/java/ck/ckseekbar/CKSeekBar.java:757-759 | normalizedToScreen preserves the order of positions on a non-degenerate layout |
| `Geometry.ScreenToNormalizedBetween` | app/src/main/java/ck/ckseekbar/CKSeekBar.java:757-776 | a screen x between the images of two positions maps to a position between them |
| `HitTest.IsInThumbRange` | app/src/main/java/ck/ckseekbar/CKSeekBar.java:700-702 | holds exactly when the touch lies in the closed interval of radius `thumbHalfWidth` around the thumb's screen position |
| `HitTest.InRightHalf` | app/src/main/java/ck/ckseekbar/CKSeekBar.java:666 | on a view of width 0 (float division gives an infinity or NaN) it holds exactly for a positive touch; on a positive width it holds exactly when the touch is right of the view's middle |
| `HitTest.NearestThumb` | app/src/main/java/ck/ckseekbar/CKSeekBar.java:677-691 | the chosen thumb is no farther from the touch than the other; on equal distances MIN is chosen iff `touchX` is less than the distance (the line-682 rule as written) |
| `HitTest.EvalPressedThumb` | app/src/main/java/ck/ckseekbar/CKSeekBar.java:660-675 | never null, so the miss branch of DOWN is dead |
| `HitTest.PressedThumbRules` | app/src/main/java/ck/ckseekbar/CKSeekBar.java:660-675 | if any thumb is within `thumbHalfWidth` the chosen one is (so exactly one in range wins); if both are, MIN iff `touchX / width > 0.5` (with float semantics for width 0); if neither, the choice is evalAvePressdThumb's (`NearestThumb`), equal-distance rule included |
| `HitTest.OverlappingThumbsExample` | app/src/main/java/ck/ckseekbar/CKSeekBar.java:664-666 | overlapping thumbs at x=100 on a 300-wide view: a touch at 200 grabs MIN, a touch at 50 grabs MAX |
| `HitTest.EqualDistanceExample` | app/src/main/java/ck/ckseekbar/CKSeekBar.java:681-686 | thumbs at 100 and 300, touch at 200, neither in reach: MAX is grabbed |
| `RangeSelection.WithMin` | app/src/main/java/ck/ckseekbar/CKSeekBar.java:709-712 | the max is unchanged; the new min is in [0,1]; `0 <= min <= max <= 1` is preserved; on an ordered selection the min becomes exactly v iff `0 <= v <= max`, becomes max when v is above it, and becomes 0 when v <= 0 |
| `RangeSelection.WithMax` | app/src/main/java/ck/ckseekbar/CKSeekBar.java:719-722 | the min is unchanged; the new max is in [0,1]; the ordering is preserved; on an ordered selection the max becomes exactly v iff `min <= v <= 1`, becomes min when v is below it, and becomes 1 when v >= 1 |
| `RangeSelection.NormalizedToValueUnrounded` | app/src/main/java/ck/ckseekbar/CKSeekBar.java:732 | position 0 gives the range minimum and position 1 the maximum; a position in [0,1] gives a value inside the range |
| `RangeSelection.ValueToNormalized` | app/src/main/java/ck/ckseekbar/CKSeekBar.java:743-749 | 0 on a zero-width range; otherwise the unrounded normalizedToValue of the result is the value itself; a value inside a range of positive width normalizes into [0,1] |
| `RangeSelection.ValueToNormalizedRoundTrip` | app/src/main/java/ck/ckseekbar/CKSeekBar.java:731-749 | normalizing the unrounded value at position n gives n back |
| `RangeSelection.ValueToNormalizedMonotone` | app/src/main/java/ck/ckseekbar/CKSeekBar.java:743-749 | valueToNormalized preserves order on a range of positive width |
| `RangeSelection.SaveSelection` | app/src/main/java/ck/ckseekbar/CKSeekBar.java:610-616 | the saved bundle holds exactly the keys "MIN" and "MAX" |
| `RangeSelection.RestoreSelection` | app/src/main/java/ck/ckseekbar/CKSeekBar.java:622-627 | restoring the bundle saved from a selection gives that selection back; a missing key gives 0.0 for its position |
| `RangeSelection.RestoreSaved` | app/src/main/java/ck/ckseekbar/CKSeekBar.java:610-627 | restoring a saved bundle gives back exactly the saved pair |
| `RangeSelection.RestoreEmpty` | app/src/main/java/ck/ckseekbar/CKSeekBar.java:622-627 | a bundle without the keys restores to (0, 0), because getDouble defaults to 0 |
| `NumberTypes.FromNumber` | app/src/main/java/ck/ckseekbar/CKSeekBar.java:804-827 | succeeds iff the value is an instance of one of the seven supported classes (a subclass of BigDecimal included); the tag returned is the one type the value is an instance of; any other class fails with the "is not supported" message naming it |
| `NumberTypes.FromNumberOfClass` | app/src/main/java/ck/ckseekbar/CKSeekBar.java:801-827 | every tag is recovered from its own class |
| `NumberTypes.FromNumberOfBigDecimalSubclass` | app/src/main/java/ck/ckseekbar/CKSeekBar.java:823-825 | a value of a subclass of BigDecimal is tagged BIG_DECIMAL |
| `Gesture.TrackSelection` | app/src/main/java/ck/ckseekbar/CKSeekBar.java:467-476 | nothing moves when no thumb is pressed; the min never moves on a single-thumb slider; only the pressed thumb's position changes; ordering is preserved |
| `Gesture.TrackFollowsFinger` | app/src/main/java/ck/ckseekbar/CKSeekBar.java:467-476 | on a non-degenerate layout, the tracked thumb lands exactly under the finger when the finger is within the span that thumb may occupy: [track start, max] for MIN on a two-thumb slider, [min, track end] for MAX |
| `Gesture.TrackClampsBeyondSpan` | app/src/main/java/ck/ckseekbar/CKSeekBar.java:467-476 | outside its span the tracked thumb is clamped: MIN stops at 0 left of the track and at MAX past MAX; MAX stops at MIN left of MIN and at 1 right of the track |
| `Gesture.SecondaryPointerUp` | app/src/main/java/ck/ckseekbar/CKSeekBar.java:453-465 | the pressed thumb and dragging flag are unchanged; lifting a non-active pointer changes nothing; lifting the active one rebinds tracking to another pointer, with that pointer's x as the down position |
| `Gesture.DownStep` | app/src/main/java/ck/ckseekbar/CKSeekBar.java:364-386 | a thumb is always grabbed; dragging starts; the active pointer and down position are the DOWN's; only the grabbed thumb moves; ordering is preserved; with a listener exactly one inUse=true report of the new selection, without one none |
| `Gesture.MoveStep` | app/src/main/java/ck/ckseekbar/CKSeekBar.java:387-410 | the pressed thumb, active pointer and down position are unchanged; during a drag the gesture fields stay as they are and the pressed thumb is tracked to x; with no thumb pressed nothing changes and nothing is reported; ordering is preserved; with a thumb pressed, notifyWhileDragging and a listener there is exactly one inUse=true report of the new selection, otherwise none |
| `Gesture.UpStep` | app/src/main/java/ck/ckseekbar/CKSeekBar.java:411-429 | the thumb is released and dragging stops; the active pointer and down position are unchanged; ordering is preserved; with a listener exactly one inUse=false report of the new selection, without one none |
| `Gesture.Step` | app/src/main/java/ck/ckseekbar/CKSeekBar.java:349-451 | when disabled or switched off: returns false, changes nothing and notifies nobody; otherwise returns true; preserves `0 <= min <= max <= 1`; without a listener nothing is reported; every report carries the selection after the event |
| `Gesture.DownGrabsThumb` | app/src/main/java/ck/ckseekbar/CKSeekBar.java:364-386 | DOWN records the pointer and x, grabs the thumb evalPressedThumb picks (never none), sets dragging at once, moves that thumb, and reports inUse=true |
| `Gesture.MoveRespectsSlop` | app/src/main/java/ck/ckseekbar/CKSeekBar.java:387-410 | with a thumb pressed and no drag in progress, a MOVE within the touch slop changes nothing; beyond it, dragging starts and the thumb follows |
| `Gesture.MoveFollowsDrag` | app/src/main/java/ck/ckseekbar/CKSeekBar.java:387-410 | a MOVE during a drag tracks the pressed thumb to x, keeps the gesture fields, and reports inUse=true exactly when notifyWhileDragging is set and a listener is registered |
| `Gesture.UpReleasesThumb` | app/src/main/java/ck/ckseekbar/CKSeekBar.java:411-429 | after UP no thumb is pressed and no drag is in progress; the selection is tracked once; the report has inUse=false |
| `Gesture.CancelKeepsThumb` | app/src/main/java/ck/ckseekbar/CKSeekBar.java:442-448 | CANCEL clears dragging and changes nothing else: the pressed thumb, the active pointer, the down position and the selection are kept, and nothing is reported |
| `Gesture.PointerEventsKeepSelection` | app/src/main/java/ck/ckseekbar/CKSeekBar.java:430-441 | POINTER_DOWN, POINTER_UP and an action without a case are handled, report nothing, and keep the selection, the pressed thumb and dragging; POINTER_DOWN makes the new pointer the active one at its x; POINTER_UP rebinds as onSecondaryPointerUp does; any other action changes nothing |
| `Gesture.RunKeepsOrdered` | app/src/main/java/ck/ckseekbar/CKSeekBar.java:704-722 | no sequence of touch events breaks `0 <= min <= max <= 1` |
| `Gesture.DisabledRunIsInert` | app/src/main/java/ck/ckseekbar/CKSeekBar.java:351-357 | a disabled or switched-off slider ignores every sequence of events |
| `Gesture.RunAppend` | app/src/main/java/ck/ckseekbar/CKSeekBar.java:349-451 | handling a + b is handling a, then b from the state a left, with the reports of both in order |
| `Gesture.GestureEndsReleased` | app/src/main/java/ck/ckseekbar/CKSeekBar.java:411-429 | whatever came before, a sequence ending in UP leaves no thumb pressed and no drag in progress; with a listener, the last report is inUse=false and carries the final selection |
| `Gesture.TapSeek` | app/src/main/java/ck/ckseekbar/CKSeekBar.java:364-429 | on a two-thumb slider, DOWN then UP at the same x between the thumbs moves the grabbed thumb exactly under x and leaves the other alone; it reports inUse=true, then inUse=false |
| `Gesture.DragMaxThumb` | app/src/main/java/ck/ckseekbar/CKSeekBar.java:364-429 | DOWN on MAX, MOVE and UP at x1 right of MIN: MAX ends under x1 and MIN does not move; with a listener there are two reports (three with notifyWhileDragging), the first with inUse=true and the last with inUse=false |
| `SeekBar.CKSeekBar.constructor` | app/src/main/java/ck/ckseekbar/CKSeekBar.java:63-126 | full range selected (0, 1); no thumb pressed; not dragging; active pointer INVALID_POINTER_ID (255); enabled and on; no listener |
| `SeekBar.CKSeekBar.SetOnOff` | app/src/main/java/ck/ckseekbar/CKSeekBar.java:76-79 | sets the on/off flag that gates touch handling |
| `SeekBar.CKSeekBar.SetNotifyWhileDragging` | app/src/main/java/ck/ckseekbar/CKSeekBar.java:268-270 | sets whether MOVE reports to the listener |
| `SeekBar.CKSeekBar.SetListener` | app/src/main/java/ck/ckseekbar/CKSeekBar.java:341-343 | registers a listener or removes it |
| `SeekBar.CKSeekBar.SetRangeValues` | app/src/main/java/ck/ckseekbar/CKSeekBar.java:234-252 | both bounds are stored as doubles; the tag is set from the minimum's class when it is an instance of a supported class; otherwise the call fails and the old tag remains |
| `SeekBar.CKSeekBar.SetRangeToDefaultValues` | app/src/main/java/ck/ckseekbar/CKSeekBar.java:242-246 | the range becomes DEFAULT_MINIMUM (0) to DEFAULT_MAXIMUM (100), both Integers, so the numeric type becomes Integer |
| `SeekBar.CKSeekBar.SetNormalizedMinValue` | app/src/main/java/ck/ckseekbar/CKSeekBar.java:709-712 | the new selection is `WithMin` of the old one; the invariant is preserved |
| `SeekBar.CKSeekBar.SetNormalizedMaxValue` | app/src/main/java/ck/ckseekbar/CKSeekBar.java:719-722 | the new selection is `WithMax` of the old one; the invariant is preserved |
| `SeekBar.CKSeekBar.SetSelectedMinValue` | app/src/main/java/ck/ckseekbar/CKSeekBar.java:304-311 | on a zero-width range the min becomes 0; otherwise the min is clamped from valueToNormalized; the invariant is preserved; a value between the range minimum and the selected maximum is kept exactly |
| `SeekBar.CKSeekBar.SetSelectedMaxValue` | app/src/main/java/ck/ckseekbar/CKSeekBar.java:327-334 | on a zero-width range the max becomes 1; otherwise the max is clamped from valueToNormalized; the invariant is preserved; a value between the selected minimum and the range maximum is kept exactly |
| `SeekBar.CKSeekBar.ResetSelectedValues` | app/src/main/java/ck/ckseekbar/CKSeekBar.java:254-257 | the selection becomes (0, 1) whatever it was, zero-width range included |
| `SeekBar.CKSeekBar.OnStartTrackingTouch` | app/src/main/java/ck/ckseekbar/CKSeekBar.java:490-492 | dragging becomes true |
| `SeekBar.CKSeekBar.OnStopTrackingTouch` | app/src/main/java/ck/ckseekbar/CKSeekBar.java:497-499 | dragging becomes false |
| `SeekBar.CKSeekBar.TrackTouchEvent` | app/src/main/java/ck/ckseekbar/CKSeekBar.java:467-476 | the new selection is `TrackSelection` of the old one for the pressed thumb; the invariant is preserved |
| `SeekBar.CKSeekBar.OnSecondaryPointerUp` | app/src/main/java/ck/ckseekbar/CKSeekBar.java:453-465 | the new gesture fields are `SecondaryPointerUp` of the old ones |
| `SeekBar.CKSeekBar.NotifyListener` | app/src/main/java/ck/ckseekbar/CKSeekBar.java:426-428 | with a listener registered, appends one report of the current selection with the given inUse flag |
| `SeekBar.CKSeekBar.OnTouchEvent` | app/src/main/java/ck/ckseekbar/CKSeekBar.java:349-451 | the new selection and gesture fields, the return value and the reports are those of `Step`; the invariant is preserved |
| `SeekBar.CKSeekBar.ActionDown` | app/src/main/java/ck/ckseekbar/CKSeekBar.java:364-386 | the new selection, gesture fields and reports are those of `DownStep`: grab the thumb evalPressedThumb picks, start dragging, track x, report inUse=true |
| `SeekBar.CKSeekBar.ActionMove` | app/src/main/java/ck/ckseekbar/CKSeekBar.java:387-410 | the new selection, dragging flag and reports are those of `MoveStep`: follow x while dragging or once past the touch slop, report only with notifyWhileDragging |
| `SeekBar.CKSeekBar.ActionUp` | app/src/main/java/ck/ckseekbar/CKSeekBar.java:411-429 | the new selection, gesture fields and reports are those of `UpStep`: track x once, release the thumb, stop dragging, report inUse=false |
| `SeekBar.CKSeekBar.OnSaveInstanceState` | app/src/main/java/ck/ckseekbar/CKSeekBar.java:610-616 | the bundle has the keys "MIN" and "MAX" and restores to the current selection |
| `SeekBar.CKSeekBar.OnRestoreInstanceState` | app/src/main/java/ck/ckseekbar/CKSeekBar.java:622-627 | the selection becomes the bundle's pair, unclamped |
| `SeekBar.RecreationKeepsSelection` | app/src/main/java/ck/ckseekbar/CKSeekBar.java:606-627 | a view recreated from the saved state shows the same selection as the one it replaces |

## Left out

- Drawing: `onDraw`, `drawThumb`, the paints, rectangles and percentage labels, and `selectedValuesAreDefault` (forced to false at line 548). These are rendering through the host framework.
- Padding recomputation. `onDraw` recomputes the padding from label widths (line 537), and the host supplies the view width. The model takes both as the `layout` field and never changes it.
- Framework plumbing: `onMeasure`, `init`, `extractNumericValueFromAttributes`, `setOnOff` with drawables, bitmap resizing, `PixelUtil`, and resource and colour lookups. These are framework or foreign calls. The constructor takes the configuration they would produce.
- `normalizedToValue`, `getSelectedMinValue` and `getSelectedMaxValue` are not modelled. They round to two decimals, then narrow the value to the range's Java type (`NumberType.toNumber`). Both steps are floating-point specific. Reports therefore carry the normalized positions the listener's values are computed from. Only the unrounded formula of line 732 is modelled (`NormalizedToValueUnrounded`).
- Floating-point effects: rounding, the float casts in `normalizedToScreen`, NaN and infinities. The one exception is the division by a zero width in the overlap tie-break, which is modelled.
- `MotionEvent` bookkeeping (`findPointerIndex`, action masks). Each event carries the x and id of the pointer the code reads. A MOVE or UP whose active pointer is missing from the event (an exception in the host) is not modelled.
- `setPressed`, `invalidate` and `attemptClaimDrag`: redraw and parent-intercept requests are ignored.
- The `super.onTouchEvent` fallback for a DOWN that grabs no thumb (lines 373-375). It is unreachable, because `EvalPressedThumb` is proved never to return none.
- `isEnabled()` comes from the host view. It is the `enabled` field, set by `SetEnabled`.
- The host's own saved state (the "SUPER" entry of the bundle).
- `synchronized` on draw and measure: there is no concurrency in the model.
- The listener's own side effects: the listener is a ghost log of reports.
