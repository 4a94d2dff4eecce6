/**
  Deciding which thumb a touch at screen coordinate touchX grabs, given the
  normalized positions of the min and max thumbs.
 */
module HitTest {
  import opened Wrappers
  import opened Geometry

  /** The two thumbs of the slider. */
  datatype Thumb = Min | Max

  /** The thumb that is not t. */
  function Other(t: Thumb): Thumb
  {
    if t == Min then Max else Min
  }

  /** The normalized position of thumb t in the selection (nMin, nMax). */
  function Position(t: Thumb, nMin: real, nMax: real): real
  {
    if t == Min then nMin else nMax
  }

  /** Screen distance between a touch and the thumb drawn at normalized position n. */
  function Distance(l: Layout, touchX: real, n: real): real
  {
    Abs(touchX - NormalizedToScreen(l, n))
  }

  /** isInThumbRange: the touch lies within the hit radius of the thumb at n. */
  predicate IsInThumbRange(l: Layout, touchX: real, n: real): (b: bool)
    ensures b <==> NormalizedToScreen(l, n) - l.thumbHalfWidth <= touchX <= NormalizedToScreen(l, n) + l.thumbHalfWidth
  {
    Distance(l, touchX, n) <= l.thumbHalfWidth
  }

  /**
    The comparison touchX / getWidth() > 0.5f, carried out in float arithmetic:
    when the width is 0 the quotient is +Infinity for a positive touchX,
    -Infinity for a negative one and NaN (which compares false) for 0.
   */
  predicate InRightHalf(width: int, touchX: real): (b: bool)
    ensures width == 0 ==> (b <==> 0.0 < touchX)
    ensures width > 0 ==> (b <==> width as real < 2.0 * touchX)
  {
    if width == 0 then
      0.0 < touchX
    else
      assert width > 0 ==> (touchX / width as real > 0.5 <==> width as real < 2.0 * touchX) by {
        if width > 0 {
          HalfQuotient(touchX, width as real);
        }
      }
      touchX / width as real > 0.5
  }

  /** A quotient by a positive width exceeds one half exactly when twice the dividend exceeds the width. */
  lemma HalfQuotient(a: real, w: real)
    requires 0.0 < w
    ensures a / w > 0.5 <==> w < 2.0 * a
  {
    var q := a / w;
    assert q * w == a;
    assert (q - 0.5) * w == a - 0.5 * w;
  }

  /**
    evalAvePressdThumb: the thumb nearer to the touch. When both are equally
    far, the code compares touchX with that common distance (not with a
    thumb position): MIN when touchX is smaller, MAX otherwise.
   */
  function NearestThumb(l: Layout, touchX: real, nMin: real, nMax: real): (t: Thumb)
    ensures Distance(l, touchX, Position(t, nMin, nMax)) <= Distance(l, touchX, Position(Other(t), nMin, nMax))
    ensures Distance(l, touchX, nMin) == Distance(l, touchX, nMax) ==>
              (t == Min <==> touchX < Distance(l, touchX, nMax))
  {
    var dMin := Abs(touchX - NormalizedToScreen(l, nMin));
    var dMax := Abs(touchX - NormalizedToScreen(l, nMax));
    if dMin == dMax then
      (if touchX < dMax then Min else Max)
    else if dMin > dMax then Max else Min
  }

  /**
    evalPressedThumb: the thumb a touch at touchX grabs. Never null: a thumb
    within reach wins; when both are within reach the one with more room to
    drag wins (MIN in the right half of the view, MAX otherwise); when
    neither is, the nearer one wins.
   */
  function EvalPressedThumb(l: Layout, touchX: real, nMin: real, nMax: real): (r: Option<Thumb>)
    ensures r.Some?
  {
    var minThumbPressed := IsInThumbRange(l, touchX, nMin);
    var maxThumbPressed := IsInThumbRange(l, touchX, nMax);
    if minThumbPressed && maxThumbPressed then
      Some(if InRightHalf(l.width, touchX) then Min else Max)
    else if minThumbPressed then
      Some(Min)
    else if maxThumbPressed then
      Some(Max)
    else if !minThumbPressed && !maxThumbPressed then
      Some(NearestThumb(l, touchX, nMin, nMax))
    else
      None
  }

  /**
    The rules evalPressedThumb follows: a thumb within reach is preferred to
    one out of reach; of two thumbs within reach MIN is grabbed exactly when
    the touch is in the right half of the view; of two out of reach
    evalAvePressdThumb decides.
   */
  lemma PressedThumbRules(l: Layout, touchX: real, nMin: real, nMax: real)
    ensures var t := EvalPressedThumb(l, touchX, nMin, nMax).value;
            && (IsInThumbRange(l, touchX, nMin) || IsInThumbRange(l, touchX, nMax) ==>
                  IsInThumbRange(l, touchX, Position(t, nMin, nMax)))
            && (IsInThumbRange(l, touchX, nMin) && IsInThumbRange(l, touchX, nMax) ==>
                  (t == Min <==> InRightHalf(l.width, touchX)))
            && (!IsInThumbRange(l, touchX, nMin) && !IsInThumbRange(l, touchX, nMax) ==>
                  t == NearestThumb(l, touchX, nMin, nMax))
  {
  }

  /**
    Overlapping thumbs at screen x = 100 on a 300-wide view: a touch at 200
    (right half) grabs MIN, a touch at 50 (left half) grabs MAX.
   */
  lemma OverlappingThumbsExample()
    ensures var l := Layout(300, 0.0, 150.0);
            NormalizedToScreen(l, 1.0 / 3.0) == 100.0 &&
            EvalPressedThumb(l, 200.0, 1.0 / 3.0, 1.0 / 3.0) == Some(Min) &&
            EvalPressedThumb(l, 50.0, 1.0 / 3.0, 1.0 / 3.0) == Some(Max)
  {
  }

  /**
    Equal distances, neither thumb within reach: thumbs at screen x = 100 and
    x = 300 and a touch at 200. The common distance is 100 and 200 < 100 is
    false, so MAX is grabbed.
   */
  lemma EqualDistanceExample()
    ensures var l := Layout(300, 0.0, 10.0);
            NormalizedToScreen(l, 1.0 / 3.0) == 100.0 &&
            NormalizedToScreen(l, 1.0) == 300.0 &&
            EvalPressedThumb(l, 200.0, 1.0 / 3.0, 1.0) == Some(Max)
  {
  }
}
