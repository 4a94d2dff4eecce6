/**
  Conversion between screen x-coordinates and normalized positions on the track.
  Java's float and double are modelled as exact reals.
 */
module Geometry {

  /** Math.min on doubles (no NaN). */
  function RealMin(a: real, b: real): real { if a <= b then a else b }

  /** Math.max on doubles (no NaN). */
  function RealMax(a: real, b: real): real { if a >= b then a else b }

  /** Math.abs on floats (no NaN). */
  function Abs(x: real): (r: real)
    ensures 0.0 <= r && (r == x || r == -x)
  {
    if x < 0.0 then -x else x
  }

  /** Math.min(1d, Math.max(0d, x)). */
  function Clamp01(x: real): (r: real)
    ensures 0.0 <= r <= 1.0
    ensures 0.0 <= x <= 1.0 ==> r == x
    ensures x < 0.0 ==> r == 0.0
    ensures 1.0 < x ==> r == 1.0
  {
    RealMin(1.0, RealMax(0.0, x))
  }

  /**
    The horizontal geometry the touch logic reads: the view width the host
    reports (getWidth(), an int), the padding on either side of the track
    (recomputed by every draw pass) and the hit radius around a thumb
    (the field thumbHalfWidth).
   */
  datatype Layout = Layout(width: int, padding: real, thumbHalfWidth: real)
  {
    /** Screen length of the track, width - 2 * padding. */
    function TrackWidth(): real { width as real - 2.0 * padding }

    /** Screen x-coordinate of the right end of the track. */
    function TrackEnd(): real { width as real - padding }

    /** The layout leaves no room for a track: screenToNormalized gives up. */
    predicate Degenerate() { width as real <= 2.0 * padding }
  }

  /** A number in [0, 1] times a positive length stays within that length. */
  lemma ScaleWithin(n: real, t: real)
    requires 0.0 <= n <= 1.0 && 0.0 < t
    ensures 0.0 <= n * t <= t
  {
    assert n * t <= 1.0 * t;
  }

  /** Dividing by a positive length preserves order. */
  lemma DivideMonotone(a: real, b: real, t: real)
    requires a <= b && 0.0 < t
    ensures a / t <= b / t
  {
    var qa, qb := a / t, b / t;
    assert (qb - qa) * t == b - a;
  }

  /** normalizedToScreen: position n of the track, measured from its left end. */
  function NormalizedToScreen(l: Layout, n: real): (x: real)
    ensures n == 0.0 ==> x == l.padding
    ensures n == 1.0 ==> x == l.TrackEnd()
    ensures !l.Degenerate() && 0.0 <= n <= 1.0 ==> l.padding <= x <= l.TrackEnd()
  {
    var t := l.TrackWidth();
    assert l.padding + t == l.TrackEnd();
    assert !l.Degenerate() && 0.0 <= n <= 1.0 ==> 0.0 <= n * t <= t by {
      if !l.Degenerate() && 0.0 <= n <= 1.0 {
        ScaleWithin(n, t);
      }
    }
    l.padding + n * t
  }

  /**
    screenToNormalized: the normalized position under screen coordinate x,
    clamped to [0, 1]; 0 when the layout leaves no room for a track.
   */
  function ScreenToNormalized(l: Layout, x: real): (n: real)
    ensures 0.0 <= n <= 1.0
    ensures l.Degenerate() ==> n == 0.0
    ensures !l.Degenerate() && x <= l.padding ==> n == 0.0
    ensures !l.Degenerate() && l.TrackEnd() <= x ==> n == 1.0
    ensures !l.Degenerate() && l.padding <= x <= l.TrackEnd() ==> NormalizedToScreen(l, n) == x
  {
    if l.width as real <= 2.0 * l.padding then
      0.0
    else
      OffsetQuotient(l, x);
      Clamp01((x - l.padding) / l.TrackWidth())
  }

  /** A part of a positive length divided by that length lies in [0, 1]. */
  lemma UnitQuotient(a: real, t: real)
    requires 0.0 <= a <= t && 0.0 < t
    ensures 0.0 <= a / t <= 1.0
  {
    DivideMonotone(0.0, a, t);
    DivideMonotone(a, t, t);
    assert t / t == 1.0;
  }

  /** Facts about the unclamped quotient computed by screenToNormalized. */
  lemma OffsetQuotient(l: Layout, x: real)
    requires !l.Degenerate()
    ensures (x - l.padding) / l.TrackWidth() * l.TrackWidth() == x - l.padding
    ensures x <= l.padding ==> (x - l.padding) / l.TrackWidth() <= 0.0
    ensures l.TrackEnd() <= x ==> 1.0 <= (x - l.padding) / l.TrackWidth()
    ensures l.padding <= x <= l.TrackEnd() ==>
              var q := (x - l.padding) / l.TrackWidth();
              0.0 <= q <= 1.0 && NormalizedToScreen(l, q) == x
  {
    var t := l.TrackWidth();
    var q := (x - l.padding) / t;
    assert q * t == x - l.padding;
    if x <= l.padding {
      DivideMonotone(x - l.padding, 0.0, t);
    }
    if l.TrackEnd() <= x {
      DivideMonotone(t, x - l.padding, t);
    }
    if l.padding <= x <= l.TrackEnd() {
      UnitQuotient(x - l.padding, t);
      assert NormalizedToScreen(l, q) == l.padding + q * t;
    }
  }

  /** Mapping a track position to the screen and back gives the position itself. */
  lemma ScreenRoundTrip(l: Layout, n: real)
    requires !l.Degenerate() && 0.0 <= n <= 1.0
    ensures ScreenToNormalized(l, NormalizedToScreen(l, n)) == n
  {
    var t := l.TrackWidth();
    var x := NormalizedToScreen(l, n);
    assert x - l.padding == n * t;
    assert (x - l.padding) / t == n;
  }

  /** normalizedToScreen preserves order on a non-degenerate layout. */
  lemma NormalizedToScreenMonotone(l: Layout, n1: real, n2: real)
    requires !l.Degenerate() && n1 <= n2
    ensures NormalizedToScreen(l, n1) <= NormalizedToScreen(l, n2)
  {
    var t := l.TrackWidth();
    assert 0.0 <= (n2 - n1) * t;
    assert NormalizedToScreen(l, n2) - NormalizedToScreen(l, n1) == (n2 - n1) * t;
  }

  /** screenToNormalized preserves order. */
  lemma ScreenToNormalizedMonotone(l: Layout, x1: real, x2: real)
    requires x1 <= x2
    ensures ScreenToNormalized(l, x1) <= ScreenToNormalized(l, x2)
  {
    if !l.Degenerate() {
      DivideMonotone(x1 - l.padding, x2 - l.padding, l.TrackWidth());
    }
  }

  /**
    A screen coordinate between the images of two track positions maps back
    between those positions.
   */
  lemma ScreenToNormalizedBetween(l: Layout, lo: real, hi: real, x: real)
    requires !l.Degenerate() && 0.0 <= lo <= hi <= 1.0
    requires NormalizedToScreen(l, lo) <= x <= NormalizedToScreen(l, hi)
    ensures lo <= ScreenToNormalized(l, x) <= hi
  {
    ScreenRoundTrip(l, lo);
    ScreenRoundTrip(l, hi);
    ScreenToNormalizedMonotone(l, NormalizedToScreen(l, lo), x);
    ScreenToNormalizedMonotone(l, x, NormalizedToScreen(l, hi));
  }
}
