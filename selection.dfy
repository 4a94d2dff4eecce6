/**
  The selected range as a pair of normalized positions, the clamping setters
  that keep it ordered, the conversion from the value space, and the saved
  instance state.
 */
module RangeSelection {
  import opened Geometry

  /** normalizedMinValue and normalizedMaxValue. */
  datatype Selection = Selection(min: real, max: real)

  /** The invariant the setters maintain: 0 <= min <= max <= 1. */
  predicate Ordered(s: Selection)
  {
    0.0 <= s.min <= s.max <= 1.0
  }

  /**
    setNormalizedMinValue: the new min is v pulled into [0, max] (and into
    [0, 1]); the max is left alone.
   */
  function WithMin(s: Selection, v: real): (r: Selection)
    ensures r.max == s.max
    ensures 0.0 <= r.min <= 1.0
    ensures Ordered(s) ==> Ordered(r)
    ensures Ordered(s) ==> (r.min == v <==> 0.0 <= v <= s.max)
    ensures Ordered(s) && s.max < v ==> r.min == s.max
    ensures v <= 0.0 ==> r.min == 0.0
  {
    s.(min := RealMax(0.0, RealMin(1.0, RealMin(v, s.max))))
  }

  /**
    setNormalizedMaxValue: the new max is v pulled into [min, 1] (and into
    [0, 1]); the min is left alone.
   */
  function WithMax(s: Selection, v: real): (r: Selection)
    ensures r.min == s.min
    ensures 0.0 <= r.max <= 1.0
    ensures Ordered(s) ==> Ordered(r)
    ensures Ordered(s) ==> (r.max == v <==> s.min <= v <= 1.0)
    ensures Ordered(s) && v < s.min ==> r.max == s.min
    ensures 1.0 <= v ==> r.max == 1.0
  {
    s.(max := RealMax(0.0, RealMin(1.0, RealMax(v, s.min))))
  }

  /** The width of the value range [absMin, absMax]. */
  function RangeWidth(absMin: real, absMax: real): real
  {
    absMax - absMin
  }

  /**
    The unrounded part of normalizedToValue: the value at normalized
    position n of the range [absMin, absMax].
   */
  function NormalizedToValueUnrounded(absMin: real, absMax: real, n: real): (v: real)
    ensures n == 0.0 ==> v == absMin
    ensures n == 1.0 ==> v == absMax
    ensures absMin <= absMax && 0.0 <= n <= 1.0 ==> absMin <= v <= absMax
  {
    var w := RangeWidth(absMin, absMax);
    assert absMin <= absMax && 0.0 <= n <= 1.0 ==> 0.0 <= n * w <= w by {
      if absMin < absMax && 0.0 <= n <= 1.0 {
        ScaleWithin(n, w);
      }
    }
    absMin + n * w
  }

  /**
    valueToNormalized: where value lies in the range [absMin, absMax] as a
    fraction of its width; 0 when the range has no width. It inverts the
    unrounded normalizedToValue and does not clamp.
   */
  function ValueToNormalized(absMin: real, absMax: real, value: real): (n: real)
    ensures absMax - absMin == 0.0 ==> n == 0.0
    ensures absMax - absMin != 0.0 ==> NormalizedToValueUnrounded(absMin, absMax, n) == value
    ensures absMin < absMax && absMin <= value <= absMax ==> 0.0 <= n <= 1.0
  {
    if 0.0 == absMax - absMin then
      0.0
    else
      var w := RangeWidth(absMin, absMax);
      var n := (value - absMin) / w;
      assert n * w == value - absMin;
      assert absMin < absMax && absMin <= value <= absMax ==> 0.0 <= n <= 1.0 by {
        if absMin < absMax && absMin <= value <= absMax {
          UnitQuotient(value - absMin, w);
        }
      }
      n
  }

  /** Normalizing a value of the range and mapping it back gives the same normalized position. */
  lemma ValueToNormalizedRoundTrip(absMin: real, absMax: real, n: real)
    requires absMin != absMax
    ensures ValueToNormalized(absMin, absMax, NormalizedToValueUnrounded(absMin, absMax, n)) == n
  {
    var w := RangeWidth(absMin, absMax);
    assert NormalizedToValueUnrounded(absMin, absMax, n) - absMin == n * w;
  }

  /** valueToNormalized preserves order on a range of positive width. */
  lemma ValueToNormalizedMonotone(absMin: real, absMax: real, v1: real, v2: real)
    requires absMin < absMax && v1 <= v2
    ensures ValueToNormalized(absMin, absMax, v1) <= ValueToNormalized(absMin, absMax, v2)
  {
    DivideMonotone(v1 - absMin, v2 - absMin, RangeWidth(absMin, absMax));
  }

  /** The instance state saved across view recreation: a Bundle of doubles by key. */
  type Bundle = map<string, real>

  const MinKey: string := "MIN"
  const MaxKey: string := "MAX"

  /** Bundle.getDouble: the value stored under key, 0.0 when there is none. */
  function GetDouble(b: Bundle, key: string): real
  {
    if key in b then b[key] else 0.0
  }

  /** onSaveInstanceState: the two normalized positions under "MIN" and "MAX". */
  function SaveSelection(s: Selection): (b: Bundle)
    ensures b.Keys == {MinKey, MaxKey}
  {
    map[MinKey := s.min, MaxKey := s.max]
  }

  /** onRestoreInstanceState: read both positions back, without clamping. */
  function RestoreSelection(b: Bundle): (s: Selection)
    ensures forall t :: b == SaveSelection(t) ==> s == t
    ensures MinKey !in b ==> s.min == 0.0
    ensures MaxKey !in b ==> s.max == 0.0
  {
    assert MinKey != MaxKey;
    Selection(GetDouble(b, MinKey), GetDouble(b, MaxKey))
  }

  /** Restoring what was saved gives the same selection, whatever it was. */
  lemma RestoreSaved(s: Selection)
    ensures RestoreSelection(SaveSelection(s)) == s
  {
    assert MinKey != MaxKey;
  }

  /** A bundle without the keys restores to the selection (0, 0). */
  lemma RestoreEmpty()
    ensures RestoreSelection(map[]) == Selection(0.0, 0.0)
  {
  }
}
