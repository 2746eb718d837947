/**
 * The score-to-percentile transform of the Stuff+ handler:
 * `Math.round(50 * (1 + Math.tanh((s - 100) / 14)) * 10) / 10`.
 */
module Percentiles {
  import opened Js

  /** `Math.round(x)`: the nearest integer, with halves rounded up. */
  function Round(x: real): int {
    (x + 0.5).Floor
  }

  /** `Math.round(x * 10) / 10`: a whole number of tenths, within half a tenth of `x`. */
  function RoundToTenth(x: real): (r: real)
    ensures x - 0.05 < r <= x + 0.05
    ensures (r * 10.0).Floor as real == r * 10.0
  {
    Round(x * 10.0) as real / 10.0
  }

  /** Rounding to a tenth never reverses the order of two values. */
  lemma RoundToTenthMonotone(x: real, y: real)
    requires x <= y
    ensures RoundToTenth(x) <= RoundToTenth(y)
  {
    var a, b := x * 10.0 + 0.5, y * 10.0 + 0.5;
    assert a <= b;
    assert a.Floor as real <= a <= b < b.Floor as real + 1.0;
  }

  /** `Math.tanh((s - 100) / 14)`. */
  function Spread(h: Host, s: Number): real
    requires !s.NaN?
  {
    match s
    case Finite(x) => h.tanh((x - 100.0) / 14.0)
    case PosInf => 1.0
    case NegInf => -1.0
  }

  /** `50 * (1 + Math.tanh((s - 100) / 14))`, before rounding. */
  function Unrounded(h: Host, s: Number): real
    requires !s.NaN?
  {
    50.0 * (1.0 + Spread(h, s))
  }

  /** The percentile the handler reports for the score `s`: the transform of `s` to the
      nearest tenth, a halfway value going up. */
  function Percentile(h: Host, s: Number): (p: real)
    requires !s.NaN?
    ensures Unrounded(h, s) - 0.05 < p <= Unrounded(h, s) + 0.05
    ensures (p * 10.0).Floor as real == p * 10.0
  {
    RoundToTenth(Unrounded(h, s))
  }

  /** The numeric order on numbers other than NaN. */
  predicate Below(a: Number, b: Number)
    requires !a.NaN? && !b.NaN?
  {
    match (a, b)
    case (Finite(x), Finite(y)) => x < y
    case (NegInf, _) => !b.NegInf?
    case (_, PosInf) => !a.PosInf?
    case _ => false
  }

  /** `Spread` agrees with the host's tanh applied to the number arithmetic of the source. */
  lemma SpreadIsTanhOfShiftedScore(h: Host, s: Number)
    requires !s.NaN?
    ensures Tanh(h, Divide(Subtract(s, 100.0), 14.0)) == Finite(Spread(h, s))
  {
  }

  /** A finite score lands strictly inside (0, 100); the infinities land on the ends. */
  lemma UnroundedBounds(h: Host, s: Number)
    requires TanhLaws(h.tanh)
    requires !s.NaN?
    ensures 0.0 <= Unrounded(h, s) <= 100.0
    ensures s.Finite? ==> 0.0 < Unrounded(h, s) < 100.0
    ensures s == PosInf ==> Unrounded(h, s) == 100.0
    ensures s == NegInf ==> Unrounded(h, s) == 0.0
  {
    if s.Finite? {
      var t := h.tanh((s.value - 100.0) / 14.0);
      assert -1.0 < t < 1.0;
    }
  }

  /** The unrounded percentile strictly increases with the score. */
  lemma UnroundedIncreasing(h: Host, a: Number, b: Number)
    requires TanhLaws(h.tanh)
    requires !a.NaN? && !b.NaN? && Below(a, b)
    ensures Unrounded(h, a) < Unrounded(h, b)
  {
    if a.Finite? && b.Finite? {
      assert (a.value - 100.0) / 14.0 < (b.value - 100.0) / 14.0;
    } else if a.Finite? {
      UnroundedBounds(h, a);
    } else if b.Finite? {
      UnroundedBounds(h, b);
    }
  }

  /** Scores equally far above and below the league average 100 split 100 between them. */
  lemma UnroundedSymmetric(h: Host, d: real)
    requires TanhLaws(h.tanh)
    ensures Unrounded(h, Finite(100.0 + d)) + Unrounded(h, Finite(100.0 - d)) == 100.0
  {
    assert (100.0 - d - 100.0) / 14.0 == -((100.0 + d - 100.0) / 14.0);
  }

  /** The league average is reported as exactly the 50th percentile. */
  lemma PercentileAtAverage(h: Host)
    requires TanhLaws(h.tanh)
    ensures Percentile(h, Finite(100.0)) == 50.0
  {
    assert (100.0 - 100.0) / 14.0 == 0.0;
    assert Unrounded(h, Finite(100.0)) == 50.0;
    assert (500.0 + 0.5).Floor == 500;
  }

  /** The reported percentile always lies in [0, 100]. */
  lemma PercentileBounds(h: Host, s: Number)
    requires TanhLaws(h.tanh)
    requires !s.NaN?
    ensures 0.0 <= Percentile(h, s) <= 100.0
  {
    UnroundedBounds(h, s);
    RoundToTenthMonotone(0.0, Unrounded(h, s));
    RoundToTenthMonotone(Unrounded(h, s), 100.0);
    assert (0.0 * 10.0 + 0.5).Floor == 0;
    assert (100.0 * 10.0 + 0.5).Floor == 1000;
  }

  /** The reported percentile never decreases as the score grows. */
  lemma PercentileMonotone(h: Host, a: Number, b: Number)
    requires TanhLaws(h.tanh)
    requires !a.NaN? && !b.NaN?
    requires a == b || Below(a, b)
    ensures Percentile(h, a) <= Percentile(h, b)
  {
    if a != b {
      UnroundedIncreasing(h, a, b);
      RoundToTenthMonotone(Unrounded(h, a), Unrounded(h, b));
    }
  }

  /** A score of 114 puts exactly 1 into tanh; with tanh(1) = 0.76159... that is the 88.1st percentile. */
  lemma PercentileAt114(h: Host)
    requires 0.7615 < h.tanh(1.0) < 0.7616
    ensures Percentile(h, Finite(114.0)) == 88.1
  {
    assert (114.0 - 100.0) / 14.0 == 1.0;
    var u := Unrounded(h, Finite(114.0));
    assert 880.75 < u * 10.0 < 880.8;
    assert (u * 10.0 + 0.5).Floor == 881;
  }
}
