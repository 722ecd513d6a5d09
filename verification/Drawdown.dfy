/** The running-peak drawdown loops of backend/api/performance.py, values as exact reals. */
module Drawdown {
  import opened Rounding

  /** The largest positive value so far, or 0. */
  function Peak(values: seq<real>): (p: real)
    ensures p >= 0.0
    ensures forall i :: 0 <= i < |values| ==> values[i] <= p
    ensures p > 0.0 ==> p in values
  {
    if values == [] then 0.0
    else
      var before := Peak(values[..|values| - 1]);
      if values[|values| - 1] > before then values[|values| - 1] else before
  }

  lemma PeakExtend(values: seq<real>, j: nat)
    requires j < |values|
    ensures Peak(values[..j + 1]) == if values[j] > Peak(values[..j]) then values[j] else Peak(values[..j])
  {
    assert values[..j + 1][..j] == values[..j];
  }

  function FromPeak(v: real, peak: real): real {
    if peak > 0.0 then (v - peak) / peak else 0.0
  }

  /** The unrounded drawdown at index j. */
  function DrawdownAt(values: seq<real>, j: nat): real
    requires j < |values|
  {
    FromPeak(values[j], Peak(values[..j + 1]))
  }

  lemma DrawdownIsNotPositive(values: seq<real>, j: nat)
    requires j < |values|
    ensures DrawdownAt(values, j) <= 0.0
  {
    var p := Peak(values[..j + 1]);
    assert values[..j + 1][j] == values[j];
    if p > 0.0 { QuotientNotPositive(values[j] - p, p); }
  }

  lemma QuotientNotPositive(a: real, b: real)
    requires a <= 0.0 && b > 0.0
    ensures a / b <= 0.0
  {}

  // ---------------------------------------------------------------- the quadratic definition

  /** The loss from holding from i to j. */
  function Loss(values: seq<real>, i: nat, j: nat): real
    requires i <= j < |values| && values[i] > 0.0
  {
    (values[j] - values[i]) / values[i]
  }

  /** m is the least loss from any positive earlier value (or the value itself) to j. */
  ghost predicate IsWorstLoss(values: seq<real>, j: nat, m: real)
    requires j < |values|
  {
    && (forall i :: 0 <= i <= j && values[i] > 0.0 ==> m <= Loss(values, i, j))
    && (exists i :: 0 <= i <= j && values[i] > 0.0 && m == Loss(values, i, j))
  }

  lemma LargerBaseLosesMore(v: real, p: real, q: real)
    requires v >= 0.0 && 0.0 < q <= p
    ensures (v - p) / p <= (v - q) / q
  {
    Ratio(v, p);
    Ratio(v, q);
    QuotientAntitone(v, p, q);
  }

  lemma Ratio(v: real, p: real)
    requires p > 0.0
    ensures (v - p) / p == v / p - 1.0
  {
    assert (v - p) / p == v / p - p / p;
  }

  lemma QuotientAntitone(v: real, p: real, q: real)
    requires v >= 0.0 && 0.0 < q <= p
    ensures v / p <= v / q
  {
    var x, y := v / p, v / q;
    assert x * p == v && y * q == v && x >= 0.0;
    Product(x, p - q);
    assert (y - x) * q == x * (p - q);
    Factor(y - x, q);
  }

  lemma Product(a: real, b: real)
    requires a >= 0.0 && b >= 0.0
    ensures a * b >= 0.0
  {}

  lemma Factor(a: real, b: real)
    requires a * b >= 0.0 && b > 0.0
    ensures a >= 0.0
  {}

  ghost predicate HasPositive(values: seq<real>, j: nat)
    requires j < |values|
  {
    exists i :: 0 <= i <= j && values[i] > 0.0
  }

  lemma PeakPositiveIff(values: seq<real>, j: nat)
    requires j < |values|
    ensures Peak(values[..j + 1]) > 0.0 <==> HasPositive(values, j)
  {
    var prefix := values[..j + 1];
    if Peak(prefix) > 0.0 {
      var i :| 0 <= i < |prefix| && prefix[i] == Peak(prefix);
      assert values[i] > 0.0;
    }
    if HasPositive(values, j) {
      var i :| 0 <= i <= j && values[i] > 0.0;
      assert prefix[i] == values[i];
    }
  }

  /**
   * The running-peak drawdown is the worst loss over all earlier positive values, or 0 when there is none,
   * at every index whose own value is not negative.
   */
  lemma DrawdownIsWorstLoss(values: seq<real>, j: nat)
    requires j < |values| && values[j] >= 0.0
    ensures if HasPositive(values, j) then IsWorstLoss(values, j, DrawdownAt(values, j))
            else DrawdownAt(values, j) == 0.0
  {
    var prefix := values[..j + 1];
    var p := Peak(prefix);
    PeakPositiveIff(values, j);
    if p > 0.0 {
      var top :| 0 <= top < |prefix| && prefix[top] == p;
      assert values[top] == p && DrawdownAt(values, j) == Loss(values, top, j);
      forall i | 0 <= i <= j && values[i] > 0.0 ensures DrawdownAt(values, j) <= Loss(values, i, j) {
        assert prefix[i] == values[i];
        LargerBaseLosesMore(values[j], p, values[i]);
      }
    }
  }

  /**
   * r is, to four decimals with ties to even, the worst loss from any positive value so far to j, and 0 when
   * no value has been positive.
   */
  ghost predicate IsRoundedWorstLoss(values: seq<real>, j: nat, r: real)
    requires j < |values|
  {
    if HasPositive(values, j) then exists m :: IsWorstLoss(values, j, m) && IsRounded4(m, r) else r == 0.0
  }

  lemma RoundedDrawdownIs(values: seq<real>, j: nat)
    requires j < |values| && values[j] >= 0.0
    ensures IsRoundedWorstLoss(values, j, Round4(DrawdownAt(values, j)))
  {
    DrawdownIsWorstLoss(values, j);
    Round4Is(DrawdownAt(values, j));
    RoundInteger(0);
  }

  /** The worst loss is one number, so a rounded one lies within 1/20000 of it. */
  lemma RoundedWorstLossIsNear(values: seq<real>, j: nat, r: real, m: real)
    requires j < |values| && IsRoundedWorstLoss(values, j, r) && IsWorstLoss(values, j, m)
    ensures -0.00005 <= r - m <= 0.00005
  {
    var n :| IsWorstLoss(values, j, n) && IsRounded4(n, r);
    assert n == m;
    Rounded4Determined(n, r);
  }

  /** Every drawdown, rounded to four decimals. */
  function RoundedCurve(values: seq<real>): seq<real> {
    seq(|values|, j requires 0 <= j < |values| => Round4(DrawdownAt(values, j)))
  }

  lemma CurveMeans(values: seq<real>)
    ensures forall j :: 0 <= j < |values| && values[j] >= 0.0 ==> IsRoundedWorstLoss(values, j, RoundedCurve(values)[j])
  {
    forall j | 0 <= j < |values| && values[j] >= 0.0 ensures IsRoundedWorstLoss(values, j, RoundedCurve(values)[j]) {
      RoundedDrawdownIs(values, j);
    }
  }

  method ComputeDrawdownCurve(values: seq<real>) returns (curve: seq<real>)
    ensures curve == RoundedCurve(values)
    ensures forall j :: 0 <= j < |values| && values[j] >= 0.0 ==> IsRoundedWorstLoss(values, j, curve[j])
  {
    var peak := 0.0;
    curve := [];
    for j := 0 to |values|
      invariant peak == Peak(values[..j]) && |curve| == j
      invariant forall k :: 0 <= k < j ==> curve[k] == Round4(DrawdownAt(values, k))
    {
      var value := values[j];
      PeakExtend(values, j);
      if value > peak { peak := value; }
      var dd := FromPeak(value, peak);
      curve := curve + [Round4(dd)];
    }
    assert curve == RoundedCurve(values);
    CurveMeans(values);
  }

  /** For a negative value the smallest positive base loses most, so the refinement needs a single base. */
  lemma NegativeValueBreaksIt(values: seq<real>, j: nat)
    requires j < |values| && values[j] < 0.0 && HasPositive(values, j)
    ensures IsWorstLoss(values, j, DrawdownAt(values, j))
            <==> forall i :: 0 <= i <= j && values[i] > 0.0 ==> values[i] == Peak(values[..j + 1])
  {
    var prefix := values[..j + 1];
    var p := Peak(prefix);
    PeakPositiveIff(values, j);
    var top :| 0 <= top < |prefix| && prefix[top] == p;
    assert values[top] == p && DrawdownAt(values, j) == Loss(values, top, j);
    forall i | 0 <= i <= j && values[i] > 0.0
      ensures values[i] <= p && (Loss(values, top, j) <= Loss(values, i, j) <==> values[i] == p)
    {
      assert prefix[i] == values[i];
      if values[i] < p { SmallerBaseLosesMore(values[j], p, values[i]); }
    }
  }

  lemma SmallerBaseLosesMore(v: real, p: real, q: real)
    requires v < 0.0 < q < p
    ensures (v - p) / p > (v - q) / q
  {
    Ratio(v, p);
    Ratio(v, q);
    var x, y := v / p, v / q;
    assert x * p == v && y * q == v && x < 0.0;
    var z, d := -x, p - q;
    StrictProduct(z, d);
    assert z * d == x * q - x * p == (x - y) * q;
    StrictFactor(x - y, q);
  }

  lemma StrictProduct(a: real, b: real)
    requires a > 0.0 && b > 0.0
    ensures a * b > 0.0
  {}

  lemma StrictFactor(a: real, b: real)
    requires a * b > 0.0 && b > 0.0
    ensures a > 0.0
  {}

  // ---------------------------------------------------------------- the reported maximum drawdown

  /** m is the least element of s. */
  ghost predicate IsLeast(m: real, s: seq<real>) {
    m in s && forall i :: 0 <= i < |s| ==> m <= s[i]
  }

  /** The least of 0 and the first n drawdowns. */
  function LeastDrawdown(values: seq<real>, n: nat): real
    requires n <= |values|
  {
    if n == 0 then 0.0
    else
      var before, dd := LeastDrawdown(values, n - 1), DrawdownAt(values, n - 1);
      if dd < before then dd else before
  }

  lemma {:induction false} LeastDrawdownIs(values: seq<real>, n: nat)
    requires n <= |values|
    ensures LeastDrawdown(values, n) <= 0.0
    ensures forall j :: 0 <= j < n ==> LeastDrawdown(values, n) <= DrawdownAt(values, j)
    ensures LeastDrawdown(values, n) == 0.0 || exists j :: 0 <= j < n && LeastDrawdown(values, n) == DrawdownAt(values, j)
  {
    if n > 0 { LeastDrawdownIs(values, n - 1); }
  }

  method MaxDrawdownLoop(values: seq<real>) returns (maxDd: real)
    ensures maxDd == LeastDrawdown(values, |values|)
  {
    var peak := 0.0;
    maxDd := 0.0;
    for j := 0 to |values|
      invariant peak == Peak(values[..j]) && maxDd == LeastDrawdown(values, j)
    {
      PeakExtend(values, j);
      if values[j] > peak { peak := values[j]; }
      var dd := FromPeak(values[j], peak);
      if dd < maxDd { maxDd := dd; }
    }
  }

  /** A daily return exists when some value before the last is not zero. */
  predicate HasReturn(values: seq<real>) {
    exists i :: 0 <= i < |values| - 1 && values[i] != 0.0
  }

  /** m is the least of 0 and every loss from a positive value to a later one. */
  ghost predicate IsMaxLoss(values: seq<real>, m: real) {
    && m <= 0.0
    && (forall i, j :: 0 <= i <= j < |values| && values[i] > 0.0 ==> m <= Loss(values, i, j))
    && (m == 0.0 || exists i, j :: 0 <= i <= j < |values| && values[i] > 0.0 && m == Loss(values, i, j))
  }

  /** On a curve without negative values the loop's result is the maximum loss, peaks not mentioned. */
  lemma LeastDrawdownIsMaxLoss(values: seq<real>)
    requires forall j :: 0 <= j < |values| ==> values[j] >= 0.0
    ensures IsMaxLoss(values, LeastDrawdown(values, |values|))
  {
    var m := LeastDrawdown(values, |values|);
    LeastDrawdownIs(values, |values|);
    forall i, j | 0 <= i <= j < |values| && values[i] > 0.0 ensures m <= Loss(values, i, j) {
      DrawdownIsWorstLoss(values, j);
      assert HasPositive(values, j);
    }
    if m != 0.0 {
      var j :| 0 <= j < |values| && m == DrawdownAt(values, j);
      DrawdownIsWorstLoss(values, j);
      var i :| 0 <= i <= j && values[i] > 0.0 && m == Loss(values, i, j);
    }
  }

  /**
   * The `max_drawdown` metric, with the two early exits that report 0: always the least point of the
   * drawdown curve.
   */
  method MaxDrawdownMetric(values: seq<real>) returns (metric: real)
    ensures if values == [] then metric == 0.0 else IsLeast(metric, RoundedCurve(values))
    ensures (forall j :: 0 <= j < |values| ==> values[j] >= 0.0) ==>
              exists m :: IsMaxLoss(values, m) && IsRounded4(m, metric)
  {
    ghost var curve, least := RoundedCurve(values), LeastDrawdown(values, |values|);
    LeastDrawdownIs(values, |values|);
    Round4Is(least);
    if forall j :: 0 <= j < |values| ==> values[j] >= 0.0 { LeastDrawdownIsMaxLoss(values); }
    if |values| < 2 || !HasReturn(values) {
      RoundInteger(0);
      if |values| > 0 {
        FlatCurve(values);
        assert curve[0] == 0.0;
      }
      assert Round4(least) == 0.0;
      return 0.0;
    }
    var maxDd := MaxDrawdownLoop(values);
    metric := Round4(maxDd);
    LeastSurvivesRounding(values, curve, maxDd);
  }

  lemma FlatCurve(values: seq<real>)
    requires |values| > 0 && (|values| < 2 || !HasReturn(values))
    ensures forall j :: 0 <= j < |values| ==> DrawdownAt(values, j) == 0.0 && Round4(DrawdownAt(values, j)) == 0.0
  {
    forall j | 0 <= j < |values| ensures DrawdownAt(values, j) == 0.0 {
      var prefix := values[..j + 1];
      assert forall i :: 0 <= i < j ==> values[i] == 0.0;
      if Peak(prefix) > 0.0 {
        var i :| 0 <= i < |prefix| && prefix[i] == Peak(prefix);
        assert i == j;
      }
    }
    RoundInteger(0);
  }

  /** Rounding is monotone, so the least rounded drawdown is the rounded least drawdown. */
  lemma LeastSurvivesRounding(values: seq<real>, curve: seq<real>, maxDd: real)
    requires |curve| == |values| > 0
    requires forall j :: 0 <= j < |values| ==> curve[j] == Round4(DrawdownAt(values, j))
    requires maxDd <= 0.0 && forall j :: 0 <= j < |values| ==> maxDd <= DrawdownAt(values, j)
    requires maxDd == 0.0 || exists j :: 0 <= j < |values| && maxDd == DrawdownAt(values, j)
    ensures IsLeast(Round4(maxDd), curve)
  {
    if maxDd == 0.0 {
      DrawdownIsNotPositive(values, 0);
      assert DrawdownAt(values, 0) == maxDd;
    }
    var j :| 0 <= j < |values| && maxDd == DrawdownAt(values, j);
    assert curve[j] == Round4(maxDd);
    forall k | 0 <= k < |curve| ensures Round4(maxDd) <= curve[k] {
      Round4Monotone(maxDd, DrawdownAt(values, k));
    }
  }
}
