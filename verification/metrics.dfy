/** The performance summary of a run: growth rate, risk-adjusted return,
    worst peak-to-trough loss, annualised volatility and total turnover,
    computed from the ledger's equity curve and the per-day turnover. */
module Metrics {
  import opened Common
  import opened Numerics

  datatype Metrics = Metrics(cagr: real, sharpe: real, maxDrawdown: real, volAnn: real, turnover: real)

  const DaysPerYear: real := 365.25
  /** The floor on elapsed years, so a run of zero days still has a CAGR exponent. */
  const MinYears: real := 1.0 / 1000000000.0
  /** Added to the spread in the Sharpe denominator. */
  const SharpeEpsilon: real := 1.0 / 1000000000000.0
  const AnnualisationDays: real := 252.0

  /** `eq.cummax()`: the running maximum of the curve. */
  function CumMax(xs: seq<real>): (r: seq<real>)
    ensures |r| == |xs|
    ensures forall i, j :: 0 <= j <= i < |xs| ==> xs[j] <= r[i]
  {
    if xs == [] then []
    else
      var n := |xs|;
      var p := CumMax(xs[..n - 1]);
      var m := if n == 1 then xs[0] else MaxReal(p[n - 2], xs[n - 1]);
      assert forall j :: 0 <= j < n - 1 ==> xs[..n - 1][j] == xs[j];
      p + [m]
  }

  /** Each running maximum is one of the values seen so far. */
  lemma {:induction false} CumMaxAttained(xs: seq<real>, i: nat)
    requires i < |xs|
    ensures exists j :: 0 <= j <= i && CumMax(xs)[i] == xs[j]
  {
    var n := |xs|;
    var init := xs[..n - 1];
    assert CumMax(xs)[..n - 1] == CumMax(init);
    if i < n - 1 {
      CumMaxAttained(init, i);
      var j :| 0 <= j <= i && CumMax(init)[i] == init[j];
      assert CumMax(xs)[i] == xs[j];
    } else if n > 1 && CumMax(init)[n - 2] >= xs[n - 1] {
      CumMaxAttained(init, n - 2);
      var j :| 0 <= j <= n - 2 && CumMax(init)[n - 2] == init[j];
      assert CumMax(xs)[i] == xs[j];
    }
  }

  /** `(eq / peak) - 1.0` with NaN entries dropped, as `min` skips them:
      only a zero value over a zero peak is 0/0. */
  function DrawdownSeries(o: Oracle, eq: seq<real>, peak: seq<real>): (dd: seq<real>)
    requires |eq| == |peak|
    ensures |dd| <= |eq|
  {
    if eq == [] then []
    else
      var n := |eq|;
      DrawdownSeries(o, eq[..n - 1], peak[..n - 1]) +
        (if eq[n - 1] == 0.0 && peak[n - 1] == 0.0 then [] else [o.div(eq[n - 1], peak[n - 1]) - 1.0])
  }

  /** `float(dd.min())`: NaN when every entry is NaN. */
  function MaxDrawdown(o: Oracle, eq: seq<real>): real
  {
    var dd := DrawdownSeries(o, eq, CumMax(eq));
    if dd == [] then NaN(o) else MinOf(dd)
  }

  /** `max(days / 365.25, 1e-9)`. */
  function Years(days: int): (y: real)
    ensures y >= MinYears
    ensures days as real / DaysPerYear >= MinYears ==> y == days as real / DaysPerYear
    ensures days as real / DaysPerYear < MinYears ==> y == MinYears
  {
    MaxReal(days as real / DaysPerYear, MinYears)
  }

  function Cagr(o: Oracle, times: seq<int>, eq: seq<real>): real
    requires |times| == |eq| && |eq| > 0
  {
    var n := |eq|;
    o.pow(o.div(eq[n - 1], eq[0]), 1.0 / Years(times[n - 1] - times[0])) - 1.0
  }

  function VolAnn(o: Oracle, rets: seq<real>): real
  {
    SampleStd(o, rets) * o.sqrt(AnnualisationDays)
  }

  function Sharpe(o: Oracle, rets: seq<real>): real
  {
    o.div(Mean(o, rets), SampleStd(o, rets) + SharpeEpsilon) * o.sqrt(AnnualisationDays)
  }

  /** `compute_metrics(equity, turnover)`: the equity curve is given by
      its timestamps (in days) and values. */
  function ComputeMetrics(o: Oracle, times: seq<int>, eq: seq<real>, turnover: seq<real>): (m: Metrics)
    requires |times| == |eq|
    ensures m.turnover == SumReals(turnover)
    ensures |PctChange(o, eq)| < 2 ==> m == Metrics(0.0, 0.0, 0.0, 0.0, SumReals(turnover))
    ensures |PctChange(o, eq)| >= 2 ==>
              m == Metrics(Cagr(o, times, eq), Sharpe(o, PctChange(o, eq)), MaxDrawdown(o, eq),
                           VolAnn(o, PctChange(o, eq)), SumReals(turnover))
  {
    var rets := PctChange(o, eq);
    if |rets| < 2 then Metrics(0.0, 0.0, 0.0, 0.0, SumReals(turnover))
    else Metrics(Cagr(o, times, eq), Sharpe(o, rets), MaxDrawdown(o, eq), VolAnn(o, rets), SumReals(turnover))
  }

  // ---------------------------------------------------------------- lemmas

  /** When no entry is 0/0 the drawdown series has one entry per step. */
  lemma {:induction false} DrawdownSeriesExact(o: Oracle, eq: seq<real>, peak: seq<real>)
    requires Sound(o)
    requires |eq| == |peak|
    requires forall i :: 0 <= i < |eq| ==> peak[i] != 0.0
    ensures |DrawdownSeries(o, eq, peak)| == |eq|
    ensures forall i :: 0 <= i < |eq| ==> DrawdownSeries(o, eq, peak)[i] == eq[i] / peak[i] - 1.0
  {
    if eq != [] {
      var n := |eq|;
      DrawdownSeriesExact(o, eq[..n - 1], peak[..n - 1]);
    }
  }

  /** A curve that starts away from zero keeps its first drawdown, which
      is 0: the first peak is the first value. */
  lemma {:induction false} FirstDrawdownKept(o: Oracle, eq: seq<real>, peak: seq<real>)
    requires Sound(o)
    requires |eq| == |peak| && |eq| > 0
    requires eq[0] != 0.0 && peak[0] == eq[0]
    ensures |DrawdownSeries(o, eq, peak)| > 0 && DrawdownSeries(o, eq, peak)[0] == 0.0
  {
    var n := |eq|;
    if n > 1 {
      FirstDrawdownKept(o, eq[..n - 1], peak[..n - 1]);
    }
  }

  /** Max drawdown is never positive once the curve starts away from zero:
      the first entry of the drawdown series is 0. */
  lemma MaxDrawdownNonPositive(o: Oracle, eq: seq<real>)
    requires Sound(o)
    requires |eq| > 0 && eq[0] != 0.0
    ensures MaxDrawdown(o, eq) <= 0.0
  {
    var peak := CumMax(eq);
    CumMaxAttained(eq, 0);
    FirstDrawdownKept(o, eq, peak);
  }

  /** For a positive curve every drawdown lies in (-1, 0], so the maximum
      drawdown does too. */
  lemma MaxDrawdownBounds(o: Oracle, eq: seq<real>)
    requires Sound(o)
    requires |eq| > 0
    requires forall i :: 0 <= i < |eq| ==> eq[i] > 0.0
    ensures -1.0 < MaxDrawdown(o, eq) <= 0.0
  {
    var peak := CumMax(eq);
    assert forall i :: 0 <= i < |eq| ==> peak[i] > 0.0 by {
      forall i | 0 <= i < |eq| ensures peak[i] > 0.0 {
        assert eq[i] <= peak[i];
      }
    }
    DrawdownSeriesExact(o, eq, peak);
    var dd := DrawdownSeries(o, eq, peak);
    forall i | 0 <= i < |eq| ensures -1.0 < dd[i] <= 0.0 {
      RatioBounds(eq[i], peak[i]);
    }
    var k :| 0 <= k < |dd| && dd[k] == MinOf(dd);
    assert -1.0 < dd[k];
    MaxDrawdownNonPositive(o, eq);
  }

  lemma RatioBounds(x: real, p: real)
    requires 0.0 < x <= p
    ensures -1.0 < x / p - 1.0 <= 0.0
  {
    DivBelowOne(x, p);
  }

  lemma DivBelowOne(x: real, p: real)
    requires 0.0 < x <= p
    ensures 0.0 < x / p <= 1.0
  {
    var q := x / p;
    assert q * p == x;
  }

  /** On a non-decreasing positive curve the peak is always the current
      value, so the maximum drawdown is exactly 0. */
  lemma MaxDrawdownZeroWhenNonDecreasing(o: Oracle, eq: seq<real>)
    requires Sound(o)
    requires |eq| > 0
    requires forall i :: 0 <= i < |eq| ==> eq[i] > 0.0
    requires forall i, j :: 0 <= i <= j < |eq| ==> eq[i] <= eq[j]
    ensures MaxDrawdown(o, eq) == 0.0
  {
    var peak := CumMax(eq);
    CumMaxOfNonDecreasing(eq);
    DrawdownSeriesExact(o, eq, peak);
    var dd := DrawdownSeries(o, eq, peak);
    forall i | 0 <= i < |dd| ensures dd[i] == 0.0 {
      SelfRatioZero(eq[i]);
    }
    assert MinOf(dd) == dd[0];
  }

  /** The running maximum of a non-decreasing curve is the curve itself. */
  lemma {:induction false} CumMaxOfNonDecreasing(xs: seq<real>)
    requires forall i, j :: 0 <= i <= j < |xs| ==> xs[i] <= xs[j]
    ensures CumMax(xs) == xs
  {
    if xs != [] {
      var n := |xs|;
      var init := xs[..n - 1];
      CumMaxOfNonDecreasing(init);
      var m := if n == 1 then xs[0] else MaxReal(init[n - 2], xs[n - 1]);
      assert m == xs[n - 1];
      assert CumMax(xs) == init + [m];
      assert init + [xs[n - 1]] == xs;
    }
  }

  /** The turnover figure is the series sum whatever the equity curve. */
  lemma TurnoverIndependentOfEquity(o: Oracle, times: seq<int>, eq: seq<real>, times': seq<int>, eq': seq<real>,
                                     turnover: seq<real>)
    requires |times| == |eq| && |times'| == |eq'|
    ensures ComputeMetrics(o, times, eq, turnover).turnover == ComputeMetrics(o, times', eq', turnover).turnover
  {
  }

  /** A curve of at most two points has fewer than two returns, so every
      statistic but turnover is 0. */
  lemma ShortCurveZeros(o: Oracle, times: seq<int>, eq: seq<real>, turnover: seq<real>)
    requires |times| == |eq| && |eq| <= 2
    ensures ComputeMetrics(o, times, eq, turnover) == Metrics(0.0, 0.0, 0.0, 0.0, SumReals(turnover))
  {
  }

  /** Elapsed years never fall below 1e-9, so the CAGR exponent is finite;
      a run of a whole day or more is not affected by the floor. */
  lemma YearsFloor(days: int)
    ensures Years(days) >= MinYears
    ensures days >= 1 ==> Years(days) == days as real / DaysPerYear
  {
  }

  /** A flat positive curve of three or more points has zero returns, so
      both the annualised volatility and the Sharpe ratio are 0. */
  lemma ConstantEquityZeroVolSharpe(o: Oracle, times: seq<int>, eq: seq<real>, turnover: seq<real>, c: real)
    requires Sound(o)
    requires |times| == |eq| && |eq| >= 3 && c > 0.0
    requires forall i :: 0 <= i < |eq| ==> eq[i] == c
    ensures ComputeMetrics(o, times, eq, turnover).volAnn == 0.0
    ensures ComputeMetrics(o, times, eq, turnover).sharpe == 0.0
  {
    var rets := PctChange(o, eq);
    FlatReturns(o, eq, c);
    ZeroReturnsRatios(o, rets);
  }

  /** Two or more zero returns have zero volatility and zero Sharpe ratio. */
  lemma ZeroReturnsRatios(o: Oracle, rets: seq<real>)
    requires Sound(o) && |rets| >= 2
    requires forall i :: 0 <= i < |rets| ==> rets[i] == 0.0
    ensures Sharpe(o, rets) == 0.0 && VolAnn(o, rets) == 0.0
  {
    ConstantSeries(o, rets, 0.0);
    ZeroOverPositive(o, Mean(o, rets), SampleStd(o, rets) + SharpeEpsilon);
  }

  lemma ZeroOverPositive(o: Oracle, a: real, b: real)
    requires Sound(o) && a == 0.0 && b > 0.0
    ensures o.div(a, b) == 0.0
  {
  }

  /** The 1e-12 term keeps the Sharpe denominator positive, so the ratio
      is the plain quotient of mean over spread. */
  lemma SharpeDenominatorPositive(o: Oracle, rets: seq<real>)
    requires Sound(o)
    requires |rets| >= 2
    ensures SampleStd(o, rets) + SharpeEpsilon > 0.0
    ensures Sharpe(o, rets) == Mean(o, rets) / (SampleStd(o, rets) + SharpeEpsilon) * o.sqrt(AnnualisationDays)
  {
    SampleStdNonNegative(o, rets);
  }
}
