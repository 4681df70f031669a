/** Floating-point helpers of pandas/numpy, over Dafny's exact `real`.
    What `real` cannot express is supplied by an `Oracle` of uninterpreted
    functions: the square root, fractional powers, and division, whose value
    is only pinned down when the divisor is non-zero (a zero divisor gives an
    IEEE infinity or NaN in the source; the oracle's value stands for it). */
module Numerics {
  import opened Common

  datatype Oracle = Oracle(sqrt: real -> real, pow: (real, real) -> real, div: (real, real) -> real)

  /** What the model relies on about the uninterpreted functions. */
  ghost predicate Sound(o: Oracle)
  {
    && (forall x :: x >= 0.0 ==> o.sqrt(x) >= 0.0)
    && o.sqrt(0.0) == 0.0
    && (forall b, e :: b > 0.0 ==> o.pow(b, e) > 0.0)
    && (forall a, b :: b != 0.0 ==> o.div(a, b) == a / b)
  }

  /** The oracle's stand-in for NaN (0.0 / 0.0). */
  function NaN(o: Oracle): real
  {
    o.div(0.0, 0.0)
  }

  /** `Series.pct_change().dropna()` for a finite series: the simple return
      between consecutive values, dropping exactly the 0/0 pairs (NaN);
      x/0 for x != 0 is an infinity, which `dropna` keeps. */
  function PctChange(o: Oracle, xs: seq<real>): (r: seq<real>)
    ensures |r| <= (if |xs| == 0 then 0 else |xs| - 1)
    decreases |xs|
  {
    if |xs| < 2 then []
    else
      var n := |xs|;
      PctChange(o, xs[..n - 1]) +
        (if xs[n - 2] == 0.0 && xs[n - 1] == 0.0 then [] else [o.div(xs[n - 1], xs[n - 2]) - 1.0])
  }

  /** On a series without zeros the returns are exactly x[i+1]/x[i] - 1, one per step. */
  lemma {:induction false} PctChangeExact(o: Oracle, xs: seq<real>)
    requires Sound(o)
    requires forall i :: 0 <= i < |xs| ==> xs[i] != 0.0
    ensures |PctChange(o, xs)| == (if |xs| == 0 then 0 else |xs| - 1)
    ensures forall i :: 0 <= i < |PctChange(o, xs)| ==> PctChange(o, xs)[i] == xs[i + 1] / xs[i] - 1.0
    decreases |xs|
  {
    if |xs| >= 2 {
      var n := |xs|;
      PctChangeExact(o, xs[..n - 1]);
    }
  }

  lemma SelfRatioZero(x: real)
    requires x != 0.0
    ensures x / x - 1.0 == 0.0
  {
  }

  /** A flat positive series has a zero return at every step. */
  lemma FlatReturns(o: Oracle, xs: seq<real>, c: real)
    requires Sound(o) && c > 0.0
    requires forall i :: 0 <= i < |xs| ==> xs[i] == c
    ensures |PctChange(o, xs)| == (if |xs| == 0 then 0 else |xs| - 1)
    ensures forall i :: 0 <= i < |PctChange(o, xs)| ==> PctChange(o, xs)[i] == 0.0
  {
    PctChangeExact(o, xs);
    var rets := PctChange(o, xs);
    SelfRatioZero(c);
    forall i | 0 <= i < |rets| ensures rets[i] == 0.0 {
      assert rets[i] == xs[i + 1] / xs[i] - 1.0;
      assert xs[i] == c && xs[i + 1] == c;
    }
  }

  /** `Series.mean()`: NaN for an empty series. */
  function Mean(o: Oracle, xs: seq<real>): real
  {
    o.div(SumReals(xs), |xs| as real)
  }

  function SumSquaredDeviations(xs: seq<real>, mu: real): (r: real)
    ensures r >= 0.0
  {
    if xs == [] then 0.0
    else
      var d := xs[|xs| - 1] - mu;
      SquareNonNegative(d);
      SumSquaredDeviations(xs[..|xs| - 1], mu) + d * d
  }

  lemma SquareNonNegative(d: real)
    ensures d * d >= 0.0
  {
    if d < 0.0 { assert d * d == (-d) * (-d); }
  }

  /** `Series.std(ddof=1)`: NaN with fewer than two values. */
  function SampleStd(o: Oracle, xs: seq<real>): real
  {
    if |xs| < 2 then NaN(o)
    else o.sqrt(SumSquaredDeviations(xs, Mean(o, xs)) / (|xs| - 1) as real)
  }

  lemma SampleStdNonNegative(o: Oracle, xs: seq<real>)
    requires Sound(o)
    requires |xs| >= 2
    ensures SampleStd(o, xs) >= 0.0
  {
  }

  lemma {:induction false} SumConstant(xs: seq<real>, c: real)
    requires forall i :: 0 <= i < |xs| ==> xs[i] == c
    ensures SumReals(xs) == |xs| as real * c
    ensures SumSquaredDeviations(xs, c) == 0.0
    decreases |xs|
  {
    if xs != [] {
      SumConstant(xs[..|xs| - 1], c);
    }
  }

  /** A non-empty constant series has the constant as its mean. */
  lemma MeanOfConstant(o: Oracle, xs: seq<real>, c: real)
    requires Sound(o)
    requires |xs| >= 1
    requires forall i :: 0 <= i < |xs| ==> xs[i] == c
    ensures Mean(o, xs) == c
  {
    SumConstant(xs, c);
    var n := |xs| as real;
    assert Mean(o, xs) == (n * c) / n;
  }

  /** A constant series has mean equal to the constant and zero spread. */
  lemma ConstantSeries(o: Oracle, xs: seq<real>, c: real)
    requires Sound(o)
    requires |xs| >= 2
    requires forall i :: 0 <= i < |xs| ==> xs[i] == c
    ensures Mean(o, xs) == c
    ensures SampleStd(o, xs) == 0.0
  {
    SumConstant(xs, c);
    assert Mean(o, xs) == (|xs| as real * c) / |xs| as real;
  }

  /** `max(xs)` over a non-empty sequence. */
  function MaxOf(xs: seq<real>): (m: real)
    requires xs != []
    ensures forall i :: 0 <= i < |xs| ==> xs[i] <= m
    ensures exists i :: 0 <= i < |xs| && xs[i] == m
  {
    if |xs| == 1 then xs[0]
    else
      var m' := MaxOf(xs[..|xs| - 1]);
      if xs[|xs| - 1] > m' then xs[|xs| - 1] else m'
  }

  /** `min(xs)` over a non-empty sequence. */
  function MinOf(xs: seq<real>): (m: real)
    requires xs != []
    ensures forall i :: 0 <= i < |xs| ==> m <= xs[i]
    ensures exists i :: 0 <= i < |xs| && xs[i] == m
  {
    if |xs| == 1 then xs[0]
    else
      var m' := MinOf(xs[..|xs| - 1]);
      if xs[|xs| - 1] < m' then xs[|xs| - 1] else m'
  }
}
