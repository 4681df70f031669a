/** The two signal generators. Each is a pure function of the symbol's
    history as of the market event's time. */
module Strategies {
  import opened Common
  import opened Numerics
  import opened Events
  import opened Data

  datatype Strategy =
    | TimeSeriesMomentum(lookback: nat)
    | MeanReversionZ(window: nat, zEnter: real)

  /** The sign test `last / past - 1.0 > 0` under IEEE arithmetic: with a
      zero denominator the quotient is +inf for a positive numerator,
      -inf for a negative one and NaN for zero, and only +inf passes. */
  predicate RoseOver(last: real, past: real)
  {
    if past != 0.0 then last / past - 1.0 > 0.0 else last > 0.0
  }

  /** The momentum decision on an as-of history. */
  function MomentumSide(lookback: nat, hist: seq<Row>): (r: Option<Side>)
    ensures r.None? <==> |hist| < lookback + 1
    ensures r.Some? ==> (r.value == Buy <==>
                         RoseOver(hist[|hist| - 1].bar.close, hist[|hist| - 1 - lookback].bar.close))
  {
    if |hist| < lookback + 1 then None
    else
      var closes := Closes(hist);
      var last := closes[|closes| - 1];
      var past := closes[|closes| - 1 - lookback];
      Some(if RoseOver(last, past) then Buy else Sell)
  }

  /** The z-score of the latest return against the trailing window, with
      1e-12 standing in for a spread that is not positive. */
  function ZScore(o: Oracle, rets: seq<real>, window: nat): real
    requires |rets| > 0
  {
    var w := LastK(rets, window);
    var mu := Mean(o, w);
    var sd := Spread(o, w);
    (rets[|rets| - 1] - mu) / sd
  }

  /** `w.std(ddof=1)` when it is positive, else 1e-12; a window of fewer
      than two returns has a NaN spread, which fails the test. */
  function Spread(o: Oracle, w: seq<real>): (sd: real)
    ensures sd > 0.0
    ensures |w| >= 2 && SampleStd(o, w) > 0.0 ==> sd == SampleStd(o, w)
    ensures !(|w| >= 2 && SampleStd(o, w) > 0.0) ==> sd == 1.0 / 1000000000000.0
  {
    if |w| >= 2 && SampleStd(o, w) > 0.0 then SampleStd(o, w) else 1.0 / 1000000000000.0
  }

  /** The mean-reversion decision on an as-of history. */
  function MeanReversionSide(o: Oracle, window: nat, zEnter: real, hist: seq<Row>): (r: Option<Side>)
    ensures r.None? <==> |hist| < window + 2 || |PctChange(o, Closes(hist))| < window
                         || |PctChange(o, Closes(hist))| == 0
    ensures r.Some? ==> |PctChange(o, Closes(hist))| > 0 &&
                        (r.value == Buy <==> ZScore(o, PctChange(o, Closes(hist)), window) < -zEnter)
  {
    if |hist| < window + 2 then None
    else
      var rets := PctChange(o, Closes(hist));
      if |rets| < window || |rets| == 0 then None
      else Some(if ZScore(o, rets, window) < -zEnter then Buy else Sell)
  }

  /** `on_market` given the history `get_history_asof(evt.symbol, evt.t)`. */
  function Decide(s: Strategy, o: Oracle, evt: Event, hist: seq<Row>): (r: Option<Event>)
    requires evt.Market?
    ensures r.Some? ==> r.value.Signal? && r.value.t == evt.t && r.value.symbol == evt.symbol
                        && r.value.strength == 1.0
  {
    var side := match s
      case TimeSeriesMomentum(lookback) => MomentumSide(lookback, hist)
      case MeanReversionZ(window, zEnter) => MeanReversionSide(o, window, zEnter, hist);
    if side.None? then None else Some(NewSignal(evt.t, evt.symbol, side.value))
  }

  /** `Strategy.on_market(evt, data)`. */
  function OnMarket(s: Strategy, o: Oracle, evt: Event, data: map<Symbol, seq<Row>>): (r: Option<Event>)
    requires evt.Market? && evt.symbol in data && TimeSorted(data[evt.symbol])
    ensures r.Some? ==> r.value.Signal? && r.value.t == evt.t && r.value.symbol == evt.symbol
                        && r.value.strength == 1.0
    ensures var h := HistoryAsOf(data[evt.symbol], evt.t);
            s.TimeSeriesMomentum? ==>
              && (r.None? <==> |h| < s.lookback + 1)
              && (r.Some? ==> (r.value.side == Buy <==>
                               RoseOver(h[|h| - 1].bar.close, h[|h| - 1 - s.lookback].bar.close)))
    ensures var h := HistoryAsOf(data[evt.symbol], evt.t);
            var rets := PctChange(o, Closes(h));
            s.MeanReversionZ? ==>
              && (r.None? <==> |h| < s.window + 2 || |rets| < s.window || |rets| == 0)
              && (r.Some? ==> (r.value.side == Buy <==> ZScore(o, rets, s.window) < -s.zEnter))
  {
    Decide(s, o, evt, HistoryAsOf(data[evt.symbol], evt.t))
  }

  /** No look-ahead: replacing every bar after the event's time by other
      later bars leaves the strategy's output unchanged. */
  lemma NoLookAhead(s: Strategy, o: Oracle, evt: Event, data: map<Symbol, seq<Row>>, later: seq<Row>)
    requires evt.Market? && evt.symbol in data && TimeSorted(data[evt.symbol])
    requires TimeSorted(HistoryAsOf(data[evt.symbol], evt.t) + later)
    requires forall i :: 0 <= i < |later| ==> later[i].t > evt.t
    ensures OnMarket(s, o, evt, data[evt.symbol := HistoryAsOf(data[evt.symbol], evt.t) + later])
         == OnMarket(s, o, evt, data)
  {
    HistoryIgnoresLaterRows(data[evt.symbol], later, evt.t);
  }

  /** For positive prices, momentum buys exactly when the last close is
      above the close `lookback` bars earlier. */
  lemma MomentumPositivePrices(lookback: nat, hist: seq<Row>)
    requires |hist| >= lookback + 1
    requires forall i :: 0 <= i < |hist| ==> hist[i].bar.close > 0.0
    ensures MomentumSide(lookback, hist) == Some(Buy) <==>
            hist[|hist| - 1].bar.close > hist[|hist| - 1 - lookback].bar.close
  {
    RatioAboveOne(hist[|hist| - 1].bar.close, hist[|hist| - 1 - lookback].bar.close);
  }

  lemma RatioAboveOne(a: real, b: real)
    requires b > 0.0
    ensures a / b - 1.0 > 0.0 <==> a > b
  {
    var q := a / b;
    assert q * b == a;
    assert a - b == (q - 1.0) * b;
    if q > 1.0 {
      assert (q - 1.0) * b > 0.0;
    }
  }

  /** A flat positive history has only zero returns, one per step. */
  lemma FlatCloseReturns(o: Oracle, hist: seq<Row>, c: real)
    requires Sound(o) && c > 0.0
    requires forall i :: 0 <= i < |hist| ==> hist[i].bar.close == c
    ensures |PctChange(o, Closes(hist))| == (if |hist| == 0 then 0 else |hist| - 1)
    ensures forall i :: 0 <= i < |PctChange(o, Closes(hist))| ==> PctChange(o, Closes(hist))[i] == 0.0
  {
    var cs := Closes(hist);
    assert forall i :: 0 <= i < |cs| ==> cs[i] == c;
    FlatReturns(o, cs, c);
  }

  /** Over all-zero returns the z-score is zero. */
  lemma ZeroReturnsZeroScore(o: Oracle, rets: seq<real>, window: nat)
    requires Sound(o)
    requires |rets| > 0
    requires forall i :: 0 <= i < |rets| ==> rets[i] == 0.0
    ensures ZScore(o, rets, window) == 0.0
  {
    var w := LastK(rets, window);
    assert forall i :: 0 <= i < |w| ==> w[i] == 0.0 by {
      if 0 < window <= |rets| {
        assert forall i :: 0 <= i < |w| ==> w[i] == rets[|rets| - window + i];
      } else if window > |rets| {
        assert w == PySlice(rets, 0 - window as int, |rets|);
        assert w == rets;
      }
    }
    SumConstant(w, 0.0);
    assert Mean(o, w) == 0.0;
  }

  /** A flat history gives all-zero returns, hence z == 0: mean reversion
      sells whenever the entry threshold is non-negative. */
  lemma MeanReversionFlatHistory(o: Oracle, window: nat, zEnter: real, hist: seq<Row>, c: real)
    requires Sound(o)
    requires window >= 1 && zEnter >= 0.0 && c > 0.0
    requires |hist| >= window + 2
    requires forall i :: 0 <= i < |hist| ==> hist[i].bar.close == c
    ensures MeanReversionSide(o, window, zEnter, hist) == Some(Sell)
  {
    FlatCloseReturns(o, hist, c);
    ZeroReturnsZeroScore(o, PctChange(o, Closes(hist)), window);
  }
}
