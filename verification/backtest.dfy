/** The event-driven simulation: an optional period filter over the input
    frames, then a clock over the merged timeline that, per timestep,
    enqueues one market event per symbol with a bar, marks the portfolio
    to market, and drains the queue through strategy, portfolio and
    execution before the clock advances. */
module Backtests {
  import opened Common
  import opened Sorting
  import opened Numerics
  import opened Events
  import opened EventQueues
  import opened Data
  import opened Strategies
  import opened Portfolios
  import opened Execution
  import opened Metrics

  // ---------------------------------------------------------- period filter

  /** `df.loc[(df.index >= start) & (df.index <= end)]`: the rows inside
      the closed period, in their original order. */
  function InPeriod(rows: seq<Row>, start: int, end: int): (r: seq<Row>)
    ensures |r| <= |rows|
    ensures forall x :: x in r <==> x in rows && start <= x.t <= end
  {
    if rows == [] then []
    else
      var n := |rows|;
      var kept := InPeriod(rows[..n - 1], start, end);
      assert forall x :: x in rows <==> x in rows[..n - 1] || x == rows[n - 1];
      if start <= rows[n - 1].t <= end then kept + [rows[n - 1]] else kept
  }

  /** The slicing loop of the constructor: every frame keeps its symbol,
      index kind and columns, and only its rows inside the period. */
  method SlicePeriod(input: seq<(Symbol, Frame)>, start: int, end: int) returns (out: seq<(Symbol, Frame)>)
    ensures |out| == |input|
    ensures forall i :: 0 <= i < |input| ==>
              out[i] == (input[i].0, input[i].1.(rows := InPeriod(input[i].1.rows, start, end)))
  {
    out := [];
    for i := 0 to |input|
      invariant |out| == i
      invariant forall j :: 0 <= j < i ==>
                  out[j] == (input[j].0, input[j].1.(rows := InPeriod(input[j].1.rows, start, end)))
    {
      var (sym, frame) := input[i];
      out := out + [(sym, frame.(rows := InPeriod(frame.rows, start, end)))];
    }
  }

  /** Slicing changes no key and no frame's index kind or columns, so the
      input stays a dictionary and validation fails exactly as before. */
  lemma {:induction false} SlicedValidation(input: seq<(Symbol, Frame)>, out: seq<(Symbol, Frame)>, start: int, end: int)
    requires |out| == |input|
    requires forall i :: 0 <= i < |input| ==>
               out[i] == (input[i].0, input[i].1.(rows := InPeriod(input[i].1.rows, start, end)))
    ensures DistinctKeys(input) ==> DistinctKeys(out)
    ensures FirstError(out) == FirstError(input)
    decreases |input|
  {
    if input != [] {
      SlicedValidation(input[1..], out[1..], start, end);
    }
  }

  /** After slicing and loading, every stored row lies inside the period,
      hence so does every timestamp of the timeline. */
  lemma SlicedTimesInPeriod(input: seq<(Symbol, Frame)>, data: map<Symbol, seq<Row>>, start: int, end: int)
    requires forall s :: s in data ==>
               (exists i :: 0 <= i < |input| && input[i].0 == s && data[s] == SortRows(InPeriod(input[i].1.rows, start, end)))
    ensures forall x :: x in AllTimes(data) ==> start <= x <= end
  {
    forall x | x in AllTimes(data) ensures start <= x <= end {
      var s, r :| s in data && r in data[s] && r.t == x;
      var i :| 0 <= i < |input| && input[i].0 == s && data[s] == SortRows(InPeriod(input[i].1.rows, start, end));
      var kept := InPeriod(input[i].1.rows, start, end);
      assert multiset(data[s]) == multiset(kept);
      assert r in multiset(kept);
      assert r in kept;
    }
  }

  // ---------------------------------------------------------------- turnover

  /** One row of `_turnover_rows`. */
  datatype TurnoverRow = TurnoverRow(t: int, turnover: real)

  /** The row a fill books: `abs(base_price * qty)` at the fill's time. */
  function FillTurnover(f: Event): (r: TurnoverRow)
    requires f.Fill?
    ensures r.t == f.t && r.turnover >= 0.0
  {
    TurnoverRow(f.t, AbsReal(TurnoverPrice(f) * f.qty as real))
  }

  function Turnovers(rows: seq<TurnoverRow>): (r: seq<real>)
    ensures |r| == |rows|
    ensures forall i :: 0 <= i < |rows| ==> r[i] == rows[i].turnover
  {
    seq(|rows|, i requires 0 <= i < |rows| => rows[i].turnover)
  }

  /** The group sum at `t` (0 when `t` has no group, as `fillna(0.0)` makes it). */
  function TurnoverOn(rows: seq<TurnoverRow>, t: int): real
  {
    if rows == [] then 0.0
    else TurnoverOn(rows[..|rows| - 1], t) + (if rows[|rows| - 1].t == t then rows[|rows| - 1].turnover else 0.0)
  }

  /** `groupby("t").sum().reindex(times).fillna(0.0)`. */
  function DailyTurnover(rows: seq<TurnoverRow>, times: seq<int>): (r: seq<real>)
    ensures |r| == |times|
    ensures forall i :: 0 <= i < |times| ==> r[i] == TurnoverOn(rows, times[i])
  {
    seq(|times|, i requires 0 <= i < |times| => TurnoverOn(rows, times[i]))
  }

  /** A day without fills books zero turnover; with no rows at all the
      series is all zeros, which is the source's separate empty branch. */
  lemma {:induction false} NoFillsNoTurnover(rows: seq<TurnoverRow>, t: int)
    requires forall i :: 0 <= i < |rows| ==> rows[i].t != t
    ensures TurnoverOn(rows, t) == 0.0
  {
    if rows != [] {
      NoFillsNoTurnover(rows[..|rows| - 1], t);
    }
  }

  lemma {:induction false} TurnoverOnNonNegative(rows: seq<TurnoverRow>, t: int)
    requires forall i :: 0 <= i < |rows| ==> rows[i].turnover >= 0.0
    ensures TurnoverOn(rows, t) >= 0.0
  {
    if rows != [] {
      TurnoverOnNonNegative(rows[..|rows| - 1], t);
    }
  }

  /** Appending one row adds its turnover to the day it is stamped with,
      if that day is listed, and to no other. */
  lemma {:induction false} DailyTurnoverAppend(rows: seq<TurnoverRow>, x: TurnoverRow, times: seq<int>)
    requires IncreasingTimes(times)
    ensures SumReals(DailyTurnover(rows + [x], times)) ==
            SumReals(DailyTurnover(rows, times)) + (if x.t in times then x.turnover else 0.0)
    decreases |times|
  {
    if times != [] {
      var n := |times|;
      var prefix := times[..n - 1];
      assert IncreasingTimes(prefix);
      DailyTurnoverAppend(rows, x, prefix);
      assert (rows + [x])[..|rows + [x]| - 1] == rows;
      assert DailyTurnover(rows + [x], times)[..n - 1] == DailyTurnover(rows + [x], prefix);
      assert DailyTurnover(rows, times)[..n - 1] == DailyTurnover(rows, prefix);
      assert x.t in times <==> x.t in prefix || x.t == times[n - 1];
      assert x.t in prefix ==> x.t != times[n - 1];
    }
  }

  /** Reindexing onto the timeline loses nothing when every fill is stamped
      with a timeline timestamp: the daily series sums to the total turnover
      of all fills. */
  lemma {:induction false} DailyTurnoverConserved(rows: seq<TurnoverRow>, times: seq<int>)
    requires IncreasingTimes(times)
    requires forall i :: 0 <= i < |rows| ==> rows[i].t in times
    ensures SumReals(DailyTurnover(rows, times)) == SumReals(Turnovers(rows))
    decreases |rows|
  {
    if rows == [] {
      forall i | 0 <= i < |times| ensures DailyTurnover(rows, times)[i] == 0.0 {
        NoFillsNoTurnover(rows, times[i]);
      }
      SumConstant(DailyTurnover(rows, times), 0.0);
    } else {
      var n := |rows|;
      var prefix := rows[..n - 1];
      DailyTurnoverConserved(prefix, times);
      DailyTurnoverAppend(prefix, rows[n - 1], times);
      assert prefix + [rows[n - 1]] == rows;
      assert Turnovers(rows)[..n - 1] == Turnovers(prefix);
    }
  }

  // ------------------------------------------------------- market events

  /** Every listed symbol has a series with at most one row at `t`. */
  predicate Listed(data: map<Symbol, seq<Row>>, symbols: seq<Symbol>, t: int)
  {
    forall i :: 0 <= i < |symbols| ==> symbols[i] in data && UniqueAt(data[symbols[i]], t)
  }

  /** The store's own symbol list is listed at every time once no series
      repeats a timestamp. */
  lemma ListedEverywhere(data: map<Symbol, seq<Row>>, symbols: seq<Symbol>, t: int)
    requires NoRepeatedTimes(data)
    requires forall s :: s in data <==> s in symbols
    ensures Listed(data, symbols, t)
  {
    forall i | 0 <= i < |symbols| ensures symbols[i] in data && UniqueAt(data[symbols[i]], t) {
      StrictlyIncreasingUnique(data[symbols[i]], t);
    }
  }

  /** The market events of one timestep for the first `n` listed
      symbols: one per symbol that has a bar at `t`, in list order. */
  function MarketEventsAt(data: map<Symbol, seq<Row>>, symbols: seq<Symbol>, t: int, n: nat): (es: seq<Event>)
    requires Listed(data, symbols, t) && n <= |symbols|
    ensures |es| <= n
    ensures forall e :: e in es ==> e.Market? && e.symbol in data
  {
    if n == 0 then []
    else
      var es := MarketEventsAt(data, symbols, t, n - 1);
      var bar := BarAt(data[symbols[n - 1]], t);
      if bar.Some? then es + [Market(t, symbols[n - 1], bar.value)] else es
  }

  /** Each market event carries its symbol's bar at `t`, and every listed
      symbol with a bar at `t` has its event. */
  lemma {:induction false} MarketEventsShape(data: map<Symbol, seq<Row>>, symbols: seq<Symbol>, t: int, n: nat)
    requires Listed(data, symbols, t) && n <= |symbols|
    ensures forall e :: e in MarketEventsAt(data, symbols, t, n) ==>
              e.Market? && e.t == t && e.symbol in symbols[..n] && e.symbol in data && BarAt(data[e.symbol], t) == Some(e.bar)
    ensures forall i :: 0 <= i < n && BarAt(data[symbols[i]], t).Some? ==>
              Market(t, symbols[i], BarAt(data[symbols[i]], t).value) in MarketEventsAt(data, symbols, t, n)
  {
    if n > 0 {
      MarketEventsShape(data, symbols, t, n - 1);
      assert forall s :: s in symbols[..n] <==> s in symbols[..n - 1] || s == symbols[n - 1];
    }
  }

  function EventSymbols(es: seq<Event>): (r: seq<Symbol>)
    ensures |r| == |es|
    ensures forall i :: 0 <= i < |es| ==> r[i] == es[i].symbol
  {
    seq(|es|, i requires 0 <= i < |es| => es[i].symbol)
  }

  /** Over a sorted, duplicate-free symbol list the market events come out
      in strictly ascending symbol order, one per symbol. */
  lemma {:induction false} MarketEventsSorted(data: map<Symbol, seq<Row>>, symbols: seq<Symbol>, t: int, n: nat)
    requires Listed(data, symbols, t) && n <= |symbols|
    requires SortedBy(symbols, StrLe) && Distinct(symbols)
    ensures SortedBy(EventSymbols(MarketEventsAt(data, symbols, t, n)), StrLe)
    ensures Distinct(EventSymbols(MarketEventsAt(data, symbols, t, n)))
  {
    if n > 0 {
      MarketEventsSorted(data, symbols, t, n - 1);
      MarketEventsShape(data, symbols, t, n - 1);
      var es := MarketEventsAt(data, symbols, t, n - 1);
      var last := symbols[n - 1];
      forall y | y in EventSymbols(es) ensures StrLe(y, last) && y != last {
        var j :| 0 <= j < |es| && EventSymbols(es)[j] == y;
        assert es[j] in es;
        var k :| 0 <= k < n - 1 && symbols[..n - 1][k] == y;
        assert symbols[k] == y;
      }
      var bar := BarAt(data[last], t);
      if bar.Some? {
        assert EventSymbols(es + [Market(t, last, bar.value)]) == EventSymbols(es) + [last];
        SnocSortedDistinct(EventSymbols(es), last);
      }
    }
  }

  lemma SnocSortedDistinct(xs: seq<Symbol>, x: Symbol)
    requires SortedBy(xs, StrLe) && Distinct(xs)
    requires forall y :: y in xs ==> StrLe(y, x) && y != x
    ensures SortedBy(xs + [x], StrLe) && Distinct(xs + [x])
  {
    var ys := xs + [x];
    forall i, j | 0 <= i < j < |ys| ensures StrLe(ys[i], ys[j]) && ys[i] != ys[j] {
      if j == |xs| {
        assert ys[i] == xs[i] && xs[i] in xs;
      } else {
        assert ys[i] == xs[i] && ys[j] == xs[j];
      }
    }
  }

  // ------------------------------------------------------ drain potential

  /** How many more dequeues an event can cause, itself included, along
      the chain Market, Signal, Order, Fill. */
  function Weight(e: Event): nat
  {
    match e
    case Market(_, _, _) => 4
    case Signal(_, _, _, _) => 3
    case Order(_, _, _, _, _) => 2
    case Fill(_, _, _, _, _, _, _, _) => 1
  }

  function Potential(es: seq<Event>): nat
  {
    if es == [] then 0 else Weight(es[0]) + Potential(es[1..])
  }

  lemma {:induction false} PotentialAppend(a: seq<Event>, b: seq<Event>)
    ensures Potential(a + b) == Potential(a) + Potential(b)
    decreases |a|
  {
    if a != [] {
      PotentialAppend(a[1..], b);
      assert (a + b)[1..] == a[1..] + b;
      assert Potential(a + b) == Weight(a[0]) + Potential(a[1..] + b);
    } else {
      assert a + b == b;
    }
  }

  /** A queue of market events only can cause at most four dequeues each. */
  lemma {:induction false} PotentialOfMarketEvents(es: seq<Event>)
    requires forall e :: e in es ==> e.Market?
    ensures Potential(es) == 4 * |es|
    decreases |es|
  {
    if es != [] {
      assert forall e :: e in es[1..] ==> e in es;
      PotentialOfMarketEvents(es[1..]);
    }
  }

  // ------------------------------------------------------------- dispatch

  /** Repeated timestamps make pandas label lookups raise; the run needs
      none in any series. */
  predicate NoRepeatedTimes(data: map<Symbol, seq<Row>>)
  {
    forall s :: s in data ==> StrictlyIncreasing(data[s])
  }

  /** The follow-up event the dispatch chain enqueues for `evt`. */
  function FollowUp(strategy: Strategy, o: Oracle, ecfg: ExecConfig, pcfg: PortfolioConfig,
                    data: map<Symbol, seq<Row>>, st: PortfolioState, evt: Event): (r: Option<Event>)
    requires evt.symbol in data && NoRepeatedTimes(data)
    ensures evt.Fill? ==> r.None?
    ensures r.Some? ==> r.value.symbol == evt.symbol && Weight(r.value) == Weight(evt) - 1
  {
    match evt
    case Market(_, _, _) => OnMarket(strategy, o, evt, data)
    case Signal(_, _, _, _) => OnSignal(pcfg, st, evt)
    case Order(_, _, _, _, _) => Execute(ecfg, o, evt, data)
    case Fill(_, _, _, _, _, _, _, _) => None
  }

  /** A fill produced by the chain is stamped with the time of one of its
      symbol's bars. */
  lemma FollowUpFillTime(strategy: Strategy, o: Oracle, ecfg: ExecConfig, pcfg: PortfolioConfig,
                         data: map<Symbol, seq<Row>>, st: PortfolioState, evt: Event)
    requires evt.symbol in data && NoRepeatedTimes(data)
    ensures var r := FollowUp(strategy, o, ecfg, pcfg, data, st, evt);
            r.Some? && r.value.Fill? ==> r.value.t in AllTimes(data)
  {
    var r := FollowUp(strategy, o, ecfg, pcfg, data, st, evt);
    if r.Some? && r.value.Fill? {
      assert evt.Order?;
      var rows := data[evt.symbol];
      var k := ExecIndex(ecfg, rows, evt.t);
      assert r == FillOnBar(ecfg, o, evt, rows, k);
      assert rows[k] in rows;
    }
  }

  /** Every queued event names a loaded symbol, and every queued fill is
      stamped with a timeline timestamp. */
  ghost predicate QueueOnTimeline(data: map<Symbol, seq<Row>>, timeline: seq<int>, items: seq<Event>)
  {
    forall e :: e in items ==> e.symbol in data && (e.Fill? ==> e.t in timeline)
  }

  /** One turn of the drain loop on values: the taken event is on the
      timeline, the queue that follows stays on the timeline, its potential
      strictly drops, and under the cash-floor hypotheses the drain
      invariant and non-negative cash carry over to the settled state. */
  lemma DrainStepKeeps(strategy: Strategy, o: Oracle, ecfg: ExecConfig, pcfg: PortfolioConfig,
                       data: map<Symbol, seq<Row>>, timeline: seq<int>, st: PortfolioState,
                       evt: Event, rest: seq<Event>, floor: bool)
    requires NoRepeatedTimes(data) && st.positions.Valid()
    requires forall x :: x in AllTimes(data) ==> x in timeline
    requires QueueOnTimeline(data, timeline, [evt] + rest)
    requires floor ==> BoundedCosts(ecfg) && PositiveOpens(data) && DrainSafe(st, [evt] + rest) && st.cash >= 0.0
    ensures evt.symbol in data && (evt.Fill? ==> evt.t in timeline)
    ensures var next := FollowUp(strategy, o, ecfg, pcfg, data, st, evt);
            var added := if next.Some? then [next.value] else [];
            var st' := if evt.Fill? then Settle(st, evt) else st;
            && QueueOnTimeline(data, timeline, rest + added)
            && Potential(rest + added) < Potential([evt] + rest)
            && (floor ==> DrainSafe(st', rest + added) && st'.cash >= 0.0)
  {
    assert evt in [evt] + rest;
    var next := FollowUp(strategy, o, ecfg, pcfg, data, st, evt);
    var added := if next.Some? then [next.value] else [];
    FollowUpFillTime(strategy, o, ecfg, pcfg, data, st, evt);
    forall e | e in rest + added
      ensures e.symbol in data && (e.Fill? ==> e.t in timeline)
    {
      if e in rest {
        assert e in [evt] + rest;
      }
    }
    PotentialAppend(rest, added);
    assert ([evt] + rest)[1..] == rest;
    if floor {
      DispatchKeepsCashFloor(strategy, o, ecfg, pcfg, data, st, evt, rest);
    }
  }

  // ------------------------------------------------------------ cash floor

  /** Execution costs that can neither push a price below zero nor make a
      fee exceed the value traded: no volatility slippage, no impact, and
      a half-spread and fee rate between 0 and 100%. */
  predicate BoundedCosts(cfg: ExecConfig)
  {
    && cfg.volK == 0.0 && cfg.impactK <= 0.0
    && 0.0 <= cfg.halfSpreadBps <= BpsPerUnit
    && 0.0 <= cfg.feeBps <= BpsPerUnit
  }

  predicate PositiveOpens(data: map<Symbol, seq<Row>>)
  {
    forall s, i :: s in data && 0 <= i < |data[s]| ==> data[s][i].bar.open > 0.0
  }

  /** A fill that settles without taking cash below zero: a BUY at a
      positive price, or a SELL whose fee does not exceed its value. */
  predicate SafeFill(f: Event)
    requires f.Fill?
  {
    && f.qty >= 1
    && (f.side == Buy ==> f.price > 0.0)
    && (f.side == Sell ==> f.price >= 0.0 && f.fee <= f.price * f.qty as real)
  }

  /** Under bounded costs and positive opens every fill is safe. */
  lemma ExecuteSafe(cfg: ExecConfig, o: Oracle, order: Event, data: map<Symbol, seq<Row>>)
    requires order.Order? && order.symbol in data && StrictlyIncreasing(data[order.symbol])
    requires BoundedCosts(cfg) && PositiveOpens(data)
    requires Execute(cfg, o, order, data).Some?
    ensures SafeFill(Execute(cfg, o, order, data).value)
  {
    var rows := data[order.symbol];
    var k := ExecIndex(cfg, rows, order.t);
    FillOnBarSafe(cfg, o, order, rows, k);
  }

  lemma FillOnBarSafe(cfg: ExecConfig, o: Oracle, order: Event, rows: seq<Row>, k: nat)
    requires order.Order? && k < |rows| && TimeSorted(rows)
    requires BoundedCosts(cfg) && rows[k].bar.open > 0.0
    requires FillOnBar(cfg, o, order, rows, k).Some?
    ensures SafeFill(FillOnBar(cfg, o, order, rows, k).value)
  {
    var hist := HistoryAsOf(rows, rows[k].t);
    var base := rows[k].bar.open;
    var qty := CappedQty(cfg, o, order.qty, hist);
    var slip := SlipBps(cfg, o, hist);
    var impact := ImpactBps(cfg, o, hist, base, qty);
    assert FillOnBar(cfg, o, order, rows, k) == Some(FillAt(cfg, order, rows[k].t, base, qty, slip, impact));
    assert qty >= 1;
    NoSlipWithoutVolK(cfg, o, hist);
    ImpactGated(cfg, o, hist, base, qty);
    assert impact == 0.0;
    FillAtSafe(cfg, order, rows[k].t, base, qty, slip, impact);
  }

  lemma NoSlipWithoutVolK(cfg: ExecConfig, o: Oracle, hist: seq<Row>)
    requires cfg.volK == 0.0
    ensures SlipBps(cfg, o, hist) == 0.0
  {
  }

  lemma FillAtSafe(cfg: ExecConfig, order: Event, t: int, base: real, qty: int, slip: real, impact: real)
    requires order.Order? && BoundedCosts(cfg) && base > 0.0 && qty >= 1
    requires slip == 0.0 && impact == 0.0
    ensures SafeFill(FillAt(cfg, order, t, base, qty, slip, impact))
  {
    var f := FillAt(cfg, order, t, base, qty, slip, impact);
    SafePrice(order.side, base, cfg.halfSpreadBps);
    FeeWithinValue(cfg.feeBps, f.price, qty);
  }

  lemma SafePrice(side: Side, base: real, hs: real)
    requires base > 0.0 && 0.0 <= hs <= BpsPerUnit
    ensures side == Buy ==> EffectivePrice(side, base, hs, 0.0, 0.0) > 0.0
    ensures side == Sell ==> EffectivePrice(side, base, hs, 0.0, 0.0) >= 0.0
  {
    var spread := hs / BpsPerUnit;
    assert 0.0 <= spread <= 1.0;
    if side == Buy {
      assert EffectivePrice(side, base, hs, 0.0, 0.0) == base * (1.0 + spread) * 1.0;
    } else {
      MulMono(base, 0.0, 1.0 - spread);
      assert EffectivePrice(side, base, hs, 0.0, 0.0) == base * (1.0 - spread) * 1.0;
    }
  }

  lemma FeeWithinValue(feeBps: real, px: real, qty: int)
    requires 0.0 <= feeBps <= BpsPerUnit && px >= 0.0 && qty >= 0
    ensures FeeOn(feeBps, px, qty) <= px * qty as real
  {
    MulMono(px, 0.0, qty as real);
    MulMono(px * qty as real, feeBps / BpsPerUnit, 1.0);
  }

  /** What the drain keeps true of the waiting events: at most one per
      symbol, every SELL order or fill covered by the holding, and every
      fill safe. */
  ghost predicate DrainSafe(st: PortfolioState, items: seq<Event>)
  {
    && Distinct(EventSymbols(items))
    && (forall e :: e in items && (e.Order? || e.Fill?) && e.side == Sell ==> e.qty <= PositionOf(st, e.symbol))
    && (forall e :: e in items && e.Fill? ==> SafeFill(e))
  }

  /** The rest of the queue with the follow-up appended still holds one
      event per symbol, the follow-up having the taken event's symbol. */
  lemma DistinctAfterHandling(evt: Event, rest: seq<Event>, added: seq<Event>)
    requires Distinct(EventSymbols([evt] + rest))
    requires forall e :: e in added ==> e.symbol == evt.symbol
    requires |added| <= 1
    ensures Distinct(EventSymbols(rest + added))
    ensures forall e :: e in rest ==> e.symbol != evt.symbol
  {
    var all := [evt] + rest;
    forall e | e in rest ensures e.symbol != evt.symbol {
      var k :| 0 <= k < |rest| && rest[k] == e;
      assert all[k + 1] == e && all[0] == evt;
    }
    var r := rest + added;
    forall i, j | 0 <= i < j < |r| ensures r[i].symbol != r[j].symbol {
      if j < |rest| {
        assert all[i + 1] == r[i] && all[j + 1] == r[j];
      } else {
        assert r[i] in rest && r[j] in added;
      }
    }
  }

  /** Taking an event and appending a follow-up that meets the invariant
      for an unchanged state keeps the invariant. */
  lemma QueueStepSafe(st: PortfolioState, evt: Event, rest: seq<Event>, added: seq<Event>)
    requires DrainSafe(st, [evt] + rest)
    requires |added| <= 1 && forall e :: e in added ==> e.symbol == evt.symbol
    requires forall e :: e in added && (e.Order? || e.Fill?) && e.side == Sell ==> e.qty <= PositionOf(st, e.symbol)
    requires forall e :: e in added && e.Fill? ==> SafeFill(e)
    ensures DrainSafe(st, rest + added)
  {
    DistinctAfterHandling(evt, rest, added);
    assert forall e :: e in rest ==> e in [evt] + rest;
  }

  /** Settling a safe fill keeps cash non-negative and leaves the holdings
      the other waiting events rely on alone. */
  lemma FillKeepsCashFloor(st: PortfolioState, evt: Event, rest: seq<Event>)
    requires evt.Fill? && st.positions.Valid()
    requires DrainSafe(st, [evt] + rest) && st.cash >= 0.0
    ensures DrainSafe(Settle(st, evt), rest) && Settle(st, evt).cash >= 0.0
  {
    assert evt in [evt] + rest;
    SettleKeepsCash(st, evt);
    SettleKeepsOthers(st, evt, rest);
  }

  lemma SettleKeepsCash(st: PortfolioState, evt: Event)
    requires evt.Fill? && st.positions.Valid() && SafeFill(evt) && st.cash >= 0.0
    requires evt.side == Sell ==> evt.qty <= PositionOf(st, evt.symbol)
    ensures Settle(st, evt).cash >= 0.0
  {
    if evt.side == Buy {
      if Settles(st, evt) {
        BuyKeepsCashNonNegative(st, evt);
      } else {
        SettleFrame(st, evt);
      }
    } else {
      assert MinInt(evt.qty, PositionOf(st, evt.symbol)) == evt.qty;
      SellSettlement(st, evt);
    }
  }

  lemma SettleKeepsOthers(st: PortfolioState, evt: Event, rest: seq<Event>)
    requires evt.Fill? && st.positions.Valid()
    requires DrainSafe(st, [evt] + rest)
    ensures DrainSafe(Settle(st, evt), rest)
  {
    DistinctAfterHandling(evt, rest, []);
    assert rest + [] == rest;
    assert forall e :: e in rest ==> e in [evt] + rest;
    SettleFrame(st, evt);
  }

  /** One dispatch keeps the drain invariant and keeps cash non-negative:
      a SELL sells its whole quantity, so its proceeds cover its fee, and a
      BUY is cut down to what cash can pay for. */
  lemma DispatchKeepsCashFloor(strategy: Strategy, o: Oracle, ecfg: ExecConfig, pcfg: PortfolioConfig,
                               data: map<Symbol, seq<Row>>, st: PortfolioState, evt: Event, rest: seq<Event>)
    requires NoRepeatedTimes(data) && BoundedCosts(ecfg) && PositiveOpens(data)
    requires st.positions.Valid() && evt.symbol in data
    requires DrainSafe(st, [evt] + rest) && st.cash >= 0.0
    ensures var next := FollowUp(strategy, o, ecfg, pcfg, data, st, evt);
            var st' := if evt.Fill? then Settle(st, evt) else st;
            DrainSafe(st', rest + (if next.Some? then [next.value] else [])) && st'.cash >= 0.0
  {
    var next := FollowUp(strategy, o, ecfg, pcfg, data, st, evt);
    var added := if next.Some? then [next.value] else [];
    if evt.Fill? {
      FillKeepsCashFloor(st, evt, rest);
      assert rest + added == rest;
    } else {
      if evt.Order? && next.Some? {
        ExecuteSafe(ecfg, o, evt, data);
      }
      QueueStepSafe(st, evt, rest, added);
    }
  }

  // ------------------------------------------------------------ drain on values

  /** What draining a queue leaves behind: the portfolio state and the
      fills settled, in the order they were taken. */
  datatype Drained = Drained(state: PortfolioState, fills: seq<Event>)

  /** The inner `while not q.empty()` loop on values: take the head, settle
      it when it is a fill, put its follow-up at the tail, and go on until
      the queue is empty. Every fill taken is recorded; each dequeue
      lowers the queue's potential, so the fills are at most that many. */
  function DrainQueue(strategy: Strategy, o: Oracle, ecfg: ExecConfig, pcfg: PortfolioConfig,
                      data: map<Symbol, seq<Row>>, st: PortfolioState, items: seq<Event>): (r: Drained)
    requires NoRepeatedTimes(data) && st.positions.Valid()
    requires forall e :: e in items ==> e.symbol in data
    ensures r.state.positions.Valid()
    ensures forall f :: f in r.fills ==> f.Fill? && f.symbol in data
    ensures |r.fills| <= Potential(items)
    decreases Potential(items)
  {
    if items == [] then Drained(st, [])
    else
      var d := DrainQueue(strategy, o, ecfg, pcfg, data, AfterSettle(st, items[0]),
                          AfterTake(strategy, o, ecfg, pcfg, data, st, items));
      Drained(d.state, (if items[0].Fill? then [items[0]] else []) + d.fills)
  }

  /** Settling the fills in order, one after another. */
  function SettleAll(st: PortfolioState, fills: seq<Event>): (r: PortfolioState)
    requires st.positions.Valid() && forall f :: f in fills ==> f.Fill?
    ensures r.positions.Valid()
    ensures fills == [] ==> r == st
    decreases |fills|
  {
    if fills == [] then st else SettleAll(Settle(st, fills[0]), fills[1..])
  }

  /** The queue a dequeue leaves: the rest with the follow-up at the tail.
      It has a lower potential than the queue it came from. */
  function AfterTake(strategy: Strategy, o: Oracle, ecfg: ExecConfig, pcfg: PortfolioConfig,
                     data: map<Symbol, seq<Row>>, st: PortfolioState, items: seq<Event>): (rest: seq<Event>)
    requires NoRepeatedTimes(data) && items != []
    requires forall e :: e in items ==> e.symbol in data
    ensures forall e :: e in rest ==> e.symbol in data
    ensures Potential(rest) < Potential(items)
  {
    var next := FollowUp(strategy, o, ecfg, pcfg, data, st, items[0]);
    var added := if next.Some? then [next.value] else [];
    assert items == [items[0]] + items[1..];
    PotentialAppend(items[1..], added);
    assert forall e :: e in items[1..] ==> e in items;
    items[1..] + added
  }

  /** The state after settling the head when it is a fill. */
  function AfterSettle(st: PortfolioState, evt: Event): (st': PortfolioState)
    requires st.positions.Valid()
    ensures st'.positions.Valid()
  {
    if evt.Fill? then Settle(st, evt) else st
  }

  /** One turn of `DrainQueue`: the head is settled and recorded when it is
      a fill, and the drain goes on over the rest and the follow-up. */
  lemma DrainQueueStep(strategy: Strategy, o: Oracle, ecfg: ExecConfig, pcfg: PortfolioConfig,
                       data: map<Symbol, seq<Row>>, st: PortfolioState, items: seq<Event>)
    requires NoRepeatedTimes(data) && st.positions.Valid() && items != []
    requires forall e :: e in items ==> e.symbol in data
    ensures var rest := AfterTake(strategy, o, ecfg, pcfg, data, st, items);
            && (forall e :: e in rest ==> e.symbol in data)
            && Potential(rest) < Potential(items)
            && var d := DrainQueue(strategy, o, ecfg, pcfg, data, AfterSettle(st, items[0]), rest);
               DrainQueue(strategy, o, ecfg, pcfg, data, st, items)
               == Drained(d.state, (if items[0].Fill? then [items[0]] else []) + d.fills)
  {
  }

  /** The drain loop's bookkeeping: the fills taken so far followed by
      what draining the current queue from the current state yields add
      up to the whole drain, and the turnover rows booked follow the fills
      taken. */
  ghost predicate DrainTracks(strategy: Strategy, o: Oracle, ecfg: ExecConfig, pcfg: PortfolioConfig,
                              data: map<Symbol, seq<Row>>, whole: Drained, taken: seq<Event>,
                              st: PortfolioState, items: seq<Event>, rows0: seq<TurnoverRow>, rows: seq<TurnoverRow>)
  {
    && NoRepeatedTimes(data) && st.positions.Valid()
    && (forall e :: e in items ==> e.symbol in data)
    && (forall f :: f in taken ==> f.Fill?)
    && rows == rows0 + FillTurnovers(taken)
    && var d := DrainQueue(strategy, o, ecfg, pcfg, data, st, items);
       whole == Drained(d.state, taken + d.fills)
  }

  lemma DrainTracksStart(strategy: Strategy, o: Oracle, ecfg: ExecConfig, pcfg: PortfolioConfig,
                         data: map<Symbol, seq<Row>>, st: PortfolioState, items: seq<Event>, rows0: seq<TurnoverRow>)
    requires NoRepeatedTimes(data) && st.positions.Valid()
    requires forall e :: e in items ==> e.symbol in data
    ensures DrainTracks(strategy, o, ecfg, pcfg, data, DrainQueue(strategy, o, ecfg, pcfg, data, st, items),
                        [], st, items, rows0, rows0)
  {
    var d := DrainQueue(strategy, o, ecfg, pcfg, data, st, items);
    assert [] + d.fills == d.fills;
    assert FillTurnovers([]) == [];
  }

  lemma DrainTracksDone(strategy: Strategy, o: Oracle, ecfg: ExecConfig, pcfg: PortfolioConfig,
                        data: map<Symbol, seq<Row>>, whole: Drained, taken: seq<Event>,
                        st: PortfolioState, rows0: seq<TurnoverRow>, rows: seq<TurnoverRow>)
    requires DrainTracks(strategy, o, ecfg, pcfg, data, whole, taken, st, [], rows0, rows)
    ensures forall f :: f in whole.fills ==> f.Fill?
    ensures whole.state == st && rows == rows0 + FillTurnovers(whole.fills)
  {
    assert taken + [] == taken;
  }

  /** One turn of the drain loop keeps the bookkeeping. */
  lemma DrainTracksStep(strategy: Strategy, o: Oracle, ecfg: ExecConfig, pcfg: PortfolioConfig,
                        data: map<Symbol, seq<Row>>, whole: Drained, taken: seq<Event>,
                        st: PortfolioState, items: seq<Event>,
                        rows0: seq<TurnoverRow>, rows: seq<TurnoverRow>, rows': seq<TurnoverRow>)
    requires items != []
    requires DrainTracks(strategy, o, ecfg, pcfg, data, whole, taken, st, items, rows0, rows)
    requires items[0].Fill? ==> rows' == rows + [FillTurnover(items[0])]
    requires !items[0].Fill? ==> rows' == rows
    ensures DrainTracks(strategy, o, ecfg, pcfg, data, whole, taken + (if items[0].Fill? then [items[0]] else []),
                        AfterSettle(st, items[0]), AfterTake(strategy, o, ecfg, pcfg, data, st, items), rows0, rows')
  {
    DrainQueueStep(strategy, o, ecfg, pcfg, data, st, items);
    var head := if items[0].Fill? then [items[0]] else [];
    var d := DrainQueue(strategy, o, ecfg, pcfg, data, AfterSettle(st, items[0]),
                        AfterTake(strategy, o, ecfg, pcfg, data, st, items));
    assert whole == Drained(d.state, taken + (head + d.fills));
    AppendAssoc(taken, head, d.fills);
    FillTurnoversAppend(taken, head);
    assert FillTurnovers(head) == (if items[0].Fill? then [FillTurnover(items[0])] else []);
    assert rows' == rows0 + FillTurnovers(taken + head);
  }

  /** The drain changes the portfolio only by settling the fills it takes,
      in the order it takes them: market, signal and order events leave
      the state alone. */
  lemma {:induction false} DrainSettlesFills(strategy: Strategy, o: Oracle, ecfg: ExecConfig, pcfg: PortfolioConfig,
                                             data: map<Symbol, seq<Row>>, st: PortfolioState, items: seq<Event>)
    requires NoRepeatedTimes(data) && st.positions.Valid()
    requires forall e :: e in items ==> e.symbol in data
    ensures var d := DrainQueue(strategy, o, ecfg, pcfg, data, st, items);
            d.state == SettleAll(st, d.fills)
    decreases Potential(items)
  {
    if items != [] {
      var evt := items[0];
      DrainQueueStep(strategy, o, ecfg, pcfg, data, st, items);
      var rest := AfterTake(strategy, o, ecfg, pcfg, data, st, items);
      var st' := AfterSettle(st, evt);
      var d := DrainQueue(strategy, o, ecfg, pcfg, data, st', rest);
      DrainSettlesFills(strategy, o, ecfg, pcfg, data, st', rest);
      var whole := DrainQueue(strategy, o, ecfg, pcfg, data, st, items);
      if evt.Fill? {
        assert whole.fills == [evt] + d.fills;
        assert whole.fills[1..] == d.fills;
        assert SettleAll(st, whole.fills) == SettleAll(Settle(st, evt), d.fills);
      } else {
        assert whole.fills == d.fills && st' == st;
      }
    }
  }

  /** Under the cash-floor hypotheses a drain that starts from a safe queue
      and non-negative cash ends with non-negative cash. */
  lemma {:induction false} DrainKeepsCashFloor(strategy: Strategy, o: Oracle, ecfg: ExecConfig, pcfg: PortfolioConfig,
                                               data: map<Symbol, seq<Row>>, st: PortfolioState, items: seq<Event>)
    requires NoRepeatedTimes(data) && st.positions.Valid()
    requires forall e :: e in items ==> e.symbol in data
    requires BoundedCosts(ecfg) && PositiveOpens(data)
    requires DrainSafe(st, items) && st.cash >= 0.0
    ensures DrainQueue(strategy, o, ecfg, pcfg, data, st, items).state.cash >= 0.0
    decreases Potential(items)
  {
    if items != [] {
      var evt := items[0];
      assert items == [evt] + items[1..];
      assert evt in items;
      DrainQueueStep(strategy, o, ecfg, pcfg, data, st, items);
      DispatchKeepsCashFloor(strategy, o, ecfg, pcfg, data, st, evt, items[1..]);
      DrainKeepsCashFloor(strategy, o, ecfg, pcfg, data, AfterSettle(st, evt),
                          AfterTake(strategy, o, ecfg, pcfg, data, st, items));
    }
  }

  /** The turnover rows booked for a run of fills, one per fill. */
  function FillTurnovers(fills: seq<Event>): (rows: seq<TurnoverRow>)
    requires forall f :: f in fills ==> f.Fill?
    ensures |rows| == |fills|
    ensures forall i :: 0 <= i < |fills| ==> rows[i].t == fills[i].t && rows[i].turnover >= 0.0
  {
    seq(|fills|, i requires 0 <= i < |fills| => FillTurnover(fills[i]))
  }

  /** Concatenation regroups; stated once so the heavy drain contexts
      need not rediscover it. */
  lemma AppendAssoc<T>(a: seq<T>, b: seq<T>, c: seq<T>)
    ensures a + (b + c) == (a + b) + c
  {
  }

  lemma FillTurnoversAppend(a: seq<Event>, b: seq<Event>)
    requires forall f :: f in a ==> f.Fill?
    requires forall f :: f in b ==> f.Fill?
    ensures forall f :: f in a + b ==> f.Fill?
    ensures FillTurnovers(a + b) == FillTurnovers(a) + FillTurnovers(b)
  {
    assert forall f :: f in a + b ==> f in a || f in b;
  }

  // ----------------------------------------------------------------- ledger

  /** `mark_to_market` on values: last prices move to the closes at `t`
      for the symbols with a bar there; cash and positions stay. */
  function Marked(st: PortfolioState, data: map<Symbol, seq<Row>>, symbols: seq<Symbol>, t: int): (m: PortfolioState)
    requires Listed(data, symbols, t)
    ensures m.cash == st.cash && m.positions == st.positions
    ensures forall s :: s in m.lastPrice <==> s in st.lastPrice || (s in symbols && BarAt(data[s], t).Some?)
  {
    st.(lastPrice := MarkPrices(st.lastPrice, data, symbols, t))
  }

  /** The ledger row of a timestep: the state before any of the step's
      fills, with last prices moved to the closes at `t`. */
  function MarkedRow(st: PortfolioState, data: map<Symbol, seq<Row>>, symbols: seq<Symbol>, t: int): (row: LedgerRow)
    requires Listed(data, symbols, t)
    ensures row.t == t && row.cash == st.cash
    ensures row.positions == PositionColumns(st, symbols)
  {
    var marked := Marked(st, data, symbols, t);
    LedgerRow(t, marked.cash, Equity(marked), PositionColumns(marked, symbols))
  }

  function LedgerTimes(ledger: seq<LedgerRow>): (ts: seq<int>)
    ensures |ts| == |ledger|
    ensures forall i :: 0 <= i < |ledger| ==> ts[i] == ledger[i].t
  {
    seq(|ledger|, i requires 0 <= i < |ledger| => ledger[i].t)
  }

  function LedgerEquity(ledger: seq<LedgerRow>): (eq: seq<real>)
    ensures |eq| == |ledger|
    ensures forall i :: 0 <= i < |ledger| ==> eq[i] == ledger[i].equity
  {
    seq(|ledger|, i requires 0 <= i < |ledger| => ledger[i].equity)
  }

  /** `BacktestResult`: the equity curve with its timestamps, the metrics,
      the ledger and the returns. */
  datatype BacktestResult = BacktestResult(times: seq<int>, equity: seq<real>, metrics: Metrics,
                                           ledger: seq<LedgerRow>, rets: seq<real>)

  /** What `run` computes after the loop from the ledger and the turnover
      rows (the ledger is already in time order, so sorting keeps it). */
  function Summarise(o: Oracle, ledger: seq<LedgerRow>, rows: seq<TurnoverRow>): (r: BacktestResult)
  {
    var times := LedgerTimes(ledger);
    var eq := LedgerEquity(ledger);
    BacktestResult(times, eq, ComputeMetrics(o, times, eq, DailyTurnover(rows, times)), ledger, PctChange(o, eq))
  }

  /** The reported turnover is the total over every fill of the run. */
  lemma SummaryTurnoverIsTotal(o: Oracle, ledger: seq<LedgerRow>, rows: seq<TurnoverRow>)
    requires IncreasingTimes(LedgerTimes(ledger))
    requires forall r :: r in rows ==> r.t in LedgerTimes(ledger)
    ensures Summarise(o, ledger, rows).metrics.turnover == SumReals(Turnovers(rows))
  {
    assert forall i :: 0 <= i < |rows| ==> rows[i] in rows;
    DailyTurnoverConserved(rows, LedgerTimes(ledger));
  }

  /** What a run over some timestamps leaves behind: the portfolio state,
      the ledger rows and the fills settled, in order. */
  datatype Replayed = Replayed(state: PortfolioState, ledger: seq<LedgerRow>, fills: seq<Event>)

  /** One timestep of `run` on values: mark to market, then drain that
      timestep's market events from the marked state. */
  function StepDrained(strategy: Strategy, o: Oracle, ecfg: ExecConfig, pcfg: PortfolioConfig,
                       data: map<Symbol, seq<Row>>, symbols: seq<Symbol>, st: PortfolioState, t: int): (d: Drained)
    requires NoRepeatedTimes(data) && st.positions.Valid()
    requires forall s :: s in data <==> s in symbols
    ensures Listed(data, symbols, t)
    ensures d.state.positions.Valid()
    ensures forall f :: f in d.fills ==> f.Fill? && f.symbol in data
  {
    ListedEverywhere(data, symbols, t);
    DrainQueue(strategy, o, ecfg, pcfg, data, Marked(st, data, symbols, t), MarketEventsAt(data, symbols, t, |symbols|))
  }

  /** The outer loop of `run` on values: at each timestamp the ledger row
      is taken after marking to market, then that timestep's market events
      are drained from the marked state. */
  function Replay(strategy: Strategy, o: Oracle, ecfg: ExecConfig, pcfg: PortfolioConfig,
                  data: map<Symbol, seq<Row>>, symbols: seq<Symbol>, st: PortfolioState, times: seq<int>): (r: Replayed)
    requires NoRepeatedTimes(data) && st.positions.Valid()
    requires forall s :: s in data <==> s in symbols
    ensures r.state.positions.Valid()
    ensures |r.ledger| == |times| && forall i :: 0 <= i < |times| ==> r.ledger[i].t == times[i]
    ensures forall f :: f in r.fills ==> f.Fill? && f.symbol in data
    decreases |times|
  {
    if times == [] then Replayed(st, [], [])
    else
      ListedEverywhere(data, symbols, times[0]);
      var d := StepDrained(strategy, o, ecfg, pcfg, data, symbols, st, times[0]);
      var r := Replay(strategy, o, ecfg, pcfg, data, symbols, d.state, times[1..]);
      Replayed(r.state, [MarkedRow(st, data, symbols, times[0])] + r.ledger, d.fills + r.fills)
  }

  /** One timestep of `Replay`. */
  lemma ReplayStep(strategy: Strategy, o: Oracle, ecfg: ExecConfig, pcfg: PortfolioConfig,
                   data: map<Symbol, seq<Row>>, symbols: seq<Symbol>, st: PortfolioState, times: seq<int>)
    requires NoRepeatedTimes(data) && st.positions.Valid() && times != []
    requires forall s :: s in data <==> s in symbols
    ensures Listed(data, symbols, times[0])
    ensures var d := DrainQueue(strategy, o, ecfg, pcfg, data, Marked(st, data, symbols, times[0]),
                                MarketEventsAt(data, symbols, times[0], |symbols|));
            var r := Replay(strategy, o, ecfg, pcfg, data, symbols, d.state, times[1..]);
            Replay(strategy, o, ecfg, pcfg, data, symbols, st, times)
            == Replayed(r.state, [MarkedRow(st, data, symbols, times[0])] + r.ledger, d.fills + r.fills)
  {
    ListedEverywhere(data, symbols, times[0]);
  }

  /** Under the cash-floor hypotheses, a run from non-negative cash books
      only ledger rows with non-negative cash and ends with non-negative
      cash. */
  lemma {:induction false} ReplayKeepsCashFloor(strategy: Strategy, o: Oracle, ecfg: ExecConfig, pcfg: PortfolioConfig,
                                                data: map<Symbol, seq<Row>>, symbols: seq<Symbol>, st: PortfolioState,
                                                times: seq<int>)
    requires NoRepeatedTimes(data) && st.positions.Valid()
    requires forall s :: s in data <==> s in symbols
    requires SortedBy(symbols, StrLe) && Distinct(symbols)
    requires BoundedCosts(ecfg) && PositiveOpens(data) && st.cash >= 0.0
    ensures var r := Replay(strategy, o, ecfg, pcfg, data, symbols, st, times);
            r.state.cash >= 0.0 && forall i :: 0 <= i < |r.ledger| ==> r.ledger[i].cash >= 0.0
    decreases |times|
  {
    if times != [] {
      var t := times[0];
      ReplayStep(strategy, o, ecfg, pcfg, data, symbols, st, times);
      var markets := MarketEventsAt(data, symbols, t, |symbols|);
      var marked := Marked(st, data, symbols, t);
      MarketEventsShape(data, symbols, t, |symbols|);
      MarketEventsSorted(data, symbols, t, |symbols|);
      assert DrainSafe(marked, markets);
      DrainKeepsCashFloor(strategy, o, ecfg, pcfg, data, marked, markets);
      var d := DrainQueue(strategy, o, ecfg, pcfg, data, marked, markets);
      ReplayKeepsCashFloor(strategy, o, ecfg, pcfg, data, symbols, d.state, times[1..]);
    }
  }

  /** The run loop's bookkeeping: the ledger rows and fills so far,
      followed by what replaying the rest of the timeline from the current
      state yields, add up to the whole run, and the turnover rows follow
      the fills so far. */
  ghost predicate ReplayTracks(strategy: Strategy, o: Oracle, ecfg: ExecConfig, pcfg: PortfolioConfig,
                               data: map<Symbol, seq<Row>>, symbols: seq<Symbol>, whole: Replayed,
                               ledger: seq<LedgerRow>, fills: seq<Event>, st: PortfolioState, times: seq<int>,
                               rows: seq<TurnoverRow>)
  {
    && NoRepeatedTimes(data) && st.positions.Valid()
    && (forall s :: s in data <==> s in symbols)
    && (forall f :: f in fills ==> f.Fill?)
    && rows == FillTurnovers(fills)
    && var r := Replay(strategy, o, ecfg, pcfg, data, symbols, st, times);
       whole == Replayed(r.state, ledger + r.ledger, fills + r.fills)
  }

  lemma ReplayTracksStart(strategy: Strategy, o: Oracle, ecfg: ExecConfig, pcfg: PortfolioConfig,
                          data: map<Symbol, seq<Row>>, symbols: seq<Symbol>, st: PortfolioState, times: seq<int>)
    requires NoRepeatedTimes(data) && st.positions.Valid()
    requires forall s :: s in data <==> s in symbols
    ensures ReplayTracks(strategy, o, ecfg, pcfg, data, symbols, Replay(strategy, o, ecfg, pcfg, data, symbols, st, times),
                         [], [], st, times, [])
  {
    var r := Replay(strategy, o, ecfg, pcfg, data, symbols, st, times);
    assert [] + r.ledger == r.ledger && [] + r.fills == r.fills;
    assert FillTurnovers([]) == [];
  }

  /** Once the whole timeline is replayed, the loop's ledger, state and
      turnover rows are the run's, its ledger carries the timeline's
      timestamps, and under the cash-floor hypotheses no ledger row has
      negative cash. */
  lemma ReplayTracksDone(strategy: Strategy, o: Oracle, ecfg: ExecConfig, pcfg: PortfolioConfig,
                         data: map<Symbol, seq<Row>>, symbols: seq<Symbol>, st0: PortfolioState, times: seq<int>,
                         whole: Replayed, ledger: seq<LedgerRow>, fills: seq<Event>, st: PortfolioState,
                         rows: seq<TurnoverRow>)
    requires NoRepeatedTimes(data) && st0.positions.Valid()
    requires forall s :: s in data <==> s in symbols
    requires SortedBy(symbols, StrLe) && Distinct(symbols)
    requires whole == Replay(strategy, o, ecfg, pcfg, data, symbols, st0, times)
    requires ReplayTracks(strategy, o, ecfg, pcfg, data, symbols, whole, ledger, fills, st, [], rows)
    ensures forall f :: f in whole.fills ==> f.Fill?
    ensures ledger == whole.ledger && st == whole.state && rows == FillTurnovers(whole.fills)
    ensures LedgerTimes(ledger) == times
    ensures BoundedCosts(ecfg) && PositiveOpens(data) && st0.cash >= 0.0 ==>
              forall i :: 0 <= i < |ledger| ==> ledger[i].cash >= 0.0
  {
    assert ledger + [] == ledger && fills + [] == fills;
    if BoundedCosts(ecfg) && PositiveOpens(data) && st0.cash >= 0.0 {
      ReplayKeepsCashFloor(strategy, o, ecfg, pcfg, data, symbols, st0, times);
    }
  }

  /** One timestep of the run loop keeps the bookkeeping. */
  lemma ReplayTracksStep(strategy: Strategy, o: Oracle, ecfg: ExecConfig, pcfg: PortfolioConfig,
                         data: map<Symbol, seq<Row>>, symbols: seq<Symbol>, whole: Replayed,
                         ledger: seq<LedgerRow>, fills: seq<Event>, st: PortfolioState, times: seq<int>,
                         rows: seq<TurnoverRow>, st': PortfolioState, rows': seq<TurnoverRow>)
    requires times != []
    requires ReplayTracks(strategy, o, ecfg, pcfg, data, symbols, whole, ledger, fills, st, times, rows)
    ensures Listed(data, symbols, times[0])
    ensures var d := DrainQueue(strategy, o, ecfg, pcfg, data, Marked(st, data, symbols, times[0]),
                                MarketEventsAt(data, symbols, times[0], |symbols|));
            st' == d.state && rows' == rows + FillTurnovers(d.fills) ==>
              ReplayTracks(strategy, o, ecfg, pcfg, data, symbols, whole,
                           ledger + [MarkedRow(st, data, symbols, times[0])], fills + d.fills, st', times[1..], rows')
  {
    ReplayStep(strategy, o, ecfg, pcfg, data, symbols, st, times);
    var d := DrainQueue(strategy, o, ecfg, pcfg, data, Marked(st, data, symbols, times[0]),
                        MarketEventsAt(data, symbols, times[0], |symbols|));
    if st' == d.state && rows' == rows + FillTurnovers(d.fills) {
      var r := Replay(strategy, o, ecfg, pcfg, data, symbols, d.state, times[1..]);
      var row := MarkedRow(st, data, symbols, times[0]);
      FillTurnoversAppend(fills, d.fills);
      AppendAssoc(ledger, [row], r.ledger);
      AppendAssoc(fills, d.fills, r.fills);
    }
  }

  // ------------------------------------------------------------ the class

  class Backtester {
    const strategy: Strategy
    const execCfg: ExecConfig
    const oracle: Oracle
    const dataHandler: DataHandler
    const portfolio: Portfolio
    const queue: EventQueue
    var turnoverRows: seq<TurnoverRow>

    ghost predicate Valid()
      reads this, dataHandler, portfolio, queue
    {
      dataHandler.Valid() && portfolio.Valid() && queue.Valid()
    }

    /** The hypotheses of the cash floor. */
    ghost predicate CashFloorHypotheses()
      reads this, dataHandler
    {
      BoundedCosts(execCfg) && PositiveOpens(dataHandler.data)
    }

    /** Every booked turnover row is stamped with a timeline timestamp. */
    ghost predicate TurnoverOnTimeline()
      reads this, dataHandler
    {
      forall r :: r in turnoverRows ==> r.t in dataHandler.timeline && r.turnover >= 0.0
    }

    constructor Init(dh: DataHandler, strategy: Strategy, pcfg: PortfolioConfig, ecfg: ExecConfig, o: Oracle)
      requires dh.Valid()
      ensures Valid() && fresh(portfolio) && fresh(queue)
      ensures dataHandler == dh && this.strategy == strategy && execCfg == ecfg && oracle == o
      ensures portfolio.cfg == pcfg && portfolio.state == InitialState(pcfg, dh.symbols) && portfolio.history == []
      ensures queue.items == [] && turnoverRows == []
    {
      dataHandler := dh;
      this.strategy := strategy;
      execCfg := ecfg;
      oracle := o;
      portfolio := new Portfolio(pcfg, dh.symbols);
      queue := new EventQueue();
      turnoverRows := [];
    }

    /** `Backtester(data, strategy, portfolio_cfg, exec_cfg, period=...)`:
        slices the frames to the period when one is given, then loads them;
        a frame that fails validation fails construction. */
    static method Create(input: seq<(Symbol, Frame)>, strategy: Strategy, pcfg: PortfolioConfig, ecfg: ExecConfig,
                         o: Oracle, period: Option<(int, int)>) returns (r: Result<Backtester, ValidationError>)
      requires DistinctKeys(input)
      ensures r.Err? <==> FirstError(input).Some?
      ensures r.Err? ==> r.error == FirstError(input).value
      ensures r.Ok? ==> fresh(r.value) && r.value.Valid() && r.value.dataHandler.cursor == 0
      ensures r.Ok? ==> r.value.queue.items == [] && r.value.turnoverRows == [] && r.value.portfolio.history == []
      ensures r.Ok? ==> r.value.portfolio.state == InitialState(pcfg, r.value.dataHandler.symbols)
      ensures r.Ok? && period.Some? ==>
                forall x :: x in r.value.dataHandler.timeline ==> period.value.0 <= x <= period.value.1
    {
      var frames := input;
      if period.Some? {
        frames := SlicePeriod(input, period.value.0, period.value.1);
        SlicedValidation(input, frames, period.value.0, period.value.1);
      }
      var loaded := DataHandler.Load(frames);
      if loaded.Err? {
        return Err(loaded.error);
      }
      var dh := loaded.value;
      if period.Some? {
        SlicedTimesInPeriod(input, dh.data, period.value.0, period.value.1);
      }
      var b := new Backtester.Init(dh, strategy, pcfg, ecfg, o);
      return Ok(b);
    }

    /** The per-timestep loop over the symbols: one market event for each
        symbol with a bar at `t`, in symbol order. */
    method EnqueueMarketEvents(t: int)
      requires queue.Valid() && NoRepeatedTimes(dataHandler.data)
      requires forall s :: s in dataHandler.data <==> s in dataHandler.symbols
      modifies queue
      ensures queue.Valid()
      ensures queue.items == old(queue.items) + MarketEventsAt(dataHandler.data, dataHandler.symbols, t, |dataHandler.symbols|)
    {
      var symbols := dataHandler.symbols;
      ListedEverywhere(dataHandler.data, symbols, t);
      ghost var es: seq<Event> := [];
      for i := 0 to |symbols|
        invariant queue.Valid() && queue.items == old(queue.items) + es
        invariant es == MarketEventsAt(dataHandler.data, symbols, t, i)
      {
        var bar := dataHandler.GetBar(symbols[i], t);
        if bar.Some? {
          queue.Put(Market(t, symbols[i], bar.value));
          es := es + [Market(t, symbols[i], bar.value)];
        }
      }
    }

    /** One pass of the dispatch chain on a dequeued event. */
    method Dispatch(evt: Event) returns (next: Option<Event>)
      requires Valid() && NoRepeatedTimes(dataHandler.data) && evt.symbol in dataHandler.data
      modifies portfolio, this`turnoverRows
      ensures Valid()
      ensures next == FollowUp(strategy, oracle, execCfg, portfolio.cfg, dataHandler.data, old(portfolio.state), evt)
      ensures portfolio.state == (if evt.Fill? then Settle(old(portfolio.state), evt) else old(portfolio.state))
      ensures portfolio.history == old(portfolio.history)
      ensures evt.Fill? ==> turnoverRows == old(turnoverRows) + [FillTurnover(evt)]
      ensures !evt.Fill? ==> turnoverRows == old(turnoverRows)
    {
      if evt.Fill? {
        var basePrice := if evt.meta.Some? then evt.meta.value.basePrice else evt.price;
        assert basePrice == TurnoverPrice(evt);
        turnoverRows := turnoverRows + [TurnoverRow(evt.t, AbsReal(basePrice * evt.qty as real))];
        assert FillTurnover(evt) == TurnoverRow(evt.t, AbsReal(TurnoverPrice(evt) * evt.qty as real));
        assert TurnoverRow(evt.t, AbsReal(basePrice * evt.qty as real)) == FillTurnover(evt);
        assert turnoverRows == old(turnoverRows) + [FillTurnover(evt)];
        portfolio.OnFill(evt);
        next := None;
      } else {
        // Market -> on_market, Signal -> on_signal, Order -> execute
        next := FollowUp(strategy, oracle, execCfg, portfolio.cfg, dataHandler.data, portfolio.state, evt);
      }
    }
  
    /** The inner `while not q.empty()` loop: every event taken is
        dispatched and its follow-up, if any, put back. The loop ends
        after at most as many dequeues as the queue's potential. */
    method Drain() returns (ghost steps: nat)
      requires Valid() && NoRepeatedTimes(dataHandler.data)
      requires QueueOnTimeline(dataHandler.data, dataHandler.timeline, queue.items)
      requires TurnoverOnTimeline()
      requires CashFloorHypotheses() ==> DrainSafe(portfolio.state, queue.items) && portfolio.state.cash >= 0.0
      modifies portfolio, queue, this`turnoverRows
      ensures Valid() && queue.items == [] && TurnoverOnTimeline()
      ensures steps <= Potential(old(queue.items))
      ensures portfolio.history == old(portfolio.history)
      ensures CashFloorHypotheses() ==> portfolio.state.cash >= 0.0
      ensures var d := DrainQueue(strategy, oracle, execCfg, portfolio.cfg, dataHandler.data,
                                  old(portfolio.state), old(queue.items));
              portfolio.state == d.state && turnoverRows == old(turnoverRows) + FillTurnovers(d.fills)
    {
      steps := 0;
      ghost var taken: seq<Event> := [];
      ghost var whole := DrainQueue(strategy, oracle, execCfg, portfolio.cfg, dataHandler.data,
                                    portfolio.state, queue.items);
      DrainTracksStart(strategy, oracle, execCfg, portfolio.cfg, dataHandler.data,
                       portfolio.state, queue.items, turnoverRows);
      while !queue.Empty()
        invariant Valid() && TurnoverOnTimeline() && QueueOnTimeline(dataHandler.data, dataHandler.timeline, queue.items)
        invariant CashFloorHypotheses() ==> DrainSafe(portfolio.state, queue.items) && portfolio.state.cash >= 0.0
        invariant steps + Potential(queue.items) <= Potential(old(queue.items))
        invariant portfolio.history == old(portfolio.history)
        invariant DrainTracks(strategy, oracle, execCfg, portfolio.cfg, dataHandler.data, whole, taken,
                              portfolio.state, queue.items, old(turnoverRows), turnoverRows)
        decreases Potential(queue.items)
      {
        ghost var st := portfolio.state;
        ghost var items := queue.items;
        ghost var rows := turnoverRows;
        DrainOne();
        steps := steps + 1;
        DrainTracksStep(strategy, oracle, execCfg, portfolio.cfg, dataHandler.data, whole, taken,
                        st, items, old(turnoverRows), rows, turnoverRows);
        taken := taken + (if items[0].Fill? then [items[0]] else []);
      }
      DrainTracksDone(strategy, oracle, execCfg, portfolio.cfg, dataHandler.data, whole, taken,
                      portfolio.state, old(turnoverRows), turnoverRows);
    }

    /** One turn of the drain loop: take the head event, dispatch it and
        queue its follow-up; the queue's potential strictly drops. */
    method DrainOne()
      requires Valid() && NoRepeatedTimes(dataHandler.data) && queue.items != []
      requires QueueOnTimeline(dataHandler.data, dataHandler.timeline, queue.items) && TurnoverOnTimeline()
      requires CashFloorHypotheses() ==> DrainSafe(portfolio.state, queue.items) && portfolio.state.cash >= 0.0
      modifies portfolio, queue, this`turnoverRows
      ensures Valid() && TurnoverOnTimeline() && QueueOnTimeline(dataHandler.data, dataHandler.timeline, queue.items)
      ensures CashFloorHypotheses() ==> DrainSafe(portfolio.state, queue.items) && portfolio.state.cash >= 0.0
      ensures Potential(queue.items) < Potential(old(queue.items))
      ensures portfolio.history == old(portfolio.history)
      ensures portfolio.state == AfterSettle(old(portfolio.state), old(queue.items)[0])
      ensures queue.items == AfterTake(strategy, oracle, execCfg, portfolio.cfg, dataHandler.data,
                                       old(portfolio.state), old(queue.items))
      ensures old(queue.items)[0].Fill? ==> turnoverRows == old(turnoverRows) + [FillTurnover(old(queue.items)[0])]
      ensures !old(queue.items)[0].Fill? ==> turnoverRows == old(turnoverRows)
    {
      ghost var st := portfolio.state;
      ghost var items := queue.items;
      assert items == [items[0]] + items[1..];
      DrainStepKeeps(strategy, oracle, execCfg, portfolio.cfg, dataHandler.data, dataHandler.timeline,
                     st, items[0], items[1..], CashFloorHypotheses());
      var evt := queue.Get();
      var next := Dispatch(evt);
      if next.Some? {
        queue.Put(next.value);
      }
      assert queue.items == items[1..] + (if next.Some? then [next.value] else []);
    }

    /** One pass of the outer loop: advance the clock, enqueue the
        timestep's market events, mark to market (one ledger row, taken
        before any fill of the step settles), then drain the queue. */
    method Step() returns (t: int, ghost steps: nat)
      requires Valid() && NoRepeatedTimes(dataHandler.data) && dataHandler.HasNext()
      requires queue.items == [] && TurnoverOnTimeline()
      requires CashFloorHypotheses() ==> portfolio.state.cash >= 0.0
      modifies dataHandler`cursor, portfolio, queue, this`turnoverRows
      ensures Valid() && queue.items == [] && TurnoverOnTimeline()
      ensures dataHandler.cursor == old(dataHandler.cursor) + 1 && t == dataHandler.timeline[old(dataHandler.cursor)]
      ensures Listed(dataHandler.data, dataHandler.symbols, t)
      ensures portfolio.history == old(portfolio.history) + [MarkedRow(old(portfolio.state), dataHandler.data, dataHandler.symbols, t)]
      ensures steps <= 4 * |MarketEventsAt(dataHandler.data, dataHandler.symbols, t, |dataHandler.symbols|)|
      ensures CashFloorHypotheses() ==> portfolio.state.cash >= 0.0
      ensures var d := DrainQueue(strategy, oracle, execCfg, portfolio.cfg, dataHandler.data,
                                  Marked(old(portfolio.state), dataHandler.data, dataHandler.symbols, t),
                                  MarketEventsAt(dataHandler.data, dataHandler.symbols, t, |dataHandler.symbols|));
              portfolio.state == d.state && turnoverRows == old(turnoverRows) + FillTurnovers(d.fills)
    {
      var next := dataHandler.NextTime();
      t := next.value;
      ListedEverywhere(dataHandler.data, dataHandler.symbols, t);
      EnqueueMarketEvents(t);
      ghost var markets := MarketEventsAt(dataHandler.data, dataHandler.symbols, t, |dataHandler.symbols|);
      assert queue.items == markets;
      MarketEventsShape(dataHandler.data, dataHandler.symbols, t, |dataHandler.symbols|);
      MarketEventsSorted(dataHandler.data, dataHandler.symbols, t, |dataHandler.symbols|);
      PotentialOfMarketEvents(markets);
      portfolio.MarkToMarket(t, dataHandler);
      steps := Drain();
    }

    /** `Step` with the run loop's bookkeeping carried across it. */
    method StepTracked(ghost whole: Replayed, ghost fills: seq<Event>) returns (ghost fills': seq<Event>)
      requires Valid() && NoRepeatedTimes(dataHandler.data) && dataHandler.HasNext()
      requires queue.items == [] && TurnoverOnTimeline()
      requires CashFloorHypotheses() ==> portfolio.state.cash >= 0.0
      requires ReplayTracks(strategy, oracle, execCfg, portfolio.cfg, dataHandler.data, dataHandler.symbols, whole,
                            portfolio.history, fills, portfolio.state, dataHandler.timeline[dataHandler.cursor..],
                            turnoverRows)
      modifies dataHandler`cursor, portfolio, queue, this`turnoverRows
      ensures Valid() && queue.items == [] && TurnoverOnTimeline()
      ensures dataHandler.cursor == old(dataHandler.cursor) + 1
      ensures CashFloorHypotheses() ==> portfolio.state.cash >= 0.0
      ensures ReplayTracks(strategy, oracle, execCfg, portfolio.cfg, dataHandler.data, dataHandler.symbols, whole,
                           portfolio.history, fills', portfolio.state, dataHandler.timeline[dataHandler.cursor..],
                           turnoverRows)
    {
      ghost var st := portfolio.state;
      ghost var times := dataHandler.timeline[dataHandler.cursor..];
      ghost var rows := turnoverRows;
      ghost var ledger := portfolio.history;
      ghost var steps;
      var t;
      t, steps := Step();
      assert times[1..] == dataHandler.timeline[dataHandler.cursor..];
      ReplayTracksStep(strategy, oracle, execCfg, portfolio.cfg, dataHandler.data, dataHandler.symbols, whole,
                       ledger, fills, st, times, rows, portfolio.state, turnoverRows);
      fills' := fills + DrainQueue(strategy, oracle, execCfg, portfolio.cfg, dataHandler.data,
                                   Marked(st, dataHandler.data, dataHandler.symbols, t),
                                   MarketEventsAt(dataHandler.data, dataHandler.symbols, t, |dataHandler.symbols|)).fills;
    }

    /** `run()`: walks the whole timeline, then summarises the ledger and
        the turnover rows. Modelled for the first call on a freshly built
        back-tester. */
    method Run() returns (res: BacktestResult)
      requires Valid() && NoRepeatedTimes(dataHandler.data)
      requires queue.items == [] && portfolio.history == [] && turnoverRows == []
      requires CashFloorHypotheses() ==> portfolio.state.cash >= 0.0
      modifies dataHandler`cursor, portfolio, queue, this`turnoverRows
      ensures Valid() && queue.items == [] && !dataHandler.HasNext()
      ensures LedgerTimes(portfolio.history) == dataHandler.timeline
      ensures res == Summarise(oracle, portfolio.history, turnoverRows)
      ensures forall r :: r in turnoverRows ==> r.t in dataHandler.timeline && r.turnover >= 0.0
      ensures res.metrics.turnover == SumReals(Turnovers(turnoverRows))
      ensures CashFloorHypotheses() ==> forall i :: 0 <= i < |portfolio.history| ==> portfolio.history[i].cash >= 0.0
      ensures var r := Replay(strategy, oracle, execCfg, portfolio.cfg, dataHandler.data, dataHandler.symbols,
                              old(portfolio.state), dataHandler.timeline);
              && portfolio.history == r.ledger && portfolio.state == r.state
              && turnoverRows == FillTurnovers(r.fills)
    {
      ghost var fills: seq<Event> := [];
      dataHandler.Reset();
      ghost var whole := Replay(strategy, oracle, execCfg, portfolio.cfg, dataHandler.data, dataHandler.symbols,
                                portfolio.state, dataHandler.timeline);
      assert whole == Replay(strategy, oracle, execCfg, portfolio.cfg, dataHandler.data, dataHandler.symbols,
                             old(portfolio.state), dataHandler.timeline);
      ReplayTracksStart(strategy, oracle, execCfg, portfolio.cfg, dataHandler.data, dataHandler.symbols,
                        portfolio.state, dataHandler.timeline);
      while dataHandler.HasNext()
        invariant Valid() && queue.items == [] && TurnoverOnTimeline()
        invariant CashFloorHypotheses() ==> portfolio.state.cash >= 0.0
        invariant ReplayTracks(strategy, oracle, execCfg, portfolio.cfg, dataHandler.data, dataHandler.symbols, whole,
                               portfolio.history, fills, portfolio.state, dataHandler.timeline[dataHandler.cursor..],
                               turnoverRows)
        decreases |dataHandler.timeline| - dataHandler.cursor
      {
        fills := StepTracked(whole, fills);
      }
      assert dataHandler.timeline[dataHandler.cursor..] == [];
      ReplayTracksDone(strategy, oracle, execCfg, portfolio.cfg, dataHandler.data, dataHandler.symbols,
                       old(portfolio.state), dataHandler.timeline, whole,
                       portfolio.history, fills, portfolio.state, turnoverRows);
      SummaryTurnoverIsTotal(oracle, portfolio.history, turnoverRows);
      res := Summarise(oracle, portfolio.history, turnoverRows);
    }
  }
}
