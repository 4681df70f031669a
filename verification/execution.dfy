/** The execution simulator for market orders: it finds the decision bar,
    waits `delay_days` bars, caps the quantity by a participation rate of
    average daily volume, and prices the fill on a ladder of adverse costs
    (half spread, volatility slippage, square-root market impact) plus a
    proportional fee. Everything here is a pure function of the immutable
    configuration, the order and the data. */
module Execution {
  import opened Common
  import opened Numerics
  import opened Events
  import opened Data

  datatype ExecConfig = ExecConfig(
    feeBps: real,
    halfSpreadBps: real,
    volK: real,
    impactK: real,
    delayDays: int,
    volLookback: nat,
    advLookback: nat,
    participationRate: real)

  const DefaultExecConfig := ExecConfig(0.0, 0.0, 0.0, 0.0, 1, 20, 20, 1.0)

  /** One basis point is one ten-thousandth. */
  const BpsPerUnit: real := 10000.0
  const TradingDaysPerYear: real := 252.0

  // ------------------------------------------------------------ price ladder

  /** The adverse price: the half spread first, then slippage and impact
      together, each against the trader (up for BUY, down for SELL). */
  function EffectivePrice(side: Side, base: real, halfSpreadBps: real, slipBps: real, impactBps: real): real
  {
    var spread := halfSpreadBps / BpsPerUnit;
    var quoted := if side == Buy then base * (1.0 + spread) else base * (1.0 - spread);
    var total := (slipBps + impactBps) / BpsPerUnit;
    if side == Buy then quoted * (1.0 + total) else quoted * (1.0 - total)
  }

  lemma MulMono(c: real, x: real, y: real)
    requires c >= 0.0 && x <= y
    ensures c * x <= c * y && x * c <= y * c
  {
    assert c * y - c * x == c * (y - x);
  }

  /** With every cost at zero the fill is at the base price, on both sides. */
  lemma FreeExecutionAtBase(side: Side, base: real)
    ensures EffectivePrice(side, base, 0.0, 0.0, 0.0) == base
  {
  }

  /** A buyer never pays less than the base price when the costs are not
      negative. */
  lemma BuyNotBelowBase(base: real, halfSpreadBps: real, slipBps: real, impactBps: real)
    requires base >= 0.0 && halfSpreadBps >= 0.0 && slipBps + impactBps >= 0.0
    ensures EffectivePrice(Buy, base, halfSpreadBps, slipBps, impactBps) >= base
  {
    var quoted := base * (1.0 + halfSpreadBps / BpsPerUnit);
    MulMono(base, 1.0, 1.0 + halfSpreadBps / BpsPerUnit);
    MulMono(quoted, 1.0, 1.0 + (slipBps + impactBps) / BpsPerUnit);
  }

  /** A seller never receives more than the base price, nor a negative
      price, while each cost stays within 100%. */
  lemma SellNotAboveBase(base: real, halfSpreadBps: real, slipBps: real, impactBps: real)
    requires base >= 0.0
    requires 0.0 <= halfSpreadBps <= BpsPerUnit
    requires 0.0 <= slipBps + impactBps <= BpsPerUnit
    ensures 0.0 <= EffectivePrice(Sell, base, halfSpreadBps, slipBps, impactBps) <= base
  {
    var a := 1.0 - halfSpreadBps / BpsPerUnit;
    var b := 1.0 - (slipBps + impactBps) / BpsPerUnit;
    var quoted := base * a;
    MulMono(base, 0.0, a);
    MulMono(base, a, 1.0);
    MulMono(quoted, 0.0, b);
    MulMono(quoted, b, 1.0);
  }

  /** A wider half spread gives the buyer a higher price and the seller a
      lower one. */
  lemma WiderSpreadWorsePrice(base: real, hs1: real, hs2: real, slipBps: real, impactBps: real)
    requires base >= 0.0 && hs1 <= hs2 && slipBps + impactBps >= 0.0
    ensures EffectivePrice(Buy, base, hs1, slipBps, impactBps) <= EffectivePrice(Buy, base, hs2, slipBps, impactBps)
    ensures slipBps + impactBps <= BpsPerUnit ==>
              EffectivePrice(Sell, base, hs2, slipBps, impactBps) <= EffectivePrice(Sell, base, hs1, slipBps, impactBps)
  {
    var t := (slipBps + impactBps) / BpsPerUnit;
    MulMono(base, 1.0 + hs1 / BpsPerUnit, 1.0 + hs2 / BpsPerUnit);
    MulMono(1.0 + t, base * (1.0 + hs1 / BpsPerUnit), base * (1.0 + hs2 / BpsPerUnit));
    MulMono(base, 1.0 - hs2 / BpsPerUnit, 1.0 - hs1 / BpsPerUnit);
    if slipBps + impactBps <= BpsPerUnit {
      assert 1.0 - t >= 0.0;
      var q1 := base * (1.0 - hs1 / BpsPerUnit);
      var q2 := base * (1.0 - hs2 / BpsPerUnit);
      assert q2 <= q1;
      MulMono(1.0 - t, q2, q1);
      assert EffectivePrice(Sell, base, hs2, slipBps, impactBps) == q2 * (1.0 - t);
      assert EffectivePrice(Sell, base, hs1, slipBps, impactBps) == q1 * (1.0 - t);
    }
  }

  // -------------------------------------------------------------- statistics

  function Volumes(rows: seq<Row>): (vs: seq<real>)
    ensures |vs| == |rows|
    ensures forall i :: 0 <= i < |rows| ==> vs[i] == rows[i].bar.volume
  {
    if rows == [] then [] else Volumes(rows[..|rows| - 1]) + [rows[|rows| - 1].bar.volume]
  }

  function DollarVolumes(rows: seq<Row>): (vs: seq<real>)
    ensures |vs| == |rows|
    ensures forall i :: 0 <= i < |rows| ==> vs[i] == rows[i].bar.close * rows[i].bar.volume
  {
    if rows == [] then []
    else DollarVolumes(rows[..|rows| - 1]) + [rows[|rows| - 1].bar.close * rows[|rows| - 1].bar.volume]
  }

  /** Annualised volatility of the close-to-close returns over the last
      `vol_lookback` returns; zero while fewer than `max(2, vol_lookback)`
      returns exist. */
  function RollingVol(cfg: ExecConfig, o: Oracle, hist: seq<Row>): real
  {
    var rets := PctChange(o, Closes(hist));
    if |rets| < MaxInt(2, cfg.volLookback) then 0.0
    else SampleStd(o, LastK(rets, cfg.volLookback)) * o.sqrt(TradingDaysPerYear)
  }

  /** Average daily dollar volume over the last `adv_lookback` bars; zero
      while fewer than `max(2, adv_lookback)` bars exist. */
  function AdvDollar(cfg: ExecConfig, o: Oracle, hist: seq<Row>): real
  {
    if |hist| < MaxInt(2, cfg.advLookback) then 0.0
    else Mean(o, DollarVolumes(LastK(hist, cfg.advLookback)))
  }

  /** Average daily share volume over the same window. */
  function AdvShares(cfg: ExecConfig, o: Oracle, hist: seq<Row>): real
  {
    if |hist| < MaxInt(2, cfg.advLookback) then 0.0
    else Mean(o, Volumes(LastK(hist, cfg.advLookback)))
  }

  /** Too short a history switches the volatility term off. */
  lemma ShortHistoryNoVolatility(cfg: ExecConfig, o: Oracle, hist: seq<Row>)
    requires |hist| <= MaxInt(2, cfg.volLookback)
    ensures RollingVol(cfg, o, hist) == 0.0
  {
  }

  /** The annualised volatility is never negative, except for a one-return
      window, whose sample deviation is undefined. */
  lemma RollingVolNonNegative(cfg: ExecConfig, o: Oracle, hist: seq<Row>)
    requires Sound(o) && cfg.volLookback != 1
    ensures RollingVol(cfg, o, hist) >= 0.0
  {
    var rets := PctChange(o, Closes(hist));
    if |rets| >= MaxInt(2, cfg.volLookback) {
      var w := LastK(rets, cfg.volLookback);
      assert |w| >= 2;
      SampleStdNonNegative(o, w);
      MulMono(SampleStd(o, w), 0.0, o.sqrt(TradingDaysPerYear));
    }
  }

  /** The share ADV of a window whose every bar traded `v` shares is `v`. */
  lemma AdvSharesOfConstantVolume(cfg: ExecConfig, o: Oracle, hist: seq<Row>, v: real)
    requires Sound(o)
    requires |hist| >= MaxInt(2, cfg.advLookback)
    requires forall i :: 0 <= i < |hist| ==> hist[i].bar.volume == v
    ensures AdvShares(cfg, o, hist) == v
  {
    var w := LastK(hist, cfg.advLookback);
    assert forall i :: 0 <= i < |w| ==> w[i].bar.volume == v by {
      if cfg.advLookback == 0 {
        assert w == hist;
      } else {
        assert w == hist[|hist| - cfg.advLookback..];
      }
    }
    MeanOfConstant(o, Volumes(w), v);
  }

  /** The share ADV is never negative when volumes are not. */
  lemma AdvSharesNonNegative(cfg: ExecConfig, o: Oracle, hist: seq<Row>)
    requires Sound(o)
    requires forall i :: 0 <= i < |hist| ==> hist[i].bar.volume >= 0.0
    ensures AdvShares(cfg, o, hist) >= 0.0
  {
    if |hist| >= MaxInt(2, cfg.advLookback) {
      var w := LastK(hist, cfg.advLookback);
      assert forall i :: 0 <= i < |w| ==> w[i] in hist;
      SumRealsNonNegative(Volumes(w));
    }
  }

  // --------------------------------------------------------- participation

  /** `int(max(1, adv * rate))`: truncation, which is the floor for a value
      of at least one. */
  function ParticipationCap(advShares: real, rate: real): (n: int)
    ensures n >= 1 && n as real <= MaxReal(1.0, advShares * rate)
    ensures MaxReal(1.0, advShares * rate) < n as real + 1.0
  {
    var m := MaxReal(1.0, advShares * rate);
    assert m.Floor as real <= m < m.Floor as real + 1.0;
    m.Floor
  }

  /** `_cap_partial_fill_qty`: at a participation rate below one, and with a
      positive share ADV, the order is cut to the participation cap. */
  function CapQty(rate: real, advShares: real, desired: int): (q: int)
    ensures q <= desired
    ensures desired >= 1 ==> q >= 1
    ensures rate >= 1.0 || advShares <= 0.0 ==> q == desired
    ensures rate < 1.0 && advShares > 0.0 ==> q == MinInt(desired, ParticipationCap(advShares, rate))
  {
    if rate >= 1.0 then desired
    else if advShares <= 0.0 then desired
    else MinInt(desired, ParticipationCap(advShares, rate))
  }

  /** The quantity `execute` fills for a desired quantity, on a history. */
  function CappedQty(cfg: ExecConfig, o: Oracle, desired: int, hist: seq<Row>): (q: int)
    ensures q <= desired
    ensures desired >= 1 ==> q >= 1
  {
    CapQty(cfg.participationRate, AdvShares(cfg, o, hist), desired)
  }

  /** Below full participation and with a positive share ADV, the fill
      never exceeds `max(1, adv * rate)` shares, and a cut order keeps at
      least one share. */
  lemma CapRespected(rate: real, advShares: real, desired: int)
    requires rate < 1.0 && advShares > 0.0
    ensures CapQty(rate, advShares, desired) as real <= MaxReal(1.0, advShares * rate)
    ensures CapQty(rate, advShares, desired) < desired ==> CapQty(rate, advShares, desired) >= 1
  {
  }

  /** Once the window is full, 1,000 shares a day at a 5% participation
      rate cap a 10,000-share order at 50 shares. */
  lemma FivePercentOfThousandShares(o: Oracle, hist: seq<Row>)
    requires Sound(o)
    requires |hist| >= 20
    requires forall i :: 0 <= i < |hist| ==> hist[i].bar.volume == 1000.0
    ensures CappedQty(DefaultExecConfig.(participationRate := 0.05), o, 10000, hist) == 50
  {
    var cfg := DefaultExecConfig.(participationRate := 0.05);
    AdvSharesOfConstantVolume(cfg, o, hist, 1000.0);
    assert MaxReal(1.0, 1000.0 * 0.05) == 50.0;
  }

  /** With fewer than `max(2, adv_lookback)` bars the cap is skipped. */
  lemma ShortHistoryUncapped(cfg: ExecConfig, o: Oracle, desired: int, hist: seq<Row>)
    requires |hist| < MaxInt(2, cfg.advLookback)
    ensures CappedQty(cfg, o, desired, hist) == desired
  {
  }

  // ------------------------------------------------------------------ fills

  /** Index of the decision bar: the order's own bar when its time is in
      the series, else the first later bar; `|rows|` when there is none. */
  function DecisionIndex(rows: seq<Row>, t: int): (k: nat)
    ensures k <= |rows|
    ensures forall i :: 0 <= i < k ==> rows[i].t < t
    ensures k < |rows| ==> rows[k].t >= t
  {
    if rows == [] || rows[0].t >= t then 0 else 1 + DecisionIndex(rows[1..], t)
  }

  /** When the order's time is a bar of the series, that bar decides. */
  lemma DecisionAtOrderBar(rows: seq<Row>, i: nat)
    requires StrictlyIncreasing(rows) && i < |rows|
    ensures DecisionIndex(rows, rows[i].t) == i
  {
  }

  /** Otherwise the first bar after the order's time decides. */
  lemma DecisionAtNextBar(rows: seq<Row>, t: int)
    requires TimeSorted(rows)
    requires forall i :: 0 <= i < |rows| ==> rows[i].t != t
    ensures var k := DecisionIndex(rows, t);
            (k < |rows| ==> rows[k].t > t) &&
            (forall i :: 0 <= i < |rows| && rows[i].t > t ==> k <= i)
  {
  }

  /** Slippage in bps: `vol_k` times the annualised volatility. */
  function SlipBps(cfg: ExecConfig, o: Oracle, hist: seq<Row>): real
  {
    cfg.volK * RollingVol(cfg, o, hist)
  }

  /** Square-root impact in bps, charged only with a positive dollar ADV
      and a positive coefficient. */
  function ImpactBps(cfg: ExecConfig, o: Oracle, hist: seq<Row>, base: real, qty: int): real
  {
    var adv := AdvDollar(cfg, o, hist);
    var tradeValue := base * qty as real;
    if adv > 0.0 && cfg.impactK > 0.0 then cfg.impactK * o.sqrt(tradeValue / adv) * BpsPerUnit
    else 0.0
  }

  /** Impact is zero unless the dollar ADV and the coefficient are both
      positive, and never negative for a non-negative trade value. */
  lemma ImpactGated(cfg: ExecConfig, o: Oracle, hist: seq<Row>, base: real, qty: int)
    ensures !(AdvDollar(cfg, o, hist) > 0.0 && cfg.impactK > 0.0) ==> ImpactBps(cfg, o, hist, base, qty) == 0.0
    ensures Sound(o) && base >= 0.0 && qty >= 0 ==> ImpactBps(cfg, o, hist, base, qty) >= 0.0
  {
    if Sound(o) && base >= 0.0 && qty >= 0 && AdvDollar(cfg, o, hist) > 0.0 && cfg.impactK > 0.0 {
      var adv := AdvDollar(cfg, o, hist);
      var tv := base * qty as real;
      MulMono(base, 0.0, qty as real);
      assert tv / adv >= 0.0;
      var s := o.sqrt(tv / adv);
      assert s >= 0.0;
      MulMono(cfg.impactK, 0.0, s);
    }
  }

  /** The fee: the fee rate applied to the notional `px * qty`. */
  function FeeOn(feeBps: real, px: real, qty: int): real
  {
    feeBps / BpsPerUnit * (px * qty as real)
  }

  /** The slippage: the distance from the base price, per share filled. */
  function SlippageOn(px: real, base: real, qty: int): real
  {
    AbsReal(px - base) * qty as real
  }

  /** The fill priced at `base` for `qty` shares under the given slippage
      and impact, with its audit record. */
  function FillAt(cfg: ExecConfig, order: Event, tExec: int, base: real, qty: int, slip: real, impact: real): (f: Event)
    requires order.Order?
    ensures f.Fill? && f.t == tExec && f.symbol == order.symbol && f.side == order.side && f.qty == qty
    ensures f.meta == Some(FillMeta(base, slip, impact, cfg.halfSpreadBps, order.qty, qty))
    ensures f.price == EffectivePrice(order.side, base, cfg.halfSpreadBps, slip, impact)
    ensures f.fee == FeeOn(cfg.feeBps, f.price, qty) && f.slippage == SlippageOn(f.price, base, qty)
  {
    var px := EffectivePrice(order.side, base, cfg.halfSpreadBps, slip, impact);
    Fill(tExec, order.symbol, order.side, qty, px, FeeOn(cfg.feeBps, px, qty), SlippageOn(px, base, qty),
         Some(FillMeta(base, slip, impact, cfg.halfSpreadBps, order.qty, qty)))
  }

  /** Slippage is never negative, nor is the fee for a non-negative rate
      and price. */
  lemma FeeAndSlippageNonNegative(feeBps: real, px: real, base: real, qty: int)
    requires qty >= 0
    ensures SlippageOn(px, base, qty) >= 0.0
    ensures feeBps >= 0.0 && px >= 0.0 ==> FeeOn(feeBps, px, qty) >= 0.0
  {
    MulMono(AbsReal(px - base), 0.0, qty as real);
    if feeBps >= 0.0 && px >= 0.0 {
      MulMono(px, 0.0, qty as real);
      MulMono(feeBps / BpsPerUnit, 0.0, px * qty as real);
    }
  }

  /** The fill on the execution bar `rows[k]`: the quantity capped on the
      history up to that bar, or no fill when nothing is left; slippage and
      impact come from the same history. */
  function FillOnBar(cfg: ExecConfig, o: Oracle, order: Event, rows: seq<Row>, k: nat): (r: Option<Event>)
    requires order.Order? && k < |rows| && TimeSorted(rows)
    ensures r.Some? ==> r.value.Fill? && r.value.symbol == order.symbol && r.value.side == order.side
    ensures r.Some? ==> 1 <= r.value.qty <= order.qty
    ensures r.Some? ==> r.value.t == rows[k].t && r.value.meta.Some? && r.value.meta.value.basePrice == rows[k].bar.open
    ensures r.Some? <==> CappedQty(cfg, o, order.qty, HistoryAsOf(rows, rows[k].t)) >= 1
    ensures order.qty >= 1 ==> r.Some? && r.value.qty == CappedQty(cfg, o, order.qty, HistoryAsOf(rows, rows[k].t))
  {
    var hist := HistoryAsOf(rows, rows[k].t);
    var base := rows[k].bar.open;
    var qty := CappedQty(cfg, o, order.qty, hist);
    if qty <= 0 then None
    else Some(FillAt(cfg, order, rows[k].t, base, qty, SlipBps(cfg, o, hist), ImpactBps(cfg, o, hist, base, qty)))
  }

  /** Index of the execution bar: `max(0, delay_days)` bars after the
      decision bar. */
  function ExecIndex(cfg: ExecConfig, rows: seq<Row>, t: int): (k: nat)
    ensures k >= DecisionIndex(rows, t)
  {
    DecisionIndex(rows, t) + MaxInt(0, cfg.delayDays)
  }

  /** `ExecutionHandler.execute` on the series of the order's symbol; the
      series must not repeat a timestamp, since label lookups need that. */
  function Execute(cfg: ExecConfig, o: Oracle, order: Event, data: map<Symbol, seq<Row>>): (r: Option<Event>)
    requires order.Order?
    requires order.symbol in data && StrictlyIncreasing(data[order.symbol])
    ensures r.Some? ==> r.value.Fill? && r.value.symbol == order.symbol && r.value.side == order.side
    ensures r.Some? ==> 1 <= r.value.qty <= order.qty
    ensures r.Some? ==> r.value.t >= order.t
    ensures ExecIndex(cfg, data[order.symbol], order.t) >= |data[order.symbol]| ==> r.None?
    ensures ExecIndex(cfg, data[order.symbol], order.t) < |data[order.symbol]| ==>
              r == FillOnBar(cfg, o, order, data[order.symbol], ExecIndex(cfg, data[order.symbol], order.t))
    ensures ExecIndex(cfg, data[order.symbol], order.t) < |data[order.symbol]| && order.qty >= 1 ==>
              r.Some? && r.value.t == data[order.symbol][ExecIndex(cfg, data[order.symbol], order.t)].t
  {
    var rows := data[order.symbol];
    var execPos := ExecIndex(cfg, rows, order.t);
    if execPos >= |rows| then None
    else
      assert rows[DecisionIndex(rows, order.t)].t <= rows[execPos].t;
      FillOnBar(cfg, o, order, rows, execPos)
  }

  /** The history the statistics see is exactly the series up to and
      including the execution bar. */
  lemma HistoryAtExecutionBar(rows: seq<Row>, k: nat)
    requires StrictlyIncreasing(rows) && k < |rows|
    ensures HistoryAsOf(rows, rows[k].t) == rows[..k + 1]
  {
    HistoryAtRowTime(rows, k);
  }

  /** `get_bar` at the execution time always finds the execution bar, so
      the source's "no bar" exit never fires. */
  lemma ExecutionBarFound(rows: seq<Row>, k: nat)
    requires StrictlyIncreasing(rows) && k < |rows|
    ensures UniqueAt(rows, rows[k].t) && BarAt(rows, rows[k].t) == Some(rows[k].bar)
  {
  }

  /** No look-ahead: the fill depends only on the bars up to and including
      the execution bar; any later bars may be replaced. */
  lemma ExecuteIgnoresLaterBars(cfg: ExecConfig, o: Oracle, order: Event, data: map<Symbol, seq<Row>>, rows': seq<Row>)
    requires order.Order?
    requires order.symbol in data && StrictlyIncreasing(data[order.symbol]) && StrictlyIncreasing(rows')
    requires var k := ExecIndex(cfg, data[order.symbol], order.t);
             k < |data[order.symbol]| && k < |rows'| && rows'[..k + 1] == data[order.symbol][..k + 1]
    ensures Execute(cfg, o, order, data[order.symbol := rows']) == Execute(cfg, o, order, data)
  {
    var rows := data[order.symbol];
    var k := ExecIndex(cfg, rows, order.t);
    assert forall i :: 0 <= i <= k ==> rows'[i] == rows[i] by {
      forall i | 0 <= i <= k ensures rows'[i] == rows[i] {
        assert rows'[..k + 1][i] == rows[..k + 1][i];
      }
    }
    assert DecisionIndex(rows', order.t) == DecisionIndex(rows, order.t);
    assert ExecIndex(cfg, rows', order.t) == k;
    HistoryAtExecutionBar(rows, k);
    HistoryAtExecutionBar(rows', k);
    assert FillOnBar(cfg, o, order, rows', k) == FillOnBar(cfg, o, order, rows, k);
  }

  /** With too short a history at the execution bar the full order fills. */
  lemma ShortHistoryFillsInFull(cfg: ExecConfig, o: Oracle, order: Event, data: map<Symbol, seq<Row>>)
    requires order.Order? && order.qty >= 1
    requires order.symbol in data && StrictlyIncreasing(data[order.symbol])
    requires var k := ExecIndex(cfg, data[order.symbol], order.t);
             k < |data[order.symbol]| && k + 1 < MaxInt(2, cfg.advLookback)
    ensures Execute(cfg, o, order, data).Some?
    ensures Execute(cfg, o, order, data).value.qty == order.qty
  {
    var rows := data[order.symbol];
    var k := ExecIndex(cfg, rows, order.t);
    HistoryAtExecutionBar(rows, k);
    ShortHistoryUncapped(cfg, o, order.qty, HistoryAsOf(rows, rows[k].t));
  }

  /** A 40-bar series, a 10,000-share BUY at the first bar, a one-day delay,
      a 5% participation rate and a 20-bar ADV window: the execution bar
      sees only two bars, so the cap is skipped and all 10,000 shares fill,
      one bar after the order. */
  lemma FillConsistencyExample(o: Oracle, rows: seq<Row>)
    requires |rows| == 40 && StrictlyIncreasing(rows)
    ensures var cfg := DefaultExecConfig.(delayDays := 1, participationRate := 0.05, advLookback := 20);
            var order := NewOrder(rows[0].t, "SPY", Buy, 10000);
            var r := Execute(cfg, o, order, map["SPY" := rows]);
            r.Some? && r.value.qty == 10000 && r.value.t == rows[1].t
  {
    var cfg := DefaultExecConfig.(delayDays := 1, participationRate := 0.05, advLookback := 20);
    var order := NewOrder(rows[0].t, "SPY", Buy, 10000);
    var data := map["SPY" := rows];
    DecisionAtOrderBar(rows, 0);
    assert ExecIndex(cfg, rows, order.t) == 1;
    ShortHistoryFillsInFull(cfg, o, order, data);
  }

  /** The configurations agree on everything but the fee rate and the
      half spread. */
  predicate SameMarketModel(cfg: ExecConfig, cfg2: ExecConfig)
  {
    && cfg.volK == cfg2.volK && cfg.impactK == cfg2.impactK && cfg.delayDays == cfg2.delayDays
    && cfg.volLookback == cfg2.volLookback && cfg.advLookback == cfg2.advLookback
    && cfg.participationRate == cfg2.participationRate
  }

  /** Fee rate and half spread enter neither the execution bar, nor the
      cap, nor the slippage, nor the impact. */
  lemma SameExecIndex(cfg: ExecConfig, cfg2: ExecConfig, rows: seq<Row>, t: int)
    requires cfg.delayDays == cfg2.delayDays
    ensures ExecIndex(cfg2, rows, t) == ExecIndex(cfg, rows, t)
  {
  }

  lemma SameCap(cfg: ExecConfig, cfg2: ExecConfig, o: Oracle, desired: int, hist: seq<Row>)
    requires cfg.participationRate == cfg2.participationRate && cfg.advLookback == cfg2.advLookback
    ensures CappedQty(cfg2, o, desired, hist) == CappedQty(cfg, o, desired, hist)
  {
  }

  lemma SameSlip(cfg: ExecConfig, cfg2: ExecConfig, o: Oracle, hist: seq<Row>)
    requires cfg.volK == cfg2.volK && cfg.volLookback == cfg2.volLookback
    ensures SlipBps(cfg2, o, hist) == SlipBps(cfg, o, hist)
  {
  }

  lemma SameImpact(cfg: ExecConfig, cfg2: ExecConfig, o: Oracle, hist: seq<Row>, base: real, qty: int)
    requires cfg.impactK == cfg2.impactK && cfg.advLookback == cfg2.advLookback
    ensures ImpactBps(cfg2, o, hist, base, qty) == ImpactBps(cfg, o, hist, base, qty)
  {
    assert AdvDollar(cfg2, o, hist) == AdvDollar(cfg, o, hist);
  }

  /** The same fill priced with a higher fee rate and a wider half spread
      is worse for the trader: a buyer pays more cash in total, a seller
      receives less (for a seller, while each cost and the fee rate stay
      within 100%). */
  lemma CostlierFillAt(cfg: ExecConfig, cfg2: ExecConfig, order: Event, tExec: int, base: real, qty: int, slip: real, impact: real)
    requires order.Order? && qty >= 1 && base >= 0.0 && slip + impact >= 0.0
    requires 0.0 <= cfg.feeBps <= cfg2.feeBps && 0.0 <= cfg.halfSpreadBps <= cfg2.halfSpreadBps
    requires order.side == Sell ==> slip + impact <= BpsPerUnit && cfg2.halfSpreadBps <= BpsPerUnit && cfg2.feeBps <= BpsPerUnit
    ensures var f1 := FillAt(cfg, order, tExec, base, qty, slip, impact);
            var f2 := FillAt(cfg2, order, tExec, base, qty, slip, impact);
            && (order.side == Buy ==> Cost(f2.qty, f2.price, f2.fee) >= Cost(f1.qty, f1.price, f1.fee))
            && (order.side == Sell ==> Proceeds(f2.qty, f2.price, f2.fee) <= Proceeds(f1.qty, f1.price, f1.fee))
  {
    var p1 := EffectivePrice(order.side, base, cfg.halfSpreadBps, slip, impact);
    var p2 := EffectivePrice(order.side, base, cfg2.halfSpreadBps, slip, impact);
    WiderSpreadWorsePrice(base, cfg.halfSpreadBps, cfg2.halfSpreadBps, slip, impact);
    if order.side == Buy {
      BuyNotBelowBase(base, cfg.halfSpreadBps, slip, impact);
      GrossCostMonotone(p1, p2, cfg.feeBps, cfg2.feeBps, qty);
    } else {
      SellNotAboveBase(base, cfg2.halfSpreadBps, slip, impact);
      NetProceedsMonotone(p1, p2, cfg.feeBps, cfg2.feeBps, qty);
    }
  }

  /** A configuration that differs only by a higher fee rate and a wider
      half spread fills the same quantity on the same bar, and the trade is
      worse for the trader (under the conditions of `CostlierFillAt`, read
      off the first fill's audit record). */
  lemma CostlierConfigWorseFill(cfg: ExecConfig, cfg2: ExecConfig, o: Oracle, order: Event, data: map<Symbol, seq<Row>>)
    requires order.Order?
    requires order.symbol in data && StrictlyIncreasing(data[order.symbol])
    requires SameMarketModel(cfg, cfg2)
    requires 0.0 <= cfg.feeBps <= cfg2.feeBps && 0.0 <= cfg.halfSpreadBps <= cfg2.halfSpreadBps
    requires Execute(cfg, o, order, data).Some?
    requires var m := Execute(cfg, o, order, data).value.meta.value;
             m.basePrice >= 0.0 && m.slipBps + m.impactBps >= 0.0
    requires order.side == Sell ==>
               var m := Execute(cfg, o, order, data).value.meta.value;
               m.slipBps + m.impactBps <= BpsPerUnit && cfg2.halfSpreadBps <= BpsPerUnit && cfg2.feeBps <= BpsPerUnit
    ensures var f1 := Execute(cfg, o, order, data).value;
            var r2 := Execute(cfg2, o, order, data);
            && r2.Some? && r2.value.qty == f1.qty && r2.value.t == f1.t
            && (order.side == Buy ==> Cost(r2.value.qty, r2.value.price, r2.value.fee) >= Cost(f1.qty, f1.price, f1.fee))
            && (order.side == Sell ==> Proceeds(r2.value.qty, r2.value.price, r2.value.fee) <= Proceeds(f1.qty, f1.price, f1.fee))
  {
    var rows := data[order.symbol];
    var k := ExecIndex(cfg, rows, order.t);
    var hist := HistoryAsOf(rows, rows[k].t);
    var base := rows[k].bar.open;
    var qty := CappedQty(cfg, o, order.qty, hist);
    SameExecIndex(cfg, cfg2, rows, order.t);
    SameCap(cfg, cfg2, o, order.qty, hist);
    SameSlip(cfg, cfg2, o, hist);
    SameImpact(cfg, cfg2, o, hist, base, qty);
    var slip := SlipBps(cfg, o, hist);
    var impact := ImpactBps(cfg, o, hist, base, qty);
    assert Execute(cfg, o, order, data) == Some(FillAt(cfg, order, rows[k].t, base, qty, slip, impact));
    assert Execute(cfg2, o, order, data) == Some(FillAt(cfg2, order, rows[k].t, base, qty, slip, impact));
    CostlierFillAt(cfg, cfg2, order, rows[k].t, base, qty, slip, impact);
  }

  /** Price times quantity plus a proportional fee grows with both. */
  lemma GrossCostMonotone(p1: real, p2: real, f1: real, f2: real, qty: int)
    requires 0.0 <= p1 <= p2 && 0.0 <= f1 <= f2 && qty >= 0
    ensures Cost(qty, p2, FeeOn(f2, p2, qty)) >= Cost(qty, p1, FeeOn(f1, p1, qty))
  {
    var q := qty as real;
    MulMono(q, p1, p2);
    MulMono(f1 / BpsPerUnit, p1 * q, p2 * q);
    MulMono(p2 * q, f1 / BpsPerUnit, f2 / BpsPerUnit);
  }

  /** Price times quantity less a proportional fee of at most 100% shrinks
      as the price falls and the fee rate rises. */
  lemma NetProceedsMonotone(p1: real, p2: real, f1: real, f2: real, qty: int)
    requires 0.0 <= p2 <= p1 && 0.0 <= f1 <= f2 <= BpsPerUnit && qty >= 0
    ensures Proceeds(qty, p2, FeeOn(f2, p2, qty)) <= Proceeds(qty, p1, FeeOn(f1, p1, qty))
  {
    var q := qty as real;
    var keep1 := 1.0 - f1 / BpsPerUnit;
    var keep2 := 1.0 - f2 / BpsPerUnit;
    MulMono(q, p2, p1);
    assert Proceeds(qty, p2, FeeOn(f2, p2, qty)) == keep2 * (p2 * q);
    assert Proceeds(qty, p1, FeeOn(f1, p1, qty)) == keep1 * (p1 * q);
    MulMono(keep2, p2 * q, p1 * q);
    MulMono(p1 * q, keep2, keep1);
  }
}
