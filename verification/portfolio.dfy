/** The portfolio accountant: values holdings at the last known close,
    sizes orders under cash and weight caps, and settles fills, cutting a
    BUY down to what cash can pay for instead of rejecting it. */
module Portfolios {
  import opened Common
  import opened Events
  import opened Data

  datatype PortfolioConfig = PortfolioConfig(
    initialCash: real,
    targetWeight: real,
    allowShort: bool,
    minQty: int,
    maxWeight: real)

  const DefaultPortfolioConfig := PortfolioConfig(100000.0, 1.0, false, 1, 1.0)

  /** Cash, the position per symbol (a dict in insertion order) and the
      last price seen per symbol. */
  datatype PortfolioState = PortfolioState(
    cash: real,
    positions: OrderedMap<Symbol, int>,
    lastPrice: map<Symbol, real>)

  /** One ledger row: time, cash, equity and the position of each symbol
      of the data set, in symbol order. */
  datatype LedgerRow = LedgerRow(t: int, cash: real, equity: real, positions: seq<int>)

  /** `positions.get(sym, 0)`. */
  function PositionOf(st: PortfolioState, sym: Symbol): int
  {
    GetOr(st.positions.entries, sym, 0)
  }

  // ---------------------------------------------------------------- equity

  /** The value one symbol contributes: quantity times last price, or
      nothing when no price is known yet. */
  function Term(k: Symbol, qty: map<Symbol, int>, lp: map<Symbol, real>): real
  {
    if k in lp then GetOr(qty, k, 0) as real * lp[k] else 0.0
  }

  function MarkedValue(keys: seq<Symbol>, qty: map<Symbol, int>, lp: map<Symbol, real>): real
  {
    if keys == [] then 0.0
    else MarkedValue(keys[..|keys| - 1], qty, lp) + Term(keys[|keys| - 1], qty, lp)
  }

  /** `PortfolioState.equity`: cash plus every held symbol at its last price. */
  function Equity(st: PortfolioState): real
  {
    st.cash + MarkedValue(st.positions.keys, st.positions.entries, st.lastPrice)
  }

  /** The loop of `equity()`, proved against `Equity`. */
  method EquityOf(st: PortfolioState) returns (eq: real)
    ensures eq == Equity(st)
  {
    var keys := st.positions.keys;
    eq := st.cash;
    for i := 0 to |keys|
      invariant eq == st.cash + MarkedValue(keys[..i], st.positions.entries, st.lastPrice)
    {
      assert keys[..i + 1][..i] == keys[..i];
      var sym := keys[i];
      if sym in st.lastPrice {
        eq := eq + GetOr(st.positions.entries, sym, 0) as real * st.lastPrice[sym];
      }
    }
    assert keys[..|keys|] == keys;
  }

  /** Changing one symbol's quantity and price moves the marked value by
      the difference of that symbol's two terms; the others stay put. */
  lemma TermUpdate(j: Symbol, qty: map<Symbol, int>, lp: map<Symbol, real>, k: Symbol, v: int, px: real)
    ensures Term(j, qty[k := v], lp[k := px]) == if j == k then v as real * px else Term(j, qty, lp)
  {
  }

  lemma {:induction false} MarkedUpdate(keys: seq<Symbol>, qty: map<Symbol, int>, lp: map<Symbol, real>,
                                        k: Symbol, v: int, px: real)
    requires Distinct(keys)
    ensures MarkedValue(keys, qty[k := v], lp[k := px]) ==
            MarkedValue(keys, qty, lp) + (if k in keys then v as real * px - Term(k, qty, lp) else 0.0)
    decreases |keys|
  {
    if keys != [] {
      var n := |keys|;
      var prefix := keys[..n - 1];
      var last := keys[n - 1];
      assert Distinct(prefix);
      MarkedUpdate(prefix, qty, lp, k, v, px);
      TermUpdate(last, qty, lp, k, v, px);
      assert k in keys <==> k in prefix || k == last by {
        assert keys == prefix + [last];
      }
    }
  }

  /** Setting a position and its price through the ordered dict. */
  lemma MarkedPut(om: OrderedMap<Symbol, int>, lp: map<Symbol, real>, k: Symbol, v: int, px: real)
    requires om.Valid()
    ensures MarkedValue(om.Put(k, v).keys, om.Put(k, v).entries, lp[k := px]) ==
            MarkedValue(om.keys, om.entries, lp) - Term(k, om.entries, lp) + v as real * px
  {
    var r := om.Put(k, v);
    if k in om.entries {
      assert r.keys == om.keys;
      assert k in om.keys;
      MarkedUpdate(om.keys, om.entries, lp, k, v, px);
    } else {
      assert r.keys == om.keys + [k];
      MarkedAppend(om.keys, om.entries, lp, k, v, px);
    }
  }

  lemma MarkedAppend(keys: seq<Symbol>, qty: map<Symbol, int>, lp: map<Symbol, real>, k: Symbol, v: int, px: real)
    requires Distinct(keys) && k !in keys && k !in qty
    ensures MarkedValue(keys + [k], qty[k := v], lp[k := px]) ==
            MarkedValue(keys, qty, lp) - Term(k, qty, lp) + v as real * px
  {
    MarkedUpdate(keys, qty, lp, k, v, px);
    assert (keys + [k])[..|keys|] == keys;
    TermUpdate(k, qty, lp, k, v, px);
    assert Term(k, qty, lp) == 0.0;
  }

  /** The identity the accounting test checks: with one symbol held,
      equity is cash plus position times last price (0 when unknown). */
  lemma AccountingIdentity(st: PortfolioState, sym: Symbol)
    requires st.positions.keys == [sym]
    ensures Equity(st) == st.cash + PositionOf(st, sym) as real * GetOr(st.lastPrice, sym, 0.0)
  {
    var keys := st.positions.keys;
    assert keys[..0] == [];
    assert MarkedValue(keys, st.positions.entries, st.lastPrice) == Term(sym, st.positions.entries, st.lastPrice);
    if sym !in st.lastPrice {
      assert PositionOf(st, sym) as real * 0.0 == 0.0;
    }
  }

  // ---------------------------------------------------------- construction

  /** `{s: 0 for s in symbols}`. */
  function ZeroPositions(symbols: seq<Symbol>): (r: OrderedMap<Symbol, int>)
    ensures r.Valid()
    ensures forall s :: s in r.entries <==> s in symbols
    ensures forall s :: s in r.entries ==> r.entries[s] == 0
  {
    if symbols == [] then EmptyOrderedMap()
    else ZeroPositions(symbols[..|symbols| - 1]).Put(symbols[|symbols| - 1], 0)
  }

  function InitialState(cfg: PortfolioConfig, symbols: seq<Symbol>): (st: PortfolioState)
    ensures st.cash == cfg.initialCash && st.lastPrice == map[]
    ensures st.positions.Valid()
    ensures forall s :: s in st.positions.entries <==> s in symbols
    ensures forall s :: PositionOf(st, s) == 0
  {
    PortfolioState(cfg.initialCash, ZeroPositions(symbols), map[])
  }

  // -------------------------------------------------------- mark to market

  /** The last-price update of `mark_to_market`: the close at `t` for every
      listed symbol that has a bar there. */
  function MarkPrices(lp: map<Symbol, real>, data: map<Symbol, seq<Row>>, symbols: seq<Symbol>, t: int)
    : (r: map<Symbol, real>)
    requires forall i :: 0 <= i < |symbols| ==> symbols[i] in data && UniqueAt(data[symbols[i]], t)
    ensures forall s :: s in r <==> s in lp || (s in symbols && BarAt(data[s], t).Some?)
    ensures forall s :: s in symbols && BarAt(data[s], t).Some? ==> r[s] == BarAt(data[s], t).value.close
    ensures forall s :: s in lp && !(s in symbols && BarAt(data[s], t).Some?) ==> r[s] == lp[s]
  {
    if symbols == [] then lp
    else
      var n := |symbols|;
      var prefix := symbols[..n - 1];
      assert forall s :: s in symbols <==> s in prefix || s == symbols[n - 1];
      var r := MarkPrices(lp, data, prefix, t);
      var bar := BarAt(data[symbols[n - 1]], t);
      if bar.Some? then r[symbols[n - 1] := bar.value.close] else r
  }

  /** The ledger's position columns, one per symbol of the data set. */
  function PositionColumns(st: PortfolioState, symbols: seq<Symbol>): (cols: seq<int>)
    ensures |cols| == |symbols|
    ensures forall i :: 0 <= i < |symbols| ==> cols[i] == PositionOf(st, symbols[i])
  {
    seq(|symbols|, i requires 0 <= i < |symbols| => PositionOf(st, symbols[i]))
  }

  // ----------------------------------------------------------------- sizing

  /** The value a BUY may reach: the target, capped by `max_weight` of
      equity and by what cash plus the current holding can fund. */
  function Budget(cfg: PortfolioConfig, st: PortfolioState, sym: Symbol, target: real, px: real): real
  {
    var capped := MinReal(target, cfg.maxWeight * Equity(st));
    var spendable := MaxReal(0.0, st.cash + PositionOf(st, sym) as real * px);
    MinReal(capped, spendable)
  }

  lemma FloorTimes(b: real, px: real)
    requires px > 0.0
    ensures (b / px).Floor as real * px <= b < ((b / px).Floor + 1) as real * px
  {
    var q := b / px;
    var f := q.Floor;
    assert f as real <= q < (f + 1) as real;
    assert q * px == b;
    ScaleLe(f as real, q, px);
    ScaleLt(q, (f + 1) as real, px);
    assert f as real * px <= b;
    assert b < (f + 1) as real * px;
  }

  lemma ScaleLe(x: real, y: real, c: real)
    requires x <= y && c > 0.0
    ensures x * c <= y * c
  {
    assert y * c - x * c == (y - x) * c;
  }

  lemma ScaleLt(x: real, y: real, c: real)
    requires x < y && c > 0.0
    ensures x * c < y * c
  {
    assert y * c - x * c == (y - x) * c;
  }

  /** `_cash_constrained_target_qty`: the largest whole quantity whose value
      at the last price fits the budget (see `TargetQtyFitsBudget`); 0
      without a positive last price. */
  function TargetQty(cfg: PortfolioConfig, st: PortfolioState, sym: Symbol, target: real): (r: int)
    ensures r >= 0
    ensures !(sym in st.lastPrice && st.lastPrice[sym] > 0.0) ==> r == 0
  {
    if sym !in st.lastPrice || st.lastPrice[sym] <= 0.0 then 0
    else
      var px := st.lastPrice[sym];
      var b := Budget(cfg, st, sym, target, px);
      MaxInt(0, (b / px).Floor)
  }

  /** The sized quantity is the floor of budget over price: its value fits
      the budget and one more share would not; a negative budget gives 0. */
  lemma TargetQtyFitsBudget(cfg: PortfolioConfig, st: PortfolioState, sym: Symbol, target: real)
    requires sym in st.lastPrice && st.lastPrice[sym] > 0.0
    ensures var px := st.lastPrice[sym];
            var b := Budget(cfg, st, sym, target, px);
            var r := TargetQty(cfg, st, sym, target);
            (b < 0.0 ==> r == 0) &&
            (b >= 0.0 ==> r as real * px <= b < (r + 1) as real * px)
  {
    var px := st.lastPrice[sym];
    var b := Budget(cfg, st, sym, target, px);
    FloorTimes(b, px);
    if b < 0.0 {
      assert b / px < 0.0;
    } else {
      assert b / px >= 0.0;
    }
  }

  /** `_order_to_target_long`: the order that moves the holding to the
      sized target, unless the move is smaller than `min_qty`. */
  function OrderToTargetLong(cfg: PortfolioConfig, st: PortfolioState, t: int, sym: Symbol): (r: Option<Event>)
    ensures r.None? <==> Abs(TargetQty(cfg, st, sym, cfg.targetWeight * Equity(st)) - PositionOf(st, sym)) < cfg.minQty
    ensures r.Some? ==> r.value.Order? && r.value.t == t && r.value.symbol == sym
                        && r.value.orderType == "MKT" && r.value.qty >= 0
    ensures r.Some? && r.value.side == Buy ==>
              PositionOf(st, sym) + r.value.qty == TargetQty(cfg, st, sym, cfg.targetWeight * Equity(st))
    ensures r.Some? && r.value.side == Sell ==>
              PositionOf(st, sym) - r.value.qty == TargetQty(cfg, st, sym, cfg.targetWeight * Equity(st))
    ensures r.Some? && r.value.side == Sell ==> r.value.qty <= PositionOf(st, sym)
    ensures r.Some? ==> (r.value.side == Buy <==> TargetQty(cfg, st, sym, cfg.targetWeight * Equity(st)) > PositionOf(st, sym))
  {
    var tq := TargetQty(cfg, st, sym, cfg.targetWeight * Equity(st));
    var delta := tq - PositionOf(st, sym);
    if Abs(delta) < cfg.minQty then None
    else Some(NewOrder(t, sym, if delta > 0 then Buy else Sell, Abs(delta)))
  }

  /** `on_signal`: BUY sizes toward the target; SELL exits the whole
      holding, or does nothing when there is none. */
  function OnSignal(cfg: PortfolioConfig, st: PortfolioState, sig: Event): (r: Option<Event>)
    requires sig.Signal?
    ensures sig.side == Buy ==> r == OrderToTargetLong(cfg, st, sig.t, sig.symbol)
    ensures sig.side == Sell ==> (r.None? <==> PositionOf(st, sig.symbol) <= 0)
    ensures sig.side == Sell && r.Some? ==> r.value == Order(sig.t, sig.symbol, Sell, PositionOf(st, sig.symbol), "MKT")
    ensures r.Some? ==> r.value.Order? && r.value.t == sig.t && r.value.symbol == sig.symbol && r.value.qty >= 0
    ensures r.Some? && r.value.side == Sell ==> r.value.qty <= PositionOf(st, sig.symbol)
  {
    var sym := sig.symbol;
    if sig.side == Buy then OrderToTargetLong(cfg, st, sig.t, sym)
    else
      var current := PositionOf(st, sym);
      if current <= 0 then None else Some(NewOrder(sig.t, sym, Sell, current))
  }

  // ------------------------------------------------------------- settlement

  /** The quantity a BUY fill settles: the full quantity when it is
      affordable (or the price is not positive), else the reclamped
      `min(qty, floor((cash - fee) / px))`; `None` when that is not positive
      and the fill is dropped. */
  function BuyQty(cash: real, qty: int, px: real, fee: real): (r: Option<int>)
    ensures px * qty as real + fee <= cash || px <= 0.0 ==> r == Some(qty)
    ensures px * qty as real + fee > cash && px > 0.0 ==>
              (r.Some? <==> MinInt(qty, MaxInt(0, ((cash - fee) / px).Floor)) > 0)
  {
    if px * qty as real + fee > cash && px > 0.0 then
      var affordable := MaxInt(0, ((cash - fee) / px).Floor);
      var q := MinInt(qty, affordable);
      if q <= 0 then None else Some(q)
    else Some(qty)
  }

  /** The reclamped quantity is what cash can pay for, fee included. */
  lemma ReclampAffordable(cash: real, qty: int, px: real, fee: real)
    requires px * qty as real + fee > cash && px > 0.0
    requires BuyQty(cash, qty, px, fee).Some?
    ensures var q := BuyQty(cash, qty, px, fee).value;
            q == MinInt(qty, MaxInt(0, ((cash - fee) / px).Floor)) && q >= 1 && px * q as real + fee <= cash
  {
    var affordable := MaxInt(0, ((cash - fee) / px).Floor);
    var q := MinInt(qty, affordable);
    FloorTimes(cash - fee, px);
    assert q <= affordable;
    assert px * q as real <= px * affordable as real;
  }

  /** `on_fill`, as a function of the state before the fill. */
  function Settle(st: PortfolioState, f: Event): (r: PortfolioState)
    requires f.Fill? && st.positions.Valid()
    ensures r.positions.Valid()
  {
    var sym := f.symbol;
    var held := PositionOf(st, sym);
    match f.side
    case Buy =>
      var q := BuyQty(st.cash, f.qty, f.price, f.fee);
      if q.None? then st
      else PortfolioState(st.cash - Cost(q.value, f.price, f.fee),
                          st.positions.Put(sym, held + q.value),
                          st.lastPrice[sym := f.price])
    case Sell =>
      var sold := MinInt(f.qty, held);
      if sold <= 0 then st
      else PortfolioState(st.cash + Proceeds(sold, f.price, f.fee),
                          st.positions.Put(sym, held - sold),
                          st.lastPrice[sym := f.price])
  }

  /** The state a BUY settling `q` shares produces, field by field. */
  lemma SettleBuy(st: PortfolioState, f: Event, q: int)
    requires f.Fill? && f.side == Buy && st.positions.Valid()
    requires BuyQty(st.cash, f.qty, f.price, f.fee) == Some(q)
    ensures Settle(st, f) == PortfolioState(st.cash - Cost(q, f.price, f.fee),
                                            st.positions.Put(f.symbol, PositionOf(st, f.symbol) + q),
                                            st.lastPrice[f.symbol := f.price])
  {
  }

  /** The state a SELL of `sold > 0` shares produces, field by field. */
  lemma SettleSell(st: PortfolioState, f: Event, sold: int)
    requires f.Fill? && f.side == Sell && st.positions.Valid()
    requires sold == MinInt(f.qty, PositionOf(st, f.symbol)) && sold > 0
    ensures Settle(st, f) == PortfolioState(st.cash + Proceeds(sold, f.price, f.fee),
                                            st.positions.Put(f.symbol, PositionOf(st, f.symbol) - sold),
                                            st.lastPrice[f.symbol := f.price])
  {
  }

  /** Whether settling `f` changes anything at all. */
  predicate Settles(st: PortfolioState, f: Event)
    requires f.Fill?
  {
    if f.side == Buy then BuyQty(st.cash, f.qty, f.price, f.fee).Some?
    else MinInt(f.qty, PositionOf(st, f.symbol)) > 0
  }

  /** A dropped fill leaves the whole state alone, last price included; a
      settled one moves only the fill's symbol. */
  lemma SettleFrame(st: PortfolioState, f: Event)
    requires f.Fill? && st.positions.Valid()
    ensures !Settles(st, f) ==> Settle(st, f) == st
    ensures Settles(st, f) ==> Settle(st, f).lastPrice == st.lastPrice[f.symbol := f.price]
    ensures forall s :: s != f.symbol ==> PositionOf(Settle(st, f), s) == PositionOf(st, s)
    ensures forall s :: s != f.symbol && s in st.lastPrice ==>
              s in Settle(st, f).lastPrice && Settle(st, f).lastPrice[s] == st.lastPrice[s]
  {
  }

  /** A BUY at a positive price never leaves cash negative, whatever the
      cash was before: either it is affordable, or it is cut down to what
      is, or it is dropped. */
  lemma BuyKeepsCashNonNegative(st: PortfolioState, f: Event)
    requires f.Fill? && f.side == Buy && f.price > 0.0 && st.positions.Valid()
    requires Settles(st, f)
    ensures Settle(st, f).cash >= 0.0
    ensures PositionOf(Settle(st, f), f.symbol) == PositionOf(st, f.symbol) + BuyQty(st.cash, f.qty, f.price, f.fee).value
  {
    if f.price * f.qty as real + f.fee > st.cash {
      ReclampAffordable(st.cash, f.qty, f.price, f.fee);
    }
  }

  /** A SELL sells `min(qty, held)`: the position never goes below zero and
      cash rises by the proceeds net of the fee. */
  lemma SellSettlement(st: PortfolioState, f: Event)
    requires f.Fill? && f.side == Sell && st.positions.Valid()
    requires Settles(st, f)
    ensures var sold := MinInt(f.qty, PositionOf(st, f.symbol));
            && PositionOf(Settle(st, f), f.symbol) == PositionOf(st, f.symbol) - sold
            && PositionOf(Settle(st, f), f.symbol) >= 0
            && Settle(st, f).cash == st.cash + f.price * sold as real - f.fee
  {
  }

  /** A fill settled at the symbol's last price changes equity by exactly
      minus its fee: cash and holding value trade one for the other. */
  lemma SettleAtLastPriceCostsFee(st: PortfolioState, f: Event)
    requires f.Fill? && st.positions.Valid()
    requires f.symbol in st.lastPrice && st.lastPrice[f.symbol] == f.price
    requires Settles(st, f)
    ensures Equity(Settle(st, f)) == Equity(st) - f.fee
  {
    if f.side == Buy {
      BuyAtMark(st, f, BuyQty(st.cash, f.qty, f.price, f.fee).value);
    } else {
      SellAtMark(st, f, MinInt(f.qty, PositionOf(st, f.symbol)));
    }
  }

  lemma BuyAtMark(st: PortfolioState, f: Event, q: int)
    requires f.Fill? && f.side == Buy && st.positions.Valid()
    requires f.symbol in st.lastPrice && st.lastPrice[f.symbol] == f.price
    requires BuyQty(st.cash, f.qty, f.price, f.fee) == Some(q)
    ensures Equity(Settle(st, f)) == Equity(st) - f.fee
  {
    SettleBuy(st, f, q);
    BuyAtMarkFields(st, f, q);
  }

  lemma BuyAtMarkFields(st: PortfolioState, f: Event, q: int)
    requires f.Fill? && f.side == Buy && st.positions.Valid()
    requires f.symbol in st.lastPrice && st.lastPrice[f.symbol] == f.price
    requires Settle(st, f).cash == st.cash - Cost(q, f.price, f.fee)
    requires Settle(st, f).positions == st.positions.Put(f.symbol, PositionOf(st, f.symbol) + q)
    requires Settle(st, f).lastPrice == st.lastPrice[f.symbol := f.price]
    ensures Equity(Settle(st, f)) == Equity(st) - f.fee
  {
    EquityAfterBuy(st, f.symbol, q, PositionOf(st, f.symbol) + q, f.price, f.fee);
  }

  lemma EquityAfterBuy(st: PortfolioState, sym: Symbol, q: int, v: int, px: real, fee: real)
    requires st.positions.Valid()
    requires sym in st.lastPrice && st.lastPrice[sym] == px
    requires v == PositionOf(st, sym) + q
    ensures Equity(PortfolioState(st.cash - Cost(q, px, fee), st.positions.Put(sym, v),
                                  st.lastPrice[sym := px])) == Equity(st) - fee
  {
    assert st.lastPrice[sym := px] == st.lastPrice;
    MarkedTrade(st.positions, st.lastPrice, sym, q, v, px);
  }

  lemma SellAtMark(st: PortfolioState, f: Event, sold: int)
    requires f.Fill? && f.side == Sell && st.positions.Valid()
    requires f.symbol in st.lastPrice && st.lastPrice[f.symbol] == f.price
    requires sold == MinInt(f.qty, PositionOf(st, f.symbol)) && sold > 0
    ensures Equity(Settle(st, f)) == Equity(st) - f.fee
  {
    SettleSell(st, f, sold);
    EquityAfterSell(st, f.symbol, sold, PositionOf(st, f.symbol) - sold, f.price, f.fee);
  }

  lemma EquityAfterSell(st: PortfolioState, sym: Symbol, sold: int, v: int, px: real, fee: real)
    requires st.positions.Valid()
    requires sym in st.lastPrice && st.lastPrice[sym] == px
    requires v == PositionOf(st, sym) - sold
    ensures Equity(PortfolioState(st.cash + Proceeds(sold, px, fee), st.positions.Put(sym, v),
                                  st.lastPrice[sym := px])) == Equity(st) - fee
  {
    var lp := st.lastPrice;
    var om := st.positions.Put(sym, v);
    var q := -sold;
    assert lp[sym := px] == lp;
    MarkedTrade(st.positions, lp, sym, q, v, px);
    SaleAtMark(st.cash, MarkedValue(st.positions.keys, st.positions.entries, lp),
               MarkedValue(om.keys, om.entries, lp), q, px, fee);
  }

  /** The proceeds of a sale cancel the holding value it gives up, less the
      fee, on plain numbers. */
  lemma SaleAtMark(cash: real, mv: real, mv': real, q: int, px: real, fee: real)
    requires mv' == mv + px * q as real
    ensures cash + Proceeds(-q, px, fee) + mv' == cash + mv - fee
  {
  }

  /** Adding `q` to one symbol's holding at its last price adds `q * px`
      to the marked value, whether the symbol was held before or not. */
  lemma MarkedTrade(om: OrderedMap<Symbol, int>, lp: map<Symbol, real>, sym: Symbol, q: int, v: int, px: real)
    requires om.Valid()
    requires sym in lp && lp[sym] == px
    requires v == GetOr(om.entries, sym, 0) + q
    ensures MarkedValue(om.Put(sym, v).keys, om.Put(sym, v).entries, lp) == MarkedValue(om.keys, om.entries, lp) + px * q as real
  {
    if sym in om.entries {
      MarkedTradeHeld(om.keys, om.entries, lp, sym, q, v, px);
    } else {
      MarkedTradeNew(om.keys, om.entries, lp, sym, q, v, px);
    }
  }

  lemma MarkedTradeHeld(keys: seq<Symbol>, qty: map<Symbol, int>, lp: map<Symbol, real>, sym: Symbol, q: int, v: int, px: real)
    requires Distinct(keys) && sym in keys
    requires sym in lp && lp[sym] == px
    requires v == GetOr(qty, sym, 0) + q
    ensures MarkedValue(keys, qty[sym := v], lp) == MarkedValue(keys, qty, lp) + px * q as real
  {
    assert lp[sym := px] == lp;
    MarkedUpdate(keys, qty, lp, sym, v, px);
    ShiftAtMark(MarkedValue(keys, qty[sym := v], lp), MarkedValue(keys, qty, lp), Term(sym, qty, lp),
                GetOr(qty, sym, 0), q, v, px);
  }

  lemma MarkedTradeNew(keys: seq<Symbol>, qty: map<Symbol, int>, lp: map<Symbol, real>, sym: Symbol, q: int, v: int, px: real)
    requires Distinct(keys) && sym !in keys && sym !in qty
    requires sym in lp && lp[sym] == px
    requires v == GetOr(qty, sym, 0) + q
    ensures MarkedValue(keys + [sym], qty[sym := v], lp) == MarkedValue(keys, qty, lp) + px * q as real
  {
    assert lp[sym := px] == lp;
    MarkedUpdate(keys, qty, lp, sym, v, px);
    assert (keys + [sym])[..|keys|] == keys;
    assert v == q;
    assert Term(sym, qty[sym := v], lp) == v as real * px;
  }

  /** The arithmetic of one trade at the mark, on plain numbers. */
  lemma ShiftAtMark(mp: real, m: real, t: real, g: int, q: int, v: int, px: real)
    requires mp == m + (v as real * px - t) && t == g as real * px && v == g + q
    ensures mp == m + px * q as real
  {
    TradeAtMark(g, q, v, px);
  }

  lemma TradeAtMark(held: int, q: int, v: int, px: real)
    requires v == held + q
    ensures v as real * px == held as real * px + px * q as real
  {
  }

  // ------------------------------------------------------------- the class

  class Portfolio {
    const cfg: PortfolioConfig
    var state: PortfolioState
    var history: seq<LedgerRow>

    ghost predicate Valid()
      reads this
    {
      state.positions.Valid()
    }

    /** `Portfolio(cfg, symbols)`: the configured cash, a zero position per
        symbol, no prices and an empty ledger. */
    constructor (cfg: PortfolioConfig, symbols: seq<Symbol>)
      ensures Valid()
      ensures this.cfg == cfg && state == InitialState(cfg, symbols) && history == []
    {
      this.cfg := cfg;
      state := InitialState(cfg, symbols);
      history := [];
    }

    /** `mark_to_market(t, data)`: takes the close at `t` as last price for
        every symbol with a bar there, then appends one ledger row. */
    method MarkToMarket(t: int, dh: DataHandler)
      requires Valid()
      requires forall i :: 0 <= i < |dh.symbols| ==> dh.symbols[i] in dh.data && UniqueAt(dh.data[dh.symbols[i]], t)
      modifies this
      ensures Valid()
      ensures state == old(state).(lastPrice := MarkPrices(old(state).lastPrice, dh.data, dh.symbols, t))
      ensures history == old(history) + [LedgerRow(t, state.cash, Equity(state), PositionColumns(state, dh.symbols))]
    {
      var symbols := dh.symbols;
      var lp := state.lastPrice;
      for i := 0 to |symbols|
        invariant lp == MarkPrices(state.lastPrice, dh.data, symbols[..i], t)
      {
        assert symbols[..i + 1][..i] == symbols[..i];
        var bar := dh.GetBar(symbols[i], t);
        if bar.Some? {
          lp := lp[symbols[i] := bar.value.close];
        }
      }
      assert symbols[..|symbols|] == symbols;
      state := state.(lastPrice := lp);
      var eq := EquityOf(state);
      history := history + [LedgerRow(t, state.cash, eq, PositionColumns(state, symbols))];
    }

    /** `on_fill(fill)`: settles the fill against cash and the position. */
    method OnFill(fill: Event)
      requires Valid() && fill.Fill?
      modifies this
      ensures Valid()
      ensures state == Settle(old(state), fill) && history == old(history)
    {
      var sym := fill.symbol;
      var qty := fill.qty;
      var px := fill.price;
      var fee := fill.fee;
      var held := PositionOf(state, sym);
      ghost var settled := Settle(state, fill);
      if fill.side == Buy {
        ghost var bought := BuyQty(state.cash, qty, px, fee);
        var cost := Cost(qty, px, fee);
        if cost > state.cash && px > 0.0 {
          var affordable := MaxInt(0, ((state.cash - fee) / px).Floor);
          qty := MinInt(qty, affordable);
          if qty <= 0 {
            assert bought == None && settled == state;
            return;
          }
          cost := Cost(qty, px, fee);
        }
        assert bought == Some(qty) && cost == Cost(qty, px, fee);
        ghost var target := PortfolioState(state.cash - cost, state.positions.Put(sym, held + qty), state.lastPrice[sym := px]);
        SettleBuy(state, fill, qty);
        assert settled == target;
        state := state.(cash := state.cash - cost);
        state := state.(positions := state.positions.Put(sym, held + qty));
        assert state.(lastPrice := state.lastPrice[sym := px]) == target;
      } else {
        var sold := MinInt(qty, held);
        if sold <= 0 {
          assert settled == state;
          return;
        }
        SettleSell(state, fill, sold);
        state := state.(cash := state.cash + Proceeds(sold, px, fee));
        state := state.(positions := state.positions.Put(sym, held - sold));
        assert state.(lastPrice := state.lastPrice[sym := px]) == settled;
      }
      state := state.(lastPrice := state.lastPrice[sym := px]);
    }
  }
}
