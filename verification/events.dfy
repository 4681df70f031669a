/** The four immutable event records that flow through one simulated
    timestep, as one closed sum type. */
module Events {
  import opened Common

  type Symbol = string

  /** "BUY" or "SELL"; in long-only sizing SELL means "exit to flat". */
  datatype Side = Buy | Sell

  /** One OHLCV bar: exactly the five required fields. */
  datatype Bar = Bar(open: real, high: real, low: real, close: real, volume: real)

  /** The audit record an execution attaches to a fill. */
  datatype FillMeta = FillMeta(
    basePrice: real,
    slipBps: real,
    impactBps: real,
    halfSpreadBps: real,
    desiredQty: int,
    filledQty: int)

  datatype Event =
    | Market(t: int, symbol: Symbol, bar: Bar)
    | Signal(t: int, symbol: Symbol, side: Side, strength: real)
    | Order(t: int, symbol: Symbol, side: Side, qty: int, orderType: string)
    | Fill(t: int, symbol: Symbol, side: Side, qty: int, price: real, fee: real, slippage: real,
           meta: Option<FillMeta>)

  const DefaultStrength: real := 1.0
  const MarketOrderType: string := "MKT"

  /** `SignalEvent(t, symbol, side)` with the default strength. */
  function NewSignal(t: int, symbol: Symbol, side: Side): (e: Event)
    ensures e.Signal? && e.t == t && e.symbol == symbol && e.side == side
    ensures e.strength == 1.0
  {
    Signal(t, symbol, side, DefaultStrength)
  }

  /** `OrderEvent(t, symbol, side, qty)` with the default order type. */
  function NewOrder(t: int, symbol: Symbol, side: Side, qty: int): (e: Event)
    ensures e.Order? && e.t == t && e.symbol == symbol && e.side == side && e.qty == qty
    ensures e.orderType == "MKT"
  {
    Order(t, symbol, side, qty, MarketOrderType)
  }

  /** The price turnover is measured at: the metadata's base price, or the
      fill price when the fill carries no metadata. */
  function TurnoverPrice(e: Event): (p: real)
    requires e.Fill?
    ensures e.meta.Some? ==> p == e.meta.value.basePrice
    ensures e.meta.None? ==> p == e.price
  {
    match e.meta
    case Some(m) => m.basePrice
    case None => e.price
  }

  /** What a BUY of `qty` at `px` takes from cash: its value plus the fee. */
  function Cost(qty: int, px: real, fee: real): real
  {
    px * qty as real + fee
  }

  /** What a SELL of `qty` at `px` adds to cash: its value less the fee. */
  function Proceeds(qty: int, px: real, fee: real): real
  {
    px * qty as real - fee
  }

  /** Every event is exactly one of the four kinds. */
  lemma ExactlyOneKind(e: Event)
    ensures (if e.Market? then 1 else 0) + (if e.Signal? then 1 else 0)
          + (if e.Order? then 1 else 0) + (if e.Fill? then 1 else 0) == 1
  {
  }
}
