# Event-driven backtester and RAG evaluation helpers, modelled in Dafny

This project models the deterministic core of three related Python code
bases and proves what that code promises.

**The backtesting engine** (`backtest-engine-paper/src/engine`):
- Four kinds of event (market bar, strategy signal, order, fill) pass through a first-in-first-out queue.
- A `DataHandler` validates per-symbol bar frames, sorts them and merges their timestamps into one timeline. It walks that timeline with a cursor and answers "history as of t" queries.
- Two strategies, time-series momentum and a mean-reversion z-score, turn each market bar into an optional signal.
- A long-only portfolio accountant:
  - marks holdings to market once per timestep;
  - sizes orders under weight and cash limits;
  - settles fills, shrinking an unaffordable buy or an oversized sell instead of rejecting it.
- An execution simulator:
  - resolves the decision bar and applies the delay;
  - caps the fill by a participation rate of average daily volume;
  - prices the fill through a ladder of spread, slippage and impact, then charges a fee.
- The `Backtester` drives the timeline:
  - it enqueues one market event per listed symbol;
  - it marks to market;
  - it drains the queue along the chain market → signal → order → fill;
  - it accumulates per-fill turnover;
  - it reduces the ledger to summary metrics (CAGR, Sharpe, max drawdown, annualised volatility, turnover).

**The RAG evaluation project** (`rag-pareto-frontiers/src`):
- word and character chunking of documents;
- answer token-F1, and title- and span-based retrieval recall and precision;
- Pareto filtering of sweep results;
- min-max hybrid score fusion of two retrievers;
- a hit/miss-counting cache;
- dotted-path `deep_set` on nested configuration dictionaries;
- the Cartesian expansion of a parameter grid.

**The study tooling** (`llm_roi_study/scripts`): the Latin-square generator that gives each participant nine tasks.

How Python constructs are modelled:
- Objects whose fields the code updates in place become classes with `modifies` frames:
  - the event queue;
  - the data handler's cursor;
  - the portfolio;
  - the backtester;
  - the cache and its counters;
  - the configuration dictionaries.
- Loops become methods with invariants, proved against specification functions:
  - chunking;
  - token counting;
  - the span-score counters;
  - the Pareto filter;
  - the hybrid merge;
  - the in-place shuffle;
  - the assignment generator.
- Pure code becomes functions and lemmas.

How values are represented:
- Prices, cash and scores are `real`.
- Timestamps are integers (days).
- A frame is a sequence of `(t, bar)` rows.
- A Python `dict` whose insertion order matters is `Common.OrderedMap`.
- Floating-point operations that cannot be computed exactly sit behind an `Oracle` of function values. `Sound(o)` states the only facts the proofs use:
  - square roots are non-negative, and the root of 0 is 0;
  - powers of positive bases are positive;
  - division by a non-zero divisor is exact.

## Model


| member | source | states |
|---|---|---|
| Events.NewSignal | backtest-engine-paper/src/engine/events.py:16-22 | a signal carries the given time, symbol and side, and its strength defaults to 1.0 |
| Events.NewOrder | backtest-engine-paper/src/engine/events.py:25-32 | an order carries the given time, symbol, side and integer quantity, and its type defaults to "MKT" |
| Events.TurnoverPrice | backtest-engine-paper/src/engine/backtest.py:88 | the turnover price of a fill is the metadata base price when metadata is present, and the fill price otherwise |
| Events.ExactlyOneKind | backtest-engine-paper/src/engine/event_queue.py:8 | every event is exactly one of Market, Signal, Order and Fill |
| EventQueues.EventQueue.constructor | backtest-engine-paper/src/engine/event_queue.py:14-15 | a new queue is empty, with nothing put or taken |
| EventQueues.EventQueue.Put | backtest-engine-paper/src/engine/event_queue.py:17-18 | `put` appends at the tail and leaves earlier events in place; the put log grows by that event |
| EventQueues.EventQueue.Get | backtest-engine-paper/src/engine/event_queue.py:20-21 | `get` needs a non-empty queue, returns the head and removes exactly it; the taken log grows by it |
| EventQueues.EventQueue.Empty | backtest-engine-paper/src/engine/event_queue.py:23-24 | `empty()` holds iff the queue has no events |
| EventQueues.EventQueue.Len | backtest-engine-paper/src/engine/event_queue.py:26-27 | `len` is the number of queued events |
| EventQueues.DrainedInOrder | backtest-engine-paper/src/engine/event_queue.py:11-21 | once drained, the events taken are exactly the events put, in the same order |
| EventQueues.TakesOldestFirst | backtest-engine-paper/src/engine/event_queue.py:17-21 | the next event taken is the oldest event put and not yet taken |
| Data.Missing | backtest-engine-paper/src/engine/data.py:20 | the missing columns are exactly the required columns the frame lacks |
| Data.CheckFrame | backtest-engine-paper/src/engine/data.py:18-22 | a frame passes iff it is time-indexed and has open, high, low, close and volume; the index check comes first |
| Data.FirstError | backtest-engine-paper/src/engine/data.py:16-22 | validation succeeds iff every frame passes its check |
| Data.FirstErrorStep | backtest-engine-paper/src/engine/data.py:16-22 | the error reported is the first failing frame's, in input order |
| Data.Closes | backtest-engine-paper/src/engine/strategy.py:24 | the close column of a history, row by row |
| Data.SortRows | backtest-engine-paper/src/engine/data.py:23 | `sort_index` returns a time-sorted rearrangement of the rows |
| Data.SortSymbols | backtest-engine-paper/src/engine/data.py:25 | the symbol list is a sorted rearrangement of the keys |
| Data.InsertTime | backtest-engine-paper/src/engine/data.py:35 | adding one timestamp to an ascending duplicate-free timeline keeps it so and adds exactly that value |
| Data.UnionTimes | backtest-engine-paper/src/engine/data.py:34-35 | `union` yields an ascending duplicate-free timeline holding exactly the old times and the frame's times |
| Data.BuildTimeline | backtest-engine-paper/src/engine/data.py:29-36 | the timeline is ascending, without repeats, and holds exactly the timestamps of all series |
| Data.TimelineCoversAllTimes | backtest-engine-paper/src/engine/data.py:29-36 | the timeline's values are exactly the times of the stored rows |
| Data.AsOfLength | backtest-engine-paper/src/engine/data.py:58-60 | the as-of cut is the first row later than t |
| Data.HistoryAsOf | backtest-engine-paper/src/engine/data.py:58-60 | `get_history_asof` returns a prefix of the sorted rows that holds every row with time ≤ t and no other row |
| Data.HistoryAtRowTime | backtest-engine-paper/tests/test_no_lookahead.py:13-17 | asking at the k-th row's own time gives k+1 rows, the last one at that time |
| Data.HistoryIgnoresLaterRows | backtest-engine-paper/src/engine/data.py:58-60 | appending rows later than t does not change the history as of t |
| Data.BarAt | backtest-engine-paper/src/engine/data.py:51-56 | the bar is absent iff no row has time t; otherwise it is the bar of the row at t |
| Data.StrictlyIncreasingUnique | backtest-engine-paper/src/engine/data.py:51-56 | with strictly increasing times, each time has at most one row, so the lookup is well defined |
| Data.Names | backtest-engine-paper/src/engine/data.py:16 | the symbol names in input order |
| Data.SeriesMapDomain | backtest-engine-paper/src/engine/data.py:15-23 | the stored map has exactly the input's symbols, and each series is time-sorted |
| Data.SeriesMapValues | backtest-engine-paper/src/engine/data.py:15-23 | each symbol maps to its own frame's rows, sorted by time |
| Data.SeriesMapFacts | backtest-engine-paper/src/engine/data.py:15-23 | both facts above, plus distinct names |
| Data.AssembledParts | backtest-engine-paper/src/engine/data.py:25-26 | the sorted symbol list is duplicate-free and lists exactly the stored symbols; the timeline covers all times |
| Data.DataHandler.FromSorted | backtest-engine-paper/src/engine/data.py:25-27 | the handler stores the series, the symbols and the timeline, with the cursor at 0 |
| Data.DataHandler.ValidateFrames | backtest-engine-paper/src/engine/data.py:15-23 | the loop either raises the first frame's error or returns the sorted series in input order |
| Data.DataHandler.Load | backtest-engine-paper/src/engine/data.py:14-27 | construction fails exactly on the first invalid frame; otherwise each symbol holds its sorted rows and the cursor is 0 |
| Data.DataHandler.Reset | backtest-engine-paper/src/engine/data.py:38-39 | `reset` sets the cursor to 0 |
| Data.DataHandler.HasNext | backtest-engine-paper/src/engine/data.py:41-42 | `has_next` holds iff the cursor is before the end of the timeline |
| Data.DataHandler.NextTime | backtest-engine-paper/src/engine/data.py:44-49 | `next_time` returns the timeline entry at the cursor and advances it by one; when exhausted it fails and the cursor stays |
| Data.DataHandler.GetBar | backtest-engine-paper/src/engine/data.py:51-56 | no bar iff the symbol has no row at t, otherwise the bar of the row at t |
| Data.DataHandler.GetHistoryAsOf | backtest-engine-paper/src/engine/data.py:58-60 | a prefix of the symbol's rows holding every row at or before t and no later row |
| Strategies.MomentumSide | backtest-engine-paper/src/engine/strategy.py:20-27 | no signal with fewer than lookback+1 bars; otherwise BUY iff `close[-1]/close[-1-lookback] - 1 > 0` |
| Strategies.MomentumPositivePrices | backtest-engine-paper/src/engine/strategy.py:24-26 | for positive prices, BUY iff the last close exceeds the close `lookback` bars earlier |
| Strategies.RatioAboveOne | backtest-engine-paper/src/engine/strategy.py:25-26 | for a positive denominator, `a/b - 1 > 0` iff `a > b` |
| Strategies.Spread | backtest-engine-paper/src/engine/strategy.py:44 | the z-score denominator is the sample deviation when positive, otherwise 1e-12 |
| Strategies.MeanReversionSide | backtest-engine-paper/src/engine/strategy.py:35-47 | no signal iff there are fewer than window+2 bars, fewer than `window` returns or no return at all; otherwise BUY iff z < −z_enter, else SELL |
| Strategies.Decide | backtest-engine-paper/src/engine/strategy.py:27-47 | an emitted signal carries the market event's time and symbol, with strength 1.0 |
| Strategies.OnMarket | backtest-engine-paper/src/engine/strategy.py:20-47 | a signal at the event's time and symbol with strength 1.0; momentum signals iff the as-of history has lookback+1 bars and buys iff the close rose over the lookback; mean reversion signals iff the mean-reversion guards pass on the as-of history and buys iff z < −z_enter |
| Strategies.NoLookAhead | backtest-engine-paper/src/engine/strategy.py:21-36 | changing or adding bars after the event time does not change the signal |
| Strategies.FlatCloseReturns | backtest-engine-paper/src/engine/strategy.py:39 | a flat positive price history has only zero returns, one fewer than its bars |
| Strategies.ZeroReturnsZeroScore | backtest-engine-paper/src/engine/strategy.py:42-45 | all-zero returns give a z-score of 0, through the 1e-12 floor |
| Strategies.MeanReversionFlatHistory | backtest-engine-paper/src/engine/strategy.py:37-46 | with a flat price history and z_enter ≥ 0, mean reversion says SELL |
| Portfolios.EquityOf | backtest-engine-paper/src/engine/portfolio.py:26-32 | the loop over positions computes cash plus qty × last price over symbols with a known price |
| Portfolios.MarkedUpdate | backtest-engine-paper/src/engine/portfolio.py:26-32 | changing one symbol's quantity and price changes the equity by exactly that symbol's term |
| Portfolios.MarkedPut | backtest-engine-paper/src/engine/portfolio.py:26-32 | writing a position into the ordered dict changes the marked value by the new term minus the old one |
| Portfolios.AccountingIdentity | backtest-engine-paper/tests/test_accounting.py:13-20 | with one symbol, equity is cash + position × last price, 0 when unpriced |
| Portfolios.ZeroPositions | backtest-engine-paper/src/engine/portfolio.py:40 | `{s: 0 for s in symbols}` has exactly those keys, each 0 |
| Portfolios.InitialState | backtest-engine-paper/src/engine/portfolio.py:36-43 | a new portfolio has the initial cash, a zero position per symbol and no last prices |
| Portfolios.MarkPrices | backtest-engine-paper/src/engine/portfolio.py:46-49 | the last price becomes the close for exactly the symbols with a bar at t; other prices are unchanged |
| Portfolios.PositionColumns | backtest-engine-paper/src/engine/portfolio.py:55 | one position column per listed symbol, 0 when absent |
| Portfolios.FloorTimes | backtest-engine-paper/src/engine/portfolio.py:71 | `floor(b/px) × px ≤ b < (floor(b/px)+1) × px` |
| Portfolios.TargetQty | backtest-engine-paper/src/engine/portfolio.py:58-71 | sizing is never negative, and is 0 when there is no positive last price |
| Portfolios.TargetQtyFitsBudget | backtest-engine-paper/src/engine/portfolio.py:63-71 | the size is the largest count whose value fits `min(target, max_weight × equity, max(0, cash + current value))`, or 0 for a negative budget |
| Portfolios.OrderToTargetLong | backtest-engine-paper/src/engine/portfolio.py:73-84 | no order iff \|target − held\| < min_qty; otherwise an order moves the holding exactly to target, BUY iff target > held, and a SELL never exceeds the holding |
| Portfolios.OnSignal | backtest-engine-paper/src/engine/portfolio.py:86-94 | BUY orders to target; SELL gives nothing for a flat holding, otherwise a SELL of the whole position |
| Portfolios.BuyQty | backtest-engine-paper/src/engine/portfolio.py:102-109 | an affordable buy (or a non-positive price) keeps its quantity; an unaffordable one is cut to `min(qty, max(0, floor((cash − fee)/px)))` and dropped when that is not positive |
| Portfolios.ReclampAffordable | backtest-engine-paper/src/engine/portfolio.py:104-109 | a reclamped buy has at least 1 share and costs no more than the cash |
| Portfolios.Settle | backtest-engine-paper/src/engine/portfolio.py:96-119 | settling a fill keeps positions a well-formed ordered dict |
| Portfolios.SettleBuy | backtest-engine-paper/src/engine/portfolio.py:102-119 | a settled buy pays `px × q + fee`, adds q to the position and records the fill price |
| Portfolios.SettleSell | backtest-engine-paper/src/engine/portfolio.py:112-119 | a settled sell receives `px × sold − fee`, removes `sold` from the position and records the price |
| Portfolios.SettleFrame | backtest-engine-paper/src/engine/portfolio.py:107-119 | a dropped fill changes nothing, not even the last price; other symbols' positions and prices never change |
| Portfolios.BuyKeepsCashNonNegative | backtest-engine-paper/src/engine/portfolio.py:102-111 | a buy at a positive price never leaves cash negative and adds the reclamped quantity |
| Portfolios.SellSettlement | backtest-engine-paper/src/engine/portfolio.py:112-117 | a sell removes `min(qty, held)`, so the position stays ≥ 0, and cash rises by `px × sold − fee` |
| Portfolios.SettleAtLastPriceCostsFee | backtest-engine-paper/src/engine/portfolio.py:96-119 | a fill at the marked price changes equity by exactly −fee |
| Portfolios.BuyAtMark | backtest-engine-paper/src/engine/portfolio.py:102-111 | a buy at the marked price costs equity exactly its fee |
| Portfolios.EquityAfterBuy | backtest-engine-paper/src/engine/portfolio.py:110-111 | paying `px × q + fee` for q shares worth `px` each lowers equity by the fee |
| Portfolios.SellAtMark | backtest-engine-paper/src/engine/portfolio.py:112-117 | a sell at the marked price costs equity exactly its fee |
| Portfolios.EquityAfterSell | backtest-engine-paper/src/engine/portfolio.py:116-117 | receiving `px × sold − fee` for shares worth `px` each lowers equity by the fee |
| Portfolios.MarkedTrade | backtest-engine-paper/src/engine/portfolio.py:111-117 | trading q shares of a symbol priced px changes the marked value by `px × q` |
| Portfolios.Portfolio.constructor | backtest-engine-paper/src/engine/portfolio.py:36-43 | a new portfolio starts in the initial state with an empty history |
| Portfolios.Portfolio.MarkToMarket | backtest-engine-paper/src/engine/portfolio.py:45-56 | only last prices change, cash and positions do not; exactly one history row (t, cash, equity, positions) is appended |
| Portfolios.Portfolio.OnFill | backtest-engine-paper/src/engine/portfolio.py:96-119 | the new state is the settlement of the fill, and the history is unchanged |
| Execution.FreeExecutionAtBase | backtest-engine-paper/src/engine/execution.py:29-40 | with all bps zero, the price is the base price |
| Execution.BuyNotBelowBase | backtest-engine-paper/src/engine/execution.py:29-40 | with non-negative bps, a BUY pays at least the base price |
| Execution.SellNotAboveBase | backtest-engine-paper/src/engine/execution.py:29-40 | with bps in [0, 1e4], a SELL receives between 0 and the base price |
| Execution.WiderSpreadWorsePrice | backtest-engine-paper/src/engine/execution.py:30-34 | a wider half-spread never improves a BUY or a SELL price |
| Execution.Volumes | backtest-engine-paper/src/engine/execution.py:60 | the volume column of a history |
| Execution.DollarVolumes | backtest-engine-paper/src/engine/execution.py:54 | close × volume, row by row |
| Execution.ShortHistoryNoVolatility | backtest-engine-paper/src/engine/execution.py:43-45 | with too few returns, the rolling volatility is 0 |
| Execution.RollingVolNonNegative | backtest-engine-paper/src/engine/execution.py:42-48 | the annualised volatility is never negative |
| Execution.AdvSharesOfConstantVolume | backtest-engine-paper/src/engine/execution.py:56-60 | with enough bars of constant volume v, ADV shares is v |
| Execution.AdvSharesNonNegative | backtest-engine-paper/src/engine/execution.py:56-60 | ADV shares is never negative for non-negative volumes |
| Execution.ParticipationCap | backtest-engine-paper/src/engine/execution.py:69 | the cap is `int(max(1, adv × pr))`: at least 1 and the floor of that maximum |
| Execution.CapQty | backtest-engine-paper/src/engine/execution.py:62-70 | the quantity is `desired` when pr ≥ 1 or ADV ≤ 0, else `min(desired, cap)`; always ≤ desired, and ≥ 1 when desired ≥ 1 |
| Execution.CappedQty | backtest-engine-paper/src/engine/execution.py:62-70 | the capped quantity never exceeds the order, and is ≥ 1 when the order is |
| Execution.CapRespected | backtest-engine-paper/src/engine/execution.py:67-70 | when the cap applies, the quantity is within `max(1, adv × pr)`, and a cut quantity is still ≥ 1 |
| Execution.FivePercentOfThousandShares | backtest-engine-paper/src/engine/execution.py:62-70 | 5% of 1000 shares a day caps a 10 000-share order at 50 once 20 bars exist |
| Execution.ShortHistoryUncapped | backtest-engine-paper/src/engine/execution.py:57-68 | with fewer than `max(2, adv_lookback)` bars, the order is not capped |
| Execution.DecisionIndex | backtest-engine-paper/src/engine/execution.py:76-82 | the decision bar is the first bar at or after the order time |
| Execution.DecisionAtOrderBar | backtest-engine-paper/src/engine/execution.py:81-82 | an order placed on a bar decides on that bar |
| Execution.DecisionAtNextBar | backtest-engine-paper/src/engine/execution.py:76-80 | otherwise the decision bar is the first later bar |
| Execution.ImpactGated | backtest-engine-paper/src/engine/execution.py:103-107 | impact is 0 unless ADV dollars > 0 and impact_k > 0, and is never negative for a non-negative trade |
| Execution.FillAt | backtest-engine-paper/src/engine/execution.py:109-130 | the fill carries the execution time, symbol, side and quantity; the ladder price, fee and slippage; and metadata with the base price, each cost component and both quantities |
| Execution.FeeAndSlippageNonNegative | backtest-engine-paper/src/engine/execution.py:110-112 | slippage `\|px − base\| × qty` is ≥ 0, and the fee is ≥ 0 for a non-negative fee rate and price |
| Execution.FillOnBar | backtest-engine-paper/src/engine/execution.py:90-130 | a fill occurs iff the quantity capped on the history up to bar k is at least 1, so always for a positive order; it fills that many shares (between 1 and the order's quantity) at bar k's time from bar k's open |
| Execution.ExecIndex | backtest-engine-paper/src/engine/execution.py:84-85 | the execution bar is `max(0, delay_days)` bars after the decision bar, never before it |
| Execution.Execute | backtest-engine-paper/src/engine/execution.py:72-130 | no fill past the end of the data; inside the data the result is the fill on the execution bar, which exists for a positive order; a fill is never earlier than the order and fills 1..qty shares |
| Execution.HistoryAtExecutionBar | backtest-engine-paper/src/engine/execution.py:95 | the lookback history is exactly the rows up to and including the execution bar |
| Execution.ExecutionBarFound | backtest-engine-paper/src/engine/execution.py:90-92 | the execution bar's own lookup always finds it, so that early return never fires |
| Execution.ExecuteIgnoresLaterBars | backtest-engine-paper/src/engine/execution.py:95 | bars after the execution bar do not affect the fill |
| Execution.ShortHistoryFillsInFull | backtest-engine-paper/src/engine/execution.py:56-68 | when the execution bar is inside the ADV lookback, the order fills in full |
| Execution.FillConsistencyExample | backtest-engine-paper/tests/test_fill_consistency.py:7-19 | on 40 daily bars with delay 1, pr 5% and lookback 20, the 10 000-share order fills in full on the second bar |
| Execution.SameExecIndex | backtest-engine-paper/src/engine/execution.py:84-85 | configurations with the same delay pick the same execution bar |
| Execution.SameCap | backtest-engine-paper/src/engine/execution.py:62-70 | the same participation settings give the same quantity |
| Execution.SameSlip | backtest-engine-paper/src/engine/execution.py:100-101 | the same volatility settings give the same slippage bps |
| Execution.SameImpact | backtest-engine-paper/src/engine/execution.py:103-107 | the same impact settings give the same impact bps |
| Execution.CostlierFillAt | backtest-engine-paper/src/engine/execution.py:109-111 | a higher fee or spread gives a BUY that costs at least as much, and a SELL that yields at most as much |
| Execution.CostlierConfigWorseFill | backtest-engine-paper/tests/test_cost_monotonicity.py:16-19 | per fill, raising fee and spread keeps the time and quantity and never improves the cash outcome |
| Execution.GrossCostMonotone | backtest-engine-paper/src/engine/execution.py:110-111 | a higher price and fee rate give a higher gross buy cost |
| Execution.NetProceedsMonotone | backtest-engine-paper/src/engine/execution.py:110-111 | a lower price and a higher fee rate give lower net sell proceeds |
| Backtests.InPeriod | backtest-engine-paper/src/engine/backtest.py:39 | the period filter keeps exactly the rows with start ≤ t ≤ end |
| Backtests.SlicePeriod | backtest-engine-paper/src/engine/backtest.py:35-40 | every frame is filtered and keeps its symbol and columns |
| Backtests.SlicedValidation | backtest-engine-paper/src/engine/backtest.py:35-42 | slicing keeps the symbols distinct and does not change which frame fails validation |
| Backtests.SlicedTimesInPeriod | backtest-engine-paper/src/engine/backtest.py:35-42 | after the period filter, every stored time lies in the period |
| Backtests.FillTurnover | backtest-engine-paper/src/engine/backtest.py:88-89 | a fill's turnover row has the fill's time and a non-negative amount |
| Backtests.Turnovers | backtest-engine-paper/src/engine/backtest.py:99 | the turnover column of the rows |
| Backtests.DailyTurnover | backtest-engine-paper/src/engine/backtest.py:96-101 | turnover per ledger time is the sum of that day's fills |
| Backtests.NoFillsNoTurnover | backtest-engine-paper/src/engine/backtest.py:97-101 | a day without fills has turnover 0 |
| Backtests.TurnoverOnNonNegative | backtest-engine-paper/src/engine/backtest.py:89-101 | a day's turnover is never negative |
| Backtests.DailyTurnoverAppend | backtest-engine-paper/src/engine/backtest.py:99-101 | one more fill adds its amount to the daily total iff its day is on the ledger |
| Backtests.DailyTurnoverConserved | backtest-engine-paper/src/engine/backtest.py:96-101 | when every fill's day is on the ledger, grouping by day loses no turnover |
| Backtests.ListedEverywhere | backtest-engine-paper/src/engine/backtest.py:58-59 | every listed symbol can be asked for its bar at any time |
| Backtests.MarketEventsAt | backtest-engine-paper/src/engine/backtest.py:58-62 | at most one market event per listed symbol |
| Backtests.MarketEventsShape | backtest-engine-paper/src/engine/backtest.py:58-62 | exactly one market event for each listed symbol with a bar at t, carrying that bar, and no other events |
| Backtests.EventSymbols | backtest-engine-paper/src/engine/backtest.py:58 | the symbols of a list of events |
| Backtests.MarketEventsSorted | backtest-engine-paper/src/engine/backtest.py:58-62 | market events come in sorted symbol order, one per symbol |
| Backtests.PotentialOfMarketEvents | backtest-engine-paper/src/engine/backtest.py:68-90 | each market event can cause at most four dequeues |
| Backtests.PotentialAppend | backtest-engine-paper/src/engine/backtest.py:68-90 | the remaining-work bound adds up over a queue |
| Backtests.FollowUp | backtest-engine-paper/src/engine/backtest.py:72-90 | handling an event enqueues at most one follow-up, for the same symbol and one step further along market → signal → order → fill; a fill enqueues nothing |
| Backtests.FollowUpFillTime | backtest-engine-paper/src/engine/backtest.py:82-85 | a fill produced while draining is at a time of the data |
| Backtests.DrainStepKeeps | backtest-engine-paper/src/engine/backtest.py:68-90 | one dequeue strictly lowers the remaining work; under the cash-floor hypotheses it keeps cash ≥ 0 and the queue safe |
| Backtests.ExecuteSafe | backtest-engine-paper/src/engine/execution.py:72-130 | under the cash-floor hypotheses, every fill has a positive buy price and a fee within its value |
| Backtests.FillOnBarSafe | backtest-engine-paper/src/engine/execution.py:93-130 | the same on a chosen bar with a positive open |
| Backtests.NoSlipWithoutVolK | backtest-engine-paper/src/engine/execution.py:101 | vol_k = 0 gives zero slippage bps |
| Backtests.FillAtSafe | backtest-engine-paper/src/engine/execution.py:109-130 | without slippage and impact, a fill at a positive base price is safe |
| Backtests.SafePrice | backtest-engine-paper/src/engine/execution.py:29-34 | a half-spread within 100% keeps the buy price positive and the sell price non-negative |
| Backtests.FeeWithinValue | backtest-engine-paper/src/engine/execution.py:110-111 | a fee rate within 100% never costs more than the trade's value |
| Backtests.DistinctAfterHandling | backtest-engine-paper/src/engine/backtest.py:68-90 | the drain keeps at most one queued event per symbol |
| Backtests.QueueStepSafe | backtest-engine-paper/src/engine/backtest.py:68-90 | a safe follow-up keeps the rest of the queue safe |
| Backtests.SettleKeepsCash | backtest-engine-paper/src/engine/portfolio.py:102-117 | a safe fill, and a sell within the holding, never take cash below 0 |
| Backtests.SettleKeepsOthers | backtest-engine-paper/src/engine/portfolio.py:96-119 | settling one symbol leaves the other symbols' queued sells within their holdings |
| Backtests.FillKeepsCashFloor | backtest-engine-paper/tests/test_no_negative_cash.py:19-20 | settling a queued fill keeps cash ≥ 0 and the rest of the queue safe |
| Backtests.DispatchKeepsCashFloor | backtest-engine-paper/src/engine/backtest.py:72-90 | handling any event keeps cash ≥ 0 and the queue safe |
| Backtests.DrainQueue | backtest-engine-paper/src/engine/backtest.py:68-90 | the drain loop on values: the fills it takes are fill events of known symbols, at most the queue's potential many, and the positions stay well formed |
| Backtests.AfterTake | backtest-engine-paper/src/engine/backtest.py:69-85 | a dequeue leaves a queue of known symbols with strictly lower potential |
| Backtests.DrainSettlesFills | backtest-engine-paper/src/engine/backtest.py:68-90 | draining changes the portfolio only by settling the fills taken, in order (`SettleAll`) |
| Backtests.DrainKeepsCashFloor | backtest-engine-paper/src/engine/backtest.py:68-90 | under the cash-floor hypotheses a drain from a safe queue and cash ≥ 0 ends with cash ≥ 0 |
| Backtests.SettleAll | backtest-engine-paper/src/engine/portfolio.py:96-119 | settling fills one after another keeps positions well formed; no fills, no change |
| Backtests.FillTurnovers | backtest-engine-paper/src/engine/backtest.py:88-89 | one turnover row per fill, with the fill's time and a non-negative amount |
| Backtests.FillTurnoversAppend | backtest-engine-paper/src/engine/backtest.py:88-89 | the turnover rows of two runs of fills are the concatenation of each's rows |
| Backtests.StepDrained | backtest-engine-paper/src/engine/backtest.py:57-90 | one timestep on values: the fills are fill events of known symbols, positions stay well formed |
| Backtests.Replay | backtest-engine-paper/src/engine/backtest.py:54-90 | the run loop on values: one ledger row per timestamp, stamped with it, in order; every fill recorded is a fill event of a known symbol |
| Backtests.ReplayKeepsCashFloor | backtest-engine-paper/tests/test_no_negative_cash.py:19-20 | under the cash-floor hypotheses, from cash ≥ 0 every ledger row and the final state have cash ≥ 0 |
| Backtests.ReplayTracksDone | backtest-engine-paper/src/engine/backtest.py:54-92 | once the timeline is exhausted the loop's ledger, state and turnover rows are the whole `Replay`'s and the ledger's times are the timeline |
| Backtests.MarkedRow | backtest-engine-paper/src/engine/portfolio.py:51-56 | a ledger row has the step's time and pre-fill cash and positions |
| Backtests.Marked | backtest-engine-paper/src/engine/portfolio.py:51-56 | marking to market moves only the last prices, to the closes of the symbols with a bar at t; cash and positions stay |
| Backtests.LedgerTimes | backtest-engine-paper/src/engine/backtest.py:92 | the ledger's time column |
| Backtests.LedgerEquity | backtest-engine-paper/src/engine/backtest.py:93 | the ledger's equity column |
| Backtests.SummaryTurnoverIsTotal | backtest-engine-paper/src/engine/backtest.py:96-110 | the reported turnover is the total of all fills' turnover |
| Backtests.Backtester.Init | backtest-engine-paper/src/engine/backtest.py:42-49 | a new backtester holds the handler, the strategy and the configurations; the portfolio is in its initial state; queue and turnover rows are empty |
| Backtests.Backtester.Create | backtest-engine-paper/src/engine/backtest.py:26-49 | construction fails exactly on the first invalid frame; otherwise the state is fresh, and with a period every timeline entry lies inside it |
| Backtests.Backtester.EnqueueMarketEvents | backtest-engine-paper/src/engine/backtest.py:57-62 | the step's market events are appended to the queue |
| Backtests.Backtester.Dispatch | backtest-engine-paper/src/engine/backtest.py:69-90 | handling one event enqueues its follow-up; a fill is settled and adds one turnover row; the ledger is untouched |
| Backtests.Backtester.DrainOne | backtest-engine-paper/src/engine/backtest.py:68-90 | one dequeue settles the head when it is a fill, leaves the rest of the queue with the head's follow-up at the tail, books one turnover row exactly for a fill, keeps the invariants and strictly lowers the remaining work |
| Backtests.Backtester.Drain | backtest-engine-paper/src/engine/backtest.py:68-90 | the queue is drained to empty within the remaining-work bound, without touching the ledger; the portfolio ends in `DrainQueue`'s state and the turnover rows gain one row per fill `DrainQueue` takes, in order |
| Backtests.Backtester.Step | backtest-engine-paper/src/engine/backtest.py:54-90 | one timestep advances the cursor by one, appends one pre-fill ledger row, drains within 4 × (market events) dequeues, and leaves the state and turnover rows of draining that step's market events from the marked state |
| Backtests.Backtester.Run | backtest-engine-paper/src/engine/backtest.py:51-112 | the run ends with the timeline exhausted; the ledger, the final state and the turnover rows are `Replay`'s over the whole timeline, so there is one ledger row per timeline entry, in order, and the turnover rows are exactly one per fill the run settles; reported turnover is their total; under the cash-floor hypotheses every row's cash is ≥ 0 |
| Numerics.PctChange | backtest-engine-paper/src/engine/metrics.py:19 | `pct_change().dropna()` has at least one value fewer than a non-empty series |
| Numerics.PctChangeExact | backtest-engine-paper/src/engine/metrics.py:19 | for a series without zeros, the returns are exactly `x[i+1]/x[i] − 1` |
| Numerics.FlatReturns | backtest-engine-paper/src/engine/metrics.py:19 | a constant positive series has only zero returns |
| Numerics.SampleStdNonNegative | backtest-engine-paper/src/engine/metrics.py:27 | the sample deviation is never negative |
| Numerics.SumConstant | backtest-engine-paper/src/engine/metrics.py:27-28 | a constant series sums to n × c with zero squared deviation |
| Numerics.MeanOfConstant | backtest-engine-paper/src/engine/metrics.py:28 | the mean of a constant series is that constant |
| Numerics.ConstantSeries | backtest-engine-paper/src/engine/metrics.py:27-28 | a constant series has its constant as mean and a sample deviation of 0 |
| Numerics.MaxOf | backtest-engine-paper/src/engine/metrics.py:30 | the maximum bounds every element and is attained |
| Numerics.MinOf | backtest-engine-paper/src/engine/metrics.py:32 | the minimum bounds every element and is attained |
| Metrics.CumMax | backtest-engine-paper/src/engine/metrics.py:30 | the running peak bounds every earlier value |
| Metrics.CumMaxAttained | backtest-engine-paper/src/engine/metrics.py:30 | each running peak is one of the earlier values |
| Metrics.DrawdownSeries | backtest-engine-paper/src/engine/metrics.py:31 | the drawdown series is no longer than the equity |
| Metrics.DrawdownSeriesExact | backtest-engine-paper/src/engine/metrics.py:31 | with non-zero peaks, the drawdown is `equity/peak − 1` at every point |
| Metrics.Years | backtest-engine-paper/src/engine/metrics.py:23-24 | elapsed years are days/365.25, floored at 1e-9 |
| Metrics.YearsFloor | backtest-engine-paper/src/engine/metrics.py:24 | years are ≥ 1e-9, and exactly days/365.25 once at least a day has passed |
| Metrics.ComputeMetrics | backtest-engine-paper/src/engine/metrics.py:17-34 | fewer than two returns give zeros; otherwise the five statistics; turnover is always the series sum |
| Metrics.FirstDrawdownKept | backtest-engine-paper/src/engine/metrics.py:30-31 | the first drawdown is 0 |
| Metrics.MaxDrawdownNonPositive | backtest-engine-paper/src/engine/metrics.py:30-32 | max drawdown is ≤ 0 |
| Metrics.MaxDrawdownBounds | backtest-engine-paper/src/engine/metrics.py:30-32 | for positive equity, max drawdown lies in (−1, 0] |
| Metrics.RatioBounds | backtest-engine-paper/src/engine/metrics.py:31 | a value at or below a positive peak has drawdown in (−1, 0] |
| Metrics.MaxDrawdownZeroWhenNonDecreasing | backtest-engine-paper/src/engine/metrics.py:30-32 | non-decreasing equity has max drawdown 0 |
| Metrics.CumMaxOfNonDecreasing | backtest-engine-paper/src/engine/metrics.py:30 | the running peak of a non-decreasing series is the series itself |
| Metrics.TurnoverIndependentOfEquity | backtest-engine-paper/src/engine/metrics.py:21-34 | turnover does not depend on the equity curve |
| Metrics.ShortCurveZeros | backtest-engine-paper/src/engine/metrics.py:20-21 | an equity curve of at most two points gives four zeros and the turnover sum |
| Metrics.ConstantEquityZeroVolSharpe | backtest-engine-paper/src/engine/metrics.py:27-28 | constant equity gives vol_ann = 0 and sharpe = 0 |
| Metrics.ZeroReturnsRatios | backtest-engine-paper/src/engine/metrics.py:27-28 | all-zero returns give zero Sharpe and volatility |
| Metrics.SharpeDenominatorPositive | backtest-engine-paper/src/engine/metrics.py:28 | the Sharpe denominator `std + 1e-12` is positive, so Sharpe is the plain quotient |
| Chunking.Stride | rag-pareto-frontiers/src/data/chunking.py:18-34 | the step is `max(1, chunk_size − overlap)`, so the loops always advance |
| Chunking.StrideWithinWindow | rag-pareto-frontiers/src/data/chunking.py:18-34 | for chunk_size ≥ 1 and overlap ≥ 0, the step never exceeds the window, so windows leave no gaps |
| Chunking.DocCharChunks | rag-pareto-frontiers/src/data/chunking.py:19-31 | the per-document character loop produces exactly the specified chunk list |
| Chunking.CharLoopStep | rag-pareto-frontiers/src/data/chunking.py:23-31 | one iteration: stop past the end, emit the last chunk when its end reaches n, else emit and move on by one step |
| Chunking.CharLoopAt | rag-pareto-frontiers/src/data/chunking.py:23-31 | the k-th chunk starts at k × step before n, and only the last chunk reaches the end |
| Chunking.CharChunkShape | rag-pareto-frontiers/src/data/chunking.py:23-31 | chars chunk k spans `[k·step, min(n, k·step + chunk_size))` with id `doc::c{k}`; emission stops at the first chunk that reaches n |
| Chunking.CharChunksEmpty | rag-pareto-frontiers/src/data/chunking.py:21-23 | an empty text gives no chars chunks, and only an empty text does |
| Chunking.CharChunksEnd | rag-pareto-frontiers/src/data/chunking.py:24-31 | the last chars chunk of a non-empty text ends at n |
| Chunking.CharChunksCover | rag-pareto-frontiers/src/data/chunking.py:18-31 | every character of a non-empty text lies in some chars chunk |
| Chunking.EmptyWindowSlice | rag-pareto-frontiers/src/data/chunking.py:38-39 | the `if not part: break` test is exactly an empty slice |
| Chunking.DocWordChunks | rag-pareto-frontiers/src/data/chunking.py:35-44 | the per-document word loop produces exactly the specified chunk list |
| Chunking.WordLoopStep | rag-pareto-frontiers/src/data/chunking.py:37-44 | one iteration: stop on an empty slice, emit the last chunk when it reaches the last word, else emit and move on |
| Chunking.WordLoopAt | rag-pareto-frontiers/src/data/chunking.py:37-44 | the k-th chunk starts at word k × step, and only the last one reaches the end |
| Chunking.WordChunkShape | rag-pareto-frontiers/src/data/chunking.py:37-44 | words chunk k is the window at word k·step, with id `doc::w{k·step}` and no offsets; emission stops after the chunk that reaches the last word |
| Chunking.WordChunkText | rag-pareto-frontiers/src/data/chunking.py:38-42 | a words chunk's text is its window's words joined by single spaces, and splitting it gives them back |
| Chunking.WordChunksEmpty | rag-pareto-frontiers/src/data/chunking.py:36-39 | a document gives no words chunks iff it has no words or the first window is empty |
| Chunking.WordChunksEnd | rag-pareto-frontiers/src/data/chunking.py:44 | the last words chunk reaches the last word and holds the remaining words |
| Chunking.WordChunksCover | rag-pareto-frontiers/src/data/chunking.py:34-44 | every word lies in some words chunk's window |
| Chunking.BuildChunks | rag-pareto-frontiers/src/data/chunking.py:15-45 | `build_chunks` returns exactly the per-document chunks, concatenated in document order |
| Chunking.DocChunksCopyFields | rag-pareto-frontiers/src/data/chunking.py:26-42 | every chunk copies doc_id, title and source_path from its document |
| Chunking.AllChunksGrouped | rag-pareto-frontiers/src/data/chunking.py:19-35 | chunks come out grouped by document, in document order |
| Chunking.AllChunksFromDocs | rag-pareto-frontiers/src/data/chunking.py:19-43 | every chunk comes from one of the documents |
| Text.WordsAreWords | rag-pareto-frontiers/src/data/chunking.py:36 | `split()` yields non-empty words without whitespace |
| Text.WordsOfJoin | rag-pareto-frontiers/src/data/chunking.py:42 | splitting the space-joined words gives the same words |
| Text.JoinSpaceRun | rag-pareto-frontiers/src/data/chunking.py:38-42 | a non-empty run of a text's words joins into a non-empty text that splits back into that run |
| Text.JoinSpaceEnds | rag-pareto-frontiers/src/metrics/metrics.py:7 | joined words neither start nor end with whitespace |
| Text.JoinSpaceSingleSpaced | rag-pareto-frontiers/src/metrics/metrics.py:7 | joined words are separated by single spaces only |
| RagMetrics.Scrub | rag-pareto-frontiers/src/metrics/metrics.py:6 | replacing characters outside `[a-z0-9\s]` keeps the length |
| RagMetrics.SqueezeStrip | rag-pareto-frontiers/src/metrics/metrics.py:7 | collapsing whitespace runs and stripping gives the words joined by single spaces |
| RagMetrics.NormIsJoinedWords | rag-pareto-frontiers/src/metrics/metrics.py:4-8 | `_norm` is the lowercased, scrubbed text's words joined by single spaces |
| RagMetrics.NormShape | rag-pareto-frontiers/src/metrics/metrics.py:4-8 | normalised text holds only letters, digits and single inner spaces |
| RagMetrics.NormIdempotent | rag-pareto-frontiers/src/metrics/metrics.py:4-8 | normalising twice is normalising once |
| RagMetrics.NormCapital | rag-pareto-frontiers/src/metrics/metrics.py:5 | a capital letter normalises to its lower-case form |
| RagMetrics.CountTokens | rag-pareto-frontiers/src/metrics/metrics.py:16-17 | the count dict holds exactly the tokens, each with its multiplicity |
| RagMetrics.TokenListF1 | rag-pareto-frontiers/src/metrics/metrics.py:13-21 | the loops compute the token F1 of the two token lists |
| RagMetrics.TokenF1 | rag-pareto-frontiers/src/metrics/metrics.py:10-21 | `token_f1` is the F1 of the normalised, split prediction and gold |
| RagMetrics.SumMinShared | rag-pareto-frontiers/src/metrics/metrics.py:18 | the sum of the smaller counts is the size of the multiset intersection |
| RagMetrics.HarmonicF1Closed | rag-pareto-frontiers/src/metrics/metrics.py:20-21 | `2PR/(P+R)` equals `2·common/(\|p\|+\|g\|)` |
| RagMetrics.F1Bounds | rag-pareto-frontiers/src/metrics/metrics.py:13-21 | token F1 lies in [0, 1] |
| RagMetrics.F1Closed | rag-pareto-frontiers/src/metrics/metrics.py:18-21 | with shared tokens, F1 is `2·common/(\|p\|+\|g\|)`, and common is at most either length |
| RagMetrics.F1Symmetric | rag-pareto-frontiers/src/metrics/metrics.py:10-21 | F1 is symmetric in prediction and gold |
| RagMetrics.F1Perfect | rag-pareto-frontiers/src/metrics/metrics.py:13-21 | F1 is 1 iff both token lists have the same tokens with the same counts |
| RagMetrics.F1SameTokens | rag-pareto-frontiers/tests/test_metrics.py:4 | identical token multisets give 1, including both empty |
| RagMetrics.F1OnlySameTokens | rag-pareto-frontiers/src/metrics/metrics.py:18-21 | F1 = 1 with shared tokens forces equal multisets |
| RagMetrics.F1Disjoint | rag-pareto-frontiers/src/metrics/metrics.py:14-19 | without shared tokens (and not both empty), F1 is 0 |
| RagMetrics.TokensOfWord | rag-pareto-frontiers/src/metrics/metrics.py:11-12 | a lower-case word is a single token |
| RagMetrics.F1DifferentWords | rag-pareto-frontiers/tests/test_metrics.py:5 | two different lower-case words score 0 |
| RagMetrics.Titles | rag-pareto-frontiers/src/metrics/metrics.py:26 | the retrieved chunks' titles |
| RagMetrics.TitleRecallPrecision | rag-pareto-frontiers/src/metrics/metrics.py:23-28 | (0, 0) on empty gold; both values lie in [0, 1] |
| RagMetrics.ShareAll | rag-pareto-frontiers/src/metrics/metrics.py:27-28 | `\|a∩b\|/\|a\|` is 1 iff a ⊆ b |
| RagMetrics.TitleRecallFull | rag-pareto-frontiers/src/metrics/metrics.py:23-28 | title recall is 1 iff every normalised gold title is retrieved |
| RagMetrics.TitlePrecisionFull | rag-pareto-frontiers/src/metrics/metrics.py:23-28 | title precision is 1 iff something is retrieved and every retrieved title is gold |
| RagMetrics.NormSetEmpty | rag-pareto-frontiers/src/metrics/metrics.py:25-26 | the normalised title set is empty iff there are no titles |
| RagMetrics.TitleHalfAndHalf | rag-pareto-frontiers/tests/test_metrics.py:7-11 | retrieving titles A and B against gold A and C gives recall 0.5 and precision 0.5 |
| RagMetrics.TitleSetsOfTwo | rag-pareto-frontiers/src/metrics/metrics.py:25-26 | two titles give the set of their normal forms |
| RagMetrics.Overlap | rag-pareto-frontiers/src/metrics/metrics.py:30 | the overlap is at most either interval's length |
| RagMetrics.OverlapSymmetric | rag-pareto-frontiers/src/metrics/metrics.py:30 | the overlap is symmetric |
| RagMetrics.OverlapPositive | rag-pareto-frontiers/src/metrics/metrics.py:30 | the overlap is positive iff the half-open intervals share a point, so it is 0 for disjoint or touching intervals |
| RagMetrics.FoundCount | rag-pareto-frontiers/src/metrics/metrics.py:34-43 | hits ≤ \|gold\| |
| RagMetrics.RelevantCount | rag-pareto-frontiers/src/metrics/metrics.py:45-53 | good ≤ \|retrieved\| |
| RagMetrics.SpanScores | rag-pareto-frontiers/src/metrics/metrics.py:32-55 | (0, 0) on empty gold; recall and precision lie in [0, 1] |
| RagMetrics.SpanRecallPrecision | rag-pareto-frontiers/src/metrics/metrics.py:32-55 | the flag loops compute the specified span recall and precision |
| RagMetrics.FoundCountAll | rag-pareto-frontiers/src/metrics/metrics.py:34-43 | all gold spans are hit iff each overlaps a retrieved chunk of the same source; none iff none does |
| RagMetrics.RelevantCountAll | rag-pareto-frontiers/src/metrics/metrics.py:45-53 | every retrieved chunk is good iff each overlaps some gold span; none iff none does |
| RagMetrics.SpanRecallFull | rag-pareto-frontiers/src/metrics/metrics.py:44 | span recall is 1 iff every gold span is found |
| RagMetrics.SpanPrecisionFull | rag-pareto-frontiers/src/metrics/metrics.py:54 | span precision is 1 iff something is retrieved and every retrieved chunk is relevant |
| RagMetrics.SpanNeedsOffsets | rag-pareto-frontiers/src/metrics/metrics.py:39-48 | chunks without character offsets never count, so they score (0, 0) |
| Pareto.DominatesIrreflexive | rag-pareto-frontiers/src/cli/make_pareto.py:6-12 | no row dominates itself |
| Pareto.DominatesAsymmetric | rag-pareto-frontiers/src/cli/make_pareto.py:6-12 | dominance is asymmetric |
| Pareto.DominatesTransitive | rag-pareto-frontiers/src/cli/make_pareto.py:6-12 | dominance is transitive |
| Pareto.ParetoRows | rag-pareto-frontiers/src/cli/make_pareto.py:14-21 | the loop keeps exactly the frontier, in input order |
| Pareto.FrontierMembers | rag-pareto-frontiers/src/cli/make_pareto.py:17-20 | a row is kept iff it is not dominated by any other input row |
| Pareto.FrontierUndominated | rag-pareto-frontiers/src/cli/make_pareto.py:17-20 | no input row dominates a kept row |
| Pareto.DroppedBeatenByKept | rag-pareto-frontiers/src/cli/make_pareto.py:17-19 | every dropped row is dominated by a kept row |
| Pareto.FrontierNonEmpty | rag-pareto-frontiers/src/cli/make_pareto.py:14-21 | a non-empty input gives a non-empty frontier |
| Pareto.DuplicatesTogether | rag-pareto-frontiers/src/cli/make_pareto.py:17-19 | identical rows are kept or dropped together |
| Hybrid.MinScore | rag-pareto-frontiers/src/retrieval/hybrid.py:12 | `min(scores)` bounds every score and is one of them |
| Hybrid.MaxScore | rag-pareto-frontiers/src/retrieval/hybrid.py:12 | `max(scores)` bounds every score and is one of them |
| Hybrid.MinMaxRange | rag-pareto-frontiers/src/retrieval/hybrid.py:15 | a min-max normalised score lies in [0, 1] |
| Hybrid.Normalise | rag-pareto-frontiers/src/retrieval/hybrid.py:9-17 | the loop builds the specified normalisation table |
| Hybrid.NormTableEntries | rag-pareto-frontiers/src/retrieval/hybrid.py:14-16 | the table is keyed by chunk id, and a repeated id keeps its last occurrence |
| Hybrid.NormalisedScores | rag-pareto-frontiers/src/retrieval/hybrid.py:9-17 | the table covers exactly the ids, with scores in [0, 1] |
| Hybrid.NormalisedFlat | rag-pareto-frontiers/src/retrieval/hybrid.py:15 | all-equal scores normalise to 0 |
| Hybrid.FuseRange | rag-pareto-frontiers/src/retrieval/hybrid.py:26 | for alpha in [0, 1], `alpha·dense + (1 − alpha)·bm25` lies in [0, 1] |
| Hybrid.Merge | rag-pareto-frontiers/src/retrieval/hybrid.py:20-26 | the merge loop gives one fused entry per id, in the iteration order of the id set |
| Hybrid.Ranked | rag-pareto-frontiers/src/retrieval/hybrid.py:27 | the sort orders by descending score and keeps every entry |
| Hybrid.QueryHybrid | rag-pareto-frontiers/src/retrieval/hybrid.py:9-28 | `query_hybrid` computes the specified result |
| Hybrid.CutProperties | rag-pareto-frontiers/src/retrieval/hybrid.py:27-28 | the cut is sorted with distinct ids and length `min(top_k, \|merged\|)`; every entry left out scores no higher than any kept one |
| Hybrid.HybridRanking | rag-pareto-frontiers/src/retrieval/hybrid.py:19-28 | the result is sorted by descending score with distinct ids and length `min(top_k, \|ids\|)`, and no id left out scores higher than one kept |
| Hybrid.HybridEntries | rag-pareto-frontiers/src/retrieval/hybrid.py:22-26 | each result entry fuses its id's two normalised scores (0 for a missing side), and lies in [0, 1] for alpha in [0, 1] |
| Cache.CacheStats.constructor | rag-pareto-frontiers/src/ops/cache.py:5-7 | counters start at 0 |
| Cache.CacheStats.Record | rag-pareto-frontiers/src/ops/cache.py:8-10 | a lookup increments exactly one of hits and misses |
| Cache.CacheStats.HitRate | rag-pareto-frontiers/src/ops/cache.py:11-14 | 0 with no lookups, otherwise hits/(hits+misses); it lies in [0, 1], is 1 iff every lookup hit, and 0 iff none did |
| Cache.SimpleCache.constructor | rag-pareto-frontiers/src/ops/cache.py:16-19 | a new cache has an empty store and zero counters |
| Cache.SimpleCache.Get | rag-pareto-frontiers/src/ops/cache.py:20-23 | a present key gives (True, value) and a hit; an absent one gives (False, None) and a miss; the store is unchanged |
| Cache.SimpleCache.Set | rag-pareto-frontiers/src/ops/cache.py:24 | `set` writes the key and leaves the counters alone |
| Cache.SetThenGet | rag-pareto-frontiers/src/ops/cache.py:20-24 | a lookup right after `set(k, v)` gives (True, v) and counts a hit |
| Cache.SetThenGetOther | rag-pareto-frontiers/src/ops/cache.py:20-24 | setting one key does not change another key's lookup |
| Config.SplitDot | rag-pareto-frontiers/src/utils/config.py:12 | `split(".")` yields at least one part |
| Config.SplitDotJoin | rag-pareto-frontiers/src/utils/config.py:12 | the parts contain no dot and join back to the dotted path |
| Config.JoinDotSplit | rag-pareto-frontiers/src/utils/config.py:12 | splitting dot-free parts joined by dots gives them back |
| Config.Descend | rag-pareto-frontiers/src/utils/config.py:11-14 | the `setdefault` walk reuses existing dictionaries and creates empty ones for missing keys; it stops, changing nothing, at a value that is not a dictionary |
| Config.DeepSet | rag-pareto-frontiers/src/utils/config.py:10-15 | following the path afterwards yields the value; intermediate dictionaries keep their other keys; dictionaries off the path are unchanged |
| Config.DeepSetTopLevel | rag-pareto-frontiers/src/utils/config.py:12-15 | a single-segment path simply sets `d[key] = value` |
| Sweep.ProductLength | rag-pareto-frontiers/src/cli/run_sweep.py:10 | the product has as many combinations as the product of the list lengths |
| Sweep.ProductMembers | rag-pareto-frontiers/src/cli/run_sweep.py:10 | the combinations are exactly the choices of one value per list |
| Sweep.ProductEmptyList | rag-pareto-frontiers/src/cli/run_sweep.py:10 | any empty value list gives no combinations |
| Sweep.ProductDigits | rag-pareto-frontiers/src/cli/run_sweep.py:10 | combination n picks the value given by n's mixed-radix digits, with the last list varying fastest |
| Sweep.GridValues | rag-pareto-frontiers/src/cli/run_sweep.py:8-9 | one value list per key |
| Sweep.ZipEntries | rag-pareto-frontiers/src/cli/run_sweep.py:11 | `dict(zip(keys, combo))` maps each key to its value, in key order |
| Sweep.ExpandCount | rag-pareto-frontiers/src/cli/run_sweep.py:7-11 | `expand` yields the product count; an empty grid yields one empty dict; an empty list yields nothing |
| Sweep.ExpandSound | rag-pareto-frontiers/src/cli/run_sweep.py:7-11 | every yielded dict has exactly the grid's keys, each value from its key's list |
| Sweep.ExpandComplete | rag-pareto-frontiers/src/cli/run_sweep.py:7-11 | every such dict is yielded |
| Sweep.ExpandOrder | rag-pareto-frontiers/src/cli/run_sweep.py:10-11 | the n-th dict holds the values picked by `itertools.product` order |
| Assignment.Shuffle | llm_roi_study/scripts/generate_assignment.py:30 | the in-place Fisher–Yates shuffle leaves the specified arrangement |
| Assignment.ShuffledPermutation | llm_roi_study/scripts/generate_assignment.py:26-30 | a shuffle is a rearrangement |
| Assignment.ShuffledDistinct | llm_roi_study/scripts/generate_assignment.py:26 | shuffling a repeat-free pool keeps it repeat-free, and draws from it |
| Assignment.Permutation | llm_roi_study/scripts/generate_assignment.py:26 | `RNG.permutation(pool)` returns the shuffled copy |
| Assignment.LatinSquare | llm_roi_study/scripts/generate_assignment.py:18 | LATIN is a 3×3 Latin square: no condition twice in a row or a column |
| Assignment.LatinRowCounts | llm_roi_study/scripts/generate_assignment.py:18 | each row holds each condition exactly once |
| Assignment.LatinRow | llm_roi_study/scripts/generate_assignment.py:24 | the row index `(pid − 1) mod 3` is a valid row |
| Assignment.LatinRotation | llm_roi_study/scripts/generate_assignment.py:24 | rows repeat every three participants, and three consecutive ones use all three rows |
| Assignment.PoolShape | llm_roi_study/scripts/generate_assignment.py:15-17 | each category's pool has six distinct task ids of that category |
| Assignment.CategoryNames | llm_roi_study/scripts/generate_assignment.py:15-17 | the category names are distinct |
| Assignment.Drafts | llm_roi_study/scripts/generate_assignment.py:25-29 | three tasks per category |
| Assignment.DrawDrafts | llm_roi_study/scripts/generate_assignment.py:25-29 | the category loop appends exactly the specified tasks |
| Assignment.CategoryTasks | llm_roi_study/scripts/generate_assignment.py:25-29 | a category's three tasks come from its pool, with distinct ids |
| Assignment.DraftConditions | llm_roi_study/scripts/generate_assignment.py:27-29 | the conditions follow the participant's Latin row once per category |
| Assignment.DraftsDistinct | llm_roi_study/scripts/generate_assignment.py:25-29 | the nine tasks are pairwise distinct |
| Assignment.Sessioned | llm_roi_study/scripts/generate_assignment.py:31 | numbering keeps every task |
| Assignment.AssignTasks | llm_roi_study/scripts/generate_assignment.py:24-31 | one participant's loop body produces the specified task list |
| Assignment.SessionOrders | llm_roi_study/scripts/generate_assignment.py:30-31 | there are nine tasks with session_order 1..9 |
| Assignment.ProjectionPermutation | llm_roi_study/scripts/generate_assignment.py:30-31 | the shuffle and numbering only rearrange the drafted tasks |
| Assignment.EachDraftOnce | llm_roi_study/scripts/generate_assignment.py:25-31 | each drafted task appears exactly once in the final list |
| Assignment.ConditionCounts | llm_roi_study/scripts/generate_assignment.py:24-29 | each condition appears exactly three times |
| Assignment.SlotsDistinct | llm_roi_study/scripts/generate_assignment.py:25-29 | the draft has one task per (category, condition) pair |
| Assignment.SlotsOnce | llm_roi_study/scripts/generate_assignment.py:25-31 | after the shuffle, each (category, condition) pair still occurs exactly once |
| Assignment.PidKeys | llm_roi_study/scripts/generate_assignment.py:32 | one key per participant |
| Assignment.PidKeysGrow | llm_roi_study/scripts/generate_assignment.py:23-32 | each new participant adds the fresh key `str(pid)` at the end |
| Assignment.Generate | llm_roi_study/scripts/generate_assignment.py:21-33 | the output is keyed "1".."n"; entry pid holds pid, its Latin row and its tasks |
| Sorting.SortBy | rag-pareto-frontiers/src/retrieval/hybrid.py:27 | sorting yields a sorted rearrangement |
| Sorting.StrLeIsTotalPreorder | backtest-engine-paper/src/engine/data.py:25 | string order is total and transitive, so `sorted` is well defined |
| Common.PySlice | rag-pareto-frontiers/src/data/chunking.py:38 | Python slicing, clamped like Python's |
| Common.NatToStringInjective | rag-pareto-frontiers/src/data/chunking.py:26-41 | different numbers give different decimal strings, so chunk and participant ids do not collide |
| Common.OrderedMap.Put | backtest-engine-paper/src/engine/portfolio.py:111-117 | `d[k] = v` on an ordered dict: a new key goes to the end, an existing key keeps its place |

## Left out

- The event logger (`logger.py`) and every kind of I/O. This includes CSV/YAML loading, plotting in `make_pareto.py`, `main` functions and the `seeds.yaml` load.
- Random numbers in `generate_assignment.py`. `RNG.permutation` and `RNG.shuffle` become Fisher–Yates draw sequences passed in as parameters, so the model says nothing about their distribution.
- Floating point:
  - prices and scores are exact reals;
  - `sqrt`, fractional powers, and division by zero (±inf or NaN) go through an oracle with sign facts only;
  - CAGR, Sharpe and volatility are proved only where those facts decide them.
- `Strategies.MeanReversionSide`: the z-score uses the oracle's mean and sample deviation. Only its sign handling and the 1e-12 floor are modelled exactly.
- MeanReversionSide: returns no signal when every return is dropped (window 0 and only 0/0 close pairs), where the source raises IndexError on `rets.iloc[-1]`; the model has no error path for a strategy.
- `Execution.RollingVolNonNegative`: holds only for `vol_lookback != 1`. A one-element window's sample deviation is NaN.
- Timestamps are integer days. pandas index mechanics (`df.loc`, `get_loc`, `union`, `sort_values`) are modelled by their effect on sorted rows.
- Duplicate timestamps within one symbol are accepted at construction, as in the source. With a duplicate, pandas' `df.loc[t]` returns a frame rather than one row, and `get_loc` returns a slice. So these members require at most one row per time:
  - `Data.DataHandler.GetBar`;
  - `Execution.Execute`;
  - `Backtests.Backtester.Run`.
- Deduplication within a single frame: the timeline is built as a set union. With one frame the source keeps that frame's index, duplicates included.
- `Backtests.Backtester.Run`: the cash floor holds under these hypotheses:
  - `vol_k = 0` and `impact_k ≤ 0`;
  - fee and half-spread in [0, 1e4] bps;
  - positive opens;
  - non-negative initial cash.

  With a large slippage or impact, a SELL price can go negative. The test's `−1e-6` tolerance is for rounding, which the exact model does not need.
- The whole-run Sharpe monotonicity test (`test_cost_monotonicity.py`) is an end-to-end statistic. Only the per-fill monotonicity is proved (`Execution.CostlierConfigWorseFill`).
- Sort stability: `Sorting.SortBy` and `Hybrid.Ranked` state sortedness and permutation. The order of equal scores (Python's stable sort) is not stated.
- The two retrievers of `query_hybrid` are inputs. The iteration order of the id set is a parameter, because Python's set order is not specified.
- `Config.DeepSet`:
  - a value that is not a dictionary is an opaque `Atom`;
  - when the walk meets one, the model stops with `ok` false where Python raises;
  - reading the value back along the path is proved when no earlier step of the walk passes through the last dictionary under the last key, since that one write would cut the path.
- `Common.NatToStringInjective`: stated for the decimal rendering alone. The uniqueness of ids across different documents is not modelled.
- Conditions, sides and modes are datatypes or plain strings. An unknown chunking mode behaves as "words", as in the source.
