/** The bar store (`DataHandler`): validated per-symbol OHLCV series, a
    merged timeline walked by a cursor, and as-of-time history queries. */
module Data {
  import opened Common
  import opened Sorting
  import opened Events

  /** One row of a series; time is an integer day number. */
  datatype Row = Row(t: int, bar: Bar)

  /** A frame as handed to the store: whether its index is a time index,
      which columns it declares, and its rows in the order given. */
  datatype Frame = Frame(timeIndexed: bool, columns: set<string>, rows: seq<Row>)

  datatype ValidationError =
    | IndexNotDatetime(symbol: Symbol)
    | MissingColumns(symbol: Symbol, missing: seq<string>)

  const RequiredColumns: seq<string> := ["open", "high", "low", "close", "volume"]

  /** The required columns a frame lacks, in the order they are required. */
  function Missing(required: seq<string>, columns: set<string>): (m: seq<string>)
    ensures forall c :: c in m <==> c in required && c !in columns
  {
    if required == [] then []
    else (if required[0] in columns then [] else [required[0]]) + Missing(required[1..], columns)
  }

  /** The check applied to one frame before it is stored. */
  function CheckFrame(symbol: Symbol, f: Frame): (r: Option<ValidationError>)
    ensures r == None <==> f.timeIndexed && forall c :: c in RequiredColumns ==> c in f.columns
    ensures !f.timeIndexed ==> r == Some(IndexNotDatetime(symbol))
  {
    if !f.timeIndexed then Some(IndexNotDatetime(symbol))
    else
      var m := Missing(RequiredColumns, f.columns);
      if |m| > 0 then assert m[0] in m; Some(MissingColumns(symbol, m)) else None
  }

  /** The error of the first frame, in input order, that fails its check. */
  function FirstError(input: seq<(Symbol, Frame)>): (r: Option<ValidationError>)
    ensures r == None <==> forall i :: 0 <= i < |input| ==> CheckFrame(input[i].0, input[i].1) == None
  {
    if input == [] then None
    else if CheckFrame(input[0].0, input[0].1).Some? then CheckFrame(input[0].0, input[0].1)
    else FirstError(input[1..])
  }

  /** The input is a dictionary: no symbol appears twice. */
  predicate DistinctKeys(input: seq<(Symbol, Frame)>)
  {
    forall i, j :: 0 <= i < j < |input| ==> input[i].0 != input[j].0
  }

  lemma FirstErrorStep(input: seq<(Symbol, Frame)>, i: nat)
    requires i < |input|
    ensures FirstError(input[i..]) ==
      if CheckFrame(input[i].0, input[i].1).Some? then CheckFrame(input[i].0, input[i].1)
      else FirstError(input[i + 1..])
  {
    assert input[i..][1..] == input[i + 1..];
  }

  /** The close column of a series, in row order. */
  function Closes(rows: seq<Row>): (cs: seq<real>)
    ensures |cs| == |rows|
    ensures forall i :: 0 <= i < |rows| ==> cs[i] == rows[i].bar.close
  {
    if rows == [] then [] else Closes(rows[..|rows| - 1]) + [rows[|rows| - 1].bar.close]
  }

  predicate TimeSorted(rows: seq<Row>)
  {
    forall i, j :: 0 <= i < j < |rows| ==> rows[i].t <= rows[j].t
  }

  /** No two rows share a timestamp (pandas needs this for label lookups). */
  predicate StrictlyIncreasing(rows: seq<Row>)
  {
    forall i, j :: 0 <= i < j < |rows| ==> rows[i].t < rows[j].t
  }

  predicate IncreasingTimes(ts: seq<int>)
  {
    forall i, j :: 0 <= i < j < |ts| ==> ts[i] < ts[j]
  }

  function RowLe(a: Row, b: Row): bool
  {
    a.t <= b.t
  }

  lemma RowLeIsTotalPreorder()
    ensures TotalPreorder(RowLe)
  {
  }

  /** `df.sort_index()`: the same rows, ascending in time. */
  function SortRows(rows: seq<Row>): (r: seq<Row>)
    ensures TimeSorted(r)
    ensures multiset(r) == multiset(rows)
  {
    RowLeIsTotalPreorder();
    SortBy(rows, RowLe)
  }

  /** `sorted(symbols)`. */
  function SortSymbols(symbols: seq<Symbol>): (r: seq<Symbol>)
    ensures SortedBy(r, StrLe)
    ensures multiset(r) == multiset(symbols)
  {
    StrLeIsTotalPreorder();
    SortBy(symbols, StrLe)
  }

  /** Inserts a timestamp into an ascending, duplicate-free timeline. */
  function InsertTime(x: int, ts: seq<int>): (r: seq<int>)
    requires IncreasingTimes(ts)
    ensures IncreasingTimes(r)
    ensures forall y :: y in r <==> y in ts || y == x
  {
    if ts == [] then [x]
    else if x < ts[0] then [x] + ts
    else if x == ts[0] then ts
    else
      var tail := ts[1..];
      assert forall y :: y in tail ==> ts[0] < y;
      var rest := InsertTime(x, tail);
      assert forall j :: 0 <= j < |rest| ==> ts[0] < rest[j] by {
        forall j | 0 <= j < |rest| ensures ts[0] < rest[j] {
          assert rest[j] in rest;
        }
      }
      var r := [ts[0]] + rest;
      assert forall j :: 0 < j < |r| ==> r[j] == rest[j - 1];
      r
  }

  /** `timeline.union(index)`: adds every timestamp of a series. */
  function UnionTimes(ts: seq<int>, rows: seq<Row>): (r: seq<int>)
    requires IncreasingTimes(ts)
    ensures IncreasingTimes(r)
    ensures forall y :: y in r <==> y in ts || exists i :: 0 <= i < |rows| && rows[i].t == y
    decreases |rows|
  {
    if rows == [] then ts
    else
      var r := UnionTimes(InsertTime(rows[0].t, ts), rows[1..]);
      assert forall i :: 0 < i < |rows| ==> rows[i] == rows[1..][i - 1];
      r
  }

  ghost function AllTimes(data: map<Symbol, seq<Row>>): set<int>
  {
    set s, r | s in data && r in data[s] :: r.t
  }

  /** How many leading rows lie at or before `t` (`searchsorted(t, "right")`). */
  function AsOfLength(rows: seq<Row>, t: int): (k: nat)
    ensures k <= |rows|
    ensures forall i :: 0 <= i < k ==> rows[i].t <= t
    ensures k < |rows| ==> rows[k].t > t
  {
    if rows == [] || rows[0].t > t then 0 else 1 + AsOfLength(rows[1..], t)
  }

  /** `df.loc[:t]`: the rows with timestamp at most `t`, ascending. */
  function HistoryAsOf(rows: seq<Row>, t: int): (h: seq<Row>)
    requires TimeSorted(rows)
    ensures forall i :: 0 <= i < |h| ==> h[i].t <= t
    ensures forall r :: r in rows && r.t <= t ==> r in h
    ensures |h| <= |rows| && h == rows[..|h|]
  {
    rows[..AsOfLength(rows, t)]
  }

  /** When `t` is the time of the k-th row (counting from 0) of a series
      without repeated timestamps, the history as of `t` holds exactly k+1
      rows and ends at `t`. */
  lemma HistoryAtRowTime(rows: seq<Row>, k: nat)
    requires StrictlyIncreasing(rows)
    requires k < |rows|
    ensures |HistoryAsOf(rows, rows[k].t)| == k + 1
    ensures HistoryAsOf(rows, rows[k].t)[k].t == rows[k].t
  {
    var h := HistoryAsOf(rows, rows[k].t);
    assert rows[k] in h;
    var j :| 0 <= j < |h| && h[j] == rows[k];
    assert j == k by {
      assert rows[j].t == rows[k].t;
    }
    if k + 1 < |rows| {
      assert rows[k].t < rows[k + 1].t;
    }
  }

  /** The history as of `t` depends only on the rows at or before `t`:
      replacing everything after `t` by any later rows leaves it unchanged. */
  lemma HistoryIgnoresLaterRows(rows: seq<Row>, later: seq<Row>, t: int)
    requires TimeSorted(rows)
    requires TimeSorted(HistoryAsOf(rows, t) + later)
    requires forall i :: 0 <= i < |later| ==> later[i].t > t
    ensures HistoryAsOf(HistoryAsOf(rows, t) + later, t) == HistoryAsOf(rows, t)
  {
    var h := HistoryAsOf(rows, t);
    var extended := h + later;
    assert forall i :: 0 <= i < |h| ==> extended[i] == h[i];
    assert |later| > 0 ==> extended[|h|] == later[0];
  }

  /** At most one row of the series sits at `t`. */
  predicate UniqueAt(rows: seq<Row>, t: int)
  {
    forall i, j :: 0 <= i < j < |rows| && rows[i].t == t ==> rows[j].t != t
  }

  /** `get_bar`: absent when no row sits at `t`, otherwise that row's bar.
      A repeated timestamp makes pandas raise, hence the precondition. */
  function BarAt(rows: seq<Row>, t: int): (r: Option<Bar>)
    requires UniqueAt(rows, t)
    ensures r.None? <==> forall i :: 0 <= i < |rows| ==> rows[i].t != t
    ensures r.Some? ==> exists i :: 0 <= i < |rows| && rows[i].t == t && rows[i].bar == r.value
    ensures r.Some? ==> forall i :: 0 <= i < |rows| && rows[i].t == t ==> rows[i].bar == r.value
  {
    if rows == [] then None
    else if rows[0].t == t then Some(rows[0].bar)
    else
      assert UniqueAt(rows[1..], t) by {
        forall i, j | 0 <= i < j < |rows[1..]| && rows[1..][i].t == t ensures rows[1..][j].t != t {
          assert rows[i + 1].t == t;
        }
      }
      var r := BarAt(rows[1..], t);
      assert forall i :: 1 <= i < |rows| ==> rows[i] == rows[1..][i - 1];
      r
  }

  lemma StrictlyIncreasingUnique(rows: seq<Row>, t: int)
    requires StrictlyIncreasing(rows)
    ensures UniqueAt(rows, t)
  {
  }

  /** `_build_global_timeline`: the union of the series' timestamps, taken
      series by series, ascending and without repeats. */
  function BuildTimeline(data: map<Symbol, seq<Row>>, keys: seq<Symbol>): (ts: seq<int>)
    requires forall j :: 0 <= j < |keys| ==> keys[j] in data
    ensures IncreasingTimes(ts)
    ensures forall x :: x in ts <==> exists j, row :: 0 <= j < |keys| && row in data[keys[j]] && row.t == x
    decreases |keys|
  {
    if keys == [] then []
    else
      var n := |keys|;
      var ts := UnionTimes(BuildTimeline(data, keys[..n - 1]), data[keys[n - 1]]);
      assert forall j :: 0 <= j < n - 1 ==> keys[..n - 1][j] == keys[j];
      ts
  }

  lemma TimelineCoversAllTimes(data: map<Symbol, seq<Row>>, keys: seq<Symbol>)
    requires forall s :: s in data <==> s in keys
    ensures forall x :: x in BuildTimeline(data, keys) <==> x in AllTimes(data)
  {
    forall x ensures x in BuildTimeline(data, keys) <==> x in AllTimes(data) {
      if x in AllTimes(data) {
        var s, row :| s in data && row in data[s] && row.t == x;
        var j :| 0 <= j < |keys| && keys[j] == s;
      }
    }
  }

  /** The symbols of the input, in input order. */
  function Names(input: seq<(Symbol, Frame)>): (r: seq<Symbol>)
    ensures |r| == |input|
    ensures forall i :: 0 <= i < |input| ==> r[i] == input[i].0
  {
    if input == [] then [] else Names(input[..|input| - 1]) + [input[|input| - 1].0]
  }

  /** The dictionary of sorted series, built entry by entry. */
  function SeriesMap(input: seq<(Symbol, Frame)>): map<Symbol, seq<Row>>
  {
    if input == [] then map[]
    else
      var n := |input|;
      SeriesMap(input[..n - 1])[input[n - 1].0 := SortRows(input[n - 1].1.rows)]
  }

  lemma {:induction false} SeriesMapDomain(input: seq<(Symbol, Frame)>)
    ensures forall s :: s in SeriesMap(input) <==> s in Names(input)
    ensures forall s :: s in SeriesMap(input) ==> TimeSorted(SeriesMap(input)[s])
  {
    if input != [] {
      var n := |input|;
      SeriesMapDomain(input[..n - 1]);
    }
  }

  lemma {:induction false} SeriesMapValues(input: seq<(Symbol, Frame)>)
    requires DistinctKeys(input)
    ensures forall i :: 0 <= i < |input| ==>
              input[i].0 in SeriesMap(input) && SeriesMap(input)[input[i].0] == SortRows(input[i].1.rows)
  {
    if input != [] {
      var n := |input|;
      var prefix := input[..n - 1];
      assert DistinctKeys(prefix);
      SeriesMapValues(prefix);
      forall i | 0 <= i < n - 1
        ensures input[i].0 in SeriesMap(input) && SeriesMap(input)[input[i].0] == SortRows(input[i].1.rows)
      {
        assert prefix[i] == input[i];
      }
    }
  }

  lemma SeriesMapFacts(input: seq<(Symbol, Frame)>)
    requires DistinctKeys(input)
    ensures Distinct(Names(input))
    ensures forall s :: s in SeriesMap(input) <==> s in Names(input)
    ensures forall s :: s in SeriesMap(input) ==> TimeSorted(SeriesMap(input)[s])
    ensures forall i :: 0 <= i < |input| ==>
              input[i].0 in SeriesMap(input) && SeriesMap(input)[input[i].0] == SortRows(input[i].1.rows)
  {
    SeriesMapDomain(input);
    SeriesMapValues(input);
  }

  /** What `DataHandler(data)` derives from the validated series: the
      sorted symbol list and the merged timeline meet the class invariant. */
  lemma AssembledParts(data: map<Symbol, seq<Row>>, keys: seq<Symbol>)
    requires Distinct(keys)
    requires forall s :: s in data <==> s in keys
    requires forall s :: s in data ==> TimeSorted(data[s])
    ensures Distinct(SortSymbols(keys))
    ensures forall s :: s in data <==> s in SortSymbols(keys)
    ensures forall x :: x in BuildTimeline(data, keys) <==> x in AllTimes(data)
  {
    var symbols := SortSymbols(keys);
    DistinctPermutation(keys, symbols);
    forall s ensures s in symbols <==> s in keys {
      assert s in symbols <==> s in multiset(symbols);
      assert s in keys <==> s in multiset(keys);
    }
    TimelineCoversAllTimes(data, keys);
  }

  class DataHandler {
    const data: map<Symbol, seq<Row>>
    const symbols: seq<Symbol>
    const timeline: seq<int>
    var cursor: nat

    /** Every series is sorted; `symbols` is the sorted key list; the
        timeline is the ascending, duplicate-free union of all timestamps. */
    ghost predicate Valid()
      reads this
    {
      && cursor <= |timeline|
      && (forall s :: s in data ==> TimeSorted(data[s]))
      && Distinct(symbols)
      && SortedBy(symbols, StrLe)
      && (forall s :: s in data <==> s in symbols)
      && IncreasingTimes(timeline)
      && (forall x :: x in timeline <==> x in AllTimes(data))
    }

    constructor FromSorted(data: map<Symbol, seq<Row>>, symbols: seq<Symbol>, timeline: seq<int>)
      requires forall s :: s in data ==> TimeSorted(data[s])
      requires Distinct(symbols) && SortedBy(symbols, StrLe)
      requires forall s :: s in data <==> s in symbols
      requires IncreasingTimes(timeline)
      requires forall x :: x in timeline <==> x in AllTimes(data)
      ensures Valid()
      ensures this.data == data && this.symbols == symbols && this.timeline == timeline
      ensures cursor == 0
    {
      this.data := data;
      this.symbols := symbols;
      this.timeline := timeline;
      this.cursor := 0;
    }

    /** The validating loop of `DataHandler(data)`: checks and sorts every
        frame in input order, failing on the first bad one. On success it
        returns the sorted series and the keys in input order. */
    static method ValidateFrames(input: seq<(Symbol, Frame)>)
        returns (r: Result<(map<Symbol, seq<Row>>, seq<Symbol>), ValidationError>)
      ensures r.Err? <==> FirstError(input).Some?
      ensures r.Err? ==> r.error == FirstError(input).value
      ensures r.Ok? ==> r.value == (SeriesMap(input), Names(input))
    {
      var data: map<Symbol, seq<Row>> := map[];
      var keys: seq<Symbol> := [];
      for i := 0 to |input|
        invariant data == SeriesMap(input[..i]) && keys == Names(input[..i])
        invariant FirstError(input) == FirstError(input[i..])
      {
        var (sym, frame) := input[i];
        FirstErrorStep(input, i);
        if !frame.timeIndexed {
          return Err(IndexNotDatetime(sym));
        }
        var missing := Missing(RequiredColumns, frame.columns);
        if |missing| > 0 {
          return Err(MissingColumns(sym, missing));
        }
        assert input[..i + 1][..i] == input[..i];
        data := data[sym := SortRows(frame.rows)];
        keys := keys + [sym];
      }
      assert input[..|input|] == input;
      assert input[|input|..] == [];
      return Ok((data, keys));
    }

    /** `DataHandler(data)`: validates and sorts every frame, sorts the
        symbol list and builds the merged timeline. Repeated timestamps are
        not rejected. */
    static method Load(input: seq<(Symbol, Frame)>) returns (r: Result<DataHandler, ValidationError>)
      requires DistinctKeys(input)
      ensures r.Err? <==> FirstError(input).Some?
      ensures r.Err? ==> r.error == FirstError(input).value
      ensures r.Ok? ==> fresh(r.value) && r.value.Valid() && r.value.cursor == 0
      ensures r.Ok? ==> forall i :: 0 <= i < |input| ==>
                          input[i].0 in r.value.data && r.value.data[input[i].0] == SortRows(input[i].1.rows)
      ensures r.Ok? ==> forall s :: s in r.value.data ==> exists i :: 0 <= i < |input| && input[i].0 == s
    {
      var checked := ValidateFrames(input);
      if checked.Err? {
        return Err(checked.error);
      }
      var (data, keys) := checked.value;
      SeriesMapFacts(input);
      var symbols := SortSymbols(keys);
      var timeline := BuildTimeline(data, keys);
      AssembledParts(data, keys);
      var dh := new DataHandler.FromSorted(data, symbols, timeline);
      return Ok(dh);
    }

    method Reset()
      requires Valid()
      modifies this`cursor
      ensures Valid() && cursor == 0
    {
      cursor := 0;
    }

    function HasNext(): (b: bool)
      reads this
      ensures b <==> cursor < |timeline|
    {
      cursor < |timeline|
    }

    /** Returns the timestamp under the cursor and advances; on an
        exhausted timeline it raises StopIteration (`None` here) and the
        cursor stays. */
    method NextTime() returns (t: Option<int>)
      requires Valid()
      modifies this`cursor
      ensures Valid()
      ensures old(cursor) < |timeline| ==> t == Some(timeline[old(cursor)]) && cursor == old(cursor) + 1
      ensures old(cursor) >= |timeline| ==> t == None && cursor == old(cursor)
    {
      if !HasNext() {
        return None;
      }
      t := Some(timeline[cursor]);
      cursor := cursor + 1;
    }

    function GetBar(symbol: Symbol, t: int): (r: Option<Bar>)
      reads this
      requires symbol in data && UniqueAt(data[symbol], t)
      ensures r.None? <==> forall i :: 0 <= i < |data[symbol]| ==> data[symbol][i].t != t
      ensures r.Some? ==> exists i :: 0 <= i < |data[symbol]| && data[symbol][i].t == t && data[symbol][i].bar == r.value
      ensures r.Some? ==> forall i :: 0 <= i < |data[symbol]| && data[symbol][i].t == t ==> data[symbol][i].bar == r.value
    {
      BarAt(data[symbol], t)
    }

    function GetHistoryAsOf(symbol: Symbol, t: int): (h: seq<Row>)
      reads this
      requires Valid() && symbol in data
      ensures forall i :: 0 <= i < |h| ==> h[i].t <= t
      ensures forall r :: r in data[symbol] && r.t <= t ==> r in h
      ensures |h| <= |data[symbol]| && h == data[symbol][..|h|]
    {
      HistoryAsOf(data[symbol], t)
    }
  }
}
