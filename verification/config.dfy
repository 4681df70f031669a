/** `deep_set`: writing a value at a dotted path into nested configuration
    dictionaries, in place. */
module Config {

  /** A configuration value: a nested dictionary, or anything else (a
      number, a string, a list, ...), carried by its rendering. */
  datatype Val = Atom(text: string) | Sub(dict: Dict)

  /** A Python `dict` from string keys to configuration values. */
  class Dict {
    var entries: map<string, Val>

    constructor ()
      ensures entries == map[]
    {
      entries := map[];
    }
  }

  /** `repr` holds every dictionary reachable from its members. */
  ghost predicate Closed(repr: set<Dict>)
    reads repr
  {
    forall x, k :: x in repr && k in x.entries && x.entries[k].Sub? ==> x.entries[k].dict in repr
  }

  /** `dotted.split(".")`: the pieces between the dots; never empty. */
  function SplitDot(s: string): (parts: seq<string>)
    ensures |parts| >= 1
  {
    if s == [] then [""]
    else
      var rest := SplitDot(s[1..]);
      if s[0] == '.' then [""] + rest else [[s[0]] + rest[0]] + rest[1..]
  }

  /** `".".join(parts)` */
  function JoinDot(parts: seq<string>): string
    requires |parts| >= 1
  {
    if |parts| == 1 then parts[0] else parts[0] + "." + JoinDot(parts[1..])
  }

  predicate DotFree(w: string)
  {
    forall i :: 0 <= i < |w| ==> w[i] != '.'
  }

  /** Splitting and joining again gives the dotted path back, and no piece
      holds a dot. */
  lemma {:induction false} SplitDotJoin(s: string)
    ensures JoinDot(SplitDot(s)) == s
    ensures forall i :: 0 <= i < |SplitDot(s)| ==> DotFree(SplitDot(s)[i])
  {
    if s != [] {
      var rest := SplitDot(s[1..]);
      SplitDotJoin(s[1..]);
      if s[0] == '.' {
        assert SplitDot(s)[1..] == rest;
        assert s == [s[0]] + s[1..];
      } else {
        var parts := SplitDot(s);
        assert parts[1..] == rest[1..];
        if |rest| == 1 {
          assert JoinDot(parts) == [s[0]] + rest[0];
        } else {
          assert JoinDot(rest) == rest[0] + "." + JoinDot(rest[1..]);
          assert JoinDot(parts) == [s[0]] + rest[0] + "." + JoinDot(rest[1..]);
        }
        assert s == [s[0]] + s[1..];
        forall i | 0 <= i < |parts| ensures DotFree(parts[i]) {
          if i == 0 {
            assert parts[0] == [s[0]] + rest[0];
            assert DotFree(rest[0]);
          } else {
            assert parts[i] == rest[i];
          }
        }
      }
    }
  }

  /** Joining dot-free pieces and splitting again gives the pieces back. */
  lemma {:induction false} JoinDotSplit(parts: seq<string>)
    requires |parts| >= 1 && forall i :: 0 <= i < |parts| ==> DotFree(parts[i])
    ensures SplitDot(JoinDot(parts)) == parts
  {
    if |parts| == 1 {
      SplitWord(parts[0], "");
      assert parts[0] + "" == parts[0];
    } else {
      JoinDotSplit(parts[1..]);
      var tail := "." + JoinDot(parts[1..]);
      assert tail[1..] == JoinDot(parts[1..]);
      assert JoinDot(parts) == parts[0] + tail;
      assert SplitDot(tail) == [""] + parts[1..];
      SplitWord(parts[0], tail);
      assert parts[0] + "" == parts[0];
      assert [parts[0]] + parts[1..] == parts;
    }
  }

  /** A dot-free word in front of an empty or dot-led text becomes the
      first piece. */
  lemma {:induction false} SplitWord(w: string, t: string)
    requires DotFree(w) && (t == [] || t[0] == '.')
    ensures SplitDot(w + t) == [w + SplitDot(t)[0]] + SplitDot(t)[1..]
    ensures SplitDot(t)[0] == ""
  {
    if w != [] {
      assert (w + t)[1..] == w[1..] + t;
      SplitWord(w[1..], t);
      assert [w[0]] + (w[1..] + SplitDot(t)[0]) == w + SplitDot(t)[0];
    } else {
      assert w + t == t;
    }
  }

  /** Each of the first `m` dictionaries of a walk holds the next one
      under the walk's key. */
  ghost predicate LinkedUpTo(chain: seq<Dict>, parts: seq<string>, m: nat)
    requires m < |chain| <= |parts|
    reads chain
  {
    forall j :: 0 <= j < m ==> parts[j] in chain[j].entries && chain[j].entries[parts[j]] == Sub(chain[j + 1])
  }

  /** The whole walk is linked. */
  ghost predicate Linked(chain: seq<Dict>, parts: seq<string>)
    requires 1 <= |chain| <= |parts|
    reads chain
  {
    LinkedUpTo(chain, parts, |chain| - 1)
  }

  /** The dictionaries after position `k` up to `i` are the ones
      `setdefault` created: each holds just the link to the next. */
  ghost predicate Created(chain: seq<Dict>, parts: seq<string>, k: nat, i: nat)
    requires k <= i < |chain| <= |parts|
    reads chain
  {
    forall j :: k < j < i ==> chain[j] != chain[i] && chain[j].entries == map[parts[j] := Sub(chain[j + 1])]
  }

  /** No earlier step of a full walk leaves the last dictionary under the
      last key, the one place where the final write could cut the path. */
  ghost predicate NoShortcut(chain: seq<Dict>, parts: seq<string>)
    requires |chain| == |parts| >= 1
  {
    forall j :: 0 <= j < |chain| - 1 && chain[j] == chain[|chain| - 1] ==> parts[j] != parts[|parts| - 1]
  }

  /** The loop `for p in parts[:-1]: cur = cur.setdefault(p, {})`. It
      visits the dictionaries `chain`: the first `k + 1` existed before,
      and the rest, if any, are fresh dictionaries that `setdefault`
      created. Meeting a value that is not a dictionary stops the walk
      with `ok` false (Python raises on the next step), before anything
      has changed. */
  method Descend(d: Dict, parts: seq<string>, ghost repr: set<Dict>)
    returns (ok: bool, cur: Dict, ghost chain: seq<Dict>, ghost k: nat)
    requires |parts| >= 1 && d in repr && Closed(repr)
    modifies repr
    ensures 1 <= |chain| <= |parts| && chain[0] == d && k < |chain| && cur == chain[|chain| - 1]
    ensures ok <==> |chain| == |parts|
    ensures forall j :: 0 <= j <= k ==> chain[j] in repr
    ensures old(LinkedUpTo(chain[..k + 1], parts, k))
    ensures !ok ==> && k == |chain| - 1 && parts[k] in old(chain[k].entries)
                    && old(chain[k].entries[parts[k]]).Atom? && unchanged(repr)
    ensures ok && k == |chain| - 1 ==> unchanged(repr)
    ensures ok && k < |chain| - 1 ==>
      && parts[k] !in old(chain[k].entries)
      && chain[k].entries == old(chain[k].entries)[parts[k] := Sub(chain[k + 1])]
      && (forall j :: k < j < |chain| ==> fresh(chain[j]))
      && Created(chain, parts, k, |chain| - 1)
      && cur.entries == map[]
    ensures forall x :: x in repr && x != chain[k] ==> x.entries == old(x.entries)
  {
    var n := |parts|;
    cur := d;
    chain, k := [d], 0;
    var i := 0;
    while i < n - 1
      invariant 0 <= i <= n - 1 && |chain| == i + 1 && chain[0] == d && cur == chain[i] && k <= i
      invariant forall j :: 0 <= j <= k ==> chain[j] in repr
      invariant old(LinkedUpTo(chain[..k + 1], parts, k))
      invariant k == i ==> unchanged(repr)
      invariant k < i ==>
        && parts[k] !in old(chain[k].entries)
        && chain[k].entries == old(chain[k].entries)[parts[k] := Sub(chain[k + 1])]
        && (forall j :: k < j <= i ==> fresh(chain[j]))
        && Created(chain, parts, k, i)
        && cur.entries == map[]
        && (forall x :: x in repr && x != chain[k] ==> x.entries == old(x.entries))
    {
      var p := parts[i];
      if p in cur.entries {
        var v := cur.entries[p];
        if v.Atom? {
          return false, cur, chain, k;
        }
        cur := v.dict;
        chain, k := chain + [cur], i + 1;
      } else {
        ghost var prev := chain;
        label top:
        var made := new Dict();
        cur.entries := cur.entries[p := Sub(made)];
        cur := made;
        chain := chain + [cur];
        assert chain[..k + 1] == prev[..k + 1];
        forall j | k < j < i + 1
          ensures chain[j] != chain[i + 1] && chain[j].entries == map[parts[j] := Sub(chain[j + 1])]
        {
          if j < i {
            assert prev[j] != prev[i] && old@top(prev[j].entries) == map[parts[j] := Sub(prev[j + 1])];
          }
        }
      }
      i := i + 1;
    }
    ok := true;
  }

  /** `deep_set(d, dotted, value)`: the walk of `Descend` over the pieces
      of `dotted`, then `cur[parts[-1]] = value`. `repr` holds the
      dictionaries reachable from `d`. Only one dictionary that existed
      before changes, at one key: the last one of the walk at the last key
      when every step found a dictionary, else the one where the first
      missing key was created. Unless the walk came back to its last
      dictionary under the last key, following the path then ends at
      `value`. */
  method DeepSet(d: Dict, dotted: string, value: Val, ghost repr: set<Dict>)
    returns (ok: bool, ghost chain: seq<Dict>, ghost k: nat)
    requires d in repr && Closed(repr)
    modifies repr
    ensures var parts := SplitDot(dotted);
      && 1 <= |chain| <= |parts| && chain[0] == d && k < |chain|
      && (ok <==> |chain| == |parts|)
      && (forall j :: 0 <= j <= k ==> chain[j] in repr)
      && old(LinkedUpTo(chain[..k + 1], parts, k))
    ensures var parts := SplitDot(dotted);
      !ok ==> && k == |chain| - 1 && parts[k] in old(chain[k].entries)
              && old(chain[k].entries[parts[k]]).Atom? && unchanged(repr)
    ensures var parts := SplitDot(dotted); var n := |parts|;
      ok && k == n - 1 ==> chain[k].entries == old(chain[k].entries)[parts[n - 1] := value]
    ensures var parts := SplitDot(dotted); var n := |parts|;
      ok && k < n - 1 ==>
        && parts[k] !in old(chain[k].entries)
        && chain[k].entries == old(chain[k].entries)[parts[k] := Sub(chain[k + 1])]
        && (forall j :: k < j < n ==> fresh(chain[j]))
        && Created(chain, parts, k, n - 1)
        && chain[n - 1].entries == map[parts[n - 1] := value]
    ensures forall x :: x in repr && x != chain[k] ==> x.entries == old(x.entries)
    ensures var parts := SplitDot(dotted);
      ok && NoShortcut(chain, parts) ==>
        Linked(chain, parts) && chain[|parts| - 1].entries[parts[|parts| - 1]] == value
  {
    var parts := SplitDot(dotted);
    var n := |parts|;
    var cur;
    ok, cur, chain, k := Descend(d, parts, repr);
    if !ok {
      return;
    }
    label walked:
    cur.entries := cur.entries[parts[n - 1] := value];
    if k < n - 1 {
      assert cur !in repr && cur != chain[k];
      assert Created(chain, parts, k, n - 1) by {
        forall j | k < j < n - 1
          ensures chain[j] != chain[n - 1] && chain[j].entries == map[parts[j] := Sub(chain[j + 1])]
        {
          assert old@walked(chain[j].entries) == map[parts[j] := Sub(chain[j + 1])];
        }
      }
    }
    if NoShortcut(chain, parts) {
      forall j | 0 <= j < n - 1
        ensures parts[j] in chain[j].entries && chain[j].entries[parts[j]] == Sub(chain[j + 1])
      {
        if j < k {
          assert parts[j] in old(chain[j].entries) && old(chain[j].entries)[parts[j]] == Sub(chain[j + 1]);
          if chain[j] == chain[k] {
            if k == n - 1 {
              assert parts[j] != parts[n - 1];
            } else {
              assert parts[j] != parts[k];
            }
          }
        } else if j > k {
          assert old@walked(chain[j].entries) == map[parts[j] := Sub(chain[j + 1])];
          assert chain[j] != cur;
        }
      }
    }
  }

  /** A path without dots writes straight into `d`: `d[key] = value`. */
  method DeepSetTopLevel(d: Dict, key: string, value: Val, ghost repr: set<Dict>) returns (ok: bool)
    requires d in repr && Closed(repr) && DotFree(key)
    modifies repr
    ensures ok && d.entries == old(d.entries)[key := value]
    ensures forall x :: x in repr && x != d ==> x.entries == old(x.entries)
  {
    JoinDotSplit([key]);
    assert SplitDot(key) == [key];
    ghost var chain, k;
    ok, chain, k := DeepSet(d, key, value, repr);
  }
}
