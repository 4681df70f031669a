/** Small value types shared by every module of the model: optional and
    fallible results, Python's forgiving slice, decimal rendering of
    integers, sums, and an insertion-ordered dictionary. */
module Common {

  datatype Option<+T> = None | Some(value: T)

  datatype Result<+R, +E> = Ok(value: R) | Err(error: E)

  /** `d.get(k, default)` */
  function GetOr<K, V>(m: map<K, V>, k: K, default: V): (r: V)
    ensures k in m ==> r == m[k]
    ensures k !in m ==> r == default
  {
    if k in m then m[k] else default
  }

  /** Python's normalisation of one slice bound against a length `n`:
      negative bounds count from the end, and everything is clamped to [0, n]. */
  function SliceBound(i: int, n: nat): (r: nat)
    ensures r <= n
    ensures 0 <= i <= n ==> r == i
    ensures i > n ==> r == n
    ensures i < 0 ==> r == (if i + n < 0 then 0 else i + n)
  {
    if i < 0 then (if i + n < 0 then 0 else i + n)
    else if i > n then n
    else i
  }

  /** `s[a:b]` in Python: never fails, empty when the bounds cross. */
  function PySlice<T>(s: seq<T>, a: int, b: int): (r: seq<T>)
    ensures 0 <= a <= b <= |s| ==> r == s[a..b]
    ensures |r| <= |s|
  {
    var lo := SliceBound(a, |s|);
    var hi := SliceBound(b, |s|);
    if lo < hi then s[lo..hi] else []
  }

  /** The length of `s[a:b]` for a sequence of length `n`. */
  function SliceLen(n: nat, a: int, b: int): nat
  {
    var lo := SliceBound(a, n);
    var hi := SliceBound(b, n);
    if lo < hi then hi - lo else 0
  }

  lemma PySliceLen<T>(s: seq<T>, a: int, b: int)
    ensures |PySlice(s, a, b)| == SliceLen(|s|, a, b)
  {
  }

  /** Whatever its bounds, `s[a:b]` is a contiguous run of `s`. */
  lemma PySliceRun<T>(s: seq<T>, a: int, b: int) returns (lo: nat, hi: nat)
    ensures lo <= hi <= |s| && PySlice(s, a, b) == s[lo..hi]
  {
    lo := SliceBound(a, |s|);
    hi := SliceBound(b, |s|);
    if hi < lo {
      hi := lo;
    }
  }

  /** `s[a:b]` with `0 <= a <= b` is `s[a:min(len(s), b)]`. */
  lemma PySliceClamp<T>(s: seq<T>, a: int, b: int)
    requires 0 <= a <= |s| && a <= b
    ensures PySlice(s, a, b) == s[a..MinInt(|s|, b)]
  {
  }

  /** Python's `s[-k:]`, as used by `iloc[-k:]`: with k == 0 this is
      `s[0:]`, the whole sequence, because -0 == 0. */
  function LastK<T>(s: seq<T>, k: nat): (r: seq<T>)
    ensures k == 0 ==> r == s
    ensures 0 < k <= |s| ==> r == s[|s| - k..]
    ensures |r| <= |s|
  {
    PySlice(s, 0 - k as int, |s|)
  }

  function DigitChar(d: nat): char
    requires d < 10
  {
    "0123456789"[d]
  }

  /** `str(n)` for a non-negative integer. */
  function NatToString(n: nat): (s: string)
    ensures |s| >= 1
    ensures forall i :: 0 <= i < |s| ==> '0' <= s[i] <= '9'
    decreases n
  {
    if n < 10 then [DigitChar(n)] else NatToString(n / 10) + [DigitChar(n % 10)]
  }

  lemma DigitCharInjective(a: nat, b: nat)
    requires a < 10 && b < 10 && DigitChar(a) == DigitChar(b)
    ensures a == b
  {
    var digits := "0123456789";
    assert forall i, j :: 0 <= i < j < 10 ==> digits[i] != digits[j];
  }

  /** Different numbers have different decimal strings. */
  lemma {:induction false} NatToStringInjective(a: nat, b: nat)
    requires NatToString(a) == NatToString(b)
    ensures a == b
    decreases a
  {
    var s := NatToString(a);
    if a < 10 && b < 10 {
      DigitCharInjective(a, b);
    } else if a >= 10 && b >= 10 {
      assert s[..|s| - 1] == NatToString(a / 10) && s[..|s| - 1] == NatToString(b / 10);
      NatToStringInjective(a / 10, b / 10);
      DigitCharInjective(a % 10, b % 10);
    }
  }

  function SumReals(xs: seq<real>): real
  {
    if xs == [] then 0.0 else SumReals(xs[..|xs| - 1]) + xs[|xs| - 1]
  }

  lemma {:induction false} SumRealsAppend(xs: seq<real>, ys: seq<real>)
    ensures SumReals(xs + ys) == SumReals(xs) + SumReals(ys)
    decreases |ys|
  {
    if ys == [] {
      assert xs + ys == xs;
    } else {
      var ys' := ys[..|ys| - 1];
      assert (xs + ys)[..|xs + ys| - 1] == xs + ys';
      SumRealsAppend(xs, ys');
    }
  }

  lemma {:induction false} SumRealsNonNegative(xs: seq<real>)
    requires forall i :: 0 <= i < |xs| ==> xs[i] >= 0.0
    ensures SumReals(xs) >= 0.0
    decreases |xs|
  {
    if xs != [] {
      SumRealsNonNegative(xs[..|xs| - 1]);
    }
  }

  function Abs(x: int): int
  {
    if x < 0 then -x else x
  }

  function MinInt(a: int, b: int): int
  {
    if a <= b then a else b
  }

  function MaxInt(a: int, b: int): int
  {
    if a >= b then a else b
  }

  function MinReal(a: real, b: real): real
  {
    if a <= b then a else b
  }

  function MaxReal(a: real, b: real): real
  {
    if a >= b then a else b
  }

  function AbsReal(x: real): real
  {
    if x < 0.0 then -x else x
  }

  /** A ratio of a part to a positive whole lies in [0, 1]: it is 1
      exactly for the whole and 0 exactly for nothing. */
  lemma UnitRatio(num: real, den: real)
    requires 0.0 <= num <= den && den > 0.0
    ensures 0.0 <= num / den <= 1.0
    ensures num / den == 1.0 <==> num == den
    ensures num / den == 0.0 <==> num == 0.0
  {
    assert num / den * den == num;
  }

  predicate Distinct<T(==)>(s: seq<T>)
  {
    forall i, j :: 0 <= i < j < |s| ==> s[i] != s[j]
  }

  /** An element of a sequence without repeats occurs in it at most once. */
  lemma {:induction false} DistinctCount<T>(s: seq<T>, x: T)
    requires Distinct(s)
    ensures multiset(s)[x] <= 1
  {
    if s != [] {
      assert s == [s[0]] + s[1..];
      DistinctCount(s[1..], x);
      if x == s[0] {
        assert x !in s[1..];
      }
    }
  }

  /** In a sequence without repeats, each element occurs exactly once. */
  lemma DistinctOnce<T>(s: seq<T>, i: nat)
    requires Distinct(s) && i < |s|
    ensures multiset(s)[s[i]] == 1
  {
    DistinctCount(s, s[i]);
    assert s[i] in multiset(s);
  }

  /** An element found at two positions occurs at least twice. */
  lemma RepeatCount<T>(s: seq<T>, i: nat, j: nat)
    requires i < j < |s| && s[i] == s[j]
    ensures multiset(s)[s[i]] >= 2
  {
    assert s == s[..j] + [s[j]] + s[j + 1..];
    assert s[i] in s[..j];
  }

  /** A rearrangement of a sequence without repeats has none either. */
  lemma DistinctPermutation<T>(s: seq<T>, t: seq<T>)
    requires Distinct(s) && multiset(s) == multiset(t)
    ensures Distinct(t)
  {
    forall i, j | 0 <= i < j < |t| ensures t[i] != t[j] {
      if t[i] == t[j] {
        RepeatCount(t, i, j);
        DistinctCount(s, t[i]);
      }
    }
  }

  /** A Python `dict`: a finite map that remembers the order in which its
      keys were first inserted. */
  datatype OrderedMap<K, V> = OrderedMap(keys: seq<K>, entries: map<K, V>)
  {
    ghost predicate Valid()
    {
      Distinct(keys) && entries.Keys == set k | k in keys
    }

    /** `d[k] = v`: a new key goes to the end, an existing key keeps its place. */
    function Put(k: K, v: V): (r: OrderedMap<K, V>)
      requires Valid()
      ensures r.Valid()
      ensures r.entries == entries[k := v]
      ensures k in entries ==> r.keys == keys
      ensures k !in entries ==> r.keys == keys + [k]
    {
      if k in entries then OrderedMap(keys, entries[k := v])
      else
        assert (set x | x in keys + [k]) == (set x | x in keys) + {k};
        OrderedMap(keys + [k], entries[k := v])
    }
  }

  function EmptyOrderedMap<K, V>(): (r: OrderedMap<K, V>)
    ensures r.Valid() && r.keys == [] && r.entries == map[]
  {
    OrderedMap([], map[])
  }
}
