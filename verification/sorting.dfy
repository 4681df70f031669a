/** A stable insertion sort by an arbitrary total preorder. It stands for the
    library sorts the source calls (`DataFrame.sort_index`, `sorted`,
    `list.sort`): each of them returns a sorted permutation of its input. */
module Sorting {

  ghost predicate TotalPreorder<T(!new)>(le: (T, T) -> bool)
  {
    && (forall a, b :: le(a, b) || le(b, a))
    && (forall a, b, c :: le(a, b) && le(b, c) ==> le(a, c))
  }

  predicate SortedBy<T>(s: seq<T>, le: (T, T) -> bool)
  {
    forall i, j :: 0 <= i < j < |s| ==> le(s[i], s[j])
  }

  /** Inserts `x` after every element that is not greater than it. */
  function InsertBy<T>(x: T, s: seq<T>, le: (T, T) -> bool): seq<T>
  {
    if s == [] || !le(s[0], x) then [x] + s else [s[0]] + InsertBy(x, s[1..], le)
  }

  lemma {:induction false} InsertByCorrect<T(!new)>(x: T, s: seq<T>, le: (T, T) -> bool)
    requires TotalPreorder(le)
    requires SortedBy(s, le)
    ensures SortedBy(InsertBy(x, s, le), le)
    ensures multiset(InsertBy(x, s, le)) == multiset(s) + multiset{x}
    decreases |s|
  {
    if s == [] || !le(s[0], x) {
      var r := [x] + s;
      forall i, j | 0 <= i < j < |r| ensures le(r[i], r[j]) {
        if i == 0 {
          assert le(x, s[0]);
          if j > 1 { assert le(s[0], s[j - 1]); }
        }
      }
    } else {
      InsertByCorrect(x, s[1..], le);
      var tail := InsertBy(x, s[1..], le);
      var r := [s[0]] + tail;
      assert s == [s[0]] + s[1..];
      forall i, j | 0 <= i < j < |r| ensures le(r[i], r[j]) {
        if i == 0 {
          assert r[j] in multiset(tail);
          var y := r[j];
          assert y in multiset(s[1..]) + multiset{x};
          if y == x {
          } else {
            assert y in s[1..];
            var k :| 0 <= k < |s[1..]| && s[1..][k] == y;
            assert s[k + 1] == y;
          }
        }
      }
    }
  }

  function SortBy<T(!new)>(s: seq<T>, le: (T, T) -> bool): (r: seq<T>)
    requires TotalPreorder(le)
    ensures SortedBy(r, le)
    ensures multiset(r) == multiset(s)
    ensures |r| == |s|
    decreases |s|
  {
    if s == [] then []
    else
      var prefix := s[..|s| - 1];
      var sorted := SortBy(prefix, le);
      InsertByCorrect(s[|s| - 1], sorted, le);
      assert s == prefix + [s[|s| - 1]];
      assert |multiset(InsertBy(s[|s| - 1], sorted, le))| == |multiset(s)|;
      InsertBy(s[|s| - 1], sorted, le)
  }

  /** Python's `<=` on `str`: lexicographic by code point, a proper prefix first. */
  predicate StrLe(a: string, b: string)
  {
    |a| == 0 || (|b| > 0 && (a[0] < b[0] || (a[0] == b[0] && StrLe(a[1..], b[1..]))))
  }

  lemma {:induction false} StrLeTotal(a: string, b: string)
    ensures StrLe(a, b) || StrLe(b, a)
    decreases |a|
  {
    if |a| > 0 && |b| > 0 && a[0] == b[0] {
      StrLeTotal(a[1..], b[1..]);
    }
  }

  lemma {:induction false} StrLeTransitive(a: string, b: string, c: string)
    requires StrLe(a, b) && StrLe(b, c)
    ensures StrLe(a, c)
    decreases |a|
  {
    if |a| > 0 && a[0] == b[0] && b[0] == c[0] {
      StrLeTransitive(a[1..], b[1..], c[1..]);
    }
  }

  lemma {:induction false} StrLeAntisymmetric(a: string, b: string)
    requires StrLe(a, b) && StrLe(b, a)
    ensures a == b
    decreases |a|
  {
    if |a| > 0 {
      StrLeAntisymmetric(a[1..], b[1..]);
      assert a == [a[0]] + a[1..] && b == [b[0]] + b[1..];
    }
  }

  lemma StrLeIsTotalPreorder()
    ensures TotalPreorder(StrLe)
  {
    forall a, b ensures StrLe(a, b) || StrLe(b, a) { StrLeTotal(a, b); }
    forall a, b, c | StrLe(a, b) && StrLe(b, c) ensures StrLe(a, c) { StrLeTransitive(a, b, c); }
  }
}
