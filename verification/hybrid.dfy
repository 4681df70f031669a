/** `query_hybrid` after retrieval: min-max normalisation of each
    retriever's scores, the weighted merge over the union of chunk ids,
    the descending sort and the cut to `top_k`. The two retrievers' result
    lists are inputs. */
module Hybrid {
  import opened Common
  import opened Sorting
  import opened Chunking

  /** A retrieved item: its score and its chunk. */
  type Scored = (real, Chunk)

  /** `min(scores)` */
  function MinScore(pairs: seq<Scored>): (lo: real)
    requires pairs != []
    ensures forall i :: 0 <= i < |pairs| ==> lo <= pairs[i].0
    ensures exists i :: 0 <= i < |pairs| && lo == pairs[i].0
  {
    if |pairs| == 1 then pairs[0].0
    else
      var rest := MinScore(pairs[1..]);
      assert forall i :: 1 <= i < |pairs| ==> pairs[i] == pairs[1..][i - 1];
      if pairs[0].0 <= rest then pairs[0].0 else rest
  }

  /** `max(scores)` */
  function MaxScore(pairs: seq<Scored>): (hi: real)
    requires pairs != []
    ensures forall i :: 0 <= i < |pairs| ==> pairs[i].0 <= hi
    ensures exists i :: 0 <= i < |pairs| && hi == pairs[i].0
  {
    if |pairs| == 1 then pairs[0].0
    else
      var rest := MaxScore(pairs[1..]);
      assert forall i :: 1 <= i < |pairs| ==> pairs[i] == pairs[1..][i - 1];
      if pairs[0].0 >= rest then pairs[0].0 else rest
  }

  /** `0.0 if hi == lo else (s - lo) / (hi - lo)` */
  function MinMax(s: real, lo: real, hi: real): real
  {
    if hi == lo then 0.0 else (s - lo) / (hi - lo)
  }

  lemma MinMaxRange(s: real, lo: real, hi: real)
    requires lo <= s <= hi
    ensures 0.0 <= MinMax(s, lo, hi) <= 1.0
  {
    if hi != lo {
      UnitRatio(s - lo, hi - lo);
    }
  }

  /** The table `norm` has built after the first `n` pairs: each chunk id
      maps to the normalised score and the chunk of its latest pair. */
  function NormTable(pairs: seq<Scored>, n: nat, lo: real, hi: real): map<string, (real, Chunk)>
    requires n <= |pairs|
  {
    if n == 0 then map[]
    else
      var (s, c) := pairs[n - 1];
      NormTable(pairs, n - 1, lo, hi)[c.chunkId := (MinMax(s, lo, hi), c)]
  }

  /** What `norm(pairs)` returns. */
  function Normalised(pairs: seq<Scored>): map<string, (real, Chunk)>
  {
    if pairs == [] then map[] else NormTable(pairs, |pairs|, MinScore(pairs), MaxScore(pairs))
  }

  /** `norm(pairs)` */
  method Normalise(pairs: seq<Scored>) returns (out: map<string, (real, Chunk)>)
    ensures out == Normalised(pairs)
  {
    if pairs == [] {
      return map[];
    }
    var lo, hi := MinScore(pairs), MaxScore(pairs);
    out := map[];
    for i := 0 to |pairs|
      invariant out == NormTable(pairs, i, lo, hi)
    {
      var (s, c) := pairs[i];
      var ns := if hi == lo then 0.0 else (s - lo) / (hi - lo);
      out := out[c.chunkId := (ns, c)];
    }
  }

  /** The chunk ids of a result list. */
  function Ids(pairs: seq<Scored>): set<string>
  {
    set i | 0 <= i < |pairs| :: pairs[i].1.chunkId
  }

  /** The table holds exactly the ids of the pairs; each id maps to the
      chunk and normalised score of its last pair, so a repeated id keeps
      its last occurrence. */
  lemma {:induction false} NormTableEntries(pairs: seq<Scored>, n: nat, lo: real, hi: real, id: string)
    requires n <= |pairs|
    ensures id in NormTable(pairs, n, lo, hi) <==> exists i :: 0 <= i < n && pairs[i].1.chunkId == id
    ensures forall i :: 0 <= i < n && pairs[i].1.chunkId == id
                        && (forall j :: i < j < n ==> pairs[j].1.chunkId != id)
                        ==> NormTable(pairs, n, lo, hi)[id] == (MinMax(pairs[i].0, lo, hi), pairs[i].1)
  {
    if n > 0 {
      NormTableEntries(pairs, n - 1, lo, hi, id);
    }
  }

  /** Every score of the table is normalised into [0, 1], the chunk under
      an id carries that id, and when all scores are equal every
      normalised score is 0. */
  lemma {:induction false} NormTableScores(pairs: seq<Scored>, n: nat, lo: real, hi: real)
    requires n <= |pairs|
    requires forall i :: 0 <= i < |pairs| ==> lo <= pairs[i].0 <= hi
    ensures forall id :: id in NormTable(pairs, n, lo, hi) ==>
              && 0.0 <= NormTable(pairs, n, lo, hi)[id].0 <= 1.0
              && NormTable(pairs, n, lo, hi)[id].1.chunkId == id
              && (lo == hi ==> NormTable(pairs, n, lo, hi)[id].0 == 0.0)
  {
    if n > 0 {
      NormTableScores(pairs, n - 1, lo, hi);
      MinMaxRange(pairs[n - 1].0, lo, hi);
    }
  }

  lemma NormalisedScores(pairs: seq<Scored>)
    ensures forall id :: id in Normalised(pairs) <==> id in Ids(pairs)
    ensures forall id :: id in Normalised(pairs) ==>
              0.0 <= Normalised(pairs)[id].0 <= 1.0 && Normalised(pairs)[id].1.chunkId == id
  {
    if pairs != [] {
      NormTableScores(pairs, |pairs|, MinScore(pairs), MaxScore(pairs));
      forall id ensures id in Normalised(pairs) <==> id in Ids(pairs) {
        NormTableEntries(pairs, |pairs|, MinScore(pairs), MaxScore(pairs), id);
      }
    }
  }

  /** With all scores equal (hi == lo), every normalised score is 0. */
  lemma NormalisedFlat(pairs: seq<Scored>)
    requires forall i, j :: 0 <= i < |pairs| && 0 <= j < |pairs| ==> pairs[i].0 == pairs[j].0
    ensures forall id :: id in Normalised(pairs) ==> Normalised(pairs)[id].0 == 0.0
  {
    if pairs != [] {
      NormTableScores(pairs, |pairs|, MinScore(pairs), MaxScore(pairs));
    }
  }

  /** `alpha*sd + (1-alpha)*sb` */
  function Fuse(alpha: real, sd: real, sb: real): real
  {
    alpha * sd + (1.0 - alpha) * sb
  }

  lemma FuseRange(alpha: real, sd: real, sb: real)
    requires 0.0 <= alpha <= 1.0 && 0.0 <= sd <= 1.0 && 0.0 <= sb <= 1.0
    ensures 0.0 <= Fuse(alpha, sd, sb) <= 1.0
  {
    assert 0.0 <= alpha * sd <= alpha;
    assert 0.0 <= (1.0 - alpha) * sb <= 1.0 - alpha;
  }

  /** `t.get(cid, (0.0, None))[0]` */
  function ScoreIn(t: map<string, (real, Chunk)>, id: string): real
  {
    if id in t then t[id].0 else 0.0
  }

  /** The merged entry for one id: the fused score, and the chunk from the
      BM25 table if it has the id, else from the dense one. */
  function MergedEntry(nb: map<string, (real, Chunk)>, nd: map<string, (real, Chunk)>, alpha: real, id: string): Scored
    requires id in nb || id in nd
  {
    (Fuse(alpha, ScoreIn(nd, id), ScoreIn(nb, id)), if id in nb then nb[id].1 else nd[id].1)
  }

  /** The merged list for ids visited in `order`. */
  function Merged(nb: map<string, (real, Chunk)>, nd: map<string, (real, Chunk)>, order: seq<string>, alpha: real): seq<Scored>
    requires forall id :: id in order ==> id in nb || id in nd
  {
    seq(|order|, i requires 0 <= i < |order| => MergedEntry(nb, nd, alpha, order[i]))
  }

  /** The merge loop over `ids`, visited in `order` (the iteration order of
      the set, which Python leaves to string hashing). */
  method Merge(nb: map<string, (real, Chunk)>, nd: map<string, (real, Chunk)>, order: seq<string>, alpha: real)
    returns (merged: seq<Scored>)
    requires forall id :: id in order ==> id in nb || id in nd
    ensures merged == Merged(nb, nd, order, alpha)
  {
    merged := [];
    for i := 0 to |order|
      invariant |merged| == i
      invariant forall k :: 0 <= k < i ==> merged[k] == MergedEntry(nb, nd, alpha, order[k])
    {
      var cid := order[i];
      var sb := if cid in nb then nb[cid].0 else 0.0;
      var sd := if cid in nd then nd[cid].0 else 0.0;
      var c := if cid in nb then nb[cid].1 else nd[cid].1;
      assert sb == ScoreIn(nb, cid) && sd == ScoreIn(nd, cid);
      assert c == MergedEntry(nb, nd, alpha, cid).1;
      assert alpha * sd + (1.0 - alpha) * sb == MergedEntry(nb, nd, alpha, cid).0;
      merged := merged + [(alpha * sd + (1.0 - alpha) * sb, c)];
    }
  }

  /** The key of `merged.sort(key=lambda x: x[0], reverse=True)`. */
  predicate ScoreGe(x: Scored, y: Scored)
  {
    x.0 >= y.0
  }

  lemma ScoreGeTotal()
    ensures TotalPreorder(ScoreGe)
  {
  }

  /** The ranked list before the cut. */
  function Ranked(merged: seq<Scored>): (r: seq<Scored>)
    ensures SortedBy(r, ScoreGe) && multiset(r) == multiset(merged)
  {
    ScoreGeTotal();
    SortBy(merged, ScoreGe)
  }

  /** What `query_hybrid` returns, given the two retrievers' results `bm`
      and `de` and the iteration order of the union of their ids. */
  function HybridResult(bm: seq<Scored>, de: seq<Scored>, order: seq<string>, topK: int, alpha: real): seq<Scored>
    requires forall id :: id in order ==> id in Ids(bm) + Ids(de)
  {
    NormalisedScores(bm);
    NormalisedScores(de);
    PySlice(Ranked(Merged(Normalised(bm), Normalised(de), order, alpha)), 0, topK)
  }

  /** `query_hybrid(...)` after the two retrievals. */
  method QueryHybrid(bm: seq<Scored>, de: seq<Scored>, order: seq<string>, topK: int, alpha: real)
    returns (result: seq<Scored>)
    requires forall id :: id in order ==> id in Ids(bm) + Ids(de)
    ensures result == HybridResult(bm, de, order, topK, alpha)
  {
    var nb := Normalise(bm);
    var nd := Normalise(de);
    NormalisedScores(bm);
    NormalisedScores(de);
    var merged := Merge(nb, nd, order, alpha);
    ScoreGeTotal();
    merged := SortBy(merged, ScoreGe);
    result := PySlice(merged, 0, topK);
  }

  /** `s[:b]` is a prefix of `s`. */
  lemma SlicePrefix<T>(s: seq<T>, b: int)
    ensures PySlice(s, 0, b) == s[..|PySlice(s, 0, b)|]
  {
  }

  /** The merged entry of an id that one of the retrievers returned. */
  function EntryFor(bm: seq<Scored>, de: seq<Scored>, alpha: real, id: string): Scored
    requires id in Ids(bm) + Ids(de)
  {
    NormalisedScores(bm);
    NormalisedScores(de);
    MergedEntry(Normalised(bm), Normalised(de), alpha, id)
  }

  /** `x` is the merged entry of its own chunk id, an id that one of the
      retrievers returned. */
  predicate ValidEntry(bm: seq<Scored>, de: seq<Scored>, alpha: real, x: Scored)
  {
    x.1.chunkId in Ids(bm) + Ids(de) && x == EntryFor(bm, de, alpha, x.1.chunkId)
  }

  /** No chunk id occurs twice. */
  predicate DistinctIds(s: seq<Scored>)
  {
    forall i, j :: 0 <= i < j < |s| ==> s[i].1.chunkId != s[j].1.chunkId
  }

  /** Rearranging entries with distinct ids keeps the ids distinct. */
  lemma DistinctIdsPermutation(s: seq<Scored>, t: seq<Scored>)
    requires DistinctIds(s) && multiset(s) == multiset(t)
    ensures DistinctIds(t)
  {
    assert Distinct(s);
    DistinctPermutation(s, t);
    forall i, j | 0 <= i < j < |t| ensures t[i].1.chunkId != t[j].1.chunkId {
      assert t[i] in multiset(s) && t[j] in multiset(s);
      var ki :| 0 <= ki < |s| && t[i] == s[ki];
      var kj :| 0 <= kj < |s| && t[j] == s[kj];
    }
  }

  /** In a list sorted by descending score, an entry past a prefix scores
      no higher than any entry of the prefix. */
  lemma PrefixBest(ranked: seq<Scored>, n: nat, x: Scored, y: Scored)
    requires SortedBy(ranked, ScoreGe) && n <= |ranked|
    requires x in ranked[..n] && y in ranked && y !in ranked[..n]
    ensures y.0 <= x.0
  {
    var p :| 0 <= p < |ranked| && ranked[p] == y;
    var q :| 0 <= q < n && ranked[q] == x;
    assert ScoreGe(ranked[q], ranked[p]);
  }

  /** Cutting the ranked list of entries with distinct ids: the cut is
      sorted, `min(top_k, n)` long, holds each id at most once, holds only
      entries of the list, and every entry left out scores no higher than
      every entry kept. */
  lemma CutProperties(merged: seq<Scored>, topK: int)
    requires DistinctIds(merged)
    ensures var r := PySlice(Ranked(merged), 0, topK);
      && SortedBy(r, ScoreGe)
      && (0 <= topK ==> |r| == MinInt(topK, |merged|))
      && DistinctIds(r)
      && (forall x :: x in r ==> x in merged)
      && (forall k, x :: 0 <= k < |merged| && x in r && merged[k].1.chunkId !in Ids(r) ==> merged[k].0 <= x.0)
  {
    var ranked := Ranked(merged);
    var r := PySlice(ranked, 0, topK);
    SlicePrefix(ranked, topK);
    assert r == ranked[..|r|];
    DistinctIdsPermutation(merged, ranked);
    forall x | x in r ensures x in merged {
      assert x in multiset(ranked);
    }
    forall k, x | 0 <= k < |merged| && x in r && merged[k].1.chunkId !in Ids(r)
      ensures merged[k].0 <= x.0
    {
      assert merged[k] in multiset(ranked);
      assert merged[k] !in r;
      PrefixBest(ranked, |r|, x, merged[k]);
    }
  }

  /** `query_hybrid`'s result is ranked by descending score, is
      `min(top_k, |ids|)` long, holds each chunk id once, and no id left
      out scores higher than one kept. */
  lemma HybridRanking(bm: seq<Scored>, de: seq<Scored>, order: seq<string>, topK: int, alpha: real)
    requires Distinct(order)
    requires forall id :: id in order <==> id in Ids(bm) + Ids(de)
    ensures var r := HybridResult(bm, de, order, topK, alpha);
      && SortedBy(r, ScoreGe)
      && (0 <= topK ==> |r| == MinInt(topK, |order|))
      && (forall i, j :: 0 <= i < j < |r| ==> r[i].1.chunkId != r[j].1.chunkId)
      && (forall id, x :: id in Ids(bm) + Ids(de) && x in r && id !in Ids(r) ==>
            EntryFor(bm, de, alpha, id).0 <= x.0)
  {
    NormalisedScores(bm);
    NormalisedScores(de);
    var merged := Merged(Normalised(bm), Normalised(de), order, alpha);
    assert forall i :: 0 <= i < |order| ==> merged[i].1.chunkId == order[i];
    CutProperties(merged, topK);
    forall id, x | id in Ids(bm) + Ids(de) && x in HybridResult(bm, de, order, topK, alpha)
                   && id !in Ids(HybridResult(bm, de, order, topK, alpha))
      ensures EntryFor(bm, de, alpha, id).0 <= x.0
    {
      var k :| 0 <= k < |order| && order[k] == id;
      assert merged[k] == EntryFor(bm, de, alpha, id);
    }
  }

  /** Every entry of `query_hybrid`'s result is the merged entry of an id
      one of the retrievers returned, and with a weight in [0, 1] every
      score lies in [0, 1]. */
  lemma HybridEntries(bm: seq<Scored>, de: seq<Scored>, order: seq<string>, topK: int, alpha: real)
    requires Distinct(order)
    requires forall id :: id in order <==> id in Ids(bm) + Ids(de)
    ensures var r := HybridResult(bm, de, order, topK, alpha);
      && (forall x :: x in r ==> ValidEntry(bm, de, alpha, x))
      && (0.0 <= alpha <= 1.0 ==> forall x :: x in r ==> 0.0 <= x.0 <= 1.0)
  {
    NormalisedScores(bm);
    NormalisedScores(de);
    var nb, nd := Normalised(bm), Normalised(de);
    var merged := Merged(nb, nd, order, alpha);
    assert forall i :: 0 <= i < |order| ==> merged[i].1.chunkId == order[i];
    CutProperties(merged, topK);
    forall x | x in HybridResult(bm, de, order, topK, alpha)
      ensures ValidEntry(bm, de, alpha, x) && (0.0 <= alpha <= 1.0 ==> 0.0 <= x.0 <= 1.0)
    {
      var k :| 0 <= k < |order| && merged[k] == x;
      if 0.0 <= alpha <= 1.0 {
        FuseRange(alpha, ScoreIn(nd, order[k]), ScoreIn(nb, order[k]));
      }
    }
  }
}
