/** `make_pareto`: the Pareto frontier of sweep results over retrieval
    recall (higher is better), warm end-to-end latency and cost (lower is
    better). */
module Pareto {

  /** One row of the sweep results; `config` stands for the columns that
      are carried along but not compared. */
  datatype Row = Row(config: string, recall: real, warmMs: real, cost: real)

  /** `dominates(b, a)`: `b` is at least as good as `a` on all three
      measures and strictly better on at least one. */
  predicate Dominates(b: Row, a: Row)
  {
    && b.recall >= a.recall && b.warmMs <= a.warmMs && b.cost <= a.cost
    && (b.recall > a.recall || b.warmMs < a.warmMs || b.cost < a.cost)
  }

  lemma DominatesIrreflexive(a: Row)
    ensures !Dominates(a, a)
  {
  }

  lemma DominatesAsymmetric(a: Row, b: Row)
    requires Dominates(b, a)
    ensures !Dominates(a, b)
  {
  }

  lemma DominatesTransitive(a: Row, b: Row, c: Row)
    requires Dominates(c, b) && Dominates(b, a)
    ensures Dominates(c, a)
  {
  }

  /** Row `i` is beaten by another row: `any(dominates(b, a) for j, b in
      enumerate(rows) if i != j)`. */
  predicate Dominated(rows: seq<Row>, i: nat)
    requires i < |rows|
  {
    exists j :: 0 <= j < |rows| && j != i && Dominates(rows[j], rows[i])
  }

  /** The rows of the first `n` that no row beats, in input order. */
  function Frontier(rows: seq<Row>, n: nat): seq<Row>
    requires n <= |rows|
  {
    if n == 0 then []
    else Frontier(rows, n - 1) + (if Dominated(rows, n - 1) then [] else [rows[n - 1]])
  }

  /** `pareto(df)` */
  method ParetoRows(rows: seq<Row>) returns (keep: seq<Row>)
    ensures keep == Frontier(rows, |rows|)
  {
    keep := [];
    for i := 0 to |rows|
      invariant keep == Frontier(rows, i)
    {
      var a := rows[i];
      if Dominated(rows, i) {
        continue;
      }
      keep := keep + [a];
    }
  }

  /** A row is on the frontier exactly when it is some input row that no
      row beats. */
  lemma {:induction false} FrontierMembers(rows: seq<Row>, n: nat, x: Row)
    requires n <= |rows|
    ensures x in Frontier(rows, n) <==> exists i :: 0 <= i < n && rows[i] == x && !Dominated(rows, i)
  {
    if n > 0 {
      FrontierMembers(rows, n - 1, x);
    }
  }

  /** Nothing on the frontier is dominated by any input row. */
  lemma FrontierUndominated(rows: seq<Row>, x: Row, y: Row)
    requires x in Frontier(rows, |rows|) && y in rows
    ensures !Dominates(y, x)
  {
    FrontierMembers(rows, |rows|, x);
    var i :| 0 <= i < |rows| && rows[i] == x && !Dominated(rows, i);
    var j :| 0 <= j < |rows| && rows[j] == y;
    if j == i {
      DominatesIrreflexive(x);
    }
  }

  /** The indices of the rows that beat row `i`. */
  function Beaters(rows: seq<Row>, i: nat): set<nat>
    requires i < |rows|
  {
    set j | 0 <= j < |rows| && Dominates(rows[j], rows[i])
  }

  /** Every dropped row is dominated by a row that is kept. */
  lemma {:induction false} DroppedBeatenByKept(rows: seq<Row>, i: nat) returns (k: nat)
    requires i < |rows| && Dominated(rows, i)
    ensures k < |rows| && !Dominated(rows, k) && Dominates(rows[k], rows[i])
    ensures rows[k] in Frontier(rows, |rows|)
    decreases |Beaters(rows, i)|
  {
    var j :| 0 <= j < |rows| && j != i && Dominates(rows[j], rows[i]);
    if !Dominated(rows, j) {
      k := j;
    } else {
      assert Beaters(rows, j) < Beaters(rows, i) by {
        forall m | m in Beaters(rows, j) ensures m in Beaters(rows, i) {
          DominatesTransitive(rows[i], rows[j], rows[m]);
        }
        assert j in Beaters(rows, i);
        DominatesIrreflexive(rows[j]);
        assert j !in Beaters(rows, j);
      }
      SubsetSmaller(Beaters(rows, j), Beaters(rows, i));
      k := DroppedBeatenByKept(rows, j);
      DominatesTransitive(rows[i], rows[j], rows[k]);
    }
    FrontierMembers(rows, |rows|, rows[k]);
  }

  lemma SubsetSmaller(a: set<nat>, b: set<nat>)
    requires a < b
    ensures |a| < |b|
  {
    var x :| x in b && x !in a;
    assert b == a + (b - a) && a * (b - a) == {};
    assert x in b - a;
  }

  /** A non-empty input has a non-empty frontier. */
  lemma FrontierNonEmpty(rows: seq<Row>)
    requires |rows| > 0
    ensures |Frontier(rows, |rows|)| > 0
  {
    if Dominated(rows, 0) {
      var k := DroppedBeatenByKept(rows, 0);
    } else {
      FrontierMembers(rows, |rows|, rows[0]);
    }
  }

  /** Identical rows are kept or dropped together: one never beats its
      copy, so whatever beats one beats the other. */
  lemma DuplicatesTogether(rows: seq<Row>, i: nat, j: nat)
    requires i < |rows| && j < |rows| && rows[i] == rows[j]
    ensures Dominated(rows, i) <==> Dominated(rows, j)
  {
    if Dominated(rows, i) {
      var k :| 0 <= k < |rows| && k != i && Dominates(rows[k], rows[i]);
      DominatesIrreflexive(rows[i]);
      assert k != j;
    }
    if Dominated(rows, j) {
      var k :| 0 <= k < |rows| && k != j && Dominates(rows[k], rows[j]);
      DominatesIrreflexive(rows[j]);
      assert k != i;
    }
  }
}
