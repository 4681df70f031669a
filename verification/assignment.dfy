/** The study's task-condition assignment: every participant gets one task
    per category and condition, with the conditions ordered by a row of a
    3×3 Latin square, and the nine tasks put in a random session order.
    The random number generator is replaced by the draws it would make. */
module Assignment {
  import opened Common

  /** The study arms, written "control", "T1" and "T2" in the output. */
  datatype Condition = Control | T1 | T2

  /** `LATIN`: row `r` is the order in which the conditions are given. */
  const Latin: seq<seq<Condition>> := [[Control, T1, T2], [T1, T2, Control], [T2, Control, T1]]

  /** `CATEGORIES`, in insertion order: a name and its pool of task ids. */
  const Categories: seq<(string, seq<string>)> :=
    [("A", ["A01", "A02", "A03", "A04", "A05", "A06"]),
     ("B", ["B01", "B02", "B03", "B04", "B05", "B06"]),
     ("C", ["C01", "C02", "C03", "C04", "C05", "C06"])]

  /** One task record; `sessionOrder` is absent until its list is
      shuffled. */
  datatype Task = Task(taskId: string, category: string, condition: Condition,
                       conditionOrder: nat, sessionOrder: Option<nat>)

  /** `out[str(pid)]` */
  datatype Participant = Participant(participantIndex: nat, latinRow: nat, tasks: seq<Task>)

  // ---------------------------------------------------------------------
  // Shuffling
  // ---------------------------------------------------------------------

  /** The choices a Fisher–Yates shuffle of `n` items makes: for the
      position `n - 1 - k`, a partner in `[0, n - 1 - k]`. */
  predicate ValidDraws(n: nat, draws: seq<nat>)
  {
    && |draws| == (if n == 0 then 0 else n - 1)
    && forall k :: 0 <= k < |draws| ==> draws[k] <= n - 1 - k
  }

  function Swap<T>(s: seq<T>, i: nat, j: nat): (r: seq<T>)
    requires i < |s| && j < |s|
    ensures |r| == |s|
  {
    s[i := s[j]][j := s[i]]
  }

  /** The sequence after the first `k` swaps of the shuffle. */
  function ShuffleSteps<T>(s: seq<T>, draws: seq<nat>, k: nat): (r: seq<T>)
    requires ValidDraws(|s|, draws) && k <= |draws|
    ensures |r| == |s|
  {
    if k == 0 then s else Swap(ShuffleSteps(s, draws, k - 1), |s| - k, draws[k - 1])
  }

  /** `s` shuffled with the given draws. */
  function Shuffled<T>(s: seq<T>, draws: seq<nat>): seq<T>
    requires ValidDraws(|s|, draws)
  {
    ShuffleSteps(s, draws, |draws|)
  }

  /** `RNG.shuffle(a)`: swaps `a[i]` with `a[draws[k]]` for `i` from the
      last position down to 1. */
  method Shuffle<T>(a: array<T>, draws: seq<nat>)
    requires ValidDraws(a.Length, draws)
    modifies a
    ensures a[..] == Shuffled(old(a[..]), draws)
  {
    ghost var s := a[..];
    for k := 0 to |draws|
      invariant a[..] == ShuffleSteps(s, draws, k)
    {
      var i := a.Length - 1 - k;
      var j := draws[k];
      a[i], a[j] := a[j], a[i];
    }
  }

  /** `RNG.permutation(pool)`: a shuffled copy. */
  method Permutation<T>(pool: seq<T>, draws: seq<nat>) returns (shuf: seq<T>)
    requires ValidDraws(|pool|, draws)
    ensures shuf == Shuffled(pool, draws)
  {
    var a := new T[|pool|](i requires 0 <= i < |pool| => pool[i]);
    assert a[..] == pool;
    Shuffle(a, draws);
    shuf := a[..];
  }

  /** A shuffle rearranges its input. */
  lemma {:induction false} ShuffleStepsPermutation<T>(s: seq<T>, draws: seq<nat>, k: nat)
    requires ValidDraws(|s|, draws) && k <= |draws|
    ensures multiset(ShuffleSteps(s, draws, k)) == multiset(s)
    decreases k
  {
    if k > 0 {
      var t := ShuffleSteps(s, draws, k - 1);
      assert multiset(t) == multiset(s) by {
        ShuffleStepsPermutation(s, draws, k - 1);
      }
      assert multiset(ShuffleSteps(s, draws, k)) == multiset(t) by {
        ShuffleStepPermutation(s, draws, k);
      }
    }
  }

  lemma ShuffleStepPermutation<T>(s: seq<T>, draws: seq<nat>, k: nat)
    requires ValidDraws(|s|, draws) && 0 < k <= |draws|
    ensures multiset(ShuffleSteps(s, draws, k)) == multiset(ShuffleSteps(s, draws, k - 1))
  {
    SwapPermutation(ShuffleSteps(s, draws, k - 1), |s| - k, draws[k - 1]);
  }

  lemma SwapPermutation<T>(t: seq<T>, i: nat, j: nat)
    requires i < |t| && j < |t|
    ensures multiset(Swap(t, i, j)) == multiset(t)
  {
    var u := t[i := t[j]];
    assert multiset(u) == multiset(t) - multiset{t[i]} + multiset{t[j]};
    assert u[j] == t[j];
    assert multiset(u[j := t[i]]) == multiset(u) - multiset{t[j]} + multiset{t[i]};
  }

  lemma ShuffledPermutation<T>(s: seq<T>, draws: seq<nat>)
    requires ValidDraws(|s|, draws)
    ensures |Shuffled(s, draws)| == |s|
    ensures multiset(Shuffled(s, draws)) == multiset(s)
  {
    ShuffleStepsPermutation(s, draws, |draws|);
  }

  function MapSeq<T, U>(f: T -> U, s: seq<T>): (r: seq<U>)
    ensures |r| == |s|
  {
    seq(|s|, i requires 0 <= i < |s| => f(s[i]))
  }

  /** Shuffling and then projecting each element is projecting and then
      shuffling. */
  lemma {:induction false} ShuffleStepsMap<T, U>(f: T -> U, s: seq<T>, draws: seq<nat>, k: nat)
    requires ValidDraws(|s|, draws) && k <= |draws|
    ensures MapSeq(f, ShuffleSteps(s, draws, k)) == ShuffleSteps(MapSeq(f, s), draws, k)
  {
    if k > 0 {
      ShuffleStepsMap(f, s, draws, k - 1);
    }
  }

  // ---------------------------------------------------------------------
  // The assignment
  // ---------------------------------------------------------------------

  /** What the generator draws for one participant: one shuffle per
      category pool, then the shuffle of the nine tasks. */
  datatype Draws = Draws(pools: seq<seq<nat>>, order: seq<nat>)

  predicate ValidParticipantDraws(rd: Draws)
  {
    && |rd.pools| == |Categories|
    && (forall k :: 0 <= k < |Categories| ==> ValidDraws(|Categories[k].1|, rd.pools[k]))
    && ValidDraws(|Categories| * 3, rd.order)
  }

  /** `(pid - 1) % 3` */
  function LatinRow(pid: nat): (r: nat)
    requires pid >= 1
    ensures r < |Latin|
  {
    (pid - 1) % 3
  }

  /** The `t`-th task before the session shuffle: category `t / 3`, its
      `t % 3`-th shuffled pool entry, under the row's `t % 3`-th
      condition. */
  function DraftAt(ls: seq<Condition>, rd: Draws, t: nat): Task
    requires |ls| == 3 && ValidParticipantDraws(rd) && t < |Categories| * 3
  {
    var k, i := t / 3, t % 3;
    var (cat, pool) := Categories[k];
    Task(Shuffled(pool, rd.pools[k])[i], cat, ls[i], i + 1, None)
  }

  function Drafts(ls: seq<Condition>, rd: Draws): (r: seq<Task>)
    requires |ls| == 3 && ValidParticipantDraws(rd)
    ensures |r| == |Categories| * 3
  {
    seq(|Categories| * 3, t requires 0 <= t < |Categories| * 3 => DraftAt(ls, rd, t))
  }

  /** `t["session_order"] = j + 1` for every position `j`. */
  function Sessioned(ts: seq<Task>): (r: seq<Task>)
    ensures |r| == |ts|
  {
    seq(|ts|, j requires 0 <= j < |ts| => ts[j].(sessionOrder := Some(j + 1)))
  }

  /** Participant `pid`'s task list. */
  function ParticipantTasks(pid: nat, rd: Draws): seq<Task>
    requires pid >= 1 && ValidParticipantDraws(rd)
  {
    Sessioned(Shuffled(Drafts(Latin[LatinRow(pid)], rd), rd.order))
  }

  function Assigned(pid: nat, rd: Draws): Participant
    requires pid >= 1 && ValidParticipantDraws(rd)
  {
    Participant(pid, LatinRow(pid), ParticipantTasks(pid, rd))
  }

  /** The `CATEGORIES` loop: three tasks per category, from its shuffled
      pool, under the row's conditions in order. */
  method DrawDrafts(ls: seq<Condition>, rd: Draws) returns (drafts: seq<Task>)
    requires |ls| == 3 && ValidParticipantDraws(rd)
    ensures drafts == Drafts(ls, rd)
  {
    drafts := [];
    for k := 0 to |Categories|
      invariant |drafts| == 3 * k
      invariant forall t :: 0 <= t < 3 * k ==> drafts[t] == DraftAt(ls, rd, t)
    {
      var (cat, pool) := Categories[k];
      var shuf := Permutation(pool, rd.pools[k]);
      for i := 0 to |ls|
        invariant |drafts| == 3 * k + i
        invariant forall t :: 0 <= t < 3 * k + i ==> drafts[t] == DraftAt(ls, rd, t)
      {
        assert (3 * k + i) / 3 == k && (3 * k + i) % 3 == i;
        drafts := drafts + [Task(shuf[i], cat, ls[i], i + 1, None)];
      }
    }
    assert drafts == Drafts(ls, rd);
  }

  /** The body of the `pid` loop: draws one participant's task list,
      shuffles it and numbers its entries in session order. */
  method AssignTasks(pid: nat, rd: Draws) returns (tasks: seq<Task>)
    requires pid >= 1 && ValidParticipantDraws(rd)
    ensures tasks == ParticipantTasks(pid, rd)
  {
    var drafts := DrawDrafts(Latin[(pid - 1) % 3], rd);
    var a := new Task[|drafts|](t requires 0 <= t < |drafts| => drafts[t]);
    assert a[..] == drafts;
    Shuffle(a, rd.order);
    ghost var shuffled := a[..];
    for j := 0 to a.Length
      invariant forall m :: 0 <= m < j ==> a[m] == shuffled[m].(sessionOrder := Some(m + 1))
      invariant forall m :: j <= m < a.Length ==> a[m] == shuffled[m]
    {
      a[j] := a[j].(sessionOrder := Some(j + 1));
    }
    tasks := a[..];
  }

  /** The keys `"1"`, …, `str(n)`. */
  function PidKeys(n: nat): (r: seq<string>)
    ensures |r| == n
  {
    seq(n, i requires 0 <= i < n => NatToString(i + 1))
  }

  /** The next participant's key is new. */
  lemma PidKeysGrow(n: nat)
    ensures PidKeys(n + 1) == PidKeys(n) + [NatToString(n + 1)]
    ensures NatToString(n + 1) !in PidKeys(n)
  {
    if NatToString(n + 1) in PidKeys(n) {
      var i :| 0 <= i < n && PidKeys(n)[i] == NatToString(n + 1);
      NatToStringInjective(i + 1, n + 1);
    }
  }

  /** `generate(n)`: participants `1..n`, keyed by their number as a
      string, in order. */
  method Generate(n: nat, rng: seq<Draws>) returns (out: OrderedMap<string, Participant>)
    requires |rng| == n && forall p :: 0 <= p < n ==> ValidParticipantDraws(rng[p])
    ensures out.Valid()
    ensures out.keys == PidKeys(n)
    ensures forall i :: 0 <= i < n ==> out.keys[i] in out.entries && out.entries[out.keys[i]] == Assigned(i + 1, rng[i])
  {
    out := EmptyOrderedMap();
    for pid := 1 to n + 1
      invariant out.Valid()
      invariant out.keys == PidKeys(pid - 1)
      invariant forall i :: 0 <= i < pid - 1 ==> out.keys[i] in out.entries && out.entries[out.keys[i]] == Assigned(i + 1, rng[i])
    {
      var tasks := AssignTasks(pid, rng[pid - 1]);
      var key := NatToString(pid);
      PidKeysGrow(pid - 1);
      ghost var prev := out;
      out := out.Put(key, Participant(pid, (pid - 1) % 3, tasks));
      forall i | 0 <= i < pid - 1 ensures out.keys[i] in out.entries && out.entries[out.keys[i]] == Assigned(i + 1, rng[i]) {
        assert out.keys[i] == prev.keys[i] && prev.keys[i] in prev.entries;
      }
    }
  }

  // ---------------------------------------------------------------------
  // Properties of the design
  // ---------------------------------------------------------------------

  /** `LATIN` is a Latin square: no condition repeats in a row or in a
      column. */
  lemma LatinSquare()
    ensures |Latin| == 3 && forall r :: 0 <= r < 3 ==> |Latin[r]| == 3
    ensures forall r, i, j :: 0 <= r < 3 && 0 <= i < j < 3 ==> Latin[r][i] != Latin[r][j]
    ensures forall c, r1, r2 :: 0 <= c < 3 && 0 <= r1 < r2 < 3 ==> Latin[r1][c] != Latin[r2][c]
  {
  }

  /** Every row holds each condition exactly once. */
  lemma LatinRowCounts(r: nat, c: Condition)
    requires r < |Latin|
    ensures multiset(Latin[r])[c] == 1
  {
    assert r == 0 || r == 1 || r == 2;
  }

  /** Three consecutive participants use the three rows, and the rows
      repeat every three participants. */
  lemma LatinRotation(pid: nat)
    requires pid >= 1
    ensures LatinRow(pid + 3) == LatinRow(pid)
    ensures {LatinRow(pid), LatinRow(pid + 1), LatinRow(pid + 2)} == {0, 1, 2}
  {
  }

  /** Each pool holds six different ids, all starting with the category's
      name, and the category names differ. */
  lemma PoolShape(k: nat)
    requires k < |Categories|
    ensures |Categories[k].1| == 6 && Distinct(Categories[k].1)
    ensures forall x :: x in Categories[k].1 ==> |x| == 3 && x[0] == Categories[k].0[0]
  {
    var pool := Categories[k].1;
    forall i, j | 0 <= i < j < 6 ensures pool[i] != pool[j] {
      assert pool[i][2] != pool[j][2];
    }
  }

  lemma CategoryNames()
    ensures forall k, m :: 0 <= k < m < |Categories| ==> Categories[k].0 != Categories[m].0
  {
  }

  /** Within one category, the three tasks are different ids from that
      category's pool. */
  lemma CategoryTasks(ls: seq<Condition>, rd: Draws, k: nat)
    requires |ls| == 3 && ValidParticipantDraws(rd) && k < |Categories|
    ensures forall t :: 3 * k <= t < 3 * k + 3 ==> Drafts(ls, rd)[t].category == Categories[k].0
    ensures forall t :: 3 * k <= t < 3 * k + 3 ==> Drafts(ls, rd)[t].taskId in Categories[k].1
    ensures forall t1, t2 :: 3 * k <= t1 < t2 < 3 * k + 3 ==> Drafts(ls, rd)[t1].taskId != Drafts(ls, rd)[t2].taskId
  {
    var pool := Categories[k].1;
    var shuf := Shuffled(pool, rd.pools[k]);
    var d := Drafts(ls, rd);
    PoolShape(k);
    ShuffledDistinct(pool, rd.pools[k]);
    forall t | 3 * k <= t < 3 * k + 3
      ensures d[t].category == Categories[k].0 && d[t].taskId == shuf[t - 3 * k]
    {
      assert t / 3 == k && t % 3 == t - 3 * k;
    }
  }

  /** A shuffle of distinct items is distinct and draws from its input. */
  lemma ShuffledDistinct<T>(s: seq<T>, draws: seq<nat>)
    requires ValidDraws(|s|, draws) && Distinct(s)
    ensures Distinct(Shuffled(s, draws))
    ensures forall i :: 0 <= i < |s| ==> Shuffled(s, draws)[i] in s
  {
    var r := Shuffled(s, draws);
    ShuffledPermutation(s, draws);
    DistinctPermutation(s, r);
    forall i | 0 <= i < |s| ensures r[i] in s {
      assert r[i] in multiset(r);
    }
  }

  /** The session orders are `1, …, 9` in list order. */
  lemma SessionOrders(pid: nat, rd: Draws)
    requires pid >= 1 && ValidParticipantDraws(rd)
    ensures |ParticipantTasks(pid, rd)| == 9
    ensures forall j :: 0 <= j < 9 ==> ParticipantTasks(pid, rd)[j].sessionOrder == Some(j + 1)
  {
    ShuffledPermutation(Drafts(Latin[LatinRow(pid)], rd), rd.order);
  }

  /** Any property of a task that does not look at its session order is,
      over the nine final tasks, the same multiset as over the nine drafts. */
  lemma {:induction false} ProjectionPermutation<U>(f: Task -> U, pid: nat, rd: Draws)
    requires pid >= 1 && ValidParticipantDraws(rd)
    requires forall t: Task, o: Option<nat> :: f(t.(sessionOrder := o)) == f(t)
    ensures multiset(MapSeq(f, ParticipantTasks(pid, rd))) == multiset(MapSeq(f, Drafts(Latin[LatinRow(pid)], rd)))
  {
    var d := Drafts(Latin[LatinRow(pid)], rd);
    var s := Shuffled(d, rd.order);
    assert MapSeq(f, Sessioned(s)) == MapSeq(f, s);
    ShuffleStepsMap(f, d, rd.order, |rd.order|);
    ShuffledPermutation(MapSeq(f, d), rd.order);
  }

  function Unsession(t: Task): Task
  {
    t.(sessionOrder := None)
  }

  /** The final tasks are the drafts, each exactly once, in shuffled
      order. */
  lemma EachDraftOnce(pid: nat, rd: Draws, t: nat)
    requires pid >= 1 && ValidParticipantDraws(rd) && t < 9
    ensures multiset(MapSeq(Unsession, ParticipantTasks(pid, rd)))[Drafts(Latin[LatinRow(pid)], rd)[t]] == 1
  {
    var d := Drafts(Latin[LatinRow(pid)], rd);
    ProjectionPermutation(Unsession, pid, rd);
    assert MapSeq(Unsession, d) == d;
    DraftsDistinct(Latin[LatinRow(pid)], rd);
    DistinctCount(d, d[t]);
  }

  /** No two drafts are equal: they differ in category or in condition
      order. */
  lemma DraftsDistinct(ls: seq<Condition>, rd: Draws)
    requires |ls| == 3 && ValidParticipantDraws(rd)
    ensures Distinct(Drafts(ls, rd))
  {
    var d := Drafts(ls, rd);
    forall t1, t2 | 0 <= t1 < t2 < 9 ensures d[t1] != d[t2] {
      CategoryNames();
      if t1 / 3 == t2 / 3 {
        assert d[t1].conditionOrder != d[t2].conditionOrder;
      } else {
        assert d[t1].category != d[t2].category;
      }
    }
  }

  function ConditionOf(t: Task): Condition
  {
    t.condition
  }

  /** The drafts take the row's conditions once per category. */
  lemma DraftConditions(ls: seq<Condition>, rd: Draws)
    requires |ls| == 3 && ValidParticipantDraws(rd)
    ensures MapSeq(ConditionOf, Drafts(ls, rd)) == ls + ls + ls
  {
    var d := Drafts(ls, rd);
    forall t | 0 <= t < 9 ensures MapSeq(ConditionOf, d)[t] == (ls + ls + ls)[t] {
      assert MapSeq(ConditionOf, d)[t] == ConditionOf(d[t]) && d[t] == DraftAt(ls, rd, t);
      assert (ls + ls + ls)[t] == ls[t % 3];
    }
  }

  /** Every participant gets each condition exactly three times. */
  lemma ConditionCounts(pid: nat, rd: Draws, c: Condition)
    requires pid >= 1 && ValidParticipantDraws(rd)
    ensures multiset(MapSeq(ConditionOf, ParticipantTasks(pid, rd)))[c] == 3
  {
    var ls := Latin[LatinRow(pid)];
    var d := Drafts(ls, rd);
    ProjectionPermutation(ConditionOf, pid, rd);
    DraftConditions(ls, rd);
    LatinRowCounts(LatinRow(pid), c);
  }

  /** The (category, condition) pair of a task. */
  function Slot(t: Task): (string, Condition)
  {
    (t.category, t.condition)
  }

  /** No (category, condition) pair repeats among the drafts. */
  lemma SlotsDistinct(r: nat, rd: Draws)
    requires r < |Latin| && ValidParticipantDraws(rd)
    ensures forall t :: 0 <= t < 9 ==> MapSeq(Slot, Drafts(Latin[r], rd))[t] == (Categories[t / 3].0, Latin[r][t % 3])
    ensures Distinct(MapSeq(Slot, Drafts(Latin[r], rd)))
  {
    var ls := Latin[r];
    var d := Drafts(ls, rd);
    var slots := MapSeq(Slot, d);
    forall t | 0 <= t < 9 ensures slots[t] == (Categories[t / 3].0, ls[t % 3]) {
      assert slots[t] == Slot(d[t]) && d[t] == DraftAt(ls, rd, t);
    }
    forall t1, t2 | 0 <= t1 < t2 < 9 ensures slots[t1] != slots[t2] {
      if t1 / 3 == t2 / 3 {
        assert t1 % 3 < t2 % 3;
        LatinSquare();
      } else {
        CategoryNames();
      }
    }
  }

  /** Every category is paired with every condition exactly once. */
  lemma SlotsOnce(pid: nat, rd: Draws, k: nat, c: Condition)
    requires pid >= 1 && ValidParticipantDraws(rd) && k < |Categories|
    ensures multiset(MapSeq(Slot, ParticipantTasks(pid, rd)))[(Categories[k].0, c)] == 1
  {
    var ls := Latin[LatinRow(pid)];
    var d := Drafts(ls, rd);
    var slots := MapSeq(Slot, d);
    ProjectionPermutation(Slot, pid, rd);
    SlotsDistinct(LatinRow(pid), rd);
    LatinRowCounts(LatinRow(pid), c);
    assert c in multiset(ls);
    var i :| 0 <= i < 3 && ls[i] == c;
    var t := 3 * k + i;
    assert t / 3 == k && t % 3 == i;
    DistinctOnce(slots, t);
  }
}
