/** The dispatch queue: a plain first-in-first-out buffer of events. */
module EventQueues {
  import opened Events

  class EventQueue {
    /** The events waiting, oldest first (the deque `_q`). */
    var items: seq<Event>
    /** Every event ever put, and every event ever taken, in order. */
    ghost var putLog: seq<Event>
    ghost var takenLog: seq<Event>

    /** What has been taken, followed by what still waits, is what was put. */
    ghost predicate Valid()
      reads this
    {
      putLog == takenLog + items
    }

    constructor ()
      ensures Valid()
      ensures items == [] && putLog == [] && takenLog == []
    {
      items := [];
      putLog := [];
      takenLog := [];
    }

    method Put(e: Event)
      requires Valid()
      modifies this
      ensures Valid()
      ensures items == old(items) + [e]
      ensures putLog == old(putLog) + [e] && takenLog == old(takenLog)
    {
      items := items + [e];
      putLog := putLog + [e];
    }

    /** `popleft`: taking from an empty queue raises, so callers must not. */
    method Get() returns (e: Event)
      requires Valid()
      requires |items| > 0
      modifies this
      ensures Valid()
      ensures e == old(items)[0] && items == old(items)[1..]
      ensures takenLog == old(takenLog) + [e] && putLog == old(putLog)
    {
      e := items[0];
      items := items[1..];
      takenLog := takenLog + [e];
    }

    function Empty(): (b: bool)
      reads this
      ensures b <==> |items| == 0
    {
      |items| == 0
    }

    function Len(): (n: nat)
      reads this
      ensures n == |items|
    {
      |items|
    }
  }

  /** Once a queue is empty, the events taken out are exactly the events
      put in, in the same order. */
  lemma DrainedInOrder(putLog: seq<Event>, takenLog: seq<Event>, items: seq<Event>)
    requires putLog == takenLog + items
    requires items == []
    ensures takenLog == putLog
  {
  }

  /** Taking returns the oldest event that has not been taken yet. */
  lemma {:induction false} TakesOldestFirst(putLog: seq<Event>, takenLog: seq<Event>, items: seq<Event>)
    requires putLog == takenLog + items
    requires |items| > 0
    ensures items[0] == putLog[|takenLog|]
    ensures takenLog + [items[0]] == putLog[..|takenLog| + 1]
  {
    assert putLog[|takenLog|] == (takenLog + items)[|takenLog|];
  }

  /** A small client: two puts come out in the order they went in. */
  method FifoExample(a: Event, b: Event)
  {
    var q := new EventQueue();
    q.Put(a);
    q.Put(b);
    var x := q.Get();
    var y := q.Get();
    assert x == a && y == b && q.Empty();
  }
}
