/**
  Whole histories of one priority queue (`src/lib/include/queue.h`): whatever is added,
  taken out and deleted, elements of equal priority leave in the order they came, and
  none is lost or duplicated.
  */
module QueueHistory {
  import opened PriorityOrder

  /** A queued element with the time it was added. */
  datatype Entry = Entry(prio: int, stamp: nat)

  function Prios(q: seq<Entry>): (ps: seq<int>)
    ensures |ps| == |q| && forall i :: 0 <= i < |q| ==> ps[i] == q[i].prio
  {
    seq(|q|, i requires 0 <= i < |q| => q[i].prio)
  }

  /** `a` leaves the queue before `b`: higher priority, or equal and added earlier. */
  predicate Before(a: Entry, b: Entry) {
    a.prio > b.prio || (a.prio == b.prio && a.stamp < b.stamp)
  }

  datatype Op = Add(prio: int) | Out | Del(index: nat)

  datatype History = History(queue: seq<Entry>, clock: nat, removed: seq<Entry>)

  /** One queue operation; `Out` and `Del` without a target leave the queue alone. */
  function Step(h: History, op: Op): History {
    match op
    case Add(p) =>
      h.(queue := InsertAt(h.queue, Rank(Prios(h.queue), p), Entry(p, h.clock)), clock := h.clock + 1)
    case Out =>
      if h.queue == [] then h
      else h.(queue := h.queue[..|h.queue| - 1], removed := h.removed + [h.queue[|h.queue| - 1]])
    case Del(k) =>
      if k >= |h.queue| then h
      else h.(queue := RemoveAt(h.queue, k), removed := h.removed + [h.queue[k]])
  }

  function Run(ops: seq<Op>): History {
    if ops == [] then History([], 0, []) else Step(Run(ops[..|ops| - 1]), ops[|ops| - 1])
  }

  ghost predicate Ordered(h: History) {
    && (forall i :: 0 <= i < |h.queue| ==> h.queue[i].stamp < h.clock)
    && (forall i, j :: 0 <= i < j < |h.queue| ==> Before(h.queue[j], h.queue[i]))
  }

  lemma AddOrdered(q: seq<Entry>, e: Entry)
    requires forall i :: 0 <= i < |q| ==> q[i].stamp < e.stamp
    requires forall i, j :: 0 <= i < j < |q| ==> Before(q[j], q[i])
    ensures var r := InsertAt(q, Rank(Prios(q), e.prio), e);
            forall i, j :: 0 <= i < j < |r| ==> Before(r[j], r[i])
  {
    var k := Rank(Prios(q), e.prio);
    var r := InsertAt(q, k, e);
    forall i, j | 0 <= i < j < |r| ensures Before(r[j], r[i]) {
      if i == k {
        assert r[j] == q[j - 1];
        assert j - 1 == k || Before(q[j - 1], q[k]);
      }
    }
  }

  lemma DropOrdered(q: seq<Entry>, k: nat)
    requires k < |q| && forall i, j :: 0 <= i < j < |q| ==> Before(q[j], q[i])
    ensures var r := RemoveAt(q, k); forall i, j :: 0 <= i < j < |r| ==> Before(r[j], r[i])
  {}

  lemma StepOrdered(h: History, op: Op)
    requires Ordered(h)
    ensures Ordered(Step(h, op))
  {
    match op {
      case Add(p) => AddOrdered(h.queue, Entry(p, h.clock));
      case Out =>
      case Del(k) => if k < |h.queue| { DropOrdered(h.queue, k); }
    }
  }

  lemma {:induction false} RunOrdered(ops: seq<Op>)
    ensures Ordered(Run(ops))
  {
    if ops != [] {
      RunOrdered(ops[..|ops| - 1]);
      StepOrdered(Run(ops[..|ops| - 1]), ops[|ops| - 1]);
    }
  }

  /** After any history, taking an element out yields the one of highest priority
      and, among those, the one added first; every other element stays. */
  lemma OutIsOldestOfHighest(ops: seq<Op>, i: nat)
    requires i + 1 < |Run(ops).queue|
    ensures var h, h' := Run(ops), Run(ops + [Out]);
            && h'.queue == h.queue[..|h.queue| - 1]
            && h'.removed == h.removed + [h.queue[|h.queue| - 1]]
            && Before(h'.removed[|h.removed|], h'.queue[i])
  {
    RunOrdered(ops);
    assert (ops + [Out])[..|ops|] == ops;
  }

  lemma StepConserves(h: History, op: Op)
    ensures multiset(Step(h, op).queue) + multiset(Step(h, op).removed) ==
            multiset(h.queue) + multiset(h.removed) +
            (if op.Add? then multiset{Entry(op.prio, h.clock)} else multiset{})
  {
    match op {
      case Add(p) =>
        InsertElements(h.queue, Rank(Prios(h.queue), p), Entry(p, h.clock));
      case Out =>
        if h.queue != [] {
          RemoveElements(h.queue, |h.queue| - 1);
          assert RemoveAt(h.queue, |h.queue| - 1) == h.queue[..|h.queue| - 1];
        }
      case Del(k) =>
        if k < |h.queue| { RemoveElements(h.queue, k); }
    }
  }

  /** Nothing is lost or duplicated: over any history, what was added is what is
      still queued plus what was removed. */
  lemma {:induction false} RunConserves(ops: seq<Op>)
    ensures multiset(Run(ops).queue) + multiset(Run(ops).removed) == AllAdded(ops)
  {
    if ops != [] {
      var rest, op := ops[..|ops| - 1], ops[|ops| - 1];
      RunConserves(rest);
      StepConserves(Run(rest), op);
      assert Run(rest).clock == CountAdds(rest);
    }
  }

  /** Every element ever added, with the stamp of its addition. */
  ghost function AllAdded(ops: seq<Op>): multiset<Entry> {
    if ops == [] then multiset{}
    else
      var rest := ops[..|ops| - 1];
      match ops[|ops| - 1]
      case Add(p) => AllAdded(rest) + multiset{Entry(p, CountAdds(rest))}
      case Out => AllAdded(rest)
      case Del(_) => AllAdded(rest)
  }

  function CountAdds(ops: seq<Op>): (n: nat)
    ensures n == Run(ops).clock
  {
    if ops == [] then 0 else CountAdds(ops[..|ops| - 1]) + (if ops[|ops| - 1].Add? then 1 else 0)
  }
}
