/**
  Safety and progress of the dining philosophers, over every run.
  */
module PhilosopherTheorems {
  import opened Common
  import opened PriorityOrder
  import opened KernelState
  import opened Philosophers

  // ----- what one philosopher's move leaves alone -----

  /** p and q stand in the same relation to the forks and to the neighbours. */
  predicate Similar(p: Phil, q: Phil) {
    && (HoldsLeft(p) <==> HoldsLeft(q)) && (HoldsRight(p) <==> HoldsRight(q))
    && (p.blocked <==> q.blocked)
    && (p.pc.PutLeftSignal? <==> q.pc.PutLeftSignal?) && (p.pc.PutRightSignal? <==> q.pc.PutRightSignal?)
  }

  ghost predicate ForksSide(t: Table) {
    Shape(t) && PhilsOk(t.ph) && ForksOk(t) && BlockedOk(t)
  }

  lemma SimilarKeeps(t: Table, i: nat, p: Phil)
    requires ForksSide(t) && i < |t.ph| && Similar(t.ph[i], p) && PhilOk(p, i, Promised(t.ph, i))
    ensures ForksSide(SetPhil(t, i, p))
  {
    hide PhilOk, HoldsLeft, HoldsRight;
    var t' := SetPhil(t, i, p);
    forall j: nat | j < |t.ph| ensures PhilAt(t'.ph, j) && ForkAt(t', j) && BlockedAt(t', j) {
      assert PhilAt(t.ph, j) && ForkAt(t, j) && BlockedAt(t, j);
    }
  }

  lemma MutexFrame(ph: seq<Phil>, ph': seq<Phil>, m: Sem)
    requires MutexOk(ph, m) && |ph'| == |ph|
    requires forall j :: 0 <= j < |ph| ==> InSection(ph'[j].pc) == InSection(ph[j].pc)
    requires forall j :: 0 <= j < |ph| && WaitsMutex(ph[j].pc) ==> WaitsMutex(ph'[j].pc)
    ensures MutexOk(ph', m)
  {
    hide InSection, WaitsMutex;
    if i :| 0 <= i < |ph| && InSection(ph[i].pc) { assert InSection(ph'[i].pc); }
    if i :| 0 <= i < |ph| && InSection(ph'[i].pc) { assert InSection(ph[i].pc); }
  }

  /** Moving past an operation on the mutex concerns nothing else. */
  lemma PastMutex(t: Table, i: nat)
    requires ForksSide(t) && i < |t.ph| && (WaitsMutex(t.ph[i].pc) || LeavesMutex(t.ph[i].pc))
    ensures Similar(t.ph[i], Past(t.ph[i])) && PhilOk(Past(t.ph[i]), i, Promised(t.ph, i))
    ensures InSection(Past(t.ph[i]).pc) <==> WaitsMutex(t.ph[i].pc)
    ensures ForksSide(SetPhil(t, i, Past(t.ph[i])))
  {
    hide Promised;
    assert PhilAt(t.ph, i);
    SimilarKeeps(t, i, Past(t.ph[i]));
  }

  // ----- the mutex -----

  /** Distinct indices below n that avoid two of them leave room for two. */
  lemma FewWaiters(w: seq<int>, n: nat, i: nat, j: nat)
    requires Distinct(w) && i < n && j < n && i != j
    requires forall k :: 0 <= k < |w| ==> 0 <= w[k] < n && w[k] != i && w[k] != j
    ensures |w| + 2 <= n
  {
    var v := w + [i] + [j];
    assert Distinct(v);
    DistinctFit(v, n);
  }

  lemma {:induction false} DistinctFit(w: seq<int>, n: nat)
    requires Distinct(w) && forall k :: 0 <= k < |w| ==> 0 <= w[k] < n
    ensures |w| <= n
    decreases n
  {
    if n - 1 in w {
      var r :| 0 <= r < |w| && w[r] == n - 1;
      assert n > 0;
      DistinctFit(RemoveAt(w, r), n - 1);
    } else if w != [] {
      assert 0 <= w[0] < n;
      DistinctFit(w, n - 1);
    }
  }

  lemma NotBoth(pc: Pc)
    ensures !(InSection(pc) && WaitsMutex(pc))
  {}

  /** The mutex never runs out of count: `xwait` blocks or passes. */
  lemma MutexCount(t: Table, i: nat)
    requires Inv(t) && CanStep(t, i) && WaitsMutex(t.ph[i].pc)
    ensures t.mutex.count > MIN_COUNT
    ensures t.mutex.count == 1 <==> !SomeoneInside(t.ph)
    ensures t.mutex.count <= 1
  {
    hide PhilsOk, ForksOk, BlockedOk, InSection, WaitsMutex;
    NotBoth(t.ph[i].pc);
    if SomeoneInside(t.ph) {
      var j :| 0 <= j < |t.ph| && InSection(t.ph[j].pc);
      forall k | 0 <= k < |t.mutex.waiters| ensures t.mutex.waiters[k] != i && t.mutex.waiters[k] != j {
        NotBoth(t.ph[t.mutex.waiters[k]].pc);
      }
      FewWaiters(t.mutex.waiters, |t.ph|, i, j);
    }
  }

  lemma EnterMutex(ph: seq<Phil>, m: Sem, i: nat, p: Phil)
    requires MutexOk(ph, m) && !SomeoneInside(ph) && i < |ph| && InSection(p.pc)
    ensures m == Sem(1, []) && MutexOk(ph[i := p], Sem(0, []))
  {
    hide InSection, WaitsMutex;
    var ph' := ph[i := p];
    assert InSection(ph'[i].pc);
  }

  lemma QueueMutex(ph: seq<Phil>, m: Sem, i: nat, at: nat)
    requires MutexOk(ph, m) && SomeoneInside(ph) && i < |ph| && WaitsMutex(ph[i].pc)
    requires i !in m.waiters && at <= |m.waiters|
    ensures MutexOk(ph, Sem(m.count - 1, InsertAt(m.waiters, at, i)))
  {
    hide InSection, WaitsMutex;
  }

  lemma LeaveMutex(ph: seq<Phil>, m: Sem, i: nat, p: Phil)
    requires MutexOk(ph, m) && i < |ph| && InSection(ph[i].pc) && !InSection(p.pc) && !WaitsMutex(ph[i].pc)
    requires m.waiters == []
    ensures m.count == 0 && MutexOk(ph[i := p], Sem(1, []))
  {
    hide InSection, WaitsMutex;
    assert SomeoneInside(ph);
    var ph' := ph[i := p];
    assert !SomeoneInside(ph');
  }

  lemma PassMutex(ph: seq<Phil>, m: Sem, i: nat, p: Phil, q: Phil)
    requires MutexOk(ph, m) && i < |ph| && InSection(ph[i].pc) && !InSection(p.pc) && !WaitsMutex(ph[i].pc)
    requires m.waiters != [] && InSection(q.pc)
    ensures var w := m.waiters[0];
            && 0 <= w < |ph| && w != i && m.count + 1 <= 0
            && MutexOk(ph[i := p][w := q], Sem(m.count + 1, m.waiters[1..]))
  {
    hide InSection, WaitsMutex;
    assert SomeoneInside(ph);
    var w := m.waiters[0];
    var ph' := ph[i := p][w := q];
    assert InSection(ph'[w].pc);
    assert SomeoneInside(ph');
    forall k | 0 <= k < |m.waiters[1..]|
      ensures 0 <= m.waiters[1..][k] < |ph'| && WaitsMutex(ph'[m.waiters[1..][k]].pc)
    {
      assert m.waiters[1..][k] == m.waiters[k + 1];
    }
  }

  lemma WaitMutexKeeps(t: Table, i: nat, at: nat)
    requires Inv(t) && CanStep(t, i) && WaitsMutex(t.ph[i].pc)
    ensures Inv(WaitMutex(t, i, at))
  {
    hide PhilsOk, ForksOk, BlockedOk, MutexOk, InSection, WaitsMutex, Past;
    MutexCount(t, i);
    if t.mutex.count == 1 {
      PastMutex(t, i);
      EnterMutex(t.ph, t.mutex, i, Past(t.ph[i]));
      SetMutex(SetPhil(t, i, Past(t.ph[i])), Sem(0, []));
    } else {
      QueueMutex(t.ph, t.mutex, i, if at <= |t.mutex.waiters| then at else |t.mutex.waiters|);
      SetMutex(t, Waited(t.mutex, i, at).0);
      assert t.ph[i := t.ph[i]] == t.ph;
    }
  }

  lemma SetMutex(t: Table, m: Sem)
    requires ForksSide(t)
    ensures ForksSide(t.(mutex := m))
  {
    var t' := t.(mutex := m);
    forall j: nat | j < |t.ph| ensures PhilAt(t'.ph, j) && ForkAt(t', j) && BlockedAt(t', j) {
      assert PhilAt(t.ph, j) && ForkAt(t, j) && BlockedAt(t, j);
    }
  }

  lemma SignalMutexKeeps(t: Table, i: nat)
    requires Inv(t) && CanStep(t, i) && LeavesMutex(t.ph[i].pc)
    ensures Inv(SignalMutex(t, i))
  {
    hide PhilsOk, ForksOk, BlockedOk, MutexOk, Past;
    PastMutex(t, i);
    var t1 := SetPhil(t, i, Past(t.ph[i]));
    if t.mutex.waiters == [] {
      LeaveMutex(t.ph, t.mutex, i, t1.ph[i]);
      SetMutex(t1, Sem(1, []));
    } else {
      MutexWaiter(t, i);
      var w := t.mutex.waiters[0];
      PastMutex(t1, w);
      PassMutex(t.ph, t.mutex, i, t1.ph[i], Past(t1.ph[w]));
      SetMutex(SetPhil(t1, w, Past(t1.ph[w])), Sem(t.mutex.count + 1, t.mutex.waiters[1..]));
    }
  }

  lemma MutexWaiter(t: Table, i: nat)
    requires Inv(t) && i < |t.ph| && LeavesMutex(t.ph[i].pc) && t.mutex.waiters != []
    ensures var w := t.mutex.waiters[0]; 0 <= w < |t.ph| && w != i && WaitsMutex(t.ph[w].pc)
  {}

  // ----- the forks -----

  lemma TakeForksKeeps(t: Table, i: nat)
    requires Inv(t) && i < |t.ph| && t.ph[i].pc.TakeTest?
    ensures Inv(TakeForks(t, i))
  {
    hide MutexOk;
    var t' := TakeForks(t, i);
    MutexFrame(t.ph, t'.ph, t.mutex);
    forall j: nat | j < |t.ph| ensures PhilAt(t'.ph, j) && ForkAt(t', j) && BlockedAt(t', j) {
      assert PhilAt(t.ph, j) && ForkAt(t, j) && BlockedAt(t, j);
    }
  }

  lemma SelfSignalKeeps(t: Table, i: nat)
    requires Inv(t) && i < |t.ph| && t.ph[i].pc.TakeSignal?
    ensures Inv(SignalOwn(t, i, i))
  {
    hide ForksOk, BlockedOk, MutexOk;
    assert PhilAt(t.ph, i);
    var t' := SignalOwn(t, i, i);
    assert t'.ph == t.ph[i := t.ph[i].(pc := TakeEnd, own := Sem(1, []))];
    SimilarKeeps(t, i, t'.ph[i]);
    MutexFrame(t.ph, t'.ph, t.mutex);
  }

  lemma WaitOwnKeeps(t: Table, i: nat, at: nat)
    requires Inv(t) && CanStep(t, i) && t.ph[i].pc.ForkWait?
    ensures Inv(WaitOwn(t, i, at))
  {
    hide ForksOk, BlockedOk, MutexOk;
    assert PhilAt(t.ph, i);
    var t' := WaitOwn(t, i, at);
    assert InsertAt([], 0, i as int) == [i as int];
    SimilarKeeps(t, i, t'.ph[i]);
    MutexFrame(t.ph, t'.ph, t.mutex);
  }

  /** Handing the left fork over, or putting it down. */
  lemma PutLeftKeeps(t: Table, i: nat)
    requires Inv(t) && i < |t.ph| && t.ph[i].pc.PutLeft?
    ensures Inv(PutLeftFork(t, i))
  {
    hide MutexOk, PhilsOk, ForksOk, BlockedOk, PhilAt, ForkAt, BlockedAt;
    var t' := PutLeftFork(t, i);
    var l := Left(i, |t.ph|);
    PhilKnown(t, l);
    OthersOutside(t, i, l);
    MutexFrame(t.ph, t'.ph, t.mutex);
    forall j: nat | j < |t.ph| ensures PhilAt(t'.ph, j) && ForkAt(t', j) && BlockedAt(t', j) {
      PhilKnown(t, j);
      PutLeftPhil(t, i, j);
      PutLeftForks(t, i, j);
      PutLeftBlocked(t, i, j);
    }
    Gather(t');
  }

  /** The same on the other side. */
  lemma PutRightKeeps(t: Table, i: nat)
    requires Inv(t) && i < |t.ph| && t.ph[i].pc.PutRight?
    ensures Inv(PutRightFork(t, i))
  {
    hide MutexOk, PhilsOk, ForksOk, BlockedOk, PhilAt, ForkAt, BlockedAt;
    var t' := PutRightFork(t, i);
    var r := Right(i, |t.ph|);
    PhilKnown(t, r);
    OthersOutside(t, i, r);
    MutexFrame(t.ph, t'.ph, t.mutex);
    forall j: nat | j < |t.ph| ensures PhilAt(t'.ph, j) && ForkAt(t', j) && BlockedAt(t', j) {
      PhilKnown(t, j);
      PutRightPhil(t, i, j);
      PutRightForks(t, i, j);
      PutRightBlocked(t, i, j);
    }
    Gather(t');
  }

  lemma OthersOutside(t: Table, i: nat, j: nat)
    requires Inv(t) && i < |t.ph| && j < |t.ph| && InSection(t.ph[i].pc) && j != i
    ensures !InSection(t.ph[j].pc)
  {}

  lemma PhilKnown(t: Table, j: nat)
    requires Inv(t) && j < |t.ph|
    ensures PhilAt(t.ph, j) && ForkAt(t, j) && BlockedAt(t, j)
  {}

  lemma Gather(t: Table)
    requires Shape(t) && forall j: nat :: j < |t.ph| ==> PhilAt(t.ph, j) && ForkAt(t, j) && BlockedAt(t, j)
    ensures ForksSide(t)
  {}

  // One lemma per clause: what the puts do to a fork, a blocked philosopher, a semaphore.

  predicate LeftContext(t: Table, i: nat, j: nat) {
    && Shape(t) && i < |t.ph| && j < |t.ph| && t.ph[i].pc.PutLeft?
    && (var l := Left(i, |t.ph|); PhilAt(t.ph, l) && !InSection(t.ph[l].pc))
    && PhilAt(t.ph, j) && ForkAt(t, j) && BlockedAt(t, j)
  }

  lemma PutLeftPhil(t: Table, i: nat, j: nat)
    requires LeftContext(t, i, j)
    ensures PhilAt(PutLeftFork(t, i).ph, j)
  {
    hide ForkAt, BlockedAt;
  }

  lemma PutLeftForks(t: Table, i: nat, j: nat)
    requires LeftContext(t, i, j)
    ensures ForkAt(PutLeftFork(t, i), j)
  {}

  lemma PutLeftBlocked(t: Table, i: nat, j: nat)
    requires LeftContext(t, i, j)
    ensures BlockedAt(PutLeftFork(t, i), j)
  {}

  predicate RightContext(t: Table, i: nat, j: nat) {
    && Shape(t) && i < |t.ph| && j < |t.ph| && t.ph[i].pc.PutRight?
    && (var r := Right(i, |t.ph|); PhilAt(t.ph, r) && !InSection(t.ph[r].pc))
    && PhilAt(t.ph, j) && ForkAt(t, j) && BlockedAt(t, j)
  }

  lemma PutRightPhil(t: Table, i: nat, j: nat)
    requires RightContext(t, i, j)
    ensures PhilAt(PutRightFork(t, i).ph, j)
  {
    hide ForkAt, BlockedAt;
  }

  lemma PutRightForks(t: Table, i: nat, j: nat)
    requires RightContext(t, i, j)
    ensures ForkAt(PutRightFork(t, i), j)
  {}

  lemma PutRightBlocked(t: Table, i: nat, j: nat)
    requires RightContext(t, i, j)
    ensures BlockedAt(PutRightFork(t, i), j)
  {}

  // ----- signals to a neighbour -----

  /** i owes j the signal that goes with the forks. */
  predicate Owes(t: Table, i: nat, j: nat)
    requires i < |t.ph|
  {
    || (t.ph[i].pc.PutLeftSignal? && j == Left(i, |t.ph|))
    || (t.ph[i].pc.PutRightSignal? && j == Right(i, |t.ph|))
  }

  /** The signal lets j pass: at once if it already waits, at its `xwait` otherwise. */
  lemma SignalEffect(t: Table, i: nat, j: nat)
    requires Inv(t) && i < |t.ph| && Owes(t, i, j)
    ensures j < |t.ph| && j != i && t.ph[j].pc.ForkWait? && !t.ph[j].blocked
    ensures var p := if t.ph[j].own.waiters == [] then t.ph[j].(own := Sem(1, []))
                     else t.ph[j].(pc := EatWait, own := Sem(0, []));
            SignalOwn(t, i, j) == t.(ph := t.ph[i := Past(t.ph[i])][j := p])
  {
    hide ForksOk, BlockedOk, MutexOk;
    assert PhilAt(t.ph, j);
    var t' := SignalOwn(t, i, j);
    var q := t.ph[j];
    var p := if q.own.waiters == [] then q.(own := Sem(1, [])) else q.(pc := EatWait, own := Sem(0, []));
    assert q.own == Sem(0, []) || q.own == Sem(-1, [j as int]);
    assert t'.ph[j] == p;
    assert t'.ph == t.ph[i := Past(t.ph[i])][j := p];
  }

  lemma SignalKeeps(t: Table, i: nat, j: nat)
    requires Inv(t) && i < |t.ph| && Owes(t, i, j)
    ensures Inv(SignalOwn(t, i, j))
  {
    hide MutexOk, PhilsOk, ForksOk, BlockedOk, PhilAt, ForkAt, BlockedAt, SignalOwn;
    SignalEffect(t, i, j);
    var t' := SignalOwn(t, i, j);
    MutexFrame(t.ph, t'.ph, t.mutex);
    forall k: nat | k < |t.ph| ensures PhilAt(t'.ph, k) && ForkAt(t', k) && BlockedAt(t', k) {
      PhilKnown(t, k);
      OthersOwe(t, i, Left(k, |t.ph|));
      OthersOwe(t, i, Right(k, |t.ph|));
      SignalPhil(t, i, j, t', k);
      SignalForks(t, i, j, t', k);
    }
    Gather(t');
  }

  lemma OthersOwe(t: Table, i: nat, j: nat)
    requires Inv(t) && i < |t.ph| && j < |t.ph| && InSection(t.ph[i].pc)
    ensures j != i ==> !t.ph[j].pc.PutLeftSignal? && !t.ph[j].pc.PutRightSignal?
  {
    if j != i { OthersOutside(t, i, j); }
  }

  predicate SignalContext(t: Table, i: nat, j: nat, t': Table, k: nat) {
    && Shape(t) && i < |t.ph| && j < |t.ph| && k < |t.ph| && Owes(t, i, j)
    && j != i && t.ph[j].pc.ForkWait? && !t.ph[j].blocked
    && PhilAt(t.ph, k) && ForkAt(t, k) && BlockedAt(t, k)
    && var p := if t.ph[j].own.waiters == [] then t.ph[j].(own := Sem(1, []))
                else t.ph[j].(pc := EatWait, own := Sem(0, []));
    t' == t.(ph := t.ph[i := Past(t.ph[i])][j := p])
  }

  lemma SignalPhil(t: Table, i: nat, j: nat, t': Table, k: nat)
    requires SignalContext(t, i, j, t', k)
    requires forall x :: (x == Left(k, |t.ph|) || x == Right(k, |t.ph|)) && x != i ==>
               !t.ph[x].pc.PutLeftSignal? && !t.ph[x].pc.PutRightSignal?
    ensures PhilAt(t'.ph, k)
  {}

  lemma SignalForks(t: Table, i: nat, j: nat, t': Table, k: nat)
    requires SignalContext(t, i, j, t', k)
    ensures ForkAt(t', k) && BlockedAt(t', k)
  {}

  // ----- every step -----

  /** Every step keeps the invariant. */
  lemma StepKeeps(t: Table, i: nat, at: nat)
    requires Inv(t) && CanStep(t, i)
    ensures Inv(Step(t, i, at))
  {
    hide MutexOk, PhilsOk, ForksOk, BlockedOk, SignalOwn, WaitOwn, WaitMutex, SignalMutex, TakeForks, PutLeftFork, PutRightFork;
    var n := |t.ph|;
    var pc := t.ph[i].pc;
    if WaitsMutex(pc) { WaitMutexKeeps(t, i, at); }
    else if LeavesMutex(pc) { SignalMutexKeeps(t, i); }
    else if pc.TakeTest? { TakeForksKeeps(t, i); }
    else if pc.TakeSignal? { SelfSignalKeeps(t, i); }
    else if pc.ForkWait? { WaitOwnKeeps(t, i, at); }
    else if pc.PutLeft? { PutLeftKeeps(t, i); }
    else if pc.PutLeftSignal? { SignalKeeps(t, i, Left(i, n)); }
    else if pc.PutRight? { PutRightKeeps(t, i); }
    else { SignalKeeps(t, i, Right(i, n)); }
  }

  /** The table as `test20.c` lays it satisfies the invariant. */
  lemma LaidInv(n: nat)
    requires 2 <= n <= MAX_PHILO
    ensures Inv(Laid(n))
  {
    var t := Laid(n);
    forall j: nat | j < |t.ph| ensures PhilAt(t.ph, j) && ForkAt(t, j) && BlockedAt(t, j) {
    }
    assert !SomeoneInside(t.ph);
  }

  // ----- runs -----

  /** Philosopher `who` moves; if it has to join waiters, at place `at`. */
  datatype Move = Move(who: nat, at: nat)

  ghost predicate IsRun(ts: seq<Table>, ms: seq<Move>) {
    && |ts| == |ms| + 1
    && 2 <= |ts[0].ph| <= MAX_PHILO && ts[0] == Laid(|ts[0].ph|)
    && forall k :: 0 <= k < |ms| ==>
         Shape(ts[k]) && CanStep(ts[k], ms[k].who) && ts[k + 1] == Step(ts[k], ms[k].who, ms[k].at)
  }

  lemma {:induction false} RunInv(ts: seq<Table>, ms: seq<Move>, k: nat)
    requires IsRun(ts, ms) && k < |ts|
    ensures Inv(ts[k])
  {
    hide Inv;
    if k == 0 {
      LaidInv(|ts[0].ph|);
    } else {
      RunInv(ts, ms, k - 1);
      StepKeeps(ts[k - 1], ms[k - 1].who, ms[k - 1].at);
    }
  }

  /** Over every run: a fork is marked taken exactly if one adjacent philosopher holds it,
      and never do both. */
  lemma ForkTakenByOne(ts: seq<Table>, ms: seq<Move>, k: nat, j: nat)
    requires IsRun(ts, ms) && k < |ts| && j < |ts[k].ph|
    ensures |ts[k].f| == |ts[k].ph|
    ensures var before := ts[k].ph[(j + |ts[k].ph| - 1) % |ts[k].ph|];
            && (ts[k].f[j] <==> HoldsRight(before) || HoldsLeft(ts[k].ph[j]))
            && !(HoldsRight(before) && HoldsLeft(ts[k].ph[j]))
  {
    hide HoldsLeft, HoldsRight;
    RunInv(ts, ms, k);
    PhilKnown(ts[k], j);
    Neighbours(j, |ts[k].ph|);
  }

  /** Over every run, two neighbours are never shown eating together. */
  lemma NeighboursNeverEat(ts: seq<Table>, ms: seq<Move>, k: nat, j: nat)
    requires IsRun(ts, ms) && k < |ts| && j < |ts[k].ph|
    ensures !(ts[k].ph[j].shown == 'm' && ts[k].ph[(j + 1) % |ts[k].ph|].shown == 'm')
  {
    RunInv(ts, ms, k);
    var r := Right(j, |ts[k].ph|);
    PhilKnown(ts[k], j);
    PhilKnown(ts[k], r);
    Neighbours(j, |ts[k].ph|);
  }

  /** Over every run, a philosopher marked as blocked lacks one of its forks, and it is in
      the second half of `prendre_fourchettes`. */
  lemma BlockedLacksFork(ts: seq<Table>, ms: seq<Move>, k: nat, j: nat)
    requires IsRun(ts, ms) && k < |ts| && j < |ts[k].ph| && ts[k].ph[j].blocked
    ensures |ts[k].f| == |ts[k].ph| && !Test(ts[k].f, j)
    ensures ts[k].ph[j].pc.TakeEnd? || ts[k].ph[j].pc.ForkWait?
  {
    RunInv(ts, ms, k);
    PhilKnown(ts[k], j);
  }

  // ----- progress -----

  /** Whoever is in the critical section can go on. */
  lemma InsideMoves(t: Table, i: nat)
    requires Inv(t) && i < |t.ph| && InSection(t.ph[i].pc)
    ensures CanStep(t, i)
  {
    hide ForksOk, BlockedOk;
    PhilKnown(t, i);
  }

  /** With the mutex free, a philosopher that cannot go on is marked as blocked. */
  lemma StuckBlocked(t: Table, i: nat)
    requires Inv(t) && i < |t.ph| && !CanStep(t, i) && !t.ph[i].pc.Done? && !SomeoneInside(t.ph)
    ensures t.ph[i].blocked
  {
    hide ForksOk, BlockedOk;
    PhilKnown(t, i);
    assert !InSection(t.ph[Left(i, |t.ph|)].pc) && !InSection(t.ph[Right(i, |t.ph|)].pc);
  }

  /** With the mutex free, a philosopher that holds a fork can go on. */
  lemma HolderMoves(t: Table, j: nat)
    requires Inv(t) && j < |t.ph| && !SomeoneInside(t.ph) && (HoldsLeft(t.ph[j]) || HoldsRight(t.ph[j]))
    ensures CanStep(t, j)
  {
    hide ForksOk, BlockedOk, MutexOk, PhilsOk, SomeoneInside;
    PhilKnown(t, j);
    if !CanStep(t, j) { StuckBlocked(t, j); }
  }

  lemma ForkHolder(t: Table, j: nat) returns (h: nat)
    requires Inv(t) && j < |t.ph| && t.f[j]
    ensures h < |t.ph| && (HoldsLeft(t.ph[h]) || HoldsRight(t.ph[h]))
  {
    PhilKnown(t, j);
    h := if HoldsLeft(t.ph[j]) then j else Left(j, |t.ph|);
  }

  /** No deadlock: while some philosopher has not finished, some philosopher can move. */
  lemma NoDeadlock(t: Table, i: nat) returns (j: nat)
    requires Inv(t) && i < |t.ph| && !t.ph[i].pc.Done?
    ensures CanStep(t, j)
  {
    hide ForksOk, BlockedOk, MutexOk, PhilsOk, CanStep, HoldsLeft, HoldsRight;
    if CanStep(t, i) {
      j := i;
    } else if SomeoneInside(t.ph) {
      j :| 0 <= j < |t.ph| && InSection(t.ph[j].pc);
      InsideMoves(t, j);
    } else {
      StuckBlocked(t, i);
      PhilKnown(t, i);
      j := ForkHolder(t, if t.f[i] then i else Right(i, |t.ph|));
      HolderMoves(t, j);
    }
  }

  /** Where nobody can move, everybody has finished, and forks and semaphores are as at the start. */
  lemma StuckMeansFinished(t: Table)
    requires Inv(t) && forall i: nat :: !CanStep(t, i)
    ensures forall i: nat :: i < |t.ph| ==> t.ph[i].pc.Done? && t.ph[i].round == ROUNDS && t.ph[i].own == Sem(0, []) && !t.f[i]
    ensures t.mutex == Sem(1, [])
  {
    hide ForksOk, BlockedOk, MutexOk, PhilsOk, CanStep;
    forall i: nat | i < |t.ph| ensures t.ph[i].pc.Done? {
      if !t.ph[i].pc.Done? {
        var j := NoDeadlock(t, i);
      }
    }
    forall i: nat | i < |t.ph| ensures t.ph[i].round == ROUNDS && t.ph[i].own == Sem(0, []) && !t.f[i] {
      PhilKnown(t, i);
    }
    NobodyInside(t);
  }

  lemma NobodyInside(t: Table)
    requires Inv(t) && forall i: nat :: i < |t.ph| ==> t.ph[i].pc.Done?
    ensures t.mutex == Sem(1, [])
  {
    assert !SomeoneInside(t.ph);
  }

  // ----- a bound on every run -----

  /** The place of an operation before the end of its round. */
  function Rank(pc: Pc): nat {
    match pc
    case TakeWait => 19 case TakeTest => 18 case TakeSignal => 17 case TakeEnd => 16 case ForkWait => 15
    case EatWait => 14 case EatShow => 13 case EatenWait => 12 case EatenShow => 11
    case PutWait => 10 case PutLeft => 9 case PutLeftSignal => 8 case PutRight => 7 case PutRightSignal => 6 case PutEnd => 5
    case ThinkWait => 4 case ThinkShow => 3 case ThoughtWait => 2 case ThoughtShow => 1
    case LastWait => 2 case LastShow => 1 case Done => 0
  }

  /** Twice the operations left, less one for a philosopher that is already queued. */
  function Weight(p: Phil, parked: bool): int {
    2 * (Rank(p.pc) + if p.round < ROUNDS then 19 * (ROUNDS - 1 - p.round) + 2 else 0) - (if parked then 1 else 0)
  }

  const WEIGHT := 232

  function WeightAt(t: Table, k: nat): int
    requires k < |t.ph|
  {
    Weight(t.ph[k], Parked(t, k))
  }

  /** Meals begun, from the loop counter and the place in the loop. */
  function Meals(p: Phil): nat {
    p.round + if p.round < ROUNDS && Rank(p.pc) < 13 then 1 else 0
  }

  /** A move takes weight from the mover and gives none to the others; only serving a
      philosopher changes its number of meals. */
  ghost predicate Lighter(t: Table, t': Table, i: nat, k: nat)
    requires i < |t.ph| && k < |t.ph| && |t'.ph| == |t.ph|
  {
    && WeightAt(t', k) <= WeightAt(t, k)
    && (k == i ==> WeightAt(t', k) < WeightAt(t, k))
    && Meals(t'.ph[k]) == Meals(t.ph[k]) + if k == i && t.ph[i].pc.EatShow? then 1 else 0
  }

  lemma WaitMutexLighter(t: Table, i: nat, at: nat, k: nat)
    requires Inv(t) && CanStep(t, i) && WaitsMutex(t.ph[i].pc) && k < |t.ph|
    ensures Lighter(t, WaitMutex(t, i, at), i, k)
  {
    hide ForksOk, BlockedOk, MutexOk, PhilsOk;
    MutexCount(t, i);
    PhilKnown(t, i);
    if t.mutex.count != 1 {
      var place := if at <= |t.mutex.waiters| then at else |t.mutex.waiters|;
      InsertHas(t.mutex.waiters, place, i, k);
      InsertHas(t.mutex.waiters, place, i, i);
    }
  }

  lemma PastLighter(p: Phil, j: nat, promised: bool, parked: bool)
    requires PhilOk(p, j, promised) && (WaitsMutex(p.pc) || LeavesMutex(p.pc))
    ensures Weight(Past(p), false) < Weight(p, parked) && Past(p).own.waiters == p.own.waiters == []
    ensures Meals(Past(p)) == Meals(p) + if p.pc.EatShow? then 1 else 0
  {
    if p.pc.ThoughtShow? {
    } else {
      RankFalls(p);
    }
  }

  lemma RankFalls(p: Phil)
    requires (WaitsMutex(p.pc) || LeavesMutex(p.pc)) && !p.pc.ThoughtShow?
    ensures Rank(Past(p).pc) < Rank(p.pc) && Past(p).round == p.round && Past(p).own == p.own
    ensures (Rank(Past(p).pc) < 13) == (Rank(p.pc) < 13 || p.pc.EatShow?)
  {}

  lemma SignalMutexLighter(t: Table, i: nat, k: nat)
    requires Inv(t) && CanStep(t, i) && LeavesMutex(t.ph[i].pc) && k < |t.ph|
    ensures Lighter(t, SignalMutex(t, i), i, k)
  {
    hide ForksOk, BlockedOk, PhilsOk, MutexOk, Past, Weight, Meals;
    PhilKnown(t, i);
    PastLighter(t.ph[i], i, Promised(t.ph, i), false);
    if t.mutex.waiters == [] {
      LeaveMutexCount(t, i);
    } else {
      MutexWaiter(t, i);
      var w := t.mutex.waiters[0];
      PhilKnown(t, w);
      PastLighter(t.ph[w], w, Promised(t.ph, w), true);
      LeaveMutexCount(t, i);
      assert t.mutex.waiters == [w] + t.mutex.waiters[1..];
    }
  }

  lemma LeaveMutexCount(t: Table, i: nat)
    requires Inv(t) && i < |t.ph| && InSection(t.ph[i].pc)
    ensures t.mutex.count == -|t.mutex.waiters|
    ensures t.mutex.waiters != [] ==> t.mutex.waiters[0] !in t.mutex.waiters[1..]
  {
    assert SomeoneInside(t.ph);
  }

  lemma SignalLighter(t: Table, i: nat, j: nat, k: nat)
    requires Inv(t) && i < |t.ph| && Owes(t, i, j) && CanStep(t, i) && k < |t.ph|
    ensures Lighter(t, SignalOwn(t, i, j), i, k)
  {
    hide ForksOk, BlockedOk, MutexOk, PhilsOk, SignalOwn;
    SignalEffect(t, i, j);
    PhilKnown(t, i);
    PhilKnown(t, j);
  }

  lemma OwnLighter(t: Table, i: nat, at: nat, k: nat)
    requires Inv(t) && CanStep(t, i) && k < |t.ph|
    ensures t.ph[i].pc.TakeSignal? ==> Lighter(t, SignalOwn(t, i, i), i, k)
    ensures t.ph[i].pc.ForkWait? ==> Lighter(t, WaitOwn(t, i, at), i, k)
  {
    hide ForksOk, BlockedOk, MutexOk, PhilsOk;
    PhilKnown(t, i);
  }

  lemma TakeLighter(t: Table, i: nat, k: nat)
    requires Inv(t) && CanStep(t, i) && k < |t.ph| && t.ph[i].pc.TakeTest?
    ensures Lighter(t, TakeForks(t, i), i, k)
  {
    hide ForksOk, BlockedOk, MutexOk, PhilsOk, Promised;
    PhilKnown(t, i);
  }

  lemma PutLeftLighter(t: Table, i: nat, k: nat)
    requires Inv(t) && CanStep(t, i) && k < |t.ph| && t.ph[i].pc.PutLeft?
    ensures Lighter(t, PutLeftFork(t, i), i, k)
  {
    hide ForksOk, BlockedOk, MutexOk, PhilsOk, Promised;
    PhilKnown(t, i);
  }

  lemma PutRightLighter(t: Table, i: nat, k: nat)
    requires Inv(t) && CanStep(t, i) && k < |t.ph| && t.ph[i].pc.PutRight?
    ensures Lighter(t, PutRightFork(t, i), i, k)
  {
    hide ForksOk, BlockedOk, MutexOk, PhilsOk, Promised;
    PhilKnown(t, i);
  }

  lemma StepLighter(t: Table, i: nat, at: nat, k: nat)
    requires Inv(t) && CanStep(t, i) && k < |t.ph|
    ensures |Step(t, i, at).ph| == |t.ph| && Lighter(t, Step(t, i, at), i, k)
  {
    hide ForksOk, BlockedOk, MutexOk, PhilsOk, Lighter;
    var n := |t.ph|;
    var pc := t.ph[i].pc;
    if WaitsMutex(pc) { WaitMutexLighter(t, i, at, k); }
    else if LeavesMutex(pc) { SignalMutexLighter(t, i, k); }
    else if pc.TakeSignal? || pc.ForkWait? { OwnLighter(t, i, at, k); }
    else if pc.PutLeftSignal? { SignalLighter(t, i, Left(i, n), k); }
    else if pc.PutRightSignal? { SignalLighter(t, i, Right(i, n), k); }
    else if pc.TakeTest? { TakeLighter(t, i, k); }
    else if pc.PutLeft? { PutLeftLighter(t, i, k); }
    else { PutRightLighter(t, i, k); }
  }

  function Total(t: Table, n: nat): int
    requires n <= |t.ph|
  {
    if n == 0 then 0 else Total(t, n - 1) + WeightAt(t, n - 1)
  }

  lemma {:induction false} TotalLighter(t: Table, i: nat, at: nat, n: nat)
    requires Inv(t) && CanStep(t, i) && n <= |t.ph|
    ensures |Step(t, i, at).ph| == |t.ph|
    ensures Total(Step(t, i, at), n) <= Total(t, n) - if i < n then 1 else 0
  {
    hide Inv, Step, Weight, Meals;
    StepLighter(t, i, at, i);
    if n > 0 {
      StepLighter(t, i, at, n - 1);
      TotalLighter(t, i, at, n - 1);
    }
  }

  lemma {:induction false} TotalNat(t: Table, n: nat)
    requires Inv(t) && n <= |t.ph|
    ensures Total(t, n) >= 0
  {
    hide ForksOk, BlockedOk, PhilsOk;
    if n > 0 {
      TotalNat(t, n - 1);
      PhilKnown(t, n - 1);
    }
  }

  lemma {:induction false} TotalLaid(n: nat, m: nat)
    requires m <= n
    ensures Total(Laid(n), m) == WEIGHT * m
  {
    if m > 0 { TotalLaid(n, m - 1); }
  }

  lemma {:induction false} RunLighter(ts: seq<Table>, ms: seq<Move>, k: nat)
    requires IsRun(ts, ms) && k < |ts|
    ensures |ts[k].ph| == |ts[0].ph|
    ensures Total(ts[k], |ts[k].ph|) <= WEIGHT * |ts[0].ph| - k
  {
    hide Inv, Step, Parked, Total, Laid;
    RunInv(ts, ms, k);
    if k == 0 {
      TotalLaid(|ts[0].ph|, |ts[0].ph|);
    } else {
      RunInv(ts, ms, k - 1);
      RunLighter(ts, ms, k - 1);
      TotalLighter(ts[k - 1], ms[k - 1].who, ms[k - 1].at, |ts[0].ph|);
    }
  }

  /** Times philosopher j was served a meal in the first k steps of a run. */
  function Served(ts: seq<Table>, ms: seq<Move>, k: nat, j: nat): nat
    requires k <= |ms| < |ts| && forall x :: 0 <= x < |ts| ==> j < |ts[x].ph|
  {
    if k == 0 then 0
    else Served(ts, ms, k - 1, j) + if ms[k - 1].who == j && ts[k - 1].ph[j].pc.EatShow? then 1 else 0
  }

  lemma {:induction false} ServedIsMeals(ts: seq<Table>, ms: seq<Move>, k: nat, j: nat)
    requires IsRun(ts, ms) && k < |ts| && forall x :: 0 <= x < |ts| ==> j < |ts[x].ph|
    ensures Served(ts, ms, k, j) == Meals(ts[k].ph[j])
  {
    hide Inv, Step, CanStep, Meals, Weight;
    if k == 0 {
      NoMealsYet(|ts[0].ph|, j);
    } else {
      ServedIsMeals(ts, ms, k - 1, j);
      RunInv(ts, ms, k - 1);
      StepLighter(ts[k - 1], ms[k - 1].who, ms[k - 1].at, j);
    }
  }

  lemma NoMealsYet(n: nat, j: nat)
    requires j < n
    ensures Meals(Laid(n).ph[j]) == 0
  {}

  /** Every run is finite, whatever the order in which philosophers move and are queued.
      When it cannot go on, everybody has eaten exactly six times and finished, and the
      forks and semaphores are as they were laid. */
  lemma EverybodyEats(ts: seq<Table>, ms: seq<Move>)
    requires IsRun(ts, ms)
    ensures |ms| <= WEIGHT * |ts[0].ph|
    ensures (forall i: nat :: !CanStep(ts[|ms|], i)) ==>
              && (forall x :: 0 <= x < |ts| ==> |ts[x].ph| == |ts[0].ph|)
              && (forall j: nat :: j < |ts[0].ph| ==>
                    && ts[|ms|].ph[j].pc.Done? && Served(ts, ms, |ms|, j) == ROUNDS
                    && ts[|ms|].ph[j].own == Sem(0, []) && !ts[|ms|].f[j])
              && ts[|ms|].mutex == Sem(1, [])
  {
    hide Inv, Step, CanStep, Total, Laid;
    RunInv(ts, ms, |ms|);
    RunLighter(ts, ms, |ms|);
    TotalNat(ts[|ms|], |ts[|ms|].ph|);
    if forall i: nat :: !CanStep(ts[|ms|], i) {
      StuckMeansFinished(ts[|ms|]);
      forall x | 0 <= x < |ts| ensures |ts[x].ph| == |ts[0].ph| { RunLighter(ts, ms, x); }
      forall j: nat | j < |ts[0].ph| ensures Served(ts, ms, |ms|, j) == ROUNDS {
        ServedIsMeals(ts, ms, |ms|, j);
      }
    }
  }
}
