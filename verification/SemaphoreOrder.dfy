/**
  The order of the waiters of a semaphore over whole runs: descending priority, and first
  come first served among equals.
  */
module SemaphoreOrder {
  import opened PriorityOrder
  import opened KernelState
  import opened KernelInvariant
  import opened KernelMoves
  import opened MessageCalls
  import opened SemaphoreCalls
  import opened ProcessTree
  import opened KernelRuns
  import opened SemaphoreTheorems
  import opened WakeReasons

  /** The step does not change the priority of a process that waits for a semaphore. */
  predicate Steady(k: K, e: Event) {
    e.OfProc? && e.proc.ChPrioCall? && e.proc.pid in k.procs ==> !k.procs[e.proc.pid].state.BlockedSemaphore?
  }

  /** When p last joined the waiters it is among: the number of steps taken by then. */
  ghost function JoinedAt(ks: seq<K>, n: nat, p: Pid): (t: nat)
    requires n < |ks|
    ensures t <= n
  {
    if n == 0 then 0
    else if p in ks[n - 1].procs && ks[n - 1].procs[p].state.BlockedSemaphore? then JoinedAt(ks, n - 1, p)
    else n
  }

  ghost function Joined(ks: seq<K>, n: nat): Pid -> int
    requires n < |ks|
  {
    p => JoinedAt(ks, n, p)
  }

  /** Who is served first: the higher priority, and among equals the one that came first. */
  predicate Before(a: int, s: int, b: int, t: int) { a > b || (a == b && s < t) }

  /** The waiters stand in the order in which they are to be served. */
  ghost predicate InOrder(procs: map<Pid, Proc>, w: seq<Pid>, joined: Pid -> int) {
    && (forall i :: 0 <= i < |w| ==> w[i] in procs)
    && forall i, j :: 0 <= i < j < |w| ==> Before(procs[w[i]].prio, joined(w[i]), procs[w[j]].prio, joined(w[j]))
  }

  /** Some waiters of an ordered list, in the same order and with the same priorities. */
  lemma InOrderSub(procs: map<Pid, Proc>, procs': map<Pid, Proc>, w: seq<Pid>, w': seq<Pid>, at: int, joined: Pid -> int, joined': Pid -> int)
    requires InOrder(procs, w, joined) && 0 <= at && at + |w'| <= |w| && w' == w[at..at + |w'|]
    requires forall i :: 0 <= i < |w'| ==> w'[i] in procs' && procs'[w'[i]].prio == procs[w'[i]].prio && joined'(w'[i]) == joined(w'[i])
    ensures InOrder(procs', w', joined')
  {
    forall i, j | 0 <= i < j < |w'| ensures Before(procs'[w'[i]].prio, joined'(w'[i]), procs'[w'[j]].prio, joined'(w'[j])) {
      assert w'[i] == w[at + i] && w'[j] == w[at + j];
    }
  }

  /** A newcomer is put behind its equals. */
  lemma InOrderJoin(procs: map<Pid, Proc>, procs': map<Pid, Proc>, w: seq<Pid>, p: Pid, joined: Pid -> int, joined': Pid -> int, r: nat)
    requires InOrder(procs, w, joined) && p in procs && p in procs' && procs'[p].prio == procs[p].prio
    requires r == WaitRank(WaiterPrios(procs, w), procs[p].prio, 0)
    requires forall i :: 0 <= i < |w| ==> w[i] in procs' && procs'[w[i]].prio == procs[w[i]].prio && joined'(w[i]) == joined(w[i]) < joined'(p)
    ensures InOrder(procs', InsertAt(w, r, p), joined')
  {
    var w' := InsertAt(w, r, p);
    forall i, j | 0 <= i < j < |w'|
      ensures w'[i] in procs' && w'[j] in procs' && Before(procs'[w'[i]].prio, joined'(w'[i]), procs'[w'[j]].prio, joined'(w'[j]))
    {
      if i == r {
        assert w'[j] == w[j - 1] && procs[w[r]].prio < procs[p].prio;
        if r < j - 1 { assert Before(procs[w[r]].prio, joined(w[r]), procs[w[j - 1]].prio, joined(w[j - 1])); }
      } else if j == r {
        assert w'[i] == w[i];
      } else {
        var a, b := if i < r then i else i - 1, if j < r then j else j - 1;
        assert w'[i] == w[a] && w'[j] == w[b];
      }
    }
    forall i | 0 <= i < |w'| ensures w'[i] in procs' {
      if i != r { assert w'[i] == w[if i < r then i else i - 1]; }
    }
  }

  // ----- one step -----

  /** A process that waits for a semaphore before and after a step keeps its priority. */
  lemma WaiterKeepsPrio(k: K, e: Event, k': K, p: Pid)
    requires KernelRuns.Step(k, e, k') && Inv(k') && Steady(k, e) && p in k.procs && k.procs[p].state.BlockedSemaphore?
    requires p in k'.procs && k'.procs[p].state.BlockedSemaphore?
    ensures k'.procs[p].prio == k.procs[p].prio
  {
    hide Inv, ProcNext, MsgNext, SemNext, Explains;
    Waits(k, p);
    Waits(k', p);
    PendingNotRunning(k, p);
    match e
    case OfProc(c) => ProcReason(k, c, p);
    case OfMsg(c) => MsgReason(k, c, p); NotExplained(k.procs[p], e, k'.procs[p].release);
    case OfSem(c) => SemReason(k, c, p); NotExplained(k.procs[p], e, k'.procs[p].release);
  }

  lemma Waits(k: K, p: Pid)
    requires Inv(k) && p in k.procs && k.procs[p].state.BlockedSemaphore?
    ensures k.procs[p].release.Pending? && k.procs[p].call.InWait?
  {}

  lemma NotExplained(pr: Proc, e: Event, cause: Cause)
    requires cause.Pending?
    ensures !Explains(pr, e, cause)
  {}

  /** The running process joins the waiters of id. */
  predicate Joins(k: K, e: Event, id: SemId) {
    e == OfSem(WaitCall(id)) && id in k.sems && k.sems[id].count != MIN_COUNT && k.sems[id].count <= 0
  }

  /** How a step changes the waiters of a semaphore: some leave at an end, or one joins. */
  datatype Change = Rest(at: nat, n: nat) | Join(r: nat)

  lemma WaiterChange(k: K, e: Event, k': K, id: SemId) returns (d: Change)
    requires KernelRuns.Step(k, e, k') && Inv(k') && id in k'.sems
    ensures id in k.sems && d.Rest? ==> d.at + d.n <= |k.sems[id].waiters| && k'.sems[id].waiters == k.sems[id].waiters[d.at..d.at + d.n]
    ensures id !in k.sems ==> k'.sems[id].waiters == []
    ensures id in k.sems && d.Join? ==>
              && Joins(k, e, id) && k.current in k.procs && (forall i :: 0 <= i < |k.sems[id].waiters| ==> k.sems[id].waiters[i] in k.procs)
              && d.r == WaitRank(WaiterPrios(k.procs, k.sems[id].waiters), k.procs[k.current].prio, 0)
              && k'.sems[id].waiters == InsertAt(k.sems[id].waiters, d.r, k.current)
  {
    hide Inv, ProcNext, MsgNext, SemNext;
    var w := if id in k.sems then k.sems[id].waiters else [];
    d := Rest(0, |w|);
    assert w[0..|w|] == w;
    match e
    case OfMsg(c) => MsgCallsLeaveSems(k, c);
    case OfProc(c) =>
      ProcEffect(k, c);
      if KillsWaiter(k, c) && k.procs[c.pid].semId == id {
        KilledEnd(k, c.pid);
        d := if w[0] == c.pid then Rest(1, |w| - 1) else Rest(0, |w| - 1);
      }
    case OfSem(c) =>
      SemEffect(k, c);
      if id in k.sems && c.id == id {
        d := SemChange(k, c);
      }
  }

  lemma KilledEnd(k: K, p: Pid)
    requires Inv(k) && KillSafe(k, p) && KillsWaiter(k, KillCall(p))
    ensures k.procs[p].semId in k.sems
    ensures var w := k.sems[k.procs[p].semId].waiters;
            w != [] && KilledWaiter(w, p).0 == if w[0] == p then w[1..1 + (|w| - 1)] else w[0..0 + (|w| - 1)]
  {
    hide Inv;
    WaiterListed(k, p);
  }

  lemma SemChange(k: K, c: SemCall) returns (d: Change)
    requires Inv(k) && SemAllowed(k, c) && c.id in k.sems && k.current in k.procs
    requires c.WaitCall? ==> forall i :: 0 <= i < |k.sems[c.id].waiters| ==> k.sems[c.id].waiters[i] in k.procs
    requires c.id in SemsAfter(k, c)
    ensures d.Rest? ==> d.at + d.n <= |k.sems[c.id].waiters| && SemsAfter(k, c)[c.id].waiters == k.sems[c.id].waiters[d.at..d.at + d.n]
    ensures d.Join? ==>
              && Joins(k, OfSem(c), c.id)
              && d.r == WaitRank(WaiterPrios(k.procs, k.sems[c.id].waiters), k.procs[k.current].prio, 0)
              && SemsAfter(k, c)[c.id].waiters == InsertAt(k.sems[c.id].waiters, d.r, k.current)
  {
    hide Inv;
    var s := k.sems[c.id];
    var w, w' := s.waiters, SemsAfter(k, c)[c.id].waiters;
    d := Rest(0, |w|);
    assert w[0..|w|] == w;
    if c.WaitCall? && s.count != MIN_COUNT && s.count <= 0 {
      d := Join(WaitRank(WaiterPrios(k.procs, w), k.procs[k.current].prio, 0));
    } else if w' == [] {
      d := Rest(0, 0);
    } else if w' != w {
      d := Rest(|w| - |w'|, |w'|);
      assert w' == w[|w| - |w'|..];
      assert w[d.at..d.at + d.n] == w[|w| - |w'|..];
    }
  }

  // ----- every run -----

  /** Over every run in which the priority of no waiting process is changed: the waiters of
      every semaphore stand in descending priority, the one that came first in front among
      equals. */
  lemma {:induction false} WaitersInOrder(ks: seq<K>, es: seq<Event>, n: nat, id: SemId)
    requires IsRun(ks, es) && n < |ks| && id in ks[n].sems && forall i :: 0 <= i < n ==> Steady(ks[i], es[i])
    ensures InOrder(ks[n].procs, ks[n].sems[id].waiters, Joined(ks, n))
  {
    hide KernelRuns.Step, Inv, Boot, InOrder, Steady;
    RunInv(ks, es, n);
    if n == 0 {
      BootHasNoSems(ks, es);
    } else {
      RunInv(ks, es, n - 1);
      var k, k' := ks[n - 1], ks[n];
      var d := WaiterChange(k, es[n - 1], k', id);
      if id in k.sems {
        WaitersInOrder(ks, es, n - 1, id);
        OrderStep(ks, es, n, id, d);
      } else {
        NobodyInOrder(k'.procs, Joined(ks, n));
      }
    }
  }

  lemma NobodyInOrder(procs: map<Pid, Proc>, joined: Pid -> int)
    ensures InOrder(procs, [], joined)
  {}

  lemma OrderStep(ks: seq<K>, es: seq<Event>, n: nat, id: SemId, d: Change)
    requires IsRun(ks, es) && 0 < n < |ks| && Inv(ks[n - 1]) && Inv(ks[n]) && Steady(ks[n - 1], es[n - 1])
    requires id in ks[n].sems && id in ks[n - 1].sems && InOrder(ks[n - 1].procs, ks[n - 1].sems[id].waiters, Joined(ks, n - 1))
    requires var w, w' := ks[n - 1].sems[id].waiters, ks[n].sems[id].waiters;
             && (d.Rest? ==> d.at + d.n <= |w| && w' == w[d.at..d.at + d.n])
             && (d.Join? ==>
                   && Joins(ks[n - 1], es[n - 1], id) && ks[n - 1].current in ks[n - 1].procs
                   && (forall i :: 0 <= i < |w| ==> w[i] in ks[n - 1].procs)
                   && d.r == WaitRank(WaiterPrios(ks[n - 1].procs, w), ks[n - 1].procs[ks[n - 1].current].prio, 0)
                   && w' == InsertAt(w, d.r, ks[n - 1].current))
    ensures InOrder(ks[n].procs, ks[n].sems[id].waiters, Joined(ks, n))
  {
    hide KernelRuns.Step, Inv, IsRun, InOrder, Steady, JoinedAt, InsertAt, Joins;
    var k, k' := ks[n - 1], ks[n];
    var w, w' := k.sems[id].waiters, k'.sems[id].waiters;
    var joined, joined' := Joined(ks, n - 1), Joined(ks, n);
    forall p | p in w && p in w'
      ensures p in k.procs && p in k'.procs && k'.procs[p].prio == k.procs[p].prio && joined'(p) == joined(p) < n
    {
      OldWaiter(ks, es, n, id, p);
    }
    if d.Rest? {
      InOrderSub(k.procs, k'.procs, w, w', d.at, joined, joined');
    } else {
      Inserted(w, d.r, k.current);
      Newcomer(ks, es, n, id);
      InOrderJoin(k.procs, k'.procs, w, k.current, joined, joined', d.r);
    }
  }

  lemma Inserted(w: seq<Pid>, r: nat, c: Pid)
    requires r <= |w|
    ensures c in InsertAt(w, r, c) && forall i :: 0 <= i < |w| ==> w[i] in InsertAt(w, r, c)
  {
    var w' := InsertAt(w, r, c);
    assert w'[r] == c;
    forall i | 0 <= i < |w| ensures w[i] in w' { assert w'[if i < r then i else i + 1] == w[i]; }
  }

  /** A waiter that stays keeps its priority and its time. */
  lemma OldWaiter(ks: seq<K>, es: seq<Event>, n: nat, id: SemId, p: Pid)
    requires IsRun(ks, es) && 0 < n < |ks| && Inv(ks[n - 1]) && Inv(ks[n]) && Steady(ks[n - 1], es[n - 1])
    requires id in ks[n].sems && id in ks[n - 1].sems && p in ks[n - 1].sems[id].waiters && p in ks[n].sems[id].waiters
    ensures p in ks[n - 1].procs && p in ks[n].procs && ks[n].procs[p].prio == ks[n - 1].procs[p].prio
    ensures JoinedAt(ks, n, p) == JoinedAt(ks, n - 1, p) < n
  {
    hide KernelRuns.Step, Inv, Boot, Steady;
    Listed(ks[n - 1], id, p);
    Listed(ks[n], id, p);
    WaiterKeepsPrio(ks[n - 1], es[n - 1], ks[n], p);
  }

  lemma Listed(k: K, id: SemId, p: Pid)
    requires Inv(k) && id in k.sems && p in k.sems[id].waiters
    ensures p in k.procs && k.procs[p].state.BlockedSemaphore?
  {
    WaitersKnown(k, id);
  }

  /** The process that joins was running: it joins now, with its priority. */
  lemma Newcomer(ks: seq<K>, es: seq<Event>, n: nat, id: SemId)
    requires IsRun(ks, es) && 0 < n < |ks| && Inv(ks[n - 1]) && Inv(ks[n]) && Joins(ks[n - 1], es[n - 1], id)
    requires id in ks[n].sems && ks[n - 1].current in ks[n].sems[id].waiters
    ensures var c := ks[n - 1].current;
            c in ks[n - 1].procs && c in ks[n].procs && ks[n].procs[c].prio == ks[n - 1].procs[c].prio && JoinedAt(ks, n, c) == n
  {
    hide KernelRuns.Step, Inv, Boot;
    Running(ks[n - 1]);
    Listed(ks[n], id, ks[n - 1].current);
    JoinerPrio(ks[n - 1], id);
    WaitNext(ks[n - 1], id, ks[n]);
  }

  lemma Running(k: K)
    requires Inv(k)
    ensures k.current in k.procs && !k.procs[k.current].state.BlockedSemaphore?
  {}

  lemma WaitNext(k: K, id: SemId, k': K)
    requires KernelRuns.Step(k, OfSem(WaitCall(id)), k')
    ensures Inv(k) && k.current != IDLE && k' == SWait(k, id)
  {
    hide Inv, SWait;
  }

  lemma JoinerPrio(k: K, id: SemId)
    requires Inv(k) && Joins(k, OfSem(WaitCall(id)), id)
    ensures k.current != IDLE && k.current in k.procs && k.current in SWait(k, id).procs ==>
              SWait(k, id).procs[k.current].prio == k.procs[k.current].prio
  {
    hide MemberOf, SortedOf, SemsOk, MsgsOk, TreeOk, IdleOk, ProcsOk, Schedule;
    if k.current != IDLE {
      RunningUnlinked(k);
      EnterWaitKeeps(k, id);
      WaitersKnown(k, id);
      JoinKeeps(EnterWait(k, id), id);
      ScheduleLeaves(SemaphoreCalls.Join(EnterWait(k, id), id));
    }
  }

  /** So `signal` wakes the waiter of highest priority, and among those the one that came
      first. */
  lemma SignalWakesFirst(ks: seq<K>, es: seq<Event>, n: nat, id: SemId, j: nat)
    requires IsRun(ks, es) && n < |ks| && id in ks[n].sems && 0 < j < |ks[n].sems[id].waiters|
    requires forall i :: 0 <= i < n ==> Steady(ks[i], es[i])
    ensures var w := ks[n].sems[id].waiters;
            && w[0] in ks[n].procs && w[j] in ks[n].procs
            && Before(ks[n].procs[w[0]].prio, JoinedAt(ks, n, w[0]), ks[n].procs[w[j]].prio, JoinedAt(ks, n, w[j]))
            && Inv(ks[n]) && id in SSignal(ks[n], id).sems && SSignal(ks[n], id).sems[id].waiters == w[1..]
  {
    hide KernelRuns.Step, Inv, Boot, SSignal, JoinedAt;
    RunInv(ks, es, n);
    WaitersInOrder(ks, es, n, id);
    SignalEffect(ks[n], id);
    WaitersOf(ks[n], id);
  }
}
