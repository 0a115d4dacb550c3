/**
  Laws of the semaphore calls: `signaln`, mutual exclusion, and where the code departs
  from its own books.
  */
module SemaphoreLaws {
  import opened Common
  import opened KernelState
  import opened KernelInvariant
  import opened KernelMoves
  import opened MessageCalls
  import opened SemaphoreCalls
  import opened ProcessTree
  import opened KernelRuns
  import opened SemaphoreTheorems

  // ----- signaln against n signals -----

  /** n calls of `signal`, each with its own scheduling point. */
  function SignalTimes(k: K, id: SemId, n: nat): (r: K)
    requires Inv(k)
    ensures Inv(r)
    decreases n
  {
    if n == 0 then k else SSignal(SignalTimes(k, id, n - 1), id)
  }

  lemma {:induction false} SignalTimesEffect(k: K, id: SemId, n: nat)
    requires Inv(k) && id in k.sems && k.sems[id].count + n <= MAX_COUNT
    ensures SignalTimes(k, id, n).sems ==
            k.sems[id := Sem(k.sems[id].count + n, DropFirst(k.sems[id].waiters, n))]
    decreases n
  {
    hide Inv, SSignal;
    var w := k.sems[id].waiters;
    if n == 0 {
      assert DropFirst(w, 0) == w;
      assert k.sems[id := Sem(k.sems[id].count, w)] == k.sems;
    } else {
      SignalTimesEffect(k, id, n - 1);
      SignalEffect(SignalTimes(k, id, n - 1), id);
      assert DropFirst(DropFirst(w, n - 1), 1) == DropFirst(w, n);
    }
  }

  lemma SignalNRefused(k: K, id: SemId, n: int)
    requires Inv(k) && (id !in k.sems || n < 0 || k.sems[id].count + n > MAX_COUNT)
    ensures SSignalN(k, id, n) == k
  {}

  /** `signaln(sem, n)` either changes nothing or leaves the semaphores as n calls of
      `signal` do; the waiters released are the first n, in the same order, because after
      any j signals exactly the first j have gone. */
  lemma SignalNIsNSignals(k: K, id: SemId, n: int)
    requires Inv(k)
    ensures (id !in k.sems || n < 0 || k.sems[id].count + n > MAX_COUNT) ==> SSignalN(k, id, n) == k
    ensures id in k.sems && n >= 0 && k.sems[id].count + n <= MAX_COUNT ==>
              && SSignalN(k, id, n).sems == SignalTimes(k, id, n).sems
              && forall j :: 0 <= j <= n ==>
                   id in SignalTimes(k, id, j).sems &&
                   SignalTimes(k, id, j).sems[id].waiters == DropFirst(k.sems[id].waiters, j)
  {
    hide Inv, SignalTimes, SSignalN, DropFirst;
    if id in k.sems && n >= 0 && k.sems[id].count + n <= MAX_COUNT {
      SignalNEffect(k, id, n);
      forall j | 0 <= j <= n
        ensures SignalTimes(k, id, j).sems ==
                k.sems[id := Sem(k.sems[id].count + j, DropFirst(k.sems[id].waiters, j))]
      {
        SignalTimesEffect(k, id, j);
      }
    } else {
      SignalNRefused(k, id, n);
    }
  }

  // ----- sreset -----

  lemma ChooseSems(k: K)
    requires Member(k) && CurrentMayLeave(k)
    ensures Choose(k).sems == k.sems
  {
    hide MemberOf, SortedOf;
    Heads(k);
    if k.lists[Ready] != [] { TopMember(k, Ready); }
  }

  lemma DispatchSems(k: K)
    requires Member(k) && CurrentMayLeave(k)
    ensures Dispatch(k).sems == k.sems
  {
    hide MemberOf, SortedOf, Choose, Awake;
    AwakeProc(k, k.current);
    FreeDeadKeeps(Awake(k));
    ChooseSems(FreeDead(Awake(k)));
  }

  /** The requested count survives the conversion to 16 bits, and the invariant with it, if
      and only if its low 16 bits read as a non-negative number. */
  lemma ResetExact(k: K, id: SemId, c: int)
    requires Inv(k) && id in k.sems && c >= 0
    ensures Inv(SReset(k, id, c)) <==> c % 65536 < 32768
  {
    hide MemberOf, SortedOf, SemsOk, MsgsOk, TreeOk, IdleOk, ProcsOk, ResetSem, Schedule, Dispatch;
    if c % 65536 >= 32768 {
      RunningUnlinked(k);
      EnterKeeps(k, NoCall);
      ResetSemKeeps(Enter(k, NoCall), id, c);
      var k1 := ResetSem(Enter(k, NoCall), id, c);
      MidButMayLeave(k1, id);
      DispatchSems(k1);
      NegativeWithoutWaiters(SReset(k, id, c), id);
    }
  }

  lemma NegativeWithoutWaiters(k: K, id: SemId)
    requires id in k.sems && k.sems[id].count < 0 && k.sems[id].waiters == []
    ensures !Inv(k)
  {
    if Inv(k) { WaitersKnown(k, id); assert false; }
  }

  // ----- killing a waiter -----

  /** After `kill` has taken a waiter off its semaphore, the number of waiters still matches
      the count if and only if the process was the first or the last waiter. Otherwise the
      search has stopped at the head: the process stays in the list, and the first waiter is
      marked ready without being linked anywhere. */
  lemma KillWaiterExact(k: K, p: Pid)
    requires Inv(k) && p in k.procs && p != k.current && k.procs[p].state.BlockedSemaphore?
    ensures LeaveQueue(k, p).Done? && k.procs[p].semId in k.sems && k.procs[p].semId in LeaveQueue(k, p).k.sems
    ensures var id, k' := k.procs[p].semId, LeaveQueue(k, p).k;
            var w := k.sems[id].waiters;
            && (SemOk(k'.procs, id, k'.sems[id]) <==> AtAnEnd(w, p))
            && (!AtAnEnd(w, p) ==>
                  && k'.sems[id] == Sem(k.sems[id].count + 1, w) && p in w
                  && w != [] && w[0] in k'.procs && k'.procs[w[0]].state.Activatable? && k'.procs[w[0]].link.Unlinked?)
  {
    hide MemberOf, SortedOf, MsgsOk, TreeOk, IdleOk, ProcsOk, KilledWaiter;
    WaiterListed(k, p);
    var id := k.procs[p].semId;
    WaitersKnown(k, id);
    var s := k.sems[id];
    WaiterUnlinked(k, p);
    if AtAnEnd(s.waiters, p) {
      KilledAtAnEnd(s.waiters, p);
      KillSemOk(k.procs, id, s, p, k.procs[p].(state := Activatable, semSignal := KILL_CALL),
                KilledWaiter(s.waiters, p).0);
    } else {
      KilledInside(s.waiters, p);
      NotTheRunning(k, id);
      WaiterUnlinked(k, s.waiters[0]);
    }
  }

  lemma KilledInside(w: seq<Pid>, p: Pid)
    requires p in w && !AtAnEnd(w, p)
    ensures KilledWaiter(w, p) == (w, Some(w[0]))
  {
    MiddleSearch(w, p);
  }

  lemma NotTheRunning(k: K, id: SemId)
    requires Inv(k) && id in k.sems && k.sems[id].waiters != []
    ensures var q := k.sems[id].waiters[0]; q in k.procs && q != k.current && k.procs[q].state.BlockedSemaphore?
  {
    WaitersKnown(k, id);
  }

  // ----- mutual exclusion -----

  /** The processes holding semaphore id after a step, if all of them use it as a lock. */
  function InsideAfter(k: K, e: Event, id: SemId, inside: set<Pid>): set<Pid> {
    if e.OfSem? && e.sem.id == id && id in k.sems then
      match e.sem
      case WaitCall(_) => if k.sems[id].count > 0 then inside + {k.current} else inside
      case TryWaitCall(_) => if k.sems[id].count > 0 then inside + {k.current} else inside
      case SignalCall(_) =>
        inside - {k.current} + (if k.sems[id].waiters == [] then {} else {k.sems[id].waiters[0]})
      case _ => inside
    else inside
  }

  /** The step uses semaphore id as a lock: only a holder signals, and nothing else
      raises or replaces the count. */
  predicate Disciplined(k: K, e: Event, id: SemId, inside: set<Pid>) {
    e.OfSem? && e.sem.id == id ==>
      match e.sem
      case WaitCall(_) => true
      case TryWaitCall(_) => true
      case SignalCall(_) => k.current in inside
      case _ => false
  }

  /** Each unit of the count is a free place, and each missing one a holder or a waiter. */
  ghost predicate Lock(k: K, id: SemId, inside: set<Pid>) {
    id in k.sems && k.sems[id].count == 1 - |inside| - |k.sems[id].waiters|
  }

  lemma LockHolders(k: K, id: SemId, inside: set<Pid>)
    requires Inv(k) && Lock(k, id, inside)
    ensures |inside| == (if k.sems[id].count > 0 then 0 else 1)
    ensures k.sems[id].count > 0 ==> k.sems[id].waiters == []
  {
    WaitersOf(k, id);
  }

  lemma LockStep(k: K, e: Event, k': K, id: SemId, inside: set<Pid>)
    requires KernelRuns.Step(k, e, k') && Lock(k, id, inside) && Disciplined(k, e, id, inside)
    ensures Lock(k', id, InsideAfter(k, e, id, inside))
  {
    hide Inv, ProcNext, MsgNext, SemNext;
    LockHolders(k, id, inside);
    match e {
      case OfMsg(c) => MsgCallsLeaveSems(k, c);
      case OfProc(c) =>
        ProcEffect(k, c);
        if KillsWaiter(k, c) && k.procs[c.pid].semId == id {
          KilledOne(k, c.pid);
        }
      case OfSem(c) =>
        SemEffect(k, c);
        if c.id == id {
          LockSemStep(k, c, inside);
        }
    }
  }

  lemma KilledOne(k: K, p: Pid)
    requires Inv(k) && p in k.procs && p != k.current && k.procs[p].state.BlockedSemaphore? && Removable(k, p)
    ensures |KilledWaiter(k.sems[k.procs[p].semId].waiters, p).0| == |k.sems[k.procs[p].semId].waiters| - 1
  {
    WaitersKnown(k, k.procs[p].semId);
    KilledAtAnEnd(k.sems[k.procs[p].semId].waiters, p);
  }

  lemma LockSemStep(k: K, c: SemCall, inside: set<Pid>)
    requires Lock(k, c.id, inside) && k.current in k.procs
    requires |inside| == (if k.sems[c.id].count > 0 then 0 else 1)
    requires k.sems[c.id].count > 0 ==> k.sems[c.id].waiters == []
    requires Disciplined(k, OfSem(c), c.id, inside)
    requires c.WaitCall? ==>
               forall i :: 0 <= i < |k.sems[c.id].waiters| ==> k.sems[c.id].waiters[i] in k.procs
    ensures var sems' := SemsAfter(k, c);
            c.id in sems' &&
            sems'[c.id].count == 1 - |InsideAfter(k, OfSem(c), c.id, inside)| - |sems'[c.id].waiters|
  {
    var s := k.sems[c.id];
    if c.SignalCall? {
      assert |inside - {k.current}| == |inside| - 1;
      assert |inside| == 1;
      assert inside - {k.current} == {};
      if s.waiters != [] {
        assert InsideAfter(k, OfSem(c), c.id, inside) == {s.waiters[0]};
      } else {
        assert InsideAfter(k, OfSem(c), c.id, inside) == {};
      }
    } else if s.count > 0 {
      assert inside == {};
      assert inside + {k.current} == {k.current};
    }
  }

  /** The holders after steps from..n of a run. */
  ghost function Inside(ks: seq<K>, es: seq<Event>, from: nat, n: nat, id: SemId): set<Pid>
    requires from <= n <= |es| < |ks|
    decreases n
  {
    if n == from then {} else InsideAfter(ks[n - 1], es[n - 1], id, Inside(ks, es, from, n - 1, id))
  }

  /** Mutual exclusion: over every run in which a semaphore starts with count 1 and no
      waiter and is used as a lock, at most one process holds it, whatever else happens. */
  lemma {:induction false} MutualExclusion(ks: seq<K>, es: seq<Event>, from: nat, n: nat, id: SemId)
    requires IsRun(ks, es) && from <= n < |ks|
    requires id in ks[from].sems && ks[from].sems[id] == Sem(1, [])
    requires forall i :: from <= i < n ==> Disciplined(ks[i], es[i], id, Inside(ks, es, from, i, id))
    ensures Lock(ks[n], id, Inside(ks, es, from, n, id))
    ensures |Inside(ks, es, from, n, id)| <= 1
    decreases n
  {
    hide Inv, KernelRuns.Step, Boot, InsideAfter, Disciplined;
    RunInv(ks, es, n);
    if n > from {
      MutualExclusion(ks, es, from, n - 1, id);
      LockStep(ks[n - 1], es[n - 1], ks[n], id, Inside(ks, es, from, n - 1, id));
    }
    LockHolders(ks[n], id, Inside(ks, es, from, n, id));
  }
}
