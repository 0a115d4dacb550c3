/**
  What the semaphore calls do to processes: where the caller is afterwards, and that every
  waiter that leaves a semaphore is ready or running and has been told why.
  */
module SemaphoreEffects {
  import opened KernelState
  import opened KernelInvariant
  import opened KernelMoves
  import opened MessageCalls
  import opened SemaphoreCalls
  import opened KernelRuns
  import opened SemaphoreTheorems
  import opened WakeReasons
  import opened SchedulerMoves

  /** `wait` does not block exactly if there is no such semaphore, or its count is positive,
      or cannot be lowered. */
  predicate Passes(k: K, id: SemId) {
    id !in k.sems || k.sems[id].count > 0 || k.sems[id].count == MIN_COUNT
  }

  /** A caller of `wait` goes on, or is blocked on the semaphore, linked nowhere, and
      somebody else runs. */
  lemma WaitCaller(k: K, id: SemId)
    requires Inv(k) && k.current != IDLE
    ensures var p, k' := k.current, SWait(k, id);
            && (Passes(k, id) ==> Resumed(k', p))
            && (!Passes(k, id) ==>
                  p in k'.procs && k'.procs[p].state.BlockedSemaphore? && k'.procs[p].semId == id && k'.procs[p].link.Unlinked? && k'.current != p)
  {
    hide MemberOf, SortedOf, SemsOk, MsgsOk, TreeOk, IdleOk, ProcsOk, Schedule;
    RunningUnlinked(k);
    if id in k.sems {
      EnterWaitKeeps(k, id);
      var k0, s := EnterWait(k, id), k.sems[id];
      WaitersKnown(k, id);
      if s.count == MIN_COUNT {
      } else if s.count - 1 < 0 {
        JoinKeeps(k0, id);
        ScheduleMoves(Join(k0, id), k.current);
      } else {
        LessOne(k0, id);
        ScheduleMoves(SetSem(k0, id, s.(count := s.count - 1)), k.current);
      }
    }
  }

  /** The caller of any other semaphore call goes on. */
  lemma SemCaller(k: K, c: SemCall)
    requires Inv(k) && SemAllowed(k, c) && !c.WaitCall?
    ensures Resumed(SemNext(k, c), k.current)
  {
    hide MemberOf, SortedOf, SemsOk, MsgsOk, TreeOk, IdleOk, ProcsOk, Schedule, SignalOnce, SignalMany, UnblockAll, ResetSem;
    RunningUnlinked(k);
    EnterKeeps(k, NoCall);
    var k0, p := Enter(k, NoCall), k.current;
    match c {
      case DeleteSem(id) => if id in k.sems { DeleteReason(k0, id, p); Going(DropSem(UnblockAll(k0, id, SDELETE_CALL, SemDeleted), id), k0, p); }
      case ResetSemCall(id, n) => if id in k.sems && n >= 0 { ResetReason(k0, id, n, p); Going(ResetSem(k0, id, n), k0, p); }
      case TryWaitCall(id) =>
        if id in k.sems && k.sems[id].count > 0 {
          LessOne(k0, id);
          ScheduleMoves(SetSem(k0, id, k.sems[id].(count := k.sems[id].count - 1)), p);
        }
      case SignalCall(id) =>
        if id in k.sems && k.sems[id].count != MAX_COUNT {
          WaitersKnown(k, id);
          SignalOnceFrame(k0, id, p);
          SignalOnceKeeps(k0, id);
          Going(SignalOnce(k0, id), k0, p);
        }
      case SignalNCall(id, n) =>
        if id in k.sems && n >= 0 && k.sems[id].count + n <= MAX_COUNT {
          SignalManyFrame(k0, id, n, p);
          SignalManyKeeps(k0, id, n);
          Going(SignalMany(k0, id, n), k0, p);
        }
      case _ =>
    }
  }

  /** A process that was running and has not been touched goes on. */
  lemma Going(k1: K, k0: K, p: Pid)
    requires Mid(k1) && Inv(k0) && p == k0.current && k1.current == p && p in k1.procs && k1.procs[p] == k0.procs[p]
    ensures Resumed(Schedule(k1), p)
  {
    hide Mid, Schedule;
    RunningUnlinked(k0);
    ScheduleMoves(k1, p);
  }

  /** The reason a call gives to the waiters it releases. */
  function ReasonOf(c: SemCall): Cause {
    match c case DeleteSem(_) => SemDeleted case ResetSemCall(_, _) => SemReset case _ => Signalled
  }

  /** The result `wait` returns for it. */
  function CodeOf(c: SemCall): int {
    match c case DeleteSem(_) => -3 case ResetSemCall(_, _) => -4 case _ => 0
  }

  /** A waiter that leaves its semaphore by one of the calls that release waiters is ready or
      running, and `wait` will return what the call gives as the reason. */
  lemma WaiterReleased(k: K, c: SemCall, p: Pid)
    requires Inv(k) && SemAllowed(k, c) && (c.DeleteSem? || c.ResetSemCall? || c.SignalCall? || c.SignalNCall?)
    requires p in k.procs && k.procs[p].state.BlockedSemaphore? && k.procs[p].semId == c.id
    requires var k' := SemNext(k, c); p in k'.procs && !k'.procs[p].state.BlockedSemaphore?
    ensures var k' := SemNext(k, c); Resumed(k', p) && k'.procs[p].release == ReasonOf(c) && k'.procs[p].semSignal == CodeOf(c)
  {
    hide Inv, SemNext;
    WaiterMoved(k, c, p);
    ReleasedCode(SemNext(k, c), p);
  }

  lemma ReleasedCode(k: K, p: Pid)
    requires Inv(k) && p in k.procs && k.procs[p].call.InWait?
    ensures k.procs[p].release == Signalled ==> k.procs[p].semSignal == SIGNAL_CALL
    ensures k.procs[p].release == SemDeleted ==> k.procs[p].semSignal == SDELETE_CALL
    ensures k.procs[p].release == SemReset ==> k.procs[p].semSignal == SRESET_CALL
  {}

  lemma WaiterCall(k: K, p: Pid)
    requires Inv(k) && p in k.procs && k.procs[p].state.BlockedSemaphore?
    ensures k.procs[p].call == InWait(k.procs[p].semId) && p != k.current && k.procs[p].semId in k.sems
  {}

  lemma WaiterMoved(k: K, c: SemCall, p: Pid)
    requires Inv(k) && SemAllowed(k, c) && (c.DeleteSem? || c.ResetSemCall? || c.SignalCall? || c.SignalNCall?)
    requires p in k.procs && k.procs[p].state.BlockedSemaphore? && k.procs[p].semId == c.id
    requires var k' := SemNext(k, c); p in k'.procs && !k'.procs[p].state.BlockedSemaphore?
    ensures var k' := SemNext(k, c); Resumed(k', p) && k'.procs[p].release == ReasonOf(c) && k'.procs[p].call.InWait?
  {
    hide MemberOf, SortedOf, SemsOk, MsgsOk, TreeOk, IdleOk, ProcsOk, Schedule, SignalOnce, SignalMany, UnblockAll, ResetSem;
    WaiterCall(k, p);
    RunningUnlinked(k);
    EnterKeeps(k, NoCall);
    var k0, id := Enter(k, NoCall), c.id;
    match c {
      case DeleteSem(_) =>
        DeleteReason(k0, id, p);
        Woken(DropSem(UnblockAll(k0, id, SDELETE_CALL, SemDeleted), id), k0, p, id, SemDeleted);
      case ResetSemCall(_, n) =>
        if n >= 0 { ResetReason(k0, id, n, p); Woken(ResetSem(k0, id, n), k0, p, id, SemReset); }
      case SignalCall(_) =>
        if k.sems[id].count != MAX_COUNT {
          WaitersKnown(k, id);
          SignalOnceFrame(k0, id, p);
          SignalOnceKeeps(k0, id);
          Woken(SignalOnce(k0, id), k0, p, id, Signalled);
        }
      case SignalNCall(_, n) =>
        if n >= 0 && k.sems[id].count + n <= MAX_COUNT {
          SignalManyFrame(k0, id, n, p);
          SignalManyKeeps(k0, id, n);
          Woken(SignalMany(k0, id, n), k0, p, id, Signalled);
        }
    }
  }

  /** A waiter that has been made ready before the scheduler is called is ready or running
      afterwards; one that has not is blocked still. */
  lemma Woken(k1: K, k0: K, p: Pid, id: SemId, why: Cause)
    requires Mid(k1) && Inv(k0) && p in k0.procs && k0.procs[p].state.BlockedSemaphore? && WokenFor(k0, k1, p, id, why)
    requires k1.procs[p].call == k0.procs[p].call && k1.current == k0.current
    ensures p in Schedule(k1).procs && Schedule(k1).procs[p].call == k0.procs[p].call
    ensures Schedule(k1).procs[p].state.BlockedSemaphore? || (Resumed(Schedule(k1), p) && Schedule(k1).procs[p].release == why)
  {
    hide Mid, Inv, Schedule;
    WaiterCall(k0, p);
    ScheduleLeaves(k1);
    ScheduleMoves(k1, p);
    if k1.procs[p] == k0.procs[p] { WaiterAside(k1, p); }
  }

  lemma WaiterAside(k: K, p: Pid)
    requires Mid(k) && p in k.procs && k.procs[p].state.BlockedSemaphore?
    ensures Aside(k, p) && !Overdue(k, p) && k.procs[p].link != LinkedIn(Dead)
  {}
}
