/**
  Which call ended the wait of a blocked process: the history variable `release` never
  names a cause that did not happen.
  */
module WakeReasons {
  import opened MessageRing
  import opened KernelState
  import opened KernelInvariant
  import opened KernelMoves
  import opened MessageCalls
  import opened SemaphoreCalls
  import opened ProcessCalls
  import opened PriorityLaws
  import opened ChildLists
  import opened ProcessTree
  import opened KernelRuns
  import opened SemaphoreTheorems
  import opened SchedulerMoves

  /** Event e is the kind of call that ends the wait of `pr` for this cause. */
  predicate Explains(pr: Proc, e: Event, cause: Cause) {
    match cause
    case Signalled =>
      pr.state.BlockedSemaphore? && e.OfSem? && (e.sem.SignalCall? || e.sem.SignalNCall?) && e.sem.id == pr.semId
    case SemDeleted => pr.state.BlockedSemaphore? && e == OfSem(DeleteSem(pr.semId))
    case SemReset =>
      pr.state.BlockedSemaphore? && e.OfSem? && e.sem.ResetSemCall? && e.sem.id == pr.semId
    case Transferred(v) =>
      && pr.link.LinkedIn? && e.OfMsg? && !e.msg.CreateQueue?
      && (|| (e.msg == SendCall(e.msg.fid, v) && pr.link.list == Consumers(e.msg.fid))
          || (e.msg == ReceiveCall(e.msg.fid) && pr.link.list == Producers(e.msg.fid) && v == pr.message.value))
    case QueueReset =>
      && pr.link.LinkedIn? && (pr.link.list.Consumers? || pr.link.list.Producers?)
      && (e == OfMsg(ResetQueue(pr.link.list.fid)) || e == OfMsg(DeleteQueue(pr.link.list.fid)))
    case _ => false
  }

  /** The process has at most been moved, or marked as something else. */
  predicate Untouched(pr: Proc, pr': Proc) {
    pr'.release == pr.release && pr'.call == pr.call && pr'.message == pr.message && pr'.prio == pr.prio && pr'.wakeTime == pr.wakeTime
  }

  predicate UntouchedButPrio(pr: Proc, pr': Proc) { Untouched(pr.(prio := pr'.prio), pr') }

  /** If process p sleeps, it sleeps on, or its time has come and it is ready or running. */
  predicate Rests(k: K, k': K, p: Pid)
    requires p in k.procs && p in k'.procs
  {
    k.procs[p].link == LinkedIn(Sleepers) ==>
      || (k'.procs[p].state == k.procs[p].state && k'.procs[p].link == LinkedIn(Sleepers))
      || (-k'.procs[p].wakeTime < k'.clock && Resumed(k', p))
  }

  /** The process is linked in a list, and not to be freed. */
  predicate Queued(pr: Proc) { pr.link.LinkedIn? && !pr.link.list.Dead? }

  /** Process p is untouched, or disappears; one that is queued does not. */
  predicate Kept(k: K, k': K, p: Pid)
    requires p in k.procs
  {
    && (Queued(k.procs[p]) ==> p in k'.procs)
    && (p in k'.procs ==> Untouched(k.procs[p], k'.procs[p]) && Rests(k, k', p))
  }

  /** The same before the scheduler is called: a sleeper sleeps on. */
  predicate Still(k: K, k': K, p: Pid)
    requires p in k.procs
  {
    && (Queued(k.procs[p]) ==> p in k'.procs)
    && (p in k'.procs ==> Untouched(k.procs[p], k'.procs[p]) && StaysPut(k.procs[p], k'.procs[p]))
  }

  predicate StaysPut(pr: Proc, pr': Proc) {
    (pr.link == LinkedIn(Sleepers) ==> pr'.state == pr.state && pr'.link == pr.link) && (Queued(pr) ==> Queued(pr'))
  }

  /** The process has ended, and is in no call. */
  predicate Ended(pr: Proc) { Gone(pr) && pr.call.NoCall? }

  lemma ScheduleKept(k: K, p: Pid)
    requires Mid(k) && p in k.procs
    ensures Kept(k, Schedule(k), p)
  {
    hide Mid, Schedule;
    ScheduleLeaves(k);
    ScheduleMoves(k, p);
    if k.procs[p].link == LinkedIn(Sleepers) { SleeperAside(k, p); }
  }

  lemma SleeperAside(k: K, p: Pid)
    requires Mid(k) && p in k.procs && k.procs[p].link == LinkedIn(Sleepers)
    ensures Aside(k, p)
  {}

  lemma PendingNotRunning(k: K, p: Pid)
    requires Inv(k) && p in k.procs && k.procs[p].release.Pending?
    ensures p != k.current && k.current in k.procs
  {}

  // ----- semaphores -----

  /** Process p is unchanged, or was a waiter of id and now carries this release. */
  predicate WokenFor(k: K, k': K, p: Pid, id: SemId, why: Cause)
    requires p in k.procs
  {
    && p in k'.procs && k'.current == k.current && k'.procs[p].call == k.procs[p].call
    && (k'.procs[p] == k.procs[p] ||
        (k.procs[p].state.BlockedSemaphore? && k.procs[p].semId == id && k'.procs[p].release == why &&
         !k'.procs[p].state.BlockedSemaphore? && k'.procs[p].link == LinkedIn(Ready)))
  }

  lemma UnblockFrame(k: K, id: SemId, code: int, why: Cause, p: Pid)
    requires MidBut(k, id) && k.sems[id].waiters != [] && p in k.procs
    requires k.sems[id].waiters[0] in k.procs && k.procs[k.sems[id].waiters[0]].link.Unlinked?
    ensures WokenFor(k, Unblock(k, id, code, why), p, id, why)
  {
    hide MemberOf, SortedOf, MsgsOk, TreeOk, IdleOk, ProcsOk, Unblock;
    UnblockEffect(k, id, code, why);
  }

  lemma SignalOnceFrame(k: K, id: SemId, p: Pid)
    requires Inv(k) && id in k.sems && k.sems[id].count < MAX_COUNT && p in k.procs
    ensures WokenFor(k, SignalOnce(k, id), p, id, Signalled)
  {
    hide MemberOf, SortedOf, MsgsOk, TreeOk, IdleOk, ProcsOk, SemsOk, Unblock;
    var s := k.sems[id];
    if s.count + 1 <= 0 {
      SignalUnblocks(k, id);
      UnblockFrame(SetSem(k, id, s.(count := s.count + 1)), id, SIGNAL_CALL, Signalled, p);
    }
  }

  lemma {:induction false} SignalManyFrame(k: K, id: SemId, n: nat, p: Pid)
    requires Inv(k) && id in k.sems && k.sems[id].count + n <= MAX_COUNT && p in k.procs
    ensures WokenFor(k, SignalMany(k, id, n), p, id, Signalled)
    decreases n
  {
    hide Inv, SignalOnce;
    if n > 0 {
      SignalOnceKeeps(k, id);
      SignalOnceFrame(k, id, p);
      SignalManyFrame(SignalOnce(k, id), id, n - 1, p);
    }
  }

  lemma {:induction false} UnblockAllFrame(k: K, id: SemId, code: int, why: Cause, p: Pid)
    requires MidBut(k, id) && EndOfSem(code, why) && p in k.procs
    ensures WokenFor(k, UnblockAll(k, id, code, why), p, id, why)
    decreases |k.sems[id].waiters|
  {
    hide MemberOf, SortedOf, MsgsOk, TreeOk, IdleOk, ProcsOk, Unblock;
    if k.sems[id].waiters != [] {
      UnblockKeeps(k, id, code, why);
      UnblockEffect(k, id, code, why);
      UnblockFrame(k, id, code, why, p);
      UnblockAllFrame(Unblock(k, id, code, why), id, code, why, p);
    }
  }

  lemma SemReason(k: K, c: SemCall, p: Pid)
    requires Inv(k) && SemAllowed(k, c) && p in k.procs && p != k.current
    ensures var k' := SemNext(k, c);
            Kept(k, k', p) || (p in k'.procs && Explains(k.procs[p], OfSem(c), k'.procs[p].release))
  {
    hide MemberOf, SortedOf, SemsOk, MsgsOk, TreeOk, IdleOk, ProcsOk, Schedule, SignalOnce, SignalMany, UnblockAll,
      ResetSem;
    RunningUnlinked(k);
    EnterKeeps(k, NoCall);
    var k0 := Enter(k, NoCall);
    match c {
      case CreateSem(id, n) =>
      case DeleteSem(id) =>
        if id in k.sems { DeleteReason(k0, id, p); }
      case ResetSemCall(id, n) =>
        if id in k.sems && n >= 0 { ResetReason(k0, id, n, p); }
      case WaitCall(id) =>
        if id in k.sems { WaitReason(k, id, p); }
      case TryWaitCall(id) =>
        if id in k.sems && k.sems[id].count > 0 {
          WaitersKnown(k, id);
          SetCountKeeps(k0, id, k.sems[id].count - 1);
          ScheduleKept(SetSem(k0, id, k.sems[id].(count := k.sems[id].count - 1)), p);
        }
      case SignalCall(id) =>
        if id in k.sems && k.sems[id].count != MAX_COUNT {
          WaitersKnown(k, id);
          SignalOnceFrame(k0, id, p);
          SignalOnceKeeps(k0, id);
          ScheduleKept(SignalOnce(k0, id), p);
        }
      case SignalNCall(id, n) =>
        if id in k.sems && n >= 0 && k.sems[id].count + n <= MAX_COUNT {
          SignalManyFrame(k0, id, n, p);
          SignalManyKeeps(k0, id, n);
          ScheduleKept(SignalMany(k0, id, n), p);
        }
    }
  }

  lemma DeleteReason(k: K, id: SemId, p: Pid)
    requires Inv(k) && id in k.sems && p in k.procs
    ensures MidBut(k, id)
    ensures var k1 := DropSem(UnblockAll(k, id, SDELETE_CALL, SemDeleted), id);
            && Mid(k1) && p in k1.procs
            && WokenFor(k, k1, p, id, SemDeleted)
            && Kept(k1, Schedule(k1), p)
  {
    hide MemberOf, SortedOf, SemsOk, MsgsOk, TreeOk, IdleOk, ProcsOk, Schedule, UnblockAll, SemsBut;
    SelfMidBut(k, id);
    UnblockAllFrame(k, id, SDELETE_CALL, SemDeleted, p);
    UnblockAllKeeps(k, id, SDELETE_CALL, SemDeleted);
    var k1 := UnblockAll(k, id, SDELETE_CALL, SemDeleted);
    DropSemKeeps(k1, id);
    ScheduleKept(DropSem(k1, id), p);
  }

  lemma ResetReason(k: K, id: SemId, n: int, p: Pid)
    requires Inv(k) && id in k.sems && ToInt16(n) >= 0 && p in k.procs
    ensures var k1 := ResetSem(k, id, n);
            && Mid(k1) && p in k1.procs
            && WokenFor(k, k1, p, id, SemReset)
            && Kept(k1, Schedule(k1), p)
  {
    hide MemberOf, SortedOf, SemsOk, MsgsOk, TreeOk, IdleOk, ProcsOk, Schedule, UnblockAll, SemsBut;
    SelfMidBut(k, id);
    UnblockAllFrame(k, id, SRESET_CALL, SemReset, p);
    ResetSemKeeps(k, id, n);
    FromMidBut(ResetSem(k, id, n), id);
    ScheduleKept(ResetSem(k, id, n), p);
  }

  lemma WaitReason(k: K, id: SemId, p: Pid)
    requires Inv(k) && k.current != IDLE && id in k.sems && p in k.procs && p != k.current
    ensures Kept(k, SWait(k, id), p)
  {
    hide MemberOf, SortedOf, SemsOk, MsgsOk, TreeOk, IdleOk, ProcsOk, Schedule;
    RunningUnlinked(k);
    EnterWaitKeeps(k, id);
    var k0 := EnterWait(k, id);
    var s := k.sems[id];
    WaitersKnown(k, id);
    if s.count == MIN_COUNT {
    } else if s.count - 1 < 0 {
      JoinKeeps(k0, id);
      ScheduleKept(Join(k0, id), p);
    } else {
      SetCountKeeps(k0, id, s.count - 1);
      ScheduleKept(SetSem(k0, id, s.(count := s.count - 1)), p);
    }
  }

  // ----- message queues -----

  lemma SendReason(k: K, f: Fid, m: int, p: Pid)
    requires Inv(k) && k.current != IDLE && p in k.procs && p != k.current
    ensures var k' := PSend(k, f, m);
            Kept(k, k', p) || (p in k'.procs && Explains(k.procs[p], OfMsg(SendCall(f, m)), k'.procs[p].release))
  {
    hide MemberOf, SortedOf, SemsOk, TreeOk, IdleOk, ProcsOk, Schedule, Release, Block;
    RunningUnlinked(k);
    EnterKeeps(k, InSend(m));
    var k0 := Enter(k, InSend(m));
    match SendCaseOf(k, f) {
      case ToConsumer =>
        HandOverKeeps(k0, f, m);
        BlockedProc(k0, Consumers(f));
        ReleaseEffect(k0, Top(k0, Consumers(f)), Handed(k0.procs[Top(k0, Consumers(f))], m));
        ScheduleKept(HandOver(k0, f, m), p);
      case QueueFull =>
        SendBlocks(k, f, m);
        BlockEffect(k, Producers(f), Sending(k.procs[k.current], f, m));
        ScheduleKept(Block(k, Producers(f), Sending(k.procs[k.current], f, m)), p);
      case _ =>
    }
  }

  lemma ReceiveReason(k: K, f: Fid, p: Pid)
    requires Inv(k) && k.current != IDLE && p in k.procs && p != k.current
    ensures var k' := PReceive(k, f);
            Kept(k, k', p) || (p in k'.procs && Explains(k.procs[p], OfMsg(ReceiveCall(f)), k'.procs[p].release))
  {
    hide MemberOf, SortedOf, SemsOk, TreeOk, IdleOk, ProcsOk, Schedule, Release, Block;
    RunningUnlinked(k);
    EnterKeeps(k, InReceive);
    var k0 := Enter(k, InReceive);
    match ReceiveCaseOf(k, f) {
      case Rendezvous =>
        TakeDirectKeeps(k0, f);
        BlockedProc(k0, Producers(f));
        ReleaseEffect(k0, Top(k0, Producers(f)), Taken(k0.procs[Top(k0, Producers(f))], false));
        ScheduleKept(TakeDirect(k0, f), p);
      case QueueEmpty =>
        ReceiveBlocks(k, f);
        BlockEffect(k, Consumers(f), Receiving(k.procs[k.current], f));
        ScheduleKept(Block(k, Consumers(f), Receiving(k.procs[k.current], f)), p);
      case FullWithProducer =>
        RefillKeeps(k0, f);
        BlockedProc(k0, Producers(f));
        ReleaseEffect(k0, Top(k0, Producers(f)), Taken(k0.procs[Top(k0, Producers(f))], true));
        ScheduleKept(Refill(k0, f), p);
      case _ =>
    }
  }

  /** Process p is unchanged, or was linked in l and now carries the reset. */
  predicate Abandons(k: K, k': K, p: Pid, l: ListId)
    requires p in k.procs
  {
    && p in k'.procs
    && (k'.procs[p] == k.procs[p] ||
        (k.procs[p].link == LinkedIn(l) && k'.procs[p].release == QueueReset && k'.procs[p].message.status.Error?
         && k'.procs[p].link == LinkedIn(Ready)))
  }

  lemma {:induction false} ReleaseAllFrame(k: K, l: ListId, p: Pid)
    requires Inv(k) && l in k.lists && (l.Consumers? || l.Producers?) && p in k.procs
    ensures Abandons(k, ReleaseAll(k, l), p, l)
    decreases |k.lists[l]|
  {
    hide MemberOf, SortedOf, SemsOk, MsgsOk, TreeOk, IdleOk, ProcsOk, Release;
    if k.lists[l] != [] {
      BlockedProc(k, l);
      var t := Top(k, l);
      var pr := Abandoned(k.procs[t]);
      ReleaseKeeps(k, t, pr);
      ReleaseEffect(k, t, pr);
      ReleaseAllFrame(Release(k, t, pr), l, p);
    }
  }

  lemma ReleaseBothFrame(k: K, f: Fid, p: Pid)
    requires Inv(k) && f in k.queues && p in k.procs
    ensures var k' := ReleaseBoth(k, f);
            Abandons(k, k', p, Consumers(f)) || Abandons(k, k', p, Producers(f))
  {
    hide MemberOf, SortedOf, SemsOk, MsgsOk, TreeOk, IdleOk, ProcsOk, ReleaseAll;
    FrameHeads(k, f);
    ReleaseAllKeeps(k, Consumers(f));
    ReleaseAllFrame(k, Consumers(f), p);
    var k1 := ReleaseAll(k, Consumers(f));
    ReleaseAllKeeps(k1, Producers(f));
    ReleaseAllFrame(k1, Producers(f), p);
  }

  lemma FrameHeads(k: K, f: Fid)
    requires Inv(k) && f in k.queues
    ensures Consumers(f) in k.lists && Producers(f) in k.lists
  {}

  lemma ResetQueueReason(k: K, f: Fid, p: Pid)
    requires Inv(k) && p in k.procs && p != k.current
    ensures var k' := PReset(k, f);
            Kept(k, k', p) || (p in k'.procs && Explains(k.procs[p], OfMsg(ResetQueue(f)), k'.procs[p].release))
  {
    hide MemberOf, SortedOf, SemsOk, MsgsOk, TreeOk, IdleOk, ProcsOk, Schedule, ReleaseBoth;
    RunningUnlinked(k);
    if f in k.queues {
      EnterKeeps(k, NoCall);
      var k0 := Enter(k, NoCall);
      BothReleased(k0, f);
      ReleaseBothFrame(k0, f, p);
      var k1 := ReleaseBoth(k0, f);
      BlankMsg(k.queues[f].ring.arr, k1.lists[Consumers(f)], k1.lists[Producers(f)]);
      SetQueueKeeps(k1, f, MsgQueue(Ring(k.queues[f].ring.arr, 0, 0), [], []));
      ScheduleKept(SetQueue(k1, f, MsgQueue(Ring(k.queues[f].ring.arr, 0, 0), [], [])), p);
    }
  }

  lemma DeleteQueueReason(k: K, f: Fid, p: Pid)
    requires Inv(k) && p in k.procs && p != k.current
    ensures var k' := PDelete(k, f);
            Kept(k, k', p) || (p in k'.procs && Explains(k.procs[p], OfMsg(DeleteQueue(f)), k'.procs[p].release))
  {
    hide MemberOf, SortedOf, SemsOk, MsgsOk, TreeOk, IdleOk, ProcsOk, Schedule, ReleaseBoth;
    RunningUnlinked(k);
    if f in k.queues {
      EnterKeeps(k, NoCall);
      var k0 := Enter(k, NoCall);
      BothReleased(k0, f);
      ReleaseBothFrame(k0, f, p);
      var k1 := ReleaseBoth(k0, f);
      DropQueueKeeps(k1, f);
      ScheduleKept(DropQueue(k1, f), p);
    }
  }

  lemma MsgReason(k: K, c: MsgCall, p: Pid)
    requires Inv(k) && k.current != IDLE && p in k.procs && p != k.current
    ensures var k' := MsgNext(k, c);
            Kept(k, k', p) || (p in k'.procs && Explains(k.procs[p], OfMsg(c), k'.procs[p].release))
  {
    hide Inv, PSend, PReceive, PReset, PDelete, PCreate;
    match c
    case CreateQueue(size) => CreateQueueKept(k, size, p);
    case DeleteQueue(f) => DeleteQueueReason(k, f, p);
    case ResetQueue(f) => ResetQueueReason(k, f, p);
    case SendCall(f, m) => SendReason(k, f, m, p);
    case ReceiveCall(f) => ReceiveReason(k, f, p);
  }

  lemma CreateQueueKept(k: K, size: int, p: Pid)
    requires Inv(k) && p in k.procs && p != k.current
    ensures Kept(k, PCreate(k, size), p)
  {
    hide MemberOf, SortedOf, SemsOk, MsgsOk, TreeOk, IdleOk, ProcsOk;
    RunningUnlinked(k);
  }

  // ----- process calls -----

  /** No process call ends the wait of another process; a process that is killed while
      waiting is in no call any more. */
  lemma ProcReason(k: K, c: ProcCall, p: Pid)
    requires Inv(k) && ProcAllowed(k, c) && p in k.procs && p != k.current
    ensures var k' := ProcNext(k, c);
            || Kept(k, k', p) || (c == KillCall(p) && (p in k'.procs ==> Ended(k'.procs[p])))
            || (p in k'.procs && UntouchedButPrio(k.procs[p], k'.procs[p]) && Rests(k, k', p) && c.ChPrioCall? && c.pid == p)
  {
    hide Inv, Start, Exit, Kill, WaitChild, ChPrio, WaitClock, ConsWait, KeyPress, Tick;
    match c
    case Interrupt(key) => if key { KeyKept(k, p); } else { TickKept(k, p); }
    case StartCall(q, prio, junk) => StartKept(k, q, prio, junk, p);
    case ExitCall => ExitKept(k, p);
    case KillCall(q) => KillKept(k, q, p);
    case WaitChildCall(q) => WaitChildKept(k, q, p);
    case ChPrioCall(q, prio) => ChPrioKept(k, q, prio, p);
    case WaitClockCall(d) => WaitClockKept(k, d, p);
    case ConsReadCall => ConsKept(k, p);
  }

  lemma TickKept(k: K, p: Pid)
    requires Inv(k) && p in k.procs
    ensures Kept(k, Tick(k), p)
  {
    hide MemberOf, SortedOf, SemsOk, MsgsOk, TreeOk, IdleOk, ProcsOk, Schedule;
    ScheduleKept(k.(clock := k.clock + 1), p);
  }

  lemma KeyKept(k: K, p: Pid)
    requires Inv(k) && p in k.procs
    ensures Kept(k, KeyPress(k), p)
  {
    hide MemberOf, SortedOf, SemsOk, MsgsOk, TreeOk, IdleOk, ProcsOk, Schedule, Release;
    Heads(k);
    if k.lists[Io] != [] {
      KeyPressKeeps(k);
      TopMember(k, Io);
      var t := Top(k, Io);
      ReleaseEffect(k, t, k.procs[t].(link := Unlinked, state := Activatable));
      ScheduleKept(Release(k, t, k.procs[t].(link := Unlinked, state := Activatable)), p);
    }
  }

  lemma StartKept(k: K, q: Pid, prio: int, junk: Message, p: Pid)
    requires Inv(k) && q !in k.procs && MIN_PRIO <= prio <= MAX_PRIO && p in k.procs && p != k.current
    ensures Kept(k, Start(k, q, prio, junk), p)
  {
    hide MemberOf, SortedOf, SemsOk, MsgsOk, TreeOk, IdleOk, ProcsOk, Schedule;
    RunningUnlinked(k);
    EnterKeeps(k, NoCall);
    SpawnKeeps(Enter(k, NoCall), q, prio, junk);
    ScheduleKept(Spawn(Enter(k, NoCall), q, prio, junk), p);
  }

  lemma WaitClockKept(k: K, d: nat, p: Pid)
    requires Inv(k) && k.current != IDLE && k.clock + d > 0 && p in k.procs && p != k.current
    ensures Kept(k, WaitClock(k, d), p)
  {
    hide MemberOf, SortedOf, SemsOk, MsgsOk, TreeOk, IdleOk, ProcsOk, Dispatch, Block;
    RunningUnlinked(k);
    SleepKeeps(k, d);
    BlockEffect(k, Sleepers, Sleeping(k, d));
    ScheduleKept(Block(k, Sleepers, Sleeping(k, d)), p);
  }

  lemma ConsKept(k: K, p: Pid)
    requires Inv(k) && k.current != IDLE && p in k.procs && p != k.current
    ensures Kept(k, ConsWait(k), p)
  {
    hide MemberOf, SortedOf, SemsOk, MsgsOk, TreeOk, IdleOk, ProcsOk, Schedule, Block;
    RunningUnlinked(k);
    ConsWaitKeeps(k);
    var pr := k.procs[k.current].(state := BlockedIo, call := NoCall, release := Immediate);
    BlockEffect(k, Io, pr);
    ScheduleKept(Block(k, Io, pr), p);
  }

  lemma WaitChildKept(k: K, q: int, p: Pid)
    requires Inv(k) && k.current != IDLE && p in k.procs && p != k.current
    ensures Kept(k, WaitChild(k, q), p)
  {
    hide MemberOf, SortedOf, SemsOk, MsgsOk, TreeOk, IdleOk, ProcsOk, Schedule;
    RunningUnlinked(k);
    OwnChildren(k);
    if Queued(k.procs[p]) { QueuedLives(k, p); }
    if WaitCase(k, q).Blocks? {
      EnterKeeps(k, NoCall);
      var k0 := Enter(k, NoCall);
      WaitChildKeeps(k0);
      ScheduleKept(SetProc(k0, k.current, k0.procs[k.current].(state := BlockedWaitChild)), p);
    }
  }

  lemma QueuedLives(k: K, p: Pid)
    requires Inv(k) && p in k.procs && Queued(k.procs[p])
    ensures !Gone(k.procs[p])
  {}

  lemma ChPrioKept(k: K, q: Pid, prio: int, p: Pid)
    requires Inv(k) && (ChPrioAccepts(k, q, prio) ==> ChPrioSafe(k, q, prio)) && p in k.procs
    ensures var k' := ChPrio(k, q, prio).k;
            && (Queued(k.procs[p]) ==> p in k'.procs)
            && (p in k'.procs ==>
                  UntouchedButPrio(k.procs[p], k'.procs[p]) && Rests(k, k', p) && (p != q ==> k'.procs[p].prio == k.procs[p].prio))
  {
    hide MemberOf, SortedOf, SemsOk, MsgsOk, TreeOk, IdleOk, ProcsOk, Schedule, ChPrioWrite;
    if ChPrioAccepts(k, q, prio) {
      ChPrioWriteKeeps(k, q, prio);
      ChPrioWriteKept(k, q, prio, p);
      ScheduleKept(ChPrioWrite(k, q, prio).k, p);
    }
  }

  lemma RequeueKept(k: K, q: Pid, l: ListId, prio: int, p: Pid)
    requires Member(k) && q in k.procs && k.procs[q].link.LinkedIn? && k.procs[q].link != LinkedIn(Sleepers)
    requires l in k.lists && l != Dead && p in k.procs
    ensures var k' := Requeue(k, q, l, prio);
            && p in k'.procs && UntouchedButPrio(k.procs[p], k'.procs[p]) && StaysPut(k.procs[p], k'.procs[p])
            && (p != q ==> k'.procs[p].prio == k.procs[p].prio)
  {
    hide MemberOf, SortedOf;
  }

  lemma ChPrioWriteKept(k: K, q: Pid, prio: int, p: Pid)
    requires Inv(k) && q in k.procs && p in k.procs && ChPrioWrite(k, q, prio).Done?
    ensures var k' := ChPrioWrite(k, q, prio).k;
            && p in k'.procs && UntouchedButPrio(k.procs[p], k'.procs[p]) && StaysPut(k.procs[p], k'.procs[p])
            && (p != q ==> k'.procs[p].prio == k.procs[p].prio)
  {
    hide MemberOf, SortedOf, SemsOk, MsgsOk, TreeOk, IdleOk, ProcsOk, Requeue;
    FieldKnown(k, q);
    Heads(k);
    match k.procs[q].state {
      case Activatable => RequeueKept(k, q, Ready, prio, p);
      case BlockedQueue => RequeueKept(k, q, k.procs[q].message.blockedHead, prio, p);
      case BlockedIo => RequeueKept(k, q, Io, prio, p);
      case _ =>
    }
  }

  lemma EndKept(k: K, q: Pid, p: Pid)
    requires Endable(k, q) && p in k.procs
    ensures var k' := EndProcess(k, q);
            (p != q ==> Still(k, k', p)) && (p == q && p in k'.procs ==> Ended(k'.procs[p]))
  {
    hide MemberOf, SortedOf, TreeOk;
    EndEffect(k, q);
  }

  lemma ExitKept(k: K, p: Pid)
    requires Inv(k) && k.current != IDLE && EndSafe(k.procs, k.current) && p in k.procs && p != k.current
    ensures var k' := Exit(k).k;
            Kept(k, k', p)
  {
    hide MemberOf, SortedOf, SemsOk, MsgsOk, TreeOk, IdleOk, ProcsOk, EndProcess, Dispatch, NoneLeft, ListsWhole, Endable;
    ExitReady(k);
    EndProcessKeeps(k, k.current);
    EndKept(k, k.current, p);
    var k1 := EndProcess(k, k.current);
    if p in k1.procs { ScheduleKept(k1, p); } else { ScheduleLeaves(k1); }
  }

  lemma KillKept(k: K, q: Pid, p: Pid)
    requires Inv(k) && k.current != IDLE && p in k.procs && p != k.current
    requires KillSafe(k, q)
    ensures var k' := Kill(k, q).k;
            Kept(k, k', p) || (p == q && (p in k'.procs ==> Ended(k'.procs[p])))
  {
    hide Inv, EndProcess, Exit, Kill, LeaveQueue, NoneLeft, ListsWhole, Endable, SameFate;
    InvCurrent(k);
    if !KillAccepts(k, q) {
      KillRefused(k, q);
    } else {
      if q == k.current {
        ExitKept(k, p);
        KillSelf(k);
      } else {
        LeaveEndable(k, q);
        KillKeeps(k, q);
        LeaveKept(k, q, p);
        EndKept(LeaveQueue(k, q).k, q, p);
        KillIs(k, q);
      }
    }
  }

  lemma LeaveKept(k: K, q: Pid, p: Pid)
    requires Inv(k) && p in k.procs && q in k.procs && q != k.current && LeaveQueue(k, q).Done?
    ensures var k' := LeaveQueue(k, q).k; p in k'.procs && (p != q ==> Still(k, k', p))
  {
    hide MemberOf, SortedOf, SemsOk, MsgsOk, TreeOk, IdleOk, ProcsOk, KillWaiter;
    if k.procs[q].state.BlockedSemaphore? {
      WaiterListed(k, q);
      HitIsWaiter(k, q);
      var hit := KillWaiterFate(k, q);
    }
  }

  lemma KillIs(k: K, q: Pid)
    requires Inv(k) && k.current != IDLE && KillAccepts(k, q) && q != k.current && KillSafe(k, q)
    ensures LeaveQueue(k, q).Done? && Endable(LeaveQueue(k, q).k, q) && Kill(k, q) == Done(EndProcess(LeaveQueue(k, q).k, q))
  {
    hide Inv, EndProcess, NoneLeft, ListsWhole, Endable, SameFate, LeaveQueue;
    LeaveEndable(k, q);
    KillKeeps(k, q);
  }

  lemma KillSelf(k: K)
    requires Inv(k) && k.current != IDLE && KillAccepts(k, k.current)
    ensures Kill(k, k.current) == Exit(k)
  {
    hide Inv, Exit;
  }

  lemma KillRefused(k: K, q: Pid)
    requires Inv(k) && k.current != IDLE && !KillAccepts(k, q)
    ensures Kill(k, q) == Done(k)
  {
    hide Inv;
  }

  /** Over every run: when the wait of a process inside `wait`, `psend` or `preceive` ends
      and the process is still in that call, the step that ended it is a call that the
      release names, on the very semaphore or queue it was waiting for. */
  lemma ReleaseIsExplained(ks: seq<K>, es: seq<Event>, n: nat, p: Pid)
    requires IsRun(ks, es) && n < |es| && p in ks[n].procs && p in ks[n + 1].procs
    requires Waiting(ks[n].procs[p]) && !Waiting(ks[n + 1].procs[p]) && !ks[n + 1].procs[p].call.NoCall?
    ensures Explains(ks[n].procs[p], es[n], ks[n + 1].procs[p].release)
  {
    hide Inv, Boot, ProcNext, MsgNext, SemNext, Explains;
    RunInv(ks, es, n);
    RunInv(ks, es, n + 1);
    PendingIsWaiting(ks[n], p);
    PendingIsWaiting(ks[n + 1], p);
    PendingNotRunning(ks[n], p);
    match es[n]
    case OfProc(c) => ProcReason(ks[n], c, p);
    case OfMsg(c) => MsgReason(ks[n], c, p);
    case OfSem(c) => SemReason(ks[n], c, p);
  }

  lemma PendingIsWaiting(k: K, p: Pid)
    requires Inv(k) && p in k.procs
    ensures k.procs[p].release.Pending? <==> Waiting(k.procs[p])
  {}
}
