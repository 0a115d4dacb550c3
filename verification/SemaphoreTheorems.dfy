/**
  What semaphores promise over whole runs: the count is a ledger of the calls made,
  `signaln` is `n` signals with one scheduling point, and the exact conditions under
  which `sreset` and the killing of a waiter keep the books straight.
  */
module SemaphoreTheorems {
  import opened PriorityOrder
  import opened MessageRing
  import opened KernelState
  import opened KernelInvariant
  import opened KernelMoves
  import opened MessageCalls
  import opened SemaphoreCalls
  import opened ProcessCalls
  import opened PriorityLaws
  import opened ChildLists
  import opened ProcessTree
  import opened KernelRuns

  // ----- what the scheduler leaves alone -----

  /** Equal except for state and link. */
  predicate SameCall(pr: Proc, pr': Proc) {
    pr'.(state := pr.state, link := pr.link) == pr
  }

  lemma ChooseLeaves(k: K)
    requires Mid(k) && CurrentMayLeave(k)
    ensures var r := Choose(k);
            && r.sems == k.sems && r.queues == k.queues && r.clock == k.clock
            && (forall p :: p in k.procs <==> p in r.procs)
            && (forall p :: p in k.procs ==> SameCall(k.procs[p], r.procs[p]))
  {
    hide MemberOf, SortedOf, SemsOk, MsgsOk, TreeOk, IdleOk, ProcsOk, Choose;
    Heads(k);
    var cur := k.procs[k.current];
    if k.lists[Ready] == [] {
      ChooseNothing(k);
    } else {
      TopMember(k, Ready);
      if cur.state.Actif? && k.procs[Top(k, Ready)].prio < cur.prio {
        ChooseNothing(k);
      } else {
        ChooseEffect(k, if cur.state.Actif? then cur.(state := Activatable, link := LinkedIn(Ready))
                        else if cur.state.Killed? then cur.(link := LinkedIn(Dead)) else cur);
      }
    }
  }

  /** `scheduler()` changes no semaphore, no message queue, and no field of a process
      other than its state and link; only processes of the dead list disappear. */
  lemma ScheduleLeaves(k: K)
    requires Mid(k)
    ensures var r := Schedule(k);
            && r.sems == k.sems && r.queues == k.queues && r.clock == k.clock && r.procs.Keys <= k.procs.Keys
            && (forall p :: p in r.procs ==> p in k.procs && SameCall(k.procs[p], r.procs[p]))
            && (forall p :: p in k.procs && k.procs[p].link != LinkedIn(Dead) ==> p in r.procs)
  {
    hide MemberOf, SortedOf, SemsOk, MsgsOk, TreeOk, IdleOk, ProcsOk, Choose, Awake;
    MidMayLeave(k);
    AwakeKeeps(k);
    FreeDeadMid(Awake(k));
    MidMayLeave(FreeDead(Awake(k)));
    ChooseLeaves(FreeDead(Awake(k)));
    AwakeProc(k, k.current);
    forall p ensures p in k.procs <==> p in Awake(k).procs
             ensures p in k.procs ==> SameCall(k.procs[p], Awake(k).procs[p])
             ensures p in k.procs && k.procs[p].link != LinkedIn(Dead) ==> Awake(k).procs[p].link != LinkedIn(Dead)
    {
      AwakeProc(k, p);
    }
    forall p | p in Schedule(k).procs.Keys ensures p in k.procs.Keys {
      assert p in FreeDead(Awake(k)).procs;
    }
  }

  /** The clock stands, and no process is new. */
  predicate Quiet(k: K, k': K) {
    k'.clock == k.clock && k'.procs.Keys <= k.procs.Keys
  }

  // ----- the ledger -----

  lemma MsgCallsLeaveSems(k: K, c: MsgCall)
    requires Inv(k) && k.current != IDLE
    ensures MsgNext(k, c).sems == k.sems && Quiet(k, MsgNext(k, c))
  {
    hide Inv, PSend, PReceive, PReset, PDelete, PCreate;
    match c
    case CreateQueue(size) => CreateLeaves(k, size);
    case DeleteQueue(f) => DeleteLeaves(k, f);
    case ResetQueue(f) => ResetLeaves(k, f);
    case SendCall(f, m) => SendLeaves(k, f, m);
    case ReceiveCall(f) => ReceiveLeaves(k, f);
  }

  lemma CreateLeaves(k: K, size: int)
    requires Inv(k)
    ensures PCreate(k, size).sems == k.sems && Quiet(k, PCreate(k, size))
  {
    hide MemberOf, SortedOf, SemsOk, MsgsOk, TreeOk, IdleOk, ProcsOk;
    RunningUnlinked(k);
  }

  lemma DeleteLeaves(k: K, f: Fid)
    requires Inv(k)
    ensures PDelete(k, f).sems == k.sems && Quiet(k, PDelete(k, f))
  {
    hide MemberOf, SortedOf, SemsOk, MsgsOk, TreeOk, IdleOk, ProcsOk, Schedule, ReleaseBoth;
    RunningUnlinked(k);
    if f in k.queues {
      EnterKeeps(k, NoCall);
      BothReleased(Enter(k, NoCall), f);
      var k1 := ReleaseBoth(Enter(k, NoCall), f);
      DropQueueKeeps(k1, f);
      ScheduleLeaves(DropQueue(k1, f));
    }
  }

  lemma BothReleased(k: K, f: Fid)
    requires Inv(k) && f in k.queues
    ensures var r := ReleaseBoth(k, f);
            && Inv(r) && r.queues == k.queues && r.sems == k.sems && r.current == k.current
            && r.clock == k.clock && r.procs.Keys == k.procs.Keys
            && Consumers(f) in r.lists && r.lists[Consumers(f)] == []
            && Producers(f) in r.lists && r.lists[Producers(f)] == []
  {}

  lemma ResetLeaves(k: K, f: Fid)
    requires Inv(k)
    ensures PReset(k, f).sems == k.sems && Quiet(k, PReset(k, f))
  {
    hide MemberOf, SortedOf, SemsOk, MsgsOk, TreeOk, IdleOk, ProcsOk, Schedule, ReleaseBoth;
    RunningUnlinked(k);
    if f in k.queues {
      EnterKeeps(k, NoCall);
      BothReleased(Enter(k, NoCall), f);
      var k1 := ReleaseBoth(Enter(k, NoCall), f);
      BlankMsg(k.queues[f].ring.arr, k1.lists[Consumers(f)], k1.lists[Producers(f)]);
      SetQueueKeeps(k1, f, MsgQueue(Ring(k.queues[f].ring.arr, 0, 0), [], []));
      ScheduleLeaves(SetQueue(k1, f, MsgQueue(Ring(k.queues[f].ring.arr, 0, 0), [], [])));
    }
  }

  lemma SendLeaves(k: K, f: Fid, m: int)
    requires Inv(k) && k.current != IDLE
    ensures PSend(k, f, m).sems == k.sems && Quiet(k, PSend(k, f, m))
  {
    hide MemberOf, SortedOf, SemsOk, TreeOk, IdleOk, ProcsOk, Schedule, Release, Block;
    RunningUnlinked(k);
    EnterKeeps(k, InSend(m));
    var k0 := Enter(k, InSend(m));
    match SendCaseOf(k, f) {
      case ToConsumer =>
        HandOverKeeps(k0, f, m);
        BlockedProc(k0, Consumers(f));
        ReleaseEffect(k0, Top(k0, Consumers(f)), Handed(k0.procs[Top(k0, Consumers(f))], m));
        ScheduleLeaves(HandOver(k0, f, m));
      case QueueFull =>
        SendBlocks(k, f, m);
        BlockEffect(k, Producers(f), Sending(k.procs[k.current], f, m));
        ScheduleLeaves(Block(k, Producers(f), Sending(k.procs[k.current], f, m)));
      case _ =>
    }
  }

  lemma ReceiveLeaves(k: K, f: Fid)
    requires Inv(k) && k.current != IDLE
    ensures PReceive(k, f).sems == k.sems && Quiet(k, PReceive(k, f))
  {
    hide MemberOf, SortedOf, SemsOk, TreeOk, IdleOk, ProcsOk, Schedule, Release, Block;
    RunningUnlinked(k);
    EnterKeeps(k, InReceive);
    var k0 := Enter(k, InReceive);
    match ReceiveCaseOf(k, f) {
      case Rendezvous =>
        TakeDirectKeeps(k0, f);
        BlockedProc(k0, Producers(f));
        ReleaseEffect(k0, Top(k0, Producers(f)), Taken(k0.procs[Top(k0, Producers(f))], false));
        ScheduleLeaves(TakeDirect(k0, f));
      case QueueEmpty =>
        ReceiveBlocks(k, f);
        BlockEffect(k, Consumers(f), Receiving(k.procs[k.current], f));
        ScheduleLeaves(Block(k, Consumers(f), Receiving(k.procs[k.current], f)));
      case FullWithProducer =>
        RefillKeeps(k0, f);
        BlockedProc(k0, Producers(f));
        ReleaseEffect(k0, Top(k0, Producers(f)), Taken(k0.procs[Top(k0, Producers(f))], true));
        ScheduleLeaves(Refill(k0, f));
      case _ =>
    }
  }

  function DropFirst(w: seq<Pid>, n: nat): seq<Pid> {
    if n < |w| then w[n..] else []
  }

  /** What each semaphore call does to the table of semaphores. */
  function SemsAfter(k: K, c: SemCall): map<SemId, Sem>
    requires k.current in k.procs
    requires c.WaitCall? && c.id in k.sems ==>
               forall i :: 0 <= i < |k.sems[c.id].waiters| ==> k.sems[c.id].waiters[i] in k.procs
  {
    match c
    case CreateSem(id, n) => if n < 0 then k.sems else k.sems[id := Sem(n, [])]
    case DeleteSem(id) => k.sems - {id}
    case ResetSemCall(id, n) => if id !in k.sems || n < 0 then k.sems else k.sems[id := Sem(ToInt16(n), [])]
    case WaitCall(id) =>
      if id !in k.sems || k.sems[id].count == MIN_COUNT then k.sems
      else
        var s := k.sems[id];
        if s.count > 0 then k.sems[id := Sem(s.count - 1, s.waiters)]
        else
          var r := WaitRank(WaiterPrios(k.procs, s.waiters), k.procs[k.current].prio, 0);
          k.sems[id := Sem(s.count - 1, InsertAt(s.waiters, r, k.current))]
    case TryWaitCall(id) =>
      if id !in k.sems || k.sems[id].count <= 0 then k.sems
      else k.sems[id := Sem(k.sems[id].count - 1, k.sems[id].waiters)]
    case SignalCall(id) =>
      if id !in k.sems || k.sems[id].count == MAX_COUNT then k.sems
      else k.sems[id := Sem(k.sems[id].count + 1, DropFirst(k.sems[id].waiters, 1))]
    case SignalNCall(id, n) =>
      if id !in k.sems || n < 0 || k.sems[id].count + n > MAX_COUNT then k.sems
      else k.sems[id := Sem(k.sems[id].count + n, DropFirst(k.sems[id].waiters, n))]
  }

  lemma WaitEffect(k: K, id: SemId)
    requires Inv(k) && k.current != IDLE
    ensures k.current in k.procs
    ensures id in k.sems ==> forall i :: 0 <= i < |k.sems[id].waiters| ==> k.sems[id].waiters[i] in k.procs
    ensures SWait(k, id).sems == SemsAfter(k, WaitCall(id))
    ensures SWait(k, id).queues == k.queues && Quiet(k, SWait(k, id))
  {
    hide MemberOf, SortedOf, SemsOk, MsgsOk, TreeOk, IdleOk, ProcsOk, Schedule;
    RunningUnlinked(k);
    if id in k.sems {
      WaitersKnown(k, id);
      EnterWaitKeeps(k, id);
      var k0 := EnterWait(k, id);
      var s := k.sems[id];
      if s.count == MIN_COUNT {
      } else if s.count - 1 < 0 {
        JoinKeeps(k0, id);
        assert WaiterPrios(k0.procs, s.waiters) == WaiterPrios(k.procs, s.waiters);
        ScheduleLeaves(Join(k0, id));
      } else {
        SetCountKeeps(k0, id, s.count - 1);
        ScheduleLeaves(SetSem(k0, id, s.(count := s.count - 1)));
      }
    }
  }

  lemma TryWaitEffect(k: K, id: SemId)
    requires Inv(k) && k.current != IDLE
    ensures STryWait(k, id).sems == SemsAfter(k, TryWaitCall(id))
    ensures STryWait(k, id).queues == k.queues && Quiet(k, STryWait(k, id))
  {
    hide MemberOf, SortedOf, SemsOk, MsgsOk, TreeOk, IdleOk, ProcsOk, Schedule;
    RunningUnlinked(k);
    if id in k.sems && k.sems[id].count > 0 {
      var s := k.sems[id];
      EnterKeeps(k, NoCall);
      WaitersKnown(k, id);
      SetCountKeeps(Enter(k, NoCall), id, s.count - 1);
      ScheduleLeaves(SetSem(Enter(k, NoCall), id, s.(count := s.count - 1)));
    }
  }

  lemma SignalEffect(k: K, id: SemId)
    requires Inv(k)
    ensures k.current in k.procs
    ensures SSignal(k, id).sems == SemsAfter(k, SignalCall(id))
    ensures SSignal(k, id).queues == k.queues && Quiet(k, SSignal(k, id))
  {
    hide MemberOf, SortedOf, SemsOk, MsgsOk, TreeOk, IdleOk, ProcsOk, Schedule, SignalOnce;
    RunningUnlinked(k);
    if id in k.sems && k.sems[id].count != MAX_COUNT {
      EnterKeeps(k, NoCall);
      WaitersKnown(k, id);
      SignalOnceKeeps(Enter(k, NoCall), id);
      ScheduleLeaves(SignalOnce(Enter(k, NoCall), id));
      assert |k.sems[id].waiters| == 1 ==> k.sems[id].waiters[1..] == [];
    }
  }

  lemma SignalNEffect(k: K, id: SemId, n: int)
    requires Inv(k)
    ensures k.current in k.procs
    ensures SSignalN(k, id, n).sems == SemsAfter(k, SignalNCall(id, n))
    ensures SSignalN(k, id, n).queues == k.queues && Quiet(k, SSignalN(k, id, n))
  {
    hide MemberOf, SortedOf, SemsOk, MsgsOk, TreeOk, IdleOk, ProcsOk, Schedule, SignalMany;
    RunningUnlinked(k);
    if id in k.sems && n >= 0 && k.sems[id].count + n <= MAX_COUNT {
      EnterKeeps(k, NoCall);
      SignalManyKeeps(Enter(k, NoCall), id, n);
      ScheduleLeaves(SignalMany(Enter(k, NoCall), id, n));
    }
  }

  lemma ResetEffect(k: K, id: SemId, n: int)
    requires Inv(k) && (id !in k.sems || n < 0 || ToInt16(n) >= 0)
    ensures k.current in k.procs
    ensures SReset(k, id, n).sems == SemsAfter(k, ResetSemCall(id, n))
    ensures SReset(k, id, n).queues == k.queues && Quiet(k, SReset(k, id, n))
  {
    hide MemberOf, SortedOf, SemsOk, MsgsOk, TreeOk, IdleOk, ProcsOk, Schedule, ResetSem;
    RunningUnlinked(k);
    if id in k.sems && n >= 0 {
      EnterKeeps(k, NoCall);
      ResetSemKeeps(Enter(k, NoCall), id, n);
      var k1 := ResetSem(Enter(k, NoCall), id, n);
      FromMidBut(k1, id);
      ScheduleLeaves(k1);
    }
  }

  lemma DeleteEffect(k: K, id: SemId)
    requires Inv(k)
    ensures k.current in k.procs
    ensures SDelete(k, id).sems == SemsAfter(k, DeleteSem(id))
    ensures SDelete(k, id).queues == k.queues && Quiet(k, SDelete(k, id))
  {
    hide MemberOf, SortedOf, SemsOk, MsgsOk, TreeOk, IdleOk, ProcsOk, Schedule, UnblockAll;
    RunningUnlinked(k);
    if id in k.sems {
      EnterKeeps(k, NoCall);
      var k0 := Enter(k, NoCall);
      SelfMidBut(k0, id);
      UnblockAllKeeps(k0, id, SDELETE_CALL, SemDeleted);
      var k1 := UnblockAll(k0, id, SDELETE_CALL, SemDeleted);
      DropSemKeeps(k1, id);
      ScheduleLeaves(DropSem(k1, id));
      assert k1.sems - {id} == k.sems - {id};
    }
  }

  lemma SemEffect(k: K, c: SemCall)
    requires Inv(k) && SemAllowed(k, c)
    ensures k.current in k.procs
    ensures c.WaitCall? && c.id in k.sems ==>
              forall i :: 0 <= i < |k.sems[c.id].waiters| ==> k.sems[c.id].waiters[i] in k.procs
    ensures SemNext(k, c).sems == SemsAfter(k, c)
    ensures SemNext(k, c).queues == k.queues && Quiet(k, SemNext(k, c))
  {
    hide MemberOf, SortedOf, SemsOk, MsgsOk, TreeOk, IdleOk, ProcsOk,
      SWait, STryWait, SSignal, SSignalN, SReset, SDelete;
    RunningUnlinked(k);
    match c
    case CreateSem(id, n) =>
    case DeleteSem(id) => DeleteEffect(k, id);
    case ResetSemCall(id, n) => ResetEffect(k, id, n);
    case WaitCall(id) => WaitEffect(k, id);
    case TryWaitCall(id) => TryWaitEffect(k, id);
    case SignalCall(id) => SignalEffect(k, id);
    case SignalNCall(id, n) => SignalNEffect(k, id, n);
  }

  /** `kill` hits a process that waits for a semaphore. */
  predicate KillsWaiter(k: K, c: ProcCall) {
    c.KillCall? && KillAccepts(k, c.pid) && c.pid != k.current && k.procs[c.pid].state.BlockedSemaphore?
  }

  /** Among the process calls, only the killing of a waiter touches a semaphore. */
  lemma ProcEffect(k: K, c: ProcCall)
    requires Inv(k) && ProcAllowed(k, c)
    ensures ProcNext(k, c).queues == k.queues
    ensures ProcNext(k, c).clock == if c == Interrupt(false) then k.clock + 1 else k.clock
    ensures forall p :: p in ProcNext(k, c).procs && p !in k.procs ==>
              c.StartCall? && c.pid == p && ProcNext(k, c).procs[p].release.Immediate?
    ensures !KillsWaiter(k, c) ==> ProcNext(k, c).sems == k.sems
    ensures KillsWaiter(k, c) ==>
              var id := k.procs[c.pid].semId;
              id in k.sems &&
              ProcNext(k, c).sems ==
                k.sems[id := Sem(k.sems[id].count + 1, KilledWaiter(k.sems[id].waiters, c.pid).0)]
  {
    hide MemberOf, SortedOf, SemsOk, MsgsOk, TreeOk, IdleOk, ProcsOk,
      Start, Exit, Kill, WaitChild, ChPrio, WaitClock, ConsWait, KeyPress, Tick;
    match c
    case Interrupt(key) => if key { KeyLeaves(k); } else { TickLeaves(k); }
    case StartCall(p, prio, junk) => StartLeaves(k, p, prio, junk);
    case ExitCall => ExitLeaves(k);
    case KillCall(p) => KillEffect(k, p);
    case WaitChildCall(p) => WaitChildLeaves(k, p);
    case ChPrioCall(p, prio) => ChPrioLeaves(k, p, prio);
    case WaitClockCall(d) => WaitClockLeaves(k, d);
    case ConsReadCall => ConsLeaves(k);
  }

  lemma TickLeaves(k: K)
    requires Inv(k)
    ensures Tick(k).sems == k.sems && Tick(k).queues == k.queues
    ensures Tick(k).clock == k.clock + 1 && Tick(k).procs.Keys <= k.procs.Keys
  {
    hide MemberOf, SortedOf, SemsOk, MsgsOk, TreeOk, IdleOk, ProcsOk, Schedule;
    ScheduleLeaves(k.(clock := k.clock + 1));
  }

  lemma KeyLeaves(k: K)
    requires Inv(k)
    ensures KeyPress(k).sems == k.sems && KeyPress(k).queues == k.queues && Quiet(k, KeyPress(k))
  {
    hide MemberOf, SortedOf, SemsOk, MsgsOk, TreeOk, IdleOk, ProcsOk, Schedule, Release;
    Heads(k);
    if k.lists[Io] != [] {
      KeyPressKeeps(k);
      var p := Top(k, Io);
      ReleaseEffect(k, p, k.procs[p].(link := Unlinked, state := Activatable));
      ScheduleLeaves(Release(k, p, k.procs[p].(link := Unlinked, state := Activatable)));
    }
  }

  lemma StartLeaves(k: K, p: Pid, prio: int, junk: Message)
    requires Inv(k) && p !in k.procs && MIN_PRIO <= prio <= MAX_PRIO
    ensures var k' := Start(k, p, prio, junk);
            && k'.sems == k.sems && k'.queues == k.queues && k'.clock == k.clock && k'.procs.Keys <= k.procs.Keys + {p}
            && (p in k'.procs ==> k'.procs[p].release.Immediate?)
  {
    hide MemberOf, SortedOf, SemsOk, MsgsOk, TreeOk, IdleOk, ProcsOk, Schedule;
    RunningUnlinked(k);
    EnterKeeps(k, NoCall);
    SpawnKeeps(Enter(k, NoCall), p, prio, junk);
    ScheduleLeaves(Spawn(Enter(k, NoCall), p, prio, junk));
  }

  lemma WaitClockLeaves(k: K, d: nat)
    requires Inv(k) && k.current != IDLE && k.clock + d > 0
    ensures WaitClock(k, d).sems == k.sems && WaitClock(k, d).queues == k.queues && Quiet(k, WaitClock(k, d))
  {
    hide MemberOf, SortedOf, SemsOk, MsgsOk, TreeOk, IdleOk, ProcsOk, Dispatch, Block;
    RunningUnlinked(k);
    SleepKeeps(k, d);
    BlockEffect(k, Sleepers, Sleeping(k, d));
    ScheduleLeaves(Block(k, Sleepers, Sleeping(k, d)));
  }

  lemma ConsLeaves(k: K)
    requires Inv(k) && k.current != IDLE
    ensures ConsWait(k).sems == k.sems && ConsWait(k).queues == k.queues && Quiet(k, ConsWait(k))
  {
    hide MemberOf, SortedOf, SemsOk, MsgsOk, TreeOk, IdleOk, ProcsOk, Schedule, Block;
    RunningUnlinked(k);
    ConsWaitKeeps(k);
    var pr := k.procs[k.current].(state := BlockedIo, call := NoCall, release := Immediate);
    BlockEffect(k, Io, pr);
    ScheduleLeaves(Block(k, Io, pr));
  }

  lemma ChPrioLeaves(k: K, p: Pid, prio: int)
    requires Inv(k) && (ChPrioAccepts(k, p, prio) ==> ChPrioSafe(k, p, prio))
    ensures ChPrio(k, p, prio).k.sems == k.sems && ChPrio(k, p, prio).k.queues == k.queues && Quiet(k, ChPrio(k, p, prio).k)
  {
    hide MemberOf, SortedOf, SemsOk, MsgsOk, TreeOk, IdleOk, ProcsOk, Schedule, ChPrioWrite;
    if ChPrioAccepts(k, p, prio) {
      ChPrioWriteKeeps(k, p, prio);
      ChPrioWriteLeaves(k, p, prio);
      ScheduleLeaves(ChPrioWrite(k, p, prio).k);
    }
  }

  lemma ChPrioWriteLeaves(k: K, p: Pid, prio: int)
    requires Inv(k) && p in k.procs
    ensures ChPrioWrite(k, p, prio).Done? ==>
              var k' := ChPrioWrite(k, p, prio).k; k'.sems == k.sems && k'.queues == k.queues && Quiet(k, k')
  {
    hide MemberOf, SortedOf, SemsOk, MsgsOk, TreeOk, IdleOk, ProcsOk, Requeue;
    FieldKnown(k, p);
    Heads(k);
    if k.procs[p].link.LinkedIn? && ChPrioWrite(k, p, prio).Done? {
      match k.procs[p].state {
        case Activatable => RequeueLeaves(k, p, Ready, prio);
        case BlockedQueue => RequeueLeaves(k, p, k.procs[p].message.blockedHead, prio);
        case BlockedIo => RequeueLeaves(k, p, Io, prio);
        case _ =>
      }
    }
  }

  lemma RequeueLeaves(k: K, p: Pid, l: ListId, prio: int)
    requires Member(k) && p in k.procs && k.procs[p].link.LinkedIn? && l in k.lists
    ensures var r := Requeue(k, p, l, prio); r.sems == k.sems && r.queues == k.queues && Quiet(k, r)
  {
    hide MemberOf, SortedOf;
  }

  lemma EndLeaves(k: K, p: Pid)
    requires Endable(k, p)
    ensures EndProcess(k, p).sems == k.sems && EndProcess(k, p).queues == k.queues && Quiet(k, EndProcess(k, p))
  {
    hide MemberOf, SortedOf, TreeOk, EndProcs;
    EndEffect(k, p);
  }

  lemma ExitLeaves(k: K)
    requires Inv(k) && k.current != IDLE && EndSafe(k.procs, k.current)
    ensures Exit(k).k.sems == k.sems && Exit(k).k.queues == k.queues && Quiet(k, Exit(k).k)
  {
    hide MemberOf, SortedOf, SemsOk, MsgsOk, TreeOk, IdleOk, ProcsOk, EndProcess, Dispatch, NoneLeft, ListsWhole, Endable;
    ExitReady(k);
    EndProcessKeeps(k, k.current);
    EndLeaves(k, k.current);
    ScheduleLeaves(EndProcess(k, k.current));
  }

  lemma KillEffect(k: K, p: Pid)
    requires Inv(k) && k.current != IDLE
    requires KillSafe(k, p)
    ensures Kill(k, p).k.queues == k.queues && Quiet(k, Kill(k, p).k)
    ensures !KillsWaiter(k, KillCall(p)) ==> Kill(k, p).k.sems == k.sems
    ensures KillsWaiter(k, KillCall(p)) ==>
              var id := k.procs[p].semId;
              id in k.sems &&
              Kill(k, p).k.sems == k.sems[id := Sem(k.sems[id].count + 1, KilledWaiter(k.sems[id].waiters, p).0)]
  {
    hide MemberOf, SortedOf, SemsOk, MsgsOk, TreeOk, IdleOk, ProcsOk, Schedule, EndProcess, Exit, KilledWaiter, NoneLeft, ListsWhole, Endable, SameFate;
    if KillAccepts(k, p) {
      if p == k.current {
        ExitLeaves(k);
      } else {
        LeaveEndable(k, p);
        KillKeeps(k, p);
        EndLeaves(LeaveQueue(k, p).k, p);
        if k.procs[p].state.BlockedSemaphore? {
          KillWaiterCount(k, p);
        }
      }
    }
  }

  lemma KillWaiterCount(k: K, p: Pid)
    requires Inv(k) && p in k.procs && k.procs[p].state.BlockedSemaphore? && Removable(k, p)
    ensures k.sems[k.procs[p].semId].count < 0
  {
    WaitersKnown(k, k.procs[p].semId);
  }

  lemma WaitChildLeaves(k: K, c: int)
    requires Inv(k) && k.current != IDLE
    ensures WaitChild(k, c).sems == k.sems && WaitChild(k, c).queues == k.queues && Quiet(k, WaitChild(k, c))
  {
    hide MemberOf, SortedOf, SemsOk, MsgsOk, TreeOk, IdleOk, ProcsOk, Schedule;
    RunningUnlinked(k);
    if WaitCase(k, c).Blocks? {
      EnterKeeps(k, NoCall);
      var k0 := Enter(k, NoCall);
      WaitChildKeeps(k0);
      ScheduleLeaves(SetProc(k0, k.current, k0.procs[k.current].(state := BlockedWaitChild)));
    }
  }

  /** The entry a step makes in the ledger of semaphore id: a fresh count, or a difference. */
  datatype Entry = Fresh(count: int) | Change(delta: int)

  function LedgerEntry(k: K, e: Event, id: SemId): Entry {
    match e
    case OfMsg(_) => Change(0)
    case OfProc(c) => Change(if KillsWaiter(k, c) && k.procs[c.pid].semId == id then 1 else 0)
    case OfSem(c) =>
      if c.id != id then Change(0)
      else if id !in k.sems then (if c.CreateSem? then Fresh(c.count) else Change(0))
      else
        var n := k.sems[id].count;
        match c
        case ResetSemCall(_, count) => if count < 0 then Change(0) else Fresh(ToInt16(count))
        case WaitCall(_) => Change(if n == MIN_COUNT then 0 else -1)
        case TryWaitCall(_) => Change(if n <= 0 then 0 else -1)
        case SignalCall(_) => Change(if n == MAX_COUNT then 0 else 1)
        case SignalNCall(_, m) => Change(if m < 0 || n + m > MAX_COUNT then 0 else m)
        case _ => Change(0)
  }

  lemma StepLedger(k: K, e: Event, k': K, id: SemId)
    requires Step(k, e, k') && id in k'.sems
    ensures match LedgerEntry(k, e, id)
            case Fresh(n) => k'.sems[id].count == n
            case Change(d) => id in k.sems && k'.sems[id].count == k.sems[id].count + d
  {
    hide Inv, ProcNext, MsgNext, SemNext;
    match e
    case OfMsg(c) => MsgCallsLeaveSems(k, c);
    case OfProc(c) => ProcEffect(k, c);
    case OfSem(c) => SemEffect(k, c);
  }

  /** The count the ledger of a run shows for semaphore id. */
  ghost function Ledger(ks: seq<K>, es: seq<Event>, n: nat, id: SemId): int
    requires n <= |es| < |ks|
  {
    if n == 0 then 0
    else
      match LedgerEntry(ks[n - 1], es[n - 1], id)
      case Fresh(c) => c
      case Change(d) => Ledger(ks, es, n - 1, id) + d
  }

  /** Over every run: a semaphore's count is its last initial count, plus the signals, minus
      the waits and successful try_waits, plus the waiters killed; and the number of its
      waiters is max(0, -count). */
  lemma {:induction false} CountIsLedger(ks: seq<K>, es: seq<Event>, n: nat, id: SemId)
    requires IsRun(ks, es) && n < |ks| && id in ks[n].sems
    ensures ks[n].sems[id].count == Ledger(ks, es, n, id)
    ensures |ks[n].sems[id].waiters| == (if ks[n].sems[id].count < 0 then -ks[n].sems[id].count else 0)
  {
    hide Step, Inv, Boot;
    RunInv(ks, es, n);
    WaitersOf(ks[n], id);
    if n == 0 {
      BootHasNoSems(ks, es);
    } else {
      StepLedger(ks[n - 1], es[n - 1], ks[n], id);
      if LedgerEntry(ks[n - 1], es[n - 1], id).Change? {
        CountIsLedger(ks, es, n - 1, id);
      }
    }
  }

  lemma WaitersOf(k: K, id: SemId)
    requires Inv(k) && id in k.sems
    ensures |k.sems[id].waiters| == (if k.sems[id].count < 0 then -k.sems[id].count else 0)
  {
    WaitersKnown(k, id);
  }

  lemma BootHasNoSems(ks: seq<K>, es: seq<Event>)
    requires IsRun(ks, es)
    ensures ks[0].sems == map[]
  {
    hide Step;
  }
}
