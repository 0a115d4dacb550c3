/**
  The calls that keep the invariant are exactly the allowed ones: what each step does when
  nothing is asked of the caller, and when that leaves the books in order.
  */
module ExactSteps {
  import opened KernelState
  import opened KernelInvariant
  import opened MessageCalls
  import opened SemaphoreCalls
  import opened ProcessCalls
  import opened PriorityLaws
  import opened ChildLists
  import opened ProcessTree
  import opened KernelRuns
  import opened SleepTheorems
  import opened SemaphoreLaws

  // ----- exit -----

  /** Only processes that are ready are switched to, and only killed ones are freed. */
  ghost predicate Linked(procs: map<Pid, Proc>) {
    forall p :: p in procs ==>
      && (procs[p].link == LinkedIn(Ready) || procs[p].link == LinkedIn(Sleepers) ==> !Gone(procs[p]))
      && (procs[p].link == LinkedIn(Dead) ==> procs[p].state.Killed?)
  }

  lemma ChooseLineage(k: K)
    requires Member(k) && CurrentMayLeave(k) && Linked(k.procs)
    ensures Lineage(k.procs, Choose(k).procs)
  {
    hide MemberOf, SortedOf, Choose;
    Heads(k);
    var cur := k.procs[k.current];
    if k.lists[Ready] == [] {
      ChooseIdle(k);
    } else if cur.state.Actif? && (TopMember(k, Ready); k.procs[Top(k, Ready)].prio < cur.prio) {
      ChooseSame(k);
    } else {
      ChooseEffect(k, if cur.state.Actif? then cur.(state := Activatable, link := LinkedIn(Ready))
                      else if cur.state.Killed? then cur.(link := LinkedIn(Dead)) else cur);
    }
  }

  lemma ChooseSame(k: K)
    requires Member(k) && CurrentMayLeave(k) && Ready in k.lists && k.lists[Ready] != [] && Top(k, Ready) in k.procs
    requires k.procs[k.current].state.Actif? && k.procs[Top(k, Ready)].prio < k.procs[k.current].prio
    ensures Choose(k) == k
  {}

  lemma DispatchLineage(k: K)
    requires Member(k) && CurrentMayLeave(k) && Linked(k.procs)
    ensures Lineage(k.procs, Dispatch(k).procs)
  {
    hide MemberOf, SortedOf, Choose, Awake;
    AwakeProc(k, k.current);
    forall p
      ensures p in k.procs <==> p in Awake(k).procs
      ensures p in k.procs ==>
                var pr, pr' := k.procs[p], Awake(k).procs[p];
                pr' == pr || (pr.link == LinkedIn(Sleepers) && pr' == pr.(link := LinkedIn(Ready)))
    {
      AwakeProc(k, p);
    }
    FreeDeadKeeps(Awake(k));
    ChooseLineage(FreeDead(Awake(k)));
  }

  lemma EndLinked(k: K, p: Pid)
    requires Inv(k) && p == k.current && Endable(k, p)
    ensures Linked(EndProcess(k, p).procs)
  {
    hide MemberOf, SortedOf, SemsOk, MsgsOk, TreeOk, IdleOk, EndProcess;
    EndEffect(k, p);
  }

  /** The wake-up of the parent does not concern the tree. */
  lemma EndProcessTree(k: K, p: Pid)
    requires Endable(k, p)
    ensures ParentsOk(EndProcess(k, p).procs) <==> NoneLeft(k.procs, p)
  {
    hide MemberOf, SortedOf, FamilyOk, ParentsOk, EndProcess, EndProcs, NoneLeft;
    EndEffect(k, p);
    EndTree(k.procs, k.current, p);
    LineageParents(EndProcs(k.procs, k.current, p), EndProcess(k, p).procs);
  }

  lemma NoTree(k: K)
    requires !ParentsOk(k.procs)
    ensures !Inv(k)
  {}

  /** `exit` keeps the invariant if and only if no process freed by it has a child left, and
      no ended child of the caller has a freed process in its list. The walk over the lists
      meets a freed process exactly in the latter case. */
  lemma ExitExact(k: K)
    requires Inv(k) && k.current != IDLE
    ensures k.current in k.procs
    ensures var r := Exit(k);
            && (r.Done? && Inv(r.k) <==> EndSafe(k.procs, k.current))
            && (r.FreedChild? <==> !ListsWhole(k.procs, k.current))
            && !r.NotLinked? && !r.NoHead?
  {
    hide Inv, EndProcess, Dispatch, Endable, NoneLeft, ListsWhole, ParentsOk, Lineage, CurrentMayLeave, Linked;
    InvCurrent(k);
    ExitMayLeave(k);
    if ListsWhole(k.procs, k.current) && !NoneLeft(k.procs, k.current) {
      var k1 := EndProcess(k, k.current);
      EndProcessTree(k, k.current);
      EndLinked(k, k.current);
      DispatchLineage(k1);
      LineageParents(k1.procs, Dispatch(k1).procs);
      NoTree(Dispatch(k1));
    }
  }

  /** A process that has collected all its children by `waitpid` may end. */
  lemma AllCollected(k: K, p: Pid)
    requires Inv(k) && p in k.procs && k.procs[p].children == []
    ensures EndSafe(k.procs, p)
  {
    hide MemberOf, SortedOf, SemsOk, MsgsOk, IdleOk, ProcsOk, TreeOk;
    forall c | Heir(k.procs, c, p) ensures false { ChildListed(k.procs, k.births, p, c); }
    assert forall z :: ChildOf(k.procs, z, p) && k.procs[z].state.Zombie? ==> Heir(k.procs, z, p);
  }

  // ----- kill -----

  lemma WrongCount(k: K, id: SemId)
    requires id in k.sems && k.sems[id].count < 0 && |k.sems[id].waiters| != -k.sems[id].count
    ensures !Inv(k)
  {
    if Inv(k) { WaitersKnown(k, id); assert false; }
  }

  lemma ZeroCount(k: K, id: SemId)
    requires id in k.sems && k.sems[id].count == 0 && k.sems[id].waiters != []
    ensures !Inv(k)
  {
    if Inv(k) { WaitersKnown(k, id); assert false; }
  }

  lemma KilledInsideBreaks(k: K, p: Pid)
    requires Inv(k) && KillAccepts(k, p) && p != k.current && k.procs[p].state.BlockedSemaphore? && !Removable(k, p)
    ensures LeaveQueue(k, p).Done? && Endable(LeaveQueue(k, p).k, p) && !Inv(EndProcess(LeaveQueue(k, p).k, p))
  {
    hide MemberOf, SortedOf, SemsOk, MsgsOk, TreeOk, IdleOk, ProcsOk, LeaveQueue, EndProcess, Endable;
    var id := k.procs[p].semId;
    WaiterListed(k, p);
    WaitersKnown(k, id);
    KillWaiterExact(k, p);
    LeaveEndable(k, p);
    var k1 := LeaveQueue(k, p).k;
    EndEffect(k1, p);
    var k2 := EndProcess(k1, p);
    if k2.sems[id].count == 0 { ZeroCount(k2, id); } else { WrongCount(k2, id); }
  }

  /** `kill` keeps the invariant if and only if the process is not in the middle of the
      waiters of a semaphore, does not wait for a child, leaves no child behind, and has no
      ended child with a freed process in its list. Killing a process that waits for a
      child, and only that, fails the assertion of `queue_del`; the walk meets a freed
      process exactly if there is one to meet. */
  lemma KillExact(k: K, p: Pid)
    requires Inv(k) && k.current != IDLE
    ensures var r := Kill(k, p);
            && (r.Done? && Inv(r.k) <==> KillSafe(k, p))
            && (r.NotLinked? <==> KillAccepts(k, p) && p != k.current && k.procs[p].state.BlockedWaitChild?)
            && (r.FreedChild? <==> KillAccepts(k, p) && !r.NotLinked? && !ListsWhole(k.procs, p))
            && !r.NoHead?
  {
    hide Inv, EndProcess, Endable, NoneLeft, ListsWhole, ParentsOk, Exit, LeaveQueue, SameFate;
    if KillAccepts(k, p) {
      if p == k.current {
        ExitExact(k);
      } else {
        InvCurrent(k);
        LeaveEndable(k, p);
        if LeaveQueue(k, p).Done? {
          var k1 := LeaveQueue(k, p).k;
          FateLists(k.procs, k1.procs, p);
          if !KillSafe(k, p) && ListsWhole(k.procs, p) {
            if !Removable(k, p) {
              KilledInsideBreaks(k, p);
            } else {
              FateEnd(k.procs, k1.procs, p);
              EndProcessTree(k1, p);
              NoTree(EndProcess(k1, p));
            }
          }
        }
      }
    }
  }

  // ----- every step -----

  /** What the kernel's own entry checks and allocators give: the idle process makes no
      calls, identifiers handed out are unused, arguments of `start` and `screate` are in
      range. */
  predicate Callable(k: K, e: Event) {
    match e
    case OfProc(c) => (c.Interrupt? || k.current != IDLE) && (c.StartCall? ==> c.pid !in k.procs && MIN_PRIO <= c.prio <= MAX_PRIO)
    case OfMsg(_) => k.current != IDLE
    case OfSem(c) => k.current != IDLE && (c.CreateSem? ==> c.id !in k.sems && c.count <= MAX_COUNT)
  }

  function ProcOutcome(k: K, c: ProcCall): Outcome
    requires Inv(k) && Callable(k, OfProc(c))
  {
    match c
    case Interrupt(key) => Done(if key then KeyPress(k) else Tick(k))
    case StartCall(p, prio, junk) => Done(Start(k, p, prio, junk))
    case ExitCall => Exit(k)
    case KillCall(p) => Kill(k, p)
    case WaitChildCall(p) => Done(WaitChild(k, p))
    case ChPrioCall(p, prio) => ChPrio(k, p, prio)
    case WaitClockCall(d) => Done(WaitClock(k, d))
    case ConsReadCall => Done(ConsWait(k))
  }

  /** What any such event comes to. */
  function Next(k: K, e: Event): Outcome
    requires Inv(k) && Callable(k, e)
  {
    match e
    case OfProc(c) => ProcOutcome(k, c)
    case OfMsg(c) => Done(MsgNext(k, c))
    case OfSem(c) => if c.ResetSemCall? then Done(SReset(k, c.id, c.count)) else Done(SemNext(k, c))
  }

  lemma WaitChildExact(k: K, c: int)
    requires Inv(k) && k.current != IDLE
    ensures Inv(WaitChild(k, c)) <==> WaitSafe(k, c)
  {
    hide Inv, Schedule, WaitCase, Reap, Childless;
    if WaitCase(k, c).Collects? {
      OwnChildren(k);
      WaitExact(k, WaitCase(k, c).i);
    }
  }

  lemma ProcExact(k: K, c: ProcCall)
    requires Inv(k) && Callable(k, OfProc(c))
    ensures var r := ProcOutcome(k, c); r.Done? && Inv(r.k) <==> ProcAllowed(k, c)
  {
    hide Inv, Exit, Kill, WaitChild, ChPrio, WaitClock, Start, ConsWait, KeyPress, Tick, EndSafe, KillSafe, WaitSafe, ChPrioSafe;
    match c {
      case ExitCall => InvCurrent(k); ExitExact(k);
      case KillCall(p) => KillExact(k, p);
      case WaitChildCall(p) => WaitChildExact(k, p);
      case ChPrioCall(p, prio) => if ChPrioAccepts(k, p, prio) { ChPrioExact(k, p, prio); } else { ChPrioRefused(k, p, prio); }
      case WaitClockCall(d) => WaitClockExact(k, d);
      case _ => ProcAlways(k, c);
    }
  }

  lemma ChPrioRefused(k: K, p: Pid, prio: int)
    requires Inv(k) && !ChPrioAccepts(k, p, prio)
    ensures ChPrio(k, p, prio) == Done(k)
  {}

  lemma ProcAlways(k: K, c: ProcCall)
    requires Inv(k) && Callable(k, OfProc(c)) && (c.Interrupt? || c.StartCall? || c.ConsReadCall?)
    ensures ProcOutcome(k, c).Done? && Inv(ProcOutcome(k, c).k)
  {}

  lemma SemExact(k: K, c: SemCall)
    requires Inv(k) && Callable(k, OfSem(c))
    ensures Next(k, OfSem(c)).Done? && (Inv(Next(k, OfSem(c)).k) <==> SemAllowed(k, c))
  {
    hide Inv, SReset, SemNext;
    if c.ResetSemCall? {
      if c.id in k.sems && c.count >= 0 { ResetExact(k, c.id, c.count); }
      ResetSafe(k, c.id, c.count);
    } else {
      SemKeeps(k, c);
    }
  }

  lemma ResetSafe(k: K, id: SemId, n: int)
    requires Inv(k)
    ensures id !in k.sems || n < 0 || ToInt16(n) >= 0 ==> Inv(SReset(k, id, n))
  {}

  lemma SemKeeps(k: K, c: SemCall)
    requires Inv(k) && SemAllowed(k, c)
    ensures Inv(SemNext(k, c))
  {}

  /** Every event leads to a state that satisfies the invariant if and only if the runs of
      `KernelRuns` allow it there, and then it is a step of them. */
  lemma StepExact(k: K, e: Event)
    requires Inv(k) && Callable(k, e)
    ensures var r := Next(k, e);
            && (r.Done? && Inv(r.k) <==> Allowed(k, e))
            && (Allowed(k, e) ==> KernelRuns.Step(k, e, r.k))
  {
    hide Inv, ProcAllowed, SemAllowed, MsgNext, ProcOutcome, SemNext;
    match e {
      case OfProc(c) => ProcExact(k, c); ProcSame(k, c);
      case OfMsg(c) => MsgAlways(k, c);
      case OfSem(c) => SemExact(k, c); SemSame(k, c);
    }
  }

  lemma MsgAlways(k: K, c: MsgCall)
    requires Inv(k) && k.current != IDLE
    ensures Inv(MsgNext(k, c))
  {}

  lemma ProcSame(k: K, c: ProcCall)
    requires Inv(k) && Callable(k, OfProc(c))
    ensures ProcAllowed(k, c) ==> ProcNext(k, c) == ProcOutcome(k, c).k
  {
    hide Inv, Exit, Kill, WaitChild, ChPrio, WaitClock, Start, ConsWait, KeyPress, Tick, EndSafe, KillSafe, WaitSafe, ChPrioSafe;
  }

  lemma SemSame(k: K, c: SemCall)
    requires Inv(k) && Callable(k, OfSem(c))
    ensures SemAllowed(k, c) ==> SemNext(k, c) == Next(k, OfSem(c)).k
  {
    hide Inv, SReset, SWait, SCreate, SDelete, SSignal, SSignalN, STryWait;
  }
}
