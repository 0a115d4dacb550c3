/**
  What the calls on processes do, in terms of the fields and lists before and after: which
  process blocks where, who becomes ready, and what is written. Together with the invariant
  these statements leave no choice to the calls but who of the ready processes runs, which
  is `SchedulerTheorems`.
  */
module CallEffects {
  import opened Common
  import opened PriorityOrder
  import opened KernelState
  import opened KernelInvariant
  import opened KernelMoves
  import opened MessageCalls
  import opened SemaphoreCalls
  import opened ProcessCalls
  import opened PriorityLaws
  import opened ChildLists
  import opened ProcessTree
  import opened SchedulerTheorems
  import opened SemaphoreTheorems
  import opened SchedulerMoves

  // ----- console -----

  /** A key press makes the reader of highest priority ready, and only that one. */
  lemma KeyPressEffect(k: K)
    requires Inv(k)
    ensures Io in k.lists && Io in KeyPress(k).lists
    ensures k.lists[Io] == [] ==> KeyPress(k) == k
    ensures Resumed(KeyPress(k), k.current)
    ensures k.lists[Io] != [] ==>
              var s, k' := k.lists[Io], KeyPress(k);
              var p := s[|s| - 1];
              && Resumed(k', p) && k'.lists[Io] == s[..|s| - 1]
              && (forall q :: q in s ==> q in k.procs && k.procs[q].prio <= k.procs[p].prio)
  {
    hide MemberOf, SortedOf, SemsOk, MsgsOk, TreeOk, IdleOk, ProcsOk, Schedule, Release;
    Heads(k);
    RunningUnlinked(k);
    if k.lists[Io] != [] {
      KeyPressKeeps(k);
      TopMember(k, Io);
      var s := k.lists[Io];
      var p := Top(k, Io);
      var pr := k.procs[p].(link := Unlinked, state := Activatable);
      ReleaseEffect(k, p, pr);
      IoDistinct(k);
      LastIndex(s);
      var k1 := Release(k, p, pr);
      RunningUnlinked(k);
      ScheduleMoves(k1, p);
      ScheduleMoves(k1, k.current);
      ScheduleLists(k1, Io);
      forall q | q in s ensures q in k.procs && k.procs[q].prio <= k.procs[p].prio { TopIsMax(k, Io, q); }
    }
  }

  lemma IoDistinct(k: K)
    requires Member(k) && Io in k.lists
    ensures Distinct(k.lists[Io])
  {
    assert Holds(k.procs, Io, k.lists[Io]);
  }

  /** A reader without input waits among the readers, in order of priority, and somebody
      else runs. */
  lemma ConsReadEffect(k: K)
    requires Inv(k) && k.current != IDLE
    ensures Io in k.lists && k.current in k.procs && (forall i :: 0 <= i < |k.lists[Io]| ==> k.lists[Io][i] in k.procs)
    ensures var p, k' := k.current, ConsWait(k);
            && p in k'.procs && k'.procs[p].state.BlockedIo? && k'.procs[p].link == LinkedIn(Io) && k'.current != p
            && Io in k'.lists && k'.lists[Io] == InsertAt(k.lists[Io], Rank(Keys(k.procs, Io, k.lists[Io]), k.procs[p].prio), p)
  {
    hide MemberOf, SortedOf, SemsOk, MsgsOk, TreeOk, IdleOk, ProcsOk, Schedule;
    RunningUnlinked(k);
    ConsWaitKeeps(k);
    IoMembers(k);
    var pr := k.procs[k.current].(state := BlockedIo, call := NoCall, release := Immediate);
    var k1 := Block(k, Io, pr);
    BlockEffect(k, Io, pr);
    BlockList(k, Io, pr);
    ScheduleMoves(k1, k.current);
    ScheduleLists(k1, Io);
  }

  lemma IoMembers(k: K)
    requires Inv(k)
    ensures Io in k.lists && forall i :: 0 <= i < |k.lists[Io]| ==> k.lists[Io][i] in k.procs && k.lists[Io][i] != k.current
  {
    assert Holds(k.procs, Io, k.lists[Io]);
  }

  /** Where the blocking process is put. */
  lemma BlockList(k: K, l: ListId, pr: Proc)
    requires Member(k) && l in k.lists && k.current in k.procs
    requires k.procs[k.current].link.Unlinked? && pr.link.Unlinked?
    requires forall i :: 0 <= i < |k.lists[l]| ==> k.lists[l][i] in k.procs && k.lists[l][i] != k.current
    ensures l in Block(k, l, pr).lists
    ensures Block(k, l, pr).lists[l] == InsertAt(k.lists[l], Rank(Keys(k.procs, l, k.lists[l]), Key(l, pr)), k.current)
  {
    hide MemberOf, SortedOf;
    var k1 := Write(k, k.current, pr);
    KeysFrame(k.procs, k1.procs, l, k.lists[l]);
  }

  // ----- wait_clock -----

  /** The caller sleeps, to be woken when the clock has passed the present time plus the
      delay, and somebody else runs. */
  lemma WaitClockEffect(k: K, d: nat)
    requires Inv(k) && k.current != IDLE && k.clock + d != 0
    ensures var p, k' := k.current, WaitClock(k, d);
            && p in k'.procs && k'.procs[p].state.Asleep? && k'.procs[p].link == LinkedIn(Sleepers)
            && -k'.procs[p].wakeTime == k.clock + d && k'.clock == k.clock && k'.current != p
  {
    hide MemberOf, SortedOf, SemsOk, MsgsOk, TreeOk, IdleOk, ProcsOk, Dispatch, Block;
    RunningUnlinked(k);
    SleepKeeps(k, d);
    var k1 := Block(k, Sleepers, Sleeping(k, d));
    BlockEffect(k, Sleepers, Sleeping(k, d));
    ScheduleMoves(k1, k.current);
    ScheduleLeaves(k1);
  }

  // ----- start -----

  /** The new process is ready or running at the priority asked for, the last child of the
      caller; it is scheduled at once if and only if it is above the caller. */
  lemma StartEffect(k: K, p: Pid, prio: int, junk: Message)
    requires Inv(k) && p !in k.procs && MIN_PRIO <= prio <= MAX_PRIO
    ensures var c, k' := k.current, Start(k, p, prio, junk);
            && c in k.procs && Resumed(k', p) && Resumed(k', c)
            && k'.procs[p].prio == prio && k'.procs[p].parent == Some(c) && k'.procs[p].children == []
            && k'.procs[c].children == k.procs[c].children + [Child(p, k'.procs[p].born)]
            && (forall q :: q in k.procs && k.procs[q].link != LinkedIn(Dead) ==> q in k'.procs && k'.procs[q].prio == k.procs[q].prio)
            && (prio <= k.procs[c].prio ==> k'.current == c)
            && (prio > k.procs[c].prio ==> k'.current in k'.procs && k'.procs[k'.current].prio >= prio)
  {
    hide MemberOf, SortedOf, SemsOk, MsgsOk, TreeOk, IdleOk, ProcsOk, Schedule;
    RunningUnlinked(k);
    EnterKeeps(k, NoCall);
    var k0 := Enter(k, NoCall);
    SpawnKeeps(k0, p, prio, junk);
    var k1 := Spawn(k0, p, prio, junk);
    Heads(k0);
    BornMember(k0, p, prio, junk);
    RunningUnlinked(k1);
    if k.procs[k.current].prio < prio {
      ScheduleMoves(k1, p);
      ScheduleMoves(k1, k.current);
      ScheduleLeaves(k1);
      Highest(k1, p);
    }
  }

  /** No process that is ready or running is above the one that runs. */
  lemma Highest(k: K, p: Pid)
    requires Mid(k) && Resumed(Schedule(k), p)
    ensures var r := Schedule(k); r.current in r.procs && r.procs[p].prio <= r.procs[r.current].prio
  {
    hide MemberOf, SortedOf, SemsOk, MsgsOk, TreeOk, IdleOk, ProcsOk, Schedule;
    var r := Schedule(k);
    RunningUnlinked(r);
    if p != r.current {
      Heads(r);
      ListHas(r, Ready, p);
      RunningIsHighest(k, p);
    }
  }

  // ----- chprio -----

  lemma ChPrioWriteEffect(k: K, p: Pid, prio: int)
    requires Inv(k) && p in k.procs && ChPrioWrite(k, p, prio).Done?
    ensures var k' := ChPrioWrite(k, p, prio).k;
            && k'.procs.Keys == k.procs.Keys && k'.procs[p].prio == prio && k'.procs[p].state == k.procs[p].state && k'.current == k.current
            && (!Stale(k.procs[p]) ==> k'.procs[p].link == k.procs[p].link)
            && (forall q :: q in k.procs && q != p ==> k'.procs[q] == k.procs[q])
  {
    hide MemberOf, SortedOf, SemsOk, MsgsOk, TreeOk, IdleOk, ProcsOk, Requeue;
    FieldKnown(k, p);
    Heads(k);
    if k.procs[p].link.LinkedIn? {
      match k.procs[p].state {
        case Activatable => RequeueWrites(k, p, Ready, prio);
        case BlockedQueue => RequeueWrites(k, p, k.procs[p].message.blockedHead, prio);
        case BlockedIo => RequeueWrites(k, p, Io, prio);
        case _ =>
      }
    }
  }

  lemma RequeueWrites(k: K, p: Pid, l: ListId, prio: int)
    requires Member(k) && p in k.procs && k.procs[p].link.LinkedIn? && l in k.lists
    ensures var r := Requeue(k, p, l, prio);
            r.procs == k.procs[p := k.procs[p].(prio := prio, link := LinkedIn(l))] && r.current == k.current
  {
    hide MemberOf, SortedOf;
  }

  /** The process has the new priority, whatever its state, and no other process has; it is
      linked as before, and if it was ready or running it is so still, and nobody who is
      ready is above the one that runs. */
  lemma ChPrioEffect(k: K, p: Pid, prio: int)
    requires Inv(k) && ChPrioAccepts(k, p, prio) && ChPrio(k, p, prio).Done?
    ensures var k' := ChPrio(k, p, prio).k;
            && p in k'.procs && k'.procs[p].prio == prio && Resumed(k', k.current)
            && (forall q :: q in k'.procs && q != p ==> q in k.procs && k'.procs[q].prio == k.procs[q].prio)
            && (forall q :: q in k.procs && k.procs[q].link != LinkedIn(Dead) ==> q in k'.procs)
            && (k.procs[p].state.Activatable? || k.procs[p].state.Actif? ==>
                  Resumed(k', p) && k'.current in k'.procs && k'.procs[p].prio <= k'.procs[k'.current].prio)
            && (!k.procs[p].state.Activatable? && !k.procs[p].state.Actif? && !Stale(k.procs[p]) ==>
                  k'.procs[p].link == k.procs[p].link && k'.procs[p].state == k.procs[p].state && k'.current == k.current)
  {
    hide MemberOf, SortedOf, SemsOk, MsgsOk, TreeOk, IdleOk, ProcsOk, Schedule, ChPrioWrite;
    FieldKnown(k, p);
    if k.procs[p].state.Activatable? || k.procs[p].state.Actif? {
      ChPrioWriteKeeps(k, p, prio);
      ChPrioWriteEffect(k, p, prio);
      var k1 := ChPrioWrite(k, p, prio).k;
      RunningUnlinked(k1);
      ScheduleMoves(k1, p);
      ScheduleMoves(k1, k1.current);
      ScheduleLeaves(k1);
      Highest(k1, p);
    } else {
      RunningUnlinked(k);
      ChPrioWriteEffect(k, p, prio);
    }
  }

  // ----- waitpid -----

  /** The state of the i-th child of the running process. */
  function ChildState(k: K, i: nat): PState
    requires Inv(k) && k.current in k.procs && i < |k.procs[k.current].children|
  {
    OwnChildren(k);
    k.procs[k.procs[k.current].children[i].pid].state
  }

  lemma {:induction false} SoughtFirst(procs: map<Pid, Proc>, es: seq<Child>, c: int, i: nat)
    requires i <= |es| && forall j :: 0 <= j < |es| ==> es[j].pid in procs
    ensures var r := Sought(procs, es, c, i);
            && (forall j :: i <= j < r ==> if c < 0 then !procs[es[j].pid].state.Zombie? else es[j].pid != c)
            && (r < |es| ==> if c < 0 then procs[es[r].pid].state.Zombie? else es[r].pid == c)
    decreases |es| - i
  {
    if i < |es| { SoughtFirst(procs, es, c, i + 1); }
  }

  /** `waitpid(-1)` collects the first child that has ended, if there is one; without
      children it fails, and otherwise the caller waits. */
  lemma WaitAny(k: K, c: int)
    requires Inv(k) && c < 0
    ensures k.current in k.procs
    ensures var es, w := k.procs[k.current].children, WaitCase(k, c);
            && (w.Collects? <==> exists i :: 0 <= i < |es| && ChildState(k, i).Zombie?)
            && (w.Collects? ==> w.i < |es| && ChildState(k, w.i).Zombie? && forall j :: 0 <= j < w.i ==> !ChildState(k, j).Zombie?)
            && (w.NoSuchChild? <==> es == [])
  {
    hide MemberOf, SortedOf, SemsOk, MsgsOk, TreeOk, IdleOk, ProcsOk;
    OwnChildren(k);
    var es := k.procs[k.current].children;
    SoughtFirst(k.procs, es, c, 0);
    var r := Sought(k.procs, es, c, 0);
    if r < |es| {
      assert ChildState(k, r).Zombie?;
    } else {
      forall i | 0 <= i < |es| ensures !ChildState(k, i).Zombie? {}
    }
  }

  /** `waitpid` of one pid: it fails if no child has it, collects that child if it has
      ended, and otherwise the caller waits. */
  lemma WaitOne(k: K, c: int)
    requires Inv(k) && c >= 0
    ensures k.current in k.procs
    ensures var es, w := k.procs[k.current].children, WaitCase(k, c);
            && (w.NoSuchChild? <==> forall i :: 0 <= i < |es| ==> es[i].pid != c)
            && (w.Collects? <==> exists i :: 0 <= i < |es| && es[i].pid == c && ChildState(k, i).Zombie?)
            && (w.Collects? ==> w.i < |es| && es[w.i].pid == c)
  {
    hide MemberOf, SortedOf, SemsOk, MsgsOk, TreeOk, IdleOk, ProcsOk;
    OwnChildren(k);
    SoughtFirst(k.procs, k.procs[k.current].children, c, 0);
    var es := k.procs[k.current].children;
    assert forall i, j :: 0 <= i < |es| && 0 <= j < |es| && es[i].pid == es[j].pid ==> ChildState(k, i) == ChildState(k, j);
  }

  /** The child collected is gone from table and list, and nothing else has changed; a caller
      that waits is in no list, and somebody else runs. */
  lemma WaitChildEffect(k: K, c: int)
    requires Inv(k) && k.current != IDLE
    ensures k.current in k.procs
    ensures var p, k' := k.current, WaitChild(k, c);
            match WaitCase(k, c)
            case NoSuchChild => k' == k
            case Collects(i) =>
              && i < |k.procs[p].children| && k'.procs.Keys == k.procs.Keys - {k.procs[p].children[i].pid} && p in k'.procs
              && k'.procs[p].children == k.procs[p].children[..i] + k.procs[p].children[i + 1..]
              && (forall q :: q in k'.procs && q != p ==> k'.procs[q] == k.procs[q])
              && k'.current == p && k'.lists == k.lists
            case Blocks =>
              p in k'.procs && k'.procs[p].state.BlockedWaitChild? && k'.procs[p].link.Unlinked? && k'.current != p
  {
    hide MemberOf, SortedOf, SemsOk, MsgsOk, TreeOk, IdleOk, ProcsOk, Schedule;
    RunningUnlinked(k);
    OwnChildren(k);
    EnterKeeps(k, NoCall);
    var k0 := Enter(k, NoCall);
    match WaitCase(k, c) {
      case Collects(i) =>
        var es := k.procs[k.current].children;
        assert RemoveAt(es, i) == es[..i] + es[i + 1..];
      case Blocks =>
        WaitChildKeeps(k0);
        var k1 := SetProc(k0, k.current, k0.procs[k.current].(state := BlockedWaitChild));
        ScheduleMoves(k1, k.current);
      case _ =>
    }
  }

  /** What `waitpid` answers, by the children of the caller: nothing while it waits. */
  ghost predicate WaitAnswer(k: K, c: int, r: Option<int>)
    requires Inv(k) && k.current in k.procs
  {
    var es := k.procs[k.current].children;
    if c < 0 then
      if es == [] then r == Some(-1)
      else
        && (r.None? <==> forall i :: 0 <= i < |es| ==> !ChildState(k, i).Zombie?)
        && (r.Some? ==> exists i :: 0 <= i < |es| && r.value == es[i].pid && ChildState(k, i).Zombie?
                                    && forall j :: 0 <= j < i ==> !ChildState(k, j).Zombie?)
    else
      && ((forall i :: 0 <= i < |es| ==> es[i].pid != c) ==> r == Some(-1))
      && (forall i :: 0 <= i < |es| && es[i].pid == c ==> r == if ChildState(k, i).Zombie? then Some(c) else None)
  }

  /** The value `waitpid` returns, in its own terms. */
  function Answer(k: K, c: int): Option<int>
    requires Inv(k)
  {
    match WaitCase(k, c)
    case NoSuchChild => Some(-1)
    case Blocks => None
    case Collects(i) => Some(k.procs[k.current].children[i].pid)
  }

  lemma WaitAnswers(k: K, c: int)
    requires Inv(k)
    ensures k.current in k.procs && WaitAnswer(k, c, Answer(k, c))
  {
    hide Inv;
    if c < 0 { WaitAny(k, c); } else { WaitOne(k, c); SameChild(k); }
  }

  lemma SameChild(k: K)
    requires Inv(k) && k.current in k.procs
    ensures var es := k.procs[k.current].children;
            forall i, j :: 0 <= i < |es| && 0 <= j < |es| && es[i].pid == es[j].pid ==> ChildState(k, i) == ChildState(k, j)
  {
    hide Inv;
    OwnChildren(k);
  }

  // ----- exit and kill -----

  /** The process has a parent that has not ended. */
  predicate HasParent(procs: map<Pid, Proc>, p: Pid)
    requires p in procs
  {
    procs[p].parent.Some? && procs[p].parent.value in procs && !procs[procs[p].parent.value].state.Zombie?
  }

  /** After the end of p: p itself, its ended children, its parent, and all others. */
  lemma EndOutcome(k: K, p: Pid)
    requires Endable(k, p)
    ensures var k' := EndProcess(k, p);
            && k'.current == k.current
            && (if HasParent(k.procs, p) then p in k'.procs && k'.procs[p].state.Zombie? && k'.procs[p].link.Unlinked?
                else if p == k.current then p in k'.procs && k'.procs[p].state.Killed? && k'.procs[p].link.Unlinked?
                else p !in k'.procs)
            && (forall c :: c in k.procs && c != p && k.procs[c].parent == Some(p) && k.procs[c].state.Zombie? ==> c !in k'.procs)
            && (forall q :: q in k.procs && q != p && k.procs[p].parent == Some(q) && k.procs[q].state.BlockedWaitChild? ==>
                  q in k'.procs && k'.procs[q].state.Activatable? && k'.procs[q].link == LinkedIn(Ready))
            && (forall q :: q in k.procs && q != p && !(k.procs[q].parent == Some(p) && k.procs[q].state.Zombie?)
                            && !(k.procs[p].parent == Some(q) && k.procs[q].state.BlockedWaitChild?) ==>
                  q in k'.procs && k'.procs[q] == k.procs[q])
  {
    hide MemberOf, SortedOf, TreeOk, EndProcess;
    EndEffect(k, p);
  }

  /** `exit`: the caller is a zombie for its parent to collect, or dead if it has none that
      could; a parent that waits for a child is ready or running, whichever child it waits
      for; ended children are gone. */
  lemma ExitEffect(k: K)
    requires Inv(k) && k.current != IDLE && k.current in k.procs && EndSafe(k.procs, k.current)
    ensures Exit(k).Done?
    ensures var p, k' := k.current, Exit(k).k;
            && k'.current != p && p in k'.procs
            && (if HasParent(k.procs, p) then k'.procs[p].state.Zombie? && k'.procs[p].link.Unlinked?
                else k'.procs[p].state.Killed? && k'.procs[p].link == LinkedIn(Dead))
            && (forall c :: c in k.procs && c != p && k.procs[c].parent == Some(p) && k.procs[c].state.Zombie? ==> c !in k'.procs)
            && (forall q :: q in k.procs && q != p && k.procs[p].parent == Some(q) && k.procs[q].state.BlockedWaitChild? ==> Resumed(k', q))
  {
    hide MemberOf, SortedOf, SemsOk, MsgsOk, TreeOk, IdleOk, ProcsOk, EndProcess, Dispatch, NoneLeft, ListsWhole, Endable;
    ExitReady(k);
    EndProcessKeeps(k, k.current);
    EndOutcome(k, k.current);
    var k1 := EndProcess(k, k.current);
    ScheduleMoves(k1, k.current);
    ScheduleLeaves(k1);
    forall q | q in k.procs && q != k.current && k.procs[k.current].parent == Some(q) && k.procs[q].state.BlockedWaitChild?
      ensures Resumed(Schedule(k1), q)
    {
      ScheduleMoves(k1, q);
    }
  }

  /** `kill` of another process: the same, and it is in no list and waits for no semaphore. */
  lemma KillEnds(k: K, p: Pid)
    requires Inv(k) && k.current != IDLE && KillAccepts(k, p) && p != k.current && KillSafe(k, p)
    ensures Kill(k, p).Done?
    ensures var k' := Kill(k, p).k;
            && k'.current == k.current
            && (if HasParent(k.procs, p) then p in k'.procs && k'.procs[p].state.Zombie? && k'.procs[p].link.Unlinked? else p !in k'.procs)
            && (forall c :: c in k.procs && c != p && k.procs[c].parent == Some(p) && k.procs[c].state.Zombie? ==> c !in k'.procs)
            && (forall q :: q in k.procs && q != p && k.procs[p].parent == Some(q) && k.procs[q].state.BlockedWaitChild? ==> Resumed(k', q))
            && (forall l, i :: l in k'.lists && 0 <= i < |k'.lists[l]| ==> k'.lists[l][i] != p)
            && (forall id, i :: id in k'.sems && 0 <= i < |k'.sems[id].waiters| ==> k'.sems[id].waiters[i] != p)
  {
    hide MemberOf, SortedOf, SemsOk, MsgsOk, TreeOk, IdleOk, ProcsOk, EndProcess, NoneLeft, ListsWhole, Endable, SameFate, LeaveQueue;
    InvCurrent(k);
    LeaveEndable(k, p);
    KillKeeps(k, p);
    var k1 := LeaveQueue(k, p).k;
    EndOutcome(k1, p);
    LeaveSame(k, p);
    forall q | q in k.procs && q != p && k.procs[p].parent == Some(q) && k.procs[q].state.BlockedWaitChild?
      ensures Resumed(Kill(k, p).k, q)
    {
      assert q in k1.procs && k1.procs[p].parent == Some(q) && k1.procs[q].state.BlockedWaitChild?;
    }
    Nowhere(Kill(k, p).k, p);
  }

  /** Leaving the queue concerns the process itself. */
  lemma LeaveSame(k: K, p: Pid)
    requires Inv(k) && KillAccepts(k, p) && p != k.current && Removable(k, p)
    ensures LeaveQueue(k, p).Done?
    ensures var k1 := LeaveQueue(k, p).k;
            k1.procs.Keys == k.procs.Keys && k1.current == k.current && k1.procs[p].parent == k.procs[p].parent
            && forall q :: q in k.procs && q != p ==> k1.procs[q] == k.procs[q]
  {
    hide MemberOf, SortedOf, SemsOk, MsgsOk, TreeOk, IdleOk, ProcsOk, KilledWaiter, KillWaiter;
    LeaveQueueKeeps(k, p);
    if k.procs[p].state.BlockedSemaphore? {
      WaiterListed(k, p);
      WaitersKnown(k, k.procs[p].semId);
      KilledAtAnEnd(k.sems[k.procs[p].semId].waiters, p);
      var hit := KillWaiterFate(k, p);
    }
  }

  /** A process that has ended, or is no process, is nowhere. */
  lemma Nowhere(k: K, p: Pid)
    requires Inv(k) && (p !in k.procs || (k.procs[p].state.Zombie? && k.procs[p].link.Unlinked?))
    ensures forall l, i :: l in k.lists && 0 <= i < |k.lists[l]| ==> k.lists[l][i] != p
    ensures forall id, i :: id in k.sems && 0 <= i < |k.sems[id].waiters| ==> k.sems[id].waiters[i] != p
  {
    forall l, i | l in k.lists && 0 <= i < |k.lists[l]| ensures k.lists[l][i] != p { assert Holds(k.procs, l, k.lists[l]); }
    forall id, i | id in k.sems && 0 <= i < |k.sems[id].waiters| ensures k.sems[id].waiters[i] != p { assert SemOk(k.procs, id, k.sems[id]); }
  }
}
