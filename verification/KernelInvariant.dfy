/**
  What every system call keeps, and its proof for `scheduler()`.
  */
module KernelInvariant {
  import opened Common
  import opened MessageRing
  import opened KernelState

  /** Which list a process may be linked in, by its state field. The field is stale
      for a sleeper that has been woken, and for a producer released by a
      rendezvous, until they run. */
  predicate StateLink(pr: Proc) {
    match pr.state
    case Actif => false
    case Activatable => pr.link == LinkedIn(Ready)
    case BlockedSemaphore => pr.link.Unlinked?
    case BlockedIo => pr.link == LinkedIn(Io)
    case BlockedQueue =>
      && pr.link.LinkedIn?
      && (pr.link.list.Ready? || pr.link.list.Consumers? || pr.link.list.Producers?)
      && (pr.message.blockedHead.Consumers? || pr.message.blockedHead.Producers?)
      && (!pr.link.list.Ready? ==> pr.message.blockedHead == pr.link.list)
    case BlockedWaitChild => pr.link.Unlinked?
    case Asleep => pr.link == LinkedIn(Ready) || (pr.link == LinkedIn(Sleepers) && pr.wakeTime < 0)
    case Zombie => pr.link.Unlinked?
    case Killed => pr.link == LinkedIn(Dead)
  }

  /** The process waits inside a semaphore or message-queue call. */
  predicate Waiting(pr: Proc) {
    pr.state.BlockedSemaphore? || (pr.link.LinkedIn? && (pr.link.list.Consumers? || pr.link.list.Producers?))
  }

  /** The fields a blocked call will read agree with what released it. */
  predicate CallOk(pr: Proc) {
    && (pr.release.Pending? <==> Waiting(pr))
    && (pr.state.BlockedSemaphore? ==> pr.call == InWait(pr.semId))
    && (pr.link.LinkedIn? && pr.link.list.Consumers? ==> pr.call == InReceive)
    && (pr.link.LinkedIn? && pr.link.list.Producers? ==> pr.call == InSend(pr.message.value))
    && (pr.call.InWait? && !pr.release.Pending? ==>
          match pr.release
          case Immediate => pr.semSignal == SIGNAL_CALL
          case Refused => true
          case Signalled => pr.semSignal == SIGNAL_CALL
          case SemDeleted => pr.semSignal == SDELETE_CALL
          case SemReset => pr.semSignal == SRESET_CALL
          case _ => false)
    && (pr.call.InSend? && !pr.release.Pending? ==>
          match pr.release
          case Immediate => true
          case Transferred(v) => pr.message.status.Sent? && v == pr.call.sent
          case QueueReset => pr.message.status.Error?
          case _ => false)
    && (pr.call.InReceive? && !pr.release.Pending? ==>
          match pr.release
          case Immediate => true
          case Transferred(v) => pr.message.status.Received? && v == pr.message.value
          case QueueReset => pr.message.status.Error?
          case _ => false)
  }

  predicate ProcOk(pr: Proc) {
    StateLink(pr) && CallOk(pr)
  }

  /** The running process, possibly after it has blocked, ended or been killed by its own call. */
  predicate RunningOk(pr: Proc) {
    CallOk(pr) && ((StateLink(pr) && !pr.state.Killed?) || ((pr.state.Actif? || pr.state.Killed?) && pr.link.Unlinked?))
  }

  ghost predicate ProcsOk(procs: map<Pid, Proc>, current: Pid) {
    && current in procs && RunningOk(procs[current])
    && (forall p :: p in procs && p != current ==> ProcOk(procs[p]))
  }

  /** The idle process runs or is ready, so there is always a process to run. */
  predicate IdleOk(procs: map<Pid, Proc>, current: Pid) {
    && IDLE in procs
    && (if current == IDLE then procs[IDLE].state.Actif? else procs[IDLE].state.Activatable?)
  }

  predicate Gone(pr: Proc) { pr.state.Zombie? || pr.state.Killed? }

  /** The parent a process names has not been freed and will not be freed by the next
      `scheduler()`, and has the process in its list; a zombie has no zombie for a parent. */
  predicate ParentOk(procs: map<Pid, Proc>, p: Pid)
    requires p in procs && procs[p].parent.Some?
  {
    var q := procs[p].parent.value;
    && q in procs && q != p && procs[q].parent != Some(p) && Child(p, procs[p].born) in procs[q].children
    && !procs[q].state.Killed? && !(procs[p].state.Zombie? && procs[q].state.Zombie?)
  }

  /** So it is for every process that has not been killed itself. */
  ghost predicate ParentsOk(procs: map<Pid, Proc>) {
    forall p :: p in procs && procs[p].parent.Some? && !procs[p].state.Killed? ==> ParentOk(procs, p)
  }

  /** The process an entry means has not been freed. */
  predicate Present(procs: map<Pid, Proc>, e: Child) {
    e.pid in procs && procs[e.pid].born == e.born
  }

  /** Children are created after their parent and appended to its list. */
  ghost predicate Aged(pr: Proc, n: nat) {
    && pr.born < n
    && (forall i :: 0 <= i < |pr.children| ==> pr.born < pr.children[i].born < n)
    && (forall i, j :: 0 <= i < j < |pr.children| ==> pr.children[i].born < pr.children[j].born)
  }

  /** The list of p names children of p; while p has not ended, none that has been freed or
      will be freed by the next `scheduler()`. */
  ghost predicate Named(procs: map<Pid, Proc>, p: Pid)
    requires p in procs
  {
    forall i :: 0 <= i < |procs[p].children| ==>
      var e := procs[p].children[i];
      && (Present(procs, e) && !procs[e.pid].state.Killed? ==> procs[e.pid].parent == Some(p))
      && (!Gone(procs[p]) ==> Present(procs, e) && !procs[e.pid].state.Killed?)
  }

  ghost predicate FamilyOk(procs: map<Pid, Proc>, n: nat) {
    forall p :: p in procs ==> Aged(procs[p], n) && Named(procs, p)
  }

  /** The tree of processes, by parent pointers and by lists of children. */
  ghost predicate TreeOk(procs: map<Pid, Proc>, n: nat) {
    ParentsOk(procs) && FamilyOk(procs, n)
  }

  /** What the tree is made of. */
  predicate SameKin(pr: Proc, pr': Proc) {
    && pr'.parent == pr.parent && pr'.born == pr.born && pr'.children == pr.children
    && pr'.state.Zombie? == pr.state.Zombie? && pr'.state.Killed? == pr.state.Killed?
  }

  /** The tree does not change, except that killed processes are freed. */
  ghost predicate Lineage(procs: map<Pid, Proc>, procs': map<Pid, Proc>) {
    && (forall q :: q in procs' ==> q in procs && SameKin(procs[q], procs'[q]))
    && (forall q :: q in procs && !procs[q].state.Killed? ==> q in procs')
  }

  lemma LineageParents(procs: map<Pid, Proc>, procs': map<Pid, Proc>)
    requires Lineage(procs, procs')
    ensures ParentsOk(procs) <==> ParentsOk(procs')
  {
    if ParentsOk(procs) {
      forall p | p in procs' && procs'[p].parent.Some? && !procs'[p].state.Killed? ensures ParentOk(procs', p) {
        assert ParentOk(procs, p);
      }
    }
    if ParentsOk(procs') {
      forall p | p in procs && procs[p].parent.Some? && !procs[p].state.Killed? ensures ParentOk(procs, p) {
        assert ParentOk(procs', p);
      }
    }
  }

  lemma LineageTree(procs: map<Pid, Proc>, procs': map<Pid, Proc>, n: nat)
    requires Lineage(procs, procs') && TreeOk(procs, n)
    ensures TreeOk(procs', n)
  {
    LineageParents(procs, procs');
    forall p | p in procs' ensures Aged(procs'[p], n) && Named(procs', p) {
      assert Aged(procs[p], n) && Named(procs, p);
    }
  }

  /** The waiters of a semaphore are exactly the processes blocked on it, and there
      are max(0, -count) of them. */
  ghost predicate SemOk(procs: map<Pid, Proc>, id: SemId, s: Sem) {
    && MIN_COUNT <= s.count <= MAX_COUNT
    && |s.waiters| == (if s.count < 0 then -s.count else 0)
    && Distinct(s.waiters)
    && (forall i :: 0 <= i < |s.waiters| ==>
          var w := s.waiters[i]; w in procs && procs[w].state.BlockedSemaphore? && procs[w].semId == id)
  }

  ghost predicate SemsOk(procs: map<Pid, Proc>, sems: map<SemId, Sem>) {
    && (forall id :: id in sems ==> SemOk(procs, id, sems[id]))
    && (forall p :: p in procs && procs[p].state.BlockedSemaphore? ==>
          procs[p].semId in sems && p in sems[procs[p].semId].waiters)
  }

  /** Blocked consumers mean an empty ring, blocked producers a full one, never both;
      what was delivered followed by what is stored is what was accepted. */
  ghost predicate MsgOk(q: MsgQueue, consumers: seq<Pid>, producers: seq<Pid>) {
    && RingOk(q.ring)
    && (consumers != [] ==> IsEmpty(q.ring) && producers == [])
    && (producers != [] ==> IsFull(q.ring))
    && q.accepted == q.delivered + Stored(q.ring)
  }

  ghost predicate MsgsOk(lists: map<ListId, seq<Pid>>, queues: map<Fid, MsgQueue>) {
    forall f :: f in queues ==>
      && Consumers(f) in lists && Producers(f) in lists
      && MsgOk(queues[f], lists[Consumers(f)], lists[Producers(f)])
  }

  /** The invariant at the entry of `scheduler()`. */
  ghost predicate Mid(k: K) {
    && Member(k) && Sorted(k)
    && ProcsOk(k.procs, k.current)
    && IdleOk(k.procs, k.current)
    && TreeOk(k.procs, k.births)
    && SemsOk(k.procs, k.sems)
    && MsgsOk(k.lists, k.queues)
    && !k.parentBlock
  }

  /** The invariant between system calls: in addition, the running process is active. */
  ghost predicate Inv(k: K) {
    Mid(k) && k.procs[k.current].state.Actif?
  }

  lemma MidMayLeave(k: K)
    requires Mid(k)
    ensures CurrentMayLeave(k)
  {}

  // ----- how the parts react to a change of one process -----

  /** Nothing about semaphores changes when only links, or non-blocked states, do. */
  lemma SemsFrame(procs: map<Pid, Proc>, procs': map<Pid, Proc>, sems: map<SemId, Sem>)
    requires SemsOk(procs, sems)
    requires forall p :: p in procs && procs[p].state.BlockedSemaphore? ==>
               p in procs' && procs'[p].state.BlockedSemaphore? && procs'[p].semId == procs[p].semId
    requires forall p :: p in procs' && procs'[p].state.BlockedSemaphore? ==>
               p in procs && procs[p].state.BlockedSemaphore? && procs[p].semId == procs'[p].semId
    ensures SemsOk(procs', sems)
  {
    forall id | id in sems ensures SemOk(procs', id, sems[id]) {
      assert SemOk(procs, id, sems[id]);
    }
  }

  lemma MsgsFrame(lists: map<ListId, seq<Pid>>, lists': map<ListId, seq<Pid>>, queues: map<Fid, MsgQueue>)
    requires MsgsOk(lists, queues)
    requires forall l :: l in lists && (l.Consumers? || l.Producers?) ==> l in lists' && lists'[l] == lists[l]
    ensures MsgsOk(lists', queues)
  {}

  lemma AwakeProcs(procs: map<Pid, Proc>, procs': map<Pid, Proc>, current: Pid, n: nat)
    requires ProcsOk(procs, current) && IdleOk(procs, current) && TreeOk(procs, n)
    requires forall p :: p in procs <==> p in procs'
    requires forall p :: p in procs ==>
               procs'[p] == procs[p] ||
               (procs[p].link == LinkedIn(Sleepers) && procs'[p] == procs[p].(link := LinkedIn(Ready)))
    ensures ProcsOk(procs', current) && IdleOk(procs', current) && TreeOk(procs', n)
  {
    hide TreeOk;
    LineageTree(procs, procs', n);
  }

  lemma AwakeKeeps(k: K)
    requires Mid(k)
    ensures Mid(Awake(k))
  {
    hide MemberOf, SortedOf, SemsOk, MsgsOk, ProcsOk, TreeOk, IdleOk;
    var k' := Awake(k);
    forall p
      ensures p in k.procs <==> p in k'.procs
      ensures p in k.procs ==>
                k'.procs[p] == k.procs[p] ||
                (k.procs[p].link == LinkedIn(Sleepers) && k'.procs[p] == k.procs[p].(link := LinkedIn(Ready)))
    {
      AwakeProc(k, p);
    }
    AwakeProc(k, k.current);
    AwakeProcs(k.procs, k'.procs, k.current, k.births);
    SemsFrame(k.procs, k'.procs, k.sems);
    MsgsFrame(k.lists, k'.lists, k.queues);
  }

  lemma FreeDeadProcs(procs: map<Pid, Proc>, procs': map<Pid, Proc>, current: Pid, n: nat)
    requires ProcsOk(procs, current) && IdleOk(procs, current) && TreeOk(procs, n)
    requires forall p :: p in procs' <==> p in procs && procs[p].link != LinkedIn(Dead)
    requires forall p :: p in procs' ==> procs'[p] == procs[p]
    ensures ProcsOk(procs', current) && IdleOk(procs', current) && TreeOk(procs', n)
  {
    hide TreeOk;
    LineageTree(procs, procs', n);
  }

  lemma NoDeadWaiter(procs: map<Pid, Proc>, current: Pid, p: Pid)
    requires ProcsOk(procs, current) && p in procs && procs[p].state.BlockedSemaphore?
    ensures procs[p].link.Unlinked?
  {}

  lemma FreeDeadMid(k: K)
    requires Mid(k)
    ensures Mid(FreeDead(k))
  {
    hide MemberOf, SortedOf, SemsOk, MsgsOk, ProcsOk, TreeOk, IdleOk;
    FreeDeadKeeps(k);
    var k' := FreeDead(k);
    FreeDeadProcs(k.procs, k'.procs, k.current, k.births);
    forall p | p in k.procs && k.procs[p].state.BlockedSemaphore? ensures k.procs[p].link.Unlinked? {
      NoDeadWaiter(k.procs, k.current, p);
    }
    SemsFrame(k.procs, k'.procs, k.sems);
    MsgsFrame(k.lists, k'.lists, k.queues);
  }

  /** If the running process has blocked, the idle process is ready. */
  lemma SomeoneReady(k: K)
    requires Mid(k) && !k.procs[k.current].state.Actif?
    ensures k.lists[Ready] != []
  {
    assert k.procs[IDLE].link == LinkedIn(Ready);
    assert Holds(k.procs, Ready, k.lists[Ready]);
  }

  /** Parking the running process c as `cpr` and running ready process p instead. */
  lemma RunProcs(procs: map<Pid, Proc>, c: Pid, cpr: Proc, p: Pid, n: nat)
    requires ProcsOk(procs, c) && IdleOk(procs, c) && TreeOk(procs, n)
    requires p in procs && procs[p].link == LinkedIn(Ready)
    requires ProcOk(cpr) && SameKin(procs[c], cpr)
    requires c == IDLE ==> cpr.state.Activatable?
    requires p == c ==> cpr == procs[c]
    ensures var procs' := procs[c := cpr][p := procs[p].(link := Unlinked, state := Actif)];
            ProcsOk(procs', p) && IdleOk(procs', p) && TreeOk(procs', n) && procs'[p].state.Actif?
  {
    hide TreeOk;
    LineageTree(procs, procs[c := cpr][p := procs[p].(link := Unlinked, state := Actif)], n);
  }

  /** The semaphores do not notice a switch between processes that wait for none. */
  lemma RunSems(procs: map<Pid, Proc>, c: Pid, cpr: Proc, p: Pid, sems: map<SemId, Sem>)
    requires SemsOk(procs, sems) && c in procs && p in procs
    requires procs[c].state.BlockedSemaphore? <==> cpr.state.BlockedSemaphore?
    requires procs[c].semId == cpr.semId && !procs[p].state.BlockedSemaphore?
    ensures SemsOk(procs[c := cpr][p := procs[p].(link := Unlinked, state := Actif)], sems)
  {
    hide SemsOk;
    SemsFrame(procs, procs[c := cpr][p := procs[p].(link := Unlinked, state := Actif)], sems);
  }

  lemma SwitchEffect(k: K)
    requires Member(k) && Ready in k.lists && k.lists[Ready] != []
    ensures var p := Top(k, Ready);
            && p in k.procs && k.procs[p].link == LinkedIn(Ready)
            && SwitchToTop(k).procs == k.procs[p := k.procs[p].(link := Unlinked, state := Actif)]
            && SwitchToTop(k) == k.(procs := SwitchToTop(k).procs, lists := SwitchToTop(k).lists, current := p)
    ensures forall l :: l in k.lists <==> l in SwitchToTop(k).lists
    ensures forall l :: l in k.lists && l != Ready ==> SwitchToTop(k).lists[l] == k.lists[l]
  {
    hide MemberOf, SortedOf;
    TopMember(k, Ready);
  }

  /** What `Choose` does to the process table and the message lists. */
  lemma ChooseEffect(k: K, cpr: Proc)
    requires Member(k) && CurrentMayLeave(k) && Ready in k.lists && k.lists[Ready] != []
    requires var cur := k.procs[k.current];
             cpr == if cur.state.Actif? then cur.(state := Activatable, link := LinkedIn(Ready))
                    else if cur.state.Killed? then cur.(link := LinkedIn(Dead)) else cur
    requires k.procs[k.current].state.Actif? ==> k.procs[Top(k, Ready)].prio >= k.procs[k.current].prio
    ensures var p := Top(k, Ready);
            && p in k.procs && k.procs[p].link == LinkedIn(Ready)
            && (p == k.current ==> cpr == k.procs[k.current])
            && Choose(k).procs == k.procs[k.current := cpr][p := k.procs[p].(link := Unlinked, state := Actif)]
            && Choose(k) == k.(procs := Choose(k).procs, lists := Choose(k).lists, current := p)
    ensures forall l :: l in k.lists <==> l in Choose(k).lists
    ensures forall l :: l in k.lists && l != Ready && l != Dead ==> Choose(k).lists[l] == k.lists[l]
  {
    hide MemberOf, SortedOf, SwitchToTop;
    Heads(k);
    SwitchEffect(k);
    if k.procs[k.current].state.Killed? {
      SwitchEffect(QueueAdd(k, Dead, k.current));
    }
  }

  lemma ChooseKeeps(k: K)
    requires Mid(k)
    ensures CurrentMayLeave(k) && Inv(Choose(k))
  {
    hide MemberOf, SortedOf, SemsOk, MsgsOk, TreeOk, Choose;
    MidMayLeave(k);
    Heads(k);
    var c := k.current;
    var cur := k.procs[c];
    if k.lists[Ready] == [] {
      ChooseNothing(k);
    } else if TopMember(k, Ready); cur.state.Actif? && k.procs[Top(k, Ready)].prio < cur.prio {
      ChooseNothing(k);
    } else {
      var cpr := if cur.state.Actif? then cur.(state := Activatable, link := LinkedIn(Ready))
                 else if cur.state.Killed? then cur.(link := LinkedIn(Dead)) else cur;
      ChooseEffect(k, cpr);
      RunProcs(k.procs, c, cpr, Top(k, Ready), k.births);
      RunSems(k.procs, c, cpr, Top(k, Ready), k.sems);
      MsgsFrame(k.lists, Choose(k).lists, k.queues);
    }
  }

  lemma ChooseNothing(k: K)
    requires Mid(k) && CurrentMayLeave(k)
    requires k.lists[Ready] == [] ||
             (k.procs[k.current].state.Actif? && k.procs[Top(k, Ready)].prio < k.procs[k.current].prio)
    ensures Choose(k) == k && Inv(k)
  {
    if !k.procs[k.current].state.Actif? { SomeoneReady(k); }
  }

  /** `scheduler()` entered in any state a system call may leave behind re-establishes the invariant. */
  lemma DispatchKeeps(k: K)
    requires Mid(k)
    ensures CurrentMayLeave(k) && Inv(Dispatch(k))
  {
    hide MemberOf, SortedOf, SemsOk, MsgsOk, ProcsOk, TreeOk, IdleOk, Choose;
    MidMayLeave(k);
    AwakeKeeps(k);
    FreeDeadMid(Awake(k));
    ChooseKeeps(FreeDead(Awake(k)));
  }
}
