/**
  How processes end (`process_api.c`): `kill`, `exit` and `waitpid`, and exactly when they
  keep the lists, the semaphores and the tree of processes in order.
  */
module ProcessTree {
  import opened Common
  import opened PriorityOrder
  import opened KernelState
  import opened KernelInvariant
  import opened KernelMoves
  import opened MessageCalls
  import opened SemaphoreCalls
  import opened ProcessCalls
  import opened ChildLists

  /** All the invariant says, except about process p itself, which is linked nowhere. */
  ghost predicate MidExcept(k: K, p: Pid) {
    && Member(k) && Sorted(k)
    && k.current in k.procs && p in k.procs && p != IDLE
    && k.procs[p].link.Unlinked? && !k.procs[p].state.BlockedSemaphore? && !Gone(k.procs[p])
    && (k.current != p ==> RunningOk(k.procs[k.current]) && k.procs[k.current].state.Actif?)
    && (forall q :: q in k.procs && q != k.current && q != p ==> ProcOk(k.procs[q]))
    && IdleOk(k.procs, k.current)
    && TreeOk(k.procs, k.births)
    && SemsOk(k.procs, k.sems)
    && MsgsOk(k.lists, k.queues)
    && !k.parentBlock
  }

  // ----- leave_queue_process_if_needed -----

  /** Where the search of `remove_proc_queue` through the middle of the waiter list stops
      from index i on: at the first waiter that `stop` accepts, or past the end. */
  function SearchFrom(w: seq<Pid>, stop: Pid -> bool, i: nat): (r: nat)
    requires i <= |w|
    ensures i <= r <= |w| && (r < |w| ==> stop(w[r])) && forall j :: i <= j < r ==> !stop(w[j])
    decreases |w| - i
  {
    if i < |w| && !stop(w[i]) then SearchFrom(w, stop, i + 1) else i
  }

  /** The node behind `prev` becomes the one behind i. */
  function Spliced(w: seq<Pid>, prev: nat, i: nat): seq<Pid>
    requires prev <= i < |w|
  {
    w[..prev + 1] + w[i + 1..]
  }

  /** The search and the unlinking; `iter_prev` starts at the head of the list. */
  function Searched(w: seq<Pid>, stop: Pid -> bool): (r: (seq<Pid>, Option<Pid>)) {
    var i := SearchFrom(w, stop, 0);
    if i == |w| then (w, None) else (Spliced(w, if i == 0 then 0 else i - 1, i), Some(w[i]))
  }

  /** The test the search makes, and the one that would find the process. */
  function Other(p: Pid): Pid -> bool { q => q != p }

  function Self(p: Pid): Pid -> bool { q => q == p }

  /** `remove_proc_queue` for a kill: what becomes of the waiter list, and which process
      has its state overwritten. The search through the middle tests for a pid that is
      not the one to be removed. */
  function KilledWaiter(w: seq<Pid>, p: Pid): (r: (seq<Pid>, Option<Pid>)) {
    if w == [] then (w, None)
    else if |w| == 1 then if w[0] == p then ([], Some(p)) else (w, None)
    else if w[0] == p then (w[1..], Some(p))
    else if w[|w| - 1] == p then (w[..|w| - 1], Some(p))
    else Searched(w, Other(p))
  }

  /** That search stops at the head at once and unlinks nothing; with the test turned
      round it would remove the process and nothing else. */
  lemma MiddleSearch(w: seq<Pid>, p: Pid)
    requires |w| > 1 && w[0] != p
    ensures Searched(w, Other(p)) == (w, Some(w[0]))
    ensures p in w && Distinct(w) ==>
              && Searched(w, Self(p)).1 == Some(p)
              && (forall q :: q in Searched(w, Self(p)).0 <==> q in w && q != p)
              && |Searched(w, Self(p)).0| == |w| - 1
  {
    assert Spliced(w, 0, 0) == w;
    if p in w && Distinct(w) {
      var i := SearchFrom(w, Self(p), 0);
      var j :| 0 <= j < |w| && w[j] == p;
      assert i < |w| && w[i] == p && 0 < i;
      assert w == w[..i] + [p] + w[i + 1..];
    }
  }

  /** `proc_kill_diag`. */
  function KillWaiter(k: K, p: Pid): K
    requires p in k.procs && k.procs[p].semId in k.sems
    requires forall i :: 0 <= i < |k.sems[k.procs[p].semId].waiters| ==> k.sems[k.procs[p].semId].waiters[i] in k.procs
  {
    var id := k.procs[p].semId;
    var s := k.sems[id];
    if s.count == MAX_COUNT then k
    else if s.count + 1 <= 0 then
      var (w, hit) := KilledWaiter(s.waiters, p);
      var k1 := SetSem(k, id, Sem(s.count + 1, w));
      match hit
      case None => k1
      case Some(q) =>
        if q in k.procs then SetProc(k1, q, k.procs[q].(state := Activatable, semSignal := KILL_CALL)) else k1
    else SetSem(k, id, s.(count := s.count + 1))
  }

  /** The process is the first or the last waiter of its semaphore. */
  predicate AtAnEnd(w: seq<Pid>, p: Pid) {
    w != [] && (w[0] == p || w[|w| - 1] == p)
  }

  /** A waiter at an end of the list is removed, and only that one. */
  lemma KilledAtAnEnd(w: seq<Pid>, p: Pid)
    requires AtAnEnd(w, p) && Distinct(w)
    ensures KilledWaiter(w, p).1 == Some(p)
    ensures var w' := KilledWaiter(w, p).0;
            |w'| == |w| - 1 && Distinct(w') && forall q :: q in w' <==> q in w && q != p
  {
    if |w| > 1 && w[0] == p {
      assert w == [p] + w[1..];
    } else {
      assert w == w[..|w| - 1] + [p];
    }
  }

  lemma KillWaiterSems(procs: map<Pid, Proc>, sems: map<SemId, Sem>, p: Pid, pr: Proc)
    requires SemsOk(procs, sems) && p in procs && procs[p].state.BlockedSemaphore?
    requires AtAnEnd(sems[procs[p].semId].waiters, p) && !pr.state.BlockedSemaphore?
    ensures var id := procs[p].semId;
            var s := sems[id];
            && s.count < 0 && KilledWaiter(s.waiters, p).1 == Some(p)
            && SemsOk(procs[p := pr], sems[id := Sem(s.count + 1, KilledWaiter(s.waiters, p).0)])
  {
    hide KilledWaiter;
    var id := procs[p].semId;
    var s := sems[id];
    assert SemOk(procs, id, s);
    KilledAtAnEnd(s.waiters, p);
    var procs', sems' := procs[p := pr], sems[id := Sem(s.count + 1, KilledWaiter(s.waiters, p).0)];
    forall i | i in sems' ensures SemOk(procs', i, sems'[i]) {
      assert SemOk(procs, i, sems[i]);
      if i == id { KillSemOk(procs, id, s, p, pr, KilledWaiter(s.waiters, p).0); }
    }
  }

  lemma KillSemOk(procs: map<Pid, Proc>, id: SemId, s: Sem, p: Pid, pr: Proc, w': seq<Pid>)
    requires SemOk(procs, id, s) && s.waiters != [] && |w'| == |s.waiters| - 1 && Distinct(w')
    requires forall q :: q in w' <==> q in s.waiters && q != p
    ensures SemOk(procs[p := pr], id, Sem(s.count + 1, w'))
  {
    forall i | 0 <= i < |w'|
      ensures var q := w'[i]; q in procs && q != p && procs[q].state.BlockedSemaphore? && procs[q].semId == id
    {
      assert w'[i] in s.waiters;
    }
  }

  /** `leave_queue_process_if_needed`, with the assertion of `queue_del`. */
  function LeaveQueue(k: K, p: Pid): Outcome
    requires Inv(k) && p in k.procs
  {
    if k.procs[p].state.BlockedSemaphore? then WaiterListed(k, p); Done(KillWaiter(k, p))
    else if k.procs[p].link.LinkedIn? then Done(QueueDel(k, p))
    else NotLinked
  }

  /** The waiters of the semaphore a process is blocked on are in the table. */
  lemma WaiterListed(k: K, p: Pid)
    requires Inv(k) && p in k.procs && k.procs[p].state.BlockedSemaphore?
    ensures k.procs[p].semId in k.sems && p in k.sems[k.procs[p].semId].waiters
    ensures forall i :: 0 <= i < |k.sems[k.procs[p].semId].waiters| ==> k.sems[k.procs[p].semId].waiters[i] in k.procs
  {
    WaitersKnown(k, k.procs[p].semId);
  }

  /** The processes `kill` can remove from wherever they wait. */
  predicate Removable(k: K, p: Pid)
    requires p in k.procs
  {
    && !k.procs[p].state.BlockedWaitChild?
    && (k.procs[p].state.BlockedSemaphore? ==>
          k.procs[p].semId in k.sems && AtAnEnd(k.sems[k.procs[p].semId].waiters, p))
  }

  lemma LeaveListProcs(k: K, p: Pid, k': K)
    requires Inv(k) && p in k.procs && p != k.current && p != IDLE && k.procs[p].link.LinkedIn? && !Gone(k.procs[p])
    requires Member(k') && Sorted(k')
    requires k' == k.(procs := k.procs[p := k.procs[p].(link := Unlinked)], lists := k'.lists)
    requires SemsOk(k'.procs, k.sems) && MsgsOk(k'.lists, k.queues)
    ensures MidExcept(k', p)
  {
    hide MemberOf, SortedOf, SemsOk, MsgsOk, TreeOk;
    LineageTree(k.procs, k'.procs, k.births);
  }

  lemma LeaveListKeeps(k: K, p: Pid)
    requires Inv(k) && p in k.procs && p != k.current && p != IDLE && k.procs[p].link.LinkedIn? && !Gone(k.procs[p])
    ensures MidExcept(QueueDel(k, p), p)
  {
    hide MemberOf, SortedOf, SemsOk, MsgsOk, TreeOk, IdleOk, ProcsOk;
    ListOf(k, p);
    LinkedNoWaiter(k, p);
    var l := k.procs[p].link.list;
    var k' := QueueDel(k, p);
    SemsSet(k.procs, p, k.procs[p].(link := Unlinked), k.sems);
    ReleaseMsgs(k, l, IndexOf(k.lists[l], p), k'.lists);
    LeaveListProcs(k, p, k');
  }

  lemma LinkedNoWaiter(k: K, p: Pid)
    requires Mid(k) && p in k.procs && k.procs[p].link.LinkedIn?
    ensures !k.procs[p].state.BlockedSemaphore?
  {}

  lemma LeaveSemProcs(k: K, p: Pid, pr: Proc, sems: map<SemId, Sem>)
    requires Inv(k) && p in k.procs && p != k.current && p != IDLE && k.procs[p].link.Unlinked? && !Gone(k.procs[p])
    requires pr == k.procs[p].(state := Activatable, semSignal := KILL_CALL)
    requires SemsOk(k.procs[p := pr], sems)
    ensures MidExcept(k.(procs := k.procs[p := pr], sems := sems), p)
  {
    hide MemberOf, SortedOf, SemsOk, MsgsOk, TreeOk;
    SetKeeps(k, p, pr);
    LineageTree(k.procs, k.procs[p := pr], k.births);
  }

  lemma LeaveSemKeeps(k: K, p: Pid)
    requires Inv(k) && p in k.procs && p != k.current && k.procs[p].state.BlockedSemaphore? && Removable(k, p)
    ensures forall i :: 0 <= i < |k.sems[k.procs[p].semId].waiters| ==> k.sems[k.procs[p].semId].waiters[i] in k.procs
    ensures p != IDLE && MidExcept(KillWaiter(k, p), p)
  {
    hide MemberOf, SortedOf, SemsOk, MsgsOk, TreeOk, ProcsOk;
    var id := k.procs[p].semId;
    WaitersKnown(k, id);
    WaiterUnlinked(k, p);
    var pr := k.procs[p].(state := Activatable, semSignal := KILL_CALL);
    KillWaiterSems(k.procs, k.sems, p, pr);
    LeaveSemProcs(k, p, pr, k.sems[id := Sem(k.sems[id].count + 1, KilledWaiter(k.sems[id].waiters, p).0)]);
  }

  lemma WaiterUnlinked(k: K, p: Pid)
    requires Inv(k) && p in k.procs && p != k.current && k.procs[p].state.BlockedSemaphore?
    ensures k.procs[p].link.Unlinked? && p != IDLE
  {}

  lemma LeaveQueueKeeps(k: K, p: Pid)
    requires Inv(k) && p in k.procs && p != k.current && p != IDLE && !Gone(k.procs[p]) && Removable(k, p)
    ensures LeaveQueue(k, p).Done? && MidExcept(LeaveQueue(k, p).k, p)
  {
    hide MemberOf, SortedOf, SemsOk, MsgsOk, TreeOk, IdleOk;
    if k.procs[p].state.BlockedSemaphore? {
      LeaveSemKeeps(k, p);
    } else {
      LeaveListKeeps(k, p);
    }
  }

  // ----- turn_current_process_into_a_zombie_or_kill_it -----

  /** A child that may still look at its parent. */
  predicate Heir(procs: map<Pid, Proc>, c: Pid, p: Pid) {
    ChildOf(procs, c, p) && !procs[c].state.Killed?
  }

  ghost predicate Childless(procs: map<Pid, Proc>, p: Pid) {
    forall c :: !Heir(procs, c, p)
  }

  /** All children of p have already ended. */
  ghost predicate NoLiveChild(procs: map<Pid, Proc>, p: Pid) {
    forall c :: Heir(procs, c, p) ==> procs[c].state.Zombie?
  }

  /** The process has a parent to collect it. */
  predicate Collected(procs: map<Pid, Proc>, p: Pid)
    requires p in procs
  {
    procs[p].parent.Some? && procs[p].parent.value in procs && !procs[procs[p].parent.value].state.Zombie?
  }

  /** No process that is freed when p ends leaves a child behind: not the ended children
      of p, and not p itself if nobody is there to collect it. */
  ghost predicate NoneLeft(procs: map<Pid, Proc>, p: Pid)
    requires p in procs
  {
    && (forall z :: ChildOf(procs, z, p) && procs[z].state.Zombie? ==> Childless(procs, z))
    && (!Collected(procs, p) ==> NoLiveChild(procs, p))
  }

  /** Besides, the ended children of p have no freed process in their lists. */
  ghost predicate EndSafe(procs: map<Pid, Proc>, p: Pid)
    requires p in procs
  {
    NoneLeft(procs, p) && ListsWhole(procs, p)
  }

  lemma DropMember(k: K, procs': map<Pid, Proc>)
    requires Member(k)
    requires forall q :: q in procs' ==> q in k.procs && procs'[q] == k.procs[q]
    requires forall q :: q in k.procs && q !in procs' ==> k.procs[q].link.Unlinked?
    ensures Member(k.(procs := procs'))
    ensures Sorted(k) ==> Sorted(k.(procs := procs'))
  {
    forall l | l in k.lists
      ensures Holds(procs', l, k.lists[l]) && Keys(procs', l, k.lists[l]) == Keys(k.procs, l, k.lists[l])
    {
      assert Holds(k.procs, l, k.lists[l]);
      forall i | 0 <= i < |k.lists[l]|
        ensures var q := k.lists[l][i]; q in k.procs && q in procs' && procs'[q] == k.procs[q]
      {
        var q := k.lists[l][i];
        assert q in k.procs && !k.procs[q].link.Unlinked?;
      }
      KeysFrame(k.procs, procs', l, k.lists[l]);
    }
  }

  /** The table after p ends: its ended children are gone, and p is a zombie, or killed
      (nobody to collect it, running), or gone (nobody to collect it, not running). */
  function EndWith(procs: map<Pid, Proc>, procs1: map<Pid, Proc>, current: Pid, p: Pid): map<Pid, Proc>
    requires p in procs
  {
    var pr := procs[p].(call := NoCall, release := Immediate);
    if Collected(procs, p) then procs1[p := pr.(state := Zombie)]
    else if p == current then procs1[p := pr.(state := Killed)]
    else procs1 - {p}
  }

  function EndProcs(procs: map<Pid, Proc>, current: Pid, p: Pid): map<Pid, Proc>
    requires p in procs
  {
    EndWith(procs, FreeZombies(procs, p), current, p)
  }

  /** What the end of p needs of the state: p is linked nowhere, nor is any process that is
      freed or woken. */
  ghost predicate Endable(k: K, p: Pid) {
    && Member(k) && TreeOk(k.procs, k.births) && p in k.procs && k.procs[p].link.Unlinked? && !Gone(k.procs[p])
    && forall q :: q in k.procs && (k.procs[q].state.Zombie? || k.procs[q].state.BlockedWaitChild?) ==> k.procs[q].link.Unlinked?
  }

  /** The process whose wait for a child ends with p. */
  predicate WakesParent(procs: map<Pid, Proc>, p: Pid)
    requires p in procs
  {
    Collected(procs, p) && procs[procs[p].parent.value].state.BlockedWaitChild?
  }

  lemma EndMember(k: K, p: Pid)
    requires Endable(k, p)
    ensures var k1 := k.(procs := EndProcs(k.procs, k.current, p));
            && Member(k1) && (Sorted(k) ==> Sorted(k1))
            && (Collected(k.procs, p) ==>
                  var q := k.procs[p].parent.value; q in k1.procs && k1.procs[q] == k.procs[q] && q != p)
  {
    hide MemberOf, SortedOf;
    var procs1 := FreeZombies(k.procs, p);
    DropMember(k, procs1);
    var k1 := k.(procs := procs1);
    if Collected(k.procs, p) || p == k.current {
      SetKeeps(k1, p, EndProcs(k.procs, k.current, p)[p]);
    } else {
      DropMember(k1, procs1 - {p});
    }
    if Collected(k.procs, p) { assert ParentOk(k.procs, p); }
  }

  /** `turn_current_process_into_a_zombie_or_kill_it`: the walk over the children, and then
      the process itself. */
  function End(k: K, p: Pid): (r: Outcome)
    requires Endable(k, p)
    ensures r == if ListsWhole(k.procs, p) then Done(EndProcess(k, p)) else FreedChild
  {
    SweepExact(k.procs, k.births, p);
    match SweepChildren(k.procs, k.births, p)
    case MetFreed => FreedChild
    case Swept(procs1) => Done(EndOf(k, p, procs1))
  }

  function EndProcess(k: K, p: Pid): (r: K)
    requires Endable(k, p)
    ensures Member(r)
  {
    EndOf(k, p, FreeZombies(k.procs, p))
  }

  /** What is left to do once the ended children are gone. */
  function EndOf(k: K, p: Pid, procs1: map<Pid, Proc>): (r: K)
    requires Endable(k, p) && procs1 == FreeZombies(k.procs, p)
    ensures Member(r)
  {
    EndMember(k, p);
    var k1 := k.(procs := EndWith(k.procs, procs1, k.current, p));
    if WakesParent(k.procs, p) then
      var q := k.procs[p].parent.value;
      Heads(k1);
      QueueAdd(Write(k1, q, k1.procs[q].(state := Activatable)), Ready, q)
    else k1
  }

  lemma EndEffect(k: K, p: Pid)
    requires Endable(k, p)
    ensures var procs1, k' := EndProcs(k.procs, k.current, p), EndProcess(k, p);
            && (if WakesParent(k.procs, p) then
                  var q := k.procs[p].parent.value;
                  && q in procs1 && procs1[q] == k.procs[q] && q != p
                  && k'.procs == procs1[q := procs1[q].(state := Activatable, link := LinkedIn(Ready))]
                else k'.procs == procs1 && k'.lists == k.lists)
            && k' == k.(procs := k'.procs, lists := k'.lists)
            && (forall l :: l in k.lists <==> l in k'.lists)
            && (forall l :: l in k.lists && l != Ready ==> k'.lists[l] == k.lists[l])
            && (Sorted(k) ==> Sorted(k'))
  {
    hide MemberOf, SortedOf, EndWith, TreeOk;
    EndMember(k, p);
    Heads(k.(procs := EndProcs(k.procs, k.current, p)));
  }

  // ----- the tree of processes -----

  /** Ending p leaves the parents in order if and only if no freed process has a child left. */
  lemma EndTree(procs: map<Pid, Proc>, c: Pid, p: Pid)
    requires ParentsOk(procs) && p in procs && !Gone(procs[p])
    ensures ParentsOk(EndProcs(procs, c, p)) <==> NoneLeft(procs, p)
  {
    if NoneLeft(procs, p) {
      EndTreeKept(procs, c, p);
    } else {
      EndTreeBroken(procs, c, p);
    }
  }

  lemma EndTreeKept(procs: map<Pid, Proc>, c: Pid, p: Pid)
    requires ParentsOk(procs) && p in procs && !Gone(procs[p]) && NoneLeft(procs, p)
    ensures ParentsOk(EndProcs(procs, c, p))
  {
    var procs' := EndProcs(procs, c, p);
    forall q | q in procs' && procs'[q].parent.Some? && !procs'[q].state.Killed? ensures ParentOk(procs', q) {
      assert ParentOk(procs, q);
      var t := procs[q].parent.value;
      assert Heir(procs, q, t);
      if t != p && t !in procs' { assert ChildOf(procs, t, p); }
    }
  }

  /** It leaves the lists of children in order in any case: a process that has not ended
      itself has none of the freed ones in its list. */
  lemma EndFamily(procs: map<Pid, Proc>, c: Pid, p: Pid, n: nat)
    requires TreeOk(procs, n) && p in procs && !Gone(procs[p])
    ensures FamilyOk(EndProcs(procs, c, p), n)
  {
    hide Aged, Named, ParentOk;
    var procs' := EndProcs(procs, c, p);
    forall q | q in procs' ensures Aged(procs'[q], n) && Named(procs', q) {
      assert Aged(procs[q], n) && Named(procs, q);
      EndNamed(procs, c, p, q, n);
    }
  }

  lemma EndNamed(procs: map<Pid, Proc>, c: Pid, p: Pid, q: Pid, n: nat)
    requires p in procs && !Gone(procs[p]) && q in procs && Aged(procs[q], n) && Named(procs, q) && q in EndProcs(procs, c, p)
    ensures var procs' := EndProcs(procs, c, p); Aged(procs'[q], n) && Named(procs', q)
  {
    var procs', es := EndProcs(procs, c, p), procs[q].children;
    assert procs'[q].children == es && procs'[q].born == procs[q].born;
    forall i | 0 <= i < |es|
      ensures Present(procs', es[i]) && !procs'[es[i].pid].state.Killed? ==> procs'[es[i].pid].parent == Some(q)
      ensures !Gone(procs'[q]) ==> Present(procs', es[i]) && !procs'[es[i].pid].state.Killed?
    {
      EndEntry(procs, c, p, q, es[i]);
    }
  }

  lemma EndEntry(procs: map<Pid, Proc>, c: Pid, p: Pid, q: Pid, e: Child)
    requires p in procs && !Gone(procs[p]) && q in procs && q in EndProcs(procs, c, p)
    requires Present(procs, e) && !procs[e.pid].state.Killed? ==> procs[e.pid].parent == Some(q)
    requires !Gone(procs[q]) ==> Present(procs, e) && !procs[e.pid].state.Killed?
    ensures var procs' := EndProcs(procs, c, p);
            && (Present(procs', e) && !procs'[e.pid].state.Killed? ==> procs'[e.pid].parent == Some(q))
            && (!Gone(procs'[q]) ==> Present(procs', e) && !procs'[e.pid].state.Killed?)
  {}

  lemma EndTreeBroken(procs: map<Pid, Proc>, c: Pid, p: Pid)
    requires ParentsOk(procs) && p in procs && !Gone(procs[p]) && !NoneLeft(procs, p)
    ensures !ParentsOk(EndProcs(procs, c, p))
  {
    var procs' := EndProcs(procs, c, p);
    if !Collected(procs, p) && !NoLiveChild(procs, p) {
      var d :| Heir(procs, d, p) && !procs[d].state.Zombie?;
      assert ParentOk(procs, d);
      assert d in procs' && !ParentOk(procs', d);
    } else {
      var z :| ChildOf(procs, z, p) && procs[z].state.Zombie? && !Childless(procs, z);
      var d :| Heir(procs, d, z);
      assert ParentOk(procs, d) && ParentOk(procs, z);
      assert d in procs' && procs'[d].parent == Some(z) && z !in procs';
    }
  }

  // ----- what the end of a process keeps -----

  lemma EndProcsOk(procs: map<Pid, Proc>, c: Pid, p: Pid)
    requires c in procs && p in procs && p != IDLE && procs[p].link.Unlinked?
    requires c != p ==> RunningOk(procs[c]) && procs[c].state.Actif?
    requires forall q :: q in procs && q != c && q != p ==> ProcOk(procs[q])
    requires IdleOk(procs, c)
    ensures var procs' := EndProcs(procs, c, p); ProcsOk(procs', c) && IdleOk(procs', c)
  {}

  lemma EndSems(procs: map<Pid, Proc>, c: Pid, p: Pid, sems: map<SemId, Sem>)
    requires p in procs && SemsOk(procs, sems) && !procs[p].state.BlockedSemaphore?
    ensures SemsOk(EndProcs(procs, c, p), sems)
  {
    hide SemsOk;
    SemsFrame(procs, EndProcs(procs, c, p), sems);
  }

  lemma WakeParentProcs(procs: map<Pid, Proc>, c: Pid, q: Pid)
    requires ProcsOk(procs, c) && IdleOk(procs, c)
    requires q in procs && q != c && procs[q].state.BlockedWaitChild?
    ensures var procs' := procs[q := procs[q].(state := Activatable, link := LinkedIn(Ready))];
            ProcsOk(procs', c) && IdleOk(procs', c) && Lineage(procs, procs')
  {}

  lemma ExceptEndable(k: K, p: Pid)
    requires MidExcept(k, p)
    ensures Endable(k, p)
  {
    hide MemberOf, SortedOf, SemsOk, MsgsOk, TreeOk, IdleOk;
  }

  lemma ParentWaits(k: K, p: Pid)
    requires MidExcept(k, p) && WakesParent(k.procs, p)
    ensures k.procs[p].parent.value != k.current && k.procs[p].parent.value != p
  {
    assert ParentOk(k.procs, p);
  }

  lemma EndProcessKeeps(k: K, p: Pid)
    requires MidExcept(k, p) && EndSafe(k.procs, p)
    ensures Endable(k, p) && Mid(EndProcess(k, p))
    ensures p != k.current ==> Inv(EndProcess(k, p))
  {
    hide MemberOf, SortedOf, SemsOk, MsgsOk, TreeOk, IdleOk, ProcsOk, EndProcs, Lineage, EndSafe, EndProcess;
    ExceptEndable(k, p);
    EndEffect(k, p);
    EndProcsOk(k.procs, k.current, p);
    EndKeepsTree(k.procs, k.current, p, k.births);
    EndSems(k.procs, k.current, p, k.sems);
    if p != k.current { EndCurrent(k.procs, k.current, p); }
    var procs1, k' := EndProcs(k.procs, k.current, p), EndProcess(k, p);
    if WakesParent(k.procs, p) {
      var q := k.procs[p].parent.value;
      ParentWaits(k, p);
      WakeParentProcs(procs1, k.current, q);
      LineageTree(procs1, k'.procs, k.births);
      SemsSet(procs1, q, procs1[q].(state := Activatable, link := LinkedIn(Ready)), k.sems);
    }
    MsgsFrame(k.lists, k'.lists, k.queues);
  }

  lemma EndKeepsTree(procs: map<Pid, Proc>, c: Pid, p: Pid, n: nat)
    requires TreeOk(procs, n) && p in procs && !Gone(procs[p]) && EndSafe(procs, p)
    ensures TreeOk(EndProcs(procs, c, p), n)
  {
    hide ParentsOk, FamilyOk, EndProcs, NoneLeft;
    EndTreeKept(procs, c, p);
    EndFamily(procs, c, p, n);
  }

  lemma EndCurrent(procs: map<Pid, Proc>, c: Pid, p: Pid)
    requires c in procs && p in procs && p != c && procs[c].state.Actif?
    ensures c in EndProcs(procs, c, p) && EndProcs(procs, c, p)[c] == procs[c]
  {}

  // ----- exit -----

  lemma ExitReady(k: K)
    requires Inv(k) && k.current != IDLE
    ensures MidExcept(k, k.current)
  {
    hide MemberOf, SortedOf, SemsOk, MsgsOk, TreeOk, IdleOk;
  }

  lemma ExitMayLeave(k: K)
    requires Inv(k) && k.current != IDLE
    ensures Endable(k, k.current) && CurrentMayLeave(EndProcess(k, k.current))
  {
    hide MemberOf, SortedOf, SemsOk, MsgsOk, TreeOk, IdleOk, ProcsOk, EndProcess;
    RunningUnlinked(k);
    ExitReady(k);
    ExceptEndable(k, k.current);
    EndEffect(k, k.current);
  }

  /** `exit_process`, also reached by a process that kills itself. */
  function Exit(k: K): (r: Outcome)
    requires Inv(k) && k.current != IDLE
    ensures EndSafe(k.procs, k.current) ==> r.Done? && Inv(r.k)
  {
    ExitMayLeave(k);
    ExitSafe(k);
    match End(k, k.current)
    case Done(k1) => Done(Dispatch(k1))
    case bad => bad
  }

  lemma ExitSafe(k: K)
    requires Inv(k) && k.current != IDLE && Endable(k, k.current)
    ensures EndSafe(k.procs, k.current) ==>
              var k1 := EndProcess(k, k.current); Mid(k1) && CurrentMayLeave(k1) && Inv(Dispatch(k1))
  {
    hide Inv, MidExcept, EndSafe, Endable, EndProcess, Dispatch, Mid;
    InvCurrent(k);
    if EndSafe(k.procs, k.current) {
      ExitReady(k);
      EndProcessKeeps(k, k.current);
      DispatchKeeps(EndProcess(k, k.current));
    }
  }

  // ----- kill -----

  /** Whether `kill` accepts its argument. */
  predicate KillAccepts(k: K, p: Pid) {
    p != IDLE && p != KERNEL && p in k.procs && !Gone(k.procs[p])
  }

  /** Leaving the queue or the waiter list changes neither the links of others nor the tree. */
  lemma LeaveEndable(k: K, p: Pid)
    requires Inv(k) && KillAccepts(k, p) && p != k.current
    ensures LeaveQueue(k, p).NotLinked? <==> k.procs[p].state.BlockedWaitChild?
    ensures !LeaveQueue(k, p).NoHead? && !LeaveQueue(k, p).FreedChild?
    ensures LeaveQueue(k, p).Done? ==>
              var k1 := LeaveQueue(k, p).k; Endable(k1, p) && SameFate(k.procs, k1.procs) && k1.current == k.current
  {
    hide MemberOf, SortedOf, SemsOk, MsgsOk, IdleOk, TreeOk, ProcsOk, KillWaiter, Endable, SameFate;
    LinkKnown(k, p);
    if k.procs[p].state.BlockedSemaphore? {
      KillWaiterEndable(k, p);
    } else if k.procs[p].link.LinkedIn? {
      UnlinkEndable(k, p);
    }
  }

  lemma EndsUnlinked(k: K)
    requires Inv(k)
    ensures forall q :: q in k.procs && (k.procs[q].state.Zombie? || k.procs[q].state.BlockedWaitChild?) ==> k.procs[q].link.Unlinked?
  {}

  lemma UnlinkEndable(k: K, p: Pid)
    requires Inv(k) && KillAccepts(k, p) && p != k.current && k.procs[p].link.LinkedIn?
    ensures Endable(QueueDel(k, p), p) && SameFate(k.procs, QueueDel(k, p).procs)
  {
    hide MemberOf, SortedOf, SemsOk, MsgsOk, IdleOk, TreeOk;
    LineageTree(k.procs, QueueDel(k, p).procs, k.births);
  }

  lemma KillWaiterEndable(k: K, p: Pid)
    requires Inv(k) && KillAccepts(k, p) && p != k.current && k.procs[p].state.BlockedSemaphore?
    ensures k.procs[p].semId in k.sems
    ensures forall i :: 0 <= i < |k.sems[k.procs[p].semId].waiters| ==> k.sems[k.procs[p].semId].waiters[i] in k.procs
    ensures Endable(KillWaiter(k, p), p) && SameFate(k.procs, KillWaiter(k, p).procs) && KillWaiter(k, p).current == k.current
  {
    hide MemberOf, SortedOf, SemsOk, MsgsOk, IdleOk, TreeOk, ProcsOk, KillWaiter;
    WaiterListed(k, p);
    HitIsWaiter(k, p);
    WaiterWrite(k, p);
    WaiterUnlinked(k, p);
    EndsUnlinked(k);
    var hit := KillWaiterFate(k, p);
    if hit.Some? { MarkedFate(k.procs, hit.value); }
    LineageTree(k.procs, KillWaiter(k, p).procs, k.births);
  }

  /** At most the state and the signal of a waiter are written. */
  lemma KillWaiterFate(k: K, p: Pid) returns (hit: Option<Pid>)
    requires p in k.procs && k.procs[p].semId in k.sems
    requires forall i :: 0 <= i < |k.sems[k.procs[p].semId].waiters| ==> k.sems[k.procs[p].semId].waiters[i] in k.procs
    ensures hit.Some? ==> hit == KilledWaiter(k.sems[k.procs[p].semId].waiters, p).1 && hit.value in k.procs
    ensures KillWaiter(k, p).procs == if hit.Some? then Marked(k.procs, hit.value) else k.procs
    ensures KillWaiter(k, p) == k.(procs := KillWaiter(k, p).procs, sems := KillWaiter(k, p).sems)
  {
    hide KilledWaiter;
    var s := k.sems[k.procs[p].semId];
    hit := KilledWaiter(s.waiters, p).1;
    if s.count == MAX_COUNT || s.count + 1 > 0 || (hit.Some? && hit.value !in k.procs) { hit := None; }
  }

  function Marked(procs: map<Pid, Proc>, q: Pid): map<Pid, Proc>
    requires q in procs
  {
    procs[q := procs[q].(state := Activatable, semSignal := KILL_CALL)]
  }

  lemma MarkedFate(procs: map<Pid, Proc>, q: Pid)
    requires q in procs && procs[q].state.BlockedSemaphore?
    ensures SameFate(procs, Marked(procs, q)) && Lineage(procs, Marked(procs, q))
    ensures forall z :: z in procs ==> Marked(procs, q)[z].link == procs[z].link
    ensures forall z :: z in procs && (Marked(procs, q)[z].state.Zombie? || Marked(procs, q)[z].state.BlockedWaitChild?) ==>
              Marked(procs, q)[z] == procs[z]
  {}

  /** The process that `remove_proc_queue` writes to is a waiter of the semaphore. */
  lemma HitIsWaiter(k: K, p: Pid)
    requires Inv(k) && p in k.procs && p != k.current && k.procs[p].state.BlockedSemaphore?
    ensures k.procs[p].semId in k.sems
    ensures var w := k.sems[k.procs[p].semId].waiters;
            KilledWaiter(w, p).1.Some? ==>
              var q := KilledWaiter(w, p).1.value;
              q in k.procs && q != k.current && k.procs[q].state.BlockedSemaphore? && k.procs[q].link.Unlinked?
  {
    hide MemberOf, SortedOf, MsgsOk, TreeOk, IdleOk;
    WaiterListed(k, p);
    WaitersKnown(k, k.procs[p].semId);
  }

  lemma WaiterWrite(k: K, p: Pid)
    requires Inv(k) && p in k.procs && p != k.current && k.procs[p].state.BlockedSemaphore?
    requires k.procs[p].semId in k.sems
    requires forall i :: 0 <= i < |k.sems[k.procs[p].semId].waiters| ==> k.sems[k.procs[p].semId].waiters[i] in k.procs
    requires var w := k.sems[k.procs[p].semId].waiters;
             KilledWaiter(w, p).1.Some? ==>
               var q := KilledWaiter(w, p).1.value;
               q in k.procs && q != k.current && k.procs[q].state.BlockedSemaphore? && k.procs[q].link.Unlinked?
    ensures Member(KillWaiter(k, p))
  {
    hide MemberOf, SortedOf, SemsOk, MsgsOk, TreeOk, IdleOk, ProcsOk, KilledWaiter;
    var w := k.sems[k.procs[p].semId].waiters;
    if KilledWaiter(w, p).1.Some? {
      var q := KilledWaiter(w, p).1.value;
      SetKeeps(k, q, k.procs[q].(state := Activatable, semSignal := KILL_CALL));
    }
  }

  lemma LinkKnown(k: K, p: Pid)
    requires Inv(k) && KillAccepts(k, p) && p != k.current
    ensures k.procs[p].link.Unlinked? <==> k.procs[p].state.BlockedSemaphore? || k.procs[p].state.BlockedWaitChild?
  {}

  /** `kill`. */
  function Kill(k: K, p: Pid): (r: Outcome)
    requires Inv(k) && k.current != IDLE
    ensures KillSafe(k, p) ==> r.Done? && Inv(r.k)
  {
    if !KillAccepts(k, p) then Done(k)
    else if p == k.current then Exit(k)
    else
      LeaveEndable(k, p);
      KillKeeps(k, p);
      match LeaveQueue(k, p)
      case Done(k1) => End(k1, p)
      case bad => bad
  }

  /** The killed process can be removed from where it waits, and leaves no child behind. */
  ghost predicate KillSafe(k: K, p: Pid) {
    KillAccepts(k, p) ==> EndSafe(k.procs, p) && (p != k.current ==> Removable(k, p))
  }

  lemma KillKeeps(k: K, p: Pid)
    requires Inv(k) && KillAccepts(k, p) && p != k.current
    ensures KillSafe(k, p) ==>
              var r := LeaveQueue(k, p);
              r.Done? && MidExcept(r.k, p) && Endable(r.k, p) && ListsWhole(r.k.procs, p) && Inv(EndProcess(r.k, p))
  {
    hide Inv, MidExcept, NoneLeft, ListsWhole, Endable, EndProcess, SameFate, LeaveQueue;
    if KillSafe(k, p) {
      InvCurrent(k);
      LeaveQueueKeeps(k, p);
      LeaveEndable(k, p);
      FateEnd(k.procs, LeaveQueue(k, p).k.procs, p);
      EndProcessKeeps(LeaveQueue(k, p).k, p);
    }
  }

  lemma InvCurrent(k: K)
    requires Inv(k)
    ensures k.current in k.procs
  {}

  /** The same processes, with the same parents, children and ends. */
  ghost predicate SameFate(procs: map<Pid, Proc>, procs': map<Pid, Proc>) {
    && (forall q :: q in procs <==> q in procs')
    && (forall q :: q in procs ==> SameKin(procs[q], procs'[q]))
  }

  lemma FateSafe(procs: map<Pid, Proc>, procs': map<Pid, Proc>, p: Pid)
    requires SameFate(procs, procs') && p in procs && EndSafe(procs, p)
    ensures EndSafe(procs', p)
  {
    forall z | ChildOf(procs', z, p) && procs'[z].state.Zombie? ensures Childless(procs', z) {
      assert ChildOf(procs, z, p);
      forall c ensures !Heir(procs', c, z) { assert !Heir(procs, c, z); }
    }
    if !Collected(procs', p) {
      assert procs'[p].parent == procs[p].parent;
      if procs[p].parent.Some? {
        var q := procs[p].parent.value;
        assert q in procs <==> q in procs';
      }
      forall c | Heir(procs', c, p) ensures procs'[c].state.Zombie? { assert Heir(procs, c, p); }
    }
    FateWhole(procs, procs', p);
  }

  lemma FateLists(procs: map<Pid, Proc>, procs': map<Pid, Proc>, p: Pid)
    requires SameFate(procs, procs')
    ensures ListsWhole(procs, p) <==> ListsWhole(procs', p)
  {
    if ListsWhole(procs, p) { FateWhole(procs, procs', p); }
    if ListsWhole(procs', p) { FateWhole(procs', procs, p); }
  }

  lemma FateWhole(procs: map<Pid, Proc>, procs': map<Pid, Proc>, p: Pid)
    requires SameFate(procs, procs') && ListsWhole(procs, p)
    ensures ListsWhole(procs', p)
  {
    forall z | ChildOf(procs', z, p) && procs'[z].state.Zombie? ensures Whole(procs', procs'[z].children) {
      assert ChildOf(procs, z, p) && Whole(procs, procs[z].children);
      assert forall i :: 0 <= i < |procs[z].children| ==> Present(procs', procs[z].children[i]);
    }
  }

  lemma FateEnd(procs: map<Pid, Proc>, procs': map<Pid, Proc>, p: Pid)
    requires SameFate(procs, procs') && p in procs
    ensures EndSafe(procs, p) <==> EndSafe(procs', p)
  {
    hide EndSafe;
    if EndSafe(procs, p) { FateSafe(procs, procs', p); }
    if EndSafe(procs', p) { FateSafe(procs', procs, p); }
  }

  // ----- waitpid -----

  /** Where the search of `waitpid` through the children stops: at the child with the given
      pid, or for a negative one at the first that has ended; or past the end. */
  function Sought(procs: map<Pid, Proc>, es: seq<Child>, c: int, i: nat): (r: nat)
    requires i <= |es| && forall j :: 0 <= j < |es| ==> es[j].pid in procs
    ensures i <= r <= |es|
    decreases |es| - i
  {
    if i == |es| || (if c < 0 then procs[es[i].pid].state.Zombie? else es[i].pid == c) then i
    else Sought(procs, es, c, i + 1)
  }

  /** The children of the running process are all there. */
  lemma OwnChildren(k: K)
    requires Inv(k)
    ensures k.current in k.procs
    ensures forall i :: 0 <= i < |k.procs[k.current].children| ==>
              var e := k.procs[k.current].children[i];
              Present(k.procs, e) && ChildOf(k.procs, e.pid, k.current) && e.pid != k.current && !k.procs[e.pid].state.Killed?
  {
    hide MemberOf, SortedOf, SemsOk, MsgsOk;
    assert Named(k.procs, k.current) && Aged(k.procs[k.current], k.births);
  }

  /** What `waitpid` comes to. */
  datatype Wait = NoSuchChild | Blocks | Collects(i: nat)

  function WaitCase(k: K, c: int): (w: Wait)
    requires Inv(k)
    ensures w.Collects? ==>
              && k.current in k.procs && w.i < |k.procs[k.current].children|
              && var p := k.procs[k.current].children[w.i].pid; p in k.procs && p != k.current && k.procs[p].state.Zombie?
  {
    OwnChildren(k);
    var es := k.procs[k.current].children;
    if es == [] then NoSuchChild
    else
      var i := Sought(k.procs, es, c, 0);
      if i < |es| then if k.procs[es[i].pid].state.Zombie? then Collects(i) else Blocks
      else if c < 0 then Blocks else NoSuchChild
  }

  /** An ended child is taken out of the list of the running process and freed. */
  function Reap(k: K, i: nat): K
    requires k.current in k.procs && i < |k.procs[k.current].children|
  {
    var pr := k.procs[k.current];
    k.(procs := k.procs[k.current := pr.(children := RemoveAt(pr.children, i))] - {pr.children[i].pid})
  }

  lemma ReapParents(procs: map<Pid, Proc>, q: Pid, i: nat, n: nat)
    requires TreeOk(procs, n) && q in procs && !Gone(procs[q]) && i < |procs[q].children| && procs[q].children[i].pid != q
    ensures var c, pr := procs[q].children[i].pid, procs[q].(children := RemoveAt(procs[q].children, i));
            c in procs && (ParentsOk(procs[q := pr] - {c}) <==> Childless(procs - {c}, c))
  {
    var es := procs[q].children;
    var c, pr := es[i].pid, procs[q].(children := RemoveAt(es, i));
    var procs' := procs[q := pr] - {c};
    assert Named(procs, q) && Aged(procs[q], n);
    if Childless(procs - {c}, c) {
      forall d | d in procs' && procs'[d].parent.Some? && !procs'[d].state.Killed? ensures ParentOk(procs', d) {
        assert ParentOk(procs, d) && !Heir(procs - {c}, d, c);
        ReapParent(procs, q, i, d);
      }
    } else {
      var d :| Heir(procs - {c}, d, c);
      assert d in procs' && procs'[d].parent == Some(c) && c !in procs';
      assert !ParentOk(procs', d);
    }
  }

  lemma ReapParent(procs: map<Pid, Proc>, q: Pid, i: nat, d: Pid)
    requires q in procs && i < |procs[q].children| && procs[q].children[i].pid != q
    requires d in procs && d != procs[q].children[i].pid && procs[d].parent.Some? && ParentOk(procs, d)
    requires procs[d].parent.value != procs[q].children[i].pid
    ensures var c, pr := procs[q].children[i].pid, procs[q].(children := RemoveAt(procs[q].children, i));
            ParentOk(procs[q := pr] - {c}, d)
  {
    var es := procs[q].children;
    if procs[d].parent == Some(q) {
      var j :| 0 <= j < |es| && es[j] == Child(d, procs[d].born);
      assert RemoveAt(es, i)[if j < i then j else j - 1] == es[j];
    }
  }

  lemma ReapFamily(procs: map<Pid, Proc>, q: Pid, i: nat, n: nat)
    requires TreeOk(procs, n) && q in procs && !Gone(procs[q]) && i < |procs[q].children| && procs[q].children[i].pid != q
    ensures var c, pr := procs[q].children[i].pid, procs[q].(children := RemoveAt(procs[q].children, i));
            FamilyOk(procs[q := pr] - {c}, n)
  {
    var es := procs[q].children;
    var c, pr := es[i].pid, procs[q].(children := RemoveAt(es, i));
    var procs' := procs[q := pr] - {c};
    assert Named(procs, q) && Aged(procs[q], n);
    forall j | 0 <= j < |es| && j != i ensures es[j].pid != c {
      if j < i { EntriesApart(procs, n, q, j, i); } else { EntriesApart(procs, n, q, i, j); }
    }
    hide Aged, Named, ParentOk;
    forall p | p in procs' ensures Aged(procs'[p], n) && Named(procs', p) {
      assert Aged(procs[p], n) && Named(procs, p);
      if p == q { ReapOwn(procs, q, i, n); } else { ReapOther(procs, q, i, p, n); }
    }
  }

  /** The list of the running process without the entry. */
  lemma ReapOwn(procs: map<Pid, Proc>, q: Pid, i: nat, n: nat)
    requires q in procs && Aged(procs[q], n) && Named(procs, q) && !Gone(procs[q])
    requires i < |procs[q].children| && procs[q].children[i].pid != q
    requires forall j :: 0 <= j < |procs[q].children| && j != i ==> procs[q].children[j].pid != procs[q].children[i].pid
    ensures var c, pr := procs[q].children[i].pid, procs[q].(children := RemoveAt(procs[q].children, i));
            Aged(pr, n) && Named(procs[q := pr] - {c}, q)
  {
    hide Aged;
    var es := procs[q].children;
    var c, pr := es[i].pid, procs[q].(children := RemoveAt(es, i));
    ShorterAged(procs[q], i, n);
    var procs' := procs[q := pr] - {c};
    forall j | 0 <= j < |pr.children|
      ensures Present(procs', pr.children[j]) && procs'[pr.children[j].pid].parent == Some(q) && !procs'[pr.children[j].pid].state.Killed?
    {
      var e := es[if j < i then j else j + 1];
      assert pr.children[j] == e && e.pid != c && Present(procs, e) && procs[e.pid].parent == Some(q);
    }
  }

  lemma ShorterAged(pr: Proc, i: nat, n: nat)
    requires Aged(pr, n) && i < |pr.children|
    ensures Aged(pr.(children := RemoveAt(pr.children, i)), n)
  {
    var es := RemoveAt(pr.children, i);
    assert forall j :: 0 <= j < |es| ==> es[j] == pr.children[if j < i then j else j + 1];
  }

  /** A child of the running process is in no other list but those of processes that ended. */
  lemma ReapOther(procs: map<Pid, Proc>, q: Pid, i: nat, p: Pid, n: nat)
    requires q in procs && Named(procs, q) && !Gone(procs[q]) && i < |procs[q].children| && procs[q].children[i].pid != q
    requires p in procs && p != q && p != procs[q].children[i].pid && Named(procs, p)
    ensures var c, pr := procs[q].children[i].pid, procs[q].(children := RemoveAt(procs[q].children, i));
            Named(procs[q := pr] - {c}, p)
  {
    var es := procs[p].children;
    var e, pr := procs[q].children[i], procs[q].(children := RemoveAt(procs[q].children, i));
    var procs' := procs[q := pr] - {e.pid};
    assert procs[e.pid].parent == Some(q) && procs'[p] == procs[p];
    forall j | 0 <= j < |es|
      ensures Present(procs', es[j]) ==>
                Present(procs, es[j]) && SameKin(procs[es[j].pid].(children := []), procs'[es[j].pid].(children := []))
    {}
  }

  lemma ReapKeeps(k: K, i: nat)
    requires Inv(k) && i < |k.procs[k.current].children|
    requires var c := k.procs[k.current].children[i].pid; c in k.procs && c != k.current && k.procs[c].state.Zombie?
    ensures var c := k.procs[k.current].children[i].pid; Inv(Reap(k, i)) <==> Childless(k.procs - {c}, c)
  {
    hide MemberOf, SortedOf, SemsOk, MsgsOk, TreeOk;
    var pr := k.procs[k.current];
    var pr' := pr.(children := RemoveAt(pr.children, i));
    var c, k1 := pr.children[i].pid, SetProc(k, k.current, pr');
    SetKeeps(k, k.current, pr');
    SemsFrame(k.procs, k1.procs, k.sems);
    DropMember(k1, k1.procs - {c});
    SemsFrame(k1.procs, k1.procs - {c}, k.sems);
    ReapParents(k.procs, k.current, i, k.births);
    ReapFamily(k.procs, k.current, i, k.births);
    BothOk(k.procs[k.current := pr'] - {c}, k.births);
  }

  lemma BothOk(procs: map<Pid, Proc>, n: nat)
    requires FamilyOk(procs, n)
    ensures TreeOk(procs, n) <==> ParentsOk(procs)
  {}

  /** The child that `waitpid` frees, if it does, leaves no child behind. */
  ghost predicate WaitSafe(k: K, c: int)
    requires Inv(k)
  {
    var w := WaitCase(k, c);
    w.Collects? ==> var p := k.procs[k.current].children[w.i].pid; Childless(k.procs - {p}, p)
  }

  /** `waitpid`: frees the child sought if it has ended, otherwise waits. The loops of the C
      function are this step repeated each time the caller runs again. */
  function WaitChild(k: K, c: int): (r: K)
    requires Inv(k) && k.current != IDLE
    ensures WaitSafe(k, c) ==> Inv(r)
  {
    EnterKeeps(k, NoCall);
    var k0 := Enter(k, NoCall);
    match WaitCase(k, c)
    case NoSuchChild => k
    case Collects(i) =>
      WaitExact(k, i);
      Reap(k0, i)
    case Blocks =>
      WaitChildKeeps(k0);
      Schedule(SetProc(k0, k.current, k0.procs[k.current].(state := BlockedWaitChild)))
  }

  lemma WaitExact(k: K, i: nat)
    requires Inv(k) && k.current in k.procs && i < |k.procs[k.current].children|
    requires var c := k.procs[k.current].children[i].pid; c in k.procs && c != k.current && k.procs[c].state.Zombie?
    ensures var c := k.procs[k.current].children[i].pid;
            Inv(Reap(Enter(k, NoCall), i)) <==> Childless(k.procs - {c}, c)
  {
    hide MemberOf, SortedOf, SemsOk, MsgsOk, TreeOk, IdleOk, ProcsOk;
    RunningUnlinked(k);
    EnterKeeps(k, NoCall);
    var k0, c := Enter(k, NoCall), k.procs[k.current].children[i].pid;
    ReapKeeps(k0, i);
    assert forall d :: Heir(k.procs - {c}, d, c) <==> Heir(k0.procs - {c}, d, c);
  }

  lemma WaitChildKeeps(k: K)
    requires Inv(k) && k.current != IDLE && k.procs[k.current].call.NoCall? && k.procs[k.current].release.Immediate?
    ensures Mid(SetProc(k, k.current, k.procs[k.current].(state := BlockedWaitChild)))
  {
    hide MemberOf, SortedOf, SemsOk, MsgsOk, TreeOk, IdleOk, ProcsOk;
    RunningUnlinked(k);
    var pr := k.procs[k.current].(state := BlockedWaitChild);
    SetKeeps(k, k.current, pr);
    BlockProcs(k.procs, k.current, pr, k.births);
    SemsSet(k.procs, k.current, pr, k.sems);
  }
}
