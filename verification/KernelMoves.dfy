/**
  The three moves system calls are made of: the running process blocks on a list,
  a process linked in a list is released to the ready list, and a semaphore waiter
  is released. Each keeps the invariant.
  */
module KernelMoves {
  import opened Common
  import opened PriorityOrder
  import opened MessageRing
  import opened KernelState
  import opened KernelInvariant

  /** The running process rewrites its own fields and links itself into l. */
  function Block(k: K, l: ListId, pr: Proc): (r: K)
    requires Member(k) && l in k.lists && k.current in k.procs
    requires k.procs[k.current].link.Unlinked? && pr.link.Unlinked?
    ensures Member(r) && (Sorted(k) ==> Sorted(r))
  {
    QueueAdd(Write(k, k.current, pr), l, k.current)
  }

  /** Process p leaves its list, has its fields rewritten and becomes ready. */
  function Release(k: K, p: Pid, pr: Proc): (r: K)
    requires Member(k) && p in k.procs && k.procs[p].link.LinkedIn?
    requires pr.link.Unlinked?
    ensures Member(r) && (Sorted(k) ==> Sorted(r))
  {
    Heads(k);
    QueueAdd(Write(QueueDel(k, p), p, pr), Ready, p)
  }

  lemma BlockEffect(k: K, l: ListId, pr: Proc)
    requires Member(k) && l in k.lists && k.current in k.procs
    requires k.procs[k.current].link.Unlinked? && pr.link.Unlinked?
    ensures Block(k, l, pr).procs == k.procs[k.current := pr.(link := LinkedIn(l))]
    ensures Block(k, l, pr) == k.(procs := Block(k, l, pr).procs, lists := Block(k, l, pr).lists)
    ensures forall m :: m in k.lists <==> m in Block(k, l, pr).lists
    ensures forall m :: m in k.lists && m != l ==> Block(k, l, pr).lists[m] == k.lists[m]
  {
    hide MemberOf, SortedOf;
  }

  lemma ReleaseEffect(k: K, p: Pid, pr: Proc)
    requires Member(k) && p in k.procs && k.procs[p].link.LinkedIn? && pr.link.Unlinked?
    ensures Release(k, p, pr).procs == k.procs[p := pr.(link := LinkedIn(Ready))]
    ensures Release(k, p, pr) == k.(procs := Release(k, p, pr).procs, lists := Release(k, p, pr).lists)
    ensures forall m :: m in k.lists <==> m in Release(k, p, pr).lists
    ensures var l := k.procs[p].link.list;
            && l in k.lists && p in k.lists[l]
            && (l != Ready ==> Release(k, p, pr).lists[l] == RemoveAt(k.lists[l], IndexOf(k.lists[l], p)))
            && forall m :: m in k.lists && m != l && m != Ready ==> Release(k, p, pr).lists[m] == k.lists[m]
  {
    hide MemberOf, SortedOf;
    ListOf(k, p);
  }

  lemma ListOf(k: K, p: Pid)
    requires Member(k) && p in k.procs && k.procs[p].link.LinkedIn?
    ensures k.procs[p].link.list in k.lists && p in k.lists[k.procs[p].link.list]
    ensures Ready in k.lists
  {
    assert Holds(k.procs, k.procs[p].link.list, k.lists[k.procs[p].link.list]);
  }

  /** What must hold of a message queue before its list l gains a process. */
  ghost predicate MayBlockOn(k: K, l: ListId)
    requires Member(k)
  {
    && !l.Ready? && !l.Dead?
    && (l.Consumers? ==> l.fid in k.queues && IsEmpty(k.queues[l.fid].ring) && k.lists[Producers(l.fid)] == [])
    && (l.Producers? ==> l.fid in k.queues && IsFull(k.queues[l.fid].ring) && k.lists[Consumers(l.fid)] == [])
  }

  lemma BlockProcs(procs: map<Pid, Proc>, c: Pid, pr: Proc, n: nat)
    requires ProcsOk(procs, c) && IdleOk(procs, c) && TreeOk(procs, n) && procs[c].state.Actif?
    requires c != IDLE && ProcOk(pr) && SameKin(procs[c], pr)
    ensures ProcsOk(procs[c := pr], c) && IdleOk(procs[c := pr], c) && TreeOk(procs[c := pr], n)
  {
    hide TreeOk;
    LineageTree(procs, procs[c := pr], n);
  }

  lemma SemsSet(procs: map<Pid, Proc>, p: Pid, pr: Proc, sems: map<SemId, Sem>)
    requires SemsOk(procs, sems) && p in procs
    requires !procs[p].state.BlockedSemaphore? && !pr.state.BlockedSemaphore?
    ensures SemsOk(procs[p := pr], sems)
  {
    hide SemsOk;
    SemsFrame(procs, procs[p := pr], sems);
  }

  lemma BlockMsgs(k: K, l: ListId, lists': map<ListId, seq<Pid>>)
    requires Member(k) && MsgsOk(k.lists, k.queues) && MayBlockOn(k, l)
    requires forall m :: m in k.lists <==> m in lists'
    requires forall m :: m in k.lists && m != l ==> lists'[m] == k.lists[m]
    ensures MsgsOk(lists', k.queues)
  {}

  lemma BlockKeeps(k: K, l: ListId, pr: Proc)
    requires Inv(k) && k.current != IDLE && l in k.lists && MayBlockOn(k, l)
    requires pr.link.Unlinked? && ProcOk(pr.(link := LinkedIn(l)))
    requires !pr.state.BlockedSemaphore? && SameKin(k.procs[k.current], pr)
    ensures Mid(Block(k, l, pr))
  {
    hide MemberOf, SortedOf, SemsOk, MsgsOk, TreeOk, IdleOk, ProcsOk, Block;
    RunningUnlinked(k);
    BlockEffect(k, l, pr);
    BlockProcs(k.procs, k.current, pr.(link := LinkedIn(l)), k.births);
    SemsSet(k.procs, k.current, pr.(link := LinkedIn(l)), k.sems);
    BlockMsgs(k, l, Block(k, l, pr).lists);
  }

  lemma RunningUnlinked(k: K)
    requires Inv(k)
    ensures k.current in k.procs && k.procs[k.current].link.Unlinked? && k.procs[k.current].state.Actif?
  {}

  lemma ReleaseProcs(procs: map<Pid, Proc>, c: Pid, p: Pid, pr: Proc, n: nat)
    requires ProcsOk(procs, c) && IdleOk(procs, c) && TreeOk(procs, n)
    requires p in procs && p != c && p != IDLE && ProcOk(pr) && SameKin(procs[p], pr)
    ensures ProcsOk(procs[p := pr], c) && IdleOk(procs[p := pr], c) && TreeOk(procs[p := pr], n)
  {
    hide TreeOk;
    LineageTree(procs, procs[p := pr], n);
  }

  /** Taking a process out of a message queue's list keeps what is known of that queue. */
  lemma ReleaseMsgs(k: K, l: ListId, r: nat, lists': map<ListId, seq<Pid>>)
    requires MsgsOk(k.lists, k.queues) && l in k.lists && r < |k.lists[l]| && l in lists'
    requires lists'[l] == RemoveAt(k.lists[l], r)
    requires forall m :: m in k.lists <==> m in lists'
    requires forall m :: m in k.lists && m != l && m != Ready ==> lists'[m] == k.lists[m]
    ensures MsgsOk(lists', k.queues)
  {}

  lemma NotIdle(k: K, p: Pid)
    requires Mid(k) && p in k.procs && k.procs[p].link.LinkedIn? && k.procs[p].link != LinkedIn(Ready)
    ensures p != IDLE && !k.procs[p].state.BlockedSemaphore?
    ensures k.procs[p].link != LinkedIn(Dead) ==> !k.procs[p].state.Killed?
    ensures p == k.current ==> !k.procs[p].state.Actif?
  {}

  lemma ReleaseKeeps(k: K, p: Pid, pr: Proc)
    requires Mid(k) && p in k.procs && p != k.current
    requires k.procs[p].link.LinkedIn? && k.procs[p].link != LinkedIn(Ready) && k.procs[p].link != LinkedIn(Dead)
    requires pr.link.Unlinked? && ProcOk(pr.(link := LinkedIn(Ready)))
    requires !pr.state.BlockedSemaphore? && SameKin(k.procs[p], pr)
    ensures Mid(Release(k, p, pr))
  {
    hide MemberOf, SortedOf, SemsOk, MsgsOk, TreeOk, IdleOk, ProcsOk, Release;
    NotIdle(k, p);
    ListOf(k, p);
    ReleaseEffect(k, p, pr);
    var l := k.procs[p].link.list;
    ReleaseProcs(k.procs, k.current, p, pr.(link := LinkedIn(Ready)), k.births);
    SemsSet(k.procs, p, pr.(link := LinkedIn(Ready)), k.sems);
    ReleaseMsgs(k, l, IndexOf(k.lists[l], p), Release(k, p, pr).lists);
  }

  // ----- semaphores -----

  /** `unblock_process_sem`: the first waiter becomes ready and is told why. */
  function Unblock(k: K, id: SemId, code: int, why: Cause): (r: K)
    requires Member(k) && id in k.sems && k.sems[id].waiters != []
    requires k.sems[id].waiters[0] in k.procs && k.procs[k.sems[id].waiters[0]].link.Unlinked?
    ensures Member(r) && (Sorted(k) ==> Sorted(r))
  {
    Heads(k);
    var s := k.sems[id];
    var p := s.waiters[0];
    var k1 := k.(sems := k.sems[id := s.(waiters := s.waiters[1..])]);
    QueueAdd(Write(k1, p, k.procs[p].(state := Activatable, semSignal := code, release := why)), Ready, p)
  }

  /** The invariant with semaphore `id` between its count update and the release of waiters. */
  ghost predicate SemsBut(procs: map<Pid, Proc>, sems: map<SemId, Sem>, id: SemId) {
    && id in sems
    && (forall i :: i in sems && i != id ==> SemOk(procs, i, sems[i]))
    && Distinct(sems[id].waiters)
    && (forall i :: 0 <= i < |sems[id].waiters| ==>
          var w := sems[id].waiters[i]; w in procs && procs[w].state.BlockedSemaphore? && procs[w].semId == id)
    && (forall p :: p in procs && procs[p].state.BlockedSemaphore? ==>
          procs[p].semId in sems && p in sems[procs[p].semId].waiters)
  }

  ghost predicate MidBut(k: K, id: SemId) {
    && Member(k) && Sorted(k)
    && ProcsOk(k.procs, k.current) && k.procs[k.current].state.Actif?
    && IdleOk(k.procs, k.current) && TreeOk(k.procs, k.births)
    && SemsBut(k.procs, k.sems, id) && MsgsOk(k.lists, k.queues)
  }

  lemma UnblockSems(procs: map<Pid, Proc>, sems: map<SemId, Sem>, id: SemId, pr: Proc)
    requires SemsBut(procs, sems, id) && sems[id].waiters != [] && !pr.state.BlockedSemaphore?
    ensures var s := sems[id];
            SemsBut(procs[s.waiters[0] := pr], sems[id := s.(waiters := s.waiters[1..])], id)
  {
    var s := sems[id];
    var p := s.waiters[0];
    var procs', sems' := procs[p := pr], sems[id := s.(waiters := s.waiters[1..])];
    forall i | i in sems' && i != id ensures SemOk(procs', i, sems'[i]) {
      assert SemOk(procs, i, sems[i]);
    }
    forall q | q in procs' && procs'[q].state.BlockedSemaphore?
      ensures procs'[q].semId in sems' && q in sems'[procs'[q].semId].waiters
    {
      if procs[q].semId == id {
        var j :| 0 <= j < |s.waiters| && s.waiters[j] == q;
        assert s.waiters[1..][j - 1] == q;
      }
    }
  }

  lemma UnblockReady(k: K, id: SemId)
    requires MidBut(k, id) && k.sems[id].waiters != []
    ensures id in k.sems
    ensures var p := k.sems[id].waiters[0];
            p in k.procs && k.procs[p].link.Unlinked? && p != k.current && p != IDLE && ProcOk(k.procs[p])
            && k.procs[p].state.BlockedSemaphore?
  {}

  lemma UnblockEffect(k: K, id: SemId, code: int, why: Cause)
    requires Member(k) && id in k.sems && k.sems[id].waiters != []
    requires k.sems[id].waiters[0] in k.procs && k.procs[k.sems[id].waiters[0]].link.Unlinked?
    ensures var s := k.sems[id];
            var p := s.waiters[0];
            var r := Unblock(k, id, code, why);
            && r.procs == k.procs[p := k.procs[p].(state := Activatable, semSignal := code, release := why,
                                                   link := LinkedIn(Ready))]
            && r.sems == k.sems[id := s.(waiters := s.waiters[1..])]
            && r == k.(procs := r.procs, lists := r.lists, sems := r.sems)
            && (forall m :: m in k.lists <==> m in r.lists)
            && (forall m :: m in k.lists && m != Ready ==> r.lists[m] == k.lists[m])
  {
    hide MemberOf, SortedOf;
    Heads(k);
  }

  lemma UnblockKeeps(k: K, id: SemId, code: int, why: Cause)
    requires MidBut(k, id) && k.sems[id].waiters != []
    requires (why.Signalled? && code == SIGNAL_CALL) || (why.SemDeleted? && code == SDELETE_CALL) ||
             (why.SemReset? && code == SRESET_CALL)
    ensures var p := k.sems[id].waiters[0]; p in k.procs && k.procs[p].link.Unlinked?
    ensures MidBut(Unblock(k, id, code, why), id)
  {
    hide MemberOf, SortedOf, SemsBut, MsgsOk, TreeOk, IdleOk, ProcsOk, Unblock;
    UnblockReady(k, id);
    UnblockEffect(k, id, code, why);
    var p := k.sems[id].waiters[0];
    var pr := k.procs[p].(state := Activatable, semSignal := code, release := why, link := LinkedIn(Ready));
    ReleaseProcs(k.procs, k.current, p, pr, k.births);
    UnblockCurrent(k.procs, k.current, p, pr);
    UnblockSems(k.procs, k.sems, id, pr);
    MsgsFrame(k.lists, Unblock(k, id, code, why).lists, k.queues);
  }

  lemma UnblockCurrent(procs: map<Pid, Proc>, c: Pid, p: Pid, pr: Proc)
    requires ProcsOk(procs, c) && c != p && procs[c].state.Actif?
    ensures c in procs[p := pr] && procs[p := pr][c].state.Actif?
  {}
}
