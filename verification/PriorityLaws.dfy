/**
  `chprio` (`process_api.c`), and when it keeps the queues in order. It chooses what to do
  by the state field, which is out of date for a process that has been made ready without
  it.
  */
module PriorityLaws {
  import opened Common
  import opened PriorityOrder
  import opened KernelState
  import opened KernelInvariant
  import opened KernelMoves
  import opened MessageCalls
  import opened ProcessCalls

  /** The priority write, `queue_del` and `queue_add` of `chprio`. */
  function Requeue(k: K, p: Pid, l: ListId, prio: int): (r: K)
    requires Member(k) && p in k.procs && k.procs[p].link.LinkedIn? && l in k.lists
    ensures Member(r) && (Sorted(k) ==> Sorted(r))
  {
    var k1 := QueueDel(k, p);
    QueueAdd(Write(k1, p, k1.procs[p].(prio := prio)), l, p)
  }

  lemma RequeueEffect(k: K, p: Pid, prio: int)
    requires Member(k) && p in k.procs && k.procs[p].link.LinkedIn?
    ensures var l := k.procs[p].link.list;
            && l in k.lists
            && Requeue(k, p, l, prio).procs == k.procs[p := k.procs[p].(prio := prio)]
            && Requeue(k, p, l, prio) == k.(procs := Requeue(k, p, l, prio).procs, lists := Requeue(k, p, l, prio).lists)
            && (forall m :: m in k.lists <==> m in Requeue(k, p, l, prio).lists)
            && (forall m :: m in k.lists && m != l ==> Requeue(k, p, l, prio).lists[m] == k.lists[m])
            && |Requeue(k, p, l, prio).lists[l]| == |k.lists[l]|
  {
    hide MemberOf, SortedOf;
    ListOf(k, p);
  }

  lemma SetPrioProcs(procs: map<Pid, Proc>, c: Pid, p: Pid, prio: int, n: nat)
    requires ProcsOk(procs, c) && IdleOk(procs, c) && TreeOk(procs, n) && p in procs
    ensures var procs' := procs[p := procs[p].(prio := prio)];
            ProcsOk(procs', c) && IdleOk(procs', c) && TreeOk(procs', n) && procs'[c].state == procs[c].state
  {
    hide TreeOk;
    LineageTree(procs, procs[p := procs[p].(prio := prio)], n);
  }

  lemma RequeueKeeps(k: K, p: Pid, prio: int)
    requires Inv(k) && p in k.procs && k.procs[p].link.LinkedIn?
    ensures k.procs[p].link.list in k.lists && Inv(Requeue(k, p, k.procs[p].link.list, prio))
  {
    hide MemberOf, SortedOf, SemsOk, MsgsOk, TreeOk, IdleOk, ProcsOk, Requeue;
    RequeueEffect(k, p, prio);
    var l := k.procs[p].link.list;
    var k' := Requeue(k, p, l, prio);
    SetPrioProcs(k.procs, k.current, p, prio, k.births);
    SemsFrame(k.procs, k'.procs, k.sems);
    SameSizes(k.lists, k'.lists, k.queues);
  }

  lemma SameSizes(lists: map<ListId, seq<Pid>>, lists': map<ListId, seq<Pid>>, queues: map<Fid, MsgQueue>)
    requires MsgsOk(lists, queues)
    requires forall m :: m in lists <==> m in lists'
    requires forall m :: m in lists ==> |lists'[m]| == |lists[m]|
    ensures MsgsOk(lists', queues)
  {}

  /** Only the field changes. */
  function SetPrio(k: K, p: Pid, prio: int): K
    requires p in k.procs
  {
    SetProc(k, p, k.procs[p].(prio := prio))
  }

  lemma SetPrioKeeps(k: K, p: Pid, prio: int)
    requires Inv(k) && p in k.procs && (k.procs[p].link.Unlinked? || k.procs[p].link == LinkedIn(Sleepers))
    ensures Inv(SetPrio(k, p, prio))
  {
    hide MemberOf, SortedOf, SemsOk, MsgsOk, TreeOk, IdleOk, ProcsOk;
    SetKeeps(k, p, k.procs[p].(prio := prio));
    SetPrioProcs(k.procs, k.current, p, prio, k.births);
    SemsFrame(k.procs, SetPrio(k, p, prio).procs, k.sems);
  }

  /** The state field of a ready process is out of date: a woken sleeper, or a producer
      released by a rendezvous. */
  predicate Stale(pr: Proc) {
    pr.link == LinkedIn(Ready) && !pr.state.Activatable?
  }

  /** Whether `chprio` accepts its arguments. */
  predicate ChPrioAccepts(k: K, p: Pid, prio: int) {
    p in k.procs && MIN_PRIO <= prio <= MAX_PRIO && !Gone(k.procs[p])
  }

  /** The new priority fits between the neighbours of p in the ready list. */
  predicate Fits(k: K, p: Pid, prio: int)
    requires Ready in k.lists && p in k.lists[Ready]
    requires forall i :: 0 <= i < |k.lists[Ready]| ==> k.lists[Ready][i] in k.procs
  {
    var s := k.lists[Ready];
    var i := IndexOf(s, p);
    && (i > 0 ==> k.procs[s[i - 1]].prio <= prio)
    && (i + 1 < |s| ==> prio <= k.procs[s[i + 1]].prio)
  }

  lemma ReadyMembers(k: K)
    requires Member(k)
    ensures Ready in k.lists && Holds(k.procs, Ready, k.lists[Ready])
  {}

  lemma AscendingAt(ks: seq<int>, i: nat, x: int)
    requires Ascending(ks) && i < |ks|
    ensures Ascending(ks[i := x]) <==> (i > 0 ==> ks[i - 1] <= x) && (i + 1 < |ks| ==> x <= ks[i + 1])
  {
    var t := ks[i := x];
    if (i > 0 ==> ks[i - 1] <= x) && (i + 1 < |ks| ==> x <= ks[i + 1]) {
      forall a, b | 0 <= a < b < |t| ensures t[a] <= t[b] {
        if b == i { assert ks[a] <= ks[i - 1]; }
        if a == i { assert ks[i + 1] <= ks[b]; }
      }
    } else {
      if i > 0 && ks[i - 1] > x {
        assert t[i - 1] > t[i];
      } else {
        assert t[i] > t[i + 1];
      }
    }
  }

  lemma OtherKeys(k: K, p: Pid, prio: int, l: ListId)
    requires Member(k) && Sorted(k) && p in k.procs && k.procs[p].link == LinkedIn(Ready)
    requires l in k.lists && l != Ready
    ensures Holds(k.procs, l, k.lists[l])
    ensures Ascending(Keys(SetPrio(k, p, prio).procs, l, k.lists[l]))
  {
    assert Holds(k.procs, l, k.lists[l]);
    KeysFrame(k.procs, SetPrio(k, p, prio).procs, l, k.lists[l]);
  }

  /** Writing the priority of a process of the ready list, without moving it. */
  lemma SetPrioSorted(k: K, p: Pid, prio: int)
    requires Member(k) && Sorted(k) && p in k.procs && k.procs[p].link == LinkedIn(Ready)
    ensures Ready in k.lists && p in k.lists[Ready]
    ensures forall i :: 0 <= i < |k.lists[Ready]| ==> k.lists[Ready][i] in k.procs
    ensures Member(SetPrio(k, p, prio))
    ensures Sorted(SetPrio(k, p, prio)) <==> Fits(k, p, prio)
  {
    hide MemberOf;
    ReadyMembers(k);
    SetKeeps(k, p, k.procs[p].(prio := prio));
    var k' := SetPrio(k, p, prio);
    var s := k.lists[Ready];
    var i := IndexOf(s, p);
    var ks := Keys(k.procs, Ready, s);
    assert Ascending(ks);
    assert Keys(k'.procs, Ready, s) == ks[i := prio];
    AscendingAt(ks, i, prio);
    forall l | l in k.lists && l != Ready
      ensures Holds(k.procs, l, k.lists[l]) && Ascending(Keys(k'.procs, l, k.lists[l]))
    {
      OtherKeys(k, p, prio, l);
    }
  }

  lemma SetPrioInv(k: K, p: Pid, prio: int)
    requires Inv(k) && p in k.procs && Member(SetPrio(k, p, prio))
    ensures Inv(SetPrio(k, p, prio)) <==> Sorted(SetPrio(k, p, prio))
  {
    hide MemberOf, SortedOf, SemsOk, MsgsOk, TreeOk, IdleOk, ProcsOk;
    SetPrioProcs(k.procs, k.current, p, prio, k.births);
    SemsFrame(k.procs, SetPrio(k, p, prio).procs, k.sems);
  }

  lemma RequeuedLink(k: K, p: Pid, l: ListId, prio: int)
    requires Member(k) && p in k.procs && k.procs[p].link.LinkedIn? && l in k.lists
    ensures var r := Requeue(k, p, l, prio);
            r.current == k.current && p in r.procs && r.procs[p] == k.procs[p].(prio := prio, link := LinkedIn(l))
  {
    hide MemberOf, SortedOf;
  }

  lemma BadCall(k: K, p: Pid)
    requires p in k.procs && !CallOk(k.procs[p])
    ensures !Inv(k)
  {}

  // ----- the call -----

  /** The state field and the link of a process agree. */
  lemma FieldKnown(k: K, p: Pid)
    requires Inv(k) && p in k.procs
    ensures StateLink(k.procs[p]) || k.procs[p].state.Actif?
    ensures k.procs[p].state.Actif? <==> p == k.current
    ensures k.procs[p].state.Actif? ==> k.procs[p].link.Unlinked?
    ensures !Stale(k.procs[p]) && k.procs[p].state.BlockedQueue? ==> k.procs[p].message.blockedHead in k.lists
  {}

  /** `chprio` up to its possible call of `scheduler()`, by the state field. A process that
      is ready after a rendezvous still names the list it was blocked in, which may have
      been deleted with its queue. */
  function ChPrioWrite(k: K, p: Pid, prio: int): (r: Outcome)
    requires Inv(k) && p in k.procs
    ensures r.Done? ==> Member(r.k)
  {
    var pr := k.procs[p];
    FieldKnown(k, p);
    Heads(k);
    match pr.state
    case Activatable => Done(Requeue(k, p, Ready, prio))
    case BlockedQueue => if pr.message.blockedHead in k.lists then Done(Requeue(k, p, pr.message.blockedHead, prio)) else NoHead
    case BlockedIo => Done(Requeue(k, p, Io, prio))
    case _ => SetKeeps(k, p, pr.(prio := prio)); Done(SetPrio(k, p, prio))
  }

  /** The state field is up to date, or the process is a woken sleeper and the new priority
      fits where it already stands. */
  ghost predicate ChPrioSafe(k: K, p: Pid, prio: int)
    requires Inv(k) && p in k.procs
  {
    !Stale(k.procs[p]) || (k.procs[p].state.Asleep? && (SetPrioSorted(k, p, prio); Fits(k, p, prio)))
  }

  lemma ChPrioWriteKeeps(k: K, p: Pid, prio: int)
    requires Inv(k) && p in k.procs && !Gone(k.procs[p]) && ChPrioSafe(k, p, prio)
    ensures var r := ChPrioWrite(k, p, prio); r.Done? && Inv(r.k)
  {
    hide MemberOf, SortedOf, SemsOk, MsgsOk, TreeOk, IdleOk, ProcsOk, Requeue, Fits;
    FieldKnown(k, p);
    if Stale(k.procs[p]) {
      SetPrioSorted(k, p, prio);
      SetPrioInv(k, p, prio);
    } else if k.procs[p].link.LinkedIn? && k.procs[p].link != LinkedIn(Sleepers) {
      RequeueKeeps(k, p, prio);
    } else {
      SetPrioKeeps(k, p, prio);
    }
  }

  lemma ChPrioWriteSafe(k: K, p: Pid, prio: int)
    requires Inv(k) && p in k.procs && !Gone(k.procs[p])
    ensures ChPrioSafe(k, p, prio) ==> var r := ChPrioWrite(k, p, prio); r.Done? && Inv(r.k)
  {
    if ChPrioSafe(k, p, prio) { ChPrioWriteKeeps(k, p, prio); }
  }

  /** `chprio`. The scheduler is called for a ready or running process, by the field. */
  function ChPrio(k: K, p: Pid, prio: int): (r: Outcome)
    requires Inv(k)
    ensures (ChPrioAccepts(k, p, prio) ==> ChPrioSafe(k, p, prio)) ==> r.Done? && Inv(r.k)
  {
    if !ChPrioAccepts(k, p, prio) then Done(k)
    else if k.procs[p].state.Activatable? || k.procs[p].state.Actif? then
      FieldKnown(k, p);
      ChPrioWriteKeeps(k, p, prio);
      Done(Schedule(ChPrioWrite(k, p, prio).k))
    else
      ChPrioWriteSafe(k, p, prio);
      ChPrioWrite(k, p, prio)
  }

  /** `chprio` keeps the invariant if and only if the state field of the process is up to
      date, or it is a woken sleeper whose new priority fits where it already stands. A
      producer released by a rendezvous is blocked again although its message is gone, or
      is put into the list of a queue that has been deleted. */
  lemma ChPrioExact(k: K, p: Pid, prio: int)
    requires Inv(k) && ChPrioAccepts(k, p, prio)
    ensures var r := ChPrio(k, p, prio);
            && (r.Done? && Inv(r.k) <==> ChPrioSafe(k, p, prio))
            && !r.NotLinked?
            && (r.NoHead? <==> k.procs[p].state.BlockedQueue? && k.procs[p].message.blockedHead !in k.lists)
            && (r.NoHead? ==> Stale(k.procs[p]))
  {
    hide MemberOf, SortedOf, SemsOk, MsgsOk, TreeOk, IdleOk, ProcsOk, Requeue, Fits;
    FieldKnown(k, p);
    if Stale(k.procs[p]) {
      SetPrioSorted(k, p, prio);
      if k.procs[p].state.Asleep? {
        SetPrioInv(k, p, prio);
      } else {
        StaleProducer(k, p);
        if k.procs[p].message.blockedHead in k.lists {
          RequeuedLink(k, p, k.procs[p].message.blockedHead, prio);
          BadCall(ChPrioWrite(k, p, prio).k, p);
        }
      }
    }
  }

  /** A stale process that is not a sleeper waits for nothing. */
  lemma StaleProducer(k: K, p: Pid)
    requires Inv(k) && p in k.procs && Stale(k.procs[p]) && !k.procs[p].state.Asleep?
    ensures k.procs[p].state.BlockedQueue? && !k.procs[p].release.Pending?
    ensures k.procs[p].message.blockedHead.Consumers? || k.procs[p].message.blockedHead.Producers?
  {}
}
