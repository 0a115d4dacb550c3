/**
  The system calls on message queues (`src/kernel/msgqueue.c`).
  */
module MessageCalls {
  import opened MessageRing
  import opened KernelState
  import opened KernelInvariant
  import opened KernelMoves

  /** `scheduler()` called from a state that a system call may leave. */
  function Schedule(k: K): (r: K)
    requires Mid(k)
    ensures Inv(r)
  {
    DispatchKeeps(k);
    Dispatch(k)
  }

  /** The running process enters a system call that has not blocked (yet). */
  function Enter(k: K, call: Call): K
    requires k.current in k.procs
  {
    SetProc(k, k.current, k.procs[k.current].(call := call, release := Immediate))
  }

  lemma EnterKeeps(k: K, call: Call)
    requires Inv(k) && !call.InWait?
    ensures Inv(Enter(k, call))
  {
    SetRunning(k, k.procs[k.current].(call := call, release := Immediate));
  }

  /** The running process may rewrite its own fields. */
  lemma SetRunning(k: K, pr: Proc)
    requires Inv(k) && pr.link.Unlinked? && pr.state.Actif? && CallOk(pr)
    requires SameKin(k.procs[k.current], pr)
    ensures Inv(SetProc(k, k.current, pr))
  {
    hide MemberOf, SortedOf, SemsOk, MsgsOk, TreeOk, IdleOk, ProcsOk;
    RunningUnlinked(k);
    SetKeeps(k, k.current, pr);
    SetRunningProcs(k.procs, k.current, pr, k.births);
    SemsSet(k.procs, k.current, pr, k.sems);
  }

  lemma SetRunningProcs(procs: map<Pid, Proc>, c: Pid, pr: Proc, n: nat)
    requires ProcsOk(procs, c) && IdleOk(procs, c) && TreeOk(procs, n) && procs[c].state.Actif?
    requires pr.link.Unlinked? && pr.state.Actif? && CallOk(pr) && SameKin(procs[c], pr)
    ensures ProcsOk(procs[c := pr], c) && IdleOk(procs[c := pr], c) && TreeOk(procs[c := pr], n)
  {
    hide TreeOk;
    LineageTree(procs, procs[c := pr], n);
  }

  function SetQueue(k: K, f: Fid, q: MsgQueue): K {
    k.(queues := k.queues[f := q])
  }

  /** Replacing a queue's ring and logs, lists unchanged. */
  lemma SetQueueKeeps(k: K, f: Fid, q: MsgQueue)
    requires Mid(k) && f in k.queues
    requires MsgOk(q, k.lists[Consumers(f)], k.lists[Producers(f)])
    ensures Mid(SetQueue(k, f, q))
    ensures Inv(k) ==> Inv(SetQueue(k, f, q))
  {
    hide SemsOk, TreeOk, IdleOk, ProcsOk, SortedOf, Holds;
  }

  lemma QueueHeads(k: K, f: Fid)
    requires Mid(k) && f in k.queues
    ensures Consumers(f) in k.lists && Producers(f) in k.lists
    ensures MsgOk(k.queues[f], k.lists[Consumers(f)], k.lists[Producers(f)])
  {}

  /** A process found in a message list is a well-formed blocked process, not the running one. */
  lemma BlockedProc(k: K, l: ListId)
    requires Inv(k) && l in k.lists && (l.Consumers? || l.Producers?) && k.lists[l] != []
    ensures var p := Top(k, l);
            p in k.procs && p != k.current && k.procs[p].link == LinkedIn(l) && ProcOk(k.procs[p])
  {
    TopMember(k, l);
  }

  // ----- psend -----

  /** The fields of a consumer once message m is handed to it. */
  function Handed(pr: Proc, m: int): Proc {
    pr.(link := Unlinked, state := Activatable,
        message := pr.message.(value := m, status := Received), release := Transferred(m))
  }

  /** A consumer is waiting: it gets the message. */
  function HandOver(k: K, f: Fid, m: int): K
    requires Member(k) && f in k.queues && Consumers(f) in k.lists && k.lists[Consumers(f)] != []
  {
    TopMember(k, Consumers(f));
    var p := Top(k, Consumers(f));
    var q := k.queues[f];
    SetQueue(Release(k, p, Handed(k.procs[p], m)), f,
             q.(accepted := q.accepted + [m], delivered := q.delivered + [m]))
  }

  /** Passing a message straight through a queue that stores none. */
  lemma ThroughMsg(q: MsgQueue, cs: seq<Pid>, ps: seq<Pid>, m: int)
    requires MsgOk(q, cs, ps) && IsEmpty(q.ring)
    ensures MsgOk(q.(accepted := q.accepted + [m], delivered := q.delivered + [m]), cs, ps)
  {
    assert Stored(q.ring) == [];
  }

  lemma HandOverKeeps(k: K, f: Fid, m: int)
    requires Inv(k) && f in k.queues && Consumers(f) in k.lists && k.lists[Consumers(f)] != []
    ensures Mid(HandOver(k, f, m))
  {
    hide MemberOf, SortedOf, SemsOk, MsgsOk, TreeOk, IdleOk, ProcsOk, Release;
    QueueHeads(k, f);
    BlockedProc(k, Consumers(f));
    var p := Top(k, Consumers(f));
    var pr := Handed(k.procs[p], m);
    ReleaseKeeps(k, p, pr);
    ReleaseEffect(k, p, pr);
    var k1 := Release(k, p, pr);
    QueueHeads(k1, f);
    ThroughMsg(k.queues[f], k1.lists[Consumers(f)], k1.lists[Producers(f)], m);
    var q := k.queues[f];
    SetQueueKeeps(k1, f, q.(accepted := q.accepted + [m], delivered := q.delivered + [m]));
  }

  /** The fields of the running process when it blocks with message m to send. */
  function Sending(pr: Proc, f: Fid, m: int): Proc {
    pr.(state := BlockedQueue, message := pr.message.(value := m, blockedHead := Producers(f)),
        call := InSend(m), release := Pending)
  }

  function Store(k: K, f: Fid, m: int): K
    requires f in k.queues && RingOk(k.queues[f].ring) && !IsFull(k.queues[f].ring)
  {
    var q := k.queues[f];
    SetQueue(k, f, q.(ring := Put(q.ring, m), accepted := q.accepted + [m]))
  }

  lemma StoreKeeps(k: K, f: Fid, m: int)
    requires Inv(k) && f in k.queues && !IsFull(k.queues[f].ring) && k.lists[Consumers(f)] == []
    ensures RingOk(k.queues[f].ring) && Inv(Store(k, f, m))
  {
    hide MemberOf, SortedOf, SemsOk, MsgsOk, TreeOk, IdleOk, ProcsOk, Stored;
    QueueHeads(k, f);
    var q := k.queues[f];
    PutAppends(q.ring, m);
    assert q.delivered + (Stored(q.ring) + [m]) == q.delivered + Stored(q.ring) + [m];
    SetQueueKeeps(k, f, q.(ring := Put(q.ring, m), accepted := q.accepted + [m]));
  }

  datatype SendCase = NoQueue | ToConsumer | QueueFull | ToRing

  /** The branch `psend` takes. */
  function SendCaseOf(k: K, f: Fid): (c: SendCase)
    requires Inv(k)
    ensures c != NoQueue ==> f in k.queues
  {
    if f !in k.queues then NoQueue
    else if IsEmpty(k.queues[f].ring) && k.lists[Consumers(f)] != [] then ToConsumer
    else if IsFull(k.queues[f].ring) then QueueFull
    else ToRing
  }

  /** `psend`. */
  function PSend(k: K, f: Fid, m: int): (r: K)
    requires Inv(k) && k.current != IDLE
    ensures Inv(r)
  {
    EnterKeeps(k, InSend(m));
    var k0 := Enter(k, InSend(m));
    match SendCaseOf(k, f)
    case NoQueue => k
    case ToConsumer =>
      HandOverKeeps(k0, f, m);
      Schedule(HandOver(k0, f, m))
    case QueueFull =>
      SendBlocks(k, f, m);
      Schedule(Block(k, Producers(f), Sending(k.procs[k.current], f, m)))
    case ToRing =>
      StoreKeeps(k0, f, m);
      Store(k0, f, m)
  }

  lemma SendBlocks(k: K, f: Fid, m: int)
    requires Inv(k) && k.current != IDLE && f in k.queues
    requires IsFull(k.queues[f].ring) && k.lists[Consumers(f)] == []
    ensures Producers(f) in k.lists && k.procs[k.current].link.Unlinked?
    ensures Mid(Block(k, Producers(f), Sending(k.procs[k.current], f, m)))
  {
    hide MemberOf, SortedOf, SemsOk, MsgsOk, TreeOk, IdleOk, ProcsOk, Block;
    QueueHeads(k, f);
    RunningUnlinked(k);
    BlockKeeps(k, Producers(f), Sending(k.procs[k.current], f, m));
  }

  // ----- preceive -----

  /** The fields of a producer whose message has been taken. `toReady` is false for the
      rendezvous branch, which does not write the state field. */
  function Taken(pr: Proc, toReady: bool): Proc {
    pr.(link := Unlinked, state := if toReady then Activatable else pr.state,
        message := pr.message.(status := Sent), release := Transferred(pr.message.value))
  }

  /** Empty ring and a waiting producer: its message goes straight to the caller. */
  function TakeDirect(k: K, f: Fid): K
    requires Member(k) && f in k.queues && Producers(f) in k.lists && k.lists[Producers(f)] != []
  {
    TopMember(k, Producers(f));
    var p := Top(k, Producers(f));
    var pr := k.procs[p];
    var m := pr.message.value;
    var q := k.queues[f];
    SetQueue(Release(k, p, Taken(pr, false)), f,
             q.(accepted := q.accepted + [m], delivered := q.delivered + [m]))
  }

  lemma TakeDirectKeeps(k: K, f: Fid)
    requires Inv(k) && f in k.queues && Producers(f) in k.lists && k.lists[Producers(f)] != []
    requires IsEmpty(k.queues[f].ring)
    ensures Mid(TakeDirect(k, f))
  {
    hide MemberOf, SortedOf, SemsOk, MsgsOk, TreeOk, IdleOk, ProcsOk, Release;
    QueueHeads(k, f);
    BlockedProc(k, Producers(f));
    var p := Top(k, Producers(f));
    var pr := Taken(k.procs[p], false);
    var m := k.procs[p].message.value;
    ReleaseKeeps(k, p, pr);
    ReleaseEffect(k, p, pr);
    var k1 := Release(k, p, pr);
    QueueHeads(k1, f);
    ThroughMsg(k.queues[f], k1.lists[Consumers(f)], k1.lists[Producers(f)], m);
    var q := k.queues[f];
    SetQueueKeeps(k1, f, q.(accepted := q.accepted + [m], delivered := q.delivered + [m]));
  }

  /** The oldest message leaves the ring. */
  function Fetched(q: MsgQueue): MsgQueue
    requires RingOk(q.ring) && !IsEmpty(q.ring)
  {
    q.(ring := Drop(q.ring), delivered := q.delivered + [Stored(q.ring)[0]])
  }

  function Appended(q: MsgQueue, m: int): MsgQueue
    requires RingOk(q.ring) && !IsFull(q.ring)
  {
    q.(ring := Put(q.ring, m), accepted := q.accepted + [m])
  }

  lemma FetchedLog(q: MsgQueue)
    requires RingOk(q.ring) && !IsEmpty(q.ring) && q.accepted == q.delivered + Stored(q.ring)
    ensures RingOk(Fetched(q).ring) && Fetched(q).accepted == Fetched(q).delivered + Stored(Fetched(q).ring)
  {
    hide Stored;
    DropOldest(q.ring);
    var s := Stored(q.ring);
    assert s == [s[0]] + s[1..];
    assert q.delivered + s == q.delivered + [s[0]] + s[1..];
  }

  lemma AppendedLog(q: MsgQueue, m: int)
    requires RingOk(q.ring) && !IsFull(q.ring) && q.accepted == q.delivered + Stored(q.ring)
    ensures RingOk(Appended(q, m).ring)
    ensures Appended(q, m).accepted == Appended(q, m).delivered + Stored(Appended(q, m).ring)
  {
    hide Stored;
    PutAppends(q.ring, m);
    assert q.delivered + (Stored(q.ring) + [m]) == q.delivered + Stored(q.ring) + [m];
  }

  /** Full ring and a waiting producer: the caller gets the oldest message and the
      producer's message takes the freed cell. */
  function Refill(k: K, f: Fid): K
    requires Member(k) && f in k.queues && Producers(f) in k.lists && k.lists[Producers(f)] != []
    requires RingOk(k.queues[f].ring) && !IsEmpty(k.queues[f].ring)
  {
    TopMember(k, Producers(f));
    var p := Top(k, Producers(f));
    SetQueue(Release(k, p, Taken(k.procs[p], true)), f,
             Appended(Fetched(k.queues[f]), k.procs[p].message.value))
  }

  lemma RefillKeeps(k: K, f: Fid)
    requires Inv(k) && f in k.queues && Producers(f) in k.lists && k.lists[Producers(f)] != []
    requires !IsEmpty(k.queues[f].ring)
    ensures RingOk(k.queues[f].ring) && Mid(Refill(k, f))
  {
    hide MemberOf, SortedOf, SemsOk, MsgsOk, TreeOk, IdleOk, ProcsOk, Release, Stored;
    QueueHeads(k, f);
    BlockedProc(k, Producers(f));
    var p := Top(k, Producers(f));
    var pr := Taken(k.procs[p], true);
    ReleaseKeeps(k, p, pr);
    ReleaseEffect(k, p, pr);
    var k1 := Release(k, p, pr);
    QueueHeads(k1, f);
    FetchedLog(k.queues[f]);
    AppendedLog(Fetched(k.queues[f]), k.procs[p].message.value);
    SetQueueKeeps(k1, f, Appended(Fetched(k.queues[f]), k.procs[p].message.value));
  }

  function Fetch(k: K, f: Fid): K
    requires f in k.queues && RingOk(k.queues[f].ring) && !IsEmpty(k.queues[f].ring)
  {
    SetQueue(k, f, Fetched(k.queues[f]))
  }

  lemma FetchKeeps(k: K, f: Fid)
    requires Inv(k) && f in k.queues && !IsEmpty(k.queues[f].ring) && k.lists[Producers(f)] == []
    ensures RingOk(k.queues[f].ring) && Inv(Fetch(k, f))
  {
    hide MemberOf, SortedOf, SemsOk, MsgsOk, TreeOk, IdleOk, ProcsOk, Stored;
    QueueHeads(k, f);
    FetchedLog(k.queues[f]);
    SetQueueKeeps(k, f, Fetched(k.queues[f]));
  }

  function Receiving(pr: Proc, f: Fid): Proc {
    pr.(state := BlockedQueue, message := pr.message.(blockedHead := Consumers(f)),
        call := InReceive, release := Pending)
  }

  lemma ReceiveBlocks(k: K, f: Fid)
    requires Inv(k) && k.current != IDLE && f in k.queues
    requires IsEmpty(k.queues[f].ring) && k.lists[Producers(f)] == []
    ensures Consumers(f) in k.lists && k.procs[k.current].link.Unlinked?
    ensures Mid(Block(k, Consumers(f), Receiving(k.procs[k.current], f)))
  {
    hide MemberOf, SortedOf, SemsOk, MsgsOk, TreeOk, IdleOk, ProcsOk, Block;
    QueueHeads(k, f);
    RunningUnlinked(k);
    BlockKeeps(k, Consumers(f), Receiving(k.procs[k.current], f));
  }

  datatype ReceiveCase = NoSource | Rendezvous | QueueEmpty | FullWithProducer | FromRing

  /** The branch `preceive` takes. */
  function ReceiveCaseOf(k: K, f: Fid): (c: ReceiveCase)
    requires Inv(k)
    ensures c != NoSource ==> f in k.queues
  {
    if f !in k.queues then NoSource
    else if IsEmpty(k.queues[f].ring) && k.lists[Producers(f)] != [] then Rendezvous
    else if IsEmpty(k.queues[f].ring) && k.lists[Producers(f)] == [] then QueueEmpty
    else if IsFull(k.queues[f].ring) && k.lists[Producers(f)] != [] then FullWithProducer
    else FromRing
  }

  /** `preceive`. */
  function PReceive(k: K, f: Fid): (r: K)
    requires Inv(k) && k.current != IDLE
    ensures Inv(r)
  {
    EnterKeeps(k, InReceive);
    var k0 := Enter(k, InReceive);
    match ReceiveCaseOf(k, f)
    case NoSource => k
    case Rendezvous =>
      TakeDirectKeeps(k0, f);
      Schedule(TakeDirect(k0, f))
    case QueueEmpty =>
      ReceiveBlocks(k, f);
      Schedule(Block(k, Consumers(f), Receiving(k.procs[k.current], f)))
    case FullWithProducer =>
      RefillKeeps(k0, f);
      Schedule(Refill(k0, f))
    case FromRing =>
      QueueHeads(k, f);
      FetchKeeps(k0, f);
      Fetch(k0, f)
  }

  /** `pcount`. */
  function PCount(k: K, f: Fid): int
    requires Inv(k) && f in k.queues
  {
    QueueHeads(k, f);
    if k.lists[Consumers(f)] != [] then -|k.lists[Consumers(f)]|
    else k.queues[f].ring.num + |k.lists[Producers(f)]|
  }

  // ----- preset, pdelete, pcreate -----

  function Abandoned(pr: Proc): Proc {
    pr.(link := Unlinked, state := Activatable, message := pr.message.(status := Error), release := QueueReset)
  }

  /** `free_blocked_queue`. */
  function ReleaseAll(k: K, l: ListId): (r: K)
    requires Member(k) && l in k.lists && l != Ready
    ensures Member(r) && (Sorted(k) ==> Sorted(r))
    decreases |k.lists[l]|
  {
    if k.lists[l] == [] then k
    else
      TopMember(k, l);
      var p := Top(k, l);
      var k1 := Release(k, p, Abandoned(k.procs[p]));
      ReleaseEffect(k, p, Abandoned(k.procs[p]));
      ReleaseAll(k1, l)
  }

  lemma {:induction false} ReleaseAllKeeps(k: K, l: ListId)
    requires Inv(k) && l in k.lists && (l.Consumers? || l.Producers?)
    ensures var r := ReleaseAll(k, l);
            && Inv(r) && r.queues == k.queues && r.sems == k.sems && r.current == k.current && r.clock == k.clock
            && (forall m :: m in k.lists <==> m in r.lists)
            && r.lists[l] == []
            && (forall m :: m in k.lists && m != l && m != Ready ==> r.lists[m] == k.lists[m])
            && r.procs.Keys == k.procs.Keys && r.procs[r.current] == k.procs[k.current]
    decreases |k.lists[l]|
  {
    hide MemberOf, SortedOf, SemsOk, MsgsOk, TreeOk, IdleOk, ProcsOk, Release;
    RunningUnlinked(k);
    if k.lists[l] != [] {
      BlockedProc(k, l);
      var p := Top(k, l);
      var pr := Abandoned(k.procs[p]);
      ReleaseKeeps(k, p, pr);
      ReleaseEffect(k, p, pr);
      ReleaseAllKeeps(Release(k, p, pr), l);
    }
  }

  /** Both lists of a queue are released, consumers first. */
  function ReleaseBoth(k: K, f: Fid): (r: K)
    requires Inv(k) && f in k.queues
    ensures Inv(r) && r.queues == k.queues && r.sems == k.sems && r.current == k.current
    ensures r.clock == k.clock && r.procs.Keys == k.procs.Keys
    ensures Consumers(f) in r.lists && r.lists[Consumers(f)] == []
    ensures Producers(f) in r.lists && r.lists[Producers(f)] == []
  {
    QueueHeads(k, f);
    ReleaseAllKeeps(k, Consumers(f));
    var k1 := ReleaseAll(k, Consumers(f));
    ReleaseAllKeeps(k1, Producers(f));
    ReleaseAll(k1, Producers(f))
  }

  lemma BlankMsg(arr: seq<int>, cs: seq<Pid>, ps: seq<Pid>)
    requires cs == [] && ps == []
    ensures MsgOk(MsgQueue(Ring(arr, 0, 0), [], []), cs, ps)
  {}

  /** `preset`. */
  function PReset(k: K, f: Fid): (r: K)
    requires Inv(k)
    ensures Inv(r)
  {
    if f !in k.queues then k
    else
      EnterKeeps(k, NoCall);
      var k1 := ReleaseBoth(Enter(k, NoCall), f);
      BlankMsg(k.queues[f].ring.arr, k1.lists[Consumers(f)], k1.lists[Producers(f)]);
      SetQueueKeeps(k1, f, MsgQueue(Ring(k.queues[f].ring.arr, 0, 0), [], []));
      Schedule(SetQueue(k1, f, MsgQueue(Ring(k.queues[f].ring.arr, 0, 0), [], [])))
  }

  function DropQueue(k: K, f: Fid): K {
    k.(queues := k.queues - {f}, lists := k.lists - {Consumers(f), Producers(f)})
  }

  lemma DropQueueMember(k: K, f: Fid)
    requires Member(k) && f in k.queues
    requires k.lists[Consumers(f)] == [] && k.lists[Producers(f)] == []
    ensures Member(DropQueue(k, f))
    ensures Sorted(k) ==> Sorted(DropQueue(k, f))
  {
    var k' := DropQueue(k, f);
    forall l ensures l in k'.lists <==> IsHead(k'.queues, l) {
      assert l in k.lists <==> IsHead(k.queues, l);
    }
    forall p | p in k'.procs && k'.procs[p].link.LinkedIn? ensures k'.procs[p].link.list in k'.lists {
      assert Holds(k.procs, k.procs[p].link.list, k.lists[k.procs[p].link.list]);
    }
  }

  lemma DropQueueKeeps(k: K, f: Fid)
    requires Inv(k) && f in k.queues && Consumers(f) in k.lists && Producers(f) in k.lists
    requires k.lists[Consumers(f)] == [] && k.lists[Producers(f)] == []
    ensures Inv(DropQueue(k, f))
  {
    hide MemberOf, SortedOf, SemsOk, TreeOk, IdleOk, ProcsOk, MsgOk;
    DropQueueMember(k, f);
  }

  /** `pdelete`. */
  function PDelete(k: K, f: Fid): (r: K)
    requires Inv(k)
    ensures Inv(r)
  {
    if f !in k.queues then k
    else
      EnterKeeps(k, NoCall);
      var k1 := ReleaseBoth(Enter(k, NoCall), f);
      DropQueueKeeps(k1, f);
      Schedule(DropQueue(k1, f))
  }

  /** `get_first_free_index`, from index i on. */
  function FirstFree(queues: map<Fid, MsgQueue>, i: nat): (r: int)
    requires i <= NB_QUEUES
    ensures r == -1 || (i <= r < NB_QUEUES && r !in queues)
    ensures r == -1 ==> forall j :: i <= j < NB_QUEUES ==> j in queues
    ensures forall j :: i <= j < r ==> j in queues
    decreases NB_QUEUES - i
  {
    if i == NB_QUEUES then -1 else if i !in queues then i else FirstFree(queues, i + 1)
  }

  function NewQueue(k: K, f: Fid, size: nat): K {
    k.(queues := k.queues[f := MsgQueue(Blank(size), [], [])],
       lists := k.lists[Consumers(f) := []][Producers(f) := []])
  }

  lemma NewQueueMember(k: K, f: Fid, size: nat)
    requires Member(k) && f !in k.queues
    ensures Member(NewQueue(k, f, size))
    ensures Sorted(k) ==> Sorted(NewQueue(k, f, size))
  {
    var k' := NewQueue(k, f, size);
    forall l ensures l in k'.lists <==> IsHead(k'.queues, l) {
      assert l in k.lists <==> IsHead(k.queues, l);
    }
    forall l | l in k'.lists ensures Holds(k'.procs, l, k'.lists[l]) {
      if l in k.lists { assert Holds(k.procs, l, k.lists[l]); }
    }
  }

  lemma NewQueueKeeps(k: K, f: Fid, size: nat)
    requires Inv(k) && f !in k.queues
    ensures Inv(NewQueue(k, f, size))
  {
    hide MemberOf, SortedOf, SemsOk, TreeOk, IdleOk, ProcsOk;
    NewQueueMember(k, f, size);
  }

  /** `pcreate`. */
  function PCreate(k: K, size: int): (r: K)
    requires Inv(k)
    ensures Inv(r)
  {
    var f := FirstFree(k.queues, 0);
    if size < 0 || f < 0 then k
    else
      EnterKeeps(k, NoCall);
      NewQueueKeeps(Enter(k, NoCall), f, size);
      NewQueue(Enter(k, NoCall), f, size)
  }
}
