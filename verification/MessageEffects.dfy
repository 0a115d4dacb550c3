/**
  What the calls on message queues do, in terms of stored messages, lists and fields before
  and after.
  */
module MessageEffects {
  import opened Common
  import opened PriorityOrder
  import opened MessageRing
  import opened KernelState
  import opened KernelInvariant
  import opened KernelMoves
  import opened MessageCalls
  import opened SchedulerTheorems
  import opened SemaphoreTheorems
  import opened MessageTheorems
  import opened WakeReasons
  import opened SchedulerMoves
  import opened CallEffects

  /** The ring has no room. */
  predicate Filled(r: Ring)
    requires RingOk(r)
  {
    |Stored(r)| == |r.arr|
  }

  lemma QueueMembers(k: K, l: ListId)
    requires Inv(k) && l in k.lists
    ensures Distinct(k.lists[l])
    ensures forall i :: 0 <= i < |k.lists[l]| ==> k.lists[l][i] in k.procs && k.procs[k.lists[l][i]].link == LinkedIn(l) && k.lists[l][i] != k.current
  {
    assert Holds(k.procs, l, k.lists[l]);
  }

  lemma TopGone(k: K, l: ListId, pr: Proc)
    requires Inv(k) && l in k.lists && l != Ready && k.lists[l] != [] && pr.link.Unlinked?
    ensures Top(k, l) in k.procs && k.procs[Top(k, l)].link == LinkedIn(l)
    ensures var r := Release(k, Top(k, l), pr); l in r.lists && r.lists[l] == k.lists[l][..|k.lists[l]| - 1]
  {
    hide MemberOf, SortedOf, SemsOk, MsgsOk, TreeOk, IdleOk, ProcsOk, Release;
    TopMember(k, l);
    QueueMembers(k, l);
    LastIndex(k.lists[l]);
    ReleaseEffect(k, Top(k, l), pr);
  }

  // ----- psend -----

  /** A waiting consumer gets the message, the one of highest priority. */
  lemma SendToConsumer(k: K, f: Fid, m: int)
    requires Inv(k) && k.current != IDLE && f in k.queues && Consumers(f) in k.lists && k.lists[Consumers(f)] != []
    ensures var cs, q, k' := k.lists[Consumers(f)], k.queues[f], PSend(k, f, m);
            var c := cs[|cs| - 1];
            && Resumed(k', c) && k'.procs[c].message.value == m && k'.procs[c].message.status.Received? && Resumed(k', k.current)
            && Consumers(f) in k'.lists && k'.lists[Consumers(f)] == cs[..|cs| - 1]
            && k'.queues == k.queues[f := q.(accepted := q.accepted + [m], delivered := q.delivered + [m])]
  {
    hide MemberOf, SortedOf, SemsOk, MsgsOk, TreeOk, IdleOk, ProcsOk, Schedule, Release;
    RunningUnlinked(k);
    Queue(k, f);
    EnterKeeps(k, InSend(m));
    var k0 := Enter(k, InSend(m));
    HandOverKeeps(k0, f, m);
    BlockedProc(k0, Consumers(f));
    var c := Top(k0, Consumers(f));
    ReleaseEffect(k0, c, Handed(k0.procs[c], m));
    TopGone(k0, Consumers(f), Handed(k0.procs[c], m));
    var k1 := HandOver(k0, f, m);
    ScheduleMoves(k1, c);
    ScheduleMoves(k1, k.current);
    ScheduleLists(k1, Consumers(f));
    ScheduleLeaves(k1);
  }

  /** With room and nobody waiting for it, the message is stored behind all others, and the
      caller goes on. */
  lemma SendToRing(k: K, f: Fid, m: int)
    requires Inv(k) && k.current != IDLE && f in k.queues && Consumers(f) in k.lists && k.lists[Consumers(f)] == []
    requires RingOk(k.queues[f].ring) && !Filled(k.queues[f].ring)
    ensures var q, k' := k.queues[f], PSend(k, f, m);
            && f in k'.queues && RingOk(k'.queues[f].ring) && Stored(k'.queues[f].ring) == Stored(q.ring) + [m]
            && |k'.queues[f].ring.arr| == |q.ring.arr| && k'.queues[f].accepted == q.accepted + [m] && k'.queues[f].delivered == q.delivered
            && k'.queues == k.queues[f := k'.queues[f]] && k'.lists == k.lists && k'.current == k.current
  {
    hide MemberOf, SortedOf, SemsOk, MsgsOk, TreeOk, IdleOk, ProcsOk;
    RunningUnlinked(k);
    Queue(k, f);
    EnterKeeps(k, InSend(m));
    StoreKeeps(Enter(k, InSend(m)), f, m);
    PutAppends(k.queues[f].ring, m);
  }

  /** Without room the caller waits among the producers with its message. */
  lemma SendWaits(k: K, f: Fid, m: int)
    requires Inv(k) && k.current != IDLE && f in k.queues && Consumers(f) in k.lists && k.lists[Consumers(f)] == []
    requires RingOk(k.queues[f].ring) && Filled(k.queues[f].ring)
    ensures Producers(f) in k.lists && forall i :: 0 <= i < |k.lists[Producers(f)]| ==> k.lists[Producers(f)][i] in k.procs
    ensures var p, ps, k' := k.current, k.lists[Producers(f)], PSend(k, f, m);
            && p in k.procs && p in k'.procs && k'.procs[p].state.BlockedQueue? && k'.procs[p].link == LinkedIn(Producers(f))
            && k'.procs[p].message.value == m && k'.current != p && k'.queues == k.queues
            && Producers(f) in k'.lists && k'.lists[Producers(f)] == InsertAt(ps, Rank(Keys(k.procs, Producers(f), ps), k.procs[p].prio), p)
  {
    hide MemberOf, SortedOf, SemsOk, MsgsOk, TreeOk, IdleOk, ProcsOk, Schedule, Block;
    RunningUnlinked(k);
    Queue(k, f);
    QueueMembers(k, Producers(f));
    SendBlocks(k, f, m);
    var pr := Sending(k.procs[k.current], f, m);
    var k1 := Block(k, Producers(f), pr);
    BlockEffect(k, Producers(f), pr);
    BlockList(k, Producers(f), pr);
    ScheduleMoves(k1, k.current);
    ScheduleLists(k1, Producers(f));
    ScheduleLeaves(k1);
  }

  /** Where a message sent to f is afterwards: with the first consumer, behind all that are
      stored, or with its sender among the producers. */
  ghost predicate Arrived(k: K, k': K, f: Fid, m: int) {
    && f in k.queues && f in k'.queues && RingOk(k.queues[f].ring) && RingOk(k'.queues[f].ring) && Consumers(f) in k.lists
    && var cs, p := k.lists[Consumers(f)], k.current;
       if cs != [] then
         var c := cs[|cs| - 1]; Resumed(k', c) && k'.procs[c].message.value == m && k'.procs[c].message.status.Received?
       else if !Filled(k.queues[f].ring) then Stored(k'.queues[f].ring) == Stored(k.queues[f].ring) + [m] && k'.current == p
       else p in k'.procs && k'.procs[p].link == LinkedIn(Producers(f)) && k'.procs[p].message.value == m && k'.queues == k.queues
  }

  lemma SendGoes(k: K, f: Fid, m: int)
    requires Inv(k) && k.current != IDLE && f in k.queues
    ensures Arrived(k, PSend(k, f, m), f, m)
  {
    hide Inv, PSend, Stored;
    Queue(k, f);
    if k.lists[Consumers(f)] != [] { SendToConsumer(k, f, m); }
    else if !Filled(k.queues[f].ring) { SendToRing(k, f, m); }
    else { SendWaits(k, f, m); }
  }

  // ----- preceive -----

  /** What is left and what is received when the messages of a queue are `line`. */
  ghost predicate FirstOf(k: K, f: Fid, k': K, line: seq<int>)
    requires Inv(k) && f in k.queues && RingOk(k.queues[f].ring) && line != []
  {
    && ReceivedNow(k, f) == Some(line[0])
    && f in k'.queues && RingOk(k'.queues[f].ring) && Stored(k'.queues[f].ring) == line[1..]
    && |k'.queues[f].ring.arr| == |k.queues[f].ring.arr| && k'.queues == k.queues[f := k'.queues[f]]
    && k'.queues[f].delivered == k.queues[f].delivered + [line[0]]
  }

  /** The first producer is released. */
  ghost predicate ProducerServed(k: K, f: Fid, k': K, t: Pid)
    requires Producers(f) in k.lists && k.lists[Producers(f)] != []
  {
    var ps := k.lists[Producers(f)];
    && t == ps[|ps| - 1] && Resumed(k', t) && k'.procs[t].message.status.Sent? && Resumed(k', k.current)
    && Producers(f) in k'.lists && k'.lists[Producers(f)] == ps[..|ps| - 1]
  }

  /** With a producer waiting, the messages of the queue are the stored ones and then its
      own: the first goes to the caller, the others are stored. */
  lemma ReceiveFromProducer(k: K, f: Fid)
    requires Inv(k) && k.current != IDLE && f in k.queues && Producers(f) in k.lists && k.lists[Producers(f)] != []
    ensures var ps, q, k' := k.lists[Producers(f)], k.queues[f], PReceive(k, f);
            var t := ps[|ps| - 1];
            && t in k.procs && RingOk(q.ring) && ProducerServed(k, f, k', t)
            && FirstOf(k, f, k', Stored(q.ring) + [k.procs[t].message.value])
            && k'.queues[f].accepted == q.accepted + [k.procs[t].message.value]
  {
    hide Inv, FirstOf, ProducerServed, PReceive, Stored;
    Queue(k, f);
    if IsEmpty(k.queues[f].ring) { ReceiveMeets(k, f); } else { ReceiveRefills(k, f); }
  }

  lemma ReceiveMeets(k: K, f: Fid)
    requires Inv(k) && k.current != IDLE && f in k.queues && Producers(f) in k.lists && k.lists[Producers(f)] != [] && IsEmpty(k.queues[f].ring)
    ensures var ps, q, k' := k.lists[Producers(f)], k.queues[f], PReceive(k, f);
            var t := ps[|ps| - 1];
            && t in k.procs && RingOk(q.ring) && ProducerServed(k, f, k', t)
            && FirstOf(k, f, k', Stored(q.ring) + [k.procs[t].message.value])
            && k'.queues[f].accepted == q.accepted + [k.procs[t].message.value]
  {
    hide MemberOf, SortedOf, SemsOk, MsgsOk, TreeOk, IdleOk, ProcsOk, Schedule, Release, Stored;
    RunningUnlinked(k);
    Queue(k, f);
    EnterKeeps(k, InReceive);
    var k0 := Enter(k, InReceive);
    BlockedProc(k0, Producers(f));
    var t := Top(k0, Producers(f));
    TakeDirectKeeps(k0, f);
    ReleaseEffect(k0, t, Taken(k0.procs[t], false));
    TopGone(k0, Producers(f), Taken(k0.procs[t], false));
    var k1 := TakeDirect(k0, f);
    ScheduleMoves(k1, t);
    ScheduleMoves(k1, k.current);
    ScheduleLists(k1, Producers(f));
    ScheduleLeaves(k1);
    NothingStored(k.queues[f].ring);
  }

  lemma ReceiveRefills(k: K, f: Fid)
    requires Inv(k) && k.current != IDLE && f in k.queues && Producers(f) in k.lists && k.lists[Producers(f)] != [] && !IsEmpty(k.queues[f].ring)
    ensures var ps, q, k' := k.lists[Producers(f)], k.queues[f], PReceive(k, f);
            var t := ps[|ps| - 1];
            && t in k.procs && RingOk(q.ring) && ProducerServed(k, f, k', t)
            && FirstOf(k, f, k', Stored(q.ring) + [k.procs[t].message.value])
            && k'.queues[f].accepted == q.accepted + [k.procs[t].message.value]
  {
    hide MemberOf, SortedOf, SemsOk, MsgsOk, TreeOk, IdleOk, ProcsOk, Schedule, Release, Stored;
    RunningUnlinked(k);
    Queue(k, f);
    EnterKeeps(k, InReceive);
    var k0 := Enter(k, InReceive);
    BlockedProc(k0, Producers(f));
    var t := Top(k0, Producers(f));
    RefillKeeps(k0, f);
    ReleaseEffect(k0, t, Taken(k0.procs[t], true));
    TopGone(k0, Producers(f), Taken(k0.procs[t], true));
    var k1 := Refill(k0, f);
    ScheduleMoves(k1, t);
    ScheduleMoves(k1, k.current);
    ScheduleLists(k1, Producers(f));
    ScheduleLeaves(k1);
    RefillLine(k.queues[f], k.procs[t].message.value);
  }

  lemma RefillLine(q: MsgQueue, m: int)
    requires RingOk(q.ring) && !IsEmpty(q.ring)
    ensures RingOk(Fetched(q).ring) && !IsFull(Fetched(q).ring)
    ensures var q' := Appended(Fetched(q), m);
            && RingOk(q'.ring) && |q'.ring.arr| == |q.ring.arr| && |Stored(q.ring)| > 0
            && Stored(q'.ring) == (Stored(q.ring) + [m])[1..] && q.ring.arr[OldestIndex(q.ring)] == Stored(q.ring)[0]
  {
    hide Stored;
    DropOldest(q.ring);
    SomethingStored(q.ring);
    PutAppends(Fetched(q).ring, m);
  }

  /** With nobody waiting, the oldest stored message goes to the caller. */
  lemma ReceiveFromRing(k: K, f: Fid)
    requires Inv(k) && k.current != IDLE && f in k.queues && Producers(f) in k.lists && k.lists[Producers(f)] == []
    requires RingOk(k.queues[f].ring) && Stored(k.queues[f].ring) != []
    ensures var q, k' := k.queues[f], PReceive(k, f);
            && FirstOf(k, f, k', Stored(q.ring)) && k'.queues[f].accepted == q.accepted
            && k'.lists == k.lists && k'.current == k.current
  {
    hide MemberOf, SortedOf, SemsOk, MsgsOk, TreeOk, IdleOk, ProcsOk, Stored;
    RunningUnlinked(k);
    Queue(k, f);
    NotEmpty(k.queues[f].ring);
    EnterKeeps(k, InReceive);
    FetchKeeps(Enter(k, InReceive), f);
    DropOldest(k.queues[f].ring);
  }

  lemma NotEmpty(r: Ring)
    requires RingOk(r)
    ensures Stored(r) == [] <==> IsEmpty(r)
  {}

  /** With nothing to receive, the caller waits among the consumers. */
  lemma ReceiveWaits(k: K, f: Fid)
    requires Inv(k) && k.current != IDLE && f in k.queues && Producers(f) in k.lists && k.lists[Producers(f)] == []
    requires RingOk(k.queues[f].ring) && Stored(k.queues[f].ring) == []
    ensures Consumers(f) in k.lists && forall i :: 0 <= i < |k.lists[Consumers(f)]| ==> k.lists[Consumers(f)][i] in k.procs
    ensures var p, cs, k' := k.current, k.lists[Consumers(f)], PReceive(k, f);
            && p in k.procs && p in k'.procs && k'.procs[p].state.BlockedQueue? && k'.procs[p].link == LinkedIn(Consumers(f))
            && k'.current != p && k'.queues == k.queues && ReceivedNow(k, f).None?
            && Consumers(f) in k'.lists && k'.lists[Consumers(f)] == InsertAt(cs, Rank(Keys(k.procs, Consumers(f), cs), k.procs[p].prio), p)
  {
    hide MemberOf, SortedOf, SemsOk, MsgsOk, TreeOk, IdleOk, ProcsOk, Schedule, Block;
    RunningUnlinked(k);
    Queue(k, f);
    QueueMembers(k, Consumers(f));
    ReceiveBlocks(k, f);
    var pr := Receiving(k.procs[k.current], f);
    var k1 := Block(k, Consumers(f), pr);
    BlockEffect(k, Consumers(f), pr);
    BlockList(k, Consumers(f), pr);
    ScheduleMoves(k1, k.current);
    ScheduleLists(k1, Consumers(f));
    ScheduleLeaves(k1);
  }

  // ----- preset, pdelete, pcreate -----

  /** After `preset` nothing is stored and nobody waits: `pcount` is 0. Whoever waited is
      ready or running, and its call fails. */
  lemma ResetQueueEffect(k: K, f: Fid)
    requires Inv(k) && f in k.queues
    ensures var k' := PReset(k, f);
            && f in k'.queues && RingOk(k'.queues[f].ring) && Stored(k'.queues[f].ring) == []
            && k'.queues[f].accepted == [] && k'.queues[f].delivered == [] && |k'.queues[f].ring.arr| == |k.queues[f].ring.arr|
            && k'.queues == k.queues[f := k'.queues[f]]
            && Consumers(f) in k'.lists && k'.lists[Consumers(f)] == [] && Producers(f) in k'.lists && k'.lists[Producers(f)] == []
            && PCount(k', f) == 0 && Resumed(k', k.current)
    ensures forall p :: p in k.procs && (k.procs[p].link == LinkedIn(Consumers(f)) || k.procs[p].link == LinkedIn(Producers(f))) ==>
              Resumed(PReset(k, f), p) && PReset(k, f).procs[p].message.status.Error?
  {
    hide MemberOf, SortedOf, SemsOk, MsgsOk, TreeOk, IdleOk, ProcsOk, Schedule, ReleaseBoth;
    RunningUnlinked(k);
    Queue(k, f);
    EnterKeeps(k, NoCall);
    var k0 := Enter(k, NoCall);
    BothReleased(k0, f);
    var k1 := ReleaseBoth(k0, f);
    var q' := MsgQueue(Ring(k.queues[f].ring.arr, 0, 0), [], []);
    BlankMsg(k.queues[f].ring.arr, k1.lists[Consumers(f)], k1.lists[Producers(f)]);
    SetQueueKeeps(k1, f, q');
    var k2 := SetQueue(k1, f, q');
    ScheduleLeaves(k2);
    ScheduleLists(k2, Consumers(f));
    ScheduleLists(k2, Producers(f));
    RunningUnlinked(k1);
    ScheduleMoves(k2, k2.current);
    forall p | p in k.procs && (k.procs[p].link == LinkedIn(Consumers(f)) || k.procs[p].link == LinkedIn(Producers(f)))
      ensures Resumed(PReset(k, f), p) && PReset(k, f).procs[p].message.status.Error?
    {
      AllReleased(k0, f, p);
      ScheduleMoves(k2, p);
    }
  }

  lemma AllReleased(k: K, f: Fid, p: Pid)
    requires Inv(k) && f in k.queues && p in k.procs && (k.procs[p].link == LinkedIn(Consumers(f)) || k.procs[p].link == LinkedIn(Producers(f)))
    ensures var k1 := ReleaseBoth(k, f); p in k1.procs && k1.procs[p].link == LinkedIn(Ready) && k1.procs[p].message.status.Error?
  {
    hide MemberOf, SortedOf, SemsOk, MsgsOk, TreeOk, IdleOk, ProcsOk, ReleaseBoth;
    ReleaseBothFrame(k, f, p);
    BothReleased(k, f);
    var k1 := ReleaseBoth(k, f);
    ListHas(k1, Consumers(f), p);
    ListHas(k1, Producers(f), p);
  }

  /** After `pdelete` the queue and its lists are gone. Whoever waited is ready or running,
      and its call fails. */
  lemma DeleteQueueEffect(k: K, f: Fid)
    requires Inv(k) && f in k.queues
    ensures var k' := PDelete(k, f);
            k'.queues == k.queues - {f} && Consumers(f) !in k'.lists && Producers(f) !in k'.lists && Resumed(k', k.current)
    ensures forall p :: p in k.procs && (k.procs[p].link == LinkedIn(Consumers(f)) || k.procs[p].link == LinkedIn(Producers(f))) ==>
              Resumed(PDelete(k, f), p) && PDelete(k, f).procs[p].message.status.Error?
  {
    hide MemberOf, SortedOf, SemsOk, MsgsOk, TreeOk, IdleOk, ProcsOk, Schedule, ReleaseBoth;
    RunningUnlinked(k);
    EnterKeeps(k, NoCall);
    var k0 := Enter(k, NoCall);
    BothReleased(k0, f);
    var k1 := ReleaseBoth(k0, f);
    DropQueueKeeps(k1, f);
    var k2 := DropQueue(k1, f);
    ScheduleLeaves(k2);
    NoHeads(PDelete(k, f), f);
    RunningUnlinked(k1);
    ScheduleMoves(k2, k2.current);
    forall p | p in k.procs && (k.procs[p].link == LinkedIn(Consumers(f)) || k.procs[p].link == LinkedIn(Producers(f)))
      ensures Resumed(PDelete(k, f), p) && PDelete(k, f).procs[p].message.status.Error?
    {
      AllReleased(k0, f, p);
      ScheduleMoves(k2, p);
    }
  }

  lemma NoHeads(k: K, f: Fid)
    requires Inv(k) && f !in k.queues
    ensures Consumers(f) !in k.lists && Producers(f) !in k.lists
  {}

  /** `pcreate` takes the smallest identifier that is not in use, for an empty queue of the
      capacity asked for; it does nothing for a negative one, or if all are in use. */
  lemma CreateQueueEffect(k: K, size: int) returns (f: Fid)
    requires Inv(k)
    ensures size < 0 || (forall g :: 0 <= g < NB_QUEUES ==> g in k.queues) ==> PCreate(k, size) == k
    ensures size >= 0 && (exists g :: 0 <= g < NB_QUEUES && g !in k.queues) ==>
              && 0 <= f < NB_QUEUES && f !in k.queues && (forall g :: 0 <= g < f ==> g in k.queues)
              && NewlyMade(k, PCreate(k, size), f, size)
  {
    hide MemberOf, SortedOf, SemsOk, MsgsOk, TreeOk, IdleOk, ProcsOk, NewlyMade;
    f := FirstFree(k.queues, 0);
    if size >= 0 && f >= 0 {
      Made(k, size, f);
    }
  }

  lemma Made(k: K, size: nat, f: Fid)
    requires Inv(k) && f == FirstFree(k.queues, 0) >= 0
    ensures NewlyMade(k, PCreate(k, size), f, size)
  {
    hide MemberOf, SortedOf, SemsOk, MsgsOk, TreeOk, IdleOk, ProcsOk, FirstFree;
    RunningUnlinked(k);
  }

  ghost predicate NewlyMade(k: K, k': K, f: Fid, size: int) {
    && f in k'.queues && RingOk(k'.queues[f].ring) && Stored(k'.queues[f].ring) == [] && |k'.queues[f].ring.arr| == size
    && k'.queues[f].accepted == [] && k'.queues[f].delivered == [] && k'.queues == k.queues[f := k'.queues[f]]
    && Consumers(f) in k'.lists && k'.lists[Consumers(f)] == [] && Producers(f) in k'.lists && k'.lists[Producers(f)] == []
    && (forall l :: l in k.lists && l != Consumers(f) && l != Producers(f) ==> l in k'.lists && k'.lists[l] == k.lists[l])
    && k'.current == k.current
  }
}
