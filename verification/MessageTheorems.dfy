/**
  What message queues promise: first in, first out over whole runs, exact counts, and a
  result for every blocked call that matches what released it.
  */
module MessageTheorems {
  import opened Common
  import opened MessageRing
  import opened KernelState
  import opened KernelInvariant
  import opened KernelMoves
  import opened MessageCalls
  import opened KernelRuns
  import opened SemaphoreTheorems

  /** In every state of every run: what a queue has delivered followed by what it stores is
      what it has accepted since it was created or reset; consumers wait only at an empty
      ring, producers only at a full one, and never both at once. */
  lemma LogBalance(ks: seq<K>, es: seq<Event>, n: nat, f: Fid)
    requires IsRun(ks, es) && n < |ks| && f in ks[n].queues
    ensures var q := ks[n].queues[f];
            && RingOk(q.ring) && q.accepted == q.delivered + Stored(q.ring)
            && Consumers(f) in ks[n].lists && Producers(f) in ks[n].lists
            && (ks[n].lists[Consumers(f)] != [] ==> IsEmpty(q.ring) && ks[n].lists[Producers(f)] == [])
            && (ks[n].lists[Producers(f)] != [] ==> IsFull(q.ring))
  {
    hide Inv, KernelRuns.Step, Boot;
    RunInv(ks, es, n);
    Queue(ks[n], f);
  }

  lemma Queue(k: K, f: Fid)
    requires Inv(k) && f in k.queues
    ensures Consumers(f) in k.lists && Producers(f) in k.lists
    ensures MsgOk(k.queues[f], k.lists[Consumers(f)], k.lists[Producers(f)])
  {}

  /** The i-th message a queue delivers is the i-th it accepted. */
  lemma DeliveredInOrder(ks: seq<K>, es: seq<Event>, n: nat, f: Fid, i: nat)
    requires IsRun(ks, es) && n < |ks| && f in ks[n].queues && i < |ks[n].queues[f].delivered|
    ensures i < |ks[n].queues[f].accepted|
    ensures ks[n].queues[f].delivered[i] == ks[n].queues[f].accepted[i]
  {
    hide Inv, KernelRuns.Step, Boot;
    LogBalance(ks, es, n, f);
  }

  /** With a capacity, "empty with blocked producers" cannot occur: the rendezvous branch of
      `preceive` is reached only by queues of capacity 0. */
  lemma RendezvousNeedsNoCapacity(k: K, f: Fid)
    requires Inv(k) && ReceiveCaseOf(k, f).Rendezvous?
    ensures f in k.queues && |k.queues[f].ring.arr| == 0
  {
    Queue(k, f);
  }

  /** `pcount` is stored plus waiting sends, minus waiting receives. */
  lemma CountIsBalance(k: K, f: Fid)
    requires Inv(k) && f in k.queues
    ensures Consumers(f) in k.lists && Producers(f) in k.lists
    ensures PCount(k, f) ==
            |Stored(k.queues[f].ring)| + |k.lists[Producers(f)]| - |k.lists[Consumers(f)]|
  {
    Queue(k, f);
  }

  /** The value `preceive` writes when it does not wait. */
  function ReceivedNow(k: K, f: Fid): Option<int>
    requires Inv(k)
  {
    match ReceiveCaseOf(k, f)
    case Rendezvous => TopMember(k, Producers(f)); Some(k.procs[Top(k, Producers(f))].message.value)
    case FullWithProducer => Queue(k, f); DropOldest(k.queues[f].ring);
      Some(k.queues[f].ring.arr[OldestIndex(k.queues[f].ring)])
    case FromRing => Queue(k, f); DropOldest(k.queues[f].ring);
      Some(k.queues[f].ring.arr[OldestIndex(k.queues[f].ring)])
    case _ => None
  }

  /** A receive that does not wait returns the oldest message of the queue, or, in an empty
      queue, the message of its first producer; it is delivered once, and is the next one
      in the order of acceptance. */
  lemma ReceiveDelivers(k: K, f: Fid)
    requires Inv(k) && k.current != IDLE && ReceivedNow(k, f).Some?
    ensures f in k.queues && f in PReceive(k, f).queues
    ensures var q, q', v := k.queues[f], PReceive(k, f).queues[f], ReceivedNow(k, f).value;
            && q'.delivered == q.delivered + [v]
            && |q.delivered| < |q'.accepted| && q'.accepted[|q.delivered|] == v
            && q.accepted <= q'.accepted
  {
    hide MemberOf, SortedOf, SemsOk, TreeOk, IdleOk, ProcsOk, Schedule, Release, Block, Stored;
    RunningUnlinked(k);
    Queue(k, f);
    EnterKeeps(k, InReceive);
    var k0 := Enter(k, InReceive);
    match ReceiveCaseOf(k, f) {
      case Rendezvous =>
        TakeDirectKeeps(k0, f);
        BlockedProc(k0, Producers(f));
        ReleaseEffect(k0, Top(k0, Producers(f)), Taken(k0.procs[Top(k0, Producers(f))], false));
        ScheduleLeaves(TakeDirect(k0, f));
        NothingStored(k.queues[f].ring);
        TopNotRunning(k, Producers(f));
      case FullWithProducer =>
        RefillKeeps(k0, f);
        BlockedProc(k0, Producers(f));
        ReleaseEffect(k0, Top(k0, Producers(f)), Taken(k0.procs[Top(k0, Producers(f))], true));
        ScheduleLeaves(Refill(k0, f));
        DropOldest(k.queues[f].ring);
        SomethingStored(k.queues[f].ring);
      case FromRing =>
        FetchKeeps(k0, f);
        DropOldest(k.queues[f].ring);
        SomethingStored(k.queues[f].ring);
    }
  }

  lemma NothingStored(r: Ring)
    requires RingOk(r) && IsEmpty(r)
    ensures Stored(r) == []
  {}

  lemma SomethingStored(r: Ring)
    requires RingOk(r) && !IsEmpty(r)
    ensures |Stored(r)| > 0
  {}

  lemma TopNotRunning(k: K, l: ListId)
    requires Inv(k) && l in k.lists && k.lists[l] != [] && (l.Consumers? || l.Producers?)
    ensures Top(k, l) != k.current
  {
    BlockedProc(k, l);
  }

  // ----- what a resumed call returns -----

  /** The result a call computes from its own process's fields once it runs again. */
  function Result(pr: Proc): int {
    match pr.call
    case NoCall => 0
    case InWait(_) => if pr.release.Refused? then -2 else pr.semSignal
    case InSend(_) => if pr.release.Immediate? || pr.message.status.Sent? then 0 else -1
    case InReceive => if pr.release.Immediate? || pr.message.status.Received? then 0 else -1
  }

  /** The result its documentation promises for what ended the wait. */
  function Promised(cause: Cause): int {
    match cause
    case Refused => -2
    case SemDeleted => -3
    case SemReset => -4
    case QueueReset => -1
    case _ => 0
  }

  /** In every state of every run, a process that is no longer waiting will return from its
      last call exactly the result that goes with its release, and a receiver returns the
      message handed to it; the status left by an earlier call is never read. */
  lemma ResultMatchesRelease(ks: seq<K>, es: seq<Event>, n: nat, p: Pid)
    requires IsRun(ks, es) && n < |ks| && p in ks[n].procs
    requires !Waiting(ks[n].procs[p]) && !ks[n].procs[p].call.NoCall?
    ensures Result(ks[n].procs[p]) == Promised(ks[n].procs[p].release)
    ensures ks[n].procs[p].call.InReceive? && ks[n].procs[p].release.Transferred? ==>
              ks[n].procs[p].message.value == ks[n].procs[p].release.value
  {
    hide Inv, KernelRuns.Step, Boot;
    RunInv(ks, es, n);
    CallsOk(ks[n], p);
  }

  lemma CallsOk(k: K, p: Pid)
    requires Inv(k) && p in k.procs
    ensures CallOk(k.procs[p])
  {}
}
