/**
  Message queues over whole runs: what is received is what was sent, in the order in which
  the queue accepted it. Both sides are read off the events and the states of the run.
  */
module MessageHistory {
  import opened Common
  import opened MessageRing
  import opened KernelState
  import opened KernelInvariant
  import opened KernelMoves
  import opened MessageCalls
  import opened SemaphoreCalls
  import opened ProcessCalls
  import opened PriorityLaws
  import opened ProcessTree
  import opened KernelRuns
  import opened SemaphoreTheorems
  import opened MessageTheorems
  import opened WakeReasons
  import opened SchedulerMoves
  import opened CallEffects
  import opened MessageEffects
  import opened SemaphoreEffects

  // ----- who waits as a producer -----

  /** The process waits to send. */
  predicate Offers(pr: Proc) { pr.link.LinkedIn? && pr.link.list.Producers? }

  lemma ResumedPlace(k: K, p: Pid)
    requires Inv(k) && Resumed(k, p)
    ensures k.procs[p].link.Unlinked? || k.procs[p].link == LinkedIn(Ready)
  {
    if p == k.current { RunningUnlinked(k); }
  }

  /** The caller of a process call is not among the producers afterwards. */
  lemma ProcCaller(k: K, c: ProcCall)
    requires Inv(k) && ProcAllowed(k, c)
    ensures var k' := ProcNext(k, c); k.current in k'.procs ==> !Offers(k'.procs[k.current])
  {
    hide Inv, Start, Exit, Kill, WaitChild, ChPrio, WaitClock, ConsWait, KeyPress, Tick, EndSafe, KillSafe, WaitSafe, ChPrioSafe;
    InvCurrent(k);
    var k' := ProcNext(k, c);
    match c {
      case Interrupt(key) => if key { KeyPressEffect(k); ResumedPlace(k', k.current); } else { TickCaller(k); }
      case StartCall(p, prio, junk) => StartEffect(k, p, prio, junk); ResumedPlace(k', k.current);
      case ExitCall => ExitEffect(k);
      case KillCall(p) => KillCaller(k, p);
      case WaitChildCall(p) => WaitChildEffect(k, p); if k'.current == k.current { RunningUnlinked(k'); }
      case ChPrioCall(p, prio) =>
        if ChPrioAccepts(k, p, prio) { ChPrioEffect(k, p, prio); ResumedPlace(k', k.current); }
        else { ChPrioSame(k, p, prio); RunningUnlinked(k); }
      case WaitClockCall(d) => WaitClockEffect(k, d);
      case ConsReadCall => ConsReadEffect(k);
    }
  }

  lemma ChPrioSame(k: K, p: Pid, prio: int)
    requires Inv(k) && !ChPrioAccepts(k, p, prio)
    ensures ChPrio(k, p, prio) == Done(k)
  {
    hide Inv;
  }

  lemma TickCaller(k: K)
    requires Inv(k)
    ensures k.current in Tick(k).procs && (Tick(k).procs[k.current].link.Unlinked? || Tick(k).procs[k.current].link == LinkedIn(Ready))
  {
    hide MemberOf, SortedOf, SemsOk, MsgsOk, TreeOk, IdleOk, ProcsOk, Schedule;
    RunningUnlinked(k);
    ScheduleMoves(k.(clock := k.clock + 1), k.current);
    ResumedPlace(Tick(k), k.current);
  }

  lemma KillCaller(k: K, p: Pid)
    requires Inv(k) && k.current != IDLE && KillSafe(k, p)
    ensures var k' := Kill(k, p).k; k.current in k'.procs ==> !Offers(k'.procs[k.current])
  {
    hide Inv, Kill, Exit, EndSafe;
    InvCurrent(k);
    if !KillAccepts(k, p) {
      KillRefused(k, p);
      RunningUnlinked(k);
    } else if p == k.current {
      KillSelf(k);
      ExitEffect(k);
    } else {
      KillEnds(k, p);
      RunningUnlinked(Kill(k, p).k);
    }
  }

  /** The caller of a message call is among the producers afterwards only if it sends, and
      then it carries the message. */
  lemma MsgCaller(k: K, c: MsgCall, f: Fid)
    requires Inv(k) && k.current != IDLE
    requires var k' := MsgNext(k, c); k.current in k'.procs && k'.procs[k.current].link == LinkedIn(Producers(f))
    ensures c == SendCall(f, MsgNext(k, c).procs[k.current].message.value)
  {
    hide Inv, PSend, PReceive, PReset, PDelete, PCreate, NewlyMade, FirstOf;
    InvCurrent(k);
    RunningUnlinked(k);
    var k' := MsgNext(k, c);
    match c {
      case CreateQueue(size) => CreateCaller(k, size); RunningUnlinked(k');
      case DeleteQueue(g) => if g in k.queues { DeleteQueueEffect(k, g); ResumedPlace(k', k.current); } else { NoQueueSame(k, g); }
      case ResetQueue(g) => if g in k.queues { ResetQueueEffect(k, g); ResumedPlace(k', k.current); } else { NoQueueSame(k, g); }
      case SendCall(g, m) => if g in k.queues { SendCaller(k, g, m); } else { NoQueueSend(k, g, m); }
      case ReceiveCall(g) => if g in k.queues { ReceiveCaller(k, g); } else { NoQueueSame(k, g); }
    }
    if Resumed(k', k.current) { ResumedPlace(k', k.current); }
  }

  lemma CreateCaller(k: K, size: int)
    requires Inv(k)
    ensures PCreate(k, size).current == k.current
  {
    hide MemberOf, SortedOf, SemsOk, MsgsOk, TreeOk, IdleOk, ProcsOk, FirstFree;
    RunningUnlinked(k);
  }

  lemma NoQueueSame(k: K, f: Fid)
    requires Inv(k) && k.current != IDLE && f !in k.queues
    ensures PDelete(k, f) == k && PReset(k, f) == k && PReceive(k, f) == k
  {}

  lemma NoQueueSend(k: K, f: Fid, m: int)
    requires Inv(k) && k.current != IDLE && f !in k.queues
    ensures PSend(k, f, m) == k
  {}

  lemma SendCaller(k: K, f: Fid, m: int)
    requires Inv(k) && k.current != IDLE && f in k.queues
    ensures var p, k' := k.current, PSend(k, f, m);
            Resumed(k', p) || (p in k'.procs && k'.procs[p].link == LinkedIn(Producers(f)) && k'.procs[p].message.value == m)
  {
    hide Inv, PSend;
    Queue(k, f);
    if k.lists[Consumers(f)] != [] { SendToConsumer(k, f, m); }
    else if !Filled(k.queues[f].ring) { SendToRing(k, f, m); InvCurrent(PSend(k, f, m)); }
    else { SendWaits(k, f, m); }
  }

  lemma ReceiveCaller(k: K, f: Fid)
    requires Inv(k) && k.current != IDLE && f in k.queues
    ensures var p, k' := k.current, PReceive(k, f);
            Resumed(k', p) || (p in k'.procs && k'.procs[p].link == LinkedIn(Consumers(f)))
  {
    hide Inv, PReceive, FirstOf;
    Queue(k, f);
    if k.lists[Producers(f)] != [] { ReceiveFromProducer(k, f); }
    else if Stored(k.queues[f].ring) != [] { ReceiveFromRing(k, f); InvCurrent(PReceive(k, f)); }
    else { ReceiveWaits(k, f); }
  }

  /** The message of the last `psend` that p has made. */
  ghost function LastSent(ks: seq<K>, es: seq<Event>, n: nat, p: Pid): int
    requires n <= |es| < |ks|
  {
    if n == 0 then 0
    else if ks[n - 1].current == p && es[n - 1].OfMsg? && es[n - 1].msg.SendCall? then es[n - 1].msg.message
    else LastSent(ks, es, n - 1, p)
  }

  lemma ProducerPending(k: K, p: Pid, f: Fid)
    requires Inv(k) && p in k.procs && k.procs[p].link == LinkedIn(Producers(f))
    ensures k.procs[p].release.Pending? && k.procs[p].call == InSend(k.procs[p].message.value) && p != k.current
  {}

  lemma PendingPlace(k: K, p: Pid)
    requires Inv(k) && p in k.procs && k.procs[p].release.Pending? && k.procs[p].call.InSend?
    ensures Offers(k.procs[p])
  {}

  /** A process that was not running and is among the producers was so before. */
  lemma OldProducer(k: K, e: Event, k': K, p: Pid, f: Fid)
    requires KernelRuns.Step(k, e, k') && Inv(k') && p != k.current && p in k'.procs && k'.procs[p].link == LinkedIn(Producers(f))
    ensures p in k.procs && k.procs[p].message == k'.procs[p].message && Offers(k.procs[p])
  {
    hide Inv, ProcNext, MsgNext, SemNext, Explains;
    ProducerPending(k', p, f);
    NotNew(k, e, k', p);
    match e {
      case OfProc(c) => ProcReason(k, c, p);
      case OfMsg(c) => MsgReason(k, c, p); PendingUnexplained(k.procs[p], e, k'.procs[p].release);
      case OfSem(c) => SemReason(k, c, p); PendingUnexplained(k.procs[p], e, k'.procs[p].release);
    }
    PendingPlace(k, p);
  }

  lemma PendingUnexplained(pr: Proc, e: Event, cause: Cause)
    requires cause.Pending?
    ensures !Explains(pr, e, cause)
  {}

  /** A process that waits in a call is not new. */
  lemma NotNew(k: K, e: Event, k': K, p: Pid)
    requires KernelRuns.Step(k, e, k') && p in k'.procs && k'.procs[p].release.Pending?
    ensures p in k.procs
  {
    hide Inv, ProcNext, MsgNext, SemNext;
    match e
    case OfProc(c) => ProcEffect(k, c);
    case OfMsg(c) => MsgCallsLeaveSems(k, c);
    case OfSem(c) => SemEffect(k, c);
  }

  /** Over every run, a process that waits to send has in its message field what it asked to
      send by its last `psend`. */
  lemma {:induction false} ProducerCarries(ks: seq<K>, es: seq<Event>, n: nat, p: Pid, f: Fid)
    requires IsRun(ks, es) && n < |ks| && p in ks[n].procs && ks[n].procs[p].link == LinkedIn(Producers(f))
    ensures ks[n].procs[p].message.value == LastSent(ks, es, n, p)
  {
    hide Inv, KernelRuns.Step, Boot;
    RunInv(ks, es, n);
    if n == 0 {
      BootNobodyWaits(ks, es, p);
    } else {
      RunInv(ks, es, n - 1);
      if p == ks[n - 1].current {
        NewProducer(ks[n - 1], es[n - 1], ks[n], f);
      } else {
        OldProducer(ks[n - 1], es[n - 1], ks[n], p, f);
        ProducerCarries(ks, es, n - 1, p, ks[n - 1].procs[p].link.list.fid);
      }
    }
  }

  lemma BootNobodyWaits(ks: seq<K>, es: seq<Event>, p: Pid)
    requires IsRun(ks, es) && p in ks[0].procs
    ensures ks[0].procs[p].link == LinkedIn(Ready) || ks[0].procs[p].link.Unlinked?
    ensures ks[0].queues == map[]
  {
    hide KernelRuns.Step;
  }

  /** A caller that waits to send afterwards has called `psend` with what it carries. */
  lemma NewProducer(k: K, e: Event, k': K, f: Fid)
    requires KernelRuns.Step(k, e, k') && Inv(k')
    requires k.current in k'.procs && k'.procs[k.current].link == LinkedIn(Producers(f))
    ensures e == OfMsg(SendCall(f, k'.procs[k.current].message.value))
  {
    hide Inv, ProcNext, MsgNext, SemNext;
    match e {
      case OfProc(c) => ProcCaller(k, c);
      case OfMsg(c) => MsgCaller(k, c, f);
      case OfSem(c) =>
        if c.WaitCall? { WaitIs(k, c.id); WaitCaller(k, c.id); } else { SemCaller(k, c); }
        if Resumed(k', k.current) { ResumedPlace(k', k.current); }
    }
  }

  lemma WaitIs(k: K, id: SemId)
    requires Inv(k) && SemAllowed(k, WaitCall(id))
    ensures SemNext(k, WaitCall(id)) == SWait(k, id)
  {
    hide Inv, SWait;
  }

  // ----- what a queue accepts and what is received from it -----

  predicate HasConsumer(k: K, f: Fid) { Consumers(f) in k.lists && k.lists[Consumers(f)] != [] }

  predicate HasProducer(k: K, f: Fid) { Producers(f) in k.lists && k.lists[Producers(f)] != [] }

  /** The process of a list that is served first. */
  function Foremost(k: K, l: ListId): Pid
    requires l in k.lists && k.lists[l] != []
  {
    k.lists[l][|k.lists[l]| - 1]
  }

  /** A message sent now does not have to wait. */
  ghost predicate TakesIn(k: K, f: Fid) {
    f in k.queues && (HasConsumer(k, f) || (RingOk(k.queues[f].ring) && !Filled(k.queues[f].ring)))
  }

  /** The messages queue f has accepted since it was created or last reset, in this order: a
      message sent when it need not wait, and one that waits when its sender is served. */
  ghost function Accepted(ks: seq<K>, es: seq<Event>, n: nat, f: Fid): seq<int>
    requires n <= |es| < |ks|
  {
    if n == 0 then []
    else
      var k, past := ks[n - 1], Accepted(ks, es, n - 1, f);
      match es[n - 1]
      case OfMsg(SendCall(g, m)) => if g == f && TakesIn(k, f) then past + [m] else past
      case OfMsg(ReceiveCall(g)) =>
        if g == f && f in k.queues && HasProducer(k, f) then past + [LastSent(ks, es, n - 1, Foremost(k, Producers(f)))] else past
      case OfMsg(ResetQueue(g)) => if g == f then [] else past
      case OfMsg(DeleteQueue(g)) => if g == f then [] else past
      case _ => past
  }

  /** The messages received from queue f in that time: what a waiting consumer finds in its
      message field once it is served, and what `preceive` gives to a caller at once. */
  ghost function Received(ks: seq<K>, es: seq<Event>, n: nat, f: Fid): seq<int>
    requires n <= |es| < |ks|
  {
    if n == 0 then []
    else
      var k, k', past := ks[n - 1], ks[n], Received(ks, es, n - 1, f);
      match es[n - 1]
      case OfMsg(SendCall(g, m)) =>
        if g == f && f in k.queues && HasConsumer(k, f) && Foremost(k, Consumers(f)) in k'.procs
        then past + [k'.procs[Foremost(k, Consumers(f))].message.value] else past
      case OfMsg(ReceiveCall(g)) => if g == f && Inv(k) && ReceivedNow(k, f).Some? then past + [ReceivedNow(k, f).value] else past
      case OfMsg(ResetQueue(g)) => if g == f then [] else past
      case OfMsg(DeleteQueue(g)) => if g == f then [] else past
      case _ => past
  }

  /** Queue f is as it was, or was not and is not. */
  predicate SameQueue(k: K, k': K, f: Fid) {
    (f in k'.queues <==> f in k.queues) && (f in k.queues ==> k'.queues[f] == k.queues[f])
  }

  lemma SendLog(k: K, f: Fid, m: int)
    requires Inv(k) && k.current != IDLE && f in k.queues
    ensures var k' := PSend(k, f, m);
            && k'.queues.Keys == k.queues.Keys && (forall g :: g != f ==> SameQueue(k, k', g))
            && k'.queues[f].accepted == k.queues[f].accepted + (if TakesIn(k, f) then [m] else [])
            && (HasConsumer(k, f) ==> Foremost(k, Consumers(f)) in k'.procs)
            && k'.queues[f].delivered == k.queues[f].delivered +
                 (if HasConsumer(k, f) then [k'.procs[Foremost(k, Consumers(f))].message.value] else [])
  {
    hide Inv, PSend, Stored;
    Queue(k, f);
    if k.lists[Consumers(f)] != [] { SendToConsumer(k, f, m); }
    else if !Filled(k.queues[f].ring) { SendToRing(k, f, m); }
    else { SendWaits(k, f, m); }
  }

  lemma ReceiveLog(k: K, f: Fid)
    requires Inv(k) && k.current != IDLE && f in k.queues
    ensures HasProducer(k, f) ==> Foremost(k, Producers(f)) in k.procs && k.procs[Foremost(k, Producers(f))].link == LinkedIn(Producers(f))
    ensures var k' := PReceive(k, f);
            && k'.queues.Keys == k.queues.Keys && (forall g :: g != f ==> SameQueue(k, k', g))
            && k'.queues[f].accepted == k.queues[f].accepted +
                 (if HasProducer(k, f) then [k.procs[Foremost(k, Producers(f))].message.value] else [])
            && k'.queues[f].delivered == k.queues[f].delivered + (if ReceivedNow(k, f).Some? then [ReceivedNow(k, f).value] else [])
  {
    hide Inv, PReceive, Stored, ReceivedNow;
    Queue(k, f);
    QueueMembers(k, Producers(f));
    if k.lists[Producers(f)] != [] { ReceiveFromProducer(k, f); }
    else if Stored(k.queues[f].ring) != [] { ReceiveFromRing(k, f); }
    else { ReceiveWaits(k, f); }
  }

  /** Process and semaphore calls leave the queues alone. */
  lemma OthersLeave(k: K, e: Event, k': K)
    requires KernelRuns.Step(k, e, k') && !e.OfMsg?
    ensures k'.queues == k.queues
  {
    hide Inv, ProcNext, MsgNext, SemNext;
    match e
    case OfProc(c) => ProcEffect(k, c);
    case OfSem(c) => SemEffect(k, c);
  }

  /** A queue that is not concerned by a call is as it was; a new one is empty. */
  lemma QueueAround(k: K, c: MsgCall, f: Fid)
    requires Inv(k) && k.current != IDLE
    ensures var k' := MsgNext(k, c);
            match c
            case CreateQueue(_) =>
              SameQueue(k, k', f) || (f !in k.queues && f in k'.queues && k'.queues[f].accepted == [] && k'.queues[f].delivered == [])
            case DeleteQueue(g) => if f == g then f !in k'.queues else SameQueue(k, k', f)
            case ResetQueue(g) =>
              if f == g && f in k.queues then f in k'.queues && k'.queues[f].accepted == [] && k'.queues[f].delivered == []
              else SameQueue(k, k', f)
            case _ => f !in k.queues || f != c.fid ==> SameQueue(k, k', f)
  {
    hide Inv, PSend, PReceive, PReset, PDelete, PCreate, Stored;
    match c {
      case CreateQueue(size) => var g := CreateQueueEffect(k, size);
      case DeleteQueue(g) => if g in k.queues { DeleteQueueEffect(k, g); } else { NoQueueSame(k, g); }
      case ResetQueue(g) => if g in k.queues { ResetQueueEffect(k, g); } else { NoQueueSame(k, g); }
      case SendCall(g, m) => if g in k.queues { SendLog(k, g, m); } else { NoQueueSend(k, g, m); }
      case ReceiveCall(g) => if g in k.queues { ReceiveLog(k, g); } else { NoQueueSame(k, g); }
    }
  }

  /** The logs of queue f are those read off the run. */
  ghost predicate LoggedAt(ks: seq<K>, es: seq<Event>, n: nat, f: Fid)
    requires n <= |es| < |ks|
  {
    if f in ks[n].queues
    then ks[n].queues[f].accepted == Accepted(ks, es, n, f) && ks[n].queues[f].delivered == Received(ks, es, n, f)
    else Accepted(ks, es, n, f) == [] && Received(ks, es, n, f) == []
  }

  /** Over every run, the logs of a queue are those read off the run. */
  lemma {:induction false} LogsAreHistory(ks: seq<K>, es: seq<Event>, n: nat, f: Fid)
    requires IsRun(ks, es) && n < |ks|
    ensures LoggedAt(ks, es, n, f)
  {
    hide Inv, KernelRuns.Step, Boot, Accepted, Received;
    if n == 0 {
      BootNoQueues(ks, es);
      Beginning(ks, es, f);
    } else {
      LogsAreHistory(ks, es, n - 1, f);
      if es[n - 1].OfMsg? {
        CallLogged(ks, es, n - 1, f, es[n - 1].msg);
      } else {
        OthersLeave(ks[n - 1], es[n - 1], ks[n]);
        OthersLogged(ks, es, n, f);
      }
    }
  }

  /** The same for a step that is a message call. */
  lemma CallLogged(ks: seq<K>, es: seq<Event>, n: nat, f: Fid, c: MsgCall)
    requires IsRun(ks, es) && n < |es| && es[n] == OfMsg(c) && LoggedAt(ks, es, n, f)
    ensures LoggedAt(ks, es, n + 1, f)
  {
    hide Inv, KernelRuns.Step, Boot, MsgNext, PSend, PReceive, ReceivedNow, LastSent;
    var k, k' := ks[n], ks[n + 1];
    MsgStep(k, c, k');
    QueueAround(k, c, f);
    if f in k.queues && c.SendCall? && c.fid == f {
      SendLog(k, f, c.message);
    } else if f in k.queues && c.ReceiveCall? && c.fid == f {
      ReceiveLog(k, f);
      if HasProducer(k, f) { ProducerCarries(ks, es, n, Foremost(k, Producers(f)), f); }
    } else if f !in k.queues {
      NothingNow(k, f);
    }
  }

  lemma NothingNow(k: K, f: Fid)
    requires Inv(k) && f !in k.queues
    ensures ReceivedNow(k, f).None?
  {
    hide Inv;
  }

  lemma OthersLogged(ks: seq<K>, es: seq<Event>, n: nat, f: Fid)
    requires 0 < n <= |es| < |ks| && !es[n - 1].OfMsg?
    ensures Accepted(ks, es, n, f) == Accepted(ks, es, n - 1, f) && Received(ks, es, n, f) == Received(ks, es, n - 1, f)
  {}

  lemma Beginning(ks: seq<K>, es: seq<Event>, f: Fid)
    requires |es| < |ks|
    ensures Accepted(ks, es, 0, f) == [] && Received(ks, es, 0, f) == []
  {}

  lemma BootNoQueues(ks: seq<K>, es: seq<Event>)
    requires IsRun(ks, es)
    ensures ks[0].queues == map[]
  {
    hide KernelRuns.Step;
  }

  lemma MsgStep(k: K, c: MsgCall, k': K)
    requires KernelRuns.Step(k, OfMsg(c), k')
    ensures Inv(k) && k.current != IDLE && k' == MsgNext(k, c)
    ensures c.SendCall? ==> k' == PSend(k, c.fid, c.message)
    ensures c.ReceiveCall? ==> k' == PReceive(k, c.fid)
  {
    hide Inv, PSend, PReceive, PReset, PDelete, PCreate;
  }

  /** First in, first out: over every run, the messages received from a queue, followed by
      those it stores, are the messages sent to it in the order in which it accepted them. */
  lemma FirstInFirstOut(ks: seq<K>, es: seq<Event>, n: nat, f: Fid)
    requires IsRun(ks, es) && n < |ks| && f in ks[n].queues
    ensures RingOk(ks[n].queues[f].ring)
    ensures Received(ks, es, n, f) + Stored(ks[n].queues[f].ring) == Accepted(ks, es, n, f)
  {
    hide Inv, KernelRuns.Step, Boot, Stored, Accepted, Received;
    LogsAreHistory(ks, es, n, f);
    LogBalance(ks, es, n, f);
  }
}
