/**
  Whole runs of the kernel: every interleaving of system calls and interrupts, from
  the moment the first process runs, keeps the invariant.
  */
module KernelRuns {
  import opened Common
  import opened KernelState
  import opened KernelInvariant
  import opened MessageCalls
  import opened SemaphoreCalls
  import opened ProcessCalls
  import opened PriorityLaws
  import opened ProcessTree

  datatype ProcCall =
    | Interrupt(key: bool)
    | StartCall(pid: Pid, prio: int, junk: Message) | ExitCall | KillCall(pid: Pid) | WaitChildCall(pid: int)
    | ChPrioCall(pid: Pid, prio: int) | WaitClockCall(delay: nat) | ConsReadCall

  datatype MsgCall =
    | CreateQueue(size: int) | DeleteQueue(fid: Fid) | ResetQueue(fid: Fid)
    | SendCall(fid: Fid, message: int) | ReceiveCall(fid: Fid)

  datatype SemCall =
    | CreateSem(id: SemId, count: int) | DeleteSem(id: SemId) | ResetSemCall(id: SemId, count: int)
    | WaitCall(id: SemId) | TryWaitCall(id: SemId) | SignalCall(id: SemId) | SignalNCall(id: SemId, n: int)

  datatype Event = OfProc(proc: ProcCall) | OfMsg(msg: MsgCall) | OfSem(sem: SemCall)

  // The runs considered. The idle process makes no calls; identifiers handed out are
  // unused; and no call is made in the cases in which the code breaks its own invariant.
  // That these are exactly those cases is `ExactSteps.StepExact`.

  ghost predicate ProcAllowed(k: K, c: ProcCall)
    requires Inv(k)
  {
    && (c.Interrupt? || k.current != IDLE)
    && match c
       case StartCall(p, prio, _) => p !in k.procs && MIN_PRIO <= prio <= MAX_PRIO
       case ExitCall => EndSafe(k.procs, k.current)
       case KillCall(p) => KillSafe(k, p)
       case WaitChildCall(p) => WaitSafe(k, p)
       case ChPrioCall(p, prio) => ChPrioAccepts(k, p, prio) ==> ChPrioSafe(k, p, prio)
       case WaitClockCall(d) => k.clock + d > 0
       case _ => true
  }

  ghost predicate SemAllowed(k: K, c: SemCall)
    requires Inv(k)
  {
    && k.current != IDLE
    && match c
       case CreateSem(id, count) => id !in k.sems && count <= MAX_COUNT
       case ResetSemCall(id, count) => id !in k.sems || count < 0 || ToInt16(count) >= 0
       case _ => true
  }

  ghost predicate Allowed(k: K, e: Event)
    requires Inv(k)
  {
    match e
    case OfProc(c) => ProcAllowed(k, c)
    case OfMsg(c) => k.current != IDLE
    case OfSem(c) => SemAllowed(k, c)
  }

  function ProcNext(k: K, c: ProcCall): (r: K)
    requires Inv(k) && ProcAllowed(k, c)
    ensures Inv(r)
  {
    match c
    case Interrupt(key) => if key then KeyPress(k) else Tick(k)
    case StartCall(p, prio, junk) => Start(k, p, prio, junk)
    case ExitCall => Exit(k).k
    case KillCall(p) => Kill(k, p).k
    case WaitChildCall(p) => WaitChild(k, p)
    case ChPrioCall(p, prio) => ChPrio(k, p, prio).k
    case WaitClockCall(d) => assert k.clock + d > 0; WaitClock(k, d)
    case ConsReadCall => ConsWait(k)
  }

  function MsgNext(k: K, c: MsgCall): (r: K)
    requires Inv(k) && k.current != IDLE
    ensures Inv(r)
  {
    match c
    case CreateQueue(size) => PCreate(k, size)
    case DeleteQueue(f) => PDelete(k, f)
    case ResetQueue(f) => PReset(k, f)
    case SendCall(f, m) => PSend(k, f, m)
    case ReceiveCall(f) => PReceive(k, f)
  }

  function SemNext(k: K, c: SemCall): (r: K)
    requires Inv(k) && SemAllowed(k, c)
    ensures Inv(r)
  {
    match c
    case CreateSem(id, count) => SCreate(k, id, count)
    case DeleteSem(id) => SDelete(k, id)
    case ResetSemCall(id, count) => SReset(k, id, count)
    case WaitCall(id) => SWait(k, id)
    case TryWaitCall(id) => STryWait(k, id)
    case SignalCall(id) => SSignal(k, id)
    case SignalNCall(id, n) => SSignalN(k, id, n)
  }

  /** One step of a run. */
  ghost predicate Step(k: K, e: Event, k': K) {
    && Inv(k) && Allowed(k, e)
    && match e
       case OfProc(c) => k' == ProcNext(k, c)
       case OfMsg(c) => k' == MsgNext(k, c)
       case OfSem(c) => k' == SemNext(k, c)
  }

  lemma StepKeeps(k: K, e: Event, k': K)
    requires Step(k, e, k')
    ensures Inv(k')
  {}

  /** The first process is running and the idle process is ready. */
  function Boot(first: Pid, prio: int): K
    requires first != IDLE
  {
    var blank := Message(0, Error, Ready);
    var idle := Proc(Activatable, 1, LinkedIn(Ready), 0, 0, 0, blank, None, 0, [], NoCall, Immediate);
    var run := Proc(Actif, prio, Unlinked, 0, 0, 0, blank, None, 1, [], NoCall, Immediate);
    K(map[IDLE := idle, first := run],
      map[Ready := [IDLE], Sleepers := [], Io := [], Dead := []], first, 0, map[], map[], false, 2)
  }

  lemma BootInv(first: Pid, prio: int)
    requires first != IDLE
    ensures Inv(Boot(first, prio))
  {
    hide MemberOf, SortedOf;
    BootMember(first, prio);
  }

  lemma BootMember(first: Pid, prio: int)
    requires first != IDLE
    ensures Member(Boot(first, prio)) && Sorted(Boot(first, prio))
  {}

  /** A run: the states it goes through and the event between each two. */
  ghost predicate IsRun(ks: seq<K>, es: seq<Event>) {
    && |ks| == |es| + 1
    && (exists first: Pid, prio: int :: first != IDLE && ks[0] == Boot(first, prio))
    && (forall i :: 0 <= i < |es| ==> Step(ks[i], es[i], ks[i + 1]))
  }

  /** Every state of every run satisfies the invariant. */
  lemma {:induction false} RunInv(ks: seq<K>, es: seq<Event>, i: nat)
    requires IsRun(ks, es) && i < |ks|
    ensures Inv(ks[i])
  {
    hide Inv, Step, Boot;
    if i == 0 {
      var first: Pid, prio: int :| first != IDLE && ks[0] == Boot(first, prio);
      BootInv(first, prio);
    } else {
      StepKeeps(ks[i - 1], es[i - 1], ks[i]);
    }
  }

  /** In every state of every run a process is linked in at most one list, at one place;
      the running process is in none and is the only active one; the idle process runs
      or is ready. */
  lemma OneList(ks: seq<K>, es: seq<Event>, n: nat, l: ListId, m: ListId, i: nat, j: nat)
    requires IsRun(ks, es) && n < |ks|
    requires l in ks[n].lists && m in ks[n].lists && i < |ks[n].lists[l]| && j < |ks[n].lists[m]|
    ensures ks[n].lists[l][i] == ks[n].lists[m][j] ==> l == m && i == j
    ensures ks[n].lists[l][i] != ks[n].current
    ensures forall p :: p in ks[n].procs ==> (ks[n].procs[p].state.Actif? <==> p == ks[n].current)
    ensures ks[n].current in ks[n].procs
    ensures ks[n].current == IDLE || (Ready in ks[n].lists && IDLE in ks[n].lists[Ready])
  {
    hide Step, Boot, Inv;
    RunInv(ks, es, n);
    OneListInv(ks[n], l, m, i, j);
    forall p | p in ks[n].procs ensures ks[n].procs[p].state.Actif? <==> p == ks[n].current {
      OneActive(ks[n], p);
    }
  }

  lemma OneListInv(k: K, l: ListId, m: ListId, i: nat, j: nat)
    requires Inv(k) && l in k.lists && m in k.lists && i < |k.lists[l]| && j < |k.lists[m]|
    ensures k.lists[l][i] == k.lists[m][j] ==> l == m && i == j
    ensures k.lists[l][i] != k.current && k.lists[l][i] in k.procs
    ensures !k.procs[k.lists[l][i]].state.Actif?
    ensures Ready in k.lists && (k.current == IDLE || IDLE in k.lists[Ready])
    ensures k.current in k.procs
  {
    assert Holds(k.procs, l, k.lists[l]) && Holds(k.procs, m, k.lists[m]);
    Heads(k);
    assert Holds(k.procs, Ready, k.lists[Ready]);
  }

  /** The active process is unique. */
  lemma OneActive(k: K, p: Pid)
    requires Inv(k) && p in k.procs
    ensures k.procs[p].state.Actif? <==> p == k.current
  {}
}
