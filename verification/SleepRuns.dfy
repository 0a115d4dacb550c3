/**
  `wait_clock` over whole runs: a process sleeps for exactly the time it has asked for.
  */
module SleepRuns {
  import opened KernelState
  import opened KernelInvariant
  import opened MessageCalls
  import opened ProcessCalls
  import opened KernelRuns
  import opened SemaphoreTheorems
  import opened WakeReasons
  import opened SchedulerMoves
  import opened CallEffects

  /** Process p sleeps and is due when the clock passes w. */
  predicate SleepsUntil(k: K, p: Pid, w: int) {
    p in k.procs && k.procs[p].state.Asleep? && k.procs[p].link == LinkedIn(Sleepers) && -k.procs[p].wakeTime == w
  }

  /** No step in this part of a run kills p. */
  predicate Spared(es: seq<Event>, from: nat, to: nat, p: Pid)
    requires from <= to <= |es|
  {
    forall j :: from <= j < to ==> es[j] != OfProc(KillCall(p))
  }

  lemma SleeperNotRunning(k: K, p: Pid, w: int)
    requires Inv(k) && SleepsUntil(k, p, w)
    ensures p != k.current
  {}

  lemma SleeperUnexplained(pr: Proc, e: Event, cause: Cause)
    requires pr.state.Asleep? && pr.link == LinkedIn(Sleepers)
    ensures !Explains(pr, e, cause)
  {}

  /** Only a tick moves the clock, and only a tick or `kill` ends the sleep. */
  lemma StepSleeps(k: K, e: Event, k': K, p: Pid, w: int)
    requires KernelRuns.Step(k, e, k') && SleepsUntil(k, p, w) && k.clock <= w && e != OfProc(KillCall(p))
    ensures k'.clock == if e == OfProc(Interrupt(false)) then k.clock + 1 else k.clock
    ensures k'.clock <= w ==> SleepsUntil(k', p, w)
    ensures k'.clock > w ==> Resumed(k', p)
  {
    hide Inv, ProcNext, MsgNext, SemNext, Explains;
    SleeperNotRunning(k, p, w);
    match e {
      case OfProc(c) =>
        ProcEffect(k, c);
        ProcReason(k, c, p);
        if c == Interrupt(false) { TickWakes(k, p, w); }
      case OfMsg(c) =>
        MsgCallsLeaveSems(k, c);
        MsgReason(k, c, p);
        if p in k'.procs { SleeperUnexplained(k.procs[p], e, k'.procs[p].release); }
      case OfSem(c) =>
        SemEffect(k, c);
        SemReason(k, c, p);
        if p in k'.procs { SleeperUnexplained(k.procs[p], e, k'.procs[p].release); }
    }
  }

  lemma TickWakes(k: K, p: Pid, w: int)
    requires Inv(k) && ProcAllowed(k, Interrupt(false)) && SleepsUntil(k, p, w) && k.clock <= w
    ensures w < k.clock + 1 ==> Resumed(ProcNext(k, Interrupt(false)), p)
  {
    hide MemberOf, SortedOf, SemsOk, MsgsOk, TreeOk, IdleOk, ProcsOk, Schedule;
    ScheduleMoves(k.(clock := k.clock + 1), p);
  }

  lemma CallSleeps(k: K, d: nat, k': K)
    requires KernelRuns.Step(k, OfProc(WaitClockCall(d)), k')
    ensures SleepsUntil(k', k.current, k.clock + d) && k'.clock == k.clock
  {
    hide Inv, WaitClock;
    WaitClockEffect(k, d);
  }

  /** Over every run: a process that has called `wait_clock(d)` at clock t, and has not been
      killed, is asleep in every state until the clock passes t + d, due at t + d. */
  lemma {:induction false} SleepsOn(ks: seq<K>, es: seq<Event>, i: nat, n: nat, d: nat)
    requires IsRun(ks, es) && i < n < |ks| && es[i] == OfProc(WaitClockCall(d)) && Spared(es, i + 1, n, ks[i].current)
    requires ks[n].clock <= ks[i].clock + d
    ensures SleepsUntil(ks[n], ks[i].current, ks[i].clock + d)
  {
    hide KernelRuns.Step, Boot;
    if n == i + 1 {
      CallSleeps(ks[i], d, ks[n]);
    } else {
      ClockRuns(ks[n - 1], es[n - 1], ks[n]);
      SleepsOn(ks, es, i, n - 1, d);
      StepSleeps(ks[n - 1], es[n - 1], ks[n], ks[i].current, ks[i].clock + d);
    }
  }

  /** The clock does not run backwards. */
  lemma ClockRuns(k: K, e: Event, k': K)
    requires KernelRuns.Step(k, e, k')
    ensures k.clock <= k'.clock <= k.clock + 1
  {
    hide Inv, ProcNext, MsgNext, SemNext;
    match e
    case OfProc(c) => ProcEffect(k, c);
    case OfMsg(c) => MsgCallsLeaveSems(k, c);
    case OfSem(c) => SemEffect(k, c);
  }

  /** And after the step in which the clock passes t + d it is ready or running. */
  lemma WakesOnTime(ks: seq<K>, es: seq<Event>, i: nat, n: nat, d: nat)
    requires IsRun(ks, es) && i < n < |ks| && es[i] == OfProc(WaitClockCall(d)) && Spared(es, i + 1, n, ks[i].current)
    requires ks[n - 1].clock <= ks[i].clock + d < ks[n].clock
    ensures es[n - 1] == OfProc(Interrupt(false)) && Resumed(ks[n], ks[i].current)
  {
    hide KernelRuns.Step, Boot;
    if n == i + 1 {
      CallSleeps(ks[i], d, ks[n]);
    } else {
      SleepsOn(ks, es, i, n - 1, d);
      StepSleeps(ks[n - 1], es[n - 1], ks[n], ks[i].current, ks[i].clock + d);
    }
  }
}
