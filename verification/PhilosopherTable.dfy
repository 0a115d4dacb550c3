/**
  The shared arrays `f` and `bloque` as the philosophers update them in place, and the
  kernel's semaphore calls as the steps of the philosophers use them.
  */
module PhilosopherTable {
  import opened KernelState
  import KernelInvariant
  import opened SemaphoreCalls
  import opened Philosophers

  class SharedTable {
    const f: array<bool>
    const bloque: array<bool>

    /** The arrays are the forks and the marks of table t. */
    ghost predicate Shows(t: Table)
      reads f, bloque
    {
      && Shape(t) && f != bloque && f.Length == bloque.Length == |t.ph|
      && f[..] == t.f
      && forall j :: 0 <= j < |t.ph| ==> bloque[j] == t.ph[j].blocked
    }

    constructor (n: nat)
      requires 2 <= n <= MAX_PHILO
      ensures Shows(Laid(n)) && fresh(f) && fresh(bloque)
    {
      f := new bool[n](_ => false);
      bloque := new bool[n](_ => false);
    }

    /** Between the semaphore operations of `prendre_fourchettes`. */
    method Prendre(i: nat, ghost t: Table) returns (signal: bool)
      requires Shows(t) && i < |t.ph|
      modifies f, bloque
      ensures Shows(TakeForks(t, i))
      ensures signal <==> TakeForks(t, i).ph[i].pc.TakeSignal?
    {
      var n := f.Length;
      Neighbours(i, n);
      signal := !f[i] && !f[(i + 1) % n];
      if signal {
        f[i] := true;
        f[(i + 1) % n] := true;
      } else {
        bloque[i] := true;
      }
    }

    /** The first conditional of `poser_fourchettes`. */
    method PoserLeft(i: nat, ghost t: Table) returns (signal: bool)
      requires Shows(t) && i < |t.ph|
      modifies f, bloque
      ensures Shows(PutLeftFork(t, i))
      ensures signal <==> PutLeftFork(t, i).ph[i].pc.PutLeftSignal?
    {
      var n := f.Length;
      Neighbours(i, n);
      var l := (i + n - 1) % n;
      signal := bloque[l] && !f[l];
      if signal {
        f[l] := true;
        bloque[l] := false;
      } else {
        f[i] := false;
      }
    }

    /** The second conditional of `poser_fourchettes`. */
    method PoserRight(i: nat, ghost t: Table) returns (signal: bool)
      requires Shows(t) && i < |t.ph|
      modifies f, bloque
      ensures Shows(PutRightFork(t, i))
      ensures signal <==> PutRightFork(t, i).ph[i].pc.PutRightSignal?
    {
      var n := f.Length;
      Neighbours(i, n);
      var r, rr := (i + 1) % n, (i + 2) % n;
      signal := bloque[r] && !f[rr];
      if signal {
        f[rr] := true;
        bloque[r] := false;
      } else {
        f[r] := false;
      }
    }
  }

  /** The philosophers' `wait` is the kernel's, at the place its priority gives the caller. */
  lemma WaitIsKernelWait(k: K, id: SemId)
    requires KernelInvariant.Inv(k) && id in k.sems && k.current != IDLE && k.sems[id].count > MIN_COUNT
    ensures forall i :: 0 <= i < |k.sems[id].waiters| ==> k.sems[id].waiters[i] in k.procs
    ensures var at := WaitRank(WaiterPrios(k.procs, k.sems[id].waiters), k.procs[k.current].prio, 0);
            var (s, goes) := Waited(k.sems[id], k.current, at);
            && (goes <==> k.sems[id].count > 0)
            && (goes ==> s == k.sems[id].(count := k.sems[id].count - 1))
            && (!goes ==> s == Join(k, id).sems[id] && Join(k, id).procs[k.current].state.BlockedSemaphore?)
  {
    hide MemberOf, SortedOf, KernelInvariant.MsgsOk, KernelInvariant.TreeOk, KernelInvariant.ProcsOk, KernelInvariant.IdleOk;
    WaitersKnown(k, id);
  }

  /** The philosophers' `signal` is the kernel's; the process it releases becomes ready. */
  lemma SignalIsKernelSignal(k: K, id: SemId)
    requires KernelInvariant.Inv(k) && id in k.sems && k.sems[id].count < MAX_COUNT
    ensures var (s, who) := Philosophers.Signalled(k.sems[id]);
            var k' := SignalOnce(k, id);
            && s == k'.sems[id]
            && (who.Some? ==> who.value in k'.procs && k'.procs[who.value].state.Activatable?
                              && k'.procs[who.value].semSignal == SIGNAL_CALL)
  {
    hide MemberOf, SortedOf, KernelInvariant.MsgsOk, KernelInvariant.TreeOk, KernelInvariant.ProcsOk, KernelInvariant.IdleOk, KernelInvariant.SemsOk;
    SignalOnceKeeps(k, id);
    WaitersKnown(k, id);
    if k.sems[id].count + 1 <= 0 { SignalUnblocks(k, id); }
  }
}
