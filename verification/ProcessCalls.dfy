/**
  Ticks, sleeping, console blocking and process creation (`scheduler.c`, `timer_api.c`,
  `cons_read.c`, `keyboard.c`, `process_api.c`).
  */
module ProcessCalls {
  import opened Common
  import opened KernelState
  import opened KernelInvariant
  import opened KernelMoves
  import opened MessageCalls

  /** What a call comes to: a new state; the failing assertion of `queue_del` on a process
      that is linked nowhere; `queue_add` to a list head that no longer exists; or a walk
      over a list of children that meets a process which has been freed. */
  datatype Outcome = Done(k: K) | NotLinked | NoHead | FreedChild

  // ----- interrupts -----

  /** `handle_stimer_interrupt`. */
  function Tick(k: K): (r: K)
    requires Inv(k)
    ensures Inv(r)
  {
    Schedule(k.(clock := k.clock + 1))
  }

  /** The end of `handle_keyboard_interrupt`: one reader becomes ready. */
  function KeyPress(k: K): (r: K)
    requires Inv(k)
    ensures Inv(r)
  {
    Heads(k);
    if k.lists[Io] == [] then k
    else
      KeyPressKeeps(k);
      var p := Top(k, Io);
      Schedule(Release(k, p, k.procs[p].(link := Unlinked, state := Activatable)))
  }

  lemma KeyPressKeeps(k: K)
    requires Inv(k) && Io in k.lists && k.lists[Io] != []
    ensures var p := Top(k, Io);
            && p in k.procs && k.procs[p].link.LinkedIn?
            && Mid(Release(k, p, k.procs[p].(link := Unlinked, state := Activatable)))
  {
    hide MemberOf, SortedOf, SemsOk, MsgsOk, TreeOk, IdleOk, Release;
    TopMember(k, Io);
    RunningUnlinked(k);
    var p := Top(k, Io);
    ReleaseKeeps(k, p, k.procs[p].(link := Unlinked, state := Activatable));
  }

  // ----- blocking of the running process -----

  /** `wait_clock`: the wake time is stored negated. */
  function WaitClock(k: K, d: nat): (r: K)
    requires Inv(k) && k.current != IDLE
    ensures k.clock + d > 0 ==> Inv(r)
  {
    SleepReady(k, d);
    if k.clock + d > 0 then SleepSafe(k, d); Dispatch(Block(k, Sleepers, Sleeping(k, d)))
    else Dispatch(Block(k, Sleepers, Sleeping(k, d)))
  }

  lemma SleepSafe(k: K, d: nat)
    requires Inv(k) && k.current != IDLE && k.clock + d > 0
    requires Sleepers in k.lists && k.procs[k.current].link.Unlinked?
    requires CurrentMayLeave(Block(k, Sleepers, Sleeping(k, d)))
    ensures Inv(Dispatch(Block(k, Sleepers, Sleeping(k, d))))
  {
    hide Dispatch, Block, CurrentMayLeave;
    SleepKeeps(k, d);
    DispatchKeeps(Block(k, Sleepers, Sleeping(k, d)));
  }

  lemma SleepReady(k: K, d: nat)
    requires Inv(k) && k.current != IDLE
    ensures Sleepers in k.lists && k.procs[k.current].link.Unlinked?
    ensures CurrentMayLeave(Block(k, Sleepers, Sleeping(k, d)))
  {
    hide MemberOf, SortedOf, SemsOk, MsgsOk, TreeOk, IdleOk, ProcsOk, Block;
    Heads(k);
    RunningUnlinked(k);
    BlockEffect(k, Sleepers, Sleeping(k, d));
  }

  function Sleeping(k: K, d: nat): Proc
    requires k.current in k.procs
  {
    k.procs[k.current].(state := Asleep, wakeTime := -(k.clock + d), call := NoCall, release := Immediate)
  }

  lemma SleepKeeps(k: K, d: nat)
    requires Inv(k) && k.current != IDLE && k.clock + d > 0
    ensures Sleepers in k.lists && k.procs[k.current].link.Unlinked?
    ensures Mid(Block(k, Sleepers, Sleeping(k, d)))
  {
    hide MemberOf, SortedOf, SemsOk, MsgsOk, TreeOk, IdleOk, ProcsOk, Block;
    Heads(k);
    RunningUnlinked(k);
    BlockKeeps(k, Sleepers, Sleeping(k, d));
  }

  /** `cons_read` when no complete line is available. */
  function ConsWait(k: K): (r: K)
    requires Inv(k) && k.current != IDLE
    ensures Inv(r)
  {
    ConsWaitKeeps(k);
    Schedule(Block(k, Io, k.procs[k.current].(state := BlockedIo, call := NoCall, release := Immediate)))
  }

  lemma ConsWaitKeeps(k: K)
    requires Inv(k) && k.current != IDLE
    ensures Io in k.lists && k.procs[k.current].link.Unlinked?
    ensures Mid(Block(k, Io, k.procs[k.current].(state := BlockedIo, call := NoCall, release := Immediate)))
  {
    hide MemberOf, SortedOf, SemsOk, MsgsOk, TreeOk, IdleOk, ProcsOk, Block;
    Heads(k);
    RunningUnlinked(k);
    BlockKeeps(k, Io, k.procs[k.current].(state := BlockedIo, call := NoCall, release := Immediate));
  }

  // ----- start -----

  /** The process structure built by `start`; its message fields are uninitialised memory. */
  function NewProc(parent: Pid, prio: int, junk: Message, born: nat): Proc {
    Proc(Activatable, prio, Unlinked, 0, SIGNAL_CALL, 0, junk, Some(parent), born, [], NoCall, Immediate)
  }

  /** The parent with the new child at the end of its list. */
  function WithChild(pr: Proc, p: Pid, born: nat): Proc {
    pr.(children := pr.children + [Child(p, born)])
  }

  function Born(k: K, p: Pid, prio: int, junk: Message): K
    requires k.current in k.procs
  {
    var parent := WithChild(k.procs[k.current], p, k.births);
    k.(procs := k.procs[k.current := parent][p := NewProc(k.current, prio, junk, k.births)], births := k.births + 1)
  }

  lemma BornMember(k: K, p: Pid, prio: int, junk: Message)
    requires Member(k) && p !in k.procs && k.current in k.procs
    ensures Member(Born(k, p, prio, junk))
    ensures Sorted(k) ==> Sorted(Born(k, p, prio, junk))
  {
    var k' := Born(k, p, prio, junk);
    forall l | l in k.lists
      ensures Holds(k'.procs, l, k.lists[l]) && Keys(k'.procs, l, k.lists[l]) == Keys(k.procs, l, k.lists[l])
    {
      assert Holds(k.procs, l, k.lists[l]);
    }
  }

  /** `start` up to its possible call of `scheduler()`. */
  function Spawn(k: K, p: Pid, prio: int, junk: Message): (r: K)
    requires Member(k) && p !in k.procs && k.current in k.procs
    ensures Member(r) && (Sorted(k) ==> Sorted(r))
  {
    BornMember(k, p, prio, junk);
    Heads(k);
    QueueAdd(Born(k, p, prio, junk), Ready, p)
  }

  /** The new process is the last child of its parent. */
  lemma SpawnTree(procs: map<Pid, Proc>, c: Pid, p: Pid, pr: Proc, n: nat)
    requires TreeOk(procs, n) && p !in procs && c in procs && !Gone(procs[c])
    requires !Gone(pr) && pr.parent == Some(c) && pr.born == n && pr.children == []
    ensures TreeOk(procs[c := WithChild(procs[c], p, n)][p := pr], n + 1)
  {
    hide Aged, Named, ParentOk;
    var procs' := procs[c := WithChild(procs[c], p, n)][p := pr];
    forall q | q in procs' && procs'[q].parent.Some? && !procs'[q].state.Killed? ensures ParentOk(procs', q) {
      if q != p { SpawnOld(procs, procs', c, p, q, n); } else { SpawnNew(procs, procs', c, p, n); }
    }
    forall q | q in procs' ensures Aged(procs'[q], n + 1) && Named(procs', q) {
      if q == p { NoChildren(procs', p, n); }
      else if q == c { SpawnNamed(procs, procs', c, p, n); }
      else { SpawnOther(procs, procs', c, p, q, n); }
    }
  }

  lemma SpawnOld(procs: map<Pid, Proc>, procs': map<Pid, Proc>, c: Pid, p: Pid, q: Pid, n: nat)
    requires p !in procs && c in procs && p in procs' && procs' == procs[c := WithChild(procs[c], p, n)][p := procs'[p]]
    requires q in procs && procs[q].parent.Some? && ParentOk(procs, q)
    ensures ParentOk(procs', q)
  {}

  lemma SpawnNew(procs: map<Pid, Proc>, procs': map<Pid, Proc>, c: Pid, p: Pid, n: nat)
    requires p !in procs && c in procs && p in procs' && procs' == procs[c := WithChild(procs[c], p, n)][p := procs'[p]]
    requires !Gone(procs[c]) && procs'[p].parent == Some(c) && procs'[p].born == n && !Gone(procs'[p])
    requires procs[c].parent.Some? && !procs[c].state.Killed? ==> ParentOk(procs, c)
    ensures ParentOk(procs', p)
  {
    assert procs'[c].children[|procs[c].children|] == Child(p, n);
  }

  lemma NoChildren(procs: map<Pid, Proc>, p: Pid, n: nat)
    requires p in procs && procs[p].children == [] && procs[p].born == n
    ensures Aged(procs[p], n + 1) && Named(procs, p)
  {}

  lemma SpawnNamed(procs: map<Pid, Proc>, procs': map<Pid, Proc>, c: Pid, p: Pid, n: nat)
    requires p !in procs && c in procs && p in procs' && procs' == procs[c := WithChild(procs[c], p, n)][p := procs'[p]]
    requires !Gone(procs[c]) && procs'[p].parent == Some(c) && procs'[p].born == n && !Gone(procs'[p])
    requires Aged(procs[c], n) && Named(procs, c)
    ensures Aged(procs'[c], n + 1) && Named(procs', c)
  {
    var es, es' := procs[c].children, procs'[c].children;
    forall i | 0 <= i < |es'|
      ensures Present(procs', es'[i]) && !procs'[es'[i].pid].state.Killed? && procs'[es'[i].pid].parent == Some(c)
    {
      if i < |es| { assert es'[i] == es[i]; }
    }
  }

  /** Pids of freed processes may be used again; their entries do not mean the new process. */
  lemma SpawnOther(procs: map<Pid, Proc>, procs': map<Pid, Proc>, c: Pid, p: Pid, q: Pid, n: nat)
    requires p !in procs && c in procs && p in procs' && procs' == procs[c := WithChild(procs[c], p, n)][p := procs'[p]]
    requires procs'[p].born == n && q in procs && q != c && Aged(procs[q], n) && Named(procs, q)
    ensures Aged(procs'[q], n + 1) && Named(procs', q)
  {
    var es := procs[q].children;
    assert procs'[q] == procs[q];
    forall i | 0 <= i < |es| ensures es[i].born < n && (Present(procs', es[i]) <==> Present(procs, es[i])) {}
  }

  lemma SpawnProcs(procs: map<Pid, Proc>, c: Pid, p: Pid, pr: Proc, n: nat)
    requires ProcsOk(procs, c) && IdleOk(procs, c) && p !in procs
    requires ProcOk(pr) && procs[c].state.Actif?
    ensures var procs' := procs[c := WithChild(procs[c], p, n)][p := pr];
            ProcsOk(procs', c) && IdleOk(procs', c) && procs'[c] == WithChild(procs[c], p, n)
  {}

  lemma SpawnKeeps(k: K, p: Pid, prio: int, junk: Message)
    requires Inv(k) && p !in k.procs
    ensures Inv(Spawn(k, p, prio, junk))
  {
    hide MemberOf, SortedOf, SemsOk, MsgsOk, TreeOk, IdleOk, ProcsOk;
    Heads(k);
    RunningUnlinked(k);
    BornMember(k, p, prio, junk);
    var pr := NewProc(k.current, prio, junk, k.births).(link := LinkedIn(Ready));
    var k' := Spawn(k, p, prio, junk);
    assert k'.procs == k.procs[k.current := WithChild(k.procs[k.current], p, k.births)][p := pr];
    SpawnProcs(k.procs, k.current, p, pr, k.births);
    SpawnTree(k.procs, k.current, p, pr, k.births);
    SemsFrame(k.procs, k'.procs, k.sems);
    MsgsFrame(k.lists, k'.lists, k.queues);
  }

  /** `start` with valid arguments; the fresh pid is a parameter. */
  function Start(k: K, p: Pid, prio: int, junk: Message): (r: K)
    requires Inv(k) && p !in k.procs && MIN_PRIO <= prio <= MAX_PRIO
    ensures Inv(r)
  {
    EnterKeeps(k, NoCall);
    SpawnKeeps(Enter(k, NoCall), p, prio, junk);
    var k1 := Spawn(Enter(k, NoCall), p, prio, junk);
    if k.procs[k.current].prio < prio then Schedule(k1) else k1
  }
}
