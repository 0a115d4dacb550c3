/**
  For each call that can break the kernel's invariant, a short run from start-up to a state
  in which it does. The first process is 2, with priority 10; process 1 is the idle one.
  */
module KernelWitnesses {
  import opened Common
  import opened PriorityOrder
  import opened MessageRing
  import opened KernelState
  import opened KernelInvariant
  import opened KernelMoves
  import opened MessageCalls
  import opened SemaphoreCalls
  import opened ProcessCalls
  import opened PriorityLaws
  import opened ChildLists
  import opened ProcessTree
  import opened KernelRuns
  import opened SchedulerTheorems
  import opened SleepTheorems
  import opened ExactSteps

  /** The event does not lead to a state that satisfies the invariant. */
  ghost predicate Breaks(k: K, e: Event) {
    Inv(k) && Callable(k, e) && !(Next(k, e).Done? && Inv(Next(k, e).k))
  }

  lemma NotAllowed(k: K, e: Event)
    requires Inv(k) && Callable(k, e) && !Allowed(k, e)
    ensures Breaks(k, e)
  {
    StepExact(k, e);
  }

  lemma RunStart()
    ensures IsRun([Boot(2, 10)], []) && Inv(Boot(2, 10))
  {
    BootInv(2, 10);
  }

  /** A run goes on with a step from its last state. */
  lemma Longer(ks: seq<K>, es: seq<Event>, e: Event, k': K) returns (ks': seq<K>, es': seq<Event>)
    requires IsRun(ks, es) && KernelRuns.Step(ks[|es|], e, k')
    ensures ks' == ks + [k'] && es' == es + [e] && IsRun(ks', es') && Inv(k')
  {
    hide Inv, KernelRuns.Step, Boot;
    ks', es' := ks + [k'], es + [e];
    forall i | 0 <= i < |es'| ensures KernelRuns.Step(ks'[i], es'[i], ks'[i + 1]) {
      if i < |es| { assert ks'[i] == ks[i] && ks'[i + 1] == ks[i + 1]; }
    }
    RunInv(ks', es', |es'|);
  }

  // ----- scheduling without sleepers and dead processes -----

  /** Nobody sleeps, nobody is dead, and the ready list is as given. */
  ghost predicate Calm(k: K, ready: seq<Pid>) {
    && Ready in k.lists && Sleepers in k.lists && Dead in k.lists
    && k.lists[Ready] == ready && k.lists[Sleepers] == [] && k.lists[Dead] == []
  }

  lemma CalmChoose(k: K, ready: seq<Pid>)
    requires Mid(k) && Calm(k, ready)
    ensures CurrentMayLeave(k) && Schedule(k) == Choose(k)
  {
    hide MemberOf, SortedOf, SemsOk, MsgsOk, TreeOk, IdleOk, ProcsOk, Choose;
    MidMayLeave(k);
    NoDead(k);
  }

  /** The running process has blocked: the last ready one runs. */
  lemma SwitchOff(k: K, rest: seq<Pid>, t: Pid)
    requires Mid(k) && Calm(k, rest + [t]) && !k.procs[k.current].state.Actif? && !k.procs[k.current].state.Killed?
    ensures t in k.procs
    ensures Schedule(k) ==
            k.(procs := k.procs[t := k.procs[t].(link := Unlinked, state := Actif)], lists := k.lists[Ready := rest], current := t)
  {
    hide MemberOf, SortedOf, SemsOk, MsgsOk, TreeOk, IdleOk, ProcsOk, Dispatch;
    CalmChoose(k, rest + [t]);
    TopMember(k, Ready);
    ReadyDistinct(k);
    LastIndex(k.lists[Ready]);
    assert (rest + [t])[..|rest|] == rest;
    var k1 := QueueDel(k, t);
    assert k1.lists == k.lists[Ready := rest];
  }

  lemma ReadyDistinct(k: K)
    requires Member(k) && Ready in k.lists
    ensures Distinct(k.lists[Ready]) && forall i :: 0 <= i < |k.lists[Ready]| ==> k.lists[Ready][i] in k.procs
  {
    assert Holds(k.procs, Ready, k.lists[Ready]);
  }

  /** The last ready process is the higher one: it runs. */
  lemma Preempt(k: K, rest: seq<Pid>, t: Pid)
    requires Inv(k) && Calm(k, rest + [t]) && t in k.procs && k.procs[t].prio >= k.procs[k.current].prio
    requires forall i :: 0 <= i < |rest| ==> rest[i] in k.procs && k.procs[rest[i]].prio < k.procs[k.current].prio
    ensures k.current != t
    ensures var c, r := k.current, Schedule(k);
            r == k.(procs := k.procs[c := k.procs[c].(state := Activatable, link := LinkedIn(Ready))]
                                    [t := k.procs[t].(link := Unlinked, state := Actif)],
                    lists := k.lists[Ready := rest + [c]], current := t)
  {
    hide MemberOf, SortedOf, SemsOk, MsgsOk, TreeOk, IdleOk, ProcsOk, Choose, Dispatch;
    var c := k.current;
    CalmChoose(k, rest + [t]);
    RunningUnlinked(k);
    TopMember(k, Ready);
    ChooseEffect(k, k.procs[c].(state := Activatable, link := LinkedIn(Ready)));
    assert rest == k.lists[Ready][..|k.lists[Ready]| - 1];
    SwapReady(k, rest);
    RankUnique(Keys(k.procs, Ready, rest), k.procs[c].prio, |rest|);
    assert InsertAt(rest, |rest|, c) == rest + [c];
    ChooseLists(k);
    assert Choose(k).lists == k.lists[Ready := rest + [c]];
  }

  /** A switch away from a process that is not killed leaves the dead list alone. */
  lemma ChooseLists(k: K)
    requires Member(k) && CurrentMayLeave(k) && !k.procs[k.current].state.Killed?
    ensures Choose(k).lists.Keys == k.lists.Keys
    ensures forall l :: l in k.lists && l != Ready ==> Choose(k).lists[l] == k.lists[l]
  {
    hide MemberOf, SortedOf, SwitchToTop;
    Heads(k);
    if k.lists[Ready] != [] {
      TopMember(k, Ready);
      SwitchEffect(k);
    }
  }

  /** The running process is the higher one: it goes on. */
  lemma Stays(k: K, rest: seq<Pid>, t: Pid)
    requires Inv(k) && Calm(k, rest + [t]) && t in k.procs && k.procs[t].prio < k.procs[k.current].prio
    ensures Schedule(k) == k
  {
    hide MemberOf, SortedOf, SemsOk, MsgsOk, TreeOk, IdleOk, ProcsOk, Dispatch;
    CalmChoose(k, rest + [t]);
  }

  // ----- sreset -----

  /** A count that `sreset` accepts and turns into a negative one without waiters. */
  lemma ResetWitness() returns (ks: seq<K>, es: seq<Event>)
    ensures es == [OfSem(CreateSem(0, 0))] && IsRun(ks, es)
    ensures Breaks(ks[1], OfSem(ResetSemCall(0, 40000)))
  {
    hide Inv, KernelRuns.Step, Boot, Breaks, IsRun;
    RunStart();
    var k0 := Boot(2, 10);
    var k1 := OneSem();
    ks, es := Longer([k0], [], OfSem(CreateSem(0, 0)), k1);
    NotAllowed(k1, OfSem(ResetSemCall(0, 40000)));
  }

  /** Process 2 creates a semaphore with count 0. */
  lemma OneSem() returns (k1: K)
    ensures KernelRuns.Step(Boot(2, 10), OfSem(CreateSem(0, 0)), k1)
    ensures Alone(k1) && k1.sems == map[0 := Sem(0, [])] && k1.procs.Keys == {1, 2}
  {
    hide Inv;
    BootInv(2, 10);
    k1 := SCreate(Boot(2, 10), 0, 0);
  }

  // ----- wait_clock -----

  /** `wait_clock(0)` as the very first call. */
  lemma SleepWitness()
    ensures IsRun([Boot(2, 10)], []) && Breaks(Boot(2, 10), OfProc(WaitClockCall(0)))
    ensures Alone(Boot(2, 10)) && Boot(2, 10).clock == 0
  {
    hide Inv, Breaks, IsRun, Boot;
    RunStart();
    BootAlone();
    NotAllowed(Boot(2, 10), OfProc(WaitClockCall(0)));
  }

  lemma BootAlone()
    ensures Alone(Boot(2, 10)) && Boot(2, 10).clock == 0 && Boot(2, 10).procs.Keys == {1, 2}
    ensures Boot(2, 10).procs[1].parent.None? && Boot(2, 10).procs[2].parent.None?
  {}

  /** From then on the process is never woken: at no later time does the scheduler change
      anything. */
  lemma SleepsForever(k: K, n: nat)
    requires Inv(k) && Alone(k) && k.clock == 0
    ensures var d := WaitClock(k, 0);
            && d.current == 1 && 2 in d.procs && d.procs[2].state.Asleep? && d.procs[2].link == LinkedIn(Sleepers)
            && Member(d.(clock := n)) && CurrentMayLeave(d.(clock := n)) && Dispatch(d.(clock := n)) == d.(clock := n)
  {
    hide MemberOf, SortedOf, SemsOk, MsgsOk, TreeOk, IdleOk, ProcsOk, Choose;
    RunningUnlinked(k);
    SleepReady(k, 0);
    var kb := Block(k, Sleepers, Sleeping(k, 0));
    ZeroSleeps(kb);
    NobodyDue(kb);
    NoDead(kb);
    OnlyIdle(kb);
    var d := WaitClock(k, 0);
    NobodyDue(d.(clock := n));
    NoDead(d.(clock := n));
    ChooseIdle(d.(clock := n));
  }

  /** The one sleeper asked for time 0. */
  lemma NobodyDue(k: K)
    requires Member(k) && Sleepers in k.lists && k.lists[Sleepers] == [2] && 2 in k.procs && k.procs[2].wakeTime == 0
    ensures Awake(k) == k
  {}

  lemma NoDead(k: K)
    requires Member(k) && Dead in k.lists && k.lists[Dead] == []
    ensures FreeDead(k) == k
  {
    forall p | p in k.procs ensures k.procs[p].link != LinkedIn(Dead) { ListHas(k, Dead, p); }
    assert FreeDead(k).procs == k.procs;
    assert k.lists[Dead := []] == k.lists;
  }

  /** The idle process is the only one to run. */
  lemma OnlyIdle(k: K)
    requires Member(k) && CurrentMayLeave(k) && Ready in k.lists && k.lists[Ready] == [1]
    requires !k.procs[k.current].state.Actif? && !k.procs[k.current].state.Killed?
    ensures 1 in k.procs
    ensures Choose(k) ==
            k.(procs := k.procs[1 := k.procs[1].(link := Unlinked, state := Actif)], lists := k.lists[Ready := []], current := 1)
  {
    hide MemberOf, SortedOf;
    TopMember(k, Ready);
    assert IndexOf([1], 1) == 0 && RemoveAt([1], 0) == [];
  }

  // ----- a living child -----

  /** Process 2 starts 3, at a lower priority. */
  lemma OneChild() returns (k1: K)
    ensures KernelRuns.Step(Boot(2, 10), OfProc(StartCall(3, 5, Message(0, Error, Ready))), k1)
    ensures k1.current == 2 && k1.procs.Keys == {1, 2, 3} && k1.procs[3].parent == Some(2) && k1.procs[3].state.Activatable?
    ensures Calm(k1, [1, 3]) && k1.procs[2].parent.None?
  {
    hide MemberOf, SortedOf, SemsOk, MsgsOk, TreeOk, IdleOk, ProcsOk, Spawn;
    BootInv(2, 10);
    var k0, junk := Boot(2, 10), Message(0, Error, Ready);
    EnterKeeps(k0, NoCall);
    SpawnLast(Enter(k0, NoCall), [1], 3, 5, junk);
    assert [1] + [3] == [1, 3];
    k1 := Start(k0, 3, 5, junk);
  }

  /** Process 2 has no parent and ends before its child. */
  lemma OrphanWitness() returns (ks: seq<K>, es: seq<Event>)
    ensures es == [OfProc(StartCall(3, 5, Message(0, Error, Ready)))] && IsRun(ks, es)
    ensures Breaks(ks[1], OfProc(ExitCall))
  {
    hide Inv, Start, KernelRuns.Step, Boot;
    RunStart();
    var k1 := OneChild();
    var e := OfProc(StartCall(3, 5, Message(0, Error, Ready)));
    ks, es := Longer([Boot(2, 10)], [], e, k1);
    assert Heir(k1.procs, 3, 2) && !k1.procs[3].state.Zombie?;
    NotAllowed(k1, OfProc(ExitCall));
  }

  /** Process 2 waits for its child, which kills it. */
  lemma WaitingParentWitness() returns (ks: seq<K>, es: seq<Event>)
    ensures es == [OfProc(StartCall(3, 5, Message(0, Error, Ready))), OfProc(WaitChildCall(3))] && IsRun(ks, es)
    ensures Breaks(ks[2], OfProc(KillCall(2))) && Next(ks[2], OfProc(KillCall(2))) == NotLinked
  {
    hide Inv, Start, KernelRuns.Step, Boot, Kill;
    RunStart();
    var k1 := OneChild();
    var e1, e2 := OfProc(StartCall(3, 5, Message(0, Error, Ready))), OfProc(WaitChildCall(3));
    ks, es := Longer([Boot(2, 10)], [], e1, k1);
    var k2 := ParentWaitsStep(k1);
    ks, es := Longer(ks, es, e2, k2);
    KillExact(k2, 2);
  }

  lemma ParentWaitsStep(k1: K) returns (k2: K)
    requires Inv(k1) && k1.current == 2 && k1.procs.Keys == {1, 2, 3} && Calm(k1, [1, 3])
    requires k1.procs[3].parent == Some(2) && k1.procs[3].state.Activatable?
    ensures KernelRuns.Step(k1, OfProc(WaitChildCall(3)), k2)
    ensures k2.current == 3 && 2 in k2.procs && k2.procs[2].state.BlockedWaitChild?
  {
    hide MemberOf, SortedOf, SemsOk, MsgsOk, TreeOk, IdleOk, ProcsOk, Schedule;
    RunningUnlinked(k1);
    EnterKeeps(k1, NoCall);
    var k0 := Enter(k1, NoCall);
    WaitChildKeeps(k0);
    OwnChildren(k1);
    ListedChild(k1, 3);
    SoughtFound(k1.procs, k1.procs[2].children, 3, 0);
    var kb := SetProc(k0, 2, k0.procs[2].(state := BlockedWaitChild));
    assert [1, 3] == [1] + [3];
    SwitchOff(kb, [1], 3);
    k2 := WaitChild(k1, 3);
  }

  // ----- the middle waiter -----

  /** Process 2 runs, and only the idle process is ready. */
  ghost predicate Alone(k: K) {
    k.current == 2 && 1 in k.procs && 2 in k.procs && k.procs[1].prio == 1 && k.procs[2].prio == 10 && Calm(k, [1])
  }

  /** Processes ws, of priority 20, wait for semaphore 0; process 2 runs. */
  ghost predicate Waited(k: K, ws: seq<Pid>) {
    && Alone(k)
    && 0 in k.sems && k.sems[0] == Sem(-|ws|, ws)
    && (forall p :: p in k.procs <==> p == 1 || p == 2 || p in ws)
    && (forall i :: 0 <= i < |ws| ==> ws[i] in k.procs && k.procs[ws[i]].prio == 20)
  }

  /** Process 2 starts p, which runs. */
  lemma StartStep(k: K, p: Pid) returns (k1: K)
    requires Inv(k) && Alone(k) && p !in k.procs
    ensures KernelRuns.Step(k, OfProc(StartCall(p, 20, Message(0, Error, Ready))), k1)
    ensures k1.current == p && p in k1.procs && k1.procs[p].prio == 20 && Calm(k1, [1, 2]) && k1.sems == k.sems
    ensures k1.procs.Keys == k.procs.Keys + {p} && forall q :: q in k.procs ==> k1.procs[q].prio == k.procs[q].prio
    ensures k1.queues == k.queues && k1.lists == k.lists[Ready := [1, 2]]
    ensures k1.procs[p].parent == Some(2) && k1.procs[2].state.Activatable?
  {
    hide Inv, KernelRuns.Step;
    k1 := StartAbove(k, [1], p, 20);
    assert [1] + [2] == [1, 2];
  }

  /** The running process starts one above itself, which runs. */
  lemma StartAbove(k: K, ready: seq<Pid>, p: Pid, prio: int) returns (k1: K)
    requires Inv(k) && k.current != IDLE && k.current in k.procs && p !in k.procs && Calm(k, ready)
    requires forall i :: 0 <= i < |ready| ==> ready[i] in k.procs && k.procs[ready[i]].prio < k.procs[k.current].prio
    requires k.procs[k.current].prio < prio && MIN_PRIO <= prio <= MAX_PRIO
    ensures KernelRuns.Step(k, OfProc(StartCall(p, prio, Message(0, Error, Ready))), k1)
    ensures var c, n := k.current, k.births;
            && k1.current == p && k1.lists == k.lists[Ready := ready + [c]] && k1.sems == k.sems && k1.queues == k.queues
            && k1.procs == k.procs[c := WithChild(k.procs[c], p, n).(call := NoCall, release := Immediate, state := Activatable,
                                                                     link := LinkedIn(Ready))]
                                  [p := NewProc(c, prio, Message(0, Error, Ready), n).(state := Actif)]
  {
    hide MemberOf, SortedOf, SemsOk, MsgsOk, TreeOk, IdleOk, ProcsOk, Schedule, Spawn;
    var junk := Message(0, Error, Ready);
    RunningUnlinked(k);
    ReadyOthers(k, ready);
    EnterKeeps(k, NoCall);
    var k0 := Enter(k, NoCall);
    SpawnKeeps(k0, p, prio, junk);
    SpawnLast(k0, ready, p, prio, junk);
    Preempt(Spawn(k0, p, prio, junk), ready, p);
    k1 := Start(k, p, prio, junk);
  }

  lemma ReadyOthers(k: K, ready: seq<Pid>)
    requires Inv(k) && Calm(k, ready)
    ensures forall i :: 0 <= i < |ready| ==> ready[i] != k.current
  {
    assert Holds(k.procs, Ready, k.lists[Ready]);
  }

  /** A new process above all ready ones goes to the end of the ready list. */
  lemma SpawnLast(k: K, ready: seq<Pid>, p: Pid, prio: int, junk: Message)
    requires Member(k) && p !in k.procs && k.current in k.procs && Ready in k.lists && k.lists[Ready] == ready
    requires forall i :: 0 <= i < |ready| ==> ready[i] in k.procs && k.procs[ready[i]].prio < prio
    ensures Spawn(k, p, prio, junk) ==
            k.(procs := k.procs[k.current := WithChild(k.procs[k.current], p, k.births)]
                               [p := NewProc(k.current, prio, junk, k.births).(link := LinkedIn(Ready))],
               lists := k.lists[Ready := ready + [p]], births := k.births + 1)
  {
    hide MemberOf, SortedOf;
    var kb := Born(k, p, prio, junk);
    BornMember(k, p, prio, junk);
    RankUnique(Keys(kb.procs, Ready, ready), prio, |ready|);
    assert InsertAt(ready, |ready|, p) == ready + [p];
  }

  /** It waits, behind its equals. */
  lemma WaitStep(k: K, ws: seq<Pid>, p: Pid) returns (k1: K)
    requires Inv(k) && k.current == p && p in k.procs && k.procs[p].prio == 20 && Calm(k, [1, 2])
    requires 0 in k.sems && k.sems[0] == Sem(-|ws|, ws)
    requires |ws| < 100 && p != 1 && p != 2 && p !in ws && 1 in k.procs && 2 in k.procs && k.procs[1].prio == 1 && k.procs[2].prio == 10
    requires forall q :: q in k.procs <==> q == 1 || q == 2 || q == p || q in ws
    requires forall i :: 0 <= i < |ws| ==> ws[i] in k.procs && k.procs[ws[i]].prio == 20
    ensures KernelRuns.Step(k, OfSem(WaitCall(0)), k1) && Waited(k1, ws + [p])
  {
    hide MemberOf, SortedOf, SemsOk, MsgsOk, TreeOk, IdleOk, ProcsOk, Schedule, Join;
    RunningUnlinked(k);
    EnterWaitKeeps(k, 0);
    var k0 := EnterWait(k, 0);
    WaitersKnown(k, 0);
    JoinKeeps(k0, 0);
    JoinLast(k0, 0);
    var kj := Join(k0, 0);
    assert [1, 2] == [1] + [2];
    SwitchOff(kj, [1], 2);
    k1 := SWait(k, 0);
  }

  /** A waiter that is not above any other goes to the end. */
  lemma JoinLast(k: K, id: SemId)
    requires k.current in k.procs && id in k.sems
    requires forall i :: 0 <= i < |k.sems[id].waiters| ==>
               k.sems[id].waiters[i] in k.procs && k.procs[k.sems[id].waiters[i]].prio >= k.procs[k.current].prio
    ensures var c, s := k.current, k.sems[id];
            Join(k, id) == k.(procs := k.procs[c := k.procs[c].(state := BlockedSemaphore, semId := id, release := Pending)],
                              sems := k.sems[id := Sem(s.count - 1, s.waiters + [c])])
  {
    var w := k.sems[id].waiters;
    assert InsertAt(w, |w|, k.current) == w + [k.current];
  }

  lemma OneMoreWaiter(ks: seq<K>, es: seq<Event>, ws: seq<Pid>, p: Pid) returns (ks': seq<K>, es': seq<Event>)
    requires IsRun(ks, es) && Waited(ks[|es|], ws) && p != 1 && p != 2 && p !in ws && |ws| < 100
    ensures es' == es + [OfProc(StartCall(p, 20, Message(0, Error, Ready))), OfSem(WaitCall(0))]
    ensures IsRun(ks', es') && |ks'| == |es'| + 1 && Waited(ks'[|es'|], ws + [p])
  {
    hide Inv, KernelRuns.Step, Boot;
    var e1, e2 := OfProc(StartCall(p, 20, Message(0, Error, Ready))), OfSem(WaitCall(0));
    RunInv(ks, es, |es|);
    var k1 := StartStep(ks[|es|], p);
    ks', es' := Longer(ks, es, e1, k1);
    var k2 := WaitStep(k1, ws, p);
    ks', es' := Longer(ks', es', e2, k2);
  }

  function StartAndWait(p: Pid): seq<Event> {
    [OfProc(StartCall(p, 20, Message(0, Error, Ready))), OfSem(WaitCall(0))]
  }

  /** Processes 3, 4 and 5 wait for a semaphore, and the middle one is killed. */
  lemma MiddleWaiterWitness() returns (ks: seq<K>, es: seq<Event>)
    ensures es == [OfSem(CreateSem(0, 0))] + StartAndWait(3) + StartAndWait(4) + StartAndWait(5) && IsRun(ks, es) && |ks| == 8
    ensures 0 in ks[7].sems && ks[7].sems[0].waiters == [3, 4, 5] && Breaks(ks[7], OfProc(KillCall(4)))
  {
    hide Inv, IsRun, Boot, Waited, Breaks;
    var none: seq<Pid> := [];
    assert none + [3] == [3] && [3] + [4] == [3, 4] && [3, 4] + [5] == [3, 4, 5];
    ks, es := NoWaiter();
    ks, es := OneMoreWaiter(ks, es, [], 3);
    ks, es := OneMoreWaiter(ks, es, [3], 4);
    ks, es := OneMoreWaiter(ks, es, [3, 4], 5);
    RunInv(ks, es, 7);
    MiddleKilled(ks[7]);
  }

  lemma NoWaiter() returns (ks: seq<K>, es: seq<Event>)
    ensures es == [OfSem(CreateSem(0, 0))] && IsRun(ks, es) && |ks| == 2 && Waited(ks[1], [])
  {
    hide Inv, KernelRuns.Step, Boot;
    RunStart();
    var k1 := OneSem();
    ks, es := Longer([Boot(2, 10)], [], OfSem(CreateSem(0, 0)), k1);
  }

  lemma MiddleKilled(k: K)
    requires Inv(k) && Waited(k, [3, 4, 5])
    ensures 0 in k.sems && k.sems[0].waiters == [3, 4, 5] && Breaks(k, OfProc(KillCall(4)))
  {
    hide MemberOf, SortedOf, MsgsOk, TreeOk, IdleOk, ProcsOk;
    WaitersKnown(k, 0);
    assert [3, 4, 5][1] == 4;
    WaiterNotEnded(k, 4);
    NotAllowed(k, OfProc(KillCall(4)));
  }

  lemma WaiterNotEnded(k: K, p: Pid)
    requires Inv(k) && 0 in k.sems && p in k.sems[0].waiters
    ensures p in k.procs && k.procs[p].state.BlockedSemaphore? && k.procs[p].semId == 0
  {
    WaitersKnown(k, 0);
  }

  // ----- a state field that is out of date -----

  /** Process 2 creates a message queue without capacity. */
  lemma QueueStep() returns (k1: K)
    ensures KernelRuns.Step(Boot(2, 10), OfMsg(CreateQueue(0)), k1)
    ensures Alone(k1) && k1.queues == map[0 := MsgQueue(Blank(0), [], [])] && k1.procs.Keys == {1, 2}
    ensures Consumers(0) in k1.lists && Producers(0) in k1.lists && k1.lists[Consumers(0)] == [] && k1.lists[Producers(0)] == []
  {
    hide Inv;
    BootInv(2, 10);
    k1 := PCreate(Boot(2, 10), 0);
  }

  /** Process 3 has a message for queue 0 that nobody has taken; process 2 runs. */
  ghost predicate Sent(k: K, prio: int) {
    && Alone(k) && 3 in k.procs && k.procs[3].prio == prio && k.procs[3].state.BlockedQueue? && k.procs[3].link == LinkedIn(Producers(0))
    && 0 in k.queues && IsEmpty(k.queues[0].ring) && Producers(0) in k.lists && k.lists[Producers(0)] == [3]
  }

  /** Process 3 sends, and waits for somebody to take the message. */
  lemma SendStep(k: K) returns (k1: K)
    requires Inv(k) && k.current == 3 && 3 in k.procs && k.procs[3].prio == 20 && Calm(k, [1, 2])
    requires 1 in k.procs && 2 in k.procs && k.procs[1].prio == 1 && k.procs[2].prio == 10
    requires k.queues == map[0 := MsgQueue(Blank(0), [], [])]
    requires Consumers(0) in k.lists && Producers(0) in k.lists && k.lists[Consumers(0)] == [] && k.lists[Producers(0)] == []
    ensures KernelRuns.Step(k, OfMsg(SendCall(0, 7)), k1) && Sent(k1, 20)
  {
    hide MemberOf, SortedOf, SemsOk, MsgsOk, TreeOk, IdleOk, ProcsOk, Schedule;
    RunningUnlinked(k);
    SendBlocks(k, 0, 7);
    var kb := Block(k, Producers(0), Sending(k.procs[3], 0, 7));
    assert [1, 2] == [1] + [2];
    SwitchOff(kb, [1], 2);
    k1 := PSend(k, 0, 7);
  }

  /** Process 2 lowers the priority of process 3. */
  lemma LowerStep(k: K) returns (k1: K)
    requires Inv(k) && Sent(k, 20)
    ensures KernelRuns.Step(k, OfProc(ChPrioCall(3, 5)), k1) && Sent(k1, 5)
  {
    hide MemberOf, SortedOf, SemsOk, MsgsOk, TreeOk, IdleOk, ProcsOk, Schedule, Requeue;
    FieldKnown(k, 3);
    RequeueEffect(k, 3, 5);
    k1 := ChPrio(k, 3, 5).k;
    assert k1 == Requeue(k, 3, Producers(0), 5);
    OnlyProducer(k1);
  }

  lemma OnlyProducer(k: K)
    requires Member(k) && 3 in k.procs && k.procs[3].link == LinkedIn(Producers(0))
    requires Producers(0) in k.lists && |k.lists[Producers(0)]| == 1
    ensures k.lists[Producers(0)] == [3]
  {
    ListHas(k, Producers(0), 3);
  }

  /** It takes the message: process 3 is ready, still marked as blocked. */
  lemma TakeStep(k: K) returns (k1: K)
    requires Inv(k) && Sent(k, 5)
    ensures KernelRuns.Step(k, OfMsg(ReceiveCall(0)), k1)
    ensures k1.current == 2 && 3 in k1.procs && Stale(k1.procs[3]) && k1.procs[3].state.BlockedQueue?
  {
    hide MemberOf, SortedOf, SemsOk, MsgsOk, TreeOk, IdleOk, ProcsOk, Schedule;
    RunningUnlinked(k);
    EnterKeeps(k, InReceive);
    var k0 := Enter(k, InReceive);
    TakeDirectKeeps(k0, 0);
    var kt := TakeDirect(k0, 0);
    RankUnique(Keys(k0.procs, Ready, [1]), 5, 1);
    assert InsertAt([1], 1, 3) == [1] + [3];
    Stays(kt, [1], 3);
    k1 := PReceive(k, 0);
  }

  /** The priority of process 3, ready after a rendezvous, is changed: it is blocked again. */
  lemma StaleWitness() returns (ks: seq<K>, es: seq<Event>)
    ensures es == [OfMsg(CreateQueue(0)), OfProc(StartCall(3, 20, Message(0, Error, Ready))), OfMsg(SendCall(0, 7)),
                   OfProc(ChPrioCall(3, 5)), OfMsg(ReceiveCall(0))] && IsRun(ks, es) && |ks| == 6
    ensures Breaks(ks[5], OfProc(ChPrioCall(3, 30)))
  {
    hide Inv, KernelRuns.Step, Boot, Breaks;
    RunStart();
    var k1 := QueueStep();
    ks, es := Longer([Boot(2, 10)], [], OfMsg(CreateQueue(0)), k1);
    var k2 := StartStep(k1, 3);
    ks, es := Longer(ks, es, OfProc(StartCall(3, 20, Message(0, Error, Ready))), k2);
    var k3 := SendStep(k2);
    ks, es := Longer(ks, es, OfMsg(SendCall(0, 7)), k3);
    var k4 := LowerStep(k3);
    ks, es := Longer(ks, es, OfProc(ChPrioCall(3, 5)), k4);
    var k5 := TakeStep(k4);
    ks, es := Longer(ks, es, OfMsg(ReceiveCall(0)), k5);
    NotAllowed(k5, OfProc(ChPrioCall(3, 30)));
  }

  // ----- grandchildren -----

  /** Process 3, running above process 2, starts 4 below both. */
  lemma GrandchildStep(k: K) returns (k1: K)
    requires Inv(k) && k.current == 3 && k.procs.Keys == {1, 2, 3} && Calm(k, [1, 2])
    requires k.procs[1].prio == 1 && k.procs[2].prio == 10 && k.procs[3].prio == 20
    requires k.procs[3].parent == Some(2) && k.procs[2].state.Activatable?
    ensures KernelRuns.Step(k, OfProc(StartCall(4, 5, Message(0, Error, Ready))), k1)
    ensures k1.current == 3 && k1.procs.Keys == {1, 2, 3, 4} && Calm(k1, [1, 4, 2])
    ensures k1.procs[3].parent == Some(2) && k1.procs[4].parent == Some(3)
    ensures k1.procs[2].state.Activatable? && k1.procs[4].state.Activatable?
  {
    hide MemberOf, SortedOf, SemsOk, MsgsOk, TreeOk, IdleOk, ProcsOk;
    var junk := Message(0, Error, Ready);
    RunningUnlinked(k);
    EnterKeeps(k, NoCall);
    var kb := Born(Enter(k, NoCall), 4, 5, junk);
    BornMember(Enter(k, NoCall), 4, 5, junk);
    RankUnique(Keys(kb.procs, Ready, [1, 2]), 5, 1);
    assert InsertAt([1, 2], 1, 4) == [1, 4, 2];
    k1 := Start(k, 4, 5, junk);
  }

  /** The running process ends, its parent is there to collect it and does not wait for it:
      the last ready process runs. */
  lemma EndStep(k: K, rest: seq<Pid>, t: Pid) returns (k1: K)
    requires Inv(k) && k.current != IDLE && k.current in k.procs && Calm(k, rest + [t])
    requires EndSafe(k.procs, k.current) && Collected(k.procs, k.current) && !WakesParent(k.procs, k.current)
    ensures KernelRuns.Step(k, OfProc(ExitCall), k1)
    ensures var procs := EndProcs(k.procs, k.current, k.current);
            && t in procs && k1.current == t && k1.procs == procs[t := procs[t].(link := Unlinked, state := Actif)]
            && k1.lists == k.lists[Ready := rest]
  {
    hide MemberOf, SortedOf, SemsOk, MsgsOk, TreeOk, IdleOk, ProcsOk, Dispatch, EndProcess, NoneLeft, ListsWhole;
    ExitReady(k);
    EndProcessKeeps(k, k.current);
    EndEffect(k, k.current);
    var ke := EndProcess(k, k.current);
    SwitchOff(ke, rest, t);
    k1 := Exit(k).k;
    assert k1 == Schedule(ke);
  }

  lemma IdleLives(k: K)
    requires Inv(k)
    ensures 1 in k.procs && !Gone(k.procs[1])
  {}

  /** Process 2 collects its child 3, whose own child lives on. */
  lemma GrandchildWitness() returns (ks: seq<K>, es: seq<Event>)
    ensures es == [OfProc(StartCall(3, 20, Message(0, Error, Ready))), OfProc(StartCall(4, 5, Message(0, Error, Ready))), OfProc(ExitCall)]
    ensures IsRun(ks, es) && |ks| == 4 && Breaks(ks[3], OfProc(WaitChildCall(3)))
  {
    hide Inv, KernelRuns.Step, Boot, Breaks, EndSafe, EndProcs, WaitSafe;
    RunStart();
    BootAlone();
    var k1 := StartStep(Boot(2, 10), 3);
    ks, es := Longer([Boot(2, 10)], [], OfProc(StartCall(3, 20, Message(0, Error, Ready))), k1);
    var k2 := GrandchildStep(k1);
    ks, es := Longer(ks, es, OfProc(StartCall(4, 5, Message(0, Error, Ready))), k2);
    LivingGrandchild(k2);
    assert [1, 4, 2] == [1, 4] + [2];
    var k3 := EndStep(k2, [1, 4], 2);
    ks, es := Longer(ks, es, OfProc(ExitCall), k3);
    LeftBehind(k3);
    NotAllowed(k3, OfProc(WaitChildCall(3)));
  }

  lemma LivingGrandchild(k: K)
    requires Inv(k) && k.current == 3 && k.procs.Keys == {1, 2, 3, 4}
    requires k.procs[3].parent == Some(2) && k.procs[4].parent == Some(3) && k.procs[2].state.Activatable? && k.procs[4].state.Activatable?
    ensures EndSafe(k.procs, 3) && Collected(k.procs, 3) && !WakesParent(k.procs, 3)
    ensures var procs := EndProcs(k.procs, 3, 3);
            && 2 in procs && procs[2] == k.procs[2] && 4 in procs && procs[4] == k.procs[4]
            && 3 in procs && procs[3].state.Zombie? && procs[3].parent == Some(2)
  {
    hide MemberOf, SortedOf, SemsOk, MsgsOk, TreeOk, ProcsOk;
    forall z | ChildOf(k.procs, z, 3) ensures !k.procs[z].state.Zombie? { IdleLives(k); RunningUnlinked(k); }
  }

  /** `waitpid` finds child 3, which has ended, and 4 still names it as its parent. */
  lemma LeftBehind(k: K)
    requires Inv(k) && k.current == 2 && 3 in k.procs && k.procs[3].state.Zombie? && k.procs[3].parent == Some(2)
    requires 4 in k.procs && k.procs[4].state.Activatable? && k.procs[4].parent == Some(3)
    ensures !WaitSafe(k, 3)
  {
    hide MemberOf, SortedOf, SemsOk, MsgsOk, IdleOk, ProcsOk, TreeOk;
    OwnChildren(k);
    ListedChild(k, 3);
    SoughtFound(k.procs, k.procs[2].children, 3, 0);
    assert Heir(k.procs - {3}, 4, 3);
  }

  lemma ListedChild(k: K, c: Pid)
    requires Inv(k) && ChildOf(k.procs, c, k.current) && !k.procs[c].state.Killed?
    ensures k.current in k.procs && exists j :: 0 <= j < |k.procs[k.current].children| && k.procs[k.current].children[j].pid == c
  {
    ChildListed(k.procs, k.births, k.current, c);
  }

  lemma {:induction false} SoughtFound(procs: map<Pid, Proc>, es: seq<Child>, c: int, i: nat)
    requires i <= |es| && (forall j :: 0 <= j < |es| ==> es[j].pid in procs) && c >= 0
    requires exists j :: i <= j < |es| && es[j].pid == c
    ensures var r := Sought(procs, es, c, i); r < |es| && es[r].pid == c
    decreases |es| - i
  {
    if es[i].pid != c { SoughtFound(procs, es, c, i + 1); }
  }

  // ----- a freed process in a list -----

  /** Process 2 has a child 3, and 3 has a child 4, which has none. */
  ghost predicate ThreeGenerations(k: K) {
    && k.procs.Keys == {1, 2, 3, 4} && k.procs[1].parent.None? && k.procs[2].parent.None?
    && k.procs[3].parent == Some(2) && k.procs[4].parent == Some(3)
    && k.procs[3].children == [Child(4, k.procs[4].born)] && k.procs[4].children == []
  }

  /** Process 2 starts 3, and 3 starts 4; each runs at once. */
  lemma Generations() returns (ks: seq<K>, es: seq<Event>)
    ensures es == [OfProc(StartCall(3, 20, Message(0, Error, Ready))), OfProc(StartCall(4, 30, Message(0, Error, Ready)))]
    ensures IsRun(ks, es) && |ks| == 3 && Inv(ks[2]) && ThreeGenerations(ks[2]) && ks[2].current == 4 && Calm(ks[2], [1, 2, 3])
    ensures ks[2].procs[2].state.Activatable? && ks[2].procs[3].state.Activatable?
  {
    hide Inv, KernelRuns.Step, Boot, IsRun;
    RunStart();
    BootAlone();
    var k1 := StartAbove(Boot(2, 10), [1], 3, 20);
    ks, es := Longer([Boot(2, 10)], [], OfProc(StartCall(3, 20, Message(0, Error, Ready))), k1);
    assert [1] + [2] == [1, 2] && [1, 2] + [3] == [1, 2, 3];
    var k2 := StartAbove(k1, [1, 2], 4, 30);
    ks, es := Longer(ks, es, OfProc(StartCall(4, 30, Message(0, Error, Ready))), k2);
  }

  /** Process 4 ends: process 3 is there to collect it. */
  lemma YoungestEnds(k: K) returns (k1: K)
    requires Inv(k) && ThreeGenerations(k) && k.current == 4 && Calm(k, [1, 2, 3])
    requires k.procs[2].state.Activatable? && k.procs[3].state.Activatable?
    ensures KernelRuns.Step(k, OfProc(ExitCall), k1) && ThreeGenerations(k1) && k1.current == 3 && Calm(k1, [1, 2])
    ensures k1.procs[2].state.Activatable? && k1.procs[4].state.Zombie?
  {
    hide Inv, KernelRuns.Step;
    assert FreeZombies(k.procs, 4) == k.procs && [1, 2] + [3] == [1, 2, 3];
    k1 := EndStep(k, [1, 2], 3);
  }

  /** Process 3 ends: process 4 is freed, and stays in its list. */
  lemma MiddleEnds(k: K) returns (k1: K)
    requires Inv(k) && ThreeGenerations(k) && k.current == 3 && Calm(k, [1, 2])
    requires k.procs[2].state.Activatable? && k.procs[4].state.Zombie?
    ensures KernelRuns.Step(k, OfProc(ExitCall), k1)
    ensures k1.current == 2 && 4 !in k1.procs && 3 in k1.procs && k1.procs[3].state.Zombie? && k1.procs[3].parent == Some(2)
    ensures k1.procs[3].children == [Child(4, k.procs[4].born)]
  {
    hide Inv, KernelRuns.Step;
    assert ChildOf(k.procs, 4, 3) && [1] + [2] == [1, 2];
    k1 := EndStep(k, [1], 2);
  }

  /** Process 2 ends: the walk goes down the list of 3 and comes to what was process 4. */
  lemma EldestEnds(k: K)
    requires Inv(k) && k.current == 2 && 3 in k.procs && k.procs[3].state.Zombie? && k.procs[3].parent == Some(2)
    requires 4 !in k.procs && |k.procs[3].children| == 1 && k.procs[3].children[0].pid == 4
    ensures Breaks(k, OfProc(ExitCall)) && Next(k, OfProc(ExitCall)) == FreedChild
  {
    hide Inv, Exit, NoneLeft;
    assert ChildOf(k.procs, 3, 2) && !Present(k.procs, k.procs[3].children[0]);
    ExitExact(k);
  }

  /** No process ends before its children, and yet the last end comes to process 4, which
      has been freed. */
  lemma FreedChildWitness() returns (ks: seq<K>, es: seq<Event>)
    ensures es == [OfProc(StartCall(3, 20, Message(0, Error, Ready))), OfProc(StartCall(4, 30, Message(0, Error, Ready))),
                   OfProc(ExitCall), OfProc(ExitCall)] && IsRun(ks, es) && |ks| == 5
    ensures Breaks(ks[4], OfProc(ExitCall)) && Next(ks[4], OfProc(ExitCall)) == FreedChild
  {
    hide Inv, KernelRuns.Step, Boot, Breaks, IsRun, ThreeGenerations;
    ks, es := Generations();
    var k3 := YoungestEnds(ks[2]);
    ks, es := Longer(ks, es, OfProc(ExitCall), k3);
    var k4 := MiddleEnds(k3);
    ks, es := Longer(ks, es, OfProc(ExitCall), k4);
    EldestEnds(k4);
  }
}
