/**
  When sleepers wake (`timer_api.c`, `scheduler.c`): wake times are stored negated in
  a queue that yields its greatest key first.
  */
module SleepTheorems {
  import opened Common
  import opened PriorityOrder
  import opened KernelState
  import opened KernelInvariant
  import opened KernelMoves
  import opened ProcessCalls
  import opened SchedulerTheorems

  /** The time at which p asked to be woken. */
  function WakeAt(k: K, p: Pid): int
    requires p in k.procs
  {
    -k.procs[p].wakeTime
  }

  /** The processes woken by one entry of the scheduler, in the order they are moved. */
  function Woken(k: K): seq<Pid>
    requires Member(k)
    decreases |k.lists[Sleepers]|
  {
    if Due(k) then [Top(k, Sleepers)] + Woken(AwakeOne(k)) else []
  }

  lemma SleepersAfterOne(k: K)
    requires Member(k) && Sleepers in k.lists && k.lists[Sleepers] != []
    ensures var s := k.lists[Sleepers];
            Sleepers in AwakeOne(k).lists && AwakeOne(k).lists[Sleepers] == s[..|s| - 1]
  {
    hide MemberOf, SortedOf;
    Heads(k);
    TopMember(k, Sleepers);
    SleepersDistinct(k);
    LastIndex(k.lists[Sleepers]);
  }

  lemma SleepersDistinct(k: K)
    requires Member(k)
    ensures Sleepers in k.lists && Distinct(k.lists[Sleepers])
    ensures forall i :: 0 <= i < |k.lists[Sleepers]| ==> k.lists[Sleepers][i] in k.procs
  {
    assert Holds(k.procs, Sleepers, k.lists[Sleepers]);
  }

  /** The sleep queue loses exactly its tail, last element first. */
  lemma {:induction false} WokenIsTail(k: K)
    requires Member(k)
    ensures Sleepers in k.lists && Sleepers in Awake(k).lists
    ensures var s, w := k.lists[Sleepers], Woken(k);
            && |w| <= |s|
            && Awake(k).lists[Sleepers] == s[..|s| - |w|]
            && (forall i :: 0 <= i < |w| ==> w[i] == s[|s| - 1 - i])
    decreases |k.lists[Sleepers]|
  {
    hide MemberOf, SortedOf, AwakeOne;
    SleepersDistinct(k);
    if Due(k) {
      SleepersAfterOne(k);
      AwakeOneMember(k);
      WokenIsTail(AwakeOne(k));
    }
  }

  lemma AwakeOneMember(k: K)
    requires Member(k) && Sleepers in k.lists && k.lists[Sleepers] != []
    ensures Member(AwakeOne(k))
  {}

  lemma {:induction false} AwakeStops(k: K)
    requires Member(k)
    ensures !Due(Awake(k))
    decreases |k.lists[Sleepers]|
  {
    if Due(k) { AwakeStops(AwakeOne(k)); }
  }

  /** Whoever is woken was due. */
  lemma {:induction false} WokenWereDue(k: K, i: nat)
    requires Member(k) && i < |Woken(k)|
    ensures var p := Woken(k)[i];
            p in k.procs && k.procs[p].link == LinkedIn(Sleepers) && WakeAt(k, p) != 0 && WakeAt(k, p) < k.clock
    decreases |k.lists[Sleepers]|
  {
    hide MemberOf, SortedOf, AwakeOne;
    SleepersDistinct(k);
    TopMember(k, Sleepers);
    if i > 0 {
      SleepersAfterOne(k);
      AwakeOneMember(k);
      AwakeOneEffect(k);
      WokenWereDue(AwakeOne(k), i - 1);
    }
  }

  lemma SleeperNegative(k: K, p: Pid)
    requires Mid(k) && p in k.procs && k.procs[p].link == LinkedIn(Sleepers)
    ensures k.procs[p].wakeTime < 0
  {}

  /** Every entry of the scheduler wakes exactly the sleepers whose wake time is strictly
      before the clock, earliest first, and leaves the others asleep. */
  lemma WakesExactlyTheDue(k: K, p: Pid)
    requires Mid(k) && Sleepers in k.lists && p in k.lists[Sleepers]
    ensures p in k.procs && p in Awake(k).procs
    ensures WakeAt(k, p) < k.clock <==> p in Woken(k)
    ensures p in Woken(k) <==> Awake(k).procs[p].link == LinkedIn(Ready)
    ensures p !in Woken(k) <==> Sleepers in Awake(k).lists && p in Awake(k).lists[Sleepers]
  {
    hide MemberOf, SortedOf, SemsOk, MsgsOk, TreeOk, IdleOk, Awake, Woken;
    var k' := Awake(k);
    AwakeKeeps(k);
    AwakeProc(k, p);
    WokenIsTail(k);
    AwakeStops(k);
    ListHas(k, Sleepers, p);
    ListHas(k', Sleepers, p);
    SleepersDistinct(k);
    var s, w := k.lists[Sleepers], Woken(k);
    var at :| 0 <= at < |s| && s[at] == p;
    if at >= |s| - |w| {
      assert w[|s| - 1 - at] == p;
      WokenWereDue(k, |s| - 1 - at);
      assert p !in k'.lists[Sleepers];
      assert k'.procs[p].link == LinkedIn(Ready);
    } else {
      assert k'.lists[Sleepers][at] == p;
      forall i | 0 <= i < |w| ensures w[i] != p {
        assert w[i] == s[|s| - 1 - i];
      }
      TopIsMax(k', Sleepers, p);
      TopMember(k', Sleepers);
      SleeperNegative(k', Top(k', Sleepers));
    }
  }

  /** Sleepers are moved in the order of their wake times. */
  lemma WokenInOrder(k: K, i: nat, j: nat)
    requires Mid(k) && i < j < |Woken(k)|
    ensures Woken(k)[i] in k.procs && Woken(k)[j] in k.procs
    ensures WakeAt(k, Woken(k)[i]) <= WakeAt(k, Woken(k)[j])
  {
    hide MemberOf, SortedOf, SemsOk, MsgsOk, TreeOk, IdleOk, ProcsOk, Awake, Woken;
    WokenIsTail(k);
    var s := k.lists[Sleepers];
    SleeperOrder(k, |s| - 1 - j, |s| - 1 - i);
  }

  lemma SleeperOrder(k: K, i: nat, j: nat)
    requires Member(k) && Sorted(k) && Sleepers in k.lists && i < j < |k.lists[Sleepers]|
    ensures var s := k.lists[Sleepers];
            s[i] in k.procs && s[j] in k.procs && k.procs[s[i]].wakeTime <= k.procs[s[j]].wakeTime
  {
    var s := k.lists[Sleepers];
    assert Holds(k.procs, Sleepers, s);
    assert Ascending(Keys(k.procs, Sleepers, s));
    assert Keys(k.procs, Sleepers, s)[i] <= Keys(k.procs, Sleepers, s)[j];
  }

  /** All sleepers that are due are woken if and only if none of them asked for time 0:
      a wake time of 0 at the top of the queue reads as an empty queue. */
  lemma WakeTimeZeroBlocks(k: K)
    requires Member(k) && Sorted(k) && Sleepers in k.lists && k.clock > 0
    requires forall p :: p in k.lists[Sleepers] ==> p in k.procs && WakeAt(k, p) >= 0
    ensures (forall p :: p in k.lists[Sleepers] && WakeAt(k, p) < k.clock ==> p in Woken(k)) <==>
            (forall p :: p in k.lists[Sleepers] ==> WakeAt(k, p) != 0)
  {
    hide MemberOf, SortedOf, Awake, Woken;
    var s := k.lists[Sleepers];
    if z :| z in s && WakeAt(k, z) == 0 {
      TopIsMax(k, Sleepers, z);
      NotDueNoneWoken(k);
    } else {
      forall p | p in s && WakeAt(k, p) < k.clock ensures p in Woken(k) {
        DueIsWoken(k, p);
      }
    }
  }

  lemma NotDueNoneWoken(k: K)
    requires Member(k) && !Due(k)
    ensures Woken(k) == []
  {}

  lemma {:induction false} DueIsWoken(k: K, p: Pid)
    requires Member(k) && Sorted(k) && Sleepers in k.lists && p in k.lists[Sleepers]
    requires p in k.procs && WakeAt(k, p) < k.clock
    requires forall q :: q in k.lists[Sleepers] ==> q in k.procs && WakeAt(k, q) > 0
    ensures p in Woken(k)
    decreases |k.lists[Sleepers]|
  {
    hide MemberOf, SortedOf, AwakeOne;
    TopIsMax(k, Sleepers, p);
    assert Due(k);
    if p != Top(k, Sleepers) {
      SleepersAfterOne(k);
      AwakeOneEffect(k);
      AwakeOneOk(k);
      DueIsWoken(AwakeOne(k), p);
    }
  }

  lemma AwakeOneOk(k: K)
    requires Member(k) && Sorted(k) && Sleepers in k.lists && k.lists[Sleepers] != []
    ensures Member(AwakeOne(k)) && Sorted(AwakeOne(k))
  {}

  // ----- at the call -----

  lemma {:induction false} ZeroNotWoken(k: K, p: Pid)
    requires Member(k) && p in k.procs && k.procs[p].link == LinkedIn(Sleepers) && k.procs[p].wakeTime == 0
    ensures p in Awake(k).procs && Awake(k).procs[p] == k.procs[p]
    decreases |k.lists[Sleepers]|
  {
    hide MemberOf, SortedOf, AwakeOne;
    Heads(k);
    if Due(k) {
      AwakeOneEffect(k);
      AwakeOneMember(k);
      ZeroNotWoken(AwakeOne(k), p);
    }
  }

  /** After that the process sleeps on, and is not what the invariant says of a sleeper. */
  lemma ZeroSleeps(k: K)
    requires Member(k) && CurrentMayLeave(k) && k.procs[k.current].link == LinkedIn(Sleepers)
    requires k.procs[k.current].state.Asleep? && k.procs[k.current].wakeTime == 0
    ensures k.current in Dispatch(k).procs && Dispatch(k).procs[k.current] == k.procs[k.current]
  {
    hide MemberOf, SortedOf, Choose;
    var k1 := Awake(k);
    AwakeProc(k, k.current);
    ZeroNotWoken(k, k.current);
    FreeDeadKeeps(k1);
    var k2 := FreeDead(k1);
    Heads(k2);
    if k2.lists[Ready] != [] { ChooseEffect(k2, k2.procs[k2.current]); } else { ChooseIdle(k2); }
  }

  lemma ChooseIdle(k: K)
    requires Member(k) && CurrentMayLeave(k) && Ready in k.lists && k.lists[Ready] == []
    ensures Choose(k) == k
  {}

  lemma BadSleeper(k: K, p: Pid)
    requires p in k.procs && k.procs[p].link == LinkedIn(Sleepers) && k.procs[p].state.Asleep? && k.procs[p].wakeTime == 0
    ensures !Inv(k)
  {}

  /** `wait_clock` keeps the invariant if and only if the time it asks for is not 0. */
  lemma WaitClockExact(k: K, d: nat)
    requires Inv(k) && k.current != IDLE
    ensures Inv(WaitClock(k, d)) <==> k.clock + d != 0
  {
    hide MemberOf, SortedOf, SemsOk, MsgsOk, TreeOk, IdleOk, ProcsOk, Block, Dispatch;
    if k.clock + d == 0 {
      RunningUnlinked(k);
      SleepReady(k, d);
      BlockEffect(k, Sleepers, Sleeping(k, d));
      ZeroSleeps(Block(k, Sleepers, Sleeping(k, d)));
      BadSleeper(WaitClock(k, d), k.current);
    }
  }
}
