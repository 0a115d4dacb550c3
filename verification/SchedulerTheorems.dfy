/**
  What `scheduler()` promises: the running process has the highest priority, equals
  take turns, and sleepers wake exactly when they are due.
  */
module SchedulerTheorems {
  import opened Common
  import opened PriorityOrder
  import opened KernelState
  import opened KernelInvariant
  import opened KernelMoves
  import opened MessageCalls
  import opened ProcessCalls

  lemma TopIsMax(k: K, l: ListId, p: Pid)
    requires Member(k) && Sorted(k) && l in k.lists && p in k.lists[l]
    ensures p in k.procs && Top(k, l) in k.procs && Key(l, k.procs[p]) <= Key(l, k.procs[Top(k, l)])
  {
    var s := k.lists[l];
    assert Holds(k.procs, l, s);
    var ks := Keys(k.procs, l, s);
    assert Ascending(ks);
    var i :| 0 <= i < |s| && s[i] == p;
    assert ks[i] == Key(l, k.procs[p]) && ks[|s| - 1] == Key(l, k.procs[s[|s| - 1]]);
  }

  lemma ListHas(k: K, l: ListId, p: Pid)
    requires Member(k) && l in k.lists
    ensures p in k.lists[l] <==> p in k.procs && k.procs[p].link == LinkedIn(l)
  {
    assert Holds(k.procs, l, k.lists[l]);
  }

  lemma ChooseHighest(k: K, p: Pid)
    requires Mid(k) && CurrentMayLeave(k)
    requires var r := Choose(k); Ready in r.lists && p in r.lists[Ready]
    ensures var r := Choose(k);
            p in r.procs && r.current in r.procs && r.procs[p].prio <= r.procs[r.current].prio
  {
    hide MemberOf, SortedOf, SemsOk, MsgsOk, TreeOk, Choose;
    ChooseKeeps(k);
    Heads(k);
    var r := Choose(k);
    ListHas(r, Ready, p);
    var c := k.current;
    var cur := k.procs[c];
    if k.lists[Ready] == [] {
      ChooseNothing(k);
    } else {
      TopMember(k, Ready);
      if cur.state.Actif? && k.procs[Top(k, Ready)].prio < cur.prio {
        ChooseNothing(k);
        TopIsMax(k, Ready, p);
      } else {
        var cpr := if cur.state.Actif? then cur.(state := Activatable, link := LinkedIn(Ready))
                   else if cur.state.Killed? then cur.(link := LinkedIn(Dead)) else cur;
        ChooseEffect(k, cpr);
        if p != c || !cur.state.Actif? {
          ListHas(k, Ready, p);
          TopIsMax(k, Ready, p);
        }
      }
    }
  }

  /** After every call of `scheduler()`, no ready process has a higher priority than the
      running one. */
  lemma RunningIsHighest(k: K, p: Pid)
    requires Mid(k)
    requires var r := Schedule(k); Ready in r.lists && p in r.lists[Ready]
    ensures var r := Schedule(k);
            p in r.procs && r.current in r.procs && r.procs[p].prio <= r.procs[r.current].prio
  {
    hide MemberOf, SortedOf, SemsOk, MsgsOk, TreeOk, IdleOk, ProcsOk, Choose;
    MidMayLeave(k);
    AwakeKeeps(k);
    FreeDeadMid(Awake(k));
    MidMayLeave(FreeDead(Awake(k)));
    ChooseHighest(FreeDead(Awake(k)), p);
  }

  // ----- round robin -----

  /** No sleeper becomes due within n ticks. */
  ghost predicate Quiet(k: K, n: nat)
    requires Member(k)
  {
    && Sleepers in k.lists
    && forall p :: p in k.lists[Sleepers] ==> p in k.procs && k.clock + n <= -k.procs[p].wakeTime
  }

  /** The ready list ends with `run`, exactly the ready processes that share the running
      process's priority; the others are lower. */
  ghost predicate TopRun(k: K, run: seq<Pid>)
    requires Inv(k)
  {
    && Ready in k.lists
    && |run| <= |k.lists[Ready]|
    && var low := k.lists[Ready][..|k.lists[Ready]| - |run|];
    && k.lists[Ready] == low + run
    && (forall i :: 0 <= i < |low| ==> low[i] in k.procs && k.procs[low[i]].prio < k.procs[k.current].prio)
    && (forall i :: 0 <= i < |run| ==> run[i] in k.procs && k.procs[run[i]].prio == k.procs[k.current].prio)
  }

  /** n ticks in a row. */
  function Ticks(k: K, n: nat): (r: K)
    requires Inv(k)
    ensures Inv(r)
    decreases n
  {
    if n == 0 then k else Tick(Ticks(k, n - 1))
  }

  /** The order in which the processes sharing the top priority take turns. */
  function Turns(k: K, run: seq<Pid>): seq<Pid> {
    run + [k.current]
  }

  lemma QuietAwake(k: K)
    requires Mid(k) && Quiet(k, 0)
    ensures Awake(k) == k
  {}

  /** With nobody to wake, a tick only frees the dead and chooses. */
  lemma TickIsChoose(k: K) returns (k2: K)
    requires Inv(k) && Quiet(k, 1)
    ensures Inv(k2) && CurrentMayLeave(k2) && Tick(k) == Choose(k2)
    ensures k2.current == k.current && k2.clock == k.clock + 1
    ensures forall p :: p in k2.procs ==> p in k.procs && k2.procs[p] == k.procs[p]
    ensures forall p :: p in k.procs && k.procs[p].link != LinkedIn(Dead) ==> p in k2.procs
    ensures Ready in k.lists && Sleepers in k.lists && Ready in k2.lists && Sleepers in k2.lists
    ensures k2.lists[Ready] == k.lists[Ready] && k2.lists[Sleepers] == k.lists[Sleepers]
  {
    hide MemberOf, SortedOf, SemsOk, MsgsOk, TreeOk, IdleOk, ProcsOk, Choose, Due;
    var k1 := k.(clock := k.clock + 1);
    QuietAwake(k1);
    FreeDeadMid(k1);
    k2 := FreeDead(k1);
    MidMayLeave(k2);
    MidMayLeave(k1);
    Heads(k);
    RunningUnlinked(k);
  }

  lemma {:induction false} RankSplit(low: seq<int>, run: seq<int>, p: int)
    requires forall i :: 0 <= i < |low| ==> low[i] < p
    requires forall i :: 0 <= i < |run| ==> run[i] >= p
    ensures Rank(low + run, p) == |low|
  {
    RankUnique(low + run, p, |low|);
  }

  lemma LastIndex(s: seq<Pid>)
    requires s != [] && Distinct(s)
    ensures IndexOf(s, s[|s| - 1]) == |s| - 1 && RemoveAt(s, |s| - 1) == s[..|s| - 1]
  {}

  lemma InnerKeys(k: K, s: seq<Pid>, procs': map<Pid, Proc>)
    requires forall i :: 0 <= i < |s| ==>
               s[i] in k.procs && s[i] in procs' && procs'[s[i]].prio == k.procs[s[i]].prio
    ensures Keys(procs', Ready, s) == Keys(k.procs, Ready, s)
  {}

  lemma ReadyKnown(k: K, i: nat)
    requires Inv(k) && Ready in k.lists && i < |k.lists[Ready]|
    ensures Distinct(k.lists[Ready])
    ensures var p := k.lists[Ready][i];
            p in k.procs && k.procs[p].link == LinkedIn(Ready) && p != k.current
  {
    assert Holds(k.procs, Ready, k.lists[Ready]);
  }

  /** The ready list after a switch between active processes. */
  lemma SwapReady(k: K, rest: seq<Pid>)
    requires Inv(k) && CurrentMayLeave(k) && Ready in k.lists && k.lists[Ready] != []
    requires Top(k, Ready) in k.procs && k.procs[Top(k, Ready)].prio >= k.procs[k.current].prio
    requires rest == k.lists[Ready][..|k.lists[Ready]| - 1]
    requires forall i :: 0 <= i < |rest| ==> rest[i] in k.procs
    ensures Ready in Choose(k).lists
    ensures Choose(k).lists[Ready] ==
            InsertAt(rest, Rank(Keys(k.procs, Ready, rest), k.procs[k.current].prio), k.current)
  {
    hide MemberOf, SortedOf, SemsOk, MsgsOk, TreeOk, IdleOk, ProcsOk;
    var s := k.lists[Ready];
    var c := k.current;
    ReadyKnown(k, |s| - 1);
    forall i | 0 <= i < |rest| ensures rest[i] != c && rest[i] != Top(k, Ready) {
      ReadyKnown(k, i);
    }
    LastIndex(s);
    var k1 := SwitchToTop(k);
    SwitchEffect(k);
    assert k1.lists[Ready] == rest;
    RunningUnlinked(k);
    var k2 := Write(k1, c, k.procs[c].(state := Activatable));
    InnerKeys(k, rest, k2.procs);
  }

  lemma MakeTopRun(k: K, low: seq<Pid>, run: seq<Pid>)
    requires Inv(k) && Ready in k.lists && k.lists[Ready] == low + run
    requires forall i :: 0 <= i < |low| ==> low[i] in k.procs && k.procs[low[i]].prio < k.procs[k.current].prio
    requires forall i :: 0 <= i < |run| ==> run[i] in k.procs && k.procs[run[i]].prio == k.procs[k.current].prio
    ensures TopRun(k, run)
  {
    hide MemberOf, SortedOf, SemsOk, MsgsOk, TreeOk, IdleOk, ProcsOk;
    assert k.lists[Ready][..|k.lists[Ready]| - |run|] == low;
  }

  /** One tick hands the processor to the last process of the run and puts the running
      one in front of it. */
  lemma TickRotates(k: K, run: seq<Pid>)
    requires Inv(k) && TopRun(k, run) && Quiet(k, 1)
    ensures run == [] ==> Tick(k).current == k.current && TopRun(Tick(k), [])
    ensures run != [] ==>
              && Tick(k).current == run[|run| - 1]
              && TopRun(Tick(k), [k.current] + run[..|run| - 1])
    ensures Tick(k).clock == k.clock + 1
    ensures Sleepers in k.lists && Sleepers in Tick(k).lists && Tick(k).lists[Sleepers] == k.lists[Sleepers]
    ensures forall p :: p in k.lists[Sleepers] ==>
              p in k.procs && p in Tick(k).procs && Tick(k).procs[p].wakeTime == k.procs[p].wakeTime
  {
    hide MemberOf, SortedOf, SemsOk, MsgsOk, TreeOk, IdleOk, ProcsOk, Choose, Tick;
    var k2 := TickIsChoose(k);
    RunningUnlinked(k);
    forall p | p in k.lists[Sleepers] ensures p in k2.procs && k2.procs[p].link == LinkedIn(Sleepers) {
      ListHas(k, Sleepers, p);
    }
    forall i | 0 <= i < |k.lists[Ready]|
      ensures var p := k.lists[Ready][i]; p in k2.procs && k2.procs[p] == k.procs[p] && p != k.current
    {
      ReadyKnown(k, i);
    }
    if run == [] {
      StayOn(k, k2);
    } else {
      Rotate(k, k2, run);
    }
  }

  lemma StayOn(k: K, k2: K)
    requires Inv(k) && TopRun(k, []) && Inv(k2) && CurrentMayLeave(k2)
    requires k2.current == k.current && Ready in k2.lists && k2.lists[Ready] == k.lists[Ready]
    requires forall i :: 0 <= i < |k.lists[Ready]| ==>
               var p := k.lists[Ready][i]; p in k2.procs && k2.procs[p] == k.procs[p]
    requires k2.procs[k.current] == k.procs[k.current]
    ensures Choose(k2) == k2 && TopRun(k2, [])
  {
    hide MemberOf, SortedOf, SemsOk, MsgsOk, TreeOk, IdleOk, ProcsOk, Choose;
    assert k.lists[Ready] == k.lists[Ready][..|k.lists[Ready]|];
    ChooseNothing(k2);
  }

  lemma Rotate(k: K, k2: K, run: seq<Pid>)
    requires Inv(k) && TopRun(k, run) && run != [] && Inv(k2) && CurrentMayLeave(k2)
    requires k2.current == k.current && Ready in k2.lists && k2.lists[Ready] == k.lists[Ready]
    requires forall i :: 0 <= i < |k.lists[Ready]| ==>
               var p := k.lists[Ready][i]; p in k2.procs && k2.procs[p] == k.procs[p] && p != k.current
    requires k2.procs[k.current] == k.procs[k.current]
    requires Sleepers in k2.lists
    ensures var r := Choose(k2);
            && Inv(r) && r.current == run[|run| - 1] && TopRun(r, [k.current] + run[..|run| - 1])
            && r.clock == k2.clock && Sleepers in r.lists && r.lists[Sleepers] == k2.lists[Sleepers]
            && (forall p :: p in k2.procs ==> p in r.procs && r.procs[p].wakeTime == k2.procs[p].wakeTime)
  {
    hide MemberOf, SortedOf, SemsOk, MsgsOk, TreeOk, IdleOk, ProcsOk, Choose;
    var s := k.lists[Ready];
    var low := s[..|s| - |run|];
    assert forall i :: 0 <= i < |low| ==> low[i] == s[i];
    assert forall i :: 0 <= i < |run| ==> run[i] == s[|low| + i];
    RotateFrom(k2, low, run);
  }

  lemma RotateFrom(k: K, low: seq<Pid>, run: seq<Pid>)
    requires Inv(k) && CurrentMayLeave(k) && Ready in k.lists && Sleepers in k.lists
    requires run != [] && k.lists[Ready] == low + run
    requires forall i :: 0 <= i < |low| ==>
               low[i] in k.procs && k.procs[low[i]].prio < k.procs[k.current].prio && low[i] != k.current
    requires forall i :: 0 <= i < |run| ==>
               run[i] in k.procs && k.procs[run[i]].prio == k.procs[k.current].prio && run[i] != k.current
    ensures var r := Choose(k);
            && Inv(r) && r.current == run[|run| - 1] && TopRun(r, [k.current] + run[..|run| - 1])
            && r.clock == k.clock && Sleepers in r.lists && r.lists[Sleepers] == k.lists[Sleepers]
            && (forall p :: p in k.procs ==> p in r.procs && r.procs[p].wakeTime == k.procs[p].wakeTime)
  {
    hide MemberOf, SortedOf, SemsOk, MsgsOk, TreeOk, IdleOk, ProcsOk, Choose, TopRun, InsertAt, Keys;
    var c := k.current;
    var s := k.lists[Ready];
    assert Top(k, Ready) == run[|run| - 1];
    RotateList(k, low, run, c);
    SwapReady(k, s[..|s| - 1]);
    ChooseEffect(k, k.procs[c].(state := Activatable, link := LinkedIn(Ready)));
    ChooseKeeps(k);
    MakeTopRun(Choose(k), low, [c] + run[..|run| - 1]);
  }

  /** Re-inserting a process of the top priority puts it in front of its equals. */
  lemma RotateList(k: K, low: seq<Pid>, run: seq<Pid>, c: Pid)
    requires run != [] && c in k.procs
    requires forall i :: 0 <= i < |low| ==> low[i] in k.procs && k.procs[low[i]].prio < k.procs[c].prio
    requires forall i :: 0 <= i < |run| ==> run[i] in k.procs && k.procs[run[i]].prio == k.procs[c].prio
    ensures var s := low + run;
            var rest := s[..|s| - 1];
            && (forall i :: 0 <= i < |rest| ==> rest[i] in k.procs)
            && InsertAt(rest, Rank(Keys(k.procs, Ready, rest), k.procs[c].prio), c) == low + ([c] + run[..|run| - 1])
  {
    var rest := (low + run)[..|low| + |run| - 1];
    var front := run[..|run| - 1];
    assert rest == low + front;
    assert Keys(k.procs, Ready, rest) == Keys(k.procs, Ready, low) + Keys(k.procs, Ready, front);
    RankSplit(Keys(k.procs, Ready, low), Keys(k.procs, Ready, front), k.procs[c].prio);
  }

  /** One more place: the last of the rotated run goes to the front of the rest. */
  lemma OnePlaceOn(run: seq<Pid>, c: Pid, n: nat)
    requires 0 < n <= |run|
    ensures var t, m := run + [c], |run|;
            var run1 := t[m - n + 2..] + run[..m - n + 1];
            && run1[|run1| - 1] == run[m - n] == t[m - n]
            && [t[m - n + 1]] + run1[..|run1| - 1] == t[m - n + 1..] + run[..m - n]
  {
    var t, m := run + [c], |run|;
    var run1 := t[m - n + 2..] + run[..m - n + 1];
    assert run1[..|run1| - 1] == t[m - n + 2..] + run[..m - n];
    assert t[m - n + 1..] == [t[m - n + 1]] + t[m - n + 2..];
  }

  /** The run, and the running process, after n ticks: the run rotated n times. */
  lemma {:induction false} TicksRotate(k: K, run: seq<Pid>, n: nat)
    requires Inv(k) && TopRun(k, run) && n <= |run| && Quiet(k, n)
    ensures Ticks(k, n).current == Turns(k, run)[|run| - n]
    ensures TopRun(Ticks(k, n), Turns(k, run)[|run| - n + 1..] + run[..|run| - n])
    ensures Ticks(k, n).clock == k.clock + n
    ensures Sleepers in Ticks(k, n).lists && Ticks(k, n).lists[Sleepers] == k.lists[Sleepers]
    ensures forall p :: p in k.lists[Sleepers] ==>
              p in Ticks(k, n).procs && Ticks(k, n).procs[p].wakeTime == k.procs[p].wakeTime
    decreases n
  {
    hide MemberOf, SortedOf, SemsOk, MsgsOk, TreeOk, IdleOk, ProcsOk, Tick, TopRun;
    var m := |run|;
    if n == 0 {
      assert Turns(k, run)[m + 1..] + run[..m] == run;
    } else {
      TicksRotate(k, run, n - 1);
      var k1 := Ticks(k, n - 1);
      var run1 := Turns(k, run)[m - n + 2..] + run[..m - n + 1];
      TickRotates(k1, run1);
      OnePlaceOn(run, k.current, n);
    }
  }

  /** Round robin: if the processes of `run` share the running process's priority and only
      ticks occur, the next |run| + 1 ticks run each of them, and the running one, exactly
      once: tick t runs the process at place |run| - t, and the last one returns to the
      process that was running. */
  lemma RoundRobin(k: K, run: seq<Pid>)
    requires Inv(k) && TopRun(k, run) && Quiet(k, |run| + 1)
    ensures forall t :: 0 < t <= |run| ==> Ticks(k, t).current == run[|run| - t]
    ensures Ticks(k, |run| + 1).current == k.current
    ensures Distinct(Turns(k, run))
  {
    hide MemberOf, SortedOf, SemsOk, MsgsOk, TreeOk, IdleOk, ProcsOk, Tick, TopRun;
    forall t | 0 < t <= |run| ensures Ticks(k, t).current == run[|run| - t] {
      TicksRotate(k, run, t);
    }
    TicksRotate(k, run, |run|);
    var k1 := Ticks(k, |run|);
    var run1 := Turns(k, run)[1..] + run[..0];
    TickRotates(k1, run1);
    RunDistinct(k, run);
  }

  lemma RunDistinct(k: K, run: seq<Pid>)
    requires Inv(k) && TopRun(k, run)
    ensures Distinct(Turns(k, run))
  {
    hide MemberOf, SortedOf, SemsOk, MsgsOk, TreeOk, IdleOk, ProcsOk;
    var s := k.lists[Ready];
    forall i | 0 <= i < |run| ensures run[i] == s[|s| - |run| + i] && run[i] != k.current && Distinct(s) {
      ReadyKnown(k, |s| - |run| + i);
    }
  }
}
