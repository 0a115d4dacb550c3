/**
  Where every process is after a call of `scheduler()`, by where it was before: the frame of
  all statements about what a system call does.
  */
module SchedulerMoves {
  import opened KernelState
  import opened KernelInvariant
  import opened MessageCalls
  import opened SchedulerTheorems
  import opened SleepTheorems

  /** The process runs or is ready to. */
  predicate Resumed(k: K, p: Pid) {
    p in k.procs && (p == k.current || k.procs[p].link == LinkedIn(Ready))
  }

  /** The process is where the scheduler looks for one to run. */
  predicate Eligible(k: K, p: Pid)
    requires p in k.procs
  {
    k.procs[p].link == LinkedIn(Ready) || (p == k.current && k.procs[p].state.Actif?)
  }

  /** The process is not concerned by a choice among those that are ready. */
  predicate Aside(k: K, p: Pid)
    requires p in k.procs
  {
    !Eligible(k, p) && !(p == k.current && k.procs[p].state.Killed?)
  }

  lemma ChooseMoves(k: K, p: Pid)
    requires Mid(k) && p in k.procs
    ensures CurrentMayLeave(k) && p in Choose(k).procs
    ensures Eligible(k, p) ==> Resumed(Choose(k), p)
    ensures Aside(k, p) ==> Choose(k).procs[p] == k.procs[p] && Choose(k).current != p
    ensures p == k.current && k.procs[p].state.Killed? ==> Choose(k).procs[p] == k.procs[p].(link := LinkedIn(Dead)) && Choose(k).current != p
  {
    hide MemberOf, SortedOf, SemsOk, MsgsOk, TreeOk, Choose;
    ChooseKeeps(k);
    Heads(k);
    var cur := k.procs[k.current];
    if k.lists[Ready] == [] {
      ChooseNothing(k);
    } else if TopMember(k, Ready); cur.state.Actif? && k.procs[Top(k, Ready)].prio < cur.prio {
      ChooseNothing(k);
    } else {
      ChooseEffect(k, if cur.state.Actif? then cur.(state := Activatable, link := LinkedIn(Ready))
                      else if cur.state.Killed? then cur.(link := LinkedIn(Dead)) else cur);
    }
  }

  lemma ChooseOtherLists(k: K, l: ListId)
    requires Mid(k) && l in k.lists && l != Ready && l != Dead
    ensures CurrentMayLeave(k) && l in Choose(k).lists && Choose(k).lists[l] == k.lists[l]
  {
    hide MemberOf, SortedOf, SemsOk, MsgsOk, TreeOk, Choose;
    ChooseKeeps(k);
    Heads(k);
    var cur := k.procs[k.current];
    if k.lists[Ready] == [] {
      ChooseNothing(k);
    } else if TopMember(k, Ready); cur.state.Actif? && k.procs[Top(k, Ready)].prio < cur.prio {
      ChooseNothing(k);
    } else {
      ChooseEffect(k, if cur.state.Actif? then cur.(state := Activatable, link := LinkedIn(Ready))
                      else if cur.state.Killed? then cur.(link := LinkedIn(Dead)) else cur);
    }
  }

  /** The scheduler does not touch the lists in which processes wait for an event. */
  lemma ScheduleLists(k: K, l: ListId)
    requires Mid(k) && l in k.lists && l != Ready && l != Sleepers && l != Dead
    ensures l in Schedule(k).lists && Schedule(k).lists[l] == k.lists[l]
  {
    hide MemberOf, SortedOf, SemsOk, MsgsOk, TreeOk, IdleOk, ProcsOk, Choose, Awake;
    MidMayLeave(k);
    AwakeProc(k, k.current);
    AwakeKeeps(k);
    FreeDeadMid(Awake(k));
    ChooseOtherLists(FreeDead(Awake(k)), l);
  }

  /** A sleeper wakes up if its time is before the clock. */
  predicate Overdue(k: K, p: Pid)
    requires p in k.procs
  {
    k.procs[p].link == LinkedIn(Sleepers) && -k.procs[p].wakeTime < k.clock
  }

  /** Ready processes and the running one, if it has not blocked or ended, are ready or
      running afterwards, and so are sleepers whose time has come. All others stay what and
      where they are, except that the dead are freed and a killed process is among them. */
  lemma ScheduleMoves(k: K, p: Pid)
    requires Mid(k) && p in k.procs
    ensures Eligible(k, p) || Overdue(k, p) ==> Resumed(Schedule(k), p)
    ensures Aside(k, p) && !Overdue(k, p) && k.procs[p].link != LinkedIn(Dead) ==>
              p in Schedule(k).procs && Schedule(k).procs[p] == k.procs[p] && Schedule(k).current != p
    ensures k.procs[p].link == LinkedIn(Dead) ==> p !in Schedule(k).procs
    ensures p == k.current && k.procs[p].state.Killed? ==>
              p in Schedule(k).procs && Schedule(k).procs[p] == k.procs[p].(link := LinkedIn(Dead)) && Schedule(k).current != p
  {
    hide MemberOf, SortedOf, SemsOk, MsgsOk, TreeOk, IdleOk, ProcsOk, Choose, Awake;
    var k1 := Awake(k);
    MidMayLeave(k);
    AwakeKeeps(k);
    AwakeProc(k, p);
    AwakeProc(k, k.current);
    FreeDeadMid(k1);
    var k2 := FreeDead(k1);
    MidMayLeave(k2);
    SleeperMoves(k, p);
    CurrentPlace(k);
    if p in k2.procs {
      ChooseMoves(k2, p);
    } else {
      ChooseNoNew(k2, p);
    }
  }

  /** The running process is in the sleep queue or the dead list only if it has blocked. */
  lemma CurrentPlace(k: K)
    requires Mid(k)
    ensures k.current in k.procs && k.procs[k.current].link != LinkedIn(Dead)
    ensures k.procs[k.current].state.Actif? || k.procs[k.current].state.Killed? ==> k.procs[k.current].link.Unlinked?
  {}

  lemma SleeperMoves(k: K, p: Pid)
    requires Mid(k) && p in k.procs
    ensures p in Awake(k).procs
    ensures Overdue(k, p) ==> Awake(k).procs[p].link == LinkedIn(Ready)
    ensures !Overdue(k, p) ==> Awake(k).procs[p] == k.procs[p]
  {
    hide MemberOf, SortedOf, SemsOk, MsgsOk, TreeOk, IdleOk, ProcsOk, Awake, Woken;
    AwakeProc(k, p);
    Heads(k);
    if k.procs[p].link == LinkedIn(Sleepers) {
      ListHas(k, Sleepers, p);
      WakesExactlyTheDue(k, p);
    }
  }

  lemma ChooseNoNew(k: K, p: Pid)
    requires Mid(k) && p !in k.procs
    ensures CurrentMayLeave(k) && p !in Choose(k).procs
  {
    hide MemberOf, SortedOf, SemsOk, MsgsOk, TreeOk, Choose;
    ChooseKeeps(k);
    Heads(k);
    var cur := k.procs[k.current];
    if k.lists[Ready] == [] {
      ChooseNothing(k);
    } else if TopMember(k, Ready); cur.state.Actif? && k.procs[Top(k, Ready)].prio < cur.prio {
      ChooseNothing(k);
    } else {
      ChooseEffect(k, if cur.state.Actif? then cur.(state := Activatable, link := LinkedIn(Ready))
                      else if cur.state.Killed? then cur.(link := LinkedIn(Dead)) else cur);
    }
  }
}
