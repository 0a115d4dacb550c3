/**
  The lists of children (`process_api.c`): `start` appends to them, only `waitpid` takes an
  entry out, and the end of a process walks them, its own and those of its ended children.
  A process may be freed while it is still in a list.
  */
module ChildLists {
  import opened Common
  import opened KernelState
  import opened KernelInvariant

  predicate ChildOf(procs: map<Pid, Proc>, c: Pid, p: Pid) {
    c in procs && procs[c].parent == Some(p)
  }

  // ----- make_children_orphans_and_kill_zombies -----

  /** What the walk comes to: the table that is left, or an entry whose process is freed. */
  datatype Sweep = Swept(procs: map<Pid, Proc>) | MetFreed

  ghost predicate Ages(procs: map<Pid, Proc>, n: nat) {
    forall q :: q in procs ==> Aged(procs[q], n)
  }

  predicate Within(es: seq<Child>, lo: nat, n: nat) {
    lo <= n && forall i :: 0 <= i < |es| ==> lo < es[i].born < n
  }

  ghost predicate Part(procs': map<Pid, Proc>, procs: map<Pid, Proc>) {
    forall q :: q in procs' ==> q in procs && procs'[q] == procs[q]
  }

  /** The loop of `make_children_orphans_and_kill_zombies` over the entries es: of a child
      that has ended, the children are walked first, and then it is freed. It ends because
      children are created after their parents. */
  function SweepFrom(procs: map<Pid, Proc>, es: seq<Child>, lo: nat, n: nat): (r: Sweep)
    requires Ages(procs, n) && Within(es, lo, n)
    ensures r.Swept? ==> Part(r.procs, procs)
    decreases n - lo, |es|
  {
    if es == [] then Swept(procs)
    else if !Present(procs, es[0]) then MetFreed
    else
      var z := procs[es[0].pid];
      if !z.state.Zombie? then SweepFrom(procs, es[1..], lo, n)
      else
        assert Aged(z, n);
        match SweepFrom(procs, z.children, z.born, n)
        case MetFreed => MetFreed
        case Swept(procs1) => SweepFrom(procs1 - {es[0].pid}, es[1..], lo, n)
  }

  /** The walk over the children of p. */
  function SweepChildren(procs: map<Pid, Proc>, n: nat, p: Pid): (r: Sweep)
    requires Ages(procs, n) && p in procs
    ensures r.Swept? ==> Part(r.procs, procs)
  {
    assert Aged(procs[p], n);
    SweepFrom(procs, procs[p].children, procs[p].born, n)
  }

  // ----- what the walk does -----

  /** No process of the list has been freed. */
  ghost predicate Whole(procs: map<Pid, Proc>, es: seq<Child>) {
    forall i :: 0 <= i < |es| ==> Present(procs, es[i])
  }

  /** No ended child of p has a freed process in its list. */
  ghost predicate ListsWhole(procs: map<Pid, Proc>, p: Pid) {
    forall z :: ChildOf(procs, z, p) && procs[z].state.Zombie? ==> Whole(procs, procs[z].children)
  }

  /** The ended children of p are gone. */
  function FreeZombies(procs: map<Pid, Proc>, p: Pid): map<Pid, Proc> {
    map c | c in procs && !(procs[c].parent == Some(p) && procs[c].state.Zombie?) :: procs[c]
  }

  /** A list without ended children is walked without effect, up to a freed process. */
  lemma {:induction false} SweepQuiet(procs: map<Pid, Proc>, es: seq<Child>, lo: nat, n: nat)
    requires Ages(procs, n) && Within(es, lo, n)
    requires forall i :: 0 <= i < |es| && Present(procs, es[i]) ==> !procs[es[i].pid].state.Zombie?
    ensures SweepFrom(procs, es, lo, n) == if Whole(procs, es) then Swept(procs) else MetFreed
    decreases |es|
  {
    if es != [] && Present(procs, es[0]) {
      SweepQuiet(procs, es[1..], lo, n);
      if Whole(procs, es[1..]) {
        forall i | 0 <= i < |es| ensures Present(procs, es[i]) { assert i > 0 ==> es[i] == es[1..][i - 1]; }
      } else {
        var j :| 0 <= j < |es[1..]| && !Present(procs, es[1..][j]);
        assert !Present(procs, es[j + 1]);
      }
    }
  }

  /** The table after the first i children of p have been visited. */
  ghost function Visited(procs: map<Pid, Proc>, p: Pid, i: nat): map<Pid, Proc>
    requires p in procs && i <= |procs[p].children|
  {
    map c | c in procs && !(procs[c].state.Zombie? && exists j :: 0 <= j < i && procs[p].children[j].pid == c) :: procs[c]
  }

  /** Different entries of a living process are different children. */
  lemma EntriesApart(procs: map<Pid, Proc>, n: nat, p: Pid, i: nat, j: nat)
    requires TreeOk(procs, n) && p in procs && !Gone(procs[p]) && i < j < |procs[p].children|
    ensures procs[p].children[i].pid != procs[p].children[j].pid
  {
    assert Aged(procs[p], n) && Named(procs, p);
  }

  /** Nothing that an ended child of p names is freed before its own list is walked. */
  lemma StillThere(procs: map<Pid, Proc>, n: nat, p: Pid, i: nat, z: Pid, e: Child)
    requires TreeOk(procs, n) && p in procs && !Gone(procs[p]) && i <= |procs[p].children|
    requires ChildOf(procs, z, p) && z != p && procs[z].state.Zombie? && e in procs[z].children
    ensures Present(Visited(procs, p, i), e) <==> Present(procs, e)
    ensures Present(procs, e) ==> !procs[e.pid].state.Zombie?
  {
    assert Named(procs, z) && Named(procs, p);
  }

  lemma SweepOne(procs: map<Pid, Proc>, n: nat, p: Pid, i: nat)
    requires TreeOk(procs, n) && p in procs && !Gone(procs[p]) && i < |procs[p].children|
    requires procs[procs[p].children[i].pid].state.Zombie?
    ensures var e, now := procs[p].children[i], Visited(procs, p, i);
            && Present(procs, e) && Present(now, e) && now[e.pid] == procs[e.pid] && Ages(now, n)
            && Within(procs[e.pid].children, e.born, n)
            && SweepFrom(now, procs[e.pid].children, e.born, n) == (if Whole(procs, procs[e.pid].children) then Swept(now) else MetFreed)
            && now - {e.pid} == Visited(procs, p, i + 1)
  {
    hide TreeOk;
    var e, now := procs[p].children[i], Visited(procs, p, i);
    EntryKnown(procs, n, p, i);
    forall j | 0 <= j < i ensures procs[p].children[j].pid != e.pid { EntriesApart(procs, n, p, j, i); }
    var es := procs[e.pid].children;
    forall j | 0 <= j < |es|
      ensures (Present(now, es[j]) <==> Present(procs, es[j])) && (Present(procs, es[j]) ==> !procs[es[j].pid].state.Zombie?)
    {
      StillThere(procs, n, p, i, e.pid, es[j]);
    }
    TreeAges(procs, now, n);
    SweepQuiet(now, es, e.born, n);
    assert Whole(now, es) <==> Whole(procs, es);
  }

  lemma EntryKnown(procs: map<Pid, Proc>, n: nat, p: Pid, i: nat)
    requires TreeOk(procs, n) && p in procs && !Gone(procs[p]) && i < |procs[p].children|
    ensures var e := procs[p].children[i];
            && Present(procs, e) && ChildOf(procs, e.pid, p) && e.pid != p
            && Within(procs[e.pid].children, e.born, n) && procs[p].born < e.born < n
  {
    assert Aged(procs[p], n) && Named(procs, p);
    assert Aged(procs[procs[p].children[i].pid], n);
  }

  lemma TreeAges(procs: map<Pid, Proc>, procs': map<Pid, Proc>, n: nat)
    requires TreeOk(procs, n) && Part(procs', procs)
    ensures Ages(procs', n)
  {}

  lemma {:induction false} SweepRest(procs: map<Pid, Proc>, n: nat, p: Pid, i: nat)
    requires TreeOk(procs, n) && p in procs && !Gone(procs[p]) && i <= |procs[p].children|
    ensures var es, now := procs[p].children, Visited(procs, p, i);
            && Ages(now, n) && Within(es[i..], procs[p].born, n)
            && var r := SweepFrom(now, es[i..], procs[p].born, n);
            && (r.Swept? <==>
                  forall j :: i <= j < |es| && Present(procs, es[j]) && procs[es[j].pid].state.Zombie? ==>
                    Whole(procs, procs[es[j].pid].children))
            && (r.Swept? ==> r.procs == Visited(procs, p, |es|))
    decreases |procs[p].children| - i
  {
    hide TreeOk, Whole;
    var es, now := procs[p].children, Visited(procs, p, i);
    TreeAges(procs, now, n);
    forall j | i <= j < |es| ensures procs[p].born < es[j].born < n { EntryKnown(procs, n, p, j); }
    assert Within(es[i..], procs[p].born, n);
    if i < |es| {
      SweepRest(procs, n, p, i + 1);
      EntryKnown(procs, n, p, i);
      assert es[i..][0] == es[i] && es[i..][1..] == es[i + 1..];
      if procs[es[i].pid].state.Zombie? {
        SweepOne(procs, n, p, i);
      } else {
        assert now == Visited(procs, p, i + 1);
        assert es[i].pid in now;
      }
    }
  }

  /** The walk over the children of a living process frees exactly those that have ended;
      it comes to a freed process if and only if one of them has it in its list. */
  lemma SweepExact(procs: map<Pid, Proc>, n: nat, p: Pid)
    requires TreeOk(procs, n) && p in procs && !Gone(procs[p])
    ensures Ages(procs, n)
    ensures SweepChildren(procs, n, p) == if ListsWhole(procs, p) then Swept(FreeZombies(procs, p)) else MetFreed
  {
    hide TreeOk, Whole, SweepFrom;
    var es := procs[p].children;
    TreeAges(procs, procs, n);
    SweepRest(procs, n, p, 0);
    assert Visited(procs, p, 0) == procs && es[0..] == es;
    forall j | 0 <= j < |es| ensures Present(procs, es[j]) && ChildOf(procs, es[j].pid, p) { EntryKnown(procs, n, p, j); }
    forall z | ChildOf(procs, z, p) && procs[z].state.Zombie? ensures exists j :: 0 <= j < |es| && es[j].pid == z {
      ChildListed(procs, n, p, z);
    }
    forall c | c in procs ensures c in Visited(procs, p, |es|) <==> c in FreeZombies(procs, p) {
      if procs[c].state.Zombie? && !ChildOf(procs, c, p) { assert forall j :: 0 <= j < |es| ==> es[j].pid != c; }
    }
    assert Visited(procs, p, |es|) == FreeZombies(procs, p);
  }

  lemma ChildListed(procs: map<Pid, Proc>, n: nat, p: Pid, c: Pid)
    requires TreeOk(procs, n) && p in procs && ChildOf(procs, c, p) && !procs[c].state.Killed?
    ensures exists j :: 0 <= j < |procs[p].children| && procs[p].children[j].pid == c
  {
    assert ParentOk(procs, c);
    var j :| 0 <= j < |procs[p].children| && procs[p].children[j] == Child(c, procs[c].born);
    assert procs[p].children[j].pid == c;
  }
}
