/**
  The life of a process among others that share pages: it is built, may share pages, and
  ends (`start` and `free_process_memory`, the frame side). Every frame is free, or belongs
  to one process, or is one shared page, between calls. The list nodes of holes, which are
  memory of the heap, are not freed once each.
  */
module ProcessEnd {
  import opened Common
  import opened PageTables
  import opened FrameAllocator
  import opened AddressSpace
  import opened ProcessMemory
  import opened ProcessAllocator
  import opened ProcessTeardown
  import opened SharedState
  import opened SharedSteps
  import opened SharedPages

  // ----- the end -----

  /** Whatever it has shared, a process can be torn down as it was built. */
  lemma SharerComplete(frames: map<nat, Frame>, pages: map<Key, SharedPage>, s: Sharer)
    requires SharerOk(frames, pages, s)
    ensures Complete(frames, s.sp, CountsOf(s), s.data, s.heap, s.copies)
  {
    hide Region, Lvl1Entry, PageEntry, SlotsApart, EntryIs;
  }

  /** The frames of a process in the order of their release are all its frames. */
  lemma OrderIsAll(s: Sharer)
    ensures multiset(ReleaseOrder(s.sp, s.data, s.heap, s.scratch)) == multiset(All(s))
  {
    hide Tables;
    var t, l, r, x := Tables(s.sp.kids), s.sp.lvl1, s.sp.root, s.scratch;
    TablesSwapped(t, l, r, x);
    var d := s.data + s.heap;
    SameBehind(d, t + [l, r, x], [x] + ([r, l] + t));
    assert d + (t + [l, r, x]) == ReleaseOrder(s.sp, s.data, s.heap, x);
    assert d + ([x] + ([r, l] + t)) == All(s);
  }

  lemma TablesSwapped(t: seq<nat>, l: nat, r: nat, x: nat)
    ensures multiset(t + [l, r, x]) == multiset([x] + ([r, l] + t))
  {
    var m := multiset(t);
    assert multiset(t + [l, r, x]) == m + multiset([l, r, x]);
    assert multiset([l, r, x]) == multiset{l, r, x};
    assert multiset([x] + ([r, l] + t)) == multiset([x]) + multiset([r, l] + t) == multiset([x]) + (multiset([r, l]) + m);
    assert multiset([x]) == multiset{x} && multiset([r, l]) == multiset{r, l};
  }

  lemma SameBehind(d: seq<nat>, a: seq<nat>, b: seq<nat>)
    requires multiset(a) == multiset(b)
    ensures multiset(d + a) == multiset(d + b)
  {}

  lemma EndReady(m: SharedMemory, s: Sharer, o: seq<nat>, free: seq<nat>)
    requires multiset(o) == multiset(All(s)) && Distinct(All(s)) && Disjoint(All(s), free) && Distinct(free)
    requires AllIn(m.mem.low, m.mem.high, All(s))
    ensures Distinct(o + free) && AllReleasable(m.mem, o)
  {
    hide All, Releasable;
    DistinctSplit(All(s), free);
    SameWith(All(s), o, free);
    DistinctByCount(All(s) + free, o + free);
    SameElements(All(s), o, []);
    assert o + [] == o;
    forall i | 0 <= i < |o| ensures Releasable(m.mem.low, m.mem.high, o[i]) {
      assert o[i] in All(s);
    }
  }

  /** The others do not notice the end of a process that maps no shared page any more. */
  lemma EndKeeps(low: nat, high: nat, frames: map<nat, Frame>, frames': map<nat, Frame>, free: seq<nat>, free': seq<nat>,
                 procs: map<Pid, Sharer>, pages: map<Key, SharedPage>, p: Pid, o: seq<nat>)
    requires SharingOk(low, high, frames, free, procs, pages) && p in procs && procs[p].slots == map[]
    requires multiset(o) == multiset(All(procs[p])) && Others(frames, frames', o) && free' == Rev(o) + free
    ensures SharingOk(low, high, frames', free', procs - {p}, pages)
  {
    hide SharerOk, FramesApart, UsageOk, All, Own, Releasable;
    var procs' := procs - {p};
    SameMultiset(o, All(procs[p]));
    forall q | q in procs' ensures SharerOk(frames', pages, procs'[q]) {
      AgreeOn(frames, frames', procs, pages, free, p, q, o);
      KeysKnown(frames, pages, procs[q]);
      SharerFrame(frames, frames', pages, pages, procs[q]);
    }
    EndApart(procs, pages, free, free', p, o);
    EndUsage(procs, pages, p);
  }

  lemma SameMultiset(a: seq<nat>, b: seq<nat>)
    requires multiset(a) == multiset(b)
    ensures forall f :: f in a <==> f in b
  {
    forall f ensures f in a <==> f in b {
      assert f in a <==> f in multiset(a);
      assert f in b <==> f in multiset(b);
    }
  }

  lemma AgreeOn(frames: map<nat, Frame>, frames': map<nat, Frame>, procs: map<Pid, Sharer>, pages: map<Key, SharedPage>, free: seq<nat>,
                p: Pid, q: Pid, o: seq<nat>)
    requires FramesApart(procs, pages, free) && p in procs && q in procs && p != q && Others(frames, frames', o)
    requires forall f :: f in o <==> f in All(procs[p])
    ensures Agree(frames, frames', Own(procs[q].sp))
  {
    hide All, Own;
    forall f | f in Own(procs[q].sp) && f in frames ensures f in frames' && frames'[f] == frames[f] {
      OwnInAll(procs[q], f);
      NotIn(All(procs[q]), All(procs[p]), f);
    }
  }

  lemma EndApart(procs: map<Pid, Sharer>, pages: map<Key, SharedPage>, free: seq<nat>, free': seq<nat>, p: Pid, o: seq<nat>)
    requires FramesApart(procs, pages, free) && p in procs && free' == Rev(o) + free
    requires forall f :: f in o <==> f in All(procs[p])
    ensures FramesApart(procs - {p}, pages, free')
  {
    hide All, Distinct;
    RevHas(o);
    forall q | q in procs && q != p ensures Disjoint(All(procs[q]), free') {
      forall f | f in All(procs[q]) ensures f !in free' {
        NotIn(All(procs[q]), All(procs[p]), f);
        NotIn(All(procs[q]), free, f);
      }
      NoneIn(All(procs[q]), free');
    }
    forall k | k in pages ensures pages[k].frame !in free' {
      assert pages[k].frame !in All(procs[p]);
    }
  }

  lemma NoneIn(a: seq<nat>, b: seq<nat>)
    requires forall f :: f in a ==> f !in b
    ensures Disjoint(a, b)
  {
    forall i, j | 0 <= i < |a| && 0 <= j < |b| ensures a[i] != b[j] {
      assert a[i] in a;
    }
  }

  lemma RevHas(s: seq<nat>)
    ensures forall f :: f in Rev(s) <==> f in s
  {
    RevSame(s);
    SameMultiset(Rev(s), s);
  }

  lemma EndUsage(procs: map<Pid, Sharer>, pages: map<Key, SharedPage>, p: Pid)
    requires UsageOk(procs, pages) && p in procs && procs[p].slots == map[]
    ensures UsageOk(procs - {p}, pages)
  {
    forall k | k in pages ensures pages[k].usage == |Mappers(procs - {p}, k)| {
      assert Mappers(procs - {p}, k) == Mappers(procs, k);
    }
  }

  /** The loop of `free_process_memory` over the list of holes, and the nodes it hands to
      `free`: `released_iter_prev` stays at the first one. */
  method FreeHoleNodes(holes: seq<Slot>) returns (nodes: seq<Slot>)
    ensures |nodes| == |holes| && forall i :: 0 <= i < |nodes| ==> nodes[i] == holes[0]
  {
    nodes := [];
    var iter, prev := 0, 0;
    while iter < |holes|
      invariant 0 <= iter <= |holes| && prev == 0 && |nodes| == iter
      invariant forall i :: 0 <= i < iter ==> nodes[i] == holes[0]
    {
      iter := iter + 1;
      nodes := nodes + [holes[prev]];
    }
  }

  /** Each node is freed once if and only if there is at most one. */
  lemma HolesFreedOnce(holes: seq<Slot>, nodes: seq<Slot>)
    requires Distinct(holes) && |nodes| == |holes| && forall i :: 0 <= i < |nodes| ==> nodes[i] == holes[0]
    ensures Distinct(nodes) <==> |holes| <= 1
    ensures multiset(nodes) == multiset(holes) <==> |holes| <= 1
  {
    if |holes| > 1 {
      assert nodes[0] == nodes[1];
      assert holes[1] in multiset(holes) && holes[1] !in multiset(nodes);
    } else if |holes| == 1 {
      assert nodes == holes;
    }
  }

  lemma AllHoles(frames: map<nat, Frame>, pages: map<Key, SharedPage>, s: Sharer)
    requires SharerOk(frames, pages, s) && s.slots == map[]
    ensures Places(s) == |s.holes| && Distinct(s.holes)
  {}

  /** `free_process_memory`: its shared pages are released, then its own frames. Each of its
      frames, and each page it was the last to use, is in the free list exactly once; the
      other processes and their pages are as before. The hole nodes handed to `free` are as
      many as there are places, and all the same one. */
  method EndProcess(m: SharedMemory, p: Pid) returns (nodes: seq<Slot>)
    requires m.Valid() && p in m.procs
    modifies m, m.mem
    ensures m.Valid() && m.procs == old(m.procs) - {p}
    ensures var s := old(m.procs)[p];
            m.mem.free == Rev(ReleaseOrder(s.sp, s.data, s.heap, s.scratch)) + (FreedPages(old(m.pages), s.order, |s.order|) + old(m.mem.free))
    ensures forall k :: k in old(m.pages) && k !in old(m.procs)[p].slots ==> k in m.pages && m.pages[k] == old(m.pages)[k]
    ensures forall k :: k in old(m.procs)[p].slots && old(m.pages)[k].usage == 1 ==> k !in m.pages
    ensures |nodes| == Places(old(m.procs)[p]) && (Distinct(nodes) <==> |nodes| <= 1)
  {
    hide SharingOk, SharerOk, Chain, Distinct, Disjoint, ReleaseOrder, Rev, All, Complete, Others, FreedPages, Places, AllIn, AllReleasable;
    m.ReleaseAllPages(p);
    var s := m.procs[p];
    ghost var low, high, frames, free, procs := m.mem.low, m.mem.high, m.mem.frames, m.mem.free, m.procs;
    ghost var o := ReleaseOrder(s.sp, s.data, s.heap, s.scratch);
    EndKnown(low, high, frames, free, procs, m.pages, p);
    AllHoles(frames, m.pages, s);
    nodes := FreeHoleNodes(s.holes);
    HolesFreedOnce(s.holes, nodes);
    SharerComplete(frames, m.pages, s);
    OrderIsAll(s);
    EndReady(m, s, o, free);
    FreeProcessMemory(m.mem, s.sp, s.scratch, CountsOf(s), s.data, s.heap, s.copies);
    EndKeeps(low, high, frames, m.mem.frames, free, m.mem.free, procs, m.pages, p, o);
    m.procs := m.procs - {p};
  }

  lemma EndKnown(low: nat, high: nat, frames: map<nat, Frame>, free: seq<nat>, procs: map<Pid, Sharer>, pages: map<Key, SharedPage>, p: Pid)
    requires SharingOk(low, high, frames, free, procs, pages) && p in procs
    ensures SharerOk(frames, pages, procs[p]) && Distinct(All(procs[p])) && Disjoint(All(procs[p]), free) && AllIn(low, high, All(procs[p]))
  {
    hide SharerOk, All;
  }

  // ----- the start -----

  /** A process built from free frames joins the others. */
  lemma JoinKeeps(low: nat, high: nat, frames: map<nat, Frame>, frames': map<nat, Frame>, free: seq<nat>, free': seq<nat>,
                  procs: map<Pid, Sharer>, pages: map<Key, SharedPage>, p: Pid, s: Sharer, taken: seq<nat>)
    requires SharingOk(low, high, frames, free, procs, pages) && p !in procs && s.slots == map[] && SharerOk(frames', pages, s)
    requires free == taken + free' && Distinct(free) && multiset(taken) == multiset(All(s)) && Others(frames, frames', taken)
    requires forall f :: f in free ==> Releasable(low, high, f)
    ensures SharingOk(low, high, frames', free', procs[p := s], pages)
  {
    hide SharerOk, FramesApart, UsageOk, All, Own, Releasable, Distinct;
    SameMultiset(taken, All(s));
    forall q | q in procs ensures SharerOk(frames', pages, procs[q]) {
      JoinAgree(frames, frames', procs, pages, free, free', q, taken);
      KeysKnown(frames, pages, procs[q]);
      SharerFrame(frames, frames', pages, pages, procs[q]);
    }
    JoinApart(procs, pages, free, free', p, s, taken);
    JoinUsage(procs, pages, p, s);
    forall i | 0 <= i < |All(s)| ensures Releasable(low, high, All(s)[i]) {
      assert All(s)[i] in taken;
    }
  }

  lemma JoinAgree(frames: map<nat, Frame>, frames': map<nat, Frame>, procs: map<Pid, Sharer>, pages: map<Key, SharedPage>,
                  free: seq<nat>, free': seq<nat>, q: Pid, taken: seq<nat>)
    requires FramesApart(procs, pages, free) && q in procs && free == taken + free' && Others(frames, frames', taken)
    ensures Agree(frames, frames', Own(procs[q].sp))
  {
    hide All, Own;
    forall f | f in Own(procs[q].sp) && f in frames ensures f in frames' && frames'[f] == frames[f] {
      OwnInAll(procs[q], f);
      NotIn(All(procs[q]), free, f);
    }
  }

  lemma JoinApart(procs: map<Pid, Sharer>, pages: map<Key, SharedPage>, free: seq<nat>, free': seq<nat>, p: Pid, s: Sharer, taken: seq<nat>)
    requires FramesApart(procs, pages, free) && p !in procs && free == taken + free' && Distinct(free) && multiset(taken) == multiset(All(s))
    ensures FramesApart(procs[p := s], pages, free')
  {
    hide All, Distinct;
    SameMultiset(taken, All(s));
    DistinctSplit(taken, free');
    DistinctByCount(taken, All(s));
    var procs' := procs[p := s];
    forall f | f in All(s) ensures f !in free' { NotIn(taken, free', f); }
    NoneIn(All(s), free');
    forall q | q in procs ensures Disjoint(All(procs[q]), free') && Disjoint(All(procs[q]), All(s)) && Disjoint(All(s), All(procs[q])) {
      forall f | f in All(procs[q]) ensures f !in free' && f !in All(s) { NotIn(All(procs[q]), free, f); }
      NoneIn(All(procs[q]), free');
      NoneIn(All(procs[q]), All(s));
      NoneIn(All(s), All(procs[q]));
    }
  }

  lemma JoinUsage(procs: map<Pid, Sharer>, pages: map<Key, SharedPage>, p: Pid, s: Sharer)
    requires UsageOk(procs, pages) && p !in procs && s.slots == map[]
    ensures UsageOk(procs[p := s], pages)
  {
    forall k | k in pages ensures pages[k].usage == |Mappers(procs[p := s], k)| {
      assert Mappers(procs[p := s], k) == Mappers(procs, k);
    }
  }

  /** The memory side of `start`: the allocator, then the scratch frame. */
  method StartProcess(m: SharedMemory, p: Pid, size: nat, app: Option<int>, base: seq<Pte>) returns (ok: bool)
    requires m.Valid() && p !in m.procs && |base| == PT_SIZE && Allocates(size, app, |m.mem.free| - 1)
    modifies m, m.mem
    ensures ok && m.Valid() && m.pages == old(m.pages) && p in m.procs && m.procs == old(m.procs)[p := m.procs[p]]
    ensures multiset(old(m.mem.free)) == multiset(All(m.procs[p])) + multiset(m.mem.free)
    ensures |m.procs[p].data| == PagesFor(app.value) + PagesFor(size) && m.procs[p].copies == Copies(app.value)
  {
    hide SharingOk, SharerOk, Chain, Distinct, Disjoint, Built, SpaceFrames, Others, Down, PagesFor, TablesFor, All, Own, Tables;
    ghost var f0, free0 := m.mem.frames, m.mem.free;
    var sp, data, heap;
    PagesLeft(size, 0);
    ok, sp, data, heap := ProcessMemoryAllocator(m.mem, size, app, base);
    ghost var f1, free1 := m.mem.frames, m.mem.free;
    TakenCount(sp, data, heap);
    ghost var taken := [sp.root, sp.lvl1] + Tables(sp.kids) + data + heap;
    assert |free1| == |free0| - FramesFor(|data|);
    var scratch := m.mem.GetFrame();
    assert free0 == taken + [scratch] + m.mem.free;
    ghost var s := Sharer(sp, map[], [], [], data, heap, Copies(app.value), scratch);
    BuiltSharer(f1, m.pages, sp, data, heap, app.value, scratch);
    TakenIsAll(s);
    OthersMore(f0, f1, taken, scratch);
    JoinKeeps(m.mem.low, m.mem.high, f0, f1, free0, m.mem.free, m.procs, m.pages, p, s, taken + [scratch]);
    m.procs := m.procs[p := Sharer(sp, map[], [], [], data, heap, Copies(app.value), scratch)];
  }

  lemma OthersMore(f0: map<nat, Frame>, f1: map<nat, Frame>, taken: seq<nat>, x: nat)
    requires Others(f0, f1, taken)
    ensures Others(f0, f1, taken + [x])
  {}

  lemma TakenIsAll(s: Sharer)
    ensures multiset([s.sp.root, s.sp.lvl1] + Tables(s.sp.kids) + s.data + s.heap + [s.scratch]) == multiset(All(s))
  {
    hide Tables;
    var a, b := s.data + s.heap + [s.scratch], [s.sp.root, s.sp.lvl1] + Tables(s.sp.kids);
    Swapped(b, [], a, a);
    assert b + [] + a == [s.sp.root, s.sp.lvl1] + Tables(s.sp.kids) + s.data + s.heap + [s.scratch];
    assert a + [] + b == All(s);
  }

  // ----- private pages while pages are shared -----

  /** Whatever is shared meanwhile, every address below the shared part translates as
      built: to the page of the image, stack or heap meant for it, and no other does. */
  lemma PrivateTranslates(frames: map<nat, Frame>, pages: map<Key, SharedPage>, s: Sharer, va: nat)
    requires SharerOk(frames, pages, s) && USERSPACE_ADDRESS <= va < USERSPACE_ADDRESS + 256 * MEGA_SIZE
    ensures Walk(frames, s.sp.root, va) == Intended(s.data, s.heap, s.copies, va)
  {
    hide Walk, WalkFrom, Down, Frameable, SlotsApart, EntriesOk, Region, Reserved, AllFrameable, Filled;
    var x, e, off := SplitAddress(va);
    Regions(s.sp, CountsOf(s));
    WalkLvl1(frames, s.sp, x, e, off);
    assert frames[s.sp.lvl1].ptes[x] == Lvl1Entry(s.sp, s.sp.stack, s.sp.heap, s.sp.shared, x);
    if x < s.sp.stack {
      PrivateTable(frames, s, x, e, off, StackCode, x, s.data, s.copies);
    } else if 128 <= x < 128 + s.sp.heap {
      PrivateTable(frames, s, x, e, off, Heap, x - 128, s.heap, 0);
    }
  }

  /** The walk through table y of the given kind, linked at x. */
  lemma PrivateTable(frames: map<nat, Frame>, s: Sharer, x: nat, e: nat, off: nat, k: Kind, y: nat, data: seq<nat>, copies: nat)
    requires TablesOk(frames, s.sp, CountsOf(s)) && x < 256 && e < 512 && off < FRAME_SIZE
    requires Filled(frames, Part(s.sp, k), data, copies) && AllFrameable(data) && From(s.sp, k) + y < To(s.sp, k)
    requires frames[s.sp.lvl1].ptes[x] == Down(s.sp.kids[From(s.sp, k) + y].table)
    ensures var va := USERSPACE_ADDRESS + MEGA_SIZE * x + KILO_SIZE * e + off;
            Walk(frames, s.sp.root, va) ==
            if 512 * y + e < |data| then Page(data[512 * y + e] + off, true, true, 512 * y + e < copies) else Fault
  {
    hide Walk, WalkFrom, Down, Frameable, Region, Reserved;
    Regions(s.sp, CountsOf(s));
    var ks := Part(s.sp, k);
    assert ks[y] == s.sp.kids[From(s.sp, k) + y] && Tables(s.sp.kids)[From(s.sp, k) + y] == ks[y].table;
    assert TableIs(frames, ks[y].table, 512 * y, data, copies);
    WalkLvl1(frames, s.sp, x, e, off);
    WalkPage(frames, ks[y].table, x, e, off, 512 * y, data, copies);
  }

  /** The tables of each private kind are just enough for its pages. */
  lemma Regions(sp: Space, c: Counts)
    requires Reserved(sp, c)
    ensures |sp.kids| == sp.stack + sp.heap + sp.shared && sp.stack <= 128 && sp.heap <= 128
    ensures c.stack <= 512 * sp.stack && c.heap <= 512 * sp.heap
  {
    assert Region(Part(sp, StackCode), Start(StackCode), Of(c, StackCode));
    assert Region(Part(sp, Heap), Start(Heap), Of(c, Heap));
    var q, r := TablesKnown(c.stack);
    var q', r' := TablesKnown(c.heap);
  }
}
