/**
  `shm_create`, `shm_acquire` and `shm_release` (`src/kernel/process/memory_api.c`) on the
  tables of processes and shared pages, updated in place.
  */
module SharedPages {
  import opened Common
  import opened PageTables
  import opened FrameAllocator
  import opened AddressSpace
  import opened ProcessMemory
  import opened SharedState
  import opened SharedSteps

  // ----- the invariant after a step of one process -----

  /** p's tables may have grown by the head of the free list; nobody else's have changed. */
  lemma ApartStep(procs: map<Pid, Sharer>, pages: map<Key, SharedPage>, pages': map<Key, SharedPage>, free: seq<nat>, free': seq<nat>,
                  p: Pid, s: Sharer, more: seq<nat>)
    requires FramesApart(procs, pages, free) && p in procs && Distinct(All(s)) && Distinct(free)
    requires free == more + free' && All(s) == All(procs[p]) + more
    requires forall k :: k in pages' ==> k in pages && pages'[k].frame == pages[k].frame
    ensures FramesApart(procs[p := s], pages', free')
  {
    hide All;
    var procs' := procs[p := s];
    DistinctSplit(more, free');
    forall q | q in procs' ensures Distinct(All(procs'[q])) && Disjoint(All(procs'[q]), free') {
      DisjointSum(All(procs[q]), more, free');
      SumDisjoint(All(procs[p]), more, free');
    }
    forall q, r | q in procs' && r in procs' && q != r ensures Disjoint(All(procs'[q]), All(procs'[r])) {
      DisjointSum(All(procs[q]), more, free');
      DisjointSum(All(procs[r]), more, free');
      SumDisjoint(All(procs[p]), more, All(procs[r]));
      SumDisjoint(All(procs[p]), more, All(procs[q]));
    }
  }

  lemma SumDisjoint(a: seq<nat>, b: seq<nat>, c: seq<nat>)
    ensures Disjoint(a, c) && (Disjoint(b, c) || Disjoint(c, b)) ==> Disjoint(a + b, c) && Disjoint(c, a + b)
  {}

  lemma UsageStep(procs: map<Pid, Sharer>, pages: map<Key, SharedPage>, p: Pid, s: Sharer, k: Key, d: int)
    requires UsageOk(procs, pages) && p in procs && k in pages
    requires if d == 1 then k !in procs[p].slots && s.slots.Keys == procs[p].slots.Keys + {k}
             else d == -1 && k in procs[p].slots && s.slots.Keys == procs[p].slots.Keys - {k}
    ensures UsageOk(procs[p := s], pages[k := pages[k].(usage := pages[k].usage + d)])
  {
    var procs', pages' := procs[p := s], pages[k := pages[k].(usage := pages[k].usage + d)];
    forall l | l in pages' ensures pages'[l].usage == |Mappers(procs', l)| {
      if l != k {
        assert l in s.slots.Keys <==> l in procs[p].slots.Keys;
        assert Mappers(procs', l) == Mappers(procs, l);
      } else if d == 1 {
        assert k in s.slots.Keys;
        assert Mappers(procs', k) == Mappers(procs, k) + {p};
      } else {
        assert k !in s.slots.Keys;
        assert Mappers(procs', k) == Mappers(procs, k) - {p};
      }
    }
  }

  lemma SharersStep(frames: map<nat, Frame>, frames': map<nat, Frame>, procs: map<Pid, Sharer>, pages: map<Key, SharedPage>, pages': map<Key, SharedPage>, p: Pid, s: Sharer)
    requires (forall q :: q in procs ==> SharerOk(frames, pages, procs[q])) && SharerOk(frames', pages', s)
    requires forall q :: q in procs && q != p ==> Agree(frames, frames', Own(procs[q].sp))
    requires forall k :: k in pages ==> k in pages' && pages'[k].frame == pages[k].frame
    ensures var now := procs[p := s]; forall q :: q in now ==> SharerOk(frames', pages', now[q])
  {
    hide TablesOk, SlotsApart, Own, Agree, EntryIs;
    forall q | q in procs && q != p ensures SharerOk(frames', pages', procs[q]) {
      SharerFrame(frames, frames', pages, pages', procs[q]);
    }
  }

  /** A page descriptor whose usage changes looks the same to the entries. */
  lemma UsageAside(frames: map<nat, Frame>, pages: map<Key, SharedPage>, s: Sharer, k: Key, u: int)
    requires SharerOk(frames, pages, s) && k in pages
    ensures SharerOk(frames, pages[k := pages[k].(usage := u)], s)
  {
    hide TablesOk, SlotsApart, Own, EntryIs;
  }

  lemma OwnInAll(s: Sharer, f: nat)
    requires f in Own(s.sp)
    ensures f in All(s)
  {
    hide Own;
    assert All(s) == s.data + s.heap + [s.scratch] + Own(s.sp);
  }

  /** Writes to p's own tables and to a free frame do not show elsewhere. */
  lemma Elsewhere(frames: map<nat, Frame>, frames': map<nat, Frame>, procs: map<Pid, Sharer>, pages: map<Key, SharedPage>, free: seq<nat>, p: Pid, q: Pid)
    requires FramesApart(procs, pages, free) && p in procs && q in procs && p != q
    requires forall f :: f in frames && f !in Own(procs[p].sp) && f !in free ==> f in frames' && frames'[f] == frames[f]
    ensures Agree(frames, frames', Own(procs[q].sp))
  {
    hide Own, All;
    forall f | f in Own(procs[q].sp) && f in frames ensures f in frames' && frames'[f] == frames[f] {
      OwnInAll(procs[q], f);
      NotIn(All(procs[q]), All(procs[p]), f);
      NotIn(All(procs[q]), free, f);
      if f in Own(procs[p].sp) { OwnInAll(procs[p], f); }
    }
  }

  // ----- the invariant after each operation -----

  lemma HoleLinked(low: nat, high: nat, frames: map<nat, Frame>, free: seq<nat>, procs: map<Pid, Sharer>, pages: map<Key, SharedPage>, p: Pid, k: Key)
    requires SharingOk(low, high, frames, free, procs, pages) && p in procs && k in pages && Distinct(free)
    requires k !in procs[p].slots && procs[p].holes != []
    ensures var h := procs[p].holes[0];
            && IsTable(frames, h.table) && h.lvl0 < 512 && h.table !in free
            && SharingOk(low, high, SetEntry(frames, h, SharedLeaf(pages[k].frame)), free, procs[p := FillHole(procs[p], k)],
                         pages[k := pages[k].(usage := pages[k].usage + 1)])
  {
    hide SharerOk, FramesApart, UsageOk, Distinct, Disjoint, SharedLeaf, TablesOk, SlotsApart, EntryIs, Own, PrivateOk, InRange;
    var s, h := procs[p], procs[p].holes[0];
    var pages' := pages[k := pages[k].(usage := pages[k].usage + 1)];
    ApartKnown(procs, pages, free, p);
    HoleTable(frames, pages, s);
    FillHoleOk(frames, pages, s, k);
    var frames', s' := SetEntry(frames, h, SharedLeaf(pages[k].frame)), FillHole(s, k);
    NotIn(Own(s.sp), free, h.table);
    UsageAside(frames', pages, s', k, pages[k].usage + 1);
    forall q | q in procs && q != p ensures Agree(frames, frames', Own(procs[q].sp)) {
      Elsewhere(frames, frames', procs, pages, free, p, q);
    }
    SharersStep(frames, frames', procs, pages, pages', p, s');
    assert All(s') == All(s) + [] && [] + free == free;
    ApartStep(procs, pages, pages', free, free, p, s', []);
    RangeStep(low, high, procs, p, s', []);
    assert s'.slots.Keys == s.slots.Keys + {k};
    UsageStep(procs, pages, p, s', k, 1);
  }

  lemma HoleTable(frames: map<nat, Frame>, pages: map<Key, SharedPage>, s: Sharer)
    requires SharerOk(frames, pages, s) && s.holes != [] && Distinct(Own(s.sp))
    ensures s.holes[0].table in Own(s.sp)
  {
    hide TablesOk, Own, Distinct;
    SlotTable(frames, s.sp, CountsOf(s), s.holes[0], Places(s));
  }

  lemma KeyTable(frames: map<nat, Frame>, pages: map<Key, SharedPage>, s: Sharer, k: Key)
    requires SharerOk(frames, pages, s) && k in s.slots && Distinct(Own(s.sp))
    ensures s.slots[k].table in Own(s.sp)
  {
    hide TablesOk, Own, Distinct;
    SlotTable(frames, s.sp, CountsOf(s), s.slots[k], Places(s));
  }

  /** What `add_frame_to_process` finds for a process without holes. */
  lemma SharerKnown(frames: map<nat, Frame>, pages: map<Key, SharedPage>, s: Sharer)
    requires SharerOk(frames, pages, s)
    ensures Reserved(s.sp, CountsOf(s)) && IsTable(frames, s.sp.lvl1) && 256 + s.sp.shared <= 512
    ensures s.sp.stack + s.sp.heap + s.sp.shared == |s.sp.kids|
    ensures Places(s) % 512 != 0 ==> 0 < s.sp.shared
    ensures Room(s.sp) ==> 256 + s.sp.shared < 512
  {
    SharedCount(s.sp, CountsOf(s));
  }

  lemma PlaceLinked(low: nat, high: nat, frames: map<nat, Frame>, free: seq<nat>, free': seq<nat>, procs: map<Pid, Sharer>, pages: map<Key, SharedPage>,
                    p: Pid, k: Key, full: bool, t: nat)
    requires SharingOk(low, high, frames, free, procs, pages) && p in procs && k in pages && Distinct(free)
    requires k !in procs[p].slots && procs[p].holes == [] && full == (Places(procs[p]) % 512 == 0)
    requires if full then Room(procs[p].sp) && Frameable(t) && Releasable(low, high, t) && free == [t] + free' else free' == free
    ensures var s := procs[p];
            && s.sp.stack + s.sp.heap + s.sp.shared == |s.sp.kids| && (!full ==> 0 < s.sp.shared)
            && IsTable(frames, s.sp.lvl1) && 256 + s.sp.shared <= 512 && (full ==> 256 + s.sp.shared < 512)
            && var s', g := NewPlace(s, k, full, t), Grown(frames, s.sp, full, t);
            && IsTable(g, s'.slots[k].table) && s'.slots[k].lvl0 < 512 && s'.slots[k].table !in free' && s.sp.lvl1 !in free
            && SharingOk(low, high, SetEntry(g, s'.slots[k], SharedLeaf(pages[k].frame)), free', procs[p := s'],
                         pages[k := pages[k].(usage := pages[k].usage + 1)])
  {
    hide SharerOk, FramesApart, UsageOk, Distinct, Disjoint, SharedLeaf, TablesOk, SlotsApart, EntryIs, Own, NewPlace, Frameable, All, InRange, Releasable;
    var s, more := procs[p], if full then [t] else [];
    var pages' := pages[k := pages[k].(usage := pages[k].usage + 1)];
    SharerKnown(frames, pages, s);
    ApartKnown(procs, pages, free, p);
    assert free == more + free';
    DisjointSum(All(s), more, free');
    if full { FreshTable(All(s), t); if t in Own(s.sp) { OwnInAll(s, t); } }
    NewPlaceOk(frames, pages, s, k, full, t);
    var s', g := NewPlace(s, k, full, t), Grown(frames, s.sp, full, t);
    PlaceOwn(s, k, full, t);
    var frames' := SetEntry(g, s'.slots[k], SharedLeaf(pages[k].frame));
    KeyTable(frames', pages, s', k);
    OwnUpper(s.sp);
    NotIn(Own(s.sp), free, s.sp.lvl1);
    UsageAside(frames', pages, s', k, pages[k].usage + 1);
    OnlyMine(frames, frames', s, full, t, s'.slots[k], SharedLeaf(pages[k].frame), free);
    forall q | q in procs && q != p ensures Agree(frames, frames', Own(procs[q].sp)) {
      Elsewhere(frames, frames', procs, pages, free, p, q);
    }
    SharersStep(frames, frames', procs, pages, pages', p, s');
    AllGrows(s, k, full, t);
    ApartStep(procs, pages, pages', free, free', p, s', more);
    RangeStep(low, high, procs, p, s', more);
    ApartKnown(procs[p := s'], pages', free', p);
    NotIn(Own(s'.sp), free', s'.slots[k].table);
    PlaceKeys(s, k, full, t);
    UsageStep(procs, pages, p, s', k, 1);
  }

  lemma FreshTable(own: seq<nat>, t: nat)
    requires Disjoint(own, [t])
    ensures t !in own
  {
    if t in own { NotIn(own, [t], t); }
  }

  lemma PlaceKeys(s: Sharer, k: Key, full: bool, t: nat)
    requires s.sp.stack + s.sp.heap + s.sp.shared == |s.sp.kids| && (!full ==> 0 < s.sp.shared)
    ensures NewPlace(s, k, full, t).slots.Keys == s.slots.Keys + {k}
  {}

  lemma PlaceOwn(s: Sharer, k: Key, full: bool, t: nat)
    requires s.sp.stack + s.sp.heap + s.sp.shared == |s.sp.kids| && (!full ==> 0 < s.sp.shared)
    requires Distinct(Own(s.sp)) && (full ==> t !in Own(s.sp))
    ensures var s' := NewPlace(s, k, full, t);
            && k in s'.slots && s'.slots[k] == NextSlot(s.sp, Places(s), full, t)
            && Own(s'.sp) == Own(s.sp) + (if full then [t] else []) && Distinct(Own(s'.sp))
  {
    NextOwn(s.sp, full, t);
  }

  lemma AllGrows(s: Sharer, k: Key, full: bool, t: nat)
    requires s.sp.stack + s.sp.heap + s.sp.shared == |s.sp.kids| && (!full ==> 0 < s.sp.shared)
    requires Distinct(All(s)) && (full ==> t !in All(s)) && Distinct(Own(s.sp)) && (full ==> t !in Own(s.sp))
    ensures All(NewPlace(s, k, full, t)) == All(s) + (if full then [t] else []) && Distinct(All(NewPlace(s, k, full, t)))
  {
    hide Own, Extended;
    NextOwn(s.sp, full, t);
    var a, o, more := s.data + s.heap + [s.scratch], Own(s.sp), if full then [t] else [];
    assert a + (o + more) == a + o + more;
  }

  lemma OnlyMine(frames: map<nat, Frame>, frames': map<nat, Frame>, s: Sharer, full: bool, t: nat, slot: Slot, pte: Pte, free: seq<nat>)
    requires s.sp.stack + s.sp.heap + s.sp.shared == |s.sp.kids| && (!full ==> 0 < s.sp.shared)
    requires IsTable(frames, s.sp.lvl1) && 256 + s.sp.shared <= 512 && (full ==> 256 + s.sp.shared < 512) && (full ==> t in free)
    requires slot == NextSlot(s.sp, Places(s), full, t)
    requires IsTable(Grown(frames, s.sp, full, t), slot.table) && slot.lvl0 < 512
    requires frames' == SetEntry(Grown(frames, s.sp, full, t), slot, pte)
    ensures forall f :: f in frames && f !in Own(s.sp) && f !in free ==> f in frames' && frames'[f] == frames[f]
  {
    OwnUpper(s.sp);
    if !full { OwnTables(s.sp, |s.sp.kids| - 1); }
  }

  lemma HoleLeft(low: nat, high: nat, frames: map<nat, Frame>, free: seq<nat>, procs: map<Pid, Sharer>, pages: map<Key, SharedPage>, p: Pid, k: Key)
    requires SharingOk(low, high, frames, free, procs, pages) && p in procs && k in procs[p].slots && Distinct(free)
    ensures var h := procs[p].slots[k];
            && k in pages && IsTable(frames, h.table) && h.lvl0 < 512 && h.table !in free
            && SharingOk(low, high, SetEntry(frames, h, ReleasedEntry()), free, procs[p := LeaveHole(procs[p], k)],
                         pages[k := pages[k].(usage := pages[k].usage - 1)])
  {
    hide SharerOk, FramesApart, UsageOk, Distinct, Disjoint, ReleasedEntry, TablesOk, SlotsApart, EntryIs, Own, Without, InRange;
    var s, h := procs[p], procs[p].slots[k];
    ApartKnown(procs, pages, free, p);
    KeyTable(frames, pages, s, k);
    KeyPage(frames, pages, s, k);
    var pages' := pages[k := pages[k].(usage := pages[k].usage - 1)];
    LeaveHoleOk(frames, pages, s, k);
    var frames', s' := SetEntry(frames, h, ReleasedEntry()), LeaveHole(s, k);
    NotIn(Own(s.sp), free, h.table);
    UsageAside(frames', pages, s', k, pages[k].usage - 1);
    forall q | q in procs && q != p ensures Agree(frames, frames', Own(procs[q].sp)) {
      Elsewhere(frames, frames', procs, pages, free, p, q);
    }
    SharersStep(frames, frames', procs, pages, pages', p, s');
    assert All(s') == All(s) + [] && [] + free == free;
    ApartStep(procs, pages, pages', free, free, p, s', []);
    RangeStep(low, high, procs, p, s', []);
    assert s'.slots.Keys == s.slots.Keys - {k};
    UsageStep(procs, pages, p, s', k, -1);
  }

  lemma KeyPage(frames: map<nat, Frame>, pages: map<Key, SharedPage>, s: Sharer, k: Key)
    requires SharerOk(frames, pages, s) && k in s.slots
    ensures k in pages
  {}

  /** A page that nobody maps can go. */
  lemma PageDropped(low: nat, high: nat, frames: map<nat, Frame>, free: seq<nat>, procs: map<Pid, Sharer>, pages: map<Key, SharedPage>, k: Key, link: Frame)
    requires SharingOk(low, high, frames, free, procs, pages) && k in pages && pages[k].usage == 0
    ensures pages[k].frame !in free
    ensures SharingOk(low, high, frames[pages[k].frame := link], [pages[k].frame] + free, procs, pages - {k})
  {
    hide SharerOk, Distinct, Own, TablesOk, All;
    var frames', pages' := frames[pages[k].frame := link], pages - {k};
    assert Mappers(procs, k) == {};
    forall q | q in procs ensures SharerOk(frames', pages', procs[q]) {
      assert q !in Mappers(procs, k);
      if pages[k].frame in Own(procs[q].sp) { OwnInAll(procs[q], pages[k].frame); }
      SharerFrame(frames, frames', pages, pages', procs[q]) by { KeysKnown(frames, pages, procs[q]); }
    }
    DropApart(procs, pages, free, k);
  }

  lemma KeysKnown(frames: map<nat, Frame>, pages: map<Key, SharedPage>, s: Sharer)
    requires SharerOk(frames, pages, s)
    ensures forall k :: k in s.slots ==> k in pages
  {}

  lemma DropApart(procs: map<Pid, Sharer>, pages: map<Key, SharedPage>, free: seq<nat>, k: Key)
    requires FramesApart(procs, pages, free) && k in pages
    ensures FramesApart(procs, pages - {k}, [pages[k].frame] + free)
  {
    hide All, Distinct;
    forall p | p in procs ensures Disjoint(All(procs[p]), [pages[k].frame] + free) {
      DisjointSum(All(procs[p]), [pages[k].frame], free);
    }
  }

  /** A new page takes the head of the free list. */
  lemma PageCreated(low: nat, high: nat, frames: map<nat, Frame>, free: seq<nat>, free': seq<nat>, procs: map<Pid, Sharer>, pages: map<Key, SharedPage>, k: Key)
    requires SharingOk(low, high, frames, free, procs, pages) && k !in pages && free != [] && free == [free[0]] + free' && Distinct(free)
    requires Releasable(low, high, free[0])
    ensures SharingOk(low, high, frames, free', procs, pages[k := SharedPage(free[0], 0)])
  {
    hide SharerOk, Own, TablesOk, All;
    var pages' := pages[k := SharedPage(free[0], 0)];
    forall q | q in procs ensures SharerOk(frames, pages', procs[q]) && k !in procs[q].slots {
      KeysKnown(frames, pages, procs[q]);
      SharerFrame(frames, frames, pages, pages', procs[q]);
    }
    assert Mappers(procs, k) == {};
    CreateApart(procs, pages, free, free', k);
  }

  lemma CreateApart(procs: map<Pid, Sharer>, pages: map<Key, SharedPage>, free: seq<nat>, free': seq<nat>, k: Key)
    requires FramesApart(procs, pages, free) && k !in pages && free != [] && free == [free[0]] + free' && Distinct(free)
    ensures FramesApart(procs, pages[k := SharedPage(free[0], 0)], free')
  {
    hide All;
    DistinctSplit([free[0]], free');
    forall p | p in procs ensures Disjoint(All(procs[p]), free') && free[0] !in All(procs[p]) {
      DisjointSum(All(procs[p]), [free[0]], free');
      FreshTable(All(procs[p]), free[0]);
    }
  }

  lemma ApartKnown(procs: map<Pid, Sharer>, pages: map<Key, SharedPage>, free: seq<nat>, p: Pid)
    requires FramesApart(procs, pages, free) && p in procs
    ensures Distinct(All(procs[p])) && Disjoint(All(procs[p]), free)
    ensures Distinct(Own(procs[p].sp)) && Disjoint(Own(procs[p].sp), free)
  {
    hide Own, Distinct, Disjoint;
    AllApartKnown(procs, pages, free, p);
    var s := procs[p];
    var a := s.data + s.heap + [s.scratch];
    assert All(s) == a + Own(s.sp);
    DistinctSplit(a, Own(s.sp));
    PartDisjoint(a, Own(s.sp), free);
  }

  lemma AllApartKnown(procs: map<Pid, Sharer>, pages: map<Key, SharedPage>, free: seq<nat>, p: Pid)
    requires FramesApart(procs, pages, free) && p in procs
    ensures Distinct(All(procs[p])) && Disjoint(All(procs[p]), free)
  {}

  lemma PartDisjoint(a: seq<nat>, b: seq<nat>, c: seq<nat>)
    requires Disjoint(a + b, c)
    ensures Disjoint(b, c)
  {
    assert forall i :: 0 <= i < |b| ==> (a + b)[|a| + i] == b[i];
  }

  /** The ranges after a step of p. */
  lemma RangeStep(low: nat, high: nat, procs: map<Pid, Sharer>, p: Pid, s: Sharer, more: seq<nat>)
    requires InRange(low, high, procs) && p in procs && All(s) == All(procs[p]) + more && AllIn(low, high, more)
    ensures InRange(low, high, procs[p := s])
  {
    hide All, Releasable;
    assert AllIn(low, high, All(procs[p]));
  }

  /** There is a place for one more shared page. */
  predicate CanLink(s: Sharer, free: nat) {
    s.holes != [] || Places(s) % 512 != 0 || (Room(s.sp) && free > 1)
  }

  lemma FrameableKnown(low: nat, high: nat, f: nat)
    requires Releasable(low, high, f) && high < PHYSICAL_LIMIT
    ensures Frameable(f)
  {}

  lemma SharingKnown(low: nat, high: nat, frames: map<nat, Frame>, free: seq<nat>, procs: map<Pid, Sharer>, pages: map<Key, SharedPage>, p: Pid)
    requires SharingOk(low, high, frames, free, procs, pages) && p in procs
    ensures SharerOk(frames, pages, procs[p]) && high < PHYSICAL_LIMIT
  {}

  /** The last table of the list and its use. */
  lemma LastTable(sp: Space, c: Counts)
    requires Reserved(sp, c) && c.shared % 512 != 0
    ensures |sp.kids| > 0 && sp.kids[|sp.kids| - 1].usage == c.shared % 512 && sp.kids[|sp.kids| - 1].index == 256 + sp.shared - 1
  {
    SharedCount(sp, c);
    assert Region(Part(sp, Shared), Start(Shared), Of(c, Shared));
    PartSize(sp, Shared);
    assert Part(sp, Shared)[sp.shared - 1] == sp.kids[|sp.kids| - 1];
  }

  lemma NewLast(sp: Space, t: nat)
    requires sp.stack + sp.heap + sp.shared == |sp.kids|
    ensures var sp' := Extended(sp, Shared, true, t); sp'.kids[|sp.kids|].index == 256 + sp.shared
  {}

  lemma SameLast(sp: Space, t: nat)
    requires sp.stack + sp.heap + sp.shared == |sp.kids| && 0 < sp.shared
    ensures var sp' := Extended(sp, Shared, false, t); sp'.kids[|sp.kids| - 1].index == sp.kids[|sp.kids| - 1].index
    ensures Extended(sp, Shared, false, t) == Extended(sp, Shared, false, 0)
  {}

  lemma NewPlaceIs(s: Sharer, k: Key, full: bool, t: nat)
    requires s.sp.stack + s.sp.heap + s.sp.shared == |s.sp.kids| && (!full ==> 0 < s.sp.shared)
    ensures var sp, slot := Extended(s.sp, Shared, full, t), NextSlot(s.sp, Places(s), full, t);
            NewPlace(s, k, full, t) == s.(sp := sp, slots := s.slots[k := slot], order := s.order + [k])
  {}

  lemma ChainApart(frames: map<nat, Frame>, frames': map<nat, Frame>, head: nat, free: seq<nat>, f: nat)
    requires Chain(frames, head, free) && f !in free
    requires forall x :: x in frames && x != f ==> x in frames' && frames'[x] == frames[x]
    ensures Chain(frames', head, free)
  {
    ChainFrame(frames, frames', head, free);
  }

  class SharedMemory {
    const mem: FrameList
    var procs: map<Pid, Sharer>
    var pages: map<Key, SharedPage>

    ghost predicate Base()
      reads this, mem
    {
      mem.Valid() && SharingOk(mem.low, mem.high, mem.frames, mem.free, procs, pages)
    }

    /** The invariant between operations. */
    ghost predicate Valid()
      reads this, mem
    {
      Base() && AllUsed(pages)
    }

    constructor (mem: FrameList)
      requires mem.Valid()
      ensures Valid() && this.mem == mem && procs == map[] && pages == map[]
    {
      this.mem := mem;
      procs, pages := map[], map[];
    }

    /** `configure_page_entry` on a shared entry. */
    method WriteEntry(slot: Slot, pte: Pte)
      requires mem.Valid() && IsTable(mem.frames, slot.table) && slot.lvl0 < 512 && slot.table !in mem.free
      modifies mem`frames
      ensures mem.Valid() && mem.frames == SetEntry(old(mem.frames), slot, pte)
    {
      mem.frames := mem.frames[slot.table := Table(mem.frames[slot.table].ptes[slot.lvl0 := pte])];
      ChainFrame(old(mem.frames), mem.frames, mem.memPtr, mem.free);
    }

    /** `link_shared_page_to_process`, where it succeeds: a hole is used first. */
    method Link(p: Pid, k: Key) returns (slot: Slot)
      requires Base() && p in procs && k in pages && k !in procs[p].slots && CanLink(procs[p], |mem.free|)
      modifies this, mem
      ensures Base()
      ensures pages == old(pages)[k := old(pages)[k].(usage := old(pages)[k].usage + 1)]
      ensures p in procs && procs == old(procs)[p := procs[p]]
      ensures procs[p].slots == old(procs)[p].slots[k := slot] && procs[p].order == old(procs)[p].order + [k]
      ensures if old(procs)[p].holes != []
              then slot == old(procs)[p].holes[0] && procs[p].holes == old(procs)[p].holes[1..] && mem.free == old(mem.free)
              else procs[p].holes == []
      ensures mem.free == old(mem.free) || (|old(mem.free)| > 1 && mem.free == old(mem.free)[1..])
    {
      hide SharingOk, Chain, Disjoint, Configure, Own, All;
      if procs[p].holes != [] {
        slot := procs[p].holes[0];
        HoleLinked(mem.low, mem.high, mem.frames, mem.free, procs, pages, p, k);
        WriteEntry(slot, Configure(pages[k].frame, true, true, false, true, Kilo));
        var s := procs[p];
        procs := procs[p := s.(slots := s.slots[k := slot], order := s.order + [k], holes := s.holes[1..])];
        pages := pages[k := pages[k].(usage := pages[k].usage + 1)];
      } else {
        slot := LinkNew(p, k);
      }
    }

    /** The other branch: `add_frame_to_process` finds a place, linking a new table if it
        has to make one. */
    method LinkNew(p: Pid, k: Key) returns (slot: Slot)
      requires Base() && p in procs && k in pages && k !in procs[p].slots && procs[p].holes == [] && CanLink(procs[p], |mem.free|)
      modifies this, mem
      ensures Base()
      ensures pages == old(pages)[k := old(pages)[k].(usage := old(pages)[k].usage + 1)]
      ensures p in procs && procs == old(procs)[p := procs[p]]
      ensures procs[p].slots == old(procs)[p].slots[k := slot] && procs[p].order == old(procs)[p].order + [k] && procs[p].holes == []
      ensures mem.free == old(mem.free) || (|old(mem.free)| > 1 && mem.free == old(mem.free)[1..])
    {
      hide SharingOk, Chain, Disjoint, Own, Reserved, Distinct, Extended, BlankTable, Room, Grown, NextSlot, Configure, NewPlace, SharerOk;
      ghost var f0, free0 := mem.frames, mem.free;
      var s := procs[p];
      ghost var full := Places(s) % 512 == 0;
      SharingKnown(mem.low, mem.high, f0, free0, procs, pages, p);
      SharerKnown(f0, pages, s);
      ghost var t := if full then free0[0] else 0;
      if full { FrameableKnown(mem.low, mem.high, t); }
      PlaceLinked(mem.low, mem.high, f0, free0, if full then free0[1..] else free0, procs, pages, p, k, full, t);
      var sp;
      sp, slot := GrowShared(s.sp, CountsOf(s));
      NewPlaceIs(s, k, full, t);
      WriteEntry(slot, Configure(pages[k].frame, true, true, false, true, Kilo));
      procs := procs[p := s.(sp := sp, slots := s.slots[k := slot], order := s.order + [k])];
      pages := pages[k := pages[k].(usage := pages[k].usage + 1)];
    }

    /** `add_frame_to_process` for a shared page, with the entry it notes for it and the link
        of a new table. */
    method GrowShared(sp0: Space, ghost c: Counts) returns (sp: Space, slot: Slot)
      requires mem.Valid() && Reserved(sp0, c) && sp0.stack + sp0.heap + sp0.shared == |sp0.kids|
      requires c.shared % 512 != 0 || (Room(sp0) && |mem.free| > 1)
      requires IsTable(mem.frames, sp0.lvl1) && sp0.lvl1 !in mem.free && 256 + sp0.shared <= 512
      modifies mem
      ensures mem.Valid()
      ensures var full := c.shared % 512 == 0;
              var t := if full then old(mem.free)[0] else 0;
              && (!full ==> 0 < sp0.shared) && (full ==> 256 + sp0.shared < 512)
              && sp == Extended(sp0, Shared, full, t) && slot == NextSlot(sp0, c.shared, full, t)
              && mem.frames == Grown(old(mem.frames), sp0, full, t)
              && mem.free == if full then old(mem.free)[1..] else old(mem.free)
    {
      hide Chain, Reserved, Distinct, Extended, BlankTable, Down;
      ghost var f0, free0, full := mem.frames, mem.free, c.shared % 512 == 0;
      ghost var t := if full then free0[0] else 0;
      SharedCount(sp0, c);
      if !full { LastTable(sp0, c); SameLast(sp0, t); } else { NewLast(sp0, t); }
      var count := |sp0.kids|;
      var usage0 := if count > 0 then sp0.kids[count - 1].usage else 0;
      var ok;
      ok, sp := AddFrame(mem, sp0, Shared, c);
      assert ok;
      SameTables(sp0, full, t);
      var last := sp.kids[|sp.kids| - 1];
      if |sp.kids| > count {
        mem.frames := mem.frames[sp.lvl1 := Table(mem.frames[sp.lvl1].ptes[last.index := Down(last.table)])];
        slot := Slot(last.index, 0, last.table);
        ChainApart(f0[t := BlankTable()], mem.frames, mem.memPtr, mem.free, sp.lvl1);
      } else {
        slot := Slot(last.index, usage0, last.table);
      }
    }

    /** `shm_acquire`: nothing if the page does not exist or is mapped already. */
    method ShmAcquire(p: Pid, k: Key) returns (address: Option<nat>)
      requires Valid() && p in procs
      requires k in pages && k !in procs[p].slots ==> CanLink(procs[p], |mem.free|)
      modifies this, mem
      ensures Valid()
      ensures address.None? <==> k !in old(pages) || k in old(procs)[p].slots
      ensures address.None? ==> procs == old(procs) && pages == old(pages) && mem.frames == old(mem.frames) && mem.free == old(mem.free)
      ensures address.Some? ==> p in procs && k in procs[p].slots && address.value == SlotAddress(procs[p].slots[k])
      ensures address.Some? ==> procs == old(procs)[p := procs[p]] && procs[p].slots == old(procs)[p].slots[k := procs[p].slots[k]]
      ensures address.Some? ==> pages == old(pages)[k := old(pages)[k].(usage := old(pages)[k].usage + 1)]
    {
      hide SharingOk, Chain, Disjoint, Distinct;
      if k !in pages || k in procs[p].slots { return None; }
      var slot := Link(p, k);
      return Some(MapAddress(USERSPACE, slot.lvl1, slot.lvl0));
    }

    /** `shm_create`: nothing if the page exists; otherwise a new frame, mapped once. */
    method ShmCreate(p: Pid, k: Key) returns (address: Option<nat>)
      requires Valid() && p in procs
      requires k !in pages ==> |mem.free| > 1 && CanLink(procs[p], |mem.free| - 1)
      modifies this, mem
      ensures Valid()
      ensures address.None? <==> k in old(pages)
      ensures address.None? ==> procs == old(procs) && pages == old(pages) && mem.frames == old(mem.frames) && mem.free == old(mem.free)
      ensures address.Some? ==> p in procs && k in procs[p].slots && address.value == SlotAddress(procs[p].slots[k])
      ensures address.Some? ==> procs == old(procs)[p := procs[p]] && procs[p].slots == old(procs)[p].slots[k := procs[p].slots[k]]
      ensures address.Some? ==> pages == old(pages)[k := SharedPage(old(mem.free)[0], 1)]
    {
      hide SharingOk, Chain, Disjoint, Distinct;
      if k in pages { return None; }
      ghost var free0 := mem.free;
      NotMapped(mem.low, mem.high, mem.frames, free0, procs, pages, p, k);
      var frame := mem.GetFrame();
      PageCreated(mem.low, mem.high, mem.frames, free0, mem.free, procs, pages, k);
      pages := pages[k := SharedPage(frame, 0)];
      var slot := Link(p, k);
      return Some(MapAddress(USERSPACE, slot.lvl1, slot.lvl0));
    }

    /** `shm_release`: the place becomes the first hole; the frame is freed with the last user. */
    method ShmRelease(p: Pid, k: Key)
      requires Valid() && p in procs
      modifies this, mem
      ensures Valid()
      ensures k !in old(procs)[p].slots ==> procs == old(procs) && pages == old(pages) && mem.frames == old(mem.frames) && mem.free == old(mem.free)
      ensures k in old(procs)[p].slots ==>
                && k in old(pages) && procs == old(procs)[p := LeaveHole(old(procs)[p], k)]
                && (if old(pages)[k].usage == 1
                    then pages == old(pages) - {k} && mem.free == [old(pages)[k].frame] + old(mem.free)
                    else pages == old(pages)[k := old(pages)[k].(usage := old(pages)[k].usage - 1)] && mem.free == old(mem.free))
    {
      hide SharingOk, Chain, Disjoint, Distinct, Without;
      if k !in pages { NotMapped(mem.low, mem.high, mem.frames, mem.free, procs, pages, p, k); return; }
      if k !in procs[p].slots { return; }
      var s := procs[p];
      var hole := s.slots[k];
      HoleLeft(mem.low, mem.high, mem.frames, mem.free, procs, pages, p, k);
      procs := procs[p := s.(slots := s.slots - {k}, order := Without(s.order, k), holes := [hole] + s.holes)];
      WriteEntry(hole, Configure(0, false, false, false, false, Kilo));
      var page := pages[k].(usage := pages[k].usage - 1);
      pages := pages[k := page];
      if page.usage == 0 {
        PageDropped(mem.low, mem.high, mem.frames, mem.free, procs, pages, k, Frame.Link(mem.memPtr));
        PageFrame(mem.low, mem.high, mem.frames, mem.free, procs, pages, k);
        mem.ReleaseFrame(page.frame);
        pages := pages - {k};
      }
    }

    /** The loop of `free_process_memory` over the shared pages of a process. */
    method ReleaseAllPages(p: Pid)
      requires Valid() && p in procs
      modifies this, mem
      ensures Valid() && p in procs && procs == old(procs)[p := procs[p]]
      ensures procs[p].slots == map[] && OnlySharing(old(procs)[p], procs[p]) && Places(procs[p]) == Places(old(procs)[p])
      ensures mem.free == FreedPages(old(pages), old(procs)[p].order, |old(procs)[p].order|) + old(mem.free)
      ensures forall k :: k in old(pages) && k !in old(procs)[p].slots ==> k in pages && pages[k] == old(pages)[k]
      ensures forall k :: k in old(procs)[p].slots ==>
                && k in old(pages)
                && if old(pages)[k].usage == 1 then k !in pages
                   else k in pages && pages[k] == old(pages)[k].(usage := old(pages)[k].usage - 1)
    {
      hide SharingOk, Chain, Disjoint, Distinct, SharerOk, Rest, LeaveHole;
      var keys := procs[p].order;
      OrderKnown(mem.low, mem.high, mem.frames, mem.free, procs, pages, p);
      KeysKnownAll(mem.low, mem.high, mem.frames, mem.free, procs, pages, p);
      RestStart(pages, procs[p].slots, keys);
      var i := 0;
      while i < |keys|
        invariant 0 <= i <= |keys| && Valid() && p in procs && procs == old(procs)[p := procs[p]]
        invariant OnlySharing(old(procs)[p], procs[p]) && Places(procs[p]) == Places(old(procs)[p])
        invariant Rest(old(pages), pages, old(procs)[p].slots, procs[p].slots, keys, i)
        invariant mem.free == FreedPages(old(pages), keys, i) + old(mem.free)
      {
        ghost var s, was := procs[p], pages;
        MapsKey(old(pages), was, old(procs)[p].slots, s.slots, keys, i);
        PlacesKept(s, keys[i]);
        ShmRelease(p, keys[i]);
        RestStep(old(pages), was, pages, old(procs)[p].slots, s.slots, keys, i);
        i := i + 1;
      }
      RestEnd(old(pages), pages, old(procs)[p].slots, procs[p].slots, keys);
    }
  }

  lemma KeysKnownAll(low: nat, high: nat, frames: map<nat, Frame>, free: seq<nat>, procs: map<Pid, Sharer>, pages: map<Key, SharedPage>, p: Pid)
    requires SharingOk(low, high, frames, free, procs, pages) && p in procs
    ensures forall k :: k in procs[p].slots ==> k in pages
  {
    hide TablesOk, FramesApart, SlotsApart;
    KeysKnown(frames, pages, procs[p]);
  }

  /** The pages of the keys from position i on are still mapped and as they were; those
      before have one user less, or are gone. */
  ghost predicate Rest(pages0: map<Key, SharedPage>, pages: map<Key, SharedPage>, slots0: map<Key, Slot>, slots: map<Key, Slot>, keys: seq<Key>, i: nat)
    requires i <= |keys|
  {
    && OrderOk(slots0, keys) && (forall k :: k in slots0 ==> k in pages0)
    && (forall k :: k in slots <==> k in keys[i..])
    && (forall k :: k in pages0 && k !in keys[..i] ==> k in pages && pages[k] == pages0[k])
    && (forall k :: k in keys[..i] ==>
          if pages0[k].usage == 1 then k !in pages else k in pages && pages[k] == pages0[k].(usage := pages0[k].usage - 1))
  }

  /** The frames freed with the first n keys: those of pages with one user, the last first. */
  function FreedPages(pages: map<Key, SharedPage>, keys: seq<Key>, n: nat): seq<nat>
    requires n <= |keys|
  {
    if n == 0 then []
    else if keys[n - 1] in pages && pages[keys[n - 1]].usage == 1 then [pages[keys[n - 1]].frame] + FreedPages(pages, keys, n - 1)
    else FreedPages(pages, keys, n - 1)
  }

  lemma RestStart(pages: map<Key, SharedPage>, slots: map<Key, Slot>, keys: seq<Key>)
    requires OrderOk(slots, keys) && forall k :: k in slots ==> k in pages
    ensures Rest(pages, pages, slots, slots, keys, 0)
  {
    assert keys[0..] == keys;
  }

  lemma MapsKey(pages0: map<Key, SharedPage>, pages: map<Key, SharedPage>, slots0: map<Key, Slot>, slots: map<Key, Slot>, keys: seq<Key>, i: nat)
    requires i < |keys| && Rest(pages0, pages, slots0, slots, keys, i)
    ensures keys[i] in slots && keys[i] in pages0 && keys[i] !in keys[..i] && keys[i] in pages && pages[keys[i]] == pages0[keys[i]]
  {
    assert keys[i..][0] == keys[i];
    assert keys[i] in keys;
  }

  lemma RestStep(pages0: map<Key, SharedPage>, pages: map<Key, SharedPage>, pages': map<Key, SharedPage>, slots0: map<Key, Slot>, slots: map<Key, Slot>,
                 keys: seq<Key>, i: nat)
    requires i < |keys| && Rest(pages0, pages, slots0, slots, keys, i) && keys[i] in pages
    requires var k := keys[i];
             pages' == if pages[k].usage == 1 then pages - {k} else pages[k := pages[k].(usage := pages[k].usage - 1)]
    ensures Rest(pages0, pages', slots0, slots - {keys[i]}, keys, i + 1)
  {
    hide OrderOk;
    MapsKey(pages0, pages, slots0, slots, keys, i);
    var a, k, c := keys[..i], keys[i], keys[i + 1..];
    KeysAround(slots0, keys, i);
    forall l ensures l in keys[..i + 1] <==> l in a || l == k { assert keys[..i + 1] == a + [k]; }
    forall l ensures l in keys[i..] <==> l == k || l in c { assert keys[i..] == [k] + c; }
  }

  lemma KeysAround(slots0: map<Key, Slot>, keys: seq<Key>, i: nat)
    requires OrderOk(slots0, keys) && i < |keys|
    ensures keys[i] !in keys[..i] && keys[i] !in keys[i + 1..]
    ensures forall l :: l in keys[..i] ==> l in slots0
  {}

  lemma RestEnd(pages0: map<Key, SharedPage>, pages: map<Key, SharedPage>, slots0: map<Key, Slot>, slots: map<Key, Slot>, keys: seq<Key>)
    requires Rest(pages0, pages, slots0, slots, keys, |keys|)
    ensures slots == map[]
    ensures forall k :: k in pages0 && k !in slots0 ==> k in pages && pages[k] == pages0[k]
    ensures forall k :: k in slots0 ==>
              k in pages0 && if pages0[k].usage == 1 then k !in pages else k in pages && pages[k] == pages0[k].(usage := pages0[k].usage - 1)
  {
    assert keys[..|keys|] == keys;
    assert slots.Keys == {};
  }

  /** Nothing but the shared pages of the process differs. */
  predicate OnlySharing(s: Sharer, s': Sharer) {
    s' == s.(slots := s'.slots, order := s'.order, holes := s'.holes)
  }

  lemma PlacesKept(s: Sharer, k: Key)
    requires k in s.slots
    ensures Places(LeaveHole(s, k)) == Places(s) && LeaveHole(s, k).slots == s.slots - {k} && OnlySharing(s, LeaveHole(s, k))
  {
    OneLess(s.slots, k);
  }

  lemma OrderKnown(low: nat, high: nat, frames: map<nat, Frame>, free: seq<nat>, procs: map<Pid, Sharer>, pages: map<Key, SharedPage>, p: Pid)
    requires SharingOk(low, high, frames, free, procs, pages) && p in procs
    ensures OrderOk(procs[p].slots, procs[p].order)
  {
    hide TablesOk, FramesApart;
    assert SharerOk(frames, pages, procs[p]);
  }

  /** A process just built by the allocator can start to share pages. */
  lemma BuiltSharer(frames: map<nat, Frame>, pages: map<Key, SharedPage>, sp: Space, data: seq<nat>, heap: seq<nat>, size: int, scratch: nat)
    requires Built(frames, sp, data, heap, size) && SpaceFrames(sp, data, heap) && |heap| == 1 && sp.stackShift == |data| > 0
    ensures SharerOk(frames, pages, Sharer(sp, map[], [], [], data, heap, Copies(size), scratch))
  {
    hide Region, Lvl1Entry, Down, PageEntry, Contents, Filled, AllFrameable, From, To;
    var c := Counts(|data|, |heap|, 0);
    NoSharedTables(sp, c);
    forall i | 0 <= i < |sp.kids| ensures IsTable(frames, sp.kids[i].table) {
      KidIsTable(frames, sp, data, heap, size, i);
    }
  }

  lemma NoSharedTables(sp: Space, c: Counts)
    requires Reserved(sp, c) && c.shared == 0
    ensures sp.shared == 0
  {
    RegionsEmpty(sp, c);
  }

  lemma KidIsTable(frames: map<nat, Frame>, sp: Space, data: seq<nat>, heap: seq<nat>, size: int, i: nat)
    requires Built(frames, sp, data, heap, size) && i < |sp.kids|
    ensures IsTable(frames, sp.kids[i].table)
  {
    hide Region, Lvl1Entry, Down, PageEntry, Contents;
    NoSharedTables(sp, Counts(|data|, |heap|, 0));
    if i < sp.stack {
      assert Part(sp, StackCode)[i] == sp.kids[i];
      assert TableIs(frames, Part(sp, StackCode)[i].table, 512 * i, data, Copies(size));
    } else {
      assert Part(sp, Heap)[i - sp.stack] == sp.kids[i];
      assert TableIs(frames, Part(sp, Heap)[i - sp.stack].table, 512 * (i - sp.stack), heap, 0);
    }
  }

  lemma NotMapped(low: nat, high: nat, frames: map<nat, Frame>, free: seq<nat>, procs: map<Pid, Sharer>, pages: map<Key, SharedPage>, p: Pid, k: Key)
    requires SharingOk(low, high, frames, free, procs, pages) && p in procs && k !in pages
    ensures k !in procs[p].slots
  {
    hide TablesOk, SlotsApart, FramesApart;
    KeysKnown(frames, pages, procs[p]);
  }

  lemma PageFrame(low: nat, high: nat, frames: map<nat, Frame>, free: seq<nat>, procs: map<Pid, Sharer>, pages: map<Key, SharedPage>, k: Key)
    requires SharingOk(low, high, frames, free, procs, pages) && k in pages
    ensures Releasable(low, high, pages[k].frame)
  {}
}
