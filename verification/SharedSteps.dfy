/**
  How the invariant of shared pages reacts to the steps of `memory_api.c`.
  */
module SharedSteps {
  import opened Common
  import opened PageTables
  import opened AddressSpace
  import opened ProcessMemory
  import opened SharedState

  ghost predicate Agree(frames: map<nat, Frame>, frames': map<nat, Frame>, fs: seq<nat>) {
    forall f :: f in fs && f in frames ==> f in frames' && frames'[f] == frames[f]
  }

  lemma OwnTables(sp: Space, i: nat)
    requires i < |sp.kids|
    ensures sp.kids[i].table in Own(sp) && sp.root in Own(sp) && sp.lvl1 in Own(sp)
  {
    assert Own(sp)[2 + i] == sp.kids[i].table && Own(sp)[0] == sp.root && Own(sp)[1] == sp.lvl1;
  }

  lemma OwnUpper(sp: Space)
    ensures sp.root in Own(sp) && sp.lvl1 in Own(sp)
  {
    assert Own(sp)[0] == sp.root && Own(sp)[1] == sp.lvl1;
  }

  lemma TablesFrame(frames: map<nat, Frame>, frames': map<nat, Frame>, sp: Space, c: Counts)
    requires TablesOk(frames, sp, c) && Agree(frames, frames', Own(sp))
    ensures TablesOk(frames', sp, c)
  {
    hide Reserved, Lvl1Entry, Down, AllFrameable;
    ExtendsKnown(sp, c);
    OwnUpper(sp);
    forall i | 0 <= i < |sp.kids| ensures IsTable(frames', sp.kids[i].table) {
      OwnTables(sp, i);
      assert IsTable(frames, sp.kids[i].table);
    }
  }

  /** A process does not notice changes outside its own tables. */
  lemma SharerFrame(frames: map<nat, Frame>, frames': map<nat, Frame>, pages: map<Key, SharedPage>, pages': map<Key, SharedPage>, s: Sharer)
    requires SharerOk(frames, pages, s) && Agree(frames, frames', Own(s.sp))
    requires forall k :: k in s.slots ==> k in pages' && pages'[k].frame == pages[k].frame
    ensures SharerOk(frames', pages', s)
  {
    hide TablesOk, SharedLeaf, ReleasedEntry, Own, SlotsApart, PrivateOk;
    TablesFrame(frames, frames', s.sp, CountsOf(s));
    PrivateShape(frames, s);
    forall i | 0 <= i < |s.sp.kids| ensures s.sp.kids[i].table in Own(s.sp) { OwnTables(s.sp, i); }
    PrivateFrame(frames, frames', s);
    forall k | k in s.slots ensures EntryIs(frames', s.slots[k], SharedLeaf(pages'[k].frame)) {
      SlotKnown(s, k);
      OwnTables(s.sp, s.sp.stack + s.sp.heap + (s.slots[k].lvl1 - 256));
    }
    forall i | 0 <= i < |s.holes| ensures EntryIs(frames', s.holes[i], ReleasedEntry()) {
      HoleKnown(s, i);
      OwnTables(s.sp, s.sp.stack + s.sp.heap + (s.holes[i].lvl1 - 256));
    }
  }

  /** The private pages depend on their tables only. */
  lemma PrivateFrame(frames: map<nat, Frame>, frames': map<nat, Frame>, s: Sharer)
    requires PrivateOk(frames, s)
    requires forall i :: 0 <= i < s.sp.stack + s.sp.heap && s.sp.kids[i].table in frames ==>
               s.sp.kids[i].table in frames' && frames'[s.sp.kids[i].table] == frames[s.sp.kids[i].table]
    ensures PrivateOk(frames', s)
  {
    hide PageEntry, AllFrameable;
    RegionFrame(frames, frames', s.sp, StackCode, s.data, s.copies);
    RegionFrame(frames, frames', s.sp, Heap, s.heap, 0);
  }

  lemma RegionFrame(frames: map<nat, Frame>, frames': map<nat, Frame>, sp: Space, k: Kind, data: seq<nat>, copies: nat)
    requires sp.stack + sp.heap + sp.shared == |sp.kids| && !k.Shared? && Filled(frames, Part(sp, k), data, copies)
    requires forall i :: 0 <= i < sp.stack + sp.heap && sp.kids[i].table in frames ==>
               sp.kids[i].table in frames' && frames'[sp.kids[i].table] == frames[sp.kids[i].table]
    ensures Filled(frames', Part(sp, k), data, copies)
  {
    hide PageEntry;
    var ks := Part(sp, k);
    forall i | 0 <= i < |ks| ensures TableIs(frames', ks[i].table, 512 * i, data, copies) {
      assert TableIs(frames, ks[i].table, 512 * i, data, copies);
      assert ks[i] == sp.kids[From(sp, k) + i];
    }
  }

  // ----- writing one entry -----

  function SetEntry(frames: map<nat, Frame>, slot: Slot, pte: Pte): map<nat, Frame>
    requires slot.table in frames && frames[slot.table].Table? && slot.lvl0 < |frames[slot.table].ptes|
  {
    frames[slot.table := Table(frames[slot.table].ptes[slot.lvl0 := pte])]
  }

  /** Different places are different entries. */
  lemma DifferentEntries(sp: Space, a: Slot, b: Slot, n: nat)
    requires SlotIn(sp, a, n) && SlotIn(sp, b, n) && a != b && Distinct(Own(sp))
    ensures a.table != b.table || a.lvl0 != b.lvl0
  {
    var o := Own(sp);
    var d := 2 + sp.stack + sp.heap;
    assert o[d + (a.lvl1 - 256)] == a.table && o[d + (b.lvl1 - 256)] == b.table;
  }

  lemma SlotTable(frames: map<nat, Frame>, sp: Space, c: Counts, slot: Slot, n: nat)
    requires TablesOk(frames, sp, c) && SlotIn(sp, slot, n) && Distinct(Own(sp))
    ensures IsTable(frames, slot.table) && slot.table != sp.root && slot.table != sp.lvl1 && slot.table in Own(sp)
  {
    var i := sp.stack + sp.heap + (slot.lvl1 - 256);
    OwnTables(sp, i);
    var o := Own(sp);
    assert o[2 + i] == slot.table && o[0] == sp.root && o[1] == sp.lvl1;
    assert IsTable(frames, sp.kids[i].table);
  }

  lemma SetTables(frames: map<nat, Frame>, sp: Space, c: Counts, slot: Slot, n: nat, pte: Pte)
    requires TablesOk(frames, sp, c) && SlotIn(sp, slot, n) && Distinct(Own(sp))
    ensures IsTable(frames, slot.table) && TablesOk(SetEntry(frames, slot, pte), sp, c)
  {
    hide Reserved, Lvl1Entry, Down, AllFrameable;
    ExtendsKnown(sp, c);
    SlotTable(frames, sp, c, slot, n);
    var frames' := SetEntry(frames, slot, pte);
    forall i | 0 <= i < |sp.kids| ensures IsTable(frames', sp.kids[i].table) {
      assert IsTable(frames, sp.kids[i].table);
    }
  }

  lemma PrivateSame(frames: map<nat, Frame>, s: Sharer, s': Sharer)
    requires PrivateOk(frames, s) && s'.sp == s.sp && s'.data == s.data && s'.heap == s.heap && s'.copies == s.copies
    ensures PrivateOk(frames, s')
  {}

  /** An entry of a shared table is no entry of a private one. */
  lemma SetPrivate(frames: map<nat, Frame>, s: Sharer, slot: Slot, n: nat, pte: Pte)
    requires PrivateOk(frames, s) && SlotIn(s.sp, slot, n) && Distinct(Own(s.sp)) && IsTable(frames, slot.table)
    ensures slot.lvl0 < 512 && PrivateOk(SetEntry(frames, slot, pte), s)
  {
    hide PrivateOk;
    var sp := s.sp;
    var o, j := Own(sp), sp.stack + sp.heap + (slot.lvl1 - 256);
    assert o[2 + j] == slot.table;
    forall i | 0 <= i < sp.stack + sp.heap ensures sp.kids[i].table != slot.table {
      assert o[2 + i] == sp.kids[i].table;
    }
    PrivateFrame(frames, SetEntry(frames, slot, pte), s);
  }

  lemma SetOther(frames: map<nat, Frame>, sp: Space, a: Slot, b: Slot, n: nat, pte: Pte, other: Pte)
    requires SlotIn(sp, a, n) && SlotIn(sp, b, n) && a != b && Distinct(Own(sp))
    requires IsTable(frames, a.table) && EntryIs(frames, b, other)
    ensures EntryIs(SetEntry(frames, a, pte), b, other)
  {
    hide SlotIn;
    DifferentEntries(sp, a, b, n);
    LowBound(sp, a, n);
  }

  lemma LowBound(sp: Space, a: Slot, n: nat)
    requires SlotIn(sp, a, n)
    ensures a.lvl0 < 512
  {}

  // ----- mapping into a hole, and leaving one -----

  function FillHole(s: Sharer, k: Key): Sharer
    requires s.holes != []
  {
    s.(slots := s.slots[k := s.holes[0]], order := s.order + [k], holes := s.holes[1..])
  }

  lemma FillHoleApart(s: Sharer, k: Key)
    requires SlotsApart(s) && s.holes != [] && k !in s.slots
    ensures Places(FillHole(s, k)) == Places(s) && SlotsApart(FillHole(s, k))
  {
    hide SlotIn, OrderOk;
    OrderMore(s.slots, s.order, k, s.holes[0]);
    var s' := FillHole(s, k);
    assert forall i :: 0 <= i < |s'.holes| ==> s'.holes[i] == s.holes[i + 1];
    assert s.holes == [s.holes[0]] + s'.holes;
  }

  lemma FillHoleOk(frames: map<nat, Frame>, pages: map<Key, SharedPage>, s: Sharer, k: Key)
    requires SharerOk(frames, pages, s) && s.holes != [] && k !in s.slots && k in pages && Distinct(Own(s.sp))
    ensures IsTable(frames, s.holes[0].table) && s.holes[0].lvl0 < 512
    ensures SharerOk(SetEntry(frames, s.holes[0], SharedLeaf(pages[k].frame)), pages, FillHole(s, k))
  {
    hide TablesOk, SharedLeaf, ReleasedEntry, SlotIn, SlotsApart, PrivateOk;
    var h, n := s.holes[0], Places(s);
    HoleKnown(s, 0);
    LowBound(s.sp, h, n);
    SlotTable(frames, s.sp, CountsOf(s), h, n);
    SetPrivate(frames, s, h, n, SharedLeaf(pages[k].frame));
    SetTables(frames, s.sp, CountsOf(s), h, n, SharedLeaf(pages[k].frame));
    FillHoleApart(s, k);
    FillHoleEntries(frames, pages, s, k);
    PrivateSame(SetEntry(frames, h, SharedLeaf(pages[k].frame)), s, FillHole(s, k));
  }

  lemma HoleKnown(s: Sharer, i: nat)
    requires SlotsApart(s) && i < |s.holes|
    ensures SlotIn(s.sp, s.holes[i], Places(s))
  {}

  lemma FillHoleEntries(frames: map<nat, Frame>, pages: map<Key, SharedPage>, s: Sharer, k: Key)
    requires SlotsApart(s) && EntriesOk(frames, pages, s) && s.holes != [] && k !in s.slots && k in pages && Distinct(Own(s.sp))
    requires IsTable(frames, s.holes[0].table) && s.holes[0].lvl0 < 512
    ensures EntriesOk(SetEntry(frames, s.holes[0], SharedLeaf(pages[k].frame)), pages, FillHole(s, k))
  {
    hide SharedLeaf, ReleasedEntry, SlotIn, Own;
    var h, s', n, e := s.holes[0], FillHole(s, k), Places(s), SharedLeaf(pages[k].frame);
    forall l | l in s'.slots && l != k ensures EntryIs(SetEntry(frames, h, e), s'.slots[l], SharedLeaf(pages[l].frame)) {
      SetOther(frames, s.sp, h, s.slots[l], n, e, SharedLeaf(pages[l].frame));
    }
    forall i | 0 <= i < |s'.holes| ensures EntryIs(SetEntry(frames, h, e), s'.holes[i], ReleasedEntry()) {
      assert s'.holes[i] == s.holes[i + 1];
      SetOther(frames, s.sp, h, s.holes[i + 1], n, e, ReleasedEntry());
    }
  }

  /** The list of mapped pages without one of them. */
  function Without(order: seq<Key>, k: Key): seq<Key> {
    if order == [] then [] else if order[0] == k then order[1..] else [order[0]] + Without(order[1..], k)
  }

  lemma OrderMore(slots: map<Key, Slot>, order: seq<Key>, k: Key, slot: Slot)
    requires OrderOk(slots, order) && k !in slots
    ensures OrderOk(slots[k := slot], order + [k])
  {}

  lemma {:induction false} WithoutHas(order: seq<Key>, k: Key)
    requires Distinct(order)
    ensures forall l :: l in Without(order, k) <==> l in order && l != k
    ensures Distinct(Without(order, k))
  {
    if order != [] {
      var x, tail := order[0], order[1..];
      assert Distinct(tail) && x !in tail;
      WithoutHas(tail, k);
      assert order == [x] + tail;
      if x != k {
        var v := Without(tail, k);
        assert Without(order, k) == [x] + v && x !in v;
        UniqueMore(x, v);
      }
    }
  }

  lemma UniqueMore(x: Key, v: seq<Key>)
    requires Distinct(v) && x !in v
    ensures Distinct([x] + v)
  {}

  lemma OrderLess(slots: map<Key, Slot>, order: seq<Key>, k: Key)
    requires OrderOk(slots, order)
    ensures OrderOk(slots - {k}, Without(order, k))
  {
    hide Without;
    assert Distinct(order);
    WithoutHas(order, k);
  }

  function LeaveHole(s: Sharer, k: Key): Sharer
    requires k in s.slots
  {
    s.(slots := s.slots - {k}, order := Without(s.order, k), holes := [s.slots[k]] + s.holes)
  }

  lemma LeaveHoleApart(s: Sharer, k: Key)
    requires SlotsApart(s) && k in s.slots
    ensures Places(LeaveHole(s, k)) == Places(s) && SlotsApart(LeaveHole(s, k))
  {
    hide SlotIn, Without, OrderOk;
    OneLess(s.slots, k);
    OrderLess(s.slots, s.order, k);
    var s' := LeaveHole(s, k);
    assert forall i :: 1 <= i < |s'.holes| ==> s'.holes[i] == s.holes[i - 1];
  }

  lemma LeaveHoleOk(frames: map<nat, Frame>, pages: map<Key, SharedPage>, s: Sharer, k: Key)
    requires SharerOk(frames, pages, s) && k in s.slots && Distinct(Own(s.sp))
    ensures IsTable(frames, s.slots[k].table) && s.slots[k].lvl0 < 512
    ensures SharerOk(SetEntry(frames, s.slots[k], ReleasedEntry()), pages, LeaveHole(s, k))
  {
    hide TablesOk, SharedLeaf, ReleasedEntry, SlotIn, SlotsApart, Without, PrivateOk;
    var h, n := s.slots[k], Places(s);
    SlotKnown(s, k);
    LowBound(s.sp, h, n);
    SlotTable(frames, s.sp, CountsOf(s), h, n);
    SetPrivate(frames, s, h, n, ReleasedEntry());
    SetTables(frames, s.sp, CountsOf(s), h, n, ReleasedEntry());
    LeaveHoleApart(s, k);
    LeaveHoleEntries(frames, pages, s, k);
    PrivateSame(SetEntry(frames, h, ReleasedEntry()), s, LeaveHole(s, k));
  }

  lemma SlotKnown(s: Sharer, k: Key)
    requires SlotsApart(s) && k in s.slots
    ensures SlotIn(s.sp, s.slots[k], Places(s))
  {}

  lemma LeaveHoleEntries(frames: map<nat, Frame>, pages: map<Key, SharedPage>, s: Sharer, k: Key)
    requires SlotsApart(s) && EntriesOk(frames, pages, s) && k in s.slots && Distinct(Own(s.sp))
    requires IsTable(frames, s.slots[k].table) && s.slots[k].lvl0 < 512
    ensures EntriesOk(SetEntry(frames, s.slots[k], ReleasedEntry()), pages, LeaveHole(s, k))
  {
    hide SharedLeaf, ReleasedEntry, SlotIn, Own, Without;
    var h, s', n := s.slots[k], LeaveHole(s, k), Places(s);
    forall l | l in s'.slots ensures EntryIs(SetEntry(frames, h, ReleasedEntry()), s'.slots[l], SharedLeaf(pages[l].frame)) {
      SetOther(frames, s.sp, h, s.slots[l], n, ReleasedEntry(), SharedLeaf(pages[l].frame));
    }
    forall i | 0 <= i < |s'.holes| ensures EntryIs(SetEntry(frames, h, ReleasedEntry()), s'.holes[i], ReleasedEntry()) {
      if i > 0 {
        assert s'.holes[i] == s.holes[i - 1];
        SetOther(frames, s.sp, h, s.holes[i - 1], n, ReleasedEntry(), ReleasedEntry());
      }
    }
  }

  lemma OneLess(m: map<Key, Slot>, k: Key)
    requires k in m
    ensures |m - {k}| == |m| - 1
  {
    assert (m - {k})[k := m[k]] == m;
  }

  // ----- mapping into a new place -----

  /** The frames once the table for one more place is there and linked. */
  function Grown(frames: map<nat, Frame>, sp: Space, full: bool, t: nat): map<nat, Frame>
    requires sp.lvl1 in frames && frames[sp.lvl1].Table? && 256 + sp.shared <= |frames[sp.lvl1].ptes|
    requires full ==> 256 + sp.shared < |frames[sp.lvl1].ptes|
  {
    if full then frames[t := BlankTable()][sp.lvl1 := Table(frames[sp.lvl1].ptes[256 + sp.shared := Down(t)])]
    else frames
  }

  lemma Lvl1Table(frames: map<nat, Frame>, sp: Space, c: Counts)
    requires TablesOk(frames, sp, c)
    ensures IsTable(frames, sp.lvl1) && 256 + sp.shared <= 512 && sp.stack + sp.heap + sp.shared == |sp.kids|
    ensures sp.stack <= 128 && sp.heap <= 128
  {}

  lemma GrownTables(frames: map<nat, Frame>, sp: Space, c: Counts, full: bool, t: nat)
    requires TablesOk(frames, sp, c) && full == (c.shared % 512 == 0) && (full ==> Room(sp) && Frameable(t) && t !in Own(sp))
    requires !full ==> 0 < sp.shared
    requires Distinct(Own(sp))
    ensures IsTable(frames, sp.lvl1) && 256 + sp.shared <= 512 && (full ==> 256 + sp.shared < 512)
    ensures TablesOk(Grown(frames, sp, full, t), Extended(sp, Shared, full, t), OneMore(c, Shared))
  {
    hide Reserved, Down, Frameable;
    Lvl1Table(frames, sp, c);
    ExtendedReserved(sp, c, Shared, t);
    var sp', frames' := Extended(sp, Shared, full, t), Grown(frames, sp, full, t);
    OwnUpper(sp);
    assert Own(sp)[0] == sp.root && Own(sp)[1] == sp.lvl1;
    SameTables(sp, full, t);
    forall i | 0 <= i < |sp'.kids| ensures IsTable(frames', sp'.kids[i].table) && Frameable(Tables(sp'.kids)[i]) {
      if i < |sp.kids| {
        assert Own(sp)[2 + i] == sp.kids[i].table;
        assert IsTable(frames, sp.kids[i].table) && Frameable(Tables(sp.kids)[i]);
      }
    }
    forall x | 0 <= x < PT_SIZE ensures frames'[sp.lvl1].ptes[x] == Lvl1Entry(sp', sp'.stack, sp'.heap, sp'.shared, x) {
      assert frames[sp.lvl1].ptes[x] == Lvl1Entry(sp, sp.stack, sp.heap, sp.shared, x);
    }
  }

  /** Tables keep their place; a new one comes last. */
  lemma SameTables(sp: Space, full: bool, t: nat)
    requires sp.stack + sp.heap + sp.shared == |sp.kids| && (!full ==> 0 < sp.shared)
    ensures var sp' := Extended(sp, Shared, full, t);
            && |sp'.kids| == |sp.kids| + (if full then 1 else 0)
            && (forall i :: 0 <= i < |sp.kids| ==> sp'.kids[i].table == sp.kids[i].table)
            && (full ==> sp'.kids[|sp.kids|].table == t)
            && sp'.stack == sp.stack && sp'.heap == sp.heap && sp'.root == sp.root && sp'.lvl1 == sp.lvl1
            && sp'.stackShift == sp.stackShift && sp'.shared == sp.shared + (if full then 1 else 0)
  {}

  /** The place `add_frame_to_process` notes for a new shared page. */
  function NextSlot(sp: Space, n: nat, full: bool, t: nat): Slot
    requires sp.stack + sp.heap + sp.shared == |sp.kids| && (!full ==> 0 < sp.shared)
  {
    if full then Slot(256 + sp.shared, 0, t)
    else Slot(256 + sp.shared - 1, n % 512, sp.kids[|sp.kids| - 1].table)
  }

  function NewPlace(s: Sharer, k: Key, full: bool, t: nat): Sharer
    requires s.sp.stack + s.sp.heap + s.sp.shared == |s.sp.kids| && (!full ==> 0 < s.sp.shared)
  {
    s.(sp := Extended(s.sp, Shared, full, t), slots := s.slots[k := NextSlot(s.sp, Places(s), full, t)], order := s.order + [k])
  }

  lemma SharedCount(sp: Space, c: Counts)
    requires Reserved(sp, c)
    ensures sp.stack + sp.heap + sp.shared == |sp.kids|
    ensures c.shared % 512 != 0 ==> 0 < sp.shared && 512 * (sp.shared - 1) + c.shared % 512 == c.shared
    ensures c.shared % 512 == 0 ==> 512 * sp.shared == c.shared
  {
    assert Region(Part(sp, Shared), Start(Shared), Of(c, Shared));
    PartSize(sp, Shared);
    var q, r := TablesKnown(c.shared);
  }

  lemma NewPlaceApart(frames: map<nat, Frame>, s: Sharer, k: Key, full: bool, t: nat)
    requires TablesOk(frames, s.sp, CountsOf(s)) && SlotsApart(s) && s.holes == [] && k !in s.slots && full == (Places(s) % 512 == 0)
    ensures s.sp.stack + s.sp.heap + s.sp.shared == |s.sp.kids| && (!full ==> 0 < s.sp.shared)
    ensures var s' := NewPlace(s, k, full, t);
            && Places(s') == Places(s) + 1 && SlotsApart(s')
            && SlotIn(s'.sp, s'.slots[k], Places(s'))
            && forall l :: l in s.slots ==> SlotIn(s'.sp, s.slots[l], Places(s')) && s.slots[l] != s'.slots[k]
  {
    hide TablesOk, SlotIn, Extended, NextSlot, OrderOk;
    TablesReserved(frames, s.sp, CountsOf(s));
    SharedCount(s.sp, CountsOf(s));
    var s', n := NewPlace(s, k, full, t), Places(s);
    NextSlotIn(s.sp, n, full, t);
    OrderMore(s.slots, s.order, k, s'.slots[k]);
    forall l | l in s.slots ensures SlotIn(s'.sp, s.slots[l], n + 1) && s.slots[l] != s'.slots[k] {
      SlotKnown(s, l);
      OldSlotIn(s.sp, s.slots[l], n, full, t);
    }
  }

  lemma TablesReserved(frames: map<nat, Frame>, sp: Space, c: Counts)
    requires TablesOk(frames, sp, c)
    ensures Reserved(sp, c)
  {}

  ghost predicate LastPlace(sp: Space, n: nat, full: bool) {
    && sp.stack + sp.heap + sp.shared == |sp.kids|
    && if full then 512 * sp.shared == n else 0 < sp.shared && 512 * (sp.shared - 1) + n % 512 == n
  }

  lemma NextSlotIn(sp: Space, n: nat, full: bool, t: nat)
    requires LastPlace(sp, n, full)
    ensures SlotIn(Extended(sp, Shared, full, t), NextSlot(sp, n, full, t), n + 1)
  {
    hide Extended;
    SameTables(sp, full, t);
  }

  lemma OldSlotIn(sp: Space, slot: Slot, n: nat, full: bool, t: nat)
    requires LastPlace(sp, n, full) && SlotIn(sp, slot, n)
    ensures SlotIn(Extended(sp, Shared, full, t), slot, n + 1) && slot != NextSlot(sp, n, full, t)
  {
    hide Extended;
    SameTables(sp, full, t);
  }

  lemma NewPlaceOk(frames: map<nat, Frame>, pages: map<Key, SharedPage>, s: Sharer, k: Key, full: bool, t: nat)
    requires SharerOk(frames, pages, s) && s.holes == [] && k !in s.slots && k in pages && Distinct(Own(s.sp))
    requires full == (Places(s) % 512 == 0) && (full ==> Room(s.sp) && Frameable(t) && t !in Own(s.sp))
    ensures s.sp.stack + s.sp.heap + s.sp.shared == |s.sp.kids| && (!full ==> 0 < s.sp.shared)
    ensures IsTable(frames, s.sp.lvl1) && 256 + s.sp.shared <= 512 && (full ==> 256 + s.sp.shared < 512)
    ensures var s', g := NewPlace(s, k, full, t), Grown(frames, s.sp, full, t);
            && IsTable(g, s'.slots[k].table) && s'.slots[k].lvl0 < 512 && Distinct(Own(s'.sp))
            && SharerOk(SetEntry(g, s'.slots[k], SharedLeaf(pages[k].frame)), pages, s')
  {
    hide TablesOk, SharedLeaf, ReleasedEntry, SlotIn, SlotsApart, Own, Frameable, Distinct, Extended, Grown, PrivateOk;
    NewPlaceApart(frames, s, k, full, t);
    GrownTables(frames, s.sp, CountsOf(s), full, t);
    var s', g, n := NewPlace(s, k, full, t), Grown(frames, s.sp, full, t), Places(s) + 1;
    NextOwn(s.sp, full, t);
    LowBound(s'.sp, s'.slots[k], n);
    SameTables(s.sp, full, t);
    assert CountsOf(s') == OneMore(CountsOf(s), Shared);
    SlotTable(g, s'.sp, CountsOf(s'), s'.slots[k], n);
    SetTables(g, s'.sp, CountsOf(s'), s'.slots[k], n, SharedLeaf(pages[k].frame));
    NewPlaceEntries(frames, pages, s, k, full, t);
    NewPlacePrivate(frames, s, k, full, t);
    SetPrivate(g, s', s'.slots[k], n, SharedLeaf(pages[k].frame));
  }

  /** A new table does not concern the private pages. */
  lemma NewPlacePrivate(frames: map<nat, Frame>, s: Sharer, k: Key, full: bool, t: nat)
    requires PrivateOk(frames, s) && (!full ==> 0 < s.sp.shared) && Distinct(Own(s.sp)) && (full ==> t !in Own(s.sp))
    requires IsTable(frames, s.sp.lvl1) && 256 + s.sp.shared <= 512 && (full ==> 256 + s.sp.shared < 512)
    ensures PrivateOk(Grown(frames, s.sp, full, t), NewPlace(s, k, full, t))
  {
    hide PrivateOk, Extended;
    PrivateShape(frames, s);
    var sp, g := s.sp, Grown(frames, s.sp, full, t);
    forall i | 0 <= i < sp.stack + sp.heap ensures sp.kids[i].table != sp.lvl1 && (full ==> sp.kids[i].table != t) {
      OwnTables(sp, i);
      assert Own(sp)[2 + i] == sp.kids[i].table && Own(sp)[1] == sp.lvl1;
    }
    PrivateFrame(frames, g, s);
    SamePrivate(g, s, k, full, t);
  }

  lemma PrivateShape(frames: map<nat, Frame>, s: Sharer)
    requires PrivateOk(frames, s)
    ensures s.sp.stack + s.sp.heap + s.sp.shared == |s.sp.kids|
  {}

  lemma SamePrivate(frames: map<nat, Frame>, s: Sharer, k: Key, full: bool, t: nat)
    requires PrivateOk(frames, s) && (!full ==> 0 < s.sp.shared)
    ensures PrivateOk(frames, NewPlace(s, k, full, t))
  {
    hide Filled, AllFrameable, Extended;
    SameTables(s.sp, full, t);
    SameParts(s.sp, full, t, StackCode);
    SameParts(s.sp, full, t, Heap);
  }

  lemma SameParts(sp: Space, full: bool, t: nat, k: Kind)
    requires sp.stack + sp.heap + sp.shared == |sp.kids| && (!full ==> 0 < sp.shared) && !k.Shared?
    ensures var sp' := Extended(sp, Shared, full, t);
            sp'.stack + sp'.heap + sp'.shared == |sp'.kids| && Part(sp', k) == Part(sp, k)
  {
    if full { PartApart(sp, Shared, t, k); } else { PartInTable(sp, Shared, k); }
  }

  lemma NextOwn(sp: Space, full: bool, t: nat)
    requires sp.stack + sp.heap + sp.shared == |sp.kids| && (!full ==> 0 < sp.shared) && Distinct(Own(sp)) && (full ==> t !in Own(sp))
    ensures Own(Extended(sp, Shared, full, t)) == Own(sp) + (if full then [t] else [])
    ensures Distinct(Own(Extended(sp, Shared, full, t)))
  {
    SameTables(sp, full, t);
    var sp' := Extended(sp, Shared, full, t);
    assert Tables(sp'.kids) == Tables(sp.kids) + if full then [t] else [];
  }

  lemma NewPlaceEntries(frames: map<nat, Frame>, pages: map<Key, SharedPage>, s: Sharer, k: Key, full: bool, t: nat)
    requires SharerOk(frames, pages, s) && s.holes == [] && k !in s.slots && k in pages && Distinct(Own(s.sp))
    requires full == (Places(s) % 512 == 0) && (full ==> t !in Own(s.sp)) && (!full ==> 0 < s.sp.shared)
    requires s.sp.stack + s.sp.heap + s.sp.shared == |s.sp.kids| && Distinct(Own(Extended(s.sp, Shared, full, t)))
    requires IsTable(frames, s.sp.lvl1) && 256 + s.sp.shared <= 512 && (full ==> 256 + s.sp.shared < 512)
    requires var s' := NewPlace(s, k, full, t); IsTable(Grown(frames, s.sp, full, t), s'.slots[k].table) && s'.slots[k].lvl0 < 512
    ensures var s' := NewPlace(s, k, full, t);
            EntriesOk(SetEntry(Grown(frames, s.sp, full, t), s'.slots[k], SharedLeaf(pages[k].frame)), pages, s')
  {
    hide TablesOk, SharedLeaf, ReleasedEntry, SlotIn, Own, Distinct, Extended, Down, BlankTable, SlotsApart;
    NewPlaceApart(frames, s, k, full, t);
    var s', g := NewPlace(s, k, full, t), Grown(frames, s.sp, full, t);
    forall l | l in s'.slots && l != k ensures EntryIs(SetEntry(g, s'.slots[k], SharedLeaf(pages[k].frame)), s'.slots[l], SharedLeaf(pages[l].frame)) {
      SlotKnown(s, l);
      SlotTable(frames, s.sp, CountsOf(s), s.slots[l], Places(s));
      assert EntryIs(g, s.slots[l], SharedLeaf(pages[l].frame));
      SetOther(g, s'.sp, s'.slots[k], s.slots[l], Places(s'), SharedLeaf(pages[k].frame), SharedLeaf(pages[l].frame));
    }
  }
}
