/**
  Reference-counted shared pages (`src/kernel/process/memory_api.c`): the state, what
  every operation keeps, and what that means for translation.
  */
module SharedState {
  import opened Common
  import opened PageTables
  import opened FrameAllocator
  import opened AddressSpace
  import opened ProcessMemory

  type Pid = int
  type Key = string

  /** A place in a shared table: indices in the level-1 and level-0 tables, and the frame
      of the latter. */
  datatype Slot = Slot(lvl1: nat, lvl0: nat, table: nat)

  /** A process: its space, the shared pages it maps (also as the list kept for its end) and
      the places it has released; and the frames of its private pages, how many of them hold
      the image, and its scratch frame. */
  datatype Sharer = Sharer(sp: Space, slots: map<Key, Slot>, order: seq<Key>, holes: seq<Slot>,
                           data: seq<nat>, heap: seq<nat>, copies: nat, scratch: nat)

  /** A shared page: `usage` counts the processes that map it. */
  datatype SharedPage = SharedPage(frame: nat, usage: int)

  /** The entry of a mapped shared page. */
  function SharedLeaf(frame: nat): Pte { Configure(frame, true, true, false, true, Kilo) }

  /** The entry left by `shm_release`: valid, but without any permission. */
  function ReleasedEntry(): Pte { Configure(0, false, false, false, false, Kilo) }

  function Places(s: Sharer): nat { |s.slots| + |s.holes| }

  function CountsOf(s: Sharer): Counts { Counts(s.sp.stackShift, 1, Places(s)) }

  /** The slot is one of the first n entries of the shared tables. */
  predicate SlotIn(sp: Space, slot: Slot, n: nat) {
    && sp.stack + sp.heap + sp.shared == |sp.kids|
    && 256 <= slot.lvl1 < 256 + sp.shared && slot.lvl0 < 512
    && slot.table == sp.kids[sp.stack + sp.heap + (slot.lvl1 - 256)].table
    && 512 * (slot.lvl1 - 256) + slot.lvl0 < n
  }

  ghost predicate EntryIs(frames: map<nat, Frame>, slot: Slot, pte: Pte) {
    IsTable(frames, slot.table) && slot.lvl0 < PT_SIZE && frames[slot.table].ptes[slot.lvl0] == pte
  }

  /** The tables of a process lead to its shared tables. */
  ghost predicate TablesOk(frames: map<nat, Frame>, sp: Space, c: Counts) {
    && Reserved(sp, c)
    && IsTable(frames, sp.root) && frames[sp.root].ptes[USERSPACE] == Down(sp.lvl1) && Frameable(sp.lvl1)
    && Lvl1Is(frames, sp, sp.stack, sp.heap, sp.shared) && AllFrameable(Tables(sp.kids))
    && forall i :: 0 <= i < |sp.kids| ==> IsTable(frames, sp.kids[i].table)
  }

  /** The list of mapped pages holds each of them once. */
  ghost predicate OrderOk(slots: map<Key, Slot>, order: seq<Key>) {
    && (forall k :: k in slots <==> k in order)
    && Distinct(order)
  }

  /** Live slots and holes are places of the shared tables, all different. */
  ghost predicate SlotsApart(s: Sharer) {
    && (forall k :: k in s.slots ==> SlotIn(s.sp, s.slots[k], Places(s)))
    && (forall i :: 0 <= i < |s.holes| ==> SlotIn(s.sp, s.holes[i], Places(s)))
    && (forall k, l :: k in s.slots && l in s.slots && k != l ==> s.slots[k] != s.slots[l])
    && Distinct(s.holes)
    && (forall k :: k in s.slots ==> s.slots[k] !in s.holes)
    && OrderOk(s.slots, s.order)
  }

  /** Live slots map their pages, holes map nothing. */
  ghost predicate EntriesOk(frames: map<nat, Frame>, pages: map<Key, SharedPage>, s: Sharer) {
    && (forall k :: k in s.slots ==> k in pages && EntryIs(frames, s.slots[k], SharedLeaf(pages[k].frame)))
    && (forall i :: 0 <= i < |s.holes| ==> EntryIs(frames, s.holes[i], ReleasedEntry()))
  }

  /** The private pages are mapped as they were when the process was built. */
  ghost predicate PrivateOk(frames: map<nat, Frame>, s: Sharer) {
    && s.sp.stack + s.sp.heap + s.sp.shared == |s.sp.kids|
    && |s.data| == s.sp.stackShift > 0 && |s.heap| == 1 && AllFrameable(s.data) && AllFrameable(s.heap)
    && Filled(frames, Part(s.sp, StackCode), s.data, s.copies) && Filled(frames, Part(s.sp, Heap), s.heap, 0)
  }

  ghost predicate SharerOk(frames: map<nat, Frame>, pages: map<Key, SharedPage>, s: Sharer) {
    TablesOk(frames, s.sp, CountsOf(s)) && SlotsApart(s) && EntriesOk(frames, pages, s) && PrivateOk(frames, s)
  }

  /** The tables of a process. */
  function Own(sp: Space): seq<nat> { [sp.root, sp.lvl1] + Tables(sp.kids) }

  /** All frames of a process. */
  function All(s: Sharer): seq<nat> { s.data + s.heap + [s.scratch] + Own(s.sp) }

  function Mappers(procs: map<Pid, Sharer>, k: Key): set<Pid> {
    set p | p in procs && k in procs[p].slots
  }

  /** No frame has two uses. */
  ghost predicate FramesApart(procs: map<Pid, Sharer>, pages: map<Key, SharedPage>, free: seq<nat>) {
    && (forall p :: p in procs ==> Distinct(All(procs[p])) && Disjoint(All(procs[p]), free))
    && (forall p, q :: p in procs && q in procs && p != q ==> Disjoint(All(procs[p]), All(procs[q])))
    && (forall k :: k in pages ==> pages[k].frame !in free)
    && (forall k, p :: k in pages && p in procs ==> pages[k].frame !in All(procs[p]))
    && (forall k, l :: k in pages && l in pages && k != l ==> pages[k].frame != pages[l].frame)
  }

  /** The usage of a page is the number of processes that map it. */
  ghost predicate UsageOk(procs: map<Pid, Sharer>, pages: map<Key, SharedPage>) {
    forall k :: k in pages ==> pages[k].usage == |Mappers(procs, k)|
  }

  ghost predicate PagesOk(low: nat, high: nat, pages: map<Key, SharedPage>) {
    high < PHYSICAL_LIMIT && forall k :: k in pages ==> Releasable(low, high, pages[k].frame)
  }

  /** All frames of processes are frames of the allocator. */
  ghost predicate InRange(low: nat, high: nat, procs: map<Pid, Sharer>) {
    forall p :: p in procs ==> AllIn(low, high, All(procs[p]))
  }

  ghost predicate AllIn(low: nat, high: nat, s: seq<nat>) {
    forall i :: 0 <= i < |s| ==> Releasable(low, high, s[i])
  }

  /** Everything but that pages are in use. */
  ghost predicate SharingOk(low: nat, high: nat, frames: map<nat, Frame>, free: seq<nat>, procs: map<Pid, Sharer>, pages: map<Key, SharedPage>) {
    && (forall p :: p in procs ==> SharerOk(frames, pages, procs[p]))
    && FramesApart(procs, pages, free) && UsageOk(procs, pages) && PagesOk(low, high, pages) && InRange(low, high, procs)
  }

  ghost predicate AllUsed(pages: map<Key, SharedPage>) {
    forall k :: k in pages ==> pages[k].usage > 0
  }

  // ----- what the invariant means -----

  /** `map_address_for_process` of a slot. */
  function SlotAddress(slot: Slot): nat { MapAddress(USERSPACE, slot.lvl1, slot.lvl0) }

  lemma WalkSlot(frames: map<nat, Frame>, sp: Space, c: Counts, slot: Slot, n: nat, off: nat)
    requires TablesOk(frames, sp, c) && SlotIn(sp, slot, n) && off < FRAME_SIZE
    ensures Walk(frames, sp.root, SlotAddress(slot) + off) == WalkFrom(frames, slot.table, 0, SlotAddress(slot) + off)
    ensures Vpn(SlotAddress(slot) + off, 0) == slot.lvl0 && (SlotAddress(slot) + off) % KILO_SIZE == off
  {
    hide Walk, WalkFrom, Reserved, Down;
    ExtendsKnown(sp, c);
    var x := slot.lvl1;
    VpnOf(x, slot.lvl0, off);
    WalkLvl1(frames, sp, x, slot.lvl0, off);
    assert frames[sp.lvl1].ptes[x] == Lvl1Entry(sp, sp.stack, sp.heap, sp.shared, x);
    assert Tables(sp.kids)[sp.stack + sp.heap + (x - 256)] == slot.table;
  }

  /** Over every reachable state: the address a process got for a shared page translates to
      that page, readable and writable. */
  lemma SharedTranslates(low: nat, high: nat, frames: map<nat, Frame>, free: seq<nat>, procs: map<Pid, Sharer>, pages: map<Key, SharedPage>,
                         p: Pid, k: Key, off: nat)
    requires SharingOk(low, high, frames, free, procs, pages) && p in procs && k in procs[p].slots && off < FRAME_SIZE
    ensures k in pages
    ensures Walk(frames, procs[p].sp.root, SlotAddress(procs[p].slots[k]) + off) == Page(pages[k].frame + off, true, true, false)
  {
    hide Walk, TablesOk, FramesApart, UsageOk;
    var s := procs[p];
    assert SharerOk(frames, pages, s);
    WalkSlot(frames, s.sp, CountsOf(s), s.slots[k], Places(s), off);
    EntryRoundTrip(pages[k].frame, true, true, false, true);
  }

  /** Over every reachable state: a released address does not translate, although its entry
      is valid, because at level 0 an entry without permissions is not a page. */
  lemma HoleFaults(low: nat, high: nat, frames: map<nat, Frame>, free: seq<nat>, procs: map<Pid, Sharer>, pages: map<Key, SharedPage>,
                   p: Pid, i: nat, off: nat)
    requires SharingOk(low, high, frames, free, procs, pages) && p in procs && i < |procs[p].holes| && off < FRAME_SIZE
    ensures Walk(frames, procs[p].sp.root, SlotAddress(procs[p].holes[i]) + off) == Fault
    ensures var h := procs[p].holes[i]; IsTable(frames, h.table) && h.lvl0 < PT_SIZE && frames[h.table].ptes[h.lvl0].valid
  {
    hide Walk, TablesOk, FramesApart, UsageOk;
    var s := procs[p];
    assert SharerOk(frames, pages, s);
    WalkSlot(frames, s.sp, CountsOf(s), s.holes[i], Places(s), off);
  }
}
