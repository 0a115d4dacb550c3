/**
  The address space of a process: its level-2 and level-1 tables, the list of level-0
  tables kept beside them, and what the page walk makes of it
  (`src/kernel/process/process_memory.c`).
  */
module AddressSpace {
  import opened Common
  import opened PageTables

  const USERSPACE := 1
  const USERSPACE_ADDRESS := 0x4000_0000
  const HEAP_ADDRESS := 0x5000_0000  // HEAP in sbrk.c
  const STACK_FRAME_SIZE := 128
  const HEAP_FRAME_SIZE := 128
  const SHARED_FRAME_SIZE := 256

  datatype Kind = StackCode | Heap | Shared

  /** The first index of a kind in the level-1 table. */
  function Start(k: Kind): nat {
    match k case StackCode => 0 case Heap => 128 case Shared => 256
  }

  function End(k: Kind): nat {
    match k case StackCode => 127 case Heap => 255 case Shared => 511
  }

  /** A level-0 table: its frame, its place in the level-1 table, the entries in use. */
  datatype Kid = Kid(table: nat, index: nat, usage: nat)

  /** The fields of a process that concern its memory; `kids` is the list from
      `head_page` to `tail_page`. */
  datatype Space = Space(root: nat, lvl1: nat, usage: nat, stack: nat, heap: nat, shared: nat, kids: seq<Kid>, stackShift: nat)

  function Tables(kids: seq<Kid>): (r: seq<nat>)
    ensures |r| == |kids|
    ensures forall i :: 0 <= i < |kids| ==> r[i] == kids[i].table
  {
    seq(|kids|, i requires 0 <= i < |kids| => kids[i].table)
  }

  // ----- reservations -----

  /** How many of `pages` pages fall into the i-th table. */
  function UsageOf(pages: nat, i: nat): int {
    if 512 * (i + 1) <= pages then 512 else pages - 512 * i
  }

  function TablesFor(pages: nat): nat { (pages + 511) / 512 }

  /** Consecutive tables holding `pages` pages, all but the last one full. */
  ghost predicate Region(ks: seq<Kid>, start: nat, pages: nat) {
    && |ks| == TablesFor(pages)
    && forall i :: 0 <= i < |ks| ==> ks[i].index == start + i && ks[i].usage == UsageOf(pages, i)
  }

  /** The number of pages of each kind. */
  datatype Counts = Counts(stack: nat, heap: nat, shared: nat)

  function Of(c: Counts, k: Kind): nat {
    match k case StackCode => c.stack case Heap => c.heap case Shared => c.shared
  }

  function OneMore(c: Counts, k: Kind): Counts {
    match k
    case StackCode => c.(stack := c.stack + 1)
    case Heap => c.(heap := c.heap + 1)
    case Shared => c.(shared := c.shared + 1)
  }

  /** The tables of a kind, in the list of all tables. */
  function From(sp: Space, k: Kind): nat {
    match k case StackCode => 0 case Heap => sp.stack case Shared => sp.stack + sp.heap
  }

  function To(sp: Space, k: Kind): nat {
    match k case StackCode => sp.stack case Heap => sp.stack + sp.heap case Shared => sp.stack + sp.heap + sp.shared
  }

  /** The tables of kind k. */
  function Part(sp: Space, k: Kind): seq<Kid>
    requires sp.stack + sp.heap + sp.shared == |sp.kids|
  {
    sp.kids[From(sp, k)..To(sp, k)]
  }

  ghost predicate Reserved(sp: Space, c: Counts) {
    && |sp.kids| == sp.usage == sp.stack + sp.heap + sp.shared
    && sp.stack <= STACK_FRAME_SIZE && sp.heap <= HEAP_FRAME_SIZE && sp.shared <= SHARED_FRAME_SIZE
    && forall k: Kind :: Region(Part(sp, k), Start(k), Of(c, k))
  }

  // ----- contents of the tables -----

  /** The entry that leads to a lower table. */
  function Down(table: nat): Pte { Configure(table, false, false, false, true, Kilo) }

  /** The entry of a page of the process. */
  function Leaf(frame: nat, exec: bool): Pte { Configure(frame, true, true, exec, true, Kilo) }

  /** The level-1 entry at index x once the first a, b and c tables of each kind are linked. */
  function Lvl1Entry(sp: Space, a: nat, b: nat, c: nat, x: nat): Pte
    requires sp.stack + sp.heap + sp.shared == |sp.kids| && a <= sp.stack && b <= sp.heap && c <= sp.shared
  {
    if x < 128 then if x < a then Down(sp.kids[x].table) else BLANK
    else if x < 256 then if x - 128 < b then Down(sp.kids[sp.stack + (x - 128)].table) else BLANK
    else if x - 256 < c then Down(sp.kids[sp.stack + sp.heap + (x - 256)].table) else BLANK
  }

  ghost predicate IsTable(frames: map<nat, Frame>, t: nat) {
    t in frames && frames[t].Table? && |frames[t].ptes| == PT_SIZE
  }

  ghost predicate Lvl1Is(frames: map<nat, Frame>, sp: Space, a: nat, b: nat, c: nat)
    requires sp.stack + sp.heap + sp.shared == |sp.kids| && a <= sp.stack && b <= sp.heap && c <= sp.shared
  {
    && IsTable(frames, sp.lvl1)
    && forall x :: 0 <= x < PT_SIZE ==> frames[sp.lvl1].ptes[x] == Lvl1Entry(sp, a, b, c, x)
  }

  /** Page j of a region: filled pages are read-write, the first `copies` also executable. */
  function PageEntry(data: seq<nat>, copies: nat, j: nat): Pte {
    if j < |data| then Leaf(data[j], j < copies) else BLANK
  }

  ghost predicate TableIs(frames: map<nat, Frame>, t: nat, base: nat, data: seq<nat>, copies: nat) {
    && IsTable(frames, t)
    && forall e :: 0 <= e < PT_SIZE ==> frames[t].ptes[e] == PageEntry(data, copies, base + e)
  }

  /** The tables ks hold the pages of `data` in order, and nothing else. */
  ghost predicate Filled(frames: map<nat, Frame>, ks: seq<Kid>, data: seq<nat>, copies: nat) {
    forall i :: 0 <= i < |ks| ==> TableIs(frames, ks[i].table, 512 * i, data, copies)
  }

  /** The number of frames the image is copied into: one more than needed when its size
      is a multiple of the frame size. */
  function Copies(size: int): nat {
    if size <= 0 then 0 else size / FRAME_SIZE + 1
  }

  /** The pages that hold a copy of the image do, and those behind are cleared; the page
      on which copying stops is left as it was found. */
  ghost predicate Contents(frames: map<nat, Frame>, data: seq<nat>, size: int) {
    forall j :: 0 <= j < |data| ==>
      && data[j] in frames
      && (j < Copies(size) ==> frames[data[j]] == Copy(FRAME_SIZE * j))
      && (j > Copies(size) || size == 0 ==> frames[data[j]] == Zero)
  }

  /** A complete address space without shared pages. */
  ghost predicate Built(frames: map<nat, Frame>, sp: Space, data: seq<nat>, heap: seq<nat>, size: int) {
    && Reserved(sp, Counts(|data|, |heap|, 0))
    && IsTable(frames, sp.root) && frames[sp.root].ptes[USERSPACE] == Down(sp.lvl1)
    && Lvl1Is(frames, sp, sp.stack, sp.heap, 0)
    && Filled(frames, Part(sp, StackCode), data, Copies(size))
    && Filled(frames, Part(sp, Heap), heap, 0)
    && Contents(frames, data, size)
  }

  /** Addresses a page table entry can hold. */
  predicate Frameable(f: nat) { f % FRAME_SIZE == 0 && f < PHYSICAL_LIMIT }

  ghost predicate AllFrameable(s: seq<nat>) { forall i :: 0 <= i < |s| ==> Frameable(s[i]) }

  // ----- the walk over a built space -----

  lemma VpnOf(x: nat, e: nat, off: nat)
    requires x < 512 && e < 512 && off < FRAME_SIZE
    ensures var va := USERSPACE_ADDRESS + MEGA_SIZE * x + KILO_SIZE * e + off;
            Vpn(va, 2) == USERSPACE && Vpn(va, 1) == x && Vpn(va, 0) == e && va % KILO_SIZE == off
  {
    var va := USERSPACE_ADDRESS + MEGA_SIZE * x + KILO_SIZE * e + off;
    assert va / GIGA_SIZE == 1;
    assert va / MEGA_SIZE == 512 + x;
    assert va / KILO_SIZE == 512 * (512 + x) + e;
    Remainder(512 + x, 512, 1, x);
    Remainder(512 * (512 + x) + e, 512, 512 + x, e);
    Remainder(va, KILO_SIZE, 512 * (512 + x) + e, off);
  }

  /** Walking through an entry of the level-1 table. */
  lemma WalkLvl1(frames: map<nat, Frame>, sp: Space, x: nat, e: nat, off: nat)
    requires x < 512 && e < 512 && off < FRAME_SIZE
    requires IsTable(frames, sp.root) && frames[sp.root].ptes[USERSPACE] == Down(sp.lvl1) && Frameable(sp.lvl1)
    requires IsTable(frames, sp.lvl1)
    ensures var va := USERSPACE_ADDRESS + MEGA_SIZE * x + KILO_SIZE * e + off;
            && (frames[sp.lvl1].ptes[x] == BLANK ==> Walk(frames, sp.root, va) == Fault)
            && (forall t :: Frameable(t) && frames[sp.lvl1].ptes[x] == Down(t) ==>
                  Walk(frames, sp.root, va) == WalkFrom(frames, t, 0, va))
  {
    VpnOf(x, e, off);
    EntryRoundTrip(sp.lvl1, false, false, false, true);
    forall t | Frameable(t) && frames[sp.lvl1].ptes[x] == Down(t) ensures PteAddress(Down(t)) == t {
      EntryRoundTrip(t, false, false, false, true);
    }
  }

  lemma WalkPage(frames: map<nat, Frame>, t: nat, x: nat, e: nat, off: nat, base: nat, data: seq<nat>, copies: nat)
    requires x < 512 && e < 512 && off < FRAME_SIZE && TableIs(frames, t, base, data, copies) && AllFrameable(data)
    ensures var va := USERSPACE_ADDRESS + MEGA_SIZE * x + KILO_SIZE * e + off;
            WalkFrom(frames, t, 0, va) ==
            if base + e < |data| then Page(data[base + e] + off, true, true, base + e < copies) else Fault
  {
    VpnOf(x, e, off);
    if base + e < |data| {
      EntryRoundTrip(data[base + e], true, true, base + e < copies, true);
      assert Frameable(data[base + e]);
    }
  }

  /** The page of the user gigabyte an address falls into. */
  function PageNumber(va: nat): nat
    requires USERSPACE_ADDRESS <= va < 2 * USERSPACE_ADDRESS
  {
    (va - USERSPACE_ADDRESS) / FRAME_SIZE
  }

  /** The page number of the first heap page. */
  const HEAP_PAGE := (HEAP_ADDRESS - USERSPACE_ADDRESS) / FRAME_SIZE

  /** What an address of the user gigabyte should translate to. */
  function Intended(data: seq<nat>, heap: seq<nat>, copies: nat, va: nat): Translation
    requires USERSPACE_ADDRESS <= va < 2 * USERSPACE_ADDRESS
  {
    var p, off := PageNumber(va), va % FRAME_SIZE;
    if p < |data| then Page(data[p] + off, true, true, p < copies)
    else if HEAP_PAGE <= p < HEAP_PAGE + |heap| then Page(heap[p - HEAP_PAGE] + off, true, true, false)
    else Fault
  }

  lemma SplitAddress(va: nat) returns (x: nat, e: nat, off: nat)
    requires USERSPACE_ADDRESS <= va < 2 * USERSPACE_ADDRESS
    ensures x < 512 && e < 512 && off < FRAME_SIZE && va == USERSPACE_ADDRESS + MEGA_SIZE * x + KILO_SIZE * e + off
    ensures PageNumber(va) == 512 * x + e && va % FRAME_SIZE == off
  {
    var p := PageNumber(va);
    x, e, off := p / 512, p % 512, (va - USERSPACE_ADDRESS) % FRAME_SIZE;
    Remainder(va, FRAME_SIZE, USERSPACE_ADDRESS / FRAME_SIZE + p, off);
  }

  ghost predicate SpaceFrames(sp: Space, data: seq<nat>, heap: seq<nat>) {
    Frameable(sp.lvl1) && AllFrameable(Tables(sp.kids)) && AllFrameable(data) && AllFrameable(heap)
  }

  /** The page walk over a built space translates every address of the user gigabyte to
      the intended page, and faults on all others. */
  lemma WalkBuilt(frames: map<nat, Frame>, sp: Space, data: seq<nat>, heap: seq<nat>, size: int, va: nat)
    requires Built(frames, sp, data, heap, size) && SpaceFrames(sp, data, heap)
    requires USERSPACE_ADDRESS <= va < 2 * USERSPACE_ADDRESS
    ensures Walk(frames, sp.root, va) == Intended(data, heap, Copies(size), va)
  {
    hide Walk, WalkFrom, Down, Contents, Filled, Frameable, AllFrameable, UsageOf;
    var x, e, off := SplitAddress(va);
    WalkLvl1(frames, sp, x, e, off);
    assert frames[sp.lvl1].ptes[x] == Lvl1Entry(sp, sp.stack, sp.heap, 0, x);
    assert Region(Part(sp, StackCode), 0, Of(Counts(|data|, |heap|, 0), StackCode));
    assert Region(Part(sp, Heap), 128, Of(Counts(|data|, |heap|, 0), Heap));
    if x < 128 {
      if x < sp.stack {
        WalkStack(frames, sp, data, heap, size, x, e, off);
      }
    } else if x < 256 {
      if x - 128 < sp.heap {
        WalkHeap(frames, sp, data, heap, size, x - 128, e, off);
      }
    }
  }

  lemma WalkStack(frames: map<nat, Frame>, sp: Space, data: seq<nat>, heap: seq<nat>, size: int, x: nat, e: nat, off: nat)
    requires Built(frames, sp, data, heap, size) && SpaceFrames(sp, data, heap)
    requires x < sp.stack && e < 512 && off < FRAME_SIZE
    ensures var j := 512 * x + e;
            Walk(frames, sp.root, USERSPACE_ADDRESS + MEGA_SIZE * x + KILO_SIZE * e + off) ==
            if j < |data| then Page(data[j] + off, true, true, j < Copies(size)) else Fault
  {
    hide Walk, WalkFrom, Configure, Contents, Region, Frameable;
    var ks := Part(sp, StackCode);
    assert ks[x] == sp.kids[x] && Tables(sp.kids)[x] == ks[x].table;
    assert TableIs(frames, ks[x].table, 512 * x, data, Copies(size));
    assert frames[sp.lvl1].ptes[x] == Lvl1Entry(sp, sp.stack, sp.heap, 0, x);
    WalkLvl1(frames, sp, x, e, off);
    WalkPage(frames, ks[x].table, x, e, off, 512 * x, data, Copies(size));
  }

  lemma WalkHeap(frames: map<nat, Frame>, sp: Space, data: seq<nat>, heap: seq<nat>, size: int, y: nat, e: nat, off: nat)
    requires Built(frames, sp, data, heap, size) && SpaceFrames(sp, data, heap)
    requires y < sp.heap && e < 512 && off < FRAME_SIZE
    ensures var j := 512 * y + e;
            Walk(frames, sp.root, USERSPACE_ADDRESS + MEGA_SIZE * (128 + y) + KILO_SIZE * e + off) ==
            if j < |heap| then Page(heap[j] + off, true, true, false) else Fault
  {
    hide Walk, WalkFrom, Configure, Contents, Region, Frameable;
    var ks := Part(sp, Heap);
    assert ks[y] == sp.kids[sp.stack + y] && Tables(sp.kids)[sp.stack + y] == ks[y].table;
    assert TableIs(frames, ks[y].table, 512 * y, heap, 0);
    assert frames[sp.lvl1].ptes[128 + y] == Lvl1Entry(sp, sp.stack, sp.heap, 0, 128 + y);
    WalkLvl1(frames, sp, 128 + y, e, off);
    WalkPage(frames, ks[y].table, 128 + y, e, off, 512 * y, heap, 0);
  }

  /** Byte i of the application image is at 0x40000000 + i, in an executable page. */
  lemma ImageInPlace(frames: map<nat, Frame>, sp: Space, data: seq<nat>, heap: seq<nat>, size: int, i: nat)
    requires Built(frames, sp, data, heap, size) && SpaceFrames(sp, data, heap)
    requires i < size <= FRAME_SIZE * |data|
    ensures var f := i / FRAME_SIZE;
            && f < |data|
            && Walk(frames, sp.root, USERSPACE_ADDRESS + i) == Page(data[f] + i % FRAME_SIZE, true, true, true)
            && data[f] in frames && frames[data[f]].Copy? && frames[data[f]].from + i % FRAME_SIZE == i
  {
    var va := USERSPACE_ADDRESS + i;
    assert Region(Part(sp, StackCode), Start(StackCode), Of(Counts(|data|, |heap|, 0), StackCode));
    WalkBuilt(frames, sp, data, heap, size, va);
    Remainder(va, FRAME_SIZE, USERSPACE_ADDRESS / FRAME_SIZE + i / FRAME_SIZE, i % FRAME_SIZE);
  }

  /** Different mapped pages lie in different frames. */
  lemma DifferentPages(frames: map<nat, Frame>, sp: Space, data: seq<nat>, heap: seq<nat>, size: int, va: nat, vb: nat)
    requires Built(frames, sp, data, heap, size) && SpaceFrames(sp, data, heap) && Distinct(data + heap)
    requires USERSPACE_ADDRESS <= va < 2 * USERSPACE_ADDRESS && USERSPACE_ADDRESS <= vb < 2 * USERSPACE_ADDRESS
    requires PageNumber(va) != PageNumber(vb) && Walk(frames, sp.root, va).Page? && Walk(frames, sp.root, vb).Page?
    ensures Walk(frames, sp.root, va).address - va % FRAME_SIZE != Walk(frames, sp.root, vb).address - vb % FRAME_SIZE
  {
    hide Built, SpaceFrames, Walk, Distinct;
    WalkBuilt(frames, sp, data, heap, size, va);
    WalkBuilt(frames, sp, data, heap, size, vb);
    var s := data + heap;
    var i, j := Position(data, heap, PageNumber(va)), Position(data, heap, PageNumber(vb));
    DistinctPlaces(s, i, j);
  }

  /** Where the frame of a mapped page is in the list of all frames. */
  function Position(data: seq<nat>, heap: seq<nat>, p: nat): (i: nat)
    requires p < |data| || HEAP_PAGE <= p < HEAP_PAGE + |heap|
    ensures i < |data| + |heap| && (data + heap)[i] == if p < |data| then data[p] else heap[p - HEAP_PAGE]
  {
    if p < |data| then p else |data| + (p - HEAP_PAGE)
  }

  lemma DistinctPlaces(s: seq<nat>, i: nat, j: nat)
    requires Distinct(s) && i < |s| && j < |s| && i != j
    ensures s[i] != s[j]
  {}
}
