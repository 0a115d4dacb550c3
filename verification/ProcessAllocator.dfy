/**
  `process_memory_allocator` (`src/kernel/process/process_memory.c`): when it succeeds,
  and what it has built then.
  */
module ProcessAllocator {
  import opened Common
  import opened PageTables
  import opened FrameAllocator
  import opened AddressSpace
  import opened ProcessMemory
  import opened ProcessBuild

  /** Pages taken by the `do … while` loops of `add_frames_process`: at least one. */
  function PagesFor(size: int): nat {
    if size <= 0 then 1 else (size + FRAME_SIZE - 1) / FRAME_SIZE
  }

  function AddMany(c: Counts, k: Kind, p: nat): Counts {
    match k
    case StackCode => c.(stack := c.stack + p)
    case Heap => c.(heap := c.heap + p)
    case Shared => c.(shared := c.shared + p)
  }

  function CountOf(sp: Space, k: Kind): nat {
    match k case StackCode => sp.stack case Heap => sp.heap case Shared => sp.shared
  }

  function Limit(k: Kind): nat {
    match k case StackCode => STACK_FRAME_SIZE case Heap => HEAP_FRAME_SIZE case Shared => SHARED_FRAME_SIZE
  }

  /** The kinds other than k have not reached their limits: `add_child_node_page_table`
      checks all three limits whatever it is asked for. */
  predicate OthersRoom(sp: Space, k: Kind) {
    && (!k.StackCode? ==> sp.stack < STACK_FRAME_SIZE)
    && (!k.Heap? ==> sp.heap < HEAP_FRAME_SIZE)
    && (!k.Shared? ==> sp.shared < SHARED_FRAME_SIZE)
  }

  /** New tables needed for p more pages. */
  function Need(have: nat, p: nat): int { TablesFor(have + p) - TablesFor(have) }

  lemma NeedStep(have: nat, p: nat)
    ensures Need(have, p + 1) == Need(have, p) + if (have + p) % 512 == 0 then 1 else 0
    ensures Need(have, 0) == 0
  {
    var q, r := TablesKnown(have + p);
    var q', r' := TablesKnown(have + p + 1);
  }

  lemma {:induction false} NeedMore(have: nat, p: nat, n: nat)
    requires p <= n
    ensures Need(have, p) <= Need(have, n)
    decreases n
  {
    if p < n {
      NeedMore(have, p, n - 1);
      NeedStep(have, n - 1);
    }
  }

  predicate Affordable(sp: Space, k: Kind, need: int, free: nat) {
    need == 0 || (OthersRoom(sp, k) && CountOf(sp, k) + need <= Limit(k) && free > need)
  }

  /** The tables `added` have been appended, blank, and nothing else has changed. */
  ghost predicate Appended(sp0: Space, sp: Space, was: map<nat, Frame>, now: map<nat, Frame>, added: seq<nat>) {
    && Tables(sp.kids) == Tables(sp0.kids) + added
    && (forall t :: t in added ==> t in now && now[t] == BlankTable())
    && (forall f :: f in was ==> f in now && (f !in added ==> now[f] == was[f]))
    && sp.root == sp0.root && sp.lvl1 == sp0.lvl1
  }

  lemma AppendedSame(sp0: Space, sp: Space, sp': Space, was: map<nat, Frame>, now: map<nat, Frame>, added: seq<nat>, k: Kind)
    requires Appended(sp0, sp, was, now, added) && 0 < To(sp, k) <= |sp.kids| && sp' == Extended(sp, k, false, 0)
    ensures Appended(sp0, sp', was, now, added) && forall l: Kind :: CountOf(sp', l) == CountOf(sp, l)
  {
    assert Tables(sp'.kids) == Tables(sp.kids);
  }

  lemma AppendedMore(sp0: Space, sp: Space, sp': Space, was: map<nat, Frame>, now: map<nat, Frame>, now': map<nat, Frame>, added: seq<nat>, k: Kind, t: nat)
    requires Appended(sp0, sp, was, now, added) && sp' == Extended(sp, k, true, t) && now' == now[t := BlankTable()]
    ensures Appended(sp0, sp', was, now', added + [t])
    ensures forall l: Kind :: CountOf(sp', l) == CountOf(sp, l) + if l == k then 1 else 0
  {
    assert Tables(sp'.kids) == Tables(sp.kids) + [t];
  }

  /** Everything known after p pages of kind k have been reserved in sp0. */
  ghost predicate Reserving(sp0: Space, sp: Space, c: Counts, k: Kind, p: nat, was: map<nat, Frame>, now: map<nat, Frame>, added: seq<nat>) {
    && Reserved(sp, AddMany(c, k, p)) && Appended(sp0, sp, was, now, added)
    && |added| == Need(Of(c, k), p)
    && sp.stackShift == sp0.stackShift + (if k.StackCode? then p else 0)
    && forall l: Kind :: CountOf(sp, l) == CountOf(sp0, l) + if l == k then |added| else 0
  }

  lemma ReservingStart(sp: Space, c: Counts, k: Kind, frames: map<nat, Frame>)
    requires Reserved(sp, c)
    ensures Reserving(sp, sp, c, k, 0, frames, frames, [])
  {
    hide Reserved, Appended;
    NeedStep(Of(c, k), 0);
    AppendedNothing(sp, frames);
    assert AddMany(c, k, 0) == c;
  }

  lemma ReservingStep(sp0: Space, sp: Space, c: Counts, k: Kind, p: nat, was: map<nat, Frame>, now: map<nat, Frame>, added: seq<nat>, t: nat, sp': Space, now': map<nat, Frame>)
    requires Reserving(sp0, sp, c, k, p, was, now, added) && InOrder(c, k)
    requires var full := (Of(c, k) + p) % 512 == 0;
             && (full ==> Room(sp)) && (!full ==> 0 < To(sp, k) <= |sp.kids|)
             && sp' == Extended(sp, k, full, t) && now' == if full then now[t := BlankTable()] else now
    ensures var more := if (Of(c, k) + p) % 512 == 0 then [t] else [];
            Reserving(sp0, sp'.(stackShift := sp'.stackShift + if k.StackCode? then 1 else 0), c, k, p + 1, was, now', added + more)
  {
    hide Reserved, Appended, TablesFor, Need, Extended;
    NeedStep(Of(c, k), p);
    var d := AddMany(c, k, p);
    assert OneMore(d, k) == AddMany(c, k, p + 1) && Of(d, k) == Of(c, k) + p;
    ExtendedReserved(sp, d, k, t);
    ShiftKept(sp, k, (Of(c, k) + p) % 512 == 0, t);
    var shift := sp'.stackShift + if k.StackCode? then 1 else 0;
    if (Of(c, k) + p) % 512 == 0 {
      AppendedMore(sp0, sp, sp', was, now, now', added, k, t);
      AppendedShift(sp0, sp', was, now', added + [t], shift);
    } else {
      TableIrrelevant(sp, k, t);
      AppendedSame(sp0, sp, sp', was, now, added, k);
      AppendedShift(sp0, sp', was, now', added, shift);
      assert added + [] == added;
    }
    Shifted(sp', OneMore(d, k), shift);
  }

  lemma ShiftKept(sp: Space, k: Kind, full: bool, t: nat)
    requires !full ==> 0 < To(sp, k) <= |sp.kids|
    ensures Extended(sp, k, full, t).stackShift == sp.stackShift
  {}

  lemma TableIrrelevant(sp: Space, k: Kind, t: nat)
    requires 0 < To(sp, k) <= |sp.kids|
    ensures Extended(sp, k, false, t) == Extended(sp, k, false, 0)
  {}

  /** One iteration of the loops of `add_frames_process`. */
  method ReserveOne(m: FrameList, sp0: Space, sp1: Space, k: Kind, ghost c: Counts, ghost p: nat, ghost was: map<nat, Frame>, ghost added1: seq<nat>)
    returns (ok: bool, sp: Space, ghost added: seq<nat>)
    requires m.Valid() && InOrder(c, k) && Reserving(sp0, sp1, c, k, p, was, m.frames, added1)
    modifies m
    ensures m.Valid()
    ensures ok <==> (Of(c, k) + p) % 512 != 0 || (Room(sp1) && |old(m.free)| > 1)
    ensures ok ==> Reserving(sp0, sp, c, k, p + 1, was, m.frames, added) && added1 + old(m.free) == added + m.free
  {
    hide Reserving, Extended, Reserved;
    ghost var d := AddMany(c, k, p);
    ReservingKnown(sp0, sp1, c, k, p, was, m.frames, added1);
    assert Of(d, k) == Of(c, k) + p && InOrder(d, k);
    ghost var now, free := m.frames, m.free;
    added := added1;
    ok, sp := AddFrame(m, sp1, k, d);
    if !ok { return; }
    ReservingStep(sp0, sp1, c, k, p, was, now, added1, if (Of(c, k) + p) % 512 == 0 then free[0] else 0, sp, m.frames);
    added := added1 + if (Of(c, k) + p) % 512 == 0 then [free[0]] else [];
    if k.StackCode? { sp := sp.(stackShift := sp.stackShift + 1); }
  }

  lemma ReservingKnown(sp0: Space, sp: Space, c: Counts, k: Kind, p: nat, was: map<nat, Frame>, now: map<nat, Frame>, added: seq<nat>)
    requires Reserving(sp0, sp, c, k, p, was, now, added)
    ensures Reserved(sp, AddMany(c, k, p)) && |added| == Need(Of(c, k), p)
    ensures Room(sp) <==> OthersRoom(sp0, k) && CountOf(sp0, k) + |added| < Limit(k)
  {
    hide Reserved, Need, TablesFor, Appended;
    RoomKnown(sp0, sp, k, AddMany(c, k, p), |added|);
  }

  lemma AffordStart(sp: Space, k: Kind, have: nat, free: nat)
    ensures Need(have, 0) == 0 && Affordable(sp, k, 0, free)
  {}

  /** Page p + 1 can be reserved exactly if the tables needed so far can be afforded. */
  lemma AffordStep(sp0: Space, k: Kind, have: nat, p: nat, n: nat, all: nat, free: nat, room: bool)
    requires p < n && all == Need(have, p) + free && free >= 1 && Affordable(sp0, k, Need(have, p), all)
    requires room <==> OthersRoom(sp0, k) && CountOf(sp0, k) + Need(have, p) < Limit(k)
    ensures (have + p) % 512 != 0 || (room && free > 1) ==> Affordable(sp0, k, Need(have, p + 1), all)
    ensures !((have + p) % 512 != 0 || (room && free > 1)) ==> !Affordable(sp0, k, Need(have, n), all)
  {
    hide Need;
    NeedStep(have, p);
    NeedMore(have, p + 1, n);
    NeedMore(have, 0, p);
    NeedStep(have, 0);
  }

  /** One of the loops of `add_frames_process`. */
  method Reserve(m: FrameList, sp0: Space, k: Kind, size: int, ghost c: Counts) returns (ok: bool, sp: Space, ghost added: seq<nat>)
    requires m.Valid() && Reserved(sp0, c) && InOrder(c, k) && !k.Shared?
    modifies m
    ensures m.Valid()
    ensures ok <==> Affordable(sp0, k, Need(Of(c, k), PagesFor(size)), |old(m.free)|)
    ensures ok ==> Reserving(sp0, sp, c, k, PagesFor(size), old(m.frames), m.frames, added) && old(m.free) == added + m.free
  {
    hide Reserved, Reserving, Need, Affordable, Room, OthersRoom, CountOf, Limit, Chain, Distinct, PagesFor;
    sp, added := sp0, [];
    var left := size;
    ghost var p, n := 0, PagesFor(size);
    ReservingStart(sp0, c, k, m.frames);
    AffordStart(sp0, k, Of(c, k), |m.free|);
    PagesLeft(size, 0);
    assert added + m.free == m.free;
    while true
      invariant m.Valid() && left == size - FRAME_SIZE * p && 0 <= p < n
      invariant Reserving(sp0, sp, c, k, p, old(m.frames), m.frames, added) && old(m.free) == added + m.free
      invariant |added| == Need(Of(c, k), p) && Affordable(sp0, k, |added|, |old(m.free)|)
      decreases n - p
    {
      ReservingKnown(sp0, sp, c, k, p, old(m.frames), m.frames, added);
      ChainKnown(m.frames, m.memPtr, m.free);
      AffordStep(sp0, k, Of(c, k), p, n, |old(m.free)|, |m.free|, Room(sp));
      ok, sp, added := ReserveOne(m, sp0, sp, k, c, p, old(m.frames), added);
      if !ok { return; }
      ReservingKnown(sp0, sp, c, k, p + 1, old(m.frames), m.frames, added);
      p := p + 1;
      PagesLeft(size, p);
      left := left - FRAME_SIZE;
      if left <= 0 { break; }
    }
  }

  lemma PagesLeft(size: int, p: nat)
    ensures PagesFor(size) >= 1
    ensures 1 <= p <= PagesFor(size) ==> (size - FRAME_SIZE * p <= 0 <==> p == PagesFor(size))
  {}

  lemma AppendedNothing(sp: Space, frames: map<nat, Frame>)
    ensures Appended(sp, sp, frames, frames, [])
  {
    assert Tables(sp.kids) + [] == Tables(sp.kids);
  }

  lemma AppendedShift(sp0: Space, sp: Space, was: map<nat, Frame>, now: map<nat, Frame>, added: seq<nat>, shift: nat)
    requires Appended(sp0, sp, was, now, added)
    ensures Appended(sp0, sp.(stackShift := shift), was, now, added)
  {}

  lemma Shifted(sp: Space, c: Counts, shift: nat)
    requires Reserved(sp, c)
    ensures Reserved(sp.(stackShift := shift), c)
  {
    hide Region;
    var sp' := sp.(stackShift := shift);
    forall k: Kind ensures Region(Part(sp', k), Start(k), Of(c, k)) {
      assert Region(Part(sp, k), Start(k), Of(c, k));
    }
  }

  /** The overall limit of the level-1 table is implied by those of the kinds. */
  lemma RoomKnown(sp0: Space, sp: Space, k: Kind, d: Counts, n: nat)
    requires Reserved(sp, d) && forall l: Kind :: CountOf(sp, l) == CountOf(sp0, l) + if l == k then n else 0
    ensures Room(sp) <==> OthersRoom(sp0, k) && CountOf(sp0, k) + n < Limit(k)
  {
    assert CountOf(sp, StackCode) == CountOf(sp0, StackCode) + if StackCode == k then n else 0;
    assert CountOf(sp, Heap) == CountOf(sp0, Heap) + if Heap == k then n else 0;
    assert CountOf(sp, Shared) == CountOf(sp0, Shared) + if Shared == k then n else 0;
  }

  // ----- the whole allocation -----

  /** Frames taken by a process of n code and stack pages: two upper tables, the level-0
      tables with one for the heap, the pages, and one heap page. */
  function FramesFor(n: nat): nat { 2 + TablesFor(n) + 1 + n + 1 }

  /** When `process_memory_allocator` succeeds. The heap needs a table while the stack has
      fewer than 128 of them, and the last free frame is never handed out. */
  predicate Allocates(size: nat, app: Option<int>, free: nat) {
    && size <= GIGA_SIZE && app.Some?
    && var n := PagesFor(app.value) + PagesFor(size);
    && TablesFor(n) < STACK_FRAME_SIZE
    && free > FramesFor(n)
  }

  /** All tables are there, but no entry of the level-1 table or below is set. */
  ghost predicate Bare(frames: map<nat, Frame>, sp: Space, free: seq<nat>) {
    && sp.stack + sp.heap + sp.shared == |sp.kids|
    && sp.lvl1 in frames && frames[sp.lvl1] == BlankTable()
    && (forall t :: t in Tables(sp.kids) ==> t in frames && frames[t] == BlankTable())
    && IsTable(frames, sp.root) && frames[sp.root].ptes[USERSPACE] == Down(sp.lvl1)
    && Separate(sp, free) && Distinct([sp.root, sp.lvl1] + Tables(sp.kids) + free)
  }

  lemma BareFilled(frames: map<nat, Frame>, sp: Space, free: seq<nat>, k: Kind, copies: nat)
    requires Bare(frames, sp, free)
    ensures Filled(frames, Part(sp, k), [], copies)
  {
    var ks := Part(sp, k);
    forall i | 0 <= i < |ks| ensures TableIs(frames, ks[i].table, 512 * i, [], copies) {
      assert Tables(sp.kids)[From(sp, k) + i] == ks[i].table;
    }
  }

  lemma BareLinked(frames: map<nat, Frame>, sp: Space, free: seq<nat>)
    requires Bare(frames, sp, free)
    ensures LinkedUpTo(frames, sp, StackCode, 0)
  {}

  /** Reserving more tables keeps a bare space bare. */
  lemma BareReserve(was: map<nat, Frame>, now: map<nat, Frame>, sp: Space, sp': Space, added: seq<nat>, free: seq<nat>)
    requires Bare(was, sp, added + free) && Appended(sp, sp', was, now, added)
    requires sp'.stack + sp'.heap + sp'.shared == |sp'.kids|
    ensures Bare(now, sp', free)
  {
    hide Down;
    assert [sp.root, sp.lvl1] + Tables(sp.kids) + (added + free) == [sp'.root, sp'.lvl1] + Tables(sp'.kids) + free;
    assert [sp.lvl1] + Tables(sp.kids) + (added + free) == [sp'.lvl1] + Tables(sp'.kids) + free;
    var s := [sp.root, sp.lvl1] + Tables(sp.kids) + (added + free);
    assert s[0] == sp.root && s[1] == sp.lvl1;
    assert forall i :: 0 <= i < |added| ==> s[2 + |sp.kids| + i] == added[i];
    forall t | t in Tables(sp'.kids) ensures t in now && now[t] == BlankTable() {
      if t !in added { assert t in Tables(sp.kids); }
    }
  }

  /** A region does not notice that the frames of others change. */
  lemma RegionKept(was: map<nat, Frame>, now: map<nat, Frame>, ks: seq<Kid>, data: seq<nat>, size: int, copies: nat, lvl1: nat, others: seq<Kid>, pages: seq<nat>)
    requires Filled(was, ks, data, copies) && OnlyChanged(was, now, lvl1, others, pages)
    requires Disjoint([lvl1], Tables(ks)) && Disjoint(Tables(others), Tables(ks)) && Disjoint(Tables(ks), pages)
    requires Disjoint([lvl1], data) && Disjoint(Tables(others), data) && Disjoint(data, pages)
    ensures Filled(now, ks, data, copies)
    ensures Contents(was, data, size) ==> Contents(now, data, size)
  {
    hide PageEntry, Copies;
    forall i | 0 <= i < |ks| ensures TableIs(now, ks[i].table, 512 * i, data, copies) {
      assert TableIs(was, ks[i].table, 512 * i, data, copies);
      Elsewhere([lvl1], Tables(others), pages, Tables(ks), i);
      assert ks[i].table != [lvl1][0];
    }
    forall i | 0 <= i < |data| ensures data[i] != lvl1 && data[i] !in Tables(others) && data[i] !in pages {
      Elsewhere([lvl1], Tables(others), pages, data, i);
      assert data[i] != [lvl1][0];
    }
  }

  lemma Elsewhere(a: seq<nat>, b: seq<nat>, c: seq<nat>, d: seq<nat>, i: nat)
    requires Disjoint(a, d) && Disjoint(b, d) && Disjoint(d, c) && i < |d|
    ensures d[i] !in a && d[i] !in b && d[i] !in c
  {}

  lemma PartTables(sp: Space, k: Kind)
    requires sp.stack + sp.heap + sp.shared == |sp.kids|
    ensures From(sp, k) <= To(sp, k) <= |sp.kids|
    ensures Tables(Part(sp, k)) == Tables(sp.kids)[From(sp, k)..To(sp, k)]
  {}

  /** The parts of the table list, the pages and the upper tables do not meet. */
  lemma SpaceApart(sp: Space, data: seq<nat>, k: Kind)
    requires sp.stack + sp.heap + sp.shared == |sp.kids|
    requires Distinct([sp.root, sp.lvl1] + Tables(sp.kids) + data)
    ensures Distinct(Tables(Part(sp, k)))
    ensures Disjoint([sp.root, sp.lvl1], Tables(Part(sp, k))) && Disjoint([sp.root, sp.lvl1], data)
    ensures Disjoint(Tables(Part(sp, k)), data)
  {
    hide Distinct, Disjoint, From, To, Part;
    var u, t := [sp.root, sp.lvl1], Tables(sp.kids);
    DistinctSplit(u + t, data);
    DistinctSplit(u, t);
    assert u + t + data == u + (t + data);
    DistinctSplit(u, t + data);
    DisjointSum(u, t, data);
    DistinctSplit(t, data);
    PartTables(sp, k);
    DisjointParts(u, t, 0, 2, From(sp, k), To(sp, k));
    DisjointParts(t, data, From(sp, k), To(sp, k), 0, |data|);
    assert data[0..|data|] == data && u[0..2] == u;
    SliceDistinct(t, From(sp, k), To(sp, k));
  }

  lemma SliceDistinct(s: seq<nat>, i: nat, j: nat)
    requires Distinct(s) && i <= j <= |s|
    ensures Distinct(s[i..j])
  {}

  lemma PartsApart(sp: Space, k: Kind, l: Kind)
    requires sp.stack + sp.heap + sp.shared == |sp.kids| && Distinct(Tables(sp.kids)) && k != l
    ensures Disjoint(Tables(Part(sp, k)), Tables(Part(sp, l)))
  {
    hide Part;
    PartTables(sp, k);
    PartTables(sp, l);
    assert To(sp, k) <= From(sp, l) || To(sp, l) <= From(sp, k);
  }

  /** After both regions are filled the space is complete. */
  lemma BothFilled(f0: map<nat, Frame>, f1: map<nat, Frame>, f2: map<nat, Frame>, sp: Space, data: seq<nat>, heap: seq<nat>, free: seq<nat>, size: int)
    requires Reserved(sp, Counts(|data|, |heap|, 0)) && Bare(f0, sp, data + (heap + free))
    requires Filling(f0, f1, sp, StackCode, sp.stack, data, size) && Filling(f1, f2, sp, Heap, sp.heap, heap, 0)
    ensures Built(f2, sp, data, heap, size)
  {
    hide PageEntry, Copies, Lvl1Entry, Region, Reserved, Down, Distinct, Disjoint, Filled, Contents;
    ExtendsKnown(sp, Counts(|data|, |heap|, 0));
    AllApart(sp, data, heap, free);
    RegionKept(f1, f2, Part(sp, StackCode), data, size, Copies(size), sp.lvl1, Part(sp, Heap), heap);
    RootKept(f0, f1, sp, Part(sp, StackCode), data);
    RootKept(f1, f2, sp, Part(sp, Heap), heap);
    ZeroCopies();
  }

  lemma AllApart(sp: Space, data: seq<nat>, heap: seq<nat>, free: seq<nat>)
    requires sp.stack + sp.heap + sp.shared == |sp.kids|
    requires Distinct([sp.root, sp.lvl1] + Tables(sp.kids) + (data + (heap + free)))
    ensures var a, b := Tables(Part(sp, StackCode)), Tables(Part(sp, Heap));
            && Disjoint([sp.lvl1], a) && Disjoint(b, a) && Disjoint(a, heap)
            && Disjoint([sp.lvl1], data) && Disjoint(b, data) && Disjoint(data, heap)
            && Disjoint([sp.root, sp.lvl1], a) && Disjoint([sp.root, sp.lvl1], b)
            && Disjoint([sp.root, sp.lvl1], data) && Disjoint([sp.root, sp.lvl1], heap) && sp.root != sp.lvl1
  {
    hide Distinct, Disjoint, Part;
    var u, t, all := [sp.root, sp.lvl1], Tables(sp.kids), data + (heap + free);
    var a, b := Tables(Part(sp, StackCode)), Tables(Part(sp, Heap));
    SpaceApart(sp, all, StackCode);
    SpaceApart(sp, all, Heap);
    DistinctSplit(u + t, all);
    DistinctSplit(u, t);
    DistinctPair(sp.root, sp.lvl1);
    PartsApart(sp, Heap, StackCode);
    DisjointSum(a, data, heap + free);
    DisjointSum(a, heap, free);
    DisjointSum(b, data, heap + free);
    DisjointSum(u, data, heap + free);
    DisjointSum(u, heap, free);
    DistinctSplit(data, heap + free);
    DisjointSum(data, heap, free);
    DisjointParts(u, a, 1, 2, 0, |a|);
    DisjointParts(u, data, 1, 2, 0, |data|);
    assert u[1..2] == [sp.lvl1] && a[0..|a|] == a && data[0..|data|] == data;
  }

  lemma DistinctPair(x: nat, y: nat)
    requires Distinct([x, y])
    ensures x != y
  {
    assert [x, y][0] != [x, y][1];
  }

  lemma RootKept(was: map<nat, Frame>, now: map<nat, Frame>, sp: Space, ks: seq<Kid>, data: seq<nat>)
    requires OnlyChanged(was, now, sp.lvl1, ks, data) && sp.root in was && sp.root != sp.lvl1
    requires Disjoint([sp.root, sp.lvl1], Tables(ks)) && Disjoint([sp.root, sp.lvl1], data)
    ensures sp.root in now && now[sp.root] == was[sp.root]
  {
    assert [sp.root, sp.lvl1][0] == sp.root;
  }

  lemma ZeroCopies()
    ensures Copies(0) == 0
  {}

  /** The heap region is still bare when its turn comes. */
  lemma HeapReady(f0: map<nat, Frame>, f1: map<nat, Frame>, sp: Space, data: seq<nat>, free: seq<nat>, size: int)
    requires Bare(f0, sp, data + free) && Filling(f0, f1, sp, StackCode, sp.stack, data, size)
    ensures Separate(sp, free) && LinkedUpTo(f1, sp, Heap, 0) && Filled(f1, Part(sp, Heap), [], Copies(0))
  {
    hide PageEntry, Copies, Lvl1Entry, Region, Reserved, Down, Distinct, Disjoint, Filled, Contents;
    var t := Tables(sp.kids);
    BareFilled(f0, sp, data + free, Heap, Copies(0));
    SpaceApart(sp, data + free, Heap);
    DisjointSum(Tables(Part(sp, Heap)), data, free);
    NoFrames(sp.lvl1, Tables(Part(sp, StackCode)), data);
    PartsApart2(sp, data + free);
    RegionKept(f0, f1, Part(sp, Heap), [], 0, Copies(0), sp.lvl1, Part(sp, StackCode), data);
    assert [sp.lvl1] + t + (data + free) == [sp.lvl1] + t + data + free;
    DropMiddle([sp.lvl1] + t, data, free);
  }

  lemma NoFrames(lvl1: nat, a: seq<nat>, data: seq<nat>)
    ensures Disjoint([lvl1], []) && Disjoint(a, []) && Disjoint([], data)
  {}

  lemma PartsApart2(sp: Space, rest: seq<nat>)
    requires sp.stack + sp.heap + sp.shared == |sp.kids| && Distinct([sp.root, sp.lvl1] + Tables(sp.kids) + rest)
    ensures Disjoint(Tables(Part(sp, StackCode)), Tables(Part(sp, Heap))) && Disjoint([sp.lvl1], Tables(Part(sp, Heap)))
  {
    hide Distinct, Disjoint, Part;
    var u, t, b := [sp.root, sp.lvl1], Tables(sp.kids), Tables(Part(sp, Heap));
    DistinctSplit(u + t, rest);
    DistinctSplit(u, t);
    PartsApart(sp, StackCode, Heap);
    SpaceApart(sp, rest, Heap);
    DisjointParts(u, b, 1, 2, 0, |b|);
    assert u[1..2] == [sp.lvl1] && b[0..|b|] == b;
  }

  lemma DropMiddle(a: seq<nat>, b: seq<nat>, c: seq<nat>)
    requires Distinct(a + b + c)
    ensures Distinct(a + c)
  {
    hide Distinct, Disjoint;
    DistinctSplit(a + b, c);
    DistinctSplit(a, b);
    assert a + b + c == a + (b + c);
    DistinctSplit(a, b + c);
    DisjointSum(a, b, c);
    DistinctSplit(b, c);
    DistinctSplit(a, c);
  }

  /** Frames other than the ones taken are as they were. */
  ghost predicate Others(was: map<nat, Frame>, now: map<nat, Frame>, taken: seq<nat>) {
    forall f :: f in was && f !in taken ==> f in now && now[f] == was[f]
  }

  /** The two upper tables: an own copy of the kernel's directory whose user entry leads to
      a blank level-1 table. */
  method UpperTables(m: FrameList, base: seq<Pte>) returns (ok: bool, sp: Space)
    requires m.Valid() && |base| == PT_SIZE
    modifies m
    ensures m.Valid() && (ok <==> |old(m.free)| > 2)
    ensures ok ==> old(m.free) == [sp.root, sp.lvl1] + m.free && sp == Space(sp.root, sp.lvl1, 0, 0, 0, 0, [], 0)
    ensures ok ==> Bare(m.frames, sp, m.free) && m.frames[sp.root] == Table(base[USERSPACE := Down(sp.lvl1)])
    ensures ok ==> Others(old(m.frames), m.frames, [sp.root, sp.lvl1])
  {
    hide Down;
    sp := Space(0, 0, 0, 0, 0, 0, [], 0);
    var root := m.CreatePageTable();
    if root == 0 { return false, sp; }
    m.frames := m.frames[root := Table(base)];
    assert Chain(m.frames, m.memPtr, m.free);
    var lvl1 := m.CreatePageTable();
    if lvl1 == 0 { return false, sp; }
    m.frames := m.frames[root := Table(base[USERSPACE := Down(lvl1)])];
    assert Chain(m.frames, m.memPtr, m.free);
    sp := sp.(root := root, lvl1 := lvl1);
    assert old(m.free) == [root, lvl1] + m.free;
    assert [root, lvl1] + Tables(sp.kids) + m.free == [root, lvl1] + m.free;
    DropMiddle([lvl1], [], m.free);
    return true, sp;
  }

  lemma NothingReserved(sp: Space)
    requires sp.kids == [] && sp.usage == sp.stack == sp.heap == sp.shared == 0
    ensures Reserved(sp, Counts(0, 0, 0))
  {}

  /** The tables needed by the three loops. */
  lemma ReserveSum(p: nat, q: nat)
    requires p >= 1
    ensures Need(0, p) == TablesFor(p) && Need(p, q) == TablesFor(p + q) - TablesFor(p) && Need(0, 1) == 1
    ensures 1 <= TablesFor(p) <= TablesFor(p + q)
  {
    NeedMore(0, p, p + q);
    NeedMore(0, 1, p);
  }

  lemma Chained(sp0: Space, sp: Space, c: Counts, k: Kind, p: nat, was: map<nat, Frame>, now: map<nat, Frame>, added: seq<nat>, free: seq<nat>)
    requires Reserving(sp0, sp, c, k, p, was, now, added) && Bare(was, sp0, added + free)
    ensures Bare(now, sp, free) && Tables(sp.kids) == Tables(sp0.kids) + added && Others(was, now, added)
    ensures sp.root == sp0.root && sp.lvl1 == sp0.lvl1 && sp.root in was && sp.root in now && now[sp.root] == was[sp.root]
    ensures sp.stackShift == sp0.stackShift + (if k.StackCode? then p else 0)
    ensures CountOf(sp, StackCode) == CountOf(sp0, StackCode) + if k.StackCode? then |added| else 0
    ensures CountOf(sp, Heap) == CountOf(sp0, Heap) + if k.Heap? then |added| else 0
    ensures CountOf(sp, Shared) == CountOf(sp0, Shared) + if k.Shared? then |added| else 0
  {
    hide Down, Region;
    BareReserve(was, now, sp0, sp, added, free);
    var s := [sp0.root, sp0.lvl1] + Tables(sp0.kids) + (added + free);
    assert s[0] == sp0.root;
    assert forall i :: 0 <= i < |added| ==> s[2 + |sp0.kids| + i] == added[i];
  }

  lemma OthersChain(f0: map<nat, Frame>, f1: map<nat, Frame>, f2: map<nat, Frame>, a: seq<nat>, b: seq<nat>)
    requires Others(f0, f1, a) && Others(f1, f2, b)
    ensures Others(f0, f2, a + b)
  {}

  /** `add_frames_process`: the pages of code, stack and heap are reserved. */
  method ReserveAll(m: FrameList, sp0: Space, code: int, stack: int) returns (ok: bool, sp: Space)
    requires m.Valid() && sp0.kids == [] && sp0.usage == sp0.stack == sp0.heap == sp0.shared == sp0.stackShift == 0
    requires Bare(m.frames, sp0, m.free)
    modifies m
    ensures m.Valid()
    ensures var t := TablesFor(PagesFor(code) + PagesFor(stack));
            ok <==> t < STACK_FRAME_SIZE && |old(m.free)| > t + 1
    ensures ok ==>
              && var n := PagesFor(code) + PagesFor(stack);
              && sp.root == sp0.root && sp.lvl1 == sp0.lvl1 && sp.stackShift == n
              && Reserved(sp, Counts(n, 1, 0)) && |sp.kids| == TablesFor(n) + 1
              && old(m.free) == Tables(sp.kids) + m.free && Bare(m.frames, sp, m.free)
              && Others(old(m.frames), m.frames, Tables(sp.kids)) && m.frames[sp.root] == old(m.frames)[sp0.root]
  {
    hide Reserving, Bare, PagesFor, TablesFor, Chain, Distinct, Reserved, Need, Others;
    NothingReserved(sp0);
    ghost var a1, a2, a3;
    var sp1, sp2;
    PagesLeft(code, 0);
    PagesLeft(stack, 0);
    OnePage();
    ghost var p, q := PagesFor(code), PagesFor(stack);
    ReserveSum(p, q);
    ghost var f0 := m.frames;
    ok, sp1, a1 := Reserve(m, sp0, StackCode, code, Counts(0, 0, 0));
    sp := sp1;
    if !ok { return; }
    ReservingKnown(sp0, sp1, Counts(0, 0, 0), StackCode, p, f0, m.frames, a1);
    Chained(sp0, sp1, Counts(0, 0, 0), StackCode, p, f0, m.frames, a1, m.free);
    ghost var f1 := m.frames;
    ok, sp2, a2 := Reserve(m, sp1, StackCode, stack, Counts(p, 0, 0));
    sp := sp2;
    if !ok { return; }
    ReservingKnown(sp1, sp2, Counts(p, 0, 0), StackCode, q, f1, m.frames, a2);
    Chained(sp1, sp2, Counts(p, 0, 0), StackCode, q, f1, m.frames, a2, m.free);
    ghost var f2 := m.frames;
    ok, sp, a3 := Reserve(m, sp2, Heap, 1, Counts(p + q, 0, 0));
    if !ok { return; }
    ReservingKnown(sp2, sp, Counts(p + q, 0, 0), Heap, 1, f2, m.frames, a3);
    Chained(sp2, sp, Counts(p + q, 0, 0), Heap, 1, f2, m.frames, a3, m.free);
    OthersChain(f0, f1, f2, a1, a2);
    OthersChain(f0, f2, m.frames, a1 + a2, a3);
    assert Tables(sp.kids) == a1 + a2 + a3;
  }

  lemma OnePage()
    ensures PagesFor(1) == 1
  {}

  // ----- the theorem -----

  /** `process_memory_allocator`. It succeeds exactly if the request is allowed and there
      are frames enough. The frames it takes are the first of the free list: the two upper
      tables, the level-0 tables, the pages of code and stack, and the heap page. */
  method ProcessMemoryAllocator(m: FrameList, size: nat, app: Option<int>, base: seq<Pte>)
    returns (ok: bool, sp: Space, data: seq<nat>, heap: seq<nat>)
    requires m.Valid() && |base| == PT_SIZE
    modifies m
    ensures m.Valid()
    ensures ok <==> Allocates(size, app, |old(m.free)|)
    ensures ok ==> Built(m.frames, sp, data, heap, app.value) && SpaceFrames(sp, data, heap)
    ensures ok ==> |data| == sp.stackShift == PagesFor(app.value) + PagesFor(size) && |heap| == 1
    ensures ok ==> |sp.kids| == TablesFor(|data|) + 1
    ensures ok ==> old(m.free) == [sp.root, sp.lvl1] + Tables(sp.kids) + data + heap + m.free
    ensures ok ==> Others(old(m.frames), m.frames, [sp.root, sp.lvl1] + Tables(sp.kids) + data + heap)
    ensures ok ==> m.frames[sp.root] == Table(base[USERSPACE := Down(sp.lvl1)])
  {
    hide Bare, PagesFor, TablesFor, Chain, Distinct, Reserved, Others, Built, Filling, Down, Separate, LinkedUpTo, Filled;
    ok, data, heap, sp := false, [], [], Space(0, 0, 0, 0, 0, 0, [], 0);
    if size > GIGA_SIZE { return; }
    ghost var f0, free0 := m.frames, m.free;
    var sp0;
    ok, sp0 := UpperTables(m, base);
    if !ok { return; }
    ghost var f1, free1 := m.frames, m.free;
    if app.None? { ok := false; return; }
    ok, sp := ReserveAll(m, sp0, app.value, size);
    if !ok { return; }
    ghost var f2, free2 := m.frames, m.free;
    ghost var n := PagesFor(app.value) + PagesFor(size);
    ghost var c := Counts(n, 1, 0);
    PagesLeft(size, 0);
    ExtendsKnown(sp, c);
    BareLinked(f2, sp, free2);
    BareFilled(f2, sp, free2, StackCode, Copies(app.value));
    BareSeparate(f2, sp, free2);
    ok, data := FillRegion(m, sp, StackCode, app.value, c);
    if !ok { return; }
    ghost var f3, free3 := m.frames, m.free;
    HeapReady(f2, f3, sp, data, free3, app.value);
    ok, heap := FillRegion(m, sp, Heap, 0, c);
    if !ok { return; }
    BothFilled(f2, f3, m.frames, sp, data, heap, m.free, app.value);
    Taken(f0, f1, f2, f3, m.frames, sp, data, heap, free0, m.free, app.value);
    FramesKnown(m.low, m.high, sp, data, heap, free0, m.free);
  }

  lemma BareSeparate(frames: map<nat, Frame>, sp: Space, free: seq<nat>)
    requires Bare(frames, sp, free)
    ensures Separate(sp, free)
  {}

  lemma Taken(f0: map<nat, Frame>, f1: map<nat, Frame>, f2: map<nat, Frame>, f3: map<nat, Frame>, f4: map<nat, Frame>,
              sp: Space, data: seq<nat>, heap: seq<nat>, free0: seq<nat>, free: seq<nat>, size: int)
    requires sp.stack + sp.heap + sp.shared == |sp.kids|
    requires free0 == [sp.root, sp.lvl1] + (Tables(sp.kids) + (data + (heap + free))) && Bare(f2, sp, data + (heap + free))
    requires Others(f0, f1, [sp.root, sp.lvl1]) && Others(f1, f2, Tables(sp.kids))
    requires Filling(f2, f3, sp, StackCode, sp.stack, data, size) && Filling(f3, f4, sp, Heap, sp.heap, heap, 0)
    ensures free0 == [sp.root, sp.lvl1] + Tables(sp.kids) + data + heap + free
    ensures Others(f0, f4, [sp.root, sp.lvl1] + Tables(sp.kids) + data + heap)
    ensures sp.root in f2 && sp.root in f4 && f4[sp.root] == f2[sp.root]
  {
    hide Distinct, Disjoint, Filled, Contents, LinkedUpTo, Down, Part;
    var u, t := [sp.root, sp.lvl1], Tables(sp.kids);
    AllApart(sp, data, heap, free);
    RootKept(f2, f3, sp, Part(sp, StackCode), data);
    RootKept(f3, f4, sp, Part(sp, Heap), heap);
    forall f | f in f0 && f !in u + t + data + heap ensures f in f4 && f4[f] == f0[f] {
      PartTables(sp, StackCode);
      PartTables(sp, Heap);
      assert f != u[0] && f != u[1];
    }
  }

  lemma FramesKnown(low: nat, high: nat, sp: Space, data: seq<nat>, heap: seq<nat>, free0: seq<nat>, free: seq<nat>)
    requires high < PHYSICAL_LIMIT && forall f :: f in free0 ==> Releasable(low, high, f)
    requires free0 == [sp.root, sp.lvl1] + Tables(sp.kids) + data + heap + free
    ensures SpaceFrames(sp, data, heap)
  {
    var u, t := [sp.root, sp.lvl1], Tables(sp.kids);
    forall i | 0 <= i < |free0| ensures Frameable(free0[i]) {
      assert free0[i] in free0;
    }
    AllFrameableSplit(u + t + data + heap, free);
    AllFrameableSplit(u + t + data, heap);
    AllFrameableSplit(u + t, data);
    AllFrameableSplit(u, t);
    assert u[1] == sp.lvl1;
  }

  lemma AllFrameableSplit(a: seq<nat>, b: seq<nat>)
    requires AllFrameable(a + b)
    ensures AllFrameable(a) && AllFrameable(b)
  {
    hide Frameable;
    var s := a + b;
    assert forall i :: 0 <= i < |a| ==> s[i] == a[i];
    assert forall i :: 0 <= i < |b| ==> s[|a| + i] == b[i];
  }
}
