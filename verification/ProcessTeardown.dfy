/**
  Returning the memory of a process (`free_frames_indexed`, `free_frames_page_table` and
  the frame part of `free_process_memory` in `src/kernel/process/process_memory.c`).

  Releasing a frame overwrites it with a list link, and an entry can only be read from a
  frame that still is a table; so these proofs also show that no entry is read from a
  frame after it has been released.
  */
module ProcessTeardown {
  import opened Common
  import opened PageTables
  import opened FrameAllocator
  import opened AddressSpace
  import opened ProcessMemory
  import opened ProcessBuild
  import opened ProcessAllocator

  function Rev(s: seq<nat>): (r: seq<nat>)
    ensures |r| == |s| && forall i :: 0 <= i < |s| ==> r[i] == s[|s| - 1 - i]
  {
    seq(|s|, i requires 0 <= i < |s| => s[|s| - 1 - i])
  }

  lemma RevSum(a: seq<nat>, b: seq<nat>)
    ensures Rev(a + b) == Rev(b) + Rev(a)
  {}

  ghost predicate AllReleasable(m: FrameList, s: seq<nat>)
  {
    forall i :: 0 <= i < |s| ==> Releasable(m.low, m.high, s[i])
  }

  /** The entries from `start` on point to `targets`. */
  ghost predicate PointTo(frames: map<nat, Frame>, table: nat, start: nat, targets: seq<nat>) {
    && IsTable(frames, table) && start + |targets| <= PT_SIZE
    && forall i :: 0 <= i < |targets| ==> PteAddress(frames[table].ptes[start + i]) == targets[i]
  }

  /** The frames of `order` up to position a have been released, in this order. */
  ghost predicate Released(was: map<nat, Frame>, now: map<nat, Frame>, free0: seq<nat>, free: seq<nat>, order: seq<nat>, a: nat)
    requires a <= |order|
  {
    free == Rev(order[..a]) + free0 && Others(was, now, order[..a])
  }

  /** The next frame of the order is not free yet, and after its release it is. */
  lemma ReleasedStep(was: map<nat, Frame>, now: map<nat, Frame>, now': map<nat, Frame>, free0: seq<nat>, free: seq<nat>, order: seq<nat>, a: nat)
    requires a < |order| && Released(was, now, free0, free, order, a) && Distinct(order + free0)
    requires forall f :: f in now && f != order[a] ==> f in now' && now'[f] == now[f]
    ensures order[a] !in free
    ensures Released(was, now', free0, [order[a]] + free, order, a + 1)
  {
    assert order[..a + 1] == order[..a] + [order[a]];
    RevSum(order[..a], [order[a]]);
    assert Rev([order[a]]) == [order[a]];
    assert [order[a]] + (Rev(order[..a]) + free0) == [order[a]] + Rev(order[..a]) + free0;
    var s := order + free0;
    assert s[a] == order[a];
    assert forall j :: 0 <= j < |free0| ==> s[|order| + j] == free0[j];
    assert forall j :: 0 <= j < a ==> s[j] == order[j];
  }

  lemma StillTable(was: map<nat, Frame>, now: map<nat, Frame>, free0: seq<nat>, free: seq<nat>, order: seq<nat>, a: nat, table: nat)
    requires a <= |order| && Released(was, now, free0, free, order, a) && table in was && table !in order[..a]
    ensures table in now && now[table] == was[table]
  {}

  /** `free_frames_indexed`: each frame pointed to is released once. The entries are those
      at positions a to b of a release order in which the table itself comes later. */
  method FreeFramesIndexed(m: FrameList, table: nat, start: nat, end: nat,
                           ghost was: map<nat, Frame>, ghost free0: seq<nat>, ghost order: seq<nat>, ghost a: nat, ghost b: nat)
    requires m.Valid() && a <= b <= |order| && end == start + (b - a) && PointTo(was, table, start, order[a..b])
    requires Distinct(order + free0) && AllReleasable(m, order) && table !in order[..b]
    requires Released(was, m.frames, free0, m.free, order, a)
    modifies m
    ensures m.Valid() && Released(was, m.frames, free0, m.free, order, b)
  {
    hide Chain, Distinct, Others, Released;
    var i := start;
    while i < end
      invariant start <= i <= end && m.Valid()
      invariant Released(was, m.frames, free0, m.free, order, a + (i - start))
    {
      ghost var p := a + (i - start);
      assert order[a..b][i - start] == order[p];
      assert table !in order[..p] by { assert order[..p] <= order[..b]; }
      StillTable(was, m.frames, free0, m.free, order, p, table);
      assert PteAddress(was[table].ptes[start + (i - start)]) == order[p];
      ghost var now, free := m.frames, m.free;
      ReleasedStep(was, now, now[order[p] := Link(m.memPtr)], free0, free, order, p);
      m.ReleaseFrame(PteAddress(m.frames[table].ptes[i]));
      i := i + 1;
    }
  }

  // ----- the whole process -----

  /** A process with all its tables linked; shared tables may be present. */
  ghost predicate Complete(frames: map<nat, Frame>, sp: Space, c: Counts, data: seq<nat>, heap: seq<nat>, copies: nat) {
    && Reserved(sp, c) && c.stack == |data| && c.heap == |heap| && |data| > 0
    && Lvl1Is(frames, sp, sp.stack, sp.heap, sp.shared)
    && Filled(frames, Part(sp, StackCode), data, copies)
    && Filled(frames, Part(sp, Heap), heap, 0)
    && AllFrameable(Tables(sp.kids)) && AllFrameable(data) && AllFrameable(heap)
  }

  /** The order in which the frames of a process are released. */
  function ReleaseOrder(sp: Space, data: seq<nat>, heap: seq<nat>, scratch: nat): seq<nat> {
    data + heap + Tables(sp.kids) + [sp.lvl1, sp.root, scratch]
  }

  /** The pages released once the first i level-0 tables have been dealt with. */
  function Gone(sp: Space, data: seq<nat>, heap: seq<nat>, i: nat): seq<nat>
    requires i <= |sp.kids| && sp.stack + sp.heap + sp.shared == |sp.kids|
  {
    if i <= sp.stack then data[..Before(|data|, i)]
    else if i <= sp.stack + sp.heap then data + heap[..Before(|heap|, i - sp.stack)]
    else data + heap
  }

  /** What table i contributes to the pages released. */
  function Share(sp: Space, data: seq<nat>, heap: seq<nat>, i: nat): seq<nat>
    requires i < |sp.kids| && sp.stack + sp.heap + sp.shared == |sp.kids|
  {
    if i < sp.stack then data[Before(|data|, i)..Before(|data|, i + 1)]
    else if i < sp.stack + sp.heap then heap[Before(|heap|, i - sp.stack)..Before(|heap|, i + 1 - sp.stack)]
    else []
  }

  lemma GoneEnds(frames: map<nat, Frame>, sp: Space, c: Counts, data: seq<nat>, heap: seq<nat>, copies: nat)
    requires Complete(frames, sp, c, data, heap, copies)
    ensures sp.stack + sp.heap + sp.shared == |sp.kids|
    ensures Gone(sp, data, heap, 0) == [] && Gone(sp, data, heap, |sp.kids|) == data + heap
    ensures Before(|data|, sp.stack) == |data| && Before(|heap|, sp.heap) == |heap|
  {
    hide Reserved, Filled, Lvl1Is;
    ExtendsKnown(sp, c);
    AllTables(sp, c, StackCode);
    AllTables(sp, c, Heap);
    assert data[..|data|] == data && heap[..|heap|] == heap && heap[..0] == [] && data + [] == data;
  }

  lemma GoneStep(frames: map<nat, Frame>, sp: Space, c: Counts, data: seq<nat>, heap: seq<nat>, copies: nat, i: nat)
    requires Complete(frames, sp, c, data, heap, copies) && i < |sp.kids|
    ensures Gone(sp, data, heap, i + 1) == Gone(sp, data, heap, i) + Share(sp, data, heap, i)
    ensures sp.kids[i].index >= Start(Shared) <==> i >= sp.stack + sp.heap
    ensures i < sp.stack + sp.heap ==> |Share(sp, data, heap, i)| == sp.kids[i].usage
  {
    hide Reserved, Filled, Lvl1Is, Part;
    GoneEnds(frames, sp, c, data, heap, copies);
    if i < sp.stack { TableShare(sp, c, StackCode, i); }
    else if i < sp.stack + sp.heap { TableShare(sp, c, Heap, i - sp.stack); }
    else { TableShare(sp, c, Shared, i - sp.stack - sp.heap); }
    ExtendsKnown(sp, c);
  }

  lemma SharePoints(frames: map<nat, Frame>, sp: Space, c: Counts, data: seq<nat>, heap: seq<nat>, copies: nat, i: nat)
    requires Complete(frames, sp, c, data, heap, copies) && i < sp.stack + sp.heap
    ensures PointTo(frames, sp.kids[i].table, 0, Share(sp, data, heap, i))
  {
    hide Reserved, Lvl1Is, Leaf, Filled;
    ExtendsKnown(sp, c);
    GoneStep(frames, sp, c, data, heap, copies, i);
    if i < sp.stack {
      TableShare(sp, c, StackCode, i);
      FilledAt(frames, Part(sp, StackCode), data, copies, i);
      EntriesPoint(frames, sp.kids[i].table, 512 * i, data, copies, sp.kids[i].usage);
    } else {
      TableShare(sp, c, Heap, i - sp.stack);
      FilledAt(frames, Part(sp, Heap), heap, 0, i - sp.stack);
      EntriesPoint(frames, sp.kids[i].table, 512 * (i - sp.stack), heap, 0, sp.kids[i].usage);
    }
  }

  lemma FilledAt(frames: map<nat, Frame>, ks: seq<Kid>, data: seq<nat>, copies: nat, i: nat)
    requires Filled(frames, ks, data, copies) && i < |ks|
    ensures TableIs(frames, ks[i].table, 512 * i, data, copies)
  {}

  lemma EntriesPoint(frames: map<nat, Frame>, t: nat, base: nat, data: seq<nat>, copies: nat, n: nat)
    requires TableIs(frames, t, base, data, copies) && base + n <= |data| && n <= 512 && AllFrameable(data)
    ensures PointTo(frames, t, 0, data[base..base + n])
  {
    forall e | 0 <= e < n ensures PteAddress(frames[t].ptes[e]) == data[base + e] {
      assert frames[t].ptes[e] == PageEntry(data, copies, base + e);
      assert Frameable(data[base + e]);
      EntryRoundTrip(data[base + e], true, true, base + e < copies, true);
    }
  }

  /** The level-1 entries of a kind point to its tables. */
  lemma LinksPoint(frames: map<nat, Frame>, sp: Space, c: Counts, k: Kind)
    requires Reserved(sp, c) && Lvl1Is(frames, sp, sp.stack, sp.heap, sp.shared) && AllFrameable(Tables(sp.kids))
    ensures PointTo(frames, sp.lvl1, Start(k), Tables(Part(sp, k)))
  {
    hide Reserved, Down;
    ExtendsKnown(sp, c);
    PartTables(sp, k);
    var ts := Tables(Part(sp, k));
    forall i | 0 <= i < |ts| ensures PteAddress(frames[sp.lvl1].ptes[Start(k) + i]) == ts[i] {
      assert frames[sp.lvl1].ptes[Start(k) + i] == Lvl1Entry(sp, sp.stack, sp.heap, sp.shared, Start(k) + i);
      assert Tables(sp.kids)[From(sp, k) + i] == ts[i];
      DownAddress(ts[i]);
    }
  }

  lemma DownAddress(t: nat)
    requires Frameable(t)
    ensures PteAddress(Down(t)) == t
  {
    EntryRoundTrip(t, false, false, false, true);
  }

  /** Positions in the release order. */
  lemma OrderKnown(sp: Space, data: seq<nat>, heap: seq<nat>, scratch: nat, i: nat)
    requires sp.stack + sp.heap + sp.shared == |sp.kids| && i < |sp.kids|
    ensures var o, d := ReleaseOrder(sp, data, heap, scratch), |data| + |heap|;
            && |o| == d + |sp.kids| + 3
            && o[d + i] == sp.kids[i].table
            && o[d + |sp.kids|] == sp.lvl1 && o[d + |sp.kids| + 1] == sp.root && o[d + |sp.kids| + 2] == scratch
  {
    var o, d := ReleaseOrder(sp, data, heap, scratch), |data| + |heap|;
    assert o[..d + |sp.kids|] == data + heap + Tables(sp.kids);
  }

  lemma LaterNotBefore(o: seq<nat>, free: seq<nat>, a: nat, b: nat)
    requires Distinct(o + free) && a <= b < |o|
    ensures o[b] !in o[..a]
  {
    var s := o + free;
    assert s[b] == o[b];
    assert forall j :: 0 <= j < a ==> s[j] == o[..a][j];
  }

  lemma SharePlace(frames: map<nat, Frame>, sp: Space, c: Counts, data: seq<nat>, heap: seq<nat>, copies: nat, scratch: nat, i: nat)
    requires Complete(frames, sp, c, data, heap, copies) && i < |sp.kids|
    ensures var o := ReleaseOrder(sp, data, heap, scratch);
            var a, b := |Gone(sp, data, heap, i)|, |Gone(sp, data, heap, i + 1)|;
            && a <= b <= |data| + |heap| && o[a..b] == Share(sp, data, heap, i)
  {
    hide Reserved, Filled, Lvl1Is;
    ExtendsKnown(sp, c);
    GoneStep(frames, sp, c, data, heap, copies, i);
    GonePrefix(sp, data, heap, i + 1);
    var o := ReleaseOrder(sp, data, heap, scratch);
    var a, b := |Gone(sp, data, heap, i)|, |Gone(sp, data, heap, i + 1)|;
    assert o[..|data| + |heap|] == data + heap;
    assert o[..b] == (data + heap)[..b];
    assert o[a..b] == o[..b][a..];
  }

  lemma GonePrefix(sp: Space, data: seq<nat>, heap: seq<nat>, i: nat)
    requires i <= |sp.kids| && sp.stack + sp.heap + sp.shared == |sp.kids|
    ensures var b := |Gone(sp, data, heap, i)|; b <= |data| + |heap| && Gone(sp, data, heap, i) == (data + heap)[..b]
  {}

  /** The frame part of `free_process_memory`: every page, every table and the scratch
      frame go back to the free list, each exactly once and in this order. */
  method FreeProcessMemory(m: FrameList, sp: Space, scratch: nat, ghost c: Counts, ghost data: seq<nat>, ghost heap: seq<nat>, ghost copies: nat)
    requires m.Valid() && Complete(m.frames, sp, c, data, heap, copies)
    requires Distinct(ReleaseOrder(sp, data, heap, scratch) + m.free) && AllReleasable(m, ReleaseOrder(sp, data, heap, scratch))
    modifies m
    ensures m.Valid()
    ensures m.free == Rev(ReleaseOrder(sp, data, heap, scratch)) + old(m.free)
    ensures Others(old(m.frames), m.frames, ReleaseOrder(sp, data, heap, scratch))
  {
    hide Chain, Distinct, Others, Released, Reserved, Complete, Gone, Share, ReleaseOrder, PointTo;
    ghost var was, free0, o, d := m.frames, m.free, ReleaseOrder(sp, data, heap, scratch), |data| + |heap|;
    CompleteKnown(was, sp, c, data, heap, copies);
    OrderKnown(sp, data, heap, scratch, 0);
    GoneEnds(was, sp, c, data, heap, copies);
    NothingReleased(was, free0, o);
    var i := 0;
    while i < |sp.kids|
      invariant 0 <= i <= |sp.kids| && m.Valid() && |Gone(sp, data, heap, i)| <= d
      invariant Released(was, m.frames, free0, m.free, o, |Gone(sp, data, heap, i)|)
    {
      GoneStep(was, sp, c, data, heap, copies, i);
      SharePlace(was, sp, c, data, heap, copies, scratch, i);
      OrderKnown(sp, data, heap, scratch, i);
      ghost var a, b := |Gone(sp, data, heap, i)|, |Gone(sp, data, heap, i + 1)|;
      if sp.kids[i].index < Start(Shared) {
        SharePoints(was, sp, c, data, heap, copies, i);
        LaterNotBefore(o, free0, b, d + i);
        FreeFramesIndexed(m, sp.kids[i].table, 0, sp.kids[i].usage, was, free0, o, a, b);
      } else {
        NoShare(sp, data, heap, i);
      }
      i := i + 1;
    }
    FreeTables(m, sp, scratch, c, data, heap, copies, was, free0);
    FreeUpper(m, sp, scratch, data, heap, was, free0);
  }

  lemma NoShare(sp: Space, data: seq<nat>, heap: seq<nat>, i: nat)
    requires i < |sp.kids| && sp.stack + sp.heap + sp.shared == |sp.kids| && i >= sp.stack + sp.heap
    ensures Share(sp, data, heap, i) == []
  {}

  lemma CompleteKnown(frames: map<nat, Frame>, sp: Space, c: Counts, data: seq<nat>, heap: seq<nat>, copies: nat)
    requires Complete(frames, sp, c, data, heap, copies)
    ensures sp.stack + sp.heap + sp.shared == |sp.kids| && 0 < sp.stack
    ensures Reserved(sp, c) && Lvl1Is(frames, sp, sp.stack, sp.heap, sp.shared) && AllFrameable(Tables(sp.kids))
  {
    RegionsEmpty(sp, c);
  }

  lemma NothingReleased(was: map<nat, Frame>, free0: seq<nat>, o: seq<nat>)
    ensures Released(was, was, free0, free0, o, 0)
  {
    assert Rev(o[..0]) + free0 == free0;
  }

  /** `free_frames_page_table` on the level-1 table: the tables of the three kinds. */
  method FreeTables(m: FrameList, sp: Space, ghost scratch: nat, ghost c: Counts, ghost data: seq<nat>, ghost heap: seq<nat>, ghost copies: nat,
                    ghost was: map<nat, Frame>, ghost free0: seq<nat>)
    requires m.Valid() && Complete(was, sp, c, data, heap, copies)
    requires Distinct(ReleaseOrder(sp, data, heap, scratch) + free0) && AllReleasable(m, ReleaseOrder(sp, data, heap, scratch))
    requires Released(was, m.frames, free0, m.free, ReleaseOrder(sp, data, heap, scratch), |data| + |heap|)
    modifies m
    ensures m.Valid() && |data| + |heap| + |sp.kids| <= |ReleaseOrder(sp, data, heap, scratch)|
    ensures Released(was, m.frames, free0, m.free, ReleaseOrder(sp, data, heap, scratch), |data| + |heap| + |sp.kids|)
  {
    hide Chain, Distinct, Others, Released, Reserved, Complete, Gone, Share, ReleaseOrder, PointTo, Part, AllReleasable;
    CompleteKnown(was, sp, c, data, heap, copies);
    ghost var o, d := ReleaseOrder(sp, data, heap, scratch), |data| + |heap|;
    OrderKnown(sp, data, heap, scratch, 0);
    TablesPlace(was, sp, c, data, heap, scratch, free0, StackCode);
    FreeFramesIndexed(m, sp.lvl1, Start(StackCode), Start(StackCode) + sp.stack, was, free0, o, d, d + sp.stack);
    TablesPlace(was, sp, c, data, heap, scratch, free0, Heap);
    FreeFramesIndexed(m, sp.lvl1, Start(Heap), Start(Heap) + sp.heap, was, free0, o, d + sp.stack, d + sp.stack + sp.heap);
    TablesPlace(was, sp, c, data, heap, scratch, free0, Shared);
    FreeFramesIndexed(m, sp.lvl1, Start(Shared), Start(Shared) + sp.shared, was, free0, o, d + sp.stack + sp.heap, d + |sp.kids|);
  }

  lemma TablesPlace(was: map<nat, Frame>, sp: Space, c: Counts, data: seq<nat>, heap: seq<nat>, scratch: nat, free0: seq<nat>, k: Kind)
    requires Reserved(sp, c) && Lvl1Is(was, sp, sp.stack, sp.heap, sp.shared) && AllFrameable(Tables(sp.kids))
    requires Distinct(ReleaseOrder(sp, data, heap, scratch) + free0) && sp.stack > 0 && sp.stack + sp.heap + sp.shared == |sp.kids|
    ensures var o, d := ReleaseOrder(sp, data, heap, scratch), |data| + |heap|;
            && From(sp, k) <= To(sp, k) <= |sp.kids| && d + |sp.kids| < |o|
            && PointTo(was, sp.lvl1, Start(k), o[d + From(sp, k)..d + To(sp, k)])
            && sp.lvl1 !in o[..d + To(sp, k)]
  {
    hide Distinct, Reserved, Lvl1Is, PointTo, Part;
    LinksPoint(was, sp, c, k);
    PartTables(sp, k);
    OrderKnown(sp, data, heap, scratch, 0);
    var o, d := ReleaseOrder(sp, data, heap, scratch), |data| + |heap|;
    assert o[d..d + |sp.kids|] == Tables(sp.kids);
    assert o[d + From(sp, k)..d + To(sp, k)] == Tables(sp.kids)[From(sp, k)..To(sp, k)];
    LaterNotBefore(o, free0, d + To(sp, k), d + |sp.kids|);
  }

  /** The last three frames of the order. */
  method FreeUpper(m: FrameList, sp: Space, scratch: nat, ghost data: seq<nat>, ghost heap: seq<nat>, ghost was: map<nat, Frame>, ghost free0: seq<nat>)
    requires m.Valid() && |sp.kids| > 0 && sp.stack + sp.heap + sp.shared == |sp.kids|
    requires Distinct(ReleaseOrder(sp, data, heap, scratch) + free0) && AllReleasable(m, ReleaseOrder(sp, data, heap, scratch))
    requires |data| + |heap| + |sp.kids| <= |ReleaseOrder(sp, data, heap, scratch)|
    requires Released(was, m.frames, free0, m.free, ReleaseOrder(sp, data, heap, scratch), |data| + |heap| + |sp.kids|)
    modifies m
    ensures m.Valid()
    ensures m.free == Rev(ReleaseOrder(sp, data, heap, scratch)) + free0
    ensures Others(was, m.frames, ReleaseOrder(sp, data, heap, scratch))
  {
    hide Chain, Distinct, Others, Released, ReleaseOrder;
    ghost var o, n := ReleaseOrder(sp, data, heap, scratch), |data| + |heap| + |sp.kids|;
    OrderKnown(sp, data, heap, scratch, 0);
    ReleasedStep(was, m.frames, m.frames[sp.lvl1 := Link(m.memPtr)], free0, m.free, o, n);
    m.ReleaseFrame(sp.lvl1);
    ReleasedStep(was, m.frames, m.frames[sp.root := Link(m.memPtr)], free0, m.free, o, n + 1);
    m.ReleaseFrame(sp.root);
    ReleasedStep(was, m.frames, m.frames[scratch := Link(m.memPtr)], free0, m.free, o, n + 2);
    m.ReleaseFrame(scratch);
    AllReleased(was, m.frames, free0, m.free, o);
  }

  lemma AllReleased(was: map<nat, Frame>, now: map<nat, Frame>, free0: seq<nat>, free: seq<nat>, o: seq<nat>)
    requires Released(was, now, free0, free, o, |o|)
    ensures free == Rev(o) + free0 && Others(was, now, o)
  {
    assert o[..|o|] == o;
  }

  // ----- building and freeing -----

  /** What the allocator has built can be torn down. */
  lemma BuiltIsComplete(frames: map<nat, Frame>, sp: Space, data: seq<nat>, heap: seq<nat>, size: int)
    requires Built(frames, sp, data, heap, size) && SpaceFrames(sp, data, heap) && |data| > 0
    ensures Complete(frames, sp, Counts(|data|, |heap|, 0), data, heap, Copies(size))
  {
    hide Lvl1Entry, Filled, PageEntry, Copies, Region;
    assert Region(Part(sp, Shared), Start(Shared), Of(Counts(|data|, |heap|, 0), Shared));
    NoShared(sp, Counts(|data|, |heap|, 0));
  }

  lemma NoShared(sp: Space, c: Counts)
    requires Reserved(sp, c) && c.shared == 0
    ensures sp.shared == 0
  {
    RegionsEmpty(sp, c);
  }

  lemma {:induction false} RevSame(s: seq<nat>)
    ensures multiset(Rev(s)) == multiset(s)
  {
    if s != [] {
      var a, x := s[..|s| - 1], s[|s| - 1];
      RevSame(a);
      assert s == a + [x];
      RevSum(a, [x]);
      assert Rev([x]) == [x];
    }
  }

  lemma Shuffle(r: nat, l: nat, x: nat, t: seq<nat>, d: seq<nat>, h: seq<nat>, f: seq<nat>)
    ensures multiset(d + h + t + [l, r, x] + f) == multiset([r, l] + t + d + h + [x] + f)
  {
    var a, b := d + h + t + [l, r], [r, l] + t + d + h;
    Swapped(d + h, t, [l, r], [r, l]);
    assert d + h + t + [l, r, x] + f == a + ([x] + f);
    assert [r, l] + t + d + h + [x] + f == b + ([x] + f);
    assert b == [r, l] + t + (d + h);
    SameWith(a, b, [x] + f);
  }

  lemma Swapped(p: seq<nat>, q: seq<nat>, r: seq<nat>, r': seq<nat>)
    requires multiset(r) == multiset(r')
    ensures multiset(p + q + r) == multiset(r' + q + p)
  {}

  lemma SameWith(a: seq<nat>, b: seq<nat>, c: seq<nat>)
    requires multiset(a) == multiset(b)
    ensures multiset(a + c) == multiset(b + c)
  {}

  /** Freeing a process restores the set of free frames, each frame once. */
  lemma FreeingRestores(sp: Space, data: seq<nat>, heap: seq<nat>, scratch: nat, free: seq<nat>)
    ensures multiset(Rev(ReleaseOrder(sp, data, heap, scratch)) + free)
            == multiset([sp.root, sp.lvl1] + Tables(sp.kids) + data + heap + [scratch] + free)
  {
    hide Rev, Tables;
    RevSame(ReleaseOrder(sp, data, heap, scratch));
    Shuffle(sp.root, sp.lvl1, scratch, Tables(sp.kids), data, heap, free);
  }

  lemma TakenCount(sp: Space, data: seq<nat>, heap: seq<nat>)
    requires |sp.kids| == TablesFor(|data|) + 1 && |heap| == 1
    ensures |[sp.root, sp.lvl1] + Tables(sp.kids) + data + heap| == FramesFor(|data|)
  {}

  /** The end of a process that has just been built and given its scratch frame. */
  method EndBuilt(m: FrameList, sp: Space, scratch: nat, ghost data: seq<nat>, ghost heap: seq<nat>, ghost size: int)
    requires m.Valid() && Built(m.frames, sp, data, heap, size) && SpaceFrames(sp, data, heap) && |data| > 0
    requires var all := [sp.root, sp.lvl1] + Tables(sp.kids) + data + heap + [scratch] + m.free;
             Distinct(all) && forall f :: f in all ==> Releasable(m.low, m.high, f)
    modifies m
    ensures m.Valid()
    ensures multiset(m.free) == multiset([sp.root, sp.lvl1] + Tables(sp.kids) + data + heap + [scratch] + old(m.free))
    ensures Others(old(m.frames), m.frames, [sp.root, sp.lvl1] + Tables(sp.kids) + data + heap + [scratch])
  {
    hide Chain, Distinct, Disjoint, Built, Complete, SpaceFrames, Rev, ReleaseOrder, Others;
    ghost var was, free := m.frames, m.free;
    BuiltIsComplete(was, sp, data, heap, size);
    Reordered(sp, data, heap, scratch, free, m.low, m.high);
    FreeProcessMemory(m, sp, scratch, Counts(|data|, |heap|, 0), data, heap, Copies(size));
    FreeingRestores(sp, data, heap, scratch, free);
    SameMembers(sp, data, heap, scratch);
    OthersSame(was, m.frames, ReleaseOrder(sp, data, heap, scratch), [sp.root, sp.lvl1] + Tables(sp.kids) + data + heap + [scratch]);
  }

  lemma OthersSame(was: map<nat, Frame>, now: map<nat, Frame>, a: seq<nat>, b: seq<nat>)
    requires Others(was, now, a) && forall f :: f in a <==> f in b
    ensures Others(was, now, b)
  {}

  /** The frame side of `start` followed by the end of the process. */
  method BuildAndFree(m: FrameList, size: nat, app: Option<int>, base: seq<Pte>) returns (ok: bool)
    requires m.Valid() && |base| == PT_SIZE
    modifies m
    ensures m.Valid()
    ensures ok <==> Allocates(size, app, |old(m.free)| - 1)
    ensures ok ==> multiset(m.free) == multiset(old(m.free))
    ensures ok ==> forall f :: f in old(m.frames) && f !in old(m.free) ==> f in m.frames && m.frames[f] == old(m.frames)[f]
  {
    hide Chain, Distinct, Disjoint, Built, PagesFor, TablesFor, SpaceFrames, Down, Others, Tables;
    ghost var data, heap;
    var sp;
    ghost var free0, f0 := m.free, m.frames;
    ok, sp, data, heap := ProcessMemoryAllocator(m, size, app, base);
    if !ok { return; }
    ghost var free1, f1 := m.free, m.frames;
    ChainKnown(f1, m.memPtr, free1);
    TakenCount(sp, data, heap);
    ghost var taken := [sp.root, sp.lvl1] + Tables(sp.kids) + data + heap;
    assert |free1| == |free0| - FramesFor(|data|);
    var scratch := m.GetFrame();
    if scratch == 0 { ok := false; return; }
    PagesLeft(size, 0);
    assert free0 == taken + [scratch] + m.free;
    EndBuilt(m, sp, scratch, data, heap, app.value);
    KeptOutside(f0, f1, m.frames, taken, taken + [scratch], free0);
  }

  lemma KeptOutside(f0: map<nat, Frame>, f1: map<nat, Frame>, f2: map<nat, Frame>, taken: seq<nat>, o: seq<nat>, free0: seq<nat>)
    requires Others(f0, f1, taken) && Others(f1, f2, o)
    requires (forall f :: f in taken ==> f in free0) && (forall f :: f in o ==> f in free0)
    ensures forall f :: f in f0 && f !in free0 ==> f in f2 && f2[f] == f0[f]
  {}

  lemma SameMembers(sp: Space, data: seq<nat>, heap: seq<nat>, scratch: nat)
    ensures forall f :: f in ReleaseOrder(sp, data, heap, scratch) <==>
              f in [sp.root, sp.lvl1] + Tables(sp.kids) + data + heap + [scratch]
  {}

  lemma Reordered(sp: Space, data: seq<nat>, heap: seq<nat>, scratch: nat, free: seq<nat>, low: nat, high: nat)
    requires var all := [sp.root, sp.lvl1] + Tables(sp.kids) + data + heap + [scratch] + free;
             Distinct(all) && forall f :: f in all ==> Releasable(low, high, f)
    ensures var o := ReleaseOrder(sp, data, heap, scratch);
            Distinct(o + free) && forall i :: 0 <= i < |o| ==> Releasable(low, high, o[i])
  {
    hide Distinct, Tables, Releasable;
    var all := [sp.root, sp.lvl1] + Tables(sp.kids) + data + heap + [scratch] + free;
    var o := ReleaseOrder(sp, data, heap, scratch);
    Shuffle(sp.root, sp.lvl1, scratch, Tables(sp.kids), data, heap, free);
    DistinctByCount(all, o + free);
    SameElements(all, o, free);
  }

  lemma SameElements(all: seq<nat>, o: seq<nat>, free: seq<nat>)
    requires multiset(o + free) == multiset(all)
    ensures forall i :: 0 <= i < |o| ==> o[i] in all
  {
    forall i | 0 <= i < |o| ensures o[i] in all {
      assert (o + free)[i] == o[i];
      assert o[i] in multiset(o + free);
    }
  }

  lemma {:induction false} DistinctCount(s: seq<nat>, x: nat)
    requires Distinct(s)
    ensures multiset(s)[x] <= 1
  {
    if s != [] {
      var t := s[..|s| - 1];
      assert s == t + [s[|s| - 1]];
      DistinctCount(t, x);
      if x == s[|s| - 1] { assert x !in t; }
    }
  }

  /** Being distinct does not depend on the order. */
  lemma DistinctByCount(s: seq<nat>, t: seq<nat>)
    requires Distinct(s) && multiset(s) == multiset(t)
    ensures Distinct(t)
  {
    forall i, j | 0 <= i < j < |t| ensures t[i] != t[j] {
      DistinctCount(s, t[i]);
      if t[i] == t[j] { Twice(t, i, j); }
    }
  }

  lemma Twice(t: seq<nat>, i: nat, j: nat)
    requires i < j < |t| && t[i] == t[j]
    ensures multiset(t)[t[i]] >= 2
  {
    assert t == t[..j] + [t[j]] + t[j + 1..];
    assert t[i] in t[..j];
  }
}
