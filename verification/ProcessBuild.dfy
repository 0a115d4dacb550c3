/**
  Filling the reserved entries with frames (`allocate_memory_final` in
  `src/kernel/process/process_memory.c`).
  */
module ProcessBuild {
  import opened Common
  import opened PageTables
  import opened FrameAllocator
  import opened AddressSpace
  import opened ProcessMemory

  // ----- one page -----

  /** The frames after a page of the image, a cleared page or nothing is put into frame f
      and f is entered in table t. */
  function Mapped(frames: map<nat, Frame>, t: nat, e: nat, f: nat, content: Frame, exec: bool): map<nat, Frame>
    requires t in frames && frames[t].Table? && e < |frames[t].ptes|
  {
    frames[f := content][t := Table(frames[t].ptes[e := Leaf(f, exec)])]
  }

  lemma FilledStep(frames: map<nat, Frame>, ks: seq<Kid>, data: seq<nat>, copies: nat, i: nat, e: nat, f: nat, content: Frame)
    requires Filled(frames, ks, data, copies) && Distinct(Tables(ks)) && f !in Tables(ks)
    requires i < |ks| && e < 512 && |data| == 512 * i + e
    ensures IsTable(frames, ks[i].table)
    ensures Filled(Mapped(frames, ks[i].table, e, f, content, |data| < copies), ks, data + [f], copies)
  {
    hide Leaf;
    var t := ks[i].table;
    assert TableIs(frames, t, 512 * i, data, copies);
    var frames' := Mapped(frames, t, e, f, content, |data| < copies);
    forall x | 0 <= x < |ks| ensures TableIs(frames', ks[x].table, 512 * x, data + [f], copies) {
      assert TableIs(frames, ks[x].table, 512 * x, data, copies);
      if x != i {
        DistinctAt(Tables(ks), x, i);
        OtherTable(frames, frames', ks[x].table, 512 * x, data, f, copies, i, e, x);
      }
    }
  }

  lemma DistinctAt(s: seq<nat>, i: nat, j: nat)
    requires Distinct(s) && i < |s| && j < |s| && i != j
    ensures s[i] != s[j]
  {}

  lemma OtherTable(frames: map<nat, Frame>, frames': map<nat, Frame>, t: nat, base: nat, data: seq<nat>, f: nat, copies: nat, i: nat, e: nat, x: nat)
    requires TableIs(frames, t, base, data, copies) && t in frames' && frames'[t] == frames[t]
    requires base == 512 * x && |data| == 512 * i + e && e < 512 && x != i
    ensures TableIs(frames', t, base, data + [f], copies)
  {
    hide Leaf, PageEntry;
    forall q | 0 <= q < PT_SIZE ensures frames'[t].ptes[q] == PageEntry(data + [f], copies, base + q) {
      assert frames[t].ptes[q] == PageEntry(data, copies, base + q);
      SameEntry(data, f, copies, base + q);
    }
  }

  lemma SameEntry(data: seq<nat>, f: nat, copies: nat, j: nat)
    requires j != |data|
    ensures PageEntry(data + [f], copies, j) == PageEntry(data, copies, j)
  {}

  /** What `allocate_memory_final` puts into the page after d pages: a copy while there is
      data, nothing on the page where it stops, zeros afterwards. */
  function ContentAt(found: Frame, size: int, d: nat): Frame {
    if d < Copies(size) then Copy(FRAME_SIZE * d)
    else if size != 0 && d == Copies(size) then found
    else Zero
  }

  lemma ContentsStep(frames: map<nat, Frame>, t: nat, e: nat, data: seq<nat>, f: nat, size: int)
    requires Contents(frames, data, size) && IsTable(frames, t) && e < 512 && f in frames
    requires f !in data && t !in data && t != f
    ensures Contents(Mapped(frames, t, e, f, ContentAt(frames[f], size, |data|), |data| < Copies(size)), data + [f], size)
  {
    hide Leaf, Copies;
    CopiesZero(size);
  }

  lemma CopiesZero(size: int)
    ensures size == 0 ==> Copies(size) == 0
  {}

  /** The test on `data_left` in the fill loop, in terms of the pages done. */
  lemma StillCopying(size: int, d: nat)
    requires d <= Copies(size) && size != 0
    ensures size - FRAME_SIZE * d < 0 <==> d == Copies(size)
  {}

  /** The innermost step of `allocate_memory_final`. */
  method FillEntry(m: FrameList, t: nat, e: nat, writing0: bool, left0: int, from: nat) returns (ok: bool, writing: bool, left: int, f: nat)
    requires m.Valid() && IsTable(m.frames, t) && e < 512 && t !in m.free
    modifies m
    ensures m.Valid()
    ensures ok <==> |old(m.free)| > 1
    ensures !ok ==> m.free == old(m.free) && m.frames == old(m.frames)
    ensures ok ==>
              && f == old(m.free)[0] && old(m.free) == [f] + m.free && f in old(m.frames) && f != t
              && writing == (writing0 && left0 >= 0)
              && left == (if writing then left0 - FRAME_SIZE else left0)
              && m.frames == Mapped(old(m.frames), t, e, f, if writing then Copy(from) else if writing0 then old(m.frames)[f] else Zero, writing)
  {
    ok, writing, left := true, writing0, left0;
    f := m.GetFrame();
    if f == 0 { ok := false; return; }
    var content := m.frames[f];
    if writing {
      if left < 0 {
        writing := false;
      } else {
        content := Copy(from);
        left := left - FRAME_SIZE;
      }
    } else {
      content := Zero;
    }
    m.frames := m.frames[f := content][t := Table(m.frames[t].ptes[e := Leaf(f, writing)])];
    KeepChain(m, old(m.frames), f, t);
  }

  lemma KeepChain(m: FrameList, was: map<nat, Frame>, f: nat, t: nat)
    requires Chain(was, m.memPtr, m.free) && f !in m.free && t !in m.free
    requires forall x :: x in was ==> x in m.frames && (x != f && x != t ==> m.frames[x] == was[x])
    ensures Chain(m.frames, m.memPtr, m.free)
  {
    ChainFrame(was, m.frames, m.memPtr, m.free);
  }

  // ----- one region -----

  /** The tables and the free frames are pairwise different. */
  ghost predicate Separate(sp: Space, free: seq<nat>) {
    Distinct([sp.lvl1] + Tables(sp.kids) + free)
  }

  lemma SeparateFacts(sp: Space, k: Kind, taken: seq<nat>, free: seq<nat>)
    requires sp.stack + sp.heap + sp.shared == |sp.kids| && Separate(sp, taken + free) && free != []
    ensures var ks := Part(sp, k);
            && Distinct(Tables(ks)) && sp.lvl1 !in Tables(ks) && sp.lvl1 !in taken && sp.lvl1 !in free
            && free[0] !in taken && free[0] !in Tables(ks) && free[0] != sp.lvl1
            && (forall i :: 0 <= i < |ks| ==> ks[i].table !in taken && ks[i].table !in free)
  {
    var s := [sp.lvl1] + Tables(sp.kids) + (taken + free);
    var n := 1 + |sp.kids|;
    var ks := Part(sp, k);
    assert s[0] == sp.lvl1;
    assert forall j :: 0 <= j < |taken| ==> s[n + j] == taken[j];
    assert forall j :: 0 <= j < |free| ==> s[n + |taken| + j] == free[j];
    assert forall i :: 0 <= i < |ks| ==> s[1 + From(sp, k) + i] == ks[i].table;
  }

  /** How far the level-1 table is linked while region k is being filled. */
  ghost predicate LinkedUpTo(frames: map<nat, Frame>, sp: Space, k: Kind, i: nat)
    requires sp.stack + sp.heap + sp.shared == |sp.kids| && i <= To(sp, k) - From(sp, k) && !k.Shared?
  {
    Lvl1Is(frames, sp, if k.StackCode? then i else sp.stack, if k.Heap? then i else 0, 0)
  }

  lemma LinkStep(frames: map<nat, Frame>, sp: Space, k: Kind, i: nat)
    requires sp.stack + sp.heap + sp.shared == |sp.kids| && sp.stack <= 128 && sp.heap <= 128
    requires !k.Shared? && i < To(sp, k) - From(sp, k) && LinkedUpTo(frames, sp, k, i)
    ensures var t := Table(frames[sp.lvl1].ptes[Start(k) + i := Down(Part(sp, k)[i].table)]);
            LinkedUpTo(frames[sp.lvl1 := t], sp, k, i + 1)
  {
    hide Down;
  }

  /** State of the copy after d pages. */
  predicate CopyState(size: int, d: nat, writing: bool, left: int, from: nat) {
    if writing then size != 0 && d <= Copies(size) && left == size - FRAME_SIZE * d && from == FRAME_SIZE * d
    else size == 0 || d > Copies(size)
  }

  /** Only the level-1 table, the tables ks and the frames `data` differ. */
  ghost predicate OnlyChanged(was: map<nat, Frame>, now: map<nat, Frame>, lvl1: nat, ks: seq<Kid>, data: seq<nat>) {
    forall f :: f in was ==> f in now && (f != lvl1 && f !in Tables(ks) && f !in data ==> now[f] == was[f])
  }

  /** Everything known once d pages of region k are filled and i tables linked. */
  ghost predicate Filling(was: map<nat, Frame>, now: map<nat, Frame>, sp: Space, k: Kind, i: nat, data: seq<nat>, size: int)
    requires sp.stack + sp.heap + sp.shared == |sp.kids| && i <= To(sp, k) - From(sp, k) && !k.Shared?
  {
    && LinkedUpTo(now, sp, k, i)
    && Filled(now, Part(sp, k), data, Copies(size))
    && Contents(now, data, size)
    && OnlyChanged(was, now, sp.lvl1, Part(sp, k), data)
  }

  /** One more page. */
  lemma FillingStep(was: map<nat, Frame>, now: map<nat, Frame>, sp: Space, k: Kind, i: nat, e: nat, data: seq<nat>, free: seq<nat>, size: int)
    requires sp.stack + sp.heap + sp.shared == |sp.kids| && i < To(sp, k) - From(sp, k) && !k.Shared? && e < 512
    requires Filling(was, now, sp, k, i + 1, data, size) && |data| == 512 * i + e
    requires Separate(sp, data + free) && free != [] && free[0] in now
    ensures IsTable(now, Part(sp, k)[i].table)
    ensures Filling(was, Mapped(now, Part(sp, k)[i].table, e, free[0], ContentAt(now[free[0]], size, |data|), |data| < Copies(size)),
                    sp, k, i + 1, data + [free[0]], size)
  {
    hide Mapped, Filled, Contents, Lvl1Entry, Copies, ContentAt;
    SeparateFacts(sp, k, data, free);
    var ks, f := Part(sp, k), free[0];
    var t := ks[i].table;
    FilledStep(now, ks, data, Copies(size), i, e, f, ContentAt(now[f], size, |data|));
    ContentsStep(now, t, e, data, f, size);
    MappedEffect(now, t, e, f, ContentAt(now[f], size, |data|), |data| < Copies(size));
    assert Tables(ks)[i] == t;
  }

  lemma MappedEffect(frames: map<nat, Frame>, t: nat, e: nat, f: nat, content: Frame, exec: bool)
    requires t in frames && frames[t].Table? && e < |frames[t].ptes|
    ensures var r := Mapped(frames, t, e, f, content, exec);
            forall x :: x in frames ==> x in r && (x != t && x != f ==> r[x] == frames[x])
  {}

  lemma FillingLink(was: map<nat, Frame>, now: map<nat, Frame>, sp: Space, k: Kind, i: nat, data: seq<nat>, size: int)
    requires sp.stack + sp.heap + sp.shared == |sp.kids| && sp.stack <= 128 && sp.heap <= 128
    requires i < To(sp, k) - From(sp, k) && !k.Shared?
    requires Filling(was, now, sp, k, i, data, size) && sp.lvl1 !in Tables(Part(sp, k)) && sp.lvl1 !in data
    ensures IsTable(now, sp.lvl1)
    ensures Filling(was, now[sp.lvl1 := Table(now[sp.lvl1].ptes[Start(k) + i := Down(Part(sp, k)[i].table)])], sp, k, i + 1, data, size)
  {
    hide Down, PageEntry, Lvl1Entry, Copies, LinkedUpTo;
    LinkedTable(now, sp, k, i);
    LinkStep(now, sp, k, i);
    var now' := now[sp.lvl1 := Table(now[sp.lvl1].ptes[Start(k) + i := Down(Part(sp, k)[i].table)])];
    var ks := Part(sp, k);
    forall x | 0 <= x < |ks| ensures TableIs(now', ks[x].table, 512 * x, data, Copies(size)) {
      assert TableIs(now, ks[x].table, 512 * x, data, Copies(size));
      assert Tables(ks)[x] == ks[x].table;
    }
  }

  lemma LinkedTable(now: map<nat, Frame>, sp: Space, k: Kind, i: nat)
    requires sp.stack + sp.heap + sp.shared == |sp.kids| && i <= To(sp, k) - From(sp, k) && !k.Shared?
    requires LinkedUpTo(now, sp, k, i)
    ensures IsTable(now, sp.lvl1)
  {}

  /** The loop of `allocate_memory_final` over the entries of one table; `data` collects the
      frames in the order they are taken. */
  method FillTable(m: FrameList, sp: Space, k: Kind, i: nat, size: int, writing0: bool, left0: int, from0: nat,
                   ghost was: map<nat, Frame>, data0: seq<nat>)
    returns (ok: bool, writing: bool, left: int, from: nat, data: seq<nat>)
    requires m.Valid() && sp.stack + sp.heap + sp.shared == |sp.kids| && !k.Shared? && i < To(sp, k) - From(sp, k)
    requires |data0| == 512 * i && Part(sp, k)[i].usage <= 512 && Separate(sp, data0 + m.free)
    requires Filling(was, m.frames, sp, k, i + 1, data0, size) && CopyState(size, |data0|, writing0, left0, from0)
    modifies m
    ensures m.Valid() && data0 + old(m.free) == data + m.free
    ensures ok <==> |old(m.free)| > Part(sp, k)[i].usage
    ensures ok ==> |data| == |data0| + Part(sp, k)[i].usage
    ensures ok ==> Filling(was, m.frames, sp, k, i + 1, data, size) && CopyState(size, |data|, writing, left, from)
  {
    hide Filling, Copies, Separate, Distinct, Releasable, From, To;
    BoundsKnown(sp, k);
    ok, writing, left, from, data := true, writing0, left0, from0, data0;
    var kid := sp.kids[From(sp, k) + i];
    assert kid == Part(sp, k)[i];
    var e := 0;
    while e < kid.usage
      invariant 0 <= e <= kid.usage && m.Valid() && ok
      invariant |data| == |data0| + e && data0 + old(m.free) == data + m.free
      invariant Separate(sp, data + m.free)
      invariant Filling(was, m.frames, sp, k, i + 1, data, size) && CopyState(size, |data|, writing, left, from)
    {
      ghost var now, free := m.frames, m.free;
      FillingStep(was, now, sp, k, i, e, data, free, size);
      SeparateFacts(sp, k, data, free);
      if writing { StillCopying(size, |data|); }
      ghost var w := writing;
      var f;
      ok, writing, left, f := FillEntry(m, kid.table, e, writing, left, from);
      if !ok { return; }
      if writing { from := from + FRAME_SIZE; }
      ContentFits(now[f], size, |data|, w, writing);
      data := data + [f];
      e := e + 1;
      assert (data[..|data| - 1] + [f]) + m.free == data[..|data| - 1] + free;
    }
  }

  lemma ContentFits(found: Frame, size: int, d: nat, writing0: bool, writing: bool)
    requires writing0 ==> size != 0 && d <= Copies(size)
    requires !writing0 ==> size == 0 || d > Copies(size)
    requires writing == (writing0 && size - FRAME_SIZE * d >= 0)
    ensures writing == (d < Copies(size))
    ensures ContentAt(found, size, d) == if writing then Copy(FRAME_SIZE * d) else if writing0 then found else Zero
  {}

  /** Pages in the first i tables of a region. */
  function Before(pages: nat, i: nat): nat { if 512 * i <= pages then 512 * i else pages }

  lemma TableShare(sp: Space, c: Counts, k: Kind, i: nat)
    requires Reserved(sp, c) && i < To(sp, k) - From(sp, k)
    ensures var kid := Part(sp, k)[i];
            && kid.index == Start(k) + i && kid.usage <= 512
            && Before(Of(c, k), i) == 512 * i && Before(Of(c, k), i + 1) == 512 * i + kid.usage
            && kid == sp.kids[From(sp, k) + i]
  {
    assert Region(Part(sp, k), Start(k), Of(c, k));
    var q, r := TablesKnown(Of(c, k));
  }

  lemma AllTables(sp: Space, c: Counts, k: Kind)
    requires Reserved(sp, c)
    ensures Before(Of(c, k), To(sp, k) - From(sp, k)) == Of(c, k)
  {
    assert Region(Part(sp, k), Start(k), Of(c, k));
    var q, r := TablesKnown(Of(c, k));
  }

  /** The search of `allocate_memory_final` for the first table of a region. */
  method FindFirst(sp: Space, k: Kind, ghost c: Counts) returns (at: nat)
    requires Reserved(sp, c) && Of(c, k) > 0
    ensures at < |sp.kids| && at == From(sp, k)
  {
    hide Reserved;
    ExtendsKnown(sp, c);
    FirstOfKind(sp, c, k);
    at := 0;
    while at < |sp.kids| && sp.kids[at].index != Start(k)
      invariant 0 <= at <= From(sp, k)
    {
      NotFirst(sp, c, k, at);
      at := at + 1;
    }
    NotFirst(sp, c, k, at);
  }

  /** `allocate_memory_final` on a region that has at least one page: the assertion on the
      index in its loop always holds. */
  method FillRegion(m: FrameList, sp: Space, k: Kind, size: int, ghost c: Counts) returns (ok: bool, data: seq<nat>)
    requires m.Valid() && Reserved(sp, c) && !k.Shared? && Of(c, k) > 0 && Separate(sp, m.free)
    requires LinkedUpTo(m.frames, sp, k, 0) && Filled(m.frames, Part(sp, k), [], Copies(size))
    modifies m
    ensures m.Valid()
    ensures ok <==> |old(m.free)| > Of(c, k)
    ensures ok ==> |data| == Of(c, k) && old(m.free) == data + m.free
    ensures ok ==> Filling(old(m.frames), m.frames, sp, k, To(sp, k) - From(sp, k), data, size)
  {
    hide Filling, Copies, Separate, Reserved, LinkedUpTo, Filled, Chain, Distinct, Releasable, CopyState, Down, From, To;
    ExtendsKnown(sp, c);
    BoundsKnown(sp, k);
    PartCount(sp, k);
    StartFilling(m.frames, sp, k, size);
    var writing, left, from := size != 0, size, 0;
    var at := FindFirst(sp, k, c);
    ok, data := true, [];
    assert data + m.free == m.free;
    var i := 0;
    var count := match k case StackCode => sp.stack case Heap => sp.heap case Shared => sp.shared;
    while i < count
      invariant 0 <= i <= count && m.Valid() && ok
      invariant old(m.free) == data + m.free && |data| == Before(Of(c, k), i)
      invariant CopyState(size, |data|, writing, left, from)
      invariant Filling(old(m.frames), m.frames, sp, k, i, data, size)
    {
      TableShare(sp, c, k, i);
      ChainKnown(m.frames, m.memPtr, m.free);
      SeparateFacts(sp, k, data, m.free);
      FillingLink(old(m.frames), m.frames, sp, k, i, data, size);
      assert sp.kids[at + i].index == Start(k) + i;
      ghost var now := m.frames;
      m.frames := m.frames[sp.lvl1 := Table(m.frames[sp.lvl1].ptes[Start(k) + i := Down(sp.kids[at + i].table)])];
      KeepChain(m, now, sp.lvl1, sp.lvl1);
      EnoughLeft(sp, c, k, i);
      ok, writing, left, from, data := FillTable(m, sp, k, i, size, writing, left, from, old(m.frames), data);
      if !ok { return; }
      i := i + 1;
    }
    AllTables(sp, c, k);
    ChainKnown(m.frames, m.memPtr, m.free);
  }

  lemma PartCount(sp: Space, k: Kind)
    ensures To(sp, k) - From(sp, k) == match k case StackCode => sp.stack case Heap => sp.heap case Shared => sp.shared
    ensures From(sp, k) <= To(sp, k)
  {}

  lemma EnoughLeft(sp: Space, c: Counts, k: Kind, i: nat)
    requires Reserved(sp, c) && i < To(sp, k) - From(sp, k)
    ensures Before(Of(c, k), i + 1) <= Of(c, k)
  {}

  lemma StartFilling(frames: map<nat, Frame>, sp: Space, k: Kind, size: int)
    requires sp.stack + sp.heap + sp.shared == |sp.kids| && !k.Shared?
    requires LinkedUpTo(frames, sp, k, 0) && Filled(frames, Part(sp, k), [], Copies(size))
    ensures Filling(frames, frames, sp, k, 0, [], size)
    ensures CopyState(size, 0, size != 0, size, 0)
  {}

  lemma FirstOfKind(sp: Space, c: Counts, k: Kind)
    requires Reserved(sp, c) && Of(c, k) > 0
    ensures From(sp, k) < To(sp, k) && sp.kids[From(sp, k)].index == Start(k)
  {
    RegionsEmpty(sp, c);
    TableShare(sp, c, k, 0);
  }

  lemma NotFirst(sp: Space, c: Counts, k: Kind, at: nat)
    requires Reserved(sp, c) && at < |sp.kids|
    ensures at < From(sp, k) ==> sp.kids[at].index != Start(k)
    ensures at == From(sp, k) < To(sp, k) ==> sp.kids[at].index == Start(k)
  {
    var l := if at < sp.stack then StackCode else if at < sp.stack + sp.heap then Heap else Shared;
    TableShare(sp, c, l, at - From(sp, l));
  }
}
