/**
  Building the memory of a process: reserving entries, then filling them with frames
  (`src/kernel/process/process_memory.c`).
  */
module ProcessMemory {
  import opened PageTables
  import opened FrameAllocator
  import opened AddressSpace

  // ----- reserving one entry -----

  /** The test of the search loop of `add_frame_to_process`. */
  predicate Fits(kid: Kid, k: Kind) {
    Start(k) <= kid.index <= End(k) && kid.usage < PT_SIZE
  }

  /** `add_child_node_page_table` has room for one more table, of whatever kind. */
  predicate Room(sp: Space) {
    sp.usage < PT_SIZE && sp.stack < STACK_FRAME_SIZE && sp.heap < HEAP_FRAME_SIZE && sp.shared < SHARED_FRAME_SIZE
  }

  /** The kid list is in the order stack, heap, shared as long as pages are added in it. */
  predicate InOrder(c: Counts, k: Kind) {
    && (k.StackCode? ==> c.heap == 0 && c.shared == 0)
    && (k.Heap? ==> c.shared == 0)
  }

  lemma TablesKnown(pages: nat) returns (q: nat, r: nat)
    ensures q == pages / 512 && r == pages % 512 && pages == 512 * q + r && r < 512
    ensures TablesFor(pages) == if r == 0 then q else q + 1
  {
    q, r := pages / 512, pages % 512;
  }

  lemma RegionKid(ks: seq<Kid>, start: nat, pages: nat, i: nat)
    requires Region(ks, start, pages) && i < |ks|
    ensures ks[i].index == start + i && ks[i].usage <= PT_SIZE
    ensures ks[i].usage < PT_SIZE <==> pages % 512 != 0 && i + 1 == |ks|
  {
    var q, r := TablesKnown(pages);
  }

  /** The only table with a free entry is the last of its kind, and only if the pages do
      not fill their tables. */
  lemma OnlyLastFits(sp: Space, c: Counts, k: Kind, i: nat)
    requires Reserved(sp, c) && i < |sp.kids|
    ensures Fits(sp.kids[i], k) <==> Of(c, k) % 512 != 0 && From(sp, k) < i + 1 == To(sp, k)
  {
    hide Region, From, To, Start, End, Of, Reserved, Part;
    var l := KindAt(sp, c, i);
    KindsApart(k, l, sp.kids[i].index);
    if k != l { PlacesApart(sp, k, l, i); }
  }

  /** The kind of the i-th table, with what its region says of it. */
  lemma KindAt(sp: Space, c: Counts, i: nat) returns (l: Kind)
    requires Reserved(sp, c) && i < |sp.kids|
    ensures From(sp, l) <= i < To(sp, l) && Start(l) <= sp.kids[i].index <= End(l)
    ensures sp.kids[i].usage < PT_SIZE <==> Of(c, l) % 512 != 0 && i + 1 == To(sp, l)
  {
    hide Region;
    l := if i < sp.stack then StackCode else if i < sp.stack + sp.heap then Heap else Shared;
    assert Region(Part(sp, l), Start(l), Of(c, l));
    RegionKid(Part(sp, l), Start(l), Of(c, l), i - From(sp, l));
  }

  lemma KindsApart(k: Kind, l: Kind, x: nat)
    requires Start(l) <= x <= End(l)
    ensures Start(k) <= x <= End(k) <==> k == l
  {}

  lemma PlacesApart(sp: Space, k: Kind, l: Kind, i: nat)
    requires From(sp, l) <= i < To(sp, l) && k != l
    ensures !(From(sp, k) <= i < To(sp, k))
  {}

  lemma RegionEmpty(ks: seq<Kid>, start: nat, pages: nat)
    requires Region(ks, start, pages)
    ensures pages % 512 != 0 ==> |ks| > 0
    ensures pages > 0 <==> |ks| > 0
  {
    var q, r := TablesKnown(pages);
  }

  /** One page more in the last table, or in a new one. */
  lemma RegionGrows(ks: seq<Kid>, ks': seq<Kid>, start: nat, pages: nat)
    requires Region(ks, start, pages)
    requires if pages % 512 != 0
             then |ks| > 0 && ks' == ks[|ks| - 1 := ks[|ks| - 1].(usage := ks[|ks| - 1].usage + 1)]
             else |ks'| == |ks| + 1 && ks'[..|ks|] == ks && ks'[|ks|].index == start + |ks| && ks'[|ks|].usage == 1
    ensures Region(ks', start, pages + 1)
  {
    var q, r := TablesKnown(pages);
    var q', r' := TablesKnown(pages + 1);
    assert q' == (if r == 511 then q + 1 else q);
    forall i | 0 <= i < |ks'| ensures ks'[i].index == start + i && ks'[i].usage == UsageOf(pages + 1, i) {
      if i < |ks| {
        assert ks[i].index == start + i && ks[i].usage == UsageOf(pages, i);
        assert r == 0 ==> ks'[..|ks|][i] == ks'[i];
      }
    }
  }

  /** The space with one more entry of kind k used, in a table of the frame `table` if a
      new one is needed. */
  function Extended(sp: Space, k: Kind, full: bool, table: nat): Space
    requires !full ==> 0 < To(sp, k) <= |sp.kids|
  {
    if !full then
      var i := To(sp, k) - 1;
      sp.(kids := sp.kids[i := sp.kids[i].(usage := sp.kids[i].usage + 1)])
    else
      var n := match k case StackCode => sp.stack case Heap => sp.heap case Shared => sp.shared;
      sp.(usage := sp.usage + 1,
          stack := if k.StackCode? then sp.stack + 1 else sp.stack,
          heap := if k.Heap? then sp.heap + 1 else sp.heap,
          shared := if k.Shared? then sp.shared + 1 else sp.shared,
          kids := sp.kids + [Kid(table, Start(k) + n, 1)])
  }

  lemma ExtendedReserved(sp: Space, c: Counts, k: Kind, table: nat)
    requires Reserved(sp, c) && InOrder(c, k) && (Of(c, k) % 512 == 0 ==> Room(sp))
    ensures Of(c, k) % 512 != 0 ==> 0 < To(sp, k) <= |sp.kids|
    ensures Reserved(Extended(sp, k, Of(c, k) % 512 == 0, table), OneMore(c, k))
  {
    hide Region;
    RegionsEmpty(sp, c);
    if Of(c, k) % 512 == 0 {
      ExtendedByTable(sp, c, k, table);
    } else {
      ExtendedInTable(sp, c, k);
    }
  }

  lemma RegionsEmpty(sp: Space, c: Counts)
    requires Reserved(sp, c)
    ensures c.stack > 0 <==> sp.stack > 0
    ensures c.heap > 0 <==> sp.heap > 0
    ensures c.shared > 0 <==> sp.shared > 0
  {
    hide Region;
    forall k: Kind ensures Of(c, k) > 0 <==> To(sp, k) > From(sp, k) {
      assert Region(Part(sp, k), Start(k), Of(c, k));
      RegionEmpty(Part(sp, k), Start(k), Of(c, k));
    }
    assert Of(c, StackCode) > 0 <==> To(sp, StackCode) > From(sp, StackCode);
    assert Of(c, Heap) > 0 <==> To(sp, Heap) > From(sp, Heap);
    assert Of(c, Shared) > 0 <==> To(sp, Shared) > From(sp, Shared);
  }

  lemma SliceUpdate(s: seq<Kid>, i: nat, x: Kid, a: nat, b: nat)
    requires i < |s| && a <= b <= |s|
    ensures s[i := x][a..b] == if a <= i < b then s[a..b][i - a := x] else s[a..b]
  {}

  lemma SliceAppend(s: seq<Kid>, x: Kid, a: nat)
    requires a <= |s|
    ensures (s + [x])[a..|s| + 1] == s[a..|s|] + [x]
  {}

  lemma Apart(sp: Space, k: Kind, l: Kind)
    requires From(sp, k) < To(sp, k) && k != l
    ensures !(From(sp, l) <= To(sp, k) - 1 < To(sp, l))
  {}

  lemma PartApart(sp: Space, k: Kind, table: nat, l: Kind)
    requires sp.stack + sp.heap + sp.shared == |sp.kids| && k != l
    requires (k.StackCode? ==> sp.heap == 0 && sp.shared == 0) && (k.Heap? ==> sp.shared == 0)
    ensures Part(Extended(sp, k, true, table), l) == Part(sp, l)
  {
    var sp' := Extended(sp, k, true, table);
    assert From(sp', l) >= From(sp, l) && To(sp', l) - From(sp', l) == To(sp, l) - From(sp, l);
  }

  lemma PartInTable(sp: Space, k: Kind, l: Kind)
    requires sp.stack + sp.heap + sp.shared == |sp.kids| && From(sp, k) < To(sp, k)
    ensures var p := Part(sp, k);
            var sp' := Extended(sp, k, false, 0);
            if l == k then Part(sp', l) == p[|p| - 1 := p[|p| - 1].(usage := p[|p| - 1].usage + 1)]
            else Part(sp', l) == Part(sp, l)
  {
    hide From, To;
    BoundsKnown(sp, k);
    BoundsKnown(sp, l);
    var sp' := Extended(sp, k, false, 0);
    SameBounds(sp, k, l);
    SliceUpdate(sp.kids, To(sp, k) - 1, sp'.kids[To(sp, k) - 1], From(sp, l), To(sp, l));
    if l != k { Apart(sp, k, l); }
  }

  lemma BoundsKnown(sp: Space, k: Kind)
    requires sp.stack + sp.heap + sp.shared == |sp.kids|
    ensures From(sp, k) <= To(sp, k) <= |sp.kids|
  {}

  lemma SameBounds(sp: Space, k: Kind, l: Kind)
    requires sp.stack + sp.heap + sp.shared == |sp.kids| && From(sp, k) < To(sp, k)
    ensures var sp' := Extended(sp, k, false, 0);
            && From(sp', l) == From(sp, l) && To(sp', l) == To(sp, l)
            && sp'.stack + sp'.heap + sp'.shared == |sp'.kids|
  {}

  lemma NewBounds(sp: Space, k: Kind, table: nat)
    requires sp.stack + sp.heap + sp.shared == |sp.kids|
    requires (k.StackCode? ==> sp.heap == 0 && sp.shared == 0) && (k.Heap? ==> sp.shared == 0)
    ensures var sp' := Extended(sp, k, true, table);
            && To(sp, k) == |sp.kids| && From(sp', k) == From(sp, k) && To(sp', k) == To(sp, k) + 1
            && sp'.stack + sp'.heap + sp'.shared == |sp'.kids|
            && sp'.kids == sp.kids + [Kid(table, Start(k) + (To(sp, k) - From(sp, k)), 1)]
  {}

  lemma PartByTable(sp: Space, k: Kind, table: nat)
    requires sp.stack + sp.heap + sp.shared == |sp.kids|
    requires (k.StackCode? ==> sp.heap == 0 && sp.shared == 0) && (k.Heap? ==> sp.shared == 0)
    ensures var p, p' := Part(sp, k), Part(Extended(sp, k, true, table), k);
            |p'| == |p| + 1 && p'[..|p|] == p && p'[|p|].index == Start(k) + |p| && p'[|p|].usage == 1
  {
    hide From, To, Extended;
    BoundsKnown(sp, k);
    NewBounds(sp, k, table);
    var x := Kid(table, Start(k) + (To(sp, k) - From(sp, k)), 1);
    SliceAppend(sp.kids, x, From(sp, k));
    assert Part(Extended(sp, k, true, table), k) == Part(sp, k) + [x];
  }

  lemma OfOneMore(c: Counts, k: Kind, l: Kind)
    ensures Of(OneMore(c, k), l) == Of(c, l) + if k == l then 1 else 0
  {}

  lemma ExtendedInTable(sp: Space, c: Counts, k: Kind)
    requires Reserved(sp, c) && InOrder(c, k) && Of(c, k) % 512 != 0 && 0 < To(sp, k) <= |sp.kids|
    ensures Reserved(Extended(sp, k, false, 0), OneMore(c, k))
  {
    hide Region, Part, Of, OneMore;
    var sp' := Extended(sp, k, false, 0);
    assert Region(Part(sp, k), Start(k), Of(c, k));
    PartSize(sp, k);
    RegionEmpty(Part(sp, k), Start(k), Of(c, k));
    forall l: Kind ensures Region(Part(sp', l), Start(l), Of(OneMore(c, k), l)) {
      assert Region(Part(sp, l), Start(l), Of(c, l));
      PartInTable(sp, k, l);
      OfOneMore(c, k, l);
      if l == k { RegionGrows(Part(sp, k), Part(sp', k), Start(k), Of(c, k)); }
    }
  }

  lemma PartSize(sp: Space, k: Kind)
    requires sp.stack + sp.heap + sp.shared == |sp.kids|
    ensures |Part(sp, k)| == To(sp, k) - From(sp, k)
  {}

  lemma ExtendedByTable(sp: Space, c: Counts, k: Kind, table: nat)
    requires Reserved(sp, c) && InOrder(c, k) && Of(c, k) % 512 == 0 && Room(sp)
    ensures Reserved(Extended(sp, k, true, table), OneMore(c, k))
  {
    hide Region, Part, Of, OneMore;
    RegionsEmpty(sp, c);
    var sp' := Extended(sp, k, true, table);
    PartByTable(sp, k, table);
    forall l: Kind ensures Region(Part(sp', l), Start(l), Of(OneMore(c, k), l)) {
      assert Region(Part(sp, l), Start(l), Of(c, l));
      OfOneMore(c, k, l);
      if l == k { RegionGrows(Part(sp, k), Part(sp', k), Start(k), Of(c, k)); }
      else { PartApart(sp, k, table, l); }
    }
  }

  function BlankTable(): Frame { Table(seq(PT_SIZE, i => BLANK)) }

  /** `add_frame_to_process`, up to the linking of shared pages. */
  method AddFrame(m: FrameList, sp0: Space, k: Kind, ghost c: Counts) returns (ok: bool, sp: Space)
    requires m.Valid() && Reserved(sp0, c) && InOrder(c, k)
    modifies m
    ensures m.Valid()
    ensures ok <==> Of(c, k) % 512 != 0 || (Room(sp0) && |old(m.free)| > 1)
    ensures !ok ==> m.free == old(m.free) && m.frames == old(m.frames)
    ensures ok && Of(c, k) % 512 != 0 ==>
              && 0 < To(sp0, k) <= |sp0.kids| && sp == Extended(sp0, k, false, 0)
              && m.free == old(m.free) && m.frames == old(m.frames)
    ensures ok && Of(c, k) % 512 == 0 ==>
              && var t := old(m.free)[0];
              && sp == Extended(sp0, k, true, t)
              && old(m.free) == [t] + m.free && t != 0
              && m.frames == old(m.frames)[t := BlankTable()]
    ensures ok ==> Reserved(sp, OneMore(c, k))
  {
    hide Reserved;
    sp := sp0;
    ExtendsKnown(sp0, c);
    var i := 0;
    while i < |sp.kids| && !Fits(sp.kids[i], k)
      invariant 0 <= i <= |sp.kids|
      invariant forall q :: 0 <= q < i ==> !Fits(sp.kids[q], k)
    {
      i := i + 1;
    }
    if i < |sp.kids| {
      OnlyLastFits(sp0, c, k, i);
      ExtendedReserved(sp0, c, k, 0);
      sp := sp.(kids := sp.kids[i := sp.kids[i].(usage := sp.kids[i].usage + 1)]);
      return true, sp;
    }
    NoneFits(sp0, c, k);
    ok, sp := AddChild(m, sp0, k);
    if !ok { return; }
    ExtendedReserved(sp0, c, k, old(m.free)[0]);
    var last := |sp.kids| - 1;
    sp := sp.(kids := sp.kids[last := sp.kids[last].(usage := sp.kids[last].usage + 1)]);
    assert sp.kids == sp0.kids + [sp.kids[last]];
  }

  lemma ExtendsKnown(sp: Space, c: Counts)
    requires Reserved(sp, c)
    ensures |sp.kids| == sp.usage == sp.stack + sp.heap + sp.shared
    ensures sp.stack <= STACK_FRAME_SIZE && sp.heap <= HEAP_FRAME_SIZE && sp.shared <= SHARED_FRAME_SIZE
  {}

  lemma NoneFits(sp: Space, c: Counts, k: Kind)
    requires Reserved(sp, c) && forall q :: 0 <= q < |sp.kids| ==> !Fits(sp.kids[q], k)
    ensures Of(c, k) % 512 == 0
  {
    hide Region;
    RegionsEmpty(sp, c);
    if Of(c, k) % 512 != 0 { OnlyLastFits(sp, c, k, To(sp, k) - 1); }
  }

  /** `add_child_node_page_table`: one more table, not used yet. */
  method AddChild(m: FrameList, sp0: Space, k: Kind) returns (ok: bool, sp: Space)
    requires m.Valid()
    modifies m
    ensures m.Valid()
    ensures ok <==> Room(sp0) && |old(m.free)| > 1
    ensures !ok ==> m.free == old(m.free) && m.frames == old(m.frames) && sp == sp0
    ensures ok ==>
              && var t := old(m.free)[0];
              && var n := match k case StackCode => sp0.stack case Heap => sp0.heap case Shared => sp0.shared;
              && sp == Extended(sp0, k, true, t).(kids := sp0.kids + [Kid(t, Start(k) + n, 0)])
              && old(m.free) == [t] + m.free && t != 0
              && m.frames == old(m.frames)[t := BlankTable()]
  {
    sp := sp0;
    if sp.usage >= PT_SIZE || sp.stack >= STACK_FRAME_SIZE || sp.heap >= HEAP_FRAME_SIZE || sp.shared >= SHARED_FRAME_SIZE {
      return false, sp;
    }
    var t := m.CreatePageTable();
    if t == 0 { return false, sp; }
    var index;
    match k {
      case StackCode => index := Start(k) + sp.stack; sp := sp.(stack := sp.stack + 1);
      case Heap => index := Start(k) + sp.heap; sp := sp.(heap := sp.heap + 1);
      case Shared => index := Start(k) + sp.shared; sp := sp.(shared := sp.shared + 1);
    }
    sp := sp.(usage := sp.usage + 1, kids := sp.kids + [Kid(t, index, 0)]);
    ok := true;
  }
}
