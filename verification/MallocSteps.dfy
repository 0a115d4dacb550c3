/**
  The steps of malloc and free on arena and lists together. Each keeps the invariant, and
  changes the chunks in use by at most the one it is about.
  */
module MallocSteps {
  import opened PriorityOrder
  import opened MallocBins
  import opened MallocHeap
  import opened MallocLists

  datatype Heap = Heap(A: Arena, bins: seq<seq<nat>>, fast: seq<seq<nat>>, binmap: seq<bool>)

  /** The invariant; `hand` is the chunk being consolidated, or `limit` for none. */
  ghost predicate HeapOk(h: Heap, base: nat, limit: nat, hand: nat) {
    && Physical(h.A, base, limit) && OnlyHand(h.A.st, hand) && limit - base < UINT
    && BinsOk(h.bins, h.A.st) && FastOk(h.fast, h.A.st) && IndexOk(h.A.size, h.A.st)
    && SortedOk(h.bins, h.A.size) && MapOk(h.bins, h.binmap)
  }

  predicate InUse(A: Arena, a: nat) { a in A.st && A.st[a].Used? }

  /** Chunks in use, other than x, are in use before and after, with the same size. */
  ghost predicate SameUsers(A: Arena, A': Arena, x: nat) {
    forall a :: a != x ==> (InUse(A, a) <==> InUse(A', a)) && (InUse(A, a) && a in A.size ==> a in A'.size && A'.size[a] == A.size[a])
  }

  /** No chunk in use is concerned. */
  ghost predicate Quiet(A: Arena, A': Arena) {
    forall a :: (InUse(A, a) <==> InUse(A', a)) && (InUse(A, a) && a in A.size ==> a in A'.size && A'.size[a] == A.size[a])
  }

  lemma SizeKnown(A: Arena, base: nat, limit: nat, a: nat)
    requires Physical(A, base, limit) && a in A.size
    ensures MINSIZE <= A.size[a] <= limit - base && A.size[a] % ALIGN == 0
  {
    assert ChunkOk(A.size, base, limit, a);
  }

  lemma StKnown(A: Arena, base: nat, limit: nat, a: nat)
    requires Physical(A, base, limit) && a in A.st
    ensures a in A.size && a != A.top
  {}

  // ----- taking a free chunk -----

  function Removed(bins: seq<seq<nat>>, A: Arena, a: nat): seq<seq<nat>>
    requires a in A.st && A.st[a].Free? && A.st[a].bin < |bins| && a in bins[A.st[a].bin]
  {
    bins[A.st[a].bin := Unlinked(bins[A.st[a].bin], a)]
  }

  /** A free chunk is in its bin. */
  lemma InItsBin(bins: seq<seq<nat>>, st: map<nat, St>, a: nat)
    requires BinsOk(bins, st) && a in st && st[a].Free?
    ensures st[a].bin < NBINS == |bins| && a in bins[st[a].bin]
  {
    assert ListOk(bins[st[a].bin], st, st[a]);
  }

  lemma RemovedSorted(bins: seq<seq<nat>>, size: map<nat, nat>, i: nat, a: nat)
    requires SortedOk(bins, size) && i < NBINS && a in bins[i]
    ensures SortedOk(bins[i := Unlinked(bins[i], a)], size)
  {
    if i >= NSMALLBINS { UnlinkedSorted(bins[i], a, size); }
  }

  lemma RemovedMap(bins: seq<seq<nat>>, binmap: seq<bool>, i: nat, a: nat)
    requires MapOk(bins, binmap) && i < NBINS && a in bins[i]
    ensures MapOk(bins[i := Unlinked(bins[i], a)], binmap)
  {}

  /** The chunk is removed from its bin and its in-use bit set. */
  function TakeFree(h: Heap, a: nat): Heap
    requires a in h.A.size && a in h.A.st && h.A.st[a].Free? && h.A.st[a].bin < |h.bins| && a in h.bins[h.A.st[a].bin]
  {
    h.(A := Take(h.A, a), bins := Removed(h.bins, h.A, a))
  }

  lemma TakeFreeOk(h: Heap, base: nat, limit: nat, a: nat)
    requires HeapOk(h, base, limit, limit) && a in h.A.st && h.A.st[a].Free?
    ensures a in h.A.size && h.A.st[a].bin < |h.bins| && a in h.bins[h.A.st[a].bin]
    ensures var h' := TakeFree(h, a); HeapOk(h', base, limit, limit) && SameUsers(h.A, h'.A, a) && InUse(h'.A, a) && h'.A.size == h.A.size
  {
    hide Physical, BinsOk, FastOk, SortedOk, MapOk;
    StKnown(h.A, base, limit, a);
    InItsBin(h.bins, h.A.st, a);
    TakeOk(h.A, base, limit, a);
    var h', i := TakeFree(h, a), h.A.st[a].bin;
    BinsWithout(h.bins, h.A.st, h'.A.st, a);
    FastSame(h.fast, h.A.st, h'.A.st);
    RemovedSorted(h.bins, h.A.size, i, a);
    RemovedMap(h.bins, h.binmap, i, a);
  }

  /** The chunk is removed from its bin and split, and its remainder becomes the whole of
      the unsorted list. */
  function SplitChunk(h: Heap, a: nat, nb: nat): Heap
    requires a in h.A.size && a in h.A.st && h.A.st[a].Free? && h.A.st[a].bin < |h.bins| && a in h.bins[h.A.st[a].bin]
    requires nb <= h.A.size[a] && |h.bins| == NBINS
  {
    h.(A := SplitFree(h.A, a, nb, UNSORTED), bins := Removed(h.bins, h.A, a)[UNSORTED := [a + nb]])
  }

  /** No chunk is lost by that, because the unsorted list is empty, or held just the chunk
      that is split. */
  lemma SplitChunkOk(h: Heap, base: nat, limit: nat, a: nat, nb: nat)
    requires HeapOk(h, base, limit, limit) && a in h.A.st && h.A.st[a].Free?
    requires a in h.A.size && MINSIZE <= nb && nb + MINSIZE <= h.A.size[a] && nb % ALIGN == 0
    requires h.bins[UNSORTED] == [] || h.bins[UNSORTED] == [a]
    ensures h.A.st[a].bin < |h.bins| == NBINS && a in h.bins[h.A.st[a].bin]
    ensures var h' := SplitChunk(h, a, nb);
            HeapOk(h', base, limit, limit) && SameUsers(h.A, h'.A, a) && InUse(h'.A, a) && h'.A.size[a] == nb
  {
    hide Physical, BinsOk, FastOk, SortedOk, MapOk, IndexOk;
    InItsBin(h.bins, h.A.st, a);
    SplitFreeOk(h.A, base, limit, a, nb, UNSORTED);
    var h', i := SplitChunk(h, a, nb), h.A.st[a].bin;
    var r: nat := a + nb;
    NotListed(h.A, base, limit, r);
    SizeKnown(h.A, base, limit, a);
    var bins1, st1 := Removed(h.bins, h.A, a), h.A.st[a := Used];
    BinsWithout(h.bins, h.A.st, st1, a);
    assert bins1[UNSORTED] == [] by {
      if h.bins[UNSORTED] == [a] { ListedThere(h.bins, h.A.st, UNSORTED, a); }
      OnlyUnsorted(h.bins, i, a);
    }
    BinsWith(bins1, st1, h'.A.st, UNSORTED, 0, r);
    assert InsertAt(bins1[UNSORTED], 0, r) == [r];
    FastSame(h.fast, h.A.st, h'.A.st);
    RemovedSorted(h.bins, h.A.size, i, a);
    RemovedMap(h.bins, h.binmap, i, a);
    SplitSorted(bins1, st1, h.A.size, a, nb, r);
    SplitIndex(h.A.size, h.A.st, a, nb, r);
    SplitMap(bins1, h.binmap, [r]);
  }

  lemma NotListed(A: Arena, base: nat, limit: nat, r: nat)
    requires Physical(A, base, limit) && r !in A.size
    ensures r !in A.st
  {}

  lemma OnlyUnsorted(bins: seq<seq<nat>>, i: nat, a: nat)
    requires i < NBINS == |bins| && a in bins[i] && (bins[UNSORTED] == [] || (bins[UNSORTED] == [a] && i == UNSORTED))
    ensures bins[i := Unlinked(bins[i], a)][UNSORTED] == []
  {}

  lemma ListedThere(bins: seq<seq<nat>>, st: map<nat, St>, i: nat, a: nat)
    requires BinsOk(bins, st) && i < NBINS && a in bins[i]
    ensures a in st && st[a] == Free(i)
  {
    assert ListOk(bins[i], st, Free(i));
  }

  /** The sizes of the other free chunks have not changed. */
  lemma SplitSorted(bins: seq<seq<nat>>, st: map<nat, St>, size: map<nat, nat>, a: nat, nb: nat, r: nat)
    requires BinsOk(bins, st) && SortedOk(bins, size) && a in size && nb <= size[a] && r == a + nb && r !in size && a in st && !st[a].Free?
    ensures SortedOk(bins[UNSORTED := [r]], Halved(size, a, nb))
  {
    forall i, x | NSMALLBINS <= i < NBINS && x in bins[i] ensures x in size && x != a && x != r {
      assert ListOk(bins[i], st, Free(i)) && Descending(bins[i], size);
    }
    SortedSame(bins, size, Halved(size, a, nb));
  }

  lemma SplitIndex(size: map<nat, nat>, st: map<nat, St>, a: nat, nb: nat, r: nat)
    requires IndexOk(size, st) && a in size && a in st && nb <= size[a] < UINT && r == a + nb && r !in size
    ensures IndexOk(Halved(size, a, nb), st[a := Used][r := Free(UNSORTED)])
  {}

  lemma SplitMap(bins: seq<seq<nat>>, binmap: seq<bool>, list: seq<nat>)
    requires MapOk(bins, binmap)
    ensures MapOk(bins[UNSORTED := list], binmap)
  {}

  // ----- the top chunk -----

  lemma SplitTopHeap(h: Heap, base: nat, limit: nat, nb: nat)
    requires HeapOk(h, base, limit, limit) && MINSIZE <= nb && nb % ALIGN == 0
    requires h.A.top in h.A.size && nb + MINSIZE <= h.A.size[h.A.top]
    ensures var h' := h.(A := SplitTop(h.A, nb));
            HeapOk(h', base, limit, limit) && SameUsers(h.A, h'.A, h.A.top) && InUse(h'.A, h.A.top) && h'.A.size[h.A.top] == nb
            && !InUse(h.A, h.A.top)
  {
    hide Physical, BinsOk, FastOk, SortedOk, MapOk, IndexOk;
    SplitTopOk(h.A, base, limit, nb);
    TopKnown(h.A, base, limit);
    var h', a, r := h.(A := SplitTop(h.A, nb)), h.A.top, h.A.top + nb;
    NotListed(h.A, base, limit, r);
    BinsSame(h.bins, h.A.st, h'.A.st);
    FastSame(h.fast, h.A.st, h'.A.st);
    TopSorted(h.bins, h.A.st, h.A.size, a, nb, r);
    TopIndex(h.A.size, h.A.st, a, nb, r);
  }

  lemma TopKnown(A: Arena, base: nat, limit: nat)
    requires Physical(A, base, limit)
    ensures A.top in A.size && A.top !in A.st
  {}

  lemma TopSorted(bins: seq<seq<nat>>, st: map<nat, St>, size: map<nat, nat>, a: nat, nb: nat, r: nat)
    requires BinsOk(bins, st) && SortedOk(bins, size) && a in size && nb <= size[a] && r == a + nb && r !in size && a !in st
    ensures SortedOk(bins, Halved(size, a, nb))
  {
    forall i, x | NSMALLBINS <= i < NBINS && x in bins[i] ensures x in size && x != a && x != r {
      assert ListOk(bins[i], st, Free(i)) && Descending(bins[i], size);
    }
    SortedSame(bins, size, Halved(size, a, nb));
  }

  lemma TopIndex(size: map<nat, nat>, st: map<nat, St>, a: nat, nb: nat, r: nat)
    requires IndexOk(size, st) && a in size && a !in st && nb <= size[a] && r == a + nb && r !in size
    ensures IndexOk(Halved(size, a, nb), st[a := Used])
  {}

  // ----- from the unsorted list to a bin -----

  /** An unsorted chunk moves to place k of the bin of its size. */
  function Binned(h: Heap, a: nat, j: nat, k: nat): Heap
    requires |h.bins| == NBINS == |h.binmap| && a in h.bins[UNSORTED] && j < NBINS && j != UNSORTED && k <= |h.bins[j]|
  {
    var bins1 := h.bins[UNSORTED := Unlinked(h.bins[UNSORTED], a)];
    h.(A := h.A.(st := h.A.st[a := Free(j)]), bins := bins1[j := InsertAt(bins1[j], k, a)], binmap := h.binmap[j := true])
  }

  lemma BinnedOk(h: Heap, base: nat, limit: nat, a: nat, j: nat, k: nat)
    requires HeapOk(h, base, limit, limit) && |h.bins| == NBINS && a in h.bins[UNSORTED] && j < NBINS && j != UNSORTED && k <= |h.bins[j]|
    requires a in h.A.size && h.A.size[a] < UINT && j == BinIndex(h.A.size[a])
    requires j >= NSMALLBINS ==>
               && (forall i :: 0 <= i < k ==> h.bins[j][i] in h.A.size && h.A.size[h.bins[j][i]] >= h.A.size[a])
               && (forall i :: k <= i < |h.bins[j]| ==> h.bins[j][i] in h.A.size && h.A.size[h.bins[j][i]] <= h.A.size[a])
    ensures |h.binmap| == NBINS && HeapOk(Binned(h, a, j, k), base, limit, limit) && Quiet(h.A, Binned(h, a, j, k).A)
    ensures |Unlinked(h.bins[UNSORTED], a)| < |h.bins[UNSORTED]|
  {
    hide Physical, BinsOk, FastOk, SortedOk, MapOk, IndexOk, BinIndex;
    MapKnown(h.bins, h.binmap);
    ListedThere(h.bins, h.A.st, UNSORTED, a);
    var h', bins1 := Binned(h, a, j, k), h.bins[UNSORTED := Unlinked(h.bins[UNSORTED], a)];
    RestatedOk(h.A, base, limit, a, Free(j));
    var st1 := h.A.st[a := Hand];
    BinsWithout(h.bins, h.A.st, st1, a);
    BinsWith(bins1, st1, h'.A.st, j, k, a);
    FastSame(h.fast, h.A.st, h'.A.st);
    BinnedSorted(h.bins, bins1, h.A.size, j, k, a);
    BinnedMap(h.bins, h.binmap, bins1, h'.bins, j);
    BinnedIndex(h.A.size, h.A.st, a, j);
  }

  lemma MapKnown(bins: seq<seq<nat>>, binmap: seq<bool>)
    requires MapOk(bins, binmap)
    ensures |bins| == |binmap| == NBINS
  {}

  lemma BinnedSorted(bins: seq<seq<nat>>, bins1: seq<seq<nat>>, size: map<nat, nat>, j: nat, k: nat, a: nat)
    requires SortedOk(bins, size) && j < NBINS && j != UNSORTED && k <= |bins[j]| && a in size
    requires |bins1| == NBINS && forall i :: 0 <= i < NBINS && i != UNSORTED ==> bins1[i] == bins[i]
    requires j >= NSMALLBINS ==>
               && (forall i :: 0 <= i < k ==> bins[j][i] in size && size[bins[j][i]] >= size[a])
               && (forall i :: k <= i < |bins[j]| ==> bins[j][i] in size && size[bins[j][i]] <= size[a])
    ensures SortedOk(bins1[j := InsertAt(bins1[j], k, a)], size)
  {
    if j >= NSMALLBINS { InsertedSorted(bins[j], k, a, size); }
  }

  lemma BinnedMap(bins: seq<seq<nat>>, binmap: seq<bool>, bins1: seq<seq<nat>>, bins': seq<seq<nat>>, j: nat)
    requires MapOk(bins, binmap) && j < NBINS && |bins1| == |bins'| == NBINS
    requires forall i :: 0 <= i < NBINS && i != UNSORTED && i != j ==> bins'[i] == bins[i]
    ensures MapOk(bins', binmap[j := true])
  {}

  lemma BinnedIndex(size: map<nat, nat>, st: map<nat, St>, a: nat, j: nat)
    requires IndexOk(size, st) && a in size && a in st && size[a] < UINT && j == BinIndex(size[a])
    ensures IndexOk(size, st[a := Free(j)])
  {
    hide BinIndex;
  }

  // ----- fastbins -----

  /** A small chunk is put on the front of its fastbin. */
  function PushFast(h: Heap, p: nat): Heap
    requires p in h.A.size && h.A.size[p] >= MINSIZE && FastIndex(h.A.size[p]) < |h.fast|
  {
    var i := FastIndex(h.A.size[p]);
    h.(A := h.A.(st := h.A.st[p := Fast(i)]), fast := h.fast[i := [p] + h.fast[i]])
  }

  lemma PushFastOk(h: Heap, base: nat, limit: nat, p: nat)
    requires HeapOk(h, base, limit, limit) && InUse(h.A, p) && p in h.A.size && h.A.size[p] <= MAX_FAST
    ensures h.A.size[p] >= MINSIZE && FastIndex(h.A.size[p]) < |h.fast|
    ensures var h' := PushFast(h, p); HeapOk(h', base, limit, limit) && SameUsers(h.A, h'.A, p) && !InUse(h'.A, p)
  {
    hide Physical, BinsOk, SortedOk, MapOk;
    SizeKnown(h.A, base, limit, p);
    var h', i := PushFast(h, p), FastIndex(h.A.size[p]);
    RestatedOk(h.A, base, limit, p, Fast(i));
    BinsSame(h.bins, h.A.st, h'.A.st);
    FastPush(h.fast, h.A.st, i, p);
  }

  /** The first chunk of fastbin i is taken, to be used or to be consolidated. */
  function PopFast(h: Heap, i: nat, s: St): Heap
    requires i < |h.fast| && h.fast[i] != []
  {
    h.(A := h.A.(st := h.A.st[h.fast[i][0] := s]), fast := h.fast[i := h.fast[i][1..]])
  }

  lemma PopFastOk(h: Heap, base: nat, limit: nat, i: nat, s: St)
    requires HeapOk(h, base, limit, limit) && i < NFASTBINS && |h.fast| == NFASTBINS && h.fast[i] != [] && (s.Used? || s.Hand?)
    ensures var p, h' := h.fast[i][0], PopFast(h, i, s);
            && p in h.A.st && h.A.st[p] == Fast(i) && p in h.A.size && h'.A.st[p] == s
            && HeapOk(h', base, limit, if s.Hand? then p else limit) && SameUsers(h.A, h'.A, p) && (s.Hand? ==> Quiet(h.A, h'.A))
  {
    hide Physical, BinsOk, FastOk, SortedOk, MapOk;
    FastPop(h.fast, h.A.st, i, s);
    var p, h' := h.fast[i][0], PopFast(h, i, s);
    NoLimit(h.A, base, limit);
    RestatedOk(h.A, base, limit, p, s);
    BinsSame(h.bins, h.A.st, h'.A.st);
    StKnown(h.A, base, limit, p);
  }

  lemma NoLimit(A: Arena, base: nat, limit: nat)
    requires Physical(A, base, limit)
    ensures limit !in A.st && limit !in A.size
  {
    NotLimit(A, base, limit);
  }

  // ----- consolidation -----

  lemma PickUpHeap(h: Heap, base: nat, limit: nat, p: nat)
    requires HeapOk(h, base, limit, limit) && InUse(h.A, p)
    ensures var h' := h.(A := PickUp(h.A, p)); HeapOk(h', base, limit, p) && SameUsers(h.A, h'.A, p) && !InUse(h'.A, p) && p in h.A.size
  {
    hide Physical, BinsOk, FastOk, SortedOk, MapOk;
    PickUpOk(h.A, base, limit, p);
    NoLimit(h.A, base, limit);
    var h' := h.(A := PickUp(h.A, p));
    BinsSame(h.bins, h.A.st, h'.A.st);
    FastSame(h.fast, h.A.st, h'.A.st);
  }

  /** Sizes of listed chunks do not change when unlisted ones are fused. */
  lemma FusedSorted(bins: seq<seq<nat>>, st: map<nat, St>, size: map<nat, nat>, a: nat)
    requires BinsOk(bins, st) && SortedOk(bins, size) && a in size && a + size[a] in size && (a in st ==> !st[a].Free?) && a + size[a] !in st
    ensures SortedOk(bins, Fused(size, a))
  {
    forall i, x | NSMALLBINS <= i < NBINS && x in bins[i] ensures x in size && x != a && x != a + size[a] {
      assert ListOk(bins[i], st, Free(i)) && Descending(bins[i], size);
    }
    SortedSame(bins, size, Fused(size, a));
  }

  lemma FusedIndex(size: map<nat, nat>, st: map<nat, St>, st': map<nat, St>, a: nat)
    requires IndexOk(size, st) && a in size && a + size[a] in size
    requires forall x :: x in st' && x != a ==> x in st && st'[x] == st[x] && x != a + size[a]
    requires a in st' ==> st'[a].Hand?
    ensures IndexOk(Fused(size, a), st')
  {
    hide BinIndex;
  }

  /** Backward: the free chunk before p absorbs it. */
  lemma AbsorbBack(h: Heap, base: nat, limit: nat, p: nat)
    requires HeapOk(h, base, limit, p) && p in h.A.st && h.A.st[p].Hand? && p in h.A.pin && !h.A.pin[p]
    ensures p in h.A.feet && h.A.feet[p] <= p
    ensures var q := p - h.A.feet[p];
            && q in h.A.st && h.A.st[q].Free? && q in h.A.size && Next(h.A, q) == p && p in h.A.size
            && h.A.st[q].bin < |h.bins| && q in h.bins[h.A.st[q].bin]
            && var h' := h.(A := Absorb(h.A, q), bins := Removed(h.bins, h.A, q));
            && HeapOk(h', base, limit, q) && Quiet(h.A, h'.A) && h'.A.st[q].Hand? && q in h'.A.pin && h'.A.pin[q]
  {
    hide Physical, BinsOk, FastOk, SortedOk, MapOk, IndexOk;
    Behind(h.A, base, limit, p);
    var q := p - h.A.feet[p];
    InItsBin(h.bins, h.A.st, q);
    AbsorbOk(h.A, base, limit, q);
    StKnown(h.A, base, limit, p);
    var h' := h.(A := Absorb(h.A, q), bins := Removed(h.bins, h.A, q));
    BinsWithout(h.bins, h.A.st, h'.A.st, q);
    FastSame(h.fast, h.A.st, h'.A.st);
    RemovedSorted(h.bins, h.A.size, h.A.st[q].bin, q);
    RemovedMap(h.bins, h.binmap, h.A.st[q].bin, q);
    NotSelf(h.A, base, limit, q);
    FusedSorted(h'.bins, h'.A.st, h.A.size, q);
    FusedIndex(h.A.size, h.A.st, h'.A.st, q);
  }

  lemma NotSelf(A: Arena, base: nat, limit: nat, a: nat)
    requires Physical(A, base, limit) && a in A.size
    ensures Next(A, a) != a
  {}

  /** Forward: p absorbs the free chunk behind it. */
  lemma AbsorbForth(h: Heap, base: nat, limit: nat, p: nat)
    requires HeapOk(h, base, limit, p) && p in h.A.st && h.A.st[p].Hand? && p in h.A.size && Next(h.A, p) in h.A.st && h.A.st[Next(h.A, p)].Free?
    requires p in h.A.pin && h.A.pin[p]
    ensures var n := Next(h.A, p);
            && n in h.A.size && h.A.st[n].bin < |h.bins| && n in h.bins[h.A.st[n].bin]
            && var h' := h.(A := Absorb(h.A, p), bins := Removed(h.bins, h.A, n));
            && HeapOk(h', base, limit, p) && Quiet(h.A, h'.A) && p in h'.A.st && h'.A.st[p].Hand? && p in h'.A.pin && h'.A.pin[p]
            && Next(h'.A, p) in h'.A.st && !h'.A.st[Next(h'.A, p)].Free?
  {
    hide Physical, BinsOk, FastOk, SortedOk, MapOk, IndexOk;
    var n := Next(h.A, p);
    InItsBin(h.bins, h.A.st, n);
    StKnown(h.A, base, limit, n);
    AbsorbOk(h.A, base, limit, p);
    FreeChunksApart(h.A, base, limit, n);
    var h' := h.(A := Absorb(h.A, p), bins := Removed(h.bins, h.A, n));
    BinsWithout(h.bins, h.A.st, h'.A.st, n);
    FastSame(h.fast, h.A.st, h'.A.st);
    RemovedSorted(h.bins, h.A.size, h.A.st[n].bin, n);
    RemovedMap(h.bins, h.binmap, h.A.st[n].bin, n);
    NotSelf(h.A, base, limit, p);
    NotSelf(h.A, base, limit, n);
    FusedSorted(h'.bins, h'.A.st, h.A.size, p);
    FusedIndex(h.A.size, h.A.st, h'.A.st, p);
  }

  lemma JoinTopHeap(h: Heap, base: nat, limit: nat, p: nat)
    requires HeapOk(h, base, limit, p) && p in h.A.st && h.A.st[p].Hand? && p in h.A.size && Next(h.A, p) == h.A.top
    requires p in h.A.pin && h.A.pin[p]
    ensures Next(h.A, p) in h.A.size
    ensures var h' := h.(A := JoinTop(h.A, p)); HeapOk(h', base, limit, limit) && Quiet(h.A, h'.A)
  {
    hide Physical, BinsOk, FastOk, SortedOk, MapOk, IndexOk;
    TopKnown(h.A, base, limit);
    JoinTopOk(h.A, base, limit, p);
    var h' := h.(A := JoinTop(h.A, p));
    BinsSame(h.bins, h.A.st, h'.A.st);
    FastSame(h.fast, h.A.st, h'.A.st);
    FusedSorted(h.bins, h'.A.st, h.A.size, p);
    FusedIndex(h.A.size, h.A.st, h'.A.st, p);
  }

  /** The consolidated chunk becomes the first of the unsorted list. */
  lemma SettleHeap(h: Heap, base: nat, limit: nat, p: nat)
    requires HeapOk(h, base, limit, p) && p in h.A.st && h.A.st[p].Hand? && p in h.A.size && p in h.A.pin && h.A.pin[p]
    requires Next(h.A, p) in h.A.st && !h.A.st[Next(h.A, p)].Free?
    ensures |h.bins| == NBINS
    ensures var h' := h.(A := Settle(h.A, p, UNSORTED), bins := h.bins[UNSORTED := [p] + h.bins[UNSORTED]]);
            HeapOk(h', base, limit, limit) && Quiet(h.A, h'.A)
  {
    hide Physical, BinsOk, FastOk, SortedOk, MapOk, IndexOk;
    MapKnown(h.bins, h.binmap);
    SettleOk(h.A, base, limit, p, UNSORTED);
    SizeKnown(h.A, base, limit, p);
    var h' := h.(A := Settle(h.A, p, UNSORTED), bins := h.bins[UNSORTED := [p] + h.bins[UNSORTED]]);
    BinsWith(h.bins, h.A.st, h'.A.st, UNSORTED, 0, p);
    assert InsertAt(h.bins[UNSORTED], 0, p) == [p] + h.bins[UNSORTED];
    FastSame(h.fast, h.A.st, h'.A.st);
    UnsortedAside(h.bins, h.A.size, h.binmap, h'.bins);
    SettleIndex(h.A.size, h.A.st, p);
  }

  lemma UnsortedAside(bins: seq<seq<nat>>, size: map<nat, nat>, binmap: seq<bool>, bins': seq<seq<nat>>)
    requires SortedOk(bins, size) && MapOk(bins, binmap) && |bins'| == NBINS
    requires forall i :: 0 <= i < NBINS && i != UNSORTED ==> bins'[i] == bins[i]
    ensures SortedOk(bins', size) && MapOk(bins', binmap)
  {}

  lemma SettleIndex(size: map<nat, nat>, st: map<nat, St>, p: nat)
    requires IndexOk(size, st) && p in size && size[p] < UINT
    ensures IndexOk(size, st[p := Free(UNSORTED)])
  {
    hide BinIndex;
  }

  // ----- what the invariant says about places -----

  /** A free chunk is in exactly one bin. */
  lemma FreeInOneBin(h: Heap, base: nat, limit: nat, hand: nat, a: nat)
    requires HeapOk(h, base, limit, hand) && a in h.A.st && h.A.st[a].Free?
    ensures |h.bins| == NBINS && exists i :: 0 <= i < NBINS && a in h.bins[i] && forall j :: 0 <= j < NBINS && a in h.bins[j] ==> j == i
  {
    hide Physical, FastOk, SortedOk, MapOk, IndexOk;
    InItsBin(h.bins, h.A.st, a);
    forall j | 0 <= j < NBINS && a in h.bins[j] ensures j == h.A.st[a].bin {
      ListedThere(h.bins, h.A.st, j, a);
    }
  }

  /** A chunk in use, a fast chunk and the top chunk are in no bin. */
  lemma OthersInNoBin(h: Heap, base: nat, limit: nat, hand: nat, a: nat, i: nat)
    requires HeapOk(h, base, limit, hand) && i < NBINS && (a in h.A.st ==> !h.A.st[a].Free?)
    ensures |h.bins| == NBINS && a !in h.bins[i]
  {
    hide Physical, FastOk, SortedOk, MapOk, IndexOk;
    if a in h.bins[i] { ListedThere(h.bins, h.A.st, i, a); }
  }

  /** Two chunks in use do not overlap, whatever has been allocated and freed before. */
  lemma UsersApart(h: Heap, base: nat, limit: nat, hand: nat, a: nat, b: nat)
    requires HeapOk(h, base, limit, hand) && InUse(h.A, a) && InUse(h.A, b) && a < b
    ensures a in h.A.size && a + h.A.size[a] <= b
  {
    hide BinsOk, FastOk, SortedOk, MapOk, IndexOk, Sized;
    StKnown(h.A, base, limit, a);
    StKnown(h.A, base, limit, b);
  }
}
