/**
  The bin and fastbin lists over the arena, and how they follow the states of the chunks.
  Lists run from `fd` of the bin header (first) to its `bk` (last).
  */
module MallocLists {
  import opened Common
  import opened PriorityOrder
  import opened MallocBins
  import opened MallocHeap

  const NFASTBINS := 11
  const MAX_FAST := 80  // request2size(DEFAULT_MXFAST)
  const UNSORTED := 1

  function FastIndex(sz: nat): nat
    requires sz >= MINSIZE
  {
    sz / 8 - 2
  }

  /** The list holds exactly the chunks whose state names it, each once. */
  ghost predicate ListOk(list: seq<nat>, st: map<nat, St>, mark: St) {
    Distinct(list) && forall a :: a in list <==> a in st && st[a] == mark
  }

  ghost predicate BinsOk(bins: seq<seq<nat>>, st: map<nat, St>) {
    && |bins| == NBINS
    && (forall i :: 0 <= i < NBINS ==> ListOk(bins[i], st, Free(i)))
    && (forall a :: a in st && st[a].Free? ==> st[a].bin < NBINS)
  }

  ghost predicate FastOk(fast: seq<seq<nat>>, st: map<nat, St>) {
    && |fast| == NFASTBINS
    && (forall i :: 0 <= i < NFASTBINS ==> ListOk(fast[i], st, Fast(i)))
    && (forall a :: a in st && st[a].Fast? ==> st[a].bin < NFASTBINS)
  }

  /** A chunk is in the unsorted list or in the bin of its size; fast chunks are small. */
  predicate Placed(st: St, size: nat) {
    match st
    case Free(i) => size < UINT && (i == UNSORTED || i == BinIndex(size))
    case Fast(i) => MINSIZE <= size <= MAX_FAST && i == FastIndex(size)
    case _ => true
  }

  ghost predicate IndexOk(size: map<nat, nat>, st: map<nat, St>) {
    forall a :: a in st ==> a in size && Placed(st[a], size[a])
  }

  /** Large bins are kept with the largest chunk first. */
  ghost predicate Descending(list: seq<nat>, size: map<nat, nat>) {
    && (forall a :: a in list ==> a in size)
    && forall x, y :: 0 <= x < y < |list| ==> size[list[x]] >= size[list[y]]
  }

  ghost predicate SortedOk(bins: seq<seq<nat>>, size: map<nat, nat>) {
    |bins| == NBINS && forall i :: NSMALLBINS <= i < NBINS ==> Descending(bins[i], size)
  }

  /** A bin that is not empty is marked in the map. */
  ghost predicate MapOk(bins: seq<seq<nat>>, binmap: seq<bool>) {
    |bins| == |binmap| == NBINS && forall i :: 2 <= i < NBINS && bins[i] != [] ==> binmap[i]
  }

  // ----- removing and inserting -----

  /** `unlink`. */
  function Unlinked(list: seq<nat>, a: nat): seq<nat>
    requires a in list
  {
    RemoveAt(list, IndexOf(list, a))
  }

  lemma UnlinkedHas(list: seq<nat>, a: nat)
    requires Distinct(list) && a in list
    ensures Distinct(Unlinked(list, a)) && forall x :: x in Unlinked(list, a) <==> x in list && x != a
  {
    var k, r := IndexOf(list, a), Unlinked(list, a);
    assert forall i :: 0 <= i < k ==> r[i] == list[i];
    assert forall i :: k <= i < |r| ==> r[i] == list[i + 1];
    forall x | x in list && x != a ensures x in r {
      var i :| 0 <= i < |list| && list[i] == x;
      assert r[if i < k then i else i - 1] == x;
    }
  }

  lemma UnlinkedSorted(list: seq<nat>, a: nat, size: map<nat, nat>)
    requires Descending(list, size) && a in list
    ensures Descending(Unlinked(list, a), size)
  {
    var k, r := IndexOf(list, a), Unlinked(list, a);
    assert forall i :: 0 <= i < |r| ==> r[i] == list[if i < k then i else i + 1];
  }

  lemma InsertedHas(list: seq<nat>, k: nat, a: nat)
    requires Distinct(list) && a !in list && k <= |list|
    ensures Distinct(InsertAt(list, k, a)) && forall x :: x in InsertAt(list, k, a) <==> x in list || x == a
  {
    var r := InsertAt(list, k, a);
    assert forall i :: 0 <= i < |r| ==> r[i] == if i < k then list[i] else if i == k then a else list[i - 1];
    forall x | x in list || x == a ensures x in r {
      if x == a { assert r[k] == a; }
      else {
        var i :| 0 <= i < |list| && list[i] == x;
        assert r[if i < k then i else i + 1] == x;
      }
    }
  }

  lemma InsertedSorted(list: seq<nat>, k: nat, a: nat, size: map<nat, nat>)
    requires Descending(list, size) && k <= |list| && a in size
    requires forall i :: 0 <= i < k ==> size[list[i]] >= size[a]
    requires forall i :: k <= i < |list| ==> size[list[i]] <= size[a]
    ensures Descending(InsertAt(list, k, a), size)
  {
    var r := InsertAt(list, k, a);
    assert forall i :: 0 <= i < |r| ==> r[i] == if i < k then list[i] else if i == k then a else list[i - 1];
  }

  /** The states st and st' agree about list `mark`. */
  ghost predicate SameMark(st: map<nat, St>, st': map<nat, St>, mark: St) {
    forall a :: (a in st && st[a] == mark) <==> (a in st' && st'[a] == mark)
  }

  lemma SameList(list: seq<nat>, st: map<nat, St>, st': map<nat, St>, mark: St)
    requires ListOk(list, st, mark) && SameMark(st, st', mark)
    ensures ListOk(list, st', mark)
  {}

  /** Chunk q leaves its bin; other chunks that disappear were in none. */
  lemma BinsWithout(bins: seq<seq<nat>>, st: map<nat, St>, st': map<nat, St>, q: nat)
    requires BinsOk(bins, st) && q in st && st[q].Free? && (q in st' ==> !st'[q].Free?)
    requires forall a :: a in st' && a != q ==> a in st && st'[a] == st[a]
    requires forall a :: a in st && a !in st' && a != q ==> !st[a].Free?
    ensures st[q].bin < NBINS && q in bins[st[q].bin]
    ensures BinsOk(bins[st[q].bin := Unlinked(bins[st[q].bin], q)], st')
  {
    var i := st[q].bin;
    assert ListOk(bins[i], st, Free(i));
    UnlinkedHas(bins[i], q);
    var bins' := bins[i := Unlinked(bins[i], q)];
    forall j | 0 <= j < NBINS ensures ListOk(bins'[j], st', Free(j)) {
      assert ListOk(bins[j], st, Free(j));
      if j != i { SameList(bins[j], st, st', Free(j)); }
    }
  }

  /** Chunk a enters bin i at place k. */
  lemma BinsWith(bins: seq<seq<nat>>, st: map<nat, St>, st': map<nat, St>, i: nat, k: nat, a: nat)
    requires BinsOk(bins, st) && i < NBINS && k <= |bins[i]| && (a in st ==> !st[a].Free?)
    requires a in st' && st'[a] == Free(i) && forall x :: x != a ==> (x in st' <==> x in st) && (x in st ==> st'[x] == st[x])
    ensures a !in bins[i] && BinsOk(bins[i := InsertAt(bins[i], k, a)], st')
  {
    assert ListOk(bins[i], st, Free(i));
    InsertedHas(bins[i], k, a);
    var bins' := bins[i := InsertAt(bins[i], k, a)];
    forall j | 0 <= j < NBINS ensures ListOk(bins'[j], st', Free(j)) {
      assert ListOk(bins[j], st, Free(j));
      if j != i { SameList(bins[j], st, st', Free(j)); }
    }
  }

  /** Lists do not notice changes between states they do not hold. */
  lemma BinsSame(bins: seq<seq<nat>>, st: map<nat, St>, st': map<nat, St>)
    requires BinsOk(bins, st)
    requires forall a :: a in st' ==> (a in st && st'[a] == st[a]) || !st'[a].Free?
    requires forall a :: a in st && st[a].Free? ==> a in st' && st'[a] == st[a]
    ensures BinsOk(bins, st')
  {
    forall j | 0 <= j < NBINS ensures ListOk(bins[j], st', Free(j)) {
      SameList(bins[j], st, st', Free(j));
    }
  }

  lemma FastSame(fast: seq<seq<nat>>, st: map<nat, St>, st': map<nat, St>)
    requires FastOk(fast, st)
    requires forall a :: a in st' ==> (a in st && st'[a] == st[a]) || !st'[a].Fast?
    requires forall a :: a in st && st[a].Fast? ==> a in st' && st'[a] == st[a]
    ensures FastOk(fast, st')
  {
    forall j | 0 <= j < NFASTBINS ensures ListOk(fast[j], st', Fast(j)) {
      SameList(fast[j], st, st', Fast(j));
    }
  }

  /** The first chunk of a fastbin is taken off. */
  lemma FastPop(fast: seq<seq<nat>>, st: map<nat, St>, i: nat, s: St)
    requires FastOk(fast, st) && i < NFASTBINS && fast[i] != [] && !s.Fast?
    ensures var a := fast[i][0]; a in st && st[a] == Fast(i) && FastOk(fast[i := fast[i][1..]], st[a := s])
  {
    var a := fast[i][0];
    assert ListOk(fast[i], st, Fast(i));
    var fast', st' := fast[i := fast[i][1..]], st[a := s];
    assert fast[i] == [a] + fast[i][1..];
    forall j | 0 <= j < NFASTBINS ensures ListOk(fast'[j], st', Fast(j)) {
      assert ListOk(fast[j], st, Fast(j));
      if j != i { SameList(fast[j], st, st', Fast(j)); }
    }
  }

  lemma FastPush(fast: seq<seq<nat>>, st: map<nat, St>, i: nat, a: nat)
    requires FastOk(fast, st) && i < NFASTBINS && a in st && !st[a].Fast?
    ensures FastOk(fast[i := [a] + fast[i]], st[a := Fast(i)])
  {
    var fast', st' := fast[i := [a] + fast[i]], st[a := Fast(i)];
    forall j | 0 <= j < NFASTBINS ensures ListOk(fast'[j], st', Fast(j)) {
      assert ListOk(fast[j], st, Fast(j));
      if j != i { SameList(fast[j], st, st', Fast(j)); }
    }
  }

  /** Sorted bins stay sorted while the sizes of their chunks stay. */
  lemma SortedSame(bins: seq<seq<nat>>, size: map<nat, nat>, size': map<nat, nat>)
    requires SortedOk(bins, size)
    requires forall i, a :: NSMALLBINS <= i < NBINS && a in bins[i] ==> a in size' && a in size && size'[a] == size[a]
    ensures SortedOk(bins, size')
  {
    forall i | NSMALLBINS <= i < NBINS ensures Descending(bins[i], size') {
      assert Descending(bins[i], size);
    }
  }
}
