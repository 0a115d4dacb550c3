/**
  `mALLOc`, `fREe` and `malloc_consolidate` (`src/lib/stdlib/malloc.c`) after start-up and
  without memory mapping, updating headers, lists and flags in place. Addresses are those
  of chunks; asking the system for more memory is not part of this model, so a request the
  top chunk cannot serve ends with `NoMemory`.
  */
module Malloc {
  import opened Common
  import opened PriorityOrder
  import opened MallocBins
  import opened MallocHeap
  import opened MallocLists
  import opened MallocSteps

  const CONSOLIDATION_THRESHOLD := 0x2_0000  // half of the default trim threshold

  /** Chunk v has come into use, large enough but without room for another chunk, and no
      other has changed. */
  ghost predicate Allocated(A: Arena, A': Arena, v: nat, nb: nat) {
    SameUsers(A, A', v) && !InUse(A, v) && InUse(A', v) && v in A'.size && nb <= A'.size[v] < nb + MINSIZE
  }

  lemma QuietThen(A: Arena, B: Arena, C: Arena, v: nat, nb: nat)
    requires Quiet(A, B) && Allocated(B, C, v, nb) && (forall a :: InUse(A, a) ==> a in A.size)
    ensures Allocated(A, C, v, nb)
  {}

  lemma UsersSized(A: Arena, base: nat, limit: nat)
    requires Physical(A, base, limit)
    ensures forall a :: InUse(A, a) ==> a in A.size
  {}

  /** A chunk size that `request2size` can produce. */
  predicate Request(nb: nat) { MINSIZE <= nb && nb + MINSIZE < SIZE_MAX && nb % ALIGN == 0 }

  /** What a call of `mALLOc` comes to: a chunk, no chunk, or the bin scan at a chunk that
      is smaller than the request, where the assertion in it fails. */
  datatype Answer = Chunk(chunk: nat) | NoMemory | TooSmall(chunk: nat)

  /** No free chunk serves the request: none is large enough, and none is in a bin above
      that of the request. */
  ghost predicate NoneFits(A: Arena, nb: nat)
    requires nb < SIZE_MAX
  {
    forall a :: a in A.st && A.st[a].Free? ==> a in A.size && A.size[a] < UINT && A.size[a] < nb && BinIndex(A.size[a]) <= BinIndex(nb)
  }

  /** The top chunk cannot be split for the request. */
  predicate TopTooSmall(A: Arena, nb: nat) { A.top in A.size && A.size[A.top] < nb + MINSIZE }

  /** The request has been cut from the top chunk. */
  ghost predicate FromTop(A: Arena, A': Arena, nb: nat) {
    A.top in A.size && nb <= A.size[A.top] && A' == SplitTop(A, nb)
  }

  /** The bin scan of an unsound request arrives at this free chunk. */
  ghost predicate Stuck(A: Arena, nb: nat, a: nat)
    requires nb < SIZE_MAX
  {
    !ScanSafe(nb) && a in A.st && A.st[a].Free? && a in A.size && A.size[a] < UINT && A.size[a] < nb && BinIndex(nb) < BinIndex(A.size[a])
  }

  /** Chunk a is in a fastbin and has just the size of the request. */
  predicate FastOf(A: Arena, a: nat, nb: nat) { a in A.st && A.st[a].Fast? && a in A.size && A.size[a] == nb }

  ghost predicate HasFast(A: Arena, nb: nat) { exists a :: FastOf(A, a, nb) }

  /** The same chunks, some of the free ones in other bins. */
  ghost predicate Rebinned(A: Arena, B: Arena) {
    && B == A.(st := B.st) && B.st.Keys == A.st.Keys
    && forall a :: a in A.st ==> B.st[a] == A.st[a] || (A.st[a].Free? && B.st[a].Free?)
  }

  /** The free chunk v serves the request, and no smaller one does; the only exception is what
      was left of the last small request, if no chunk has just the size. */
  ghost predicate Fitting(A: Arena, last: nat, v: nat, nb: nat) {
    && v in A.st && A.st[v].Free? && v in A.size && nb <= A.size[v]
    && (|| (v == last && nb < MIN_LARGE_SIZE && forall a :: a in A.st && A.st[a].Free? && a in A.size ==> A.size[a] != nb)
        || forall a :: a in A.st && A.st[a].Free? && a in A.size && nb <= A.size[a] ==> A.size[v] <= A.size[a])
  }

  /** The chunk `mALLOc` takes: a fitting one if there is one, and otherwise the front of the
      top chunk. */
  ghost predicate Chosen(A: Arena, last: nat, v: nat, nb: nat)
    requires nb < SIZE_MAX
  {
    Fitting(A, last, v, nb) || (v == A.top && NoneFits(A, nb) && !TopTooSmall(A, nb))
  }

  /** Serving the request splits the free chunk v. */
  predicate IsSplit(A: Arena, v: nat, nb: nat) { v in A.st && A.st[v].Free? && v in A.size && nb + MINSIZE <= A.size[v] }

  /** What is left of chunk v is the last remainder and the only unsorted chunk. */
  ghost predicate Remainder(A: Arena, h: Heap, last: nat, v: nat, nb: nat) {
    && v in A.size && last == v + nb && UNSORTED < |h.bins| && h.bins[UNSORTED] == [last]
    && last in h.A.size && h.A.size[last] + nb == A.size[v]
  }

  /** The last remainder is the only unsorted chunk, and large enough to be split for this
      small request. */
  ghost predicate OnlyRemainder(h: Heap, last: nat, nb: nat) {
    nb < MIN_LARGE_SIZE && UNSORTED < |h.bins| && h.bins[UNSORTED] == [last] && last in h.A.size && nb + MINSIZE < h.A.size[last]
  }

  ghost predicate NoFast(st: map<nat, St>) { forall a :: a in st ==> !st[a].Fast? }

  ghost predicate NothingFree(st: map<nat, St>) { forall a :: a in st ==> st[a].Used? }

  class Allocator {
    const base: nat
    const limit: nat
    var size: map<nat, nat>
    ghost var st: map<nat, St>
    var pin: map<nat, bool>
    var feet: map<nat, nat>
    var top: nat
    var bins: seq<seq<nat>>
    var fast: seq<seq<nat>>
    var binmap: seq<bool>
    var lastRemainder: nat
    var anyChunks: bool
    var fastChunks: bool

    ghost function View(): Heap
      reads this
    {
      Heap(Arena(size, st, pin, feet, top), bins, fast, binmap)
    }

    ghost predicate Ok(hand: nat)
      reads this
    {
      HeapOk(View(), base, limit, hand)
    }

    ghost predicate Valid()
      reads this
    {
      Ok(limit) && (!anyChunks ==> NothingFree(st)) && (!fastChunks ==> NoFast(st))
    }

    /** The state when the first memory has been obtained: one top chunk. */
    constructor (base: nat, limit: nat)
      requires base + MINSIZE <= limit && (limit - base) % ALIGN == 0 && limit - base < UINT
      ensures Valid() && this.base == base && this.limit == limit && st == map[] && !anyChunks
      ensures top == base && size == map[base := limit - base]
    {
      this.base, this.limit := base, limit;
      size, st, pin, feet, top := map[base := limit - base], map[], map[base := true], map[], base;
      bins, fast, binmap := seq(NBINS, i => []), seq(NFASTBINS, i => []), seq(NBINS, i => false);
      lastRemainder, anyChunks, fastChunks := 0, false, false;
    }

    // ----- free -----

    /** The common part of `fREe` and `malloc_consolidate`: a chunk in hand is merged with
        its free neighbours, and joins the top chunk or the unsorted list. */
    method Coalesce(p0: nat) returns (total: nat)
      requires Ok(p0) && p0 in st && st[p0].Hand?
      modifies this`size, this`st, this`pin, this`feet, this`top, this`bins
      ensures Ok(limit) && Quiet(old(View()).A, View().A) && FastKept(old(st), st)
      ensures InPool(View().A, p0) && total == Merged(old(View()).A, p0)
    {
      hide HeapOk, Quiet, FastKept, Foot, Follower, Merged, InPool;
      ghost var h := View();
      var p := MergeBack(p0);
      ghost var h1 := View();
      HandKnown(h1, base, limit, p);
      NextTwo(h, base, limit, p0);
      MergeSum(h.A, h1.A, p0, p);
      if p + size[p] == top {
        FollowedByTop(h1.A);
        MergeTop(p);
      } else {
        MergeForth(p);
        ghost var h2 := View();
        AddUnsorted(p);
        Chain(h1, h2, View(), base, limit, p);
      }
      total := size[p];
      PoolHas(View().A, p, p0);
      Chain(h, h1, View(), base, limit, p0);
    }

    /** Consolidation backward. */
    method MergeBack(p0: nat) returns (p: nat)
      requires Ok(p0) && p0 in st && st[p0].Hand?
      modifies this`size, this`st, this`bins
      ensures Ok(p) && p in st && st[p].Hand? && p in pin && pin[p]
      ensures Quiet(old(View()).A, View().A) && FastKept(old(st), st)
      ensures p in size && p0 in old(size) && p <= p0 && p + size[p] == p0 + old(size)[p0] && p0 - p == Foot(old(View()).A, p0)
      ensures forall x :: x != p && x != p0 ==> (x in size <==> x in old(size)) && (x in size ==> size[x] == old(size)[x])
      ensures forall x :: x != p && x != p0 ==> (x in st <==> x in old(st)) && (x in st ==> st[x] == old(st)[x])
    {
      hide HeapOk, Quiet;
      p := p0;
      HandKnown(View(), base, limit, p);
      if pin[p] { NoChange(View()); return; }
      AbsorbBack(View(), base, limit, p);
      p := p - feet[p];
      Unlink(p);
      size := (size - {p0})[p := size[p] + size[p0]];
      st := (st - {p0})[p := Hand];
    }

    /** Consolidation forward, with a chunk that is not the top one. */
    method MergeForth(p: nat)
      requires Ok(p) && p in st && st[p].Hand? && p in pin && pin[p] && p in size && p + size[p] != top
      modifies this`size, this`st, this`bins
      ensures Ok(p) && p in st && st[p].Hand? && p in size && p + size[p] in st && !st[p + size[p]].Free?
      ensures Quiet(old(View()).A, View().A) && FastKept(old(st), st)
      ensures size[p] == old(size)[p] + Follower(old(View()).A, p + old(size)[p])
    {
      hide HeapOk, Quiet;
      HandKnown(View(), base, limit, p);
      var next := p + size[p];
      NextInUse(View(), base, limit, p);
      if pin[next + size[next]] { NoChange(View()); return; }
      AbsorbForth(View(), base, limit, p);
      Unlink(next);
      size := (size - {next})[p := size[p] + size[next]];
      st := (st - {next})[p := Hand];
    }

    /** Consolidation into the top chunk. */
    method MergeTop(p: nat)
      requires Ok(p) && p in st && st[p].Hand? && p in pin && pin[p] && p in size && p + size[p] == top
      modifies this`size, this`st, this`pin, this`top
      ensures Ok(limit) && p in size && Quiet(old(View()).A, View().A) && FastKept(old(st), st)
      ensures top == p && old(top) in old(size) && size[p] == old(size)[p] + old(size)[old(top)]
    {
      hide HeapOk, Quiet;
      JoinTopHeap(View(), base, limit, p);
      size := (size - {top})[p := size[p] + size[top]];
      st, top, pin := st - {p}, p, pin[p := true];
    }

    /** The consolidated chunk goes to the front of the unsorted list. */
    method AddUnsorted(p: nat)
      requires Ok(p) && p in st && st[p].Hand? && p in pin && pin[p] && p in size && p + size[p] in st && !st[p + size[p]].Free?
      modifies this`st, this`pin, this`feet, this`bins
      ensures Ok(limit) && Quiet(old(View()).A, View().A) && FastKept(old(st), st) && p in st && st[p].Free?
    {
      hide HeapOk, Quiet;
      SettleHeap(View(), base, limit, p);
      var next := p + size[p];
      bins := bins[UNSORTED := [p] + bins[UNSORTED]];
      st := st[p := Free(UNSORTED)];
      pin := pin[p := true][next := false];
      feet := feet[next := size[p]];
    }

    /** `malloc_consolidate`: afterwards there are no fast chunks. */
    method Consolidate()
      requires Ok(limit)
      modifies this`size, this`st, this`pin, this`feet, this`top, this`bins, this`fast, this`fastChunks
      ensures Ok(limit) && Quiet(old(View()).A, View().A) && NoFast(st) && !fastChunks
      ensures NoFast(old(st)) ==> View() == old(View())
    {
      hide HeapOk, Quiet, FastKept, NoFast;
      fastChunks := false;
      ghost var h0 := View();
      NoChange(h0);
      FastCount(h0, base, limit, limit);
      NoneListed(h0, base, limit);
      var i := 0;
      while i <= MAX_FAST / 8 - 2
        invariant 0 <= i <= 9 && Ok(limit) && Quiet(h0.A, View().A) && |fast| == NFASTBINS && !fastChunks
        invariant NoFast(h0.A.st) ==> View() == h0
        invariant forall j :: 0 <= j < i ==> fast[j] == []
      {
        while fast[i] != []
          invariant Ok(limit) && Quiet(h0.A, View().A) && |fast| == NFASTBINS && !fastChunks
          invariant NoFast(h0.A.st) ==> View() == h0
          invariant forall j :: 0 <= j < i ==> fast[j] == []
          decreases |fast[i]|
        {
          ConsolidateOne(i, h0);
        }
        i := i + 1;
      }
      FastEmpty(View(), base, limit);
    }

    method ConsolidateOne(i: nat, ghost h0: Heap)
      requires Ok(limit) && |fast| == NFASTBINS && i < NFASTBINS && fast[i] != [] && HeapOk(h0, base, limit, limit) && Quiet(h0.A, View().A)
      modifies this`size, this`st, this`pin, this`feet, this`top, this`bins, this`fast
      ensures Ok(limit) && Quiet(h0.A, View().A) && fast == old(fast)[i := old(fast)[i][1..]]
    {
      hide HeapOk, Quiet, FastKept;
      ghost var h1 := View();
      PopFastOk(h1, base, limit, i, Hand);
      var p := fast[i][0];
      fast := fast[i := fast[i][1..]];
      st := st[p := Hand];
      ghost var h2 := View();
      var total := Coalesce(p);
      Still(h0, h1, h2, base, limit);
      Still(h0, h2, View(), base, limit);
    }

    /** `fREe` of a chunk in use: it is in use no longer, and no other is concerned. A small
        chunk goes to the front of its fastbin, and that is all; any other becomes part of a
        free chunk or of the top. If the merged chunk is large, there are no fast chunks
        afterwards, and otherwise they stay. */
    method Release(p: nat)
      requires Valid() && InUse(View().A, p)
      modifies this
      ensures Valid() && SameUsers(old(View()).A, View().A, p) && !InUse(View().A, p) && p in old(size)
      ensures old(size)[p] <= MAX_FAST ==> FastFreed(old(View()), View(), p)
      ensures old(size)[p] > MAX_FAST ==> InPool(View().A, p)
      ensures old(size)[p] > MAX_FAST ==> if Merged(old(View()).A, p) >= CONSOLIDATION_THRESHOLD then NoFast(st) else fast == old(fast)
    {
      hide HeapOk, Quiet, FastKept, SameUsers, NoFast, Merged, InPool;
      ghost var h := View();
      UseKnown(h, base, limit, p);
      if size[p] <= MAX_FAST {
        PushFastOk(h, base, limit, p);
        fastChunks, anyChunks := true, true;
        var i := size[p] / 8 - 2;
        fast := fast[i := [p] + fast[i]];
        st := st[p := Fast(i)];
        return;
      }
      anyChunks := true;
      PickUpHeap(h, base, limit, p);
      st := st[p := Hand];
      ghost var h1 := View();
      MergedSame(h.A, h1.A, p);
      var total := Coalesce(p);
      NoNewFast(h.A.st, h1.A.st, st, p);
      NoLonger(h, h1, View(), base, limit, p);
      if total >= CONSOLIDATION_THRESHOLD && fastChunks {
        ghost var h2 := View();
        Consolidate();
        NoLonger(h, h2, View(), base, limit, p);
        PoolAfter(h, View(), base, limit, p);
      }
    }

    // ----- malloc -----

    /** A free chunk is handed out whole. */
    method TakeWhole(v: nat, ghost nb: nat)
      requires Valid() && v in st && st[v].Free? && v in size && nb <= size[v] < nb + MINSIZE
      modifies this`st, this`pin, this`bins
      ensures Valid() && Allocated(old(View()).A, View().A, v, nb)
    {
      hide HeapOk, SameUsers, BinsOk;
      ghost var h := View();
      FreeKnown(h, base, limit, v);
      TakeFreeOk(h, base, limit, v);
      Unlink(v);
      st, pin := st[v := Used], pin[v + size[v] := true];
    }

    /** A free chunk is split. The remainder overwrites the unsorted list, which is empty at
        this point or holds just this chunk. */
    method SplitOff(v: nat, nb: nat) returns (r: nat)
      requires Valid() && v in st && st[v].Free? && v in size && Request(nb) && nb + MINSIZE <= size[v]
      requires |bins| == NBINS && (bins[UNSORTED] == [] || bins[UNSORTED] == [v])
      modifies this`size, this`st, this`pin, this`feet, this`bins
      ensures Valid() && Allocated(old(View()).A, View().A, v, nb) && Remainder(old(View()).A, View(), r, v, nb)
    {
      hide HeapOk, SameUsers, BinsOk, Unlinked, NothingFree, NoFast, Request, Remainder, Allocated, Removed;
      ghost var h := View();
      SplitDone(h, base, limit, v, nb);
      FlagsKept(st, v, v + nb);
      r := v + nb;
      WriteSplit(v, nb);
    }

    /** The header and list updates of a split. */
    method WriteSplit(v: nat, nb: nat)
      requires v in st && st[v].Free? && v in size && nb <= size[v] && |bins| == NBINS && BinsOk(bins, st)
      modifies this`size, this`st, this`pin, this`feet, this`bins
      ensures old(st)[v].bin < NBINS && v in old(bins)[old(st)[v].bin] && View() == SplitChunk(old(View()), v, nb)
    {
      hide BinsOk, Removed;
      var r, rest, next := v + nb, size[v] - nb, v + size[v];
      Unlink(v);
      bins := bins[UNSORTED := [r]];
      size := size[v := nb][r := rest];
      st := st[v := Used][r := Free(UNSORTED)];
      pin := pin[v := true][r := true];
      feet := feet[next := rest];
    }

    /** The chunk v, free and found by the search, is handed out: whole if what would remain
        is too small for a chunk, and split otherwise. */
    method Carve(v: nat, nb: nat, remember: bool)
      requires Valid() && v in st && st[v].Free? && v in size && Request(nb) && nb <= size[v] && |bins| == NBINS && bins[UNSORTED] == []
      modifies this`size, this`st, this`pin, this`feet, this`bins, this`lastRemainder
      ensures Valid() && Allocated(old(View()).A, View().A, v, nb)
      ensures remember && IsSplit(old(View()).A, v, nb) ==> Remainder(old(View()).A, View(), lastRemainder, v, nb)
    {
      hide HeapOk, SameUsers, Remainder;
      if size[v] - nb < MINSIZE {
        TakeWhole(v, nb);
      } else {
        var r := SplitOff(v, nb);
        if remember { lastRemainder := r; }
      }
    }

    /** The end of `mALLOc`: the request is cut from the top chunk if that leaves one. */
    method UseTop(nb: nat) returns (v: Option<nat>)
      requires Valid() && Request(nb)
      modifies this`size, this`st, this`pin, this`top
      ensures Valid() && (v.Some? <==> !TopTooSmall(old(View()).A, nb))
      ensures v.None? ==> View() == old(View()) && TopTooSmall(View().A, nb)
      ensures v.Some? ==> Allocated(old(View()).A, View().A, v.value, nb)
      ensures v.Some? ==> v.value == old(top) && FromTop(old(View()).A, View().A, nb)
    {
      hide HeapOk, SameUsers;
      ghost var h := View();
      TopFound(h, base, limit);
      if size[top] < nb + MINSIZE { return None; }
      SplitTopHeap(h, base, limit, nb);
      var victim, r := top, top + nb;
      size := size[victim := nb][r := size[victim] - nb];
      st, pin, top := st[victim := Used], pin[victim := true][r := true], r;
      return Some(victim);
    }

    /** The fastbin of the size. */
    method TryFast(nb: nat) returns (v: Option<nat>)
      requires Valid() && Request(nb) && nb <= MAX_FAST
      modifies this`st, this`fast
      ensures Valid()
      ensures v == FastFor(old(View()), nb)
      ensures v.None? ==> View() == old(View())
      ensures v.Some? ==> Allocated(old(View()).A, View().A, v.value, nb) && FastTaken(old(View()), View(), nb)
    {
      hide HeapOk, SameUsers;
      ghost var h := View();
      FastCount(h, base, limit, limit);
      var i := nb / 8 - 2;
      if fast[i] == [] { return None; }
      PopFastOk(h, base, limit, i, Used);
      FastSizes(h, base, limit, i, nb);
      var p := fast[i][0];
      fast := fast[i := fast[i][1..]];
      st := st[p := Used];
      return Some(p);
    }

    /** The small bin of the size: all its chunks fit exactly. */
    method TrySmall(nb: nat) returns (v: Option<nat>)
      requires Valid() && Request(nb) && nb < MIN_LARGE_SIZE
      modifies this`st, this`pin, this`bins
      ensures Valid()
      ensures (v.None? <==> OwnEmpty(old(bins), nb)) && (v.None? ==> View() == old(View()))
      ensures v.Some? ==> Allocated(old(View()).A, View().A, v.value, nb) && Fitting(old(View()).A, lastRemainder, v.value, nb)
                          && !IsSplit(old(View()).A, v.value, nb)
    {
      hide HeapOk, SameUsers;
      ghost var h := View();
      FastCount(h, base, limit, limit);
      var i := nb / 8;
      if bins[i] == [] { return None; }
      var victim := bins[i][|bins[i]| - 1];
      BinSizes(h, base, limit, i, victim);
      SmallExact(size[victim], nb);
      TakeWhole(victim, nb);
      return Some(victim);
    }

    /** The size word of a chunk, with its PREV_INUSE bit. */
    function Head(a: nat): nat
      requires a in size && a in pin
      reads this
    {
      size[a] + if pin[a] then 1 else 0
    }

    /** The place `mALLOc` gives a chunk in a bin: at the front of a small one; in a large
        one at the end if the chunk is not larger than the last one, whose size is compared
        with its bit, and otherwise behind all larger chunks. */
    method FindPlace(j: nat, sz: nat) returns (k: nat)
      requires Ok(limit) && |bins| == NBINS && 2 <= j < NBINS && MINSIZE <= sz < UINT && j == BinIndex(sz)
      ensures k <= |bins[j]|
      ensures j >= NSMALLBINS ==>
                && (forall i :: 0 <= i < k ==> bins[j][i] in size && size[bins[j][i]] >= sz)
                && (forall i :: k <= i < |bins[j]| ==> bins[j][i] in size && size[bins[j][i]] <= sz)
                && (k < |bins[j]| ==> size[bins[j][|bins[j]| - 1]] < sz)
    {
      hide HeapOk, BinIndex;
      k := 0;
      SmallBin(sz);
      if sz < MIN_LARGE_SIZE { return; }
      var list := bins[j];
      LargeSorted(View(), base, limit, j);
      if list == [] { return; }
      FreeHeads(View(), base, limit, j);
      if sz < Head(list[|list| - 1]) { return |list|; }
      while sz + 1 < Head(list[k])
        invariant 0 <= k < |list|
        invariant forall i :: 0 <= i < k ==> size[list[i]] > sz
        decreases |list| - k
      {
        k := k + 1;
      }
    }

    /** The loop over recently freed chunks: one that fits exactly is taken, the last
        remainder may be split for a small request, and all others go to their bins. If
        nothing is taken, the unsorted list ends up empty. */
    method SortUnsorted(nb: nat) returns (v: Option<nat>)
      requires Valid() && Request(nb) && (nb < MIN_LARGE_SIZE ==> OwnEmpty(bins, nb))
      modifies this`size, this`st, this`pin, this`feet, this`bins, this`binmap, this`lastRemainder
      ensures Valid()
      ensures v.None? ==> Rebinned(old(View()).A, View().A) && |bins| == NBINS && bins[UNSORTED] == [] && lastRemainder == old(lastRemainder)
      ensures v.None? && nb < MIN_LARGE_SIZE ==> OwnEmpty(bins, nb)
      ensures v.Some? ==> Allocated(old(View()).A, View().A, v.value, nb) && Fitting(old(View()).A, old(lastRemainder), v.value, nb)
      ensures v.Some? && IsSplit(old(View()).A, v.value, nb) ==> Remainder(old(View()).A, View(), lastRemainder, v.value, nb)
      ensures OnlyRemainder(old(View()), old(lastRemainder), nb) ==> v == Some(old(lastRemainder))
    {
      hide HeapOk, SameUsers, Quiet, Allocated, NothingFree, NoFast, OwnEmpty, BinIndex, Rebinned, Fitting, Remainder, IsSplit;
      ghost var h0 := View();
      NothingRebinned(h0.A);
      FastCount(h0, base, limit, limit);
      while bins[UNSORTED] != []
        invariant Valid() && |bins| == NBINS && Rebinned(h0.A, View().A) && lastRemainder == old(lastRemainder)
        invariant OnlyRemainder(h0, lastRemainder, nb) ==> View() == h0
        invariant nb < MIN_LARGE_SIZE ==> OwnEmpty(bins, nb)
        decreases |bins[UNSORTED]|
      {
        var victim := bins[UNSORTED][|bins[UNSORTED]| - 1];
        ghost var h := View();
        BinSizes(h, base, limit, UNSORTED, victim);
        RebinnedQuiet(h0.A, h.A);
        var sz := size[victim];
        if nb < MIN_LARGE_SIZE && |bins[UNSORTED]| == 1 && victim == lastRemainder && sz > nb + MINSIZE {
          RemainderFits(h0.A, h, base, limit, victim, nb);
          lastRemainder := SplitOff(victim, nb);
          RemainderSame(h0.A, h.A, View(), lastRemainder, victim, nb);
          TakenAfter(h0, h, View(), base, limit, victim, nb);
          return Some(victim);
        }
        if sz == nb {
          ExactFits(h0.A, h.A, lastRemainder, victim, nb);
          TakeWhole(victim, nb);
          TakenAfter(h0, h, View(), base, limit, victim, nb);
          return Some(victim);
        }
        MoveToBin(victim);
        OtherBin(h.bins, bins, sz, nb);
        RebinnedTwice(h0.A, h.A, View().A);
      }
      return None;
    }

    /** The last unsorted chunk goes to the bin of its size. */
    method MoveToBin(victim: nat)
      requires Valid() && |bins| == NBINS && bins[UNSORTED] != [] && victim == bins[UNSORTED][|bins[UNSORTED]| - 1]
      requires victim in size && size[victim] < UINT
      modifies this`st, this`bins, this`binmap
      ensures Valid() && |bins| == NBINS && Rebinned(old(View()).A, View().A) && |bins[UNSORTED]| < |old(bins)[UNSORTED]|
      ensures forall i :: 0 <= i < NBINS && i != UNSORTED && i != BinIndex(size[victim]) ==> bins[i] == old(bins)[i]
    {
      hide HeapOk, Quiet, BinIndex;
      ghost var h := View();
      FastCount(h, base, limit, limit);
      BinSizes(h, base, limit, UNSORTED, victim);
      var sz := size[victim];
      BinRange(sz);
      var j := BinIndex(sz);
      var k := FindPlace(j, sz);
      BinnedOk(h, base, limit, victim, j, k);
      LastUnlinked(h.bins[UNSORTED], h, base, limit);
      bins := bins[UNSORTED := bins[UNSORTED][..|bins[UNSORTED]| - 1]];
      bins := bins[j := InsertAt(bins[j], k, victim)];
      binmap := binmap[j := true];
      st := st[victim := Free(j)];
    }

    /** For a large request, the bin of its size is searched from the smallest chunk on. */
    method TryLarge(nb: nat) returns (v: Option<nat>)
      requires Valid() && Request(nb) && nb >= MIN_LARGE_SIZE && |bins| == NBINS && bins[UNSORTED] == []
      modifies this`size, this`st, this`pin, this`feet, this`bins, this`lastRemainder
      ensures Valid()
      ensures v.None? ==> View() == old(View()) && lastRemainder == old(lastRemainder) && OwnBelow(bins, size, nb)
      ensures v.Some? ==> Allocated(old(View()).A, View().A, v.value, nb)
      ensures v.Some? ==> SmallestOwn(old(View()), v.value, nb)
    {
      hide HeapOk, Allocated, BinIndex;
      RequestBin(nb);
      var list := bins[BinIndex(nb)];
      LargeSorted(View(), base, limit, BinIndex(nb));
      var i := |list|;
      while i > 0
        invariant 0 <= i <= |list| && View() == old(View()) && Valid() && lastRemainder == old(lastRemainder)
        invariant forall x :: i <= x < |list| ==> size[list[x]] < nb
      {
        i := i - 1;
        var victim := list[i];
        if size[victim] >= nb {
          BinSizes(View(), base, limit, BinIndex(nb), victim);
          Carve(victim, nb, false);
          return Some(victim);
        }
      }
      return None;
    }

    /** The bins above, in ascending order: the last chunk of the first one that is marked
        and not empty. It is large enough if the request is a sound one; if not, the scan
        ends there. */
    method ScanBins(nb: nat, idx: nat) returns (v: Answer)
      requires Valid() && Request(nb) && idx == BinIndex(nb) && |bins| == NBINS && bins[UNSORTED] == []
      modifies this`size, this`st, this`pin, this`feet, this`bins, this`binmap, this`lastRemainder
      ensures Valid()
      ensures v.NoMemory? ==> View().A == old(View()).A && bins == old(bins) && AboveEmpty(bins, idx)
      ensures v.TooSmall? ==> View().A == old(View()).A && Stuck(View().A, nb, v.chunk)
      ensures v.Chunk? ==> Allocated(old(View()).A, View().A, v.chunk, nb)
      ensures v.Chunk? ==> SmallestAbove(old(View()).A, old(bins), idx, v.chunk) && nb <= old(size)[v.chunk]
      ensures v.Chunk? && nb < MIN_LARGE_SIZE && IsSplit(old(View()).A, v.chunk, nb) ==> Remainder(old(View()).A, View(), lastRemainder, v.chunk, nb)
    {
      hide HeapOk, Allocated, Quiet, BinIndex, NothingFree, NoFast, SmallestAbove, Remainder, IsSplit;
      RequestBin(nb);
      ghost var A0 := View().A;
      FastCount(View(), base, limit, limit);
      var i := idx + 1;
      while i < NBINS
        invariant idx < i <= NBINS && Valid() && View().A == A0 && |bins| == NBINS == |binmap| && bins == old(bins)
        invariant forall j :: idx < j < i ==> bins[j] == []
      {
        MarkKnown(View(), base, limit, i);
        if binmap[i] {
          if bins[i] == [] {
            ClearMark(View(), base, limit, i);
            binmap := binmap[i := false];
          } else {
            var victim := bins[i][|bins[i]| - 1];
            BinSizes(View(), base, limit, i, victim);
            if size[victim] < nb {
              ScanFails(nb, size[victim]);
              return TooSmall(victim);
            }
            LastIsSmallest(View(), base, limit, idx, i);
            Carve(victim, nb, nb < MIN_LARGE_SIZE);
            return Chunk(victim);
          }
        }
        i := i + 1;
      }
      return NoMemory;
    }

    /** `mALLOc`: a chunk that was not in use, large enough; all other chunks in use stay.
        A fast chunk of the size is taken first, the one freed last. Otherwise B is the heap
        that is searched: as it is, but for a large request with the fast chunks merged. The
        chunk is the best fit there, and without a chunk, no free one and not the top would
        have served. The assertion of the bin scan fails only for a request whose bin index
        is wrong. */
    method Allocate(bytes: nat) returns (v: Answer, ghost B: Arena)
      requires Valid()
      modifies this
      ensures Valid()
      ensures v.Chunk? ==> !OutOfRange(bytes) && Allocated(old(View()).A, View().A, v.chunk, RequestSize(bytes))
      ensures !v.Chunk? ==> Quiet(old(View()).A, View().A)
      ensures var nb := RequestSize(bytes); !OutOfRange(bytes) && HasFast(old(View()).A, nb) ==> v.Chunk? && FastOf(old(View()).A, v.chunk, nb)
      ensures var nb := RequestSize(bytes);
              !OutOfRange(bytes) && FastFor(old(View()), nb).Some? ==>
                v == Chunk(FastFor(old(View()), nb).value) && FastTaken(old(View()), View(), nb)
      ensures var nb := RequestSize(bytes);
              !OutOfRange(bytes) && !HasFast(old(View()).A, nb) ==>
                && nb < SIZE_MAX && Searched(old(View()).A, B, base, limit, nb)
                && (v.Chunk? ==> Chosen(B, old(lastRemainder), v.chunk, nb))
                && (v.NoMemory? ==> NoneFits(B, nb) && TopTooSmall(B, nb))
                && (v.TooSmall? ==> Stuck(B, nb, v.chunk))
                && (!v.Chunk? ==> Rebinned(B, View().A))
      ensures var nb := RequestSize(bytes);
              nb < MIN_LARGE_SIZE && v.Chunk? && IsSplit(old(View()).A, v.chunk, nb) ==> Remainder(old(View()).A, View(), lastRemainder, v.chunk, nb)
      ensures var nb := RequestSize(bytes);
              !HasFast(old(View()).A, nb) && OwnEmpty(old(bins), nb) && OnlyRemainder(old(View()), old(lastRemainder), nb) ==>
                v == Chunk(old(lastRemainder))
      ensures !old(anyChunks) ==> !v.TooSmall? && !anyChunks && (v.NoMemory? ==> View() == old(View()))
      ensures !old(anyChunks) && v.Chunk? ==> v.chunk == old(top) && FromTop(old(View()).A, View().A, RequestSize(bytes))
    {
      hide HeapOk, Allocated, Quiet, BinIndex, NoFast, Stuck, FastTaken, HasFast, Searched, Chosen, Rebinned, Remainder, IsSplit, OwnEmpty;
      ghost var h0 := View();
      B := h0.A;
      NoChange(h0);
      if OutOfRange(bytes) { return NoMemory, B; }
      RequestSizeFits(bytes);
      var nb := RequestSize(bytes);
      FastKnown(h0, base, limit, nb);
      if !anyChunks {
        OnlyTop(h0, base, limit, lastRemainder, nb);
        NoRemainder(h0, base, limit, lastRemainder, nb);
        TopNotSplit(h0, base, limit, nb);
        var w := UseTop(nb);
        return if w.Some? then Chunk(w.value) else NoMemory, B;
      }
      hide NothingFree, NoneFits;
      if nb <= MAX_FAST {
        var w := TryFast(nb);
        if w.Some? { return Chunk(w.value), B; }
      }
      v, B := Search(nb);
    }

    /** `mALLOc` past the fastbins. */
    method Search(nb: nat) returns (v: Answer, ghost B: Arena)
      requires Valid() && Request(nb) && anyChunks
      modifies this
      ensures Valid() && Searched(old(View()).A, B, base, limit, nb)
      ensures v.Chunk? ==> Allocated(old(View()).A, View().A, v.chunk, nb) && Chosen(B, old(lastRemainder), v.chunk, nb)
      ensures !v.Chunk? ==> Quiet(old(View()).A, View().A) && Rebinned(B, View().A)
      ensures v.NoMemory? ==> NoneFits(B, nb) && TopTooSmall(B, nb)
      ensures v.TooSmall? ==> Stuck(B, nb, v.chunk)
      ensures nb < MIN_LARGE_SIZE && v.Chunk? && IsSplit(old(View()).A, v.chunk, nb) ==> Remainder(old(View()).A, View(), lastRemainder, v.chunk, nb)
      ensures OwnEmpty(old(bins), nb) && OnlyRemainder(old(View()), old(lastRemainder), nb) ==> v == Chunk(old(lastRemainder))
    {
      hide HeapOk, Allocated, Quiet, BinIndex, NothingFree, NoFast, NoneFits, Stuck, OwnEmpty, Searched, Chosen, Rebinned, Fitting,
        Remainder, IsSplit;
      ghost var h0 := View();
      NoChange(h0);
      B := h0.A;
      if nb < MIN_LARGE_SIZE {
        IsSearched(h0, h0, base, limit, nb);
        var w := TrySmall(nb);
        if w.Some? { FitChosen(B, B, lastRemainder, w.value, nb); return Chunk(w.value), B; }
      } else if fastChunks {
        Consolidate();
      }
      ghost var h1 := View();
      B := h1.A;
      IsSearched(h0, h1, base, limit, nb);
      v := SearchBins(nb);
      if v.Chunk? { TakenAfter(h0, h1, View(), base, limit, v.chunk, nb); }
      else { RebinnedQuiet(B, View().A); Still(h0, h1, View(), base, limit); }
    }

    /** The search from the unsorted list on. */
    method SearchBins(nb: nat) returns (v: Answer)
      requires Valid() && Request(nb) && (nb < MIN_LARGE_SIZE ==> OwnEmpty(bins, nb))
      modifies this`size, this`st, this`pin, this`feet, this`top, this`bins, this`binmap, this`lastRemainder
      ensures Valid()
      ensures v.Chunk? ==> Allocated(old(View()).A, View().A, v.chunk, nb) && Chosen(old(View()).A, old(lastRemainder), v.chunk, nb)
      ensures !v.Chunk? ==> Rebinned(old(View()).A, View().A)
      ensures v.NoMemory? ==> NoneFits(old(View()).A, nb) && TopTooSmall(old(View()).A, nb)
      ensures v.TooSmall? ==> Stuck(old(View()).A, nb, v.chunk)
      ensures nb < MIN_LARGE_SIZE && v.Chunk? && IsSplit(old(View()).A, v.chunk, nb) ==> Remainder(old(View()).A, View(), lastRemainder, v.chunk, nb)
      ensures OnlyRemainder(old(View()), old(lastRemainder), nb) ==> v == Chunk(old(lastRemainder))
    {
      hide HeapOk, Allocated, Quiet, BinIndex, NothingFree, NoFast, NoneFits, Stuck, OwnEmpty, OwnBelow, AboveEmpty, SmallestAbove,
        SmallestOwn, Chosen, Rebinned, Fitting, Remainder, IsSplit, OnlyRemainder;
      ghost var h1, last := View(), lastRemainder;
      RequestBin(nb);
      NothingRebinned(h1.A);
      var w := SortUnsorted(nb);
      if w.Some? { FitChosen(h1.A, h1.A, last, w.value, nb); return Chunk(w.value); }
      ghost var h2 := View();
      RebinnedQuiet(h1.A, h2.A);
      if nb >= MIN_LARGE_SIZE {
        w := TryLarge(nb);
        if w.Some? {
          OwnFits(h2, base, limit, last, w.value, nb);
          FitChosen(h1.A, h2.A, last, w.value, nb);
          TakenAfter(h1, h2, View(), base, limit, w.value, nb);
          return Chunk(w.value);
        }
      } else {
        EmptyBelow(h2, base, limit, nb);
      }
      v := ScanBins(nb, BinIndex(nb));
      if v.Chunk? {
        AboveFits(h2, base, limit, last, v.chunk, nb);
        FitChosen(h1.A, h2.A, last, v.chunk, nb);
        RemainderSame(h1.A, h2.A, View(), lastRemainder, v.chunk, nb);
        TakenAfter(h1, h2, View(), base, limit, v.chunk, nb);
        return;
      }
      if v.TooSmall? { StuckSame(h1.A, h2.A, nb, v.chunk); return; }
      ghost var h3 := View();
      SearchComplete(h3, base, limit, nb);
      NoneSame(h1.A, h2.A, nb);
      w := UseTop(nb);
      if w.Some? {
        TopChosen(h1.A, last, nb);
        TopNotSplit(h1, base, limit, nb);
        TakenAfter(h1, h3, View(), base, limit, w.value, nb);
        return Chunk(w.value);
      }
    }

    /** `unlink`: the chunk leaves the list it is in. */
    method Unlink(q: nat)
      requires BinsOk(bins, st) && q in st && st[q].Free?
      modifies this`bins
      ensures st[q].bin < |old(bins)| == |bins| && q in old(bins)[st[q].bin] && bins == Removed(old(bins), View().A, q)
    {
      InItsBin(bins, st, q);
      ghost var home := st[q].bin;
      var i :| 0 <= i < |bins| && q in bins[i];
      ListedThere(bins, st, i, q);
      bins := bins[i := Unlinked(bins[i], q)];
    }
  }

  // ----- what free comes to -----

  /** The size of the free chunk before p, by its boundary tag. */
  function Foot(A: Arena, p: nat): nat { if p in A.pin && !A.pin[p] && p in A.feet then A.feet[p] else 0 }

  /** The size of the chunk at n, if it can be merged with the one before. */
  function Follower(A: Arena, n: nat): nat {
    if n in A.size && (n == A.top || (n in A.st && A.st[n].Free?)) then A.size[n] else 0
  }

  /** What chunk p becomes with its neighbours, as far as they are free or the top. */
  function Merged(A: Arena, p: nat): nat {
    if p in A.size then Foot(A, p) + A.size[p] + Follower(A, p + A.size[p]) else 0
  }

  lemma MergedSame(A: Arena, A': Arena, p: nat)
    requires A' == PickUp(A, p) && p in A.st && !A.st[p].Free?
    ensures Merged(A', p) == Merged(A, p)
  {}

  /** The chunk at a is part of a free chunk or of the top. */
  ghost predicate InPool(A: Arena, a: nat) {
    exists q :: q in A.size && q <= a < q + A.size[q] && (q == A.top || (q in A.st && A.st[q].Free?))
  }

  /** Chunk p is the first of its fastbin, and nothing else has changed. */
  ghost predicate FastFreed(h: Heap, h': Heap, p: nat) {
    p in h.A.size && h.A.size[p] >= MINSIZE && FastIndex(h.A.size[p]) < |h.fast| && h' == PushFast(h, p)
  }

  lemma PoolHas(A: Arena, q: nat, a: nat)
    requires q in A.size && q <= a < q + A.size[q] && (q == A.top || (q in A.st && A.st[q].Free?))
    ensures InPool(A, a)
  {}

  lemma FollowedByTop(A: Arena)
    requires A.top in A.size
    ensures Follower(A, A.top) == A.size[A.top]
  {}

  /** Merging backward leaves what is behind. */
  lemma MergeSum(A: Arena, B: Arena, p0: nat, p: nat)
    requires p in B.size && p0 in A.size && A.size[p0] > 0 && p <= p0 && p + B.size[p] == p0 + A.size[p0] && p0 - p == Foot(A, p0)
    requires B.top == A.top && var n := p0 + A.size[p0];
             && (n in B.size <==> n in A.size) && (n in A.size ==> B.size[n] == A.size[n])
             && (n in B.st <==> n in A.st) && (n in A.st ==> B.st[n] == A.st[n])
    ensures B.size[p] + Follower(B, p + B.size[p]) == Merged(A, p0)
  {}

  /** Where no chunk is fast, memory not in use is free or the top. */
  lemma PoolAfter(h: Heap, h': Heap, base: nat, limit: nat, p: nat)
    requires HeapOk(h, base, limit, limit) && HeapOk(h', base, limit, limit) && InUse(h.A, p) && !InUse(h'.A, p)
    requires SameUsers(h.A, h'.A, p) && NoFast(h'.A.st)
    ensures InPool(h'.A, p)
  {
    hide BinsOk, FastOk, IndexOk, SortedOk, MapOk;
    StKnown(h.A, base, limit, p);
    assert ChunkOk(h.A.size, base, limit, p);
    var q := Covered(h'.A.size, base, limit, base, p);
    if q != p { UserElsewhere(h.A, base, limit, p, q); }
    NoLimit(h'.A, base, limit);
  }

  lemma UserElsewhere(A: Arena, base: nat, limit: nat, p: nat, q: nat)
    requires Physical(A, base, limit) && InUse(A, p) && q != p && q <= p
    ensures InUse(A, q) ==> q in A.size && q + A.size[q] <= p
  {}

  /** Neither p nor its merged form is empty. */
  lemma NextTwo(h: Heap, base: nat, limit: nat, p: nat)
    requires HeapOk(h, base, limit, p) && p in h.A.st
    ensures p in h.A.size && h.A.size[p] > 0
  {
    StKnown(h.A, base, limit, p);
    SizeKnown(h.A, base, limit, p);
  }

  /** Every fast chunk was one before. */
  ghost predicate FastKept(st: map<nat, St>, st': map<nat, St>) {
    forall a :: a in st' && st'[a].Fast? ==> a in st && st[a] == st'[a]
  }

  lemma NoChange(h: Heap)
    ensures Quiet(h.A, h.A) && FastKept(h.A.st, h.A.st)
  {}

  lemma Chain(h: Heap, h1: Heap, h2: Heap, base: nat, limit: nat, p: nat)
    requires HeapOk(h, base, limit, p) && Quiet(h.A, h1.A) && Quiet(h1.A, h2.A)
    requires FastKept(h.A.st, h1.A.st) && FastKept(h1.A.st, h2.A.st)
    ensures Quiet(h.A, h2.A) && FastKept(h.A.st, h2.A.st)
  {
    hide HeapOk;
    UsersKnown(h, base, limit, p);
  }

  lemma Still(h: Heap, h1: Heap, h2: Heap, base: nat, limit: nat)
    requires HeapOk(h, base, limit, limit) && Quiet(h.A, h1.A) && Quiet(h1.A, h2.A)
    ensures Quiet(h.A, h2.A)
  {
    hide HeapOk;
    UsersKnown(h, base, limit, limit);
  }

  /** Chunk p is given up, and then no user is concerned. */
  lemma NoLonger(h: Heap, h1: Heap, h2: Heap, base: nat, limit: nat, p: nat)
    requires HeapOk(h, base, limit, limit) && SameUsers(h.A, h1.A, p) && !InUse(h1.A, p) && Quiet(h1.A, h2.A)
    ensures SameUsers(h.A, h2.A, p) && !InUse(h2.A, p)
  {
    hide HeapOk;
    UsersKnown(h, base, limit, limit);
  }

  lemma NoNewFast(st: map<nat, St>, st1: map<nat, St>, st2: map<nat, St>, p: nat)
    requires st1 == st[p := Hand] && FastKept(st1, st2)
    ensures NoFast(st) ==> NoFast(st2)
  {}

  lemma UseKnown(h: Heap, base: nat, limit: nat, p: nat)
    requires HeapOk(h, base, limit, limit) && InUse(h.A, p)
    ensures p in h.A.size && h.A.size[p] >= MINSIZE && |h.fast| == NFASTBINS
  {
    StKnown(h.A, base, limit, p);
    SizeKnown(h.A, base, limit, p);
  }

  lemma FastEmpty(h: Heap, base: nat, limit: nat)
    requires HeapOk(h, base, limit, limit) && |h.fast| == NFASTBINS && forall j :: 0 <= j <= 8 ==> h.fast[j] == []
    ensures NoFast(h.A.st)
  {
    hide HeapOk;
    forall a | a in h.A.st ensures !h.A.st[a].Fast? {
      if h.A.st[a].Fast? { FastListed(h, base, limit, a); }
    }
  }

  lemma FastListed(h: Heap, base: nat, limit: nat, a: nat)
    requires HeapOk(h, base, limit, limit) && a in h.A.st && h.A.st[a].Fast?
    ensures h.A.st[a].bin <= 8 && |h.fast| == NFASTBINS && a in h.fast[h.A.st[a].bin]
  {
    hide Physical, BinsOk, SortedOk, MapOk, BinIndex;
    var i := h.A.st[a].bin;
    assert ListOk(h.fast[i], h.A.st, Fast(i));
    assert Placed(h.A.st[a], h.A.size[a]);
  }

  lemma FastCount(h: Heap, base: nat, limit: nat, p: nat)
    requires HeapOk(h, base, limit, p)
    ensures |h.fast| == NFASTBINS && |h.bins| == NBINS && |h.binmap| == NBINS
  {}

  lemma FreeKnown(h: Heap, base: nat, limit: nat, v: nat)
    requires HeapOk(h, base, limit, limit) && v in h.A.st && h.A.st[v].Free?
    ensures v in h.A.size && MINSIZE <= h.A.size[v] < UINT && h.A.size[v] % ALIGN == 0 && BinsOk(h.bins, h.A.st) && !InUse(h.A, v)
  {
    StKnown(h.A, base, limit, v);
    SizeKnown(h.A, base, limit, v);
  }

  lemma TopFound(h: Heap, base: nat, limit: nat)
    requires HeapOk(h, base, limit, limit)
    ensures h.A.top in h.A.size && h.A.top !in h.A.st
  {
    TopKnown(h.A, base, limit);
  }

  /** A chunk in fastbin i has just the size that belongs there. */
  lemma FastSizes(h: Heap, base: nat, limit: nat, i: nat, nb: nat)
    requires HeapOk(h, base, limit, limit) && i < NFASTBINS && |h.fast| == NFASTBINS && h.fast[i] != [] && Request(nb) && i == nb / 8 - 2
    ensures var a := h.fast[i][0]; a in h.A.st && a in h.A.size && h.A.size[a] == nb && !InUse(h.A, a)
  {
    hide Physical, BinsOk, SortedOk, MapOk, BinIndex;
    var a := h.fast[i][0];
    assert ListOk(h.fast[i], h.A.st, Fast(i));
    assert Placed(h.A.st[a], h.A.size[a]);
    SizeKnown(h.A, base, limit, a);
  }

  /** A chunk in a bin is free and belongs there. */
  lemma BinSizes(h: Heap, base: nat, limit: nat, i: nat, a: nat)
    requires HeapOk(h, base, limit, limit) && i < NBINS == |h.bins| && a in h.bins[i]
    ensures a in h.A.st && h.A.st[a] == Free(i) && a in h.A.size && MINSIZE <= h.A.size[a] < UINT && h.A.size[a] % ALIGN == 0
    ensures i == UNSORTED || i == BinIndex(h.A.size[a])
    ensures BinsOk(h.bins, h.A.st) && !InUse(h.A, a)
  {
    hide Physical, FastOk, SortedOk, MapOk, BinIndex;
    ListedThere(h.bins, h.A.st, i, a);
    assert Placed(h.A.st[a], h.A.size[a]);
    SizeKnown(h.A, base, limit, a);
  }

  /** Aligned sizes in one small bin are equal. */
  lemma SmallExact(a: nat, nb: nat)
    requires a % ALIGN == 0 && MINSIZE <= a < UINT && Request(nb) && nb < MIN_LARGE_SIZE && BinIndex(a) == nb / 8
    ensures a == nb
  {
    hide LargebinIndex;
    if a >= MIN_LARGE_SIZE {
      Small(a);
      LargebinIndexIsDefinition(a);
      DefinitionMono(a, a);
    }
  }

  /** While a chunk is free the flags promise nothing about free chunks, and splitting it
      adds no fast chunk. */
  lemma FlagsKept(st: map<nat, St>, v: nat, r: nat)
    requires v in st && st[v].Free?
    ensures !NothingFree(st) && (NoFast(st) ==> NoFast(st[v := Used][r := Free(UNSORTED)]))
  {}

  lemma TakenAfter(h: Heap, h1: Heap, h2: Heap, base: nat, limit: nat, v: nat, nb: nat)
    requires HeapOk(h, base, limit, limit) && Quiet(h.A, h1.A) && Allocated(h1.A, h2.A, v, nb)
    ensures Allocated(h.A, h2.A, v, nb)
  {
    hide HeapOk;
    UsersKnown(h, base, limit, limit);
    QuietThen(h.A, h1.A, h2.A, v, nb);
  }

  // ----- which chunk is taken -----

  /** The chunk that the fastbin of the size would give. */
  function FastFor(h: Heap, nb: nat): Option<nat> {
    var i := nb / 8 - 2;
    if 0 <= i < |h.fast| && nb <= MAX_FAST && h.fast[i] != [] then Some(h.fast[i][0]) else None
  }

  /** It has been taken, and nothing else has changed. */
  ghost predicate FastTaken(h: Heap, h': Heap, nb: nat) {
    var i := nb / 8 - 2;
    0 <= i < |h.fast| && h.fast[i] != [] && h' == PopFast(h, i, Used)
  }

  /** The fastbin has a chunk to give if and only if there is a fast chunk of the size. */
  lemma FastKnown(h: Heap, base: nat, limit: nat, nb: nat)
    requires HeapOk(h, base, limit, limit) && Request(nb)
    ensures FastFor(h, nb).Some? <==> HasFast(h.A, nb)
    ensures FastFor(h, nb).Some? ==> FastOf(h.A, FastFor(h, nb).value, nb) && !IsSplit(h.A, FastFor(h, nb).value, nb)
  {
    hide HeapOk;
    FastCount(h, base, limit, limit);
    if HasFast(h.A, nb) {
      var a :| FastOf(h.A, a, nb);
      FastListed(h, base, limit, a);
      FastPlaced(h, base, limit, a);
    }
    if FastFor(h, nb).Some? {
      FastSizes(h, base, limit, nb / 8 - 2, nb);
      PopFastOk(h, base, limit, nb / 8 - 2, Used);
      assert FastOf(h.A, FastFor(h, nb).value, nb);
    }
  }

  lemma FastPlaced(h: Heap, base: nat, limit: nat, a: nat)
    requires HeapOk(h, base, limit, limit) && a in h.A.st && h.A.st[a].Fast?
    ensures a in h.A.size && MINSIZE <= h.A.size[a] <= MAX_FAST && h.A.st[a].bin == h.A.size[a] / 8 - 2
  {
    hide Physical, BinsOk, SortedOk, MapOk, BinIndex, FastOk;
    assert Placed(h.A.st[a], h.A.size[a]);
  }

  /** Without fast chunks the fastbins are empty. */
  lemma NoneListed(h: Heap, base: nat, limit: nat)
    requires HeapOk(h, base, limit, limit) && |h.fast| == NFASTBINS
    ensures NoFast(h.A.st) ==> forall i :: 0 <= i < NFASTBINS ==> h.fast[i] == []
  {
    hide HeapOk;
    forall i | 0 <= i < NFASTBINS && h.fast[i] != [] ensures !NoFast(h.A.st) {
      PopFastOk(h, base, limit, i, Used);
    }
  }

  /** The heap that is searched: for a large request all fast chunks have been merged. As
      free chunks are never neighbours, the chunks in use determine it then. */
  ghost predicate Searched(A: Arena, B: Arena, base: nat, limit: nat, nb: nat) {
    && Quiet(A, B) && Physical(B, base, limit) && OnlyHand(B.st, limit)
    && (nb < MIN_LARGE_SIZE || NoFast(A.st) ==> B == A) && (nb >= MIN_LARGE_SIZE ==> NoFast(B.st))
  }

  lemma IsSearched(h: Heap, h1: Heap, base: nat, limit: nat, nb: nat)
    requires HeapOk(h1, base, limit, limit) && Quiet(h.A, h1.A)
    requires (nb < MIN_LARGE_SIZE || NoFast(h.A.st) ==> h1 == h) && (nb >= MIN_LARGE_SIZE ==> NoFast(h1.A.st))
    ensures Searched(h.A, h1.A, base, limit, nb)
  {}

  /** If no chunk is free, the top is all there is. */
  lemma OnlyTop(h: Heap, base: nat, limit: nat, last: nat, nb: nat)
    requires HeapOk(h, base, limit, limit) && NothingFree(h.A.st) && Request(nb)
    ensures NoFast(h.A.st) && !HasFast(h.A, nb) && Searched(h.A, h.A, base, limit, nb) && NoneFits(h.A, nb)
    ensures Rebinned(h.A, h.A) && (!TopTooSmall(h.A, nb) ==> Chosen(h.A, last, h.A.top, nb))
  {}

  lemma NothingRebinned(A: Arena)
    ensures Rebinned(A, A)
  {}

  lemma RebinnedTwice(A: Arena, B: Arena, C: Arena)
    requires Rebinned(A, B) && Rebinned(B, C)
    ensures Rebinned(A, C)
  {}

  lemma RebinnedQuiet(A: Arena, B: Arena)
    requires Rebinned(A, B)
    ensures Quiet(A, B)
  {}

  /** With the bin of a small request empty, only an unsorted chunk can have just its size. */
  lemma NoExact(h: Heap, base: nat, limit: nat, v: nat, nb: nat, a: nat)
    requires HeapOk(h, base, limit, limit) && Request(nb) && OwnEmpty(h.bins, nb) && h.bins[UNSORTED] == [v] && v in h.A.size && h.A.size[v] != nb
    ensures a in h.A.st && h.A.st[a].Free? && a in h.A.size ==> h.A.size[a] != nb
  {
    hide HeapOk;
    if a in h.A.st && h.A.st[a].Free? {
      FreeKnown(h, base, limit, a);
      InItsBin(h.bins, h.A.st, a);
      BinSizes(h, base, limit, h.A.st[a].bin, a);
    }
  }

  lemma RemainderFits(A: Arena, h: Heap, base: nat, limit: nat, v: nat, nb: nat)
    requires HeapOk(h, base, limit, limit) && Request(nb) && OwnEmpty(h.bins, nb) && h.bins[UNSORTED] == [v]
    requires Rebinned(A, h.A) && v in h.A.st && h.A.st[v].Free? && v in h.A.size && nb < h.A.size[v]
    ensures Fitting(A, v, v, nb)
  {
    hide HeapOk;
    forall a | a in A.st && A.st[a].Free? && a in A.size ensures A.size[a] != nb { NoExact(h, base, limit, v, nb, a); }
  }

  lemma ExactFits(A: Arena, B: Arena, last: nat, v: nat, nb: nat)
    requires Rebinned(A, B) && v in B.st && B.st[v].Free? && v in B.size && nb == B.size[v]
    ensures Fitting(A, last, v, nb) && !IsSplit(A, v, nb)
  {}

  lemma RemainderSame(A: Arena, B: Arena, h: Heap, last: nat, v: nat, nb: nat)
    requires Rebinned(A, B)
    ensures (Remainder(B, h, last, v, nb) ==> Remainder(A, h, last, v, nb)) && (IsSplit(A, v, nb) <==> IsSplit(B, v, nb))
  {}

  lemma SplitDone(h: Heap, base: nat, limit: nat, v: nat, nb: nat)
    requires HeapOk(h, base, limit, limit) && v in h.A.st && h.A.st[v].Free? && v in h.A.size && Request(nb) && nb + MINSIZE <= h.A.size[v]
    requires |h.bins| == NBINS && (h.bins[UNSORTED] == [] || h.bins[UNSORTED] == [v])
    ensures BinsOk(h.bins, h.A.st) && h.A.st[v].bin < |h.bins| && v in h.bins[h.A.st[v].bin]
    ensures var h' := SplitChunk(h, v, nb);
            HeapOk(h', base, limit, limit) && Allocated(h.A, h'.A, v, nb) && Remainder(h.A, h', v + nb, v, nb)
  {
    hide HeapOk, SameUsers, BinsOk;
    FreeKnown(h, base, limit, v);
    SplitChunkOk(h, base, limit, v, nb);
  }

  lemma TopNotSplit(h: Heap, base: nat, limit: nat, nb: nat)
    requires HeapOk(h, base, limit, limit)
    ensures !IsSplit(h.A, h.A.top, nb)
  {
    hide BinsOk, FastOk, IndexOk, SortedOk, MapOk;
    TopKnown(h.A, base, limit);
  }

  /** Without a free chunk nothing is left of any. */
  lemma NoRemainder(h: Heap, base: nat, limit: nat, last: nat, nb: nat)
    requires HeapOk(h, base, limit, limit) && NothingFree(h.A.st)
    ensures !OnlyRemainder(h, last, nb)
  {
    hide HeapOk;
    FastCount(h, base, limit, limit);
    if OnlyRemainder(h, last, nb) { BinSizes(h, base, limit, UNSORTED, last); }
  }

  lemma FitChosen(A: Arena, B: Arena, last: nat, v: nat, nb: nat)
    requires (B == A || Rebinned(A, B)) && Fitting(B, last, v, nb) && nb < SIZE_MAX
    ensures Chosen(A, last, v, nb)
  {
    hide NoneFits;
  }

  lemma TopChosen(A: Arena, last: nat, nb: nat)
    requires nb < SIZE_MAX && NoneFits(A, nb) && !TopTooSmall(A, nb)
    ensures Chosen(A, last, A.top, nb)
  {
    hide NoneFits;
  }

  lemma NoneSame(A: Arena, B: Arena, nb: nat)
    requires nb < SIZE_MAX && Rebinned(A, B) && NoneFits(B, nb)
    ensures NoneFits(A, nb) && (TopTooSmall(A, nb) <==> TopTooSmall(B, nb)) && A.top == B.top
  {
    hide BinIndex;
  }

  lemma StuckSame(A: Arena, B: Arena, nb: nat, a: nat)
    requires nb < SIZE_MAX && Rebinned(A, B) && Stuck(B, nb, a)
    ensures Stuck(A, nb, a)
  {
    hide BinIndex;
  }

  /** Chunk v is the smallest in the bin of the request that serves it. */
  ghost predicate SmallestOwn(h: Heap, v: nat, nb: nat)
    requires nb < SIZE_MAX
  {
    var i := BinIndex(nb);
    && i < |h.bins| && v in h.bins[i] && v in h.A.size && nb <= h.A.size[v]
    && forall a :: a in h.bins[i] && a in h.A.size && nb <= h.A.size[a] ==> h.A.size[v] <= h.A.size[a]
  }

  /** Chunk v is the smallest in the bins above idx. */
  ghost predicate SmallestAbove(A: Arena, bins: seq<seq<nat>>, idx: nat, v: nat) {
    && v in A.st && A.st[v].Free? && v in A.size
    && forall j, a :: idx < j < |bins| && a in bins[j] ==> a in A.size && A.size[v] <= A.size[a]
  }

  /** Chunks in a higher bin are larger. */
  lemma HigherIsLarger(h: Heap, base: nat, limit: nat, i: nat, x: nat, j: nat, y: nat)
    requires HeapOk(h, base, limit, limit) && 2 <= i < j < NBINS == |h.bins| && x in h.bins[i] && y in h.bins[j]
    ensures x in h.A.size && y in h.A.size && h.A.size[x] < h.A.size[y]
  {
    hide HeapOk, BinIndex;
    BinSizes(h, base, limit, i, x);
    BinSizes(h, base, limit, j, y);
    if h.A.size[y] <= h.A.size[x] { BinIndexMono(h.A.size[y], h.A.size[x]); }
  }

  /** The last chunk of a bin is the smallest there. */
  lemma LastOfBin(h: Heap, base: nat, limit: nat, i: nat, a: nat)
    requires HeapOk(h, base, limit, limit) && 2 <= i < NBINS == |h.bins| && a in h.bins[i]
    ensures var v := h.bins[i][|h.bins[i]| - 1]; v in h.A.size && a in h.A.size && h.A.size[v] <= h.A.size[a]
  {
    hide HeapOk, BinIndex;
    var v := h.bins[i][|h.bins[i]| - 1];
    BinSizes(h, base, limit, i, v);
    BinSizes(h, base, limit, i, a);
    if i >= NSMALLBINS {
      LargeSorted(h, base, limit, i);
      var x :| 0 <= x < |h.bins[i]| && h.bins[i][x] == a;
    } else {
      SmallSizes(h.A.size[v], h.A.size[a]);
    }
  }

  lemma SmallSizes(a: nat, b: nat)
    requires MINSIZE <= a < UINT && MINSIZE <= b < UINT && a % ALIGN == 0 && b % ALIGN == 0 && BinIndex(a) == BinIndex(b) < NSMALLBINS
    ensures a == b
  {
    hide LargebinIndex;
    BinRange(a);
    BinRange(b);
    SmallExact(a, b);
  }

  lemma LastIsSmallest(h: Heap, base: nat, limit: nat, idx: nat, i: nat)
    requires HeapOk(h, base, limit, limit) && |h.bins| == NBINS && 2 <= idx < i < NBINS && h.bins[i] != []
    requires forall j :: idx < j < i ==> h.bins[j] == []
    ensures SmallestAbove(h.A, h.bins, idx, h.bins[i][|h.bins[i]| - 1])
  {
    hide HeapOk, BinIndex;
    var v := h.bins[i][|h.bins[i]| - 1];
    BinSizes(h, base, limit, i, v);
    forall j, a | idx < j < |h.bins| && a in h.bins[j] ensures a in h.A.size && h.A.size[v] <= h.A.size[a] {
      if j == i { LastOfBin(h, base, limit, i, a); } else { HigherIsLarger(h, base, limit, i, v, j, a); }
    }
  }

  /** The free chunks that serve a request are in its bin or above. */
  lemma FitsInBin(h: Heap, base: nat, limit: nat, nb: nat, a: nat)
    requires HeapOk(h, base, limit, limit) && Request(nb) && |h.bins| == NBINS && h.bins[UNSORTED] == []
    requires a in h.A.st && h.A.st[a].Free? && a in h.A.size && nb <= h.A.size[a]
    ensures BinIndex(nb) <= h.A.st[a].bin < NBINS && a in h.bins[h.A.st[a].bin]
  {
    hide HeapOk, BinIndex;
    FreeKnown(h, base, limit, a);
    InItsBin(h.bins, h.A.st, a);
    BinSizes(h, base, limit, h.A.st[a].bin, a);
    BinIndexMono(nb, h.A.size[a]);
  }

  lemma OwnFits(h: Heap, base: nat, limit: nat, last: nat, v: nat, nb: nat)
    requires HeapOk(h, base, limit, limit) && Request(nb) && |h.bins| == NBINS && h.bins[UNSORTED] == [] && SmallestOwn(h, v, nb)
    ensures Fitting(h.A, last, v, nb)
  {
    hide HeapOk, BinIndex;
    RequestBin(nb);
    BinSizes(h, base, limit, BinIndex(nb), v);
    forall a | a in h.A.st && h.A.st[a].Free? && a in h.A.size && nb <= h.A.size[a] ensures h.A.size[v] <= h.A.size[a] {
      FitsInBin(h, base, limit, nb, a);
      if BinIndex(nb) < h.A.st[a].bin { HigherIsLarger(h, base, limit, BinIndex(nb), v, h.A.st[a].bin, a); }
    }
  }

  lemma AboveFits(h: Heap, base: nat, limit: nat, last: nat, v: nat, nb: nat)
    requires HeapOk(h, base, limit, limit) && Request(nb) && |h.bins| == NBINS && h.bins[UNSORTED] == []
    requires OwnBelow(h.bins, h.A.size, nb) && SmallestAbove(h.A, h.bins, BinIndex(nb), v) && nb <= h.A.size[v]
    ensures Fitting(h.A, last, v, nb)
  {
    hide HeapOk, BinIndex;
    forall a | a in h.A.st && h.A.st[a].Free? && a in h.A.size && nb <= h.A.size[a] ensures h.A.size[v] <= h.A.size[a] {
      FitsInBin(h, base, limit, nb, a);
    }
  }

  lemma SmallBin(sz: nat)
    requires sz < UINT
    ensures sz < MIN_LARGE_SIZE ==> BinIndex(sz) < NSMALLBINS
  {}

  lemma BinRange(sz: nat)
    requires MINSIZE <= sz < UINT
    ensures 2 <= BinIndex(sz) < NBINS && (sz >= MIN_LARGE_SIZE ==> BinIndex(sz) >= NSMALLBINS)
  {
    hide LargebinIndex;
    BinIndexMono(sz, sz);
    if sz >= MIN_LARGE_SIZE {
      Small(sz);
      LargebinIndexIsDefinition(sz);
      DefinitionMono(sz, sz);
    }
  }

  /** Every request has a bin, that of a size of 4 GB or more a wrong one. */
  lemma RequestBin(nb: nat)
    requires Request(nb)
    ensures 2 <= BinIndex(nb) < NBINS && (MIN_LARGE_SIZE <= nb < UINT ==> BinIndex(nb) >= NSMALLBINS)
  {
    hide BinIndex;
    if nb < UINT { BinRange(nb); } else { TruncatedRequest(nb); }
  }

  // ----- a search without success -----

  /** The bin of a small request is empty. */
  ghost predicate OwnEmpty(bins: seq<seq<nat>>, nb: nat) {
    nb < MIN_LARGE_SIZE && |bins| == NBINS && bins[nb / 8] == []
  }

  /** The chunks in the bin of the request are smaller. */
  ghost predicate OwnBelow(bins: seq<seq<nat>>, size: map<nat, nat>, nb: nat)
    requires nb < SIZE_MAX
  {
    BinIndex(nb) < |bins| && forall a :: a in bins[BinIndex(nb)] ==> a in size && size[a] < nb
  }

  /** The bins above idx are empty. */
  ghost predicate AboveEmpty(bins: seq<seq<nat>>, idx: nat) {
    forall j :: idx < j < |bins| ==> bins[j] == []
  }

  lemma EmptyBelow(h: Heap, base: nat, limit: nat, nb: nat)
    requires HeapOk(h, base, limit, limit) && Request(nb) && OwnEmpty(h.bins, nb)
    ensures OwnBelow(h.bins, h.A.size, nb)
  {}

  /** A chunk of another size does not go to the bin of a small request. */
  lemma OtherBin(bins: seq<seq<nat>>, bins': seq<seq<nat>>, sz: nat, nb: nat)
    requires |bins| == |bins'| == NBINS && sz % ALIGN == 0 && MINSIZE <= sz < UINT && Request(nb) && sz != nb
    requires forall i :: 0 <= i < NBINS && i != UNSORTED && i != BinIndex(sz) ==> bins'[i] == bins[i]
    ensures OwnEmpty(bins, nb) ==> OwnEmpty(bins', nb)
  {
    hide BinIndex;
    if OwnEmpty(bins, nb) && BinIndex(sz) == nb / 8 { SmallExact(sz, nb); }
  }

  /** With the unsorted list and the bins above empty, and only smaller chunks in the bin of
      the request, no free chunk serves it: those in the bins below are smaller too. */
  lemma SearchComplete(h: Heap, base: nat, limit: nat, nb: nat)
    requires HeapOk(h, base, limit, limit) && Request(nb) && |h.bins| == NBINS && h.bins[UNSORTED] == []
    requires OwnBelow(h.bins, h.A.size, nb) && AboveEmpty(h.bins, BinIndex(nb))
    ensures NoneFits(h.A, nb)
  {
    hide HeapOk, BinIndex;
    forall a | a in h.A.st && h.A.st[a].Free?
      ensures a in h.A.size && h.A.size[a] < UINT && h.A.size[a] < nb && BinIndex(h.A.size[a]) <= BinIndex(nb)
    {
      FreeKnown(h, base, limit, a);
      InItsBin(h.bins, h.A.st, a);
      BinSizes(h, base, limit, h.A.st[a].bin, a);
      if nb <= h.A.size[a] && BinIndex(h.A.size[a]) < BinIndex(nb) { BinIndexMono(nb, h.A.size[a]); }
    }
  }

  /** The bin scan is stopped only for an unsound request. */
  lemma ScanFails(nb: nat, size: nat)
    requires Request(nb) && size < UINT && size < nb && BinIndex(nb) < BinIndex(size)
    ensures !ScanSafe(nb)
  {
    hide BinIndex;
    BinScanExact(nb);
  }

  /** A free chunk in the last bin, one in use behind it, and the top. */
  function LastBinArena(): Arena {
    var n := LAST_BIN_SIZE;
    Arena(map[0 := n, n := 32, n + 32 := 32], map[0 := Free(NBINS - 1), n := Used],
          map[0 := true, n := false, n + 32 := true], map[n := n], n + 32)
  }

  lemma LastBinPhysical()
    ensures Physical(LastBinArena(), 0, LAST_BIN_SIZE + 64) && OnlyHand(LastBinArena().st, LAST_BIN_SIZE + 64)
  {
    var A := LastBinArena();
    assert ChunkOk(A.size, 0, LAST_BIN_SIZE + 64, 0) && TagOk(A, 0);
  }

  function LastBinHeap(): Heap {
    Heap(LastBinArena(), seq(NBINS, i => if i == NBINS - 1 then [0] else []), seq(NFASTBINS, i => []), seq(NBINS, i => i == NBINS - 1))
  }

  lemma LastBinOk()
    ensures HeapOk(LastBinHeap(), 0, LAST_BIN_SIZE + 64, LAST_BIN_SIZE + 64)
  {
    hide Physical, OnlyHand, BinIndex;
    LastBinPhysical();
    LargestIndex();
    assert Descending([0], LastBinArena().size);
  }

  /** For every unsound request there is a heap in which the scan is stopped: it finds the
      bins empty but for the last one, and a smaller chunk there. */
  lemma ScanStuck(nb: nat)
    requires Request(nb) && !ScanSafe(nb)
    ensures var h, limit := LastBinHeap(), LAST_BIN_SIZE + 64;
            && HeapOk(h, 0, limit, limit) && h.bins[UNSORTED] == [] && h.bins[NBINS - 1] == [0] && Stuck(h.A, nb, 0)
            && forall j :: BinIndex(nb) < j < NBINS - 1 ==> h.bins[j] == []
  {
    hide BinIndex, HeapOk;
    LastBinOk();
    LargestIndex();
    TruncatedRequest(nb);
  }

  /** What the order of a large bin says. */
  lemma LargeSorted(h: Heap, base: nat, limit: nat, j: nat)
    requires HeapOk(h, base, limit, limit) && j < NBINS == |h.bins|
    ensures forall i :: 0 <= i < |h.bins[j]| ==> h.bins[j][i] in h.A.size
    ensures j >= NSMALLBINS ==> forall x, y :: 0 <= x < y < |h.bins[j]| ==> h.A.size[h.bins[j][x]] >= h.A.size[h.bins[j][y]]
  {
    hide Physical, FastOk, MapOk, IndexOk, BinsOk;
    forall i | 0 <= i < |h.bins[j]| ensures h.bins[j][i] in h.A.size {
      ListedThere(h.bins, h.A.st, j, h.bins[j][i]);
      StKnown(h.A, base, limit, h.bins[j][i]);
    }
    if j >= NSMALLBINS { assert Descending(h.bins[j], h.A.size); }
  }

  lemma LastUnlinked(list: seq<nat>, h: Heap, base: nat, limit: nat)
    requires HeapOk(h, base, limit, limit) && |h.bins| == NBINS && list == h.bins[UNSORTED] && list != []
    ensures var a := list[|list| - 1]; a in list && Unlinked(list, a) == list[..|list| - 1]
  {
    hide Physical, FastOk, MapOk, IndexOk;
    assert ListOk(list, h.A.st, Free(UNSORTED));
    var a := list[|list| - 1];
    assert IndexOf(list, a) == |list| - 1;
  }

  /** The heads of listed chunks have their bit set. */
  lemma FreeHeads(h: Heap, base: nat, limit: nat, j: nat)
    requires HeapOk(h, base, limit, limit) && j < NBINS == |h.bins|
    ensures forall i :: 0 <= i < |h.bins[j]| ==> h.bins[j][i] in h.A.pin && h.A.pin[h.bins[j][i]]
  {
    hide FastOk, MapOk, IndexOk, BinsOk, SortedOk;
    forall i | 0 <= i < |h.bins[j]| ensures h.bins[j][i] in h.A.pin && h.A.pin[h.bins[j][i]] {
      ListedThere(h.bins, h.A.st, j, h.bins[j][i]);
      NextKnown(h.A, base, limit, h.bins[j][i]);
    }
  }

  /** A bin without mark is empty. */
  lemma MarkKnown(h: Heap, base: nat, limit: nat, i: nat)
    requires HeapOk(h, base, limit, limit) && 2 <= i < NBINS == |h.bins| == |h.binmap|
    ensures !h.binmap[i] ==> h.bins[i] == []
  {
    hide Physical, FastOk, IndexOk, BinsOk, SortedOk;
  }

  lemma ClearMark(h: Heap, base: nat, limit: nat, i: nat)
    requires HeapOk(h, base, limit, limit) && i < NBINS == |h.bins| == |h.binmap| && h.bins[i] == []
    ensures HeapOk(h.(binmap := h.binmap[i := false]), base, limit, limit)
  {
    hide Physical, FastOk, IndexOk, BinsOk, SortedOk;
  }

  lemma HandKnown(h: Heap, base: nat, limit: nat, p: nat)
    requires HeapOk(h, base, limit, p) && p in h.A.st
    ensures p in h.A.size && p in h.A.pin && Next(h.A, p) in h.A.size && BinsOk(h.bins, h.A.st)
    ensures Next(h.A, p) == h.A.top || Next(h.A, p) in h.A.st
  {
    NextKnown(h.A, base, limit, p);
  }

  lemma UsersKnown(h: Heap, base: nat, limit: nat, p: nat)
    requires HeapOk(h, base, limit, p)
    ensures forall a :: InUse(h.A, a) ==> a in h.A.size
  {
    UsersSized(h.A, base, limit);
  }

  /** The chunk behind the one in hand. */
  lemma NextInUse(h: Heap, base: nat, limit: nat, p: nat)
    requires HeapOk(h, base, limit, p) && p in h.A.size && Next(h.A, p) in h.A.st
    ensures var n := Next(h.A, p);
            n in h.A.size && n + h.A.size[n] in h.A.pin && (h.A.pin[n + h.A.size[n]] <==> !h.A.st[n].Free?)
  {
    hide Physical, BinsOk, FastOk, SortedOk, MapOk, IndexOk;
    NotSelf(h.A, base, limit, p);
    BitBehind(h.A, base, limit, Next(h.A, p));
  }

  // ----- free and malloc -----

  /** A small chunk that is freed is what the next request of its size gets, and the heap is
      as it was. */
  method FreeThenMalloc(heap: Allocator, p: nat, bytes: nat) returns (v: Answer)
    requires heap.Valid() && InUse(heap.View().A, p) && !OutOfRange(bytes)
    requires p in heap.size && heap.size[p] == RequestSize(bytes) <= MAX_FAST
    modifies heap
    ensures v == Chunk(p) && heap.View() == old(heap.View())
  {
    hide HeapOk, SameUsers, Chosen, Searched, Rebinned, NoneFits, Stuck, HasFast;
    ghost var h := heap.View();
    heap.Release(p);
    ghost var h1 := heap.View();
    ghost var B := h1.A;
    v, B := heap.Allocate(bytes);
    var i := FastIndex(h.A.size[p]);
    assert h1.fast[i][1..] == h.fast[i];
    assert h1.fast[i := h.fast[i]] == h.fast;
    assert h1.A.st[p := Used] == h.A.st;
  }

  /** Consecutive small requests lie next to each other: if the first, of chunk size n1, is
      cut from a free chunk with room for both, and there is no chunk of just the size n2 of
      the second, that is cut from what is left. */
  method ConsecutiveRequests(heap: Allocator, bytes1: nat, bytes2: nat) returns (v1: Answer, v2: Answer, ghost h1: Heap)
    requires heap.Valid() && RequestSize(bytes1) < MIN_LARGE_SIZE && RequestSize(bytes2) < MIN_LARGE_SIZE
    modifies heap
    ensures var A, n1, n2 := old(heap.View()).A, RequestSize(bytes1), RequestSize(bytes2);
            v1.Chunk? && IsSplit(A, v1.chunk, n1) && n1 + n2 + MINSIZE < A.size[v1.chunk] && !HasFast(h1.A, n2) && OwnEmpty(h1.bins, n2) ==>
              v2 == Chunk(v1.chunk + n1)
    ensures v1.Chunk? ==> Allocated(old(heap.View()).A, h1.A, v1.chunk, RequestSize(bytes1))
  {
    hide HeapOk, SameUsers, Quiet, Chosen, Searched, Rebinned, NoneFits, Stuck, HasFast, OwnEmpty, FastFor, FastTaken, Allocated;
    ghost var B := heap.View().A;
    v1, B := heap.Allocate(bytes1);
    h1 := heap.View();
    v2, B := heap.Allocate(bytes2);
  }

  // ----- a run to the failing assertion -----

  /** If only the chunk at n is in use and none is in a fastbin, all before it is one free
      chunk. */
  lemma OneFreeBefore(A: Arena, limit: nat, n: nat)
    requires Physical(A, 0, limit) && OnlyHand(A.st, limit) && NoFast(A.st) && n > 0 && forall a :: InUse(A, a) <==> a == n
    ensures 0 in A.st && A.st[0].Free? && 0 in A.size && A.size[0] == n
  {
    assert InUse(A, n);
    StKnown(A, 0, limit, n);
    NoLimit(A, 0, limit);
    assert ChunkOk(A.size, 0, limit, n) && ChunkOk(A.size, 0, limit, 0);
    assert 0 in A.st && !InUse(A, 0);
    FreeChunksApart(A, 0, limit, 0);
    assert InUse(A, Next(A, 0));
  }

  /** After two requests have been cut from the top. */
  lemma TwoUsers(A0: Arena, A1: Arena, A2: Arena, n: nat, m: nat)
    requires A0.st == map[] && A0.top == 0
    requires FromTop(A0, A1, n) && FromTop(A1, A2, m) && 0 < n && 0 < m
    ensures forall a :: InUse(A2, a) <==> a == 0 || a == n
  {}

  /** No request fits a chunk that is not in the arena. */
  lemma NotServed(h: Heap, A: Arena, limit: nat, v: nat, nb: nat)
    requires HeapOk(h, 0, limit, limit) && Allocated(A, h.A, v, nb)
    ensures nb <= limit
  {
    hide BinsOk, FastOk, IndexOk, SortedOk, MapOk;
    SizeKnown(h.A, 0, limit, v);
  }

  /** The chunk of the smallest size of the last bin is in a bin above that of the request. */
  lemma LastBinAbove(A: Arena, nb: nat)
    requires Request(nb) && !ScanSafe(nb) && 0 in A.st && A.st[0].Free? && 0 in A.size && A.size[0] == LAST_BIN_SIZE
    ensures !NoneFits(A, nb)
  {
    hide BinIndex;
    LargestIndex();
    TruncatedRequest(nb);
  }

  /** Every unsound request stops the bin scan after three ordinary calls: the first chunk,
      of 14 MB, is freed while the second keeps it apart from the top. */
  method StuckRun(bytes: nat) returns (heap: Allocator, v: Answer)
    requires !OutOfRange(bytes) && !ScanSafe(RequestSize(bytes))
    ensures fresh(heap) && heap.Valid() && v.TooSmall?
  {
    hide HeapOk, BinIndex, NoneFits, Stuck, SameUsers, Quiet, HasFast, Chosen, FastFor, Rebinned, Allocated, FastTaken, FastFreed, InPool, Merged,
      Remainder, OnlyRemainder, IsSplit, OwnEmpty;
    var n := LAST_BIN_SIZE;
    heap := new Allocator(0, 2 * n);
    ghost var A0 := heap.View().A;
    var v0, _ := heap.Allocate(n - SIZE_SZ);
    ghost var A1 := heap.View().A;
    var v1, _ := heap.Allocate(SIZE_SZ);
    ghost var A2 := heap.View().A;
    assert RequestSize(n - SIZE_SZ) == n && RequestSize(SIZE_SZ) == MINSIZE;
    TwoUsers(A0, A1, A2, n, MINSIZE);
    heap.Release(v0.chunk);
    ghost var A3 := heap.View().A;
    OneUser(A2, A3, n);
    ghost var h3, B := heap.View(), A3;
    v, B := heap.Allocate(bytes);
    RequestSizeFits(bytes);
    FastKnown(h3, 0, heap.limit, RequestSize(bytes));
    if v.Chunk? {
      NotServed(heap.View(), A3, heap.limit, v.chunk, RequestSize(bytes));
    } else if v.NoMemory? {
      StillOneUser(A3, B, n);
      OneFreeBefore(B, heap.limit, n);
      LastBinAbove(B, RequestSize(bytes));
    }
  }

  lemma OneUser(A: Arena, A': Arena, n: nat)
    requires (forall a :: InUse(A, a) <==> a == 0 || a == n) && SameUsers(A, A', 0) && !InUse(A', 0) && n > 0
    ensures forall a :: InUse(A', a) <==> a == n
  {}

  lemma StillOneUser(A: Arena, A': Arena, n: nat)
    requires (forall a :: InUse(A, a) <==> a == n) && Quiet(A, A')
    ensures forall a :: InUse(A', a) <==> a == n
  {}
}
