/**
  The arena of the heap allocator (`src/lib/stdlib/malloc.c`): chunks with their boundary
  tags, and the physical steps of splitting and coalescing.
  */
module MallocHeap {
  import opened MallocBins

  /** What a chunk is. `Free` chunks are in the bin named, `Fast` ones in a fastbin (their
      in-use bit stays set), and `Hand` is a chunk that free is just consolidating. */
  datatype St = Used | Fast(bin: nat) | Free(bin: nat) | Hand

  /** Chunk sizes by address, what each chunk but the top one is, the PREV_INUSE bits, the
      `prev_size` words, and the top chunk. */
  datatype Arena = Arena(size: map<nat, nat>, st: map<nat, St>, pin: map<nat, bool>, feet: map<nat, nat>, top: nat)

  // ----- tiling -----

  /** Behind the chunk at a comes another one, or the end. */
  predicate ChunkOk(size: map<nat, nat>, base: nat, limit: nat, a: nat)
    requires a in size
  {
    base <= a && size[a] > 0 && a + size[a] <= limit && (a + size[a] == limit || a + size[a] in size)
  }

  /** The chunks lie end to end from `base` to `limit`. */
  ghost predicate Tiled(size: map<nat, nat>, base: nat, limit: nat) {
    && base in size
    && (forall a {:trigger ChunkOk(size, base, limit, a)} :: a in size ==> ChunkOk(size, base, limit, a))
    && (forall a, b :: a in size && b in size && a < b ==> a + size[a] <= b)
  }

  /** The chunk that holds byte x, found by walking from a. */
  lemma {:induction false} Covered(size: map<nat, nat>, base: nat, limit: nat, a: nat, x: nat) returns (c: nat)
    requires Tiled(size, base, limit) && a in size && a <= x < limit
    ensures c in size && c <= x < c + size[c]
    decreases limit - a
  {
    assert ChunkOk(size, base, limit, a);
    if x < a + size[a] { c := a; }
    else { c := Covered(size, base, limit, a + size[a], x); }
  }

  /** Every byte of the arena belongs to exactly one chunk. */
  lemma EveryByteInOneChunk(size: map<nat, nat>, base: nat, limit: nat, x: nat)
    requires Tiled(size, base, limit) && base <= x < limit
    ensures exists c :: c in size && c <= x < c + size[c] && forall d :: d in size && d <= x < d + size[d] ==> d == c
  {
    var c := Covered(size, base, limit, base, x);
    forall d | d in size && d <= x < d + size[d] ensures d == c {
      OneOwner(size, base, limit, c, d, x);
    }
  }

  lemma OneOwner(size: map<nat, nat>, base: nat, limit: nat, c: nat, d: nat, x: nat)
    requires Tiled(size, base, limit) && c in size && d in size && c <= x < c + size[c] && d <= x < d + size[d]
    ensures c == d
  {}

  /** The chunk before p. */
  lemma Before(size: map<nat, nat>, base: nat, limit: nat, p: nat) returns (q: nat)
    requires Tiled(size, base, limit) && p in size && p != base
    ensures q in size && q < p && q + size[q] == p
  {
    assert ChunkOk(size, base, limit, p);
    q := Covered(size, base, limit, base, p - 1);
    assert q + size[q] <= p;
  }

  lemma NextUnique(size: map<nat, nat>, base: nat, limit: nat, a: nat, b: nat)
    requires Tiled(size, base, limit) && a in size && b in size && a + size[a] == b + size[b]
    ensures a == b
  {
    assert ChunkOk(size, base, limit, a) && ChunkOk(size, base, limit, b);
  }

  function Halved(size: map<nat, nat>, a: nat, nb: nat): map<nat, nat>
    requires a in size && nb <= size[a]
  {
    size[a := nb][a + nb := size[a] - nb]
  }

  lemma NotInside(size: map<nat, nat>, base: nat, limit: nat, a: nat, r: nat)
    requires Tiled(size, base, limit) && a in size && a < r < a + size[a]
    ensures r !in size
  {}

  lemma HalvedOrder(size: map<nat, nat>, base: nat, limit: nat, a: nat, nb: nat, x: nat, y: nat)
    requires Tiled(size, base, limit) && a in size && 0 < nb < size[a]
    requires x in Halved(size, a, nb) && y in Halved(size, a, nb) && x < y
    ensures x + Halved(size, a, nb)[x] <= y
  {
    var r := a + nb;
    if x == r { assert a < y && y in size; }
    else if y == r { assert x in size && (x == a || x < a); }
    else { assert x in size && y in size; }
  }

  lemma HalvedTiled(size: map<nat, nat>, base: nat, limit: nat, a: nat, nb: nat)
    requires Tiled(size, base, limit) && a in size && 0 < nb < size[a]
    ensures a + nb !in size && Tiled(Halved(size, a, nb), base, limit)
  {
    var r, size' := a + nb, Halved(size, a, nb);
    NotInside(size, base, limit, a, r);
    forall x, y | x in size' && y in size' && x < y ensures x + size'[x] <= y {
      HalvedOrder(size, base, limit, a, nb, x, y);
    }
    assert ChunkOk(size, base, limit, a);
    forall x | x in size' ensures ChunkOk(size', base, limit, x) {
      if x != r { assert ChunkOk(size, base, limit, x); }
    }
  }

  /** Chunk a absorbs the one behind it. */
  function Fused(size: map<nat, nat>, a: nat): map<nat, nat>
    requires a in size && a + size[a] in size
  {
    (size - {a + size[a]})[a := size[a] + size[a + size[a]]]
  }

  lemma FusedTiled(size: map<nat, nat>, base: nat, limit: nat, a: nat)
    requires Tiled(size, base, limit) && a in size && a + size[a] in size
    ensures Tiled(Fused(size, a), base, limit)
  {
    var b, size' := a + size[a], Fused(size, a);
    assert ChunkOk(size, base, limit, a) && ChunkOk(size, base, limit, b);
    forall x | x in size' ensures ChunkOk(size', base, limit, x) {
      assert ChunkOk(size, base, limit, x);
      if x != a && x + size[x] == b { NextUnique(size, base, limit, x, a); }
    }
    forall x, y | x in size' && y in size' && x < y ensures x + size'[x] <= y {
      FusedOrder(size, base, limit, a, x, y);
    }
  }

  lemma FusedOrder(size: map<nat, nat>, base: nat, limit: nat, a: nat, x: nat, y: nat)
    requires Tiled(size, base, limit) && a in size && a + size[a] in size
    requires x in Fused(size, a) && y in Fused(size, a) && x < y
    ensures x + Fused(size, a)[x] <= y
  {
    assert x in size && y in size && x + size[x] <= y;
  }

  // ----- boundary tags -----

  function Next(A: Arena, a: nat): nat
    requires a in A.size
  {
    a + A.size[a]
  }

  /** The in-use bit behind a chunk and the size word behind a free chunk are right; a free
      chunk has no free neighbour and does not border the top one. */
  predicate TagOk(A: Arena, a: nat)
    requires a in A.size && a in A.st
  {
    var n := Next(A, a);
    && n in A.size && n in A.pin && a in A.pin
    && (!A.st[a].Hand? ==> (A.pin[n] <==> !A.st[a].Free?))
    && (A.st[a].Free? ==> A.pin[a] && n != A.top && n in A.feet && A.feet[n] == A.size[a])
  }

  /** Every chunk but the top one has a state. */
  ghost predicate Keyed(A: Arena) {
    A.top in A.size && A.top !in A.st && forall a :: a in A.st <==> a in A.size && a != A.top
  }

  ghost predicate Tags(A: Arena, base: nat) {
    && Keyed(A)
    && base in A.pin && A.pin[base] && A.top in A.pin
    && forall a {:trigger TagOk(A, a)} :: a in A.st ==> TagOk(A, a)
  }

  /** Sizes are multiples of the alignment and at least MINSIZE. */
  ghost predicate Sized(size: map<nat, nat>) {
    forall a :: a in size ==> size[a] >= MINSIZE && size[a] % ALIGN == 0
  }

  lemma HalvedSized(size: map<nat, nat>, a: nat, nb: nat)
    requires Sized(size) && a in size && MINSIZE <= nb && nb + MINSIZE <= size[a] && nb % ALIGN == 0
    ensures Sized(Halved(size, a, nb))
  {}

  lemma FusedSized(size: map<nat, nat>, a: nat)
    requires Sized(size) && a in size && a + size[a] in size
    ensures Sized(Fused(size, a)) && size[a + size[a]] > 0
  {}

  /** Only chunk p, if any, is being consolidated. */
  ghost predicate OnlyHand(st: map<nat, St>, p: nat) {
    forall a :: a in st && st[a].Hand? ==> a == p
  }

  ghost predicate Physical(A: Arena, base: nat, limit: nat) {
    Tiled(A.size, base, limit) && Tags(A, base) && Sized(A.size) && A.top + A.size[A.top] == limit
  }

  /** A chunk that is not the top one has one behind it. */
  lemma NextKnown(A: Arena, base: nat, limit: nat, a: nat)
    requires Physical(A, base, limit) && a in A.st
    ensures a in A.size && Next(A, a) in A.size && a in A.pin && Next(A, a) in A.pin && TagOk(A, a) && a < Next(A, a)
  {
    assert TagOk(A, a);
    assert ChunkOk(A.size, base, limit, a);
  }

  /** Two different chunks have different chunks behind them. */
  lemma NextApart(A: Arena, base: nat, limit: nat, a: nat, b: nat)
    requires Physical(A, base, limit) && a in A.size && b in A.size && a != b
    ensures Next(A, a) != Next(A, b)
  {
    if Next(A, a) == Next(A, b) { NextUnique(A.size, base, limit, a, b); }
  }

  /** No two adjacent chunks are free. */
  lemma FreeChunksApart(A: Arena, base: nat, limit: nat, a: nat)
    requires Physical(A, base, limit) && a in A.st && A.st[a].Free?
    ensures a in A.size && Next(A, a) in A.st && !A.st[Next(A, a)].Free?
  {
    NextKnown(A, base, limit, a);
    NextKnown(A, base, limit, Next(A, a));
  }

  /** A change of state alone, between states with the same in-use bit. */
  lemma RestatedOk(A: Arena, base: nat, limit: nat, p: nat, s: St)
    requires Physical(A, base, limit) && p in A.st
    requires (A.st[p].Free? && s.Free?) || (!A.st[p].Free? && !A.st[p].Hand? && !s.Free?)
    ensures Physical(A.(st := A.st[p := s]), base, limit)
  {
    hide Tiled, Sized, TagOk, Keyed;
    var A' := A.(st := A.st[p := s]);
    RestatedKeyed(A, p, s);
    forall b | b in A'.st ensures b in A.size && TagOk(A', b) {
      NextKnown(A, base, limit, b);
      RestatedTag(A, p, s, b);
    }
  }

  lemma RestatedKeyed(A: Arena, p: nat, s: St)
    requires Keyed(A) && p in A.st
    ensures Keyed(A.(st := A.st[p := s]))
  {}

  lemma RestatedTag(A: Arena, p: nat, s: St, b: nat)
    requires p in A.st && b in A.size && b in A.st && TagOk(A, b)
    requires (A.st[p].Free? && s.Free?) || (!A.st[p].Free? && !A.st[p].Hand? && !s.Free?)
    ensures TagOk(A.(st := A.st[p := s]), b)
  {}

  /** The in-use bit of the chunk behind p, found behind that chunk. */
  lemma BitBehind(A: Arena, base: nat, limit: nat, n: nat)
    requires Physical(A, base, limit) && n in A.st && !A.st[n].Hand?
    ensures n in A.size && n + A.size[n] in A.pin && (A.pin[n + A.size[n]] <==> !A.st[n].Free?)
  {
    hide Tiled, Sized, Keyed;
    NextKnown(A, base, limit, n);
  }

  // ----- steps -----

  /** A free chunk is taken whole. */
  function Take(A: Arena, a: nat): Arena
    requires a in A.size
  {
    A.(st := A.st[a := Used], pin := A.pin[Next(A, a) := true])
  }

  lemma TakeOk(A: Arena, base: nat, limit: nat, a: nat)
    requires Physical(A, base, limit) && a in A.st && A.st[a].Free?
    ensures a in A.size && Physical(Take(A, a), base, limit)
  {
    hide Tiled;
    NextKnown(A, base, limit, a);
    var A' := Take(A, a);
    forall b | b in A'.st ensures TagOk(A', b) {
      NextKnown(A, base, limit, b);
      if b != a { NextApart(A, base, limit, a, b); }
    }
  }

  /** A free chunk is split; the remainder is free and goes to bin j. */
  function SplitFree(A: Arena, a: nat, nb: nat, j: nat): Arena
    requires a in A.size && nb <= A.size[a]
  {
    var r := a + nb;
    A.(size := Halved(A.size, a, nb), st := A.st[a := Used][r := Free(j)],
       pin := A.pin[a := true][r := true], feet := A.feet[Next(A, a) := A.size[a] - nb])
  }

  lemma SplitFreeTag(A: Arena, a: nat, nb: nat, j: nat, b: nat)
    requires a in A.size && a in A.st && A.st[a].Free? && TagOk(A, a) && 0 < nb < A.size[a] && a + nb !in A.size
    requires b == a + nb || (b in A.size && b in A.st && TagOk(A, b) && (b != a ==> Next(A, b) != Next(A, a)))
    ensures var A' := SplitFree(A, a, nb, j); b in A'.size && b in A'.st && TagOk(A', b)
  {}

  lemma SplitFreeKeyed(A: Arena, a: nat, nb: nat, j: nat)
    requires Keyed(A) && a in A.size && a in A.st && nb <= A.size[a] && a + nb !in A.size
    ensures Keyed(SplitFree(A, a, nb, j))
  {}

  lemma SplitFreeOk(A: Arena, base: nat, limit: nat, a: nat, nb: nat, j: nat)
    requires Physical(A, base, limit) && a in A.st && A.st[a].Free?
    requires a in A.size && MINSIZE <= nb && nb + MINSIZE <= A.size[a] && nb % ALIGN == 0
    ensures a + nb !in A.size && Physical(SplitFree(A, a, nb, j), base, limit)
  {
    hide Tiled, TagOk, Sized;
    HalvedTiled(A.size, base, limit, a, nb);
    HalvedSized(A.size, a, nb);
    SplitFreeKeyed(A, a, nb, j);
    NextKnown(A, base, limit, a);
    var A' := SplitFree(A, a, nb, j);
    forall b | b in A'.st ensures TagOk(A', b) {
      if b != a + nb {
        NextKnown(A, base, limit, b);
        if b != a { NextApart(A, base, limit, a, b); }
      }
      SplitFreeTag(A, a, nb, j, b);
    }
  }

  /** The front of the top chunk is handed out. */
  function SplitTop(A: Arena, nb: nat): Arena
    requires A.top in A.size && nb <= A.size[A.top]
  {
    var r := A.top + nb;
    A.(size := Halved(A.size, A.top, nb), st := A.st[A.top := Used], pin := A.pin[A.top := true][r := true], top := r)
  }

  lemma SplitTopTag(A: Arena, nb: nat, b: nat)
    requires A.top in A.size && A.top !in A.st && A.top in A.pin && 0 < nb < A.size[A.top] && A.top + nb !in A.size
    requires b == A.top || (b in A.size && b in A.st && TagOk(A, b) && !A.st[b].Hand?)
    ensures var A' := SplitTop(A, nb); b in A'.size && b in A'.st && TagOk(A', b)
  {}

  lemma SplitTopKeyed(A: Arena, nb: nat)
    requires Keyed(A) && nb <= A.size[A.top] && A.top + nb !in A.size
    ensures Keyed(SplitTop(A, nb))
  {}

  lemma SplitTopOk(A: Arena, base: nat, limit: nat, nb: nat)
    requires Physical(A, base, limit) && OnlyHand(A.st, limit) && MINSIZE <= nb && nb % ALIGN == 0
    requires A.top in A.size && nb + MINSIZE <= A.size[A.top]
    ensures A.top + nb !in A.size && Physical(SplitTop(A, nb), base, limit)
  {
    hide Tiled, TagOk, Sized, Keyed;
    HalvedTiled(A.size, base, limit, A.top, nb);
    HalvedSized(A.size, A.top, nb);
    SplitTopKeyed(A, nb);
    NotLimit(A, base, limit);
    var A' := SplitTop(A, nb);
    TopKeyed(A);
    forall b | b in A'.st ensures TagOk(A', b) {
      if b != A.top { NextKnown(A, base, limit, b); }
      SplitTopTag(A, nb, b);
    }
  }

  lemma TopKeyed(A: Arena)
    requires Keyed(A)
    ensures A.top in A.size && A.top !in A.st
  {}

  lemma NotLimit(A: Arena, base: nat, limit: nat)
    requires Physical(A, base, limit)
    ensures limit !in A.size
  {
    forall a | a in A.size ensures a != limit {
      assert ChunkOk(A.size, base, limit, a);
    }
  }

  // ----- consolidation -----

  function PickUp(A: Arena, p: nat): Arena { A.(st := A.st[p := Hand]) }

  lemma PickUpOk(A: Arena, base: nat, limit: nat, p: nat)
    requires Physical(A, base, limit) && p in A.st && !A.st[p].Free? && !A.st[p].Hand?
    ensures Physical(PickUp(A, p), base, limit)
  {
    hide Physical;
    RestatedOk(A, base, limit, p, Hand);
  }

  /** The chunk before p, when its in-use bit is clear, is where the size word says, and free. */
  lemma Behind(A: Arena, base: nat, limit: nat, p: nat)
    requires Physical(A, base, limit) && p in A.st && OnlyHand(A.st, p) && p in A.pin && !A.pin[p]
    ensures p in A.feet && A.feet[p] <= p
    ensures var q := p - A.feet[p]; q in A.st && A.st[q].Free? && q in A.size && Next(A, q) == p && q in A.pin && A.pin[q]
  {
    hide Sized, Tiled;
    NotLimit(A, base, limit);
    var q := Before(A.size, base, limit, p);
    NextKnown(A, base, limit, q);
  }

  /** Chunk a, in hand, absorbs the chunk behind it. */
  function Absorb(A: Arena, a: nat): Arena
    requires a in A.size && Next(A, a) in A.size
  {
    A.(size := Fused(A.size, a), st := (A.st - {Next(A, a)})[a := Hand])
  }

  lemma AbsorbTag(A: Arena, a: nat, b: nat)
    requires a in A.size && a in A.st && TagOk(A, a) && Next(A, a) in A.st && TagOk(A, Next(A, a)) && a < Next(A, a)
    requires A.size[Next(A, a)] > 0 && (A.st[a].Free? || A.st[a].Hand?)
    requires b in A.size && b in A.st && b != Next(A, a) && TagOk(A, b) && (b != a ==> Next(A, b) != Next(A, a))
    ensures var A' := Absorb(A, a); b in A'.size && b in A'.st && TagOk(A', b)
  {}

  lemma AbsorbKeyed(A: Arena, a: nat)
    requires Keyed(A) && a in A.st && a in A.size && Next(A, a) in A.st && Next(A, a) != a
    ensures Keyed(Absorb(A, a))
  {}

  lemma AbsorbOk(A: Arena, base: nat, limit: nat, a: nat)
    requires Physical(A, base, limit) && a in A.st && a in A.size && Next(A, a) in A.st
    requires A.st[a].Free? || A.st[a].Hand?
    ensures Physical(Absorb(A, a), base, limit)
  {
    hide Tiled, TagOk, Sized;
    NextKnown(A, base, limit, a);
    var n, A' := Next(A, a), Absorb(A, a);
    NextKnown(A, base, limit, n);
    FusedTiled(A.size, base, limit, a);
    FusedSized(A.size, a);
    NotBase(A, base, limit, a);
    AbsorbKeyed(A, a);
    forall b | b in A'.st ensures TagOk(A', b) {
      NextKnown(A, base, limit, b);
      if b != a { NextApart(A, base, limit, a, b); }
      AbsorbTag(A, a, b);
    }
  }

  lemma NotBase(A: Arena, base: nat, limit: nat, a: nat)
    requires Physical(A, base, limit) && a in A.size
    ensures Next(A, a) != base && (a != A.top ==> a < A.top)
  {
    assert ChunkOk(A.size, base, limit, a) && ChunkOk(A.size, base, limit, A.top);
  }

  /** Chunk a, in hand before the top chunk, becomes the top chunk. */
  function JoinTop(A: Arena, a: nat): Arena
    requires a in A.size && Next(A, a) in A.size
  {
    A.(size := Fused(A.size, a), st := A.st - {a}, top := a, pin := A.pin[a := true])
  }

  lemma JoinTopTag(A: Arena, a: nat, b: nat)
    requires a in A.size && a in A.st && TagOk(A, a) && Next(A, a) == A.top && A.pin[a]
    requires b in A.size && b in A.st && b != a && b != A.top && TagOk(A, b) && Next(A, b) != Next(A, a) && !A.st[b].Hand?
    ensures var A' := JoinTop(A, a); b in A'.size && b in A'.st && TagOk(A', b)
  {}

  lemma JoinTopKeyed(A: Arena, a: nat)
    requires Keyed(A) && a in A.st && a in A.size && Next(A, a) == A.top
    ensures Keyed(JoinTop(A, a))
  {}

  lemma JoinTopOk(A: Arena, base: nat, limit: nat, a: nat)
    requires Physical(A, base, limit) && a in A.st && A.st[a].Hand? && OnlyHand(A.st, a) && a in A.size && Next(A, a) == A.top
    requires a in A.pin && A.pin[a]
    ensures Physical(JoinTop(A, a), base, limit)
  {
    hide Tiled, TagOk, Sized;
    NextKnown(A, base, limit, a);
    var A' := JoinTop(A, a);
    FusedTiled(A.size, base, limit, a);
    FusedSized(A.size, a);
    NotBase(A, base, limit, a);
    JoinTopKeyed(A, a);
    forall b | b in A'.st ensures TagOk(A', b) {
      NextKnown(A, base, limit, b);
      NextApart(A, base, limit, a, b);
      JoinTopTag(A, a, b);
    }
  }

  /** Chunk a, in hand between used chunks, becomes free, in bin j. */
  function Settle(A: Arena, a: nat, j: nat): Arena
    requires a in A.size
  {
    A.(st := A.st[a := Free(j)], pin := A.pin[a := true][Next(A, a) := false], feet := A.feet[Next(A, a) := A.size[a]])
  }

  lemma SettleTag(A: Arena, a: nat, j: nat, b: nat)
    requires a in A.size && a in A.st && TagOk(A, a) && Next(A, a) != A.top && A.pin[a] && a < Next(A, a)
    requires b in A.size && b in A.st && TagOk(A, b) && (b != a ==> Next(A, b) != Next(A, a) && !A.st[b].Hand?)
    requires Next(A, a) in A.st && !A.st[Next(A, a)].Free?
    ensures var A' := Settle(A, a, j); TagOk(A', b)
  {}

  lemma SettleOk(A: Arena, base: nat, limit: nat, a: nat, j: nat)
    requires Physical(A, base, limit) && a in A.st && A.st[a].Hand? && OnlyHand(A.st, a) && a in A.size
    requires a in A.pin && A.pin[a] && Next(A, a) in A.st && !A.st[Next(A, a)].Free?
    ensures Physical(Settle(A, a, j), base, limit)
  {
    hide Tiled, TagOk;
    NextKnown(A, base, limit, a);
    NotBase(A, base, limit, a);
    var A' := Settle(A, a, j);
    forall b | b in A'.st ensures TagOk(A', b) {
      NextKnown(A, base, limit, b);
      if b != a { NextApart(A, base, limit, a, b); }
      SettleTag(A, a, j, b);
    }
  }
}
