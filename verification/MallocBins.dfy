/**
  Size and bin arithmetic of the heap allocator (`src/lib/stdlib/malloc.c`), on 64-bit
  sizes and 32-bit `unsigned int`, with wrap-around written out.
  */
module MallocBins {
  import opened ProbeTheory

  const NBINS := 96
  const NSMALLBINS := 32
  const MIN_LARGE_SIZE := 256
  const SIZE_SZ := 8
  const ALIGN := 16
  const MINSIZE := 32
  const UINT := 0x1_0000_0000
  const LAST_BIN_SIZE := 0xE0_0000  // the smallest size of the last bin
  const SIZE_MAX := 0x1_0000_0000_0000_0000

  // ----- unsigned int arithmetic -----

  function Sub32(a: nat, b: nat): nat
    requires a < UINT && b < UINT
  {
    if a >= b then a - b else a + UINT - b
  }

  /** `v & bit` for a power of two. */
  function Mask(v: nat, bit: nat): (r: nat)
    requires bit > 0
  {
    if v / bit % 2 == 1 then bit else 0
  }

  /** `x & ~(x >> 1)` for a number of two bits. */
  function KeepHigh(x: nat): nat
    requires x < 4
  {
    if x == 3 then 2 else x
  }

  /** `((x - c) >> 16) & bit`: the bit if the subtraction wraps. */
  function Borrow(x: nat, c: nat, bit: nat): (r: nat)
    requires x < 0x1_0000 && c <= 0x4000 && (bit == 2 || bit == 4 || bit == 8)
    ensures r == if x < c then bit else 0
  {
    Mask(Sub32(x, c) / 0x1_0000, bit)
  }

  /** `x << n` for the shifts used, which lose no bit. */
  function Shl(x: nat, n: nat): nat
    requires n == 0 || n == 2 || n == 4 || n == 8
  {
    (match n case 0 => x case 2 => x * 4 case 4 => x * 16 case _ => x * 256) % UINT
  }

  /** The branch-free search for the highest bit set in `largebin_index`, wrapping below 0. */
  function FindHigh(x: nat): (m: nat)
    requires x < 0x1_0000
    ensures m < UINT
  {
    var n1 := Borrow(x, 0x100, 8);
    var x1 := Shl(x, n1);
    var m1 := Borrow(x1, 0x1000, 4);
    var x2 := Shl(x1, m1);
    var m2 := Borrow(x2, 0x4000, 2);
    var x3 := Shl(x2, m2) / 0x4000;
    Sub32(13 + KeepHigh(x3), n1 + m1 + m2)
  }

  /** `largebin_index`. */
  function LargebinIndex(sz: nat): nat
    requires sz < UINT
  {
    var x := sz / 0x100;
    if x >= 0x1_0000 then NBINS - 1
    else
      var m := FindHigh(x);
      var shift := (m + 6) % UINT;
      (NSMALLBINS + m * 4 % UINT + (if shift < 32 then sz / Pow2(shift) % 4 else 0)) % UINT
  }

  /** `bin_index`; its argument is truncated to 32 bits. */
  function BinIndex(sz: nat): nat
    requires sz < SIZE_MAX
  {
    if sz < MIN_LARGE_SIZE then sz / 8 else LargebinIndex(sz % UINT)
  }

  // ----- the definition -----

  /** The position of the highest bit set. */
  function HighBit(x: nat): (m: nat)
    requires x > 0
    ensures Pow2(m) <= x < Pow2(m + 1)
  {
    if x == 1 then 0 else 1 + HighBit(x / 2)
  }

  /** One bin for each highest bit and the two bits below it. */
  function IndexDefinition(sz: nat): nat
    requires sz >= MIN_LARGE_SIZE
  {
    if sz >= 0x100_0000 then NBINS - 1
    else var m := HighBit(sz / 0x100); NSMALLBINS + 4 * m + sz / Pow2(m + 6) % 4
  }

  lemma Powers()
    ensures Pow2(0) == 1 && Pow2(1) == 2 && Pow2(2) == 4 && Pow2(3) == 8 && Pow2(4) == 16 && Pow2(5) == 32
    ensures Pow2(6) == 64 && Pow2(7) == 128 && Pow2(8) == 0x100 && Pow2(9) == 0x200 && Pow2(10) == 0x400 && Pow2(11) == 0x800
    ensures Pow2(12) == 0x1000 && Pow2(13) == 0x2000 && Pow2(14) == 0x4000 && Pow2(15) == 0x8000 && Pow2(16) == 0x1_0000
  {
    assert Pow2(4) == 16;
    assert Pow2(8) == 0x100;
    assert Pow2(12) == 0x1000;
  }

  lemma {:induction false} PowMono(a: nat, b: nat)
    requires a <= b
    ensures Pow2(a) <= Pow2(b)
    decreases b
  {
    if a < b { PowMono(a, b - 1); }
  }

  /** The interval of powers of two determines the position. */
  lemma HighBitIs(x: nat, m: nat)
    requires x > 0 && Pow2(m) <= x < Pow2(m + 1)
    ensures HighBit(x) == m
  {
    var h := HighBit(x);
    if h < m { PowMono(h + 1, m); }
    if m < h { PowMono(m + 1, h); }
  }

  /** Each of the three steps halves the range in which the highest bit may be. */
  lemma FindHighSteps(x: nat)
    requires 1 <= x < 0x1_0000
    ensures var x1 := if x < 0x100 then x * 0x100 else x;
            var x2 := if x1 < 0x1000 then x1 * 0x10 else x1;
            var x3 := (if x2 < 0x4000 then x2 * 4 else x2) / 0x4000;
            && 1 <= x3 < 4
            && FindHigh(x) == 13 + KeepHigh(x3) - (if x < 0x100 then 8 else 0) - (if x1 < 0x1000 then 4 else 0) - (if x2 < 0x4000 then 2 else 0)
  {
    hide Borrow, Shl, Sub32;
    BorrowIs(x, 0x100, 8);
    ShlIs(x, Borrow(x, 0x100, 8));
    var x1 := if x < 0x100 then x * 0x100 else x;
    BorrowIs(x1, 0x1000, 4);
    ShlIs(x1, Borrow(x1, 0x1000, 4));
    var x2 := if x1 < 0x1000 then x1 * 0x10 else x1;
    BorrowIs(x2, 0x4000, 2);
    ShlIs(x2, Borrow(x2, 0x4000, 2));
    SubIs(13 + KeepHigh((if x2 < 0x4000 then x2 * 4 else x2) / 0x4000), Borrow(x, 0x100, 8) + Borrow(x1, 0x1000, 4) + Borrow(x2, 0x4000, 2));
  }

  lemma BorrowIs(x: nat, c: nat, bit: nat)
    requires x < 0x1_0000 && c <= 0x4000 && (bit == 2 || bit == 4 || bit == 8)
    ensures Borrow(x, c, bit) == if x < c then bit else 0
  {}

  lemma ShlIs(x: nat, n: nat)
    requires x < 0x1_0000 && (n == 0 || n == 2 || n == 4 || n == 8)
    ensures Shl(x, n) == match n case 0 => x case 2 => x * 4 case 4 => x * 16 case _ => x * 256
  {}

  lemma SubIs(a: nat, b: nat)
    requires b <= a < UINT
    ensures Sub32(a, b) == a - b
  {}

  lemma FindHighLow(x: nat)
    requires 1 <= x < 0x100
    ensures FindHigh(x) == HighBit(x) < 8
  {
    hide FindHigh, HighBit, Pow2;
    FindHighSteps(x);
    Powers();
    if x < 0x2 { HighBitIs(x, 0); }
    else if x < 0x4 { HighBitIs(x, 1); }
    else if x < 0x8 { HighBitIs(x, 2); }
    else if x < 0x10 { HighBitIs(x, 3); }
    else if x < 0x20 { HighBitIs(x, 4); }
    else if x < 0x40 { HighBitIs(x, 5); }
    else if x < 0x80 { HighBitIs(x, 6); }
    else { HighBitIs(x, 7); }
  }

  lemma FindHighHigh(x: nat)
    requires 0x100 <= x < 0x1_0000
    ensures FindHigh(x) == HighBit(x) < 16
  {
    hide FindHigh, HighBit, Pow2;
    FindHighSteps(x);
    Powers();
    if x < 0x200 { HighBitIs(x, 8); }
    else if x < 0x400 { HighBitIs(x, 9); }
    else if x < 0x800 { HighBitIs(x, 10); }
    else if x < 0x1000 { HighBitIs(x, 11); }
    else if x < 0x2000 { HighBitIs(x, 12); }
    else if x < 0x4000 { HighBitIs(x, 13); }
    else if x < 0x8000 { HighBitIs(x, 14); }
    else { HighBitIs(x, 15); }
  }

  /** The branch-free search finds the highest bit. */
  lemma FindHighIsHighBit(x: nat)
    requires 1 <= x < 0x1_0000
    ensures FindHigh(x) == HighBit(x) < 16
  {
    if x < 0x100 { FindHighLow(x); } else { FindHighHigh(x); }
  }

  /** `largebin_index` is its definition, for every size it is used for. */
  lemma LargebinIndexIsDefinition(sz: nat)
    requires MIN_LARGE_SIZE <= sz < UINT
    ensures LargebinIndex(sz) == IndexDefinition(sz)
  {
    hide FindHigh, HighBit, Pow2;
    var x := sz / 0x100;
    if x < 0x1_0000 {
      FindHighIsHighBit(x);
      var m := HighBit(x);
      Small(NSMALLBINS + 4 * m + sz / PowOf(m + 6) % 4);
      Small(m * 4);
      Small(m + 6);
    }
  }

  function PowOf(n: nat): (r: nat)
    ensures r == Pow2(n) && r > 0
  {
    Pow2(n)
  }

  lemma Small(x: nat)
    requires x < UINT
    ensures x % UINT == x
  {}

  lemma PowSix(m: nat)
    ensures Pow2(m + 6) == 64 * Pow2(m) && Pow2(m + 1) == 2 * Pow2(m)
  {
    Pow2Add(m, 6);
    Powers();
  }

  /** The two bits below the highest one: a quotient between 4 and 7. */
  lemma TwoBits(sz: nat, m: nat)
    requires sz >= MIN_LARGE_SIZE && Pow2(m) <= sz / 0x100 < Pow2(m + 1)
    ensures Pow2(m + 6) > 0 && var q := sz / Pow2(m + 6); 4 <= q < 8 && q % 4 == q - 4
  {
    hide Pow2;
    PowSix(m);
    var p := PowOf(m + 6);
    var q, r := Division(sz, p);
    QuotientOrder(q, 3, p, r);
    QuotientOrder(q, 7, p, r);
  }

  lemma Division(x: nat, p: nat) returns (q: nat, r: nat)
    requires p > 0
    ensures x == q * p + r && 0 <= r < p && q == x / p
  {
    q, r := x / p, x % p;
  }

  lemma MulMono(a: nat, b: nat, p: nat)
    requires a <= b
    ensures a * p <= b * p
  {}

  /** Comparing a quotient with a number is comparing the products. */
  lemma QuotientOrder(q: nat, n: nat, p: nat, r: nat)
    requires r < p
    ensures q <= n <==> q * p + r < n * p + p
  {
    assert (n + 1) * p == n * p + p;
    if q <= n { MulMono(q, n, p); } else { MulMono(n + 1, q, p); }
  }

  lemma QuotientMono(x: nat, y: nat, p: nat)
    requires p > 0 && x <= y
    ensures x / p <= y / p
  {
    var a, r := Division(x, p);
    var b, t := Division(y, p);
    QuotientOrder(a, b, p, r);
  }

  lemma DefinitionMono(a: nat, b: nat)
    requires MIN_LARGE_SIZE <= a <= b
    ensures NSMALLBINS <= IndexDefinition(a) <= IndexDefinition(b) < NBINS
  {
    hide Pow2;
    if a < 0x100_0000 { DefinitionBounds(a); }
    if b < 0x100_0000 {
      DefinitionBounds(b);
      var x, y := a / 0x100, b / 0x100;
      HighBitMono(x, y);
      if HighBit(x) == HighBit(y) {
        QuotientMono(a, b, PowOf(HighBit(x) + 6));
      }
    }
  }

  lemma DefinitionBounds(a: nat)
    requires MIN_LARGE_SIZE <= a < 0x100_0000
    ensures var m := HighBit(a / 0x100);
            m < 16 && Pow2(m + 6) > 0 && 4 <= a / Pow2(m + 6) < 8 && IndexDefinition(a) == NSMALLBINS + 4 * m + (a / Pow2(m + 6) - 4)
  {
    FindHighIsHighBit(a / 0x100);
    TwoBits(a, HighBit(a / 0x100));
  }

  lemma HighBitMono(x: nat, y: nat)
    requires 0 < x <= y
    ensures HighBit(x) <= HighBit(y)
  {
    if HighBit(y) < HighBit(x) { PowMono(HighBit(y) + 1, HighBit(x)); }
  }

  /** `bin_index` is monotone and within the bins, for every size below 2^32. */
  lemma BinIndexMono(a: nat, b: nat)
    requires a <= b < UINT
    ensures BinIndex(a) <= BinIndex(b) < NBINS
  {
    hide LargebinIndex, IndexDefinition;
    Small(a);
    Small(b);
    if b >= MIN_LARGE_SIZE {
      LargebinIndexIsDefinition(b);
      if a >= MIN_LARGE_SIZE {
        LargebinIndexIsDefinition(a);
        DefinitionMono(a, b);
      } else {
        DefinitionMono(b, b);
      }
    }
  }

  /** A chunk in a strictly higher bin satisfies the request: the assertion of the bin scan. */
  lemma HigherBinFits(request: nat, size: nat)
    requires request < UINT && size < UINT && BinIndex(request) < BinIndex(size)
    ensures request < size
  {
    hide BinIndex;
    if size <= request { BinIndexMono(size, request); }
  }

  // ----- requests of 4 GB and more -----

  /** The requests for which the bin scan is sound. */
  predicate ScanSafe(nb: nat) { nb < UINT || nb % UINT >= LAST_BIN_SIZE }

  /** The index of a request whose low 32 bits are no large size: a small bin. */
  lemma TruncatedIndex(low: nat)
    requires low < MIN_LARGE_SIZE
    ensures LargebinIndex(low) == 28 + low / 32 % 4
  {
    hide FindHigh, Pow2;
    TruncatedHigh();
    Powers();
  }

  /** The index is within the bins for every request, and is the last one just from
      `LAST_BIN_SIZE` on. */
  lemma LastBin(low: nat)
    requires low < UINT
    ensures 28 <= LargebinIndex(low) < NBINS && (LargebinIndex(low) == NBINS - 1 <==> low >= LAST_BIN_SIZE)
  {
    hide LargebinIndex, IndexDefinition;
    if low < MIN_LARGE_SIZE {
      TruncatedIndex(low);
    } else {
      LargebinIndexIsDefinition(low);
      LargebinIndexIsDefinition(LAST_BIN_SIZE);
      LastBinStart();
      if low >= LAST_BIN_SIZE { DefinitionMono(LAST_BIN_SIZE, low); } else { DefinitionMono(low, LAST_BIN_SIZE - 1); }
    }
  }

  lemma LastBinStart()
    ensures IndexDefinition(LAST_BIN_SIZE) == NBINS - 1 && IndexDefinition(LAST_BIN_SIZE - 1) == NBINS - 2
  {
    hide HighBit, Pow2;
    Powers();
    HighBitIs(LAST_BIN_SIZE / 0x100, 15);
    HighBitIs((LAST_BIN_SIZE - 1) / 0x100, 15);
    PowSix(15);
    DefinitionBounds(LAST_BIN_SIZE);
    DefinitionBounds(LAST_BIN_SIZE - 1);
  }

  /** Exactly when a chunk in a bin above that of the request is large enough. The index of
      a request of 4 GB or more is that of its low 32 bits. */
  lemma BinScanExact(nb: nat)
    requires nb < SIZE_MAX
    ensures (forall size: nat :: size < UINT && BinIndex(nb) < BinIndex(size) ==> nb < size) <==> ScanSafe(nb)
  {
    hide BinIndex;
    if nb < UINT {
      forall size: nat | size < UINT && BinIndex(nb) < BinIndex(size) ensures nb < size { HigherBinFits(nb, size); }
    } else {
      TruncatedRequest(nb);
      LargestIndex();
    }
  }

  lemma TruncatedRequest(nb: nat)
    requires UINT <= nb < SIZE_MAX
    ensures 28 <= BinIndex(nb) < NBINS && (BinIndex(nb) == NBINS - 1 <==> nb % UINT >= LAST_BIN_SIZE)
  {
    hide LargebinIndex;
    LastBin(nb % UINT);
  }

  lemma LargestIndex()
    ensures BinIndex(LAST_BIN_SIZE) == NBINS - 1
    ensures forall size: nat :: size < UINT ==> BinIndex(size) < NBINS
  {
    hide BinIndex;
    forall size: nat | size < UINT ensures BinIndex(size) < NBINS { BinIndexMono(size, size); }
    LargeIndex(LAST_BIN_SIZE);
    LastBin(LAST_BIN_SIZE);
  }

  lemma LargeIndex(size: nat)
    requires MIN_LARGE_SIZE <= size < UINT
    ensures BinIndex(size) == LargebinIndex(size)
  {
    hide LargebinIndex;
    Small(size);
  }

  lemma TruncatedHigh()
    ensures FindHigh(0) == UINT - 1
  {
    hide Borrow, Shl;
    BorrowIs(0, 0x100, 8);
    BorrowIs(0, 0x1000, 4);
    BorrowIs(0, 0x4000, 2);
    ShlIs(0, 8);
    ShlIs(0, 4);
    ShlIs(0, 2);
  }

  // ----- request sizes -----

  /** `request2size`, with `& ~MALLOC_ALIGN_MASK` as rounding down. */
  function RequestSize(req: nat): nat {
    var padded := req + SIZE_SZ + ALIGN - 1;
    if padded < MINSIZE then MINSIZE else padded - padded % ALIGN
  }

  /** `REQUEST_OUT_OF_RANGE`. */
  predicate OutOfRange(req: nat) { req >= SIZE_MAX - 2 * MINSIZE }

  /** The chunk for a request: aligned, at least the minimum, room for the request and its
      header word, nothing to spare beyond alignment, and no wrap-around. */
  lemma RequestSizeFits(req: nat)
    requires !OutOfRange(req)
    ensures var s := RequestSize(req);
            && s % ALIGN == 0 && s >= MINSIZE && s >= req + SIZE_SZ && s + MINSIZE < SIZE_MAX
            && (s == MINSIZE || s < req + SIZE_SZ + ALIGN)
  {}
}
