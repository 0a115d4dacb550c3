/**
  The probe sequence of `hash_lookup` (`src/lib/hash/hash.c`) as a function of the
  hash and the table size, and the invariants of the slot array stated over it.
  */
module HashProbe {
  import opened Arithmetic
  import opened ProbeTheory

  /** One past the largest `unsigned long`. */
  const WORD: nat := 0x1_0000_0000_0000_0000

  /** `HASH_MINSIZE`. */
  const MIN_SIZE: nat := 8

  /** The bit pattern of a `long` hash code. */
  type Word = x: nat | x < WORD

  datatype Slot<K, V> = Empty | Active(key: K, value: V, hash: nat) | Deleted

  /** Loop variables of `hash_lookup` before its n-th probe. */
  datatype Probe = Probe(index: nat, perturb: nat)

  ghost predicate TableSize(n: nat) {
    exists k :: 3 <= k <= 62 && n == Pow2(k)
  }

  /** One turn of the probe loop: `index = 5 * index + perturb + 1; perturb >>= 5`. */
  function NextProbe(p: Probe): Probe {
    Probe((5 * p.index + p.perturb + 1) % WORD, p.perturb / 32)
  }

  function ProbeAt(h: nat, size: nat, n: nat): (p: Probe)
    requires size > 0
  {
    if n == 0 then Probe(h % size, h)
    else NextProbe(ProbeAt(h, size, n - 1))
  }

  /** The slot inspected by the n-th probe (`index & mask`). */
  function SlotAt(h: nat, size: nat, n: nat): (i: nat)
    requires size > 0
    ensures i < size
  {
    ProbeAt(h, size, n).index % size
  }

  // ----- every slot is eventually probed -----

  function Pow32(n: nat): (r: nat)
    ensures r >= 1
  {
    if n == 0 then 1 else 32 * Pow32(n - 1)
  }

  lemma ShiftBound(p: nat, q: nat, h: nat)
    requires p * q <= h
    ensures (p / 32) * (32 * q) <= h
  {
    var r := p - 32 * (p / 32);
    assert r >= 0;
    assert p * q == (p / 32) * (32 * q) + r * q;
  }

  lemma {:induction false} PerturbBound(h: nat, size: nat, n: nat)
    requires size > 0
    ensures ProbeAt(h, size, n).perturb * Pow32(n) <= h
  {
    if n > 0 {
      PerturbBound(h, size, n - 1);
      ShiftBound(ProbeAt(h, size, n - 1).perturb, Pow32(n - 1), h);
    }
  }

  lemma {:induction false} Pow32Grows(n: nat)
    requires n >= 13
    ensures Pow32(n) >= WORD
  {
    if n == 13 {
      assert Pow32(13) >= WORD;
    } else {
      Pow32Grows(n - 1);
    }
  }

  lemma AtLeastOnce(p: nat, q: nat)
    ensures p >= 1 ==> p * q >= q
  {}

  /** Thirteen shifts by five clear a 64-bit perturbation. */
  lemma PerturbGone(h: Word, size: nat, n: nat)
    requires size > 0 && n >= 13
    ensures ProbeAt(h, size, n).perturb == 0
  {
    PerturbBound(h, size, n);
    Pow32Grows(n);
    var p := ProbeAt(h, size, n).perturb;
    AtLeastOnce(p, Pow32(n));
  }

  lemma Square(k: nat, r: nat)
    requires Pow2(k) == r
    ensures Pow2(k + k) == r * r
  {
    Pow2Add(k, k);
  }

  lemma WordIsPow2()
    ensures Pow2(64) == WORD
  {
    assert Pow2(8) == 256;
    Square(8, 256);
    Square(16, 65536);
    Square(32, 0x1_0000_0000);
  }

  lemma WordSplit(k: nat) returns (q: nat)
    requires k <= 64
    ensures q > 0 && WORD == Pow2(k) * q
  {
    q := Pow2(64 - k);
    Pow2Add(k, 64 - k);
    WordIsPow2();
  }

  lemma StepMod(x: int, y: int, m: nat)
    requires m > 0 && x % m == y % m
    ensures (5 * x + 1) % m == (5 * y + 1) % m
  {
    var q := SameRemainder(y, x, m);
    assert 5 * x + 1 == 5 * y + 1 + (5 * q) * m;
    ModEqual(5 * x + 1, 5 * y + 1, m, 5 * q);
  }

  /** From the thirteenth probe on, the slots follow the orbit of 5x + 1. */
  lemma {:induction false} TailOrbit(h: Word, k: nat, n: nat)
    requires k <= 64
    ensures SlotAt(h, Pow2(k), 13 + n) == Orbit(ProbeAt(h, Pow2(k), 13).index, n) % Pow2(k)
  {
    var m := Pow2(k);
    if n > 0 {
      TailOrbit(h, k, n - 1);
      PerturbGone(h, m, 12 + n);
      var x := ProbeAt(h, m, 12 + n).index;
      var q := WordSplit(k);
      ModMod(5 * x + 1, m, q);
      StepMod(x, Orbit(ProbeAt(h, m, 13).index, n - 1), m);
    }
  }

  /** Every slot is inspected within the first `13 + size` probes. */
  lemma ProbeCovers(h: Word, size: nat, j: nat) returns (n: nat)
    requires TableSize(size) && j < size
    ensures n < 13 + size && SlotAt(h, size, n) == j
  {
    var k :| 3 <= k <= 62 && size == Pow2(k);
    var d := FullPeriod(ProbeAt(h, size, 13).index, k, j);
    TailOrbit(h, k, d);
    n := 13 + d;
  }

  // ----- invariants of the slot array -----

  function CountActive<K, V>(t: seq<Slot<K, V>>): (n: nat)
    ensures n <= CountUsed(t) <= |t|
  {
    if t == [] then 0
    else CountActive(t[..|t| - 1]) + (if t[|t| - 1].Active? then 1 else 0)
  }

  function CountUsed<K, V>(t: seq<Slot<K, V>>): (n: nat)
    ensures n <= |t|
  {
    if t == [] then 0
    else CountUsed(t[..|t| - 1]) + (if t[|t| - 1].Empty? then 0 else 1)
  }

  lemma {:induction false} CountUpdate<K, V>(t: seq<Slot<K, V>>, i: nat, s: Slot<K, V>)
    requires i < |t|
    ensures CountActive(t[i := s]) ==
            CountActive(t) - (if t[i].Active? then 1 else 0) + (if s.Active? then 1 else 0)
    ensures CountUsed(t[i := s]) ==
            CountUsed(t) - (if t[i].Empty? then 0 else 1) + (if s.Empty? then 0 else 1)
  {
    var e := |t| - 1;
    if i < e {
      CountUpdate(t[..e], i, s);
      assert t[i := s][..e] == t[..e][i := s];
    } else {
      assert t[i := s][..e] == t[..e];
    }
  }

  lemma {:induction false} EmptyExists<K, V>(t: seq<Slot<K, V>>) returns (i: nat)
    requires CountUsed(t) < |t|
    ensures i < |t| && t[i].Empty?
  {
    var e := |t| - 1;
    if t[e].Empty? {
      i := e;
    } else {
      i := EmptyExists(t[..e]);
    }
  }

  lemma {:induction false} CountBlank<K, V>(t: seq<Slot<K, V>>)
    requires forall i :: 0 <= i < |t| ==> t[i].Empty?
    ensures CountUsed(t) == 0 && CountActive(t) == 0
  {
    if t != [] { CountBlank(t[..|t| - 1]); }
  }

  lemma {:induction false} CountPrefix<K, V>(t: seq<Slot<K, V>>, i: nat)
    requires i <= |t|
    ensures CountActive(t[..i]) <= CountActive(t)
  {
    if i < |t| {
      CountPrefix(t[..|t| - 1], i);
      assert t[..|t| - 1][..i] == t[..i];
    } else {
      assert t[..i] == t;
    }
  }

  /** The first n probes of h meet no EMPTY slot. */
  ghost predicate Chain<K, V>(t: seq<Slot<K, V>>, h: nat, n: nat) {
    |t| > 0 && forall m :: 0 <= m < n ==> !t[SlotAt(h, |t|, m)].Empty?
  }

  /** The n-th probe of h is slot i, and no EMPTY slot comes before it. */
  ghost predicate ReachedAt<K, V>(t: seq<Slot<K, V>>, h: nat, i: nat, n: nat) {
    Chain(t, h, n) && SlotAt(h, |t|, n) == i
  }

  ghost predicate Reached<K, V>(t: seq<Slot<K, V>>, h: nat, i: nat) {
    exists n: nat :: ReachedAt(t, h, i, n)
  }

  /** Every active key is met by its own probe sequence before any EMPTY slot,
      stores its own hash, and occurs in one slot only. */
  ghost predicate TableOk<K, V>(t: seq<Slot<K, V>>, hfunc: K -> Word) {
    && TableSize(|t|)
    && (forall i :: 0 <= i < |t| && t[i].Active? ==>
          t[i].hash == hfunc(t[i].key) && Reached(t, t[i].hash, i))
    && (forall i, j :: 0 <= i < |t| && 0 <= j < |t| && t[i].Active? && t[j].Active? && t[i].key == t[j].key
          ==> i == j)
  }

  /** The map represented by the active slots. */
  ghost function Contents<K, V>(t: seq<Slot<K, V>>, hfunc: K -> Word): map<K, V>
    requires TableOk(t, hfunc)
  {
    map i | 0 <= i < |t| && t[i].Active? :: t[i].key := t[i].value
  }

  /** Overwriting a slot by a non-EMPTY one never breaks a probe chain. */
  lemma ReachedKept<K, V>(t: seq<Slot<K, V>>, j: nat, s: Slot<K, V>, h: nat, i: nat)
    requires j < |t| && !s.Empty? && Reached(t, h, i)
    ensures Reached(t[j := s], h, i)
  {
    var n: nat :| ReachedAt(t, h, i, n);
    assert ReachedAt(t[j := s], h, i, n);
  }

  /** The first n probes for `key` met neither an EMPTY slot nor the key. */
  ghost predicate Missed<K, V>(t: seq<Slot<K, V>>, h: nat, key: K, n: nat) {
    && Chain(t, h, n)
    && forall m :: 0 <= m < n ==> var s := t[SlotAt(h, |t|, m)]; !(s.Active? && s.key == key)
  }

  lemma MissAgain<K, V>(t: seq<Slot<K, V>>, h: nat, key: K, n: nat)
    requires Missed(t, h, key, n)
    requires var s := t[SlotAt(h, |t|, n)]; s.Deleted? || (s.Active? && s.key != key)
    ensures Missed(t, h, key, n + 1)
  {}

  /** If the chain of `key` ends in EMPTY without meeting it, the key is absent. */
  lemma AbsentAtEmpty<K, V>(t: seq<Slot<K, V>>, hfunc: K -> Word, key: K, n: nat)
    requires TableOk(t, hfunc)
    requires Missed(t, hfunc(key), key, n)
    requires t[SlotAt(hfunc(key), |t|, n)].Empty?
    ensures key !in Contents(t, hfunc)
  {}

  lemma PresentAtActive<K, V>(t: seq<Slot<K, V>>, hfunc: K -> Word, i: nat)
    requires TableOk(t, hfunc) && i < |t| && t[i].Active?
    ensures t[i].key in Contents(t, hfunc) && Contents(t, hfunc)[t[i].key] == t[i].value
  {}

  /** The loop of `hash_lookup` stops at the n-th probe. */
  ghost predicate Stops<K, V>(t: seq<Slot<K, V>>, h: nat, key: K, n: nat)
    requires |t| > 0
  {
    var s := t[SlotAt(h, |t|, n)]; s.Empty? || (s.Active? && s.key == key)
  }

  /** A probe that stops the loop, if there is an EMPTY slot or the key is present. */
  lemma LookupStops<K, V>(t: seq<Slot<K, V>>, hfunc: K -> Word, key: K) returns (n: nat)
    requires TableOk(t, hfunc) && (CountUsed(t) < |t| || key in Contents(t, hfunc))
    ensures |t| > 0 && n < 13 + |t| && Stops(t, hfunc(key), key, n)
  {
    var i;
    if CountUsed(t) < |t| { i := EmptyExists(t); } else { i :| 0 <= i < |t| && t[i].Active? && t[i].key == key; }
    n := ProbeCovers(hfunc(key), |t|, i);
  }

  lemma {:induction false} NoneEmpty<K, V>(t: seq<Slot<K, V>>, i: nat)
    requires CountUsed(t) == |t| && i < |t|
    ensures !t[i].Empty?
  {
    if i < |t| - 1 { NoneEmpty(t[..|t| - 1], i); }
  }

  /** Exactly when a lookup ends: in a table without EMPTY slots, only for a key it holds. */
  lemma LookupEnds<K, V>(t: seq<Slot<K, V>>, hfunc: K -> Word, key: K)
    requires TableOk(t, hfunc) && |t| > 0
    ensures (exists n :: Stops(t, hfunc(key), key, n)) <==> CountUsed(t) < |t| || key in Contents(t, hfunc)
  {
    if CountUsed(t) < |t| || key in Contents(t, hfunc) {
      var n := LookupStops(t, hfunc, key);
    } else {
      forall n: nat ensures !Stops(t, hfunc(key), key, n) { NoneEmpty(t, SlotAt(hfunc(key), |t|, n)); }
    }
  }

  /** Slot i may receive `key`: the probe sequence reaches it, and no other slot holds the key. */
  ghost predicate CanStore<K, V>(t: seq<Slot<K, V>>, hfunc: K -> Word, i: nat, key: K) {
    && TableOk(t, hfunc) && i < |t|
    && Reached(t, hfunc(key), i)
    && (if t[i].Active? then t[i].key == key else key !in Contents(t, hfunc))
  }

  lemma StoreOk<K, V>(t: seq<Slot<K, V>>, hfunc: K -> Word, i: nat, key: K, value: V)
    requires CanStore(t, hfunc, i, key)
    ensures TableOk(t[i := Active(key, value, hfunc(key))], hfunc)
  {
    var s := Active(key, value, hfunc(key));
    var t' := t[i := s];
    forall j | 0 <= j < |t'| && t'[j].Active? ensures Reached(t', t'[j].hash, j) {
      ReachedKept(t, i, s, t'[j].hash, j);
    }
    forall j | 0 <= j < |t| && j != i && t[j].Active? ensures t[j].key != key {
      PresentAtActive(t, hfunc, j);
    }
  }

  /** Storing a pair where `hash_lookup` points updates the map at that key only. */
  lemma StoreKeeps<K, V>(t: seq<Slot<K, V>>, hfunc: K -> Word, i: nat, key: K, value: V)
    requires CanStore(t, hfunc, i, key)
    ensures TableOk(t[i := Active(key, value, hfunc(key))], hfunc)
    ensures Contents(t[i := Active(key, value, hfunc(key))], hfunc) == Contents(t, hfunc)[key := value]
  {
    StoreOk(t, hfunc, i, key, value);
    var t' := t[i := Active(key, value, hfunc(key))];
    var c, c' := Contents(t, hfunc)[key := value], Contents(t', hfunc);
    forall x | x in c ensures x in c' && c'[x] == c[x] {
      if x == key {
        PresentAtActive(t', hfunc, i);
      } else {
        var j :| 0 <= j < |t| && t[j].Active? && t[j].key == x;
        PresentAtActive(t', hfunc, j);
      }
    }
    forall x | x in c' ensures x in c {
      var j :| 0 <= j < |t'| && t'[j].Active? && t'[j].key == x;
      if j != i { PresentAtActive(t, hfunc, j); }
    }
  }

  /** Turning an active slot into a tombstone removes exactly its key. */
  lemma EraseKeeps<K, V>(t: seq<Slot<K, V>>, hfunc: K -> Word, i: nat)
    requires TableOk(t, hfunc) && i < |t| && t[i].Active?
    ensures TableOk(t[i := Deleted], hfunc)
    ensures Contents(t[i := Deleted], hfunc) == Contents(t, hfunc) - {t[i].key}
  {
    var t' := t[i := Deleted];
    forall j | 0 <= j < |t'| && t'[j].Active? ensures Reached(t', t'[j].hash, j) {
      ReachedKept(t, i, Deleted, t'[j].hash, j);
    }
    assert TableOk(t', hfunc);
    var c, c' := Contents(t, hfunc) - {t[i].key}, Contents(t', hfunc);
    forall x | x in c ensures x in c' && c'[x] == c[x] {
      var j :| 0 <= j < |t| && t[j].Active? && t[j].key == x;
      assert t'[j] == t[j];
    }
    forall x | x in c' ensures x in c {
      var j :| 0 <= j < |t'| && t'[j].Active? && t'[j].key == x;
      assert t[j] == t'[j];
    }
  }

  /** `c` holds exactly the active pairs among the first i slots of t. */
  ghost predicate CopiedUpTo<K, V>(t: seq<Slot<K, V>>, i: nat, c: map<K, V>) {
    && i <= |t|
    && (forall j :: 0 <= j < i && t[j].Active? ==> t[j].key in c && c[t[j].key] == t[j].value)
    && (forall k :: k in c ==> exists j :: 0 <= j < i && t[j].Active? && t[j].key == k)
  }

  lemma CopyNext<K, V>(t: seq<Slot<K, V>>, hfunc: K -> Word, i: nat, c: map<K, V>)
    requires TableOk(t, hfunc) && i < |t| && CopiedUpTo(t, i, c)
    ensures t[i].Active? ==> t[i].key !in c && CopiedUpTo(t, i + 1, c[t[i].key := t[i].value])
    ensures !t[i].Active? ==> CopiedUpTo(t, i + 1, c)
  {
    if t[i].Active? {
      var c' := c[t[i].key := t[i].value];
      assert t[i].key !in c;
      forall k | k in c' ensures exists j :: 0 <= j < i + 1 && t[j].Active? && t[j].key == k {
        if k != t[i].key {
          var j :| 0 <= j < i && t[j].Active? && t[j].key == k;
          assert 0 <= j < i + 1;
        }
      }
    } else {
      forall k | k in c ensures exists j :: 0 <= j < i + 1 && t[j].Active? && t[j].key == k {
        var j :| 0 <= j < i && t[j].Active? && t[j].key == k;
        assert 0 <= j < i + 1;
      }
    }
  }

  lemma CopyDone<K, V>(t: seq<Slot<K, V>>, hfunc: K -> Word, c: map<K, V>)
    requires TableOk(t, hfunc) && CopiedUpTo(t, |t|, c)
    ensures c == Contents(t, hfunc)
  {
    var d := Contents(t, hfunc);
    forall k | k in d ensures k in c && c[k] == d[k] {
      var j :| 0 <= j < |t| && t[j].Active? && t[j].key == k;
    }
    forall k | k in c ensures k in d {
      var j :| 0 <= j < |t| && t[j].Active? && t[j].key == k;
    }
  }
}
