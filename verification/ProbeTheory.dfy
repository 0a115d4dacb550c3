/**
  Arithmetic behind the probe order of the open-addressed hash table
  (`src/lib/hash/hash.c`): once the perturbation has been shifted out, the table
  is visited by `index := 5 * index + 1` modulo a power of two, and that map
  visits every slot before it repeats one.
  */
module ProbeTheory {
  import opened Arithmetic

  function Pow2(k: nat): (r: nat)
    ensures r >= 1
    ensures k > 0 ==> r % 2 == 0
  {
    if k == 0 then 1 else 2 * Pow2(k - 1)
  }

  lemma {:induction false} Pow2Add(a: nat, b: nat)
    ensures Pow2(a + b) == Pow2(a) * Pow2(b)
  {
    if a > 0 { Pow2Add(a - 1, b); }
  }

  /** `n` steps of `x := 5x + 1` over the integers. */
  function Orbit(x: int, n: nat): (r: int)
    ensures x >= 0 ==> r >= 0
  {
    if n == 0 then x else 5 * Orbit(x, n - 1) + 1
  }

  lemma {:induction false} OrbitAdd(x: int, a: nat, b: nat)
    ensures Orbit(x, a + b) == Orbit(Orbit(x, a), b)
  {
    if b > 0 { OrbitAdd(x, a, b - 1); }
  }

  lemma AffineStep(d: int, x: int)
    ensures 5 * (x + d * (4 * x + 1)) + 1 - x == (5 * d + 1) * (4 * x + 1)
  {}

  /** The displacement after `n` steps is the orbit of 0 times an odd factor. */
  lemma {:induction false} OrbitAffine(x: int, n: nat)
    ensures Orbit(x, n) - x == Orbit(0, n) * (4 * x + 1)
  {
    if n > 0 {
      OrbitAffine(x, n - 1);
      AffineStep(Orbit(0, n - 1), x);
    }
  }

  lemma {:induction false} OrbitParity(n: nat)
    ensures Orbit(0, n) % 2 == n % 2
  {
    if n > 0 { OrbitParity(n - 1); }
  }

  lemma OrbitDouble(n: nat) returns (d: int)
    ensures d == Orbit(0, n) && Orbit(0, 2 * n) == 2 * (d * (2 * d + 1))
  {
    d := Orbit(0, n);
    OrbitAdd(0, n, n);
    OrbitAffine(d, n);
    assert d + d * (4 * d + 1) == 2 * (d * (2 * d + 1));
  }

  /** An odd factor cannot supply a power of two: if 2^k divides x (2b + 1), it divides x. */
  lemma {:induction false} OddFactor(k: nat, x: int, b: int, q: int) returns (r: int)
    requires x * (2 * b + 1) == q * Pow2(k)
    ensures x == r * Pow2(k)
  {
    if k == 0 {
      r := x;
    } else {
      var z := q * Pow2(k - 1);
      assert x * (2 * b + 1) == 2 * z;
      var y := EvenFactor(x, b, z);
      r := OddFactor(k - 1, y, b, q);
      assert 2 * (r * Pow2(k - 1)) == r * Pow2(k);
    }
  }

  lemma EvenFactor(x: int, b: int, z: int) returns (y: int)
    requires x * (2 * b + 1) == 2 * z
    ensures x == 2 * y && y * (2 * b + 1) == z
  {
    assert x * (2 * b + 1) == 2 * (x * b) + x;
    y := z - x * b;
    assert 2 * (y * (2 * b + 1)) == x * (2 * b + 1);
  }

  /** The orbit of 0 returns to 0 modulo 2^k only after a multiple of 2^k steps. */
  lemma {:induction false} OrbitReturns(k: nat, m: nat, q: int) returns (r: int)
    requires Orbit(0, m) == q * Pow2(k)
    ensures m == r * Pow2(k)
    decreases k
  {
    if k == 0 {
      r := m;
    } else {
      assert Orbit(0, m) == 2 * (q * Pow2(k - 1));
      OrbitParity(m);
      var h := m / 2;
      assert m == 2 * h;
      var d := OrbitDouble(h);
      assert d * (2 * d + 1) == q * Pow2(k - 1);
      var q' := OddFactor(k - 1, d, d, q);
      r := OrbitReturns(k - 1, h, q');
      assert 2 * (r * Pow2(k - 1)) == r * Pow2(k);
    }
  }

  lemma AffineReturns(k: nat, d: nat, y: int, q: int) returns (r: int)
    requires Orbit(0, d) * (4 * y + 1) == q * Pow2(k)
    ensures d == r * Pow2(k)
  {
    var q' := OddFactor(k, Orbit(0, d), 2 * y, q);
    r := OrbitReturns(k, d, q');
  }

  lemma OrbitRepeats(x: int, k: nat, a: nat, d: nat, q: int) returns (r: int)
    requires Orbit(x, a + d) - Orbit(x, a) == q * Pow2(k)
    ensures d == r * Pow2(k)
  {
    OrbitAdd(x, a, d);
    var y := Orbit(x, a);
    OrbitAffine(y, d);
    r := AffineReturns(k, d, y, q);
  }

  /** No slot is visited twice within one period. */
  lemma OrbitInjective(x: int, k: nat, a: nat, b: nat)
    requires a < b < Pow2(k)
    ensures Orbit(x, a) % Pow2(k) != Orbit(x, b) % Pow2(k)
  {
    if Orbit(x, a) % Pow2(k) == Orbit(x, b) % Pow2(k) {
      var q := SameRemainder(Orbit(x, a), Orbit(x, b), Pow2(k));
      var r := OrbitRepeats(x, k, a, b - a, q);
      SmallMultiple(r, Pow2(k));
      assert false;
    }
  }

  function Below(n: nat): (r: set<nat>)
    ensures forall i: nat :: i in r <==> i < n
    ensures |r| == n
  {
    if n == 0 then {} else Below(n - 1) + {n - 1}
  }

  function Elements(s: seq<nat>): (r: set<nat>)
    ensures forall x: nat :: x in r <==> x in s
  {
    if s == [] then {} else Elements(s[..|s| - 1]) + {s[|s| - 1]}
  }

  lemma {:induction false} SizeOfDistinct(s: seq<nat>)
    requires forall a, b :: 0 <= a < b < |s| ==> s[a] != s[b]
    ensures |Elements(s)| == |s|
  {
    if s != [] { SizeOfDistinct(s[..|s| - 1]); }
  }

  /** A sequence of distinct numbers below its own length lists all of them. */
  lemma DistinctCovers(s: seq<nat>, j: nat)
    requires forall i :: 0 <= i < |s| ==> s[i] < |s|
    requires forall a, b :: 0 <= a < b < |s| ==> s[a] != s[b]
    requires j < |s|
    ensures j in s
  {
    SizeOfDistinct(s);
    if Elements(s) != Below(|s|) {
      SubsetSmaller(Elements(s), Below(|s|));
      assert false;
    }
    assert j in Below(|s|);
  }

  lemma {:induction false} SubsetSmaller<T>(a: set<T>, b: set<T>)
    requires a < b
    ensures |a| < |b|
  {
    if a != {} {
      var x :| x in a;
      SubsetSmaller(a - {x}, b - {x});
    }
  }

  /** Full period: one period of `x := 5x + 1` modulo 2^k visits every slot. */
  lemma FullPeriod(x: int, k: nat, j: nat) returns (n: nat)
    requires j < Pow2(k)
    ensures n < Pow2(k) && Orbit(x, n) % Pow2(k) == j
  {
    var m := Pow2(k);
    var s: seq<nat> := seq(m, i requires 0 <= i => Orbit(x, i) % m);
    forall a, b | 0 <= a < b < |s| ensures s[a] != s[b] {
      OrbitInjective(x, k, a, b);
    }
    DistinctCovers(s, j);
    n :| 0 <= n < |s| && s[n] == j;
  }
}
