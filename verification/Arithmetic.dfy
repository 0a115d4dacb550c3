/** Facts about remainders used by the hash table, the message ring and the page walk. */
module Arithmetic {

  lemma SmallMultiple(d: int, m: int)
    requires m > 0 && 0 - m < d * m < m
    ensures d == 0
  {}

  lemma ModEqual(x: int, y: int, m: nat, q: int)
    requires m > 0 && x == y + q * m
    ensures x % m == y % m
  {
    var d := q - x / m + y / m;
    assert x % m - y % m == d * m by {
      assert x == m * (x / m) + x % m && y == m * (y / m) + y % m;
      assert d * m == q * m - (x / m) * m + (y / m) * m;
    }
    SmallMultiple(d, m);
  }

  /** Reducing modulo a larger power of two first changes nothing. */
  lemma ModMod(x: int, m: nat, q: nat)
    requires m > 0 && q > 0
    ensures (x % (m * q)) % m == x % m
  {
    var t := x / (m * q);
    assert x == x % (m * q) + t * (m * q);
    assert t * (m * q) == (t * q) * m;
    ModEqual(x, x % (m * q), m, t * q);
  }

  lemma SameRemainder(y: int, z: int, m: nat) returns (q: int)
    requires m > 0 && y % m == z % m
    ensures z - y == q * m
  {
    q := z / m - y / m;
    assert z == m * (z / m) + z % m && y == m * (y / m) + y % m;
    assert q * m == (z / m) * m - (y / m) * m;
  }

  lemma ModSmall(x: int, m: int)
    requires 0 <= x < m
    ensures x % m == x && x / m == 0
  {
    assert x == m * (x / m) + x % m;
    SmallMultiple(x / m, m);
  }
}
