/** Powers of two and division, as the arithmetic of the kernel needs them. */
module Arithmetic {
  type Byte = b: int | 0 <= b < 256

  // Unsigned 32-bit integers wrap around here.
  const WRAP: nat := 0x1_0000_0000

  function Pow2(k: nat): (r: nat)
    ensures r > 0
  {
    if k == 0 then 1 else 2 * Pow2(k - 1)
  }

  lemma {:induction false} PowerGrows(j: nat, k: nat)
    requires j < k
    ensures 2 * Pow2(j) <= Pow2(k)
    decreases k
  {
    if j < k - 1 { PowerGrows(j, k - 1); }
  }

  lemma {:induction false} PowerSum(j: nat, k: nat)
    ensures Pow2(j + k) == Pow2(j) * Pow2(k)
  {
    if j > 0 {
      PowerSum(j - 1, k);
      assert 2 * Pow2(j - 1) * Pow2(k) == 2 * (Pow2(j - 1) * Pow2(k));
    }
  }

  lemma WordPowers()
    ensures Pow2(8) == 0x100 && Pow2(32) == 0x1_0000_0000
    ensures Pow2(63) == 0x8000_0000_0000_0000 && Pow2(64) == 0x1_0000_0000_0000_0000
  {
    assert Pow2(8) == 256 by { assert Pow2(4) == 16; }
    PowerSum(8, 8);
    assert Pow2(16) == 0x1_0000;
    PowerSum(16, 16);
    assert Pow2(32) == 0x1_0000_0000;
    PowerSum(32, 32);
  }

  lemma SmallPowers()
    ensures Pow2(0) == 1 && Pow2(1) == 2 && Pow2(2) == 4 && Pow2(3) == 8 && Pow2(4) == 16
    ensures Pow2(5) == 32 && Pow2(6) == 64 && Pow2(7) == 128 && Pow2(8) == 256
  {
    assert Pow2(1) == 2 * Pow2(0);
    assert Pow2(2) == 2 * Pow2(1);
    assert Pow2(3) == 2 * Pow2(2);
    assert Pow2(4) == 2 * Pow2(3);
    assert Pow2(5) == 2 * Pow2(4);
    assert Pow2(6) == 2 * Pow2(5);
    assert Pow2(7) == 2 * Pow2(6);
    assert Pow2(8) == 2 * Pow2(7);
  }

  lemma Grows(d: int, p: int)
    requires d > 0 && p >= 0
    ensures d * p >= p
  {
    assert d * p == (d - 1) * p + p;
  }

  lemma Apart(p: int, e: int, q: int, r: int, d: int)
    requires d > 0 && 0 <= e < d && 0 <= r < d && p < q
    ensures p * d + e < q * d + r
  {
    assert q * d == p * d + d + (q - p - 1) * d;
    assert (q - p - 1) * d >= 0;
  }

  /** Quotient and remainder are unique. */
  lemma QuotientUnique(q: int, r: int, d: int)
    requires d > 0 && 0 <= r < d
    ensures (q * d + r) / d == q && (q * d + r) % d == r
  {
    var n := q * d + r;
    var p, e := n / d, n % d;
    assert n == p * d + e;
    if p < q { Apart(p, e, q, r, d); }
    if q < p { Apart(q, r, p, e, d); }
  }
}
