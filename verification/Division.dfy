/** 64-bit division by shifting and subtracting. */
module Division {
  import opened Arithmetic

  const WORD := 0x1_0000_0000_0000_0000
  const TOP := 0x8000_0000_0000_0000

  /** The denominator has been shifted left k times, and nothing was shifted out. */
  ghost predicate Shifted(denominator: int, den: int, qbit: int, k: nat) {
    denominator > 0 && k <= 63 && qbit == Pow2(k) && den == denominator * qbit && den < WORD
  }

  /** With bits quotient bits to come, quot and num are the quotient so far and what remains. */
  ghost predicate Dividing(numerator: int, denominator: int, num: int, den: int, quot: int, qbit: int, bits: nat) {
    && denominator > 0
    && (if bits > 0 then Shifted(denominator, den, qbit, bits - 1) else qbit == 0)
    && numerator == quot * denominator + num
    && 0 <= num < WORD && num < denominator * Pow2(bits)
    && 0 <= quot && quot + Pow2(bits) <= WORD
  }

  /** Quotient and remainder of a 64-bit division. All arithmetic is modulo 2^64, as in the machine
      words of the program. */
  method Div64(numerator: int, denominator: int) returns (quot: int, rem: int)
    requires 0 <= numerator < WORD && 0 < denominator < WORD
    ensures numerator == quot * denominator + rem && 0 <= rem < denominator
    ensures quot == numerator / denominator && rem == numerator % denominator
    ensures 0 <= quot < WORD
  {
    var num, den := numerator, denominator;
    quot := 0;
    var qbit := 1;
    ghost var k: nat := 0;
    while den < TOP
      invariant Shifted(denominator, den, qbit, k)
      decreases 63 - k
    {
      ShiftLeft(denominator, den, qbit, k);
      den := (den * 2) % WORD;
      qbit := (qbit * 2) % WORD;
      k := k + 1;
    }
    ghost var bits: nat := k + 1;
    AllShifted(numerator, denominator, den, qbit, k);
    while qbit != 0
      invariant Dividing(numerator, denominator, num, den, quot, qbit, bits)
      decreases bits
    {
      TakeBit(numerator, denominator, num, den, quot, qbit, bits);
      if den <= num {
        num := (num - den) % WORD;
        quot := (quot + qbit) % WORD;
      }
      den := den / 2;
      qbit := qbit / 2;
      bits := bits - 1;
    }
    rem := num;
    Divided(numerator, denominator, num, den, quot, bits);
  }

  lemma ShiftLeft(denominator: int, den: int, qbit: int, k: nat)
    requires Shifted(denominator, den, qbit, k) && den < TOP
    ensures k < 63 && Shifted(denominator, (den * 2) % WORD, (qbit * 2) % WORD, k + 1)
  {
    WordPowers();
    Grows(denominator, Pow2(k));
    DoublePower(denominator, k);
    assert (den * 2) % WORD == den * 2 && (qbit * 2) % WORD == qbit * 2;
  }

  lemma AllShifted(numerator: int, denominator: int, den: int, qbit: int, k: nat)
    requires 0 <= numerator < WORD && Shifted(denominator, den, qbit, k) && den >= TOP
    ensures Dividing(numerator, denominator, numerator, den, 0, qbit, k + 1)
  {
    WordPowers();
    DoublePower(denominator, k);
    if k < 63 { PowerGrows(k, 63); }
  }

  lemma TakeBit(numerator: int, denominator: int, num: int, den: int, quot: int, qbit: int, bits: nat)
    requires Dividing(numerator, denominator, num, den, quot, qbit, bits) && qbit != 0
    ensures bits > 0
    ensures Dividing(numerator, denominator, if den <= num then (num - den) % WORD else num, den / 2,
                     if den <= num then (quot + qbit) % WORD else quot, qbit / 2, bits - 1)
  {
    DoublePower(denominator, bits - 1);
    DoublePower(1, bits - 1);
    assert (quot + qbit) * denominator == quot * denominator + denominator * qbit;
    assert den <= num ==> (num - den) % WORD == num - den;
    assert den <= num ==> (quot + qbit) % WORD == quot + qbit;
    if bits > 1 {
      DoublePower(denominator, bits - 2);
    }
  }

  lemma Divided(numerator: int, denominator: int, num: int, den: int, quot: int, bits: nat)
    requires Dividing(numerator, denominator, num, den, quot, 0, bits)
    ensures numerator == quot * denominator + num && 0 <= num < denominator && 0 <= quot < WORD
    ensures quot == numerator / denominator && num == numerator % denominator
  {
    assert bits == 0 && denominator * Pow2(0) == denominator;
    QuotientUnique(quot, num, denominator);
  }

  lemma DoublePower(denominator: int, k: nat)
    ensures denominator * Pow2(k + 1) == 2 * (denominator * Pow2(k))
  {
    assert Pow2(k + 1) == 2 * Pow2(k);
  }
}
