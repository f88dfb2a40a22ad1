/** Numbers as text: what the stream emits for an integer, and what reading it back gives. */
module NumberText {
  import opened Arithmetic

  const SIGN := 0x8000_0000

  function DigitChar(d: int): (c: char)
    requires 0 <= d < 36
    ensures DigitValue(c) == d && c != '\0' && (c == '0' <==> d == 0)
  {
    if d > 9 then ('a' as int + d - 10) as char else ('0' as int + d) as char
  }

  function DigitValue(c: char): int {
    if '0' <= c <= '9' then c as int - '0' as int
    else if 'a' <= c <= 'z' then c as int - 'a' as int + 10
    else 0
  }

  const ALPHABET := "0123456789abcdefghijklmnopqrstuvwxyz"

  /** The digits in order. */
  lemma DigitIs(d: int)
    requires 0 <= d < 36
    ensures DigitChar(d) == ALPHABET[d]
  {
  }

  /** c is a digit to the base. */
  predicate IsDigit(c: char, base: int) {
    ('0' <= c <= '9' || 'a' <= c <= 'z') && DigitValue(c) < base
  }

  function Digits(n: nat, base: int): (s: seq<char>)
    requires 2 <= base <= 36
    decreases n
  {
    if n == 0 then [] else Digits(n / base, base) + [DigitChar(n % base)]
  }

  function Value(s: seq<char>, base: int): int
    decreases |s|
  {
    if s == [] then 0 else Value(s[..|s| - 1], base) * base + DigitValue(s[|s| - 1])
  }

  /** The text of an unsigned number. */
  function Unsigned(n: nat, base: int): seq<char>
    requires 2 <= base <= 36
  {
    if n == 0 then "0" else Digits(n, base)
  }

  /** Digits without a leading zero, as an unsigned number is written. */
  ghost predicate Canonical(s: seq<char>, base: int) {
    s != [] && (s[0] == '0' ==> |s| == 1) && forall i :: 0 <= i < |s| ==> IsDigit(s[i], base)
  }

  lemma Divided(n: nat, base: int) returns (q: nat, d: nat)
    requires n > 0 && base >= 2
    ensures q == n / base && d == n % base
    ensures n == q * base + d && d < base && 2 * q <= n && q + d > 0
  {
    q, d := n / base, n % base;
    assert q * base >= q * 2;
  }

  lemma {:induction false} DigitsRead(n: nat, base: int)
    requires 2 <= base <= 36
    ensures Value(Digits(n, base), base) == n
    ensures n > 0 ==> Canonical(Digits(n, base), base) && Digits(n, base)[0] != '0'
    decreases n
  {
    if n > 0 {
      var q, d := Divided(n, base);
      DigitsRead(q, base);
      DigitStep(q, d, base);
      ValueAppend(Digits(q, base), DigitChar(d), base);
    }
  }

  lemma ValueAppend(s: seq<char>, c: char, base: int)
    ensures Value(s + [c], base) == Value(s, base) * base + DigitValue(c)
  {
    assert (s + [c])[..|s|] == s;
  }

  /** Reading the text of a number gives the number back, and the text has no leading zeros. */
  lemma UnsignedRoundTrip(n: nat, base: int)
    requires 2 <= base <= 36
    ensures Value(Unsigned(n, base), base) == n && Canonical(Unsigned(n, base), base)
  {
    DigitsRead(n, base);
    if n == 0 {
      assert Value("0"[..0], base) == 0;
      assert Value("0", base) == Value("0"[..0], base) * base + DigitValue('0');
    }
  }

  lemma {:induction false} ValueDigits(s: seq<char>, base: int)
    requires 2 <= base <= 36 && Canonical(s, base) && s[0] != '0'
    ensures Value(s, base) > 0 && Digits(Value(s, base), base) == s
    decreases |s|
  {
    var front, last := s[..|s| - 1], s[|s| - 1];
    assert DigitChar(DigitValue(last)) == last;
    if front == [] {
      assert s == [last];
      DigitStep(0, DigitValue(last), base);
      assert Digits(0, base) == [];
    } else {
      ValueDigits(front, base);
      DigitStep(Value(front, base), DigitValue(last), base);
    }
  }

  lemma DigitStep(q: nat, d: int, base: int)
    requires 2 <= base <= 36 && 0 <= d < base && q + d > 0
    ensures q * base + d > 0 && Digits(q * base + d, base) == Digits(q, base) + [DigitChar(d)]
  {
    QuotientUnique(q, d, base);
    if q > 0 { Grows(base, q); }
  }

  /** Conversely every such text is the text of the number it stands for. */
  lemma TextIsUnique(s: seq<char>, base: int)
    requires 2 <= base <= 36 && Canonical(s, base)
    ensures Value(s, base) >= 0 && Unsigned(Value(s, base), base) == s
  {
    if s[0] == '0' {
      assert s == "0" && s[..0] == [];
      assert Value(s, base) == Value(s[..0], base) * base + DigitValue('0');
    } else {
      ValueDigits(s, base);
    }
  }

  /** The text of a signed 32-bit number: a minus sign to the base ten, the machine word otherwise. */
  function Signed(v: int, base: int): seq<char>
    requires 2 <= base <= 36
  {
    if base == 10 && v < 0 then "-" + Unsigned(-v % WRAP, base) else Unsigned(v % WRAP, base)
  }

  /** The number that a 32-bit word stands for in two's complement. */
  function OfWord(n: int): int { if n >= SIGN then n - WRAP else n }

  function SignedValue(s: seq<char>, base: int): int {
    if base == 10 && s != [] && s[0] == '-' then -Value(s[1..], base) else OfWord(Value(s, base))
  }

  lemma WordOf(v: int)
    requires -SIGN <= v < SIGN
    ensures 0 <= v % WRAP < WRAP && OfWord(v % WRAP) == v && (v >= 0 ==> v % WRAP == v < SIGN)
    ensures v < 0 ==> -v % WRAP == -v <= SIGN
  {
  }

  lemma OfWordIs(n: int)
    requires 0 <= n < WRAP
    ensures -SIGN <= OfWord(n) < SIGN && OfWord(n) % WRAP == n && (n < SIGN ==> OfWord(n) == n)
  {
  }

  /** The text of a signed 32-bit number: to the base ten without leading zeros and with a minus sign exactly if
      it is negative; to other bases the machine word without leading zeros. */
  ghost predicate SignedCanonical(s: seq<char>, base: int) {
    if base == 10 && s != [] && s[0] == '-' then Negative(s[1..])
    else Canonical(s, base) && Value(s, base) < if base == 10 then SIGN else WRAP
  }

  ghost predicate Negative(s: seq<char>) {
    Canonical(s, 10) && s[0] != '0' && Value(s, 10) <= SIGN
  }

  lemma NegativeText(v: int)
    requires -SIGN <= v < 0
    ensures SignedValue("-" + Unsigned(-v, 10), 10) == v && Negative(Unsigned(-v, 10))
  {
    DigitsRead(-v, 10);
    assert ("-" + Unsigned(-v, 10))[1..] == Unsigned(-v, 10);
  }

  lemma NoMinus(s: seq<char>, base: int)
    requires Canonical(s, base)
    ensures s[0] != '-'
  {
    assert IsDigit(s[0], base);
  }

  /** Reading the text of a number gives the number back, and the text has that form. */
  lemma SignedRoundTrip(v: int, base: int)
    requires 2 <= base <= 36 && -SIGN <= v < SIGN
    ensures SignedValue(Signed(v, base), base) == v && SignedCanonical(Signed(v, base), base)
  {
    WordOf(v);
    if base == 10 && v < 0 {
      NegativeText(v);
      assert ("-" + Unsigned(-v, 10))[1..] == Unsigned(-v, 10);
    } else {
      UnsignedRoundTrip(v % WRAP, base);
      NoMinus(Unsigned(v % WRAP, base), base);
    }
  }

  lemma NegativeIsUnique(s: seq<char>)
    requires Negative(s)
    ensures 0 < Value(s, 10) && Unsigned(Value(s, 10), 10) == s
  {
    ValueDigits(s, 10);
  }

  /** Conversely every text of that form is the text of the number it stands for. */
  lemma SignedTextIsUnique(s: seq<char>, base: int)
    requires 2 <= base <= 36 && SignedCanonical(s, base)
    ensures -SIGN <= SignedValue(s, base) < SIGN && Signed(SignedValue(s, base), base) == s
  {
    if base == 10 && s != [] && s[0] == '-' {
      NegativeIsUnique(s[1..]);
      WordOf(SignedValue(s, base));
      assert s == "-" + s[1..];
    } else {
      TextIsUnique(s, base);
      OfWordIs(Value(s, base));
    }
  }

  lemma QuotientFits(n: nat, base: int, k: nat)
    requires base >= 2 && 0 < n < Pow2(k)
    ensures k > 0 && 0 <= n / base < n && n / base < Pow2(k - 1) && 0 <= n % base < base
  {
    var q, d := Divided(n, base);
    assert 2 * q < Pow2(k);
  }

  /** A number below 2^k has at most k digits, whatever the base. */
  lemma {:induction false} DigitsFit(n: nat, base: int, k: nat)
    requires 2 <= base <= 36 && n < Pow2(k)
    ensures |Digits(n, base)| <= k
    decreases k
  {
    if n > 0 {
      QuotientFits(n, base, k);
      DigitsFit(n / base, base, k - 1);
    }
  }
}
