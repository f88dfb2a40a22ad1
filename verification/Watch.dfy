/** The interval timer's settings: how the watch turns microseconds into a counter and a divider. */
module Watch {
  import opened Arithmetic
  import Division

  const MOST := 0x8000_0000

  /** The first tick count that does not fit a 31-bit counter even with the largest divider. */
  const LIMIT := 0x40_0000_0080

  const DIVIDERS := {1, 2, 4, 8, 16, 32, 64, 128}

  /** How often ticks must be halved to fit. */
  function Shifts(ticks: nat): nat {
    if ticks > MOST then 1 + Shifts(ticks / 2) else 0
  }

  /** tm is the tick rate: ticks a millisecond. */
  function TickCount(us: nat, tm: nat): nat { us * tm / 1000 }

  /** The period in microseconds of a counter and divider at a tick rate, in a 32-bit word. */
  function Period(ticks: int, divide: int, tm: int): int
    requires tm > 0
  {
    ticks * divide * 1000 / tm % WRAP
  }

  /** A millisecond has a thousand microseconds: the ticks counted are those that fit the interval. */
  lemma TicksFit(us: nat, tm: nat)
    ensures TickCount(us, tm) * 1000 <= us * tm < (TickCount(us, tm) + 1) * 1000
  {
  }

  /** The period is the whole microseconds that the counter takes with its divider, if they fit a word. */
  lemma PeriodFits(ticks: nat, divide: nat, tm: nat)
    requires tm > 0 && ticks * divide * 1000 < WRAP * tm
    ensures var us := Period(ticks, divide, tm);
      us * tm <= ticks * divide * 1000 < us * tm + tm
  {
    var n := ticks * divide * 1000;
    WholePart(n, tm);
    Cancel(n / tm, WRAP - 1, tm);
    assert Period(ticks, divide, tm) == n / tm;
  }

  lemma WholePart(n: nat, d: nat)
    requires d > 0
    ensures 0 <= n / d && n / d * d <= n < n / d * d + d
  {
  }

  class Watch {
    var divide: int
    var ticks: int

    ghost predicate Valid()
      reads this
    {
      (divide == 0 || divide in DIVIDERS) && 0 <= ticks <= MOST
    }

    constructor ()
      ensures Valid() && divide == 1 && ticks == 0
    {
      divide, ticks := 1, 0;
    }

    /** The counter is the tick count halved just often enough; the divider is doubled as often, in
        a byte. The program's check for a divider that is too large never fires. */
    method Windup(us: int, tm: int) returns (ok: bool)
      requires Valid() && 0 <= us < WRAP && 0 <= tm < WRAP
      modifies this
      ensures Valid() && ok
      ensures var n := Shifts(TickCount(us, tm));
        ticks == TickCount(us, tm) / Pow2(n) && divide == old(divide) * Pow2(n) % 256
    {
      var all := Scale(us, tm);
      var t;
      t, ok := Fit(all);
      if !ok { return; }
      ticks := t % WRAP;
      HalvedIs(all, Shifts(all));
      DoubledIs(old(divide), Shifts(all));
    }

    /** Microseconds to ticks; the 64-bit product does not overflow. */
    static method Scale(us: int, tm: int) returns (t: nat)
      requires 0 <= us < WRAP && 0 <= tm < WRAP
      ensures t == TickCount(us, tm)
    {
      Product(us, tm);
      var product := us * tm;
      var q, _ := Division.Div64(product % Division.WORD, 1000);
      t := q;
    }

    /** The halving loop. */
    method Fit(all: nat) returns (t: nat, ok: bool)
      requires Valid()
      modifies `divide
      ensures Valid() && ok && t <= MOST
      ensures t == Halved(all, Shifts(all)) && divide == Doubled(old(divide), Shifts(all))
    {
      ghost var n: nat := 0;
      t := all;
      while t > MOST
        invariant t == Halved(all, n) && Shifts(all) == n + Shifts(t)
        invariant divide == Doubled(old(divide), n) && (divide == 0 || divide in DIVIDERS)
        decreases t
      {
        t := t / 2;
        divide := divide * 2 % 256;
        n := n + 1;
        if divide > 128 {
          return t, false;
        }
      }
      ok := true;
    }

    method Interval(tm: int) returns (us: int)
      requires Valid() && 0 < tm < WRAP
      ensures us == Period(ticks, divide, tm)
    {
      var product := ticks * divide;
      Monotone(ticks, divide, 128);
      assert 0 <= product <= MOST * 128;
      var p := product % Division.WORD * 1000 % Division.WORD;
      assert p == product * 1000;
      var q, _ := Division.Div64(p, tm);
      us := q % WRAP;
    }
  }

  lemma Product(us: int, tm: int)
    requires 0 <= us < WRAP && 0 <= tm < WRAP
    ensures 0 <= us * tm < Division.WORD
  {
    Monotone(us, tm, WRAP);
    assert us * WRAP < WRAP * WRAP;
  }

  lemma Monotone(a: int, b: int, bound: int)
    requires a >= 0 && 0 <= b <= bound
    ensures 0 <= a * b <= a * bound
  {
    assert a * bound == a * b + a * (bound - b);
    assert a * b >= 0 && a * (bound - b) >= 0;
  }

  ghost function Halved(t: nat, n: nat): nat {
    if n == 0 then t else Halved(t, n - 1) / 2
  }

  /** Doubling in a byte. */
  ghost function Doubled(d: int, n: nat): int {
    if n == 0 then d else Doubled(d, n - 1) * 2 % 256
  }

  lemma {:induction false} HalvedRest(t: nat, n: nat) returns (r: nat)
    ensures t == Halved(t, n) * Pow2(n) + r && r < Pow2(n)
  {
    if n == 0 { return 0; }
    var r' := HalvedRest(t, n - 1);
    var h, o, p := Halved(t, n), Halved(t, n - 1) % 2, Pow2(n - 1);
    assert Halved(t, n - 1) == 2 * h + o;
    assert (2 * h + o) * p == h * (2 * p) + o * p;
    assert o * p <= p;
    r := o * p + r';
  }

  lemma HalvedIs(t: nat, n: nat)
    ensures Halved(t, n) == t / Pow2(n)
  {
    var r := HalvedRest(t, n);
    QuotientUnique(Halved(t, n), r, Pow2(n));
  }

  lemma {:induction false} DoubledIs(d: nat, n: nat)
    requires d < 256
    ensures Doubled(d, n) == d * Pow2(n) % 256
  {
    if n > 0 {
      DoubledIs(d, n - 1);
      ByteDouble(d * Pow2(n - 1));
      assert d * Pow2(n) == 2 * (d * Pow2(n - 1));
    }
  }

  lemma ByteDouble(m: int)
    ensures m % 256 * 2 % 256 == 2 * m % 256
  {
  }

  // ---------- what the settings mean ----------

  lemma {:induction false} HalvedFirst(t: nat, n: nat)
    ensures Halved(t / 2, n) == Halved(t, n + 1) && Halved(t, n) <= t
  {
    if n > 0 { HalvedFirst(t, n - 1); }
  }

  lemma {:induction false} ShiftsHalved(t: nat, k: nat)
    ensures Shifts(t) <= k <==> Halved(t, k) <= MOST
    decreases k
  {
    HalvedFirst(t, k);
    if k > 0 && t > MOST {
      HalvedFirst(t, k - 1);
      ShiftsHalved(t / 2, k - 1);
    }
  }

  /** The tick count is halved exactly as often as needed: the divider is the smallest power of two
      that lets the counter fit. */
  lemma ShiftsLeast(t: nat, k: nat)
    ensures Shifts(t) <= k <==> t / Pow2(k) <= 0x8000_0000
  {
    ShiftsHalved(t, k);
    HalvedIs(t, k);
  }

  lemma SevenShifts(t: nat)
    ensures Shifts(t) <= 7 <==> t < LIMIT
  {
    ShiftsLeast(t, 7);
    SmallPowers();
  }

  lemma ByteDivider(d: int, n: nat)
    requires d == 0 || d in DIVIDERS
    ensures d * Pow2(n) % 256 == Pow2(n) <==> d == 1 && n <= 7
    ensures n >= 8 ==> d * Pow2(n) % 256 == 0
  {
    if n >= 8 {
      ByteOverflow(d, n);
    } else {
      SmallPower(n);
      ByteProduct(d, Pow2(n));
    }
  }

  lemma ByteOverflow(d: int, n: nat)
    requires n >= 8
    ensures d * Pow2(n) % 256 == 0 && Pow2(n) >= 256
  {
    WordPowers();
    PowerSum(8, n - 8);
    Multiple(d, Pow2(n - 8));
  }

  lemma Multiple(d: int, p: int)
    ensures d * (256 * p) % 256 == 0
  {
    var m := d * p;
    assert d * (256 * p) == 256 * m;
  }

  lemma SmallPower(n: nat)
    requires n <= 7
    ensures Pow2(n) in DIVIDERS
  {
    SmallPowers();
    assert n in {0, 1, 2, 3, 4, 5, 6, 7};
  }

  lemma ByteProduct(d: int, p: int)
    requires (d == 0 || d in DIVIDERS) && p in DIVIDERS
    ensures d * p % 256 == p <==> d == 1
  {
    if p == 1 { } else if p == 2 { } else if p == 4 { } else if p == 8 { }
    else if p == 16 { } else if p == 32 { } else if p == 64 { } else { assert p == 128; }
  }

  /** The divider stored by a windup is the one that matches the stored counter if and only if the
      watch was fresh and the tick count is in range: a second windup multiplies onto the first
      one's divider, and out of range the byte wraps to zero. */
  lemma DividerMatches(d: int, t: nat)
    requires d == 0 || d in DIVIDERS
    ensures d * Pow2(Shifts(t)) % 256 == Pow2(Shifts(t)) <==> d == 1 && t < 0x40_0000_0080
    ensures t >= 0x40_0000_0080 ==> d * Pow2(Shifts(t)) % 256 == 0
  {
    SevenShifts(t);
    ByteDivider(d, Shifts(t));
  }

  lemma Quantised(us: nat, tm: nat, d: int, period: int, slack: int)
    requires tm > 0 && period <= us * tm <= period + slack && period >= 0 && slack >= 0
    ensures 0 <= period / tm <= us && us - period / tm <= (slack + tm - 1) / tm
  {
    var i, r := period / tm, period % tm;
    assert period == i * tm + r;
    var gap := us - i;
    assert gap * tm == us * tm - i * tm;
    Cancel(-1, gap, tm);
    var bound, rest := (slack + tm - 1) / tm, (slack + tm - 1) % tm;
    assert slack + tm - 1 == bound * tm + rest;
    Cancel(gap, bound, tm);
  }

  lemma Cancel(a: int, b: int, d: int)
    requires d > 0 && a * d < (b + 1) * d
    ensures a <= b
  {
    assert a > b ==> (a - b - 1) * d >= 0;
    assert a * d == (b + 1) * d + (a - b - 1) * d;
  }

  lemma CounterLoss(t: nat, d: int)
    requires d > 0
    ensures t - (d - 1) <= t / d * d <= t
  {
    assert t == t / d * d + t % d;
  }

  /** In range, the interval of a freshly wound watch is at most the one asked for, and short of it
      by no more than the divider and the tick rate make unavoidable. */
  lemma IntervalBound(us: nat, tm: nat)
    requires us < WRAP && 0 < tm < WRAP && TickCount(us, tm) < LIMIT
    ensures var d := Pow2(Shifts(TickCount(us, tm)));
      var i := Period(TickCount(us, tm) / d, d, tm);
      d <= 128 && 0 <= i <= us && us - i <= (1000 * d - 1 + tm - 1) / tm
  {
    var t := TickCount(us, tm);
    SevenShifts(t);
    var d := Pow2(Shifts(t));
    if Shifts(t) < 7 { PowerGrows(Shifts(t), 7); }
    SmallPowers();
    CounterLoss(t, d);
    Quantised(us, tm, d, t / d * d * 1000, 1000 * d - 1);
  }

  /** Out of range the interval reads zero although the windup reported success. */
  lemma OutOfRange(us: nat, tm: nat)
    requires us < WRAP && 0 < tm < WRAP && TickCount(us, tm) >= LIMIT
    ensures var n := Shifts(TickCount(us, tm));
      Period(TickCount(us, tm) / Pow2(n), 1 * Pow2(n) % 256, tm) == 0 < us
  {
    DividerMatches(1, TickCount(us, tm));
    assert us == 0 ==> us * tm == 0;
    ZeroPeriod(TickCount(us, tm) / Pow2(Shifts(TickCount(us, tm))), tm);
  }

  lemma ZeroPeriod(ticks: int, tm: int)
    requires tm > 0
    ensures Period(ticks, 0, tm) == 0
  {
    assert ticks * 0 * 1000 == 0;
  }

  /** Fifty minutes with a 100 MHz bus, which is 100000 ticks a millisecond: success is reported, and the
      interval is zero. */
  method OutOfRangeExample() returns (ok: bool, interval: int)
    ensures ok && interval == 0
  {
    var us, tm := 3_000_000_000, 100_000;
    var watch := new Watch();
    ok := watch.Windup(us, tm);
    interval := watch.Interval(tm);
    OutOfRange(us, tm);
  }
}
