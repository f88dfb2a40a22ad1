/** The keyboard decoder: make and break codes in, keys with modifiers out, and the LED shadow. */
module Keyboard {
  import opened Arithmetic

  const PREFIX1: Byte := 0xe0
  const PREFIX2: Byte := 0xe1
  const BREAK := 0x80

  // Modifier bits of a key.
  const SHIFT: bv8 := 1
  const ALT_LEFT: bv8 := 2
  const ALT_RIGHT: bv8 := 4
  const CTRL_LEFT: bv8 := 8
  const CTRL_RIGHT: bv8 := 16
  const CAPS_LOCK: bv8 := 32
  const NUM_LOCK: bv8 := 64
  const SCROLL_LOCK: bv8 := 128

  // Bits of the LED byte.
  const LED_SCROLL: bv8 := 1
  const LED_NUM: bv8 := 2
  const LED_CAPS: bv8 := 4

  const DIV_SCAN: Byte := 8

  predicate Single(bit: bv8) {
    bit == 1 || bit == 2 || bit == 4 || bit == 8 || bit == 16 || bit == 32 || bit == 64 || bit == 128
  }

  function WithBit(byte: bv8, bit: bv8, on: bool): bv8 {
    if on then byte | bit else byte & !bit
  }

  predicate HasBit(byte: bv8, bit: bv8) { byte & bit != 0 }

  /** Writing one bit sets that bit and leaves the others alone. */
  lemma BitsIndependent(byte: bv8, bit: bv8, on: bool, other: bv8)
    requires Single(bit) && Single(other)
    ensures HasBit(WithBit(byte, bit, on), other) == if other == bit then on else HasBit(byte, other)
  {
  }

  datatype Key = Key(asc: Byte, scan: Byte, modi: bv8) {
    predicate Valid() { scan != 0 }

    predicate Has(bit: bv8) { HasBit(modi, bit) }

    function Set(bit: bv8, on: bool): Key { this.(modi := WithBit(modi, bit, on)) }
  }

  /** The code tables. Decoding needs their sizes only; their contents are at the end of the module. */
  datatype Tables = Tables(normal: seq<Byte>, shift: seq<Byte>, alt: seq<Byte>, ascNum: seq<Byte>, scanNum: seq<Byte>) {
    predicate Ok() {
      |normal| == 89 && |shift| == 89 && |alt| == 89 && |ascNum| == 13 && |scanNum| == 13
    }
  }

  /** Codes whose table entry exists, or that need none. */
  predicate InTable(code: Byte) {
    code >= BREAK || code < 89 || 91 <= code <= 93
  }

  predicate Letter(code: Byte) {
    16 <= code <= 26 || 30 <= code <= 40 || 44 <= code <= 50
  }

  /** The character and scan code of a key that is neither modifier nor lock: the keypad's division
      key, then the keypad under NumLock, then AltGr, Shift and CapsLock in this order. */
  function Looked(t: Tables, code: Byte, prefix: Byte, modi: bv8): (r: (Byte, Byte))
    requires t.Ok() && code < 89
  {
    if code == 53 && prefix == PREFIX1 then ('/' as int, DIV_SCAN)
    else if HasBit(modi, NUM_LOCK) && prefix == 0 && 71 <= code <= 83 then (t.ascNum[code - 71], t.scanNum[code - 71])
    else if HasBit(modi, ALT_RIGHT) then (t.alt[code], code)
    else if HasBit(modi, SHIFT) || (HasBit(modi, CAPS_LOCK) && Letter(code)) then (t.shift[code], code)
    else (t.normal[code], code)
  }

  class Decoder {
    const tables: Tables
    var prefix: Byte
    var gather: Key
    var led: bv8

    /** Everything starts out zero, as global storage does. */
    constructor (tables: Tables)
      requires tables.Ok()
      ensures this.tables == tables && prefix == 0 && gather == Key(0, 0, 0) && led == 0
    {
      this.tables := tables;
      prefix, gather, led := 0, Key(0, 0, 0), 0;
    }

    method SetLed(bit: bv8, on: bool)
      modifies `led
      ensures led == WithBit(old(led), bit, on)
    {
      if on {
        led := led | bit;
      } else {
        led := led & !bit;
      }
    }

    method GetAsciiCode(code: Byte)
      requires tables.Ok() && code < 89
      modifies `gather
      ensures gather.modi == old(gather.modi)
      ensures (gather.asc, gather.scan) == Looked(tables, code, prefix, old(gather.modi))
    {
      if code == 53 && prefix == PREFIX1 {
        gather := gather.(asc := '/' as int, scan := DIV_SCAN);
      } else if gather.Has(NUM_LOCK) && prefix == 0 && code >= 71 && code <= 83 {
        gather := gather.(asc := tables.ascNum[code - 71], scan := tables.scanNum[code - 71]);
      } else if gather.Has(ALT_RIGHT) {
        gather := gather.(asc := tables.alt[code], scan := code);
      } else if gather.Has(SHIFT) {
        gather := gather.(asc := tables.shift[code], scan := code);
      } else if gather.Has(CAPS_LOCK) {
        if (code >= 16 && code <= 26) || (code >= 30 && code <= 40) || (code >= 44 && code <= 50) {
          gather := gather.(asc := tables.shift[code], scan := code);
        } else {
          gather := gather.(asc := tables.normal[code], scan := code);
        }
      } else {
        gather := gather.(asc := tables.normal[code], scan := code);
      }
    }

    ghost function Now(): State
      reads this
    {
      State(prefix, gather, led)
    }

    /** A key was let go: only modifiers care. */
    method Release(code: Byte)
      requires code < BREAK
      modifies `gather
      ensures var m := Modifier(code, prefix);
        gather == if m != 0 then old(gather).Set(m, false) else old(gather)
    {
      match code {
        case 42 | 54 => gather := gather.Set(SHIFT, false);
        case 56 =>
          if prefix == PREFIX1 {
            gather := gather.Set(ALT_RIGHT, false);
          } else {
            gather := gather.Set(ALT_LEFT, false);
          }
        case 29 =>
          if prefix == PREFIX1 {
            gather := gather.Set(CTRL_RIGHT, false);
          } else {
            gather := gather.Set(CTRL_LEFT, false);
          }
        case _ =>
      }
    }

    /** A key was pressed: a modifier, a lock, one to be ignored, or one to report. */
    method Press(code: Byte)
      requires tables.Ok() && InTable(code) && code < BREAK && gather.scan == 0
      modifies `gather, `led
      ensures Now().(prefix := 0) == Decoded(tables, old(Now()), code)
    {
      match code {
        case 42 | 54 => gather := gather.Set(SHIFT, true);
        case 56 =>
          if prefix == PREFIX1 {
            gather := gather.Set(ALT_RIGHT, true);
          } else {
            gather := gather.Set(ALT_LEFT, true);
          }
        case 29 =>
          if prefix == PREFIX1 {
            gather := gather.Set(CTRL_RIGHT, true);
          } else {
            gather := gather.Set(CTRL_LEFT, true);
          }
        case 58 =>
          gather := gather.Set(CAPS_LOCK, !gather.Has(CAPS_LOCK));
          SetLed(LED_CAPS, gather.Has(CAPS_LOCK));
        case 70 =>
          gather := gather.Set(SCROLL_LOCK, !gather.Has(SCROLL_LOCK));
          SetLed(LED_SCROLL, gather.Has(SCROLL_LOCK));
        case 69 =>
          if gather.Has(CTRL_LEFT) {
            GetAsciiCode(code);
          } else {
            gather := gather.Set(NUM_LOCK, !gather.Has(NUM_LOCK));
            SetLed(LED_NUM, gather.Has(NUM_LOCK));
          }
        case 91 | 92 | 93 =>
        case _ => GetAsciiCode(code);
      }
    }

    method Decode(received: Byte) returns (key: Key)
      requires tables.Ok() && InTable(received)
      modifies this
      ensures Now() == Decoded(tables, old(Now()), received) && key == gather
    {
      gather := gather.(scan := 0);
      if received == PREFIX1 || received == PREFIX2 {
        prefix := received;
      } else {
        if received >= BREAK {
          Release(received - BREAK);
        } else {
          Press(received);
        }
        prefix := 0;
      }
      key := gather;
    }
  }

  // ---------- one byte ----------

  datatype State = State(prefix: Byte, gather: Key, led: bv8)

  predicate IsPrefix(code: Byte) { code == PREFIX1 || code == PREFIX2 }

  /** The modifier that a code, its break bit removed, stands for after a prefix; zero if none. */
  function Modifier(code: Byte, prefix: Byte): bv8 {
    if code == 42 || code == 54 then SHIFT
    else if code == 56 then (if prefix == PREFIX1 then ALT_RIGHT else ALT_LEFT)
    else if code == 29 then (if prefix == PREFIX1 then CTRL_RIGHT else CTRL_LEFT)
    else 0
  }

  /** The lock that a make code toggles; zero if none. Ctrl and NumLock together are the pause key. */
  function Lock(code: Byte, modi: bv8): bv8 {
    if code == 58 then CAPS_LOCK
    else if code == 70 then SCROLL_LOCK
    else if code == 69 && !HasBit(modi, CTRL_LEFT) then NUM_LOCK
    else 0
  }

  function LedOf(bit: bv8): bv8 {
    if bit == CAPS_LOCK then LED_CAPS else if bit == NUM_LOCK then LED_NUM else LED_SCROLL
  }

  /** The byte completes a key. */
  predicate Completes(code: Byte, s: State) {
    code < BREAK && Modifier(code, s.prefix) == 0 && Lock(code, s.gather.modi) == 0 && !(91 <= code <= 93)
  }

  function Decoded(t: Tables, s: State, code: Byte): (r: State)
    requires t.Ok() && InTable(code)
  {
    var quiet := s.gather.(scan := 0);
    var m := Modifier(code % BREAK, s.prefix);
    var l := Lock(code, s.gather.modi);
    if IsPrefix(code) then State(code, quiet, s.led)
    else if m != 0 then State(0, quiet.Set(m, code < BREAK), s.led)
    else if l != 0 then
      var on := !quiet.Has(l);
      State(0, quiet.Set(l, on), WithBit(s.led, LedOf(l), on))
    else if Completes(code, s) then
      var (asc, scan) := Looked(t, code, s.prefix, s.gather.modi);
      State(0, Key(asc, scan, s.gather.modi), s.led)
    else State(0, quiet, s.led)
  }

  // ---------- whole histories ----------

  /** Shift, left and right Alt, left and right Ctrl. */
  const MODIFIERS: set<bv8> := {1, 2, 4, 8, 16}
  /** CapsLock, NumLock, ScrollLock. */
  const LOCKS: set<bv8> := {32, 64, 128}

  ghost predicate AllInTable(h: seq<Byte>) {
    forall i :: 0 <= i < |h| ==> InTable(h[i])
  }

  /** The decoder after the bytes h. */
  ghost function Run(t: Tables, h: seq<Byte>): State
    requires t.Ok() && AllInTable(h)
    decreases |h|
  {
    if h == [] then State(0, Key(0, 0, 0), 0) else Decoded(t, Run(t, h[..|h| - 1]), h[|h| - 1])
  }

  /** The prefix that holds for the byte at i: the byte before, if that is one. */
  function PrefixAt(h: seq<Byte>, i: int): Byte
    requires 0 <= i <= |h|
  {
    if i > 0 && h[i - 1] in {0xe0, 0xe1} then h[i - 1] else 0
  }

  predicate AfterE0(h: seq<Byte>, i: int)
    requires 0 <= i <= |h|
  {
    i > 0 && h[i - 1] == 0xe0
  }

  /** The byte at i presses or releases the modifier m: the codes of the keyboard, with the break bit or without. */
  ghost predicate Event(h: seq<Byte>, i: int, m: bv8) {
    0 <= i < |h| &&
    if m == 1 then h[i] in {42, 54, 170, 182}                 // the two Shift keys
    else if m == 2 then h[i] in {56, 184} && !AfterE0(h, i)   // Alt
    else if m == 4 then h[i] in {56, 184} && AfterE0(h, i)    // AltGr
    else if m == 8 then h[i] in {29, 157} && !AfterE0(h, i)   // left Ctrl
    else m == 16 && h[i] in {29, 157} && AfterE0(h, i)        // right Ctrl
  }

  lemma EventIsModifier(h: seq<Byte>, i: int, m: bv8)
    requires 0 <= i < |h| && m in MODIFIERS
    ensures Event(h, i, m) <==> !IsPrefix(h[i]) && Modifier(h[i] % BREAK, PrefixAt(h, i)) == m
  {
  }

  ghost predicate LastPress(h: seq<Byte>, i: int, m: bv8) {
    Event(h, i, m) && h[i] < 128 && forall j :: i < j < |h| ==> !Event(h, j, m)
  }

  /** The last event of the modifier was a press. */
  ghost predicate Held(h: seq<Byte>, m: bv8) {
    exists i :: LastPress(h, i, m)
  }

  /** How often a lock's key was pressed. NumLock counts only while the left Ctrl key is up. */
  ghost function Presses(h: seq<Byte>, lock: bv8): nat
    decreases |h|
  {
    if h == [] then 0
    else
      var front, c := h[..|h| - 1], h[|h| - 1];
      var counts := if lock == 32 then c == 58
                    else if lock == 128 then c == 70
                    else c == 69 && !Held(front, 8);
      Presses(front, lock) + if counts then 1 else 0
  }

  lemma HeldStep(h: seq<Byte>, c: Byte, m: bv8)
    ensures Held(h + [c], m) <==> if Event(h + [c], |h|, m) then c < 128 else Held(h, m)
  {
    var g := h + [c];
    forall i | 0 <= i < |h| ensures Event(g, i, m) == Event(h, i, m) {
      assert AfterE0(g, i) == AfterE0(h, i);
    }
    if Event(g, |h|, m) {
      assert c < 128 ==> LastPress(g, |h|, m);
    } else {
      forall i ensures LastPress(g, i, m) <==> LastPress(h, i, m) { }
    }
  }

  /** The decoder's state says what the history says: the prefix is the previous byte if that was
      one, a modifier is set exactly if its last event, selected by the prefix, was a press, a lock
      is set exactly if its key was pressed an odd number of times, and the LEDs show the locks. */
  ghost predicate Faithful(s: State, h: seq<Byte>) {
    && s.prefix == PrefixAt(h, |h|)
    && (forall m :: m in MODIFIERS ==> s.gather.Has(m) == Held(h, m))
    && (forall l :: l in LOCKS ==> s.gather.Has(l) == (Presses(h, l) % 2 == 1))
    && s.led == LedsOf(s.gather.modi)
  }

  /** The LED byte of the keyboard: bit 0 is ScrollLock, bit 1 NumLock, bit 2 CapsLock. */
  function Lights(scroll: bool, num: bool, caps: bool): bv8 {
    (if scroll then 1 else 0) | (if num then 2 else 0) | (if caps then 4 else 0)
  }

  function LedsOf(modi: bv8): bv8 {
    (if HasBit(modi, 32) then 4 else 0) | (if HasBit(modi, 64) then 2 else 0) | (if HasBit(modi, 128) then 1 else 0)
  }

  lemma FaithfulStep(t: Tables, s: State, h: seq<Byte>, c: Byte)
    requires t.Ok() && InTable(c) && Faithful(s, h)
    ensures Faithful(Decoded(t, s, c), h + [c])
  {
    var g, u := h + [c], Decoded(t, s, c);
    assert g[..|g| - 1] == h && g[|g| - 1] == c && PrefixAt(g, |h|) == PrefixAt(h, |h|);
    forall m | m in MODIFIERS ensures u.gather.Has(m) == Held(g, m) { ModifierFaithful(t, s, h, c, m); }
    forall l | l in LOCKS ensures u.gather.Has(l) == (Presses(g, l) % 2 == 1) { LockFaithful(t, s, h, c, l); }
    LedStep(t, s, c);
  }

  lemma LockFaithful(t: Tables, s: State, h: seq<Byte>, c: Byte, l: bv8)
    requires t.Ok() && InTable(c) && Faithful(s, h) && l in LOCKS
    ensures Decoded(t, s, c).gather.Has(l) == (Presses(h + [c], l) % 2 == 1)
  {
    var g := h + [c];
    assert g[..|g| - 1] == h && g[|g| - 1] == c;
    assert s.gather.Has(8) == Held(h, 8) && s.gather.Has(l) == (Presses(h, l) % 2 == 1);
    LockStep(t, s, c, l);
  }

  lemma ModifierFaithful(t: Tables, s: State, h: seq<Byte>, c: Byte, m: bv8)
    requires t.Ok() && InTable(c) && Faithful(s, h) && m in MODIFIERS
    ensures Decoded(t, s, c).gather.Has(m) == Held(h + [c], m)
  {
    var g := h + [c];
    assert g[|h|] == c && PrefixAt(g, |h|) == PrefixAt(h, |h|);
    HeldStep(h, c, m);
    EventIsModifier(g, |h|, m);
    ModifierStep(t, s, c, m);
  }

  /** The modifier bits after the byte c. */
  function Remodified(s: State, c: Byte): bv8 {
    var modi := s.gather.modi;
    var k, l := Modifier(c % BREAK, s.prefix), Lock(c, modi);
    if IsPrefix(c) then modi
    else if k != 0 then WithBit(modi, k, c < BREAK)
    else if l != 0 then WithBit(modi, l, !HasBit(modi, l))
    else modi
  }

  lemma DecodedModi(t: Tables, s: State, c: Byte)
    requires t.Ok() && InTable(c)
    ensures Decoded(t, s, c).gather.modi == Remodified(s, c)
  {
  }

  lemma ModifierStep(t: Tables, s: State, c: Byte, m: bv8)
    requires t.Ok() && InTable(c) && m in MODIFIERS
    ensures Decoded(t, s, c).gather.Has(m)
         == if !IsPrefix(c) && Modifier(c % BREAK, s.prefix) == m then c < BREAK else s.gather.Has(m)
  {
    DecodedModi(t, s, c);
    var modi := s.gather.modi;
    var k, l := Modifier(c % BREAK, s.prefix), Lock(c, modi);
    if k != 0 { BitsIndependent(modi, k, c < BREAK, m); }
    else if l != 0 { BitsIndependent(modi, l, !HasBit(modi, l), m); }
  }

  lemma LockStep(t: Tables, s: State, c: Byte, l: bv8)
    requires t.Ok() && InTable(c) && l in LOCKS
    ensures Decoded(t, s, c).gather.Has(l)
         == if Lock(c, s.gather.modi) == l then !s.gather.Has(l) else s.gather.Has(l)
  {
    DecodedModi(t, s, c);
    var k, n := Modifier(c % BREAK, s.prefix), Lock(c, s.gather.modi);
    if k != 0 { LockKept(s.gather.modi, k, c < BREAK, l); }
    else if n != 0 { LockToggled(s.gather.modi, n, l); }
  }

  lemma LockKept(modi: bv8, m: bv8, on: bool, l: bv8)
    requires m in MODIFIERS && l in LOCKS
    ensures HasBit(WithBit(modi, m, on), l) == HasBit(modi, l)
  {
    BitsIndependent(modi, m, on, l);
  }

  lemma LockToggled(modi: bv8, n: bv8, l: bv8)
    requires n in LOCKS && l in LOCKS
    ensures HasBit(WithBit(modi, n, !HasBit(modi, n)), l) == if n == l then !HasBit(modi, l) else HasBit(modi, l)
  {
    BitsIndependent(modi, n, !HasBit(modi, n), l);
  }

  lemma LedStep(t: Tables, s: State, c: Byte)
    requires t.Ok() && InTable(c) && s.led == LedsOf(s.gather.modi)
    ensures Decoded(t, s, c).led == LedsOf(Decoded(t, s, c).gather.modi)
  {
    var k, l := Modifier(c % BREAK, s.prefix), Lock(c, s.gather.modi);
    if k != 0 { LedsKept(s.gather.modi, k, c < BREAK); }
    else if l != 0 { LedsFollow(s.gather.modi, l, !s.gather.Has(l)); }
  }

  lemma LedsKept(modi: bv8, m: bv8, on: bool)
    requires m in MODIFIERS
    ensures LedsOf(WithBit(modi, m, on)) == LedsOf(modi)
  {
    BitsIndependent(modi, m, on, CAPS_LOCK);
    BitsIndependent(modi, m, on, NUM_LOCK);
    BitsIndependent(modi, m, on, SCROLL_LOCK);
  }

  lemma LedsFollow(modi: bv8, l: bv8, on: bool)
    requires l in LOCKS
    ensures LedsOf(WithBit(modi, l, on)) == WithBit(LedsOf(modi), LedOf(l), on)
  {
    BitsIndependent(modi, l, on, CAPS_LOCK);
    BitsIndependent(modi, l, on, NUM_LOCK);
    BitsIndependent(modi, l, on, SCROLL_LOCK);
  }

  lemma {:induction false} HistoryFaithful(t: Tables, h: seq<Byte>)
    requires t.Ok() && AllInTable(h)
    ensures Faithful(Run(t, h), h)
    decreases |h|
  {
    if h == [] {
      forall m ensures !Held(h, m) { }
    } else {
      var front := h[..|h| - 1];
      HistoryFaithful(t, front);
      FaithfulStep(t, Run(t, front), front, h[|h| - 1]);
      assert front + [h[|h| - 1]] == h;
    }
  }

  /** The decoder's state is a function of the bytes received: the prefix is the previous byte if that was one; a
      modifier is set exactly if its last event was a press; a lock is set exactly if its key was pressed an odd
      number of times, and the LED byte shows the locks. */
  lemma KeyboardHistory(t: Tables, h: seq<Byte>)
    requires t.Ok() && AllInTable(h)
    ensures var s := Run(t, h);
      && s.prefix == PrefixAt(h, |h|)
      && (forall m: bv8 :: m in {1, 2, 4, 8, 16} ==> (s.gather.modi & m != 0) == Held(h, m))
      && (forall l: bv8 :: l in {32, 64, 128} ==> (s.gather.modi & l != 0) == (Presses(h, l) % 2 == 1))
      && s.led == Lights(Presses(h, 128) % 2 == 1, Presses(h, 64) % 2 == 1, Presses(h, 32) % 2 == 1)
  {
    HistoryFaithful(t, h);
    var s := Run(t, h);
    forall m: bv8 | m in {1, 2, 4, 8, 16} ensures (s.gather.modi & m != 0) == Held(h, m) {
      assert m in MODIFIERS && s.gather.Has(m) == Held(h, m);
    }
    forall l: bv8 | l in {32, 64, 128} ensures (s.gather.modi & l != 0) == (Presses(h, l) % 2 == 1) {
      assert l in LOCKS && s.gather.Has(l) == (Presses(h, l) % 2 == 1);
    }
  }

  /** The byte c after the history h is the press of a key that is reported. */
  ghost predicate Reports(h: seq<Byte>, c: Byte) {
    c < 128 && c !in {42, 54, 56, 29, 58, 70, 91, 92, 93} && (c == 69 ==> Held(h, 8))
  }

  /** NumLock is on and the byte, after no prefix, is from the number pad. */
  ghost predicate OnPad(h: seq<Byte>, c: Byte) {
    71 <= c <= 83 && PrefixAt(h, |h|) == 0 && Presses(h, 64) % 2 == 1
  }

  ghost predicate Capitalised(h: seq<Byte>, c: Byte) {
    Held(h, 1) || (Presses(h, 32) % 2 == 1 && (16 <= c <= 26 || 30 <= c <= 40 || 44 <= c <= 50))
  }

  /** Only such a press yields a key. Which one depends on the history alone: the division
      key of the number pad is told by its prefix; a pad key under NumLock gives its digit whatever else is
      held; all others keep their scan code, with AltGr before Shift, and CapsLock for letters only. */
  lemma KeyReported(t: Tables, h: seq<Byte>, c: Byte)
    requires t.Ok() && AllInTable(h) && InTable(c)
    ensures var before, key := Run(t, h).gather, Decoded(t, Run(t, h), c).gather;
      if !Reports(h, c) then !key.Valid() && key.asc == before.asc
      else if c == 53 && AfterE0(h + [c], |h|) then key.asc == '/' as int && key.scan == 8
      else if OnPad(h, c) then key.asc == t.ascNum[c - 71] && key.scan == t.scanNum[c - 71]
      else key.scan == c
           && key.asc == if Held(h, 4) then t.alt[c] else if Capitalised(h, c) then t.shift[c] else t.normal[c]
  {
    HistoryFaithful(t, h);
    var s := Run(t, h);
    assert s.gather.Has(8) == Held(h, 8) && s.gather.Has(1) == Held(h, 1) && s.gather.Has(4) == Held(h, 4);
    assert s.gather.Has(64) == (Presses(h, 64) % 2 == 1) && s.gather.Has(32) == (Presses(h, 32) % 2 == 1);
    KeyStep(t, s, c);
  }

  lemma KeyStep(t: Tables, s: State, c: Byte)
    requires t.Ok() && InTable(c)
    ensures var key, reported := Decoded(t, s, c).gather, ReportedIn(s, c);
      && (reported ==> (key.asc, key.scan) == Looked(t, c, s.prefix, s.gather.modi))
      && (!reported ==> !key.Valid() && key.asc == s.gather.asc)
  {
  }

  predicate ReportedIn(s: State, c: Byte) {
    c < BREAK && c !in {42, 54, 56, 29, 58, 70, 91, 92, 93} && (c == 69 ==> s.gather.Has(CTRL_LEFT))
  }

  // ---------- the program's own tables, in code page 437 ----------

  const NORMAL: seq<Byte> :=
    [0, 0, 49, 50, 51, 52, 53, 54, 55, 56, 57, 48, 225, 39, 8]
    + [9, 113, 119, 101, 114, 116, 122, 117, 105, 111, 112, 129, 43, 10]
    + [0, 97, 115, 100, 102, 103, 104, 106, 107, 108, 148, 132, 94, 0, 35]
    + [121, 120, 99, 118, 98, 110, 109, 44, 46, 45, 0]
    + [42, 0, 32, 0, 0, 0, 0, 0, 0, 0, 0, 0, 0, 0, 0, 0, 0, 0, 0, 45]
    + [0, 0, 0, 43, 0, 0, 0, 0, 0, 0, 0, 60, 0, 0]

  const SHIFTED: seq<Byte> :=
    [0, 0, 33, 34, 21, 36, 37, 38, 47, 40, 41, 61, 63, 96, 0]
    + [0, 81, 87, 69, 82, 84, 90, 85, 73, 79, 80, 154, 42, 0]
    + [0, 65, 83, 68, 70, 71, 72, 74, 75, 76, 153, 142, 248, 0, 39]
    + [89, 88, 67, 86, 66, 78, 77, 59, 58, 95, 0]
    + [0, 0, 32, 0, 0, 0, 0, 0, 0, 0, 0, 0, 0, 0, 0, 0, 0, 0, 0, 0]
    + [0, 0, 0, 0, 0, 0, 0, 0, 0, 0, 0, 62, 0, 0]

  const ALT: seq<Byte> :=
    [0, 0, 0, 253, 0, 0, 0, 0, 123, 91, 93, 125, 92, 0, 0]
    + [0, 64, 0, 0, 0, 0, 0, 0, 0, 0, 0, 0, 126, 0]
    + [0, 0, 0, 0, 0, 0, 0, 0, 0, 0, 0, 0, 0, 0, 0]
    + [0, 0, 0, 0, 0, 0, 230, 0, 0, 0, 0]
    + [0, 0, 0, 0, 0, 0, 0, 0, 0, 0, 0, 0, 0, 0, 0, 0, 0, 0, 0, 0]
    + [0, 0, 0, 0, 0, 0, 0, 0, 0, 0, 0, 124, 0, 0]

  const ASC_NUM: seq<Byte> :=
    [55, 56, 57, 45, 52, 53, 54, 43, 49, 50, 51, 48, 44]

  const SCAN_NUM: seq<Byte> :=
    [8, 9, 10, 53, 5, 6, 7, 27, 2, 3, 4, 11, 51]

  const GERMAN := Tables(NORMAL, SHIFTED, ALT, ASC_NUM, SCAN_NUM)

  /** The capital of a small letter; the letters beyond ASCII are the umlauts. */
  function Capital(c: Byte): Byte {
    if 'a' as int <= c <= 'z' as int then c - 32
    else if c == 129 then 154 else if c == 132 then 142 else if c == 148 then 153 else c
  }

  lemma PlainEntry(code: Byte)
    requires code < 89 && !Letter(code)
    ensures Capital(NORMAL[code]) == NORMAL[code]
  {
  }

  lemma TopRowEntry(code: Byte)
    requires 16 <= code <= 26
    ensures SHIFTED[code] == Capital(NORMAL[code])
  {
  }

  lemma HomeRowEntry(code: Byte)
    requires 30 <= code <= 40
    ensures SHIFTED[code] == Capital(NORMAL[code])
  {
  }

  lemma BottomRowEntry(code: Byte)
    requires 44 <= code <= 50
    ensures SHIFTED[code] == Capital(NORMAL[code])
  {
  }

  /** CapsLock without Shift turns every key's character into its capital, if it has one, and changes no
      other key. */
  lemma CapsLockIsCapital(code: Byte, prefix: Byte, modi: bv8)
    requires code < 89 && HasBit(modi, CAPS_LOCK) && !HasBit(modi, SHIFT) && !HasBit(modi, ALT_RIGHT)
    requires !(HasBit(modi, NUM_LOCK) && prefix == 0 && 71 <= code <= 83) && !(code == 53 && prefix == PREFIX1)
    ensures Looked(GERMAN, code, prefix, modi) == (Capital(NORMAL[code]), code)
  {
    if !Letter(code) { PlainEntry(code); }
    else if code <= 26 { TopRowEntry(code); }
    else if code <= 40 { HomeRowEntry(code); }
    else { BottomRowEntry(code); }
  }

  lemma PadEntry(i: nat)
    requires i < 13
    ensures SCAN_NUM[i] < 71 && NORMAL[SCAN_NUM[i]] == ASC_NUM[i]
  {
  }

  /** With NumLock on, a key of the number pad, whatever other modifiers are held, gives the character and
      the scan code that the key with the same label in the main block gives alone. */
  lemma KeypadIsMainBlock(code: Byte, modi: bv8)
    requires 71 <= code <= 83 && HasBit(modi, NUM_LOCK)
    ensures var (asc, scan) := Looked(GERMAN, code, 0, modi);
      0 < scan < 71 && Looked(GERMAN, scan, 0, 0) == (asc, scan)
  {
    PadEntry(code - 71);
    assert !HasBit(0, NUM_LOCK) && !HasBit(0, ALT_RIGHT) && !HasBit(0, SHIFT) && !HasBit(0, CAPS_LOCK);
  }
}
