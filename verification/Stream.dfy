/** Buffered output: what a stream's buffer and flushes do, as values. */
module Output {
  import opened Terminal

  const BUFFER := 80

  /** The state of a window and the characters still in the stream's buffer. */
  datatype Output = Output(term: Term, pending: seq<char>) {
    predicate Ok(w: Window) {
      term.In(w) && |pending| < BUFFER
    }

    /** What the window will look like once the buffer is flushed. */
    function Visible(w: Window, a: Attribute): (t: Term)
      requires term.In(w)
      ensures t.In(w)
    {
      Print(w, term, pending, a)
    }
  }

  function Flushed(w: Window, o: Output, a: Attribute): (r: Output)
    requires o.term.In(w)
    ensures r.Ok(w) && r.pending == []
  {
    Output(o.Visible(w, a), [])
  }

  function PutChar(w: Window, o: Output, c: char, a: Attribute): (r: Output)
    requires o.Ok(w)
    ensures r.Ok(w)
  {
    var full := Output(o.term, o.pending + [c]);
    if |full.pending| == BUFFER then Flushed(w, full, a) else full
  }

  function PutText(w: Window, o: Output, s: seq<char>, a: Attribute): (r: Output)
    requires o.Ok(w)
    ensures r.Ok(w)
    decreases |s|
  {
    if s == [] then o else PutText(w, PutChar(w, o, s[0], a), s[1..], a)
  }

  lemma {:induction false} PutTextConcat(w: Window, o: Output, s1: seq<char>, s2: seq<char>, a: Attribute)
    requires o.Ok(w)
    ensures PutText(w, o, s1 + s2, a) == PutText(w, PutText(w, o, s1, a), s2, a)
    decreases |s1|
  {
    if s1 == [] { assert s1 + s2 == s2; }
    else {
      assert (s1 + s2)[0] == s1[0] && (s1 + s2)[1..] == s1[1..] + s2;
      PutTextConcat(w, PutChar(w, o, s1[0], a), s1[1..], s2, a);
    }
  }

  // ---------- flush points are invisible ----------

  datatype Action = Insert(text: seq<char>) | Flush

  function Do(w: Window, o: Output, act: Action, a: Attribute): (r: Output)
    requires o.Ok(w)
    ensures r.Ok(w)
  {
    match act
    case Insert(text) => PutText(w, o, text, a)
    case Flush => Flushed(w, o, a)
  }

  function DoAll(w: Window, o: Output, acts: seq<Action>, a: Attribute): (r: Output)
    requires o.Ok(w)
    ensures r.Ok(w)
    decreases |acts|
  {
    if acts == [] then o else DoAll(w, Do(w, o, acts[0], a), acts[1..], a)
  }

  /** All the characters put by the actions. */
  function Inserted(acts: seq<Action>): seq<char> {
    if acts == [] then [] else (if acts[0].Insert? then acts[0].text else []) + Inserted(acts[1..])
  }

  /** o' comes from o by printing a first part of o's pending characters followed by s, and keeping
      the other part. */
  ghost predicate Emits(w: Window, o: Output, o': Output, s: seq<char>, a: Attribute)
    requires o.Ok(w)
  {
    exists emitted: seq<char> ::
      emitted + o'.pending == o.pending + s && o'.term == Print(w, o.term, emitted, a)
  }

  lemma EmitsSteps(w: Window, o: Output, p: Output, q: Output, s1: seq<char>, s2: seq<char>, a: Attribute)
    requires o.Ok(w) && p.Ok(w) && Emits(w, o, p, s1, a) && Emits(w, p, q, s2, a)
    ensures Emits(w, o, q, s1 + s2, a)
  {
    var e1: seq<char> :| e1 + p.pending == o.pending + s1 && p.term == Print(w, o.term, e1, a);
    var e2: seq<char> :| e2 + q.pending == p.pending + s2 && q.term == Print(w, p.term, e2, a);
    PrintConcat(w, o.term, e1, e2, a);
    calc {
      (e1 + e2) + q.pending;
      e1 + (e2 + q.pending);
      (e1 + p.pending) + s2;
      o.pending + (s1 + s2);
    }
  }

  lemma {:induction false} TextEmits(w: Window, o: Output, s: seq<char>, a: Attribute)
    requires o.Ok(w)
    ensures Emits(w, o, PutText(w, o, s, a), s, a)
    decreases |s|
  {
    if s == [] {
      assert [] + o.pending == o.pending + s;
    } else {
      var p := PutChar(w, o, s[0], a);
      if |o.pending| + 1 == BUFFER {
        assert (o.pending + [s[0]]) + p.pending == o.pending + [s[0]];
      } else {
        assert [] + p.pending == o.pending + [s[0]];
      }
      TextEmits(w, p, s[1..], a);
      EmitsSteps(w, o, p, PutText(w, o, s, a), [s[0]], s[1..], a);
      assert [s[0]] + s[1..] == s;
    }
  }

  /** After any run of inserts and flushes, the characters printed so far followed by those in the
      buffer are all the characters put. */
  lemma {:induction false} NothingLost(w: Window, o: Output, acts: seq<Action>, a: Attribute)
    requires o.Ok(w)
    ensures Emits(w, o, DoAll(w, o, acts, a), Inserted(acts), a)
    decreases |acts|
  {
    if acts == [] {
      assert [] + o.pending == o.pending + Inserted(acts);
    } else {
      var p := Do(w, o, acts[0], a);
      var s := if acts[0].Insert? then acts[0].text else [];
      if acts[0].Insert? { TextEmits(w, o, s, a); }
      else { assert o.pending + p.pending == o.pending + s; }
      NothingLost(w, p, acts[1..], a);
      EmitsSteps(w, o, p, DoAll(w, o, acts, a), s, Inserted(acts[1..]), a);
    }
  }

  lemma EmitsVisible(w: Window, o: Output, o': Output, s: seq<char>, a: Attribute)
    requires o.Ok(w) && o'.Ok(w) && Emits(w, o, o', s, a)
    ensures o'.Visible(w, a) == Print(w, o.term, o.pending + s, a)
  {
    var e: seq<char> :| e + o'.pending == o.pending + s && o'.term == Print(w, o.term, e, a);
    PrintConcat(w, o.term, e, o'.pending, a);
  }

  /** After a final flush the window shows what printing the whole text at once would show, however
      the text was cut into inserts and wherever the stream was flushed. */
  lemma FlushTransparent(w: Window, o: Output, acts: seq<Action>, a: Attribute)
    requires o.Ok(w)
    ensures Flushed(w, DoAll(w, o, acts, a), a).term == Print(w, o.term, o.pending + Inserted(acts), a)
  {
    NothingLost(w, o, acts, a);
    EmitsVisible(w, o, DoAll(w, o, acts, a), Inserted(acts), a);
  }

  /** Two runs that put the same characters are indistinguishable once flushed. */
  lemma FlushPointsInvisible(w: Window, o: Output, acts1: seq<Action>, acts2: seq<Action>, a: Attribute)
    requires o.Ok(w) && Inserted(acts1) == Inserted(acts2)
    ensures Flushed(w, DoAll(w, o, acts1, a), a) == Flushed(w, DoAll(w, o, acts2, a), a)
  {
    FlushTransparent(w, o, acts1, a);
    FlushTransparent(w, o, acts2, a);
  }

  // ---------- the colours are those at the flush ----------

  /** The same cursor, and some cell of the window has the one colour here and the other there. */
  ghost predicate Recoloured(w: Window, t: Term, u: Term, a: Attribute, b: Attribute) {
    t.x == u.x && t.y == u.y && exists k :: w.Has(k) && t.cells[k].a == a && u.cells[k].a == b
  }

  predicate SameCursor(t: Term, u: Term) { t.x == u.x && t.y == u.y }

  lemma WritingRecolours(w: Window, t: Term, u: Term, c: char, a: Attribute, b: Attribute)
    requires t.In(w) && u.In(w) && SameCursor(t, u)
    ensures Recoloured(w, Written(w, t, Cell(c, a)), Written(w, u, Cell(c, b)), a, b)
  {
    var k := w.At(t.x, t.y);
    assert Written(w, t, Cell(c, a)).cells[k].a == a && Written(w, u, Cell(c, b)).cells[k].a == b;
  }

  lemma ScrollingRecolours(w: Window, t: Term, u: Term, a: Attribute, b: Attribute)
    requires t.In(w) && u.In(w) && SameCursor(t, u) && t.y == w.Height() - 1
    ensures Recoloured(w, NewLine(w, t, a), NewLine(w, u, b), a, b)
  {
    var k := w.At(0, t.y);
    assert Scrolled(w, t.cells, a)[k] == Blank(a) && Scrolled(w, u.cells, b)[k] == Blank(b);
  }

  lemma LineRecoloured(w: Window, t: Term, u: Term, a: Attribute, b: Attribute)
    requires t.In(w) && u.In(w) && Recoloured(w, t, u, a, b)
    ensures Recoloured(w, NewLine(w, t, a), NewLine(w, u, b), a, b)
    ensures Recoloured(w, Advance(w, t, a), Advance(w, u, b), a, b)
  {
    if t.y == w.Height() - 1 { ScrollingRecolours(w, t, u, a, b); }
  }

  lemma PutRecolours(w: Window, t: Term, u: Term, c: char, a: Attribute, b: Attribute)
    requires t.In(w) && u.In(w) && SameCursor(t, u)
    ensures Recoloured(w, Put(w, t, c, a), Put(w, u, c, b), a, b)
  {
    WritingRecolours(w, t, u, c, a, b);
    LineRecoloured(w, Written(w, t, Cell(c, a)), Written(w, u, Cell(c, b)), a, b);
  }

  lemma {:induction false} TabRecoloured(w: Window, t: Term, u: Term, n: nat, a: Attribute, b: Attribute)
    requires t.In(w) && u.In(w) && (Recoloured(w, t, u, a, b) || (SameCursor(t, u) && n > 1))
    ensures Recoloured(w, TabRest(w, t, n, a), TabRest(w, u, n, b), a, b)
    decreases n
  {
    if n <= 1 { LineRecoloured(w, t, u, a, b); }
    else {
      PutRecolours(w, t, u, ' ', a, b);
      TabRecoloured(w, Put(w, t, ' ', a), Put(w, u, ' ', b), n - 1, a, b);
    }
  }

  /** Characters that write a cell wherever the cursor is. */
  predicate Shows(c: char) { c != NUL && c != TAB && c != NEWLINE }

  lemma ShownRecolours(w: Window, t: Term, u: Term, c: char, a: Attribute, b: Attribute)
    requires t.In(w) && u.In(w) && SameCursor(t, u) && Shows(c)
    ensures Recoloured(w, Char(w, t, c, a), Char(w, u, c, b), a, b)
  {
    if c == BACKSPACE {
      var x := if t.x > 0 then t.x - 1 else t.x;
      WritingRecolours(w, t.(x := x), u.(x := x), ' ', a, b);
    } else { PutRecolours(w, t, u, c, a, b); }
  }

  lemma CharRecoloured(w: Window, t: Term, u: Term, c: char, a: Attribute, b: Attribute)
    requires t.In(w) && u.In(w) && Recoloured(w, t, u, a, b)
    ensures Recoloured(w, Char(w, t, c, a), Char(w, u, c, b), a, b)
  {
    if c == TAB {
      var n := INDENT - t.x % INDENT;
      TabRecoloured(w, t, u, n, a, b);
      assert Char(w, t, c, a) == TabRest(w, t, n, a) && Char(w, u, c, b) == TabRest(w, u, n, b);
    } else if c == NEWLINE { LineRecoloured(w, t, u, a, b); }
    else if Shows(c) { ShownRecolours(w, t, u, c, a, b); }
  }

  lemma {:induction false} PrintRecoloured(w: Window, t: Term, u: Term, s: seq<char>, a: Attribute, b: Attribute)
    requires t.In(w) && u.In(w) && Recoloured(w, t, u, a, b)
    ensures Recoloured(w, Print(w, t, s, a), Print(w, u, s, b), a, b)
    decreases |s|
  {
    if s != [] {
      CharRecoloured(w, t, u, s[0], a, b);
      PrintRecoloured(w, Char(w, t, s[0], a), Char(w, u, s[0], b), s[1..], a, b);
    }
  }

  lemma {:induction false} NulsPrintNothing(w: Window, t: Term, s: seq<char>, a: Attribute)
    requires t.In(w) && forall i :: 0 <= i < |s| ==> s[i] == NUL
    ensures Print(w, t, s, a) == t
  {
    if s != [] { NulsPrintNothing(w, t, s[1..], a); }
  }

  lemma {:induction false} CursorKept(w: Window, t: Term, u: Term, s: seq<char>, a: Attribute, b: Attribute)
    requires t.In(w) && u.In(w) && SameCursor(t, u)
    ensures SameCursor(Print(w, t, s, a), Print(w, u, s, b))
    decreases |s|
  {
    if s != [] {
      CharCursor(w, t, u, s[0], a, b);
      CursorKept(w, Char(w, t, s[0], a), Char(w, u, s[0], b), s[1..], a, b);
    }
  }

  lemma CharCursor(w: Window, t: Term, u: Term, c: char, a: Attribute, b: Attribute)
    requires t.In(w) && u.In(w) && SameCursor(t, u)
    ensures SameCursor(Char(w, t, c, a), Char(w, u, c, b))
  {
    if c == TAB { TabCursor(w, t, u, INDENT - t.x % INDENT, a, b); }
  }

  lemma {:induction false} TabCursor(w: Window, t: Term, u: Term, n: nat, a: Attribute, b: Attribute)
    requires t.In(w) && u.In(w) && SameCursor(t, u)
    ensures SameCursor(TabRest(w, t, n, a), TabRest(w, u, n, b))
    decreases n
  {
    if n > 1 { TabCursor(w, Put(w, t, ' ', a), Put(w, u, ' ', b), n - 1, a, b); }
  }

  /** A change of colours reaches back into the buffer: wherever the cursor is, one visible character or
      backspace among the pending ones, at any place, makes the two flushes differ. */
  lemma PendingRecoloured(w: Window, o: Output, a: Attribute, b: Attribute, i: nat)
    requires o.Ok(w) && a != b && i < |o.pending| && Shows(o.pending[i])
    ensures Flushed(w, o, a) != Flushed(w, o, b)
  {
    var t, s := o.term, o.pending;
    var ta, tb := Print(w, t, s[..i], a), Print(w, t, s[..i], b);
    CursorKept(w, t, t, s[..i], a, b);
    ShownRecolours(w, ta, tb, s[i], a, b);
    PrintRecoloured(w, Char(w, ta, s[i], a), Char(w, tb, s[i], b), s[i + 1..], a, b);
    assert s == s[..i] + s[i..] && s[i..][0] == s[i] && s[i..][1..] == s[i + 1..];
    PrintConcat(w, t, s[..i], s[i..], a);
    PrintConcat(w, t, s[..i], s[i..], b);
  }

  /** From the last line's first column on, every character but NUL takes on the colour. */
  lemma {:induction false} CornerRecolours(w: Window, t: Term, s: seq<char>, a: Attribute, b: Attribute)
    requires t.In(w) && t.x == 0 && t.y == w.Height() - 1 && exists i :: 0 <= i < |s| && s[i] != NUL
    ensures Recoloured(w, Print(w, t, s, a), Print(w, t, s, b), a, b)
  {
    var c := s[0];
    if c == NUL {
      var i :| 0 <= i < |s| && s[i] != NUL;
      assert s[1..][i - 1] != NUL;
      CornerRecolours(w, t, s[1..], a, b);
    } else {
      if c == TAB { TabRecoloured(w, t, t, INDENT, a, b); }
      else if c == NEWLINE { ScrollingRecolours(w, t, t, a, b); }
      else { ShownRecolours(w, t, t, c, a, b); }
      PrintRecoloured(w, Char(w, t, c, a), Char(w, t, c, b), s[1..], a, b);
    }
  }

  /** Changing the colours with these characters pending changes nothing, whatever the window holds and
      wherever its cursor is, if and only if all of them are NUL; so it is safe with an empty buffer. */
  lemma ChangeIsInvisible(w: Window, pending: seq<char>, a: Attribute, b: Attribute)
    requires w.OnScreen() && a != b && |pending| < BUFFER
    ensures (forall o: Output :: o.Ok(w) && o.pending == pending ==> Flushed(w, o, a) == Flushed(w, o, b))
            <==> (forall i :: 0 <= i < |pending| ==> pending[i] == NUL)
  {
    if forall i :: 0 <= i < |pending| ==> pending[i] == NUL {
      forall o: Output | o.Ok(w) && o.pending == pending ensures Flushed(w, o, a) == Flushed(w, o, b) {
        NulsPrintNothing(w, o.term, pending, a);
        NulsPrintNothing(w, o.term, pending, b);
      }
    } else {
      var o := Output(Term(seq(CELLS, _ => Blank(a)), 0, w.Height() - 1), pending);
      CornerRecolours(w, o.term, pending, a, b);
      assert o.Ok(w) && Flushed(w, o, a) != Flushed(w, o, b);
    }
  }
}

/** The stream operators over a window. */
module Stream {
  import opened Terminal
  import opened Screen
  import opened Output
  import opened Arithmetic
  import NumberText

  /** The characters of a zero-terminated string. */
  function Content(s: seq<char>): (r: seq<char>)
    requires NUL in s
    ensures |r| < |s| && r == s[..|r|] && s[|r|] == NUL && NUL !in r
  {
    if s[0] == NUL then [] else [s[0]] + Content(s[1..])
  }

  lemma {:induction false} ContentUpTo(s: seq<char>, n: nat)
    requires n < |s| && s[n] == NUL && NUL !in s[..n]
    ensures NUL in s && Content(s) == s[..n]
    decreases n
  {
    assert s[n] in s;
    if n > 0 {
      assert s[0] == s[..n][0] && s[1..][..n - 1] == s[..n][1..];
      ContentUpTo(s[1..], n - 1);
    }
  }

  lemma ContentOf(s: seq<char>)
    requires NUL !in s
    ensures NUL in s + [NUL] && Content(s + [NUL]) == s
  {
    assert (s + [NUL])[..|s|] == s;
    ContentUpTo(s + [NUL], |s|);
  }

  method LastDigit(ival: nat, base: int, ghost k: nat) returns (quotient: nat, c: char)
    requires 2 <= base <= 36 && 0 < ival < Pow2(k)
    ensures NumberText.Digits(ival, base) == NumberText.Digits(quotient, base) + [c]
    ensures c != NUL && quotient < ival && k > 0 && quotient < Pow2(k - 1)
  {
    NumberText.QuotientFits(ival, base, k);
    var rest := ival % base;
    quotient := ival / base;
    c := NumberText.DigitChar(rest);
  }

  /** Behind position i the buffer holds the digits of number that are not digits of ival. */
  ghost predicate Holds(s: seq<char>, i: int, number: nat, ival: nat, base: int)
    requires 2 <= base <= 36
  {
    && |s| == 33 && -1 <= i <= 31 && ival < Pow2(i + 1) && s[32] == NUL && (forall k :: i < k < 32 ==> s[k] != NUL)
    && NumberText.Digits(number, base) == NumberText.Digits(ival, base) + s[i + 1..32]
  }

  lemma HoldsOneMore(s: seq<char>, i: int, number: nat, ival: nat, quotient: nat, c: char, base: int)
    requires 2 <= base <= 36 && Holds(s, i, number, ival, base) && i >= 0 && c != NUL
    requires NumberText.Digits(ival, base) == NumberText.Digits(quotient, base) + [c] && quotient < Pow2(i)
    ensures Holds(s[i := c], i - 1, number, quotient, base)
  {
    var front, s' := NumberText.Digits(quotient, base), s[i := c];
    assert s'[i..32] == [c] + s[i + 1..32];
    assert (front + [c]) + s[i + 1..32] == front + ([c] + s[i + 1..32]);
  }

  lemma HoldsNone(s: seq<char>, number: nat, base: int)
    requires 2 <= base <= 36 && |s| == 33 && s[32] == NUL && number < WRAP
    ensures Holds(s, 31, number, number, base)
  {
    WordPowers();
    assert s[32..32] == [];
  }

  lemma HoldsAll(s: seq<char>, i: int, number: nat, base: int)
    requires 2 <= base <= 36 && Holds(s, i, number, 0, base)
    ensures NUL in s[i + 1..] && Content(s[i + 1..]) == NumberText.Digits(number, base)
  {
    ContentFrom(s[i + 1..], s[i + 1..32]);
  }

  /** The digits of a number, written from the last one backwards into a buffer of 33 characters. */
  method Convert(number: int, base: int) returns (buff: array<char>, first: nat)
    requires 2 <= base <= 36 && 0 < number < WRAP
    ensures fresh(buff) && buff.Length == 33 && first <= 32 && NUL in buff[first..]
    ensures Content(buff[first..]) == NumberText.Digits(number, base)
  {
    buff := new char[33](_ => NUL);
    var i := 31;
    var ival: nat := number;
    HoldsNone(buff[..], number, base);
    while ival != 0
      invariant buff.Length == 33 && Holds(buff[..], i, number, ival, base)
      decreases ival
    {
      ghost var s, all := buff[..], ival;
      var c;
      ival, c := LastDigit(ival, base, i + 1);
      HoldsOneMore(s, i, number, all, ival, c, base);
      buff[i] := c;
      assert buff[..] == s[i := c];
      i := i - 1;
    }
    first := i + 1;
    HoldsAll(buff[..], i, number, base);
    assert buff[..][first..] == buff[first..];
  }

  lemma ContentFrom(s: seq<char>, t: seq<char>)
    requires s == t + [NUL] && forall k :: 0 <= k < |t| ==> t[k] != NUL
    ensures NUL in s && Content(s) == t
  {
    ContentOf(t);
  }

  class OutStream {
    const screen: CgaScreen
    const buffer: array<char>
    var pos: int
    var base: int
    var attr: Attribute

    /** The buffer may be full, as it is right before a flush. */
    ghost predicate Open()
      reads this, screen, screen.crtc, screen.cells, buffer
    {
      screen.Ready() && buffer.Length == BUFFER && 0 <= pos <= BUFFER && base in {2, 8, 10, 16}
    }

    /** Between calls the buffer always has room. */
    ghost predicate Valid()
      reads this, screen, screen.crtc, screen.cells, buffer
    {
      Open() && pos < BUFFER
    }

    ghost function Out(): Output
      reads this, screen, screen.crtc, screen.cells, buffer
      requires Open()
    {
      Output(screen.State(), buffer[..pos])
    }

    /** A stream starts by clearing its window in its own colours. */
    constructor (w: Window, useCursor: bool, cells: array<Cell>, crtc: Crtc, a: Attribute)
      requires w.OnScreen() && cells.Length == CELLS
      modifies cells, crtc
      ensures Valid() && fresh(screen) && fresh(buffer) && screen.w == w && screen.cells == cells && screen.crtc == crtc
      ensures pos == 0 && base == 10 && attr == a && screen.Cursor() == (0, 0)
      ensures forall k :: 0 <= k < CELLS ==> cells[k] == if w.Has(k) then Cell(' ', a) else old(cells[k])
    {
      screen := new CgaScreen(w, useCursor, cells, crtc);
      buffer := new char[BUFFER];
      pos, base, attr := 0, 10, a;
      new;
      screen.Reset(' ', attr);
    }

    method Flush()
      requires Open()
      modifies `pos, screen, screen.crtc, screen.cells
      ensures Valid() && Out() == Flushed(screen.w, old(Out()), attr)
    {
      screen.Print(buffer, pos, attr);
      pos := 0;
    }

    method SetAttribute(a: Attribute)
      requires Valid()
      modifies `attr
      ensures Valid() && attr == a && Out() == old(Out())
    {
      attr := a;
    }

    method Put(c: char)
      requires Valid()
      modifies `pos, buffer, screen, screen.crtc, screen.cells
      ensures Valid() && Out() == PutChar(screen.w, old(Out()), c, attr)
      ensures old(pos) < 79 ==> Out() == Output(old(screen.State()), old(buffer[..pos]) + [c])
      ensures old(pos) == 79 ==> pos == 0
    {
      buffer[pos] := c;
      pos := pos + 1;
      assert buffer[..pos] == old(buffer[..pos]) + [c];
      if pos == BUFFER {
        Flush();
      }
    }

    method Text(text: seq<char>)
      requires Valid() && NUL in text
      modifies `pos, buffer, screen, screen.crtc, screen.cells
      ensures Valid() && Out() == PutText(screen.w, old(Out()), Content(text), attr)
    {
      var c := 0;
      while text[c] != NUL
        invariant 0 <= c < |text| && NUL in text[c..] && Valid()
        invariant PutText(screen.w, Out(), Content(text[c..]), attr)
               == PutText(screen.w, old(Out()), Content(text), attr)
        decreases |text| - c
      {
        assert text[c..][0] == text[c] && text[c..][1..] == text[c + 1..];
        Put(text[c]);
        c := c + 1;
      }
    }

    method Bool(b: bool)
      requires Valid()
      modifies `pos, buffer, screen, screen.crtc, screen.cells
      ensures Valid() && Out() == PutText(screen.w, old(Out()), if b then "true" else "false", attr)
    {
      if b {
        ContentOf("true");
        Text("true" + [NUL]);
      } else {
        ContentOf("false");
        Text("false" + [NUL]);
      }
    }

    method Dec()
      requires Valid()
      modifies `base
      ensures Valid() && base == 10 && Out() == old(Out())
    {
      base := 10;
    }

    method Hex()
      requires Valid()
      modifies `pos, `base, buffer, screen, screen.crtc, screen.cells
      ensures Valid() && base == 16 && Out() == PutText(screen.w, old(Out()), "0x", attr)
    {
      ContentOf("0x");
      Text("0x" + [NUL]);
      base := 16;
    }

    method Bin()
      requires Valid()
      modifies `pos, `base, buffer, screen, screen.crtc, screen.cells
      ensures Valid() && base == 2 && Out() == PutText(screen.w, old(Out()), "0b", attr)
    {
      ContentOf("0b");
      Text("0b" + [NUL]);
      base := 2;
    }

    method Oct()
      requires Valid()
      modifies `pos, `base, buffer, screen, screen.crtc, screen.cells
      ensures Valid() && base == 8 && Out() == PutChar(screen.w, old(Out()), '0', attr)
    {
      Put('0');
      base := 8;
    }

    /** A line break, and everything put so far is on the screen. */
    method Endl()
      requires Valid()
      modifies `pos, buffer, screen, screen.crtc, screen.cells
      ensures Valid() && Out() == Flushed(screen.w, PutChar(screen.w, old(Out()), NEWLINE, attr), attr)
    {
      Put(NEWLINE);
      Flush();
    }

    /** An unsigned number in the current base. The base is ten afterwards, except that writing zero
        leaves it as it was. */
    method Unsigned(number: int)
      requires Valid() && 0 <= number < WRAP
      modifies `pos, `base, buffer, screen, screen.crtc, screen.cells
      ensures Valid() && Out() == PutText(screen.w, old(Out()), NumberText.Unsigned(number, old(base)), attr)
      ensures base == if number == 0 then old(base) else 10
    {
      if number == 0 {
        Put('0');
        return;
      }
      var buff, first := Convert(number, base);
      Text(buff[first..]);
      Dec();
    }

    /** A signed number in the current base, which is ten afterwards. */
    method Signed(number: int)
      requires Valid() && -NumberText.SIGN <= number < NumberText.SIGN
      modifies `pos, `base, buffer, screen, screen.crtc, screen.cells
      ensures Valid() && Out() == PutText(screen.w, old(Out()), NumberText.Signed(number, old(base)), attr)
      ensures base == 10
    {
      if base == 10 && number < 0 {
        Put('-');
        PutTextConcat(screen.w, old(Out()), "-", NumberText.Unsigned(-number % WRAP, base), attr);
        Unsigned(-number % WRAP);
        Dec();
      } else {
        Unsigned(number % WRAP);
        Dec();
      }
    }

    /** A pointer: hexadecimal with its prefix, and back to base ten even for the null pointer. */
    method Pointer(address: int)
      requires Valid() && 0 <= address < WRAP
      modifies `pos, `base, buffer, screen, screen.crtc, screen.cells
      ensures Valid() && Out() == PutText(screen.w, old(Out()), "0x" + NumberText.Unsigned(address, 16), attr)
      ensures base == 10
    {
      PutTextConcat(screen.w, Out(), "0x", NumberText.Unsigned(address, 16), attr);
      Hex();
      Unsigned(address);
      Dec();
    }
  }
}
