/** Windowed text output on the 80x25 screen: the meaning of a text, character by character. */
module Terminal {
  const COLUMNS := 80
  const ROWS := 25
  const CELLS := 2000
  const INDENT := 4

  const NUL: char := '\0'
  const TAB: char := '\t'
  const NEWLINE: char := '\n'
  const BACKSPACE: char := 8 as char

  datatype Attribute = Attribute(foreground: nat, background: nat, blink: bool)

  datatype Cell = Cell(c: char, a: Attribute)

  /** A window: columns and rows, both ends included. */
  datatype Window = Window(fromCol: int, toCol: int, fromRow: int, toRow: int) {
    predicate OnScreen() {
      0 <= fromCol <= toCol < COLUMNS && 0 <= fromRow <= toRow < ROWS
    }

    function Width(): int { toCol - fromCol + 1 }

    function Height(): int { toRow - fromRow + 1 }

    /** The cell with index k belongs to the window. */
    predicate Has(k: int) {
      0 <= k < CELLS && fromCol <= k % COLUMNS <= toCol && fromRow <= k / COLUMNS <= toRow
    }

    predicate Inside(x: int, y: int) {
      0 <= x < Width() && 0 <= y < Height()
    }

    /** The index of the cell at window coordinates. */
    function At(x: int, y: int): (k: int)
      requires OnScreen() && Inside(x, y)
      ensures Has(k) && k % COLUMNS == fromCol + x && k / COLUMNS == fromRow + y
    {
      fromCol + x + (fromRow + y) * COLUMNS
    }
  }

  type Cells = s: seq<Cell> | |s| == CELLS witness seq(CELLS, _ => Cell(' ', Attribute(7, 0, false)))

  /** Screen contents and a window's cursor. */
  datatype Term = Term(cells: Cells, x: int, y: int) {
    predicate In(w: Window) { w.OnScreen() && w.Inside(x, y) }
  }

  function Blank(a: Attribute): Cell { Cell(' ', a) }

  /** Every row of the window moves up by one and the last one is blank. */
  function Scrolled(w: Window, cells: Cells, a: Attribute): (r: Cells)
    requires w.OnScreen()
    ensures forall k :: 0 <= k < CELLS && !w.Has(k) ==> r[k] == cells[k]
    ensures forall k :: w.Has(k) && k / COLUMNS < w.toRow ==> r[k] == cells[k + COLUMNS]
    ensures forall k :: w.Has(k) && k / COLUMNS == w.toRow ==> r[k] == Blank(a)
  {
    seq(CELLS, k requires 0 <= k < CELLS =>
      if !w.Has(k) then cells[k] else if k / COLUMNS < w.toRow then cells[k + COLUMNS] else Blank(a))
  }

  function Written(w: Window, t: Term, c: Cell): (r: Term)
    requires t.In(w)
    ensures r.In(w)
  {
    t.(cells := t.cells[w.At(t.x, t.y) := c])
  }

  function NewLine(w: Window, t: Term, a: Attribute): (r: Term)
    requires t.In(w)
    ensures r.In(w)
  {
    if t.y == w.Height() - 1 then Term(Scrolled(w, t.cells, a), 0, t.y) else Term(t.cells, 0, t.y + 1)
  }

  /** One column on, or to the next line. */
  function Advance(w: Window, t: Term, a: Attribute): (r: Term)
    requires t.In(w)
    ensures r.In(w)
  {
    if t.x == w.Width() - 1 then NewLine(w, t, a) else t.(x := t.x + 1)
  }

  function Put(w: Window, t: Term, c: char, a: Attribute): (r: Term)
    requires t.In(w)
    ensures r.In(w)
  {
    Advance(w, Written(w, t, Cell(c, a)), a)
  }

  /** The rest of a tab of which n columns are left: all but the last column are blanked. */
  function TabRest(w: Window, t: Term, n: nat, a: Attribute): (r: Term)
    requires t.In(w)
    ensures r.In(w)
    decreases n
  {
    if n <= 1 then Advance(w, t, a) else TabRest(w, Put(w, t, ' ', a), n - 1, a)
  }

  /** The cell before the cursor is blanked and becomes the cursor position. */
  function Erase(w: Window, t: Term, a: Attribute): (r: Term)
    requires t.In(w)
    ensures r.In(w)
  {
    var u := if t.x > 0 then t.(x := t.x - 1) else t;
    Written(w, u, Blank(a))
  }

  function Char(w: Window, t: Term, c: char, a: Attribute): (r: Term)
    requires t.In(w)
    ensures r.In(w)
  {
    if c == NUL then t
    else if c == BACKSPACE then Erase(w, t, a)
    else if c == TAB then TabRest(w, t, INDENT - t.x % INDENT, a)
    else if c == NEWLINE then NewLine(w, t, a)
    else Put(w, t, c, a)
  }

  function Print(w: Window, t: Term, s: seq<char>, a: Attribute): (r: Term)
    requires t.In(w)
    ensures r.In(w)
    decreases |s|
  {
    if s == [] then t else Print(w, Char(w, t, s[0], a), s[1..], a)
  }

  // ---------- chunk independence ----------

  lemma {:induction false} PrintConcat(w: Window, t: Term, s1: seq<char>, s2: seq<char>, a: Attribute)
    requires t.In(w)
    ensures Print(w, t, s1 + s2, a) == Print(w, Print(w, t, s1, a), s2, a)
    decreases |s1|
  {
    if s1 == [] { assert s1 + s2 == s2; }
    else {
      assert (s1 + s2)[0] == s1[0] && (s1 + s2)[1..] == s1[1..] + s2;
      PrintConcat(w, Char(w, t, s1[0], a), s1[1..], s2, a);
    }
  }

  // ---------- confinement ----------

  /** Nothing outside the window differs. */
  ghost predicate SameOutside(w: Window, cells: Cells, cells': Cells) {
    forall k :: 0 <= k < CELLS && !w.Has(k) ==> cells'[k] == cells[k]
  }

  lemma {:induction false} TabConfined(w: Window, t: Term, n: nat, a: Attribute)
    requires t.In(w)
    ensures SameOutside(w, t.cells, TabRest(w, t, n, a).cells)
    decreases n
  {
    if n > 1 { TabConfined(w, Put(w, t, ' ', a), n - 1, a); }
  }

  lemma CharConfined(w: Window, t: Term, c: char, a: Attribute)
    requires t.In(w)
    ensures SameOutside(w, t.cells, Char(w, t, c, a).cells)
  {
    if c == TAB { TabConfined(w, t, INDENT - t.x % INDENT, a); }
  }

  /** Output changes no cell outside its window. */
  lemma {:induction false} PrintConfined(w: Window, t: Term, s: seq<char>, a: Attribute)
    requires t.In(w)
    ensures SameOutside(w, t.cells, Print(w, t, s, a).cells)
    decreases |s|
  {
    if s != [] {
      CharConfined(w, t, s[0], a);
      PrintConfined(w, Char(w, t, s[0], a), s[1..], a);
    }
  }

  // ---------- what a window shows depends on that window alone ----------

  ghost predicate SameInside(w: Window, t: Term, u: Term) {
    t.x == u.x && t.y == u.y && forall k :: w.Has(k) ==> t.cells[k] == u.cells[k]
  }

  lemma AdvanceLocal(w: Window, t: Term, u: Term, a: Attribute)
    requires t.In(w) && u.In(w) && SameInside(w, t, u)
    ensures SameInside(w, Advance(w, t, a), Advance(w, u, a)) && SameInside(w, NewLine(w, t, a), NewLine(w, u, a))
  {
    if t.y == w.Height() - 1 {
      forall k | w.Has(k) ensures Scrolled(w, t.cells, a)[k] == Scrolled(w, u.cells, a)[k] {
        if k / COLUMNS < w.toRow { NextRow(w, k); }
      }
    }
  }

  lemma NextRow(w: Window, k: int)
    requires w.OnScreen() && w.Has(k) && k / COLUMNS < w.toRow
    ensures w.Has(k + COLUMNS)
  {
  }

  lemma PutLocal(w: Window, t: Term, u: Term, c: char, a: Attribute)
    requires t.In(w) && u.In(w) && SameInside(w, t, u)
    ensures SameInside(w, Put(w, t, c, a), Put(w, u, c, a))
  {
    AdvanceLocal(w, Written(w, t, Cell(c, a)), Written(w, u, Cell(c, a)), a);
  }

  lemma {:induction false} TabLocal(w: Window, t: Term, u: Term, n: nat, a: Attribute)
    requires t.In(w) && u.In(w) && SameInside(w, t, u)
    ensures SameInside(w, TabRest(w, t, n, a), TabRest(w, u, n, a))
    decreases n
  {
    if n <= 1 { AdvanceLocal(w, t, u, a); }
    else {
      PutLocal(w, t, u, ' ', a);
      TabLocal(w, Put(w, t, ' ', a), Put(w, u, ' ', a), n - 1, a);
    }
  }

  lemma CharLocal(w: Window, t: Term, u: Term, c: char, a: Attribute)
    requires t.In(w) && u.In(w) && SameInside(w, t, u)
    ensures SameInside(w, Char(w, t, c, a), Char(w, u, c, a))
  {
    if c == TAB { TabLocal(w, t, u, INDENT - t.x % INDENT, a); }
    else if c == NEWLINE { AdvanceLocal(w, t, u, a); }
    else if c != NUL && c != BACKSPACE { PutLocal(w, t, u, c, a); }
  }

  lemma {:induction false} PrintLocal(w: Window, t: Term, u: Term, s: seq<char>, a: Attribute)
    requires t.In(w) && u.In(w) && SameInside(w, t, u)
    ensures SameInside(w, Print(w, t, s, a), Print(w, u, s, a))
    decreases |s|
  {
    if s != [] {
      CharLocal(w, t, u, s[0], a);
      PrintLocal(w, Char(w, t, s[0], a), Char(w, u, s[0], a), s[1..], a);
    }
  }

  predicate Disjoint(v: Window, w: Window) {
    v.toCol < w.fromCol || w.toCol < v.fromCol || v.toRow < w.fromRow || w.toRow < v.fromRow
  }

  /** Output to two disjoint windows, with a cursor each, can be swapped. */
  lemma WindowsCommute(v: Window, w: Window, cells: Cells, xv: int, yv: int, xw: int, yw: int,
                       s1: seq<char>, s2: seq<char>, a: Attribute, b: Attribute)
    requires v.OnScreen() && w.OnScreen() && Disjoint(v, w) && v.Inside(xv, yv) && w.Inside(xw, yw)
    ensures var v1, w1 := Print(v, Term(cells, xv, yv), s1, a), Print(w, Term(cells, xw, yw), s2, b);
      var vw := Print(w, Term(v1.cells, xw, yw), s2, b);
      var wv := Print(v, Term(w1.cells, xv, yv), s1, a);
      vw.cells == wv.cells && (vw.x, vw.y) == (w1.x, w1.y) && (wv.x, wv.y) == (v1.x, v1.y)
  {
    var tv, tw := Term(cells, xv, yv), Term(cells, xw, yw);
    var v1, w1 := Print(v, tv, s1, a), Print(w, tw, s2, b);
    var vw := Print(w, Term(v1.cells, xw, yw), s2, b);
    var wv := Print(v, Term(w1.cells, xv, yv), s1, a);
    PrintConfined(v, tv, s1, a);
    PrintConfined(w, tw, s2, b);
    PrintConfined(w, Term(v1.cells, xw, yw), s2, b);
    PrintConfined(v, Term(w1.cells, xv, yv), s1, a);
    assert forall k :: !(v.Has(k) && w.Has(k));
    PrintLocal(w, tw, Term(v1.cells, xw, yw), s2, b);
    PrintLocal(v, tv, Term(w1.cells, xv, yv), s1, a);
    forall k | 0 <= k < CELLS ensures vw.cells[k] == wv.cells[k] {
      if v.Has(k) { } else if w.Has(k) { } else { }
    }
  }

  // ---------- the windows of the system ----------

  const KOUT := Window(0, 79, 0, 16)
  const DOUT0 := Window(0, 38, 17, 20)
  const DOUT1 := Window(39, 79, 17, 20)
  const DOUT2 := Window(0, 38, 21, 24)
  const DOUT3 := Window(39, 79, 21, 24)
  const WINDOWS := {KOUT, DOUT0, DOUT1, DOUT2, DOUT3}

  /** The five windows tile the screen: every cell belongs to exactly one of them. */
  lemma WindowsTile(k: int)
    requires 0 <= k < CELLS
    ensures forall v, w :: v in WINDOWS && w in WINDOWS && v != w ==> Disjoint(v, w) && !(v.Has(k) && w.Has(k))
    ensures exists w :: w in WINDOWS && w.OnScreen() && w.Has(k)
  {
    var w := if k / COLUMNS <= 16 then KOUT
             else if k / COLUMNS <= 20 then (if k % COLUMNS <= 38 then DOUT0 else DOUT1)
             else (if k % COLUMNS <= 38 then DOUT2 else DOUT3);
    assert w.Has(k) && w.OnScreen();
  }

  // ---------- what a tab does ----------

  /** Within a line, a tab moves to the next multiple of four and blanks all cells it passes but
      the last one, which keeps its content. */
  lemma TabStop(w: Window, t: Term, a: Attribute)
    requires t.In(w) && t.x - t.x % INDENT + INDENT < w.Width()
    ensures var r := Char(w, t, TAB, a);
      && r.y == t.y && r.x == t.x - t.x % INDENT + INDENT
      && (forall x :: t.x <= x < r.x - 1 ==> r.cells[w.At(x, t.y)] == Blank(a))
      && (forall k :: 0 <= k < CELLS
            && !(k / COLUMNS == w.fromRow + t.y && w.fromCol + t.x <= k % COLUMNS < w.fromCol + r.x - 1)
            ==> r.cells[k] == t.cells[k])
  {
    TabRun(w, t, INDENT - t.x % INDENT, a);
  }

  lemma {:induction false} TabRun(w: Window, t: Term, n: nat, a: Attribute)
    requires t.In(w) && n > 0 && t.x + n < w.Width()
    ensures var r := TabRest(w, t, n, a);
      && r.y == t.y && r.x == t.x + n
      && (forall x :: t.x <= x < t.x + n - 1 ==> r.cells[w.At(x, t.y)] == Blank(a))
      && (forall k :: 0 <= k < CELLS
            && !(k / COLUMNS == w.fromRow + t.y && w.fromCol + t.x <= k % COLUMNS < w.fromCol + t.x + n - 1)
            ==> r.cells[k] == t.cells[k])
    decreases n
  {
    if n > 1 {
      var u := Put(w, t, ' ', a);
      assert u == Term(t.cells[w.At(t.x, t.y) := Blank(a)], t.x + 1, t.y);
      TabRun(w, u, n - 1, a);
    }
  }
}
