/** What printing puts where: every kind of character, cell by cell, and whole texts. */
module Layout {
  import opened Terminal

  predicate Ordinary(c: char) { c != NUL && c != TAB && c != NEWLINE && c != BACKSPACE }

  /** The screen cell at column x and row y of the window. */
  predicate IsAt(w: Window, k: int, x: int, y: int) {
    k % 80 == w.fromCol + x && k / 80 == w.fromRow + y
  }

  /** The window's rows have moved up by one, and its last row is blank; other cells are the same. */
  ghost predicate MovedUp(w: Window, cells: Cells, cells': Cells, a: Attribute)
    requires w.OnScreen()
  {
    forall k :: 0 <= k < 2000 ==>
      cells'[k] == if !(w.fromCol <= k % 80 <= w.toCol && w.fromRow <= k / 80 <= w.toRow) then cells[k]
                   else if k / 80 == w.toRow then Cell(' ', a) else cells[k + 80]
  }

  /** The cursor of t goes one column on, or to the first column of the next line at the right edge; in the last
      line the window moves up instead. */
  ghost predicate GoesOn(w: Window, t: Term, r: Term, a: Attribute)
    requires w.OnScreen()
  {
    if t.x < w.Width() - 1 then r == Term(t.cells, t.x + 1, t.y) else BreaksLine(w, t, r, a)
  }

  ghost predicate BreaksLine(w: Window, t: Term, r: Term, a: Attribute)
    requires w.OnScreen()
  {
    if t.y < w.Height() - 1 then r == Term(t.cells, 0, t.y + 1)
    else r.x == 0 && r.y == t.y && MovedUp(w, t.cells, r.cells, a)
  }

  /** t with the one cell at x, y of the window replaced. */
  ghost predicate Replaces(w: Window, t: Term, u: Term, x: int, y: int, c: Cell) {
    forall k :: 0 <= k < 2000 ==> u.cells[k] == if IsAt(w, k, x, y) then c else t.cells[k]
  }

  // ---------- one character ----------

  lemma NewLineBreaks(w: Window, t: Term, a: Attribute)
    requires t.In(w)
    ensures BreaksLine(w, t, NewLine(w, t, a), a)
  {
    if t.y == w.Height() - 1 {
      var r := Scrolled(w, t.cells, a);
      forall k | 0 <= k < 2000
        ensures r[k] == if !w.Has(k) then t.cells[k] else if k / 80 == w.toRow then Cell(' ', a) else t.cells[k + 80]
      {
      }
    }
  }

  lemma WriteReplaces(w: Window, t: Term, c: Cell)
    requires t.In(w)
    ensures var u := Written(w, t, c); Replaces(w, t, u, t.x, t.y, c) && u.x == t.x && u.y == t.y
  {
    forall k | 0 <= k < 2000 && IsAt(w, k, t.x, t.y) ensures k == w.At(t.x, t.y) { }
  }

  /** An ordinary character is shown at the cursor in its colours, and the cursor goes on. */
  lemma OrdinaryShown(w: Window, t: Term, c: char, a: Attribute) returns (u: Term)
    requires t.In(w) && Ordinary(c)
    ensures Replaces(w, t, u, t.x, t.y, Cell(c, a)) && u.x == t.x && u.y == t.y
    ensures GoesOn(w, u, Char(w, t, c, a), a)
  {
    u := Written(w, t, Cell(c, a));
    WriteReplaces(w, t, Cell(c, a));
    NewLineBreaks(w, u, a);
  }

  /** A line break shows nothing. */
  lemma NewlineShown(w: Window, t: Term, a: Attribute)
    requires t.In(w)
    ensures BreaksLine(w, t, Char(w, t, '\n', a), a)
  {
    NewLineBreaks(w, t, a);
  }

  /** A backspace goes one column back, but not over the left edge, and blanks the cell there. */
  lemma BackspaceShown(w: Window, t: Term, a: Attribute)
    requires t.In(w)
    ensures var r := Char(w, t, 8 as char, a);
      r.x == (if t.x > 0 then t.x - 1 else 0) && r.y == t.y && Replaces(w, t, r, r.x, t.y, Cell(' ', a))
  {
    WriteReplaces(w, if t.x > 0 then t.(x := t.x - 1) else t, Cell(' ', a));
  }

  lemma NulShown(w: Window, t: Term, a: Attribute)
    requires t.In(w)
    ensures Char(w, t, '\0', a) == t
  {
  }

  function Blanks(n: nat): (s: seq<char>)
    ensures |s| == n && forall i :: 0 <= i < n ==> s[i] == ' '
  {
    seq(n, _ => ' ')
  }

  /** A tab is as many blanks as it has columns, but for the last column, over which the cursor goes without
      writing; so it breaks lines where blanks do, and again in the next line if that is short. */
  lemma TabShown(w: Window, t: Term, a: Attribute)
    requires t.In(w)
    ensures GoesOn(w, Print(w, t, Blanks(3 - t.x % 4), a), Char(w, t, '\t', a), a)
  {
    TabBlanks(w, t, 4 - t.x % 4, a);
  }

  lemma {:induction false} TabBlanks(w: Window, t: Term, n: nat, a: Attribute)
    requires t.In(w) && n > 0
    ensures GoesOn(w, Print(w, t, Blanks(n - 1), a), TabRest(w, t, n, a), a)
    decreases n
  {
    if n == 1 {
      NewLineBreaks(w, t, a);
    } else {
      var s := Blanks(n - 1);
      assert s[0] == ' ' && s[1..] == Blanks(n - 2);
      TabBlanks(w, Put(w, t, ' ', a), n - 1, a);
    }
  }

  // ---------- a whole text ----------

  /** Place of a cell of the window, or of the cursor, counted line by line. */
  function Place(w: Window, x: int, y: int): int { y * w.Width() + x }

  lemma Line(y: int, width: int)
    ensures (y + 1) * width == y * width + width
  {
  }

  lemma LaterRow(y: int, y': int, width: int)
    requires y < y' && width > 0
    ensures y * width + width <= y' * width
  {
    var n := y' - y - 1;
    assert (n + 1 + y) * width == n * width + width + y * width;
    assert n * width >= 0;
  }

  lemma SamePlace(w: Window, x: int, y: int, x': int, y': int)
    requires 0 <= x < w.Width() && 0 <= x' < w.Width()
    ensures Place(w, x, y) == Place(w, x', y') <==> x == x' && y == y'
  {
    if y < y' { LaterRow(y, y', w.Width()); } else if y' < y { LaterRow(y', y, w.Width()); }
  }

  /** The place of screen cell k in the window. */
  function PlaceOf(w: Window, k: int): int { Place(w, k % 80 - w.fromCol, k / 80 - w.fromRow) }

  /** The text s stands in the window from the cursor on, line after line, and nothing else has changed; the cursor
      is behind it. */
  ghost predicate LaidOut(w: Window, t: Term, r: Term, s: seq<char>, a: Attribute) {
    var p := Place(w, t.x, t.y);
    && Place(w, r.x, r.y) == p + |s|
    && forall k :: 0 <= k < 2000 ==>
         r.cells[k] == if w.Has(k) && p <= PlaceOf(w, k) < p + |s| then Cell(s[PlaceOf(w, k) - p], a) else t.cells[k]
  }

  /** With room behind it, the cursor goes to the next place and nothing moves up. */
  lemma NextPlace(w: Window, u: Term, r: Term, a: Attribute)
    requires u.In(w) && GoesOn(w, u, r, a) && Place(w, u.x, u.y) + 1 < Place(w, 0, w.Height())
    ensures Place(w, r.x, r.y) == Place(w, u.x, u.y) + 1 && r.cells == u.cells
  {
    Line(u.y, w.Width());
    Line(w.Height() - 1, w.Width());
  }

  lemma OnePlace(w: Window, t: Term, k: int)
    requires t.In(w) && w.Has(k)
    ensures PlaceOf(w, k) == Place(w, t.x, t.y) <==> IsAt(w, k, t.x, t.y)
  {
    SamePlace(w, k % 80 - w.fromCol, k / 80 - w.fromRow, t.x, t.y);
  }

  lemma OrdinaryPlaced(w: Window, t: Term, c: char, a: Attribute)
    requires t.In(w) && Ordinary(c) && Place(w, t.x, t.y) + 1 < Place(w, 0, w.Height())
    ensures LaidOut(w, t, Char(w, t, c, a), [c], a)
  {
    var u := OrdinaryShown(w, t, c, a);
    var r, p := Char(w, t, c, a), Place(w, t.x, t.y);
    NextPlace(w, u, r, a);
    forall k | 0 <= k < 2000
      ensures r.cells[k] == if w.Has(k) && p <= PlaceOf(w, k) < p + 1 then Cell(c, a) else t.cells[k]
    {
      if w.Has(k) { OnePlace(w, t, k); }
    }
  }

  lemma LaidOutOn(w: Window, t: Term, u: Term, r: Term, s: seq<char>, a: Attribute)
    requires w.OnScreen() && s != [] && LaidOut(w, t, u, [s[0]], a) && LaidOut(w, u, r, s[1..], a)
    ensures LaidOut(w, t, r, s, a)
  {
    var p := Place(w, t.x, t.y);
    forall k | 0 <= k < 2000
      ensures r.cells[k] == if w.Has(k) && p <= PlaceOf(w, k) < p + |s| then Cell(s[PlaceOf(w, k) - p], a)
                            else t.cells[k]
    {
      var q := PlaceOf(w, k);
      if p + 1 <= q < p + |s| { assert s[1..][q - (p + 1)] == s[q - p]; }
    }
  }

  /** A text of ordinary characters that leaves room in the window is shown character by character, from the
      cursor on, wrapped at the right edge. */
  lemma {:induction false} TextLaidOut(w: Window, t: Term, s: seq<char>, a: Attribute)
    requires t.In(w) && (forall i :: 0 <= i < |s| ==> Ordinary(s[i]))
    requires Place(w, t.x, t.y) + |s| < Place(w, 0, w.Height())
    ensures LaidOut(w, t, Print(w, t, s, a), s, a)
    decreases |s|
  {
    if s != [] {
      var u := Char(w, t, s[0], a);
      OrdinaryPlaced(w, t, s[0], a);
      TextLaidOut(w, u, s[1..], a);
      LaidOutOn(w, t, u, Print(w, t, s, a), s, a);
    }
  }
}
