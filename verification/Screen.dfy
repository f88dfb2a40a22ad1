/** The text screen as the program drives it: memory cells, a hardware cursor behind two byte
    registers, and windows that print into their part of the cells. */
module Screen {
  import opened Arithmetic
  import opened Terminal

  const CURSOR_HIGH: Byte := 0x0e
  const CURSOR_LOW: Byte := 0x0f

  /** The two cursor registers behind an index port and a data port. */
  class Crtc {
    var index: Byte
    var high: Byte
    var low: Byte

    constructor () {
      index, high, low := 0, 0, 0;
    }

    function Word(): (d: int)
      reads this
      ensures 0 <= d < 0x1_0000
    {
      high * 256 + low
    }

    method Select(i: Byte)
      modifies this`index
      ensures index == i
    {
      index := i;
    }

    method Write(b: Byte)
      modifies this`high, this`low
      ensures high == if index == CURSOR_HIGH then b else old(high)
      ensures low == if index == CURSOR_LOW then b else old(low)
    {
      if index == CURSOR_HIGH { high := b; } else if index == CURSOR_LOW { low := b; }
    }

    method Read() returns (b: Byte)
      ensures index == CURSOR_HIGH ==> b == high
      ensures index == CURSOR_LOW ==> b == low
    {
      b := if index == CURSOR_HIGH then high else if index == CURSOR_LOW then low else 0;
    }
  }

  /** The window coordinates that a hardware cursor word stands for. */
  function Located(w: Window, word: int): (p: (int, int)) {
    (word % COLUMNS - w.fromCol, word / COLUMNS - w.fromRow)
  }

  /** Reading the cursor inverts writing it, through the split into two bytes. */
  lemma CursorRoundTrip(w: Window, x: int, y: int)
    requires w.OnScreen() && w.Inside(x, y)
    ensures var word := w.At(x, y) % 0x1_0000;
      Located(w, (word / 256) * 256 + word % 256) == (x, y)
  {
    var at := w.At(x, y);
    assert at % 0x1_0000 == at;
    assert (at / 256) * 256 + at % 256 == at;
  }

  /** The cells after one character was shown at absolute coordinates. Negative coordinates count
      from the far edge; anything else off the screen is ignored. */
  ghost function Shown(cells: Cells, x: int, y: int, c: Cell): Cells {
    if -COLUMNS <= x < COLUMNS && -ROWS <= y < ROWS then
      var col, row := x % COLUMNS, y % ROWS;
      cells[col + row * COLUMNS := c]
    else cells
  }

  /** The first k cells of the window's rows have been moved up, row by row. */
  ghost predicate Moved(w: Window, was: Cells, now: Cells, x: int, y: int)
    requires w.OnScreen()
  {
    forall k :: 0 <= k < CELLS ==> now[k] == CellMoved(w, was, k, x, y)
  }

  ghost function CellMoved(w: Window, was: Cells, k: int, x: int, y: int): Cell
    requires w.OnScreen() && 0 <= k < CELLS
  {
    if w.Has(k) && k / COLUMNS < w.toRow && (k / COLUMNS < y || (k / COLUMNS == y && k % COLUMNS < x))
    then was[k + COLUMNS] else was[k]
  }

  /** What printing the text from a character on comes to when n columns of a tab are pending. */
  ghost function Rest(w: Window, t: Term, pending: nat, s: seq<char>, a: Attribute): (r: Term)
    requires t.In(w)
  {
    if pending > 0 && s != [] then Print(w, TabRest(w, t, pending, a), s[1..], a) else Print(w, t, s, a)
  }

  /** The effect of one turn of the printing loop: the state, the columns left of a tab, and
      whether the character is dealt with. */
  ghost function Turned(w: Window, t: Term, pending: nat, c: char, a: Attribute): (r: (Term, nat, bool))
    requires t.In(w)
    ensures r.0.In(w)
  {
    var n := if pending > 0 then pending else INDENT - t.x % INDENT;
    if c != TAB then (Char(w, t, c, a), pending, true)
    else if n > 1 then (Put(w, t, ' ', a), n - 1, false)
    else (Advance(w, t, a), 0, true)
  }

  /** A turn leaves what the printing of the rest comes to unchanged. */
  lemma TurnedRest(w: Window, t: Term, pending: nat, s: seq<char>, a: Attribute)
    requires t.In(w) && s != [] && (pending > 0 ==> s[0] == TAB)
    ensures var (u, n, done) := Turned(w, t, pending, s[0], a);
      Rest(w, u, n, if done then s[1..] else s, a) == Rest(w, t, pending, s, a)
  {
    var n := if pending > 0 then pending else INDENT - t.x % INDENT;
    assert s[0] == TAB ==> Rest(w, t, pending, s, a) == Print(w, TabRest(w, t, n, a), s[1..], a);
  }

  class CgaScreen {
    const w: Window
    const useCursor: bool
    const cells: array<Cell>
    const crtc: Crtc
    var relX: int
    var relY: int

    constructor (w: Window, useCursor: bool, cells: array<Cell>, crtc: Crtc)
      requires w.OnScreen() && cells.Length == CELLS
      ensures this.w == w && this.useCursor == useCursor && this.cells == cells && this.crtc == crtc
      ensures Valid()
    {
      this.w, this.useCursor, this.cells, this.crtc := w, useCursor, cells, crtc;
    }

    ghost predicate Valid() {
      w.OnScreen() && cells.Length == CELLS
    }

    /** The cursor: the hardware registers or the two fields. */
    ghost function Cursor(): (int, int)
      reads this, crtc
    {
      if useCursor then Located(w, crtc.Word()) else (relX, relY)
    }

    ghost function State(): Term
      reads this, crtc, cells
      requires Valid()
    {
      Term(cells[..], Cursor().0, Cursor().1)
    }

    /** The cursor is inside the window, as it is from the first reset on. */
    ghost predicate Ready()
      reads this, crtc, cells
    {
      Valid() && State().In(w)
    }

    method SetPos(x: int, y: int)
      requires Valid()
      modifies this, crtc
      ensures Cursor() == if w.Inside(x, y) then (x, y) else old(Cursor())
      ensures !useCursor ==> crtc.Word() == old(crtc.Word())
      ensures useCursor && w.Inside(x, y) ==>
                var at := w.fromCol + x + (w.fromRow + y) * 80; crtc.high == at / 256 && crtc.low == at % 256
    {
      if x < 0 || x >= w.Width() || y < 0 || y >= w.Height() {
        return;
      }
      var totalX := w.fromCol + x;
      var totalY := w.fromRow + y;
      if useCursor {
        var data := (totalX + totalY * COLUMNS) % 0x1_0000;
        assert data == w.At(x, y) < CELLS;
        crtc.Select(CURSOR_HIGH);
        crtc.Write(data / 256);
        crtc.Select(CURSOR_LOW);
        crtc.Write(data % 256);
        CursorRoundTrip(w, x, y);
      } else {
        relX := x;
        relY := y;
      }
    }

    method GetPos() returns (x: int, y: int)
      requires Valid()
      modifies crtc`index
      ensures (x, y) == old(Cursor()) == Cursor()
    {
      if useCursor {
        crtc.Select(CURSOR_HIGH);
        var upper := crtc.Read();
        crtc.Select(CURSOR_LOW);
        var lower := crtc.Read();
        var data := (upper as int) * 256 + lower as int;
        var totalY := data / COLUMNS;
        var totalX := data - totalY * COLUMNS;
        y := totalY - w.fromRow;
        x := totalX - w.fromCol;
      } else {
        x, y := relX, relY;
      }
    }

    method Show(x: int, y: int, c: char, a: Attribute)
      requires Valid()
      modifies cells
      ensures cells[..] == Shown(old(cells[..]), x, y, Cell(c, a))
      ensures 0 <= x < COLUMNS && 0 <= y < ROWS ==> cells[..] == old(cells[..])[x + y * COLUMNS := Cell(c, a)]
    {
      var col := if x < 0 then COLUMNS + x else x;
      var row := if y < 0 then ROWS + y else y;
      if col < 0 || col > 79 || row < 0 || row > 24 {
        return;
      }
      cells[col + row * COLUMNS] := Cell(c, a);
    }

    /** Show at window coordinates. */
    method ShowAt(x: int, y: int, c: char, a: Attribute)
      requires Valid() && w.Inside(x, y)
      modifies cells
      ensures cells[..] == old(cells[..])[w.At(x, y) := Cell(c, a)]
    {
      Show(w.fromCol + x, w.fromRow + y, c, a);
    }

    /** The last line is full: the window moves up one line. */
    method ScrollUp(y: int, a: Attribute)
      requires Valid() && y == w.Height() - 1
      modifies cells
      ensures cells[..] == Scrolled(w, old(cells[..]), a)
    {
      ghost var was := cells[..];
      var row := w.fromRow;
      while row < w.toRow
        invariant w.fromRow <= row <= w.toRow
        invariant Moved(w, was, cells[..], 0, row)
      {
        var col := w.fromCol;
        while col <= w.toCol
          invariant w.fromCol <= col <= w.toCol + 1
          invariant Moved(w, was, cells[..], col, row)
        {
          CopiedOne(w, was, cells[..], col, row);
          cells[col + row * COLUMNS] := cells[col + (row + 1) * COLUMNS];
          col := col + 1;
        }
        RowMoved(w, was, cells[..], row);
        row := row + 1;
      }
      ghost var moved := cells[..];
      var c := 0;
      while c < w.Width()
        invariant 0 <= c <= w.Width()
        invariant Cleared(w, moved, cells[..], c, a)
      {
        ShowAt(c, y, ' ', a);
        c := c + 1;
      }
      ScrollDone(w, was, moved, cells[..], a);
    }

    /** After each character: scroll, go to the next line or just one column on. */
    method MoveOn(x0: int, y0: int, newLine: bool, lastLine: bool, a: Attribute) returns (x: int, y: int)
      requires Valid() && (lastLine ==> y0 == w.Height() - 1)
      modifies cells
      ensures cells[..] == if lastLine then Scrolled(w, old(cells[..]), a) else old(cells[..])
      ensures (x, y) == if lastLine then (0, y0) else if newLine then (0, y0 + 1) else (x0 + 1, y0)
    {
      x, y := x0, y0;
      if lastLine {
        ScrollUp(y, a);
        x := 0;
      } else if newLine {
        y := y + 1;
        x := 0;
      } else {
        x := x + 1;
      }
    }

    /** One turn of the printing loop: a character, or one column of a tab of which remain columns
        are left; done says whether the character is dealt with. */
    method Turn(c: char, x0: int, y0: int, remain0: nat, a: Attribute)
      returns (x: int, y: int, remain: nat, done: bool)
      requires Valid() && Term(cells[..], x0, y0).In(w) && (remain0 > 0 ==> c == TAB)
      modifies cells
      ensures (Term(cells[..], x, y), remain, done) == Turned(w, Term(old(cells[..]), x0, y0), remain0, c, a)
    {
      x, y, remain, done := x0, y0, remain0, true;
      if c == NUL {
        return;
      }
      var newLine := false;
      var lastLine := false;
      var backspace := false;
      if c == BACKSPACE {
        backspace := true;
        if x > 0 {
          x := x - 1;
        }
      } else if x == w.Width() - 1 || c == NEWLINE {
        newLine := true;
        if y == w.Height() - 1 {
          lastLine := true;
        }
      }
      if c == TAB {
        if remain == 0 {
          remain := INDENT - x % INDENT;
        }
        if remain > 1 {
          remain := remain - 1;
          ShowAt(x, y, ' ', a);
          done := false;
        } else {
          remain := 0;
        }
      } else if backspace {
        ShowAt(x, y, ' ', a);
        x := x - 1;
      } else if c != NEWLINE {
        ShowAt(x, y, c, a);
      }
      x, y := MoveOn(x, y, newLine, lastLine, a);
    }

    /** Printing from the cursor on, whatever the text. */
    method Print(text: array<char>, length: int, a: Attribute)
      requires Ready() && length <= text.Length
      modifies this, crtc, cells
      ensures Ready()
      ensures State() == Terminal.Print(w, old(State()), if length > 0 then text[..length] else [], a)
      ensures !useCursor ==> crtc.Word() == old(crtc.Word())
    {
      ghost var s := if length > 0 then text[..length] else [];
      ghost var goal := Terminal.Print(w, State(), s, a);
      var i := 0;
      var remain: nat := 0;
      var x, y := GetPos();
      while i < length
        invariant 0 <= i <= |s| && s == if length > 0 then text[..length] else []
        invariant remain <= INDENT && (remain > 0 ==> i < |s| && s[i] == TAB)
        invariant Term(cells[..], x, y).In(w)
        invariant Rest(w, Term(cells[..], x, y), remain, s[i..], a) == goal
        invariant crtc.Word() == old(crtc.Word())
        decreases length - i, if remain == 0 then INDENT + 1 else remain
      {
        TurnedRest(w, Term(cells[..], x, y), remain, s[i..], a);
        var done;
        x, y, remain, done := Turn(text[i], x, y, remain, a);
        if done {
          assert s[i..][1..] == s[i + 1..];
          i := i + 1;
        }
      }
      SetPos(x, y);
    }

    method Reset(c: char, a: Attribute)
      requires Valid()
      modifies this, crtc, cells
      ensures Ready() && Cursor() == (0, 0)
      ensures !useCursor ==> crtc.Word() == old(crtc.Word())
      ensures forall k :: 0 <= k < CELLS ==> cells[k] == if w.Has(k) then Cell(c, a) else old(cells[k])
    {
      ghost var was := cells[..];
      var x := w.fromCol;
      while x <= w.toCol
        invariant w.fromCol <= x <= w.toCol + 1
        invariant Filled(w, was, cells[..], x, w.fromRow, Cell(c, a))
        invariant crtc.Word() == old(crtc.Word())
      {
        var y := w.fromRow;
        while y <= w.toRow
          invariant w.fromRow <= y <= w.toRow + 1
          invariant Filled(w, was, cells[..], x, y, Cell(c, a))
          invariant crtc.Word() == old(crtc.Word())
        {
          FilledOne(w, was, cells[..], x, y, Cell(c, a));
          Show(x, y, c, a);
          y := y + 1;
        }
        ColumnFilled(w, was, cells[..], x, Cell(c, a));
        x := x + 1;
      }
      SetPos(0, 0);
      relX := 0;
      relY := 0;
    }
  }

  /** The window's columns before x, and of column x the rows before y, hold the cell c. */
  ghost predicate Filled(w: Window, was: Cells, now: Cells, x: int, y: int, c: Cell) {
    forall k :: 0 <= k < CELLS ==> now[k] == CellFilled(w, was, k, x, y, c)
  }

  ghost function CellFilled(w: Window, was: Cells, k: int, x: int, y: int, c: Cell): Cell
    requires 0 <= k < CELLS
  {
    if w.Has(k) && (k % COLUMNS < x || (k % COLUMNS == x && k / COLUMNS < y)) then c else was[k]
  }

  lemma FilledOne(w: Window, was: Cells, now: Cells, x: int, y: int, c: Cell)
    requires w.OnScreen() && w.fromCol <= x <= w.toCol && w.fromRow <= y <= w.toRow && Filled(w, was, now, x, y, c)
    ensures Filled(w, was, now[x + y * COLUMNS := c], x, y + 1, c)
  {
    var succ := now[x + y * COLUMNS := c];
    forall k | 0 <= k < CELLS ensures succ[k] == CellFilled(w, was, k, x, y + 1, c) {
      assert now[k] == CellFilled(w, was, k, x, y, c);
      assert k == k / COLUMNS * COLUMNS + k % COLUMNS;
    }
  }

  lemma ColumnFilled(w: Window, was: Cells, now: Cells, x: int, c: Cell)
    requires w.OnScreen() && w.fromCol <= x <= w.toCol && Filled(w, was, now, x, w.toRow + 1, c)
    ensures Filled(w, was, now, x + 1, w.fromRow, c)
  {
    forall k | 0 <= k < CELLS ensures now[k] == CellFilled(w, was, k, x + 1, w.fromRow, c) {
      assert now[k] == CellFilled(w, was, k, x, w.toRow + 1, c);
    }
  }

  lemma CopiedOne(w: Window, was: Cells, now: Cells, x: int, y: int)
    requires w.OnScreen() && w.fromCol <= x <= w.toCol && w.fromRow <= y < w.toRow && Moved(w, was, now, x, y)
    ensures Moved(w, was, now[x + y * COLUMNS := now[x + (y + 1) * COLUMNS]], x + 1, y)
  {
    var at := x + y * COLUMNS;
    assert at / COLUMNS == y && at % COLUMNS == x && w.Has(at);
    assert now[at + COLUMNS] == CellMoved(w, was, at + COLUMNS, x, y);
    var succ := now[at := now[at + COLUMNS]];
    forall k | 0 <= k < CELLS ensures succ[k] == CellMoved(w, was, k, x + 1, y) {
      assert now[k] == CellMoved(w, was, k, x, y);
      assert k == k / COLUMNS * COLUMNS + k % COLUMNS;
    }
  }

  lemma RowMoved(w: Window, was: Cells, now: Cells, y: int)
    requires w.OnScreen() && w.fromRow <= y < w.toRow && Moved(w, was, now, w.toCol + 1, y)
    ensures Moved(w, was, now, 0, y + 1)
  {
    forall k | 0 <= k < CELLS ensures now[k] == CellMoved(w, was, k, 0, y + 1) {
      assert now[k] == CellMoved(w, was, k, w.toCol + 1, y);
    }
  }

  /** The first n cells of the window's last row are blank. */
  ghost predicate Cleared(w: Window, was: Cells, now: Cells, n: int, a: Attribute) {
    forall k :: 0 <= k < CELLS ==> now[k] == CellCleared(w, was, k, n, a)
  }

  ghost function CellCleared(w: Window, was: Cells, k: int, n: int, a: Attribute): Cell
    requires 0 <= k < CELLS
  {
    if k / COLUMNS == w.toRow && w.fromCol <= k % COLUMNS < w.fromCol + n then Blank(a) else was[k]
  }

  lemma ScrollDone(w: Window, was: Cells, moved: Cells, now: Cells, a: Attribute)
    requires w.OnScreen() && Moved(w, was, moved, 0, w.toRow) && Cleared(w, moved, now, w.Width(), a)
    ensures now == Scrolled(w, was, a)
  {
    forall k | 0 <= k < CELLS ensures now[k] == Scrolled(w, was, a)[k] {
      assert now[k] == CellCleared(w, moved, k, w.Width(), a);
      assert moved[k] == CellMoved(w, was, k, 0, w.toRow);
    }
  }
}
