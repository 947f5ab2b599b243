/** A guess is what a terminal that echoes the key shows: it is as right as the echo is what was expected. */
module Echo {
  import opened Bytes
  import opened Predict
  import opened Trust
  import T = Terminal

  // ---- a terminal that shows what is guessed -------------------------------------------------------------------------------

  function CellOf(t: T.Term, at: Spot): T.Cell
    requires T.Good(t) && at.0 < t.rows && at.1 < t.cols
  {
    RowGood(t, at.0);
    t.grid.lines[|t.grid.lines| - t.rows + at.0].cells[at.1]
  }

  lemma RowGood(t: T.Term, row: nat)
    requires T.Good(t) && row < t.rows
    ensures |t.grid.lines| >= t.rows && T.GoodRow(t.grid.lines[|t.grid.lines| - t.rows + row], t.cols)
    ensures |t.grid.lines[|t.grid.lines| - t.rows + row].cells| == t.cols
  {
  }

  function TextOf(cell: T.Cell): string {
    if cell.glyph.Some? then cell.glyph.value.text else ""
  }

  /** The cell shows what is guessed, blanks compared as blanks. */
  predicate Like(cell: T.Cell, guess: Cell) {
    && (cell.covered <==> guess.half == Covered) && (T.Wide(cell) <==> guess.half == Wide) && cell.attributes == guess.attributes
    && (TextOf(cell) == guess.text || (Blank(TextOf(cell)) && Blank(guess.text)))
  }

  predicate LikeAt(t: T.Term, e: Engine, screen: Screen, at: Spot)
    requires T.Good(t) && at.0 < t.rows && at.1 < t.cols
  {
    GuessAt(e, screen, at).Some? ==> Like(CellOf(t, at), GuessAt(e, screen, at).value)
  }

  /** No region, and the cursor moved and wrapped as at first. */
  predicate Plainly(t: T.Term, screen: Screen) {
    && T.Good(t) && t.rows == screen.rows && t.cols == screen.cols && t.top == 0 && t.bottom == t.rows - 1
    && !t.modes.origin && t.modes.autowrap
  }

  /** The terminal shows the screen with the guesses on it. */
  ghost predicate ShowsCells(t: T.Term, e: Engine, screen: Screen) {
    Plainly(t, screen) && forall at: Spot :: at.0 < t.rows && at.1 < t.cols ==> LikeAt(t, e, screen, at)
  }

  /** And the cursor where it is guessed to be. */
  ghost predicate Shows(t: T.Term, e: Engine, screen: Screen) {
    ShowsCells(t, e, screen) && CursorAt(e, screen) == (t.grid.row, t.grid.col) && !t.grid.pending
  }

  /** Where what is printed next goes. */
  function NextAt(t: T.Term): Spot
    requires T.Good(t)
  {
    var placed := T.Placed(t, T.SPACE);
    (placed.grid.row, placed.grid.col)
  }

  // ---- the echo of a key ---------------------------------------------------------------------------------------------------

  /** Where the glyph left of the cursor begins. */
  function LeftOf(t: T.Term): (left: nat)
    requires T.Good(t) && t.grid.col > 0
    ensures left < t.grid.col
  {
    if t.grid.col > 1 && CellOf(t, (t.grid.row, t.grid.col - 1)).covered then t.grid.col - 2 else t.grid.col - 1
  }

  /** Whether `c` joins the glyph left of the cursor. */
  predicate Joins(text: Text, t: T.Term, c: char)
    requires T.Good(t)
  {
    t.grid.col > 0
    && var left := CellOf(t, (t.grid.row, LeftOf(t))); TextOf(left) != "" && text.continues(TextOf(left), c)
  }

  /** The style the program prints in: that of what is on the cursor's left. */
  function StyleLeft(t: T.Term): nat
    requires T.Good(t)
  {
    if t.grid.col == 0 then T.PLAIN
    else
      var left := CellOf(t, (t.grid.row, t.grid.col - 1));
      if TextOf(left) != "" || left.covered then left.attributes else T.PLAIN
  }

  /** A key echoed: the glyph printed at the cursor, or joined to the one on its left; the glyph on its left blanked as the
      cursor's cell is; the cursor a column over, or at the start of the next row. */
  function EchoOf(text: Text, t: T.Term, press: Press): seq<T.Op>
    requires T.Good(t)
  {
    var row, col := t.grid.row, t.grid.col;
    var back := if col > 0 then col - 1 else 0;
    var erased := [T.Cup(row, back), T.Op.Pen(CellOf(t, (row, col)).attributes), T.Print(T.SPACE), T.Cup(row, back)];
    match press.key
    case Char(c) =>
      if press.ctrl then if Lower(c) == 'h' then erased else [T.CrLf]
      else if Joins(text, t, c) then
        var left := CellOf(t, (row, LeftOf(t)));
        [T.Cup(row, LeftOf(t)), T.Op.Pen(left.attributes), T.Print(T.Glyph(TextOf(left) + [c], T.Wide(left), true)), T.Cup(row, col)]
      else [T.Op.Pen(StyleLeft(t)), T.Print(T.Glyph([c], text.width([c]) == 2, true))]
    case Backspace => erased
    case Arrow(right) => [T.Cup(row, if right then col + 1 else back)]
    case Enter => [T.CrLf]
    case OtherKey => []
  }

  /** What is on the cursor's left is as guessed to the letter, blanks too. */
  predicate LeftExact(t: T.Term, e: Engine, screen: Screen)
    requires T.Good(t)
  {
    forall col: nat :: col < t.grid.col ==> ExactAt(t, e, screen, (t.grid.row, col))
  }

  predicate ExactAt(t: T.Term, e: Engine, screen: Screen, at: Spot)
    requires T.Good(t) && at.0 < t.rows && at.1 < t.cols
  {
    GuessAt(e, screen, at).Some? && TextOf(CellOf(t, at)) == GuessAt(e, screen, at).value.text
  }

  // ---- a glyph put -----------------------------------------------------------------------------------------------------------

  predicate Alone(cell: T.Cell) {
    !cell.covered && !T.Wide(cell)
  }

  /** A glyph put on cells of its own. */
  lemma PutIs(row: T.Row, cols: nat, i: nat, glyph: T.Glyph, attributes: nat)
    requires T.GoodRow(row, cols) && i < cols && (glyph.wide ==> i + 1 < cols)
    requires if glyph.wide then T.Wide(row.cells[i]) || (Alone(row.cells[i]) && Alone(row.cells[i + 1])) else Alone(row.cells[i])
    ensures var one := row.cells[i := T.Cell(Some(glyph), attributes, false)];
            T.Put(row.cells, i, glyph, attributes) == if glyph.wide then one[i + 1 := T.Cell(None, attributes, true)] else one
  {
    var cells := row.cells;
    var on := T.Cell(Some(glyph), attributes, false);
    assert T.GoodAt(cells, i);
    var here := T.Freed(cells, i);
    if glyph.wide {
      assert T.GoodAt(cells, i + 1);
      if T.Wide(cells[i]) {
        assert here == cells[i := T.Emptied(cells[i])][i + 1 := T.Emptied(cells[i + 1])];
      } else {
        assert here == cells[i := T.Emptied(cells[i])];
      }
      assert T.Freed(here, i + 1) == here[i + 1 := T.Emptied(here[i + 1])];
      assert T.Put(cells, i, glyph, attributes) == cells[i := on][i + 1 := T.Cell(None, attributes, true)];
    } else {
      assert here == cells[i := T.Emptied(cells[i])];
      assert T.Put(cells, i, glyph, attributes) == cells[i := on];
    }
  }

  function Width(glyph: T.Glyph): nat {
    if glyph.wide then 2 else 1
  }

  /** The cells of the cursor's row with a glyph put at the cursor. */
  function Putting(t: T.Term, glyph: T.Glyph): seq<T.Cell>
    requires T.Good(t) && t.grid.col + Width(glyph) <= t.cols
  {
    RowGood(t, t.grid.row);
    T.Put(t.grid.lines[T.LineOf(t)].cells, t.grid.col, glyph, t.pen)
  }

  lemma PrintedIs(t: T.Term, glyph: T.Glyph)
    requires T.Good(t) && !t.grid.pending && t.modes.autowrap && t.grid.col + Width(glyph) <= t.cols
    ensures var r := T.Printed(t, glyph);
            var next := t.grid.col + Width(glyph);
            && r == t.(grid := t.grid.(lines := t.grid.lines[T.LineOf(t) := t.grid.lines[T.LineOf(t)].(cells := Putting(t, glyph))],
                                       col := if next < t.cols then next else t.cols - 1, pending := next >= t.cols))
  {
    hide T.Put, T.GoodRow;
    assert T.Placed(t, glyph) == t;
  }

  lemma CellAfter(t: T.Term, r: T.Term, cells: seq<T.Cell>, at: Spot)
    requires T.Good(t) && T.Good(r) && r.rows == t.rows && r.cols == t.cols && at.0 < t.rows && at.1 < t.cols
    requires r.grid.lines == t.grid.lines[T.LineOf(t) := t.grid.lines[T.LineOf(t)].(cells := cells)]
    ensures |cells| == t.cols && CellOf(r, at) == if at.0 == t.grid.row then cells[at.1] else CellOf(t, at)
  {
    RowGood(t, at.0);
    RowGood(r, at.0);
    RowGood(r, t.grid.row);
  }

  /** A glyph put at `at` takes over nothing but whole glyphs. */
  predicate Room(t: T.Term, at: Spot, wide: bool)
    requires T.Good(t) && at.0 < t.rows && at.1 + (if wide then 2 else 1) <= t.cols
  {
    if wide then T.Wide(CellOf(t, at)) || (Alone(CellOf(t, at)) && Alone(CellOf(t, (at.0, at.1 + 1)))) else Alone(CellOf(t, at))
  }

  predicate SameShape(t: T.Term, r: T.Term) {
    r == t.(grid := r.grid, pen := r.pen)
  }

  /** `r` shows what `t` does but for the glyph put at `at`. */
  ghost predicate PutAt(t: T.Term, r: T.Term, at: Spot, glyph: T.Glyph, pen: nat)
    requires T.Good(t) && T.Good(r) && SameShape(t, r)
  {
    forall p: Spot :: p.0 < t.rows && p.1 < t.cols ==>
      CellOf(r, p) == if p == at then T.Cell(Some(glyph), pen, false)
                      else if glyph.wide && p == (at.0, at.1 + 1) then T.Cell(None, pen, true)
                      else CellOf(t, p)
  }

  /** A glyph printed short of the row's end, or up to it. */
  lemma PrintPuts(t: T.Term, glyph: T.Glyph)
    requires T.Good(t) && !t.grid.pending && t.modes.autowrap && t.grid.col + Width(glyph) <= t.cols
    requires Room(t, (t.grid.row, t.grid.col), glyph.wide)
    ensures var r := T.Do(t, T.Print(glyph));
            && T.Good(r) && SameShape(t, r) && PutAt(t, r, (t.grid.row, t.grid.col), glyph, t.pen) && r.grid.row == t.grid.row
            && (if t.grid.col + Width(glyph) < t.cols then r.grid.col == t.grid.col + Width(glyph) && !r.grid.pending
                else r.grid.col == t.cols - 1 && r.grid.pending)
  {
    hide T.Put, T.GoodRow, T.Printed, T.GoodRows;
    T.PrintedGood(t, glyph);
    PrintedIs(t, glyph);
    RowGood(t, t.grid.row);
    var line := t.grid.lines[T.LineOf(t)];
    PutIs(line, t.cols, t.grid.col, glyph, t.pen);
    var r := T.Printed(t, glyph);
    forall at: Spot | at.0 < t.rows && at.1 < t.cols
      ensures CellOf(r, at) ==
              if at == (t.grid.row, t.grid.col) then T.Cell(Some(glyph), t.pen, false)
              else if glyph.wide && at == (t.grid.row, t.grid.col + 1) then T.Cell(None, t.pen, true)
              else CellOf(t, at)
    {
      CellAfter(t, r, Putting(t, glyph), at);
    }
  }

  lemma RanFirst(t: T.Term, op: T.Op, rest: seq<T.Op>)
    requires T.Good(t)
    ensures T.Good(T.Do(t, op)) && T.Ran(t, [op] + rest) == T.Ran(T.Do(t, op), rest)
  {
    hide T.Do, T.Good;
    var none: seq<T.Op> := [];
    assert [op] == none + [op];
    T.StepGood(t, op);
    T.RanOne(t, none, op);
    T.RanMore(t, [op], rest);
  }

  /** The cursor moved and the pen changed, the screen stays. */
  lemma MovedShows(t: T.Term, r: T.Term, at: Spot)
    requires T.Good(t) && T.Good(r) && SameShape(t, r) && r.grid.lines == t.grid.lines && at.0 < t.rows && at.1 < t.cols
    ensures CellOf(r, at) == CellOf(t, at)
  {
  }

  lemma RanPenPrint(t: T.Term, pen: nat, glyph: T.Glyph)
    requires T.Good(t) && !t.grid.pending && t.modes.autowrap && t.grid.col + Width(glyph) <= t.cols
    requires Room(t, (t.grid.row, t.grid.col), glyph.wide)
    ensures var r := T.Ran(t, [T.Op.Pen(pen), T.Print(glyph)]);
            && SameShape(t, r) && PutAt(t, r, (t.grid.row, t.grid.col), glyph, pen) && r.grid.row == t.grid.row
            && (if t.grid.col + Width(glyph) < t.cols then r.grid.col == t.grid.col + Width(glyph) && !r.grid.pending
                else r.grid.col == t.cols - 1 && r.grid.pending)
  {
    hide T.GoodRows, T.Printed;
    var p := t.(pen := pen);
    RanFirst(t, T.Op.Pen(pen), [T.Print(glyph)]);
    assert [T.Op.Pen(pen)] + [T.Print(glyph)] == [T.Op.Pen(pen), T.Print(glyph)];
    RanFirst(p, T.Print(glyph), []);
    assert [T.Print(glyph)] + [] == [T.Print(glyph)];
    forall at: Spot | at.0 < t.rows && at.1 < t.cols ensures CellOf(p, at) == CellOf(t, at) { MovedShows(t, p, at); }
    PrintPuts(p, glyph);
  }

  /** Moving the cursor before and after changes nothing shown. */
  lemma PutBetween(t: T.Term, moved: T.Term, put: T.Term, r: T.Term, at: Spot, glyph: T.Glyph, pen: nat)
    requires T.Good(t) && T.Good(moved) && T.Good(put) && T.Good(r) && SameShape(t, moved) && SameShape(moved, put) && SameShape(put, r)
    requires moved.grid.lines == t.grid.lines && r.grid.lines == put.grid.lines && PutAt(moved, put, at, glyph, pen)
    ensures SameShape(t, r) && PutAt(t, r, at, glyph, pen)
  {
    hide T.Good, CellOf;
    forall p: Spot | p.0 < t.rows && p.1 < t.cols
      ensures CellOf(r, p) == if p == at then T.Cell(Some(glyph), pen, false)
                              else if glyph.wide && p == (at.0, at.1 + 1) then T.Cell(None, pen, true)
                              else CellOf(t, p)
    {
      MovedShows(t, moved, p);
      MovedShows(put, r, p);
    }
  }

  lemma RoomMoved(t: T.Term, moved: T.Term, at: Spot, wide: bool)
    requires T.Good(t) && T.Good(moved) && SameShape(t, moved) && moved.grid.lines == t.grid.lines
    requires at.0 < t.rows && at.1 + (if wide then 2 else 1) <= t.cols && Room(t, at, wide)
    ensures Room(moved, at, wide)
  {
    hide T.Good, CellOf;
    MovedShows(t, moved, at);
    if wide { MovedShows(t, moved, (at.0, at.1 + 1)); }
  }

  lemma RanNone(t: T.Term)
    requires T.Good(t)
    ensures T.Ran(t, []) == t
  {
  }

  lemma CupIs(t: T.Term, col: nat)
    requires T.Good(t) && !t.modes.origin && col < t.cols
    ensures var r := T.Do(t, T.Cup(t.grid.row, col));
            T.Good(r) && r == t.(grid := t.grid.(col := col, pending := false))
  {
    hide T.GoodRows;
  }

  /** A glyph painted over at `col`, the cursor then at `back`. */
  lemma RanRepaint(t: T.Term, col: nat, pen: nat, glyph: T.Glyph, back: nat)
    requires T.Good(t) && t.modes.autowrap && !t.modes.origin && back < t.cols && col + Width(glyph) <= t.cols
    requires Room(t, (t.grid.row, col), glyph.wide)
    ensures var r := T.Ran(t, [T.Cup(t.grid.row, col), T.Op.Pen(pen), T.Print(glyph), T.Cup(t.grid.row, back)]);
            && SameShape(t, r) && PutAt(t, r, (t.grid.row, col), glyph, pen)
            && r.grid.row == t.grid.row && r.grid.col == back && !r.grid.pending
  {
    hide T.GoodRows, T.Do, CellOf, Room, PutAt, T.Ran;
    var row := t.grid.row;
    var first, second, third, last := T.Cup(row, col), T.Op.Pen(pen), T.Print(glyph), T.Cup(row, back);
    var moved := t.(grid := t.grid.(col := col, pending := false));
    assert [first] + [second, third, last] == [first, second, third, last];
    RanFirst(t, first, [second, third, last]);
    CupIs(t, col);
    assert [second, third] + [last] == [second, third, last];
    T.RanMore(moved, [second, third], [last]);
    RoomMoved(t, moved, (row, col), glyph.wide);
    RanPenPrint(moved, pen, glyph);
    var put := T.Ran(moved, [second, third]);
    RanFirst(put, last, []);
    CupIs(put, back);
    assert [last] + [] == [last];
    assert T.Ran(put, [last]) == T.Do(put, last) by { RanNone(T.Do(put, last)); }
    PutBetween(t, moved, put, T.Ran(put, [last]), (row, col), glyph, pen);
  }

  // ---- a guess put -----------------------------------------------------------------------------------------------------------

  /** `n` guesses what `e` does but for `cell` at `at`. */
  ghost predicate GuessPut(e: Engine, n: Engine, screen: Screen, at: Spot, cell: Cell) {
    forall p: Spot {:trigger GuessAt(n, screen, p)} ::
      GuessAt(n, screen, p) == if p == at then Some(cell)
                               else if cell.half == Wide && p == (at.0, at.1 + 1) then Some(Cell("", cell.attributes, Covered))
                               else GuessAt(e, screen, p)
  }

  lemma PutShows(t: T.Term, r: T.Term, e: Engine, n: Engine, screen: Screen, at: Spot, glyph: T.Glyph, cell: Cell)
    requires ShowsCells(t, e, screen) && T.Good(r) && SameShape(t, r) && PutAt(t, r, at, glyph, cell.attributes)
    requires GuessPut(e, n, screen, at, cell)
    requires cell.half == if glyph.wide then Wide else Narrow
    requires glyph.text == cell.text || (Blank(glyph.text) && Blank(cell.text))
    ensures ShowsCells(r, n, screen)
  {
    hide T.Good;
    forall p: Spot | p.0 < r.rows && p.1 < r.cols ensures LikeAt(r, n, screen, p) {
      assert LikeAt(t, e, screen, p);
      assert CellOf(r, p) == if p == at then T.Cell(Some(glyph), cell.attributes, false)
                             else if glyph.wide && p == (at.0, at.1 + 1) then T.Cell(None, cell.attributes, true)
                             else CellOf(t, p);
    }
  }

  /** What is left of where the cursor comes to stays as guessed to the letter. */
  lemma PutExact(t: T.Term, r: T.Term, e: Engine, n: Engine, screen: Screen, at: Spot, glyph: T.Glyph, cell: Cell)
    requires T.Good(t) && T.Good(r) && SameShape(t, r) && PutAt(t, r, at, glyph, cell.attributes) && GuessPut(e, n, screen, at, cell)
    requires cell.half == if glyph.wide then Wide else Narrow
    requires LeftExact(t, e, screen) && r.grid.row == t.grid.row && at.0 == t.grid.row
    requires r.grid.col <= at.1 || glyph.text == cell.text
    requires r.grid.col <= t.grid.col || (at.1 == t.grid.col && r.grid.col <= at.1 + Width(glyph))
    ensures LeftExact(r, n, screen)
  {
    hide T.GoodRows, CellOf, GuessAt;
    forall col: nat | col < r.grid.col ensures ExactAt(r, n, screen, (r.grid.row, col)) {
      var p: Spot := (r.grid.row, col);
      assert col < t.grid.col ==> ExactAt(t, e, screen, p);
      assert CellOf(r, p) == if p == at then T.Cell(Some(glyph), cell.attributes, false)
                             else if glyph.wide && p == (at.0, at.1 + 1) then T.Cell(None, cell.attributes, true)
                             else CellOf(t, p);
      assert GuessAt(n, screen, p) == if p == at then Some(cell)
                               else if cell.half == Wide && p == (at.0, at.1 + 1) then Some(Cell("", cell.attributes, Covered))
                               else GuessAt(e, screen, p);
    }
  }

  lemma GlyphPut(e: Engine, n: Engine, screen: Screen, at: Spot, cell: Cell)
    requires n.cells == PlaceGlyph(e, screen, at, cell).cells
    ensures GuessPut(e, n, screen, at, cell)
  {
  }

  lemma BlankPut(e: Engine, n: Engine, screen: Screen, at: Spot, cell: Cell)
    requires cell.half == Narrow && n.cells == Place(e, screen, at, cell, false).cells
    ensures GuessPut(e, n, screen, at, cell)
  {
  }

  lemma LikeThere(t: T.Term, e: Engine, screen: Screen, at: Spot)
    requires ShowsCells(t, e, screen) && at.0 < t.rows && at.1 < t.cols && GuessAt(e, screen, at).Some?
    ensures Like(CellOf(t, at), GuessAt(e, screen, at).value)
  {
    assert LikeAt(t, e, screen, at);
  }

  // ---- a glyph typed ---------------------------------------------------------------------------------------------------------

  /** The glyph on the cursor's left is the one guessed to be there. */
  lemma JoinsIff(text: Text, e: Engine, screen: Screen, c: char, t: T.Term)
    requires Shows(t, e, screen) && LeftExact(t, e, screen)
    ensures var before := GlyphBefore(e, screen, (t.grid.row, t.grid.col));
            && (Joins(text, t, c) <==> before.Some? && text.continues(before.value.1.text, c))
            && (before.Some? ==> before.value.0 == LeftOf(t) && GuessAt(e, screen, (t.grid.row, LeftOf(t))) == Some(before.value.1)
                                 && before.value.1.half != Covered
                                 && TextOf(CellOf(t, (t.grid.row, LeftOf(t)))) == before.value.1.text)
  {
    var row, col := t.grid.row, t.grid.col;
    if col > 0 {
      assert ExactAt(t, e, screen, (row, col - 1));
      LikeThere(t, e, screen, (row, col - 1));
      RowGood(t, row);
      assert T.GoodAt(t.grid.lines[T.LineOf(t)].cells, col - 1);
      if col > 1 {
        assert ExactAt(t, e, screen, (row, col - 2));
        LikeThere(t, e, screen, (row, col - 2));
      }
    }
  }

  lemma StyleIs(e: Engine, screen: Screen, t: T.Term)
    requires Shows(t, e, screen) && LeftExact(t, e, screen)
    ensures StyleAt(e, screen, (t.grid.row, t.grid.col)) == StyleLeft(t)
  {
    if t.grid.col > 0 {
      assert ExactAt(t, e, screen, (t.grid.row, t.grid.col - 1));
      LikeThere(t, e, screen, (t.grid.row, t.grid.col - 1));
    }
  }

  /** Past the last column is where the next row begins. */
  lemma PastLast(t: T.Term, screen: Screen)
    requires Plainly(t, screen) && t.grid.pending
    ensures NextAt(t) == (if t.grid.row + 1 < screen.rows then t.grid.row + 1 else t.grid.row, 0)
  {
    hide T.GoodRow;
  }

  lemma TypedIs(text: Text, e: Engine, screen: Screen, tty: Predict.Modes, c: char)
    requires var before := GlyphBefore(e, screen, CursorAt(e, screen));
             !(before.Some? && text.continues(before.value.1.text, c))
    requires var at := CursorAt(e, screen);
             0 < text.width([c]) && at.1 + text.width([c]) <= screen.cols && AllBlank(e, screen, at.0, at.1, at.1 + text.width([c]))
    ensures var n, at := PredictGlyph(text, e, screen, tty, c), CursorAt(e, screen);
            var end := at.1 + text.width([c]);
            && GuessPut(e, n, screen, at, Cell([c], StyleAt(e, screen, at), if text.width([c]) == 2 then Wide else Narrow))
            && CursorAt(n, screen) == if end < screen.cols then (at.0, end)
                                      else (if at.0 + 1 < screen.rows then at.0 + 1 else at.0, 0)
  {
    hide GlyphBefore, PlaceGlyph, GuessPut, GuessAt;
    var at := CursorAt(e, screen);
    var width := text.width([c]);
    var tr := Trusting(e, tty);
    BeforeSame(e, screen, tty, at);
    StyleSame(e, screen, tty, at);
    forall p: Spot ensures BlankAt(tr, screen, p) == BlankAt(e, screen, p) { BlankSame(e, screen, tty, p); }
    var glyph := Cell([c], StyleAt(e, screen, at), if width == 2 then Wide else Narrow);
    var n := PredictGlyph(text, e, screen, tty, c);
    PlacedRest(tr, screen, at, glyph);
    assert n.cells == PlaceGlyph(tr, screen, at, glyph).cells;
    TrustingPlaced(e, screen, tty, at, glyph);
    GlyphPut(e, n, screen, at, glyph);
  }

  lemma StyleSame(e: Engine, screen: Screen, tty: Predict.Modes, at: Spot)
    ensures StyleAt(Trusting(e, tty), screen, at) == StyleAt(e, screen, at)
  {
  }

  lemma PlacedRest(e: Engine, screen: Screen, at: Spot, cell: Cell)
    ensures PlaceGlyph(e, screen, at, cell) == e.(cells := PlaceGlyph(e, screen, at, cell).cells)
  {
  }

  lemma TrustingPlaced(e: Engine, screen: Screen, tty: Predict.Modes, at: Spot, cell: Cell)
    ensures PlaceGlyph(Trusting(e, tty), screen, at, cell).cells == PlaceGlyph(e, screen, at, cell).cells
  {
  }

  /** Blank cells are whole glyphs. */
  lemma BlankRoom(t: T.Term, e: Engine, screen: Screen, at: Spot, width: nat)
    requires ShowsCells(t, e, screen) && at.0 < t.rows && 0 < width <= 2 && at.1 + width <= t.cols
    requires AllBlank(e, screen, at.0, at.1, at.1 + width)
    ensures Room(t, at, width == 2)
  {
    hide T.Good, CellOf, GuessAt;
    assert BlankAt(e, screen, (at.0, at.1));
    LikeThere(t, e, screen, at);
    if width == 2 {
      assert BlankAt(e, screen, (at.0, at.1 + 1));
      LikeThere(t, e, screen, (at.0, at.1 + 1));
    }
  }

  lemma TypedShows(text: Text, e: Engine, screen: Screen, tty: Predict.Modes, c: char, t: T.Term)
    requires Shows(t, e, screen) && LeftExact(t, e, screen) && !Joins(text, t, c)
    requires 0 < text.width([c]) <= 2 && t.grid.col + text.width([c]) <= t.cols
    requires AllBlank(e, screen, t.grid.row, t.grid.col, t.grid.col + text.width([c]))
    ensures var r := T.Ran(t, [T.Op.Pen(StyleLeft(t)), T.Print(T.Glyph([c], text.width([c]) == 2, true))]);
            var n := PredictGlyph(text, e, screen, tty, c);
            && SameShape(t, r) && ShowsCells(r, n, screen) && CursorAt(n, screen) == NextAt(r)
            && (t.grid.col + text.width([c]) < t.cols ==> Shows(r, n, screen) && LeftExact(r, n, screen))
  {
    hide T.GoodRows, CellOf, GlyphBefore, StyleAt, StyleLeft, GuessPut, PutAt, GuessAt, Like, LikeAt, Joins, NextAt, AllBlank, Room,
      PredictGlyph, LeftExact, T.Ran;
    var at: Spot := (t.grid.row, t.grid.col);
    var width := text.width([c]);
    JoinsIff(text, e, screen, c, t);
    TypedIs(text, e, screen, tty, c);
    StyleIs(e, screen, t);
    BlankRoom(t, e, screen, at, width);
    var glyph := T.Glyph([c], width == 2, true);
    RanPenPrint(t, StyleLeft(t), glyph);
    var r := T.Ran(t, [T.Op.Pen(StyleLeft(t)), T.Print(glyph)]);
    var cell := Cell([c], StyleAt(e, screen, at), if width == 2 then Wide else Narrow);
    PutShows(t, r, e, PredictGlyph(text, e, screen, tty, c), screen, at, glyph, cell);
    if !r.grid.pending { PutExact(t, r, e, PredictGlyph(text, e, screen, tty, c), screen, at, glyph, cell); }
    if r.grid.pending { PastLast(r, screen); } else { NextHere(r); }
  }

  lemma NextHere(t: T.Term)
    requires T.Good(t) && !t.grid.pending
    ensures NextAt(t) == (t.grid.row, t.grid.col)
  {
  }

  // ---- the other keys --------------------------------------------------------------------------------------------------------

  lemma JoinedIs(text: Text, e: Engine, screen: Screen, tty: Predict.Modes, c: char)
    requires var before := GlyphBefore(e, screen, CursorAt(e, screen));
             && before.Some? && text.continues(before.value.1.text, c)
             && text.width(before.value.1.text + [c]) == text.width(before.value.1.text)
    ensures var n, at := PredictGlyph(text, e, screen, tty, c), CursorAt(e, screen);
            var before := GlyphBefore(e, screen, at).value;
            && GuessPut(e, n, screen, (at.0, before.0), before.1.(text := before.1.text + [c])) && CursorAt(n, screen) == at
  {
    hide GlyphBefore, PlaceGlyph, GuessPut, GuessAt;
    var at := CursorAt(e, screen);
    BeforeSame(e, screen, tty, at);
    var before := GlyphBefore(e, screen, at).value;
    var joined := before.1.(text := before.1.text + [c]);
    var n := PredictGlyph(text, e, screen, tty, c);
    assert n == MoveCursor(PlaceGlyph(Trusting(e, tty), screen, (at.0, before.0), joined), at);
    TrustingPlaced(e, screen, tty, (at.0, before.0), joined);
    GlyphPut(e, n, screen, (at.0, before.0), joined);
  }

  lemma LeftRoom(t: T.Term)
    requires T.Good(t) && t.grid.col > 0 && !CellOf(t, (t.grid.row, LeftOf(t))).covered
    ensures var left: Spot := (t.grid.row, LeftOf(t));
            var wide := T.Wide(CellOf(t, left));
            left.1 + (if wide then 2 else 1) <= t.cols && Room(t, left, wide)
  {
    RowGood(t, t.grid.row);
    assert T.GoodAt(t.grid.lines[T.LineOf(t)].cells, LeftOf(t));
  }

  lemma JoinedShows(text: Text, e: Engine, screen: Screen, tty: Predict.Modes, c: char, t: T.Term)
    requires Shows(t, e, screen) && LeftExact(t, e, screen) && Joins(text, t, c)
    requires var left := TextOf(CellOf(t, (t.grid.row, LeftOf(t)))); text.width(left + [c]) == text.width(left)
    ensures var left := CellOf(t, (t.grid.row, LeftOf(t)));
            var r := T.Ran(t, [T.Cup(t.grid.row, LeftOf(t)), T.Op.Pen(left.attributes),
                               T.Print(T.Glyph(TextOf(left) + [c], T.Wide(left), true)), T.Cup(t.grid.row, t.grid.col)]);
            && SameShape(t, r) && Shows(r, PredictGlyph(text, e, screen, tty, c), screen)
            && LeftExact(r, PredictGlyph(text, e, screen, tty, c), screen)
  {
    hide T.GoodRows, CellOf, GlyphBefore, GuessPut, PutAt, GuessAt, NextAt, Room, LikeAt, PredictGlyph, LeftExact, T.Ran, LeftOf;
    JoinsIff(text, e, screen, c, t);
    JoinedIs(text, e, screen, tty, c);
    var at: Spot := (t.grid.row, LeftOf(t));
    var before := GlyphBefore(e, screen, CursorAt(e, screen)).value.1;
    LikeThere(t, e, screen, at);
    LeftRoom(t);
    var left := CellOf(t, at);
    var glyph := T.Glyph(TextOf(left) + [c], T.Wide(left), true);
    RanRepaint(t, at.1, left.attributes, glyph, t.grid.col);
    var r := T.Ran(t, [T.Cup(t.grid.row, LeftOf(t)), T.Op.Pen(left.attributes), T.Print(glyph), T.Cup(t.grid.row, t.grid.col)]);
    var joined := before.(text := before.text + [c]);
    PutShows(t, r, e, PredictGlyph(text, e, screen, tty, c), screen, at, glyph, joined);
    PutExact(t, r, e, PredictGlyph(text, e, screen, tty, c), screen, at, glyph, joined);
  }

  lemma ErasedIs(e: Engine, screen: Screen)
    requires MayErase(e, screen)
    ensures var n, at := PredictBackspace(e, screen), CursorAt(e, screen);
            && at.1 > 0 && GuessAt(e, screen, at).Some? && BlankCell(GuessAt(e, screen, at).value)
            && GuessAt(e, screen, (at.0, at.1 - 1)).Some? && GuessAt(e, screen, (at.0, at.1 - 1)).value.half == Narrow
            && GuessPut(e, n, screen, (at.0, at.1 - 1), GuessAt(e, screen, at).value) && CursorAt(n, screen) == (at.0, at.1 - 1)
  {
    hide GuessPut, GuessAt;
    var at := CursorAt(e, screen);
    var blank := GuessAt(e, screen, at).value;
    var n := PredictBackspace(e, screen);
    assert n == MoveCursor(Place(e, screen, (at.0, at.1 - 1), blank, false), (at.0, at.1 - 1));
    BlankPut(e, n, screen, (at.0, at.1 - 1), blank);
  }

  lemma NarrowRoom(t: T.Term, e: Engine, screen: Screen, at: Spot)
    requires ShowsCells(t, e, screen) && at.0 < t.rows && at.1 < t.cols
    requires GuessAt(e, screen, at).Some? && GuessAt(e, screen, at).value.half == Narrow
    ensures Room(t, at, false)
  {
    LikeThere(t, e, screen, at);
  }

  lemma ErasedShows(e: Engine, screen: Screen, t: T.Term)
    requires Shows(t, e, screen) && MayErase(e, screen)
    ensures var back := t.grid.col - 1;
            var pen := CellOf(t, (t.grid.row, t.grid.col)).attributes;
            back >= 0
            && var r := T.Ran(t, [T.Cup(t.grid.row, back), T.Op.Pen(pen), T.Print(T.SPACE), T.Cup(t.grid.row, back)]);
               && SameShape(t, r) && Shows(r, PredictBackspace(e, screen), screen)
               && (LeftExact(t, e, screen) ==> LeftExact(r, PredictBackspace(e, screen), screen))
  {
    hide T.GoodRows, CellOf, GuessPut, PutAt, GuessAt, LikeAt, T.Ran, PredictBackspace, Room, LeftExact, MayErase, MayStepBack, T.Wide;
    var at: Spot := (t.grid.row, t.grid.col);
    ErasedIs(e, screen);
    var left: Spot := (at.0, at.1 - 1);
    LikeThere(t, e, screen, at);
    NarrowRoom(t, e, screen, left);
    var pen := CellOf(t, at).attributes;
    RanRepaint(t, left.1, pen, T.SPACE, left.1);
    var r := T.Ran(t, [T.Cup(at.0, left.1), T.Op.Pen(pen), T.Print(T.SPACE), T.Cup(at.0, left.1)]);
    PutShows(t, r, e, PredictBackspace(e, screen), screen, left, T.SPACE, GuessAt(e, screen, at).value);
    if LeftExact(t, e, screen) { PutExact(t, r, e, PredictBackspace(e, screen), screen, left, T.SPACE, GuessAt(e, screen, at).value); }
  }

  /** Nothing but the cursor and the pen differs. */
  lemma StillShows(t: T.Term, r: T.Term, e: Engine, n: Engine, screen: Screen)
    requires ShowsCells(t, e, screen) && T.Good(r) && SameShape(t, r) && r.grid.lines == t.grid.lines && n.cells == e.cells
    ensures ShowsCells(r, n, screen)
  {
    hide T.Good, CellOf;
    forall p: Spot | p.0 < r.rows && p.1 < r.cols ensures LikeAt(r, n, screen, p) {
      assert LikeAt(t, e, screen, p);
      MovedShows(t, r, p);
    }
  }

  lemma StillExact(t: T.Term, r: T.Term, e: Engine, n: Engine, screen: Screen)
    requires T.Good(t) && T.Good(r) && SameShape(t, r) && r.grid.lines == t.grid.lines && r.grid.row == t.grid.row && n.cells == e.cells
    requires LeftExact(t, e, screen)
    requires r.grid.col <= t.grid.col || (r.grid.col == t.grid.col + 1 && ExactAt(t, e, screen, (t.grid.row, t.grid.col)))
    ensures LeftExact(r, n, screen)
  {
    hide T.GoodRows, CellOf;
    forall col: nat | col < r.grid.col ensures ExactAt(r, n, screen, (r.grid.row, col)) {
      assert ExactAt(t, e, screen, (t.grid.row, col));
      MovedShows(t, r, (r.grid.row, col));
    }
  }

  lemma ArrowShows(e: Engine, screen: Screen, right: bool, t: T.Term)
    requires Shows(t, e, screen) && MayMove(e, screen, right)
    ensures var r := T.Ran(t, [T.Cup(t.grid.row, if right then t.grid.col + 1 else if t.grid.col > 0 then t.grid.col - 1 else 0)]);
            && SameShape(t, r) && Shows(r, PredictArrow(e, screen, right), screen)
            && (LeftExact(t, e, screen) && (right ==> ExactAt(t, e, screen, (t.grid.row, t.grid.col))) ==>
                  LeftExact(r, PredictArrow(e, screen, right), screen))
  {
    hide T.GoodRows, GuessAt, CellOf, LikeAt, ExactAt, LeftExact;
    var op := T.Cup(t.grid.row, if right then t.grid.col + 1 else if t.grid.col > 0 then t.grid.col - 1 else 0);
    RanFirst(t, op, []);
    assert [op] + [] == [op];
    var r, n := T.Ran(t, [op]), PredictArrow(e, screen, right);
    StillShows(t, r, e, n, screen);
    if LeftExact(t, e, screen) && (right ==> ExactAt(t, e, screen, (t.grid.row, t.grid.col))) { StillExact(t, r, e, n, screen); }
  }

  lemma CrLfIs(t: T.Term, screen: Screen)
    requires Plainly(t, screen)
    ensures var r := T.Do(t, T.CrLf);
            && T.Good(r) && SameShape(t, r) && !r.grid.pending && r.grid.col == 0
            && (if t.grid.row + 1 < t.rows then r.grid.row == t.grid.row + 1 && r.grid.lines == t.grid.lines
                else r.grid.row == t.grid.row)
  {
    hide T.GoodRows;
    T.StepGood(t, T.CrLf);
  }

  lemma EnterShows(e: Engine, screen: Screen, t: T.Term)
    requires Shows(t, e, screen)
    ensures var r, n := T.Ran(t, [T.CrLf]), PredictEnter(e, screen);
            && SameShape(t, r) && CursorAt(n, screen) == NextAt(r)
            && (t.grid.row + 1 < t.rows ==> Shows(r, n, screen))
  {
    hide T.GoodRows, GuessAt, CellOf, NextAt, T.Do, LikeAt;
    RanFirst(t, T.CrLf, []);
    assert [T.CrLf] + [] == [T.CrLf];
    CrLfIs(t, screen);
    var r := T.Do(t, T.CrLf);
    assert T.Ran(t, [T.CrLf]) == r;
    NextHere(r);
    if t.grid.row + 1 < t.rows {
      StillShows(t, r, e, PredictEnter(e, screen), screen);
    }
  }

  // ---- every key -------------------------------------------------------------------------------------------------------------

  predicate IsEnter(press: Press) {
    !press.alt && if press.ctrl then press.key.Char? && (Lower(press.key.c) == 'j' || Lower(press.key.c) == 'm') else press.key.Enter?
  }

  /** A glyph of its own, onto blanks, that reaches the last column. */
  predicate ReachesEnd(text: Text, e: Engine, screen: Screen, press: Press) {
    var at := CursorAt(e, screen);
    && Printable(text, press)
    && var before := GlyphBefore(e, screen, at);
       var width := text.width([press.key.c]);
       && !(before.Some? && text.continues(before.value.1.text, press.key.c)) && width > 0
       && at.1 + width == screen.cols && AllBlank(e, screen, at.0, at.1, at.1 + width)
  }

  /** What is on the left is as guessed to the letter, and the Right arrow goes over what is. */
  predicate StaysExact(t: T.Term, e: Engine, screen: Screen, press: Press)
    requires T.Good(t)
  {
    LeftExact(t, e, screen) && (press.key == Arrow(true) ==> ExactAt(t, e, screen, (t.grid.row, t.grid.col)))
  }

  /** Every guess is what the echo shows: on a terminal that shows the screen with the guesses and the cursor where it is
      guessed to be, the echo of a key leads to what is shown with the key guessed too. After a glyph that reaches the last
      column, and after Enter on the last row, the cursor is guessed where the next glyph goes; Enter there scrolls, and the
      cells are not guessed to. */
  lemma GuessIsEcho(text: Text, e: Engine, screen: Screen, press: Press, t: T.Term)
    requires var read := Reading(text, e, screen, press);
             && InContext(read, screen) && !Holding(read) && Shows(t, read, screen)
             && (Printable(text, press) ==> LeftExact(t, read, screen) && text.width([press.key.c]) <= 2)
             && (GuessedHere(text, read, screen, read.tty.value.echo, press) || ReachesEnd(text, read, screen, press) || IsEnter(press))
    ensures var read := Reading(text, e, screen, press);
            var r, n := T.Ran(t, EchoOf(text, t, press)), NewUserKey(text, e, screen, press);
            && SameShape(t, r) && CursorAt(n, screen) == NextAt(r)
            && ((IsEnter(press) && t.grid.row + 1 == t.rows) || ShowsCells(r, n, screen))
            && (GuessedHere(text, read, screen, read.tty.value.echo, press) ==>
                  Shows(r, n, screen) && (StaysExact(t, read, screen, press) ==> LeftExact(r, n, screen)))
  {
    hide Cull, PredictGlyph, PredictBackspace, PredictArrow, PredictEnter, LikeAt, LeftExact, AllBlank, MayErase, MayMove, T.Ran,
      NextAt, T.GoodRows, CellOf, LeftOf, Joins, StyleLeft, GlyphBefore, BeginLine, T.Do;
    var read := Reading(text, e, screen, press);
    var tty := read.tty.value;
    if press.key.Char? && !press.ctrl {
      JoinsIff(text, read, screen, press.key.c, t);
      if Joins(text, t, press.key.c) {
        JoinedShows(text, read, screen, tty, press.key.c, t);
      } else {
        TypedShows(text, read, screen, tty, press.key.c, t);
      }
    } else if IsEnter(press) {
      EnterShows(read, screen, t);
    } else if press.key.Arrow? {
      ArrowShows(read, screen, press.key.right, t);
    } else {
      ErasedShows(read, screen, t);
    }
    var r := T.Ran(t, EchoOf(text, t, press));
    if !r.grid.pending { NextHere(r); }
  }

  // ---- keys typed ahead of the frames ----------------------------------------------------------------------------------------

  /** No frame has reflected what is guessed, all of it on the screen. */
  ghost predicate Ahead(e: Engine, screen: Screen) {
    && e.acked <= e.sent && (e.size.Some? ==> e.size.value == (screen.rows, screen.cols))
    && (forall at :: at in e.cells ==> CellAt(screen, at).Some? && e.acked < e.cells[at].expiry)
    && (e.cursor.Some? ==> e.cursor.value.row < screen.rows && e.cursor.value.col < screen.cols && e.acked < e.cursor.value.expiry)
  }

  /** Such a frame leaves every guess as it is. */
  lemma AheadStays(e: Engine, screen: Screen)
    requires Ahead(e, screen)
    ensures Cull(e, screen) == e.(size := Some((screen.rows, screen.cols)))
  {
    var sized := e.(size := Some((screen.rows, screen.cols)));
    assert Killed(sized, screen) == {};
    assert Confirmed(sized, screen) == {};
    assert Epochs(sized, {}) == {};
    forall at | at in e.cells ensures Restyled(screen, {}, at, e.cells[at]) == e.cells[at] { NoneNear(at.0, at.1); }
    assert Remaining(sized, screen) == e.cells;
  }

  lemma {:induction false} NoneNear(row: nat, col: nat)
    ensures NearestLeft({}, row, col).None?
    decreases col
  {
    if col > 0 { NoneNear(row, col - 1); }
  }

  /** Every cell of the screen has a glyph or a blank. */
  ghost predicate Full(screen: Screen) {
    forall at: Spot {:trigger CellAt(screen, at)} :: at.0 < screen.rows && at.1 < screen.cols ==> CellAt(screen, at).Some?
  }

  lemma GlyphAhead(e: Engine, screen: Screen, at: Spot, cell: Cell)
    requires Ahead(e, screen) && CellAt(screen, at).Some? && (cell.half == Wide ==> CellAt(screen, (at.0, at.1 + 1)).Some?)
    ensures Ahead(PlaceGlyph(e, screen, at, cell), screen)
  {
  }

  lemma BeforeIsLeft(e: Engine, screen: Screen, at: Spot)
    ensures var before := GlyphBefore(e, screen, at);
            before.Some? ==> before.value.0 < at.1 && before.value.1.half != Covered
  {
  }

  lemma TypedStaysAhead(text: Text, e: Engine, screen: Screen, tty: Predict.Modes, c: char)
    requires Ahead(e, screen) && Full(screen) && MayType(text, e, screen, c)
    requires var at := CursorAt(e, screen); at.0 < screen.rows && at.1 < screen.cols
    ensures Ahead(PredictGlyph(text, e, screen, tty, c), screen)
  {
    hide GlyphBefore, PlaceGlyph, AllBlank, StyleAt, Full, CellAt;
    var t := Trusting(e, tty);
    var at := CursorAt(e, screen);
    assert Ahead(t, screen);
    TrustingSame(text, e, screen, tty, c);
    BeforeSame(e, screen, tty, at);
    BeforeIsLeft(t, screen, at);
    var before := GlyphBefore(t, screen, at);
    if before.Some? && text.continues(before.value.1.text, c) {
      var spot: Spot := (at.0, before.value.0);
      var joined := before.value.1.(text := before.value.1.text + [c]);
      FullAt(screen, spot);
      GlyphAhead(t, screen, spot, joined);
    } else {
      var glyph := Cell([c], StyleAt(t, screen, at), if text.width([c]) == 2 then Wide else Narrow);
      FullAt(screen, at);
      GlyphAhead(t, screen, at, glyph);
    }
  }

  lemma FullAt(screen: Screen, at: Spot)
    requires Full(screen) && at.0 < screen.rows && at.1 + 1 < screen.cols
    ensures CellAt(screen, at).Some? && CellAt(screen, (at.0, at.1 + 1)).Some?
  {
  }

  lemma KeyStaysAhead(text: Text, e: Engine, screen: Screen, press: Press)
    requires Ahead(e, screen) && Full(screen) && InContext(e, screen)
    requires var at := CursorAt(e, screen); at.0 < screen.rows && at.1 < screen.cols
    requires GuessedHere(text, e, screen, e.tty.value.echo, press)
    ensures Ahead(Predicted(text, e, screen, e.tty.value, press), screen)
  {
    hide PredictGlyph, MayType, BlankAt, CellAt, MayStepBack;
    if press.key.Char? && !press.ctrl {
      TypedStaysAhead(text, e, screen, e.tty.value, press.key.c);
    } else if !press.key.Arrow? {
      ErasedStaysAhead(e, screen);
    }
  }

  lemma ErasedStaysAhead(e: Engine, screen: Screen)
    requires Ahead(e, screen) && Full(screen) && MayErase(e, screen)
    requires var at := CursorAt(e, screen); at.0 < screen.rows && at.1 < screen.cols
    ensures Ahead(PredictBackspace(e, screen), screen)
  {
    hide CellAt, MayStepBack;
    var at := CursorAt(e, screen);
    FullAt(screen, (at.0, at.1 - 1));
  }

  /** The engine after `keys`, all typed against one screen. */
  ghost function Keyed(text: Text, e: Engine, screen: Screen, keys: seq<Press>): Engine
    decreases |keys|
  {
    if keys == [] then e else Keyed(text, NewUserKey(text, e, screen, keys[0]), screen, keys[1..])
  }

  /** The terminal after the echo of each. */
  function Echoed(text: Text, t: T.Term, keys: seq<Press>): T.Term
    requires T.Good(t)
    decreases |keys|
  {
    if keys == [] then t else Echoed(text, T.Ran(t, EchoOf(text, t, keys[0])), keys[1..])
  }

  /** The key is guessed in the epoch there is; and if it is Right, goes over a glyph. */
  ghost predicate Follows(text: Text, e: Engine, screen: Screen, press: Press) {
    var read := Reading(text, e, screen, press);
    && InContext(read, screen) && !Holding(read) && GuessedHere(text, read, screen, read.tty.value.echo, press)
    && (Printable(text, press) ==> text.width([press.key.c]) <= 2)
    && (press.key == Arrow(true) ==>
          var over := GuessAt(read, screen, CursorAt(read, screen)); over.Some? && !Blank(over.value.text))
  }

  ghost predicate AllFollow(text: Text, e: Engine, screen: Screen, keys: seq<Press>)
    decreases |keys|
  {
    keys == [] || (Follows(text, e, screen, keys[0]) && AllFollow(text, NewUserKey(text, e, screen, keys[0]), screen, keys[1..]))
  }

  lemma ReadingAhead(text: Text, e: Engine, screen: Screen, press: Press)
    requires Ahead(e, screen)
    ensures var read := Reading(text, e, screen, press);
            && Ahead(read, screen) && read.cells == e.cells && read.cursor == e.cursor
  {
    AheadStays(e, screen);
  }

  lemma SameShows(t: T.Term, e: Engine, n: Engine, screen: Screen)
    requires n.cells == e.cells && n.cursor == e.cursor
    ensures Shows(t, e, screen) ==> Shows(t, n, screen) && (LeftExact(t, e, screen) ==> LeftExact(t, n, screen))
  {
    hide T.GoodRows, CellOf;
    if Shows(t, e, screen) {
      forall at: Spot | at.0 < t.rows && at.1 < t.cols ensures LikeAt(t, n, screen, at) { assert LikeAt(t, e, screen, at); }
      if LeftExact(t, e, screen) {
        forall col: nat | col < t.grid.col ensures ExactAt(t, n, screen, (t.grid.row, col)) {
          assert ExactAt(t, e, screen, (t.grid.row, col));
        }
      }
    }
  }

  lemma OverExact(t: T.Term, e: Engine, screen: Screen)
    requires Shows(t, e, screen)
    requires var over := GuessAt(e, screen, CursorAt(e, screen)); over.Some? && !Blank(over.value.text)
    ensures ExactAt(t, e, screen, (t.grid.row, t.grid.col))
  {
    LikeThere(t, e, screen, (t.grid.row, t.grid.col));
  }

  /** However many keys are typed before a frame reflects any, each guessed, the screen with the guesses is what a terminal
      shows that got the echo of them all. */
  lemma {:induction false} TypedAhead(text: Text, e: Engine, screen: Screen, keys: seq<Press>, t: T.Term)
    requires Ahead(e, screen) && Full(screen) && Shows(t, e, screen) && LeftExact(t, e, screen) && AllFollow(text, e, screen, keys)
    ensures Shows(Echoed(text, t, keys), Keyed(text, e, screen, keys), screen)
    decreases |keys|
  {
    hide Reading, NewUserKey, Shows, LeftExact, EchoOf, InContext, GuessedHere, Ahead, Full, T.Good, T.Ran, Holding;
    if keys != [] {
      var press := keys[0];
      KeyAhead(text, e, screen, press, t);
      assert T.Good(T.Ran(t, EchoOf(text, t, press)));
      TypedAhead(text, NewUserKey(text, e, screen, press), screen, keys[1..], T.Ran(t, EchoOf(text, t, press)));
    }
  }

  lemma KeyAhead(text: Text, e: Engine, screen: Screen, press: Press, t: T.Term)
    requires Ahead(e, screen) && Full(screen) && Shows(t, e, screen) && LeftExact(t, e, screen) && Follows(text, e, screen, press)
    ensures T.Good(t)
    ensures var r, n := T.Ran(t, EchoOf(text, t, press)), NewUserKey(text, e, screen, press);
            Ahead(n, screen) && Shows(r, n, screen) && LeftExact(r, n, screen)
  {
    hide Reading, EchoOf, GuessedHere, Ahead, Full, T.GoodRows, T.Ran, LikeAt, LeftExact, ExactAt, Cull, Predicted;
    var read := Reading(text, e, screen, press);
    ReadingAhead(text, e, screen, press);
    SameShows(t, e, read, screen);
    if press.key == Arrow(true) { OverExact(t, read, screen); }
    GuessIsEcho(text, e, screen, press, t);
    KeyStaysAhead(text, read, screen, press);
    KeyIs(text, e, screen, press);
  }

  lemma KeyIs(text: Text, e: Engine, screen: Screen, press: Press)
    requires var read := Reading(text, e, screen, press); InContext(read, screen) && !Holding(read)
    ensures var read := Reading(text, e, screen, press);
            NewUserKey(text, e, screen, press) == Predicted(text, read, screen, read.tty.value, press)
  {
    hide Cull, Predicted;
  }

  // ---- what is drawn ---------------------------------------------------------------------------------------------------------

  /** What the user sees: the overlay over the screen. */
  function Seen(drawn: Overlay, screen: Screen, at: Spot): Option<Cell> {
    if at in drawn.cells then Some(drawn.cells[at]) else CellAt(screen, at)
  }

  /** The terminal shows what the user sees, the cursor too. */
  ghost predicate ShowsSeen(t: T.Term, drawn: Overlay, screen: Screen) {
    && Plainly(t, screen)
    && (forall at: Spot :: at.0 < t.rows && at.1 < t.cols ==> Seen(drawn, screen, at).Some? ==>
          Like(CellOf(t, at), Seen(drawn, screen, at).value))
    && (t.grid.row, t.grid.col) == if drawn.cursor.Some? then drawn.cursor.value else screen.cursor
  }

  /** In a trusted epoch, and not at a password prompt, the user sees every guess: what a terminal shows that got the echo. */
  lemma TrustedIsSeen(e: Engine, screen: Screen, t: T.Term)
    requires Shows(t, e, screen) && Stamped(e) && e.predicting <= e.confirmed && !Prompted(e)
    requires forall at :: at in e.cells ==> e.cells[at].guess.Some?
    ensures ShowsSeen(t, Drawn(e), screen)
  {
    hide T.Good, CellOf, Like;
    var drawn := Drawn(e);
    forall at: Spot | at.0 < t.rows && at.1 < t.cols && Seen(drawn, screen, at).Some?
      ensures Like(CellOf(t, at), Seen(drawn, screen, at).value)
    {
      assert LikeAt(t, e, screen, at);
      assert Seen(drawn, screen, at) == GuessAt(e, screen, at);
    }
  }
}
