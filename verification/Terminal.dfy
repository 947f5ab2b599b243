/** A small terminal: a grid of narrow and wide cells with scrollback, a cursor that may wait to
    wrap, a pen, a scroll region, the alternate screen and some modes. */
module Terminal {
  import opened Bytes

  /** How cells are drawn. */
  type Attributes = nat

  const PLAIN: Attributes := 0

  /** What is printed at once; `certain` if every terminal takes it as as wide. */
  datatype Glyph = Glyph(text: string, wide: bool, certain: bool)

  const SPACE := Glyph(" ", false, true)

  /** A cell: a glyph or none, or the right half of the wide glyph on its left. */
  datatype Cell = Cell(glyph: Option<Glyph>, attributes: Attributes, covered: bool)

  const BLANK := Cell(None, PLAIN, false)

  /** A row; `wrapped` if its text goes on in the next. */
  datatype Row = Row(cells: seq<Cell>, wrapped: bool)

  /** The rows scrolled off and those on the screen, and the cursor on the screen. */
  datatype Grid = Grid(lines: seq<Row>, row: nat, col: nat, pending: bool)

  datatype Modes = Modes(autowrap: bool, origin: bool, synchronized: bool, hidden: bool, others: set<nat>)

  const FRESH_MODES := Modes(true, false, false, false, {})

  /** A terminal of `rows` by `cols`; `main` holds the primary screen while the alternate is shown. */
  datatype Term = Term(
    rows: nat, cols: nat, grid: Grid, main: Option<Grid>, pen: Attributes, top: nat, bottom: nat,
    modes: Modes, shape: nat, title: string)

  datatype Op =
    | Reset
    | Print(glyph: Glyph)
    | Pen(attributes: Attributes)
    | Cup(row: nat, col: nat)
    | CrLf
    | EraseAll
    | EraseLine
    | EnterAlternate
    | LeaveAlternate
    | Region(top: nat, bottom: nat)
    | SetOrigin
    | NoAutowrap
    | HideCursor
    | SetOther(mode: nat)
    | Synchronize(on: bool)
    | Shape(shape: nat)
    | Titled(title: string)

  function Blanks(n: nat): (cells: seq<Cell>)
    ensures |cells| == n && forall i :: 0 <= i < n ==> cells[i] == BLANK
  {
    seq(n, _ => BLANK)
  }

  function BlankRow(cols: nat): Row {
    Row(Blanks(cols), false)
  }

  function BlankRows(n: nat, cols: nat): (rows: seq<Row>)
    ensures |rows| == n && forall i :: 0 <= i < n ==> rows[i] == BlankRow(cols)
  {
    seq(n, _ => BlankRow(cols))
  }

  /** A row's wide glyphs are whole: each with its right half, each right half with its glyph. */
  predicate GoodRow(row: Row, cols: nat) {
    |row.cells| == cols && forall i :: 0 <= i < cols ==> GoodAt(row.cells, i)
  }

  predicate GoodAt(cells: seq<Cell>, i: int)
    requires 0 <= i < |cells|
  {
    && (Wide(cells[i]) ==> i + 1 < |cells| && cells[i + 1].covered)
    && (cells[i].covered ==> cells[i].glyph.None? && i > 0 && Wide(cells[i - 1])
                             && cells[i].attributes == cells[i - 1].attributes)
  }

  predicate Wide(cell: Cell) {
    cell.glyph.Some? && cell.glyph.value.wide
  }

  predicate GoodGrid(g: Grid, rows: nat, cols: nat) {
    |g.lines| >= rows && g.row < rows && g.col < cols && GoodRows(g.lines, cols)
  }

  predicate GoodRows(lines: seq<Row>, cols: nat) {
    forall i :: 0 <= i < |lines| ==> GoodRow(lines[i], cols)
  }

  lemma GoodBlanks(n: nat, cols: nat)
    ensures GoodRow(BlankRow(cols), cols) && GoodRows(BlankRows(n, cols), cols)
  {
  }

  lemma GoodMore(a: seq<Row>, b: seq<Row>, cols: nat)
    requires GoodRows(a, cols) && GoodRows(b, cols)
    ensures GoodRows(a + b, cols)
  {
    hide GoodRow;
  }

  lemma GoodSome(a: seq<Row>, from: nat, end: nat, cols: nat)
    requires GoodRows(a, cols) && from <= end <= |a|
    ensures GoodRows(a[from..end], cols)
  {
    hide GoodRow;
  }

  predicate Good(t: Term) {
    && t.rows >= 1 && t.cols >= 2 && t.top <= t.bottom < t.rows
    && GoodGrid(t.grid, t.rows, t.cols)
    && (t.main.Some? ==> GoodGrid(t.main.value, t.rows, t.cols))
  }

  // ---- printing ----------------------------------------------------------------------------------------------

  /** The line the cursor is on. */
  function LineOf(t: Term): nat
    requires Good(t)
  {
    |t.grid.lines| - t.rows + t.grid.row
  }

  function Emptied(cell: Cell): Cell {
    Cell(None, cell.attributes, false)
  }

  /** `cells` with whatever glyph is at `i` gone, both its halves if it is wide. */
  function Freed(cells: seq<Cell>, i: nat): (r: seq<Cell>)
    requires i < |cells|
    ensures |r| == |cells|
  {
    if cells[i].covered && i > 0 then cells[i := Emptied(cells[i])][i - 1 := Emptied(cells[i - 1])]
    else if Wide(cells[i]) && i + 1 < |cells| then cells[i := Emptied(cells[i])][i + 1 := Emptied(cells[i + 1])]
    else cells[i := Emptied(cells[i])]
  }

  function Put(cells: seq<Cell>, i: nat, glyph: Glyph, attributes: Attributes): (r: seq<Cell>)
    requires i < |cells| && (glyph.wide ==> i + 1 < |cells|)
    ensures |r| == |cells|
  {
    var here := Freed(cells, i);
    if glyph.wide
    then Freed(here, i + 1)[i := Cell(Some(glyph), attributes, false)][i + 1 := Cell(None, attributes, true)]
    else here[i := Cell(Some(glyph), attributes, false)]
  }

  function OnLine(t: Term, row: Row): Term
    requires Good(t)
  {
    t.(grid := t.grid.(lines := t.grid.lines[LineOf(t) := row]))
  }

  /** The cursor a row down, the region scrolling at its bottom: a whole screen's top row goes to the
      rows scrolled off. */
  function Down(t: Term): Term
    requires Good(t)
  {
    var g := t.grid;
    if g.row != t.bottom then if g.row + 1 < t.rows then t.(grid := g.(row := g.row + 1)) else t
    else if t.top == 0 && t.bottom == t.rows - 1 then t.(grid := g.(lines := g.lines + [BlankRow(t.cols)]))
    else
      var first := |g.lines| - t.rows;
      t.(grid := g.(lines := Shifted(g.lines, first + t.top, first + t.bottom, BlankRow(t.cols))))
  }

  /** Rows `top` to `bottom` a row up, `row` last. */
  function Shifted(lines: seq<Row>, top: nat, bottom: nat, row: Row): (r: seq<Row>)
    requires top <= bottom < |lines|
    ensures |r| == |lines|
  {
    lines[..top] + lines[top + 1..bottom + 1] + [row] + lines[bottom + 1..]
  }

  lemma ShiftedGood(lines: seq<Row>, top: nat, bottom: nat, row: Row, cols: nat)
    requires top <= bottom < |lines| && GoodRows(lines, cols) && GoodRow(row, cols)
    ensures GoodRows(Shifted(lines, top, bottom, row), cols)
  {
    hide GoodRow;
  }

  lemma DownGood(t: Term)
    requires Good(t)
    ensures Good(Down(t)) && Down(t).rows == t.rows && Down(t).cols == t.cols
  {
    hide GoodRow, Shifted;
    var g := t.grid;
    GoodBlanks(1, t.cols);
    if g.row == t.bottom {
      if t.top == 0 && t.bottom == t.rows - 1 {
        GoodMore(g.lines, [BlankRow(t.cols)], t.cols);
      } else {
        var first := |g.lines| - t.rows;
        ShiftedGood(g.lines, first + t.top, first + t.bottom, BlankRow(t.cols), t.cols);
      }
    }
  }

  lemma OnLineGood(t: Term, row: Row)
    requires Good(t) && GoodRow(row, t.cols)
    ensures Good(OnLine(t, row))
  {
    hide GoodRow;
  }

  /** The text goes on in the next row. */
  function Wrapped(t: Term): Term
    requires Good(t)
    ensures Good(Wrapped(t)) && Wrapped(t).rows == t.rows && Wrapped(t).cols == t.cols && Wrapped(t).grid.col == 0
  {
    var line := t.grid.lines[LineOf(t)];
    var marked := OnLine(t, line.(wrapped := true));
    OnLineGood(t, line.(wrapped := true));
    DownGood(marked);
    var down := Down(marked);
    down.(grid := down.grid.(col := 0, pending := false))
  }

  /** Where a glyph goes: past a wrap if the cursor waited for it, or there is no room for it. */
  function Placed(t: Term, glyph: Glyph): (r: Term)
    requires Good(t)
    ensures Good(r) && r.rows == t.rows && r.cols == t.cols && (glyph.wide ==> r.grid.col + 1 < r.cols)
  {
    if t.modes.autowrap && (t.grid.pending || (glyph.wide && t.grid.col + 1 == t.cols)) then Wrapped(t)
    else if glyph.wide && t.grid.col + 1 == t.cols then t.(grid := t.grid.(col := t.cols - 2))
    else t
  }

  function Printed(t: Term, glyph: Glyph): Term
    requires Good(t)
  {
    var p := Placed(t, glyph);
    var line := p.grid.lines[LineOf(p)];
    var put := OnLine(p, line.(cells := Put(line.cells, p.grid.col, glyph, p.pen)));
    var next := p.grid.col + if glyph.wide then 2 else 1;
    if next < p.cols then put.(grid := put.grid.(col := next, pending := false))
    else put.(grid := put.grid.(col := p.cols - 1, pending := p.modes.autowrap))
  }

  lemma FreedGood(row: Row, cols: nat, i: nat)
    requires GoodRow(row, cols) && i < cols
    ensures GoodRow(row.(cells := Freed(row.cells, i)), cols)
    ensures Freed(row.cells, i)[i].glyph.None? && !Freed(row.cells, i)[i].covered
  {
    var r := Freed(row.cells, i);
    assert GoodAt(row.cells, i);
    forall k | 0 <= k < cols ensures GoodAt(r, k) {
      assert GoodAt(row.cells, k);
      if k > 0 { assert GoodAt(row.cells, k - 1); }
      if k + 1 < cols { assert GoodAt(row.cells, k + 1); }
    }
  }

  lemma PutGood(row: Row, cols: nat, i: nat, glyph: Glyph, attributes: Attributes)
    requires GoodRow(row, cols) && i < cols && (glyph.wide ==> i + 1 < cols)
    ensures GoodRow(row.(cells := Put(row.cells, i, glyph, attributes)), cols)
  {
    FreedGood(row, cols, i);
    var here := row.(cells := Freed(row.cells, i));
    if glyph.wide {
      FreedGood(here, cols, i + 1);
      FreeStays(here.cells, i);
      PutOn(Freed(here.cells, i + 1), cols, i, glyph, attributes);
    } else {
      PutOn(here.cells, cols, i, glyph, attributes);
    }
  }

  lemma FreeStays(cells: seq<Cell>, i: nat)
    requires i + 1 < |cells| && cells[i].glyph.None? && !cells[i].covered && GoodAt(cells, i + 1)
    ensures Freed(cells, i + 1)[i] == cells[i]
  {
  }

  lemma PutOn(cells: seq<Cell>, cols: nat, i: nat, glyph: Glyph, attributes: Attributes)
    requires GoodRow(Row(cells, false), cols) && i < cols && (glyph.wide ==> i + 1 < cols)
    requires cells[i].glyph.None? && !cells[i].covered
    requires glyph.wide ==> cells[i + 1].glyph.None? && !cells[i + 1].covered
    ensures var one := cells[i := Cell(Some(glyph), attributes, false)];
            GoodRow(Row(if glyph.wide then one[i + 1 := Cell(None, attributes, true)] else one, false), cols)
  {
    var one := cells[i := Cell(Some(glyph), attributes, false)];
    var r := if glyph.wide then one[i + 1 := Cell(None, attributes, true)] else one;
    forall k | 0 <= k < cols ensures GoodAt(r, k) {
      assert GoodAt(cells, k);
      if k > 0 { assert GoodAt(cells, k - 1); }
      if k + 1 < cols { assert GoodAt(cells, k + 1); }
    }
  }

  lemma PrintedGood(t: Term, glyph: Glyph)
    requires Good(t)
    ensures Good(Printed(t, glyph)) && Printed(t, glyph).rows == t.rows && Printed(t, glyph).cols == t.cols
  {
    var p := Placed(t, glyph);
    hide Put, Placed;
    var line := p.grid.lines[LineOf(p)];
    PutGood(line, p.cols, p.grid.col, glyph, p.pen);
    OnLineGood(p, line.(cells := Put(line.cells, p.grid.col, glyph, p.pen)));
  }

  // ---- a step --------------------------------------------------------------------------------------------------

  function At(t: Term, row: nat, col: nat): Term
    requires Good(t)
  {
    t.(grid := t.grid.(row := row, col := if col < t.cols then col else t.cols - 1, pending := false))
  }

  function Moved(t: Term, row: nat, col: nat): Term
    requires Good(t)
  {
    if t.modes.origin then At(t, if t.top + row <= t.bottom then t.top + row else t.bottom, col)
    else At(t, if row < t.rows then row else t.rows - 1, col)
  }

  /** The primary screen, its cursor home, all modes as a fresh terminal has them. */
  function Renewed(t: Term): Term
    requires Good(t)
  {
    var main := if t.main.Some? then t.main.value else t.grid;
    t.(grid := main.(row := 0, col := 0, pending := false), main := None, pen := PLAIN, top := 0, bottom := t.rows - 1,
       modes := FRESH_MODES)
  }

  function Do(t: Term, op: Op): Term
    requires Good(t)
  {
    match op
    case Reset => Renewed(t)
    case Print(glyph) => Printed(t, glyph)
    case Pen(attributes) => t.(pen := attributes)
    case Cup(row, col) => Moved(t, row, col)
    case CrLf => var down := Down(t); down.(grid := down.grid.(col := 0, pending := false))
    case EraseAll =>
      var kept := |t.grid.lines| - t.rows;
      t.(grid := t.grid.(lines := t.grid.lines[..kept] + BlankRows(t.rows, t.cols)))
    case EraseLine => OnLine(t, BlankRow(t.cols))
    case EnterAlternate =>
      if t.main.Some? then t
      else t.(main := Some(t.grid), grid := t.grid.(lines := BlankRows(t.rows, t.cols)))
    case LeaveAlternate => if t.main.None? then t else t.(grid := t.main.value, main := None)
    case Region(top, bottom) =>
      if top < bottom < t.rows then Moved(t.(top := top, bottom := bottom), 0, 0) else t
    case SetOrigin => Moved(t.(modes := t.modes.(origin := true)), 0, 0)
    case NoAutowrap => t.(modes := t.modes.(autowrap := false))
    case HideCursor => t.(modes := t.modes.(hidden := true))
    case SetOther(mode) => t.(modes := t.modes.(others := t.modes.others + {mode}))
    case Synchronize(on) => t.(modes := t.modes.(synchronized := on))
    case Shape(shape) => t.(shape := shape)
    case Titled(title) => t.(title := title)
  }

  lemma StepGood(t: Term, op: Op)
    requires Good(t)
    ensures Good(Do(t, op)) && Do(t, op).rows == t.rows && Do(t, op).cols == t.cols
  {
    hide GoodRow, Printed, Down;
    match op
    case Print(glyph) => PrintedGood(t, glyph);
    case CrLf => DownGood(t);
    case EraseAll =>
      var kept := |t.grid.lines| - t.rows;
      GoodBlanks(t.rows, t.cols);
      GoodSome(t.grid.lines, 0, kept, t.cols);
      GoodMore(t.grid.lines[..kept], BlankRows(t.rows, t.cols), t.cols);
    case EraseLine =>
      GoodBlanks(1, t.cols);
      OnLineGood(t, BlankRow(t.cols));
    case EnterAlternate => GoodBlanks(t.rows, t.cols);
    case _ =>
  }

  /** The terminal after `ops`. */
  function Ran(t: Term, ops: seq<Op>): (r: Term)
    requires Good(t)
    ensures Good(r) && r.rows == t.rows && r.cols == t.cols
    decreases |ops|
  {
    if ops == [] then t
    else
      var before := Ran(t, ops[..|ops| - 1]);
      StepGood(before, ops[|ops| - 1]);
      Do(before, ops[|ops| - 1])
  }

  lemma RanOne(t: Term, ops: seq<Op>, op: Op)
    requires Good(t)
    ensures Ran(t, ops + [op]) == Do(Ran(t, ops), op)
  {
    assert (ops + [op])[..|ops|] == ops;
  }

  lemma {:induction false} RanMore(t: Term, a: seq<Op>, b: seq<Op>)
    requires Good(t)
    ensures Ran(t, a + b) == Ran(Ran(t, a), b)
    decreases |b|
  {
    if b == [] {
      assert a + b == a;
    } else {
      var front := b[..|b| - 1];
      assert (a + b)[..|a + b| - 1] == a + front;
      RanMore(t, a, front);
    }
  }

  // ---- blanks compared as blanks -----------------------------------------------------------------------------

  /** A space and no glyph look the same. */
  function Seen(cell: Cell): Cell {
    if !cell.covered && cell.glyph.None? then cell.(glyph := Some(SPACE)) else cell
  }

  /** What is printed for a cell. */
  function GlyphOf(cell: Cell): Glyph {
    if cell.glyph.Some? then cell.glyph.value else SPACE
  }

  predicate Alike(a: Cell, b: Cell) {
    Seen(a) == Seen(b)
  }

  predicate AlikeRow(a: Row, b: Row) {
    && a.wrapped == b.wrapped && |a.cells| == |b.cells|
    && forall i :: 0 <= i < |a.cells| ==> Alike(a.cells[i], b.cells[i])
  }

  predicate AlikeRows(a: seq<Row>, b: seq<Row>) {
    |a| == |b| && forall i :: 0 <= i < |a| ==> AlikeRow(a[i], b[i])
  }
}
