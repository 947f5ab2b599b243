/** A screen written for a terminal that shows nothing of it: painted, the terminal shows the same. */
module Redraw {
  import opened Bytes
  import opened Terminal

  /** What a program drew: its primary screen with the rows scrolled off before it, the alternate
      screen if it is shown, the cursor, the pen, the region and the modes. */
  datatype Screen = Screen(
    rows: nat, cols: nat, main: seq<Row>, alternate: Option<seq<Row>>, saved: (nat, nat), row: nat, col: nat,
    pending: bool, pen: Attributes, top: nat, bottom: nat, modes: Modes, shape: nat, title: string,
    running: Option<(nat, nat)>)       // where the output of a command still running began

  /** How many modes there are besides those a terminal's place depends on. */
  const OTHERS := 16

  /** A screen as a terminal can hold it. */
  predicate Formed(s: Screen) {
    && s.rows >= 1 && s.cols >= 2 && |s.main| >= s.rows && GoodRows(s.main, s.cols)
    && (s.alternate.Some? ==> |s.alternate.value| == s.rows && GoodRows(s.alternate.value, s.cols))
    && s.saved.0 < s.rows && s.saved.1 < s.cols
    && s.row < s.rows && s.col < s.cols && (s.pending ==> s.col == s.cols - 1)
    && ((s.top == 0 && s.bottom == s.rows - 1) || s.top < s.bottom < s.rows)
    && (s.modes.origin ==> s.top <= s.row <= s.bottom)
    && (forall m :: m in s.modes.others ==> m < OTHERS)
  }

  /** The rows on the screen shown. */
  function Shown(s: Screen): seq<Row>
    requires Formed(s)
  {
    if s.alternate.Some? then s.alternate.value else s.main[|s.main| - s.rows..]
  }

  /** The rows painted: those of the primary screen, with `history` before it. */
  function Lines(s: Screen, history: nat): seq<Row>
    requires Formed(s)
  {
    s.main[if |s.main| - s.rows >= history then |s.main| - s.rows - history else 0..]
  }

  /** Whether a cell is painted, or left as a cleared terminal has it. */
  predicate Drawn(cell: Cell) {
    cell.glyph.Some? || cell.attributes != PLAIN
  }

  /** How many cells of a row are painted. */
  function Last(row: Row): (n: nat)
    ensures n <= |row.cells|
    ensures row.wrapped ==> n == |row.cells|
    ensures !row.wrapped ==> (n == 0 || Drawn(row.cells[n - 1])) && forall i :: n <= i < |row.cells| ==> !Drawn(row.cells[i])
  {
    if row.wrapped then |row.cells| else LastDrawn(row.cells)
  }

  function LastDrawn(cells: seq<Cell>): (n: nat)
    ensures n <= |cells|
    ensures n == 0 || Drawn(cells[n - 1])
    ensures forall i :: n <= i < |cells| ==> !Drawn(cells[i])
    decreases |cells|
  {
    if cells == [] then 0
    else if Drawn(cells[|cells| - 1]) then |cells|
    else LastDrawn(cells[..|cells| - 1])
  }

  /** The first `n` of `cells` as they are painted, blanks after them. */
  function Painted(cells: seq<Cell>, n: nat): (r: seq<Cell>)
    requires n <= |cells|
    ensures |r| == |cells|
    ensures forall i :: 0 <= i < n ==> r[i] == Seen(cells[i])
    ensures forall i :: n <= i < |cells| ==> r[i] == BLANK
  {
    seq(|cells|, i requires 0 <= i < |cells| => if i < n then Seen(cells[i]) else BLANK)
  }

  /** How many columns are painted with the first `n` cells: a wide glyph's right half comes with it. */
  function Reach(cells: seq<Cell>, n: nat): (m: nat)
    requires n <= |cells|
    ensures n <= m <= |cells|
  {
    if n < |cells| && cells[n].covered then n + 1 else n
  }

  lemma ReachEnds(cells: seq<Cell>, cols: nat, n: nat)
    requires GoodRow(Row(cells, false), cols) && n <= cols
    ensures Reach(cells, n) < cols ==> !cells[Reach(cells, n)].covered
    ensures n > 0 ==> Reach(cells, n) == if cells[n - 1].covered then n else n - 1 + Width(cells[n - 1])
  {
    if n > 0 { assert GoodAt(cells, n - 1); }
    if n < cols { assert GoodAt(cells, n); }
    if n + 1 < cols { assert GoodAt(cells, n + 1); }
  }

  /** How many columns a cell's glyph takes. */
  function Width(cell: Cell): nat {
    if Wide(cell) then 2 else 1
  }

  lemma PaintedAlike(row: Row, cols: nat)
    requires GoodRow(row, cols)
    ensures AlikeRow(Row(Painted(row.cells, Reach(row.cells, Last(row))), row.wrapped), row)
  {
    var m := Reach(row.cells, Last(row));
    forall i | 0 <= i < cols ensures Alike(Painted(row.cells, m)[i], row.cells[i]) {
      assert GoodAt(row.cells, i);
      if i >= m { assert !Drawn(row.cells[i]); LateUncovered(row, cols, i); }
    }
  }

  lemma LateUncovered(row: Row, cols: nat, i: nat)
    requires GoodRow(row, cols) && Reach(row.cells, Last(row)) <= i < cols
    ensures !row.cells[i].covered
  {
    assert GoodAt(row.cells, i);
    if i > Last(row) { assert !Drawn(row.cells[i - 1]); }
  }

  // ---- where painting is -------------------------------------------------------------------------------------

  /** The terminal stands on the line after `base`, which is `cur`, blank lines below it on the
      screen; `above` lines were there before. */
  predicate On(t: Term, above: nat, base: seq<Row>, cur: Row) {
    && Good(t) && t.modes == FRESH_MODES && t.top == 0 && t.bottom == t.rows - 1 && above <= |base|
    && |cur.cells| == t.cols
    && t.grid.lines == Tape(base, cur, Total(above, |base|, t.rows), t.cols)
    && t.grid.row + |t.grid.lines| == |base| + t.rows
  }

  /** How many lines there are, with `base` of them before the one painted. */
  function Total(above: nat, base: nat, rows: nat): (n: nat)
    ensures n > base
  {
    if base + 1 >= above + rows then base + 1 else above + rows
  }

  /** `total` lines: `base`, then `cur`, then blank ones. */
  function Tape(base: seq<Row>, cur: Row, total: nat, cols: nat): (lines: seq<Row>)
    requires total > |base|
    ensures |lines| == total
  {
    base + [cur] + BlankRows(total - |base| - 1, cols)
  }

  lemma TapeMore(base: seq<Row>, cur: Row, total: nat, cols: nat)
    requires total > |base|
    ensures total == |base| + 1 ==>
              Tape(base, cur, total, cols) + [BlankRow(cols)] == Tape(base + [cur], BlankRow(cols), total + 1, cols)
    ensures total > |base| + 1 ==> Tape(base, cur, total, cols) == Tape(base + [cur], BlankRow(cols), total, cols)
  {
    var more := base + [cur];
    assert total > |base| + 1 ==>
        BlankRows(total - |base| - 1, cols) == [BlankRow(cols)] + BlankRows(total - |more| - 1, cols);
  }

  lemma OnLineOf(t: Term, above: nat, base: seq<Row>, cur: Row)
    requires On(t, above, base, cur)
    ensures LineOf(t) == |base| && t.grid.lines[LineOf(t)] == cur
  {
  }

  /** The current line replaced. */
  lemma OnPut(t: Term, above: nat, base: seq<Row>, cur: Row, row: Row)
    requires On(t, above, base, cur) && GoodRow(row, t.cols)
    ensures On(OnLine(t, row), above, base, row)
  {
    hide GoodAt;
    OnLineOf(t, above, base, cur);
    OnLineGood(t, row);
    assert Tape(base, cur, |t.grid.lines|, t.cols)[|base| := row] == Tape(base, row, |t.grid.lines|, t.cols);
  }

  /** On to the next line. */
  lemma OnDown(t: Term, above: nat, base: seq<Row>, cur: Row)
    requires On(t, above, base, cur)
    ensures On(Down(t), above, base + [cur], BlankRow(t.cols))
  {
    hide GoodRow, Tape;
    DownGood(t);
    TapeMore(base, cur, |t.grid.lines|, t.cols);
    var more, down := base + [cur], Down(t);
    if t.grid.row == t.bottom {
      assert |t.grid.lines| == |base| + 1;
      OnMore(down, above, more, |base| + 2);
    } else {
      assert |t.grid.lines| == above + t.rows;
      OnMore(down, above, more, |t.grid.lines|);
    }
  }

  lemma OnMore(t: Term, above: nat, base: seq<Row>, total: nat)
    requires Good(t) && t.modes == FRESH_MODES && t.top == 0 && t.bottom == t.rows - 1 && above <= |base| < total
    requires total == Total(above, |base|, t.rows) && t.grid.row + total == |base| + t.rows
    requires t.grid.lines == Tape(base, BlankRow(t.cols), total, t.cols)
    ensures On(t, above, base, BlankRow(t.cols))
  {
    hide GoodRow;
  }

  /** Where the next row is painted from: the start of a blank line, or a full line's end, to wrap. */
  datatype From = Start | Brim

  predicate Stands(t: Term, above: nat, base: seq<Row>, cur: Row, from: From) {
    && On(t, above, base, cur)
    && (from.Start? ==> t.grid.col == 0 && !t.grid.pending && cur == BlankRow(t.cols))
    && (from.Brim? ==> t.grid.col == t.cols - 1 && t.grid.pending)
  }

  /** The cursor after column `n - 1`. */
  predicate Stopped(t: Term, n: nat) {
    if n < t.cols then t.grid.col == n && !t.grid.pending else t.grid.col == t.cols - 1 && t.grid.pending
  }

  /** The line in the middle of being painted: `n` of its cells so far. */
  predicate Within(t: Term, above: nat, base: seq<Row>, cells: seq<Cell>, n: nat) {
    && 0 < n <= |cells| && On(t, above, base, Row(Painted(cells, Reach(cells, n)), false)) && Stopped(t, Reach(cells, n))
  }

  // ---- a cell painted ----------------------------------------------------------------------------------------

  lemma PaintedGood(cells: seq<Cell>, cols: nat, n: nat)
    requires GoodRow(Row(cells, false), cols) && n <= cols && (n < cols ==> !cells[n].covered)
    ensures GoodRow(Row(Painted(cells, n), false), cols)
  {
    var p := Painted(cells, n);
    forall i | 0 <= i < cols ensures GoodAt(p, i) {
      assert GoodAt(cells, i);
      assert p[i] == if i < n then Seen(cells[i]) else BLANK;
      if i + 1 < cols { assert p[i + 1] == if i + 1 < n then Seen(cells[i + 1]) else BLANK; }
      if i > 0 { assert p[i - 1] == if i - 1 < n then Seen(cells[i - 1]) else BLANK; }
    }
  }

  /** A glyph put where nothing is painted yet. */
  lemma PaintedMore(cells: seq<Cell>, cols: nat, n: nat)
    requires GoodRow(Row(cells, false), cols) && n < cols && !cells[n].covered
    ensures GlyphOf(cells[n]).wide ==> n + 1 < cols
    ensures Reach(cells, n) == n && Reach(cells, n + 1) == n + Width(cells[n])
    ensures Put(Painted(cells, n), n, GlyphOf(cells[n]), cells[n].attributes) == Painted(cells, Reach(cells, n + 1))
  {
    assert GoodAt(cells, n);
    ReachEnds(cells, cols, n + 1);
    var p := Painted(cells, n);
    assert Freed(p, n) == p;
    if Wide(cells[n]) {
      assert GoodAt(cells, n + 1);
      assert Freed(p, n + 1) == p;
    }
  }

  /** All but the grid and the pen. */
  predicate SameElse(t: Term, r: Term) {
    && r.rows == t.rows && r.cols == t.cols && r.main == t.main && r.shape == t.shape && r.title == t.title
    && r.modes == t.modes && r.top == t.top && r.bottom == t.bottom
  }

  /** A cell printed where the row is painted so far. */
  lemma PrintHere(t: Term, above: nat, base: seq<Row>, cells: seq<Cell>, n: nat)
    requires n < |cells| && GoodRow(Row(cells, false), t.cols) && t.pen == cells[n].attributes && !cells[n].covered
    requires On(t, above, base, Row(Painted(cells, n), false)) && t.grid.col == n && !t.grid.pending
    ensures Within(Printed(t, GlyphOf(cells[n])), above, base, cells, n + 1)
    ensures Printed(t, GlyphOf(cells[n])).pen == t.pen && SameElse(t, Printed(t, GlyphOf(cells[n])))
  {
    hide GoodRow, Painted, Put, OnLine;
    var next := Row(Painted(cells, Reach(cells, n + 1)), false);
    OnLineOf(t, above, base, Row(Painted(cells, n), false));
    PaintedMore(cells, t.cols, n);
    ReachEnds(cells, t.cols, n + 1);
    PaintedGood(cells, t.cols, Reach(cells, n + 1));
    OnPut(t, above, base, Row(Painted(cells, n), false), next);
    PrintLands(t, above, base, next, GlyphOf(cells[n]), n);
  }

  lemma PrintLands(t: Term, above: nat, base: seq<Row>, next: Row, glyph: Glyph, n: nat)
    requires Good(t) && t.grid.col == n && !t.grid.pending && (glyph.wide ==> n + 1 < t.cols) && t.modes.autowrap
    requires On(OnLine(t, next), above, base, next)
    requires Put(t.grid.lines[LineOf(t)].cells, n, glyph, t.pen) == next.cells
    requires t.grid.lines[LineOf(t)].wrapped == next.wrapped
    ensures var r := Printed(t, glyph);
            On(r, above, base, next) && r.pen == t.pen && SameElse(t, r) && Stopped(r, n + if glyph.wide then 2 else 1)
  {
    hide GoodRow, Put;
    assert Placed(t, glyph) == t;
  }

  /** At a full line's end, the next glyph marks the line as going on, and lands on the next. */
  lemma WrapDown(t: Term, above: nat, base: seq<Row>, cur: Row)
    requires On(t, above, base, cur)
    ensures var w := Wrapped(t);
            && On(w, above, base + [cur.(wrapped := true)], BlankRow(t.cols)) && w.grid.col == 0 && !w.grid.pending
            && w.pen == t.pen && SameElse(t, w)
  {
    hide GoodRow, OnLine;
    OnLineOf(t, above, base, cur);
    var marked := OnLine(t, cur.(wrapped := true));
    RowKept(t, cur);
    OnPut(t, above, base, cur, cur.(wrapped := true));
    MarkedElse(t, cur.(wrapped := true));
    OnDown(marked, above, base, cur.(wrapped := true));
    var down := Down(marked);
    assert Wrapped(t) == down.(grid := down.grid.(col := 0, pending := false));
  }

  lemma RowKept(t: Term, cur: Row)
    requires Good(t) && t.grid.lines[LineOf(t)] == cur
    ensures GoodRow(cur.(wrapped := true), t.cols)
  {
    assert GoodRow(cur, t.cols);
    forall i | 0 <= i < t.cols ensures GoodAt(cur.(wrapped := true).cells, i) { assert GoodAt(cur.cells, i); }
  }

  lemma MarkedElse(t: Term, row: Row)
    requires Good(t)
    ensures OnLine(t, row).pen == t.pen && SameElse(t, OnLine(t, row))
  {
  }

  lemma PrintWraps(t: Term, glyph: Glyph)
    requires Good(t) && t.grid.pending && t.modes.autowrap
    ensures Printed(t, glyph) == Printed(Wrapped(t), glyph)
  {
    hide Wrapped, Put;
    WrapClears(t);
    assert Placed(Wrapped(t), glyph) == Wrapped(t);
  }

  lemma WrapClears(t: Term)
    requires Good(t)
    ensures !Wrapped(t).grid.pending && Wrapped(t).modes == t.modes
  {
  }

  /** The first cell of a row printed where the row is to be. */
  lemma PrintFirst(t: Term, above: nat, base: seq<Row>, cur: Row, from: From, cells: seq<Cell>)
    requires Stands(t, above, base, cur, from) && cells != [] && GoodRow(Row(cells, false), t.cols)
    requires t.pen == cells[0].attributes
    ensures var r := Printed(t, GlyphOf(cells[0]));
            && Within(r, above, Base(base, cur, from), cells, 1) && r.pen == t.pen && SameElse(t, r)
  {
    hide GoodRow, OnLine, Painted, Printed, Wrapped;
    FirstUncovered(cells, t.cols);
    PaintedNone(cells);
    if from.Brim? {
      WrapDown(t, above, base, cur);
      PrintWraps(t, GlyphOf(cells[0]));
      PrintHere(Wrapped(t), above, Base(base, cur, from), cells, 0);
    } else {
      PrintHere(t, above, base, cells, 0);
    }
  }

  lemma FirstUncovered(cells: seq<Cell>, cols: nat)
    requires GoodRow(Row(cells, false), cols) && cells != []
    ensures |cells| == cols && !cells[0].covered
  {
    assert GoodAt(cells, 0);
  }

  lemma PaintedNone(cells: seq<Cell>)
    ensures Row(Painted(cells, 0), false) == BlankRow(|cells|)
  {
  }

  /** The lines before a row once its first cell is printed. */
  function Base(base: seq<Row>, cur: Row, from: From): seq<Row> {
    if from.Brim? then base + [cur.(wrapped := true)] else base
  }

  /** A move to where the row is painted to changes nothing. */
  lemma CupHere(t: Term, above: nat, base: seq<Row>, cells: seq<Cell>, n: nat)
    requires n < |cells| && n < t.cols && Within(t, above, base, cells, n) && !cells[n].covered
    ensures Moved(t, t.grid.row, n) == t
  {
  }

  // ---- a row's bytes -----------------------------------------------------------------------------------------

  /** What paints a row so far: the pen it leaves, and whether the terminal's place is to be made
      sure of before the next glyph. */
  datatype Part = Part(ops: seq<Op>, pen: Attributes, moved: bool)

  function PenTo(pen: Attributes, want: Attributes): seq<Op> {
    if pen == want then [] else [Op.Pen(want)]
  }

  function CupTo(moved: bool, at: Option<nat>, col: nat): seq<Op> {
    if moved && at.Some? then [Cup(at.value, col)] else []
  }

  /** The first `n` of a row's cells painted, the row at `at` on the terminal if that is known. */
  function RowPart(cells: seq<Cell>, n: nat, at: Option<nat>, pen: Attributes): Part
    requires n <= |cells|
  {
    if n == 0 then Part([], pen, false)
    else
      var p := RowPart(cells, n - 1, at, pen);
      var cell := cells[n - 1];
      if cell.covered then p
      else Part(p.ops + CupTo(p.moved, at, n - 1) + PenTo(p.pen, cell.attributes) + [Print(GlyphOf(cell))],
                cell.attributes, cell.glyph.Some? && !cell.glyph.value.certain)
  }

  /** Whether painting the row makes sure of its place: something follows a glyph not every terminal
      takes as as wide. */
  predicate MovesIn(row: Row) {
    exists i :: 0 <= i < |row.cells| && Moves(row, i) && i + Width(row.cells[i]) < Last(row)
  }

  predicate Moves(row: Row, i: int) {
    0 <= i < |row.cells| && row.cells[i].glyph.Some? && !row.cells[i].glyph.value.certain
  }

  /** The last glyph among the first `n` cells. */
  function LastGlyph(cells: seq<Cell>, n: nat): int
    requires 0 < n <= |cells|
  {
    if cells[n - 1].covered then n - 2 else n - 1
  }

  /** The row's place as it is painted. */
  function PlaceOf(rows: nat, above: nat, index: nat): nat
    requires index >= above && rows >= 1
  {
    if index + 1 >= above + rows then rows - 1 else index - above
  }

  lemma OnPlace(t: Term, above: nat, base: seq<Row>, cur: Row)
    requires On(t, above, base, cur)
    ensures t.grid.row == PlaceOf(t.rows, above, |base|)
  {
  }

  lemma RanPen(t: Term, pen: Attributes, want: Attributes)
    requires Good(t) && t.pen == pen
    ensures Ran(t, PenTo(pen, want)) == t.(pen := want)
  {
    if pen != want { RanOne(t, [], Op.Pen(want)); }
  }

  lemma RanCup(t: Term, moved: bool, at: Option<nat>, col: nat)
    requires Good(t) && (moved && at.Some? ==> Moved(t, at.value, col) == t)
    ensures Ran(t, CupTo(moved, at, col)) == t
  {
    if moved && at.Some? { RanOne(t, [], Cup(at.value, col)); }
  }

  /** What one more cell's bytes do. */
  lemma PartRuns(t: Term, cells: seq<Cell>, n: nat, at: Option<nat>)
    requires Good(t) && 0 < n <= |cells| && !cells[n - 1].covered
    requires var p := RowPart(cells, n - 1, at, t.pen);
             var before := Ran(t, p.ops);
             before.pen == p.pen && (p.moved && at.Some? ==> Moved(before, at.value, n - 1) == before)
             && Good(before.(pen := cells[n - 1].attributes))
    ensures var p := RowPart(cells, n - 1, at, t.pen);
            Ran(t, RowPart(cells, n, at, t.pen).ops) ==
            Printed(Ran(t, p.ops).(pen := cells[n - 1].attributes), GlyphOf(cells[n - 1]))
  {
    hide Good, Printed, Do;
    var p, cell := RowPart(cells, n - 1, at, t.pen), cells[n - 1];
    var before := Ran(t, p.ops);
    RanCup(before, p.moved, at, n - 1);
    RanPen(before, p.pen, cell.attributes);
    RanMore(t, p.ops, CupTo(p.moved, at, n - 1));
    RanMore(t, p.ops + CupTo(p.moved, at, n - 1), PenTo(p.pen, cell.attributes));
    RanOne(t, p.ops + CupTo(p.moved, at, n - 1) + PenTo(p.pen, cell.attributes), Print(GlyphOf(cell)));
    PrintDo(before.(pen := cell.attributes), GlyphOf(cell));
  }

  /** A row painted from where it is to be: its cells so far, and only they. */
  lemma {:induction false} RowPaints(t: Term, above: nat, base: seq<Row>, cur: Row, from: From, row: Row, n: nat, at: Option<nat>)
    requires Stands(t, above, base, cur, from) && GoodRow(row, t.cols) && 0 < n <= Last(row)
    requires MovesIn(row) && at.Some? ==> at.value == PlaceOf(t.rows, above, |Base(base, cur, from)|)
    ensures var p := RowPart(row.cells, n, at, t.pen);
            var r := Ran(t, p.ops);
            && Within(r, above, Base(base, cur, from), row.cells, n) && r.pen == p.pen && SameElse(t, r)
            && (p.moved ==> Moves(row, LastGlyph(row.cells, n)))
  {
    hide GoodRow, Painted, Printed, Do, Tape, PenTo, CupTo, Within, Stands, On, MovesIn;
    StandsFine(t, above, base, cur, from);
    GoodCells(row, t.cols);
    if n == 1 {
      FirstUncovered(row.cells, t.cols);
      PennedOn(t, row.cells[0].attributes, above, base, cur, from, row.cells, 0);
      NothingRan(t, row.cells, at);
      PartRuns(t, row.cells, n, at);
      PrintFirst(t.(pen := row.cells[0].attributes), above, base, cur, from, row.cells);
    } else {
      RowPaints(t, above, base, cur, from, row, n - 1, at);
      if row.cells[n - 1].covered {
        HalfPaints(Ran(t, RowPart(row.cells, n - 1, at, t.pen).ops), above, Base(base, cur, from), row, n);
      } else {
        CellPaints(t, above, base, cur, from, row, n, at);
      }
    }
  }

  lemma StandsFine(t: Term, above: nat, base: seq<Row>, cur: Row, from: From)
    requires Stands(t, above, base, cur, from)
    ensures Good(t) && above <= |Base(base, cur, from)|
  {
  }

  lemma GoodCells(row: Row, cols: nat)
    requires GoodRow(row, cols)
    ensures GoodRow(Row(row.cells, false), cols)
  {
    forall i | 0 <= i < cols ensures GoodAt(Row(row.cells, false).cells, i) { assert GoodAt(row.cells, i); }
  }

  lemma NothingRan(t: Term, cells: seq<Cell>, at: Option<nat>)
    requires Good(t)
    ensures Ran(t, RowPart(cells, 0, at, t.pen).ops) == t && RowPart(cells, 0, at, t.pen).pen == t.pen
    ensures !RowPart(cells, 0, at, t.pen).moved
  {
  }

  /** A wide glyph's right half is painted with it. */
  lemma HalfPaints(t: Term, above: nat, base: seq<Row>, row: Row, n: nat)
    requires GoodRow(row, t.cols) && 1 < n <= |row.cells| && row.cells[n - 1].covered
    requires Within(t, above, base, row.cells, n - 1)
    ensures Within(t, above, base, row.cells, n)
    ensures LastGlyph(row.cells, n - 1) == LastGlyph(row.cells, n) == n - 2
  {
    hide On, Painted;
    assert GoodAt(row.cells, n - 1) && GoodAt(row.cells, n - 2);
    if n < t.cols { assert GoodAt(row.cells, n); }
  }

  lemma CellPaints(t: Term, above: nat, base: seq<Row>, cur: Row, from: From, row: Row, n: nat, at: Option<nat>)
    requires Good(t) && GoodRow(row, t.cols) && 1 < n <= Last(row) && above <= |Base(base, cur, from)|
    requires !row.cells[n - 1].covered
    requires MovesIn(row) && at.Some? ==> at.value == PlaceOf(t.rows, above, |Base(base, cur, from)|)
    requires var p := RowPart(row.cells, n - 1, at, t.pen);
             var r := Ran(t, p.ops);
             && Within(r, above, Base(base, cur, from), row.cells, n - 1) && r.pen == p.pen && SameElse(t, r)
             && (p.moved ==> Moves(row, LastGlyph(row.cells, n - 1)))
    ensures var p := RowPart(row.cells, n, at, t.pen);
            var r := Ran(t, p.ops);
            && Within(r, above, Base(base, cur, from), row.cells, n) && r.pen == p.pen && SameElse(t, r)
            && (p.moved ==> Moves(row, LastGlyph(row.cells, n)))
  {
    hide GoodRow, Painted, Printed, Do, Tape, PenTo, CupTo, Moved, MovesIn;
    var cell := row.cells[n - 1];
    var p := RowPart(row.cells, n - 1, at, t.pen);
    var before := Ran(t, p.ops);
    if p.moved && at.Some? {
      GlyphBefore(row, t.cols, n);
      OnPlace(before, above, Base(base, cur, from), Row(Painted(row.cells, Reach(row.cells, n - 1)), false));
      CupHere(before, above, Base(base, cur, from), row.cells, n - 1);
    }
    GoodCells(row, t.cols);
    PennedOn(before, cell.attributes, above, base, cur, from, row.cells, n - 1);
    PartRuns(t, row.cells, n, at);
    PrintHere(before.(pen := cell.attributes), above, Base(base, cur, from), row.cells, n - 1);
  }

  /** A glyph begins where the one before it ends. */
  lemma GlyphBefore(row: Row, cols: nat, n: nat)
    requires GoodRow(row, cols) && 1 < n <= cols && !row.cells[n - 1].covered
    ensures LastGlyph(row.cells, n - 1) >= 0
    ensures LastGlyph(row.cells, n - 1) + Width(row.cells[LastGlyph(row.cells, n - 1)]) == n - 1
    ensures n <= Last(row) && Moves(row, LastGlyph(row.cells, n - 1)) ==> MovesIn(row)
  {
    assert GoodAt(row.cells, n - 2);
    if n > 2 { assert GoodAt(row.cells, n - 3); }
  }

  lemma PrintDo(t: Term, glyph: Glyph)
    requires Good(t)
    ensures Do(t, Print(glyph)) == Printed(t, glyph)
  {
  }

  lemma PennedOn(t: Term, pen: Attributes, above: nat, base: seq<Row>, cur: Row, from: From, cells: seq<Cell>, n: nat)
    requires Good(t)
    ensures Stands(t, above, base, cur, from) ==> Stands(t.(pen := pen), above, base, cur, from)
    ensures 0 < n < |cells| && Within(t, above, Base(base, cur, from), cells, n) ==>
              Within(t.(pen := pen), above, Base(base, cur, from), cells, n)
    ensures SameElse(t, t.(pen := pen)) && Good(t.(pen := pen))
  {
    hide GoodRow, Painted;
  }
}
