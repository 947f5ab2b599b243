/** The rows of a screen come out otherwise when a soft wrap is followed by nothing, or a row's place
    is made sure of while history is above it: then the terminal does not show them. */
module RedrawFails {
  import opened Bytes
  import opened Terminal
  import opened Redraw
  import opened RedrawLines

  /** A terminal rows are painted on: no region, no mode but the first ones. */
  predicate Plainly(t: Term) {
    Good(t) && t.modes == FRESH_MODES && t.top == 0 && t.bottom == t.rows - 1
  }

  /** How many rows go on in the next. */
  function Flags(rows: seq<Row>): nat {
    if rows == [] then 0 else Flags(rows[..|rows| - 1]) + if rows[|rows| - 1].wrapped then 1 else 0
  }

  lemma {:induction false} FlagsMore(a: seq<Row>, b: seq<Row>)
    ensures Flags(a + b) == Flags(a) + Flags(b)
    decreases |b|
  {
    if b == [] {
      assert a + b == a;
    } else {
      assert (a + b)[..|a + b| - 1] == a + b[..|b| - 1];
      FlagsMore(a, b[..|b| - 1]);
    }
  }

  lemma FlagsOne(row: Row)
    ensures Flags([row]) == if row.wrapped then 1 else 0
  {
    assert [row][..0] == [];
  }

  lemma FlagsAt(rows: seq<Row>, i: nat, row: Row)
    requires i < |rows|
    ensures Flags(rows[i := row]) <= Flags(rows) + if row.wrapped && !rows[i].wrapped then 1 else 0
    ensures row.wrapped == rows[i].wrapped ==> Flags(rows[i := row]) == Flags(rows)
  {
    var a, b := rows[..i], rows[i + 1..];
    assert rows == a + [rows[i]] + b && rows[i := row] == a + [row] + b;
    FlagsMore(a + [rows[i]], b);
    FlagsMore(a + [row], b);
    FlagsMore(a, [rows[i]]);
    FlagsMore(a, [row]);
    FlagsOne(row);
    FlagsOne(rows[i]);
  }

  lemma {:induction false} FlagsAlike(a: seq<Row>, b: seq<Row>)
    requires AlikeRows(a, b)
    ensures Flags(a) == Flags(b)
    decreases |a|
  {
    if a != [] {
      assert AlikeRow(a[|a| - 1], b[|b| - 1]);
      FlagsAlike(a[..|a| - 1], b[..|b| - 1]);
    }
  }

  // ---- where the cursor goes -----------------------------------------------------------------------------------

  /** A place on the screen, with so many lines in all. */
  datatype Place = Place(row: nat, count: nat)

  function Here(t: Term): Place {
    Place(t.grid.row, |t.grid.lines|)
  }

  function Below(p: Place, rows: nat): Place
    requires rows >= 1
  {
    if p.row == rows - 1 then p.(count := p.count + 1) else p.(row := p.row + 1)
  }

  /** Where the next glyph lands. */
  function Lands(t: Term): Place
    requires t.rows >= 1
  {
    if t.grid.pending then Below(Here(t), t.rows) else Here(t)
  }

  lemma DownPlace(t: Term)
    requires Plainly(t)
    ensures Plainly(Down(t)) && Here(Down(t)) == Below(Here(t), t.rows) && SameElse(t, Down(t)) && Down(t).pen == t.pen
    ensures Flags(Down(t).grid.lines) == Flags(t.grid.lines)
  {
    DownGood(t);
    FlagsMore(t.grid.lines, [BlankRow(t.cols)]);
    FlagsOne(BlankRow(t.cols));
  }

  lemma WrapPlace(t: Term)
    requires Plainly(t)
    ensures var w := Wrapped(t);
            && Plainly(w) && Here(w) == Below(Here(t), t.rows) && w.grid.col == 0 && !w.grid.pending
            && SameElse(t, w) && w.pen == t.pen && Flags(w.grid.lines) <= Flags(t.grid.lines) + 1
  {
    var line := t.grid.lines[LineOf(t)];
    RowKept(t, line);
    OnLineGood(t, line.(wrapped := true));
    var marked := OnLine(t, line.(wrapped := true));
    FlagsAt(t.grid.lines, LineOf(t), line.(wrapped := true));
    DownPlace(marked);
  }

  /** A glyph printed where there is room for it: the cursor past it, having gone to the next line if it waited to. */
  lemma PrintPlace(t: Term, glyph: Glyph)
    requires Plainly(t) && (glyph.wide && !t.grid.pending ==> t.grid.col + 1 < t.cols)
    ensures var r := Printed(t, glyph);
            var col := if t.grid.pending then 0 else t.grid.col;
            && Plainly(r) && Here(r) == Lands(t) && SameElse(t, r) && r.pen == t.pen
            && Stopped(r, col + if glyph.wide then 2 else 1)
            && Flags(r.grid.lines) <= Flags(t.grid.lines) + if t.grid.pending then 1 else 0
  {
    hide Put, GoodAt, Wrapped, Flags;
    PrintedGood(t, glyph);
    if t.grid.pending { WrapPlace(t); }
    var p := Placed(t, glyph);
    var line := p.grid.lines[LineOf(p)];
    FlagsAt(p.grid.lines, LineOf(p), line.(cells := Put(line.cells, p.grid.col, glyph, p.pen)));
  }

  /** Whether something was made sure of among the first `n` cells. */
  predicate MovedBy(row: Row, n: nat) {
    exists i :: 0 <= i < |row.cells| && Moves(row, i) && i + Width(row.cells[i]) < n
  }

  /** One more cell makes sure of its place if it is a glyph, and the last glyph before it is not certain. */
  lemma MovedMore(row: Row, cols: nat, n: nat)
    requires GoodRow(row, cols) && 1 < n <= cols
    ensures row.cells[n - 1].covered ==> (MovedBy(row, n) <==> MovedBy(row, n - 1))
    ensures row.cells[n - 1].covered ==> LastGlyph(row.cells, n) == LastGlyph(row.cells, n - 1)
    ensures row.cells[n - 1].covered ==> Reach(row.cells, n) == Reach(row.cells, n - 1)
    ensures !row.cells[n - 1].covered ==>
              (MovedBy(row, n) <==> MovedBy(row, n - 1) || Moves(row, LastGlyph(row.cells, n - 1)))
  {
    assert GoodAt(row.cells, n - 1) && GoodAt(row.cells, n - 2);
    if n > 2 { assert GoodAt(row.cells, n - 3); }
    if n < cols { assert GoodAt(row.cells, n); }
    var g := LastGlyph(row.cells, n - 1);
    if !row.cells[n - 1].covered {
      GlyphBefore(row, cols, n);
      if Moves(row, g) { assert MovedBy(row, n); }
    }
    if i :| 0 <= i < |row.cells| && Moves(row, i) && i + Width(row.cells[i]) == n - 1 {
      assert GoodAt(row.cells, i);
      assert i == n - 2 || i == n - 3;
    }
  }

  /** A row painted from anywhere: its columns come one after another, on the line it begins on, or from
      some glyph on the line it is moved to. */
  predicate Drifted(t: Term, r: Term, row: Row, n: nat, at: Option<nat>) {
    && Plainly(r) && SameElse(t, r)
    && n <= |row.cells| && Stopped(r, Reach(row.cells, n))
    && Here(r) == (if MovedBy(row, n) && at.Some? then Lands(t).(row := at.value) else Lands(t))
    && Flags(r.grid.lines) <= Flags(t.grid.lines) + if t.grid.pending then 1 else 0
  }

  lemma {:induction false} RowDrifts(t: Term, row: Row, n: nat, at: Option<nat>)
    requires Plainly(t) && GoodRow(row, t.cols) && 0 < n <= |row.cells| && (t.grid.pending || t.grid.col == 0)
    requires at.Some? ==> at.value < t.rows
    ensures var p := RowPart(row.cells, n, at, t.pen);
            var r := Ran(t, p.ops);
            Drifted(t, r, row, n, at) && r.pen == p.pen && (p.moved <==> Moves(row, LastGlyph(row.cells, n)))
  {
    hide Good, GoodGrid, Printed, Flags, Ran, MovedBy, GoodRow;
    GoodCells(row, t.cols);
    if n == 1 {
      FirstDrifts(t, row, at);
    } else {
      RowDrifts(t, row, n - 1, at);
      RowWide(row, t.cols);
      MovedMore(row, t.cols, n);
      if !row.cells[n - 1].covered { CellDrifts(t, row, n, at); }
    }
  }

  lemma RowWide(row: Row, cols: nat)
    requires GoodRow(row, cols)
    ensures |row.cells| == cols
  {
  }

  /** The first glyph lands where the terminal is, wrapping if it waited to. */
  lemma FirstDrifts(t: Term, row: Row, at: Option<nat>)
    requires Plainly(t) && GoodRow(row, t.cols) && row.cells != [] && (t.grid.pending || t.grid.col == 0)
    ensures var p := RowPart(row.cells, 1, at, t.pen);
            var r := Ran(t, p.ops);
            Drifted(t, r, row, 1, at) && r.pen == p.pen && (p.moved <==> Moves(row, LastGlyph(row.cells, 1)))
  {
    hide GoodGrid, Printed, Flags, Ran;
    var cell := row.cells[0];
    assert GoodAt(row.cells, 0);
    GoodCells(row, t.cols);
    ReachEnds(row.cells, t.cols, 1);
    NoOps(t);
    PennedPlainly(t, cell.attributes);
    assert !MovedBy(row, 1);
    CellRuns(t, row.cells, 1, at);
    PrintPlace(t.(pen := cell.attributes), GlyphOf(cell));
  }

  lemma PennedPlainly(t: Term, pen: Attributes)
    requires Plainly(t)
    ensures Plainly(t.(pen := pen))
  {
  }

  /** One more cell's bytes: a move if the glyph before is not certain, the pen, the glyph. */
  lemma CellRuns(t: Term, cells: seq<Cell>, n: nat, at: Option<nat>)
    requires Good(t) && 0 < n <= |cells| && !cells[n - 1].covered
    requires Ran(t, RowPart(cells, n - 1, at, t.pen).ops).pen == RowPart(cells, n - 1, at, t.pen).pen
    ensures var p := RowPart(cells, n - 1, at, t.pen);
            var before := Ran(t, p.ops);
            var there := if p.moved && at.Some? then Moved(before, at.value, n - 1) else before;
            && Good(there.(pen := cells[n - 1].attributes))
            && Ran(t, RowPart(cells, n, at, t.pen).ops) == Printed(there.(pen := cells[n - 1].attributes), GlyphOf(cells[n - 1]))
  {
    hide Printed, Good, Ran, Do, Moved;
    var p, cell := RowPart(cells, n - 1, at, t.pen), cells[n - 1];
    var before := Ran(t, p.ops);
    var cup := CupTo(p.moved, at, n - 1);
    CupRuns(before, p.moved, at, n - 1);
    var there := Ran(before, cup);
    RanPen(there, p.pen, cell.attributes);
    PenGood(there, cell.attributes);
    RanMore(t, p.ops, cup);
    RanMore(t, p.ops + cup, PenTo(p.pen, cell.attributes));
    RanOne(t, p.ops + cup + PenTo(p.pen, cell.attributes), Print(GlyphOf(cell)));
    PrintDo(there.(pen := cell.attributes), GlyphOf(cell));
  }

  lemma CupRuns(t: Term, moved: bool, at: Option<nat>, col: nat)
    requires Good(t)
    ensures Ran(t, CupTo(moved, at, col)) == if moved && at.Some? then Moved(t, at.value, col) else t
    ensures Ran(t, CupTo(moved, at, col)).pen == t.pen
  {
    hide Good;
    if moved && at.Some? {
      RanOne(t, [], Cup(at.value, col));
      NoOps(t);
    }
  }

  lemma PenGood(t: Term, pen: Attributes)
    requires Good(t)
    ensures Good(t.(pen := pen))
  {
  }

  lemma CellDrifts(t: Term, row: Row, n: nat, at: Option<nat>)
    requires Plainly(t) && GoodRow(row, t.cols) && 1 < n <= |row.cells| && !row.cells[n - 1].covered
    requires at.Some? ==> at.value < t.rows
    requires var p := RowPart(row.cells, n - 1, at, t.pen);
             var r := Ran(t, p.ops);
             Drifted(t, r, row, n - 1, at) && r.pen == p.pen && (p.moved <==> Moves(row, LastGlyph(row.cells, n - 1)))
    ensures var p := RowPart(row.cells, n, at, t.pen);
            var r := Ran(t, p.ops);
            Drifted(t, r, row, n, at) && r.pen == p.pen && (p.moved <==> Moves(row, LastGlyph(row.cells, n)))
  {
    hide Printed, Flags, GoodGrid, Ran, MovedBy, GoodRow;
    var cell := row.cells[n - 1];
    RowWide(row, t.cols);
    MovedMore(row, t.cols, n);
    GoodCells(row, t.cols);
    ReachEnds(row.cells, t.cols, n);
    HasRoom(row, t.cols, n);
    var p := RowPart(row.cells, n - 1, at, t.pen);
    var before := Ran(t, p.ops);
    CellRuns(t, row.cells, n, at);
    var there := if p.moved && at.Some? then Moved(before, at.value, n - 1) else before;
    assert there.grid.lines == before.grid.lines && there.grid.col == n - 1 && !there.grid.pending;
    PrintPlace(there.(pen := cell.attributes), GlyphOf(cell));
  }

  lemma HasRoom(row: Row, cols: nat, n: nat)
    requires GoodRow(row, cols) && 0 < n <= cols
    ensures GlyphOf(row.cells[n - 1]).wide <==> Wide(row.cells[n - 1])
    ensures Wide(row.cells[n - 1]) ==> n < cols
  {
    assert GoodAt(row.cells, n - 1);
  }

  // ---- all the lines -------------------------------------------------------------------------------------------

  /** How many of the first `n` lines are wrapped to by the one before. */
  function Paired(lines: seq<Row>, n: nat): nat
    requires n <= |lines|
  {
    if n <= 1 then 0
    else Paired(lines, n - 1) + if lines[n - 2].wrapped && Last(lines[n - 1]) > 0 then 1 else 0
  }

  /** The terminal with `n` of the lines painted, right or not. */
  predicate Course(t: Term, r: Term, flags: nat, lines: seq<Row>, n: nat) {
    && n <= |lines| && Plainly(r) && SameElse(t, r) && Flags(r.grid.lines) <= flags + Paired(lines, n)
    && (n < |lines| ==> r.grid.pending || r.grid.col == 0)
    && (n < |lines| && r.grid.pending ==> n > 0 && lines[n - 1].wrapped)
  }

  /** What painting line `n` comes to, break and all. */
  lemma LineRuns(t: Term, lines: seq<Row>, n: nat)
    requires Good(t) && n < |lines|
    requires Ran(t, LinesPart(lines, n, t.rows, t.cols, t.pen).ops).pen == LinesPart(lines, n, t.rows, t.cols, t.pen).pen
    ensures var p := LinesPart(lines, n, t.rows, t.cols, t.pen);
            var before := Ran(t, p.ops);
            var part := RowPart(lines[n].cells, Last(lines[n]), PlaceAt(n, |lines|, t.rows), p.pen);
            var row := Ran(before, part.ops);
            Ran(t, LinesPart(lines, n + 1, t.rows, t.cols, t.pen).ops) ==
            if n + 1 < |lines| && !(lines[n].wrapped && Filled(lines[n], t.cols))
            then Ran(row, PenTo(part.pen, PLAIN) + [CrLf]) else row
  {
    hide Good, Ran, RowPart, Filled;
    var p := LinesPart(lines, n, t.rows, t.cols, t.pen);
    var part := RowPart(lines[n].cells, Last(lines[n]), PlaceAt(n, |lines|, t.rows), p.pen);
    var end := PenTo(part.pen, PLAIN) + [CrLf];
    RanMore(t, p.ops, part.ops);
    RanMore(t, p.ops + part.ops, end);
    assert p.ops + part.ops + end == p.ops + part.ops + PenTo(part.pen, PLAIN) + [CrLf];
  }

  lemma BreakPlace(t: Term, pen: Attributes)
    requires Plainly(t) && t.pen == pen
    ensures var r := Ran(t, PenTo(pen, PLAIN) + [CrLf]);
            && Plainly(r) && SameElse(t, r) && r.pen == PLAIN && r.grid.col == 0 && !r.grid.pending
            && Here(r) == Below(Here(t), t.rows) && Flags(r.grid.lines) == Flags(t.grid.lines)
  {
    hide GoodGrid, Down, Flags;
    RanPen(t, pen, PLAIN);
    RanOne(t, PenTo(pen, PLAIN), CrLf);
    DownPlace(t.(pen := PLAIN));
    assert Do(t.(pen := PLAIN), CrLf) == Down(t.(pen := PLAIN)).(grid := Down(t.(pen := PLAIN)).grid.(col := 0, pending := false));
  }

  /** A row painted, or none of it. */
  predicate RowCame(t: Term, r: Term, row: Row, at: Option<nat>) {
    if Last(row) > 0 then Drifted(t, r, row, Last(row), at) else r == t
  }

  lemma RowComes(t: Term, row: Row, at: Option<nat>)
    requires Plainly(t) && GoodRow(row, t.cols) && (t.grid.pending || t.grid.col == 0) && (at.Some? ==> at.value < t.rows)
    ensures var p := RowPart(row.cells, Last(row), at, t.pen);
            RowCame(t, Ran(t, p.ops), row, at) && Ran(t, p.ops).pen == p.pen
  {
    hide Good, Drifted;
    if Last(row) > 0 { RowDrifts(t, row, Last(row), at); } else { NoOps(t); }
  }

  /** What one more line keeps. */
  lemma CourseMore(t: Term, flags: nat, lines: seq<Row>, n: nat)
    requires Plainly(t) && n < |lines| && GoodRows(lines, t.cols)
    requires var p := LinesPart(lines, n, t.rows, t.cols, t.pen);
             Course(t, Ran(t, p.ops), flags, lines, n) && Ran(t, p.ops).pen == p.pen
    ensures var p := LinesPart(lines, n + 1, t.rows, t.cols, t.pen);
            Course(t, Ran(t, p.ops), flags, lines, n + 1) && Ran(t, p.ops).pen == p.pen
  {
    hide GoodGrid, Ran, RowPart, Flags, Filled;
    var p := LinesPart(lines, n, t.rows, t.cols, t.pen);
    var before := Ran(t, p.ops);
    var row, at := lines[n], PlaceAt(n, |lines|, t.rows);
    LineGood(lines, t.cols, n);
    FilledIs(row, t.cols);
    RowComes(before, row, at);
    LineRuns(t, lines, n);
    var part := RowPart(row.cells, Last(row), at, p.pen);
    var r := Ran(before, part.ops);
    if n + 1 < |lines| && !(row.wrapped && Filled(row, t.cols)) { BreakPlace(r, part.pen); }
  }

  lemma {:induction false} CourseAll(t: Term, above: seq<Row>, lines: seq<Row>, n: nat)
    requires Stands(t, |above|, above, BlankRow(t.cols), Start) && n <= |lines| && GoodRows(lines, t.cols)
    ensures var p := LinesPart(lines, n, t.rows, t.cols, t.pen);
            Plainly(t) && Course(t, Ran(t, p.ops), Flags(above), lines, n) && Ran(t, p.ops).pen == p.pen
    decreases n
  {
    hide Good, Ran, Course, Plainly, Flags, Stands, GoodRows;
    StandsPlain(t, above, lines);
    if n == 0 { NoOps(t); } else {
      CourseAll(t, above, lines, n - 1);
      CourseMore(t, Flags(above), lines, n - 1);
    }
  }

  lemma StandsPlain(t: Term, above: seq<Row>, lines: seq<Row>)
    requires Stands(t, |above|, above, BlankRow(t.cols), Start)
    ensures Plainly(t) && Course(t, t, Flags(above), lines, 0)
    ensures Flags(t.grid.lines) == Flags(above)
  {
    var k := |t.grid.lines| - |above| - 1;
    FlagsMore(above + [BlankRow(t.cols)], BlankRows(k, t.cols));
    FlagsMore(above, [BlankRow(t.cols)]);
    FlagsOne(BlankRow(t.cols));
    NoFlags(k, t.cols);
  }

  lemma {:induction false} NoFlags(n: nat, cols: nat)
    ensures Flags(BlankRows(n, cols)) == 0
  {
    if n > 0 {
      assert BlankRows(n, cols)[..n - 1] == BlankRows(n - 1, cols);
      NoFlags(n - 1, cols);
    }
  }

  // ---- soft wraps lost -----------------------------------------------------------------------------------------

  lemma {:induction false} PairedMost(lines: seq<Row>, n: nat)
    requires 0 < n <= |lines|
    ensures Paired(lines, n) <= Flags(lines[..n - 1])
    ensures Paired(lines, n) == Flags(lines[..n - 1]) ==> forall i :: 0 <= i < n - 1 ==> SoftAt(lines, i)
  {
    if n > 1 {
      PairedMost(lines, n - 1);
      assert lines[..n - 1][..n - 2] == lines[..n - 2];
    }
  }

  /** As many wraps as there should be are as they should be. */
  lemma AllPaired(lines: seq<Row>)
    requires Flags(lines) <= Paired(lines, |lines|)
    ensures Soft(lines)
  {
    if lines != [] { PairedMost(lines, |lines|); }
  }

  // ---- rows out of place ---------------------------------------------------------------------------------------

  predicate InPlace(p: Place, above: nat, rows: nat, n: nat) {
    rows >= 1 && p == Place(PlaceOf(rows, above, above + n), Total(above, above + n, rows))
  }

  /** Once a row's place was made sure of too early, the terminal scrolls too little. */
  predicate Lost(p: Place, above: nat, rows: nat, count: nat, n: nat) {
    p.count < above + count && n + rows >= count && p.row + count == n + rows
  }

  ghost predicate StrayBefore(lines: seq<Row>, rows: nat, n: nat) {
    exists i :: i < n && Strays(lines, rows, i)
  }

  ghost predicate Where(p: Place, above: nat, lines: seq<Row>, rows: nat, n: nat) {
    if StrayBefore(lines, rows, n) then Lost(p, above, rows, |lines|, n) else InPlace(p, above, rows, n)
  }

  /** Where line `n` ends, whether its place was made sure of or not. */
  ghost predicate RowWhere(p: Place, above: nat, lines: seq<Row>, rows: nat, n: nat) {
    if StrayBefore(lines, rows, n + 1) then Lost(p, above, rows, |lines|, n) else InPlace(p, above, rows, n)
  }

  lemma StrayMore(lines: seq<Row>, rows: nat, n: nat)
    ensures StrayBefore(lines, rows, n + 1) <==> StrayBefore(lines, rows, n) || Strays(lines, rows, n)
  {
  }

  lemma WhereEnds(p: Place, above: nat, lines: seq<Row>, rows: nat, n: nat)
    requires n < |lines| && |lines| >= rows >= 1 && Where(p, above, lines, rows, n)
    ensures var at := PlaceAt(n, |lines|, rows);
            RowWhere(if MovesIn(lines[n]) && at.Some? then p.(row := at.value) else p, above, lines, rows, n)
  {
    hide MovesIn;
    StrayMore(lines, rows, n);
  }

  lemma WhereNext(p: Place, above: nat, lines: seq<Row>, rows: nat, n: nat)
    requires n + 1 < |lines| && |lines| >= rows >= 1 && RowWhere(p, above, lines, rows, n)
    ensures Where(Below(p, rows), above, lines, rows, n + 1)
  {
    hide Strays;
  }

  lemma MovedIs(row: Row)
    ensures MovedBy(row, Last(row)) <==> MovesIn(row)
  {
  }

  /** Where line `n` lands, and ends. */
  lemma {:induction false} LinesWhere(t: Term, above: seq<Row>, lines: seq<Row>, n: nat)
    requires Stands(t, |above|, above, BlankRow(t.cols), Start) && GoodRows(lines, t.cols)
    requires |lines| >= t.rows && n < |lines| && Soft(lines)
    ensures Where(Lands(Ran(t, LinesPart(lines, n, t.rows, t.cols, t.pen).ops)), |above|, lines, t.rows, n)
    ensures RowWhere(RowEnd(t, lines, n), |above|, lines, t.rows, n)
    decreases n
  {
    hide Good, Ran, RowPart, Where, RowWhere, Soft, Course;
    if n == 0 {
      NoOps(t);
      FirstWhere(t, above, lines);
    } else {
      LinesWhere(t, above, lines, n - 1);
      WhereNext(RowEnd(t, lines, n - 1), |above|, lines, t.rows, n - 1);
      LandsBelow(t, above, lines, n - 1);
    }
    EndsAt(t, above, lines, n);
    WhereEnds(Lands(Ran(t, LinesPart(lines, n, t.rows, t.cols, t.pen).ops)), |above|, lines, t.rows, n);
  }

  /** Where the cursor is once line `n` is painted, its break to come. */
  function RowEnd(t: Term, lines: seq<Row>, n: nat): Place
    requires Good(t) && n < |lines|
  {
    var p := LinesPart(lines, n, t.rows, t.cols, t.pen);
    Here(Ran(Ran(t, p.ops), RowPart(lines[n].cells, Last(lines[n]), PlaceAt(n, |lines|, t.rows), p.pen).ops))
  }

  lemma FirstWhere(t: Term, above: seq<Row>, lines: seq<Row>)
    requires Stands(t, |above|, above, BlankRow(t.cols), Start)
    ensures Where(Lands(t), |above|, lines, t.rows, 0)
  {
    OnPlace(t, |above|, above, BlankRow(t.cols));
  }

  lemma EndsAt(t: Term, above: seq<Row>, lines: seq<Row>, n: nat)
    requires Stands(t, |above|, above, BlankRow(t.cols), Start) && GoodRows(lines, t.cols)
    requires |lines| >= t.rows && n < |lines| && Soft(lines)
    ensures var p, at := Lands(Ran(t, LinesPart(lines, n, t.rows, t.cols, t.pen).ops)), PlaceAt(n, |lines|, t.rows);
            RowEnd(t, lines, n) == if MovesIn(lines[n]) && at.Some? then p.(row := at.value) else p
  {
    hide Ran, RowPart, Soft, MovesIn;
    CourseAll(t, above, lines, n);
    var before := Ran(t, LinesPart(lines, n, t.rows, t.cols, t.pen).ops);
    LineGood(lines, t.cols, n);
    RowComes(before, lines[n], PlaceAt(n, |lines|, t.rows));
    MovedIs(lines[n]);
    if Last(lines[n]) == 0 {
      NoneMoves(lines[n]);
      if n > 0 { NothingAfterHard(lines, n); }
    }
  }

  lemma NoneMoves(row: Row)
    requires Last(row) == 0
    ensures !MovesIn(row)
  {
  }

  lemma LandsBelow(t: Term, above: seq<Row>, lines: seq<Row>, n: nat)
    requires Stands(t, |above|, above, BlankRow(t.cols), Start) && GoodRows(lines, t.cols) && n + 1 < |lines|
    ensures Lands(Ran(t, LinesPart(lines, n + 1, t.rows, t.cols, t.pen).ops)) == Below(RowEnd(t, lines, n), t.rows)
  {
    hide GoodGrid, Ran, RowPart;
    CourseAll(t, above, lines, n);
    var p := LinesPart(lines, n, t.rows, t.cols, t.pen);
    var before := Ran(t, p.ops);
    var row, at := lines[n], PlaceAt(n, |lines|, t.rows);
    LineGood(lines, t.cols, n);
    FilledIs(row, t.cols);
    RowComes(before, row, at);
    LineRuns(t, lines, n);
    var part := RowPart(row.cells, Last(row), at, p.pen);
    var r := Ran(before, part.ops);
    if !(row.wrapped && Filled(row, t.cols)) { BreakPlace(r, part.pen); }
  }

  /** Painted, the lines are as many, and as many go on in the next, only if each soft wrap is followed by
      something, and no row's place is made sure of while it is not at it. */
  lemma OnlyIf(t: Term, above: seq<Row>, lines: seq<Row>)
    requires Stands(t, |above|, above, BlankRow(t.cols), Start) && GoodRows(lines, t.cols) && |lines| >= t.rows >= 1
    requires var r := Ran(t, LinesPart(lines, |lines|, t.rows, t.cols, t.pen).ops);
             |r.grid.lines| == |above + lines| && Flags(r.grid.lines) == Flags(above + lines)
    ensures Soft(lines) && Steady(lines, t.rows)
  {
    hide Good, Ran, RowPart, Soft, RowWhere, Flags;
    var r := Ran(t, LinesPart(lines, |lines|, t.rows, t.cols, t.pen).ops);
    CourseAll(t, above, lines, |lines|);
    FlagsMore(above, lines);
    AllPaired(lines);
    LinesWhere(t, above, lines, |lines| - 1);
    LastEnd(t, above, lines);
    NoneStray(RowEnd(t, lines, |lines| - 1), |above|, lines, t.rows);
  }

  lemma LastEnd(t: Term, above: seq<Row>, lines: seq<Row>)
    requires Stands(t, |above|, above, BlankRow(t.cols), Start) && GoodRows(lines, t.cols) && lines != []
    ensures Here(Ran(t, LinesPart(lines, |lines|, t.rows, t.cols, t.pen).ops)) == RowEnd(t, lines, |lines| - 1)
  {
    hide Good, Ran, RowPart;
    CourseAll(t, above, lines, |lines| - 1);
    LineRuns(t, lines, |lines| - 1);
  }

  lemma NoneStray(p: Place, above: nat, lines: seq<Row>, rows: nat)
    requires lines != [] && RowWhere(p, above, lines, rows, |lines| - 1) && p.count == above + |lines|
    ensures Steady(lines, rows)
  {
    forall i ensures !Strays(lines, rows, i) {
      if Strays(lines, rows, i) { StrayHas(lines, rows, i); }
    }
  }

  lemma StrayHas(lines: seq<Row>, rows: nat, i: int)
    requires Strays(lines, rows, i)
    ensures StrayBefore(lines, rows, |lines|)
  {
  }
}
