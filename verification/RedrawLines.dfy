/** The rows of a screen painted one after another: exactly when they come out as they were. */
module RedrawLines {
  import opened Bytes
  import opened Terminal
  import opened Redraw

  // ---- the lines' bytes --------------------------------------------------------------------------------------

  /** The column past the last glyph among the first `n` cells. */
  function ColumnAfter(cells: seq<Cell>, n: nat): nat
    requires n <= |cells|
  {
    if n == 0 then 0
    else if cells[n - 1].covered then ColumnAfter(cells, n - 1)
    else n - 1 + if Wide(cells[n - 1]) then 2 else 1
  }

  /** Whether the row's last glyph leaves the cursor waiting to wrap. */
  predicate Filled(row: Row, cols: nat) {
    ColumnAfter(row.cells, Last(row)) >= cols
  }

  /** The place on the terminal of line `n` of `count`, if it is on the screen. */
  function PlaceAt(n: nat, count: nat, rows: nat): Option<nat> {
    if n + rows >= count then Some(n + rows - count) else None
  }

  datatype Lines_ = Lines_(ops: seq<Op>, pen: Attributes)

  /** What paints the first `n` of `lines`, with the breaks between them. */
  function LinesPart(lines: seq<Row>, n: nat, rows: nat, cols: nat, pen: Attributes): Lines_
    requires n <= |lines|
  {
    if n == 0 then Lines_([], pen)
    else
      var p := LinesPart(lines, n - 1, rows, cols, pen);
      var row := lines[n - 1];
      var part := RowPart(row.cells, Last(row), PlaceAt(n - 1, |lines|, rows), p.pen);
      if n < |lines| && !(row.wrapped && Filled(row, cols))
      then Lines_(p.ops + part.ops + PenTo(part.pen, PLAIN) + [CrLf], PLAIN)
      else Lines_(p.ops + part.ops, part.pen)
  }

  lemma FilledIs(row: Row, cols: nat)
    requires GoodRow(row, cols) && cols > 0
    ensures Filled(row, cols) <==> Reach(row.cells, Last(row)) == cols
  {
    hide GoodRow, Reach;
    GoodCells(row, cols);
    ColumnIs(row.cells, cols, Last(row));
  }

  lemma ColumnIs(cells: seq<Cell>, cols: nat, n: nat)
    requires GoodRow(Row(cells, false), cols) && n <= |cells| == cols
    ensures ColumnAfter(cells, n) == Reach(cells, n)
  {
    if n > 0 {
      assert GoodAt(cells, n - 1);
      ReachEnds(cells, cols, n);
      if cells[n - 1].covered { assert GoodAt(cells, n - 2); }
    } else {
      if cols > 0 { assert GoodAt(cells, 0); }
    }
  }

  // ---- when they come out as they were -----------------------------------------------------------------------

  /** Each line that goes on in the next is followed by one of which something is painted. */
  predicate Soft(lines: seq<Row>) {
    forall i :: 0 <= i < |lines| ==> SoftAt(lines, i)
  }

  predicate SoftAt(lines: seq<Row>, i: int)
    requires 0 <= i < |lines|
  {
    lines[i].wrapped ==> i + 1 < |lines| && Last(lines[i + 1]) > 0
  }

  /** A line whose place is made sure of while it is not at its place: history is above the screen, and
      it is not the last. */
  predicate Strays(lines: seq<Row>, rows: nat, i: int) {
    0 <= i < |lines| - 1 && |lines| > rows && i + rows >= |lines| && MovesIn(lines[i])
  }

  ghost predicate Steady(lines: seq<Row>, rows: nat) {
    forall i :: !Strays(lines, rows, i)
  }

  // ---- when they do --------------------------------------------------------------------------------------------

  /** The terminal with the lines so far painted, about to paint the next. */
  predicate Ready(t: Term, above: seq<Row>, lines: seq<Row>, n: nat, base: seq<Row>, cur: Row, from: From) {
    && n <= |lines| && Stands(t, |above|, base, cur, from)
    && AlikeRows(Base(base, cur, from), above + lines[..n])
    && (from.Brim? ==> n > 0 && lines[n - 1].wrapped)
  }

  lemma AlikeMore(a: seq<Row>, b: seq<Row>, x: Row, y: Row)
    requires AlikeRows(a, b) && AlikeRow(x, y)
    ensures AlikeRows(a + [x], b + [y])
  {
  }

  lemma TakeMore(above: seq<Row>, lines: seq<Row>, n: nat)
    requires n < |lines|
    ensures above + lines[..n + 1] == above + lines[..n] + [lines[n]]
  {
  }

  /** What the ops after a row do: on to the start of the next line. */
  lemma BreakRuns(t: Term, pen: Attributes, above: nat, base: seq<Row>, cur: Row)
    requires On(t, above, base, cur) && t.pen == pen
    ensures var r := Ran(t, PenTo(pen, PLAIN) + [CrLf]);
            Stands(r, above, base + [cur], BlankRow(t.cols), Start) && r.pen == PLAIN && SameElse(t, r)
  {
    hide GoodRow, Tape, BlankRow;
    var penned := t.(pen := PLAIN);
    RanPen(t, pen, PLAIN);
    RanOne(t, PenTo(pen, PLAIN), CrLf);
    PenOn(t, PLAIN, above, base, cur);
    OnDown(penned, above, base, cur);
    DownElse(penned);
    var down := Down(penned);
    assert Ran(t, PenTo(pen, PLAIN) + [CrLf]) == down.(grid := down.grid.(col := 0, pending := false));
  }

  lemma DownElse(t: Term)
    requires Good(t)
    ensures Down(t).pen == t.pen && SameElse(t, Down(t))
  {
  }

  lemma PenOn(t: Term, pen: Attributes, above: nat, base: seq<Row>, cur: Row)
    requires On(t, above, base, cur)
    ensures On(t.(pen := pen), above, base, cur)
  {
    hide GoodRow, Tape;
  }

  /** A row painted, from where the rows before it are. */
  lemma RowLands(t: Term, above: seq<Row>, lines: seq<Row>, n: nat, base: seq<Row>, cur: Row, from: From)
    returns (base': seq<Row>, cur': Row)
    requires n < |lines| && |lines| >= t.rows && GoodRows(lines, t.cols) && Soft(lines) && Steady(lines, t.rows)
    requires Ready(t, above, lines, n, base, cur, from)
    ensures var row := lines[n];
            var part := RowPart(row.cells, Last(row), PlaceAt(n, |lines|, t.rows), t.pen);
            var r := Ran(t, part.ops);
            && On(r, |above|, base', cur') && r.pen == part.pen && SameElse(t, r)
            && AlikeRows(base', above + lines[..n]) && AlikeRow(cur'.(wrapped := row.wrapped), row) && !cur'.wrapped
            && (row.wrapped ==> r.grid.pending && r.grid.col == t.cols - 1)
  {
    hide GoodRow, Tape, Painted, AlikeRow;
    var row := lines[n];
    assert GoodRow(row, t.cols);
    PaintedAlike(row, t.cols);
    if Last(row) > 0 {
      base' := Base(base, cur, from);
      cur' := Row(Painted(row.cells, Reach(row.cells, Last(row))), false);
      assert |base'| == |above| + n;
      if MovesIn(row) { assert !Strays(lines, t.rows, n); }
      RowPaints(t, |above|, base, cur, from, row, Last(row), PlaceAt(n, |lines|, t.rows));
    } else {
      if n > 0 { NothingAfterHard(lines, n); }
      base', cur' := base, cur;
      NothingPainted(row, t.cols);
    }
  }

  lemma NothingPainted(row: Row, cols: nat)
    requires GoodRow(row, cols) && cols > 0 && Last(row) == 0
    ensures Row(Painted(row.cells, Reach(row.cells, Last(row))), false) == BlankRow(cols)
  {
    hide Painted;
    assert GoodAt(row.cells, 0);
    PaintedNone(row.cells);
  }

  lemma NothingAfterHard(lines: seq<Row>, n: nat)
    requires Soft(lines) && 0 < n < |lines| && Last(lines[n]) == 0
    ensures !lines[n - 1].wrapped
  {
    assert SoftAt(lines, n - 1);
  }

  /** A line painted, with the break after it. */
  lemma LineLands(t: Term, above: seq<Row>, lines: seq<Row>, n: nat, base: seq<Row>, cur: Row, from: From, pen: Attributes)
    returns (base': seq<Row>, cur': Row, from': From)
    requires n + 1 < |lines| && |lines| >= t.rows && GoodRows(lines, t.cols) && Soft(lines) && Steady(lines, t.rows)
    requires Good(t)
    requires var r := Ran(t, LinesPart(lines, n, t.rows, t.cols, pen).ops);
             Ready(r, above, lines, n, base, cur, from) && r.pen == LinesPart(lines, n, t.rows, t.cols, pen).pen && SameElse(t, r)
    ensures var r := Ran(t, LinesPart(lines, n + 1, t.rows, t.cols, pen).ops);
            && Ready(r, above, lines, n + 1, base', cur', from')
            && r.pen == LinesPart(lines, n + 1, t.rows, t.cols, pen).pen && SameElse(t, r)
  {
    hide GoodRow, Tape, Painted, AlikeRow, On, AlikeRows, Ran, RowPart, PenTo, Soft, Steady, GoodRows;
    var p := LinesPart(lines, n, t.rows, t.cols, pen);
    var row := lines[n];
    var part := RowPart(row.cells, Last(row), PlaceAt(n, |lines|, t.rows), p.pen);
    var before := Ran(t, p.ops);
    base', cur' := RowLands(before, above, lines, n, base, cur, from);
    RanMore(t, p.ops, part.ops);
    TakeMore(above, lines, n);
    LineGood(lines, t.cols, n);
    FilledIs(row, t.cols);
    AlikeMore(base', above + lines[..n], cur'.(wrapped := row.wrapped), row);
    if row.wrapped && Filled(row, t.cols) {
      from' := Brim;
    } else {
      RanMore(t, p.ops + part.ops, PenTo(part.pen, PLAIN) + [CrLf]);
      assert p.ops + part.ops + (PenTo(part.pen, PLAIN) + [CrLf]) == p.ops + part.ops + PenTo(part.pen, PLAIN) + [CrLf];
      BreakRuns(Ran(before, part.ops), part.pen, |above|, base', cur');
      base', cur', from' := base' + [cur'], BlankRow(t.cols), Start;
    }
  }

  lemma LineGood(lines: seq<Row>, cols: nat, n: nat)
    requires GoodRows(lines, cols) && n < |lines|
    ensures GoodRow(lines[n], cols) && (lines[n].wrapped ==> Last(lines[n]) == cols)
  {
  }

  /** All the lines but the last painted, each with its break. */
  lemma {:induction false} LinesReady(t: Term, above: seq<Row>, lines: seq<Row>, n: nat)
    returns (base: seq<Row>, cur: Row, from: From)
    requires n < |lines| && |lines| >= t.rows && GoodRows(lines, t.cols) && Soft(lines) && Steady(lines, t.rows)
    requires Stands(t, |above|, above, BlankRow(t.cols), Start)
    ensures var r := Ran(t, LinesPart(lines, n, t.rows, t.cols, t.pen).ops);
            && Ready(r, above, lines, n, base, cur, from)
            && r.pen == LinesPart(lines, n, t.rows, t.cols, t.pen).pen && SameElse(t, r)
    decreases n
  {
    hide GoodRow, Tape, On, Ran, Soft, Steady, GoodRows;
    StandsGood(t, above);
    if n == 0 {
      base, cur, from := above, BlankRow(t.cols), Start;
      NoOps(t);
      AlikeSelf(above);
      assert above + lines[..0] == above;
    } else {
      base, cur, from := LinesReady(t, above, lines, n - 1);
      base, cur, from := LineLands(t, above, lines, n - 1, base, cur, from, t.pen);
    }
  }

  lemma StandsGood(t: Term, above: seq<Row>)
    requires Stands(t, |above|, above, BlankRow(t.cols), Start)
    ensures Good(t)
  {
  }

  lemma NoOps(t: Term)
    requires Good(t)
    ensures Ran(t, []) == t
  {
  }

  lemma AlikeSelf(rows: seq<Row>)
    ensures AlikeRows(rows, rows)
  {
  }

  /** The terminal shows `lines`, after `above`, and nothing else; the cursor is on the last. */
  predicate Shows(t: Term, above: seq<Row>, lines: seq<Row>) {
    AlikeRows(t.grid.lines, above + lines)
  }

  lemma OnAll(t: Term, above: nat, base: seq<Row>, cur: Row)
    requires On(t, above, base, cur) && |base| + 1 >= above + t.rows
    ensures t.grid.lines == base + [cur]
  {
    assert BlankRows(0, t.cols) == [];
  }

  lemma AllTaken(above: seq<Row>, lines: seq<Row>)
    requires lines != []
    ensures above + lines[..|lines| - 1] + [lines[|lines| - 1]] == above + lines
  {
  }

  /** All the lines painted: the terminal shows them. */
  lemma LinesShown(t: Term, above: seq<Row>, lines: seq<Row>)
    requires |lines| >= t.rows && GoodRows(lines, t.cols) && Soft(lines) && Steady(lines, t.rows)
    requires Stands(t, |above|, above, BlankRow(t.cols), Start)
    ensures var p := LinesPart(lines, |lines|, t.rows, t.cols, t.pen);
            var r := Ran(t, p.ops);
            Shows(r, above, lines) && r.pen == p.pen && SameElse(t, r)
  {
    hide GoodRow, Tape, AlikeRow, Ran, RowPart, Soft, Steady, GoodRows, AlikeRows;
    var n := |lines| - 1;
    StandsGood(t, above);
    var base, cur, from := LinesReady(t, above, lines, n);
    var p := LinesPart(lines, n, t.rows, t.cols, t.pen);
    var before := Ran(t, p.ops);
    var row := lines[n];
    var base', cur' := RowLands(before, above, lines, n, base, cur, from);
    RanMore(t, p.ops, RowPart(row.cells, Last(row), PlaceAt(n, |lines|, t.rows), p.pen).ops);
    LastHard(lines);
    AlikeMore(base', above + lines[..n], cur', row);
    AllTaken(above, lines);
    AlikeLength(base', above + lines[..n]);
    OnAll(Ran(before, RowPart(row.cells, Last(row), PlaceAt(n, |lines|, t.rows), p.pen).ops), |above|, base', cur');
  }

  lemma AlikeLength(a: seq<Row>, b: seq<Row>)
    requires AlikeRows(a, b)
    ensures |a| == |b|
  {
  }

  lemma LastHard(lines: seq<Row>)
    requires Soft(lines) && lines != []
    ensures !lines[|lines| - 1].wrapped
  {
    assert SoftAt(lines, |lines| - 1);
  }
}
