/** The whole of a redraw: on any terminal of its size, exactly when it brings back the screen. */
module RedrawWhole {
  import opened Bytes
  import opened Terminal
  import opened Redraw
  import opened RedrawLines
  import opened RedrawFails

  // ---- its bytes ---------------------------------------------------------------------------------------------

  const CLEARED: seq<Op> := [Reset, Cup(0, 0), EraseAll]

  /** The first `n` of the alternate screen's rows, each from its start but one wrapped to. */
  function AltPart(rows: seq<Row>, n: nat, cols: nat, pen: Attributes): Lines_
    requires n <= |rows|
  {
    if n == 0 then Lines_([], pen)
    else
      var p := AltPart(rows, n - 1, cols, pen);
      var part := RowPart(rows[n - 1].cells, Last(rows[n - 1]), Some(n - 1), p.pen);
      Lines_(p.ops + AltCup(rows, n - 1, cols) + part.ops, part.pen)
  }

  function AltCup(rows: seq<Row>, n: nat, cols: nat): seq<Op>
    requires n < |rows|
  {
    if n > 0 && rows[n - 1].wrapped && Filled(rows[n - 1], cols) then [] else [Cup(n, 0)]
  }

  function OtherOps(others: set<nat>, n: nat): seq<Op> {
    if n == 0 then [] else OtherOps(others, n - 1) + if n - 1 in others then [SetOther(n - 1)] else []
  }

  function RunningOps(s: Screen): seq<Op> {
    if s.alternate.None? && s.running.Some? then [Cup(s.running.value.0, s.running.value.1)] else []
  }

  /** Both screens painted. */
  function ScreenPart(s: Screen, history: nat): Lines_
    requires Formed(s)
  {
    var lines := Lines(s, history);
    var main := LinesPart(lines, |lines|, s.rows, s.cols, PLAIN);
    var begun := CLEARED + main.ops + RunningOps(s);
    if s.alternate.None? then Lines_(begun, main.pen)
    else
      var alt := AltPart(s.alternate.value, s.rows, s.cols, PLAIN);
      Lines_(begun + PenTo(main.pen, PLAIN) + [Cup(s.saved.0, s.saved.1), EnterAlternate, Cup(0, 0), EraseAll] + alt.ops,
             alt.pen)
  }

  /** The cell the cursor waits to wrap on, if printing it again leaves the cursor so. */
  function Waiting(s: Screen): Option<Cell>
    requires Formed(s)
  {
    var cell := Shown(s)[s.row].cells[s.col];
    if s.pending && cell.glyph.Some? && !cell.covered && cell.glyph.value.certain then Some(cell) else None
  }

  function ModeOps(s: Screen): seq<Op> {
    (if s.top == 0 && s.bottom == s.rows - 1 then [] else [Op.Region(s.top, s.bottom)])
    + (if s.modes.origin then [SetOrigin] else [])
    + OtherOps(s.modes.others, OTHERS)
    + (if s.modes.autowrap then [] else [NoAutowrap])
    + (if s.shape == 0 then [] else [Op.Shape(s.shape)])
    + (if s.title == "" then [] else [Titled(s.title)])
  }

  function CursorOps(s: Screen, pen: Attributes): seq<Op>
    requires Formed(s)
  {
    var cup := [Cup(s.row - (if s.modes.origin then s.top else 0), s.col)];
    match Waiting(s)
    case Some(cell) => cup + PenTo(pen, cell.attributes) + [Print(cell.glyph.value)] + PenTo(cell.attributes, s.pen)
    case None => cup + PenTo(pen, s.pen)
  }

  function Redrawn(s: Screen, history: nat): seq<Op>
    requires Formed(s)
  {
    var p := ScreenPart(s, history);
    p.ops + ModeOps(s) + CursorOps(s, p.pen) + if s.modes.hidden then [HideCursor] else []
  }

  // ---- what it should bring back -----------------------------------------------------------------------------

  /** The rows scrolled off a terminal before. */
  function Above(t: Term): seq<Row>
    requires Good(t)
  {
    var lines := if t.main.Some? then t.main.value.lines else t.grid.lines;
    lines[..|lines| - t.rows]
  }

  /** How many of the rows that scrolled off before the screen come back. */
  function Kept(s: Screen, history: nat): nat
    requires Formed(s)
  {
    var off := |s.main| - s.rows;
    if history < off then history else off
  }

  /** After `above`, the lines are the newest of the rows that scrolled off, as many as asked for and there, and the rows
      on the screen. */
  predicate MainBack(s: Screen, history: nat, above: seq<Row>, lines: seq<Row>)
    requires Formed(s)
  {
    var first := |s.main| - s.rows - Kept(s, history);
    && |lines| == |above| + Kept(s, history) + s.rows
    && (forall j :: 0 <= j < |above| ==> AlikeRow(lines[j], above[j]))
    && (forall j :: |above| <= j < |lines| ==> AlikeRow(lines[j], s.main[first + j - |above|]))
  }

  lemma MainBackIs(s: Screen, history: nat, above: seq<Row>, lines: seq<Row>)
    requires Formed(s)
    ensures MainBack(s, history, above, lines) <==> AlikeRows(lines, above + Lines(s, history))
  {
    hide AlikeRow, GoodRows;
    var all := above + Lines(s, history);
    assert |all| == |above| + Kept(s, history) + s.rows;
  }

  /** The terminal shows the screen: its rows and which go on in the next, with `history` of the rows before
      them scrolled off, the cursor, whether it waits to wrap, the pen, the region and the modes. */
  predicate Rebuilt(s: Screen, history: nat, start: Term, r: Term)
    requires Formed(s) && Good(start)
  {
    && (if s.alternate.Some? then
          && r.main.Some? && MainBack(s, history, Above(start), r.main.value.lines)
          && (r.main.value.row, r.main.value.col) == s.saved
          && AlikeRows(r.grid.lines, s.alternate.value)
        else r.main.None? && MainBack(s, history, Above(start), r.grid.lines))
    && r.grid.row == s.row && r.grid.col == s.col && r.grid.pending == s.pending
    && r.pen == s.pen && r.top == s.top && r.bottom == s.bottom && r.modes == s.modes
    && r.shape == (if s.shape == 0 then start.shape else s.shape)
    && r.title == (if s.title == "" then start.title else s.title)
  }

  /** When it does: soft wraps are followed by something, no row's place is made sure of before it is at it,
      a cursor waiting to wrap is on a narrow glyph every terminal takes as as wide, wrapping, and no synchronized frame
      is open. */
  ghost predicate Restorable(s: Screen, history: nat)
    requires Formed(s)
  {
    && Soft(Lines(s, history)) && Steady(Lines(s, history), s.rows)
    && (s.alternate.Some? ==> Soft(s.alternate.value))
    && (s.pending ==> Waiting(s).Some? && s.modes.autowrap)
    && !s.modes.synchronized
  }

  // ---- the beginning -----------------------------------------------------------------------------------------

  function Clear(t: Term): Term
    requires Good(t)
  {
    t.(grid := Grid(Above(t) + BlankRows(t.rows, t.cols), 0, 0, false), main := None, pen := PLAIN, top := 0,
       bottom := t.rows - 1, modes := FRESH_MODES)
  }

  lemma ClearedRuns(t: Term)
    requires Good(t)
    ensures Ran(t, CLEARED) == Clear(t)
  {
    hide Ran, GoodRows, Printed, Down;
    assert [Reset] == [] + [Reset] && [Reset, Cup(0, 0)] == [Reset] + [Cup(0, 0)];
    assert CLEARED == [Reset, Cup(0, 0)] + [EraseAll];
    NoOps(t);
    RanOne(t, [], Reset);
    RanOne(t, [Reset], Cup(0, 0));
    RanOne(t, [Reset, Cup(0, 0)], EraseAll);
    StepGood(t, Reset);
    assert Moved(Renewed(t), 0, 0) == Renewed(t);
    ErasedIs(Renewed(t));
  }

  lemma ErasedIs(t: Term)
    requires Good(t)
    ensures Do(t, EraseAll) == t.(grid := t.grid.(lines := t.grid.lines[..|t.grid.lines| - t.rows] + BlankRows(t.rows, t.cols)))
  {
  }

  lemma ClearStands(t: Term)
    requires Good(t)
    ensures Good(Clear(t)) && Stands(Clear(t), |Above(t)|, Above(t), BlankRow(t.cols), Start)
  {
    var above := Above(t);
    var lines := if t.main.Some? then t.main.value.lines else t.grid.lines;
    GoodSome(lines, 0, |lines| - t.rows, t.cols);
    GoodBlanks(t.rows, t.cols);
    GoodMore(above, BlankRows(t.rows, t.cols), t.cols);
    assert BlankRows(t.rows, t.cols) == [BlankRow(t.cols)] + BlankRows(t.rows - 1, t.cols);
    assert Clear(t).grid.lines == Tape(above, BlankRow(t.cols), |above| + t.rows, t.cols);
  }

  // ---- the alternate screen --------------------------------------------------------------------------------

  /** The alternate screen begun, as the primary one is: blank, the cursor home. */
  lemma AltStands(t: Term, row: nat, col: nat)
    requires Plainly(t) && t.main.None? && row < t.rows && col < t.cols
    ensures var r := Ran(t, [Cup(row, col), EnterAlternate, Cup(0, 0), EraseAll]);
            && Stands(r, 0, [], BlankRow(t.cols), Start) && r.pen == t.pen
            && r == t.(main := Some(t.grid.(row := row, col := col, pending := false)),
                       grid := Grid(BlankRows(t.rows, t.cols), 0, 0, false))
  {
    hide Ran, GoodRows, Printed, Down;
    var ops := [Cup(row, col), EnterAlternate, Cup(0, 0), EraseAll];
    assert ops[..1] == [] + [Cup(row, col)] && ops[..2] == ops[..1] + [EnterAlternate];
    assert ops[..3] == ops[..2] + [Cup(0, 0)] && ops == ops[..3] + [EraseAll];
    NoOps(t);
    RanOne(t, [], Cup(row, col));
    RanOne(t, ops[..1], EnterAlternate);
    RanOne(t, ops[..2], Cup(0, 0));
    RanOne(t, ops[..3], EraseAll);
    var begun := Ran(t, ops[..3]);
    ErasedIs(begun);
    assert begun.grid.lines == BlankRows(t.rows, t.cols);
    assert begun.grid.lines[..0] + BlankRows(t.rows, t.cols) == BlankRows(t.rows, t.cols);
    BlankStands(Ran(t, ops));
  }

  lemma BlankStands(t: Term)
    requires Plainly(t) && t.grid == Grid(BlankRows(t.rows, t.cols), 0, 0, false)
    ensures Stands(t, 0, [], BlankRow(t.cols), Start)
  {
    assert BlankRows(t.rows, t.cols) == [BlankRow(t.cols)] + BlankRows(t.rows - 1, t.cols);
    assert t.grid.lines == Tape([], BlankRow(t.cols), t.rows, t.cols);
  }

  /** A move to the start of the next row. */
  lemma CupNext(t: Term, base: seq<Row>, cur: Row)
    requires On(t, 0, base, cur) && |base| + 1 < t.rows
    ensures Stands(Moved(t, |base| + 1, 0), 0, base + [cur], BlankRow(t.cols), Start)
    ensures Moved(t, |base| + 1, 0).pen == t.pen && SameElse(t, Moved(t, |base| + 1, 0))
  {
    hide GoodRows, Tape;
    TapeMore(base, cur, t.rows, t.cols);
    OnMore(Moved(t, |base| + 1, 0), 0, base + [cur], t.rows);
  }

  /** The rows of the alternate screen, about to paint row `n`. */
  lemma {:induction false} AltReady(t: Term, rows: seq<Row>, n: nat) returns (base: seq<Row>, cur: Row)
    requires n <= |rows| == t.rows && GoodRows(rows, t.cols) && Soft(rows)
    requires Stands(t, 0, [], BlankRow(t.cols), Start)
    ensures var p := AltPart(rows, n, t.cols, t.pen);
            var r := Ran(t, p.ops);
            && r.pen == p.pen && SameElse(t, r)
            && (n == 0 ==> r == t)
            && (n > 0 ==>
                  && On(r, 0, base, cur) && AlikeRows(base, rows[..n - 1])
                  && AlikeRow(cur.(wrapped := rows[n - 1].wrapped), rows[n - 1]) && !cur.wrapped
                  && (rows[n - 1].wrapped ==> r.grid.pending && r.grid.col == t.cols - 1))
    decreases n
  {
    hide GoodRows, Tape, Ran, RowPart, Soft, GoodRows, AlikeRows, AlikeRow;
    if n == 0 {
      base, cur := [], BlankRow(t.cols);
      GoodStart(t);
      NoOps(t);
    } else {
      base, cur := AltReady(t, rows, n - 1);
      base, cur := AltRow(t, rows, n - 1, base, cur);
    }
  }

  lemma GoodStart(t: Term)
    requires Stands(t, 0, [], BlankRow(t.cols), Start)
    ensures Good(t)
  {
  }

  /** One more row of the alternate screen. */
  lemma AltRow(t: Term, rows: seq<Row>, n: nat, base: seq<Row>, cur: Row) returns (base': seq<Row>, cur': Row)
    requires n < |rows| == t.rows && GoodRows(rows, t.cols) && Soft(rows)
    requires Stands(t, 0, [], BlankRow(t.cols), Start)
    requires var p := AltPart(rows, n, t.cols, t.pen);
             var r := Ran(t, p.ops);
             && r.pen == p.pen && SameElse(t, r)
             && (n == 0 ==> r == t)
             && (n > 0 ==>
                   && On(r, 0, base, cur) && AlikeRows(base, rows[..n - 1])
                   && AlikeRow(cur.(wrapped := rows[n - 1].wrapped), rows[n - 1]) && !cur.wrapped
                   && (rows[n - 1].wrapped ==> r.grid.pending && r.grid.col == t.cols - 1))
    ensures var p := AltPart(rows, n + 1, t.cols, t.pen);
            var r := Ran(t, p.ops);
            && r.pen == p.pen && SameElse(t, r)
            && On(r, 0, base', cur') && AlikeRows(base', rows[..n])
            && AlikeRow(cur'.(wrapped := rows[n].wrapped), rows[n]) && !cur'.wrapped
            && (rows[n].wrapped ==> r.grid.pending && r.grid.col == t.cols - 1)
  {
    hide GoodRows, Tape, Ran, RowPart, Soft, GoodRows, AlikeRows, AlikeRow, On;
    GoodStart(t);
    var p := AltPart(rows, n, t.cols, t.pen);
    var before := Ran(t, p.ops);
    var base1, cur1, from := AltPlaces(t, before, rows, n, base, cur);
    var placed := Ran(before, AltCup(rows, n, t.cols));
    SteadyAll(rows);
    base', cur' := RowLands(placed, [], rows, n, base1, cur1, from);
    RanMore(t, p.ops, AltCup(rows, n, t.cols));
    RanMore(t, p.ops + AltCup(rows, n, t.cols), RowPart(rows[n].cells, Last(rows[n]), Some(n), p.pen).ops);
    assert [] + rows[..n] == rows[..n];
  }

  lemma SteadyAll(rows: seq<Row>)
    ensures Steady(rows, |rows|)
  {
  }

  /** Row `n` is painted from its start, or from the row before it. */
  lemma AltPlaces(t: Term, r: Term, rows: seq<Row>, n: nat, base: seq<Row>, cur: Row)
    returns (base': seq<Row>, cur': Row, from: From)
    requires n < |rows| == t.rows && GoodRows(rows, t.cols) && Stands(t, 0, [], BlankRow(t.cols), Start) && SameElse(t, r)
    requires n == 0 ==> r == t
    requires n > 0 ==>
               && On(r, 0, base, cur) && AlikeRows(base, rows[..n - 1])
               && AlikeRow(cur.(wrapped := rows[n - 1].wrapped), rows[n - 1]) && !cur.wrapped
               && (rows[n - 1].wrapped ==> r.grid.pending && r.grid.col == t.cols - 1)
    ensures Good(r)
    ensures var placed := Ran(r, AltCup(rows, n, t.cols));
            && placed.pen == r.pen && SameElse(r, placed)
            && Ready(placed, [], rows, n, base', cur', from)
  {
    hide GoodRows, Tape, AlikeRow, Ran;
    NoOps(r);
    assert [] + rows[..n] == rows[..n];
    if n == 0 {
      CupRuns(r, true, Some(0), 0);
      base', cur', from := [], BlankRow(t.cols), Start;
    } else {
      LineGood(rows, t.cols, n - 1);
      FilledIs(rows[n - 1], t.cols);
      assert rows[..n] == rows[..n - 1] + [rows[n - 1]];
      AlikeMore(base, rows[..n - 1], cur.(wrapped := rows[n - 1].wrapped), rows[n - 1]);
      if rows[n - 1].wrapped {
        base', cur', from := base, cur, Brim;
      } else {
        CupRuns(r, true, Some(n), 0);
        CupNext(r, base, cur);
        base', cur', from := base + [cur], BlankRow(t.cols), Start;
      }
    }
  }

  /** The alternate screen painted shows its rows. */
  lemma AltShown(t: Term, rows: seq<Row>)
    requires |rows| == t.rows && GoodRows(rows, t.cols) && Soft(rows) && Stands(t, 0, [], BlankRow(t.cols), Start)
    ensures var p := AltPart(rows, |rows|, t.cols, t.pen);
            var r := Ran(t, p.ops);
            AlikeRows(r.grid.lines, rows) && r.pen == p.pen && SameElse(t, r)
  {
    hide GoodRows, Tape, Ran, RowPart, GoodRows, AlikeRow;
    GoodStart(t);
    var n := |rows| - 1;
    var base, cur := AltReady(t, rows, |rows|);
    OnAll(Ran(t, AltPart(rows, |rows|, t.cols, t.pen).ops), 0, base, cur);
    LastHard(rows);
    AlikeMore(base, rows[..n], cur, rows[n]);
    assert rows[..n] + [rows[n]] == rows;
  }

  /** And no more of its rows go on in the next than are followed by something. */
  lemma {:induction false} AltCourse(t: Term, rows: seq<Row>, n: nat)
    requires n <= |rows| == t.rows && GoodRows(rows, t.cols) && Plainly(t) && !t.grid.pending && Flags(t.grid.lines) == 0
    ensures var p := AltPart(rows, n, t.cols, t.pen);
            var r := Ran(t, p.ops);
            && Plainly(r) && SameElse(t, r) && r.pen == p.pen && Flags(r.grid.lines) <= Paired(rows, n)
            && (n > 0 && Filled(rows[n - 1], t.cols) ==> r.grid.pending)
    decreases n
  {
    hide Good, Ran, RowPart, Flags, GoodRows;
    NoOps(t);
    if n > 0 {
      AltCourse(t, rows, n - 1);
      AltDrifts(t, rows, n - 1);
    }
  }

  lemma AltDrifts(t: Term, rows: seq<Row>, n: nat)
    requires n < |rows| == t.rows && GoodRows(rows, t.cols) && Plainly(t)
    requires var p := AltPart(rows, n, t.cols, t.pen);
             var r := Ran(t, p.ops);
             && Plainly(r) && SameElse(t, r) && r.pen == p.pen && Flags(r.grid.lines) <= Paired(rows, n)
             && (n > 0 && Filled(rows[n - 1], t.cols) ==> r.grid.pending)
    ensures var p := AltPart(rows, n + 1, t.cols, t.pen);
            var r := Ran(t, p.ops);
            && Plainly(r) && SameElse(t, r) && r.pen == p.pen && Flags(r.grid.lines) <= Paired(rows, n + 1)
            && (Filled(rows[n], t.cols) ==> r.grid.pending)
  {
    hide GoodGrid, Ran, RowPart, Flags;
    var p := AltPart(rows, n, t.cols, t.pen);
    var before, cup := Ran(t, p.ops), AltCup(rows, n, t.cols);
    var row := rows[n];
    if n > 0 {
      LineGood(rows, t.cols, n - 1);
      FilledIs(rows[n - 1], t.cols);
    }
    NoOps(before);
    CupRuns(before, true, Some(n), 0);
    var placed := Ran(before, cup);
    LineGood(rows, t.cols, n);
    RowComes(placed, row, Some(n));
    FilledIs(row, t.cols);
    RanMore(t, p.ops, cup);
    RanMore(t, p.ops + cup, RowPart(row.cells, Last(row), Some(n), p.pen).ops);
  }

  // ---- both screens ------------------------------------------------------------------------------------------

  /** The rows come back as they were. */
  predicate RowsBack(s: Screen, history: nat, above: seq<Row>, r: Term)
    requires Formed(s)
  {
    if s.alternate.Some? then
      && r.main.Some? && AlikeRows(r.main.value.lines, above + Lines(s, history))
      && (r.main.value.row, r.main.value.col) == s.saved
      && AlikeRows(r.grid.lines, s.alternate.value)
    else r.main.None? && AlikeRows(r.grid.lines, above + Lines(s, history))
  }

  /** They are as many, and as many go on in the next. */
  predicate RowsCount(s: Screen, history: nat, above: seq<Row>, r: Term)
    requires Formed(s)
  {
    if s.alternate.Some? then
      && r.main.Some? && |r.main.value.lines| == |above + Lines(s, history)|
      && Flags(r.main.value.lines) == Flags(above + Lines(s, history))
      && Flags(r.grid.lines) == Flags(s.alternate.value)
    else
      && |r.grid.lines| == |above + Lines(s, history)| && Flags(r.grid.lines) == Flags(above + Lines(s, history))
  }

  lemma BackCount(s: Screen, history: nat, above: seq<Row>, r: Term)
    requires Formed(s) && RowsBack(s, history, above, r)
    ensures RowsCount(s, history, above, r)
  {
    if s.alternate.Some? {
      FlagsAlike(r.main.value.lines, above + Lines(s, history));
      FlagsAlike(r.grid.lines, s.alternate.value);
    } else {
      FlagsAlike(r.grid.lines, above + Lines(s, history));
    }
  }

  ghost predicate RowsSoft(s: Screen, history: nat)
    requires Formed(s)
  {
    && Soft(Lines(s, history)) && Steady(Lines(s, history), s.rows)
    && (s.alternate.Some? ==> Soft(s.alternate.value))
  }

  lemma LinesGood(s: Screen, history: nat)
    requires Formed(s)
    ensures GoodRows(Lines(s, history), s.cols) && |Lines(s, history)| >= s.rows
  {
    hide GoodRow;
  }

  /** The primary screen painted, and the move to where the output still coming began. */
  lemma MainRuns(s: Screen, history: nat, start: Term)
    requires Formed(s) && Good(start) && start.rows == s.rows && start.cols == s.cols
    ensures var lines := Lines(s, history);
            var p := LinesPart(lines, |lines|, s.rows, s.cols, PLAIN);
            var r := Ran(start, CLEARED + p.ops + RunningOps(s));
            && Plainly(r) && r.pen == p.pen && SameElse(Clear(start), r)
            && (Soft(lines) && Steady(lines, s.rows) ==> AlikeRows(r.grid.lines, Above(start) + lines))
            && (|r.grid.lines| == |Above(start) + lines| && Flags(r.grid.lines) == Flags(Above(start) + lines) ==>
                  Soft(lines) && Steady(lines, s.rows))
  {
    hide Ran, GoodGrid, Flags, AlikeRows, Soft, Steady, GoodRows, Stands, Clear, Above;
    var lines := Lines(s, history);
    var p := LinesPart(lines, |lines|, s.rows, s.cols, PLAIN);
    ClearedRuns(start);
    ClearStands(start);
    ClearedElse(start);
    LinesGood(s, history);
    var begun, above := Clear(start), Above(start);
    CourseAll(begun, above, lines, |lines|);
    RanMore(start, CLEARED, p.ops);
    var painted := Ran(begun, p.ops);
    if Soft(lines) && Steady(lines, s.rows) { LinesShown(begun, above, lines); }
    if |painted.grid.lines| == |above + lines| && Flags(painted.grid.lines) == Flags(above + lines) {
      OnlyIf(begun, above, lines);
    }
    RanMore(start, CLEARED + p.ops, RunningOps(s));
    RunningRuns(painted, s);
  }

  lemma ClearedElse(t: Term)
    requires Good(t)
    ensures var r := Clear(t);
            r.rows == t.rows && r.cols == t.cols && r.main.None? && r.shape == t.shape && r.title == t.title && r.pen == PLAIN
  {
  }

  lemma RunningRuns(t: Term, s: Screen)
    requires Plainly(t)
    ensures var r := Ran(t, RunningOps(s));
            Plainly(r) && r.grid.lines == t.grid.lines && r.pen == t.pen && SameElse(t, r)
  {
    hide GoodRows;
    NoOps(t);
    if s.alternate.None? && s.running.Some? { CupRuns(t, true, Some(s.running.value.0), s.running.value.1); }
  }

  /** The alternate screen painted over. */
  lemma AltRuns(s: Screen, t: Term)
    requires Formed(s) && s.alternate.Some? && Plainly(t) && t.rows == s.rows && t.cols == s.cols && t.main.None?
    ensures var ops := PenTo(t.pen, PLAIN) + [Cup(s.saved.0, s.saved.1), EnterAlternate, Cup(0, 0), EraseAll];
            var p := AltPart(s.alternate.value, s.rows, s.cols, PLAIN);
            var r := Ran(t, ops + p.ops);
            && Plainly(r) && r.pen == p.pen && r.shape == t.shape && r.title == t.title && r.rows == t.rows && r.cols == t.cols
            && r.main == Some(t.grid.(row := s.saved.0, col := s.saved.1, pending := false))
            && (Soft(s.alternate.value) ==> AlikeRows(r.grid.lines, s.alternate.value))
            && (Flags(r.grid.lines) == Flags(s.alternate.value) ==> Soft(s.alternate.value))
  {
    hide Ran, GoodGrid, Flags, AlikeRows, Soft, GoodRows, Stands, AltPart;
    var rows := s.alternate.value;
    var pen := PenTo(t.pen, PLAIN);
    var enter := [Cup(s.saved.0, s.saved.1), EnterAlternate, Cup(0, 0), EraseAll];
    RanPen(t, t.pen, PLAIN);
    PennedPlainly(t, PLAIN);
    RanMore(t, pen, enter);
    AltStands(t.(pen := PLAIN), s.saved.0, s.saved.1);
    var begun := Ran(t, pen + enter);
    BegunPlain(begun);
    RanMore(t, pen + enter, AltPart(rows, s.rows, s.cols, PLAIN).ops);
    if Soft(rows) { AltShown(begun, rows); }
    AltCourse(begun, rows, |rows|);
    if Flags(Ran(begun, AltPart(rows, |rows|, s.cols, PLAIN).ops).grid.lines) == Flags(rows) { AllPaired(rows); }
  }

  lemma BegunPlain(t: Term)
    requires Stands(t, 0, [], BlankRow(t.cols), Start)
    ensures Plainly(t) && !t.grid.pending && Flags(t.grid.lines) == 0
  {
    StandsPlain(t, [], []);
    assert Flags([]) == 0;
  }

  lemma ScreenRuns(s: Screen, history: nat, start: Term)
    requires Formed(s) && Good(start) && start.rows == s.rows && start.cols == s.cols
    ensures var p := ScreenPart(s, history);
            var r := Ran(start, p.ops);
            && Plainly(r) && r.pen == p.pen && r.shape == start.shape && r.title == start.title
            && r.rows == s.rows && r.cols == s.cols
            && (RowsSoft(s, history) ==> RowsBack(s, history, Above(start), r))
            && (RowsCount(s, history, Above(start), r) ==> RowsSoft(s, history))
  {
    hide Ran, GoodGrid, Flags, AlikeRows, Soft, Steady, Above, LinesPart, AltPart, GoodRows, Lines;
    ClearedElse(start);
    MainRuns(s, history, start);
    if s.alternate.Some? {
      var lines := Lines(s, history);
      var main := LinesPart(lines, |lines|, s.rows, s.cols, PLAIN);
      var begun := CLEARED + main.ops + RunningOps(s);
      var enter := PenTo(main.pen, PLAIN) + [Cup(s.saved.0, s.saved.1), EnterAlternate, Cup(0, 0), EraseAll];
      var alt := AltPart(s.alternate.value, s.rows, s.cols, PLAIN);
      AltRuns(s, Ran(start, begun));
      RanMore(start, begun, enter + alt.ops);
      assert begun + (enter + alt.ops) == ScreenPart(s, history).ops;
    }
  }

  // ---- the modes and the cursor ------------------------------------------------------------------------------

  function UpTo(others: set<nat>, n: nat): set<nat> {
    set m | m in others && m < n
  }

  lemma UpToMore(others: set<nat>, n: nat)
    ensures UpTo(others, 0) == {}
    ensures UpTo(others, n + 1) == UpTo(others, n) + if n in others then {n} else {}
  {
  }

  lemma {:induction false} OthersRun(t: Term, others: set<nat>, n: nat)
    requires Good(t) && t.modes.others == {}
    ensures Ran(t, OtherOps(others, n)) == t.(modes := t.modes.(others := UpTo(others, n)))
  {
    hide GoodGrid, Ran, UpTo;
    if n == 0 {
      UpToMore(others, 0);
      NoOps(t);
    } else {
      OthersRun(t, others, n - 1);
      UpToMore(others, n - 1);
      var before := Ran(t, OtherOps(others, n - 1));
      RanMore(t, OtherOps(others, n - 1), if n - 1 in others then [SetOther(n - 1)] else []);
      OneOrNone(before, n - 1 in others, SetOther(n - 1));
    }
  }

  /** A choice of one op or none. */
  lemma OneOrNone(t: Term, c: bool, op: Op)
    requires Good(t)
    ensures Ran(t, if c then [op] else []) == if c then Do(t, op) else t
  {
    hide GoodGrid, Do;
    NoOps(t);
    assert [] + [op] == [op];
    if c { RanOne(t, [], op); }
  }

  /** All but where the cursor is, the region, the modes, the shape and the title. */
  predicate SameRows(t: Term, r: Term) {
    r.rows == t.rows && r.cols == t.cols && r.main == t.main && r.pen == t.pen && r.grid.lines == t.grid.lines
  }

  lemma RegionRuns(t: Term, s: Screen)
    requires Plainly(t) && Formed(s) && t.rows == s.rows
    ensures var r := Ran(t, if s.top == 0 && s.bottom == s.rows - 1 then [] else [Op.Region(s.top, s.bottom)]);
            && Good(r) && SameRows(t, r) && r.top == s.top && r.bottom == s.bottom && r.modes == t.modes
            && r.shape == t.shape && r.title == t.title
  {
    hide GoodRows;
    OneOrNone(t, !(s.top == 0 && s.bottom == s.rows - 1), Op.Region(s.top, s.bottom));
  }

  lemma OriginRuns(t: Term, origin: bool)
    requires Good(t) && !t.modes.origin
    ensures var r := Ran(t, if origin then [SetOrigin] else []);
            && Good(r) && SameRows(t, r) && r.top == t.top && r.bottom == t.bottom && r.modes == t.modes.(origin := origin)
            && r.shape == t.shape && r.title == t.title
  {
    hide GoodRows;
    OneOrNone(t, origin, SetOrigin);
  }

  lemma ModesRun(t: Term, s: Screen)
    requires Plainly(t) && Formed(s) && t.rows == s.rows && t.cols == s.cols
    ensures var r := Ran(t, ModeOps(s));
            && Good(r) && SameRows(t, r) && r.top == s.top && r.bottom == s.bottom
            && r.modes == s.modes.(hidden := false, synchronized := false)
            && r.shape == (if s.shape == 0 then t.shape else s.shape)
            && r.title == (if s.title == "" then t.title else s.title)
  {
    hide GoodGrid, Ran, Moved, Do, GoodRows;
    var a := if s.top == 0 && s.bottom == s.rows - 1 then [] else [Op.Region(s.top, s.bottom)];
    var b := if s.modes.origin then [SetOrigin] else [];
    var c := OtherOps(s.modes.others, OTHERS);
    RegionRuns(t, s);
    RanMore(t, a, b);
    OriginRuns(Ran(t, a), s.modes.origin);
    RanMore(t, a + b, c);
    OthersRun(Ran(t, a + b), s.modes.others, OTHERS);
    assert UpTo(s.modes.others, OTHERS) == s.modes.others;
    RanMore(t, a + b + c, LateOps(s));
    LateRuns(Ran(t, a + b + c), s);
    assert a + b + c + LateOps(s) == ModeOps(s);
  }

  function LateOps(s: Screen): seq<Op> {
    (if s.modes.autowrap then [] else [NoAutowrap])
    + (if s.shape == 0 then [] else [Op.Shape(s.shape)])
    + (if s.title == "" then [] else [Titled(s.title)])
  }

  lemma LateRuns(t: Term, s: Screen)
    requires Good(t) && t.modes.autowrap
    ensures var r := Ran(t, LateOps(s));
            r == t.(modes := t.modes.(autowrap := s.modes.autowrap), shape := if s.shape == 0 then t.shape else s.shape,
                    title := if s.title == "" then t.title else s.title)
  {
    hide GoodGrid, Ran;
    var d := if s.modes.autowrap then [] else [NoAutowrap];
    var e := if s.shape == 0 then [] else [Op.Shape(s.shape)];
    var f := if s.title == "" then [] else [Titled(s.title)];
    OneOrNone(t, !s.modes.autowrap, NoAutowrap);
    RanMore(t, d, e);
    OneOrNone(Ran(t, d), s.shape != 0, Op.Shape(s.shape));
    RanMore(t, d + e, f);
    OneOrNone(Ran(t, d + e), s.title != "", Titled(s.title));
  }

  // ---- the cursor --------------------------------------------------------------------------------------------

  lemma CursorMoves(t: Term, s: Screen)
    requires Good(t) && Formed(s) && t.rows == s.rows && t.cols == s.cols
    requires t.top == s.top && t.bottom == s.bottom && t.modes.origin == s.modes.origin
    ensures Moved(t, s.row - (if s.modes.origin then s.top else 0), s.col) == At(t, s.row, s.col)
    ensures At(t, s.row, s.col).grid == t.grid.(row := s.row, col := s.col, pending := false)
  {
    hide GoodGrid, GoodRows;
  }

  /** The cursor put where it was, and the glyph it waits on printed again if it waits. */
  lemma CursorRuns(t: Term, s: Screen, pen: Attributes)
    requires Good(t) && Formed(s) && t.rows == s.rows && t.cols == s.cols && t.pen == pen
    requires t.top == s.top && t.bottom == s.bottom && t.modes == s.modes.(hidden := false, synchronized := false)
    ensures var r := Ran(t, CursorOps(s, pen));
            var at := At(t, s.row, s.col);
            && Good(at)
            && (Waiting(s).None? ==> r == at.(pen := s.pen))
            && (Waiting(s).Some? ==>
                  var penned := at.(pen := Waiting(s).value.attributes);
                  Good(penned) && r == Printed(penned, Waiting(s).value.glyph.value).(pen := s.pen))
  {
    hide GoodGrid, Ran, Moved, Printed, GoodRows, Shown;
    var row := s.row - if s.modes.origin then s.top else 0;
    CupRuns(t, true, Some(row), s.col);
    CursorMoves(t, s);
    var at := At(t, s.row, s.col);
    match Waiting(s)
    case None =>
      RanMore(t, [Cup(row, s.col)], PenTo(pen, s.pen));
      RanPen(at, pen, s.pen);
    case Some(cell) =>
      RanMore(t, [Cup(row, s.col)], PenTo(pen, cell.attributes));
      RanPen(at, pen, cell.attributes);
      var penned := at.(pen := cell.attributes);
      PenGood(at, cell.attributes);
      RanOne(t, [Cup(row, s.col)] + PenTo(pen, cell.attributes), Print(cell.glyph.value));
      PrintDo(penned, cell.glyph.value);
      PrintedGood(penned, cell.glyph.value);
      PrintKeepsPen(penned, cell.glyph.value);
      RanMore(t, [Cup(row, s.col)] + PenTo(pen, cell.attributes) + [Print(cell.glyph.value)], PenTo(cell.attributes, s.pen));
      RanPen(Printed(penned, cell.glyph.value), cell.attributes, s.pen);
  }

  lemma PrintKeepsPen(t: Term, glyph: Glyph)
    requires Good(t)
    ensures Printed(t, glyph).pen == t.pen
  {
    hide Put, GoodRows;
  }

  /** A glyph printed where it is already, at the last column: nothing changes but that the cursor waits. */
  lemma PrintsAgain(t: Term, glyph: Glyph)
    requires Good(t) && !t.grid.pending && !glyph.wide && t.grid.col == t.cols - 1
    ensures var r := Printed(t, glyph);
            var line := t.grid.lines[LineOf(t)];
            && r.grid == t.grid.(lines := t.grid.lines[LineOf(t) := line.(cells := Put(line.cells, t.grid.col, glyph, t.pen))],
                                 pending := t.modes.autowrap)
            && r.main == t.main && r.modes == t.modes && r.top == t.top && r.bottom == t.bottom
            && r.shape == t.shape && r.title == t.title && r.rows == t.rows && r.cols == t.cols
  {
    hide Put, GoodRows;
    assert Placed(t, glyph) == t;
  }

  lemma AgainAlike(a: Row, b: Row, col: nat, glyph: Glyph, attributes: Attributes)
    requires AlikeRow(a, b) && col < |a.cells| && !glyph.wide && b.cells[col] == Cell(Some(glyph), attributes, false)
    ensures AlikeRow(a.(cells := Put(a.cells, col, glyph, attributes)), b)
  {
    assert Alike(a.cells[col], b.cells[col]);
    var put := Put(a.cells, col, glyph, attributes);
    forall i | 0 <= i < |a.cells| ensures Alike(put[i], b.cells[i]) {
      assert Alike(a.cells[i], b.cells[i]);
    }
  }

  lemma AlikeAt(a: seq<Row>, b: seq<Row>, i: nat, row: Row)
    requires AlikeRows(a, b) && i < |a| && AlikeRow(row, b[i])
    ensures AlikeRows(a[i := row], b)
  {
  }

  // ---- the whole ---------------------------------------------------------------------------------------------

  /** What the cursor's bytes leave of the rows. */
  lemma CursorRows(s: Screen, history: nat, above: seq<Row>, t: Term, r: Term)
    requires Formed(s) && Good(t) && t.rows == s.rows && t.cols == s.cols
    requires Waiting(s).Some? && !Waiting(s).value.glyph.value.wide
    requires t.grid.row == s.row && t.grid.col == s.col && t.pen == Waiting(s).value.attributes
    requires r.main == t.main
    requires var line := t.grid.lines[LineOf(t)];
             r.grid.lines == t.grid.lines[LineOf(t) := line.(cells := Put(line.cells, s.col, Waiting(s).value.glyph.value, t.pen))]
    ensures RowsBack(s, history, above, t) ==> RowsBack(s, history, above, r)
    ensures RowsCount(s, history, above, r) ==> RowsCount(s, history, above, t)
  {
    hide GoodAt, AlikeRows, AlikeRow, Flags, Put, Lines;
    WaitingLast(s);
    var line := t.grid.lines[LineOf(t)];
    var put := line.(cells := Put(line.cells, s.col, Waiting(s).value.glyph.value, t.pen));
    FlagsAt(t.grid.lines, LineOf(t), put);
    if RowsBack(s, history, above, t) { BackAgain(s, history, above, t); }
  }

  lemma ShownRow(s: Screen)
    requires Formed(s)
    ensures GoodRow(Shown(s)[s.row], s.cols) && GoodAt(Shown(s)[s.row].cells, s.col)
  {
  }

  lemma ScreenRow(s: Screen, history: nat, above: seq<Row>, lines: seq<Row>)
    requires Formed(s) && s.alternate.None? && AlikeRows(lines, above + Lines(s, history))
    ensures |lines| >= s.rows && AlikeRow(lines[|lines| - s.rows + s.row], Shown(s)[s.row])
    ensures (above + Lines(s, history))[|lines| - s.rows + s.row] == Shown(s)[s.row]
  {
    var all := Lines(s, history);
    assert all[|all| - s.rows + s.row] == s.main[|s.main| - s.rows + s.row] == Shown(s)[s.row];
  }

  lemma BackAgain(s: Screen, history: nat, above: seq<Row>, t: Term)
    requires Formed(s) && Good(t) && t.rows == s.rows && t.cols == s.cols
    requires Waiting(s).Some? && !Waiting(s).value.glyph.value.wide
    requires t.grid.row == s.row && t.grid.col == s.col && t.pen == Waiting(s).value.attributes
    requires RowsBack(s, history, above, t)
    ensures var line := t.grid.lines[LineOf(t)];
            var put := line.(cells := Put(line.cells, s.col, Waiting(s).value.glyph.value, t.pen));
            RowsBack(s, history, above, t.(grid := t.grid.(lines := t.grid.lines[LineOf(t) := put])))
  {
    hide GoodAt, Put, Lines;
    WaitingLast(s);
    var i := LineOf(t);
    var line := t.grid.lines[i];
    var put := line.(cells := Put(line.cells, s.col, Waiting(s).value.glyph.value, t.pen));
    ShownRow(s);
    if s.alternate.Some? {
      AgainAlike(line, s.alternate.value[i], s.col, Waiting(s).value.glyph.value, t.pen);
      AlikeAt(t.grid.lines, s.alternate.value, i, put);
    } else {
      ScreenRow(s, history, above, t.grid.lines);
      AgainAlike(line, Shown(s)[s.row], s.col, Waiting(s).value.glyph.value, t.pen);
      AlikeAt(t.grid.lines, above + Lines(s, history), i, put);
    }
  }

  /** The rows once the modes are set and the cursor is put back: as they were, right or not. */
  lemma EndRuns(s: Screen, history: nat, above: seq<Row>, t: Term)
    requires Formed(s) && Plainly(t) && t.rows == s.rows && t.cols == s.cols
    ensures var r := Ran(t, ModeOps(s) + CursorOps(s, t.pen));
            && Good(r)
            && (RowsBack(s, history, above, t) ==> RowsBack(s, history, above, r))
            && (RowsCount(s, history, above, r) ==> RowsCount(s, history, above, t))
            && r.grid.row == s.row && r.grid.col == s.col
            && r.grid.pending == (Waiting(s).Some? && s.modes.autowrap)
            && r.pen == s.pen && r.top == s.top && r.bottom == s.bottom && r.modes == s.modes.(hidden := false, synchronized := false)
            && r.shape == (if s.shape == 0 then t.shape else s.shape)
            && r.title == (if s.title == "" then t.title else s.title)
  {
    hide GoodGrid, Ran, RowsCount, RowsBack, ModeOps, CursorOps, Printed, GoodRows, Put;
    ModesRun(t, s);
    var moded := Ran(t, ModeOps(s));
    SameBack(s, history, above, t, moded);
    RanMore(t, ModeOps(s), CursorOps(s, t.pen));
    CursorRuns(moded, s, t.pen);
    var at := At(moded, s.row, s.col);
    SameBack(s, history, above, moded, at);
    var r := Ran(moded, CursorOps(s, t.pen));
    if Waiting(s).Some? {
      var penned := at.(pen := Waiting(s).value.attributes);
      SameBack(s, history, above, at, penned);
      WaitingLast(s);
      PrintsAgain(penned, Waiting(s).value.glyph.value);
      CursorRows(s, history, above, penned, r);
    } else {
      SameBack(s, history, above, at, r);
    }
  }

  lemma WaitingLast(s: Screen)
    requires Formed(s) && Waiting(s).Some?
    ensures !Waiting(s).value.glyph.value.wide && s.col == s.cols - 1
  {
    ShownRow(s);
  }

  lemma SameBack(s: Screen, history: nat, above: seq<Row>, t: Term, r: Term)
    requires Formed(s) && r.main == t.main && r.grid.lines == t.grid.lines
    ensures RowsBack(s, history, above, t) <==> RowsBack(s, history, above, r)
    ensures RowsCount(s, history, above, t) <==> RowsCount(s, history, above, r)
  {
  }

  /** What a redraw leaves: the rows as they were if and only if they can be, and the rest as it was, but that the
      cursor may not wait and that no synchronized frame is open. */
  lemma RedrawnIs(s: Screen, history: nat, start: Term)
    requires Formed(s) && Good(start) && start.rows == s.rows && start.cols == s.cols
    ensures var r := Ran(start, Redrawn(s, history));
            && (RowsBack(s, history, Above(start), r) <==> RowsSoft(s, history))
            && r.grid.row == s.row && r.grid.col == s.col
            && r.grid.pending == (Waiting(s).Some? && s.modes.autowrap)
            && r.pen == s.pen && r.top == s.top && r.bottom == s.bottom && r.modes == s.modes.(synchronized := false)
            && r.shape == (if s.shape == 0 then start.shape else s.shape)
            && r.title == (if s.title == "" then start.title else s.title)
  {
    hide GoodGrid, Ran, RowsCount, RowsBack, RowsSoft, ModeOps, CursorOps, ScreenPart, GoodRows, Above, Waiting;
    var p := ScreenPart(s, history);
    var above := Above(start);
    ScreenRuns(s, history, start);
    var painted := Ran(start, p.ops);
    EndRuns(s, history, above, painted);
    RanMore(start, p.ops, ModeOps(s) + CursorOps(s, p.pen));
    var hidden := if s.modes.hidden then [HideCursor] else [];
    RanMore(start, p.ops + (ModeOps(s) + CursorOps(s, p.pen)), hidden);
    assert p.ops + (ModeOps(s) + CursorOps(s, p.pen)) + hidden == Redrawn(s, history);
    var ended := Ran(painted, ModeOps(s) + CursorOps(s, p.pen));
    OneOrNone(ended, s.modes.hidden, HideCursor);
    var r := Ran(ended, hidden);
    assert r == ended.(modes := s.modes.(synchronized := false));
    SameBack(s, history, above, ended, r);
    if RowsBack(s, history, above, r) { BackCount(s, history, above, r); }
  }

  /** Painted on any terminal of its size, whatever it shows, a screen comes back (its rows and their wraps, the
      history before them scrolled off, the cursor and its waiting to wrap, the pen, the region and the modes) if
      and only if it is one that can: soft wraps are followed by something, no row under history is made sure of
      before its place, a cursor waiting to wrap is on a narrow glyph every terminal takes as as wide, wrapping on,
      and no synchronized frame is open. */
  lemma RebuildsExactly(s: Screen, history: nat, start: Term)
    requires Formed(s) && Good(start) && start.rows == s.rows && start.cols == s.cols
    ensures Rebuilt(s, history, start, Ran(start, Redrawn(s, history))) <==> Restorable(s, history)
  {
    hide GoodGrid, Ran, Redrawn, AlikeRows, Soft, Steady, Above, Lines, MainBack;
    RedrawnIs(s, history, start);
    var r := Ran(start, Redrawn(s, history));
    MainBackIs(s, history, Above(start), if s.alternate.Some? && r.main.Some? then r.main.value.lines else r.grid.lines);
  }
}
