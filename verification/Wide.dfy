/** Predicted wide glyphs stay whole: against one well-formed screen, whatever is typed and whenever it is graded,
    both halves of a predicted wide glyph are there with one epoch and one expiry, or neither is. */
module Wide {
  import opened Bytes
  import opened Predict

  /** What a blank and an empty string are as wide as. */
  predicate SaneText(text: Text) {
    text.width("") != 2 && text.width(" ") != 2
  }

  predicate SaneCell(text: Text, cell: Cell) {
    match cell.half
    case Narrow => cell.text == "" || text.width(cell.text) != 2
    case Wide => text.width(cell.text) == 2
    case Covered => cell.text == ""
  }

  /** A screen as a terminal lays it out: every wide glyph with its right half, and every right half with its
      glyph. */
  ghost predicate WellFormed(text: Text, screen: Screen) {
    forall at: Spot {:trigger CellAt(screen, at)} :: CellAt(screen, at).Some? ==> CellFits(text, screen, at)
  }

  predicate CellFits(text: Text, screen: Screen, at: Spot)
    requires CellAt(screen, at).Some?
  {
    var cell := CellAt(screen, at).value;
    && SaneCell(text, cell)
    && (cell.half == Wide ==> HalfIs(screen, (at.0, at.1 + 1), Covered))
    && (cell.half == Covered ==> at.1 > 0 && HalfIs(screen, (at.0, at.1 - 1), Wide))
  }

  predicate HalfIs(screen: Screen, at: Spot, half: Half) {
    CellAt(screen, at).Some? && CellAt(screen, at).value.half == half
  }

  /** The guess at `at` is half of a glyph of kind `half`, stamped as `like` is. */
  predicate Mate(e: Engine, at: Spot, half: Half, like: Guess) {
    && at in e.cells && e.cells[at].guess.Some? && e.cells[at].guess.value.half == half
    && e.cells[at].epoch == like.epoch && e.cells[at].expiry == like.expiry
  }

  /** One guess is whole: on the screen, its other half stamped as it is, and of the kind of the cell it is over
      unless that is narrow. */
  predicate WholeGuess(text: Text, e: Engine, screen: Screen, at: Spot)
    requires at in e.cells
  {
    var cell := e.cells[at];
    && cell.guess.Some? && SaneCell(text, cell.guess.value)
    && CellAt(screen, at).Some?
    && (CellAt(screen, at).value.half != Narrow ==> cell.guess.value.half == CellAt(screen, at).value.half)
    && (cell.guess.value.half == Wide ==> Mate(e, (at.0, at.1 + 1), Covered, cell))
    && (cell.guess.value.half == Covered ==> at.1 > 0 && Mate(e, (at.0, at.1 - 1), Wide, cell))
  }

  ghost predicate Whole(text: Text, e: Engine, screen: Screen) {
    forall at :: at in e.cells ==> WholeGuess(text, e, screen, at)
  }

  // ---- what is guessed where -----------------------------------------------------------------------------------

  /** The glyph a key may join is a whole one: never the right half, and with its right half known when wide. */
  lemma BeforeIsGlyph(text: Text, e: Engine, screen: Screen, at: Spot)
    requires WellFormed(text, screen) && Whole(text, e, screen)
    requires GlyphBefore(e, screen, at).Some?
    ensures var (col, cell) := GlyphBefore(e, screen, at).value;
            && GuessAt(e, screen, (at.0, col)) == Some(cell) && cell.half != Covered && SaneCell(text, cell)
            && cell.text != "" && col < at.1
  {
    var left: Spot := (at.0, at.1 - 1);
    assert CellAt(screen, left).Some? ==> CellFits(text, screen, left);
    if at.1 > 1 {
      var wide: Spot := (at.0, at.1 - 2);
      assert CellAt(screen, wide).Some? ==> CellFits(text, screen, wide);
    }
  }

  /** A blank guessed is over a narrow cell of the screen. */
  lemma BlankIsNarrow(text: Text, e: Engine, screen: Screen, at: Spot)
    requires Whole(text, e, screen) && BlankAt(e, screen, at)
    ensures HalfIs(screen, at, Narrow) && (at in e.cells ==> e.cells[at].guess.value.half == Narrow)
  {
    if at in e.cells {
      assert WholeGuess(text, e, screen, at);
    }
  }

  // ---- one guess placed ------------------------------------------------------------------------------------------

  /** A narrow guess over a narrow one, or over a narrow cell, breaks no pair. */
  lemma PlacedNarrow(text: Text, e: Engine, screen: Screen, at: Spot, cell: Cell, typed: bool)
    requires Whole(text, e, screen)
    requires cell.half == Narrow && SaneCell(text, cell) && HalfIs(screen, at, Narrow)
    requires at in e.cells ==> e.cells[at].guess.value.half == Narrow
    ensures Whole(text, Place(e, screen, at, cell, typed), screen)
  {
    var t := Place(e, screen, at, cell, typed);
    forall p | p in t.cells
      ensures WholeGuess(text, t, screen, p)
    {
      if p != at {
        assert WholeGuess(text, e, screen, p);
      }
    }
  }

  /** A wide guess with its right half, over cells that break no pair. */
  lemma PlacedWide(text: Text, e: Engine, screen: Screen, at: Spot, cell: Cell)
    requires Whole(text, e, screen)
    requires cell.half == Wide && SaneCell(text, cell)
    requires var right: Spot := (at.0, at.1 + 1);
             || (HalfIs(screen, at, Narrow) && HalfIs(screen, right, Narrow))
             || (HalfIs(screen, at, Wide) && HalfIs(screen, right, Covered))
    requires var right: Spot := (at.0, at.1 + 1);
             || ((at in e.cells ==> e.cells[at].guess.value.half == Narrow)
                 && (right in e.cells ==> e.cells[right].guess.value.half == Narrow))
             || (at in e.cells && e.cells[at].guess.value.half == Wide)
             || (at !in e.cells && right !in e.cells)
    ensures Whole(text, PlaceGlyph(e, screen, at, cell), screen)
  {
    hide WholeGuess, PlaceGlyph, HalfIs, SaneCell;
    var right: Spot := (at.0, at.1 + 1);
    var t := PlaceGlyph(e, screen, at, cell);
    PairOnly(e, screen, at, cell);
    assert at in e.cells ==> WholeGuess(text, e, screen, at);
    GuessThere(text, e, screen);
    forall p | p in t.cells
      ensures WholeGuess(text, t, screen, p)
    {
      if p != at && p != right {
        OtherWhole(text, e, t, screen, at, p);
      } else {
        PairWhole(text, e, screen, at, cell);
      }
    }
  }

  lemma PairOnly(e: Engine, screen: Screen, at: Spot, cell: Cell)
    requires cell.half == Wide
    ensures var t := PlaceGlyph(e, screen, at, cell);
            && t.cells.Keys == e.cells.Keys + {at, (at.0, at.1 + 1)}
            && forall q :: q in e.cells && q != at && q != (at.0, at.1 + 1) ==> q in t.cells && t.cells[q] == e.cells[q]
  {
  }

  lemma GuessThere(text: Text, e: Engine, screen: Screen)
    requires Whole(text, e, screen)
    ensures forall p :: p in e.cells ==> e.cells[p].guess.Some?
  {
  }

  /** The pair placed is whole. */
  lemma PairWhole(text: Text, e: Engine, screen: Screen, at: Spot, cell: Cell)
    requires cell.half == Wide && SaneCell(text, cell)
    requires var right: Spot := (at.0, at.1 + 1);
             || (HalfIs(screen, at, Narrow) && HalfIs(screen, right, Narrow))
             || (HalfIs(screen, at, Wide) && HalfIs(screen, right, Covered))
    ensures var t := PlaceGlyph(e, screen, at, cell);
            WholeGuess(text, t, screen, at) && WholeGuess(text, t, screen, (at.0, at.1 + 1))
  {
  }

  /** A guess beside the pair placed is as whole as it was: its own other half is not one of the two. */
  lemma OtherWhole(text: Text, e: Engine, t: Engine, screen: Screen, at: Spot, p: Spot)
    requires p in e.cells && WholeGuess(text, e, screen, p)
    requires at in e.cells ==> WholeGuess(text, e, screen, at)
    requires var right: Spot := (at.0, at.1 + 1); p != at && p != right
    requires forall q :: q in e.cells && q != at && q != (at.0, at.1 + 1) ==> q in t.cells && t.cells[q] == e.cells[q]
    requires var right: Spot := (at.0, at.1 + 1);
             || ((at in e.cells ==> e.cells[at].guess.value.half == Narrow)
                 && (right in e.cells ==> e.cells[right].guess.Some? && e.cells[right].guess.value.half == Narrow))
             || (at in e.cells && e.cells[at].guess.value.half == Wide)
             || (at !in e.cells && right !in e.cells)
    ensures p in t.cells && WholeGuess(text, t, screen, p)
  {
    assert t.cells[p] == e.cells[p];
    if e.cells[p].guess.value.half == Wide {
      var mate: Spot := (p.0, p.1 + 1);
      assert Mate(e, mate, Covered, e.cells[p]);
      assert mate != at;
    } else if e.cells[p].guess.value.half == Covered {
      var mate: Spot := (p.0, p.1 - 1);
      assert Mate(e, mate, Wide, e.cells[p]);
      assert mate != (at.0, at.1 + 1);
    }
  }

  lemma WholeAt(text: Text, e: Engine, screen: Screen, at: Spot)
    requires WellFormed(text, screen) && Whole(text, e, screen)
    ensures CellAt(screen, at).Some? ==> CellFits(text, screen, at)
    ensures at in e.cells ==> WholeGuess(text, e, screen, at)
  {
  }

  /** A character that joins the glyph before it leaves every pair whole. */
  lemma JoinedWhole(text: Text, e: Engine, screen: Screen, at: Spot, c: char)
    requires WellFormed(text, screen) && Whole(text, e, screen)
    requires GlyphBefore(e, screen, at).Some?
    requires var before := GlyphBefore(e, screen, at).value.1;
             text.width(before.text + [c]) == text.width(before.text)
    ensures var before := GlyphBefore(e, screen, at).value;
            Whole(text, PlaceGlyph(e, screen, (at.0, before.0), before.1.(text := before.1.text + [c])), screen)
  {
    hide GlyphBefore, WellFormed, Whole;
    BeforeIsGlyph(text, e, screen, at);
    var (col, before) := GlyphBefore(e, screen, at).value;
    var joined := before.(text := before.text + [c]);
    var spot: Spot := (at.0, col);
    var right: Spot := (at.0, col + 1);
    WholeAt(text, e, screen, spot);
    WholeAt(text, e, screen, right);
    if before.half == Narrow {
      PlacedNarrow(text, e, screen, spot, joined, true);
    } else {
      PlacedWide(text, e, screen, spot, joined);
    }
  }

  /** A glyph typed onto blanks leaves every pair whole. */
  lemma TypedWhole(text: Text, e: Engine, screen: Screen, at: Spot, c: char, attributes: nat)
    requires Whole(text, e, screen)
    requires var width := text.width([c]); width > 0 && AllBlank(e, screen, at.0, at.1, at.1 + width)
    ensures var half := if text.width([c]) == 2 then Wide else Narrow;
            Whole(text, PlaceGlyph(e, screen, at, Cell([c], attributes, half)), screen)
  {
    var half := if text.width([c]) == 2 then Wide else Narrow;
    assert BlankAt(e, screen, (at.0, at.1));
    BlankIsNarrow(text, e, screen, at);
    if half == Wide {
      var right: Spot := (at.0, at.1 + 1);
      assert BlankAt(e, screen, right);
      BlankIsNarrow(text, e, screen, right);
      PlacedWide(text, e, screen, at, Cell([c], attributes, half));
    } else {
      PlacedNarrow(text, e, screen, at, Cell([c], attributes, half), true);
    }
  }

  // ---- keys ------------------------------------------------------------------------------------------------------

  /** Steps that leave the guesses as they are, or drop them all. */
  lemma SameCells(text: Text, e: Engine, t: Engine, screen: Screen)
    requires Whole(text, e, screen) && (t.cells == e.cells || t.cells == map[])
    ensures Whole(text, t, screen)
  {
    forall at | at in t.cells
      ensures WholeGuess(text, t, screen, at)
    {
      assert WholeGuess(text, e, screen, at);
    }
  }

  lemma GlyphWhole(text: Text, e: Engine, screen: Screen, tty: Modes, c: char)
    requires WellFormed(text, screen) && Whole(text, e, screen)
    ensures Whole(text, PredictGlyph(text, e, screen, tty, c), screen)
  {
    hide WellFormed, Whole, PlaceGlyph, GlyphBefore, AllBlank;
    var t := Trusting(e, tty);
    SameCells(text, e, t, screen);
    var at := CursorAt(t, screen);
    var before := GlyphBefore(t, screen, at);
    var end := at.1 + text.width([c]);
    if before.Some? && text.continues(before.value.1.text, c) {
      var joined := before.value.1.(text := before.value.1.text + [c]);
      if text.width(joined.text) == text.width(before.value.1.text) {
        JoinedWhole(text, t, screen, at, c);
        SameCells(text, PlaceGlyph(t, screen, (at.0, before.value.0), joined), PredictGlyph(text, e, screen, tty, c), screen);
      } else {
        SameCells(text, t, PredictGlyph(text, e, screen, tty, c), screen);
      }
    } else if text.width([c]) == 0 || end > screen.cols || !AllBlank(t, screen, at.0, at.1, end) {
      SameCells(text, t, PredictGlyph(text, e, screen, tty, c), screen);
    } else {
      TypedWhole(text, t, screen, at, c, StyleAt(t, screen, at));
      var glyph := Cell([c], StyleAt(t, screen, at), if text.width([c]) == 2 then Wide else Narrow);
      SameCells(text, PlaceGlyph(t, screen, at, glyph), PredictGlyph(text, e, screen, tty, c), screen);
    }
  }

  lemma BackspaceWhole(text: Text, e: Engine, screen: Screen)
    requires SaneText(text) && WellFormed(text, screen) && Whole(text, e, screen)
    ensures Whole(text, PredictBackspace(e, screen), screen)
  {
    var at := CursorAt(e, screen);
    if && at.1 > 0 && MayStepBack(e, at) && BlankAt(e, screen, at)
       && (var left := GuessAt(e, screen, (at.0, at.1 - 1)); left.Some? && left.value.half == Narrow) {
      var left: Spot := (at.0, at.1 - 1);
      assert CellAt(screen, left).Some? ==> CellFits(text, screen, left);
      if left in e.cells {
        assert WholeGuess(text, e, screen, left);
      }
      assert CellAt(screen, at).Some? ==> CellFits(text, screen, at);
      var blank := GuessAt(e, screen, at).value;
      PlacedNarrow(text, e, screen, left, blank, false);
      SameCells(text, Place(e, screen, left, blank, false), PredictBackspace(e, screen), screen);
    } else {
      SameCells(text, e, PredictBackspace(e, screen), screen);
    }
  }

  lemma PredictedWhole(text: Text, e: Engine, screen: Screen, tty: Modes, press: Press)
    requires SaneText(text) && WellFormed(text, screen) && Whole(text, e, screen)
    ensures Whole(text, Predicted(text, e, screen, tty, press), screen)
  {
    hide PredictGlyph, PredictBackspace, WellFormed, Whole;
    BackspaceWhole(text, e, screen);
    SameCells(text, e, PredictEnter(e, screen), screen);
    SameCells(text, e, Unmodelled(e), screen);
    if press.key.Char? {
      GlyphWhole(text, e, screen, tty, press.key.c);
    } else if press.key.Arrow? {
      SameCells(text, e, PredictArrow(e, screen, press.key.right), screen);
    }
  }

  // ---- grading ---------------------------------------------------------------------------------------------------

  /** The halves of a predicted wide glyph stay or go together. */
  lemma HalvesGoTogether(text: Text, e: Engine, screen: Screen, at: Spot)
    requires SaneText(text) && WellFormed(text, screen) && Whole(text, e, screen)
    requires at in e.cells && e.cells[at].guess.value.half == Wide
    ensures at in Remaining(e, screen) <==> (at.0, at.1 + 1) in Remaining(e, screen)
  {
    var right: Spot := (at.0, at.1 + 1);
    assert WholeGuess(text, e, screen, at) && WholeGuess(text, e, screen, right);
    assert CellFits(text, screen, at) && CellFits(text, screen, right);
    var acked := e.acked;
    assert Mate(e, right, Covered, e.cells[at]);
    assert GradeOf(e, screen, at) == Pending <==> GradeOf(e, screen, right) == Pending;
  }

  lemma RemainingWhole(text: Text, e: Engine, screen: Screen)
    requires SaneText(text) && WellFormed(text, screen) && Whole(text, e, screen)
    ensures Whole(text, e.(cells := Remaining(e, screen)), screen)
  {
    var t := e.(cells := Remaining(e, screen));
    forall at | at in t.cells
      ensures WholeGuess(text, t, screen, at)
    {
      assert WholeGuess(text, e, screen, at);
      if e.cells[at].guess.value.half == Wide {
        HalvesGoTogether(text, e, screen, at);
      } else if e.cells[at].guess.value.half == Covered {
        var left: Spot := (at.0, at.1 - 1);
        assert left in e.cells;
        HalvesGoTogether(text, e, screen, left);
      }
    }
  }

  lemma CullWhole(text: Text, e: Engine, screen: Screen)
    requires SaneText(text) && WellFormed(text, screen) && Whole(text, e, screen)
    ensures Whole(text, Cull(e, screen), screen)
  {
    hide Whole, WellFormed, ShownWrong, Remaining, Killed, Confirmed, Epochs, Largest;
    var sized := e.(size := Some((screen.rows, screen.cols)));
    SameCells(text, e, sized, screen);
    RemainingWhole(text, sized, screen);
    var kept := sized.(cells := Remaining(sized, screen));
    SameCells(text, kept, Graded(sized, screen), screen);
    SameCells(text, Graded(sized, screen), CursorCulled(Graded(sized, screen), screen), screen);
    SameCells(text, sized, Reset(sized), screen);
  }

  // ---- runs ------------------------------------------------------------------------------------------------------

  /** The screen something happens against. */
  predicate Against(what: Happening, screen: Screen) {
    match what
    case Typed(_, s) => s == screen
    case Foreign(s) => s == screen
    case Frame(s) => s == screen
    case Acked(_) => true
    case Sent(_) => true
    case Told(_) => true
    case Held => true
  }

  lemma KeyWhole(text: Text, e: Engine, screen: Screen, press: Press)
    requires SaneText(text) && WellFormed(text, screen) && Whole(text, e, screen)
    ensures Whole(text, NewUserKey(text, e, screen, press), screen)
  {
    hide Cull, Predicted, WellFormed, Whole;
    CullWhole(text, e, screen);
    var culled := Cull(e, screen);
    var begun := if Printable(text, press) then BeginLine(culled, screen) else culled;
    SameCells(text, culled, begun, screen);
    var released := Released(begun);
    SameCells(text, begun, released, screen);
    if !InContext(begun, screen) {
      SameCells(text, begun, Unpredicted(text, begun, press), screen);
    } else if Holding(released) {
      SameCells(text, released, Unpredicted(text, released, press), screen);
    } else {
      PredictedWhole(text, released, screen, released.tty.value, press);
    }
  }

  lemma HappenedWhole(text: Text, e: Engine, what: Happening, screen: Screen)
    requires SaneText(text) && WellFormed(text, screen) && Whole(text, e, screen) && Against(what, screen)
    ensures Whole(text, Happened(text, e, what), screen)
  {
    hide Cull, WellFormed, Whole, NewUserKey;
    if what.Typed? {
      KeyWhole(text, e, screen, what.press);
    } else if what.Frame? || what.Foreign? {
      CullWhole(text, e, screen);
      SameCells(text, Cull(e, screen), Unmodelled(Cull(e, screen)), screen);
    } else {
      SameCells(text, e, Happened(text, e, what), screen);
    }
  }

  /** Whatever is typed, acked, held and graded against one well-formed screen, every predicted wide glyph keeps
      both halves, with one epoch and one expiry. */
  lemma {:induction false} StaysWhole(text: Text, e: Engine, run: seq<Happening>, screen: Screen)
    requires SaneText(text) && WellFormed(text, screen) && Whole(text, e, screen)
    requires forall i :: 0 <= i < |run| ==> Against(run[i], screen)
    ensures Whole(text, After(text, e, run), screen)
    decreases |run|
  {
    if run != [] {
      HappenedWhole(text, e, run[0], screen);
      StaysWhole(text, Happened(text, e, run[0]), run[1..], screen);
    }
  }

  /** The overlay draws a wide glyph whole: with its right half beside it, and no right half alone. */
  ghost predicate DrawnWhole(text: Text, drawn: Overlay) {
    && (forall at :: at in drawn.cells && drawn.cells[at].half == Wide ==> DrawnHalf(drawn, (at.0, at.1 + 1), Covered))
    && (forall at :: at in drawn.cells && drawn.cells[at].half == Covered ==>
        at.1 > 0 && DrawnHalf(drawn, (at.0, at.1 - 1), Wide))
    && (forall at :: at in drawn.cells ==> SaneCell(text, drawn.cells[at]))
  }

  predicate DrawnHalf(drawn: Overlay, at: Spot, half: Half) {
    at in drawn.cells && drawn.cells[at].half == half
  }

  /** From a fresh engine, whatever happens against one well-formed screen, the overlay never shows half a glyph,
      and what it draws as wide is text two cells wide. */
  lemma NeverHalfAGlyph(text: Text, run: seq<Happening>, screen: Screen, carried: bool)
    requires SaneText(text) && WellFormed(text, screen)
    requires forall i :: 0 <= i < |run| ==> Against(run[i], screen)
    ensures DrawnWhole(text, Drawn(After(text, FRESH.(carried := carried), run)))
  {
    var e := FRESH.(carried := carried);
    assert Whole(text, e, screen);
    StaysWhole(text, e, run, screen);
    var t := After(text, e, run);
    var drawn := Drawn(t);
    forall at | at in drawn.cells
      ensures SaneCell(text, drawn.cells[at])
      ensures drawn.cells[at].half == Wide ==> DrawnHalf(drawn, (at.0, at.1 + 1), Covered)
      ensures drawn.cells[at].half == Covered ==> at.1 > 0 && DrawnHalf(drawn, (at.0, at.1 - 1), Wide)
    {
      assert WholeGuess(text, t, screen, at);
    }
  }
}
