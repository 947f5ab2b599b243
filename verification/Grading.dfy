/** What a frame does to the guesses, said of the guesses and the screen; what Backspace may reach; and what a reconnect
    trusts. */
module Grading {
  import opened Bytes
  import opened Predict
  import opened Trust

  // ---- a frame ---------------------------------------------------------------------------------------------

  /** The guess cannot be: its cell is not on the screen; or its input is reflected, and the cell shows another glyph, or no
      right half where one was guessed. A blank guessed is never mistaken. */
  predicate Mistaken(e: Engine, screen: Screen, at: Spot)
    requires at in e.cells
  {
    var cell, actual := e.cells[at], CellAt(screen, at);
    || actual.None?
    || (cell.expiry <= e.acked && cell.guess.Some?
        && if cell.guess.value.half == Covered then actual.value.half != Covered
           else !Blank(cell.guess.value.text) && actual.value.text != cell.guess.value.text)
  }

  ghost predicate AnyMistaken(e: Engine, screen: Screen) {
    exists at :: at in e.cells && Mistaken(e, screen, at)
  }

  /** The cursor cannot be where it is guessed. */
  predicate CursorOff(e: Engine, screen: Screen) {
    e.cursor.Some?
    && var c := e.cursor.value;
       c.row >= screen.rows || c.col >= screen.cols || (c.expiry <= e.acked && screen.cursor != (c.row, c.col))
  }

  /** A frame shows the user was misled: by a guess that was drawn, or the cursor alone; or has another size. */
  ghost predicate Misled(e: Engine, screen: Screen) {
    || (e.size.Some? && e.size.value != (screen.rows, screen.cols))
    || (exists at :: at in e.cells && Mistaken(e, screen, at) && e.cells[at].epoch <= e.confirmed)
    || (!AnyMistaken(e, screen) && CursorOff(e, screen))
  }

  /** The guess is still to be reflected, and none of its epoch is mistaken. */
  ghost predicate Awaits(e: Engine, screen: Screen, at: Spot)
    requires at in e.cells
  {
    && CellAt(screen, at).Some? && e.acked < e.cells[at].expiry
    && forall b :: b in e.cells && e.cells[b].epoch == e.cells[at].epoch ==> !Mistaken(e, screen, b)
  }

  lemma GradeIs(e: Engine, screen: Screen, at: Spot)
    requires at in e.cells
    ensures GradeOf(e, screen, at) == Wrong <==> Mistaken(e, screen, at)
    ensures GradeOf(e, screen, at) == Pending <==> CellAt(screen, at).Some? && e.acked < e.cells[at].expiry
  {
  }

  lemma KilledIs(e: Engine, screen: Screen)
    ensures Killed(e, screen) == {} <==> !AnyMistaken(e, screen)
    ensures forall at :: at in e.cells ==>
              (e.cells[at].epoch in Killed(e, screen) <==>
               exists b :: b in e.cells && e.cells[b].epoch == e.cells[at].epoch && Mistaken(e, screen, b))
  {
    hide GradeOf, Mistaken;
    forall at | at in e.cells ensures GradeOf(e, screen, at) == Wrong <==> Mistaken(e, screen, at) { GradeIs(e, screen, at); }
    if AnyMistaken(e, screen) {
      var at :| at in e.cells && Mistaken(e, screen, at);
      assert e.cells[at].epoch in Killed(e, screen);
    }
  }

  lemma InRemaining(e: Engine, screen: Screen, at: Spot)
    ensures var left := Remaining(e, screen);
            && (at in left <==> at in e.cells && GradeOf(e, screen, at) == Pending && e.cells[at].epoch !in Killed(e, screen))
            && (at in left ==> left[at] == Restyled(screen, Confirmed(e, screen), at, e.cells[at]))
  {
    hide GradeOf, Killed, Confirmed, Restyled;
  }

  lemma SizedMistaken(e: Engine, screen: Screen)
    ensures var sized := e.(size := Some((screen.rows, screen.cols)));
            forall at :: at in e.cells ==> (Mistaken(sized, screen, at) <==> Mistaken(e, screen, at))
  {
  }

  /** What is left by a frame that does not mislead. */
  lemma RemainingIs(e: Engine, screen: Screen, at: Spot)
    ensures var left := Remaining(e.(size := Some((screen.rows, screen.cols))), screen);
            && (at in left <==> at in e.cells && Awaits(e, screen, at))
            && (at in left ==> SameGuess(left[at], e.cells[at]))
  {
    hide GradeOf, Mistaken, Killed, Confirmed, Restyled, Remaining, SameGuess;
    var sized := e.(size := Some((screen.rows, screen.cols)));
    InRemaining(sized, screen, at);
    if at in e.cells {
      GradeIs(sized, screen, at);
      StyleOnly(screen, Confirmed(sized, screen), at, e.cells[at]);
      KilledIs(sized, screen);
      SizedMistaken(e, screen);
    }
  }

  lemma CursorGradeIs(e: Engine, screen: Screen)
    requires e.cursor.Some?
    ensures CursorGrade(e.cursor.value, screen, e.acked) == Wrong <==> CursorOff(e, screen)
  {
  }

  lemma ShownIs(e: Engine, screen: Screen)
    ensures ShownWrong(e, screen) <==> exists at :: at in e.cells && Mistaken(e, screen, at) && e.cells[at].epoch <= e.confirmed
  {
    hide GradeOf, Mistaken;
    forall at | at in e.cells ensures GradeOf(e, screen, at) == Wrong <==> Mistaken(e, screen, at) { GradeIs(e, screen, at); }
    if at :| at in e.cells && Mistaken(e, screen, at) && e.cells[at].epoch <= e.confirmed {
      assert GradeOf(e, screen, at) == Wrong && !Hidden(e, e.cells[at].epoch);
    }
  }

  /** A frame of the same size, whose mistaken guesses, if any, were not drawn. */
  lemma NotGivenUp(e: Engine, screen: Screen)
    requires screen.cursor.0 < screen.rows && screen.cursor.1 < screen.cols && e.size == Some((screen.rows, screen.cols))
    requires !ShownWrong(e, screen)
    ensures var n := CursorCulled(Graded(e, screen), screen);
            if !AnyMistaken(e, screen) && CursorOff(e, screen) then n.cells == map[] && n.cursor.None? && n.predicting > e.predicting
            else n.cells == Remaining(e, screen)
  {
    hide Mistaken, ShownWrong, Killed, Remaining, Confirmed, Epochs, Largest, AnyMistaken;
    KilledIs(e, screen);
    var graded := Graded(e, screen);
    if graded.cursor.Some? { CursorGradeIs(graded, screen); }
  }

  /** A frame takes everything if it misled the user; else just the guesses it reflects, and those of an epoch with a mistaken
      one. */
  lemma FrameSettles(e: Engine, screen: Screen)
    requires screen.cursor.0 < screen.rows && screen.cursor.1 < screen.cols
    ensures var n := Cull(e, screen);
            if Misled(e, screen) then n.cells == map[] && n.cursor.None? && n.predicting > e.predicting
            else forall at :: (at in n.cells <==> at in e.cells && Awaits(e, screen, at))
                              && (at in n.cells ==> SameGuess(n.cells[at], e.cells[at]))
  {
    hide Mistaken, ShownWrong, Remaining, Graded, CursorCulled, Awaits;
    var sized := e.(size := Some((screen.rows, screen.cols)));
    forall at | at in e.cells ensures Mistaken(sized, screen, at) <==> Mistaken(e, screen, at) { SizedSame(e, screen, at); }
    ShownIs(sized, screen);
    if !ShownWrong(sized, screen) { NotGivenUp(sized, screen); }
    forall at
      ensures var left := Remaining(sized, screen);
              (at in left <==> at in e.cells && Awaits(e, screen, at)) && (at in left ==> SameGuess(left[at], e.cells[at]))
    {
      RemainingIs(e, screen, at);
    }
  }

  lemma SizedSame(e: Engine, screen: Screen, at: Spot)
    requires at in e.cells
    ensures var sized := e.(size := Some((screen.rows, screen.cols)));
            GradeOf(sized, screen, at) == GradeOf(e, screen, at) && Mistaken(sized, screen, at) == Mistaken(e, screen, at)
  {
  }

  lemma StyleOnly(screen: Screen, confirmed: set<Spot>, at: Spot, cell: Guess)
    ensures SameGuess(Restyled(screen, confirmed, at, cell), cell)
  {
    hide NearestLeft;
  }

  // ---- what Backspace and Left may reach -------------------------------------------------------------------

  /** `at` is of the line being typed: past where that began, if it is known to begin in this row; else a glyph the engine
      guessed itself, never the prompt. */
  predicate OwnLine(e: Engine, at: Spot) {
    if e.line.Started? && e.line.row == at.0 then at.1 >= e.line.col else at in e.cells && e.cells[at].typed
  }

  /** A guess that was not there, of a cell erased. */
  predicate Erases(e: Engine, n: Engine, at: Spot) {
    at in n.cells && !n.cells[at].typed && (at !in e.cells || n.cells[at] != e.cells[at])
  }

  /** Backspace or an arrow takes the cursor left. */
  predicate StepsLeft(e: Engine, n: Engine, screen: Screen, press: Press) {
    var from, to := CursorAt(e, screen), CursorAt(n, screen);
    (press.key.Backspace? || press.key.Arrow?) && to.0 == from.0 && to.1 < from.1
  }

  lemma BackReaches(e: Engine, screen: Screen, at: Spot)
    ensures var n := PredictBackspace(e, screen);
            && (Erases(e, n, at) ==> OwnLine(e, at))
            && (CursorAt(n, screen) != CursorAt(e, screen) ==> OwnLine(e, CursorAt(n, screen)))
  {
    hide BlankAt, GuessAt;
  }

  lemma ArrowReaches(e: Engine, screen: Screen, right: bool, at: Spot)
    ensures var n := PredictArrow(e, screen, right);
            && !Erases(e, n, at)
            && (CursorAt(n, screen).1 < CursorAt(e, screen).1 ==> OwnLine(e, CursorAt(n, screen)))
  {
  }

  lemma PredictedReaches(text: Text, e: Engine, screen: Screen, tty: Predict.Modes, press: Press, at: Spot)
    ensures var n := Predicted(text, e, screen, tty, press);
            && (Erases(e, n, at) ==> OwnLine(e, at))
            && (StepsLeft(e, n, screen, press) ==> OwnLine(e, CursorAt(n, screen)))
  {
    hide PredictGlyph, PredictBackspace, PredictArrow, OwnLine;
    BackReaches(e, screen, at);
    if press.key.Arrow? { ArrowReaches(e, screen, press.key.right, at); }
    if press.key.Char? && Printable(text, press) { GlyphErasesNone(text, e, screen, tty, press.key.c, at); }
  }

  lemma GlyphErasesNone(text: Text, e: Engine, screen: Screen, tty: Predict.Modes, c: char, at: Spot)
    ensures !Erases(e, PredictGlyph(text, e, screen, tty, c), at)
  {
    hide GlyphBefore, AllBlank, StyleAt, CursorAt;
  }

  /** No key erases, nor moves the cursor left over, what is not of the line being typed. */
  lemma ReachesOwnLine(text: Text, e: Engine, screen: Screen, press: Press, at: Spot)
    ensures var read, n := Reading(text, e, screen, press), NewUserKey(text, e, screen, press);
            && (Erases(read, n, at) ==> OwnLine(read, at))
            && (StepsLeft(read, n, screen, press) ==> OwnLine(read, CursorAt(n, screen)))
  {
    hide Cull, Predicted;
    var read := Reading(text, e, screen, press);
    if InContext(read, screen) && !Holding(read) { PredictedReaches(text, read, screen, read.tty.value, press, at); }
  }

  // ---- where a line begins ---------------------------------------------------------------------------------

  lemma PredictedLine(text: Text, e: Engine, screen: Screen, tty: Predict.Modes, press: Press)
    requires GuessedHere(text, e, screen, tty.echo, press)
    ensures Predicted(text, e, screen, tty, press).line == e.line
  {
    hide GlyphBefore, AllBlank, StyleAt, BlankAt;
    if press.key.Char? && !press.ctrl { TrustingSame(text, e, screen, tty, press.key.c); }
  }

  /** The first glyph guessed after Enter, once a frame reflects that with no guess of the cursor's place left, begins the line
      where the program has its cursor; and no guess moves the beginning of a line that is known. */
  lemma LineBegins(text: Text, e: Engine, screen: Screen, press: Press)
    requires Printable(text, press)
    requires var read := Reading(text, e, screen, press);
             InContext(read, screen) && !Holding(read) && GuessedHere(text, read, screen, read.tty.value.echo, press)
    ensures var culled, n := Cull(e, screen), NewUserKey(text, e, screen, press);
            && (n.line == Started(screen.cursor.0, screen.cursor.1) && culled.line.Fresh? <==>
                culled.line.Fresh? && culled.cursor.None? && culled.acked >= culled.line.enter)
            && (culled.line.Started? ==> n.line == culled.line)
  {
    hide Cull, Predicted, GuessedHere;
    var read := Reading(text, e, screen, press);
    PredictedLine(text, read, screen, read.tty.value, press);
  }

  // ---- a reconnect -----------------------------------------------------------------------------------------

  /** After any run, the fresh engine of a reconnect to the same session draws what is typed at once if and only if the old
      one would have; past the first epoch, if and only if a frame earned that. */
  lemma ReattachedTrusts(text: Text, run: seq<Happening>, tty: Predict.Modes)
    requires !Password(tty)
    ensures var e := After(text, FRESH, run);
            var n := SetTty(Reattached(e), Some(tty));
            && (!Hidden(n, n.predicting) <==> !Hidden(e, e.predicting))
            && (e.predicting > FIRST_EPOCH ==> (!Hidden(n, n.predicting) <==> Earned(text, FRESH, run, e.predicting)))
            && n.cells == map[] && n.cursor.None? && !n.carried
  {
    hide Earned, After;
    var e := After(text, FRESH, run);
    TrustedIffEarned(text, FRESH, run, FIRST_EPOCH + 1);
    if e.predicting > FIRST_EPOCH { TrustedIffEarned(text, FRESH, run, e.predicting); }
  }
}
