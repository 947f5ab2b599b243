/** Local-echo prediction: what each key is guessed to do to the screen, when a guess is shown, and how a frame
    grades it. */
module Predict {
  import opened Bytes

  /** What the terminal knows of text: how wide it is, whether a character joins the glyph before it, and what
      is a control. */
  datatype Text = Text(width: string -> nat, continues: (string, char) -> bool, control: char -> bool)

  /** Which part of a glyph a cell holds. */
  datatype Half = Narrow | Wide | Covered

  datatype Cell = Cell(text: string, attributes: nat, half: Half)

  type Spot = (nat, nat)

  datatype Screen = Screen(rows: nat, cols: nat, cells: seq<seq<Cell>>, cursor: Spot, alternate: bool)

  datatype Modes = Modes(echo: bool, line: bool)

  datatype Key = Char(c: char) | Backspace | Enter | Arrow(right: bool) | OtherKey

  datatype Press = Press(key: Key, alt: bool, ctrl: bool)

  /** A guess for one cell, stamped with when it is graded and the epoch that hides it. */
  datatype Guess = Guess(expiry: nat, epoch: nat, guess: Option<Cell>, original: string, typed: bool)

  datatype Guessed = Guessed(expiry: nat, epoch: nat, row: nat, col: nat)

  datatype Line = Unknown | Fresh(enter: nat) | Started(row: nat, col: nat)

  datatype Engine = Engine(
    cells: map<Spot, Guess>, cursor: Option<Guessed>, predicting: nat, confirmed: nat, sent: nat, acked: nat,
    held: Option<nat>, size: Option<Spot>, tty: Option<Modes>, carried: bool, line: Line)

  datatype Validity = Pending | Correct | NoCredit | Wrong

  const FIRST_EPOCH := 1

  const FRESH := Engine(map[], None, FIRST_EPOCH, 0, 0, 0, None, None, None, false, Unknown)

  /** Whether the PTY reads lines without echo: a password prompt. */
  predicate Password(tty: Modes) {
    tty.line && !tty.echo
  }

  function Max(a: nat, b: nat): nat {
    if a >= b then a else b
  }

  function CellAt(screen: Screen, at: Spot): Option<Cell> {
    if at.0 < |screen.cells| && at.1 < |screen.cells[at.0]| then Some(screen.cells[at.0][at.1]) else None
  }

  predicate Blank(text: string) {
    text == "" || text == " "
  }

  predicate BlankCell(cell: Cell) {
    cell.half == Narrow && Blank(cell.text)
  }

  // ---- small steps -------------------------------------------------------------------------------------------

  /** A fresh engine for a reconnect to the same session: with trust if typing was shown as predicted. */
  function Reattached(e: Engine): Engine {
    FRESH.(carried := e.carried || e.predicting == e.confirmed)
  }

  function DiscardLine(e: Engine): Engine {
    if e.line.Started? then e.(line := Unknown) else e
  }

  /** All predictions dropped, a fresh epoch opened. */
  function Reset(e: Engine): Engine {
    DiscardLine(e.(cells := map[], cursor := None)).(predicting := e.predicting + 1)
  }

  function Tentative(e: Engine): Engine {
    e.(predicting := e.predicting + 1)
  }

  predicate Hidden(e: Engine, epoch: nat) {
    epoch > e.confirmed
  }

  /** A key not modelled: a new epoch, and where the line began is not known. */
  function Unmodelled(e: Engine): Engine {
    Tentative(e).(line := Unknown)
  }

  /** How the PTY takes typed keys, as a frame said. */
  function SetTty(e: Engine, tty: Option<Modes>): Engine {
    var t := e.(tty := tty);
    if tty.Some? && Password(tty.value) then
      (if e.cells != map[] || e.cursor.Some? then Reset(t) else t).(carried := false)
    else if tty.Some? && e.carried then t.(carried := false, confirmed := Max(e.confirmed, e.predicting))
    else t
  }

  function NextFrame(e: Engine): nat {
    e.sent + 1
  }

  function GuessAt(e: Engine, screen: Screen, at: Spot): Option<Cell> {
    if at in e.cells then e.cells[at].guess else CellAt(screen, at)
  }

  /** Predict `guess` at `at`, stamped with the next frame, the current epoch and the glyph it overwrites. */
  function Place(e: Engine, screen: Screen, at: Spot, guess: Cell, typed: bool): Engine {
    var actual := CellAt(screen, at);
    var original := if actual.Some? then actual.value.text else "";
    e.(cells := e.cells[at := Guess(NextFrame(e), e.predicting, Some(guess), original, typed)])
  }

  /** Predict the typed glyph, and if it is wide, the cell it covers. */
  function PlaceGlyph(e: Engine, screen: Screen, at: Spot, cell: Cell): Engine {
    var placed := Place(e, screen, at, cell, true);
    if cell.half == Wide then Place(placed, screen, (at.0, at.1 + 1), Cell("", cell.attributes, Covered), true) else placed
  }

  function CursorAt(e: Engine, screen: Screen): Spot {
    if e.cursor.Some? then (e.cursor.value.row, e.cursor.value.col) else screen.cursor
  }

  function MoveCursor(e: Engine, at: Spot): Engine {
    e.(cursor := Some(Guessed(NextFrame(e), e.predicting, at.0, at.1)))
  }

  function Newline(e: Engine, screen: Screen): Engine {
    var row := CursorAt(e, screen).0;
    MoveCursor(e, (if row + 1 < screen.rows then row + 1 else row, 0))
  }

  function BeginLine(e: Engine, screen: Screen): Engine {
    if !e.line.Fresh? then e
    else if e.cursor.None? && e.acked >= e.line.enter then e.(line := Started(screen.cursor.0, screen.cursor.1))
    else e.(line := Unknown)
  }

  /** The glyph left of `at`, with its column. */
  function GlyphBefore(e: Engine, screen: Screen, at: Spot): Option<(nat, Cell)> {
    if at.1 == 0 then None
    else
      var left := GuessAt(e, screen, (at.0, at.1 - 1));
      if left.None? then None
      else if left.value.half == Covered then
        if at.1 == 1 then None
        else
          var wide := GuessAt(e, screen, (at.0, at.1 - 2));
          if wide.Some? && wide.value.text != "" && wide.value.half != Covered then Some((at.1 - 2, wide.value)) else None
      else if left.value.text != "" then Some((at.1 - 1, left.value)) else None
  }

  /** Whether every cell from `from` up to `end` is a narrow blank. */
  predicate AllBlank(e: Engine, screen: Screen, row: nat, from: nat, end: nat) {
    forall col: nat :: from <= col < end ==> BlankAt(e, screen, (row, col))
  }

  predicate BlankAt(e: Engine, screen: Screen, at: Spot) {
    var guess := GuessAt(e, screen, at);
    guess.Some? && BlankCell(guess.value)
  }

  // ---- keys ----------------------------------------------------------------------------------------------------

  /** With the kernel echoing, the program need not prove it does: the first epoch is trusted. */
  function Trusting(e: Engine, tty: Modes): Engine {
    if tty.echo then e.(confirmed := Max(e.confirmed, FIRST_EPOCH)) else e
  }

  /** The style a typed glyph takes: its left neighbour's. */
  function StyleAt(e: Engine, screen: Screen, at: Spot): nat {
    if at.1 == 0 then 0
    else
      var left := GuessAt(e, screen, (at.0, at.1 - 1));
      if left.Some? && (left.value.text != "" || left.value.half == Covered) then left.value.attributes else 0
  }

  /** Predict the grapheme `c` continues or begins, typed at the cursor onto blank cells. */
  function PredictGlyph(text: Text, e0: Engine, screen: Screen, tty: Modes, c: char): Engine {
    var e := Trusting(e0, tty);
    var at := CursorAt(e, screen);
    var before := GlyphBefore(e, screen, at);
    if before.Some? && text.continues(before.value.1.text, c) then
      var joined := before.value.1.(text := before.value.1.text + [c]);
      if text.width(joined.text) != text.width(before.value.1.text) then Unmodelled(e)
      else MoveCursor(PlaceGlyph(e, screen, (at.0, before.value.0), joined), at)
    else
      var width := text.width([c]);
      var end := at.1 + width;
      if width == 0 || end > screen.cols || !AllBlank(e, screen, at.0, at.1, end) then Unmodelled(e)
      else
        var glyph := Cell([c], StyleAt(e, screen, at), if width == 2 then Wide else Narrow);
        var placed := PlaceGlyph(e, screen, at, glyph);
        if end < screen.cols then MoveCursor(placed, (at.0, end)) else Newline(Tentative(placed), screen)
  }

  predicate MayStepBack(e: Engine, at: Spot) {
    if e.line.Started? && e.line.row == at.0 then at.1 > e.line.col
    else at.1 > 0 && (at.0, at.1 - 1) in e.cells && e.cells[(at.0, at.1 - 1)].typed
  }

  function PredictBackspace(e: Engine, screen: Screen): Engine {
    var at := CursorAt(e, screen);
    if && at.1 > 0 && MayStepBack(e, at) && BlankAt(e, screen, at)
       && (var left := GuessAt(e, screen, (at.0, at.1 - 1)); left.Some? && left.value.half == Narrow)
    then MoveCursor(Place(e, screen, (at.0, at.1 - 1), GuessAt(e, screen, at).value, false), (at.0, at.1 - 1))
    else Unmodelled(e)
  }

  function PredictArrow(e: Engine, screen: Screen, right: bool): Engine {
    var at := CursorAt(e, screen);
    if right then if at.1 + 1 < screen.cols then MoveCursor(e, (at.0, at.1 + 1)) else Unmodelled(e)
    else if at.1 > 0 && MayStepBack(e, at) then MoveCursor(e, (at.0, at.1 - 1))
    else Unmodelled(e)
  }

  function PredictEnter(e: Engine, screen: Screen): Engine {
    Newline(Tentative(e), screen).(line := Fresh(NextFrame(e)))
  }

  /** Nothing is predicted for what is typed now, nor after, until the server has reflected it. */
  function Hold(e: Engine): Engine {
    Tentative(e.(held := Some(NextFrame(e))))
  }

  predicate Holding(e: Engine) {
    e.held.Some? && e.acked < e.held.value
  }

  function Released(e: Engine): Engine {
    if e.held.Some? && !Holding(e) then e.(held := None) else e
  }

  /** Whether a key may be predicted: on the primary screen, the PTY's modes known and no password prompt. */
  predicate InContext(e: Engine, screen: Screen) {
    e.tty.Some? && !Password(e.tty.value) && !screen.alternate && screen.rows > 0 && screen.cols > 0
  }

  predicate Printable(text: Text, press: Press) {
    press.key.Char? && !press.alt && !press.ctrl && !text.control(press.key.c)
  }

  function Lower(c: char): char {
    if 'A' <= c <= 'Z' then (c as int + 32) as char else c
  }

  /** What a key predicted does. */
  function Predicted(text: Text, e: Engine, screen: Screen, tty: Modes, press: Press): Engine {
    if press.key.Char? && !press.alt && press.ctrl then
      var c := Lower(press.key.c);
      if c == 'h' then PredictBackspace(e, screen)
      else if c == 'j' || c == 'm' then PredictEnter(e, screen)
      else Unmodelled(e)
    else if Printable(text, press) then PredictGlyph(text, e, screen, tty, press.key.c)
    else if press.key.Backspace? && !press.alt && !press.ctrl then PredictBackspace(e, screen)
    else if press.key.Enter? && !press.alt && !press.ctrl then PredictEnter(e, screen)
    else if press.key.Arrow? && !press.alt && !press.ctrl && !tty.echo then PredictArrow(e, screen, press.key.right)
    else Unmodelled(e)
  }

  /** A key that may not be predicted: hidden, and where the line begins tracked. */
  function Unpredicted(text: Text, e: Engine, press: Press): Engine {
    Tentative(e).(line := if press.key.Enter? && !press.alt && !press.ctrl then Fresh(NextFrame(e))
                          else if Printable(text, press) then e.line else Unknown)
  }

  ghost function NewUserKey(text: Text, e: Engine, screen: Screen, press: Press): Engine {
    var culled := Cull(e, screen);
    var begun := if Printable(text, press) then BeginLine(culled, screen) else culled;
    if !InContext(begun, screen) then Unpredicted(text, begun, press)
    else
      var released := Released(begun);
      if Holding(released) then Unpredicted(text, released, press)
      else Predicted(text, released, screen, released.tty.value, press)
  }

  ghost function NewUserOther(e: Engine, screen: Screen): Engine {
    Unmodelled(Cull(e, screen))
  }

  // ---- grading -------------------------------------------------------------------------------------------------

  function Grade(cell: Guess, screen: Screen, at: Spot, acked: nat): Validity {
    var actual := CellAt(screen, at);
    if actual.None? then Wrong
    else if acked < cell.expiry then Pending
    else if cell.guess.None? then NoCredit
    else if cell.guess.value.half == Covered then if actual.value.half == Covered then NoCredit else Wrong
    else if Blank(cell.guess.value.text) then NoCredit
    else if actual.value.text != cell.guess.value.text then Wrong
    else if cell.original == cell.guess.value.text then NoCredit
    else Correct
  }

  function GradeOf(e: Engine, screen: Screen, at: Spot): Validity
    requires at in e.cells
  {
    Grade(e.cells[at], screen, at, e.acked)
  }

  function CursorGrade(cursor: Guessed, screen: Screen, acked: nat): Validity {
    if cursor.row >= screen.rows || cursor.col >= screen.cols then Wrong
    else if acked < cursor.expiry then Pending
    else if screen.cursor == (cursor.row, cursor.col) then Correct
    else Wrong
  }

  /** A guess shown was wrong. */
  ghost predicate ShownWrong(e: Engine, screen: Screen) {
    exists at :: at in e.cells && GradeOf(e, screen, at) == Wrong && !Hidden(e, e.cells[at].epoch)
  }

  function Killed(e: Engine, screen: Screen): set<nat> {
    set at | at in e.cells && GradeOf(e, screen, at) == Wrong :: e.cells[at].epoch
  }

  function Confirmed(e: Engine, screen: Screen): set<Spot> {
    set at | at in e.cells && GradeOf(e, screen, at) == Correct
  }

  function Epochs(e: Engine, spots: set<Spot>): set<nat>
    requires forall at :: at in spots ==> at in e.cells
  {
    set at | at in spots :: e.cells[at].epoch
  }

  /** The largest of `least` and `numbers`. */
  ghost function Largest(least: nat, numbers: set<nat>): (most: nat)
    ensures most == least || most in numbers
    ensures least <= most && forall n :: n in numbers ==> n <= most
    decreases |numbers|
  {
    if numbers == {} then least
    else
      var n :| n in numbers;
      var rest := Largest(least, numbers - {n});
      assert forall m :: m in numbers ==> m == n || m in numbers - {n};
      Max(n, rest)
  }

  /** The column of the confirmed cell nearest on the left of `col`, or at it. */
  function NearestLeft(confirmed: set<Spot>, row: nat, col: nat): Option<nat> {
    if (row, col) in confirmed then Some(col)
    else if col == 0 then None
    else NearestLeft(confirmed, row, col - 1)
  }

  /** A pending guess takes the style its own frame gave the cell confirmed on its left. */
  function Restyled(screen: Screen, confirmed: set<Spot>, at: Spot, cell: Guess): Guess {
    var near := NearestLeft(confirmed, at.0, at.1);
    if cell.typed && cell.guess.Some? && near.Some? && CellAt(screen, (at.0, near.value)).Some?
    then cell.(guess := Some(cell.guess.value.(attributes := CellAt(screen, (at.0, near.value)).value.attributes)))
    else cell
  }

  /** The cells pending after a frame: those of no epoch it proved wrong. */
  function Remaining(e: Engine, screen: Screen): map<Spot, Guess> {
    map at | at in e.cells && GradeOf(e, screen, at) == Pending && e.cells[at].epoch !in Killed(e, screen)
      :: Restyled(screen, Confirmed(e, screen), at, e.cells[at])
  }

  function CursorCulled(e: Engine, screen: Screen): Engine {
    if e.cursor.None? then e
    else
      match CursorGrade(e.cursor.value, screen, e.acked)
      case Wrong => Reset(e)
      case Pending => e
      case Correct => e.(cursor := None)
      case NoCredit => e.(cursor := None)
  }

  ghost function Graded(e: Engine, screen: Screen): Engine {
    var t := e.(confirmed := Largest(e.confirmed, Epochs(e, Confirmed(e, screen))), cells := Remaining(e, screen));
    if Killed(e, screen) == {} then t else MoveCursor(Tentative(DiscardLine(t)), screen.cursor)
  }

  /** Grade the guesses against a frame's screen: confirmed ones go, a wrong one takes its epoch with it, or
      every guess if it was shown. */
  ghost function Cull(e: Engine, screen: Screen): Engine {
    var size: Spot := (screen.rows, screen.cols);
    var sized := e.(size := Some(size));
    if (e.size.Some? && e.size.value != size) || ShownWrong(sized, screen) then Reset(sized)
    else CursorCulled(Graded(sized, screen), screen)
  }

  // ---- what is drawn -------------------------------------------------------------------------------------------

  datatype Overlay = Overlay(cells: map<Spot, Cell>, cursor: Option<Spot>)

  predicate Prompted(e: Engine) {
    e.tty.Some? && Password(e.tty.value)
  }

  predicate Shown(e: Engine, at: Spot) {
    at in e.cells && e.cells[at].guess.Some? && !Hidden(e, e.cells[at].epoch)
  }

  /** What to draw now: the guesses of confirmed epochs, unless at a password prompt. */
  function Drawn(e: Engine): Overlay {
    if Prompted(e) then Overlay(map[], None)
    else
      Overlay(map at | at in e.cells && Shown(e, at) :: e.cells[at].guess.value,
              if e.cursor.Some? && !Hidden(e, e.cursor.value.epoch) then Some((e.cursor.value.row, e.cursor.value.col))
              else None)
  }

  // ---- runs ----------------------------------------------------------------------------------------------------

  /** What happens to the engine, each with the screen it happens against. */
  datatype Happening =
    | Typed(press: Press, screen: Screen)
    | Foreign(screen: Screen)
    | Frame(screen: Screen)
    | Acked(frame: nat)
    | Sent(frame: nat)
    | Told(tty: Option<Modes>)
    | Held

  ghost function Happened(text: Text, e: Engine, what: Happening): Engine {
    match what
    case Typed(press, screen) => NewUserKey(text, e, screen, press)
    case Foreign(screen) => NewUserOther(e, screen)
    case Frame(screen) => Cull(e, screen)
    case Acked(frame) => e.(acked := frame)
    case Sent(frame) => e.(sent := frame)
    case Told(tty) => SetTty(e, tty)
    case Held => Hold(e)
  }

  ghost function After(text: Text, e: Engine, run: seq<Happening>): Engine
    decreases |run|
  {
    if run == [] then e else After(text, Happened(text, e, run[0]), run[1..])
  }
}
