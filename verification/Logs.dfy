/** A job's log: the newest bytes it wrote, the oldest dropped past its budget and counted. */
module Logs {
  import opened Bytes

  /** What a log keeps, of how many bytes written in all. */
  datatype Kept = Kept(bytes: seq<byte>, total: nat, budget: nat)

  const NEWLINE: byte := 0x0a

  function Min(a: nat, b: nat): nat {
    if a <= b then a else b
  }

  function Larger(a: nat, b: nat): nat {
    if a >= b then a else b
  }

  /** Bytes written, the oldest dropped in one move once twice the budget is held. */
  function Appended(log: Kept, bytes: seq<byte>): Kept {
    var all := log.bytes + bytes;
    log.(bytes := if |all| > 2 * log.budget then all[|all| - log.budget..] else all, total := log.total + |bytes|)
  }

  /** Bytes no longer kept. */
  function Dropped(log: Kept): nat {
    if log.total >= |log.bytes| then log.total - |log.bytes| else 0
  }

  /** How many bytes are skipped, dropped before byte `at`'s place, and what is kept from there, at most `max`. */
  function Read(log: Kept, at: nat, max: nat): (nat, seq<byte>) {
    var dropped := Dropped(log);
    var skipped := if dropped >= at then dropped - at else 0;
    var from := Larger(at, dropped) - dropped;
    var rest := if from <= |log.bytes| then log.bytes[from..] else [];
    (skipped, rest[..Min(max, |rest|)])
  }

  /** How many bytes appending moves, dropping the excess. */
  function Moved(log: Kept, bytes: seq<byte>): nat {
    if |log.bytes| + |bytes| > 2 * log.budget then log.budget else 0
  }

  // ---- the log is the end of what was written ----------------------------------------------------------------------

  /** The log holds the end of `written`, and not past twice its budget. */
  predicate Holds(log: Kept, written: seq<byte>) {
    && log.total == |written| && |log.bytes| <= |written| && |log.bytes| <= 2 * log.budget
    && log.bytes == written[|written| - |log.bytes|..]
  }

  /** Appending keeps the log the end of what was written; what it drops is more than it moves, and it keeps at least
      its budget of bytes, or all there are. */
  lemma AppendKeeps(log: Kept, written: seq<byte>, bytes: seq<byte>)
    requires Holds(log, written)
    ensures Holds(Appended(log, bytes), written + bytes)
    ensures Dropped(log) <= Dropped(Appended(log, bytes))
    ensures Moved(log, bytes) <= Dropped(Appended(log, bytes)) - Dropped(log)
    ensures Min(|written + bytes|, log.budget) <= |Appended(log, bytes).bytes|
              || Dropped(Appended(log, bytes)) == Dropped(log)
  {
    var all := log.bytes + bytes;
    assert all == (written + bytes)[|written| - |log.bytes|..];
  }

  /** Reading tells what was dropped and what was written from there on, to the end or `max` bytes. */
  lemma ReadTells(log: Kept, written: seq<byte>, at: nat, max: nat)
    requires Holds(log, written) && at <= |written|
    ensures var (skipped, chunk) := Read(log, at, max);
            && at + skipped == Larger(at, Dropped(log))
            && at + skipped + |chunk| <= |written|
            && chunk == written[at + skipped..at + skipped + |chunk|]
            && |chunk| == Min(max, |written| - at - skipped)
  {
    var (skipped, chunk) := Read(log, at, max);
    var from := Larger(at, Dropped(log)) - Dropped(log);
    assert log.bytes[from..] == written[at + skipped..];
  }

  // ---- over a run ----------------------------------------------------------------------------------------------------

  function AppendedAll(log: Kept, pieces: seq<seq<byte>>): Kept
    decreases |pieces|
  {
    if pieces == [] then log else AppendedAll(Appended(log, pieces[0]), pieces[1..])
  }

  function MovedAll(log: Kept, pieces: seq<seq<byte>>): nat
    decreases |pieces|
  {
    if pieces == [] then 0 else Moved(log, pieces[0]) + MovedAll(Appended(log, pieces[0]), pieces[1..])
  }

  function Joined(pieces: seq<seq<byte>>): seq<byte>
    decreases |pieces|
  {
    if pieces == [] then [] else pieces[0] + Joined(pieces[1..])
  }

  /** Whatever is written in whatever pieces, the log is the end of it all, and the bytes moved by draining are at
      most the bytes dropped. */
  lemma {:induction false} MovesNoMoreThanDropped(budget: nat, pieces: seq<seq<byte>>)
    ensures var log := AppendedAll(Kept([], 0, budget), pieces);
            && Holds(log, Joined(pieces)) && MovedAll(Kept([], 0, budget), pieces) <= Dropped(log)
  {
    var none: seq<byte> := [];
    assert none + Joined(pieces) == Joined(pieces);
    MovesFrom(Kept([], 0, budget), [], pieces);
  }

  lemma {:induction false} MovesFrom(log: Kept, written: seq<byte>, pieces: seq<seq<byte>>)
    requires Holds(log, written)
    ensures var end := AppendedAll(log, pieces);
            && Holds(end, written + Joined(pieces)) && Dropped(log) + MovedAll(log, pieces) <= Dropped(end)
    decreases |pieces|
  {
    hide Holds, Appended, Moved, Dropped;
    if pieces == [] {
      assert written + Joined(pieces) == written;
    } else {
      AppendKeeps(log, written, pieces[0]);
      MovesFrom(Appended(log, pieces[0]), written + pieces[0], pieces[1..]);
      assert written + Joined(pieces) == (written + pieces[0]) + Joined(pieces[1..]);
    }
  }

  // ---- the last lines --------------------------------------------------------------------------------------------------

  function Newlines(s: seq<byte>): nat {
    if s == [] then 0 else Newlines(s[..|s| - 1]) + (if s[|s| - 1] == NEWLINE then 1 else 0)
  }

  predicate EndsLine(s: seq<byte>) {
    s == [] || s[|s| - 1] == NEWLINE
  }

  /** The lines in `s`, a last one with no newline yet included. */
  function Lines(s: seq<byte>): nat {
    Newlines(s) + (if EndsLine(s) then 0 else 1)
  }

  /** Just past the newline of `s` that `newer` newlines follow, or its start. */
  function Back(s: seq<byte>, newer: nat): (at: nat)
    ensures at <= |s|
    decreases |s|
  {
    if s == [] then 0
    else if s[|s| - 1] == NEWLINE then if newer == 0 then |s| else Back(s[..|s| - 1], newer - 1)
    else Back(s[..|s| - 1], newer)
  }

  function Body(kept: seq<byte>): seq<byte> {
    if kept != [] && kept[|kept| - 1] == NEWLINE then kept[..|kept| - 1] else kept
  }

  /** Where in `kept` its last `lines` lines begin. */
  function TailFrom(kept: seq<byte>, lines: nat): (from: nat)
    ensures from <= |kept|
  {
    if lines == 0 then |kept| else Back(Body(kept), lines - 1)
  }

  /** Where the last `lines` lines begin, counted from the first byte written, and how many lines kept go before. */
  function Tail(log: Kept, lines: nat): (nat, nat) {
    var from := TailFrom(log.bytes, lines);
    (Dropped(log) + from, Newlines(log.bytes[..from]))
  }

  lemma {:induction false} NewlinesJoin(a: seq<byte>, b: seq<byte>)
    ensures Newlines(a + b) == Newlines(a) + Newlines(b)
    decreases |b|
  {
    if b == [] {
      assert a + b == a;
    } else {
      assert (a + b)[..|a + b| - 1] == a + b[..|b| - 1];
      NewlinesJoin(a, b[..|b| - 1]);
    }
  }

  lemma {:induction false} BackIs(s: seq<byte>, newer: nat)
    ensures var at := Back(s, newer);
            && (at == 0 || s[at - 1] == NEWLINE) && Newlines(s[at..]) == Min(newer, Newlines(s))
    decreases |s|
  {
    if s != [] {
      var init := s[..|s| - 1];
      var at := Back(s, newer);
      if s[|s| - 1] == NEWLINE && newer == 0 {
        assert s[at..] == [];
      } else {
        BackIs(init, if s[|s| - 1] == NEWLINE then newer - 1 else newer);
        assert s[at..][..|s[at..]| - 1] == init[at..];
      }
    }
  }

  /** The tail is the last `lines` lines, or all there are, from a line's start; the lines said to go before it are
      the rest, unless none are asked for of a log that ends inside a line, when that line is not counted. */
  lemma TailIsLastLines(log: Kept, lines: nat)
    ensures var from := TailFrom(log.bytes, lines);
            var rest := log.bytes[from..];
            && Lines(rest) == Min(lines, Lines(log.bytes))
            && (lines > 0 ==> EndsLine(log.bytes[..from]))
            && (Tail(log, lines).1 + Lines(rest) == Lines(log.bytes) <==> lines > 0 || EndsLine(log.bytes))
  {
    var kept := log.bytes;
    var from := TailFrom(kept, lines);
    assert kept == kept[..from] + kept[from..];
    NewlinesJoin(kept[..from], kept[from..]);
    if lines > 0 && kept != [] {
      hide Back;
      LinesBack(kept, lines);
    }
  }

  /** A log that is not empty has a line more than the newlines of its body, and so has its tail. */
  lemma LinesBack(kept: seq<byte>, lines: nat)
    requires lines > 0 && kept != []
    ensures var from := TailFrom(kept, lines);
            && Lines(kept) == Newlines(Body(kept)) + 1
            && Lines(kept[from..]) == Min(lines - 1, Newlines(Body(kept))) + 1
            && EndsLine(kept[..from]) && (EndsLine(kept[from..]) <==> EndsLine(kept))
  {
    hide Back;
    var body := Body(kept);
    var from := TailFrom(kept, lines);
    var rest := kept[from..];
    BackIs(body, lines - 1);
    if kept[|kept| - 1] == NEWLINE {
      assert rest[..|rest| - 1] == body[from..];
      assert rest[|rest| - 1] == NEWLINE;
    } else {
      assert rest == body[from..];
      assert rest != [];
    }
  }

  // ---- as the server keeps it ------------------------------------------------------------------------------------------

  class Log {
    var kept: seq<byte>
    var total: nat
    const budget: nat
    ghost var written: seq<byte>

    ghost predicate Valid()
      reads this
    {
      Holds(State(), written)
    }

    function State(): Kept
      reads this
    {
      Kept(kept, total, budget)
    }

    constructor (budget: nat)
      ensures Valid() && State() == Kept([], 0, budget) && written == []
    {
      this.budget := budget;
      kept, total, written := [], 0, [];
    }

    method Append(bytes: seq<byte>)
      requires Valid()
      modifies this
      ensures Valid() && written == old(written) + bytes && State() == Appended(old(State()), bytes)
      ensures Dropped(State()) >= Dropped(old(State()))
    {
      AppendKeeps(State(), written, bytes);
      kept := kept + bytes;
      total := total + |bytes|;
      if |kept| > 2 * budget {
        kept := kept[|kept| - budget..];
      }
      written := written + bytes;
    }

    /** What is kept from byte `at` on, at most `max`, and how much before it is lost: together what was written. */
    method ReadFrom(at: nat, max: nat) returns (skipped: nat, chunk: seq<byte>)
      requires Valid() && at <= total
      ensures at + skipped == Larger(at, Dropped(State())) && at + skipped + |chunk| <= |written|
      ensures chunk == written[at + skipped..at + skipped + |chunk|]
      ensures |chunk| == Min(max, |written| - at - skipped)
      ensures (skipped, chunk) == Read(State(), at, max)
    {
      ReadTells(State(), written, at, max);
      var read := Read(State(), at, max);
      skipped, chunk := read.0, read.1;
    }

    /** Where the last `lines` lines begin and how many go before, looking back from the end. */
    method TailOf(lines: nat) returns (start: nat, cut: nat)
      ensures (start, cut) == Tail(State(), lines)
    {
      var body := Body(kept);
      var from := |kept|;
      if lines > 0 {
        from := |body|;
        var newer := lines - 1;
        assert body[..|body|] == body;
        while from > 0 && !(body[from - 1] == NEWLINE && newer == 0)
          invariant 0 <= from <= |body| && newer >= 0
          invariant Back(body[..from], newer) == Back(body, lines - 1)
        {
          assert body[..from][..from - 1] == body[..from - 1];
          if body[from - 1] == NEWLINE {
            newer := newer - 1;
          }
          from := from - 1;
        }
      }
      start, cut := Dropped(State()) + from, Newlines(kept[..from]);
    }
  }
}
