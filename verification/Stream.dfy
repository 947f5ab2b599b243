/** The output filter: a machine over the bytes of a program's output that passes all but questions
    and marks, however the output is split. */
module Stream {
  import opened Bytes
  import opened Utf8
  import opened Judge

  // ---- the machine, a byte at a time -------------------------------------------------------------------------

  datatype Kind = OscKind | DcsKind | OtherKind

  /** Where it is in what it reads. */
  datatype Reading = Ground | Escape | EscapeIntermediate | Csi | Text(kind: Kind) | TextEscape

  /** The sequence being read, from its ESC; `over` once it passed its bound. */
  datatype Core = Core(reading: Reading, gathered: seq<byte>, over: bool)

  datatype Event = Out(b: byte) | Mark(mark: seq<byte>)

  const FRESH := Core(Ground, [], false)

  function Outs(bytes: seq<byte>): (events: seq<Event>)
    ensures |events| == |bytes| && forall i :: 0 <= i < |bytes| ==> events[i] == Out(bytes[i])
  {
    seq(|bytes|, i requires 0 <= i < |bytes| => Out(bytes[i]))
  }

  lemma OutsMore(a: seq<byte>, b: seq<byte>)
    ensures Outs(a + b) == Outs(a) + Outs(b)
  {
  }

  function Begun(reading: Reading): Core {
    Core(reading, [ESC], false)
  }

  function Gathering(c: Core, b: byte, max: nat): Core {
    if |c.gathered| >= max then c.(gathered := [], over := true)
    else if c.over then c
    else c.(gathered := c.gathered + [b])
  }

  /** What the sequence read comes to. */
  function Ended(policy: Policy, c: Core): (Core, seq<Event>) {
    if c.over then (FRESH, [])
    else
      match JudgeSeq(c.gathered, policy)
      case Pass => (FRESH, Outs(c.gathered))
      case Drop => (FRESH, [])
      case Instead(bytes) => (FRESH, Outs(bytes))
      case MarkOf(mark) => (FRESH, [Mark(mark)])
  }

  function KindOf(b: byte): Kind {
    if b == 0x5d then OscKind else if b == 0x50 then DcsKind else OtherKind
  }

  predicate Introduces(b: byte) {
    b == 0x5d || b == 0x50 || b == 0x5f || b == 0x5e || b == 0x58
  }

  function InEscape(policy: Policy, c: Core, b: byte): (Core, seq<Event>) {
    if b == 0x5b then (c.(gathered := c.gathered + [b], reading := Csi), [])
    else if Introduces(b) then (c.(gathered := c.gathered + [b], reading := Text(KindOf(b))), [])
    else if 0x20 <= b <= 0x2f then (c.(gathered := c.gathered + [b], reading := EscapeIntermediate), [])
    else if 0x30 <= b <= 0x7e then Ended(policy, c.(gathered := c.gathered + [b]))
    else if b == ESC then (Begun(Escape), [Out(ESC)])
    else if b == CAN || b == SUB then (c.(reading := Ground), [])
    else (c, [Out(b)])
  }

  function InIntermediate(policy: Policy, c: Core, b: byte): (Core, seq<Event>) {
    if 0x20 <= b <= 0x2f then (Gathering(c, b, MAX_CSI), [])
    else if 0x30 <= b <= 0x7e then Ended(policy, Gathering(c, b, MAX_CSI))
    else if b == ESC then (Begun(Escape), [])
    else if b == CAN || b == SUB then (c.(reading := Ground), [])
    else (c, [Out(b)])
  }

  function InCsi(policy: Policy, c: Core, b: byte): (Core, seq<Event>) {
    if 0x20 <= b <= 0x3f then (Gathering(c, b, MAX_CSI), [])
    else if 0x40 <= b <= 0x7e then Ended(policy, Gathering(c, b, MAX_CSI))
    else if b == ESC then (Begun(Escape), [])
    else if b == CAN || b == SUB then (c.(reading := Ground), [])
    else if b <= 0x1f then (c, [Out(b)])
    else if b == 0x7f then (c, [])
    else (c.(reading := Ground), [])
  }

  function InText(policy: Policy, c: Core, b: byte, kind: Kind): (Core, seq<Event>) {
    if b == ESC then (c.(reading := TextEscape), [])
    else if b == BEL && kind == OscKind then Ended(policy, Gathering(c, b, MAX_STRING))
    else if b == CAN || b == SUB then (c.(reading := Ground), [])
    else (Gathering(c, b, MAX_STRING), [])
  }

  function Step(policy: Policy, c: Core, b: byte): (Core, seq<Event>) {
    match c.reading
    case Ground => if b == ESC then (Begun(Escape), []) else if b == ENQ then (c, []) else (c, [Out(b)])
    case Escape => InEscape(policy, c, b)
    case EscapeIntermediate => InIntermediate(policy, c, b)
    case Csi => InCsi(policy, c, b)
    case Text(kind) => InText(policy, c, b, kind)
    case TextEscape =>
      if b == BACKSLASH then Ended(policy, Gathering(Gathering(c, ESC, MAX_STRING), b, MAX_STRING))
      else InEscape(policy, Begun(Escape), b)
  }

  /** What `input` comes to: the machine after it, and what it passes. */
  function Run(policy: Policy, c: Core, input: seq<byte>): (Core, seq<Event>)
    decreases |input|
  {
    if input == [] then (c, [])
    else
      var (before, passed) := Run(policy, c, input[..|input| - 1]);
      var (after, more) := Step(policy, before, input[|input| - 1]);
      (after, passed + more)
  }

  lemma RunOne(policy: Policy, c: Core, input: seq<byte>, b: byte)
    ensures Run(policy, c, input + [b]) ==
            var (before, passed) := Run(policy, c, input);
            var (after, more) := Step(policy, before, b);
            (after, passed + more)
  {
    hide Step;
    assert (input + [b])[..|input|] == input;
  }

  lemma {:induction false} RunMore(policy: Policy, c: Core, a: seq<byte>, b: seq<byte>)
    ensures Run(policy, c, a + b) ==
            var (before, passed) := Run(policy, c, a);
            var (after, more) := Run(policy, before, b);
            (after, passed + more)
    decreases |b|
  {
    hide Step;
    if b == [] {
      assert a + b == a;
      var (before, passed) := Run(policy, c, a);
      assert passed + [] == passed;
    } else {
      var front, last := b[..|b| - 1], b[|b| - 1];
      assert a + b == a + front + [last];
      RunMore(policy, c, a, front);
      RunOne(policy, c, a + front, last);
      var (before, passed) := Run(policy, c, a);
      var (middle, more) := Run(policy, before, front);
      assert passed + (more + Step(policy, middle, last).1) == passed + more + Step(policy, middle, last).1;
    }
  }

  predicate Plain(text: seq<byte>) {
    forall i :: 0 <= i < |text| ==> text[i] != ESC && text[i] != ENQ
  }

  lemma {:induction false} RunText(policy: Policy, c: Core, text: seq<byte>)
    requires c.reading == Ground && Plain(text)
    ensures Run(policy, c, text) == (c, Outs(text))
    decreases |text|
  {
    hide InEscape, InIntermediate, InCsi, InText, Ended;
    if text != [] {
      var front, last := text[..|text| - 1], text[|text| - 1];
      RunText(policy, c, front);
      assert Outs(text) == Outs(front) + [Out(last)];
    }
  }

  // ---- what it holds -----------------------------------------------------------------------------------------

  /** The bounds of what is gathered. */
  predicate Bounded(c: Core) {
    match c.reading
    case Ground => |c.gathered| <= MAX_STRING
    case Escape => c.gathered == [ESC] && !c.over
    case EscapeIntermediate => |c.gathered| <= MAX_CSI
    case Csi => |c.gathered| <= MAX_CSI
    case Text(_) => |c.gathered| <= MAX_STRING
    case TextEscape => |c.gathered| <= MAX_STRING
  }

  lemma StepBounded(policy: Policy, c: Core, b: byte)
    requires Bounded(c)
    ensures Bounded(Step(policy, c, b).0)
  {
    hide JudgeSeq;
  }

  /** The filter never gathers more than its bounds, whatever it reads. */
  lemma {:induction false} RunBounded(policy: Policy, c: Core, input: seq<byte>)
    requires Bounded(c)
    ensures Bounded(Run(policy, c, input).0)
    decreases |input|
  {
    hide Step, Bounded;
    if input != [] {
      RunBounded(policy, c, input[..|input| - 1]);
      StepBounded(policy, Run(policy, c, input[..|input| - 1]).0, input[|input| - 1]);
    }
  }

  // ---- pieces ------------------------------------------------------------------------------------------------

  /** What the filter gives out: bytes for the terminal, or a mark. */
  datatype Piece = Bytes(bytes: seq<byte>) | MarkPiece(mark: seq<byte>)

  function EventsOf(piece: Piece): seq<Event> {
    match piece
    case Bytes(bytes) => Outs(bytes)
    case MarkPiece(mark) => [Mark(mark)]
  }

  function Shown(pieces: seq<Piece>): seq<Event>
  {
    if pieces == [] then [] else Shown(pieces[..|pieces| - 1]) + EventsOf(pieces[|pieces| - 1])
  }

  lemma ShownMore(pieces: seq<Piece>, piece: Piece)
    ensures Shown(pieces + [piece]) == Shown(pieces) + EventsOf(piece)
  {
    assert (pieces + [piece])[..|pieces|] == pieces;
  }

  /** The bytes given out since the last mark. */
  function SinceMark(pieces: seq<Piece>): seq<byte> {
    if pieces == [] then []
    else
      match pieces[|pieces| - 1]
      case MarkPiece(_) => []
      case Bytes(bytes) => SinceMark(pieces[..|pieces| - 1]) + bytes
  }

  lemma SinceMarkMore(pieces: seq<Piece>, piece: Piece)
    ensures SinceMark(pieces + [piece]) == if piece.MarkPiece? then [] else SinceMark(pieces) + piece.bytes
  {
    assert (pieces + [piece])[..|pieces|] == pieces;
  }

  /** The bytes passed since the last mark. */
  function Tail(events: seq<Event>): seq<byte> {
    if events == [] then []
    else
      match events[|events| - 1]
      case Mark(_) => []
      case Out(b) => Tail(events[..|events| - 1]) + [b]
  }

  lemma {:induction false} TailOuts(events: seq<Event>, bytes: seq<byte>)
    ensures Tail(events + Outs(bytes)) == Tail(events) + bytes
    decreases |bytes|
  {
    if bytes == [] {
      assert events + Outs(bytes) == events;
    } else {
      var front := bytes[..|bytes| - 1];
      var all := events + Outs(bytes);
      assert all[..|all| - 1] == events + Outs(front);
      TailOuts(events, front);
    }
  }

  lemma {:induction false} TailShown(pieces: seq<Piece>)
    ensures Tail(Shown(pieces)) == SinceMark(pieces)
    decreases |pieces|
  {
    if pieces != [] {
      var front, last := pieces[..|pieces| - 1], pieces[|pieces| - 1];
      TailShown(front);
      match last
      case MarkPiece(mark) =>
        assert Shown(pieces) == Shown(front) + [Mark(mark)];
      case Bytes(bytes) => TailOuts(Shown(front), bytes);
    }
  }

  /** The bytes held back, once all that can be given out was: a character's whose end has not come. */
  function Held(events: seq<Event>): seq<byte> {
    var tail := Tail(events);
    tail[|tail| - Incomplete(tail)..]
  }

  /** A piece of bytes has some, and no more than its bound. */
  predicate GoodPiece(piece: Piece) {
    piece.Bytes? ==> 0 < |piece.bytes| <= MAX_OUT
  }

  // ---- the filter --------------------------------------------------------------------------------------------

  /** What is held begins with a character, or what was given out ended one. */
  predicate Cut(given: seq<Piece>, out: seq<byte>) {
    Incomplete(SinceMark(given)) == 0 || (out != [] && !Continues(out[0]))
  }

  class Filter {
    const policy: Policy
    var reading: Reading
    var gathered: seq<byte>
    var over: bool
    var out: seq<byte>
    var given: seq<Piece>
    ghost var read: seq<byte>

    function Now(): Core
      reads this`reading, this`gathered, this`over
    {
      Core(reading, gathered, over)
    }

    /** What it passed: what it gave out and what it holds. */
    ghost function Passed(): seq<Event>
      reads this`out, this`given
    {
      Shown(given) + Outs(out)
    }

    ghost predicate Valid()
      reads this`out, this`given
    {
      && |out| < MAX_OUT
      && (forall i :: 0 <= i < |given| ==> GoodPiece(given[i]))
      && Cut(given, out)
    }

    /** It is where one pass over all it read leads. */
    ghost predicate Refines()
      reads this
    {
      (Now(), Passed()) == Run(policy, FRESH, read)
    }

    constructor (policy: Policy)
      ensures this.policy == policy && Valid() && Refines() && Settled() && read == [] && given == []
    {
      this.policy := policy;
      reading, gathered, over, out, given, read := Ground, [], false, [], [], [];
      NothingPassed();
    }

    /** All that can be given out was. */
    ghost predicate Settled()
      reads this`out, this`given
    {
      out == Held(Passed())
    }

    predicate Between()
      reads this
    {
      reading == Ground
    }

    /** Give out what passed, but a character whose end has not come. */
    method Flush()
      requires |out| <= MAX_OUT && Cut(given, out) && forall i :: 0 <= i < |given| ==> GoodPiece(given[i])
      modifies this`out, this`given
      ensures Valid() && Passed() == old(Passed()) && |out| <= 3 && Incomplete(out) == |out|
      ensures old(given) <= given
    {
      hide Shown, Outs, CutAt, SinceMark, Incomplete;
      var keep := IncompleteUtf8(out);
      var at := |out| - keep;
      if at == 0 { return; }
      GivesOut(given, out, at);
      given := given + [Bytes(out[..at])];
      out := out[at..];
    }

    /** Add `now` to what is held, giving it out if that fills. */
    method Add(now: seq<byte>)
      requires Valid() && |out| + |now| <= MAX_OUT
      modifies this`out, this`given
      ensures Valid() && Passed() == old(Passed()) + Outs(now)
    {
      hide Shown, Incomplete;
      Holds(given, out, now);
      out := out + now;
      if |out| >= MAX_OUT { Flush(); }
    }

    /** Pass `bytes`, giving out a chunk at a character's end whenever one fills. */
    method Pass(bytes: seq<byte>)
      requires Valid()
      modifies this`out, this`given
      ensures Valid() && Passed() == old(Passed()) + Outs(bytes)
    {
      hide Valid, Passed, Outs;
      ghost var was := Passed();
      var done: nat := 0;
      PassedNone(was, bytes);
      while done < |bytes|
        invariant done <= |bytes| && Valid() && Passed() == was + Outs(bytes[..done])
      {
        var room := Room();
        var n := if room <= |bytes| - done then room else |bytes| - done;
        PassedMore(was, bytes, done, n);
        Add(bytes[done..done + n]);
        done := done + n;
      }
      assert bytes[..done] == bytes;
    }

    function Room(): (n: nat)
      requires Valid()
      reads this`out, this`given
      ensures 0 < n && |out| + n == MAX_OUT
    {
      MAX_OUT - |out|
    }

    method Begin(next: Reading)
      modifies this`reading, this`gathered, this`over
      ensures Now() == Begun(next)
    {
      reading, gathered, over := next, [ESC], false;
    }

    /** Add `b` to the sequence being read, within `max`. */
    method Gather(b: byte, max: nat)
      modifies this`gathered, this`over
      ensures Now() == Gathering(old(Now()), b, max)
    {
      if |gathered| >= max {
        over := true;
        gathered := [];
      }
      if !over { gathered := gathered + [b]; }
    }

    /** The sequence read is whole: pass it, or what it says, or nothing. */
    method Finish()
      requires Valid()
      modifies this`reading, this`gathered, this`over, this`out, this`given
      ensures Valid() && (Now(), Passed()) == (Ended(policy, old(Now())).0, old(Passed()) + Ended(policy, old(Now())).1)
    {
      hide JudgeSeq, Valid, Passed, Outs;
      ghost var was := Passed();
      assert was + [] == was;
      var whole, dropped := gathered, over;
      reading, gathered, over := Ground, [], false;
      if dropped { return; }
      match JudgeSeq(whole, policy)
      case Pass => Pass(whole);
      case Drop =>
      case Instead(bytes) => Pass(bytes);
      case MarkOf(mark) => GiveMark(mark);
    }

    /** A mark goes, after all that passed before it. */
    method GiveMark(mark: seq<byte>)
      requires Valid()
      modifies this`out, this`given
      ensures Valid() && Passed() == old(Passed()) + [Mark(mark)]
    {
      hide Shown, Outs, Incomplete, SinceMark;
      Flush();
      MarkGiven(given, out, mark);
      // A character cut short before the mark never ends now: it goes before it, as it came.
      if out != [] { given := given + [Bytes(out)]; }
      out := [];
      given := given + [MarkPiece(mark)];
    }

    /** Read one byte. */
    method Byte(b: byte)
      requires Valid()
      modifies this`reading, this`gathered, this`over, this`out, this`given
      ensures Valid() && (Now(), Passed()) == (Step(policy, old(Now()), b).0, old(Passed()) + Step(policy, old(Now()), b).1)
    {
      hide JudgeSeq, Ended, Valid, Passed, Outs, InEscape;
      ghost var was := Passed();
      assert was + [] == was;
      match reading
      case Ground =>
        if b == ESC { Begin(Escape); } else if b != ENQ { PassOne(b); }
      case Escape => ByteInEscape(b);
      case EscapeIntermediate =>
        if 0x20 <= b <= 0x2f {
          Gather(b, MAX_CSI);
        } else if 0x30 <= b <= 0x7e {
          Gather(b, MAX_CSI);
          Finish();
        } else if b == ESC {
          Begin(Escape);
        } else if b == CAN || b == SUB {
          reading := Ground;
        } else {
          PassOne(b);
        }
      case Csi =>
        if 0x20 <= b <= 0x3f {
          Gather(b, MAX_CSI);
        } else if 0x40 <= b <= 0x7e {
          Gather(b, MAX_CSI);
          Finish();
        } else if b == ESC {
          Begin(Escape);
        } else if b == CAN || b == SUB {
          reading := Ground;
        } else if b <= 0x1f {
          PassOne(b);
        } else if b != 0x7f {
          reading := Ground;
        }
      case Text(kind) =>
        if b == ESC {
          reading := TextEscape;
        } else if b == BEL && kind == OscKind {
          Gather(b, MAX_STRING);
          Finish();
        } else if b == CAN || b == SUB {
          reading := Ground;
        } else {
          Gather(b, MAX_STRING);
        }
      case TextEscape =>
        if b == BACKSLASH {
          Gather(ESC, MAX_STRING);
          Gather(b, MAX_STRING);
          Finish();
        } else {
          DropText();
          Begin(Escape);
          ByteInEscape(b);
        }
    }

    /** The string read ends unterminated: it is dropped. */
    method DropText()
      requires Valid()
      modifies this`reading, this`gathered, this`over, this`out, this`given
      ensures Valid() && Passed() == old(Passed())
    {
      hide Valid, Passed, Outs;
      ghost var was := Passed();
      assert was + [] == was;
      over := true;
      Finish();
    }

    method PassOne(b: byte)
      requires Valid()
      modifies this`out, this`given
      ensures Valid() && Passed() == old(Passed()) + [Event.Out(b)]
    {
      assert Outs([b]) == [Event.Out(b)];
      Pass([b]);
    }

    method ByteInEscape(b: byte)
      requires Valid()
      modifies this`reading, this`gathered, this`over, this`out, this`given
      ensures Valid()
      ensures (Now(), Passed()) == (InEscape(policy, old(Now()), b).0, old(Passed()) + InEscape(policy, old(Now()), b).1)
    {
      hide JudgeSeq, Ended, Valid, Passed, Outs;
      ghost var was := Passed();
      assert was + [] == was;
      if b == 0x5b {
        gathered := gathered + [b];
        reading := Csi;
      } else if Introduces(b) {
        gathered := gathered + [b];
        reading := Text(KindOf(b));
      } else if 0x20 <= b <= 0x2f {
        gathered := gathered + [b];
        reading := EscapeIntermediate;
      } else if 0x30 <= b <= 0x7e {
        gathered := gathered + [b];
        Finish();
      } else if b == ESC {
        PassOne(ESC);
        Begin(Escape);
      } else if b == CAN || b == SUB {
        reading := Ground;
      } else {
        PassOne(b);
      }
    }

    /** Read text up to the next sequence whole, or a byte of one. */
    method Some(bytes: seq<byte>, at: nat) returns (n: nat)
      requires Valid() && Refines() && at < |bytes|
      modifies this
      ensures Valid() && Refines() && 0 < n <= |bytes| - at && read == old(read) + bytes[at..at + n]
    {
      hide Step, Valid, Passed, Run;
      if reading == Ground && bytes[at] != ESC && bytes[at] != ENQ {
        n := TextAt(bytes, at);
        RunMore(policy, FRESH, read, bytes[at..at + n]);
        RunText(policy, Now(), bytes[at..at + n]);
        Pass(bytes[at..at + n]);
      } else {
        n := 1;
        assert bytes[at..at + 1] == [bytes[at]];
        RunOne(policy, FRESH, read, bytes[at]);
        Byte(bytes[at]);
      }
      read := read + bytes[at..at + n];
    }

    /** Read `bytes`, giving out what passes: whole sequences, and whole characters. */
    method Feed(bytes: seq<byte>)
      requires Valid() && Refines()
      modifies this
      ensures Valid() && Refines() && Settled() && |out| <= 3
      ensures read == old(read) + bytes
    {
      hide Step, Valid, Passed, Run, Now;
      var at: nat := 0;
      ghost var was := read;
      assert was + bytes[..0] == was;
      while at < |bytes|
        invariant at <= |bytes| && Valid() && Refines() && read == was + bytes[..at]
      {
        var n := Some(bytes, at);
        assert was + bytes[..at + n] == was + bytes[..at] + bytes[at..at + n];
        at := at + n;
      }
      assert bytes[..at] == bytes;
      Settle();
    }

    method Settle()
      requires Valid()
      modifies this`out, this`given
      ensures Valid() && Passed() == old(Passed()) && Settled() && |out| <= 3
    {
      hide Shown, Outs, SinceMark, CutAt, Incomplete, Tail;
      Flush();
      HeldIs(given, out);
    }
  }

  lemma HeldIs(given: seq<Piece>, out: seq<byte>)
    requires Cut(given, out) && Incomplete(out) == |out|
    ensures Held(Shown(given) + Outs(out)) == out
  {
    hide Shown, Outs, SinceMark, CutAt, Incomplete, Tail;
    TailShown(given);
    TailOuts(Shown(given), out);
    CutAfter(SinceMark(given), out);
  }

  /** How far text goes from `at`, up to the next sequence. */
  method TextAt(bytes: seq<byte>, at: nat) returns (n: nat)
    requires at < |bytes| && bytes[at] != ESC && bytes[at] != ENQ
    ensures 0 < n <= |bytes| - at && Plain(bytes[at..at + n])
    ensures at + n < |bytes| ==> bytes[at + n] == ESC || bytes[at + n] == ENQ
  {
    n := 1;
    while at + n < |bytes| && bytes[at + n] != ESC && bytes[at + n] != ENQ
      invariant 0 < n <= |bytes| - at && Plain(bytes[at..at + n])
    {
      assert bytes[at..at + n + 1] == bytes[at..at + n] + [bytes[at + n]];
      n := n + 1;
    }
  }

  lemma GivesOut(given: seq<Piece>, out: seq<byte>, at: nat)
    requires at == |out| - Incomplete(out) && 0 < at && Cut(given, out)
    ensures Shown(given + [Bytes(out[..at])]) + Outs(out[at..]) == Shown(given) + Outs(out)
    ensures Cut(given + [Bytes(out[..at])], out[at..])
    ensures Incomplete(out[at..]) == |out[at..]|
  {
    hide Shown, SinceMark, CutAt, Incomplete, Outs, Continues;
    var head, tail := out[..at], out[at..];
    ShownMore(given, Bytes(head));
    SinceMarkMore(given, Bytes(head));
    assert out == head + tail;
    OutsMore(head, tail);
    EventsJoin(Shown(given), Outs(head), Outs(tail));
    if at == |out| {
      CutAfter(SinceMark(given), out);
      assert head == out && tail == [];
      NoneCut();
    } else {
      Keeps(out);
    }
  }

  lemma EventsJoin(a: seq<Event>, b: seq<Event>, c: seq<Event>)
    ensures a + b + c == a + (b + c)
  {
  }

  lemma NoneCut()
    ensures Incomplete([]) == 0
  {
  }

  /** What is kept begins with the character cut. */
  lemma Keeps(out: seq<byte>)
    requires Incomplete(out) > 0
    ensures var kept := out[|out| - Incomplete(out)..];
            Incomplete(kept) == |kept| && !Continues(kept[0])
  {
    var n := Incomplete(out);
    assert CutAt(out, n);
    OneCut(out[|out| - n..], n);
  }

  lemma MarkGiven(given: seq<Piece>, out: seq<byte>, mark: seq<byte>)
    ensures var before := if out != [] then given + [Bytes(out)] else given;
            && Shown(before + [MarkPiece(mark)]) + Outs([]) == Shown(given) + Outs(out) + [Mark(mark)]
            && Cut(before + [MarkPiece(mark)], [])
  {
    hide Shown, SinceMark, CutAt, Incomplete, Continues;
    var before := if out != [] then given + [Bytes(out)] else given;
    ShownMore(given, Bytes(out));
    ShownMore(before, MarkPiece(mark));
    SinceMarkMore(before, MarkPiece(mark));
    NoneCut();
    assert out == [] ==> Outs(out) == [];
  }

  lemma NothingPassed()
    ensures Shown([]) + Outs([]) == [] && Held([]) == [] && Cut([], [])
  {
    NoneCut();
  }

  lemma PassedNone(was: seq<Event>, bytes: seq<byte>)
    ensures was + Outs(bytes[..0]) == was
  {
  }

  lemma PassedMore(was: seq<Event>, bytes: seq<byte>, done: nat, n: nat)
    requires done + n <= |bytes|
    ensures was + Outs(bytes[..done]) + Outs(bytes[done..done + n]) == was + Outs(bytes[..done + n])
  {
    assert bytes[..done + n] == bytes[..done] + bytes[done..done + n];
    OutsMore(bytes[..done], bytes[done..done + n]);
  }

  /** What is held stays whole as more comes. */
  lemma Holds(given: seq<Piece>, out: seq<byte>, now: seq<byte>)
    requires Cut(given, out)
    ensures Cut(given, out + now)
    ensures Shown(given) + Outs(out + now) == Shown(given) + Outs(out) + Outs(now)
  {
    OutsMore(out, now);
  }

  /** Two filters of the same policy that read the same, however it was split, are the same, and gave
      out the same bytes and marks. */
  lemma SplitsUnseen(f: Filter, g: Filter)
    requires f.Refines() && g.Refines() && f.Settled() && g.Settled()
    requires f.policy == g.policy && f.read == g.read
    ensures f.Now() == g.Now() && f.out == g.out && Shown(f.given) == Shown(g.given)
  {
    assert Shown(f.given) == f.Passed()[..|f.Passed()| - |f.out|];
    assert Shown(g.given) == g.Passed()[..|g.Passed()| - |g.out|];
  }
}
