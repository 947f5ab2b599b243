/** What the filter passes it passes again: no question, mark or unread title is in it. */
module Refeed {
  import opened Bytes
  import opened Utf8
  import opened Judge
  import opened Stream

  /** The bytes among what passed. */
  function BytesOf(events: seq<Event>): seq<byte> {
    if events == [] then []
    else
      match events[|events| - 1]
      case Mark(_) => BytesOf(events[..|events| - 1])
      case Out(b) => BytesOf(events[..|events| - 1]) + [b]
  }

  lemma {:induction false} BytesMore(events: seq<Event>, bytes: seq<byte>)
    ensures BytesOf(events + Outs(bytes)) == BytesOf(events) + bytes
    decreases |bytes|
  {
    if bytes == [] {
      assert events + Outs(bytes) == events;
    } else {
      var front := bytes[..|bytes| - 1];
      var all := events + Outs(bytes);
      assert all[..|all| - 1] == events + Outs(front);
      BytesMore(events, front);
    }
  }

  lemma BytesMark(events: seq<Event>, mark: seq<byte>)
    ensures BytesOf(events + [Mark(mark)]) == BytesOf(events)
  {
    assert (events + [Mark(mark)])[..|events|] == events;
  }

  /** An ESC read where an ESC has just begun a sequence: the first passes by itself. */
  predicate LoneEsc(c: Core, b: byte) {
    b == ESC && (c.reading == Escape || c.reading == TextEscape)
  }

  /** An ENQ read inside a sequence: it passes, as the controls there do. */
  predicate EnqInside(c: Core, b: byte) {
    b == ENQ && (c.reading == Escape || c.reading == EscapeIntermediate || c.reading == Csi || c.reading == TextEscape)
  }

  predicate NoLoneEsc(policy: Policy, input: seq<byte>)
    decreases |input|
  {
    input == []
    || (NoLoneEsc(policy, input[..|input| - 1])
        && !LoneEsc(Run(policy, FRESH, input[..|input| - 1]).0, input[|input| - 1]))
  }

  predicate NoEnqInside(policy: Policy, input: seq<byte>)
    decreases |input|
  {
    input == []
    || (NoEnqInside(policy, input[..|input| - 1])
        && !EnqInside(Run(policy, FRESH, input[..|input| - 1]).0, input[|input| - 1]))
  }

  // ---- what is gathered reads the same again -----------------------------------------------------------------

  /** Read again from its ESC, what is gathered leads to the same place and passes nothing. */
  predicate Retraced(policy: Policy, c: Core) {
    c.over ||
    match c.reading
    case Ground => true
    case Escape => c == Begun(Escape) && Run(policy, FRESH, c.gathered) == (c, [])
    case Text(kind) => |c.gathered| >= 2 && KindOf(c.gathered[1]) == kind && Run(policy, FRESH, c.gathered) == (c, [])
    case TextEscape =>
      && |c.gathered| >= 2
      && Run(policy, FRESH, c.gathered) == (c.(reading := Text(KindOf(c.gathered[1]))), [])
    case _ => Run(policy, FRESH, c.gathered) == (c, [])
  }

  lemma RunFirst(policy: Policy, c: Core, b: byte)
    ensures Run(policy, c, [b]) == Step(policy, c, b)
  {
    hide Step;
    RunOne(policy, c, [], b);
    assert [] + [b] == [b];
    assert [] + Step(policy, c, b).1 == Step(policy, c, b).1;
  }

  lemma EscRetraced(policy: Policy)
    ensures Retraced(policy, Begun(Escape))
  {
    hide InEscape, InIntermediate, InCsi, InText, Ended;
    RunFirst(policy, FRESH, ESC);
  }

  /** One more byte gathered. */
  lemma GatheredRetraced(policy: Policy, c: Core, b: byte, next: Core)
    requires Retraced(policy, c) && !c.over && c.reading != Ground && c.reading != TextEscape
    requires Step(policy, c, b) == (next, []) && next.gathered == c.gathered + [b] && !next.over
    requires next.reading != TextEscape && next.reading != Ground && next.reading != Escape
    requires next.reading.Text? ==> |next.gathered| >= 2 && KindOf(next.gathered[1]) == next.reading.kind
    ensures Retraced(policy, next)
  {
    hide Step;
    RunOne(policy, FRESH, c.gathered, b);
    var none: seq<Event> := [];
    assert none + none == none;
  }

  // ---- one step ------------------------------------------------------------------------------------------------

  /** What a byte brings: nothing, one byte as it came, or what the sequence it ends comes to. */
  datatype Brings = Nothing | Itself | Whole(ended: Core)

  function BringsOf(policy: Policy, c: Core, b: byte): Brings {
    match c.reading
    case Ground => if b == ESC || b == ENQ then Nothing else Itself
    case Escape => InEscapeBrings(c, b)
    case EscapeIntermediate =>
      if 0x20 <= b <= 0x2f then Nothing
      else if 0x30 <= b <= 0x7e then Whole(Gathering(c, b, MAX_CSI))
      else if b == ESC || b == CAN || b == SUB then Nothing
      else Itself
    case Csi =>
      if 0x20 <= b <= 0x3f then Nothing
      else if 0x40 <= b <= 0x7e then Whole(Gathering(c, b, MAX_CSI))
      else if b == ESC || b == CAN || b == SUB then Nothing
      else if b <= 0x1f then Itself
      else Nothing
    case Text(kind) =>
      if b == BEL && kind == OscKind then Whole(Gathering(c, b, MAX_STRING)) else Nothing
    case TextEscape =>
      if b == BACKSLASH then Whole(Gathering(Gathering(c, ESC, MAX_STRING), b, MAX_STRING))
      else InEscapeBrings(Begun(Escape), b)
  }

  function InEscapeBrings(c: Core, b: byte): Brings {
    if b == 0x5b || Introduces(b) || 0x20 <= b <= 0x2f then Nothing
    else if 0x30 <= b <= 0x7e then Whole(c.(gathered := c.gathered + [b]))
    else if b == CAN || b == SUB then Nothing
    else Itself
  }

  lemma StepBrings(policy: Policy, c: Core, b: byte)
    ensures match BringsOf(policy, c, b)
            case Nothing => Step(policy, c, b).1 == []
            case Itself => Step(policy, c, b).1 == [Out(b)]
            case Whole(ended) => Step(policy, c, b) == Ended(policy, ended)
  {
    hide Ended;
  }

  /** The machine keeps what it gathered retraceable. */
  lemma StepRetraced(policy: Policy, c: Core, b: byte)
    requires Retraced(policy, c)
    ensures Retraced(policy, Step(policy, c, b).0)
  {
    var next := Step(policy, c, b).0;
    EscRetraced(policy);
    match c.reading
    case Ground =>
    case Escape => EscapeRetraced(policy, c, b);
    case EscapeIntermediate => IntermediateRetraced(policy, c, b);
    case Csi => CsiRetraced(policy, c, b);
    case Text(kind) => TextRetraced(policy, c, b, kind);
    case TextEscape => if b != BACKSLASH { EscapeRetraced(policy, Begun(Escape), b); }
  }

  lemma EscapeRetraced(policy: Policy, c: Core, b: byte)
    requires Retraced(policy, c) && c.reading == Escape
    ensures Retraced(policy, InEscape(policy, c, b).0)
  {
    hide JudgeSeq, Run;
    EscRetraced(policy);
    var next := InEscape(policy, c, b).0;
    if !c.over && (b == 0x5b || Introduces(b) || 0x20 <= b <= 0x2f) {
      GatheredRetraced(policy, c, b, next);
    }
  }

  lemma IntermediateRetraced(policy: Policy, c: Core, b: byte)
    requires Retraced(policy, c) && c.reading == EscapeIntermediate
    ensures Retraced(policy, InIntermediate(policy, c, b).0)
  {
    hide JudgeSeq, Run;
    EscRetraced(policy);
    var next := InIntermediate(policy, c, b).0;
    if !c.over && 0x20 <= b <= 0x2f && |c.gathered| < MAX_CSI { GatheredRetraced(policy, c, b, next); }
  }

  lemma CsiRetraced(policy: Policy, c: Core, b: byte)
    requires Retraced(policy, c) && c.reading == Csi
    ensures Retraced(policy, InCsi(policy, c, b).0)
  {
    hide JudgeSeq, Run;
    EscRetraced(policy);
    var next := InCsi(policy, c, b).0;
    if !c.over && 0x20 <= b <= 0x3f && |c.gathered| < MAX_CSI { GatheredRetraced(policy, c, b, next); }
  }

  lemma TextRetraced(policy: Policy, c: Core, b: byte, kind: Kind)
    requires Retraced(policy, c) && c.reading == Text(kind)
    ensures Retraced(policy, InText(policy, c, b, kind).0)
  {
    hide JudgeSeq, Run;
    var next := InText(policy, c, b, kind).0;
    if && !c.over && b != ESC && !(b == BEL && kind == OscKind) && b != CAN && b != SUB && |c.gathered| < MAX_STRING {
      GatheredRetraced(policy, c, b, next);
    }
  }

  /** What a byte ends, read again from its ESC, ends the same. */
  lemma WholeRetraced(policy: Policy, c: Core, b: byte)
    requires Retraced(policy, c) && BringsOf(policy, c, b).Whole? && !BringsOf(policy, c, b).ended.over
    ensures var g := BringsOf(policy, c, b).ended.gathered;
            && Run(policy, FRESH, g) == Ended(policy, BringsOf(policy, c, b).ended)
            && g != [] && g[|g| - 1] < 0x80
  {
    hide JudgeSeq, Ended, InEscape, InIntermediate, InCsi, InText;
    if c.reading == TextEscape {
      if b == BACKSLASH {
        StringRetraced(policy, c);
      } else {
        EscRetraced(policy);
        StepWhole(policy, Begun(Escape), b);
      }
    } else {
      StepWhole(policy, c, b);
    }
  }

  lemma StepWhole(policy: Policy, c: Core, b: byte)
    requires Retraced(policy, c) && c.reading != TextEscape && BringsOf(policy, c, b).Whole?
    requires !BringsOf(policy, c, b).ended.over
    ensures BringsOf(policy, c, b).ended.gathered == c.gathered + [b] && b < 0x80
    ensures Run(policy, FRESH, c.gathered + [b]) == Ended(policy, BringsOf(policy, c, b).ended)
  {
    hide JudgeSeq, Ended, Run;
    StepBrings(policy, c, b);
    RunOne(policy, FRESH, c.gathered, b);
    assert [] + Ended(policy, BringsOf(policy, c, b).ended).1 == Ended(policy, BringsOf(policy, c, b).ended).1;
  }

  lemma StringRetraced(policy: Policy, c: Core)
    requires Retraced(policy, c) && c.reading == TextEscape && BringsOf(policy, c, BACKSLASH).Whole?
    requires !BringsOf(policy, c, BACKSLASH).ended.over
    ensures BringsOf(policy, c, BACKSLASH).ended.gathered == c.gathered + [ESC] + [BACKSLASH]
    ensures Run(policy, FRESH, c.gathered + [ESC] + [BACKSLASH]) == Ended(policy, BringsOf(policy, c, BACKSLASH).ended)
  {
    hide JudgeSeq, Ended, Run;
    RunOne(policy, FRESH, c.gathered, ESC);
    RunOne(policy, FRESH, c.gathered + [ESC], BACKSLASH);
    assert Run(policy, FRESH, c.gathered + [ESC]) == (c, []);
    assert [] + Ended(policy, BringsOf(policy, c, BACKSLASH).ended).1 == Ended(policy, BringsOf(policy, c, BACKSLASH).ended).1;
  }

  // ---- the passed bytes, fed again ------------------------------------------------------------------------

  /** Fed to a fresh filter, `bytes` pass whole and leave it between sequences. */
  predicate PassWhole(policy: Policy, bytes: seq<byte>) {
    Run(policy, FRESH, bytes) == (FRESH, Outs(bytes))
  }

  lemma OneWhole(policy: Policy, b: byte)
    requires b != ESC && b != ENQ
    ensures PassWhole(policy, [b])
  {
    hide Run;
    RunText(policy, FRESH, [b]);
  }

  lemma {:induction false} QuietGathered(policy: Policy, c: Core, bytes: seq<byte>)
    requires c.reading == Text(OscKind) && !c.over && |c.gathered| + |bytes| <= MAX_STRING
    requires forall i :: 0 <= i < |bytes| ==> Quiet(bytes[i])
    ensures Run(policy, c, bytes) == (c.(gathered := c.gathered + bytes), [])
    decreases |bytes|
  {
    hide JudgeSeq, Ended;
    var none: seq<Event> := [];
    assert none + none == none;
    if bytes == [] {
      assert c.gathered + bytes == c.gathered;
    } else {
      var front, last := bytes[..|bytes| - 1], bytes[|bytes| - 1];
      QuietGathered(policy, c, front);
      assert c.gathered + bytes == c.gathered + front + [last];
      assert Step(policy, c.(gathered := c.gathered + front), last) == (c.(gathered := c.gathered + bytes), none);
    }
  }

  /** A title rewritten passes whole. */
  lemma TitleWhole(policy: Policy, number: byte, title: seq<Scalar>)
    requires number in {0x30, 0x31, 0x32} && |title| <= MAX_TITLE && forall i :: 0 <= i < |title| ==> !Control(title[i])
    ensures PassWhole(policy, TitleSeq(number, title))
  {
    hide JudgeSeq, Ended, Run;
    var text := EncodeAll(title);
    TitleQuiet(title);
    var begun := [ESC] + [0x5d];
    var core := Core(Text(OscKind), [ESC, 0x5d], false);
    EscRetraced(policy);
    RunOne(policy, FRESH, [ESC], 0x5d);
    var none: seq<Event> := [];
    assert none + none == none;
    assert Run(policy, FRESH, [ESC]) == (Begun(Escape), none);
    assert [ESC] + [0x5d] == [ESC, 0x5d];
    assert Step(policy, Begun(Escape), 0x5d) == (core, none);
    assert Run(policy, FRESH, begun) == (core, none + none);
    var inner := [number, SEMICOLON] + text;
    QuietGathered(policy, core, inner);
    RunMore(policy, FRESH, begun, inner);
    var gathered := core.(gathered := core.gathered + inner);
    assert Run(policy, core, inner) == (gathered, none);
    assert Run(policy, FRESH, begun + inner) == (gathered, none + none);
    RunOne(policy, FRESH, begun + inner, BEL);
    assert begun + inner + [BEL] == TitleSeq(number, title);
    assert gathered.gathered + [BEL] == TitleSeq(number, title);
    TitleFixed(number, title, policy);
    TitleEnds(policy, gathered, TitleSeq(number, title));
  }

  lemma TitleEnds(policy: Policy, c: Core, whole: seq<byte>)
    requires c.reading == Text(OscKind) && !c.over && |c.gathered| < MAX_STRING && c.gathered + [BEL] == whole
    requires JudgeSeq(whole, policy) == Instead(whole)
    ensures Step(policy, c, BEL) == (FRESH, Outs(whole))
    ensures [] + Outs(whole) == Outs(whole)
  {
    hide JudgeSeq;
  }

  /** A sequence that passes, passes whole when fed again. */
  lemma EndedWhole(policy: Policy, c: Core, b: byte)
    requires Retraced(policy, c) && BringsOf(policy, c, b).Whole?
    ensures var (after, events) := Ended(policy, BringsOf(policy, c, b).ended);
            && after == FRESH
            && (events == [] || (|events| == 1 && events[0].Mark?)
                || exists bytes :: && events == Outs(bytes) && bytes != [] && bytes[|bytes| - 1] < 0x80
                                   && PassWhole(policy, bytes))
  {
    hide BringsOf, Run, Retraced;
    var ended := BringsOf(policy, c, b).ended;
    if !ended.over {
      WholeRetraced(policy, c, b);
      match JudgeSeq(ended.gathered, policy)
      case Pass => assert PassWhole(policy, ended.gathered);
      case Drop =>
      case MarkOf(mark) =>
      case Instead(bytes) =>
        InsteadIs(ended.gathered, policy);
        var number, title :| && number in {0x30, 0x31, 0x32} && |title| <= MAX_TITLE
                             && (forall i :: 0 <= i < |title| ==> !Control(title[i]))
                             && JudgeSeq(ended.gathered, policy).bytes == TitleSeq(number, title);
        TitleWhole(policy, number, title);
        assert PassWhole(policy, bytes);
    }
  }

  // ---- idempotence -------------------------------------------------------------------------------------------

  /** Fed to a fresh filter, `bytes` leave it between sequences and pass as `out`. */
  predicate Fed(policy: Policy, bytes: seq<byte>, out: seq<byte>) {
    Run(policy, FRESH, bytes) == (FRESH, Outs(out))
  }

  lemma FedMore(policy: Policy, a: seq<byte>, out: seq<byte>, b: seq<byte>)
    requires Fed(policy, a, out) && PassWhole(policy, b)
    ensures Fed(policy, a + b, out + b)
  {
    hide Step, Run;
    RunMore(policy, FRESH, a, b);
    OutsMore(out, b);
  }

  lemma FedEnq(policy: Policy, a: seq<byte>, out: seq<byte>)
    requires Fed(policy, a, out)
    ensures Fed(policy, a + [ENQ], out)
  {
    hide JudgeSeq;
    RunOne(policy, FRESH, a, ENQ);
    assert Outs(out) + [] == Outs(out);
  }

  /** What passed, but for each ENQ read inside a sequence. */
  function Refed(policy: Policy, input: seq<byte>): seq<byte>
    decreases |input|
  {
    if input == [] then []
    else
      var front, b := input[..|input| - 1], input[|input| - 1];
      var c := Run(policy, FRESH, front).0;
      Refed(policy, front) + if EnqInside(c, b) then [] else BytesOf(Step(policy, c, b).1)
  }

  lemma RefedOne(policy: Policy, input: seq<byte>, b: byte)
    ensures var c := Run(policy, FRESH, input).0;
            Refed(policy, input + [b]) == Refed(policy, input) + if EnqInside(c, b) then [] else BytesOf(Step(policy, c, b).1)
  {
    hide Step, Run, EnqInside, BytesOf;
    assert (input + [b])[..|input|] == input;
  }

  /** What has passed so far, fed again. */
  ghost predicate Again(policy: Policy, input: seq<byte>) {
    var r := Run(policy, FRESH, input);
    Retraced(policy, r.0) && Fed(policy, BytesOf(r.1), Refed(policy, input))
  }

  lemma OneByte(events: seq<Event>, b: byte)
    ensures BytesOf(events + [Out(b)]) == BytesOf(events) + [b]
  {
    assert (events + [Out(b)])[..|events|] == events;
  }

  lemma ItselfIs(policy: Policy, c: Core, b: byte)
    requires BringsOf(policy, c, b).Itself?
    ensures b == ESC <==> LoneEsc(c, b)
    ensures b == ENQ <==> EnqInside(c, b)
  {
  }

  lemma NotItself(policy: Policy, c: Core, b: byte)
    requires !BringsOf(policy, c, b).Itself?
    ensures !EnqInside(c, b)
  {
  }

  lemma AgainOne(policy: Policy, input: seq<byte>, b: byte)
    requires Again(policy, input) && !LoneEsc(Run(policy, FRESH, input).0, b)
    ensures Again(policy, input + [b])
  {
    hide Step, Run, Retraced, BringsOf, BytesOf, Fed, LoneEsc, EnqInside, Refed;
    var (c, passed) := Run(policy, FRESH, input);
    var out := Refed(policy, input);
    RunOne(policy, FRESH, input, b);
    RefedOne(policy, input, b);
    StepRetraced(policy, c, b);
    StepBrings(policy, c, b);
    match BringsOf(policy, c, b)
    case Nothing =>
      NoneMore(passed, out);
    case Itself =>
      ItselfIs(policy, c, b);
      OneByte(passed, b);
      OneOnly(b);
      assert out + [] == out;
      if b == ENQ {
        FedEnq(policy, BytesOf(passed), out);
      } else {
        OneWhole(policy, b);
        FedMore(policy, BytesOf(passed), out, [b]);
      }
    case Whole(ended) =>
      NotItself(policy, c, b);
      EndedWhole(policy, c, b);
      EndedAgain(policy, passed, out, Ended(policy, ended).1);
  }

  lemma NoneMore(passed: seq<Event>, out: seq<byte>)
    ensures passed + [] == passed && BytesOf([]) == [] && out + [] == out
  {
  }

  lemma OneOnly(b: byte)
    ensures BytesOf([Out(b)]) == [b]
  {
  }

  lemma EndedAgain(policy: Policy, passed: seq<Event>, out: seq<byte>, events: seq<Event>)
    requires Fed(policy, BytesOf(passed), out)
    requires events == [] || (|events| == 1 && events[0].Mark?)
             || exists bytes :: events == Outs(bytes) && bytes != [] && bytes[|bytes| - 1] < 0x80 && PassWhole(policy, bytes)
    ensures Fed(policy, BytesOf(passed + events), out + BytesOf(events))
  {
    hide Fed, PassWhole, BytesOf, Run;
    if events == [] {
      NoneMore(passed, out);
    } else if |events| == 1 && events[0].Mark? {
      BytesMark(passed, events[0].mark);
      BytesMark([], events[0].mark);
      NoneMore([], out);
      assert events == [Mark(events[0].mark)] == [] + [Mark(events[0].mark)];
    } else {
      var bytes :| events == Outs(bytes) && bytes != [] && bytes[|bytes| - 1] < 0x80 && PassWhole(policy, bytes);
      BytesMore(passed, bytes);
      BytesMore([], bytes);
      NoneMore([], out);
      assert [] + Outs(bytes) == Outs(bytes) && [] + bytes == bytes;
      FedMore(policy, BytesOf(passed), out, bytes);
    }
  }

  lemma {:induction false} AllAgain(policy: Policy, input: seq<byte>)
    requires NoLoneEsc(policy, input)
    ensures Again(policy, input)
    decreases |input|
  {
    hide Step, Again, LoneEsc;
    if input == [] {
      NoneAgain(policy);
    } else {
      var front := input[..|input| - 1];
      AllAgain(policy, front);
      AgainOne(policy, front, input[|input| - 1]);
      assert front + [input[|input| - 1]] == input;
    }
  }

  lemma NoneAgain(policy: Policy)
    ensures Again(policy, [])
  {
  }

  lemma {:induction false} BytesJoin(a: seq<Event>, b: seq<Event>)
    ensures BytesOf(a + b) == BytesOf(a) + BytesOf(b)
    decreases |b|
  {
    if b == [] {
      assert a + b == a;
    } else {
      assert (a + b)[..|a + b| - 1] == a + b[..|b| - 1];
      BytesJoin(a, b[..|b| - 1]);
    }
  }

  /** An ENQ inside a sequence passes as it comes. */
  lemma EnqPasses(policy: Policy, c: Core, b: byte)
    requires EnqInside(c, b)
    ensures BytesOf(Step(policy, c, b).1) == [b]
  {
    hide JudgeSeq, BytesOf;
    OneOnly(b);
  }

  /** A refeed loses exactly the ENQs read inside a sequence. */
  lemma {:induction false} RefedIs(policy: Policy, input: seq<byte>)
    ensures var bytes := BytesOf(Run(policy, FRESH, input).1);
            if NoEnqInside(policy, input) then Refed(policy, input) == bytes else |Refed(policy, input)| < |bytes|
    decreases |input|
  {
    hide Step, BytesOf, EnqInside;
    if input == [] {
      NoneMore([], []);
    } else {
      var front, b := input[..|input| - 1], input[|input| - 1];
      var (c, passed) := Run(policy, FRESH, front);
      RefedIs(policy, front);
      BytesJoin(passed, Step(policy, c, b).1);
      if EnqInside(c, b) {
        EnqPasses(policy, c, b);
        assert Refed(policy, input) == Refed(policy, front) + [] == Refed(policy, front);
      }
    }
  }

  /** With no ESC read where an ESC has just begun a sequence, what passed, fed to a fresh filter of
      the same policy, leaves it between sequences and yields no mark: it passes but for each ENQ that was read
      inside a sequence, so whole if and only if there was none. */
  lemma Idempotent(policy: Policy, input: seq<byte>)
    requires NoLoneEsc(policy, input)
    ensures var bytes := BytesOf(Run(policy, FRESH, input).1);
            && Run(policy, FRESH, bytes) == (FRESH, Outs(Refed(policy, input)))
            && (Refed(policy, input) == bytes <==> NoEnqInside(policy, input))
  {
    hide Step, Run, Retraced, BytesOf, Refed;
    AllAgain(policy, input);
    RefedIs(policy, input);
  }

  // ---- exactly when ------------------------------------------------------------------------------------------

  /** What passed of the input's first `k` bytes. */
  function PassedOf(policy: Policy, input: seq<byte>, k: nat): seq<byte>
    requires k <= |input|
  {
    BytesOf(Run(policy, FRESH, input[..k]).1)
  }

  lemma {:induction false} NoLonePrefix(policy: Policy, input: seq<byte>, k: nat)
    requires k <= |input| && NoLoneEsc(policy, input)
    ensures NoLoneEsc(policy, input[..k])
    decreases |input|
  {
    hide LoneEsc, Run;
    if k == |input| {
      assert input[..k] == input;
    } else {
      var front := input[..|input| - 1];
      assert front[..k] == input[..k];
      NoLonePrefix(policy, front, k);
    }
  }

  lemma {:induction false} NoEnqPrefix(policy: Policy, input: seq<byte>, k: nat)
    requires k <= |input| && NoEnqInside(policy, input)
    ensures NoEnqInside(policy, input[..k])
    decreases |input|
  {
    hide EnqInside, Run;
    if k == |input| {
      assert input[..k] == input;
    } else {
      var front := input[..|input| - 1];
      assert front[..k] == input[..k];
      NoEnqPrefix(policy, front, k);
    }
  }

  /** The first lone ESC: what passed before it, fed again, ends between sequences, and with it does not. */
  lemma LoneEscOpens(policy: Policy, input: seq<byte>, b: byte)
    requires NoLoneEsc(policy, input) && LoneEsc(Run(policy, FRESH, input).0, b)
    ensures Run(policy, FRESH, BytesOf(Run(policy, FRESH, input + [b]).1)).0 == Begun(Escape)
  {
    hide Step, Run, BytesOf, Refed, NoEnqInside;
    var (c, passed) := Run(policy, FRESH, input);
    Idempotent(policy, input);
    RunOne(policy, FRESH, input, b);
    LoneEscIs(policy, c, b);
    OneByte(passed, b);
    RunOne(policy, FRESH, BytesOf(passed), b);
    EscBegins(policy);
  }

  lemma LoneEscIs(policy: Policy, c: Core, b: byte)
    requires LoneEsc(c, b)
    ensures Step(policy, c, b).1 == [Out(b)]
  {
    hide JudgeSeq;
  }

  lemma EscBegins(policy: Policy)
    ensures Step(policy, FRESH, ESC).0 == Begun(Escape)
  {
    hide JudgeSeq;
  }

  /** What passed, at every time, ends between sequences when fed again, if and only if no lone ESC was read. */
  lemma {:induction false} EndsBetweenIff(policy: Policy, input: seq<byte>)
    ensures (forall k: nat :: k <= |input| ==> Run(policy, FRESH, PassedOf(policy, input, k)).0 == FRESH)
            <==> NoLoneEsc(policy, input)
    decreases |input|
  {
    hide Step, Run, BytesOf, LoneEsc, NoEnqInside, Refed;
    if NoLoneEsc(policy, input) {
      forall k: nat | k <= |input|
        ensures Run(policy, FRESH, PassedOf(policy, input, k)).0 == FRESH
      {
        NoLonePrefix(policy, input, k);
        Idempotent(policy, input[..k]);
      }
    } else {
      var front, b := input[..|input| - 1], input[|input| - 1];
      if NoLoneEsc(policy, front) {
        LoneEscOpens(policy, front, b);
        assert input[..|input|] == input == front + [b];
        assert Run(policy, FRESH, PassedOf(policy, input, |input|)).0 != FRESH;
      } else {
        EndsBetweenIff(policy, front);
        var k: nat :| k <= |front| && Run(policy, FRESH, PassedOf(policy, front, k)).0 != FRESH;
        assert input[..k] == front[..k];
        assert Run(policy, FRESH, PassedOf(policy, input, k)).0 != FRESH;
      }
    }
  }

  /** And it passes whole, at every time, if and only if no lone ESC and no ENQ inside a sequence was read. */
  lemma PassesWholeIff(policy: Policy, input: seq<byte>)
    ensures (forall k: nat :: k <= |input| ==> PassWhole(policy, PassedOf(policy, input, k)))
            <==> NoLoneEsc(policy, input) && NoEnqInside(policy, input)
  {
    hide Step, Run, BytesOf, NoLoneEsc, NoEnqInside, Refed;
    EndsBetweenIff(policy, input);
    if NoLoneEsc(policy, input) {
      Idempotent(policy, input);
      assert input[..|input|] == input;
      if NoEnqInside(policy, input) {
        forall k: nat | k <= |input|
          ensures PassWhole(policy, PassedOf(policy, input, k))
        {
          NoLonePrefix(policy, input, k);
          NoEnqPrefix(policy, input, k);
          Idempotent(policy, input[..k]);
        }
      } else {
        OutsApart(Refed(policy, input), PassedOf(policy, input, |input|));
        assert !PassWhole(policy, PassedOf(policy, input, |input|));
      }
    }
  }

  lemma OutsApart(a: seq<byte>, b: seq<byte>)
    ensures Outs(a) == Outs(b) <==> a == b
  {
    if Outs(a) == Outs(b) {
      assert |a| == |Outs(a)| == |b|;
      forall i | 0 <= i < |a| ensures a[i] == b[i] { assert Outs(a)[i] == Out(a[i]) && Outs(b)[i] == Out(b[i]); }
    }
  }

  /** A whole question may pass by way of a lone ESC: these bytes, ended by the last of a DECID request, pass as one,
      which by itself is dropped. */
  lemma LoneEscPasses(policy: Policy)
    ensures var input, question := [ESC, ESC, CAN, 0x5a], [ESC, 0x5a];
            && !NoLoneEsc(policy, input)
            && BytesOf(Run(policy, FRESH, input).1) == question
            && Run(policy, FRESH, question) == (FRESH, [])
  {
    QuestionPasses(policy);
    QuestionDropped(policy);
  }

  lemma QuestionPasses(policy: Policy)
    ensures !NoLoneEsc(policy, [ESC, ESC, CAN, 0x5a]) && BytesOf(Run(policy, FRESH, [ESC, ESC, CAN, 0x5a]).1) == [ESC, 0x5a]
  {
    hide Run, BytesOf, JudgeSeq;
    var none: seq<Event> := [];
    RunFirst(policy, FRESH, ESC);
    RunOne(policy, FRESH, [ESC], ESC);
    assert [ESC] + [ESC] == [ESC, ESC] && none + [Out(ESC)] == [Out(ESC)];
    assert Run(policy, FRESH, [ESC, ESC]) == (Begun(Escape), [Out(ESC)]);
    RunOne(policy, FRESH, [ESC, ESC], CAN);
    assert [ESC, ESC] + [CAN] == [ESC, ESC, CAN] && [Out(ESC)] + none == [Out(ESC)];
    RunOne(policy, FRESH, [ESC, ESC, CAN], 0x5a);
    assert [ESC, ESC, CAN] + [0x5a] == [ESC, ESC, CAN, 0x5a];
    OneOnly(ESC);
    OneByte([Out(ESC)], 0x5a);
    assert [ESC] + [0x5a] == [ESC, 0x5a];
    LoneSecond(policy);
  }

  lemma LoneSecond(policy: Policy)
    requires Run(policy, FRESH, [ESC]).0 == Begun(Escape)
    ensures !NoLoneEsc(policy, [ESC, ESC, CAN, 0x5a])
  {
    hide Run;
    var two, three, four := [ESC, ESC], [ESC, ESC, CAN], [ESC, ESC, CAN, 0x5a];
    assert two[..|two| - 1] == [ESC] && three[..|three| - 1] == two && four[..|four| - 1] == three;
    assert !NoLoneEsc(policy, two);
    assert !NoLoneEsc(policy, three);
  }

  lemma QuestionDropped(policy: Policy)
    ensures Run(policy, FRESH, [ESC, 0x5a]) == (FRESH, [])
  {
    RunFirst(policy, FRESH, ESC);
    RunOne(policy, FRESH, [ESC], 0x5a);
    assert [ESC] + [0x5a] == [ESC, 0x5a];
  }

  // ---- what was given out ------------------------------------------------------------------------------------

  lemma {:induction false} TailEnds(events: seq<Event>)
    ensures |Tail(events)| <= |BytesOf(events)|
    decreases |events|
  {
    if events != [] { TailEnds(events[..|events| - 1]); }
  }

  /** The bytes given out of those passed: all but a character's whose end has not come. */
  function GivenOf(events: seq<Event>): seq<byte> {
    TailEnds(events);
    BytesOf(events)[..|BytesOf(events)| - |Held(events)|]
  }

  /** One byte more: the character cut goes on, ends, or one begins. */
  lemma CutOneMore(tail: seq<byte>, b: byte)
    ensures Incomplete(tail + [b]) == 0 || Incomplete(tail + [b]) == 1 || Incomplete(tail + [b]) == Incomplete(tail) + 1
    ensures b < 0x80 ==> Incomplete(tail + [b]) == 0
  {
    var more := tail + [b];
    var n := Incomplete(more);
    if n > 1 {
      assert CutAt(more, n);
      assert more[|more| - n] == tail[|tail| - (n - 1)];
      assert forall i :: |tail| - (n - 1) < i < |tail| ==> more[i] == tail[i];
      OneCut(tail, n - 1);
    }
  }

  lemma TailOne(events: seq<Event>, b: byte)
    ensures Tail(events + [Out(b)]) == Tail(events) + [b]
  {
    assert (events + [Out(b)])[..|events|] == events;
  }

  lemma TailMark(events: seq<Event>, mark: seq<byte>)
    ensures Held(events + [Mark(mark)]) == []
  {
    NoneCut();
  }

  /** What is given out as one more byte passes: as before, or all that had passed, or all that has. */
  lemma GivenOne(events: seq<Event>, b: byte)
    ensures var now := GivenOf(events + [Out(b)]);
            || now == GivenOf(events) || now == BytesOf(events) || now == BytesOf(events + [Out(b)])
  {
    hide BytesOf, Tail, Incomplete;
    TailOne(events, b);
    OneByte(events, b);
    TailEnds(events);
    CutOneMore(Tail(events), b);
  }

  lemma GivenAll(events: seq<Event>, bytes: seq<byte>)
    requires bytes != [] && bytes[|bytes| - 1] < 0x80
    ensures GivenOf(events + Outs(bytes)) == BytesOf(events + Outs(bytes))
  {
    hide BytesOf, Tail, Incomplete;
    TailOuts(events, bytes);
    var front := bytes[..|bytes| - 1];
    assert Tail(events) + bytes == Tail(events) + front + [bytes[|bytes| - 1]];
    CutOneMore(Tail(events) + front, bytes[|bytes| - 1]);
  }

  lemma GivenMark(events: seq<Event>, mark: seq<byte>)
    ensures GivenOf(events + [Mark(mark)]) == BytesOf(events)
  {
    hide BytesOf, Tail, Incomplete;
    TailMark(events, mark);
    BytesMark(events, mark);
  }

  lemma GivenNext(policy: Policy, input: seq<byte>, b: byte)
    requires PassWhole(policy, BytesOf(Run(policy, FRESH, input).1)) && PassWhole(policy, GivenOf(Run(policy, FRESH, input).1))
    requires PassWhole(policy, BytesOf(Run(policy, FRESH, input + [b]).1)) && Retraced(policy, Run(policy, FRESH, input).0)
    ensures PassWhole(policy, GivenOf(Run(policy, FRESH, input + [b]).1))
  {
    hide Step, Run, Retraced, BringsOf, BytesOf, PassWhole, GivenOf;
    var (c, passed) := Run(policy, FRESH, input);
    RunOne(policy, FRESH, input, b);
    StepBrings(policy, c, b);
    match BringsOf(policy, c, b)
    case Nothing => assert passed + [] == passed;
    case Itself => GivenOne(passed, b);
    case Whole(ended) =>
      EndedWhole(policy, c, b);
      GivenEnded(policy, passed, Ended(policy, ended).1);
  }

  lemma GivenEnded(policy: Policy, passed: seq<Event>, events: seq<Event>)
    requires PassWhole(policy, BytesOf(passed)) && PassWhole(policy, GivenOf(passed))
    requires PassWhole(policy, BytesOf(passed + events))
    requires events == [] || (|events| == 1 && events[0].Mark?)
             || exists bytes :: events == Outs(bytes) && bytes != [] && bytes[|bytes| - 1] < 0x80 && PassWhole(policy, bytes)
    ensures PassWhole(policy, GivenOf(passed + events))
  {
    hide PassWhole, BytesOf, GivenOf;
    if events == [] {
      assert passed + events == passed;
    } else if |events| == 1 && events[0].Mark? {
      GivenMark(passed, events[0].mark);
      assert events == [Mark(events[0].mark)];
    } else {
      var bytes :| events == Outs(bytes) && bytes != [] && bytes[|bytes| - 1] < 0x80 && PassWhole(policy, bytes);
      GivenAll(passed, bytes);
    }
  }

  /** What was given out, whatever was read since, ends between sequences and passes whole: nothing
      written after it lands inside one. */
  lemma {:induction false} GivenWhole(policy: Policy, input: seq<byte>)
    requires NoLoneEsc(policy, input) && NoEnqInside(policy, input)
    ensures PassWhole(policy, GivenOf(Run(policy, FRESH, input).1))
    decreases |input|
  {
    hide Step, LoneEsc, EnqInside, Retraced, GivenOf, BytesOf, Refed, Run;
    if input == [] {
      GivenFirst(policy);
    } else {
      var front := input[..|input| - 1];
      GivenWhole(policy, front);
      Idempotent(policy, front);
      Idempotent(policy, input);
      AllAgain(policy, front);
      assert front + [input[|input| - 1]] == input;
      GivenNext(policy, front, input[|input| - 1]);
    }
  }

  lemma GivenFirst(policy: Policy)
    ensures PassWhole(policy, GivenOf(Run(policy, FRESH, []).1))
  {
  }

  /** So whatever pieces a filter gave out by the end of a feed, a fresh one passes whole. */
  lemma PiecesWhole(f: Filter)
    requires f.Refines() && f.Settled() && NoLoneEsc(f.policy, f.read) && NoEnqInside(f.policy, f.read)
    ensures PassWhole(f.policy, BytesOf(Shown(f.given)))
  {
    hide Step, Run, PassWhole, Shown;
    GivenWhole(f.policy, f.read);
    BytesMore(Shown(f.given), f.out);
    assert BytesOf(Shown(f.given)) == GivenOf(f.Passed());
  }
}
