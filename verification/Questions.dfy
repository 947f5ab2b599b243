/** What of an output passes, said of the sequences it is made of: text, control sequences and control strings as
    ECMA-48 writes them, and a table of those that ask the terminal something. */
module Questions {
  import opened Bytes
  import opened Utf8
  import opened Judge
  import opened Stream

  // ---- what an output is made of -------------------------------------------------------------------------------------------

  datatype Unit =
    | Plainly(b: byte)
    | Escaped(intermediates: seq<byte>, last: byte)
    | Control(private: Option<byte>, params: seq<byte>, intermediates: seq<byte>, last: byte)
    | Device(params: seq<byte>, text: seq<byte>)
    | System(number: seq<byte>, fields: seq<seq<byte>>, bell: bool)
    | Named(which: byte, title: seq<Scalar>, bell: bool)           // a title: OSC 0, 1 or 2
    | Other(introducer: byte, text: seq<byte>)                     // APC, PM or SOS

  /** Fields, a `;` between each two. */
  function Fields(fields: seq<seq<byte>>): seq<byte> {
    if fields == [] then [] else if |fields| == 1 then fields[0] else fields[0] + [0x3b] + Fields(fields[1..])
  }

  function Terminator(bell: bool): seq<byte> {
    if bell then [BEL] else [ESC, 0x5c]
  }

  function Spelt(u: Unit): seq<byte> {
    match u
    case Plainly(b) => [b]
    case Escaped(intermediates, last) => [ESC] + intermediates + [last]
    case Control(private, params, intermediates, last) =>
      [ESC, 0x5b] + (if private.Some? then [private.value] else []) + params + intermediates + [last]
    case Device(params, text) => [ESC, 0x50] + params + text + [ESC, 0x5c]
    case System(number, fields, bell) =>
      [ESC, 0x5d] + number + (if fields == [] then [] else [0x3b] + Fields(fields)) + Terminator(bell)
    case Named(number, title, bell) => [ESC, 0x5d, number, 0x3b] + EncodeAll(title) + Terminator(bell)
    case Other(introducer, text) => [ESC, introducer] + text + [ESC, 0x5c]
  }

  predicate Among(s: seq<byte>, low: byte, high: byte) {
    forall i :: 0 <= i < |s| ==> low <= s[i] <= high
  }

  /** Bytes a control string may hold: none that ends it. */
  predicate Stringy(s: seq<byte>, bell: bool) {
    forall i :: 0 <= i < |s| ==> s[i] != ESC && s[i] != CAN && s[i] != SUB && (bell || s[i] != BEL)
  }

  predicate Field(s: seq<byte>) {
    Stringy(s, false) && forall i :: 0 <= i < |s| ==> s[i] != 0x3b
  }

  /** A whole sequence, as ECMA-48 has it. */
  predicate Whole(u: Unit) {
    match u
    case Plainly(b) => b != ESC
    case Escaped(intermediates, last) =>
      && Among(intermediates, 0x20, 0x2f) && 0x30 <= last <= 0x7e
      && (intermediates == [] ==> last !in {0x5b, 0x5d, 0x50, 0x5f, 0x5e, 0x58})
    case Control(private, params, intermediates, last) =>
      && (private.Some? ==> 0x3c <= private.value <= 0x3f) && Among(params, 0x30, 0x3f)
      && (private.None? && params != [] ==> params[0] < 0x3c)
      && Among(intermediates, 0x20, 0x2f) && 0x40 <= last <= 0x7e
    case Device(params, text) =>
      && (forall i :: 0 <= i < |params| ==> 0x30 <= params[i] <= 0x39 || params[i] == 0x3b)
      && Stringy(text, true) && (text != [] ==> !(0x30 <= text[0] <= 0x39) && text[0] != 0x3b)
    case System(number, fields, bell) =>
      && Field(number) && number !in {[0x30], [0x31], [0x32]} && (forall i :: 0 <= i < |fields| ==> Field(fields[i]))
    case Named(number, title, bell) =>
      && number in {0x30, 0x31, 0x32} && (forall i :: 0 <= i < |title| ==> title[i] !in {0x1b, 0x18, 0x1a, 0x07})
    case Other(introducer, text) => introducer in {0x5f, 0x5e, 0x58} && Stringy(text, true)
  }

  /** The longest sequence read. */
  function Bound(u: Unit): nat {
    match u
    case Plainly(_) => 1
    case Escaped(_, _) => MAX_CSI
    case Control(_, _, _, _) => MAX_CSI
    case _ => MAX_STRING
  }

  // ---- the table -----------------------------------------------------------------------------------------------------------------

  /** Device attributes; status and cursor reports; a mode asked; the version; the keyboard's flags and the graphics asked;
      the terminal's parameters; the locator's place. */
  const ASKS: set<(Option<byte>, seq<byte>, byte)> :=
    {(None, [], 0x63), (Some(0x3e), [], 0x63), (Some(0x3d), [], 0x63),
     (None, [], 0x6e), (Some(0x3f), [], 0x6e),
     (None, [0x24], 0x70), (Some(0x3f), [0x24], 0x70),
     (Some(0x3e), [], 0x71),
     (Some(0x3f), [], 0x75), (Some(0x3f), [], 0x53),
     (None, [], 0x78),
     (None, [0x27], 0x7c)}

  /** The window reports, as their numbers are written. */
  const REPORTS: set<seq<byte>> :=
    {[0x31, 0x31], [0x31, 0x33], [0x31, 0x34], [0x31, 0x35], [0x31, 0x36], [0x31, 0x38], [0x31, 0x39], [0x32, 0x30],
     [0x32, 0x31]}

  /** `params` begin with a field that is the number of a report, zeros before it or not. */
  ghost predicate Reports(params: seq<byte>) {
    exists n: nat, zeros: nat {:trigger params[zeros..n]} ::
      && zeros <= n <= |params| && (n < |params| ==> params[n] == 0x3b || params[n] == 0x3a)
      && (forall i :: 0 <= i < zeros ==> params[i] == 0x30) && params[zeros..n] in REPORTS
  }

  /** A control sequence that asks the terminal something. */
  ghost predicate Asks(private: Option<byte>, params: seq<byte>, intermediates: seq<byte>, last: byte) {
    (private, intermediates, last) in ASKS || (private == None && intermediates == [] && last == 0x74 && Reports(params))
  }

  /** The questions among colours' names, and the clipboard's and the links'. */
  const COLOURS: set<seq<byte>> :=
    {[0x34], [0x31, 0x30], [0x31, 0x31], [0x31, 0x32], [0x31, 0x33], [0x31, 0x34], [0x31, 0x35], [0x31, 0x36], [0x31, 0x37],
     [0x31, 0x38], [0x31, 0x39]}

  predicate Writes(text: seq<byte>) {
    0 < |text| <= MAX_CLIPBOARD
    && forall i :: 0 <= i < |text| ==>
         0x30 <= text[i] <= 0x39 || 0x41 <= text[i] <= 0x5a || 0x61 <= text[i] <= 0x7a || text[i] in {0x2b, 0x2f, 0x3d}
  }

  predicate IsNonce(field: seq<byte>) {
    [0x6e, 0x6f, 0x6e, 0x63, 0x65, 0x3d] <= field
  }

  /** The fields but those that carry a nonce. */
  function Unsigned(fields: seq<seq<byte>>): seq<seq<byte>> {
    if fields == [] then [] else (if IsNonce(fields[0]) then [] else [fields[0]]) + Unsigned(fields[1..])
  }

  /** The first nonce the fields carry is `nonce`. */
  ghost predicate Carries(fields: seq<seq<byte>>, nonce: seq<byte>) {
    exists i :: 0 <= i < |fields| && IsNonce(fields[i]) && fields[i][6..] == nonce && forall j :: 0 <= j < i ==> !IsNonce(fields[j])
  }

  /** Whether a mark of `fields` is relayed. */
  ghost predicate Relays(marks: Marks, fields: seq<seq<byte>>) {
    var data := Fields(fields);
    && 0 < |data| <= MAX_MARK && Among(data, 0x20, 0x7e) && data[0] != 0x53
    && (marks.AllMarks? || (marks.Signed? && Carries(fields, marks.nonce)))
  }

  /** The characters that are no controls. */
  function Legible(cs: seq<Scalar>): seq<Scalar> {
    if cs == [] then []
    else (if cs[0] < 0x20 || 0x7f <= cs[0] <= 0x9f then [] else [cs[0]]) + Legible(cs[1..])
  }

  /** What `u` comes to, if it is no longer than its bound. */
  ghost function Comes(policy: Policy, u: Unit): seq<Event> {
    match u
    case Plainly(b) => if b == ENQ then [] else [Out(b)]
    case Escaped(intermediates, last) => if intermediates == [] && last == 0x5a then [] else Outs(Spelt(u))
    case Control(private, params, intermediates, last) =>
      if Asks(private, params, intermediates, last) then [] else Outs(Spelt(u))
    case Device(params, text) => if [0x24, 0x71] <= text || [0x2b, 0x71] <= text then [] else Outs(Spelt(u))
    case System(number, fields, bell) =>
      if number == [0x31, 0x33, 0x33] then if Relays(policy.marks, fields) then [Mark(Fields(Unsigned(fields)))] else []
      else if number == [0x35, 0x32] then
        if policy.clipboard && |fields| > 1 && Writes(fields[1]) then Outs(Spelt(u)) else []
      else if number == [0x38] then if policy.links then Outs(Spelt(u)) else []
      else if number in COLOURS && [0x3f] in fields then [] else Outs(Spelt(u))
    case Named(number, title, bell) =>
      var legible := Legible(title);
      Outs([ESC, 0x5d, number, 0x3b] + EncodeAll(if |legible| > MAX_TITLE then legible[..MAX_TITLE] else legible) + [BEL])
    case Other(introducer, text) => Outs(Spelt(u))
  }

  /** What passes of `u`: nothing, if it is too long. */
  ghost function Passes(policy: Policy, u: Unit): seq<Event> {
    if |Spelt(u)| > Bound(u) then [] else Comes(policy, u)
  }

  // ---- the machine reads a sequence ------------------------------------------------------------------------------------------

  /** The machine with `bytes` gathered, or with none once they are too many. */
  function GatheredTo(reading: Reading, bytes: seq<byte>, max: nat): Core {
    if |bytes| <= max then Core(reading, bytes, false) else Core(reading, [], true)
  }

  lemma GatherOne(reading: Reading, bytes: seq<byte>, b: byte, max: nat)
    requires max > 0
    ensures Gathering(GatheredTo(reading, bytes, max), b, max) == GatheredTo(reading, bytes + [b], max)
  {
  }

  /** One more byte read. */
  lemma ReadOne(policy: Policy, begun: seq<byte>, b: byte, c: Core, passed: seq<Event>)
    requires Run(policy, FRESH, begun) == (c, passed)
    ensures Run(policy, FRESH, begun + [b]) == (Step(policy, c, b).0, passed + Step(policy, c, b).1)
    ensures passed == [] ==> Run(policy, FRESH, begun + [b]) == Step(policy, c, b)
  {
    hide Step;
    RunOne(policy, FRESH, begun, b);
    if passed == [] { assert passed + Step(policy, c, b).1 == Step(policy, c, b).1; }
  }

  lemma EscRuns(policy: Policy)
    ensures Run(policy, FRESH, [ESC]) == (Begun(Escape), [])
  {
    hide JudgeSeq, Ended;
    var none: seq<byte> := [];
    assert [ESC] == none + [ESC];
    ReadOne(policy, none, ESC, FRESH, []);
  }

  lemma Introduced(policy: Policy, b: byte)
    requires b == 0x5b || Introduces(b)
    ensures Run(policy, FRESH, [ESC, b]) == (Core(if b == 0x5b then Csi else Reading.Text(KindOf(b)), [ESC, b], false), [])
  {
    hide JudgeSeq, Ended;
    EscRuns(policy);
    assert [ESC, b] == [ESC] + [b];
    ReadOne(policy, [ESC], b, Begun(Escape), []);
    assert Begun(Escape).gathered + [b] == [ESC, b];
  }

  lemma {:induction false} CsiRuns(policy: Policy, inner: seq<byte>)
    requires Among(inner, 0x20, 0x3f)
    ensures Run(policy, FRESH, [ESC, 0x5b] + inner) == (GatheredTo(Csi, [ESC, 0x5b] + inner, MAX_CSI), [])
    decreases |inner|
  {
    hide JudgeSeq, Ended, Run, Gathering, GatheredTo;
    if inner == [] {
      Introduced(policy, 0x5b);
      assert [ESC, 0x5b] + inner == [ESC, 0x5b];
      Fits(Csi, [ESC, 0x5b], MAX_CSI);
    } else {
      var front, last := inner[..|inner| - 1], inner[|inner| - 1];
      CsiRuns(policy, front);
      assert [ESC, 0x5b] + inner == [ESC, 0x5b] + front + [last];
      ReadsAs(Csi, [ESC, 0x5b] + front, MAX_CSI);
      ReadOne(policy, [ESC, 0x5b] + front, last, GatheredTo(Csi, [ESC, 0x5b] + front, MAX_CSI), []);
      GatherOne(Csi, [ESC, 0x5b] + front, last, MAX_CSI);
    }
  }

  lemma Fits(reading: Reading, bytes: seq<byte>, max: nat)
    requires |bytes| <= max
    ensures GatheredTo(reading, bytes, max) == Core(reading, bytes, false)
  {
  }

  lemma ReadsAs(reading: Reading, bytes: seq<byte>, max: nat)
    ensures GatheredTo(reading, bytes, max).reading == reading
    ensures GatheredTo(reading, bytes, max).over <==> |bytes| > max
  {
  }

  lemma {:induction false} StringRuns(policy: Policy, introducer: byte, text: seq<byte>)
    requires Introduces(introducer) && Stringy(text, introducer != 0x5d)
    ensures Run(policy, FRESH, [ESC, introducer] + text) ==
            (GatheredTo(Reading.Text(KindOf(introducer)), [ESC, introducer] + text, MAX_STRING), [])
    decreases |text|
  {
    hide JudgeSeq, Ended, Run, Gathering, GatheredTo;
    var reading := Reading.Text(KindOf(introducer));
    if text == [] {
      Introduced(policy, introducer);
      assert [ESC, introducer] + text == [ESC, introducer];
      Fits(reading, [ESC, introducer], MAX_STRING);
    } else {
      var front, last := text[..|text| - 1], text[|text| - 1];
      var begun := [ESC, introducer] + front;
      StringRuns(policy, introducer, front);
      assert [ESC, introducer] + text == begun + [last];
      ReadsAs(reading, begun, MAX_STRING);
      ReadOne(policy, begun, last, GatheredTo(reading, begun, MAX_STRING), []);
      GatherOne(reading, begun, last, MAX_STRING);
    }
  }

  lemma StringEnds(policy: Policy, introducer: byte, text: seq<byte>, bell: bool)
    requires Introduces(introducer) && Stringy(text, introducer != 0x5d) && (bell ==> introducer == 0x5d)
    ensures var whole := [ESC, introducer] + text + Terminator(bell);
            Run(policy, FRESH, whole) ==
            Ended(policy, GatheredTo(if bell then Reading.Text(KindOf(introducer)) else TextEscape, whole, MAX_STRING))
  {
    hide JudgeSeq, Ended, Run, Gathering, GatheredTo;
    StringRuns(policy, introducer, text);
    var begun := [ESC, introducer] + text;
    var reading := Reading.Text(KindOf(introducer));
    var c := GatheredTo(reading, begun, MAX_STRING);
    ReadsAs(reading, begun, MAX_STRING);
    if bell {
      assert begun + Terminator(bell) == begun + [BEL];
      ReadOne(policy, begun, BEL, c, []);
      GatherOne(reading, begun, BEL, MAX_STRING);
    } else {
      ReadOne(policy, begun, ESC, c, []);
      var t := c.(reading := TextEscape);
      TextEscapes(reading, begun);
      ReadOne(policy, begun + [ESC], 0x5c, t, []);
      assert begun + [ESC] + [0x5c] == begun + Terminator(bell);
      GatherOne(TextEscape, begun, ESC, MAX_STRING);
      GatherOne(TextEscape, begun + [ESC], 0x5c, MAX_STRING);
    }
  }

  lemma TextEscapes(reading: Reading, bytes: seq<byte>)
    ensures GatheredTo(reading, bytes, MAX_STRING).(reading := TextEscape) == GatheredTo(TextEscape, bytes, MAX_STRING)
  {
  }

  lemma {:induction false} EscapeRuns(policy: Policy, intermediates: seq<byte>)
    requires Among(intermediates, 0x20, 0x2f)
    ensures Run(policy, FRESH, [ESC] + intermediates) ==
            (GatheredTo(if intermediates == [] then Escape else EscapeIntermediate, [ESC] + intermediates, MAX_CSI), [])
    decreases |intermediates|
  {
    hide JudgeSeq, Ended, Run, Gathering, GatheredTo;
    if intermediates == [] {
      EscRuns(policy);
      assert [ESC] + intermediates == [ESC];
      Fits(Escape, [ESC], MAX_CSI);
    } else {
      var front, last := intermediates[..|intermediates| - 1], intermediates[|intermediates| - 1];
      var begun := [ESC] + front;
      EscapeRuns(policy, front);
      assert [ESC] + intermediates == begun + [last];
      if front == [] {
        assert begun == [ESC];
        Fits(Escape, [ESC], MAX_CSI);
        Fits(EscapeIntermediate, begun + [last], MAX_CSI);
        ReadOne(policy, begun, last, Core(Escape, [ESC], false), []);
      } else {
        ReadsAs(EscapeIntermediate, begun, MAX_CSI);
        ReadOne(policy, begun, last, GatheredTo(EscapeIntermediate, begun, MAX_CSI), []);
        GatherOne(EscapeIntermediate, begun, last, MAX_CSI);
      }
    }
  }

  /** What a verdict passes of `whole`. */
  function PassedBy(judged: Judged, whole: seq<byte>): seq<Event> {
    match judged
    case Pass => Outs(whole)
    case Drop => []
    case MarkOf(mark) => [Mark(mark)]
    case Instead(bytes) => Outs(bytes)
  }

  /** A sequence is read to its end, and nothing of it passes if it is too long. */
  function EndsAs(policy: Policy, whole: seq<byte>, max: nat): (Core, seq<Event>) {
    (FRESH, if |whole| > max then [] else PassedBy(JudgeSeq(whole, policy), whole))
  }

  lemma TooLong(policy: Policy, reading: Reading, whole: seq<byte>, max: nat)
    ensures Ended(policy, GatheredTo(reading, whole, max)) == EndsAs(policy, whole, max)
  {
    hide JudgeSeq;
  }

  // ---- what it judges: control sequences -----------------------------------------------------------------------------------

  lemma {:induction false} IntermediatesFound(params: seq<byte>, intermediates: seq<byte>)
    requires Among(params, 0x30, 0x3f) && Among(intermediates, 0x20, 0x2f)
    ensures IntermediatesAt(params + intermediates) == |params|
    decreases |params|
  {
    if params == [] {
      assert params + intermediates == intermediates;
    } else {
      assert (params + intermediates)[1..] == params[1..] + intermediates;
      IntermediatesFound(params[1..], intermediates);
    }
  }

  predicate Zeros(s: seq<byte>) {
    forall i :: 0 <= i < |s| ==> s[i] == 0x30
  }

  lemma {:induction false} NumberZero(s: seq<byte>)
    requires s != []
    ensures Number(s) == Some(0) <==> Zeros(s)
    decreases |s|
  {
    if |s| > 1 {
      NumberZero(s[..|s| - 1]);
      if Zeros(s) { assert Zeros(s[..|s| - 1]); }
      if Number(s) == Some(0) {
        forall i | 0 <= i < |s| ensures s[i] == 0x30 {
          if i < |s| - 1 { assert s[..|s| - 1][i] == 0x30; }
        }
      }
    }
  }

  lemma NumberOne(s: seq<byte>, d: nat)
    requires s != [] && 1 <= d <= 9
    ensures Number(s) == Some(d) <==> s[|s| - 1] == 0x30 + d && Zeros(s[..|s| - 1])
  {
    if |s| > 1 { NumberZero(s[..|s| - 1]); }
  }

  lemma NumberTwo(s: seq<byte>, d: nat, e: nat)
    requires |s| >= 2 && 1 <= d <= 9 && 0 <= e <= 9
    ensures Number(s) == Some(10 * d + e) <==>
            s[|s| - 1] == 0x30 + e && s[|s| - 2] == 0x30 + d && Zeros(s[..|s| - 2])
  {
    var front := s[..|s| - 1];
    NumberOne(front, d);
    assert front[..|front| - 1] == s[..|s| - 2];
  }

  ghost predicate ReportField(s: seq<byte>) {
    |s| >= 2 && Zeros(s[..|s| - 2]) && s[|s| - 2..] in REPORTS
  }

  lemma ReportNumber(s: seq<byte>)
    ensures Number(s).Some? && Number(s).value in WINDOW_REPORTS <==> ReportField(s)
  {
    if |s| >= 2 {
      assert s[|s| - 2..] == [s[|s| - 2], s[|s| - 1]];
      NumberTwo(s, 1, 1);
      NumberTwo(s, 1, 3);
      NumberTwo(s, 1, 4);
      NumberTwo(s, 1, 5);
      NumberTwo(s, 1, 6);
      NumberTwo(s, 1, 8);
      NumberTwo(s, 1, 9);
      NumberTwo(s, 2, 0);
      NumberTwo(s, 2, 1);
    }
  }

  /** The first field of parameters, as they are split. */
  function FirstField(params: seq<byte>): seq<byte> {
    Split(Split(params, SEMICOLON)[0], COLON)[0]
  }

  lemma FirstFieldIs(params: seq<byte>)
    ensures var n := |FirstField(params)|;
            && n <= |params| && FirstField(params) == params[..n]
            && (n < |params| ==> params[n] == 0x3b || params[n] == 0x3a)
            && forall i :: 0 <= i < n ==> params[i] != 0x3b && params[i] != 0x3a
  {
    var at := IndexOf(params, SEMICOLON);
    var front := Split(params, SEMICOLON)[0];
    assert front == params[..at];
    var colon := IndexOf(front, COLON);
    assert Split(front, COLON)[0] == front[..colon] == params[..colon];
  }

  lemma ReportsIff(params: seq<byte>)
    ensures Reports(params) <==> ReportField(FirstField(params))
  {
    var field := FirstField(params);
    var k := |field|;
    FirstFieldIs(params);
    if ReportField(field) {
      assert params[k - 2..k] == field[k - 2..];
    }
    if Reports(params) {
      var n: nat, zeros: nat :| && zeros <= n <= |params| && (n < |params| ==> params[n] == 0x3b || params[n] == 0x3a)
        && (forall i :: 0 <= i < zeros ==> params[i] == 0x30) && params[zeros..n] in REPORTS;
      ReportsAt(params, n, zeros);
      assert n == k;
      assert field[k - 2..] == params[zeros..n];
      assert Zeros(field[..k - 2]);
    }
  }

  /** A report's number has two digits, and no separator before its end. */
  lemma ReportsAt(params: seq<byte>, n: nat, zeros: nat)
    requires zeros <= n <= |params| && (forall i :: 0 <= i < zeros ==> params[i] == 0x30) && params[zeros..n] in REPORTS
    ensures n == zeros + 2 && forall i :: 0 <= i < n ==> params[i] != 0x3b && params[i] != 0x3a
  {
    var digits := params[zeros..n];
    assert |digits| == 2 && params[zeros] == digits[0] && params[zeros + 1] == digits[1];
  }

  /** The table's rows, as they are judged. */
  predicate Asked(private: Option<byte>, intermediates: seq<byte>, last: byte) {
    || (intermediates == [] && last == 0x63 && (private == None || private == Some(0x3e) || private == Some(0x3d)))
    || (intermediates == [] && last == 0x6e && (private == None || private == Some(0x3f)))
    || (intermediates == [0x24] && last == 0x70 && (private == None || private == Some(0x3f)))
    || (intermediates == [] && last == 0x71 && private == Some(0x3e))
    || (intermediates == [] && (last == 0x75 || last == 0x53) && private == Some(0x3f))
    || (intermediates == [] && last == 0x78 && private == None)
    || (intermediates == [0x27] && last == 0x7c && private == None)
  }

  lemma AskedIs(private: Option<byte>, intermediates: seq<byte>, last: byte)
    ensures Asked(private, intermediates, last) <==> (private, intermediates, last) in ASKS
  {
  }

  lemma PartsNone(params: seq<byte>, intermediates: seq<byte>, last: byte)
    requires Among(params, 0x30, 0x3f) && Among(intermediates, 0x20, 0x2f) && (params != [] ==> params[0] < 0x3c)
    ensures CsiParts(params + intermediates + [last]) == (None, params, intermediates, last)
  {
    hide IntermediatesAt;
    var rest := params + intermediates;
    var body := rest + [last];
    assert body[..|body| - 1] == rest;
    assert rest != [] ==> rest[0] < 0x3c;
    IntermediatesFound(params, intermediates);
    assert rest[..|params|] == params && rest[|params|..] == intermediates;
  }

  lemma PartsSome(private: byte, params: seq<byte>, intermediates: seq<byte>, last: byte)
    requires Among(params, 0x30, 0x3f) && Among(intermediates, 0x20, 0x2f) && 0x3c <= private <= 0x3f
    ensures CsiParts([private] + params + intermediates + [last]) == (Some(private), params, intermediates, last)
  {
    hide IntermediatesAt;
    var rest := params + intermediates;
    var inner := [private] + params + intermediates;
    var body := inner + [last];
    assert body[..|body| - 1] == inner && inner[1..] == rest;
    IntermediatesFound(params, intermediates);
    assert rest[..|params|] == params && rest[|params|..] == intermediates;
  }

  lemma PartsAre(private: Option<byte>, params: seq<byte>, intermediates: seq<byte>, last: byte)
    requires Whole(Control(private, params, intermediates, last))
    ensures var inner := (if private.Some? then [private.value] else []) + params + intermediates;
            CsiParts(inner + [last]) == (private, params, intermediates, last)
  {
    hide CsiParts, Spelt;
    if private.Some? {
      PartsSome(private.value, params, intermediates, last);
    } else {
      var none: seq<byte> := [];
      assert none + params == params;
      PartsNone(params, intermediates, last);
    }
  }

  lemma CsiAsksIs(private: Option<byte>, params: seq<byte>, intermediates: seq<byte>, last: byte)
    requires Whole(Control(private, params, intermediates, last))
    ensures var inner := (if private.Some? then [private.value] else []) + params + intermediates;
            var first := Number(FirstField(params));
            CsiAsks(inner + [last]) <==>
            Asked(private, intermediates, last)
            || (private == None && intermediates == [] && last == 0x74 && first.Some? && first.value in WINDOW_REPORTS)
  {
    hide Number, IntermediatesAt, Split, Whole, CsiParts;
    PartsAre(private, params, intermediates, last);
  }

  lemma CsiAsksIff(private: Option<byte>, params: seq<byte>, intermediates: seq<byte>, last: byte)
    requires Whole(Control(private, params, intermediates, last))
    ensures var inner := (if private.Some? then [private.value] else []) + params + intermediates;
            CsiAsks(inner + [last]) <==> Asks(private, params, intermediates, last)
  {
    hide CsiAsks, Reports, ReportField, Number, Whole, Asked, FirstField;
    CsiAsksIs(private, params, intermediates, last);
    AskedIs(private, intermediates, last);
    ReportsIff(params);
    ReportNumber(FirstField(params));
  }

  lemma ControlJudged(policy: Policy, u: Unit)
    requires u.Control? && Whole(u)
    ensures PassedBy(JudgeSeq(Spelt(u), policy), Spelt(u)) == Comes(policy, u)
  {
    hide CsiAsks, Asks, Osc, DcsAsks, Whole, Outs;
    var Control(private, params, intermediates, last) := u;
    var inner := (if private.Some? then [private.value] else []) + params + intermediates;
    CsiAsksIff(private, params, intermediates, last);
    assert Spelt(u) == [ESC, 0x5b] + (inner + [last]);
    assert Spelt(u)[2..] == inner + [last];
  }

  lemma FinalStep(policy: Policy, c: Core, last: byte)
    requires c.reading == Csi && 0x40 <= last <= 0x7e
    ensures Step(policy, c, last) == Ended(policy, Gathering(c, last, MAX_CSI))
  {
    hide JudgeSeq, Ended, Gathering;
  }

  lemma ControlParts(u: Unit)
    requires u.Control? && Whole(u)
    ensures var inner := (if u.private.Some? then [u.private.value] else []) + u.params + u.intermediates;
            && Spelt(u) == [ESC, 0x5b] + inner + [u.last] && Among(inner, 0x20, 0x3f) && 0x40 <= u.last <= 0x7e
  {
  }

  lemma ControlRuns(policy: Policy, u: Unit)
    requires u.Control? && Whole(u)
    ensures Run(policy, FRESH, Spelt(u)) == EndsAs(policy, Spelt(u), MAX_CSI)
  {
    hide JudgeSeq, Ended, EndsAs, GatheredTo, Run, Gathering, Step, Whole, Spelt, Among;
    ControlParts(u);
    var inner := (if u.private.Some? then [u.private.value] else []) + u.params + u.intermediates;
    var begun := [ESC, 0x5b] + inner;
    CsiRuns(policy, inner);
    ReadsAs(Csi, begun, MAX_CSI);
    ReadOne(policy, begun, u.last, GatheredTo(Csi, begun, MAX_CSI), []);
    FinalStep(policy, GatheredTo(Csi, begun, MAX_CSI), u.last);
    GatherOne(Csi, begun, u.last, MAX_CSI);
    TooLong(policy, Csi, Spelt(u), MAX_CSI);
  }

  // ---- what it judges: the rest ------------------------------------------------------------------------------------------

  lemma EscapedJudged(policy: Policy, u: Unit)
    requires u.Escaped? && Whole(u)
    ensures PassedBy(JudgeSeq(Spelt(u), policy), Spelt(u)) == Comes(policy, u)
  {
    hide CsiAsks, Osc, DcsAsks;
    var Escaped(intermediates, last) := u;
    assert Spelt(u)[1] == if intermediates == [] then last else intermediates[0];
  }

  lemma EscapedRuns(policy: Policy, u: Unit)
    requires u.Escaped? && Whole(u)
    ensures Run(policy, FRESH, Spelt(u)) == EndsAs(policy, Spelt(u), MAX_CSI)
  {
    hide JudgeSeq, Ended, EndsAs, GatheredTo, Run, Gathering;
    var Escaped(intermediates, last) := u;
    var begun := [ESC] + intermediates;
    EscapeRuns(policy, intermediates);
    if intermediates == [] {
      assert begun == [ESC];
      Fits(Escape, begun, MAX_CSI);
      Fits(Escape, begun + [last], MAX_CSI);
      ReadOne(policy, begun, last, Core(Escape, begun, false), []);
      TooLong(policy, Escape, begun + [last], MAX_CSI);
    } else {
      ReadsAs(EscapeIntermediate, begun, MAX_CSI);
      ReadOne(policy, begun, last, GatheredTo(EscapeIntermediate, begun, MAX_CSI), []);
      GatherOne(EscapeIntermediate, begun, last, MAX_CSI);
      TooLong(policy, EscapeIntermediate, begun + [last], MAX_CSI);
    }
  }

  /** A string is read to its end. */
  lemma StringComes(policy: Policy, introducer: byte, text: seq<byte>, bell: bool)
    requires Introduces(introducer) && Stringy(text, introducer != 0x5d) && (bell ==> introducer == 0x5d)
    ensures var whole := [ESC, introducer] + text + Terminator(bell);
            Run(policy, FRESH, whole) == EndsAs(policy, whole, MAX_STRING)
  {
    hide JudgeSeq, Ended, EndsAs, GatheredTo, Run;
    StringEnds(policy, introducer, text, bell);
    TooLong(policy, if bell then Reading.Text(KindOf(introducer)) else TextEscape, [ESC, introducer] + text + Terminator(bell), MAX_STRING);
  }

  lemma {:induction false} ParamsPassed(params: seq<byte>, rest: seq<byte>)
    requires forall i :: 0 <= i < |params| ==> 0x30 <= params[i] <= 0x39 || params[i] == 0x3b
    requires rest != [] ==> !(0x30 <= rest[0] <= 0x39) && rest[0] != 0x3b
    ensures AfterParams(params + rest) == rest
    decreases |params|
  {
    if params == [] {
      assert params + rest == rest;
    } else {
      assert (params + rest)[1..] == params[1..] + rest;
      ParamsPassed(params[1..], rest);
    }
  }

  lemma DeviceComes(policy: Policy, u: Unit)
    requires u.Device? && Whole(u)
    ensures Run(policy, FRESH, Spelt(u)) == (FRESH, Passes(policy, u))
  {
    hide CsiAsks, Run, Osc, AfterParams;
    var Device(params, text) := u;
    var whole, end := Spelt(u), text + [ESC, 0x5c];
    assert [ESC, 0x50] + (params + text) + Terminator(false) == whole;
    StringComes(policy, 0x50, params + text, false);
    ParamsPassed(params, end);
    assert whole[2..] == params + end;
    assert [0x24, 0x71] <= text <==> |end| >= 2 && end[0] == 0x24 && end[1] == 0x71;
    assert [0x2b, 0x71] <= text <==> |end| >= 2 && end[0] == 0x2b && end[1] == 0x71;
  }

  lemma OtherComes(policy: Policy, u: Unit)
    requires u.Other? && Whole(u)
    ensures Run(policy, FRESH, Spelt(u)) == (FRESH, Passes(policy, u))
  {
    hide CsiAsks, DcsAsks, Run, Osc;
    StringComes(policy, u.introducer, u.text, false);
  }

  lemma PlainStep(policy: Policy, b: byte)
    requires b != ESC
    ensures Step(policy, FRESH, b) == (FRESH, if b == ENQ then [] else [Out(b)])
  {
    hide JudgeSeq, Ended, Gathering, InEscape, InIntermediate, InCsi, InText;
  }

  lemma PlainIs(policy: Policy, u: Unit)
    requires u.Plainly? && Whole(u)
    ensures Spelt(u) == [u.b] && u.b != ESC && Passes(policy, u) == if u.b == ENQ then [] else [Out(u.b)]
  {
    hide Asks, Writes, Carries, Relays, Unsigned, Legible, Fields, EncodeAll;
  }

  lemma PlainlyComes(policy: Policy, u: Unit)
    requires u.Plainly? && Whole(u)
    ensures Run(policy, FRESH, Spelt(u)) == (FRESH, Passes(policy, u))
  {
    hide JudgeSeq, Step, Spelt, Passes, Whole;
    var none: seq<byte> := [];
    var nothing: seq<Event> := [];
    PlainIs(policy, u);
    PlainStep(policy, u.b);
    assert [u.b] == none + [u.b] && nothing + nothing == nothing && nothing + [Out(u.b)] == [Out(u.b)];
    RunOne(policy, FRESH, none, u.b);
    assert Run(policy, FRESH, none) == (FRESH, nothing);
  }

  // ---- what it judges: operating system commands -------------------------------------------------------------------------

  predicate Unsplit(s: seq<byte>) {
    forall i :: 0 <= i < |s| ==> s[i] != SEMICOLON
  }

  lemma {:induction false} FirstAt(a: seq<byte>, rest: seq<byte>)
    requires Unsplit(a)
    ensures IndexOf(a, SEMICOLON) == |a| && IndexOf(a + [SEMICOLON] + rest, SEMICOLON) == |a|
    decreases |a|
  {
    var all := a + [SEMICOLON] + rest;
    if a == [] {
      assert all[0] == SEMICOLON;
    } else {
      assert all[1..] == a[1..] + [SEMICOLON] + rest;
      FirstAt(a[1..], rest);
    }
  }

  /** Fields put together are split again. */
  lemma {:induction false} FieldsSplit(fields: seq<seq<byte>>)
    requires fields != [] && forall i :: 0 <= i < |fields| ==> Unsplit(fields[i])
    ensures Split(Fields(fields), SEMICOLON) == fields
    decreases |fields|
  {
    hide Unsplit, IndexOf;
    if |fields| == 1 {
      FirstAt(fields[0], []);
    } else {
      var rest := Fields(fields[1..]);
      FirstAt(fields[0], rest);
      var all := fields[0] + [SEMICOLON] + rest;
      assert all[..|fields[0]|] == fields[0] && all[|fields[0]| + 1..] == rest;
      FieldsSplit(fields[1..]);
      assert [fields[0]] + fields[1..] == fields;
    }
  }

  lemma {:induction false} FieldsStringy(fields: seq<seq<byte>>)
    requires forall i :: 0 <= i < |fields| ==> Field(fields[i])
    ensures Stringy(Fields(fields), false)
    decreases |fields|
  {
    if |fields| > 1 { FieldsStringy(fields[1..]); }
  }

  lemma {:induction false} JoinIs(fields: seq<seq<byte>>)
    ensures Join(fields, SEMICOLON) == Fields(fields)
  {
    if |fields| > 1 { JoinIs(fields[1..]); }
  }

  lemma {:induction false} UnsignedIs(fields: seq<seq<byte>>)
    ensures WithoutNonce(fields) == Unsigned(fields)
  {
    if fields != [] {
      UnsignedIs(fields[1..]);
      var none: seq<seq<byte>> := [];
      assert none + Unsigned(fields[1..]) == Unsigned(fields[1..]);
    }
  }

  lemma {:induction false} NonceIs(fields: seq<seq<byte>>, nonce: seq<byte>)
    ensures NonceIn(fields) == Some(nonce) <==> Carries(fields, nonce)
    decreases |fields|
  {
    if fields != [] {
      var rest := fields[1..];
      NonceIs(rest, nonce);
      if IsNonce(fields[0]) {
        if fields[0][6..] == nonce { assert Carries(fields, nonce); }
      } else {
        if Carries(rest, nonce) {
          var i :| 0 <= i < |rest| && IsNonce(rest[i]) && rest[i][6..] == nonce && forall j :: 0 <= j < i ==> !IsNonce(rest[j]);
          assert fields[i + 1] == rest[i];
          assert forall j :: 0 <= j < i + 1 ==> !IsNonce(fields[j]);
        }
        if Carries(fields, nonce) {
          var i :| 0 <= i < |fields| && IsNonce(fields[i]) && fields[i][6..] == nonce && forall j :: 0 <= j < i ==> !IsNonce(fields[j]);
          assert rest[i - 1] == fields[i];
          assert forall j :: 0 <= j < i - 1 ==> rest[j] == fields[j + 1];
        }
      }
    }
  }

  lemma MarkIs(fields: seq<seq<byte>>, marks: Marks)
    requires forall i :: 0 <= i < |fields| ==> Unsplit(fields[i])
    ensures Judge.Mark(Fields(fields), marks) == if Relays(marks, fields) then Some(Fields(Unsigned(fields))) else None
  {
    hide Split, Carries, NonceIn, WithoutNonce, Unsigned, Fields;
    if fields != [] {
      FieldsSplit(fields);
      if marks.Signed? { NonceIs(fields, marks.nonce); }
      UnsignedIs(fields);
      JoinIs(Unsigned(fields));
    } else {
      NoFields();
    }
  }

  lemma NoFields()
    ensures Fields([]) == []
  {
  }

  lemma OscBodyIs(inner: seq<byte>, bell: bool)
    requires Stringy(inner, false)
    ensures OscBody([ESC, 0x5d] + inner + Terminator(bell)) == inner
  {
    var body := ([ESC, 0x5d] + inner + Terminator(bell))[2..];
    assert body == inner + Terminator(bell);
    if bell {
      assert body[..|body| - 1] == inner;
    } else {
      assert body[..|body| - 2] == inner;
    }
  }

  /** What an OSC is read as: its number, and its fields. */
  lemma OscParts(number: seq<byte>, fields: seq<seq<byte>>)
    requires Unsplit(number) && forall i :: 0 <= i < |fields| ==> Unsplit(fields[i])
    ensures var inner := number + (if fields == [] then [] else [SEMICOLON] + Fields(fields));
            var at := IndexOf(inner, SEMICOLON);
            && inner[..at] == number && (if at < |inner| then inner[at + 1..] else []) == Fields(fields)
            && Split(Fields(fields), SEMICOLON) == if fields == [] then [[]] else fields
  {
    var none: seq<byte> := [];
    FirstAt(number, Fields(fields));
    if fields == [] {
      assert number + none == number;
      FirstAt(none, none);
    } else {
      var inner := number + ([SEMICOLON] + Fields(fields));
      assert inner == number + [SEMICOLON] + Fields(fields);
      assert inner[..|number|] == number && inner[|number| + 1..] == Fields(fields);
      FieldsSplit(fields);
    }
  }

  lemma ClipboardIs(written: seq<byte>)
    ensures |written| <= MAX_CLIPBOARD && Base64(written) <==> Writes(written)
  {
  }

  lemma ClipboardJudged(policy: Policy, u: Unit)
    requires u.System? && Whole(u) && u.number == [0x35, 0x32]
    ensures PassedBy(OscOf(u.number, Fields(u.fields), policy), Spelt(u)) == Comes(policy, u)
  {
    hide Split, Fields, IndexOf, Outs, Writes, Base64, Stringy, Spelt;
    OscParts(u.number, u.fields);
    EmptyWrites();
    if |u.fields| > 1 { ClipboardIs(u.fields[1]); }
  }

  lemma ColoursAre(number: seq<byte>)
    ensures number in COLOURS <==> number in ASKABLE
  {
  }

  lemma SystemJudged(policy: Policy, u: Unit)
    requires u.System? && Whole(u)
    ensures PassedBy(OscOf(u.number, Fields(u.fields), policy), Spelt(u)) == Comes(policy, u)
  {
    hide Split, Judge.Mark, Relays, Fields, IndexOf, Unsigned, Outs, Stringy, Spelt;
    if u.number == [0x31, 0x33, 0x33] {
      MarkIs(u.fields, policy.marks);
    } else if u.number == [0x35, 0x32] {
      ClipboardJudged(policy, u);
    } else {
      OscParts(u.number, u.fields);
      ColoursAre(u.number);
    }
  }

  lemma EmptyWrites()
    ensures !Writes([]) && !Base64([])
  {
  }

  lemma SpeltIs(u: Unit, inner: seq<byte>)
    requires u.System? && Whole(u) && inner == u.number + (if u.fields == [] then [] else [SEMICOLON] + Fields(u.fields))
    ensures Spelt(u) == [ESC, 0x5d] + inner + Terminator(u.bell)
    ensures Stringy(inner, false)
  {
    hide Fields;
    FieldsStringy(u.fields);
  }

  lemma SystemComes(policy: Policy, u: Unit)
    requires u.System? && Whole(u)
    ensures Run(policy, FRESH, Spelt(u)) == (FRESH, Passes(policy, u))
  {
    hide Run, Fields, Comes, OscOf, OscBody, IndexOf, Split, CsiAsks, DcsAsks, Stringy;
    var inner := u.number + (if u.fields == [] then [] else [SEMICOLON] + Fields(u.fields));
    SpeltIs(u, inner);
    StringComes(policy, 0x5d, inner, u.bell);
    SystemJudged(policy, u);
    OscBodyIs(inner, u.bell);
    OscParts(u.number, u.fields);
  }

  // ---- titles ------------------------------------------------------------------------------------------------------------

  lemma EncodeStringy(c: Scalar)
    requires c !in {0x1b, 0x18, 0x1a, 0x07}
    ensures Stringy(Encode(c), false)
  {
  }

  lemma {:induction false} TitleStringy(title: seq<Scalar>)
    requires forall i :: 0 <= i < |title| ==> title[i] !in {0x1b, 0x18, 0x1a, 0x07}
    ensures Stringy(EncodeAll(title), false)
  {
    hide Encode;
    if title != [] {
      EncodeStringy(title[0]);
      TitleStringy(title[1..]);
    }
  }

  lemma {:induction false} LegibleIs(cs: seq<Scalar>)
    ensures Uncontrolled(cs) == Legible(cs)
  {
    if cs != [] {
      LegibleIs(cs[1..]);
      var none: seq<Scalar> := [];
      assert none + Legible(cs[1..]) == Legible(cs[1..]);
    }
  }

  lemma NamedComes(policy: Policy, u: Unit)
    requires u.Named? && Whole(u)
    ensures Run(policy, FRESH, Spelt(u)) == (FRESH, Passes(policy, u))
  {
    hide Run, Split, Judge.Mark, IndexOf, OscBody, Lossy, Uncontrolled, EncodeAll, Legible;
    var Named(which, title, bell) := u;
    var text := EncodeAll(title);
    var inner := [which, SEMICOLON] + text;
    TitleStringy(title);
    assert [ESC, 0x5d] + inner + Terminator(bell) == Spelt(u);
    StringComes(policy, 0x5d, inner, bell);
    OscBodyIs(inner, bell);
    FirstSemicolon(which, text);
    assert inner[..1] == [which] && inner[2..] == text;
    LossyEncoded(title);
    LegibleIs(title);
  }

  // ---- the whole -----------------------------------------------------------------------------------------------------------

  lemma UnitComes(policy: Policy, u: Unit)
    requires Whole(u)
    ensures Run(policy, FRESH, Spelt(u)) == (FRESH, Passes(policy, u))
  {
    hide Run, Comes, Spelt, Whole, JudgeSeq;
    match u {
      case Plainly(_) => PlainlyComes(policy, u);
      case Escaped(_, _) => EscapedRuns(policy, u); EscapedJudged(policy, u);
      case Control(_, _, _, _) => ControlRuns(policy, u); ControlJudged(policy, u);
      case Device(_, _) => DeviceComes(policy, u);
      case System(_, _, _) => SystemComes(policy, u);
      case Named(_, _, _) => NamedComes(policy, u);
      case Other(_, _) => OtherComes(policy, u);
    }
  }

  function AllSpelt(units: seq<Unit>): seq<byte> {
    if units == [] then [] else AllSpelt(units[..|units| - 1]) + Spelt(units[|units| - 1])
  }

  ghost function AllCome(policy: Policy, units: seq<Unit>): seq<Event> {
    if units == [] then [] else AllCome(policy, units[..|units| - 1]) + Passes(policy, units[|units| - 1])
  }

  /** Of an output of whole sequences all passes as it is but the questions, the marks, which are taken out, the titles,
      which are cut and rid of controls, what the policy turns off and what is too long; and the filter is between sequences. */
  lemma {:induction false} OutputComes(policy: Policy, units: seq<Unit>)
    requires forall i :: 0 <= i < |units| ==> Whole(units[i])
    ensures Run(policy, FRESH, AllSpelt(units)) == (FRESH, AllCome(policy, units))
    decreases |units|
  {
    hide Run, Passes, Spelt, Whole;
    if units == [] {
      NothingRead(policy);
    } else {
      var front, last := units[..|units| - 1], units[|units| - 1];
      OutputComes(policy, front);
      UnitComes(policy, last);
      RunMore(policy, FRESH, AllSpelt(front), Spelt(last));
    }
  }

  lemma NothingRead(policy: Policy)
    ensures Run(policy, FRESH, []) == (FRESH, [])
  {
  }
}
