/** What becomes of a whole escape sequence: whether it asks the terminal something, is a mark, a
    title, a link or the clipboard. */
module Judge {
  import opened Bytes
  import opened Utf8

  const ESC: byte := 0x1b
  const BEL: byte := 0x07
  const CAN: byte := 0x18
  const SUB: byte := 0x1a
  const ENQ: byte := 0x05
  const SEMICOLON: byte := 0x3b
  const COLON: byte := 0x3a
  const BACKSLASH: byte := 0x5c

  const MAX_CSI := 256
  const MAX_STRING := 0x10_0000
  const MAX_OUT := 16384
  const MAX_MARK := 256
  const MAX_CLIPBOARD := 16384
  const MAX_TITLE := 256

  datatype Marks = DropMarks | AllMarks | Signed(nonce: seq<byte>)

  datatype Policy = Policy(marks: Marks, clipboard: bool, links: bool)

  datatype Judged = Pass | Drop | Instead(bytes: seq<byte>) | MarkOf(mark: seq<byte>)

  /** `s` between the bytes `sep`. */
  function Split(s: seq<byte>, sep: byte): (fields: seq<seq<byte>>)
    ensures fields != []
    decreases |s|
  {
    var at := IndexOf(s, sep);
    if at == |s| then [s] else [s[..at]] + Split(s[at + 1..], sep)
  }

  function Join(fields: seq<seq<byte>>, sep: byte): seq<byte> {
    if fields == [] then [] else if |fields| == 1 then fields[0] else fields[0] + [sep] + Join(fields[1..], sep)
  }

  predicate Digit(b: byte) {
    0x30 <= b < 0x3a
  }

  /** The number a field of digits says, below 2^32. */
  function Number(s: seq<byte>): Option<nat> {
    if s == [] then None
    else if |s| == 1 then if Digit(s[0]) then Some(s[0] - 0x30) else None
    else
      var front := Number(s[..|s| - 1]);
      if front.None? || !Digit(s[|s| - 1]) || front.value * 10 + (s[|s| - 1] - 0x30) > 0xffff_ffff then None
      else Some(front.value * 10 + (s[|s| - 1] - 0x30))
  }

  /** Where the first byte from 0x20 to 0x2f is, or the length. */
  function IntermediatesAt(s: seq<byte>): (at: nat)
    ensures at <= |s|
  {
    if s == [] || 0x20 <= s[0] < 0x30 then 0 else 1 + IntermediatesAt(s[1..])
  }

  const WINDOW_REPORTS: set<nat> := {11, 13, 14, 15, 16, 18, 19, 20, 21}

  /** A control sequence's private byte, parameters, intermediates and final byte, `body` after its `ESC [`. */
  function CsiParts(body: seq<byte>): (Option<byte>, seq<byte>, seq<byte>, byte)
    requires body != []
  {
    var last, inner := body[|body| - 1], body[..|body| - 1];
    var private := if inner != [] && 0x3c <= inner[0] <= 0x3f then Some(inner[0]) else None;
    var rest := if private.Some? then inner[1..] else inner;
    var at := IntermediatesAt(rest);
    (private, rest[..at], rest[at..], last)
  }

  /** Whether a control sequence, `body` after its `ESC [`, asks the terminal something. */
  predicate CsiAsks(body: seq<byte>) {
    body != [] &&
    var (private, params, intermediates, last) := CsiParts(body);
    var first := Number(Split(Split(params, SEMICOLON)[0], COLON)[0]);
    || (intermediates == [] && last == 0x63 && (private == None || private == Some(0x3e) || private == Some(0x3d)))
    || (intermediates == [] && last == 0x6e && (private == None || private == Some(0x3f)))
    || (intermediates == [0x24] && last == 0x70 && (private == None || private == Some(0x3f)))
    || (intermediates == [] && last == 0x71 && private == Some(0x3e))
    || (intermediates == [] && (last == 0x75 || last == 0x53) && private == Some(0x3f))
    || (intermediates == [] && last == 0x78 && private == None)
    || (intermediates == [0x27] && last == 0x7c && private == None)
    || (intermediates == [] && last == 0x74 && private == None && first.Some? && first.value in WINDOW_REPORTS)
  }

  /** What follows the digits and `;`s `s` begins with. */
  function AfterParams(s: seq<byte>): seq<byte> {
    if s == [] || !(Digit(s[0]) || s[0] == SEMICOLON) then s else AfterParams(s[1..])
  }

  /** Whether a device control string, `body` after its `ESC P`, asks the terminal something. */
  predicate DcsAsks(body: seq<byte>) {
    var head := AfterParams(body);
    |head| >= 2 && (head[0] == 0x24 || head[0] == 0x2b) && head[1] == 0x71
  }

  predicate Alphanumeric(b: byte) {
    Digit(b) || 0x41 <= b <= 0x5a || 0x61 <= b <= 0x7a
  }

  /** Whether `text` is base64, and not empty. */
  predicate Base64(text: seq<byte>) {
    text != [] && forall i :: 0 <= i < |text| ==> Alphanumeric(text[i]) || text[i] in {0x2b, 0x2f, 0x3d}
  }

  const NONCE: seq<byte> := [0x6e, 0x6f, 0x6e, 0x63, 0x65, 0x3d]     // `nonce=`

  function NonceIn(fields: seq<seq<byte>>): Option<seq<byte>> {
    if fields == [] then None
    else if NONCE <= fields[0] then Some(fields[0][|NONCE|..])
    else NonceIn(fields[1..])
  }

  function WithoutNonce(fields: seq<seq<byte>>): seq<seq<byte>> {
    if fields == [] then []
    else if NONCE <= fields[0] then WithoutNonce(fields[1..])
    else [fields[0]] + WithoutNonce(fields[1..])
  }

  predicate Printable(data: seq<byte>) {
    forall i :: 0 <= i < |data| ==> 0x20 <= data[i] < 0x7f
  }

  /** The mark that `data`, after `133;`, relays, its nonce removed: none if it is not relayed. */
  function Mark(data: seq<byte>, marks: Marks): Option<seq<byte>> {
    if data == [] || |data| > MAX_MARK || !Printable(data) then None
    else
      var nonce := NonceIn(Split(data, SEMICOLON));
      var relayed := marks.AllMarks? || (marks.Signed? && nonce == Some(marks.nonce));
      // A state report is the server's to make.
      if !relayed || data[0] == 0x53 then None
      else Some(Join(WithoutNonce(Split(data, SEMICOLON)), SEMICOLON))
  }

  predicate Control(c: Scalar) {
    c < 0x20 || 0x7f <= c < 0xa0
  }

  function Uncontrolled(cs: seq<Scalar>): (r: seq<Scalar>)
    ensures forall i :: 0 <= i < |r| ==> !Control(r[i])
  {
    if cs == [] then [] else if Control(cs[0]) then Uncontrolled(cs[1..]) else [cs[0]] + Uncontrolled(cs[1..])
  }

  /** A title as it passes: cut to its bound, with no control in it. */
  function Title(data: seq<byte>): (cs: seq<Scalar>)
    ensures |cs| <= MAX_TITLE && forall i :: 0 <= i < |cs| ==> !Control(cs[i])
  {
    var all := Uncontrolled(Lossy(data));
    if |all| > MAX_TITLE then all[..MAX_TITLE] else all
  }

  function TitleSeq(number: byte, title: seq<Scalar>): seq<byte> {
    [ESC, 0x5d, number, SEMICOLON] + EncodeAll(title) + [BEL]
  }

  /** An OSC's bytes between its introducer and its terminator. */
  function OscBody(seq_: seq<byte>): seq<byte>
    requires |seq_| >= 2
  {
    var body := seq_[2..];
    if body != [] && body[|body| - 1] == BEL then body[..|body| - 1]
    else if |body| >= 2 && body[|body| - 2] == ESC && body[|body| - 1] == BACKSLASH then body[..|body| - 2]
    else body
  }

  const ASKABLE: set<seq<byte>> :=
    {[0x34], [0x31, 0x30], [0x31, 0x31], [0x31, 0x32], [0x31, 0x33], [0x31, 0x34], [0x31, 0x35], [0x31, 0x36],
     [0x31, 0x37], [0x31, 0x38], [0x31, 0x39]}

  /** What the OSC `number` comes to, `data` after its first `;`. */
  function OscOf(number: seq<byte>, data: seq<byte>, policy: Policy): Judged {
    var fields := Split(data, SEMICOLON);
    if number == [0x31, 0x33, 0x33] then
      var mark := Mark(data, policy.marks);
      if mark.Some? then MarkOf(mark.value) else Drop
    else if number == [0x35, 0x32] then
      var written := if |fields| > 1 then fields[1] else [];
      if policy.clipboard && |written| <= MAX_CLIPBOARD && Base64(written) then Pass else Drop
    else if number == [0x30] || number == [0x31] || number == [0x32] then Instead(TitleSeq(number[0], Title(data)))
    else if number == [0x38] && !policy.links then Drop
    else if number in ASKABLE && [0x3f] in fields then Drop
    else Pass
  }

  function Osc(seq_: seq<byte>, policy: Policy): Judged
    requires |seq_| >= 2
  {
    var body := OscBody(seq_);
    var at := IndexOf(body, SEMICOLON);
    OscOf(body[..at], if at < |body| then body[at + 1..] else [], policy)
  }

  /** What `seq_`, a whole sequence from its ESC, comes to under `policy`. */
  function JudgeSeq(seq_: seq<byte>, policy: Policy): Judged {
    if |seq_| < 2 then Pass
    else if seq_[1] == 0x5b then if CsiAsks(seq_[2..]) then Drop else Pass
    else if seq_[1] == 0x5d then Osc(seq_, policy)
    else if seq_[1] == 0x50 then if DcsAsks(seq_[2..]) then Drop else Pass
    else if seq_[1] == 0x5a && |seq_| == 2 then Drop
    else Pass
  }

  // ---- titles are fixed points ---------------------------------------------------------------------------------

  lemma {:induction false} NoneControlled(cs: seq<Scalar>)
    requires forall i :: 0 <= i < |cs| ==> !Control(cs[i])
    ensures Uncontrolled(cs) == cs
  {
    if cs != [] { NoneControlled(cs[1..]); }
  }

  /** A byte of a title is no control. */
  predicate Quiet(b: byte) {
    b >= 0x20 && b != 0x7f
  }

  lemma {:induction false} TitleQuiet(cs: seq<Scalar>)
    requires forall i :: 0 <= i < |cs| ==> !Control(cs[i])
    ensures forall i :: 0 <= i < |EncodeAll(cs)| ==> Quiet(EncodeAll(cs)[i])
    ensures |EncodeAll(cs)| <= 4 * |cs|
  {
    if cs != [] { TitleQuiet(cs[1..]); }
  }

  lemma FirstSemicolon(number: byte, rest: seq<byte>)
    requires number != SEMICOLON
    ensures IndexOf([number, SEMICOLON] + rest, SEMICOLON) == 1
  {
    var s := [number, SEMICOLON] + rest;
    assert s[1..][0] == SEMICOLON;
  }

  lemma TitleBody(number: byte, text: seq<byte>)
    requires number != SEMICOLON
    ensures OscBody([ESC, 0x5d, number, SEMICOLON] + text + [BEL]) == [number, SEMICOLON] + text
    ensures var body := [number, SEMICOLON] + text;
            IndexOf(body, SEMICOLON) == 1 && body[..1] == [number] && body[2..] == text
  {
    var s := [ESC, 0x5d, number, SEMICOLON] + text + [BEL];
    assert s[2..] == [number, SEMICOLON] + text + [BEL];
    assert s[2..][..|s| - 3] == [number, SEMICOLON] + text;
    FirstSemicolon(number, text);
  }

  /** A title rewritten is rewritten to itself. */
  lemma TitleFixed(number: byte, title: seq<Scalar>, policy: Policy)
    requires number in {0x30, 0x31, 0x32} && |title| <= MAX_TITLE && forall i :: 0 <= i < |title| ==> !Control(title[i])
    ensures JudgeSeq(TitleSeq(number, title), policy) == Instead(TitleSeq(number, title))
  {
    hide Split, Mark, Base64, OscBody, IndexOf, EncodeAll, Lossy, Uncontrolled, CsiAsks, DcsAsks;
    TitleBody(number, EncodeAll(title));
    LossyEncoded(title);
    NoneControlled(title);
  }

  /** What a sequence is rewritten to is a title. */
  lemma InsteadIs(seq_: seq<byte>, policy: Policy)
    requires JudgeSeq(seq_, policy).Instead?
    ensures exists number, title ::
              && number in {0x30, 0x31, 0x32} && |title| <= MAX_TITLE && (forall i :: 0 <= i < |title| ==> !Control(title[i]))
              && JudgeSeq(seq_, policy).bytes == TitleSeq(number, title)
  {
    var body := OscBody(seq_);
    var at := IndexOf(body, SEMICOLON);
    var number, data := body[..at], if at < |body| then body[at + 1..] else [];
    assert JudgeSeq(seq_, policy).bytes == TitleSeq(number[0], Title(data));
  }
}
