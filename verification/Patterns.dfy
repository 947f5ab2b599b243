/** What patterns mean, said of how they are written: the bytes of each part of one, and the texts it stands for. */
module Patterns {
  import opened Bytes
  import opened Glob

  /** A byte of a set, or the bytes from one to another, both in it. */
  datatype Item = Byte(b: byte) | Span(lo: byte, hi: byte)

  /** `*`, `?`, a byte by itself, or a set: negated by a `!` or, with `caret`, a `^`. */
  datatype Part = Star | Question | Alone(b: byte) | OneOf(items: seq<Item>) | NoneOf(caret: bool, items: seq<Item>)

  function Listed(items: seq<Item>): seq<byte> {
    if items == [] then []
    else (if items[0].Byte? then [items[0].b] else [items[0].lo, DASH, items[0].hi]) + Listed(items[1..])
  }

  function Spelled(part: Part): seq<byte> {
    match part
    case Star => [STAR]
    case Question => [QUESTION]
    case Alone(b) => [b]
    case OneOf(items) => [OPEN] + Listed(items) + [CLOSE]
    case NoneOf(caret, items) => [OPEN, if caret then CARET else BANG] + Listed(items) + [CLOSE]
  }

  function Pattern(parts: seq<Part>): seq<byte> {
    if parts == [] then [] else Spelled(parts[0]) + Pattern(parts[1..])
  }

  function FirstByte(item: Item): byte {
    if item.Byte? then item.b else item.lo
  }

  /** Items read as they are written: none begins with a `-`, and a `]` is there only as the very first byte. */
  predicate Items(items: seq<Item>) {
    items != [] && Undashed(items) && CLOSE !in Listed(items)[1..]
  }

  predicate Undashed(items: seq<Item>) {
    forall i :: 0 <= i < |items| ==> FirstByte(items[i]) != DASH
  }

  /** Parts that are read as they are written: a `[` is by itself where no `]` follows it. */
  predicate Written(parts: seq<Part>)
    decreases |parts|
  {
    parts != [] ==>
      && Written(parts[1..])
      && match parts[0]
         case Alone(b) => b != STAR && b != QUESTION && (b == OPEN ==> CLOSE !in Pattern(parts[1..]))
         case OneOf(items) => Items(items) && FirstByte(items[0]) != BANG && FirstByte(items[0]) != CARET
         case NoneOf(_, items) => Items(items)
         case _ => true
  }

  predicate Among(items: seq<Item>, c: byte) {
    exists i :: 0 <= i < |items| && if items[i].Byte? then c == items[i].b else items[i].lo <= c <= items[i].hi
  }

  /** Whether one byte is what the part stands for. A `/` is only itself. */
  predicate Stands(part: Part, c: byte) {
    match part
    case Star => false
    case Question => c != SLASH
    case Alone(b) => c == b
    case OneOf(items) => c != SLASH && Among(items, c)
    case NoneOf(_, items) => c != SLASH && !Among(items, c)
  }

  /** Whether the parts spell all of `text`: some of it with no `/` for a `*`, one byte for each other. */
  ghost predicate Spell(parts: seq<Part>, text: seq<byte>)
    decreases |parts|
  {
    if parts == [] then text == []
    else if parts[0].Star? then exists n :: 0 <= n <= |text| && SLASH !in text[..n] && Spell(parts[1..], text[n..])
    else text != [] && Stands(parts[0], text[0]) && Spell(parts[1..], text[1..])
  }

  // ---- sets ------------------------------------------------------------------------------------------------

  lemma {:induction false} ListedMember(items: seq<Item>, before: seq<byte>, c: byte)
    requires Undashed(items)
    ensures Member(before + Listed(items), |before|, c) <==> Among(items, c)
    decreases |items|
  {
    var text := before + Listed(items);
    if items != [] {
      var rest := items[1..];
      var on := before + Listed(items[..1]);
      assert items[..1][0] == items[0] && items[..1][1..] == [];
      assert Listed(items[..1]) + Listed(rest) == Listed(items) by { assert Listed(items[..1][1..]) == []; }
      assert text == on + Listed(rest);
      if rest != [] { assert Listed(rest)[0] == FirstByte(rest[0]) == FirstByte(items[1]); }
      forall i | 0 <= i < |rest| ensures FirstByte(rest[i]) != DASH { assert rest[i] == items[i + 1]; }
      ListedMember(rest, on, c);
      AmongMore(items, c);
      assert text[|before|] == FirstByte(items[0]);
    }
  }

  lemma AmongMore(items: seq<Item>, c: byte)
    requires items != []
    ensures Among(items, c) <==> Among(items[..1], c) || Among(items[1..], c)
  {
    if Among(items[1..], c) {
      var i :| 0 <= i < |items[1..]| && if items[1..][i].Byte? then c == items[1..][i].b else items[1..][i].lo <= c <= items[1..][i].hi;
      assert items[i + 1] == items[1..][i];
    }
    if i :| 0 <= i < |items| && if items[i].Byte? then c == items[i].b else items[i].lo <= c <= items[i].hi {
      if i > 0 { assert items[1..][i - 1] == items[i]; } else { assert items[..1][0] == items[0]; }
    }
    if Among(items[..1], c) { assert items[..1][0] == items[0]; }
  }

  // ---- tokens ----------------------------------------------------------------------------------------------

  function TokenOf(part: Part): Token {
    match part
    case Star => Run
    case Question => Any
    case Alone(b) => Lit(b)
    case OneOf(items) => Set(false, Listed(items))
    case NoneOf(_, items) => Set(true, Listed(items))
  }

  function TokensOf(parts: seq<Part>): Tokens {
    if parts == [] then End else Then(TokenOf(parts[0]), TokensOf(parts[1..]))
  }

  /** A set is read to its first `]` past its first byte. */
  lemma SetAt(pattern: seq<byte>, at: nat, negated: bool, from: nat, close: nat)
    requires at < from < close < |pattern| && pattern[at] == OPEN
    requires negated <==> pattern[at + 1] == BANG || pattern[at + 1] == CARET
    requires from == if negated then at + 2 else at + 1
    requires pattern[close] == CLOSE && forall i :: from < i < close ==> pattern[i] != CLOSE
    ensures TokenAt(pattern, at) == (Set(negated, pattern[from..close]), close + 1)
  {
    var tail := pattern[from + 1..];
    var k := close - from - 1;
    assert tail[k] == CLOSE;
    forall i | 0 <= i < k ensures tail[i] != CLOSE { assert tail[i] == pattern[from + 1 + i]; }
    assert IndexOf(tail, CLOSE) == k;
  }

  lemma SetRead(before: seq<byte>, negated: bool, sign: byte, items: seq<Item>, rest: seq<byte>)
    requires Items(items)
    requires if negated then sign == BANG || sign == CARET else FirstByte(items[0]) != BANG && FirstByte(items[0]) != CARET
    ensures var head := if negated then [OPEN, sign] else [OPEN];
            var pattern := before + (head + Listed(items) + [CLOSE]) + rest;
            TokenAt(pattern, |before|) == (Set(negated, Listed(items)), |before| + |head| + |Listed(items)| + 1)
  {
    hide TokenAt, Undashed;
    var head := if negated then [OPEN, sign] else [OPEN];
    var listed := Listed(items);
    var pattern := before + (head + listed + [CLOSE]) + rest;
    var from := |before| + |head|;
    var close := from + |listed|;
    assert listed[0] == FirstByte(items[0]);
    hide Listed;
    assert forall i :: 0 <= i < |listed| ==> pattern[from + i] == listed[i];
    forall i | from < i < close ensures pattern[i] != CLOSE { assert pattern[i] == listed[1..][i - from - 1]; }
    SetAt(pattern, |before|, negated, from, close);
    assert pattern[from..close] == listed;
  }

  lemma OpenAlone(before: seq<byte>, rest: seq<byte>)
    requires CLOSE !in rest
    ensures TokenAt(before + [OPEN] + rest, |before|) == (Lit(OPEN), |before| + 1)
  {
    var pattern := before + [OPEN] + rest;
    assert forall i :: |before| < i < |pattern| ==> pattern[i] == rest[i - |before| - 1];
  }

  lemma PartRead(before: seq<byte>, part: Part, rest: seq<byte>)
    requires (part.OneOf? || part.NoneOf?) ==> Items(part.items)
    requires part.OneOf? ==> FirstByte(part.items[0]) != BANG && FirstByte(part.items[0]) != CARET
    requires part.Alone? ==> part.b != STAR && part.b != QUESTION && (part.b == OPEN ==> CLOSE !in rest)
    ensures var pattern := before + Spelled(part) + rest;
            |before| < |pattern| && TokenAt(pattern, |before|) == (TokenOf(part), |before| + |Spelled(part)|)
  {
    hide TokenAt, Listed, Items, FirstByte;
    var pattern := before + Spelled(part) + rest;
    match part
    case OneOf(items) => SetRead(before, false, 0, items, rest);
    case NoneOf(caret, items) => SetRead(before, true, if caret then CARET else BANG, items, rest);
    case Alone(b) => if b == OPEN { OpenAlone(before, rest); } else { OneRead(pattern, |before|); }
    case _ => OneRead(pattern, |before|);
  }

  lemma OneRead(pattern: seq<byte>, at: nat)
    requires at < |pattern| && pattern[at] != OPEN
    ensures TokenAt(pattern, at) == (if pattern[at] == STAR then Run else if pattern[at] == QUESTION then Any else Lit(pattern[at]), at + 1)
  {
  }

  lemma {:induction false} PartsRead(before: seq<byte>, parts: seq<Part>)
    requires Written(parts)
    ensures TokensFrom(before + Pattern(parts), |before|) == TokensOf(parts)
    decreases |parts|
  {
    hide TokenAt, Spelled;
    var pattern := before + Pattern(parts);
    if parts != [] {
      PartRead(before, parts[0], Pattern(parts[1..]));
      var on := before + Spelled(parts[0]);
      assert pattern == on + Pattern(parts[1..]);
      PartsRead(on, parts[1..]);
    }
  }

  // ---- what they spell -------------------------------------------------------------------------------------

  lemma OneIs(part: Part, c: byte)
    requires (part.OneOf? || part.NoneOf?) ==> Undashed(part.items)
    ensures One(TokenOf(part), c) <==> Stands(part, c)
  {
    hide Member, Among, Listed;
    if part.OneOf? || part.NoneOf? {
      ListedMember(part.items, [], c);
      assert [] + Listed(part.items) == Listed(part.items);
    }
  }

  lemma StarIs(rest: Tokens, text: seq<byte>, at: nat)
    requires at <= |text|
    ensures RunSpells(rest, text, at) <==> exists n :: 0 <= n <= |text| - at && SLASH !in text[at..][..n] && Spells(rest, text, at + n)
  {
    hide Spells;
    if RunSpells(rest, text, at) {
      var end := RunTakes(rest, text, at);
      var n := end - at;
      assert forall i :: 0 <= i < n ==> text[at..][..n][i] == text[at + i];
      assert SLASH !in text[at..][..n] && Spells(rest, text, at + n);
    }
    if n :| 0 <= n <= |text| - at && SLASH !in text[at..][..n] && Spells(rest, text, at + n) {
      assert Clear(text, at, at + n) by {
        forall i | at <= i < at + n ensures text[i] != SLASH { assert text[at..][..n][i - at] == text[i]; }
      }
      assert RunSpells(rest, text, at + n);
      RunGrows(rest, text, at, at + n);
    }
  }

  lemma {:induction false} SpellsIs(parts: seq<Part>, text: seq<byte>, at: nat)
    requires Written(parts) && at <= |text|
    ensures Spells(TokensOf(parts), text, at) <==> Spell(parts, text[at..])
    decreases |parts|
  {
    hide One, Stands, TokenOf, RunSpells;
    if parts != [] {
      var rest := parts[1..];
      if parts[0].Star? {
        StarSpells(parts, text, at);
      } else {
        PartUndashed(parts);
        if at < |text| {
          OneIs(parts[0], text[at]);
          SpellsIs(rest, text, at + 1);
          assert text[at..][0] == text[at] && text[at..][1..] == text[at + 1..];
        }
        NoRun(parts[0]);
      }
    }
  }

  lemma NoRun(part: Part)
    requires !part.Star?
    ensures !TokenOf(part).Run?
  {
  }

  lemma PartUndashed(parts: seq<Part>)
    requires Written(parts) && parts != []
    ensures Written(parts[1..]) && (parts[0].OneOf? || parts[0].NoneOf? ==> Undashed(parts[0].items))
  {
  }

  lemma {:induction false} StarSpells(parts: seq<Part>, text: seq<byte>, at: nat)
    requires Written(parts) && parts != [] && parts[0].Star? && at <= |text|
    ensures Spells(TokensOf(parts), text, at) <==> Spell(parts, text[at..])
    decreases |parts|, 0
  {
    hide One, Stands, RunSpells;
    var rest := parts[1..];
    StarIs(TokensOf(rest), text, at);
    forall n | 0 <= n <= |text| - at ensures Spells(TokensOf(rest), text, at + n) <==> Spell(rest, text[at..][n..]) {
      SpellsIs(rest, text, at + n);
      assert text[at..][n..] == text[at + n..];
    }
  }

  /** A pattern means what its parts spell, the matcher's greed aside. */
  lemma MeansParts(parts: seq<Part>, text: seq<byte>)
    requires Written(parts)
    ensures Means(Pattern(parts), text) <==> Spell(parts, text)
  {
    hide Spell, Spells;
    var none: seq<byte> := [];
    PartsRead(none, parts);
    assert none + Pattern(parts) == Pattern(parts);
    MeansSpells(Pattern(parts), text);
    SpellsIs(parts, text, 0);
    assert text[0..] == text;
  }
}
