/** Characters as bytes, as RFC 3629 section 4 writes them, and what of them a stream may cut. */
module Utf8 {
  import opened Bytes

  /** A character: a Unicode scalar value. */
  type Scalar = c: int | 0 <= c < 0xD800 || 0xE000 <= c < 0x110000

  const REPLACEMENT: Scalar := 0xFFFD

  predicate Continues(b: byte) {
    0x80 <= b < 0xc0
  }

  function Encode(c: Scalar): (s: seq<byte>)
    ensures 1 <= |s| <= 4
  {
    if c < 0x80 then [c]
    else if c < 0x800 then [0xc0 + c / 0x40, 0x80 + c % 0x40]
    else if c < 0x10000 then [0xe0 + c / 0x1000, 0x80 + c / 0x40 % 0x40, 0x80 + c % 0x40]
    else [0xf0 + c / 0x40000, 0x80 + c / 0x1000 % 0x40, 0x80 + c / 0x40 % 0x40, 0x80 + c % 0x40]
  }

  function EncodeAll(cs: seq<Scalar>): seq<byte> {
    if cs == [] then [] else Encode(cs[0]) + EncodeAll(cs[1..])
  }

  function ByteAt(s: seq<byte>, at: nat): byte {
    if at < |s| then s[at] else 0
  }

  /** Whether `second` may follow `first`, the first of three bytes or four. */
  predicate Follows(first: byte, second: byte) {
    if first == 0xe0 then 0xa0 <= second < 0xc0
    else if first == 0xed then 0x80 <= second < 0xa0
    else if first == 0xf0 then 0x90 <= second < 0xc0
    else if first == 0xf4 then 0x80 <= second < 0x90
    else Continues(second)
  }

  /** The character `s` begins with and its length, or how many bytes begin none. */
  function First(s: seq<byte>): (r: (Option<Scalar>, nat))
    requires s != []
    ensures 1 <= r.1 <= |s|
  {
    var a: int, b: int, c: int, d: int := s[0], ByteAt(s, 1), ByteAt(s, 2), ByteAt(s, 3);
    if a < 0x80 then (Some(a), 1)
    else if 0xc2 <= a < 0xe0 then
      if Continues(b) then (Some((a - 0xc0) * 0x40 + (b - 0x80)), 2) else (None, 1)
    else if 0xe0 <= a < 0xf0 then
      if !Follows(a, b) then (None, 1)
      else if !Continues(c) then (None, 2)
      else (Some((a - 0xe0) * 0x1000 + (b - 0x80) * 0x40 + (c - 0x80)), 3)
    else if 0xf0 <= a < 0xf5 then
      if !Follows(a, b) then (None, 1)
      else if !Continues(c) then (None, 2)
      else if !Continues(d) then (None, 3)
      else (Some((a - 0xf0) * 0x40000 + (b - 0x80) * 0x1000 + (c - 0x80) * 0x40 + (d - 0x80)), 4)
    else (None, 1)
  }

  /** The characters of `s`, each stretch that is none replaced. */
  function Lossy(s: seq<byte>): seq<Scalar>
    decreases |s|
  {
    if s == [] then []
    else var (c, n) := First(s); [if c.Some? then c.value else REPLACEMENT] + Lossy(s[n..])
  }

  lemma FirstEncoded(c: Scalar, rest: seq<byte>)
    ensures First(Encode(c) + rest) == (Some(c), |Encode(c)|)
  {
    var s := Encode(c) + rest;
    assert forall i :: 0 <= i < |Encode(c)| ==> s[i] == Encode(c)[i];
    Digits(c);
  }

  lemma Digits(c: Scalar)
    ensures c == c / 0x40 * 0x40 + c % 0x40
    ensures c / 0x40 == c / 0x1000 * 0x40 + c / 0x40 % 0x40
    ensures c / 0x1000 == c / 0x40000 * 0x40 + c / 0x1000 % 0x40
  {
    assert c / 0x40 / 0x40 == c / 0x1000;
    assert c / 0x1000 / 0x40 == c / 0x40000;
  }

  /** What was written is read as it was. */
  lemma {:induction false} LossyEncoded(cs: seq<Scalar>)
    ensures Lossy(EncodeAll(cs)) == cs
  {
    if cs != [] {
      var rest := EncodeAll(cs[1..]);
      FirstEncoded(cs[0], rest);
      assert (Encode(cs[0]) + rest)[|Encode(cs[0])|..] == rest;
      LossyEncoded(cs[1..]);
    }
  }

  // ---- what is no character ----------------------------------------------------------------------------------

  /** Some character begins with `s`, or is it. */
  ghost predicate Begins(s: seq<byte>) {
    exists c: Scalar :: s <= Encode(c)
  }

  lemma EncodedBytes(c: Scalar)
    ensures var e := Encode(c);
            && (|e| == 1 <==> e[0] < 0x80) && (|e| == 2 ==> 0xc2 <= e[0] < 0xe0) && (|e| == 3 ==> 0xe0 <= e[0] < 0xf0)
            && (|e| == 4 ==> 0xf0 <= e[0] < 0xf5)
            && (|e| == 2 ==> Continues(e[1])) && (|e| > 2 ==> Follows(e[0], e[1]))
            && forall i :: 2 <= i < |e| ==> Continues(e[i])
  {
    Digits(c);
  }

  lemma Combined(w: nat, x: nat, y: nat, z: nat)
    requires x < 0x40 && y < 0x40 && z < 0x40
    ensures var c := w * 0x40000 + x * 0x1000 + y * 0x40 + z;
            && c / 0x40000 == w && c / 0x1000 % 0x40 == x && c / 0x40 % 0x40 == y && c % 0x40 == z
            && c / 0x1000 == w * 0x40 + x && c / 0x40 == w * 0x1000 + x * 0x40 + y
  {
    var c := w * 0x40000 + x * 0x1000 + y * 0x40 + z;
    assert c / 0x40 == w * 0x1000 + x * 0x40 + y;
    assert c / 0x1000 == w * 0x40 + x;
  }

  lemma FirstIsEncoded(s: seq<byte>)
    requires s != [] && First(s).0.Some?
    ensures s[..First(s).1] == Encode(First(s).0.value)
  {
    var (c, n) := First(s);
    if n == 2 {
      Combined(0, 0, s[0] as int - 0xc0, s[1] as int - 0x80);
    } else if n == 3 {
      ThreeEncoded(s[0], s[1], s[2]);
    } else if n == 4 {
      FourEncoded(s[0], s[1], s[2], s[3]);
    }
  }

  lemma ThreeEncoded(a: byte, b: byte, c: byte)
    requires 0xe0 <= a < 0xf0 && Follows(a, b) && Continues(c)
    ensures var d: int := (a - 0xe0) * 0x1000 + (b - 0x80) * 0x40 + (c - 0x80);
            (0x800 <= d < 0xD800 || 0xE000 <= d < 0x10000) && Encode(d) == [a, b, c]
  {
    Combined(0, a - 0xe0, b - 0x80, c - 0x80);
  }

  lemma FourEncoded(a: byte, b: byte, c: byte, d: byte)
    requires 0xf0 <= a < 0xf5 && Follows(a, b) && Continues(c) && Continues(d)
    ensures var e: int := (a - 0xf0) * 0x40000 + (b - 0x80) * 0x1000 + (c - 0x80) * 0x40 + (d - 0x80);
            0x10000 <= e < 0x110000 && Encode(e) == [a, b, c, d]
  {
    Combined(a - 0xf0, b - 0x80, c - 0x80, d - 0x80);
  }

  /** Two bytes of a character of three or four, or three of one of four, are all that some character begins with. */
  lemma SomeBegins(s: seq<byte>)
    requires s != [] && First(s).0.None? && First(s).1 > 1
    ensures Begins(s[..First(s).1])
  {
    var a: int, b: int, n := s[0], s[1], First(s).1;
    if a < 0xf0 {
      ThreeEncoded(a, b, 0x80);
      var c: Scalar := (a - 0xe0) * 0x1000 + (b - 0x80) * 0x40 + 0;
      assert s[..n] <= Encode(c);
    } else {
      var t: int := if n == 2 then 0x80 else s[2];
      FourEncoded(a, b, t, 0x80);
      var c: Scalar := (a - 0xf0) * 0x40000 + (b - 0x80) * 0x1000 + (t - 0x80) * 0x40 + 0;
      assert s[..n] <= Encode(c);
    }
  }

  /** What is replaced at once is the most that some character begins with, or one byte; and no character is there. */
  lemma FirstIsMaximal(s: seq<byte>)
    requires s != []
    ensures var (c, n) := First(s);
            if c.Some? then s[..n] == Encode(c.value)
            else (n > 1 ==> Begins(s[..n])) && forall k :: n < k <= |s| ==> !Begins(s[..k])
  {
    var (c, n) := First(s);
    if c.Some? {
      FirstIsEncoded(s);
    } else {
      if n > 1 { SomeBegins(s); }
      forall k, d: Scalar | n < k <= |s| ensures !(s[..k] <= Encode(d)) {
        EncodedBytes(d);
      }
    }
  }

  // ---- a character cut short ---------------------------------------------------------------------------------

  /** How many bytes the character that `b` begins has: none if it begins none of several. */
  function Needs(b: byte): nat {
    if 0xc2 <= b < 0xe0 then 2 else if 0xe0 <= b < 0xf0 then 3 else if 0xf0 <= b < 0xf5 then 4 else 0
  }

  /** Whether the last `n` bytes begin a character whose end has not come. */
  predicate CutAt(bytes: seq<byte>, n: nat) {
    && 0 < n <= |bytes| && n < Needs(bytes[|bytes| - n])
    && forall i :: |bytes| - n < i < |bytes| ==> Continues(bytes[i])
  }

  /** How many bytes at the end begin a character whose end has not come. */
  function Incomplete(bytes: seq<byte>): (n: nat)
    ensures n <= 3 && n <= |bytes|
  {
    if CutAt(bytes, 1) then 1 else if CutAt(bytes, 2) then 2 else if CutAt(bytes, 3) then 3 else 0
  }

  lemma OneCut(bytes: seq<byte>, n: nat)
    requires CutAt(bytes, n)
    ensures Incomplete(bytes) == n
  {
  }

  /** The same, found by looking back from the end. */
  method IncompleteUtf8(bytes: seq<byte>) returns (n: nat)
    ensures n == Incomplete(bytes)
  {
    var back: nat := 1;
    while back <= 3 && back <= |bytes|
      invariant 1 <= back <= |bytes| + 1 && forall i :: |bytes| - back < i < |bytes| ==> Continues(bytes[i])
      invariant forall m: nat :: m < back ==> !CutAt(bytes, m)
    {
      var b := bytes[|bytes| - back];
      if !Continues(b) {
        NoneBehind(bytes, back);
        if back < Needs(b) { return back; }
        return 0;
      }
      back := back + 1;
    }
    return 0;
  }

  /** A character begins at the last byte that does not go on with one. */
  lemma NoneBehind(bytes: seq<byte>, back: nat)
    requires 0 < back <= |bytes| && !Continues(bytes[|bytes| - back])
    ensures forall m: nat :: m > back ==> !CutAt(bytes, m)
  {
  }

  /** What comes before whole characters, or before a byte that goes on with none, does not matter. */
  lemma CutAfter(before: seq<byte>, after: seq<byte>)
    requires Incomplete(before) == 0 || (after != [] && !Continues(after[0]))
    ensures Incomplete(before + after) == Incomplete(after)
  {
    var all := before + after;
    forall n: nat | 1 <= n <= 3 ensures CutAt(all, n) <==> CutAt(after, n) {
      CutAfterAt(before, after, n);
    }
  }

  lemma CutAfterAt(before: seq<byte>, after: seq<byte>, n: nat)
    requires (Incomplete(before) == 0 || (after != [] && !Continues(after[0]))) && 1 <= n <= 3
    ensures CutAt(before + after, n) <==> CutAt(after, n)
  {
    var all := before + after;
    assert forall i :: 0 <= i < |after| ==> all[|before| + i] == after[i];
    CutBefore(before, after, n);
  }

  /** A character cut before `after` is cut in `before`, and all of `after` goes on with it. */
  lemma CutBefore(before: seq<byte>, after: seq<byte>, n: nat)
    ensures n > |after| && CutAt(before + after, n) ==> CutAt(before, n - |after|) && (after != [] ==> Continues(after[0]))
  {
    var all := before + after;
    assert forall i :: 0 <= i < |before| ==> all[i] == before[i];
    assert after != [] ==> all[|before|] == after[0];
  }

  lemma {:induction false} WholeNotCut(cs: seq<Scalar>)
    ensures Incomplete(EncodeAll(cs)) == 0
    decreases |cs|
  {
    if cs != [] {
      var e, rest := Encode(cs[0]), EncodeAll(cs[1..]);
      WholeNotCut(cs[1..]);
      EncodedBytes(cs[0]);
      OneNotCut(cs[0]);
      CutAfter(e, rest);
    }
  }

  lemma OneNotCut(c: Scalar)
    ensures Incomplete(Encode(c)) == 0
  {
    EncodedBytes(c);
  }

  /** Of text cut anywhere, what waits is the bytes of the character cut, and nothing of those before it. */
  lemma CutFound(cs: seq<Scalar>, c: Scalar, n: nat)
    requires n < |Encode(c)|
    ensures Incomplete(EncodeAll(cs) + Encode(c)[..n]) == n
  {
    WholeNotCut(cs);
    CutAfter(EncodeAll(cs), Encode(c)[..n]);
    EncodedBytes(c);
    if n > 0 { OneCut(Encode(c)[..n], n); }
  }
}
