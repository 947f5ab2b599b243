/** `koh cp --exclude`'s patterns: the greedy matcher, and what it means. */
module Glob {
  import opened Bytes

  const STAR: byte := 0x2a
  const QUESTION: byte := 0x3f
  const OPEN: byte := 0x5b
  const CLOSE: byte := 0x5d
  const BANG: byte := 0x21
  const CARET: byte := 0x5e
  const DASH: byte := 0x2d

  // ---- what a pattern says -----------------------------------------------------------------------

  datatype Token =
    | Run                                           // `*`
    | Any                                           // `?`
    | Lit(c: byte)
    | Set(negated: bool, text: seq<byte>)           // `[...]`

  datatype Tokens = End | Then(first: Token, rest: Tokens)

  /** Whether `c` is in the set `text` lists from `at` on: spans `lo-hi`, both ends in them, and
      bytes by themselves. */
  predicate Member(text: seq<byte>, at: nat, c: byte)
    decreases |text| - at
  {
    if at >= |text| then false
    else if at + 2 < |text| && text[at + 1] == DASH then text[at] <= c <= text[at + 2] || Member(text, at + 3, c)
    else text[at] == c || Member(text, at + 1, c)
  }

  /** Whether a token that is no run stands for `c`. */
  predicate One(token: Token, c: byte) {
    match token
    case Run => false
    case Any => c != SLASH
    case Lit(b) => c == b
    case Set(negated, text) => Member(text, 0, c) != negated && c != SLASH
  }

  /** The token that begins at `at`, and where the next one does. A `[` with no `]` is itself. */
  function TokenAt(pattern: seq<byte>, at: nat): (r: (Token, nat))
    requires at < |pattern|
    ensures at < r.1 <= |pattern|
  {
    if pattern[at] == STAR then (Run, at + 1)
    else if pattern[at] == QUESTION then (Any, at + 1)
    else if pattern[at] != OPEN then (Lit(pattern[at]), at + 1)
    else
      var negated := at + 1 < |pattern| && (pattern[at + 1] == BANG || pattern[at + 1] == CARET);
      var from := if negated then at + 2 else at + 1;
      if from >= |pattern| then (Lit(OPEN), at + 1)
      else
        // A `]` first is one of the set.
        var close := from + 1 + IndexOf(pattern[from + 1..], CLOSE);
        if close >= |pattern| then (Lit(OPEN), at + 1)
        else (Set(negated, pattern[from..close]), close + 1)
  }

  function TokensFrom(pattern: seq<byte>, at: nat): Tokens
    requires at <= |pattern|
    decreases |pattern| - at
  {
    if at == |pattern| then End
    else var (token, next) := TokenAt(pattern, at); Then(token, TokensFrom(pattern, next))
  }

  /** Whether `run` is what `token` may stand for: any text without a `/` for a run, one byte for
      the rest. */
  predicate Fits(token: Token, run: seq<byte>) {
    if token.Run? then SlashFree(run) else |run| == 1 && One(token, run[0])
  }

  /** Whether `runs` gives each token what it may stand for. */
  predicate Assigns(tokens: Tokens, runs: seq<seq<byte>>) {
    match tokens
    case End => runs == []
    case Then(first, rest) => runs != [] && Fits(first, runs[0]) && Assigns(rest, runs[1..])
  }

  function Joined(runs: seq<seq<byte>>): seq<byte> {
    if runs == [] then [] else runs[0] + Joined(runs[1..])
  }

  /** What a pattern means: some text for each of its tokens spells all of `text`. */
  ghost predicate Means(pattern: seq<byte>, text: seq<byte>) {
    exists runs :: Assigns(TokensFrom(pattern, 0), runs) && Joined(runs) == text
  }

  /** The same, one byte at a time, from `at` on. */
  predicate Spells(tokens: Tokens, text: seq<byte>, at: nat)
    requires at <= |text|
    decreases tokens, |text| - at, 0
  {
    match tokens
    case End => at == |text|
    case Then(first, rest) =>
      if first.Run? then RunSpells(rest, text, at)
      else at < |text| && One(first, text[at]) && Spells(rest, text, at + 1)
  }

  /** A run followed by `rest` spells the text from `at`. */
  predicate RunSpells(rest: Tokens, text: seq<byte>, at: nat)
    requires at <= |text|
    decreases rest, |text| - at, 1
  {
    Spells(rest, text, at) || (at < |text| && text[at] != SLASH && RunSpells(rest, text, at + 1))
  }

  lemma {:induction false} AssignedSpells(tokens: Tokens, runs: seq<seq<byte>>, text: seq<byte>, at: nat)
    requires at <= |text| && Assigns(tokens, runs) && Joined(runs) == text[at..]
    ensures Spells(tokens, text, at)
    decreases tokens
  {
    if tokens.Then? {
      var end := at + |runs[0]|;
      assert text[at..] == runs[0] + Joined(runs[1..]);
      assert text[end..] == Joined(runs[1..]);
      AssignedSpells(tokens.rest, runs[1..], text, end);
      if tokens.first.Run? {
        assert Clear(text, at, end) by {
          forall i | at <= i < end ensures text[i] != SLASH { assert text[i] == text[at..][i - at]; }
        }
        RunGrows(tokens.rest, text, at, end);
      } else {
        assert text[at] == text[at..][0];
      }
    }
  }

  lemma {:induction false} SpellsAssigned(tokens: Tokens, text: seq<byte>, at: nat) returns (runs: seq<seq<byte>>)
    requires at <= |text| && Spells(tokens, text, at)
    ensures Assigns(tokens, runs) && Joined(runs) == text[at..]
    decreases tokens
  {
    if tokens.End? {
      runs := [];
    } else {
      var end := at + 1;
      if tokens.first.Run? {
        end := RunTakes(tokens.rest, text, at);
      }
      var more := SpellsAssigned(tokens.rest, text, end);
      runs := [text[at..end]] + more;
      assert runs[1..] == more;
      assert text[at..] == text[at..end] + text[end..];
    }
  }

  lemma MeansSpells(pattern: seq<byte>, text: seq<byte>)
    ensures Means(pattern, text) <==> Spells(TokensFrom(pattern, 0), text, 0)
  {
    var tokens := TokensFrom(pattern, 0);
    assert text[0..] == text;
    if Spells(tokens, text, 0) {
      var runs := SpellsAssigned(tokens, text, 0);
    }
    forall runs | Assigns(tokens, runs) && Joined(runs) == text ensures Spells(tokens, text, 0) {
      AssignedSpells(tokens, runs, text, 0);
    }
  }

  // ---- why backtracking to the last star is enough -----------------------------------------------

  /** No `/` in `text` from `from` up to `to`. */
  predicate Clear(text: seq<byte>, from: nat, end: nat)
    requires end <= |text|
  {
    forall i :: from <= i < end ==> text[i] != SLASH
  }

  /** A run that spells the text from `at` takes what is before `to`, and the rest spells the rest. */
  lemma {:induction false} RunTakes(rest: Tokens, text: seq<byte>, at: nat) returns (end: nat)
    requires at <= |text| && RunSpells(rest, text, at)
    ensures at <= end <= |text| && Clear(text, at, end) && Spells(rest, text, end)
    decreases |text| - at
  {
    if Spells(rest, text, at) { end := at; } else { end := RunTakes(rest, text, at + 1); }
  }

  lemma {:induction false} RunGrows(rest: Tokens, text: seq<byte>, at: nat, end: nat)
    requires at <= end <= |text| && Clear(text, at, end) && RunSpells(rest, text, end)
    ensures RunSpells(rest, text, at)
    decreases |text| - at
  {
    if at < end { RunGrows(rest, text, at + 1, end); }
  }

  /** The tokens before `rest`, none a run, stand for the text from `from` to `to`, a byte each. */
  predicate Walks(tokens: Tokens, rest: Tokens, text: seq<byte>, from: nat, end: nat)
    requires from <= end <= |text|
    decreases end - from
  {
    if from == end then tokens == rest
    else tokens.Then? && One(tokens.first, text[from]) && Walks(tokens.rest, rest, text, from + 1, end)
  }

  lemma {:induction false} WalksOn(tokens: Tokens, rest: Tokens, text: seq<byte>, from: nat, end: nat)
    requires from <= end < |text| && Walks(tokens, rest, text, from, end)
    requires rest.Then? && One(rest.first, text[end])
    ensures Walks(tokens, rest.rest, text, from, end + 1)
    decreases end - from
  {
    if from < end { WalksOn(tokens.rest, rest, text, from + 1, end); }
  }

  /** Tokens that stood for the text from `from` to `to` and spell it from `later` on, too, stand
      there for as much: where no `/` is between the two places, there is none up to the end of the
      second, as both hold a `/` at the same tokens. */
  lemma {:induction false} WalksAgain(tokens: Tokens, rest: Tokens, text: seq<byte>, from: nat, end: nat, later: nat)
    requires from <= end <= |text| && from < later <= |text|
    requires Walks(tokens, rest, text, from, end) && Spells(tokens, text, later)
    requires Clear(text, from, later)
    ensures later + (end - from) <= |text|
    ensures Spells(rest, text, later + (end - from))
    ensures Clear(text, from, later + (end - from))
    decreases end - from
  {
    if from < end {
      assert One(tokens.first, text[from]) && One(tokens.first, text[later]);
      WalksAgain(tokens.rest, rest, text, from + 1, end, later + 1);
    }
  }

  /** The last run, at `from` in the text, could take more. */
  predicate MoreRun(after: Tokens, text: seq<byte>, from: nat) {
    from < |text| && text[from] != SLASH && RunSpells(after, text, from + 1)
  }

  /** Once a later run is reached, an earlier one taking more spells nothing the later one cannot:
      if a `/` is matched between them its place is forced, and if not, the later run takes what
      the earlier one would. */
  lemma LaterRunSuffices(tokens: Tokens, later: Tokens, text: seq<byte>, from: nat, end: nat)
    requires from <= end <= |text| && Walks(tokens, later, text, from, end)
    requires later.Then? && later.first.Run?
    requires MoreRun(tokens, text, from)
    ensures Spells(later, text, end)
  {
    var again := RunTakes(tokens, text, from + 1);
    WalksAgain(tokens, later, text, from, end, again);
    RunGrows(later.rest, text, end, again + (end - from));
  }

  // ---- the matcher -------------------------------------------------------------------------------

  /** Whether the set `text` holds `c`. */
  method Holds(text: seq<byte>, c: byte) returns (hit: bool)
    ensures hit == Member(text, 0, c)
  {
    hit := false;
    var i: nat := 0;
    while i < |text|
      invariant i <= |text|
      invariant Member(text, 0, c) <==> hit || Member(text, i, c)
    {
      if i + 2 < |text| && text[i + 1] == DASH {
        hit := hit || text[i] <= c <= text[i + 2];
        i := i + 3;
      } else {
        hit := hit || text[i] == c;
        i := i + 1;
      }
    }
  }

  /** Whether the class at `pattern[at]` (a `[`) matches `c`, and where the pattern goes on. */
  method Class(pattern: seq<byte>, at: nat, c: byte) returns (hits: bool, next: nat)
    requires at < |pattern| && pattern[at] == OPEN
    ensures (hits, next) == (One(TokenAt(pattern, at).0, c), TokenAt(pattern, at).1)
  {
    var negated := at + 1 < |pattern| && (pattern[at + 1] == BANG || pattern[at + 1] == CARET);
    var from := if negated then at + 2 else at + 1;
    if from >= |pattern| {
      return c == OPEN, at + 1;
    }
    var close := from + 1 + IndexOf(pattern[from + 1..], CLOSE);
    if close >= |pattern| {
      return c == OPEN, at + 1;
    }
    var hit := Holds(pattern[from..close], c);
    return hit != negated && c != SLASH, close + 1;
  }

  /** Whether the token at `pattern[p]`, no run, matches `c`, and where the pattern goes on. */
  method Single(pattern: seq<byte>, p: nat, c: byte) returns (one: bool, next: nat)
    requires p < |pattern| && pattern[p] != STAR
    ensures (one, next) == (One(TokenAt(pattern, p).0, c), TokenAt(pattern, p).1)
  {
    if pattern[p] == OPEN {
      one, next := Class(pattern, p, c);
    } else {
      one, next := (pattern[p] == QUESTION && c != SLASH) || pattern[p] == c, p + 1;
    }
  }

  /** Where the last `*` was, and where in the text it began to match. */
  datatype Starred = Starred(p: nat, t: nat)

  /** The matcher at `p` and `t` got there from its last star matching a byte for each token. */
  ghost predicate Stands(pattern: seq<byte>, text: seq<byte>, p: nat, t: nat, star: Option<Starred>) {
    && p <= |pattern| && t <= |text|
    && (star.Some? ==>
          && star.value.p < p && star.value.t <= t
          && Walks(TokensFrom(pattern, star.value.p + 1), TokensFrom(pattern, p), text, star.value.t, t))
  }

  /** Whether the pattern can still match from there, or with more taken by the last star. */
  ghost predicate Hopeful(pattern: seq<byte>, text: seq<byte>, p: nat, t: nat, star: Option<Starred>) {
    && p <= |pattern| && t <= |text| && (star.Some? ==> star.value.p < p)
    && (|| Spells(TokensFrom(pattern, p), text, t)
        || (star.Some? && MoreRun(TokensFrom(pattern, star.value.p + 1), text, star.value.t)))
  }

  lemma StarReached(pattern: seq<byte>, text: seq<byte>, p: nat, t: nat, star: Option<Starred>)
    requires Stands(pattern, text, p, t, star) && p < |pattern| && pattern[p] == STAR
    ensures Stands(pattern, text, p + 1, t, Some(Starred(p, t)))
    ensures Hopeful(pattern, text, p, t, star) <==> Hopeful(pattern, text, p + 1, t, Some(Starred(p, t)))
  {
    var after := TokensFrom(pattern, p + 1);
    assert TokensFrom(pattern, p) == Then(Run, after);
    assert Spells(Then(Run, after), text, t) <==> Spells(after, text, t) || MoreRun(after, text, t);
    if star.Some? && MoreRun(TokensFrom(pattern, star.value.p + 1), text, star.value.t) {
      LaterRunSuffices(TokensFrom(pattern, star.value.p + 1), TokensFrom(pattern, p), text, star.value.t, t);
    }
  }

  lemma OneMatched(pattern: seq<byte>, text: seq<byte>, p: nat, t: nat, star: Option<Starred>)
    requires Stands(pattern, text, p, t, star)
    requires p < |pattern| && t < |text| && pattern[p] != STAR && One(TokenAt(pattern, p).0, text[t])
    ensures Stands(pattern, text, TokenAt(pattern, p).1, t + 1, star)
    ensures Hopeful(pattern, text, p, t, star) <==> Hopeful(pattern, text, TokenAt(pattern, p).1, t + 1, star)
  {
    var (token, next) := TokenAt(pattern, p);
    assert TokensFrom(pattern, p) == Then(token, TokensFrom(pattern, next));
    assert Spells(TokensFrom(pattern, p), text, t) <==> Spells(TokensFrom(pattern, next), text, t + 1);
    if star.Some? {
      WalksOn(TokensFrom(pattern, star.value.p + 1), TokensFrom(pattern, p), text, star.value.t, t);
    }
  }

  lemma Mismatched(pattern: seq<byte>, text: seq<byte>, p: nat, t: nat)
    requires p <= |pattern| && t <= |text| && (p < |pattern| ==> pattern[p] != STAR)
    requires p < |pattern| && t < |text| ==> !One(TokenAt(pattern, p).0, text[t])
    requires p < |pattern| || t < |text|
    ensures !Spells(TokensFrom(pattern, p), text, t)
  {
    if p < |pattern| {
      assert TokensFrom(pattern, p) == Then(TokenAt(pattern, p).0, TokensFrom(pattern, TokenAt(pattern, p).1));
      assert !TokenAt(pattern, p).0.Run?;
    }
  }

  /** How many passes are left at most. */
  ghost function Left(pattern: seq<byte>, text: seq<byte>, p: nat, star: Option<Starred>): nat
    requires p <= |pattern| && (star.Some? ==> star.value.t <= |text|)
  {
    (if star.Some? then |text| - star.value.t else |text|) * (|pattern| + 1) + (|pattern| - p)
  }

  lemma {:induction false} LongerStrides(more: nat, fewer: nat, stride: nat)
    requires more > fewer
    ensures more * stride >= fewer * stride + stride
  {
    if more > fewer + 1 { LongerStrides(more - 1, fewer, stride); }
    assert more * stride == (more - 1) * stride + stride;
  }

  lemma LeftFalls(pattern: seq<byte>, text: seq<byte>, p: nat, star: Option<Starred>, p': nat, star': Option<Starred>)
    requires p <= |pattern| && (star.Some? ==> star.value.t <= |text|)
    requires p' <= |pattern| && star'.Some? && star'.value.t <= |text|
    requires if (star.Some? && star.value.t == star'.value.t) || (star.None? && star'.value.t == 0)
             then p < p' else 0 < p' && (star.Some? ==> star.value.t < star'.value.t)
    ensures Left(pattern, text, p', star') < Left(pattern, text, p, star)
  {
    var before, after := if star.Some? then |text| - star.value.t else |text|, |text| - star'.value.t;
    if before > after { LongerStrides(before, after, |pattern| + 1); }
  }

  /** What a pass of the matcher's loop comes to. */
  datatype Pass = Done(matched: bool) | On(p: nat, t: nat, star: Option<Starred>)

  /** After a mismatch: the last star takes one more character, unless that would be a `/`. */
  method Backtrack(pattern: seq<byte>, text: seq<byte>, p: nat, t: nat, star: Option<Starred>) returns (pass: Pass)
    requires Stands(pattern, text, p, t, star)
    requires !Spells(TokensFrom(pattern, p), text, t)
    ensures pass.Done? ==> !pass.matched && !Hopeful(pattern, text, p, t, star)
    ensures pass.On? ==>
              && star.Some? && pass == On(star.value.p + 1, star.value.t + 1, Some(Starred(star.value.p, star.value.t + 1)))
              && Stands(pattern, text, pass.p, pass.t, pass.star)
              && (Hopeful(pattern, text, p, t, star) <==> Hopeful(pattern, text, pass.p, pass.t, pass.star))
  {
    hide TokensFrom, Spells;
    if star.None? || star.value.t == |text| || text[star.value.t] == SLASH {
      return Done(false);
    }
    return On(star.value.p + 1, star.value.t + 1, Some(Starred(star.value.p, star.value.t + 1)));
  }

  lemma EndSpells(pattern: seq<byte>, text: seq<byte>)
    ensures Spells(TokensFrom(pattern, |pattern|), text, |text|)
  {
  }

  /** A pass at `p` and `t`. */
  method Step(pattern: seq<byte>, text: seq<byte>, p: nat, t: nat, star: Option<Starred>) returns (pass: Pass)
    requires Stands(pattern, text, p, t, star)
    ensures pass.Done? ==> (pass.matched <==> Hopeful(pattern, text, p, t, star))
    ensures pass.On? ==>
              && Stands(pattern, text, pass.p, pass.t, pass.star)
              && (Hopeful(pattern, text, p, t, star) <==> Hopeful(pattern, text, pass.p, pass.t, pass.star))
              && Left(pattern, text, pass.p, pass.star) < Left(pattern, text, p, star)
  {
    hide TokensFrom, Spells, One;
    if p < |pattern| && pattern[p] == STAR {
      StarReached(pattern, text, p, t, star);
      LeftFalls(pattern, text, p, star, p + 1, Some(Starred(p, t)));
      return On(p + 1, t, Some(Starred(p, t)));
    }
    if p < |pattern| && t < |text| {
      var one, next := Single(pattern, p, text[t]);
      if one {
        OneMatched(pattern, text, p, t, star);
        return On(next, t + 1, star);
      }
    } else if p == |pattern| && t == |text| {
      EndSpells(pattern, text);
      return Done(true);
    }
    Mismatched(pattern, text, p, t);
    pass := Backtrack(pattern, text, p, t, star);
    if pass.On? { LeftFalls(pattern, text, p, star, pass.p, pass.star); }
  }

  /** Whether `pattern` matches all of `text`: a `*` backtracks to the last one only. `steps` counts
      the passes of its loop. */
  method Matches(pattern: seq<byte>, text: seq<byte>) returns (matched: bool, ghost steps: nat)
    ensures matched <==> Means(pattern, text)
    ensures steps <= (|pattern| + 1) * (|text| + 1)
  {
    var p: nat, t: nat := 0, 0;
    var star: Option<Starred> := None;
    steps := 0;
    MeansSpells(pattern, text);
    ghost var bound := Left(pattern, text, 0, None);
    assert bound + 1 == (|pattern| + 1) * (|text| + 1);
    while true
      invariant Stands(pattern, text, p, t, star)
      invariant Means(pattern, text) <==> Hopeful(pattern, text, p, t, star)
      invariant steps + Left(pattern, text, p, star) <= bound
      decreases Left(pattern, text, p, star)
    {
      steps := steps + 1;
      var pass := Step(pattern, text, p, t, star);
      if pass.Done? { return pass.matched, steps; }
      p, t, star := pass.p, pass.t, pass.star;
    }
  }

  // ---- patterns ------------------------------------------------------------------------------------

  /** A pattern: 1 to 1024 bytes, no NUL, a `/` at its end dropped. */
  datatype Pattern = Pattern(text: seq<byte>)

  /** A pattern without a `/` speaks of names, one with a `/` of paths from the top of the tree. */
  ghost predicate ExcludedBy(pattern: Pattern, name: seq<byte>, path: seq<byte>) {
    if SLASH !in pattern.text then Means(pattern.text, name)
    else if pattern.text[0] == SLASH then Means(pattern.text[1..], path)
    else Means(pattern.text, path)
  }

  method Excludes(pattern: Pattern, name: seq<byte>, path: seq<byte>) returns (excluded: bool)
    ensures excluded <==> ExcludedBy(pattern, name, path)
  {
    var stripped := if pattern.text != [] && pattern.text[0] == SLASH then pattern.text[1..] else pattern.text;
    ghost var steps;
    if SLASH in pattern.text {
      excluded, steps := Matches(stripped, path);
    } else {
      excluded, steps := Matches(stripped, name);
    }
  }

  ghost predicate Excluded(patterns: seq<Pattern>, name: seq<byte>, path: seq<byte>) {
    exists i :: 0 <= i < |patterns| && ExcludedBy(patterns[i], name, path)
  }

  method AnyExcludes(patterns: seq<Pattern>, name: seq<byte>, path: seq<byte>) returns (excluded: bool)
    ensures excluded <==> Excluded(patterns, name, path)
  {
    for i := 0 to |patterns|
      invariant forall j :: 0 <= j < i ==> !ExcludedBy(patterns[j], name, path)
    {
      var hit := Excludes(patterns[i], name, path);
      if hit { return true; }
    }
    return false;
  }
}
