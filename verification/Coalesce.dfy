/** What a session tells its clients: the output it held joined into as few messages as hold it, and a redraw cut
    between characters. */
module Coalesce {
  import opened Bytes
  import opened Judge
  import opened Stream
  import opened Utf8

  /** `more` joined to the last message if both are output and one message holds them, else a message of its own. */
  function Joined(joined: seq<Piece>, more: Piece): seq<Piece> {
    if joined != [] && joined[|joined| - 1].Bytes? && more.Bytes?
       && |joined[|joined| - 1].bytes| + |more.bytes| <= MAX_OUT
    then joined[..|joined| - 1] + [Bytes(joined[|joined| - 1].bytes + more.bytes)]
    else joined + [more]
  }

  function Coalesced(held: seq<Piece>): seq<Piece> {
    if held == [] then [] else Joined(Coalesced(held[..|held| - 1]), held[|held| - 1])
  }

  /** The messages joined in turn. */
  method Coalesce(held: seq<Piece>) returns (joined: seq<Piece>)
    ensures joined == Coalesced(held)
  {
    joined := [];
    var i := 0;
    while i < |held|
      invariant 0 <= i <= |held| && joined == Coalesced(held[..i])
    {
      assert held[..i + 1][..i] == held[..i];
      var last := |joined| - 1;
      if joined != [] && joined[last].Bytes? && held[i].Bytes? && |joined[last].bytes| + |held[i].bytes| <= MAX_OUT {
        joined := joined[..last] + [Bytes(joined[last].bytes + held[i].bytes)];
      } else {
        joined := joined + [held[i]];
      }
      i := i + 1;
    }
    assert held[..i] == held;
  }

  // ---- nothing changed -----------------------------------------------------------------------------------------------------

  lemma JoinedShows(joined: seq<Piece>, more: Piece)
    ensures Shown(Joined(joined, more)) == Shown(joined) + EventsOf(more)
  {
    hide Shown;
    ShownMore(joined, more);
    if Joined(joined, more) != joined + [more] {
      var init, last := joined[..|joined| - 1], joined[|joined| - 1];
      ShownMore(init, last);
      assert joined == init + [last];
      ShownMore(init, Bytes(last.bytes + more.bytes));
      OutsMore(last.bytes, more.bytes);
      assert Shown(init) + (Outs(last.bytes) + Outs(more.bytes)) == Shown(init) + Outs(last.bytes) + Outs(more.bytes);
    }
  }

  /** Every byte and mark held is told, in order. */
  lemma {:induction false} CoalesceShowsTheSame(held: seq<Piece>)
    ensures Shown(Coalesced(held)) == Shown(held)
    decreases |held|
  {
    if held != [] {
      hide Joined;
      CoalesceShowsTheSame(held[..|held| - 1]);
      JoinedShows(Coalesced(held[..|held| - 1]), held[|held| - 1]);
    }
  }

  predicate AllGood(pieces: seq<Piece>) {
    forall i :: 0 <= i < |pieces| ==> GoodPiece(pieces[i])
  }

  /** No message grows past its bound. */
  lemma {:induction false} CoalesceKeepsBound(held: seq<Piece>)
    requires AllGood(held)
    ensures AllGood(Coalesced(held))
    decreases |held|
  {
    if held != [] {
      CoalesceKeepsBound(held[..|held| - 1]);
      assert GoodPiece(held[|held| - 1]);
    }
  }

  // ---- as few as can be ------------------------------------------------------------------------------------------------------

  function Size(group: seq<Piece>): nat {
    if group == [] then 0
    else Size(group[..|group| - 1]) + (if group[|group| - 1].Bytes? then |group[|group| - 1].bytes| else 0)
  }

  /** The messages of a group may be one: there is only one, or they are all output and one message holds them. */
  predicate Fits(group: seq<Piece>) {
    |group| == 1 || (|group| > 1 && Size(group) <= MAX_OUT && forall i :: 0 <= i < |group| ==> group[i].Bytes?)
  }

  function Flat(groups: seq<seq<Piece>>): seq<Piece> {
    if groups == [] then [] else Flat(groups[..|groups| - 1]) + groups[|groups| - 1]
  }

  /** A way to put `held` in messages, whole and in order: groups of neighbours, each fit to be one. */
  predicate Grouping(groups: seq<seq<Piece>>, held: seq<Piece>) {
    Flat(groups) == held && forall i :: 0 <= i < |groups| ==> Fits(groups[i])
  }

  /** A group as the one message it is. */
  function Merged(group: seq<Piece>): Piece
    requires group != []
  {
    if |group| == 1 then group[0]
    else Bytes((if Merged(group[..|group| - 1]).Bytes? then Merged(group[..|group| - 1]).bytes else [])
               + (if group[|group| - 1].Bytes? then group[|group| - 1].bytes else []))
  }

  /** `more` in the last group if it fits there, else in one of its own. */
  function Grown(groups: seq<seq<Piece>>, more: Piece): seq<seq<Piece>> {
    if groups != [] && Fits(groups[|groups| - 1] + [more])
    then groups[..|groups| - 1] + [groups[|groups| - 1] + [more]]
    else groups + [[more]]
  }

  /** The groups joining in turn makes. */
  function Greedy(held: seq<Piece>): seq<seq<Piece>> {
    if held == [] then []
    else Grown(Greedy(held[..|held| - 1]), held[|held| - 1])
  }

  lemma FitsPrefix(group: seq<Piece>)
    requires Fits(group) && |group| > 1
    ensures Fits(group[..|group| - 1])
  {
    var init := group[..|group| - 1];
    assert forall i :: 0 <= i < |init| ==> init[i] == group[i];
  }

  lemma {:induction false} SizeJoin(a: seq<Piece>, b: seq<Piece>)
    ensures Size(a + b) == Size(a) + Size(b)
    decreases |b|
  {
    if b == [] {
      assert a + b == a;
    } else {
      assert (a + b)[..|a + b| - 1] == a + b[..|b| - 1];
      SizeJoin(a, b[..|b| - 1]);
    }
  }

  lemma FitsSuffix(group: seq<Piece>, from: nat)
    requires Fits(group) && from < |group|
    ensures Fits(group[from..])
  {
    var rest := group[from..];
    if |rest| > 1 {
      SizeJoin(group[..from], rest);
      assert group == group[..from] + rest;
      assert forall i :: 0 <= i < |rest| ==> rest[i] == group[from + i];
    }
  }

  lemma {:induction false} MergedSize(group: seq<Piece>)
    requires Fits(group) && forall i :: 0 <= i < |group| ==> group[i].Bytes?
    ensures Merged(group).Bytes? && |Merged(group).bytes| == Size(group)
    decreases |group|
  {
    if |group| > 1 {
      FitsPrefix(group);
      var init := group[..|group| - 1];
      assert forall i :: 0 <= i < |init| ==> init[i] == group[i];
      MergedSize(init);
    } else {
      assert group[..0] == [];
    }
  }

  /** The messages are the groups, each as one. */
  predicate AreGroups(joined: seq<Piece>, groups: seq<seq<Piece>>) {
    |joined| == |groups| && forall i :: 0 <= i < |groups| ==> Fits(groups[i]) && joined[i] == Merged(groups[i])
  }

  lemma GrownAreGroups(joined: seq<Piece>, groups: seq<seq<Piece>>, more: Piece)
    requires AreGroups(joined, groups)
    ensures AreGroups(Joined(joined, more), Grown(groups, more))
  {
    if groups != [] {
      JoinsIffFits(groups[|groups| - 1], more);
    }
    hide Fits, Merged;
    assert [more][..0] == [];
    MergedOne(more);
  }

  lemma MergedOne(more: Piece)
    ensures Fits([more]) && Merged([more]) == more
  {
  }

  lemma GrownFlat(groups: seq<seq<Piece>>, more: Piece)
    ensures Flat(Grown(groups, more)) == Flat(groups) + [more]
  {
    hide Fits;
    var now := Grown(groups, more);
    if groups != [] && Fits(groups[|groups| - 1] + [more]) {
      assert now[..|now| - 1] == groups[..|groups| - 1];
      assert Flat(groups[..|groups| - 1]) + (groups[|groups| - 1] + [more]) == Flat(groups) + [more];
    } else {
      assert now[..|now| - 1] == groups;
    }
  }

  /** Message by message, what was coalesced is the greedy grouping. */
  lemma {:induction false} CoalescedIsGreedy(held: seq<Piece>)
    ensures Flat(Greedy(held)) == held && AreGroups(Coalesced(held), Greedy(held))
    decreases |held|
  {
    if held != [] {
      hide Fits, Joined, Grown, AreGroups, Flat, Merged, Greedy, Coalesced;
      var init, more := held[..|held| - 1], held[|held| - 1];
      LastMore(held);
      CoalescedIsGreedy(init);
      GrownAreGroups(Coalesced(init), Greedy(init), more);
      GrownFlat(Greedy(init), more);
    } else {
      NoneMore();
    }
  }

  lemma LastMore(held: seq<Piece>)
    requires held != []
    ensures var init, more := held[..|held| - 1], held[|held| - 1];
            held == init + [more] && Greedy(held) == Grown(Greedy(init), more) && Coalesced(held) == Joined(Coalesced(init), more)
  {
  }

  lemma NoneMore()
    ensures Flat(Greedy([])) == [] && AreGroups(Coalesced([]), Greedy([]))
  {
  }

  lemma FlatMore(groups: seq<seq<Piece>>, group: seq<Piece>)
    ensures Flat(groups + [group]) == Flat(groups) + group
  {
    assert (groups + [group])[..|groups|] == groups;
  }

  lemma JoinsIffFits(last: seq<Piece>, more: Piece)
    requires Fits(last)
    ensures Fits(last + [more]) <==> Merged(last).Bytes? && more.Bytes? && |Merged(last).bytes| + |more.bytes| <= MAX_OUT
    ensures Fits(last + [more]) ==> Merged(last + [more]) == Bytes(Merged(last).bytes + more.bytes)
  {
    var grown := last + [more];
    assert grown[..|last|] == last;
    assert forall i :: 0 <= i < |last| ==> last[i] == grown[i];
    if forall i :: 0 <= i < |last| ==> last[i].Bytes? {
      MergedSize(last);
    } else {
      assert |last| == 1;
    }
  }

  /** Fewer groups; or as many, the last no longer. */
  predicate Ahead(greedy: seq<seq<Piece>>, groups: seq<seq<Piece>>) {
    || |greedy| < |groups|
    || (|greedy| == |groups| && (greedy != [] ==> |greedy[|greedy| - 1]| <= |groups[|groups| - 1]|))
  }

  /** Ahead of a grouping, and then given a message the other puts in a group of its own. */
  lemma AheadOfNew(greedy: seq<seq<Piece>>, groups: seq<seq<Piece>>, more: Piece)
    requires Ahead(greedy, groups)
    ensures Ahead(Grown(greedy, more), groups + [[more]])
  {
    hide Fits;
  }

  /** Ahead of a grouping, and then given a message the other puts in its last group. */
  lemma AheadOfJoined(greedy: seq<seq<Piece>>, before: seq<seq<Piece>>, last: seq<Piece>, more: Piece)
    requires Ahead(greedy, before + [last]) && Flat(greedy) == Flat(before) + last && last != []
    requires Fits(last + [more])
    ensures Ahead(Grown(greedy, more), before + [last + [more]])
  {
    if |greedy| == |before| + 1 && |greedy[|greedy| - 1]| <= |last| {
      LastFits(greedy, Flat(before), last, more);
    }
    hide Fits, Flat;
  }

  /** A last group no longer than one that takes the next message takes it too. */
  lemma LastFits(greedy: seq<seq<Piece>>, flat: seq<Piece>, last: seq<Piece>, more: Piece)
    requires greedy != [] && Flat(greedy) == flat + last && |greedy[|greedy| - 1]| <= |last|
    requires Fits(last + [more])
    ensures Fits(greedy[|greedy| - 1] + [more])
  {
    hide Fits;
    var g := greedy[|greedy| - 1];
    var init := Flat(greedy[..|greedy| - 1]);
    assert Flat(greedy) == init + g;
    var whole := last + [more];
    var from := |last| - |g|;
    assert g == (flat + last)[|flat + last| - |g|..];
    assert g + [more] == whole[from..];
    FitsSuffix(whole, from);
  }

  /** The greedy grouping stays ahead of every grouping of the same messages. */
  lemma {:induction false} GreedyAhead(groups: seq<seq<Piece>>, held: seq<Piece>)
    requires Grouping(groups, held)
    ensures Ahead(Greedy(held), groups)
    decreases |held|
  {
    hide Grown, Ahead, Fits, Flat, Greedy, Grouping;
    if groups == [] {
      EmptyAhead(held);
    } else {
      GroupingDrop(groups, held);
      var last, before := groups[|groups| - 1], groups[..|groups| - 1];
      var init, more := held[..|held| - 1], held[|held| - 1];
      var shorter := last[..|last| - 1];
      CoalescedIsGreedy(init);
      LastMore(held);
      if |last| == 1 {
        GreedyAhead(before, init);
        AheadOfNew(Greedy(init), before, more);
      } else {
        GreedyAhead(before + [shorter], init);
        AheadOfJoined(Greedy(init), before, shorter, more);
      }
    }
  }

  /** A grouping without its last message. */
  lemma GroupingDrop(groups: seq<seq<Piece>>, held: seq<Piece>)
    requires Grouping(groups, held) && groups != []
    ensures var last, before := groups[|groups| - 1], groups[..|groups| - 1];
            && held != [] && last != [] && Fits(last)
            && (var init, more, shorter := held[..|held| - 1], held[|held| - 1], last[..|last| - 1];
                && groups == before + [shorter + [more]] && init == Flat(before) + shorter && last == shorter + [more]
                && (if |last| == 1 then last == [more] && Grouping(before, init)
                    else shorter != [] && Grouping(before + [shorter], init)))
  {
    hide Fits, Flat;
    var last, before := groups[|groups| - 1], groups[..|groups| - 1];
    FitsSome(last);
    assert groups == before + [last];
    FlatMore(before, last);
    var init, more, shorter := held[..|held| - 1], held[|held| - 1], last[..|last| - 1];
    assert last == shorter + [more] && init == Flat(before) + shorter;
    if |last| > 1 {
      FitsPrefix(last);
      FlatMore(before, shorter);
    }
  }

  lemma FitsSome(group: seq<Piece>)
    requires Fits(group)
    ensures group != []
  {
  }

  lemma EmptyAhead(held: seq<Piece>)
    requires Grouping([], held)
    ensures Ahead(Greedy(held), [])
  {
  }

  /** No way to put the messages held, whole and in order, in messages of the wire uses fewer. */
  lemma CoalesceIsOptimal(held: seq<Piece>, groups: seq<seq<Piece>>)
    requires Grouping(groups, held)
    ensures |Coalesced(held)| <= |groups|
  {
    CoalescedIsGreedy(held);
    GreedyAhead(groups, held);
  }

  // ---- a redraw on the wire ----------------------------------------------------------------------------------------------------

  /** Where a redraw's bytes are cut: as far as a message goes, but back to a character's start. */
  function CutAt(rest: seq<byte>, at: nat): (cut: nat)
    requires 0 < |rest| && at <= |rest|
    ensures cut <= at
    ensures cut == at || !(cut < |rest| && Continues(rest[cut])) || cut == 0
    ensures forall i :: cut < i <= at && i < |rest| ==> Continues(rest[i])
  {
    if 0 < at < |rest| && Continues(rest[at]) then CutAt(rest, at - 1) else at
  }

  /** How many bytes the first `n` pieces hold. */
  function Before(out: seq<Piece>, n: nat): nat
    requires n <= |out|
  {
    if n == 0 then 0 else Before(out, n - 1) + (if out[n - 1].Bytes? then |out[n - 1].bytes| else 0)
  }

  lemma {:induction false} BeforeKept(was: seq<Piece>, out: seq<Piece>, n: nat)
    requires n <= |was| <= |out| && out[..|was|] == was
    ensures Before(out, n) == Before(was, n)
    decreases n
  {
    if n > 0 {
      assert out[n - 1] == out[..|was|][n - 1];
      BeforeKept(was, out, n - 1);
    }
  }

  predicate FourContinue(bytes: seq<byte>, i: nat)
    requires i + 4 <= |bytes|
  {
    Continues(bytes[i]) && Continues(bytes[i + 1]) && Continues(bytes[i + 2]) && Continues(bytes[i + 3])
  }

  /** No character has more than three bytes after its first, as RFC 3629 has it. */
  predicate CharactersShort(bytes: seq<byte>) {
    forall i: nat :: i + 4 <= |bytes| ==> !FourContinue(bytes, i)
  }

  lemma FourFrom(rest: seq<byte>, cut: nat, most: nat)
    requires cut + 4 <= most < |rest|
    requires forall i :: cut < i <= most ==> Continues(rest[i])
    ensures FourContinue(rest, cut + 1)
  {
  }

  lemma CutIsClean(bytes: seq<byte>, at: nat, most: nat)
    requires CharactersShort(bytes) && at < |bytes| && at + most <= |bytes| && (most == MAX_OUT || at + most == |bytes|) && most > 0
    ensures var cut := CutAt(bytes[at..], most);
            0 < cut && Starts(bytes, at + cut)
  {
    var rest := bytes[at..];
    var cut := CutAt(rest, most);
    if most < |rest| && cut + 4 <= most {
      FourFrom(rest, cut, most);
      assert FourContinue(bytes, at + cut + 1);
    }
  }

  /** A redraw's output in messages of at most `MAX_OUT` bytes, each ending on a whole character. */
  method Redrawn(bytes: seq<byte>) returns (out: seq<Piece>)
    ensures AllBytes(out) && AllGood(out) && Shown(out) == Outs(bytes)
    ensures CharactersShort(bytes) ==> CutClean(bytes, out)
  {
    hide CutAt, Shown, Outs, CutClean, Before, CharactersShort, Starts;
    NothingBefore(bytes);
    out := [];
    var at := 0;
    while at < |bytes|
      invariant 0 <= at <= |bytes| && AllBytes(out) && AllGood(out)
      invariant Shown(out) == Outs(bytes[..at]) && Before(out, |out|) == at
      invariant CharactersShort(bytes) ==> CutClean(bytes, out)
      invariant CharactersShort(bytes) ==> out == [] || Starts(bytes, at)
    {
      var rest := bytes[at..];
      var most := if |rest| < MAX_OUT then |rest| else MAX_OUT;
      var cut := CutAt(rest, most);
      if CharactersShort(bytes) {
        CutIsClean(bytes, at, most);
      }
      if cut == 0 {
        cut := 1;
      }
      PieceAdded(bytes, out, at, cut);
      out := out + [Bytes(rest[..cut])];
      at := at + cut;
    }
    assert bytes[..at] == bytes;
  }

  predicate AllBytes(out: seq<Piece>) {
    forall i :: 0 <= i < |out| ==> out[i].Bytes?
  }

  predicate Starts(bytes: seq<byte>, at: nat) {
    at < |bytes| ==> !Continues(bytes[at])
  }

  /** Every piece begins where a character does. */
  predicate CutClean(bytes: seq<byte>, out: seq<Piece>) {
    forall i :: 0 < i < |out| ==> Starts(bytes, Before(out, i))
  }

  lemma NothingBefore(bytes: seq<byte>)
    ensures Shown([]) == Outs(bytes[..0]) && Before([], 0) == 0 && CutClean(bytes, [])
  {
  }

  lemma PieceAdded(bytes: seq<byte>, out: seq<Piece>, at: nat, cut: nat)
    requires at + cut <= |bytes| && Before(out, |out|) == at && Shown(out) == Outs(bytes[..at])
    ensures var more := out + [Bytes(bytes[at..][..cut])];
            && Shown(more) == Outs(bytes[..at + cut]) && Before(more, |more|) == at + cut
            && (CutClean(bytes, out) && (out == [] || Starts(bytes, at)) ==> CutClean(bytes, more))
  {
    hide Continues, Incomplete;
    var piece := Bytes(bytes[at..][..cut]);
    var more := out + [piece];
    ShownMore(out, piece);
    OutsMore(bytes[..at], bytes[at..][..cut]);
    assert bytes[..at] + bytes[at..][..cut] == bytes[..at + cut];
    forall i | 0 <= i <= |out|
      ensures Before(more, i) == Before(out, i)
    {
      BeforeKept(out, more, i);
    }
  }
}
