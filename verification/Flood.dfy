/** Over any run of arrivals, a handshake is given up only by the rule: the oldest of a source holding the most. */
module Flood {
  import opened Bytes
  import opened Handshakes

  /** A handshake arrives, giving up another for its room if need be; or it is turned back to show its address first.
      Either way those finished are forgotten. */
  datatype Event = Arrived(entry: Entry, finished: set<nat>, given: Option<Entry>) | TurnedBack(finished: set<nat>)

  function KeptOf(table: seq<Entry>, event: Event): seq<Entry> {
    Filtered(table, Unfinished(event.finished))
  }

  ghost predicate Step(table: seq<Entry>, most: nat, event: Event, after: seq<Entry>) {
    match event
    case Arrived(entry, finished, given) =>
      (forall e :: e in table ==> e.id < entry.id) && Arrives(table, most, entry, finished, given, after)
    case TurnedBack(_) => after == KeptOf(table, event)
  }

  ghost predicate Run(tables: seq<seq<Entry>>, most: nat, events: seq<Event>) {
    && |tables| == |events| + 1
    && forall i :: 0 <= i < |events| ==> StepAt(tables, most, events, i)
  }

  ghost predicate StepAt(tables: seq<seq<Entry>>, most: nat, events: seq<Event>, i: nat)
    requires i < |events| && |tables| == |events| + 1
  {
    Step(tables[i], most, events[i], tables[i + 1])
  }

  // ---- what every table keeps ------------------------------------------------------------------------------------------------------

  /** Oldest first. */
  predicate Ascending(table: seq<Entry>) {
    forall i, j :: 0 <= i < j < |table| ==> table[i].id < table[j].id
  }

  lemma {:induction false} FilteredAscending(table: seq<Entry>, keep: Entry -> bool)
    requires Ascending(table)
    ensures Ascending(Filtered(table, keep))
    decreases |table|
  {
    if table != [] {
      var rest := Filtered(table[1..], keep);
      FilteredAscending(table[1..], keep);
      FilteredShorter(table[1..], keep);
      forall i | 0 <= i < |rest|
        ensures table[0].id < rest[i].id
      {
        assert rest[i] in table[1..];
      }
    }
  }

  /** What making room gives up, when it does: the oldest of a source that holds the most; the rest stays, in order. */
  lemma RoomGives(kept: seq<Entry>, most: nat, given: Option<Entry>, left: seq<Entry>)
    requires Ascending(kept) && MakesRoom(kept, most, given, left)
    ensures Ascending(left) && (most > 0 ==> given.Some? <==> |kept| >= most)
    ensures forall e :: e in kept ==> (e in left <==> given != Some(e))
    ensures forall e :: e in left ==> e in kept
    ensures given.Some? ==> |left| == |kept| - 1 && given.value in kept && OldestOfMost(kept, given.value)
    ensures given.None? ==> left == kept
  {
    if given.Some? {
      var source := RoomSource(kept, most, given, left);
      hide Sources, Held, FirstOf, MakesRoom;
      OldestFirst(kept, source);
      WithoutOne(kept, FirstOf(kept, source));
      hide Without, Ascending;
    }
  }

  /** The source that gives one up. */
  lemma RoomSource(kept: seq<Entry>, most: nat, given: Option<Entry>, left: seq<Entry>) returns (source: Source)
    requires MakesRoom(kept, most, given, left) && given.Some?
    ensures FirstOf(kept, source) < |kept| && given == Some(kept[FirstOf(kept, source)])
    ensures left == Without(kept, FirstOf(kept, source)) && given.value.source == source
    ensures forall other :: other in Sources(kept) ==> Held(kept, other) <= Held(kept, source)
  {
    source :| source in Sources(kept) && (forall other :: other in Sources(kept) ==> Held(kept, other) <= Held(kept, source))
              && FirstOf(kept, source) < |kept|
              && given == Some(kept[FirstOf(kept, source)]) && left == Without(kept, FirstOf(kept, source));
  }

  lemma OldestFirst(kept: seq<Entry>, source: Source)
    requires Ascending(kept) && FirstOf(kept, source) < |kept|
    ensures forall e :: e in kept && e.source == source ==> kept[FirstOf(kept, source)].id <= e.id
  {
    var at := FirstOf(kept, source);
    forall e | e in kept && e.source == source
      ensures kept[at].id <= e.id
    {
      var i :| 0 <= i < |kept| && kept[i] == e;
      assert i >= at;
    }
  }

  lemma WithoutOne(kept: seq<Entry>, at: nat)
    requires at < |kept| && Ascending(kept)
    ensures var left := Without(kept, at);
            && Ascending(left) && |left| == |kept| - 1
            && (forall e :: e in kept ==> (e in left <==> e != kept[at])) && (forall e :: e in left ==> e in kept)
  {
    var left := Without(kept, at);
    assert forall i :: 0 <= i < |left| ==> left[i] == kept[if i < at then i else i + 1];
    forall e | e in kept && e != kept[at]
      ensures e in left
    {
      var i :| 0 <= i < |kept| && kept[i] == e;
      assert left[if i < at then i else i - 1] == e;
    }
  }

  /** No older handshake of its source is in the table, and no source holds more. */
  ghost predicate OldestOfMost(table: seq<Entry>, entry: Entry) {
    && (forall e :: e in table && e.source == entry.source ==> entry.id <= e.id)
    && (forall other :: other in Sources(table) ==> Held(table, other) <= Held(table, entry.source))
  }

  predicate Gives(event: Event, entry: Entry) {
    event.Arrived? && event.given == Some(entry)
  }

  /** One event: the table stays in order and within its bound, and a handshake leaves it unfinished only given up,
      from a full table, as the oldest of a source holding the most. */
  lemma StepKeeps(table: seq<Entry>, most: nat, event: Event, after: seq<Entry>)
    requires most > 0 && Ascending(table) && |table| <= most && Step(table, most, event, after)
    ensures Ascending(after) && |after| <= most
    ensures forall e :: e in table && e.id !in event.finished && e !in after ==> Gives(event, e)
    ensures forall e :: Gives(event, e) ==> e in table && e !in after && |KeptOf(table, event)| == most && OldestOfMost(KeptOf(table, event), e)
    ensures forall e :: e in after ==> e in table || (event.Arrived? && e == event.entry)
  {
    var kept := KeptOf(table, event);
    KeptFacts(table, event);
    hide MakesRoom, OldestOfMost, Filtered, KeptOf, Unfinished, Ascending;
    if event.Arrived? {
      ArrivedKeeps(kept, most, event.entry, event.given, after);
    }
  }

  lemma KeptFacts(table: seq<Entry>, event: Event)
    requires Ascending(table)
    ensures var kept := KeptOf(table, event);
            Ascending(kept) && |kept| <= |table| && forall e :: e in kept <==> e in table && e.id !in event.finished
  {
    FilteredAscending(table, Unfinished(event.finished));
    FilteredShorter(table, Unfinished(event.finished));
  }

  lemma ArrivedKeeps(kept: seq<Entry>, most: nat, entry: Entry, given: Option<Entry>, after: seq<Entry>)
    requires most > 0 && Ascending(kept) && |kept| <= most && (forall e :: e in kept ==> e.id < entry.id)
    requires after != [] && after[|after| - 1] == entry && MakesRoom(kept, most, given, after[..|after| - 1])
    ensures Ascending(after) && |after| <= most
    ensures forall e :: e in kept ==> (e in after <==> given != Some(e))
    ensures forall e :: e in after ==> e in kept || e == entry
    ensures given.Some? ==> given.value in kept && |kept| == most && OldestOfMost(kept, given.value)
  {
    hide MakesRoom, OldestOfMost;
    var left := after[..|after| - 1];
    RoomGives(kept, most, given, left);
    assert after == left + [entry];
    AscendingMore(left, entry);
    hide Ascending;
  }

  lemma AscendingMore(left: seq<Entry>, entry: Entry)
    requires Ascending(left) && forall e :: e in left ==> e.id < entry.id
    ensures Ascending(left + [entry])
  {
    assert forall i :: 0 <= i < |left| ==> left[i] in left;
  }

  // ---- over a run --------------------------------------------------------------------------------------------------------------------

  ghost predicate Good(table: seq<Entry>, most: nat) {
    Ascending(table) && |table| <= most
  }

  predicate NeverFinished(events: seq<Event>, entry: Entry) {
    forall i :: 0 <= i < |events| ==> entry.id !in events[i].finished
  }

  lemma {:induction false} RunGood(tables: seq<seq<Entry>>, most: nat, events: seq<Event>, i: nat)
    requires most > 0 && Run(tables, most, events) && Good(tables[0], most) && i <= |events|
    ensures Good(tables[i], most)
    decreases i
  {
    if i > 0 {
      RunGood(tables, most, events, i - 1);
      assert StepAt(tables, most, events, i - 1);
      StepKeeps(tables[i - 1], most, events[i - 1], tables[i]);
    }
  }

  /** Once gone, a handshake does not come back: numbers are not used again. */
  lemma {:induction false} StaysGone(tables: seq<seq<Entry>>, most: nat, events: seq<Event>, i: nat, j: nat, entry: Entry)
    requires most > 0 && Run(tables, most, events) && Good(tables[0], most) && i <= j <= |events|
    requires Newer(tables[i], events, i, entry.id) && entry !in tables[i]
    ensures entry !in tables[j]
    decreases j - i
  {
    if i < j {
      RunGood(tables, most, events, i);
      assert StepAt(tables, most, events, i);
      StepKeeps(tables[i], most, events[i], tables[i + 1]);
      StaysGone(tables, most, events, i + 1, j, entry);
    }
  }

  /** What arrives from `i` on is newer than `id`. */
  predicate Newer(table: seq<Entry>, events: seq<Event>, i: nat, id: nat) {
    forall k :: i <= k < |events| && events[k].Arrived? ==> id < events[k].entry.id
  }

  /** A source is outnumbered: in a full table, some other source holds more. */
  ghost predicate Outnumbered(table: seq<Entry>, most: nat, source: Source) {
    |table| == most ==> exists other :: other in Sources(table) && Held(table, other) > Held(table, source)
  }

  /** A handshake of a source that some other outnumbers whenever the table is full is never given up: it is in the
      table until it finishes. So while one source strictly holds the most, no other loses any. */
  lemma {:induction false} FloodGivesUpItsOwn(tables: seq<seq<Entry>>, most: nat, events: seq<Event>, entry: Entry, n: nat)
    requires most > 0 && Run(tables, most, events) && Good(tables[0], most) && n <= |events|
    requires entry in tables[0] && NeverFinished(events, entry)
    requires forall i :: 0 <= i < n ==> Outnumbered(KeptOf(tables[i], events[i]), most, entry.source)
    ensures entry in tables[n]
    decreases n
  {
    if n > 0 {
      FloodGivesUpItsOwn(tables, most, events, entry, n - 1);
      RunGood(tables, most, events, n - 1);
      assert StepAt(tables, most, events, n - 1);
      StepKeeps(tables[n - 1], most, events[n - 1], tables[n]);
      assert Outnumbered(KeptOf(tables[n - 1], events[n - 1]), most, entry.source);
    }
  }

  /** A handshake goes unfinished only after every older one of its own source: if it is gone, they are. */
  lemma {:induction false} OlderGoFirst(tables: seq<seq<Entry>>, most: nat, events: seq<Event>, older: Entry, entry: Entry, n: nat)
    requires most > 0 && Run(tables, most, events) && Good(tables[0], most) && n <= |events|
    requires older in tables[0] && entry in tables[0] && older.source == entry.source && older.id < entry.id
    requires NeverFinished(events, entry) && entry !in tables[n]
    requires Newer(tables[0], events, 0, older.id)
    ensures older !in tables[n]
    decreases n
  {
    if n > 0 {
      RunGood(tables, most, events, n - 1);
      assert StepAt(tables, most, events, n - 1);
      StepKeeps(tables[n - 1], most, events[n - 1], tables[n]);
      FilteredShorter(tables[n - 1], Unfinished(events[n - 1].finished));
      if entry in tables[n - 1] {
        assert Gives(events[n - 1], entry);
        assert OldestOfMost(KeptOf(tables[n - 1], events[n - 1]), entry);
        if older in tables[n - 1] {
          assert older !in KeptOf(tables[n - 1], events[n - 1]);
          FinishedGone(tables[n - 1], most, events[n - 1], tables[n], older);
        }
      } else {
        OlderGoFirst(tables, most, events, older, entry, n - 1);
      }
    }
  }

  /** One forgotten as finished is not in the table after. */
  lemma FinishedGone(table: seq<Entry>, most: nat, event: Event, after: seq<Entry>, entry: Entry)
    requires most > 0 && Ascending(table) && |table| <= most && Step(table, most, event, after) && entry in table
    ensures entry.id in event.finished ==> entry !in after
  {
    KeptFacts(table, event);
    hide MakesRoom, Filtered, KeptOf, Unfinished, Ascending;
    if event.Arrived? {
      ArrivedKeeps(KeptOf(table, event), most, event.entry, event.given, after);
    }
  }

  // ---- a fair share --------------------------------------------------------------------------------------------------------------------

  function SumHeld(table: seq<Entry>, sources: seq<Source>): nat {
    if sources == [] then 0 else Held(table, sources[0]) + SumHeld(table, sources[1..])
  }

  predicate Distinct(sources: seq<Source>) {
    forall i, j :: 0 <= i < j < |sources| ==> sources[i] != sources[j]
  }

  lemma {:induction false} SumDrop(table: seq<Entry>, sources: seq<Source>)
    requires table != [] && Distinct(sources)
    ensures SumHeld(table, sources) == SumHeld(table[1..], sources) + (if table[0].source in sources then 1 else 0)
    decreases |sources|
  {
    if sources != [] {
      SumDrop(table, sources[1..]);
      assert table[0].source in sources <==> table[0].source == sources[0] || table[0].source in sources[1..];
      assert sources[0] !in sources[1..];
    }
  }

  /** Each entry is counted once. */
  lemma {:induction false} SumIsAll(table: seq<Entry>, sources: seq<Source>)
    requires Distinct(sources) && forall e :: e in table ==> e.source in sources
    ensures SumHeld(table, sources) == |table|
    decreases |table|
  {
    if table == [] {
      SumOfNone(sources);
    } else {
      SumDrop(table, sources);
      SumIsAll(table[1..], sources);
    }
  }

  lemma {:induction false} SumOfNone(sources: seq<Source>)
    ensures SumHeld([], sources) == 0
    decreases |sources|
  {
    if sources != [] {
      SumOfNone(sources[1..]);
    }
  }

  lemma {:induction false} SumAtMost(table: seq<Entry>, sources: seq<Source>, each: nat)
    requires forall s :: s in sources ==> Held(table, s) <= each
    ensures SumHeld(table, sources) <= each * |sources|
    decreases |sources|
  {
    if sources != [] {
      SumAtMost(table, sources[1..], each);
      assert each * |sources| == each + each * |sources[1..]|;
    }
  }

  /** The sources of a table, each once. */
  lemma {:induction false} SourcesListed(all: set<Source>) returns (sources: seq<Source>)
    ensures Distinct(sources) && |sources| == |all| && forall s :: s in sources <==> s in all
    decreases |all|
  {
    if all == {} {
      sources := [];
    } else {
      var one :| one in all;
      var rest := SourcesListed(all - {one});
      sources := [one] + rest;
    }
  }

  /** A source that loses a handshake held at least its fair share of the full table: the table's size over the number
      of sources in it. */
  lemma FairShare(table: seq<Entry>, most: nat, event: Event, after: seq<Entry>, entry: Entry)
    requires most > 0 && Ascending(table) && |table| <= most && Step(table, most, event, after)
    requires Gives(event, entry)
    ensures var kept := KeptOf(table, event); Held(kept, entry.source) * |Sources(kept)| >= most
  {
    StepKeeps(table, most, event, after);
    var kept := KeptOf(table, event);
    var sources := SourcesListed(Sources(kept));
    SumIsAll(kept, sources);
    SumAtMost(kept, sources, Held(kept, entry.source));
  }
}
