/** Handshakes under way, in a table of bounded size: a flood gives up only its own. */
module Handshakes {
  import opened Bytes

  /** An address as the table tells them apart; all through a relay, which have none, count as one. */
  type Source = Option<nat>

  /** A handshake under way, by the number it arrived as. */
  datatype Entry = Entry(source: Source, id: nat)

  // ---- the queue ---------------------------------------------------------------------------------------------------------------

  function Filtered<T>(items: seq<T>, keep: T -> bool): seq<T> {
    if items == [] then [] else (if keep(items[0]) then [items[0]] else []) + Filtered(items[1..], keep)
  }

  function FirstOf(table: seq<Entry>, source: Source): (at: nat)
    ensures at <= |table|
    ensures forall i :: 0 <= i < at ==> table[i].source != source
    ensures at < |table| ==> table[at].source == source
  {
    if table == [] || table[0].source == source then 0 else 1 + FirstOf(table[1..], source)
  }

  function Held(table: seq<Entry>, source: Source): nat {
    if table == [] then 0 else (if table[0].source == source then 1 else 0) + Held(table[1..], source)
  }

  function Sources(table: seq<Entry>): set<Source> {
    set e | e in table :: e.source
  }

  function Without<T>(items: seq<T>, at: nat): seq<T>
    requires at < |items|
  {
    items[..at] + items[at + 1..]
  }

  /** At most `most` items, oldest first, as the queue under the table keeps them. */
  class Bounded<T(==)> {
    var items: seq<T>
    const most: nat

    predicate Valid()
      reads this
    {
      |items| <= most
    }

    constructor (most: nat)
      ensures Valid() && items == [] && this.most == most
    {
      this.most := most;
      items := [];
    }

    predicate Full()
      reads this
    {
      |items| >= most
    }

    method PushBack(item: T) returns (taken: bool)
      requires Valid()
      modifies this
      ensures Valid() && taken == (|old(items)| < most)
      ensures items == if taken then old(items) + [item] else old(items)
    {
      taken := !Full();
      if taken {
        items := items + [item];
      }
    }

    /** A window of the newest: within the bound, as long as there is any. */
    method PushEvicting(item: T)
      requires Valid()
      modifies this
      ensures most > 0 ==> Valid()
      ensures items == (if |old(items)| >= most && old(items) != [] then old(items)[1..] else old(items)) + [item]
    {
      if Full() && items != [] {
        items := items[1..];
      }
      items := items + [item];
    }

    method PopFront() returns (item: Option<T>)
      requires Valid()
      modifies this
      ensures Valid()
      ensures old(items) == [] ==> item == None && items == []
      ensures old(items) != [] ==> item == Some(old(items)[0]) && items == old(items)[1..]
    {
      if items == [] {
        return None;
      }
      item := Some(items[0]);
      items := items[1..];
    }

    method TakeAt(at: nat) returns (item: T)
      requires Valid() && at < |items|
      modifies this
      ensures Valid() && item == old(items)[at] && items == Without(old(items), at)
    {
      item := items[at];
      items := items[..at] + items[at + 1..];
    }

    method Retain(keep: T -> bool)
      requires Valid()
      modifies this
      ensures Valid() && items == Filtered(old(items), keep)
    {
      FilteredShorter(items, keep);
      var kept: seq<T> := [];
      var i := 0;
      while i < |items|
        invariant 0 <= i <= |items| && items == old(items)
        invariant kept + Filtered(items[i..], keep) == Filtered(items, keep)
      {
        assert items[i..][1..] == items[i + 1..];
        if keep(items[i]) {
          kept := kept + [items[i]];
        }
        i := i + 1;
      }
      items := kept;
    }
  }

  lemma {:induction false} FilteredShorter<T>(items: seq<T>, keep: T -> bool)
    ensures |Filtered(items, keep)| <= |items|
    ensures forall e :: e in Filtered(items, keep) <==> e in items && keep(e)
  {
    if items != [] {
      FilteredShorter(items[1..], keep);
    }
  }

  // ---- the table -----------------------------------------------------------------------------------------------------------------

  function Unfinished(finished: set<nat>): Entry -> bool {
    (e: Entry) => e.id !in finished
  }

  /** The table's room: what was given up for a handshake, and what is left. */
  ghost predicate MakesRoom(table: seq<Entry>, most: nat, given: Option<Entry>, left: seq<Entry>) {
    if |table| < most || table == [] then given.None? && left == table
    else
      exists source: Source ::
        && source in Sources(table) && (forall other :: other in Sources(table) ==> Held(table, other) <= Held(table, source))
        && FirstOf(table, source) < |table|
        && given == Some(table[FirstOf(table, source)]) && left == Without(table, FirstOf(table, source))
  }

  class Pending {
    const queue: Bounded<Entry>

    ghost predicate Valid()
      reads this, queue
    {
      queue.Valid() && queue.most > 0
    }

    constructor (most: nat)
      requires most > 0
      ensures Valid() && fresh(queue) && queue.items == [] && queue.most == most
    {
      queue := new Bounded(most);
    }

    /** Forget those finished; then whether a new one would give one up. */
    method Crowded(finished: set<nat>) returns (crowded: bool)
      requires Valid()
      modifies queue
      ensures Valid() && queue.items == Filtered(old(queue.items), Unfinished(finished))
      ensures crowded <==> |queue.items| == queue.most
    {
      queue.Retain(Unfinished(finished));
      crowded := queue.Full();
    }

    /** Room for a handshake: the one given up, the oldest of the address that holds the most, if the table is full. */
    method Room() returns (given: Option<Entry>)
      requires Valid()
      modifies queue
      ensures Valid() && MakesRoom(old(queue.items), queue.most, given, queue.items) && |queue.items| < queue.most
    {
      given := None;
      if !queue.Full() {
        return;
      }
      var counts: map<Source, nat> := map[];
      var i := 0;
      while i < |queue.items|
        invariant 0 <= i <= |queue.items| && queue.items == old(queue.items)
        invariant Counted(counts, queue.items[..i])
      {
        var source := queue.items[i].source;
        CountedMore(counts, queue.items[..i], queue.items[i]);
        assert queue.items[..i + 1] == queue.items[..i] + [queue.items[i]];
        counts := counts[source := (if source in counts then counts[source] else 0) + 1];
        i := i + 1;
      }
      assert queue.items[..i] == queue.items;
      assert queue.items[0].source in counts;
      SomeMost(counts);
      var source :| Most(counts, source);
      SourceIn(queue.items, source);
      var at := FirstOf(queue.items, source);
      var taken := queue.TakeAt(at);
      given := Some(taken);
    }

    /** A handshake arrives: those finished forgotten, room made, and the new one last. */
    method Arrive(entry: Entry, finished: set<nat>) returns (given: Option<Entry>)
      requires Valid()
      modifies queue
      ensures Valid() && Arrives(old(queue.items), queue.most, entry, finished, given, queue.items)
    {
      var _ := Crowded(finished);
      ghost var kept := queue.items;
      given := Room();
      ghost var left := queue.items;
      queue.PushEvicting(entry);
      assert MakesRoom(kept, queue.most, given, left) && queue.items == left + [entry];
    }
  }

  ghost predicate Arrives(table: seq<Entry>, most: nat, entry: Entry, finished: set<nat>, given: Option<Entry>, after: seq<Entry>) {
    after != [] && after[|after| - 1] == entry
    && MakesRoom(Filtered(table, Unfinished(finished)), most, given, after[..|after| - 1])
  }

  // ---- counting --------------------------------------------------------------------------------------------------------------------

  ghost predicate Counted(counts: map<Source, nat>, table: seq<Entry>) {
    && counts.Keys == Sources(table)
    && forall source :: source in counts ==> counts[source] == Held(table, source)
  }

  predicate Most(counts: map<Source, nat>, source: Source) {
    source in counts && forall other :: other in counts ==> counts[other] <= counts[source]
  }

  lemma {:induction false} HeldMore(table: seq<Entry>, entry: Entry, source: Source)
    ensures Held(table + [entry], source) == Held(table, source) + (if entry.source == source then 1 else 0)
    decreases |table|
  {
    if table == [] {
      assert table + [entry] == [entry];
    } else {
      assert (table + [entry])[1..] == table[1..] + [entry];
      HeldMore(table[1..], entry, source);
    }
  }

  lemma {:induction false} NoneHeld(table: seq<Entry>, source: Source)
    ensures Held(table, source) == 0 <==> source !in Sources(table)
    decreases |table|
  {
    if table != [] {
      NoneHeld(table[1..], source);
      assert forall e :: e in table <==> e == table[0] || e in table[1..];
    }
  }

  lemma CountedMore(counts: map<Source, nat>, table: seq<Entry>, entry: Entry)
    requires Counted(counts, table)
    ensures Counted(counts[entry.source := (if entry.source in counts then counts[entry.source] else 0) + 1], table + [entry])
  {
    var now := counts[entry.source := (if entry.source in counts then counts[entry.source] else 0) + 1];
    assert forall e :: e in table + [entry] <==> e in table || e == entry;
    assert Sources(table + [entry]) == Sources(table) + {entry.source};
    forall source | source in now
      ensures now[source] == Held(table + [entry], source)
    {
      HeldMore(table, entry, source);
      NoneHeld(table, source);
    }
  }

  lemma {:induction false} SomeMost(counts: map<Source, nat>)
    requires counts.Keys != {}
    ensures exists source :: Most(counts, source)
    decreases |counts|
  {
    var one :| one in counts;
    var rest := map s | s in counts && s != one :: counts[s];
    assert rest.Keys == counts.Keys - {one};
    if rest.Keys == {} {
      assert counts.Keys == {one};
      assert Most(counts, one);
    } else {
      assert |rest.Keys| < |counts.Keys|;
      SomeMost(rest);
      var best :| Most(rest, best);
      assert forall s :: s in counts ==> s == one || (s in rest && rest[s] == counts[s]);
      assert Most(counts, if counts[one] >= counts[best] then one else best);
    }
  }

  lemma SourceIn(table: seq<Entry>, source: Source)
    requires source in Sources(table)
    ensures FirstOf(table, source) < |table|
  {
    var e :| e in table && e.source == source;
    var i :| 0 <= i < |table| && table[i] == e;
  }
}
