/** What the receiving end as written comes to on the items a sender sends: the merge, or a tree
    nothing is lost in. */
module Landed {
  import opened Bytes
  import opened Files
  import opened Walk
  import opened Course
  import opened Receive
  import opened Landing
  import opened Heads
  import opened Protocol
  import opened Tally
  import opened Runs
  import opened Converge
  import opened Cut
  import L = Landings

  /** Where a stream of a sender's items leaves the receiver. */
  lemma {:induction false} StreamLands(copy: Copy, pos: Pos, s: State, items: seq<Item>, answers: seq<Answer>)
    returns (far: Pos, t: State)
    requires Starts(copy) && IsAt(copy, pos, s) && Leads(copy, pos, items).Some?
    ensures IsAt(copy, far, t)
    ensures var r := L.Plays(s, items, answers);
            && (r.done.Some? ==>
                  && far.at.None? && AllSent(copy, Reached(copy, far.k)) && far.m == |FilesAt(copy, far)|
                  && r.files == t.files && r.done == Some(t.summary) && r.fail.None?
                  && Leads(copy, pos, items).value.ending == Finished)
            && (r.done.None? ==> r.fail.Some? && LeftAt(copy, far, r.files))
    decreases |items|
  {
    hide Received, After, Stands, Tallies, LeftAt, Reached, AnswersFor;
    if items == [] {
      far, t := pos, s;
      IsLeft(copy, pos, s);
    } else {
      LeadsTo(copy, pos, items, Leads(copy, pos, items).value);
      ItemComes(copy, pos, items[0], s);
      var next := After(copy, pos, items[0]).value;
      match Received(s, items[0])
      case On(u, answer) =>
        far, t := StreamLands(copy, next, u, items[1..], if answer.Some? then answers + [answer.value] else answers);
      case Over(files, summary, fail) =>
        far, t := pos, s;
        FinishedAt(copy, pos, items[0]);
    }
  }

  /** The receiver's run over what a sender sends, cut anywhere: done only at the end, with the merge
      there; else with nothing lost. */
  lemma RunLands(copy: Copy, items: seq<Item>, p: Path)
    requires Starts(copy) && !copy.opts.dryRun && Leads(copy, START, items).Some? && Plain(p)
    ensures var r := L.Plays(Begin(copy), items, []);
            && (r.done.Some? ==> Leads(copy, START, items).value.ending == Finished && Get(r.files, p) == Merged(copy, p))
            && (r.done.None? ==> LeavesAt(copy, p, Get(r.files, p)))
  {
    hide L.Plays, Leads, Merged, LeavesAt, Reached, Good, Logged, Tallies;
    BeginsSound(copy);
    var far, t := StreamLands(copy, START, Begin(copy), items, []);
    if L.Plays(Begin(copy), items, []).done.Some? {
      ReachedGood(copy, far.k);
      CompleteMerged(copy, Reached(copy, far.k), far.m, p);
      assert FileOk(copy, Reached(copy, far.k), far.m, t.files, p);
    } else {
      LeftSafe(copy, far, L.Plays(Begin(copy), items, []).files, p);
    }
  }
}
