/** Waiting for a text in a job's output: searched as it grows, each byte once, until it is there or the job ends. */
module Awaited {
  import opened Bytes
  import opened Logs
  import opened Follow

  predicate OccursAt(output: seq<byte>, text: seq<byte>, p: nat) {
    p + |text| <= |output| && output[p..p + |text|] == text
  }

  predicate Occurs(output: seq<byte>, text: seq<byte>) {
    exists p :: 0 <= p <= |output| && OccursAt(output, text, p)
  }

  /** Whether `text` is in the output kept from byte `from` on, and where a search goes on from: past where it could
      begin now. */
  function Found(log: Kept, text: seq<byte>, from: nat): (bool, nat) {
    var (skipped, kept) := Read(log, from, |log.bytes|);
    var at := from + skipped;
    var overlap := if |text| > 0 then |text| - 1 else 0;
    (text != [] && Occurs(kept, text), Larger(at, if at + |kept| >= overlap then at + |kept| - overlap else 0))
  }

  function Span(from: nat, end: nat): (places: set<nat>)
    ensures forall p: nat :: p in places <==> from <= p < end
    decreases end - from
  {
    if from >= end then {} else {from} + Span(from + 1, end)
  }

  /** The places a search skips: dropped before they were searched. */
  function Skipped(log: Kept, from: nat): set<nat> {
    Span(from, Dropped(log))
  }

  /** A job as the server keeps it. */
  class RunningJob {
    const log: Log
    var published: nat
    var exit: Option<nat>

    ghost predicate Valid()
      reads this, log
    {
      log.Valid() && JobSound(State())
    }

    ghost function State(): Job
      reads this, log
    {
      Job(log.State(), log.written, published, exit)
    }

    constructor (budget: nat)
      ensures Valid() && fresh(log) && State() == Job(Kept([], 0, budget), [], 0, None)
    {
      log := new Log(budget);
      published, exit := 0, None;
    }

    method Append(bytes: seq<byte>)
      requires Valid() && exit.None?
      modifies this, log
      ensures Valid() && State() == Done(Done(old(State()), Writes(bytes)), Publishes)
    {
      log.Append(bytes);
      published := log.total;
    }

    method End(code: nat)
      requires Valid() && MayDo(State(), Ends(code))
      modifies this
      ensures Valid() && State() == Done(old(State()), Ends(code))
    {
      exit := Some(code);
    }

    /** Whether `text` is in the output from `from` on, its windows looked at one after another. */
    method Find(text: seq<byte>, from: nat) returns (found: bool, next: nat)
      requires Valid() && from <= log.total
      ensures (found, next) == Found(State().log, text, from)
    {
      hide Occurs, Read, Dropped, Holds, JobSound;
      var skipped, kept := log.ReadFrom(from, |log.kept|);
      var at := from + skipped;
      var overlap := if |text| > 0 then |text| - 1 else 0;
      next := Larger(at, if at + |kept| >= overlap then at + |kept| - overlap else 0);
      found := AnyWindow(kept, text);
    }
  }

  /** Whether some window of `kept` is the text. */
  method AnyWindow(kept: seq<byte>, text: seq<byte>) returns (found: bool)
    ensures found <==> text != [] && Occurs(kept, text)
  {
    found := false;
    if text == [] {
      return;
    }
    var i := 0;
    while i + |text| <= |kept|
      invariant 0 <= i <= |kept|
      invariant forall p: nat :: p < i ==> !OccursAt(kept, text, p)
    {
      if kept[i..i + |text|] == text {
        assert OccursAt(kept, text, i);
        return true;
      }
      i := i + 1;
    }
  }

  // ---- one search ----------------------------------------------------------------------------------------------------------

  /** A search tells whether the text begins at a place kept, from `from` on, and goes on past every place it settled:
      one that is skipped, or where the text can be seen not to begin, whatever is written later. */
  lemma FoundTells(log: Kept, output: seq<byte>, text: seq<byte>, from: nat)
    requires Holds(log, output) && from <= |output| && text != []
    ensures var (found, next) := Found(log, text, from);
            && from <= next <= |output|
            && (found <==> exists p: nat :: Larger(from, Dropped(log)) <= p <= |output| && OccursAt(output, text, p))
            && (forall p: nat :: from <= p < next && p !in Skipped(log, from) ==> p + |text| <= |output|)
            && next + |text| > |output|
  {
    hide Read, OccursAt, Occurs, Holds;
    var (skipped, kept) := Read(log, from, |log.bytes|);
    RestRead(log, output, from);
    OccursFrom(output, text, from + skipped);
  }

  lemma RestRead(log: Kept, output: seq<byte>, from: nat)
    requires Holds(log, output) && from <= |output|
    ensures var (skipped, kept) := Read(log, from, |log.bytes|);
            && from + skipped == Larger(from, Dropped(log)) && from + skipped <= |output| && kept == output[from + skipped..]
  {
    hide Read;
    ReadTells(log, output, from, |log.bytes|);
    var (skipped, kept) := Read(log, from, |log.bytes|);
    assert from + skipped + |kept| == |output|;
    assert output[from + skipped..] == output[from + skipped..|output|];
  }

  /** The text is in the output from `at` on if and only if it begins somewhere there. */
  lemma OccursFrom(output: seq<byte>, text: seq<byte>, at: nat)
    requires at <= |output|
    ensures Occurs(output[at..], text) <==> exists p: nat :: at <= p <= |output| && OccursAt(output, text, p)
  {
    var kept := output[at..];
    if Occurs(kept, text) {
      var p :| 0 <= p <= |kept| && OccursAt(kept, text, p);
      assert output[p + at..p + at + |text|] == kept[p..p + |text|];
      assert OccursAt(output, text, p + at);
    }
    if exists p: nat :: at <= p <= |output| && OccursAt(output, text, p) {
      var p: nat :| at <= p <= |output| && OccursAt(output, text, p);
      assert output[p..p + |text|] == kept[p - at..p - at + |text|];
      assert OccursAt(kept, text, p - at);
    }
  }

  // ---- the wait ----------------------------------------------------------------------------------------------------------------

  datatype Answer = Text | Ended(code: nat)

  datatype Stage = Look | Search | Decide | Answered(answer: Answer)

  /** A wait for a text: where it searches from, the exit it saw last, and the places never searched. */
  datatype Waiter = Waiter(from: nat, exit: Option<nat>, stage: Stage, missed: set<nat>)

  const WAITING := Waiter(0, None, Look, {})

  function Waits(w: Waiter, text: seq<byte>, job: Job): Waiter {
    match w.stage
    case Look => w.(exit := job.exit, stage := Search)
    case Search =>
      var (found, next) := Found(job.log, text, w.from);
      w.(from := next, missed := w.missed + Skipped(job.log, w.from), stage := if found then Answered(Text) else Decide)
    case Decide => w.(stage := if w.exit.Some? then Answered(Answer.Ended(w.exit.value)) else Look)
    case Answered(_) => w
  }

  /** A wait beside the job it waits on: an event is the runner's, or the waiter's next step. */
  datatype Scene = Scene(job: Job, waiter: Waiter)

  predicate MayBe(s: Scene, event: Event) {
    event.Runner? ==> MayDo(s.job, event.what)
  }

  function Then(s: Scene, text: seq<byte>, event: Event): Scene
    requires MayBe(s, event)
  {
    match event
    case Runner(what) => s.(job := Done(s.job, what))
    case Sender => s.(waiter := Waits(s.waiter, text, s.job))
  }

  predicate Plays(s: Scene, text: seq<byte>, events: seq<Event>)
    decreases |events|
  {
    events == [] || (MayBe(s, events[0]) && Plays(Then(s, text, events[0]), text, events[1..]))
  }

  function Played(s: Scene, text: seq<byte>, events: seq<Event>): Scene
    requires Plays(s, text, events)
    decreases |events|
  {
    if events == [] then s else Played(Then(s, text, events[0]), text, events[1..])
  }

  // ---- what a wait knows -------------------------------------------------------------------------------------------------------

  /** At `p` the text can be seen not to begin. */
  predicate Absent(output: seq<byte>, text: seq<byte>, p: nat) {
    p + |text| <= |output| && !OccursAt(output, text, p)
  }

  /** Every place before where the search goes on is searched or missed, and only bytes dropped are missed. */
  ghost predicate Searched(s: Scene, text: seq<byte>) {
    && JobSound(s.job) && s.waiter.from <= |s.job.output|
    && (forall p: nat :: p in s.waiter.missed ==> p < Dropped(s.job.log))
    && (!s.waiter.stage.Answered? ==> Covers(s, text))
    && (s.waiter.exit.Some? ==> s.waiter.exit == s.job.exit)
    && (s.waiter.stage == Decide && s.waiter.exit.Some? ==> s.waiter.from + |text| > |s.job.output|)
    && (s.waiter.stage.Answered? ==> Right(s, text, s.waiter.stage.answer))
  }

  ghost predicate Covers(s: Scene, text: seq<byte>) {
    forall p: nat :: p < s.waiter.from && p !in s.waiter.missed ==> Absent(s.job.output, text, p)
  }

  /** What an answer says is so: the text is there; or the job ended with that status, and the text begins nowhere in
      its output but at bytes dropped before they were searched. */
  ghost predicate Right(s: Scene, text: seq<byte>, answer: Answer) {
    match answer
    case Text => Occurs(s.job.output, text)
    case Ended(code) => s.job.exit == Some(code) && forall p: nat :: OccursAt(s.job.output, text, p) ==> p in s.waiter.missed
  }

  lemma WroteSearched(s: Scene, text: seq<byte>, what: Doing)
    requires Searched(s, text) && MayDo(s.job, what)
    ensures Searched(s.(job := Done(s.job, what)), text)
  {
    if what.Writes? {
      var output := s.job.output;
      var more := output + what.bytes;
      AppendKeeps(s.job.log, output, what.bytes);
      forall p: nat | p + |text| <= |output|
        ensures OccursAt(more, text, p) <==> OccursAt(output, text, p)
      {
        assert more[p..p + |text|] == output[p..p + |text|];
      }
      if s.waiter.stage == Answered(Text) {
        var p :| 0 <= p <= |output| && OccursAt(output, text, p);
        assert OccursAt(more, text, p);
      }
    }
  }

  lemma SkippedAre(log: Kept, from: nat)
    ensures forall p: nat :: p in Skipped(log, from) <==> from <= p < Dropped(log)
  {
  }

  lemma FoundThere(output: seq<byte>, text: seq<byte>, from: nat)
    ensures (exists p: nat :: from <= p <= |output| && OccursAt(output, text, p)) ==> Occurs(output, text)
  {
  }

  lemma SearchSearched(s: Scene, text: seq<byte>)
    requires Searched(s, text) && text != [] && s.waiter.stage == Search
    ensures Searched(s.(waiter := Waits(s.waiter, text, s.job)), text)
  {
    hide Found, Holds, Skipped, Occurs, OccursAt;
    FoundTells(s.job.log, s.job.output, text, s.waiter.from);
    SkippedAre(s.job.log, s.waiter.from);
    FoundThere(s.job.output, text, Larger(s.waiter.from, Dropped(s.job.log)));
    var t := s.(waiter := Waits(s.waiter, text, s.job));
    if t.waiter.stage == Decide {
      forall p: nat | p < t.waiter.from && p !in t.waiter.missed
        ensures Absent(t.job.output, text, p)
      {
        if p < s.waiter.from {
          assert Absent(s.job.output, text, p);
        } else {
          assert p !in Skipped(s.job.log, s.waiter.from);
        }
      }
    }
  }

  lemma WaitsSearched(s: Scene, text: seq<byte>)
    requires Searched(s, text) && text != []
    ensures Searched(s.(waiter := Waits(s.waiter, text, s.job)), text)
  {
    if s.waiter.stage == Search {
      SearchSearched(s, text);
    } else if s.waiter.stage == Decide && s.waiter.exit.Some? {
      forall p: nat | OccursAt(s.job.output, text, p)
        ensures p in s.waiter.missed
      {
        assert p < s.waiter.from;
      }
    }
  }

  lemma {:induction false} PlayedSearched(s: Scene, text: seq<byte>, events: seq<Event>)
    requires Searched(s, text) && text != [] && Plays(s, text, events)
    ensures Searched(Played(s, text, events), text)
    decreases |events|
  {
    if events != [] {
      match events[0] {
        case Runner(what) => WroteSearched(s, text, what);
        case Sender => WaitsSearched(s, text);
      }
      PlayedSearched(Then(s, text, events[0]), text, events[1..]);
    }
  }

  /** However the job's output and the searches interleave, the answer to a wait is right: `Text` only if the text is
      in the output, `Ended` only if the job ended and the text never occurred but at bytes dropped before they were
      searched. */
  lemma WaitAnswersRight(job: Job, text: seq<byte>, events: seq<Event>)
    requires JobSound(job) && text != [] && Plays(Scene(job, WAITING), text, events)
    ensures var s := Played(Scene(job, WAITING), text, events);
            s.waiter.stage.Answered? ==> Right(s, text, s.waiter.stage.answer)
    ensures forall p :: p in Played(Scene(job, WAITING), text, events).waiter.missed
              ==> p < Dropped(Played(Scene(job, WAITING), text, events).job.log)
  {
    PlayedSearched(Scene(job, WAITING), text, events);
    var s := Played(Scene(job, WAITING), text, events);
    assert Searched(s, text);
  }

  /** With nothing dropped the answer is exact: `Text` if and only if the text is in the output. */
  lemma WaitExact(job: Job, text: seq<byte>, events: seq<Event>)
    requires JobSound(job) && text != [] && Plays(Scene(job, WAITING), text, events)
    requires var s := Played(Scene(job, WAITING), text, events);
             s.waiter.stage.Answered? && Dropped(s.job.log) == 0
    ensures var s := Played(Scene(job, WAITING), text, events);
            s.waiter.stage.answer.Text? <==> Occurs(s.job.output, text)
  {
    WaitAnswersRight(job, text, events);
    var s := Played(Scene(job, WAITING), text, events);
    if Occurs(s.job.output, text) {
      var p :| 0 <= p <= |s.job.output| && OccursAt(s.job.output, text, p);
      assert s.waiter.stage.answer.Ended? ==> p in s.waiter.missed;
    }
  }

  // ---- and comes ---------------------------------------------------------------------------------------------------------------

  /** How many steps of its own a wait takes at most once the job ended: it looks once more if it looked before. */
  function StepsLeft(w: Waiter): nat {
    match w.stage
    case Answered(_) => 0
    case Decide => if w.exit.Some? then 1 else 4
    case Search => if w.exit.Some? then 2 else 5
    case Look => 3
  }

  /** The steps of the wait among the events. */
  function Turns(events: seq<Event>): nat {
    if events == [] then 0 else Turns(events[1..]) + if events[0].Sender? then 1 else 0
  }

  /** Once the job ended, a wait is answered within five steps of its own, whatever the runner does beside it. */
  lemma {:induction false} WaitComes(s: Scene, text: seq<byte>, events: seq<Event>)
    requires s.job.exit.Some? && Plays(s, text, events)
    ensures Turns(events) >= 5 ==> Played(s, text, events).waiter.stage.Answered?
    ensures Turns(events) + StepsLeft(Played(s, text, events).waiter) <= StepsLeft(s.waiter)
            || Played(s, text, events).waiter.stage.Answered?
    decreases |events|
  {
    hide Found, Skipped;
    if events != [] {
      WaitComes(Then(s, text, events[0]), text, events[1..]);
    }
  }
}
