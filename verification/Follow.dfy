/** A job's log followed as the job writes it: the follower's messages tile the output. */
module Follow {
  import opened Bytes
  import opened Logs

  const MAX_LOG_CHUNK := 65536

  /** A job: its log, all it wrote, and its status as published. */
  datatype Job = Job(log: Kept, output: seq<byte>, published: nat, exit: Option<nat>)

  /** What the job's runner does: it appends what the job wrote, publishes how much, and ends it once all of it is
      published. */
  datatype Doing = Writes(bytes: seq<byte>) | Publishes | Ends(code: nat)

  predicate MayDo(job: Job, what: Doing) {
    match what
    case Writes(_) => job.exit.None?
    case Publishes => true
    case Ends(_) => job.exit.None? && job.published == job.log.total
  }

  function Done(job: Job, what: Doing): Job
    requires MayDo(job, what)
  {
    match what
    case Writes(bytes) => job.(log := Appended(job.log, bytes), output := job.output + bytes)
    case Publishes => job.(published := job.log.total)
    case Ends(code) => job.(exit := Some(code))
  }

  datatype Message = Cut(lines: nat) | Lost(count: nat) | Data(bytes: seq<byte>) | End(exit: Option<nat>)

  datatype Phase = Looking | Reading | Deciding | Finished

  /** A follower: how far it sent, the status it saw last, and what it sent. */
  datatype Follower = Follower(at: nat, seen: nat, exit: Option<nat>, follow: bool, phase: Phase, sent: seq<Message>)

  /** A follower that begins: at the log's first byte, or where its last lines begin. */
  function Begun(job: Job, follow: bool, tail: Option<nat>): Follower {
    var (at, cut) := if tail.Some? then Tail(job.log, tail.value) else (0, 0);
    Follower(at, 0, None, follow, Looking, if cut > 0 then [Cut(cut)] else [])
  }

  /** Its next step: look at the status, send a chunk, or decide whether that was all. */
  function Stepped(f: Follower, job: Job): Follower {
    match f.phase
    case Looking => f.(seen := job.published, exit := job.exit, phase := Reading)
    case Reading =>
      var (skipped, chunk) := Read(job.log, f.at, MAX_LOG_CHUNK);
      var told := if skipped > 0 then f.sent + [Lost(skipped)] else f.sent;
      if chunk == [] then f.(at := f.at + skipped, sent := told, phase := Deciding)
      else f.(at := f.at + skipped + |chunk|, sent := told + [Data(chunk)])
    case Deciding =>
      if (f.exit.Some? && f.at >= f.seen) || !f.follow
      then f.(sent := f.sent + [End(if f.at >= f.seen then f.exit else None)], phase := Finished)
      else f.(phase := Looking)
    case Finished => f
  }

  /** What happens next: the job's runner, or the follower. */
  datatype Event = Runner(what: Doing) | Sender

  datatype System = System(job: Job, follower: Follower)

  predicate May(s: System, event: Event) {
    event.Runner? ==> MayDo(s.job, event.what)
  }

  function Next(s: System, event: Event): System
    requires May(s, event)
  {
    match event
    case Runner(what) => s.(job := Done(s.job, what))
    case Sender => s.(follower := Stepped(s.follower, s.job))
  }

  /** A run: each event one that may happen. */
  predicate Runs(s: System, events: seq<Event>)
    decreases |events|
  {
    events == [] || (May(s, events[0]) && Runs(Next(s, events[0]), events[1..]))
  }

  function After(s: System, events: seq<Event>): System
    requires Runs(s, events)
    decreases |events|
  {
    if events == [] then s else After(Next(s, events[0]), events[1..])
  }

  // ---- tiles -----------------------------------------------------------------------------------------------------------

  /** The messages cover the output from `start` to `at` exactly, in order, with no gap and no overlap: each piece of
      data is the output there, and what is told as lost is dropped. */
  predicate Tiles(sent: seq<Message>, output: seq<byte>, dropped: nat, start: nat, at: nat)
    decreases |sent|
  {
    if sent == [] then start == at
    else
      var init := sent[..|sent| - 1];
      match sent[|sent| - 1]
      case Cut(_) => Tiles(init, output, dropped, start, at)
      case End(_) => Tiles(init, output, dropped, start, at)
      case Lost(count) => 0 < count <= at <= dropped && Tiles(init, output, dropped, start, at - count)
      case Data(bytes) => 0 < |bytes| <= at <= |output| && bytes == output[at - |bytes|..at]
                          && Tiles(init, output, dropped, start, at - |bytes|)
  }

  lemma {:induction false} TilesGrow(sent: seq<Message>, output: seq<byte>, more: seq<byte>, dropped: nat, further: nat, start: nat, at: nat)
    requires Tiles(sent, output, dropped, start, at) && dropped <= further
    ensures Tiles(sent, output + more, further, start, at)
    decreases |sent|
  {
    if sent != [] {
      var init := sent[..|sent| - 1];
      match sent[|sent| - 1] {
        case Cut(_) => TilesGrow(init, output, more, dropped, further, start, at);
        case End(_) => TilesGrow(init, output, more, dropped, further, start, at);
        case Lost(count) => TilesGrow(init, output, more, dropped, further, start, at - count);
        case Data(bytes) =>
          assert (output + more)[at - |bytes|..at] == output[at - |bytes|..at];
          TilesGrow(init, output, more, dropped, further, start, at - |bytes|);
      }
    }
  }

  function Told(sent: seq<Message>): seq<byte>
    decreases |sent|
  {
    if sent == [] then [] else Told(sent[..|sent| - 1]) + (if sent[|sent| - 1].Data? then sent[|sent| - 1].bytes else [])
  }

  predicate TellsLost(sent: seq<Message>) {
    exists i :: 0 <= i < |sent| && sent[i].Lost?
  }

  /** With nothing lost, the data sent are the output from where the follower began. */
  lemma {:induction false} TilesWhole(sent: seq<Message>, output: seq<byte>, dropped: nat, start: nat, at: nat)
    requires Tiles(sent, output, dropped, start, at) && !TellsLost(sent) && start <= |output|
    ensures start <= at <= |output| && Told(sent) == output[start..at]
    decreases |sent|
  {
    if sent != [] {
      var init := sent[..|sent| - 1];
      assert forall i :: 0 <= i < |init| ==> init[i] == sent[i];
      assert sent[|sent| - 1] in sent;
      var before := if sent[|sent| - 1].Data? then at - |sent[|sent| - 1].bytes| else at;
      TilesWhole(init, output, dropped, start, before);
      assert output[start..at] == output[start..before] + output[before..at];
    }
  }

  // ---- the invariant -----------------------------------------------------------------------------------------------------

  predicate JobSound(job: Job) {
    && Holds(job.log, job.output) && job.published <= job.log.total
    && (job.exit.Some? ==> job.published == job.log.total)
  }

  predicate NoEnd(sent: seq<Message>) {
    forall i :: 0 <= i < |sent| ==> !sent[i].End?
  }

  predicate FollowerSound(f: Follower, job: Job, start: nat) {
    && f.at <= |job.output| && f.seen <= |job.output|
    && (f.exit.Some? ==> f.exit == job.exit && f.seen == |job.output|)
    && Tiles(f.sent, job.output, Dropped(job.log), start, f.at)
    && NoEnd(if f.phase == Finished && f.sent != [] then f.sent[..|f.sent| - 1] else f.sent)
    && (f.phase == Deciding && f.exit.Some? ==> f.at == |job.output|)
    && (f.phase == Finished ==> f.sent != [] && f.sent[|f.sent| - 1].End? && Truthful(f, job))
  }

  /** An end with a status comes only once the job ended and all its output is covered; and a follower that was to
      follow ends with one. */
  predicate Truthful(f: Follower, job: Job)
    requires f.sent != [] && f.sent[|f.sent| - 1].End?
  {
    var exit := f.sent[|f.sent| - 1].exit;
    && (exit.Some? ==> exit == job.exit && f.at == |job.output|)
    && (f.follow ==> exit.Some?)
  }

  ghost predicate Sound(s: System, start: nat) {
    JobSound(s.job) && FollowerSound(s.follower, s.job, start)
  }

  lemma DoneSound(s: System, start: nat, what: Doing)
    requires Sound(s, start) && MayDo(s.job, what)
    ensures Sound(s.(job := Done(s.job, what)), start)
  {
    if what.Writes? {
      AppendKeeps(s.job.log, s.job.output, what.bytes);
      TilesGrow(s.follower.sent, s.job.output, what.bytes, Dropped(s.job.log), Dropped(Appended(s.job.log, what.bytes)),
                start, s.follower.at);
    }
  }

  lemma ReadSound(s: System, start: nat)
    requires Sound(s, start) && s.follower.phase == Reading
    ensures Sound(s.(follower := Stepped(s.follower, s.job)), start)
  {
    hide Read, Tiles, Holds, Dropped, NoEnd;
    var f, job := s.follower, s.job;
    var (skipped, chunk) := Read(job.log, f.at, MAX_LOG_CHUNK);
    ReadFacts(job, f.at);
    ReadTiles(job, f.sent, start, f.at, skipped, chunk);
  }

  lemma ReadFacts(job: Job, at: nat)
    requires Holds(job.log, job.output) && at <= |job.output|
    ensures var (skipped, chunk) := Read(job.log, at, MAX_LOG_CHUNK);
            && at + skipped + |chunk| <= |job.output| && (skipped > 0 ==> at + skipped <= Dropped(job.log))
            && chunk == job.output[at + skipped..at + skipped + |chunk|]
            && (chunk == [] ==> at + skipped == |job.output|)
  {
    ReadTells(job.log, job.output, at, MAX_LOG_CHUNK);
  }

  /** A chunk read, and what was lost before it, tile on. */
  lemma ReadTiles(job: Job, sent: seq<Message>, start: nat, at: nat, skipped: nat, chunk: seq<byte>)
    requires Tiles(sent, job.output, Dropped(job.log), start, at) && at + skipped + |chunk| <= |job.output|
    requires skipped > 0 ==> at + skipped <= Dropped(job.log)
    requires chunk == job.output[at + skipped..at + skipped + |chunk|]
    requires NoEnd(sent)
    ensures var told := if skipped > 0 then sent + [Lost(skipped)] else sent;
            && NoEnd(told) && NoEnd(told + [Data(chunk)])
            && Tiles(told, job.output, Dropped(job.log), start, at + skipped)
            && (chunk != [] ==> Tiles(told + [Data(chunk)], job.output, Dropped(job.log), start, at + skipped + |chunk|))
  {
    var told := if skipped > 0 then sent + [Lost(skipped)] else sent;
    assert skipped > 0 ==> told[..|told| - 1] == sent;
    assert (told + [Data(chunk)])[..|told|] == told;
  }

  lemma SteppedSound(s: System, start: nat)
    requires Sound(s, start)
    ensures Sound(s.(follower := Stepped(s.follower, s.job)), start)
  {
    var f := s.follower;
    if f.phase == Reading {
      ReadSound(s, start);
    } else if f.phase == Deciding {
      var t := Stepped(f, s.job);
      if t.phase == Finished {
        assert t.sent[..|t.sent| - 1] == f.sent;
      }
    }
  }

  lemma {:induction false} RunSound(s: System, start: nat, events: seq<Event>)
    requires Sound(s, start) && Runs(s, events)
    ensures Sound(After(s, events), start)
    decreases |events|
  {
    if events != [] {
      match events[0] {
        case Runner(what) => DoneSound(s, start, what);
        case Sender => SteppedSound(s, start);
      }
      RunSound(Next(s, events[0]), start, events[1..]);
    }
  }

  // ---- what the reader gets ----------------------------------------------------------------------------------------------

  function StartOf(job: Job, tail: Option<nat>): nat {
    if tail.Some? then Tail(job.log, tail.value).0 else 0
  }

  lemma BegunSound(job: Job, follow: bool, tail: Option<nat>)
    requires JobSound(job)
    ensures Sound(System(job, Begun(job, follow, tail)), StartOf(job, tail))
  {
    var f := Begun(job, follow, tail);
    if f.sent != [] {
      assert f.sent[..0] == [];
    }
  }

  /** However the job's writing and the sending interleave, from any job at any time: the messages tile its output
      from where the follower began; the end is told last; and a status only with all of the output covered. */
  lemma FollowerTiles(job: Job, follow: bool, tail: Option<nat>, events: seq<Event>)
    requires JobSound(job) && Runs(System(job, Begun(job, follow, tail)), events)
    ensures var s := After(System(job, Begun(job, follow, tail)), events);
            && FollowerSound(s.follower, s.job, StartOf(job, tail)) && JobSound(s.job)
  {
    BegunSound(job, follow, tail);
    var begun := System(job, Begun(job, follow, tail));
    RunSound(begun, StartOf(job, tail), events);
    assert Sound(After(begun, events), StartOf(job, tail));
  }

  /** A job whose log dropped nothing is followed whole: at the follower's end the data are the job's output, to the
      byte. */
  lemma WholeWhenNoneDropped(job: Job, events: seq<Event>)
    requires JobSound(job) && Runs(System(job, Begun(job, true, None)), events)
    requires var s := After(System(job, Begun(job, true, None)), events);
             s.follower.phase == Finished && Dropped(s.job.log) == 0
    ensures var s := After(System(job, Begun(job, true, None)), events);
            s.job.exit.Some? && Told(s.follower.sent) == s.job.output
  {
    FollowerTiles(job, true, None, events);
    FollowKept(System(job, Begun(job, true, None)), events);
    var s := After(System(job, Begun(job, true, None)), events);
    NoneLost(s.follower.sent, s.job.output, 0, s.follower.at);
    TilesWhole(s.follower.sent, s.job.output, 0, 0, s.follower.at);
    assert s.job.output[0..|s.job.output|] == s.job.output;
  }

  lemma {:induction false} FollowKept(s: System, events: seq<Event>)
    requires Runs(s, events)
    ensures After(s, events).follower.follow == s.follower.follow
    decreases |events|
  {
    if events != [] {
      FollowKept(Next(s, events[0]), events[1..]);
    }
  }

  /** Nothing is told as lost of a log that dropped nothing. */
  lemma {:induction false} NoneLost(sent: seq<Message>, output: seq<byte>, start: nat, at: nat)
    requires Tiles(sent, output, 0, start, at)
    ensures !TellsLost(sent)
    decreases |sent|
  {
    if sent != [] {
      var last := sent[|sent| - 1];
      var init := sent[..|sent| - 1];
      NoneLost(init, output, start, if last.Data? then at - |last.bytes| else at);
      assert forall i :: 0 <= i < |init| ==> init[i] == sent[i];
    }
  }

  // ---- the follower ends ---------------------------------------------------------------------------------------------------

  function Steps(s: System, n: nat): System
    decreases n
  {
    if n == 0 then s else Steps(Next(s, Sender), n - 1)
  }

  /** Once the job has ended, the follower alone comes to its end. */
  lemma {:induction false} FollowerEnds(s: System, start: nat)
    requires Sound(s, start) && s.job.exit.Some? && (s.follower.phase == Finished || s.follower.exit.Some? || s.follower.phase == Looking)
    ensures exists n: nat :: Steps(s, n).follower.phase == Finished
    decreases |s.job.output| - s.follower.at, match s.follower.phase case Looking => 3 case Reading => 2 case Deciding => 1 case Finished => 0
  {
    if s.follower.phase == Finished {
      assert Steps(s, 0).follower.phase == Finished;
    } else {
      var t := Next(s, Sender);
      SteppedSound(s, start);
      FollowerEnds(t, start);
      var n: nat :| Steps(t, n).follower.phase == Finished;
      assert Steps(s, n + 1) == Steps(t, n);
    }
  }

  /** And one still behind its last look comes to look again. */
  lemma {:induction false} FollowerLooksAgain(s: System, start: nat)
    requires Sound(s, start) && s.job.exit.Some?
    ensures exists n: nat :: Steps(s, n).follower.phase == Finished
    decreases |s.job.output| - s.follower.at, match s.follower.phase case Looking => 3 case Reading => 2 case Deciding => 1 case Finished => 0
  {
    if s.follower.phase == Finished || s.follower.exit.Some? || s.follower.phase == Looking {
      FollowerEnds(s, start);
    } else {
      var t := Next(s, Sender);
      SteppedSound(s, start);
      if t.follower.phase == Looking {
        FollowerEnds(t, start);
      } else {
        FollowerLooksAgain(t, start);
      }
      var n: nat :| Steps(t, n).follower.phase == Finished;
      assert Steps(s, n + 1) == Steps(t, n);
    }
  }
}
