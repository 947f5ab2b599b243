/** Flow control, in every run: the window holds, answers always have room, no end waits for what
    will not come, and a conforming sender is never told it is malformed but in one case. */
module Flow {
  import opened Bytes
  import opened Files
  import opened Walk
  import opened Course
  import opened Receive
  import opened Landing
  import opened Heads
  import opened Headers
  import opened Protocol
  import opened Tally
  import opened Ends
  import opened Runs

  // ---- the window --------------------------------------------------------------------------------------

  lemma PendingAt(copy: Copy, pos: Pos, s: State)
    requires Starts(copy) && IsAt(copy, pos, s)
    ensures TakenTo(pos) <= |FilesAt(copy, pos)| && |s.pending| == |FilesAt(copy, pos)| - TakenTo(pos)
    ensures forall id :: id in s.pending <==> TakenTo(pos) <= id < |FilesAt(copy, pos)|
  {
    CountTo(s.pending.Keys, TakenTo(pos), |FilesAt(copy, pos)|);
    assert |s.pending.Keys| == |s.pending|;
  }

  /** The receiver has no more files under way than a window. */
  ghost predicate Within(copy: Copy, far: Pos) {
    |FilesAt(copy, far)| <= far.m + WINDOW
  }

  lemma AfterWithin(copy: Copy, far: Pos, item: Item)
    requires Sources(copy) && After(copy, far, item).Some? && Within(copy, far)
    ensures Within(copy, After(copy, far, item).value)
  {
    hide Reached, Sources;
    AfterFiles(copy, far, item);
    AfterGrows(copy, far, item);
    if item.FileItem? { HeaderId(copy, far, item); }
  }

  lemma {:induction false} FarWithin(copy: Copy, acts: seq<Act>)
    requires Starts(copy) && Play(copy, acts).Some?
    ensures Within(copy, FarOf(copy, acts))
    decreases |acts|
  {
    hide Do, Within;
    if acts == [] {
      NoFilesYet(copy);
    } else {
      var before := acts[..|acts| - 1];
      FarWithin(copy, before);
      StepWithin(copy, Play(copy, before).value, acts[|acts| - 1], FarOf(copy, before));
    }
  }

  lemma NoFilesYet(copy: Copy)
    ensures Within(copy, START)
  {
  }

  lemma StepWithin(copy: Copy, y: Copying, act: Act, far: Pos)
    requires Sources(copy) && Within(copy, far)
    ensures Within(copy, FarAfter(copy, y, act, far))
  {
    hide Within, After, Received, Sources;
    if FarAfter(copy, y, act, far) != far { AfterWithin(copy, far, y.pipe[0]); }
  }

  /** In every run neither end ever holds more than a window's files, and the answers on their way have room. */
  lemma WindowHolds(copy: Copy, acts: seq<Act>)
    requires Starts(copy) && Play(copy, acts).Some?
    ensures var y := Play(copy, acts).value;
            && |y.sender.owed| <= WINDOW
            && (y.receiver.Running? ==> |y.receiver.s.pending| <= WINDOW)
            && |y.replies| <= WINDOW < REPLY_DEPTH
            && (y.sender.mode == Free || y.sender.mode == Taking ==> |y.sender.owed| < WINDOW)
  {
    hide Play, IsAt;
    var y := Play(copy, acts).value;
    var far, pos := RunSound(copy, acts);
    OwedCount(copy, y.sender, pos);
    if y.receiver.Running? {
      PendingAt(copy, far, y.receiver.s);
      FarWithin(copy, acts);
    }
  }

  /** A file's header only ever comes to a receiver with room for it, and whose id none under way has. */
  lemma HeaderHasRoom(copy: Copy, acts: seq<Act>)
    requires Starts(copy) && Play(copy, acts).Some?
    requires var y := Play(copy, acts).value;
             y.receiver.Running? && y.pipe != [] && y.pipe[0].FileItem?
    ensures var y := Play(copy, acts).value;
            |y.receiver.s.pending| < WINDOW && y.pipe[0].header.id !in y.receiver.s.pending
  {
    hide Play, IsAt, Reached, Sources, AllSent, Goes, NextHead, ItemFor;
    var y := Play(copy, acts).value;
    var far, pos := RunSound(copy, acts);
    assert (y.pipe + y.buf)[0] == y.pipe[0];
    LeadsTo(copy, far, y.pipe + y.buf, pos);
    HeaderId(copy, far, y.pipe[0]);
    PendingAt(copy, far, y.receiver.s);
  }

  // ---- no end waits for ever -----------------------------------------------------------------------------

  /** A file's header is among the items that lead past it. */
  lemma {:induction false} HeaderAmong(copy: Copy, far: Pos, items: seq<Item>, pos: Pos, id: nat) returns (i: nat)
    requires Starts(copy) && Leads(copy, far, items) == Some(pos)
    requires |FilesAt(copy, far)| <= id < |FilesAt(copy, pos)|
    ensures i < |items| && items[i].FileItem? && items[i].header.id == id
    decreases |items|
  {
    hide Reached, Sources, After;
    LeadsTo(copy, far, items, pos);
    AfterFiles(copy, far, items[0]);
    var next := After(copy, far, items[0]).value;
    if items[0].FileItem? && id == |FilesAt(copy, far)| {
      HeaderId(copy, far, items[0]);
      i := 0;
    } else {
      var j := HeaderAmong(copy, next, items[1..], pos, id);
      i := j + 1;
    }
  }

  lemma HeaderId(copy: Copy, far: Pos, item: Item)
    requires After(copy, far, item).Some? && item.FileItem?
    ensures item.header.id == |FilesAt(copy, far)| && far.at.None? && |FilesAt(copy, far)| - far.m < WINDOW
  {
  }

  /** When the sender waits for an answer, it is on its way, or its header is handed on and still to
      be read, or the receiver stopped and its word is on its way. */
  lemma NoDeadlock(copy: Copy, acts: seq<Act>)
    requires Starts(copy) && Play(copy, acts).Some? && Play(copy, acts).value.sender.mode == Waiting
    ensures var y := Play(copy, acts).value;
            || y.receiver.Stopped?
            || (y.replies != [] && y.replies[0].id in y.sender.owed)
            || exists i :: 0 <= i < |y.pipe| && y.pipe[i].FileItem? && y.pipe[i].header.id in y.sender.owed
  {
    hide Play, IsAt, Reached, Sources, AnswerOf, Leads;
    var y := Play(copy, acts).value;
    var far, pos := RunSound(copy, acts);
    if y.receiver.Running? && y.replies == [] {
      assert y.pipe + y.buf == y.pipe;
      var i := HeaderAmong(copy, far, y.pipe, pos, TakenTo(pos));
      assert y.pipe[i].header.id in y.sender.owed;
    } else if y.replies != [] {
      AnswerIsNext(copy, y, far, pos);
    }
  }

  /** A step that goes on with the copy: none gives up or cuts it. */
  predicate GoesOn(act: Act, y: Copying) {
    !act.GiveUp? && !act.Cut? && (act.Flush? ==> act.n > 0 && act.n == |y.buf|)
  }

  /** Until the receiver stops, some end can go on: unless a source is one the sender refuses, no
      step but giving up is ever the only one left. */
  lemma NeverStuck(copy: Copy, acts: seq<Act>) returns (act: Act)
    requires Starts(copy) && Play(copy, acts).Some? && Play(copy, acts).value.receiver.Running?
    ensures var y := Play(copy, acts).value;
            var w := Reached(copy, y.sender.k);
            || (Do(copy, y, act).Some? && GoesOn(act, y))
            || (y.sender.mode == Free && !Goes(copy, w) && !AllSent(copy, w))
  {
    hide Play, IsAt, Reached, Sources, AnswerOf, Received, Leads, Goes, AllSent, Headed, Answered, Heard, Quits;
    var y := Play(copy, acts).value;
    var n := y.sender;
    var far, pos := RunSound(copy, acts);
    if y.pipe != [] {
      act := Receive;
    } else if y.buf != [] {
      act := Flush(|y.buf|);
    } else if n.mode.Quit? {
      QuitSays(copy, y, far, pos);
      act := Receive;
    } else if n.sending.Some? {
      ContentIs(copy, n, pos);
      act := if n.sending.value.at == |Content(copy, n)| then SendSent else SendChunk(1);
    } else {
      match n.mode
      case Free => act := if Goes(copy, Reached(copy, n.k)) then SendHeader else EndWalk;
      case Taking => act := LookNoMore;
      case Waiting =>
        NoDeadlock(copy, acts);
        act := TakeAnswer;
    }
  }

  /** A sender that is over said so, and the receiver has it still to read, or stopped. */
  lemma QuitSays(copy: Copy, y: Copying, far: Pos, pos: Pos)
    requires Sound(copy, y, far, pos) && y.receiver.Running? && y.sender.mode.Quit?
    ensures y.pipe + y.buf != []
  {
    hide Reached;
  }

  // ---- malformed -----------------------------------------------------------------------------------------

  /** The receiver calls the sender malformed in one case only: it gave up in the middle of a file. */
  lemma MalformedOnlyMidFile(copy: Copy, acts: seq<Act>)
    requires Starts(copy) && Play(copy, acts).Some?
    requires Play(copy, acts).value.receiver.Stopped? && Play(copy, acts).value.receiver.fail == Some(Malformed)
    ensures var n := Play(copy, acts).value.sender; n.mode == Quit(GaveUp) && n.sending.Some?
  {
    hide Play, Reached, IsAt, Leads, LeftAt;
    var far, pos := RunSound(copy, acts);
  }

  /** And then it does: the sender's own word for what went wrong is lost exactly there. */
  lemma FailureHeard(copy: Copy, pos: Pos, s: State)
    requires Starts(copy) && IsAt(copy, pos, s)
    ensures Received(s, FailedItem).Over?
    ensures Received(s, FailedItem).fail == Some(Malformed) <==> pos.at.Some?
    ensures Received(s, FailedItem).fail == Some(Theirs) <==> pos.at.None?
  {
    hide Received, Good, Logged, Whole, Tallies, Inv, LeftAt;
    ItemComes(copy, pos, FailedItem, s);
  }

  /** Ids of the files under way stay apart though the sender counts them in 32 bits: no two of a
      window's are the same. */
  lemma IdsApart(i: nat, j: nat)
    requires i < j <= i + WINDOW
    ensures i % 0x1_0000_0000 != j % 0x1_0000_0000
  {
    var wrap := 0x1_0000_0000;
    assert j - i == wrap * (j / wrap - i / wrap) + (j % wrap - i % wrap);
  }
}
