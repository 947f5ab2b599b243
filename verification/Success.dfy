/** When a copy succeeds, said of the two trees: what stands in the way of what is sent, and that nothing else stops it. */
module Success {
  import opened Bytes
  import opened Files
  import opened Walk
  import opened Course
  import opened Receive
  import opened Landing
  import opened LandFacts
  import opened Heads
  import opened HeadSteps
  import opened Headers
  import opened EndSteps
  import opened EntrySteps
  import opened FileSteps
  import opened DataSteps
  import opened Counting
  import opened Protocol
  import opened Tally
  import opened Ends
  import opened Runs
  import opened Names
  import opened Resume

  // ---- what stands in the way ------------------------------------------------------------------------------

  /** A file must be sent, and what is at its part's name is no file. */
  ghost predicate PartInWay(copy: Copy, p: Path) {
    && SentFile(copy, p) && p != [] && !copy.opts.dryRun && !IsThere(copy, p)
    && PartOf(p) in copy.there && !copy.there[PartOf(p)].File?
  }

  /** What is at its part's name may go first: `--delete` takes it with the directory if that ends before the file's bytes
      come, as nothing at that name was asked about. */
  ghost predicate MayClear(copy: Copy, p: Path) {
    SentFile(copy, p) && p != [] && MayGo(copy, p) && SizeThere(copy, p, |Look(copy, p).value.content|)
  }

  /** What is sent at `p` cannot land, and why. */
  ghost predicate Blocks(copy: Copy, p: Path, why: Fail) {
    && Sent(copy, p)
    && var node := Look(copy, p).value;
       match why
       case IsASymlink => node.NDir? && p in copy.there && copy.there[p].Link?
       case NotADirectory => node.NDir? && p in copy.there && (copy.there[p].File? || copy.there[p].Other?) && !copy.opts.delete
       case IsADirectory => (node.NFile? || node.NLink?) && IsDir(copy.there, p)
       case TooMany => copy.opts.delete && NamesAt(copy, p) > MAX_SEEN
       case Io => PartInWay(copy, p)
       case _ => false
  }

  // ---- a header --------------------------------------------------------------------------------------------

  /** A header goes on if nothing stands in its way but, for a file, at its part's name; and is refused for what does. */
  ghost predicate Judged(copy: Copy, q: Path, r: Step) {
    && (r.On? ==> forall why :: why != Io ==> !Blocks(copy, q, why))
    && (r.Over? ==> r.fail.Some? && Blocks(copy, q, r.fail.value))
  }

  /** But for the count of names. */
  ghost predicate JudgedThere(copy: Copy, q: Path, r: Step) {
    && (r.On? ==> forall why :: why != Io && why != TooMany ==> !Blocks(copy, q, why))
    && (r.Over? ==> r.fail.Some? && (r.fail.value == TooMany || Blocks(copy, q, r.fail.value)))
  }

  lemma EnterSays(s: State, parent: Folder, n: Name, mode: nat, mtime: Option<nat>)
    requires |s.open| < MAX_OPEN
    ensures var r, there := Enter(s, parent, n, mode, mtime), Stat(s, parent, n);
            && (r.Ok? ==> there.None? || there.value.Dir? || (!there.value.Link? && s.opts.delete))
            && (r.Err? ==>
                  || r.fail == TooMany || (r.fail == IsASymlink && there.Some? && there.value.Link?)
                  || (r.fail == NotADirectory && there.Some? && !there.value.Dir? && !there.value.Link? && !s.opts.delete))
  {
    hide Entering, Stat;
  }

  lemma RoomToOpen(copy: Copy, w: Walk)
    requires Goes(copy, w) && (NextHead(copy, w).DirHead? || NextHead(copy, w).ContentsHead?)
    ensures |w.frames| < MAX_OPEN
  {
  }

  lemma DirJudged(copy: Copy, w: Walk, s: State)
    requires Sources(copy) && Good(copy, w) && Goes(copy, w) && !NextHead(copy, w).EndHead? && NextHead(copy, w).path != []
    requires NextHead(copy, w).DirHead? || NextHead(copy, w).ContentsHead?
    requires Sent(copy, NextHead(copy, w).path) && s.opts == copy.opts && |s.open| == |w.frames|
    requires var q := NextHead(copy, w).path;
             Stat(PlacedIn(s), FolderIn(copy, q), Leaf(q)) == Get(copy.there, q)
    ensures JudgedThere(copy, NextHead(copy, w).path, Comes(copy, w, s))
  {
    hide Look, Sources, Good, Enter, Stat, Goes, NextHead, FolderIn;
    HeadSays(copy, w);
    RoomToOpen(copy, w);
    var head := NextHead(copy, w);
    EnterSays(PlacedIn(s), FolderIn(copy, head.path), Leaf(head.path), head.mode, head.mtime);
  }

  lemma FileJudged(copy: Copy, w: Walk, s: State)
    requires Sources(copy) && Good(copy, w) && Goes(copy, w) && NextHead(copy, w).FileHead?
    requires NextHead(copy, w).path != [] && Sent(copy, NextHead(copy, w).path)
    requires |s.pending| < WINDOW && |w.files| !in s.pending
    requires var q := NextHead(copy, w).path;
             Stat(PlacedIn(s), FolderIn(copy, q), Leaf(q)) == Get(copy.there, q)
    ensures JudgedThere(copy, NextHead(copy, w).path, Comes(copy, w, s))
  {
    hide Look, Sources, Good, Goes, Stat, AnswerTo;
    HeadSays(copy, w);
  }

  lemma LinkJudged(copy: Copy, w: Walk, s: State)
    requires Sources(copy) && Good(copy, w) && Goes(copy, w) && (NextHead(copy, w).LinkHead? || NextHead(copy, w).SkipHead?)
    requires NextHead(copy, w).path != [] && Sent(copy, NextHead(copy, w).path) && s.opts == copy.opts
    requires var q := NextHead(copy, w).path;
             && (FolderIn(copy, q).present || copy.opts.dryRun)
             && Stat(PlacedIn(s), FolderIn(copy, q), Leaf(q)) == Get(copy.there, q)
    ensures JudgedThere(copy, NextHead(copy, w).path, Comes(copy, w, s))
  {
    hide Look, Sources, Good, Goes, Stat;
    HeadSays(copy, w);
  }

  lemma TopJudged(copy: Copy, w: Walk, s: State)
    requires Starts(copy) && Good(copy, w) && Goes(copy, w) && NextHead(copy, w).ContentsHead? && NextHead(copy, w).path == []
    requires Sent(copy, [])
    ensures Comes(copy, w, s).On? && Judged(copy, [], Comes(copy, w, s))
  {
    hide Sources, Good, Goes;
    HeadSays(copy, w);
  }

  /** Without `--delete` no name is noted. */
  lemma NoneNoted(copy: Copy, w: Walk, s: State)
    requires Goes(copy, w) && !NextHead(copy, w).EndHead? && Sent(copy, NextHead(copy, w).path)
    requires NextHead(copy, w).path == [] ==> NextHead(copy, w).ContentsHead?
    requires s.open == [] || Last(s.open).seen.None?
    ensures Comes(copy, w, s).Over? ==> Comes(copy, w, s).fail != Some(TooMany)
  {
    hide Look, Goes, NextHead, Entering, FolderIn, AnswerTo, Stat;
    var head := NextHead(copy, w);
    if head.path != [] {
      SawNothing(PlacedIn(s), Leaf(head.path));
      SawNothing(PlacedIn(s), PartName(Leaf(head.path)));
      SawNothing(s, Leaf(head.path));
    }
  }

  lemma ComesJudged(copy: Copy, k: nat, m: nat, s: State)
    requires Inv(copy, k, m, s) && Steps(copy, k) && SendsHead(copy, Reached(copy, k), m)
    requires NextHead(copy, Reached(copy, k)).FileHead? ==> |Reached(copy, k).files| - m < WINDOW
    ensures var w := Reached(copy, k);
            && Sent(copy, NextHead(copy, w).path) && (NextHead(copy, w).path == [] ==> NextHead(copy, w).ContentsHead?)
            && JudgedThere(copy, NextHead(copy, w).path, Comes(copy, w, s))
  {
    hide Look, Sources, Good, Goes, NextHead, Logged, Whole, ClosingOk, EntriesOk, SeenOk, Comes, Steps, Blocks;
    var w := Reached(copy, k);
    var q := NextHead(copy, w).path;
    HeadSays(copy, w);
    ContentsPath(copy, w);
    PendingCount(copy, w, m, s);
    if q == [] {
      TopJudged(copy, w, s);
    } else {
      StepGone(copy, w, q);
      StatsThere(copy, k, m, s, q);
      assert Stat(PlacedIn(s), FolderIn(copy, q), Leaf(q)) == Stat(s, FolderIn(copy, q), Leaf(q));
      if !copy.opts.dryRun { AllPresent(copy, q); }
      match NextHead(copy, w)
      case FileHead(_, _, _, _, _) => FileJudged(copy, w, s);
      case LinkHead(_, _, _) => LinkJudged(copy, w, s);
      case SkipHead(_, _) => LinkJudged(copy, w, s);
      case _ => DirJudged(copy, w, s);
    }
  }

  lemma HeadJudged(copy: Copy, k: nat, m: nat, s: State)
    requires Inv(copy, k, m, s) && Steps(copy, k) && SendsHead(copy, Reached(copy, k), m) && Counts(copy, Reached(copy, k), s)
    requires NextHead(copy, Reached(copy, k)).FileHead? ==> |Reached(copy, k).files| - m < WINDOW
    ensures var w := Reached(copy, k);
            var r := Received(s, ItemFor(NextHead(copy, w), |w.files|));
            Judged(copy, NextHead(copy, w).path, r) && (r.On? ==> Counts(copy, Next(copy, w), r.state))
  {
    hide Look, Sources, Good, Goes, NextHead, Logged, Whole, ClosingOk, EntriesOk, SeenOk, Comes, Steps, Received, Counts, PendingOk,
      NamesAt, PartInWay;
    var w := Reached(copy, k);
    ComesJudged(copy, k, m, s);
    ReceivedIs(copy, k, m, s);
    if copy.opts.delete {
      HeadNames(copy, k, m, s);
    } else {
      NoneNoted(copy, w, s);
      assert Comes(copy, w, s).On? ==> Counts(copy, Next(copy, w), Comes(copy, w, s).state) by { NotCounted(copy); }
    }
  }

  lemma NotCounted(copy: Copy)
    requires !copy.opts.delete
    ensures forall w, t :: Counts(copy, w, t)
  {
  }

  // ---- a file's bytes --------------------------------------------------------------------------------------

  /** What is at the part's name is there until the file's bytes come. */
  ghost predicate Stuck(copy: Copy, p: Path) {
    PartInWay(copy, p) && !MayClear(copy, p)
  }

  lemma ThereIsSame(copy: Copy, head: Head, id: nat)
    requires head.FileHead? && head.path != [] && Look(copy, head.path) == Some(NFile(head.content, head.mode, head.mtime))
    ensures SentFile(copy, head.path) && (IsSame(head.content, AnswerOf(copy, head, id)) <==> IsThere(copy, head.path))
    ensures AnswerOf(copy, head, id).Want? <==> !SizeThere(copy, head.path, |head.content|)
  {
  }

  /** The file's bytes are taken if nothing is stuck at its part's name, and only if something is there refused. */
  lemma DataJudged(copy: Copy, k: nat, m: nat, s: State)
    requires Starts(copy) && Inv(copy, k, m, s) && m < |Reached(copy, k).files| && Reached(copy, k).files[m].FileHead?
    requires Reached(copy, k).files[m].path != [] && !copy.opts.dryRun
    requires var h := Reached(copy, k).files[m]; !IsSame(h.content, AnswerOf(copy, h, m))
    ensures var h := Reached(copy, k).files[m];
            var r := Received(s, DataItem(m, SendFrom(h.content, AnswerOf(copy, h, m))));
            && (r.On? ==> !Stuck(copy, h.path))
            && (r.Over? ==> r.fail == Some(Io) && PartInWay(copy, h.path))
  {
    hide Reached, Received, Look, Sources, Good, Logged, Whole, ClosingOk, OpensOk, SeenOk, SendFrom, IsSame, AnswerOf, MayGo, Closed;
    var w := Reached(copy, k);
    var h := w.files[m];
    var from, part := SendFrom(h.content, AnswerOf(copy, h, m)), PartOf(h.path);
    NextFileIs(copy, k, m);
    PendingHere(copy, w, m, s);
    PresentFor(copy, w, m);
    ChildPath(Parent(h.path), PartName(Leaf(h.path)));
    DataIs(s, m, from, part);
    ThereIsSame(copy, h, m);
    DoneOneMore(copy, w, m, h.path);
    assert PartOk(copy, w, m, s.files, h.path);
    assert NeedsPart(copy, w, m) <==> AnswerOf(copy, h, m).Want?;
  }

  /** A file all there takes its name's place, where no directory stood. */
  lemma SentJudged(copy: Copy, k: nat, m: nat, s: State)
    requires Starts(copy) && Mid(copy, k, m, s) && s.landing.value.at == |Reached(copy, k).files[m].content|
    requires !IsDir(copy.there, Reached(copy, k).files[m].path)
    ensures Received(s, SentItem).On?
  {
    hide Reached, Received, Look, Sources, Good, Logged, Whole, ClosingOk, OpensOk, SeenOk, AllSeen, AllParts, SendFrom, PendingOk;
    var w := Reached(copy, k);
    var q := w.files[m].path;
    MidHere(copy, k, m, s);
    SentIs(copy, w, m, s);
    assert FileOk(copy, w, m, s.files, q);
    DoneExpected(copy, w, m, q, Closed(copy, w, m, q));
  }

  // ---- what the sender takes -------------------------------------------------------------------------------

  /** A source the sender refuses: neither file, directory nor symlink, or too deep. */
  ghost predicate Untakeable(copy: Copy) {
    || (exists i :: 0 <= i < |copy.sources| && NodeOf(copy.sources[i]).NOther?)
    || (exists p :: SentDir(copy, p) && |p| >= Base(copy) + MAX_DEPTH)
  }

  /** What the walk took so far is what it may take. */
  ghost predicate TookWell(copy: Copy, w: Walk) {
    && (forall i :: 0 <= i < w.begun && i < |copy.sources| ==> !NodeOf(copy.sources[i]).NOther?)
    && forall p :: Gone(copy, w, p) && SentDir(copy, p) ==> |p| < Base(copy) + MAX_DEPTH
  }

  lemma StepTook(copy: Copy, w: Walk)
    requires Sources(copy) && Good(copy, w) && Goes(copy, w) && TookWell(copy, w)
    ensures TookWell(copy, Next(copy, w))
  {
    hide Sources, Good, Gone, Look, SentDir;
    forall p | Gone(copy, Next(copy, w), p) && SentDir(copy, p) ensures |p| < Base(copy) + MAX_DEPTH {
      StepGone(copy, w, p);
      if !Gone(copy, w, p) {
        NextPath(copy, w);
        NextOpens(copy, w);
      }
    }
    if !NextHead(copy, w).EndHead? { FrameCount(copy, w); } else { NextIs(copy, w); }
  }

  lemma {:induction false} ReachedTook(copy: Copy, k: nat)
    requires Sources(copy)
    ensures TookWell(copy, Reached(copy, k))
  {
    hide TookWell, Sources, Goes, Next;
    if k == 0 {
      StartTook(copy);
    } else {
      ReachedTook(copy, k - 1);
      ReachedGood(copy, k - 1);
      if Goes(copy, Reached(copy, k - 1)) { StepTook(copy, Reached(copy, k - 1)); }
    }
  }

  lemma StartTook(copy: Copy)
    requires Sources(copy)
    ensures TookWell(copy, Walk([], 0, []))
  {
    forall p ensures !Gone(copy, Walk([], 0, []), p) { NoneGone(copy, p); }
  }

  /** Where the walk stands still short of its end, the next entry is one it may not take. */
  lemma StuckAt(copy: Copy, w: Walk)
    requires Sources(copy) && Good(copy, w) && !Goes(copy, w) && !AllSent(copy, w)
    ensures Untakeable(copy)
  {
    hide Sources, Look, SentDir;
    if w.frames != [] {
      var f := Last(w.frames);
      assert GoodFrame(copy, f);
      var q := f.path + [f.rest[0].name];
      SentChild(copy, f.path, f.rest[0].name);
      SentLength(copy, f.path);
      IsSentDir(copy, q);
      assert |w.frames[|w.frames| - 1].path| == Base(copy) + |w.frames| - 1;
    }
  }

  /** The walk comes to its end if and only if it may take all there is: it never stands still short of it otherwise. */
  lemma WalksUnlessRefused(copy: Copy, k: nat)
    requires Sources(copy) && !Goes(copy, Reached(copy, k))
    ensures AllSent(copy, Reached(copy, k)) <==> !Untakeable(copy)
  {
    hide Sources, Goes, Look, SentDir, Gone;
    var w := Reached(copy, k);
    ReachedGood(copy, k);
    ReachedTook(copy, k);
    if AllSent(copy, w) {
      forall p | SentDir(copy, p) ensures |p| < Base(copy) + MAX_DEPTH {
        assert Sent(copy, p) by { IsSent(copy, p); }
        AllEnded(copy, w, p);
      }
    } else {
      StuckAt(copy, w);
    }
  }

  // ---- an item ---------------------------------------------------------------------------------------------

  /** Nothing stood in the way of what went so far. */
  ghost predicate Passed(copy: Copy, pos: Pos) {
    var w := Reached(copy, pos.k);
    && (forall p, why :: Gone(copy, w, p) && why != Io ==> !Blocks(copy, p, why))
    && (forall i :: 0 <= i < TakenTo(pos) && i < |w.files| ==> !Stuck(copy, w.files[i].path))
  }

  /** An item goes on past nothing in its way, and is refused only for something that is. */
  ghost predicate ItemJudged(copy: Copy, pos: Pos, item: Item, r: Step)
    requires After(copy, pos, item).Some?
  {
    var next := After(copy, pos, item).value;
    && (r.On? ==> Passed(copy, next) && Counts(copy, Reached(copy, next.k), r.state))
    && (r.Over? && r.summary.None? && next.ending != GaveUp ==> r.fail.Some? && exists p :: Blocks(copy, p, r.fail.value))
  }

  lemma SameCounted(copy: Copy, w: Walk, s: State, t: State)
    requires Counts(copy, w, s) && t.open == s.open && t.seen == s.seen
    ensures Counts(copy, w, t)
  {
    hide Noted, NotedAll, SentDir, Gone;
    if copy.opts.delete {
      forall i | 0 <= i < |w.frames| ensures CountsAt(copy, w, t, i) { assert CountsAt(copy, w, s, i); }
    }
  }

  lemma OnePassed(copy: Copy, pos: Pos)
    requires Passed(copy, pos) && pos.at.None? && HasFile(copy, pos) && !Stuck(copy, FilesAt(copy, pos)[pos.m].path)
    ensures Passed(copy, pos.(m := pos.m + 1)) && forall at :: Passed(copy, pos.(at := Some(at)))
  {
    hide Stuck, Blocks, Gone, Reached;
  }

  lemma EntryJudged(copy: Copy, pos: Pos, item: Item, s: State)
    requires Starts(copy) && Stands(copy, pos, s) && pos.at.None? && HeadAfter(copy, pos, item).Some?
    requires After(copy, pos, item) == HeadAfter(copy, pos, item)
    requires !item.EndItem? && Passed(copy, pos) && Counts(copy, Reached(copy, pos.k), s)
    ensures ItemJudged(copy, pos, item, Received(s, item))
  {
    hide Received, Inv, Good, Logged, Whole, Sources, Next, Goes, Stuck, Blocks, Counts, Gone, NextHead, After;
    var w := Reached(copy, pos.k);
    ReachedGood(copy, pos.k);
    InvWithin(copy, pos.k, pos.m, s);
    assert !NextHead(copy, w).EndHead?;
    HeadJudged(copy, pos.k, pos.m, s);
    ReachedOnce(copy, pos.k);
    NextFiles(copy, w);
    forall p ensures Gone(copy, Next(copy, w), p) <==> Gone(copy, w, p) || p == NextHead(copy, w).path { StepGone(copy, w, p); }
  }

  lemma ReachedOnce(copy: Copy, k: nat)
    requires Goes(copy, Reached(copy, k))
    ensures Reached(copy, k + 1) == Next(copy, Reached(copy, k))
  {
  }

  lemma EndJudged(copy: Copy, pos: Pos, s: State)
    requires Starts(copy) && Stands(copy, pos, s) && pos.at.None? && HeadAfter(copy, pos, EndItem).Some?
    requires After(copy, pos, EndItem) == HeadAfter(copy, pos, EndItem)
    requires Passed(copy, pos) && Counts(copy, Reached(copy, pos.k), s)
    ensures ItemJudged(copy, pos, EndItem, Received(s, EndItem))
  {
    hide Received, Inv, Good, Logged, Whole, Sources, Next, Goes, Stuck, Blocks, Counts, Gone, NextHead, After;
    var w := Reached(copy, pos.k);
    ReachedGood(copy, pos.k);
    InvWithin(copy, pos.k, pos.m, s);
    assert NextHead(copy, w).EndHead?;
    EndStep(copy, pos.k, pos.m, s);
    if copy.opts.delete { EndNames(copy, pos.k, pos.m, s); } else { NotCounted(copy); }
    ReachedOnce(copy, pos.k);
    NextFiles(copy, w);
    forall p ensures Gone(copy, Next(copy, w), p) <==> Gone(copy, w, p) { StepGone(copy, w, p); }
  }

  /** What goes on from a file said to be the same or to differ, or from its first byte. */
  lemma FileOn(copy: Copy, pos: Pos, item: Item, s: State)
    requires HasFile(copy, pos) && pos.at.None? && After(copy, pos, item).Some? && Received(s, item).On?
    requires item.SameItem? || item.DiffersItem? || item.DataItem?
    requires Passed(copy, pos) && Counts(copy, Reached(copy, pos.k), s) && !Stuck(copy, FilesAt(copy, pos)[pos.m].path)
    ensures ItemJudged(copy, pos, item, Received(s, item))
  {
    hide Received, Counts, Reached, IsSame, SendFrom, AnswerOf, Passed, Stuck, Goes, AllSent, NextHead, Blocks;
    FileNames(s, item);
    SameCounted(copy, Reached(copy, pos.k), s, Received(s, item).state);
    OnePassed(copy, pos);
    if item.DataItem? { assert Passed(copy, pos.(at := Some(item.from))); }
  }

  lemma SaidJudged(copy: Copy, pos: Pos, item: Item, s: State)
    requires Starts(copy) && Stands(copy, pos, s) && pos.at.None? && After(copy, pos, item).Some? && HasFile(copy, pos)
    requires item.SameItem? || item.DiffersItem?
    requires Passed(copy, pos) && Counts(copy, Reached(copy, pos.k), s)
    ensures ItemJudged(copy, pos, item, Received(s, item))
  {
    hide Received, Inv, Good, Logged, Whole, Sources, Goes, MayClear, Counts, Gone, NextHead, Reached, IsSame, SendFrom, AnswerOf, Passed,
      IsThere, Mid, ItemJudged, AllSent;
    NextFileIs(copy, pos.k, pos.m);
    ThereIsSame(copy, FilesAt(copy, pos)[pos.m], pos.m);
    if item.SameItem? {
      SameStep(copy, pos.k, pos.m, s);
    } else {
      DiffersStep(copy, pos.k, pos.m, s, item.from);
    }
    FileOn(copy, pos, item, s);
  }

  lemma BytesJudged(copy: Copy, pos: Pos, item: Item, s: State)
    requires Starts(copy) && Stands(copy, pos, s) && pos.at.None? && After(copy, pos, item).Some? && HasFile(copy, pos)
    requires item.DataItem?
    requires Passed(copy, pos) && Counts(copy, Reached(copy, pos.k), s)
    ensures ItemJudged(copy, pos, item, Received(s, item))
  {
    hide Received, Inv, Good, Logged, Whole, Sources, Goes, MayClear, Counts, Gone, NextHead, Reached, IsSame, SendFrom, AnswerOf, Passed,
      IsThere, Mid, AllSent;
    var q := FilesAt(copy, pos)[pos.m].path;
    NextFileIs(copy, pos.k, pos.m);
    ThereIsSame(copy, FilesAt(copy, pos)[pos.m], pos.m);
    DataStep(copy, pos.k, pos.m, s);
    DataJudged(copy, pos.k, pos.m, s);
    if Received(s, item).On? { FileOn(copy, pos, item, s); } else { assert Blocks(copy, q, Io); }
  }

  lemma InFileJudged(copy: Copy, pos: Pos, item: Item, s: State)
    requires Starts(copy) && Stands(copy, pos, s) && pos.at.Some? && After(copy, pos, item).Some? && !item.FailedItem?
    requires Passed(copy, pos) && Counts(copy, Reached(copy, pos.k), s)
    ensures ItemJudged(copy, pos, item, Received(s, item))
  {
    hide Received, Inv, Good, Logged, Whole, Sources, Goes, Stuck, Counts, Gone, NextHead, Reached, IsSame, SendFrom, AnswerOf, Mid;
    var q := FilesAt(copy, pos)[pos.m].path;
    MidHere(copy, pos.k, pos.m, s);
    assert GoodLog(copy, Reached(copy, pos.k), pos.m);
    assert !Blocks(copy, q, IsADirectory);
    if item.SentItem? {
      SentJudged(copy, pos.k, pos.m, s);
    } else {
      ChunkStep(copy, pos.k, pos.m, s, |item.bytes|);
    }
    FileNames(s, item);
    SameCounted(copy, Reached(copy, pos.k), s, Received(s, item).state);
  }

  lemma AnyJudged(copy: Copy, pos: Pos, item: Item, s: State)
    requires Starts(copy) && Stands(copy, pos, s) && After(copy, pos, item).Some?
    requires Passed(copy, pos) && Counts(copy, Reached(copy, pos.k), s)
    ensures ItemJudged(copy, pos, item, Received(s, item))
  {
    hide Received, Inv, Mid, Passed, Counts, Blocks, Reached, IsSame, SendFrom, AnswerNext, FileNext, HeadAfter, Goes, AllSent;
    match item
    case FailedItem => FailedOver(s);
    case DoneItem =>
      EndComes(copy, pos, s);
    case EndItem => EndJudged(copy, pos, s);
    case SameItem(_) => SaidJudged(copy, pos, item, s);
    case DiffersItem(_, _) => SaidJudged(copy, pos, item, s);
    case DataItem(_, _) => BytesJudged(copy, pos, item, s);
    case ChunkItem(_) =>
      InAFile(copy, pos, item);
      InFileJudged(copy, pos, item, s);
    case SentItem =>
      InAFile(copy, pos, item);
      InFileJudged(copy, pos, item, s);
    case _ => EntryJudged(copy, pos, item, s);
  }

  // ---- every run -------------------------------------------------------------------------------------------

  /** The sender says it gave up only if it does. */
  lemma {:induction false} KeepsOn(copy: Copy, acts: seq<Act>)
    requires Starts(copy) && Play(copy, acts).Some? && GiveUp !in acts
    ensures Play(copy, acts).value.sender.mode != Quit(GaveUp)
    decreases |acts|
  {
    hide Reached, Sources, Received, Leads, IsAt, StoppedAt, RepliesAre, Heard, Headed, Answered, AllSent, Goes, Content;
    if acts != [] {
      var before, act := acts[..|acts| - 1], acts[|acts| - 1];
      KeepsOn(copy, before);
      if act == TakeAnswer {
        AnswersOn(copy, before);
      } else {
        StepOn(copy, Play(copy, before).value, act);
      }
    }
  }

  lemma StepOn(copy: Copy, y: Copying, act: Act)
    requires Do(copy, y, act).Some? && y.sender.mode != Quit(GaveUp) && act != GiveUp && act != TakeAnswer
    ensures Do(copy, y, act).value.sender.mode != Quit(GaveUp)
  {
    hide Reached, Received, AllSent, Goes, NextHead, ItemFor;
  }

  lemma AnswersOn(copy: Copy, before: seq<Act>)
    requires Starts(copy) && Play(copy, before).Some? && Do(copy, Play(copy, before).value, TakeAnswer).Some?
    ensures Do(copy, Play(copy, before).value, TakeAnswer).value.sender.mode != Quit(GaveUp)
  {
    hide Reached, Sources, Play, Do, Leads, IsAt, StoppedAt, RepliesAre, IsSame, SendFrom, AnswerNext, FileNext, HasFile;
    var y := Play(copy, before).value;
    var far, pos := RunSound(copy, before);
    TakeAnswerStep(copy, y, far, pos);
    NotQuit(copy, y, far, pos);
  }

  lemma NotQuit(copy: Copy, y: Copying, far: Pos, pos: Pos)
    requires Sound(copy, y, far, pos) && Do(copy, y, TakeAnswer).Some?
    ensures pos.ending == More
  {
    hide Reached, Leads, IsAt, StoppedAt, RepliesAre, Answered;
  }

  /** What is said of a run: nothing stood in the way of what the receiver took, and if it stopped short, something does. */
  ghost predicate RunJudged(copy: Copy, y: Copying, far: Pos) {
    && Passed(copy, far)
    && match y.receiver
       case Running(s) => Counts(copy, Reached(copy, far.k), s)
       case Stopped(_, summary, fail) => summary.None? ==> fail.Some? && exists p :: Blocks(copy, p, fail.value)
  }

  lemma {:induction false} RunIsJudged(copy: Copy, acts: seq<Act>)
    requires Starts(copy) && Play(copy, acts).Some? && GiveUp !in acts && Cut !in acts
    ensures RunJudged(copy, Play(copy, acts).value, FarOf(copy, acts))
    decreases |acts|
  {
    hide Do, RunJudged, FarAfter;
    if acts == [] {
      StartJudged(copy);
    } else {
      var before, act := acts[..|acts| - 1], acts[|acts| - 1];
      RunIsJudged(copy, before);
      if act == Receive {
        ReceiveJudged(copy, before);
      } else {
        OtherJudged(copy, Play(copy, before).value, act, FarOf(copy, before));
      }
    }
  }

  lemma StartJudged(copy: Copy)
    requires Starts(copy)
    ensures RunJudged(copy, Init(copy), START)
  {
    hide Blocks, Stuck;
    forall p ensures !Gone(copy, Reached(copy, 0), p) { NoneGone(copy, p); }
  }

  lemma OtherJudged(copy: Copy, y: Copying, act: Act, far: Pos)
    requires RunJudged(copy, y, far) && Do(copy, y, act).Some? && act != Receive && act != Cut
    ensures RunJudged(copy, Do(copy, y, act).value, FarAfter(copy, y, act, far))
  {
    hide Reached, Goes, AllSent, NextHead, ItemFor, Passed, Counts, Blocks, IsSame, SendFrom, Received;
  }

  lemma ReceiveJudged(copy: Copy, before: seq<Act>)
    requires Starts(copy) && Play(copy, before).Some? && GiveUp !in before
    requires RunJudged(copy, Play(copy, before).value, FarOf(copy, before)) && Do(copy, Play(copy, before).value, Receive).Some?
    ensures var y := Play(copy, before).value;
            RunJudged(copy, Do(copy, y, Receive).value, FarAfter(copy, y, Receive, FarOf(copy, before)))
  {
    hide Reached, Sources, Play, Leads, Stands, Tallies, StoppedAt, RepliesAre, Received, After, Passed, Counts, Blocks, FarOf, NoParts;
    var y := Play(copy, before).value;
    var far, pos := RunSound(copy, before);
    KeepsOn(copy, before);
    assert (y.pipe + y.buf)[0] == y.pipe[0];
    LeadsTo(copy, far, y.pipe + y.buf, pos);
    AnyJudged(copy, far, y.pipe[0], y.receiver.s);
  }

  /** Nothing stands in the way of the copy. */
  ghost predicate Clear(copy: Copy) {
    forall p, why :: !Blocks(copy, p, why)
  }

  /** A run that is not cut and whose sender does not give up, come to its stop. */
  ghost predicate RunsOut(copy: Copy, acts: seq<Act>) {
    && Starts(copy) && Play(copy, acts).Some? && GiveUp !in acts && Cut !in acts
    && Play(copy, acts).value.receiver.Stopped?
  }

  /** Every copy succeeds that nothing in the two trees stands in the way of. One that something does fails, and says what it
      is; but for what is at the name of a part that need not be asked about, which may be gone before it is in the way. No
      copy with a source the sender refuses succeeds. */
  lemma Succeeds(copy: Copy, acts: seq<Act>)
    requires RunsOut(copy, acts)
    ensures var r := Play(copy, acts).value.receiver;
            && (Clear(copy) ==> r.summary.Some?)
            && (r.summary.Some? ==> !Untakeable(copy))
            && (r.summary.Some? ==> forall p, why :: Blocks(copy, p, why) ==> why == Io && MayClear(copy, p))
            && (r.summary.None? ==> r.fail.Some? && exists p :: Blocks(copy, p, r.fail.value))
  {
    hide Reached, Sources, Play, Leads, IsAt, LeftAt, RepliesAre, SenderAt, Blocks, FarOf, AllSent, MayClear, Untakeable;
    var far, pos := RunSound(copy, acts);
    RunIsJudged(copy, acts);
    if Play(copy, acts).value.receiver.summary.Some? {
      TookAll(copy, far.k);
      forall p, why | Blocks(copy, p, why) ensures why == Io && MayClear(copy, p) { PassedAll(copy, far, p, why); }
    }
  }

  lemma TookAll(copy: Copy, k: nat)
    requires Sources(copy) && AllSent(copy, Reached(copy, k))
    ensures !Untakeable(copy)
  {
    hide Untakeable, Sources;
    WalksUnlessRefused(copy, k);
  }

  lemma PassedAll(copy: Copy, far: Pos, p: Path, why: Fail)
    requires Starts(copy) && Passed(copy, far) && AllSent(copy, Reached(copy, far.k)) && far.m == |FilesAt(copy, far)|
    requires Blocks(copy, p, why)
    ensures why == Io && PartInWay(copy, p) && MayClear(copy, p)
  {
    hide Sources, Good, Logged, Look, MayGo, NamesAt, Reached;
    var w := Reached(copy, far.k);
    ReachedGood(copy, far.k);
    AllEnded(copy, w, p);
    if why == Io {
      var i :| 0 <= i < |w.files| && w.files[i].path == p;
      assert !Stuck(copy, w.files[i].path);
    }
  }

  /** So, unless such a name is in the way of a file, a copy succeeds if and only if nothing in the two trees is. */
  lemma SucceedsIff(copy: Copy, acts: seq<Act>)
    requires RunsOut(copy, acts)
    requires forall p :: PartInWay(copy, p) ==> !MayClear(copy, p)
    ensures Play(copy, acts).value.receiver.summary.Some? <==> Clear(copy)
  {
    hide Play, MayClear, PartInWay;
    Succeeds(copy, acts);
    forall p, why | Blocks(copy, p, why) && why == Io ensures PartInWay(copy, p) {}
  }

  /** Where such a name is in the way, the order decides: the file's bytes are refused before the directory's End, and taken
      after it. */
  lemma OrderDecides(s: State, id: nat, from: nat)
    requires s.landing.None? && s.open != [] && !s.opts.dryRun && id in s.pending
    requires var d, p := Last(s.open), s.pending[id];
             && p.folder == d.folder && d.folder.present && d.seen.Some?
             && PartPath(p) in s.files && !s.files[PartPath(p)].File?
             && PartName(p.header.name) !in d.seen.value && !Skips(s.opts, PartName(p.header.name), RelTo(s.tree, PartPath(p)))
    ensures Received(s, DataItem(id, from)) == Over(s.files, None, Some(Io))
    ensures var after := Received(s, EndItem);
            after.On? && Received(after.state, DataItem(id, from)).On?
  {
    hide Skips, RelTo, CloseReady;
    var part := PartPath(s.pending[id]);
    assert part in Unsent(s, Last(s.open));
    EndReceived(s);
    ClosesOnly(Leaving(s));
    assert part !in Leaving(s).files by { assert Below(Unsent(s, Last(s.open)), part); }
  }
}
