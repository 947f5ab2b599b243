/** The counts of a copy, kept in every run: a sum over the trees, in whatever order they come. */
module Tally {
  import opened Bytes
  import opened Files
  import opened Walk
  import opened Course
  import opened Receive
  import opened Closing
  import opened Landing
  import opened FileSteps
  import opened DataSteps
  import opened Counting
  import opened Protocol

  /** What `k` steps of the walk count. */
  ghost function HeadsTotal(copy: Copy, k: nat): Summary {
    if k == 0 then NOTHING
    else
      var w := Reached(copy, k - 1);
      Plus(HeadsTotal(copy, k - 1), if Goes(copy, w) then HeadCount(copy, w) else NOTHING)
  }

  /** What the first `m` of `files` count. */
  ghost function FilesTotal(copy: Copy, files: seq<Head>, m: nat): Summary {
    if m == 0 then NOTHING
    else
      var more := if m <= |files| && files[m - 1].FileHead? && files[m - 1].path != []
                  then FileCount(copy, files[m - 1], m - 1) else NOTHING;
      Plus(FilesTotal(copy, files, m - 1), more)
  }

  /** What was counted at `pos`. */
  ghost function Total(copy: Copy, pos: Pos): Summary {
    var sum := Plus(HeadsTotal(copy, pos.k), FilesTotal(copy, FilesAt(copy, pos), pos.m));
    if pos.at.Some? && HasFile(copy, pos) && SendFrom(FileNext(copy, pos), AnswerNext(copy, pos)) <= pos.at.value
    then Plus(sum, NOTHING.(bytes := pos.at.value - SendFrom(FileNext(copy, pos), AnswerNext(copy, pos))))
    else sum
  }

  /** No part is there but that of the file whose bytes are coming. */
  ghost predicate Clean(copy: Copy, pos: Pos, files: Files) {
    if pos.at.None? then NoParts(files)
    else HasFile(copy, pos) && forall p :: p in files ==> Plain(p) || p == PartOf(FilesAt(copy, pos)[pos.m].path)
  }

  ghost predicate Tallies(copy: Copy, pos: Pos, s: State) {
    s.summary == Total(copy, pos) && Clean(copy, pos, s.files)
  }

  lemma {:induction false} SameFilesTotal(copy: Copy, files: seq<Head>, more: seq<Head>, m: nat)
    requires m <= |files| <= |more| && forall i :: 0 <= i < |files| ==> more[i] == files[i]
    ensures FilesTotal(copy, files, m) == FilesTotal(copy, more, m)
  {
    if m > 0 { SameFilesTotal(copy, files, more, m - 1); }
  }

  lemma HeadTotal(copy: Copy, pos: Pos)
    requires Sources(copy) && pos.at.None? && Goes(copy, Reached(copy, pos.k)) && pos.m <= |FilesAt(copy, pos)|
    ensures Total(copy, pos.(k := pos.k + 1)) == Plus(Total(copy, pos), HeadCount(copy, Reached(copy, pos.k)))
  {
    hide Reached, Sources, Goes, HeadCount;
    FilesGrow(copy, pos.k, pos.k + 1);
    SameFilesTotal(copy, FilesAt(copy, pos), FilesAt(copy, pos.(k := pos.k + 1)), pos.m);
  }

  lemma HeadTallies(copy: Copy, pos: Pos, item: Item, s: State)
    requires Starts(copy) && Stands(copy, pos, s) && pos.at.None? && HeadAfter(copy, pos, item).Some?
    requires NoParts(copy.there) && Tallies(copy, pos, s) && Received(s, item).On?
    ensures Tallies(copy, HeadAfter(copy, pos, item).value, Received(s, item).state)
  {
    hide Reached, Received, Inv, Good, Logged, Goes, Sources, Total, HeadCount, Whole, NextHead;
    ReachedGood(copy, pos.k);
    InvWithin(copy, pos.k, pos.m, s);
    HeadTotal(copy, pos);
    var w := Reached(copy, pos.k);
    if NextHead(copy, w).EndHead? {
      assert item == EndItem;
      EndCounts(copy, pos.k, pos.m, s);
    } else {
      HeadCounts(copy, pos.k, pos.m, s);
    }
  }

  // ---- files -------------------------------------------------------------------------------------------------

  lemma FileTotal(copy: Copy, pos: Pos)
    requires HasFile(copy, pos)
    ensures Total(copy, pos.(m := pos.m + 1, at := None)) ==
            Plus(Total(copy, pos.(at := None)), FileCount(copy, FilesAt(copy, pos)[pos.m], pos.m))
  {
  }

  lemma SameCounts(s: State, id: nat)
    requires s.landing.None? && DistinctPaths(s.closing) && Received(s, SameItem(id)).On?
    ensures Grows(s, Received(s, SameItem(id)).state, NOTHING.(same := 1))
  {
    hide CloseReady;
    var p := s.pending[id];
    var t := s.(pending := s.pending - {id}, summary := s.summary.(same := s.summary.same + 1));
    if !s.opts.dryRun {
      var path := PathIn(p.folder, p.header.name);
      var was := s.files[path];
      var time := if s.opts.keepTimes && p.header.mtime.Some? then At(p.header.mtime.value) else was.time;
      CloseCounts(t.(files := s.files[path := File(was.content, Landed(p.header.mode), time)]));
    }
  }

  lemma ClosingDistinct(copy: Copy, w: Walk, m: nat, s: State)
    requires ClosingOk(copy, w, m, s)
    ensures DistinctPaths(s.closing)
  {
  }

  lemma SameTallies(copy: Copy, pos: Pos, s: State)
    requires Starts(copy) && Stands(copy, pos, s) && pos.at.None? && After(copy, pos, SameItem(pos.m)).Some?
    requires Tallies(copy, pos, s) && Received(s, SameItem(pos.m)).On?
    ensures Tallies(copy, pos.(m := pos.m + 1), Received(s, SameItem(pos.m)).state)
  {
    hide Received, Good, Logged, Goes, Sources, Total, Whole, AnswerOf, EntriesOk, OpensOk, PendingOk;
    ClosingDistinct(copy, Reached(copy, pos.k), pos.m, s);
    SameCounts(s, pos.m);
    FileTotal(copy, pos);
  }

  lemma DiffersCounts(s: State, id: nat, from: nat)
    requires s.landing.None? && id in s.pending && Received(s, DiffersItem(id, from)).On? && from <= s.pending[id].header.size
    ensures var p := s.pending[id];
            Grows(s, Received(s, DiffersItem(id, from)).state,
                  NOTHING.(added := if p.existed then 0 else 1, replaced := if p.existed then 1 else 0,
                           resumed := if from > 0 then 1 else 0, bytes := p.header.size - from))
  {
  }

  lemma DiffersTallies(copy: Copy, pos: Pos, from: nat, s: State)
    requires Starts(copy) && Stands(copy, pos, s) && pos.at.None? && After(copy, pos, DiffersItem(pos.m, from)).Some?
    requires Tallies(copy, pos, s) && Received(s, DiffersItem(pos.m, from)).On?
    ensures Tallies(copy, pos.(m := pos.m + 1), Received(s, DiffersItem(pos.m, from)).state)
  {
    hide Received, Good, Logged, Goes, Sources, Total, Whole, AnswerOf, EntriesOk, OpensOk, ClosingOk, SeenOk, NextHead, AllSent;
    DiffersCounts(s, pos.m, from);
    FileTotal(copy, pos);
  }

  lemma DataTallies(copy: Copy, pos: Pos, from: nat, s: State)
    requires Starts(copy) && Stands(copy, pos, s) && pos.at.None? && After(copy, pos, DataItem(pos.m, from)).Some?
    requires Tallies(copy, pos, s) && Received(s, DataItem(pos.m, from)).On?
    ensures Tallies(copy, pos.(at := Some(from)), Received(s, DataItem(pos.m, from)).state)
  {
    hide Received, Good, Logged, Goes, Sources, Whole, AnswerOf, EntriesOk, OpensOk, ClosingOk;
    NextFileIs(copy, pos.k, pos.m);
    PendingHere(copy, Reached(copy, pos.k), pos.m, s);
    DataCounts(s, pos.m, from);
  }

  lemma DataCounts(s: State, id: nat, from: nat)
    requires s.landing.None? && id in s.pending && Received(s, DataItem(id, from)).On?
    ensures Received(s, DataItem(id, from)).state.summary == s.summary
    ensures forall p :: p in Received(s, DataItem(id, from)).state.files ==> p in s.files || p == PartPath(s.pending[id])
  {
  }

  lemma ChunkTallies(copy: Copy, pos: Pos, bytes: seq<byte>, s: State)
    requires Starts(copy) && Stands(copy, pos, s) && pos.at.Some? && After(copy, pos, ChunkItem(bytes)).Some?
    requires Tallies(copy, pos, s) && Received(s, ChunkItem(bytes)).On?
    ensures Tallies(copy, pos.(at := Some(pos.at.value + |bytes|)), Received(s, ChunkItem(bytes)).state)
  {
    hide Good, Logged, Goes, Sources, Whole, AnswerOf, OpensOk, ClosingOk, PendingOk, AllFiles, FilesTotal, HeadsTotal;
  }

  lemma SentCounts(s: State, part: Path)
    requires s.landing.Some? && PartPath(s.landing.value.p) == part && Received(s, SentItem).On? && DistinctPaths(s.closing)
    ensures var t, l := Received(s, SentItem).state, s.landing.value;
            && t.summary == Counted(s.summary, l.p, l.from)
            && forall p :: p in t.files ==> (p in s.files && p != part) || p == PathIn(l.p.folder, l.p.header.name)
  {
    hide CloseReady;
    var l := s.landing.value;
    var path := PathIn(l.p.folder, l.p.header.name);
    var time := if s.opts.keepTimes && l.p.header.mtime.Some? then At(l.p.header.mtime.value) else Arrived;
    var entry := s.files[part].(mode := Landed(l.p.header.mode), time := time);
    CloseCounts(Touched(s.(files := (s.files - {part})[path := entry],
                           summary := Counted(s.summary, l.p, l.from), landing := None), l.p.folder));
  }

  lemma SentTallies(copy: Copy, pos: Pos, s: State)
    requires Starts(copy) && Stands(copy, pos, s) && pos.at.Some? && After(copy, pos, SentItem).Some?
    requires Tallies(copy, pos, s) && Received(s, SentItem).On?
    ensures Tallies(copy, pos.(m := pos.m + 1, at := None), Received(s, SentItem).state)
  {
    hide Received, Good, Logged, Goes, Sources, Whole, AnswerOf, OpensOk, PendingOk, AllFiles, Total, Mid, NextFile, LeftAt;
    MidFacts(copy, pos.k, pos.m, s);
    MidHere(copy, pos.k, pos.m, s);
    SameUnchanged(copy, Reached(copy, pos.k), pos.m);
    SentCounts(s, PartOf(FilesAt(copy, pos)[pos.m].path));
    SentTotal(copy, pos, s.landing.value.p, s.landing.value.from);
  }

  lemma MidFacts(copy: Copy, k: nat, m: nat, s: State)
    requires Mid(copy, k, m, s)
    ensures s.landing.Some? && m < |Reached(copy, k).files|
    ensures var h, l := Reached(copy, k).files[m], s.landing.value;
            && DistinctPaths(s.closing) && h.FileHead? && h.path != [] && !Unchanged(copy, h.path)
            && l.from == SendFrom(h.content, AnswerOf(copy, h, m))
  {
    ClosingDistinct(copy, Reached(copy, k), m, s);
  }

  lemma SentTotal(copy: Copy, pos: Pos, p: Pending, from: nat)
    requires HasFile(copy, pos) && pos.at == Some(|FileNext(copy, pos)|)
    requires from == SendFrom(FileNext(copy, pos), AnswerNext(copy, pos))
    requires !IsSame(FileNext(copy, pos), AnswerNext(copy, pos))
    requires p.existed == (FilesAt(copy, pos)[pos.m].path in copy.there)
    ensures Total(copy, pos.(m := pos.m + 1, at := None)) == Counted(Total(copy, pos), p, from)
  {
    hide AnswerOf, SendFrom, IsSame, Reached, HeadsTotal;
    FileTotal(copy, pos);
  }

  lemma InAFile(copy: Copy, pos: Pos, item: Item)
    requires After(copy, pos, item).Some? && (item.ChunkItem? || item.SentItem?)
    ensures pos.at.Some?
  {
    hide Reached, Goes, NextHead;
  }

  /** The counts stay what the trees say, whatever comes. */
  lemma TallyComes(copy: Copy, pos: Pos, item: Item, s: State)
    requires Starts(copy) && Stands(copy, pos, s) && After(copy, pos, item).Some? && Received(s, item).On?
    requires NoParts(copy.there) && Tallies(copy, pos, s)
    ensures Tallies(copy, After(copy, pos, item).value, Received(s, item).state)
  {
    hide Inv, Mid, Good, Logged, Whole, Sources, Next, Tallies, HeadAfter, NoParts;
    match item
    case FailedItem => FailedOver(s);
    case DoneItem => DoneOver(s);
    case SameItem(id) => SameTallies(copy, pos, s);
    case DiffersItem(id, from) => DiffersTallies(copy, pos, from, s);
    case DataItem(id, from) => DataTallies(copy, pos, from, s);
    case ChunkItem(bytes) =>
      InAFile(copy, pos, item);
      ChunkTallies(copy, pos, bytes, s);
    case SentItem =>
      InAFile(copy, pos, item);
      SentTallies(copy, pos, s);
    case DirItem(_, _, _) => HeadTallies(copy, pos, item, s);
    case ContentsItem(_, _) => HeadTallies(copy, pos, item, s);
    case FileItem(_) => HeadTallies(copy, pos, item, s);
    case LinkItem(_, _) => HeadTallies(copy, pos, item, s);
    case EndItem => HeadTallies(copy, pos, item, s);
    case SkippedItem(_) => HeadTallies(copy, pos, item, s);
  }

  lemma FailedOver(s: State)
    ensures Received(s, FailedItem).Over?
  {
  }

  lemma DoneOver(s: State)
    ensures Received(s, DoneItem).Over?
  {
  }

  // ---- where the receiver is, and what it counted ----------------------------------------------------

  /** The receiver is at `pos`: its state is the one for it, and so are its counts. */
  ghost predicate IsAt(copy: Copy, pos: Pos, s: State) {
    Stands(copy, pos, s) && (NoParts(copy.there) ==> Tallies(copy, pos, s))
  }

  lemma IsLeft(copy: Copy, pos: Pos, s: State)
    requires Starts(copy) && IsAt(copy, pos, s)
    ensures LeftAt(copy, pos, s.files)
  {
    StandsLeft(copy, pos, s);
  }

  /** What an item that may come comes to: on to where it leads; the end, at the end; or a stop with
      nothing lost, malformed only if the sender gave up in the middle of a file. */
  ghost predicate Outcome(copy: Copy, pos: Pos, item: Item, s: State, r: Step)
    requires After(copy, pos, item).Some?
  {
    && StandsOutcome(copy, pos, item, s, r)
    && (r.On? ==> IsAt(copy, After(copy, pos, item).value, r.state))
  }

  /** The receiver goes where the items lead. */
  lemma ItemComes(copy: Copy, pos: Pos, item: Item, s: State)
    requires Starts(copy) && IsAt(copy, pos, s) && After(copy, pos, item).Some?
    ensures Outcome(copy, pos, item, s, Received(s, item))
  {
    hide Received, Stands, After, Tallies, AnswersFor, LeftAt, NoParts;
    ItemStands(copy, pos, item, s);
    if NoParts(copy.there) && Received(s, item).On? { TallyComes(copy, pos, item, s); }
  }
}
