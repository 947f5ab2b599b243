/** A file's bytes received, or that it is the same: the file is done, and its directories closer to
    closing. */
module FileSteps {
  import opened Bytes
  import opened Files
  import opened Walk
  import opened Course
  import opened Receive
  import opened Closing
  import opened Landing
  import opened LandFacts
  import opened Settling

  /** The walk is at `w`, and the bytes of its file `m` are the next to come. */
  ghost predicate NextFile(copy: Copy, w: Walk, m: nat) {
    && Starts(copy) && Good(copy, w) && Logged(copy, w) && m < |w.files|
    && GoodLog(copy, w, m)
  }

  /** Every part that may be gone on from is as it was. */
  ghost predicate AllParts(copy: Copy, w: Walk, m: nat, files: Files) {
    forall p :: PartOk(copy, w, m, files, p)
  }

  ghost predicate AllSeen(copy: Copy, w: Walk, m: nat, s: State) {
    forall i :: SeenOk(copy, w, m, s, i)
  }

  lemma NextFileIs(copy: Copy, k: nat, m: nat)
    requires Starts(copy) && m < |Reached(copy, k).files|
    ensures NextFile(copy, Reached(copy, k), m)
  {
    ReachedGood(copy, k);
    assert GoodLog(copy, Reached(copy, k), m);
  }

  lemma DoneOneMore(copy: Copy, w: Walk, m: nat, p: Path)
    requires NextFile(copy, w, m)
    ensures FileDone(w, m + 1, p) <==> FileDone(w, m, p) || p == w.files[m].path
    ensures !FileDone(w, m, w.files[m].path)
  {
    if FileDone(w, m, p) {
      var i :| 0 <= i < m && i < |w.files| && w.files[i].path == p;
      assert i < m + 1;
    }
  }

  /** Of the directories that ended, those a file held are still waiting. */
  lemma DoneFlag(copy: Copy, w: Walk, m: nat, s: State, t: State, d: Path)
    requires NextFile(copy, w, m) && ClosingOk(copy, w, m, s) && !copy.opts.dryRun && t.closing == s.closing
    ensures Closed(copy, w, m, d) ==> Closed(copy, w, m + 1, d)
    ensures Closed(copy, w, m + 1, d) && !Waiting(t, d) <==> Closed(copy, w, m, d)
    ensures Closed(copy, w, m, d) ==> !(d <= w.files[m].path)
  {
    if Closed(copy, w, m, d) {
      forall f | f in s.closing ensures f.path != d {
        var i :| 0 <= i < |s.closing| && s.closing[i] == f;
      }
    } else if Ended(copy, w, d) {
      assert FolderFor(copy, d) in t.closing && FolderFor(copy, d).path == d;
    }
  }

  lemma DoneExpected(copy: Copy, w: Walk, m: nat, p: Path, closed: bool)
    requires NextFile(copy, w, m)
    ensures var q := w.files[m].path;
            && (p != q ==> ExpectedWith(copy, w, m + 1, p, closed) == ExpectedWith(copy, w, m, p, closed))
            && ExpectedWith(copy, w, m + 1, q, closed) == Some(FileLanded(copy, q))
            && ExpectedWith(copy, w, m, q, closed) == Get(copy.there, q)
  {
    DoneOneMore(copy, w, m, p);
    DoneOneMore(copy, w, m, w.files[m].path);
  }

  lemma DonePart(copy: Copy, w: Walk, m: nat, files: Files, after: Files, p: Path)
    requires NextFile(copy, w, m) && PartOk(copy, w, m, files, p)
    requires SentFile(copy, p) && p != [] && p != w.files[m].path ==> Get(after, PartOf(p)) == Get(files, PartOf(p))
    ensures PartOk(copy, w, m + 1, after, p)
  {
    DoneOneMore(copy, w, m, p);
  }

  lemma DonePending(copy: Copy, w: Walk, m: nat, s: State, t: State)
    requires PendingOk(copy, w, m, s) && m < |w.files| && t.pending == s.pending - {m}
    ensures PendingOk(copy, w, m + 1, t)
  {
  }

  lemma DoneSeen(copy: Copy, w: Walk, m: nat, s: State, t: State)
    requires AllSeen(copy, w, m, s) && t.open == s.open
    ensures AllSeen(copy, w, m + 1, t)
  {
    var n := m + 1;
    forall i ensures SeenOk(copy, w, n, t, i) { assert SeenOk(copy, w, m, s, i); }
  }

  lemma DoneClosing(copy: Copy, w: Walk, m: nat, s: State, t: State)
    requires NextFile(copy, w, m) && ClosingOk(copy, w, m, s) && t.closing == s.closing
    ensures ClosingPre(copy, w, m + 1, t)
  {
    if !copy.opts.dryRun {
      forall f | f in t.closing ensures Ended(copy, w, f.path) && f == FolderFor(copy, f.path) {
        var i :| 0 <= i < |s.closing| && s.closing[i] == f;
      }
      forall d | Ended(copy, w, d) && !Closed(copy, w, m + 1, d) ensures FolderFor(copy, d) in t.closing {
        DoneFlag(copy, w, m, s, t, d);
      }
    }
  }

  /** The entries with the file in place. */
  lemma DoneEntries(copy: Copy, w: Walk, m: nat, s: State, t: State)
    requires NextFile(copy, w, m) && ClosingOk(copy, w, m, s) && !copy.opts.dryRun && t.closing == s.closing
    requires Whole(t.files) && Get(t.files, w.files[m].path) == Some(FileLanded(copy, w.files[m].path))
    requires forall p :: FileOk(copy, w, m, s.files, p)
    requires AllParts(copy, w, m + 1, s.files)
    requires forall d :: TimeOk(copy, w, m, s, d)
    requires forall p :: Plain(p) && p != w.files[m].path ==> Get(t.files, p) == Get(s.files, p)
    requires forall p :: SentFile(copy, p) && p != [] && p != w.files[m].path ==>
               Get(t.files, PartOf(p)) == Get(s.files, PartOf(p))
    requires TouchedAt(s.times, t.times, Parent(w.files[m].path))
    ensures EntriesPre(copy, w, m + 1, t)
  {
    var q, n := w.files[m].path, m + 1;
    forall p ensures FilePre(copy, w, n, t, p) {
      assert FileOk(copy, w, m, s.files, p);
      DoneFlag(copy, w, m, s, t, p);
      DoneExpected(copy, w, m, p, Closed(copy, w, m, p));
    }
    forall p ensures PartOk(copy, w, n, t.files, p) {
      assert PartOk(copy, w, m + 1, s.files, p);
      DoneOneMore(copy, w, m, p);
    }
    forall d ensures TimePre(copy, w, n, t, d) {
      assert TimeOk(copy, w, m, s, d);
      TimeKept(s.times, t.times, Parent(q), d);
      DoneFlag(copy, w, m, s, t, d);
      assert Parent(q) <= q;
    }
  }

  lemma PartsOneMore(copy: Copy, w: Walk, m: nat, files: Files)
    requires NextFile(copy, w, m) && AllParts(copy, w, m, files)
    ensures AllParts(copy, w, m + 1, files)
  {
    var n := m + 1;
    forall p ensures PartOk(copy, w, n, files, p) {
      assert PartOk(copy, w, m, files, p);
      DonePart(copy, w, m, files, files, p);
    }
  }

  // ---- the answer and what it gets -------------------------------------------------------------------

  /** From which byte on the sender sends a file: after what the receiver holds, if that is how the
      file begins. */
  function SendFrom(content: seq<byte>, answer: Answer): (from: nat)
    ensures from <= |content|
    ensures from > 0 ==> answer.Want? && from == answer.have && answer.prefix == Some(content[..from])
  {
    if answer.Want? && 0 < answer.have <= |content| && answer.prefix == Some(content[..answer.have])
    then answer.have else 0
  }

  /** Whether the sender answers that the file is the same. */
  predicate IsSame(content: seq<byte>, answer: Answer) {
    answer.Check? && answer.hash == content
  }

  lemma SameUnchanged(copy: Copy, w: Walk, m: nat)
    requires NextFile(copy, w, m)
    ensures var h := w.files[m];
            IsSame(h.content, AnswerOf(copy, h, m)) <==> Unchanged(copy, h.path)
  {
  }

  // ---- the same ------------------------------------------------------------------------------------

  lemma SameIs(s: State, id: nat, q: Path)
    requires s.landing.None? && id in s.pending && PathIn(s.pending[id].folder, s.pending[id].header.name) == q
    requires q in s.files && s.files[q].File? && (s.opts.dryRun || s.pending[id].folder.present)
    ensures Received(s, SameItem(id)).On? && Received(s, SameItem(id)).answer.None?
    ensures s.opts.dryRun ==>
              Received(s, SameItem(id)).state == s.(pending := s.pending - {id}, summary := s.summary.(same := s.summary.same + 1))
    ensures var h := s.pending[id].header;
            var entry := File(s.files[q].content, Landed(h.mode),
                              if s.opts.keepTimes && h.mtime.Some? then At(h.mtime.value) else s.files[q].time);
            !s.opts.dryRun ==>
              Received(s, SameItem(id)).state ==
              CloseReady(s.(pending := s.pending - {id}, summary := s.summary.(same := s.summary.same + 1),
                            files := s.files[q := entry]))
  {
  }

  lemma PendingHere(copy: Copy, w: Walk, m: nat, s: State)
    requires NextFile(copy, w, m) && PendingOk(copy, w, m, s)
    ensures m in s.pending && s.pending[m] == PendingOf(copy, w, m)
    ensures var q := w.files[m].path;
            && PathIn(s.pending[m].folder, s.pending[m].header.name) == q
            && PartPath(s.pending[m]) == PartOf(q)
            && s.pending[m].folder.path == Parent(q)
            && Plain(q) && PartOf(q) != q
  {
    var q := w.files[m].path;
    PathInFolder(copy, q, PartName(Leaf(q)));
    InFolderPath(copy, q);
    SentProper(copy, q);
    PartsDiffer(q, q);
  }

  lemma FileThere(copy: Copy, w: Walk, m: nat, s: State)
    requires NextFile(copy, w, m) && EntriesOk(copy, w, m, s)
    ensures Get(s.files, w.files[m].path) == Get(copy.there, w.files[m].path)
  {
    var q := w.files[m].path;
    SentProper(copy, q);
    DoneExpected(copy, w, m, q, Closed(copy, w, m, q));
    if !copy.opts.dryRun { assert FileOk(copy, w, m, s.files, q); }
  }

  lemma PresentFor(copy: Copy, w: Walk, m: nat)
    requires NextFile(copy, w, m) && !copy.opts.dryRun
    ensures FolderIn(copy, w.files[m].path).present
  {
    var q := w.files[m].path;
    if |q| > Base(copy) { UpIsSent(copy, q); }
  }

  lemma SameLands(copy: Copy, w: Walk, m: nat, s: State, t: State)
    requires NextFile(copy, w, m) && ClosingOk(copy, w, m, s) && EntriesOk(copy, w, m, s) && !copy.opts.dryRun
    requires Unchanged(copy, w.files[m].path) && Get(s.files, w.files[m].path) == Get(copy.there, w.files[m].path)
    requires t.closing == s.closing && t.times == s.times && Plain(w.files[m].path)
    requires t.files == s.files[w.files[m].path := FileLanded(copy, w.files[m].path)]
    ensures EntriesPre(copy, w, m + 1, t)
  {
    var q := w.files[m].path;
    PartsOneMore(copy, w, m, s.files);
    forall p | SentFile(copy, p) && p != [] ensures PartOf(p) != q { PartsDiffer(p, p); }
    assert Whole(t.files) by {
      forall p | p in t.files && p != [] ensures IsDir(t.files, Parent(p)) { assert p in s.files; }
    }
    DoneEntries(copy, w, m, s, t);
  }

  lemma DoneKeeps(copy: Copy, w: Walk, m: nat, s: State, t: State)
    requires NextFile(copy, w, m) && SetUp(copy, s) && OpensOk(copy, w, s) && AllSeen(copy, w, m, s)
    requires ClosingOk(copy, w, m, s) && PendingOk(copy, w, m + 1, t) && t.landing.None?
    requires t.opts == s.opts && t.top == s.top && t.named == s.named && t.placed == s.placed && t.open == s.open
    requires t.tree == s.tree && t.closing == s.closing
    requires EntriesPre(copy, w, m + 1, t)
    ensures InvPre(copy, w, m + 1, t)
  {
    DoneSeen(copy, w, m, s, t);
    DoneClosing(copy, w, m, s, t);
  }

  /** A file done in a dry run: only the counts change. */
  lemma DryDone(copy: Copy, k: nat, m: nat, s: State, t: State)
    requires Inv(copy, k, m, s) && NextFile(copy, Reached(copy, k), m) && copy.opts.dryRun
    requires t == s.(pending := s.pending - {m}, summary := t.summary)
    ensures Inv(copy, k, m + 1, t)
  {
    var w := Reached(copy, k);
    DonePending(copy, w, m, s, t);
    DoneKeeps(copy, w, m, s, t);
    DrySettled(t);
    ClosingKeeps(copy, k, m + 1, t);
  }

  lemma SameDone(copy: Copy, k: nat, m: nat, s: State, t: State)
    requires Inv(copy, k, m, s) && NextFile(copy, Reached(copy, k), m) && !copy.opts.dryRun
    requires var q := Reached(copy, k).files[m].path;
             && Unchanged(copy, q) && Get(s.files, q) == Get(copy.there, q) && Plain(q)
             && t == s.(pending := s.pending - {m}, summary := t.summary, files := s.files[q := FileLanded(copy, q)])
    ensures Inv(copy, k, m + 1, CloseReady(t))
  {
    var w := Reached(copy, k);
    DonePending(copy, w, m, s, t);
    SameLands(copy, w, m, s, t);
    DoneKeeps(copy, w, m, s, t);
    ClosingKeeps(copy, k, m + 1, t);
  }

  lemma SameState(copy: Copy, w: Walk, m: nat, s: State) returns (t: State)
    requires NextFile(copy, w, m) && PendingOk(copy, w, m, s) && SetUp(copy, s) && s.landing.None?
    requires Unchanged(copy, w.files[m].path) && Get(s.files, w.files[m].path) == Get(copy.there, w.files[m].path)
    ensures Received(s, SameItem(m)).On? && Received(s, SameItem(m)).answer.None?
    ensures Received(s, SameItem(m)).state == if copy.opts.dryRun then t else CloseReady(t)
    ensures t.summary == s.summary.(same := s.summary.same + 1)
    ensures var q := w.files[m].path;
            t == s.(pending := s.pending - {m}, summary := t.summary,
                    files := if copy.opts.dryRun then s.files else s.files[q := FileLanded(copy, q)])
  {
    var q := w.files[m].path;
    PendingHere(copy, w, m, s);
    if !copy.opts.dryRun { PresentFor(copy, w, m); }
    SameIs(s, m, q);
    t := s.(pending := s.pending - {m}, summary := s.summary.(same := s.summary.same + 1),
            files := if copy.opts.dryRun then s.files else s.files[q := FileLanded(copy, q)]);
  }

  /** The file is the same: it is done. */
  lemma SameStep(copy: Copy, k: nat, m: nat, s: State)
    requires Starts(copy) && Inv(copy, k, m, s) && m < |Reached(copy, k).files| && Reached(copy, k).files[m].FileHead?
    requires Reached(copy, k).files[m].path != []
    requires var h := Reached(copy, k).files[m]; IsSame(h.content, AnswerOf(copy, h, m))
    ensures Received(s, SameItem(m)).On? && Received(s, SameItem(m)).answer.None?
    ensures Inv(copy, k, m + 1, Received(s, SameItem(m)).state)
  {
    var w := Reached(copy, k);
    NextFileIs(copy, k, m);
    SameUnchanged(copy, w, m);
    FileThere(copy, w, m, s);
    PendingHere(copy, w, m, s);
    var t := SameState(copy, w, m, s);
    if copy.opts.dryRun { DryDone(copy, k, m, s, t); } else { SameDone(copy, k, m, s, t); }
  }

  // ---- in a dry run, it differs -----------------------------------------------------------------

  lemma DiffersIs(s: State, id: nat, from: nat)
    requires s.landing.None? && id in s.pending && s.opts.dryRun
    ensures Received(s, DiffersItem(id, from)).On? && Received(s, DiffersItem(id, from)).answer.None?
    ensures var t := Received(s, DiffersItem(id, from)).state;
            t == s.(pending := s.pending - {id}, summary := t.summary)
  {
  }

  lemma DiffersStep(copy: Copy, k: nat, m: nat, s: State, from: nat)
    requires Starts(copy) && Inv(copy, k, m, s) && m < |Reached(copy, k).files| && copy.opts.dryRun
    ensures Received(s, DiffersItem(m, from)).On? && Received(s, DiffersItem(m, from)).answer.None?
    ensures Inv(copy, k, m + 1, Received(s, DiffersItem(m, from)).state)
  {
    NextFileIs(copy, k, m);
    PendingHere(copy, Reached(copy, k), m, s);
    DiffersIs(s, m, from);
    DryDone(copy, k, m, s, Received(s, DiffersItem(m, from)).state);
  }

  // ---- its bytes -----------------------------------------------------------------------------------

  /** The file's bytes before `at` came, in its part; all else is as before the first of them. */
  ghost predicate Mid(copy: Copy, k: nat, m: nat, s: State) {
    var w := Reached(copy, k);
    && m < |w.files| && !copy.opts.dryRun && s.landing.Some?
    && SetUp(copy, s) && OpensOk(copy, w, s) && AllSeen(copy, w, m, s)
    && PendingOk(copy, w, m + 1, s) && ClosingOk(copy, w, m, s)
    && Whole(s.files) && AllFiles(copy, w, m, s.files) && AllParts(copy, w, m + 1, s.files)
    && (forall d :: TimeOk(copy, w, m, s, d))
    && MidPart(copy, w, m, s)
  }

  ghost predicate AllFiles(copy: Copy, w: Walk, m: nat, files: Files) {
    forall p :: FileOk(copy, w, m, files, p)
  }

  ghost predicate MidPart(copy: Copy, w: Walk, m: nat, s: State)
    requires m < |w.files| && s.landing.Some?
  {
    var h, l := w.files[m], s.landing.value;
    && h.FileHead? && h.path != [] && Sent(copy, h.path) && !Unchanged(copy, h.path)
    && l.p == PendingOf(copy, w, m) && l.from <= l.at <= |h.content|
    && l.from == SendFrom(h.content, AnswerOf(copy, h, m))
    && PartOf(h.path) in s.files && s.files[PartOf(h.path)].File?
    && s.files[PartOf(h.path)].content == h.content[..l.at]
  }

  lemma DataIs(s: State, id: nat, from: nat, part: Path)
    requires s.landing.None? && id in s.pending && !s.opts.dryRun && s.pending[id].folder.present
    requires PartPath(s.pending[id]) == part && part != [] && Parent(part) == s.pending[id].folder.path
    ensures var r := Received(s, DataItem(id, from));
            if Part(s.files, part, from).None? then r == Over(s.files, None, Some(Io))
            else
              && r.On? && r.answer.None?
              && r.state == s.(pending := s.pending - {id}, files := s.files[part := Part(s.files, part, from).value],
                               landing := Some(Landing(s.pending[id], from, from)), times := r.state.times)
              && TouchedAt(s.times, r.state.times, Parent(part))
  {
  }

  /** The file goes on only from a part that is how it begins. */
  lemma PartBegins(copy: Copy, w: Walk, m: nat, s: State)
    requires NextFile(copy, w, m) && EntriesOk(copy, w, m, s) && !copy.opts.dryRun
    ensures var h := w.files[m];
            var from, part := SendFrom(h.content, AnswerOf(copy, h, m)), PartOf(h.path);
            && (from > 0 ==> part in s.files && s.files[part].File? && s.files[part].content == h.content[..from])
            && (Part(s.files, part, from).Some? ==>
                  Part(s.files, part, from).value.File? && Part(s.files, part, from).value.content == h.content[..from])
  {
    var h := w.files[m];
    var from, part := SendFrom(h.content, AnswerOf(copy, h, m)), PartOf(h.path);
    if from > 0 {
      DoneOneMore(copy, w, m, h.path);
      assert NeedsPart(copy, w, m);
      assert PartOk(copy, w, m, s.files, h.path);
      assert Get(s.files, part) == Get(copy.there, part);
    } else {
      assert h.content[..from] == [];
    }
  }

  lemma SentInGone(copy: Copy, w: Walk, p: Path)
    requires Gone(copy, w, p) && |p| > Base(copy)
    ensures Gone(copy, w, Parent(p)) && SentDir(copy, Parent(p))
  {
    UpIsSent(copy, p);
    var d := Parent(p);
    assert p[..Base(copy)] == d[..Base(copy)];
    if i :| 0 <= i < |w.frames| && Owes(w.frames[i], d) {
      assert p[|w.frames[i].path|] == d[|w.frames[i].path|];
      assert Owes(w.frames[i], p);
    }
  }

  lemma FolderThere(copy: Copy, w: Walk, m: nat, files: Files)
    requires NextFile(copy, w, m) && Whole(files) && AllFiles(copy, w, m, files)
    ensures IsDir(files, Parent(w.files[m].path))
  {
    var q := w.files[m].path;
    if |q| > Base(copy) {
      SentInGone(copy, w, q);
      SentProper(copy, Parent(q));
      assert FileOk(copy, w, m, files, Parent(q));
    } else {
      assert Parent(q) == [];
    }
  }
}
