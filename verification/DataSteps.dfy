/** A file's bytes received, from the byte they go on from to its last. */
module DataSteps {
  import opened Bytes
  import opened Files
  import opened Walk
  import opened Course
  import opened Receive
  import opened Closing
  import opened Landing
  import opened LandFacts
  import opened Settling
  import opened FileSteps
  import opened HeadSteps

  lemma InOpenDir(copy: Copy, w: Walk, m: nat, d: Path)
    requires NextFile(copy, w, m) && Closed(copy, w, m, d)
    ensures d != Parent(w.files[m].path)
  {
    assert Parent(w.files[m].path) <= w.files[m].path;
  }

  /** Bytes put in the file's part change nothing else. */
  lemma PartPut(copy: Copy, w: Walk, m: nat, s: State, t: State, entry: Entry)
    requires NextFile(copy, w, m) && Whole(s.files) && AllFiles(copy, w, m, s.files) && AllParts(copy, w, m + 1, s.files)
    requires entry.File? && !IsDir(s.files, PartOf(w.files[m].path))
    requires t.files == s.files[PartOf(w.files[m].path) := entry]
    ensures Whole(t.files) && AllFiles(copy, w, m, t.files) && AllParts(copy, w, m + 1, t.files)
  {
    var q, n := w.files[m].path, m + 1;
    var part := PartOf(q);
    FolderThere(copy, w, m, s.files);
    ChildPath(Parent(q), PartName(Leaf(q)));
    PutWhole(s.files, part, entry);
    PartsDiffer(q, q);
    forall p ensures FileOk(copy, w, m, t.files, p) {
      assert FileOk(copy, w, m, s.files, p);
    }
    forall p ensures PartOk(copy, w, n, t.files, p) {
      assert PartOk(copy, w, n, s.files, p);
      DoneOneMore(copy, w, m, p);
      if p != [] { PartsDiffer(p, q); }
    }
  }

  lemma TimesPut(copy: Copy, w: Walk, m: nat, s: State, t: State)
    requires NextFile(copy, w, m) && forall d :: TimeOk(copy, w, m, s, d)
    requires TouchedAt(s.times, t.times, Parent(w.files[m].path))
    ensures forall d :: TimeOk(copy, w, m, t, d)
  {
    forall d ensures TimeOk(copy, w, m, t, d) {
      assert TimeOk(copy, w, m, s, d);
      TimeKept(s.times, t.times, Parent(w.files[m].path), d);
      if Closed(copy, w, m, d) { InOpenDir(copy, w, m, d); }
    }
  }

  lemma RestStays(copy: Copy, w: Walk, m: nat, s: State, t: State)
    requires SetUp(copy, s) && OpensOk(copy, w, s) && AllSeen(copy, w, m, s) && ClosingOk(copy, w, m, s)
    requires t == s.(pending := t.pending, landing := t.landing, times := t.times, summary := t.summary, files := t.files)
    ensures SetUp(copy, t) && OpensOk(copy, w, t) && AllSeen(copy, w, m, t) && ClosingOk(copy, w, m, t)
  {
    hide Ended, Closed, Gone, NeedsPart;
    forall i ensures SeenOk(copy, w, m, t, i) { assert SeenOk(copy, w, m, s, i); }
  }

  lemma MidIs(copy: Copy, k: nat, m: nat, s: State, t: State, entry: Entry)
    requires NextFile(copy, Reached(copy, k), m) && !copy.opts.dryRun
    requires var w := Reached(copy, k);
             && SetUp(copy, s) && OpensOk(copy, w, s) && AllSeen(copy, w, m, s) && ClosingOk(copy, w, m, s)
             && Whole(s.files) && AllFiles(copy, w, m, s.files) && AllParts(copy, w, m + 1, s.files)
             && (forall d :: TimeOk(copy, w, m, s, d))
             && entry.File? && !IsDir(s.files, PartOf(w.files[m].path))
             && t == s.(pending := t.pending, landing := t.landing, times := t.times, summary := t.summary,
                        files := s.files[PartOf(w.files[m].path) := entry])
             && TouchedAt(s.times, t.times, Parent(w.files[m].path))
             && PendingOk(copy, w, m + 1, t) && t.landing.Some? && MidPart(copy, w, m, t)
    ensures Mid(copy, k, m, t)
  {
    hide Whole, AllFiles, AllParts, AllSeen, SetUp, OpensOk, ClosingOk, PendingOk, TimeOk, MidPart;
    var w := Reached(copy, k);
    PartPut(copy, w, m, s, t, entry);
    TimesPut(copy, w, m, s, t);
    RestStays(copy, w, m, s, t);
  }

  // ---- its first byte ------------------------------------------------------------------------------

  lemma DataStep(copy: Copy, k: nat, m: nat, s: State)
    requires Starts(copy) && Inv(copy, k, m, s) && m < |Reached(copy, k).files| && Reached(copy, k).files[m].FileHead?
    requires Reached(copy, k).files[m].path != [] && !copy.opts.dryRun
    requires var h := Reached(copy, k).files[m]; !IsSame(h.content, AnswerOf(copy, h, m))
    ensures var h := Reached(copy, k).files[m];
            var from := SendFrom(h.content, AnswerOf(copy, h, m));
            var r := Received(s, DataItem(m, from));
            || r == Over(s.files, None, Some(Io))
            || (r.On? && r.answer.None? && Mid(copy, k, m, r.state) && r.state.landing.value.at == from)
  {
    var w := Reached(copy, k);
    var h := w.files[m];
    var from, part := SendFrom(h.content, AnswerOf(copy, h, m)), PartOf(h.path);
    NextFileIs(copy, k, m);
    SameUnchanged(copy, w, m);
    PendingHere(copy, w, m, s);
    PresentFor(copy, w, m);
    ChildPath(Parent(h.path), PartName(Leaf(h.path)));
    DataIs(s, m, from, part);
    PartBegins(copy, w, m, s);
    if Part(s.files, part, from).Some? {
      DataBegins(copy, k, m, s, Received(s, DataItem(m, from)).state, from);
    }
  }

  lemma DataBegins(copy: Copy, k: nat, m: nat, s: State, t: State, from: nat)
    requires Inv(copy, k, m, s) && NextFile(copy, Reached(copy, k), m) && !copy.opts.dryRun
    requires var w := Reached(copy, k);
             var h, part := w.files[m], PartOf(w.files[m].path);
             && from == SendFrom(h.content, AnswerOf(copy, h, m)) && !Unchanged(copy, h.path)
             && m in s.pending && s.pending[m] == PendingOf(copy, w, m)
             && Part(s.files, part, from).Some?
             && Part(s.files, part, from).value.File? && Part(s.files, part, from).value.content == h.content[..from]
             && t == s.(pending := s.pending - {m}, files := s.files[part := Part(s.files, part, from).value],
                        landing := Some(Landing(s.pending[m], from, from)), times := t.times)
             && TouchedAt(s.times, t.times, Parent(h.path))
    ensures Mid(copy, k, m, t)
  {
    var w := Reached(copy, k);
    var part := PartOf(w.files[m].path);
    DonePending(copy, w, m, s, t);
    PartsOneMore(copy, w, m, s.files);
    MidIs(copy, k, m, s, t, Part(s.files, part, from).value);
  }

  // ---- its chunks ------------------------------------------------------------------------------------

  lemma MidHere(copy: Copy, k: nat, m: nat, s: State)
    requires Starts(copy) && Mid(copy, k, m, s)
    ensures NextFile(copy, Reached(copy, k), m)
    ensures var w := Reached(copy, k);
            var q, l := w.files[m].path, s.landing.value;
            && PathIn(l.p.folder, l.p.header.name) == q && PartPath(l.p) == PartOf(q)
            && l.p.folder.path == Parent(q) && Plain(q) && PartOf(q) != q
            && l.p.header == HeaderOf(w.files[m], m) && l.p.existed == (q in copy.there)
  {
    var w := Reached(copy, k);
    var q := w.files[m].path;
    NextFileIs(copy, k, m);
    PathInFolder(copy, q, PartName(Leaf(q)));
    InFolderPath(copy, q);
    SentProper(copy, q);
    PartsDiffer(q, q);
  }

  lemma WriteOn(content: seq<byte>, at: nat, n: nat)
    requires at + n <= |content|
    ensures Overwritten(content[..at], at, content[at..at + n]) == content[..at + n]
  {
    assert Padded(content[..at], at) == content[..at];
  }

  lemma ChunkIs(s: State, bytes: seq<byte>, part: Path)
    requires s.landing.Some? && PartPath(s.landing.value.p) == part && part in s.files && s.files[part].File?
    ensures var r, l := Received(s, ChunkItem(bytes)), s.landing.value;
            && r.On? && r.answer.None?
            && r.state == s.(files := s.files[part := s.files[part].(content := Overwritten(s.files[part].content, l.at, bytes), time := Arrived)],
                             landing := Some(l.(at := l.at + |bytes|)),
                             summary := s.summary.(bytes := s.summary.bytes + |bytes|))
  {
  }

  /** The receiver with a chunk of the file on its part. */
  ghost function Chunked(copy: Copy, w: Walk, m: nat, s: State, n: nat): State
    requires m < |w.files| && w.files[m].FileHead? && w.files[m].path != [] && s.landing.Some?
    requires s.landing.value.at + n <= |w.files[m].content| && PartOf(w.files[m].path) in s.files && s.files[PartOf(w.files[m].path)].File?
  {
    var part, at := PartOf(w.files[m].path), s.landing.value.at;
    s.(files := s.files[part := s.files[part].(content := w.files[m].content[..at + n], time := Arrived)],
       landing := Some(s.landing.value.(at := at + n)),
       summary := s.summary.(bytes := s.summary.bytes + n))
  }

  lemma MidParts(copy: Copy, k: nat, m: nat, s: State)
    requires Starts(copy) && Mid(copy, k, m, s)
    ensures var w := Reached(copy, k);
            && NextFile(copy, w, m) && s.landing.Some? && w.files[m].FileHead? && w.files[m].path != []
            && PartOf(w.files[m].path) in s.files && s.files[PartOf(w.files[m].path)].File?
            && s.files[PartOf(w.files[m].path)].content == w.files[m].content[..s.landing.value.at]
            && PartPath(s.landing.value.p) == PartOf(w.files[m].path)
  {
    MidHere(copy, k, m, s);
  }

  lemma ChunkKeeps(copy: Copy, k: nat, m: nat, s: State, n: nat)
    requires Starts(copy) && Mid(copy, k, m, s)
    requires s.landing.value.at + n <= |Reached(copy, k).files[m].content|
    ensures NextFile(copy, Reached(copy, k), m) && s.landing.Some? && Reached(copy, k).files[m].FileHead? && Reached(copy, k).files[m].path != []
    ensures PartOf(Reached(copy, k).files[m].path) in s.files && s.files[PartOf(Reached(copy, k).files[m].path)].File?
    ensures Mid(copy, k, m, Chunked(copy, Reached(copy, k), m, s, n))
  {
    hide AllFiles, AllParts, AllSeen, ClosingOk, OpensOk, TimeOk, Whole, Reached, Good, Logged, SetUp;
    MidParts(copy, k, m, s);
    var w := Reached(copy, k);
    var t := Chunked(copy, w, m, s, n);
    MidIs(copy, k, m, s, t, t.files[PartOf(w.files[m].path)]);
  }

  /** A chunk of the file goes on its part. */
  lemma ChunkStep(copy: Copy, k: nat, m: nat, s: State, n: nat)
    requires Starts(copy) && Mid(copy, k, m, s)
    requires s.landing.value.at + n <= |Reached(copy, k).files[m].content|
    ensures var at := s.landing.value.at;
            var r := Received(s, ChunkItem(Reached(copy, k).files[m].content[at..at + n]));
            r.On? && r.answer.None? && Mid(copy, k, m, r.state) && r.state.landing.value.at == at + n
  {
    hide Mid, Received, Overwritten, Reached, Starts, NextFile;
    MidParts(copy, k, m, s);
    ChunkKeeps(copy, k, m, s, n);
    var w := Reached(copy, k);
    var h, at := w.files[m], s.landing.value.at;
    var bytes := h.content[at..at + n];
    ChunkIs(s, bytes, PartOf(h.path));
    WriteOn(h.content, at, n);
  }

  // ---- its end ---------------------------------------------------------------------------------------

  ghost function LandedAt(copy: Copy, w: Walk, m: nat, s: State): State
    requires m < |w.files| && w.files[m].path != [] && SentFile(copy, w.files[m].path) && s.landing.Some?
  {
    var q := w.files[m].path;
    Touched(s.(files := (s.files - {PartOf(q)})[q := FileLanded(copy, q)],
               summary := Counted(s.summary, s.landing.value.p, s.landing.value.from),
               landing := None), s.landing.value.p.folder)
  }

  lemma SentIs(copy: Copy, w: Walk, m: nat, s: State)
    requires NextFile(copy, w, m) && s.landing.Some? && MidPart(copy, w, m, s) && s.opts == copy.opts
    requires var q, l := w.files[m].path, s.landing.value;
             && PathIn(l.p.folder, l.p.header.name) == q && PartPath(l.p) == PartOf(q) && l.at == |w.files[m].content|
             && l.p.header == HeaderOf(w.files[m], m)
    ensures var r, q := Received(s, SentItem), w.files[m].path;
            if IsDir(s.files, q) then
              r.Over? && r.summary.None? && r.fail == Some(Io)
              && PartOf(q) in r.files && r.files[PartOf(q)].File? && r.files == s.files[PartOf(q) := r.files[PartOf(q)]]
            else r == On(CloseReady(LandedAt(copy, w, m, s)), None)
  {
    var h := w.files[m];
    assert h.content[..|h.content|] == h.content;
  }

  lemma FileInPlace(copy: Copy, w: Walk, m: nat, files: Files, after: Files)
    requires NextFile(copy, w, m) && Whole(files) && AllFiles(copy, w, m, files)
    requires var q := w.files[m].path;
             && Plain(q) && PartOf(q) != q && !IsDir(files, q) && PartOf(q) in files && files[PartOf(q)].File?
             && after == (files - {PartOf(q)})[q := FileLanded(copy, q)]
    ensures Whole(after)
  {
    var q := w.files[m].path;
    FolderThere(copy, w, m, files);
    PartsDiffer(q, q);
    var less := files - {PartOf(q)};
    assert Whole(less) by {
      forall p | p in less && p != [] ensures IsDir(less, Parent(p)) { assert IsDir(files, Parent(p)); }
    }
    assert PartOf(q) != Parent(q);
    PutWhole(less, q, FileLanded(copy, q));
  }

  lemma LandedEntries(copy: Copy, k: nat, m: nat, s: State)
    requires Starts(copy) && Mid(copy, k, m, s) && NextFile(copy, Reached(copy, k), m)
    requires var q := Reached(copy, k).files[m].path;
             Plain(q) && PartOf(q) != q && !IsDir(s.files, q) && s.landing.value.p.folder.path == Parent(q)
    ensures EntriesPre(copy, Reached(copy, k), m + 1, LandedAt(copy, Reached(copy, k), m, s))
  {
    var w := Reached(copy, k);
    var q, t := w.files[m].path, LandedAt(copy, w, m, s);
    FileInPlace(copy, w, m, s.files, t.files);
    MovedSame(copy, s.files, t.files, q, FileLanded(copy, q));
    LandedOf(copy, w, m, s, t);
  }

  /** The file in place of its part, all else is as it was. */
  lemma MovedSame(copy: Copy, files: Files, after: Files, q: Path, entry: Entry)
    requires q != [] && Plain(q) && after == (files - {PartOf(q)})[q := entry]
    ensures forall p :: Plain(p) && p != q ==> Get(after, p) == Get(files, p)
    ensures forall p :: SentFile(copy, p) && p != [] && p != q ==> Get(after, PartOf(p)) == Get(files, PartOf(p))
  {
    PartsDiffer(q, q);
    forall p | SentFile(copy, p) && p != [] && p != q ensures Get(after, PartOf(p)) == Get(files, PartOf(p)) {
      PartsDiffer(p, q);
      PartsDiffer(p, p);
    }
  }

  lemma LandedOf(copy: Copy, w: Walk, m: nat, s: State, t: State)
    requires NextFile(copy, w, m) && ClosingOk(copy, w, m, s) && !copy.opts.dryRun
    requires AllFiles(copy, w, m, s.files) && AllParts(copy, w, m + 1, s.files) && forall d :: TimeOk(copy, w, m, s, d)
    requires s.landing.Some? && t == LandedAt(copy, w, m, s) && s.landing.value.p.folder.path == Parent(w.files[m].path)
    requires Whole(t.files)
    requires forall p :: Plain(p) && p != w.files[m].path ==> Get(t.files, p) == Get(s.files, p)
    requires forall p :: SentFile(copy, p) && p != [] && p != w.files[m].path ==>
               Get(t.files, PartOf(p)) == Get(s.files, PartOf(p))
    ensures EntriesPre(copy, w, m + 1, t)
  {
    DoneEntries(copy, w, m, s, t);
  }

  /** All the file's bytes came: it is done. */
  lemma SentStep(copy: Copy, k: nat, m: nat, s: State)
    requires Starts(copy) && Mid(copy, k, m, s)
    requires s.landing.value.at == |Reached(copy, k).files[m].content|
    ensures var r := Received(s, SentItem);
            || (r.On? && r.answer.None? && Inv(copy, k, m + 1, r.state))
            || (r.Over? && r.summary.None? && r.fail == Some(Io) && Whole(r.files) && AllFiles(copy, Reached(copy, k), m, r.files))
  {
    var w := Reached(copy, k);
    var q := w.files[m].path;
    MidHere(copy, k, m, s);
    SentIs(copy, w, m, s);
    if IsDir(s.files, q) {
      var entry := Received(s, SentItem).files[PartOf(q)];
      OtherFiles(copy, w, m, s.files, q, entry);
      PartStaysWhole(s.files, PartOf(q), entry);
    } else {
      var t := LandedAt(copy, w, m, s);
      LandedEntries(copy, k, m, s);
      DoneKeeps(copy, w, m, s, t);
      ClosingKeeps(copy, k, m + 1, t);
    }
  }

  lemma OtherFiles(copy: Copy, w: Walk, m: nat, files: Files, q: Path, entry: Entry)
    requires AllFiles(copy, w, m, files) && q != []
    ensures AllFiles(copy, w, m, files[PartOf(q) := entry])
  {
    PartsDiffer(q, q);
    var after := files[PartOf(q) := entry];
    forall p ensures FileOk(copy, w, m, after, p) { assert FileOk(copy, w, m, files, p); }
  }

  lemma PartStaysWhole(files: Files, part: Path, entry: Entry)
    requires Whole(files) && part in files && files[part].File? && entry.File?
    ensures Whole(files[part := entry])
  {
    var after := files[part := entry];
    forall p | p in after && p != [] ensures IsDir(after, Parent(p)) { assert p in files; }
  }
}
