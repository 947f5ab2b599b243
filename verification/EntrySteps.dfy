/** The headers of files, symlinks and entries not copied, received. */
module EntrySteps {
  import opened Bytes
  import opened Files
  import opened Walk
  import opened Course
  import opened Receive
  import opened Closing
  import opened Landing
  import opened LandFacts
  import opened Heads
  import opened HeadSteps

  // ---- an entry not copied ---------------------------------------------------------------------

  lemma SkipInside(copy: Copy, w: Walk)
    requires Sources(copy) && Good(copy, w) && Goes(copy, w) && NextHead(copy, w).SkipHead?
    ensures w.frames != [] && NextHead(copy, w).path != [] && NextHead(copy, w).name == Leaf(NextHead(copy, w).path)
    ensures Look(copy, NextHead(copy, w).path) == Some(NOther)
  {
    HeadSays(copy, w);
  }

  lemma SkipStep(copy: Copy, k: nat, m: nat, s: State, t: State)
    requires Inv(copy, k, m, s) && Steps(copy, k) && SendsHead(copy, Reached(copy, k), m)
    requires var head := NextHead(copy, Reached(copy, k));
             && head.SkipHead? && head.path != []
             && t == s.(open := Noting(s.open, {Leaf(head.path)}), seen := t.seen, summary := t.summary)
    ensures Inv(copy, k + 1, m, t)
  {
    SkipInside(copy, Reached(copy, k));
    HeadLands(copy, Reached(copy, k), m);
    SkipKeeps(copy, k, m, s, t);
  }

  lemma SkipKeeps(copy: Copy, k: nat, m: nat, s: State, t: State)
    requires Inv(copy, k, m, s) && Steps(copy, k) && SendsHead(copy, Reached(copy, k), m)
    requires var w := Reached(copy, k);
             var q := NextHead(copy, w).path;
             && NextHead(copy, w).SkipHead? && q != [] && w.frames != []
             && Look(copy, q) == Some(NOther)
             && Expected(copy, Next(copy, w), m, q) == Get(copy.there, q)
             && t == s.(open := Noting(s.open, {Leaf(q)}), seen := t.seen, summary := t.summary)
    ensures Inv(copy, k + 1, m, t)
  {
    hide Good, Logged, Sources, Goes, EntriesOk, ClosingOk, Look, Steps;
    var w := Reached(copy, k);
    var q := NextHead(copy, w).path;
    assert Reached(copy, k + 1) == Next(copy, w);
    assert t.open == Noting(s.open, {Leaf(q)}) + PushedOn(copy, q);
    HeadOpens(copy, w, s, t, {Leaf(q)});
    HeadPendingSame(copy, w, m, s, t);
    HeadLeaves(copy, w, m, s, t);
    HeadKeeps(copy, k, m, s, t, {Leaf(q)});
  }

  // ---- a file ----------------------------------------------------------------------------------------

  /** The part of a file still to be sent is as it was. */
  lemma PartThere(copy: Copy, k: nat, m: nat, s: State, q: Path)
    requires Starts(copy) && Inv(copy, k, m, s) && SentFile(copy, q) && q != []
    requires !Gone(copy, Reached(copy, k), q) && !FileDone(Reached(copy, k), m, q)
    ensures Stat(s, FolderIn(copy, q), PartName(Leaf(q))) == Get(copy.there, PartOf(q))
  {
    PathInFolder(copy, q, PartName(Leaf(q)));
    ChildPath(Parent(q), PartName(Leaf(q)));
    if copy.opts.dryRun {
      if !FolderIn(copy, q).present { NotUnderAbsent(copy, q, PartOf(q)); }
    } else {
      assert PartOk(copy, Reached(copy, k), m, s.files, q);
    }
  }

  lemma NotDoneYet(copy: Copy, w: Walk, m: nat)
    requires SendsHead(copy, w, m)
    ensures !FileDone(w, m, NextHead(copy, w).path)
  {
    StepGone(copy, w, NextHead(copy, w).path);
    forall i | 0 <= i < |w.files| ensures w.files[i].path != NextHead(copy, w).path { assert GoodLog(copy, w, i); }
  }

  lemma HeaderStep(copy: Copy, k: nat, m: nat, s: State)
    requires Inv(copy, k, m, s) && Steps(copy, k) && SendsHead(copy, Reached(copy, k), m)
    requires var w := Reached(copy, k);
             var head := NextHead(copy, w);
             && head.FileHead? && head.path != [] && Sent(copy, head.path)
             && Header(PlacedIn(s), FolderIn(copy, head.path), HeaderOf(head, |w.files|)).Ok?
    ensures var w := Reached(copy, k);
            var head := NextHead(copy, w);
            var (t, answer) := Header(PlacedIn(s), FolderIn(copy, head.path), HeaderOf(head, |w.files|)).value;
            Inv(copy, k + 1, m, t) && answer == AnswerOf(copy, head, |w.files|)
  {
    hide Good, Logged, Sources, Goes, Whole, EntriesOk, OpensOk, PendingOk, ClosingOk;
    var w := Reached(copy, k);
    var head := NextHead(copy, w);
    var q := head.path;
    var (t, answer) := Header(PlacedIn(s), FolderIn(copy, q), HeaderOf(head, |w.files|)).value;
    HeadSays(copy, w);
    StepGone(copy, w, q);
    StatsThere(copy, k, m, s, q);
    NotDoneYet(copy, w, m);
    PartThere(copy, k, m, s, q);
    assert answer == AnswerOf(copy, head, |w.files|);
    var names := HeaderNotes(PlacedIn(s), FolderIn(copy, q), HeaderOf(head, |w.files|));
    HeaderKeeps(copy, k, m, s, t, names);
  }

  lemma HeaderNotes(s: State, folder: Folder, header: FileHeader) returns (names: set<Name>)
    requires Header(s, folder, header).Ok?
    ensures header.name in names && names <= {header.name, PartName(header.name)}
    ensures Header(s, folder, header).value.1.Want? ==> PartName(header.name) in names
    ensures var t := Header(s, folder, header).value.0;
            && t == s.(open := Noting(s.open, names), seen := t.seen, pending := t.pending)
            && t.pending == s.pending[header.id := Pending(folder, header, Stat(s, folder, header.name).Some?)]
  {
    var (t, answer) := Header(s, folder, header).value;
    SawNotes(s, header.name);
    var saw := Saw(s, header.name).value;
    if answer.Check? {
      names := {header.name};
    } else {
      SawNotes(saw, PartName(header.name));
      NotingTwice(s.open, header.name, PartName(header.name));
      names := {header.name, PartName(header.name)};
    }
  }

  lemma HeaderKeeps(copy: Copy, k: nat, m: nat, s: State, t: State, names: set<Name>)
    requires Inv(copy, k, m, s) && Steps(copy, k) && SendsHead(copy, Reached(copy, k), m)
    requires var w := Reached(copy, k);
             var head := NextHead(copy, w);
             && head.FileHead? && head.path != [] && SentFile(copy, head.path)
             && Leaf(head.path) in names && names <= {Leaf(head.path), PartName(Leaf(head.path))}
             && (AnswerOf(copy, head, |w.files|).Want? ==> PartName(Leaf(head.path)) in names)
             && t == PlacedIn(s).(open := Noting(s.open, names), seen := t.seen, pending := t.pending)
             && t.pending == s.pending[|w.files| := Pending(FolderIn(copy, head.path), HeaderOf(head, |w.files|), head.path in copy.there)]
    ensures Inv(copy, k + 1, m, t)
  {
    hide Good, Logged, Sources, Goes, EntriesOk, ClosingOk, Look, Steps, SeenOk;
    var w := Reached(copy, k);
    var q := NextHead(copy, w).path;
    assert Reached(copy, k + 1) == Next(copy, w);
    NextFiles(copy, w);
    assert PushedOn(copy, q) == [];
    assert t.open == Noting(s.open, names) + PushedOn(copy, q);
    HeadSays(copy, w);
    HeadOpens(copy, w, s, t, names);
    PendingMore(copy, w, m, s, t);
    HeadLands(copy, w, m);
    HeadLeaves(copy, w, m, s, t);
    HeadKeeps(copy, k, m, s, t, names);
  }

  lemma PendingMore(copy: Copy, w: Walk, m: nat, s: State, t: State)
    requires SendsHead(copy, w, m) && PendingOk(copy, w, m, s)
    requires var head := NextHead(copy, w);
             && head.FileHead? && head.path != [] && Sent(copy, head.path)
             && t.pending == s.pending[|w.files| := Pending(FolderIn(copy, head.path), HeaderOf(head, |w.files|), head.path in copy.there)]
    ensures PendingOk(copy, Next(copy, w), m, t)
  {
    NextFiles(copy, w);
    PendingMoreOf(copy, w, Next(copy, w), NextHead(copy, w), m, s, t);
  }

  lemma PendingMoreOf(copy: Copy, w: Walk, e: Walk, head: Head, m: nat, s: State, t: State)
    requires PendingOk(copy, w, m, s) && m <= |w.files| && e.files == w.files + [head]
    requires head.FileHead? && head.path != [] && Sent(copy, head.path)
    requires t.pending == s.pending[|w.files| := Pending(FolderIn(copy, head.path), HeaderOf(head, |w.files|), head.path in copy.there)]
    ensures PendingOk(copy, e, m, t)
  {
    hide FolderIn, Sent, HeaderOf;
    forall i | m <= i < |e.files|
      ensures e.files[i].FileHead? && e.files[i].path != [] && Sent(copy, e.files[i].path)
      ensures t.pending[i] == PendingOf(copy, e, i)
    {
      if i < |w.files| { assert e.files[i] == w.files[i]; }
    }
  }

  // ---- a symlink -------------------------------------------------------------------------------------

  /** What a symlink received leaves. */
  ghost predicate Linked(s: State, t: State, there: Option<Entry>, q: Path, target: seq<byte>)
    requires q != []
  {
    && t == s.(open := Noting(s.open, {Leaf(q)}), seen := t.seen, files := t.files, times := t.times, summary := t.summary)
    && (if s.opts.dryRun || there == Some(Link(target)) then t.files == s.files && t.times == s.times
        else
          && !(there.Some? && there.value.Dir?)
          && TouchedAt(s.times, t.times, Parent(q))
          && t.files == (if there.Some? then Without(s.files, PartOf(q)) else s.files)[q := Link(target)])
  }

  lemma LinkIs(s: State, folder: Folder, n: Name, target: seq<byte>, q: Path)
    requires Symlink(s, folder, n, target).Ok? && q == folder.path + [n]
    ensures Linked(s, Symlink(s, folder, n, target).value, Stat(s, folder, n), q, target)
  {
    SawNotes(s, n);
    ChildPath(folder.path, n);
    assert PathIn(folder, PartName(n)) == PartOf(q);
  }

  lemma LinkLands(copy: Copy, w: Walk, m: nat, s: State, t: State)
    requires SendsHead(copy, w, m) && EntriesOk(copy, w, m, s) && s.opts == copy.opts
    requires var head := NextHead(copy, w);
             && head.LinkHead? && head.path != [] && Look(copy, head.path) == Some(NLink(head.target))
             && Linked(PlacedIn(s), t, Get(copy.there, head.path), head.path, head.target)
             && (!copy.opts.dryRun ==> Get(s.files, head.path) == Get(copy.there, head.path))
    ensures EntriesOk(copy, Next(copy, w), m, t)
  {
    var head := NextHead(copy, w);
    var q := head.path;
    HeadLands(copy, w, m);
    if copy.opts.dryRun || Get(copy.there, q) == Some(Link(head.target)) {
      HeadLeaves(copy, w, m, s, t);
    } else {
      LinkEntries(copy, w, m, s, t, if q in copy.there then Without(s.files, PartOf(q)) else s.files);
    }
  }

  lemma LinkKeeps(copy: Copy, k: nat, m: nat, s: State, t: State)
    requires Inv(copy, k, m, s) && Steps(copy, k) && SendsHead(copy, Reached(copy, k), m)
    requires var head := NextHead(copy, Reached(copy, k));
             && head.LinkHead? && head.path != [] && Sent(copy, head.path)
             && t == PlacedIn(s).(open := Noting(s.open, {Leaf(head.path)}), seen := t.seen, files := t.files,
                                  times := t.times, summary := t.summary)
    requires EntriesOk(copy, Reached(copy, k + 1), m, t)
    ensures Inv(copy, k + 1, m, t)
  {
    hide Good, Logged, Sources, Goes, EntriesOk, ClosingOk, Look, Steps;
    var w := Reached(copy, k);
    var q := NextHead(copy, w).path;
    assert Reached(copy, k + 1) == Next(copy, w);
    HeadSays(copy, w);
    assert t.open == Noting(s.open, {Leaf(q)}) + PushedOn(copy, q);
    HeadOpens(copy, w, s, t, {Leaf(q)});
    HeadPendingSame(copy, w, m, s, t);
    HeadKeeps(copy, k, m, s, t, {Leaf(q)});
  }

  lemma LinkStep(copy: Copy, k: nat, m: nat, s: State, t: State)
    requires Inv(copy, k, m, s) && Steps(copy, k) && SendsHead(copy, Reached(copy, k), m)
    requires var head := NextHead(copy, Reached(copy, k));
             && head.LinkHead? && head.path != [] && Look(copy, head.path) == Some(NLink(head.target))
             && Linked(PlacedIn(s), t, Get(copy.there, head.path), head.path, head.target)
             && (!copy.opts.dryRun ==> Get(s.files, head.path) == Get(copy.there, head.path))
    ensures Inv(copy, k + 1, m, t)
  {
    LinkLands(copy, Reached(copy, k), m, s, t);
    LinkKeeps(copy, k, m, s, t);
  }

  /** A part, and what is in it, is nothing but a part. */
  lemma UnderPart(q: Path, p: Path)
    requires q != [] && PartOf(q) <= p
    ensures !Plain(p)
  {
    PartNames(Leaf(q));
    assert p[|q| - 1] == PartOf(q)[|q| - 1] == PartName(Leaf(q));
  }

  lemma UnderOtherPart(q: Path, p: Path)
    requires q != [] && p != [] && Plain(p) && PartOf(q) <= PartOf(p)
    ensures p == q
  {
    if PartOf(q) == PartOf(p) {
      PartsDiffer(p, q);
    } else {
      assert PartOf(q) <= Parent(p) by {
        assert PartOf(p)[..|p| - 1] == Parent(p);
        assert PartOf(q) == PartOf(p)[..|q|] == Parent(p)[..|q|];
      }
      PlainBelow(p);
      UnderPart(q, Parent(p));
    }
  }

  lemma WithoutWhole(files: Files, q: Path)
    requires Whole(files) && q != []
    ensures Whole(Without(files, q))
  {
    var after := Without(files, q);
    forall p | p in after && p != [] ensures IsDir(after, Parent(p)) {
      assert q <= Parent(p) ==> q <= p;
    }
  }

  lemma LinkEntries(copy: Copy, w: Walk, m: nat, s: State, t: State, cleared: Files)
    requires SendsHead(copy, w, m) && EntriesOk(copy, w, m, s) && !copy.opts.dryRun
    requires NextHead(copy, w).LinkHead? && NextHead(copy, w).path != []
    requires var head := NextHead(copy, w);
             && !IsDir(s.files, head.path) && Look(copy, head.path) == Some(NLink(head.target))
             && (cleared == s.files || cleared == Without(s.files, PartOf(head.path)))
             && t.files == cleared[head.path := Link(head.target)]
             && TouchedAt(s.times, t.times, Parent(head.path))
    ensures EntriesOk(copy, Next(copy, w), m, t)
  {
    hide Sources, Goes, Logged, Good, Whole, FileOk, PartOk, TimeOk;
    var q := NextHead(copy, w).path;
    HeadLands(copy, w, m);
    InIsThere(copy, w, m, s);
    PartsElsewhere(copy, q);
    WithoutWhole(s.files, PartOf(q));
    assert Plain(Parent(q)) by { PlainBelow(q); }
    forall p | Plain(p) ensures Get(cleared, p) == Get(s.files, p) {
      if PartOf(q) <= p { UnderPart(q, p); }
    }
    assert Get(cleared, Parent(q)) == Get(s.files, Parent(q));
    assert Get(cleared, q) == Get(s.files, q);
    PutWhole(cleared, q, Link(NextHead(copy, w).target));
    forall p | SentFile(copy, p) && p != [] ensures Get(t.files, PartOf(p)) == Get(s.files, PartOf(p)) {
      SentProper(copy, p);
      if PartOf(q) <= PartOf(p) { UnderOtherPart(q, p); }
    }
    HeadPuts(copy, w, m, s, t);
  }

  // ---- any header --------------------------------------------------------------------------------

  /** What the receiver finds where the head lands. */
  lemma HeadThere(copy: Copy, k: nat, m: nat, s: State)
    requires Inv(copy, k, m, s) && SendsHead(copy, Reached(copy, k), m)
    requires NextHead(copy, Reached(copy, k)).path != [] && Sent(copy, NextHead(copy, Reached(copy, k)).path)
    ensures var q := NextHead(copy, Reached(copy, k)).path;
            && FolderIn(copy, q).path + [Leaf(q)] == q
            && Stat(PlacedIn(s), FolderIn(copy, q), Leaf(q)) == Get(copy.there, q)
            && (FolderIn(copy, q).present ==> Get(s.files, q) == Get(copy.there, q))
  {
    var q := NextHead(copy, Reached(copy, k)).path;
    StepGone(copy, Reached(copy, k), q);
    StatsThere(copy, k, m, s, q);
    PathInFolder(copy, q, Leaf(q));
    assert Stat(PlacedIn(s), FolderIn(copy, q), Leaf(q)) == Stat(s, FolderIn(copy, q), Leaf(q));
  }

  lemma AllPresent(copy: Copy, q: Path)
    requires Sent(copy, q) && q != [] && !copy.opts.dryRun
    ensures FolderIn(copy, q).present
  {
    if |q| > Base(copy) { UpIsSent(copy, q); }
  }

  lemma LinkReceived(copy: Copy, k: nat, m: nat, s: State)
    requires Inv(copy, k, m, s) && Steps(copy, k) && SendsHead(copy, Reached(copy, k), m)
    requires var head := NextHead(copy, Reached(copy, k));
             && head.LinkHead? && head.path != [] && Look(copy, head.path) == Some(NLink(head.target))
             && Symlink(PlacedIn(s), FolderIn(copy, head.path), Leaf(head.path), head.target).Ok?
    ensures var head := NextHead(copy, Reached(copy, k));
            Inv(copy, k + 1, m, Symlink(PlacedIn(s), FolderIn(copy, head.path), Leaf(head.path), head.target).value)
  {
    var head := NextHead(copy, Reached(copy, k));
    var q := head.path;
    HeadThere(copy, k, m, s);
    if !copy.opts.dryRun { AllPresent(copy, q); }
    LinkIs(PlacedIn(s), FolderIn(copy, q), Leaf(q), head.target, q);
    LinkStep(copy, k, m, s, Symlink(PlacedIn(s), FolderIn(copy, q), Leaf(q), head.target).value);
  }
}
