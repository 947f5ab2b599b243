/** Any header received: what it comes to, and that it is never refused as malformed. */
module Headers {
  import opened Bytes
  import opened Files
  import opened Walk
  import opened Course
  import opened Receive
  import opened Landing
  import opened Heads
  import opened HeadSteps
  import opened EntrySteps

  // ---- what each item comes to ---------------------------------------------------------------------

  lemma DirReceived(s: State, n: Name, mode: nat, mtime: Option<nat>)
    requires s.landing.None? && Place(s, n).Ok?
    ensures var (t, parent, name) := Place(s, n).value;
            Received(s, DirItem(n, mode, mtime)) == Went(Enter(t, parent, name, mode, mtime))
  {
  }

  lemma NamedReceived(s: State, mode: nat, mtime: Option<nat>)
    requires s.landing.None? && s.open == [] && s.named.Some? && Place(s, s.named.value).Ok?
    ensures var (t, parent, name) := Place(s, s.named.value).value;
            Received(s, ContentsItem(mode, mtime)) == Went(Enter(t, parent, name, mode, mtime))
  {
  }

  lemma TargetReceived(s: State, mode: nat, mtime: Option<nat>)
    requires s.landing.None? && s.open == [] && s.named.None?
    ensures Received(s, ContentsItem(mode, mtime)) == On(EnterTarget(s, mtime), None)
  {
  }

  lemma FileReceived(s: State, header: FileHeader)
    requires s.landing.None? && Place(s, header.name).Ok?
    ensures var (t, parent, name) := Place(s, header.name).value;
            var h := Header(t, parent, header.(name := name));
            Received(s, FileItem(header)) ==
            if h.Err? then Over(h.left, None, Some(h.fail)) else On(h.value.0, Some(h.value.1))
  {
  }

  lemma LinkItemReceived(s: State, n: Name, target: seq<byte>)
    requires s.landing.None? && Place(s, n).Ok?
    ensures var (t, parent, name) := Place(s, n).value;
            Received(s, LinkItem(n, target)) == Went(Symlink(t, parent, name, target))
  {
  }

  /** What the entry sent next comes to, in the terms of where it lands. */
  ghost function Comes(copy: Copy, w: Walk, s: State): Step
    requires Goes(copy, w) && !NextHead(copy, w).EndHead? && Sent(copy, NextHead(copy, w).path)
    requires NextHead(copy, w).path == [] ==> NextHead(copy, w).ContentsHead?
  {
    var head := NextHead(copy, w);
    if head.path == [] then On(EnterTarget(s, head.mtime), None)
    else
      var folder, name := FolderIn(copy, head.path), Leaf(head.path);
      match head
      case DirHead(_, _, mode, mtime) => Went(Enter(PlacedIn(s), folder, name, mode, mtime))
      case ContentsHead(_, mode, mtime) => Went(Enter(PlacedIn(s), folder, name, mode, mtime))
      case FileHead(_, _, _, _, _) =>
        var h := Header(PlacedIn(s), folder, HeaderOf(head, |w.files|));
        if h.Err? then Over(h.left, None, Some(h.fail)) else On(h.value.0, Some(h.value.1))
      case LinkHead(_, _, target) => Went(Symlink(PlacedIn(s), folder, name, target))
      case SkipHead(_, n) =>
        var saw := Saw(s, name);
        if saw.Err? then Went(saw) else On(saw.value.(summary := s.summary.(skipped := s.summary.skipped + 1)), None)
      case EndHead(_) => On(s, None)
  }

  lemma ContentsPath(copy: Copy, w: Walk)
    requires Sources(copy) && Good(copy, w) && Goes(copy, w) && !NextHead(copy, w).EndHead?
    ensures NextHead(copy, w).path == [] ==> NextHead(copy, w).ContentsHead? && copy.named.None? && w.frames == []
    ensures NextHead(copy, w).ContentsHead? && copy.named.None? ==> NextHead(copy, w).path == []
    ensures NextHead(copy, w).ContentsHead? ==> w.frames == []
    ensures NextHead(copy, w).ContentsHead? && copy.named.Some? ==> NextHead(copy, w).path == [copy.named.value]
  {
    HeadSays(copy, w);
  }

  lemma SkipReceived(s: State, n: Name)
    requires s.landing.None? && s.open != []
    ensures Received(s, SkippedItem(n)) ==
            var saw := Saw(s, n);
            if saw.Err? then Went(saw) else On(saw.value.(summary := s.summary.(skipped := s.summary.skipped + 1)), None)
  {
  }

  lemma PlacedReceived(copy: Copy, w: Walk, s: State)
    requires Goes(copy, w) && !NextHead(copy, w).EndHead? && Sent(copy, NextHead(copy, w).path) && s.landing.None?
    requires var head := NextHead(copy, w);
             && head.path != [] && (head.ContentsHead? ==> s.open == [] && s.named.Some? && s.named == copy.named)
             && (head.SkipHead? ==> s.open != [] && head.name == Leaf(head.path))
             && Place(s, WireName(copy, head)) == Ok((PlacedIn(s), FolderIn(copy, head.path), Leaf(head.path)))
    ensures Received(s, ItemFor(NextHead(copy, w), |w.files|)) == Comes(copy, w, s)
  {
    var head := NextHead(copy, w);
    match head
    case DirHead(_, name, mode, mtime) => DirReceived(s, name, mode, mtime);
    case ContentsHead(_, mode, mtime) => NamedReceived(s, mode, mtime);
    case FileHead(_, name, content, mode, mtime) =>
      FileReceived(s, FileHeader(|w.files|, name, mode, mtime, |content|));
    case LinkHead(_, name, target) => LinkItemReceived(s, name, target);
    case SkipHead(_, name) => SkipReceived(s, name);
  }

  lemma ReceivedIs(copy: Copy, k: nat, m: nat, s: State)
    requires Inv(copy, k, m, s) && SendsHead(copy, Reached(copy, k), m)
    requires Sent(copy, NextHead(copy, Reached(copy, k)).path)
    requires NextHead(copy, Reached(copy, k)).path == [] ==> NextHead(copy, Reached(copy, k)).ContentsHead?
    ensures var w := Reached(copy, k);
            Received(s, ItemFor(NextHead(copy, w), |w.files|)) == Comes(copy, w, s)
  {
    var w := Reached(copy, k);
    var head := NextHead(copy, w);
    ContentsPath(copy, w);
    if head.path == [] {
      TargetReceived(s, head.mode, head.mtime);
    } else {
      Placed(copy, k, m, s);
      if head.SkipHead? { SkipInside(copy, w); }
      PlacedReceived(copy, w, s);
    }
  }

  // ---- a header keeps the state what it should be -------------------------------------------------

  lemma {:induction false} CountTo(s: set<nat>, m: nat, n: nat)
    requires m <= n && forall i: nat :: i in s <==> m <= i < n
    ensures |s| == n - m
    decreases n
  {
    if m < n {
      CountTo(s - {n - 1}, m, n - 1);
      assert s == (s - {n - 1}) + {n - 1};
    } else {
      assert s == {};
    }
  }

  lemma PendingCount(copy: Copy, w: Walk, m: nat, s: State)
    requires PendingOk(copy, w, m, s) && m <= |w.files|
    ensures |s.pending| == |w.files| - m
  {
    CountTo(s.pending.Keys, m, |w.files|);
    assert |s.pending.Keys| == |s.pending|;
  }

  /** Why a header may stop a copy: never as malformed, and with the entries as they were. */
  predicate Refused(s: State, r: Step) {
    r.Over? && r.files == s.files && r.summary.None? && r.fail.Some? && r.fail.value != Malformed
  }

  lemma HeaderFails(s: State, folder: Folder, header: FileHeader)
    requires |s.pending| < WINDOW && header.id !in s.pending && Header(s, folder, header).Err?
    ensures Header(s, folder, header).fail != Malformed && Header(s, folder, header).left == s.files
  {
  }

  lemma LinkFails(s: State, folder: Folder, n: Name, target: seq<byte>)
    requires folder.present || s.opts.dryRun
    requires Symlink(s, folder, n, target).Err?
    ensures Symlink(s, folder, n, target).fail != Malformed && Symlink(s, folder, n, target).left == s.files
  {
  }

  lemma ComesFails(copy: Copy, w: Walk, s: State)
    requires Goes(copy, w) && !NextHead(copy, w).EndHead? && Sent(copy, NextHead(copy, w).path)
    requires NextHead(copy, w).path == [] ==> NextHead(copy, w).ContentsHead?
    requires s.opts == copy.opts
    requires NextHead(copy, w).FileHead? ==> |s.pending| < WINDOW && |w.files| !in s.pending
    ensures Comes(copy, w, s).Over? ==> Refused(s, Comes(copy, w, s))
  {
    hide Header, Symlink, Leave, Goes, Good, Logged, Sources, Landed, OpensOk, PendingOk, Look;
    var head := NextHead(copy, w);
    if head.path != [] {
      var folder, name := FolderIn(copy, head.path), Leaf(head.path);
      if head.FileHead? {
        var h := HeaderOf(head, |w.files|);
        if Header(PlacedIn(s), folder, h).Err? { HeaderFails(PlacedIn(s), folder, h); }
      } else if head.LinkHead? {
        if !copy.opts.dryRun { AllPresent(copy, head.path); }
        if Symlink(PlacedIn(s), folder, name, head.target).Err? { LinkFails(PlacedIn(s), folder, name, head.target); }
      }
    }
  }

  /** What a header comes to that goes well. */
  ghost predicate HeadOk(copy: Copy, k: nat, m: nat, r: Step)
    requires SendsHead(copy, Reached(copy, k), m)
  {
    var head := NextHead(copy, Reached(copy, k));
    && r.On? && Inv(copy, k + 1, m, r.state)
    && (head.FileHead? ==> head.path != [] && r.answer == Some(AnswerOf(copy, head, |Reached(copy, k).files|)))
    && (!head.FileHead? ==> r.answer.None?)
  }

  lemma ComesOk(copy: Copy, k: nat, m: nat, s: State)
    requires Inv(copy, k, m, s) && Steps(copy, k) && SendsHead(copy, Reached(copy, k), m)
    requires Sent(copy, NextHead(copy, Reached(copy, k)).path)
    requires NextHead(copy, Reached(copy, k)).path == [] ==>
               NextHead(copy, Reached(copy, k)).ContentsHead? && copy.named.None?
    requires NextHead(copy, Reached(copy, k)).ContentsHead? && copy.named.None? ==>
               NextHead(copy, Reached(copy, k)).path == []
    requires Comes(copy, Reached(copy, k), s).On?
    ensures HeadOk(copy, k, m, Comes(copy, Reached(copy, k), s))
  {
    hide Inv, Look, Good, Logged, Sources, Steps;
    var w := Reached(copy, k);
    var head := NextHead(copy, w);
    match head
    case DirHead(_, _, mode, mtime) => EnterStep(copy, k, m, s, mode, mtime);
    case ContentsHead(path, mode, mtime) =>
      if path == [] { EnterTargetStep(copy, k, m, s); } else { EnterStep(copy, k, m, s, mode, mtime); }
    case FileHead(_, _, _, _, _) => HeaderStep(copy, k, m, s);
    case LinkHead(_, _, target) =>
      HeadSays(copy, w);
      LinkReceived(copy, k, m, s);
    case SkipHead(_, _) =>
      SkipInside(copy, w);
      SawNotes(s, Leaf(head.path));
      SkipStep(copy, k, m, s, Comes(copy, w, s).state);
  }

  /** Whatever header the walk sends next, with the window not full: it lands as expected and is
      answered as it should be, or stops the copy with nothing changed, and never as malformed. */
  lemma HeadStep(copy: Copy, k: nat, m: nat, s: State)
    requires Inv(copy, k, m, s) && Steps(copy, k) && SendsHead(copy, Reached(copy, k), m)
    requires NextHead(copy, Reached(copy, k)).FileHead? ==> |Reached(copy, k).files| - m < WINDOW
    ensures var w := Reached(copy, k);
            var r := Received(s, ItemFor(NextHead(copy, w), |w.files|));
            HeadOk(copy, k, m, r) || Refused(s, r)
  {
    var w := Reached(copy, k);
    HeadSays(copy, w);
    ContentsPath(copy, w);
    PendingCount(copy, w, m, s);
    ReceivedIs(copy, k, m, s);
    ComesFails(copy, w, s);
    if Comes(copy, w, s).On? { ComesOk(copy, k, m, s); }
  }
}
