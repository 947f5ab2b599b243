/** What a copy has landed after `k` steps of the walk and the bytes of its first `m` files: the
    whole state of the receiving end, as a function of the sources and what was there. */
module Landing {
  import opened Bytes
  import opened Files
  import opened Walk
  import opened Course
  import opened Receive
  import opened Closing

  // ---- what is expected there --------------------------------------------------------------------

  /** Whether the copy makes directory `d`. */
  predicate Made(copy: Copy, d: Path) {
    !IsDir(copy.there, d)
  }

  /** Whether the bytes of the file at `p` came. */
  ghost predicate FileDone(w: Walk, m: nat, p: Path) {
    exists i :: 0 <= i < m && i < |w.files| && w.files[i].path == p
  }

  /** Whether directory `d` ended and nothing under it is under way. */
  ghost predicate Closed(copy: Copy, w: Walk, m: nat, d: Path) {
    Ended(copy, w, d) && forall i :: m <= i < |w.files| ==> !(d <= w.files[i].path)
  }

  /** Whether the entry at `p` goes with what the sender did not send: the first of the names on
      its way that was not sent is in a directory that ended, and is not excluded. */
  ghost predicate SweptAt(copy: Copy, w: Walk, p: Path, n: nat) {
    n < |p| && Ended(copy, w, p[..n]) && !Sent(copy, p[..n + 1])
    && !Skips(copy.opts, p[n], RelOf(copy, p[..n + 1]))
  }

  ghost predicate Swept(copy: Copy, w: Walk, p: Path) {
    copy.opts.delete && exists n: nat :: SweptAt(copy, w, p, n)
  }

  /** Whether the file there is the source's already. */
  ghost predicate Unchanged(copy: Copy, p: Path) {
    SentFile(copy, p) && p in copy.there && copy.there[p].File?
    && copy.there[p].content == Look(copy, p).value.content
  }

  /** The file at `p` as it lands. */
  ghost function FileLanded(copy: Copy, p: Path): Entry
    requires SentFile(copy, p)
  {
    var NFile(content, mode, mtime) := Look(copy, p).value;
    File(content, Landed(mode),
         if copy.opts.keepTimes && mtime.Some? then At(mtime.value)
         else if Unchanged(copy, p) then copy.there[p].time else Arrived)
  }

  /** The mode of the directory at `d`, once it is there. */
  ghost function DirMode(copy: Copy, d: Path, closed: bool): nat
    requires SentDir(copy, d)
  {
    if IsDir(copy.there, d) && (d == [] || !closed || !copy.opts.keepTimes) then copy.there[d].mode
    else if closed then Landed(Look(copy, d).value.mode)
    else 0x1c0
  }

  ghost function ExpectedWith(copy: Copy, w: Walk, m: nat, p: Path, closed: bool): Option<Entry> {
    var was := Get(copy.there, p);
    if Gone(copy, w, p) then
      match Look(copy, p).value
      case NDir(_, _, _) => Some(Dir(DirMode(copy, p, closed)))
      case NFile(_, _, _) => if FileDone(w, m, p) then Some(FileLanded(copy, p)) else was
      case NLink(target) => Some(Link(target))
      case NOther => was
    else if Swept(copy, w, p) then None
    else was
  }

  /** What is at `p`. */
  ghost function Expected(copy: Copy, w: Walk, m: nat, p: Path): Option<Entry> {
    ExpectedWith(copy, w, m, p, Closed(copy, w, m, p))
  }

  // ---- the receiver's state ------------------------------------------------------------------------

  const TOP := Folder([], true, None, None, NoUp)

  /** The directory at `d`, as the receiver holds it. */
  ghost function FolderFor(copy: Copy, d: Path): Folder
    requires SentDir(copy, d)
    decreases |d|
  {
    var keep := copy.opts.keepTimes;
    var NDir(mode, mtime, _) := Look(copy, d).value;
    var up := if |d| == Base(copy) then TOP else FolderFor(copy, Parent(d));
    Folder(d, !copy.opts.dryRun || IsDir(copy.there, d),
           if d != [] && (Made(copy, d) || keep) then Some(mode) else None,
           if keep then mtime else None, Inside(up))
  }

  /** The directory that the entry at `p` lands in. */
  ghost function FolderIn(copy: Copy, p: Path): Folder
    requires Sent(copy, p) && p != []
  {
    if |p| == Base(copy) then TOP
    else FolderFor(copy, Parent(p))
  }

  ghost function HeaderOf(head: Head, id: nat): FileHeader
    requires head.FileHead? && head.path != []
  {
    FileHeader(id, Leaf(head.path), head.mode, head.mtime, |head.content|)
  }

  /** What the receiver answers a file's header. */
  ghost function AnswerOf(copy: Copy, head: Head, id: nat): Answer
    requires head.FileHead? && head.path != []
  {
    AnswerTo(HeaderOf(head, id), Get(copy.there, head.path), Get(copy.there, PartOf(head.path)))
  }

  ghost function PendingOf(copy: Copy, w: Walk, i: nat): Pending
    requires i < |w.files| && w.files[i].FileHead? && w.files[i].path != [] && Sent(copy, w.files[i].path)
  {
    Pending(FolderIn(copy, w.files[i].path), HeaderOf(w.files[i], i), w.files[i].path in copy.there)
  }

  ghost predicate SetUp(copy: Copy, s: State) {
    && s.opts == copy.opts && s.top == TOP && s.named == copy.named
  }

  /** The receiver has open what the walk has. */
  ghost predicate OpensOk(copy: Copy, w: Walk, s: State) {
    && (copy.named.Some? ==> s.placed == w.begun)
    && |s.open| == |w.frames|
    && (forall i :: 0 <= i < |w.frames| ==>
          && SentDir(copy, w.frames[i].path)
          && s.open[i].folder == FolderFor(copy, w.frames[i].path)
          && (s.open[i].seen.Some? <==> copy.opts.delete))
    && (w.frames != [] ==> s.tree == w.frames[0].path)
  }

  /** It noted the names that came into each, and the parts it needs. */
  ghost predicate SeenOk(copy: Copy, w: Walk, m: nat, s: State, i: int) {
    0 <= i < |w.frames| && i < |s.open| && s.open[i].seen.Some? ==>
      && (forall n :: !IsPart(n) ==> (n in s.open[i].seen.value <==> Gone(copy, w, w.frames[i].path + [n])))
      && (forall j :: m <= j < |w.files| && NeedsPart(copy, w, j) && Parent(w.files[j].path) == w.frames[i].path ==>
            PartName(Leaf(w.files[j].path)) in s.open[i].seen.value)
  }

  /** Whether file `j` may go on from its part. */
  ghost predicate NeedsPart(copy: Copy, w: Walk, j: int) {
    0 <= j < |w.files| && w.files[j].FileHead? && w.files[j].path != [] && AnswerOf(copy, w.files[j], j).Want?
  }

  /** The files from the `m`th on are under way. */
  ghost predicate PendingOk(copy: Copy, w: Walk, m: nat, s: State) {
    && (forall i :: i in s.pending <==> m <= i < |w.files|)
    && (forall i :: m <= i < |w.files| ==>
          && w.files[i].FileHead? && w.files[i].path != [] && Sent(copy, w.files[i].path)
          && s.pending[i] == PendingOf(copy, w, i))
  }

  /** The directories that ended and did not close wait. */
  ghost predicate ClosingOk(copy: Copy, w: Walk, m: nat, s: State) {
    if copy.opts.dryRun then s.closing == []
    else
      && DistinctPaths(s.closing)
      && (forall i :: 0 <= i < |s.closing| ==>
            && Ended(copy, w, s.closing[i].path) && !Closed(copy, w, m, s.closing[i].path)
            && s.closing[i] == FolderFor(copy, s.closing[i].path))
      && (forall d :: Ended(copy, w, d) && !Closed(copy, w, m, d) ==> FolderFor(copy, d) in s.closing)
  }

  ghost predicate FileOk(copy: Copy, w: Walk, m: nat, files: Files, p: Path) {
    Plain(p) ==> Get(files, p) == Expected(copy, w, m, p)
  }

  /** Whether what is at the part's name may go with what was not sent: it is not needed, and in a directory sent. */
  ghost predicate MayGo(copy: Copy, p: Path)
    requires p != []
  {
    copy.opts.delete && |p| > Base(copy) && !Skips(copy.opts, PartName(Leaf(p)), RelOf(copy, PartOf(p)))
  }

  ghost predicate Spared(copy: Copy, w: Walk, m: nat, p: Path)
    requires p != []
  {
    Gone(copy, w, p) && MayGo(copy, p) ==> exists j :: m <= j < |w.files| && w.files[j].path == p && NeedsPart(copy, w, j)
  }

  /** A part is as it was until its file is done, or gone if it may go. */
  ghost predicate PartOk(copy: Copy, w: Walk, m: nat, files: Files, p: Path) {
    SentFile(copy, p) && p != [] && !FileDone(w, m, p) ==>
      Get(files, PartOf(p)) == Get(copy.there, PartOf(p)) || (!Spared(copy, w, m, p) && Get(files, PartOf(p)).None?)
  }

  /** A directory has the time of the source's from when it closed, if times are kept, and is given none before. */
  ghost predicate TimeOk(copy: Copy, w: Walk, m: nat, s: State, d: Path) {
    if copy.opts.keepTimes && Closed(copy, w, m, d) && Look(copy, d).value.mtime.Some?
    then TimeAt(s.times, d) == Some(At(Look(copy, d).value.mtime.value))
    else !TimeSet(s.times, d)
  }

  ghost predicate EntriesOk(copy: Copy, w: Walk, m: nat, s: State) {
    if copy.opts.dryRun then s.files == copy.there
    else
      && Whole(s.files)
      && (forall p :: FileOk(copy, w, m, s.files, p))
      && (forall p :: PartOk(copy, w, m, s.files, p))
      && (forall d :: TimeOk(copy, w, m, s, d))
  }

  /** The state after `k` steps of the walk and the bytes of `m` files. */
  ghost predicate Inv(copy: Copy, k: nat, m: nat, s: State) {
    var w := Reached(copy, k);
    && m <= |w.files| && s.landing.None?
    && SetUp(copy, s) && OpensOk(copy, w, s) && (forall i :: SeenOk(copy, w, m, s, i))
    && PendingOk(copy, w, m, s) && ClosingOk(copy, w, m, s) && EntriesOk(copy, w, m, s)
  }
}
