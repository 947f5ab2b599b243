/** What a copy comes to: the merge of the two trees, said path by path without any walk or
    protocol, and every run that ends well leaves exactly that. */
module Converge {
  import opened Bytes
  import opened Files
  import opened Walk
  import opened Course
  import opened Receive
  import opened Landing
  import opened Protocol
  import opened Tally
  import opened Ends
  import opened Runs

  // ---- the merge -----------------------------------------------------------------------------------------

  /** Whether the first of the names of `p` that the source has nothing for is name `n`, in a
      directory it does have, and is not excluded. */
  ghost predicate DroppedAt(copy: Copy, p: Path, n: nat) {
    n < |p| && SentDir(copy, p[..n]) && !Sent(copy, p[..n + 1]) && !Skips(copy.opts, p[n], RelOf(copy, p[..n + 1]))
  }

  ghost predicate Dropped(copy: Copy, p: Path) {
    copy.opts.delete && exists n: nat :: DroppedAt(copy, p, n)
  }

  /** What a whole copy leaves at `p`. */
  ghost function Merged(copy: Copy, p: Path): Option<Entry> {
    var was := Get(copy.there, p);
    if Sent(copy, p) then
      match Look(copy, p).value
      case NDir(_, _, _) => Some(Dir(DirMode(copy, p, true)))
      case NFile(_, _, _) => Some(FileLanded(copy, p))
      case NLink(target) => Some(Link(target))
      case NOther => was
    else if Dropped(copy, p) then None
    else was
  }

  /** All was sent and every file's bytes came. */
  ghost predicate Complete(copy: Copy, w: Walk, m: nat) {
    Starts(copy) && Good(copy, w) && Logged(copy, w) && AllSent(copy, w) && m == |w.files|
  }

  lemma CompleteDone(copy: Copy, w: Walk, m: nat, p: Path)
    requires Complete(copy, w, m)
    ensures Gone(copy, w, p) <==> Sent(copy, p)
    ensures Ended(copy, w, p) <==> SentDir(copy, p)
    ensures Closed(copy, w, m, p) <==> SentDir(copy, p)
    ensures SentFile(copy, p) ==> FileDone(w, m, p)
  {
    if Sent(copy, p) { AllEnded(copy, w, p); }
    if SentFile(copy, p) {
      var i :| 0 <= i < |w.files| && w.files[i].path == p;
      assert i < m;
    }
  }

  lemma CompleteSwept(copy: Copy, w: Walk, m: nat, p: Path)
    requires Complete(copy, w, m)
    ensures Swept(copy, w, p) <==> Dropped(copy, p)
  {
    forall n: nat ensures SweptAt(copy, w, p, n) <==> DroppedAt(copy, p, n) {
      if n < |p| { CompleteDone(copy, w, m, p[..n]); }
    }
  }

  lemma CompleteMerged(copy: Copy, w: Walk, m: nat, p: Path)
    requires Complete(copy, w, m)
    ensures Expected(copy, w, m, p) == Merged(copy, p)
  {
    CompleteDone(copy, w, m, p);
    CompleteSwept(copy, w, m, p);
  }

  // ---- every run that ends well ----------------------------------------------------------------------

  /** How a run ended well. */
  lemma EndsWell(copy: Copy, acts: seq<Act>) returns (far: Pos, s: State)
    requires Starts(copy) && Play(copy, acts).Some?
    requires Play(copy, acts).value.receiver.Stopped? && Play(copy, acts).value.receiver.summary.Some?
    ensures var y := Play(copy, acts).value;
            && IsAt(copy, far, s) && far.at.None? && Inv(copy, far.k, far.m, s) && Complete(copy, Reached(copy, far.k), far.m)
            && s.files == y.receiver.files && s.summary == y.receiver.summary.value
  {
    hide Play, Inv, Reached, LeftAt, RepliesAre, SenderAt;
    var y := Play(copy, acts).value;
    var pos;
    far, pos := RunSound(copy, acts);
    ReachedGood(copy, far.k);
    s :| IsAt(copy, far, s) && s.files == y.receiver.files && s.summary == y.receiver.summary.value;
  }

  /** Whatever order headers, answers and bytes came in, a run that ends well leaves the merge. */
  lemma Converges(copy: Copy, acts: seq<Act>, p: Path)
    requires Starts(copy) && Play(copy, acts).Some? && !copy.opts.dryRun && Plain(p)
    requires Play(copy, acts).value.receiver.Stopped? && Play(copy, acts).value.receiver.summary.Some?
    ensures Get(Play(copy, acts).value.receiver.files, p) == Merged(copy, p)
  {
    hide Play, Good, Logged, Merged, Expected;
    var far, s := EndsWell(copy, acts);
    CompleteMerged(copy, Reached(copy, far.k), far.m, p);
    assert FileOk(copy, Reached(copy, far.k), far.m, s.files, p);
  }

  /** Whether a name on the way of `p` is one the copy leaves alone, in a directory that is sent: one
      excluded, or one that is neither file, directory nor symlink at the source. */
  ghost predicate SparedAt(copy: Copy, p: Path, n: nat) {
    && n < |p| && SentDir(copy, p[..n])
    && (Look(copy, p[..n + 1]) == Some(NOther)
        || (!Sent(copy, p[..n + 1]) && Skips(copy.opts, p[n], RelOf(copy, p[..n + 1]))))
  }

  ghost predicate Spared(copy: Copy, p: Path) {
    exists n: nat :: SparedAt(copy, p, n)
  }

  lemma NotUnder(files: Files, q: Path, p: Path)
    requires Whole(files) && p in files && q <= p && q != p
    ensures IsDir(files, q)
  {
    WholeAbove(files, q, p);
  }

  /** In a whole tree that is the merge, what the source has not is left alone. */
  lemma {:induction false} LeftIsSpared(copy: Copy, files: Files, d: Path, p: Path)
    requires Starts(copy) && copy.opts.delete && Whole(files)
    requires forall q :: Plain(q) ==> Get(files, q) == Merged(copy, q)
    requires SentDir(copy, d) && d <= p && d != p && Plain(p) && p in files && !Sent(copy, p)
    ensures Spared(copy, p)
    decreases |p| - |d|
  {
    hide Merged, IsDir;
    var n := |d|;
    var q := p[..n + 1];
    assert p[..n] == d && q[..n] == d && q[n] == p[n];
    assert forall i :: 0 <= i < |q| ==> q[i] == p[i];
    if Sent(copy, q) {
      assert Get(files, q) == Merged(copy, q);
      if Look(copy, q).value.NDir? {
        LeftIsSpared(copy, files, q, p);
      } else if Look(copy, q).value.NOther? {
        assert SparedAt(copy, p, n);
      } else {
        NotUnder(files, q, p);
        NoDirThere(copy, files, q);
      }
    } else if Skips(copy.opts, p[n], RelOf(copy, q)) {
      assert SparedAt(copy, p, n);
    } else {
      assert DroppedAt(copy, p, n);
      DroppedNone(copy, p);
    }
  }

  lemma NoDirThere(copy: Copy, files: Files, q: Path)
    requires Sent(copy, q) && !Look(copy, q).value.NDir? && !Look(copy, q).value.NOther? && Get(files, q) == Merged(copy, q)
    ensures !IsDir(files, q)
  {
  }

  lemma DroppedNone(copy: Copy, p: Path)
    requires !Sent(copy, p) && Dropped(copy, p)
    ensures Merged(copy, p) == None
  {
  }

  /** A name left alone is none of those that go: there is one first name on a path that is not sent. */
  lemma SparedStays(copy: Copy, p: Path, n: nat)
    requires Sources(copy) && SparedAt(copy, p, n)
    ensures !Dropped(copy, p)
  {
    forall k: nat ensures !DroppedAt(copy, p, k) {
      if DroppedAt(copy, p, k) {
        DirsAreDeep(copy, p[..n]);
        DirsAreDeep(copy, p[..k]);
        if k < n { DirsAbove(copy, p, k, n); }
        if n < k { DirsAbove(copy, p, n, k); }
      }
    }
  }

  lemma DirsAreDeep(copy: Copy, d: Path)
    requires SentDir(copy, d)
    ensures |d| >= Base(copy)
  {
  }

  lemma DirsAbove(copy: Copy, p: Path, k: nat, n: nat)
    requires k < n <= |p| && k >= Base(copy) && SentDir(copy, p[..n])
    ensures SentDir(copy, p[..k + 1])
  {
    assert p[..k + 1] == p[..n][..k + 1];
    if k + 1 < n { SentAbove(copy, p[..k + 1], p[..n]); }
  }

  /** With `--delete`, after a run that ends well, a directory sent holds exactly what the source has, and what was there
      and is left alone. */
  lemma Mirrors(copy: Copy, acts: seq<Act>, d: Path, p: Path)
    requires Starts(copy) && Play(copy, acts).Some? && !copy.opts.dryRun && copy.opts.delete
    requires Play(copy, acts).value.receiver.Stopped? && Play(copy, acts).value.receiver.summary.Some?
    requires SentDir(copy, d) && d <= p && d != p && Plain(p)
    ensures p in Play(copy, acts).value.receiver.files <==>
            (Sent(copy, p) && !Look(copy, p).value.NOther?) || (p in copy.there && Spared(copy, p))
  {
    hide Play, Merged, Dropped, Inv, IsAt, Complete;
    var files := Play(copy, acts).value.receiver.files;
    EndsWhole(copy, acts);
    forall q | Plain(q) ensures Get(files, q) == Merged(copy, q) { Converges(copy, acts, q); }
    if Sent(copy, p) && Look(copy, p).value.NOther? { OtherIsSpared(copy, d, p); }
    MergedThere(copy, p);
    if p in files && !Sent(copy, p) { LeftIsSpared(copy, files, d, p); }
    if n: nat :| SparedAt(copy, p, n) { SparedStays(copy, p, n); }
  }

  lemma EndsWhole(copy: Copy, acts: seq<Act>)
    requires Starts(copy) && Play(copy, acts).Some? && !copy.opts.dryRun
    requires Play(copy, acts).value.receiver.Stopped? && Play(copy, acts).value.receiver.summary.Some?
    ensures Whole(Play(copy, acts).value.receiver.files)
  {
    hide Play, IsAt, Complete, Whole;
    var far, s := EndsWell(copy, acts);
  }

  lemma OtherIsSpared(copy: Copy, d: Path, p: Path)
    requires SentDir(copy, d) && d <= p && d != p && Sent(copy, p) && Look(copy, p).value.NOther?
    ensures Spared(copy, p)
  {
    DirsAreDeep(copy, d);
    var up := Parent(p);
    assert p[..|p| - 1] == up && p[..|p|] == p;
    if up != d {
      assert d <= up;
      SentAbove(copy, up, p);
    }
    assert SparedAt(copy, p, |p| - 1);
  }

  /** Where the merge has something. */
  lemma MergedThere(copy: Copy, p: Path)
    ensures Merged(copy, p).Some? <==>
            if Sent(copy, p) && !Look(copy, p).value.NOther? then true
            else p in copy.there && (Sent(copy, p) || !Dropped(copy, p))
  {
  }

  // ---- what is excluded --------------------------------------------------------------------------------

  /** Nothing excluded is sent, nor what is in it. */
  lemma NothingExcludedSent(copy: Copy, p: Path, n: nat)
    requires Sources(copy) && Sent(copy, p) && Base(copy) <= n < |p|
    ensures !Skips(copy.opts, p[n], RelOf(copy, p[..n + 1]))
  {
    SentAbove(copy, p[..n], p);
    var d := p[..n];
    assert d + [p[n]] == p[..n + 1];
    SentChild(copy, d, p[n]);
    KeptIs(copy.opts, Look(copy, d).value.entries, RelOf(copy, d), p[n]);
    assert RelOf(copy, d) + [p[n]] == RelOf(copy, p[..n + 1]);
  }

  /** Each header sent is of an entry not excluded. */
  lemma HeadersNotExcluded(copy: Copy, k: nat, n: nat)
    requires Sources(copy) && Goes(copy, Reached(copy, k)) && !NextHead(copy, Reached(copy, k)).EndHead?
    requires Base(copy) <= n < |NextHead(copy, Reached(copy, k)).path|
    ensures var p := NextHead(copy, Reached(copy, k)).path; !Skips(copy.opts, p[n], RelOf(copy, p[..n + 1]))
  {
    ReachedGood(copy, k);
    HeadSays(copy, Reached(copy, k));
    NothingExcludedSent(copy, NextHead(copy, Reached(copy, k)).path, n);
  }

  /** An excluded entry goes in one case only: with a directory above it that goes itself, being
      neither sent nor excluded. */
  lemma ExcludedStays(copy: Copy, p: Path)
    requires Starts(copy) && p != [] && p in copy.there && |p| > Base(copy)
    requires Skips(copy.opts, Leaf(p), RelOf(copy, p))
    ensures Merged(copy, p) == None <==>
              copy.opts.delete && exists n: nat :: n < |p| - 1 && DroppedAt(copy, p, n)
    ensures Merged(copy, p).Some? ==> Merged(copy, p) == Get(copy.there, p)
  {
    assert p[..|p|] == p && p[|p| - 1] == Leaf(p);
    if Sent(copy, p) { NothingExcludedSent(copy, p, |p| - 1); }
    assert !DroppedAt(copy, p, |p| - 1);
    if n: nat :| DroppedAt(copy, p, n) { assert n < |p| - 1; }
  }
}
