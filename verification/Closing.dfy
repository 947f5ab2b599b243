/** Directories close in order: each once nothing under it is under way, and all of them in the end. */
module Closing {
  import opened Bytes
  import opened Files
  import opened Receive

  /** Whether something under `f` is under way: a file, or a directory still open. */
  predicate Busy(s: State, f: Folder) {
    || (exists id :: id in s.pending && Within(s.pending[id].folder, f))
    || (exists i :: 0 <= i < |s.open| && Within(s.open[i].folder, f))
  }

  predicate DistinctPaths(closing: seq<Folder>) {
    forall i, j :: 0 <= i < j < |closing| ==> closing[i].path != closing[j].path
  }

  lemma {:induction false} WithinThrough(f: Folder, e: Folder, d: Folder)
    requires Within(f, e) && Within(e, d)
    ensures Within(f, d)
    decreases f
  {
    if f != e { WithinThrough(f.up.folder, e, d); }
  }

  lemma BusyAbove(s: State, f: Folder, d: Folder)
    requires Within(f, d) && Busy(s, f)
    ensures Busy(s, d)
  {
    if id :| id in s.pending && Within(s.pending[id].folder, f) {
      WithinThrough(s.pending[id].folder, f, d);
    } else {
      var i :| 0 <= i < |s.open| && Within(s.open[i].folder, f);
      WithinThrough(s.open[i].folder, f, d);
    }
  }

  function Depth(f: Folder): nat {
    if f.up.Inside? then 1 + Depth(f.up.folder) else 0
  }

  lemma {:induction false} WithinDeeper(f: Folder, d: Folder)
    requires Within(f, d)
    ensures f == d || Depth(f) > Depth(d)
    decreases f
  {
    if f != d { WithinDeeper(f.up.folder, d); }
  }

  function MostDepth(closing: seq<Folder>): nat {
    if closing == [] then 0
    else if Depth(closing[0]) > MostDepth(closing[1..]) then Depth(closing[0]) else MostDepth(closing[1..])
  }

  lemma {:induction false} MostDepthIs(closing: seq<Folder>, i: nat)
    requires i < |closing|
    ensures Depth(closing[i]) <= MostDepth(closing)
  {
    if i > 0 { MostDepthIs(closing[1..], i - 1); }
  }

  /** When none is ready, each is held by something under way, however deep: two directories never
      wait for each other. */
  lemma {:induction false} NoneReadyAllBusy(s: State, i: nat)
    requires DistinctPaths(s.closing)
    requires forall j :: 0 <= j < |s.closing| ==> !Ready(s, j)
    requires i < |s.closing|
    ensures Busy(s, s.closing[i])
    decreases MostDepth(s.closing) - Depth(s.closing[i])
  {
    if !Busy(s, s.closing[i]) {
      assert !Ready(s, i);
      var j :| 0 <= j < |s.closing| && j != i && Within(s.closing[j], s.closing[i]);
      WithinDeeper(s.closing[j], s.closing[i]);
      MostDepthIs(s.closing, j);
      NoneReadyAllBusy(s, j);
      BusyAbove(s, s.closing[j], s.closing[i]);
    }
  }

  lemma SwapRemoved(closing: seq<Folder>, at: nat)
    requires DistinctPaths(closing) && at < |closing|
    ensures var rest := SwapRemove(closing, at);
            && DistinctPaths(rest) && |rest| == |closing| - 1
            && (forall f :: f in rest <==> f in closing && f != closing[at])
  {
    var rest := SwapRemove(closing, at);
    assert forall i :: 0 <= i < |rest| ==> rest[i] == if i == at then closing[|closing| - 1] else closing[i];
    forall f | f in closing && f != closing[at] ensures f in rest {
      var i :| 0 <= i < |closing| && closing[i] == f;
      if i == |closing| - 1 { assert rest[at] == f; } else { assert rest[i] == f; }
    }
  }

  /** Whether the directory at `p` is waiting, and closes. */
  ghost predicate Settles(s: State, p: Path) {
    exists f :: f in s.closing && !Busy(s, f) && f.path == p
  }

  /** What directory `f`'s entry is once it closed. */
  function ClosedEntry(f: Folder, was: Option<Entry>): Option<Entry> {
    if f.present && f.mode.Some? && was.Some? && was.value.Dir? then Some(Dir(Landed(f.mode.value))) else was
  }

  function ClosedTime(f: Folder, was: Option<Time>): Option<Time> {
    if f.present && f.mtime.Some? then Some(At(f.mtime.value)) else was
  }

  function TimeAt(times: map<Path, Time>, p: Path): Option<Time> {
    if p in times then Some(times[p]) else None
  }

  /** At `p` the time is as it was or the one an entry gives that comes or goes there; elsewhere it is as it was. */
  ghost predicate TouchedAt(was: map<Path, Time>, now: map<Path, Time>, p: Path) {
    && (forall d :: d != p ==> TimeAt(now, d) == TimeAt(was, d))
    && (TimeAt(now, p) == TimeAt(was, p) || TimeAt(now, p) == Some(Arrived))
  }

  /** Whether the directory at `p` was given a time of its own. */
  predicate TimeSet(times: map<Path, Time>, p: Path) {
    p in times && times[p].At?
  }

  lemma TimeKept(was: map<Path, Time>, now: map<Path, Time>, p: Path, d: Path)
    requires TouchedAt(was, now, p)
    ensures TimeSet(now, d) ==> TimeSet(was, d)
    ensures d != p ==> TimeAt(now, d) == TimeAt(was, d)
  {
    assert TimeSet(now, d) <==> TimeAt(now, d).Some? && TimeAt(now, d).value.At?;
    assert TimeSet(was, d) <==> TimeAt(was, d).Some? && TimeAt(was, d).value.At?;
  }

  lemma CloseOneIs(s: State, at: nat)
    requires at < |s.closing| && DistinctPaths(s.closing)
    ensures var f, u := s.closing[at], CloseOne(s, at);
            && u == s.(closing := SwapRemove(s.closing, at), files := u.files, times := u.times)
            && Get(u.files, f.path) == ClosedEntry(f, Get(s.files, f.path))
            && TimeAt(u.times, f.path) == ClosedTime(f, TimeAt(s.times, f.path))
            && forall p :: p != f.path ==> Get(u.files, p) == Get(s.files, p) && TimeAt(u.times, p) == TimeAt(s.times, p)
  {
  }

  lemma SameBusy(s: State, t: State, f: Folder)
    requires s.pending == t.pending && s.open == t.open
    ensures Busy(s, f) <==> Busy(t, f)
  {
  }

  /** What closing comes to, for directory `f` and for path `p`: exactly the directories with nothing
      under them under way close, each once, and none of those waits on. */
  lemma {:induction false} CloseReadyIs(s: State, f: Folder, p: Path)
    requires DistinctPaths(s.closing)
    ensures var t := CloseReady(s);
            && t == s.(closing := t.closing, files := t.files, times := t.times)
            && DistinctPaths(t.closing)
            && (f in t.closing <==> f in s.closing && Busy(s, f))
            && (f in s.closing && !Busy(s, f) ==>
                  && Get(t.files, f.path) == ClosedEntry(f, Get(s.files, f.path))
                  && TimeAt(t.times, f.path) == ClosedTime(f, TimeAt(s.times, f.path)))
            && (!Settles(s, p) ==> Get(t.files, p) == Get(s.files, p) && TimeAt(t.times, p) == TimeAt(s.times, p))
    decreases |s.closing|
  {
    var at := FirstReady(s, 0);
    if at.None? {
      if f in s.closing {
        var i :| 0 <= i < |s.closing| && s.closing[i] == f;
        NoneReadyAllBusy(s, i);
      }
    } else {
      var d, u := s.closing[at.value], CloseOne(s, at.value);
      CloseOneIs(s, at.value);
      SwapRemoved(s.closing, at.value);
      assert !Busy(s, d);
      SameBusy(s, u, f);
      CloseReadyIs(u, f, p);
      if f == d {
        SettledOnce(s, at.value);
        CloseReadyIs(u, f, d.path);
      }
      if f in s.closing && f != d { DistinctOf(s.closing, f, d); }
      if !Settles(s, p) {
        assert p != d.path;
        NotSettled(s, u, p);
      }
    }
  }

  lemma DistinctOf(closing: seq<Folder>, f: Folder, d: Folder)
    requires DistinctPaths(closing) && f in closing && d in closing && f != d
    ensures f.path != d.path
  {
    var i :| 0 <= i < |closing| && closing[i] == f;
    var j :| 0 <= j < |closing| && closing[j] == d;
  }

  lemma SettledOnce(s: State, at: nat)
    requires DistinctPaths(s.closing) && at < |s.closing|
    ensures !Settles(CloseOne(s, at), s.closing[at].path)
  {
    SwapRemoved(s.closing, at);
    forall f | f in CloseOne(s, at).closing ensures f.path != s.closing[at].path {
      DistinctOf(s.closing, f, s.closing[at]);
    }
  }

  lemma NotSettled(s: State, u: State, p: Path)
    requires s.pending == u.pending && s.open == u.open && !Settles(s, p)
    requires forall f :: f in u.closing ==> f in s.closing
    ensures !Settles(u, p)
  {
    forall f | f in u.closing && !Busy(u, f) ensures f.path != p { SameBusy(s, u, f); }
  }

  lemma NotBusy(s: State, f: Folder)
    requires s.pending == map[] && s.open == []
    ensures !Busy(s, f)
  {
  }

  /** With nothing under way, none waits: at the end of a copy every directory has closed. */
  lemma NoneLeft(s: State)
    requires DistinctPaths(s.closing) && s.pending == map[] && s.open == []
    ensures CloseReady(s).closing == []
  {
    var t := CloseReady(s);
    if t.closing != [] {
      var f := t.closing[0];
      CloseReadyIs(s, f, []);
      NotBusy(s, f);
    }
  }
}
