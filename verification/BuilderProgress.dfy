/** What the ladder and a rendition builder come to when nothing disturbs them, and that
    a builder's death frees its lock (app/worker/hls.py: `HlsLadderBuilder.build`;
    app/worker/renditions.py: `RenditionBuilder.run`). */
module BuilderProgress {
  import opened Prelude
  import opened Text
  import opened MasterPlaylist
  import opened MasterListing
  import opened MasterBuilders

  /** The builder's next `n` steps, with nobody else about. */
  function Along(v: Video, s: State, b: nat, n: nat): State
    decreases n
  {
    if n == 0 then s else Along(v, Do(v, s, Step(b)), b, n - 1)
  }

  lemma {:induction false} AlongMore(v: Video, s: State, b: nat, m: nat, n: nat)
    ensures Along(v, s, b, m + n) == Along(v, Along(v, s, b, m), b, n)
    decreases m
  {
    hide Do;
    if m > 0 {
      AlongMore(v, Do(v, s, Step(b)), b, m - 1, n);
    }
  }

  function FileSet(files: seq<string>): set<string> { set f | f in files }

  lemma ToTwice(s: State, b: nat, x: Builder, y: Builder)
    requires b < |s.builders|
    ensures To(To(s, b, x), b, y) == To(s, b, y)
  {
    assert s.builders[b := x][b := y] == s.builders[b := y];
  }

  /** It uploads every file it has, one after the other. */
  lemma {:induction false} UploadsAll(v: Video, s: State, b: nat, kind: Kind, rs: seq<Rendition>, todo: seq<string>)
    requires b < |s.builders| && s.builders[b] == Uploads(kind, rs, todo)
    ensures Along(v, s, b, |todo| + 1) == To(s.(store := s.store + FileSet(todo)), b, Waits(kind, rs))
    decreases |todo|
  {
    if todo == [] {
      assert s.store + FileSet(todo) == s.store;
      assert Along(v, s, b, 1) == Along(v, Do(v, s, Step(b)), b, 0);
    } else {
      var t := Do(v, s, Step(b));
      UploadsAll(v, t, b, kind, rs, todo[1..]);
      assert s.store + {todo[0]} + FileSet(todo[1..]) == s.store + FileSet(todo);
      ToTwice(s, b, Uploads(kind, rs, todo[1..]), Waits(kind, rs));
    }
  }

  /** With the lock free it reads the master, adds its entries to what is there then,
      stores that, and frees the lock. */
  lemma ListsAll(v: Video, s: State, b: nat, kind: Kind, rs: seq<Rendition>)
    requires b < |s.builders| && s.builders[b] == Waits(kind, rs) && s.lock.None? && s.master.Some?
    ensures Along(v, s, b, 4) == To(s.(master := Some(AddAll(s.master.value, rs))), b, Finished(kind, rs))
  {
    hide AddAll;
    var text := AddAll(s.master.value, rs);
    var a := To(s.(lock := Some(b)), b, Reads(kind, rs));
    var c := To(a, b, Writes(kind, rs, text));
    var d := To(a.(master := Some(text)), b, Releases(kind, rs));
    ToTwice(a.(master := Some(text)), b, Writes(kind, rs, text), Releases(kind, rs));
    ToTwice(s.(master := Some(text)), b, Reads(kind, rs), Releases(kind, rs));
    ToTwice(s.(master := Some(text)), b, Releases(kind, rs), Finished(kind, rs));
    assert Do(v, s, Step(b)) == a && Do(v, a, Step(b)) == c && Do(v, c, Step(b)) == d;
    assert Do(v, d, Step(b)) == To(s.(master := Some(text)), b, Finished(kind, rs));
    FourAlong(v, s, b);
  }

  lemma FourAlong(v: Video, s: State, b: nat)
    ensures var e := Step(b); Along(v, s, b, 4) == Do(v, Do(v, Do(v, Do(v, s, e), e), e), e)
  {
    hide Do;
    var e := Step(b);
    assert Along(v, Do(v, Do(v, Do(v, s, e), e), e), b, 1) == Do(v, Do(v, Do(v, Do(v, s, e), e), e), e);
  }

  /** A builder whose kind is not listed yet, undisturbed: every file of every rendition
      is stored, every rendition listed, and the lock free again. */
  lemma BuildsAll(v: Video, s: State, b: nat, kind: Kind, rs: seq<Rendition>) returns (n: nat)
    requires b < |s.builders| && s.builders[b] == Starts(kind) && s.lock.None? && s.master.Some?
    requires AllOf(kind, rs) && rs != [] && !Contains(s.master.value, Name(kind) + "/")
    ensures Along(v, Do(v, s, Look(b, rs)), b, n)
            == To(s.(store := s.store + FileSet(FilesOf(v, rs)), master := Some(AddAll(s.master.value, rs))), b, Finished(kind, rs))
  {
    hide FilesOf, AddAll, Contains, Along;
    var files := FilesOf(v, rs);
    var a := To(s, b, Uploads(kind, rs, files));
    UploadsAll(v, a, b, kind, rs, files);
    var c := To(s.(store := s.store + FileSet(files)), b, Waits(kind, rs));
    ToTwice(s.(store := s.store + FileSet(files)), b, Uploads(kind, rs, files), Waits(kind, rs));
    ListsAll(v, c, b, kind, rs);
    ToTwice(s.(store := c.store, master := Some(AddAll(s.master.value, rs))), b, Waits(kind, rs), Finished(kind, rs));
    n := |files| + 1 + 4;
    AlongMore(v, a, b, |files| + 1, 4);
  }

  /** A kind that is listed already, or a source that gets none, ends it with nothing done. */
  lemma LeavesIt(v: Video, s: State, b: nat, kind: Kind, rs: seq<Rendition>)
    requires b < |s.builders| && s.builders[b] == Starts(kind) && s.master.Some? && AllOf(kind, rs)
    requires rs == [] || Contains(s.master.value, Name(kind) + "/")
    ensures Do(v, s, Look(b, rs)) == To(s, b, Gone)
  {
  }

  /** A death at any moment leaves what was stored and listed, and no lock behind. */
  lemma DeathFreesLock(v: Video, s: State, b: nat)
    requires b < |s.builders| && !s.builders[b].Finished?
    ensures Do(v, s, Dies(b)) == To(s.(lock := if s.lock == Some(b) then None else s.lock), b, Gone)
    ensures Do(v, s, Dies(b)).lock != Some(b)
  {
  }

  // --- The ladder --------------------------------------------------------------------

  /** The ladder's next `n` uploads. */
  function LadderAlong(v: Video, s: State, n: nat): State
    decreases n
  {
    if n == 0 then s else LadderAlong(v, Do(v, s, LadderUploads), n - 1)
  }

  lemma {:induction false} LadderUploadsAll(v: Video, s: State)
    ensures LadderAlong(v, s, |s.ladderTodo|) == s.(store := s.store + FileSet(s.ladderTodo), ladderTodo := [])
    decreases |s.ladderTodo|
  {
    if s.ladderTodo == [] {
      assert s.store + FileSet([]) == s.store;
    } else {
      LadderUploadsAll(v, Do(v, s, LadderUploads));
      assert s.store + {s.ladderTodo[0]} + FileSet(s.ladderTodo[1..]) == s.store + FileSet(s.ladderTodo);
    }
  }

  /** The ladder uploads all its files, and only then its master. */
  lemma LadderIsStored(v: Video)
    ensures var s := LadderAlong(v, Begun(v), |v.ladderFiles|);
            && s == State(FileSet(v.ladderFiles), [], None, None, [])
            && Do(v, s, LadderListed) == s.(master := Some(v.ladderMaster))
    ensures v.ladderFiles != [] ==> Do(v, Begun(v), LadderListed) == Begun(v)
  {
    LadderUploadsAll(v, Begun(v));
    assert {} + FileSet(v.ladderFiles) == FileSet(v.ladderFiles);
  }
}
