/** What a session's row, its parts and its object may do in one step of any run, said
    of the tables alone (app/api/multipart_uploads.py, app/services/upload_cleanup.py,
    app/worker/reaper.py). */
module UploadMoves {
  import opened Prelude
  import opened UploadParts
  import opened UploadSessions

  /** Storage holds exactly this manifest's parts: as many as the file has, and each by
      its number, its ETag and the bytes that part of the file has. */
  ghost predicate AllStored(s: State, id: nat, manifest: seq<PartRef>) {
    && id in s.rows && id in s.parts && s.rows[id].partSize > 0
    && var row := s.rows[id];
       && |s.parts[id]| == |manifest| == PartCount(row.size, row.partSize)
       && forall k :: 0 <= k < |manifest| ==>
            manifest[k].n == k + 1 && StoredPart(k + 1, manifest[k].etag, BytesOf(k, row)) in s.parts[id]
  }

  /** The bytes of part `k + 1`: a whole part, or what is left of the file. */
  function BytesOf(k: nat, row: Row): int {
    if (k + 1) * row.partSize <= row.size then row.partSize else row.size - k * row.partSize
  }

  lemma BytesAgree(k: nat, row: Row)
    ensures PartBytes(k + 1, row.partSize, row.size) == BytesOf(k, row)
  {
    assert (k + 1) * row.partSize == k * row.partSize + row.partSize;
  }

  /** As many different things, all of them in the list, are the list. */
  lemma {:induction false} Covers<T>(a: seq<T>, b: seq<T>)
    requires |a| == |b| && (forall k :: 0 <= k < |b| ==> b[k] in a)
    requires forall i, j :: 0 <= i < j < |b| ==> b[i] != b[j]
    ensures multiset(a) == multiset(b)
  {
    forall x ensures multiset(b)[x] <= multiset(a)[x] {
      if x in multiset(b) {
        Once(b, x);
      }
    }
    assert |multiset(a) - multiset(b)| == |multiset(a)| - |multiset(b)| == 0;
    assert multiset(a) == multiset(b) + (multiset(a) - multiset(b));
  }

  lemma {:induction false} Once<T>(b: seq<T>, x: T)
    requires x in multiset(b) && forall i, j :: 0 <= i < j < |b| ==> b[i] != b[j]
    ensures multiset(b)[x] == 1
  {
    assert b == b[..|b| - 1] + [b[|b| - 1]];
    if x in multiset(b[..|b| - 1]) {
      Once(b[..|b| - 1], x);
    }
  }

  /** What `validate_parts` checks is just that. */
  lemma StoredIsValid(s: State, id: nat, manifest: seq<PartRef>)
    requires id in s.rows && id in s.parts && s.rows[id].partSize > 0 && Contiguous(manifest)
    ensures var row := s.rows[id];
            AllStored(s, id, manifest)
            <==> |manifest| == PartCount(row.size, row.partSize)
                 && ByNumber(s.parts[id]) == Expected(manifest, row.size, row.partSize)
  {
    var row, parts := s.rows[id], s.parts[id];
    var expected := Expected(manifest, row.size, row.partSize);
    ValidatedMeans(row.size, row.partSize, manifest, parts);
    forall k | 0 <= k < |manifest|
      ensures expected[k] == StoredPart(k + 1, manifest[k].etag, BytesOf(k, row))
    {
      BytesAgree(k, row);
    }
    hide PartCount, ByNumber, BytesOf;
    if AllStored(s, id, manifest) {
      Covers(parts, expected);
    }
    if multiset(parts) == multiset(expected) {
      assert |parts| == |multiset(parts)| == |expected|;
      forall k | 0 <= k < |manifest| ensures expected[k] in parts {
        assert expected[k] in multiset(parts);
      }
    }
  }

  // --- What is merged is the file -------------------------------------------

  lemma {:induction false} FindsIt(parts: seq<StoredPart>, r: PartRef, x: StoredPart)
    requires x in parts && x.n == r.n && x.etag == r.etag
    requires forall y :: y in parts && y.n == r.n ==> y == x
    ensures Find(parts, r) == [x]
  {
    if parts[0] != x {
      assert parts[0] in parts;
      FindsIt(parts[1..], r, x);
    }
  }

  lemma {:induction false} MergeOf(parts: seq<StoredPart>, manifest: seq<PartRef>, expected: seq<StoredPart>)
    requires |manifest| == |expected|
    requires forall k :: 0 <= k < |manifest| ==> Find(parts, manifest[k]) == [expected[k]]
    ensures Merge(parts, manifest) == Some(expected)
  {
    if manifest != [] {
      assert Find(parts, manifest[0]) == [expected[0]];
      forall k | 0 <= k < |manifest[1..]| ensures Find(parts, manifest[1..][k]) == [expected[1..][k]] {
        assert Find(parts, manifest[k + 1]) == [expected[k + 1]];
      }
      MergeOf(parts, manifest[1..], expected[1..]);
      assert expected == [expected[0]] + expected[1..];
    } else {
      assert expected == [];
    }
  }

  lemma {:induction false} SizesFrom(parts: seq<StoredPart>, row: Row, k: nat)
    requires row.partSize > 0 && k <= |parts| == PartCount(row.size, row.partSize)
    requires forall j :: 0 <= j < |parts| ==> parts[j].size == BytesOf(j, row)
    ensures Sizes(parts[k..]) == if k * row.partSize <= row.size then row.size - k * row.partSize else 0
    decreases |parts| - k
  {
    if k == |parts| {
      assert row.size <= k * row.partSize by { Enough(row.size, row.partSize); }
    } else {
      SizesFrom(parts, row, k + 1);
      PartFits(row.size, row.partSize, k + 1);
      assert (k + 1) * row.partSize == k * row.partSize + row.partSize;
      assert parts[k..][1..] == parts[k + 1..];
    }
  }

  lemma Enough(size: nat, partSize: nat)
    requires partSize > 0
    ensures size <= PartCount(size, partSize) * partSize
  {
    if size > 0 {
      assert PartCount(size, partSize) >= 1;
      PartFits(size, partSize, PartCount(size, partSize));
    }
  }

  /** When the manifest's parts are all there, storage can merge them: in order, each
      once, and as many bytes as were declared. */
  lemma MergedIsWhole(s: State, id: nat, manifest: seq<PartRef>)
    requires AllStored(s, id, manifest)
    ensures var merged := Merge(s.parts[id], manifest);
            && merged.Some? && |merged.value| == |manifest| && Sizes(merged.value) == s.rows[id].size
            && forall k :: 0 <= k < |manifest| ==> merged.value[k].n == k + 1 && merged.value[k].etag == manifest[k].etag
  {
    var row, parts := s.rows[id], s.parts[id];
    var whole := seq(|manifest|, k requires 0 <= k < |manifest| => StoredPart(k + 1, manifest[k].etag, BytesOf(k, row)));
    SizesFrom(whole, row, 0);
    assert whole[0..] == whole;
    hide PartCount, BytesOf, Sizes;
    Covers(parts, whole);
    forall k | 0 <= k < |manifest| ensures Find(parts, manifest[k]) == [whole[k]] {
      forall y | y in parts && y.n == manifest[k].n ensures y == whole[k] {
        assert y in multiset(parts);
        assert y in multiset(whole);
      }
      FindsIt(parts, manifest[k], whole[k]);
    }
    MergeOf(parts, manifest, whole);
  }

  // --- What one step may do -------------------------------------------------

  /** The merged object is the declared bytes of a video. */
  ghost predicate Good(s: State, id: nat) {
    Merged(s, id) && s.objects[id].video
  }

  ghost predicate Expired(s: State, id: nat) {
    id in s.rows && Reserved(s.rows[id].stage) && s.rows[id].expires <= s.now
  }

  /** All a step can make of a session's row. */
  ghost predicate RowMove(s: State, t: State, id: nat)
    requires id in s.rows && id in t.rows
  {
    var a, b := s.rows[id], t.rows[id];
    || b == a
    || b == a.(initiated := true)
    // The manifest is frozen, and its parts are all there.
    || (a.stage.Open? && a.initiated && AllStored(s, id, if b.manifest.Some? then b.manifest.value else [])
        && b.manifest.Some? && b == a.(stage := Completing, manifest := b.manifest))
    // The job is made, of the declared bytes of a video.
    || (a.stage.Completing? && Good(s, id) && b == a.(stage := Ready)
        && id !in s.jobs && t.jobs == s.jobs + {id} && t.made == s.made + multiset{id})
    || (a.stage.Ready? && b == a.(stage := Completed))
    // Cancelled by its owner, or found to be something else than was declared.
    || ((a.stage.Open? || a.stage.Aborting? || (a.stage.Completing? && id in s.objects && !Good(s, id)))
        && b == a.(stage := Aborting))
    || ((Ending(a.stage) || Expired(s, id)) && b == a.(stage := Aborted))
  }

  /** A new session takes one of the owner's five slots, for 24 hours. */
  ghost predicate RowStart(s: State, t: State, id: nat)
    requires id in t.rows
  {
    var b := t.rows[id];
    && b == Row(Open, b.size, b.partSize, false, None, s.now + 24 * 60 * 60) && b.partSize > 0
    && |ReservedIds(s.rows)| < 5
  }

  /** Storage loses parts or an object only to a merge, a cancellation, an expiry, or
      when neither a job nor a session needs them. */
  ghost predicate StorageMove(s: State, t: State, id: nat) {
    && (id in t.objects && (id in s.objects ==> t.objects[id] != s.objects[id]) ==>
          && id !in s.objects && StageIs(s, id, Completing) && id in s.parts && id !in t.parts
          && s.rows[id].manifest.Some? && t.objects[id].at == s.now
          && var merged := Merge(s.parts[id], s.rows[id].manifest.value);
             merged.Some? && t.objects[id].size == Sizes(merged.value))
    && (id in s.objects && id !in t.objects ==>
          id in s.rows && id !in s.jobs && (Made(s.rows[id].stage) || Ending(s.rows[id].stage) || Expired(s, id)))
    && (id in s.parts && id !in t.parts ==>
          id in s.rows && (id in t.objects || Ending(s.rows[id].stage) || Expired(s, id)))
    && (id in t.jobs && id !in s.jobs ==> StageIs(s, id, Completing) && StageIs(t, id, Ready))
  }

  ghost predicate Moved(s: State, t: State) {
    && (forall id :: id in s.rows ==> id in t.rows && RowMove(s, t, id))
    && (forall id :: id in t.rows && id !in s.rows ==> RowStart(s, t, id))
    && (forall id :: StorageMove(s, t, id))
  }

  // --- What the processes know besides --------------------------------------

  ghost predicate RowKnown(row: Row) {
    && row.partSize > 0 && (row.stage.Open? ==> row.manifest == None)
    && (row.stage.Completing? || Made(row.stage) ==>
          row.initiated && row.manifest.Some? && |row.manifest.value| == PartCount(row.size, row.partSize)
          && Contiguous(row.manifest.value))
    && (row.manifest.Some? ==> Contiguous(row.manifest.value))
  }

  ghost predicate ProcKnown(s: State, proc: Proc) {
    match proc
    case StartLocks(_, _, partSize) => partSize > 0
    case StartInserts(_, _, partSize) => partSize > 0
    case Locks(_, request, _) => Contiguous(request)
    case Validates(id, request) => StageIs(s, id, Open) && s.rows[id].initiated && Contiguous(request)
    case Merges(id) => StageIs(s, id, Completing) && id !in s.objects
    case DiscardMarks(id) =>
      id in s.rows && (s.rows[id].stage.Open? || s.rows[id].stage.Aborting?
                       || (s.rows[id].stage.Completing? && id in s.objects && !Good(s, id)))
    case CleansParts(id) => Expired(s, id)
    case CleansObject(id) => Expired(s, id)
    case CleanCommits(id) => Expired(s, id)
    case _ => true
  }

  /** The lock is always held by a process that needs it. */
  ghost predicate LockKnown(s: State) {
    s.lock.Some? ==> s.lock.value in s.procs && Holding(s.procs[s.lock.value])
  }

  ghost predicate Known(s: State) {
    && (forall id :: id in s.rows ==> RowKnown(s.rows[id]))
    && (forall p :: p in s.procs ==> ProcKnown(s, s.procs[p]))
    && LockKnown(s)
  }

  /** What a process's own step comes to. */
  ghost predicate Own(s: State, t: State, p: nat) {
    && Moved(s, t) && (forall id :: id in t.rows ==> RowKnown(t.rows[id]))
    && p in t.procs && ProcKnown(t, t.procs[p]) && LockKnown(t)
  }

  ghost predicate LocalKnown(s: State, p: nat) {
    && Local(s, p) && LockOk(s) && (forall id :: id in s.rows ==> RowKnown(s.rows[id]))
    && ProcKnown(s, s.procs[p]) && LockKnown(s)
  }

  ghost predicate SameAt(s: State, u: State, id: nat) {
    && (id in s.rows <==> id in u.rows) && (id in s.rows ==> u.rows[id] == s.rows[id])
    && (id in s.objects <==> id in u.objects) && (id in s.objects ==> u.objects[id] == s.objects[id])
    && (id in s.parts <==> id in u.parts) && (id in s.jobs <==> id in u.jobs)
  }

  ghost predicate MoveAt(s: State, u: State, id: nat) {
    && (id in s.rows ==> id in u.rows && RowMove(s, u, id))
    && (id in u.rows && id !in s.rows ==> RowStart(s, u, id))
    && StorageMove(s, u, id)
    && (id in u.rows ==> RowKnown(u.rows[id]))
  }

  lemma SameMoves(s: State, u: State, id: nat)
    requires SameAt(s, u, id) && (id in s.rows ==> RowKnown(s.rows[id]))
    ensures MoveAt(s, u, id)
  {
  }

  lemma ToMoves(s: State, u: State, p: nat, proc: Proc, id: nat)
    requires MoveAt(s, u, id)
    ensures MoveAt(s, To(u, p, proc), id)
  {
    hide Good, AllStored, Expired, Merge, Sizes, RowKnown, Holding;
  }

  lemma ToKnows(u: State, p: nat, proc: Proc)
    requires ProcKnown(u, proc)
    ensures ProcKnown(To(u, p, proc), proc)
  {
    hide Holding;
  }

  lemma ToLocks(u: State, p: nat, proc: Proc)
    requires LockKnown(u)
    ensures LockKnown(To(u, p, proc))
  {
    hide Holding;
  }

  /** One session moves and the others stay, and then the process goes on. */
  lemma OnlyAt(s: State, u: State, p: nat, id: nat, proc: Proc)
    requires (forall x :: x in s.rows ==> RowKnown(s.rows[x])) && LockKnown(s)
    requires u.procs == s.procs && u.lock == s.lock
    requires forall x :: x != id ==> SameAt(s, u, x)
    requires MoveAt(s, u, id) && ProcKnown(u, proc)
    ensures Own(s, To(u, p, proc), p)
  {
    var t := To(u, p, proc);
    forall x ensures MoveAt(s, t, x) {
      if x != id {
        assert SameAt(s, u, x);
        SameMoves(s, u, x);
      }
      ToMoves(s, u, p, proc, x);
    }
    ToKnows(u, p, proc);
    ToLocks(u, p, proc);
    hide LockKnown, RowMove, RowStart, RowKnown, StorageMove, ProcKnown, To, SameAt;
    forall x | x in s.rows ensures x in t.rows && RowMove(s, t, x) {
      assert MoveAt(s, t, x);
    }
    forall x | x in t.rows && x !in s.rows ensures RowStart(s, t, x) {
      assert MoveAt(s, t, x);
    }
    forall x ensures StorageMove(s, t, x) {
      assert MoveAt(s, t, x);
    }
    forall x | x in t.rows ensures RowKnown(t.rows[x]) {
      assert MoveAt(s, t, x);
    }
  }

  /** The process goes on and nothing else happens. */
  lemma Goes(s: State, p: nat, proc: Proc)
    requires LocalKnown(s, p) && ProcKnown(s, proc)
    ensures Own(s, To(s, p, proc), p)
  {
    SameMoves(s, s, 0);
    hide Local, LockOk, LockKnown, RowKnown, ProcKnown, MoveAt, To;
    OnlyAt(s, s, p, 0, proc);
  }

  lemma StaysOwn(s: State, p: nat)
    requires LocalKnown(s, p)
    ensures Own(s, s, p)
  {
  }

  lemma RowOwn(s: State, p: nat, id: nat, row: Row, proc: Proc)
    requires LocalKnown(s, p) && id in s.rows && RowKnown(row)
    requires var u := s.(rows := s.rows[id := row]); RowMove(s, u, id) && ProcKnown(u, proc)
    ensures Own(s, To(s.(rows := s.rows[id := row]), p, proc), p)
  {
    hide Local, LockOk, Own, Merge, Sizes, PartCount, Holding, RowKnown, Good, AllStored, Expired;
    OnlyAt(s, s.(rows := s.rows[id := row]), p, id, proc);
  }

  lemma PartsOwn(s: State, p: nat, id: nat, parts: map<nat, seq<StoredPart>>, proc: Proc)
    requires LocalKnown(s, p) && id in s.rows && ProcKnown(s.(parts := parts), proc)
    requires parts == s.parts[id := []] || (parts == s.parts - {id} && (Ending(s.rows[id].stage) || Expired(s, id)))
    ensures Own(s, To(s.(parts := parts), p, proc), p)
  {
    hide Local, LockOk, Own, Merge, Sizes, PartCount, Holding, RowKnown, Good, AllStored, Expired;
    OnlyAt(s, s.(parts := parts), p, id, proc);
  }

  lemma ObjectOwn(s: State, p: nat, id: nat, proc: Proc)
    requires LocalKnown(s, p) && id in s.rows && id !in s.jobs && ProcKnown(s.(objects := s.objects - {id}), proc)
    requires Made(s.rows[id].stage) || Ending(s.rows[id].stage) || Expired(s, id)
    ensures Own(s, To(s.(objects := s.objects - {id}), p, proc), p)
  {
    hide Local, LockOk, Own, Merge, Sizes, PartCount, Holding, RowKnown, Good, AllStored, Expired;
    OnlyAt(s, s.(objects := s.objects - {id}), p, id, proc);
  }

  lemma AbortingOwn(s: State, p: nat, id: nat)
    requires LocalKnown(s, p) && s.procs[p] == DiscardMarks(id)
    ensures Own(s, To(WithStage(s, id, Aborting), p, DiscardRelocks(id)), p)
  {
    hide Local, LockOk, Own, To, PartCount;
    RowOwn(s, p, id, s.rows[id].(stage := Aborting), DiscardRelocks(id));
  }

  lemma AbortedOwn(s: State, p: nat, id: nat)
    requires LocalKnown(s, p) && id in s.rows && (Ending(s.rows[id].stage) || Expired(s, id))
    ensures Own(s, To(WithStage(s, id, Aborted), p, Idle), p)
  {
    hide Local, LockOk, Own, To, PartCount;
    RowOwn(s, p, id, s.rows[id].(stage := Aborted), Idle);
  }

  lemma CompletedOwn(s: State, p: nat, id: nat)
    requires LocalKnown(s, p) && StageIs(s, id, Ready)
    ensures Own(s, To(WithStage(s, id, Completed), p, Idle), p)
  {
    hide Local, LockOk, Own, To, PartCount;
    RowOwn(s, p, id, s.rows[id].(stage := Completed), Idle);
  }

  lemma InsertOwn(s: State, p: nat, id: nat, size: nat, partSize: nat)
    requires LocalKnown(s, p) && id !in s.rows && |ReservedIds(s.rows)| < 5 && partSize > 0
    ensures var row := Row(Open, size, partSize, false, None, s.now + 86400);
            Own(s, To(s.(rows := s.rows[id := row]), p, StartRelocks(id)), p)
  {
    var row := Row(Open, size, partSize, false, None, s.now + 86400);
    assert ObjectsOk(s) && JobsOk(s);
    hide Local, LockOk, Own, Merge, Sizes, PartCount, Holding, Good, AllStored;
    OnlyAt(s, s.(rows := s.rows[id := row]), p, id, StartRelocks(id));
  }

  lemma StartOwn(s: State, p: nat)
    requires LocalKnown(s, p)
    ensures Own(s, StartStep(s, p, s.procs[p]), p)
  {
    StaysOwn(s, p);
    assert ProcOk(s, s.procs[p]) && ProcKnown(s, s.procs[p]);
    hide LocalKnown, Own, Holding, To, Merged, RowMove, RowKnown;
    match s.procs[p]
    case StartLocks(id, size, partSize) => if s.lock.None? { Goes(s, p, StartInserts(id, size, partSize)); }
    case StartInserts(id, size, partSize) =>
      if id in s.rows || |ReservedIds(s.rows)| >= MAX_OPEN_UPLOADS {
        Goes(s, p, Idle);
      } else {
        InsertOwn(s, p, id, size, partSize);
      }
    case StartRelocks(id) => if s.lock.None? { Goes(s, p, StartInitiates(id)); }
    case StartInitiates(id) => PartsOwn(s, p, id, s.parts[id := []], StartCommits(id));
    case StartCommits(id) => if id in s.rows { RowOwn(s, p, id, s.rows[id].(initiated := true), Idle); }
    case _ =>
  }

  lemma NoJobHere(s: State, p: nat)
    requires LocalKnown(s, p)
    ensures s.procs[p].DiscardsObject? || s.procs[p].CleansObject? ==> s.procs[p].id !in s.jobs
  {
  }

  lemma DiscardOwn(s: State, p: nat)
    requires LocalKnown(s, p)
    ensures Own(s, DiscardStep(s, p, s.procs[p]), p)
  {
    StaysOwn(s, p);
    assert ProcOk(s, s.procs[p]) && ProcKnown(s, s.procs[p]);
    NoJobHere(s, p);
    hide LocalKnown, Own, Holding, To, Good, Protected, AllStored;
    match s.procs[p]
    case AbortLocks(id) =>
      if s.lock.None? { Goes(s, p, if id !in s.rows then Idle else AbortFrom(s.rows[id], id)); }
    case DiscardMarks(id) => AbortingOwn(s, p, id);
    case DiscardRelocks(id) => if s.lock.None? { Goes(s, p, DiscardsParts(id)); }
    case DiscardsParts(id) => PartsOwn(s, p, id, s.parts - {id}, DiscardsObject(id));
    case DiscardsObject(id) => ObjectOwn(s, p, id, DiscardCommits(id));
    case DiscardCommits(id) => AbortedOwn(s, p, id);
    case _ =>
  }

  lemma CleanOwn(s: State, p: nat)
    requires LocalKnown(s, p)
    ensures Own(s, CleanStep(s, p, s.procs[p]), p)
  {
    StaysOwn(s, p);
    assert ProcOk(s, s.procs[p]) && ProcKnown(s, s.procs[p]);
    NoJobHere(s, p);
    hide LocalKnown, Own, Holding, To, Good, Protected, AllStored;
    match s.procs[p]
    case CleanLocks(id) =>
      if s.lock.None? { Goes(s, p, if id !in s.rows then Idle else CleanFrom(s, s.rows[id], id)); }
    case CleansParts(id) => PartsOwn(s, p, id, s.parts - {id}, CleansObject(id));
    case CleansObject(id) => ObjectOwn(s, p, id, CleanCommits(id));
    case CleanCommits(id) => AbortedOwn(s, p, id);
    case _ =>
  }

  lemma JobRowOwn(s: State, p: nat, id: nat)
    requires LocalKnown(s, p) && id in s.jobs
    ensures Own(s, To(s.(jobs := s.jobs - {id}), p, DeletesSource(id)), p)
  {
    assert JobsOk(s);
    hide Local, LockOk, Own, Merge, Sizes, PartCount, Holding, RowKnown, Good, AllStored, Expired;
    OnlyAt(s, s.(jobs := s.jobs - {id}), p, id, DeletesSource(id));
  }

  lemma SweepOwn(s: State, p: nat, pick: nat)
    requires LocalKnown(s, p) && (s.procs[p].SweepLists? || s.procs[p].SweepDeletes?)
    ensures Own(s, DeleteStep(s, p, s.procs[p], pick), p)
  {
    var proc := s.procs[p];
    assert ProcOk(s, proc);
    hide LocalKnown, Own, Holding, To, RowKnown;
    if proc.SweepLists? {
      Goes(s, p, SweepDeletes(set id | id in s.objects && id !in proc.keys && s.objects[id].at < proc.before));
    } else if pick in proc.orphans {
      ObjectOwn(s, p, pick, SweepDeletes(proc.orphans - {pick}));
    } else {
      Goes(s, p, Idle);
    }
  }

  lemma SourceGone(s: State, p: nat)
    requires LocalKnown(s, p)
    ensures s.procs[p].DeletesSource? ==>
              var id := s.procs[p].id; id in s.rows && Made(s.rows[id].stage) && id !in s.jobs
  {
  }

  lemma DeleteOwn(s: State, p: nat, pick: nat)
    requires LocalKnown(s, p)
    ensures Own(s, DeleteStep(s, p, s.procs[p], pick), p)
  {
    if s.procs[p].SweepLists? || s.procs[p].SweepDeletes? {
      SweepOwn(s, p, pick);
    } else {
      StaysOwn(s, p);
      SourceGone(s, p);
      hide LocalKnown, Own, Holding, To, RowKnown, ProcOk, Protected, Local;
      match s.procs[p]
      case DeletesJob(id) => if id in s.jobs { JobRowOwn(s, p, id); } else { Goes(s, p, Idle); }
      case DeletesSource(id) => ObjectOwn(s, p, id, Idle);
      case SweepReads(before) =>
        Goes(s, p, SweepLists(Protected(s), s.now, if before < s.now then before else s.now));
      case _ =>
    }
  }

  lemma MergeOwn(s: State, p: nat, id: nat, whole: Object)
    requires LocalKnown(s, p) && StageIs(s, id, Completing) && id !in s.objects && id in s.parts
    requires s.rows[id].manifest.Some?
    requires var merged := Merge(s.parts[id], s.rows[id].manifest.value);
             merged.Some? && whole.size == Sizes(merged.value) && whole.at == s.now
    ensures Own(s, To(s.(objects := s.objects[id := whole], parts := s.parts - {id}), p, HeadsAgain(id)), p)
  {
    assert JobsOk(s);
    hide Local, LockOk, Own, Merge, Sizes, PartCount, Holding, Good, AllStored, Expired;
    OnlyAt(s, s.(objects := s.objects[id := whole], parts := s.parts - {id}), p, id, HeadsAgain(id));
  }

  lemma JobOwn(s: State, p: nat, id: nat, request: seq<PartRef>)
    requires LocalKnown(s, p) && StageIs(s, id, Completing) && Good(s, id) && Contiguous(request)
    ensures Own(s, To(WithStage(s, id, Ready).(jobs := s.jobs + {id}, made := s.made + multiset{id}), p, Locks(id, request, false)), p)
  {
    assert JobsOk(s);
    hide Local, LockOk, Own, Merge, Sizes, PartCount, Holding, Good, AllStored, Expired;
    OnlyAt(s, WithStage(s, id, Ready).(jobs := s.jobs + {id}, made := s.made + multiset{id}), p, id, Locks(id, request, false));
  }

  lemma FreezeOwn(s: State, p: nat, id: nat, request: seq<PartRef>)
    requires LocalKnown(s, p) && s.procs[p] == Validates(id, request) && id in s.parts
    ensures Own(s, CompleteStep(s, p, s.procs[p], true, true), p)
  {
    StoredIsValid(s, id, request);
    Goes(s, p, Idle);
    hide Local, LockOk, Own, Merge, Sizes, Holding, Good, Expired, ByNumber, Expected, To, AllStored;
    if AllStored(s, id, request) {
      RowOwn(s, p, id, s.rows[id].(stage := Completing, manifest := Some(request)), Locks(id, request, false));
    }
  }

  lemma HeadOwn(s: State, p: nat)
    requires LocalKnown(s, p) && (s.procs[p].Heads? || s.procs[p].HeadsAgain? || s.procs[p].Sniffs?)
    ensures Own(s, CompleteStep(s, p, s.procs[p], true, true), p)
  {
    var id := s.procs[p].id;
    assert StageIs(s, id, Completing) by {
      assert ProcOk(s, s.procs[p]);
    }
    hide LocalKnown, Own, Holding, To, RowKnown, ProcOk;
    match s.procs[p]
    case Heads(_) => Goes(s, p, if id !in s.objects then Merges(id) else AfterHead(s, s.rows[id], id));
    case HeadsAgain(_) => Goes(s, p, AfterHead(s, s.rows[id], id));
    case Sniffs(_) =>
      if id in s.objects {
        Goes(s, p, if s.objects[id].video then CreatesJob(id) else DiscardMarks(id));
      } else {
        Goes(s, p, Idle);
      }
  }

  lemma CompleteOwn(s: State, p: nat, ok: bool, video: bool)
    requires LocalKnown(s, p)
    ensures Own(s, CompleteStep(s, p, s.procs[p], ok, video), p)
  {
    StaysOwn(s, p);
    if s.procs[p].Heads? || s.procs[p].HeadsAgain? || s.procs[p].Sniffs? {
      HeadOwn(s, p);
    }
    assert ProcOk(s, s.procs[p]) && ProcKnown(s, s.procs[p]);
    assert s.procs[p].CreatesJob? ==> RowKnown(s.rows[s.procs[p].id]);
    hide LocalKnown, Own, Holding, To, Merge, Sizes, ByNumber, Expected, PartCount, AfterHead, Protected;
    match s.procs[p]
    case Locks(id, request, first) =>
      if s.lock.None? { Goes(s, p, if id !in s.rows then Idle else CompleteFrom(s, s.rows[id], id, request, first)); }
    case Validates(id, request) => if id in s.parts { FreezeOwn(s, p, id, request); } else { Goes(s, p, Idle); }
    case Merges(id) =>
      if !ok || id !in s.parts || s.rows[id].manifest == None || Merge(s.parts[id], s.rows[id].manifest.value) == None {
        Goes(s, p, Idle);
      } else {
        MergeOwn(s, p, id, Object(Sizes(Merge(s.parts[id], s.rows[id].manifest.value).value), video, s.now));
      }
    case CreatesJob(id) => JobOwn(s, p, id, s.rows[id].manifest.value);
    case Enqueues(id) => Goes(s, p, if ok then Completes(id) else Idle);
    case Completes(id) => CompletedOwn(s, p, id);
    case _ =>
  }

  // --- Over every run -------------------------------------------------------

  lemma OtherKnown(s: State, t: State, p: nat, proc: Proc)
    requires ProcKnown(s, proc) && (Holding(proc) ==> s.lock.Some? && s.lock != Some(p))
    requires LocklessFrame(s, t, p) && s.now <= t.now
    ensures ProcKnown(t, proc)
  {
    if proc.Merges? || proc.DiscardMarks? {
      assert proc.id in s.rows && (s.rows[proc.id].stage.Completing? ==> proc.id in ReservedIds(s.rows));
    }
  }

  lemma StepKnown(s: State, p: nat, ok: bool, video: bool, pick: nat)
    requires Inv(s) && Known(s) && p in s.procs
    ensures Own(s, ProcStep(s, p, ok, video, pick), p)
  {
    assert LocalKnown(s, p);
    hide Own, LocalKnown, Inv, StartStep, CompleteStep, DiscardStep, CleanStep, DeleteStep;
    StartOwn(s, p);
    CompleteOwn(s, p, ok, video);
    DiscardOwn(s, p);
    CleanOwn(s, p);
    DeleteOwn(s, p, pick);
  }

  lemma StepMoves(s: State, p: nat, ok: bool, video: bool, pick: nat)
    requires Inv(s) && Known(s) && p in s.procs
    ensures var t := ProcStep(s, p, ok, video, pick); Known(t) && Moved(s, t)
  {
    var t := ProcStep(s, p, ok, video, pick);
    StepKnown(s, p, ok, video, pick);
    StepKeepsInv(s, p, ok, video, pick);
    assert LockOk(s);
    hide Inv, RowKnown, Moved, ProcStep, ProcKnown, LocklessFrame;
    forall q | q in t.procs ensures ProcKnown(t, t.procs[q]) {
      if q != p {
        OtherKnown(s, t, p, s.procs[q]);
      }
    }
  }

  lemma OutsideMoves(s: State, t: State)
    requires Known(s) && t == s.(procs := t.procs, lock := t.lock, parts := t.parts, now := t.now)
    requires t.parts.Keys == s.parts.Keys
    ensures Moved(s, t)
  {
  }

  lemma CrashMoves(s: State, p: nat)
    requires Known(s) && p in s.procs
    ensures Known(To(s, p, Idle)) && Moved(s, To(s, p, Idle))
  {
    var t := To(s, p, Idle);
    OutsideMoves(s, t);
    ToLocks(s, p, Idle);
    hide Holding, LockKnown, Moved, RowKnown;
    forall q | q in t.procs ensures ProcKnown(t, t.procs[q]) {
      ToKnows(s, p, t.procs[q]);
      assert q == p || t.procs[q] == s.procs[q];
    }
  }

  lemma RequestKnown(t: State, proc: Proc)
    requires IsRequest(proc)
    ensures ProcKnown(t, proc) && !Holding(proc)
  {
  }

  lemma RequestMoves(s: State, p: nat, proc: Proc)
    requires Known(s) && IsRequest(proc) && (p in s.procs ==> s.procs[p].Idle?)
    ensures var t := s.(procs := s.procs[p := proc]); Known(t) && Moved(s, t)
  {
    var t := s.(procs := s.procs[p := proc]);
    OutsideMoves(s, t);
    assert p in s.procs ==> !Holding(s.procs[p]);
    RequestKnown(t, proc);
    hide Holding, Moved, RowKnown, IsRequest;
    forall q | q in t.procs ensures ProcKnown(t, t.procs[q]) {
      assert q == p || t.procs[q] == s.procs[q];
    }
  }

  lemma StoreMoves(s: State, t: State)
    requires Known(s) && t == s.(parts := t.parts, now := t.now) && t.parts.Keys == s.parts.Keys && s.now <= t.now
    ensures Known(t) && Moved(s, t)
  {
    OutsideMoves(s, t);
    hide Holding, Moved, RowKnown;
  }

  lemma DoMoves(s: State, e: Event)
    requires Inv(s) && Known(s)
    ensures Known(Do(s, e)) && Moved(s, Do(s, e))
  {
    hide Known, Inv, Moved, ProcStep;
    match e
    case Step(p, ok, video, pick) => if p in s.procs { StepMoves(s, p, ok, video, pick); } else { OutsideMoves(s, s); }
    case Crash(p) => if p in s.procs { CrashMoves(s, p); } else { OutsideMoves(s, s); }
    case Request(p, proc) => if Do(s, e) == s { OutsideMoves(s, s); } else { RequestMoves(s, p, proc); }
    case _ => StoreMoves(s, Do(s, e));
  }

  lemma {:induction false} RunKnown(s: State, events: seq<Event>)
    requires Inv(s) && Known(s)
    ensures Inv(Run(s, events)) && Known(Run(s, events))
    decreases |events|
  {
    if events != [] {
      hide Inv, Known, Do, Moved, History;
      DoKeepsInv(s, events[0]);
      DoMoves(s, events[0]);
      RunKnown(Do(s, events[0]), events[1..]);
    }
  }

  lemma Reachable(events: seq<Event>)
    ensures Inv(Run(Empty, events)) && Known(Run(Empty, events))
  {
    EmptyInv();
    hide Inv;
    RunKnown(Empty, events);
  }

  /** In any run, whatever comes next: no session's row, parts or object changes in any
      other way than these. */
  lemma EveryStepIsAMove(events: seq<Event>, e: Event)
    ensures Moved(Run(Empty, events), Do(Run(Empty, events), e))
  {
    Reachable(events);
    DoMoves(Run(Empty, events), e);
  }

  /** A session leaves `open` for `completing` only in a step that finds exactly the
      manifest's parts in storage. They then make up the declared file. */
  lemma FrozenIsStored(events: seq<Event>, e: Event, id: nat)
    requires var s := Run(Empty, events);
             StageIs(s, id, Open) && StageIs(Do(s, e), id, Completing)
    ensures var s, t := Run(Empty, events), Do(Run(Empty, events), e);
            && t.rows[id].manifest.Some?
            && var manifest := t.rows[id].manifest.value;
               && AllStored(s, id, manifest) && s.rows[id].initiated
               && t.rows[id] == s.rows[id].(stage := Completing, manifest := Some(manifest))
               && Merge(s.parts[id], manifest).Some? && Sizes(Merge(s.parts[id], manifest).value) == s.rows[id].size
  {
    var s, t := Run(Empty, events), Do(Run(Empty, events), e);
    EveryStepIsAMove(events, e);
    assert RowMove(s, t, id);
    MergedIsWhole(s, id, t.rows[id].manifest.value);
  }

  /** Under the lock a request freezes its manifest exactly when its parts are all
      there, and otherwise leaves every table as it was. */
  lemma FreezesIff(events: seq<Event>, p: nat, ok: bool, video: bool, pick: nat)
    requires var s := Run(Empty, events); p in s.procs && s.procs[p].Validates?
    ensures var s := Run(Empty, events);
            var id, request := s.procs[p].id, s.procs[p].request;
            var t := Do(s, Step(p, ok, video, pick));
            && id in s.rows
            && t == s.(rows := t.rows, procs := t.procs, lock := None)
            && t.rows == (if AllStored(s, id, request)
                          then s.rows[id := s.rows[id].(stage := Completing, manifest := Some(request))] else s.rows)
            && t.procs == s.procs[p := if AllStored(s, id, request) then Locks(id, request, false) else Idle]
  {
    Reachable(events);
    var s := Run(Empty, events);
    assert ProcOk(s, s.procs[p]) && ProcKnown(s, s.procs[p]) && LockOk(s) && Holding(s.procs[p]);
    var id, request := s.procs[p].id, s.procs[p].request;
    assert RowKnown(s.rows[id]);
    if id in s.parts {
      StoredIsValid(s, id, request);
    }
    hide Inv, Known, AllStored, ByNumber, Expected, PartCount;
  }
}
