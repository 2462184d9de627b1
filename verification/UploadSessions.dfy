/** One owner's resumable upload sessions (app/api/multipart_uploads.py,
    app/repositories/uploads.py, app/services/upload_cleanup.py) with the orphan sweep
    (app/worker/reaper.py) beside them.

    Each step of a process is what happens between two awaits: taking the owner's row
    lock and reading the row, one storage call, or one commit. A commit releases the
    lock. A process can crash, or its call can fail, between any two steps; what it had
    not committed is gone and its lock is free, but storage keeps what it was told. */
module UploadSessions {
  import opened Prelude
  import opened UploadParts

  const MAX_OPEN_UPLOADS := 5

  datatype Stage = Open | Completing | Ready | Completed | Aborting | Aborted

  datatype Row = Row(stage: Stage, size: nat, partSize: nat, initiated: bool, manifest: Option<seq<PartRef>>, expires: int)

  /** A merged object: its size, whether its bytes are a recognised video, and when it was stored. */
  datatype Object = Object(size: int, video: bool, at: int)

  datatype Proc =
    | Idle
    // start
    | StartLocks(id: nat, size: nat, partSize: nat)
    | StartInserts(id: nat, size: nat, partSize: nat)
    | StartRelocks(id: nat)
    | StartInitiates(id: nat)
    | StartCommits(id: nat)
    // complete
    | Locks(id: nat, request: seq<PartRef>, first: bool)
    | Validates(id: nat, request: seq<PartRef>)
    | Heads(id: nat)
    | Merges(id: nat)
    | HeadsAgain(id: nat)
    | Sniffs(id: nat)
    | CreatesJob(id: nat)
    | Enqueues(id: nat)
    | Completes(id: nat)
    // discard, from complete or abort
    | AbortLocks(id: nat)
    | DiscardMarks(id: nat)
    | DiscardRelocks(id: nat)
    | DiscardsParts(id: nat)
    | DiscardsObject(id: nat)
    | DiscardCommits(id: nat)
    // the expiry cleanup, which keeps its lock over storage
    | CleanLocks(id: nat)
    | CleansParts(id: nat)
    | CleansObject(id: nat)
    | CleanCommits(id: nat)
    // deleting a job: its row first, then its object
    | DeletesJob(id: nat)
    | DeletesSource(id: nat)
    // the orphan sweep: the protected keys at one moment, then the listing, then the deletes
    | SweepReads(before: int)
    | SweepLists(keys: set<nat>, read: int, before: int)
    | SweepDeletes(orphans: set<nat>)

  datatype State = State(
    rows: map<nat, Row>,
    lock: Option<nat>,
    procs: map<nat, Proc>,
    jobs: set<nat>,
    made: multiset<nat>,
    parts: map<nat, seq<StoredPart>>,
    objects: map<nat, Object>,
    now: int)

  datatype Event =
    | Request(p: nat, proc: Proc)
    | Step(p: nat, ok: bool, video: bool, pick: nat)
    | Crash(p: nat)
    | PutPart(id: nat, part: StoredPart)
    | Tick(d: nat)

  const Empty := State(map[], None, map[], {}, multiset{}, map[], map[], 0)

  predicate Reserved(stage: Stage) { stage.Open? || stage.Completing? || stage.Aborting? }

  /** A request starts without the lock, and the schema has checked it. */
  predicate IsRequest(proc: Proc) {
    || (proc.StartLocks? && proc.partSize > 0) || (proc.Locks? && proc.first && Contiguous(proc.request)) || proc.AbortLocks?
    || proc.CleanLocks? || proc.DeletesJob? || proc.SweepReads?
  }

  predicate Holding(proc: Proc) {
    match proc
    case StartInserts(_, _, _) => true case StartInitiates(_) => true case StartCommits(_) => true
    case Validates(_, _) => true case Heads(_) => true case Merges(_) => true case HeadsAgain(_) => true
    case Sniffs(_) => true case CreatesJob(_) => true case Enqueues(_) => true case Completes(_) => true
    case DiscardMarks(_) => true case DiscardsParts(_) => true case DiscardsObject(_) => true case DiscardCommits(_) => true
    case CleansParts(_) => true case CleansObject(_) => true case CleanCommits(_) => true
    case _ => false
  }

  function To(s: State, p: nat, proc: Proc): State {
    s.(procs := s.procs[p := proc],
       lock := if Holding(proc) then Some(p) else if s.lock == Some(p) then None else s.lock)
  }

  function WithStage(s: State, id: nat, stage: Stage): State
    requires id in s.rows
  {
    s.(rows := s.rows[id := s.rows[id].(stage := stage)])
  }

  /** `upload_id`s that still hold one of the owner's slots. */
  function ReservedIds(rows: map<nat, Row>): set<nat> {
    set id | id in rows && Reserved(rows[id].stage)
  }

  /** `list_source_keys`, of this owner's keys: jobs' and reserved sessions'. */
  function Protected(s: State): set<nat> {
    s.jobs + ReservedIds(s.rows)
  }

  /** Where `complete` goes once it has locked and read the row. */
  function CompleteFrom(s: State, row: Row, id: nat, request: seq<PartRef>, first: bool): Proc {
    match row.stage
    case Open => if first && s.now < row.expires && row.initiated then Validates(id, request) else Idle
    case Completing => if row.manifest == Some(request) then Heads(id) else Idle
    case Ready => Enqueues(id)
    case _ => Idle
  }

  function AbortFrom(row: Row, id: nat): Proc {
    if row.stage.Open? || row.stage.Aborting? then DiscardMarks(id) else Idle
  }

  function CleanFrom(s: State, row: Row, id: nat): Proc {
    if Reserved(row.stage) && row.expires <= s.now then CleansParts(id) else Idle
  }

  /** What a look at the merged object leads to. */
  function AfterHead(s: State, row: Row, id: nat): Proc {
    if id !in s.objects then Idle else if s.objects[id].size != row.size then DiscardMarks(id) else Sniffs(id)
  }

  function Sizes(parts: seq<StoredPart>): int {
    if parts == [] then 0 else parts[0].size + Sizes(parts[1..])
  }

  /** Putting a part again replaces it. */
  function Without(parts: seq<StoredPart>, n: nat): seq<StoredPart> {
    if parts == [] then []
    else if parts[0].n == n then Without(parts[1..], n) else [parts[0]] + Without(parts[1..], n)
  }

  function Find(parts: seq<StoredPart>, r: PartRef): seq<StoredPart> {
    if parts == [] then []
    else if parts[0].n == r.n && parts[0].etag == r.etag then [parts[0]] else Find(parts[1..], r)
  }

  /** Storage's own merge: every named part must be there, under its ETag. */
  function Merge(parts: seq<StoredPart>, manifest: seq<PartRef>): Option<seq<StoredPart>> {
    if manifest == [] then Some([])
    else
      var head, rest := Find(parts, manifest[0]), Merge(parts, manifest[1..]);
      if head == [] || rest == None then None else Some(head + rest.value)
  }

  function StartStep(s: State, p: nat, proc: Proc): State {
    match proc
    case StartLocks(id, size, partSize) =>
      if s.lock.Some? then s else To(s, p, StartInserts(id, size, partSize))
    case StartInserts(id, size, partSize) =>
      // The count and the insert are one transaction; ids are fresh UUIDs.
      if id in s.rows || |ReservedIds(s.rows)| >= MAX_OPEN_UPLOADS then To(s, p, Idle)
      else To(s.(rows := s.rows[id := Row(Open, size, partSize, false, None, s.now + 86400)]), p, StartRelocks(id))
    case StartRelocks(id) => if s.lock.Some? || id !in s.rows then s else To(s, p, StartInitiates(id))
    case StartInitiates(id) => To(s.(parts := s.parts[id := []]), p, StartCommits(id))
    case StartCommits(id) =>
      if id !in s.rows then s
      else To(s.(rows := s.rows[id := s.rows[id].(initiated := true)]), p, Idle)
    case _ => s
  }

  function CompleteStep(s: State, p: nat, proc: Proc, ok: bool, video: bool): State {
    match proc
    case Locks(id, request, first) =>
      if s.lock.Some? then s
      else if id !in s.rows then To(s, p, Idle)
      else To(s, p, CompleteFrom(s, s.rows[id], id, request, first))
    case Validates(id, request) =>
      if id !in s.rows || id !in s.parts || s.rows[id].partSize == 0 then To(s, p, Idle)
      else
        var row := s.rows[id];
        if |request| == PartCount(row.size, row.partSize) && ByNumber(s.parts[id]) == Expected(request, row.size, row.partSize)
        then To(s.(rows := s.rows[id := row.(stage := Completing, manifest := Some(request))]), p, Locks(id, request, false))
        else To(s, p, Idle)
    case Heads(id) =>
      if id !in s.rows then s
      else if id !in s.objects then To(s, p, Merges(id)) else To(s, p, AfterHead(s, s.rows[id], id))
    case Merges(id) =>
      if !ok || id !in s.rows || id !in s.parts || s.rows[id].manifest == None
         || Merge(s.parts[id], s.rows[id].manifest.value) == None then To(s, p, Idle)
      else
        var merged := Merge(s.parts[id], s.rows[id].manifest.value).value;
        To(s.(objects := s.objects[id := Object(Sizes(merged), video, s.now)], parts := s.parts - {id}), p, HeadsAgain(id))
    case HeadsAgain(id) => if id !in s.rows then s else To(s, p, AfterHead(s, s.rows[id], id))
    case Sniffs(id) =>
      if id !in s.objects then To(s, p, Idle)
      else To(s, p, if s.objects[id].video then CreatesJob(id) else DiscardMarks(id))
    case CreatesJob(id) =>
      if id !in s.rows then s
      else
        // One commit adds the job and makes the session ready; then the row is locked again.
        var request := if s.rows[id].manifest.Some? then s.rows[id].manifest.value else [];
        To(WithStage(s, id, Ready).(jobs := s.jobs + {id}, made := s.made + multiset{id}), p, Locks(id, request, false))
    case Enqueues(id) => To(s, p, if ok then Completes(id) else Idle)
    case Completes(id) => if id !in s.rows then s else To(WithStage(s, id, Completed), p, Idle)
    case _ => s
  }

  function DiscardStep(s: State, p: nat, proc: Proc): State {
    match proc
    case AbortLocks(id) =>
      if s.lock.Some? then s
      else if id !in s.rows then To(s, p, Idle)
      else To(s, p, AbortFrom(s.rows[id], id))
    case DiscardMarks(id) => if id !in s.rows then s else To(WithStage(s, id, Aborting), p, DiscardRelocks(id))
    case DiscardRelocks(id) => if s.lock.Some? then s else To(s, p, DiscardsParts(id))
    case DiscardsParts(id) => To(s.(parts := s.parts - {id}), p, DiscardsObject(id))
    case DiscardsObject(id) => To(s.(objects := s.objects - {id}), p, DiscardCommits(id))
    case DiscardCommits(id) => if id !in s.rows then s else To(WithStage(s, id, Aborted), p, Idle)
    case _ => s
  }

  function CleanStep(s: State, p: nat, proc: Proc): State {
    match proc
    case CleanLocks(id) =>
      if s.lock.Some? then s
      else if id !in s.rows then To(s, p, Idle)
      else To(s, p, CleanFrom(s, s.rows[id], id))
    case CleansParts(id) => To(s.(parts := s.parts - {id}), p, CleansObject(id))
    case CleansObject(id) => To(s.(objects := s.objects - {id}), p, CleanCommits(id))
    case CleanCommits(id) => if id !in s.rows then s else To(WithStage(s, id, Aborted), p, Idle)
    case _ => s
  }

  function DeleteStep(s: State, p: nat, proc: Proc, pick: nat): State {
    match proc
    case DeletesJob(id) =>
      if id !in s.jobs then To(s, p, Idle) else To(s.(jobs := s.jobs - {id}), p, DeletesSource(id))
    case DeletesSource(id) => To(s.(objects := s.objects - {id}), p, Idle)
    case SweepReads(before) => To(s, p, SweepLists(Protected(s), s.now, if before < s.now then before else s.now))
    case SweepLists(keys, read, before) =>
      To(s, p, SweepDeletes(set id | id in s.objects && id !in keys && s.objects[id].at < before))
    case SweepDeletes(orphans) =>
      if pick !in orphans then To(s, p, Idle)
      else To(s.(objects := s.objects - {pick}), p, SweepDeletes(orphans - {pick}))
    case _ => s
  }

  function ProcStep(s: State, p: nat, ok: bool, video: bool, pick: nat): State
    requires p in s.procs
  {
    var proc := s.procs[p];
    if proc.StartLocks? || proc.StartInserts? || proc.StartRelocks? || proc.StartInitiates? || proc.StartCommits?
    then StartStep(s, p, proc)
    else if proc.AbortLocks? || proc.DiscardMarks? || proc.DiscardRelocks? || proc.DiscardsParts?
            || proc.DiscardsObject? || proc.DiscardCommits?
    then DiscardStep(s, p, proc)
    else if proc.CleanLocks? || proc.CleansParts? || proc.CleansObject? || proc.CleanCommits?
    then CleanStep(s, p, proc)
    else if proc.DeletesJob? || proc.DeletesSource? || proc.SweepReads? || proc.SweepLists? || proc.SweepDeletes?
    then DeleteStep(s, p, proc, pick)
    else CompleteStep(s, p, proc, ok, video)
  }

  function Do(s: State, e: Event): State {
    match e
    case Request(p, proc) =>
      if IsRequest(proc) && (p in s.procs ==> s.procs[p].Idle?) then s.(procs := s.procs[p := proc]) else s
    case Step(p, ok, video, pick) => if p in s.procs then ProcStep(s, p, ok, video, pick) else s
    case Crash(p) => if p in s.procs then To(s, p, Idle) else s
    case PutPart(id, part) =>
      if id in s.parts then s.(parts := s.parts[id := Without(s.parts[id], part.n) + [part]]) else s
    case Tick(d) => s.(now := s.now + d)
  }

  function Run(s: State, events: seq<Event>): State
    decreases |events|
  {
    if events == [] then s else Run(Do(s, events[0]), events[1..])
  }

  // --- The invariant --------------------------------------------------------

  predicate Made(stage: Stage) { stage.Ready? || stage.Completed? }

  predicate Ending(stage: Stage) { stage.Aborting? || stage.Aborted? }

  /** What may follow what: a session that has made its job is never cancelled. */
  predicate Later(a: Stage, b: Stage) {
    match a
    case Open => true
    case Completing => !b.Open?
    case Ready => Made(b)
    case Completed => b.Completed?
    case Aborting => Ending(b)
    case Aborted => b.Aborted?
  }

  ghost predicate StageIs(s: State, id: nat, stage: Stage) {
    id in s.rows && s.rows[id].stage == stage
  }

  ghost predicate Merged(s: State, id: nat) {
    id in s.rows && id in s.objects && s.objects[id].size == s.rows[id].size
  }

  /** What a process knows of its session; where it holds no lock, only what no other can undo. */
  ghost predicate ProcOk(s: State, proc: Proc) {
    match proc
    case StartRelocks(id) => id in s.rows
    case StartInitiates(id) => id in s.rows
    case StartCommits(id) => id in s.rows
    case Validates(id, _) => StageIs(s, id, Open)
    case Heads(id) => StageIs(s, id, Completing)
    case Merges(id) => StageIs(s, id, Completing)
    case HeadsAgain(id) => StageIs(s, id, Completing)
    case Sniffs(id) => StageIs(s, id, Completing) && Merged(s, id)
    case CreatesJob(id) => StageIs(s, id, Completing) && Merged(s, id) && s.objects[id].video
    case Enqueues(id) => StageIs(s, id, Ready)
    case Completes(id) => StageIs(s, id, Ready)
    case DiscardMarks(id) => id in s.rows && Reserved(s.rows[id].stage)
    case DiscardRelocks(id) => id in s.rows && Ending(s.rows[id].stage)
    case DiscardsParts(id) => id in s.rows && Ending(s.rows[id].stage)
    case DiscardsObject(id) => id in s.rows && Ending(s.rows[id].stage)
    case DiscardCommits(id) => id in s.rows && Ending(s.rows[id].stage)
    case CleansParts(id) => id in s.rows && Reserved(s.rows[id].stage)
    case CleansObject(id) => id in s.rows && Reserved(s.rows[id].stage)
    case CleanCommits(id) => id in s.rows && Reserved(s.rows[id].stage)
    case DeletesSource(id) => id in s.rows && Made(s.rows[id].stage) && id !in s.jobs
    case SweepLists(keys, read, before) =>
      before <= read <= s.now
      && forall id :: id in Protected(s) && id !in keys && id in s.objects ==> read <= s.objects[id].at
    case SweepDeletes(orphans) => forall id :: id in orphans ==> id in s.rows && id !in Protected(s)
    case _ => true
  }

  ghost predicate LockOk(s: State) {
    forall p :: p in s.procs && Holding(s.procs[p]) ==> s.lock == Some(p)
  }

  ghost predicate JobsOk(s: State) {
    forall id :: id in s.jobs ==> id in s.rows && Made(s.rows[id].stage) && Merged(s, id) && s.objects[id].video
  }

  ghost predicate MadeOk(s: State) {
    && (forall id :: id in s.rows ==> s.made[id] == if Made(s.rows[id].stage) then 1 else 0)
    && (forall id :: id !in s.rows ==> s.made[id] == 0)
  }

  ghost predicate ObjectsOk(s: State) {
    forall id :: id in s.objects ==> id in s.rows && s.objects[id].at <= s.now
  }

  ghost predicate Global(s: State) {
    JobsOk(s) && MadeOk(s) && ObjectsOk(s) && |ReservedIds(s.rows)| <= MAX_OPEN_UPLOADS
  }

  ghost predicate Inv(s: State) {
    && Global(s) && LockOk(s)
    && forall p :: p in s.procs ==> ProcOk(s, s.procs[p])
  }

  // --- What a step leaves alone ---------------------------------------------

  ghost predicate RowsEvolve(s: State, t: State) {
    forall id :: id in s.rows ==>
      && id in t.rows && Later(s.rows[id].stage, t.rows[id].stage)
      && t.rows[id].size == s.rows[id].size
      && (!s.rows[id].stage.Open? ==> t.rows[id].manifest == s.rows[id].manifest)
  }

  ghost predicate StorageEvolves(s: State, t: State) {
    && (forall id :: id in t.jobs ==> id in s.jobs || StageIs(s, id, Completing))
    && (forall id :: id in t.objects ==> id in s.rows && ((id in s.objects && t.objects[id] == s.objects[id]) || t.objects[id].at == s.now))
    && (forall id :: id in s.jobs && id in t.jobs && id in s.objects ==> id in t.objects && t.objects[id] == s.objects[id])
    && s.now <= t.now
  }

  /** A step by `p` without the lock changes no row and touches no protected object. */
  ghost predicate LocklessFrame(s: State, t: State, p: nat) {
    s.lock != Some(p) ==>
      t.rows == s.rows
      && forall id :: id in ReservedIds(s.rows) ==>
           (id in t.objects <==> id in s.objects) && (id in s.objects ==> t.objects[id] == s.objects[id])
  }

  ghost predicate Frame(s: State, t: State, p: nat) {
    && RowsEvolve(s, t) && StorageEvolves(s, t) && LocklessFrame(s, t, p)
    && (forall q :: q in t.procs && q != p ==> q in s.procs && t.procs[q] == s.procs[q])
    && (s.lock.Some? && s.lock != Some(p) ==> t.lock == s.lock)
  }

  /** Once a key is unprotected it stays so: the job takes over its session's protection in one commit. */
  lemma UnprotectedStays(s: State, t: State, id: nat)
    requires JobsOk(s) && RowsEvolve(s, t) && StorageEvolves(s, t) && id in s.rows && id !in Protected(s)
    ensures id in t.rows && id !in Protected(t)
  {
  }

  /** What a process with the lock knows stays true: nobody else changes its rows. */
  lemma OtherHolder(s: State, t: State, p: nat, proc: Proc)
    requires ProcOk(s, proc) && LocklessFrame(s, t, p) && s.lock != Some(p) && Holding(proc)
    ensures ProcOk(t, proc)
  {
    assert proc.Sniffs? || proc.CreatesJob? ==> proc.id in ReservedIds(s.rows);
  }

  lemma OtherLister(s: State, t: State, proc: Proc)
    requires JobsOk(s) && ObjectsOk(s) && RowsEvolve(s, t) && StorageEvolves(s, t) && ProcOk(s, proc) && proc.SweepLists?
    ensures ProcOk(t, proc)
  {
    forall id | id in Protected(t) && id !in proc.keys && id in t.objects ensures proc.read <= t.objects[id].at {
      if id in s.rows && id !in Protected(s) {
        UnprotectedStays(s, t, id);
      }
    }
  }

  lemma OtherSweeper(s: State, t: State, proc: Proc)
    requires JobsOk(s) && RowsEvolve(s, t) && StorageEvolves(s, t) && ProcOk(s, proc) && proc.SweepDeletes?
    ensures ProcOk(t, proc)
  {
    forall id | id in proc.orphans ensures id in t.rows && id !in Protected(t) {
      UnprotectedStays(s, t, id);
    }
  }

  lemma OtherWaiter(s: State, t: State, proc: Proc)
    requires RowsEvolve(s, t) && StorageEvolves(s, t) && ProcOk(s, proc)
    requires !Holding(proc) && !proc.SweepLists? && !proc.SweepDeletes?
    ensures ProcOk(t, proc)
  {
  }

  lemma OtherOk(s: State, t: State, p: nat, q: nat)
    requires Inv(s) && Frame(s, t, p) && q in t.procs && q != p
    ensures ProcOk(t, t.procs[q])
  {
    assert ProcOk(s, s.procs[q]);
    hide ProcOk, RowsEvolve, StorageEvolves, LocklessFrame, JobsOk, ObjectsOk, MadeOk, ReservedIds;
    var proc := s.procs[q];
    if Holding(proc) {
      assert s.lock == Some(q);
      OtherHolder(s, t, p, proc);
    } else if proc.SweepLists? {
      OtherLister(s, t, proc);
    } else if proc.SweepDeletes? {
      OtherSweeper(s, t, proc);
    } else {
      OtherWaiter(s, t, proc);
    }
  }

  // --- Every step keeps the invariant ---------------------------------------

  ghost predicate Kept(s: State, t: State, p: nat) {
    && Frame(s, t, p) && Global(t)
    && p in t.procs && ProcOk(t, t.procs[p]) && (Holding(t.procs[p]) ==> t.lock == Some(p))
  }

  /** What a step does to the tables and to storage, before the process moves on. */
  ghost predicate Effect(s: State, u: State, p: nat) {
    && RowsEvolve(s, u) && StorageEvolves(s, u) && LocklessFrame(s, u, p) && Global(u)
    && u.procs == s.procs && u.lock == s.lock
  }

  lemma MovedProcOk(u: State, p: nat, proc: Proc)
    requires ProcOk(u, proc)
    ensures ProcOk(To(u, p, proc), proc)
  {
  }

  lemma MovedGlobal(u: State, p: nat, proc: Proc)
    requires Global(u)
    ensures Global(To(u, p, proc))
  {
    hide Holding;
  }

  lemma MovedFrame(s: State, u: State, p: nat, proc: Proc)
    requires RowsEvolve(s, u) && StorageEvolves(s, u) && LocklessFrame(s, u, p) && u.procs == s.procs && u.lock == s.lock
    requires Holding(proc) ==> s.lock == None || s.lock == Some(p)
    ensures Frame(s, To(u, p, proc), p)
  {
    hide Holding, RowsEvolve, StorageEvolves, LocklessFrame;
    var t := To(u, p, proc);
    assert t == u.(procs := t.procs, lock := t.lock);
    FrameOfTables(s, u, t, p);
  }

  lemma FrameOfTables(s: State, u: State, t: State, p: nat)
    requires t == u.(procs := t.procs, lock := t.lock)
    requires RowsEvolve(s, u) && StorageEvolves(s, u) && LocklessFrame(s, u, p)
    ensures RowsEvolve(s, t) && StorageEvolves(s, t) && LocklessFrame(s, t, p)
  {
  }

  lemma Moves(s: State, u: State, p: nat, proc: Proc)
    requires Effect(s, u, p) && ProcOk(u, proc)
    requires Holding(proc) ==> s.lock == None || s.lock == Some(p)
    ensures Kept(s, To(u, p, proc), p)
  {
    hide ProcOk, Global, Frame, RowsEvolve, StorageEvolves, LocklessFrame;
    MovedProcOk(u, p, proc);
    MovedGlobal(u, p, proc);
    MovedFrame(s, u, p, proc);
  }

  /** What a process's own step may rely on. */
  ghost predicate Local(s: State, p: nat) {
    Global(s) && p in s.procs && ProcOk(s, s.procs[p]) && (Holding(s.procs[p]) ==> s.lock == Some(p))
  }

  lemma Stays(s: State, p: nat)
    requires Local(s, p)
    ensures Kept(s, s, p)
  {
  }

  lemma NoEffect(s: State, p: nat)
    requires Global(s)
    ensures Effect(s, s, p)
  {
  }

  lemma StageEffect(s: State, p: nat, id: nat, stage: Stage)
    requires Global(s) && s.lock == Some(p) && id in s.rows
    requires Later(s.rows[id].stage, stage) && Made(stage) == Made(s.rows[id].stage)
    requires Reserved(stage) ==> Reserved(s.rows[id].stage)
    ensures Effect(s, WithStage(s, id, stage), p)
  {
    Smaller(ReservedIds(WithStage(s, id, stage).rows), ReservedIds(s.rows));
  }

  lemma PartsEffect(s: State, p: nat, parts: map<nat, seq<StoredPart>>)
    requires Global(s)
    ensures Effect(s, s.(parts := parts), p)
  {
  }

  /** An object may go when no job's row is there, and it is not another session's. */
  lemma RemoveEffect(s: State, p: nat, id: nat)
    requires Global(s) && id !in s.jobs && (s.lock == Some(p) || id !in ReservedIds(s.rows))
    ensures Effect(s, s.(objects := s.objects - {id}), p)
  {
  }

  lemma {:induction false} Smaller<T>(a: set<T>, b: set<T>)
    requires a <= b
    ensures |a| <= |b|
  {
    if a != {} {
      var x :| x in a;
      Smaller(a - {x}, b - {x});
    }
  }

  lemma InsertGlobal(s: State, id: nat, row: Row)
    requires Global(s) && id !in s.rows && row.stage.Open? && |ReservedIds(s.rows)| < MAX_OPEN_UPLOADS
    ensures Global(s.(rows := s.rows[id := row]))
  {
    assert ReservedIds(s.rows[id := row]) == ReservedIds(s.rows) + {id};
  }

  lemma InsertEffect(s: State, p: nat, id: nat, row: Row)
    requires Global(s) && s.lock == Some(p) && id !in s.rows && row.stage.Open? && |ReservedIds(s.rows)| < MAX_OPEN_UPLOADS
    ensures Effect(s, s.(rows := s.rows[id := row]), p)
  {
    InsertGlobal(s, id, row);
    assert ObjectsOk(s);
    hide Global, MadeOk, ReservedIds;
  }

  lemma NoJobYet(s: State, id: nat)
    requires Global(s) && id in s.rows && !Made(s.rows[id].stage)
    ensures id !in s.jobs
  {
  }

  lemma RemoveKept(s: State, p: nat, id: nat, proc: Proc)
    requires Global(s) && id !in s.jobs && (s.lock == Some(p) || id !in ReservedIds(s.rows))
    requires ProcOk(s.(objects := s.objects - {id}), proc) && (Holding(proc) ==> s.lock == Some(p))
    ensures Kept(s, To(s.(objects := s.objects - {id}), p, proc), p)
  {
    RemoveEffect(s, p, id);
    hide Global, Effect, ProcOk, Kept;
    Moves(s, s.(objects := s.objects - {id}), p, proc);
  }

  lemma PartsKept(s: State, p: nat, parts: map<nat, seq<StoredPart>>, proc: Proc)
    requires Global(s) && s.lock == Some(p) && ProcOk(s.(parts := parts), proc)
    ensures Kept(s, To(s.(parts := parts), p, proc), p)
  {
    PartsEffect(s, p, parts);
    hide Global, Effect, ProcOk, Kept;
    Moves(s, s.(parts := parts), p, proc);
  }

  lemma StageKept(s: State, p: nat, id: nat, stage: Stage, proc: Proc)
    requires Global(s) && s.lock == Some(p) && id in s.rows
    requires Later(s.rows[id].stage, stage) && Made(stage) == Made(s.rows[id].stage)
    requires Reserved(stage) ==> Reserved(s.rows[id].stage)
    requires ProcOk(WithStage(s, id, stage), proc)
    ensures Kept(s, To(WithStage(s, id, stage), p, proc), p)
  {
    StageEffect(s, p, id, stage);
    hide Global, Effect, ProcOk, Kept;
    Moves(s, WithStage(s, id, stage), p, proc);
  }

  lemma MovesOn(s: State, p: nat, proc: Proc)
    requires Global(s) && ProcOk(s, proc) && (Holding(proc) ==> s.lock == None || s.lock == Some(p))
    ensures Kept(s, To(s, p, proc), p)
  {
    NoEffect(s, p);
    hide Global, Effect, ProcOk, Kept;
    Moves(s, s, p, proc);
  }

  lemma InitiatedEffect(s: State, p: nat, id: nat)
    requires Global(s) && s.lock == Some(p) && id in s.rows
    ensures Effect(s, s.(rows := s.rows[id := s.rows[id].(initiated := true)]), p)
  {
    assert ReservedIds(s.rows[id := s.rows[id].(initiated := true)]) == ReservedIds(s.rows);
  }

  lemma FreezeEffect(s: State, p: nat, id: nat, request: seq<PartRef>)
    requires Global(s) && s.lock == Some(p) && StageIs(s, id, Open)
    ensures Effect(s, s.(rows := s.rows[id := s.rows[id].(stage := Completing, manifest := Some(request))]), p)
  {
    assert ReservedIds(s.rows[id := s.rows[id].(stage := Completing, manifest := Some(request))]) == ReservedIds(s.rows);
  }

  lemma MergeEffect(s: State, p: nat, id: nat, merged: Object)
    requires Global(s) && s.lock == Some(p) && StageIs(s, id, Completing) && merged.at == s.now
    ensures Effect(s, s.(objects := s.objects[id := merged], parts := s.parts - {id}), p)
  {
  }

  lemma JobEffect(s: State, p: nat, id: nat)
    requires Global(s) && s.lock == Some(p) && StageIs(s, id, Completing) && Merged(s, id) && s.objects[id].video
    ensures Effect(s, WithStage(s, id, Ready).(jobs := s.jobs + {id}, made := s.made + multiset{id}), p)
  {
    Smaller(ReservedIds(WithStage(s, id, Ready).rows), ReservedIds(s.rows));
  }

  lemma StartKept(s: State, p: nat)
    requires Local(s, p)
    ensures Kept(s, StartStep(s, p, s.procs[p]), p)
  {
    assert Kept(s, s, p) by {
      hide *;
      Stays(s, p);
    }
    hide Kept, Effect, Global;
    var proc := s.procs[p];
    assert ProcOk(s, proc);
    match proc
    case StartLocks(id, size, partSize) => if s.lock.None? { MovesOn(s, p, StartInserts(id, size, partSize)); }
    case StartInserts(id, size, partSize) =>
      if id in s.rows || |ReservedIds(s.rows)| >= MAX_OPEN_UPLOADS {
        MovesOn(s, p, Idle);
      } else {
        var row := Row(Open, size, partSize, false, None, s.now + 86400);
        InsertEffect(s, p, id, row);
        Moves(s, s.(rows := s.rows[id := row]), p, StartRelocks(id));
      }
    case StartRelocks(id) => if s.lock.None? { MovesOn(s, p, StartInitiates(id)); }
    case StartInitiates(id) =>
      PartsKept(s, p, s.parts[id := []], StartCommits(id));
    case StartCommits(id) =>
      InitiatedEffect(s, p, id);
      Moves(s, s.(rows := s.rows[id := s.rows[id].(initiated := true)]), p, Idle);
    case _ =>
  }

  lemma CompleteKept(s: State, p: nat, ok: bool, video: bool)
    requires Local(s, p)
    ensures Kept(s, CompleteStep(s, p, s.procs[p], ok, video), p)
  {
    assert Kept(s, s, p) by {
      hide *;
      Stays(s, p);
    }
    hide Kept, Effect, Global;
    var proc := s.procs[p];
    assert ProcOk(s, proc);
    hide ByNumber, Merge, Expected, PartCount;
    match proc
    case Locks(id, request, first) =>
      if s.lock.None? {
        MovesOn(s, p, if id !in s.rows then Idle else CompleteFrom(s, s.rows[id], id, request, first));
      }
    case Validates(id, request) =>
      var t := CompleteStep(s, p, proc, ok, video);
      if t == To(s, p, Idle) {
        MovesOn(s, p, Idle);
      } else {
        FreezeEffect(s, p, id, request);
        Moves(s, s.(rows := s.rows[id := s.rows[id].(stage := Completing, manifest := Some(request))]), p, Locks(id, request, false));
      }
    case Heads(id) =>
      MovesOn(s, p, if id !in s.objects then Merges(id) else AfterHead(s, s.rows[id], id));
    case Merges(id) =>
      MergesKept(s, p, ok, video);
    case HeadsAgain(id) =>
      MovesOn(s, p, AfterHead(s, s.rows[id], id));
    case Sniffs(id) =>
      MovesOn(s, p, if s.objects[id].video then CreatesJob(id) else DiscardMarks(id));
    case CreatesJob(id) =>
      JobEffect(s, p, id);
      var request := if s.rows[id].manifest.Some? then s.rows[id].manifest.value else [];
      Moves(s, WithStage(s, id, Ready).(jobs := s.jobs + {id}, made := s.made + multiset{id}), p, Locks(id, request, false));
    case Enqueues(id) => MovesOn(s, p, if ok then Completes(id) else Idle);
    case Completes(id) =>
      StageKept(s, p, id, Completed, Idle);
    case _ =>
  }

  lemma MergesKept(s: State, p: nat, ok: bool, video: bool)
    requires Local(s, p) && s.procs[p].Merges?
    ensures Kept(s, CompleteStep(s, p, s.procs[p], ok, video), p)
  {
    assert Kept(s, s, p) by {
      hide *;
      Stays(s, p);
    }
    hide Kept, Effect, Global;
    var id := s.procs[p].id;
    assert ProcOk(s, s.procs[p]);
    hide Merge, Sizes;
    if !ok || id !in s.parts || s.rows[id].manifest == None || Merge(s.parts[id], s.rows[id].manifest.value) == None {
      MovesOn(s, p, Idle);
    } else {
      var merged := Object(Sizes(Merge(s.parts[id], s.rows[id].manifest.value).value), video, s.now);
      MergeEffect(s, p, id, merged);
      Moves(s, s.(objects := s.objects[id := merged], parts := s.parts - {id}), p, HeadsAgain(id));
    }
  }

  lemma DiscardKept(s: State, p: nat)
    requires Local(s, p)
    ensures Kept(s, DiscardStep(s, p, s.procs[p]), p)
  {
    assert Kept(s, s, p) by {
      hide *;
      Stays(s, p);
    }
    hide Kept, Effect, Global;
    var proc := s.procs[p];
    assert ProcOk(s, proc);
    match proc
    case AbortLocks(id) =>
      if s.lock.None? { MovesOn(s, p, if id !in s.rows then Idle else AbortFrom(s.rows[id], id)); }
    case DiscardMarks(id) =>
      StageKept(s, p, id, Aborting, DiscardRelocks(id));
    case DiscardRelocks(id) => if s.lock.None? { MovesOn(s, p, DiscardsParts(id)); }
    case DiscardsParts(id) =>
      PartsKept(s, p, s.parts - {id}, DiscardsObject(id));
    case DiscardsObject(id) =>
      NoJobYet(s, id);
      RemoveKept(s, p, id, DiscardCommits(id));
    case DiscardCommits(id) =>
      StageKept(s, p, id, Aborted, Idle);
    case _ =>
  }

  lemma CleanKept(s: State, p: nat)
    requires Local(s, p)
    ensures Kept(s, CleanStep(s, p, s.procs[p]), p)
  {
    assert Kept(s, s, p) by {
      hide *;
      Stays(s, p);
    }
    hide Kept, Effect, Global;
    var proc := s.procs[p];
    assert ProcOk(s, proc);
    match proc
    case CleanLocks(id) =>
      if s.lock.None? { MovesOn(s, p, if id !in s.rows then Idle else CleanFrom(s, s.rows[id], id)); }
    case CleansParts(id) =>
      PartsKept(s, p, s.parts - {id}, CleansObject(id));
    case CleansObject(id) =>
      NoJobYet(s, id);
      RemoveKept(s, p, id, CleanCommits(id));
    case CleanCommits(id) =>
      StageKept(s, p, id, Aborted, Idle);
    case _ =>
  }

  lemma DeleteKept(s: State, p: nat, pick: nat)
    requires Local(s, p)
    ensures Kept(s, DeleteStep(s, p, s.procs[p], pick), p)
  {
    assert Kept(s, s, p) by {
      hide *;
      Stays(s, p);
    }
    hide Kept, Effect, Global;
    var proc := s.procs[p];
    if proc.DeletesJob? && proc.id in s.jobs {
      JobRowGone(s, p, proc.id);
    } else if proc.SweepLists? || proc.SweepDeletes? {
      SweepKept(s, p, pick);
    } else {
      match proc
      case DeletesJob(id) => MovesOn(s, p, Idle);
      case DeletesSource(id) => RemoveKept(s, p, id, Idle);
      case SweepReads(before) =>
        MovesOn(s, p, SweepLists(Protected(s), s.now, if before < s.now then before else s.now));
      case _ =>
    }
  }

  lemma JobRowGone(s: State, p: nat, id: nat)
    requires Local(s, p) && s.procs[p] == DeletesJob(id) && id in s.jobs
    ensures Kept(s, To(s.(jobs := s.jobs - {id}), p, DeletesSource(id)), p)
  {
    var u := s.(jobs := s.jobs - {id});
    assert Effect(s, u, p) && ProcOk(u, DeletesSource(id));
    hide Kept, Effect, Global, ProcOk;
    Moves(s, u, p, DeletesSource(id));
  }

  /** The sweep lists objects after it read the keys, and picks only old ones it did
      not read: none of them can be protected any more. */
  lemma SweepPicks(s: State, p: nat)
    requires Local(s, p) && s.procs[p].SweepLists?
    ensures var proc := s.procs[p];
            ProcOk(s, SweepDeletes(set id | id in s.objects && id !in proc.keys && s.objects[id].at < proc.before))
  {
    assert ObjectsOk(s);
    hide JobsOk, MadeOk, ReservedIds, Protected;
  }

  lemma SweepKept(s: State, p: nat, pick: nat)
    requires Local(s, p) && (s.procs[p].SweepLists? || s.procs[p].SweepDeletes?)
    ensures Kept(s, DeleteStep(s, p, s.procs[p], pick), p)
  {
    hide Global, Kept;
    var proc := s.procs[p];
    if proc.SweepLists? {
      assert Local(s, p);
      hide ProcOk, Local;
      SweepPicks(s, p);
      MovesOn(s, p, SweepDeletes(set id | id in s.objects && id !in proc.keys && s.objects[id].at < proc.before));
    } else if pick in proc.orphans {
      assert pick !in Protected(s);
      assert ProcOk(s.(objects := s.objects - {pick}), SweepDeletes(proc.orphans - {pick}));
      hide ProcOk;
      RemoveKept(s, p, pick, SweepDeletes(proc.orphans - {pick}));
    } else {
      MovesOn(s, p, Idle);
    }
  }

  lemma StepKept(s: State, p: nat, ok: bool, video: bool, pick: nat)
    requires Inv(s) && p in s.procs
    ensures Kept(s, ProcStep(s, p, ok, video, pick), p)
  {
    assert Local(s, p) by {
      hide Global, ProcOk;
    }
    hide Kept, Local, Inv, Holding, StartStep, CompleteStep, DiscardStep, CleanStep, DeleteStep;
    StartKept(s, p);
    CompleteKept(s, p, ok, video);
    DiscardKept(s, p);
    CleanKept(s, p);
    DeleteKept(s, p, pick);
  }

  lemma StepKeepsInv(s: State, p: nat, ok: bool, video: bool, pick: nat)
    requires Inv(s) && p in s.procs
    ensures Inv(ProcStep(s, p, ok, video, pick)) && Frame(s, ProcStep(s, p, ok, video, pick), p)
  {
    hide Inv, ProcOk, Global, RowsEvolve, StorageEvolves, LocklessFrame, ProcStep;
    StepKept(s, p, ok, video, pick);
    KeptInv(s, ProcStep(s, p, ok, video, pick), p);
  }

  lemma KeptInv(s: State, t: State, p: nat)
    requires Inv(s) && Kept(s, t, p)
    ensures Inv(t)
  {
    forall q | q in t.procs ensures ProcOk(t, t.procs[q]) {
      if q != p {
        OtherOk(s, t, p, q);
      }
    }
    hide ProcOk, Global, RowsEvolve, StorageEvolves, LocklessFrame;
  }

  /** Between two states of a run: rows move only forward, and a live job keeps its object. */
  ghost predicate History(s: State, t: State) {
    && RowsEvolve(s, t)
    && (forall id :: id in s.rows && id !in Protected(s) ==> id !in Protected(t))
    && (forall id :: id in s.jobs && id in t.jobs && id in s.objects ==> id in t.objects && t.objects[id] == s.objects[id])
  }

  lemma FrameHistory(s: State, t: State, p: nat)
    requires JobsOk(s) && Frame(s, t, p)
    ensures History(s, t)
  {
    forall id | id in s.rows && id !in Protected(s) ensures id !in Protected(t) {
      UnprotectedStays(s, t, id);
    }
  }

  lemma CrashKeepsInv(s: State, p: nat)
    requires Inv(s) && p in s.procs
    ensures Inv(To(s, p, Idle)) && History(s, To(s, p, Idle))
  {
    hide Kept, RowsEvolve, Frame;
    assert Kept(s, To(s, p, Idle), p) by {
      hide *;
      assert Global(s) && ProcOk(s, Idle) && !Holding(Idle) by { CrashFacts(s); }
      MovesOn(s, p, Idle);
    }
    KeptInv(s, To(s, p, Idle), p);
    KeptFrame(s, To(s, p, Idle), p);
    FrameHistory(s, To(s, p, Idle), p);
  }

  lemma CrashFacts(s: State)
    requires Inv(s)
    ensures Global(s) && ProcOk(s, Idle) && !Holding(Idle)
  {
  }

  lemma KeptFrame(s: State, t: State, p: nat)
    requires Kept(s, t, p)
    ensures Frame(s, t, p)
  {
  }

  ghost predicate SameTables(s: State, t: State) {
    t.rows == s.rows && t.jobs == s.jobs && t.made == s.made && t.objects == s.objects
    && t.lock == s.lock && s.now <= t.now
  }

  lemma CarryOk(s: State, t: State, proc: Proc)
    requires ProcOk(s, proc) && SameTables(s, t)
    ensures ProcOk(t, proc)
  {
  }

  lemma RequestOk(t: State, proc: Proc)
    requires IsRequest(proc)
    ensures ProcOk(t, proc) && !Holding(proc)
  {
  }

  lemma TablesHistory(s: State, t: State)
    requires Global(s) && SameTables(s, t)
    ensures Global(t) && History(s, t)
  {
  }

  lemma OutsideKeepsInv(s: State, e: Event)
    requires Inv(s) && (e.Request? || e.PutPart? || e.Tick?)
    ensures Inv(Do(s, e)) && History(s, Do(s, e))
  {
    var t := Do(s, e);
    assert SameTables(s, t);
    TablesHistory(s, t);
    hide Global, History, SameTables, ProcOk, Holding, IsRequest;
    forall p | p in t.procs ensures ProcOk(t, t.procs[p]) && (Holding(t.procs[p]) ==> t.lock == Some(p)) {
      if p in s.procs && t.procs[p] == s.procs[p] {
        CarryOk(s, t, s.procs[p]);
        assert SameTables(s, t);
        assert t.lock == s.lock;
      } else {
        RequestOk(t, t.procs[p]);
      }
    }
  }

  lemma DoKeepsInv(s: State, e: Event)
    requires Inv(s)
    ensures Inv(Do(s, e)) && History(s, Do(s, e))
  {
    match e
    case Step(p, ok, video, pick) =>
      if p in s.procs {
        assert JobsOk(s);
        hide Inv, Frame, History, ProcStep;
        StepKeepsInv(s, p, ok, video, pick);
        FrameHistory(s, ProcStep(s, p, ok, video, pick), p);
      }
    case Crash(p) => if p in s.procs { CrashKeepsInv(s, p); }
    case _ => OutsideKeepsInv(s, e);
  }

  lemma HistoryJoins(s: State, t: State, u: State)
    requires History(s, t) && History(t, u) && JobsOk(s) && JobsOk(t)
    ensures History(s, u)
  {
  }

  lemma {:induction false} RunKeepsInv(s: State, events: seq<Event>)
    requires Inv(s)
    ensures Inv(Run(s, events)) && History(s, Run(s, events))
    decreases |events|
  {
    if events != [] {
      DoKeepsInv(s, events[0]);
      RunKeepsInv(Do(s, events[0]), events[1..]);
      assert JobsOk(s) && JobsOk(Do(s, events[0]));
      hide Inv, History, JobsOk, Do;
      HistoryJoins(s, Do(s, events[0]), Run(s, events));
    }
  }

  lemma EmptyInv()
    ensures Inv(Empty)
  {
    assert ReservedIds(Empty.rows) == {};
  }

  // --- The promises, over every run -----------------------------------------

  /** A session makes at most one job, exactly when it becomes ready; a live job's
      object has the declared size and was recognised as a video; and the owner never
      holds more than five slots. */
  lemma OneSoundJobPerSession(events: seq<Event>)
    ensures var s := Run(Empty, events);
            && (forall id :: id in s.rows ==> s.made[id] == if Made(s.rows[id].stage) then 1 else 0)
            && (forall id :: id in s.jobs ==>
                  id in s.rows && Made(s.rows[id].stage) && id in s.objects
                  && s.objects[id].size == s.rows[id].size && s.objects[id].video)
            && |ReservedIds(s.rows)| <= MAX_OPEN_UPLOADS
  {
    EmptyInv();
    RunKeepsInv(Empty, events);
    assert JobsOk(Run(Empty, events));
  }

  /** From any moment of a run to any later one: a ready or completed session is never
      cancelled, a manifest is frozen once its session has left `open`, and a job that
      is still there has the very object it was made from, whatever aborts, cleanups
      and sweeps ran in between. */
  lemma NothingUndone(before: seq<Event>, after: seq<Event>, id: nat)
    requires id in Run(Empty, before).rows
    ensures var s, t := Run(Empty, before), Run(Run(Empty, before), after);
            && id in t.rows && Later(s.rows[id].stage, t.rows[id].stage)
            && (Made(s.rows[id].stage) ==> Made(t.rows[id].stage))
            && (!s.rows[id].stage.Open? ==> t.rows[id].manifest == s.rows[id].manifest)
            && (id in s.jobs && id in t.jobs ==> id in s.objects && id in t.objects && t.objects[id] == s.objects[id])
  {
    EmptyInv();
    RunKeepsInv(Empty, before);
    RunKeepsInv(Run(Empty, before), after);
    assert JobsOk(Run(Empty, before));
  }

  /** The sweep never has a live job's object, or a reserved session's, on its list to
      delete, however long ago it read the keys. */
  lemma SweepSparesLive(events: seq<Event>, p: nat)
    requires var s := Run(Empty, events); p in s.procs && s.procs[p].SweepDeletes?
    ensures var s := Run(Empty, events);
            s.procs[p].orphans !! s.jobs && s.procs[p].orphans !! ReservedIds(s.rows)
  {
    EmptyInv();
    RunKeepsInv(Empty, events);
    var s := Run(Empty, events);
    assert ProcOk(s, s.procs[p]);
  }
}
