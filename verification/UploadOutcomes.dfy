/** What each request on an upload session does when nothing disturbs it, and a whole
    upload from start to job (app/api/multipart_uploads.py,
    app/services/upload_cleanup.py, app/worker/reaper.py). */
module UploadOutcomes {
  import opened Prelude
  import opened UploadParts
  import opened UploadSessions
  import opened UploadMoves

  function Steps(p: nat, video: bool, n: nat): seq<Event> {
    if n == 0 then [] else [Step(p, true, video, 0)] + Steps(p, video, n - 1)
  }

  /** A request, made and carried to its end. */
  function Alone(s: State, p: nat, proc: Proc, video: bool, n: nat): State {
    Run(s, [Request(p, proc)] + Steps(p, video, n))
  }

  /** Process `p` at `proc`, and nobody else with the lock. */
  function At(u: State, p: nat, proc: Proc): State {
    u.(procs := u.procs[p := proc], lock := if Holding(proc) then Some(p) else None)
  }

  lemma ToAt(u: State, p: nat, a: Proc, b: Proc)
    ensures To(At(u, p, a), p, b) == At(u, p, b)
  {
    hide Holding;
    assert u.procs[p := a][p := b] == u.procs[p := b];
  }

  lemma Begins(s: State, p: nat, proc: Proc, video: bool, n: nat)
    requires s.lock == None && (p in s.procs ==> s.procs[p].Idle?) && IsRequest(proc)
    ensures Alone(s, p, proc, video, n) == Run(At(s, p, proc), Steps(p, video, n))
  {
    var events := [Request(p, proc)] + Steps(p, video, n);
    assert events[1..] == Steps(p, video, n);
  }

  lemma Next(u: State, p: nat, a: Proc, video: bool, n: nat, v: State, b: Proc)
    requires n > 0 && ProcStep(At(u, p, a), p, true, video, 0) == At(v, p, b)
    ensures Leads(u, p, a, video, n, v, b)
  {
    hide ProcStep, Holding;
    var events := Steps(p, video, n);
    assert events[1..] == Steps(p, video, n - 1);
  }

  /** One step takes `p` from `a` to `b`, and the state from `u` to `v`. */
  ghost predicate Leads(u: State, p: nat, a: Proc, video: bool, n: nat, v: State, b: Proc) {
    n > 0 && Run(At(u, p, a), Steps(p, video, n)) == Run(At(v, p, b), Steps(p, video, n - 1))
  }

  lemma {:induction false} Rests(u: State, p: nat, video: bool, n: nat)
    ensures Run(At(u, p, Idle), Steps(p, video, n)) == At(u, p, Idle)
  {
    if n > 0 {
      assert ProcStep(At(u, p, Idle), p, true, video, 0) == At(u, p, Idle);
      Next(u, p, Idle, video, n, u, Idle);
      Rests(u, p, video, n - 1);
    }
  }

  lemma StageTwice(u: State, id: nat, a: Stage, b: Stage)
    requires id in u.rows
    ensures WithStage(WithStage(u, id, a), id, b) == WithStage(u, id, b)
  {
    assert u.rows[id := u.rows[id].(stage := a)][id := u.rows[id].(stage := b)] == u.rows[id := u.rows[id].(stage := b)];
  }

  /** What a discard leaves behind. */
  function Discarded(u: State, id: nat): State
    requires id in u.rows
  {
    WithStage(u, id, Aborted).(parts := u.parts - {id}, objects := u.objects - {id})
  }

  lemma Marks(u: State, p: nat, id: nat, video: bool, n: nat)
    requires n > 0 && id in u.rows
    ensures Leads(u, p, DiscardMarks(id), video, n, WithStage(u, id, Aborting), DiscardRelocks(id))
  {
    ToAt(WithStage(u, id, Aborting), p, DiscardMarks(id), DiscardRelocks(id));
    Next(u, p, DiscardMarks(id), video, n, WithStage(u, id, Aborting), DiscardRelocks(id));
  }

  lemma Relocks(u: State, p: nat, id: nat, video: bool, n: nat)
    requires n > 0
    ensures Leads(u, p, DiscardRelocks(id), video, n, u, DiscardsParts(id))
  {
    ToAt(u, p, DiscardRelocks(id), DiscardsParts(id));
    Next(u, p, DiscardRelocks(id), video, n, u, DiscardsParts(id));
  }

  lemma DropsParts(u: State, p: nat, id: nat, video: bool, n: nat)
    requires n > 0
    ensures Leads(u, p, DiscardsParts(id), video, n, u.(parts := u.parts - {id}), DiscardsObject(id))
  {
    ToAt(u.(parts := u.parts - {id}), p, DiscardsParts(id), DiscardsObject(id));
    Next(u, p, DiscardsParts(id), video, n, u.(parts := u.parts - {id}), DiscardsObject(id));
  }

  lemma DropsObject(u: State, p: nat, id: nat, video: bool, n: nat)
    requires n > 0
    ensures Leads(u, p, DiscardsObject(id), video, n, u.(objects := u.objects - {id}), DiscardCommits(id))
  {
    ToAt(u.(objects := u.objects - {id}), p, DiscardsObject(id), DiscardCommits(id));
    Next(u, p, DiscardsObject(id), video, n, u.(objects := u.objects - {id}), DiscardCommits(id));
  }

  lemma Drops(u: State, p: nat, id: nat, video: bool, n: nat)
    requires n > 0 && id in u.rows
    ensures Leads(u, p, DiscardCommits(id), video, n, WithStage(u, id, Aborted), Idle)
  {
    ToAt(WithStage(u, id, Aborted), p, DiscardCommits(id), Idle);
    Next(u, p, DiscardCommits(id), video, n, WithStage(u, id, Aborted), Idle);
  }

  lemma Discards(u: State, p: nat, id: nat, video: bool, n: nat)
    requires id in u.rows && n >= 5
    ensures Run(At(u, p, DiscardMarks(id)), Steps(p, video, n)) == At(Discarded(u, id), p, Idle)
  {
    hide Run, Steps, At;
    var v := WithStage(u, id, Aborting);
    var w := v.(parts := u.parts - {id});
    var x := w.(objects := u.objects - {id});
    Marks(u, p, id, video, n);
    Relocks(v, p, id, video, n - 1);
    DropsParts(v, p, id, video, n - 2);
    DropsObject(w, p, id, video, n - 3);
    Drops(x, p, id, video, n - 4);
    StageTwice(u, id, Aborting, Aborted);
    assert WithStage(x, id, Aborted) == Discarded(u, id);
    Rests(Discarded(u, id), p, video, n - 5);
  }

  /** One commit adds the job and makes the session ready. */
  function WithJob(u: State, id: nat): State
    requires id in u.rows
  {
    WithStage(u, id, Ready).(jobs := u.jobs + {id}, made := u.made + multiset{id})
  }

  lemma SniffsIt(u: State, p: nat, id: nat, video: bool, n: nat)
    requires n > 0 && id in u.objects
    ensures Leads(u, p, Sniffs(id), video, n, u, if u.objects[id].video then CreatesJob(id) else DiscardMarks(id))
  {
    ToAt(u, p, Sniffs(id), (if u.objects[id].video then CreatesJob(id) else DiscardMarks(id)));
    Next(u, p, Sniffs(id), video, n, u, (if u.objects[id].video then CreatesJob(id) else DiscardMarks(id)));
  }

  lemma MakesJob(u: State, p: nat, id: nat, video: bool, n: nat)
    requires n > 0 && id in u.rows && u.rows[id].manifest.Some?
    ensures Leads(u, p, CreatesJob(id), video, n, WithJob(u, id), Locks(id, u.rows[id].manifest.value, false))
  {
    ToAt(WithJob(u, id), p, CreatesJob(id), Locks(id, u.rows[id].manifest.value, false));
    Next(u, p, CreatesJob(id), video, n, WithJob(u, id), Locks(id, u.rows[id].manifest.value, false));
  }

  lemma LocksIt(u: State, p: nat, id: nat, request: seq<PartRef>, first: bool, video: bool, n: nat)
    requires n > 0 && id in u.rows
    ensures Leads(u, p, Locks(id, request, first), video, n, u, CompleteFrom(u, u.rows[id], id, request, first))
  {
    ToAt(u, p, Locks(id, request, first), CompleteFrom(u, u.rows[id], id, request, first));
    Next(u, p, Locks(id, request, first), video, n, u, CompleteFrom(u, u.rows[id], id, request, first));
  }

  lemma Sends(u: State, p: nat, id: nat, video: bool, n: nat)
    requires n > 0
    ensures Leads(u, p, Enqueues(id), video, n, u, Completes(id))
  {
    ToAt(u, p, Enqueues(id), Completes(id));
    Next(u, p, Enqueues(id), video, n, u, Completes(id));
  }

  lemma Ends(u: State, p: nat, id: nat, video: bool, n: nat)
    requires n > 0 && id in u.rows
    ensures Leads(u, p, Completes(id), video, n, WithStage(u, id, Completed), Idle)
  {
    ToAt(WithStage(u, id, Completed), p, Completes(id), Idle);
    Next(u, p, Completes(id), video, n, WithStage(u, id, Completed), Idle);
  }

  lemma Looks(u: State, p: nat, id: nat, video: bool, n: nat)
    requires n > 0 && id in u.rows
    ensures Leads(u, p, Heads(id), video, n, u, if id !in u.objects then Merges(id) else AfterHead(u, u.rows[id], id))
  {
    ToAt(u, p, Heads(id), (if id !in u.objects then Merges(id) else AfterHead(u, u.rows[id], id)));
    Next(u, p, Heads(id), video, n, u, (if id !in u.objects then Merges(id) else AfterHead(u, u.rows[id], id)));
  }

  lemma LooksAgain(u: State, p: nat, id: nat, video: bool, n: nat)
    requires n > 0 && id in u.rows
    ensures Leads(u, p, HeadsAgain(id), video, n, u, AfterHead(u, u.rows[id], id))
  {
    ToAt(u, p, HeadsAgain(id), AfterHead(u, u.rows[id], id));
    Next(u, p, HeadsAgain(id), video, n, u, AfterHead(u, u.rows[id], id));
  }

  /** From a ready session to the end of `complete`. */
  lemma Queues(u: State, p: nat, id: nat, video: bool, n: nat)
    requires StageIs(u, id, Ready) && n >= 2
    ensures Run(At(u, p, Enqueues(id)), Steps(p, video, n)) == At(WithStage(u, id, Completed), p, Idle)
  {
    Sends(u, p, id, video, n);
    Ends(u, p, id, video, n - 1);
    hide Run, Steps, At;
    Rests(WithStage(u, id, Completed), p, video, n - 2);
  }

  /** What `complete` leaves when the object is the declared video. */
  function Done(u: State, id: nat): State
    requires id in u.rows
  {
    WithStage(u, id, Completed).(jobs := u.jobs + {id}, made := u.made + multiset{id})
  }

  /** From the merged object to the end of `complete`. */
  lemma Finishes(u: State, p: nat, id: nat, video: bool, n: nat)
    requires StageIs(u, id, Completing) && u.rows[id].manifest.Some? && Merged(u, id) && n >= 6
    ensures Run(At(u, p, Sniffs(id)), Steps(p, video, n))
            == At(if u.objects[id].video then Done(u, id) else Discarded(u, id), p, Idle)
  {
    hide Run, Steps, At;
    var request := u.rows[id].manifest.value;
    SniffsIt(u, p, id, video, n);
    if u.objects[id].video {
      MakesJob(u, p, id, video, n - 1);
      LocksIt(WithJob(u, id), p, id, request, false, video, n - 2);
      Queues(WithJob(u, id), p, id, video, n - 3);
      StageTwice(u, id, Ready, Completed);
    } else {
      Discards(u, p, id, video, n - 1);
    }
  }

  /** The session with its manifest frozen. */
  function Frozen(u: State, id: nat, request: seq<PartRef>): State
    requires id in u.rows
  {
    u.(rows := u.rows[id := u.rows[id].(stage := Completing, manifest := Some(request))])
  }

  lemma Freezes(u: State, p: nat, id: nat, request: seq<PartRef>, video: bool, n: nat)
    requires n > 0 && AllStored(u, id, request) && Contiguous(request)
    ensures Run(At(u, p, Validates(id, request)), Steps(p, video, n))
            == Run(At(Frozen(u, id, request), p, Locks(id, request, false)), Steps(p, video, n - 1))
  {
    StoredIsValid(u, id, request);
    hide AllStored, ByNumber, Expected, PartCount, Contiguous;
    ToAt(Frozen(u, id, request), p, Validates(id, request), Locks(id, request, false));
    Next(u, p, Validates(id, request), video, n, Frozen(u, id, request), Locks(id, request, false));
  }

  lemma Refuses(u: State, p: nat, id: nat, request: seq<PartRef>, video: bool, n: nat)
    requires n > 0 && id in u.rows && u.rows[id].partSize > 0 && !AllStored(u, id, request) && Contiguous(request)
    ensures Leads(u, p, Validates(id, request), video, n, u, Idle)
  {
    if id in u.parts {
      StoredIsValid(u, id, request);
    }
    hide AllStored, ByNumber, Expected, PartCount, Contiguous;
    ToAt(u, p, Validates(id, request), Idle);
    Next(u, p, Validates(id, request), video, n, u, Idle);
  }

  /** The session with its parts merged into one object. */
  function Joined(u: State, id: nat, size: int, video: bool): State {
    u.(objects := u.objects[id := Object(size, video, u.now)], parts := u.parts - {id})
  }

  lemma Joins(u: State, p: nat, id: nat, request: seq<PartRef>, video: bool, n: nat)
    requires n > 0 && AllStored(u, id, request) && u.rows[id].manifest == Some(request)
    ensures Run(At(u, p, Merges(id)), Steps(p, video, n))
            == Run(At(Joined(u, id, u.rows[id].size, video), p, HeadsAgain(id)), Steps(p, video, n - 1))
  {
    MergedIsWhole(u, id, request);
    hide AllStored, Merge, Sizes;
    ToAt(Joined(u, id, u.rows[id].size, video), p, Merges(id), HeadsAgain(id));
    Next(u, p, Merges(id), video, n, Joined(u, id, u.rows[id].size, video), HeadsAgain(id));
  }

  /** A frozen session whose parts are there and are not merged yet. */
  lemma MergesAndFinishes(u: State, p: nat, id: nat, request: seq<PartRef>, video: bool, n: nat)
    requires StageIs(u, id, Completing) && u.rows[id].manifest == Some(request) && id !in u.objects
    requires AllStored(u, id, request) && n >= 10
    ensures var w := Joined(u, id, u.rows[id].size, video);
            Run(At(u, p, Locks(id, request, false)), Steps(p, video, n))
            == At(if video then Done(w, id) else Discarded(w, id), p, Idle)
  {
    hide Run, Steps, At, AllStored;
    var w := Joined(u, id, u.rows[id].size, video);
    LocksIt(u, p, id, request, false, video, n);
    Looks(u, p, id, video, n - 1);
    Joins(u, p, id, request, video, n - 2);
    LooksAgain(w, p, id, video, n - 3);
    Finishes(w, p, id, video, n - 4);
  }

  ghost predicate Quiet(s: State, p: nat) {
    s.lock == None && (p in s.procs ==> s.procs[p].Idle?)
  }

  /** The owner's tables and storage after `p`'s request is over. */
  function Over(s: State, p: nat, id: nat, row: Row): State {
    s.(rows := s.rows[id := row], procs := s.procs[p := Idle])
  }

  lemma FrozenOver(s: State, id: nat, request: seq<PartRef>, stage: Stage)
    requires id in s.rows
    ensures WithStage(Frozen(s, id, request), id, stage).rows
            == s.rows[id := s.rows[id].(stage := stage, manifest := Some(request))]
  {
  }

  lemma StillStored(s: State, id: nat, request: seq<PartRef>)
    requires AllStored(s, id, request)
    ensures Contiguous(request) && AllStored(Frozen(s, id, request), id, request)
  {
  }

  lemma Completes12(s: State, p: nat, id: nat, request: seq<PartRef>, video: bool)
    requires Quiet(s, p) && StageIs(s, id, Open) && s.now < s.rows[id].expires && s.rows[id].initiated
    requires AllStored(s, id, request) && id !in s.objects
    ensures var w := Joined(Frozen(s, id, request), id, s.rows[id].size, video);
            Alone(s, p, Locks(id, request, true), video, 12) == At(if video then Done(w, id) else Discarded(w, id), p, Idle)
  {
    hide Run, Steps, At, AllStored, Contiguous, Alone;
    StillStored(s, id, request);
    Begins(s, p, Locks(id, request, true), video, 12);
    LocksIt(s, p, id, request, true, video, 12);
    Freezes(s, p, id, request, video, 11);
    MergesAndFinishes(Frozen(s, id, request), p, id, request, video, 10);
  }

  /** An open session whose parts are all there is completed by one undisturbed
      request: the job is made of one object of the declared size. What is not a video
      is thrown away and makes no job. */
  lemma CompletesAlone(s: State, p: nat, id: nat, request: seq<PartRef>, video: bool)
    requires Quiet(s, p) && StageIs(s, id, Open) && s.now < s.rows[id].expires && s.rows[id].initiated
    requires AllStored(s, id, request) && id !in s.objects
    ensures var t, row := Alone(s, p, Locks(id, request, true), video, 12), s.rows[id].(manifest := Some(request));
            if video
            then t == Over(s, p, id, row.(stage := Completed)).(
                        jobs := s.jobs + {id}, made := s.made + multiset{id}, parts := s.parts - {id},
                        objects := s.objects[id := Object(row.size, true, s.now)])
            else t == Over(s, p, id, row.(stage := Aborted)).(parts := s.parts - {id})
  {
    Completes12(s, p, id, request, video);
    hide AllStored, Alone;
    FrozenOver(s, id, request, Completed);
    FrozenOver(s, id, request, Aborted);
    assert s.objects[id := Object(s.rows[id].size, video, s.now)] - {id} == s.objects;
    assert s.parts - {id} - {id} == s.parts - {id};
  }

  /** A merge that storage refuses, and a queue that cannot be reached, leave the session
      as it was, for a retry to go on with, and the lock free. */
  lemma FailedCallChangesNothing(u: State, p: nat, id: nat, video: bool, pick: nat)
    requires u.lock == None
    ensures Do(At(u, p, Merges(id)), Step(p, false, video, pick)) == At(u, p, Idle)
    ensures Do(At(u, p, Enqueues(id)), Step(p, false, video, pick)) == At(u, p, Idle)
    ensures At(u, p, Idle).lock == None
  {
    ToAt(u, p, Merges(id), Idle);
    ToAt(u, p, Enqueues(id), Idle);
  }

  /** Every other open request, a request with other parts than were frozen, and one for
      a cancelled or completed session change nothing. */
  lemma RefusedAlone(s: State, p: nat, id: nat, request: seq<PartRef>, video: bool)
    requires Quiet(s, p) && Contiguous(request) && (id in s.rows ==> s.rows[id].partSize > 0)
    requires id in s.rows ==>
               match s.rows[id].stage
               case Open => s.rows[id].expires <= s.now || !s.rows[id].initiated || !AllStored(s, id, request)
               case Completing => s.rows[id].manifest != Some(request)
               case Ready => false
               case _ => true
    ensures Alone(s, p, Locks(id, request, true), video, 12) == s.(procs := s.procs[p := Idle])
  {
    hide Run, Steps, AllStored, Contiguous, Alone, At;
    Begins(s, p, Locks(id, request, true), video, 12);
    if id in s.rows {
      LocksIt(s, p, id, request, true, video, 12);
      if CompleteFrom(s, s.rows[id], id, request, true).Validates? {
        Refuses(s, p, id, request, video, 11);
        Rests(s, p, video, 10);
      } else {
        Rests(s, p, video, 11);
      }
    } else {
      NoSuchRow(s, p, id, request, video, 12);
      Rests(s, p, video, 11);
    }
    IdleAt(s, p);
  }

  lemma IdleAt(s: State, p: nat)
    requires s.lock == None
    ensures At(s, p, Idle) == s.(procs := s.procs[p := Idle])
  {
  }

  lemma NoSuchRow(u: State, p: nat, id: nat, request: seq<PartRef>, video: bool, n: nat)
    requires n > 0 && id !in u.rows
    ensures Leads(u, p, Locks(id, request, true), video, n, u, Idle)
  {
    ToAt(u, p, Locks(id, request, true), Idle);
    Next(u, p, Locks(id, request, true), video, n, u, Idle);
  }

  /** A retry goes on where the last request stopped: from the frozen manifest, from
      the merged object, or from the job that is not queued yet. */
  lemma RetriedAlone(s: State, p: nat, id: nat, request: seq<PartRef>, video: bool)
    requires Quiet(s, p) && Contiguous(request) && id in s.rows
    requires match s.rows[id].stage
             case Completing =>
               s.rows[id].manifest == Some(request) && (id in s.objects || AllStored(s, id, request))
             case Ready => true
             case _ => false
    ensures var t, w := Alone(s, p, Locks(id, request, true), video, 12), Joined(s, id, s.rows[id].size, video);
            t == (if s.rows[id].stage.Ready? then WithStage(s, id, Completed)
                  else if id !in s.objects then if video then Done(w, id) else Discarded(w, id)
                  else if Good(s, id) then Done(s, id) else Discarded(s, id)).(procs := s.procs[p := Idle])
  {
    hide Run, Steps, AllStored, Contiguous, Alone, At;
    Begins(s, p, Locks(id, request, true), video, 12);
    LocksIt(s, p, id, request, true, video, 12);
    if s.rows[id].stage.Ready? {
      Queues(s, p, id, video, 11);
      IdleAt(WithStage(s, id, Completed), p);
    } else {
      Looks(s, p, id, video, 11);
      FinishesFromHead(s, p, id, request, video, 10);
    }
  }

  lemma FinishesFromHead(s: State, p: nat, id: nat, request: seq<PartRef>, video: bool, n: nat)
    requires s.lock == None && StageIs(s, id, Completing) && s.rows[id].manifest == Some(request) && n >= 8
    requires id in s.objects || AllStored(s, id, request)
    ensures var w := Joined(s, id, s.rows[id].size, video);
            Run(At(s, p, if id !in s.objects then Merges(id) else AfterHead(s, s.rows[id], id)), Steps(p, video, n))
            == (if id !in s.objects then if video then Done(w, id) else Discarded(w, id)
                else if Good(s, id) then Done(s, id) else Discarded(s, id)).(procs := s.procs[p := Idle])
  {
    hide Run, Steps, AllStored, At;
    var w := Joined(s, id, s.rows[id].size, video);
    IdleAt(Done(s, id), p);
    IdleAt(Discarded(s, id), p);
    IdleAt(Done(w, id), p);
    IdleAt(Discarded(w, id), p);
    if id !in s.objects {
      Joins(s, p, id, request, video, n);
      LooksAgain(w, p, id, video, n - 1);
      Finishes(w, p, id, video, n - 2);
    } else if s.objects[id].size == s.rows[id].size {
      Finishes(s, p, id, video, n);
    } else {
      Discards(s, p, id, video, n);
    }
  }

  lemma AbortLooks(u: State, p: nat, id: nat, video: bool, n: nat)
    requires n > 0 && id in u.rows
    ensures Leads(u, p, AbortLocks(id), video, n, u, AbortFrom(u.rows[id], id))
  {
    ToAt(u, p, AbortLocks(id), AbortFrom(u.rows[id], id));
    Next(u, p, AbortLocks(id), video, n, u, AbortFrom(u.rows[id], id));
  }

  lemma NoneToAbort(u: State, p: nat, id: nat, video: bool, n: nat)
    requires n > 0 && id !in u.rows
    ensures Leads(u, p, AbortLocks(id), video, n, u, Idle)
  {
    ToAt(u, p, AbortLocks(id), Idle);
    Next(u, p, AbortLocks(id), video, n, u, Idle);
  }

  /** An undisturbed cancellation frees an open session's slot with all it stored, and
      changes nothing once completion has begun. */
  lemma AbortsAlone(s: State, p: nat, id: nat, video: bool)
    requires Quiet(s, p)
    ensures Alone(s, p, AbortLocks(id), video, 6)
            == (if id in s.rows && (s.rows[id].stage.Open? || s.rows[id].stage.Aborting?)
                then s.(rows := s.rows[id := s.rows[id].(stage := Aborted)], parts := s.parts - {id}, objects := s.objects - {id})
                else s).(procs := s.procs[p := Idle])
  {
    hide Run, Steps, Alone, At;
    Begins(s, p, AbortLocks(id), video, 6);
    IdleAt(s, p);
    if id !in s.rows {
      NoneToAbort(s, p, id, video, 6);
      Rests(s, p, video, 5);
    } else {
      IdleAt(Discarded(s, id), p);
      AbortLooks(s, p, id, video, 6);
      if s.rows[id].stage.Open? || s.rows[id].stage.Aborting? {
        Discards(s, p, id, video, 5);
      } else {
        Rests(s, p, video, 5);
      }
    }
  }

  lemma CleanLooks(u: State, p: nat, id: nat, video: bool, n: nat)
    requires n > 0 && id in u.rows
    ensures Leads(u, p, CleanLocks(id), video, n, u, CleanFrom(u, u.rows[id], id))
  {
    ToAt(u, p, CleanLocks(id), CleanFrom(u, u.rows[id], id));
    Next(u, p, CleanLocks(id), video, n, u, CleanFrom(u, u.rows[id], id));
  }

  lemma NoneToClean(u: State, p: nat, id: nat, video: bool, n: nat)
    requires n > 0 && id !in u.rows
    ensures Leads(u, p, CleanLocks(id), video, n, u, Idle)
  {
    ToAt(u, p, CleanLocks(id), Idle);
    Next(u, p, CleanLocks(id), video, n, u, Idle);
  }

  lemma CleansItsParts(u: State, p: nat, id: nat, video: bool, n: nat)
    requires n > 0
    ensures Leads(u, p, CleansParts(id), video, n, u.(parts := u.parts - {id}), CleansObject(id))
  {
    ToAt(u.(parts := u.parts - {id}), p, CleansParts(id), CleansObject(id));
    Next(u, p, CleansParts(id), video, n, u.(parts := u.parts - {id}), CleansObject(id));
  }

  lemma CleansItsObject(u: State, p: nat, id: nat, video: bool, n: nat)
    requires n > 0
    ensures Leads(u, p, CleansObject(id), video, n, u.(objects := u.objects - {id}), CleanCommits(id))
  {
    ToAt(u.(objects := u.objects - {id}), p, CleansObject(id), CleanCommits(id));
    Next(u, p, CleansObject(id), video, n, u.(objects := u.objects - {id}), CleanCommits(id));
  }

  lemma Cleaned(u: State, p: nat, id: nat, video: bool, n: nat)
    requires n > 0 && id in u.rows
    ensures Leads(u, p, CleanCommits(id), video, n, WithStage(u, id, Aborted), Idle)
  {
    ToAt(WithStage(u, id, Aborted), p, CleanCommits(id), Idle);
    Next(u, p, CleanCommits(id), video, n, WithStage(u, id, Aborted), Idle);
  }

  /** The cleanup gives an expired session's slot back, and touches no other. */
  lemma CleansAlone(s: State, p: nat, id: nat, video: bool)
    requires Quiet(s, p)
    ensures Alone(s, p, CleanLocks(id), video, 4)
            == (if Expired(s, id)
                then s.(rows := s.rows[id := s.rows[id].(stage := Aborted)], parts := s.parts - {id}, objects := s.objects - {id})
                else s).(procs := s.procs[p := Idle])
  {
    hide Run, Steps, Alone, At;
    Begins(s, p, CleanLocks(id), video, 4);
    IdleAt(s, p);
    if id !in s.rows {
      NoneToClean(s, p, id, video, 4);
      Rests(s, p, video, 3);
    } else {
      IdleAt(Discarded(s, id), p);
      CleanLooks(s, p, id, video, 4);
      if Expired(s, id) {
        var v := s.(parts := s.parts - {id});
        CleansItsParts(s, p, id, video, 3);
        CleansItsObject(v, p, id, video, 2);
        Cleaned(v.(objects := s.objects - {id}), p, id, video, 1);
        Rests(Discarded(s, id), p, video, 0);
      } else {
        Rests(s, p, video, 3);
      }
    }
  }

  lemma StartsIt(u: State, p: nat, id: nat, size: nat, partSize: nat, video: bool, n: nat)
    requires n > 0
    ensures Leads(u, p, StartLocks(id, size, partSize), video, n, u, StartInserts(id, size, partSize))
  {
    ToAt(u, p, StartLocks(id, size, partSize), StartInserts(id, size, partSize));
    Next(u, p, StartLocks(id, size, partSize), video, n, u, StartInserts(id, size, partSize));
  }

  /** A new session that expires in 24 hours. */
  function Started(u: State, id: nat, size: nat, partSize: nat, initiated: bool): State {
    u.(rows := u.rows[id := Row(Open, size, partSize, initiated, None, u.now + 24 * 60 * 60)])
  }

  lemma Inserts(u: State, p: nat, id: nat, size: nat, partSize: nat, video: bool, n: nat)
    requires n > 0 && id !in u.rows && |ReservedIds(u.rows)| < 5
    ensures Leads(u, p, StartInserts(id, size, partSize), video, n, Started(u, id, size, partSize, false), StartRelocks(id))
  {
    ToAt(Started(u, id, size, partSize, false), p, StartInserts(id, size, partSize), StartRelocks(id));
    Next(u, p, StartInserts(id, size, partSize), video, n, Started(u, id, size, partSize, false), StartRelocks(id));
  }

  lemma InsertsNot(u: State, p: nat, id: nat, size: nat, partSize: nat, video: bool, n: nat)
    requires n > 0 && id !in u.rows && |ReservedIds(u.rows)| >= 5
    ensures Leads(u, p, StartInserts(id, size, partSize), video, n, u, Idle)
  {
    ToAt(u, p, StartInserts(id, size, partSize), Idle);
    Next(u, p, StartInserts(id, size, partSize), video, n, u, Idle);
  }

  lemma RelocksStart(u: State, p: nat, id: nat, video: bool, n: nat)
    requires n > 0 && id in u.rows
    ensures Leads(u, p, StartRelocks(id), video, n, u, StartInitiates(id))
  {
    ToAt(u, p, StartRelocks(id), StartInitiates(id));
    Next(u, p, StartRelocks(id), video, n, u, StartInitiates(id));
  }

  lemma Initiates(u: State, p: nat, id: nat, video: bool, n: nat)
    requires n > 0
    ensures Leads(u, p, StartInitiates(id), video, n, u.(parts := u.parts[id := []]), StartCommits(id))
  {
    ToAt(u.(parts := u.parts[id := []]), p, StartInitiates(id), StartCommits(id));
    Next(u, p, StartInitiates(id), video, n, u.(parts := u.parts[id := []]), StartCommits(id));
  }

  lemma Notes(u: State, p: nat, id: nat, video: bool, n: nat)
    requires n > 0 && id in u.rows
    ensures Leads(u, p, StartCommits(id), video, n, u.(rows := u.rows[id := u.rows[id].(initiated := true)]), Idle)
  {
    ToAt(u.(rows := u.rows[id := u.rows[id].(initiated := true)]), p, StartCommits(id), Idle);
    Next(u, p, StartCommits(id), video, n, u.(rows := u.rows[id := u.rows[id].(initiated := true)]), Idle);
  }

  /** An undisturbed start opens a session that is ready for its parts, unless the
      owner's five slots are taken. */
  lemma StartsAlone(s: State, p: nat, id: nat, size: nat, partSize: nat, video: bool)
    requires Quiet(s, p) && id !in s.rows && partSize > 0
    ensures Alone(s, p, StartLocks(id, size, partSize), video, 5)
            == (if |ReservedIds(s.rows)| < 5 then Started(s, id, size, partSize, true).(parts := s.parts[id := []]) else s)
               .(procs := s.procs[p := Idle])
  {
    hide Run, Steps, Alone, At;
    Begins(s, p, StartLocks(id, size, partSize), video, 5);
    StartsIt(s, p, id, size, partSize, video, 5);
    IdleAt(s, p);
    if |ReservedIds(s.rows)| >= 5 {
      InsertsNot(s, p, id, size, partSize, video, 4);
      Rests(s, p, video, 3);
    } else {
      var v := Started(s, id, size, partSize, false);
      var w := v.(parts := s.parts[id := []]);
      var x := Started(s, id, size, partSize, true).(parts := s.parts[id := []]);
      Inserts(s, p, id, size, partSize, video, 4);
      RelocksStart(v, p, id, video, 3);
      Initiates(v, p, id, video, 2);
      Notes(w, p, id, video, 1);
      assert w.rows[id := w.rows[id].(initiated := true)] == x.rows;
      Rests(x, p, video, 0);
      IdleAt(x, p);
    }
  }

  lemma DropsJob(u: State, p: nat, id: nat, video: bool, n: nat)
    requires n > 0 && id in u.jobs
    ensures Leads(u, p, DeletesJob(id), video, n, u.(jobs := u.jobs - {id}), DeletesSource(id))
  {
    ToAt(u.(jobs := u.jobs - {id}), p, DeletesJob(id), DeletesSource(id));
    Next(u, p, DeletesJob(id), video, n, u.(jobs := u.jobs - {id}), DeletesSource(id));
  }

  lemma DropsSource(u: State, p: nat, id: nat, video: bool, n: nat)
    requires n > 0
    ensures Leads(u, p, DeletesSource(id), video, n, u.(objects := u.objects - {id}), Idle)
  {
    ToAt(u.(objects := u.objects - {id}), p, DeletesSource(id), Idle);
    Next(u, p, DeletesSource(id), video, n, u.(objects := u.objects - {id}), Idle);
  }

  lemma SweepStarts(u: State, p: nat, before: int, video: bool, n: nat)
    requires n > 0
    ensures Leads(u, p, SweepReads(before), video, n, u, SweepLists(Protected(u), u.now, if before < u.now then before else u.now))
  {
    ToAt(u, p, SweepReads(before), SweepLists(Protected(u), u.now, if before < u.now then before else u.now));
    Next(u, p, SweepReads(before), video, n, u, SweepLists(Protected(u), u.now, if before < u.now then before else u.now));
  }

  /** What is stored, older than `before` and not among the keys. */
  function Unread(u: State, keys: set<nat>, before: int): set<nat> {
    set id | id in u.objects && id !in keys && u.objects[id].at < before
  }

  lemma SweepPicked(u: State, p: nat, keys: set<nat>, read: int, before: int, video: bool, n: nat)
    requires n > 0
    ensures Leads(u, p, SweepLists(keys, read, before), video, n, u, SweepDeletes(Unread(u, keys, before)))
  {
    ToAt(u, p, SweepLists(keys, read, before), SweepDeletes(Unread(u, keys, before)));
    Next(u, p, SweepLists(keys, read, before), video, n, u, SweepDeletes(Unread(u, keys, before)));
  }

  /** Deleting a job takes its object with it. */
  lemma DeletesAlone(s: State, p: nat, id: nat, video: bool)
    requires Quiet(s, p) && id in s.jobs
    ensures Alone(s, p, DeletesJob(id), video, 2)
            == s.(jobs := s.jobs - {id}, objects := s.objects - {id}, procs := s.procs[p := Idle])
  {
    hide Run, Steps, Alone, At;
    var u := s.(jobs := s.jobs - {id});
    Begins(s, p, DeletesJob(id), video, 2);
    DropsJob(s, p, id, video, 2);
    DropsSource(u, p, id, video, 1);
    Rests(u.(objects := s.objects - {id}), p, video, 0);
    IdleAt(u.(objects := s.objects - {id}), p);
  }

  /** An undisturbed sweep lists exactly the old objects that neither a job nor a
      session with a slot needs. */
  lemma SweepListsOrphans(s: State, p: nat, before: int, video: bool)
    requires Quiet(s, p) && before <= s.now
    ensures var t := Alone(s, p, SweepReads(before), video, 2);
            && t == s.(procs := t.procs) && p in t.procs && t.procs[p].SweepDeletes?
            && forall id :: id in t.procs[p].orphans
                 <==> id in s.objects && s.objects[id].at < before && id !in s.jobs
                      && !(id in s.rows && (s.rows[id].stage.Open? || s.rows[id].stage.Completing? || s.rows[id].stage.Aborting?))
  {
    Begins(s, p, SweepReads(before), video, 2);
    SweepStarts(s, p, before, video, 2);
    hide Alone, Steps, Run;
    SweepPicked(s, p, Protected(s), s.now, before, video, 1);
    Rested(s, p, SweepDeletes(Unread(s, Protected(s), before)), video);
  }

  lemma Rested(u: State, p: nat, proc: Proc, video: bool)
    ensures Run(At(u, p, proc), Steps(p, video, 0)) == At(u, p, proc)
  {
  }

  // --- A whole upload -------------------------------------------------------

  ghost predicate OpenIsUnmerged(s: State) {
    forall id :: StageIs(s, id, Open) ==> id !in s.objects
  }

  lemma {:induction false} RunOpenIsUnmerged(s: State, events: seq<Event>)
    requires Inv(s) && Known(s) && OpenIsUnmerged(s)
    ensures OpenIsUnmerged(Run(s, events))
    decreases |events|
  {
    if events != [] {
      DoKeepsInv(s, events[0]);
      DoMoves(s, events[0]);
      MoveOpens(s, Do(s, events[0]));
      hide Inv, Known, Do, Moved, History, OpenIsUnmerged;
      RunOpenIsUnmerged(Do(s, events[0]), events[1..]);
    }
  }

  lemma MoveOpens(s: State, t: State)
    requires ObjectsOk(s) && Moved(s, t) && OpenIsUnmerged(s)
    ensures OpenIsUnmerged(t)
  {
    hide AllStored, Good, Expired, Merge, Sizes;
    forall id | StageIs(t, id, Open) ensures id !in t.objects {
      assert StorageMove(s, t, id);
      assert id in s.rows ==> RowMove(s, t, id);
    }
  }

  /** An open session has no object yet, in any run. */
  lemma NothingMergedYet(events: seq<Event>, id: nat)
    requires StageIs(Run(Empty, events), id, Open)
    ensures id !in Run(Empty, events).objects
  {
    Reachable([]);
    RunOpenIsUnmerged(Empty, events);
  }

  function Puts(id: nat, parts: seq<StoredPart>): seq<Event> {
    if parts == [] then [] else [PutPart(id, parts[0])] + Puts(id, parts[1..])
  }

  ghost predicate Distinct(parts: seq<StoredPart>) {
    forall i, j :: 0 <= i < j < |parts| ==> parts[i].n != parts[j].n
  }

  lemma {:induction false} NotReplaced(parts: seq<StoredPart>, n: nat)
    requires forall i :: 0 <= i < |parts| ==> parts[i].n != n
    ensures Without(parts, n) == parts
  {
    if parts != [] {
      NotReplaced(parts[1..], n);
      assert parts == [parts[0]] + parts[1..];
    }
  }

  lemma {:induction false} PutsThem(u: State, id: nat, done: seq<StoredPart>, parts: seq<StoredPart>)
    requires id in u.parts && u.parts[id] == done && Distinct(done + parts)
    ensures Run(u, Puts(id, parts)) == u.(parts := u.parts[id := done + parts])
    decreases |parts|
  {
    if parts == [] {
      assert done + parts == done;
    } else {
      var events, x := Puts(id, parts), parts[0];
      forall i | 0 <= i < |done| ensures done[i].n != x.n {
        assert (done + parts)[i].n != (done + parts)[|done|].n;
      }
      NotReplaced(done, x.n);
      var v := u.(parts := u.parts[id := done + [x]]);
      assert Do(u, events[0]) == v && events[1..] == Puts(id, parts[1..]);
      assert (done + [x]) + parts[1..] == done + parts;
      PutsThem(v, id, done + [x], parts[1..]);
      assert v.parts[id := done + parts] == u.parts[id := done + parts];
    }
  }

  // --- Putting a part again ---------------------------------------------------

  lemma {:induction false} Kept(parts: seq<StoredPart>, n: nat)
    requires Distinct(parts)
    ensures Distinct(Without(parts, n))
    ensures forall x :: x in Without(parts, n) <==> x in parts && x.n != n
  {
    if parts != [] {
      Kept(parts[1..], n);
      assert parts == [parts[0]] + parts[1..];
      var rest := Without(parts[1..], n);
      assert forall i :: 0 <= i < |rest| ==> rest[i] in rest;
      assert forall x :: x in parts[1..] ==> x.n != parts[0].n;
    }
  }

  ghost predicate EachOnce(s: State) {
    forall id :: id in s.parts ==> Distinct(s.parts[id])
  }

  lemma PutKeepsEachOnce(s: State, id: nat, part: StoredPart)
    requires EachOnce(s)
    ensures EachOnce(Do(s, PutPart(id, part)))
    ensures id in s.parts ==>
              forall x :: x in Do(s, PutPart(id, part)).parts[id] <==> x == part || (x in s.parts[id] && x.n != part.n)
  {
    if id in s.parts {
      Kept(s.parts[id], part.n);
      var kept := Without(s.parts[id], part.n);
      assert forall i :: 0 <= i < |kept| ==> kept[i] in kept;
    }
  }

  lemma FewerParts(s: State, t: State)
    requires EachOnce(s) && forall id :: id in t.parts ==> t.parts[id] == [] || (id in s.parts && t.parts[id] == s.parts[id])
    ensures EachOnce(t)
  {
  }

  lemma CompleteLeavesParts(s: State, p: nat, proc: Proc, ok: bool, video: bool)
    ensures var t := CompleteStep(s, p, proc, ok, video);
            t.parts == s.parts || (proc.Merges? && t.parts == s.parts - {proc.id})
  {
    hide Protected, ByNumber, Expected, Merge, Sizes, PartCount, ReservedIds, AfterHead, CompleteFrom, Holding;
  }

  lemma StartLeavesParts(s: State, p: nat, proc: Proc)
    ensures StartStep(s, p, proc).parts == s.parts
            || (proc.StartInitiates? && StartStep(s, p, proc).parts == s.parts[proc.id := []])
    ensures DiscardStep(s, p, proc).parts == s.parts
            || (proc.DiscardsParts? && DiscardStep(s, p, proc).parts == s.parts - {proc.id})
  {
    hide ReservedIds, AbortFrom, Holding;
  }

  lemma CleanLeavesParts(s: State, p: nat, proc: Proc, pick: nat)
    ensures CleanStep(s, p, proc).parts == s.parts
            || (proc.CleansParts? && CleanStep(s, p, proc).parts == s.parts - {proc.id})
    ensures DeleteStep(s, p, proc, pick).parts == s.parts
  {
    hide Protected, CleanFrom, Holding;
  }

  lemma ProcLeavesParts(s: State, p: nat, ok: bool, video: bool, pick: nat, id: nat)
    requires p in s.procs
    ensures var t := ProcStep(s, p, ok, video, pick);
            id in t.parts ==> t.parts[id] == [] || (id in s.parts && t.parts[id] == s.parts[id])
  {
    CompleteLeavesParts(s, p, s.procs[p], ok, video);
    StartLeavesParts(s, p, s.procs[p]);
    CleanLeavesParts(s, p, s.procs[p], pick);
    hide StartStep, CompleteStep, DiscardStep, CleanStep, DeleteStep;
  }

  lemma StepKeepsEachOnce(s: State, e: Event)
    requires EachOnce(s) && !e.PutPart?
    ensures EachOnce(Do(s, e))
  {
    hide ProcStep, EachOnce, Holding, IsRequest;
    forall id | e.Step? && e.p in s.procs && id in Do(s, e).parts
      ensures Do(s, e).parts[id] == [] || (id in s.parts && Do(s, e).parts[id] == s.parts[id])
    {
      ProcLeavesParts(s, e.p, e.ok, e.video, e.pick, id);
    }
    FewerParts(s, Do(s, e));
  }

  lemma {:induction false} RunKeepsEachOnce(s: State, events: seq<Event>)
    requires EachOnce(s)
    ensures EachOnce(Run(s, events))
    decreases |events|
  {
    if events != [] {
      match events[0] {
        case PutPart(id, part) => PutKeepsEachOnce(s, id, part);
        case _ => StepKeepsEachOnce(s, events[0]);
      }
      hide Do, EachOnce;
      RunKeepsEachOnce(Do(s, events[0]), events[1..]);
    }
  }

  /** In any run storage holds a part number once at most, and putting a part again
      leaves the new bytes in place of the old and every other part as it was. */
  lemma PutReplaces(events: seq<Event>, id: nat, part: StoredPart)
    requires id in Run(Empty, events).parts
    ensures var s := Run(Empty, events);
            var t := Do(s, PutPart(id, part));
            && Distinct(s.parts[id]) && Distinct(t.parts[id])
            && forall x :: x in t.parts[id] <==> x == part || (x in s.parts[id] && x.n != part.n)
  {
    RunKeepsEachOnce(Empty, events);
    PutKeepsEachOnce(Run(Empty, events), id, part);
  }

  /** The file's parts as storage keeps them, each under the ETag it was given. */
  function FileParts(row: Row, etags: seq<string>): seq<StoredPart> {
    seq(|etags|, k requires 0 <= k < |etags| => StoredPart(k + 1, etags[k], BytesOf(k, row)))
  }

  function Refs(etags: seq<string>): seq<PartRef> {
    seq(|etags|, k requires 0 <= k < |etags| => PartRef(k + 1, etags[k]))
  }

  lemma PutsAreStored(s: State, id: nat, etags: seq<string>)
    requires id in s.rows && s.rows[id].partSize > 0 && |etags| == PartCount(s.rows[id].size, s.rows[id].partSize)
    requires id in s.parts && s.parts[id] == []
    ensures var parts := FileParts(s.rows[id], etags);
            var t := Run(s, Puts(id, parts));
            t == s.(parts := s.parts[id := parts]) && AllStored(t, id, Refs(etags))
  {
    hide BytesOf, PartCount, Puts, Run;
    var parts := FileParts(s.rows[id], etags);
    assert [] + parts == parts;
    PutsThem(s, id, [], parts);
    forall k | 0 <= k < |etags| ensures StoredPart(k + 1, etags[k], BytesOf(k, s.rows[id])) in parts {
      assert parts[k] == StoredPart(k + 1, etags[k], BytesOf(k, s.rows[id]));
    }
  }

  /** A file of any size, uploaded in parts of any size: the session is started, every
      part is put, and the completion makes a job of an object of exactly that size. */
  lemma UploadsFile(s: State, p: nat, id: nat, size: nat, partSize: nat, etags: seq<string>)
    requires Inv(s) && Quiet(s, p) && id !in s.rows && |ReservedIds(s.rows)| < 5
    requires partSize > 0 && |etags| == PartCount(size, partSize)
    ensures var row := Row(Open, size, partSize, true, None, s.now + 24 * 60 * 60);
            var started := Alone(s, p, StartLocks(id, size, partSize), true, 5);
            var put := Run(started, Puts(id, FileParts(row, etags)));
            var t := Alone(put, p, Locks(id, Refs(etags), true), true, 12);
            && StageIs(t, id, Completed) && t.jobs == s.jobs + {id} && t.made == s.made + multiset{id}
            && t.objects == s.objects[id := Object(size, true, s.now)]
            && ReservedIds(t.rows) == ReservedIds(s.rows)
  {
    assert ObjectsOk(s);
    hide Inv, Alone, Run, PartCount, AllStored, FileParts, Refs, ReservedIds, Puts;
    var row := Row(Open, size, partSize, true, None, s.now + 24 * 60 * 60);
    StartsAlone(s, p, id, size, partSize, true);
    var started := Alone(s, p, StartLocks(id, size, partSize), true, 5);
    assert started.rows[id] == row && started.parts[id] == [];
    PutsAreStored(started, id, etags);
    var put := Run(started, Puts(id, FileParts(row, etags)));
    CompletesAlone(put, p, id, Refs(etags), true);
    SameReserved(s.rows, id, row, put.rows[id].(stage := Completed, manifest := Some(Refs(etags))));
  }

  lemma SameReserved(rows: map<nat, Row>, id: nat, a: Row, b: Row)
    requires id !in rows && !Reserved(b.stage)
    ensures ReservedIds(rows[id := a][id := b]) == ReservedIds(rows)
  {
  }
}
