/** What becomes of a job, step by step, whatever else its row has been through: its
    deliveries and its ladder's from the queue to the row they leave
    (app/worker/tasks.py, app/api/jobs.py, app/worker/reaper.py). */
module JobOutcomes {
  import opened Prelude
  import opened Text
  import opened JobRow
  import opened JobProtocol

  ghost predicate Has(s: State, status: Status) {
    s.row.Some? && Sound(s.row.value) && s.row.value.status == status
  }

  ghost predicate Entry(s: State, d: nat, delivery: Delivery) {
    d < |s.deliveries| && s.deliveries[d] == delivery
  }

  ghost predicate Ladder(s: State, l: nat, entry: LadderEntry) {
    l < |s.ladders| && s.ladders[l] == entry
  }

  /** The state with another row, and the delivery moved on. */
  function Now(s: State, row: Option<Row>, d: nat, to: Delivery): State
    requires d < |s.deliveries|
  {
    s.(row := row, deliveries := s.deliveries[d := to])
  }

  // --- A delivery -----------------------------------------------------------------------

  lemma PutTwice(s: State, d: nat, a: Delivery, b: Delivery)
    requires d < |s.deliveries|
    ensures Put(Put(s, d, a), d, b) == Put(s, d, b)
  {
    assert s.deliveries[d := a][d := b] == s.deliveries[d := b];
  }

  /** A worker that takes an entry of a queued job claims it. */
  lemma Claims(s: State, d: nat, n: nat)
    requires Has(s, Queued) && s.retry.None? && Entry(s, d, Waiting(n))
    ensures Do(Do(s, Pop(d)), Claim(d))
            == Now(s, Some(Created.(status := Processing)), d, Running(n)).(claims := s.claims + 1)
  {
    PutTwice(s, d, Claiming(n), Running(n));
    assert s.row.value == Created;
  }

  /** Any other is left alone: the job is someone else's, finished, or gone. */
  lemma LeavesAlone(s: State, d: nat, n: nat)
    requires s.retry.None? && Entry(s, d, Waiting(n)) && (s.row.Some? ==> !s.row.value.status.Queued?)
    ensures Do(Do(s, Pop(d)), Claim(d)) == Now(s, s.row, d, Spent(n))
  {
    PutTwice(s, d, Claiming(n), Spent(n));
  }

  /** The row of a finished job. */
  function DoneRow(result: Result): Row {
    Row(Done, Some(result.outputKey), result.hlsKey,
        if result.hlsKey.Some? then Available else if result.ladderPending then Pending else Unavailable,
        None, result.thumbnailKey, result.width, result.height, result.duration, None)
  }

  /** A step that returns is recorded with everything it found, and hands its ladder on
      only after that. */
  lemma Completes(s: State, d: nat, n: nat, result: Result)
    requires Has(s, Processing) && Entry(s, d, Running(n)) && SoundResult(result) && !BlankKeys(result)
    ensures Do(Do(s, StepReturns(d, result)), Write(d))
            == Now(s, Some(DoneRow(result)), d, if result.ladderPending then HandsOff(n) else Spent(n))
  {
    hide BlankKeys;
    PutTwice(s, d, Finished(n, result), if result.ladderPending then HandsOff(n) else Spent(n));
    DoneIsSoundIff(s.row.value, result);
  }

  function FailedRow(error: string): Row {
    Row(Failed, None, None, Unavailable, None, None, None, None, None, Some(error))
  }

  /** A step that raises fails the job, with a message for its owner. */
  lemma Fails(s: State, d: nat, n: nat, message: Option<string>)
    requires Has(s, Processing) && Entry(s, d, Running(n))
    ensures Do(Do(s, StepRaises(d, message, false)), Write(d)) == Now(s, Some(FailedRow(ReadableError(message))), d, Spent(n))
  {
    PutTwice(s, d, Raised(n, message), Spent(n));
    ReadableErrorFits(message);
    hide ReadableError, Strip;
    UpdatesKeepSound(s.row.value, ReadableError(message), "k");
  }

  /** A worker that is stopped gives the job back, and the entry runs it again. */
  lemma Stops(s: State, d: nat, n: nat, message: Option<string>)
    requires Has(s, Processing) && Entry(s, d, Running(n)) && n < 2
    ensures Do(Do(Do(s, StepRaises(d, message, true)), Write(d)), Requeue(d))
            == Now(s, Some(Created), d, Waiting(n + 1)).(giveBacks := s.giveBacks + 1, last := Some(d))
  {
    hide Strip;
    PutTwice(s, d, Stopped(n), Returning(n));
    PutTwice(s, d, Returning(n), Waiting(n + 1));
    RequeuedIsNew(s.row.value);
  }

  /** The third time the job fails. */
  lemma StopsTooOften(s: State, d: nat, n: nat, message: Option<string>)
    requires Has(s, Processing) && Entry(s, d, Running(n)) && n >= 2
    ensures Do(Do(s, StepRaises(d, message, true)), Write(d)) == Now(s, Some(FailedRow(TOO_OFTEN)), d, Spent(n))
  {
    PutTwice(s, d, Stopped(n), Spent(n));
    TooOftenIsText();
    TooOftenIsStored();
    hide Strip;
    UpdatesKeepSound(s.row.value, TOO_OFTEN, "k");
  }

  lemma TooOftenIsStored()
    ensures Strip(TOO_OFTEN) == TOO_OFTEN
  {
    assert TOO_OFTEN[0] == 'p' && TOO_OFTEN[|TOO_OFTEN| - 1] == 'n';
  }

  // --- Its ladder -----------------------------------------------------------------------

  /** A ladder that can be queued is; one that cannot is settled at once. */
  lemma HandsOn(s: State, d: nat, n: nat)
    requires Has(s, Done) && s.row.value.hls.Pending? && Entry(s, d, HandsOff(n))
    ensures Do(s, HandOff(d, true)) == s.(ladders := s.ladders + [LadderWaiting(0)], deliveries := s.deliveries[d := Spent(n)])
    ensures Do(Do(s, HandOff(d, false)), Write(d))
            == Now(s, Some(s.row.value.(hls := Unavailable)), d, Spent(n)).(settlements := s.settlements + 1)
  {
    PutTwice(s, d, DropsLadder(n), Spent(n));
    UpdatesKeepSound(s.row.value, STALE, "k");
    NoKeyYet(s.row.value);
  }

  lemma NoKeyYet(r: Row)
    requires Sound(r) && r.hls.Pending?
    ensures r.(hls := Unavailable, hlsKey := None) == r.(hls := Unavailable)
    ensures Strip(STALE) != ""
  {
    assert STALE[0] == 'w' && STALE[|STALE| - 1] == 'd';
    assert Trimmed(STALE);
    StripLeftHead(STALE, IsSpace);
    assert StripLeft(STALE, IsSpace) == STALE;
    StripRightKeepsHead(STALE, IsSpace);
  }

  lemma LadderTwice(s: State, l: nat, a: LadderEntry, b: LadderEntry)
    requires l < |s.ladders|
    ensures PutLadder(PutLadder(s, l, a), l, b) == PutLadder(s, l, b)
  {
    assert s.ladders[l := a][l := b] == s.ladders[l := b];
  }

  /** A ladder's entry is taken up exactly while the done row waits for it. */
  lemma LadderStarts(s: State, l: nat, n: nat)
    requires Ladder(s, l, LadderWaiting(n))
    ensures Do(Do(s, LadderPops(l)), LadderReads(l))
            == PutLadder(s, l,
                 if s.row.None? || !s.row.value.status.Done? || !s.row.value.hls.Pending? then LadderSpent
                 else if s.row.value.width.None? || s.row.value.height.None? then LadderFails
                 else LadderBuilding(n))
  {
    LadderTwice(s, l, LadderReading(n), LadderSpent);
    LadderTwice(s, l, LadderReading(n), LadderFails);
    LadderTwice(s, l, LadderReading(n), LadderBuilding(n));
  }

  /** Built, it is recorded with its key, */
  lemma LadderIsRecorded(s: State, l: nat, n: nat, key: string)
    requires Has(s, Done) && s.row.value.hls.Pending? && Ladder(s, l, LadderBuilding(n)) && Strip(key) != ""
    ensures Do(Do(s, LadderReturns(l, key)), LadderWrites(l))
            == s.(row := Some(s.row.value.(hls := Available, hlsKey := Some(key))),
                  ladders := s.ladders[l := LadderPreview], settlements := s.settlements + 1)
  {
    hide Strip;
    LadderTwice(s, l, LadderBuilt(key), LadderPreview);
    assert Sound(s.row.value.(hls := Available, hlsKey := Some(key)));
  }

  /** and then with its preview. */
  lemma PreviewIsRecorded(s: State, l: nat, preview: string)
    requires Has(s, Done) && s.row.value.hls.Available? && Ladder(s, l, LadderPreview) && Strip(preview) != ""
    ensures Do(s, PreviewWrites(l, preview))
            == s.(row := Some(s.row.value.(previewKey := Some(preview))), ladders := s.ladders[l := LadderSpent])
  {
    hide Strip;
    UpdatesKeepSound(s.row.value, preview, preview);
  }

  /** One whose worker is stopped goes back to its queue, twice at most; one that fails
      is settled, and the video stands without it. */
  lemma LadderRaisesOnce(s: State, l: nat, n: nat, stopping: bool)
    requires Has(s, Done) && s.row.value.hls.Pending? && Ladder(s, l, LadderBuilding(n))
    ensures stopping && n < 2 ==> Do(s, LadderRaises(l, stopping)) == PutLadder(s, l, LadderWaiting(n + 1))
    ensures !stopping || n >= 2 ==>
              Do(Do(s, LadderRaises(l, stopping)), LadderWrites(l))
              == PutLadder(s, l, LadderSpent).(row := Some(s.row.value.(hls := Unavailable)), settlements := s.settlements + 1)
  {
    LadderTwice(s, l, LadderFails, LadderSpent);
    NoKeyYet(s.row.value);
    hide Strip;
    UpdatesKeepSound(s.row.value, STALE, "k");
  }

  /** A ladder that comes too late for its row writes nothing. */
  lemma LateLadderWritesNothing(s: State, l: nat, key: string)
    requires Ladder(s, l, LadderBuilt(key)) && (s.row.Some? ==> !s.row.value.status.Done? || !s.row.value.hls.Pending?)
    ensures Do(s, LadderWrites(l)) == PutLadder(s, l, LadderSpent)
  {
    hide Strip;
  }

  // --- The owner and the reaper -----------------------------------------------------------

  /** A retry puts a failed job back as a new one, with an entry of its own. */
  lemma Retries(s: State)
    requires Has(s, Failed) && s.retry.None?
    ensures Do(Do(Do(s, RetryPrepares), RetryEnqueues), RetryCommits)
            == s.(row := Some(Created), deliveries := s.deliveries + [Waiting(0)], last := Some(|s.deliveries|),
                  retries := s.retries + 1)
  {
    RequeuedIsNew(s.row.value);
  }

  /** Any other job cannot be retried. */
  lemma NothingToRetry(s: State)
    requires s.retry.None? && (s.row.Some? ==> !s.row.value.status.Failed?)
    ensures Do(Do(Do(s, RetryPrepares), RetryEnqueues), RetryCommits) == s
  {
  }

  /** The reaper fails a job only while it is processing. */
  lemma ReaperGivesUp(s: State)
    requires s.row.Some? ==> Sound(s.row.value)
    ensures Do(s, ReaperFails)
            == if Has(s, Processing) then s.(row := Some(FailedRow("worker" + " stopped responding; job was not completed"))) else s
  {
    if s.row.Some? {
      StaleIsText();
      hide Btrim;
      assert MarkStaleFailed(s.row.value).Some? ==> Checks(MarkStaleFailed(s.row.value).value);
    }
  }

  /** It settles a ladder only while its row waits for it. */
  lemma ReaperDropsIt(s: State)
    requires s.row.Some? ==> Sound(s.row.value)
    ensures Do(s, ReaperDropsLadder)
            == if Has(s, Done) && s.row.value.hls.Pending?
               then s.(row := Some(s.row.value.(hls := Unavailable)), settlements := s.settlements + 1) else s
  {
    hide Btrim;
    if s.row.Some? && s.row.value.hls.Pending? {
      NoKeyYet(s.row.value);
    }
  }

  /** What is put in the queues, and a delete. */
  lemma Queues(s: State)
    ensures var more := s.(deliveries := s.deliveries + [Waiting(0)], last := Some(|s.deliveries|));
            && Do(s, ReaperEnqueues) == more
            && Do(s, CreatorEnqueues) == if s.creating then more.(creating := false) else s
    ensures Do(s, ReaperEnqueuesLadder) == s.(ladders := s.ladders + [LadderWaiting(0)])
    ensures s.retry.None? ==> Do(s, Deletes) == s.(row := None)
  {
  }

  // --- From a new upload to its end --------------------------------------------------------

  lemma RunAlong(s: State, e: Event, rest: seq<Event>)
    ensures Run(s, [e] + rest) == Run(Do(s, e), rest)
  {
    assert ([e] + rest)[1..] == rest;
  }

  lemma RunTwo(s: State, a: Event, b: Event, rest: seq<Event>)
    ensures Run(s, [a, b] + rest) == Run(Do(Do(s, a), b), rest)
  {
    hide Run;
    assert [a, b] + rest == [a] + ([b] + rest);
    RunAlong(s, a, [b] + rest);
    RunAlong(Do(s, a), b, rest);
  }

  lemma OnlyOne()
    ensures forall x: Delivery, y: Delivery :: [x][0 := y] == [y]
    ensures forall x: LadderEntry, y: LadderEntry :: [x][0 := y] == [y]
    ensures forall x: Delivery :: [] + [x] == [x]
    ensures forall x: LadderEntry :: [] + [x] == [x]
  {
  }

  lemma RunEnds(s: State)
    ensures Run(s, []) == s
  {
  }

  /** A new upload, undisturbed: queued, claimed, encoded, its ladder handed on, built and
      recorded, its preview recorded. */
  lemma UploadIsProcessed(result: Result, key: string, preview: string)
    requires SoundResult(result) && !BlankKeys(result) && result.ladderPending && result.width.Some? && result.height.Some?
    requires Strip(key) != "" && Strip(preview) != ""
    ensures Run(Begun, [CreatorEnqueues] + ([Pop(0), Claim(0)] + ([StepReturns(0, result), Write(0)] + ([HandOff(0, true)]
                       + ([LadderPops(0), LadderReads(0)] + ([LadderReturns(0, key), LadderWrites(0)] + ([PreviewWrites(0, preview)] + [])))))))
            == State(Some(Row(Done, Some(result.outputKey), Some(key), Available, Some(preview), result.thumbnailKey,
                              result.width, result.height, result.duration, None)),
                     None, false, [Spent(0)], Some(0), [LadderSpent], 1, 0, 0, 1)
  {
    OnlyOne();
    hide Do, Run, Strip, BlankKeys;
    var rest6 := [PreviewWrites(0, preview)] + [];
    var rest5 := [LadderReturns(0, key), LadderWrites(0)] + rest6;
    var rest4 := [LadderPops(0), LadderReads(0)] + rest5;
    var rest3 := [HandOff(0, true)] + rest4;
    var rest2 := [StepReturns(0, result), Write(0)] + rest3;
    Queues(Begun);
    RunAlong(Begun, CreatorEnqueues, [Pop(0), Claim(0)] + rest2);
    var a := State(Some(Created), None, false, [Waiting(0)], Some(0), [], 0, 0, 0, 0);
    Claims(a, 0, 0);
    RunTwo(a, Pop(0), Claim(0), rest2);
    var b := State(Some(Created.(status := Processing)), None, false, [Running(0)], Some(0), [], 1, 0, 0, 0);
    Completes(b, 0, 0, result);
    RunTwo(b, StepReturns(0, result), Write(0), rest3);
    var c := b.(row := Some(DoneRow(result)), deliveries := [HandsOff(0)]);
    HandsOn(c, 0, 0);
    RunAlong(c, HandOff(0, true), rest4);
    var d := c.(deliveries := [Spent(0)], ladders := [LadderWaiting(0)]);
    LadderStarts(d, 0, 0);
    RunTwo(d, LadderPops(0), LadderReads(0), rest5);
    var e := d.(ladders := [LadderBuilding(0)]);
    LadderIsRecorded(e, 0, 0, key);
    RunTwo(e, LadderReturns(0, key), LadderWrites(0), rest6);
    var f := e.(row := Some(DoneRow(result).(hls := Available, hlsKey := Some(key))), ladders := [LadderPreview], settlements := 1);
    PreviewIsRecorded(f, 0, preview);
    RunAlong(f, PreviewWrites(0, preview), []);
    RunEnds(Do(f, PreviewWrites(0, preview)));
  }

  /** Claimed and stopped. */
  function StoppedOnce(message: Option<string>): seq<Event> {
    [Pop(0), Claim(0), StepRaises(0, message, true), Write(0), Requeue(0)]
  }

  lemma OneStop(s: State, n: nat, message: Option<string>, rest: seq<Event>)
    requires s.row == Some(Created) && s.retry.None? && s.deliveries == [Waiting(n)] && n < 2
    ensures Run(s, StoppedOnce(message) + rest)
            == Run(s.(deliveries := [Waiting(n + 1)], last := Some(0), claims := s.claims + 1, giveBacks := s.giveBacks + 1), rest)
  {
    OnlyOne();
    hide Do, Run;
    var a := s.(row := Some(Created.(status := Processing)), deliveries := [Running(n)], claims := s.claims + 1);
    Claims(s, 0, n);
    Stops(a, 0, n, message);
    assert StoppedOnce(message) + rest == [Pop(0), Claim(0)] + ([StepRaises(0, message, true), Write(0)] + ([Requeue(0)] + rest));
    RunTwo(s, Pop(0), Claim(0), [StepRaises(0, message, true), Write(0)] + ([Requeue(0)] + rest));
    RunTwo(a, StepRaises(0, message, true), Write(0), [Requeue(0)] + rest);
    RunAlong(Do(Do(a, StepRaises(0, message, true)), Write(0)), Requeue(0), rest);
  }

  /** A new job whose worker is stopped three times over has failed, and is not queued again. */
  lemma ThreeStops(message: Option<string>)
    ensures Run(Begun, [CreatorEnqueues] + (StoppedOnce(message) + (StoppedOnce(message)
                       + ([Pop(0), Claim(0)] + ([StepRaises(0, message, true), Write(0)] + [])))))
            == State(Some(FailedRow("processing" + " was interrupted repeatedly; please try uploading " + "again")),
                     None, false, [Spent(2)], Some(0), [], 3, 2, 0, 0)
  {
    OnlyOne();
    hide Do, Run, StoppedOnce;
    var rest2 := [StepRaises(0, message, true), Write(0)] + [];
    var rest1 := [Pop(0), Claim(0)] + rest2;
    Queues(Begun);
    RunAlong(Begun, CreatorEnqueues, StoppedOnce(message) + (StoppedOnce(message) + rest1));
    var a := State(Some(Created), None, false, [Waiting(0)], Some(0), [], 0, 0, 0, 0);
    OneStop(a, 0, message, StoppedOnce(message) + rest1);
    var b := a.(deliveries := [Waiting(1)], claims := 1, giveBacks := 1);
    OneStop(b, 1, message, rest1);
    var c := b.(deliveries := [Waiting(2)], claims := 2, giveBacks := 2);
    Claims(c, 0, 2);
    RunTwo(c, Pop(0), Claim(0), rest2);
    var d := c.(row := Some(Created.(status := Processing)), deliveries := [Running(2)], claims := 3);
    StopsTooOften(d, 0, 2, message);
    RunTwo(d, StepRaises(0, message, true), Write(0), []);
    RunEnds(Do(Do(d, StepRaises(0, message, true)), Write(0)));
  }
}
