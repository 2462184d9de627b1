/** One job's row with everything that acts on it (app/worker/tasks.py,
    app/repositories/jobs.py, app/api/jobs.py, app/worker/reaper.py): its deliveries from
    the queue, each in the hands of some worker, its ladder's deliveries, an owner's
    retry, the reaper, and delete.

    Every event is one commit, one queue operation or one step ending, so any
    interleaving is a list of events; one that cannot happen now changes nothing.
    Nothing fences a delivery off: a worker that was given up on may still write. */
module JobProtocol {
  import opened Prelude
  import opened Text
  import opened JobRow

  const MAX_INTERRUPTIONS := 3

  // The ends stand apart, as in JobRow's texts, so that a proof sees them without unrolling the rest.
  const TOO_OFTEN := "processing" + " was interrupted repeatedly; please try uploading " + "again"

  /** One queue entry; `n` counts how often RQ has run it again. */
  datatype Delivery =
    | Waiting(n: nat)
    | Claiming(n: nat)
    | Running(n: nat)
    | Raised(n: nat, message: Option<string>)
    | Stopped(n: nat)
    | Returning(n: nat)
    | Finished(n: nat, result: Result)
    | HandsOff(n: nat)
    | DropsLadder(n: nat)
    | Spent(n: nat)
    | Dead(n: nat)

  datatype LadderEntry =
    | LadderWaiting(n: nat)
    | LadderReading(n: nat)
    | LadderBuilding(n: nat)
    | LadderBuilt(hlsKey: string)
    | LadderFails
    | LadderPreview
    | LadderSpent

  /** A retry between its UPDATE, which holds the row's lock, and its commit. */
  datatype Retry = Retry(row: Row, delivery: Option<nat>)

  /** `last` is the entry last put in the queue, or put back. */
  datatype State = State(
    row: Option<Row>,
    retry: Option<Retry>,
    creating: bool,
    deliveries: seq<Delivery>,
    last: Option<nat>,
    ladders: seq<LadderEntry>,
    claims: nat,
    giveBacks: nat,
    retries: nat,
    settlements: nat)

  datatype Event =
    | CreatorEnqueues
    | CreatorFails
    | Pop(d: nat)
    | Claim(d: nat)
    | StepReturns(d: nat, result: Result)
    | StepRaises(d: nat, message: Option<string>, stopping: bool)
    | Write(d: nat)
    | Requeue(d: nat)
    | HandOff(d: nat, ok: bool)
    | Dies(d: nat)
    | LadderPops(l: nat)
    | LadderReads(l: nat)
    | LadderReturns(l: nat, key: string)
    | LadderRaises(l: nat, stopping: bool)
    | LadderWrites(l: nat)
    | PreviewWrites(l: nat, key: string)
    | LadderDies(l: nat)
    | RetryPrepares
    | RetryEnqueues
    | RetryCommits
    | RetryRollsBack
    | ReaperFails
    | ReaperEnqueues
    | ReaperEnqueuesLadder
    | ReaperDropsLadder
    | Deletes

  /** The row is committed; its creator has still to enqueue it. */
  const Begun := State(Some(Created), None, true, [], None, [], 0, 0, 0, 0)

  /** A delivery that is still to claim the job. */
  predicate Live(d: Delivery) { d.Waiting? || d.Claiming? || d.Returning? }

  function Put(s: State, d: nat, to: Delivery): State
    requires d < |s.deliveries|
  {
    s.(deliveries := s.deliveries[d := to])
  }

  function Enqueued(s: State): State {
    s.(deliveries := s.deliveries + [Waiting(0)], last := Some(|s.deliveries|))
  }

  /** What an UPDATE stores: PostgreSQL refuses a row that fails a constraint, and the
      refused statement raises in the worker. */
  function Stored(written: Option<Row>): Option<Row> {
    if written.Some? && Checks(written.value) then written else None
  }

  function Settled(s: State, hls: Hls, hlsKey: Option<string>): State {
    if s.row.Some? && Stored(SettleLadder(s.row.value, hls, hlsKey)).Some?
    then s.(row := SettleLadder(s.row.value, hls, hlsKey), settlements := s.settlements + 1)
    else s
  }

  /** `mark_processing` locks the row before it looks, so an open retry makes it wait. */
  function ClaimStep(s: State, d: nat): State
    requires d < |s.deliveries|
  {
    if !s.deliveries[d].Claiming? || s.retry.Some? then s
    else if s.row.Some? && Stored(MarkProcessing(s.row.value)).Some?
    then Put(s.(row := MarkProcessing(s.row.value), claims := s.claims + 1), d, Running(s.deliveries[d].n))
    else Put(s, d, Spent(s.deliveries[d].n))
  }

  function FailStep(s: State, d: nat, error: string): State
    requires d < |s.deliveries|
  {
    if s.row.Some? && Stored(MarkFailed(s.row.value, error)).Some?
    then Put(s.(row := MarkFailed(s.row.value, error)), d, Spent(s.deliveries[d].n))
    else Put(s, d, Spent(s.deliveries[d].n))
  }

  function GiveBackStep(s: State, d: nat): State
    requires d < |s.deliveries|
  {
    var n := s.deliveries[d].n;
    if n + 1 >= MAX_INTERRUPTIONS then FailStep(s, d, TOO_OFTEN)
    else if s.row.Some? && Stored(MarkInterrupted(s.row.value)).Some?
    then Put(s.(row := MarkInterrupted(s.row.value), giveBacks := s.giveBacks + 1, last := Some(d)), d, Returning(n))
    else Put(s, d, Spent(n))
  }

  predicate BlankKeys(result: Result) {
    Strip(result.outputKey) == "" || (result.thumbnailKey.Some? && Strip(result.thumbnailKey.value) == "")
  }

  function FinishStep(s: State, d: nat): State
    requires d < |s.deliveries| && s.deliveries[d].Finished?
  {
    var n, result := s.deliveries[d].n, s.deliveries[d].result;
    if !BlankKeys(result) && s.row.Some? && Stored(MarkDone(s.row.value, result)).Some?
    then Put(s.(row := MarkDone(s.row.value, result)), d, if result.ladderPending then HandsOff(n) else Spent(n))
    else Put(s, d, Spent(n))
  }

  function WriteStep(s: State, d: nat): State
    requires d < |s.deliveries|
  {
    match s.deliveries[d]
    case Raised(_, message) => FailStep(s, d, ReadableError(message))
    case Stopped(_) => GiveBackStep(s, d)
    case Finished(_, _) => FinishStep(s, d)
    case DropsLadder(n) => Put(Settled(s, Unavailable, None), d, Spent(n))
    case _ => s
  }

  function DeliveryStep(s: State, e: Event, d: nat): State
    requires d < |s.deliveries|
  {
    var now := s.deliveries[d];
    match e
    case Pop(_) => if now.Waiting? then Put(s, d, Claiming(now.n)) else s
    case Claim(_) => ClaimStep(s, d)
    case StepReturns(_, result) => if now.Running? then Put(s, d, Finished(now.n, result)) else s
    case StepRaises(_, message, stopping) =>
      if !now.Running? then s else Put(s, d, if stopping then Stopped(now.n) else Raised(now.n, message))
    case Write(_) => WriteStep(s, d)
    case Requeue(_) =>
      // RQ runs an entry again while its own count allows it.
      if !now.Returning? then s
      else if now.n < MAX_INTERRUPTIONS then Put(s.(last := Some(d)), d, Waiting(now.n + 1))
      else Put(s, d, Spent(now.n + 1))
    case HandOff(_, ok) =>
      if !now.HandsOff? then s
      else if ok then Put(s.(ladders := s.ladders + [LadderWaiting(0)]), d, Spent(now.n))
      else Put(s, d, DropsLadder(now.n))
    case Dies(_) => if now.Spent? || now.Dead? then s else Put(s, d, Dead(GivenBack(now)))
    case _ => s
  }

  function PutLadder(s: State, l: nat, to: LadderEntry): State
    requires l < |s.ladders|
  {
    s.(ladders := s.ladders[l := to])
  }

  function LadderWriteStep(s: State, l: nat): State
    requires l < |s.ladders|
  {
    match s.ladders[l]
    case LadderBuilt(key) =>
      if Strip(key) == "" then PutLadder(s, l, LadderSpent)
      else
        var t := Settled(s, Available, Some(key));
        PutLadder(t, l, if t.settlements > s.settlements then LadderPreview else LadderSpent)
    case LadderFails => PutLadder(Settled(s, Unavailable, None), l, LadderSpent)
    case _ => s
  }

  function PreviewStep(s: State, l: nat, key: string): State
    requires l < |s.ladders|
  {
    if !s.ladders[l].LadderPreview? then s
    else if Strip(key) != "" && s.row.Some? && Stored(MarkPreviewReady(s.row.value, key)).Some?
    then PutLadder(s.(row := MarkPreviewReady(s.row.value, key)), l, LadderSpent)
    else PutLadder(s, l, LadderSpent)
  }

  function LadderStep(s: State, e: Event, l: nat): State
    requires l < |s.ladders|
  {
    var now := s.ladders[l];
    match e
    case LadderPops(_) => if now.LadderWaiting? then PutLadder(s, l, LadderReading(now.n)) else s
    case LadderReads(_) =>
      if !now.LadderReading? then s
      else if s.row.None? || !s.row.value.status.Done? || !s.row.value.hls.Pending? then PutLadder(s, l, LadderSpent)
      else if s.row.value.width.None? || s.row.value.height.None? then PutLadder(s, l, LadderFails)
      else PutLadder(s, l, LadderBuilding(now.n))
    case LadderReturns(_, key) => if now.LadderBuilding? then PutLadder(s, l, LadderBuilt(key)) else s
    case LadderRaises(_, stopping) =>
      if !now.LadderBuilding? then s
      else PutLadder(s, l, if stopping && now.n + 1 < MAX_INTERRUPTIONS then LadderWaiting(now.n + 1) else LadderFails)
    case LadderWrites(_) => LadderWriteStep(s, l)
    case PreviewWrites(_, key) => PreviewStep(s, l, key)
    case LadderDies(_) => PutLadder(s, l, LadderSpent)
    case _ => s
  }

  /** The owner's retry: UPDATE, enqueue, commit; or a rollback at any point. */
  function RetryStep(s: State, e: Event): State {
    match e
    case RetryPrepares =>
      if s.retry.None? && s.row.Some? && Stored(PrepareRetry(s.row.value)).Some?
      then s.(retry := Some(Retry(PrepareRetry(s.row.value).value, None)))
      else s
    case RetryEnqueues =>
      if s.retry.Some? && s.retry.value.delivery.None?
      then Enqueued(s).(retry := Some(s.retry.value.(delivery := Some(|s.deliveries|))))
      else s
    case RetryCommits =>
      if s.retry.Some? && s.retry.value.delivery.Some?
      then s.(row := Some(s.retry.value.row), retry := None, retries := s.retries + 1)
      else s
    case RetryRollsBack => s.(retry := None)
    case _ => s
  }

  /** The creator, the reaper and delete. The reaper acts on what it read before, so its
      queue operations can come at any time; a delete waits for an open retry's lock. */
  function OtherStep(s: State, e: Event): State {
    match e
    case CreatorEnqueues => if s.creating then Enqueued(s).(creating := false) else s
    case CreatorFails => if s.creating then s.(creating := false) else s
    case ReaperFails =>
      if s.row.Some? && Stored(MarkStaleFailed(s.row.value)).Some? then s.(row := MarkStaleFailed(s.row.value)) else s
    case ReaperEnqueues => Enqueued(s)
    case ReaperEnqueuesLadder => s.(ladders := s.ladders + [LadderWaiting(0)])
    case ReaperDropsLadder => Settled(s, Unavailable, None)
    case Deletes => if s.retry.Some? then s else s.(row := None)
    case _ => s
  }

  predicate OfDelivery(e: Event) {
    e.Pop? || e.Claim? || e.StepReturns? || e.StepRaises? || e.Write? || e.Requeue? || e.HandOff? || e.Dies?
  }

  predicate OfLadder(e: Event) {
    e.LadderPops? || e.LadderReads? || e.LadderReturns? || e.LadderRaises? || e.LadderWrites? || e.PreviewWrites? || e.LadderDies?
  }

  predicate OfRetry(e: Event) {
    e.RetryPrepares? || e.RetryEnqueues? || e.RetryCommits? || e.RetryRollsBack?
  }

  function Do(s: State, e: Event): State {
    if OfDelivery(e) then (if e.d < |s.deliveries| then DeliveryStep(s, e, e.d) else s)
    else if OfLadder(e) then (if e.l < |s.ladders| then LadderStep(s, e, e.l) else s)
    else if OfRetry(e) then RetryStep(s, e)
    else OtherStep(s, e)
  }

  function Run(s: State, events: seq<Event>): State
    decreases |events|
  {
    if events == [] then s else Run(Do(s, events[0]), events[1..])
  }

  // --- What every step keeps -----------------------------------------------------

  function GivenBack(d: Delivery): nat {
    d.n + if d.Returning? then 1 else 0
  }

  function AllGivenBack(ds: seq<Delivery>): nat {
    if ds == [] then 0 else GivenBack(ds[0]) + AllGivenBack(ds[1..])
  }

  function Queued1(row: Option<Row>): nat {
    if row.Some? && row.value.status.Queued? then 1 else 0
  }

  /** The job is to be claimed, or will be once the open retry commits. */
  predicate Due(s: State) {
    Queued1(s.row) == 1 || (s.retry.Some? && s.retry.value.delivery.Some?)
  }

  predicate RowOk(s: State) {
    && (s.row.Some? ==> Sound(s.row.value))
    && s.settlements <= 1
    && (s.row.Some? && s.row.value.hls.Pending? ==> s.settlements == 0)
    && (s.row.Some? && !s.row.value.status.Done? ==> s.settlements == 0)
  }

  predicate RetryOk(s: State) {
    s.retry.Some? ==>
      && s.row.Some? && s.row.value.status.Failed? && Some(s.retry.value.row) == PrepareRetry(s.row.value)
      && (s.retry.value.delivery.Some? ==>
            var d := s.retry.value.delivery.value;
            d < |s.deliveries| && (s.deliveries[d].Waiting? || s.deliveries[d].Claiming? || s.deliveries[d].Dead?))
  }

  predicate Counted(s: State) {
    && (s.row.Some? ==> s.claims + Queued1(s.row) == 1 + s.giveBacks + s.retries)
    && s.giveBacks == AllGivenBack(s.deliveries)
    && (forall i: nat :: i < |s.deliveries| ==> GivenBack(s.deliveries[i]) < MAX_INTERRUPTIONS)
  }

  /** While the job is due, the entry last queued is still to claim it, or has died. */
  predicate NotForgotten(s: State) {
    && (s.last.None? <==> s.deliveries == [])
    && (s.last.Some? ==> s.last.value < |s.deliveries|)
    && (s.last.Some? && Due(s) ==> Live(s.deliveries[s.last.value]) || s.deliveries[s.last.value].Dead?)
  }

  predicate Inv(s: State) {
    RowOk(s) && RetryOk(s) && Counted(s) && NotForgotten(s)
  }

  lemma {:induction false} SumPut(ds: seq<Delivery>, d: nat, to: Delivery)
    requires d < |ds|
    ensures AllGivenBack(ds[d := to]) == AllGivenBack(ds) - GivenBack(ds[d]) + GivenBack(to)
  {
    if d == 0 {
      assert ds[0 := to][1..] == ds[1..];
    } else {
      assert ds[d := to][1..] == ds[1..][d - 1 := to];
      SumPut(ds[1..], d - 1, to);
    }
  }

  lemma {:induction false} SumAppend(ds: seq<Delivery>, d: Delivery)
    ensures AllGivenBack(ds + [d]) == AllGivenBack(ds) + GivenBack(d)
  {
    if ds == [] {
      assert AllGivenBack([d]) == GivenBack(d) + AllGivenBack([]);
    } else {
      assert (ds + [d])[1..] == ds[1..] + [d];
      SumAppend(ds[1..], d);
    }
  }

  /** A step of one delivery, whatever it wrote, keeps the invariant if it may. */
  predicate Allowed(s: State, t: State, d: nat, to: Delivery)
    requires d < |s.deliveries|
  {
    var from := s.deliveries[d];
    && t == s.(row := t.row, claims := t.claims, giveBacks := t.giveBacks, settlements := t.settlements,
               last := t.last, ladders := t.ladders, deliveries := s.deliveries[d := to])
    && (t.row.Some? ==> t.claims + Queued1(t.row) == 1 + t.giveBacks + t.retries)
    && t.giveBacks - GivenBack(to) == s.giveBacks - GivenBack(from)
    && GivenBack(to) < MAX_INTERRUPTIONS
    && (t.last == s.last || t.last == Some(d))
    && (Due(t) ==> if t.last == Some(d) then Live(to) || to.Dead? else Due(s))
    && (s.retry.Some? ==> t.row == s.row)
    && (s.retry.Some? && (from.Waiting? || from.Claiming? || from.Dead?) ==> to.Waiting? || to.Claiming? || to.Dead?)
  }

  lemma AllowedKeepsInv(s: State, t: State, d: nat, to: Delivery)
    requires Inv(s) && RowOk(t) && d < |s.deliveries| && Allowed(s, t, d, to)
    ensures Inv(t)
  {
    SumPut(s.deliveries, d, to);
  }

  lemma TooOftenIsText()
    ensures Strip(TOO_OFTEN) != ""
  {
    assert TOO_OFTEN[0] == 'p' && TOO_OFTEN[|TOO_OFTEN| - 1] == 'n';
    assert Trimmed(TOO_OFTEN);
  }

  lemma FailKeepsInv(s: State, d: nat, error: string)
    requires Inv(s) && d < |s.deliveries| && Strip(error) != ""
    requires s.deliveries[d].Raised? || s.deliveries[d].Stopped?
    ensures Inv(FailStep(s, d, error))
  {
    if s.row.Some? {
      UpdatesKeepSound(s.row.value, error, "k");
    }
    AllowedKeepsInv(s, FailStep(s, d, error), d, Spent(s.deliveries[d].n));
  }

  lemma GiveBackKeepsInv(s: State, d: nat)
    requires Inv(s) && d < |s.deliveries| && s.deliveries[d].Stopped?
    ensures Inv(GiveBackStep(s, d))
  {
    var n := s.deliveries[d].n;
    if n + 1 >= MAX_INTERRUPTIONS {
      TooOftenIsText();
      FailKeepsInv(s, d, TOO_OFTEN);
    } else {
      var t := GiveBackStep(s, d);
      if s.row.Some? {
        UpdatesKeepSound(s.row.value, TOO_OFTEN, "k");
      }
      AllowedKeepsInv(s, t, d, t.deliveries[d]);
    }
  }

  lemma FinishKeepsInv(s: State, d: nat)
    requires Inv(s) && d < |s.deliveries| && s.deliveries[d].Finished?
    ensures Inv(FinishStep(s, d))
  {
    var t := FinishStep(s, d);
    if s.row.Some? && s.row.value.status.Processing? {
      DoneIsSoundIff(s.row.value, s.deliveries[d].result);
    }
    AllowedKeepsInv(s, t, d, t.deliveries[d]);
  }

  lemma ClaimKeepsInv(s: State, d: nat)
    requires Inv(s) && d < |s.deliveries|
    ensures Inv(ClaimStep(s, d))
  {
    var t := ClaimStep(s, d);
    if s.row.Some? && s.row.value.status.Queued? {
      UpdatesKeepSound(s.row.value, STALE, "k");
    }
    if t != s {
      AllowedKeepsInv(s, t, d, t.deliveries[d]);
    }
  }

  /** A ladder settles once, and only while the row waits for it. */
  lemma SettledKeepsInv(s: State, hls: Hls, hlsKey: Option<string>)
    requires Inv(s) && (if hlsKey.Some? then hls.Available? else hls.Unavailable?)
    ensures Inv(Settled(s, hls, hlsKey))
    ensures s.retry.Some? ==> Settled(s, hls, hlsKey) == s
    ensures Settled(s, hls, hlsKey).deliveries == s.deliveries
    ensures Settled(s, hls, hlsKey).ladders == s.ladders
  {
    if s.row.Some? {
      UpdatesKeepSound(s.row.value, STALE, if hlsKey.Some? then hlsKey.value else "k");
    }
  }

  lemma MoveKeepsInv(s: State, t: State, d: nat, to: Delivery)
    requires Inv(s) && d < |s.deliveries|
    requires t == Put(s, d, to).(last := t.last, ladders := t.ladders)
    requires GivenBack(to) == GivenBack(s.deliveries[d])
    requires t.last == s.last || (t.last == Some(d) && Live(to))
    requires var from := s.deliveries[d];
             && (Live(from) || from.Dead? ==> Live(to) || to.Dead?)
             && (from.Waiting? || from.Claiming? || from.Dead? ==> to.Waiting? || to.Claiming? || to.Dead?)
    ensures Inv(t)
  {
    AllowedKeepsInv(s, t, d, to);
  }

  lemma WriteKeepsInv(s: State, d: nat)
    requires Inv(s) && d < |s.deliveries|
    ensures Inv(WriteStep(s, d))
  {
    hide Inv, FailStep, GiveBackStep, FinishStep, Settled;
    match s.deliveries[d]
    case Raised(_, message) =>
      ReadableErrorFits(message);
      FailKeepsInv(s, d, ReadableError(message));
    case Stopped(_) => GiveBackKeepsInv(s, d);
    case Finished(_, _) => FinishKeepsInv(s, d);
    case DropsLadder(n) =>
      SettledKeepsInv(s, Unavailable, None);
      MoveKeepsInv(Settled(s, Unavailable, None), WriteStep(s, d), d, Spent(n));
    case _ =>
  }

  lemma DeliveryKeepsInv(s: State, e: Event, d: nat)
    requires Inv(s) && d < |s.deliveries|
    ensures Inv(DeliveryStep(s, e, d))
  {
    var t := DeliveryStep(s, e, d);
    assert GivenBack(s.deliveries[d]) < MAX_INTERRUPTIONS;
    hide Inv, ClaimStep, WriteStep;
    if e.Claim? {
      ClaimKeepsInv(s, d);
    } else if e.Write? {
      WriteKeepsInv(s, d);
    } else if t != s {
      MoveKeepsInv(s, t, d, t.deliveries[d]);
    }
  }

  lemma LaddersKeepInv(s: State, ladders: seq<LadderEntry>)
    requires Inv(s)
    ensures Inv(s.(ladders := ladders))
  {
  }

  lemma LadderWriteKeepsInv(s: State, l: nat)
    requires Inv(s) && l < |s.ladders|
    ensures Inv(LadderWriteStep(s, l))
  {
    hide Inv, Settled;
    var t := LadderWriteStep(s, l);
    match s.ladders[l]
    case LadderBuilt(key) =>
      if Strip(key) == "" {
        LaddersKeepInv(s, t.ladders);
      } else {
        SettledKeepsInv(s, Available, Some(key));
        LaddersKeepInv(Settled(s, Available, Some(key)), t.ladders);
      }
    case LadderFails =>
      SettledKeepsInv(s, Unavailable, None);
      LaddersKeepInv(Settled(s, Unavailable, None), t.ladders);
    case _ =>
  }

  lemma PreviewKeepsInv(s: State, l: nat, key: string)
    requires Inv(s) && l < |s.ladders|
    ensures Inv(PreviewStep(s, l, key))
  {
    if s.row.Some? {
      UpdatesKeepSound(s.row.value, STALE, key);
    }
  }

  lemma LadderKeepsInv(s: State, e: Event, l: nat)
    requires Inv(s) && l < |s.ladders|
    ensures Inv(LadderStep(s, e, l))
  {
    hide Inv, LadderWriteStep, PreviewStep;
    if e.LadderWrites? {
      LadderWriteKeepsInv(s, l);
    } else if e.PreviewWrites? {
      PreviewKeepsInv(s, l, e.key);
    } else {
      LaddersKeepInv(s, LadderStep(s, e, l).ladders);
    }
  }

  lemma RetryKeepsInv(s: State, e: Event)
    requires Inv(s)
    ensures Inv(RetryStep(s, e))
  {
    var t := RetryStep(s, e);
    if s.row.Some? {
      UpdatesKeepSound(s.row.value, STALE, "k");
    }
    SumAppend(s.deliveries, Waiting(0));
  }

  lemma EnqueuedKeepsInv(s: State)
    requires Inv(s)
    ensures Inv(Enqueued(s)) && Inv(Enqueued(s).(creating := false))
  {
    SumAppend(s.deliveries, Waiting(0));
  }

  lemma ReaperFailsKeepsInv(s: State)
    requires Inv(s)
    ensures Inv(OtherStep(s, ReaperFails))
  {
    if s.row.Some? {
      UpdatesKeepSound(s.row.value, STALE, "k");
    }
  }

  lemma OtherKeepsInv(s: State, e: Event)
    requires Inv(s)
    ensures Inv(OtherStep(s, e))
  {
    if e.ReaperFails? {
      ReaperFailsKeepsInv(s);
    } else if e.CreatorEnqueues? || e.ReaperEnqueues? {
      EnqueuedKeepsInv(s);
    } else if e.ReaperDropsLadder? {
      SettledKeepsInv(s, Unavailable, None);
    } else if e.ReaperEnqueuesLadder? {
      LaddersKeepInv(s, OtherStep(s, e).ladders);
    }
  }

  lemma StepKeepsInv(s: State, e: Event)
    requires Inv(s)
    ensures Inv(Do(s, e))
  {
    hide Inv, DeliveryStep, LadderStep, RetryStep, OtherStep;
    if OfDelivery(e) {
      if e.d < |s.deliveries| { DeliveryKeepsInv(s, e, e.d); }
    } else if OfLadder(e) {
      if e.l < |s.ladders| { LadderKeepsInv(s, e, e.l); }
    } else if OfRetry(e) {
      RetryKeepsInv(s, e);
    } else {
      OtherKeepsInv(s, e);
    }
  }

  lemma {:induction false} RunKeepsInv(s: State, events: seq<Event>)
    requires Inv(s)
    ensures Inv(Run(s, events))
    decreases |events|
  {
    hide Inv, Do;
    if events != [] {
      StepKeepsInv(s, events[0]);
      RunKeepsInv(Do(s, events[0]), events[1..]);
    }
  }

  lemma Reachable(events: seq<Event>)
    ensures Inv(Run(Begun, events))
  {
    RunKeepsInv(Begun, events);
  }

  // --- What it comes to, over every run --------------------------------------------

  /** A deleted row stays deleted; a done one stays done until then, its output fixed,
      and its ladder fixed once it has settled. */
  predicate Final(before: Option<Row>, after: Option<Row>) {
    && (before.None? ==> after.None?)
    && (before.Some? && before.value.status.Done? && after.Some? ==>
          && after.value.status.Done?
          && after.value.outputKey == before.value.outputKey
          && (!before.value.hls.Pending? ==> after.value.hls == before.value.hls && after.value.hlsKey == before.value.hlsKey))
  }

  lemma WriteIsFinal(s: State, d: nat)
    requires d < |s.deliveries|
    ensures Final(s.row, WriteStep(s, d).row)
  {
  }

  lemma DeliveryIsFinal(s: State, e: Event, d: nat)
    requires d < |s.deliveries|
    ensures Final(s.row, DeliveryStep(s, e, d).row)
  {
    hide WriteStep;
    WriteIsFinal(s, d);
  }

  lemma StepIsFinal(s: State, e: Event)
    requires RetryOk(s)
    ensures Final(s.row, Do(s, e).row)
  {
    hide DeliveryStep;
    if OfDelivery(e) && e.d < |s.deliveries| {
      DeliveryIsFinal(s, e, e.d);
    }
  }

  lemma {:induction false} RunIsFinal(s: State, events: seq<Event>)
    requires Inv(s)
    ensures Final(s.row, Run(s, events).row)
    decreases |events|
  {
    if events != [] {
      StepIsFinal(s, events[0]);
      hide Inv, Do;
      StepKeepsInv(s, events[0]);
      RunIsFinal(Do(s, events[0]), events[1..]);
    }
  }

  /** Done is left only by delete, and `output_key` and `hls_key` never change once
      set, however a run goes on. */
  lemma DoneIsFinal(events: seq<Event>, more: seq<Event>)
    ensures Final(Run(Begun, events).row, Run(Run(Begun, events), more).row)
  {
    Reachable(events);
    RunIsFinal(Run(Begun, events), more);
  }

  /** Every row that is ever stored passes the constraints, whatever the steps return:
      an output exactly when done, an error that is not blank exactly when failed, a
      ladder's key exactly when it is available, and nothing of a result before it is done. */
  lemma RowIsAlwaysSound(events: seq<Event>)
    ensures var s := Run(Begun, events); s.row.Some? ==> Sound(s.row.value)
    ensures var s := Run(Begun, events);
            s.row.Some? ==>
              var r := s.row.value;
              && (r.outputKey.Some? <==> r.status == Done) && (r.error.Some? <==> r.status == Failed)
              && (r.error.Some? ==> Btrim(r.error.value) != "") && (r.hlsKey.Some? <==> r.hls == Available)
              && (r.previewKey.Some? ==> r.hlsKey.Some?) && (r.hls == Available ==> r.status == Done)
              && (r.width.Some? ==> r.width.value > 0 && r.status == Done)
              && (r.height.Some? ==> r.height.value > 0 && r.status == Done)
              && (r.duration.Some? ==> r.duration.value > 0.0 && r.status == Done)
    ensures Run(Begun, events).settlements <= 1
  {
    Reachable(events);
  }

  /** What a delivery's write would store, if its WHERE clause matches. */
  function WriteUpdate(r: Row, now: Delivery): Option<Row> {
    match now
    case Raised(_, message) => MarkFailed(r, ReadableError(message))
    case Stopped(n) => if n + 1 >= MAX_INTERRUPTIONS then MarkFailed(r, TOO_OFTEN) else MarkInterrupted(r)
    case Finished(_, result) => if BlankKeys(result) then None else MarkDone(r, result)
    case DropsLadder(_) => SettleLadder(r, Unavailable, None)
    case _ => None
  }

  function LadderUpdate(r: Row, now: LadderEntry): Option<Row> {
    match now
    case LadderBuilt(key) => if Strip(key) == "" then None else SettleLadder(r, Available, Some(key))
    case LadderFails => SettleLadder(r, Unavailable, None)
    case _ => None
  }

  /** What the event's UPDATE would store; None if there is none or none matches. */
  function Update(s: State, e: Event): Option<Row> {
    if s.row.None? then None
    else
      var r := s.row.value;
      match e
      case Claim(d) => if d < |s.deliveries| && s.deliveries[d].Claiming? && s.retry.None? then MarkProcessing(r) else None
      case Write(d) => if d < |s.deliveries| then WriteUpdate(r, s.deliveries[d]) else None
      case LadderWrites(l) => if l < |s.ladders| then LadderUpdate(r, s.ladders[l]) else None
      case PreviewWrites(l, key) =>
        if l < |s.ladders| && s.ladders[l].LadderPreview? && Strip(key) != "" then MarkPreviewReady(r, key) else None
      case RetryPrepares => if s.retry.None? then PrepareRetry(r) else None
      case ReaperFails => MarkStaleFailed(r)
      case ReaperDropsLadder => SettleLadder(r, Unavailable, None)
      case _ => None
  }

  predicate Passes(written: Option<Row>) { written.Some? && Checks(written.value) }

  lemma WriteIsStored(s: State, d: nat)
    requires d < |s.deliveries|
    ensures WriteStep(s, d).row == if Passes(Update(s, Write(d))) then Update(s, Write(d)) else s.row
  {
    hide Checks, Strip, ReadableError, Transition;
  }

  lemma LadderIsStored(s: State, e: Event, l: nat)
    requires OfLadder(e) && e.l == l < |s.ladders|
    ensures LadderStep(s, e, l).row == if Passes(Update(s, e)) then Update(s, e) else s.row
  {
    hide Checks, Strip;
  }

  /** A step stores what its UPDATE would, unless a constraint refuses it; a retry's is
      kept back until the commit. */
  lemma UpdateIsStored(s: State, e: Event)
    requires !e.RetryCommits? && !e.Deletes?
    ensures e.RetryPrepares? ==> Do(s, e).row == s.row
    ensures e.RetryPrepares? && Passes(Update(s, e)) ==> Do(s, e).retry == Some(Retry(Update(s, e).value, None))
    ensures !e.RetryPrepares? ==> Do(s, e).row == if Passes(Update(s, e)) then Update(s, e) else s.row
  {
    hide Checks, WriteStep, LadderStep, WriteUpdate, LadderUpdate, Transition;
    if e.Write? && e.d < |s.deliveries| {
      WriteIsStored(s, e.d);
    } else if OfLadder(e) && e.l < |s.ladders| {
      LadderIsStored(s, e, e.l);
    }
  }

  /** A finished step is about to be recorded. */
  predicate Completes(s: State, e: Event) {
    && e.Write? && e.d < |s.deliveries| && s.deliveries[e.d].Finished? && !BlankKeys(s.deliveries[e.d].result)
    && s.row.Some? && s.row.value.status.Processing?
  }

  lemma UpdatePasses(s: State, e: Event)
    requires s.row.Some? && Sound(s.row.value) && !Completes(s, e)
    ensures Update(s, e).Some? ==> Checks(Update(s, e).value)
  {
    var r := s.row.value;
    var key := if e.PreviewWrites? then e.key else if e.LadderWrites? && e.l < |s.ladders| && s.ladders[e.l].LadderBuilt? then s.ladders[e.l].hlsKey else "k";
    TooOftenIsText();
    UpdatesKeepSound(r, TOO_OFTEN, key);
    if e.Write? && e.d < |s.deliveries| && s.deliveries[e.d].Raised? {
      ReadableErrorFits(s.deliveries[e.d].message);
      UpdatesKeepSound(r, ReadableError(s.deliveries[e.d].message), key);
    }
    hide ReadableError, Strip;
  }

  /** In no run does the database refuse an UPDATE that matches its row, except
      exactly where a step hands over a result that is not sound. */
  lemma OnlyUnsoundIsRefused(events: seq<Event>, e: Event)
    ensures var s := Run(Begun, events);
            Update(s, e).Some? && !Checks(Update(s, e).value) <==>
              Completes(s, e) && !SoundResult(s.deliveries[e.d].result)
  {
    Reachable(events);
    var s := Run(Begun, events);
    hide Run, Checks, SoundResult, MarkDone;
    if Completes(s, e) {
      DoneIsSoundIff(s.row.value, s.deliveries[e.d].result);
      assert Update(s, e) == MarkDone(s.row.value, s.deliveries[e.d].result);
    } else if s.row.Some? {
      hide Completes;
      UpdatePasses(s, e);
    }
  }

  lemma {:induction false} FewGivenBack(ds: seq<Delivery>)
    requires forall i: nat :: i < |ds| ==> GivenBack(ds[i]) < MAX_INTERRUPTIONS
    ensures AllGivenBack(ds) <= (MAX_INTERRUPTIONS - 1) * |ds|
  {
    if ds != [] {
      FewGivenBack(ds[1..]);
    }
  }

  /** Each claim is paid for by the job's creation, a give-back or a committed retry;
      every entry is given back at most MAX_INTERRUPTIONS - 1 times. */
  lemma ClaimsBalance(events: seq<Event>)
    ensures var s := Run(Begun, events);
            && (s.row.Some? ==> s.claims + (if s.row.value.status.Queued? then 1 else 0) == 1 + s.giveBacks + s.retries)
            && (forall i: nat :: i < |s.deliveries| ==> GivenBack(s.deliveries[i]) <= MAX_INTERRUPTIONS - 1)
            && s.giveBacks <= (MAX_INTERRUPTIONS - 1) * |s.deliveries|
  {
    Reachable(events);
    FewGivenBack(Run(Begun, events).deliveries);
  }

  predicate RetryIsQueued(s: State, d: nat) {
    Inv(s) && s.retry.Some? && s.retry.value.delivery == Some(d) && d < |s.deliveries| && !s.deliveries[d].Dead?
  }

  lemma ClaimWaits(s: State, d: nat)
    requires RetryIsQueued(s, d)
    ensures var t := Do(s, Pop(d));
            && t.row == s.row && t.retry == s.retry && Do(t, Claim(d)) == t
            && d < |t.deliveries| && t.deliveries[d].Claiming?
    ensures s.row.Some? && Sound(s.row.value) && s.row.value.status.Failed?
    ensures Some(s.retry.value.row) == PrepareRetry(s.row.value)
  {
  }

  lemma CommitIsClaimed(s: State, d: nat)
    requires RetryIsQueued(s, d)
    ensures var t := Do(Do(Do(s, Pop(d)), RetryCommits), Claim(d));
            t.row.Some? && t.row.value.status.Processing? && d < |t.deliveries| && t.deliveries[d].Running?
  {
    ClaimWaits(s, d);
    UpdatesKeepSound(s.row.value, STALE, "k");
    UpdatesKeepSound(s.retry.value.row, STALE, "k");
    hide Inv;
    var a := Do(s, Pop(d));
    hide Sound, Checks;
    var b := Do(a, RetryCommits);
    assert b.row == PrepareRetry(s.row.value) && b.retry.None? && b.deliveries == a.deliveries;
  }

  lemma RollbackIsLeftAlone(s: State, d: nat)
    requires RetryIsQueued(s, d)
    ensures var t := Do(Do(Do(s, Pop(d)), RetryRollsBack), Claim(d));
            t.row == s.row && t.row.Some? && t.row.value.status.Failed? && d < |t.deliveries| && t.deliveries[d].Spent?
  {
    ClaimWaits(s, d);
    hide Inv, RetryIsQueued;
    var a := Do(s, Pop(d));
    var b := Do(a, RetryRollsBack);
    assert b.row == s.row && b.retry.None? && b.deliveries == a.deliveries;
  }

  /** A fast worker that takes a retry's entry before the commit waits, and claims the
      job after it; after a rollback it finds the failed row and leaves it. So it goes
      unless that entry itself has died, whatever was lost before. */
  lemma RetryMeetsItsDelivery(events: seq<Event>, d: nat)
    requires var s := Run(Begun, events);
             s.retry.Some? && s.retry.value.delivery == Some(d) && !(d < |s.deliveries| && s.deliveries[d].Dead?)
    ensures var s := Run(Begun, events);
            Do(Do(s, Pop(d)), Claim(d)) == Do(s, Pop(d)) && Do(s, Pop(d)).row == s.row
    ensures var t := Do(Do(Do(Run(Begun, events), Pop(d)), RetryCommits), Claim(d));
            t.row.Some? && t.row.value.status.Processing? && d < |t.deliveries| && t.deliveries[d].Running?
    ensures var s := Run(Begun, events);
            var t := Do(Do(Do(s, Pop(d)), RetryRollsBack), Claim(d));
            t.row == s.row && t.row.Some? && t.row.value.status.Failed? && d < |t.deliveries| && t.deliveries[d].Spent?
  {
    Reachable(events);
    var s := Run(Begun, events);
    assert RetryIsQueued(s, d);
    hide Inv, Do, RetryIsQueued;
    ClaimWaits(s, d);
    CommitIsClaimed(s, d);
    RollbackIsLeftAlone(s, d);
  }

  predicate Claimed(s: State) { s.row.Some? && s.row.value.status.Processing? }

  lemma LiveIsClaimable(s: State, d: nat)
    requires Inv(s) && s.row.Some? && s.row.value.status.Queued? && d < |s.deliveries|
    ensures Claimed(Do(Do(Do(s, Requeue(d)), Pop(d)), Claim(d))) <==> Live(s.deliveries[d])
  {
    UpdatesKeepSound(s.row.value, STALE, "k");
    var a := Do(s, Requeue(d));
    assert a.row == s.row && a.retry.None?;
    assert Live(s.deliveries[d]) <==> a.deliveries[d].Waiting? || a.deliveries[d].Claiming?;
    hide Inv, Sound;
    var b := Do(a, Pop(d));
    assert b.row == s.row && b.retry.None? && (Live(s.deliveries[d]) <==> b.deliveries[d].Claiming?);
  }

  /** A queued job is three steps away from a worker through exactly the entries that
      are live, and the entry last queued is one of them unless it has died. */
  lemma QueuedIsClaimable(events: seq<Event>)
    requires var s := Run(Begun, events); s.row.Some? && s.row.value.status.Queued?
    ensures var s := Run(Begun, events);
            && (forall d: nat :: d < |s.deliveries| ==>
                  (Claimed(Run(s, [Requeue(d), Pop(d), Claim(d)])) <==> Live(s.deliveries[d])))
            && (s.last.None? <==> s.deliveries == [])
            && (s.last.Some? ==>
                  && s.last.value < |s.deliveries|
                  && (Live(s.deliveries[s.last.value]) || s.deliveries[s.last.value].Dead?))
  {
    Reachable(events);
    var s := Run(Begun, events);
    hide Do, Run;
    forall d: nat | d < |s.deliveries|
      ensures Claimed(Run(s, [Requeue(d), Pop(d), Claim(d)])) <==> Live(s.deliveries[d])
    {
      LiveIsClaimable(s, d);
      RunThree(s, Requeue(d), Pop(d), Claim(d));
    }
  }

  lemma RunThree(s: State, a: Event, b: Event, c: Event)
    ensures Run(s, [a, b, c]) == Do(Do(Do(s, a), b), c)
  {
    hide Do;
    var x, y := Do(s, a), Do(Do(s, a), b);
    assert [a, b, c][1..] == [b, c] && [b, c][1..] == [c] && [c][1..] == [];
    assert Run(y, [c]) == Run(Do(y, c), []) == Do(y, c);
    assert Run(x, [b, c]) == Run(y, [c]);
  }

  lemma {:induction false} RunConcat(s: State, a: seq<Event>, b: seq<Event>)
    ensures Run(s, a + b) == Run(Run(s, a), b)
    decreases |a|
  {
    hide Do;
    if a == [] {
      assert a + b == b;
    } else {
      assert (a + b)[1..] == a[1..] + b;
      RunConcat(Do(s, a[0]), a[1..], b);
    }
  }
}
