/** A job's row: the CHECK constraints (app/models/job.py) and every conditional update
    of it (app/repositories/jobs.py). Each update is a function from the row it finds to
    the row it writes, `None` when its WHERE clause does not match. */
module JobRow {
  import opened Prelude
  import opened Text

  datatype Status = Queued | Processing | Done | Failed

  datatype Hls = Pending | Available | Unavailable

  datatype Row = Row(
    status: Status,
    outputKey: Option<string>,
    hlsKey: Option<string>,
    hls: Hls,
    previewKey: Option<string>,
    thumbnailKey: Option<string>,
    width: Option<int>,
    height: Option<int>,
    duration: Option<real>,
    error: Option<string>)

  /** What a processing step hands to `mark_done`. */
  datatype Result = Result(
    outputKey: string,
    hlsKey: Option<string>,
    ladderPending: bool,
    width: Option<int>,
    height: Option<int>,
    duration: Option<real>,
    thumbnailKey: Option<string>)

  const Created := Row(Queued, None, None, Pending, None, None, None, None, None, None)

  // --- Text the error column takes -------------------------------------------

  /** PostgreSQL's `btrim`: spaces alone. */
  function Btrim(s: string): string {
    StripRight(StripLeft(s, c => c == ' '), c => c == ' ')
  }

  /** A message the worker accepts is one the constraint accepts. */
  lemma StrippedIsNotBlank(s: string)
    requires Strip(s) != ""
    ensures Btrim(Strip(s)) != ""
  {
    var left := StripLeft(s, IsSpace);
    StripLeftHead(s, IsSpace);
    StripRightHead(left, IsSpace);
    var kept := Strip(s);
    assert kept[0] == left[0] && !IsSpace(kept[0]);
    assert StripLeft(kept, c => c == ' ') == kept;
    StripRightKeepsHead(kept, c => c == ' ');
  }

  const MAX_ERROR_LENGTH := 500

  // The ends stand apart so that a proof sees them without unrolling the rest of the text.
  const UNEXPECTED_FAILURE := "processing" + " failed unexpectedly; please try uploading " + "again"

  /** The message stored for a step that raised: its own when it carries one for the
      user, cut to fit, and a fixed one otherwise. */
  function ReadableError(userMessage: Option<string>): string {
    var message :=
      if userMessage.Some? && Strip(userMessage.value) != "" then Strip(userMessage.value) else UNEXPECTED_FAILURE;
    if |message| > MAX_ERROR_LENGTH
    then StripRight(message[..MAX_ERROR_LENGTH - 3], IsSpace) + "..."
    else message
  }

  /** A failed step's message always fits the column, is never blank, and is stored
      exactly as it was made. */
  lemma ReadableErrorFits(userMessage: Option<string>)
    ensures 0 < |ReadableError(userMessage)| <= MAX_ERROR_LENGTH
    ensures Strip(ReadableError(userMessage)) == ReadableError(userMessage)
  {
    var message :=
      if userMessage.Some? && Strip(userMessage.value) != "" then Strip(userMessage.value) else UNEXPECTED_FAILURE;
    if userMessage.Some? {
      StripTrims(userMessage.value);
    }
    assert UNEXPECTED_FAILURE[0] == 'p' && UNEXPECTED_FAILURE[|UNEXPECTED_FAILURE| - 1] == 'n';
    assert Trimmed(message);
    if |message| > MAX_ERROR_LENGTH {
      StripRightKeepsHead(message[..MAX_ERROR_LENGTH - 3], IsSpace);
      StripRightTail(message[..MAX_ERROR_LENGTH - 3], IsSpace);
    }
    assert Trimmed(ReadableError(userMessage));
  }

  lemma {:induction false} StripRightDrops(s: string, drop: char -> bool)
    ensures var r := StripRight(s, drop); r <= s && forall i :: |r| <= i < |s| ==> drop(s[i])
  {
    if s != [] && drop(s[|s| - 1]) {
      StripRightDrops(s[..|s| - 1], drop);
    }
  }

  /** A step's own message is shown whole where it fits; where it does not, its first 497
      characters, but for spaces at the cut, and three dots. Without one the fixed text. */
  lemma ReadableErrorIs(userMessage: Option<string>)
    ensures var r := ReadableError(userMessage);
            if userMessage.None? || Strip(userMessage.value) == ""
            then r == "processing" + " failed unexpectedly; please try uploading " + "again"
            else
              var own := Strip(userMessage.value);
              if |own| <= 500 then r == own
              else
                var cut := |r| - 3;
                && 0 <= cut <= 497 && r == own[..cut] + "..." && (forall i :: cut <= i < 497 ==> IsSpace(own[i]))
                && (cut > 0 ==> !IsSpace(own[cut - 1]))
  {
    assert |UNEXPECTED_FAILURE| <= 500;
    if userMessage.Some? && |Strip(userMessage.value)| > 500 {
      var first := Strip(userMessage.value)[..497];
      hide Strip;
      StripRightDrops(first, IsSpace);
      StripRightTail(first, IsSpace);
      assert forall i :: 0 <= i < 497 ==> first[i] == Strip(userMessage.value)[i];
    }
  }

  // --- The constraints, and what is true besides ------------------------------

  /** The CHECK constraints over the columns these updates write. */
  predicate Checks(r: Row) {
    && (r.status.Done? <==> r.outputKey.Some?)
    && (r.status.Failed? <==> r.error.Some?)
    && (r.error.Some? ==> Btrim(r.error.value) != "")
    && (r.hls.Available? <==> r.hlsKey.Some?)
    && (r.width.Some? ==> r.width.value > 0)
    && (r.height.Some? ==> r.height.value > 0)
    && (r.duration.Some? ==> r.duration.value > 0.0)
    && (r.previewKey.Some? ==> r.hlsKey.Some?)
  }

  /** The constraints alone are not kept by the updates; this is: a row that is not
      done has nothing a finished one has, and its ladder's state follows its status. */
  predicate Sound(r: Row) {
    && Checks(r)
    && (!r.status.Done? ==>
          r.hlsKey.None? && r.previewKey.None? && r.thumbnailKey.None?
          && r.width.None? && r.height.None? && r.duration.None?
          && (r.hls.Unavailable? <==> r.status.Failed?))
  }

  // --- The updates ------------------------------------------------------------

  function DerivedHls(next: Status, hlsKey: Option<string>): Hls {
    if hlsKey.Some? then Available
    else if next.Done? || next.Failed? then Unavailable
    else Pending
  }

  /** `_transition`: every column but `preview_key` is written. */
  function Transition(r: Row, expected: Status, next: Status, result: Option<Result>, error: Option<string>): Option<Row> {
    if r.status != expected then None
    else
      var hlsKey := if result.Some? then result.value.hlsKey else None;
      Some(Row(
        next,
        if result.Some? then Some(result.value.outputKey) else None,
        hlsKey,
        if result.Some? && result.value.ladderPending then Pending else DerivedHls(next, hlsKey),
        r.previewKey,
        if result.Some? then result.value.thumbnailKey else None,
        if result.Some? then result.value.width else None,
        if result.Some? then result.value.height else None,
        if result.Some? then result.value.duration else None,
        error))
  }

  function MarkProcessing(r: Row): Option<Row> {
    Transition(r, Queued, Processing, None, None)
  }

  function MarkDone(r: Row, result: Result): Option<Row> {
    Transition(r, Processing, Done, Some(result), None)
  }

  function MarkInterrupted(r: Row): Option<Row> {
    Transition(r, Processing, Queued, None, None)
  }

  function MarkFailed(r: Row, error: string): Option<Row> {
    Transition(r, Processing, Failed, None, Some(Strip(error)))
  }

  function SettleLadder(r: Row, hls: Hls, hlsKey: Option<string>): Option<Row> {
    if r.status.Done? && r.hls.Pending? then Some(r.(hls := hls, hlsKey := hlsKey)) else None
  }

  function MarkPreviewReady(r: Row, previewKey: string): Option<Row> {
    if r.status.Done? && r.hls.Available? then Some(r.(previewKey := Some(previewKey))) else None
  }

  function PrepareRetry(r: Row): Option<Row> {
    if r.status.Failed?
    then Some(r.(status := Queued, error := None, outputKey := None, hlsKey := None, hls := Pending))
    else None
  }

  const STALE := "worker" + " stopped responding; job was not completed"

  function MarkStaleFailed(r: Row): Option<Row> {
    if r.status.Processing?
    then Some(r.(status := Failed, error := Some(STALE), hls := Unavailable))
    else None
  }

  lemma StaleIsText()
    ensures Btrim(STALE) != ""
  {
    assert STALE[0] == 'w';
    assert StripLeft(STALE, c => c == ' ') == STALE;
    StripRightKeepsHead(STALE, c => c == ' ');
  }

  /** What a step must hand over for its row to pass the constraints. */
  predicate SoundResult(result: Result) {
    && !(result.ladderPending && result.hlsKey.Some?)
    && (result.width.Some? ==> result.width.value > 0)
    && (result.height.Some? ==> result.height.value > 0)
    && (result.duration.Some? ==> result.duration.value > 0.0)
  }

  /** Finishing a job passes the constraints exactly when its result is sound: above
      all, never a pending ladder together with a ladder's key. */
  lemma DoneIsSoundIff(r: Row, result: Result)
    requires Sound(r) && r.status.Processing?
    ensures MarkDone(r, result).Some?
    ensures Sound(MarkDone(r, result).value) <==> SoundResult(result)
    ensures Checks(MarkDone(r, result).value) <==> SoundResult(result)
  {
  }

  /** Every other update passes them from any sound row, also where it leaves columns
      as they were. */
  lemma UpdatesKeepSound(r: Row, error: string, key: string)
    requires Sound(r) && Strip(error) != ""
    ensures MarkProcessing(r).Some? ==> Sound(MarkProcessing(r).value)
    ensures MarkInterrupted(r).Some? ==> Sound(MarkInterrupted(r).value)
    ensures MarkFailed(r, error).Some? ==> Sound(MarkFailed(r, error).value)
    ensures MarkStaleFailed(r).Some? ==> Sound(MarkStaleFailed(r).value)
    ensures PrepareRetry(r).Some? ==> Sound(PrepareRetry(r).value)
    ensures SettleLadder(r, Available, Some(key)).Some? ==> Sound(SettleLadder(r, Available, Some(key)).value)
    ensures SettleLadder(r, Unavailable, None).Some? ==> Sound(SettleLadder(r, Unavailable, None).value)
    ensures MarkPreviewReady(r, key).Some? ==> Sound(MarkPreviewReady(r, key).value)
  {
    StrippedIsNotBlank(error);
    StaleIsText();
  }

  /** A retried job, and one given back, is exactly like a new one. */
  lemma RequeuedIsNew(r: Row)
    requires Sound(r)
    ensures PrepareRetry(r) == if r.status.Failed? then Some(Created) else None
    ensures MarkInterrupted(r) == if r.status.Processing? then Some(Created) else None
  {
  }

  /** The constraints alone would not do: a row that passes them and yet, once marked
      stale, fails them. */
  lemma ChecksAloneNotInductive()
    ensures exists r: Row :: Checks(r) && r.status.Processing? && !Checks(MarkStaleFailed(r).value)
  {
    var r := Created.(status := Processing, hls := Available, hlsKey := Some("hls/master.m3u8"));
    assert Checks(r) && !Checks(MarkStaleFailed(r).value);
  }
}
