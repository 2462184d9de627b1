/** The jobs table (app/repositories/jobs.py): each method is one conditional UPDATE
    and its commit. Then the table is driven through whole runs of the protocol. */
module JobStore {
  import opened Prelude
  import opened Text
  import opened JobRow
  import opened JobProtocol

  /** How a call ends: NotFound, InvalidTransition and ValueError are what it raises,
      Refused the database's own error, and NoMatch the `None` of the settling updates. */
  datatype Outcome = Updated | NotFound | InvalidTransition | ValueError | Refused | NoMatch

  class JobTable {
    var rows: map<nat, Row>

    ghost predicate Valid()
      reads this
    {
      forall id :: id in rows ==> Sound(rows[id])
    }

    function At(id: nat): Option<Row>
      reads this
    {
      if id in rows then Some(rows[id]) else None
    }

    constructor ()
      ensures rows == map[] && Valid()
    {
      rows := map[];
    }

    method Create(id: nat)
      requires Valid() && id !in rows
      modifies this
      ensures rows == old(rows)[id := Created] && Valid()
    {
      rows := rows[id := Created];
    }

    /** The UPDATE itself; a row that fails a constraint is refused. */
    method Store(id: nat, written: Option<Row>) returns (outcome: Outcome)
      requires Valid() && (written.Some? ==> id in rows && (Checks(written.value) ==> Sound(written.value)))
      modifies this
      ensures Valid()
      ensures outcome == if Passes(written) then Updated else if written.Some? then Refused else NoMatch
      ensures rows == if Passes(written) then old(rows)[id := written.value] else old(rows)
    {
      if written.None? {
        return NoMatch;
      }
      if !Checks(written.value) {
        return Refused;
      }
      rows := rows[id := written.value];
      return Updated;
    }

    /** `_transition` looks again to say why nothing matched. */
    method Explain(id: nat, outcome: Outcome) returns (raised: Outcome)
      ensures raised == if outcome != NoMatch then outcome else if id in rows then InvalidTransition else NotFound
    {
      raised := if outcome != NoMatch then outcome else if id in rows then InvalidTransition else NotFound;
    }

    /** `mark_processing`. */
    method Process(id: nat) returns (outcome: Outcome)
      requires Valid()
      modifies this
      ensures Valid() && outcome in {Updated, NotFound, InvalidTransition}
      ensures outcome == Updated <==> id in old(rows) && old(rows)[id].status == Queued
      ensures outcome == NotFound <==> id !in old(rows)
      ensures rows == if outcome == Updated then old(rows)[id := Created.(status := Processing)] else old(rows)
    {
      if id in rows {
        UpdatesKeepSound(rows[id], "e", "k");
      }
      outcome := Store(id, if id in rows then MarkProcessing(rows[id]) else None);
      outcome := Explain(id, outcome);
    }

    /** `mark_done`. */
    method Finish(id: nat, result: Result) returns (outcome: Outcome)
      requires Valid()
      modifies this
      ensures Valid() && outcome != NoMatch
      ensures outcome == ValueError <==> BlankKeys(result)
      ensures outcome == NotFound <==> !BlankKeys(result) && id !in old(rows)
      ensures outcome == Updated <==>
                !BlankKeys(result) && id in old(rows) && old(rows)[id].status == Processing && SoundResult(result)
      ensures outcome == Refused <==>
                !BlankKeys(result) && id in old(rows) && old(rows)[id].status == Processing && !SoundResult(result)
      ensures rows ==
              if outcome != Updated then old(rows)
              else old(rows)[id := Created.(
                     status := Done, outputKey := Some(result.outputKey), hlsKey := result.hlsKey,
                     hls := if result.hlsKey.Some? then Available else if result.ladderPending then Pending else Unavailable,
                     thumbnailKey := result.thumbnailKey, width := result.width, height := result.height, duration := result.duration)]
    {
      if BlankKeys(result) {
        return ValueError;
      }
      if id in rows && rows[id].status == Processing {
        DoneIsSoundIff(rows[id], result);
      }
      outcome := Store(id, if id in rows then MarkDone(rows[id], result) else None);
      outcome := Explain(id, outcome);
    }

    /** `mark_failed`. */
    method Fail(id: nat, error: string) returns (outcome: Outcome)
      requires Valid()
      modifies this
      ensures Valid() && outcome in {Updated, NotFound, InvalidTransition, ValueError}
      ensures outcome == ValueError <==> Strip(error) == ""
      ensures outcome == NotFound <==> Strip(error) != "" && id !in old(rows)
      ensures outcome == Updated <==> Strip(error) != "" && id in old(rows) && old(rows)[id].status == Processing
      ensures rows ==
              if outcome != Updated then old(rows)
              else old(rows)[id := Created.(status := Failed, error := Some(Strip(error)), hls := Unavailable)]
    {
      if Strip(error) == "" {
        return ValueError;
      }
      if id in rows {
        UpdatesKeepSound(rows[id], error, "k");
      }
      outcome := Store(id, if id in rows then MarkFailed(rows[id], error) else None);
      outcome := Explain(id, outcome);
    }

    /** `mark_interrupted`. */
    method Interrupt(id: nat) returns (outcome: Outcome)
      requires Valid()
      modifies this
      ensures Valid() && outcome in {Updated, NotFound, InvalidTransition}
      ensures outcome == Updated <==> id in old(rows) && old(rows)[id].status == Processing
      ensures outcome == NotFound <==> id !in old(rows)
      ensures rows == if outcome == Updated then old(rows)[id := Created] else old(rows)
    {
      if id in rows {
        UpdatesKeepSound(rows[id], "e", "k");
      }
      outcome := Store(id, if id in rows then MarkInterrupted(rows[id]) else None);
      outcome := Explain(id, outcome);
    }

    /** `prepare_retry` and its commit. */
    method Retry(id: nat) returns (outcome: Outcome)
      requires Valid()
      modifies this
      ensures Valid() && outcome in {Updated, NotFound, InvalidTransition}
      ensures outcome == Updated <==> id in old(rows) && old(rows)[id].status == Failed
      ensures outcome == NotFound <==> id !in old(rows)
      ensures rows == if outcome == Updated then old(rows)[id := Created] else old(rows)
    {
      if id in rows {
        UpdatesKeepSound(rows[id], "e", "k");
      }
      outcome := Store(id, if id in rows then PrepareRetry(rows[id]) else None);
      outcome := Explain(id, outcome);
    }

    /** `mark_ladder_ready` with a key, `mark_ladder_unavailable` without. */
    method Settle(id: nat, hlsKey: Option<string>) returns (outcome: Outcome)
      requires Valid()
      modifies this
      ensures Valid() && outcome in {Updated, NoMatch, ValueError}
      ensures outcome == ValueError <==> hlsKey.Some? && Strip(hlsKey.value) == ""
      ensures outcome == Updated <==>
                && !(hlsKey.Some? && Strip(hlsKey.value) == "")
                && id in old(rows) && old(rows)[id].status == Done && old(rows)[id].hls == Pending
      ensures rows ==
              if outcome != Updated then old(rows)
              else old(rows)[id := old(rows)[id].(hls := if hlsKey.Some? then Available else Unavailable, hlsKey := hlsKey)]
    {
      if hlsKey.Some? && Strip(hlsKey.value) == "" {
        return ValueError;
      }
      if id in rows {
        UpdatesKeepSound(rows[id], "e", if hlsKey.Some? then hlsKey.value else "");
      }
      outcome := Store(id, if id in rows then SettleLadder(rows[id], if hlsKey.Some? then Available else Unavailable, hlsKey) else None);
    }

    /** `mark_preview_ready`. */
    method RecordPreview(id: nat, previewKey: string) returns (outcome: Outcome)
      requires Valid()
      modifies this
      ensures Valid() && outcome in {Updated, NoMatch, ValueError}
      ensures outcome == ValueError <==> Strip(previewKey) == ""
      ensures outcome == Updated <==>
                Strip(previewKey) != "" && id in old(rows) && old(rows)[id].status == Done && old(rows)[id].hls == Available
      ensures rows ==
              if outcome != Updated then old(rows) else old(rows)[id := old(rows)[id].(previewKey := Some(previewKey))]
    {
      if Strip(previewKey) == "" {
        return ValueError;
      }
      if id in rows {
        UpdatesKeepSound(rows[id], "e", previewKey);
      }
      outcome := Store(id, if id in rows then MarkPreviewReady(rows[id], previewKey) else None);
    }

    /** `mark_stale_failed`. */
    method FailStale(id: nat) returns (outcome: Outcome)
      requires Valid()
      modifies this
      ensures Valid() && outcome in {Updated, NoMatch}
      ensures outcome == Updated <==> id in old(rows) && old(rows)[id].status == Processing
      ensures rows ==
              if outcome != Updated then old(rows)
              else old(rows)[id := Created.(status := Failed, error := Some(STALE), hls := Unavailable)]
    {
      if id in rows {
        UpdatesKeepSound(rows[id], "e", "k");
      }
      outcome := Store(id, if id in rows then MarkStaleFailed(rows[id]) else None);
    }

    method Delete(id: nat) returns (deleted: bool)
      requires Valid()
      modifies this
      ensures Valid() && rows == old(rows) - {id}
      ensures deleted <==> id in old(rows)
    {
      deleted := id in rows;
      rows := rows - {id};
    }
  }

  // --- The table under the protocol ---------------------------------------------

  /** The row once this has been written, if it could be. */
  function After(before: Option<Row>, written: Option<Row>): Option<Row> {
    if Passes(written) then written else before
  }

  /** What a delivery's write does to the table. */
  method Record(table: JobTable, id: nat, now: Delivery)
    requires table.Valid()
    modifies table
    ensures table.Valid() && table.rows - {id} == old(table.rows) - {id}
    ensures table.At(id) ==
            var before := old(table.At(id)); After(before, if before.Some? then WriteUpdate(before.value, now) else None)
  {
    hide Strip, ReadableError;
    match now
    case Raised(_, message) =>
      ReadableErrorFits(message);
      var _ := table.Fail(id, ReadableError(message));
    case Stopped(n) =>
      TooOftenIsText();
      if n + 1 >= MAX_INTERRUPTIONS {
        var _ := table.Fail(id, TOO_OFTEN);
      } else {
        var _ := table.Interrupt(id);
      }
    case Finished(_, result) =>
      var _ := table.Finish(id, result);
    case DropsLadder(_) =>
      var _ := table.Settle(id, None);
    case _ =>
  }

  /** What a ladder entry's write does to it. */
  method RecordLadder(table: JobTable, id: nat, now: LadderEntry)
    requires table.Valid()
    modifies table
    ensures table.Valid() && table.rows - {id} == old(table.rows) - {id}
    ensures table.At(id) ==
            var before := old(table.At(id)); After(before, if before.Some? then LadderUpdate(before.value, now) else None)
  {
    hide Strip;
    match now
    case LadderBuilt(key) =>
      var _ := table.Settle(id, Some(key));
    case LadderFails =>
      var _ := table.Settle(id, None);
    case _ =>
  }

  method ActClaim(table: JobTable, id: nat, s: State, d: nat)
    requires table.Valid() && table.At(id) == s.row
    modifies table
    ensures table.Valid() && table.rows - {id} == old(table.rows) - {id}
    ensures table.At(id) == After(s.row, Update(s, Claim(d)))
  {
    if d < |s.deliveries| && s.deliveries[d].Claiming? && s.retry.None? {
      var _ := table.Process(id);
    }
  }

  method ActWrite(table: JobTable, id: nat, s: State, d: nat)
    requires table.Valid() && table.At(id) == s.row
    modifies table
    ensures table.Valid() && table.rows - {id} == old(table.rows) - {id}
    ensures table.At(id) == After(s.row, Update(s, Write(d)))
  {
    hide WriteUpdate, Checks;
    if d < |s.deliveries| { Record(table, id, s.deliveries[d]); }
  }

  method ActLadder(table: JobTable, id: nat, s: State, l: nat)
    requires table.Valid() && table.At(id) == s.row
    modifies table
    ensures table.Valid() && table.rows - {id} == old(table.rows) - {id}
    ensures table.At(id) == After(s.row, Update(s, LadderWrites(l)))
  {
    hide LadderUpdate, Checks;
    if l < |s.ladders| { RecordLadder(table, id, s.ladders[l]); }
  }

  method ActPreview(table: JobTable, id: nat, s: State, l: nat, key: string)
    requires table.Valid() && table.At(id) == s.row
    modifies table
    ensures table.Valid() && table.rows - {id} == old(table.rows) - {id}
    ensures table.At(id) == After(s.row, Update(s, PreviewWrites(l, key)))
  {
    hide Strip;
    if l < |s.ladders| && s.ladders[l].LadderPreview? {
      var _ := table.RecordPreview(id, key);
    }
  }

  method ActReaper(table: JobTable, id: nat, s: State)
    requires table.Valid() && table.At(id) == s.row
    modifies table
    ensures table.Valid() && table.rows - {id} == old(table.rows) - {id}
    ensures table.At(id) == After(s.row, Update(s, ReaperFails))
  {
    var _ := table.FailStale(id);
  }

  method ActNoLadder(table: JobTable, id: nat, s: State)
    requires table.Valid() && table.At(id) == s.row
    modifies table
    ensures table.Valid() && table.rows - {id} == old(table.rows) - {id}
    ensures table.At(id) == After(s.row, Update(s, ReaperDropsLadder))
  {
    var _ := table.Settle(id, None);
  }

  method ActOwner(table: JobTable, id: nat, s: State, e: Event)
    requires table.Valid() && Inv(s) && table.At(id) == s.row && (e.RetryCommits? || e.Deletes?)
    modifies table
    ensures table.Valid() && table.rows - {id} == old(table.rows) - {id}
    ensures table.At(id) == Do(s, e).row
  {
    hide Inv;
    if e.Deletes? {
      if s.retry.None? { var _ := table.Delete(id); }
    } else if s.retry.Some? && s.retry.value.delivery.Some? {
      CommitIsNew(s);
      var _ := table.Retry(id);
    }
  }

  predicate NoUpdate(e: Event) {
    !e.Claim? && !e.Write? && !e.LadderWrites? && !e.PreviewWrites? && !e.ReaperFails? && !e.ReaperDropsLadder?
    && !e.RetryCommits? && !e.Deletes?
  }

  lemma NoUpdateNoChange(s: State, e: Event)
    requires NoUpdate(e)
    ensures Do(s, e).row == s.row
  {
    UpdateIsStored(s, e);
  }

  /** One event's part in the table, done through the table's methods alone. */
  method Act(table: JobTable, id: nat, s: State, e: Event)
    requires table.Valid() && Inv(s) && table.At(id) == s.row
    modifies table
    ensures table.Valid() && table.rows - {id} == old(table.rows) - {id}
    ensures table.At(id) == Do(s, e).row
  {
    hide Inv, Do, Update, Passes;
    if NoUpdate(e) {
      NoUpdateNoChange(s, e);
    } else if e.RetryCommits? || e.Deletes? {
      ActOwner(table, id, s, e);
    } else {
      UpdateIsStored(s, e);
      if e.Claim? {
        ActClaim(table, id, s, e.d);
      } else if e.Write? {
        ActWrite(table, id, s, e.d);
      } else if e.LadderWrites? {
        ActLadder(table, id, s, e.l);
      } else if e.PreviewWrites? {
        ActPreview(table, id, s, e.l, e.key);
      } else if e.ReaperFails? {
        ActReaper(table, id, s);
      } else {
        ActNoLadder(table, id, s);
      }
    }
  }

  lemma CommitIsNew(s: State)
    requires Inv(s) && s.retry.Some?
    ensures s.row.Some? && s.row.value.status.Failed? && s.retry.value.row == Created
  {
    RequeuedIsNew(s.row.value);
  }

  /** Driven through any run from the job's creation, the table holds the protocol's
      row, and no other row has changed. */
  method Follow(table: JobTable, id: nat, events: seq<Event>)
    requires table.Valid() && id !in table.rows
    modifies table
    ensures table.Valid() && table.At(id) == Run(Begun, events).row
    ensures table.rows - {id} == old(table.rows)
  {
    table.Create(id);
    var s, k := Begun, 0;
    while k < |events|
      invariant 0 <= k <= |events|
      invariant s == Run(Begun, events[..k])
      invariant table.Valid() && table.At(id) == s.row && table.rows - {id} == old(table.rows)
    {
      Reachable(events[..k]);
      Act(table, id, s, events[k]);
      assert events[..k + 1] == events[..k] + [events[k]];
      RunConcat(Begun, events[..k], [events[k]]);
      assert Run(s, [events[k]]) == Run(Do(s, events[k]), []);
      s := Do(s, events[k]);
      k := k + 1;
    }
    assert events[..k] == events;
  }
}
