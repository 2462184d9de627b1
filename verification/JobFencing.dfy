/** Whose writes a job's row takes. Nothing ties a worker's write to its claim
    (app/repositories/jobs.py: `_transition` asks for the status alone), so what fences
    an old worker off is only that nobody gives up on a live one. */
module JobFencing {
  import opened Prelude
  import opened Text
  import opened JobRow
  import opened JobProtocol

  /** A delivery that has claimed the job and has still to write. */
  predicate Active(d: Delivery) { d.Running? || d.Raised? || d.Stopped? || d.Finished? }

  predicate AnyActive(s: State) {
    exists d: nat :: d < |s.deliveries| && Active(s.deliveries[d])
  }

  /** The reaper fails the job while a worker is still at it. */
  predicate GivesUp(s: State, e: Event) {
    e.ReaperFails? && Do(s, e).row != s.row && AnyActive(s)
  }

  predicate NoneGivenUp(s: State, events: seq<Event>)
    decreases |events|
  {
    events == [] || (!GivesUp(s, events[0]) && NoneGivenUp(Do(s, events[0]), events[1..]))
  }

  /** The delivery that claimed the job last. */
  function Claimant(s: State, e: Event, latest: Option<nat>): Option<nat> {
    if e.Claim? && Do(s, e).claims > s.claims then Some(e.d) else latest
  }

  function LatestClaimant(s: State, events: seq<Event>, latest: Option<nat>): Option<nat>
    decreases |events|
  {
    if events == [] then latest else LatestClaimant(Do(s, events[0]), events[1..], Claimant(s, events[0], latest))
  }

  /** Whoever is active made the latest claim, and the row, if not deleted, is its. */
  predicate Fenced(s: State, latest: Option<nat>) {
    forall d: nat :: d < |s.deliveries| && Active(s.deliveries[d]) ==>
      latest == Some(d) && (s.row.Some? ==> s.row.value.status.Processing?)
  }

  // --- While nobody is given up on ---------------------------------------------------

  lemma ClaimKeepsFence(s: State, d: nat, latest: Option<nat>)
    requires Fenced(s, latest) && d < |s.deliveries|
    ensures Fenced(ClaimStep(s, d), if ClaimStep(s, d).claims > s.claims then Some(d) else latest)
  {
    hide Checks;
  }

  lemma WriteKeepsFence(s: State, d: nat, latest: Option<nat>)
    requires Fenced(s, latest) && d < |s.deliveries|
    ensures Fenced(WriteStep(s, d), latest) && WriteStep(s, d).claims == s.claims
  {
    hide Checks, Strip, ReadableError, Transition;
  }

  lemma DeliveryKeepsFence(s: State, e: Event, d: nat, latest: Option<nat>)
    requires Fenced(s, latest) && OfDelivery(e) && e.d == d < |s.deliveries|
    ensures Fenced(DeliveryStep(s, e, d), if e.Claim? && DeliveryStep(s, e, d).claims > s.claims then Some(d) else latest)
  {
    hide WriteStep, ClaimStep;
    if e.Claim? {
      ClaimKeepsFence(s, d, latest);
    } else if e.Write? {
      WriteKeepsFence(s, d, latest);
    }
  }

  lemma LadderKeepsFence(s: State, e: Event, l: nat, latest: Option<nat>)
    requires Fenced(s, latest) && l < |s.ladders|
    ensures Fenced(LadderStep(s, e, l), latest)
  {
    hide Checks, Strip;
  }

  lemma StepKeepsFence(s: State, e: Event, latest: Option<nat>)
    requires Inv(s) && Fenced(s, latest) && !GivesUp(s, e)
    ensures Fenced(Do(s, e), Claimant(s, e, latest))
  {
    hide DeliveryStep, LadderStep, Checks;
    if OfDelivery(e) {
      if e.d < |s.deliveries| { DeliveryKeepsFence(s, e, e.d, latest); }
    } else if OfLadder(e) {
      if e.l < |s.ladders| { LadderKeepsFence(s, e, e.l, latest); }
    }
  }

  lemma {:induction false} RunKeepsFence(s: State, events: seq<Event>, latest: Option<nat>)
    requires Inv(s) && Fenced(s, latest) && NoneGivenUp(s, events)
    ensures Fenced(Run(s, events), LatestClaimant(s, events, latest))
    decreases |events|
  {
    hide Inv, Fenced, Do, GivesUp, Claimant;
    if events != [] {
      StepKeepsInv(s, events[0]);
      StepKeepsFence(s, events[0], latest);
      RunKeepsFence(Do(s, events[0]), events[1..], Claimant(s, events[0], latest));
    }
  }

  /** As long as the reaper fails no job that a worker is at, at most one delivery is
      active, the one that claimed the job last, and its claim still stands. */
  lemma OneWorkerAtATime(events: seq<Event>)
    requires NoneGivenUp(Begun, events)
    ensures var s := Run(Begun, events);
            forall d: nat :: d < |s.deliveries| && Active(s.deliveries[d]) ==>
              LatestClaimant(Begun, events, None) == Some(d) && (s.row.Some? ==> s.row.value.status.Processing?)
  {
    RunKeepsFence(Begun, events, None);
  }

  /** Then a claimed job's row is changed only by the write of the delivery that claimed
      it last, by the reaper when no delivery is active, or by delete. */
  lemma OnlyLatestWrites(events: seq<Event>, e: Event)
    requires NoneGivenUp(Begun, events + [e])
    requires var s := Run(Begun, events); s.row.Some? && s.row.value.status.Processing? && Do(s, e).row != s.row
    ensures var s := Run(Begun, events);
            || (e.Write? && LatestClaimant(Begun, events, None) == Some(e.d))
            || (e.ReaperFails? && !AnyActive(s))
            || e.Deletes?
  {
    Reachable(events);
    NoneGivenUpConcat(Begun, events, [e]);
    OneWorkerAtATime(events);
    var s := Run(Begun, events);
    assert !GivesUp(s, e);
    ProcessingChanges(s, e);
  }

  lemma ProcessingChanges(s: State, e: Event)
    requires Inv(s) && s.row.Some? && s.row.value.status.Processing? && Do(s, e).row != s.row
    ensures e.ReaperFails? || e.Deletes? || (e.Write? && e.d < |s.deliveries| && Active(s.deliveries[e.d]))
  {
    hide Checks, Strip, ReadableError;
  }

  lemma {:induction false} NoneGivenUpConcat(s: State, a: seq<Event>, b: seq<Event>)
    ensures NoneGivenUp(s, a + b) <==> NoneGivenUp(s, a) && NoneGivenUp(Run(s, a), b)
    decreases |a|
  {
    hide Do, GivesUp;
    if a == [] {
      assert a + b == b;
    } else {
      assert (a + b)[1..] == a[1..] + b;
      NoneGivenUpConcat(Do(s, a[0]), a[1..], b);
    }
  }

  // --- Once somebody is -----------------------------------------------------------

  /** The reaper fails the job, its owner retries it, and a new delivery claims it. */
  function TakenOver(k: nat): seq<Event> {
    [ReaperFails, RetryPrepares, RetryEnqueues] + [RetryCommits, Pop(k), Claim(k)]
  }

  /** The old worker comes to its end. */
  function Ends(s: State, d: nat, result: Result): seq<Event>
    requires d < |s.deliveries|
  {
    if s.deliveries[d].Running? then [StepReturns(d, result)] else []
  }

  lemma Reaped(s: State)
    requires Inv(s) && s.row.Some? && s.row.value.status.Processing?
    ensures var a, failed := Do(s, ReaperFails), MarkStaleFailed(s.row.value);
            a == s.(row := failed) && a != s && failed.Some? && Sound(failed.value) && failed.value.status.Failed? && a.retry.None?
  {
    UpdatesKeepSound(s.row.value, STALE, "k");
  }

  lemma ReapedAndRetried(s: State)
    requires Inv(s) && s.row.Some? && s.row.value.status.Processing?
    ensures var t := Run(s, [ReaperFails, RetryPrepares, RetryEnqueues]);
            && t.row == MarkStaleFailed(s.row.value) && t.retry == Some(Retry(Created, Some(|s.deliveries|)))
            && t.deliveries == s.deliveries + [Waiting(0)] && t.claims == s.claims
  {
    RunThree(s, ReaperFails, RetryPrepares, RetryEnqueues);
    Reaped(s);
    hide Inv, MarkStaleFailed;
    var a := Do(s, ReaperFails);
    RequeuedIsNew(a.row.value);
    hide Sound, PrepareRetry;
    var b := Do(a, RetryPrepares);
    assert b == a.(retry := Some(Retry(Created, None)));
  }

  lemma RetriedIsClaimed(s: State, k: nat)
    requires s.retry == Some(Retry(Created, Some(k))) && k < |s.deliveries| && s.deliveries[k] == Waiting(0)
    ensures var t := Run(s, [RetryCommits, Pop(k), Claim(k)]);
            && t.row == Some(Created.(status := Processing)) && t.deliveries == s.deliveries[k := Running(0)]
            && t.claims == s.claims + 1 && Do(Do(s, RetryCommits), Pop(k)).claims == s.claims
  {
    RunThree(s, RetryCommits, Pop(k), Claim(k));
    var a := Do(s, RetryCommits);
    assert a.row == Some(Created) && a.retry.None?;
    var b := Do(a, Pop(k));
    assert b.row == Some(Created) && b.retry.None? && b.deliveries == s.deliveries[k := Claiming(0)];
    assert s.deliveries[k := Claiming(0)][k := Running(0)] == s.deliveries[k := Running(0)];
  }

  /** A write that is not refused for what the step handed over. */
  predicate WouldLand(d: Delivery) {
    Active(d) && (d.Finished? ==> !BlankKeys(d.result) && SoundResult(d.result))
  }

  lemma WriteTouches(s: State, d: nat)
    requires d < |s.deliveries|
    ensures var u := Do(s, Write(d));
            && |u.deliveries| == |s.deliveries|
            && forall k: nat :: k < |s.deliveries| && k != d ==> u.deliveries[k] == s.deliveries[k]
  {
    hide Checks, Strip, ReadableError, Transition;
  }

  lemma WriteLands(s: State, d: nat)
    requires s.row == Some(Created.(status := Processing)) && d < |s.deliveries|
    requires WouldLand(s.deliveries[d]) && !s.deliveries[d].Running?
    ensures var u := Do(s, Write(d));
            && u.row.Some? && !u.row.value.status.Processing?
            && (s.deliveries[d].Finished? ==> u.row == MarkDone(s.row.value, s.deliveries[d].result))
  {
    UpdateIsStored(s, Write(d));
    if s.deliveries[d].Finished? {
      DoneIsSoundIff(s.row.value, s.deliveries[d].result);
    } else {
      UpdatePasses(s, Write(d));
    }
    hide Do, ReadableError, Strip, Checks;
  }

  lemma {:induction false} LatestConcat(s: State, a: seq<Event>, b: seq<Event>, latest: Option<nat>)
    ensures LatestClaimant(s, a + b, latest) == LatestClaimant(Run(s, a), b, LatestClaimant(s, a, latest))
    decreases |a|
  {
    hide Do, Claimant;
    if a == [] {
      assert a + b == b;
    } else {
      assert (a + b)[1..] == a[1..] + b;
      LatestConcat(Do(s, a[0]), a[1..], b, Claimant(s, a[0], latest));
    }
  }

  lemma LatestOfThree(s: State, a: Event, b: Event, c: Event, latest: Option<nat>)
    requires !a.Claim? && !b.Claim?
    ensures LatestClaimant(s, [a, b, c], latest) == Claimant(Do(Do(s, a), b), c, latest)
  {
    hide Do;
    var x, y := Do(s, a), Do(Do(s, a), b);
    assert [a, b, c][1..] == [b, c] && [b, c][1..] == [c] && [c][1..] == [];
    assert LatestClaimant(y, [c], latest) == Claimant(y, c, latest);
    assert LatestClaimant(x, [b, c], latest) == LatestClaimant(y, [c], latest);
  }

  lemma TakenOverRuns(s: State, latest: Option<nat>)
    requires Inv(s) && s.row.Some? && s.row.value.status.Processing?
    ensures var k := |s.deliveries|; var t := Run(s, TakenOver(k));
            && t.row == Some(Created.(status := Processing)) && t.deliveries == s.deliveries + [Running(0)]
            && LatestClaimant(s, TakenOver(k), latest) == Some(k)
  {
    var k := |s.deliveries|;
    var a, b := [ReaperFails, RetryPrepares, RetryEnqueues], [RetryCommits, Pop(k), Claim(k)];
    RunConcat(s, a, b);
    LatestConcat(s, a, b, latest);
    ReapedAndRetried(s);
    var m := Run(s, a);
    RetriedIsClaimed(m, k);
    LatestOfThree(m, RetryCommits, Pop(k), Claim(k), LatestClaimant(s, a, latest));
    RunThree(m, RetryCommits, Pop(k), Claim(k));
    hide Run, Do, LatestClaimant;
    assert (s.deliveries + [Waiting(0)])[k := Running(0)] == s.deliveries + [Running(0)];
  }

  lemma EndsRuns(s: State, d: nat, result: Result, latest: Option<nat>)
    requires d < |s.deliveries|
    ensures var t := Run(s, Ends(s, d, result));
            && t.row == s.row
            && t.deliveries == s.deliveries[d := if s.deliveries[d].Running? then Finished(s.deliveries[d].n, result) else s.deliveries[d]]
            && LatestClaimant(s, Ends(s, d, result), latest) == latest
  {
    if s.deliveries[d].Running? {
      assert [StepReturns(d, result)][1..] == [];
      assert Run(s, [StepReturns(d, result)]) == Run(Do(s, StepReturns(d, result)), []);
      assert LatestClaimant(s, [StepReturns(d, result)], latest) == LatestClaimant(Do(s, StepReturns(d, result)), [], latest);
    }
  }

  /** Give up on any worker that is at a job, in any run, and the run can go on so that
      a second delivery claims the job and the first one's write still lands on it. */
  lemma LateWriteLands(events: seq<Event>, d: nat, result: Result)
    requires var s := Run(Begun, events);
             s.row.Some? && s.row.value.status.Processing? && d < |s.deliveries| && WouldLand(s.deliveries[d])
    requires SoundResult(result) && !BlankKeys(result)
    ensures var s := Run(Begun, events);
            var k, more := |s.deliveries|, TakenOver(|s.deliveries|) + Ends(s, d, result);
            var t := Run(s, more);
            && GivesUp(s, more[0])
            && LatestClaimant(Begun, events + more, None) == Some(k)
            && t.row == Some(Created.(status := Processing)) && |t.deliveries| == k + 1 && t.deliveries[k] == Running(0)
            && var u := Do(t, Write(d));
               && u.row.Some? && !u.row.value.status.Processing?
               && |u.deliveries| == k + 1 && u.deliveries[k] == Running(0)
               && (s.deliveries[d].Running? ==> u.row == MarkDone(t.row.value, result))
               && (s.deliveries[d].Finished? ==> u.row == MarkDone(t.row.value, s.deliveries[d].result))
  {
    Reachable(events);
    var s := Run(Begun, events);
    var k, ends, latest := |s.deliveries|, Ends(s, d, result), LatestClaimant(Begun, events, None);
    Reaped(s);
    assert AnyActive(s);
    TakenOverRuns(s, latest);
    var m := Run(s, TakenOver(k));
    assert m.deliveries[d] == s.deliveries[d] && Ends(m, d, result) == ends;
    EndsRuns(m, d, result, Some(k));
    RunConcat(s, TakenOver(k), ends);
    LatestConcat(s, TakenOver(k), ends, latest);
    LatestConcat(Begun, events, TakenOver(k) + ends, None);
    hide Inv, Run, Do, LatestClaimant;
    var t := Run(s, TakenOver(k) + ends);
    WriteLands(t, d);
    WriteTouches(t, d);
  }

  lemma FirstClaim()
    ensures var s := Run(Begun, [CreatorEnqueues, Pop(0), Claim(0)]);
            Inv(s) && s.row == Some(Created.(status := Processing)) && s.deliveries == [Running(0)]
  {
    Reachable([CreatorEnqueues, Pop(0), Claim(0)]);
    RunThree(Begun, CreatorEnqueues, Pop(0), Claim(0));
    hide Inv, Run;
    var a := Do(Begun, CreatorEnqueues);
    assert a.deliveries == [Waiting(0)];
    assert Do(a, Pop(0)).deliveries == [Claiming(0)];
  }

  /** So it can go from the job's very first claim on. */
  lemma FirstWriteIsLate(result: Result)
    requires SoundResult(result) && !BlankKeys(result)
    ensures var t := Run(Run(Begun, [CreatorEnqueues, Pop(0), Claim(0)]), TakenOver(1) + [StepReturns(0, result)]);
            && t.row == Some(Created.(status := Processing)) && t.deliveries == [Finished(0, result), Running(0)]
            && Do(t, Write(0)).row == MarkDone(t.row.value, result)
  {
    hide Inv, Run, Do;
    FirstClaim();
    var s := Run(Begun, [CreatorEnqueues, Pop(0), Claim(0)]);
    TakenOverRuns(s, None);
    EndsRuns(Run(s, TakenOver(1)), 0, result, None);
    RunConcat(s, TakenOver(1), [StepReturns(0, result)]);
    WriteLands(Run(s, TakenOver(1) + [StepReturns(0, result)]), 0);
  }
}
