/** The coordinator's loop over the shared board (app/worker/chunked.py:
    `PieceBoard.take`, `unclaimed`, `_encode_until_all_done`), with helpers free to run
    between any two of its Redis commands; and what the pieces then join into. */
module Coordinator {
  import opened Prelude
  import opened RateConversion
  import opened PiecePlan
  import ChunkedPlan
  import opened B = PieceBoard

  /** Whatever helpers do leaves the coordinator's own pieces alone, and only adds to
      what is done and to what is stored: the promise `HelpersRun` makes. */
  lemma HelpersOnlyAdd<T>(j: Job<T>, s: State<T>, e: Event)
    requires Inv(j, s) && !e.CoordinatorSteps? && !e.CoordinatorFails?
    ensures var t := Do(j, s, e);
            && Inv(j, t) && t.mine == s.mine && t.coordinator == s.coordinator
            && s.board.done <= t.board.done && s.stored.Keys <= t.stored.Keys
  {
    DoKeepsInv(j, s, e);
  }

  predicate OnlyHelpers(events: seq<Event>) {
    forall k :: 0 <= k < |events| ==> !events[k].CoordinatorSteps? && !events[k].CoordinatorFails?
  }

  /** Helpers alone can bring the one state to the other. */
  ghost predicate Helped<T(!new)>(j: Job<T>, s: State<T>, t: State<T>) {
    exists h :: OnlyHelpers(h) && t == Run(j, s, h)
  }

  /** A note that is not too old at `now`. */
  predicate Fresh(b: Board, i: nat, now: real, staleAfter: real) {
    i in b.inflight && now - b.inflight[i] <= staleAfter
  }

  /** The board and the store as they are, together with the run of the protocol that
      has led there: whatever is done to the one has to be a step of the other. */
  class SharedBoard<T(!new)> {
    const job: Job<T>
    /** Nobody else is about. */
    ghost const alone: bool
    var board: Board
    var stored: map<nat, T>
    ghost var events: seq<Event>

    ghost function Here(): State<T>
      reads this
    {
      Run(job, Start(job.count), events)
    }

    /** The coordinator, with these pieces, is at this point of a run that has left the
        board and the store as they are. */
    ghost predicate At(mine: map<nat, T>, at: B.Coordinator)
      reads this
    {
      Here() == Here().(board := board, stored := stored, mine := mine, coordinator := at)
    }

    /** Every piece is among these or in storage, as the plan has it. */
    ghost predicate AllAtHand(mine: map<nat, T>)
      reads this
    {
      forall i: nat :: i < job.count ==> (i in mine && mine[i] == job.piece(i)) || (i in stored && stored[i] == job.piece(i))
    }

    lemma HereIsInv()
      ensures Inv(job, Here())
    {
      RunKeepsInv(job, Start(job.count), events);
    }

    lemma DoneIsAtHand(mine: map<nat, T>)
      requires At(mine, Returned)
      ensures board.done == Range(job.count) && AllAtHand(mine)
    {
      HereIsInv();
      forall i: nat | i < job.count
        ensures (i in mine && mine[i] == job.piece(i)) || (i in stored && stored[i] == job.piece(i))
      {
        assert i in Range(job.count) && i in board.done;
      }
    }

    constructor (job: Job<T>, ghost alone: bool)
      ensures this.job == job && this.alone == alone && board == Opened(job.count) && stored == map[]
      ensures At(map[], Top)
    {
      this.job := job;
      this.alone := alone;
      board := Opened(job.count);
      stored := map[];
      events := [];
    }

    /** Any number of helper steps; none if there is no helper. */
    method HelpersRun(ghost mine: map<nat, T>, ghost at: B.Coordinator)
      requires At(mine, at)
      modifies this
      ensures At(mine, at) && old(events) <= events && Helped(job, old(Here()), Here())
      ensures alone ==> events == old(events)
    {
      ghost var none: seq<Event> := [];
      assert OnlyHelpers(none) && Here() == Run(job, Here(), none);
    }

    /** From any earlier point of the run, `done` and the store have only grown. */
    lemma Grown(from: seq<Event>)
      requires from <= events
      ensures var before := Run(job, Start(job.count), from);
              before.board.done <= Here().board.done && before.stored.Keys <= Here().stored.Keys
    {
      RunKeepsInv(job, Start(job.count), from);
      assert events == from + events[|from|..];
      RunConcat(job, Start(job.count), from, events[|from|..]);
      RunOnlyAdds(job, Run(job, Start(job.count), from), events[|from|..]);
    }

    /** The run takes the coordinator's next step. */
    ghost method Steps(now: real)
      modifies this`events
      ensures events == old(events) + [CoordinatorSteps(now)]
      ensures Here() == CoordinatorStep(job, old(Here()), now)
    {
      RunConcat(job, Start(job.count), events, [CoordinatorSteps(now)]);
      OneStep(job, Here(), now);
      events := events + [CoordinatorSteps(now)];
    }

    /** `take`: the head of the list as it is at the pop, or nothing if the list is
        empty then; the piece is gone from the list and noted in flight. */
    method Take(now: real, ghost mine: map<nat, T>) returns (index: Option<nat>, ghost popped: State<T>, ghost noted: State<T>)
      requires At(mine, Top)
      modifies this
      ensures old(events) <= events && Helped(job, old(Here()), popped)
      ensures old(board.done) <= board.done && old(stored.Keys) <= stored.Keys && (index.Some? ==> index.value < job.count)
      ensures index == if popped.board.todo == [] then None else Some(popped.board.todo[0])
      ensures index.None? ==>
                At(mine, ReadingInflight) && Here() == popped.(coordinator := ReadingInflight) && board == popped.board && noted == popped
      ensures index.Some? ==>
                && At(mine, Encoding(index.value))
                && Helped(job, popped.(coordinator := Noting(index.value), board := popped.board.(todo := popped.board.todo[1..])), noted)
                && board == noted.board.(inflight := noted.board.inflight[index.value := now])
      ensures alone ==>
                popped == old(Here()) && noted.board == popped.board.(todo := if index.None? then [] else popped.board.todo[1..])
    {
      HelpersRun(mine, Top);
      popped, noted := Here(), Here();
      if board.todo == [] {
        Steps(now);
        Grown(old(events));
        return None, popped, noted;
      }
      index := Some(board.todo[0]);
      board := Popped(board);
      Steps(now);
      HelpersRun(mine, Noting(index.value));
      noted := Here();
      board := Noted(board, index.value, now);
      Steps(now);
      Grown(old(events));
      HereIsInv();
    }

    /** `finish`: done, and no longer in flight. */
    method Finish(index: nat, ghost mine: map<nat, T>) returns (ghost before: State<T>)
      requires At(mine, Finishing(index))
      modifies this
      ensures old(events) <= events && Helped(job, old(Here()), before) && At(mine, Top)
      ensures board == before.board.(done := before.board.done + {index}, inflight := before.board.inflight - {index})
      ensures old(board.done) <= board.done && old(stored.Keys) <= stored.Keys
      ensures alone ==> before == old(Here())
    {
      HelpersRun(mine, Finishing(index));
      before := Here();
      board := Finished(board, index);
      Steps(0.0);
      Grown(old(events));
    }

    // The four commands of `unclaimed`, one by one.

    method ReadInflight(now: real, ghost mine: map<nat, T>) returns (inflight: map<nat, real>, ghost flying: State<T>)
      requires At(mine, ReadingInflight)
      modifies this
      ensures old(events) <= events && Helped(job, old(Here()), flying)
      ensures inflight == flying.board.inflight && At(mine, ReadingTodo(inflight, now))
      ensures Here() == flying.(coordinator := ReadingTodo(inflight, now))
      ensures alone ==> flying == old(Here())
    {
      HelpersRun(mine, ReadingInflight);
      flying := Here();
      inflight := board.inflight;
      Steps(now);
    }

    method ReadTodo(seen: map<nat, real>, now: real, ghost mine: map<nat, T>) returns (queued: set<nat>, ghost waiting: State<T>)
      requires At(mine, ReadingTodo(seen, now))
      modifies this
      ensures old(events) <= events && Helped(job, old(Here()), waiting)
      ensures (forall i :: i in queued <==> i in waiting.board.todo) && At(mine, DroppingStale(seen, now, queued))
      ensures Here() == waiting.(coordinator := DroppingStale(seen, now, queued))
      ensures alone ==> waiting == old(Here())
    {
      HelpersRun(mine, ReadingTodo(seen, now));
      waiting := Here();
      queued := Queued(board);
      Steps(now);
    }

    method DropStale(seen: map<nat, real>, now: real, queued: set<nat>, ghost mine: map<nat, T>)
      returns (busy: set<nat>, ghost dropping: State<T>)
      requires At(mine, DroppingStale(seen, now, queued))
      modifies this
      ensures old(events) <= events && Helped(job, old(Here()), dropping)
      ensures forall i :: i in busy <==> i in seen && now - seen[i] <= job.staleAfter
      ensures board == dropping.board.(inflight := dropping.board.inflight - (seen.Keys - busy))
      ensures At(mine, ReadingDone(busy, queued))
      ensures Here() == dropping.(coordinator := ReadingDone(busy, queued), board := board)
      ensures alone ==> dropping == old(Here())
    {
      HelpersRun(mine, DroppingStale(seen, now, queued));
      dropping := Here();
      var stale := Stale(seen, now, job.staleAfter);
      board := board.(inflight := board.inflight - stale);
      busy := seen.Keys - stale;
      assert seen.Keys - busy == stale;
      Steps(now);
    }

    method ReadDone(busy: set<nat>, queued: set<nat>, now: real, ghost mine: map<nat, T>)
      returns (orphans: seq<nat>, ghost ended: State<T>)
      requires At(mine, ReadingDone(busy, queued))
      modifies this
      ensures old(events) <= events && Helped(job, old(Here()), ended)
      ensures forall i: nat :: i in orphans <==> i < job.count && i !in ended.board.done && i !in busy && i !in queued
      ensures forall k, l :: 0 <= k < l < |orphans| ==> orphans[k] < orphans[l]
      ensures board == ended.board && At(mine, if orphans != [] then Encoding(orphans[0]) else Counting)
      ensures alone ==> ended == old(Here())
    {
      HelpersRun(mine, ReadingDone(busy, queued));
      ended := Here();
      orphans := Missing(job.count, board.done + busy + queued);
      Steps(now);
    }

    /** `unclaimed`: the pieces that its own reads, one after the other, find neither
        done, nor queued, nor freshly in flight, in order. */
    method Unclaimed(now: real, ghost mine: map<nat, T>)
      returns (orphans: seq<nat>, ghost flying: State<T>, ghost waiting: State<T>, ghost dropping: State<T>, ghost ended: State<T>)
      requires At(mine, ReadingInflight)
      modifies this
      ensures old(events) <= events
      ensures Helped(job, old(Here()), flying) && Unclaims(flying, waiting, dropping, ended, now)
      ensures forall i: nat :: i in orphans <==>
                i < job.count && i !in ended.board.done && i !in waiting.board.todo && !Fresh(flying.board, i, now, job.staleAfter)
      ensures forall k, l :: 0 <= k < l < |orphans| ==> orphans[k] < orphans[l]
      ensures old(board.done) <= board.done && old(stored.Keys) <= stored.Keys
      ensures forall i :: i in orphans ==> i !in old(board.done)
      ensures board == ended.board && At(mine, if orphans != [] then Encoding(orphans[0]) else Counting)
      ensures alone ==>
                flying.board == waiting.board == dropping.board == old(board) && SameButStale(old(board), board, now)
    {
      hide Helped, Run;
      var inflight;
      inflight, flying := ReadInflight(now, mine);
      var queued;
      queued, waiting := ReadTodo(inflight, now, mine);
      var busy;
      busy, dropping := DropStale(inflight, now, queued, mine);
      orphans, ended := ReadDone(busy, queued, now, mine);
      Grown(old(events));
    }

    /** Helpers alone come between the four commands. */
    ghost predicate Unclaims(flying: State<T>, waiting: State<T>, dropping: State<T>, ended: State<T>, now: real) {
      && Helped(job, flying.(coordinator := ReadingTodo(flying.board.inflight, now)), waiting)
      && exists queued, busy ::
           && Helped(job, waiting.(coordinator := DroppingStale(flying.board.inflight, now, queued)), dropping)
           && Helped(job, dropping.(coordinator := ReadingDone(busy, queued),
                                    board := dropping.board.(inflight := dropping.board.inflight - (flying.board.inflight.Keys - busy))),
                    ended)
    }

    /** All that is gone is what was in flight too long. */
    ghost predicate SameButStale(before: Board, after: Board, now: real) {
      && after.todo == before.todo && after.done == before.done
      && (forall i :: i in after.inflight <==> Fresh(before, i, now, job.staleAfter))
      && (forall i :: i in after.inflight && i in before.inflight ==> after.inflight[i] == before.inflight[i])
    }

    /** Every note on this board is too old at `now`. */
    ghost predicate NotesStale(b: Board, now: real) {
      forall i :: i in b.inflight ==> now - b.inflight[i] > job.staleAfter
    }

    /** A look that gets on: a piece off the list, or one that nobody has and is not done,
        in hand; and no note is left but old ones and the piece's own. */
    ghost predicate GetsOn(before: Board, after: Board, i: nat) {
      && after.done == before.done && i < job.count
      && (if before.todo != [] then after.todo == before.todo[1..] else after.todo == [] && i !in before.done)
      && (forall k :: k in after.inflight && k != i ==> k in before.inflight && after.inflight[k] == before.inflight[k])
    }

    /** Whether all are done. */
    method Count(now: real, ghost mine: map<nat, T>) returns (finished: bool)
      requires At(mine, Counting)
      modifies this
      ensures old(events) <= events && At(mine, if finished then Returned else Top)
      ensures finished <==> |board.done| >= job.count
      ensures alone ==> board == old(board)
    {
      HelpersRun(mine, Counting);
      finished := |board.done| >= job.count;
      Steps(now);
    }

    /** With nobody about and every note stale, a piece has no owner unless it is done;
        and if all have one, all are done. */
    lemma LoneLook(b: Board, flying: State<T>, waiting: State<T>, ended: State<T>, now: real)
      requires ended.board.done == b.done
      ensures NotesStale(b, now) && flying.board == waiting.board == b && b.todo == [] ==>
                && (forall i: nat :: Unowned(flying, waiting, ended, i, now) ==> i !in b.done)
                && ((forall i: nat :: i < job.count ==> !Unowned(flying, waiting, ended, i, now)) ==> |b.done| >= job.count)
    {
      if NotesStale(b, now) && flying.board == waiting.board == b && b.todo == [] {
        if forall i: nat :: i < job.count ==> !Unowned(flying, waiting, ended, i, now) {
          assert forall i :: i in Range(job.count) ==> !Unowned(flying, waiting, ended, i, now);
          SubsetSize(Range(job.count), b.done);
        }
      }
    }

    /** A look that found the list empty: the first piece that `unclaimed` finds, or else
        word whether all are done. */
    method Look(now: real, ghost mine: map<nat, T>)
      returns (index: Option<nat>, finished: bool, ghost flying: State<T>, ghost waiting: State<T>, ghost ended: State<T>)
      requires At(mine, ReadingInflight)
      modifies this
      ensures old(events) <= events && Helped(job, old(Here()), flying)
      ensures At(mine, if index.Some? then Encoding(index.value) else if finished then Returned else Top)
      ensures exists dropping :: Unclaims(flying, waiting, dropping, ended, now)
      ensures index.Some? ==> !finished && index.value < job.count && Unowned(flying, waiting, ended, index.value, now)
      ensures forall i: nat :: i < job.count && (index.Some? ==> i < index.value) ==> !Unowned(flying, waiting, ended, i, now)
      ensures index.None? ==> (finished <==> |board.done| >= job.count)
      ensures alone && NotesStale(old(board), now) && old(board.todo) == [] ==>
                if index.Some? then GetsOn(old(board), board, index.value) else finished
    {
      hide Helped, Run, Unclaims, Inv;
      index, finished := None, false;
      var orphans;
      ghost var dropping;
      orphans, flying, waiting, dropping, ended := Unclaimed(now, mine);
      assert Unclaims(flying, waiting, dropping, ended, now);
      FirstOrphan(orphans, flying, waiting, ended, now);
      if alone { LoneLook(old(board), flying, waiting, ended, now); }
      if orphans != [] {
        index := Some(orphans[0]);
      } else {
        finished := Count(now, mine);
      }
    }

    /** One look at the board: the head of the list if there is one at the pop; else the
        first piece that `unclaimed` finds; else word whether all are done. */
    method Next(now: real, ghost mine: map<nat, T>)
      returns (index: Option<nat>, finished: bool, ghost popped: State<T>, ghost flying: State<T>, ghost waiting: State<T>,
               ghost ended: State<T>)
      requires At(mine, Top)
      modifies this
      ensures old(events) <= events && Helped(job, old(Here()), popped)
      ensures old(board.done) <= board.done && old(stored.Keys) <= stored.Keys
      ensures index.Some? ==> index.value < job.count
      ensures finished ==> board.done == Range(job.count)
      ensures At(mine, if index.Some? then Encoding(index.value) else if finished then Returned else Top)
      ensures popped.board.todo != [] ==> index == Some(popped.board.todo[0])
      ensures popped.board.todo == [] ==>
                && Helped(job, popped.(coordinator := ReadingInflight), flying)
                && (exists dropping :: Unclaims(flying, waiting, dropping, ended, now))
                && (index.Some? ==> index.value < job.count && Unowned(flying, waiting, ended, index.value, now))
                && (forall i: nat :: i < job.count && (index.Some? ==> i < index.value) ==> !Unowned(flying, waiting, ended, i, now))
      ensures index.Some? ==> !finished
      ensures index.None? ==> (finished <==> |board.done| >= job.count)
      ensures alone && NotesStale(old(board), now) ==>
                if index.Some? then GetsOn(old(board), board, index.value) else finished
    {
      HereIsInv();
      assert board.todo != [] ==> board.todo[0] < job.count;
      hide Helped, Run, Unclaims, Inv, Unowned;
      ghost var noted;
      finished := false;
      index, popped, noted := Take(now, mine);
      flying, waiting, ended := popped, popped, popped;
      if index.None? {
        index, finished, flying, waiting, ended := Look(now, mine);
      }
      Grown(old(events));
      if finished { DoneIsAtHand(mine); }
    }

    /** Neither done, nor queued, nor freshly in flight, at the reads of `unclaimed`. */
    ghost predicate Unowned(flying: State<T>, waiting: State<T>, ended: State<T>, i: nat, now: real) {
      i !in ended.board.done && i !in waiting.board.todo && !Fresh(flying.board, i, now, job.staleAfter)
    }

    lemma FirstOrphan(orphans: seq<nat>, flying: State<T>, waiting: State<T>, ended: State<T>, now: real)
      requires forall i: nat :: i in orphans <==>
                 i < job.count && i !in ended.board.done && i !in waiting.board.todo && !Fresh(flying.board, i, now, job.staleAfter)
      requires forall k, l :: 0 <= k < l < |orphans| ==> orphans[k] < orphans[l]
      ensures orphans != [] ==> orphans[0] < job.count && Unowned(flying, waiting, ended, orphans[0], now)
      ensures forall i: nat :: i < job.count && (orphans != [] ==> i < orphans[0]) ==> !Unowned(flying, waiting, ended, i, now)
    {
      if orphans != [] {
        assert orphans[0] in orphans;
      }
    }

    /** How much there is still to do, by the list and by `done`. */
    ghost function Left(): int
      reads this
    {
      |board.todo| + job.count - |board.done|
    }

    lemma LeftIsNatural()
      requires Here().board == board
      ensures |board.done| <= job.count && board.done <= Range(job.count)
    {
      HereIsInv();
      SubsetSize(board.done, Range(job.count));
    }

    /** Every note is too old at every look. */
    ghost predicate AlwaysStale(b: Board, clock: nat -> real) {
      forall look: nat :: NotesStale(b, clock(look))
    }

    /** A piece got on with and finished: less is left, and there is no new note. */
    lemma LessLeft(before: Board, taken: Board, after: Board, i: nat, clock: nat -> real)
      requires GetsOn(before, taken, i) && AlwaysStale(before, clock)
      requires after == taken.(done := taken.done + {i}, inflight := taken.inflight - {i})
      ensures |after.todo| - |after.done| < |before.todo| - |before.done| && AlwaysStale(after, clock)
    {
      SubsetSize(before.done, after.done);
      forall look: nat ensures NotesStale(after, clock(look)) {
        assert NotesStale(before, clock(look));
      }
    }

    /** Encodes the piece in hand and finishes it. */
    method Encode(index: nat, pieces: map<nat, T>, now: real) returns (more: map<nat, T>, ghost before: State<T>)
      requires At(pieces, Encoding(index))
      modifies this
      ensures more == pieces[index := job.piece(index)] && old(events) <= events && At(more, Top)
      ensures Helped(job, old(Here()).(mine := more, coordinator := Finishing(index)), before)
      ensures board == before.board.(done := before.board.done + {index}, inflight := before.board.inflight - {index})
      ensures alone ==> before.board == old(board)
    {
      more := pieces[index := job.piece(index)];
      Steps(now);
      before := Finish(index, more);
    }

    /** The pieces encoded here, once every piece is either among them or in storage;
        `None` only when a look at the clock finds the time has run out. With nobody
        else about and every old note stale, it does not: as many looks as pieces and
        list entries, and one more, see it to the end. */
    method EncodeUntilAllDone(clock: nat -> real, timeout: real, ghost expiry: nat)
      returns (mine: Option<map<nat, T>>)
      requires At(map[], Top)
      requires clock(expiry) - clock(0) > timeout
      modifies this
      ensures mine.Some? ==> At(mine.value, Returned) && board.done == Range(job.count)
      ensures mine.Some? ==> AllAtHand(mine.value)
      ensures mine.None? ==> exists look: nat :: look <= expiry && clock(look) - clock(0) > timeout
      ensures alone && AlwaysStale(old(board), clock)
              && (forall look: nat :: look <= job.count + |old(board.todo)| ==> clock(look) - clock(0) <= timeout) ==>
                mine.Some?
    {
      ghost var limit := job.count + |board.todo|;
      ghost var lone := alone && AlwaysStale(board, clock);
      hide Helped, Run, GetsOn, Unclaims, Unowned, Inv;
      var pieces: map<nat, T> := map[];
      var now := 0;
      while true
        invariant now <= expiry && At(pieces, Top)
        invariant lone ==> now + Left() <= limit && AlwaysStale(board, clock)
        decreases expiry - now
      {
        LeftIsNatural();
        if clock(now) - clock(0) > timeout {
          return None;
        }
        now := now + 1;
        ghost var start := board;
        assert lone ==> NotesStale(start, clock(now));
        var index, finished;
        ghost var popped, flying, waiting, ended, before;
        index, finished, popped, flying, waiting, ended := Next(clock(now), pieces);
        if finished {
          DoneIsAtHand(pieces);
          return Some(pieces);
        }
        if index.Some? {
          ghost var taken := board;
          pieces, before := Encode(index.value, pieces, clock(now));
          if lone { LessLeft(start, taken, board, index.value, clock); }
        }
      }
    }
  }

  lemma StepOnlyAdds<T>(j: Job<T>, s: State<T>, e: Event)
    ensures var t := Do(j, s, e); s.board.done <= t.board.done && s.stored.Keys <= t.stored.Keys
  {
  }

  lemma {:induction false} RunOnlyAdds<T>(j: Job<T>, s: State<T>, events: seq<Event>)
    ensures var t := Run(j, s, events); s.board.done <= t.board.done && s.stored.Keys <= t.stored.Keys
    decreases |events|
  {
    hide Do;
    if events != [] {
      StepOnlyAdds(j, s, events[0]);
      RunOnlyAdds(j, Do(j, s, events[0]), events[1..]);
    }
  }

  lemma OneStep<T>(j: Job<T>, s: State<T>, now: real)
    ensures Run(j, s, [CoordinatorSteps(now)]) == CoordinatorStep(j, s, now)
  {
    assert Run(j, s, [CoordinatorSteps(now)]) == Run(j, Do(j, s, CoordinatorSteps(now)), []);
  }

  /** The whole MP4: pieces cut by `frame_starts`, encoded by the coordinator and any
      helpers in any order with any failures, and joined when the coordinator returns,
      are frame for frame the single run when no frame is more than a microsecond before
      the file's start and every seek holds -- and when no two frames look alike, only
      then. */
  lemma PiecedEncodeIsSingleRun<P>(fs: seq<Frame<P>>, c: Clock, chunk: int, raw: seq<nat>, starts: seq<real>,
                                   j: Job<seq<P>>, events: seq<Event>)
    requires c.Valid() && c.rate <= MAX_FPS && Sorted(Times(fs, c.timeBase))
    requires ChunkedPlan.Greedy(Times(fs, c.timeBase), Some(c.rate), chunk, raw)
    requires StartsAt(Times(fs, c.timeBase), ChunkedPlan.Kept(Times(fs, c.timeBase), chunk, raw), starts)
    requires starts != [] && j.count == |starts|
    requires forall i :: 0 <= i < j.count ==> j.piece(i) == EncodePiece(fs, c, PlanFrom(starts, c), i)
    requires Run(j, Start(j.count), events).coordinator == Returned
    ensures var s, times, idx := Run(j, Start(j.count), events), Times(fs, c.timeBase), ChunkedPlan.Kept(Times(fs, c.timeBase), chunk, raw);
            && CanGather(j, s) && times != [] && (forall i :: 0 <= i < |idx| ==> idx[i] < |times|)
            && (times[0] >= -MICRO && SeeksHold(times, c.rate, idx) ==> Flatten(Gathered(j, s)) == Convert(OnClock(fs, c)))
            && (LookDifferent(fs) && Flatten(Gathered(j, s)) == Convert(OnClock(fs, c)) ==>
                  times[0] >= -MICRO && SeeksHold(times, c.rate, idx))
            && (times[0] >= 0.0 && Apart(times) ==> Flatten(Gathered(j, s)) == Convert(OnClock(fs, c)))
  {
    var s := Run(j, Start(j.count), events);
    EveryPieceJoins(j, events);
    GatheredIsPieces(fs, c, starts, j, s);
    hide ChunkedPlan.Greedy, ChunkedPlan.Kept, StartsAt, CutAt, OnClock, SeeksHold, Pieces, PlanFrom, Convert, Run;
    ChunkedPlan.PlannedChunks(fs, c, chunk, raw, starts);
  }

  lemma GatheredIsPieces<P>(fs: seq<Frame<P>>, c: Clock, starts: seq<real>, j: Job<seq<P>>, s: State<seq<P>>)
    requires c.Valid() && starts != [] && j.count == |starts|
    requires forall i :: 0 <= i < j.count ==> j.piece(i) == EncodePiece(fs, c, PlanFrom(starts, c), i)
    requires CanGather(j, s) && Gathered(j, s) == seq(j.count, i requires 0 <= i < j.count => j.piece(i))
    ensures Gathered(j, s) == Pieces(fs, c, PlanFrom(starts, c))
  {
  }
}
