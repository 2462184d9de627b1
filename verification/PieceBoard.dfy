/** One board of pieces in Redis, shared by a coordinator and any number of helpers
    (app/worker/chunked.py: `PieceBoard`, `_encode_until_all_done`, `help_encode`;
    the ladder's coordinator and helpers take the same steps).

    Each `Board` function is one Redis command or one MULTI pipeline. Everything
    between two of them can be interleaved: a pop and its in-flight note are two
    steps, and `unclaimed` reads the lists one after another. */
module PieceBoard {
  import opened Prelude

  datatype Board = Board(todo: seq<nat>, inflight: map<nat, real>, done: set<nat>)

  function Opened(count: nat): Board {
    Board(seq(count, i requires 0 <= i < count => i), map[], {})
  }

  function Popped(b: Board): Board
    requires b.todo != []
  {
    b.(todo := b.todo[1..])
  }

  function Noted(b: Board, i: nat, now: real): Board {
    b.(inflight := b.inflight[i := now])
  }

  function Finished(b: Board, i: nat): Board {
    b.(done := b.done + {i}, inflight := b.inflight - {i})
  }

  /** A helper that is stopping returns its piece to the front. */
  function GivenBack(b: Board, i: nat): Board {
    b.(inflight := b.inflight - {i}, todo := [i] + b.todo)
  }

  function Stale(inflight: map<nat, real>, now: real, staleAfter: real): set<nat> {
    set i | i in inflight && now - inflight[i] > staleAfter
  }

  function Queued(b: Board): set<nat> {
    set i | i in b.todo
  }

  /** The pieces 0..n-1 not in `out`, in order. */
  function Missing(n: nat, out: set<nat>): (r: seq<nat>)
    ensures forall i: nat :: i in r <==> i < n && i !in out
    ensures forall k, l :: 0 <= k < l < |r| ==> r[k] < r[l]
  {
    if n == 0 then []
    else if n - 1 in out then Missing(n - 1, out)
    else
      var r := Missing(n - 1, out);
      assert forall k :: 0 <= k < |r| ==> r[k] in r;
      r + [n - 1]
  }

  // --- The protocol -------------------------------------------------------

  /** What does not change: how many pieces, what encoding piece `i` by the plan
      writes, whoever encodes it, and when an in-flight note is too old. */
  datatype Job<!T> = Job(count: nat, piece: nat -> T, staleAfter: real)

  /** Where the coordinator is; the readings are `unclaimed`'s, one command each. */
  datatype Coordinator =
    | Top
    | Noting(i: nat)
    | ReadingInflight
    | ReadingTodo(seen: map<nat, real>, at: real)
    | DroppingStale(seen: map<nat, real>, at: real, queued: set<nat>)
    | ReadingDone(busy: set<nat>, queued: set<nat>)
    | Counting
    | Encoding(i: nat)
    | Finishing(i: nat)
    | Returned
    | Failed

  datatype Helper =
    | HTop | HNoting(i: nat) | HEncoding(i: nat) | HEncoded(i: nat)
    | HUploaded(i: nat) | HFinished(i: nat) | HLeaving(i: nat) | HGone

  datatype State<T> = State(
    board: Board,
    coordinator: Coordinator,
    helpers: map<nat, Helper>,
    mine: map<nat, T>,
    stored: map<nat, T>)

  datatype Event =
    | CoordinatorSteps(now: real)
    | CoordinatorFails
    | HelperJoins(h: nat)
    | HelperSteps(h: nat, now: real)
    | HelperFails(h: nat)
    | HelperQuits(h: nat)
    | HelperCrashes(h: nat)

  function Start<T>(count: nat): State<T> {
    State(Opened(count), Top, map[], map[], map[])
  }

  function CoordinatorStep<T>(j: Job<T>, s: State<T>, now: real): State<T> {
    match s.coordinator
    case Top =>
      if s.board.todo == [] then s.(coordinator := ReadingInflight)
      else s.(coordinator := Noting(s.board.todo[0]), board := Popped(s.board))
    case Noting(i) => s.(coordinator := Encoding(i), board := Noted(s.board, i, now))
    case ReadingInflight => s.(coordinator := ReadingTodo(s.board.inflight, now))
    case ReadingTodo(seen, at) => s.(coordinator := DroppingStale(seen, at, Queued(s.board)))
    case DroppingStale(seen, at, queued) =>
      var stale := Stale(seen, at, j.staleAfter);
      s.(coordinator := ReadingDone(seen.Keys - stale, queued),
         board := s.board.(inflight := s.board.inflight - stale))
    case ReadingDone(busy, queued) =>
      var orphans := Missing(j.count, s.board.done + busy + queued);
      s.(coordinator := if orphans != [] then Encoding(orphans[0]) else Counting)
    case Counting => s.(coordinator := if |s.board.done| >= j.count then Returned else Top)
    case Encoding(i) => s.(coordinator := Finishing(i), mine := s.mine[i := j.piece(i)])
    case Finishing(i) => s.(coordinator := Top, board := Finished(s.board, i))
    case Returned => s
    case Failed => s
  }

  function HelperStep<T>(j: Job<T>, s: State<T>, h: nat, now: real): State<T>
    requires h in s.helpers
  {
    match s.helpers[h]
    case HTop =>
      if s.board.todo == [] then s.(helpers := s.helpers[h := HGone])
      else s.(helpers := s.helpers[h := HNoting(s.board.todo[0])], board := Popped(s.board))
    case HNoting(i) => s.(helpers := s.helpers[h := HEncoding(i)], board := Noted(s.board, i, now))
    case HEncoding(i) => s.(helpers := s.helpers[h := HEncoded(i)])
    case HEncoded(i) => s.(helpers := s.helpers[h := HUploaded(i)], stored := s.stored[i := j.piece(i)])
    case HUploaded(i) => s.(helpers := s.helpers[h := HFinished(i)], board := Finished(s.board, i))
    case HFinished(_) => s.(helpers := s.helpers[h := HTop])
    case HLeaving(i) => s.(helpers := s.helpers[h := HGone], board := GivenBack(s.board, i))
    case HGone => s
  }

  /** An exception while a piece is in hand gives it back, even one just finished;
      one between the pop and the note loses it. */
  function HelperFailure(p: Helper): Helper {
    match p
    case HEncoding(i) => HLeaving(i)
    case HEncoded(i) => HLeaving(i)
    case HUploaded(i) => HLeaving(i)
    case HFinished(i) => HLeaving(i)
    case _ => HGone
  }

  function Do<T>(j: Job<T>, s: State<T>, e: Event): State<T> {
    match e
    case CoordinatorSteps(now) => CoordinatorStep(j, s, now)
    case CoordinatorFails => if s.coordinator.Returned? then s else s.(coordinator := Failed)
    case HelperJoins(h) => if h in s.helpers then s else s.(helpers := s.helpers[h := HTop])
    case HelperSteps(h, now) => if h in s.helpers then HelperStep(j, s, h, now) else s
    case HelperFails(h) =>
      if h in s.helpers then s.(helpers := s.helpers[h := HelperFailure(s.helpers[h])]) else s
    case HelperQuits(h) =>
      if h in s.helpers && s.helpers[h].HEncoded? then s.(helpers := s.helpers[h := HGone]) else s
    case HelperCrashes(h) => if h in s.helpers then s.(helpers := s.helpers[h := HGone]) else s
  }

  function Run<T>(j: Job<T>, s: State<T>, events: seq<Event>): State<T>
    decreases |events|
  {
    if events == [] then s else Run(j, Do(j, s, events[0]), events[1..])
  }

  lemma {:induction false} RunConcat<T>(j: Job<T>, s: State<T>, a: seq<Event>, b: seq<Event>)
    ensures Run(j, s, a + b) == Run(j, Run(j, s, a), b)
    decreases |a|
  {
    hide Do;
    if a == [] {
      assert a + b == b;
    } else {
      assert (a + b)[1..] == a[1..] + b;
      RunConcat(j, Do(j, s, a[0]), a[1..], b);
    }
  }

  // --- Safety -------------------------------------------------------------

  ghost predicate HelperOk(count: nat, stored: set<nat>, p: Helper) {
    match p
    case HTop => true
    case HGone => true
    case HUploaded(i) => i < count && i in stored
    case HFinished(i) => i < count && i in stored
    case HNoting(i) => i < count
    case HEncoding(i) => i < count
    case HEncoded(i) => i < count
    case HLeaving(i) => i < count
  }

  ghost predicate CoordinatorOk(count: nat, mine: set<nat>, done: set<nat>, c: Coordinator) {
    match c
    case Noting(i) => i < count
    case Encoding(i) => i < count
    case Finishing(i) => i < count && i in mine
    case Returned => Range(count) <= done
    case _ => true
  }

  ghost predicate AsPlanned<T>(j: Job<T>, pieces: map<nat, T>) {
    forall i :: i in pieces ==> pieces[i] == j.piece(i)
  }

  ghost predicate Inv<T>(j: Job<T>, s: State<T>) {
    && (forall k :: 0 <= k < |s.board.todo| ==> s.board.todo[k] < j.count)
    && s.board.done <= Range(j.count)
    && s.board.done <= s.mine.Keys + s.stored.Keys
    && AsPlanned(j, s.mine) && AsPlanned(j, s.stored)
    && (forall h :: h in s.helpers ==> HelperOk(j.count, s.stored.Keys, s.helpers[h]))
    && CoordinatorOk(j.count, s.mine.Keys, s.board.done, s.coordinator)
  }

  ghost function Range(n: nat): (r: set<nat>)
    ensures |r| == n && forall i: nat :: i in r <==> i < n
  {
    if n == 0 then {} else Range(n - 1) + {n - 1}
  }

  lemma {:induction false} SubsetSize(a: set<nat>, b: set<nat>)
    requires a <= b
    ensures |a| <= |b| && (|a| == |b| ==> a == b)
  {
    if a != {} {
      var x :| x in a;
      SubsetSize(a - {x}, b - {x});
    }
  }

  lemma PopKeepsInv<T>(j: Job<T>, s: State<T>, now: real)
    requires Inv(j, s) && s.coordinator.Top?
    ensures Inv(j, CoordinatorStep(j, s, now))
  {
  }

  lemma WorkKeepsInv<T>(j: Job<T>, s: State<T>, now: real)
    requires Inv(j, s) && (s.coordinator.Noting? || s.coordinator.Encoding? || s.coordinator.Finishing?)
    ensures Inv(j, CoordinatorStep(j, s, now))
  {
  }

  lemma OrphanKeepsInv<T>(j: Job<T>, s: State<T>, now: real)
    requires Inv(j, s) && (s.coordinator.ReadingDone? || s.coordinator.Counting?)
    ensures Inv(j, CoordinatorStep(j, s, now))
  {
    if s.coordinator.Counting? {
      SubsetSize(s.board.done, Range(j.count));
    } else {
      var orphans := Missing(j.count, s.board.done + s.coordinator.busy + s.coordinator.queued);
      assert orphans != [] ==> orphans[0] in orphans;
    }
  }

  lemma CoordinatorKeepsInv<T>(j: Job<T>, s: State<T>, now: real)
    requires Inv(j, s)
    ensures Inv(j, CoordinatorStep(j, s, now))
  {
    match s.coordinator
    case Top => PopKeepsInv(j, s, now);
    case Noting(_) => WorkKeepsInv(j, s, now);
    case Encoding(_) => WorkKeepsInv(j, s, now);
    case Finishing(_) => WorkKeepsInv(j, s, now);
    case ReadingDone(_, _) => OrphanKeepsInv(j, s, now);
    case Counting => OrphanKeepsInv(j, s, now);
    case _ =>
  }

  lemma HelperKeepsInv<T>(j: Job<T>, s: State<T>, h: nat, now: real)
    requires Inv(j, s) && h in s.helpers
    ensures Inv(j, HelperStep(j, s, h, now))
  {
    assert HelperOk(j.count, s.stored.Keys, s.helpers[h]);
  }

  lemma DoKeepsInv<T>(j: Job<T>, s: State<T>, e: Event)
    requires Inv(j, s)
    ensures Inv(j, Do(j, s, e))
  {
    match e
    case CoordinatorSteps(now) => CoordinatorKeepsInv(j, s, now);
    case HelperSteps(h, now) => if h in s.helpers { HelperKeepsInv(j, s, h, now); }
    case _ =>
  }

  lemma {:induction false} RunKeepsInv<T>(j: Job<T>, s: State<T>, events: seq<Event>)
    requires Inv(j, s)
    ensures Inv(j, Run(j, s, events))
    decreases |events|
  {
    if events != [] {
      DoKeepsInv(j, s, events[0]);
      RunKeepsInv(j, Do(j, s, events[0]), events[1..]);
    }
  }

  ghost predicate CanGather<T>(j: Job<T>, s: State<T>) {
    forall i :: 0 <= i < j.count ==> i in s.mine || i in s.stored
  }

  /** The pieces handed to the join: the coordinator's own, or else fetched from storage. */
  ghost function Gathered<T>(j: Job<T>, s: State<T>): seq<T>
    requires CanGather(j, s)
  {
    seq(j.count, i requires 0 <= i < j.count => if i in s.mine then s.mine[i] else s.stored[i])
  }

  lemma ReturnedGathers<T>(j: Job<T>, s: State<T>)
    requires Inv(j, s) && s.coordinator == Returned
    ensures CanGather(j, s)
    ensures Gathered(j, s) == seq(j.count, i requires 0 <= i < j.count => j.piece(i))
  {
    forall i: nat | i < j.count ensures i in s.mine || i in s.stored {
      assert i in Range(j.count);
    }
    var got, want := Gathered(j, s), seq(j.count, i requires 0 <= i < j.count => j.piece(i));
    hide CoordinatorOk, HelperOk;
    forall i: nat | i < j.count ensures got[i] == want[i] {
      assert i in s.mine ==> s.mine[i] == j.piece(i);
    }
    assert |got| == |want|;
  }

  /** Whatever the helpers did, `done` never leaves 0..count-1, every done piece can
      be had, and when the coordinator returns the join gets every piece once, in
      order, as the plan writes it. */
  lemma EveryPieceJoins<T>(j: Job<T>, events: seq<Event>)
    ensures var s := Run(j, Start(j.count), events);
            && (forall i :: i in s.board.done ==> i < j.count && (i in s.mine || i in s.stored))
            && (s.coordinator == Returned ==>
                  CanGather(j, s)
                  && Gathered(j, s) == seq(j.count, i requires 0 <= i < j.count => j.piece(i)))
  {
    RunKeepsInv(j, Start(j.count), events);
    var s := Run(j, Start(j.count), events);
    if s.coordinator == Returned {
      ReturnedGathers(j, s);
    }
  }

  /** What `unclaimed` returns when nothing comes between its reads. */
  function Unclaimed(b: Board, count: nat, now: real, staleAfter: real): seq<nat> {
    Missing(count, b.done + (b.inflight.Keys - Stale(b.inflight, now, staleAfter)) + Queued(b))
  }

  /** Its reads, one after the other and undisturbed, come to that. */
  lemma ReadsUnclaimed<T>(j: Job<T>, s: State<T>, now: real)
    requires s.coordinator == ReadingInflight
    ensures var orphans := Unclaimed(s.board, j.count, now, j.staleAfter);
            Run(j, s, [CoordinatorSteps(now), CoordinatorSteps(now), CoordinatorSteps(now), CoordinatorSteps(now)]).coordinator
            == if orphans != [] then Encoding(orphans[0]) else Counting
  {
    var e := CoordinatorSteps(now);
    FourReads(j, s, now);
    hide Do, Unclaimed;
    assert [e, e, e, e][1..] == [e, e, e] && [e, e, e][1..] == [e, e] && [e, e][1..] == [e] && [e][1..] == [];
    var a := Do(j, s, e);
    var b := Do(j, a, e);
    var c := Do(j, b, e);
    assert Run(j, c, [e]) == Run(j, Do(j, c, e), []);
    assert Run(j, b, [e, e]) == Run(j, c, [e]);
    assert Run(j, a, [e, e, e]) == Run(j, b, [e, e]);
  }

  lemma FourReads<T>(j: Job<T>, s: State<T>, now: real)
    requires s.coordinator == ReadingInflight
    ensures var e, orphans := CoordinatorSteps(now), Unclaimed(s.board, j.count, now, j.staleAfter);
            Do(j, Do(j, Do(j, Do(j, s, e), e), e), e).coordinator
            == if orphans != [] then Encoding(orphans[0]) else Counting
  {
  }

  /** At every moment of every run a piece is done and can be had, or queued, or freshly
      in flight, or one that `unclaimed` returns -- never two of done and returned. */
  lemma EveryPieceIsSomewhere<T>(j: Job<T>, events: seq<Event>, now: real, i: nat)
    requires i < j.count
    ensures var s := Run(j, Start(j.count), events);
            var inFlight := i in s.board.inflight && now - s.board.inflight[i] <= j.staleAfter;
            && (i in s.board.done ==> i in s.mine || i in s.stored)
            && (i in s.board.done || i in s.board.todo || inFlight || i in Unclaimed(s.board, j.count, now, j.staleAfter))
            && !(i in s.board.done && i in Unclaimed(s.board, j.count, now, j.staleAfter))
  {
    RunKeepsInv(j, Start(j.count), events);
    var s := Run(j, Start(j.count), events);
    if i in s.board.done {
      DoneIsHad(j, s, i);
    }
    UnclaimedIs(s.board, j.count, now, j.staleAfter, i);
    hide Run, Inv, Unclaimed;
  }

  lemma DoneIsHad<T>(j: Job<T>, s: State<T>, i: nat)
    requires Inv(j, s) && i in s.board.done
    ensures i in s.mine || i in s.stored
  {
  }

  lemma UnclaimedIs(b: Board, count: nat, now: real, staleAfter: real, i: nat)
    requires i < count
    ensures i in Unclaimed(b, count, now, staleAfter) <==>
              i !in b.done && i !in b.todo && !(i in b.inflight && now - b.inflight[i] <= staleAfter)
  {
  }

  // --- No piece is lost, and no helper is needed ---------------------------

  /** Nothing still in flight is fresh. */
  ghost predicate AllStale<T>(j: Job<T>, s: State<T>, now: real) {
    forall i :: i in s.board.inflight ==> now - s.board.inflight[i] > j.staleAfter
  }

  ghost function Work<T>(j: Job<T>, s: State<T>): int {
    |s.board.todo| + j.count - |s.board.done|
  }

  /** The coordinator's next `n` steps, with nobody else about. */
  function Alone<T>(j: Job<T>, s: State<T>, now: real, n: nat): State<T>
    decreases n
  {
    if n == 0 then s else Alone(j, CoordinatorStep(j, s, now), now, n - 1)
  }

  lemma {:induction false} AloneIsRun<T>(j: Job<T>, s: State<T>, now: real, n: nat)
    ensures Alone(j, s, now, n) == Run(j, s, seq(n, _ => CoordinatorSteps(now)))
    decreases n
  {
    hide CoordinatorStep;
    var events := seq(n, _ => CoordinatorSteps(now));
    if n > 0 {
      assert events[1..] == seq(n - 1, _ => CoordinatorSteps(now));
      AloneIsRun(j, CoordinatorStep(j, s, now), now, n - 1);
    }
  }

  lemma {:induction false} AloneMore<T>(j: Job<T>, s: State<T>, now: real, m: nat, n: nat)
    ensures Alone(j, s, now, m + n) == Alone(j, Alone(j, s, now, m), now, n)
    decreases m
  {
    hide CoordinatorStep;
    if m > 0 {
      AloneMore(j, CoordinatorStep(j, s, now), now, m - 1, n);
    }
  }

  ghost function Distance(c: Coordinator): nat {
    match c
    case Top => 0 case Returned => 0 case Failed => 0
    case Noting(_) => 3 case Encoding(_) => 2 case Finishing(_) => 1
    case ReadingInflight => 6 case ReadingTodo(_, _) => 5 case DroppingStale(_, _, _) => 4
    case ReadingDone(_, _) => 3 case Counting => 1
  }

  /** Everything in flight is stale, but for the piece the coordinator has just noted itself. */
  ghost predicate StaleButOwn<T>(j: Job<T>, s: State<T>, now: real) {
    forall i :: i in s.board.inflight ==>
      now - s.board.inflight[i] > j.staleAfter || s.coordinator == Encoding(i) || s.coordinator == Finishing(i)
  }

  /** A step of a lone coordinator keeps the notes stale and never adds to the work. */
  lemma AloneStep<T>(j: Job<T>, s: State<T>, now: real)
    requires Inv(j, s) && StaleButOwn(j, s, now)
    ensures var t := CoordinatorStep(j, s, now);
            && Inv(j, t) && StaleButOwn(j, t, now)
            && |t.board.todo| <= |s.board.todo|
            && s.board.done <= t.board.done
  {
    CoordinatorKeepsInv(j, s, now);
    hide Inv;
  }

  /** Each step leads towards the top of the loop; a piece in hand gets done. */
  lemma StepLeads<T>(j: Job<T>, s: State<T>, now: real)
    ensures var t := CoordinatorStep(j, s, now);
            && (s.coordinator != Failed ==> t.coordinator != Failed)
            && (s.coordinator != Top && s.coordinator != Returned && s.coordinator != Failed ==>
                  Distance(t.coordinator) < Distance(s.coordinator))
            && (forall i :: s.coordinator == Encoding(i) ==> t.coordinator == Finishing(i))
            && (forall i :: s.coordinator == Finishing(i) ==> i in t.board.done)
  {
  }

  /** From any point the coordinator is soon back at the top of its loop, or done,
      with no more to do than before. */
  lemma {:induction false} BackToTop<T>(j: Job<T>, s: State<T>, now: real) returns (n: nat)
    requires Inv(j, s) && StaleButOwn(j, s, now) && s.coordinator != Failed
    ensures var t := Alone(j, s, now, n);
            && Inv(j, t) && StaleButOwn(j, t, now) && (t.coordinator == Top || t.coordinator == Returned)
            && |t.board.todo| <= |s.board.todo| && s.board.done <= t.board.done
            && (forall i :: s.coordinator == Encoding(i) || s.coordinator == Finishing(i) ==> i in t.board.done)
    decreases Distance(s.coordinator)
  {
    hide CoordinatorStep, Inv, StaleButOwn, Distance;
    n := 0;
    if s.coordinator != Top && s.coordinator != Returned {
      AloneStep(j, s, now);
      StepLeads(j, s, now);
      var k := BackToTop(j, CoordinatorStep(j, s, now), now);
      n := k + 1;
    }
  }

  /** With every note stale, the sweep of `unclaimed` leaves nothing in flight and nobody busy. */
  lemma StaleSwept<T>(j: Job<T>, s: State<T>, now: real)
    requires AllStale(j, s, now) && s.coordinator == DroppingStale(s.board.inflight, now, {})
    ensures CoordinatorStep(j, s, now)
            == s.(coordinator := ReadingDone({}, {}), board := s.board.(inflight := map[]))
  {
    var stale := Stale(s.board.inflight, now, j.staleAfter);
    assert stale == s.board.inflight.Keys;
    assert s.board.inflight.Keys - stale == {} && s.board.inflight - stale == map[];
  }

  lemma ReadsEmpty<T>(j: Job<T>, s: State<T>, now: real)
    requires s.coordinator == Top && s.board.todo == []
    ensures Alone(j, s, now, 3) == s.(coordinator := DroppingStale(s.board.inflight, now, {}))
  {
    assert Queued(s.board) == {};
    AloneFirst(j, s, now, 2);
    var a := CoordinatorStep(j, s, now);
    AloneFirst(j, a, now, 1);
    AloneFirst(j, CoordinatorStep(j, a, now), now, 0);
  }

  /** The coordinator alone, with an empty list: `unclaimed` counts nothing as queued or
      busy, whatever notes dead helpers left. */
  lemma UnclaimedAlone<T>(j: Job<T>, s: State<T>, now: real)
    requires Inv(j, s) && AllStale(j, s, now) && s.coordinator == Top && s.board.todo == []
    ensures var t := Alone(j, s, now, 4);
            t == s.(coordinator := ReadingDone({}, {}), board := s.board.(inflight := map[])) && Inv(j, t)
  {
    ReadsEmpty(j, s, now);
    var c := s.(coordinator := DroppingStale(s.board.inflight, now, {}));
    StaleSwept(j, c, now);
    hide CoordinatorStep, AllStale;
    AloneMore(j, s, now, 3, 1);
    AloneFirst(j, c, now, 0);
  }

  lemma AloneFirst<T>(j: Job<T>, s: State<T>, now: real, n: nat)
    ensures Alone(j, s, now, n + 1) == Alone(j, CoordinatorStep(j, s, now), now, n)
  {
  }

  lemma StaleStays<T>(j: Job<T>, s: State<T>, now: real)
    requires AllStale(j, s, now)
    ensures StaleButOwn(j, s, now)
  {
  }

  lemma Pops<T>(j: Job<T>, s: State<T>, now: real)
    requires s.coordinator == Top && s.board.todo != []
    ensures var a := CoordinatorStep(j, s, now);
            |a.board.todo| < |s.board.todo| && a.board.done == s.board.done && a.coordinator.Noting?
  {
  }

  /** A pass that takes a queued piece. */
  lemma QueuedPass<T>(j: Job<T>, s: State<T>, now: real) returns (n: nat)
    requires Inv(j, s) && AllStale(j, s, now) && s.coordinator == Top && s.board.todo != []
    ensures var t := Alone(j, s, now, n);
            && Inv(j, t) && AllStale(j, t, now)
            && (t.coordinator == Returned || (t.coordinator == Top && 0 <= Work(j, t) < Work(j, s)))
  {
    hide Inv, StaleButOwn, AllStale, CoordinatorStep, Alone;
    var a := CoordinatorStep(j, s, now);
    StaleStays(j, s, now);
    AloneStep(j, s, now);
    Pops(j, s, now);
    var k := BackToTop(j, a, now);
    n := k + 1;
    AloneFirst(j, s, now, k);
    NothingStale(j, Alone(j, a, now, k), now);
    Sizes(j, a, Alone(j, a, now, k));
  }

  /** A pass that finds the list empty. */
  lemma EmptyPass<T>(j: Job<T>, s: State<T>, now: real) returns (n: nat)
    requires Inv(j, s) && AllStale(j, s, now) && s.coordinator == Top && s.board.todo == []
    ensures var t := Alone(j, s, now, n);
            && Inv(j, t) && AllStale(j, t, now)
            && (t.coordinator == Returned || (t.coordinator == Top && 0 <= Work(j, t) < Work(j, s)))
  {
    hide CoordinatorStep, Inv, Alone;
    UnclaimedAlone(j, s, now);
    var k := OrphanPass(j, Alone(j, s, now, 4), now);
    AloneMore(j, s, now, 4, k);
    n := 4 + k;
  }

  /** One pass of a lone coordinator's loop: it returns, or less is left to do. A
      piece that is in no list is one `unclaimed` finds. */
  lemma PassProgress<T>(j: Job<T>, s: State<T>, now: real) returns (n: nat)
    requires Inv(j, s) && AllStale(j, s, now) && s.coordinator == Top
    ensures var t := Alone(j, s, now, n);
            && Inv(j, t) && AllStale(j, t, now)
            && (t.coordinator == Returned || (t.coordinator == Top && 0 <= Work(j, t) < Work(j, s)))
  {
    if s.board.todo != [] {
      n := QueuedPass(j, s, now);
    } else {
      n := EmptyPass(j, s, now);
    }
  }

  lemma Sizes<T>(j: Job<T>, s: State<T>, t: State<T>)
    requires Inv(j, t) && s.board.done <= t.board.done
    ensures |s.board.done| <= |t.board.done| <= j.count
    ensures s.board.done != t.board.done ==> |s.board.done| < |t.board.done|
  {
    SubsetSize(s.board.done, t.board.done);
    SubsetSize(t.board.done, Range(j.count));
  }

  lemma NothingStale<T>(j: Job<T>, t: State<T>, now: real)
    requires StaleButOwn(j, t, now) && (t.coordinator == Top || t.coordinator == Returned)
    ensures AllStale(j, t, now)
  {
  }

  /** An orphan is encoded and finished, so less is left. */
  lemma FoundPass<T>(j: Job<T>, d: State<T>, now: real) returns (n: nat)
    requires Inv(j, d) && StaleButOwn(j, d, now) && d.coordinator.ReadingDone? && Missing(j.count, d.board.done) != []
    requires CoordinatorStep(j, d, now) == d.(coordinator := Encoding(Missing(j.count, d.board.done)[0]))
    ensures var t := Alone(j, d, now, n);
            && Inv(j, t) && AllStale(j, t, now)
            && (t.coordinator == Returned || (t.coordinator == Top && 0 <= Work(j, t) < Work(j, d)))
  {
    hide CoordinatorStep, Inv, StaleButOwn, AllStale, Missing, Alone;
    AloneStep(j, d, now);
    var e := CoordinatorStep(j, d, now);
    var i := Missing(j.count, d.board.done)[0];
    assert i in Missing(j.count, d.board.done);
    var k := BackToTop(j, e, now);
    n := k + 1;
    AloneFirst(j, d, now, k);
    var t := Alone(j, e, now, k);
    NothingStale(j, t, now);
    assert i in t.board.done && i !in d.board.done;
    Sizes(j, d, t);
  }

  /** With nothing missing the count is full, and the coordinator returns. */
  lemma FullPass<T>(j: Job<T>, d: State<T>, now: real)
    requires Inv(j, d) && d.coordinator == ReadingDone({}, {}) && d.board.inflight == map[]
    requires Missing(j.count, d.board.done) == []
    ensures var t := Alone(j, d, now, 2);
            Inv(j, t) && AllStale(j, t, now) && t.coordinator == Returned
  {
    var e := CoordinatorStep(j, d, now);
    AloneStep(j, d, now);
    assert d.board.done + {} + {} == d.board.done;
    var orphans := Missing(j.count, d.board.done);
    assert forall i :: i in Range(j.count) ==> i in orphans || i in d.board.done;
    SubsetSize(Range(j.count), d.board.done);
    AloneStep(j, e, now);
    AloneFirst(j, d, now, 1);
    AloneFirst(j, e, now, 0);
    hide Inv;
  }

  lemma OrphanPass<T>(j: Job<T>, d: State<T>, now: real) returns (n: nat)
    requires Inv(j, d) && d.coordinator == ReadingDone({}, {}) && d.board.todo == [] && d.board.inflight == map[]
    ensures var t := Alone(j, d, now, n);
            && Inv(j, t) && AllStale(j, t, now)
            && (t.coordinator == Returned || (t.coordinator == Top && 0 <= Work(j, t) < Work(j, d)))
  {
    hide Inv;
    assert d.board.done + {} + {} == d.board.done;
    if Missing(j.count, d.board.done) != [] {
      n := FoundPass(j, d, now);
    } else {
      n := 2;
      FullPass(j, d, now);
    }
  }

  lemma {:induction false} FinishesAlone<T>(j: Job<T>, s: State<T>, now: real) returns (n: nat)
    requires Inv(j, s) && AllStale(j, s, now) && (s.coordinator == Top || s.coordinator == Returned)
    ensures Alone(j, s, now, n).coordinator == Returned
    decreases if s.coordinator == Returned then 0 else 1 + Work(j, s)
  {
    hide CoordinatorStep, Inv, AllStale;
    n := 0;
    if s.coordinator == Top {
      Sizes(j, s, s);
      var m := PassProgress(j, s, now);
      var k := FinishesAlone(j, Alone(j, s, now, m), now);
      AloneMore(j, s, now, m, k);
      n := m + k;
    }
  }

  lemma FinishesFrom<T>(j: Job<T>, s: State<T>, now: real) returns (n: nat)
    requires Inv(j, s) && StaleButOwn(j, s, now) && s.coordinator != Failed
    ensures Alone(j, s, now, n).coordinator == Returned
  {
    hide CoordinatorStep, Inv, StaleButOwn, AllStale, Alone;
    var m := BackToTop(j, s, now);
    NothingStale(j, Alone(j, s, now, m), now);
    var k := FinishesAlone(j, Alone(j, s, now, m), now);
    AloneMore(j, s, now, m, k);
    n := m + k;
  }

  /** No run can lose a piece: however the helpers left things, once their notes are
      stale the coordinator alone brings the run to a complete join. */
  lemma NoPieceIsLost<T>(j: Job<T>, events: seq<Event>, now: real) returns (n: nat)
    requires var s := Run(j, Start(j.count), events);
             StaleButOwn(j, s, now) && s.coordinator != Failed
    ensures Run(j, Run(j, Start(j.count), events), seq(n, _ => CoordinatorSteps(now))).coordinator == Returned
  {
    var s := Run(j, Start(j.count), events);
    RunKeepsInv(j, Start(j.count), events);
    n := FinishesFrom(j, s, now);
    AloneIsRun(j, s, now, n);
  }
}
