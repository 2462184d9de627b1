/** What a helper does to the board (app/worker/chunked.py: `help_encode`, `take`,
    `finish`, `give_back`): it takes the pieces in order, and what it cannot finish it
    gives back. */
module PieceHelpers {
  import opened Prelude
  import opened PieceBoard

  /** The helper's next `n` steps, with nobody else about. */
  function Helping<T>(j: Job<T>, s: State<T>, h: nat, now: real, n: nat): State<T>
    decreases n
  {
    if n == 0 then s else Helping(j, Do(j, s, HelperSteps(h, now)), h, now, n - 1)
  }

  lemma {:induction false} HelpingIsRun<T>(j: Job<T>, s: State<T>, h: nat, now: real, n: nat)
    ensures Helping(j, s, h, now, n) == Run(j, s, seq(n, _ => HelperSteps(h, now)))
    decreases n
  {
    hide Do;
    var events := seq(n, _ => HelperSteps(h, now));
    if n > 0 {
      assert events[1..] == seq(n - 1, _ => HelperSteps(h, now));
      HelpingIsRun(j, Do(j, s, HelperSteps(h, now)), h, now, n - 1);
    }
  }

  lemma {:induction false} HelpingMore<T>(j: Job<T>, s: State<T>, h: nat, now: real, m: nat, n: nat)
    ensures Helping(j, s, h, now, m + n) == Helping(j, Helping(j, s, h, now, m), h, now, n)
    decreases m
  {
    hide Do;
    if m > 0 {
      HelpingMore(j, Do(j, s, HelperSteps(h, now)), h, now, m - 1, n);
    }
  }

  ghost predicate Free<T>(s: State<T>, h: nat) {
    h in s.helpers && s.helpers[h] == HTop
  }

  /** A free helper takes the piece at the front and notes when. */
  lemma Takes<T>(j: Job<T>, s: State<T>, h: nat, now: real)
    requires Free(s, h) && s.board.todo != []
    ensures var i := s.board.todo[0];
            Helping(j, s, h, now, 2)
            == s.(board := Board(s.board.todo[1..], s.board.inflight[i := now], s.board.done), helpers := s.helpers[h := HEncoding(i)])
  {
    var i := s.board.todo[0];
    assert s.helpers[h := HNoting(i)][h := HEncoding(i)] == s.helpers[h := HEncoding(i)];
    var a := Do(j, s, HelperSteps(h, now));
    assert Helping(j, a, h, now, 1) == Helping(j, Do(j, a, HelperSteps(h, now)), h, now, 0);
  }

  /** It encodes it, stores it as planned, and marks it done. */
  lemma Stores<T>(j: Job<T>, s: State<T>, h: nat, now: real, i: nat)
    requires h in s.helpers && s.helpers[h] == HEncoding(i)
    ensures Helping(j, s, h, now, 4)
            == s.(board := Board(s.board.todo, s.board.inflight - {i}, s.board.done + {i}),
                  helpers := s.helpers[h := HTop], stored := s.stored[i := j.piece(i)])
  {
    var a := s.(helpers := s.helpers[h := HEncoded(i)]);
    var b := s.(helpers := s.helpers[h := HUploaded(i)], stored := s.stored[i := j.piece(i)]);
    var c := b.(helpers := s.helpers[h := HFinished(i)], board := Board(s.board.todo, s.board.inflight - {i}, s.board.done + {i}));
    assert a.helpers[h := HUploaded(i)] == b.helpers && b.helpers[h := HFinished(i)] == c.helpers;
    assert c.helpers[h := HTop] == s.helpers[h := HTop];
    HelpingFirst(j, s, h, now, 3);
    HelpingFirst(j, a, h, now, 2);
    HelpingFirst(j, b, h, now, 1);
    HelpingFirst(j, c, h, now, 0);
  }

  lemma HelpingFirst<T>(j: Job<T>, s: State<T>, h: nat, now: real, n: nat)
    ensures Helping(j, s, h, now, n + 1) == Helping(j, Do(j, s, HelperSteps(h, now)), h, now, n)
  {
  }

  /** One piece: nothing else changes, and the helper is free again. */
  lemma OnePiece<T>(j: Job<T>, s: State<T>, h: nat, now: real)
    requires Free(s, h) && s.board.todo != []
    ensures var i := s.board.todo[0];
            Helping(j, s, h, now, 6)
            == s.(board := Board(s.board.todo[1..], s.board.inflight - {i}, s.board.done + {i}), stored := s.stored[i := j.piece(i)])
  {
    hide Helping, Do;
    var i := s.board.todo[0];
    Takes(j, s, h, now);
    Stores(j, Helping(j, s, h, now, 2), h, now, i);
    HelpingMore(j, s, h, now, 2, 4);
    assert s.helpers[h := HEncoding(i)][h := HTop] == s.helpers;
    assert s.board.inflight[i := now] - {i} == s.board.inflight - {i};
  }

  /** The board after a helper's first `k` pieces. */
  ghost predicate After<T>(j: Job<T>, s: State<T>, h: nat, k: nat)
    requires k <= j.count
  {
    && Free(s, h) && s.coordinator == Top && s.mine == map[]
    && |s.board.todo| == j.count - k && (forall i :: 0 <= i < j.count - k ==> s.board.todo[i] == k + i)
    && s.board.inflight == map[] && s.board.done == Range(k)
    && s.stored.Keys == Range(k) && AsPlanned(j, s.stored)
  }

  lemma AfterOne<T>(j: Job<T>, s: State<T>, h: nat, k: nat)
    requires k < j.count && After(j, s, h, k)
    ensures s.board.todo != [] && s.board.todo[0] == k
    ensures After(j, s.(board := Board(s.board.todo[1..], s.board.inflight - {k}, s.board.done + {k}),
                        stored := s.stored[k := j.piece(k)]), h, k + 1)
  {
    assert s.board.inflight - {k} == map[];
  }

  lemma NextPiece<T>(j: Job<T>, s: State<T>, h: nat, now: real, k: nat)
    requires k < j.count && After(j, s, h, k)
    ensures After(j, Helping(j, s, h, now, 6), h, k + 1)
  {
    AfterOne(j, s, h, k);
    assert Free(s, h);
    hide Helping, Do, After;
    OnePiece(j, s, h, now);
  }

  lemma NoPieceYet<T>(j: Job<T>, h: nat)
    ensures After(j, Do(j, Start(j.count), HelperJoins(h)), h, 0)
  {
    assert Range(0) == {};
  }

  /** A helper alone on a board just opened takes the pieces 0, 1, 2, ... in order, and
      after `k` of them exactly those are done and stored, and the rest still queued. */
  lemma {:induction false} LoneHelper<T>(j: Job<T>, h: nat, now: real, k: nat)
    requires k <= j.count
    ensures After(j, Helping(j, Do(j, Start(j.count), HelperJoins(h)), h, now, 6 * k), h, k)
  {
    hide Helping, Do, After, Start;
    var start := Do(j, Start(j.count), HelperJoins(h));
    if k == 0 {
      NoPieceYet(j, h);
      HelpingNone(j, start, h, now);
    } else {
      LoneHelper(j, h, now, k - 1);
      NextPiece(j, Helping(j, start, h, now, 6 * (k - 1)), h, now, k - 1);
      HelpingMore(j, start, h, now, 6 * (k - 1), 6);
    }
  }

  lemma HelpingNone<T>(j: Job<T>, s: State<T>, h: nat, now: real)
    ensures Helping(j, s, h, now, 0) == s
  {
  }

  /** With the list empty a helper leaves, and nothing else changes. */
  lemma LeavesWhenEmpty<T>(j: Job<T>, s: State<T>, h: nat, now: real)
    requires Free(s, h) && s.board.todo == []
    ensures Do(j, s, HelperSteps(h, now)) == s.(helpers := s.helpers[h := HGone])
  {
  }

  ghost predicate InHand(p: Helper, i: nat) {
    p in {HEncoding(i), HEncoded(i), HUploaded(i), HFinished(i)}
  }

  /** A helper that fails with a piece in hand puts it back at the front, no longer in
      flight; one that fails between the pop and the note leaves it in no list. */
  lemma GivesBack<T>(j: Job<T>, s: State<T>, h: nat, now: real, i: nat)
    requires h in s.helpers
    ensures InHand(s.helpers[h], i) ==>
              Run(j, s, [HelperFails(h), HelperSteps(h, now)])
              == s.(board := Board([i] + s.board.todo, s.board.inflight - {i}, s.board.done), helpers := s.helpers[h := HGone])
    ensures s.helpers[h] in {HTop, HNoting(i)} ==> Do(j, s, HelperFails(h)) == s.(helpers := s.helpers[h := HGone])
  {
    var events := [HelperFails(h), HelperSteps(h, now)];
    assert events[1..] == [HelperSteps(h, now)] && events[1..][1..] == [];
    if InHand(s.helpers[h], i) {
      var a := Do(j, s, events[0]);
      assert a == s.(helpers := s.helpers[h := HLeaving(i)]);
      assert a.helpers[h := HGone] == s.helpers[h := HGone];
      assert Run(j, a, events[1..]) == Do(j, a, HelperSteps(h, now));
    }
  }

  /** A helper that finds the job over once it has encoded leaves with nothing stored; at
      no other point does it leave so. */
  lemma QuitsQuietly<T>(j: Job<T>, s: State<T>, h: nat)
    requires h in s.helpers
    ensures Do(j, s, HelperQuits(h))
            == if exists i :: s.helpers[h] == HEncoded(i) then s.(helpers := s.helpers[h := HGone]) else s
  {
  }
}
