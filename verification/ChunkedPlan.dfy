/** Where the MP4's pieces start (app/worker/chunked.py: `frame_starts`, `encode`). */
module ChunkedPlan {
  import opened Prelude
  import opened RateConversion
  import opened PiecePlan

  predicate Suitable(times: seq<real>, rate: Option<real>, i: nat)
    requires i < |times|
  {
    rate.None? || i == 0 || OutputTick(times[i - 1], rate.value) < OutputTick(times[i], rate.value)
  }

  predicate Eligible(times: seq<real>, rate: Option<real>, mark: int, i: nat)
    requires i < |times|
  {
    times[i] >= mark as real - MICRO && Suitable(times, rate, i)
  }

  ghost predicate FirstEligible(times: seq<real>, rate: Option<real>, mark: int, i: nat) {
    i < |times| && Eligible(times, rate, mark, i)
    && forall k :: 0 <= k < i ==> !Eligible(times, rate, mark, k)
  }

  ghost predicate NoneEligible(times: seq<real>, rate: Option<real>, mark: int) {
    forall k :: 0 <= k < |times| ==> !Eligible(times, rate, mark, k)
  }

  ghost predicate Multiple(m: int, chunk: int) {
    exists q :: m == q * chunk
  }

  /** The first multiple of `chunk` more than a microsecond after `s`. */
  ghost predicate NextMark(chunk: int, s: real, mark: int) {
    Multiple(mark, chunk) && s + MICRO < mark as real <= s + MICRO + chunk as real
  }

  /** Frame `n` is the next start after frame `i`: the first suitable one at or after the next mark. */
  ghost predicate Follows(times: seq<real>, rate: Option<real>, chunk: int, i: nat, n: nat)
    requires i < |times|
  {
    exists mark :: NextMark(chunk, times[i], mark) && mark as real <= times[|times| - 1]
                   && FirstEligible(times, rate, mark, n)
  }

  ghost predicate NothingFollows(times: seq<real>, rate: Option<real>, chunk: int, i: nat)
    requires i < |times|
  {
    forall mark :: NextMark(chunk, times[i], mark) ==>
      times[|times| - 1] < mark as real || NoneEligible(times, rate, mark)
  }

  ghost predicate Chain(times: seq<real>, rate: Option<real>, chunk: int, raw: seq<nat>) {
    && |raw| > 0 && (forall j :: 0 <= j < |raw| ==> raw[j] < |times|)
    && FirstEligible(times, rate, 0, raw[0])
    && forall j :: 0 < j < |raw| ==> Follows(times, rate, chunk, raw[j - 1], raw[j])
  }

  /** The starts before a short remainder is joined to the last piece. */
  ghost predicate Greedy(times: seq<real>, rate: Option<real>, chunk: int, raw: seq<nat>) {
    if raw == [] || times == [] then raw == [] && (times == [] || times[|times| - 1] < 0.0 || NoneEligible(times, rate, 0))
    else times[|times| - 1] >= 0.0 && Chain(times, rate, chunk, raw) && NothingFollows(times, rate, chunk, raw[|raw| - 1])
  }

  /** A remainder under half a piece joins the last piece. */
  ghost function Kept(times: seq<real>, chunk: int, raw: seq<nat>): (kept: seq<nat>)
  {
    if |raw| > 1 && raw[|raw| - 1] < |times| && times[|times| - 1] - times[raw[|raw| - 1]] < chunk as real / 2.0
    then raw[..|raw| - 1] else raw
  }

  /** The piece starts: the greedy ones, a short remainder joined. */
  ghost predicate PieceStarts(times: seq<real>, rate: Option<real>, chunk: int, starts: seq<real>) {
    exists raw: seq<nat> :: Greedy(times, rate, chunk, raw) && StartsAt(times, Kept(times, chunk, raw), starts)
  }

  lemma NextMarkUnique(chunk: int, s: real, a: int, b: int)
    requires chunk > 0 && NextMark(chunk, s, a) && NextMark(chunk, s, b)
    ensures a == b
  {
    var p, q :| a == p * chunk && b == q * chunk;
    var d := p - q;
    assert a - b == d * chunk;
    assert d >= 1 ==> d * chunk >= chunk;
    assert d <= -1 ==> d * chunk <= -chunk;
  }

  lemma NextMultiple(m: int, chunk: int)
    requires Multiple(m, chunk)
    ensures Multiple(m + chunk, chunk)
  {
    var q :| m == q * chunk;
    assert m + chunk == (q + 1) * chunk;
  }

  lemma ChainExtend(times: seq<real>, rate: Option<real>, chunk: int, raw: seq<nat>, mark: int, i: nat)
    requires if raw == [] then mark == 0
             else Chain(times, rate, chunk, raw) && NextMark(chunk, times[raw[|raw| - 1]], mark)
    requires FirstEligible(times, rate, mark, i) && mark as real <= times[|times| - 1]
    ensures Chain(times, rate, chunk, raw + [i])
  {
    if raw != [] {
      assert Follows(times, rate, chunk, raw[|raw| - 1], i);
    }
  }

  /** A mark reached from start `i` either is the next mark, or lies within a
      microsecond of the start and picks the same frame again. */
  lemma MarkFromStart(times: seq<real>, rate: Option<real>, chunk: int, mark: int, i: nat, n: nat)
    requires Sorted(times) && chunk > 0 && i < |times| && Suitable(times, rate, i) && i <= n <= |times|
    requires Multiple(mark, chunk) && times[i] < mark as real <= times[i] + MICRO + chunk as real
    requires forall k :: i <= k < n ==> !Eligible(times, rate, mark, k)
    requires n < |times| ==> Eligible(times, rate, mark, n)
    ensures times[i] + MICRO < mark as real ==>
              NextMark(chunk, times[i], mark) && n > i
              && if n < |times| then times[n] > times[i] && FirstEligible(times, rate, mark, n)
                 else NoneEligible(times, rate, mark)
    ensures mark as real <= times[i] + MICRO ==> n == i
  {
    if times[i] + MICRO < mark as real {
      forall k | 0 <= k < i ensures !Eligible(times, rate, mark, k) {
        assert times[k] <= times[i];
      }
    } else {
      assert Eligible(times, rate, mark, i);
    }
  }

  /** No start follows once the mark has passed the last frame, or no frame suits it. */
  lemma NoMoreStarts(times: seq<real>, rate: Option<real>, chunk: int, mark: int, i: nat)
    requires chunk > 0 && i < |times| && Multiple(mark, chunk)
    requires times[i] < mark as real <= times[i] + MICRO + chunk as real
    requires times[|times| - 1] < mark as real || (NextMark(chunk, times[i], mark) && NoneEligible(times, rate, mark))
    ensures NothingFollows(times, rate, chunk, i)
  {
    forall m | NextMark(chunk, times[i], m)
      ensures times[|times| - 1] < m as real || NoneEligible(times, rate, m)
    {
      if NextMark(chunk, times[i], mark) {
        NextMarkUnique(chunk, times[i], m, mark);
      }
    }
  }

  /** The inner loop: on to the next frame that may start a piece. */
  method Advance(times: seq<real>, rate: Option<real>, mark: int, from: nat) returns (index: nat)
    requires from <= |times|
    ensures from <= index <= |times|
    ensures forall k :: from <= k < index ==> !Eligible(times, rate, mark, k)
    ensures index < |times| ==> Eligible(times, rate, mark, index)
  {
    hide Suitable;
    index := from;
    while index < |times| && (times[index] < mark as real - MICRO || !Suitable(times, rate, index))
      invariant from <= index <= |times|
      invariant forall k :: from <= k < index ==> !Eligible(times, rate, mark, k)
    {
      index := index + 1;
    }
  }

  /** The marks are `chunk` apart; the next one is past the start. */
  method MoveMark(mark: int, chunk: int, start: real) returns (next: int)
    requires chunk > 0 && Multiple(mark, chunk) && mark as real <= start + MICRO
    ensures Multiple(next, chunk) && mark < next && start < next as real <= start + MICRO + chunk as real
  {
    NextMultiple(mark, chunk);
    hide Multiple;
    next := mark + chunk;
    while next as real <= start
      invariant Multiple(next, chunk) && mark < next
      invariant next as real <= start + MICRO + chunk as real
      decreases start.Floor + 1 - next
    {
      NextMultiple(next, chunk);
      next := next + chunk;
    }
  }

  lemma StartsMore(times: seq<real>, raw: seq<nat>, starts: seq<real>, i: nat)
    requires StartsAt(times, raw, starts) && i < |times|
    ensures StartsAt(times, raw + [i], starts + [times[i]])
    ensures raw != [] ==> starts != [] && raw[|raw| - 1] < |times| && starts[|starts| - 1] == times[raw[|raw| - 1]]
    ensures raw == [] <==> starts == []
  {
  }

  lemma EmptyIsGreedy(times: seq<real>, rate: Option<real>, chunk: int)
    requires times == [] || times[|times| - 1] < 0.0 || NoneEligible(times, rate, 0)
    ensures Greedy(times, rate, chunk, [])
  {
  }

  lemma ChainIsGreedy(times: seq<real>, rate: Option<real>, chunk: int, raw: seq<nat>)
    requires Chain(times, rate, chunk, raw) && |raw| > 0 && raw[|raw| - 1] < |times| && times[|times| - 1] >= 0.0
    requires NothingFollows(times, rate, chunk, raw[|raw| - 1])
    ensures Greedy(times, rate, chunk, raw)
  {
  }

  lemma KeptStarts(times: seq<real>, chunk: int, raw: seq<nat>, starts: seq<real>)
    requires StartsAt(times, raw, starts)
    ensures |starts| > 1 ==> times != []
    ensures var short := |starts| > 1 && times[|times| - 1] - starts[|starts| - 1] < chunk as real / 2.0;
            StartsAt(times, Kept(times, chunk, raw), if short then starts[..|starts| - 1] else starts)
  {
  }

  lemma NoneFromStart(times: seq<real>, rate: Option<real>)
    requires forall k :: 0 <= k < |times| ==> !Eligible(times, rate, 0, k)
    ensures NoneEligible(times, rate, 0)
  {
  }

  /** The frame the inner loop stopped at is the first that may start a piece. */
  lemma FirstFrom(times: seq<real>, rate: Option<real>, mark: int, index: nat, before: nat, raw: seq<nat>)
    requires index < |times| && Eligible(times, rate, mark, index)
    requires forall k :: before <= k < index ==> !Eligible(times, rate, mark, k)
    requires before == 0 || FirstEligible(times, rate, mark, index)
    ensures FirstEligible(times, rate, mark, index)
  {
  }

  /** A remainder under half a piece joins the last piece. */
  method Shortened(times: seq<real>, chunk: int, all: seq<real>, ghost raw: seq<nat>) returns (starts: seq<real>)
    requires StartsAt(times, raw, all)
    ensures StartsAt(times, Kept(times, chunk, raw), starts)
  {
    KeptStarts(times, chunk, raw, all);
    hide StartsAt, Kept;
    starts := all;
    if |starts| > 1 && times[|times| - 1] - starts[|starts| - 1] < chunk as real / 2.0 {
      starts := starts[..|starts| - 1];
    }
  }

  /** Each piece's start: the cutting loop ends, and finds exactly the greedy starts. */
  method FrameStarts(times: seq<real>, chunk: int, rate: Option<real>)
    returns (starts: seq<real>, ghost raw: seq<nat>)
    requires Sorted(times) && chunk > 0
    ensures PieceStarts(times, rate, chunk, starts)
    ensures Greedy(times, rate, chunk, raw) && StartsAt(times, Kept(times, chunk, raw), starts)
  {
    starts, raw := [], [];
    var mark, index := 0, 0;
    assert Multiple(0, chunk) by { assert 0 == 0 * chunk; }
    assert StartsAt(times, [], []);
    hide Sorted, Multiple, Chain, StartsAt, Suitable, Kept, Greedy, NothingFollows, NoneEligible;
    while times != [] && mark as real <= times[|times| - 1]
      invariant 0 <= index <= |times| && Multiple(mark, chunk)
      invariant StartsAt(times, raw, starts)
      invariant if raw == [] then mark == 0 && index == 0
                else
                  && times != [] && times[|times| - 1] >= 0.0
                  && Chain(times, rate, chunk, raw)
                  && index == raw[|raw| - 1] < |times| && Suitable(times, rate, index)
                  && times[index] < mark as real <= times[index] + MICRO + chunk as real
      decreases if times == [] then 0 else times[|times| - 1].Floor + 1 - mark
    {
      ghost var before := index;
      index := Advance(times, rate, mark, index);
      if raw != [] {
        MarkFromStart(times, rate, chunk, mark, before, index);
      }
      if index == |times| {
        if raw == [] {
          NoneFromStart(times, rate);
          EmptyIsGreedy(times, rate, chunk);
        } else {
          NoMoreStarts(times, rate, chunk, mark, before);
          ChainIsGreedy(times, rate, chunk, raw);
        }
        starts := Shortened(times, chunk, starts, raw);
        return;
      }
      StartsMore(times, raw, starts, index);
      if starts == [] || times[index] > starts[|starts| - 1] {
        FirstFrom(times, rate, mark, index, before, raw);
        ChainExtend(times, rate, chunk, raw, mark, index);
        starts, raw := starts + [times[index]], raw + [index];
      }
      mark := MoveMark(mark, chunk, times[index]);
    }
    if raw == [] {
      EmptyIsGreedy(times, rate, chunk);
    } else {
      NoMoreStarts(times, rate, chunk, mark, raw[|raw| - 1]);
      ChainIsGreedy(times, rate, chunk, raw);
    }
    starts := Shortened(times, chunk, starts, raw);
  }

  lemma SameFollows(times: seq<real>, rate: Option<real>, chunk: int, i: nat, m: nat, n: nat)
    requires chunk > 0 && i < |times| && Follows(times, rate, chunk, i, m)
    ensures Follows(times, rate, chunk, i, n) ==> n == m
    ensures !NothingFollows(times, rate, chunk, i)
  {
    var a :| NextMark(chunk, times[i], a) && a as real <= times[|times| - 1] && FirstEligible(times, rate, a, m);
    assert !NoneEligible(times, rate, a);
    if Follows(times, rate, chunk, i, n) {
      var b :| NextMark(chunk, times[i], b) && b as real <= times[|times| - 1] && FirstEligible(times, rate, b, n);
      NextMarkUnique(chunk, times[i], a, b);
    }
  }

  lemma {:induction false} SameSoFar(times: seq<real>, rate: Option<real>, chunk: int, a: seq<nat>, b: seq<nat>, n: nat)
    requires chunk > 0 && Chain(times, rate, chunk, a) && Chain(times, rate, chunk, b) && 0 < n <= |a| && n <= |b|
    ensures a[..n] == b[..n]
  {
    hide Follows;
    if n == 1 {
      assert a[0] == b[0];
    } else {
      SameSoFar(times, rate, chunk, a, b, n - 1);
      assert a[n - 2] == a[..n - 1][n - 2] == b[..n - 1][n - 2] == b[n - 2];
      assert Follows(times, rate, chunk, a[n - 2], a[n - 1]) && Follows(times, rate, chunk, b[n - 2], b[n - 1]);
      SameFollows(times, rate, chunk, a[n - 2], a[n - 1], b[n - 1]);
      assert a[..n] == a[..n - 1] + [a[n - 1]] && b[..n] == b[..n - 1] + [b[n - 1]];
    }
  }

  /** One chain does not end where another goes on. */
  lemma NotShorter(times: seq<real>, rate: Option<real>, chunk: int, a: seq<nat>, b: seq<nat>)
    requires chunk > 0 && a != [] && b != [] && Greedy(times, rate, chunk, a) && Greedy(times, rate, chunk, b)
    ensures |a| >= |b|
  {
    if |a| < |b| {
      SameSoFar(times, rate, chunk, a, b, |a|);
      var last := |a| - 1;
      assert a[last] == a[..|a|][last] == b[..|a|][last] == b[last];
      assert Follows(times, rate, chunk, b[last], b[last + 1]);
      SameFollows(times, rate, chunk, b[last], b[last + 1], b[last + 1]);
    }
  }

  /** The greedy starts are one list only. */
  lemma GreedyIsUnique(times: seq<real>, rate: Option<real>, chunk: int, a: seq<nat>, b: seq<nat>)
    requires chunk > 0 && Greedy(times, rate, chunk, a) && Greedy(times, rate, chunk, b)
    ensures a == b
  {
    if a != [] && b != [] {
      NotShorter(times, rate, chunk, a, b);
      NotShorter(times, rate, chunk, b, a);
      SameSoFar(times, rate, chunk, a, b, |a|);
      assert a == a[..|a|] && b == b[..|b|];
    }
  }

  lemma FollowsLater(times: seq<real>, rate: Option<real>, chunk: int, i: nat, n: nat)
    requires Sorted(times) && i < |times| && Follows(times, rate, chunk, i, n)
    ensures i < n < |times|
  {
  }

  lemma {:induction false} ChainIncreases(times: seq<real>, rate: Option<real>, chunk: int, raw: seq<nat>, i: nat, j: nat)
    requires Sorted(times) && Chain(times, rate, chunk, raw) && i < j < |raw|
    ensures raw[i] < raw[j]
  {
    FollowsLater(times, rate, chunk, raw[j - 1], raw[j]);
    if i < j - 1 {
      ChainIncreases(times, rate, chunk, raw, i, j - 1);
    }
  }

  lemma ChainSuitable(times: seq<real>, rate: Option<real>, chunk: int, raw: seq<nat>, j: nat)
    requires Chain(times, rate, chunk, raw) && j < |raw|
    ensures raw[j] < |times| && Suitable(times, rate, raw[j])
  {
    assert j > 0 ==> Follows(times, rate, chunk, raw[j - 1], raw[j]);
  }

  lemma SuitableBegins<P>(fs: seq<Frame<P>>, c: Clock, i: nat)
    requires i < |fs|
    ensures Suitable(Times(fs, c.timeBase), Some(c.rate), i) <==> Begins(OnClock(fs, c), i)
  {
    assert OnClock(fs, c)[i].tick == OutputTick(Times(fs, c.timeBase)[i], c.rate);
    if i > 0 {
      assert OnClock(fs, c)[i - 1].tick == OutputTick(Times(fs, c.timeBase)[i - 1], c.rate);
    }
  }

  lemma GreedyRawCuts<P>(fs: seq<Frame<P>>, c: Clock, chunk: int, raw: seq<nat>)
    requires Sorted(Times(fs, c.timeBase))
    requires Chain(Times(fs, c.timeBase), Some(c.rate), chunk, raw)
    ensures Cut(OnClock(fs, c), raw)
  {
    forall j | 0 <= j < |raw| ensures raw[j] < |fs| && Begins(OnClock(fs, c), raw[j]) {
      ChainSuitable(Times(fs, c.timeBase), Some(c.rate), chunk, raw, j);
      SuitableBegins(fs, c, raw[j]);
    }
    forall i, j | 0 <= i < j < |raw| ensures raw[i] < raw[j] {
      ChainIncreases(Times(fs, c.timeBase), Some(c.rate), chunk, raw, i, j);
    }
  }

  lemma CutPrefix<P>(s: seq<Shot<P>>, idx: seq<nat>, n: nat)
    requires Cut(s, idx) && 0 < n <= |idx|
    ensures Cut(s, idx[..n])
  {
  }

  /** The starts are a strictly increasing subsequence of the frame times, each
      beginning an output frame; the first is the first frame unless that one is
      more than a microsecond before zero. */
  lemma GreedyCuts<P>(fs: seq<Frame<P>>, c: Clock, chunk: int, raw: seq<nat>, starts: seq<real>)
    requires c.Valid() && Sorted(Times(fs, c.timeBase)) && raw != []
    requires Greedy(Times(fs, c.timeBase), Some(c.rate), chunk, raw)
    requires StartsAt(Times(fs, c.timeBase), Kept(Times(fs, c.timeBase), chunk, raw), starts)
    ensures CutAt(fs, c, starts, Kept(Times(fs, c.timeBase), chunk, raw))
    ensures Kept(Times(fs, c.timeBase), chunk, raw)[0] == 0 <==> Times(fs, c.timeBase)[0] >= -MICRO
  {
    hide OutputTick;
    var kept := Kept(Times(fs, c.timeBase), chunk, raw);
    GreedyRawCuts(fs, c, chunk, raw);
    assert kept == raw[..|kept|];
    CutPrefix(OnClock(fs, c), raw, |kept|);
    FirstStart(Times(fs, c.timeBase), Some(c.rate), chunk, raw);
  }

  lemma FirstStart(times: seq<real>, rate: Option<real>, chunk: int, raw: seq<nat>)
    requires Chain(times, rate, chunk, raw)
    ensures raw[0] == 0 <==> times[0] >= -MICRO
  {
    assert Eligible(times, rate, 0, 0) <==> times[0] >= -MICRO;
  }

  function Lower(a: real, b: real): (r: real)
    ensures r in {a, b} && r <= a && r <= b
  {
    if a <= b then a else b
  }

  /** Plan the pieces of one video; `None` when it is better encoded in one run. The
      planned pieces join into exactly what one run would have written when no frame is
      more than a microsecond before the file's start and every piece's seek holds --
      and when no two frames look alike, only then. */
  method PlanChunks<P>(fs: seq<Frame<P>>, timeBase: real, maxFps: int, sourceRate: Option<real>, chunk: int)
    returns (plan: Option<Plan>, ghost c: Clock, ghost raw: seq<nat>, ghost idx: seq<nat>)
    requires timeBase > 0.0 && chunk > 0 && (maxFps == 30 || maxFps == 60)
    requires sourceRate.Some? ==> sourceRate.value > 0.0
    requires Sorted(Times(fs, timeBase))
    ensures sourceRate.None? ==> plan.None?
    ensures sourceRate.Some? ==> c == Clock(timeBase, Lower(maxFps as real, sourceRate.value))
    ensures sourceRate.Some? ==>
              && Greedy(Times(fs, timeBase), Some(c.rate), chunk, raw) && idx == Kept(Times(fs, timeBase), chunk, raw)
              && (plan.Some? <==> |idx| >= 2)
    ensures plan.Some? ==>
              && plan.value.Valid() && c.Valid() && fs != []
              && |plan.value.starts| >= 2 && plan.value == PlanFrom(plan.value.starts, c)
              && CutAt(fs, c, plan.value.starts, idx) && (forall j :: 0 <= j < |idx| ==> idx[j] < |Times(fs, timeBase)|)
              && JoinsWhen(fs, c, plan.value, Times(fs, timeBase)[0] >= -MICRO && SeeksHold(Times(fs, timeBase), c.rate, idx))
              && (Times(fs, timeBase)[0] >= 0.0 && Apart(Times(fs, timeBase)) ==>
                    Flatten(Pieces(fs, c, plan.value)) == Convert(OnClock(fs, c)))
  {
    c, raw, idx := Clock(timeBase, 1.0), [], [];
    if sourceRate.None? {
      return None, c, raw, idx;
    }
    c := Clock(timeBase, Lower(maxFps as real, sourceRate.value));
    var clock := Clock(timeBase, Lower(maxFps as real, sourceRate.value));
    var times := Times(fs, timeBase);
    var starts: seq<real>;
    starts, raw := FrameStarts(times, chunk, Some(clock.rate));
    idx := Kept(times, chunk, raw);
    if |starts| < 2 {
      return None, c, raw, idx;
    }
    plan := Some(PlanFrom(starts, clock));
    PlannedChunks(fs, clock, chunk, raw, starts);
  }

  /** The pieces join into the single run if `condition`; only then, without look-alikes. */
  ghost predicate JoinsWhen<P>(fs: seq<Frame<P>>, c: Clock, plan: Plan, condition: bool)
    requires plan.Valid()
  {
    && (condition ==> Flatten(Pieces(fs, c, plan)) == Convert(OnClock(fs, c)))
    && (LookDifferent(fs) && Flatten(Pieces(fs, c, plan)) == Convert(OnClock(fs, c)) ==> condition)
  }

  lemma PlannedChunks<P>(fs: seq<Frame<P>>, c: Clock, chunk: int, raw: seq<nat>, starts: seq<real>)
    requires c.Valid() && c.rate <= MAX_FPS && Sorted(Times(fs, c.timeBase)) && starts != []
    requires Greedy(Times(fs, c.timeBase), Some(c.rate), chunk, raw)
    requires StartsAt(Times(fs, c.timeBase), Kept(Times(fs, c.timeBase), chunk, raw), starts)
    ensures var times, idx := Times(fs, c.timeBase), Kept(Times(fs, c.timeBase), chunk, raw);
            && fs != [] && CutAt(fs, c, starts, idx) && (forall j :: 0 <= j < |idx| ==> idx[j] < |times|)
            && JoinsWhen(fs, c, PlanFrom(starts, c), times[0] >= -MICRO && SeeksHold(times, c.rate, idx))
            && (times[0] >= 0.0 && Apart(times) ==> Flatten(Pieces(fs, c, PlanFrom(starts, c))) == Convert(OnClock(fs, c)))
  {
    var times, idx := Times(fs, c.timeBase), Kept(Times(fs, c.timeBase), chunk, raw);
    assert raw != [];
    GreedyCuts(fs, c, chunk, raw, starts);
    CutFacts(fs, c, starts, idx);
    hide Greedy, Kept, StartsAt, CutAt, Times, OnClock, SeeksHold, Pieces, PlanFrom, Convert;
    PlannedJoin(fs, c, starts, idx);
    if times[0] >= 0.0 && Apart(times) {
      ApartHolds(fs, c, starts, idx);
    }
  }

  // --- Plans that lose or move frames ------------------------------------------------

  /** With a frame begun at every whole second, each one after the first is a start. */
  lemma UnitSteps(times: seq<real>, raw: seq<nat>)
    requires |raw| > 1 && times != [] && (forall j :: 0 <= j < |raw| ==> raw[j] < |times|)
    requires FirstEligible(times, Some(1.0), 0, raw[0]) && -MICRO <= times[raw[0]] <= 0.0
    requires forall j :: 0 < j < |raw| ==> times[raw[j]] == j as real && FirstEligible(times, Some(1.0), j, raw[j])
    requires times[|times| - 1] == (|raw| - 1) as real
    ensures Greedy(times, Some(1.0), 1, raw)
  {
    hide FirstEligible, Greedy;
    forall j | 0 < j < |raw| ensures Follows(times, Some(1.0), 1, raw[j - 1], raw[j]) {
      assert j == j * 1;
      assert NextMark(1, times[raw[j - 1]], j);
    }
    ChainIsGreedy(times, Some(1.0), 1, raw);
  }

  const EARLY := [Frame(-1, 'a'), Frame(0, 'b'), Frame(1, 'c'), Frame(2, 'd')]

  lemma EarlyIsCut()
    ensures var times, raw := Times(EARLY, 1.0), [1, 2, 3];
            && Sorted(times) && times == [-1.0, 0.0, 1.0, 2.0] && LookDifferent(EARLY)
            && Greedy(times, Some(1.0), 1, raw) && Kept(times, 1, raw) == [1, 2]
  {
    var times, raw := Times(EARLY, 1.0), [1, 2, 3];
    assert times == [-1.0, 0.0, 1.0, 2.0];
    UnitSteps(times, raw);
  }

  /** A source whose clock starts a second late is planned, and loses the frames before
      zero. */
  method EarlyFramesLost() returns (plan: Option<Plan>)
    ensures plan.Some? && plan.value.Valid()
    ensures Flatten(Pieces(EARLY, Clock(1.0, 1.0), plan.value)) != Convert(OnClock(EARLY, Clock(1.0, 1.0)))
  {
    EarlyIsCut();
    ghost var c, raw, idx;
    plan, c, raw, idx := PlanChunks(EARLY, 1.0, 30, Some(1.0), 1);
    hide Greedy, Kept, CutAt, Times, OnClock, SeeksHold, Pieces, PlanFrom, Convert;
    GreedyIsUnique(Times(EARLY, 1.0), Some(1.0), 1, raw, [1, 2, 3]);
  }

  const JUST_EARLY := [Frame(-1, 'a'), Frame(1000000, 'b'), Frame(2000000, 'c'), Frame(3000000, 'd')]

  lemma JustEarlyIsCut()
    ensures var times, raw := Times(JUST_EARLY, 0.000001), [0, 1, 2, 3];
            && Sorted(times) && times == [-0.000001, 1.0, 2.0, 3.0] && LookDifferent(JUST_EARLY)
            && Greedy(times, Some(1.0), 1, raw) && Kept(times, 1, raw) == [0, 1, 2]
  {
    var times, raw := Times(JUST_EARLY, 0.000001), [0, 1, 2, 3];
    assert times == [-0.000001, 1.0, 2.0, 3.0];
    UnitSteps(times, raw);
  }

  /** A frame less than a microsecond before zero begins the first piece, and the seek,
      which never goes below zero, loses it. */
  method JustBeforeZeroLost() returns (plan: Option<Plan>)
    ensures plan.Some? && plan.value.Valid() && Times(JUST_EARLY, 0.000001)[0] >= -MICRO
    ensures var c := Clock(0.000001, 1.0); Flatten(Pieces(JUST_EARLY, c, plan.value)) != Convert(OnClock(JUST_EARLY, c))
  {
    JustEarlyIsCut();
    ghost var c, raw, idx;
    plan, c, raw, idx := PlanChunks(JUST_EARLY, 0.000001, 30, Some(1.0), 1);
    hide Greedy, Kept, CutAt, Times, OnClock, SeekHolds, Pieces, PlanFrom, Convert;
    GreedyIsUnique(Times(JUST_EARLY, 0.000001), Some(1.0), 1, raw, [0, 1, 2, 3]);
    LosesFirst(Times(JUST_EARLY, 0.000001), 1.0, idx);
  }

  /** Frames 2 and 3 are 0.1 ms apart on either side of an output frame's edge. */
  const CLOSE := [Frame(0, 'a'), Frame(99000, 'b'), Frame(101660, 'c'), Frame(101670, 'd'), Frame(104995, 'e'), Frame(160000, 'f')]

  const CLOSE_CLOCK := Clock(0.00001, 30.0)

  lemma CloseTimes()
    ensures Times(CLOSE, 0.00001) == [0.0, 0.99, 1.0166, 1.0167, 1.04995, 1.6]
    ensures Sorted(Times(CLOSE, 0.00001)) && LookDifferent(CLOSE)
  {
    assert Times(CLOSE, 0.00001) == [0.0, 0.99, 1.0166, 1.0167, 1.04995, 1.6];
  }

  lemma CloseIsCut()
    ensures var times, raw := Times(CLOSE, 0.00001), [0, 3];
            Greedy(times, Some(30.0), 1, raw) && Kept(times, 1, raw) == [0, 3]
  {
    CloseTimes();
    hide Times;
    var times, raw := Times(CLOSE, 0.00001), [0, 3];
    assert FirstEligible(times, Some(30.0), 0, 0);
    assert OutputTick(0.99, 30.0) == 30 && OutputTick(1.0166, 30.0) == 30 && OutputTick(1.0167, 30.0) == 31;
    assert FirstEligible(times, Some(30.0), 1, 3);
    assert 1 == 1 * 1;
    assert NextMark(1, 0.0, 1);
    assert Follows(times, Some(30.0), 1, 0, 3);
    hide FirstEligible;
    ChainIsGreedy(times, Some(30.0), 1, raw);
  }

  lemma CloseMoves()
    ensures Landing(Times(CLOSE, 0.00001), [0, 3], 1) == 2 && !SeekHolds(Times(CLOSE, 0.00001), 30.0, [0, 3], 1)
  {
    CloseTimes();
    hide Times;
    var times := Times(CLOSE, 0.00001);
    assert OutputTick(1.05005, 30.0) == 32 && OutputTick(1.04995, 30.0) == 31;
    CloseFrameMoves(times, 30.0, [0, 3], 1, 4);
  }

  /** All times not before zero, and yet the second piece's seek lands on the frame before
      its start and moves the frame after it: the planned pieces are not the single run. */
  method CloseFrameMovesPiece() returns (plan: Option<Plan>)
    ensures plan.Some? && plan.value.Valid() && plan.value.starts == [0.0, 1.0167]
    ensures Flatten(Pieces(CLOSE, CLOSE_CLOCK, plan.value)) != Convert(OnClock(CLOSE, CLOSE_CLOCK))
  {
    CloseTimes();
    CloseIsCut();
    CloseMoves();
    ghost var c, raw, idx;
    plan, c, raw, idx := PlanChunks(CLOSE, 0.00001, 30, Some(30.0), 1);
    hide Greedy, Kept, Times, OnClock, SeekHolds, Pieces, PlanFrom, Convert;
    GreedyIsUnique(Times(CLOSE, 0.00001), Some(30.0), 1, raw, [0, 3]);
  }

  /** A start before zero, with the next frame already in another output frame. */
  lemma LosesFirst(times: seq<real>, rate: real, idx: seq<nat>)
    requires |times| >= 2 && idx != [] && idx[0] == 0 && times[0] < 0.0 <= times[1]
    requires OutputTick(times[0], rate) < OutputTick(times[1], rate)
    ensures !SeekHolds(times, rate, idx, 0)
  {
    assert Seek(times[0]) == 0.0;
    SeekLands(times, 0.0, 1);
    hide Seek, SeekTo, OutputTick;
    assert Landing(times, idx, 0) == 1;
    assert Moved(times, idx, 0, 1) == times[0];
  }
}
