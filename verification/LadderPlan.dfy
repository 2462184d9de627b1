/** Where the HD ladder's pieces start (app/worker/ladder_pieces.py:
    `segment_aligned_starts`, `LadderPieces.plan`): every piece is whole segments. */
module LadderPlan {
  import opened Prelude
  import opened RateConversion
  import opened PiecePlan
  import opened Rounding
  import ChunkedPlan

  const SEGMENT_SECONDS := 6

  /** The whole segments nearest to `pieceSeconds`: an even number of them half-way
      between two, and never less than one. */
  ghost predicate Nearest(n: int, pieceSeconds: int) {
    if pieceSeconds <= 3 then n == 1
    else -6 <= 2 * (6 * n - pieceSeconds) <= 6 && (2 * (6 * n - pieceSeconds) in {-6, 6} ==> n % 2 == 0)
  }

  /** How many whole segments a piece of about `pieceSeconds` has. */
  function SegmentsIn(pieceSeconds: int): (n: int)
    ensures n >= 1 && Nearest(n, pieceSeconds)
  {
    var n := RoundHalfEven(pieceSeconds, SEGMENT_SECONDS);
    if n < 1 then 1 else n
  }

  /** A forced keyframe: the first output frame at or after segment `n`'s start. */
  function KeyFrame(n: int, rate: real): int {
    Ceil((n * SEGMENT_SECONDS) as real * rate)
  }

  function PieceLength(pieceSeconds: int, rate: real): (length: int)
    requires rate > 0.0
    ensures length >= 1
  {
    KeyFrame(SegmentsIn(pieceSeconds), rate)
  }

  function Ticks(times: seq<real>, rate: real): (ticks: seq<int>)
    ensures |ticks| == |times|
  {
    seq(|times|, i requires 0 <= i < |times| => OutputTick(times[i], rate))
  }

  ghost predicate Ascending(ticks: seq<int>) {
    forall i, j :: 0 <= i < j < |ticks| ==> ticks[i] <= ticks[j]
  }

  lemma TicksAscend(times: seq<real>, rate: real)
    requires Sorted(times) && rate > 0.0
    ensures Ascending(Ticks(times, rate))
  {
    forall i, j | 0 <= i < j < |times| ensures Ticks(times, rate)[i] <= Ticks(times, rate)[j] {
      OutputTickMonotone(times[i], times[j], rate);
    }
  }

  /** The first frame whose tick is at least `from`. */
  ghost predicate FirstFrom(ticks: seq<int>, from: int, n: nat) {
    n < |ticks| && from <= ticks[n] && forall k :: 0 <= k < n ==> ticks[k] < from
  }

  /** Each start is the first frame at or after `length` output frames from the one before. */
  ghost predicate Spaced(ticks: seq<int>, length: int, raw: seq<nat>) {
    && |raw| > 0 && raw[0] == 0
    && (forall j :: 0 <= j < |raw| ==> raw[j] < |ticks|)
    && forall j :: 0 < j < |raw| ==> FirstFrom(ticks, ticks[raw[j - 1]] + length, raw[j])
  }

  ghost predicate Aligned(ticks: seq<int>, length: int, raw: seq<nat>) {
    if ticks == [] then raw == []
    else Spaced(ticks, length, raw) && ticks[|ticks| - 1] < ticks[raw[|raw| - 1]] + length
  }

  /** A remainder under half a piece joins the last. */
  ghost function Kept(ticks: seq<int>, length: int, raw: seq<nat>): seq<nat> {
    if |raw| > 1 && raw[|raw| - 1] < |ticks| && 2 * (ticks[|ticks| - 1] - ticks[raw[|raw| - 1]]) < length
    then raw[..|raw| - 1] else raw
  }

  /** The piece starts: the aligned ones, a short remainder joined. */
  ghost predicate PieceStarts(times: seq<real>, rate: real, length: int, starts: seq<real>) {
    exists raw: seq<nat> :: Aligned(Ticks(times, rate), length, raw) && StartsAt(times, Kept(Ticks(times, rate), length, raw), starts)
  }

  /** `begins` holds, for every output frame some source frame begins, that frame's time. */
  ghost predicate Indexed(times: seq<real>, ticks: seq<int>, n: nat, begins: map<int, real>)
    requires n <= |times| == |ticks|
  {
    && (forall k :: 0 <= k < n ==> ticks[k] in begins)
    && forall t :: t in begins ==> exists k :: 0 <= k < n && IsBegin(times, ticks, t, k, begins[t])
  }

  ghost predicate IsBegin(times: seq<real>, ticks: seq<int>, t: int, k: nat, time: real)
    requires |times| == |ticks|
  {
    FirstFrom(ticks, t, k) && ticks[k] == t && times[k] == time
  }

  lemma IndexStep(times: seq<real>, ticks: seq<int>, n: nat, begins: map<int, real>)
    requires n < |times| == |ticks| && Ascending(ticks) && Indexed(times, ticks, n, begins)
    ensures var added := if n == 0 || ticks[n] > ticks[n - 1]
                         then (if ticks[n] in begins then begins else begins[ticks[n] := times[n]]) else begins;
            Indexed(times, ticks, n + 1, added)
  {
    if n == 0 || ticks[n] > ticks[n - 1] {
      var added := if ticks[n] in begins then begins else begins[ticks[n] := times[n]];
      assert FirstFrom(ticks, ticks[n], n);
      hide FirstFrom, Ascending;
      assert ticks[n] !in begins ==> IsBegin(times, ticks, ticks[n], n, times[n]);
      forall t | t in added ensures exists k :: 0 <= k < n + 1 && IsBegin(times, ticks, t, k, added[t]) {
        if t in begins {
          var k :| 0 <= k < n && IsBegin(times, ticks, t, k, begins[t]);
          assert IsBegin(times, ticks, t, k, added[t]);
        }
      }
    } else {
      assert ticks[n] == ticks[n - 1];
    }
  }

  /** Each piece's first source frame, so that every piece is whole segments. */
  method SegmentAlignedStarts(times: seq<real>, rate: real, pieceSeconds: int)
    returns (starts: seq<real>, ghost raw: seq<nat>)
    requires Sorted(times) && rate > 0.0
    ensures PieceStarts(times, rate, PieceLength(pieceSeconds, rate), starts)
    ensures Aligned(Ticks(times, rate), PieceLength(pieceSeconds, rate), raw)
    ensures StartsAt(times, Kept(Ticks(times, rate), PieceLength(pieceSeconds, rate), raw), starts)
  {
    hide KeyFrame;
    var length := PieceLength(pieceSeconds, rate);
    TicksAscend(times, rate);
    var begins := IndexBegins(times, rate);
    starts, raw := [], [];
    if begins.Keys == {} {
      NoStarts(times, rate, length);
      return;
    }
    starts, raw := AlignFrom(times, rate, begins, length);
    ArePieceStarts(times, rate, length, starts, raw);
  }

  lemma ArePieceStarts(times: seq<real>, rate: real, length: int, starts: seq<real>, raw: seq<nat>)
    requires Aligned(Ticks(times, rate), length, raw) && StartsAt(times, Kept(Ticks(times, rate), length, raw), starts)
    ensures PieceStarts(times, rate, length, starts)
  {
    hide Aligned, StartsAt, Kept, Ticks;
  }

  lemma NoStarts(times: seq<real>, rate: real, length: int)
    requires times == []
    ensures Aligned(Ticks(times, rate), length, []) && StartsAt(times, Kept(Ticks(times, rate), length, []), [])
    ensures PieceStarts(times, rate, length, [])
  {
    assert Aligned(Ticks(times, rate), length, []) && StartsAt(times, Kept(Ticks(times, rate), length, []), []);
    ArePieceStarts(times, rate, length, [], []);
  }

  /** The first half: which output frames a source frame begins, and when it is shown. */
  method IndexBegins(times: seq<real>, rate: real) returns (begins: map<int, real>)
    requires Ascending(Ticks(times, rate))
    ensures Indexed(times, Ticks(times, rate), |times|, begins)
    ensures begins.Keys == {} <==> times == []
  {
    hide OutputTick, IsBegin, FirstFrom;
    ghost var ticks := Ticks(times, rate);
    begins := map[];
    var previous: Option<int> := None;
    for n := 0 to |times|
      invariant Indexed(times, ticks, n, begins)
      invariant if n == 0 then begins == map[] else ticks[0] in begins.Keys
      invariant previous == if n == 0 then None else Some(ticks[n - 1])
    {
      IndexStep(times, ticks, n, begins);
      var tick := OutputTick(times[n], rate);
      if previous.None? || tick > previous.value {
        if tick !in begins {
          begins := begins[tick := times[n]];
        }
      }
      previous := Some(tick);
    }
  }

  /** The begun output frame found first at or after `from` is where the next piece starts. */
  lemma BeginFound(times: seq<real>, ticks: seq<int>, begins: map<int, real>, from: int, target: int) returns (k: nat)
    requires |times| == |ticks| && Ascending(ticks) && Indexed(times, ticks, |times|, begins)
    requires from <= target && target in begins && forall t :: from <= t < target ==> t !in begins
    ensures FirstFrom(ticks, from, k) && ticks[k] == target && times[k] == begins[target]
  {
    k :| 0 <= k < |times| && IsBegin(times, ticks, target, k, begins[target]);
    assert forall i :: 0 <= i < k ==> ticks[i] in begins && ticks[i] < target;
  }

  lemma FirstAndLast(times: seq<real>, ticks: seq<int>, begins: map<int, real>)
    requires |times| == |ticks| > 0 && Ascending(ticks) && Indexed(times, ticks, |times|, begins)
    ensures ticks[0] in begins && ticks[|ticks| - 1] in begins
    ensures forall t :: t in begins ==> ticks[0] <= t <= ticks[|ticks| - 1]
    ensures FirstFrom(ticks, ticks[0], 0)
    ensures forall k :: FirstFrom(ticks, ticks[0], k) ==> k == 0
  {
    forall t | t in begins ensures ticks[0] <= t <= ticks[|ticks| - 1] {
      var k :| 0 <= k < |times| && IsBegin(times, ticks, t, k, begins[t]);
    }
  }

  lemma SpacedExtend(ticks: seq<int>, length: int, raw: seq<nat>, k: nat)
    requires raw == [] ==> ticks != [] && k == 0
    requires raw != [] ==> Spaced(ticks, length, raw) && FirstFrom(ticks, ticks[raw[|raw| - 1]] + length, k)
    ensures Spaced(ticks, length, raw + [k])
  {
  }

  /** The second half of `segment_aligned_starts`: the walk over the begun output frames. */
  method AlignFrom(times: seq<real>, rate: real, begins: map<int, real>, length: int)
    returns (starts: seq<real>, ghost raw: seq<nat>)
    requires times != [] && Ascending(Ticks(times, rate)) && length >= 1
    requires Indexed(times, Ticks(times, rate), |times|, begins)
    ensures Aligned(Ticks(times, rate), length, raw)
    ensures StartsAt(times, Kept(Ticks(times, rate), length, raw), starts)
  {
    hide OutputTick, IsBegin, FirstFrom, Ascending, Indexed;
    ghost var ticks := Ticks(times, rate);
    FirstAndLast(times, ticks, begins);
    assert ticks[0] in begins && ticks[|ticks| - 1] in begins;
    var last :| last in begins && forall t :: t in begins ==> t <= last;
    var target :| target in begins && forall t :: t in begins ==> target <= t;
    assert last == ticks[|ticks| - 1] && target == ticks[0];
    starts, raw := [], [];
    while target <= last
      invariant StartsAt(times, raw, starts)
      invariant raw == [] ==> target == ticks[0]
      invariant raw != [] ==> Spaced(ticks, length, raw) && target == ticks[raw[|raw| - 1]] + length
      decreases last + 1 - target
    {
      ghost var from := target;
      while target !in begins && target <= last
        invariant from <= target
        invariant forall t :: from <= t < target ==> t !in begins
        decreases last + 1 - target
      {
        target := target + 1;
      }
      if target > last {
        break;
      }
      ghost var k := BeginFound(times, ticks, begins, from, target);
      SpacedExtend(ticks, length, raw, k);
      starts, raw := starts + [begins[target]], raw + [k];
      target := target + length;
    }
    if |starts| > 1 && 2 * (last - OutputTick(starts[|starts| - 1], rate)) < length {
      starts := starts[..|starts| - 1];
    }
  }

  lemma SpacedCuts<P>(fs: seq<Frame<P>>, c: Clock, length: int, raw: seq<nat>)
    requires c.Valid() && length >= 1 && Ascending(Ticks(Times(fs, c.timeBase), c.rate))
    requires Spaced(Ticks(Times(fs, c.timeBase), c.rate), length, raw)
    ensures Cut(OnClock(fs, c), raw)
  {
    hide OutputTick;
    var ticks, shots := Ticks(Times(fs, c.timeBase), c.rate), OnClock(fs, c);
    assert forall i :: 0 <= i < |fs| ==> shots[i].tick == ticks[i];
    forall j | 0 <= j < |raw| ensures raw[j] < |shots| && Begins(shots, raw[j]) {
      assert j > 0 ==> FirstFrom(ticks, ticks[raw[j - 1]] + length, raw[j]);
    }
    forall i, j | 0 <= i < j < |raw| ensures raw[i] < raw[j] {
      SpacedIncreases(ticks, length, raw, i, j);
    }
  }

  lemma {:induction false} SpacedIncreases(ticks: seq<int>, length: int, raw: seq<nat>, i: nat, j: nat)
    requires length >= 1 && Ascending(ticks) && Spaced(ticks, length, raw) && i < j < |raw|
    ensures raw[i] < raw[j] && ticks[raw[i]] + length <= ticks[raw[j]]
  {
    assert FirstFrom(ticks, ticks[raw[j - 1]] + length, raw[j]);
    if i < j - 1 {
      SpacedIncreases(ticks, length, raw, i, j - 1);
    }
  }

  lemma KeptCuts<P>(s: seq<Shot<P>>, ticks: seq<int>, length: int, raw: seq<nat>)
    requires Cut(s, raw)
    ensures Cut(s, Kept(ticks, length, raw)) && Kept(ticks, length, raw)[0] == raw[0]
  {
    var kept := Kept(ticks, length, raw);
    assert kept == raw[..|kept|];
  }

  /** Every piece but the last is at least `length` output frames; the last spans
      at least half of it. */
  lemma PieceLengths(ticks: seq<int>, length: int, raw: seq<nat>, j: nat)
    requires length >= 1 && Ascending(ticks) && ticks != [] && Aligned(ticks, length, raw)
    requires |Kept(ticks, length, raw)| > 1 && j < |Kept(ticks, length, raw)|
    ensures var kept := Kept(ticks, length, raw);
            if j < |kept| - 1 then ticks[kept[j + 1]] - ticks[kept[j]] >= length
            else 2 * (ticks[|ticks| - 1] - ticks[kept[j]]) >= length
  {
    var kept := Kept(ticks, length, raw);
    assert kept == raw[..|kept|];
    if j + 1 < |raw| {
      SpacedIncreases(ticks, length, raw, j, j + 1);
      assert ticks[raw[j + 1]] <= ticks[|ticks| - 1];
    }
  }

  /** Every output frame between the first and the last is begun by a source frame. */
  ghost predicate Dense(ticks: seq<int>) {
    forall i :: 0 < i < |ticks| ==> ticks[i] <= ticks[i - 1] + 1
  }

  /** A source no slower than the output leaves no output frame unbegun. */
  lemma FastSourceIsDense(times: seq<real>, rate: real)
    requires rate > 0.0
    requires forall i :: 0 < i < |times| ==> 0.0 <= (times[i] - times[i - 1]) * rate <= 1.0
    ensures Dense(Ticks(times, rate))
  {
    forall i | 0 < i < |times| ensures Ticks(times, rate)[i] <= Ticks(times, rate)[i - 1] + 1 {
      assert (times[i] - times[i - 1]) * rate == times[i] * rate - times[i - 1] * rate;
    }
  }

  /** With every output frame begun, a piece that is not the last is exactly its whole segments. */
  lemma ExactLengths(ticks: seq<int>, length: int, raw: seq<nat>, j: nat)
    requires length >= 1 && Ascending(ticks) && Dense(ticks) && Spaced(ticks, length, raw) && j + 1 < |raw|
    ensures ticks[raw[j + 1]] - ticks[raw[j]] == length
  {
    SpacedIncreases(ticks, length, raw, j, j + 1);
    assert FirstFrom(ticks, ticks[raw[j]] + length, raw[j + 1]);
    assert ticks[raw[j + 1] - 1] < ticks[raw[j]] + length;
  }

  /** A piece of `KeyFrame(segments)` output frames is exactly that many segments:
      no keyframe falls short of its end but the segments' own. The rate must reach
      one frame a segment. */
  lemma WholeSegments(rate: real, segments: int, n: int)
    requires SEGMENT_SECONDS as real * rate >= 1.0
    ensures KeyFrame(n, rate) < KeyFrame(segments, rate) <==> n < segments
  {
    var unit := SEGMENT_SECONDS as real * rate;
    assert (n * SEGMENT_SECONDS) as real * rate == n as real * unit;
    assert (segments * SEGMENT_SECONDS) as real * rate == segments as real * unit;
    if n < segments {
      assert (segments - n) as real * unit >= 1.0 * unit;
      assert n as real * unit + unit <= segments as real * unit;
    } else {
      assert (n - segments) as real * unit >= 0.0;
      assert segments as real * unit <= n as real * unit;
    }
  }

  /** What six seconds a segment come to in output frames. */
  ghost function SecondsLong(segments: int, rate: real): real {
    (segments * 6) as real * rate
  }

  /** In seconds: a piece that is not the last has at least the output frames of
      `segments` whole segments, and with every output frame begun not one more than
      them; the last has at least half of them. */
  ghost predicate Spans(ticks: seq<int>, idx: seq<nat>, segments: int, rate: real) {
    && ticks != [] && (forall j :: 0 <= j < |idx| ==> idx[j] < |ticks|)
    && (forall j :: 0 <= j < |idx| - 1 ==>
          && SecondsLong(segments, rate) <= (ticks[idx[j + 1]] - ticks[idx[j]]) as real
          && (Dense(ticks) ==> (ticks[idx[j + 1]] - ticks[idx[j]]) as real < SecondsLong(segments, rate) + 1.0))
    && (|idx| > 1 ==> SecondsLong(segments, rate) <= (2 * (ticks[|ticks| - 1] - ticks[idx[|idx| - 1]])) as real)
  }

  lemma FramesSpanned(ticks: seq<int>, length: int, raw: seq<nat>)
    requires length >= 1 && ticks != [] && Ascending(ticks) && Aligned(ticks, length, raw)
    ensures var kept := Kept(ticks, length, raw);
            && (forall j :: 0 <= j < |kept| ==> kept[j] < |ticks|)
            && (forall j :: 0 <= j < |kept| - 1 ==>
                  && length <= ticks[kept[j + 1]] - ticks[kept[j]]
                  && (Dense(ticks) ==> ticks[kept[j + 1]] - ticks[kept[j]] == length))
            && (|kept| > 1 ==> length <= 2 * (ticks[|ticks| - 1] - ticks[kept[|kept| - 1]]))
  {
    var kept := Kept(ticks, length, raw);
    assert kept == raw[..|kept|] && Spaced(ticks, length, raw);
    hide Aligned, Spaced, Kept, Dense, Ascending;
    forall j | 0 <= j < |kept| - 1
      ensures length <= ticks[kept[j + 1]] - ticks[kept[j]]
      ensures Dense(ticks) ==> ticks[kept[j + 1]] - ticks[kept[j]] == length
    {
      PieceLengths(ticks, length, raw, j);
      if Dense(ticks) {
        ExactLengths(ticks, length, raw, j);
      }
    }
    if |kept| > 1 {
      PieceLengths(ticks, length, raw, |kept| - 1);
    }
  }

  lemma LengthInSeconds(pieceSeconds: int, rate: real)
    requires rate > 0.0
    ensures var span := SecondsLong(SegmentsIn(pieceSeconds), rate);
            span <= PieceLength(pieceSeconds, rate) as real < span + 1.0
  {
  }

  lemma SecondsSpanned(ticks: seq<int>, rate: real, pieceSeconds: int, raw: seq<nat>)
    requires rate > 0.0 && ticks != [] && Ascending(ticks) && Aligned(ticks, PieceLength(pieceSeconds, rate), raw)
    ensures Spans(ticks, Kept(ticks, PieceLength(pieceSeconds, rate), raw), SegmentsIn(pieceSeconds), rate)
  {
    LengthInSeconds(pieceSeconds, rate);
    hide PieceLength, KeyFrame, SegmentsIn, Aligned, Kept, Dense, Ascending, SecondsLong;
    FramesSpanned(ticks, PieceLength(pieceSeconds, rate), raw);
  }

  /** Plan the ladder's pieces; `None` when the ladder is better made in one run. The
      first piece always starts on the first frame, so the planned pieces join into what
      one run would have written when every piece's seek holds -- and when no two frames
      look alike, only then. */
  method PlanLadder<P>(fs: seq<Frame<P>>, timeBase: real, maxFps: int, sourceRate: Option<real>, pieceSeconds: int)
    returns (plan: Option<Plan>, ghost c: Clock, ghost raw: seq<nat>, ghost idx: seq<nat>, ghost segments: int)
    requires timeBase > 0.0 && (maxFps == 30 || maxFps == 60)
    requires sourceRate.Some? ==> sourceRate.value > 0.0
    requires Sorted(Times(fs, timeBase))
    ensures fs == [] || sourceRate.None? ==> plan.None?
    ensures sourceRate.Some? ==> c == Clock(timeBase, ChunkedPlan.Lower(maxFps as real, sourceRate.value)) && c.Valid()
    ensures Nearest(segments, pieceSeconds)
    ensures fs != [] && sourceRate.Some? ==>
              var ticks, length := Ticks(Times(fs, timeBase), c.rate), PieceLength(pieceSeconds, c.rate);
              && Aligned(ticks, length, raw) && idx == Kept(ticks, length, raw) && (plan.Some? <==> |idx| >= 2)
              && Spans(ticks, idx, segments, c.rate)
    ensures plan.Some? ==>
              && plan.value.Valid() && c.Valid() && |plan.value.starts| >= 2 && plan.value == PlanFrom(plan.value.starts, c)
              && PieceStarts(Times(fs, timeBase), c.rate, PieceLength(pieceSeconds, c.rate), plan.value.starts)
              && CutAt(fs, c, plan.value.starts, idx) && (forall j :: 0 <= j < |idx| ==> idx[j] < |Times(fs, timeBase)|)
              && ChunkedPlan.JoinsWhen(fs, c, plan.value, SeeksHold(Times(fs, timeBase), c.rate, idx))
              && (Times(fs, timeBase)[0] >= 0.0 && Apart(Times(fs, timeBase)) ==>
                    Flatten(Pieces(fs, c, plan.value)) == Convert(OnClock(fs, c)))
  {
    plan, c, raw, idx := None, Clock(timeBase, 1.0), [], [];
    segments := SegmentsIn(pieceSeconds);
    if fs == [] || sourceRate.None? {
      c := if sourceRate.None? then c else Clock(timeBase, ChunkedPlan.Lower(maxFps as real, sourceRate.value));
      return;
    }
    var clock := Clock(timeBase, ChunkedPlan.Lower(maxFps as real, sourceRate.value));
    c := clock;
    var times := Times(fs, timeBase);
    var starts: seq<real>;
    starts, raw := SegmentAlignedStarts(times, clock.rate, pieceSeconds);
    idx := Kept(Ticks(times, clock.rate), PieceLength(pieceSeconds, clock.rate), raw);
    TicksAscend(times, clock.rate);
    SecondsSpanned(Ticks(times, clock.rate), clock.rate, pieceSeconds, raw);
    if |starts| < 2 {
      return;
    }
    plan := Some(PlanFrom(starts, clock));
    PlannedLadder(fs, clock, PieceLength(pieceSeconds, clock.rate), raw, starts);
  }

  lemma PlannedLadder<P>(fs: seq<Frame<P>>, c: Clock, length: int, raw: seq<nat>, starts: seq<real>)
    requires c.Valid() && c.rate <= MAX_FPS && Sorted(Times(fs, c.timeBase)) && fs != [] && starts != [] && length >= 1
    requires Aligned(Ticks(Times(fs, c.timeBase), c.rate), length, raw)
    requires StartsAt(Times(fs, c.timeBase), Kept(Ticks(Times(fs, c.timeBase), c.rate), length, raw), starts)
    ensures var times, idx := Times(fs, c.timeBase), Kept(Ticks(Times(fs, c.timeBase), c.rate), length, raw);
            && CutAt(fs, c, starts, idx) && (forall j :: 0 <= j < |idx| ==> idx[j] < |times|) && idx[0] == 0
            && ChunkedPlan.JoinsWhen(fs, c, PlanFrom(starts, c), SeeksHold(times, c.rate, idx))
            && (times[0] >= 0.0 && Apart(times) ==> Flatten(Pieces(fs, c, PlanFrom(starts, c))) == Convert(OnClock(fs, c)))
  {
    hide OutputTick, KeyFrame;
    var times := Times(fs, c.timeBase);
    var idx := Kept(Ticks(times, c.rate), length, raw);
    TicksAscend(times, c.rate);
    SpacedCuts(fs, c, length, raw);
    KeptCuts(OnClock(fs, c), Ticks(times, c.rate), length, raw);
    FirstAligned(Ticks(times, c.rate), length, raw);
    assert CutAt(fs, c, starts, idx) && idx[0] == 0;
    hide Aligned, Kept, StartsAt, CutAt, Times, Ticks, OnClock, SeeksHold, Pieces, PlanFrom, Convert;
    PlannedJoin(fs, c, starts, idx);
    CutFacts(fs, c, starts, idx);
    if times[0] >= 0.0 && Apart(times) {
      ApartHolds(fs, c, starts, idx);
    }
  }

  lemma FirstAligned(ticks: seq<int>, length: int, raw: seq<nat>)
    requires Aligned(ticks, length, raw) && ticks != [] && Ascending(ticks)
    ensures raw != [] && raw[0] == 0
  {
  }

  // --- Plans that lose or move frames ------------------------------------------------

  /** A frame a second before zero begins the ladder's first piece, and the seek, which
      never goes below zero, loses it -- whatever the length. */
  lemma EarlyFrameLost<P>(fs: seq<Frame<P>>, length: int, raw: seq<nat>, starts: seq<real>)
    requires |fs| >= 2 && LookDifferent(fs) && length >= 1 && starts != []
    requires forall i :: 0 <= i < |fs| ==> fs[i].pts == i - 1
    requires Aligned(Ticks(Times(fs, 1.0), 1.0), length, raw)
    requires StartsAt(Times(fs, 1.0), Kept(Ticks(Times(fs, 1.0), 1.0), length, raw), starts)
    ensures Flatten(Pieces(fs, Clock(1.0, 1.0), PlanFrom(starts, Clock(1.0, 1.0)))) != Convert(OnClock(fs, Clock(1.0, 1.0)))
  {
    var times, c := Times(fs, 1.0), Clock(1.0, 1.0);
    assert Sorted(times) && times[0] == -1.0 && times[1] == 0.0;
    var idx := Kept(Ticks(times, 1.0), length, raw);
    PlannedLadder(fs, c, length, raw, starts);
    assert OutputTick(-1.0, 1.0) == -1 && OutputTick(0.0, 1.0) == 0;
    ChunkedPlan.LosesFirst(times, 1.0, idx);
    hide Aligned, Kept, StartsAt, CutAt, Times, Ticks, OnClock, SeekHolds, Pieces, PlanFrom, Convert, OutputTick;
    assert !SeekHolds(times, 1.0, idx, 0);
  }

  /** A source long enough is cut at least once. */
  lemma LongIsCut(ticks: seq<int>, length: int, raw: seq<nat>)
    requires length >= 1 && ticks != [] && Ascending(ticks) && Aligned(ticks, length, raw) && Dense(ticks)
    requires ticks[|ticks| - 1] - ticks[0] >= length + length / 2 + 1
    ensures |Kept(ticks, length, raw)| >= 2
  {
    if |raw| > 1 {
      ExactLengths(ticks, length, raw, 0);
    }
  }

  /** The ladder of a source whose clock starts a second late is planned, if the source
      is long enough to be cut, and loses the frame before zero. */
  method LadderLosesEarlyFrame<P>(fs: seq<Frame<P>>, pieceSeconds: int) returns (plan: Option<Plan>)
    requires LookDifferent(fs) && forall i :: 0 <= i < |fs| ==> fs[i].pts == i - 1
    ensures |fs| >= 2 * PieceLength(pieceSeconds, 1.0) + 1 ==> plan.Some?
    ensures plan.Some? ==> plan.value.Valid()
    ensures plan.Some? ==> Flatten(Pieces(fs, Clock(1.0, 1.0), plan.value)) != Convert(OnClock(fs, Clock(1.0, 1.0)))
  {
    ghost var times, length := Times(fs, 1.0), PieceLength(pieceSeconds, 1.0);
    SecondApart(fs);
    ghost var c, raw, idx, segments;
    plan, c, raw, idx, segments := PlanLadder(fs, 1.0, 30, Some(1.0), pieceSeconds);
    hide Aligned, Kept, CutAt, OnClock, SeekHolds, Pieces, PlanFrom, Convert, OutputTick, Times, Ticks, PieceLength;
    if |fs| >= 2 * length + 1 {
      TicksAscend(times, 1.0);
      LongIsCut(Ticks(times, 1.0), length, raw);
    }
    if plan.Some? {
      CutHasStarts(fs, c, plan.value.starts, idx);
      EarlyFrameLost(fs, length, raw, plan.value.starts);
    }
  }

  lemma SecondApart<P>(fs: seq<Frame<P>>)
    requires forall i :: 0 <= i < |fs| ==> fs[i].pts == i - 1
    ensures var times, ticks := Times(fs, 1.0), Ticks(Times(fs, 1.0), 1.0);
            && Sorted(times) && |times| == |ticks| == |fs| && Dense(ticks)
            && (forall i :: 0 <= i < |fs| ==> ticks[i] == i - 1 && times[i] == (i - 1) as real)
  {
    var times, ticks := Times(fs, 1.0), Ticks(Times(fs, 1.0), 1.0);
    forall i | 0 <= i < |fs| ensures ticks[i] == i - 1 && times[i] == (i - 1) as real {
      assert OutputTick((i - 1) as real, 1.0) == i - 1;
    }
  }

  lemma CutHasStarts<P>(fs: seq<Frame<P>>, c: Clock, starts: seq<real>, idx: seq<nat>)
    requires CutAt(fs, c, starts, idx) && |idx| >= 2
    ensures StartsAt(Times(fs, c.timeBase), idx, starts) && |fs| >= 2
  {
    hide OnClock;
    assert idx[0] < idx[1] < |Times(fs, c.timeBase)|;
  }

  /** Frames 1 and 2 are 0.1 ms apart on either side of an output frame's edge. */
  const CLOSE := [Frame(0, 'a'), Frame(598330, 'b'), Frame(598340, 'c'), Frame(601665, 'd'), Frame(910000, 'e')]

  const CLOSE_CLOCK := Clock(0.00001, 30.0)

  lemma CloseTimes()
    ensures Times(CLOSE, 0.00001) == [0.0, 5.9833, 5.9834, 6.01665, 9.1]
    ensures Sorted(Times(CLOSE, 0.00001)) && LookDifferent(CLOSE)
  {
    assert Times(CLOSE, 0.00001) == [0.0, 5.9833, 5.9834, 6.01665, 9.1];
  }

  lemma CloseTicks()
    ensures Ticks([0.0, 5.9833, 5.9834, 6.01665, 9.1], 30.0) == [0, 179, 180, 180, 273]
    ensures OutputTick(6.01675, 30.0) == 181 && OutputTick(6.01665, 30.0) == 180
  {
    assert OutputTick(0.0, 30.0) == 0 && OutputTick(5.9833, 30.0) == 179 && OutputTick(5.9834, 30.0) == 180;
    assert OutputTick(6.01665, 30.0) == 180 && OutputTick(9.1, 30.0) == 273;
  }

  /** Six-second pieces of them start on frames 0 and 2. */
  lemma CloseIsCut(raw: seq<nat>)
    requires Aligned([0, 179, 180, 180, 273], 180, raw)
    ensures Kept([0, 179, 180, 180, 273], 180, raw) == [0, 2]
  {
    var ticks := [0, 179, 180, 180, 273];
    assert Ascending(ticks);
    ThreeSpan(ticks, 180, raw);
    assert |raw| == 2 && FirstFrom(ticks, ticks[0] + 180, raw[1]);
    assert ticks[2] == 180;
  }

  lemma ThreeSpan(ticks: seq<int>, length: int, raw: seq<nat>)
    requires length >= 1 && ticks != [] && Ascending(ticks) && Spaced(ticks, length, raw)
    ensures |raw| > 2 ==> ticks[|ticks| - 1] - ticks[0] >= 2 * length
  {
    if |raw| > 2 {
      SpacedIncreases(ticks, length, raw, 0, 1);
      SpacedIncreases(ticks, length, raw, 1, 2);
      assert ticks[raw[2]] <= ticks[|ticks| - 1];
    }
  }

  lemma CloseMoves()
    ensures Landing(Times(CLOSE, 0.00001), [0, 2], 1) == 1 && !SeekHolds(Times(CLOSE, 0.00001), 30.0, [0, 2], 1)
  {
    CloseTimes();
    CloseTicks();
    hide Times, Ticks;
    CloseFrameMoves(Times(CLOSE, 0.00001), 30.0, [0, 2], 1, 3);
  }

  lemma SixSeconds()
    ensures PieceLength(6, 30.0) == 180
  {
    assert SegmentsIn(6) == 1;
  }

  /** All times not before zero, and yet the second piece's seek lands on the frame before
      its start and moves the frame after it: the planned ladder is not the single run. */
  method LadderMovesCloseFrame() returns (plan: Option<Plan>)
    ensures plan.Some? && plan.value.Valid() && plan.value.starts == [0.0, 5.9834]
    ensures Flatten(Pieces(CLOSE, CLOSE_CLOCK, plan.value)) != Convert(OnClock(CLOSE, CLOSE_CLOCK))
  {
    CloseTimes();
    CloseTicks();
    CloseMoves();
    SixSeconds();
    ghost var c, raw, idx, segments;
    plan, c, raw, idx, segments := PlanLadder(CLOSE, 0.00001, 30, Some(30.0), 6);
    hide Aligned, Kept, Times, Ticks, OnClock, SeekHolds, Pieces, PlanFrom, Convert, PieceLength, CutAt, Landing, PieceStarts;
    CloseIsCut(raw);
    CloseStarts(plan.value.starts);
  }

  lemma CloseStarts(starts: seq<real>)
    requires CutAt(CLOSE, CLOSE_CLOCK, starts, [0, 2])
    ensures starts == [0.0, 5.9834]
  {
    CloseTimes();
    hide Times, OnClock;
  }
}
