/** The plan that travels to whoever encodes a piece (app/worker/chunked.py), and
    what encoding by it writes. Times are exact rationals, as the Fractions are. */
module PiecePlan {
  import opened Prelude
  import opened RateConversion
  import opened Rounding
  import opened S = PieceShift

  const MICRO := 0.000001

  /** A packet of the video stream: its timestamp in time base units from the file's start. */
  datatype Frame<P> = Frame(pts: int, picture: P)

  /** The stream's time base in seconds, and the rate the encode writes. */
  datatype Clock = Clock(timeBase: real, rate: real) {
    predicate Valid() { timeBase > 0.0 && rate > 0.0 }
    function Seconds(pts: int): real { pts as real * timeBase }
    function Tick(pts: int): int { OutputTick(Seconds(pts), rate) }
  }

  /** The output frame a source frame is rounded to: the nearest, a half up. */
  function OutputTick(seconds: real, rate: real): (tick: int)
    ensures tick as real - 0.5 <= seconds * rate < tick as real + 0.5
  {
    (seconds * rate + 0.5).Floor
  }

  lemma OutputTickMonotone(a: real, b: real, rate: real)
    requires a <= b && rate > 0.0
    ensures OutputTick(a, rate) <= OutputTick(b, rate)
  {
    assert a * rate <= b * rate;
  }

  ghost predicate Sorted(times: seq<real>) {
    forall i, j :: 0 <= i < j < |times| ==> times[i] <= times[j]
  }

  function Times<P>(fs: seq<Frame<P>>, timeBase: real): seq<real> {
    seq(|fs|, i requires 0 <= i < |fs| => fs[i].pts as real * timeBase)
  }

  /** The source as the rate filter sees it: every frame on its own timestamp. */
  function OnClock<P>(fs: seq<Frame<P>>, c: Clock): (s: seq<Shot<P>>)
    ensures |s| == |fs|
  {
    seq(|fs|, i requires 0 <= i < |fs| => Shot(c.Tick(fs[i].pts), fs[i].picture))
  }

  lemma OnClockOrdered<P>(fs: seq<Frame<P>>, c: Clock)
    requires c.Valid() && Sorted(Times(fs, c.timeBase))
    ensures Ordered(OnClock(fs, c))
  {
    forall i, j | 0 <= i < j < |fs| ensures OnClock(fs, c)[i].tick <= OnClock(fs, c)[j].tick {
      assert Times(fs, c.timeBase)[i] <= Times(fs, c.timeBase)[j];
      OutputTickMonotone(c.Seconds(fs[i].pts), c.Seconds(fs[j].pts), c.rate);
    }
  }

  /** Where `-ss` is told to go: a millisecond before the start, never before zero, to
      the microsecond. */
  function Seek(start: real): (seek: real)
    ensures 0.0 <= seek && (start >= 0.0 ==> seek <= start <= seek + 0.0010005) && (start < 0.0 ==> seek == 0.0)
  {
    var early := if start - 0.001 > 0.0 then start - 0.001 else 0.0;
    SeekBounds(early, start);
    HalfEven(early * 1000000.0) as real / 1000000.0
  }

  lemma SeekBounds(early: real, start: real)
    requires early == if start - 0.001 > 0.0 then start - 0.001 else 0.0
    ensures var seek := HalfEven(early * 1000000.0) as real / 1000000.0;
            0.0 <= seek && (start >= 0.0 ==> seek <= start <= seek + 0.0010005) && (start < 0.0 ==> seek == 0.0)
  {
    var x := early * 1000000.0;
    var n := HalfEven(x);
    NearestHalfEven(x);
    assert x >= 0.0 && n >= 0;
    assert n as real / 1000000.0 <= early + 0.0000005 && early - 0.0000005 <= n as real / 1000000.0;
  }

  /** The first frame at or after `start` seconds: where the decoder begins. */
  function SeekTo(times: seq<real>, start: real): (i: nat)
    ensures i <= |times|
    ensures i < |times| ==> start <= times[i]
    ensures forall j :: 0 <= j < i ==> times[j] < start
  {
    if times == [] || start <= times[0] then 0 else 1 + SeekTo(times[1..], start)
  }

  /** The seek undone: a piece's frames count from its first one, which is given
      back `startTick`. */
  function Rebase<P>(fs: seq<Frame<P>>, startTick: int): (r: seq<Frame<P>>)
    ensures |r| == |fs|
  {
    seq(|fs|, i requires 0 <= i < |fs| => Frame(fs[i].pts - fs[0].pts + startTick, fs[i].picture))
  }

  datatype Plan = Plan(starts: seq<real>, startTicks: seq<int>, firstFrames: seq<int>, frames: seq<int>) {
    predicate Valid() { |starts| == |startTicks| == |firstFrames| == |frames| }
  }

  function EncodePiece<P>(fs: seq<Frame<P>>, c: Clock, plan: Plan, index: nat): seq<P>
    requires plan.Valid() && index < |plan.starts|
  {
    var from := SeekTo(Times(fs, c.timeBase), Seek(plan.starts[index]));
    Limit(Convert(OnClock(Rebase(fs[from..], plan.startTicks[index]), c)), plan.frames[index])
  }

  function Pieces<P>(fs: seq<Frame<P>>, c: Clock, plan: Plan): seq<seq<P>>
    requires plan.Valid()
  {
    seq(|plan.starts|, j requires 0 <= j < |plan.starts| => EncodePiece(fs, c, plan, j))
  }

  /** `int()` of a Python number: toward zero. */
  function Truncate(x: real): (n: int)
    ensures x >= 0.0 ==> 0 <= n && n as real <= x < n as real + 1.0
    ensures x < 0.0 ==> n <= 0 && n as real - 1.0 < x <= n as real
  {
    if x >= 0.0 then x.Floor else -((-x).Floor)
  }

  /** The plan for pieces starting at these times. */
  function PlanFrom(starts: seq<real>, c: Clock): (plan: Plan)
    requires c.Valid() && |starts| > 0
    ensures plan.Valid() && plan.starts == starts
  {
    var first := seq(|starts|, i requires 0 <= i < |starts| => OutputTick(starts[i], c.rate));
    Plan(starts,
         seq(|starts|, i requires 0 <= i < |starts| => Truncate(starts[i] / c.timeBase)),
         first,
         seq(|starts| - 1, i requires 0 <= i < |starts| - 1 => first[i + 1] - first[i]) + [0])
  }

  ghost predicate StartsAt(times: seq<real>, idx: seq<nat>, starts: seq<real>) {
    |starts| == |idx| && forall j :: 0 <= j < |idx| ==> idx[j] < |times| && starts[j] == times[idx[j]]
  }

  /** The start times are those of frames `idx`, which cut the source exactly. */
  ghost predicate CutAt<P>(fs: seq<Frame<P>>, c: Clock, starts: seq<real>, idx: seq<nat>) {
    && c.Valid() && Sorted(Times(fs, c.timeBase))
    && Cut(OnClock(fs, c), idx)
    && StartsAt(Times(fs, c.timeBase), idx, starts)
  }

  /** The start tick is the frame's own timestamp, exactly. */
  lemma StartTickExact(c: Clock, pts: int)
    requires c.Valid()
    ensures Truncate(c.Seconds(pts) / c.timeBase) == pts
  {
    assert c.Seconds(pts) / c.timeBase == pts as real;
  }

  lemma RebaseUndoesSeek<P>(fs: seq<Frame<P>>, c: Clock, i: nat)
    requires i < |fs|
    ensures OnClock(Rebase(fs[i..], fs[i].pts), c) == OnClock(fs, c)[i..]
  {
    hide OutputTick;
    assert Rebase(fs[i..], fs[i].pts) == fs[i..];
    assert OnClock(fs[i..], c) == OnClock(fs, c)[i..];
  }

  lemma StartTicksExact<P>(fs: seq<Frame<P>>, c: Clock, starts: seq<real>, idx: seq<nat>, j: nat)
    requires CutAt(fs, c, starts, idx) && j < |idx|
    ensures PlanFrom(starts, c).startTicks[j] == fs[idx[j]].pts
  {
    StartTickExact(c, fs[idx[j]].pts);
    assert starts[j] == c.Seconds(fs[idx[j]].pts);
  }

  lemma FirstFrameIsTick<P>(fs: seq<Frame<P>>, c: Clock, starts: seq<real>, idx: seq<nat>, j: nat)
    requires CutAt(fs, c, starts, idx) && j < |idx|
    ensures PlanFrom(starts, c).firstFrames[j] == OnClock(fs, c)[idx[j]].tick
  {
    hide OutputTick, Truncate;
    assert starts[j] == c.Seconds(fs[idx[j]].pts);
  }

  /** The seek lands on the start's own frame exactly when the start is not before zero
      and no frame lies in the millisecond before it. */
  lemma LandsIff<P>(fs: seq<Frame<P>>, c: Clock, starts: seq<real>, idx: seq<nat>, j: nat)
    requires CutAt(fs, c, starts, idx) && j < |idx|
    ensures SeekTo(Times(fs, c.timeBase), Seek(starts[j])) == idx[j]
            <==> starts[j] >= 0.0 && (idx[j] > 0 ==> Times(fs, c.timeBase)[idx[j] - 1] < Seek(starts[j]))
  {
    var times, b := Times(fs, c.timeBase), idx[j];
    assert times[b] == starts[j];
    var a := SeekTo(times, Seek(starts[j]));
    hide Times, OutputTick, OnClock, Seek, SeekTo;
    assert forall k :: 0 <= k < b ==> times[k] <= times[b - 1];
  }

  /** A piece whose seek lands on its own frame is the conversion from that frame on the
      source's own timestamps: undoing the seek gives every frame its timestamp back. */
  lemma PieceFromPlan<P>(fs: seq<Frame<P>>, c: Clock, starts: seq<real>, idx: seq<nat>, j: nat)
    requires CutAt(fs, c, starts, idx) && j < |idx|
    requires SeekTo(Times(fs, c.timeBase), Seek(starts[j])) == idx[j]
    ensures EncodePiece(fs, c, PlanFrom(starts, c), j)
            == PieceOutput(OnClock(fs, c), idx[j], PlanFrom(starts, c).frames[j])
  {
    StartTicksExact(fs, c, starts, idx, j);
    RebaseUndoesSeek(fs, c, idx[j]);
    hide OutputTick, Truncate, SeekTo, Seek, Convert, Limit;
  }

  lemma PlanCounts<P>(fs: seq<Frame<P>>, c: Clock, starts: seq<real>, idx: seq<nat>)
    requires CutAt(fs, c, starts, idx)
    ensures Counts(OnClock(fs, c), idx, PlanFrom(starts, c).frames)
  {
    hide OutputTick, Truncate;
    forall j | 0 <= j < |idx| ensures PlanFrom(starts, c).firstFrames[j] == OnClock(fs, c)[idx[j]].tick {
      FirstFrameIsTick(fs, c, starts, idx, j);
    }
  }

  // --- Where the seek lands on another frame ---------------------------------------------

  function Landing(times: seq<real>, idx: seq<nat>, j: nat): nat
    requires j < |idx| && idx[j] < |times|
  {
    SeekTo(times, Seek(times[idx[j]]))
  }

  /** Frame `i`'s time in piece `j`: every frame is moved as the first one is. */
  function Moved(times: seq<real>, idx: seq<nat>, j: nat, i: nat): real
    requires j < |idx| && idx[j] < |times| && Landing(times, idx, j) < |times| && i < |times|
  {
    times[i] - times[Landing(times, idx, j)] + times[idx[j]]
  }

  /** The frame after piece `j`'s last. */
  function PieceEnd(times: seq<real>, idx: seq<nat>, j: nat): nat {
    if j + 1 < |idx| then idx[j + 1] else |times|
  }

  /** Piece `j`'s seek does no harm: it lands before the piece is over, moves none of the
      piece's frames to another output frame, and does not bring the next piece's first
      frame forward into it. That is so whenever it lands on the start. */
  ghost predicate SeekHolds(times: seq<real>, rate: real, idx: seq<nat>, j: nat)
    requires j < |idx| && idx[j] < |times|
  {
    var a, end := Landing(times, idx, j), PieceEnd(times, idx, j);
    && a < end <= |times|
    && (forall i :: Later(a, idx[j]) <= i < end ==> OutputTick(Moved(times, idx, j, i), rate) == OutputTick(times[i], rate))
    && (end < |times| ==> OutputTick(Moved(times, idx, j, end), rate) >= OutputTick(times[end], rate))
  }

  ghost predicate SeeksHold(times: seq<real>, rate: real, idx: seq<nat>)
    requires forall j :: 0 <= j < |idx| ==> idx[j] < |times|
  {
    forall j :: 0 <= j < |idx| ==> SeekHolds(times, rate, idx, j)
  }

  lemma LandingHolds(times: seq<real>, rate: real, idx: seq<nat>, j: nat)
    requires j < |idx| && idx[j] < PieceEnd(times, idx, j) <= |times| && Landing(times, idx, j) == idx[j]
    ensures SeekHolds(times, rate, idx, j)
  {
    hide Landing, OutputTick;
  }

  /** Frames further apart than the seek goes back. */
  ghost predicate Apart(times: seq<real>) {
    forall i :: 0 < i < |times| ==> times[i] - times[i - 1] > 0.0010005
  }

  /** The piece's frames as they reach the rate filter. */
  function PieceShots<P>(fs: seq<Frame<P>>, c: Clock, plan: Plan, index: nat): seq<Shot<P>>
    requires plan.Valid() && index < |plan.starts|
  {
    OnClock(Rebase(fs[SeekTo(Times(fs, c.timeBase), Seek(plan.starts[index]))..], plan.startTicks[index]), c)
  }

  lemma RebasedAt<P>(fs: seq<Frame<P>>, c: Clock, a: nat, tick: int, i: nat)
    requires a <= i < |fs|
    ensures var p := OnClock(Rebase(fs[a..], tick), c);
            |p| == |fs| - a && p[i - a] == Shot(c.Tick(fs[i].pts - fs[a].pts + tick), fs[i].picture)
  {
    hide OutputTick;
    assert fs[a..][i - a] == fs[i] && fs[a..][0] == fs[a];
  }

  lemma TickOf<P>(fs: seq<Frame<P>>, c: Clock, i: nat, a: nat, b: nat)
    requires i < |fs| && a < |fs| && b < |fs|
    ensures var times := Times(fs, c.timeBase);
            c.Tick(fs[i].pts - fs[a].pts + fs[b].pts) == OutputTick(times[i] - times[a] + times[b], c.rate)
  {
    hide OutputTick;
    var x, y, z := fs[i].pts, fs[a].pts, fs[b].pts;
    assert c.Seconds(x - y + z) == c.Seconds(x) - c.Seconds(y) + c.Seconds(z);
  }

  lemma ShotsAre<P>(fs: seq<Frame<P>>, c: Clock, starts: seq<real>, idx: seq<nat>, j: nat)
    requires CutAt(fs, c, starts, idx) && j < |idx|
    ensures c.Valid() && |starts| == |idx| && idx[j] < |fs|
    ensures Landing(Times(fs, c.timeBase), idx, j) <= |fs|
    ensures PieceShots(fs, c, PlanFrom(starts, c), j)
            == OnClock(Rebase(fs[Landing(Times(fs, c.timeBase), idx, j)..], fs[idx[j]].pts), c)
  {
    StartTicksExact(fs, c, starts, idx, j);
    hide OutputTick, Truncate, SeekTo, Seek, Rebase, OnClock;
    assert Times(fs, c.timeBase)[idx[j]] == starts[j];
  }

  lemma MovedTick<P>(fs: seq<Frame<P>>, c: Clock, starts: seq<real>, idx: seq<nat>, j: nat, i: nat)
    requires CutAt(fs, c, starts, idx) && j < |idx|
    requires idx[j] < |fs| && Landing(Times(fs, c.timeBase), idx, j) <= i < |fs|
    ensures c.Valid() && |starts| == |idx|
    ensures var a, p := Landing(Times(fs, c.timeBase), idx, j), PieceShots(fs, c, PlanFrom(starts, c), j);
            && |p| == |fs| - a && p[i - a].picture == fs[i].picture
            && p[i - a].tick == OutputTick(Moved(Times(fs, c.timeBase), idx, j, i), c.rate)
  {
    hide OutputTick, CutAt, Rebase, OnClock, PieceShots, Landing;
    ShotsAre(fs, c, starts, idx, j);
    var a := Landing(Times(fs, c.timeBase), idx, j);
    RebasedAt(fs, c, a, fs[idx[j]].pts, i);
    TickOf(fs, c, i, a, idx[j]);
  }

  lemma SeekMonotone(a: real, b: real)
    requires a <= b
    ensures Seek(a) <= Seek(b)
  {
    var x := if a - 0.001 > 0.0 then a - 0.001 else 0.0;
    var y := if b - 0.001 > 0.0 then b - 0.001 else 0.0;
    HalfEvenMonotone(x * 1000000.0, y * 1000000.0);
  }

  lemma LandingMonotone(times: seq<real>, idx: seq<nat>, i: nat, j: nat)
    requires i < |idx| && j < |idx| && idx[i] < |times| && idx[j] < |times| && times[idx[i]] <= times[idx[j]]
    ensures Landing(times, idx, i) <= Landing(times, idx, j)
  {
    SeekMonotone(times[idx[i]], times[idx[j]]);
    var a, b := Landing(times, idx, i), Landing(times, idx, j);
    hide Seek, SeekTo;
    assert forall k :: 0 <= k < a ==> times[k] < Seek(times[idx[i]]);
  }

  lemma MovedMonotone(times: seq<real>, rate: real, idx: seq<nat>, j: nat, i: nat, k: nat)
    requires Sorted(times) && rate > 0.0 && j < |idx| && idx[j] < |times| && Landing(times, idx, j) < |times|
    requires i <= k < |times|
    ensures OutputTick(Moved(times, idx, j, i), rate) <= OutputTick(Moved(times, idx, j, k), rate)
  {
    assert times[i] <= times[k];
    hide OutputTick, Landing;
    OutputTickMonotone(Moved(times, idx, j, i), Moved(times, idx, j, k), rate);
  }

  /** Piece `j`, as it reaches the rate filter, is the source from its landing on, moved. */
  ghost predicate IsMoved<P>(s: seq<Shot<P>>, times: seq<real>, rate: real, idx: seq<nat>, j: nat, p: seq<Shot<P>>) {
    && |s| == |times| && j < |idx| && idx[j] < |times|
    && var a := Landing(times, idx, j);
       && |p| == |times| - a
       && (forall i: nat :: i < |times| ==> s[i].tick == OutputTick(times[i], rate))
       && (forall i: nat :: a <= i < |times| ==>
             p[i - a].picture == s[i].picture && p[i - a].tick == OutputTick(Moved(times, idx, j, i), rate))
  }

  lemma PieceIsMoved<P>(fs: seq<Frame<P>>, c: Clock, starts: seq<real>, idx: seq<nat>, j: nat)
    requires CutAt(fs, c, starts, idx) && j < |idx|
    ensures c.Valid() && |starts| == |idx|
    ensures IsMoved(OnClock(fs, c), Times(fs, c.timeBase), c.rate, idx, j, PieceShots(fs, c, PlanFrom(starts, c), j))
  {
    hide OutputTick, CutAt, OnClock, PieceShots, Landing, Rebase, Times, Seek, SeekTo;
    ShotsAre(fs, c, starts, idx, j);
    ClockAt(fs, c);
    var times, s := Times(fs, c.timeBase), OnClock(fs, c);
    var a, p := Landing(times, idx, j), PieceShots(fs, c, PlanFrom(starts, c), j);
    RebasedSize(fs, c, a, fs[idx[j]].pts);
    forall i: nat | a <= i < |fs|
      ensures p[i - a].picture == s[i].picture && p[i - a].tick == OutputTick(Moved(times, idx, j, i), c.rate)
    {
      MovedTick(fs, c, starts, idx, j, i);
    }
  }

  lemma ClockAt<P>(fs: seq<Frame<P>>, c: Clock)
    ensures |Times(fs, c.timeBase)| == |OnClock(fs, c)| == |fs|
    ensures forall i: nat :: i < |fs| ==> OnClock(fs, c)[i] == Shot(OutputTick(Times(fs, c.timeBase)[i], c.rate), fs[i].picture)
  {
    hide OutputTick;
  }

  lemma RebasedSize<P>(fs: seq<Frame<P>>, c: Clock, a: nat, tick: int)
    requires a <= |fs|
    ensures |OnClock(Rebase(fs[a..], tick), c)| == |fs| - a
  {
    hide OutputTick;
  }

  lemma MovedReads<P>(s: seq<Shot<P>>, times: seq<real>, rate: real, idx: seq<nat>, j: nat, p: seq<Shot<P>>)
    requires IsMoved(s, times, rate, idx, j, p) && Sorted(times) && rate > 0.0
    ensures j < |idx| && idx[j] < |times| && Reads(s, idx, j, Landing(times, idx, j), p)
  {
    var a := Landing(times, idx, j);
    hide OutputTick, Landing, Sorted;
    forall i, k | 0 <= i <= k < |p| ensures p[i].tick <= p[k].tick {
      MovedMonotone(times, rate, idx, j, a + i, a + k);
      assert p[a + i - a] == p[i] && p[a + k - a] == p[k];
    }
    if p != [] {
      assert p[a - a].tick == OutputTick(Moved(times, idx, j, a), rate);
    }
  }

  /** Nothing of the piece is out of place exactly when its seek holds. */
  lemma InPlaceIff<P>(s: seq<Shot<P>>, times: seq<real>, rate: real, idx: seq<nat>, j: nat, p: seq<Shot<P>>)
    requires IsMoved(s, times, rate, idx, j, p) && j < |idx| && idx[j] < |times| && Reads(s, idx, j, Landing(times, idx, j), p)
    ensures InPlace(s, idx, j, Landing(times, idx, j), p) <==> SeekHolds(times, rate, idx, j)
  {
    var a, end := Landing(times, idx, j), End(s, idx, j);
    hide OutputTick, Landing, Moved, Reads;
    assert end == PieceEnd(times, idx, j);
  }

  // --- The join ------------------------------------------------------------------------

  /** The highest frame rate the table of jobs allows an upload to ask for. */
  const MAX_FPS := 60.0

  /** The real first frame's own output frame does not move when the seek lands on an
      earlier one: at these rates output frames are far more than a millisecond apart. */
  lemma FirstStaysPut(times: seq<real>, rate: real, idx: seq<nat>)
    requires Sorted(times) && 0.0 < rate <= MAX_FPS && |idx| > 0 && 0 < idx[0] < |times|
    requires OutputTick(times[idx[0] - 1], rate) < OutputTick(times[idx[0]], rate)
    requires Landing(times, idx, 0) < idx[0]
    ensures OutputTick(Moved(times, idx, 0, idx[0]), rate) <= OutputTick(times[idx[0]], rate)
  {
    hide Landing, OutputTick, Sorted;
    var b := idx[0];
    var a := Landing(times, idx, 0);
    LandsClose(times, idx);
    var late := 2.0 * times[b] - times[a];
    assert late <= times[b - 1] + 0.002001;
    RateBound(late, times[b - 1] + 0.002001, times[b - 1], rate);
    StaysBelow(times[b - 1], times[b], late, rate);
  }

  lemma LandsClose(times: seq<real>, idx: seq<nat>)
    requires Sorted(times) && |idx| > 0 && 0 < idx[0] < |times| && Landing(times, idx, 0) < idx[0]
    ensures times[Landing(times, idx, 0)] <= times[idx[0] - 1] <= times[idx[0]] <= times[Landing(times, idx, 0)] + 0.0010005
  {
    var b := idx[0];
    assert Seek(times[b]) <= times[Landing(times, idx, 0)] <= times[b];
    hide Seek, SeekTo;
  }

  lemma RateBound(x: real, y: real, base: real, rate: real)
    requires x <= y && y == base + 0.002001 && 0.0 < rate <= MAX_FPS
    ensures x * rate <= base * rate + 0.2
  {
    var least := y - x;
    assert least * rate >= 0.0;
    assert x * rate == y * rate - least * rate;
    assert y * rate == base * rate + 0.002001 * rate;
    assert 0.002001 * rate <= 0.002001 * MAX_FPS <= 0.2;
  }

  lemma StaysBelow(before: real, start: real, late: real, rate: real)
    requires OutputTick(before, rate) < OutputTick(start, rate) && late * rate <= before * rate + 0.2
    ensures OutputTick(late, rate) <= OutputTick(start, rate)
  {
    var p, t, u := OutputTick(before, rate), OutputTick(start, rate), OutputTick(late, rate);
    var x, y := before * rate, late * rate;
    assert x < p as real + 0.5 && u as real - 0.5 <= y <= x + 0.2;
    hide OutputTick;
    assert p + 1 <= t;
    assert u as real < t as real + 1.0;
  }

  ghost predicate LookDifferent<P>(fs: seq<Frame<P>>) {
    forall i, j :: 0 <= i < j < |fs| ==> fs[i].picture != fs[j].picture
  }

  lemma StartsLateIf<P>(s: seq<Shot<P>>, times: seq<real>, rate: real, idx: seq<nat>, p: seq<Shot<P>>)
    requires IsMoved(s, times, rate, idx, 0, p) && Sorted(times) && 0.0 < rate <= MAX_FPS && Cut(s, idx) && idx[0] > 0
    requires Reads(s, idx, 0, Landing(times, idx, 0), p)
    ensures StartsLate(s, idx, Landing(times, idx, 0), p)
  {
    assert Begins(s, idx[0]);
    var a := Landing(times, idx, 0);
    if a < idx[0] {
      FirstStaysPut(times, rate, idx);
      assert p[idx[0] - a].tick == OutputTick(Moved(times, idx, 0, idx[0]), rate);
    }
  }

  function AllShots<P>(fs: seq<Frame<P>>, c: Clock, plan: Plan): seq<seq<Shot<P>>>
    requires plan.Valid()
  {
    seq(|plan.starts|, j requires 0 <= j < |plan.starts| => PieceShots(fs, c, plan, j))
  }

  ghost function Landings(times: seq<real>, idx: seq<nat>): seq<nat>
    requires forall j :: 0 <= j < |idx| ==> idx[j] < |times|
  {
    seq(|idx|, j requires 0 <= j < |idx| => Landing(times, idx, j))
  }

  lemma CutFacts<P>(fs: seq<Frame<P>>, c: Clock, starts: seq<real>, idx: seq<nat>)
    requires CutAt(fs, c, starts, idx)
    ensures c.Valid() && |starts| == |idx| > 0 && Sorted(Times(fs, c.timeBase)) && Cut(OnClock(fs, c), idx)
    ensures forall j :: 0 <= j < |idx| ==> idx[j] < |Times(fs, c.timeBase)|
    ensures forall i, j :: 0 <= i < j < |idx| ==> Times(fs, c.timeBase)[idx[i]] <= Times(fs, c.timeBase)[idx[j]]
  {
    hide OutputTick;
  }

  /** The pieces as the plan has them encoded. */
  lemma PiecesWritten<P>(fs: seq<Frame<P>>, c: Clock, starts: seq<real>, idx: seq<nat>)
    requires CutAt(fs, c, starts, idx) && c.Valid() && |starts| == |idx| > 0
    requires forall j :: 0 <= j < |idx| ==> idx[j] < |Times(fs, c.timeBase)|
    ensures Written(OnClock(fs, c), idx, PlanFrom(starts, c).frames, Landings(Times(fs, c.timeBase), idx),
                    AllShots(fs, c, PlanFrom(starts, c)), Pieces(fs, c, PlanFrom(starts, c)))
  {
    CutFacts(fs, c, starts, idx);
    var times, plan, s := Times(fs, c.timeBase), PlanFrom(starts, c), OnClock(fs, c);
    hide CutAt, OutputTick, OnClock, Landing, Times, Sorted, Cut;
    forall j | 0 <= j < |idx|
      ensures Reads(s, idx, j, Landings(times, idx)[j], AllShots(fs, c, plan)[j])
              && Pieces(fs, c, plan)[j] == Limit(Convert(AllShots(fs, c, plan)[j]), plan.frames[j])
    {
      PieceIsMoved(fs, c, starts, idx, j);
      MovedReads(s, times, c.rate, idx, j, PieceShots(fs, c, plan, j));
    }
    forall i, j | 0 <= i < j < |idx| ensures Landings(times, idx)[i] <= Landings(times, idx)[j] {
      LandingMonotone(times, idx, i, j);
    }
  }

  lemma AllInPlaceIff<P>(fs: seq<Frame<P>>, c: Clock, starts: seq<real>, idx: seq<nat>)
    requires CutAt(fs, c, starts, idx) && c.Valid() && |starts| == |idx| > 0
    requires forall j :: 0 <= j < |idx| ==> idx[j] < |Times(fs, c.timeBase)|
    requires Written(OnClock(fs, c), idx, PlanFrom(starts, c).frames, Landings(Times(fs, c.timeBase), idx),
                     AllShots(fs, c, PlanFrom(starts, c)), Pieces(fs, c, PlanFrom(starts, c)))
    ensures AllInPlace(OnClock(fs, c), idx, PlanFrom(starts, c).frames, Landings(Times(fs, c.timeBase), idx),
                       AllShots(fs, c, PlanFrom(starts, c)), Pieces(fs, c, PlanFrom(starts, c)))
            <==> SeeksHold(Times(fs, c.timeBase), c.rate, idx)
  {
    var times, plan, s := Times(fs, c.timeBase), PlanFrom(starts, c), OnClock(fs, c);
    hide CutAt, OutputTick, OnClock, Landing, Times, PieceShots, Reads, InPlace, SeekHolds, Convert, Limit;
    forall j | 0 <= j < |idx|
      ensures InPlace(s, idx, j, Landings(times, idx)[j], AllShots(fs, c, plan)[j]) <==> SeekHolds(times, c.rate, idx, j)
    {
      PieceIsMoved(fs, c, starts, idx, j);
      assert AllShots(fs, c, plan)[j] == PieceShots(fs, c, plan, j) && Landings(times, idx)[j] == Landing(times, idx, j);
      InPlaceIff(s, times, c.rate, idx, j, PieceShots(fs, c, plan, j));
    }
  }

  /** Pieces encoded separately by the plan join, frame for frame, into what one
      conversion of the whole source would have written, when the first piece starts on
      the first frame and every seek holds -- and when no two frames look alike, only
      then. */
  lemma PlannedJoin<P>(fs: seq<Frame<P>>, c: Clock, starts: seq<real>, idx: seq<nat>)
    requires CutAt(fs, c, starts, idx) && c.rate <= MAX_FPS
    ensures forall j :: 0 <= j < |idx| ==> idx[j] < |Times(fs, c.timeBase)|
    ensures idx[0] == 0 && SeeksHold(Times(fs, c.timeBase), c.rate, idx) ==>
              Flatten(Pieces(fs, c, PlanFrom(starts, c))) == Convert(OnClock(fs, c))
    ensures LookDifferent(fs) ==>
              (Flatten(Pieces(fs, c, PlanFrom(starts, c))) == Convert(OnClock(fs, c))
               <==> idx[0] == 0 && SeeksHold(Times(fs, c.timeBase), c.rate, idx))
  {
    CutFacts(fs, c, starts, idx);
    OnClockOrdered(fs, c);
    PlanCounts(fs, c, starts, idx);
    PiecesWritten(fs, c, starts, idx);
    AllInPlaceIff(fs, c, starts, idx);
    FirstReads(fs, c, starts, idx);
    LookDifferentOnClock(fs, c);
    hide CutAt, OutputTick, OnClock, Landing, Times, PieceShots, Reads, AllInPlace, SeeksHold, Convert, Written, Counts,
         Cut, StartsLate, AllDiffer, LookDifferent, Ordered, Sorted, Pieces, PlanFrom;
    var times, plan := Times(fs, c.timeBase), PlanFrom(starts, c);
    JoinIsWholeIff(OnClock(fs, c), idx, plan.frames, Landings(times, idx), AllShots(fs, c, plan), Pieces(fs, c, plan));
  }

  lemma LookDifferentOnClock<P>(fs: seq<Frame<P>>, c: Clock)
    ensures LookDifferent(fs) ==> AllDiffer(OnClock(fs, c))
  {
    hide OutputTick;
  }

  lemma FirstReads<P>(fs: seq<Frame<P>>, c: Clock, starts: seq<real>, idx: seq<nat>)
    requires CutAt(fs, c, starts, idx) && c.rate <= MAX_FPS && c.Valid() && |starts| == |idx| > 0
    requires forall j :: 0 <= j < |idx| ==> idx[j] < |Times(fs, c.timeBase)|
    ensures var s, a, p := OnClock(fs, c), Landings(Times(fs, c.timeBase), idx)[0], AllShots(fs, c, PlanFrom(starts, c))[0];
            Reads(s, idx, 0, a, p) && (idx[0] > 0 ==> StartsLate(s, idx, a, p))
  {
    CutFacts(fs, c, starts, idx);
    hide CutAt, OutputTick, OnClock, Landing, Times, PieceShots, Reads, StartsLate;
    var times, p := Times(fs, c.timeBase), PieceShots(fs, c, PlanFrom(starts, c), 0);
    PieceIsMoved(fs, c, starts, idx, 0);
    MovedReads(OnClock(fs, c), times, c.rate, idx, 0, p);
    if idx[0] > 0 {
      StartsLateIf(OnClock(fs, c), times, c.rate, idx, p);
    }
  }

  /** Frames more than a millisecond apart and none before zero: every seek lands on its
      start, and holds. */
  lemma ApartHolds<P>(fs: seq<Frame<P>>, c: Clock, starts: seq<real>, idx: seq<nat>)
    requires CutAt(fs, c, starts, idx) && Apart(Times(fs, c.timeBase)) && fs != [] && Times(fs, c.timeBase)[0] >= 0.0
    ensures forall j :: 0 <= j < |idx| ==> idx[j] < |Times(fs, c.timeBase)|
    ensures SeeksHold(Times(fs, c.timeBase), c.rate, idx)
  {
    CutFacts(fs, c, starts, idx);
    var times := Times(fs, c.timeBase);
    forall j | 0 <= j < |idx| ensures SeekHolds(times, c.rate, idx, j) {
      assert times[idx[j]] == starts[j] && times[0] <= times[idx[j]];
      LandsIff(fs, c, starts, idx, j);
      assert idx[j] > 0 ==> times[idx[j]] - times[idx[j] - 1] > 0.0010005;
      hide Times, Seek, SeekTo, CutAt;
      LandingHolds(times, c.rate, idx, j);
    }
  }

  /** The pieces' places in the timeline leave no gap and no overlap: each starts
      where the one before it was told to stop, and every count but the last is
      positive, so none is taken for "to the end". */
  lemma PiecesAbut<P>(fs: seq<Frame<P>>, c: Clock, starts: seq<real>, idx: seq<nat>, j: nat)
    requires CutAt(fs, c, starts, idx) && j < |idx|
    ensures var plan := PlanFrom(starts, c);
            if j == |idx| - 1 then plan.frames[j] == 0
            else 0 < plan.frames[j] && plan.firstFrames[j] + plan.frames[j] == plan.firstFrames[j + 1]
    ensures idx[j] < |Times(fs, c.timeBase)|
    ensures SeekHolds(Times(fs, c.timeBase), c.rate, idx, j) ==>
              |EncodePiece(fs, c, PlanFrom(starts, c), j)|
              == if j == |idx| - 1 then OnClock(fs, c)[|fs| - 1].tick - OnClock(fs, c)[idx[j]].tick + 1
                 else PlanFrom(starts, c).frames[j]
  {
    CutFacts(fs, c, starts, idx);
    OnClockOrdered(fs, c);
    PlanCounts(fs, c, starts, idx);
    PieceIsMoved(fs, c, starts, idx, j);
    var times, plan, s, p := Times(fs, c.timeBase), PlanFrom(starts, c), OnClock(fs, c), PieceShots(fs, c, PlanFrom(starts, c), j);
    MovedReads(s, times, c.rate, idx, j, p);
    InPlaceIff(s, times, c.rate, idx, j, p);
    StretchSize(s, idx, plan.frames, j);
    if SeekHolds(times, c.rate, idx, j) {
      hide CutAt, OutputTick, OnClock, Landing, Times, PieceShots, Reads, InPlace, SeekHolds, Convert, Limit, Cut, Counts, Ordered;
      InPlaceIsLong(s, idx, plan.frames, j, Landing(times, idx, j), p);
    }
  }

  /** A frame less than a millisecond before a start becomes its piece's first, and is
      given the start's timestamp; a frame which that moves to another output frame shows
      that the seek does not hold. */
  lemma CloseFrameMoves(times: seq<real>, rate: real, idx: seq<nat>, j: nat, i: nat)
    requires j < |idx| && 0 < idx[j] <= i < PieceEnd(times, idx, j) <= |times|
    requires forall k :: 0 <= k < idx[j] - 1 ==> times[k] < times[idx[j]] - 0.0010005
    requires times[idx[j]] >= 0.001 && times[idx[j]] - 0.0009995 <= times[idx[j] - 1]
    requires OutputTick(times[i] - times[idx[j] - 1] + times[idx[j]], rate) != OutputTick(times[i], rate)
    ensures Landing(times, idx, j) == idx[j] - 1 && !SeekHolds(times, rate, idx, j)
  {
    SeekNear(times[idx[j]]);
    SeekLands(times, Seek(times[idx[j]]), idx[j] - 1);
    hide Seek, SeekTo, OutputTick;
    assert Moved(times, idx, j, i) == times[i] - times[idx[j] - 1] + times[idx[j]];
  }

  lemma SeekNear(start: real)
    requires start >= 0.001
    ensures start - 0.0010005 <= Seek(start) <= start - 0.0009995
  {
    NearestHalfEven((start - 0.001) * 1000000.0);
  }

  lemma SeekLands(times: seq<real>, seek: real, i: nat)
    requires i < |times| && seek <= times[i] && forall k :: 0 <= k < i ==> times[k] < seek
    ensures SeekTo(times, seek) == i
  {
    var r := SeekTo(times, seek);
    assert !(r < i) && !(i < r);
  }
}
