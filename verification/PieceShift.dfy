/** Pieces whose first frame is not the one they were cut at. A piece's frames count from
    the first one the decoder hands over, which is given the timestamp of the piece's
    start; when that is another frame, every frame of the piece is shifted with it. This
    is when the join is still the single run, and when it is not. */
module PieceShift {
  import opened Prelude
  import opened RateConversion

  /** No two source frames look alike, so a frame out of place shows. */
  ghost predicate AllDiffer<P>(s: seq<Shot<P>>) {
    forall i, j :: 0 <= i < j < |s| ==> s[i].picture != s[j].picture
  }

  /** Piece `j` gets the source's frames from `a` on, the first of them at its start's tick. */
  ghost predicate Reads<P>(s: seq<Shot<P>>, idx: seq<nat>, j: nat, a: nat, p: seq<Shot<P>>)
    requires j < |idx|
  {
    && idx[j] < |s| && a <= |s| && |p| == |s| - a && Ordered(p)
    && (forall i :: a <= i < |s| ==> p[i - a].picture == s[i].picture)
    && (p != [] ==> p[0].tick == s[idx[j]].tick)
  }

  /** The first frame that is no longer piece `j`'s. */
  function End<P>(s: seq<Shot<P>>, idx: seq<nat>, j: nat): nat {
    if j + 1 < |idx| then idx[j + 1] else |s|
  }

  function Later(a: nat, b: nat): nat { if a < b then b else a }

  /** The shift moves none of the piece's frames to another output frame, and does not
      bring the next piece's first frame forward into it. */
  ghost predicate InPlace<P>(s: seq<Shot<P>>, idx: seq<nat>, j: nat, a: nat, p: seq<Shot<P>>)
    requires j < |idx| && Reads(s, idx, j, a, p)
  {
    var end := End(s, idx, j);
    && a < end <= |s|
    && (forall i :: Later(a, idx[j]) <= i < end ==> p[i - a].tick == s[i].tick)
    && (end < |s| ==> p[end - a].tick >= s[end].tick)
  }

  /** The output frames that are piece `j`'s. */
  ghost predicate Within<P>(s: seq<Shot<P>>, idx: seq<nat>, j: nat, k: int)
    requires Cut(s, idx) && j < |idx|
  {
    s[idx[j]].tick <= k < s[0].tick + Offsets(s, idx)[j + 1]
  }

  /** In the single run each of them shows one of the piece's own frames. */
  lemma ShowsOwn<P>(s: seq<Shot<P>>, idx: seq<nat>, j: nat, k: int)
    requires Ordered(s) && Cut(s, idx) && j < |idx| && Within(s, idx, j, k)
    ensures s[0].tick <= k <= s[|s| - 1].tick
    ensures idx[j] <= LastAtMost(s, k) < End(s, idx, j) <= |s|
  {
    assert s[0].tick <= s[idx[j]].tick;
    if j + 1 < |idx| {
      assert Offsets(s, idx)[j + 1] == s[idx[j + 1]].tick - s[0].tick;
      assert s[idx[j + 1]].tick <= s[|s| - 1].tick;
    } else {
      assert Offsets(s, idx)[j + 1] == Length(s);
    }
  }

  lemma LastIs<P>(p: seq<Shot<P>>, k: int, q: nat)
    requires Ordered(p) && q < |p| && p[q].tick <= k && (q + 1 < |p| ==> k < p[q + 1].tick)
    ensures p[0].tick <= k && LastAtMost(p, k) == q
  {
    assert forall i :: q < i < |p| ==> p[q + 1].tick <= p[i].tick;
  }

  /** Nothing of the piece has moved, so its output frames show what the single run's do. */
  lemma InPlaceShows<P>(s: seq<Shot<P>>, idx: seq<nat>, j: nat, a: nat, p: seq<Shot<P>>, k: int)
    requires Ordered(s) && Cut(s, idx) && j < |idx| && Within(s, idx, j, k)
    requires Reads(s, idx, j, a, p) && InPlace(s, idx, j, a, p)
    ensures s[0].tick <= k && p != [] && p[0].tick <= k && LastAtMost(p, k) == LastAtMost(s, k) - a
  {
    ShowsOwn(s, idx, j, k);
    assert s[idx[j]].tick <= k;
    hide Cut, Within, Offsets, Reads, InPlace, LastAtMost, Ordered, End;
    var m := LastAtMost(s, k);
    NotBefore(s, idx, j, a, p, m, k);
    OwnAt(s, idx, j, a, p, m);
    AfterShown(s, idx, j, a, p, k);
    LastIs(p, k, m - a);
  }

  lemma OwnAt<P>(s: seq<Shot<P>>, idx: seq<nat>, j: nat, a: nat, p: seq<Shot<P>>, m: nat)
    requires j < |idx| && Reads(s, idx, j, a, p) && InPlace(s, idx, j, a, p)
    requires idx[j] <= m < End(s, idx, j) && a <= m
    ensures m < |s| && |p| == |s| - a && Ordered(p) && p[m - a].tick == s[m].tick
  {
  }

  lemma NotBefore<P>(s: seq<Shot<P>>, idx: seq<nat>, j: nat, a: nat, p: seq<Shot<P>>, m: nat, k: int)
    requires j < |idx| && Reads(s, idx, j, a, p) && InPlace(s, idx, j, a, p)
    requires s[idx[j]].tick <= k && idx[j] <= m < |s| && forall i :: m < i < |s| ==> k < s[i].tick
    ensures m >= a
  {
    if a > idx[j] {
      assert p[a - a].tick == s[a].tick;
    }
  }

  lemma AfterShown<P>(s: seq<Shot<P>>, idx: seq<nat>, j: nat, a: nat, p: seq<Shot<P>>, k: int)
    requires Ordered(s) && Cut(s, idx) && j < |idx| && Within(s, idx, j, k)
    requires Reads(s, idx, j, a, p) && InPlace(s, idx, j, a, p)
    requires s[0].tick <= k && LastAtMost(s, k) >= a
    ensures var m := LastAtMost(s, k); m + 1 < |s| ==> k < p[m + 1 - a].tick
  {
    ShowsOwn(s, idx, j, k);
    var m, end := LastAtMost(s, k), End(s, idx, j);
    if m + 1 < end {
      assert p[m + 1 - a].tick == s[m + 1].tick;
    }
  }

  /** A piece with nothing moved is exactly its stretch of the single run, the frames of
      an earlier landing hidden behind its own first one. */
  lemma InPlaceIsStretch<P>(s: seq<Shot<P>>, idx: seq<nat>, counts: seq<int>, j: nat, a: nat, p: seq<Shot<P>>)
    requires Ordered(s) && Cut(s, idx) && Counts(s, idx, counts) && j < |idx|
    requires Reads(s, idx, j, a, p) && InPlace(s, idx, j, a, p)
    ensures 0 <= Offsets(s, idx)[j] < Offsets(s, idx)[j + 1] <= Length(s)
    ensures Limit(Convert(p), counts[j]) == Convert(s)[Offsets(s, idx)[j]..Offsets(s, idx)[j + 1]]
  {
    PieceIsStretch(s, idx, counts, j);
    var from, to := Offsets(s, idx)[j], Offsets(s, idx)[j + 1];
    InPlaceIsLong(s, idx, counts, j, a, p);
    OffsetTick(s, idx, j);
    hide InPlace, Reads, Counts, Ordered, Limit, Convert;
    var got, want := Limit(Convert(p), counts[j]), Convert(s)[from..to];
    forall k | 0 <= k < to - from ensures got[k] == want[k] {
      SamePicture(s, idx, j, a, p, counts[j], s[idx[j]].tick + k);
    }
  }

  lemma ConvertAt<P>(s: seq<Shot<P>>, k: int)
    requires s != [] && s[0].tick <= k && k - s[0].tick < Length(s)
    ensures Convert(s)[k - s[0].tick] == s[LastAtMost(s, k)].picture
  {
    hide LastAtMost;
  }

  lemma LimitAt<P>(x: seq<P>, n: int, k: nat)
    requires k < |Limit(x, n)|
    ensures k < |x| && Limit(x, n)[k] == x[k]
  {
  }

  lemma SamePicture<P>(s: seq<Shot<P>>, idx: seq<nat>, j: nat, a: nat, p: seq<Shot<P>>, n: int, tick: int)
    requires Ordered(s) && Cut(s, idx) && j < |idx| && Within(s, idx, j, tick)
    requires Reads(s, idx, j, a, p) && InPlace(s, idx, j, a, p)
    requires s[0].tick <= s[idx[j]].tick <= tick < s[0].tick + Length(s) && tick - s[idx[j]].tick < |Limit(Convert(p), n)|
    ensures Limit(Convert(p), n)[tick - s[idx[j]].tick] == Convert(s)[tick - s[0].tick]
  {
    assert idx[j] < |s|;
    hide InPlace, Reads, Cut, Ordered, Limit, Convert, LastAtMost, Within;
    InPlaceShows(s, idx, j, a, p, tick);
    PictureAt(s, idx, j, a, p, LastAtMost(s, tick));
    LimitAt(Convert(p), n, tick - s[idx[j]].tick);
    hide Length;
    ConvertAt(p, tick);
    ConvertAt(s, tick);
  }

  lemma OffsetTick<P>(s: seq<Shot<P>>, idx: seq<nat>, j: nat)
    requires Ordered(s) && Cut(s, idx) && j < |idx|
    ensures Offsets(s, idx)[j] == s[idx[j]].tick - s[0].tick >= 0
  {
    assert s[0].tick <= s[idx[j]].tick;
  }

  lemma PictureAt<P>(s: seq<Shot<P>>, idx: seq<nat>, j: nat, a: nat, p: seq<Shot<P>>, m: nat)
    requires j < |idx| && Reads(s, idx, j, a, p) && a <= m < |s|
    ensures |p| == |s| - a && p[m - a].picture == s[m].picture && p[0].tick == s[idx[j]].tick
  {
  }

  lemma LimitIsLong<P>(p: seq<Shot<P>>, n: int, size: nat)
    requires p != [] && size > 0 && p[0].tick <= p[|p| - 1].tick
    requires if n == 0 then size == p[|p| - 1].tick - p[0].tick + 1 else n == size <= p[|p| - 1].tick - p[0].tick
    ensures |Limit(Convert(p), n)| == size
  {
    hide LastAtMost;
  }

  lemma StretchSize<P>(s: seq<Shot<P>>, idx: seq<nat>, counts: seq<int>, j: nat)
    requires Ordered(s) && Cut(s, idx) && Counts(s, idx, counts) && j < |idx|
    ensures var size, end := Offsets(s, idx)[j + 1] - Offsets(s, idx)[j], End(s, idx, j);
            && size > 0 && idx[j] < end <= |s|
            && (if end < |s| then counts[j] == size == s[end].tick - s[idx[j]].tick
                else counts[j] == 0 && size == s[|s| - 1].tick - s[idx[j]].tick + 1)
  {
    PieceIsStretch(s, idx, counts, j);
    hide Convert, Limit, LastAtMost, Begins;
    assert s[idx[j]].tick >= s[0].tick;
    assert s[|s| - 1].tick >= s[idx[j]].tick;
  }

  lemma InPlaceIsLong<P>(s: seq<Shot<P>>, idx: seq<nat>, counts: seq<int>, j: nat, a: nat, p: seq<Shot<P>>)
    requires Ordered(s) && Cut(s, idx) && Counts(s, idx, counts) && j < |idx|
    requires Reads(s, idx, j, a, p) && InPlace(s, idx, j, a, p)
    ensures |Limit(Convert(p), counts[j])| == Offsets(s, idx)[j + 1] - Offsets(s, idx)[j]
  {
    StretchSize(s, idx, counts, j);
    Reaches(s, idx, j, a, p);
    hide Cut, Counts, Ordered, Offsets, Reads, InPlace, Limit, Convert, Length, End;
    LimitIsLong(p, counts[j], Offsets(s, idx)[j + 1] - Offsets(s, idx)[j]);
  }

  /** How far the piece's frames reach. */
  lemma Reaches<P>(s: seq<Shot<P>>, idx: seq<nat>, j: nat, a: nat, p: seq<Shot<P>>)
    requires Ordered(s) && j < |idx| && Reads(s, idx, j, a, p) && InPlace(s, idx, j, a, p)
    requires idx[j] < End(s, idx, j)
    ensures p != [] && p[0].tick == s[idx[j]].tick && p[0].tick <= p[|p| - 1].tick
    ensures var end := End(s, idx, j);
            if end < |s| then p[|p| - 1].tick >= s[end].tick else p[|p| - 1].tick == s[|s| - 1].tick
  {
    var end := End(s, idx, j);
    if end < |s| {
      assert p[end - a].tick <= p[|p| - 1].tick;
    } else {
      assert p[|s| - 1 - a].tick == s[|s| - 1].tick;
    }
  }

  // --- Only then ---------------------------------------------------------------------

  /** Piece `j` of a source without look-alikes, when it is exactly its stretch. */
  ghost predicate IsRight<P>(s: seq<Shot<P>>, idx: seq<nat>, n: int, j: nat, a: nat, p: seq<Shot<P>>) {
    && Ordered(s) && Cut(s, idx) && j < |idx| && AllDiffer(s) && Reads(s, idx, j, a, p)
    && 0 <= Offsets(s, idx)[j] < Offsets(s, idx)[j + 1] <= Length(s)
    && Limit(Convert(p), n) == Convert(s)[Offsets(s, idx)[j]..Offsets(s, idx)[j + 1]]
  }

  /** Each of its output frames then comes from the same source frame. */
  lemma Showing<P>(s: seq<Shot<P>>, idx: seq<nat>, n: int, j: nat, a: nat, p: seq<Shot<P>>, k: int)
    requires IsRight(s, idx, n, j, a, p) && Within(s, idx, j, k)
    ensures s[0].tick <= k && p != [] && p[0].tick <= k && LastAtMost(p, k) == LastAtMost(s, k) - a
  {
    RightFacts(s, idx, n, j, a, p);
    var lo := s[idx[j]].tick;
    RightAt(s, idx, n, j, a, p, k);
    hide IsRight, Cut, Ordered, Limit, Convert, LastAtMost, Within, Offsets, Reads;
    LimitAt(Convert(p), n, k - lo);
    FramesThere(p);
    hide Length;
    ConvertAt(p, k);
    ConvertAt(s, k);
    PictureAt(s, idx, j, a, p, LastAtMost(p, k) + a);
  }

  lemma RightAt<P>(s: seq<Shot<P>>, idx: seq<nat>, n: int, j: nat, a: nat, p: seq<Shot<P>>, k: int)
    requires IsRight(s, idx, n, j, a, p) && Within(s, idx, j, k)
    ensures j < |idx| && idx[j] < |s| && AllDiffer(s) && Reads(s, idx, j, a, p)
    ensures s[0].tick <= s[idx[j]].tick <= k && k - s[0].tick < Length(s) && k - s[idx[j]].tick < |Limit(Convert(p), n)|
    ensures Limit(Convert(p), n)[k - s[idx[j]].tick] == Convert(s)[k - s[0].tick]
  {
    OffsetTick(s, idx, j);
    hide Limit, Convert, Reads, LastAtMost, Begins, Ordered;
  }

  lemma FramesThere<P>(p: seq<Shot<P>>)
    ensures |Convert(p)| == Length(p) && (Length(p) > 0 ==> p != [])
  {
  }

  lemma RightFacts<P>(s: seq<Shot<P>>, idx: seq<nat>, n: int, j: nat, a: nat, p: seq<Shot<P>>)
    requires IsRight(s, idx, n, j, a, p)
    ensures Ordered(s) && Cut(s, idx) && j < |idx| && idx[j] < |s| && Ordered(p) && |p| == |s| - a
    ensures p != [] ==> p[0].tick == s[idx[j]].tick
  {
  }

  lemma OwnNotLater<P>(s: seq<Shot<P>>, idx: seq<nat>, n: int, j: nat, a: nat, p: seq<Shot<P>>, i: nat)
    requires IsRight(s, idx, n, j, a, p) && Later(a, idx[j]) <= i < End(s, idx, j)
    ensures i < |s| && i - a < |p| && p[0].tick <= p[i - a].tick <= s[i].tick && Within(s, idx, j, s[i].tick)
  {
    RightFacts(s, idx, n, j, a, p);
    OwnTick(s, idx, j, i);
    hide IsRight, Cut, Within;
    Showing(s, idx, n, j, a, p, s[i].tick);
    var m := LastAtMost(s, s[i].tick);
    assert p[i - a].tick <= p[m - a].tick;
  }

  lemma OwnFrameStays<P>(s: seq<Shot<P>>, idx: seq<nat>, n: int, j: nat, a: nat, p: seq<Shot<P>>, i: nat)
    requires IsRight(s, idx, n, j, a, p) && Later(a, idx[j]) <= i < End(s, idx, j)
    ensures i < |s| && i - a < |p| && p[i - a].tick == s[i].tick
  {
    RightFacts(s, idx, n, j, a, p);
    OwnNotLater(s, idx, n, j, a, p, i);
    var k := p[i - a].tick;
    assert Within(s, idx, j, k);
    hide IsRight, Cut, Within, Ordered;
    if k < s[i].tick {
      Showing(s, idx, n, j, a, p, k);
    }
  }

  lemma OwnTick<P>(s: seq<Shot<P>>, idx: seq<nat>, j: nat, i: nat)
    requires Ordered(s) && Cut(s, idx) && j < |idx| && idx[j] <= i < End(s, idx, j)
    ensures i < |s| && Within(s, idx, j, s[i].tick)
  {
    if j + 1 < |idx| {
      assert Begins(s, idx[j + 1]);
      assert s[i].tick <= s[idx[j + 1] - 1].tick;
    } else {
      assert s[i].tick <= s[|s| - 1].tick;
    }
  }

  lemma NextStaysOut<P>(s: seq<Shot<P>>, idx: seq<nat>, n: int, j: nat, a: nat, p: seq<Shot<P>>)
    requires IsRight(s, idx, n, j, a, p) && j + 1 < |idx| && a < idx[j + 1]
    ensures idx[j + 1] < |s| && p[idx[j + 1] - a].tick >= s[idx[j + 1]].tick
  {
    RightFacts(s, idx, n, j, a, p);
    var end := idx[j + 1];
    assert end < |s|;
    hide IsRight;
    var k := p[end - a].tick;
    if k < s[end].tick {
      assert Within(s, idx, j, k) by { assert k >= p[0].tick; }
      Showing(s, idx, n, j, a, p, k);
    }
  }

  /** When no two frames look alike, a piece that is its stretch has moved nothing. */
  lemma RightIsInPlace<P>(s: seq<Shot<P>>, idx: seq<nat>, n: int, j: nat, a: nat, p: seq<Shot<P>>)
    requires IsRight(s, idx, n, j, a, p)
    ensures j < |idx| && Reads(s, idx, j, a, p) && InPlace(s, idx, j, a, p)
  {
    RightFacts(s, idx, n, j, a, p);
    var lo, end := s[idx[j]].tick, End(s, idx, j);
    assert Within(s, idx, j, lo) && Reads(s, idx, j, a, p);
    hide IsRight, Reads, Cut, Within;
    Showing(s, idx, n, j, a, p, lo);
    ShowsOwn(s, idx, j, lo);
    assert a < end;
    forall i | Later(a, idx[j]) <= i < end ensures p[i - a].tick == s[i].tick {
      OwnFrameStays(s, idx, n, j, a, p, i);
    }
    if end < |s| {
      NextStaysOut(s, idx, n, j, a, p);
    }
  }

  // --- The join ------------------------------------------------------------------------

  /** Every piece as it is read and written; later pieces are read from no earlier frame. */
  ghost predicate Written<P>(s: seq<Shot<P>>, idx: seq<nat>, counts: seq<int>, landed: seq<nat>,
                             shots: seq<seq<Shot<P>>>, pieces: seq<seq<P>>) {
    && |landed| == |shots| == |pieces| == |idx| == |counts|
    && (forall j :: 0 <= j < |idx| ==> Reads(s, idx, j, landed[j], shots[j]) && pieces[j] == Limit(Convert(shots[j]), counts[j]))
    && (forall i, j :: 0 <= i < j < |idx| ==> landed[i] <= landed[j])
  }

  ghost predicate AllInPlace<P>(s: seq<Shot<P>>, idx: seq<nat>, counts: seq<int>, landed: seq<nat>,
                                shots: seq<seq<Shot<P>>>, pieces: seq<seq<P>>)
    requires Written(s, idx, counts, landed, shots, pieces)
  {
    forall j :: 0 <= j < |idx| ==> InPlace(s, idx, j, landed[j], shots[j])
  }

  lemma JoinOfInPlace<P>(s: seq<Shot<P>>, idx: seq<nat>, counts: seq<int>, landed: seq<nat>,
                         shots: seq<seq<Shot<P>>>, pieces: seq<seq<P>>)
    requires Ordered(s) && Cut(s, idx) && Counts(s, idx, counts)
    requires Written(s, idx, counts, landed, shots, pieces) && AllInPlace(s, idx, counts, landed, shots, pieces)
    ensures 0 <= Offsets(s, idx)[0] <= Length(s) && Flatten(pieces) == Convert(s)[Offsets(s, idx)[0]..]
  {
    hide Reads, InPlace, Limit, Convert, Cut, Counts, Ordered, Length;
    forall j | 0 <= j < |idx| ensures IsStretch(Convert(s), Offsets(s, idx), pieces, j) {
      InPlaceIsStretch(s, idx, counts, j, landed[j], shots[j]);
    }
    assert |idx| > 0 && Offsets(s, idx)[|idx|] == |Convert(s)| by { CutNotEmpty(s, idx); }
    FlattenStretches(Convert(s), Offsets(s, idx), pieces);
  }

  lemma CutNotEmpty<P>(s: seq<Shot<P>>, idx: seq<nat>)
    requires Cut(s, idx)
    ensures |idx| > 0 && s != [] && |Offsets(s, idx)| == |idx| + 1 && Offsets(s, idx)[|idx|] == Length(s)
  {
  }

  /** A piece that falls short ends on the source's last frame, or is empty. */
  lemma ShortEndsLast<P>(s: seq<Shot<P>>, idx: seq<nat>, j: nat, a: nat, p: seq<Shot<P>>, n: int)
    requires j < |idx| && Reads(s, idx, j, a, p) && n > 0 && |Limit(Convert(p), n)| < n
    ensures p != [] ==>
              Limit(Convert(p), n) != [] && Limit(Convert(p), n)[|Limit(Convert(p), n)| - 1] == s[|s| - 1].picture
  {
    if p != [] {
      assert p[0].tick <= p[|p| - 1].tick;
      assert Convert(p)[Length(p) - 1] == p[LastAtMost(p, p[|p| - 1].tick)].picture;
    }
  }

  lemma {:induction false} FlattenEmpty<T>(parts: seq<seq<T>>)
    requires forall i :: 0 <= i < |parts| ==> parts[i] == []
    ensures Flatten(parts) == []
  {
    if parts != [] {
      FlattenEmpty(parts[1..]);
    }
  }

  /** If the rest of the join is right, so is its first piece, and the rest after it. */
  lemma FirstIsRight<P>(s: seq<Shot<P>>, idx: seq<nat>, counts: seq<int>, landed: seq<nat>,
                        shots: seq<seq<Shot<P>>>, pieces: seq<seq<P>>, j: nat)
    requires Ordered(s) && Cut(s, idx) && Counts(s, idx, counts) && AllDiffer(s) && j < |idx|
    requires Written(s, idx, counts, landed, shots, pieces)
    requires 0 <= Offsets(s, idx)[j] < Offsets(s, idx)[j + 1] <= Length(s)
    requires Flatten(pieces[j..]) == Convert(s)[Offsets(s, idx)[j]..]
    ensures pieces[j] == Convert(s)[Offsets(s, idx)[j]..Offsets(s, idx)[j + 1]]
    ensures Flatten(pieces[j + 1..]) == Convert(s)[Offsets(s, idx)[j + 1]..]
  {
    var from, to := Offsets(s, idx)[j], Offsets(s, idx)[j + 1];
    var rest := Flatten(pieces[j + 1..]);
    assert pieces[j..][1..] == pieces[j + 1..];
    assert Flatten(pieces[j..]) == pieces[j] + rest;
    StretchSize(s, idx, counts, j);
    hide Cut, Counts, Ordered, AllDiffer, Offsets, Convert;
    if j + 1 == |idx| {
      assert pieces[j + 1..] == [] && rest == [];
    } else {
      NotShort(s, idx, counts, landed, shots, pieces, j);
      assert |pieces[j]| == to - from;
    }
    SplitEqual(Convert(s), from, to, pieces[j], rest);
  }

  lemma SplitEqual<T>(whole: seq<T>, from: nat, to: nat, head: seq<T>, rest: seq<T>)
    requires from <= to <= |whole| && head + rest == whole[from..]
    requires |head| == to - from || (rest == [] && to == |whole|)
    ensures head == whole[from..to] && rest == whole[to..]
  {
    assert |head| == to - from;
    assert head == (head + rest)[..|head|] && rest == (head + rest)[|head|..];
  }

  lemma NotShort<P>(s: seq<Shot<P>>, idx: seq<nat>, counts: seq<int>, landed: seq<nat>,
                    shots: seq<seq<Shot<P>>>, pieces: seq<seq<P>>, j: nat)
    requires Ordered(s) && Cut(s, idx) && Counts(s, idx, counts) && AllDiffer(s) && j + 1 < |idx|
    requires Written(s, idx, counts, landed, shots, pieces)
    requires 0 <= Offsets(s, idx)[j] < Offsets(s, idx)[j + 1] <= Length(s)
    requires pieces[j] + Flatten(pieces[j + 1..]) == Convert(s)[Offsets(s, idx)[j]..]
    ensures |pieces[j]| == Offsets(s, idx)[j + 1] - Offsets(s, idx)[j]
  {
    StretchSize(s, idx, counts, j);
    PieceOf(s, idx, counts, landed, shots, pieces, j);
    hide Reads, Cut, Counts, Ordered, AllDiffer, Offsets, Convert, Limit, Written, End;
    if |pieces[j]| < counts[j] {
      ShortEndsLast(s, idx, j, landed[j], shots[j], counts[j]);
      if shots[j] == [] {
        RestEmpty(s, idx, counts, landed, shots, pieces, j);
      } else {
        ShortMismatches(s, idx, j, pieces[j], Flatten(pieces[j + 1..]));
      }
    }
  }

  lemma PieceOf<P>(s: seq<Shot<P>>, idx: seq<nat>, counts: seq<int>, landed: seq<nat>,
                   shots: seq<seq<Shot<P>>>, pieces: seq<seq<P>>, j: nat)
    requires Written(s, idx, counts, landed, shots, pieces) && j < |idx| && counts[j] > 0
    ensures Reads(s, idx, j, landed[j], shots[j]) && pieces[j] == Limit(Convert(shots[j]), counts[j])
    ensures |pieces[j]| <= counts[j]
  {
  }

  /** What falls short inside the source would have to end on its last frame too soon. */
  lemma ShortMismatches<P>(s: seq<Shot<P>>, idx: seq<nat>, j: nat, head: seq<P>, rest: seq<P>)
    requires Ordered(s) && Cut(s, idx) && AllDiffer(s) && j + 1 < |idx|
    requires 0 <= Offsets(s, idx)[j] < Offsets(s, idx)[j + 1] <= Length(s)
    requires head != [] && |head| < Offsets(s, idx)[j + 1] - Offsets(s, idx)[j] && head[|head| - 1] == s[|s| - 1].picture
    ensures head + rest != Convert(s)[Offsets(s, idx)[j]..]
  {
    var from := Offsets(s, idx)[j];
    EarlyIsNotLast(s, idx, j, from + |head| - 1);
    hide Cut, Ordered, AllDiffer, Offsets, Convert;
    if head + rest == Convert(s)[from..] {
      LastOfHead(Convert(s), from, head, rest);
    }
  }

  lemma LastOfHead<T>(whole: seq<T>, from: nat, head: seq<T>, rest: seq<T>)
    requires from <= |whole| && head != [] && head + rest == whole[from..]
    ensures from + |head| - 1 < |whole| && head[|head| - 1] == whole[from + |head| - 1]
  {
    assert head[|head| - 1] == (head + rest)[|head| - 1];
  }

  lemma EarlyIsNotLast<P>(s: seq<Shot<P>>, idx: seq<nat>, j: nat, at: nat)
    requires Ordered(s) && Cut(s, idx) && AllDiffer(s) && j + 1 < |idx|
    requires Offsets(s, idx)[j] <= at < Offsets(s, idx)[j + 1] <= Length(s)
    ensures Convert(s)[at] != s[|s| - 1].picture
  {
    var k := s[0].tick + at;
    assert s[idx[j]].tick >= s[0].tick;
    ShowsOwn(s, idx, j, k);
    ConvertAt(s, k);
  }

  lemma RestEmpty<P>(s: seq<Shot<P>>, idx: seq<nat>, counts: seq<int>, landed: seq<nat>,
                     shots: seq<seq<Shot<P>>>, pieces: seq<seq<P>>, j: nat)
    requires Cut(s, idx) && j < |idx| && Written(s, idx, counts, landed, shots, pieces) && shots[j] == []
    ensures pieces[j] + Flatten(pieces[j + 1..]) == []
  {
    forall i | j <= i < |idx| ensures pieces[i] == [] {
      assert Reads(s, idx, j, landed[j], shots[j]) && Reads(s, idx, i, landed[i], shots[i]);
      assert landed[j] <= landed[i];
    }
    FlattenEmpty(pieces[j + 1..]);
  }

  lemma {:induction false} RestInPlace<P>(s: seq<Shot<P>>, idx: seq<nat>, counts: seq<int>, landed: seq<nat>,
                                          shots: seq<seq<Shot<P>>>, pieces: seq<seq<P>>, j: nat)
    requires Ordered(s) && Cut(s, idx) && Counts(s, idx, counts) && AllDiffer(s) && j <= |idx|
    requires Written(s, idx, counts, landed, shots, pieces)
    requires 0 <= Offsets(s, idx)[j] <= Length(s) && Flatten(pieces[j..]) == Convert(s)[Offsets(s, idx)[j]..]
    ensures forall i :: j <= i < |idx| ==> InPlace(s, idx, i, landed[i], shots[i])
    decreases |idx| - j
  {
    hide InPlace, Cut, Counts, Ordered, AllDiffer, Offsets, Convert, Limit, Reads;
    if j < |idx| {
      PieceIsStretch(s, idx, counts, j);
      FirstIsRight(s, idx, counts, landed, shots, pieces, j);
      assert IsRight(s, idx, counts[j], j, landed[j], shots[j]);
      RightIsInPlace(s, idx, counts[j], j, landed[j], shots[j]);
      RestInPlace(s, idx, counts, landed, shots, pieces, j + 1);
    }
  }

  /** A first piece cut at a later frame, and not made to show an earlier one. */
  ghost predicate StartsLate<P>(s: seq<Shot<P>>, idx: seq<nat>, a: nat, p: seq<Shot<P>>)
    requires |idx| > 0 && Reads(s, idx, 0, a, p)
  {
    idx[0] > 0 && (a < idx[0] ==> p[idx[0] - a].tick <= s[idx[0]].tick)
  }

  lemma FirstShown<P>(s: seq<Shot<P>>, idx: seq<nat>, a: nat, p: seq<Shot<P>>, n: int)
    requires |idx| > 0 && Reads(s, idx, 0, a, p) && StartsLate(s, idx, a, p) && p != []
    requires Ordered(s) && Cut(s, idx) && AllDiffer(s)
    ensures Limit(Convert(p), n) != [] && s != [] && Length(s) > 0 && Limit(Convert(p), n)[0] != Convert(s)[0]
  {
    assert p[0].tick <= p[|p| - 1].tick && s[0].tick <= s[|s| - 1].tick;
    assert Begins(s, idx[0]) && s[0].tick <= s[idx[0] - 1].tick;
    ConvertAt(p, p[0].tick);
    ConvertAt(s, s[0].tick);
    var m, q := LastAtMost(s, s[0].tick), LastAtMost(p, p[0].tick);
    assert m < idx[0] <= q + a;
    assert p[q].picture == s[q + a].picture;
  }

  lemma LateIsNotWhole<P>(s: seq<Shot<P>>, idx: seq<nat>, counts: seq<int>, landed: seq<nat>,
                          shots: seq<seq<Shot<P>>>, pieces: seq<seq<P>>)
    requires Ordered(s) && Cut(s, idx) && AllDiffer(s) && Written(s, idx, counts, landed, shots, pieces)
    requires |idx| > 0 && Reads(s, idx, 0, landed[0], shots[0]) && StartsLate(s, idx, landed[0], shots[0])
    ensures Flatten(pieces) != Convert(s)
  {
    assert pieces[0..] == pieces && Flatten(pieces) == pieces[0] + Flatten(pieces[1..]);
    if shots[0] == [] {
      RestEmpty(s, idx, counts, landed, shots, pieces, 0);
      assert s[0].tick <= s[|s| - 1].tick;
    } else {
      FirstShown(s, idx, landed[0], shots[0], counts[0]);
      assert Flatten(pieces)[0] == pieces[0][0];
    }
  }

  /** Pieces join into the single run when the first starts on the first frame and no
      piece's shift moves a frame; and when no two frames look alike, only then. */
  lemma JoinIsWholeIff<P>(s: seq<Shot<P>>, idx: seq<nat>, counts: seq<int>, landed: seq<nat>,
                          shots: seq<seq<Shot<P>>>, pieces: seq<seq<P>>)
    requires Ordered(s) && Cut(s, idx) && Counts(s, idx, counts) && Written(s, idx, counts, landed, shots, pieces)
    requires Reads(s, idx, 0, landed[0], shots[0]) && (idx[0] > 0 ==> StartsLate(s, idx, landed[0], shots[0]))
    ensures idx[0] == 0 && AllInPlace(s, idx, counts, landed, shots, pieces) ==> Flatten(pieces) == Convert(s)
    ensures AllDiffer(s) && Flatten(pieces) == Convert(s) ==> idx[0] == 0 && AllInPlace(s, idx, counts, landed, shots, pieces)
  {
    OffsetTick(s, idx, 0);
    hide Reads, InPlace, Limit, Convert, Counts, Ordered, StartsLate, AllDiffer, Cut, Offsets;
    if idx[0] == 0 && AllInPlace(s, idx, counts, landed, shots, pieces) {
      JoinOfInPlace(s, idx, counts, landed, shots, pieces);
    }
    if AllDiffer(s) && Flatten(pieces) == Convert(s) {
      if idx[0] > 0 {
        LateIsNotWhole(s, idx, counts, landed, shots, pieces);
      } else {
        assert pieces[0..] == pieces;
        RestInPlace(s, idx, counts, landed, shots, pieces, 0);
      }
    }
  }
}
