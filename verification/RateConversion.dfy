/** The frame-rate conversion, whole and in pieces.

    A source is its frames in order, each with the output frame it is rounded to
    (its tick). One conversion writes output frame `k` from the last source frame
    whose tick is at most `k`. A piece is the same conversion run from a later
    frame and stopped after a counted number of output frames. */
module RateConversion {
  import opened Prelude

  datatype Shot<P> = Shot(tick: int, picture: P)

  ghost predicate Ordered<P>(s: seq<Shot<P>>) {
    forall i, j :: 0 <= i < j < |s| ==> s[i].tick <= s[j].tick
  }

  /** Frame `i` begins an output frame: the one before it rounds to an earlier one. */
  predicate Begins<P>(s: seq<Shot<P>>, i: nat)
    requires i < |s|
  {
    i == 0 || s[i - 1].tick < s[i].tick
  }

  /** The last frame whose tick is at most `k`. */
  function LastAtMost<P>(s: seq<Shot<P>>, k: int): (r: nat)
    requires |s| > 0 && s[0].tick <= k
    ensures r < |s| && s[r].tick <= k
    ensures forall j :: r < j < |s| ==> k < s[j].tick
  {
    if s[|s| - 1].tick <= k then |s| - 1 else LastAtMost(s[..|s| - 1], k)
  }

  function Length<P>(s: seq<Shot<P>>): nat {
    if s == [] || s[|s| - 1].tick < s[0].tick then 0 else s[|s| - 1].tick - s[0].tick + 1
  }

  /** One conversion: every output frame from the first frame's tick to the last's. */
  function Convert<P>(s: seq<Shot<P>>): (out: seq<P>)
    ensures |out| == Length(s)
  {
    seq(Length(s), k requires 0 <= k < Length(s) => s[LastAtMost(s, s[0].tick + k)].picture)
  }

  /** `-frames:v n`; no limit when `n` is zero. */
  function Limit<P>(s: seq<P>, n: int): seq<P> {
    if 0 < n < |s| then s[..n] else s
  }

  /** Pieces start on later and later frames, each beginning an output frame. */
  ghost predicate Cut<P>(s: seq<Shot<P>>, idx: seq<nat>) {
    && |idx| > 0 && |s| > 0
    && (forall j :: 0 <= j < |idx| ==> idx[j] < |s| && Begins(s, idx[j]))
    && (forall i, j :: 0 <= i < j < |idx| ==> idx[i] < idx[j])
  }

  /** How many output frames each piece is told to write; the last runs to the end. */
  ghost predicate Counts<P>(s: seq<Shot<P>>, idx: seq<nat>, counts: seq<int>)
    requires Cut(s, idx)
  {
    && |counts| == |idx| && counts[|idx| - 1] == 0
    && forall j :: 0 <= j < |idx| - 1 ==> counts[j] == s[idx[j + 1]].tick - s[idx[j]].tick
  }

  ghost function PieceOutput<P>(s: seq<Shot<P>>, from: nat, count: int): seq<P>
    requires from <= |s|
  {
    Limit(Convert(s[from..]), count)
  }

  /** Where each piece begins in the single run, and where the last one ends. */
  ghost function Offsets<P>(s: seq<Shot<P>>, idx: seq<nat>): seq<int>
    requires Cut(s, idx)
  {
    seq(|idx|, j requires 0 <= j < |idx| => s[idx[j]].tick - s[0].tick) + [Length(s)]
  }

  /** Converting from a frame that begins an output frame changes no later output frame. */
  lemma ConvertSuffix<P>(s: seq<Shot<P>>, i: nat)
    requires Ordered(s) && i < |s| && Begins(s, i)
    ensures 0 <= s[i].tick - s[0].tick < Length(s)
    ensures Convert(s[i..]) == Convert(s)[s[i].tick - s[0].tick..]
  {
    var skip := s[i].tick - s[0].tick;
    assert s[i..][|s| - i - 1] == s[|s| - 1];
    forall k | 0 <= k < Length(s) - skip ensures Convert(s[i..])[k] == Convert(s)[skip + k] {
      SameFrameShown(s, i, s[i].tick + k);
    }
  }

  lemma SameFrameShown<P>(s: seq<Shot<P>>, i: nat, k: int)
    requires Ordered(s) && i < |s| && s[i].tick <= k
    ensures s[i..][LastAtMost(s[i..], k)] == s[LastAtMost(s, k)]
  {
    var a, b := LastAtMost(s[i..], k), LastAtMost(s, k);
    assert i <= b;
    assert s[i..][a] == s[i + a] && s[i..][b - i] == s[b];
  }

  lemma LimitStretch<P>(whole: seq<P>, from: nat, to: nat, n: int)
    requires from < to <= |whole|
    requires n == to - from || (n == 0 && to == |whole|)
    ensures Limit(whole[from..], n) == whole[from..to]
  {
  }

  /** A piece writes exactly the stretch of the single run between its start's
      tick and the next piece's; its count is positive unless it is the last. */
  lemma PieceIsStretch<P>(s: seq<Shot<P>>, idx: seq<nat>, counts: seq<int>, j: nat)
    requires Ordered(s) && Cut(s, idx) && Counts(s, idx, counts) && j < |idx|
    ensures 0 <= Offsets(s, idx)[j] < Offsets(s, idx)[j + 1] <= Length(s)
    ensures j < |idx| - 1 ==> counts[j] > 0
    ensures PieceOutput(s, idx[j], counts[j]) == Convert(s)[Offsets(s, idx)[j]..Offsets(s, idx)[j + 1]]
  {
    ConvertSuffix(s, idx[j]);
    if j < |idx| - 1 {
      assert Begins(s, idx[j + 1]);
      assert s[idx[j]].tick < s[idx[j + 1]].tick;
    }
    LimitStretch(Convert(s), Offsets(s, idx)[j], Offsets(s, idx)[j + 1], counts[j]);
  }
}
