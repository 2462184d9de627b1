/** The ladder's filter graph (app/worker/hls.py: `variants_for`, `_ladder_filter`, and
    the maps of `build_ladder_command`): what is generated, and what FFmpeg makes of it. */
module FilterGraph {
  import opened Prelude
  import opened Text

  const LADDER_HEIGHTS := [360, 480, 720, 1080, 1440, 2160]

  /** 480 lines are a rung only as a video's tallest. */
  const ONLY_AS_TOP_RUNG := 480

  const CASCADE_FROM := 1080

  // --- The rungs -------------------------------------------------------------------

  function AtMost(heights: seq<int>, limit: int): seq<int> {
    if heights == [] then []
    else (if heights[0] <= limit then [heights[0]] else []) + AtMost(heights[1..], limit)
  }

  function WithoutInner(rungs: seq<int>, top: int): seq<int> {
    if rungs == [] then []
    else (if rungs[0] == top || rungs[0] != ONLY_AS_TOP_RUNG then [rungs[0]] else []) + WithoutInner(rungs[1..], top)
  }

  /** `variants_for`: the heights a source gets, shortest first. */
  function VariantsFor(height: int, maxHeight: int): seq<int> {
    var rungs := AtMost(LADDER_HEIGHTS, if height < maxHeight then height else maxHeight);
    if rungs == [] then [height] else WithoutInner(rungs, rungs[|rungs| - 1])
  }

  predicate Increasing(heights: seq<int>) {
    forall i, j :: 0 <= i < j < |heights| ==> heights[i] < heights[j]
  }

  // --- The graph ---------------------------------------------------------------------

  datatype Label = Input | FromInput(height: int) | FromAnchor(height: int) | Output(index: int)

  datatype Filter = Cap | Scale(height: int) | Split(ways: nat)

  /** One chain: a label in, filters, labels out. */
  datatype Link = Link(input: Label, filters: seq<Filter>, outputs: seq<Label>)

  /** A `dict` from heights to positions; the last one stands. */
  function IndexOf(heights: seq<int>, height: int): int {
    if heights == [] then -1
    else if heights[|heights| - 1] == height then |heights| - 1
    else IndexOf(heights[..|heights| - 1], height)
  }

  predicate Anchored(heights: seq<int>) { CASCADE_FROM in heights }

  function SourceRungs(heights: seq<int>, anchored: bool): seq<int> {
    if heights == [] then []
    else (if !anchored || heights[0] >= CASCADE_FROM then [heights[0]] else []) + SourceRungs(heights[1..], anchored)
  }

  function AnchorRungs(heights: seq<int>, anchored: bool): seq<int> {
    if heights == [] then []
    else (if anchored && heights[0] < CASCADE_FROM then [heights[0]] else []) + AnchorRungs(heights[1..], anchored)
  }

  function Labels(make: int -> Label, heights: seq<int>): seq<Label> {
    seq(|heights|, i requires 0 <= i < |heights| => make(heights[i]))
  }

  /** The link of one rung that is scaled from the source. */
  function SourceLink(heights: seq<int>, height: int): Link {
    var below := AnchorRungs(heights, Anchored(heights));
    var out := Output(IndexOf(heights, height));
    if height == CASCADE_FROM && Anchored(heights) && below != []
    then Link(FromInput(height), [Scale(height), Split(1 + |below|)], [out] + Labels(h => FromAnchor(h), below))
    else Link(FromInput(height), [Scale(height)], [out])
  }

  function AnchorLink(heights: seq<int>, height: int): Link {
    Link(FromAnchor(height), [Scale(height)], [Output(IndexOf(heights, height))])
  }

  function FirstLink(heights: seq<int>): Link {
    var rungs := SourceRungs(heights, Anchored(heights));
    Link(Input, [Cap, Split(|rungs|)], Labels(h => FromInput(h), rungs))
  }

  function Links(make: int -> Link, rungs: seq<int>): seq<Link> {
    seq(|rungs|, i requires 0 <= i < |rungs| => make(rungs[i]))
  }

  function Graph(heights: seq<int>): seq<Link> {
    [FirstLink(heights)]
    + Links(h => SourceLink(heights, h), SourceRungs(heights, Anchored(heights)))
    + Links(h => AnchorLink(heights, h), AnchorRungs(heights, Anchored(heights)))
  }

  /** `_ladder_filter`: the loops that append one link after another. */
  method LadderFilter(heights: seq<int>) returns (parts: seq<Link>)
    ensures parts == Graph(heights)
  {
    hide SourceLink, AnchorLink, FirstLink;
    var fromSource, fromAnchor := SourceRungs(heights, Anchored(heights)), AnchorRungs(heights, Anchored(heights));
    parts := [FirstLink(heights)];
    var k := 0;
    while k < |fromSource|
      invariant 0 <= k <= |fromSource|
      invariant parts == [FirstLink(heights)] + Links(h => SourceLink(heights, h), fromSource)[..k]
    {
      parts := parts + [SourceLink(heights, fromSource[k])];
      k := k + 1;
    }
    var built := parts;
    k := 0;
    while k < |fromAnchor|
      invariant 0 <= k <= |fromAnchor|
      invariant parts == built + Links(h => AnchorLink(heights, h), fromAnchor)[..k]
    {
      parts := parts + [AnchorLink(heights, fromAnchor[k])];
      k := k + 1;
    }
  }

  // --- Its text ---------------------------------------------------------------------

  function LabelText(l: Label): string
    requires l.FromInput? || l.FromAnchor? ==> l.height >= 0
    requires l.Output? ==> l.index >= 0
  {
    match l
    case Input => "[0:v]"
    case FromInput(h) => "[s" + Digits(h) + "]"
    case FromAnchor(h) => "[a" + Digits(h) + "]"
    case Output(i) => "[v" + Digits(i) + "out]"
  }

  // --- What FFmpeg makes of it ----------------------------------------------------------

  /** A picture: the capped source, or one scaled to a height. */
  datatype Picture = Raw | Capped(of: Picture) | Scaled(from: Picture, height: int)

  function Arity(filters: seq<Filter>): nat {
    if filters != [] && filters[|filters| - 1].Split? then filters[|filters| - 1].ways else 1
  }

  function Filtered(filters: seq<Filter>, p: Picture): Picture {
    if filters == [] then p
    else
      var q := Filtered(filters[..|filters| - 1], p);
      match filters[|filters| - 1]
      case Cap => Capped(q)
      case Scale(h) => Scaled(q, h)
      case Split(_) => q
  }

  predicate Distinct(labels: seq<Label>) {
    forall i, j :: 0 <= i < j < |labels| ==> labels[i] != labels[j]
  }

  /** A link takes its input, which must be there, and gives as many outputs as its
      filters have, each a label that is not there yet; otherwise it is an error. */
  function Linked(link: Link, env: map<Label, Picture>): Option<map<Label, Picture>> {
    if link.input !in env || Arity(link.filters) != |link.outputs| || !Distinct(link.outputs)
       || exists i :: 0 <= i < |link.outputs| && link.outputs[i] in env then None
    else
      var p := Filtered(link.filters, env[link.input]);
      Some((env - {link.input}) + map l | l in link.outputs :: p)
  }

  function Evaluated(links: seq<Link>, env: map<Label, Picture>): Option<map<Label, Picture>>
    decreases |links|
  {
    if links == [] then Some(env)
    else
      var next := Linked(links[0], env);
      if next.None? then None else Evaluated(links[1..], next.value)
  }

  /** The rendition output `k` should be: from the anchor below it, else from the source. */
  function Expected(heights: seq<int>, k: nat): Picture
    requires k < |heights|
  {
    var source := Capped(Raw);
    if 1080 in heights && heights[k] < 1080 then Scaled(Scaled(source, 1080), heights[k])
    else Scaled(source, heights[k])
  }

  lemma {:induction false} EvaluatedConcat(a: seq<Link>, b: seq<Link>, env: map<Label, Picture>)
    ensures Evaluated(a + b, env)
            == if Evaluated(a, env).None? then None else Evaluated(b, Evaluated(a, env).value)
    decreases |a|
  {
    if a == [] {
      assert a + b == b;
    } else {
      assert (a + b)[1..] == a[1..] + b;
      hide Linked;
      if Linked(a[0], env).Some? {
        EvaluatedConcat(a[1..], b, Linked(a[0], env).value);
      }
    }
  }

  // --- Where the anchor is ------------------------------------------------------------

  lemma {:induction false} AllFromSource(heights: seq<int>, anchored: bool)
    requires anchored ==> forall i :: 0 <= i < |heights| ==> heights[i] >= CASCADE_FROM
    ensures SourceRungs(heights, anchored) == heights && AnchorRungs(heights, anchored) == []
  {
    if heights != [] {
      AllFromSource(heights[1..], anchored);
    }
  }

  /** The rungs below the anchor come first. */
  lemma {:induction false} RungsSplit(heights: seq<int>) returns (j: nat)
    requires Increasing(heights)
    ensures j <= |heights| && AnchorRungs(heights, true) == heights[..j] && SourceRungs(heights, true) == heights[j..]
    ensures forall i :: 0 <= i < |heights| ==> (heights[i] < CASCADE_FROM <==> i < j)
  {
    if heights == [] || heights[0] >= CASCADE_FROM {
      AllFromSource(heights, true);
      j := 0;
    } else {
      var rest := heights[1..];
      var k := RungsSplit(rest);
      j := k + 1;
      assert AnchorRungs(heights, true) == [heights[0]] + AnchorRungs(rest, true);
      assert SourceRungs(heights, true) == SourceRungs(rest, true);
      hide AnchorRungs, SourceRungs, Increasing;
      assert heights[..j] == [heights[0]] + rest[..k] && heights[j..] == rest[k..];
      assert forall i :: 1 <= i < |heights| ==> heights[i] == rest[i - 1];
    }
  }

  lemma {:induction false} IndexIs(heights: seq<int>, k: nat)
    requires Increasing(heights) && k < |heights|
    ensures IndexOf(heights, heights[k]) == k
  {
    if k < |heights| - 1 {
      assert heights[..|heights| - 1][k] == heights[k];
      IndexIs(heights[..|heights| - 1], k);
    }
  }

  lemma {:induction false} IndexFinds(heights: seq<int>, height: int)
    ensures var i := IndexOf(heights, height); -1 <= i < |heights| && (i >= 0 ==> heights[i] == height)
  {
    if heights != [] && heights[|heights| - 1] != height {
      IndexFinds(heights[..|heights| - 1], height);
    }
  }

  lemma IndexIsOnly(heights: seq<int>, k: nat, height: int)
    requires Increasing(heights) && k < |heights|
    ensures -1 <= IndexOf(heights, height) < |heights| && (IndexOf(heights, height) == k <==> height == heights[k])
  {
    IndexIs(heights, k);
    IndexFinds(heights, height);
  }

  /** Where the heights split: the rungs below the anchor, if there is one. */
  predicate SplitAt(heights: seq<int>, j: nat) {
    && Increasing(heights) && j <= |heights|
    && (Anchored(heights) ==> j < |heights| && heights[j] == CASCADE_FROM)
    && (!Anchored(heights) ==> j == 0)
    && AnchorRungs(heights, Anchored(heights)) == heights[..j]
    && SourceRungs(heights, Anchored(heights)) == heights[j..]
  }

  lemma HeightsSplit(heights: seq<int>) returns (j: nat)
    requires Increasing(heights)
    ensures SplitAt(heights, j)
  {
    if Anchored(heights) {
      j := RungsSplit(heights);
      var q :| 0 <= q < |heights| && heights[q] == CASCADE_FROM;
      assert j <= q;
    } else {
      j := 0;
      AllFromSource(heights, false);
    }
  }

  // --- What is there once some links have run --------------------------------------------

  /** What label `l` holds after `k` links from the source and `m` from the anchor. */
  function Holding(heights: seq<int>, j: nat, k: nat, m: nat, l: Label): Option<Picture>
    requires j <= |heights|
  {
    match l
    case Input => None
    case FromInput(h) => if IndexOf(heights, h) >= j + k then Some(Capped(Raw)) else None
    case FromAnchor(h) =>
      if m <= IndexOf(heights, h) < j && k > 0 then Some(Scaled(Capped(Raw), CASCADE_FROM)) else None
    case Output(i) =>
      if 0 <= i < |heights| && (j <= i < j + k || i < m) then Some(Expected(heights, i)) else None
  }

  ghost predicate Holds(heights: seq<int>, j: nat, k: nat, m: nat, env: map<Label, Picture>)
    requires j <= |heights|
  {
    forall l: Label ::
      (l in env <==> Holding(heights, j, k, m, l).Some?)
      && (l in env ==> env[l] == Holding(heights, j, k, m, l).value)
  }

  lemma LabelsAre(make: int -> Label, heights: seq<int>)
    ensures |Labels(make, heights)| == |heights|
    ensures forall i :: 0 <= i < |heights| ==> Labels(make, heights)[i] == make(heights[i])
  {
  }

  /** A link that fits gives its picture to all its outputs, and takes its input away. */
  lemma LinkedGives(link: Link, env: map<Label, Picture>)
    requires link.input in env && Arity(link.filters) == |link.outputs| && Distinct(link.outputs)
    requires forall i :: 0 <= i < |link.outputs| ==> link.outputs[i] !in env
    ensures var r, p := Linked(link, env), Filtered(link.filters, env[link.input]);
            && r.Some?
            && (forall l :: l in r.value <==> l in link.outputs || (l in env && l != link.input))
            && (forall l :: l in r.value ==> r.value[l] == if l in link.outputs then p else env[l])
  {
    hide Filtered, Arity;
  }

  lemma CappedOnly(n: nat)
    ensures Filtered([Cap, Split(n)], Raw) == Capped(Raw) && Arity([Cap, Split(n)]) == n
  {
    assert [Cap, Split(n)][..1] == [Cap] && [Cap][..0] == [];
    assert Filtered([Cap], Raw) == Capped(Raw);
  }

  lemma FirstLabels(heights: seq<int>, j: nat, l: Label)
    requires SplitAt(heights, j)
    ensures l in Labels(h => FromInput(h), heights[j..]) <==> l.FromInput? && IndexOf(heights, l.height) >= j
  {
    var rungs := heights[j..];
    LabelsAre(h => FromInput(h), rungs);
    if l.FromInput? {
      IndexFinds(heights, l.height);
      var i := IndexOf(heights, l.height);
      if i >= j {
        assert rungs[i - j] == l.height;
        assert Labels(h => FromInput(h), rungs)[i - j] == l;
      }
      if q :| 0 <= q < |rungs| && rungs[q] == l.height {
        IndexIs(heights, j + q);
      }
    }
  }

  lemma AnchorLabels(heights: seq<int>, j: nat, l: Label)
    requires SplitAt(heights, j)
    ensures l in Labels(h => FromAnchor(h), heights[..j]) <==> l.FromAnchor? && 0 <= IndexOf(heights, l.height) < j
  {
    var rungs := heights[..j];
    LabelsAre(h => FromAnchor(h), rungs);
    if l.FromAnchor? {
      IndexFinds(heights, l.height);
      var i := IndexOf(heights, l.height);
      if 0 <= i < j {
        assert rungs[i] == l.height;
        assert Labels(h => FromAnchor(h), rungs)[i] == l;
      }
      if q :| 0 <= q < |rungs| && rungs[q] == l.height {
        IndexIs(heights, q);
      }
    }
  }

  lemma RisingLabels(heights: seq<int>, j: nat)
    requires Increasing(heights) && j <= |heights|
    ensures Distinct(Labels(h => FromInput(h), heights[j..])) && Distinct(Labels(h => FromAnchor(h), heights[..j]))
  {
    LabelsAre(h => FromInput(h), heights[j..]);
    LabelsAre(h => FromAnchor(h), heights[..j]);
    hide Labels;
  }

  lemma FirstHolding(heights: seq<int>, j: nat, l: Label)
    requires SplitAt(heights, j)
    ensures Holding(heights, j, 0, 0, l) == if l in Labels(h => FromInput(h), heights[j..]) then Some(Capped(Raw)) else None
  {
    FirstLabels(heights, j, l);
    hide SplitAt, IndexOf, Labels, Expected;
  }

  lemma FirstLinkIs(heights: seq<int>, j: nat)
    requires SplitAt(heights, j)
    ensures j <= |heights| && Increasing(heights)
    ensures FirstLink(heights) == Link(Input, [Cap, Split(|heights| - j)], Labels(h => FromInput(h), heights[j..]))
  {
    hide Labels, Expected, Anchored;
  }

  lemma FirstLinkRuns(heights: seq<int>, j: nat)
    requires SplitAt(heights, j)
    ensures var r := Linked(FirstLink(heights), map[Input := Raw]);
            r.Some? && Holds(heights, j, 0, 0, r.value)
  {
    hide Filtered, Arity, Linked, Labels, Expected, SplitAt, FirstLink, Holding;
    FirstLinkIs(heights, j);
    var link, env, rungs := FirstLink(heights), map[Input := Raw], heights[j..];
    CappedOnly(|rungs|);
    LabelsAre(h => FromInput(h), rungs);
    RisingLabels(heights, j);
    LinkedGives(link, env);
    var r := Linked(link, env).value;
    forall l: Label
      ensures (l in r <==> Holding(heights, j, 0, 0, l).Some?) && (l in r ==> r[l] == Holding(heights, j, 0, 0, l).value)
    {
      FirstHolding(heights, j, l);
    }
  }

  lemma ScaledOnce(h: int, p: Picture)
    ensures Filtered([Scale(h)], p) == Scaled(p, h) && Arity([Scale(h)]) == 1
  {
    assert [Scale(h)][..0] == [];
  }

  lemma ScaledAndSplit(h: int, n: nat, p: Picture)
    ensures Filtered([Scale(h), Split(n)], p) == Scaled(p, h) && Arity([Scale(h), Split(n)]) == n
  {
    ScaledOnce(h, p);
    assert [Scale(h), Split(n)][..1] == [Scale(h)];
  }

  lemma OneOut(input: Label, h: int, out: Label, env: map<Label, Picture>)
    requires input in env && out !in env
    ensures var r := Linked(Link(input, [Scale(h)], [out]), env);
            r.Some? && r.value == (env - {input})[out := Scaled(env[input], h)]
  {
    ScaledOnce(h, env[input]);
    var link := Link(input, [Scale(h)], [out]);
    hide Filtered, Arity, Linked;
    LinkedGives(link, env);
    assert forall l :: l in link.outputs <==> l == out;
  }

  /** One label goes and one comes. */
  lemma HoldsAfter(heights: seq<int>, j: nat, k: nat, m: nat, more: nat, further: nat,
                   env: map<Label, Picture>, input: Label, out: Label, p: Picture)
    requires j <= |heights| && Holds(heights, j, k, m, env)
    requires forall l: Label ::
               Holding(heights, j, more, further, l)
               == if l == input then None else if l == out then Some(p) else Holding(heights, j, k, m, l)
    requires input != out
    ensures Holds(heights, j, more, further, (env - {input})[out := p])
  {
    hide Holding;
  }

  lemma SourceLinkIs(heights: seq<int>, j: nat, k: nat)
    requires SplitAt(heights, j) && j + k < |heights| && !(Anchored(heights) && k == 0 && j > 0)
    ensures var i := j + k;
            SourceLink(heights, heights[i]) == Link(FromInput(heights[i]), [Scale(heights[i])], [Output(i)])
  {
    IndexIs(heights, j + k);
    assert Anchored(heights) && heights[j + k] == CASCADE_FROM ==> k == 0;
  }

  lemma SourceHolding(heights: seq<int>, j: nat, k: nat)
    requires SplitAt(heights, j) && j + k < |heights|
    ensures Holding(heights, j, k, 0, FromInput(heights[j + k])) == Some(Capped(Raw))
    ensures Holding(heights, j, k, 0, Output(j + k)).None?
    ensures Expected(heights, j + k) == Scaled(Capped(Raw), heights[j + k])
  {
    IndexIs(heights, j + k);
  }

  /** What one more link from the source changes. */
  lemma AfterSource(heights: seq<int>, j: nat, k: nat, l: Label)
    requires Increasing(heights) && j + k < |heights| && (j > 0 ==> k > 0)
    ensures Holding(heights, j, k + 1, 0, l)
            == if l == FromInput(heights[j + k]) then None
               else if l == Output(j + k) then Some(Expected(heights, j + k))
               else Holding(heights, j, k, 0, l)
  {
    hide IndexOf, Expected, Increasing;
    if l.FromInput? || l.FromAnchor? {
      IndexIsOnly(heights, j + k, l.height);
    }
  }

  lemma SourceChange(heights: seq<int>, j: nat, k: nat)
    requires SplitAt(heights, j) && j + k < |heights|
    requires !(Anchored(heights) && k == 0 && j > 0)
    ensures forall l: Label ::
              Holding(heights, j, k + 1, 0, l)
              == if l == FromInput(heights[j + k]) then None
                 else if l == Output(j + k) then Some(Scaled(Capped(Raw), heights[j + k]))
                 else Holding(heights, j, k, 0, l)
  {
    SourceHolding(heights, j, k);
    assert Increasing(heights) && (j > 0 ==> k > 0);
    hide SplitAt, Holding, Expected, Anchored, Increasing;
    forall l: Label
      ensures Holding(heights, j, k + 1, 0, l)
              == if l == FromInput(heights[j + k]) then None
                 else if l == Output(j + k) then Some(Scaled(Capped(Raw), heights[j + k]))
                 else Holding(heights, j, k, 0, l)
    {
      AfterSource(heights, j, k, l);
    }
  }

  lemma SourceStep(heights: seq<int>, j: nat, k: nat, env: map<Label, Picture>)
    requires SplitAt(heights, j) && j + k < |heights| && Holds(heights, j, k, 0, env)
    requires !(Anchored(heights) && k == 0 && j > 0)
    ensures var r := Linked(SourceLink(heights, heights[j + k]), env);
            r.Some? && Holds(heights, j, k + 1, 0, r.value)
  {
    hide SplitAt, Holding, Expected, SourceLink, Linked, Anchored;
    var i := j + k;
    var input, out, p := FromInput(heights[i]), Output(i), Scaled(Capped(Raw), heights[i]);
    SourceLinkIs(heights, j, k);
    SourceHolding(heights, j, k);
    SourceChange(heights, j, k);
    assert input in env && env[input] == Capped(Raw) && out !in env;
    hide Holds;
    OneOut(input, heights[i], out, env);
    HoldsAfter(heights, j, k, 0, k + 1, 0, env, input, out, p);
  }

  lemma AnchorHolding(heights: seq<int>, j: nat, m: nat)
    requires SplitAt(heights, j) && m < j
    ensures AnchorLink(heights, heights[m]) == Link(FromAnchor(heights[m]), [Scale(heights[m])], [Output(m)])
    ensures Holding(heights, j, |heights| - j, m, FromAnchor(heights[m])) == Some(Scaled(Capped(Raw), CASCADE_FROM))
    ensures Holding(heights, j, |heights| - j, m, Output(m)).None?
    ensures Expected(heights, m) == Scaled(Scaled(Capped(Raw), CASCADE_FROM), heights[m])
  {
    IndexIs(heights, m);
  }

  lemma AnchorChange(heights: seq<int>, j: nat, m: nat)
    requires SplitAt(heights, j) && m < j
    ensures var k, more, rung := |heights| - j, m + 1, heights[m];
            forall l: Label ::
              Holding(heights, j, k, more, l)
              == if l == FromAnchor(rung) then None
                 else if l == Output(m) then Some(Scaled(Scaled(Capped(Raw), CASCADE_FROM), rung))
                 else Holding(heights, j, k, m, l)
  {
    AnchorHolding(heights, j, m);
    SplitIsWithin(heights, j);
    hide SplitAt, Holding, Expected, Increasing;
    var k, more, rung := |heights| - j, m + 1, heights[m];
    forall l: Label
      ensures Holding(heights, j, k, more, l)
              == if l == FromAnchor(rung) then None
                 else if l == Output(m) then Some(Scaled(Scaled(Capped(Raw), CASCADE_FROM), rung))
                 else Holding(heights, j, k, m, l)
    {
      AfterAnchor(heights, j, m, l);
    }
  }

  lemma AnchorStep(heights: seq<int>, j: nat, m: nat, env: map<Label, Picture>)
    requires SplitAt(heights, j) && m < j && Holds(heights, j, |heights| - j, m, env)
    ensures var r := Linked(AnchorLink(heights, heights[m]), env);
            r.Some? && Holds(heights, j, |heights| - j, m + 1, r.value)
  {
    hide SplitAt, Holding, Expected, AnchorLink, Linked;
    SplitIsWithin(heights, j);
    var k := |heights| - j;
    var input, out, p := FromAnchor(heights[m]), Output(m), Scaled(Scaled(Capped(Raw), CASCADE_FROM), heights[m]);
    AnchorHolding(heights, j, m);
    AnchorChange(heights, j, m);
    assert input in env && env[input] == Scaled(Capped(Raw), CASCADE_FROM) && out !in env;
    hide Holds;
    OneOut(input, heights[m], out, env);
    HoldsAfter(heights, j, k, m, k, m + 1, env, input, out, p);
  }

  lemma AfterAnchor(heights: seq<int>, j: nat, m: nat, l: Label)
    requires Increasing(heights) && m < j <= |heights|
    ensures var k := |heights| - j;
            Holding(heights, j, k, m + 1, l)
            == if l == FromAnchor(heights[m]) then None
               else if l == Output(m) then Some(Expected(heights, m))
               else Holding(heights, j, k, m, l)
  {
    hide IndexOf, Expected, Increasing;
    if l.FromInput? || l.FromAnchor? {
      IndexIsOnly(heights, m, l.height);
    }
  }

  /** The anchor's own link: its output and one label for every rung below it. */
  lemma AnchorSourceStep(heights: seq<int>, j: nat, env: map<Label, Picture>)
    requires SplitAt(heights, j) && Anchored(heights) && j > 0 && Holds(heights, j, 0, 0, env)
    ensures var r := Linked(SourceLink(heights, heights[j]), env);
            r.Some? && Holds(heights, j, 1, 0, r.value)
  {
    var below := heights[..j];
    var link := SourceLink(heights, heights[j]);
    IndexIs(heights, j);
    LabelsAre(h => FromAnchor(h), below);
    var labels := Labels(h => FromAnchor(h), below);
    assert link == Link(FromInput(CASCADE_FROM), [Scale(CASCADE_FROM), Split(1 + j)], [Output(j)] + labels);
    assert Holding(heights, j, 0, 0, FromInput(CASCADE_FROM)) == Some(Capped(Raw));
    AnchorLinkRuns(heights, j, env, labels);
    var r := Linked(link, env).value;
    var p := Scaled(Capped(Raw), CASCADE_FROM);
    assert Expected(heights, j) == p;
    forall l: Label
      ensures (l in r <==> Holding(heights, j, 1, 0, l).Some?) && (l in r ==> r[l] == Holding(heights, j, 1, 0, l).value)
    {
      AnchorLabels(heights, j, l);
      AfterAnchorSource(heights, j, l);
    }
  }

  lemma AnchorLinkRuns(heights: seq<int>, j: nat, env: map<Label, Picture>, labels: seq<Label>)
    requires SplitAt(heights, j) && Anchored(heights) && j > 0 && Holds(heights, j, 0, 0, env)
    requires |labels| == j && forall i :: 0 <= i < j ==> labels[i] == FromAnchor(heights[i])
    ensures var r := Linked(Link(FromInput(CASCADE_FROM), [Scale(CASCADE_FROM), Split(1 + j)], [Output(j)] + labels), env);
            && r.Some?
            && (forall l :: l in r.value <==> l == Output(j) || l in labels || (l in env && l != FromInput(CASCADE_FROM)))
            && (forall l :: l in r.value ==>
                  r.value[l] == if l == Output(j) || l in labels then Scaled(Capped(Raw), CASCADE_FROM) else env[l])
  {
    IndexIs(heights, j);
    var outputs := [Output(j)] + labels;
    assert Holding(heights, j, 0, 0, FromInput(CASCADE_FROM)) == Some(Capped(Raw));
    ScaledAndSplit(CASCADE_FROM, 1 + j, Capped(Raw));
    forall i | 0 <= i < |outputs| ensures outputs[i] !in env {
      assert Holding(heights, j, 0, 0, outputs[i]).None?;
    }
    hide Holds, SplitAt, Linked, Filtered, Arity, Holding;
    LinkedGives(Link(FromInput(CASCADE_FROM), [Scale(CASCADE_FROM), Split(1 + j)], outputs), env);
    assert forall l :: l in outputs <==> l == Output(j) || l in labels;
  }

  lemma AfterAnchorSource(heights: seq<int>, j: nat, l: Label)
    requires SplitAt(heights, j) && Anchored(heights)
    ensures Holding(heights, j, 1, 0, l)
            == if l == FromInput(CASCADE_FROM) then None
               else if l == Output(j) then Some(Expected(heights, j))
               else if l.FromAnchor? && 0 <= IndexOf(heights, l.height) < j then Some(Scaled(Capped(Raw), CASCADE_FROM))
               else Holding(heights, j, 0, 0, l)
  {
    IndexIs(heights, j);
    if l.FromInput? || l.FromAnchor? {
      IndexFinds(heights, l.height);
    }
  }

  // --- The whole graph ---------------------------------------------------------------------

  lemma LinksHead(make: int -> Link, rungs: seq<int>)
    requires rungs != []
    ensures Links(make, rungs) == [make(rungs[0])] + Links(make, rungs[1..])
  {
  }

  lemma EvaluatedHead(link: Link, rest: seq<Link>, env: map<Label, Picture>)
    requires Linked(link, env).Some?
    ensures Evaluated([link] + rest, env) == Evaluated(rest, Linked(link, env).value)
  {
    hide Linked;
    assert ([link] + rest)[1..] == rest;
  }

  lemma NoLinks(make: int -> Link, env: map<Label, Picture>)
    ensures Evaluated(Links(make, []), env) == Some(env)
  {
    assert Links(make, []) == [];
  }

  lemma {:induction false} SourceLinksRun(heights: seq<int>, j: nat, k: nat, env: map<Label, Picture>)
    requires SplitAt(heights, j) && j + k <= |heights| && Holds(heights, j, k, 0, env)
    ensures var r := Evaluated(Links(h => SourceLink(heights, h), heights[j + k..]), env);
            r.Some? && Holds(heights, j, |heights| - j, 0, r.value)
    decreases |heights| - k
  {
    hide Holds, SplitAt, SourceLink, Linked, Anchored, Links, Evaluated;
    var make := h => SourceLink(heights, h);
    if j + k == |heights| {
      assert heights[j + k..] == [];
      NoLinks(make, env);
    } else {
      SourceLinkRuns(heights, j, k, env);
      SourceLinksRun(heights, j, k + 1, Linked(SourceLink(heights, heights[j + k]), env).value);
      assert heights[j + k..][1..] == heights[j + k + 1..];
      LinksHead(make, heights[j + k..]);
      EvaluatedHead(make(heights[j + k]), Links(make, heights[j + k + 1..]), env);
    }
  }

  lemma SourceLinkRuns(heights: seq<int>, j: nat, k: nat, env: map<Label, Picture>)
    requires SplitAt(heights, j) && j + k < |heights| && Holds(heights, j, k, 0, env)
    ensures var r := Linked(SourceLink(heights, heights[j + k]), env);
            r.Some? && Holds(heights, j, k + 1, 0, r.value)
  {
    hide Holds, SplitAt, SourceLink, Linked;
    if Anchored(heights) && k == 0 && j > 0 {
      AnchorSourceStep(heights, j, env);
    } else {
      SourceStep(heights, j, k, env);
    }
  }

  lemma {:induction false} AnchorLinksRun(heights: seq<int>, j: nat, m: nat, env: map<Label, Picture>)
    requires SplitAt(heights, j) && m <= j <= |heights| && Holds(heights, j, |heights| - j, m, env)
    ensures var r := Evaluated(Links(h => AnchorLink(heights, h), heights[m..j]), env);
            r.Some? && Holds(heights, j, |heights| - j, j, r.value)
    decreases j - m
  {
    hide Holds, SplitAt, AnchorLink, Linked, Anchored, Links, Evaluated;
    var make := h => AnchorLink(heights, h);
    if m == j {
      assert heights[m..j] == [];
      NoLinks(make, env);
    } else {
      AnchorStep(heights, j, m, env);
      AnchorLinksRun(heights, j, m + 1, Linked(AnchorLink(heights, heights[m]), env).value);
      assert heights[m..j][1..] == heights[m + 1..j];
      LinksHead(make, heights[m..j]);
      EvaluatedHead(make(heights[m]), Links(make, heights[m + 1..j]), env);
    }
  }

  /** No label is an output twice, of one link or of two, and the input is none. */
  predicate MadeOnce(links: seq<Link>) {
    && (forall i, p, k, q ::
          0 <= i < |links| && 0 <= k < |links| && 0 <= p < |links[i].outputs| && 0 <= q < |links[k].outputs| ==>
            links[i].outputs[p] == links[k].outputs[q] ==> i == k && p == q)
    && (forall i, p :: 0 <= i < |links| && 0 <= p < |links[i].outputs| ==> links[i].outputs[p] != Input)
  }

  /** The link that makes a label, and the label's place among its outputs. */
  function Maker(heights: seq<int>, j: nat, l: Label): int {
    match l
    case Input => -1
    case FromInput(_) => 0
    case FromAnchor(_) => 1
    case Output(i) => if i >= j then 1 + i - j else 1 + |heights| - j + i
  }

  function Place(heights: seq<int>, j: nat, l: Label): int {
    match l
    case FromInput(h) => IndexOf(heights, h) - j
    case FromAnchor(h) => 1 + IndexOf(heights, h)
    case _ => 0
  }

  lemma FirstMakes(heights: seq<int>, j: nat, p: nat)
    requires SplitAt(heights, j) && p < |FirstLink(heights).outputs|
    ensures var l := FirstLink(heights).outputs[p]; l != Input && Maker(heights, j, l) == 0 && Place(heights, j, l) == p
  {
    LabelsAre(h => FromInput(h), heights[j..]);
    IndexIs(heights, j + p);
  }

  lemma SourceMakes(heights: seq<int>, j: nat, k: nat, p: nat)
    requires SplitAt(heights, j) && j + k < |heights| && p < |SourceLink(heights, heights[j + k]).outputs|
    ensures var l := SourceLink(heights, heights[j + k]).outputs[p];
            l != Input && Maker(heights, j, l) == k + 1 && Place(heights, j, l) == p
  {
    IndexIs(heights, j + k);
    if Anchored(heights) && k == 0 && j > 0 {
      LabelsAre(h => FromAnchor(h), heights[..j]);
      if p > 0 {
        IndexIs(heights, p - 1);
      }
    } else {
      SourceLinkIs(heights, j, k);
    }
  }

  lemma AnchorMakes(heights: seq<int>, j: nat, m: nat, p: nat)
    requires SplitAt(heights, j) && m < j && p < |AnchorLink(heights, heights[m]).outputs|
    ensures var l := AnchorLink(heights, heights[m]).outputs[p];
            l != Input && Maker(heights, j, l) == 1 + |heights| - j + m && Place(heights, j, l) == p
  {
    IndexIs(heights, m);
  }

  lemma LinkMakes(heights: seq<int>, j: nat, i: nat, p: nat)
    requires SplitAt(heights, j) && i < |Graph(heights)| && p < |Graph(heights)[i].outputs|
    ensures var l := Graph(heights)[i].outputs[p]; l != Input && Maker(heights, j, l) == i && Place(heights, j, l) == p
  {
    GraphParts(heights, j);
    hide SplitAt, Graph, Maker, Place, FirstLink, SourceLink, AnchorLink;
    SplitIsWithin(heights, j);
    if i == 0 {
      FirstMakes(heights, j, p);
    } else if i <= |heights| - j {
      assert heights[j..][i - 1] == heights[j + (i - 1)];
      SourceMakes(heights, j, i - 1, p);
    } else {
      AnchorMakes(heights, j, i - 1 - (|heights| - j), p);
    }
  }

  lemma GraphMakesOnce(heights: seq<int>)
    requires Increasing(heights)
    ensures MadeOnce(Graph(heights))
  {
    var j := HeightsSplit(heights);
    hide SplitAt, Graph, Maker, Place;
    var links := Graph(heights);
    forall i, p | 0 <= i < |links| && 0 <= p < |links[i].outputs|
      ensures var l := links[i].outputs[p]; l != Input && Maker(heights, j, l) == i && Place(heights, j, l) == p
    {
      LinkMakes(heights, j, i, p);
    }
  }

  /** For every strictly increasing list of heights the graph is well formed: every
      label is produced once and consumed once, every split has as many branches as
      labels, and what is left is exactly the outputs that are mapped, output `k` at
      `heights[k]`, from the 1080 rendition below 1080 when there is one. */
  lemma GraphIsRight(heights: seq<int>)
    requires Increasing(heights)
    ensures var r := Evaluated(Graph(heights), map[Input := Raw]);
            && r.Some?
            && (forall l :: l in r.value <==> l.Output? && 0 <= l.index < |heights|)
            && (forall k: nat :: k < |heights| ==> r.value[Output(k)] == Expected(heights, k))
    ensures MadeOnce(Graph(heights))
  {
    hide MadeOnce, SplitAt, Linked, Holds, FirstLink, SourceLink, AnchorLink, Graph, Evaluated, Links, Anchored;
    GraphMakesOnce(heights);
    var j := HeightsSplit(heights);
    SplitIsWithin(heights, j);
    var sources, anchors := Links(h => SourceLink(heights, h), heights[j..]), Links(h => AnchorLink(heights, h), heights[..j]);
    FirstLinkRuns(heights, j);
    var env := Linked(FirstLink(heights), map[Input := Raw]).value;
    EvaluatedFirst(heights, env);
    assert heights[j + 0..] == heights[j..] && heights[0..j] == heights[..j];
    SourceLinksRun(heights, j, 0, env);
    var afterSource := Evaluated(sources, env).value;
    AnchorLinksRun(heights, j, 0, afterSource);
    GraphParts(heights, j);
    ThreeParts([FirstLink(heights)], sources, anchors, map[Input := Raw], env, afterSource);
    Finally(heights, j, Evaluated(anchors, afterSource).value);
  }

  lemma SplitIsWithin(heights: seq<int>, j: nat)
    requires SplitAt(heights, j)
    ensures Increasing(heights) && j <= |heights|
  {
  }

  lemma ThreeParts(a: seq<Link>, b: seq<Link>, c: seq<Link>, env: map<Label, Picture>, afterA: map<Label, Picture>, afterB: map<Label, Picture>)
    requires Evaluated(a, env) == Some(afterA) && Evaluated(b, afterA) == Some(afterB)
    ensures Evaluated(a + b + c, env) == Evaluated(c, afterB)
  {
    hide Evaluated;
    EvaluatedConcat(a + b, c, env);
    EvaluatedConcat(a, b, env);
  }

  lemma EvaluatedFirst(heights: seq<int>, env: map<Label, Picture>)
    requires Linked(FirstLink(heights), map[Input := Raw]) == Some(env)
    ensures Evaluated([FirstLink(heights)], map[Input := Raw]) == Some(env)
  {
    hide Linked, FirstLink;
    assert [FirstLink(heights)][1..] == [];
  }

  lemma GraphParts(heights: seq<int>, j: nat)
    requires SplitAt(heights, j)
    ensures Graph(heights)
            == [FirstLink(heights)] + Links(h => SourceLink(heights, h), heights[j..]) + Links(h => AnchorLink(heights, h), heights[..j])
  {
    hide FirstLink, SourceLink, AnchorLink;
  }

  lemma Finally(heights: seq<int>, j: nat, env: map<Label, Picture>)
    requires SplitAt(heights, j) && Holds(heights, j, |heights| - j, j, env)
    ensures forall l :: l in env <==> l.Output? && 0 <= l.index < |heights|
    ensures forall k: nat :: k < |heights| ==> env[Output(k)] == Expected(heights, k)
  {
    forall l: Label
      ensures Holding(heights, j, |heights| - j, j, l)
              == if l.Output? && 0 <= l.index < |heights| then Some(Expected(heights, l.index)) else None
    {
      if l.FromInput? || l.FromAnchor? {
        IndexFinds(heights, l.height);
      }
    }
  }

  // --- Labels as text, and the rungs ----------------------------------------------------------

  predicate Writable(l: Label) {
    (l.FromInput? || l.FromAnchor? ==> l.height >= 0) && (l.Output? ==> l.index >= 0)
  }

  /** Different labels are different texts. */
  lemma LabelTextsDiffer(a: Label, b: Label)
    requires Writable(a) && Writable(b) && LabelText(a) == LabelText(b)
    ensures a == b
  {
    var s, t := LabelText(a), LabelText(b);
    assert s[1] == t[1];
    if a.FromInput? || a.FromAnchor? {
      assert s[2..|s| - 1] == Digits(a.height) && t[2..|t| - 1] == Digits(b.height);
      ValueOfDigits(a.height);
      ValueOfDigits(b.height);
    } else if a.Output? {
      assert s[2..|s| - 4] == Digits(a.index) && t[2..|t| - 4] == Digits(b.index);
      ValueOfDigits(a.index);
      ValueOfDigits(b.index);
    }
  }

  lemma Prepended(x: int, rest: seq<int>)
    requires Increasing(rest) && forall h :: h in rest ==> x < h
    ensures Increasing([x] + rest)
  {
    var r := [x] + rest;
    forall i, j | 0 <= i < j < |r| ensures r[i] < r[j] {
      assert r[j] == rest[j - 1] && rest[j - 1] in rest;
    }
  }

  lemma {:induction false} AtMostIs(heights: seq<int>, limit: int)
    requires Increasing(heights)
    ensures Increasing(AtMost(heights, limit))
    ensures forall h :: h in AtMost(heights, limit) <==> h in heights && h <= limit
  {
    if heights != [] {
      AtMostIs(heights[1..], limit);
      assert heights == [heights[0]] + heights[1..];
      assert forall h :: h in heights[1..] ==> heights[0] < h;
      Prepended(heights[0], AtMost(heights[1..], limit));
    }
  }

  lemma {:induction false} WithoutInnerIs(rungs: seq<int>, top: int)
    requires Increasing(rungs)
    ensures Increasing(WithoutInner(rungs, top))
    ensures forall h :: h in WithoutInner(rungs, top) <==> h in rungs && (h == top || h != ONLY_AS_TOP_RUNG)
  {
    if rungs != [] {
      WithoutInnerIs(rungs[1..], top);
      assert rungs == [rungs[0]] + rungs[1..];
      assert forall h :: h in rungs[1..] ==> rungs[0] < h;
      Prepended(rungs[0], WithoutInner(rungs[1..], top));
    }
  }

  lemma TopStays(rungs: seq<int>)
    requires Increasing(rungs) && rungs != []
    ensures var r, top := WithoutInner(rungs, rungs[|rungs| - 1]), rungs[|rungs| - 1];
            && r != [] && Increasing(r) && r[|r| - 1] == top
            && (forall h :: h in rungs ==> h <= top)
            && forall h :: h in r <==> h in rungs && (h == top || h != ONLY_AS_TOP_RUNG)
  {
    var top := rungs[|rungs| - 1];
    WithoutInnerIs(rungs, top);
    hide WithoutInner;
    var r := WithoutInner(rungs, top);
    assert top in rungs && top in r;
    var q :| 0 <= q < |r| && r[q] == top;
    assert r[|r| - 1] in r && r[|r| - 1] in rungs;
  }

  /** A ladder's heights: strictly increasing, never empty, every rung up to the source
      and the limit but an inner 480; or the source's own height when there is none. */
  lemma RungsAreRight(height: int, maxHeight: int)
    ensures var r := VariantsFor(height, maxHeight);
            && r != [] && Increasing(r)
            && ((forall h :: h in LADDER_HEIGHTS ==> h > height || h > maxHeight) ==> r == [height])
            && ((exists h :: h in LADDER_HEIGHTS && h <= height && h <= maxHeight) ==>
                  && (forall h :: h in LADDER_HEIGHTS && h <= height && h <= maxHeight ==> h <= r[|r| - 1])
                  && forall h :: h in r <==> h in LADDER_HEIGHTS && h <= height && h <= maxHeight
                                             && (h != ONLY_AS_TOP_RUNG || h == r[|r| - 1]))
  {
    var limit := if height < maxHeight then height else maxHeight;
    LadderRises();
    hide AtMost, WithoutInner, Increasing, LADDER_HEIGHTS;
    AtMostIs(LADDER_HEIGHTS, limit);
    var rungs := AtMost(LADDER_HEIGHTS, limit);
    if rungs == [] {
      OneRises(height);
      assert forall h :: h in LADDER_HEIGHTS ==> h > limit;
    } else {
      TopStays(rungs);
      assert rungs[0] in rungs;
    }
  }

  lemma LadderRises()
    ensures Increasing(LADDER_HEIGHTS)
  {
  }

  lemma OneRises(height: int)
    ensures Increasing([height])
  {
  }

  /** A height the ladder has a rung for. */
  predicate IsRung(h: int) { h in {360, 480, 720, 1080, 1440, 2160} }

  lemma RungIs(h: int)
    ensures h in LADDER_HEIGHTS <==> IsRung(h)
  {
    assert LADDER_HEIGHTS == [360, 480, 720, 1080, 1440, 2160];
    if IsRung(h) {
      assert h == LADDER_HEIGHTS[0] || h == LADDER_HEIGHTS[1] || h == LADDER_HEIGHTS[2] || h == LADDER_HEIGHTS[3]
             || h == LADDER_HEIGHTS[4] || h == LADDER_HEIGHTS[5];
    }
  }

  /** By number: a source of under 360 lines, or so limited, gets its own height alone; any
      other gets 360, 720, 1080, 1440 and 2160 as far as it and the limit reach, and 480
      exactly when that is where they end. */
  lemma LadderOf(height: int, maxHeight: int)
    ensures var r, limit := VariantsFor(height, maxHeight), if height < maxHeight then height else maxHeight;
            && Increasing(r)
            && (limit < 360 ==> r == [height])
            && (limit >= 360 ==> forall h :: h in r <==> IsRung(h) && h <= limit && (h == 480 ==> limit < 720))
  {
    var r, limit := VariantsFor(height, maxHeight), if height < maxHeight then height else maxHeight;
    RungsAreRight(height, maxHeight);
    forall h ensures h in LADDER_HEIGHTS <==> IsRung(h) {
      RungIs(h);
    }
    hide VariantsFor, LADDER_HEIGHTS;
    if limit >= 360 {
      assert IsRung(360) && IsRung(480) && IsRung(720) && 360 in LADDER_HEIGHTS;
      var top := r[|r| - 1];
      assert top in r && IsRung(top) && top <= limit;
      assert 480 <= limit ==> 480 in LADDER_HEIGHTS && 480 <= top;
      assert 720 <= limit ==> 720 in LADDER_HEIGHTS && 720 <= top;
    }
  }
}
