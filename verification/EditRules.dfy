/** The rules an edit request must meet (app/services/media_rules.py: `ordered`,
    `scale_options`, `check_scale`, `check_edit_operations` and the operations' rules)
    and the filters it becomes (app/worker/edit_ops/registry.py: `filter_chain`). */
module EditRules {
  import opened Prelude
  import opened Rounding

  const SCALE_HEIGHTS := [240, 360, 480, 720, 1080, 1440, 2160]

  const OPERATION_ORDER :=
    ["clip", "crop", "rotate", "flip", "downscale", "upscale", "adjust", "preset", "speed", "convert"]

  /** Operations from here on work on the tone-mapped picture. */
  const TONE_MAPPED_FROM := "adjust"

  /** Operations that have filters of their own. */
  const FILTERS := {"crop", "rotate", "flip", "downscale", "upscale", "adjust", "preset", "speed"}

  /** The picture's size at one point; a side may be unknown. */
  datatype Frame = Frame(width: Option<int>, height: Option<int>)

  /** An operation's parameters, as far as the rules read them: a field is None when it
      is missing or not a whole number. `rest` is everything else. */
  datatype Params = Params(degrees: Option<int>, height: Option<int>, w: Option<int>, h: Option<int>, format: string, rest: string)

  datatype Refusal =
    | NotWithMp3(labels: seq<string>)
    | NotWhole(operation: string)
    | NotARung(operation: string)
    | NotSmaller(target: int, input: int)
    | NotLarger(target: int, input: int)
    | MissingParameter(operation: string)

  datatype Result<T> = Accepted(value: T) | Refused(why: Refusal)

  // --- One operation ---------------------------------------------------------------

  function CheckScale(operation: string, target: int, input: Option<int>): Option<Refusal> {
    if target !in SCALE_HEIGHTS then Some(NotARung(operation))
    else if input.None? then None
    else if operation == "downscale" && target >= input.value then Some(NotSmaller(target, input.value))
    else if operation == "upscale" && target <= input.value then Some(NotLarger(target, input.value))
    else None
  }

  /** `round` of a quotient of either sign. */
  function Nearest(a: int, b: int): int
    requires b != 0
  {
    if b > 0 then RoundHalfEven(a, b) else RoundHalfEven(-a, -b)
  }

  function ScaledWidth(frame: Frame, target: int): Option<int> {
    if frame.width.Some? && frame.width.value != 0 && frame.height.Some? && frame.height.value != 0 then
      var w := Nearest(frame.width.value * target, 2 * frame.height.value) * 2;
      Some(if w < 2 then 2 else w)
    else None
  }

  function Known(value: Option<int>): Option<int> {
    if value.Some? && value.value > 0 then value else None
  }

  /** The operation's rule: a refusal, or the frame it leaves behind. */
  function Check(name: string, params: Params, frame: Frame): Result<Frame> {
    if name == "crop" then Accepted(Frame(Known(params.w), Known(params.h)))
    else if name == "rotate" then
      if params.degrees.None? then Refused(MissingParameter(name))
      else if params.degrees.value == 90 || params.degrees.value == 270 then Accepted(Frame(frame.height, frame.width))
      else Accepted(frame)
    else if name == "downscale" || name == "upscale" then
      if params.height.None? then Refused(NotWhole(name))
      else
        var no := CheckScale(name, params.height.value, frame.height);
        if no.Some? then Refused(no.value)
        else Accepted(Frame(ScaledWidth(frame, params.height.value), params.height))
    else Accepted(frame)
  }

  predicate ChangesPicture(name: string) { name != "speed" && name != "clip" && name != "convert" }

  function LabelOf(name: string): string {
    if name == "downscale" || name == "upscale" then "scale" else if name == "adjust" then "colour" else name
  }

  // --- A request ----------------------------------------------------------------------

  /** A later pair with the same name replaces an earlier one. */
  function Named(operations: seq<(string, Params)>): map<string, Params> {
    if operations == [] then map[]
    else Named(operations[..|operations| - 1])[operations[|operations| - 1].0 := operations[|operations| - 1].1]
  }

  function OrderedFrom(order: seq<string>, wanted: set<string>): seq<string> {
    if order == [] then []
    else (if order[0] in wanted then [order[0]] else []) + OrderedFrom(order[1..], wanted)
  }

  function Ordered(wanted: set<string>): seq<string> { OrderedFrom(OPERATION_ORDER, wanted) }

  /** The labels an MP3 cannot take, each once. */
  function PictureLabels(names: seq<string>): seq<string> {
    if names == [] then []
    else
      var rest, last := PictureLabels(names[..|names| - 1]), names[|names| - 1];
      if ChangesPicture(last) && LabelOf(last) !in rest then rest + [LabelOf(last)] else rest
  }

  /** Each operation is checked against the frame the ones before it leave. */
  function CheckFrom(names: seq<string>, named: map<string, Params>, frame: Frame): Result<Frame>
    requires forall i :: 0 <= i < |names| ==> names[i] in named
  {
    if names == [] then Accepted(frame)
    else
      var next := Check(names[0], named[names[0]], frame);
      if next.Refused? then next else CheckFrom(names[1..], named, next.value)
  }

  predicate IsMp3(named: map<string, Params>) { "convert" in named && named["convert"].format == "mp3" }

  function Verdict(named: map<string, Params>, frame: Frame): Option<Refusal> {
    OrderedNamesAreThere(OPERATION_ORDER, named.Keys);
    var names := Ordered(named.Keys);
    if IsMp3(named) && PictureLabels(names) != [] then Some(NotWithMp3(PictureLabels(names)))
    else
      var r := CheckFrom(names, named, frame);
      if r.Refused? then Some(r.why) else None
  }

  lemma {:induction false} OrderedNamesAreThere(order: seq<string>, wanted: set<string>)
    ensures forall i :: 0 <= i < |OrderedFrom(order, wanted)| ==>
              OrderedFrom(order, wanted)[i] in wanted && OrderedFrom(order, wanted)[i] in order
    ensures forall name :: name in order && name in wanted ==> name in OrderedFrom(order, wanted)
  {
    if order != [] {
      OrderedNamesAreThere(order[1..], wanted);
      assert order == [order[0]] + order[1..];
    }
  }

  method LabelsOf(names: seq<string>) returns (labels: seq<string>)
    ensures labels == PictureLabels(names)
  {
    hide ChangesPicture, LabelOf;
    labels := [];
    var i := 0;
    while i < |names|
      invariant 0 <= i <= |names|
      invariant labels == PictureLabels(names[..i])
    {
      assert names[..i + 1][..i] == names[..i];
      if ChangesPicture(names[i]) && LabelOf(names[i]) !in labels {
        labels := labels + [LabelOf(names[i])];
      }
      i := i + 1;
    }
    assert names[..i] == names;
  }

  method CheckAll(names: seq<string>, named: map<string, Params>, start: Frame) returns (r: Result<Frame>)
    requires forall i :: 0 <= i < |names| ==> names[i] in named
    ensures r == CheckFrom(names, named, start)
  {
    hide Check;
    var frame, i := start, 0;
    while i < |names|
      invariant 0 <= i <= |names|
      invariant CheckFrom(names, named, start) == CheckFrom(names[i..], named, frame)
    {
      assert names[i..][1..] == names[i + 1..];
      var next := Check(names[i], named[names[i]], frame);
      if next.Refused? {
        return next;
      }
      frame := next.value;
      i := i + 1;
    }
    assert names[i..] == [];
    r := Accepted(frame);
  }

  /** `check_edit_operations`: the two loops, one after the other. */
  method CheckEditOperations(operations: seq<(string, Params)>, height: Option<int>, width: Option<int>) returns (why: Option<Refusal>)
    ensures why == Verdict(Named(operations), Frame(width, height))
  {
    var named := Named(operations);
    var names := Ordered(named.Keys);
    OrderedNamesAreThere(OPERATION_ORDER, named.Keys);
    if IsMp3(named) {
      var labels := LabelsOf(names);
      if labels != [] {
        return Some(NotWithMp3(labels));
      }
    }
    var r := CheckAll(names, named, Frame(width, height));
    why := if r.Refused? then Some(r.why) else None;
  }

  // --- The verdict depends only on the set of operations -------------------------------

  predicate EachOnce(operations: seq<(string, Params)>) {
    forall i, j :: 0 <= i < j < |operations| ==> operations[i].0 != operations[j].0
  }

  lemma {:induction false} NamedIs(operations: seq<(string, Params)>)
    requires EachOnce(operations)
    ensures forall name, params :: (name in Named(operations) && Named(operations)[name] == params) <==> (name, params) in operations
  {
    if operations != [] {
      var rest, last := operations[..|operations| - 1], operations[|operations| - 1];
      NamedIs(rest);
      assert operations == rest + [last];
      assert forall name, params :: (name, params) in rest ==> name != last.0;
    }
  }

  /** A request in any other order gets the same verdict, and the same filters. */
  lemma OrderDoesNotMatter(a: seq<(string, Params)>, b: seq<(string, Params)>, frame: Frame)
    requires EachOnce(a) && EachOnce(b) && forall op :: op in a <==> op in b
    ensures Named(a) == Named(b)
    ensures Verdict(Named(a), frame) == Verdict(Named(b), frame)
  {
    NamedIs(a);
    NamedIs(b);
    hide Verdict;
    var m, n := Named(a), Named(b);
    forall name | name in m ensures name in n && n[name] == m[name] {
      assert (name, m[name]) in a;
    }
    forall name | name in n ensures name in m {
      assert (name, n[name]) in b;
    }
  }

  // --- Knowing less is never stricter -----------------------------------------------------

  predicate KnowsNoMore(less: Option<int>, more: Option<int>) { less.None? || less == more }

  predicate LessKnown(less: Frame, more: Frame) {
    KnowsNoMore(less.width, more.width) && KnowsNoMore(less.height, more.height)
  }

  lemma CheckLess(name: string, params: Params, less: Frame, more: Frame)
    requires LessKnown(less, more)
    ensures var a, b := Check(name, params, less), Check(name, params, more);
            b.Accepted? ==> a.Accepted? && LessKnown(a.value, b.value)
  {
  }

  lemma {:induction false} CheckFromLess(names: seq<string>, named: map<string, Params>, less: Frame, more: Frame)
    requires forall i :: 0 <= i < |names| ==> names[i] in named
    requires LessKnown(less, more) && CheckFrom(names, named, more).Accepted?
    ensures CheckFrom(names, named, less).Accepted?
    ensures LessKnown(CheckFrom(names, named, less).value, CheckFrom(names, named, more).value)
  {
    hide Check, LessKnown;
    if names != [] {
      CheckLess(names[0], named[names[0]], less, more);
      CheckFromLess(names[1..], named, Check(names[0], named[names[0]], less).value, Check(names[0], named[names[0]], more).value);
    }
  }

  /** What is refused knowing less is refused knowing more: the page, the API and the
      worker can only get stricter, in that order. */
  lemma KnowingLessIsNotStricter(named: map<string, Params>, less: Frame, more: Frame)
    requires LessKnown(less, more) && Verdict(named, less).Some?
    ensures Verdict(named, more).Some?
  {
    OrderedNamesAreThere(OPERATION_ORDER, named.Keys);
    var names := Ordered(named.Keys);
    assert forall i :: 0 <= i < |names| ==> names[i] in named;
    hide Check, LessKnown, Ordered, CheckFrom;
    if CheckFrom(names, named, more).Accepted? {
      CheckFromLess(names, named, less, more);
    }
  }

  // --- What the editor offers ------------------------------------------------------------

  function AtMostBelow(heights: seq<int>, limit: int): seq<int> {
    if heights == [] then []
    else AtMostBelow(heights[1..], limit) + if heights[0] < limit then [heights[0]] else []
  }

  function Above(heights: seq<int>, limit: int): seq<int> {
    if heights == [] then []
    else (if heights[0] > limit then [heights[0]] else []) + Above(heights[1..], limit)
  }

  datatype Options = Options(downscale: seq<int>, upscale: seq<int>)

  /** `scale_options`: the rungs below, largest first, and those above, smallest first. */
  function ScaleOptions(input: Option<int>): Option<Options> {
    if input.None? || input.value <= 0 then None
    else Some(Options(AtMostBelow(SCALE_HEIGHTS, input.value), Above(SCALE_HEIGHTS, input.value)))
  }

  predicate Rising(heights: seq<int>) { forall i, j :: 0 <= i < j < |heights| ==> heights[i] < heights[j] }

  predicate Falling(heights: seq<int>) { forall i, j :: 0 <= i < j < |heights| ==> heights[i] > heights[j] }

  lemma {:induction false} BelowIs(heights: seq<int>, limit: int)
    requires Rising(heights)
    ensures forall h :: h in AtMostBelow(heights, limit) <==> h in heights && h < limit
    ensures Falling(AtMostBelow(heights, limit))
  {
    if heights != [] {
      BelowIs(heights[1..], limit);
      assert heights == [heights[0]] + heights[1..];
      var rest := AtMostBelow(heights[1..], limit);
      assert forall i :: 0 <= i < |rest| ==> rest[i] in rest;
      assert forall h :: h in heights[1..] ==> h > heights[0];
    }
  }

  lemma {:induction false} AboveIs(heights: seq<int>, limit: int)
    requires Rising(heights)
    ensures forall h :: h in Above(heights, limit) <==> h in heights && h > limit
    ensures Rising(Above(heights, limit))
  {
    if heights != [] {
      AboveIs(heights[1..], limit);
      assert heights == [heights[0]] + heights[1..];
      var rest := Above(heights[1..], limit);
      assert forall i :: 0 <= i < |rest| ==> rest[i] in rest;
      assert forall h :: h in heights[1..] ==> h > heights[0];
    }
  }

  function ScaleTo(height: int): Params { Params(None, Some(height), None, None, "", "") }

  /** The heights offered for a video are exactly those a scale of it alone is accepted at. */
  lemma OfferedIsAccepted(input: int, width: Option<int>, target: int)
    requires input > 0
    ensures var offered := ScaleOptions(Some(input)).value; Falling(offered.downscale) && Rising(offered.upscale)
    ensures target in ScaleOptions(Some(input)).value.downscale
            <==> Verdict(map["downscale" := ScaleTo(target)], Frame(width, Some(input))) == None
    ensures target in ScaleOptions(Some(input)).value.upscale
            <==> Verdict(map["upscale" := ScaleTo(target)], Frame(width, Some(input))) == None
  {
    BelowIs(SCALE_HEIGHTS, input);
    AboveIs(SCALE_HEIGHTS, input);
    OneScale("downscale", target, Frame(width, Some(input)));
    OneScale("upscale", target, Frame(width, Some(input)));
  }

  lemma OneScale(name: string, target: int, frame: Frame)
    requires name == "downscale" || name == "upscale"
    ensures Verdict(map[name := ScaleTo(target)], frame) == CheckScale(name, target, frame.height)
  {
    var named := map[name := ScaleTo(target)];
    assert named.Keys == {name};
    OneName(name);
    assert Ordered(named.Keys) == [name];
    assert CheckFrom([name], named, frame) == Check(name, ScaleTo(target), frame) by {
      assert [name][1..] == [];
    }
  }

  lemma {:induction false} OrderedOne(order: seq<string>, name: string)
    requires forall i, j :: 0 <= i < j < |order| ==> order[i] != order[j]
    ensures OrderedFrom(order, {name}) == if name in order then [name] else []
  {
    if order != [] {
      OrderedOne(order[1..], name);
      assert order == [order[0]] + order[1..];
    }
  }

  lemma OneName(name: string)
    requires name in OPERATION_ORDER
    ensures Ordered({name}) == [name]
  {
    NamesDiffer();
    OrderedOne(OPERATION_ORDER, name);
  }

  lemma NamesDiffer()
    ensures forall i, j :: 0 <= i < j < |OPERATION_ORDER| ==> OPERATION_ORDER[i] != OPERATION_ORDER[j]
  {
    forall i, j | 0 <= i < j < |OPERATION_ORDER| ensures OPERATION_ORDER[i] != OPERATION_ORDER[j] {
      var a, b := OPERATION_ORDER[i], OPERATION_ORDER[j];
      assert a[0] != b[0] || a[1] != b[1];
    }
  }

  // --- The filters a request becomes ---------------------------------------------------------

  datatype FilterStep = FilterStep(video: seq<string>, audio: seq<string>)

  datatype FilterChain = FilterChain(before: seq<string>, after: seq<string>, audio: seq<string>)

  /** What the registered builders add for one operation with these parameters on this
      frame; nothing for one without filters. */
  type Builders = (string, Params, Frame) -> FilterStep

  function StepOf(build: Builders, name: string, params: Params, frame: Frame): FilterStep {
    if name in FILTERS then build(name, params, frame) else FilterStep([], [])
  }

  function IndexOf(order: seq<string>, name: string): nat {
    if order == [] || order[0] == name then 0 else 1 + IndexOf(order[1..], name)
  }

  predicate ToneMapped(name: string) {
    IndexOf(OPERATION_ORDER, name) >= IndexOf(OPERATION_ORDER, TONE_MAPPED_FROM)
  }

  /** `filter_chain`: one loop, three lists. */
  method BuildFilterChain(build: Builders, operations: seq<(string, Params)>, start: Frame) returns (r: Result<FilterChain>)
    ensures var named := Named(operations);
            r == Chained(build, Ordered(named.Keys), named, start, FilterChain([], [], []))
  {
    var named := Named(operations);
    var names := Ordered(named.Keys);
    OrderedNamesAreThere(OPERATION_ORDER, named.Keys);
    assert forall i :: 0 <= i < |names| ==> names[i] in named;
    hide Check, Ordered, ToneMapped, StepOf;
    var frame, i, chain := start, 0, FilterChain([], [], []);
    while i < |names|
      invariant 0 <= i <= |names|
      invariant Chained(build, names, named, start, FilterChain([], [], [])) == Chained(build, names[i..], named, frame, chain)
    {
      assert names[i..][1..] == names[i + 1..];
      var params := named[names[i]];
      chain := Extended(chain, names[i], StepOf(build, names[i], params, frame));
      var next := Check(names[i], params, frame);
      if next.Refused? {
        return Refused(next.why);
      }
      frame := next.value;
      i := i + 1;
    }
    assert names[i..] == [];
    r := Accepted(chain);
  }

  function Extended(chain: FilterChain, name: string, step: FilterStep): FilterChain {
    if ToneMapped(name)
    then FilterChain(chain.before, chain.after + step.video, chain.audio + step.audio)
    else FilterChain(chain.before + step.video, chain.after, chain.audio + step.audio)
  }

  function Chained(build: Builders, names: seq<string>, named: map<string, Params>, frame: Frame, chain: FilterChain): Result<FilterChain>
    decreases |names|
  {
    if names == [] then Accepted(chain)
    else if names[0] !in named then Refused(MissingParameter(names[0]))
    else
      var params := named[names[0]];
      var next := Check(names[0], params, frame);
      if next.Refused? then Refused(next.why)
      else Chained(build, names[1..], named, next.value, Extended(chain, names[0], StepOf(build, names[0], params, frame)))
  }

  /** The frame the checker has computed after `k` operations. */
  function FrameAt(names: seq<string>, named: map<string, Params>, frame: Frame, k: nat): Frame
    requires k <= |names| && forall i :: 0 <= i < |names| ==> names[i] in named
    requires CheckFrom(names, named, frame).Accepted?
  {
    if k == 0 then frame else FrameAt(names[1..], named, Check(names[0], named[names[0]], frame).value, k - 1)
  }

  /** Every operation's step, built on the frame the checker has for it. */
  function Steps(build: Builders, names: seq<string>, named: map<string, Params>, frame: Frame): seq<FilterStep>
    requires forall i :: 0 <= i < |names| ==> names[i] in named
    requires CheckFrom(names, named, frame).Accepted?
  {
    seq(|names|, k requires 0 <= k < |names| => StepOf(build, names[k], named[names[k]], FrameAt(names, named, frame, k)))
  }

  function Videos(steps: seq<FilterStep>): seq<string> {
    if steps == [] then [] else steps[0].video + Videos(steps[1..])
  }

  function Audios(steps: seq<FilterStep>): seq<string> {
    if steps == [] then [] else steps[0].audio + Audios(steps[1..])
  }

  /** Once an operation is tone-mapped, all after it are. */
  predicate InOrder(names: seq<string>) {
    forall i, j :: 0 <= i < j < |names| ==> ToneMapped(names[i]) ==> ToneMapped(names[j])
  }

  lemma StepsRest(build: Builders, names: seq<string>, named: map<string, Params>, frame: Frame)
    requires names != [] && (forall i :: 0 <= i < |names| ==> names[i] in named)
    requires CheckFrom(names, named, frame).Accepted?
    ensures Steps(build, names, named, frame)
            == [StepOf(build, names[0], named[names[0]], frame)]
               + Steps(build, names[1..], named, Check(names[0], named[names[0]], frame).value)
  {
    hide Check, StepOf;
  }

  /** The video filters of the operations on one side of the tone-map, in order. */
  function Side(names: seq<string>, steps: seq<FilterStep>, mapped: bool): seq<string>
    requires |names| == |steps|
  {
    if names == [] then []
    else (if ToneMapped(names[0]) == mapped then steps[0].video else []) + Side(names[1..], steps[1..], mapped)
  }

  lemma {:induction false} ChainIs(build: Builders, names: seq<string>, named: map<string, Params>, frame: Frame, chain: FilterChain)
    requires (forall i :: 0 <= i < |names| ==> names[i] in named) && CheckFrom(names, named, frame).Accepted?
    ensures var r, steps := Chained(build, names, named, frame, chain), Steps(build, names, named, frame);
            && r.Accepted?
            && r.value.before == chain.before + Side(names, steps, false)
            && r.value.after == chain.after + Side(names, steps, true)
            && r.value.audio == chain.audio + Audios(steps)
    decreases |names|
  {
    hide Check, ToneMapped, StepOf;
    if names != [] {
      var step := StepOf(build, names[0], named[names[0]], frame);
      var next := Check(names[0], named[names[0]], frame).value;
      StepsRest(build, names, named, frame);
      ChainIs(build, names[1..], named, next, Extended(chain, names[0], step));
      hide Steps;
      var rest := Steps(build, names[1..], named, next);
      assert ([step] + rest)[1..] == rest;
    }
  }

  lemma {:induction false} SidesJoin(names: seq<string>, steps: seq<FilterStep>)
    requires |names| == |steps| && InOrder(names)
    ensures Side(names, steps, false) + Side(names, steps, true) == Videos(steps)
    ensures (forall i :: 0 <= i < |names| ==> ToneMapped(names[i])) ==> Side(names, steps, false) == []
  {
    hide ToneMapped;
    if names != [] {
      assert forall i :: 0 <= i < |names[1..]| ==> names[1..][i] == names[i + 1];
      SidesJoin(names[1..], steps[1..]);
    }
  }

  lemma {:induction false} IndexOfAt(order: seq<string>, i: nat)
    requires i < |order| && forall i, j :: 0 <= i < j < |order| ==> order[i] != order[j]
    ensures IndexOf(order, order[i]) == i
  {
    if i > 0 {
      IndexOfAt(order[1..], i - 1);
    }
  }

  lemma OrderIsInOrder()
    ensures InOrder(OPERATION_ORDER)
  {
    NamesDiffer();
    IndexOfAt(OPERATION_ORDER, 6);
    forall i: nat | i < |OPERATION_ORDER| ensures ToneMapped(OPERATION_ORDER[i]) <==> i >= 6 {
      IndexOfAt(OPERATION_ORDER, i);
    }
  }

  lemma {:induction false} OrderedIsInOrder(order: seq<string>, wanted: set<string>)
    requires InOrder(order)
    ensures InOrder(OrderedFrom(order, wanted))
  {
    hide ToneMapped;
    if order != [] {
      assert forall i :: 0 <= i < |order[1..]| ==> order[1..][i] == order[i + 1];
      OrderedIsInOrder(order[1..], wanted);
      OrderedNamesAreThere(order[1..], wanted);
      assert forall name :: name in order[1..] && ToneMapped(order[0]) ==> ToneMapped(name);
    }
  }

  /** What the checker accepts can be built, and then every operation's filters were
      built on the very frame the checker had computed for it: those before the tone-map
      and those after it, one after the other, are all of them in OPERATION_ORDER. */
  lemma AcceptedIsBuilt(build: Builders, named: map<string, Params>, frame: Frame)
    requires Verdict(named, frame) == None
    ensures var names := Ordered(named.Keys);
            && (forall i :: 0 <= i < |names| ==> names[i] in named) && CheckFrom(names, named, frame).Accepted?
            && var r, steps := Chained(build, names, named, frame, FilterChain([], [], [])), Steps(build, names, named, frame);
               && r.Accepted?
               && r.value.before == Side(names, steps, false) && r.value.after == Side(names, steps, true)
               && r.value.before + r.value.after == Videos(steps) && r.value.audio == Audios(steps)
  {
    var names := Ordered(named.Keys);
    OrderedNamesAreThere(OPERATION_ORDER, named.Keys);
    OrderIsInOrder();
    OrderedIsInOrder(OPERATION_ORDER, named.Keys);
    ChainIs(build, names, named, frame, FilterChain([], [], []));
    SidesJoin(names, Steps(build, names, named, frame));
  }

  // --- The checker's frame is the picture's ---------------------------------------------------

  /** What each operation's video filters do to a picture's size
      (app/worker/edit_ops: crop.py, rotate.py, flip.py, scale.py and the rest). */
  datatype PictureFilter = CropTo(w: int, h: int) | Transpose | Mirror | ScaleToHeight(h: int) | SameSize

  /** Parameters as the request's schema lets them through. */
  predicate WellFormed(name: string, params: Params) {
    && (name == "crop" ==> params.w.Some? && params.h.Some? && params.w.value > 0 && params.h.value > 0)
    && (name == "rotate" ==> params.degrees.Some? && params.degrees.value in {90, 180, 270})
    && (name == "downscale" || name == "upscale" ==> params.height.Some?)
  }

  function FiltersOf(name: string, params: Params): seq<PictureFilter>
    requires WellFormed(name, params)
  {
    if name == "crop" then [CropTo(params.w.value, params.h.value)]
    else if name == "rotate" then (if params.degrees.value == 180 then [Mirror, Mirror] else [Transpose])
    else if name == "flip" then [Mirror]
    else if name == "downscale" || name == "upscale" then [ScaleToHeight(params.height.value)]
    else if name in FILTERS then [SameSize]
    else []
  }

  /** The width `scale=-2:target` gives a picture: FFmpeg's nearest even width, a half
      rounded away from zero. Zero where the picture is too thin to scale. */
  function FilterWidth(width: int, height: int, target: int): int
    requires height > 0
  {
    (width * target + height) / (2 * height) * 2
  }

  /** A picture through one filter, as far as its size is known. */
  function Resized(f: PictureFilter, frame: Frame): Frame {
    match f
    case CropTo(w, h) => Frame(Some(w), Some(h))
    case Transpose => Frame(frame.height, frame.width)
    case Mirror => frame
    case ScaleToHeight(h) =>
      var known := frame.width.Some? && frame.height.Some? && frame.height.value > 0;
      Frame(if known then Some(FilterWidth(frame.width.value, frame.height.value, h)) else None, Some(h))
    case SameSize => frame
  }

  function Through(filters: seq<PictureFilter>, frame: Frame): Frame
    decreases |filters|
  {
    if filters == [] then frame else Through(filters[1..], Resized(filters[0], frame))
  }

  function AllFilters(names: seq<string>, named: map<string, Params>): seq<PictureFilter>
    requires forall i :: 0 <= i < |names| ==> names[i] in named && WellFormed(names[i], named[names[i]])
  {
    if names == [] then [] else FiltersOf(names[0], named[names[0]]) + AllFilters(names[1..], named)
  }

  lemma {:induction false} ThroughBoth(a: seq<PictureFilter>, b: seq<PictureFilter>, frame: Frame)
    ensures Through(a + b, frame) == Through(b, Through(a, frame))
    decreases |a|
  {
    hide Resized;
    if a == [] {
      assert a + b == b;
    } else {
      assert (a + b)[1..] == a[1..] + b;
      ThroughBoth(a[1..], b, Resized(a[0], frame));
    }
  }

  /** The checker's width is not the filter's: the filter's would be nothing at all, or
      the exact one is a half and the even number of pairs next to it is the lower. */
  predicate Misrounds(width: int, height: int, target: int)
    requires height > 0
  {
    var pairs, rest := width * target / (2 * height), width * target % (2 * height);
    (pairs == 0 && rest < height) || (pairs > 0 && rest == height && pairs % 2 == 0)
  }

  /** Python rounds a half to even and FFmpeg away from zero: the two widths are the same
      exactly where neither that nor a picture too thin to scale comes up. */
  lemma WidthAgreesIff(width: int, height: int, target: int)
    requires width > 0 && height > 0 && target > 0
    ensures ScaledWidth(Frame(Some(width), Some(height)), target) == Some(FilterWidth(width, height, target))
            <==> !Misrounds(width, height, target)
  {
    var a, b := width * target, 2 * height;
    assert a > 0;
    var pairs, rest := a / b, a % b;
    HalfUp(a, height);
    assert FilterWidth(width, height, target) == (if rest < height then pairs else pairs + 1) * 2;
  }

  lemma HalfUp(a: int, h: int)
    requires h > 0
    ensures (a + h) / (2 * h) == a / (2 * h) + if a % (2 * h) < h then 0 else 1
  {
    var q, r := a / (2 * h), a % (2 * h);
    var up := if r < h then 0 else 1;
    assert a + h == (q + up) * (2 * h) + (r + h - up * (2 * h)) by {
      assert (q + up) * (2 * h) == q * (2 * h) + up * (2 * h);
    }
    QuotientIs(a + h, 2 * h, q + up, r + h - up * (2 * h));
  }

  lemma QuotientIs(a: int, b: int, q: int, r: int)
    requires b > 0 && a == q * b + r && 0 <= r < b
    ensures a / b == q
  {
    var d := a / b - q;
    assert (d >= 1 ==> d * b >= b) && (d <= -1 ==> d * b <= -b);
    assert a / b * b == q * b + d * b;
    assert d * b == r - a % b;
  }

  /** So a 532x960 picture brought to 240 lines is 134 wide, and the checker says 132. */
  lemma CheckerMisroundsTie()
    ensures ScaledWidth(Frame(Some(532), Some(960)), 240) == Some(132) && FilterWidth(532, 960, 240) == 134
  {
  }

  predicate Positive(frame: Frame) {
    (frame.width.Some? ==> frame.width.value > 0) && (frame.height.Some? ==> frame.height.value > 0)
  }

  predicate Misrounded(name: string, params: Params, frame: Frame) {
    && (name == "downscale" || name == "upscale") && params.height.Some?
    && frame.width.Some? && frame.height.Some? && frame.height.value > 0
    && Misrounds(frame.width.value, frame.height.value, params.height.value)
  }

  lemma CheckKeepsPositive(name: string, params: Params, frame: Frame)
    requires Positive(frame) && Check(name, params, frame).Accepted?
    ensures Positive(Check(name, params, frame).value)
  {
    hide Nearest;
  }

  lemma CheckIsThrough(name: string, params: Params, frame: Frame)
    requires WellFormed(name, params) && Check(name, params, frame).Accepted? && Positive(frame)
    ensures Check(name, params, frame).value == Through(FiltersOf(name, params), frame) <==> !Misrounded(name, params, frame)
  {
    var f := FiltersOf(name, params);
    hide Misrounds, FilterWidth, Nearest;
    if |f| == 2 {
      assert f[1..] == [Mirror] && [Mirror][1..] == [];
    } else if |f| == 1 {
      assert f[1..] == [];
      if (name == "downscale" || name == "upscale") && frame.width.Some? && frame.height.Some? {
        WidthAgreesIff(frame.width.value, frame.height.value, params.height.value);
      }
    }
  }

  /** No scale comes to a picture whose width the checker would round differently. */
  predicate NoneMisrounded(names: seq<string>, named: map<string, Params>, frame: Frame)
    requires forall i :: 0 <= i < |names| ==> names[i] in named
    requires CheckFrom(names, named, frame).Accepted?
  {
    forall k: nat :: k < |names| ==> !Misrounded(names[k], named[names[k]], FrameAt(names, named, frame, k))
  }

  /** The checker's frames, at every operation and at the end, are the picture's. */
  predicate FramesArePictures(names: seq<string>, named: map<string, Params>, frame: Frame)
    requires forall i :: 0 <= i < |names| ==> names[i] in named && WellFormed(names[i], named[names[i]])
    requires CheckFrom(names, named, frame).Accepted?
  {
    forall k: nat :: k <= |names| ==> FrameAt(names, named, frame, k) == Through(AllFilters(names[..k], named), frame)
  }

  lemma PicturesRest(names: seq<string>, named: map<string, Params>, frame: Frame)
    requires names != [] && forall i :: 0 <= i < |names| ==> names[i] in named && WellFormed(names[i], named[names[i]])
    requires CheckFrom(names, named, frame).Accepted?
    ensures var first, next := FiltersOf(names[0], named[names[0]]), Check(names[0], named[names[0]], frame).value;
            FramesArePictures(names, named, frame) <==>
              next == Through(first, frame) && FramesArePictures(names[1..], named, next)
  {
    hide Check, FiltersOf, WellFormed, Resized;
    var rest, first, next := names[1..], FiltersOf(names[0], named[names[0]]), Check(names[0], named[names[0]], frame).value;
    forall k: nat | k < |names|
      ensures Through(AllFilters(names[..k + 1], named), frame) == Through(AllFilters(rest[..k], named), Through(first, frame))
      ensures FrameAt(names, named, frame, k + 1) == FrameAt(rest, named, next, k)
    {
      assert names[..k + 1][1..] == rest[..k] && names[..k + 1][0] == names[0];
      ThroughBoth(first, AllFilters(rest[..k], named), frame);
    }
    assert FrameAt(names, named, frame, 1) == next;
    assert rest[..0] == [];
    assert FramesArePictures(names, named, frame) ==> next == Through(first, frame);
    if next == Through(first, frame) {
      if FramesArePictures(names, named, frame) {
        forall k: nat | k <= |rest| ensures FrameAt(rest, named, next, k) == Through(AllFilters(rest[..k], named), next) {
          assert FrameAt(names, named, frame, k + 1) == Through(AllFilters(names[..k + 1], named), frame);
        }
      }
      if FramesArePictures(rest, named, next) {
        forall k: nat | k <= |names| ensures FrameAt(names, named, frame, k) == Through(AllFilters(names[..k], named), frame) {
          if k > 0 {
            assert FrameAt(rest, named, next, k - 1) == Through(AllFilters(rest[..k - 1], named), next);
            assert names[..(k - 1) + 1] == names[..k];
          }
        }
      }
    }
  }

  lemma MisroundedRest(names: seq<string>, named: map<string, Params>, frame: Frame)
    requires names != [] && forall i :: 0 <= i < |names| ==> names[i] in named
    requires CheckFrom(names, named, frame).Accepted?
    ensures NoneMisrounded(names, named, frame) <==>
              && !Misrounded(names[0], named[names[0]], frame)
              && NoneMisrounded(names[1..], named, Check(names[0], named[names[0]], frame).value)
  {
    hide Check, Misrounded;
    var rest, next := names[1..], Check(names[0], named[names[0]], frame).value;
    assert FrameAt(names, named, frame, 0) == frame;
    forall k: nat | k < |rest| ensures FrameAt(names, named, frame, k + 1) == FrameAt(rest, named, next, k) && rest[k] == names[k + 1] {
    }
    if NoneMisrounded(rest, named, next) && !Misrounded(names[0], named[names[0]], frame) {
      forall k: nat | k < |names| ensures !Misrounded(names[k], named[names[k]], FrameAt(names, named, frame, k)) {
        if k > 0 {
          assert !Misrounded(rest[k - 1], named[rest[k - 1]], FrameAt(rest, named, next, k - 1));
        }
      }
    }
    if NoneMisrounded(names, named, frame) {
      forall k: nat | k < |rest| ensures !Misrounded(rest[k], named[rest[k]], FrameAt(rest, named, next, k)) {
        assert !Misrounded(names[k + 1], named[names[k + 1]], FrameAt(names, named, frame, k + 1));
      }
    }
  }

  /** However the operations combine, the checker's frame is the picture's, at each
      operation and at the end, exactly when no scale's width is one it misrounds. */
  lemma {:induction false} FrameIsPicture(names: seq<string>, named: map<string, Params>, frame: Frame)
    requires forall i :: 0 <= i < |names| ==> names[i] in named && WellFormed(names[i], named[names[i]])
    requires CheckFrom(names, named, frame).Accepted? && Positive(frame)
    ensures FramesArePictures(names, named, frame) <==> NoneMisrounded(names, named, frame)
  {
    hide Check, FiltersOf, WellFormed, Misrounded;
    if names == [] {
      assert names[..0] == [];
    } else {
      var name, params := names[0], named[names[0]];
      PicturesRest(names, named, frame);
      MisroundedRest(names, named, frame);
      CheckIsThrough(name, params, frame);
      CheckKeepsPositive(name, params, frame);
      hide FramesArePictures, NoneMisrounded;
      FrameIsPicture(names[1..], named, Check(name, params, frame).value);
    }
  }

  /** A scaled picture's width is even, at least 2, and within one pixel of its shape. */
  lemma WidthKeepsShape(width: int, height: int, target: int)
    requires width > 0 && height > 0 && target > 0
    ensures var w := ScaledWidth(Frame(Some(width), Some(height)), target);
            && w.Some? && w.value >= 2 && w.value % 2 == 0
            && (w.value > 2 ==> -height <= w.value * height - width * target <= height)
            && (w.value == 2 ==> width * target <= 3 * height)
  {
    var a, b := width * target, 2 * height;
    var n := RoundHalfEven(a, b);
    NearestIs(a, b);
    assert 2 * n * height == n * b;
    if n <= 1 {
      assert n * b <= b;
    }
  }

  lemma NearestIs(a: int, b: int)
    requires b > 0
    ensures var n := RoundHalfEven(a, b); -b <= 2 * (n * b - a) <= b
  {
    var q, r := a / b, a % b;
    assert a == q * b + r;
    assert (q + 1) * b == q * b + b;
  }
}
