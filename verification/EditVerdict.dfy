/** What an edit request is refused for, and which filters it becomes, said operation by
    operation (app/services/media_rules.py: `check_edit_operations`;
    app/worker/edit_ops/registry.py: `filter_chain`). */
module EditVerdict {
  import opened Prelude
  import opened EditRules

  // --- What was asked for ---------------------------------------------------------------

  /** Of two pairs with one name the later counts. */
  lemma {:induction false} LaterCounts(operations: seq<(string, Params)>, i: nat)
    requires i < |operations| && forall j :: i < j < |operations| ==> operations[j].0 != operations[i].0
    ensures operations[i].0 in Named(operations) && Named(operations)[operations[i].0] == operations[i].1
  {
    if i < |operations| - 1 {
      LaterCounts(operations[..|operations| - 1], i);
    }
  }

  lemma {:induction false} OnlyAskedFor(operations: seq<(string, Params)>, name: string)
    requires name in Named(operations)
    ensures exists i :: 0 <= i < |operations| && operations[i].0 == name
  {
    if operations[|operations| - 1].0 != name {
      OnlyAskedFor(operations[..|operations| - 1], name);
    }
  }

  // --- The MP3 rule -----------------------------------------------------------------

  function One(wanted: bool, name: string): seq<string> { if wanted then [name] else [] }

  /** The order in which the worker applies what is asked for. */
  lemma OrderedIs(w: set<string>)
    ensures Ordered(w)
            == One("clip" in w, "clip") + One("crop" in w, "crop") + One("rotate" in w, "rotate") + One("flip" in w, "flip")
               + One("downscale" in w, "downscale") + One("upscale" in w, "upscale") + One("adjust" in w, "adjust")
               + One("preset" in w, "preset") + One("speed" in w, "speed") + One("convert" in w, "convert")
  {
    hide OrderedFrom, One;
    OrderedBoth(["clip", "crop", "rotate", "flip", "downscale"], ["upscale", "adjust", "preset", "speed", "convert"], w);
    OrderedFive("clip", "crop", "rotate", "flip", "downscale", w);
    OrderedFive("upscale", "adjust", "preset", "speed", "convert", w);
    assert OPERATION_ORDER == ["clip", "crop", "rotate", "flip", "downscale"] + ["upscale", "adjust", "preset", "speed", "convert"];
  }

  lemma {:induction false} OrderedBoth(a: seq<string>, b: seq<string>, w: set<string>)
    ensures OrderedFrom(a + b, w) == OrderedFrom(a, w) + OrderedFrom(b, w)
  {
    if a == [] {
      assert a + b == b;
    } else {
      assert (a + b)[1..] == a[1..] + b;
      OrderedBoth(a[1..], b, w);
    }
  }

  lemma OrderedOnly(name: string, w: set<string>)
    ensures OrderedFrom([name], w) == One(name in w, name)
  {
    assert [name][1..] == [];
  }

  lemma OrderedFive(a: string, b: string, c: string, d: string, e: string, w: set<string>)
    ensures OrderedFrom([a, b, c, d, e], w) == One(a in w, a) + One(b in w, b) + One(c in w, c) + One(d in w, d) + One(e in w, e)
  {
    hide OrderedFrom;
    OrderedBoth([a], [b], w);
    OrderedBoth([a, b], [c], w);
    OrderedBoth([a, b, c], [d], w);
    OrderedBoth([a, b, c, d], [e], w);
    assert [a] + [b] == [a, b] && [a, b] + [c] == [a, b, c] && [a, b, c] + [d] == [a, b, c, d];
    assert [a, b, c, d] + [e] == [a, b, c, d, e];
    OrderedOnly(a, w);
    OrderedOnly(b, w);
    OrderedOnly(c, w);
    OrderedOnly(d, w);
    OrderedOnly(e, w);
  }

  /** One more name adds its label, unless it has none or has it already. */
  lemma LabelMore(names: seq<string>, wanted: bool, name: string)
    ensures PictureLabels(names + One(wanted, name))
            == PictureLabels(names)
               + One(wanted && ChangesPicture(name) && LabelOf(name) !in PictureLabels(names), LabelOf(name))
  {
    if wanted {
      assert (names + [name])[..|names|] == names;
    } else {
      assert names + [] == names;
    }
  }

  /** The labels of the picture operations asked for, each once and in order: both
      scalings are "scale" and adjust is "colour". */
  function Labels(w: set<string>): seq<string> {
    One("crop" in w, "crop") + One("rotate" in w, "rotate") + One("flip" in w, "flip")
    + One("downscale" in w || "upscale" in w, "scale") + One("adjust" in w, "colour") + One("preset" in w, "preset")
  }

  /** A name whose label is not there yet. */
  lemma NewLabel(names: seq<string>, labels: seq<string>, wanted: bool, name: string, text: string)
    requires PictureLabels(names) == labels && ChangesPicture(name) && LabelOf(name) == text && text !in labels
    ensures PictureLabels(names + One(wanted, name)) == labels + One(wanted, text)
  {
    hide PictureLabels, ChangesPicture, LabelOf;
    LabelMore(names, wanted, name);
  }

  /** A name without a label. */
  lemma NoLabel(names: seq<string>, wanted: bool, name: string)
    requires !ChangesPicture(name)
    ensures PictureLabels(names + One(wanted, name)) == PictureLabels(names)
  {
    LabelMore(names, wanted, name);
  }

  lemma FirstLabels(clip: bool, crop: bool, rotate: bool, flip: bool)
    ensures PictureLabels(One(clip, "clip") + One(crop, "crop") + One(rotate, "rotate") + One(flip, "flip"))
            == One(crop, "crop") + One(rotate, "rotate") + One(flip, "flip")
  {
    LabelFacts();
    hide PictureLabels, ChangesPicture, LabelOf;
    var a := One(clip, "clip");
    var b := a + One(crop, "crop");
    NoLabels();
    NoLabel([], clip, "clip");
    assert [] + a == a;
    NewLabel(a, [], crop, "crop", "crop");
    assert "rotate"[0] == 'r' && "crop"[0] == 'c' && "flip"[0] == 'f';
    NewLabel(b, One(crop, "crop"), rotate, "rotate", "rotate");
    NewLabel(b + One(rotate, "rotate"), One(crop, "crop") + One(rotate, "rotate"), flip, "flip", "flip");
  }

  lemma ScaleLabels(names: seq<string>, labels: seq<string>, down: bool, up: bool)
    requires PictureLabels(names) == labels && "scale" !in labels
    ensures PictureLabels(names + One(down, "downscale") + One(up, "upscale")) == labels + One(down || up, "scale")
  {
    LabelFacts();
    hide PictureLabels, ChangesPicture, LabelOf;
    NewLabel(names, labels, down, "downscale", "scale");
    LabelMore(names + One(down, "downscale"), up, "upscale");
    if down {
      assert "scale" in labels + One(down, "scale");
    }
  }

  lemma LastLabels(names: seq<string>, labels: seq<string>, adjust: bool, preset: bool, speed: bool, convert: bool)
    requires PictureLabels(names) == labels && "colour" !in labels && "preset" !in labels
    ensures PictureLabels(names + One(adjust, "adjust") + One(preset, "preset") + One(speed, "speed") + One(convert, "convert"))
            == labels + One(adjust, "colour") + One(preset, "preset")
  {
    LabelFacts();
    hide PictureLabels, ChangesPicture, LabelOf;
    var a := names + One(adjust, "adjust");
    NewLabel(names, labels, adjust, "adjust", "colour");
    assert "colour"[0] == 'c' && "preset"[0] == 'p';
    NewLabel(a, labels + One(adjust, "colour"), preset, "preset", "preset");
    NoLabel(a + One(preset, "preset"), speed, "speed");
    NoLabel(a + One(preset, "preset") + One(speed, "speed"), convert, "convert");
  }

  lemma LabelsAre(w: set<string>)
    ensures PictureLabels(Ordered(w)) == Labels(w)
  {
    OrderedIs(w);
    hide Ordered, PictureLabels;
    var first := One("clip" in w, "clip") + One("crop" in w, "crop") + One("rotate" in w, "rotate") + One("flip" in w, "flip");
    var labels := One("crop" in w, "crop") + One("rotate" in w, "rotate") + One("flip" in w, "flip");
    FirstLabels("clip" in w, "crop" in w, "rotate" in w, "flip" in w);
    LabelsApart("crop" in w, "rotate" in w, "flip" in w, "downscale" in w || "upscale" in w);
    hide One;
    ScaleLabels(first, labels, "downscale" in w, "upscale" in w);
    var scaled := first + One("downscale" in w, "downscale") + One("upscale" in w, "upscale");
    LastLabels(scaled, labels + One("downscale" in w || "upscale" in w, "scale"), "adjust" in w, "preset" in w,
               "speed" in w, "convert" in w);
  }

  lemma LabelsApart(crop: bool, rotate: bool, flip: bool, scale: bool)
    ensures var labels := One(crop, "crop") + One(rotate, "rotate") + One(flip, "flip");
            "scale" !in labels && "colour" !in labels + One(scale, "scale") && "preset" !in labels + One(scale, "scale")
  {
    assert "crop"[0] == 'c' && "rotate"[0] == 'r' && "flip"[0] == 'f' && "scale"[0] == 's' && "colour"[1] == 'o' && "preset"[0] == 'p';
    assert |"colour"| != |"crop"|;
  }

  lemma NoLabels()
    ensures PictureLabels([]) == []
  {
  }

  lemma LabelFacts()
    ensures !ChangesPicture("clip") && !ChangesPicture("speed") && !ChangesPicture("convert")
    ensures ChangesPicture("crop") && ChangesPicture("rotate") && ChangesPicture("flip") && ChangesPicture("downscale")
    ensures ChangesPicture("upscale") && ChangesPicture("adjust") && ChangesPicture("preset")
    ensures LabelOf("crop") == "crop" && LabelOf("rotate") == "rotate" && LabelOf("flip") == "flip"
    ensures LabelOf("downscale") == "scale" && LabelOf("upscale") == "scale" && LabelOf("adjust") == "colour"
    ensures LabelOf("preset") == "preset"
  {
    assert "crop"[1] == 'r' && "clip"[1] == 'l' && "flip"[0] == 'f' && "clip"[0] == 'c';
    assert "upscale"[0] == 'u' && "convert"[0] == 'c' && "adjust"[0] == 'a' && "rotate"[0] == 'r' && "preset"[0] == 'p';
  }

  /** A request is refused for its MP3 exactly when it converts to MP3 and asks for
      anything that changes the picture; the refusal names what it asked for. */
  lemma Mp3Refused(named: map<string, Params>, frame: Frame)
    ensures var w, verdict := named.Keys, Verdict(named, frame);
            && (verdict.Some? && verdict.value.NotWithMp3?
                <==> "convert" in named && named["convert"].format == "mp3"
                     && ("crop" in named || "rotate" in named || "flip" in named || "downscale" in named
                         || "upscale" in named || "adjust" in named || "preset" in named))
            && (verdict.Some? && verdict.value.NotWithMp3? ==> verdict.value.labels == Labels(w))
  {
    var w := named.Keys;
    LabelsAre(w);
    OrderedNamesAreThere(OPERATION_ORDER, w);
    assert forall i :: 0 <= i < |Ordered(w)| ==> Ordered(w)[i] in named;
    hide Ordered, PictureLabels;
    CheckNeverMp3(Ordered(w), named, frame);
  }

  lemma {:induction false} CheckNeverMp3(names: seq<string>, named: map<string, Params>, frame: Frame)
    requires forall i :: 0 <= i < |names| ==> names[i] in named
    ensures var r := CheckFrom(names, named, frame); r.Refused? ==> !r.why.NotWithMp3?
  {
    hide ScaledWidth, Known;
    if names != [] && Check(names[0], named[names[0]], frame).Accepted? {
      CheckNeverMp3(names[1..], named, Check(names[0], named[names[0]], frame).value);
    }
  }

  // --- Every other rule ---------------------------------------------------------------

  predicate AllNamed(names: seq<string>, named: map<string, Params>) {
    forall i :: 0 <= i < |names| ==> names[i] in named
  }

  /** The rules of one list of operations and then of another. */
  lemma {:induction false} CheckBoth(a: seq<string>, b: seq<string>, named: map<string, Params>, frame: Frame)
    requires AllNamed(a, named) && AllNamed(b, named)
    ensures AllNamed(a + b, named)
    ensures var r := CheckFrom(a, named, frame);
            CheckFrom(a + b, named, frame) == if r.Refused? then r else CheckFrom(b, named, r.value)
  {
    hide Check;
    if a == [] {
      assert a + b == b;
    } else {
      assert (a + b)[1..] == a[1..] + b;
      var next := Check(a[0], named[a[0]], frame);
      if next.Accepted? {
        CheckBoth(a[1..], b, named, next.value);
      }
    }
  }

  lemma CheckOne(wanted: bool, name: string, named: map<string, Params>, frame: Frame)
    requires wanted ==> name in named
    ensures AllNamed(One(wanted, name), named)
    ensures CheckFrom(One(wanted, name), named, frame) == if wanted then Check(name, named[name], frame) else Accepted(frame)
  {
    hide Check;
    if wanted {
      assert [name][1..] == [];
    }
  }

  lemma CheckNext(names: seq<string>, wanted: bool, name: string, named: map<string, Params>, frame: Frame)
    requires AllNamed(names, named) && (wanted ==> name in named)
    ensures AllNamed(names + One(wanted, name), named)
    ensures var r := CheckFrom(names, named, frame);
            CheckFrom(names + One(wanted, name), named, frame)
            == if r.Accepted? && wanted then Check(name, named[name], r.value) else r
  {
    hide CheckFrom, Check;
    CheckOne(wanted, name, named, frame);
    var r := CheckFrom(names, named, frame);
    if r.Accepted? {
      CheckOne(wanted, name, named, r.value);
    }
    CheckBoth(names, One(wanted, name), named, frame);
  }

  /** An operation that asks nothing of the frame and leaves it as it is. */
  lemma CheckPlain(names: seq<string>, wanted: bool, name: string, named: map<string, Params>, frame: Frame)
    requires AllNamed(names, named) && (wanted ==> name in named)
    requires name in {"clip", "flip", "adjust", "preset", "speed", "convert"}
    ensures AllNamed(names + One(wanted, name), named)
    ensures CheckFrom(names + One(wanted, name), named, frame) == CheckFrom(names, named, frame)
  {
    PlainNames(name);
    hide CheckFrom;
    CheckNext(names, wanted, name, named, frame);
  }

  lemma PlainNames(name: string)
    requires name in {"clip", "flip", "adjust", "preset", "speed", "convert"}
    ensures name != "crop" && name != "rotate" && name != "downscale" && name != "upscale"
  {
    assert "crop"[1] == 'r' && "clip"[1] == 'l' && "flip"[0] == 'f' && "clip"[0] == 'c' && "crop"[0] == 'c';
    assert "upscale"[0] == 'u' && "convert"[0] == 'c' && "adjust"[0] == 'a' && "rotate"[0] == 'r' && "preset"[0] == 'p';
  }

  /** The frame after a crop and a turn, if they are asked for. */
  function Turned(named: map<string, Params>, frame: Frame): Frame {
    var cropped :=
      if "crop" !in named then frame
      else Frame(if named["crop"].w.Some? && named["crop"].w.value > 0 then named["crop"].w else None,
                 if named["crop"].h.Some? && named["crop"].h.value > 0 then named["crop"].h else None);
    if "rotate" in named && named["rotate"].degrees in {Some(90), Some(270)}
    then Frame(cropped.height, cropped.width) else cropped
  }

  /** A height a video can be scaled to. */
  predicate IsRung(h: int) { h in {240, 360, 480, 720, 1080, 1440, 2160} }

  lemma RungsAre(h: int)
    ensures h in SCALE_HEIGHTS <==> IsRung(h)
  {
    assert SCALE_HEIGHTS == [240, 360, 480, 720, 1080, 1440, 2160];
    if IsRung(h) {
      assert h == SCALE_HEIGHTS[0] || h == SCALE_HEIGHTS[1] || h == SCALE_HEIGHTS[2] || h == SCALE_HEIGHTS[3]
             || h == SCALE_HEIGHTS[4] || h == SCALE_HEIGHTS[5] || h == SCALE_HEIGHTS[6];
    }
  }

  /** The refusal of a scaling by itself, on a picture of this height. */
  function ScaleRefused(name: string, height: Option<int>, on: Option<int>, wrong: (int, int) -> bool,
                        refusal: (int, int) -> Refusal): Option<Refusal> {
    if height.None? then Some(NotWhole(name))
    else if !IsRung(height.value) then Some(NotARung(name))
    else if on.Some? && wrong(height.value, on.value) then Some(refusal(height.value, on.value))
    else None
  }

  lemma FirstChecks(w: set<string>, named: map<string, Params>, frame: Frame)
    requires w == named.Keys
    ensures var names := One("clip" in w, "clip") + One("crop" in w, "crop") + One("rotate" in w, "rotate") + One("flip" in w, "flip");
            && AllNamed(names, named)
            && CheckFrom(names, named, frame)
               == if "rotate" in named && named["rotate"].degrees.None? then Refused(MissingParameter("rotate"))
                  else Accepted(Turned(named, frame))
  {
    hide CheckFrom;
    var a := One("clip" in w, "clip");
    var b := a + One("crop" in w, "crop");
    CheckOne("clip" in w, "clip", named, frame);
    PlainNames("clip");
    CheckNext(a, "crop" in w, "crop", named, frame);
    CheckNext(b, "rotate" in w, "rotate", named, frame);
    CheckPlain(b + One("rotate" in w, "rotate"), "flip" in w, "flip", named, frame);
    assert "rotate" != "crop" by { assert "rotate"[0] == 'r'; }
  }

  /** What scaling a picture of this height says. */
  function ScaleSays(named: map<string, Params>, on: Option<int>): Option<Refusal> {
    var down := if "downscale" in named
                then ScaleRefused("downscale", named["downscale"].height, on, (t, h) => t >= h, (t, h) => NotSmaller(t, h))
                else None;
    if down.Some? then down
    else if "upscale" in named
    then ScaleRefused("upscale", named["upscale"].height, if "downscale" in named then named["downscale"].height else on,
                      (t, h) => t <= h, (t, h) => NotLarger(t, h))
    else None
  }

  lemma OneScaling(name: string, params: Params, frame: Frame)
    requires name == "downscale" || name == "upscale"
    ensures var r := Check(name, params, frame);
            var no := if name == "downscale"
                      then ScaleRefused(name, params.height, frame.height, (t, h) => t >= h, (t, h) => NotSmaller(t, h))
                      else ScaleRefused(name, params.height, frame.height, (t, h) => t <= h, (t, h) => NotLarger(t, h));
            if no.Some? then r == Refused(no.value) else r.Accepted? && r.value.height == params.height
  {
    hide ScaledWidth, IsRung;
    if params.height.Some? {
      RungsAre(params.height.value);
    }
    assert |"downscale"| == 9 && |"upscale"| == 7;
  }

  lemma ScaleChecks(names: seq<string>, named: map<string, Params>, frame: Frame)
    requires AllNamed(names, named) && CheckFrom(names, named, frame).Accepted?
    ensures var all := names + One("downscale" in named, "downscale") + One("upscale" in named, "upscale");
            && AllNamed(all, named)
            && var r := CheckFrom(all, named, frame);
               var no := ScaleSays(named, CheckFrom(names, named, frame).value.height);
               if no.Some? then r == Refused(no.value) else r.Accepted?
  {
    hide CheckFrom, Check, ScaleRefused;
    var r := CheckFrom(names, named, frame);
    CheckNext(names, "downscale" in named, "downscale", named, frame);
    CheckNext(names + One("downscale" in named, "downscale"), "upscale" in named, "upscale", named, frame);
    if "downscale" in named {
      OneScaling("downscale", named["downscale"], r.value);
      var s := Check("downscale", named["downscale"], r.value);
      if "upscale" in named && s.Accepted? {
        OneScaling("upscale", named["upscale"], s.value);
      }
    } else if "upscale" in named {
      OneScaling("upscale", named["upscale"], r.value);
    }
  }

  /** What a request that is not refused for its MP3 is refused for: a turn without an
      angle, then a downscale that is no rung or not smaller than the picture it gets,
      then an upscale that is no rung or not larger than the picture it gets. */
  lemma RefusedFor(named: map<string, Params>, frame: Frame)
    requires var verdict := Verdict(named, frame); verdict.Some? ==> !verdict.value.NotWithMp3?
    ensures Verdict(named, frame)
            == if "rotate" in named && named["rotate"].degrees.None? then Some(MissingParameter("rotate"))
               else ScaleSays(named, Turned(named, frame).height)
  {
    var w := named.Keys;
    OrderedIs(w);
    OrderedNamesAreThere(OPERATION_ORDER, w);
    hide CheckFrom, ScaleSays, Turned, Ordered, PictureLabels, One;
    var first := One("clip" in w, "clip") + One("crop" in w, "crop") + One("rotate" in w, "rotate") + One("flip" in w, "flip");
    FirstChecks(w, named, frame);
    var scaled := first + One("downscale" in named, "downscale") + One("upscale" in named, "upscale");
    CheckNext(first, "downscale" in w, "downscale", named, frame);
    CheckNext(first + One("downscale" in w, "downscale"), "upscale" in w, "upscale", named, frame);
    if CheckFrom(first, named, frame).Accepted? {
      ScaleChecks(first, named, frame);
    }
    var a := scaled + One("adjust" in w, "adjust");
    var b := a + One("preset" in w, "preset");
    var c := b + One("speed" in w, "speed");
    CheckPlain(scaled, "adjust" in w, "adjust", named, frame);
    CheckPlain(a, "preset" in w, "preset", named, frame);
    CheckPlain(b, "speed" in w, "speed", named, frame);
    CheckPlain(c, "convert" in w, "convert", named, frame);
  }

  // --- The filters of an accepted request ---------------------------------------------------

  lemma {:induction false} ChainBoth(build: Builders, a: seq<string>, b: seq<string>, named: map<string, Params>,
                                     frame: Frame, chain: FilterChain)
    requires AllNamed(a, named) && AllNamed(b, named) && CheckFrom(a, named, frame).Accepted?
    ensures var r := Chained(build, a, named, frame, chain);
            r.Accepted? && Chained(build, a + b, named, frame, chain) == Chained(build, b, named, CheckFrom(a, named, frame).value, r.value)
    decreases |a|
  {
    hide Check, StepOf, Extended;
    if a == [] {
      assert a + b == b;
    } else {
      assert (a + b)[1..] == a[1..] + b;
      var next := Check(a[0], named[a[0]], frame);
      ChainBoth(build, a[1..], b, named, next.value, Extended(chain, a[0], StepOf(build, a[0], named[a[0]], frame)));
    }
  }

  /** What one operation, if it is asked for, builds on this frame. */
  function StepIf(build: Builders, name: string, named: map<string, Params>, frame: Frame): FilterStep {
    if name in named then build(name, named[name], frame) else FilterStep([], [])
  }

  ghost predicate ChainIsNow(build: Builders, names: seq<string>, named: map<string, Params>, start: Frame, frame: Frame,
                             chain: FilterChain) {
    && AllNamed(names, named) && CheckFrom(names, named, start) == Accepted(frame)
    && Chained(build, names, named, start, FilterChain([], [], [])) == Accepted(chain)
  }

  lemma ChainOne(build: Builders, name: string, named: map<string, Params>, frame: Frame, chain: FilterChain)
    requires name in named && Check(name, named[name], frame).Accepted?
    ensures Chained(build, [name], named, frame, chain) == Accepted(Extended(chain, name, StepOf(build, name, named[name], frame)))
  {
    hide Check, StepOf, Extended;
    assert [name][1..] == [];
  }

  /** One more operation's filters, on their side of the tone-map. */
  lemma ChainNext(build: Builders, names: seq<string>, name: string, named: map<string, Params>, start: Frame, frame: Frame,
                  chain: FilterChain)
    requires ChainIsNow(build, names, named, start, frame, chain)
    requires name in named ==> Check(name, named[name], frame).Accepted?
    ensures var step := StepIf(build, name, named, frame);
            var all, next := names + One(name in named, name), if name in named then Check(name, named[name], frame).value else frame;
            && (name in {"clip", "convert"} ==> ChainIsNow(build, all, named, start, next, chain))
            && (name in {"crop", "rotate", "flip", "downscale", "upscale"} ==>
                  ChainIsNow(build, all, named, start, next, FilterChain(chain.before + step.video, chain.after, chain.audio + step.audio)))
            && (name in {"adjust", "preset", "speed"} ==>
                  ChainIsNow(build, all, named, start, next, FilterChain(chain.before, chain.after + step.video, chain.audio + step.audio)))
  {
    SideOf(name);
    hide Check, ToneMapped, Chained, CheckFrom;
    CheckNext(names, name in named, name, named, start);
    if name in named {
      CheckOne(true, name, named, frame);
      ChainBoth(build, names, [name], named, start, FilterChain([], [], []));
      ChainOne(build, name, named, frame, chain);
    } else {
      assert names + [] == names;
    }
    assert chain.before + [] == chain.before && chain.after + [] == chain.after && chain.audio + [] == chain.audio;
  }

  /** Which operations have filters, and which work on the tone-mapped picture. */
  lemma SideOf(name: string)
    ensures name in {"clip", "convert"} ==> name !in FILTERS
    ensures name in {"adjust", "preset", "speed"} ==> name in FILTERS && ToneMapped(name)
    ensures name in {"crop", "rotate", "flip", "downscale", "upscale"} ==> name in FILTERS && !ToneMapped(name)
  {
    MappedAt();
    NoFilters();
    hide ToneMapped;
  }

  lemma MappedAt()
    ensures !ToneMapped("crop") && !ToneMapped("rotate") && !ToneMapped("flip") && !ToneMapped("downscale") && !ToneMapped("upscale")
    ensures ToneMapped("adjust") && ToneMapped("preset") && ToneMapped("speed")
  {
    NamesDiffer();
    hide IndexOf;
    IndexOfAt(OPERATION_ORDER, 1);
    IndexOfAt(OPERATION_ORDER, 2);
    IndexOfAt(OPERATION_ORDER, 3);
    IndexOfAt(OPERATION_ORDER, 4);
    IndexOfAt(OPERATION_ORDER, 5);
    IndexOfAt(OPERATION_ORDER, 6);
    IndexOfAt(OPERATION_ORDER, 7);
    IndexOfAt(OPERATION_ORDER, 8);
  }

  lemma NoFilters()
    ensures "clip" !in FILTERS && "convert" !in FILTERS
  {
    PlainNames("clip");
    PlainNames("convert");
    assert |"convert"| == 7 && "upscale"[0] == 'u' && "convert"[0] == 'c' && |"clip"| == 4 && "flip"[0] == 'f' && "clip"[0] == 'c';
  }

  /** The frame after a crop. */
  function Cropped(named: map<string, Params>, frame: Frame): Frame {
    Turned(named - {"rotate"}, frame)
  }

  /** The frame after a scaling, if it is asked for. */
  function Scaled(name: string, named: map<string, Params>, frame: Frame): Frame {
    if name in named && named[name].height.Some?
    then Frame(ScaledWidth(frame, named[name].height.value), named[name].height) else frame
  }

  lemma CropAndTurn(named: map<string, Params>, frame: Frame)
    requires "rotate" in named ==> named["rotate"].degrees.Some?
    ensures var cropped := Cropped(named, frame);
            && (if "crop" in named then Check("crop", named["crop"], frame) == Accepted(cropped) else cropped == frame)
            && (if "rotate" in named then Check("rotate", named["rotate"], cropped) == Accepted(Turned(named, frame))
                else Turned(named, frame) == cropped)
  {
    assert "rotate"[0] == 'r' && "crop"[0] == 'c';
  }

  lemma Scales(named: map<string, Params>, frame: Frame)
    requires ScaleSays(named, frame.height) == None
    ensures var down := Scaled("downscale", named, frame);
            && ("downscale" in named ==> Check("downscale", named["downscale"], frame) == Accepted(down))
            && ("upscale" in named ==> Check("upscale", named["upscale"], down) == Accepted(Scaled("upscale", named, down)))
  {
    hide ScaledWidth;
    if "downscale" in named {
      OneScaling("downscale", named["downscale"], frame);
    }
    if "upscale" in named {
      OneScaling("upscale", named["upscale"], Scaled("downscale", named, frame));
    }
  }

  lemma NothingNow(build: Builders, named: map<string, Params>, frame: Frame)
    ensures ChainIsNow(build, [], named, frame, frame, FilterChain([], [], []))
  {
  }

  /** Those that leave the frame as it is. */
  lemma PlainChecks(name: string, named: map<string, Params>, frame: Frame)
    requires name in {"clip", "flip", "adjust", "preset", "speed", "convert"} && name in named
    ensures Check(name, named[name], frame) == Accepted(frame)
  {
    PlainNames(name);
  }

  lemma FirstBuilt(build: Builders, named: map<string, Params>, frame: Frame)
    requires "rotate" in named ==> named["rotate"].degrees.Some?
    ensures var crop, rotate := StepIf(build, "crop", named, frame), StepIf(build, "rotate", named, Cropped(named, frame));
            var flip := StepIf(build, "flip", named, Turned(named, frame));
            ChainIsNow(build, One("clip" in named, "clip") + One("crop" in named, "crop") + One("rotate" in named, "rotate")
                              + One("flip" in named, "flip"), named, frame, Turned(named, frame),
                       FilterChain([] + crop.video + rotate.video + flip.video, [], [] + crop.audio + rotate.audio + flip.audio))
  {
    CropAndTurn(named, frame);
    hide Check, Turned, Cropped, StepIf, ChainIsNow, One;
    var none := FilterChain([], [], []);
    NothingNow(build, named, frame);
    if "clip" in named { PlainChecks("clip", named, frame); }
    ChainNext(build, [], "clip", named, frame, frame, none);
    var a := One("clip" in named, "clip");
    assert [] + a == a;
    ChainNext(build, a, "crop", named, frame, frame, none);
    var crop := StepIf(build, "crop", named, frame);
    var one := FilterChain([] + crop.video, [], [] + crop.audio);
    ChainNext(build, a + One("crop" in named, "crop"), "rotate", named, frame, Cropped(named, frame), one);
    var rotate := StepIf(build, "rotate", named, Cropped(named, frame));
    var two := FilterChain([] + crop.video + rotate.video, [], [] + crop.audio + rotate.audio);
    if "flip" in named { PlainChecks("flip", named, Turned(named, frame)); }
    ChainNext(build, a + One("crop" in named, "crop") + One("rotate" in named, "rotate"), "flip", named, frame, Turned(named, frame), two);
  }
  lemma ScalesBuilt(build: Builders, names: seq<string>, named: map<string, Params>, start: Frame, frame: Frame, chain: FilterChain)
    requires ChainIsNow(build, names, named, start, frame, chain) && ScaleSays(named, frame.height) == None
    ensures var down := Scaled("downscale", named, frame);
            var smaller, larger := StepIf(build, "downscale", named, frame), StepIf(build, "upscale", named, down);
            ChainIsNow(build, names + One("downscale" in named, "downscale") + One("upscale" in named, "upscale"), named, start,
                       Scaled("upscale", named, down),
                       FilterChain(chain.before + smaller.video + larger.video, chain.after, chain.audio + smaller.audio + larger.audio))
  {
    Scales(named, frame);
    var down := Scaled("downscale", named, frame);
    assert "downscale" !in named ==> down == frame;
    assert "upscale" !in named ==> Scaled("upscale", named, down) == down;
    hide Check, ScaleSays, Scaled, StepIf, ChainIsNow, One;
    var smaller := StepIf(build, "downscale", named, frame);
    ChainNext(build, names, "downscale", named, start, frame, chain);
    ChainNext(build, names + One("downscale" in named, "downscale"), "upscale", named, start, down,
              FilterChain(chain.before + smaller.video, chain.after, chain.audio + smaller.audio));
  }

  lemma LastBuilt(build: Builders, names: seq<string>, named: map<string, Params>, start: Frame, frame: Frame, chain: FilterChain)
    requires ChainIsNow(build, names, named, start, frame, chain)
    ensures var adjust, preset := StepIf(build, "adjust", named, frame), StepIf(build, "preset", named, frame);
            var speed := StepIf(build, "speed", named, frame);
            ChainIsNow(build, names + One("adjust" in named, "adjust") + One("preset" in named, "preset") + One("speed" in named, "speed")
                              + One("convert" in named, "convert"), named, start, frame,
                       FilterChain(chain.before, chain.after + adjust.video + preset.video + speed.video,
                                   chain.audio + adjust.audio + preset.audio + speed.audio))
  {
    forall name | name in {"adjust", "preset", "speed", "convert"} && name in named
      ensures Check(name, named[name], frame) == Accepted(frame)
    {
      PlainChecks(name, named, frame);
    }
    hide Check, StepIf, ChainIsNow, One;
    var adjust, preset, speed := StepIf(build, "adjust", named, frame), StepIf(build, "preset", named, frame),
                                 StepIf(build, "speed", named, frame);
    var a := names + One("adjust" in named, "adjust");
    var b := a + One("preset" in named, "preset");
    var c := FilterChain(chain.before, chain.after + adjust.video, chain.audio + adjust.audio);
    var d := FilterChain(chain.before, chain.after + adjust.video + preset.video, chain.audio + adjust.audio + preset.audio);
    ChainNext(build, names, "adjust", named, start, frame, chain);
    ChainNext(build, a, "preset", named, start, frame, c);
    ChainNext(build, b, "speed", named, start, frame, d);
    ChainNext(build, b + One("speed" in named, "speed"), "convert", named, start, frame,
              FilterChain(d.before, d.after + speed.video, d.audio + speed.audio));
  }

  /** The filters of an accepted request, whatever the builders: those of crop, rotate,
      flip and the scalings in that order before the tone-map, those of adjust, preset
      and speed after it, each built once, on the picture the ones before it leave. */
  lemma BuiltInOrder(build: Builders, named: map<string, Params>, frame: Frame)
    requires Verdict(named, frame) == None
    ensures var turned := Turned(named, frame);
            var down := Scaled("downscale", named, turned);
            var up := Scaled("upscale", named, down);
            var crop, rotate := StepIf(build, "crop", named, frame), StepIf(build, "rotate", named, Cropped(named, frame));
            var flip := StepIf(build, "flip", named, turned);
            var smaller, larger := StepIf(build, "downscale", named, turned), StepIf(build, "upscale", named, down);
            var adjust, preset, speed := StepIf(build, "adjust", named, up), StepIf(build, "preset", named, up),
                                         StepIf(build, "speed", named, up);
            Chained(build, Ordered(named.Keys), named, frame, FilterChain([], [], []))
            == Accepted(FilterChain(
                 [] + crop.video + rotate.video + flip.video + smaller.video + larger.video,
                 [] + adjust.video + preset.video + speed.video,
                 [] + crop.audio + rotate.audio + flip.audio + smaller.audio + larger.audio
                 + adjust.audio + preset.audio + speed.audio))
  {
    RefusedFor(named, frame);
    OrderedIs(named.Keys);
    hide Verdict, ScaleSays, Turned, Cropped, Scaled, StepIf, Ordered, One, CheckFrom, Chained;
    var turned := Turned(named, frame);
    var crop, rotate := StepIf(build, "crop", named, frame), StepIf(build, "rotate", named, Cropped(named, frame));
    var flip := StepIf(build, "flip", named, turned);
    var first := One("clip" in named, "clip") + One("crop" in named, "crop") + One("rotate" in named, "rotate")
                 + One("flip" in named, "flip");
    FirstBuilt(build, named, frame);
    var chain := FilterChain([] + crop.video + rotate.video + flip.video, [], [] + crop.audio + rotate.audio + flip.audio);
    ScalesBuilt(build, first, named, frame, turned, chain);
    var down := Scaled("downscale", named, turned);
    var smaller, larger := StepIf(build, "downscale", named, turned), StepIf(build, "upscale", named, down);
    LastBuilt(build, first + One("downscale" in named, "downscale") + One("upscale" in named, "upscale"), named, frame,
              Scaled("upscale", named, down),
              FilterChain(chain.before + smaller.video + larger.video, chain.after, chain.audio + smaller.audio + larger.audio));
  }
}
