/** What a player reads in the entries of a master playlist: those that
    `add_to_master` adds (app/worker/renditions.py) and those that `write_master`
    writes (app/worker/ladder_pieces.py). */
module MasterAttributes {
  import opened Prelude
  import opened Text
  import opened MasterText
  import opened MasterPlaylist
  import opened MasterListing
  import opened AttributeList
  import opened Rounding
  import LadderJoin
  import LadderMaster

  const TAG := "#EXT-X-STREAM-INF:"

  function AudioAttributes(audio: Option<string>): seq<Attribute> {
    if audio.Some? then [Quoted("AUDIO", audio.value)] else []
  }

  function RateAttributes(rate: Option<string>): seq<Attribute> {
    if rate.Some? then [Bare("FRAME-RATE", rate.value)] else []
  }

  lemma NothingReads()
    ensures ReadList("") == []
  {
  }

  lemma NumberChars(s: string)
    requires s != "" && forall c :: c in s ==> IsRate(c)
    ensures ',' !in s && s[0] != '"'
  {
    assert s[0] in s && !IsRate(',') && !IsRate('"');
  }

  lemma RateReads(rate: Option<string>)
    requires IsNumber(rate)
    ensures Follows(RatePart(rate)) && ReadList(Rest(RatePart(rate))) == RateAttributes(rate)
  {
    NothingReads();
    hide ReadList;
    if rate.Some? {
      NumberChars(rate.value);
      assert '=' !in "FRAME-RATE";
      BareReads("FRAME-RATE", rate.value, "");
      assert RatePart(rate)[1..] == "FRAME-RATE" + "=" + (rate.value + "");
    }
  }

  /** The audio group and the frame rate at a line's end. */
  lemma SharedReads(audio: string, t: string)
    requires '"' !in audio && Follows(t)
    ensures ReadList(AUDIO_IS + audio + "\"" + t) == [Quoted("AUDIO", audio)] + ReadList(Rest(t))
  {
    hide ReadList;
    assert '=' !in "AUDIO";
    QuotedReads("AUDIO", audio, t);
    assert AUDIO_IS + audio + "\"" + t == "AUDIO" + "=" + ("\"" + (audio + "\"" + t));
  }

  function SharedPart(audio: Option<string>, rate: Option<string>): string {
    if audio.Some? then "," + (AUDIO_IS + audio.value + "\"" + RatePart(rate)) else RatePart(rate)
  }

  lemma SharedPartReads(audio: Option<string>, rate: Option<string>)
    requires IsGroup(audio) && IsNumber(rate)
    ensures Follows(SharedPart(audio, rate))
    ensures ReadList(Rest(SharedPart(audio, rate))) == AudioAttributes(audio) + RateAttributes(rate)
  {
    RateReads(rate);
    hide ReadList, RatePart;
    if audio.Some? {
      SharedReads(audio.value, RatePart(rate));
      assert SharedPart(audio, rate)[1..] == AUDIO_IS + audio.value + "\"" + RatePart(rate);
    }
  }

  predicate IsValue(s: string) { ',' !in s && (s == "" || s[0] != '"') }

  lemma OneMore(name: string, text: string, t: string, more: seq<Attribute>)
    requires '=' !in name && IsValue(text) && Follows(t) && ReadList(Rest(t)) == more
    ensures var s := "," + (name + "=" + (text + t)); Follows(s) && ReadList(Rest(s)) == [Bare(name, text)] + more
  {
    hide ReadList;
    BareReads(name, text, t);
    assert ("," + (name + "=" + (text + t)))[1..] == name + "=" + (text + t);
  }

  lemma QuotedMore(name: string, text: string, t: string, more: seq<Attribute>)
    requires '=' !in name && '"' !in text && Follows(t) && ReadList(Rest(t)) == more
    ensures var s := "," + (name + "=" + ("\"" + (text + "\"" + t))); Follows(s) && ReadList(Rest(s)) == [Quoted(name, text)] + more
  {
    hide ReadList;
    QuotedReads(name, text, t);
    assert ("," + (name + "=" + ("\"" + (text + "\"" + t))))[1..] == name + "=" + ("\"" + (text + "\"" + t));
  }

  /** A line that begins with the two bandwidths, a resolution and the codecs. */
  function Line(peak: string, average: string, size: string, codecs: string, t: string): string {
    (TAG + "BANDWIDTH=" + peak + (",AVERAGE-BANDWIDTH=" + average + (",RESOLUTION=" + size + ",CODECS=")))
    + "\"" + (codecs + "\"" + t)
  }

  function Codecs3(codecs: string, t: string): string { "," + ("CODECS" + "=" + ("\"" + (codecs + "\"" + t))) }

  function Size2(size: string, s: string): string { "," + ("RESOLUTION" + "=" + (size + s)) }

  function Average1(average: string, s: string): string { "," + ("AVERAGE-BANDWIDTH" + "=" + (average + s)) }

  lemma Regroup(a: string, b: string, c: string)
    ensures a + b + c == a + (b + c)
  {
  }

  lemma TagPart(s: string)
    ensures TAG + "BANDWIDTH=" + s == TAG + ("BANDWIDTH" + "=" + s)
  {
    assert "BANDWIDTH=" == "BANDWIDTH" + "=";
    Regroup(TAG, "BANDWIDTH=", s);
  }

  lemma AveragePart(s: string)
    ensures ",AVERAGE-BANDWIDTH=" + s == "," + ("AVERAGE-BANDWIDTH" + "=" + s)
  {
    assert ",AVERAGE-BANDWIDTH=" == "," + ("AVERAGE-BANDWIDTH" + "=");
    Regroup(",", "AVERAGE-BANDWIDTH" + "=", s);
  }

  lemma SizePart(s: string)
    ensures ",RESOLUTION=" + s == "," + ("RESOLUTION" + "=" + s)
  {
    assert ",RESOLUTION=" == "," + ("RESOLUTION" + "=");
    Regroup(",", "RESOLUTION" + "=", s);
  }

  lemma CodecsPart(s: string)
    ensures ",CODECS=" + s == "," + ("CODECS" + "=" + s)
  {
    assert ",CODECS=" == "," + ("CODECS" + "=");
    Regroup(",", "CODECS" + "=", s);
  }

  lemma LineParts(peak: string, average: string, size: string, codecs: string, t: string)
    ensures Line(peak, average, size, codecs, t)
            == TAG + ("BANDWIDTH" + "=" + (peak + Average1(average, Size2(size, Codecs3(codecs, t)))))
  {
    var quoted := codecs + "\"" + t;
    var sized := ",RESOLUTION=" + size + ",CODECS=";
    var averaged := ",AVERAGE-BANDWIDTH=" + average + sized;
    Regroup(TAG + "BANDWIDTH=" + peak + averaged, "\"", quoted);
    Regroup(TAG + "BANDWIDTH=" + peak, averaged, "\"" + quoted);
    Regroup(",AVERAGE-BANDWIDTH=" + average, sized, "\"" + quoted);
    Regroup(",RESOLUTION=" + size, ",CODECS=", "\"" + quoted);
    CodecsPart("\"" + quoted);
    Regroup(",RESOLUTION=", size, Codecs3(codecs, t));
    SizePart(size + Codecs3(codecs, t));
    Regroup(",AVERAGE-BANDWIDTH=", average, Size2(size, Codecs3(codecs, t)));
    AveragePart(average + Size2(size, Codecs3(codecs, t)));
    Regroup(TAG + "BANDWIDTH=", peak, Average1(average, Size2(size, Codecs3(codecs, t))));
    TagPart(peak + Average1(average, Size2(size, Codecs3(codecs, t))));
  }

  lemma LineReads(peak: string, average: string, size: string, codecs: string, t: string, more: seq<Attribute>)
    requires IsValue(peak) && IsValue(average) && IsValue(size) && '"' !in codecs
    requires Follows(t) && ReadList(Rest(t)) == more
    ensures Attributes(Line(peak, average, size, codecs, t), TAG)
            == [Bare("BANDWIDTH", peak), Bare("AVERAGE-BANDWIDTH", average), Bare("RESOLUTION", size), Quoted("CODECS", codecs)] + more
  {
    hide ReadList, Line, IsValue;
    LineParts(peak, average, size, codecs, t);
    assert '=' !in "CODECS" && '=' !in "RESOLUTION" && '=' !in "AVERAGE-BANDWIDTH" && '=' !in "BANDWIDTH";
    QuotedMore("CODECS", codecs, t, more);
    OneMore("RESOLUTION", size, Codecs3(codecs, t), [Quoted("CODECS", codecs)] + more);
    OneMore("AVERAGE-BANDWIDTH", average, Size2(size, Codecs3(codecs, t)), [Bare("RESOLUTION", size)] + ([Quoted("CODECS", codecs)] + more));
    hide Size2, Codecs3, Average1;
    var s := Average1(average, Size2(size, Codecs3(codecs, t)));
    IsValueIs(peak);
    BareReads("BANDWIDTH", peak, s);
    TagDropped("BANDWIDTH" + "=" + (peak + s));
  }

  lemma IsValueIs(s: string)
    requires IsValue(s)
    ensures ',' !in s && (s == "" || s[0] != '"')
  {
  }

  lemma TagDropped(s: string)
    ensures StartsWith(TAG + s, TAG) && (TAG + s)[|TAG|..] == s
  {
  }

  // --- An added rendition ---------------------------------------------------------------

  /** What a player is to know of a rendition: its own rates with 128 kbit/s for the
      audio, its size, its codecs with the audio's if there is one, its range, and the
      audio group and frame rate that it shares. */
  function Shown(r: Rendition, audio: Option<string>, rate: Option<string>): seq<Attribute> {
    [Bare("BANDWIDTH", Digits(r.peak + 128000)), Bare("AVERAGE-BANDWIDTH", Digits(r.average + 128000)),
     Bare("RESOLUTION", Digits(r.width) + "x" + Digits(r.rung)),
     Quoted("CODECS", if audio.Some? then r.plan.codecs + ",mp4a.40.2" else r.plan.codecs)]
    + ([Bare("VIDEO-RANGE", r.plan.videoRange)] + (AudioAttributes(audio) + RateAttributes(rate)))
  }

  lemma DigitsAreValues(n: nat)
    ensures IsValue(Digits(n))
  {
    assert !IsDigit(',') && !IsDigit('"') && Digits(n)[0] in Digits(n);
  }

  lemma SizeIsValue(a: string, b: string)
    requires IsValue(a) && IsValue(b)
    ensures IsValue(a + "x" + b)
  {
    assert ',' !in "x";
  }

  lemma TailReads(r: Rendition, audio: Option<string>, rate: Option<string>)
    requires PlainPlan(r.plan) && ',' !in r.plan.videoRange && IsGroup(audio) && IsNumber(rate)
    ensures var t := InfoTail(r, audio, rate);
            Follows(t) && ReadList(Rest(t)) == [Bare("VIDEO-RANGE", r.plan.videoRange)] + (AudioAttributes(audio) + RateAttributes(rate))
  {
    var range, part := r.plan.videoRange, SharedPart(audio, rate);
    SharedPartReads(audio, rate);
    RangeIsValue(range);
    TailIs(r, audio, rate);
    hide *;
    OneMore("VIDEO-RANGE", range, part, AudioAttributes(audio) + RateAttributes(rate));
    RangePart(range, part);
  }

  lemma RangeIsValue(range: string)
    requires Plain(range) && ',' !in range
    ensures IsValue(range) && '=' !in "VIDEO-RANGE"
  {
    assert range != "" ==> PlainChar(range[0]);
  }

  lemma TailIs(r: Rendition, audio: Option<string>, rate: Option<string>)
    ensures InfoTail(r, audio, rate) == (",VIDEO-RANGE=" + r.plan.videoRange) + SharedPart(audio, rate)
  {
  }

  lemma RangePart(range: string, part: string)
    ensures (",VIDEO-RANGE=" + range) + part == "," + ("VIDEO-RANGE" + "=" + (range + part))
  {
  }

  lemma InfoIs(r: Rendition, audio: Option<string>, rate: Option<string>)
    ensures Info(r, audio, rate)
            == Line(Digits(r.peak + 128000), Digits(r.average + 128000), Digits(r.width) + "x" + Digits(r.rung),
                    Codecs(r, audio), InfoTail(r, audio, rate))
  {
    hide Digits, Codecs, InfoTail;
    assert "#EXT-X-STREAM-INF:BANDWIDTH=" == TAG + "BANDWIDTH=";
  }

  lemma SizesAreValues(r: Rendition)
    ensures IsValue(Digits(r.peak + 128000)) && IsValue(Digits(r.average + 128000))
    ensures IsValue(Digits(r.width) + "x" + Digits(r.rung))
  {
    hide IsValue, Digits;
    DigitsAreValues(r.peak + 128000);
    DigitsAreValues(r.average + 128000);
    DigitsAreValues(r.width);
    DigitsAreValues(r.rung);
    SizeIsValue(Digits(r.width), Digits(r.rung));
  }

  /** A new entry's attributes, all of them and in order. */
  lemma InfoReads(r: Rendition, audio: Option<string>, rate: Option<string>)
    requires PlainPlan(r.plan) && ',' !in r.plan.videoRange && IsGroup(audio) && IsNumber(rate)
    ensures Attributes(Info(r, audio, rate), TAG) == Shown(r, audio, rate)
  {
    hide Attributes, ReadList, Line, Info, InfoTail, Codecs, Digits, IsValue, PlainPlan, IsGroup, IsNumber;
    SizesAreValues(r);
    CodecsUnquoted(r, audio);
    TailReads(r, audio, rate);
    InfoIs(r, audio, rate);
    LineReads(Digits(r.peak + 128000), Digits(r.average + 128000), Digits(r.width) + "x" + Digits(r.rung),
              Codecs(r, audio), InfoTail(r, audio, rate),
              [Bare("VIDEO-RANGE", r.plan.videoRange)] + (AudioAttributes(audio) + RateAttributes(rate)));
  }

  lemma CodecsUnquoted(r: Rendition, audio: Option<string>)
    requires PlainPlan(r.plan)
    ensures '"' !in Codecs(r, audio)
    ensures Codecs(r, audio) == if audio.Some? then r.plan.codecs + ",mp4a.40.2" else r.plan.codecs
  {
    assert '"' !in ",mp4a.40.2";
  }

  /** The text of the attribute with this name. */
  function TextOf(attributes: seq<Attribute>, name: string): Option<string> {
    if attributes == [] then None
    else if attributes[0].name == name then Some(attributes[0].text) else TextOf(attributes[1..], name)
  }

  function NumberOf(attributes: seq<Attribute>, name: string): Option<nat> {
    var text := TextOf(attributes, name);
    if text.Some? && text.value != "" && AllDigits(text.value) then Some(Value(text.value)) else None
  }

  lemma {:induction false} TextOfRest(attributes: seq<Attribute>, more: seq<Attribute>, name: string)
    ensures TextOf(attributes + more, name)
            == if TextOf(attributes, name).Some? then TextOf(attributes, name) else TextOf(more, name)
  {
    if attributes == [] {
      assert attributes + more == more;
    } else {
      assert (attributes + more)[1..] == attributes[1..] + more;
      TextOfRest(attributes[1..], more, name);
    }
  }

  /** By name: what each attribute of the new entry says. */
  lemma ShownByName(r: Rendition, audio: Option<string>, rate: Option<string>)
    ensures var a := Shown(r, audio, rate);
            && NumberOf(a, "BANDWIDTH") == Some(r.peak + 128000)
            && NumberOf(a, "AVERAGE-BANDWIDTH") == Some(r.average + 128000)
            && TextOf(a, "RESOLUTION") == Some(Digits(r.width) + "x" + Digits(r.rung))
            && TextOf(a, "CODECS") == Some(r.plan.codecs + if audio.Some? then ",mp4a.40.2" else "")
            && TextOf(a, "VIDEO-RANGE") == Some(r.plan.videoRange)
            && TextOf(a, "AUDIO") == audio && TextOf(a, "FRAME-RATE") == rate
  {
    hide Value, Digits, AllDigits, TextOf, AudioAttributes, RateAttributes;
    assert r.plan.codecs + "" == r.plan.codecs;
    ShowsShared(audio, rate);
    FiveNames(Digits(r.peak + 128000), Digits(r.average + 128000), Digits(r.width) + "x" + Digits(r.rung),
              if audio.Some? then r.plan.codecs + ",mp4a.40.2" else r.plan.codecs, r.plan.videoRange,
              AudioAttributes(audio) + RateAttributes(rate));
    ValueOfDigits(r.peak + 128000);
    ValueOfDigits(r.average + 128000);
  }

  lemma FiveNames(peak: string, average: string, size: string, codecs: string, range: string, more: seq<Attribute>)
    ensures var a := [Bare("BANDWIDTH", peak), Bare("AVERAGE-BANDWIDTH", average), Bare("RESOLUTION", size), Quoted("CODECS", codecs)]
                     + ([Bare("VIDEO-RANGE", range)] + more);
            && TextOf(a, "BANDWIDTH") == Some(peak) && TextOf(a, "AVERAGE-BANDWIDTH") == Some(average)
            && TextOf(a, "RESOLUTION") == Some(size) && TextOf(a, "CODECS") == Some(codecs)
            && TextOf(a, "VIDEO-RANGE") == Some(range) && TextOf(a, "AUDIO") == TextOf(more, "AUDIO")
            && TextOf(a, "FRAME-RATE") == TextOf(more, "FRAME-RATE")
  {
    hide TextOf;
    var a, b, c := Bare("BANDWIDTH", peak), Bare("AVERAGE-BANDWIDTH", average), Bare("RESOLUTION", size);
    var d, e := Quoted("CODECS", codecs), Bare("VIDEO-RANGE", range);
    NamesDiffer();
    FiveNamed(a, b, c, d, e, more, "BANDWIDTH");
    FiveNamed(a, b, c, d, e, more, "AVERAGE-BANDWIDTH");
    FiveNamed(a, b, c, d, e, more, "RESOLUTION");
    FiveNamed(a, b, c, d, e, more, "CODECS");
    FiveNamed(a, b, c, d, e, more, "VIDEO-RANGE");
    FiveNamed(a, b, c, d, e, more, "AUDIO");
    FiveNamed(a, b, c, d, e, more, "FRAME-RATE");
  }

  lemma NamesDiffer()
    ensures "BANDWIDTH"[0] == 'B' && "AVERAGE-BANDWIDTH"[0] == 'A' && "RESOLUTION"[0] == 'R' && "CODECS"[0] == 'C'
    ensures "VIDEO-RANGE"[0] == 'V' && "AUDIO"[1] == 'U' && "FRAME-RATE"[0] == 'F' && "AVERAGE-BANDWIDTH"[1] == 'V'
  {
  }

  lemma TextOfFirst(x: Attribute, more: seq<Attribute>, name: string)
    ensures TextOf([x] + more, name) == if x.name == name then Some(x.text) else TextOf(more, name)
  {
    assert ([x] + more)[1..] == more;
  }

  lemma FiveNamed(a: Attribute, b: Attribute, c: Attribute, d: Attribute, e: Attribute, more: seq<Attribute>, name: string)
    ensures TextOf([a, b, c, d] + ([e] + more), name)
            == if a.name == name then Some(a.text) else if b.name == name then Some(b.text)
               else if c.name == name then Some(c.text) else if d.name == name then Some(d.text)
               else if e.name == name then Some(e.text) else TextOf(more, name)
  {
    hide TextOf;
    var rest := [e] + more;
    TextOfFirst(e, more, name);
    TextOfFirst(d, rest, name);
    TextOfFirst(c, [d] + rest, name);
    TextOfFirst(b, [c] + ([d] + rest), name);
    TextOfFirst(a, [b] + ([c] + ([d] + rest)), name);
    assert [a, b, c, d] + rest == [a] + ([b] + ([c] + ([d] + rest)));
  }

  lemma ShowsShared(audio: Option<string>, rate: Option<string>)
    ensures var a := AudioAttributes(audio) + RateAttributes(rate);
            TextOf(a, "AUDIO") == audio && TextOf(a, "FRAME-RATE") == rate
  {
    NamesDiffer();
    TextOfRest(AudioAttributes(audio), RateAttributes(rate), "AUDIO");
    TextOfRest(AudioAttributes(audio), RateAttributes(rate), "FRAME-RATE");
  }

  /** Whatever the playlist, if it does not hold the rendition's URI yet and leaves no
      line dangling, the extended one has exactly one entry more; it has the rendition's
      URI, and a player reads in it what the rendition is, and the audio group and frame
      rate of the playlist's first entry with a picture. */
  lemma AddedIsShown(master: string, r: Rendition)
    requires PlainPlan(r.plan) && ',' !in r.plan.videoRange
    requires !Contains(master, Uri(r.plan.kind, r.rung)) && Whole(Parse(master))
    ensures var before, after := Parse(master), Parse(AddToMaster(master, r));
            var e, first := NewEntry(before, r), FirstVideo(before.entries);
            && multiset(after.entries) == multiset(before.entries) + multiset{e}
            && e.uri == (if r.plan.kind.Hdr? then "hdr" else "av1") + "/" + Digits(r.rung) + "/index.m3u8"
            && var a := Attributes(e.info, "#EXT-X-STREAM-INF:");
               && |a| == 5 + (if AudioOf(first).Some? then 1 else 0) + (if RateOf(first).Some? then 1 else 0)
               && NumberOf(a, "BANDWIDTH") == Some(r.peak + 128000)
               && NumberOf(a, "AVERAGE-BANDWIDTH") == Some(r.average + 128000)
               && TextOf(a, "RESOLUTION") == Some(Digits(r.width) + "x" + Digits(r.rung))
               && TextOf(a, "CODECS") == Some(r.plan.codecs + if AudioOf(first).Some? then ",mp4a.40.2" else "")
               && TextOf(a, "VIDEO-RANGE") == Some(r.plan.videoRange)
               && TextOf(a, "AUDIO") == AudioOf(first) && TextOf(a, "FRAME-RATE") == RateOf(first)
  {
    var d := Parse(master);
    var first := FirstVideo(d.entries);
    ParseIsWellFormed(master);
    AddedIsWellFormed(d, r);
    SharedIsUsable(d);
    InfoReads(r, AudioOf(first), RateOf(first));
    ShownLength(r, AudioOf(first), RateOf(first));
    hide Parse, Print, Attributes, Shown, Info, FirstVideo, AudioOf, RateOf, WellFormed, Contains, PlainPlan, Whole;
    hide NumberOf, TextOf, Digits;
    assert multiset(d.entries + [NewEntry(d, r)]) == multiset(d.entries) + multiset{NewEntry(d, r)};
    ShownByName(r, AudioOf(first), RateOf(first));
  }

  lemma ShownLength(r: Rendition, audio: Option<string>, rate: Option<string>)
    ensures |Shown(r, audio, rate)| == 5 + (if audio.Some? then 1 else 0) + (if rate.Some? then 1 else 0)
  {
  }

  // --- What a plan says of the picture ----------------------------------------------------

  /** A codec string's fields (RFC 6381, section 3.3): what is between the dots. */
  function Fields(s: string): seq<string>
    decreases |s|
  {
    var field := Span(s, c => c != '.');
    [field] + if |field| == |s| then [] else Fields(s[|field| + 1..])
  }

  lemma FieldReads(field: string, rest: string)
    requires '.' !in field
    ensures Fields(field + "." + rest) == [field] + Fields(rest)
  {
    var s := field + "." + rest;
    assert s == field + ("." + rest);
    SpanStops(field, "." + rest, c => c != '.');
    assert s[|field| + 1..] == rest;
  }

  lemma LastFieldReads(field: string)
    requires '.' !in field
    ensures Fields(field) == [field]
  {
    SpanStops(field, "", c => c != '.');
    assert field + "" == field;
  }

  lemma ThreeFields(level: string, rest: string)
    requires '.' !in level
    ensures Fields("av01.0." + level + "M." + rest) == ["av01", "0", level + "M"] + Fields(rest)
  {
    hide Fields;
    assert '.' !in "av01" && '.' !in "0";
    FieldReads("av01", "0." + level + "M." + rest);
    FieldReads("0", level + "M." + rest);
    FieldReads(level + "M", rest);
    assert "av01.0." + level + "M." + rest == "av01" + "." + ("0." + level + "M." + rest);
    assert "0." + level + "M." + rest == "0" + "." + (level + "M." + rest);
    assert level + "M." + rest == level + "M" + "." + rest;
  }

  lemma ColourFields(code: string)
    requires '.' !in code
    ensures Fields("09." + code + ".09.0") == ["09", code, "09", "0"]
  {
    hide Fields;
    assert '.' !in "0" && '.' !in "09";
    LastFieldReads("0");
    FieldReads("09", "0");
    FieldReads(code, "09.0");
    FieldReads("09", code + ".09.0");
    assert "09" + "." + "0" == "09.0" && code + ".09.0" == code + "." + "09.0";
    assert "09." + code + ".09.0" == "09" + "." + (code + ".09.0");
  }

  /** The depth and colour fields of an HDR codec string. */
  lemma HdrFields(code: string)
    requires '.' !in code
    ensures Fields("10.0.110.09." + code + ".09.0") == ["10", "0", "110", "09", code, "09", "0"]
  {
    hide Fields;
    var rest := "09." + code + ".09.0";
    assert '.' !in "10" && '.' !in "0" && '.' !in "110";
    ColourFields(code);
    FieldReads("110", rest);
    FieldReads("0", "110." + rest);
    FieldReads("10", "0.110." + rest);
    assert "110" + "." + rest == "110." + rest && "0" + "." + ("110." + rest) == "0.110." + rest;
    assert "10.0.110.09." + code + ".09.0" == "10" + "." + ("0.110." + rest);
  }

  /** The fields a player checks: profile 0, the level for the height, the bit depth,
      and for HDR 4:2:0, BT.2020 and the source's own transfer. An SDR source gets no
      HDR rendition, and one above 1080 lines no AV1 rendition. */
  lemma PlanShows(kind: Kind, sourceHeight: nat, hdr: bool, transfer: string, height: nat)
    ensures var p := PlanRendition(kind, sourceHeight, hdr, transfer, height);
            var level := if height <= 540 then "04" else if height <= 720 then "05" else "08";
            match kind
            case Hdr =>
              && (p.Some? <==> hdr && transfer in {"smpte2084", "arib-std-b67"})
              && (p.Some? ==>
                    var pq := transfer == "smpte2084";
                    && p.value.videoRange == (if pq then "PQ" else "HLG")
                    && Fields(p.value.codecs)
                       == ["av01", "0", level + "M", "10", "0", "110", "09", if pq then "16" else "18", "09", "0"])
            case Av1 =>
              && (p.Some? <==> sourceHeight <= 1080)
              && (p.Some? ==> p.value.videoRange == "SDR" && Fields(p.value.codecs) == ["av01", "0", level + "M", "08"])
  {
    hide Fields;
    var level := Level(height);
    assert "smpte2084"[0] == 's' && "arib-std-b67"[0] == 'a';
    assert level == if height <= 540 then "04" else if height <= 720 then "05" else "08";
    assert '.' !in level && '.' !in "08" && '.' !in "16" && '.' !in "18";
    ThreeFields(level, "08");
    LastFieldReads("08");
    CodecIs(level, "16");
    CodecIs(level, "18");
    assert "M.08" == "M." + "08";
    assert "av01.0." + level + "M.08" == "av01.0." + level + "M." + "08";
  }

  lemma CodecIs(level: string, code: string)
    requires '.' !in level && '.' !in code
    ensures Fields("av01.0." + level + "M.10.0.110.09." + code + ".09.0")
            == ["av01", "0", level + "M", "10", "0", "110", "09", code, "09", "0"]
  {
    hide Fields;
    ThreeFields(level, "10.0.110.09." + code + ".09.0");
    HdrFields(code);
    assert "av01.0." + level + "M.10.0.110.09." + code + ".09.0" == "av01.0." + level + "M." + ("10.0.110.09." + code + ".09.0");
  }

  // --- The ladder's own lines -------------------------------------------------------------

  /** A rung's line: its own rates with the audio's, its size, and both codecs. */
  function RungShown(r: LadderMaster.Rung, audio: LadderMaster.AudioTrack, rate: Option<string>): seq<Attribute> {
    [Bare("BANDWIDTH", Digits(r.peak + audio.peak)), Bare("AVERAGE-BANDWIDTH", Digits(r.average + audio.average)),
     Bare("RESOLUTION", r.resolution), Quoted("CODECS", r.codec + ",mp4a.40.2")]
    + ([Quoted("AUDIO", "group_audio")] + RateAttributes(rate))
  }

  lemma RungIs(r: LadderMaster.Rung, audio: LadderMaster.AudioTrack, rate: Option<string>)
    ensures LadderMaster.VideoInfo(r, audio) + RatePart(rate)
            == Line(Digits(r.peak + audio.peak), Digits(r.average + audio.average), r.resolution, r.codec + ",mp4a.40.2",
                    SharedPart(Some("group_audio"), rate))
  {
    hide Digits, RatePart;
    var h, c, shared := LadderMaster.VideoHead(r, audio), r.codec + ",mp4a.40.2", AUDIO_IS + "group_audio" + "\"";
    assert "#EXT-X-STREAM-INF:BANDWIDTH=" == TAG + "BANDWIDTH=";
    hide LadderMaster.VideoHead;
    assert (h + "\"" + c + "\"" + ",") + shared + RatePart(rate) == h + "\"" + (c + "\"" + ("," + (shared + RatePart(rate))));
  }

  lemma RungIsPlain(r: LadderMaster.Rung)
    requires LadderMaster.PlainRung(r) && ',' !in r.resolution
    ensures IsValue(r.resolution) && '"' !in r.codec + ",mp4a.40.2" && IsGroup(Some("group_audio"))
  {
    var group := "group_audio";
    assert forall i :: 0 <= i < |group| ==> !IsBreak(group[i]) && group[i] != '"';
    assert '"' !in ",mp4a.40.2" && '"' !in r.codec;
  }

  lemma RungReads(r: LadderMaster.Rung, audio: LadderMaster.AudioTrack, rate: Option<string>)
    requires LadderMaster.PlainRung(r) && ',' !in r.resolution && IsNumber(rate)
    ensures Attributes(LadderMaster.VideoInfo(r, audio) + RatePart(rate), TAG) == RungShown(r, audio, rate)
  {
    hide Attributes, ReadList, Line, Digits, IsValue, IsNumber, IsGroup, RatePart, SharedPart;
    hide LadderMaster.PlainRung, LadderMaster.VideoInfo;
    RungIsPlain(r);
    DigitsAreValues(r.peak + audio.peak);
    DigitsAreValues(r.average + audio.average);
    SharedPartReads(Some("group_audio"), rate);
    RungIs(r, audio, rate);
    LineReads(Digits(r.peak + audio.peak), Digits(r.average + audio.average), r.resolution, r.codec + ",mp4a.40.2",
              SharedPart(Some("group_audio"), rate), [Quoted("AUDIO", "group_audio")] + RateAttributes(rate));
  }

  /** The audio's own entry. */
  lemma AudioEntryReads(audio: LadderMaster.AudioTrack)
    ensures Attributes(LadderMaster.AudioInfo(audio), TAG)
            == [Bare("BANDWIDTH", Digits(audio.peak)), Bare("AVERAGE-BANDWIDTH", Digits(audio.average)),
                Quoted("CODECS", "mp4a.40.2"), Quoted("AUDIO", "group_audio")]
  {
    var peak, average, shared := Digits(audio.peak), Digits(audio.average), "," + ("AUDIO" + "=" + ("\"" + ("group_audio" + "\"" + "")));
    hide Attributes, ReadList, Digits, IsValue;
    DigitsAreValues(audio.peak);
    DigitsAreValues(audio.average);
    assert '=' !in "CODECS" && '=' !in "AUDIO" && '=' !in "AVERAGE-BANDWIDTH" && '=' !in "BANDWIDTH";
    assert '"' !in "mp4a.40.2" && '"' !in "group_audio";
    NothingReads();
    QuotedMore("AUDIO", "group_audio", "", []);
    QuotedMore("CODECS", "mp4a.40.2", shared, [Quoted("AUDIO", "group_audio")]);
    AudioEntryIs(audio);
    AudioLineReads(peak, average, Codecs3("mp4a.40.2", shared), [Quoted("CODECS", "mp4a.40.2"), Quoted("AUDIO", "group_audio")]);
  }

  lemma AudioLineReads(peak: string, average: string, t: string, more: seq<Attribute>)
    requires IsValue(peak) && IsValue(average) && Follows(t) && ReadList(Rest(t)) == more
    ensures Attributes(TAG + ("BANDWIDTH" + "=" + (peak + Average1(average, t))), TAG)
            == [Bare("BANDWIDTH", peak), Bare("AVERAGE-BANDWIDTH", average)] + more
  {
    hide Attributes, ReadList, IsValue, Rest, Follows;
    BandwidthNames();
    OneMore("AVERAGE-BANDWIDTH", average, t, more);
    IsValueIs(peak);
    BareReads("BANDWIDTH", peak, Average1(average, t));
    TagReads("BANDWIDTH" + "=" + (peak + Average1(average, t)));
  }

  lemma BandwidthNames()
    ensures '=' !in "AVERAGE-BANDWIDTH" && '=' !in "BANDWIDTH"
  {
  }

  lemma TagReads(s: string)
    ensures Attributes(TAG + s, TAG) == ReadList(s)
  {
    hide ReadList;
    TagDropped(s);
  }

  lemma AudioCodecIs(s: string)
    ensures ",CODECS=\"mp4a.40.2\"," + s == Codecs3("mp4a.40.2", "," + s)
  {
    assert ",CODECS=\"mp4a.40.2\"," == ",CODECS=\"" + "mp4a.40.2" + "\",";
  }

  lemma GroupIs()
    ensures AUDIO_IS + "group_audio" + "\"" == "AUDIO" + "=" + ("\"" + ("group_audio" + "\"" + ""))
  {
  }

  lemma AudioEntryIs(audio: LadderMaster.AudioTrack)
    ensures LadderMaster.AudioInfo(audio)
            == TAG + ("BANDWIDTH" + "=" + (Digits(audio.peak) + Average1(Digits(audio.average),
                 Codecs3("mp4a.40.2", "," + ("AUDIO" + "=" + ("\"" + ("group_audio" + "\"" + "")))))))
  {
    hide Digits, Codecs3;
    GroupIs();
    var shared := AUDIO_IS + "group_audio" + "\"";
    AudioCodecIs(shared);
    BandwidthsAre(Digits(audio.peak), Digits(audio.average), Codecs3("mp4a.40.2", "," + shared));
  }

  lemma BandwidthsAre(peak: string, average: string, t: string)
    ensures "#EXT-X-STREAM-INF:BANDWIDTH=" + peak + (",AVERAGE-BANDWIDTH=" + average + t)
            == TAG + ("BANDWIDTH" + "=" + (peak + Average1(average, t)))
  {
    assert "#EXT-X-STREAM-INF:BANDWIDTH=" == TAG + "BANDWIDTH=";
    Regroup(TAG + "BANDWIDTH=", peak, Average1(average, t));
    TagPart(peak + Average1(average, t));
    Regroup(",AVERAGE-BANDWIDTH=", average, t);
    AveragePart(average + t);
  }

  // The audio group's own line.

  const MEDIA_TAG := "#EXT-X-MEDIA:"

  lemma MediaReads(count: nat, uri: string)
    requires '"' !in uri
    ensures Attributes(LadderMaster.Media(count, uri), MEDIA_TAG)
            == [Bare("TYPE", "AUDIO"), Quoted("GROUP-ID", "group_audio"), Quoted("NAME", "audio_" + Digits(count)),
                Bare("DEFAULT", "YES"), Quoted("CHANNELS", "2"), Quoted("URI", uri)]
  {
    hide ReadList, Digits;
    NothingReads();
    CountUnquoted(count);
    MediaNames();
    QuotedMore("URI", uri, "", []);
    var a := "," + ("URI" + "=" + ("\"" + (uri + "\"" + "")));
    QuotedMore("CHANNELS", "2", a, [Quoted("URI", uri)]);
    var b := "," + ("CHANNELS" + "=" + ("\"" + ("2" + "\"" + a)));
    OneMore("DEFAULT", "YES", b, [Quoted("CHANNELS", "2"), Quoted("URI", uri)]);
    var c := "," + ("DEFAULT" + "=" + ("YES" + b));
    MediaStartReads("audio_" + Digits(count), c, [Bare("DEFAULT", "YES"), Quoted("CHANNELS", "2"), Quoted("URI", uri)]);
    MediaEnd(uri);
    MediaIs(count, uri, c);
  }

  lemma CountUnquoted(count: nat)
    ensures '"' !in "audio_" + Digits(count)
  {
    assert '"' !in "audio_" && !IsDigit('"');
  }

  lemma MediaNames()
    ensures '=' !in "URI" && '=' !in "CHANNELS" && '=' !in "DEFAULT" && '=' !in "NAME" && '=' !in "GROUP-ID" && '=' !in "TYPE"
    ensures IsValue("YES") && IsValue("AUDIO") && '"' !in "2" && '"' !in "group_audio"
  {
  }

  function MediaLine(name: string, t: string): string {
    MEDIA_TAG + ("TYPE" + "=" + ("AUDIO" + ("," + ("GROUP-ID" + "=" + ("\"" + ("group_audio" + "\""
      + ("," + ("NAME" + "=" + ("\"" + (name + "\"" + t))))))))))
  }

  lemma MediaStartReads(name: string, t: string, more: seq<Attribute>)
    requires '"' !in name && Follows(t) && ReadList(Rest(t)) == more
    ensures Attributes(MediaLine(name, t), MEDIA_TAG)
            == [Bare("TYPE", "AUDIO"), Quoted("GROUP-ID", "group_audio"), Quoted("NAME", name)] + more
  {
    hide ReadList;
    MediaNames();
    QuotedMore("NAME", name, t, more);
    var a := "," + ("NAME" + "=" + ("\"" + (name + "\"" + t)));
    QuotedMore("GROUP-ID", "group_audio", a, [Quoted("NAME", name)] + more);
    var b := "," + ("GROUP-ID" + "=" + ("\"" + ("group_audio" + "\"" + a)));
    BareReads("TYPE", "AUDIO", b);
    MediaTagReads("TYPE" + "=" + ("AUDIO" + b));
  }

  lemma MediaTagReads(s: string)
    ensures Attributes(MEDIA_TAG + s, MEDIA_TAG) == ReadList(s)
  {
    hide ReadList;
    assert (MEDIA_TAG + s)[|MEDIA_TAG|..] == s && StartsWith(MEDIA_TAG + s, MEDIA_TAG);
  }

  lemma MediaEnd(uri: string)
    ensures ",DEFAULT=YES,CHANNELS=\"2\",URI=" + "\"" + (uri + "\"")
            == "," + ("DEFAULT" + "=" + ("YES" + ("," + ("CHANNELS" + "=" + ("\"" + ("2" + "\""
               + ("," + ("URI" + "=" + ("\"" + (uri + "\"" + ""))))))))))
  {
    var v := "\"" + (uri + "\"");
    assert v == "\"" + (uri + "\"" + "");
    MediaEndParts(v);
    ChannelsPart("," + ("URI" + "=" + v));
    DefaultPart("," + ("CHANNELS" + "=" + ("\"" + ("2" + "\"" + ("," + ("URI" + "=" + v))))));
  }

  lemma MediaEndParts(v: string)
    ensures ",DEFAULT=YES,CHANNELS=\"2\",URI=" + v == ",DEFAULT=YES" + (",CHANNELS=\"2\"" + ("," + ("URI" + "=" + v)))
  {
    assert ",DEFAULT=YES,CHANNELS=\"2\",URI=" == ",DEFAULT=YES" + ",CHANNELS=\"2\"" + "," + "URI" + "=";
  }

  lemma ChannelsPart(s: string)
    ensures ",CHANNELS=\"2\"" + s == "," + ("CHANNELS" + "=" + ("\"" + ("2" + "\"" + s)))
  {
  }

  lemma DefaultPart(s: string)
    ensures ",DEFAULT=YES" + s == "," + ("DEFAULT" + "=" + ("YES" + s))
  {
  }

  lemma MediaIs(count: nat, uri: string, t: string)
    requires t == ",DEFAULT=YES,CHANNELS=\"2\",URI=" + "\"" + (uri + "\"")
    ensures LadderMaster.Media(count, uri) == MediaLine("audio_" + Digits(count), t)
  {
    hide Digits;
    var d, v := Digits(count), "\"" + (uri + "\"");
    var named := "," + ("NAME" + "=" + ("\"" + ("audio_" + d + "\"" + t)));
    Regroup(LadderMaster.MediaStart(count), "\"", uri + "\"");
    Regroup(",DEFAULT=YES,CHANNELS=\"2\",URI=", "\"", uri + "\"");
    Regroup("group_audio", "\"", named);
    MediaParts("#EXT-X-MEDIA:TYPE=AUDIO,GROUP-ID=\"", "group_audio", "\",NAME=\"audio_" + d, v);
    NamePart(d, t);
    GroupPart("group_audio", "\"" + named);
  }

  lemma MediaParts(start: string, group: string, name: string, v: string)
    ensures start + group + (name + ("\",DEFAULT=YES," + "CHANNELS=\"2\",URI=")) + v
            == start + group + (name + ("\"" + (",DEFAULT=YES,CHANNELS=\"2\",URI=" + v)))
  {
    assert "\",DEFAULT=YES," + "CHANNELS=\"2\",URI=" == "\"" + ",DEFAULT=YES,CHANNELS=\"2\",URI=";
  }

  lemma NamePart(d: string, t: string)
    ensures "\",NAME=\"audio_" + d + ("\"" + t) == "\"" + ("," + ("NAME" + "=" + ("\"" + ("audio_" + d + "\"" + t))))
  {
    assert "\",NAME=\"audio_" == "\"" + "," + "NAME" + "=" + "\"" + "audio_";
  }

  lemma GroupPart(group: string, s: string)
    ensures "#EXT-X-MEDIA:TYPE=AUDIO,GROUP-ID=\"" + group + s
            == MEDIA_TAG + ("TYPE" + "=" + ("AUDIO" + ("," + ("GROUP-ID" + "=" + ("\"" + (group + s))))))
  {
    assert "#EXT-X-MEDIA:TYPE=AUDIO,GROUP-ID=\"" == MEDIA_TAG + "TYPE" + "=" + "AUDIO" + "," + "GROUP-ID" + "=" + "\"";
  }

  /** A ladder's master playlist as it is written and given its rates, whatever its
      rungs: what a player reads in its audio group, in every rung in order, and in the
      audio's own entry. */
  lemma LadderIsShown(rungs: seq<LadderMaster.Rung>, audio: LadderMaster.AudioTrack, rate: Option<real>)
    requires LadderMaster.PlainRungs(rungs) && LadderMaster.HarmlessUri(audio.uri) && (rate.Some? ==> rate.value >= 0.0)
    requires forall k :: 0 <= k < |rungs| ==> ',' !in rungs[k].resolution
    ensures var text := LadderMaster.RateText(rate);
            var d := Parse(LadderMaster.Stored(rungs, audio, text));
            && |d.head| == 3 && |d.entries| == |rungs| + 1
            && Attributes(d.head[2], "#EXT-X-MEDIA:")
               == [Bare("TYPE", "AUDIO"), Quoted("GROUP-ID", "group_audio"), Quoted("NAME", "audio_" + Digits(|rungs|)),
                   Bare("DEFAULT", "YES"), Quoted("CHANNELS", "2"), Quoted("URI", audio.uri)]
            && (forall k: nat :: k < |rungs| ==>
                  && d.entries[k].uri == "v" + Digits(k) + "/index.m3u8"
                  && Attributes(d.entries[k].info, TAG) == RungShown(rungs[k], audio, text))
            && d.entries[|rungs|].uri == audio.uri
            && Attributes(d.entries[|rungs|].info, TAG)
               == [Bare("BANDWIDTH", Digits(audio.peak)), Bare("AVERAGE-BANDWIDTH", Digits(audio.average)),
                   Quoted("CODECS", "mp4a.40.2"), Quoted("AUDIO", "group_audio")]
  {
    hide Parse, Attributes, RungShown, Digits, RatePart, Good, AudioOf, RateOf, IsLine, IsInfo, Contains, Uri, Rank;
    hide LadderMaster.Stored, LadderMaster.VideoInfo, LadderMaster.AudioInfo, LadderMaster.Media, LadderMaster.PlainRung;
    var text := LadderMaster.RateText(rate);
    if rate.Some? { LadderMaster.Fixed3IsNumber(rate.value); }
    LadderMaster.WrittenIsGood(rungs, audio, rate);
    MediaReads(|rungs|, audio.uri);
    AudioEntryReads(audio);
    forall k: nat | k < |rungs|
      ensures Attributes(LadderMaster.VideoInfo(rungs[k], audio) + RatePart(text), TAG) == RungShown(rungs[k], audio, text)
    {
      RungReads(rungs[k], audio, text);
    }
  }

  lemma Fixed3Reads(rate: real)
    requires rate >= 0.0
    ensures LadderJoin.Decimal(LadderMaster.Fixed3(rate)) == Some(HalfEven(rate * 1000.0) as real / 1000.0)
  {
    hide HalfEven, Digits, LadderJoin.Padded, Value, LadderJoin.Power10, AllDigits, LadderJoin.Decimal;
    NearestHalfEven(rate * 1000.0);
    var m: nat := HalfEven(rate * 1000.0);
    ValueOfDigits(m / 1000);
    LadderJoin.ValueOfPadded(m % 1000, 3);
    ThreeDigits(m % 1000);
    LadderJoin.DecimalOfParts(Digits(m / 1000), LadderJoin.Padded(m % 1000, 3));
    ThousandthsAdd(m);
  }

  /** The rate is shown to the nearest thousandth. */
  lemma RateIsNear(rate: real)
    requires rate >= 0.0
    ensures var shown := LadderJoin.Decimal(LadderMaster.Fixed3(rate));
            shown.Some? && -0.0005 <= shown.value - rate <= 0.0005
  {
    hide HalfEven, LadderJoin.Decimal, LadderMaster.Fixed3;
    Fixed3Reads(rate);
    NearestHalfEven(rate * 1000.0);
  }

  lemma ThreeDigits(n: nat)
    requires n < 1000
    ensures LadderJoin.Power10(3) == 1000 && |LadderJoin.Padded(n, 3)| == 3
  {
    assert LadderJoin.Power10(1) == 10 && LadderJoin.Power10(2) == 100;
    LadderJoin.DigitsFit(n, 3);
  }

  lemma ThousandthsAdd(m: nat)
    ensures (m / 1000) as real + (m % 1000) as real / 1000.0 == m as real / 1000.0
  {
  }
}
