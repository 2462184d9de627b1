/** Listing an extra AV1 rendition in a finished ladder's master playlist
    (app/worker/renditions.py: `plan_rendition`, `_rank`, `add_to_master`). */
module MasterPlaylist {
  import opened Prelude
  import opened Text
  import opened MasterText

  datatype Kind = Hdr | Av1

  /** What of a `RenditionPlan` the playlist shows. */
  datatype Plan = Plan(kind: Kind, codecs: string, videoRange: string)

  /** One rung to list: the keyword arguments of `add_to_master`. */
  datatype Rendition = Rendition(plan: Plan, rung: nat, width: nat, peak: nat, average: nat)

  function Name(kind: Kind): string { if kind.Hdr? then "hdr" else "av1" }

  const AV1_MAX_SOURCE_HEIGHT := 1080

  /** AV1's level: 3.0 up to 540 lines, 3.1 to 720, 4.0 above. */
  function Level(height: nat): string {
    if height <= 540 then "04" else if height <= 720 then "05" else "08"
  }

  /** `plan_rendition`, for a source of this height, HDR flag and colour transfer. */
  function PlanRendition(kind: Kind, sourceHeight: nat, hdr: bool, transfer: string, height: nat): Option<Plan> {
    match kind
    case Hdr =>
      if !hdr then None
      else if transfer == "smpte2084" then Some(Plan(Hdr, "av01.0." + Level(height) + "M.10.0.110.09." + "16" + ".09.0", "PQ"))
      else if transfer == "arib-std-b67" then Some(Plan(Hdr, "av01.0." + Level(height) + "M.10.0.110.09." + "18" + ".09.0", "HLG"))
      else None
    case Av1 =>
      if sourceHeight > AV1_MAX_SOURCE_HEIGHT then None
      else Some(Plan(Av1, "av01.0." + Level(height) + "M.08", "SDR"))
  }

  function Uri(kind: Kind, rung: nat): string {
    Name(kind) + "/" + Digits(rung) + "/index.m3u8"
  }

  /** The part of a URI before its first slash decides its place. */
  function Rank(e: Entry): int {
    var first := Span(e.uri, c => c != '/');
    if first == "hdr" then 0 else if first == "av1" then 1 else 2
  }

  // --- The new entry ----------------------------------------------------------------

  const AUDIO_BITRATE := 128000

  function InfoHead(r: Rendition): string {
    "#EXT-X-STREAM-INF:BANDWIDTH=" + Digits(r.peak + AUDIO_BITRATE)
    + (",AVERAGE-BANDWIDTH=" + Digits(r.average + AUDIO_BITRATE)
    + (",RESOLUTION=" + (Digits(r.width) + "x" + Digits(r.rung))
    + ",CODECS="))
  }

  function Codecs(r: Rendition, audio: Option<string>): string {
    r.plan.codecs + if audio.Some? then ",mp4a.40.2" else ""
  }

  function RatePart(rate: Option<string>): string {
    if rate.Some? then "," + (RATE_IS + rate.value) else ""
  }

  function InfoTail(r: Rendition, audio: Option<string>, rate: Option<string>): string {
    (",VIDEO-RANGE=" + r.plan.videoRange)
    + if audio.Some? then "," + (AUDIO_IS + audio.value + "\"" + RatePart(rate)) else RatePart(rate)
  }

  function Info(r: Rendition, audio: Option<string>, rate: Option<string>): string {
    InfoHead(r) + "\"" + (Codecs(r, audio) + "\"" + InfoTail(r, audio, rate))
  }

  /** The first entry with a picture: the first whose line names a resolution. */
  function FirstVideo(entries: seq<Entry>): string {
    if entries == [] then ""
    else if Contains(entries[0].info, "RESOLUTION=") then entries[0].info
    else FirstVideo(entries[1..])
  }

  function AddTo(d: Document, r: Rendition): Document {
    var first := FirstVideo(d.entries);
    var entry := Entry(Info(r, AudioOf(first), RateOf(first)), Uri(r.plan.kind, r.rung));
    d.(entries := SortBy(Rank, d.entries + [entry]))
  }

  function AddToMaster(master: string, r: Rendition): string {
    if Contains(master, Uri(r.plan.kind, r.rung)) then master else Print(AddTo(Parse(master), r))
  }

  // --- The text of the new entry ------------------------------------------------------

  predicate PlainChar(c: char) { c != '"' && c != '/' && c != '=' && !IsBreak(c) }

  predicate Plain(s: string) { forall i :: 0 <= i < |s| ==> PlainChar(s[i]) }

  predicate PlainPlan(p: Plan) { p.codecs != "" && Plain(p.codecs) && Plain(p.videoRange) }

  lemma PlainJoin(a: string, b: string)
    requires Plain(a) && Plain(b)
    ensures Plain(a + b)
  {
  }

  lemma DigitsArePlain(n: nat)
    ensures Plain(Digits(n))
  {
    forall i | 0 <= i < |Digits(n)| ensures PlainChar(Digits(n)[i]) {
      assert Digits(n)[i] in Digits(n);
    }
  }

  lemma PlansArePlain(kind: Kind, sourceHeight: nat, hdr: bool, transfer: string, height: nat)
    ensures var p := PlanRendition(kind, sourceHeight, hdr, transfer, height); p.Some? ==> PlainPlan(p.value) && p.value.kind == kind
  {
    var start := "av01.0." + Level(height);
    assert Plain(start);
    assert Plain("M.10.0.110.09.") && Plain("16") && Plain("18") && Plain(".09.0") && Plain("M.08");
    PlainJoin(start, "M.10.0.110.09.");
    PlainJoin(start + "M.10.0.110.09.", "16");
    PlainJoin(start + "M.10.0.110.09.", "18");
    PlainJoin(start + "M.10.0.110.09." + "16", ".09.0");
    PlainJoin(start + "M.10.0.110.09." + "18", ".09.0");
    PlainJoin(start, "M.08");
    assert Plain("PQ") && Plain("HLG") && Plain("SDR");
  }

  /** No quote, no slash, no break; and no `=` that could end "-RATE=". */
  predicate Calm(s: string) {
    && (forall i :: 0 <= i < |s| ==> s[i] != '"' && s[i] != '/' && !IsBreak(s[i]))
    && (forall i :: 2 <= i < |s| && s[i] == '=' ==> !(s[i - 1] == 'E' && s[i - 2] == 'T'))
  }

  predicate CalmStart(s: string) {
    (|s| > 0 ==> s[0] != '=') && (|s| > 1 ==> s[1] != '=')
  }

  lemma CalmJoin(a: string, b: string)
    requires Calm(a) && Calm(b) && CalmStart(b)
    ensures Calm(a + b)
  {
    hide IsBreak;
    var s := a + b;
    forall i | 0 <= i < |s| ensures s[i] != '"' && s[i] != '/' && !IsBreak(s[i]) {
      assert s[i] == if i < |a| then a[i] else b[i - |a|];
    }
  }

  lemma PlainIsCalm(s: string)
    requires Plain(s)
    ensures Calm(s) && CalmStart(s)
  {
  }

  lemma TagIsCalm()
    ensures Calm("#EXT-X-STREAM-INF:BANDWIDTH=")
  {
  }

  lemma AverageIsCalm()
    ensures Calm(",AVERAGE-BANDWIDTH=") && CalmStart(",AVERAGE-BANDWIDTH=")
  {
  }

  lemma HeadLiterals()
    ensures Calm(",RESOLUTION=") && Calm(",CODECS=") && CalmStart(",RESOLUTION=") && CalmStart(",CODECS=")
    ensures Calm(",VIDEO-RANGE=") && CalmStart(",VIDEO-RANGE=") && Plain(",mp4a.40.2")
  {
  }

  lemma InfoHeadIsCalm(r: Rendition)
    ensures Calm(InfoHead(r))
    ensures var h := InfoHead(r); |h| > 2 && h[|h| - 1] == '=' && h[|h| - 2] == 'S' && h[0] == '#'
    ensures StartsWith(InfoHead(r), STREAM_INF)
    ensures Contains(InfoHead(r), "RESOLUTION=")
  {
    var peak, average, size := Digits(r.peak + AUDIO_BITRATE), Digits(r.average + AUDIO_BITRATE), Digits(r.width) + "x" + Digits(r.rung);
    DigitsArePlain(r.peak + AUDIO_BITRATE);
    DigitsArePlain(r.average + AUDIO_BITRATE);
    DigitsArePlain(r.width);
    DigitsArePlain(r.rung);
    PlainJoin(Digits(r.width), "x");
    PlainJoin(Digits(r.width) + "x", Digits(r.rung));
    PlainIsCalm(peak);
    PlainIsCalm(average);
    PlainIsCalm(size);
    hide Calm, Plain;
    InfoHeadCalm(peak, average, size);
    InfoHeadText(peak, average, size);
  }

  lemma InfoHeadCalm(peak: string, average: string, size: string)
    requires Calm(peak) && Calm(average) && Calm(size) && CalmStart(peak) && CalmStart(average) && CalmStart(size)
    requires size != "" && average != "" && peak != ""
    ensures Calm("#EXT-X-STREAM-INF:BANDWIDTH=" + peak + (",AVERAGE-BANDWIDTH=" + average + (",RESOLUTION=" + size + ",CODECS=")))
  {
    TagIsCalm();
    AverageIsCalm();
    HeadLiterals();
    hide Calm;
    var c := ",RESOLUTION=" + size;
    CalmJoin(",RESOLUTION=", size);
    CalmJoin(c, ",CODECS=");
    var d := c + ",CODECS=";
    assert CalmStart(d) by { assert d[0] == ',' && d[1] == 'R'; }
    CalmJoin(",AVERAGE-BANDWIDTH=", average);
    CalmJoin(",AVERAGE-BANDWIDTH=" + average, d);
    var e := ",AVERAGE-BANDWIDTH=" + average + d;
    assert CalmStart(e) by { assert e[0] == ',' && e[1] == 'A'; }
    CalmJoin("#EXT-X-STREAM-INF:BANDWIDTH=", peak);
    CalmJoin("#EXT-X-STREAM-INF:BANDWIDTH=" + peak, e);
  }

  lemma InfoHeadText(peak: string, average: string, size: string)
    ensures var h := "#EXT-X-STREAM-INF:BANDWIDTH=" + peak + (",AVERAGE-BANDWIDTH=" + average + (",RESOLUTION=" + size + ",CODECS="));
            && |h| > 2 && h[|h| - 1] == '=' && h[|h| - 2] == 'S' && h[0] == '#'
            && StartsWith(h, STREAM_INF) && Contains(h, "RESOLUTION=")
  {
    var h := "#EXT-X-STREAM-INF:BANDWIDTH=" + peak + (",AVERAGE-BANDWIDTH=" + average + (",RESOLUTION=" + size + ",CODECS="));
    var before, after := "#EXT-X-STREAM-INF:BANDWIDTH=" + peak + (",AVERAGE-BANDWIDTH=" + average + ","), size + ",CODECS=";
    assert ",RESOLUTION=" == "," + "RESOLUTION=";
    assert h == before + "RESOLUTION=" + after;
    assert At("RESOLUTION=", "RESOLUTION=", 0);
    PartContained(before, "RESOLUTION=", after, "RESOLUTION=");
    assert "#EXT-X-STREAM-INF:BANDWIDTH=" == STREAM_INF + "BANDWIDTH=";
    assert h[..|STREAM_INF|] == STREAM_INF;
    assert ",CODECS=" == ",CODEC" + "S" + "=";
  }

  /** The start of the line, up to the quoted codecs and the range. */
  function InfoStart(r: Rendition, audio: Option<string>): string {
    InfoHead(r) + "\"" + Codecs(r, audio) + "\"" + (",VIDEO-RANGE=" + r.plan.videoRange)
  }

  lemma InfoSplits(r: Rendition, audio: Option<string>, rate: Option<string>)
    ensures audio.Some? ==>
              Info(r, audio, rate) == (InfoStart(r, audio) + ",") + (AUDIO_IS + audio.value + "\"" + RatePart(rate))
    ensures audio.None? ==> Info(r, audio, rate) == InfoStart(r, audio) + RatePart(rate)
  {
    hide InfoHead, Codecs, RatePart;
    var h, c, v := InfoHead(r), Codecs(r, audio), ",VIDEO-RANGE=" + r.plan.videoRange;
    if audio.Some? {
      var tail := AUDIO_IS + audio.value + "\"" + RatePart(rate);
      assert h + "\"" + (c + "\"" + (v + ("," + tail))) == (h + "\"" + c + "\"" + v + ",") + tail;
    } else {
      assert h + "\"" + (c + "\"" + (v + RatePart(rate))) == (h + "\"" + c + "\"" + v) + RatePart(rate);
    }
  }

  /** Nothing in `s` can start `AUDIO="` that does not run on past it. */
  predicate NoAudio(s: string) {
    forall i :: 2 <= i < |s| && s[i] == '"' ==> !(s[i - 1] == '=' && s[i - 2] == 'O')
  }

  predicate NoRate(s: string) {
    forall i :: 2 <= i < |s| && s[i] == '=' ==> !(s[i - 1] == 'E' && s[i - 2] == 'T')
  }

  lemma InfoStartIsClear(r: Rendition, audio: Option<string>)
    requires PlainPlan(r.plan)
    ensures NoAudio(InfoStart(r, audio)) && NoRate(InfoStart(r, audio))
  {
    InfoHeadIsCalm(r);
    HeadLiterals();
    PlainIsCalm(r.plan.videoRange);
    CalmJoin(",VIDEO-RANGE=", r.plan.videoRange);
    if audio.Some? { PlainJoin(r.plan.codecs, ",mp4a.40.2"); }
    var v := ",VIDEO-RANGE=" + r.plan.videoRange;
    assert v[0] == ',' && v[1] == 'V';
    assert r.plan.codecs + "" == r.plan.codecs;
    StartIsClear(InfoHead(r), Codecs(r, audio), v);
  }

  lemma StartIsClear(h: string, c: string, v: string)
    requires Calm(h) && |h| > 2 && h[|h| - 1] == '=' && h[|h| - 2] == 'S'
    requires Plain(c) && c != "" && Calm(v) && CalmStart(v)
    ensures NoAudio(h + "\"" + c + "\"" + v) && NoRate(h + "\"" + c + "\"" + v)
  {
    hide IsBreak;
    var s := h + "\"" + c + "\"" + v;
    var m := |h| + 1 + |c|;
    forall i | 2 <= i < |s| && s[i] == '"' ensures !(s[i - 1] == '=' && s[i - 2] == 'O') {
      assert i == |h| || i == m;
      if i == |h| {
        assert s[i - 2] == h[i - 2];
      } else {
        assert s[i - 1] == c[|c| - 1];
      }
    }
    forall i | 2 <= i < |s| && s[i] == '=' ensures !(s[i - 1] == 'E' && s[i - 2] == 'T') {
      if i < |h| {
        assert s[i - 1] == h[i - 1] && s[i - 2] == h[i - 2];
      } else {
        assert forall k :: |h| < k < m ==> s[k] == c[k - |h| - 1];
        var k := i - m - 1;
        assert s[i] == v[k];
        assert k >= 2 && s[i - 1] == v[k - 1] && s[i - 2] == v[k - 2];
      }
    }
  }

  lemma NotAcross(a: string, b: string, p: string, i: nat)
    requires i < |a| <= i + |p| && (a[|a| - 1] !in p || (b == "" && |a| < i + |p|))
    ensures !StartsWith((a + b)[i..], p)
  {
    var s := a + b;
    if i + |p| <= |s| {
      assert s[i..][..|p|][|a| - 1 - i] == a[|a| - 1];
      assert p[|a| - 1 - i] in p;
    }
  }

  lemma NotInside(a: string, b: string, p: string, i: nat)
    requires i + |p| <= |a| && a[i..i + |p|] != p
    ensures !StartsWith((a + b)[i..], p)
  {
    assert (a + b)[i..][..|p|] == a[i..i + |p|];
  }

  lemma ClearOfAudio(a: string, b: string)
    requires NoAudio(a) && (b == "" || (a != "" && a[|a| - 1] == ','))
    ensures AudioOf(a + b) == AudioOf(b)
  {
    forall i | 0 <= i < |a| ensures !StartsWith((a + b)[i..], AUDIO_IS) {
      if i + |AUDIO_IS| > |a| {
        NotAcross(a, b, AUDIO_IS, i);
      } else {
        assert a[i..i + 7][6] == a[i + 6] && a[i..i + 7][5] == a[i + 5] && a[i..i + 7][4] == a[i + 4];
        NotInside(a, b, AUDIO_IS, i);
      }
    }
    AudioSkips(a, b);
  }

  lemma ClearOfRate(a: string, b: string)
    requires NoRate(a) && (b == "" || (a != "" && (a[|a| - 1] == ',' || a[|a| - 1] == '"')))
    ensures RateOf(a + b) == RateOf(b)
  {
    forall i | 0 <= i < |a| ensures !StartsWith((a + b)[i..], RATE_IS) {
      if i + |RATE_IS| > |a| {
        NotAcross(a, b, RATE_IS, i);
      } else {
        assert a[i..i + 11][10] == a[i + 10] && a[i..i + 11][9] == a[i + 9] && a[i..i + 11][8] == a[i + 8];
        NotInside(a, b, RATE_IS, i);
      }
    }
    RateSkips(a, b);
  }

  lemma NoQuotesNoAudio(s: string)
    requires '"' !in s
    ensures AudioOf(s) == None
  {
    ClearOfAudio(s, "");
    assert s + "" == s && AudioOf("") == None;
  }

  predicate IsGroup(audio: Option<string>) {
    audio.Some? ==> audio.value != "" && '"' !in audio.value && forall c :: c in audio.value ==> !IsBreak(c)
  }

  predicate IsNumber(rate: Option<string>) {
    rate.Some? ==> rate.value != "" && forall c :: c in rate.value ==> IsRate(c)
  }

  lemma StillClear(start: string)
    requires NoAudio(start) && NoRate(start)
    ensures NoAudio(start + ",") && NoRate(start + ",") && NoRate(start + "," + AUDIO_IS)
  {
    var s := start + "," + AUDIO_IS;
    forall i | 2 <= i < |s| && s[i] == '=' ensures !(s[i - 1] == 'E' && s[i - 2] == 'T') {
      if i >= |start| + 1 {
        assert AUDIO_IS[i - |start| - 1] == '=';
        assert i == |start| + 6;
      }
    }
  }

  lemma WithoutAudio(start: string, rate: Option<string>)
    requires NoAudio(start) && NoRate(start) && IsNumber(rate)
    ensures AudioOf(start + RatePart(rate)) == None
    ensures RateOf(start + RatePart(rate)) == rate
  {
    hide AudioOf, RateOf, NoAudio, NoRate;
    StillClear(start);
    if rate.Some? {
      assert start + RatePart(rate) == (start + ",") + (RATE_IS + rate.value);
      ClearOfAudio(start + ",", RATE_IS + rate.value);
      NoQuotesNoAudio(RATE_IS + rate.value);
      ClearOfRate(start + ",", RATE_IS + rate.value);
      FindsRate(rate.value);
    } else {
      assert start + RatePart(rate) == start + "";
      ClearOfAudio(start, "");
      NoQuotesNoAudio("");
      ClearOfRate(start, "");
      RateOfPart(None);
    }
  }

  lemma WithAudio(start: string, group: string, rate: Option<string>)
    requires NoAudio(start) && NoRate(start) && IsNumber(rate) && group != "" && '"' !in group
    ensures var s := (start + ",") + (AUDIO_IS + group + "\"" + RatePart(rate));
            && AudioOf(s) == Some(group)
            && RateOf(s) == if RateOf(group).Some? then RateOf(group) else rate
  {
    hide AudioOf, RateOf, NoAudio, NoRate, RatePart, IsNumber;
    StillClear(start);
    var rest := RatePart(rate);
    RateOfPart(rate);
    ClearOfAudio(start + ",", AUDIO_IS + group + "\"" + rest);
    FindsAudio(group, rest);
    assert (start + ",") + (AUDIO_IS + group + "\"" + rest) == (start + "," + AUDIO_IS) + (group + "\"" + rest);
    ClearOfRate(start + "," + AUDIO_IS, group + "\"" + rest);
    RateAfterGroup(group, rest);
  }

  /** A group's name is searched before the rate that follows it. */
  lemma {:induction false} RateAfterGroup(group: string, rest: string)
    requires '"' !in group
    ensures RateOf(group + "\"" + rest) == if RateOf(group).Some? then RateOf(group) else RateOf(rest)
  {
    var s := group + "\"" + rest;
    if group == "" {
      assert s == "\"" + rest;
      ClearOfRate("\"", rest);
    } else {
      assert s[1..] == group[1..] + "\"" + rest;
      RateAtGroup(group, rest);
      RateAfterGroup(group[1..], rest);
    }
  }

  lemma RateAtGroup(group: string, rest: string)
    requires '"' !in group && group != ""
    ensures RateAt(group + "\"" + rest) == RateAt(group)
  {
    var s := group + "\"" + rest;
    if |group| < |RATE_IS| {
      assert s[0..] == s && s == (group + "\"") + rest;
      NotAcross(group + "\"", rest, RATE_IS, 0);
    } else {
      assert s[..|RATE_IS|] == group[..|RATE_IS|];
      if StartsWith(s, RATE_IS) {
        var after := group[|RATE_IS|..];
        assert s[|RATE_IS|..] == after + ("\"" + rest);
        SpanToQuote(after, rest);
      }
    }
  }

  lemma {:induction false} SpanToQuote(a: string, rest: string)
    ensures Span(a + ("\"" + rest), IsRate) == Span(a, IsRate)
  {
    if a == "" {
      assert a + ("\"" + rest) == "\"" + rest;
    } else {
      assert (a + ("\"" + rest))[1..] == a[1..] + ("\"" + rest);
      SpanToQuote(a[1..], rest);
    }
  }

  lemma RateOfPart(rate: Option<string>)
    requires IsNumber(rate)
    ensures RateOf(RatePart(rate)) == rate
  {
    if rate.Some? {
      ClearOfRate(",", RATE_IS + rate.value);
      FindsRate(rate.value);
    }
  }

  /** No group name hides another rate in it. */
  predicate Steady(audio: Option<string>, rate: Option<string>) {
    audio.Some? ==> RateOf(audio.value) == None || RateOf(audio.value) == rate
  }

  /** The audio group an entry was given is the one read back from it, and so is the
      frame rate, exactly when the group's name does not hold another one. */
  lemma InfoCarries(r: Rendition, audio: Option<string>, rate: Option<string>)
    requires PlainPlan(r.plan) && IsGroup(audio) && IsNumber(rate)
    ensures AudioOf(Info(r, audio, rate)) == audio
    ensures RateOf(Info(r, audio, rate)) == rate <==> Steady(audio, rate)
  {
    InfoSplits(r, audio, rate);
    InfoStartIsClear(r, audio);
    hide AudioOf, RateOf, NoAudio, NoRate, Info, InfoStart, RatePart;
    if audio.Some? {
      WithAudio(InfoStart(r, audio), audio.value, rate);
    } else {
      WithoutAudio(InfoStart(r, audio), rate);
    }
  }
}
