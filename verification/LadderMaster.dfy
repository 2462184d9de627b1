/** The master playlist of a ladder encoded in pieces, as it is written
    (app/worker/ladder_pieces.py: `write_master`) and given its frame rates
    (app/worker/hls.py: `label_frame_rates`), and what it then reads back as. */
module LadderMaster {
  import opened Prelude
  import opened Text
  import opened Rounding
  import opened MasterText
  import opened MasterPlaylist
  import opened MasterListing
  import LadderJoin

  // --- Lines, blank ones too ----------------------------------------------------------

  /** Where the line after this one begins: "\r\n" ends one line. */
  function NextLine(text: string, end: nat): nat
    requires end < |text|
    ensures end < NextLine(text, end) <= |text|
  {
    end + if text[end] == '\r' && end + 1 < |text| && text[end + 1] == '\n' then 2 else 1
  }

  /** `str.splitlines`. */
  function SplitLines(text: string): seq<string>
    decreases |text|
  {
    if text == "" then []
    else
      var line := Span(text, c => !IsBreak(c));
      [line] + if |line| == |text| then [] else SplitLines(text[NextLine(text, |line|)..])
  }

  function NonBlank(lines: seq<string>): seq<string> {
    if lines == [] then []
    else (if Strip(lines[0]) == "" then [] else [lines[0]]) + NonBlank(lines[1..])
  }

  lemma BlankLine(rest: string)
    ensures Lines("\n" + rest) == Lines(rest)
  {
    var text := "\n" + rest;
    assert Span(text, c => !IsBreak(c)) == "";
    assert text[1..] == rest;
  }

  lemma LinesUnfold(text: string)
    ensures var line := Span(text, c => !IsBreak(c));
            Lines(text) == (if Strip(line) == "" then [] else [line]) + (if |line| < |text| then Lines(text[|line| + 1..]) else [])
  {
    hide Strip;
  }

  lemma NextLineSkips(text: string, end: nat)
    requires end < |text|
    ensures Lines(text[end + 1..]) == Lines(text[NextLine(text, end)..])
  {
    var rest := text[NextLine(text, end)..];
    if NextLine(text, end) == end + 2 {
      BlankLine(rest);
      assert text[end + 1..] == "\n" + rest;
    }
  }

  /** The lines that are read are those of `splitlines` that are not blank. */
  lemma {:induction false} LinesAreSplit(text: string)
    ensures Lines(text) == NonBlank(SplitLines(text))
    decreases |text|
  {
    var line := Span(text, c => !IsBreak(c));
    assert SplitLines(text) == if text == "" then [] else [line] + if |line| == |text| then [] else SplitLines(text[NextLine(text, |line|)..]);
    LinesUnfold(text);
    EmptyIsBlank();
    NonBlankNothing();
    hide Lines, SplitLines, NonBlank, Strip, Span;
    if |line| < |text| {
      NextLineSkips(text, |line|);
      LinesAreSplit(text[NextLine(text, |line|)..]);
      FirstLine(line, SplitLines(text[NextLine(text, |line|)..]));
    } else {
      FirstLine(line, []);
    }
  }

  lemma NonBlankNothing()
    ensures NonBlank([]) == []
  {
  }

  lemma EmptyIsBlank()
    ensures Strip("") == ""
  {
  }

  lemma FirstLine(line: string, rest: seq<string>)
    ensures NonBlank([line] + rest) == (if Strip(line) == "" then [] else [line]) + NonBlank(rest)
  {
    assert ([line] + rest)[1..] == rest;
  }

  lemma {:induction false} NonBlankConcat(a: seq<string>, b: seq<string>)
    ensures NonBlank(a + b) == NonBlank(a) + NonBlank(b)
  {
    hide Strip;
    if a == [] {
      assert a + b == b;
    } else {
      assert (a + b)[1..] == a[1..] + b;
      NonBlankConcat(a[1..], b);
    }
  }

  predicate AllUnbroken(lines: seq<string>) {
    forall i :: 0 <= i < |lines| ==> Unbroken(lines[i])
  }

  lemma SplitFirst(line: string, rest: string)
    requires Unbroken(line)
    ensures SplitLines(line + "\n" + rest) == [line] + SplitLines(rest)
  {
    var text := line + "\n" + rest;
    assert text == line + ("\n" + rest);
    SpanStops(line, "\n" + rest, c => !IsBreak(c));
    assert text[|line|] == '\n' && text[|line| + 1..] == rest;
  }

  /** Printed lines split into themselves. */
  lemma {:induction false} SplitPrinted(lines: seq<string>)
    requires AllUnbroken(lines)
    ensures SplitLines(Printed(lines)) == lines
  {
    hide Unbroken, SplitLines;
    if lines == [] {
      assert SplitLines("") == [] by { SplitNothing(); }
    } else {
      SplitPrinted(lines[1..]);
      SplitFirst(lines[0], Printed(lines[1..]));
    }
  }

  lemma SplitNothing()
    ensures SplitLines("") == []
  {
  }

  // --- Writing it ----------------------------------------------------------------------

  /** What `write_master` is told of a rung. */
  datatype Rung = Rung(resolution: string, codec: string, peak: nat, average: nat)

  /** The audio's own peak and average, and the URI of its playlist. */
  datatype AudioTrack = AudioTrack(peak: nat, average: nat, uri: string)

  const GROUP := "group_audio"

  function VariantUri(k: nat): string { "v" + Digits(k) + "/index.m3u8" }

  function MediaStart(count: nat): string {
    "#EXT-X-MEDIA:TYPE=AUDIO,GROUP-ID=\"" + GROUP + ("\",NAME=\"audio_" + Digits(count) + ("\",DEFAULT=YES," + "CHANNELS=\"2\",URI="))
  }

  function Media(count: nat, uri: string): string {
    MediaStart(count) + "\"" + (uri + "\"")
  }

  function MasterHead(count: nat, audio: AudioTrack): seq<string> {
    ["#EXTM3U", "#EXT-X-VERSION:3", Media(count, audio.uri)]
  }

  /** A rung's line up to its quoted codecs. */
  function VideoHead(r: Rung, audio: AudioTrack): string {
    "#EXT-X-STREAM-INF:BANDWIDTH=" + Digits(r.peak + audio.peak)
    + (",AVERAGE-BANDWIDTH=" + Digits(r.average + audio.average) + (",RESOLUTION=" + r.resolution + ",CODECS="))
  }

  function VideoStart(r: Rung, audio: AudioTrack): string {
    VideoHead(r, audio) + "\"" + (r.codec + ",mp4a.40.2") + "\""
  }

  function VideoInfo(r: Rung, audio: AudioTrack): string {
    (VideoStart(r, audio) + ",") + (AUDIO_IS + GROUP + "\"")
  }

  function AudioInfo(audio: AudioTrack): string {
    "#EXT-X-STREAM-INF:BANDWIDTH=" + Digits(audio.peak)
    + (",AVERAGE-BANDWIDTH=" + Digits(audio.average) + (",CODECS=\"mp4a.40.2\"," + (AUDIO_IS + GROUP + "\"")))
  }

  function RungLines(rungs: seq<Rung>, audio: AudioTrack): seq<string> {
    if rungs == [] then []
    else
      var k := |rungs| - 1;
      RungLines(rungs[..k], audio) + [VideoInfo(rungs[k], audio), VariantUri(k), ""]
  }

  function MasterLines(rungs: seq<Rung>, audio: AudioTrack): seq<string> {
    MasterHead(|rungs|, audio) + RungLines(rungs, audio) + [AudioInfo(audio), audio.uri]
  }

  /** `write_master`. */
  method WriteMaster(rungs: seq<Rung>, audio: AudioTrack) returns (text: string)
    ensures text == Printed(MasterLines(rungs, audio))
  {
    hide VideoInfo, AudioInfo, Media, VariantUri;
    var lines := MasterHead(|rungs|, audio);
    var k := 0;
    while k < |rungs|
      invariant 0 <= k <= |rungs|
      invariant lines == MasterHead(|rungs|, audio) + RungLines(rungs[..k], audio)
    {
      assert rungs[..k + 1][..k] == rungs[..k];
      lines := lines + [VideoInfo(rungs[k], audio), VariantUri(k), ""];
      k := k + 1;
    }
    assert rungs[..k] == rungs;
    lines := lines + [AudioInfo(audio), audio.uri];
    text := Printed(lines);
  }

  // --- The frame rates -------------------------------------------------------------------

  /** `{rate:.3f}`. */
  function Fixed3(rate: real): string
    requires rate >= 0.0
  {
    NearestHalfEven(rate * 1000.0);
    var m: nat := HalfEven(rate * 1000.0);
    Digits(m / 1000) + "." + LadderJoin.Padded(m % 1000, 3)
  }

  function LabelledLine(line: string, rate: string): string {
    if StartsWith(line, STREAM_INF) && Contains(line, "RESOLUTION=") && !Contains(line, RATE_IS)
    then line + RatePart(Some(rate)) else line
  }

  function LabelAll(lines: seq<string>, rate: string): seq<string> {
    seq(|lines|, i requires 0 <= i < |lines| => LabelledLine(lines[i], rate))
  }

  /** `label_frame_rates`: the loop over the lines. */
  method LabelFrameRates(master: string, rate: real) returns (text: string)
    requires rate >= 0.0
    ensures text == Printed(LabelAll(SplitLines(master), Fixed3(rate)))
  {
    hide Contains, SplitLines, Fixed3, RatePart;
    var all, lines, k := SplitLines(master), [], 0;
    while k < |all|
      invariant 0 <= k <= |all|
      invariant lines == LabelAll(all, Fixed3(rate))[..k]
    {
      var line := all[k];
      if StartsWith(line, STREAM_INF) && Contains(line, "RESOLUTION=") && !Contains(line, RATE_IS) {
        line := line + RatePart(Some(Fixed3(rate)));
      }
      lines := lines + [line];
      k := k + 1;
    }
    assert lines == LabelAll(all, Fixed3(rate));
    text := Printed(lines);
  }

  // --- What its lines are -------------------------------------------------------------------

  predicate PlainRung(r: Rung) { r.resolution != "" && Plain(r.resolution) && Plain(r.codec) }

  /** A URI that is a line, no tag, and holds no rendition's URI. */
  ghost predicate HarmlessUri(uri: string) {
    && IsLine(uri) && '"' !in uri && !IsInfo(uri) && Rank(Entry("", uri)) == 2
    && forall kind: Kind, n: nat :: !Contains(uri, Uri(kind, n))
  }

  lemma UriChars(kind: Kind, n: nat)
    ensures var u := Uri(kind, n); '/' in u && '"' !in u && '\n' !in u && u != "" && (if kind.Hdr? then 'h' in u else 'a' in u)
  {
    UriIsLine(kind, n);
    UriParts(kind, n);
    assert Uri(kind, n)[0] in Uri(kind, n);
  }

  lemma VariantChars(k: nat)
    ensures var u := VariantUri(k);
            && |u| == |Digits(k)| + 12 && u[0] == 'v' && u[..|Digits(k)| + 1] == "v" + Digits(k)
            && u[|Digits(k)| + 1..] == "/index.m3u8"
            && forall i :: 0 <= i < |u| ==> u[i] != 'h' && u[i] != 'a' && u[i] != '"' && !IsBreak(u[i])
  {
    var d, tail, u := Digits(k), "/index.m3u8", VariantUri(k);
    assert u == "v" + d + tail;
    assert forall i :: 0 <= i < |d| ==> d[i] in d && IsDigit(d[i]);
    assert forall i :: 0 <= i < |tail| ==> tail[i] != 'h' && tail[i] != 'a' && tail[i] != '"' && !IsBreak(tail[i]);
    forall i | 0 <= i < |u| ensures u[i] != 'h' && u[i] != 'a' && u[i] != '"' && !IsBreak(u[i]) {
      if 1 <= i < 1 + |d| {
        assert u[i] == d[i - 1];
      } else if i > |d| {
        assert u[i] == tail[i - 1 - |d|];
      }
    }
  }

  /** A rung's own URI, and the audio's where it is one, is such a URI. */
  lemma VariantIsHarmless(k: nat)
    ensures HarmlessUri(VariantUri(k)) && Unbroken(VariantUri(k))
  {
    var u := VariantUri(k);
    VariantChars(k);
    hide VariantUri;
    LineWithText(u);
    VariantRank(k);
    forall kind: Kind, n: nat ensures !Contains(u, Uri(kind, n)) {
      UriChars(kind, n);
      NoSuchChar(u, Uri(kind, n), if kind.Hdr? then 'h' else 'a');
    }
  }

  lemma VariantRank(k: nat)
    ensures Rank(Entry("", VariantUri(k))) == 2
  {
    var first := "v" + Digits(k);
    assert forall c :: c in Digits(k) ==> IsDigit(c);
    assert VariantUri(k) == first + "/index.m3u8";
    SpanStops(first, "/index.m3u8", c => c != '/');
    assert first[0] == 'v';
  }

  lemma DigitsAreCalm(n: nat)
    ensures Calm(Digits(n)) && CalmStart(Digits(n))
  {
    DigitsArePlain(n);
    PlainIsCalm(Digits(n));
  }

  lemma VideoHeadIs(r: Rung, audio: AudioTrack)
    requires PlainRung(r)
    ensures var h := VideoHead(r, audio);
            && Calm(h) && |h| > 2 && h[|h| - 1] == '=' && h[|h| - 2] == 'S' && h[0] == '#'
            && StartsWith(h, STREAM_INF) && Contains(h, "RESOLUTION=")
  {
    var peak, average := Digits(r.peak + audio.peak), Digits(r.average + audio.average);
    DigitsAreCalm(r.peak + audio.peak);
    DigitsAreCalm(r.average + audio.average);
    PlainIsCalm(r.resolution);
    hide Calm, CalmStart, Plain, Contains, StartsWith;
    InfoHeadCalm(peak, average, r.resolution);
    InfoHeadText(peak, average, r.resolution);
  }

  lemma QuotedChars(h: string, c: string)
    requires Calm(h) && Plain(c)
    ensures var s := h + "\"" + c + "\""; '/' !in s && Unbroken(s)
  {
    hide IsBreak;
    var s := h + "\"" + c + "\"";
    QuoteIsNoBreak();
    forall i | 0 <= i < |s| ensures s[i] != '/' && !IsBreak(s[i]) {
      assert s[i] == if i < |h| then h[i] else if i == |h| then '"' else if i <= |h| + |c| then c[i - |h| - 1] else '"';
    }
  }

  lemma QuoteIsNoBreak()
    ensures !IsBreak('"')
  {
  }

  lemma CodecIsPlain(codec: string)
    requires Plain(codec)
    ensures Plain(codec + ",mp4a.40.2")
  {
    HeadLiterals();
    PlainJoin(codec, ",mp4a.40.2");
  }

  /** A rung's line up to the group: nothing in it can be taken for a group or a rate. */
  lemma VideoStartIs(r: Rung, audio: AudioTrack)
    requires PlainRung(r)
    ensures var s := VideoStart(r, audio);
            && NoAudio(s) && NoRate(s) && '/' !in s && Unbroken(s) && s != "" && s[0] == '#'
            && StartsWith(s, STREAM_INF) && Contains(s, "RESOLUTION=")
  {
    var h, c := VideoHead(r, audio), r.codec + ",mp4a.40.2";
    VideoHeadIs(r, audio);
    CodecIsPlain(r.codec);
    hide VideoHead, NoAudio, NoRate, Contains, StartsWith, Calm, Plain, Unbroken;
    EmptyIsCalm();
    StartIsClear(h, c, "");
    assert h + "\"" + c + "\"" + "" == VideoStart(r, audio);
    QuotedChars(h, c);
    HeadGives(h, "\"" + c + "\"");
    assert h + ("\"" + c + "\"") == VideoStart(r, audio);
  }

  lemma EmptyIsCalm()
    ensures Calm("") && CalmStart("")
  {
  }

  lemma GroupChars()
    ensures GROUP != "" && '"' !in GROUP && '=' !in GROUP && '=' !in GROUP + "\"" && Unbroken(GROUP) && '/' !in GROUP
  {
  }

  lemma GroupAttribute()
    ensures Unbroken(AUDIO_IS + GROUP + "\"") && '/' !in AUDIO_IS + GROUP + "\""
  {
    GroupChars();
    assert Unbroken(AUDIO_IS) && '/' !in AUDIO_IS && Unbroken("\"");
    hide Unbroken;
    UnbrokenJoin(AUDIO_IS, GROUP);
    UnbrokenJoin(AUDIO_IS + GROUP, "\"");
  }

  lemma NoEqualsNoRate(s: string)
    requires '=' !in s
    ensures NoRate(s)
  {
  }

  lemma NothingHasNoRate()
    ensures RateOf("") == None
  {
  }

  lemma GroupHasNoRate()
    ensures RateOf(GROUP) == None
  {
    hide RateOf, NoRate;
    GroupChars();
    NoEqualsNoRate(GROUP);
    NothingHasNoRate();
    ClearOfRate(GROUP, "");
    assert GROUP + "" == GROUP;
  }

  lemma NoRateJoin(a: string, b: string)
    requires NoRate(a) && '=' !in b
    ensures NoRate(a + b)
  {
    assert forall k :: |a| <= k < |a + b| ==> (a + b)[k] in b;
  }

  lemma NoRateHolds(s: string)
    requires NoRate(s)
    ensures !Contains(s, RATE_IS)
  {
    if i: nat :| i <= |s| && At(s, RATE_IS, i) {
      var p := s[i..i + |RATE_IS|];
      assert p[10] == s[i + 10] && p[9] == s[i + 9] && p[8] == s[i + 8];
    }
  }

  lemma RateChars(rate: Option<string>)
    requires IsNumber(rate)
    ensures '/' !in RatePart(rate) && Unbroken(RatePart(rate))
  {
    if rate.Some? {
      RateTagChars();
      forall i | 0 <= i < |rate.value| ensures rate.value[i] != '/' && !IsBreak(rate.value[i]) {
        assert rate.value[i] in rate.value;
      }
      assert Unbroken(rate.value) && '/' !in rate.value;
      hide Unbroken;
      UnbrokenJoin("," + RATE_IS, rate.value);
      assert RatePart(rate) == "," + RATE_IS + rate.value;
    }
  }

  lemma RateTagChars()
    ensures '/' !in "," + RATE_IS && Unbroken("," + RATE_IS)
  {
  }

  /** A rung's line as it is written has no rate, so it is given one. */
  lemma VideoHasNoRate(r: Rung, audio: AudioTrack)
    requires PlainRung(r)
    ensures !Contains(VideoInfo(r, audio), RATE_IS)
  {
    var start := VideoStart(r, audio);
    VideoStartIs(r, audio);
    GroupChars();
    StillClear(start);
    hide VideoStart, Contains, NoAudio, NoRate;
    NoRateJoin(start + "," + AUDIO_IS, GROUP + "\"");
    assert VideoInfo(r, audio) == start + "," + AUDIO_IS + (GROUP + "\"");
    NoRateHolds(VideoInfo(r, audio));
  }

  /** The group and the rate are read back from a rung's line, labelled or not. */
  lemma VideoAttributes(r: Rung, audio: AudioTrack, rate: Option<string>)
    requires PlainRung(r) && IsNumber(rate)
    ensures var info := VideoInfo(r, audio) + RatePart(rate); AudioOf(info) == Some(GROUP) && RateOf(info) == rate
  {
    var start := VideoStart(r, audio);
    VideoStartIs(r, audio);
    GroupHasNoRate();
    GroupChars();
    hide VideoStart, AudioOf, RateOf, NoAudio, NoRate, RatePart, Contains, StartsWith, Unbroken, IsNumber;
    WithAudio(start, GROUP, rate);
    assert VideoInfo(r, audio) + RatePart(rate) == (start + ",") + (AUDIO_IS + GROUP + "\"" + RatePart(rate));
  }

  /** And it is a line that begins an entry with a picture. */
  lemma VideoInfoIs(r: Rung, audio: AudioTrack, rate: Option<string>)
    requires PlainRung(r) && IsNumber(rate)
    ensures var info := VideoInfo(r, audio) + RatePart(rate);
            IsLine(info) && IsInfo(info) && '/' !in info && Unbroken(info) && Contains(info, "RESOLUTION=")
  {
    var start, group, part := VideoStart(r, audio), AUDIO_IS + GROUP + "\"", RatePart(rate);
    VideoStartIs(r, audio);
    GroupAttribute();
    RateChars(rate);
    OneUnbroken();
    hide VideoStart, NoAudio, NoRate, RatePart, Contains, StartsWith, Unbroken, IsNumber, IsLine, GROUP, AUDIO_IS;
    var tail := "," + group + part;
    HeadGives(start, tail);
    UnbrokenJoin(",", group);
    UnbrokenJoin("," + group, part);
    UnbrokenJoin(start, tail);
    VideoInfoJoins(r, audio, rate);
    assert (start + tail)[0] == '#';
    UnbrokenLine(start + tail);
  }

  lemma VideoInfoJoins(r: Rung, audio: AudioTrack, rate: Option<string>)
    ensures VideoInfo(r, audio) + RatePart(rate) == VideoStart(r, audio) + ("," + (AUDIO_IS + GROUP + "\"") + RatePart(rate))
  {
    hide VideoStart, RatePart;
  }

  lemma OneUnbroken()
    ensures Unbroken(",") && !IsSpace('#')
  {
  }

  /** The audio's own entry names no resolution, so it gets no rate. */
  lemma AudioInfoIs(audio: AudioTrack)
    ensures var info := AudioInfo(audio);
            IsLine(info) && IsInfo(info) && '/' !in info && Unbroken(info) && !Contains(info, "RESOLUTION=")
  {
    var tag, average, codecs := "#EXT-X-STREAM-INF:BANDWIDTH=", ",AVERAGE-BANDWIDTH=", ",CODECS=\"mp4a.40.2\",";
    var peak, mean, group := Digits(audio.peak), Digits(audio.average), AUDIO_IS + GROUP + "\"";
    assert Bare(tag) && Bare(average) && Bare(codecs);
    GroupIsBare();
    DigitsAreBare(audio.peak);
    DigitsAreBare(audio.average);
    assert tag[..|STREAM_INF|] == STREAM_INF && tag[0] == '#' && !IsSpace('#');
    hide Bare, GROUP, AUDIO_IS;
    BareJoin(tag, peak);
    BareJoin(average, mean);
    BareJoin(codecs, group);
    BareJoin(average + mean, codecs + group);
    BareJoin(tag + peak, average + mean + (codecs + group));
    var info := tag + peak + (average + mean + (codecs + group));
    assert info == AudioInfo(audio);
    assert info[..|STREAM_INF|] == STREAM_INF;
    BareIs(info);
    UnbrokenLine(info);
  }

  /** No slash, no break, and none of the letters that only "RESOLUTION=" has. */
  predicate Bare(s: string) { forall i :: 0 <= i < |s| ==> s[i] != '/' && s[i] != 'L' && !IsBreak(s[i]) }

  lemma BareJoin(a: string, b: string)
    requires Bare(a) && Bare(b)
    ensures Bare(a + b)
  {
  }

  lemma BareIs(s: string)
    requires Bare(s)
    ensures '/' !in s && Unbroken(s) && !Contains(s, "RESOLUTION=")
  {
    hide Contains, IsBreak;
    assert 'L' in "RESOLUTION=" by { assert "RESOLUTION="[4] == 'L'; }
    NoSuchChar(s, "RESOLUTION=", 'L');
  }

  lemma DigitsAreBare(n: nat)
    ensures Bare(Digits(n))
  {
    forall i | 0 <= i < |Digits(n)| ensures IsDigit(Digits(n)[i]) {
      assert Digits(n)[i] in Digits(n);
    }
  }

  lemma GroupIsBare()
    ensures Bare(AUDIO_IS + GROUP + "\"")
  {
    assert Bare(AUDIO_IS) && Bare(GROUP) && Bare("\"");
    hide Bare;
    BareJoin(AUDIO_IS, GROUP);
    BareJoin(AUDIO_IS + GROUP, "\"");
  }

  lemma MediaStartIs(count: nat)
    ensures var s := MediaStart(count); '/' !in s && Unbroken(s) && |s| > 7 && s[0] == '#' && s[7] == 'M'
  {
    var a, b, c, d, digits := "#EXT-X-MEDIA:TYPE=AUDIO,GROUP-ID=\"", "\",NAME=\"audio_", "\",DEFAULT=YES,", "CHANNELS=\"2\",URI=", Digits(count);
    assert Slashless(a) && a[0] == '#' && a[7] == 'M';
    assert Slashless(b) && Slashless(c) && Slashless(d) && Slashless(GROUP);
    DigitsAreBare(count);
    assert Slashless(digits);
    hide Slashless, GROUP;
    SlashlessJoin(a, GROUP);
    SlashlessJoin(b, digits);
    SlashlessJoin(c, d);
    SlashlessJoin(b + digits, c + d);
    SlashlessJoin(a + GROUP, b + digits + (c + d));
    var s := a + GROUP + (b + digits + (c + d));
    assert s == MediaStart(count);
    assert s[0] == a[0] && s[7] == a[7];
    SlashlessIs(s);
  }

  predicate Slashless(s: string) { forall i :: 0 <= i < |s| ==> s[i] != '/' && !IsBreak(s[i]) }

  lemma SlashlessJoin(a: string, b: string)
    requires Slashless(a) && Slashless(b)
    ensures Slashless(a + b)
  {
  }

  lemma SlashlessIs(s: string)
    requires Slashless(s)
    ensures '/' !in s && Unbroken(s)
  {
  }

  /** The audio group's line: no entry, and it holds no rendition's URI. */
  lemma MediaIs(count: nat, uri: string)
    requires HarmlessUri(uri)
    ensures var m := Media(count, uri); IsLine(m) && !IsInfo(m) && Unbroken(m)
    ensures forall kind: Kind, n: nat :: !Contains(Media(count, uri), Uri(kind, n))
  {
    var start, m := MediaStart(count), Media(count, uri);
    MediaStartIs(count);
    QuoteIsNoBreak();
    assert Unbroken(uri) && Unbroken("\"");
    hide MediaStart, Unbroken, IsBreak, IsLine;
    assert m == start + ("\"" + (uri + "\""));
    UnbrokenJoin(uri, "\"");
    UnbrokenJoin("\"", uri + "\"");
    UnbrokenJoin(start, "\"" + (uri + "\""));
    assert m[0] == '#' && m[7] == 'M' && STREAM_INF[7] == 'S' && !IsSpace('#');
    UnbrokenLine(m);
    assert !IsInfo(m) by {
      assert |m| >= |STREAM_INF| ==> m[..|STREAM_INF|][7] == m[7];
    }
    hide Contains, Uri;
    forall kind: Kind, n: nat ensures !Contains(m, Uri(kind, n)) {
      UriChars(kind, n);
      var p := Uri(kind, n);
      ContainsSplit(start, '"', uri + ['"'], p);
      ContainsSplit(uri, '"', "", p);
      assert start + ['"'] + (uri + ['"']) == m && uri + ['"'] + "" == uri + ['"'];
      NoSuchChar(start, p, '/');
      NoSuchChar("", p, '/');
    }
  }

  // --- What it reads back as ---------------------------------------------------------------

  /** The rungs' entries, each with the rate it was given. */
  function VideoEntries(rungs: seq<Rung>, audio: AudioTrack, rate: Option<string>): seq<Entry> {
    seq(|rungs|, k requires 0 <= k < |rungs| => Entry(VideoInfo(rungs[k], audio) + RatePart(rate), VariantUri(k)))
  }

  function Meant(rungs: seq<Rung>, audio: AudioTrack, rate: Option<string>): Document {
    Document(MasterHead(|rungs|, audio), VideoEntries(rungs, audio, rate) + [Entry(AudioInfo(audio), audio.uri)])
  }

  predicate PlainRungs(rungs: seq<Rung>) { forall k :: 0 <= k < |rungs| ==> PlainRung(rungs[k]) }

  /** The lines as they are stored: labelled, or as they were written. */
  function Labels(lines: seq<string>, rate: Option<string>): seq<string> {
    if rate.Some? then LabelAll(lines, rate.value) else lines
  }

  lemma LabelsJoin(a: seq<string>, b: seq<string>, rate: Option<string>)
    ensures Labels(a + b, rate) == Labels(a, rate) + Labels(b, rate)
  {
    hide LabelledLine;
  }

  lemma OthersUnlabelled(line: string, rate: Option<string>)
    requires !IsInfo(line) || !Contains(line, "RESOLUTION=")
    ensures Labels([line], rate) == [line]
  {
    hide Contains;
  }

  lemma VideosLabelled(r: Rung, audio: AudioTrack, rate: Option<string>)
    requires PlainRung(r) && IsNumber(rate)
    ensures Labels([VideoInfo(r, audio)], rate) == [VideoInfo(r, audio) + RatePart(rate)]
  {
    VideoInfoIs(r, audio, None);
    VideoHasNoRate(r, audio);
    hide VideoInfo, Contains;
    assert VideoInfo(r, audio) + RatePart(None) == VideoInfo(r, audio);
  }

  lemma OneLine(line: string)
    requires IsLine(line)
    ensures NonBlank([line]) == [line]
  {
    assert [line][1..] == [];
  }

  lemma NoLine()
    ensures NonBlank([""]) == [] && !IsInfo("")
  {
    assert [""][1..] == [];
  }

  lemma {:induction false} PairLinesMore(entries: seq<Entry>, e: Entry)
    ensures PairLines(entries + [e]) == PairLines(entries) + [e.info, e.uri]
  {
    if entries == [] {
      assert [e][1..] == [];
      assert PairLines([e]) == [e.info, e.uri] + PairLines([]);
    } else {
      assert (entries + [e])[1..] == entries[1..] + [e];
      PairLinesMore(entries[1..], e);
    }
  }

  lemma RungLabelled(r: Rung, k: nat, audio: AudioTrack, rate: Option<string>)
    requires PlainRung(r) && IsNumber(rate)
    ensures var lines := [VideoInfo(r, audio), VariantUri(k), ""];
            NonBlank(Labels(lines, rate)) == [VideoInfo(r, audio) + RatePart(rate), VariantUri(k)]
  {
    var info, uri := VideoInfo(r, audio), VariantUri(k);
    VideosLabelled(r, audio, rate);
    VideoInfoIs(r, audio, rate);
    VariantIsHarmless(k);
    NoLine();
    hide VideoInfo, VariantUri, RatePart, Contains, IsLine, IsInfo, Labels, NonBlank;
    OthersUnlabelled(uri, rate);
    OthersUnlabelled("", rate);
    LabelsJoin([info], [uri], rate);
    LabelsJoin([info] + [uri], [""], rate);
    assert [info] + [uri] + [""] == [info, uri, ""];
    var labelled := info + RatePart(rate);
    NonBlankConcat([labelled], [uri]);
    NonBlankConcat([labelled] + [uri], [""]);
    OneLine(labelled);
    OneLine(uri);
  }

  lemma {:induction false} RungLinesLabelled(rungs: seq<Rung>, audio: AudioTrack, rate: Option<string>)
    requires PlainRungs(rungs) && IsNumber(rate)
    ensures NonBlank(Labels(RungLines(rungs, audio), rate)) == PairLines(VideoEntries(rungs, audio, rate))
  {
    hide VideoInfo, VariantUri, RatePart, Labels, NonBlank;
    if rungs == [] {
      NothingLabelled(rate);
    } else {
      var k := |rungs| - 1;
      var before, r := rungs[..k], rungs[k];
      RungLinesLabelled(before, audio, rate);
      RungLabelled(r, k, audio, rate);
      LabelsJoin(RungLines(before, audio), [VideoInfo(r, audio), VariantUri(k), ""], rate);
      NonBlankConcat(Labels(RungLines(before, audio), rate), Labels([VideoInfo(r, audio), VariantUri(k), ""], rate));
      var e := Entry(VideoInfo(r, audio) + RatePart(rate), VariantUri(k));
      PairLinesMore(VideoEntries(before, audio, rate), e);
      assert VideoEntries(rungs, audio, rate) == VideoEntries(before, audio, rate) + [e];
    }
  }

  lemma NothingLabelled(rate: Option<string>)
    ensures NonBlank(Labels([], rate)) == []
  {
  }

  lemma HeadLabelled(count: nat, audio: AudioTrack, rate: Option<string>)
    requires HarmlessUri(audio.uri)
    ensures var head := MasterHead(count, audio);
            && NonBlank(Labels(head, rate)) == head && AllUnbroken(head)
            && forall i :: 0 <= i < |head| ==> IsLine(head[i]) && !IsInfo(head[i])
  {
    var a, b, m := "#EXTM3U", "#EXT-X-VERSION:3", Media(count, audio.uri);
    FirstLinesAre();
    MediaIs(count, audio.uri);
    hide Media, Contains, IsLine, IsInfo, Labels, NonBlank, Unbroken;
    OthersUnlabelled(a, rate);
    OthersUnlabelled(b, rate);
    OthersUnlabelled(m, rate);
    LabelsJoin([a], [b], rate);
    LabelsJoin([a] + [b], [m], rate);
    assert [a] + [b] + [m] == MasterHead(count, audio);
    NonBlankConcat([a], [b]);
    NonBlankConcat([a] + [b], [m]);
    OneLine(a);
    OneLine(b);
    OneLine(m);
  }

  lemma FirstLinesAre()
    ensures var a, b := "#EXTM3U", "#EXT-X-VERSION:3";
            IsLine(a) && IsLine(b) && !IsInfo(a) && !IsInfo(b) && Unbroken(a) && Unbroken(b) && '/' !in a && '/' !in b
  {
    assert !IsSpace('#');
    LineWithText("#EXTM3U");
    LineWithText("#EXT-X-VERSION:3");
  }

  lemma AudioLabelled(audio: AudioTrack, rate: Option<string>)
    requires HarmlessUri(audio.uri)
    ensures NonBlank(Labels([AudioInfo(audio), audio.uri], rate)) == [AudioInfo(audio), audio.uri]
  {
    var info := AudioInfo(audio);
    AudioInfoIs(audio);
    hide AudioInfo, Contains, IsLine, IsInfo, Labels, NonBlank;
    OthersUnlabelled(info, rate);
    OthersUnlabelled(audio.uri, rate);
    LabelsJoin([info], [audio.uri], rate);
    assert [info] + [audio.uri] == [info, audio.uri];
    NonBlankConcat([info], [audio.uri]);
    OneLine(info);
    OneLine(audio.uri);
  }

  lemma ThreeParts(a: seq<string>, b: seq<string>, c: seq<string>, rate: Option<string>)
    ensures NonBlank(Labels(a + b + c, rate)) == NonBlank(Labels(a, rate)) + NonBlank(Labels(b, rate)) + NonBlank(Labels(c, rate))
  {
    hide Labels, NonBlank;
    LabelsJoin(a, b, rate);
    LabelsJoin(a + b, c, rate);
    NonBlankConcat(Labels(a, rate), Labels(b, rate));
    NonBlankConcat(Labels(a, rate) + Labels(b, rate), Labels(c, rate));
  }

  /** What is not blank of the stored lines is the document that is meant. */
  lemma LinesAreMeant(rungs: seq<Rung>, audio: AudioTrack, rate: Option<string>)
    requires PlainRungs(rungs) && HarmlessUri(audio.uri) && IsNumber(rate)
    ensures var d := Meant(rungs, audio, rate);
            NonBlank(Labels(MasterLines(rungs, audio), rate)) == d.head + PairLines(d.entries)
  {
    hide AudioInfo, MasterHead, RungLines, VideoEntries, Labels, NonBlank, HarmlessUri, PlainRungs, IsNumber, PairLines, Contains, IsLine, IsInfo, Unbroken;
    var head, middle, last := MasterHead(|rungs|, audio), RungLines(rungs, audio), [AudioInfo(audio), audio.uri];
    HeadLabelled(|rungs|, audio, rate);
    RungLinesLabelled(rungs, audio, rate);
    AudioLabelled(audio, rate);
    ThreeParts(head, middle, last, rate);
    var videos, e := VideoEntries(rungs, audio, rate), Entry(AudioInfo(audio), audio.uri);
    PairLinesMore(videos, e);
    assert head + PairLines(videos) + last == head + (PairLines(videos) + last);
  }

  lemma {:induction false} RungLinesUnbroken(rungs: seq<Rung>, audio: AudioTrack)
    requires PlainRungs(rungs)
    ensures AllUnbroken(RungLines(rungs, audio))
  {
    hide VideoInfo, VariantUri, Unbroken;
    if rungs != [] {
      var k := |rungs| - 1;
      RungLinesUnbroken(rungs[..k], audio);
      UnlabelledUnbroken(rungs[k], audio);
      VariantIsHarmless(k);
    }
  }

  lemma UnlabelledUnbroken(r: Rung, audio: AudioTrack)
    requires PlainRung(r)
    ensures Unbroken(VideoInfo(r, audio)) && Unbroken("")
  {
    VideoInfoIs(r, audio, None);
    hide VideoInfo;
    assert VideoInfo(r, audio) + RatePart(None) == VideoInfo(r, audio);
  }

  lemma AllUnbrokenJoin(a: seq<string>, b: seq<string>)
    requires AllUnbroken(a) && AllUnbroken(b)
    ensures AllUnbroken(a + b)
  {
    hide Unbroken;
  }

  lemma LastUnbroken(audio: AudioTrack)
    requires HarmlessUri(audio.uri)
    ensures AllUnbroken([AudioInfo(audio), audio.uri])
  {
    AudioInfoIs(audio);
    hide AudioInfo, Contains;
  }

  lemma MasterUnbroken(rungs: seq<Rung>, audio: AudioTrack)
    requires PlainRungs(rungs) && HarmlessUri(audio.uri)
    ensures AllUnbroken(MasterLines(rungs, audio))
  {
    hide AudioInfo, MasterHead, RungLines, AllUnbroken, HarmlessUri, PlainRungs, Labels, NonBlank, IsLine, IsInfo;
    HeadLabelled(|rungs|, audio, None);
    RungLinesUnbroken(rungs, audio);
    LastUnbroken(audio);
    AllUnbrokenJoin(MasterHead(|rungs|, audio), RungLines(rungs, audio));
    AllUnbrokenJoin(MasterHead(|rungs|, audio) + RungLines(rungs, audio), [AudioInfo(audio), audio.uri]);
  }

  lemma LabelledUnbroken(lines: seq<string>, rate: Option<string>)
    requires AllUnbroken(lines) && IsNumber(rate)
    ensures AllUnbroken(Labels(lines, rate))
  {
    RateChars(rate);
    hide Unbroken, RatePart, Contains;
    if rate.Some? {
      forall i | 0 <= i < |lines| ensures Unbroken(Labels(lines, rate)[i]) {
        UnbrokenJoin(lines[i], RatePart(rate));
      }
    }
  }

  /** The text that is stored: written, and labelled if the rate is known. */
  function Stored(rungs: seq<Rung>, audio: AudioTrack, rate: Option<string>): string {
    Printed(Labels(MasterLines(rungs, audio), rate))
  }

  /** Labelling the written text labels its lines. */
  lemma StoredIsWritten(rungs: seq<Rung>, audio: AudioTrack, rate: string)
    requires PlainRungs(rungs) && HarmlessUri(audio.uri)
    ensures Printed(LabelAll(SplitLines(Printed(MasterLines(rungs, audio))), rate)) == Stored(rungs, audio, Some(rate))
  {
    MasterUnbroken(rungs, audio);
    hide MasterLines, HarmlessUri, LabelAll, SplitLines;
    SplitPrinted(MasterLines(rungs, audio));
  }

  lemma MeantIsWellFormed(rungs: seq<Rung>, audio: AudioTrack, rate: Option<string>)
    requires PlainRungs(rungs) && HarmlessUri(audio.uri) && IsNumber(rate)
    ensures WellFormed(Meant(rungs, audio, rate)) && Whole(Meant(rungs, audio, rate))
  {
    HeadLabelled(|rungs|, audio, rate);
    AudioInfoIs(audio);
    hide MasterHead, AudioInfo, VideoInfo, VariantUri, RatePart, IsLine, IsInfo, Labels, NonBlank, Contains, Unbroken;
    var d := Meant(rungs, audio, rate);
    forall i | 0 <= i < |d.entries| ensures IsLine(d.entries[i].info) && IsInfo(d.entries[i].info) && IsLine(d.entries[i].uri) {
      if i < |rungs| {
        VideoInfoIs(rungs[i], audio, rate);
        VariantIsHarmless(i);
      }
    }
  }

  /** Reading the stored text gives the document that is meant. */
  lemma StoredIsRead(rungs: seq<Rung>, audio: AudioTrack, rate: Option<string>)
    requires PlainRungs(rungs) && HarmlessUri(audio.uri) && IsNumber(rate)
    ensures Parse(Stored(rungs, audio, rate)) == Meant(rungs, audio, rate)
  {
    hide MasterLines, Meant, HarmlessUri, Labels, NonBlank, SplitLines, Lines, PlainRungs, IsNumber;
    var lines := Labels(MasterLines(rungs, audio), rate);
    MasterUnbroken(rungs, audio);
    LabelledUnbroken(MasterLines(rungs, audio), rate);
    SplitPrinted(lines);
    LinesAreSplit(Printed(lines));
    LinesAreMeant(rungs, audio, rate);
    MeantIsWellFormed(rungs, audio, rate);
    ReadingDocument(Meant(rungs, audio, rate));
  }

  // --- And it is good ---------------------------------------------------------------------

  lemma {:induction false} DroppedAll(s: string)
    requires StripLeft(s, IsSpace) == ""
    ensures '/' !in s
  {
    if s != "" {
      DroppedAll(s[1..]);
      assert s == [s[0]] + s[1..];
    }
  }

  lemma BlankHasNoSlash(s: string)
    requires Strip(s) == ""
    ensures '/' !in s
  {
    var left := StripLeft(s, IsSpace);
    StripLeftHead(s, IsSpace);
    if left != "" {
      StripRightKeepsHead(left, IsSpace);
    }
    DroppedAll(s);
  }

  lemma {:induction false} NotBlankIsKept(lines: seq<string>, i: nat)
    requires i < |lines| && '/' in lines[i]
    ensures lines[i] in NonBlank(lines)
  {
    hide Strip;
    if i == 0 {
      if Strip(lines[0]) == "" { BlankHasNoSlash(lines[0]); }
    } else {
      NotBlankIsKept(lines[1..], i - 1);
    }
  }

  lemma NoRenditionInHead(count: nat, audio: AudioTrack, line: string, kind: Kind, n: nat)
    requires HarmlessUri(audio.uri) && line in MasterHead(count, audio)
    ensures !Contains(line, Uri(kind, n))
  {
    UriChars(kind, n);
    FirstLinesAre();
    MediaIs(count, audio.uri);
    hide Contains, Uri, Media, IsLine, IsInfo, Unbroken;
    if line != Media(count, audio.uri) {
      NoSuchChar(line, Uri(kind, n), '/');
    }
  }

  lemma NoRenditionInEntry(rungs: seq<Rung>, audio: AudioTrack, rate: Option<string>, i: nat, kind: Kind, n: nat)
    requires PlainRungs(rungs) && HarmlessUri(audio.uri) && IsNumber(rate) && i <= |rungs|
    ensures var e := Meant(rungs, audio, rate).entries[i]; !Contains(e.info, Uri(kind, n)) && !Contains(e.uri, Uri(kind, n))
  {
    UriChars(kind, n);
    AudioInfoIs(audio);
    hide Contains, Uri, AudioInfo, VideoInfo, RatePart, VariantUri, IsLine, IsInfo, Unbroken, MasterHead;
    if i < |rungs| {
      VideoInfoIs(rungs[i], audio, rate);
      VariantIsHarmless(i);
    }
    NoSuchChar(Meant(rungs, audio, rate).entries[i].info, Uri(kind, n), '/');
  }

  lemma NoRenditionMeant(rungs: seq<Rung>, audio: AudioTrack, rate: Option<string>, line: string, kind: Kind, n: nat)
    requires PlainRungs(rungs) && HarmlessUri(audio.uri) && IsNumber(rate)
    requires var d := Meant(rungs, audio, rate); line in d.head + PairLines(d.entries)
    ensures !Contains(line, Uri(kind, n))
  {
    hide Contains, Uri, HarmlessUri, PlainRungs, IsNumber, MasterHead, AudioInfo, VideoInfo;
    var d := Meant(rungs, audio, rate);
    if line in d.head {
      NoRenditionInHead(|rungs|, audio, line, kind, n);
    } else {
      PairLineIs(d.entries, line);
      var i :| 0 <= i < |d.entries| && (line == d.entries[i].info || line == d.entries[i].uri);
      NoRenditionInEntry(rungs, audio, rate, i, kind, n);
    }
  }

  /** The stored text names no rendition at all. */
  lemma StoredNamesNone(rungs: seq<Rung>, audio: AudioTrack, rate: Option<string>, kind: Kind, n: nat)
    requires PlainRungs(rungs) && HarmlessUri(audio.uri) && IsNumber(rate)
    ensures !Contains(Stored(rungs, audio, rate), Uri(kind, n))
  {
    hide MasterLines, Meant, HarmlessUri, Labels, NonBlank, Contains, Uri, PlainRungs, IsNumber;
    var lines := Labels(MasterLines(rungs, audio), rate);
    UriChars(kind, n);
    PrintedHolds(lines, Uri(kind, n));
    if Contains(Printed(lines), Uri(kind, n)) {
      var i :| 0 <= i < |lines| && Contains(lines[i], Uri(kind, n));
      ContainsChar(lines[i], Uri(kind, n), '/');
      NotBlankIsKept(lines, i);
      LinesAreMeant(rungs, audio, rate);
      NoRenditionMeant(rungs, audio, rate, lines[i], kind, n);
    }
  }

  /** What the renditions take over: the group and the rate of every rung. */
  lemma MeantShares(rungs: seq<Rung>, audio: AudioTrack, rate: Option<string>)
    requires PlainRungs(rungs) && HarmlessUri(audio.uri) && IsNumber(rate)
    ensures var d := Meant(rungs, audio, rate);
            && SortedBy(Rank, d.entries) && Steady(Audio(d), Rate(d))
            && (rungs != [] ==> Audio(d) == Some(GROUP) && Rate(d) == rate)
  {
    var d := Meant(rungs, audio, rate);
    AudioInfoIs(audio);
    GroupHasNoRate();
    FirstOfMeant(rungs, audio, rate);
    hide AudioInfo, VideoInfo, RatePart, VariantUri, Contains, RateOf, AudioOf, FirstVideo, IsLine, IsInfo, Unbroken;
    forall i | 0 <= i < |d.entries| ensures Rank(d.entries[i]) == 2 {
      if i < |rungs| { VariantIsHarmless(i); }
      assert Rank(d.entries[i]) == Rank(Entry("", d.entries[i].uri));
    }
    hide Rank;
    if rungs != [] {
      VideoAttributes(rungs[0], audio, rate);
    }
  }

  lemma FirstOfMeant(rungs: seq<Rung>, audio: AudioTrack, rate: Option<string>)
    requires PlainRungs(rungs) && IsNumber(rate)
    ensures FirstVideo(Meant(rungs, audio, rate).entries)
            == if rungs == [] then "" else VideoInfo(rungs[0], audio) + RatePart(rate)
    ensures AudioOf("") == None
  {
    AudioInfoIs(audio);
    hide AudioInfo, VideoInfo, RatePart, VariantUri, Contains, IsLine, IsInfo, Unbroken;
    var entries := Meant(rungs, audio, rate).entries;
    if rungs == [] {
      assert entries == [Entry(AudioInfo(audio), audio.uri)] && entries[1..] == [];
    } else {
      VideoInfoIs(rungs[0], audio, rate);
    }
  }

  lemma Fixed3IsNumber(rate: real)
    requires rate >= 0.0
    ensures IsNumber(Some(Fixed3(rate)))
  {
    NearestHalfEven(rate * 1000.0);
    var m: nat := HalfEven(rate * 1000.0);
    LadderJoin.ValueOfPadded(m % 1000, 3);
    var whole, part, text := Digits(m / 1000), LadderJoin.Padded(m % 1000, 3), Fixed3(rate);
    hide Digits, LadderJoin.Padded, HalfEven;
    assert text == whole + "." + part;
    forall c | c in text ensures IsRate(c) {
      assert c in whole || c == '.' || c in part;
    }
  }

  /** `{rate:.3f}`, if the rate is known. */
  function RateText(rate: Option<real>): Option<string>
    requires rate.Some? ==> rate.value >= 0.0
  {
    if rate.Some? then Some(Fixed3(rate.value)) else None
  }

  lemma StoredIsGood(rungs: seq<Rung>, audio: AudioTrack, rate: Option<string>)
    requires PlainRungs(rungs) && HarmlessUri(audio.uri) && IsNumber(rate)
    ensures Good(Stored(rungs, audio, rate))
  {
    hide Meant, Stored, Contains, RateOf, AudioOf, HarmlessUri, PlainRungs, IsNumber, Uri, Rank, FirstVideo, IsInfo, Parse, Steady, SortedBy;
    StoredIsRead(rungs, audio, rate);
    MeantIsWellFormed(rungs, audio, rate);
    MeantShares(rungs, audio, rate);
    forall kind: Kind, n: nat ensures !Contains(Stored(rungs, audio, rate), Uri(kind, n)) {
      StoredNamesNone(rungs, audio, rate, kind, n);
    }
  }

  /** A ladder's master playlist as the pieces' coordinator writes it, whatever its rungs
      and rate, reads back as it was meant: its head, an entry for every rung in order
      with the shared audio group and the rate, and the audio's own. And it is good. */
  lemma WrittenIsGood(rungs: seq<Rung>, audio: AudioTrack, rate: Option<real>)
    requires PlainRungs(rungs) && HarmlessUri(audio.uri) && (rate.Some? ==> rate.value >= 0.0)
    ensures var text, d := RateText(rate), Parse(Stored(rungs, audio, RateText(rate)));
            && d.head == MasterHead(|rungs|, audio) && |d.entries| == |rungs| + 1
            && (forall k: nat :: k < |rungs| ==>
                  && d.entries[k] == Entry(VideoInfo(rungs[k], audio) + RatePart(text), VariantUri(k))
                  && AudioOf(d.entries[k].info) == Some(GROUP) && RateOf(d.entries[k].info) == text)
            && d.entries[|rungs|] == Entry(AudioInfo(audio), audio.uri)
    ensures Good(Stored(rungs, audio, RateText(rate)))
  {
    if rate.Some? { Fixed3IsNumber(rate.value); }
    var text := RateText(rate);
    hide MasterHead, AudioInfo, VideoInfo, RatePart, VariantUri, RateOf, AudioOf, Stored, HarmlessUri, IsNumber, Good, Parse, RateText, PlainRung;
    StoredIsRead(rungs, audio, text);
    StoredIsGood(rungs, audio, text);
    forall k: nat | k < |rungs|
      ensures AudioOf(VideoInfo(rungs[k], audio) + RatePart(text)) == Some(GROUP)
      ensures RateOf(VideoInfo(rungs[k], audio) + RatePart(text)) == text
    {
      VideoAttributes(rungs[k], audio, text);
    }
  }

  /** The two calls one after the other. */
  method WriteAndLabel(rungs: seq<Rung>, audio: AudioTrack, rate: Option<real>) returns (text: string)
    requires PlainRungs(rungs) && HarmlessUri(audio.uri) && (rate.Some? ==> rate.value >= 0.0)
    ensures text == Stored(rungs, audio, RateText(rate)) && Good(text)
  {
    text := WriteMaster(rungs, audio);
    WrittenIsGood(rungs, audio, rate);
    if rate.Some? {
      StoredIsWritten(rungs, audio, Fixed3(rate.value));
      text := LabelFrameRates(text, rate.value);
    }
  }
}
