/** What listing renditions does to a master playlist: what stays, what is added, and
    that neither repetition nor the order of the two rendition jobs matters. */
module MasterListing {
  import opened Prelude
  import opened Text
  import opened MasterText
  import opened MasterPlaylist

  // --- The new entry's two lines ----------------------------------------------------

  lemma LineWithText(s: string)
    requires s != "" && !IsSpace(s[0]) && forall i :: 0 <= i < |s| ==> !IsBreak(s[i])
    ensures IsLine(s)
  {
    assert StripLeft(s, IsSpace) == s;
    StripRightKeepsHead(s, IsSpace);
  }

  predicate Unbroken(s: string) { forall i :: 0 <= i < |s| ==> !IsBreak(s[i]) }

  lemma UnbrokenJoin(a: string, b: string)
    requires Unbroken(a) && Unbroken(b)
    ensures Unbroken(a + b)
  {
  }

  lemma TailIsUnbroken(r: Rendition, audio: Option<string>, rate: Option<string>)
    requires PlainPlan(r.plan) && IsGroup(audio) && IsNumber(rate)
    ensures Unbroken(Codecs(r, audio)) && Unbroken(InfoTail(r, audio, rate))
  {
    HeadLiterals();
    var range, part := ",VIDEO-RANGE=" + r.plan.videoRange, RatePart(rate);
    UnbrokenJoin(",VIDEO-RANGE=", r.plan.videoRange);
    assert Unbroken(RATE_IS) && Unbroken(",") && Unbroken(AUDIO_IS) && Unbroken("\"");
    if rate.Some? {
      assert forall i :: 0 <= i < |rate.value| ==> rate.value[i] in rate.value;
      UnbrokenJoin(RATE_IS, rate.value);
      UnbrokenJoin(",", RATE_IS + rate.value);
    }
    hide Unbroken;
    assert Unbroken(part);
    if audio.Some? {
      GroupIsUnbroken(audio.value);
      UnbrokenJoin(AUDIO_IS, audio.value);
      UnbrokenJoin(AUDIO_IS + audio.value, "\"");
      UnbrokenJoin(AUDIO_IS + audio.value + "\"", part);
      UnbrokenJoin(",", AUDIO_IS + audio.value + "\"" + part);
      UnbrokenJoin(range, "," + (AUDIO_IS + audio.value + "\"" + part));
    } else {
      UnbrokenJoin(range, part);
    }
    CodecsAreUnbroken(r, audio);
  }

  lemma GroupIsUnbroken(group: string)
    requires forall c :: c in group ==> !IsBreak(c)
    ensures Unbroken(group)
  {
    assert forall i :: 0 <= i < |group| ==> group[i] in group;
  }

  lemma CodecsAreUnbroken(r: Rendition, audio: Option<string>)
    requires PlainPlan(r.plan)
    ensures Unbroken(Codecs(r, audio))
  {
    HeadLiterals();
  }

  lemma InfoIsLine(r: Rendition, audio: Option<string>, rate: Option<string>)
    requires PlainPlan(r.plan) && IsGroup(audio) && IsNumber(rate)
    ensures IsLine(Info(r, audio, rate)) && IsInfo(Info(r, audio, rate))
    ensures Contains(Info(r, audio, rate), "RESOLUTION=")
  {
    InfoHeadIsCalm(r);
    TailIsUnbroken(r, audio, rate);
    assert Unbroken(InfoHead(r));
    hide InfoHead, Codecs, InfoTail, Unbroken, IsLine, Contains, StartsWith;
    var h, rest := InfoHead(r), Codecs(r, audio) + "\"" + InfoTail(r, audio, rate);
    LineOf(h, Codecs(r, audio), InfoTail(r, audio, rate));
    HeadGives(h, "\"" + rest);
    assert h + ("\"" + rest) == h + "\"" + rest;
  }

  lemma LineOf(h: string, c: string, t: string)
    requires Unbroken(h) && Unbroken(c) && Unbroken(t) && h != "" && h[0] == '#'
    ensures IsLine(h + "\"" + (c + "\"" + t))
  {
    assert Unbroken("\"");
    hide Unbroken, IsLine;
    UnbrokenJoin(h, "\"");
    UnbrokenJoin(c, "\"");
    UnbrokenJoin(c + "\"", t);
    UnbrokenJoin(h + "\"", c + "\"" + t);
    UnbrokenLine(h + "\"" + (c + "\"" + t));
  }

  lemma HeadGives(h: string, rest: string)
    requires StartsWith(h, STREAM_INF) && Contains(h, "RESOLUTION=")
    ensures StartsWith(h + rest, STREAM_INF) && Contains(h + rest, "RESOLUTION=")
  {
    assert (h + rest)[..|STREAM_INF|] == h[..|STREAM_INF|];
    PartContained("", h, rest, "RESOLUTION=");
    assert "" + h + rest == h + rest;
  }

  lemma UnbrokenLine(s: string)
    requires s != "" && !IsSpace(s[0]) && Unbroken(s)
    ensures IsLine(s)
  {
    LineWithText(s);
  }

  lemma UriIsLine(kind: Kind, rung: nat)
    ensures IsLine(Uri(kind, rung))
    ensures Uri(kind, rung) != "" && '\n' !in Uri(kind, rung) && '"' !in Uri(kind, rung) && '/' in Uri(kind, rung)
  {
    var u := Uri(kind, rung);
    var d, tail := Digits(rung), "/index.m3u8";
    assert forall i :: 0 <= i < |d| ==> d[i] in d;
    assert u == Name(kind) + "/" + d + tail;
    assert u[3] == '/' && u[0] == Name(kind)[0];
    assert forall i :: 0 <= i < |tail| ==> !IsBreak(tail[i]) && tail[i] != '"';
    forall i | 0 <= i < |u| ensures !IsBreak(u[i]) && u[i] != '"' {
      if 4 <= i < 4 + |d| {
        assert u[i] == d[i - 4];
      } else if i >= 4 + |d| {
        assert u[i] == tail[i - 4 - |d|];
      }
    }
    LineWithText(u);
  }

  lemma NoSuchChar(s: string, p: string, c: char)
    requires c in p && c !in s
    ensures !Contains(s, p)
  {
    if Contains(s, p) { ContainsChar(s, p, c); }
  }

  /** A text of this form in the new line is in the group's name. */
  lemma InfoHolds(r: Rendition, audio: Option<string>, rate: Option<string>, p: string)
    requires PlainPlan(r.plan) && IsGroup(audio) && IsNumber(rate)
    requires '"' !in p && '/' in p && Contains(Info(r, audio, rate), p)
    ensures audio.Some? && Contains(audio.value, p)
  {
    var h, c, t := InfoHead(r), Codecs(r, audio), InfoTail(r, audio, rate);
    NoSlashes(r, audio, rate);
    hide InfoHead, Codecs, InfoTail;
    ContainsSplit(h, '"', c + "\"" + t, p);
    ContainsSplit(c, '"', t, p);
    assert h + ['"'] + (c + "\"" + t) == Info(r, audio, rate) && c + ['"'] + t == c + "\"" + t;
    NoSuchChar(h, p, '/');
    NoSuchChar(c, p, '/');
    TailHolds(r, audio, rate, p);
  }

  lemma NoSlashes(r: Rendition, audio: Option<string>, rate: Option<string>)
    requires PlainPlan(r.plan) && IsNumber(rate)
    ensures '/' !in InfoHead(r) && '/' !in Codecs(r, audio) && '/' !in RatePart(rate)
  {
    InfoHeadIsCalm(r);
    HeadLiterals();
  }

  lemma TailHolds(r: Rendition, audio: Option<string>, rate: Option<string>, p: string)
    requires PlainPlan(r.plan) && IsGroup(audio) && IsNumber(rate)
    requires '"' !in p && '/' in p && Contains(InfoTail(r, audio, rate), p)
    ensures audio.Some? && Contains(audio.value, p)
  {
    NoSlashes(r, audio, rate);
    RangeHasNoSlash(r);
    var range, part := ",VIDEO-RANGE=" + r.plan.videoRange, RatePart(rate);
    if audio.Some? {
      TailParts(r, audio.value, rate);
      hide RatePart, InfoTail, Contains;
      var before := range + ",AUDIO=";
      ContainsSplit(before, '"', audio.value + ['"'] + part, p);
      ContainsSplit(audio.value, '"', part, p);
      NoSuchChar(before, p, '/');
      NoSuchChar(part, p, '/');
    } else {
      NoSuchChar(range + part, p, '/');
    }
  }

  lemma RangeHasNoSlash(r: Rendition)
    requires PlainPlan(r.plan)
    ensures '/' !in ",VIDEO-RANGE=" + r.plan.videoRange && '/' !in ",VIDEO-RANGE=" + r.plan.videoRange + ",AUDIO="
  {
    HeadLiterals();
    assert '/' !in ",VIDEO-RANGE=" && '/' !in ",AUDIO=" && '/' !in r.plan.videoRange;
  }

  lemma TailParts(r: Rendition, audio: string, rate: Option<string>)
    ensures InfoTail(r, Some(audio), rate)
            == (",VIDEO-RANGE=" + r.plan.videoRange + ",AUDIO=") + ['"'] + (audio + ['"'] + RatePart(rate))
  {
    hide RatePart;
    var range, part := ",VIDEO-RANGE=" + r.plan.videoRange, RatePart(rate);
    assert "," + (AUDIO_IS + audio + "\"" + part) == ",AUDIO=" + ['"'] + (audio + ['"'] + part);
    assert InfoTail(r, Some(audio), rate) == range + (",AUDIO=" + ['"'] + (audio + ['"'] + part));
  }

  lemma UriParts(kind: Kind, rung: nat)
    ensures var u, d := Uri(kind, rung), Digits(rung);
            && |u| == 4 + |d| + 11 && u[0] == Name(kind)[0] && u[1] == Name(kind)[1] && u[2] == Name(kind)[2]
            && u[3] == '/' && u[4 + |d|] == '/' && u[4 + |d|..] == "/index.m3u8"
            && forall i :: 0 <= i < |d| ==> u[4 + i] == d[i] && IsDigit(d[i])
  {
    var d := Digits(rung);
    assert forall i :: 0 <= i < |d| ==> d[i] in d;
    assert Uri(kind, rung) == Name(kind) + "/" + d + "/index.m3u8";
  }

  /** The letter that only this kind's URIs have, and where. */
  lemma OnlyFirst(kind: Kind, rung: nat, i: nat)
    requires i < |Uri(kind, rung)|
    ensures Uri(kind, rung)[i] == Name(kind)[0] ==> i == 0
    ensures Uri(kind, rung)[i] != if kind.Hdr? then 'v' else 'h'
  {
    UriParts(kind, rung);
    var u, d, tail := Uri(kind, rung), Digits(rung), "/index.m3u8";
    assert forall k :: 0 <= k < 11 ==> tail[k] != 'h' && tail[k] != 'a' && tail[k] != 'v';
    if 4 <= i < 4 + |d| {
      assert u[i] == d[i - 4];
    } else if i >= 4 + |d| {
      assert u[i] == u[4 + |d|..][i - 4 - |d|];
    }
  }

  lemma SameStart(kind: Kind, a: nat, b: nat)
    requires StartsWith(Uri(kind, a), Uri(kind, b))
    ensures Uri(kind, a) == Uri(kind, b)
  {
    UriParts(kind, a);
    UriParts(kind, b);
    var u, p, m, n := Uri(kind, a), Uri(kind, b), |Digits(a)|, |Digits(b)|;
    assert forall i :: 0 <= i < |p| ==> u[..|p|][i] == u[i];
    assert u[4 + n] == p[4 + n] == '/';
  }

  /** A rendition's URI is in another's only as the same one. */
  lemma UriHolds(kind: Kind, rung: nat, other: Kind, n: nat)
    requires Contains(Uri(kind, rung), Uri(other, n))
    ensures Uri(kind, rung) == Uri(other, n)
  {
    var u, p := Uri(kind, rung), Uri(other, n);
    UriParts(other, n);
    var i: nat :| i <= |u| && At(u, p, i);
    assert u[i..i + |p|][0] == u[i] && u[i..i + |p|][1] == u[i + 1];
    OnlyFirst(kind, rung, i);
    OnlyFirst(kind, rung, i + 1);
    assert kind == other;
    SameStart(kind, rung, n);
  }

  // --- The document with one more entry --------------------------------------------------

  function NewEntry(d: Document, r: Rendition): Entry {
    var first := FirstVideo(d.entries);
    Entry(Info(r, AudioOf(first), RateOf(first)), Uri(r.plan.kind, r.rung))
  }

  predicate Listed(d: Document, uri: string) {
    exists i :: 0 <= i < |d.entries| && d.entries[i].uri == uri
  }

  lemma AddedEntries(d: Document, r: Rendition)
    ensures forall e :: e in AddTo(d, r).entries <==> e in d.entries || e == NewEntry(d, r)
    ensures AddTo(d, r).head == d.head && SortedBy(Rank, AddTo(d, r).entries)
  {
    var all, e := d.entries + [NewEntry(d, r)], AddTo(d, r).entries;
    assert multiset(e) == multiset(all);
    assert forall x :: x in e <==> x in multiset(e);
    assert forall x :: x in all <==> x in multiset(all);
  }

  lemma AddedIsListed(d: Document, r: Rendition, uri: string)
    ensures Listed(AddTo(d, r), uri) <==> Listed(d, uri) || uri == Uri(r.plan.kind, r.rung)
  {
    AddedEntries(d, r);
    var t := AddTo(d, r);
    hide AddTo;
    if i :| 0 <= i < |d.entries| && d.entries[i].uri == uri {
      assert d.entries[i] in t.entries;
    }
    assert NewEntry(d, r) in t.entries;
    if i :| 0 <= i < |t.entries| && t.entries[i].uri == uri {
      assert t.entries[i] in d.entries || t.entries[i] == NewEntry(d, r);
    }
  }

  /** The first video's line is a line of the document, or there is none. */
  lemma {:induction false} FirstIsThere(entries: seq<Entry>)
    ensures FirstVideo(entries) == "" || exists i :: 0 <= i < |entries| && entries[i].info == FirstVideo(entries)
  {
    if entries != [] && !Contains(entries[0].info, "RESOLUTION=") {
      FirstIsThere(entries[1..]);
      if i :| 0 <= i < |entries[1..]| && entries[1..][i].info == FirstVideo(entries) {
        assert entries[i + 1].info == FirstVideo(entries);
      }
    } else if entries != [] {
      assert entries[0].info == FirstVideo(entries);
    }
  }

  lemma SharedIsUsable(d: Document)
    requires WellFormed(d)
    ensures IsGroup(AudioOf(FirstVideo(d.entries))) && IsNumber(RateOf(FirstVideo(d.entries)))
  {
    var first := FirstVideo(d.entries);
    FirstIsThere(d.entries);
    assert forall c :: c in first ==> !IsBreak(c);
    if AudioOf(first).Some? { AudioIsInside(first, ""); }
    if RateOf(first).Some? { RateIsNumber(first); }
  }

  /** The extended document can be printed and read back exactly when no STREAM-INF
      line was left without its URI. */
  lemma AddedIsWellFormed(d: Document, r: Rendition)
    requires WellFormed(d) && PlainPlan(r.plan)
    ensures WellFormed(AddTo(d, r)) <==> Whole(d)
    ensures Parse(Print(AddTo(d, r))) == AddTo(d, r) <==> Whole(d)
  {
    SharedIsUsable(d);
    var first := FirstVideo(d.entries);
    InfoIsLine(r, AudioOf(first), RateOf(first));
    UriIsLine(r.plan.kind, r.rung);
    AddedEntries(d, r);
    var t := AddTo(d, r);
    assert NewEntry(d, r) in t.entries;
    hide AddTo, Parse, IsLine, IsInfo;
    forall i | 0 <= i < |t.entries|
      ensures IsLine(t.entries[i].info) && IsInfo(t.entries[i].info) && IsLine(t.entries[i].uri)
    {
      assert t.entries[i] in d.entries || t.entries[i] == NewEntry(d, r);
    }
    assert WellFormed(t) <==> Whole(d);
    if Whole(d) {
      ParsePrint(t);
    }
    ParseIsWellFormed(Print(t));
  }

  /** Listing it once more changes nothing, whatever the playlist. */
  lemma AddTwice(master: string, r: Rendition)
    ensures Contains(AddToMaster(master, r), Uri(r.plan.kind, r.rung))
    ensures AddToMaster(AddToMaster(master, r), r) == AddToMaster(master, r)
  {
    hide Contains, AddTo, Print, Parse;
    if !Contains(master, Uri(r.plan.kind, r.rung)) {
      AddedIsPrinted(Parse(master), r);
    }
  }

  lemma AddedIsPrinted(d: Document, r: Rendition)
    ensures Contains(Print(AddTo(d, r)), Uri(r.plan.kind, r.rung))
  {
    var uri, t := Uri(r.plan.kind, r.rung), AddTo(d, r);
    AddedEntries(d, r);
    UriIsLine(r.plan.kind, r.rung);
    hide AddTo, Print, Uri;
    assert NewEntry(d, r) in t.entries;
    var i :| 0 <= i < |t.entries| && t.entries[i].uri == uri;
    PrintHoldsUri(t, i, uri);
  }

  lemma PrintHoldsUri(d: Document, i: nat, uri: string)
    requires i < |d.entries| && d.entries[i].uri == uri && uri != "" && '\n' !in uri
    ensures Contains(Print(d), uri)
  {
    var lines := d.head + PairLines(d.entries);
    PairLinesAre(d.entries);
    assert lines[|d.head| + 2 * i + 1] == uri;
    assert At(uri, uri, 0);
    PrintedHolds(lines, uri);
  }

  /** Every kind's entries keep their text and order; the new one comes after its own
      kind's, and HDR is before AV1, before the ladder. */
  lemma OthersAreKept(d: Document, r: Rendition, k: int)
    ensures AddTo(d, r).head == d.head && SortedBy(Rank, AddTo(d, r).entries)
    ensures Only(Rank, k, AddTo(d, r).entries)
            == Only(Rank, k, d.entries) + if Rank(NewEntry(d, r)) == k then [NewEntry(d, r)] else []
    ensures Rank(NewEntry(d, r)) == if r.plan.kind.Hdr? then 0 else 1
  {
    AddedEntries(d, r);
    SortIsStable(Rank, k, d.entries + [NewEntry(d, r)]);
    OnlyAppend(Rank, k, d.entries, NewEntry(d, r));
    RankOfUri(r.plan.kind, r.rung, NewEntry(d, r).info);
  }

  lemma RankOfUri(kind: Kind, rung: nat, info: string)
    ensures Rank(Entry(info, Uri(kind, rung))) == if kind.Hdr? then 0 else 1
  {
    var tail := "/" + Digits(rung) + "/index.m3u8";
    assert Uri(kind, rung) == Name(kind) + tail;
    SpanStops(Name(kind), tail, c => c != '/');
    assert Name(kind)[0] == if kind.Hdr? then 'h' else 'a';
  }

  // --- Adding several renditions, in any order ---------------------------------------------

  lemma {:induction false} FirstOfBoth(a: seq<Entry>, b: seq<Entry>)
    ensures FirstVideo(a + b) == if FirstVideo(a) != "" then FirstVideo(a) else FirstVideo(b)
  {
    if a == [] {
      assert a + b == b;
    } else {
      assert (a + b)[1..] == a[1..] + b;
      FirstOfBoth(a[1..], b);
      EmptyHoldsNothing();
    }
  }

  lemma EmptyHoldsNothing()
    ensures !Contains("", "RESOLUTION=")
  {
    NoSuchChar("", "RESOLUTION=", '=');
  }

  lemma {:induction false} InsertedFirst(e: Entry, s: seq<Entry>)
    requires SortedBy(Rank, s) && Contains(e.info, "RESOLUTION=")
    ensures var f := FirstVideo(InsertBy(Rank, e, s)); f == e.info || (f == FirstVideo(s) && f != "")
  {
    EmptyHoldsNothing();
    FirstOfBoth(s, [e]);
    if s != [] && Rank(s[|s| - 1]) > Rank(e) {
      var rest, last := s[..|s| - 1], s[|s| - 1];
      assert s == rest + [last];
      InsertedFirst(e, rest);
      FirstOfBoth(InsertBy(Rank, e, rest), [last]);
      FirstOfBoth(rest, [last]);
    }
  }

  function Audio(d: Document): Option<string> { AudioOf(FirstVideo(d.entries)) }

  function Rate(d: Document): Option<string> { RateOf(FirstVideo(d.entries)) }

  lemma AddInserts(d: Document, r: Rendition)
    requires SortedBy(Rank, d.entries)
    ensures AddTo(d, r).entries == InsertBy(Rank, NewEntry(d, r), d.entries)
  {
    SortAppend(Rank, d.entries, NewEntry(d, r));
    SortSorted(Rank, d.entries);
  }

  /** Each new entry keeps the ladder's audio group and frame rate, so that the next
      one, which may read them from this one, gets the same. */
  lemma SharedIsKept(d: Document, r: Rendition)
    requires WellFormed(d) && SortedBy(Rank, d.entries) && PlainPlan(r.plan) && Steady(Audio(d), Rate(d))
    ensures AudioOf(NewEntry(d, r).info) == Audio(d) && RateOf(NewEntry(d, r).info) == Rate(d)
    ensures Audio(AddTo(d, r)) == Audio(d) && Rate(AddTo(d, r)) == Rate(d)
  {
    SharedIsUsable(d);
    InfoCarries(r, Audio(d), Rate(d));
    InfoIsLine(r, Audio(d), Rate(d));
    hide AudioOf, RateOf, Info, IsLine;
    AddInserts(d, r);
    InsertedFirst(NewEntry(d, r), d.entries);
  }

  /** The two kinds' entries go to the same places in either order. */
  lemma AddsCommute(d: Document, h: Rendition, a: Rendition)
    requires WellFormed(d) && SortedBy(Rank, d.entries) && Steady(Audio(d), Rate(d))
    requires PlainPlan(h.plan) && PlainPlan(a.plan) && h.plan.kind.Hdr? && a.plan.kind.Av1?
    ensures AddTo(AddTo(d, h), a) == AddTo(AddTo(d, a), h)
  {
    var dh, da := AddTo(d, h), AddTo(d, a);
    SharedIsKept(d, h);
    SharedIsKept(d, a);
    AddedEntries(d, h);
    AddedEntries(d, a);
    var eh, ea := NewEntry(d, h), NewEntry(d, a);
    assert NewEntry(dh, a) == ea && NewEntry(da, h) == eh;
    RankOfUri(Hdr, h.rung, eh.info);
    RankOfUri(Av1, a.rung, ea.info);
    AddInserts(d, h);
    AddInserts(d, a);
    AddInserts(dh, a);
    AddInserts(da, h);
    hide AddTo, NewEntry, SortedBy;
    InsertCommutes(Rank, eh, ea, d.entries);
    HeadIsKept(d, h);
    HeadIsKept(d, a);
    HeadIsKept(dh, a);
    HeadIsKept(da, h);
  }

  lemma HeadIsKept(d: Document, r: Rendition)
    ensures AddTo(d, r).head == d.head
  {
  }

  /** The playlist names a rendition only where it lists it. */
  ghost predicate Clean(master: string) {
    forall kind: Kind, n: nat :: Contains(master, Uri(kind, n)) ==> Listed(Parse(master), Uri(kind, n))
  }

  /** What a ladder's own playlist is, and what adding renditions to it keeps. */
  ghost predicate Good(master: string) {
    var d := Parse(master);
    Whole(d) && SortedBy(Rank, d.entries) && Steady(Audio(d), Rate(d)) && Clean(master)
  }

  predicate Holds(lines: seq<string>, d: Document) {
    && (forall line :: line in d.head ==> line in lines)
    && (forall e :: e in d.entries ==> e.info in lines && e.uri in lines)
  }

  lemma {:induction false} ReadingHolds(lines: seq<string>, started: bool)
    ensures Holds(lines, Reading(lines, started))
  {
    if lines != [] {
      if IsInfo(lines[0]) && |lines| > 1 {
        ReadingHolds(lines[2..], true);
        assert lines == [lines[0], lines[1]] + lines[2..];
      } else {
        ReadingHolds(lines[1..], started);
        assert lines == [lines[0]] + lines[1..];
      }
    }
  }

  /** What a line of the document holds, its text holds. */
  lemma DocumentHolds(text: string, line: string, p: string)
    requires Contains(line, p)
    requires line in Parse(text).head || exists e :: e in Parse(text).entries && (line == e.info || line == e.uri)
    ensures Contains(text, p)
  {
    hide Contains, Lines, Reading;
    ReadingHolds(Lines(text), false);
    LineHolds(text, line, p);
  }

  lemma LineHolds(text: string, line: string, p: string)
    requires line in Lines(text) && Contains(line, p)
    ensures Contains(text, p)
  {
    var i: nat :| i < |Lines(text)| && Lines(text)[i] == line;
    LineIsInText(text, i, p);
  }

  lemma {:induction false} PairLineIs(entries: seq<Entry>, line: string)
    requires line in PairLines(entries)
    ensures exists i :: 0 <= i < |entries| && (line == entries[i].info || line == entries[i].uri)
  {
    if line == entries[0].info || line == entries[0].uri {
    } else {
      assert line in PairLines(entries[1..]);
      PairLineIs(entries[1..], line);
      var i :| 0 <= i < |entries[1..]| && (line == entries[1..][i].info || line == entries[1..][i].uri);
      assert line == entries[i + 1].info || line == entries[i + 1].uri;
    }
  }

  /** A rendition's URI that is in the extended text was in the old one, or is the new one. */
  lemma AddedHolds(master: string, r: Rendition, kind: Kind, n: nat)
    requires PlainPlan(r.plan) && Contains(Print(AddTo(Parse(master), r)), Uri(kind, n))
    ensures Contains(master, Uri(kind, n)) || Uri(kind, n) == Uri(r.plan.kind, r.rung)
  {
    var d, p := Parse(master), Uri(kind, n);
    var t := AddTo(d, r);
    UriIsLine(kind, n);
    hide Contains, AddTo, Uri, Parse, IsLine;
    var lines := t.head + PairLines(t.entries);
    PrintedHolds(lines, p);
    var i :| 0 <= i < |lines| && Contains(lines[i], p);
    AddedLineHolds(master, r, lines[i], kind, n);
  }

  lemma AddedLineHolds(master: string, r: Rendition, line: string, kind: Kind, n: nat)
    requires var t := AddTo(Parse(master), r); line in t.head + PairLines(t.entries)
    requires PlainPlan(r.plan) && Contains(line, Uri(kind, n))
    ensures Contains(master, Uri(kind, n)) || Uri(kind, n) == Uri(r.plan.kind, r.rung)
  {
    var d := Parse(master);
    var t := AddTo(d, r);
    AddedEntries(d, r);
    hide AddTo, Contains, Uri, Parse;
    if line in d.head {
      DocumentHolds(master, line, Uri(kind, n));
    } else {
      assert line in PairLines(t.entries);
      PairLineIs(t.entries, line);
      var i :| 0 <= i < |t.entries| && (line == t.entries[i].info || line == t.entries[i].uri);
      assert t.entries[i] in t.entries;
      if t.entries[i] in d.entries {
        DocumentHolds(master, line, Uri(kind, n));
      } else {
        NewEntryHolds(master, r, line, kind, n);
      }
    }
  }

  lemma NewEntryHolds(master: string, r: Rendition, line: string, kind: Kind, n: nat)
    requires PlainPlan(r.plan) && Contains(line, Uri(kind, n))
    requires var e := NewEntry(Parse(master), r); line == e.info || line == e.uri
    ensures Contains(master, Uri(kind, n)) || Uri(kind, n) == Uri(r.plan.kind, r.rung)
  {
    var d := Parse(master);
    if line == NewEntry(d, r).uri {
      UriHolds(r.plan.kind, r.rung, kind, n);
    } else {
      NewInfoHolds(master, r, kind, n);
    }
  }

  lemma NewInfoHolds(master: string, r: Rendition, kind: Kind, n: nat)
    requires PlainPlan(r.plan) && Contains(NewEntry(Parse(master), r).info, Uri(kind, n))
    ensures Contains(master, Uri(kind, n))
  {
    var d, p := Parse(master), Uri(kind, n);
    var first := FirstVideo(d.entries);
    ParseIsWellFormed(master);
    SharedIsUsable(d);
    UriIsLine(kind, n);
    hide Contains, Uri, WellFormed, IsLine, Info, AudioOf, RateOf, Parse, IsGroup, IsNumber, FirstVideo;
    InfoHolds(r, AudioOf(first), RateOf(first), p);
    AudioIsInside(first, p);
    NotEmpty(first, p);
    FirstIsThere(d.entries);
    assert exists e :: e in d.entries && first == e.info;
    DocumentHolds(master, first, p);
  }

  lemma NotEmpty(s: string, p: string)
    requires Contains(s, p) && p != ""
    ensures s != ""
  {
    ContainsChar(s, p, p[0]);
  }

  lemma ListedIsPrinted(d: Document, kind: Kind, n: nat)
    requires Listed(d, Uri(kind, n))
    ensures Contains(Print(d), Uri(kind, n))
  {
    UriIsLine(kind, n);
    hide Uri, Print, Contains;
    var i: nat :| i < |d.entries| && d.entries[i].uri == Uri(kind, n);
    PrintHoldsUri(d, i, Uri(kind, n));
  }

  /** On a good playlist the text that is stored is the document that is meant. */
  lemma AddMeans(master: string, r: Rendition)
    requires Good(master) && PlainPlan(r.plan)
    ensures var d := Parse(master);
            Parse(AddToMaster(master, r)) == if Contains(master, Uri(r.plan.kind, r.rung)) then d else AddTo(d, r)
  {
    ParseIsWellFormed(master);
    AddedIsWellFormed(Parse(master), r);
  }

  lemma NowListed(master: string, r: Rendition, uri: string)
    requires Good(master) && PlainPlan(r.plan)
    ensures Listed(Parse(AddToMaster(master, r)), uri) <==> Listed(Parse(master), uri) || uri == Uri(r.plan.kind, r.rung)
  {
    AddMeans(master, r);
    AddedIsListed(Parse(master), r, uri);
  }

  lemma StaysContained(master: string, r: Rendition, kind: Kind, n: nat)
    requires Good(master) && PlainPlan(r.plan) && Contains(master, Uri(kind, n))
    ensures Contains(AddToMaster(master, r), Uri(kind, n))
  {
    assert Listed(Parse(master), Uri(kind, n));
    AddedIsListed(Parse(master), r, Uri(kind, n));
    hide Contains, AddTo, Uri, Parse, Print, Listed;
    if !Contains(master, Uri(r.plan.kind, r.rung)) {
      ListedIsPrinted(AddTo(Parse(master), r), kind, n);
    }
  }

  lemma GoodIsKept(master: string, r: Rendition)
    requires Good(master) && PlainPlan(r.plan)
    ensures Good(AddToMaster(master, r))
  {
    var d, t := Parse(master), AddToMaster(master, r);
    AddMeans(master, r);
    ParseIsWellFormed(master);
    SharedIsKept(d, r);
    AddedEntries(d, r);
    hide Contains, AddTo, Uri, Parse, Print, Listed, Audio, Rate, Steady, SortedBy;
    if !Contains(master, Uri(r.plan.kind, r.rung)) {
      assert Parse(t) == AddTo(d, r);
      forall kind: Kind, n: nat | Contains(t, Uri(kind, n)) ensures Listed(Parse(t), Uri(kind, n)) {
        AddedHolds(master, r, kind, n);
        AddedIsListed(d, r, Uri(kind, n));
      }
    }
  }

  lemma KindsDiffer(m: nat, n: nat)
    ensures Uri(Hdr, m) != Uri(Av1, n)
  {
    UriParts(Hdr, m);
    UriParts(Av1, n);
  }

  /** Listing an HDR and an AV1 rung in either order gives the same text. */
  lemma OrderDoesNotMatter(master: string, h: Rendition, a: Rendition)
    requires Good(master) && PlainPlan(h.plan) && PlainPlan(a.plan) && h.plan.kind.Hdr? && a.plan.kind.Av1?
    ensures AddToMaster(AddToMaster(master, h), a) == AddToMaster(AddToMaster(master, a), h)
  {
    var d, uh, ua := Parse(master), Uri(Hdr, h.rung), Uri(Av1, a.rung);
    KindsDiffer(h.rung, a.rung);
    AddMeans(master, h);
    AddMeans(master, a);
    ParseIsWellFormed(master);
    hide Contains, AddTo, Uri, Print, Parse, Listed;
    if Contains(master, uh) {
      StaysContained(master, a, Hdr, h.rung);
    } else if Contains(master, ua) {
      StaysContained(master, h, Av1, a.rung);
    } else {
      if Contains(AddToMaster(master, h), ua) { AddedHolds(master, h, Av1, a.rung); }
      if Contains(AddToMaster(master, a), uh) { AddedHolds(master, a, Hdr, h.rung); }
      AddsCommute(d, h, a);
    }
  }

  /** A builder's list, one rung after the other. */
  function AddAll(master: string, rs: seq<Rendition>): string
    decreases |rs|
  {
    if rs == [] then master else AddAll(AddToMaster(master, rs[0]), rs[1..])
  }

  predicate AllOf(kind: Kind, rs: seq<Rendition>) {
    forall i :: 0 <= i < |rs| ==> rs[i].plan.kind == kind && PlainPlan(rs[i].plan)
  }

  lemma {:induction false} OnePastMany(master: string, h: Rendition, as_: seq<Rendition>)
    requires Good(master) && PlainPlan(h.plan) && h.plan.kind.Hdr? && AllOf(Av1, as_)
    ensures AddAll(AddToMaster(master, h), as_) == AddToMaster(AddAll(master, as_), h)
    decreases |as_|
  {
    hide Good, AddToMaster, PlainPlan;
    if as_ != [] {
      OrderDoesNotMatter(master, h, as_[0]);
      GoodIsKept(master, as_[0]);
      OnePastMany(AddToMaster(master, as_[0]), h, as_[1..]);
    }
  }

  lemma {:induction false} AllKeepGood(master: string, rs: seq<Rendition>, kind: Kind)
    requires Good(master) && AllOf(kind, rs)
    ensures Good(AddAll(master, rs))
    decreases |rs|
  {
    hide Good, AddToMaster, PlainPlan;
    if rs != [] {
      GoodIsKept(master, rs[0]);
      AllKeepGood(AddToMaster(master, rs[0]), rs[1..], kind);
    }
  }

  /** The HDR job's rungs and the AV1 job's, in either job order: the same playlist. */
  lemma {:induction false} JobOrderDoesNotMatter(master: string, hs: seq<Rendition>, as_: seq<Rendition>)
    requires Good(master) && AllOf(Hdr, hs) && AllOf(Av1, as_)
    ensures AddAll(AddAll(master, hs), as_) == AddAll(AddAll(master, as_), hs)
    decreases |hs|
  {
    hide Good, AddToMaster, PlainPlan;
    if hs != [] {
      GoodIsKept(master, hs[0]);
      JobOrderDoesNotMatter(AddToMaster(master, hs[0]), hs[1..], as_);
      OnePastMany(master, hs[0], as_);
    }
  }

  predicate Names(rs: seq<Rendition>, uri: string) {
    exists i :: 0 <= i < |rs| && Uri(rs[i].plan.kind, rs[i].rung) == uri
  }

  lemma NamesRest(rs: seq<Rendition>, uri: string)
    requires rs != []
    ensures Names(rs, uri) <==> uri == Uri(rs[0].plan.kind, rs[0].rung) || Names(rs[1..], uri)
  {
    hide Uri;
    if i :| 0 <= i < |rs[1..]| && Uri(rs[1..][i].plan.kind, rs[1..][i].rung) == uri {
      assert Uri(rs[i + 1].plan.kind, rs[i + 1].rung) == uri;
    }
    if i :| 0 < i < |rs| && Uri(rs[i].plan.kind, rs[i].rung) == uri {
      assert Uri(rs[1..][i - 1].plan.kind, rs[1..][i - 1].rung) == uri;
    }
  }

  /** A builder's list adds exactly its renditions: all of them, and nothing goes. */
  lemma {:induction false} AllListed(master: string, rs: seq<Rendition>, kind: Kind, uri: string)
    requires Good(master) && AllOf(kind, rs)
    ensures Listed(Parse(AddAll(master, rs)), uri) <==> Listed(Parse(master), uri) || Names(rs, uri)
    decreases |rs|
  {
    hide Good, AddToMaster, PlainPlan, Uri, Listed, Parse;
    if rs != [] {
      GoodIsKept(master, rs[0]);
      NowListed(master, rs[0], uri);
      NamesRest(rs, uri);
      hide Names;
      AllListed(AddToMaster(master, rs[0]), rs[1..], kind, uri);
    }
  }

  /** What stays of the ladder: its head and its own entries, text and order. */
  predicate SameLadder(a: Document, b: Document) {
    a.head == b.head && Only(Rank, 2, a.entries) == Only(Rank, 2, b.entries)
  }

  ghost predicate InOrder(d: Document) { SortedBy(Rank, d.entries) }

  lemma OneKeepsLadder(master: string, r: Rendition)
    requires Good(master) && PlainPlan(r.plan)
    ensures SameLadder(Parse(master), Parse(AddToMaster(master, r)))
  {
    AddMeans(master, r);
    OthersAreKept(Parse(master), r, 2);
  }

  lemma GoodIsInOrder(master: string)
    requires Good(master)
    ensures InOrder(Parse(master))
  {
  }

  lemma {:induction false} LadderIsKept(master: string, rs: seq<Rendition>, kind: Kind)
    requires Good(master) && AllOf(kind, rs)
    ensures SameLadder(Parse(master), Parse(AddAll(master, rs)))
    ensures InOrder(Parse(AddAll(master, rs)))
    decreases |rs|
  {
    hide Good, AddToMaster, PlainPlan, Parse, InOrder, Only;
    if rs == [] {
      GoodIsInOrder(master);
    } else {
      OneKeepsLadder(master, rs[0]);
      GoodIsKept(master, rs[0]);
      LadderIsKept(AddToMaster(master, rs[0]), rs[1..], kind);
    }
  }

  lemma PartOfPart(s: string, p: string, a: string, q: string, b: string)
    requires Contains(s, p) && p == a + q + b
    ensures Contains(s, q)
  {
    var i: nat :| i <= |s| && At(s, p, i);
    assert s == s[..i] + p + s[i + |p|..];
    assert s[i + |a|..i + |a| + |q|] == p[|a|..|a| + |q|] == q;
    assert At(s, q, i + |a|);
  }

  lemma RankedIsNamed(master: string, i: nat)
    requires i < |Parse(master).entries| && Rank(Parse(master).entries[i]) != 2
    ensures Contains(master, "hdr") || Contains(master, "av1")
  {
    var e := Parse(master).entries[i];
    var first := Span(e.uri, c => c != '/');
    assert At(e.uri, first, 0);
    assert e in Parse(master).entries;
    DocumentHolds(master, e.uri, first);
  }

  /** A playlist that names neither kind is good if no STREAM-INF line dangles and its
      audio group's name hides no rate. */
  lemma LadderIsGood(master: string)
    requires !Contains(master, "hdr") && !Contains(master, "av1")
    requires Whole(Parse(master)) && Steady(Audio(Parse(master)), Rate(Parse(master)))
    ensures Good(master)
  {
    var d := Parse(master);
    hide Contains, Parse, Steady, Rank;
    forall i: nat | i < |d.entries| ensures Rank(d.entries[i]) == 2 {
      if Rank(d.entries[i]) != 2 { RankedIsNamed(master, i); }
    }
    forall kind: Kind, n: nat ensures !Contains(master, Uri(kind, n)) {
      if Contains(master, Uri(kind, n)) {
        var tail := "/" + Digits(n) + "/index.m3u8";
        assert Uri(kind, n) == "" + Name(kind) + tail;
        PartOfPart(master, Uri(kind, n), "", Name(kind), tail);
      }
    }
  }
}
