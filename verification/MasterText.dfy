/** The text of an HLS master playlist (RFC 8216, section 4.3.4): its lines, the
    head and the (EXT-X-STREAM-INF, URI) pairs read from them, and the attributes a new
    entry takes over from the ladder (app/worker/renditions.py: `_entries`, and the
    regular expressions of `add_to_master`). */
module MasterText {
  import opened Prelude
  import opened Text

  // --- Lines -------------------------------------------------------------------

  /** The lines of `str.splitlines` that are not blank; of "\r\n" each ends a line, and
      the empty one between them is dropped. */
  function Lines(text: string): seq<string>
    decreases |text|
  {
    var line := Span(text, c => !IsBreak(c));
    var rest := if |line| < |text| then Lines(text[|line| + 1..]) else [];
    if Strip(line) == "" then rest else [line] + rest
  }

  predicate IsLine(line: string) {
    Strip(line) != "" && forall c :: c in line ==> !IsBreak(c)
  }

  lemma {:induction false} LinesAreLines(text: string)
    ensures forall i :: 0 <= i < |Lines(text)| ==> IsLine(Lines(text)[i])
    decreases |text|
  {
    var line := Span(text, c => !IsBreak(c));
    if |line| < |text| {
      LinesAreLines(text[|line| + 1..]);
    }
  }

  lemma {:induction false} LinesOfPrinted(lines: seq<string>)
    requires forall i :: 0 <= i < |lines| ==> IsLine(lines[i])
    ensures Lines(Printed(lines)) == lines
  {
    hide IsLine, Lines;
    if lines == [] {
      NoLines();
    } else {
      LinesOfPrinted(lines[1..]);
      LinesOfFirst(lines[0], Printed(lines[1..]));
    }
  }

  lemma NoLines()
    ensures Lines("") == []
  {
  }

  lemma LinesOfFirst(line: string, rest: string)
    requires IsLine(line)
    ensures Lines(line + "\n" + rest) == [line] + Lines(rest)
  {
    hide Strip;
    var text := line + "\n" + rest;
    assert text == line + ("\n" + rest);
    SpanStops(line, "\n" + rest, c => !IsBreak(c));
    assert text[|line| + 1..] == rest;
  }

  /** What a line holds, its text holds. */
  lemma {:induction false} LineIsInText(text: string, i: nat, p: string)
    requires i < |Lines(text)| && Contains(Lines(text)[i], p)
    ensures Contains(text, p)
    decreases |text|
  {
    hide Contains, Strip;
    var line := Span(text, c => !IsBreak(c));
    var kept := Strip(line) != "";
    if kept && i == 0 {
      StartContained(text, |line|, p);
    } else {
      LineIsInText(text[|line| + 1..], if kept then i - 1 else i, p);
      EndContained(text, |line| + 1, p);
    }
  }

  lemma StartContained(text: string, n: nat, p: string)
    requires n <= |text| && Contains(text[..n], p)
    ensures Contains(text, p)
  {
    hide Contains;
    PartContained("", text[..n], text[n..], p);
    assert "" + text[..n] + text[n..] == text;
  }

  lemma EndContained(text: string, n: nat, p: string)
    requires n <= |text| && Contains(text[n..], p)
    ensures Contains(text, p)
  {
    hide Contains;
    PartContained(text[..n], text[n..], "", p);
    assert text[..n] + text[n..] + "" == text;
  }

  /** What printed lines hold, one of them holds, unless it spans lines. */
  lemma {:induction false} PrintedHolds(lines: seq<string>, p: string)
    requires p != "" && '\n' !in p
    ensures Contains(Printed(lines), p) <==> exists i :: 0 <= i < |lines| && Contains(lines[i], p)
  {
    if lines != [] {
      var rest := lines[1..];
      PrintedHolds(rest, p);
      ContainsSplit(lines[0], '\n', Printed(rest), p);
      assert lines[0] + ['\n'] + Printed(rest) == Printed(lines);
      if i :| 0 <= i < |rest| && Contains(rest[i], p) {
        assert Contains(lines[i + 1], p);
      }
      if i :| 0 <= i < |lines| && Contains(lines[i], p) && i > 0 {
        assert Contains(rest[i - 1], p);
      }
    }
  }

  // --- The document ---------------------------------------------------------------

  datatype Entry = Entry(info: string, uri: string)

  datatype Document = Document(head: seq<string>, entries: seq<Entry>)

  const STREAM_INF := "#EXT-X-STREAM-INF:"

  predicate IsInfo(line: string) { StartsWith(line, STREAM_INF) }

  /** Read lines on from where `started` says whether an entry came before. */
  function Reading(lines: seq<string>, started: bool): Document {
    if lines == [] then Document([], [])
    else if IsInfo(lines[0]) && |lines| > 1 then
      var d := Reading(lines[2..], true);
      d.(entries := [Entry(lines[0], lines[1])] + d.entries)
    else
      var d := Reading(lines[1..], started);
      if started then d else d.(head := [lines[0]] + d.head)
  }

  function Parse(text: string): Document { Reading(Lines(text), false) }

  function PairLines(entries: seq<Entry>): seq<string> {
    if entries == [] then [] else [entries[0].info, entries[0].uri] + PairLines(entries[1..])
  }

  function Print(d: Document): string { Printed(d.head + PairLines(d.entries)) }

  lemma ReadingAt(lines: seq<string>, i: nat, started: bool)
    requires i < |lines|
    ensures IsInfo(lines[i]) && i + 1 < |lines| ==>
              var rest := Reading(lines[i + 2..], true);
              Reading(lines[i..], started) == rest.(entries := [Entry(lines[i], lines[i + 1])] + rest.entries)
    ensures !(IsInfo(lines[i]) && i + 1 < |lines|) ==>
              var rest := Reading(lines[i + 1..], started);
              Reading(lines[i..], started) == if started then rest else rest.(head := [lines[i]] + rest.head)
  {
    hide IsInfo;
    assert lines[i..][1..] == lines[i + 1..];
    if i + 1 < |lines| {
      assert lines[i..][2..] == lines[i + 2..];
    }
  }

  /** `_entries`: the loop over the lines. */
  method ReadEntries(text: string) returns (head: seq<string>, entries: seq<Entry>)
    ensures Document(head, entries) == Parse(text)
  {
    hide IsInfo, Lines;
    var lines := Lines(text);
    head, entries := [], [];
    var index := 0;
    while index < |lines|
      invariant 0 <= index <= |lines|
      invariant var rest := Reading(lines[index..], entries != []);
                Parse(text) == Document(head + rest.head, entries + rest.entries)
    {
      var line := lines[index];
      ReadingAt(lines, index, entries != []);
      if IsInfo(line) && index + 1 < |lines| {
        entries := entries + [Entry(line, lines[index + 1])];
        index := index + 2;
      } else {
        if entries == [] {
          head := head + [line];
        }
        index := index + 1;
      }
    }
    assert lines[index..] == [];
  }

  /** What `Parse` returns; a STREAM-INF line without its URI can only be the last. */
  predicate WellFormed(d: Document) {
    && (forall i :: 0 <= i < |d.head| ==> IsLine(d.head[i]))
    && (forall i :: 0 <= i < |d.entries| ==>
          IsLine(d.entries[i].info) && IsInfo(d.entries[i].info) && IsLine(d.entries[i].uri))
    && (forall i :: 0 <= i < |d.head| && IsInfo(d.head[i]) ==> i == |d.head| - 1 && d.entries == [])
  }

  /** No STREAM-INF line is left without a URI. */
  predicate Whole(d: Document) {
    forall i :: 0 <= i < |d.head| ==> !IsInfo(d.head[i])
  }

  lemma {:induction false} ReadingIsWellFormed(lines: seq<string>, started: bool)
    requires forall i :: 0 <= i < |lines| ==> IsLine(lines[i])
    ensures WellFormed(Reading(lines, started))
    ensures started ==> Reading(lines, started).head == []
  {
    if lines != [] {
      if IsInfo(lines[0]) && |lines| > 1 {
        assert IsLine(lines[0]) && IsLine(lines[1]);
        ReadingIsWellFormed(lines[2..], true);
      } else {
        ReadingIsWellFormed(lines[1..], started);
      }
    }
  }

  lemma ParseIsWellFormed(text: string)
    ensures WellFormed(Parse(text))
  {
    LinesAreLines(text);
    ReadingIsWellFormed(Lines(text), false);
  }

  lemma {:induction false} PairLinesAre(entries: seq<Entry>)
    ensures |PairLines(entries)| == 2 * |entries|
    ensures forall i :: 0 <= i < |entries| ==>
              PairLines(entries)[2 * i] == entries[i].info && PairLines(entries)[2 * i + 1] == entries[i].uri
  {
    if entries != [] {
      PairLinesAre(entries[1..]);
    }
  }

  lemma {:induction false} ReadingPairs(entries: seq<Entry>, started: bool)
    requires forall i :: 0 <= i < |entries| ==> IsInfo(entries[i].info)
    ensures Reading(PairLines(entries), started) == Document([], entries)
  {
    if entries != [] {
      ReadingPairs(entries[1..], true);
      assert PairLines(entries)[2..] == PairLines(entries[1..]);
    }
  }

  lemma {:induction false} ReadingDocument(d: Document)
    requires WellFormed(d)
    ensures Reading(d.head + PairLines(d.entries), false) == d
    decreases |d.head|
  {
    hide IsInfo, IsLine;
    var lines := d.head + PairLines(d.entries);
    if d.head == [] {
      assert lines == PairLines(d.entries);
      ReadingPairs(d.entries, false);
    } else {
      var rest := d.(head := d.head[1..]);
      assert lines[1..] == rest.head + PairLines(rest.entries);
      assert lines[0] == d.head[0];
      assert !(IsInfo(lines[0]) && |lines| > 1);
      ReadingDocument(rest);
    }
  }

  /** Printing and parsing again gives the same head and entries. */
  lemma ParsePrint(d: Document)
    requires WellFormed(d)
    ensures Parse(Print(d)) == d
  {
    var lines := d.head + PairLines(d.entries);
    PairLinesAre(d.entries);
    forall i | 0 <= i < |lines| ensures IsLine(lines[i]) {
      if i >= |d.head| {
        var j := (i - |d.head|) / 2;
        assert lines[i] == if (i - |d.head|) % 2 == 0 then d.entries[j].info else d.entries[j].uri;
      }
    }
    LinesOfPrinted(lines);
    ReadingDocument(d);
  }

  // --- Attributes, as the regular expressions find them ----------------------------

  const AUDIO_IS := "AUDIO=\""

  const RATE_IS := "FRAME-RATE="

  predicate NotQuote(c: char) { c != '"' }

  predicate IsRate(c: char) { IsDigit(c) || c == '.' }

  /** `AUDIO="([^"]+)"` at the start of `s`. */
  function AudioAt(s: string): Option<string> {
    if !StartsWith(s, AUDIO_IS) then None
    else
      var group := Span(s[|AUDIO_IS|..], NotQuote);
      if group != "" && |AUDIO_IS| + |group| < |s| then Some(group) else None
  }

  /** Its first match in `s`. */
  function AudioOf(s: string): Option<string> {
    if s == "" then None else if AudioAt(s).Some? then AudioAt(s) else AudioOf(s[1..])
  }

  /** `FRAME-RATE=([0-9.]+)` at the start of `s`. */
  function RateAt(s: string): Option<string> {
    if !StartsWith(s, RATE_IS) then None
    else
      var rate := Span(s[|RATE_IS|..], IsRate);
      if rate != "" then Some(rate) else None
  }

  function RateOf(s: string): Option<string> {
    if s == "" then None else if RateAt(s).Some? then RateAt(s) else RateOf(s[1..])
  }

  lemma {:induction false} AudioIsInside(s: string, p: string)
    requires AudioOf(s).Some?
    ensures var group := AudioOf(s).value; group != "" && '"' !in group && |group| <= |s|
    ensures Contains(AudioOf(s).value, p) ==> Contains(s, p)
    ensures forall c :: c in AudioOf(s).value ==> c in s
  {
    if AudioAt(s).Some? {
      var group, rest := AudioOf(s).value, s[|AUDIO_IS|..];
      assert s == s[..|AUDIO_IS|] + group + rest[|group|..];
      if Contains(group, p) { PartContained(s[..|AUDIO_IS|], group, rest[|group|..], p); }
    } else {
      AudioIsInside(s[1..], p);
      if Contains(AudioOf(s).value, p) { PartContained(s[..1], s[1..], "", p); }
      assert s[..1] + s[1..] + "" == s;
    }
  }

  lemma {:induction false} RateIsNumber(s: string)
    requires RateOf(s).Some?
    ensures RateOf(s).value != "" && forall c :: c in RateOf(s).value ==> IsRate(c)
  {
    if !RateAt(s).Some? {
      RateIsNumber(s[1..]);
    }
  }

  lemma {:induction false} AudioSkips(a: string, b: string)
    requires forall i :: 0 <= i < |a| ==> !StartsWith((a + b)[i..], AUDIO_IS)
    ensures AudioOf(a + b) == AudioOf(b)
  {
    if a == "" {
      assert a + b == b;
    } else {
      var s := a + b;
      assert s[0..] == s && s[1..] == a[1..] + b;
      forall i | 0 <= i < |a[1..]| ensures !StartsWith((a[1..] + b)[i..], AUDIO_IS) {
        assert (a[1..] + b)[i..] == s[i + 1..];
      }
      AudioSkips(a[1..], b);
    }
  }

  lemma {:induction false} RateSkips(a: string, b: string)
    requires forall i :: 0 <= i < |a| ==> !StartsWith((a + b)[i..], RATE_IS)
    ensures RateOf(a + b) == RateOf(b)
  {
    if a == "" {
      assert a + b == b;
    } else {
      var s := a + b;
      assert s[0..] == s && s[1..] == a[1..] + b;
      forall i | 0 <= i < |a[1..]| ensures !StartsWith((a[1..] + b)[i..], RATE_IS) {
        assert (a[1..] + b)[i..] == s[i + 1..];
      }
      RateSkips(a[1..], b);
    }
  }

  lemma FindsAudio(group: string, rest: string)
    requires group != "" && '"' !in group
    ensures AudioOf(AUDIO_IS + group + "\"" + rest) == Some(group)
  {
    var s := AUDIO_IS + group + "\"" + rest;
    assert s[|AUDIO_IS|..] == group + ("\"" + rest);
    assert s[..|AUDIO_IS|] == AUDIO_IS;
    SpanStops(group, "\"" + rest, NotQuote);
  }

  lemma FindsRate(rate: string)
    requires rate != "" && forall c :: c in rate ==> IsRate(c)
    ensures RateOf(RATE_IS + rate) == Some(rate)
  {
    var s := RATE_IS + rate;
    assert s[|RATE_IS|..] == rate + "" && s[..|RATE_IS|] == RATE_IS;
    SpanStops(rate, "", IsRate);
  }
}
