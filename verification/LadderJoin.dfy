/** Joining a ladder's pieces (app/worker/ladder_pieces.py: `_segments`,
    `_write_playlist`, `_join`): each rung's segments, in order, under new names, and
    the media playlist (RFC 8216, sections 4.3.2.1 and 4.3.3.1) that lists them. */
module LadderJoin {
  import opened Prelude
  import opened Text
  import opened Rounding

  datatype Segment = Segment(duration: real, name: string)

  // --- Numbers in text ----------------------------------------------------------

  /** `{n:0width}`: zeros in front, up to the width. */
  function Padded(n: nat, width: nat): string {
    if |Digits(n)| >= width then Digits(n) else Zeros(width - |Digits(n)|) + Digits(n)
  }

  function Zeros(k: nat): (r: string)
    ensures |r| == k && forall i :: 0 <= i < k ==> r[i] == '0'
  {
    if k == 0 then "" else "0" + Zeros(k - 1)
  }

  lemma {:induction false} ValuePastZeros(k: nat, s: string)
    requires AllDigits(s)
    ensures AllDigits(Zeros(k) + s) && Value(Zeros(k) + s) == Value(s)
  {
    var t := Zeros(k) + s;
    if s != "" {
      assert t[..|t| - 1] == Zeros(k) + s[..|s| - 1];
      ValuePastZeros(k, s[..|s| - 1]);
    } else if k > 0 {
      assert t[..|t| - 1] == Zeros(k - 1) + "";
      ValuePastZeros(k - 1, "");
    }
  }

  /** Padding changes no value, so different numbers stay different texts. */
  lemma ValueOfPadded(n: nat, width: nat)
    ensures AllDigits(Padded(n, width)) && Value(Padded(n, width)) == n
    ensures |Padded(n, width)| >= width
  {
    ValueOfDigits(n);
    hide Digits, Value, AllDigits;
    if |Digits(n)| < width {
      ValuePastZeros(width - |Digits(n)|, Digits(n));
    }
  }

  lemma {:induction false} DigitsFit(n: nat, k: nat)
    requires n < Power10(k) && k > 0
    ensures |Digits(n)| <= k
  {
    if n >= 10 {
      DigitsFit(n / 10, k - 1);
    }
  }

  function Power10(k: nat): (r: nat)
    ensures r > 0
  {
    if k == 0 then 1 else 10 * Power10(k - 1)
  }

  /** Python's `float` of plain decimal notation. */
  function Decimal(text: string): Option<real> {
    var whole := Span(text, IsDigit);
    var rest := text[|whole|..];
    if rest == "" then (if whole == "" then None else Some(WholeOf(whole)))
    else if rest[0] != '.' || !AllDigits(rest[1..]) || (whole == "" && rest == ".") then None
    else Some(WholeOf(whole) + WholeOf(rest[1..]) / (Power10(|rest| - 1) as real))
  }

  function WholeOf(digits: string): real
  {
    if AllDigits(digits) then Value(digits) as real else 0.0
  }

  /** A duration to six decimals, in microseconds. */
  function Micros(duration: real): (m: int)
    ensures duration >= 0.0 ==> m >= 0
  {
    HalfEven(duration * 1000000.0)
  }

  /** `{duration:.6f}`. */
  function Fixed6(duration: real): string
    requires duration >= 0.0
  {
    var m: nat := Micros(duration);
    Digits(m / 1000000) + "." + Padded(m % 1000000, 6)
  }

  lemma DecimalOfFixed6(duration: real)
    requires duration >= 0.0
    ensures Decimal(Fixed6(duration)) == Some(Micros(duration) as real / 1000000.0)
  {
    hide Micros, Digits, Padded, Value, Power10, AllDigits, Decimal;
    var m: nat := Micros(duration);
    var whole, part := Digits(m / 1000000), Padded(m % 1000000, 6);
    ValueOfDigits(m / 1000000);
    ValueOfPadded(m % 1000000, 6);
    SixDigits(m % 1000000);
    DecimalOfParts(whole, part);
    SixthsAdd(m);
  }

  lemma SixDigits(n: nat)
    requires n < 1000000
    ensures Power10(6) == 1000000 && |Padded(n, 6)| == 6
  {
    assert Power10(3) == 1000;
    assert Power10(6) == 10 * (10 * (10 * Power10(3)));
    DigitsFit(n, 6);
  }

  lemma DecimalOfParts(whole: string, part: string)
    requires AllDigits(whole) && AllDigits(part) && whole != "" && part != ""
    ensures Decimal(whole + "." + part) == Some(Value(whole) as real + Value(part) as real / Power10(|part|) as real)
  {
    hide Value, Power10, AllDigits, Span;
    var text := whole + "." + part;
    PointSplits(whole, part);
    var rest := text[|whole|..];
    assert rest != "" && rest[0] == '.' && rest[1..] == part && |rest| - 1 == |part|;
    assert Decimal(text) == Some(WholeOf(whole) + WholeOf(part) / Power10(|part|) as real);
  }

  lemma PointSplits(whole: string, part: string)
    requires AllDigits(whole)
    ensures Span(whole + "." + part, IsDigit) == whole && (whole + "." + part)[|whole|..] == "." + part
    ensures ("." + part)[1..] == part
  {
    assert forall c :: c in whole ==> IsDigit(c);
    hide AllDigits, Span;
    var rest := "." + part;
    assert whole + "." + part == whole + rest;
    SpanStops(whole, rest, IsDigit);
    assert (whole + rest)[|whole|..] == rest;
  }

  lemma SixthsAdd(m: nat)
    ensures (m / 1000000) as real + (m % 1000000) as real / 1000000.0 == m as real / 1000000.0
  {
    assert m == 1000000 * (m / 1000000) + m % 1000000;
    assert m as real == 1000000.0 * (m / 1000000) as real + (m % 1000000) as real;
  }

  // --- The media playlist ----------------------------------------------------------

  const EXTINF := "#EXTINF:"

  /** `str.splitlines`. */
  function AllLines(text: string): seq<string>
    decreases |text|
  {
    if text == "" then []
    else
      var line := Span(text, c => !IsBreak(c));
      if |line| == |text| then [line]
      else
        var rest := text[|line| + 1..];
        [line] + AllLines(if text[|line|] == '\r' && rest != "" && rest[0] == '\n' then rest[1..] else rest)
  }

  /** The duration an EXTINF line gives, its trailing commas dropped. */
  function DurationOf(line: string): Option<real>
    requires StartsWith(line, EXTINF)
  {
    Decimal(StripRight(line[|EXTINF|..], c => c == ','))
  }

  /** `_segments`: each EXTINF line with the line after it; None if a duration cannot
      be read, which raises. */
  function SegmentsOf(lines: seq<string>): Option<seq<Segment>> {
    if |lines| < 2 then Some([])
    else
      var rest := SegmentsOf(lines[1..]);
      if !StartsWith(lines[0], EXTINF) then rest
      else
        var d := DurationOf(lines[0]);
        if d.None? || rest.None? then None else Some([Segment(d.value, lines[1])] + rest.value)
  }

  function Segments(text: string): Option<seq<Segment>> { SegmentsOf(AllLines(text)) }

  function Target(segments: seq<Segment>): int {
    if segments == [] then 1
    else if |segments| == 1 then Ceil(segments[0].duration)
    else
      var rest := Target(segments[1..]);
      if Ceil(segments[0].duration) > rest then Ceil(segments[0].duration) else rest
  }

  function TargetOf(segments: seq<Segment>): nat
    requires Lasting(segments)
  {
    if segments == [] then 1
    else
      TargetBounds(segments, 0);
      Target(segments)
  }

  predicate Lasting(segments: seq<Segment>) {
    forall i :: 0 <= i < |segments| ==> segments[i].duration >= 0.0
  }

  function EntryLines(segments: seq<Segment>): seq<string>
    requires Lasting(segments)
  {
    if segments == [] then []
    else [EXTINF + Fixed6(segments[0].duration) + ",", segments[0].name] + EntryLines(segments[1..])
  }

  function Head(target: nat): seq<string> {
    ["#EXTM3U", "#EXT-X-VERSION:3", "#EXT-X-TARGETDURATION:" + Digits(target), "#EXT-X-MEDIA-SEQUENCE:0", "#EXT-X-PLAYLIST-TYPE:VOD"]
  }

  /** Every segment's duration, as it is and as it is written, is at most the target. */
  lemma {:induction false} TargetBounds(segments: seq<Segment>, i: nat)
    requires i < |segments|
    ensures segments[i].duration <= Target(segments) as real
    ensures Micros(segments[i].duration) <= Target(segments) * 1000000
    ensures exists k :: 0 <= k < |segments| && Target(segments) == Ceil(segments[k].duration)
  {
    if |segments| > 1 {
      if i > 0 {
        TargetBounds(segments[1..], i - 1);
      } else {
        TargetBounds(segments[1..], 0);
      }
      var k :| 0 <= k < |segments[1..]| && Target(segments[1..]) == Ceil(segments[1..][k].duration);
      assert segments[k + 1] == segments[1..][k];
      assert Target(segments) == Ceil(segments[0].duration) || Target(segments) == Ceil(segments[k + 1].duration);
    }
    RoundingStaysBelow(segments[i].duration, Target(segments));
  }

  lemma RoundingStaysBelow(d: real, target: int)
    requires d <= target as real
    ensures Micros(d) <= target * 1000000
  {
    var x, limit := d * 1000000.0, target * 1000000;
    assert x <= limit as real;
    assert x.Floor <= limit;
    if x.Floor == limit {
      assert x == limit as real;
    }
  }

  /** `_write_playlist`. */
  method WritePlaylist(segments: seq<Segment>) returns (text: string)
    requires Lasting(segments)
    ensures text == Playlist(segments)
  {
    hide Fixed6, TargetOf, Head;
    var lines := Head(TargetOf(segments));
    var i := 0;
    while i < |segments|
      invariant 0 <= i <= |segments|
      invariant lines + EntryLines(segments[i..]) == Head(TargetOf(segments)) + EntryLines(segments)
    {
      assert segments[i..][1..] == segments[i + 1..];
      lines := lines + [EXTINF + Fixed6(segments[i].duration) + ",", segments[i].name];
      i := i + 1;
    }
    assert EntryLines(segments[i..]) == [];
    assert lines == Head(TargetOf(segments)) + EntryLines(segments);
    lines := lines + ["#EXT-X-ENDLIST"];
    text := Printed(lines);
  }

  function Playlist(segments: seq<Segment>): string
    requires Lasting(segments)
  {
    Printed(Head(TargetOf(segments)) + EntryLines(segments) + ["#EXT-X-ENDLIST"])
  }

  predicate Unbroken(line: string) { forall i :: 0 <= i < |line| ==> !IsBreak(line[i]) }

  lemma {:induction false} LinesOfPrinted(lines: seq<string>)
    requires forall i :: 0 <= i < |lines| ==> Unbroken(lines[i])
    ensures AllLines(Printed(lines)) == lines
  {
    hide Unbroken, AllLines;
    if lines != [] {
      LinesOfPrinted(lines[1..]);
      LinesOfFirst(lines[0], Printed(lines[1..]));
    } else {
      NoLines();
    }
  }

  lemma NoLines()
    ensures AllLines("") == []
  {
  }

  lemma LinesOfFirst(line: string, rest: string)
    requires Unbroken(line)
    ensures AllLines(line + "\n" + rest) == [line] + AllLines(rest)
  {
    var text := line + "\n" + rest;
    assert text == line + ("\n" + rest);
    assert forall c :: c in line ==> !IsBreak(c);
    SpanStops(line, "\n" + rest, c => !IsBreak(c));
    assert text[|line| + 1..] == rest && text[|line|] == '\n';
  }

  /** What reading gives back: the same names, durations to six decimals. */
  function Rounded(segments: seq<Segment>): seq<Segment> {
    seq(|segments|, i requires 0 <= i < |segments| =>
      Segment(Micros(segments[i].duration) as real / 1000000.0, segments[i].name))
  }

  /** A file name that a playlist can hold. */
  predicate Listable(segments: seq<Segment>) {
    forall i :: 0 <= i < |segments| ==> Unbroken(segments[i].name) && (segments[i].name == "" || segments[i].name[0] != '#')
  }

  lemma DurationReadsBack(duration: real)
    requires duration >= 0.0
    ensures var line := EXTINF + Fixed6(duration) + ",";
            && StartsWith(line, EXTINF) && Unbroken(line)
            && DurationOf(line) == Some(Micros(duration) as real / 1000000.0)
  {
    hide Fixed6, Decimal, Micros;
    var text := Fixed6(duration);
    var line := EXTINF + text + ",";
    DecimalOfFixed6(duration);
    Fixed6IsPlain(duration);
    assert line[..|EXTINF|] == EXTINF && line[|EXTINF|..] == text + ",";
    assert (text + ",")[..|text|] == text;
    assert StripRight(text, c => c == ',') == text;
  }

  lemma Fixed6IsPlain(duration: real)
    requires duration >= 0.0
    ensures var t := Fixed6(duration); t != "" && IsDigit(t[|t| - 1]) && forall i :: 0 <= i < |t| ==> IsDigit(t[i]) || t[i] == '.'
  {
    var m: nat := Micros(duration);
    ValueOfDigits(m / 1000000);
    ValueOfPadded(m % 1000000, 6);
    hide Padded, Digits, Micros;
  }

  lemma NotATag(name: string)
    requires name == "" || name[0] != '#'
    ensures !StartsWith(name, EXTINF)
  {
    if |name| >= |EXTINF| {
      assert name[0..0 + |EXTINF|][0] == name[0];
    }
  }

  lemma ReadsOne(line: string, name: string, rest: seq<string>)
    requires StartsWith(line, EXTINF) && DurationOf(line).Some? && !StartsWith(name, EXTINF)
    ensures SegmentsOf([line, name] + rest)
            == if SegmentsOf(rest).None? then None else Some([Segment(DurationOf(line).value, name)] + SegmentsOf(rest).value)
  {
    hide StartsWith, DurationOf;
    var lines := [line, name] + rest;
    assert lines[1..] == [name] + rest && ([name] + rest)[1..] == rest;
    if rest == [] {
      assert SegmentsOf(lines[1..]) == Some([]) && SegmentsOf(rest) == Some([]);
    } else {
      assert SegmentsOf(lines[1..]) == SegmentsOf(rest);
    }
  }

  lemma EndReadsBack()
    ensures SegmentsOf(["#EXT-X-ENDLIST"]) == Some([])
  {
  }

  lemma RoundedRest(segments: seq<Segment>)
    requires segments != []
    ensures Rounded(segments)
            == [Segment(Micros(segments[0].duration) as real / 1000000.0, segments[0].name)] + Rounded(segments[1..])
  {
    hide Micros;
  }

  lemma {:induction false} EntriesReadBack(segments: seq<Segment>)
    requires Lasting(segments) && Listable(segments)
    ensures SegmentsOf(EntryLines(segments) + ["#EXT-X-ENDLIST"]) == Some(Rounded(segments))
  {
    hide StartsWith, DurationOf, Fixed6, Unbroken, SegmentsOf, Micros, Rounded;
    if segments == [] {
      EndReadsBack();
      assert EntryLines(segments) + ["#EXT-X-ENDLIST"] == ["#EXT-X-ENDLIST"];
      NothingRounded();
    } else {
      var line, rest := EXTINF + Fixed6(segments[0].duration) + ",", EntryLines(segments[1..]) + ["#EXT-X-ENDLIST"];
      DurationReadsBack(segments[0].duration);
      NotATag(segments[0].name);
      EntriesReadBack(segments[1..]);
      assert EntryLines(segments) + ["#EXT-X-ENDLIST"] == [line, segments[0].name] + rest;
      ReadsOne(line, segments[0].name, rest);
      RoundedRest(segments);
    }
  }

  lemma NothingRounded()
    ensures Rounded([]) == []
  {
  }

  lemma EntriesAreUnbroken(segments: seq<Segment>)
    requires Lasting(segments) && Listable(segments)
    ensures forall i :: 0 <= i < |EntryLines(segments)| ==> Unbroken(EntryLines(segments)[i])
  {
    if segments != [] {
      DurationReadsBack(segments[0].duration);
      EntriesAreUnbroken(segments[1..]);
      hide Unbroken, Fixed6, StartsWith, DurationOf;
    }
  }

  lemma HeadTexts()
    ensures Unbroken("#EXTM3U") && Unbroken("#EXT-X-VERSION:3") && Unbroken("#EXT-X-TARGETDURATION:")
  {
  }

  lemma MoreHeadTexts()
    ensures Unbroken("#EXT-X-MEDIA-SEQUENCE:0") && Unbroken("#EXT-X-PLAYLIST-TYPE:VOD") && Unbroken("#EXT-X-ENDLIST")
  {
  }

  lemma TargetLine(target: nat)
    ensures Unbroken("#EXT-X-TARGETDURATION:" + Digits(target))
  {
    HeadTexts();
    ValueOfDigits(target);
    hide Digits;
    var tag := "#EXT-X-TARGETDURATION:";
    assert forall i :: 0 <= i < |tag + Digits(target)| ==>
      (tag + Digits(target))[i] == if i < |tag| then tag[i] else Digits(target)[i - |tag|];
  }

  lemma HeadIsUnbroken(target: nat)
    ensures forall i :: 0 <= i < |Head(target)| ==> Unbroken(Head(target)[i]) && !StartsWith(Head(target)[i], EXTINF)
  {
    HeadTexts();
    MoreHeadTexts();
    TargetLine(target);
    NotExtinf("#EXTM3U");
    NotExtinf("#EXT-X-VERSION:3");
    NotExtinf("#EXT-X-TARGETDURATION:" + Digits(target));
    NotExtinf("#EXT-X-MEDIA-SEQUENCE:0");
    NotExtinf("#EXT-X-PLAYLIST-TYPE:VOD");
    hide Unbroken, StartsWith, Digits;
  }

  lemma NotExtinf(line: string)
    requires |line| > 4 && line[4] != 'I'
    ensures !StartsWith(line, EXTINF)
  {
    if |line| >= |EXTINF| {
      assert line[0..0 + |EXTINF|][4] == line[4];
    }
  }

  lemma {:induction false} SkipsHead(head: seq<string>, rest: seq<string>)
    requires forall i :: 0 <= i < |head| ==> !StartsWith(head[i], EXTINF)
    requires rest != []
    ensures SegmentsOf(head + rest) == SegmentsOf(rest)
  {
    hide StartsWith, DurationOf;
    if head == [] {
      assert head + rest == rest;
    } else {
      assert (head + rest)[1..] == head[1..] + rest;
      SkipsHead(head[1..], rest);
    }
  }

  /** Reading a written playlist back gives the same names in the same order, with
      their durations to six decimals. */
  lemma PlaylistReadsBack(segments: seq<Segment>)
    requires Lasting(segments) && Listable(segments)
    ensures Segments(Playlist(segments)) == Some(Rounded(segments))
  {
    var head, rest := Head(TargetOf(segments)), EntryLines(segments) + ["#EXT-X-ENDLIST"];
    HeadIsUnbroken(TargetOf(segments));
    EntriesAreUnbroken(segments);
    EntriesReadBack(segments);
    MoreHeadTexts();
    hide Head, EntryLines, Unbroken, StartsWith, SegmentsOf, TargetOf;
    var lines := Head(TargetOf(segments)) + EntryLines(segments) + ["#EXT-X-ENDLIST"];
    assert lines == head + rest;
    LinesOfPrinted(lines);
    SkipsHead(head, rest);
  }

  /** What is before the segments, and what ends them: a video on demand from its first
      segment on, with the target as its longest segment rounded up. */
  lemma PlaylistLines(segments: seq<Segment>)
    requires Lasting(segments) && Listable(segments)
    ensures var lines := AllLines(Playlist(segments));
            && |lines| == 2 * |segments| + 6
            && lines[0] == "#EXTM3U" && lines[1] == "#EXT-X-VERSION:3"
            && lines[2] == "#EXT-X-TARGETDURATION:" + Digits(TargetOf(segments))
            && lines[3] == "#EXT-X-MEDIA-SEQUENCE:0" && lines[4] == "#EXT-X-PLAYLIST-TYPE:VOD"
            && lines[|lines| - 1] == "#EXT-X-ENDLIST"
  {
    hide EntryLines, Unbroken, StartsWith, TargetOf, Digits, Lasting, Listable, AllLines;
    HeadIsUnbroken(TargetOf(segments));
    EntriesAreUnbroken(segments);
    MoreHeadTexts();
    EntryCount(segments);
    LinesOfPrinted(Head(TargetOf(segments)) + EntryLines(segments) + ["#EXT-X-ENDLIST"]);
  }

  /** The target is the least whole number of seconds that no segment is longer than. */
  lemma TargetIsLeast(segments: seq<Segment>)
    requires Lasting(segments)
    ensures segments == [] ==> TargetOf(segments) == 1
    ensures segments != [] ==>
              && (forall i :: 0 <= i < |segments| ==> segments[i].duration <= TargetOf(segments) as real)
              && exists k :: 0 <= k < |segments| && TargetOf(segments) as real < segments[k].duration + 1.0
  {
    if segments != [] {
      forall i | 0 <= i < |segments| ensures segments[i].duration <= TargetOf(segments) as real {
        TargetBounds(segments, i);
      }
      TargetBounds(segments, 0);
    }
  }

  lemma {:induction false} EntryCount(segments: seq<Segment>)
    requires Lasting(segments)
    ensures |EntryLines(segments)| == 2 * |segments|
  {
    if segments != [] {
      EntryCount(segments[1..]);
    }
  }

  /** A whole number is read as itself. */
  lemma WholeReads(n: nat)
    ensures Decimal(Digits(n)) == Some(n as real)
  {
    ValueOfDigits(n);
    var d := Digits(n);
    assert d + "" == d;
    SpanStops(d, "", IsDigit);
  }

  // --- The join ------------------------------------------------------------------------

  /** A piece of one rung: its playlist's text and its files. */
  datatype Piece<T> = Piece(playlist: string, files: map<string, T>)

  function SegName(n: nat): string { "seg" + Padded(n, 5) + ".ts" }

  /** New names never collide, also past 99999. */
  lemma NamesDiffer(m: nat, n: nat)
    requires SegName(m) == SegName(n)
    ensures m == n
  {
    ValueOfPadded(m, 5);
    ValueOfPadded(n, 5);
    var a, b := Padded(m, 5), Padded(n, 5);
    hide Padded;
    assert |a| == |b|;
    assert SegName(m)[3..3 + |a|] == a && SegName(n)[3..3 + |b|] == b;
  }

  /** A new name is the segment's number, to five digits and more where it needs them. */
  lemma NameIs(n: nat)
    ensures var d := Padded(n, 5);
            && SegName(n) == "seg" + d + ".ts" && AllDigits(d) && Value(d) == n
            && |d| >= 5 && (n < 100000 ==> |d| == 5)
  {
    ValueOfPadded(n, 5);
    if n < 100000 {
      assert Power10(2) == 100 && Power10(5) == 100000;
      DigitsFit(n, 5);
    }
  }

  lemma NamesAreListable(n: nat)
    ensures Unbroken(SegName(n)) && SegName(n)[0] == 's'
  {
    ValueOfPadded(n, 5);
    var p := Padded(n, 5);
    hide Padded;
    assert forall i :: 0 <= i < |SegName(n)| ==>
      SegName(n)[i] == if i < 3 then "seg"[i] else if i < 3 + |p| then p[i - 3] else ".ts"[i - 3 - |p|];
  }

  /** A piece whose playlist can be read and lists each of its files at most once. */
  predicate Usable<T>(p: Piece<T>) {
    && Segments(p.playlist).Some?
    && var s := Segments(p.playlist).value;
       && (forall i :: 0 <= i < |s| ==> s[i].name in p.files)
       && (forall i, j :: 0 <= i < j < |s| ==> s[i].name != s[j].name)
  }

  /** A segment with what its file holds. */
  datatype Held<T> = Held(duration: real, content: T)

  function HeldBy<T>(p: Piece<T>): seq<Held<T>>
    requires Usable(p)
  {
    var s := Segments(p.playlist).value;
    seq(|s|, i requires 0 <= i < |s| => Held(s[i].duration, p.files[s[i].name]))
  }

  /** Every piece's segments, in order: what the whole rung is. */
  function AllHeld<T>(pieces: seq<Piece<T>>): seq<Held<T>>
    requires forall i :: 0 <= i < |pieces| ==> Usable(pieces[i])
  {
    if pieces == [] then [] else AllHeld(pieces[..|pieces| - 1]) + HeldBy(pieces[|pieces| - 1])
  }

  /** The rung's directory and list hold exactly these segments, one name each. */
  ghost predicate Holds<T>(rung: map<string, T>, entries: seq<Segment>, all: seq<Held<T>>) {
    && |entries| == |all|
    && (forall i :: 0 <= i < |all| ==>
          entries[i] == Segment(all[i].duration, SegName(i)) && SegName(i) in rung && rung[SegName(i)] == all[i].content)
    && (forall name :: name in rung ==> exists i :: 0 <= i < |all| && name == SegName(i))
  }

  lemma HoldsOneMore<T>(rung: map<string, T>, entries: seq<Segment>, all: seq<Held<T>>, h: Held<T>)
    requires Holds(rung, entries, all)
    ensures SegName(|entries|) !in rung
    ensures Holds(rung[SegName(|entries|) := h.content], entries + [Segment(h.duration, SegName(|entries|))], all + [h])
  {
    var n := |entries|;
    forall i: nat | SegName(i) == SegName(n) ensures i == n {
      NamesDiffer(i, n);
    }
    hide SegName;
  }

  lemma HeldMore<T>(pieces: seq<Piece<T>>, n: nat)
    requires n < |pieces| && forall i :: 0 <= i <= n ==> Usable(pieces[i])
    ensures AllHeld(pieces[..n + 1]) == AllHeld(pieces[..n]) + HeldBy(pieces[n])
  {
    assert pieces[..n + 1][..n] == pieces[..n];
  }

  /** `_join` for one rung: each file is moved to its new name, in order. A file that is
      not there, or a playlist that cannot be read, raises. */
  method JoinRung<T>(pieces: seq<Piece<T>>) returns (ok: bool, rung: map<string, T>, entries: seq<Segment>)
    ensures ok <==> forall i :: 0 <= i < |pieces| ==> Usable(pieces[i])
    ensures ok ==> Holds(rung, entries, AllHeld(pieces))
  {
    rung, entries := map[], [];
    assert Holds(rung, entries, AllHeld(pieces[..0]));
    hide Holds, Usable, HeldBy, AllHeld;
    var index := 0;
    while index < |pieces|
      invariant 0 <= index <= |pieces|
      invariant forall i :: 0 <= i < index ==> Usable(pieces[i])
      invariant Holds(rung, entries, AllHeld(pieces[..index]))
    {
      var fits;
      fits, rung, entries := MovePiece(pieces[index], rung, entries, AllHeld(pieces[..index]));
      if !fits {
        return false, rung, entries;
      }
      HeldMore(pieces, index);
      index := index + 1;
    }
    assert pieces[..index] == pieces;
    ok := true;
  }

  method MovePiece<T>(p: Piece<T>, into: map<string, T>, listed: seq<Segment>, ghost all: seq<Held<T>>)
    returns (ok: bool, rung: map<string, T>, entries: seq<Segment>)
    requires Holds(into, listed, all)
    ensures ok <==> Usable(p)
    ensures ok ==> Holds(rung, entries, all + HeldBy(p))
  {
    hide Holds, Segments, SegName;
    rung, entries := into, listed;
    if Segments(p.playlist).None? {
      return false, rung, entries;
    }
    var segments, files, k := Segments(p.playlist).value, p.files, 0;
    ghost var moved: seq<Held<T>> := [];
    assert all + moved == all;
    while k < |segments|
      invariant 0 <= k <= |segments|
      invariant forall i :: 0 <= i < k ==> segments[i].name in p.files
      invariant forall i, j :: 0 <= i < j < k ==> segments[i].name != segments[j].name
      invariant forall name :: name in files <==> name in p.files && forall i :: 0 <= i < k ==> segments[i].name != name
      invariant forall name :: name in files ==> files[name] == p.files[name]
      invariant |moved| == k && forall i :: 0 <= i < k ==> moved[i] == Held(segments[i].duration, p.files[segments[i].name])
      invariant Holds(rung, entries, all + moved)
    {
      var name := segments[k].name;
      if name !in files {
        return false, rung, entries;
      }
      ghost var h := Held(segments[k].duration, files[name]);
      HoldsOneMore(rung, entries, all + moved, h);
      assert all + (moved + [h]) == (all + moved) + [h];
      var joined := SegName(|entries|);
      rung := rung[joined := files[name]];
      files := files - {name};
      entries := entries + [Segment(segments[k].duration, joined)];
      moved := moved + [h];
      k := k + 1;
    }
    assert Usable(p);
    assert moved == HeldBy(p);
    ok := true;
  }

  // --- The joined rung's playlist --------------------------------------------------------

  lemma DecimalIsNotNegative(text: string)
    ensures Decimal(text).Some? ==> Decimal(text).value >= 0.0
  {
  }

  lemma {:induction false} ReadSegmentsLast(lines: seq<string>)
    ensures SegmentsOf(lines).Some? ==> Lasting(SegmentsOf(lines).value)
  {
    if |lines| >= 2 {
      ReadSegmentsLast(lines[1..]);
      if StartsWith(lines[0], EXTINF) {
        DecimalIsNotNegative(StripRight(lines[0][|EXTINF|..], c => c == ','));
      }
    }
  }

  lemma {:induction false} HeldLast<T>(pieces: seq<Piece<T>>, i: nat)
    requires forall i :: 0 <= i < |pieces| ==> Usable(pieces[i])
    requires i < |AllHeld(pieces)|
    ensures AllHeld(pieces)[i].duration >= 0.0
  {
    var rest := AllHeld(pieces[..|pieces| - 1]);
    if i < |rest| {
      HeldLast(pieces[..|pieces| - 1], i);
    } else {
      ReadSegmentsLast(AllLines(pieces[|pieces| - 1].playlist));
      assert Usable(pieces[|pieces| - 1]);
    }
  }

  /** A duration that has six decimals or fewer, as FFmpeg writes them. */
  predicate SixDecimals(duration: real) { Micros(duration) as real / 1000000.0 == duration }

  lemma JoinedLasts<T>(pieces: seq<Piece<T>>, rung: map<string, T>, entries: seq<Segment>)
    requires forall i :: 0 <= i < |pieces| ==> Usable(pieces[i])
    requires Holds(rung, entries, AllHeld(pieces))
    ensures Lasting(entries) && Listable(entries)
  {
    hide Usable, AllHeld;
    forall i | 0 <= i < |entries|
      ensures entries[i].duration >= 0.0 && Unbroken(entries[i].name) && entries[i].name[0] == 's'
    {
      HeldLast(pieces, i);
      NamesAreListable(i);
      hide SegName;
    }
  }

  /** The rung's playlist lists the joined segments: read back, the new names in order,
      durations to six decimals -- the pieces' own, which have no more -- and none
      longer than the target duration. */
  lemma JoinedPlaylist<T>(pieces: seq<Piece<T>>, rung: map<string, T>, entries: seq<Segment>)
    requires forall i :: 0 <= i < |pieces| ==> Usable(pieces[i])
    requires Holds(rung, entries, AllHeld(pieces))
    ensures Lasting(entries) && Segments(Playlist(entries)) == Some(Rounded(entries))
    ensures (forall i :: 0 <= i < |entries| ==> SixDecimals(entries[i].duration)) ==> Rounded(entries) == entries
    ensures forall i :: 0 <= i < |entries| ==>
              Rounded(entries)[i].name == SegName(i) && Rounded(entries)[i].duration <= TargetOf(entries) as real
  {
    JoinedLasts(pieces, rung, entries);
    hide Usable, AllHeld, Segments, Playlist, SegName;
    PlaylistReadsBack(entries);
    hide TargetOf, Rounded;
    forall i | 0 <= i < |entries|
      ensures Rounded(entries)[i].name == SegName(i) && Rounded(entries)[i].duration <= TargetOf(entries) as real
    {
      RoundedIsBounded(entries, i);
    }
    ExactStays(entries);
  }

  lemma RoundedIsBounded(segments: seq<Segment>, i: nat)
    requires Lasting(segments) && i < |segments|
    ensures |Rounded(segments)| == |segments| && Rounded(segments)[i].name == segments[i].name
    ensures Rounded(segments)[i].duration <= TargetOf(segments) as real
  {
    TargetBounds(segments, i);
    hide Micros, Target;
    assert Micros(segments[i].duration) as real <= TargetOf(segments) as real * 1000000.0;
  }

  lemma ExactStays(segments: seq<Segment>)
    ensures |Rounded(segments)| == |segments|
    ensures (forall i :: 0 <= i < |segments| ==> SixDecimals(segments[i].duration)) ==> Rounded(segments) == segments
  {
    hide Micros;
  }
}
