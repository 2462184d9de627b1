/** Reading the attributes of a playlist's line (RFC 8216, section 4.2): what a player
    finds in the lines that the playlists' writers leave. */
module AttributeList {
  import opened Prelude
  import opened Text
  import opened MasterText

  datatype Attribute = Bare(name: string, text: string) | Quoted(name: string, text: string)

  predicate NotComma(c: char) { c != ',' }

  predicate NotEquals(c: char) { c != '=' }

  /** What follows the next comma. */
  function AfterComma(s: string): (rest: string)
    ensures |rest| <= |s|
  {
    var before := Span(s, NotComma);
    if |before| == |s| then "" else s[|before| + 1..]
  }

  /** An attribute list: `NAME=value` or `NAME="value"`, with commas between. A comma
      inside quotes belongs to the value. */
  function ReadList(s: string): seq<Attribute>
    decreases |s|
  {
    var name := Span(s, NotEquals);
    if |name| == |s| then []
    else
      var rest := s[|name| + 1..];
      if rest != "" && rest[0] == '"' then
        var text := Span(rest[1..], NotQuote);
        [Quoted(name, text)] + ReadList(AfterComma(rest[1 + |text|..]))
      else
        var text := Span(rest, NotComma);
        [Bare(name, text)] + ReadList(AfterComma(rest[|text|..]))
  }

  /** The attributes of a line that starts with this tag. */
  function Attributes(line: string, tag: string): seq<Attribute> {
    if StartsWith(line, tag) then ReadList(line[|tag|..]) else []
  }

  /** What is left to read after a value. */
  predicate Follows(t: string) { t == "" || t[0] == ',' }

  function Rest(t: string): string { if t == "" then "" else t[1..] }

  lemma RestIsNext(t: string)
    requires Follows(t)
    ensures AfterComma(t) == Rest(t)
  {
    if t != "" {
      assert Span(t, NotComma) == "";
    }
  }

  lemma NameRead(name: string, rest: string)
    requires '=' !in name
    ensures var s := name + "=" + rest; Span(s, NotEquals) == name && s[|name| + 1..] == rest
  {
    assert name + "=" + rest == name + ("=" + rest);
    SpanStops(name, "=" + rest, NotEquals);
  }

  lemma TextRead(text: string, t: string)
    requires ',' !in text && Follows(t)
    ensures Span(text + t, NotComma) == text && (text + t)[|text|..] == t
  {
    SpanStops(text, t, NotComma);
  }

  lemma BareReads(name: string, text: string, t: string)
    requires '=' !in name && ',' !in text && (text == "" || text[0] != '"') && Follows(t)
    ensures ReadList(name + "=" + (text + t)) == [Bare(name, text)] + ReadList(Rest(t))
  {
    hide Span, AfterComma;
    NameRead(name, text + t);
    TextRead(text, t);
    RestIsNext(t);
  }

  lemma QuotedTextRead(text: string, t: string)
    requires '"' !in text
    ensures var rest := "\"" + (text + "\"" + t);
            Span(rest[1..], NotQuote) == text && rest[1 + |text|..] == "\"" + t
  {
    var rest := "\"" + (text + "\"" + t);
    assert rest[1..] == text + ("\"" + t);
    SpanStops(text, "\"" + t, NotQuote);
  }

  lemma QuotedReads(name: string, text: string, t: string)
    requires '=' !in name && '"' !in text && Follows(t)
    ensures ReadList(name + "=" + ("\"" + (text + "\"" + t))) == [Quoted(name, text)] + ReadList(Rest(t))
  {
    hide Span, AfterComma;
    NameRead(name, "\"" + (text + "\"" + t));
    QuotedTextRead(text, t);
    QuoteThen(t);
  }

  lemma QuoteThen(t: string)
    requires Follows(t)
    ensures AfterComma("\"" + t) == Rest(t)
  {
    var s := "\"" + t;
    SpanStops("\"", t, NotComma);
    assert Span(s, NotComma) == "\"";
  }
}
