/** Python's string operations that the models need. */
module Text {

  predicate IsSpace(c: char) {
    var n := c as int;
    n == 32 || 9 <= n <= 13 || 28 <= n <= 31 || n == 0x85 || n == 0xa0
    || n == 0x1680 || 0x2000 <= n <= 0x200a || n == 0x2028 || n == 0x2029 || n == 0x202f || n == 0x205f || n == 0x3000
  }

  function StripLeft(s: string, drop: char -> bool): string {
    if s != [] && drop(s[0]) then StripLeft(s[1..], drop) else s
  }

  function StripRight(s: string, drop: char -> bool): string {
    if s != [] && drop(s[|s| - 1]) then StripRight(s[..|s| - 1], drop) else s
  }

  /** Python's `str.strip`. */
  function Strip(s: string): string {
    StripRight(StripLeft(s, IsSpace), IsSpace)
  }

  lemma {:induction false} StripRightKeepsHead(s: string, drop: char -> bool)
    requires s != [] && !drop(s[0])
    ensures StripRight(s, drop) != [] && StripRight(s, drop)[0] == s[0]
  {
    if drop(s[|s| - 1]) {
      assert s[..|s| - 1][0] == s[0];
      StripRightKeepsHead(s[..|s| - 1], drop);
    }
  }

  lemma {:induction false} StripRightHead(s: string, drop: char -> bool)
    ensures StripRight(s, drop) != [] ==> s != [] && StripRight(s, drop)[0] == s[0]
  {
    if s != [] && drop(s[|s| - 1]) {
      StripRightHead(s[..|s| - 1], drop);
    }
  }

  lemma {:induction false} StripLeftHead(s: string, drop: char -> bool)
    ensures StripLeft(s, drop) != [] ==> !drop(StripLeft(s, drop)[0])
  {
    if s != [] && drop(s[0]) {
      StripLeftHead(s[1..], drop);
    }
  }

  lemma {:induction false} StripRightTail(s: string, drop: char -> bool)
    ensures var r := StripRight(s, drop); (r != [] ==> !drop(r[|r| - 1])) && |r| <= |s|
  {
    if s != [] && drop(s[|s| - 1]) {
      StripRightTail(s[..|s| - 1], drop);
    }
  }

  /** It has text at both ends, so stripping it changes nothing. */
  predicate Trimmed(s: string) {
    s != "" && !IsSpace(s[0]) && !IsSpace(s[|s| - 1])
  }

  lemma StripTrims(s: string)
    ensures Strip(s) != "" ==> Trimmed(Strip(s))
  {
    var left := StripLeft(s, IsSpace);
    StripLeftHead(s, IsSpace);
    StripRightHead(left, IsSpace);
    StripRightTail(left, IsSpace);
  }

  predicate At(s: string, p: string, i: nat) {
    i + |p| <= |s| && s[i..i + |p|] == p
  }

  predicate StartsWith(s: string, p: string) {
    At(s, p, 0)
  }

  /** Python's `p in s`. */
  predicate Contains(s: string, p: string) {
    exists i: nat :: i <= |s| && At(s, p, i)
  }

  lemma PartContained(a: string, s: string, b: string, p: string)
    requires Contains(s, p)
    ensures Contains(a + s + b, p)
  {
    var i: nat :| i <= |s| && At(s, p, i);
    assert (a + s + b)[|a| + i..|a| + i + |p|] == s[i..i + |p|];
    assert At(a + s + b, p, |a| + i);
  }

  /** What has no `c` in it lies on one side of one. */
  lemma ContainsSplit(a: string, c: char, b: string, p: string)
    requires c !in p
    ensures Contains(a + [c] + b, p) <==> Contains(a, p) || Contains(b, p)
  {
    if Contains(a, p) {
      PartContained("", a, [c] + b, p);
      assert "" + a + ([c] + b) == a + [c] + b;
    }
    if Contains(b, p) {
      PartContained(a + [c], b, "", p);
      assert (a + [c]) + b + "" == a + [c] + b;
    }
    if Contains(a + [c] + b, p) {
      var s := a + [c] + b;
      var i: nat :| i <= |s| && At(s, p, i);
      if i + |p| <= |a| {
        assert s[i..i + |p|] == a[i..i + |p|];
        assert At(a, p, i);
      } else if i > |a| {
        assert s[i..i + |p|] == b[i - |a| - 1..i - |a| - 1 + |p|];
        assert At(b, p, i - |a| - 1);
      } else {
        assert p[|a| - i] in p;
      }
    }
  }

  /** A character that is in `p` must be in anything that contains `p`. */
  lemma ContainsChar(s: string, p: string, c: char)
    requires Contains(s, p) && c in p
    ensures c in s
  {
    var i: nat :| i <= |s| && At(s, p, i);
    var j: nat :| j < |p| && p[j] == c;
    assert s[i..i + |p|][j] == s[i + j];
  }

  predicate IsDigit(c: char) { '0' <= c <= '9' }

  function Digits(n: nat): (r: string)
    ensures r != "" && forall c :: c in r ==> IsDigit(c)
  {
    if n < 10 then [('0' as int + n) as char] else Digits(n / 10) + [('0' as int + n % 10) as char]
  }

  /** What ends a line for `str.splitlines`. */
  predicate IsBreak(c: char) {
    var n := c as int;
    10 <= n <= 13 || 28 <= n <= 30 || n == 0x85 || n == 0x2028 || n == 0x2029
  }

  /** Whatever ends a line is a space, as a tab and a blank are. */
  lemma BreaksAreSpaces(c: char)
    requires IsBreak(c) || c == '\t' || c == ' '
    ensures IsSpace(c) && Strip([c]) == ""
  {
    assert [c][1..] == "" && StripLeft("", IsSpace) == "";
    assert StripLeft([c], IsSpace) == "" && StripRight("", IsSpace) == "";
  }

  function Span(s: string, ok: char -> bool): (r: string)
    ensures |r| <= |s| && r == s[..|r|]
    ensures forall c :: c in r ==> ok(c)
    ensures |r| < |s| ==> !ok(s[|r|])
  {
    if s == "" || !ok(s[0]) then "" else [s[0]] + Span(s[1..], ok)
  }

  lemma {:induction false} SpanStops(a: string, b: string, ok: char -> bool)
    requires forall c :: c in a ==> ok(c)
    requires b != "" ==> !ok(b[0])
    ensures Span(a + b, ok) == a
  {
    if a == "" {
      assert a + b == b;
    } else {
      assert (a + b)[1..] == a[1..] + b;
      SpanStops(a[1..], b, ok);
    }
  }

  /** Each line with its end. */
  function Printed(lines: seq<string>): string {
    if lines == [] then "" else lines[0] + "\n" + Printed(lines[1..])
  }

  function Value(digits: string): nat
    requires AllDigits(digits)
  {
    if digits == "" then 0
    else
      assert IsDigit(digits[|digits| - 1]);
      Value(digits[..|digits| - 1]) * 10 + (digits[|digits| - 1] as int - '0' as int)
  }

  predicate AllDigits(s: string) { forall i :: 0 <= i < |s| ==> IsDigit(s[i]) }

  lemma {:induction false} ValueOfDigits(n: nat)
    ensures AllDigits(Digits(n)) && Value(Digits(n)) == n
  {
    var s := Digits(n);
    assert forall i :: 0 <= i < |s| ==> s[i] in s;
    if n < 10 {
      assert s[..0] == "";
    } else {
      ValueOfDigits(n / 10);
      assert s[..|s| - 1] == Digits(n / 10);
    }
  }
}
