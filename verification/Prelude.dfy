/** Shared datatypes, and joining a list of stretches. */
module Prelude {

  datatype Option<+T> = None | Some(value: T)

  function Flatten<T>(parts: seq<seq<T>>): seq<T> {
    if parts == [] then [] else parts[0] + Flatten(parts[1..])
  }

  /** Part `j` is the stretch of `whole` between two cuts. */
  ghost predicate IsStretch<T>(whole: seq<T>, cuts: seq<int>, parts: seq<seq<T>>, j: nat)
    requires j < |parts| == |cuts| - 1
  {
    0 <= cuts[j] <= cuts[j + 1] <= |whole| && parts[j] == whole[cuts[j]..cuts[j + 1]]
  }

  /** Consecutive stretches of a sequence, end to end, are the sequence from where
      the first one starts. */
  lemma {:induction false} FlattenStretches<T>(whole: seq<T>, cuts: seq<int>, parts: seq<seq<T>>)
    requires |cuts| == |parts| + 1 && cuts[|parts|] == |whole|
    requires forall j :: 0 <= j < |parts| ==> IsStretch(whole, cuts, parts, j)
    ensures parts != [] ==> 0 <= cuts[0] <= |whole|
    ensures parts != [] ==> Flatten(parts) == whole[cuts[0]..]
  {
    if parts != [] {
      assert IsStretch(whole, cuts, parts, 0);
      forall j | 0 <= j < |parts[1..]| ensures IsStretch(whole, cuts[1..], parts[1..], j) {
        assert IsStretch(whole, cuts, parts, j + 1);
      }
      FlattenStretches(whole, cuts[1..], parts[1..]);
    }
  }

  ghost predicate SortedBy<T>(key: T -> int, s: seq<T>) {
    forall i, j :: 0 <= i < j < |s| ==> key(s[i]) <= key(s[j])
  }

  /** What is no higher than a bound stays so with one more that is not. */
  lemma AllBelow<T>(key: T -> int, x: T, rest: seq<T>, r: seq<T>, bound: int)
    requires multiset(r) == multiset(rest) + multiset{x} && key(x) <= bound
    requires forall i :: 0 <= i < |rest| ==> key(rest[i]) <= bound
    ensures forall i :: 0 <= i < |r| ==> key(r[i]) <= bound
  {
    forall i | 0 <= i < |r| ensures key(r[i]) <= bound {
      assert r[i] in multiset(r);
      assert r[i] == x || r[i] in multiset(rest);
    }
  }

  function InsertBy<T>(key: T -> int, x: T, s: seq<T>): (r: seq<T>)
    requires SortedBy(key, s)
    ensures SortedBy(key, r) && multiset(r) == multiset(s) + multiset{x}
  {
    if s == [] || key(s[|s| - 1]) <= key(x) then s + [x]
    else
      var rest, last := s[..|s| - 1], s[|s| - 1];
      assert s == rest + [last];
      var r := InsertBy(key, x, rest);
      AllBelow(key, x, rest, r, key(last));
      r + [last]
  }

  /** A stable sort by key, as Python's `sorted(s, key=...)`. */
  function SortBy<T>(key: T -> int, s: seq<T>): (r: seq<T>)
    ensures SortedBy(key, r) && multiset(r) == multiset(s)
  {
    if s == [] then []
    else
      assert s == s[..|s| - 1] + [s[|s| - 1]];
      InsertBy(key, s[|s| - 1], SortBy(key, s[..|s| - 1]))
  }

  lemma SortAppend<T>(key: T -> int, s: seq<T>, x: T)
    ensures SortBy(key, s + [x]) == InsertBy(key, x, SortBy(key, s))
  {
    assert (s + [x])[..|s|] == s;
  }

  lemma {:induction false} SortSorted<T>(key: T -> int, s: seq<T>)
    requires SortedBy(key, s)
    ensures SortBy(key, s) == s
  {
    if s != [] {
      SortSorted(key, s[..|s| - 1]);
    }
  }

  lemma InsertLast<T>(key: T -> int, x: T, s: seq<T>, last: T)
    requires SortedBy(key, s) && SortedBy(key, s + [last]) && key(x) < key(last)
    ensures InsertBy(key, x, s + [last]) == InsertBy(key, x, s) + [last]
  {
    assert (s + [last])[..|s|] == s;
  }

  /** Elements with different keys can be put in in either order. */
  lemma {:induction false} InsertCommutes<T>(key: T -> int, x: T, y: T, s: seq<T>)
    requires SortedBy(key, s) && key(x) < key(y)
    ensures InsertBy(key, x, InsertBy(key, y, s)) == InsertBy(key, y, InsertBy(key, x, s))
  {
    if s == [] || key(s[|s| - 1]) <= key(y) {
      assert InsertBy(key, y, s) == s + [y];
      InsertLast(key, x, s, y);
      InsertAfter(key, x, y, s);
    } else {
      var rest, last := s[..|s| - 1], s[|s| - 1];
      InsertCommutes(key, x, y, rest);
      hide SortedBy;
      assert InsertBy(key, y, s) == InsertBy(key, y, rest) + [last];
      InsertLast(key, x, InsertBy(key, y, rest), last);
      assert InsertBy(key, x, s) == InsertBy(key, x, rest) + [last];
      InsertLast(key, y, InsertBy(key, x, rest), last);
    }
  }

  /** Put in after everything, also after `x`. */
  lemma InsertAfter<T>(key: T -> int, x: T, y: T, s: seq<T>)
    requires SortedBy(key, s) && key(x) < key(y) && (s == [] || key(s[|s| - 1]) <= key(y))
    ensures InsertBy(key, y, InsertBy(key, x, s)) == InsertBy(key, x, s) + [y]
  {
    var t := InsertBy(key, x, s);
    assert t[|t| - 1] == x || (s != [] && t[|t| - 1] == s[|s| - 1]);
  }

  /** The elements of one key, in order. */
  function Only<T>(key: T -> int, k: int, s: seq<T>): seq<T> {
    if s == [] then []
    else Only(key, k, s[..|s| - 1]) + if key(s[|s| - 1]) == k then [s[|s| - 1]] else []
  }

  lemma OnlyAppend<T>(key: T -> int, k: int, s: seq<T>, x: T)
    ensures Only(key, k, s + [x]) == Only(key, k, s) + if key(x) == k then [x] else []
  {
    assert (s + [x])[..|s|] == s;
  }

  /** Put in before the last element. */
  lemma InsertInside<T>(key: T -> int, x: T, rest: seq<T>, last: T)
    requires SortedBy(key, rest + [last]) && key(last) > key(x)
    ensures SortedBy(key, rest)
    ensures InsertBy(key, x, rest + [last]) == InsertBy(key, x, rest) + [last]
  {
    var s := rest + [last];
    assert s[..|s| - 1] == rest && s[|s| - 1] == last;
    forall i, j | 0 <= i < j < |rest| ensures key(rest[i]) <= key(rest[j]) {
      assert s[i] == rest[i] && s[j] == rest[j];
    }
  }

  lemma {:induction false} InsertOnly<T>(key: T -> int, k: int, x: T, s: seq<T>)
    requires SortedBy(key, s)
    ensures Only(key, k, InsertBy(key, x, s)) == Only(key, k, s) + if key(x) == k then [x] else []
  {
    if s == [] || key(s[|s| - 1]) <= key(x) {
      assert InsertBy(key, x, s) == s + [x];
      OnlyAppend(key, k, s, x);
    } else {
      var rest, last := s[..|s| - 1], s[|s| - 1];
      assert s == rest + [last];
      InsertInside(key, x, rest, last);
      InsertOnly(key, k, x, rest);
      OnlyAppends(key, k, rest, InsertBy(key, x, rest), x, last);
    }
  }

  /** Of two elements with different keys at most one is of key `k`, so either may be last. */
  lemma OnlyAppends<T>(key: T -> int, k: int, s: seq<T>, t: seq<T>, x: T, last: T)
    requires key(x) != key(last) && Only(key, k, t) == Only(key, k, s) + if key(x) == k then [x] else []
    ensures Only(key, k, t + [last]) == Only(key, k, s + [last]) + if key(x) == k then [x] else []
  {
    OnlyAppend(key, k, s, last);
    OnlyAppend(key, k, t, last);
  }

  /** Sorting is stable: the elements of one key keep their order. */
  lemma {:induction false} SortIsStable<T>(key: T -> int, k: int, s: seq<T>)
    ensures Only(key, k, SortBy(key, s)) == Only(key, k, s)
  {
    if s != [] {
      SortIsStable(key, k, s[..|s| - 1]);
      InsertOnly(key, k, s[|s| - 1], SortBy(key, s[..|s| - 1]));
    }
  }
}
