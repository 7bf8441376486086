/**
 * The suggestion lists of the search screens: `[...new Set(values)].sort()`
 * and the case-insensitive narrowing of a list by what has been typed.
 */
module Suggestions {
  import opened Js
  import opened Filters

  /** `[...new Set(s)]`: each value once, at its first occurrence. */
  function Dedupe(s: seq<string>): (r: seq<string>)
    ensures NoDup(r)
    ensures forall x :: x in r <==> x in s
  {
    if s == [] then []
    else
      assert forall x :: x in s <==> x == s[0] || x in s[1..];
      var rest := Filter(Dedupe(s[1..]), (x: string) => x != s[0]);
      NoDupCons(s[0], rest);
      [s[0]] + rest
  }

  /**
   * The order of the default `sort`: lexicographic on characters, a prefix
   * first. It coincides with JavaScript's UTF-16 code-unit order on the
   * Basic Multilingual Plane.
   */
  predicate LessEq(a: string, b: string)
    decreases |a|
  {
    a == [] || (b != [] && (a[0] < b[0] || (a[0] == b[0] && LessEq(a[1..], b[1..]))))
  }

  lemma {:induction false} LessEqTotal(a: string, b: string)
    ensures LessEq(a, b) || LessEq(b, a)
    decreases |a|
  {
    if a != [] && b != [] && a[0] == b[0] {
      LessEqTotal(a[1..], b[1..]);
    }
  }

  lemma {:induction false} LessEqAntisymmetric(a: string, b: string)
    requires LessEq(a, b) && LessEq(b, a)
    ensures a == b
    decreases |a|
  {
    if a != [] {
      LessEqAntisymmetric(a[1..], b[1..]);
      assert a == [a[0]] + a[1..] && b == [b[0]] + b[1..];
    }
  }

  lemma {:induction false} LessEqTransitive(a: string, b: string, c: string)
    requires LessEq(a, b) && LessEq(b, c)
    ensures LessEq(a, c)
    decreases |a|
  {
    if a != [] && a[0] == b[0] && b[0] == c[0] {
      LessEqTransitive(a[1..], b[1..], c[1..]);
    }
  }

  predicate Sorted(s: seq<string>) {
    forall i, j :: 0 <= i < j < |s| ==> LessEq(s[i], s[j])
  }

  /** One step of insertion sort. */
  function Insert(x: string, s: seq<string>): (r: seq<string>)
    ensures multiset(r) == multiset(s) + multiset{x}
    ensures forall y :: y in r <==> y == x || y in s
  {
    if s == [] then [x]
    else if LessEq(x, s[0]) then [x] + s
    else
      assert s == [s[0]] + s[1..];
      [s[0]] + Insert(x, s[1..])
  }

  lemma {:induction false} InsertSorted(x: string, s: seq<string>)
    requires Sorted(s)
    ensures Sorted(Insert(x, s))
  {
    if s == [] {
    } else if LessEq(x, s[0]) {
      forall j | 0 <= j < |s| ensures LessEq(x, s[j]) {
        if j > 0 { LessEqTransitive(x, s[0], s[j]); }
      }
    } else {
      LessEqTotal(x, s[0]);
      assert s == [s[0]] + s[1..];
      InsertSorted(x, s[1..]);
      var rest := Insert(x, s[1..]);
      assert forall y :: y in rest ==> LessEq(s[0], y);
      assert Insert(x, s) == [s[0]] + rest;
    }
  }

  lemma {:induction false} InsertNoDup(x: string, s: seq<string>)
    ensures NoDup(s) && x !in s ==> NoDup(Insert(x, s))
  {
    if !(NoDup(s) && x !in s) {
    } else if s != [] && !LessEq(x, s[0]) {
      assert s == [s[0]] + s[1..];
      InsertNoDup(x, s[1..]);
      NoDupCons(s[0], Insert(x, s[1..]));
    } else if s != [] {
      NoDupCons(x, s);
    }
  }

  /** `sort()`: a sorted permutation. */
  function Sort(s: seq<string>): (r: seq<string>)
    ensures Sorted(r)
    ensures multiset(r) == multiset(s)
    ensures forall y :: y in r <==> y in s
    ensures NoDup(s) ==> NoDup(r)
  {
    if s == [] then []
    else
      assert s == [s[0]] + s[1..];
      var rest := Sort(s[1..]);
      InsertSorted(s[0], rest);
      InsertNoDup(s[0], rest);
      Insert(s[0], rest)
  }

  /** `[...new Set(values)].sort()`: every value once, in order. */
  function UniqueSorted(values: seq<string>): (r: seq<string>)
    ensures Sorted(r) && NoDup(r)
    ensures forall x :: x in r <==> x in values
  {
    Sort(Dedupe(values))
  }

  /** A duplicate-free sorted list is fixed by its elements, so the suggestions depend only on the set of values. */
  lemma {:induction false} SortedUnique(a: seq<string>, b: seq<string>)
    requires Sorted(a) && NoDup(a) && Sorted(b) && NoDup(b)
    requires forall x :: x in a <==> x in b
    ensures a == b
  {
    assert a != [] ==> a[0] in a;
    assert b != [] ==> b[0] in b;
    if a != [] && b != [] {
      assert a[0] in b && b[0] in a;
      var i :| 0 <= i < |b| && b[i] == a[0];
      var j :| 0 <= j < |a| && a[j] == b[0];
      assert a[0] == b[0] by {
        if i != 0 && j != 0 {
          LessEqAntisymmetric(a[0], b[0]);
        }
      }
      assert a == [a[0]] + a[1..] && b == [b[0]] + b[1..];
      forall x ensures x in a[1..] <==> x in b[1..] {
        if x in a[1..] {
          var k :| 0 <= k < |a[1..]| && a[1..][k] == x;
          assert a[k + 1] == x && x != a[0];
          assert x in a && x in b;
          assert x in [b[0]] + b[1..];
        }
        if x in b[1..] {
          var k :| 0 <= k < |b[1..]| && b[1..][k] == x;
          assert b[k + 1] == x && x != b[0];
          assert x in b && x in a;
          assert x in [a[0]] + a[1..];
        }
      }
      SortedUnique(a[1..], b[1..]);
    }
  }

  /** The suggestions that contain what was typed, ignoring case, in their original order. */
  function Matching(suggestions: seq<string>, input: string): (r: seq<string>)
    ensures forall x :: x in r <==> x in suggestions && IncludesIgnoringCase(x, input)
    ensures Subsequence(r, suggestions)
  {
    Filter(suggestions, (s: string) => IncludesIgnoringCase(s, input))
  }

  /** Nothing typed narrows nothing. */
  lemma MatchingEmptyInput(suggestions: seq<string>)
    ensures Matching(suggestions, "") == suggestions
  {
    forall i | 0 <= i < |suggestions| ensures IncludesIgnoringCase(suggestions[i], "") {
      IncludesEmpty(ToLower(suggestions[i]));
    }
  }
}
