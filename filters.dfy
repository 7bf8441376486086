/**
 * The list and record updates the job-search screens share: `Array.filter`,
 * the add-or-remove toggle of a selected filter value, the collapsed view of
 * a section's options and the flip of a section's expanded flag.
 */
module Filters {
  import opened Js

  predicate NoDup<T(==)>(s: seq<T>) {
    forall i, j :: 0 <= i < j < |s| ==> s[i] != s[j]
  }

  /** Putting a new value in front keeps a list duplicate-free. */
  lemma NoDupCons<T>(x: T, t: seq<T>)
    requires NoDup(t) && x !in t
    ensures NoDup([x] + t)
  {
  }

  /** `r` is `s` with some elements dropped and the rest in their order. */
  predicate Subsequence<T(==)>(r: seq<T>, s: seq<T>)
    decreases |s|
  {
    if r == [] then true
    else if s == [] then false
    else (r[0] == s[0] && Subsequence(r[1..], s[1..])) || Subsequence(r, s[1..])
  }

  /** `s.filter(p)`. */
  function Filter<T(==,!new)>(s: seq<T>, p: T -> bool): (r: seq<T>)
    ensures forall x :: x in r <==> x in s && p(x)
    ensures Subsequence(r, s)
    ensures NoDup(s) ==> NoDup(r)
    ensures (forall i :: 0 <= i < |s| ==> p(s[i])) ==> r == s
  {
    if s == [] then []
    else
      var rest := Filter(s[1..], p);
      if p(s[0]) then
        assert forall x :: x in s <==> x == s[0] || x in s[1..];
        [s[0]] + rest
      else rest
  }

  /** `filter` keeps every copy of a passing element and no copy of a failing one. */
  lemma {:induction false} FilterMultiset<T(!new)>(s: seq<T>, p: T -> bool)
    ensures forall x :: multiset(Filter(s, p))[x] == if p(x) then multiset(s)[x] else 0
  {
    if s != [] {
      FilterMultiset(s[1..], p);
      assert s == [s[0]] + s[1..];
    }
  }

  /** Filtering distributes over concatenation. */
  lemma {:induction false} FilterAppend<T(!new)>(a: seq<T>, b: seq<T>, p: T -> bool)
    ensures Filter(a + b, p) == Filter(a, p) + Filter(b, p)
  {
    if a != [] {
      assert (a + b)[1..] == a[1..] + b;
      FilterAppend(a[1..], b, p);
    } else {
      assert a + b == b;
    }
  }

  /** Nothing is kept when no element passes. */
  lemma {:induction false} FilterNone<T(!new)>(s: seq<T>, p: T -> bool)
    requires forall i :: 0 <= i < |s| ==> !p(s[i])
    ensures Filter(s, p) == []
  {
    if s != [] {
      FilterNone(s[1..], p);
    }
  }

  /** Two predicates that agree on every element keep the same elements. */
  lemma {:induction false} FilterCongruent<T(!new)>(s: seq<T>, p: T -> bool, q: T -> bool)
    requires forall x :: x in s ==> p(x) == q(x)
    ensures Filter(s, p) == Filter(s, q)
  {
    if s != [] {
      assert forall x :: x in s[1..] ==> x in s;
      FilterCongruent(s[1..], p, q);
    }
  }

  /**
   * The filter toggle: a value already selected is removed, every
   * occurrence of it; any other value is appended.
   */
  function Toggle(values: seq<string>, value: string): (r: seq<string>)
    ensures value in r <==> value !in values
    ensures forall x :: x != value ==> (x in r <==> x in values)
    ensures value in values ==> Subsequence(r, values)
    ensures value !in values ==> r == values + [value]
  {
    if value in values then Filter(values, (v: string) => v != value) else values + [value]
  }

  /** Toggling a value that was not selected, twice, gives back the very same list. */
  lemma ToggleTwiceAbsent(values: seq<string>, value: string)
    requires value !in values
    ensures Toggle(Toggle(values, value), value) == values
  {
    var p := (v: string) => v != value;
    FilterAppend(values, [value], p);
    assert Filter([value], p) == [];
  }

  /** Toggling any value twice gives back the same set of selected values. */
  lemma ToggleTwiceSameSet(values: seq<string>, value: string)
    ensures forall x :: x in Toggle(Toggle(values, value), value) <==> x in values
  {
  }

  /** The order is not always restored: a selected value comes back at the end. */
  lemma ToggleTwiceReorders()
    ensures Toggle(Toggle(["a", "b"], "a"), "a") == ["b", "a"]
  {
    assert Toggle(["a", "b"], "a") == ["b"] by {
      var p := (v: string) => v != "a";
      assert ["a", "b"][1..] == ["b"];
      assert Filter(["b"], p) == ["b"];
    }
  }

  /** A duplicate-free selection stays duplicate-free. */
  lemma ToggleKeepsNoDup(values: seq<string>, value: string)
    requires NoDup(values)
    ensures NoDup(Toggle(values, value))
  {
  }

  /** `values.length === 0 || values.some(v => v === x)`: an empty selection admits everything. */
  predicate Admits(values: seq<string>, x: string) {
    |values| == 0 || x in values
  }

  /** `getVisibleOptions`: an expanded section shows all options, a collapsed one the first `limit`. */
  function VisibleOptions(options: seq<string>, expanded: bool, limit: nat): (r: seq<string>)
    ensures r <= options
    ensures expanded ==> r == options
    ensures !expanded ==> |r| == (if |options| <= limit then |options| else limit)
  {
    SlicePrefix(options, limit);
    if expanded then options else Slice(options, 0, limit)
  }

  /** Some option is hidden exactly when there are more than `limit`, the condition on which the toggle button is shown. */
  lemma HiddenIffMoreThanLimit(options: seq<string>, limit: nat)
    ensures VisibleOptions(options, false, limit) != options <==> |options| > limit
  {
  }

  /** `expandedSections[title]`, where a missing title reads as `undefined`, that is, false. */
  predicate Expanded(sections: map<string, bool>, title: string) {
    title in sections && sections[title]
  }

  /** `toggleSection(title)`: `{ ...prev, [title]: !prev[title] }`. */
  function ToggleSection(sections: map<string, bool>, title: string): (r: map<string, bool>)
    ensures r.Keys == sections.Keys + {title}
    ensures Expanded(r, title) <==> !Expanded(sections, title)
    ensures forall t :: t in sections && t != title ==> r[t] == sections[t]
  {
    sections[title := !Expanded(sections, title)]
  }

  /** Toggling a known section twice gives back the same record. */
  lemma ToggleSectionTwice(sections: map<string, bool>, title: string)
    requires title in sections
    ensures ToggleSection(ToggleSection(sections, title), title) == sections
  {
  }
}
