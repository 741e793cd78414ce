/** Stable insertion sort by a strict order, and what it means for a listing. */
module Sorting {

  function InsertBy<T>(s: seq<T>, x: T, before: (T, T) -> bool): seq<T> {
    if s == [] then [x]
    else if before(x, s[0]) then [x] + s
    else [s[0]] + InsertBy(s[1..], x, before)
  }

  function SortBy<T>(s: seq<T>, before: (T, T) -> bool): seq<T> {
    if s == [] then [] else InsertBy(SortBy(s[..|s| - 1], before), s[|s| - 1], before)
  }

  ghost predicate Transitive<T(!new)>(before: (T, T) -> bool) {
    forall x, y, z :: before(x, y) && before(y, z) ==> before(x, z)
  }

  ghost predicate Irreflexive<T(!new)>(before: (T, T) -> bool) {
    forall x :: !before(x, x)
  }

  /** Any two different elements of the sequence are ordered. */
  ghost predicate Comparable<T(!new)>(s: seq<T>, before: (T, T) -> bool) {
    forall i, j :: 0 <= i < j < |s| ==> before(s[i], s[j]) || before(s[j], s[i])
  }

  ghost predicate SortedBy<T(!new)>(s: seq<T>, before: (T, T) -> bool) {
    forall i, j :: 0 <= i < j < |s| ==> before(s[i], s[j])
  }

  lemma {:induction false} InsertKeepsAll<T(!new)>(s: seq<T>, x: T, before: (T, T) -> bool)
    ensures multiset(InsertBy(s, x, before)) == multiset(s) + multiset{x}
  {
    if s == [] || before(x, s[0]) {
    } else {
      InsertKeepsAll(s[1..], x, before);
      assert s == [s[0]] + s[1..];
    }
  }

  lemma {:induction false} SortKeepsAll<T(!new)>(s: seq<T>, before: (T, T) -> bool)
    ensures multiset(SortBy(s, before)) == multiset(s)
  {
    if s == [] {
    } else {
      SortKeepsAll(s[..|s| - 1], before);
      InsertKeepsAll(SortBy(s[..|s| - 1], before), s[|s| - 1], before);
      assert s == s[..|s| - 1] + [s[|s| - 1]];
    }
  }

  lemma SortMembers<T(!new)>(s: seq<T>, before: (T, T) -> bool)
    ensures |SortBy(s, before)| == |s|
    ensures forall x :: x in SortBy(s, before) <==> x in s
  {
    SortKeepsAll(s, before);
    assert |multiset(SortBy(s, before))| == |multiset(s)|;
    forall x ensures x in SortBy(s, before) <==> x in s {
      assert x in multiset(SortBy(s, before)) <==> x in multiset(s);
    }
  }

  lemma Prepended<T(!new)>(first: T, s: seq<T>, before: (T, T) -> bool)
    requires SortedBy(s, before) && forall y :: y in s ==> before(first, y)
    ensures SortedBy([first] + s, before)
  {
  }

  lemma {:induction false} InsertSorts<T(!new)>(s: seq<T>, x: T, before: (T, T) -> bool)
    requires SortedBy(s, before) && Transitive(before)
    requires forall y :: y in s ==> before(x, y) || before(y, x)
    ensures SortedBy(InsertBy(s, x, before), before)
  {
    if s == [] {
    } else if before(x, s[0]) {
      forall y | y in s ensures before(x, y) {
        if y != s[0] {
          assert before(s[0], y);
        }
      }
      Prepended(x, s, before);
    } else {
      assert s[0] in s && forall y :: y in s[1..] ==> y in s && before(s[0], y);
      InsertSorts(s[1..], x, before);
      InsertKeepsAll(s[1..], x, before);
      forall y | y in InsertBy(s[1..], x, before) ensures before(s[0], y) {
        assert y in multiset(s[1..]) + multiset{x};
      }
      Prepended(s[0], InsertBy(s[1..], x, before), before);
    }
  }

  lemma {:induction false} SortSorts<T(!new)>(s: seq<T>, before: (T, T) -> bool)
    requires Transitive(before) && Comparable(s, before)
    ensures SortedBy(SortBy(s, before), before)
  {
    if s == [] {
    } else {
      var front, last := s[..|s| - 1], s[|s| - 1];
      SortSorts(front, before);
      SortMembers(front, before);
      InsertSorts(SortBy(front, before), last, before);
    }
  }

  /** A strictly sorted listing is determined by its elements. */
  lemma {:induction false} SortedIsUnique<T(!new)>(a: seq<T>, b: seq<T>, before: (T, T) -> bool)
    requires SortedBy(a, before) && SortedBy(b, before) && Transitive(before) && Irreflexive(before)
    requires forall x :: x in a <==> x in b
    ensures a == b
  {
    assert b != [] ==> b[0] in b;
    if a == [] {
    } else {
      assert a[0] in a && a[0] in b;
      assert a[0] == b[0];
      RestOfSorted(a, before);
      RestOfSorted(b, before);
      SortedIsUnique(a[1..], b[1..], before);
    }
  }

  lemma RestOfSorted<T(!new)>(s: seq<T>, before: (T, T) -> bool)
    requires s != [] && SortedBy(s, before) && Irreflexive(before)
    ensures SortedBy(s[1..], before)
    ensures forall x :: x in s[1..] <==> x in s && x != s[0]
  {
  }
}
