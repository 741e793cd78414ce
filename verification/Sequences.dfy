/** Filtering a sequence, in order. */
module Sequences {

  function Filter<T(!new)>(s: seq<T>, p: T -> bool): (r: seq<T>)
    ensures forall x :: x in r <==> x in s && p(x)
    ensures |r| <= |s|
  {
    if s == [] then [] else
      var rest := Filter(s[..|s| - 1], p);
      if p(s[|s| - 1]) then rest + [s[|s| - 1]] else rest
  }

  lemma FilterLast<T(!new)>(s: seq<T>, last: T, p: T -> bool)
    ensures Filter(s + [last], p) == if p(last) then Filter(s, p) + [last] else Filter(s, p)
  {
  }

  lemma Regrouped<T>(a: seq<T>, b: seq<T>, c: seq<T>)
    ensures (a + b) + c == a + (b + c)
  {
  }

  lemma SplitLast<T>(a: seq<T>, b: seq<T>)
    requires b != []
    ensures a + b == (a + b[..|b| - 1]) + [b[|b| - 1]] && b == b[..|b| - 1] + [b[|b| - 1]]
  {
  }

  lemma {:induction false} FilterConcat<T(!new)>(a: seq<T>, b: seq<T>, p: T -> bool)
    ensures Filter(a + b, p) == Filter(a, p) + Filter(b, p)
  {
    if b == [] {
      assert a + b == a && Filter(b, p) == [];
    } else {
      var front, last := b[..|b| - 1], b[|b| - 1];
      FilterConcat(a, front, p);
      SplitLast(a, b);
      FilterLast(a + front, last, p);
      FilterLast(front, last, p);
      Regrouped(Filter(a, p), Filter(front, p), [last]);
    }
  }

  lemma {:induction false} FilterAll<T(!new)>(s: seq<T>, p: T -> bool)
    requires forall x :: x in s ==> p(x)
    ensures Filter(s, p) == s
  {
    if s == [] {
    } else {
      assert s == s[..|s| - 1] + [s[|s| - 1]];
      FilterAll(s[..|s| - 1], p);
    }
  }

  lemma FilterNone<T(!new)>(s: seq<T>, p: T -> bool)
    requires forall x :: x in s ==> !p(x)
    ensures Filter(s, p) == []
  {
  }

  /** A first element that does not qualify may be dropped beforehand. */
  lemma {:induction false} FilterDropsFirst<T(!new)>(s: seq<T>, p: T -> bool)
    requires s != [] && !p(s[0])
    ensures Filter(s[1..], p) == Filter(s, p)
  {
    if |s| > 1 {
      var front := s[..|s| - 1];
      FilterDropsFirst(front, p);
      assert s[1..][..|s| - 2] == front[1..];
    } else {
      assert s[..0] == [] && s[1..] == [];
      assert Filter(s, p) == Filter(s[..0], p);
    }
  }

  lemma {:induction false} FilterOrder<T(!new)>(s: seq<T>, p: T -> bool, q: T -> bool)
    ensures Filter(Filter(s, p), q) == Filter(Filter(s, q), p)
  {
    if s == [] {
    } else {
      var front, last := s[..|s| - 1], s[|s| - 1];
      FilterOrder(front, p, q);
      FilterLast(Filter(front, p), last, q);
      FilterLast(Filter(front, q), last, p);
    }
  }

  /** Filtering for less first changes nothing. */
  lemma {:induction false} FilterTwice<T(!new)>(s: seq<T>, weaker: T -> bool, stronger: T -> bool)
    requires forall x :: x in s && stronger(x) ==> weaker(x)
    ensures Filter(Filter(s, weaker), stronger) == Filter(s, stronger)
  {
    if s == [] {
    } else {
      var front, last := s[..|s| - 1], s[|s| - 1];
      assert s == front + [last];
      FilterTwice(front, weaker, stronger);
      FilterLast(Filter(front, weaker), last, stronger);
    }
  }
}
