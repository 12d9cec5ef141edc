/** `Array.prototype.filter` over sequences, and the facts the stores rely on. */
module Sequences {

  /** `s.filter(p)`. */
  function Filter<T>(s: seq<T>, p: T -> bool): seq<T>
  {
    if s == [] then [] else (if p(s[0]) then [s[0]] else []) + Filter(s[1..], p)
  }

  /** `s.filter(p).length`. */
  function Count<T>(s: seq<T>, p: T -> bool): nat
  {
    |Filter(s, p)|
  }

  /** `a` is `b` with some elements left out, the rest in their order. */
  predicate IsSubsequence<T(==)>(a: seq<T>, b: seq<T>)
    decreases |b|
  {
    if b == [] then a == []
    else (a != [] && a[0] == b[0] && IsSubsequence(a[1..], b[1..])) || IsSubsequence(a, b[1..])
  }

  /**
   * The filter keeps exactly the elements that pass, in their order, each as
   * many times as it occurs.
   */
  lemma {:induction false} FilterSpec<T>(s: seq<T>, p: T -> bool)
    ensures |Filter(s, p)| <= |s|
    ensures forall x :: x in Filter(s, p) <==> x in s && p(x)
    ensures forall x :: multiset(Filter(s, p))[x] == if p(x) then multiset(s)[x] else 0
    ensures IsSubsequence(Filter(s, p), s)
  {
    if s != [] {
      FilterSpec(s[1..], p);
      var rest := Filter(s[1..], p);
      if p(s[0]) {
        assert Filter(s, p) == [s[0]] + rest;
        assert Filter(s, p)[1..] == rest;
      } else {
        assert Filter(s, p) == rest;
      }
      assert s == [s[0]] + s[1..];
      assert multiset(s) == multiset([s[0]]) + multiset(s[1..]);
    }
  }

  /** A count is zero exactly when no element passes, and full exactly when every element does. */
  lemma {:induction false} CountNoneAll<T>(s: seq<T>, p: T -> bool)
    ensures Count(s, p) == 0 <==> forall x :: x in s ==> !p(x)
    ensures Count(s, p) == |s| <==> forall x :: x in s ==> p(x)
  {
    if s != [] {
      CountNoneAll(s[1..], p);
      FilterSpec(s[1..], p);
      var rest := Filter(s[1..], p);
      if p(s[0]) {
        assert Filter(s, p) == [s[0]] + rest;
      } else {
        assert Filter(s, p) == rest;
      }
      assert forall x :: x in s <==> x == s[0] || x in s[1..];
    }
  }

  /** When every element passes, the filter returns the sequence itself. */
  lemma {:induction false} FilterAll<T>(s: seq<T>, p: T -> bool)
    requires forall x :: x in s ==> p(x)
    ensures Filter(s, p) == s
  {
    if s != [] {
      FilterAll(s[1..], p);
    }
  }

  /** Filtering twice is filtering once with both conditions. */
  lemma {:induction false} FilterTwice<T>(s: seq<T>, p: T -> bool, q: T -> bool, both: T -> bool)
    requires forall x :: both(x) == (p(x) && q(x))
    ensures Filter(Filter(s, p), q) == Filter(s, both)
  {
    if s != [] {
      FilterTwice(s[1..], p, q, both);
      var rest := Filter(s[1..], p);
      if p(s[0]) {
        assert Filter(s, p) == [s[0]] + rest;
        assert Filter(s, p)[0] == s[0] && Filter(s, p)[1..] == rest;
      } else {
        assert Filter(s, p) == rest;
      }
    }
  }

  /** The elements that pass and the elements that fail add up to all of them. */
  lemma {:induction false} CountSplit<T>(s: seq<T>, p: T -> bool, notP: T -> bool)
    requires forall x :: notP(x) == !p(x)
    ensures Count(s, p) + Count(s, notP) == |s|
  {
    if s != [] {
      CountSplit(s[1..], p, notP);
    }
  }

  /** Counting over three disjoint conditions that cover every element. */
  lemma {:induction false} CountSplit3<T>(s: seq<T>, p: T -> bool, q: T -> bool, r: T -> bool)
    requires forall x :: (p(x) && !q(x) && !r(x)) || (!p(x) && q(x) && !r(x)) || (!p(x) && !q(x) && r(x))
    ensures Count(s, p) + Count(s, q) + Count(s, r) == |s|
  {
    if s != [] {
      CountSplit3(s[1..], p, q, r);
    }
  }
}
