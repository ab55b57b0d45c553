/**
 Order-preserving filtering of sequences, the subsequence relation and
 duplicate-freedom: the vocabulary in which the work distribution lists are
 described.
 */
module Sequences {

  /** True iff every element of `s` occurs at exactly one position. */
  predicate NoDuplicates<T(==)>(s: seq<T>) {
    forall i, j :: 0 <= i < j < |s| ==> s[i] != s[j]
  }

  /** True iff `a` can be obtained from `b` by deleting elements, keeping the
      order of the ones that remain. */
  predicate IsSubsequence<T(==)>(a: seq<T>, b: seq<T>)
    decreases |b|
  {
    if a == [] then true
    else if b == [] then false
    else if a[0] == b[0] then IsSubsequence(a[1..], b[1..])
    else IsSubsequence(a, b[1..])
  }

  /** The elements of `s` that satisfy `p`, in their original order. */
  function Filter<T(==)>(s: seq<T>, p: T -> bool): (r: seq<T>)
    ensures |r| <= |s|
  {
    if s == [] then []
    else if p(s[0]) then [s[0]] + Filter(s[1..], p)
    else Filter(s[1..], p)
  }

  /** Filtering a sequence with a known head decides the head and filters the tail. */
  lemma FilterCons<T>(x: T, s: seq<T>, p: T -> bool)
    ensures p(x) ==> Filter([x] + s, p) == [x] + Filter(s, p)
    ensures !p(x) ==> Filter([x] + s, p) == Filter(s, p)
  {
    assert ([x] + s)[1..] == s;
  }

  /** The filtered sequence holds exactly the elements of `s` that satisfy `p`,
      in their original order. */
  lemma {:induction false} FilterSelects<T>(s: seq<T>, p: T -> bool)
    ensures forall x :: x in Filter(s, p) ==> x in s && p(x)
    ensures forall x :: x in s && p(x) ==> x in Filter(s, p)
    ensures IsSubsequence(Filter(s, p), s)
    decreases |s|
  {
    if s != [] {
      FilterSelects(s[1..], p);
      var r := Filter(s, p);
      if p(s[0]) {
        assert r[0] == s[0] && r[1..] == Filter(s[1..], p);
      } else if r != [] {
        assert r[0] in r;
      }
      assert s == [s[0]] + s[1..];
    }
  }

  /** Everything in a subsequence occurs in the sequence it was taken from. */
  lemma {:induction false} SubsequenceMembers<T>(a: seq<T>, b: seq<T>)
    requires IsSubsequence(a, b)
    ensures forall x :: x in a ==> x in b
    decreases |b|
  {
    if a == [] {
    } else if a[0] == b[0] {
      SubsequenceMembers(a[1..], b[1..]);
      assert a == [a[0]] + a[1..];
    } else {
      SubsequenceMembers(a, b[1..]);
    }
  }

  /** A sequence with a fresh head and a duplicate-free tail is duplicate-free. */
  lemma ConsNoDuplicates<T>(x: T, s: seq<T>)
    requires x !in s
    requires NoDuplicates(s)
    ensures NoDuplicates([x] + s)
  {
    var c := [x] + s;
    forall i, j | 0 <= i < j < |c|
      ensures c[i] != c[j]
    {
      if i == 0 {
        assert c[j] == s[j - 1];
      } else {
        assert c[i] == s[i - 1] && c[j] == s[j - 1];
      }
    }
  }

  /** Deleting elements never introduces a duplicate. */
  lemma {:induction false} SubsequenceNoDuplicates<T>(a: seq<T>, b: seq<T>)
    requires IsSubsequence(a, b)
    requires NoDuplicates(b)
    ensures NoDuplicates(a)
    decreases |b|
  {
    if a == [] {
    } else {
      assert NoDuplicates(b[1..]) by {
        forall i, j | 0 <= i < j < |b[1..]|
          ensures b[1..][i] != b[1..][j]
        {
          assert b[1..][i] == b[i + 1] && b[1..][j] == b[j + 1];
        }
      }
      if a[0] == b[0] {
        SubsequenceNoDuplicates(a[1..], b[1..]);
        SubsequenceMembers(a[1..], b[1..]);
        assert b[0] !in b[1..] by {
          forall k | 0 <= k < |b[1..]|
            ensures b[1..][k] != b[0]
          {
            assert b[1..][k] == b[k + 1];
          }
        }
        ConsNoDuplicates(a[0], a[1..]);
        assert a == [a[0]] + a[1..];
      } else {
        SubsequenceNoDuplicates(a, b[1..]);
      }
    }
  }

  /** Filtering only depends on the predicate's values at the elements of `s`. */
  lemma {:induction false} FilterCongruence<T>(s: seq<T>, p: T -> bool, q: T -> bool)
    requires forall x :: x in s ==> p(x) == q(x)
    ensures Filter(s, p) == Filter(s, q)
    decreases |s|
  {
    if s != [] {
      FilterCongruence(s[1..], p, q);
    }
  }

  /** Filtering twice is filtering once by the conjunction of the two predicates. */
  lemma {:induction false} FilterFilter<T>(s: seq<T>, p: T -> bool, q: T -> bool, both: T -> bool)
    requires forall x :: both(x) == (p(x) && q(x))
    ensures Filter(Filter(s, p), q) == Filter(s, both)
    decreases |s|
  {
    if s != [] {
      FilterFilter(s[1..], p, q, both);
      if p(s[0]) {
        assert Filter(s, p) == [s[0]] + Filter(s[1..], p);
        assert (Filter(s, p))[1..] == Filter(s[1..], p);
      }
    }
  }

  /** Filtering by `p` and then keeping what a filter by `q` also keeps is
      filtering by both: the order-preserving intersection of two filters. */
  lemma FilterIntersection<T>(s: seq<T>, p: T -> bool, q: T -> bool, both: T -> bool)
    requires forall x :: both(x) == (p(x) && q(x))
    ensures Filter(Filter(s, p), x => x in Filter(s, q)) == Filter(s, both)
  {
    var inQ := (x: T) => x in Filter(s, q);
    FilterSelects(s, p);
    FilterSelects(s, q);
    FilterCongruence(Filter(s, p), inQ, q);
    FilterFilter(s, p, q, both);
  }
}
