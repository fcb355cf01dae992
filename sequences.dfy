/** Order-preserving filtering over sequences (the behaviour of JavaScript's
    Array.prototype.filter) and the subsequence relation it establishes. */
module Sequences {

  /** The elements of `s` that satisfy `p`, in their original order. */
  function Filter<T(==)>(s: seq<T>, p: T -> bool): (r: seq<T>)
    ensures |r| <= |s|
    ensures forall x :: x in r ==> x in s && p(x)
    ensures forall x :: x in s && p(x) ==> x in r
  {
    if s == [] then [] else (if p(s[0]) then [s[0]] else []) + Filter(s[1..], p)
  }

  /** `a` can be obtained from `b` by deleting elements, keeping the order of the rest. */
  predicate IsSubsequence<T(==)>(a: seq<T>, b: seq<T>)
  {
    if a == [] then true
    else if b == [] then false
    else (a[0] == b[0] && IsSubsequence(a[1..], b[1..])) || IsSubsequence(a, b[1..])
  }

  lemma {:induction false} FilterIsSubsequence<T>(s: seq<T>, p: T -> bool)
    ensures IsSubsequence(Filter(s, p), s)
  {
    if s != [] {
      FilterIsSubsequence(s[1..], p);
      if p(s[0]) {
        assert Filter(s, p) == [s[0]] + Filter(s[1..], p);
        assert Filter(s, p)[1..] == Filter(s[1..], p);
      } else {
        assert Filter(s, p) == Filter(s[1..], p);
      }
    }
  }

  /** Filtering by a stronger predicate keeps a subsequence of what a weaker one keeps. */
  lemma {:induction false} FilterStronger<T>(s: seq<T>, p: T -> bool, q: T -> bool)
    requires forall x :: x in s && p(x) ==> q(x)
    ensures IsSubsequence(Filter(s, p), Filter(s, q))
  {
    if s != [] {
      FilterStronger(s[1..], p, q);
      var fp, fq := Filter(s[1..], p), Filter(s[1..], q);
      if p(s[0]) {
        assert Filter(s, p) == [s[0]] + fp && Filter(s, q) == [s[0]] + fq;
        assert Filter(s, p)[1..] == fp && Filter(s, q)[1..] == fq;
      } else if q(s[0]) {
        assert Filter(s, p) == fp && Filter(s, q) == [s[0]] + fq;
        assert Filter(s, q)[1..] == fq;
      } else {
        assert Filter(s, p) == fp && Filter(s, q) == fq;
      }
    }
  }

  /** A filter that rejects nothing is the identity. */
  lemma {:induction false} FilterKeepsAll<T>(s: seq<T>, p: T -> bool)
    requires forall x :: x in s ==> p(x)
    ensures Filter(s, p) == s
  {
    if s != [] {
      FilterKeepsAll(s[1..], p);
      assert s == [s[0]] + s[1..];
    }
  }

  /** The negation of a predicate. */
  function Not<T>(p: T -> bool): T -> bool
  {
    (x: T) => !p(x)
  }

  /** What a filter keeps and what the opposite filter keeps add up to the whole list. */
  lemma {:induction false} FilterComplementLength<T>(s: seq<T>, p: T -> bool)
    ensures |Filter(s, p)| + |Filter(s, Not(p))| == |s|
  {
    if s != [] {
      FilterComplementLength(s[1..], p);
    }
  }

  /** Filtering keeps every copy of an element that passes and no copy of one that fails. */
  lemma {:induction false} FilterMultiplicity<T>(s: seq<T>, p: T -> bool, x: T)
    ensures multiset(Filter(s, p))[x] == if p(x) then multiset(s)[x] else 0
  {
    if s != [] {
      FilterMultiplicity(s[1..], p, x);
      assert s == [s[0]] + s[1..];
      assert multiset(s) == multiset([s[0]]) + multiset(s[1..]);
      var head: seq<T> := if p(s[0]) then [s[0]] else [];
      assert Filter(s, p) == head + Filter(s[1..], p);
      assert multiset(Filter(s, p)) == multiset(head) + multiset(Filter(s[1..], p));
    }
  }

  /** When exactly the first `k` elements satisfy `p`, filtering keeps that prefix. */
  lemma {:induction false} FilterPrefix<T>(s: seq<T>, p: T -> bool, k: nat)
    requires k <= |s|
    requires forall i :: 0 <= i < k ==> p(s[i])
    requires forall i :: k <= i < |s| ==> !p(s[i])
    ensures Filter(s, p) == s[..k]
  {
    if s != [] {
      if k == 0 {
        FilterPrefix(s[1..], p, 0);
      } else {
        FilterPrefix(s[1..], p, k - 1);
        assert s[..k] == [s[0]] + s[1..][..k - 1];
      }
    }
  }

  /** When `p` holds of an element only if it holds of every earlier one,
      filtering keeps a prefix. */
  lemma {:induction false} FilterDownwardClosed<T>(s: seq<T>, p: T -> bool)
    requires forall i, j :: 0 <= i < j < |s| && p(s[j]) ==> p(s[i])
    ensures Filter(s, p) <= s
  {
    if s != [] {
      if p(s[0]) {
        var rest := s[1..];
        forall i, j | 0 <= i < j < |rest| && p(rest[j])
          ensures p(rest[i])
        {
          assert rest[i] == s[i + 1] && rest[j] == s[j + 1];
        }
        FilterDownwardClosed(rest, p);
        assert s == [s[0]] + rest;
      } else {
        FilterPrefix(s, p, 0);
      }
    }
  }

  lemma {:induction false} SubsequenceLength<T>(a: seq<T>, b: seq<T>)
    requires IsSubsequence(a, b)
    ensures |a| <= |b|
  {
    if a != [] {
      if a[0] == b[0] && IsSubsequence(a[1..], b[1..]) {
        SubsequenceLength(a[1..], b[1..]);
      } else {
        SubsequenceLength(a, b[1..]);
      }
    }
  }

  lemma {:induction false} SubsequenceReflexive<T>(a: seq<T>)
    ensures IsSubsequence(a, a)
  {
    if a != [] {
      SubsequenceReflexive(a[1..]);
    }
  }
}
