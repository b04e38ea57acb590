/**
 * Python's `sum(f(x) for x in s)` and `max((f(x) for x in s), default=0)` over
 * non-negative measures, and the fact that neither depends on the order of `s`.
 */
module Aggregates {

  function Sum<T>(s: seq<T>, f: T -> nat): nat
  {
    if s == [] then 0 else f(s[0]) + Sum(s[1..], f)
  }

  /** The largest measure in `s`, or 0 when `s` is empty. */
  function Max<T>(s: seq<T>, f: T -> nat): (m: nat)
    ensures forall i :: 0 <= i < |s| ==> f(s[i]) <= m
    ensures s == [] ==> m == 0
    ensures s != [] ==> exists i :: 0 <= i < |s| && m == f(s[i])
  {
    if s == [] then 0
    else
      var rest := Max(s[1..], f);
      if f(s[0]) >= rest then f(s[0]) else rest
  }

  lemma {:induction false} SumAppend<T>(a: seq<T>, b: seq<T>, f: T -> nat)
    ensures Sum(a + b, f) == Sum(a, f) + Sum(b, f)
  {
    if a == [] {
      assert a + b == b;
    } else {
      assert (a + b)[1..] == a[1..] + b;
      SumAppend(a[1..], b, f);
    }
  }

  lemma MultisetRemove<T>(s: seq<T>, k: nat)
    requires k < |s|
    ensures multiset(s[..k] + s[k + 1..]) == multiset(s) - multiset{s[k]}
  {
    assert s == s[..k] + [s[k]] + s[k + 1..];
  }

  lemma IndexOf<T>(s: seq<T>, x: T) returns (k: nat)
    requires x in multiset(s)
    ensures k < |s| && s[k] == x
  {
    assert x in s;
    k :| 0 <= k < |s| && s[k] == x;
  }

  /** Taking the same element out of two permutations of each other leaves two permutations. */
  lemma RestPermutes<T>(a: seq<T>, b: seq<T>, k: nat)
    requires multiset(a) == multiset(b) && a != [] && k < |b| && b[k] == a[0]
    ensures multiset(a[1..]) == multiset(b[..k] + b[k + 1..])
  {
    MultisetRemove(a, 0);
    MultisetRemove(b, k);
    assert a[..0] + a[1..] == a[1..];
  }

  lemma SumRemove<T>(s: seq<T>, k: nat, f: T -> nat)
    requires k < |s|
    ensures Sum(s, f) == f(s[k]) + Sum(s[..k] + s[k + 1..], f)
  {
    assert s[..k] + s[k..] == s;
    SumAppend(s[..k], s[k..], f);
    assert s[k..][0] == s[k] && s[k..][1..] == s[k + 1..];
    SumAppend(s[..k], s[k + 1..], f);
  }

  /** A sum does not depend on the order of its terms. */
  lemma {:induction false} SumPermutation<T>(a: seq<T>, b: seq<T>, f: T -> nat)
    requires multiset(a) == multiset(b)
    ensures Sum(a, f) == Sum(b, f)
    decreases |a|
  {
    if a == [] {
      assert |multiset(b)| == 0;
    } else {
      var k := IndexOf(b, a[0]);
      RestPermutes(a, b, k);
      SumPermutation(a[1..], b[..k] + b[k + 1..], f);
      SumRemove(b, k, f);
    }
  }

  /** A maximum does not depend on the order of its terms. */
  lemma MaxPermutation<T>(a: seq<T>, b: seq<T>, f: T -> nat)
    requires multiset(a) == multiset(b)
    ensures Max(a, f) == Max(b, f)
  {
    if a == [] {
      assert |multiset(b)| == 0;
    } else {
      var i := IndexOf(b, a[0]);
      var ma, mb := Max(a, f), Max(b, f);
      var p :| 0 <= p < |a| && ma == f(a[p]);
      var q :| 0 <= q < |b| && mb == f(b[q]);
      var p' := IndexOf(b, a[p]);
      var q' := IndexOf(a, b[q]);
    }
  }
}
