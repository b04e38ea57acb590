/**
 * A stable sort of a sequence by a string key, with keys compared as Python
 * compares `str` values: what `sorted(xs, key=...)` computes.
 */
module StableSort {
  import opened Strings

  ghost predicate SortedBy<T>(s: seq<T>, key: T -> string)
  {
    forall i, j :: 0 <= i < j < |s| ==> LexLe(key(s[i]), key(s[j]))
  }

  /** The elements of `s` whose key is `k`, in their order in `s`. */
  function WithKey<T>(s: seq<T>, key: T -> string, k: string): seq<T>
  {
    if s == [] then [] else (if key(s[0]) == k then [s[0]] else []) + WithKey(s[1..], key, k)
  }

  /** `r` is `s` sorted by key, with elements of equal key in their order in `s`. */
  ghost predicate IsStableSortOf<T>(r: seq<T>, s: seq<T>, key: T -> string)
  {
    && SortedBy(r, key)
    && multiset(r) == multiset(s)
    && forall k :: WithKey(r, key, k) == WithKey(s, key, k)
  }

  /** Puts `x` in front of the first element whose key is not below its own. */
  function InsertBy<T>(x: T, s: seq<T>, key: T -> string): seq<T>
  {
    if s == [] || LexLe(key(x), key(s[0])) then [x] + s
    else [s[0]] + InsertBy(x, s[1..], key)
  }

  /** Insertion sort from the back. */
  function SortBy<T>(s: seq<T>, key: T -> string): seq<T>
  {
    if s == [] then [] else InsertBy(s[0], SortBy(s[1..], key), key)
  }

  lemma {:induction false} InsertPermutes<T>(x: T, s: seq<T>, key: T -> string)
    ensures multiset(InsertBy(x, s, key)) == multiset{x} + multiset(s)
  {
    if s != [] && !LexLe(key(x), key(s[0])) {
      InsertPermutes(x, s[1..], key);
      assert s == [s[0]] + s[1..];
    }
  }

  lemma {:induction false} SortPermutes<T>(s: seq<T>, key: T -> string)
    ensures multiset(SortBy(s, key)) == multiset(s)
  {
    if s != [] {
      SortPermutes(s[1..], key);
      InsertPermutes(s[0], SortBy(s[1..], key), key);
      assert s == [s[0]] + s[1..];
    }
  }

  /** Putting an element whose key is at most every key of a sorted sequence in front keeps it sorted. */
  lemma ConsKeepsSorted<T>(h: T, r: seq<T>, key: T -> string)
    requires SortedBy(r, key)
    requires forall j :: 0 <= j < |r| ==> LexLe(key(h), key(r[j]))
    ensures SortedBy([h] + r, key)
  {
    var c := [h] + r;
    forall i, j | 0 <= i < j < |c|
      ensures LexLe(key(c[i]), key(c[j]))
    {
      if i > 0 {
        assert c[i] == r[i - 1] && c[j] == r[j - 1];
      } else {
        assert c[j] == r[j - 1];
      }
    }
  }

  /** Every element of an insertion into the tail of a sorted sequence has a key above its head's. */
  lemma HeadBoundsInsert<T>(x: T, s: seq<T>, key: T -> string)
    requires SortedBy(s, key) && s != [] && LexLe(key(s[0]), key(x))
    ensures forall j :: 0 <= j < |InsertBy(x, s[1..], key)| ==> LexLe(key(s[0]), key(InsertBy(x, s[1..], key)[j]))
  {
    var t := s[1..];
    var it := InsertBy(x, t, key);
    InsertPermutes(x, t, key);
    forall j | 0 <= j < |it|
      ensures LexLe(key(s[0]), key(it[j]))
    {
      var y := it[j];
      assert y in multiset(it);
      if y != x {
        assert y in multiset(t);
        var m :| 0 <= m < |t| && t[m] == y;
        assert s[m + 1] == y;
      }
    }
  }

  lemma {:induction false} InsertKeepsSorted<T>(x: T, s: seq<T>, key: T -> string)
    requires SortedBy(s, key)
    ensures SortedBy(InsertBy(x, s, key), key)
  {
    var kx := key(x);
    if s == [] {
    } else if LexLe(kx, key(s[0])) {
      forall j | 0 <= j < |s|
        ensures LexLe(kx, key(s[j]))
      {
        if j > 0 {
          LexLeTransitive(kx, key(s[0]), key(s[j]));
        }
      }
      ConsKeepsSorted(x, s, key);
    } else {
      LexLeTotal(kx, key(s[0]));
      InsertKeepsSorted(x, s[1..], key);
      HeadBoundsInsert(x, s, key);
      ConsKeepsSorted(s[0], InsertBy(x, s[1..], key), key);
    }
  }

  lemma {:induction false} SortIsSorted<T>(s: seq<T>, key: T -> string)
    ensures SortedBy(SortBy(s, key), key)
  {
    if s != [] {
      SortIsSorted(s[1..], key);
      InsertKeepsSorted(s[0], SortBy(s[1..], key), key);
    }
  }

  lemma {:induction false} WithKeyAppend<T>(a: seq<T>, b: seq<T>, key: T -> string, k: string)
    ensures WithKey(a + b, key, k) == WithKey(a, key, k) + WithKey(b, key, k)
  {
    if a == [] {
      assert a + b == b;
    } else {
      var head := if key(a[0]) == k then [a[0]] else [];
      assert (a + b)[0] == a[0] && (a + b)[1..] == a[1..] + b;
      assert WithKey(a + b, key, k) == head + WithKey(a[1..] + b, key, k);
      WithKeyAppend(a[1..], b, key, k);
      assert head + (WithKey(a[1..], key, k) + WithKey(b, key, k))
          == (head + WithKey(a[1..], key, k)) + WithKey(b, key, k);
    }
  }

  /** Inserting `x` puts it before every element of `s` that has the same key. */
  lemma {:induction false} InsertWithKey<T>(x: T, s: seq<T>, key: T -> string, k: string)
    ensures WithKey(InsertBy(x, s, key), key, k) ==
      (if key(x) == k then [x] else []) + WithKey(s, key, k)
  {
    var kx := key(x);
    if s == [] || LexLe(kx, key(s[0])) {
      WithKeyAppend([x], s, key, k);
    } else {
      if key(s[0]) == kx {
        LexLeReflexive(kx);
      }
      InsertWithKey(x, s[1..], key, k);
      WithKeyAppend([s[0]], InsertBy(x, s[1..], key), key, k);
      WithKeyAppend([s[0]], s[1..], key, k);
      assert s == [s[0]] + s[1..];
    }
  }

  lemma {:induction false} SortIsStable<T>(s: seq<T>, key: T -> string, k: string)
    ensures WithKey(SortBy(s, key), key, k) == WithKey(s, key, k)
  {
    if s != [] {
      SortIsStable(s[1..], key, k);
      InsertWithKey(s[0], SortBy(s[1..], key), key, k);
    }
  }

  /** The insertion sort is a stable sort. */
  lemma SortByIsStableSort<T>(s: seq<T>, key: T -> string)
    ensures IsStableSortOf(SortBy(s, key), s, key)
  {
    SortIsSorted(s, key);
    SortPermutes(s, key);
    forall k
      ensures WithKey(SortBy(s, key), key, k) == WithKey(s, key, k)
    {
      SortIsStable(s, key, k);
    }
  }

  /** A stable sort by key is unique: whatever meets `IsStableSortOf` is the one result. */
  lemma StableSortIsUnique<T>(r1: seq<T>, r2: seq<T>, s: seq<T>, key: T -> string)
    requires IsStableSortOf(r1, s, key) && IsStableSortOf(r2, s, key)
    ensures r1 == r2
  {
    SameKeyOrderIsEqual(r1, r2, key);
  }

  lemma {:induction false} SameFirstKey<T>(r1: seq<T>, r2: seq<T>, key: T -> string)
    requires SortedBy(r1, key) && SortedBy(r2, key)
    requires multiset(r1) == multiset(r2) && r1 != []
    ensures r2 != [] && key(r1[0]) == key(r2[0])
  {
    assert r1[0] in multiset(r2);
    assert r2[0] in multiset(r1);
    var k1, k2 := key(r1[0]), key(r2[0]);
    var m1 :| 0 <= m1 < |r1| && r1[m1] == r2[0];
    var m2 :| 0 <= m2 < |r2| && r2[m2] == r1[0];
    if m1 == 0 { LexLeReflexive(k1); }
    if m2 == 0 { LexLeReflexive(k2); }
    LexLeAntisymmetric(k1, k2);
  }

  lemma SameFirstElement<T>(r1: seq<T>, r2: seq<T>, key: T -> string)
    requires r1 != [] && r2 != [] && key(r1[0]) == key(r2[0])
    requires WithKey(r1, key, key(r1[0])) == WithKey(r2, key, key(r1[0]))
    ensures r1[0] == r2[0]
  {
    var k := key(r1[0]);
    assert WithKey(r1, key, k) == [r1[0]] + WithKey(r1[1..], key, k);
    assert WithKey(r2, key, k) == [r2[0]] + WithKey(r2[1..], key, k);
    assert WithKey(r1, key, k)[0] == r1[0];
    assert WithKey(r2, key, k)[0] == r2[0];
  }

  lemma SortedTail<T>(r: seq<T>, key: T -> string)
    requires SortedBy(r, key) && r != []
    ensures SortedBy(r[1..], key)
  {
    var t := r[1..];
    forall i, j | 0 <= i < j < |t|
      ensures LexLe(key(t[i]), key(t[j]))
    {
      assert t[i] == r[i + 1] && t[j] == r[j + 1];
    }
  }

  /** Two sequences that start with the same element and agree on every key agree after it. */
  lemma WithKeyTails<T>(r1: seq<T>, r2: seq<T>, key: T -> string)
    requires r1 != [] && r2 != [] && r1[0] == r2[0]
    requires forall k :: WithKey(r1, key, k) == WithKey(r2, key, k)
    ensures forall k :: WithKey(r1[1..], key, k) == WithKey(r2[1..], key, k)
  {
    forall k
      ensures WithKey(r1[1..], key, k) == WithKey(r2[1..], key, k)
    {
      var head := if key(r1[0]) == k then [r1[0]] else [];
      var w1, w2 := WithKey(r1[1..], key, k), WithKey(r2[1..], key, k);
      assert WithKey(r1, key, k) == head + w1;
      assert WithKey(r2, key, k) == head + w2;
      assert (head + w1)[|head|..] == w1;
      assert (head + w2)[|head|..] == w2;
    }
  }

  lemma MultisetTails<T>(r1: seq<T>, r2: seq<T>)
    requires r1 != [] && r2 != [] && r1[0] == r2[0]
    requires multiset(r1) == multiset(r2)
    ensures multiset(r1[1..]) == multiset(r2[1..])
  {
    assert r1 == [r1[0]] + r1[1..];
    assert r2 == [r2[0]] + r2[1..];
    assert multiset(r1[1..]) == multiset(r1) - multiset{r1[0]};
  }

  /** Two stable orderings of the same elements start alike, and what follows is again two such orderings. */
  lemma SameHeadAndTails<T>(r1: seq<T>, r2: seq<T>, key: T -> string)
    requires SortedBy(r1, key) && SortedBy(r2, key)
    requires multiset(r1) == multiset(r2) && r1 != []
    requires forall k :: WithKey(r1, key, k) == WithKey(r2, key, k)
    ensures r2 != [] && r1[0] == r2[0]
    ensures SortedBy(r1[1..], key) && SortedBy(r2[1..], key)
    ensures multiset(r1[1..]) == multiset(r2[1..])
    ensures forall k :: WithKey(r1[1..], key, k) == WithKey(r2[1..], key, k)
  {
    SameFirstKey(r1, r2, key);
    SameFirstElement(r1, r2, key);
    MultisetTails(r1, r2);
    SortedTail(r1, key);
    SortedTail(r2, key);
    WithKeyTails(r1, r2, key);
  }

  lemma {:induction false} SameKeyOrderIsEqual<T>(r1: seq<T>, r2: seq<T>, key: T -> string)
    requires SortedBy(r1, key) && SortedBy(r2, key)
    requires multiset(r1) == multiset(r2)
    requires forall k :: WithKey(r1, key, k) == WithKey(r2, key, k)
    ensures r1 == r2
  {
    if r1 == [] {
      assert |multiset(r2)| == 0;
    } else {
      SameHeadAndTails(r1, r2, key);
      SameKeyOrderIsEqual(r1[1..], r2[1..], key);
      assert r1 == [r1[0]] + r1[1..] && r2 == [r2[0]] + r2[1..];
    }
  }
}
