/**
 * The three string operations the consolidation engine borrows from Python:
 * `sep.join(parts)`, the ordering of `str` values that `sorted` uses, and the
 * decimal rendering of a count inside an f-string.
 */
module Strings {

  /** `sep.join(parts)`. */
  function Join(parts: seq<string>, sep: string): string
  {
    if |parts| == 0 then ""
    else if |parts| == 1 then parts[0]
    else parts[0] + sep + Join(parts[1..], sep)
  }

  /** Joining a concatenation joins each half, with one separator between two non-empty halves. */
  lemma {:induction false} JoinAppend(a: seq<string>, b: seq<string>, sep: string)
    ensures Join(a + b, sep) ==
      Join(a, sep) + (if a != [] && b != [] then sep else "") + Join(b, sep)
  {
    if a == [] {
      assert a + b == b;
    } else if |a| == 1 {
      if b != [] {
        assert (a + b)[1..] == b;
      } else {
        assert a + b == a;
      }
    } else {
      assert (a + b)[1..] == a[1..] + b;
      JoinAppend(a[1..], b, sep);
    }
  }

  /**
   * Every part sits in the joined string at its own position: after the join
   * of the parts before it and one separator, and before one separator and the
   * join of the parts after it.
   */
  lemma JoinAt(parts: seq<string>, sep: string, i: nat)
    requires i < |parts|
    ensures Join(parts, sep) ==
      Join(parts[..i], sep) + (if i > 0 then sep else "") + parts[i]
      + (if i + 1 < |parts| then sep else "") + Join(parts[i + 1..], sep)
  {
    assert parts == parts[..i] + ([parts[i]] + parts[i + 1..]);
    JoinAppend(parts[..i], [parts[i]] + parts[i + 1..], sep);
    JoinAppend([parts[i]], parts[i + 1..], sep);
  }

  /**
   * Python's `a <= b` on `str`: code points compared left to right, and a
   * proper prefix before any of its extensions.
   */
  predicate LexLe(a: string, b: string)
  {
    a == [] || (b != [] && (a[0] < b[0] || (a[0] == b[0] && LexLe(a[1..], b[1..]))))
  }

  lemma {:induction false} LexLeReflexive(a: string)
    ensures LexLe(a, a)
  {
    if a != [] {
      LexLeReflexive(a[1..]);
    }
  }

  lemma {:induction false} LexLeTransitive(a: string, b: string, c: string)
    requires LexLe(a, b) && LexLe(b, c)
    ensures LexLe(a, c)
  {
    if a != [] && a[0] == b[0] && b[0] == c[0] {
      LexLeTransitive(a[1..], b[1..], c[1..]);
    }
  }

  lemma {:induction false} LexLeTotal(a: string, b: string)
    ensures LexLe(a, b) || LexLe(b, a)
  {
    if a != [] && b != [] && a[0] == b[0] {
      LexLeTotal(a[1..], b[1..]);
    }
  }

  lemma {:induction false} LexLeAntisymmetric(a: string, b: string)
    requires LexLe(a, b) && LexLe(b, a)
    ensures a == b
  {
    if a != [] && b != [] {
      LexLeAntisymmetric(a[1..], b[1..]);
      assert a == [a[0]] + a[1..];
      assert b == [b[0]] + b[1..];
    }
  }

  predicate IsDigit(c: char)
  {
    '0' <= c <= '9'
  }

  function DigitChar(d: nat): (c: char)
    requires d < 10
  {
    (48 + d) as char
  }

  function DigitValue(c: char): nat
    requires IsDigit(c)
  {
    (c as int) - 48
  }

  /** `str(n)` for a non-negative `int`: its decimal digits. */
  function NatToString(n: nat): (s: string)
    ensures |s| >= 1
    ensures forall i :: 0 <= i < |s| ==> IsDigit(s[i])
    ensures |s| > 1 ==> s[0] != '0'
  {
    if n < 10 then [DigitChar(n)] else NatToString(n / 10) + [DigitChar(n % 10)]
  }

  /** The value of a string of decimal digits. */
  function ParseNat(s: string): nat
    requires forall i :: 0 <= i < |s| ==> IsDigit(s[i])
  {
    if s == [] then 0 else ParseNat(s[..|s| - 1]) * 10 + DigitValue(s[|s| - 1])
  }

  /** Reading back the rendered digits gives the count that was rendered. */
  lemma {:induction false} NatToStringRoundTrip(n: nat)
    ensures ParseNat(NatToString(n)) == n
  {
    var s := NatToString(n);
    if n >= 10 {
      NatToStringRoundTrip(n / 10);
      assert s[..|s| - 1] == NatToString(n / 10);
    }
  }
}
