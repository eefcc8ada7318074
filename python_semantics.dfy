/**
  The few pieces of Python and pandas behaviour the backend relies on: `<` and `max` on
  `str`, `int()` on a float, the decimal rendering of an integer inside an f-string, and
  `Series.unique()`.
 */
module PythonSemantics {

  /** `a` is `b` with some elements left out, the rest in order. */
  predicate IsSubsequence<T(==)>(a: seq<T>, b: seq<T>)
    decreases |b|
  {
    if a == [] then true
    else if b == [] then false
    else (a[|a| - 1] == b[|b| - 1] && IsSubsequence(a[..|a| - 1], b[..|b| - 1]))
         || IsSubsequence(a, b[..|b| - 1])
  }

  lemma SubsequenceExtend<T>(a: seq<T>, b: seq<T>, x: T, keep: bool)
    requires IsSubsequence(a, b)
    ensures IsSubsequence(a + (if keep then [x] else []), b + [x])
  {
    var b' := b + [x];
    assert b'[..|b'| - 1] == b;
    if keep {
      var a' := a + [x];
      assert a'[..|a'| - 1] == a;
      assert a'[|a'| - 1] == b'[|b'| - 1];
    } else {
      assert a + [] == a;
    }
  }

  lemma {:induction false} SubsequenceMembers<T>(a: seq<T>, b: seq<T>)
    requires IsSubsequence(a, b)
    ensures forall i :: 0 <= i < |a| ==> a[i] in b
    decreases |b|
  {
    if a != [] {
      var a', b' := a[..|a| - 1], b[..|b| - 1];
      if a[|a| - 1] == b[|b| - 1] && IsSubsequence(a', b') {
        SubsequenceMembers(a', b');
        assert forall i :: 0 <= i < |a'| ==> a[i] == a'[i];
      } else {
        SubsequenceMembers(a, b');
      }
    }
  }

  /** Leaving elements out of a list without repeats leaves a list without repeats. */
  lemma {:induction false} SubsequenceNoDuplicates<T>(a: seq<T>, b: seq<T>)
    requires IsSubsequence(a, b) && NoDuplicates(b)
    ensures NoDuplicates(a)
    decreases |b|
  {
    if a != [] {
      var a', b' := a[..|a| - 1], b[..|b| - 1];
      assert NoDuplicates(b');
      if a[|a| - 1] == b[|b| - 1] && IsSubsequence(a', b') {
        SubsequenceNoDuplicates(a', b');
        SubsequenceMembers(a', b');
        forall i | 0 <= i < |a'|
          ensures a[i] != a[|a| - 1]
        {
          assert a[i] == a'[i];
        }
      } else {
        SubsequenceNoDuplicates(a, b');
      }
    }
  }

  predicate NoDuplicates<T(==)>(s: seq<T>) {
    forall i, j :: 0 <= i < j < |s| ==> s[i] != s[j]
  }

  // ---------------------------------------------------------------------------------------
  // Strings: Python compares `str` values lexicographically by code point.

  predicate StrLess(a: string, b: string)
    decreases |a|
  {
    if |a| == 0 then |b| > 0
    else |b| > 0 && (a[0] < b[0] || (a[0] == b[0] && StrLess(a[1..], b[1..])))
  }

  lemma {:induction false} StrLessIrreflexive(a: string)
    ensures !StrLess(a, a)
    decreases |a|
  {
    if |a| > 0 {
      StrLessIrreflexive(a[1..]);
    }
  }

  lemma {:induction false} StrLessTransitive(a: string, b: string, c: string)
    requires StrLess(a, b) && StrLess(b, c)
    ensures StrLess(a, c)
    decreases |a|
  {
    if |a| > 0 && a[0] == b[0] && b[0] == c[0] {
      StrLessTransitive(a[1..], b[1..], c[1..]);
    }
  }

  /** Any two different strings are ordered one way or the other. */
  lemma {:induction false} StrLessTotal(a: string, b: string)
    requires a != b
    ensures StrLess(a, b) || StrLess(b, a)
    decreases |a|
  {
    if |a| > 0 && |b| > 0 && a[0] == b[0] {
      assert a == [a[0]] + a[1..] && b == [b[0]] + b[1..];
      StrLessTotal(a[1..], b[1..]);
    }
  }

  /** The shape of `sorted(column.unique())`. */
  predicate StrictlyIncreasing(s: seq<string>) {
    forall i, j :: 0 <= i < j < |s| ==> StrLess(s[i], s[j])
  }

  /** `max(s)` on a non-empty list of strings: the last of the largest, scanning left to right. */
  function MaxString(s: seq<string>): (m: string)
    requires |s| > 0
    ensures m in s
    ensures forall i :: 0 <= i < |s| ==> !StrLess(m, s[i])
    decreases |s|
  {
    if |s| == 1 then
      StrLessIrreflexive(s[0]);
      s[0]
    else
      var init, last := s[..|s| - 1], s[|s| - 1];
      var m := MaxString(init);
      assert forall i :: 0 <= i < |init| ==> s[i] == init[i];
      if StrLess(m, last) then
        StrLessIrreflexive(last);
        forall i | 0 <= i < |init|
          ensures !StrLess(last, s[i])
        {
          if StrLess(last, s[i]) {
            StrLessTransitive(m, last, s[i]);
          }
        }
        last
      else
        m
  }

  // ---------------------------------------------------------------------------------------
  // Numbers.

  /** `int(x)` on a float: truncation toward zero. */
  function Truncate(x: real): (t: int)
    ensures 0.0 <= x ==> t as real <= x < t as real + 1.0
    ensures x < 0.0 ==> t as real - 1.0 < x <= t as real
  {
    if x >= 0.0 then x.Floor else -((-x).Floor)
  }

  function DigitChar(d: nat): (c: char)
    requires d < 10
    ensures '0' <= c <= '9' && (c as int) - ('0' as int) == d
  {
    (('0' as int) + d) as char
  }

  predicate IsDigits(s: string) {
    forall i :: 0 <= i < |s| ==> '0' <= s[i] <= '9'
  }

  /** The decimal rendering of a natural number, without leading zeros. */
  function NatToString(n: nat): (s: string)
    ensures |s| > 0 && IsDigits(s)
  {
    if n < 10 then [DigitChar(n)] else NatToString(n / 10) + [DigitChar(n % 10)]
  }

  /** Reading a string of digits back as a number. */
  function DigitsValue(s: string): nat
    requires IsDigits(s)
    decreases |s|
  {
    if s == [] then 0
    else DigitsValue(s[..|s| - 1]) * 10 + ((s[|s| - 1] as int) - ('0' as int))
  }

  lemma {:induction false} DigitsValueOfNatToString(n: nat)
    ensures DigitsValue(NatToString(n)) == n
  {
    if n >= 10 {
      var s := NatToString(n);
      assert s[..|s| - 1] == NatToString(n / 10);
      DigitsValueOfNatToString(n / 10);
    }
  }

  /** `f"{n}"` for an integer `n`. */
  function IntToString(n: int): string {
    if n < 0 then "-" + NatToString(-n) else NatToString(n)
  }

  /** A rendering is a minus sign or a digit followed by digits, so it holds no space. */
  lemma IntToStringNoSpace(n: int)
    ensures ' ' !in IntToString(n)
  {
    var s := IntToString(n);
    assert forall i :: 0 <= i < |s| ==> s[i] == '-' || '0' <= s[i] <= '9';
  }

  lemma NatToStringInjective(a: nat, b: nat)
    requires NatToString(a) == NatToString(b)
    ensures a == b
  {
    DigitsValueOfNatToString(a);
    DigitsValueOfNatToString(b);
  }

  /** Different integers render differently. */
  lemma IntToStringInjective(a: int, b: int)
    requires IntToString(a) == IntToString(b)
    ensures a == b
  {
    var s := IntToString(a);
    assert '0' <= NatToString(if a < 0 then -a else a)[0] <= '9';
    assert '0' <= NatToString(if b < 0 then -b else b)[0] <= '9';
    assert s[0] == (if a < 0 then '-' else NatToString(a)[0]);
    assert s[0] == (if b < 0 then '-' else NatToString(b)[0]);
    if a < 0 && b < 0 {
      assert NatToString(-a) == s[1..] == NatToString(-b);
      NatToStringInjective(-a, -b);
    } else if a >= 0 && b >= 0 {
      NatToStringInjective(a, b);
    }
  }

  // ---------------------------------------------------------------------------------------
  // pandas `Series.unique()`.

  /** `Series.unique()`: each value once, in order of first appearance. */
  function Distinct<T(==)>(s: seq<T>): (r: seq<T>)
    ensures NoDuplicates(r)
    ensures forall i :: 0 <= i < |r| ==> r[i] in s
    ensures forall i :: 0 <= i < |s| ==> s[i] in r
    ensures IsSubsequence(r, s)
    decreases |s|
  {
    if s == [] then []
    else
      var init, last := s[..|s| - 1], s[|s| - 1];
      var r := Distinct(init);
      assert s == init + [last];
      SubsequenceExtend(r, init, last, last !in r);
      r + (if last in r then [] else [last])
  }

  lemma DistinctStep<T>(s: seq<T>)
    requires |s| > 0
    ensures var shorter := Distinct(s[..|s| - 1]);
      Distinct(s) == shorter + (if s[|s| - 1] in shorter then [] else [s[|s| - 1]])
  {
  }

  lemma PrefixOfPrefix<T>(a: seq<T>, m: nat, n: nat)
    requires m <= n <= |a|
    ensures a[..n][..m] == a[..m]
  {
  }

  /**
    The values of a prefix come out first and in the same order: `unique()` lists values by
    their first appearance.
   */
  lemma {:induction false} DistinctOfPrefix<T>(s: seq<T>, k: nat)
    requires k <= |s|
    ensures |Distinct(s[..k])| <= |Distinct(s)|
    ensures Distinct(s[..k]) == Distinct(s)[..|Distinct(s[..k])|]
    decreases |s| - k
  {
    if k < |s| {
      DistinctOfPrefix(s, k + 1);
      DistinctStep(s[..k + 1]);
      assert s[..k + 1][..k] == s[..k];
      var shorter, longer, all := Distinct(s[..k]), Distinct(s[..k + 1]), Distinct(s);
      assert longer == shorter + (if s[k] in shorter then [] else [s[k]]);
      PrefixOfPrefix(all, |shorter|, |longer|);
    } else {
      assert s[..k] == s;
    }
  }
}
