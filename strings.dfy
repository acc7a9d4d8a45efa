/** Option values for Python's `None`-or-value results. */
module Base {
  datatype Option<T> = None | Some(value: T) {
    function GetOr(default: T): T {
      match this
      case Some(v) => v
      case None => default
    }
  }
}

/**
 * The few pieces of Python string behaviour the scanning tool relies on:
 * `str.split` on one separator, the `in` substring test, ASCII `str.lower`,
 * and the decimal branch of the `int()` constructor.
 */
module Strings {
  import opened Base

  // ---------------------------------------------------------------------
  // str.split(sep) for a one-character separator
  // ---------------------------------------------------------------------

  /** `s.split(sep)`: the pieces between separators, always at least one. */
  function Split(s: string, sep: char): (parts: seq<string>)
    ensures |parts| >= 1
    ensures forall k :: 0 <= k < |parts| ==> sep !in parts[k]
    decreases |s|
  {
    if s == [] then [[]]
    else
      var rest := Split(s[1..], sep);
      if s[0] == sep then [[]] + rest
      else [[s[0]] + rest[0]] + rest[1..]
  }

  /** `sep.join(parts)`, the inverse of Split. */
  function Join(parts: seq<string>, sep: char): string
  {
    if parts == [] then []
    else if |parts| == 1 then parts[0]
    else parts[0] + [sep] + Join(parts[1..], sep)
  }

  /** The text before the first `sep` (all of `s` when there is none). */
  function UpTo(s: string, sep: char): string
  {
    if s == [] || s[0] == sep then [] else [s[0]] + UpTo(s[1..], sep)
  }

  /** The text before the first separator of `a + [sep] + b`, when `a` has none, is `a`. */
  lemma {:induction false} UpToFirst(a: string, b: string, sep: char)
    requires sep !in a
    ensures UpTo(a + [sep] + b, sep) == a
    ensures UpTo(a, sep) == a
  {
    if a != [] {
      assert (a + [sep] + b)[1..] == a[1..] + [sep] + b;
      UpToFirst(a[1..], b, sep);
    }
  }

  /** Splitting loses nothing: joining the pieces gives the string back. */
  lemma {:induction false} JoinSplit(s: string, sep: char)
    ensures Join(Split(s, sep), sep) == s
  {
    if s != [] {
      var rest := Split(s[1..], sep);
      JoinSplit(s[1..], sep);
      if s[0] == sep {
        assert Split(s, sep) == [[]] + rest;
        assert ([[]] + rest)[1..] == rest;
      } else {
        assert Split(s, sep) == [[s[0]] + rest[0]] + rest[1..];
        if |rest| > 1 {
          assert ([[s[0]] + rest[0]] + rest[1..])[1..] == rest[1..];
        }
      }
    }
  }

  /** The first piece of a split is the text before the first separator. */
  lemma {:induction false} SplitHead(s: string, sep: char)
    ensures Split(s, sep)[0] == UpTo(s, sep)
  {
    if s != [] && s[0] != sep {
      SplitHead(s[1..], sep);
    }
  }

  // ---------------------------------------------------------------------
  // the `in` operator on strings
  // ---------------------------------------------------------------------

  /** `pat in s` for Python strings: `pat` occurs somewhere in `s`. */
  function Contains(s: string, pat: string): bool
    decreases |s|
  {
    |pat| <= |s| && (s[..|pat|] == pat || Contains(s[1..], pat))
  }

  /** `pat` starts at position `i` of `s`. */
  predicate OccursAt(s: string, pat: string, i: nat)
  {
    i + |pat| <= |s| && s[i..i + |pat|] == pat
  }

  /** Where Contains finds `pat`, it occurs at some position. */
  lemma {:induction false} ContainsWitness(s: string, pat: string) returns (i: nat)
    requires Contains(s, pat)
    ensures OccursAt(s, pat, i)
    decreases |s|
  {
    if s[..|pat|] == pat {
      i := 0;
    } else {
      var k := ContainsWitness(s[1..], pat);
      assert s[k + 1..k + 1 + |pat|] == s[1..][k..k + |pat|];
      i := k + 1;
    }
  }

  /** An occurrence at any position is found by Contains. */
  lemma {:induction false} OccursContains(s: string, pat: string, i: nat)
    requires OccursAt(s, pat, i)
    ensures Contains(s, pat)
    decreases i
  {
    if i > 0 {
      assert s[1..][i - 1..i - 1 + |pat|] == s[i..i + |pat|];
      OccursContains(s[1..], pat, i - 1);
    }
  }

  /** Contains agrees with the position-based reading of a substring test. */
  lemma ContainsIff(s: string, pat: string)
    ensures Contains(s, pat) <==> exists i: nat :: OccursAt(s, pat, i)
  {
    if Contains(s, pat) {
      var i := ContainsWitness(s, pat);
    }
    if exists i: nat :: OccursAt(s, pat, i) {
      var i: nat :| OccursAt(s, pat, i);
      OccursContains(s, pat, i);
    }
  }

  /** A pattern whose first character never appears does not occur. */
  lemma {:induction false} NotContainsHead(s: string, pat: string)
    requires pat != [] && pat[0] !in s
    ensures !Contains(s, pat)
    decreases |s|
  {
    if |pat| <= |s| {
      NotContainsHead(s[1..], pat);
    }
  }

  // ---------------------------------------------------------------------
  // str.lower, restricted to ASCII letters
  // ---------------------------------------------------------------------

  function LowerChar(c: char): char
  {
    if 'A' <= c <= 'Z' then (c as int + 32) as char else c
  }

  /**
   * `s.lower()` on ASCII letters: no upper-case letter is left, each one
   * becomes its lower-case counterpart, and every other character is kept.
   */
  function Lower(s: string): (r: string)
    ensures |r| == |s|
    ensures forall i :: 0 <= i < |s| ==> !('A' <= r[i] <= 'Z')
    ensures forall i :: 0 <= i < |s| && 'A' <= s[i] <= 'Z' ==> r[i] as int == s[i] as int + ('a' as int - 'A' as int)
    ensures forall i :: 0 <= i < |s| && !('A' <= s[i] <= 'Z') ==> r[i] == s[i]
  {
    seq(|s|, i requires 0 <= i < |s| => LowerChar(s[i]))
  }

  /** Lower-casing twice is lower-casing once. */
  lemma LowerIdempotent(s: string)
    ensures Lower(Lower(s)) == Lower(s)
  {
    var t := Lower(s);
    assert forall i :: 0 <= i < |t| ==> Lower(t)[i] == t[i];
  }

  // ---------------------------------------------------------------------
  // int(s) for a str argument, base 10
  // ---------------------------------------------------------------------

  /** The whitespace `int()` skips around a number (its ASCII and Latin-1 part). */
  predicate IsSpace(c: char)
  {
    (c as int) in {9, 10, 11, 12, 13, 28, 29, 30, 31, 32, 0x85, 0xA0}
  }

  predicate IsDigit(c: char)
  {
    '0' <= c <= '9'
  }

  function StripLeft(s: string): string
    decreases |s|
  {
    if s != [] && IsSpace(s[0]) then StripLeft(s[1..]) else s
  }

  function StripRight(s: string): string
    decreases |s|
  {
    if s != [] && IsSpace(s[|s| - 1]) then StripRight(s[..|s| - 1]) else s
  }

  /** `s.strip()`: whitespace removed from both ends. */
  function Strip(s: string): string
  {
    StripRight(StripLeft(s))
  }

  /** Digits with single underscores between them, as `int()` accepts them. */
  predicate DigitGroups(t: string)
  {
    t != [] && IsDigit(t[0]) && IsDigit(t[|t| - 1]) && DigitsOrUnderscores(t) &&
    forall i :: 0 <= i < |t| - 1 && t[i] == '_' ==> IsDigit(t[i + 1])
  }

  predicate DigitsOrUnderscores(t: string)
  {
    forall i :: 0 <= i < |t| ==> IsDigit(t[i]) || t[i] == '_'
  }

  /** The decimal value of the digits of `t`, underscores ignored. */
  function DigitValue(t: string): nat
    requires DigitsOrUnderscores(t)
  {
    if t == [] then 0
    else
      var last := t[|t| - 1];
      if last == '_' then DigitValue(t[..|t| - 1])
      else DigitValue(t[..|t| - 1]) * 10 + (last as int - '0' as int)
  }

  /** `int(s)`: Some(value) when `s` is a decimal integer literal, None where Python raises ValueError. */
  function ParseInt(s: string): (r: Option<int>)
  {
    var t := Strip(s);
    if t != [] && (t[0] == '-' || t[0] == '+') then
      if DigitGroups(t[1..]) then
        Some(if t[0] == '-' then -(DigitValue(t[1..]) as int) else DigitValue(t[1..]))
      else None
    else if DigitGroups(t) then Some(DigitValue(t))
    else None
  }

  // ---------------------------------------------------------------------
  // decimal rendering, the inverse of ParseInt
  // ---------------------------------------------------------------------

  function DigitChar(d: nat): char
    requires d < 10
  {
    ('0' as int + d) as char
  }

  /** `str(n)` for a natural number. */
  function Show(n: nat): (s: string)
    ensures s != [] && forall i :: 0 <= i < |s| ==> IsDigit(s[i])
  {
    if n < 10 then [DigitChar(n)] else Show(n / 10) + [DigitChar(n % 10)]
  }

  /** `str(n)` for any integer. */
  function ShowInt(n: int): string
  {
    if n < 0 then "-" + Show(-n) else Show(n)
  }

  lemma {:induction false} DigitValueShow(n: nat)
    ensures DigitsOrUnderscores(Show(n)) && DigitValue(Show(n)) == n
  {
    if n >= 10 {
      DigitValueShow(n / 10);
      var s := Show(n);
      assert s[..|s| - 1] == Show(n / 10);
    }
  }

  lemma StripUnspaced(s: string)
    requires s != [] && !IsSpace(s[0]) && !IsSpace(s[|s| - 1])
    ensures Strip(s) == s
  {
  }

  /** Parsing what `str` renders gives the number back. */
  lemma ParseShow(n: int)
    ensures ParseInt(ShowInt(n)) == Some(n)
  {
    var m := if n < 0 then -n else n;
    var digits := Show(m);
    DigitValueShow(m);
    var s := ShowInt(n);
    StripUnspaced(s);
    if n < 0 {
      assert s[1..] == digits;
    }
  }
}
