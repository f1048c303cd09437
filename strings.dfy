/** Text helpers that mirror the Python `str` operations the core relies on:
    `strip()`, `lstrip(ch)`, `upper()` on ASCII letters, the case-insensitive
    letter comparison of an `re.IGNORECASE` pattern, ASCII decimal digits and
    `str(int)` for non-negative integers. */
module Strings {

  import opened Wrappers

  /** The characters for which Python's `str.isspace()` holds, i.e. the set
      `str.strip()` removes when called without an argument. */
  predicate IsSpace(c: char) {
    ('\t' <= c <= '\r') || ('\U{001C}' <= c <= ' ')
    || c == '\U{0085}' || c == '\U{00A0}' || c == '\U{1680}'
    || ('\U{2000}' <= c <= '\U{200A}') || c == '\U{2028}' || c == '\U{2029}'
    || c == '\U{202F}' || c == '\U{205F}' || c == '\U{3000}'
  }

  predicate AllSpace(s: string) {
    forall i :: 0 <= i < |s| ==> IsSpace(s[i])
  }

  /** `s.lstrip()` */
  function LStrip(s: string): (r: string)
    ensures |r| <= |s| && r == s[|s| - |r|..]
    ensures r == [] || !IsSpace(r[0])
  {
    if s != [] && IsSpace(s[0]) then LStrip(s[1..]) else s
  }

  /** `s.rstrip()` */
  function RStrip(s: string): (r: string)
    ensures |r| <= |s| && r == s[..|r|]
    ensures r == [] || !IsSpace(r[|r| - 1])
  {
    if s != [] && IsSpace(s[|s| - 1]) then RStrip(s[..|s| - 1]) else s
  }

  /** `s.strip()` */
  function Strip(s: string): (r: string)
    ensures |r| <= |s|
    ensures r == [] || (!IsSpace(r[0]) && !IsSpace(r[|r| - 1]))
  {
    RStrip(LStrip(s))
  }

  /** What `lstrip()` removes is whitespace. */
  lemma {:induction false} LStripRemovesSpace(s: string)
    ensures AllSpace(s[..|s| - |LStrip(s)|])
  {
    if s != [] && IsSpace(s[0]) {
      LStripRemovesSpace(s[1..]);
      var n := |s| - |LStrip(s)|;
      forall i | 0 <= i < n
        ensures IsSpace(s[..n][i])
      {
        if i > 0 {
          assert s[..n][i] == s[1..][..n - 1][i - 1];
        }
      }
    }
  }

  /** What `rstrip()` removes is whitespace. */
  lemma {:induction false} RStripRemovesSpace(s: string)
    ensures AllSpace(s[|RStrip(s)|..])
  {
    if s != [] && IsSpace(s[|s| - 1]) {
      var t := s[..|s| - 1];
      RStripRemovesSpace(t);
      var m := |RStrip(s)|;
      forall i | 0 <= i < |s| - m
        ensures IsSpace(s[m..][i])
      {
        if m + i < |s| - 1 {
          assert s[m..][i] == t[m..][i];
        }
      }
    }
  }

  /** Where the text `strip()` keeps begins. */
  function StripStart(s: string): nat
    requires |Strip(s)| <= |s|
  {
    |s| - |LStrip(s)|
  }

  /** `strip()` keeps the infix of its argument at `StripStart` and removes
      only whitespace around it. */
  lemma StripInfix(s: string)
    ensures var k := StripStart(s);
            OccursAt(s, Strip(s), k) && AllSpace(s[..k]) && AllSpace(s[k + |Strip(s)|..])
  {
    StripOccurs(s);
    StripLeadingSpace(s);
    StripTrailingSpace(s);
  }

  lemma StripOccurs(s: string)
    ensures OccursAt(s, Strip(s), StripStart(s))
  {
    var l := LStrip(s);
    var r := RStrip(l);
    var k := |s| - |l|;
    assert Strip(s) == r && StripStart(s) == k;
    assert l == s[k..] && r == l[..|r|];
    SliceTake(s, k, |r|);
  }

  lemma StripLeadingSpace(s: string)
    ensures AllSpace(s[..StripStart(s)])
  {
    LStripRemovesSpace(s);
  }

  lemma StripTrailingSpace(s: string)
    ensures AllSpace(s[StripStart(s) + |Strip(s)|..])
  {
    var l := LStrip(s);
    var r := RStrip(l);
    var k := |s| - |l|;
    assert Strip(s) == r && StripStart(s) == k;
    RStripRemovesSpace(l);
    DropAllSpace(s, l, k, |r|);
  }

  /** Whitespace at the end of a suffix is whitespace at the end of the whole. */
  lemma DropAllSpace(s: string, l: string, k: nat, n: nat)
    requires k <= |s| && l == s[k..] && n <= |l| && AllSpace(l[n..])
    ensures AllSpace(s[k + n..])
  {
    assert s[k + n..] == l[n..];
  }

  lemma SliceTake(s: string, k: nat, n: nat)
    requires k + n <= |s|
    ensures s[k..][..n] == s[k..k + n]
  {
  }

  lemma SliceDrop(s: string, k: nat, n: nat)
    requires k + n <= |s|
    ensures s[k..][n..] == s[k + n..]
  {
  }

  /** `needle` occurs in `s` starting at index `k`. */
  predicate OccursAt(s: string, needle: string, k: int) {
    0 <= k <= |s| - |needle| && s[k..k + |needle|] == needle
  }

  /** The middle part of a concatenation occurs where the first part ends. */
  lemma OccursBetween(a: string, b: string, c: string)
    ensures OccursAt(a + b + c, b, |a|)
  {
    assert (a + b + c)[|a|..|a| + |b|] == b;
  }

  /** `s.lstrip(c)`: drops every leading copy of `c`. */
  function LStripChar(s: string, c: char): (r: string)
    ensures |r| <= |s| && r == s[|s| - |r|..]
    ensures r == [] || r[0] != c
    ensures forall i :: 0 <= i < |s| - |r| ==> s[i] == c
  {
    if s != [] && s[0] == c then LStripChar(s[1..], c) else s
  }

  predicate IsDigit(c: char) {
    '0' <= c <= '9'
  }

  predicate AllDigits(s: string) {
    forall i :: 0 <= i < |s| ==> IsDigit(s[i])
  }

  /** How a letter compares under `re.IGNORECASE`: ASCII lower case folds to
      upper case, and U+017F LATIN SMALL LETTER LONG S folds to `S`. */
  function Fold(c: char): char {
    if 'a' <= c <= 'z' then (c as int - 32) as char
    else if c == '\U{017F}' then 'S'
    else c
  }

  /** `str.upper()` restricted to ASCII letters. */
  function AsciiUpper(s: string): (r: string)
    ensures |r| == |s|
    ensures forall i :: 0 <= i < |s| ==> r[i] == if 'a' <= s[i] <= 'z' then (s[i] as int - 32) as char else s[i]
  {
    if s == [] then [] else
      [if 'a' <= s[0] <= 'z' then (s[0] as int - 32) as char else s[0]] + AsciiUpper(s[1..])
  }

  /** Number of leading ASCII digits. */
  function SpanDigits(s: string): (k: nat)
    ensures k <= |s|
    ensures k == |s| || !IsDigit(s[k])
  {
    if s != [] && IsDigit(s[0]) then 1 + SpanDigits(s[1..]) else 0
  }

  /** The run `SpanDigits` counts is made of digits. */
  lemma {:induction false} SpanDigitsAll(s: string)
    ensures AllDigits(s[..SpanDigits(s)])
  {
    if s != [] && IsDigit(s[0]) {
      SpanDigitsAll(s[1..]);
      var k := SpanDigits(s);
      forall i | 0 <= i < k
        ensures IsDigit(s[..k][i])
      {
        if i > 0 {
          assert s[..k][i] == s[1..][..k - 1][i - 1];
        }
      }
    }
  }

  function DigitValue(c: char): nat
    requires IsDigit(c)
  {
    c as int - '0' as int
  }

  /** `int(s)` for a string of ASCII digits (most significant first). */
  function DigitsValue(s: string): nat
    requires AllDigits(s)
  {
    if s == [] then 0 else 10 * DigitsValue(s[..|s| - 1]) + DigitValue(s[|s| - 1])
  }

  function DigitChar(d: nat): (c: char)
    requires d < 10
    ensures IsDigit(c) && DigitValue(c) == d
  {
    ('0' as int + d) as char
  }

  /** `str(n)` for a non-negative integer: decimal, no leading zero. */
  function NatToString(n: nat): (s: string)
    ensures s != [] && AllDigits(s)
    ensures |s| > 1 ==> s[0] != '0'
  {
    if n < 10 then [DigitChar(n)] else NatToString(n / 10) + [DigitChar(n % 10)]
  }

  lemma {:induction false} NatToStringValue(n: nat)
    ensures DigitsValue(NatToString(n)) == n
  {
    var s := NatToString(n);
    if n >= 10 {
      NatToStringValue(n / 10);
      assert s[..|s| - 1] == NatToString(n / 10);
    }
  }

  /** Printing then reading back gives the number, and the printed form is
      exactly the digit run a parser scanning digits would consume. */
  lemma NatToStringSpan(n: nat, rest: string)
    requires rest == [] || !IsDigit(rest[0])
    ensures SpanDigits(NatToString(n) + rest) == |NatToString(n)|
    ensures (NatToString(n) + rest)[..|NatToString(n)|] == NatToString(n)
    ensures DigitsValue(NatToString(n)) == n
  {
    NatToStringValue(n);
    SpanAllDigits(NatToString(n), rest);
  }

  lemma {:induction false} SpanAllDigits(s: string, rest: string)
    requires AllDigits(s)
    requires rest == [] || !IsDigit(rest[0])
    ensures SpanDigits(s + rest) == |s|
  {
    if s != [] {
      assert (s + rest)[1..] == s[1..] + rest;
      SpanAllDigits(s[1..], rest);
    }
  }

  predicate StartsWith(s: string, prefix: string) {
    |prefix| <= |s| && s[..|prefix|] == prefix
  }

  predicate EndsWith(s: string, suffix: string) {
    |suffix| <= |s| && s[|s| - |suffix|..] == suffix
  }

  /** `needle in s` */
  predicate Contains(s: string, needle: string) {
    exists k :: 0 <= k <= |s| - |needle| && OccursAt(s, needle, k)
  }

  /** `s.replace(pat, "")` for a non-empty `pat`: removes occurrences left to right. */
  function RemoveAll(s: string, pat: string): (r: string)
    requires pat != []
    ensures |r| <= |s|
    decreases |s|
  {
    if |s| < |pat| then s
    else if s[..|pat|] == pat then RemoveAll(s[|pat|..], pat)
    else [s[0]] + RemoveAll(s[1..], pat)
  }

  /** Text without the pattern comes through `replace` unchanged. */
  lemma {:induction false} RemoveAllAbsent(s: string, pat: string)
    requires pat != [] && !Contains(s, pat)
    ensures RemoveAll(s, pat) == s
  {
    if |s| >= |pat| {
      assert !OccursAt(s, pat, 0);
      assert !Contains(s[1..], pat) by {
        forall k | 0 <= k <= |s[1..]| - |pat| ensures !OccursAt(s[1..], pat, k) {
          assert !OccursAt(s, pat, k + 1);
          assert s[1..][k..k + |pat|] == s[k + 1..k + 1 + |pat|];
        }
      }
      RemoveAllAbsent(s[1..], pat);
    }
  }

  /** A leading copy of the pattern is removed by `replace`. */
  lemma RemoveAllPrefix(pat: string, x: string)
    requires pat != []
    ensures RemoveAll(pat + x, pat) == RemoveAll(x, pat)
  {
    assert (pat + x)[..|pat|] == pat;
    assert (pat + x)[|pat|..] == x;
  }

  /** Index of the first `c` in `s`, if any (`s.find(c)`). */
  function FindChar(s: string, c: char): (r: Option<nat>)
    ensures r.None? ==> c !in s
    ensures r.Some? ==> r.value < |s| && s[r.value] == c && c !in s[..r.value]
  {
    if s == [] then None
    else if s[0] == c then Some(0)
    else match FindChar(s[1..], c)
      case None => None
      case Some(k) => assert s[1..][..k] == s[1..k + 1]; Some(k + 1)
  }

  /** `s.split(c)[0]`: the text before the first `c`, or all of `s`. */
  function BeforeFirst(s: string, c: char): (r: string)
    ensures c !in r
    ensures StartsWith(s, r)
    ensures r == s <==> c !in s
    ensures c in s ==> s[|r|] == c
  {
    match FindChar(s, c)
    case None => s
    case Some(k) => s[..k]
  }

  lemma ConcatAssoc(a: string, b: string, c: string)
    ensures a + b + c == a + (b + c)
  {
  }

  /** Leading whitespace is all `lstrip()` looks past. */
  lemma {:induction false} LStripSpacePrefix(a: string, x: string)
    requires AllSpace(a)
    ensures LStrip(a + x) == LStrip(x)
  {
    if a != [] {
      assert IsSpace((a + x)[0]) by { assert (a + x)[0] == a[0]; }
      assert (a + x)[1..] == a[1..] + x;
      assert AllSpace(a[1..]) by {
        forall i | 0 <= i < |a| - 1 ensures IsSpace(a[1..][i]) {
          assert a[1..][i] == a[i + 1];
        }
      }
      LStripSpacePrefix(a[1..], x);
    } else {
      assert a + x == x;
    }
  }

  /** Once `lstrip()` reaches a non-space character, what follows is kept. */
  lemma {:induction false} LStripAppend(x: string, b: string)
    requires LStrip(x) != []
    ensures LStrip(x + b) == LStrip(x) + b
  {
    assert (x + b)[0] == x[0];
    if IsSpace(x[0]) {
      assert (x + b)[1..] == x[1..] + b;
      LStripAppend(x[1..], b);
    } else {
      assert LStrip(x) == x && LStrip(x + b) == x + b;
    }
  }

  /** Trailing whitespace is all `rstrip()` looks past. */
  lemma {:induction false} RStripSpaceSuffix(x: string, b: string)
    requires AllSpace(b)
    ensures RStrip(x + b) == RStrip(x)
  {
    if b != [] {
      assert IsSpace((x + b)[|x + b| - 1]) by { assert (x + b)[|x + b| - 1] == b[|b| - 1]; }
      assert (x + b)[..|x + b| - 1] == x + b[..|b| - 1];
      var front := b[..|b| - 1];
      assert AllSpace(front) by {
        forall i | 0 <= i < |front| ensures IsSpace(front[i]) {
          assert front[i] == b[i];
        }
      }
      RStripSpaceSuffix(x, b[..|b| - 1]);
    } else {
      assert x + b == x;
    }
  }

  /** `strip()` ignores whitespace added around its argument. */
  lemma StripPadded(a: string, s: string, b: string)
    requires AllSpace(a) && AllSpace(b)
    ensures Strip(a + s + b) == Strip(s)
  {
    assert a + s + b == a + (s + b);
    LStripSpacePrefix(a, s + b);
    if LStrip(s) != [] {
      LStripAppend(s, b);
      RStripSpaceSuffix(LStrip(s), b);
    } else {
      LStripRemovesSpace(s);
      assert s[..|s|] == s;
      LStripSpacePrefix(s, b);
      LStripSpacePrefix(b, []);
      assert b + [] == b;
    }
  }

  /** `s` and `t` compare equal under `re.IGNORECASE`, position by position. */
  predicate FoldEq(s: string, t: string) {
    |s| == |t| && forall i :: 0 <= i < |s| ==> Fold(s[i]) == Fold(t[i])
  }

  /** Digits, whitespace and `-` match only themselves when case is ignored. */
  lemma FoldFixed(x: char, y: char)
    requires Fold(x) == Fold(y)
    requires IsDigit(x) || IsSpace(x) || x == '-'
    ensures x == y
  {
  }

  lemma FoldEqSlice(s: string, t: string, i: nat, j: nat)
    requires FoldEq(s, t) && i <= j <= |s|
    ensures FoldEq(s[i..j], t[i..j])
  {
    forall k | 0 <= k < j - i
      ensures Fold(s[i..j][k]) == Fold(t[i..j][k])
    {
      assert s[i..j][k] == s[i + k] && t[i..j][k] == t[i + k];
    }
  }

  lemma FoldEqDrop(s: string, t: string, i: nat)
    requires FoldEq(s, t) && i <= |s|
    ensures FoldEq(s[i..], t[i..])
  {
    FoldEqSlice(s, t, i, |s|);
    assert s[i..|s|] == s[i..] && t[i..|t|] == t[i..];
  }

  lemma {:induction false} SpanDigitsFold(s: string, t: string)
    requires FoldEq(s, t)
    ensures SpanDigits(s) == SpanDigits(t)
  {
    if s != [] {
      if IsDigit(s[0]) {
        FoldFixed(s[0], t[0]);
      } else if IsDigit(t[0]) {
        FoldFixed(t[0], s[0]);
      }
      FoldEqDrop(s, t, 1);
      SpanDigitsFold(s[1..], t[1..]);
    }
  }

  /** A digit run matched case-insensitively is the same run. */
  lemma DigitsFold(s: string, t: string)
    requires FoldEq(s, t) && AllDigits(s)
    ensures s == t
  {
    forall i | 0 <= i < |s|
      ensures s[i] == t[i]
    {
      FoldFixed(s[i], t[i]);
    }
  }

  lemma {:induction false} LStripFold(s: string, t: string)
    requires FoldEq(s, t)
    ensures |LStrip(s)| == |LStrip(t)|
  {
    if s != [] {
      if IsSpace(s[0]) {
        FoldFixed(s[0], t[0]);
      } else if IsSpace(t[0]) {
        FoldFixed(t[0], s[0]);
      }
      FoldEqDrop(s, t, 1);
      LStripFold(s[1..], t[1..]);
    }
  }

  lemma {:induction false} RStripFold(s: string, t: string)
    requires FoldEq(s, t)
    ensures |RStrip(s)| == |RStrip(t)|
  {
    if s != [] {
      var n := |s| - 1;
      if IsSpace(s[n]) {
        FoldFixed(s[n], t[n]);
      } else if IsSpace(t[n]) {
        FoldFixed(t[n], s[n]);
      }
      FoldEqSlice(s, t, 0, n);
      RStripFold(s[..n], t[..n]);
    }
  }

  /** `strip()` cuts case-insensitively equal texts at the same places. */
  lemma StripFold(s: string, t: string)
    requires FoldEq(s, t)
    ensures FoldEq(Strip(s), Strip(t))
  {
    LStripFold(s, t);
    var k := |s| - |LStrip(s)|;
    FoldEqDrop(s, t, k);
    RStripFold(LStrip(s), LStrip(t));
    FoldEqSlice(LStrip(s), LStrip(t), 0, |RStrip(LStrip(s))|);
  }

  /** `upper()` leaves a text equal to itself under `re.IGNORECASE`. */
  lemma UpperFold(s: string)
    ensures FoldEq(AsciiUpper(s), s)
  {
  }
}
