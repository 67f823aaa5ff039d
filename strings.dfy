/**
 * The string operations the adapters use, with Python's meaning:
 * `str.strip()`, `str.replace(" ", "")`, `str.isdigit()`, `str.lower()`,
 * `str.upper()`, `sep.join(...)`, `sub in s`, `str(int)` and the
 * `:.2f` / `:,.2f` float formats.
 */
module Strings {

  /** Python's `str.isspace()` character set (the characters `str.strip()` removes). */
  predicate IsPySpace(c: char) {
    ('\U{9}' <= c <= '\U{D}') || ('\U{1C}' <= c <= '\U{20}') || c == '\U{85}' || c == '\U{A0}'
    || c == '\U{1680}' || ('\U{2000}' <= c <= '\U{200A}') || c == '\U{2028}' || c == '\U{2029}'
    || c == '\U{202F}' || c == '\U{205F}' || c == '\U{3000}'
  }

  predicate IsDigit(c: char) { '0' <= c <= '9' }

  /** `s.isdigit()` for the ASCII digits: true only of a non-empty all-digit string. */
  predicate IsDigits(s: string) {
    s != [] && forall i :: 0 <= i < |s| ==> IsDigit(s[i])
  }

  /** `s.lstrip()` */
  function StripLeft(s: string): (r: string)
    ensures |r| <= |s| && r == s[|s| - |r|..]
    ensures r == [] || !IsPySpace(r[0])
  {
    if s != [] && IsPySpace(s[0]) then StripLeft(s[1..]) else s
  }

  lemma StripLeftSpace(c: char, s: string)
    requires IsPySpace(c)
    ensures StripLeft([c] + s) == StripLeft(s)
  {
    assert ([c] + s)[1..] == s;
  }

  lemma StripLeftNoSpace(s: string)
    requires s != [] && !IsPySpace(s[0])
    ensures StripLeft(s) == s
  {
  }

  /** `s.rstrip()` */
  function StripRight(s: string): (r: string)
    ensures |r| <= |s| && r == s[..|r|]
    ensures r == [] || !IsPySpace(r[|r| - 1])
  {
    if s != [] && IsPySpace(s[|s| - 1]) then StripRight(s[..|s| - 1]) else s
  }

  /** `s.strip()` */
  function Strip(s: string): string {
    StripRight(StripLeft(s))
  }

  /** `s.replace(" ", "")` */
  function RemoveSpaces(s: string): (r: string)
    ensures |r| <= |s|
    ensures forall i :: 0 <= i < |r| ==> r[i] != ' '
  {
    if s == [] then [] else (if s[0] == ' ' then [] else [s[0]]) + RemoveSpaces(s[1..])
  }

  lemma {:induction false} RemoveSpacesConcat(a: string, b: string)
    ensures RemoveSpaces(a + b) == RemoveSpaces(a) + RemoveSpaces(b)
  {
    if a != [] {
      assert (a + b)[1..] == a[1..] + b;
      RemoveSpacesConcat(a[1..], b);
    } else {
      assert a + b == b;
    }
  }

  /** Removing the spaces first or stripping first gives the same string. */
  lemma {:induction false} RemoveSpacesStripLeft(s: string)
    ensures RemoveSpaces(StripLeft(s)) == StripLeft(RemoveSpaces(s))
  {
    if s != [] {
      var t := RemoveSpaces(s[1..]);
      if IsPySpace(s[0]) {
        assert StripLeft(s) == StripLeft(s[1..]);
        RemoveSpacesStripLeft(s[1..]);
        if s[0] == ' ' {
          assert RemoveSpaces(s) == t;
        } else {
          assert RemoveSpaces(s) == [s[0]] + t;
          StripLeftSpace(s[0], t);
        }
      } else {
        assert StripLeft(s) == s;
        assert RemoveSpaces(s) == [s[0]] + t;
        StripLeftNoSpace([s[0]] + t);
      }
    }
  }

  lemma {:induction false} RemoveSpacesStripRight(s: string)
    ensures RemoveSpaces(StripRight(s)) == StripRight(RemoveSpaces(s))
  {
    if s != [] {
      var init, c := s[..|s| - 1], s[|s| - 1];
      assert s == init + [c];
      RemoveSpacesConcat(init, [c]);
      assert RemoveSpaces([c]) == (if c == ' ' then [] else [c]);
      if IsPySpace(c) {
        RemoveSpacesStripRight(init);
        if c != ' ' {
          var t := RemoveSpaces(init);
          assert RemoveSpaces(s) == t + [c];
          assert (t + [c])[..|t + [c]| - 1] == t;
        } else {
          assert RemoveSpaces(s) == RemoveSpaces(init);
        }
      }
    }
  }

  lemma RemoveSpacesStrip(s: string)
    ensures RemoveSpaces(Strip(s)) == Strip(RemoveSpaces(s))
  {
    RemoveSpacesStripRight(StripLeft(s));
    RemoveSpacesStripLeft(s);
  }

  /** A character that is not whitespace survives `strip()`. */
  lemma {:induction false} StripKeeps(s: string, i: nat)
    requires i < |s| && !IsPySpace(s[i])
    ensures s[i] in Strip(s)
  {
    StripLeftKeeps(s, i);
    var t := StripLeft(s);
    StripRightKeeps(t, i - (|s| - |t|));
  }

  lemma {:induction false} StripLeftKeeps(s: string, i: nat)
    requires i < |s| && !IsPySpace(s[i])
    ensures |s| - |StripLeft(s)| <= i
  {
    if IsPySpace(s[0]) {
      StripLeftKeeps(s[1..], i - 1);
    }
  }

  lemma {:induction false} StripRightKeeps(s: string, i: int)
    requires 0 <= i < |s| && !IsPySpace(s[i])
    ensures i < |StripRight(s)| && StripRight(s)[i] == s[i]
  {
    if IsPySpace(s[|s| - 1]) {
      StripRightKeeps(s[..|s| - 1], i);
    }
  }

  /** A character other than the space survives `replace(" ", "")`. */
  lemma {:induction false} RemoveSpacesKeeps(s: string, i: nat)
    requires i < |s| && s[i] != ' '
    ensures s[i] in RemoveSpaces(s)
  {
    if i > 0 {
      RemoveSpacesKeeps(s[1..], i - 1);
    }
  }

  /** Strings without whitespace are left alone by `strip()` and `replace(" ", "")`. */
  lemma {:induction false} NoSpaceFixed(s: string)
    requires forall i :: 0 <= i < |s| ==> !IsPySpace(s[i])
    ensures Strip(s) == s && RemoveSpaces(s) == s
  {
    assert s == [] || StripLeft(s) == s;
    assert s == [] || StripRight(s) == s;
    NoSpaceKept(s);
  }

  /** A digit string is left alone by `strip()` and `replace(" ", "")`. */
  lemma DigitsFixed(d: string)
    requires IsDigits(d)
    ensures Strip(d) == d && RemoveSpaces(d) == d
  {
    forall i | 0 <= i < |d|
      ensures !IsPySpace(d[i])
    {
      assert IsDigit(d[i]);
    }
    NoSpaceFixed(d);
  }

  /** A digit string ends in a character that is not whitespace. */
  lemma DigitsEndNoSpace(d: string)
    requires IsDigits(d)
    ensures d != [] && !IsPySpace(d[|d| - 1])
  {
    assert IsDigit(d[|d| - 1]);
  }

  lemma {:induction false} NoSpaceKept(s: string)
    requires forall i :: 0 <= i < |s| ==> s[i] != ' '
    ensures RemoveSpaces(s) == s
  {
    if s != [] {
      NoSpaceKept(s[1..]);
      assert RemoveSpaces(s) == [s[0]] + s[1..];
    }
  }

  /** `sep.join(parts)` */
  function Join(sep: string, parts: seq<string>): string {
    if parts == [] then "" else if |parts| == 1 then parts[0] else parts[0] + sep + Join(sep, parts[1..])
  }

  /** `s.replace(c, by)` for a one-character pattern. */
  function ReplaceChar(s: string, c: char, replacement: string): string
    decreases |s|
  {
    if s == [] then "" else (if s[0] == c then replacement else [s[0]]) + ReplaceChar(s[1..], c, replacement)
  }

  /** `sub in s` */
  predicate IsSubstring(sub: string, s: string) {
    exists i :: 0 <= i <= |s| - |sub| && OccursAt(sub, s, i)
  }

  predicate OccursAt(sub: string, s: string, i: int) {
    0 <= i && i + |sub| <= |s| && s[i..i + |sub|] == sub
  }

  lemma SubstringOfConcat(a: string, b: string, c: string)
    ensures IsSubstring(b, a + b + c)
  {
    assert (a + b + c)[|a|..|a| + |b|] == b;
    assert OccursAt(b, a + b + c, |a|);
  }

  /** Concatenation regrouped; stated once so that loops appending text need not rediscover it. */
  lemma ConcatAssoc(a: string, b: string, c: string)
    ensures (a + b) + c == a + (b + c)
  {
  }

  /** A prefix of a substring is a substring. */
  lemma SubstringOfPart(a: string, b: string, s: string)
    requires IsSubstring(a + b, s)
    ensures IsSubstring(a, s)
  {
    var i :| 0 <= i <= |s| - |a + b| && OccursAt(a + b, s, i);
    assert s[i..i + |a|] == (a + b)[..|a|] == a;
    assert OccursAt(a, s, i);
  }

  /** A substring of a string is a substring of any extension of it. */
  lemma SubstringExtends(sub: string, a: string, b: string)
    requires IsSubstring(sub, a)
    ensures IsSubstring(sub, a + b)
  {
    var i :| 0 <= i <= |a| - |sub| && OccursAt(sub, a, i);
    assert (a + b)[i..i + |sub|] == a[i..i + |sub|];
    assert OccursAt(sub, a + b, i);
  }

  /** A substring of a substring is a substring. */
  lemma SubstringTrans(a: string, b: string, c: string)
    requires IsSubstring(a, b) && IsSubstring(b, c)
    ensures IsSubstring(a, c)
  {
    var i :| 0 <= i <= |b| - |a| && OccursAt(a, b, i);
    var j :| 0 <= j <= |c| - |b| && OccursAt(b, c, j);
    forall k | 0 <= k < |a|
      ensures c[j + i + k] == a[k]
    {
      assert c[j + (i + k)] == c[j..j + |b|][i + k] == b[i + k];
      assert b[i..i + |a|][k] == b[i + k];
    }
    assert c[j + i..j + i + |a|] == a;
    assert OccursAt(a, c, j + i);
  }

  /** A prefix is a substring. */
  lemma PrefixIsSubstring(p: string, s: string)
    requires StartsWith(s, p)
    ensures IsSubstring(p, s)
  {
    assert OccursAt(p, s, 0);
  }

  /** A substring of a string is a substring of that string behind any prefix. */
  lemma SubstringPrepends(sub: string, a: string, b: string)
    requires IsSubstring(sub, b)
    ensures IsSubstring(sub, a + b)
  {
    var i :| 0 <= i <= |b| - |sub| && OccursAt(sub, b, i);
    assert (a + b)[|a| + i..|a| + i + |sub|] == b[i..i + |sub|];
    assert OccursAt(sub, a + b, |a| + i);
  }

  /** `strip()` keeps a prefix that starts and ends with non-whitespace. */
  lemma StripKeepsPrefix(p: string, s: string)
    requires p != [] && !IsPySpace(p[0]) && !IsPySpace(p[|p| - 1])
    ensures StartsWith(Strip(p + s), p)
  {
    var t := p + s;
    assert t[0] == p[0];
    StripLeftNoSpace(t);
    StripRightKeeps(t, |p| - 1);
    var r := StripRight(t);
    assert r[..|p|] == t[..|p|] == p;
  }

  /** A string with no whitespace at either end is its own `strip()`. */
  lemma StripUnchanged(s: string)
    requires s != [] && !IsPySpace(s[0]) && !IsPySpace(s[|s| - 1])
    ensures Strip(s) == s
  {
    StripLeftNoSpace(s);
  }

  /** `s.strip()` leaves nothing more to strip. */
  lemma StripIdempotent(s: string)
    ensures Strip(Strip(s)) == Strip(s)
  {
    var l := StripLeft(s);
    var r := StripRight(l);
    if r != [] {
      assert r[0] == l[0];
      StripUnchanged(r);
    }
  }

  predicate StartsWith(s: string, prefix: string) {
    |prefix| <= |s| && s[..|prefix|] == prefix
  }

  function LowerChar(c: char): char {
    if 'A' <= c <= 'Z' then (c as int + 32) as char else c
  }

  function UpperChar(c: char): char {
    if 'a' <= c <= 'z' then (c as int - 32) as char else c
  }

  /** `s.lower()` on ASCII letters (other characters are kept). */
  function Lower(s: string): (r: string)
    ensures |r| == |s| && forall i :: 0 <= i < |s| ==> r[i] == LowerChar(s[i])
  {
    seq(|s|, i requires 0 <= i < |s| => LowerChar(s[i]))
  }

  /** `s.upper()` on ASCII letters (other characters are kept). */
  function Upper(s: string): (r: string)
    ensures |r| == |s| && forall i :: 0 <= i < |s| ==> r[i] == UpperChar(s[i])
  {
    seq(|s|, i requires 0 <= i < |s| => UpperChar(s[i]))
  }

  function DigitChar(d: nat): char
    requires d < 10
  {
    ('0' as int + d) as char
  }

  /** `str(n)` for a natural number: its decimal digits without leading zeros. */
  function NatToString(n: nat): (r: string)
    ensures IsDigits(r)
    decreases n
  {
    if n < 10 then [DigitChar(n)] else NatToString(n / 10) + [DigitChar(n % 10)]
  }

  /** `str(i)` for an integer. */
  function IntToString(i: int): string {
    if i < 0 then "-" + NatToString(-i) else NatToString(i)
  }

  /** Digits of `n`, left-padded with zeros to at least `width` characters. */
  function PadDigits(n: nat, width: nat): string
    decreases width
  {
    if width <= 1 then NatToString(n)
    else if n < Pow10(width - 1) then "0" + PadDigits(n, width - 1)
    else NatToString(n)
  }

  function Pow10(k: nat): (p: nat)
    ensures p >= 1
  {
    if k == 0 then 1 else 10 * Pow10(k - 1)
  }

  /** `round()` of a non-negative rational to an integer, ties to the even neighbour. */
  function RoundHalfEven(x: real): (n: nat)
    requires x >= 0.0
  {
    var f := x.Floor;
    var frac := x - f as real;
    if frac > 0.5 then f + 1
    else if frac < 0.5 then f
    else if f % 2 == 0 then f else f + 1
  }

  /** Integer part with a comma between every group of three digits (`:,`). */
  function Grouped(n: nat): string
    decreases n
  {
    if n < 1000 then NatToString(n) else Grouped(n / 1000) + "," + PadDigits(n % 1000, 3)
  }

  /** The amount in cents as Python prints it with two decimals; `grouped` inserts thousands separators. */
  function TwoDecimals(x: real, grouped: bool): string {
    var sign := if x < 0.0 then "-" else "";
    var cents := RoundHalfEven(if x < 0.0 then -x * 100.0 else x * 100.0);
    var whole := cents / 100;
    sign + (if grouped then Grouped(whole) else NatToString(whole)) + "." + PadDigits(cents % 100, 2)
  }

  /** `f"{x:.2f}"` */
  function Fixed2(x: real): string {
    TwoDecimals(x, false)
  }

  /** `f"{x:,.2f}"` */
  function Grouped2(x: real): string {
    TwoDecimals(x, true)
  }
}
