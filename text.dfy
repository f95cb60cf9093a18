/** The parts of Python's `str` that the runner and the helpers rely on:
    whitespace, `strip`, `lower`, `startswith`, `endswith`, `in`, `"".join`
    and the decimal rendering of integers by f-strings. */
module Text {

  /** `str.isspace()` for one character: exactly the characters `str.strip()`
      removes and the regular-expression class `\s` matches in a `str` pattern. */
  predicate IsSpace(c: char) {
    || c == '\t' || c == '\n' || c == '\U{B}' || c == '\U{C}' || c == '\r'
    || ('\U{1C}' <= c <= '\U{1F}') || c == ' ' || c == '\U{85}' || c == '\U{A0}'
    || c == '\U{1680}' || ('\U{2000}' <= c <= '\U{200A}') || c == '\U{2028}'
    || c == '\U{2029}' || c == '\U{202F}' || c == '\U{205F}' || c == '\U{3000}'
  }

  /** `x` lies in the run of ten digits that starts at `start`. */
  predicate InRun(x: int, start: int) {
    start <= x < start + 10
  }

  /** The code points of the runs of ten Unicode decimal digits (category Nd,
      Unicode 15.0) beyond ASCII, apart from the run of fifty mathematical
      digits. */
  predicate InDigitRun(x: int) {
    || InRun(x, 0x660) || InRun(x, 0x6F0) || InRun(x, 0x7C0) || InRun(x, 0x966)
    || InRun(x, 0x9E6) || InRun(x, 0xA66) || InRun(x, 0xAE6) || InRun(x, 0xB66)
    || InRun(x, 0xBE6) || InRun(x, 0xC66) || InRun(x, 0xCE6) || InRun(x, 0xD66)
    || InRun(x, 0xDE6) || InRun(x, 0xE50) || InRun(x, 0xED0) || InRun(x, 0xF20)
    || InRun(x, 0x1040) || InRun(x, 0x1090) || InRun(x, 0x17E0) || InRun(x, 0x1810)
    || InRun(x, 0x1946) || InRun(x, 0x19D0) || InRun(x, 0x1A80) || InRun(x, 0x1A90)
    || InRun(x, 0x1B50) || InRun(x, 0x1BB0) || InRun(x, 0x1C40) || InRun(x, 0x1C50)
    || InRun(x, 0xA620) || InRun(x, 0xA8D0) || InRun(x, 0xA900) || InRun(x, 0xA9D0)
    || InRun(x, 0xA9F0) || InRun(x, 0xAA50) || InRun(x, 0xABF0) || InRun(x, 0xFF10)
    || InRun(x, 0x104A0) || InRun(x, 0x10D30) || InRun(x, 0x11066) || InRun(x, 0x110F0)
    || InRun(x, 0x11136) || InRun(x, 0x111D0) || InRun(x, 0x112F0) || InRun(x, 0x11450)
    || InRun(x, 0x114D0) || InRun(x, 0x11650) || InRun(x, 0x116C0) || InRun(x, 0x11730)
    || InRun(x, 0x118E0) || InRun(x, 0x11950) || InRun(x, 0x11C50) || InRun(x, 0x11D50)
    || InRun(x, 0x11DA0) || InRun(x, 0x11F50) || InRun(x, 0x16A60) || InRun(x, 0x16AC0)
    || InRun(x, 0x16B50) || InRun(x, 0x1E140) || InRun(x, 0x1E2F0) || InRun(x, 0x1E4F0)
    || InRun(x, 0x1E950) || InRun(x, 0x1FBF0)
  }

  /** The regular-expression class `\d` in a `str` pattern. */
  predicate IsDecimalDigit(c: char) {
    || ('0' <= c <= '9')
    || InDigitRun(c as int)
    || (0x1D7CE <= c as int < 0x1D800)
  }

  predicate AllSpace(s: string) {
    forall i :: 0 <= i < |s| ==> IsSpace(s[i])
  }

  predicate StartsWith(s: string, prefix: string) {
    |prefix| <= |s| && s[..|prefix|] == prefix
  }

  predicate EndsWith(s: string, suffix: string) {
    |suffix| <= |s| && s[|s| - |suffix|..] == suffix
  }

  /** `t` occurs in `s` starting at position `i`. */
  predicate OccursAt(s: string, t: string, i: int) {
    0 <= i && i + |t| <= |s| && s[i..i + |t|] == t
  }

  /** `t in s`: `t` occurs in `s` as a contiguous piece. */
  predicate Contains(s: string, t: string)
    decreases |s|
  {
    StartsWith(s, t) || (s != [] && Contains(s[1..], t))
  }

  /** `Contains` agrees with the positional reading of `t in s`. */
  lemma {:induction false} ContainsIff(s: string, t: string)
    ensures Contains(s, t) <==> exists i :: OccursAt(s, t, i)
    decreases |s|
  {
    if StartsWith(s, t) {
      assert OccursAt(s, t, 0);
    } else if s == [] {
    } else {
      ContainsIff(s[1..], t);
      if exists i :: OccursAt(s, t, i) {
        var i :| OccursAt(s, t, i);
        assert i != 0;
        assert OccursAt(s[1..], t, i - 1) by {
          assert s[1..][i - 1..i - 1 + |t|] == s[i..i + |t|];
        }
      }
      if Contains(s[1..], t) {
        var i :| OccursAt(s[1..], t, i);
        assert OccursAt(s, t, i + 1) by {
          assert s[1..][i..i + |t|] == s[i + 1..i + 1 + |t|];
        }
      }
    }
  }

  /** An occurrence survives text added on either side. */
  lemma {:induction false} ContainsWithin(a: string, s: string, b: string, t: string)
    requires Contains(s, t)
    ensures Contains(a + s + b, t)
  {
    ContainsIff(s, t);
    var i :| OccursAt(s, t, i);
    assert OccursAt(a + s + b, t, |a| + i) by {
      assert (a + s + b)[|a| + i..|a| + i + |t|] == s[i..i + |t|];
    }
    ContainsIff(a + s + b, t);
  }

  /** Python's `str.strip()` (no argument). */
  function TrimStart(s: string): string {
    if s != [] && IsSpace(s[0]) then TrimStart(s[1..]) else s
  }

  function TrimEnd(s: string): string {
    if s != [] && IsSpace(s[|s| - 1]) then TrimEnd(s[..|s| - 1]) else s
  }

  function Strip(s: string): string {
    TrimEnd(TrimStart(s))
  }

  /** `TrimStart` removes a whitespace-only prefix and stops at the first
      non-whitespace character. */
  lemma {:induction false} TrimStartSpec(s: string)
    ensures var r := TrimStart(s);
      |r| <= |s| && r == s[|s| - |r|..] && AllSpace(s[..|s| - |r|]) && (r != [] ==> !IsSpace(r[0]))
  {
    if s != [] && IsSpace(s[0]) {
      TrimStartSpec(s[1..]);
      var r := TrimStart(s);
      assert s[..|s| - |r|] == [s[0]] + s[1..][..|s| - 1 - |r|];
    }
  }

  /** `TrimEnd` removes a whitespace-only suffix and stops at the last
      non-whitespace character. */
  lemma {:induction false} TrimEndSpec(s: string)
    ensures var r := TrimEnd(s);
      |r| <= |s| && r == s[..|r|] && AllSpace(s[|r|..]) && (r != [] ==> !IsSpace(r[|r| - 1]))
  {
    if s != [] && IsSpace(s[|s| - 1]) {
      TrimEndSpec(s[..|s| - 1]);
      var r := TrimEnd(s);
      assert s[|r|..] == s[..|s| - 1][|r|..] + [s[|s| - 1]];
    }
  }

  /** `s.strip()` is empty exactly when `s` is whitespace only. */
  lemma {:induction false} StripEmptyIff(s: string)
    ensures Strip(s) == "" <==> AllSpace(s)
  {
    var t := TrimStart(s);
    TrimStartSpec(s);
    TrimEndSpec(t);
    if Strip(s) == "" {
      assert s[..|s|] == s;
    }
  }

  /** Python's `str.lower()`, on ASCII letters (see README for why this suffices). */
  function LowerChar(c: char): char {
    if 'A' <= c <= 'Z' then (c as int + 32) as char else c
  }

  function Lower(s: string): (r: string)
    ensures |r| == |s|
    ensures forall i :: 0 <= i < |s| ==> r[i] == LowerChar(s[i])
  {
    if s == [] then [] else [LowerChar(s[0])] + Lower(s[1..])
  }

  lemma {:induction false} LowerAppend(a: string, b: string)
    ensures Lower(a + b) == Lower(a) + Lower(b)
  {
    var l, r := Lower(a + b), Lower(a) + Lower(b);
    forall i | 0 <= i < |a + b|
      ensures l[i] == r[i]
    {
      if i < |a| {
        assert (a + b)[i] == a[i];
      } else {
        assert (a + b)[i] == b[i - |a|];
      }
    }
  }

  /** `"".join(ss)`. */
  function Concat(ss: seq<string>): string {
    if ss == [] then "" else ss[0] + Concat(ss[1..])
  }

  lemma {:induction false} ConcatAppend(a: seq<string>, b: seq<string>)
    ensures Concat(a + b) == Concat(a) + Concat(b)
  {
    if a == [] {
      assert a + b == b;
    } else {
      assert (a + b)[1..] == a[1..] + b;
      ConcatAppend(a[1..], b);
    }
  }

  /** f-string rendering of a non-negative and of any integer. */
  function DigitChar(d: nat): (c: char)
    requires d < 10
    ensures '0' <= c <= '9' && c as int - '0' as int == d
  {
    "0123456789"[d]
  }

  function NatToString(n: nat): string
    decreases n
  {
    if n < 10 then [DigitChar(n)] else NatToString(n / 10) + [DigitChar(n % 10)]
  }

  function IntToString(i: int): string {
    if i < 0 then "-" + NatToString(-i) else NatToString(i)
  }

  predicate IsDigitString(s: string) {
    s != [] && forall i :: 0 <= i < |s| ==> '0' <= s[i] <= '9'
  }

  /** The position of the first `c` in `s`, or `|s|` when there is none. */
  function IndexOf(s: string, c: char): (k: nat)
    ensures k <= |s|
    ensures forall j :: 0 <= j < k ==> s[j] != c
    ensures k < |s| ==> s[k] == c
  {
    if s == [] then 0 else if s[0] == c then 0 else 1 + IndexOf(s[1..], c)
  }

  /** The inverse of `NatToString`: the value of a string of ASCII digits. */
  function ParseNat(s: string): nat
    requires forall i :: 0 <= i < |s| ==> '0' <= s[i] <= '9'
  {
    if s == [] then 0 else 10 * ParseNat(s[..|s| - 1]) + (s[|s| - 1] as int - '0' as int)
  }

  lemma {:induction false} NatToStringRoundTrip(n: nat)
    ensures IsDigitString(NatToString(n))
    ensures ParseNat(NatToString(n)) == n
    decreases n
  {
    if n >= 10 {
      NatToStringRoundTrip(n / 10);
      var s := NatToString(n);
      assert s[..|s| - 1] == NatToString(n / 10);
    }
  }

  /** Different numbers are rendered differently. */
  lemma {:induction false} NatToStringInjective(m: nat, n: nat)
    requires NatToString(m) == NatToString(n)
    ensures m == n
  {
    NatToStringRoundTrip(m);
    NatToStringRoundTrip(n);
  }
}
