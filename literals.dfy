/**
  Text-level helpers shared by the transformers, the extractors and the
  date-time model: decimal digits, zero-padded numbers, whitespace
  stripping, the number literals `int()`, `float()` and `Decimal()`
  accept, ASCII lower-casing and `str.replace('Z', '+00:00')`.
 */
module Literals {
  import opened Wrappers

  predicate IsDigit(c: char) { '0' <= c <= '9' }

  predicate AllDigits(s: string) { forall i :: 0 <= i < |s| ==> IsDigit(s[i]) }

  function DigitValue(c: char): nat
    requires IsDigit(c)
  {
    c as int - '0' as int
  }

  function DigitChar(d: nat): (c: char)
    requires d < 10
    ensures IsDigit(c) && DigitValue(c) == d
  {
    ('0' as int + d) as char
  }

  /** The value of a string of decimal digits, read left to right. */
  function DigitsValue(s: string): nat
    requires AllDigits(s)
  {
    if s == [] then 0 else DigitsValue(s[..|s| - 1]) * 10 + DigitValue(s[|s| - 1])
  }

  function Pow10(n: nat): (r: nat)
    ensures r >= 1
  {
    if n == 0 then 1 else 10 * Pow10(n - 1)
  }

  /** The last `width` decimal digits of `n`, zero-padded on the left (`%0<width>d` for n < 10^width). */
  function Pad(n: nat, width: nat): (r: string)
    ensures |r| == width && AllDigits(r)
  {
    if width == 0 then [] else Pad(n / 10, width - 1) + [DigitChar(n % 10)]
  }

  /** Reading back a zero-padded number gives the number: padding loses nothing below 10^width. */
  lemma {:induction false} PadRoundTrip(n: nat, width: nat)
    requires n < Pow10(width)
    ensures DigitsValue(Pad(n, width)) == n
  {
    if width > 0 {
      var p := Pad(n, width);
      assert n / 10 < Pow10(width - 1);
      PadRoundTrip(n / 10, width - 1);
      assert p[..width - 1] == Pad(n / 10, width - 1);
      assert p[width - 1] == DigitChar(n % 10);
    }
  }

  /** Distinct numbers below 10^width have distinct padded forms. */
  lemma PadInjective(a: nat, b: nat, width: nat)
    requires a < Pow10(width) && b < Pow10(width)
    requires Pad(a, width) == Pad(b, width)
    ensures a == b
  {
    PadRoundTrip(a, width);
    PadRoundTrip(b, width);
  }

  /** Python's whitespace (`str.isspace()`), which `int()`, `float()` and `Decimal()` strip from both ends. */
  predicate IsSpace(c: char) {
    var n := c as int;
    || 0x09 <= n <= 0x0D || 0x1C <= n <= 0x20 || n == 0x85 || n == 0xA0 || n == 0x1680
    || 0x2000 <= n <= 0x200A || n == 0x2028 || n == 0x2029 || n == 0x202F || n == 0x205F || n == 0x3000
  }

  predicate AllSpace(s: string) { forall i :: 0 <= i < |s| ==> IsSpace(s[i]) }

  /** `s.lstrip()`. */
  function StripStart(s: string): (r: string)
    ensures |r| <= |s|
    ensures s != [] && !IsSpace(s[0]) ==> r == s
  {
    if s != [] && IsSpace(s[0]) then StripStart(s[1..]) else s
  }

  /** `s.rstrip()`. */
  function StripEnd(s: string): (r: string)
    ensures |r| <= |s|
    ensures s != [] && !IsSpace(s[|s| - 1]) ==> r == s
  {
    if s != [] && IsSpace(s[|s| - 1]) then StripEnd(s[..|s| - 1]) else s
  }

  /** `s.strip()`. */
  function Strip(s: string): (r: string)
    ensures |r| <= |s|
  {
    StripEnd(StripStart(s))
  }

  /** Stripping removes exactly the whitespace around a text that starts and ends with something else. */
  lemma StripAround(pre: string, t: string, post: string)
    requires AllSpace(pre) && AllSpace(post)
    requires t != [] && !IsSpace(t[0]) && !IsSpace(t[|t| - 1])
    ensures Strip(pre + t + post) == t
  {
    StripStartSpace(pre, t + post);
    assert pre + t + post == pre + (t + post);
    StripEndSpace(t, post);
  }

  lemma {:induction false} StripStartSpace(pre: string, u: string)
    requires AllSpace(pre) && u != [] && !IsSpace(u[0])
    ensures StripStart(pre + u) == u
  {
    if pre != [] {
      assert (pre + u)[1..] == pre[1..] + u;
      StripStartSpace(pre[1..], u);
    }
  }

  lemma {:induction false} StripEndSpace(t: string, post: string)
    requires AllSpace(post) && t != [] && !IsSpace(t[|t| - 1])
    ensures StripEnd(t + post) == t
  {
    if post != [] {
      var n := |post| - 1;
      assert (t + post)[..|t + post| - 1] == t + post[..n];
      StripEndSpace(t, post[..n]);
    }
  }

  predicate DigitsOrUnderscores(s: string) { forall i :: 0 <= i < |s| ==> IsDigit(s[i]) || s[i] == '_' }

  /** Digits with single underscores between them, as Python's number literals allow (`1_000`). */
  predicate DigitGroups(s: string) {
    && |s| > 0 && IsDigit(s[0]) && IsDigit(s[|s| - 1])
    && DigitsOrUnderscores(s)
    && (forall i :: 0 <= i < |s| - 1 && s[i] == '_' ==> IsDigit(s[i + 1]))
  }

  /** The digits of `s` with its underscores dropped. */
  function Underscoreless(s: string): (r: string)
    ensures DigitsOrUnderscores(s) ==> AllDigits(r)
    ensures AllDigits(s) ==> r == s
  {
    if s == [] then [] else (if s[0] == '_' then [] else [s[0]]) + Underscoreless(s[1..])
  }

  /** The value of grouped digits: underscores carry no value. */
  function GroupsValue(s: string): nat
    requires DigitsOrUnderscores(s)
  {
    DigitsValue(Underscoreless(s))
  }

  /**
    The literals `int(str)` accepts here: surrounding whitespace, an
    optional sign, then digits grouped by single underscores.
   */
  function ParseInt(s: string): (r: Option<int>)
    ensures r.Some? ==> |s| > 0
    ensures AllDigits(s) && |s| > 0 ==> r == Some(DigitsValue(s) as int)
  {
    SignedGroups(Strip(s))
  }

  /** An optional sign, then grouped digits. */
  function SignedGroups(t: string): (r: Option<int>)
    ensures r.Some? ==> |t| > 0
    ensures DigitGroups(t) ==> r == Some(GroupsValue(t) as int)
  {
    if |t| > 0 && (t[0] == '+' || t[0] == '-') then
      if DigitGroups(t[1..]) then
        Some(if t[0] == '-' then -(GroupsValue(t[1..]) as int) else GroupsValue(t[1..]) as int)
      else None
    else if DigitGroups(t) then Some(GroupsValue(t) as int)
    else None
  }

  /** `int()` ignores whitespace around the literal: `int(" 42\n") == 42`. */
  lemma ParseIntStrips(pre: string, t: string, post: string)
    requires AllSpace(pre) && AllSpace(post)
    requires t != [] && !IsSpace(t[0]) && !IsSpace(t[|t| - 1])
    ensures ParseInt(pre + t + post) == ParseInt(t)
  {
    StripAround(pre, t, post);
    assert Strip(t) == t;
  }

  /** An underscore between two runs of digits only groups them: `int("1_000") == 1000`. */
  lemma ParseIntGrouped(a: string, b: string)
    requires AllDigits(a) && AllDigits(b) && a != [] && b != []
    ensures ParseInt(a + "_" + b) == Some(DigitsValue(a + b) as int)
  {
    GroupedDigits(a, b);
    ParseIntOfGroups(a + "_" + b);
    UnderscoreDropped(a, b);
  }

  lemma UnderscoreDropped(a: string, b: string)
    requires AllDigits(a) && AllDigits(b)
    ensures Underscoreless(a + "_" + b) == a + b
  {
    var u := "_" + b;
    assert u[0] == '_' && u[1..] == b;
    assert Underscoreless(u) == b;
    assert a + "_" + b == a + u;
    UnderscorelessAppend(a, u);
  }

  /** Grouped digits with no sign read as their value. */
  lemma ParseIntOfGroups(t: string)
    requires DigitGroups(t)
    ensures ParseInt(t) == Some(GroupsValue(t) as int)
  {
    StripAround([], t, []);
    assert [] + t + [] == t;
  }

  /** Two runs of digits joined by one underscore are grouped digits. */
  lemma GroupedDigits(a: string, b: string)
    requires AllDigits(a) && AllDigits(b) && a != [] && b != []
    ensures DigitGroups(a + "_" + b)
  {
    var t := a + "_" + b;
    forall i | 0 <= i < |t|
      ensures (i != |a| ==> IsDigit(t[i])) && (i == |a| ==> t[i] == '_')
    {
      if i < |a| {
        assert t[i] == a[i];
      } else if i > |a| {
        assert t[i] == b[i - |a| - 1];
      }
    }
  }

  lemma {:induction false} UnderscorelessAppend(a: string, b: string)
    ensures Underscoreless(a + b) == Underscoreless(a) + Underscoreless(b)
  {
    if a == [] {
      assert a + b == b;
    } else {
      var ab := a + b;
      assert ab[0] == a[0] && ab[1..] == a[1..] + b;
      UnderscorelessAppend(a[1..], b);
    }
  }

  /** Index of the first '.', or |s| when there is none. */
  function PointIndex(s: string): (k: nat)
    ensures k <= |s|
    ensures k < |s| ==> s[k] == '.'
    ensures forall i :: 0 <= i < k ==> s[i] != '.'
  {
    if s == [] then 0 else if s[0] == '.' then 0 else 1 + PointIndex(s[1..])
  }

  /** Grouped digits, optionally a point and more grouped digits, with at least one digit in all. */
  function ParseUnsignedDecimal(s: string): (r: Option<real>)
    ensures DigitGroups(s) ==> r == Some(GroupsValue(s) as real)
  {
    if DigitGroups(s) then Some(GroupsValue(s) as real)
    else
      var k := PointIndex(s);
      if k < |s| && (k > 0 || k + 1 < |s|)
         && (k == 0 || DigitGroups(s[..k])) && (k + 1 == |s| || DigitGroups(s[k + 1..]))
      then
        assert DigitsOrUnderscores(s[..k]) && DigitsOrUnderscores(s[k + 1..]);
        Some(GroupsValue(s[..k]) as real
             + (GroupsValue(s[k + 1..]) as real) / (Pow10(|Underscoreless(s[k + 1..])|) as real))
      else None
  }

  /**
    The positional literals `Decimal(s)` and `float(s)` accept: surrounding
    whitespace, an optional sign, then a decimal.
   */
  function ParseDecimal(s: string): (r: Option<real>)
    ensures ParseInt(s).Some? ==> r == Some(ParseInt(s).value as real)
  {
    var t := Strip(s);
    if |t| > 0 && (t[0] == '+' || t[0] == '-') then
      match ParseUnsignedDecimal(t[1..])
      case Some(x) => Some(if t[0] == '-' then -x else x)
      case None => None
    else ParseUnsignedDecimal(t)
  }

  /** ASCII `str.lower()`: exact for the comparisons with ASCII words the transformers make. */
  function Lower(s: string): (r: string)
    ensures |r| == |s|
  {
    if s == [] then []
    else [if 'A' <= s[0] <= 'Z' then (s[0] as int + 32) as char else s[0]] + Lower(s[1..])
  }

  /** `t in s` for strings: `t` occurs in `s` as a contiguous substring. */
  predicate Contains(s: string, t: string)
    decreases |s|
  {
    if |s| < |t| then false else s[..|t|] == t || Contains(s[1..], t)
  }

  /** `s.replace('Z', '+00:00')`: every 'Z' becomes a zero UTC offset. */
  function ReplaceZ(s: string): (r: string)
    ensures 'Z' !in s ==> r == s
  {
    if s == [] then [] else (if s[0] == 'Z' then "+00:00" else [s[0]]) + ReplaceZ(s[1..])
  }

  /** Replacing distributes over concatenation. */
  lemma {:induction false} ReplaceZAppend(a: string, b: string)
    ensures ReplaceZ(a + b) == ReplaceZ(a) + ReplaceZ(b)
  {
    if a == [] {
      assert a + b == b;
    } else {
      assert (a + b)[0] == a[0];
      assert (a + b)[1..] == a[1..] + b;
      ReplaceZAppend(a[1..], b);
    }
  }
}
