/**
 * The JavaScript string built-ins the landing page relies on, on `seq<char>`:
 * `String(n)` for integers, `padStart(2, '0')`, `trim()`, `toLowerCase()`,
 * the `\d` and `\s` character classes, and the decimal value of a digit string.
 */
module Text {

  predicate IsDigit(c: char) { '0' <= c <= '9' }

  predicate AllDigits(s: string) { forall i :: 0 <= i < |s| ==> IsDigit(s[i]) }

  /** The `\s` class of JavaScript regular expressions, which is also what `trim()` removes. */
  predicate IsWhitespace(c: char) {
    var k := c as int;
    k == 0x09 || k == 0x0A || k == 0x0B || k == 0x0C || k == 0x0D || k == 0x20
    || k == 0xA0 || k == 0x1680 || (0x2000 <= k <= 0x200A) || k == 0x2028 || k == 0x2029
    || k == 0x202F || k == 0x205F || k == 0x3000 || k == 0xFEFF
  }

  predicate AllWhitespace(s: string) { forall i :: 0 <= i < |s| ==> IsWhitespace(s[i]) }

  /** Length of the longest prefix of `s` whose characters all satisfy `p`. */
  function Span(s: string, p: char -> bool): (k: nat)
    ensures k <= |s|
    ensures forall j :: 0 <= j < k ==> p(s[j])
    ensures k < |s| ==> !p(s[k])
  {
    if s == [] || !p(s[0]) then 0 else 1 + Span(s[1..], p)
  }

  lemma {:induction false} SpanAppend(s: string, t: string, p: char -> bool)
    requires forall i :: 0 <= i < |s| ==> p(s[i])
    ensures Span(s + t, p) == |s| + Span(t, p)
  {
    if s != [] {
      assert (s + t)[1..] == s[1..] + t;
      SpanAppend(s[1..], t, p);
    } else {
      assert s + t == t;
    }
  }

  lemma {:induction false} SpanStops(s: string, t: string, p: char -> bool)
    requires forall i :: 0 <= i < |s| ==> p(s[i])
    requires t != [] && !p(t[0])
    ensures Span(s + t, p) == |s|
  {
    SpanAppend(s, t, p);
  }

  // ----- toLowerCase -----

  function LowerChar(c: char): (d: char)
    ensures IsDigit(d) <==> IsDigit(c)
    ensures IsWhitespace(d) <==> IsWhitespace(c)
    ensures c == '.' <==> d == '.'
  {
    if 'A' <= c <= 'Z' then (c as int + 32) as char else c
  }

  /** `s.toLowerCase()` on the ASCII letters. */
  function ToLower(s: string): (r: string)
    ensures |r| == |s|
    ensures forall i :: 0 <= i < |s| ==> r[i] == LowerChar(s[i])
  {
    seq(|s|, i requires 0 <= i < |s| => LowerChar(s[i]))
  }

  lemma ToLowerAppend(s: string, t: string)
    ensures ToLower(s + t) == ToLower(s) + ToLower(t)
  {
    assert forall i :: 0 <= i < |s + t| ==> ToLower(s + t)[i] == (ToLower(s) + ToLower(t))[i];
  }

  lemma ToLowerIdempotent(s: string)
    ensures ToLower(ToLower(s)) == ToLower(s)
  {
  }

  lemma {:induction false} SpanToLower(s: string)
    ensures Span(ToLower(s), IsWhitespace) == Span(s, IsWhitespace)
  {
    if s != [] {
      assert ToLower(s)[1..] == ToLower(s[1..]);
      SpanToLower(s[1..]);
    }
  }

  // ----- trim -----

  function TrimStart(s: string): (r: string)
    ensures r == s[Span(s, IsWhitespace)..]
  {
    s[Span(s, IsWhitespace)..]
  }

  function TrimEnd(s: string): (r: string)
    ensures |r| <= |s| && r == s[..|r|]
    ensures r == [] || !IsWhitespace(r[|r| - 1])
    ensures AllWhitespace(s[|r|..])
  {
    if s != [] && IsWhitespace(s[|s| - 1]) then TrimEnd(s[..|s| - 1]) else s
  }

  /** `s.trim()`: the whitespace at both ends removed. */
  function Trim(s: string): (r: string)
    ensures r == [] || (!IsWhitespace(r[0]) && !IsWhitespace(r[|r| - 1]))
  {
    TrimEnd(TrimStart(s))
  }

  /** What `trim()` keeps is a contiguous piece of the input. */
  lemma TrimIsSlice(s: string)
    ensures Span(s, IsWhitespace) + |Trim(s)| <= |s|
    ensures Trim(s) == s[Span(s, IsWhitespace)..Span(s, IsWhitespace) + |Trim(s)|]
  {
  }

  lemma {:induction false} TrimEndPadded(s: string, w: string)
    requires AllWhitespace(w)
    ensures TrimEnd(s + w) == TrimEnd(s)
    decreases |w|
  {
    if w != [] {
      var sw := s + w;
      assert sw[..|sw| - 1] == s + w[..|w| - 1];
      TrimEndPadded(s, w[..|w| - 1]);
    } else {
      assert s + w == s;
    }
  }

  lemma {:induction false} TrimEndAllWhitespace(w: string)
    requires AllWhitespace(w)
    ensures TrimEnd(w) == []
  {
    TrimEndPadded([], w);
    assert [] + w == w;
  }

  lemma {:induction false} TrimEndToLower(s: string)
    ensures TrimEnd(ToLower(s)) == ToLower(TrimEnd(s))
    decreases |s|
  {
    if s != [] {
      assert ToLower(s)[..|s| - 1] == ToLower(s[..|s| - 1]);
      TrimEndToLower(s[..|s| - 1]);
    }
  }

  /** Lower-casing never creates or removes whitespace, so it commutes with `trim()`. */
  lemma TrimToLower(s: string)
    ensures Trim(ToLower(s)) == ToLower(Trim(s))
  {
    SpanToLower(s);
    var k := Span(s, IsWhitespace);
    assert ToLower(s)[k..] == ToLower(s[k..]);
    TrimEndToLower(s[k..]);
  }

  /** Leading whitespace never reaches what `trimStart()` returns. */
  lemma TrimStartPadded(w: string, x: string)
    requires AllWhitespace(w)
    ensures TrimStart(w + x) == TrimStart(x)
  {
    SpanAppend(w, x, IsWhitespace);
    assert (w + x)[|w| + Span(x, IsWhitespace)..] == x[Span(x, IsWhitespace)..];
  }

  /** Trailing whitespace is all `trimEnd()` removes from what `trimStart()` keeps. */
  lemma TrimStartThenPadding(s: string, w: string)
    requires AllWhitespace(w)
    ensures TrimEnd(TrimStart(s + w)) == TrimEnd(TrimStart(s))
  {
    var k := Span(s, IsWhitespace);
    if k == |s| {
      SpanAppend(s, w, IsWhitespace);
      assert TrimStart(s + w) == w[Span(w, IsWhitespace)..];
      TrimEndAllWhitespace(w[Span(w, IsWhitespace)..]);
      TrimEndAllWhitespace(s[k..]);
    } else {
      SpanStops(s[..k], s[k..] + w, IsWhitespace);
      assert s[..k] + (s[k..] + w) == s + w;
      assert TrimStart(s + w) == s[k..] + w;
      TrimEndPadded(s[k..], w);
    }
  }

  /** Whitespace around a string never reaches what `trim()` returns. */
  lemma TrimPadded(w1: string, s: string, w2: string)
    requires AllWhitespace(w1) && AllWhitespace(w2)
    ensures Trim(w1 + s + w2) == Trim(s)
  {
    assert w1 + s + w2 == w1 + (s + w2);
    TrimStartPadded(w1, s + w2);
    TrimStartThenPadding(s, w2);
  }

  /** A string with no whitespace at either end is its own `trim()`. */
  lemma TrimUnpadded(s: string)
    requires s != [] && !IsWhitespace(s[0]) && !IsWhitespace(s[|s| - 1])
    ensures Trim(s) == s
  {
    assert TrimStart(s) == s;
  }

  // ----- decimal digits -----

  function Pow10(k: nat): (p: nat)
    ensures p >= 1
  {
    if k == 0 then 1 else 10 * Pow10(k - 1)
  }

  function DigitChar(d: nat): (c: char)
    requires d < 10
    ensures IsDigit(c) && DigitValue(c) == d
  {
    (d + '0' as int) as char
  }

  function DigitValue(c: char): (d: nat)
    requires IsDigit(c)
    ensures d < 10
  {
    c as int - '0' as int
  }

  /** The value of a string of decimal digits, most significant first. */
  function ParseDigits(s: string): (n: nat)
    requires AllDigits(s)
    ensures n < Pow10(|s|)
  {
    if s == [] then 0
    else
      var m := ParseDigits(s[..|s| - 1]);
      assert m * 10 <= (Pow10(|s| - 1) - 1) * 10;
      m * 10 + DigitValue(s[|s| - 1])
  }

  /** Digits written after others shift them left: `a + b` is worth `a` times 10^|b|, plus `b`. */
  lemma {:induction false} ParseDigitsAppend(a: string, b: string)
    requires AllDigits(a) && AllDigits(b)
    ensures AllDigits(a + b)
    ensures ParseDigits(a + b) == ParseDigits(a) * Pow10(|b|) + ParseDigits(b)
    decreases |b|
  {
    forall i | 0 <= i < |a + b|
      ensures IsDigit((a + b)[i])
    {
      if i >= |a| {
        assert (a + b)[i] == b[i - |a|];
      }
    }
    if b == [] {
      assert a + b == a;
    } else {
      var init := b[..|b| - 1];
      ParseDigitsAppend(a, init);
      assert (a + b)[..|a + b| - 1] == a + init;
      assert (a + b)[|a + b| - 1] == b[|b| - 1];
      ShiftDigit(ParseDigits(a), Pow10(|init|), Pow10(|b|), ParseDigits(init), DigitValue(b[|b| - 1]));
    }
  }

  lemma ShiftDigit(v: int, p: int, q: int, a: int, l: int)
    requires q == 10 * p
    ensures (v * p + a) * 10 + l == v * q + (a * 10 + l)
  {
  }

  /** `String(n)` for a non-negative integer: shortest decimal form, no leading zero. */
  function NatToString(n: nat): (s: string)
    ensures s != [] && AllDigits(s)
    ensures s[0] == '0' ==> s == "0"
  {
    if n < 10 then [DigitChar(n)] else NatToString(n / 10) + [DigitChar(n % 10)]
  }

  /** `String(i)` for any integer: a '-' exactly for negative numbers, then the digits of |i|. */
  function IntToString(i: int): (s: string)
    ensures s != [] && (s[0] == '-' <==> i < 0)
    ensures i >= 0 ==> AllDigits(s) && ParseDigits(s) == i
    ensures i < 0 ==> AllDigits(s[1..]) && ParseDigits(s[1..]) == -i
  {
    if i < 0 then
      NatToStringRoundTrip(-i);
      var r := "-" + NatToString(-i);
      assert r[1..] == NatToString(-i);
      r
    else
      NatToStringRoundTrip(i);
      NatToString(i)
  }

  lemma {:induction false} NatToStringRoundTrip(n: nat)
    ensures ParseDigits(NatToString(n)) == n
  {
    if n >= 10 {
      NatToStringRoundTrip(n / 10);
      var s := NatToString(n);
      assert s[..|s| - 1] == NatToString(n / 10);
    }
  }

  lemma {:induction false} LeadingZeros(z: string, s: string)
    requires forall i :: 0 <= i < |z| ==> z[i] == '0'
    requires AllDigits(s)
    ensures AllDigits(z + s) && ParseDigits(z + s) == ParseDigits(s)
    decreases |z| + |s|
  {
    if s != [] {
      var zs := z + s;
      assert zs[..|zs| - 1] == z + s[..|s| - 1];
      LeadingZeros(z, s[..|s| - 1]);
    } else if z != [] {
      assert z + s == z;
      assert (z + s)[..|z| - 1] == z[..|z| - 1] + [];
      LeadingZeros(z[..|z| - 1], []);
    } else {
      assert z + s == [];
    }
  }

  /** `s.padStart(2, '0')`: leading zeros up to length two, never a truncation. */
  function Pad2(s: string): (r: string)
    ensures |r| == if |s| < 2 then 2 else |s|
    ensures r[|r| - |s|..] == s
    ensures forall i :: 0 <= i < |r| - |s| ==> r[i] == '0'
  {
    if |s| >= 2 then s else if |s| == 1 then "0" + s else "00"
  }
}
