/** Properties of `parseTimeString`: its examples, its unit table and its normalisation of the input. */
module DurationFacts {
  import opened Wrappers
  import opened Text
  import opened Duration

  /** A string with no digit and no dot does not match the pattern and contributes nothing. */
  lemma NoNumeralParsesToZero(s: string)
    requires forall i :: 0 <= i < |s| ==> !IsNumeralChar(s[i])
    ensures ParseTimeString(s) == Finite(0.0)
  {
    if s != "" {
      TrimIsSlice(s);
      var k := Span(s, IsWhitespace);
      var str := ToLower(Trim(s));
      forall i | 0 <= i < |str| ensures !IsNumeralChar(str[i]) {
        assert str[i] == LowerChar(s[k + i]);
      }
      MatchNeedsNumeral(str);
    }
  }

  /** The pattern matches exactly the strings that contain a digit or a dot. */
  lemma MatchNeedsNumeral(s: string)
    ensures MatchDuration(s).None? <==> forall i :: 0 <= i < |s| ==> !IsNumeralChar(s[i])
  {
  }

  /**
   * The search is unanchored and takes the leftmost run: text without a digit or a dot in
   * front of the input is skipped, and the match is the one the input alone gives.
   */
  lemma {:induction false} MatchSkipsPrefix(p: string, s: string)
    requires forall i :: 0 <= i < |p| ==> !IsNumeralChar(p[i])
    ensures MatchDuration(p + s) == MatchDuration(s)
  {
    if p == [] {
      assert p + s == s;
    } else {
      assert (p + s)[1..] == p[1..] + s;
      MatchSkipsPrefix(p[1..], s);
    }
  }

  /**
   * Leading words such as "about " or "~" do not change the result: whatever comes before
   * the first digit or dot is ignored (the ends are fixed so that trimming leaves them alone).
   */
  lemma ParseSkipsLeadingText(p: string, s: string)
    requires forall i :: 0 <= i < |p| ==> !IsNumeralChar(p[i])
    requires p != [] ==> !IsWhitespace(p[0])
    requires s != [] && !IsWhitespace(s[|s| - 1])
    ensures ParseTimeString(p + s) == ParseTimeString(s)
  {
    if p == [] {
      assert p + s == s;
    } else {
      assert ParseTimeString(p + s) == Evaluate(ToLower(p + s)) by { TrimUntouched(p + s); }
      assert Evaluate(ToLower(p + s)) == Evaluate(ToLower(s)) by {
        ToLowerAppend(p, s);
        LowerNoNumeral(p);
        EvaluateSkipsPrefix(ToLower(p), ToLower(s));
      }
      ParseUntrimmed(s);
    }
  }

  /** With no trailing whitespace, leading whitespace is skipped by the search as well as by `trim()`. */
  lemma ParseUntrimmed(s: string)
    requires s != [] && !IsWhitespace(s[|s| - 1])
    ensures ParseTimeString(s) == Evaluate(ToLower(s))
  {
    var k := Span(s, IsWhitespace);
    TrimTail(s, k);
    LeadingSpaceSkipped(s, k);
  }

  lemma LeadingSpaceSkipped(s: string, k: nat)
    requires k <= |s| && forall j :: 0 <= j < k ==> IsWhitespace(s[j])
    ensures Evaluate(ToLower(s)) == Evaluate(ToLower(s[k..]))
  {
    var lead, t := s[..k], s[k..];
    assert s == lead + t;
    ToLowerAppend(lead, t);
    LowerNoNumeral(lead);
    EvaluateSkipsPrefix(ToLower(lead), ToLower(t));
  }

  lemma EvaluateSkipsPrefix(p: string, s: string)
    requires forall i :: 0 <= i < |p| ==> !IsNumeralChar(p[i])
    ensures Evaluate(p + s) == Evaluate(s)
  {
    MatchSkipsPrefix(p, s);
  }

  lemma TrimUntouched(s: string)
    requires s != [] && !IsWhitespace(s[0]) && !IsWhitespace(s[|s| - 1])
    ensures Trim(s) == s
  {
    assert Span(s, IsWhitespace) == 0;
  }

  lemma TrimTail(s: string, k: nat)
    requires s != [] && !IsWhitespace(s[|s| - 1]) && k == Span(s, IsWhitespace)
    ensures k < |s| && Trim(s) == s[k..]
  {
  }

  lemma LowerNoNumeral(s: string)
    requires forall i :: 0 <= i < |s| ==> !IsNumeralChar(s[i]) || IsWhitespace(s[i])
    ensures forall i :: 0 <= i < |ToLower(s)| ==> !IsNumeralChar(ToLower(s)[i])
  {
  }

  /** "about 2 min" is two minutes: the words before the number are skipped. */
  lemma ExampleLeadingText()
    ensures ParseTimeString("about 2 min") == Finite(2.0)
  {
    var p := "about ";
    assert p + "2 min" == "about 2 min";
    assert forall i :: 0 <= i < |p| ==> p[i] in "about ";
    ParseSkipsLeadingText(p, "2 min");
    ExampleMinutes();
  }

  // ----- well-formed input -----

  lemma {:induction false} AllDigitsNumeral(s: string)
    requires AllDigits(s)
    ensures forall i :: 0 <= i < |s| ==> IsNumeralChar(s[i])
  {
  }

  /** `parseFloat` reads back the decimal `a.b` (or the integer `a` when there is no dot). */
  lemma ParseFloatDecimal(a: string, b: string, dot: bool)
    requires AllDigits(a) && AllDigits(b) && |a| + |b| > 0 && (dot || b == [])
    ensures var num := if dot then a + "." + b else a;
            (forall i :: 0 <= i < |num| ==> IsNumeralChar(num[i]))
            && ParseFloat(num) == Finite(DecimalValue(a, b))
  {
    var num := if dot then a + "." + b else a;
    if dot {
      SpanStops(a, "." + b, IsDigit);
      assert a + "." + b == a + ("." + b);
      assert num[|a| + 1..] == b;
      assert num[..|a|] == a;
      assert b[..Span(b, IsDigit)] == b;
    } else {
      assert num[..Span(num, IsDigit)] == a;
    }
  }

  /** The pattern captures a leading numeral whole, then whatever unit opens the text after the spaces. */
  lemma {:induction false} MatchLeadingNumeral(num: string, w: string, rest: string)
    requires num != [] && forall i :: 0 <= i < |num| ==> IsNumeralChar(num[i])
    requires AllWhitespace(w)
    requires rest != [] ==> !IsNumeralChar(rest[0]) && !IsWhitespace(rest[0])
    ensures MatchDuration(num + w + rest) == Some(DurationMatch(num, FirstPrefix(UnitAlternatives, rest)))
  {
    var str := num + w + rest;
    assert str[0] == num[0];
    assert str[0..] == str;
    assert str == num + (w + rest);
    if w + rest == [] {
      assert str == num;
      assert Span(str, IsNumeralChar) == |num|;
      assert str[|num|..] == [];
      assert rest == [];
    } else {
      assert (w + rest)[0] == if w == [] then rest[0] else w[0];
      SpanStops(num, w + rest, IsNumeralChar);
      assert str[|num|..] == w + rest;
      if rest == [] {
        assert w + rest == w;
        assert Span(w, IsWhitespace) == |w|;
        assert w[|w|..] == rest;
      } else {
        SpanStops(w, rest, IsWhitespace);
        assert (w + rest)[|w|..] == rest;
      }
    }
    assert str[..|num|] == num;
  }

  /** Trimming and lower-casing leave a numeral followed by whitespace and a tail as numeral, whitespace and the lower-cased tail. */
  lemma {:induction false} NormalisedWellFormed(num: string, w: string, tail: string)
    requires num != [] && forall i :: 0 <= i < |num| ==> IsNumeralChar(num[i])
    requires AllWhitespace(w)
    requires tail != [] ==> !IsWhitespace(tail[0]) && !IsWhitespace(tail[|tail| - 1])
    ensures ParseTimeString(num + w + tail) == Evaluate(if tail == [] then num else num + w + ToLower(tail))
  {
    var s := num + w + tail;
    assert s[0] == num[0];
    assert ToLower(num) == num;
    assert ToLower(w) == w;
    if tail == [] {
      assert s == [] + num + w;
      TrimPadded([], num, w);
      TrimUnpadded(num);
    } else {
      assert s[|s| - 1] == tail[|tail| - 1];
      TrimUnpadded(s);
      ToLowerAppend(num + w, tail);
      ToLowerAppend(num, w);
    }
  }

  lemma EvaluateLoneNumeral(num: string, v: real)
    requires num != [] && forall i :: 0 <= i < |num| ==> IsNumeralChar(num[i])
    requires ParseFloat(num) == Finite(v)
    ensures Evaluate(num) == Finite(v)
  {
    assert num == num + [] + [];
    MatchLeadingNumeral(num, [], []);
    UnitScaling(v, []);
  }

  /** A numeral that `parseFloat` reads as `v`, then only whitespace: `v` minutes, the default unit. */
  lemma ParseNumeralAlone(num: string, v: real, w: string)
    requires num != [] && forall i :: 0 <= i < |num| ==> IsNumeralChar(num[i])
    requires ParseFloat(num) == Finite(v)
    requires AllWhitespace(w)
    ensures ParseTimeString(num + w) == Finite(v)
  {
    assert num + w == num + w + [];
    NormalisedWellFormed(num, w, []);
    EvaluateLoneNumeral(num, v);
  }

  /** A numeral that `parseFloat` reads as `v`, whitespace and a unit text: `v` scaled by that unit. */
  lemma ParseNumeralThenUnit(num: string, v: real, w: string, tail: string)
    requires num != [] && forall i :: 0 <= i < |num| ==> IsNumeralChar(num[i])
    requires ParseFloat(num) == Finite(v)
    requires AllWhitespace(w)
    requires tail != [] && !IsNumeralChar(tail[0]) && !IsWhitespace(tail[0]) && !IsWhitespace(tail[|tail| - 1])
    ensures ParseTimeString(num + w + tail) == Finite(InMinutes(v, ToLower(tail)))
  {
    var lt := ToLower(tail);
    var x := ToMinutes(Finite(v), FirstPrefix(UnitAlternatives, lt).GetOr("min"));
    assert ParseTimeString(num + w + tail) == Evaluate(num + w + lt) by {
      NormalisedWellFormed(num, w, tail);
    }
    assert Evaluate(num + w + lt) == x by {
      assert lt[0] == LowerChar(tail[0]);
      MatchLeadingNumeral(num, w, lt);
    }
    assert x == Finite(InMinutes(v, lt)) by {
      UnitScaling(v, lt);
    }
  }

  /**
   * A well-formed numeral `a.b` (or `a`), optional whitespace and any tail that does not
   * start with a digit, a dot or whitespace: the value of the numeral scaled by the
   * tail's unit, whatever the letter case of the tail.
   */
  lemma ParseWellFormed(a: string, b: string, dot: bool, w: string, tail: string)
    requires AllDigits(a) && AllDigits(b) && |a| + |b| > 0 && (dot || b == [])
    requires AllWhitespace(w)
    requires tail != [] ==> !IsNumeralChar(tail[0]) && !IsWhitespace(tail[0]) && !IsWhitespace(tail[|tail| - 1])
    ensures var num := if dot then a + "." + b else a;
            ParseTimeString(num + w + tail) == Finite(InMinutes(DecimalValue(a, b), ToLower(tail)))
  {
    var num := if dot then a + "." + b else a;
    ParseFloatDecimal(a, b, dot);
    if tail == [] {
      assert num + w + tail == num + w;
      ParseNumeralAlone(num, DecimalValue(a, b), w);
      assert InMinutes(DecimalValue(a, b), ToLower(tail)) == DecimalValue(a, b);
    } else {
      ParseNumeralThenUnit(num, DecimalValue(a, b), w, tail);
    }
  }

  /** Whitespace around the input never changes the result, since it is trimmed first. */
  lemma ParseIgnoresPadding(w1: string, s: string, w2: string)
    requires AllWhitespace(w1) && AllWhitespace(w2)
    ensures ParseTimeString(w1 + s + w2) == ParseTimeString(s)
  {
    TrimPadded(w1, s, w2);
    if s == [] {
      assert Trim(w1 + s + w2) == [] by { TrimPadded(w1, s, w2); }
    }
  }

  /** Letter case never changes the result, since the input is lower-cased first. */
  lemma ParseIgnoresCase(s: string)
    ensures ParseTimeString(ToLower(s)) == ParseTimeString(s)
  {
    TrimToLower(s);
    ToLowerIdempotent(Trim(s));
  }

  /** A numeral followed by " min" reads back as the numeral's value. */
  lemma ParseMinutes(a: string, b: string, dot: bool)
    requires AllDigits(a) && AllDigits(b) && |a| + |b| > 0 && (dot || b == [])
    ensures var num := if dot then a + "." + b else a;
            ParseTimeString(num + " " + "min") == Finite(DecimalValue(a, b))
  {
    var min := "min";
    assert min[0] == 'm' && !("sec" <= min) && !("hr" <= min) && !("hour" <= min);
    assert ToLower(min) == min;
    ParseWellFormed(a, b, dot, " ", min);
  }

  /**
   * `a.b` scaled by 10^|b| is the whole number written with the digits of `a` and then
   * those of `b`: the point only marks where the fraction starts, and no digit is lost,
   * reordered or reweighted.
   */
  lemma DecimalValueDigits(a: string, b: string)
    requires AllDigits(a) && AllDigits(b)
    ensures AllDigits(a + b)
    ensures DecimalValue(a, b) == ParseDigits(a + b) as real / Pow10(|b|) as real
  {
    ParseDigitsAppend(a, b);
    ScaleFraction(DecimalValue(a, b), ParseDigits(a), ParseDigits(b), Pow10(|b|), ParseDigits(a + b));
  }

  lemma ScaleFraction(d: real, x: int, n: int, p: int, m: int)
    requires p > 0 && d == x as real + n as real / p as real && m == x * p + n
    ensures d == m as real / p as real
  {
    assert (x * p) as real == x as real * p as real;
  }

  /** A single digit after the point is that many tenths. */
  lemma OneFractionDigit(d: char, n: nat)
    requires '0' <= d <= '9' && n == DigitValue(d)
    ensures FractionValue([d]) == n as real / 10.0
  {
    assert AllDigits([d]);
    assert [d][..0] == [];
    assert ParseDigits([d]) == n;
    assert Pow10(1) == 10;
  }

  lemma DigitsValue(a: string, n: nat)
    requires a == NatToString(n)
    ensures AllDigits(a) && DecimalValue(a, "") == n as real
  {
    NatToStringRoundTrip(n);
  }

  /** An empty string, and a string with nothing the pattern can match, give 0. */
  lemma ExampleNoMatch()
    ensures ParseTimeString("") == Finite(0.0)
    ensures ParseTimeString("garbage") == Finite(0.0)
  {
    NoNumeralParsesToZero("garbage");
  }

  /** "2 min" is two minutes. */
  lemma ExampleMinutes()
    ensures ParseTimeString("2 min") == Finite(2.0)
  {
    assert "2" + " " + "min" == "2 min";
    DigitsValue("2", 2);
    assert ToLower("min") == "min";
    ParseWellFormed("2", "", false, " ", "min");
  }

  /** A bare "2" is two minutes: the unit defaults to minutes. */
  lemma ExampleBareNumber()
    ensures ParseTimeString("2") == Finite(2.0)
  {
    assert "2" + "" + "" == "2";
    DigitsValue("2", 2);
    ParseWellFormed("2", "", false, "", "");
  }

  /** An unknown unit, as in "2 days", falls back to minutes. */
  lemma ExampleUnknownUnit()
    ensures ParseTimeString("2 days") == Finite(2.0)
  {
    assert "2" + " " + "days" == "2 days";
    DigitsValue("2", 2);
    assert ToLower("days") == "days";
    ParseWellFormed("2", "", false, " ", "days");
  }

  /** "90 sec" is a minute and a half. */
  lemma ExampleSeconds()
    ensures ParseTimeString("90 sec") == Finite(1.5)
  {
    assert "90" + " " + "sec" == "90 sec";
    DigitsValue("90", 90);
    assert ToLower("sec") == "sec";
    ParseWellFormed("90", "", false, " ", "sec");
  }

  /** "1 hr" is sixty minutes. */
  lemma ExampleHours()
    ensures ParseTimeString("1 hr") == Finite(60.0)
  {
    assert "1" + " " + "hr" == "1 hr";
    DigitsValue("1", 1);
    assert ToLower("hr") == "hr";
    ParseWellFormed("1", "", false, " ", "hr");
  }

  /** "1.5 min" keeps its fraction. */
  lemma ExampleFraction()
    ensures ParseTimeString("1.5 min") == Finite(1.5)
  {
    assert "1" + "." + "5" + " " + "min" == "1.5 min";
    assert DecimalValue("1", "5") == 1.5 by {
      DigitsValue("1", 1);
      OneFractionDigit('5', 5);
    }
    ParseMinutes("1", "5", true);
  }

  /** "1.25 min" keeps both fraction digits, in their order. */
  lemma ExampleTwoFractionDigits()
    ensures ParseTimeString("1.25 min") == Finite(1.25)
  {
    assert "1" + "." + "25" + " " + "min" == "1.25 min";
    DecimalValue125();
    ParseMinutes("1", "25", true);
  }

  lemma DecimalValue125()
    ensures DecimalValue("1", "25") == 1.25
  {
    DecimalValueDigits("1", "25");
    var n := "125";
    assert "1" + "25" == n && n[..2] == "12" && "12"[..1] == "1" && "1"[..0] == [];
    assert ParseDigits(n) == 125;
    assert Pow10(2) == 100;
  }

  /** Surrounding spaces and upper case do not matter: " 2 MIN " is "2 min". */
  lemma ExampleNormalised()
    ensures ParseTimeString(" 2 MIN ") == ParseTimeString("2 min")
  {
    assert " " + "2 MIN" + " " == " 2 MIN ";
    assert ToLower("2 MIN") == "2 min";
    ParseIgnoresPadding(" ", "2 MIN", " ");
    ParseIgnoresCase("2 MIN");
  }

  /** A lone dot matches the pattern, but `parseFloat` finds no digit in it: the result is NaN. */
  lemma ExampleStrayDot()
    ensures ParseTimeString(".").NaN?
  {
    assert "." + "" + "" == ".";
    assert ToLower(".") == ".";
    NormalisedWellFormed(".", "", "");
    MatchLeadingNumeral(".", "", "");
  }
}
