/**
 * `parseTimeString` of the page root: a free-text duration such as "1.5 min",
 * "90 sec" or "1 hr" converted to minutes.
 */
module Duration {
  import opened Wrappers
  import opened Text

  /** A JavaScript number as this code can produce it: finite, or NaN from `parseFloat`. */
  datatype Number = Finite(value: real) | NaN

  /** The `[\d.]` character class. */
  predicate IsNumeralChar(c: char) { IsDigit(c) || c == '.' }

  /** The unit alternatives of the pattern, in the order the pattern tries them. */
  const UnitAlternatives: seq<string> :=
    ["sec", "second", "seconds", "min", "minute", "minutes", "hr", "hrs", "hour", "hours"]

  /** What the two capture groups of `([\d.]+)\s*(unit)?` hold after a successful match. */
  datatype DurationMatch = DurationMatch(numeral: string, unit: Option<string>)

  /** Index of the first alternative that is a prefix of `s`, or |alternatives| when none is. */
  function FirstPrefixIndex(alternatives: seq<string>, s: string): (k: nat)
    ensures k <= |alternatives|
    ensures forall j :: 0 <= j < k ==> !(alternatives[j] <= s)
    ensures k < |alternatives| ==> alternatives[k] <= s
  {
    if alternatives == [] || alternatives[0] <= s then 0
    else 1 + FirstPrefixIndex(alternatives[1..], s)
  }

  /** The alternative a regex alternation captures: the first one, in order, that matches. */
  function FirstPrefix(alternatives: seq<string>, s: string): (r: Option<string>)
    ensures r.Some? ==> r.value in alternatives && r.value <= s
    ensures r.None? <==> forall k :: 0 <= k < |alternatives| ==> !(alternatives[k] <= s)
  {
    var k := FirstPrefixIndex(alternatives, s);
    if k < |alternatives| then Some(alternatives[k]) else None
  }

  /**
   * The unanchored search of `([\d.]+)\s*(sec|second|seconds|min|minute|minutes|hr|hrs|hour|hours)?`:
   * tried at each position from the left, it succeeds at the first digit or dot.
   */
  function MatchDuration(s: string): (m: Option<DurationMatch>)
    ensures m.Some? ==> m.value.numeral != []
                        && forall i :: 0 <= i < |m.value.numeral| ==> IsNumeralChar(m.value.numeral[i])
  {
    if s == [] then None
    else if IsNumeralChar(s[0]) then Some(CaptureFrom(s))
    else MatchDuration(s[1..])
  }

  /** The two captures of a match whose numeral run starts at the beginning of `rest`. */
  function CaptureFrom(rest: string): (m: DurationMatch)
    requires rest != [] && IsNumeralChar(rest[0])
    ensures m.numeral != [] && forall i :: 0 <= i < |m.numeral| ==> IsNumeralChar(m.numeral[i])
  {
    var len := Span(rest, IsNumeralChar);
    var afterRun := rest[len..];
    var afterSpace := afterRun[Span(afterRun, IsWhitespace)..];
    DurationMatch(rest[..len], FirstPrefix(UnitAlternatives, afterSpace))
  }

  /** `parseFloat` on a run of digits and dots: the longest prefix of the form `d*(.d*)?` with a digit. */
  function ParseFloat(numeral: string): (r: Number)
    requires forall i :: 0 <= i < |numeral| ==> IsNumeralChar(numeral[i])
    ensures r.NaN? <==> numeral == [] || (numeral[0] == '.' && (|numeral| == 1 || !IsDigit(numeral[1])))
    ensures r.Finite? ==> r.value >= 0.0
  {
    var intLen := Span(numeral, IsDigit);
    var fraction := if intLen < |numeral| then numeral[intLen + 1..] else [];
    var fracLen := Span(fraction, IsDigit);
    assert numeral != [] && intLen == 0 ==> !IsDigit(numeral[0]) && IsNumeralChar(numeral[0]);
    assert numeral != [] && intLen == 0 ==> fraction == numeral[1..];
    assert |fraction| > 0 ==> fraction[0] == numeral[intLen + 1];
    if intLen == 0 && fracLen == 0 then NaN
    else Finite(DecimalValue(numeral[..intLen], fraction[..fracLen]))
  }

  /** The number written `a.b` with digit strings `a` and `b`. */
  function DecimalValue(a: string, b: string): (v: real)
    requires AllDigits(a) && AllDigits(b)
    ensures ParseDigits(a) as real <= v < ParseDigits(a) as real + 1.0
  {
    ParseDigits(a) as real + FractionValue(b)
  }

  /** The value of the digits after the decimal point, `0.b`: the digits read as a whole number, over 10^|b|. */
  function FractionValue(b: string): (f: real)
    requires AllDigits(b)
    ensures 0.0 <= f < 1.0
  {
    ProperFraction(ParseDigits(b) as real, Pow10(|b|) as real);
    ParseDigits(b) as real / Pow10(|b|) as real
  }

  lemma ProperFraction(n: real, p: real)
    requires 0.0 <= n < p
    ensures 0.0 <= n / p < 1.0
    ensures n / p * p == n
  {
  }

  /** The `switch` on the unit: seconds divide by 60, hours multiply by 60, anything else is minutes. */
  function ToMinutes(value: Number, unit: string): (r: Number)
    ensures r.NaN? <==> value.NaN?
  {
    match value
    case NaN => NaN
    case Finite(v) =>
      if unit in {"sec", "second", "seconds"} then Finite(v / 60.0)
      else if unit in {"hr", "hrs", "hour", "hours"} then Finite(v * 60.0)
      else Finite(v)
  }

  /** Everything after the emptiness check, on the already trimmed and lower-cased string. */
  function Evaluate(str: string): (r: Number)
    ensures r.Finite? ==> r.value >= 0.0
  {
    match MatchDuration(str)
    case None => Finite(0.0)
    case Some(m) => ToMinutes(ParseFloat(m.numeral), m.unit.GetOr("min"))
  }

  /** `parseTimeString(timeStr)`: minutes, 0 for an empty or digit-free string, NaN for a stray dot. */
  function ParseTimeString(timeStr: string): (r: Number)
    ensures timeStr == "" ==> r == Finite(0.0)
    ensures r.Finite? ==> r.value >= 0.0
  {
    if timeStr == "" then Finite(0.0)
    else
      Evaluate(ToLower(Trim(timeStr)))
  }

  // ----- the unit that a matched tail selects -----

  /**
   * `v` units of whatever unit word opens `tail`, in minutes: the reference table the
   * switch implements (seconds, hours, and minutes for anything else).
   */
  function InMinutes(v: real, tail: string): real {
    if "sec" <= tail then v / 60.0
    else if "hr" <= tail || "hour" <= tail then v * 60.0
    else v
  }

  lemma PrefixOfPrefix(p: string, q: string, s: string)
    requires p <= q && q <= s
    ensures p <= s
  {
  }

  /**
   * Because the alternation tries "sec" before "second" and "seconds", "min" before
   * "minute"/"minutes" and "hr" before "hrs", only four alternatives can ever be captured.
   */
  lemma CapturedUnit(tail: string)
    ensures FirstPrefix(UnitAlternatives, tail) ==
      if "sec" <= tail then Some("sec")
      else if "min" <= tail then Some("min")
      else if "hr" <= tail then Some("hr")
      else if "hour" <= tail then Some("hour")
      else None
  {
    var alts := UnitAlternatives;
    var k := FirstPrefixIndex(alts, tail);
    if "second" <= tail { PrefixOfPrefix("sec", "second", tail); }
    if "seconds" <= tail { PrefixOfPrefix("sec", "seconds", tail); }
    if "minute" <= tail { PrefixOfPrefix("min", "minute", tail); }
    if "minutes" <= tail { PrefixOfPrefix("min", "minutes", tail); }
    if "hrs" <= tail { PrefixOfPrefix("hr", "hrs", tail); }
    if "hours" <= tail { PrefixOfPrefix("hour", "hours", tail); }
    assert alts[0] == "sec" && alts[1] == "second" && alts[2] == "seconds";
    assert alts[3] == "min" && alts[4] == "minute" && alts[5] == "minutes";
    assert alts[6] == "hr" && alts[7] == "hrs" && alts[8] == "hour" && alts[9] == "hours";
    if "sec" <= tail {
      assert k == 0;
    } else if "min" <= tail {
      assert !(alts[0] <= tail) && !(alts[1] <= tail) && !(alts[2] <= tail);
      assert k == 3;
    } else if "hr" <= tail {
      assert !(alts[3] <= tail) && !(alts[4] <= tail) && !(alts[5] <= tail);
      assert k == 6;
    } else if "hour" <= tail {
      assert !(alts[6] <= tail) && !(alts[7] <= tail);
      assert k == 8;
    } else {
      assert k == 10;
    }
  }

  /** For any tail, the switch applied to the captured unit (or the "min" default) is InMinutes. */
  lemma UnitScaling(v: real, tail: string)
    ensures ToMinutes(Finite(v), FirstPrefix(UnitAlternatives, tail).GetOr("min")) == Finite(InMinutes(v, tail))
  {
    CapturedUnit(tail);
    if "sec" <= tail {
      assert ToMinutes(Finite(v), "sec") == Finite(v / 60.0);
    } else if "min" <= tail {
      assert tail[0] == 'm';
      assert !("hr" <= tail) && !("hour" <= tail);
      assert ToMinutes(Finite(v), "min") == Finite(v);
    } else if "hr" <= tail {
      assert ToMinutes(Finite(v), "hr") == Finite(v * 60.0);
    } else if "hour" <= tail {
      assert ToMinutes(Finite(v), "hour") == Finite(v * 60.0);
    } else {
      assert ToMinutes(Finite(v), "min") == Finite(v);
    }
  }
}
