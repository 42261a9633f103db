/**
 * The "time saved" banner: the running total formatted in seconds, minutes or hours, a
 * font size that shrinks with the text, and the phase-driven switch between hidden,
 * glitching and shown.
 */
module TimeSave {
  import opened Text
  import opened Duration
  import opened DurationFacts
  import opened ScrollPhase

  /** `Math.round`: the nearest integer, halves rounded up. */
  function RoundHalfUp(x: real): (n: int)
    ensures n as real - 0.5 <= x < n as real + 0.5
  {
    (x + 0.5).Floor
  }

  /** `formatTime(t)`: under a minute in seconds, under an hour in minutes, else in hours. */
  function FormatTime(t: real): (s: string)
    ensures t >= 0.0 ==> s != [] && IsDigit(s[0])
  {
    if t < 1.0 then IntToString(RoundHalfUp(t * 60.0)) + " sec"
    else if t < 60.0 then IntToString(t.Floor) + " min"
    else
      var hrs := (t / 60.0).Floor;
      IntToString(hrs) + " hr" + (if hrs > 1 then "s" else "")
  }

  /** The unit word the text ends with; the plural "hrs" exactly from two hours on. */
  lemma FormatTimeUnit(t: real)
    requires t >= 0.0
    ensures var s := FormatTime(t);
            (t < 1.0 ==> |s| > 4 && s[|s| - 4..] == " sec")
            && (1.0 <= t < 60.0 ==> |s| > 4 && s[|s| - 4..] == " min")
            && (60.0 <= t < 120.0 ==> |s| > 3 && s[|s| - 3..] == " hr")
            && (120.0 <= t ==> |s| > 4 && s[|s| - 4..] == " hrs")
  {
    var s := FormatTime(t);
    if t < 1.0 {
      var n := IntToString(RoundHalfUp(t * 60.0));
      assert s == n + " sec";
      assert s[|s| - 4..] == " sec";
    } else if t < 60.0 {
      var n := IntToString(t.Floor);
      assert s == n + " min";
      assert s[|s| - 4..] == " min";
    } else {
      var hrs := (t / 60.0).Floor;
      var n := IntToString(hrs);
      if t < 120.0 {
        assert hrs == 1;
        assert s == n + " hr";
        assert s[|s| - 3..] == " hr";
      } else {
        assert hrs >= 2;
        assert s == n + " hr" + "s";
        assert s[|s| - 4..] == " hrs";
      }
    }
  }

  /** The scale of each unit word the banner writes. */
  lemma BannerUnits(v: real)
    ensures InMinutes(v, "sec") == v / 60.0
    ensures InMinutes(v, "min") == v
    ensures InMinutes(v, "hr") == v * 60.0
    ensures InMinutes(v, "hrs") == v * 60.0
  {
    var min, hr, hrs := "min", "hr", "hrs";
    assert min[0] == 'm' && hr[0] == 'h' && hrs[0] == 'h';
    assert !("sec" <= min) && !("hr" <= min) && !("hour" <= min);
    assert !("sec" <= hr) && !("sec" <= hrs);
    assert hrs[..2] == hr;
  }

  /** A count followed by a unit word reads back as that many units. */
  lemma ParseCount(n: nat, unit: string)
    requires unit == "sec" || unit == "min" || unit == "hr" || unit == "hrs"
    ensures ParseTimeString(NatToString(n) + " " + unit) == Finite(InMinutes(n as real, unit))
  {
    DigitsValue(NatToString(n), n);
    assert ToLower(unit) == unit;
    ParseWellFormed(NatToString(n), "", false, " ", unit);
  }

  /** The three forms of the text: a count, a space and a unit word. */
  lemma FormatTimeShape(t: real)
    requires t >= 0.0
    ensures t < 1.0 ==> FormatTime(t) == NatToString(RoundHalfUp(t * 60.0)) + " " + "sec"
    ensures 1.0 <= t < 60.0 ==> FormatTime(t) == NatToString(t.Floor) + " " + "min"
    ensures 60.0 <= t < 120.0 ==> FormatTime(t) == NatToString((t / 60.0).Floor) + " " + "hr"
    ensures 120.0 <= t ==> FormatTime(t) == NatToString((t / 60.0).Floor) + " " + "hrs"
  {
  }

  lemma SecondsReadBack(t: real)
    requires 0.0 <= t < 1.0
    ensures ParseTimeString(FormatTime(t)).Finite?
    ensures t - 1.0 / 120.0 < ParseTimeString(FormatTime(t)).value <= t + 1.0 / 120.0
  {
    var n := RoundHalfUp(t * 60.0);
    assert FormatTime(t) == NatToString(n) + " " + "sec" by { FormatTimeShape(t); }
    ParseCount(n, "sec");
    BannerUnits(n as real);
  }

  lemma MinutesReadBack(t: real)
    requires 1.0 <= t < 60.0
    ensures ParseTimeString(FormatTime(t)).Finite?
    ensures ParseTimeString(FormatTime(t)).value <= t < ParseTimeString(FormatTime(t)).value + 1.0
  {
    var n := t.Floor;
    assert FormatTime(t) == NatToString(n) + " " + "min" by { FormatTimeShape(t); }
    ParseCount(n, "min");
    BannerUnits(n as real);
  }

  lemma HoursReadBack(t: real)
    requires 60.0 <= t
    ensures ParseTimeString(FormatTime(t)).Finite?
    ensures ParseTimeString(FormatTime(t)).value <= t < ParseTimeString(FormatTime(t)).value + 60.0
  {
    var n := (t / 60.0).Floor;
    var unit := if t < 120.0 then "hr" else "hrs";
    assert FormatTime(t) == NatToString(n) + " " + unit by { FormatTimeShape(t); }
    ParseCount(n, unit);
    BannerUnits(n as real);
  }

  /**
   * Reading the banner back with the page's own parser gives the total to within the
   * banner's resolution: half a second, a whole minute or a whole hour, never more.
   */
  lemma FormatTimeReadsBack(t: real)
    requires t >= 0.0
    ensures ParseTimeString(FormatTime(t)).Finite?
    ensures t < 1.0 ==> t - 1.0 / 120.0 < ParseTimeString(FormatTime(t)).value <= t + 1.0 / 120.0
    ensures 1.0 <= t < 60.0 ==> ParseTimeString(FormatTime(t)).value <= t < ParseTimeString(FormatTime(t)).value + 1.0
    ensures 60.0 <= t ==> ParseTimeString(FormatTime(t)).value <= t < ParseTimeString(FormatTime(t)).value + 60.0
  {
    if t < 1.0 {
      SecondsReadBack(t);
    } else if t < 60.0 {
      MinutesReadBack(t);
    } else {
      HoursReadBack(t);
    }
  }

  /** `Math.max(32 - displayText.length * 0.8, 14)`, the font size in viewport widths. */
  function FontScale(length: nat): (r: real)
    ensures 14.0 <= r <= 32.0
    ensures r == 14.0 <==> length >= 23
    ensures r == 32.0 <==> length == 0
  {
    var shrunk := 32.0 - length as real * 0.8;
    if shrunk > 14.0 then shrunk else 14.0
  }

  /** A longer text never gets a larger font. */
  lemma FontScaleMonotone(a: nat, b: nat)
    requires a <= b
    ensures FontScale(b) <= FontScale(a)
  {
  }

  class TimeSaveBanner {
    var displayText: string
    var isGlitching: bool
    var showSaved: bool
    /** The glitch interval and the 1500 ms stop timer of the `merge` effect are running. */
    var glitchTimersActive: bool
    /** The effect's dependencies as of its last run. */
    var phase: Phase
    var time: real

    /**
     * Glitching happens only while its timers run, and only in `merge`; "saved" shows exactly
     * in `merge` and `done`; whenever the banner is not glitching it shows the formatted total.
     */
    predicate Valid()
      reads this
    {
      (isGlitching <==> glitchTimersActive)
      && (glitchTimersActive ==> phase == Merge)
      && (showSaved <==> phase == Merge || phase == Done)
      && (!isGlitching ==> displayText == FormatTime(time))
    }

    /** Mounting: empty text, then the effect runs for the current phase and total. */
    constructor (phase: Phase, time: real)
      ensures this.phase == phase && this.time == time
      ensures phase == Merge ==> displayText == "" && isGlitching
      ensures Valid()
    {
      displayText := "";
      isGlitching := false;
      showSaved := false;
      glitchTimersActive := false;
      this.phase := phase;
      this.time := time;
      new;
      RunEffect(phase, time);
    }

    /** The effect body for the given phase and total; the previous run's timers are already gone. */
    method RunEffect(p: Phase, t: real)
      requires !glitchTimersActive
      modifies this
      ensures phase == p && time == t
      ensures p == Merge ==> isGlitching && showSaved && glitchTimersActive && displayText == old(displayText)
      ensures p == Done ==> !isGlitching && showSaved && !glitchTimersActive && displayText == FormatTime(t)
      ensures p != Merge && p != Done ==> !isGlitching && !showSaved && !glitchTimersActive && displayText == FormatTime(t)
    {
      phase := p;
      time := t;
      if p == Merge {
        isGlitching := true;
        showSaved := true;
        glitchTimersActive := true;
      } else if p == Done {
        isGlitching := false;
        showSaved := true;
        displayText := FormatTime(t);
      } else {
        showSaved := false;
        isGlitching := false;
        displayText := FormatTime(t);
      }
    }

    /**
     * A render with the current phase and total: when either differs from the last run the
     * cleanup cancels the timers and the effect runs again; otherwise nothing happens.
     */
    method Render(p: Phase, t: real)
      requires Valid()
      modifies this
      ensures Valid()
      ensures phase == p && time == t
      ensures old(phase) == p && old(time) == t ==>
                displayText == old(displayText) && isGlitching == old(isGlitching) && showSaved == old(showSaved)
                && glitchTimersActive == old(glitchTimersActive)
      ensures (old(phase) != p || old(time) != t) && p == Done ==>
                showSaved && !isGlitching && !glitchTimersActive && displayText == FormatTime(t)
      ensures (old(phase) != p || old(time) != t) && p != Merge && p != Done ==>
                !showSaved && !isGlitching && !glitchTimersActive && displayText == FormatTime(t)
      ensures (old(phase) != p || old(time) != t) && p == Merge ==>
                showSaved && isGlitching && glitchTimersActive && displayText == old(displayText)
    {
      if p != phase || t != time {
        glitchTimersActive := false;
        RunEffect(p, t);
      }
    }

    /** A 100 ms glitch tick: the text becomes the random digits drawn for it. */
    method GlitchTick(digits: string)
      requires Valid() && glitchTimersActive
      modifies this
      ensures Valid()
      ensures displayText == digits && isGlitching && glitchTimersActive
      ensures phase == old(phase) && time == old(time) && showSaved == old(showSaved)
    {
      displayText := digits;
    }

    /** The 1500 ms stop timer: glitching ends and the formatted total is shown. */
    method StopFired()
      requires Valid() && glitchTimersActive
      modifies this
      ensures Valid()
      ensures !isGlitching && !glitchTimersActive && showSaved && displayText == FormatTime(time)
      ensures phase == old(phase) && time == old(time)
    {
      glitchTimersActive := false;
      isGlitching := false;
      displayText := FormatTime(time);
    }

    /** The font size of the current text: between 14 and 32, at the floor from 23 characters on. */
    function FontSize(): (r: real)
      reads this
      ensures 14.0 <= r <= 32.0
      ensures r == 14.0 <==> |displayText| >= 23
    {
      FontScale(|displayText|)
    }
  }
}
