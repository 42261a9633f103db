/**
 * The recording overlay: a box shown while the story is in `draw` or `click`, a seconds
 * counter that runs while recording, and its `mm:ss` label.
 */
module DrawOverlay {
  import opened Wrappers
  import opened Text
  import opened ScrollPhase

  /** `String(Math.floor(s / 60)).padStart(2, '0') + ":" + String(s % 60).padStart(2, '0')`. */
  function Label(seconds: nat): (l: string)
    ensures |l| >= 5 && l[|l| - 3] == ':'
  {
    var mm := Pad2(NatToString(seconds / 60));
    var ss := Pad2(NatToString(seconds % 60));
    assert |ss| == 2 by { ShortNumeral(seconds % 60); }
    assert (mm + ":" + ss)[|mm|] == ':';
    mm + ":" + ss
  }

  /** A number below 100 is written with at most two digits. */
  lemma ShortNumeral(n: nat)
    requires n < 100
    ensures |NatToString(n)| <= 2
  {
    if n >= 10 {
      assert NatToString(n) == NatToString(n / 10) + [DigitChar(n % 10)];
    }
  }

  /** A padded number reads back as the number: padding only adds leading zeros. */
  lemma Pad2ReadsBack(n: nat)
    ensures AllDigits(Pad2(NatToString(n)))
    ensures ParseDigits(Pad2(NatToString(n))) == n
  {
    var s := NatToString(n);
    var p := Pad2(s);
    var z := p[..|p| - |s|];
    assert p == z + s;
    LeadingZeros(z, s);
    NatToStringRoundTrip(n);
  }

  /**
   * The label splits at its last colon into minutes and a two-digit seconds field, which
   * together give back the counter; minutes past 99 widen the field rather than being cut.
   */
  lemma LabelReadsBack(seconds: nat)
    ensures var l := Label(seconds);
            AllDigits(l[..|l| - 3]) && AllDigits(l[|l| - 2..])
            && ParseDigits(l[..|l| - 3]) * 60 + ParseDigits(l[|l| - 2..]) == seconds
  {
    var mm := Pad2(NatToString(seconds / 60));
    var ss := Pad2(NatToString(seconds % 60));
    var l := Label(seconds);
    assert |ss| == 2 by { ShortNumeral(seconds % 60); }
    assert l == mm + ":" + ss;
    assert l[..|l| - 3] == mm;
    assert l[|l| - 2..] == ss;
    Pad2ReadsBack(seconds / 60);
    Pad2ReadsBack(seconds % 60);
  }

  /** What the indicator in the corner of the box shows. */
  datatype Indicator = NoIndicator | Preparing | Recording(counter: string)

  class Overlay {
    var seconds: nat
    var visible: bool
    /** The one-second interval of the `click` effect is running. */
    var tickActive: bool
    /** The one-second hide timeout of the other phases is pending. */
    var hidePending: bool
    /** The phase of the effect's last run. */
    var phase: Phase

    /**
     * The ticking interval runs exactly in `click`; the hide timeout is pending only outside
     * `draw` and `click`; in those two phases the box is visible; outside `click` the counter
     * is 0.
     */
    predicate Valid()
      reads this
    {
      (tickActive <==> phase == Click)
      && (hidePending ==> phase != Draw && phase != Click)
      && (phase == Draw || phase == Click ==> visible)
      && (phase != Click ==> seconds == 0)
    }

    /** Mounting: hidden, counter 0, then the effect runs for the current phase. */
    constructor (phase: Phase)
      ensures this.phase == phase
      ensures seconds == 0
      ensures visible <==> phase == Draw || phase == Click
      ensures Valid()
    {
      seconds := 0;
      visible := false;
      tickActive := false;
      hidePending := false;
      this.phase := phase;
      new;
      RunEffect(phase);
    }

    /** The effect body for phase `p`; the previous run's timers are already cancelled. */
    method RunEffect(p: Phase)
      requires !tickActive && !hidePending
      modifies this
      ensures phase == p
      ensures p == Click ==> visible && tickActive && !hidePending && seconds == old(seconds)
      ensures p == Draw ==> visible && !tickActive && !hidePending && seconds == 0
      ensures p != Click && p != Draw ==>
                visible == old(visible) && !tickActive && hidePending && seconds == 0
    {
      phase := p;
      if p == Click {
        visible := true;
        tickActive := true;
      } else if p == Draw {
        visible := true;
        seconds := 0;
      } else {
        seconds := 0;
        hidePending := true;
      }
    }

    /**
     * A render with phase `p`: a change of phase cancels the running interval or timeout and
     * runs the effect again; the same phase changes nothing.
     */
    method OnPhase(p: Phase)
      requires Valid()
      modifies this
      ensures Valid()
      ensures phase == p
      ensures old(phase) == p ==>
                seconds == old(seconds) && visible == old(visible) && hidePending == old(hidePending)
      ensures old(phase) != p && p == Click ==> visible && seconds == old(seconds)
      ensures old(phase) != p && p == Draw ==> visible && seconds == 0
      ensures old(phase) != p && p != Click && p != Draw ==>
                visible == old(visible) && hidePending && seconds == 0
    {
      if p != phase {
        tickActive := false;
        hidePending := false;
        RunEffect(p);
      }
    }

    /** One second of recording. */
    method Tick()
      requires Valid() && tickActive
      modifies this
      ensures Valid()
      ensures seconds == old(seconds) + 1
      ensures visible && phase == old(phase) && tickActive
    {
      seconds := seconds + 1;
    }

    /** The hide timeout fires: the box goes away. */
    method HideFired()
      requires Valid() && hidePending
      modifies this
      ensures Valid()
      ensures !visible && !hidePending && seconds == 0 && phase == old(phase)
    {
      visible := false;
      hidePending := false;
    }

    /**
     * What is rendered: nothing while hidden; otherwise the box, with "Preparing Recording..."
     * in `draw`, the running label in `click` and no indicator while it fades.
     */
    function View(): (v: Option<Indicator>)
      reads this
      ensures v.None? <==> !visible
    {
      if !visible then None
      else if phase == Click then Some(Recording(Label(seconds)))
      else if phase == Draw then Some(Preparing)
      else Some(NoIndicator)
    }
  }
}
