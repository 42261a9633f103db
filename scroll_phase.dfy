/** `useScrollPhase`: the page's scroll progress, classified into the five phases of the story. */
module ScrollPhase {

  datatype Phase = Intro | Draw | Click | Merge | Done

  /** The position of a phase in the story. */
  function Ordinal(p: Phase): (n: nat)
    ensures n < 5
  {
    match p
    case Intro => 0
    case Draw => 1
    case Click => 2
    case Merge => 3
    case Done => 4
  }

  /** The lower bounds of `draw`, `click`, `merge` and `done`, in increasing order. */
  const Thresholds: seq<real> := [0.05, 0.1, 0.3, 0.4]

  /**
   * The threshold chain of the change callback: the interval each phase covers. Values below
   * 0 are `intro` and values above 1 are `done`.
   */
  function Classify(v: real): (p: Phase)
    ensures p == Intro <==> v < 0.05
    ensures p == Draw <==> 0.05 <= v < 0.1
    ensures p == Click <==> 0.1 <= v < 0.3
    ensures p == Merge <==> 0.3 <= v < 0.4
    ensures p == Done <==> 0.4 <= v
  {
    if v < 0.05 then Intro
    else if v < 0.1 then Draw
    else if v < 0.3 then Click
    else if v < 0.4 then Merge
    else Done
  }

  /** How many of the thresholds `v` has reached. */
  function CountReached(ts: seq<real>, v: real): (n: nat)
    ensures n <= |ts|
  {
    if ts == [] then 0 else (if ts[0] <= v then 1 else 0) + CountReached(ts[1..], v)
  }

  /** The phase is the number of thresholds reached: lower bounds are inclusive and every value has a phase. */
  lemma ClassifyCountsThresholds(v: real)
    ensures Ordinal(Classify(v)) == CountReached(Thresholds, v)
  {
    var ts := Thresholds;
    assert ts[1..] == [0.1, 0.3, 0.4] && ts[2..] == [0.3, 0.4] && ts[3..] == [0.4];
    assert ts[4..] == [];
    assert CountReached(ts[3..], v) == if 0.4 <= v then 1 else 0;
    assert CountReached(ts[2..], v) == (if 0.3 <= v then 1 else 0) + CountReached(ts[3..], v);
    assert CountReached(ts[1..], v) == (if 0.1 <= v then 1 else 0) + CountReached(ts[2..], v);
  }

  lemma {:induction false} CountReachedMonotone(ts: seq<real>, v: real, w: real)
    requires v <= w
    ensures CountReached(ts, v) <= CountReached(ts, w)
  {
    if ts != [] {
      CountReachedMonotone(ts[1..], v, w);
    }
  }

  /** Scrolling further never moves the story backwards. */
  lemma ClassifyMonotone(v: real, w: real)
    requires v <= w
    ensures Ordinal(Classify(v)) <= Ordinal(Classify(w))
  {
    ClassifyCountsThresholds(v);
    ClassifyCountsThresholds(w);
    CountReachedMonotone(Thresholds, v, w);
  }

  /** The hook's state: the last progress value it was told about and its phase. */
  class ScrollPhaseHook {
    var phase: Phase
    var progress: real

    /** The phase always agrees with the progress. */
    predicate Valid()
      reads this
    {
      phase == Classify(progress)
    }

    /** Before any change event: `intro`, progress 0. */
    constructor ()
      ensures phase == Intro && progress == 0.0
      ensures Valid()
    {
      phase := Intro;
      progress := 0.0;
    }

    /** The `onChange` callback: records `v` and its phase. */
    method OnChange(v: real)
      modifies this
      ensures progress == v && phase == Classify(v)
      ensures Valid()
    {
      progress := v;
      if v < 0.05 {
        phase := Intro;
      } else if v < 0.1 {
        phase := Draw;
      } else if v < 0.3 {
        phase := Click;
      } else if v < 0.4 {
        phase := Merge;
      } else {
        phase := Done;
      }
    }
  }
}
