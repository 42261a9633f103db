/** The time store: the running total of minutes saved, updated by an additive setter. */
module TimeStore {

  class TimeStore {
    /** Minutes saved so far. */
    var time: real

    /** The store is created with nothing saved. */
    constructor ()
      ensures time == 0.0
    {
      time := 0.0;
    }

    /** `setTime(addedTime)`: adds to the total; it never assigns it. */
    method SetTime(addedTime: real)
      modifies this
      ensures time == old(time) + addedTime
    {
      time := time + addedTime;
    }
  }

  /** The sum of a sequence of amounts. */
  function Sum(xs: seq<real>): real {
    if xs == [] then 0.0 else xs[0] + Sum(xs[1..])
  }

  /** The total after `setTime` is called with each of `xs` in turn, starting from `t`. */
  function AfterCalls(t: real, xs: seq<real>): real
    decreases xs
  {
    if xs == [] then t else AfterCalls(t + xs[0], xs[1..])
  }

  /** One more call adds its argument to whatever the earlier calls left. */
  lemma {:induction false} AfterOneMoreCall(t: real, xs: seq<real>, x: real)
    ensures AfterCalls(t, xs + [x]) == AfterCalls(t, xs) + x
    decreases xs
  {
    if xs != [] {
      assert (xs + [x])[1..] == xs[1..] + [x];
      AfterOneMoreCall(t + xs[0], xs[1..], x);
    }
  }

  /** After a sequence of calls the total is the starting total plus the sum of the arguments. */
  lemma {:induction false} AfterCallsIsSum(t: real, xs: seq<real>)
    ensures AfterCalls(t, xs) == t + Sum(xs)
    decreases xs
  {
    if xs != [] {
      AfterCallsIsSum(t + xs[0], xs[1..]);
    }
  }

  lemma {:induction false} SumNonNegative(xs: seq<real>)
    requires forall i :: 0 <= i < |xs| ==> xs[i] >= 0.0
    ensures Sum(xs) >= 0.0
  {
    if xs != [] {
      SumNonNegative(xs[1..]);
    }
  }

  /** Non-negative amounts never make the total go down, and from 0 it stays non-negative. */
  lemma TotalNeverDecreases(t: real, xs: seq<real>)
    requires forall i :: 0 <= i < |xs| ==> xs[i] >= 0.0
    ensures AfterCalls(t, xs) >= t
    ensures t >= 0.0 ==> AfterCalls(t, xs) >= 0.0
  {
    AfterCallsIsSum(t, xs);
    SumNonNegative(xs);
  }
}
