/** Month-to-date accumulation and "current day" selection over daily series. */
module Sums {

  /** The running total `value = value + x` taken over `xs` from the first element on. */
  function Sum(xs: seq<nat>): nat
  {
    if xs == [] then 0 else Sum(xs[..|xs| - 1]) + xs[|xs| - 1]
  }

  /** The element at index -1: the most recent day of a chronological series. */
  function Last<T>(xs: seq<T>): T
    requires xs != []
  {
    xs[|xs| - 1]
  }

  /** An independent reference definition: the sum taken from the front. */
  function SumFromFront(xs: seq<nat>): nat
  {
    if xs == [] then 0 else xs[0] + SumFromFront(xs[1..])
  }

  lemma {:induction false} SumConcat(xs: seq<nat>, ys: seq<nat>)
    ensures Sum(xs + ys) == Sum(xs) + Sum(ys)
  {
    if ys != [] {
      var init := ys[..|ys| - 1];
      assert (xs + ys)[..|xs + ys| - 1] == xs + init;
      SumConcat(xs, init);
    } else {
      assert xs + ys == xs;
    }
  }

  /** Adding day by day from the start gives the same total as the front-first fold. */
  lemma {:induction false} SumAgreesWithFront(xs: seq<nat>)
    ensures Sum(xs) == SumFromFront(xs)
  {
    if xs != [] {
      assert xs == [xs[0]] + xs[1..];
      SumConcat([xs[0]], xs[1..]);
      assert [xs[0]][..0] == [];
      SumAgreesWithFront(xs[1..]);
    }
  }

  /** With non-negative counters, no single day exceeds the month-to-date total. */
  lemma {:induction false} ElementAtMostSum(xs: seq<nat>, i: nat)
    requires i < |xs|
    ensures xs[i] <= Sum(xs)
  {
    if i < |xs| - 1 {
      ElementAtMostSum(xs[..|xs| - 1], i);
    }
  }

  /** The current day is one of the summands, so it is bounded by the total. */
  lemma LastAtMostSum(xs: seq<nat>)
    requires xs != []
    ensures Last(xs) <= Sum(xs)
  {
    ElementAtMostSum(xs, |xs| - 1);
  }
}
