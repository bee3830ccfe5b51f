/** components/ui/quantityIndicator.tsx: the quantity picker's clamped step buttons,
    their disabled states and the tick labels under its slider. */
module Quantity {
  /** `maxMintAmount` when the prop is not given. */
  const DefaultMax: int := 10

  /** `incrementAmount`'s updater: one more, but never above `max`. */
  function Increment(prev: int, max: int): (r: int)
    ensures r <= max
    ensures r == prev + 1 || r == max
    ensures prev < max ==> r == prev + 1
  {
    if prev + 1 <= max then prev + 1 else max
  }

  /** `decrementAmount`'s updater: one less, but never below 1. */
  function Decrement(prev: int): (r: int)
    ensures r >= 1
    ensures r == prev - 1 || r == 1
    ensures prev > 1 ==> r == prev - 1
  {
    if prev - 1 >= 1 then prev - 1 else 1
  }

  predicate IncrementDisabled(amount: int, max: int) { amount >= max }

  predicate DecrementDisabled(amount: int) { amount <= 1 }

  /** Within `[1, max]` both steps stay in range, and a button is disabled exactly when
      its step would leave the amount unchanged. */
  lemma StepsStayInRange(amount: int, max: int)
    requires 1 <= amount <= max
    ensures 1 <= Increment(amount, max) <= max && 1 <= Decrement(amount) <= max
    ensures IncrementDisabled(amount, max) <==> Increment(amount, max) == amount
    ensures DecrementDisabled(amount) <==> Decrement(amount) == amount
  {
  }

  /** The labels under the slider: 1 up to `max` (none for a non-positive `max`). */
  function TickLabels(max: int): (r: seq<int>)
    ensures |r| == if max < 0 then 0 else max
    ensures forall i :: 0 <= i < |r| ==> r[i] == i + 1
  {
    seq(if max < 0 then 0 else max, i => i + 1)
  }

  /** Every amount reachable with the buttons from 1 has a tick label. */
  lemma {:induction false} ButtonsReachOnlyLabelledAmounts(steps: seq<bool>, max: int)
    requires max >= 1
    ensures 1 <= Walk(1, steps, max) <= max
    ensures Walk(1, steps, max) in TickLabels(max)
  {
    WalkInRange(1, steps, max);
    var a := Walk(1, steps, max);
    assert TickLabels(max)[a - 1] == a;
  }

  /** The amount after a sequence of clicks, `true` for "+" and `false` for "-". */
  function Walk(start: int, steps: seq<bool>, max: int): int
    decreases |steps|
  {
    if steps == [] then start
    else Walk(if steps[0] then Increment(start, max) else Decrement(start), steps[1..], max)
  }

  lemma {:induction false} WalkInRange(start: int, steps: seq<bool>, max: int)
    requires 1 <= start <= max
    ensures 1 <= Walk(start, steps, max) <= max
    decreases |steps|
  {
    if steps != [] {
      StepsStayInRange(start, max);
      WalkInRange(if steps[0] then Increment(start, max) else Decrement(start), steps[1..], max);
    }
  }
}
