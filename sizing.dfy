/** The minimum order size of a symbol: the smallest quantity, in steps of
    the exchange's step size, whose value with fees clears the exchange's
    minimum notional, padded for fees and a 5% margin. */
module Sizing {

  /** The exchange's trading rules for the symbol. */
  datatype SymbolRules = SymbolRules(minQty: real, notional: real, stepSize: real, quantityPrecision: nat)

  /** The framework's conversion of a quote-currency size at a price into a
      quantity at a precision, given the fee rate. */
  type SizeToQty = (real, real, nat, real) -> real

  /** A quantity's value at the price with three fee rates on top. */
  function Gross(qty: real, close: real, feeRate: real): real {
    qty * close + qty * close * (feeRate * 3.0)
  }

  /** A size padded with six fee rates and then 5%. */
  function Padded(size: real, feeRate: real): real {
    (size + size * (feeRate * 6.0)) * 1.05
  }

  /** Padding never shrinks a non-negative size. */
  lemma PaddedCovers(size: real, feeRate: real)
    requires size >= 0.0 && feeRate >= 0.0
    ensures Padded(size, feeRate) >= size
  {
    assert size * (feeRate * 6.0) >= 0.0;
  }

  /** The gross value after `k` steps of `step` from `q0`. */
  function GrossAfter(q0: real, step: real, k: int, close: real, feeRate: real): real {
    Gross(q0 + k as real * step, close, feeRate)
  }

  /** Each step adds the same amount to the gross value. */
  lemma GrossSteps(q0: real, step: real, k: int, close: real, feeRate: real)
    ensures GrossAfter(q0, step, k, close, feeRate)
         == Gross(q0, close, feeRate) + k as real * (step * close * (1.0 + feeRate * 3.0))
  {
    var c := close * (1.0 + feeRate * 3.0);
    assert Gross(q0 + k as real * step, close, feeRate) == (q0 + k as real * step) * c;
    assert Gross(q0, close, feeRate) == q0 * c;
  }

  /** `n` is the first positive number of steps from `q0` whose gross value
      clears the notional. */
  ghost predicate FirstCrossing(q0: real, step: real, close: real, feeRate: real, notional: real, n: int) {
    && n >= 1
    && GrossAfter(q0, step, n, close, feeRate) > notional
    && forall k :: 1 <= k < n ==> GrossAfter(q0, step, k, close, feeRate) <= notional
  }

  /** When the minimum quantity already clears the notional it is padded
      and converted; otherwise the notional is converted to a quantity,
      which is then raised one step at a time until its gross value clears
      the notional, and that value is padded and converted. */
  method MinOrderSize(rules: SymbolRules, close: real, feeRate: real, sizeToQty: SizeToQty)
    returns (qty: real, cyclePosSize: real, ghost steps: int)
    requires rules.stepSize > 0.0 && close > 0.0 && feeRate >= 0.0
    ensures rules.minQty * close >= rules.notional ==>
      && cyclePosSize == Padded(rules.minQty * close, feeRate)
      && qty == sizeToQty(cyclePosSize, close, rules.quantityPrecision, feeRate)
    ensures rules.minQty * close < rules.notional ==>
      var q0 := sizeToQty(rules.notional, close, rules.quantityPrecision, feeRate);
      && FirstCrossing(q0, rules.stepSize, close, feeRate, rules.notional, steps)
      && cyclePosSize == Padded(GrossAfter(q0, rules.stepSize, steps, close, feeRate), feeRate)
      && qty == sizeToQty(cyclePosSize, close, rules.quantityPrecision, feeRate)
    ensures rules.notional >= 0.0 ==> cyclePosSize >= rules.notional
  {
    if rules.minQty * close >= rules.notional {
      cyclePosSize := Padded(rules.minQty * close, feeRate);
      if rules.notional >= 0.0 {
        PaddedCovers(rules.minQty * close, feeRate);
      }
      qty := sizeToQty(cyclePosSize, close, rules.quantityPrecision, feeRate);
      steps := 0;
      return;
    }
    qty := sizeToQty(rules.notional, close, rules.quantityPrecision, feeRate);
    var gross;
    qty, gross, steps := StepPastNotional(qty, rules.stepSize, close, feeRate, rules.notional);
    cyclePosSize := Padded(gross, feeRate);
    if rules.notional >= 0.0 {
      PaddedCovers(gross, feeRate);
    }
    qty := sizeToQty(cyclePosSize, close, rules.quantityPrecision, feeRate);
  }

  /** The stepping loop of the minimum order size: add one step at a time to
      `q0` until the gross value exceeds the notional. It ends because every
      step adds the same positive amount to the gross value. */
  method StepPastNotional(q0: real, step: real, close: real, feeRate: real, notional: real)
    returns (qty: real, gross: real, ghost steps: int)
    requires step > 0.0 && close > 0.0 && feeRate >= 0.0
    ensures FirstCrossing(q0, step, close, feeRate, notional, steps)
    ensures qty == q0 + steps as real * step
    ensures gross == GrossAfter(q0, step, steps, close, feeRate) && gross > notional
  {
    qty := q0;
    ghost var inc := step * close * (1.0 + feeRate * 3.0);
    assert inc > 0.0;
    ghost var room := ((notional - Gross(q0, close, feeRate)) / inc).Floor;
    ghost var i := 0;
    while true
      invariant i >= 0 && qty == q0 + i as real * step
      invariant forall k :: 1 <= k <= i ==> GrossAfter(q0, step, k, close, feeRate) <= notional
      invariant i == 0 || i <= room
      decreases room + 1 - i
    {
      qty := qty + step;
      i := i + 1;
      gross := Gross(qty, close, feeRate);
      assert gross == GrossAfter(q0, step, i, close, feeRate);
      if gross > notional {
        steps := i;
        return;
      }
      GrossSteps(q0, step, i, close, feeRate);
      StepsWithinRoom(Gross(q0, close, feeRate), inc, i, notional);
    }
  }

  /** A step count whose gross value stays within the notional is bounded
      by the room between the starting gross value and the notional. */
  lemma StepsWithinRoom(g0: real, inc: real, i: int, notional: real)
    requires inc > 0.0 && g0 + i as real * inc <= notional
    ensures i <= ((notional - g0) / inc).Floor
  {
    assert i as real * inc <= notional - g0;
    assert i as real <= (notional - g0) / inc;
  }
}
