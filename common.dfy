/** Shared vocabulary of the risk engine: optional values standing for the
    NaN sentinels of the original, results standing for its exceptions, and
    the small numeric helpers (max, min, abs, decimal rounding). */
module Common {

  /** An absent value is a metric the original reports as NaN. */
  datatype Option<+T> = None | Some(value: T) {
    function GetOr(default: T): T {
      match this
      case Some(v) => v
      case None => default
    }
  }

  /** The exceptions the original can raise on the risk path. */
  datatype Fault =
    | ZeroDivision              // ZeroDivisionError from a float division
    | NoRiskLimits              // subscripting the None returned for an unknown exchange
    | MissingKey                // subscripting the FTX parameter record for a tier field
    | MissingBaseTier           // Bybit table without an is_lowest_risk == 1 tier
    | MathDomain                // ValueError from the square root of a short position's negative size
    | LiquidationDetected(mr: real) // the exception raised on liquidation outside live trading

  /** A value, or the exception that replaced it; usable with `:-`. */
  datatype Result<+T> = Ok(value: T) | Err(fault: Fault) {
    predicate IsFailure() {
      Err?
    }

    function PropagateFailure<U>(): Result<U>
      requires Err?
    {
      Err(fault)
    }

    function Extract(): T
      requires Ok?
    {
      value
    }
  }

  function Max(a: real, b: real): (m: real)
    ensures m >= a && m >= b && (m == a || m == b)
  {
    if a >= b then a else b
  }

  function Min(a: real, b: real): (m: real)
    ensures m <= a && m <= b && (m == a || m == b)
  {
    if a <= b then a else b
  }

  function Abs(x: real): (r: real)
    ensures r >= 0.0 && (r == x || r == -x)
  {
    if x < 0.0 then -x else x
  }

  function Pow10(n: nat): (p: nat)
    ensures p >= 1
  {
    if n == 0 then 1 else 10 * Pow10(n - 1)
  }

  /** Rounding to `places` decimal digits, ties rounded up. */
  function Round(x: real, places: nat): (r: real)
    ensures Abs(r - x) <= 1.0 / (2 * Pow10(places)) as real
  {
    var p := Pow10(places) as real;
    var k := (x * p + 0.5).Floor;
    RoundError(x, p, k);
    k as real / p
  }

  /** The rounding error is at most half a unit in the last kept place. */
  lemma RoundError(x: real, p: real, k: int)
    requires p >= 1.0 && k == (x * p + 0.5).Floor
    ensures Abs(k as real / p - x) <= 1.0 / (2.0 * p)
  {
    assert k as real <= x * p + 0.5 < k as real + 1.0;
    assert k as real / p - x == (k as real - x * p) / p;
  }

  lemma {:induction false} RoundZero(places: nat)
    ensures Round(0.0, places) == 0.0
  {
  }
}
