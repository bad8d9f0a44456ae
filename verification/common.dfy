/** Shared vocabulary: optional values, the exceptions the bot can raise, and the
    two Python numeric conversions the trading code relies on (`int()` on a
    float and `round()`). */
module Common {

  datatype Option<+T> = None | Some(value: T)

  /** The exceptions that escape the modelled Python methods. */
  datatype Fault =
    | PriceUnavailable   // RuntimeError: no SPX price inside the sane band
    | ZeroDivision       // ZeroDivisionError from a float division by zero

  datatype Result<+T> = Ok(value: T) | Err(fault: Fault)

  /** The next reply of a scripted collaborator, or `default` once the script is used up. */
  function Head<T>(script: seq<T>, default: T): T
  {
    if |script| > 0 then script[0] else default
  }

  /** The script after one reply has been consumed. */
  function Tail<T>(script: seq<T>): seq<T>
  {
    if |script| > 0 then script[1..] else []
  }

  /** The reply the `k`-th call receives (counting from 0). */
  function ScriptAt<T>(script: seq<T>, k: nat, default: T): T
  {
    if k < |script| then script[k] else default
  }

  function Abs(x: real): real
  {
    if x < 0.0 then -x else x
  }

  function MinReal(a: real, b: real): real
  {
    if a <= b then a else b
  }

  function MaxReal(a: real, b: real): real
  {
    if a >= b then a else b
  }

  function MinInt(a: int, b: int): int
  {
    if a <= b then a else b
  }

  function MaxInt(a: int, b: int): int
  {
    if a >= b then a else b
  }

  /** Python's `int(x)` on a float: truncation toward zero. */
  function Truncate(x: real): (r: int)
    ensures 0.0 <= x ==> r >= 0 && r as real <= x < r as real + 1.0
    ensures x < 0.0 ==> r <= 0 && r as real - 1.0 < x <= r as real
  {
    if x >= 0.0 then x.Floor else -((-x).Floor)
  }

  lemma TruncateIsFloorWhenNonNegative(x: real)
    requires 0.0 <= x
    ensures Truncate(x) == x.Floor
  {
  }

  /** `int(budget / unit)` counts whole units: for a positive unit and n >= 1, n units fit in
      the budget exactly when n is at most that count. */
  lemma WholeUnits(budget: real, unit: real, n: int)
    requires unit > 0.0 && n >= 1
    ensures n <= Truncate(budget / unit) <==> n as real * unit <= budget
  {
    var q := budget / unit;
    assert q * unit == budget;
    if n <= Truncate(q) {
      assert n as real <= q;
      assert n as real * unit <= q * unit;
    } else {
      assert n as real > q;
      assert n as real * unit > q * unit;
    }
  }

  /** The count `int(budget / unit)` is the largest number of whole units the budget pays for
      (once it is not negative), and it is positive exactly when one unit fits. */
  lemma WholeUnitsCount(budget: real, unit: real)
    requires unit > 0.0
    ensures var n := Truncate(budget / unit);
      && (n >= 1 <==> unit <= budget)
      && (n >= 1 ==> n as real * unit <= budget)
      && (n >= 0 ==> (n + 1) as real * unit > budget)
  {
    var n := Truncate(budget / unit);
    WholeUnits(budget, unit, 1);
    if n >= 1 {
      WholeUnits(budget, unit, n);
    }
    if n >= 0 {
      WholeUnits(budget, unit, n + 1);
    }
  }

  /** Python's `round(x)`: nearest integer, ties to the even neighbour. */
  function RoundHalfEven(x: real): (r: int)
    ensures Abs(x - r as real) <= 0.5
    ensures x - x.Floor as real == 0.5 ==> r % 2 == 0
    ensures x - x.Floor as real != 0.5 ==> Abs(x - r as real) < 0.5
  {
    var f := x.Floor;
    var frac := x - f as real;
    if frac > 0.5 then f + 1
    else if frac < 0.5 then f
    else if f % 2 == 0 then f
    else f + 1
  }

  /** Rounding to the nearest integer never reverses the order of two values. */
  lemma RoundHalfEvenMonotone(x: real, y: real)
    requires x <= y
    ensures RoundHalfEven(x) <= RoundHalfEven(y)
  {
    var fx, fy := x.Floor, y.Floor;
    if fx < fy {
      assert RoundHalfEven(x) <= fx + 1 <= fy <= RoundHalfEven(y);
    } else {
      assert fx == fy;
      assert x - fx as real <= y - fy as real;
    }
  }

  /** Python's `round(x, 2)`, taken on exact reals: the nearest cent, ties to even. */
  function RoundCents(x: real): (r: real)
    ensures Abs(r - x) <= 0.005
  {
    RoundHalfEven(x * 100.0) as real / 100.0
  }

  lemma RoundCentsMonotone(x: real, y: real)
    requires x <= y
    ensures RoundCents(x) <= RoundCents(y)
  {
    RoundHalfEvenMonotone(x * 100.0, y * 100.0);
  }
}
