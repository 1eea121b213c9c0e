/**
 * The parts of JavaScript number arithmetic the application relies on, over
 * integers: `Math.ceil(a / b)`, `Math.floor(a / b)`, the remainder operator `%`
 * (whose sign follows the dividend), and the non-finite results of dividing by 0.
 */
module JsNumbers {

  /** `Math.ceil(a / b)` for a positive divisor: the least `q` with `q * b >= a`. */
  function CeilDiv(a: int, b: int): (q: int)
    requires b > 0
    ensures q * b >= a
    ensures (q - 1) * b < a
  {
    var d := (-a) / b;
    assert -a == d * b + (-a) % b;
    -d
  }

  /** `Math.floor(a / b)` for a positive divisor: the greatest `q` with `q * b <= a`. */
  function FloorDiv(a: int, b: int): (q: int)
    requires b > 0
    ensures q * b <= a < (q + 1) * b
  {
    a / b
  }

  /** `a % b` for a positive divisor: truncating, so the result has the sign of `a`. */
  function TruncRem(a: int, b: int): (r: int)
    requires b > 0
    ensures a >= 0 ==> 0 <= r < b
    ensures a < 0 ==> -b < r <= 0
    ensures a >= 0 ==> r == a - FloorDiv(a, b) * b
    ensures a < 0 ==> -r == -a - FloorDiv(-a, b) * b
  {
    if a >= 0 then a % b else -((-a) % b)
  }

  /** A JavaScript number that results from integer operands: finite, an infinity, or NaN. */
  datatype Number = Finite(value: int) | PositiveInfinity | NegativeInfinity | NaN

  /** `Math.ceil(a / b)` for any divisor; division by 0 is not an error in JavaScript. */
  function CeilQuotient(a: int, b: int): (q: Number)
    ensures b != 0 <==> q.Finite?
    ensures b > 0 ==> q == Finite(CeilDiv(a, b))
    ensures b < 0 ==> q == Finite(CeilDiv(-a, -b))
    ensures b == 0 ==> (q == PositiveInfinity <==> a > 0) && (q == NaN <==> a == 0)
  {
    if b > 0 then Finite(CeilDiv(a, b))
    else if b < 0 then Finite(CeilDiv(-a, -b))
    else if a > 0 then PositiveInfinity
    else if a < 0 then NegativeInfinity
    else NaN
  }

  /** Splitting a non-negative month count into whole years and leftover months loses nothing. */
  lemma YearsAndMonths(months: int)
    requires months >= 0
    ensures FloorDiv(months, 12) * 12 + TruncRem(months, 12) == months
    ensures 0 <= TruncRem(months, 12) < 12
    ensures FloorDiv(months, 12) >= 0
  {
  }
}
