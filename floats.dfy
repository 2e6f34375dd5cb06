/** The `f64` values the combat formulas produce.

    A finite value is an exact rational: the rounding of IEEE 754 arithmetic
    is not modelled. What is modelled is what division by zero yields, since
    the formulas divide by quantities that the source never checks: a
    non-zero value over zero is an infinity, zero over zero is NaN, and an
    infinity times zero is NaN. Every zero divisor in the formulas arises as
    `+0.0` (an integer `0 as f64`, or `x + 1.0` with `x == -1.0`), so a zero
    divisor is taken to be positive. */
module Floats {

  datatype Float = Num(v: real) | PosInf | NegInf | NaN

  /** `a / b` on two finite values. */
  function Quotient(a: real, b: real): Float
  {
    if b != 0.0 then Num(a / b)
    else if a > 0.0 then PosInf
    else if a < 0.0 then NegInf
    else NaN
  }

  /** `a - x` for a finite `a`. */
  function Minus(a: real, x: Float): Float
  {
    match x
    case Num(v) => Num(a - v)
    case PosInf => NegInf
    case NegInf => PosInf
    case NaN => NaN
  }

  /** `x * c` for a finite `c`. */
  function Times(x: Float, c: real): Float
  {
    match x
    case Num(v) => Num(v * c)
    case NaN => NaN
    case _ =>
      if c == 0.0 then NaN
      else if (c > 0.0) == x.PosInf? then PosInf
      else NegInf
  }

  /** `x / c` for a finite `c`. */
  function Over(x: Float, c: real): Float
  {
    match x
    case Num(v) => Quotient(v, c)
    case NaN => NaN
    case _ =>
      if (c >= 0.0) == x.PosInf? then PosInf else NegInf
  }

  /** `x <= y` as `partial_cmp` orders two floats: false whenever either is
      NaN, which `partial_cmp` cannot compare. */
  predicate Le(x: Float, y: Float)
  {
    match (x, y)
    case (NaN, _) => false
    case (_, NaN) => false
    case (NegInf, _) => true
    case (_, PosInf) => true
    case (Num(a), Num(b)) => a <= b
    case _ => false
  }

  /** Any two values that are not NaN are comparable. */
  lemma LeTotal(x: Float, y: Float)
    requires !x.NaN? && !y.NaN?
    ensures Le(x, y) || Le(y, x)
  {
  }

  lemma LeTransitive(x: Float, y: Float, z: Float)
    requires Le(x, y) && Le(y, z)
    ensures Le(x, z)
  {
  }

  lemma LeAntisymmetric(x: Float, y: Float)
    requires Le(x, y) && Le(y, x)
    ensures x == y
  {
  }
}
