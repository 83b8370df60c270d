/**
 * The part of JavaScript number semantics the engine can run into: a division
 * whose divisor is zero does not fail but yields an infinity or NaN, and those
 * values then flow through a multiplication and a `>=` comparison.
 * Finite numbers are modelled as `real`; rounding is not modelled.
 */
module Numbers {

  /** The value of `a / b` for finite `a` and `b`. */
  datatype Quotient = Finite(value: real) | PositiveInfinity | NegativeInfinity | NotANumber

  /** JavaScript `a / b`; a zero divisor is taken to be +0. */
  function Divide(a: real, b: real): (q: Quotient)
    ensures q.Finite? <==> b != 0.0
    ensures q.Finite? ==> q.value * b == a
  {
    if b != 0.0 then Finite(a / b)
    else if a > 0.0 then PositiveInfinity
    else if a < 0.0 then NegativeInfinity
    else NotANumber
  }

  /** JavaScript `q * k` for a positive finite constant `k`: infinities and NaN are kept. */
  function Scale(q: Quotient, k: real): (r: Quotient)
    requires k > 0.0
    ensures r.Finite? <==> q.Finite?
    ensures r.Finite? ==> r.value == q.value * k
    ensures !q.Finite? ==> r == q
  {
    match q
    case Finite(v) => Finite(v * k)
    case _ => q
  }

  /** JavaScript `q >= bound` for a finite `bound`: NaN compares false, +Infinity true. */
  predicate AtLeast(q: Quotient, bound: real) {
    match q
    case Finite(v) => v >= bound
    case PositiveInfinity => true
    case NegativeInfinity => false
    case NotANumber => false
  }

  /** Dividing by zero yields NaN only for 0/0, and an infinity of the numerator's sign otherwise. */
  lemma DivideByZero(a: real)
    ensures Divide(a, 0.0) == (if a > 0.0 then PositiveInfinity else if a < 0.0 then NegativeInfinity else NotANumber)
    ensures AtLeast(Divide(a, 0.0), 0.0) <==> a > 0.0
  {
  }
}
