/**
 * float64 values as numpy and pandas treat them. A finite value is an exact
 * real (binary rounding is not modelled); NaN and the two infinities follow
 * the IEEE 754 special-value rules that pandas arithmetic inherits.
 */
module Floats {

  datatype Float = Fin(v: real) | NaN | Inf(neg: bool)

  predicate IsFinite(x: Float) { x.Fin? }

  function Neg(x: Float): Float
  {
    match x
    case Fin(a) => Fin(-a)
    case NaN => NaN
    case Inf(n) => Inf(!n)
  }

  function Add(x: Float, y: Float): Float
  {
    match (x, y)
    case (NaN, _) => NaN
    case (_, NaN) => NaN
    case (Inf(n1), Inf(n2)) => if n1 == n2 then Inf(n1) else NaN
    case (Inf(n), Fin(_)) => Inf(n)
    case (Fin(_), Inf(n)) => Inf(n)
    case (Fin(a), Fin(b)) => Fin(a + b)
  }

  function Sub(x: Float, y: Float): Float
  {
    Add(x, Neg(y))
  }

  function Mul(x: Float, y: Float): Float
  {
    match (x, y)
    case (NaN, _) => NaN
    case (_, NaN) => NaN
    case (Inf(n1), Inf(n2)) => Inf(n1 != n2)
    case (Inf(n), Fin(b)) => if b == 0.0 then NaN else Inf(n != (b < 0.0))
    case (Fin(a), Inf(n)) => if a == 0.0 then NaN else Inf(n != (a < 0.0))
    case (Fin(a), Fin(b)) => Fin(a * b)
  }

  /** Division of pandas columns: a zero divisor gives an infinity or NaN, never an exception. */
  function Div(x: Float, y: Float): Float
  {
    match (x, y)
    case (NaN, _) => NaN
    case (_, NaN) => NaN
    case (Inf(_), Inf(_)) => NaN
    case (Fin(_), Inf(_)) => Fin(0.0)
    case (Inf(n), Fin(b)) => if b == 0.0 then Inf(n) else Inf(n != (b < 0.0))
    case (Fin(a), Fin(b)) =>
      if b != 0.0 then Fin(a / b)
      else if a == 0.0 then NaN
      else Inf(a < 0.0)
  }

  /** Position on the extended real line; only meaningful for non-NaN values. */
  predicate Below(x: Float, y: Float)
    requires !x.NaN? && !y.NaN?
  {
    match (x, y)
    case (Fin(a), Fin(b)) => a < b
    case (Inf(n), Fin(_)) => n
    case (Fin(_), Inf(n)) => !n
    case (Inf(n1), Inf(n2)) => n1 && !n2
  }

  /** `x < y`; every comparison with NaN is false. */
  predicate Lt(x: Float, y: Float)
  {
    !x.NaN? && !y.NaN? && Below(x, y)
  }

  /** `x == y`; NaN equals nothing, itself included. */
  predicate Eq(x: Float, y: Float)
  {
    !x.NaN? && !y.NaN? && x == y
  }

  predicate Le(x: Float, y: Float) { Lt(x, y) || Eq(x, y) }

  predicate Gt(x: Float, y: Float) { Lt(y, x) }

  predicate Ge(x: Float, y: Float) { Le(y, x) }

  /** `x != y`, true whenever either side is NaN. */
  predicate Ne(x: Float, y: Float) { !Eq(x, y) }

  /** On non-NaN values exactly one of <, == and > holds. */
  lemma Trichotomy(x: Float, y: Float)
    requires !x.NaN? && !y.NaN?
    ensures (Lt(x, y) && !Eq(x, y) && !Gt(x, y))
         || (!Lt(x, y) && Eq(x, y) && !Gt(x, y))
         || (!Lt(x, y) && !Eq(x, y) && Gt(x, y))
  {
  }

  /** `>=` and `<` are complementary unless NaN is involved. */
  lemma GeIsNotLt(x: Float, y: Float)
    ensures Ge(x, y) ==> !Lt(x, y)
    ensures !x.NaN? && !y.NaN? ==> (Ge(x, y) <==> !Lt(x, y))
  {
  }

  /** `(b * r) / b` gives back `r` for a finite non-zero `b`, and NaN for `b == 0`. */
  lemma MulDivCancel(b: Float, r: Float)
    ensures b.Fin? && b.v != 0.0 && r.Fin? ==> Div(Mul(b, r), b) == r
    ensures b == Fin(0.0) ==> Div(Mul(b, r), b).NaN?
  {
    if b.Fin? && b.v != 0.0 && r.Fin? {
      assert (b.v * r.v) / b.v == r.v;
    }
  }
}
