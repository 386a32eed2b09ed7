/** Element-wise pandas arithmetic on numeric columns. */
module ColumnMath {

  import opened Floats

  /** `a * b`. */
  function Product(a: seq<Float>, b: seq<Float>): (r: seq<Float>)
    requires |a| == |b|
    ensures |r| == |a|
    ensures forall i :: 0 <= i < |a| ==> r[i] == Mul(a[i], b[i])
  {
    seq(|a|, i requires 0 <= i < |a| => Mul(a[i], b[i]))
  }

  /** `a / b`. */
  function Quotient(a: seq<Float>, b: seq<Float>): (r: seq<Float>)
    requires |a| == |b|
    ensures |r| == |a|
    ensures forall i :: 0 <= i < |a| ==> r[i] == Div(a[i], b[i])
  {
    seq(|a|, i requires 0 <= i < |a| => Div(a[i], b[i]))
  }

  /** `a - s` for a scalar `s`. */
  function MinusScalar(a: seq<Float>, s: Float): (r: seq<Float>)
    ensures |r| == |a|
    ensures forall i :: 0 <= i < |a| ==> r[i] == Sub(a[i], s)
  {
    seq(|a|, i requires 0 <= i < |a| => Sub(a[i], s))
  }

  /** `a / s` for a scalar `s`. */
  function OverScalar(a: seq<Float>, s: Float): (r: seq<Float>)
    ensures |r| == |a|
    ensures forall i :: 0 <= i < |a| ==> r[i] == Div(a[i], s)
  {
    seq(|a|, i requires 0 <= i < |a| => Div(a[i], s))
  }

  /** `f(a)` applied cell by cell, as a numpy ufunc is. */
  function Apply(f: Float -> Float, a: seq<Float>): (r: seq<Float>)
    ensures |r| == |a|
    ensures forall i :: 0 <= i < |a| ==> r[i] == f(a[i])
  {
    seq(|a|, i requires 0 <= i < |a| => f(a[i]))
  }

  /** `a * b` is commutative, propagates NaN, and multiplies finite cells as reals. */
  lemma ProductCells(a: seq<Float>, b: seq<Float>)
    requires |a| == |b|
    ensures Product(a, b) == Product(b, a)
    ensures forall i :: 0 <= i < |a| && (a[i].NaN? || b[i].NaN?) ==> Product(a, b)[i].NaN?
    ensures forall i :: 0 <= i < |a| && a[i].Fin? && b[i].Fin? ==> Product(a, b)[i] == Fin(a[i].v * b[i].v)
  {
    forall i | 0 <= i < |a|
      ensures Product(a, b)[i] == Product(b, a)[i]
    {
      if a[i].Fin? && b[i].Fin? {
        assert a[i].v * b[i].v == b[i].v * a[i].v;
      }
    }
  }

  /** Dividing by a column of finite non-zero values undoes multiplying by it. */
  lemma QuotientUndoesProduct(a: seq<Float>, b: seq<Float>)
    requires |a| == |b|
    requires forall i :: 0 <= i < |a| ==> a[i].Fin? && b[i].Fin? && b[i].v != 0.0
    ensures Quotient(Product(b, a), b) == a
  {
    forall i | 0 <= i < |a|
      ensures Quotient(Product(b, a), b)[i] == a[i]
    {
      MulDivCancel(b[i], a[i]);
    }
  }

  /** A zero divisor never raises: `0 / 0` and NaN give NaN, any other value a signed infinity. */
  lemma QuotientByZero(a: seq<Float>, b: seq<Float>)
    requires |a| == |b|
    ensures forall i :: 0 <= i < |a| && b[i] == Fin(0.0) ==>
              (Quotient(a, b)[i].NaN? <==> a[i].NaN? || a[i] == Fin(0.0))
    ensures forall i :: 0 <= i < |a| && b[i] == Fin(0.0) && a[i].Fin? && a[i].v != 0.0 ==>
              Quotient(a, b)[i] == Inf(a[i].v < 0.0)
    ensures forall i :: 0 <= i < |a| && b[i] == Fin(0.0) && a[i].Inf? ==> Quotient(a, b)[i] == a[i]
  {
  }

  /**
   * `a - s` for a finite `s` shifts every finite cell by `s` and keeps NaN and
   * the infinities; `a - 0` is `a`, and `a - NaN` is NaN throughout.
   */
  lemma MinusScalarCells(a: seq<Float>, s: real)
    ensures forall i :: 0 <= i < |a| && a[i].Fin? ==> MinusScalar(a, Fin(s))[i] == Fin(a[i].v - s)
    ensures forall i :: 0 <= i < |a| && !a[i].Fin? ==> MinusScalar(a, Fin(s))[i] == a[i]
    ensures MinusScalar(a, Fin(0.0)) == a
    ensures forall i :: 0 <= i < |a| ==> MinusScalar(a, NaN)[i].NaN?
  {
    forall i | 0 <= i < |a|
      ensures MinusScalar(a, Fin(0.0))[i] == a[i]
    {
      assert Neg(Fin(0.0)) == Fin(0.0);
    }
  }

  /**
   * `a / s` for a finite non-zero `s` divides every finite cell by `s` and keeps
   * NaN; an infinity keeps its sign exactly when `s > 0`; `a / 1` is `a`.
   */
  lemma OverScalarCells(a: seq<Float>, s: real)
    requires s != 0.0
    ensures forall i :: 0 <= i < |a| && a[i].Fin? ==> OverScalar(a, Fin(s))[i] == Fin(a[i].v / s)
    ensures forall i :: 0 <= i < |a| && a[i].NaN? ==> OverScalar(a, Fin(s))[i].NaN?
    ensures forall i :: 0 <= i < |a| && a[i].Inf? ==> OverScalar(a, Fin(s))[i] == Inf(a[i].neg != (s < 0.0))
    ensures OverScalar(a, Fin(1.0)) == a
  {
    forall i | 0 <= i < |a|
      ensures OverScalar(a, Fin(1.0))[i] == a[i]
    {
      if a[i].Fin? {
        assert a[i].v / 1.0 == a[i].v;
      }
    }
  }

  /** A cell-wise function acts on each row alone: it distributes over joining rows and composes. */
  lemma ApplyRowwise(f: Float -> Float, g: Float -> Float, a: seq<Float>, b: seq<Float>)
    ensures Apply(f, a + b) == Apply(f, a) + Apply(f, b)
    ensures Apply(f, Apply(g, a)) == Apply(x => f(g(x)), a)
  {
    assert forall i :: 0 <= i < |a + b| ==> Apply(f, a + b)[i] == (Apply(f, a) + Apply(f, b))[i];
  }
}
