/** Arithmetic without rounding: what the float operations mean on real numbers, independent of how any kernel
    arranges them. */
module ExactArithmetic {
  import opened Floats

  predicate UnroundedAt(fm: FloatModel, x: real) { fm.round(x) == x }

  /** Rounding is not the point here: every exact result is its own value. */
  ghost predicate Exact(fm: FloatModel) { fm.Valid() && forall x :: UnroundedAt(fm, x) }

  predicate ExpPositiveAt(fm: FloatModel, x: real) { fm.expReal(x) > 0.0 }

  predicate ExpAddsAt(fm: FloatModel, x: real, y: real) { fm.expReal(x + y) == fm.expReal(x) * fm.expReal(y) }

  /** The exponential is positive and turns sums into products. */
  ghost predicate Exponential(fm: FloatModel) {
    Exact(fm) && (forall x :: ExpPositiveAt(fm, x)) && forall x, y :: ExpAddsAt(fm, x, y)
  }

  lemma Unrounded(fm: FloatModel, x: real)
    requires Exact(fm)
    ensures fm.round(x) == x
  {
    assert UnroundedAt(fm, x);
  }

  /** The operations on finite numbers are the rounded operations on reals, whatever the rounding. */
  lemma FiniteOperations(fm: FloatModel, a: F32, b: F32)
    requires a.Fin? && b.Fin?
    ensures fm.Add(a, b) == Fin(fm.round(a.r + b.r)) && fm.Sub(a, b) == Fin(fm.round(a.r - b.r))
    ensures fm.Mul(a, b) == Fin(fm.round(a.r * b.r)) && (b.r != 0.0 ==> fm.Div(a, b) == Fin(fm.round(a.r / b.r)))
    ensures fm.Exp(a) == Fin(fm.round(fm.expReal(a.r))) && fm.Negate(a) == Fin(-a.r)
    ensures a.r >= 0.0 ==> fm.Sqrt(a) == Fin(fm.round(fm.sqrtReal(a.r)))
    ensures Gt(a, b) <==> a.r > b.r
  {
    MulIs(fm, a, b);
    hide FloatModel.Mul;
  }

  lemma MulIs(fm: FloatModel, a: F32, b: F32)
    requires a.Fin? && b.Fin?
    ensures fm.Mul(a, b) == Fin(fm.round(a.r * b.r))
  {
  }

  lemma ExactAdd(fm: FloatModel, a: F32, b: F32)
    requires Exact(fm) && a.Fin? && b.Fin?
    ensures fm.Add(a, b) == Fin(a.r + b.r)
  {
    hide Exact;
    Unrounded(fm, a.r + b.r);
  }

  lemma ExactSub(fm: FloatModel, a: F32, b: F32)
    requires Exact(fm) && a.Fin? && b.Fin?
    ensures fm.Sub(a, b) == Fin(a.r - b.r)
  {
    hide Exact;
    Unrounded(fm, a.r - b.r);
    FiniteOperations(fm, a, b);
  }

  lemma ExactMul(fm: FloatModel, a: F32, b: F32)
    requires Exact(fm) && a.Fin? && b.Fin?
    ensures fm.Mul(a, b) == Fin(a.r * b.r)
  {
    hide FloatModel.Mul, Exact;
    FiniteOperations(fm, a, b);
    Unrounded(fm, a.r * b.r);
  }

  lemma ExactDiv(fm: FloatModel, a: F32, b: F32)
    requires Exact(fm) && a.Fin? && b.Fin? && b.r != 0.0
    ensures fm.Div(a, b) == Fin(a.r / b.r)
  {
    hide FloatModel.Div, Exact;
    FiniteOperations(fm, a, b);
    Unrounded(fm, a.r / b.r);
  }

  lemma ExactInt(fm: FloatModel, n: int)
    requires Exact(fm)
    ensures fm.FromInt(n) == Fin(n as real)
  {
    hide Exact;
    Unrounded(fm, n as real);
  }

  lemma ExactExp(fm: FloatModel, a: F32)
    requires Exponential(fm) && a.Fin?
    ensures fm.Exp(a) == Fin(fm.expReal(a.r)) && fm.expReal(a.r) > 0.0
  {
    hide Exact;
    Unrounded(fm, fm.expReal(a.r));
    assert ExpPositiveAt(fm, a.r);
  }

  /** Shifting an exponent divides by a common factor. */
  lemma ExpShift(fm: FloatModel, x: real, m: real)
    requires Exponential(fm)
    ensures fm.expReal(m) > 0.0 && fm.expReal(x - m) * fm.expReal(m) == fm.expReal(x)
  {
    hide Exact;
    assert ExpPositiveAt(fm, m) && ExpAddsAt(fm, x - m, m);
    assert (x - m) + m == x;
  }

  lemma ExponentialIsExact(fm: FloatModel)
    requires Exponential(fm)
    ensures Exact(fm) && fm.Valid()
  {
    hide FloatModel.Valid;
  }

  // ----- quotients -----

  /** A common factor cancels. */
  lemma Cancel(x: real, d: real, c: real)
    requires d * c != 0.0
    ensures d != 0.0 && (x * c) / (d * c) == x / d
  {
    var q := x / d;
    assert q * d == x;
    assert q * (d * c) == (q * d) * c;
    Quotient(q, d * c, x * c);
  }

  lemma Quotient(q: real, d: real, x: real)
    requires d != 0.0 && q * d == x
    ensures x / d == q
  {
  }

  /** Entries of a buffer as real numbers. */
  function RealAt(xs: seq<F32>, i: nat): real { if i < |xs| && xs[i].Fin? then xs[i].r else 0.0 }

  ghost predicate AllFinite(xs: seq<F32>) { forall i :: 0 <= i < |xs| ==> xs[i].Fin? }

  lemma AtIsReal(xs: seq<F32>, i: nat)
    requires AllFinite(xs)
    ensures At(xs, i) == Fin(RealAt(xs, i))
  {
  }

  /** A product of two entries. */
  lemma ProductIsReal(fm: FloatModel, xs: seq<F32>, i: nat, ys: seq<F32>, j: nat)
    requires Exact(fm) && AllFinite(xs) && AllFinite(ys)
    ensures fm.Mul(At(xs, i), At(ys, j)) == Fin(RealAt(xs, i) * RealAt(ys, j))
  {
    hide Exact, FloatModel.Mul, At, RealAt, AllFinite;
    AtIsReal(xs, i);
    AtIsReal(ys, j);
    ExactMul(fm, At(xs, i), At(ys, j));
  }
}
