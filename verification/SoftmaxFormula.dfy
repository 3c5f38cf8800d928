/** Softmax against its textbook formula, over real numbers. */
module SoftmaxFormula {
  import opened Floats
  import opened ExactArithmetic
  import opened Softmax

  /** The sum of the exponentials of the first `n` entries. */
  function ExpTotal(fm: FloatModel, xs: seq<F32>, n: nat): real {
    if n == 0 then 0.0 else ExpTotal(fm, xs, n - 1) + fm.expReal(RealAt(xs, n - 1))
  }

  lemma {:induction false} TotalPositive(fm: FloatModel, xs: seq<F32>, n: nat)
    requires Exponential(fm) && n > 0
    ensures ExpTotal(fm, xs, n) > 0.0
  {
    hide Exact;
    assert ExpPositiveAt(fm, RealAt(xs, n - 1));
    if n > 1 {
      TotalPositive(fm, xs, n - 1);
    }
  }

  /** The shifted exponentials are the plain ones divided by the exponential of the shift. */
  lemma ShiftedExp(fm: FloatModel, x: F32, m: F32)
    requires Exponential(fm) && x.Fin? && m.Fin?
    ensures var e := fm.Exp(fm.Sub(x, m)); e.Fin? && e.r * fm.expReal(m.r) == fm.expReal(x.r)
  {
    hide Exponential, Exact, FloatModel.Exp, FloatModel.Sub;
    ExponentialIsExact(fm);
    ExactSub(fm, x, m);
    ExactExp(fm, Fin(x.r - m.r));
    ExpShift(fm, x.r, m.r);
  }

  lemma {:induction false} SumOver(fm: FloatModel, xs: seq<F32>, es: seq<F32>, m: F32, n: nat)
    requires Exponential(fm) && AllFinite(xs) && m.Fin? && es == Shifted(fm, xs, m) && n <= |xs|
    ensures var s := SumOf(fm, es[..n]); s.Fin? && s.r * fm.expReal(m.r) == ExpTotal(fm, xs, n)
  {
    hide Exponential, Exact, FloatModel.Exp, FloatModel.Sub, FloatModel.Add;
    if n > 0 {
      assert es[..n][..n - 1] == es[..n - 1];
      SumOver(fm, xs, es, m, n - 1);
      ShiftedExp(fm, xs[n - 1], m);
      ExponentialIsExact(fm);
      var s, e, c := SumOf(fm, es[..n - 1]), es[n - 1], fm.expReal(m.r);
      ExactAdd(fm, s, e);
      assert (s.r + e.r) * c == s.r * c + e.r * c;
    }
  }

  /** On finite numbers each weight is the number's exponential divided by the sum of all exponentials. */
  lemma SoftmaxIsExponential(fm: FloatModel, xs: seq<F32>, i: nat)
    requires Exponential(fm) && AllFinite(xs) && i < |xs|
    ensures ExpTotal(fm, xs, |xs|) > 0.0
    ensures SoftmaxOf(fm, xs)[i] == Fin(fm.expReal(RealAt(xs, i)) / ExpTotal(fm, xs, |xs|))
  {
    hide Exponential, Exact, FloatModel.Exp, FloatModel.Sub, FloatModel.Div, MaxOf, SumOf, ExpTotal;
    MaxAttained(xs);
    var m := MaxOf(xs);
    assert m.Fin?;
    var es := Shifted(fm, xs, m);
    SumOver(fm, xs, es, m, |xs|);
    assert es[..|xs|] == es;
    TotalPositive(fm, xs, |xs|);
    ShiftedExp(fm, xs[i], m);
    var sum, c := SumOf(fm, es), fm.expReal(m.r);
    assert sum.r * c == ExpTotal(fm, xs, |xs|);
    Cancel(es[i].r, sum.r, c);
    ExponentialIsExact(fm);
    ExactDiv(fm, es[i], sum);
  }
}
