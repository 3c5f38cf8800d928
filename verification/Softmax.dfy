/** `softmax_in_place` (crates/kernels/src/lib.rs): three passes over a slice, the second overwriting it. */
module Softmax {
  import opened Floats
  import opened ExactArithmetic

  function MaxOf(xs: seq<F32>): F32 {
    if xs == [] then NegInf else Max(MaxOf(xs[..|xs| - 1]), xs[|xs| - 1])
  }

  /** The exponential of each value below the maximum. */
  function Shifted(fm: FloatModel, xs: seq<F32>, max: F32): (es: seq<F32>)
    ensures |es| == |xs| && forall i :: 0 <= i < |xs| ==> es[i] == fm.Exp(fm.Sub(xs[i], max))
  {
    seq(|xs|, i requires 0 <= i < |xs| => fm.Exp(fm.Sub(xs[i], max)))
  }

  function SumOf(fm: FloatModel, xs: seq<F32>): F32 {
    if xs == [] then Fin(0.0) else fm.Add(SumOf(fm, xs[..|xs| - 1]), xs[|xs| - 1])
  }

  function Scaled(fm: FloatModel, xs: seq<F32>, sum: F32): (r: seq<F32>)
    ensures |r| == |xs| && forall i :: 0 <= i < |xs| ==> r[i] == fm.Div(xs[i], sum)
  {
    seq(|xs|, i requires 0 <= i < |xs| => fm.Div(xs[i], sum))
  }

  function SoftmaxOf(fm: FloatModel, xs: seq<F32>): (r: seq<F32>)
    ensures |r| == |xs|
  {
    var es := Shifted(fm, xs, MaxOf(xs));
    Scaled(fm, es, SumOf(fm, es))
  }

  /** `before` with the slice at `lo` overwritten. */
  ghost predicate Overwritten(before: seq<F32>, after: seq<F32>, lo: nat, part: seq<F32>) {
    lo + |part| <= |before| && after == before[..lo] + part + before[lo + |part|..]
  }

  /** The second and third passes; the slice already holds the scores. */
  method Exponentiate(fm: FloatModel, values: array<F32>, lo: nat, n: nat, max: F32) returns (sum: F32)
    requires lo + n <= values.Length
    modifies values
    ensures var es := Shifted(fm, old(values[lo..lo + n]), max);
            Overwritten(old(values[..]), values[..], lo, es) && sum == SumOf(fm, es)
  {
    hide FloatModel.Exp, FloatModel.Sub, FloatModel.Add;
    ghost var es := Shifted(fm, values[lo..lo + n], max);
    sum := Fin(0.0);
    for i := 0 to n
      invariant sum == SumOf(fm, es[..i])
      invariant forall j :: 0 <= j < values.Length ==> values[j] == if lo <= j < lo + i then es[j - lo] else old(values[j])
    {
      assert es[..i + 1][..i] == es[..i];
      var e := fm.Exp(fm.Sub(values[lo + i], max));
      values[lo + i] := e;
      sum := fm.Add(sum, e);
    }
    assert es[..n] == es;
  }

  method DivideBy(fm: FloatModel, values: array<F32>, lo: nat, n: nat, sum: F32)
    requires lo + n <= values.Length
    modifies values
    ensures Overwritten(old(values[..]), values[..], lo, Scaled(fm, old(values[lo..lo + n]), sum))
  {
    hide FloatModel.Div;
    ghost var r := Scaled(fm, values[lo..lo + n], sum);
    for i := 0 to n
      invariant forall j :: 0 <= j < values.Length ==> values[j] == if lo <= j < lo + i then r[j - lo] else old(values[j])
    {
      values[lo + i] := fm.Div(values[lo + i], sum);
    }
  }

  method SoftmaxInPlace(fm: FloatModel, values: array<F32>, lo: nat, n: nat)
    requires lo + n <= values.Length
    modifies values
    ensures Overwritten(old(values[..]), values[..], lo, SoftmaxOf(fm, old(values[lo..lo + n])))
  {
    hide Max, Overwritten, SumOf;
    if n == 0 {
      NothingWritten(fm, values[..], lo);
      return;
    }
    ghost var before := values[..];
    ghost var xs := values[lo..lo + n];
    var max := NegInf;
    for i := 0 to n
      invariant max == MaxOf(xs[..i])
    {
      assert xs[..i + 1][..i] == xs[..i];
      max := Max(max, values[lo + i]);
    }
    assert xs[..n] == xs;
    var sum := Exponentiate(fm, values, lo, n, max);
    ghost var es := Shifted(fm, xs, max);
    OverwrittenSlice(before, values[..], lo, es);
    ghost var mid := values[..];
    DivideBy(fm, values, lo, n, sum);
    OverwrittenAgain(before, mid, values[..], lo, es, Scaled(fm, es, sum));
  }

  lemma NothingWritten(fm: FloatModel, s: seq<F32>, lo: nat)
    requires lo <= |s|
    ensures Overwritten(s, s, lo, SoftmaxOf(fm, s[lo..lo]))
  {
  }

  lemma OverwrittenSlice(before: seq<F32>, after: seq<F32>, lo: nat, part: seq<F32>)
    requires Overwritten(before, after, lo, part)
    ensures |after| == |before| && lo + |part| <= |after| && after[lo..lo + |part|] == part
    ensures after[..lo] == before[..lo] && after[lo + |part|..] == before[lo + |part|..]
  {
  }

  lemma OverwrittenAgain(a: seq<F32>, b: seq<F32>, c: seq<F32>, lo: nat, p: seq<F32>, q: seq<F32>)
    requires Overwritten(a, b, lo, p) && Overwritten(b, c, lo, q) && |p| == |q|
    ensures Overwritten(a, c, lo, q)
  {
    OverwrittenSlice(a, b, lo, p);
  }

  // ----- what softmax promises -----

  /** The maximum of finite values is one of them. */
  lemma {:induction false} MaxAttained(xs: seq<F32>)
    requires xs != [] && AllFinite(xs)
    ensures MaxOf(xs) in xs && forall i :: 0 <= i < |xs| ==> !Gt(xs[i], MaxOf(xs))
  {
    var n := |xs| - 1;
    if n == 0 {
      assert xs[..0] == [];
    } else {
      MaxAttained(xs[..n]);
      assert forall i :: 0 <= i < n ==> xs[..n][i] == xs[i];
    }
  }

  ghost predicate AtLeast(v: F32, x: real) { v.Fin? && v.r >= x }

  /** A rounded sum of non-negative values is at least zero, and at least one once one of them is. */
  lemma {:induction false} SumAtLeast(fm: FloatModel, es: seq<F32>)
    requires fm.Valid() && forall i :: 0 <= i < |es| ==> AtLeast(es[i], 0.0)
    ensures AtLeast(SumOf(fm, es), 0.0)
    ensures (exists i :: 0 <= i < |es| && AtLeast(es[i], 1.0)) ==> AtLeast(SumOf(fm, es), 1.0)
  {
    if es != [] {
      var n := |es| - 1;
      SumAtLeast(fm, es[..n]);
      var before, last := SumOf(fm, es[..n]), es[n];
      RoundedSum(fm, before.r, last.r);
      if i :| 0 <= i < |es| && AtLeast(es[i], 1.0) {
        assert i < n ==> AtLeast(es[..n][i], 1.0);
      }
    }
  }

  lemma RoundedSum(fm: FloatModel, x: real, y: real)
    requires fm.Valid() && x >= 0.0 && y >= 0.0
    ensures fm.round(x + y) >= 0.0
    ensures x >= 1.0 || y >= 1.0 ==> fm.round(x + y) >= 1.0
  {
    assert fm.ExactAt(0) && fm.ExactAt(1);
    assert fm.MonotoneAt(0.0, x + y) && fm.MonotoneAt(1.0, x + y);
  }

  lemma ShiftedAtLeast(fm: FloatModel, x: F32, max: F32)
    requires fm.Valid() && x.Fin? && max.Fin?
    ensures AtLeast(fm.Exp(fm.Sub(x, max)), 0.0)
    ensures x == max ==> AtLeast(fm.Exp(fm.Sub(x, max)), 1.0)
  {
    var d := fm.round(x.r - max.r);
    assert fm.ExactAt(0) && fm.ExactAt(1);
    assert fm.ExpNonNegativeAt(d);
    assert fm.MonotoneAt(0.0, fm.expReal(d));
  }

  lemma QuotientAtLeast(fm: FloatModel, e: F32, sum: F32)
    requires fm.Valid() && AtLeast(e, 0.0) && AtLeast(sum, 1.0)
    ensures AtLeast(fm.Div(e, sum), 0.0)
  {
    assert e.r / sum.r >= 0.0;
    assert fm.ExactAt(0) && fm.MonotoneAt(0.0, e.r / sum.r);
  }

  /** On finite scores the divisor is at least one, so every weight is a finite non-negative number. */
  lemma WeightsFinite(fm: FloatModel, xs: seq<F32>)
    requires fm.Valid() && AllFinite(xs)
    ensures xs != [] ==> AtLeast(SumOf(fm, Shifted(fm, xs, MaxOf(xs))), 1.0)
    ensures forall i :: 0 <= i < |xs| ==> AtLeast(SoftmaxOf(fm, xs)[i], 0.0)
  {
    hide FloatModel.Valid, FloatModel.Exp, FloatModel.Sub, FloatModel.Add, FloatModel.Div, MaxOf, SumOf, AtLeast;
    if xs != [] {
      var max := MaxOf(xs);
      MaxAttained(xs);
      var es := Shifted(fm, xs, max);
      forall i | 0 <= i < |xs| ensures AtLeast(es[i], 0.0) && (xs[i] == max ==> AtLeast(es[i], 1.0)) {
        ShiftedAtLeast(fm, xs[i], max);
      }
      SumAtLeast(fm, es);
      forall i | 0 <= i < |xs| ensures AtLeast(SoftmaxOf(fm, xs)[i], 0.0) {
        QuotientAtLeast(fm, es[i], SumOf(fm, es));
      }
    }
  }
}
