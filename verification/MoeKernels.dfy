/** The kernels of a mixture-of-experts block (crates/kernels/src/lib.rs): routing, one expert, and the
    weighted combination, each writing caller-supplied buffers. */
module MoeKernels {
  import opened Floats
  import opened Offsets
  import opened Softmax
  import opened TopK

  // ----- dot products -----

  /** `a[i..i + n]` against `b[j..j + n]`, products added left to right. */
  function DotRows(fm: FloatModel, a: seq<F32>, i: nat, b: seq<F32>, j: nat, n: nat): F32 {
    if n == 0 then Fin(0.0)
    else fm.Add(DotRows(fm, a, i, b, j, n - 1), fm.Mul(At(a, i + (n - 1)), At(b, j + (n - 1))))
  }

  // ----- one expert -----

  function Silu(fm: FloatModel, x: F32): F32 { fm.Div(x, fm.Add(Fin(1.0), fm.Exp(fm.Negate(x)))) }

  /** The activated intermediate values of one token. */
  function Activated(fm: FloatModel, x: seq<F32>, gate: seq<F32>, up: seq<F32>, hidden: nat, intermediate: nat): (r: seq<F32>)
    ensures |r| == intermediate
    ensures forall i :: 0 <= i < intermediate ==>
              r[i] == fm.Mul(Silu(fm, DotRows(fm, x, 0, gate, i * hidden, hidden)), DotRows(fm, x, 0, up, i * hidden, hidden))
  {
    seq(intermediate, i requires 0 <= i < intermediate =>
      fm.Mul(Silu(fm, DotRows(fm, x, 0, gate, i * hidden, hidden)), DotRows(fm, x, 0, up, i * hidden, hidden)))
  }

  function Projected(fm: FloatModel, act: seq<F32>, down: seq<F32>, hidden: nat, intermediate: nat): (r: seq<F32>)
    ensures |r| == hidden
    ensures forall d :: 0 <= d < hidden ==> r[d] == DotRows(fm, act, 0, down, d * intermediate, intermediate)
  {
    seq(hidden, d requires 0 <= d < hidden => DotRows(fm, act, 0, down, d * intermediate, intermediate))
  }

  /** One expert applied to one token. */
  function ExpertRow(fm: FloatModel, x: seq<F32>, gate: seq<F32>, up: seq<F32>, down: seq<F32>, hidden: nat, intermediate: nat): (r: seq<F32>)
    ensures |r| == hidden
  {
    Projected(fm, Activated(fm, x, gate, up, hidden, intermediate), down, hidden, intermediate)
  }

  /** Elements `lo..lo + |part|` replaced, all others kept. */
  ghost predicate RowWritten(before: seq<F32>, after: seq<F32>, lo: nat, part: seq<F32>) {
    && lo + |part| <= |before| && |before| == |after|
    && forall i {:trigger after[i]} :: 0 <= i < |after| ==>
         after[i] == if lo <= i < lo + |part| then part[i - lo] else before[i]
  }

  method ActivateToken(fm: FloatModel, input: seq<F32>, gate: seq<F32>, up: seq<F32>, scratch: array<F32>,
                       token: nat, tokens: nat, hidden: nat, intermediate: nat)
    requires token < tokens && |input| == tokens * hidden && scratch.Length == tokens * intermediate
    requires |gate| == intermediate * hidden && |up| == intermediate * hidden
    modifies scratch
    ensures RowWritten(old(scratch[..]), scratch[..], token * intermediate,
                       Activated(fm, RowOf(input, token, hidden), gate, up, hidden, intermediate))
  {
    hide FloatModel.Mul, FloatModel.Add, Silu;
    var inRow, outRow := token * hidden, token * intermediate;
    RowFits(token, tokens, hidden);
    RowFits(token, tokens, intermediate);
    ghost var x := RowOf(input, token, hidden);
    ghost var act := Activated(fm, x, gate, up, hidden, intermediate);
    for inter := 0 to intermediate
      invariant forall i {:trigger scratch[i]} :: 0 <= i < scratch.Length ==>
                  scratch[i] == if outRow <= i < outRow + inter then act[i - outRow] else old(scratch[i])
    {
      var gateAcc, upAcc := GateAndUp(fm, input, gate, up, token, tokens, inter, hidden, intermediate);
      scratch[outRow + inter] := fm.Mul(Silu(fm, gateAcc), upAcc);
    }
  }

  method GateAndUp(fm: FloatModel, input: seq<F32>, gate: seq<F32>, up: seq<F32>, token: nat, tokens: nat, inter: nat,
                   hidden: nat, intermediate: nat) returns (gateAcc: F32, upAcc: F32)
    requires token < tokens && inter < intermediate && |input| == tokens * hidden
    requires |gate| == intermediate * hidden && |up| == intermediate * hidden
    ensures gateAcc == DotRows(fm, RowOf(input, token, hidden), 0, gate, inter * hidden, hidden)
    ensures upAcc == DotRows(fm, RowOf(input, token, hidden), 0, up, inter * hidden, hidden)
  {
    hide FloatModel.Mul, FloatModel.Add;
    RowFits(token, tokens, hidden);
    RowFits(inter, intermediate, hidden);
    var inRow, wRow := token * hidden, inter * hidden;
    ghost var x := RowOf(input, token, hidden);
    gateAcc, upAcc := Fin(0.0), Fin(0.0);
    for dim := 0 to hidden
      invariant gateAcc == DotRows(fm, x, 0, gate, wRow, dim)
      invariant upAcc == DotRows(fm, x, 0, up, wRow, dim)
    {
      var value := input[inRow + dim];
      assert value == At(x, 0 + dim);
      gateAcc := fm.Add(gateAcc, fm.Mul(value, gate[wRow + dim]));
      upAcc := fm.Add(upAcc, fm.Mul(value, up[wRow + dim]));
    }
  }

  method ProjectElement(fm: FloatModel, scratch: array<F32>, down: seq<F32>, token: nat, tokens: nat, dim: nat, hidden: nat,
                        intermediate: nat) returns (acc: F32)
    requires token < tokens && scratch.Length == tokens * intermediate
    requires |down| == hidden * intermediate && dim < hidden
    ensures acc == DotRows(fm, RowOf(scratch[..], token, intermediate), 0, down, dim * intermediate, intermediate)
  {
    hide FloatModel.Mul, FloatModel.Add;
    RowFits(token, tokens, intermediate);
    RowFits(dim, hidden, intermediate);
    var actRow, wRow := token * intermediate, dim * intermediate;
    ghost var act := RowOf(scratch[..], token, intermediate);
    acc := Fin(0.0);
    for inter := 0 to intermediate
      invariant acc == DotRows(fm, act, 0, down, wRow, inter)
    {
      assert scratch[actRow + inter] == At(act, 0 + inter);
      acc := fm.Add(acc, fm.Mul(scratch[actRow + inter], down[wRow + inter]));
    }
  }

  method ProjectToken(fm: FloatModel, scratch: array<F32>, down: seq<F32>, out: array<F32>, token: nat, tokens: nat,
                      hidden: nat, intermediate: nat)
    requires token < tokens && scratch != out && scratch.Length == tokens * intermediate && out.Length == tokens * hidden
    requires |down| == hidden * intermediate
    modifies out
    ensures RowWritten(old(out[..]), out[..], token * hidden,
                       Projected(fm, RowOf(scratch[..], token, intermediate), down, hidden, intermediate))
  {
    hide DotRows, RowOf;
    RowFits(token, tokens, hidden);
    var outRow := token * hidden;
    ghost var acts := scratch[..];
    ghost var row := Projected(fm, RowOf(acts, token, intermediate), down, hidden, intermediate);
    for dim := 0 to hidden
      invariant scratch[..] == acts
      invariant forall i {:trigger out[i]} :: 0 <= i < out.Length ==>
                  out[i] == if outRow <= i < outRow + dim then row[i - outRow] else old(out[i])
    {
      var acc := ProjectElement(fm, scratch, down, token, tokens, dim, hidden, intermediate);
      out[outRow + dim] := acc;
    }
  }

  lemma WrittenRow(before: seq<F32>, after: seq<F32>, row: nat, width: nat, part: seq<F32>)
    requires RowWritten(before, after, row * width, part) && |part| == width
    ensures RowOf(after, row, width) == part
    ensures after[..row * width] == before[..row * width]
  {
  }

  /** A written row is read back, and earlier rows are as before. */
  lemma WrittenKeeps(before: seq<F32>, after: seq<F32>, row: nat, width: nat, part: seq<F32>, r: nat)
    requires RowWritten(before, after, row * width, part) && |part| == width && r <= row
    ensures RowOf(after, r, width) == if r == row then part else RowOf(before, r, width)
  {
    hide RowWritten, RowOf;
    WrittenRow(before, after, row, width, part);
    if r < row {
      WrittenFits(before, after, row * width, part);
      EarlierRow(before, after, r, row, width);
    }
  }

  lemma WrittenFits(before: seq<F32>, after: seq<F32>, lo: nat, part: seq<F32>)
    requires RowWritten(before, after, lo, part)
    ensures lo <= |before| == |after|
  {
  }

  /** Every token of a batch is the expert applied to that token alone, whatever the scratch held. */
  method SwigluMlp(fm: FloatModel, input: seq<F32>, gate: seq<F32>, up: seq<F32>, down: seq<F32>, scratch: array<F32>,
                   out: array<F32>, tokens: nat, hidden: nat, intermediate: nat)
    requires |input| == tokens * hidden && scratch.Length == tokens * intermediate && out.Length == tokens * hidden
    requires |gate| == intermediate * hidden && |up| == intermediate * hidden && |down| == hidden * intermediate
    requires scratch != out
    modifies scratch, out
    ensures forall t :: 0 <= t < tokens ==>
              RowOf(out[..], t, hidden) == ExpertRow(fm, RowOf(input, t, hidden), gate, up, down, hidden, intermediate)
  {
    hide RowOf, RowWritten, Activated, Projected;
    for token := 0 to tokens
      invariant forall t :: 0 <= t < token ==>
                  RowOf(scratch[..], t, intermediate) == Activated(fm, RowOf(input, t, hidden), gate, up, hidden, intermediate)
    {
      ghost var before := scratch[..];
      ActivateToken(fm, input, gate, up, scratch, token, tokens, hidden, intermediate);
      forall t | 0 <= t <= token
        ensures RowOf(scratch[..], t, intermediate) == Activated(fm, RowOf(input, t, hidden), gate, up, hidden, intermediate)
      {
        WrittenKeeps(before, scratch[..], token, intermediate,
                     Activated(fm, RowOf(input, token, hidden), gate, up, hidden, intermediate), t);
      }
    }
    ghost var acts := scratch[..];
    for token := 0 to tokens
      invariant scratch[..] == acts
      invariant forall t :: 0 <= t < token ==>
                  RowOf(out[..], t, hidden) == ExpertRow(fm, RowOf(input, t, hidden), gate, up, down, hidden, intermediate)
    {
      ghost var before := out[..];
      ProjectToken(fm, scratch, down, out, token, tokens, hidden, intermediate);
      forall t | 0 <= t <= token
        ensures RowOf(out[..], t, hidden) == ExpertRow(fm, RowOf(input, t, hidden), gate, up, down, hidden, intermediate)
      {
        WrittenKeeps(before, out[..], token, hidden,
                     Projected(fm, RowOf(acts, token, intermediate), down, hidden, intermediate), t);
      }
    }
  }

  // ----- routing -----

  /** A token's router logits. */
  function Logits(fm: FloatModel, x: seq<F32>, router: seq<F32>, hidden: nat, experts: nat): (r: seq<F32>)
    ensures |r| == experts
    ensures forall e :: 0 <= e < experts ==> r[e] == DotRows(fm, x, 0, router, e * hidden, hidden)
  {
    seq(experts, e requires 0 <= e < experts => DotRows(fm, x, 0, router, e * hidden, hidden))
  }

  method Logit(fm: FloatModel, input: seq<F32>, router: seq<F32>, token: nat, tokens: nat, expert: nat, experts: nat, hidden: nat)
    returns (logit: F32)
    requires token < tokens && expert < experts && |input| == tokens * hidden && |router| == experts * hidden
    ensures logit == DotRows(fm, RowOf(input, token, hidden), 0, router, expert * hidden, hidden)
  {
    hide FloatModel.Mul, FloatModel.Add;
    RowFits(token, tokens, hidden);
    RowFits(expert, experts, hidden);
    ghost var x := RowOf(input, token, hidden);
    logit := Fin(0.0);
    for dim := 0 to hidden
      invariant logit == DotRows(fm, x, 0, router, expert * hidden, dim)
    {
      assert input[token * hidden + dim] == At(x, 0 + dim);
      logit := fm.Add(logit, fm.Mul(input[token * hidden + dim], router[expert * hidden + dim]));
    }
  }

  /** A token's selected experts, and the softmax of their logits. */
  ghost predicate Routed(fm: FloatModel, x: seq<F32>, router: seq<F32>, hidden: nat, experts: nat, k: nat,
                         weights: seq<F32>, selected: seq<nat>)
  {
    var logits := Logits(fm, x, router, hidden, experts);
    && weights == SoftmaxOf(fm, TopValues(logits, Ranked(logits, experts), k))
    && selected == TopIndices(Ranked(logits, experts), k)
  }

  /** The row at `lo` holds the ranking of the first `n` logits; everything before it is as in `ws`, `es`. */
  ghost predicate Offered(logits: seq<F32>, n: nat, weights: seq<F32>, selected: seq<nat>, ws: seq<F32>, es: seq<nat>, lo: nat, k: nat) {
    && n <= |logits| && lo + k <= |weights| == |ws| && lo + k <= |selected| == |es|
    && weights[..lo] == ws[..lo] && selected[..lo] == es[..lo]
    && weights[lo..lo + k] == TopValues(logits, Ranked(logits, n), k) && selected[lo..lo + k] == TopIndices(Ranked(logits, n), k)
  }

  method ClearRow(weights: array<F32>, selected: array<nat>, lo: nat, k: nat, ghost logits: seq<F32>)
    requires lo + k <= weights.Length && lo + k <= selected.Length
    modifies weights, selected
    ensures Offered(logits, 0, weights[..], selected[..], old(weights[..]), old(selected[..]), lo, k)
  {
    hide Ranked;
    forall i | lo <= i < lo + k { weights[i] := NegInf; }
    forall i | lo <= i < lo + k { selected[i] := USIZE_MAX; }
    RankedNone(logits);
  }

  method OfferLogit(logit: F32, expert: nat, weights: array<F32>, selected: array<nat>, lo: nat, k: nat,
                    ghost logits: seq<F32>, ghost ws: seq<F32>, ghost es: seq<nat>)
    requires expert < |logits| && logit == logits[expert]
    requires Offered(logits, expert, weights[..], selected[..], ws, es, lo, k)
    modifies weights, selected
    ensures Offered(logits, expert + 1, weights[..], selected[..], ws, es, lo, k)
  {
    hide FirstSmaller, InsertedAt, Ranked;
    InsertTopk(logit, expert, weights, selected, lo, k);
    RowStep(logits, k, expert);
  }

  method RouteToken(fm: FloatModel, input: seq<F32>, router: seq<F32>, weights: array<F32>, selected: array<nat>,
                    token: nat, tokens: nat, hidden: nat, experts: nat, k: nat, lo: nat)
    requires token < tokens && |input| == tokens * hidden && |router| == experts * hidden
    requires lo + k <= weights.Length && lo + k <= selected.Length
    modifies weights, selected
    ensures weights[..lo] == old(weights[..lo]) && selected[..lo] == old(selected[..lo])
    ensures Routed(fm, RowOf(input, token, hidden), router, hidden, experts, k, weights[lo..lo + k], selected[lo..lo + k])
  {
    hide Ranked, RowOf, SoftmaxOf, Overwritten, Offered;
    ghost var ws, es := weights[..], selected[..];
    ghost var logits := Logits(fm, RowOf(input, token, hidden), router, hidden, experts);
    ClearRow(weights, selected, lo, k, logits);
    for expert := 0 to experts
      invariant Offered(logits, expert, weights[..], selected[..], ws, es, lo, k)
    {
      var logit := Logit(fm, input, router, token, tokens, expert, experts, hidden);
      OfferLogit(logit, expert, weights, selected, lo, k, logits, ws, es);
    }
    OfferedRow(logits, experts, weights[..], selected[..], ws, es, lo, k);
    ghost var before := weights[..];
    SoftmaxInPlace(fm, weights, lo, k);
    OverwrittenSlice(before, weights[..], lo, SoftmaxOf(fm, before[lo..lo + k]));
  }

  lemma OfferedRow(logits: seq<F32>, n: nat, weights: seq<F32>, selected: seq<nat>, ws: seq<F32>, es: seq<nat>, lo: nat, k: nat)
    requires Offered(logits, n, weights, selected, ws, es, lo, k)
    ensures n <= |logits| && lo + k <= |weights| == |ws| && lo + k <= |selected| == |es|
    ensures weights[..lo] == ws[..lo] && selected[..lo] == es[..lo]
    ensures weights[lo..lo + k] == TopValues(logits, Ranked(logits, n), k) && selected[lo..lo + k] == TopIndices(Ranked(logits, n), k)
  {
    hide Ranked;
  }

  /** Routing a batch routes every token on its own. */
  method MoeRouterTopk(fm: FloatModel, input: seq<F32>, router: seq<F32>, weights: array<F32>, selected: array<nat>,
                       tokens: nat, hidden: nat, experts: nat, k: nat)
    requires k <= experts && |input| == tokens * hidden && |router| == experts * hidden
    requires weights.Length == tokens * k && selected.Length == tokens * k
    modifies weights, selected
    ensures forall t :: 0 <= t < tokens ==>
              Routed(fm, RowOf(input, t, hidden), router, hidden, experts, k, RowOf(weights[..], t, k), RowOf(selected[..], t, k))
  {
    hide Routed;
    for token := 0 to tokens
      invariant forall t :: 0 <= t < token ==>
                  Routed(fm, RowOf(input, t, hidden), router, hidden, experts, k, RowOf(weights[..], t, k), RowOf(selected[..], t, k))
    {
      ghost var ws, es := weights[..], selected[..];
      RowFits(token, tokens, k);
      RouteToken(fm, input, router, weights, selected, token, tokens, hidden, experts, k, token * k);
      forall t | 0 <= t <= token
        ensures Routed(fm, RowOf(input, t, hidden), router, hidden, experts, k, RowOf(weights[..], t, k), RowOf(selected[..], t, k))
      {
        if t < token {
          EarlierRow(ws, weights[..], t, token, k);
          EarlierRow(es, selected[..], t, token, k);
        }
      }
    }
  }

  // ----- combining -----

  /** Sum over the first `n` slots of weight times expert output. */
  function Mix(fm: FloatModel, weights: seq<F32>, outputs: seq<F32>, first: nat, hidden: nat, dim: nat, n: nat): F32 {
    if n == 0 then Fin(0.0)
    else
      fm.Add(Mix(fm, weights, outputs, first, hidden, dim, n - 1),
             fm.Mul(At(weights, first + (n - 1)), At(outputs, (first + (n - 1)) * hidden + dim)))
  }

  function MixRow(fm: FloatModel, weights: seq<F32>, outputs: seq<F32>, first: nat, hidden: nat, k: nat): (r: seq<F32>)
    ensures |r| == hidden && forall d :: 0 <= d < hidden ==> r[d] == Mix(fm, weights, outputs, first, hidden, d, k)
  {
    seq(hidden, d requires 0 <= d < hidden => Mix(fm, weights, outputs, first, hidden, d, k))
  }

  /** One output element; `first` is the token's first slot among `rows` slots. */
  method MixElement(fm: FloatModel, outputs: seq<F32>, weights: seq<F32>, first: nat, rows: nat, k: nat, hidden: nat, dim: nat)
    returns (acc: F32)
    requires first + k <= rows == |weights| && |outputs| == rows * hidden && dim < hidden
    ensures acc == Mix(fm, weights, outputs, first, hidden, dim, k)
  {
    hide FloatModel.Mul, FloatModel.Add;
    acc := Fin(0.0);
    for slot := 0 to k
      invariant acc == Mix(fm, weights, outputs, first, hidden, dim, slot)
    {
      InRange(first + slot, rows, dim, hidden);
      acc := fm.Add(acc, fm.Mul(weights[first + slot], outputs[(first + slot) * hidden + dim]));
    }
  }

  method CombineToken(fm: FloatModel, outputs: seq<F32>, weights: seq<F32>, out: array<F32>, token: nat, tokens: nat, k: nat, hidden: nat)
    requires token < tokens && |outputs| == tokens * k * hidden && |weights| == tokens * k && out.Length == tokens * hidden
    modifies out
    ensures RowWritten(old(out[..]), out[..], token * hidden, MixRow(fm, weights, outputs, token * k, hidden, k))
  {
    hide Mix;
    RowFits(token, tokens, hidden);
    RowFits(token, tokens, k);
    var first, outRow := token * k, token * hidden;
    ghost var row := MixRow(fm, weights, outputs, first, hidden, k);
    for dim := 0 to hidden
      invariant forall i {:trigger out[i]} :: 0 <= i < out.Length ==>
                  out[i] == if outRow <= i < outRow + dim then row[i - outRow] else old(out[i])
    {
      var acc := MixElement(fm, outputs, weights, first, tokens * k, k, hidden, dim);
      out[outRow + dim] := acc;
    }
  }

  method MoeCombineTopk(fm: FloatModel, outputs: seq<F32>, weights: seq<F32>, out: array<F32>, tokens: nat, k: nat, hidden: nat)
    requires |outputs| == tokens * k * hidden && |weights| == tokens * k && out.Length == tokens * hidden
    modifies out
    ensures forall t :: 0 <= t < tokens ==> RowOf(out[..], t, hidden) == MixRow(fm, weights, outputs, t * k, hidden, k)
  {
    hide RowOf, RowWritten, MixRow;
    for token := 0 to tokens
      invariant forall t :: 0 <= t < token ==> RowOf(out[..], t, hidden) == MixRow(fm, weights, outputs, t * k, hidden, k)
    {
      ghost var before := out[..];
      CombineToken(fm, outputs, weights, out, token, tokens, k, hidden);
      forall t | 0 <= t <= token
        ensures RowOf(out[..], t, hidden) == MixRow(fm, weights, outputs, t * k, hidden, k)
      {
        WrittenKeeps(before, out[..], token, hidden, MixRow(fm, weights, outputs, token * k, hidden, k), t);
      }
    }
  }
}
