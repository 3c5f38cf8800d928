/** The tiny mixture-of-experts block (crates/runtime/src/lib.rs): routing, dispatch through a reused scratch
    and a reused single-expert buffer, and combination. A panic is `None`. */
module MoeBlock {
  import opened Options
  import opened Arithmetic
  import opened Floats
  import opened Offsets
  import opened Softmax
  import opened TopK
  import opened MoeKernels

  datatype Config = Config(tokens: nat, hidden: nat, intermediate: nat, num_experts: nat, top_k: nat) {
    function Stride(): nat { intermediate * hidden }
  }

  datatype Fixture = Fixture(config: Config, input: seq<F32>, router: seq<F32>, gate: seq<F32>, up: seq<F32>, down: seq<F32>)

  /** What the block asserts of its fixture; lengths are machine words. */
  predicate Accepts(f: Fixture) {
    var c := f.config;
    && c.top_k <= c.num_experts <= USIZE_MAX && |f.gate| <= USIZE_MAX
    && |f.input| == c.tokens * c.hidden && |f.router| == c.num_experts * c.hidden
    && |f.gate| == c.num_experts * c.Stride() && |f.up| == c.num_experts * c.Stride()
    && |f.down| == c.num_experts * c.Stride()
  }

  // ----- one token -----

  datatype TokenResult = TokenResult(weights: seq<F32>, experts: seq<nat>, outputs: seq<seq<F32>>, output: seq<F32>)

  /** The weights of expert `e` can be sliced out. */
  predicate Usable(f: Fixture, e: nat) { e * f.config.Stride() + f.config.Stride() <= |f.gate| }

  function ExpertOf(fm: FloatModel, f: Fixture, x: seq<F32>, e: nat): (r: seq<F32>)
    ensures |r| == f.config.hidden
  {
    var n := f.config.Stride();
    ExpertRow(fm, x, RowOf(f.gate, e, n), RowOf(f.up, e, n), RowOf(f.down, e, n), f.config.hidden, f.config.intermediate)
  }

  /** Sum over slots of routing weight times expert output. */
  function Blend(fm: FloatModel, weights: seq<F32>, outputs: seq<seq<F32>>, dim: nat): F32
    requires |weights| == |outputs|
  {
    if weights == [] then Fin(0.0)
    else
      var n := |weights| - 1;
      fm.Add(Blend(fm, weights[..n], outputs[..n], dim), fm.Mul(weights[n], At(outputs[n], dim)))
  }

  function BlendRow(fm: FloatModel, weights: seq<F32>, outputs: seq<seq<F32>>, hidden: nat): (r: seq<F32>)
    requires |weights| == |outputs|
    ensures |r| == hidden && forall d :: 0 <= d < hidden ==> r[d] == Blend(fm, weights, outputs, d)
  {
    seq(hidden, d requires 0 <= d < hidden => Blend(fm, weights, outputs, d))
  }

  function LogitsOf(fm: FloatModel, f: Fixture, x: seq<F32>): (r: seq<F32>)
    ensures |r| == f.config.num_experts
  {
    Logits(fm, x, f.router, f.config.hidden, f.config.num_experts)
  }

  function ExpertsOf(fm: FloatModel, f: Fixture, x: seq<F32>): (r: seq<nat>)
    ensures |r| == f.config.top_k
  {
    TopIndices(Ranked(LogitsOf(fm, f, x), f.config.num_experts), f.config.top_k)
  }

  function WeightsOf(fm: FloatModel, f: Fixture, x: seq<F32>): (r: seq<F32>)
    ensures |r| == f.config.top_k
  {
    var logits := LogitsOf(fm, f, x);
    SoftmaxOf(fm, TopValues(logits, Ranked(logits, f.config.num_experts), f.config.top_k))
  }

  function OutputsOf(fm: FloatModel, f: Fixture, x: seq<F32>): (r: seq<seq<F32>>)
    ensures |r| == f.config.top_k
    ensures forall i :: 0 <= i < |r| ==> r[i] == ExpertOf(fm, f, x, ExpertsOf(fm, f, x)[i])
  {
    var experts := ExpertsOf(fm, f, x);
    seq(f.config.top_k, i requires 0 <= i < f.config.top_k => ExpertOf(fm, f, x, experts[i]))
  }

  /** One token on its own: the pure formula, or a panic when some slot kept a sentinel that cannot be sliced. */
  function TokenRun(fm: FloatModel, f: Fixture, x: seq<F32>): (r: Option<TokenResult>)
    ensures r.Some? ==> |r.value.outputs| == f.config.top_k
    ensures r.Some? <==> forall i :: 0 <= i < f.config.top_k ==> Usable(f, ExpertsOf(fm, f, x)[i])
  {
    var experts := ExpertsOf(fm, f, x);
    if exists i :: 0 <= i < |experts| && !Usable(f, experts[i]) then None
    else
      var weights, outputs := WeightsOf(fm, f, x), OutputsOf(fm, f, x);
      Some(TokenResult(weights, experts, outputs, BlendRow(fm, weights, outputs, f.config.hidden)))
  }

  lemma UsableIff(f: Fixture, e: nat)
    requires Accepts(f) && (e < f.config.num_experts || e == USIZE_MAX)
    ensures Usable(f, e) <==> e < f.config.num_experts || f.config.Stride() == 0
  {
    var n := f.config.Stride();
    if e < f.config.num_experts {
      RowFits(e, f.config.num_experts, n);
    } else if n > 0 {
      Widen(e, n);
    }
  }

  lemma Widen(e: nat, n: nat)
    requires n > 0
    ensures e * n + n > e
  {
    MulLe(1, n, e);
  }

  /** A token panics exactly when fewer than `top_k` of its logits are above negative infinity (a NaN logit
      never is) and experts have any weights at all. */
  lemma PanicsIff(fm: FloatModel, f: Fixture, x: seq<F32>)
    requires Accepts(f)
    ensures TokenRun(fm, f, x).None? <==>
              f.config.Stride() > 0 && CountSelectable(LogitsOf(fm, f, x), f.config.num_experts) < f.config.top_k
  {
    hide Usable, LogitsOf, WeightsOf, OutputsOf, CountSelectable, Ranked, BlendRow, Accepts;
    var logits := LogitsOf(fm, f, x);
    var experts := ExpertsOf(fm, f, x);
    var vals := TopValues(logits, Ranked(logits, |logits|), f.config.top_k);
    WordSized(f);
    SelectedIsTop(logits, vals, experts, f.config.top_k);
    NoSentinelLeft(logits, vals, experts, f.config.top_k);
    forall i | 0 <= i < |experts|
      ensures Usable(f, experts[i]) <==> experts[i] < f.config.num_experts || f.config.Stride() == 0
    {
      UsableIff(f, experts[i]);
    }
  }

  /** An accepted fixture with finite weights on which the block panics: one expert, and a NaN input. */
  lemma NaNPanics(fm: FloatModel) returns (f: Fixture)
    ensures f == Fixture(Config(1, 1, 1, 1, 1), [NaN], [Fin(1.0)], [Fin(1.0)], [Fin(1.0)], [Fin(1.0)])
    ensures Accepts(f) && LogitsOf(fm, f, InputRow(f, 0)) == [NaN] && IsRun(fm, f, None)
  {
    hide TokenRun;
    f := Fixture(Config(1, 1, 1, 1, 1), [NaN], [Fin(1.0)], [Fin(1.0)], [Fin(1.0)], [Fin(1.0)]);
    var x := InputRow(f, 0);
    assert x == [NaN];
    assert DotRows(fm, x, 0, f.router, 0, 0) == Fin(0.0);
    assert LogitsOf(fm, f, x) == [NaN];
    NaNLeavesSentinel();
    PanicsIff(fm, f, x);
  }

  lemma WordSized(f: Fixture)
    requires Accepts(f)
    ensures f.config.num_experts <= USIZE_MAX
  {
  }

  // ----- a batch -----

  datatype MoeOutput = MoeOutput(weights: seq<F32>, experts: seq<nat>, outputs: seq<F32>, output: seq<F32>)

  function InputRow(f: Fixture, t: nat): seq<F32> { RowOf(f.input, t, f.config.hidden) }

  ghost predicate OutputsAt(c: Config, outputs: seq<F32>, t: nat, rows: seq<seq<F32>>) {
    forall slot :: 0 <= slot < |rows| ==> RowOf(outputs, t * c.top_k + slot, c.hidden) == rows[slot]
  }

  ghost predicate ResultAt(c: Config, r: MoeOutput, t: nat, token: TokenResult) {
    && RowOf(r.weights, t, c.top_k) == token.weights && RowOf(r.experts, t, c.top_k) == token.experts
    && OutputsAt(c, r.outputs, t, token.outputs) && RowOf(r.output, t, c.hidden) == token.output
  }

  /** Token `t` of a result is the run of that token alone. */
  ghost predicate TokenAt(fm: FloatModel, f: Fixture, r: MoeOutput, t: nat) {
    var tr := TokenRun(fm, f, InputRow(f, t));
    tr.Some? && ResultAt(f.config, r, t, tr.value)
  }

  ghost predicate Sized(f: Fixture, r: MoeOutput) {
    var c := f.config;
    && |r.weights| == c.tokens * c.top_k && |r.experts| == c.tokens * c.top_k
    && |r.outputs| == c.tokens * c.top_k * c.hidden && |r.output| == c.tokens * c.hidden
  }

  ghost predicate IsRun(fm: FloatModel, f: Fixture, r: Option<MoeOutput>) {
    && (r.None? <==> exists t :: 0 <= t < f.config.tokens && TokenRun(fm, f, InputRow(f, t)).None?)
    && (r.Some? ==> Sized(f, r.value) && forall t :: 0 <= t < f.config.tokens ==> TokenAt(fm, f, r.value, t))
  }

  // ----- dispatch -----

  /** Row `r` of the expert outputs belongs to token `r / top_k`. */
  ghost predicate SlotDone(fm: FloatModel, f: Fixture, experts: seq<nat>, outputs: seq<F32>, r: nat)
    requires r < |experts| && f.config.top_k > 0
  {
    && Usable(f, experts[r])
    && RowOf(outputs, r, f.config.hidden) == ExpertOf(fm, f, InputRow(f, r / f.config.top_k), experts[r])
  }

  lemma StrideSwap(f: Fixture)
    ensures f.config.hidden * f.config.intermediate == f.config.Stride()
  {
  }

  lemma SliceIsRow<T>(s: seq<T>, row: nat, width: nat)
    requires row * width + width <= |s|
    ensures s[row * width..row * width + width] == RowOf(s, row, width)
  {
  }

  /** One expert on one token, into the single-expert buffer. */
  method RunExpert(fm: FloatModel, f: Fixture, expert: nat, scratch: array<F32>, single: array<F32>, token: nat)
    requires Accepts(f) && token < f.config.tokens && Usable(f, expert)
    requires scratch.Length == f.config.intermediate && single.Length == f.config.hidden && scratch != single
    modifies scratch, single
    ensures single[..] == ExpertOf(fm, f, InputRow(f, token), expert)
  {
    hide ExpertRow, RowOf;
    var c := f.config;
    var n, start := c.Stride(), expert * c.Stride();
    StrideSwap(f);
    RowFits(token, c.tokens, c.hidden);
    SliceIsRow(f.gate, expert, n);
    SliceIsRow(f.up, expert, n);
    SliceIsRow(f.down, expert, n);
    SliceIsRow(f.input, token, c.hidden);
    var x := f.input[token * c.hidden..token * c.hidden + c.hidden];
    SwigluMlp(fm, x, f.gate[start..start + n], f.up[start..start + n], f.down[start..start + n], scratch, single, 1, c.hidden,
              c.intermediate);
    OnlyRow(x, c.hidden);
    OnlyRow(single[..], c.hidden);
  }

  /** One expert on one token, its output copied to row `row`; false where slicing its weights panics. */
  method DispatchSlot(fm: FloatModel, f: Fixture, expert: nat, outputs: array<F32>, scratch: array<F32>, single: array<F32>,
                      token: nat, row: nat, rows: nat)
    returns (ok: bool)
    requires Accepts(f) && token < f.config.tokens && row < rows && outputs.Length == rows * f.config.hidden
    requires scratch.Length == f.config.intermediate && single.Length == f.config.hidden
    requires outputs != scratch && outputs != single && scratch != single
    modifies outputs, scratch, single
    ensures ok <==> Usable(f, expert)
    ensures ok ==> RowWritten(old(outputs[..]), outputs[..], row * f.config.hidden, ExpertOf(fm, f, InputRow(f, token), expert))
    ensures !ok ==> outputs[..] == old(outputs[..])
  {
    hide ExpertOf, RowWritten, Accepts, InputRow;
    if expert * f.config.Stride() + f.config.Stride() > |f.gate| {
      return false;
    }
    RunExpert(fm, f, expert, scratch, single, token);
    RowFits(row, rows, f.config.hidden);
    CopyRow(single, outputs, row * f.config.hidden);
    ok := true;
  }

  lemma OnlyRow<T>(s: seq<T>, width: nat)
    requires |s| == width
    ensures RowOf(s, 0, width) == s
  {
  }

  method CopyRow(from: array<F32>, to: array<F32>, lo: nat)
    requires from != to && lo + from.Length <= to.Length
    modifies to
    ensures RowWritten(old(to[..]), to[..], lo, from[..])
  {
    forall i | 0 <= i < from.Length { to[lo + i] := from[i]; }
  }

  /** The first `n` rows are usable and dispatched. */
  ghost predicate RowsDone(fm: FloatModel, f: Fixture, experts: seq<nat>, outputs: seq<F32>, n: nat) {
    n <= |experts| && forall r :: 0 <= r < n ==> f.config.top_k > 0 && SlotDone(fm, f, experts, outputs, r)
  }

  lemma RowsDoneNext(fm: FloatModel, f: Fixture, experts: seq<nat>, before: seq<F32>, after: seq<F32>, token: nat, slot: nat)
    requires slot < f.config.top_k && RowsDone(fm, f, experts, before, token * f.config.top_k + slot)
    requires token * f.config.top_k + slot < |experts|
    requires var row := token * f.config.top_k + slot;
             Usable(f, experts[row])
             && RowWritten(before, after, row * f.config.hidden, ExpertOf(fm, f, InputRow(f, token), experts[row]))
    ensures RowsDone(fm, f, experts, after, token * f.config.top_k + slot + 1)
  {
    hide ExpertOf, RowWritten, Usable, RowOf, InputRow;
    var row := token * f.config.top_k + slot;
    Decode(token, slot, f.config.top_k);
    forall r | 0 <= r <= row ensures SlotDone(fm, f, experts, after, r) {
      WrittenKeeps(before, after, row, f.config.hidden, ExpertOf(fm, f, InputRow(f, token), experts[row]), r);
      assert r < row ==> SlotDone(fm, f, experts, before, r);
    }
  }

  /** All slots of one token; false at the first whose weights cannot be sliced. */
  method DispatchToken(fm: FloatModel, f: Fixture, experts: array<nat>, outputs: array<F32>, scratch: array<F32>, single: array<F32>,
                       token: nat, rows: nat)
    returns (ok: bool)
    requires Accepts(f) && token < f.config.tokens && experts.Length == rows && rows == f.config.tokens * f.config.top_k
    requires outputs.Length == rows * f.config.hidden
    requires scratch.Length == f.config.intermediate && single.Length == f.config.hidden
    requires outputs != scratch && outputs != single && scratch != single
    requires RowsDone(fm, f, experts[..], outputs[..], token * f.config.top_k)
    modifies outputs, scratch, single
    ensures ok ==> RowsDone(fm, f, experts[..], outputs[..], token * f.config.top_k + f.config.top_k)
    ensures !ok ==> exists r :: 0 <= r < experts.Length && !Usable(f, experts[r])
  {
    hide Accepts, ExpertOf, RowWritten, Usable, RowsDone, InputRow;
    var first := token * f.config.top_k;
    RowFits(token, f.config.tokens, f.config.top_k);
    ghost var es := experts[..];
    for slot := 0 to f.config.top_k
      invariant experts[..] == es && RowsDone(fm, f, es, outputs[..], first + slot)
    {
      ghost var before := outputs[..];
      ok := DispatchSlot(fm, f, experts[first + slot], outputs, scratch, single, token, first + slot, rows);
      if !ok {
        return;
      }
      assert es[first + slot] == experts[first + slot];
      RowsDoneNext(fm, f, es, before, outputs[..], token, slot);
    }
    ok := true;
  }

  method Dispatch(fm: FloatModel, f: Fixture, experts: array<nat>, outputs: array<F32>, scratch: array<F32>, single: array<F32>)
    returns (ok: bool)
    requires Accepts(f) && experts.Length == f.config.tokens * f.config.top_k
    requires outputs.Length == f.config.tokens * f.config.top_k * f.config.hidden
    requires scratch.Length == f.config.intermediate && single.Length == f.config.hidden
    requires outputs != scratch && outputs != single && scratch != single
    modifies outputs, scratch, single
    ensures ok <==> forall r :: 0 <= r < experts.Length ==> Usable(f, experts[r])
    ensures ok ==> AllDispatched(fm, f, experts[..], outputs[..])
  {
    hide Accepts, Usable, RowsDone, AllDispatched;
    var rows := f.config.tokens * f.config.top_k;
    ghost var es := experts[..];
    NoRowsDone(fm, f, es, outputs[..]);
    for token := 0 to f.config.tokens
      invariant experts[..] == es && RowsDone(fm, f, es, outputs[..], token * f.config.top_k)
    {
      ok := DispatchToken(fm, f, experts, outputs, scratch, single, token, rows);
      if !ok {
        return;
      }
      RowFits(token, f.config.tokens, f.config.top_k);
    }
    AllRowsDone(fm, f, es, outputs[..]);
    ok := true;
  }

  lemma NoRowsDone(fm: FloatModel, f: Fixture, experts: seq<nat>, outputs: seq<F32>)
    ensures RowsDone(fm, f, experts, outputs, 0 * f.config.top_k)
  {
  }

  lemma AllRowsDone(fm: FloatModel, f: Fixture, experts: seq<nat>, outputs: seq<F32>)
    requires |experts| == f.config.tokens * f.config.top_k && RowsDone(fm, f, experts, outputs, f.config.tokens * f.config.top_k)
    ensures AllDispatched(fm, f, experts, outputs) && forall r :: 0 <= r < |experts| ==> Usable(f, experts[r])
  {
    hide Usable, RowOf, ExpertOf, InputRow;
    forall r | 0 <= r < |experts| ensures Usable(f, experts[r]) {
      assert f.config.top_k > 0 && SlotDone(fm, f, experts, outputs, r);
    }
  }

  // ----- the whole block -----

  ghost predicate AllDispatched(fm: FloatModel, f: Fixture, experts: seq<nat>, outputs: seq<F32>) {
    f.config.top_k > 0 ==> forall r :: 0 <= r < |experts| ==> SlotDone(fm, f, experts, outputs, r)
  }

  ghost predicate RoutedAt(fm: FloatModel, f: Fixture, weights: seq<F32>, experts: seq<nat>, t: nat) {
    && RowOf(weights, t, f.config.top_k) == WeightsOf(fm, f, InputRow(f, t))
    && RowOf(experts, t, f.config.top_k) == ExpertsOf(fm, f, InputRow(f, t))
  }

  ghost predicate CombinedAt(fm: FloatModel, f: Fixture, r: MoeOutput, t: nat) {
    RowOf(r.output, t, f.config.hidden) == MixRow(fm, r.weights, r.outputs, t * f.config.top_k, f.config.hidden, f.config.top_k)
  }

  lemma RowElement<T>(s: seq<T>, row: nat, rows: nat, width: nat, i: nat)
    requires |s| == rows * width && row < rows && i < width
    ensures row * width + i < |s| && |RowOf(s, row, width)| == width && RowOf(s, row, width)[i] == s[row * width + i]
  {
    RowFits(row, rows, width);
  }

  /** What routing left for a token is what its own run selects. */
  lemma RoutedToken(fm: FloatModel, f: Fixture, x: seq<F32>, weights: seq<F32>, experts: seq<nat>)
    requires Routed(fm, x, f.router, f.config.hidden, f.config.num_experts, f.config.top_k, weights, experts)
    ensures weights == WeightsOf(fm, f, x) && experts == ExpertsOf(fm, f, x)
  {
  }

  /** A dispatched token has the outputs of its own run. */
  lemma DispatchedToken(fm: FloatModel, f: Fixture, experts: seq<nat>, outputs: seq<F32>, t: nat)
    requires t < f.config.tokens && |experts| == f.config.tokens * f.config.top_k
    requires RowOf(experts, t, f.config.top_k) == ExpertsOf(fm, f, InputRow(f, t))
    requires AllDispatched(fm, f, experts, outputs)
    ensures OutputsAt(f.config, outputs, t, OutputsOf(fm, f, InputRow(f, t)))
    ensures TokenRun(fm, f, InputRow(f, t)).Some?
  {
    hide ExpertsOf, ExpertOf, Usable, RowOf;
    var c := f.config;
    forall slot | 0 <= slot < c.top_k
      ensures Usable(f, ExpertsOf(fm, f, InputRow(f, t))[slot])
      ensures RowOf(outputs, t * c.top_k + slot, c.hidden) == OutputsOf(fm, f, InputRow(f, t))[slot]
    {
      RowElement(experts, t, c.tokens, c.top_k, slot);
      Decode(t, slot, c.top_k);
      assert SlotDone(fm, f, experts, outputs, t * c.top_k + slot);
    }
  }

  /** Combining flat rows is blending the token's own outputs. */
  lemma {:induction false} MixIsBlend(fm: FloatModel, weights: seq<F32>, outputs: seq<F32>, first: nat, hidden: nat, dim: nat,
                                      ws: seq<F32>, rows: seq<seq<F32>>)
    requires |ws| == |rows| && dim < hidden && forall i :: 0 <= i < |ws| ==> At(weights, first + i) == ws[i]
    requires forall i :: 0 <= i < |rows| ==> At(outputs, (first + i) * hidden + dim) == At(rows[i], dim)
    ensures Mix(fm, weights, outputs, first, hidden, dim, |ws|) == Blend(fm, ws, rows, dim)
  {
    hide FloatModel.Add, FloatModel.Mul, At;
    if ws != [] {
      var n := |ws| - 1;
      MixIsBlend(fm, weights, outputs, first, hidden, dim, ws[..n], rows[..n]);
    }
  }

  lemma SlotElement(c: Config, weights: seq<F32>, outputs: seq<F32>, t: nat, ws: seq<F32>, rows: seq<seq<F32>>, i: nat, dim: nat)
    requires t < c.tokens && |weights| == c.tokens * c.top_k && |outputs| == c.tokens * c.top_k * c.hidden
    requires |ws| == |rows| == c.top_k && RowOf(weights, t, c.top_k) == ws && OutputsAt(c, outputs, t, rows)
    requires i < c.top_k && dim < c.hidden
    ensures At(weights, t * c.top_k + i) == ws[i]
    ensures At(outputs, (t * c.top_k + i) * c.hidden + dim) == At(rows[i], dim)
  {
    hide RowOf;
    RowElement(weights, t, c.tokens, c.top_k, i);
    InRange(t, c.tokens, i, c.top_k);
    RowElement(outputs, t * c.top_k + i, c.tokens * c.top_k, c.hidden, dim);
  }

  lemma TokenMix(fm: FloatModel, c: Config, weights: seq<F32>, outputs: seq<F32>, t: nat, ws: seq<F32>, rows: seq<seq<F32>>, dim: nat)
    requires t < c.tokens && |weights| == c.tokens * c.top_k && |outputs| == c.tokens * c.top_k * c.hidden
    requires |ws| == |rows| == c.top_k && RowOf(weights, t, c.top_k) == ws && OutputsAt(c, outputs, t, rows)
    requires dim < c.hidden
    ensures Mix(fm, weights, outputs, t * c.top_k, c.hidden, dim, c.top_k) == Blend(fm, ws, rows, dim)
  {
    hide Mix, Blend, RowOf, OutputsAt, At;
    var first := t * c.top_k;
    forall i | 0 <= i < c.top_k
      ensures At(weights, first + i) == ws[i] && At(outputs, (first + i) * c.hidden + dim) == At(rows[i], dim)
    {
      SlotElement(c, weights, outputs, t, ws, rows, i, dim);
    }
    MixIsBlend(fm, weights, outputs, first, c.hidden, dim, ws, rows);
  }

  lemma CombinedToken(fm: FloatModel, c: Config, weights: seq<F32>, outputs: seq<F32>, t: nat, ws: seq<F32>, rows: seq<seq<F32>>)
    requires t < c.tokens && |weights| == c.tokens * c.top_k && |outputs| == c.tokens * c.top_k * c.hidden
    requires |ws| == |rows| == c.top_k && RowOf(weights, t, c.top_k) == ws && OutputsAt(c, outputs, t, rows)
    ensures MixRow(fm, weights, outputs, t * c.top_k, c.hidden, c.top_k) == BlendRow(fm, ws, rows, c.hidden)
  {
    hide Mix, Blend, RowOf, OutputsAt;
    var a, b := MixRow(fm, weights, outputs, t * c.top_k, c.hidden, c.top_k), BlendRow(fm, ws, rows, c.hidden);
    forall dim | 0 <= dim < c.hidden ensures a[dim] == b[dim] {
      TokenMix(fm, c, weights, outputs, t, ws, rows, dim);
    }
  }

  /** A token panics exactly when one of its slots cannot be sliced. */
  lemma TokenUsable(fm: FloatModel, f: Fixture, experts: seq<nat>, t: nat)
    requires |experts| == f.config.tokens * f.config.top_k && t < f.config.tokens
    requires RowOf(experts, t, f.config.top_k) == ExpertsOf(fm, f, InputRow(f, t))
    ensures t * f.config.top_k + f.config.top_k <= |experts|
    ensures TokenRun(fm, f, InputRow(f, t)).Some?
            <==> forall i :: 0 <= i < f.config.top_k ==> Usable(f, RowOf(experts, t, f.config.top_k)[i])
  {
    hide Usable, RowOf, InputRow;
    RowFits(t, f.config.tokens, f.config.top_k);
  }

  /** A slot that cannot be sliced belongs to a token that panics. */
  lemma UnusableToken(fm: FloatModel, f: Fixture, experts: seq<nat>)
    requires |experts| == f.config.tokens * f.config.top_k
    requires forall t :: 0 <= t < f.config.tokens ==> RowOf(experts, t, f.config.top_k) == ExpertsOf(fm, f, InputRow(f, t))
    ensures (forall r :: 0 <= r < |experts| ==> Usable(f, experts[r]))
            <==> forall t :: 0 <= t < f.config.tokens ==> TokenRun(fm, f, InputRow(f, t)).Some?
  {
    hide TokenRun, ExpertsOf, Usable, RowOf, InputRow;
    var c := f.config;
    if forall t :: 0 <= t < c.tokens ==> TokenRun(fm, f, InputRow(f, t)).Some? {
      forall r | 0 <= r < |experts| ensures Usable(f, experts[r]) {
        RowBound(r, c.tokens, c.top_k);
        var t, i := r / c.top_k, r % c.top_k;
        RowElement(experts, t, c.tokens, c.top_k, i);
        TokenUsable(fm, f, experts, t);
      }
    }
    if forall r :: 0 <= r < |experts| ==> Usable(f, experts[r]) {
      forall t | 0 <= t < c.tokens ensures TokenRun(fm, f, InputRow(f, t)).Some? {
        forall i | 0 <= i < c.top_k ensures Usable(f, RowOf(experts, t, c.top_k)[i]) {
          RowElement(experts, t, c.tokens, c.top_k, i);
        }
        TokenUsable(fm, f, experts, t);
      }
    }
  }

  lemma RunOfTokens(fm: FloatModel, f: Fixture, r: MoeOutput, t: nat)
    requires t < f.config.tokens && Sized(f, r) && RoutedAt(fm, f, r.weights, r.experts, t)
    requires AllDispatched(fm, f, r.experts, r.outputs) && CombinedAt(fm, f, r, t)
    ensures TokenAt(fm, f, r, t)
  {
    hide ExpertsOf, WeightsOf, OutputsOf, MixRow, BlendRow, RowOf, OutputsAt, AllDispatched, InputRow, Usable;
    DispatchedToken(fm, f, r.experts, r.outputs, t);
    CombinedToken(fm, f.config, r.weights, r.outputs, t, WeightsOf(fm, f, InputRow(f, t)), OutputsOf(fm, f, InputRow(f, t)));
  }

  /** The three stages, each over buffers of its own. */
  method RouteBatch(fm: FloatModel, f: Fixture) returns (weights: array<F32>, experts: array<nat>)
    requires Accepts(f)
    ensures weights.Length == f.config.tokens * f.config.top_k && experts.Length == f.config.tokens * f.config.top_k
    ensures forall t :: 0 <= t < f.config.tokens ==> RoutedAt(fm, f, weights[..], experts[..], t)
  {
    hide Routed, RowOf, WeightsOf, ExpertsOf, InputRow;
    var c := f.config;
    weights := new F32[c.tokens * c.top_k](_ => Fin(0.0));
    experts := new nat[c.tokens * c.top_k](_ => USIZE_MAX);
    MoeRouterTopk(fm, f.input, f.router, weights, experts, c.tokens, c.hidden, c.num_experts, c.top_k);
    forall t | 0 <= t < c.tokens ensures RoutedAt(fm, f, weights[..], experts[..], t) {
      InputRowIs(f, t);
      RoutedToken(fm, f, InputRow(f, t), RowOf(weights[..], t, c.top_k), RowOf(experts[..], t, c.top_k));
    }
  }

  method DispatchBatch(fm: FloatModel, f: Fixture, experts: array<nat>) returns (outputs: Option<seq<F32>>)
    requires Accepts(f) && experts.Length == f.config.tokens * f.config.top_k
    ensures outputs.Some? <==> forall r :: 0 <= r < experts.Length ==> Usable(f, experts[r])
    ensures outputs.Some? ==> |outputs.value| == f.config.tokens * f.config.top_k * f.config.hidden
                              && AllDispatched(fm, f, experts[..], outputs.value)
  {
    hide AllDispatched, Usable;
    var c := f.config;
    var buffer := new F32[c.tokens * c.top_k * c.hidden](_ => Fin(0.0));
    var scratch := new F32[c.intermediate](_ => Fin(0.0));
    var single := new F32[c.hidden](_ => Fin(0.0));
    ghost var es := experts[..];
    var ok := Dispatch(fm, f, experts, buffer, scratch, single);
    assert experts[..] == es;
    outputs := if ok then Some(buffer[..]) else None;
  }

  method CombineBatch(fm: FloatModel, c: Config, weights: seq<F32>, outputs: seq<F32>) returns (output: seq<F32>)
    requires |weights| == c.tokens * c.top_k && |outputs| == c.tokens * c.top_k * c.hidden
    ensures |output| == c.tokens * c.hidden
    ensures forall t :: 0 <= t < c.tokens ==> RowOf(output, t, c.hidden) == MixRow(fm, weights, outputs, t * c.top_k, c.hidden, c.top_k)
  {
    hide RowOf, MixRow;
    var buffer := new F32[c.tokens * c.hidden](_ => Fin(0.0));
    MoeCombineTopk(fm, outputs, weights, buffer, c.tokens, c.top_k, c.hidden);
    output := buffer[..];
  }

  ghost predicate AllRouted(fm: FloatModel, f: Fixture, weights: seq<F32>, experts: seq<nat>) {
    && |weights| == f.config.tokens * f.config.top_k && |experts| == f.config.tokens * f.config.top_k
    && forall t :: 0 <= t < f.config.tokens ==> RoutedAt(fm, f, weights, experts, t)
  }

  lemma StagesFail(fm: FloatModel, f: Fixture, weights: seq<F32>, experts: seq<nat>)
    requires AllRouted(fm, f, weights, experts)
    ensures (forall r :: 0 <= r < |experts| ==> Usable(f, experts[r]))
            <==> forall t :: 0 <= t < f.config.tokens ==> TokenRun(fm, f, InputRow(f, t)).Some?
  {
    hide TokenRun, Usable, RowOf, WeightsOf, ExpertsOf, InputRow;
    forall t | 0 <= t < f.config.tokens ensures RowOf(experts, t, f.config.top_k) == ExpertsOf(fm, f, InputRow(f, t)) {
      assert RoutedAt(fm, f, weights, experts, t);
    }
    UnusableToken(fm, f, experts);
  }

  lemma StagesSucceed(fm: FloatModel, f: Fixture, r: MoeOutput)
    requires AllRouted(fm, f, r.weights, r.experts) && AllDispatched(fm, f, r.experts, r.outputs) && Sized(f, r)
    requires forall t :: 0 <= t < f.config.tokens ==> CombinedAt(fm, f, r, t)
    ensures forall t :: 0 <= t < f.config.tokens ==> TokenAt(fm, f, r, t)
  {
    hide TokenAt, AllDispatched, RoutedAt, CombinedAt, Sized;
    forall t | 0 <= t < f.config.tokens ensures TokenAt(fm, f, r, t) {
      RunOfTokens(fm, f, r, t);
    }
  }

  method RunTinyMoeReference(fm: FloatModel, f: Fixture) returns (r: Option<MoeOutput>)
    requires Accepts(f)
    ensures IsRun(fm, f, r)
  {
    hide Accepts, TokenRun, TokenAt, AllDispatched, RoutedAt, Usable, RowOf, MixRow, InputRow;
    var weights, experts := RouteBatch(fm, f);
    StagesFail(fm, f, weights[..], experts[..]);
    var outputs := DispatchBatch(fm, f, experts);
    if outputs.None? {
      return None;
    }
    var output := CombineBatch(fm, f.config, weights[..], outputs.value);
    var result := MoeOutput(weights[..], experts[..], outputs.value, output);
    StagesSucceed(fm, f, result);
    r := Some(result);
  }

  lemma InputRowIs(f: Fixture, t: nat)
    ensures InputRow(f, t) == RowOf(f.input, t, f.config.hidden)
  {
  }

  // ----- batches -----

  /** The same block on token `t` alone. */
  function Alone(f: Fixture, t: nat): Fixture {
    f.(config := f.config.(tokens := 1), input := InputRow(f, t))
  }

  lemma AloneAccepted(f: Fixture, t: nat)
    requires Accepts(f) && t < f.config.tokens
    ensures Accepts(Alone(f, t))
  {
    RowFits(t, f.config.tokens, f.config.hidden);
  }

  lemma AloneRuns(fm: FloatModel, f: Fixture, t: nat, x: seq<F32>)
    ensures TokenRun(fm, Alone(f, t), x) == TokenRun(fm, f, x)
  {
    hide Logits, Ranked, SoftmaxOf, ExpertRow, RowOf;
    var g := Alone(f, t);
    assert forall e :: Usable(g, e) == Usable(f, e);
    assert forall e :: ExpertOf(fm, g, x, e) == ExpertOf(fm, f, x, e);
    assert OutputsOf(fm, g, x) == OutputsOf(fm, f, x);
  }

  /** Rows one after the other. */
  function Concat<T>(rows: seq<seq<T>>): seq<T> {
    if rows == [] then [] else Concat(rows[..|rows| - 1]) + rows[|rows| - 1]
  }

  lemma {:induction false} RowsConcat<T>(s: seq<T>, rows: seq<seq<T>>, width: nat)
    requires |s| == |rows| * width && forall t :: 0 <= t < |rows| ==> RowOf(s, t, width) == rows[t]
    ensures s == Concat(rows)
  {
    if rows == [] {
    } else {
      var n := |rows| - 1;
      RowFits(n, |rows|, width);
      forall t | 0 <= t < n ensures RowOf(s[..n * width], t, width) == rows[t] {
        SameRow(s, n, t, width);
      }
      RowsConcat(s[..n * width], rows[..n], width);
      assert s == s[..n * width] + rows[n];
    }
  }

  lemma SameRow<T>(s: seq<T>, n: nat, t: nat, width: nat)
    requires t < n && n * width <= |s|
    ensures RowOf(s[..n * width], t, width) == RowOf(s, t, width)
  {
    RowFits(t, n, width);
    assert s[..n * width][t * width..t * width + width] == s[t * width..t * width + width];
  }

  /** The single-token runs, one per token of the batch. */
  ghost predicate AreSingles(fm: FloatModel, f: Fixture, singles: seq<Option<MoeOutput>>) {
    |singles| == f.config.tokens && forall t :: 0 <= t < |singles| ==> IsRun(fm, Alone(f, t), singles[t])
  }

  /** A single-token run is that token's run. */
  lemma SingleIs(fm: FloatModel, f: Fixture, t: nat, s: Option<MoeOutput>)
    requires Accepts(f) && t < f.config.tokens && IsRun(fm, Alone(f, t), s)
    ensures s.None? <==> TokenRun(fm, f, InputRow(f, t)).None?
    ensures s.Some? ==> s.value.output == TokenRun(fm, f, InputRow(f, t)).value.output
                        && s.value.weights == TokenRun(fm, f, InputRow(f, t)).value.weights
                        && s.value.experts == TokenRun(fm, f, InputRow(f, t)).value.experts
                        && OutputsAt(f.config, s.value.outputs, 0, TokenRun(fm, f, InputRow(f, t)).value.outputs)
  {
    hide TokenRun, Accepts, RowOf;
    var g := Alone(f, t);
    RowAccepted(f, t);
    OnlyRow(g.input, f.config.hidden);
    AloneRuns(fm, f, t, g.input);
    assert InputRow(g, 0) == g.input == InputRow(f, t);
    if s.Some? {
      assert TokenAt(fm, g, s.value, 0);
      OnlyRow(s.value.output, f.config.hidden);
      OnlyRow(s.value.weights, f.config.top_k);
      OnlyRow(s.value.experts, f.config.top_k);
    }
  }

  lemma RowAccepted(f: Fixture, t: nat)
    requires Accepts(f) && t < f.config.tokens
    ensures |InputRow(f, t)| == f.config.hidden
  {
    RowFits(t, f.config.tokens, f.config.hidden);
  }

  /** The expert outputs of slot `slot` of token `t`, in the batch and in the token's own run. */
  ghost predicate SameSlot(c: Config, batch: seq<F32>, alone: seq<F32>, t: nat, slot: nat) {
    RowOf(batch, t * c.top_k + slot, c.hidden) == RowOf(alone, slot, c.hidden)
  }

  lemma SameSlots(fm: FloatModel, f: Fixture, batch: seq<F32>, alone: seq<F32>, t: nat, rows: seq<seq<F32>>, slot: nat)
    requires OutputsAt(f.config, batch, t, rows) && OutputsAt(f.config, alone, 0, rows) && slot < |rows|
    ensures SameSlot(f.config, batch, alone, t, slot)
  {
    hide RowOf;
    var k := f.config.top_k;
    assert RowOf(alone, 0 * k + slot, f.config.hidden) == rows[slot];
    assert RowOf(batch, t * k + slot, f.config.hidden) == rows[slot];
    assert 0 * k + slot == slot;
  }

  /** Batch decomposition: running the block on a batch panics exactly when some token alone would, and
      otherwise gives the single-token results one after the other. */
  lemma BatchIsSingles(fm: FloatModel, f: Fixture, r: Option<MoeOutput>, singles: seq<Option<MoeOutput>>)
    requires Accepts(f) && IsRun(fm, f, r) && AreSingles(fm, f, singles)
    ensures forall t :: 0 <= t < |singles| ==> Accepts(Alone(f, t))
    ensures r.None? <==> exists t :: 0 <= t < |singles| && singles[t].None?
    ensures r.Some? ==>
              && (forall t :: 0 <= t < |singles| ==> singles[t].Some?)
              && r.value.output == Concat(seq(|singles|, t requires 0 <= t < |singles| && singles[t].Some? => singles[t].value.output))
              && r.value.weights == Concat(seq(|singles|, t requires 0 <= t < |singles| && singles[t].Some? => singles[t].value.weights))
              && r.value.experts == Concat(seq(|singles|, t requires 0 <= t < |singles| && singles[t].Some? => singles[t].value.experts))
              && forall t, slot :: 0 <= t < |singles| && 0 <= slot < f.config.top_k ==>
                   SameSlot(f.config, r.value.outputs, singles[t].value.outputs, t, slot)
  {
    hide TokenRun, Accepts, OutputsAt, RowOf, Concat, SameSlot;
    forall t | 0 <= t < |singles|
      ensures Accepts(Alone(f, t))
      ensures singles[t].None? <==> TokenRun(fm, f, InputRow(f, t)).None?
    {
      AloneAccepted(f, t);
      SingleIs(fm, f, t, singles[t]);
    }
    if r.Some? {
      var c := f.config;
      forall t | 0 <= t < |singles|
        ensures singles[t].Some?
        ensures RowOf(r.value.output, t, c.hidden) == singles[t].value.output
        ensures RowOf(r.value.weights, t, c.top_k) == singles[t].value.weights
        ensures RowOf(r.value.experts, t, c.top_k) == singles[t].value.experts
      {
        assert TokenAt(fm, f, r.value, t);
        SingleIs(fm, f, t, singles[t]);
      }
      forall t, slot | 0 <= t < |singles| && 0 <= slot < c.top_k
        ensures SameSlot(c, r.value.outputs, singles[t].value.outputs, t, slot)
      {
        assert TokenAt(fm, f, r.value, t);
        SingleIs(fm, f, t, singles[t]);
        SameSlots(fm, f, r.value.outputs, singles[t].value.outputs, t, TokenRun(fm, f, InputRow(f, t)).value.outputs, slot);
      }
      RowsConcat(r.value.output, seq(|singles|, t requires 0 <= t < |singles| && singles[t].Some? => singles[t].value.output), c.hidden);
      RowsConcat(r.value.weights, seq(|singles|, t requires 0 <= t < |singles| && singles[t].Some? => singles[t].value.weights), c.top_k);
      RowsConcat(r.value.experts, seq(|singles|, t requires 0 <= t < |singles| && singles[t].Some? => singles[t].value.experts), c.top_k);
    }
  }
}
