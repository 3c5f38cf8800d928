/** The mixture-of-experts block against its formula, written out over the fixture's buffers with plain sums of
    real numbers. */
module MoeFormula {
  import opened Options
  import opened Arithmetic
  import opened Floats
  import opened ExactArithmetic
  import opened Offsets
  import opened Softmax
  import opened SoftmaxFormula
  import opened TopK
  import opened TopKFormula
  import opened MoeKernels
  import opened MoeBlock

  ghost predicate FiniteFixture(f: Fixture) {
    AllFinite(f.input) && AllFinite(f.router) && AllFinite(f.gate) && AllFinite(f.up) && AllFinite(f.down)
  }

  // ----- the formula -----

  /** `a[i..i + n]` times `b[j..j + n]`. */
  function PlainDot(a: seq<F32>, i: nat, b: seq<F32>, j: nat, n: nat): real {
    if n == 0 then 0.0 else PlainDot(a, i, b, j, n - 1) + RealAt(a, i + (n - 1)) * RealAt(b, j + (n - 1))
  }

  /** The router's score of expert `e` for token `t`. */
  function LogitReal(f: Fixture, t: nat, e: nat): real {
    PlainDot(f.input, t * f.config.hidden, f.router, e * f.config.hidden, f.config.hidden)
  }

  function SiluReal(fm: FloatModel, x: real): real
    requires 1.0 + fm.expReal(-x) != 0.0
  {
    x / (1.0 + fm.expReal(-x))
  }

  /** Intermediate value `i`: the gate's row activates the up row's product. */
  function ActivationReal(fm: FloatModel, f: Fixture, t: nat, e: nat, i: nat): real
    requires Exponential(fm)
  {
    var c := f.config;
    var g := PlainDot(f.input, t * c.hidden, f.gate, (e * c.intermediate + i) * c.hidden, c.hidden);
    ExpPositive(fm, -g);
    SiluReal(fm, g) * PlainDot(f.input, t * c.hidden, f.up, (e * c.intermediate + i) * c.hidden, c.hidden)
  }

  /** Element `d` of expert `e` applied to token `t`, over the first `n` intermediate values. */
  function ExpertReal(fm: FloatModel, f: Fixture, t: nat, e: nat, d: nat, n: nat): real
    requires Exponential(fm)
  {
    if n == 0 then 0.0
    else
      ExpertReal(fm, f, t, e, d, n - 1)
      + ActivationReal(fm, f, t, e, n - 1) * RealAt(f.down, (e * f.config.hidden + d) * f.config.intermediate + (n - 1))
  }

  /** The sum of exp(logit) over the first `n` of these experts. */
  function ExpLogits(fm: FloatModel, f: Fixture, t: nat, experts: seq<nat>, n: nat): real
    requires n <= |experts|
  {
    if n == 0 then 0.0 else ExpLogits(fm, f, t, experts, n - 1) + fm.expReal(LogitReal(f, t, experts[n - 1]))
  }

  /** The sum over slots of weight times expert output. */
  function BlockReal(fm: FloatModel, f: Fixture, t: nat, d: nat, weights: seq<F32>, experts: seq<nat>, n: nat): real
    requires Exponential(fm) && n <= |experts|
  {
    if n == 0 then 0.0
    else
      BlockReal(fm, f, t, d, weights, experts, n - 1)
      + SlotReal(fm, f, t, d, RealAt(weights, n - 1), experts[n - 1])
  }

  /** One slot's share of an element. */
  function SlotReal(fm: FloatModel, f: Fixture, t: nat, d: nat, weight: real, e: nat): real
    requires Exponential(fm)
  {
    weight * ExpertReal(fm, f, t, e, d, f.config.intermediate)
  }

  lemma ExpPositive(fm: FloatModel, x: real)
    requires Exponential(fm)
    ensures fm.expReal(x) > 0.0
  {
    hide Exact;
    assert ExpPositiveAt(fm, x);
  }

  // ----- rows -----

  lemma RowElement<T>(s: seq<T>, row: nat, width: nat, i: nat)
    requires row * width + width <= |s| && i < width
    ensures |RowOf(s, row, width)| == width && RowOf(s, row, width)[i] == s[row * width + i]
  {
  }

  lemma RowReal(s: seq<F32>, row: nat, width: nat, i: nat)
    requires row * width + width <= |s| && i < width
    ensures RealAt(RowOf(s, row, width), i) == RealAt(s, row * width + i)
  {
    RowElement(s, row, width, i);
  }

  lemma RowFinite(s: seq<F32>, row: nat, width: nat)
    requires AllFinite(s) && row * width + width <= |s|
    ensures AllFinite(RowOf(s, row, width))
  {
  }

  lemma {:induction false} DotIsPlain(fm: FloatModel, a: seq<F32>, i: nat, b: seq<F32>, j: nat, n: nat)
    requires Exact(fm) && AllFinite(a) && AllFinite(b)
    ensures DotRows(fm, a, i, b, j, n) == Fin(PlainDot(a, i, b, j, n))
  {
    hide Exact, FloatModel.Add, FloatModel.Mul, At, RealAt, AllFinite;
    if n > 0 {
      DotIsPlain(fm, a, i, b, j, n - 1);
      ProductIsReal(fm, a, i + (n - 1), b, j + (n - 1));
      var sum, p := PlainDot(a, i, b, j, n - 1), RealAt(a, i + (n - 1)) * RealAt(b, j + (n - 1));
      ExactAdd(fm, Fin(sum), Fin(p));
      assert PlainDot(a, i, b, j, n) == sum + p;
      assert fm.Mul(At(a, i + (n - 1)), At(b, j + (n - 1))) == Fin(p);
    }
  }

  /** A dot product of rows is one of the buffers they are rows of. */
  lemma {:induction false} PlainOfRows(a: seq<F32>, row: nat, width: nat, b: seq<F32>, rowB: nat, widthB: nat, j: nat, n: nat)
    requires row * width + width <= |a| && n <= width && rowB * widthB + widthB <= |b| && j + n <= widthB
    ensures PlainDot(RowOf(a, row, width), 0, RowOf(b, rowB, widthB), j, n) == PlainDot(a, row * width, b, rowB * widthB + j, n)
  {
    hide RowOf, RealAt;
    if n > 0 {
      PlainOfRows(a, row, width, b, rowB, widthB, j, n - 1);
      RowReal(a, row, width, n - 1);
      RowReal(b, rowB, widthB, j + (n - 1));
    }
  }

  lemma Nested(e: nat, inner: nat, width: nat, i: nat)
    ensures e * (inner * width) + i * width == (e * inner + i) * width
  {
    assert e * (inner * width) == (e * inner) * width;
  }

  // ----- one expert -----

  /** The rows a token and an expert use are in range and finite. */
  lemma Rows(f: Fixture, t: nat, e: nat)
    requires Accepts(f) && FiniteFixture(f) && t < f.config.tokens && e < f.config.num_experts
    ensures var c := f.config;
            && t * c.hidden + c.hidden <= |f.input| && e * c.hidden + c.hidden <= |f.router|
            && e * c.Stride() + c.Stride() <= |f.gate| == |f.up| == |f.down|
            && AllFinite(InputRow(f, t)) && AllFinite(RowOf(f.gate, e, c.Stride())) && AllFinite(RowOf(f.up, e, c.Stride()))
            && AllFinite(RowOf(f.down, e, c.Stride())) && AllFinite(RowOf(f.router, e, c.hidden))
  {
    hide RowOf, AllFinite, Config.Stride;
    var c := f.config;
    RowFits(t, c.tokens, c.hidden);
    RowFits(e, c.num_experts, c.hidden);
    RowFits(e, c.num_experts, c.Stride());
    RowFinite(f.input, t, c.hidden);
    RowFinite(f.router, e, c.hidden);
    RowFinite(f.gate, e, c.Stride());
    RowFinite(f.up, e, c.Stride());
    RowFinite(f.down, e, c.Stride());
  }

  lemma SiluIsReal(fm: FloatModel, x: real)
    requires Exponential(fm)
    ensures fm.expReal(-x) > 0.0 && Silu(fm, Fin(x)) == Fin(SiluReal(fm, x))
  {
    hide Exponential, Exact, FloatModel.Add, FloatModel.Div, FloatModel.Exp;
    ExponentialIsExact(fm);
    ExactExp(fm, Fin(-x));
    ExactAdd(fm, Fin(1.0), Fin(fm.expReal(-x)));
    ExactDiv(fm, Fin(x), Fin(1.0 + fm.expReal(-x)));
  }

  /** A row of an expert's gate or up weights against a token. */
  lemma GateOrUp(fm: FloatModel, f: Fixture, t: nat, e: nat, i: nat, w: seq<F32>, b: nat, j: nat, k: nat)
    requires Exponential(fm) && Accepts(f) && FiniteFixture(f) && t < f.config.tokens && e < f.config.num_experts
    requires i < f.config.intermediate && (w == f.gate || w == f.up)
    requires b == t * f.config.hidden && j == i * f.config.hidden && k == (e * f.config.intermediate + i) * f.config.hidden
    ensures DotRows(fm, InputRow(f, t), 0, RowOf(w, e, f.config.Stride()), j, f.config.hidden)
            == Fin(PlainDot(f.input, b, w, k, f.config.hidden))
  {
    hide Exponential, Exact, DotRows, PlainDot, RowOf, AllFinite, FiniteFixture, InputRow, Accepts, Config.Stride;
    var c := f.config;
    var n := c.Stride();
    ExponentialIsExact(fm);
    Rows(f, t, e);
    InputRowIs(f, t);
    WeightRow(c, e, i);
    RowDot(fm, f.input, t, c.hidden, w, e, n, j, k);
  }

  /** A row against part of a longer row. */
  lemma RowDot(fm: FloatModel, a: seq<F32>, row: nat, width: nat, w: seq<F32>, e: nat, n: nat, j: nat, k: nat)
    requires Exact(fm) && AllFinite(RowOf(a, row, width)) && AllFinite(RowOf(w, e, n))
    requires row * width + width <= |a| && e * n + n <= |w| && j + width <= n && k == e * n + j
    ensures DotRows(fm, RowOf(a, row, width), 0, RowOf(w, e, n), j, width) == Fin(PlainDot(a, row * width, w, k, width))
  {
    hide Exact, DotRows, PlainDot, RowOf, AllFinite;
    DotIsPlain(fm, RowOf(a, row, width), 0, RowOf(w, e, n), j, width);
    PlainOfRows(a, row, width, w, e, n, j, width);
  }

  /** Where a row of an expert's gate or up weights lies. */
  lemma WeightRow(c: Config, e: nat, i: nat)
    requires i < c.intermediate
    ensures i * c.hidden + c.hidden <= c.Stride() && e * c.Stride() + i * c.hidden == (e * c.intermediate + i) * c.hidden
  {
    RowFits(i, c.intermediate, c.hidden);
    Nested(e, c.intermediate, c.hidden, i);
  }

  lemma ActivationIsReal(fm: FloatModel, f: Fixture, t: nat, e: nat, i: nat)
    requires Exponential(fm) && Accepts(f) && FiniteFixture(f) && t < f.config.tokens && e < f.config.num_experts
    requires i < f.config.intermediate
    ensures var c := f.config;
            Activated(fm, InputRow(f, t), RowOf(f.gate, e, c.Stride()), RowOf(f.up, e, c.Stride()), c.hidden, c.intermediate)[i]
            == Fin(ActivationReal(fm, f, t, e, i))
  {
    hide Exponential, Exact, FloatModel.Mul, Silu, SiluReal, DotRows, PlainDot, RowOf, AllFinite, FiniteFixture, InputRow, Accepts;
    var c := f.config;
    var x, n := InputRow(f, t), c.Stride();
    var gate, up := RowOf(f.gate, e, n), RowOf(f.up, e, n);
    ExponentialIsExact(fm);
    var b, j, k := t * c.hidden, i * c.hidden, (e * c.intermediate + i) * c.hidden;
    GateOrUp(fm, f, t, e, i, f.gate, b, j, k);
    GateOrUp(fm, f, t, e, i, f.up, b, j, k);
    var g, u := PlainDot(f.input, b, f.gate, k, c.hidden), PlainDot(f.input, b, f.up, k, c.hidden);
    SiluIsReal(fm, g);
    ExactMul(fm, Fin(SiluReal(fm, g)), Fin(u));
  }

  lemma {:induction false} ProjectionIsReal(fm: FloatModel, f: Fixture, t: nat, e: nat, d: nat, act: seq<F32>, n: nat)
    requires Exponential(fm) && Accepts(f) && FiniteFixture(f) && t < f.config.tokens && e < f.config.num_experts
    requires d < f.config.hidden && n <= f.config.intermediate == |act|
    requires forall i :: 0 <= i < |act| ==> act[i] == Fin(ActivationReal(fm, f, t, e, i))
    ensures DotRows(fm, act, 0, RowOf(f.down, e, f.config.Stride()), d * f.config.intermediate, n)
            == Fin(ExpertReal(fm, f, t, e, d, n))
  {
    hide Exponential, Exact, FloatModel.Add, FloatModel.Mul, ActivationReal, RowOf, AllFinite, FiniteFixture, At, RealAt, Accepts;
    if n > 0 {
      ProjectionIsReal(fm, f, t, e, d, act, n - 1);
      var c := f.config;
      var down, j := RowOf(f.down, e, c.Stride()), d * c.intermediate + (n - 1);
      ExponentialIsExact(fm);
      Rows(f, t, e);
      DownIndex(f, e, d, n - 1);
      RowReal(f.down, e, c.Stride(), j);
      FiniteActs(act);
      ProductIsReal(fm, act, 0 + (n - 1), down, j);
      ActReal(act, n - 1);
      var sum, p := ExpertReal(fm, f, t, e, d, n - 1), ActivationReal(fm, f, t, e, n - 1) * RealAt(down, j);
      ExactAdd(fm, Fin(sum), Fin(p));
      assert fm.Mul(At(act, 0 + (n - 1)), At(down, j)) == Fin(p);
      assert RealAt(f.down, (e * c.hidden + d) * c.intermediate + (n - 1)) == RealAt(down, j);
      assert ExpertReal(fm, f, t, e, d, n) == sum + p;
    }
  }

  lemma DownIndex(f: Fixture, e: nat, d: nat, i: nat)
    requires d < f.config.hidden && i < f.config.intermediate
    ensures var c := f.config;
            && d * c.intermediate + i < c.Stride()
            && e * c.Stride() + (d * c.intermediate + i) == (e * c.hidden + d) * c.intermediate + i
  {
    var c := f.config;
    InRange(d, c.hidden, i, c.intermediate);
    assert c.Stride() == c.hidden * c.intermediate;
    Nested(e, c.hidden, c.intermediate, d);
  }

  lemma FiniteActs(act: seq<F32>)
    requires forall i :: 0 <= i < |act| ==> act[i].Fin?
    ensures AllFinite(act)
  {
  }

  lemma ActReal(act: seq<F32>, i: nat)
    requires i < |act| && act[i].Fin?
    ensures RealAt(act, i) == act[i].r
  {
  }

  /** One expert on one token: its own gate, up and down weights, each in its place. */
  lemma ExpertIsReal(fm: FloatModel, f: Fixture, t: nat, e: nat, d: nat)
    requires Exponential(fm) && Accepts(f) && FiniteFixture(f) && t < f.config.tokens && e < f.config.num_experts
    requires d < f.config.hidden
    ensures ExpertOf(fm, f, InputRow(f, t), e)[d] == Fin(ExpertReal(fm, f, t, e, d, f.config.intermediate))
  {
    hide Exponential, Exact, ActivationReal, ExpertReal, RowOf, FiniteFixture, Accepts, DotRows, Activated;
    var c, n := f.config, f.config.Stride();
    var act := Activated(fm, InputRow(f, t), RowOf(f.gate, e, n), RowOf(f.up, e, n), c.hidden, c.intermediate);
    forall i | 0 <= i < |act| ensures act[i] == Fin(ActivationReal(fm, f, t, e, i)) {
      ActivationIsReal(fm, f, t, e, i);
    }
    ProjectionIsReal(fm, f, t, e, d, act, c.intermediate);
  }

  // ----- routing -----

  lemma LogitIsReal(fm: FloatModel, f: Fixture, t: nat, e: nat)
    requires Exponential(fm) && Accepts(f) && FiniteFixture(f) && t < f.config.tokens && e < f.config.num_experts
    ensures LogitsOf(fm, f, InputRow(f, t))[e] == Fin(LogitReal(f, t, e))
  {
    hide Exponential, Exact, DotRows, PlainDot, RowOf, AllFinite, InputRow, Accepts;
    var c := f.config;
    ExponentialIsExact(fm);
    Rows(f, t, e);
    InputRowIs(f, t);
    DotIsPlain(fm, InputRow(f, t), 0, f.router, e * c.hidden, c.hidden);
    PlainOfRow(f.input, t, c.hidden, f.router, e * c.hidden, c.hidden);
  }

  lemma {:induction false} PlainOfRow(a: seq<F32>, row: nat, width: nat, b: seq<F32>, j: nat, n: nat)
    requires row * width + width <= |a| && n <= width
    ensures PlainDot(RowOf(a, row, width), 0, b, j, n) == PlainDot(a, row * width, b, j, n)
  {
    hide RowOf, RealAt;
    if n > 0 {
      PlainOfRow(a, row, width, b, j, n - 1);
      RowReal(a, row, width, n - 1);
    }
  }

  lemma FiniteLogits(fm: FloatModel, f: Fixture, t: nat)
    requires Exponential(fm) && Accepts(f) && FiniteFixture(f) && t < f.config.tokens
    ensures AllFinite(LogitsOf(fm, f, InputRow(f, t)))
  {
    hide Exponential, LogitsOf, LogitReal, Accepts, FiniteFixture;
    forall e | 0 <= e < f.config.num_experts ensures LogitsOf(fm, f, InputRow(f, t))[e].Fin? {
      LogitIsReal(fm, f, t, e);
    }
  }

  /** What the parts of token `t` in a result are. */
  lemma TokenParts(fm: FloatModel, f: Fixture, r: MoeOutput, t: nat)
    requires IsRun(fm, f, Some(r)) && t < f.config.tokens
    ensures var c, x := f.config, InputRow(f, t);
            && Sized(f, r) && RowOf(r.weights, t, c.top_k) == WeightsOf(fm, f, x) && RowOf(r.experts, t, c.top_k) == ExpertsOf(fm, f, x)
            && OutputsAt(c, r.outputs, t, OutputsOf(fm, f, x))
            && RowOf(r.output, t, c.hidden) == BlendRow(fm, WeightsOf(fm, f, x), OutputsOf(fm, f, x), c.hidden)
  {
    hide WeightsOf, ExpertsOf, OutputsOf, BlendRow, RowOf, OutputsAt, InputRow, Usable, Sized;
    assert TokenAt(fm, f, r, t);
  }

  predicate LogitLeads(f: Fixture, t: nat, a: nat, b: nat) {
    LogitReal(f, t, a) > LogitReal(f, t, b) || (LogitReal(f, t, a) == LogitReal(f, t, b) && a < b)
  }

  /** The experts and values a token selects. */
  lemma Selection(fm: FloatModel, f: Fixture, t: nat) returns (vals: seq<F32>)
    requires Accepts(f) && t < f.config.tokens
    ensures var x := InputRow(f, t);
            Selected(LogitsOf(fm, f, x), vals, ExpertsOf(fm, f, x), f.config.top_k) && WeightsOf(fm, f, x) == SoftmaxOf(fm, vals)
  {
    hide LogitsOf, Ranked, SoftmaxOf;
    var logits := LogitsOf(fm, f, InputRow(f, t));
    vals := TopValues(logits, Ranked(logits, |logits|), f.config.top_k);
  }

  /** The `top_k` greatest logits of a token, in descending order, ties to the smaller index. */
  ghost predicate BestExperts(f: Fixture, t: nat, es: seq<nat>) {
    && |es| == f.config.top_k && (forall s :: 0 <= s < |es| ==> es[s] < f.config.num_experts)
    && (forall s, u :: 0 <= s < u < |es| ==> es[s] != es[u] && LogitLeads(f, t, es[s], es[u]))
    && (forall s, e :: 0 <= s < |es| && 0 <= e < f.config.num_experts && e !in es ==> LogitLeads(f, t, es[s], e))
  }

  lemma SelectedLead(fm: FloatModel, f: Fixture, t: nat, logits: seq<F32>, vals: seq<F32>, es: seq<nat>)
    requires Exponential(fm) && Accepts(f) && FiniteFixture(f) && t < f.config.tokens
    requires logits == LogitsOf(fm, f, InputRow(f, t)) && Selected(logits, vals, es, f.config.top_k)
    ensures BestExperts(f, t, es)
    ensures |vals| == |es| && forall s :: 0 <= s < |es| ==> vals[s] == Fin(LogitReal(f, t, es[s]))
  {
    hide Exponential, LogitReal, Accepts, FiniteFixture, InputRow, Selected, Leads, LogitLeads, AllFinite;
    var k := f.config.top_k;
    FiniteLogits(fm, f, t);
    EnoughExperts(f);
    LogitCount(fm, f, t);
    TopOverReals(logits, vals, es, k);
    forall s, u | 0 <= s < u < k ensures LogitLeads(f, t, es[s], es[u]) {
      LeadsByLogit(fm, f, t, es[s], es[u]);
    }
    forall s, e | 0 <= s < k && 0 <= e < f.config.num_experts && e !in es ensures LogitLeads(f, t, es[s], e) {
      LeadsByLogit(fm, f, t, es[s], e);
    }
    forall s | 0 <= s < k ensures vals[s] == Fin(LogitReal(f, t, es[s])) {
      LogitIsReal(fm, f, t, es[s]);
    }
  }

  lemma LogitCount(fm: FloatModel, f: Fixture, t: nat)
    ensures |LogitsOf(fm, f, InputRow(f, t))| == f.config.num_experts
  {
  }

  /** Each token gets the experts with its greatest logits. */
  lemma ExpertsLead(fm: FloatModel, f: Fixture, r: MoeOutput, t: nat)
    requires Exponential(fm) && Accepts(f) && FiniteFixture(f) && IsRun(fm, f, Some(r)) && t < f.config.tokens
    ensures BestExperts(f, t, RowOf(r.experts, t, f.config.top_k))
  {
    hide Exponential, LogitsOf, ExpertsOf, WeightsOf, OutputsOf, BlendRow, RowOf, OutputsAt, InputRow, Sized, IsRun, Selected, SoftmaxOf,
         FiniteFixture, Accepts, BestExperts;
    TokenParts(fm, f, r, t);
    var vals := Selection(fm, f, t);
    SelectedLead(fm, f, t, LogitsOf(fm, f, InputRow(f, t)), vals, ExpertsOf(fm, f, InputRow(f, t)));
  }

  lemma LeadsByLogit(fm: FloatModel, f: Fixture, t: nat, a: nat, b: nat)
    requires Exponential(fm) && Accepts(f) && FiniteFixture(f) && t < f.config.tokens
    requires a < f.config.num_experts && b < f.config.num_experts
    ensures Leads(LogitsOf(fm, f, InputRow(f, t)), a, b) <==> LogitLeads(f, t, a, b)
  {
    hide Exponential, LogitsOf, LogitReal, Accepts, FiniteFixture, InputRow;
    LogitIsReal(fm, f, t, a);
    LogitIsReal(fm, f, t, b);
  }

  lemma {:induction false} TotalIsLogits(fm: FloatModel, f: Fixture, t: nat, vals: seq<F32>, experts: seq<nat>, n: nat)
    requires |vals| == |experts| && n <= |vals|
    requires forall s :: 0 <= s < |vals| ==> RealAt(vals, s) == LogitReal(f, t, experts[s])
    ensures ExpTotal(fm, vals, n) == ExpLogits(fm, f, t, experts, n)
  {
    hide LogitReal, RealAt;
    if n > 0 {
      TotalIsLogits(fm, f, t, vals, experts, n - 1);
    }
  }

  /** The softmax of the selected logits. */
  ghost predicate LogitSoftmax(fm: FloatModel, f: Fixture, t: nat, ws: seq<F32>, es: seq<nat>) {
    && |ws| == |es|
    && forall s :: 0 <= s < |es| ==>
         && ExpLogits(fm, f, t, es, |es|) > 0.0
         && ws[s] == Fin(fm.expReal(LogitReal(f, t, es[s])) / ExpLogits(fm, f, t, es, |es|))
  }

  lemma SelectedWeights(fm: FloatModel, f: Fixture, t: nat, vals: seq<F32>, es: seq<nat>)
    requires Exponential(fm) && |vals| == |es| && forall s :: 0 <= s < |es| ==> vals[s] == Fin(LogitReal(f, t, es[s]))
    ensures LogitSoftmax(fm, f, t, SoftmaxOf(fm, vals), es)
  {
    hide Exponential, LogitReal, SoftmaxOf, ExpTotal, ExpLogits;
    forall s | 0 <= s < |vals| ensures RealAt(vals, s) == LogitReal(f, t, es[s]) {
      ActReal(vals, s);
    }
    TotalIsLogits(fm, f, t, vals, es, |es|);
    forall s | 0 <= s < |es|
      ensures ExpLogits(fm, f, t, es, |es|) > 0.0
      ensures SoftmaxOf(fm, vals)[s] == Fin(fm.expReal(LogitReal(f, t, es[s])) / ExpLogits(fm, f, t, es, |es|))
    {
      SoftmaxIsExponential(fm, vals, s);
    }
  }

  /** Each weight is the expert's exponentiated logit divided by the sum over the selected experts. */
  lemma WeightsAreSoftmax(fm: FloatModel, f: Fixture, r: MoeOutput, t: nat)
    requires Exponential(fm) && Accepts(f) && FiniteFixture(f) && IsRun(fm, f, Some(r)) && t < f.config.tokens
    ensures LogitSoftmax(fm, f, t, RowOf(r.weights, t, f.config.top_k), RowOf(r.experts, t, f.config.top_k))
  {
    hide Exponential, LogitsOf, ExpertsOf, WeightsOf, OutputsOf, BlendRow, RowOf, OutputsAt, InputRow, Sized, IsRun, Selected, SoftmaxOf,
         FiniteFixture, Accepts, BestExperts, LogitSoftmax, LogitReal;
    TokenParts(fm, f, r, t);
    var vals := Selection(fm, f, t);
    SelectedLead(fm, f, t, LogitsOf(fm, f, InputRow(f, t)), vals, ExpertsOf(fm, f, InputRow(f, t)));
    SelectedWeights(fm, f, t, vals, ExpertsOf(fm, f, InputRow(f, t)));
  }

  lemma EnoughExperts(f: Fixture)
    requires Accepts(f)
    ensures f.config.top_k <= f.config.num_experts
  {
  }

  // ----- the block -----

  /** Where element `d` of slot `s` of token `t` is found. */
  lemma SlotElement(f: Fixture, r: MoeOutput, t: nat, s: nat, d: nat, i: nat)
    requires Sized(f, r) && t < f.config.tokens && s < f.config.top_k && d < f.config.hidden
    requires i == (t * f.config.top_k + s) * f.config.hidden + d
    ensures var c := f.config;
            && i < |r.outputs| && |RowOf(r.outputs, t * c.top_k + s, c.hidden)| == c.hidden
            && RowOf(r.outputs, t * c.top_k + s, c.hidden)[d] == r.outputs[i]
  {
    var c := f.config;
    InRange(t, c.tokens, s, c.top_k);
    RowFits(t * c.top_k + s, c.tokens * c.top_k, c.hidden);
    RowElement(r.outputs, t * c.top_k + s, c.hidden, d);
  }

  /** Slot by slot the result holds the output of the slot's expert: its gate row activates its up row, and its down
      row projects the products. */
  lemma SlotIsExpert(fm: FloatModel, f: Fixture, r: MoeOutput, t: nat, s: nat, d: nat, i: nat)
    requires Exponential(fm) && Accepts(f) && FiniteFixture(f) && IsRun(fm, f, Some(r))
    requires t < f.config.tokens && s < f.config.top_k && d < f.config.hidden && i == (t * f.config.top_k + s) * f.config.hidden + d
    ensures |RowOf(r.experts, t, f.config.top_k)| == f.config.top_k && i < |r.outputs|
    ensures r.outputs[i] == Fin(ExpertReal(fm, f, t, RowOf(r.experts, t, f.config.top_k)[s], d, f.config.intermediate))
  {
    hide Exponential, ExpertsOf, WeightsOf, BlendRow, RowOf, InputRow, Sized, IsRun, FiniteFixture, ExpertReal, ExpertOf, Accepts, LogitLeads;
    TokenParts(fm, f, r, t);
    ExpertsLead(fm, f, r, t);
    SlotElement(f, r, t, s, d, i);
    var e := RowOf(r.experts, t, f.config.top_k)[s];
    ExpertIsReal(fm, f, t, e, d);
  }

  lemma {:induction false} BlendIsReal(fm: FloatModel, f: Fixture, t: nat, d: nat, weights: seq<F32>, experts: seq<nat>, outputs: seq<seq<F32>>, n: nat)
    requires Exponential(fm) && n <= |weights| == |outputs| == |experts|
    requires forall s :: 0 <= s < |weights| ==> weights[s].Fin?
    requires forall s :: 0 <= s < |outputs| ==>
               d < |outputs[s]| && outputs[s][d] == Fin(ExpertReal(fm, f, t, experts[s], d, f.config.intermediate))
    ensures Blend(fm, weights[..n], outputs[..n], d) == Fin(BlockReal(fm, f, t, d, weights, experts, n))
  {
    hide Exponential, Exact, ExpertReal, FloatModel.Add, FloatModel.Mul;
    if n > 0 {
      assert weights[..n][..n - 1] == weights[..n - 1] && outputs[..n][..n - 1] == outputs[..n - 1];
      BlendIsReal(fm, f, t, d, weights, experts, outputs, n - 1);
      ExponentialIsExact(fm);
      FiniteEntry(weights, n - 1);
      var e := ExpertReal(fm, f, t, experts[n - 1], d, f.config.intermediate);
      ExactMul(fm, weights[n - 1], Fin(e));
      var sum, p := BlockReal(fm, f, t, d, weights, experts, n - 1), SlotReal(fm, f, t, d, RealAt(weights, n - 1), experts[n - 1]);
      ExactAdd(fm, Fin(sum), Fin(p));
      assert At(outputs[n - 1], d) == Fin(e);
      assert fm.Mul(weights[n - 1], At(outputs[n - 1], d)) == Fin(p);
      assert weights[..n][n - 1] == weights[n - 1] && outputs[..n][n - 1] == outputs[n - 1];
      assert BlockReal(fm, f, t, d, weights, experts, n) == sum + p;
    }
  }

  lemma FiniteEntry(xs: seq<F32>, i: nat)
    requires i < |xs| && xs[i].Fin?
    ensures xs[i] == Fin(RealAt(xs, i))
  {
  }

  /** The row of a token's output, from its slots' experts and weights. */
  lemma RowIsReal(fm: FloatModel, f: Fixture, t: nat, d: nat, ws: seq<F32>, es: seq<nat>, outs: seq<seq<F32>>)
    requires Exponential(fm) && Accepts(f) && FiniteFixture(f) && t < f.config.tokens && d < f.config.hidden
    requires |ws| == |outs| == |es| && LogitSoftmax(fm, f, t, ws, es)
    requires forall s :: 0 <= s < |es| ==> es[s] < f.config.num_experts && outs[s] == ExpertOf(fm, f, InputRow(f, t), es[s])
    ensures Blend(fm, ws, outs, d) == Fin(BlockReal(fm, f, t, d, ws, es, |es|))
  {
    hide Exponential, InputRow, FiniteFixture, ExpertReal, ExpertOf, BlockReal, Accepts, Blend, LogitReal, ExpLogits;
    forall s | 0 <= s < |es| ensures d < |outs[s]| && outs[s][d] == Fin(ExpertReal(fm, f, t, es[s], d, f.config.intermediate)) {
      ExpertLength(fm, f, InputRow(f, t), es[s]);
      ExpertIsReal(fm, f, t, es[s], d);
    }
    BlendIsReal(fm, f, t, d, ws, es, outs, |es|);
    assert ws[..|es|] == ws && outs[..|es|] == outs;
  }

  lemma ExpertLength(fm: FloatModel, f: Fixture, x: seq<F32>, e: nat)
    ensures |ExpertOf(fm, f, x, e)| == f.config.hidden
  {
  }

  lemma BlendAt(fm: FloatModel, ws: seq<F32>, outs: seq<seq<F32>>, hidden: nat, d: nat)
    requires |ws| == |outs| && d < hidden
    ensures BlendRow(fm, ws, outs, hidden)[d] == Blend(fm, ws, outs, d)
  {
  }

  lemma OutputElement(f: Fixture, r: MoeOutput, t: nat, d: nat)
    requires Sized(f, r) && t < f.config.tokens && d < f.config.hidden
    ensures t * f.config.hidden + d < |r.output|
    ensures |RowOf(r.output, t, f.config.hidden)| == f.config.hidden
    ensures RowOf(r.output, t, f.config.hidden)[d] == r.output[t * f.config.hidden + d]
  {
    RowFits(t, f.config.tokens, f.config.hidden);
    RowElement(r.output, t, f.config.hidden, d);
  }

  lemma OutputsAre(fm: FloatModel, f: Fixture, x: seq<F32>)
    ensures var es, outs := ExpertsOf(fm, f, x), OutputsOf(fm, f, x);
            && |es| == |outs| == |WeightsOf(fm, f, x)| == f.config.top_k
            && forall s :: 0 <= s < |es| ==> outs[s] == ExpertOf(fm, f, x, es[s])
  {
    hide ExpertOf, LogitsOf, Ranked;
  }

  /** Element (t, d) of the block's output is the sum over the token's slots of routing weight times expert output. */
  lemma OutputIsReal(fm: FloatModel, f: Fixture, r: MoeOutput, t: nat, d: nat)
    requires Exponential(fm) && Accepts(f) && FiniteFixture(f) && IsRun(fm, f, Some(r)) && t < f.config.tokens && d < f.config.hidden
    ensures |RowOf(r.experts, t, f.config.top_k)| == f.config.top_k
    ensures var c := f.config;
            var ws, es := RowOf(r.weights, t, c.top_k), RowOf(r.experts, t, c.top_k);
            t * c.hidden + d < |r.output| && r.output[t * c.hidden + d] == Fin(BlockReal(fm, f, t, d, ws, es, c.top_k))
  {
    hide Exponential, ExpertsOf, WeightsOf, OutputsOf, RowOf, InputRow, IsRun, FiniteFixture, ExpertOf, BlockReal, Accepts, Blend,
         OutputsAt, BlendRow, Sized, LogitSoftmax, LogitLeads;
    var x := InputRow(f, t);
    TokenParts(fm, f, r, t);
    ExpertsLead(fm, f, r, t);
    WeightsAreSoftmax(fm, f, r, t);
    OutputsAre(fm, f, x);
    var ws, es, outs := WeightsOf(fm, f, x), ExpertsOf(fm, f, x), OutputsOf(fm, f, x);
    RowIsReal(fm, f, t, d, ws, es, outs);
    BlendAt(fm, ws, outs, f.config.hidden, d);
    OutputElement(f, r, t, d);
  }

  /** On finite fixtures the block never panics. */
  lemma FiniteRuns(fm: FloatModel, f: Fixture, r: Option<MoeOutput>)
    requires Exponential(fm) && Accepts(f) && FiniteFixture(f) && IsRun(fm, f, r)
    ensures r.Some?
  {
    hide Exponential, Accepts, FiniteFixture, TokenRun, LogitsOf, InputRow, TokenAt;
    if r.None? {
      var t :| 0 <= t < f.config.tokens && TokenRun(fm, f, InputRow(f, t)).None?;
      FiniteLogits(fm, f, t);
      FiniteSelectable(LogitsOf(fm, f, InputRow(f, t)));
      PanicsIff(fm, f, InputRow(f, t));
      EnoughExperts(f);
      assert false;
    }
  }

  // ----- the up weights enter linearly -----

  /** The same fixture with every up weight multiplied. */
  ghost predicate UpScaled(f: Fixture, g: Fixture, c: real) {
    g == f.(up := g.up) && |g.up| == |f.up| && AllFinite(g.up) && forall i: nat :: RealAt(g.up, i) == c * RealAt(f.up, i)
  }

  lemma ScaleStep(c: real, x: real, a: real, b: real, b': real)
    requires b' == c * b
    ensures c * x + a * b' == c * (x + a * b) && c * x + b' * a == c * (x + b * a)
  {
    assert a * (c * b) == c * (a * b);
  }

  lemma {:induction false} DotScales(a: seq<F32>, i: nat, b: seq<F32>, b': seq<F32>, j: nat, c: real, n: nat)
    requires forall k: nat :: RealAt(b', k) == c * RealAt(b, k)
    ensures PlainDot(a, i, b', j, n) == c * PlainDot(a, i, b, j, n)
  {
    hide RealAt;
    if n > 0 {
      DotScales(a, i, b, b', j, c, n - 1);
      ScaleStep(c, PlainDot(a, i, b, j, n - 1), RealAt(a, i + (n - 1)), RealAt(b, j + (n - 1)), RealAt(b', j + (n - 1)));
    }
  }

  lemma ActivationScales(fm: FloatModel, f: Fixture, g: Fixture, c: real, t: nat, e: nat, i: nat)
    requires Exponential(fm) && UpScaled(f, g, c)
    ensures ActivationReal(fm, g, t, e, i) == c * ActivationReal(fm, f, t, e, i)
  {
    hide Exponential, RealAt, AllFinite, PlainDot, SiluReal;
    var h := f.config.hidden;
    var j := (e * f.config.intermediate + i) * h;
    DotScales(f.input, t * h, f.up, g.up, j, c, h);
    var x := PlainDot(f.input, t * h, f.gate, j, h);
    ExpPositive(fm, -x);
    var u, v := PlainDot(f.input, t * h, f.up, j, h), PlainDot(f.input, t * h, g.up, j, h);
    ScaleStep(c, 0.0, SiluReal(fm, x), u, v);
  }

  lemma {:induction false} ExpertScales(fm: FloatModel, f: Fixture, g: Fixture, c: real, t: nat, e: nat, d: nat, n: nat)
    requires Exponential(fm) && UpScaled(f, g, c)
    ensures ExpertReal(fm, g, t, e, d, n) == c * ExpertReal(fm, f, t, e, d, n)
  {
    hide Exponential, RealAt, AllFinite, ActivationReal;
    if n > 0 {
      ExpertScales(fm, f, g, c, t, e, d, n - 1);
      ActivationScales(fm, f, g, c, t, e, n - 1);
      ScaleStep(c, ExpertReal(fm, f, t, e, d, n - 1), RealAt(f.down, (e * f.config.hidden + d) * f.config.intermediate + (n - 1)),
                ActivationReal(fm, f, t, e, n - 1), ActivationReal(fm, g, t, e, n - 1));
    }
  }

  lemma {:induction false} BlockScales(fm: FloatModel, f: Fixture, g: Fixture, c: real, t: nat, d: nat, ws: seq<F32>, es: seq<nat>, n: nat)
    requires Exponential(fm) && UpScaled(f, g, c) && n <= |es|
    ensures BlockReal(fm, g, t, d, ws, es, n) == c * BlockReal(fm, f, t, d, ws, es, n)
  {
    hide Exponential, RealAt, AllFinite, ExpertReal;
    if n > 0 {
      BlockScales(fm, f, g, c, t, d, ws, es, n - 1);
      ExpertScales(fm, f, g, c, t, es[n - 1], d, f.config.intermediate);
      ScaleStep(c, BlockReal(fm, f, t, d, ws, es, n - 1), RealAt(ws, n - 1), ExpertReal(fm, f, t, es[n - 1], d, f.config.intermediate),
                ExpertReal(fm, g, t, es[n - 1], d, f.config.intermediate));
    }
  }

  /** Routing does not look at the experts' weights. */
  lemma SameRouting(fm: FloatModel, f: Fixture, g: Fixture, r: MoeOutput, q: MoeOutput, t: nat)
    requires g == f.(up := g.up) && IsRun(fm, f, Some(r)) && IsRun(fm, g, Some(q)) && t < f.config.tokens
    ensures RowOf(q.experts, t, f.config.top_k) == RowOf(r.experts, t, f.config.top_k)
    ensures RowOf(q.weights, t, f.config.top_k) == RowOf(r.weights, t, f.config.top_k)
  {
    hide OutputsOf, BlendRow, RowOf, OutputsAt, Sized, IsRun, Ranked, Logits, SoftmaxOf;
    TokenParts(fm, f, r, t);
    TokenParts(fm, g, q, t);
  }

  lemma ScaledFinite(f: Fixture, g: Fixture, c: real)
    requires Accepts(f) && FiniteFixture(f) && UpScaled(f, g, c)
    ensures Accepts(g) && FiniteFixture(g) && g.config == f.config
  {
    hide RealAt;
  }

  /** Multiplying all up weights multiplies every expert output. */
  lemma SlotIsLinear(fm: FloatModel, f: Fixture, g: Fixture, c: real, r: MoeOutput, q: MoeOutput, t: nat, s: nat, d: nat, i: nat)
    requires Exponential(fm) && Accepts(f) && FiniteFixture(f) && UpScaled(f, g, c) && IsRun(fm, f, Some(r)) && IsRun(fm, g, Some(q))
    requires t < f.config.tokens && s < f.config.top_k && d < f.config.hidden && i == (t * f.config.top_k + s) * f.config.hidden + d
    ensures ScaledAt(c, r.outputs, q.outputs, i)
  {
    hide Exponential, Accepts, FiniteFixture, UpScaled, IsRun, RowOf, ExpertReal, BlockReal;
    ScaledFinite(f, g, c);
    OnlyUp(f, g, c);
    SameRouting(fm, f, g, r, q, t);
    SlotIsExpert(fm, f, r, t, s, d, i);
    SlotIsExpert(fm, g, q, t, s, d, i);
    ExpertScales(fm, f, g, c, t, RowOf(r.experts, t, f.config.top_k)[s], d, f.config.intermediate);
  }

  /** It multiplies the block's output too, and leaves selections and weights as they were. */
  lemma OutputIsLinear(fm: FloatModel, f: Fixture, g: Fixture, c: real, r: MoeOutput, q: MoeOutput, t: nat, d: nat)
    requires Exponential(fm) && Accepts(f) && FiniteFixture(f) && UpScaled(f, g, c) && IsRun(fm, f, Some(r)) && IsRun(fm, g, Some(q))
    requires t < f.config.tokens && d < f.config.hidden
    ensures RowOf(q.experts, t, f.config.top_k) == RowOf(r.experts, t, f.config.top_k)
    ensures RowOf(q.weights, t, f.config.top_k) == RowOf(r.weights, t, f.config.top_k)
    ensures ScaledAt(c, r.output, q.output, t * f.config.hidden + d)
  {
    hide Exponential, Accepts, FiniteFixture, UpScaled, IsRun, RowOf, ExpertReal, BlockReal;
    var k := f.config.top_k;
    ScaledFinite(f, g, c);
    OnlyUp(f, g, c);
    SameRouting(fm, f, g, r, q, t);
    OutputIsReal(fm, f, r, t, d);
    OutputIsReal(fm, g, q, t, d);
    BlockScales(fm, f, g, c, t, d, RowOf(r.weights, t, k), RowOf(r.experts, t, k), k);
  }

  lemma OnlyUp(f: Fixture, g: Fixture, c: real)
    requires UpScaled(f, g, c)
    ensures g == f.(up := g.up)
  {
    hide RealAt;
  }

  /** Entry `i` of the second buffer is `c` times that of the first. */
  predicate ScaledAt(c: real, a: seq<F32>, b: seq<F32>, i: nat) {
    i < |a| && i < |b| && a[i].Fin? && b[i] == Fin(c * a[i].r)
  }
}
