/** Causal attention against the textbook formula, written out over the input buffers with plain sums of real
    numbers. */
module CausalFormula {
  import opened Floats
  import opened ExactArithmetic
  import opened Softmax
  import opened SoftmaxFormula
  import opened CausalAttention

  /** The square root of a positive number is its positive root. */
  predicate RootAt(fm: FloatModel, x: real) { x > 0.0 ==> fm.sqrtReal(x) > 0.0 && fm.sqrtReal(x) * fm.sqrtReal(x) == x }

  ghost predicate Root(fm: FloatModel) { forall x :: RootAt(fm, x) }

  /** The key/value head that a query head shares with its group. */
  function SharedHead(s: Shape, head: nat): nat
    requires s.key_value_heads > 0 && s.query_heads / s.key_value_heads > 0
  {
    head / (s.query_heads / s.key_value_heads)
  }

  /** Query row of (token, head) times key row `kt` of its shared head, over the first `n` dimensions. */
  function ScoreSum(s: Shape, query: seq<F32>, key: seq<F32>, token: nat, head: nat, kv: nat, kt: nat, n: nat): real {
    if n == 0 then 0.0
    else
      ScoreSum(s, query, key, token, head, kv, kt, n - 1)
      + RealAt(query, (token * s.query_heads + head) * s.head_dim + n - 1)
        * RealAt(key, (kt * s.key_value_heads + kv) * s.head_dim + n - 1)
  }

  /** exp of a key's dot product divided by the root of the head dimension. */
  function ExpScore(fm: FloatModel, s: Shape, query: seq<F32>, key: seq<F32>, token: nat, head: nat, kv: nat, kt: nat): real
    requires fm.sqrtReal(s.head_dim as real) != 0.0
  {
    fm.expReal(ScoreSum(s, query, key, token, head, kv, kt, s.head_dim) / fm.sqrtReal(s.head_dim as real))
  }

  function ExpSum(fm: FloatModel, s: Shape, query: seq<F32>, key: seq<F32>, token: nat, head: nat, kv: nat, n: nat): real
    requires fm.sqrtReal(s.head_dim as real) != 0.0
  {
    if n == 0 then 0.0
    else ExpSum(fm, s, query, key, token, head, kv, n - 1) + ExpScore(fm, s, query, key, token, head, kv, n - 1)
  }

  function ExpValueSum(fm: FloatModel, s: Shape, query: seq<F32>, key: seq<F32>, value: seq<F32>, token: nat, head: nat, kv: nat,
                       dim: nat, n: nat): real
    requires fm.sqrtReal(s.head_dim as real) != 0.0
  {
    if n == 0 then 0.0
    else
      ExpValueSum(fm, s, query, key, value, token, head, kv, dim, n - 1)
      + ExpScore(fm, s, query, key, token, head, kv, n - 1) * RealAt(value, ((n - 1) * s.key_value_heads + kv) * s.head_dim + dim)
  }

  lemma {:induction false} DotIsScore(fm: FloatModel, s: Shape, query: seq<F32>, key: seq<F32>, token: nat, head: nat, kv: nat, kt: nat, n: nat)
    requires Exact(fm) && AllFinite(query) && AllFinite(key)
    ensures Dot(fm, s, query, key, token, head, kv, kt, n) == Fin(ScoreSum(s, query, key, token, head, kv, kt, n))
  {
    hide Exact, FloatModel.Add, FloatModel.Mul, At, RealAt, AllFinite, QueryOffset, KeyValueOffset;
    if n > 0 {
      DotIsScore(fm, s, query, key, token, head, kv, kt, n - 1);
      var i, j := QueryOffset(s, token, head, n - 1), KeyValueOffset(s, kt, kv, n - 1);
      OffsetsAre(s, token, head, kv, kt, n - 1);
      ProductIsReal(fm, query, i, key, j);
      ExactAdd(fm, Fin(ScoreSum(s, query, key, token, head, kv, kt, n - 1)), Fin(RealAt(query, i) * RealAt(key, j)));
    }
  }

  lemma OutputIs(fm: FloatModel, s: Shape, query: seq<F32>, key: seq<F32>, value: seq<F32>, token: nat, head: nat, dim: nat)
    requires s.query_heads > 0
    ensures Output(fm, s, query, key, value, token, head, dim)
            == Weighted(fm, s, SoftmaxOf(fm, Scores(fm, s, query, key, token, head, token + 1)), value, KeyValueHead(s, head), dim, token + 1)
  {
    hide Weighted, SoftmaxOf, Scores;
  }

  lemma OffsetsAre(s: Shape, token: nat, head: nat, kv: nat, kt: nat, dim: nat)
    ensures QueryOffset(s, token, head, dim) == (token * s.query_heads + head) * s.head_dim + dim
    ensures KeyValueOffset(s, kt, kv, dim) == (kt * s.key_value_heads + kv) * s.head_dim + dim
  {
  }

  lemma ScaledScore(fm: FloatModel, s: Shape, dot: real)
    requires Exact(fm) && Root(fm) && s.head_dim > 0
    ensures fm.sqrtReal(s.head_dim as real) > 0.0
    ensures fm.Mul(Fin(dot), Scale(fm, s)) == Fin(dot / fm.sqrtReal(s.head_dim as real))
  {
    hide Exact, FloatModel.Div, FloatModel.Mul, FloatModel.FromInt;
    var n := s.head_dim as real;
    assert RootAt(fm, n);
    var r := fm.sqrtReal(n);
    ExactInt(fm, s.head_dim);
    Unrounded(fm, r);
    ExactDiv(fm, Fin(1.0), Fin(r));
    ExactMul(fm, Fin(dot), Fin(1.0 / r));
    assert dot * (1.0 / r) == dot / r;
  }

  /** The scores, finite and scaled. */
  lemma ScoreAt(fm: FloatModel, s: Shape, query: seq<F32>, key: seq<F32>, token: nat, head: nat, n: nat, kt: nat)
    requires Exact(fm) && Root(fm) && AllFinite(query) && AllFinite(key) && s.query_heads > 0 && s.head_dim > 0 && kt < n
    ensures fm.sqrtReal(s.head_dim as real) > 0.0
    ensures var kv := KeyValueHead(s, head);
            Scores(fm, s, query, key, token, head, n)[kt]
            == Fin(ScoreSum(s, query, key, token, head, kv, kt, s.head_dim) / fm.sqrtReal(s.head_dim as real))
  {
    hide Exact, Root, AllFinite, FloatModel.Mul, Scale, Dot, KeyValueHead, ScoreSum;
    var kv := KeyValueHead(s, head);
    DotIsScore(fm, s, query, key, token, head, kv, kt, s.head_dim);
    ScaledScore(fm, s, ScoreSum(s, query, key, token, head, kv, kt, s.head_dim));
  }

  lemma RootPositive(fm: FloatModel, s: Shape)
    requires Root(fm) && s.head_dim > 0
    ensures fm.sqrtReal(s.head_dim as real) > 0.0
  {
    assert RootAt(fm, s.head_dim as real);
  }

  lemma FiniteReal(xs: seq<F32>, i: nat, x: real)
    requires i < |xs| && xs[i] == Fin(x)
    ensures RealAt(xs, i) == x
  {
  }

  lemma {:induction false} TotalIsExpSum(fm: FloatModel, s: Shape, query: seq<F32>, key: seq<F32>, token: nat, head: nat, scores: seq<F32>, n: nat)
    requires Exact(fm) && Root(fm) && AllFinite(query) && AllFinite(key) && s.query_heads > 0 && s.head_dim > 0
    requires scores == Scores(fm, s, query, key, token, head, token + 1) && n <= token + 1
    ensures fm.sqrtReal(s.head_dim as real) > 0.0
    ensures ExpTotal(fm, scores, n) == ExpSum(fm, s, query, key, token, head, KeyValueHead(s, head), n)
  {
    hide Exact, AllFinite, Scores, KeyValueHead, ScoreSum, Root, RealAt;
    RootPositive(fm, s);
    if n > 0 {
      TotalIsExpSum(fm, s, query, key, token, head, scores, n - 1);
      ScoreAt(fm, s, query, key, token, head, token + 1, n - 1);
      FiniteReal(scores, n - 1, ScoreSum(s, query, key, token, head, KeyValueHead(s, head), n - 1, s.head_dim) / fm.sqrtReal(s.head_dim as real));
    }
  }

  /** One key's share of an element. */
  lemma ShareOf(fm: FloatModel, w: F32, e: real, total: real, v: F32, acc: F32, sum: real)
    requires Exact(fm) && total > 0.0 && w == Fin(e / total) && v.Fin? && acc == Fin(sum / total)
    ensures fm.Add(acc, fm.Mul(w, v)) == Fin((sum + e * v.r) / total)
  {
    hide Exact, FloatModel.Add, FloatModel.Mul;
    ExactMul(fm, w, v);
    ExactAdd(fm, acc, Fin(w.r * v.r));
    assert (e / total) * v.r == (e * v.r) / total by { Quotient(e / total * v.r, total, e * v.r); }
    assert sum / total + (e * v.r) / total == (sum + e * v.r) / total;
  }

  lemma {:induction false} WeightedIsSum(fm: FloatModel, s: Shape, query: seq<F32>, key: seq<F32>, value: seq<F32>, token: nat, head: nat,
                                         dim: nat, scores: seq<F32>, n: nat)
    requires Exponential(fm) && Root(fm) && AllFinite(query) && AllFinite(key) && AllFinite(value)
    requires s.query_heads > 0 && s.head_dim > 0 && n <= token + 1
    requires scores == Scores(fm, s, query, key, token, head, token + 1) && AllFinite(scores)
    ensures fm.sqrtReal(s.head_dim as real) > 0.0 && ExpTotal(fm, scores, token + 1) > 0.0
    ensures var kv := KeyValueHead(s, head);
            Weighted(fm, s, SoftmaxOf(fm, scores), value, kv, dim, n)
            == Fin(ExpValueSum(fm, s, query, key, value, token, head, kv, dim, n) / ExpTotal(fm, scores, token + 1))
  {
    hide Exponential, Exact, AllFinite, Scores, KeyValueHead, ScoreSum, SoftmaxOf, FloatModel.Add, FloatModel.Mul, At, RealAt, ExpTotal,
         Root;
    ExponentialIsExact(fm);
    ScoreAt(fm, s, query, key, token, head, token + 1, 0);
    SoftmaxIsExponential(fm, scores, 0);
    if n > 0 {
      WeightedIsSum(fm, s, query, key, value, token, head, dim, scores, n - 1);
      var kv := KeyValueHead(s, head);
      SoftmaxIsExponential(fm, scores, n - 1);
      ScoreAt(fm, s, query, key, token, head, token + 1, n - 1);
      var j := KeyValueOffset(s, n - 1, kv, dim);
      AtIsReal(value, j);
      AtIsReal(scores, n - 1);
      WeightAt(fm, scores, n - 1);
      ShareOf(fm, SoftmaxOf(fm, scores)[n - 1], ExpScore(fm, s, query, key, token, head, kv, n - 1), ExpTotal(fm, scores, token + 1),
              At(value, j), Weighted(fm, s, SoftmaxOf(fm, scores), value, kv, dim, n - 1),
              ExpValueSum(fm, s, query, key, value, token, head, kv, dim, n - 1));
    }
  }

  lemma WeightAt(fm: FloatModel, scores: seq<F32>, i: nat)
    requires i < |scores|
    ensures At(SoftmaxOf(fm, scores), i) == SoftmaxOf(fm, scores)[i] && At(scores, i) == scores[i]
  {
    hide SoftmaxOf;
  }

  lemma FiniteScores(fm: FloatModel, s: Shape, query: seq<F32>, key: seq<F32>, token: nat, head: nat, n: nat)
    requires Exact(fm) && Root(fm) && AllFinite(query) && AllFinite(key) && s.query_heads > 0 && s.head_dim > 0
    ensures AllFinite(Scores(fm, s, query, key, token, head, n))
  {
    hide Exact, Root, Scores;
    forall kt | 0 <= kt < n ensures Scores(fm, s, query, key, token, head, n)[kt].Fin? {
      ScoreAt(fm, s, query, key, token, head, n, kt);
    }
  }

  /** The average of the shared value head's entries over the tokens up to this one, weighted by exp(q.k / sqrt(n)). */
  ghost predicate IsAverage(fm: FloatModel, s: Shape, query: seq<F32>, key: seq<F32>, value: seq<F32>, token: nat, head: nat, dim: nat, x: F32) {
    && s.key_value_heads > 0 && s.query_heads / s.key_value_heads > 0 && fm.sqrtReal(s.head_dim as real) > 0.0
    && var kv := SharedHead(s, head);
       var total := ExpSum(fm, s, query, key, token, head, kv, token + 1);
       total > 0.0 && x == Fin(ExpValueSum(fm, s, query, key, value, token, head, kv, dim, token + 1) / total)
  }

  lemma AcceptsGroups(s: Shape, query: seq<F32>, key: seq<F32>, value: seq<F32>)
    requires Accepts(s, query, key, value)
    ensures s.key_value_heads > 0 && s.query_heads >= s.key_value_heads && s.query_heads % s.key_value_heads == 0
    ensures |query| == s.tokens * s.QueryWidth()
  {
  }

  /** Over exact arithmetic on finite inputs, element (token, head, dim) of the result is the average of the shared
      value head's entries over the tokens up to its own, each weighted by exp(q.k / sqrt(head_dim)). */
  lemma ElementIsSoftmaxAverage(fm: FloatModel, s: Shape, query: seq<F32>, key: seq<F32>, value: seq<F32>, out: seq<F32>,
                                token: nat, head: nat, dim: nat, i: nat)
    requires Exponential(fm) && Root(fm) && AllFinite(query) && AllFinite(key) && AllFinite(value)
    requires Accepts(s, query, key, value) && token < s.tokens && head < s.query_heads && dim < s.head_dim
    requires |out| == |query| && HeadDone(fm, s, query, key, value, out, token, head)
    requires i == (token * s.query_heads + head) * s.head_dim + dim
    ensures i < |out| && IsAverage(fm, s, query, key, value, token, head, dim, out[i])
  {
    hide Exponential, Exact, AllFinite, Scores, KeyValueHead, ScoreSum, SoftmaxOf, Weighted, ExpTotal, HeadDone, ExpSum, ExpValueSum,
         Shape.QueryWidth, Shape.KeyValueWidth, QueryOffset, Output, Accepts;
    ExponentialIsExact(fm);
    AcceptsGroups(s, query, key, value);
    assert RootAt(fm, s.head_dim as real);
    GroupOf(s, head);
    OffsetsAre(s, token, head, 0, 0, dim);
    OutputIs(fm, s, query, key, value, token, head, dim);
    ElementOf(fm, s, query, key, value, out, token, head, dim);
    var scores := Scores(fm, s, query, key, token, head, token + 1);
    FiniteScores(fm, s, query, key, token, head, token + 1);
    WeightedIsSum(fm, s, query, key, value, token, head, dim, scores, token + 1);
    TotalIsExpSum(fm, s, query, key, token, head, scores, token + 1);
  }
}
