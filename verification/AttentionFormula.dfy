/** The attention reference against the textbook formula, written out over the input buffers with plain sums of
    real numbers: no maximum, no shifting, no rounding. */
module AttentionFormula {
  import opened Options
  import opened Floats
  import opened ExactArithmetic
  import opened AttentionReference
  import opened AttentionAveraging

  function IntAt(xs: seq<int>, i: nat): int { if i < |xs| then xs[i] else 0 }

  /** Row `query` of Q times row `key` of K, over the first `n` dimensions. */
  function ScoreSum(run: AttentionRun, query: nat, key: nat, n: nat): int {
    if n == 0 then 0
    else
      ScoreSum(run, query, key, n - 1)
      + IntAt(run.q, query * run.head_dim + n - 1) * IntAt(run.k, key * run.head_dim + n - 1)
  }

  /** The sum of exp(score) over the first `n` keys. */
  function ExpSum(fm: FloatModel, run: AttentionRun, query: nat, n: nat): real {
    if n == 0 then 0.0
    else ExpSum(fm, run, query, n - 1) + fm.expReal(ScoreSum(run, query, n - 1, run.head_dim) as real)
  }

  /** The sum of exp(score) times the key's entry in column `dim` of V. */
  function ExpValueSum(fm: FloatModel, run: AttentionRun, query: nat, dim: nat, n: nat): real {
    if n == 0 then 0.0
    else
      ExpValueSum(fm, run, query, dim, n - 1)
      + fm.expReal(ScoreSum(run, query, n - 1, run.head_dim) as real) * IntAt(run.v, (n - 1) * run.head_dim + dim) as real
  }

  lemma {:induction false} DotIsScore(run: AttentionRun, query: nat, key: nat, n: nat)
    requires Accepted(run) && query < run.sequence && key < run.sequence && n <= run.head_dim
    ensures Dot(run, query, key, n) == ScoreSum(run, query, key, n)
  {
    hide Accepted;
    if n > 0 {
      DotIsScore(run, query, key, n - 1);
      EntryAt(run, query, n - 1);
      EntryAt(run, key, n - 1);
    }
  }

  lemma EntryAt(run: AttentionRun, row: nat, col: nat)
    requires Accepted(run) && row < run.sequence && col < run.head_dim
    ensures var i := row * run.head_dim + col;
            && i == Index(row, col, run.head_dim) && i < |run.q| == |run.k| == |run.v|
            && IntAt(run.q, i) == run.q[i] && IntAt(run.k, i) == run.k[i] && IntAt(run.v, i) == run.v[i]
  {
    IndexInRange(row, col, run.sequence, run.head_dim);
  }

  /** A rounded sum that is a plain sum divided by a common factor. */
  ghost predicate Over(x: F32, c: real, sum: real) { x.Fin? && x.r * c == sum }

  lemma OverAdd(fm: FloatModel, x: F32, y: F32, c: real, s: real, t: real)
    requires Exact(fm) && Over(x, c, s) && Over(y, c, t)
    ensures Over(fm.Add(x, y), c, s + t)
  {
    hide Exact, FloatModel.Add;
    ExactAdd(fm, x, y);
    assert (x.r + y.r) * c == x.r * c + y.r * c;
  }

  lemma OverMul(fm: FloatModel, x: F32, y: F32, c: real, s: real)
    requires Exact(fm) && Over(x, c, s) && y.Fin?
    ensures Over(fm.Mul(x, y), c, s * y.r)
  {
    hide Exact, FloatModel.Mul;
    ExactMul(fm, x, y);
    assert (x.r * y.r) * c == (x.r * c) * y.r;
  }

  /** A key's weight is exp(score) divided by the exponential of the row maximum. */
  lemma WeightOver(fm: FloatModel, run: AttentionRun, query: nat, key: nat, max: real)
    requires Exponential(fm) && Accepted(run) && query < run.sequence && key < run.sequence
    requires MaxScore(fm, run, query, run.sequence) == Fin(max)
    ensures Over(Weight(fm, run, query, key), fm.expReal(max), fm.expReal(ScoreSum(run, query, key, run.head_dim) as real))
  {
    hide Accepted, Exponential, Exact, FloatModel.Sub, FloatModel.Exp, FloatModel.FromInt, MaxScore, Dot;
    ExponentialIsExact(fm);
    DotIsScore(run, query, key, run.head_dim);
    var s := ScoreSum(run, query, key, run.head_dim) as real;
    ExactInt(fm, Dot(run, query, key, run.head_dim));
    ExactSub(fm, Fin(s), Fin(max));
    ExactExp(fm, Fin(s - max));
    ExpShift(fm, s, max);
  }

  lemma {:induction false} SumsOver(fm: FloatModel, run: AttentionRun, query: nat, dim: nat, max: real, n: nat)
    requires Exponential(fm) && Accepted(run) && query < run.sequence && dim < run.head_dim && n <= run.sequence
    requires MaxScore(fm, run, query, run.sequence) == Fin(max)
    ensures Over(Denom(fm, run, query, n), fm.expReal(max), ExpSum(fm, run, query, n))
    ensures Over(Numer(fm, run, query, dim, n), fm.expReal(max), ExpValueSum(fm, run, query, dim, n))
  {
    hide Accepted, Exponential, Exact, FloatModel.Add, FloatModel.Mul, FloatModel.FromInt, MaxScore, Weight, ScoreSum;
    if n > 0 {
      hide Over;
      SumsOver(fm, run, query, dim, max, n - 1);
      ExponentialIsExact(fm);
      WeightOver(fm, run, query, n - 1, max);
      var w, c := Weight(fm, run, query, n - 1), fm.expReal(max);
      var e := fm.expReal(ScoreSum(run, query, n - 1, run.head_dim) as real);
      OverAdd(fm, Denom(fm, run, query, n - 1), w, c, ExpSum(fm, run, query, n - 1), e);
      EntryAt(run, n - 1, dim);
      var v := ValueAt(run, n - 1, dim);
      ExactInt(fm, v);
      OverMul(fm, w, fm.FromInt(v), c, e);
      OverAdd(fm, Numer(fm, run, query, dim, n - 1), fm.Mul(w, fm.FromInt(v)), c,
              ExpValueSum(fm, run, query, dim, n - 1), e * v as real);
    } else {
      assert Over(Fin(0.0), fm.expReal(max), 0.0);
    }
  }

  lemma MaxIsFinite(fm: FloatModel, run: AttentionRun, query: nat) returns (max: real)
    requires fm.Valid() && Accepted(run) && query < run.sequence
    ensures MaxScore(fm, run, query, run.sequence) == Fin(max)
  {
    hide MaxScore;
    var best := MaxScoreAttained(fm, run, query, run.sequence);
    max := Score(fm, run, query, best).r;
  }

  lemma {:induction false} ExpSumPositive(fm: FloatModel, run: AttentionRun, query: nat, n: nat)
    requires Exponential(fm) && n > 0
    ensures ExpSum(fm, run, query, n) > 0.0
  {
    hide Exact;
    assert ExpPositiveAt(fm, ScoreSum(run, query, n - 1, run.head_dim) as real);
    if n > 1 {
      ExpSumPositive(fm, run, query, n - 1);
    }
  }

  /** Over exact arithmetic, with the exponential's two laws, every output of the reference is the truncation of
      the softmax average: keys with larger dot products weigh exponentially more. */
  lemma OutputIsSoftmaxAverage(fm: FloatModel, run: AttentionRun, query: nat, dim: nat)
    requires Exponential(fm) && Accepted(run) && WellTyped(run) && query < run.sequence && dim < run.head_dim
    ensures ExpSum(fm, run, query, run.sequence) > 0.0
    ensures Output(fm, run, query, dim)
            == Trunc(ExpValueSum(fm, run, query, dim, run.sequence) / ExpSum(fm, run, query, run.sequence))
  {
    hide Accepted, WellTyped, Exponential, Exact, Numer, Denom, Output, ExpSum, ExpValueSum, FloatModel.Valid, Trunc;
    ExponentialIsExact(fm);
    RowsExist(run);
    var max := MaxIsFinite(fm, run, query);
    SumsOver(fm, run, query, dim, max, run.sequence);
    ExpSumPositive(fm, run, query, run.sequence);
    ExpShift(fm, 0.0, max);
    ClampsAreRedundant(fm, run, query, dim);
    var x, d, c := Numer(fm, run, query, dim, run.sequence).r, Denom(fm, run, query, run.sequence).r, fm.expReal(max);
    assert x * c == ExpValueSum(fm, run, query, dim, run.sequence) && d * c == ExpSum(fm, run, query, run.sequence);
    Cancel(x, d, c);
    assert Average(fm, run, query, dim) == x / d;
  }

  lemma RowsExist(run: AttentionRun)
    requires Accepted(run)
    ensures run.sequence > 0
  {
  }
}
