/** What the attention computation means: over exact arithmetic each output is a weighted average of a
    column of V; and for small head dimensions the scores are exact whatever the rounding. */
module AttentionAveraging {
  import opened Options
  import opened Floats
  import opened ExactArithmetic
  import opened AttentionReference

  /** All entries of a column of V lie between two integers. */
  ghost predicate ColumnWithin(run: AttentionRun, dim: nat, lo: int, hi: int)
    requires Accepted(run) && dim < run.head_dim
  {
    forall key: nat :: key < run.sequence ==> lo <= ValueAt(run, key, dim) <= hi
  }

  lemma ScaleLe(a: real, b: real, w: real)
    requires a <= b && w >= 0.0
    ensures w * a <= w * b
  {
  }

  lemma StepBetween(d: real, x: real, w: real, v: real, lo: real, hi: real)
    requires d * lo <= x <= d * hi && w >= 0.0 && lo <= v <= hi
    ensures (d + w) * lo <= x + w * v <= (d + w) * hi
  {
    ScaleLe(lo, v, w);
    ScaleLe(v, hi, w);
    assert (d + w) * lo == d * lo + w * lo && (d + w) * hi == d * hi + w * hi;
  }

  /** `x` lies between the bounds times `d`. */
  ghost predicate Between(d: F32, x: F32, lo: int, hi: int) {
    d.Fin? && x.Fin? && d.r * lo as real <= x.r <= d.r * hi as real
  }

  lemma BetweenStep(fm: FloatModel, d: F32, x: F32, w: F32, v: int, lo: int, hi: int)
    requires Exact(fm) && Between(d, x, lo, hi) && w.Fin? && w.r >= 0.0 && lo <= v <= hi
    ensures Between(fm.Add(d, w), fm.Add(x, fm.Mul(w, fm.FromInt(v))), lo, hi)
  {
    hide Exact, FloatModel.Add, FloatModel.Mul, FloatModel.FromInt;
    var f := fm.FromInt(v);
    ExactInt(fm, v);
    ExactAdd(fm, d, w);
    ExactMul(fm, w, f);
    ExactAdd(fm, x, fm.Mul(w, f));
    StepBetween(d.r, x.r, w.r, f.r, lo as real, hi as real);
  }

  /** Prefix by prefix, the numerator lies between the bounds times the denominator. */
  lemma {:induction false} NumerBetween(fm: FloatModel, run: AttentionRun, query: nat, dim: nat, lo: int, hi: int, n: nat)
    requires Exact(fm) && Accepted(run) && query < run.sequence && dim < run.head_dim && n <= run.sequence
    requires ColumnWithin(run, dim, lo, hi)
    ensures Between(Denom(fm, run, query, n), Numer(fm, run, query, dim, n), lo, hi)
  {
    hide Weight, ValueAt, FloatModel.Add, FloatModel.Mul, FloatModel.FromInt, FloatModel.Valid, Exact, Accepted;
    if n > 0 {
      NumerBetween(fm, run, query, dim, lo, hi, n - 1);
      hide Between;
      ExactIsValid(fm);
      WeightFinite(fm, run, query, n - 1);
      BetweenStep(fm, Denom(fm, run, query, n - 1), Numer(fm, run, query, dim, n - 1), Weight(fm, run, query, n - 1),
                  ValueAt(run, n - 1, dim), lo, hi);
    }
  }

  lemma ExactIsValid(fm: FloatModel)
    requires Exact(fm)
    ensures fm.Valid()
  {
    hide FloatModel.Valid;
  }

  /** The quotient as a real number. */
  function Average(fm: FloatModel, run: AttentionRun, query: nat, dim: nat): real
    requires Accepted(run) && query < run.sequence && dim < run.head_dim
  {
    var numer, denom := Numer(fm, run, query, dim, run.sequence), Denom(fm, run, query, run.sequence);
    if numer.Fin? && denom.Fin? && denom.r != 0.0 then numer.r / denom.r else 0.0
  }

  lemma QuotientBetween(x: real, d: real, lo: real, hi: real)
    requires d >= 1.0 && d * lo <= x <= d * hi
    ensures lo <= x / d <= hi
  {
    var q := x / d;
    assert q * d == x;
    if q < lo {
      ScaleLt(q, lo, d);
    } else if q > hi {
      ScaleLt(hi, q, d);
    }
  }

  lemma ScaleLt(a: real, b: real, d: real)
    requires a < b && d >= 1.0
    ensures d * a < d * b
  {
  }

  lemma TruncBetween(x: real, lo: int, hi: int)
    requires lo as real <= x <= hi as real
    ensures lo <= Trunc(x) <= hi
  {
  }

  /** Each output is the truncation of a weighted average of its column: it lies between the least and the
      greatest entry of the column, and neither clamp ever changes it. */
  lemma OutputIsAverage(fm: FloatModel, run: AttentionRun, query: nat, dim: nat, lo: int, hi: int)
    requires Exact(fm) && Accepted(run) && query < run.sequence && dim < run.head_dim
    requires ColumnWithin(run, dim, lo, hi) && -128 <= lo && hi <= 127
    ensures lo as real <= Average(fm, run, query, dim) <= hi as real
    ensures Output(fm, run, query, dim) == Trunc(Average(fm, run, query, dim))
    ensures lo <= Output(fm, run, query, dim) <= hi
  {
    hide Numer, Denom, FloatModel.Valid, FloatModel.FromInt, FloatModel.Sub;
    ExactIsValid(fm);
    NumerBetween(fm, run, query, dim, lo, hi, run.sequence);
    QuotientFinite(fm, run, query, dim);
    var x, d := Numer(fm, run, query, dim, run.sequence).r, Denom(fm, run, query, run.sequence).r;
    QuotientBetween(x, d, lo as real, hi as real);
    assert UnroundedAt(fm, x / d);
    TruncBetween(x / d, lo, hi);
  }

  /** Entries of V are bytes, so the clamps are redundant for every input. */
  lemma ClampsAreRedundant(fm: FloatModel, run: AttentionRun, query: nat, dim: nat)
    requires Exact(fm) && Accepted(run) && WellTyped(run) && query < run.sequence && dim < run.head_dim
    ensures -128.0 <= Average(fm, run, query, dim) <= 127.0
    ensures Output(fm, run, query, dim) == Trunc(Average(fm, run, query, dim))
  {
    hide Average, Output, Exact;
    BytesWithin(run, dim);
    OutputIsAverage(fm, run, query, dim, -128, 127);
  }

  lemma BytesWithin(run: AttentionRun, dim: nat)
    requires Accepted(run) && WellTyped(run) && dim < run.head_dim
    ensures ColumnWithin(run, dim, -128, 127)
  {
    forall key: nat | key < run.sequence ensures -128 <= ValueAt(run, key, dim) <= 127 {
      IndexInRange(key, dim, run.sequence, run.head_dim);
      assert run.v[Index(key, dim, run.head_dim)] in run.v;
    }
  }

  // ----- equal scores -----

  function ColumnSum(run: AttentionRun, dim: nat, n: nat): int
    requires Accepted(run) && dim < run.head_dim && n <= run.sequence
  {
    if n == 0 then 0 else ColumnSum(run, dim, n - 1) + ValueAt(run, n - 1, dim)
  }

  ghost predicate EqualScores(fm: FloatModel, run: AttentionRun, query: nat)
    requires Accepted(run) && query < run.sequence
  {
    forall a: nat, b: nat :: a < run.sequence && b < run.sequence ==> Score(fm, run, query, a) == Score(fm, run, query, b)
  }

  lemma {:induction false} EqualSums(fm: FloatModel, run: AttentionRun, query: nat, dim: nat, n: nat)
    requires Exact(fm) && Accepted(run) && query < run.sequence && dim < run.head_dim && n <= run.sequence
    requires EqualScores(fm, run, query)
    ensures Denom(fm, run, query, n) == Fin(n as real)
    ensures Numer(fm, run, query, dim, n) == Fin(ColumnSum(run, dim, n) as real)
  {
    hide Weight, ValueAt, FloatModel.Add, FloatModel.Mul, FloatModel.FromInt, FloatModel.Valid, Exact, Accepted, Score;
    if n > 0 {
      EqualSums(fm, run, query, dim, n - 1);
      ExactIsValid(fm);
      var best := MaxScoreAttained(fm, run, query, run.sequence);
      assert Score(fm, run, query, n - 1) == Score(fm, run, query, best);
      WeightFinite(fm, run, query, n - 1);
      var v := ValueAt(run, n - 1, dim);
      ExactInt(fm, v);
      ExactAdd(fm, Fin((n - 1) as real), Fin(1.0));
      ExactMul(fm, Fin(1.0), Fin(v as real));
      ExactAdd(fm, Fin(ColumnSum(run, dim, n - 1) as real), Fin(v as real));
    }
  }

  /** When a query scores all keys equally, its output is the plain mean of the column, truncated. */
  lemma EqualScoresGiveMean(fm: FloatModel, run: AttentionRun, query: nat, dim: nat)
    requires Exact(fm) && Accepted(run) && WellTyped(run) && query < run.sequence && dim < run.head_dim
    requires EqualScores(fm, run, query)
    ensures Output(fm, run, query, dim)
            == Trunc(ColumnSum(run, dim, run.sequence) as real / run.sequence as real)
  {
    hide Numer, Denom, Output, Exact, EqualScores, ColumnSum;
    EqualSums(fm, run, query, dim, run.sequence);
    ClampsAreRedundant(fm, run, query, dim);
  }

  // ----- exact scores -----

  /** Up to a head dimension of 1024 every dot product converts to float exactly, so comparing scores is
      comparing the integers, under any admissible rounding. */
  lemma ScoreOrder(fm: FloatModel, run: AttentionRun, query: nat, a: nat, b: nat)
    requires fm.Valid() && Accepted(run) && WellTyped(run) && run.head_dim <= 1024
    requires query < run.sequence && a < run.sequence && b < run.sequence
    ensures Score(fm, run, query, a) == Fin(Dot(run, query, a, run.head_dim) as real)
    ensures Gt(Score(fm, run, query, a), Score(fm, run, query, b))
            <==> Dot(run, query, a, run.head_dim) > Dot(run, query, b, run.head_dim)
  {
    hide Accepted;
    DotBound(run, query, a, run.head_dim);
    DotBound(run, query, b, run.head_dim);
    assert fm.ExactAt(Dot(run, query, a, run.head_dim)) && fm.ExactAt(Dot(run, query, b, run.head_dim));
  }
}
