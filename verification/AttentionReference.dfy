/** The host reference the kernel output is compared against
    (crates/vortex-backend/src/backend.rs): a loop nest over queries, dimensions and keys, and the
    functions that say what it computes. */
module AttentionReference {
  import opened Options
  import opened Arithmetic
  import opened Floats

  datatype AttentionRun = AttentionRun(
    q: seq<int>, k: seq<int>, v: seq<int>,
    sequence: nat, head_dim: nat, query_tile: nat, key_tile: nat)

  const I32_MAX: int := 0x7FFF_FFFF

  predicate IsI8(n: int) { -128 <= n <= 127 }

  predicate FitsI32(n: int) { -I32_MAX - 1 <= n <= I32_MAX }

  ghost predicate WellTyped(run: AttentionRun) {
    && (forall x :: x in run.q || x in run.k || x in run.v ==> IsI8(x))
    && run.sequence < 0x1_0000_0000 && run.head_dim < 0x1_0000_0000
    && run.query_tile < 0x1_0000_0000 && run.key_tile < 0x1_0000_0000
  }

  datatype ReferenceError = InvalidLaunch | ArithmeticOverflow

  /** What `validate_attention_input` accepts. */
  predicate Accepted(run: AttentionRun) {
    && run.sequence != 0 && run.head_dim != 0
    && |run.q| == run.sequence * run.head_dim
    && |run.k| == run.sequence * run.head_dim
    && |run.v| == run.sequence * run.head_dim
    && run.query_tile != 0 && run.key_tile != 0
  }

  function Index(row: nat, col: nat, head_dim: nat): nat { row * head_dim + col }

  lemma IndexInRange(row: nat, col: nat, rows: nat, head_dim: nat)
    requires row < rows && col < head_dim
    ensures Index(row, col, head_dim) < rows * head_dim
    ensures row * head_dim <= Index(row, col, head_dim)
  {
    assert (row + 1) * head_dim <= rows * head_dim;
  }

  lemma IndexInjective(row: nat, col: nat, row': nat, col': nat, head_dim: nat)
    requires col < head_dim && col' < head_dim
    requires Index(row, col, head_dim) == Index(row', col', head_dim)
    ensures row == row' && col == col'
  {
    if row < row' {
      MulLe(row + 1, row', head_dim);
    } else if row' < row {
      MulLe(row' + 1, row, head_dim);
    }
  }

  /** Exact dot product of the first `n` components of a query row and a key row. */
  function Dot(run: AttentionRun, query: nat, key: nat, n: nat): int
    requires Accepted(run) && query < run.sequence && key < run.sequence && n <= run.head_dim
  {
    if n == 0 then 0
    else
      IndexInRange(query, n - 1, run.sequence, run.head_dim);
      IndexInRange(key, n - 1, run.sequence, run.head_dim);
      Dot(run, query, key, n - 1)
      + run.q[Index(query, n - 1, run.head_dim)] * run.k[Index(key, n - 1, run.head_dim)]
  }

  /** No partial dot product of this query and key leaves the range of i32. */
  ghost predicate PairFits(run: AttentionRun, query: nat, key: nat)
    requires Accepted(run) && query < run.sequence && key < run.sequence
  {
    forall n :: 0 <= n <= run.head_dim ==> FitsI32(Dot(run, query, key, n))
  }

  /** No partial dot product leaves the range of i32. */
  ghost predicate DotsFit(run: AttentionRun)
    requires Accepted(run)
  {
    forall query, key :: 0 <= query < run.sequence && 0 <= key < run.sequence ==> PairFits(run, query, key)
  }

  function Score(fm: FloatModel, run: AttentionRun, query: nat, key: nat): F32
    requires Accepted(run) && query < run.sequence && key < run.sequence
  {
    fm.FromInt(Dot(run, query, key, run.head_dim))
  }

  /** Largest score among the first `n` keys; -infinity for none. */
  function MaxScore(fm: FloatModel, run: AttentionRun, query: nat, n: nat): F32
    requires Accepted(run) && query < run.sequence && n <= run.sequence
  {
    if n == 0 then NegInf else Max(MaxScore(fm, run, query, n - 1), Score(fm, run, query, n - 1))
  }

  function Weight(fm: FloatModel, run: AttentionRun, query: nat, key: nat): F32
    requires Accepted(run) && query < run.sequence && key < run.sequence
  {
    fm.Exp(fm.Sub(Score(fm, run, query, key), MaxScore(fm, run, query, run.sequence)))
  }

  function Denom(fm: FloatModel, run: AttentionRun, query: nat, n: nat): F32
    requires Accepted(run) && query < run.sequence && n <= run.sequence
  {
    if n == 0 then Fin(0.0) else fm.Add(Denom(fm, run, query, n - 1), Weight(fm, run, query, n - 1))
  }

  function ValueAt(run: AttentionRun, key: nat, dim: nat): int
    requires Accepted(run) && key < run.sequence && dim < run.head_dim
  {
    IndexInRange(key, dim, run.sequence, run.head_dim);
    run.v[Index(key, dim, run.head_dim)]
  }

  function Numer(fm: FloatModel, run: AttentionRun, query: nat, dim: nat, n: nat): F32
    requires Accepted(run) && query < run.sequence && dim < run.head_dim && n <= run.sequence
  {
    if n == 0 then Fin(0.0)
    else fm.Add(Numer(fm, run, query, dim, n - 1),
                fm.Mul(Weight(fm, run, query, n - 1), fm.FromInt(ValueAt(run, n - 1, dim))))
  }

  /** `f32::clamp` then truncation then the saturating casts; NaN becomes 0. */
  function TruncClamped(x: F32): int {
    match x
    case Fin(r) => if r < -128.0 then -128 else if r > 127.0 then 127 else Trunc(r)
    case PosInf => 127
    case NegInf => -128
    case NaN => 0
  }

  function Output(fm: FloatModel, run: AttentionRun, query: nat, dim: nat): int
    requires Accepted(run) && query < run.sequence && dim < run.head_dim
  {
    TruncClamped(fm.Div(Numer(fm, run, query, dim, run.sequence), Denom(fm, run, query, run.sequence)))
  }

  ghost predicate Holds(fm: FloatModel, run: AttentionRun, out: seq<int>, query: nat, dim: nat)
    requires Accepted(run) && query < run.sequence && dim < run.head_dim
  {
    Index(query, dim, run.head_dim) < |out| && out[Index(query, dim, run.head_dim)] == Output(fm, run, query, dim)
  }

  /** The whole reference output, element `query * head_dim + dim` by element. */
  ghost predicate IsOutput(fm: FloatModel, run: AttentionRun, out: seq<int>)
    requires Accepted(run)
  {
    && |out| == run.sequence * run.head_dim
    && forall query: nat, dim: nat ::
         query < run.sequence && dim < run.head_dim ==> Holds(fm, run, out, query, dim)
  }

  lemma OutputUnique(fm: FloatModel, run: AttentionRun, a: seq<int>, b: seq<int>)
    requires Accepted(run) && IsOutput(fm, run, a) && IsOutput(fm, run, b)
    ensures a == b
  {
    forall i | 0 <= i < |a| ensures a[i] == b[i] {
      var query, dim := RowCol(i, run.sequence, run.head_dim);
      assert Holds(fm, run, a, query, dim) && Holds(fm, run, b, query, dim);
    }
  }

  /** There always is an output: the reference is defined on every accepted input. */
  lemma OutputExists(fm: FloatModel, run: AttentionRun) returns (out: seq<int>)
    requires Accepted(run)
    ensures IsOutput(fm, run, out)
  {
    hide Output, Index;
    out := [];
    while |out| < run.sequence * run.head_dim
      invariant |out| <= run.sequence * run.head_dim
      invariant forall query: nat, dim: nat :: query < run.sequence && dim < run.head_dim ==> HoldsWithin(fm, run, out, query, dim)
    {
      var row, col := RowCol(|out|, run.sequence, run.head_dim);
      ghost var before := out;
      out := out + [Output(fm, run, row, col)];
      forall query: nat, dim: nat | query < run.sequence && dim < run.head_dim ensures HoldsWithin(fm, run, out, query, dim) {
        assert HoldsWithin(fm, run, before, query, dim);
        if Index(query, dim, run.head_dim) == |before| {
          IndexInjective(query, dim, row, col, run.head_dim);
        }
      }
    }
    forall query: nat, dim: nat | query < run.sequence && dim < run.head_dim ensures Holds(fm, run, out, query, dim) {
      IndexInRange(query, dim, run.sequence, run.head_dim);
      assert HoldsWithin(fm, run, out, query, dim);
    }
  }

  /** As far as a prefix of the output reaches, it holds the reference. */
  ghost predicate HoldsWithin(fm: FloatModel, run: AttentionRun, out: seq<int>, query: nat, dim: nat)
    requires Accepted(run) && query < run.sequence && dim < run.head_dim
  {
    Index(query, dim, run.head_dim) < |out| ==> out[Index(query, dim, run.head_dim)] == Output(fm, run, query, dim)
  }

  lemma RowCol(i: nat, rows: nat, head_dim: nat) returns (row: nat, col: nat)
    requires i < rows * head_dim
    ensures row < rows && col < head_dim && i == Index(row, col, head_dim)
  {
    row, col := i / head_dim, i % head_dim;
    if row >= rows {
      MulLe(rows, row, head_dim);
    }
  }

  // ----- the loop nest -----

  /** Overflow-checked accumulation: the partial sums are the exact dot products. */
  method QkDot(run: AttentionRun, query: nat, key: nat) returns (r: Result<int, ReferenceError>)
    requires Accepted(run) && WellTyped(run) && query < run.sequence && key < run.sequence
    ensures r.Ok? <==> PairFits(run, query, key)
    ensures r.Ok? ==> r.value == Dot(run, query, key, run.head_dim)
    ensures r.Err? ==> r.error == ArithmeticOverflow
  {
    var dot := 0;
    for depth := 0 to run.head_dim
      invariant dot == Dot(run, query, key, depth)
      invariant forall n :: 0 <= n <= depth ==> FitsI32(Dot(run, query, key, n))
    {
      IndexInRange(query, depth, run.sequence, run.head_dim);
      IndexInRange(key, depth, run.sequence, run.head_dim);
      var sum := dot + run.q[Index(query, depth, run.head_dim)] * run.k[Index(key, depth, run.head_dim)];
      assert sum == Dot(run, query, key, depth + 1);
      if !FitsI32(sum) {
        return Err(ArithmeticOverflow);
      }
      dot := sum;
    }
    return Ok(dot);
  }

  /** Two's-complement 32-bit value of an integer. */
  function WrapI32(n: int): (r: int)
    ensures FitsI32(r) && (FitsI32(n) <==> r == n) && (r - n) % 0x1_0000_0000 == 0
  {
    var m := n % 0x1_0000_0000;
    if m <= I32_MAX then m else m - 0x1_0000_0000
  }

  lemma WrapAdd(a: int, b: int)
    ensures WrapI32(WrapI32(a) + b) == WrapI32(a + b)
  {
  }

  /** Accumulation in a build without overflow checks: right exactly when the whole dot product fits, even if a
      partial sum does not. */
  method QkDotWrapping(run: AttentionRun, query: nat, key: nat) returns (dot: int)
    requires Accepted(run) && WellTyped(run) && query < run.sequence && key < run.sequence
    ensures FitsI32(dot) && (dot - Dot(run, query, key, run.head_dim)) % 0x1_0000_0000 == 0
    ensures dot == Dot(run, query, key, run.head_dim) <==> FitsI32(Dot(run, query, key, run.head_dim))
  {
    hide WrapI32, WellTyped;
    dot := 0;
    for depth := 0 to run.head_dim
      invariant dot == WrapI32(Dot(run, query, key, depth))
    {
      IndexInRange(query, depth, run.sequence, run.head_dim);
      IndexInRange(key, depth, run.sequence, run.head_dim);
      var product := run.q[Index(query, depth, run.head_dim)] * run.k[Index(key, depth, run.head_dim)];
      WrapAdd(Dot(run, query, key, depth), product);
      assert Dot(run, query, key, depth + 1) == Dot(run, query, key, depth) + product;
      dot := WrapI32(dot + product);
    }
  }

  /** First pass over the keys: the row maximum. */
  method RowMax(fm: FloatModel, run: AttentionRun, query: nat) returns (r: Result<F32, ReferenceError>)
    requires Accepted(run) && WellTyped(run) && query < run.sequence
    ensures r.Ok? <==> forall key :: 0 <= key < run.sequence ==> PairFits(run, query, key)
    ensures r.Ok? ==> r.value == MaxScore(fm, run, query, run.sequence)
    ensures r.Err? ==> r.error == ArithmeticOverflow
  {
    var max_score := NegInf;
    for key := 0 to run.sequence
      invariant max_score == MaxScore(fm, run, query, key)
      invariant forall j :: 0 <= j < key ==> PairFits(run, query, j)
    {
      var dot := QkDot(run, query, key);
      if dot.Err? {
        return Err(dot.error);
      }
      max_score := Max(max_score, fm.FromInt(dot.value));
    }
    return Ok(max_score);
  }

  /** Second pass over the keys: denominator and numerator. */
  method RowSums(fm: FloatModel, run: AttentionRun, query: nat, dim: nat, max_score: F32) returns (denom: F32, numer: F32)
    requires Accepted(run) && WellTyped(run) && query < run.sequence && dim < run.head_dim
    requires forall key :: 0 <= key < run.sequence ==> PairFits(run, query, key)
    requires max_score == MaxScore(fm, run, query, run.sequence)
    ensures denom == Denom(fm, run, query, run.sequence)
    ensures numer == Numer(fm, run, query, dim, run.sequence)
  {
    hide Index, Dot, MaxScore, FloatModel.Add, FloatModel.Sub, FloatModel.Mul, FloatModel.Exp;
    denom, numer := Fin(0.0), Fin(0.0);
    for key := 0 to run.sequence
      invariant denom == Denom(fm, run, query, key)
      invariant numer == Numer(fm, run, query, dim, key)
    {
      var dot := QkDot(run, query, key);
      var weight := fm.Exp(fm.Sub(fm.FromInt(dot.value), max_score));
      assert weight == Weight(fm, run, query, key);
      denom := fm.Add(denom, weight);
      numer := fm.Add(numer, fm.Mul(weight, fm.FromInt(ValueAt(run, key, dim))));
    }
  }

  /** Every element before (query, dim) in row-major order holds its output. */
  ghost predicate Filled(fm: FloatModel, run: AttentionRun, out: seq<int>, query: nat, dim: nat)
    requires Accepted(run)
  {
    && |out| == run.sequence * run.head_dim
    && forall i: nat, j: nat ::
         i < run.sequence && j < run.head_dim && (i < query || (i == query && j < dim))
         ==> Holds(fm, run, out, i, j)
  }

  lemma FilledNext(fm: FloatModel, run: AttentionRun, out: seq<int>, query: nat, dim: nat)
    requires Accepted(run) && query < run.sequence && dim < run.head_dim && Filled(fm, run, out, query, dim)
    ensures Index(query, dim, run.head_dim) < |out|
    ensures Filled(fm, run, out[Index(query, dim, run.head_dim) := Output(fm, run, query, dim)], query, dim + 1)
  {
    IndexInRange(query, dim, run.sequence, run.head_dim);
    var next := out[Index(query, dim, run.head_dim) := Output(fm, run, query, dim)];
    forall i: nat, j: nat | i < run.sequence && j < run.head_dim && (i < query || (i == query && j < dim + 1))
      ensures Holds(fm, run, next, i, j)
    {
      hide Index, Output;
      IndexInRange(i, j, run.sequence, run.head_dim);
      if Index(i, j, run.head_dim) == Index(query, dim, run.head_dim) {
        IndexInjective(i, j, query, dim, run.head_dim);
      } else {
        assert Holds(fm, run, out, i, j);
      }
    }
  }

  lemma FilledRow(fm: FloatModel, run: AttentionRun, out: seq<int>, query: nat)
    requires Accepted(run) && query < run.sequence && Filled(fm, run, out, query, run.head_dim)
    ensures Filled(fm, run, out, query + 1, 0)
  {
    hide Holds;
  }

  /** Succeeds exactly on accepted inputs whose dot products stay within i32, with the reference output. */
  method ReferenceAttentionPrefillI8(fm: FloatModel, run: AttentionRun)
    returns (r: Result<seq<int>, ReferenceError>)
    requires WellTyped(run)
    ensures r == Err(InvalidLaunch) <==> !Accepted(run)
    ensures r.Ok? <==> Accepted(run) && DotsFit(run)
    ensures r.Ok? ==> IsOutput(fm, run, r.value)
  {
    if !Accepted(run) {
      return Err(InvalidLaunch);
    }
    var output := new int[run.sequence * run.head_dim](_ => 0);
    for query := 0 to run.sequence
      invariant forall j, key :: 0 <= j < query && 0 <= key < run.sequence ==> PairFits(run, j, key)
      invariant Filled(fm, run, output[..], query, 0)
    {
      for dim := 0 to run.head_dim
        invariant dim > 0 ==> forall key :: 0 <= key < run.sequence ==> PairFits(run, query, key)
        invariant Filled(fm, run, output[..], query, dim)
      {
        var max_score := RowMax(fm, run, query);
        if max_score.Err? {
          return Err(max_score.error);
        }
        var denom, numer := RowSums(fm, run, query, dim, max_score.value);
        IndexInRange(query, dim, run.sequence, run.head_dim);
        FilledNext(fm, run, output[..], query, dim);
        output[Index(query, dim, run.head_dim)] := TruncClamped(fm.Div(numer, denom));
      }
      FilledRow(fm, run, output[..], query);
    }
    return Ok(output[..]);
  }

  // ----- bounds -----

  lemma {:induction false} DotBound(run: AttentionRun, query: nat, key: nat, n: nat)
    requires Accepted(run) && WellTyped(run) && query < run.sequence && key < run.sequence && n <= run.head_dim
    ensures -16384 * n <= Dot(run, query, key, n) <= 16384 * n
  {
    if n > 0 {
      DotBound(run, query, key, n - 1);
      IndexInRange(query, n - 1, run.sequence, run.head_dim);
      IndexInRange(key, n - 1, run.sequence, run.head_dim);
      I8Product(run.q[Index(query, n - 1, run.head_dim)], run.k[Index(key, n - 1, run.head_dim)]);
    }
  }

  lemma SmallProduct(a: nat, b: nat)
    requires a <= 128 && b <= 128
    ensures a * b <= 16384
  {
    MulLe(a, 128, b);
  }

  lemma I8Product(x: int, y: int)
    requires IsI8(x) && IsI8(y)
    ensures -16384 <= x * y <= 16384
  {
    var a, b: nat := if x < 0 then -x else x, if y < 0 then -y else y;
    SmallProduct(a, b);
    assert x * y == a * b || x * y == -(a * b);
  }

  /** Up to a head dimension of 131071 the reference never overflows. */
  lemma SmallHeadDimFits(run: AttentionRun)
    requires Accepted(run) && WellTyped(run) && run.head_dim <= 131071
    ensures DotsFit(run)
  {
    forall query, key, n | 0 <= query < run.sequence && 0 <= key < run.sequence && 0 <= n <= run.head_dim
      ensures FitsI32(Dot(run, query, key, n))
    {
      DotBound(run, query, key, n);
    }
    assert forall query, key :: 0 <= query < run.sequence && 0 <= key < run.sequence ==> PairFits(run, query, key);
  }

  function Repeat(x: int, n: nat): (s: seq<int>)
    ensures |s| == n && forall i :: 0 <= i < n ==> s[i] == x
  {
    seq(n, _ => x)
  }

  /** The bound is sharp: from head dimension 131072 on, entries of -128 overflow the dot product. */
  lemma HeadDimBoundIsSharp(head_dim: nat) returns (run: AttentionRun)
    requires 131072 <= head_dim < 0x1_0000_0000
    ensures Accepted(run) && WellTyped(run) && run.head_dim == head_dim && !DotsFit(run)
  {
    var row := Repeat(-128, head_dim);
    run := AttentionRun(row, row, row, 1, head_dim, 4, 1);
    ConstantDot(run, head_dim);
    assert !FitsI32(Dot(run, 0, 0, head_dim));
    assert !PairFits(run, 0, 0);
  }

  lemma {:induction false} ConstantDot(run: AttentionRun, n: nat)
    requires Accepted(run) && run.sequence == 1 && n <= run.head_dim
    requires forall i :: 0 <= i < run.head_dim ==> run.q[i] == -128 && run.k[i] == -128
    ensures Dot(run, 0, 0, n) == 16384 * n
  {
    if n > 0 {
      ConstantDot(run, n - 1);
    }
  }

  // ----- the quotient is well defined under every rounding -----

  lemma {:induction false} MaxScoreAttained(fm: FloatModel, run: AttentionRun, query: nat, n: nat) returns (best: nat)
    requires Accepted(run) && query < run.sequence && 0 < n <= run.sequence
    ensures best < n && MaxScore(fm, run, query, n) == Score(fm, run, query, best)
    ensures forall key: nat :: key < n ==> MaxScore(fm, run, query, n).Fin?
                                           && Score(fm, run, query, key).r <= MaxScore(fm, run, query, n).r
  {
    best := 0;
    if n > 1 {
      best := MaxScoreAttained(fm, run, query, n - 1);
      if Gt(Score(fm, run, query, n - 1), MaxScore(fm, run, query, n - 1)) {
        best := n - 1;
      }
    }
  }

  /** Weights are finite and non-negative, and the best key weighs 1. */
  lemma WeightFinite(fm: FloatModel, run: AttentionRun, query: nat, key: nat)
    requires fm.Valid() && Accepted(run) && query < run.sequence && key < run.sequence
    ensures Weight(fm, run, query, key).Fin? && Weight(fm, run, query, key).r >= 0.0
    ensures MaxScore(fm, run, query, run.sequence) == Score(fm, run, query, key)
            ==> Weight(fm, run, query, key) == Fin(1.0)
  {
    var best := MaxScoreAttained(fm, run, query, run.sequence);
    var shifted := fm.Sub(Score(fm, run, query, key), MaxScore(fm, run, query, run.sequence));
    assert fm.ExactAt(0) && fm.ExactAt(1) && fm.ExpNonNegativeAt(shifted.r);
    assert fm.MonotoneAt(0.0, fm.expReal(shifted.r));
  }

  lemma AddKeepsBound(fm: FloatModel, acc: F32, w: F32, bound: int)
    requires fm.Valid() && acc.Fin? && w.Fin? && 0 <= bound <= 1
    requires acc.r + w.r >= bound as real
    ensures fm.Add(acc, w).Fin? && fm.Add(acc, w).r >= bound as real
  {
    assert fm.ExactAt(bound) && fm.MonotoneAt(bound as real, acc.r + w.r);
  }

  /** The denominator is finite, and at least 1 once the best key has been added. */
  lemma {:induction false} DenomAtLeastOne(fm: FloatModel, run: AttentionRun, query: nat, best: nat, n: nat)
    requires fm.Valid() && Accepted(run) && query < run.sequence && n <= run.sequence && best < run.sequence
    requires MaxScore(fm, run, query, run.sequence) == Score(fm, run, query, best)
    ensures Denom(fm, run, query, n).Fin? && Denom(fm, run, query, n).r >= 0.0
    ensures best < n ==> Denom(fm, run, query, n).r >= 1.0
  {
    if n > 0 {
      DenomAtLeastOne(fm, run, query, best, n - 1);
      WeightFinite(fm, run, query, n - 1);
      AddKeepsBound(fm, Denom(fm, run, query, n - 1), Weight(fm, run, query, n - 1), if best < n then 1 else 0);
    }
  }

  lemma {:induction false} NumerFinite(fm: FloatModel, run: AttentionRun, query: nat, dim: nat, n: nat)
    requires fm.Valid() && Accepted(run) && query < run.sequence && dim < run.head_dim && n <= run.sequence
    ensures Numer(fm, run, query, dim, n).Fin?
  {
    if n > 0 {
      NumerFinite(fm, run, query, dim, n - 1);
      WeightFinite(fm, run, query, n - 1);
    }
  }

  /** The quotient is finite, so neither the NaN case nor an infinity ever reaches the conversion. */
  lemma QuotientFinite(fm: FloatModel, run: AttentionRun, query: nat, dim: nat)
    requires fm.Valid() && Accepted(run) && query < run.sequence && dim < run.head_dim
    ensures fm.Div(Numer(fm, run, query, dim, run.sequence), Denom(fm, run, query, run.sequence)).Fin?
    ensures Denom(fm, run, query, run.sequence).Fin? && Denom(fm, run, query, run.sequence).r >= 1.0
  {
    var best := MaxScoreAttained(fm, run, query, run.sequence);
    DenomAtLeastOne(fm, run, query, best, run.sequence);
    NumerFinite(fm, run, query, dim, run.sequence);
  }
}
