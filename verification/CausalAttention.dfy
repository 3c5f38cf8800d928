/** Causal grouped-query attention (crates/kernels/src/lib.rs): nested loops over a reused score row. */
module CausalAttention {
  import opened Arithmetic
  import opened Floats
  import opened Offsets
  import opened Softmax

  datatype Shape = Shape(tokens: nat, query_heads: nat, key_value_heads: nat, head_dim: nat) {
    function QueryWidth(): nat { query_heads * head_dim }
    function KeyValueWidth(): nat { key_value_heads * head_dim }
  }

  function QueryOffset(s: Shape, token: nat, head: nat, dim: nat): nat {
    (token * s.query_heads + head) * s.head_dim + dim
  }

  function KeyValueOffset(s: Shape, token: nat, head: nat, dim: nat): nat {
    (token * s.key_value_heads + head) * s.head_dim + dim
  }

  /** What the function asserts of its arguments. */
  predicate Accepts(s: Shape, query: seq<F32>, key: seq<F32>, value: seq<F32>) {
    && s.key_value_heads > 0 && s.query_heads >= s.key_value_heads && s.query_heads % s.key_value_heads == 0
    && |query| == s.tokens * s.QueryWidth()
    && |key| == s.tokens * s.KeyValueWidth() && |value| == s.tokens * s.KeyValueWidth()
  }

  // ----- what one output element is -----

  function KeyValueHead(s: Shape, head: nat): nat
    requires s.query_heads > 0
  {
    head * s.key_value_heads / s.query_heads
  }

  function Scale(fm: FloatModel, s: Shape): F32 { fm.Div(Fin(1.0), fm.Sqrt(fm.FromInt(s.head_dim))) }

  /** Query row against key row, the first `n` products added left to right. */
  function Dot(fm: FloatModel, s: Shape, query: seq<F32>, key: seq<F32>, token: nat, head: nat, kv: nat, kt: nat, n: nat): F32 {
    if n == 0 then Fin(0.0)
    else
      fm.Add(Dot(fm, s, query, key, token, head, kv, kt, n - 1),
             fm.Mul(At(query, QueryOffset(s, token, head, n - 1)), At(key, KeyValueOffset(s, kt, kv, n - 1))))
  }

  /** Scores against the first `n` keys. */
  function Scores(fm: FloatModel, s: Shape, query: seq<F32>, key: seq<F32>, token: nat, head: nat, n: nat): (r: seq<F32>)
    requires s.query_heads > 0
    ensures |r| == n
    ensures forall kt :: 0 <= kt < n ==>
              r[kt] == fm.Mul(Dot(fm, s, query, key, token, head, KeyValueHead(s, head), kt, s.head_dim), Scale(fm, s))
  {
    seq(n, kt requires 0 <= kt < n =>
      fm.Mul(Dot(fm, s, query, key, token, head, KeyValueHead(s, head), kt, s.head_dim), Scale(fm, s)))
  }

  function Weighted(fm: FloatModel, s: Shape, weights: seq<F32>, value: seq<F32>, kv: nat, dim: nat, n: nat): F32 {
    if n == 0 then Fin(0.0)
    else
      fm.Add(Weighted(fm, s, weights, value, kv, dim, n - 1),
             fm.Mul(At(weights, n - 1), At(value, KeyValueOffset(s, n - 1, kv, dim))))
  }

  /** Attention of one query head over the keys up to its own token. */
  function Output(fm: FloatModel, s: Shape, query: seq<F32>, key: seq<F32>, value: seq<F32>, token: nat, head: nat, dim: nat): F32
    requires s.query_heads > 0
  {
    Weighted(fm, s, SoftmaxOf(fm, Scores(fm, s, query, key, token, head, token + 1)), value, KeyValueHead(s, head), dim, token + 1)
  }

  /** The output row of a head. */
  function HeadRow(fm: FloatModel, s: Shape, query: seq<F32>, key: seq<F32>, value: seq<F32>, token: nat, head: nat): (r: seq<F32>)
    requires s.query_heads > 0
    ensures |r| == s.head_dim
    ensures forall dim :: 0 <= dim < s.head_dim ==> r[dim] == Output(fm, s, query, key, value, token, head, dim)
  {
    seq(s.head_dim, dim requires 0 <= dim < s.head_dim => Output(fm, s, query, key, value, token, head, dim))
  }

  ghost predicate HeadDone(fm: FloatModel, s: Shape, query: seq<F32>, key: seq<F32>, value: seq<F32>, out: seq<F32>, token: nat, head: nat)
    requires s.query_heads > 0
  {
    RowOf(out, token * s.query_heads + head, s.head_dim) == HeadRow(fm, s, query, key, value, token, head)
  }

  // ----- offsets -----

  lemma FlatLength(tokens: nat, heads: nat, dim: nat)
    ensures tokens * (heads * dim) == tokens * heads * dim
  {
  }

  lemma QueryInRange(s: Shape, token: nat, head: nat, dim: nat)
    requires token < s.tokens && head < s.query_heads && dim < s.head_dim
    ensures QueryOffset(s, token, head, dim) < s.tokens * s.QueryWidth()
    ensures var i := QueryOffset(s, token, head, dim);
            i / s.head_dim / s.query_heads == token && i / s.head_dim % s.query_heads == head && i % s.head_dim == dim
  {
    InRange(token, s.tokens, head, s.query_heads);
    InRange(token * s.query_heads + head, s.tokens * s.query_heads, dim, s.head_dim);
    FlatLength(s.tokens, s.query_heads, s.head_dim);
    Decode(token * s.query_heads + head, dim, s.head_dim);
    Decode(token, head, s.query_heads);
  }

  lemma KeyValueInRange(s: Shape, token: nat, kv: nat, dim: nat)
    requires token < s.tokens && kv < s.key_value_heads && dim < s.head_dim
    ensures KeyValueOffset(s, token, kv, dim) < s.tokens * s.KeyValueWidth()
  {
    InRange(token, s.tokens, kv, s.key_value_heads);
    InRange(token * s.key_value_heads + kv, s.tokens * s.key_value_heads, dim, s.head_dim);
    FlatLength(s.tokens, s.key_value_heads, s.head_dim);
  }

  /** Head `h` reads key/value head floor(h / group), which exists. */
  lemma GroupOf(s: Shape, head: nat)
    requires s.key_value_heads > 0 && s.query_heads >= s.key_value_heads && s.query_heads % s.key_value_heads == 0
    requires head < s.query_heads
    ensures s.query_heads / s.key_value_heads > 0
    ensures KeyValueHead(s, head) == head / (s.query_heads / s.key_value_heads) < s.key_value_heads
  {
    var kv := s.key_value_heads;
    var group := s.query_heads / kv;
    assert s.query_heads == group * kv;
    if group == 0 {
      assert false;
    }
    RowBound(head, kv, group);
    var h, r := head / group, head % group;
    assert head == h * group + r;
    SharedHead(h, r, group, kv, s.query_heads);
  }

  lemma SharedHead(h: nat, r: nat, group: nat, kv: nat, heads: nat)
    requires r < group && kv > 0 && heads == group * kv && heads > 0
    ensures (h * group + r) * kv / heads == h
  {
    Regroup(h, r, group, kv);
    MulLe(r + 1, group, kv);
    var x := r * kv;
    assert (r + 1) * kv == x + kv;
    Decode(h, x, heads);
  }

  lemma Regroup(h: nat, r: nat, group: nat, kv: nat)
    ensures (h * group + r) * kv == h * (group * kv) + r * kv
  {
  }

  // ----- the loops -----

  method DotProduct(fm: FloatModel, s: Shape, query: seq<F32>, key: seq<F32>, token: nat, head: nat, kv: nat, kt: nat) returns (dot: F32)
    requires |query| == s.tokens * s.QueryWidth() && |key| == s.tokens * s.KeyValueWidth()
    requires token < s.tokens && head < s.query_heads && kv < s.key_value_heads && kt < s.tokens
    ensures dot == Dot(fm, s, query, key, token, head, kv, kt, s.head_dim)
  {
    hide FloatModel.Add, FloatModel.Mul, Shape.QueryWidth, Shape.KeyValueWidth, QueryOffset, KeyValueOffset;
    dot := Fin(0.0);
    for dim := 0 to s.head_dim
      invariant dot == Dot(fm, s, query, key, token, head, kv, kt, dim)
    {
      QueryInRange(s, token, head, dim);
      KeyValueInRange(s, kt, kv, dim);
      dot := fm.Add(dot, fm.Mul(query[QueryOffset(s, token, head, dim)], key[KeyValueOffset(s, kt, kv, dim)]));
    }
  }

  method WeightedSum(fm: FloatModel, s: Shape, weights: array<F32>, value: seq<F32>, token: nat, kv: nat, dim: nat) returns (acc: F32)
    requires |value| == s.tokens * s.KeyValueWidth() && token < s.tokens <= weights.Length
    requires kv < s.key_value_heads && dim < s.head_dim
    ensures acc == Weighted(fm, s, weights[..token + 1], value, kv, dim, token + 1)
  {
    hide FloatModel.Add, FloatModel.Mul, Shape.KeyValueWidth, KeyValueOffset;
    acc := Fin(0.0);
    for kt := 0 to token + 1
      invariant acc == Weighted(fm, s, weights[..token + 1], value, kv, dim, kt)
    {
      KeyValueInRange(s, kt, kv, dim);
      acc := fm.Add(acc, fm.Mul(weights[kt], value[KeyValueOffset(s, kt, kv, dim)]));
    }
  }

  /** Where the output row of a head begins. */
  function HeadStart(s: Shape, token: nat, head: nat): nat { (token * s.query_heads + head) * s.head_dim }

  lemma HeadFits(s: Shape, token: nat, head: nat)
    requires token < s.tokens && head < s.query_heads
    ensures HeadStart(s, token, head) + s.head_dim <= s.tokens * s.QueryWidth()
  {
    InRange(token, s.tokens, head, s.query_heads);
    RowFits(token * s.query_heads + head, s.tokens * s.query_heads, s.head_dim);
    FlatLength(s.tokens, s.query_heads, s.head_dim);
  }

  /** One query head: scores into the scratch row, softmax over its live part, then every dimension. */
  method AttendHead(fm: FloatModel, s: Shape, query: seq<F32>, key: seq<F32>, value: seq<F32>, scratch: array<F32>, out: array<F32>,
                    token: nat, head: nat)
    requires Accepts(s, query, key, value) && scratch != out
    requires out.Length == |query| && scratch.Length >= s.tokens && token < s.tokens && head < s.query_heads
    modifies scratch, out
    ensures HeadStart(s, token, head) + s.head_dim <= out.Length
    ensures forall i :: 0 <= i < out.Length ==>
              out[i] == if HeadStart(s, token, head) <= i < HeadStart(s, token, head) + s.head_dim
                        then Output(fm, s, query, key, value, token, head, i - HeadStart(s, token, head))
                        else old(out[i])
  {
    hide FloatModel.Mul, FloatModel.Div, FloatModel.Sqrt, FloatModel.FromInt, SoftmaxOf, Weighted, Dot, KeyValueHead, Overwritten,
         Shape.QueryWidth, Shape.KeyValueWidth, HeadStart;
    HeadFits(s, token, head);
    var scale := fm.Div(Fin(1.0), fm.Sqrt(fm.FromInt(s.head_dim)));
    GroupOf(s, head);
    var kv := head * s.key_value_heads / s.query_heads;
    assert kv == KeyValueHead(s, head) by { HeadIs(s, head); }
    ghost var row := Scores(fm, s, query, key, token, head, token + 1);
    for kt := 0 to token + 1
      invariant forall i :: 0 <= i < kt ==> scratch[i] == row[i]
      invariant out[..] == old(out[..])
    {
      var dot := DotProduct(fm, s, query, key, token, head, kv, kt);
      scratch[kt] := fm.Mul(dot, scale);
    }
    assert scratch[0..token + 1] == row;
    ghost var before := scratch[..];
    SoftmaxInPlace(fm, scratch, 0, token + 1);
    OverwrittenSlice(before, scratch[..], 0, SoftmaxOf(fm, row));
    ghost var weights := SoftmaxOf(fm, row);
    assert scratch[..token + 1] == weights;
    var start := HeadStart(s, token, head);
    for dim := 0 to s.head_dim
      invariant scratch[..token + 1] == weights
      invariant forall i :: 0 <= i < out.Length ==>
                  out[i] == if start <= i < start + dim then Weighted(fm, s, weights, value, kv, i - start, token + 1) else old(out[i])
    {
      var acc := WeightedSum(fm, s, scratch, value, token, kv, dim);
      out[start + dim] := acc;
    }
  }

  lemma HeadIs(s: Shape, head: nat)
    requires s.query_heads > 0
    ensures KeyValueHead(s, head) == head * s.key_value_heads / s.query_heads
  {
  }

  /** Writing a later head keeps an earlier one. */
  lemma EarlierHead(fm: FloatModel, s: Shape, query: seq<F32>, key: seq<F32>, value: seq<F32>, a: seq<F32>, b: seq<F32>,
                    t: nat, h: nat, token: nat, head: nat)
    requires h < s.query_heads && head < s.query_heads && (t < token || (t == token && h < head))
    requires var start := HeadStart(s, token, head);
             start <= |a| == |b| && forall i :: 0 <= i < start ==> a[i] == b[i]
    requires HeadDone(fm, s, query, key, value, a, t, h)
    ensures HeadDone(fm, s, query, key, value, b, t, h)
  {
    hide RowOf, HeadRow;
    var row, later := t * s.query_heads + h, token * s.query_heads + head;
    HeadsOrdered(s, t, h, token, head);
    SamePrefix(a, b, later * s.head_dim);
    EarlierRow(a, b, row, later, s.head_dim);
  }

  lemma HeadsOrdered(s: Shape, t: nat, h: nat, token: nat, head: nat)
    requires h < s.query_heads && head < s.query_heads && (t < token || (t == token && h < head))
    ensures t * s.query_heads + h < token * s.query_heads + head
  {
    if t < token {
      MulLe(t + 1, token, s.query_heads);
    }
  }

  lemma SamePrefix<T>(a: seq<T>, b: seq<T>, n: nat)
    requires n <= |a| == |b| && forall i :: 0 <= i < n ==> a[i] == b[i]
    ensures a[..n] == b[..n]
  {
  }

  lemma HeadWritten(fm: FloatModel, s: Shape, query: seq<F32>, key: seq<F32>, value: seq<F32>, out: seq<F32>, token: nat, head: nat)
    requires s.query_heads > 0
    requires var start := HeadStart(s, token, head);
             start + s.head_dim <= |out|
             && forall i :: start <= i < start + s.head_dim ==> out[i] == Output(fm, s, query, key, value, token, head, i - start)
    ensures HeadDone(fm, s, query, key, value, out, token, head)
  {
    hide Output, HeadRow;
    var row := token * s.query_heads + head;
    SliceIs(out, row * s.head_dim, HeadRow(fm, s, query, key, value, token, head));
  }

  lemma SliceIs<T>(out: seq<T>, start: nat, part: seq<T>)
    requires start + |part| <= |out| && forall i :: start <= i < start + |part| ==> out[i] == part[i - start]
    ensures out[start..start + |part|] == part
  {
  }

  /** Every element of the output is written, with the attention of its own head, whatever the score
      row and the output held before. */
  method CausalSelfAttention(fm: FloatModel, s: Shape, query: seq<F32>, key: seq<F32>, value: seq<F32>,
                             scratch: array<F32>, out: array<F32>)
    requires Accepts(s, query, key, value) && scratch != out && out.Length == |query| && scratch.Length >= s.tokens
    modifies scratch, out
    ensures forall t, h :: 0 <= t < s.tokens && 0 <= h < s.query_heads ==> HeadDone(fm, s, query, key, value, out[..], t, h)
  {
    hide HeadDone, Output, HeadStart;
    for token := 0 to s.tokens
      invariant forall t, h :: 0 <= t < token && 0 <= h < s.query_heads ==> HeadDone(fm, s, query, key, value, out[..], t, h)
    {
      for head := 0 to s.query_heads
        invariant forall t, h :: 0 <= t < token && 0 <= h < s.query_heads ==> HeadDone(fm, s, query, key, value, out[..], t, h)
        invariant forall h :: 0 <= h < head ==> HeadDone(fm, s, query, key, value, out[..], token, h)
      {
        ghost var before := out[..];
        AttendHead(fm, s, query, key, value, scratch, out, token, head);
        HeadWritten(fm, s, query, key, value, out[..], token, head);
        forall t, h | 0 <= t <= token && 0 <= h < s.query_heads && (t < token || h < head)
          ensures HeadDone(fm, s, query, key, value, out[..], t, h)
        {
          EarlierHead(fm, s, query, key, value, before, out[..], t, h, token, head);
        }
      }
    }
  }

  /** Reading the result: element (token, head, dim) is that head's attention. */
  lemma ElementOf(fm: FloatModel, s: Shape, query: seq<F32>, key: seq<F32>, value: seq<F32>, out: seq<F32>, token: nat, head: nat, dim: nat)
    requires token < s.tokens && head < s.query_heads && dim < s.head_dim && |out| == s.tokens * s.QueryWidth()
    requires HeadDone(fm, s, query, key, value, out, token, head)
    ensures QueryOffset(s, token, head, dim) < |out|
    ensures out[QueryOffset(s, token, head, dim)] == Output(fm, s, query, key, value, token, head, dim)
  {
    hide Output;
    QueryInRange(s, token, head, dim);
    HeadFits(s, token, head);
    assert RowOf(out, token * s.query_heads + head, s.head_dim)[dim] == out[HeadStart(s, token, head) + dim];
  }

  /** Every flat position belongs to one (token, head, dim). */
  lemma EveryElement(s: Shape, i: nat) returns (token: nat, head: nat, dim: nat)
    requires i < s.tokens * s.QueryWidth()
    ensures token < s.tokens && head < s.query_heads && dim < s.head_dim && i == QueryOffset(s, token, head, dim)
  {
    FlatLength(s.tokens, s.query_heads, s.head_dim);
    RowBound(i, s.tokens * s.query_heads, s.head_dim);
    var row := i / s.head_dim;
    RowBound(row, s.tokens, s.query_heads);
    token, head, dim := row / s.query_heads, row % s.query_heads, i % s.head_dim;
  }

  // ----- causality -----

  /** Two inputs agree as far as token `t` can see: its own query row, and keys and values up to it. */
  ghost predicate AgreeUpTo(s: Shape, t: nat, q: seq<F32>, k: seq<F32>, v: seq<F32>, q': seq<F32>, k': seq<F32>, v': seq<F32>) {
    && (forall i :: t * s.QueryWidth() <= i < (t + 1) * s.QueryWidth() ==> At(q, i) == At(q', i))
    && (forall i :: 0 <= i < (t + 1) * s.KeyValueWidth() ==> At(k, i) == At(k', i) && At(v, i) == At(v', i))
  }

  lemma VisibleOffsets(s: Shape, t: nat, head: nat, kt: nat, kv: nat, dim: nat)
    requires head < s.query_heads && kv < s.key_value_heads && dim < s.head_dim && kt <= t
    ensures t * s.QueryWidth() <= QueryOffset(s, t, head, dim) < (t + 1) * s.QueryWidth()
    ensures KeyValueOffset(s, kt, kv, dim) < (t + 1) * s.KeyValueWidth()
  {
    QueryInRange(Shape(t + 1, s.query_heads, s.key_value_heads, s.head_dim), t, head, dim);
    KeyValueInRange(Shape(t + 1, s.query_heads, s.key_value_heads, s.head_dim), kt, kv, dim);
    FlatLength(t, s.query_heads, s.head_dim);
    MulLe(t * s.query_heads, t * s.query_heads + head, s.head_dim);
  }

  lemma {:induction false} SameDot(fm: FloatModel, s: Shape, t: nat, head: nat, kv: nat, kt: nat, n: nat,
                                   q: seq<F32>, k: seq<F32>, v: seq<F32>, q': seq<F32>, k': seq<F32>, v': seq<F32>)
    requires AgreeUpTo(s, t, q, k, v, q', k', v') && kt <= t && head < s.query_heads && kv < s.key_value_heads && n <= s.head_dim
    ensures Dot(fm, s, q, k, t, head, kv, kt, n) == Dot(fm, s, q', k', t, head, kv, kt, n)
  {
    hide FloatModel.Add, FloatModel.Mul, QueryOffset, KeyValueOffset, At, Shape.QueryWidth, Shape.KeyValueWidth;
    if n > 0 {
      SameDot(fm, s, t, head, kv, kt, n - 1, q, k, v, q', k', v');
      VisibleOffsets(s, t, head, kt, kv, n - 1);
    }
  }

  lemma {:induction false} SameWeighted(fm: FloatModel, s: Shape, t: nat, weights: seq<F32>, kv: nat, dim: nat, n: nat,
                                        q: seq<F32>, k: seq<F32>, v: seq<F32>, q': seq<F32>, k': seq<F32>, v': seq<F32>)
    requires AgreeUpTo(s, t, q, k, v, q', k', v') && n <= t + 1 && kv < s.key_value_heads && dim < s.head_dim && s.query_heads > 0
    ensures Weighted(fm, s, weights, v, kv, dim, n) == Weighted(fm, s, weights, v', kv, dim, n)
  {
    hide FloatModel.Add, FloatModel.Mul, KeyValueOffset, At, Shape.QueryWidth, Shape.KeyValueWidth;
    if n > 0 {
      SameWeighted(fm, s, t, weights, kv, dim, n - 1, q, k, v, q', k', v');
      VisibleOffsets(s, t, 0, n - 1, kv, dim);
    }
  }

  /** Causality: a token's output depends on its own query row and on keys and values up to itself, and on
      nothing later. */
  lemma Causality(fm: FloatModel, s: Shape, t: nat, head: nat, dim: nat,
                  q: seq<F32>, k: seq<F32>, v: seq<F32>, q': seq<F32>, k': seq<F32>, v': seq<F32>)
    requires Accepts(s, q, k, v) && Accepts(s, q', k', v') && AgreeUpTo(s, t, q, k, v, q', k', v')
    requires t < s.tokens && head < s.query_heads && dim < s.head_dim
    ensures Output(fm, s, q, k, v, t, head, dim) == Output(fm, s, q', k', v', t, head, dim)
  {
    hide AgreeUpTo, SoftmaxOf, Weighted, Dot, FloatModel.Mul, Scale, KeyValueHead, Shape.QueryWidth, Shape.KeyValueWidth;
    GroupOf(s, head);
    var kv := KeyValueHead(s, head);
    var a, b := Scores(fm, s, q, k, t, head, t + 1), Scores(fm, s, q', k', t, head, t + 1);
    forall kt | 0 <= kt <= t ensures a[kt] == b[kt] {
      SameDot(fm, s, t, head, kv, kt, s.head_dim, q, k, v, q', k', v');
    }
    assert a == b;
    SameWeighted(fm, s, t, SoftmaxOf(fm, a), kv, dim, t + 1, q, k, v, q', k', v');
  }

  lemma AgreeEarlier(s: Shape, t: nat, t': nat, q: seq<F32>, k: seq<F32>, v: seq<F32>, q': seq<F32>, k': seq<F32>, v': seq<F32>)
    requires t' <= t
    requires forall i :: 0 <= i < (t + 1) * s.QueryWidth() ==> At(q, i) == At(q', i)
    requires forall i :: 0 <= i < (t + 1) * s.KeyValueWidth() ==> At(k, i) == At(k', i) && At(v, i) == At(v', i)
    ensures AgreeUpTo(s, t', q, k, v, q', k', v')
  {
    hide At, Shape.QueryWidth, Shape.KeyValueWidth;
    MulLe(t' + 1, t + 1, s.QueryWidth());
    MulLe(t' + 1, t + 1, s.KeyValueWidth());
  }

  /** As a statement about two runs: when the inputs agree on all tokens up to `t`, so do the output rows
      up to `t`, whatever follows and whatever the buffers held. */
  lemma CausalRows(fm: FloatModel, s: Shape, t: nat, t': nat, head: nat,
                   q: seq<F32>, k: seq<F32>, v: seq<F32>, q': seq<F32>, k': seq<F32>, v': seq<F32>, out: seq<F32>, out': seq<F32>)
    requires Accepts(s, q, k, v) && Accepts(s, q', k', v') && t' <= t < s.tokens && head < s.query_heads
    requires forall i :: 0 <= i < (t + 1) * s.QueryWidth() ==> At(q, i) == At(q', i)
    requires forall i :: 0 <= i < (t + 1) * s.KeyValueWidth() ==> At(k, i) == At(k', i) && At(v, i) == At(v', i)
    requires HeadDone(fm, s, q, k, v, out, t', head) && HeadDone(fm, s, q', k', v', out', t', head)
    ensures RowOf(out, t' * s.query_heads + head, s.head_dim) == RowOf(out', t' * s.query_heads + head, s.head_dim)
  {
    hide Accepts, AgreeUpTo, Output, RowOf, At, Shape.QueryWidth, Shape.KeyValueWidth;
    AgreeEarlier(s, t, t', q, k, v, q', k', v');
    forall dim | 0 <= dim < s.head_dim
      ensures Output(fm, s, q, k, v, t', head, dim) == Output(fm, s, q', k', v', t', head, dim)
    {
      Causality(fm, s, t', head, dim, q, k, v, q', k', v');
    }
    assert HeadRow(fm, s, q, k, v, t', head) == HeadRow(fm, s, q', k', v', t', head);
  }
}
