/** Schedule selection, the static cost estimate and the compiled launch plan
    (crates/schedule/src/attention.rs, crates/profiler/src/estimate.rs, crates/compiler/src/attention.rs),
    with 64-bit usize arithmetic that reports overflow. */
module AttentionPlan {
  import opened Options
  import opened Arithmetic

  const U32_LIMIT := 0x1_0000_0000
  const I32_LIMIT := 0x8000_0000

  datatype ElementType = I8 | I16 | I32 | F16 | F32 {
    function ByteSize(): nat {
      match this
      case I8 => 1
      case I16 => 2
      case F16 => 2
      case I32 => 4
      case F32 => 4
    }
  }

  datatype Shape = Shape(sequence: nat, head_dim: nat) {
    predicate Valid() { sequence < USIZE_LIMIT && head_dim < USIZE_LIMIT }
  }

  datatype TileShape = TileShape(query: nat, key: nat, head_dim: nat)
  datatype Schedule = Schedule(tile: TileShape, blockX: nat, blockY: nat)

  const DENSE_SCALAR_TWO_PASS_4X1X64 := Schedule(TileShape(4, 1, 64), 4, 4)

  function ThenMul(a: Option<nat>, b: Option<nat>): Option<nat> {
    if a.Some? && b.Some? then CheckedMul(a.value, b.value) else None
  }

  function ThenAdd(a: Option<nat>, b: Option<nat>): Option<nat> {
    if a.Some? && b.Some? then CheckedAdd(a.value, b.value) else None
  }

  datatype TileCounts = TileCounts(query_blocks: nat, key_blocks: nat, head_dim_blocks: nat)

  function TileCountsOf(s: Schedule, shape: Shape): Option<TileCounts> {
    if s.tile.query == 0 || s.tile.key == 0 || s.tile.head_dim == 0 then None
    else Some(TileCounts(DivCeil(shape.sequence, s.tile.query), DivCeil(shape.sequence, s.tile.key),
                         DivCeil(shape.head_dim, s.tile.head_dim)))
  }

  datatype Metrics = Metrics(logical_macs: nat, lowered_macs: nat, workgroup_count: nat, thread_count: nat,
                             global_bytes_read: nat, global_bytes_written: nat)

  /** The checked cost model: any intermediate overflow gives no estimate. */
  function Estimate(shape: Shape, schedule: Schedule, element: ElementType, out: ElementType): Option<Metrics> {
    var counts := TileCountsOf(schedule, shape);
    if counts.None? then None
    else
      var workgroups := CheckedMul(counts.value.query_blocks, counts.value.head_dim_blocks);
      var sequenceSquared := CheckedMul(shape.sequence, shape.sequence);
      var outputElements := CheckedMul(shape.sequence, shape.head_dim);
      var scoreMacs := ThenMul(sequenceSquared, Some(shape.head_dim));
      var logicalMacs := ThenAdd(scoreMacs, scoreMacs);
      var loweredQkMacs := ThenMul(ThenMul(scoreMacs, Some(shape.head_dim)), Some(2));
      var loweredMacs := ThenAdd(loweredQkMacs, scoreMacs);
      var qkBytes := ThenMul(ThenMul(loweredQkMacs, Some(2)), Some(element.ByteSize()));
      var valueBytes := ThenMul(scoreMacs, Some(element.ByteSize()));
      var bytesRead := ThenAdd(qkBytes, valueBytes);
      var bytesWritten := ThenMul(outputElements, Some(out.ByteSize()));
      var threads := ThenMul(workgroups, Some(schedule.blockX * schedule.blockY));
      if logicalMacs.Some? && loweredMacs.Some? && bytesRead.Some? && bytesWritten.Some? && threads.Some? then
        Some(Metrics(logicalMacs.value, loweredMacs.value, workgroups.value, threads.value, bytesRead.value,
                     bytesWritten.value))
      else None
  }

  datatype Constraints = Constraints(max_workgroup_threads: nat, local_memory_bytes: nat)
  datatype AttentionOp = AttentionOp(shape: Shape, element_type: ElementType)

  datatype CompileError =
    | UnsupportedElementType | UnsupportedShape | NoViableCandidate | MetricsOverflow | LaunchShapeOverflow

  datatype Plan = Plan(shape: Shape, schedule: Schedule, gridX: nat, gridZ: nat, blockX: nat, blockY: nat,
                       query_tile: nat, key_tile: nat, metrics: Metrics)

  /** The single candidate is chosen unless its workgroup is too large for the target. */
  function Select(c: Constraints): Option<Schedule> {
    var s := DENSE_SCALAR_TWO_PASS_4X1X64;
    if s.blockX * s.blockY > c.max_workgroup_threads then None else Some(s)
  }

  predicate FitsU32(n: nat) { n < U32_LIMIT }

  function CompileSelected(op: AttentionOp, s: Schedule): Result<Plan, CompileError> {
    var counts := TileCountsOf(s, op.shape);
    var metrics := Estimate(op.shape, s, op.element_type, op.element_type);
    if counts.None? || metrics.None? then Err(MetricsOverflow)
    else if !(FitsU32(counts.value.query_blocks) && FitsU32(counts.value.head_dim_blocks) && FitsU32(s.blockX)
              && FitsU32(s.blockY) && FitsU32(op.shape.sequence) && FitsU32(op.shape.head_dim)
              && FitsU32(s.tile.query) && FitsU32(s.tile.key)) then Err(LaunchShapeOverflow)
    else Ok(Plan(op.shape, s, counts.value.query_blocks, counts.value.head_dim_blocks, s.blockX, s.blockY,
                 s.tile.query, s.tile.key, metrics.value))
  }

  function Compile(op: AttentionOp, c: Constraints): Result<Plan, CompileError> {
    if op.element_type != I8 then Err(UnsupportedElementType)
    else if op.shape.sequence == 0 || op.shape.head_dim == 0 then Err(UnsupportedShape)
    else
      var s := Select(c);
      if s.None? then Err(NoViableCandidate) else CompileSelected(op, s.value)
  }

  // ----- what a successful compile guarantees -----

  /** The byte estimate of a shape, exactly. */
  function BytesRead(s: nat, d: nat): nat { 4 * ((s * d) * (s * d)) + s * (s * d) }

  function LoweredMacs(s: nat, d: nat): nat { 2 * ((s * d) * (s * d)) + s * (s * d) }

  lemma SmallFactor(a: nat, b: nat, limit: nat)
    requires b > 0 && a * b < limit
    ensures a < limit
  {
    if a >= limit {
      MulAtLeast(a, b);
    }
  }

  lemma MulAtLeast(a: nat, b: nat)
    requires b > 0
    ensures a * b >= a
  {
    assert a * b - a == a * (b - 1);
  }

  lemma MulMono(a: nat, b: nat, c: nat, d: nat)
    requires a <= b && c <= d
    ensures a * c <= b * d
  {
    assert a * c <= b * c;
    assert b * c <= b * d;
  }

  lemma SquareBelow(p: nat)
    requires 4 * (p * p) < USIZE_LIMIT
    ensures p < I32_LIMIT
  {
    if p >= I32_LIMIT {
      MulMono(I32_LIMIT, p, I32_LIMIT, p);
    }
  }

  lemma CheckedMulIs(a: nat, b: nat, r: nat)
    requires r == a * b
    ensures CheckedMul(a, b) == if r < USIZE_LIMIT then Some(r) else None
  {
  }

  /** The estimate in terms of its products, with no multiplication left. */
  lemma EstimateFromParts(shape: Shape, ss: nat, p: nat, c: nat, q: nat, wg: nat)
    requires ss == shape.sequence * shape.sequence && p == shape.sequence * shape.head_dim
    requires c == ss * shape.head_dim && q == c * shape.head_dim
    requires wg == DivCeil(shape.sequence, 4) * DivCeil(shape.head_dim, 64)
    requires ss <= c <= q && p <= c && (4 * q + c < USIZE_LIMIT ==> 16 * wg < USIZE_LIMIT)
    ensures Estimate(shape, DENSE_SCALAR_TWO_PASS_4X1X64, I8, I8)
            == if 4 * q + c < USIZE_LIMIT then Some(Metrics(2 * c, 2 * q + c, wg, 16 * wg, 4 * q + c, p)) else None
  {
    hide CheckedMul, DivCeil;
    CheckedMulIs(shape.sequence, shape.sequence, ss);
    CheckedMulIs(shape.sequence, shape.head_dim, p);
    CheckedMulIs(ss, shape.head_dim, c);
    CheckedMulIs(c, shape.head_dim, q);
    CheckedMulIs(q, 2, 2 * q);
    CheckedMulIs(2 * q, 2, 4 * q);
    CheckedMulIs(4 * q, 1, 4 * q);
    CheckedMulIs(c, 1, c);
    CheckedMulIs(p, 1, p);
    CheckedMulIs(DivCeil(shape.sequence, 4), DivCeil(shape.head_dim, 64), wg);
    CheckedMulIs(wg, 16, 16 * wg);
  }

  /** An estimate for byte elements exists exactly when the byte count fits, and then all its numbers are exact. */
  lemma EstimateExact(shape: Shape)
    requires shape.Valid() && shape.sequence > 0 && shape.head_dim > 0
    ensures var s, d := shape.sequence, shape.head_dim;
            var m := Estimate(shape, DENSE_SCALAR_TWO_PASS_4X1X64, I8, I8);
            && (m.Some? <==> BytesRead(s, d) < USIZE_LIMIT)
            && (m.Some? ==>
                  && m.value.lowered_macs == LoweredMacs(s, d)
                  && m.value.global_bytes_read == BytesRead(s, d)
                  && m.value.global_bytes_written == s * d
                  && m.value.logical_macs == 2 * (s * (s * d))
                  && m.value.workgroup_count == DivCeil(s, 4) * DivCeil(d, 64)
                  && m.value.thread_count == 16 * (DivCeil(s, 4) * DivCeil(d, 64)))
  {
    hide DivCeil, Estimate, BytesRead, LoweredMacs;
    var s, d := shape.sequence, shape.head_dim;
    var ss, p := s * s, s * d;
    var c := ss * d;
    var q := c * d;
    var wg := DivCeil(s, 4) * DivCeil(d, 64);
    Powers(s, d, ss, p, c, q);
    if 4 * q + c < USIZE_LIMIT {
      SquareBelow(p);
      CeilProduct(s, d);
    }
    EstimateFromParts(shape, ss, p, c, q, wg);
  }

  lemma Reassociate(a: nat, b: nat, c: nat)
    ensures (a * b) * c == b * (a * c)
  {
  }

  lemma Powers(s: nat, d: nat, ss: nat, p: nat, c: nat, q: nat)
    requires s > 0 && d > 0 && ss == s * s && p == s * d && c == ss * d && q == c * d
    ensures ss <= c <= q && p <= c && c == s * p && q == p * p && BytesRead(s, d) == 4 * q + c && LoweredMacs(s, d) == 2 * q + c
  {
    Reassociate(s, s, d);
    Reassociate(s, p, d);
    MulAtLeast(ss, d);
    MulAtLeast(c, d);
    MulAtLeast(p, s);
  }

  lemma CeilBelow(n: nat, d: nat)
    requires d == 4 || d == 64
    ensures DivCeil(n, d) <= n
  {
  }

  lemma CeilProduct(s: nat, d: nat)
    requires s > 0 && d > 0 && s * d < I32_LIMIT
    ensures DivCeil(s, 4) <= s && DivCeil(d, 64) <= d && DivCeil(s, 4) * DivCeil(d, 64) <= s * d
  {
    hide DivCeil;
    CeilBelow(s, 4);
    CeilBelow(d, 64);
    MulMono(DivCeil(s, 4), s, DivCeil(d, 64), d);
  }

  /** What the launch can rely on after a successful compile. */
  ghost predicate Launchable(p: Plan) {
    && p.shape.sequence > 0 && p.shape.head_dim > 0 && p.shape.sequence * p.shape.head_dim < I32_LIMIT
    && p.schedule == DENSE_SCALAR_TWO_PASS_4X1X64 && p.blockX == 4 && p.blockY == 4
    && p.query_tile == 4 && p.key_tile == 1
    && p.gridX == DivCeil(p.shape.sequence, 4) && p.gridZ == DivCeil(p.shape.head_dim, 64)
  }

  lemma ShapeBounds(shape: Shape)
    requires shape.Valid() && shape.sequence > 0 && shape.head_dim > 0
    requires BytesRead(shape.sequence, shape.head_dim) < USIZE_LIMIT
    ensures shape.sequence * shape.head_dim < I32_LIMIT && shape.sequence < I32_LIMIT && shape.head_dim < I32_LIMIT
  {
    var p := shape.sequence * shape.head_dim;
    assert 4 * (p * p) <= BytesRead(shape.sequence, shape.head_dim);
    SquareBelow(p);
    SmallFactor(shape.sequence, shape.head_dim, I32_LIMIT);
    SmallFactor(shape.head_dim, shape.sequence, I32_LIMIT);
  }

  /** Compilation succeeds exactly on byte tensors of nonzero shape whose byte estimate fits, on targets
      with room for 16 threads; and the plan it gives is launchable. */
  lemma CompileExact(op: AttentionOp, c: Constraints)
    requires op.shape.Valid()
    ensures Compile(op, c).Ok? <==>
            && op.element_type == I8 && op.shape.sequence > 0 && op.shape.head_dim > 0
            && 16 <= c.max_workgroup_threads
            && BytesRead(op.shape.sequence, op.shape.head_dim) < USIZE_LIMIT
    ensures Compile(op, c).Ok? ==> Launchable(Compile(op, c).value) && Compile(op, c).value.shape == op.shape
    ensures Compile(op, c) != Err(LaunchShapeOverflow)
  {
    hide Estimate, BytesRead, LoweredMacs;
    var s, d := op.shape.sequence, op.shape.head_dim;
    if s > 0 && d > 0 {
      EstimateExact(op.shape);
      if BytesRead(s, d) < USIZE_LIMIT {
        ShapeBounds(op.shape);
      }
    }
  }

  /** Which error a refused compilation gives. */
  lemma CompileErrors(op: AttentionOp, c: Constraints)
    requires op.shape.Valid()
    ensures var nonzero := op.shape.sequence > 0 && op.shape.head_dim > 0;
            && (Compile(op, c) == Err(UnsupportedElementType) <==> op.element_type != I8)
            && (Compile(op, c) == Err(UnsupportedShape) <==> op.element_type == I8 && !nonzero)
            && (Compile(op, c) == Err(NoViableCandidate) <==> op.element_type == I8 && nonzero && c.max_workgroup_threads < 16)
            && (Compile(op, c) == Err(MetricsOverflow) <==>
                  op.element_type == I8 && nonzero && c.max_workgroup_threads >= 16
                  && BytesRead(op.shape.sequence, op.shape.head_dim) >= USIZE_LIMIT)
  {
    hide Estimate, BytesRead, LoweredMacs;
    if op.shape.sequence > 0 && op.shape.head_dim > 0 {
      EstimateExact(op.shape);
    }
    CompileExact(op, c);
  }
}
