/** The workload a finished run reports (crates/xtask/src/attention/metrics.rs): every one of them can be
    printed and read back. */
module TraceWorkload {
  import opened Options
  import opened TraceText
  import opened TraceFields
  import opened TraceRecord
  import P = AttentionPlan
  import R = AttentionReference

  function Word(n: nat): Option<nat> { if n < U64 then Some(n) else None }

  function HalfWord(n: nat): Option<nat> { if n < U32 then Some(n) else None }

  /** A product of two, where both factors are there and it fits. */
  function Times(a: Option<nat>, b: Option<nat>): Option<nat> {
    if a.Some? && b.Some? then Word(a.value * b.value) else None
  }

  function Product(d: Dim3): Option<nat> { Times(Times(Some(d.0), Some(d.1)), Some(d.2)) }

  function LogicalMacs(sequence: nat, head_dim: nat): Option<nat> {
    Times(Times(Times(Some(sequence), Some(sequence)), Some(head_dim)), Some(2))
  }

  /** `from_runtime`; None where it reports an error. The scalar schedule uses no local memory. */
  function FromRuntime(plan: P.Plan, run: R.AttentionRun, t: LaunchTrace, caps: Caps, contract: Contract, outputElements: nat)
    : Option<Workload>
  {
    var workgroups, threads, kv := Product(t.grid), Product(t.block), Word(|run.k| + |run.v|);
    var total, logical := Times(workgroups, threads), LogicalMacs(run.sequence, run.head_dim);
    var metrics := P.Estimate(P.Shape(run.sequence, run.head_dim), plan.schedule, P.I8, P.I8);
    if HalfWord(plan.shape.sequence).None? || HalfWord(plan.shape.head_dim).None? || HalfWord(plan.schedule.tile.head_dim).None?
       || Word(|run.q|).None? || kv.None? || Word(outputElements).None? || total.None? || logical.None?
       || Word(caps.MaxWorkgroupThreads()).None? || metrics.None?
    then None
    else
      var m := metrics.value;
      Some(Workload(
        run.sequence, run.head_dim, run.query_tile, run.key_tile, plan.shape.sequence, plan.shape.head_dim,
        plan.schedule.tile.head_dim, logical.value, m.lowered_macs, m.global_bytes_read, m.global_bytes_written, 0,
        workgroups.value, threads.value, total.value, |run.q|, kv.value, outputElements, |run.q|, kv.value, outputElements,
        contract.requested, contract.observed, caps))
  }

  predicate TargetSized(t: Target) {
    t.xlen < U32 && t.maxWorkgroupThreads < U32 && t.preferredSubgroupWidth < U32 && t.localMemoryBytes < U32
  }

  predicate Dim3Sized(d: Dim3) { d.0 < U32 && d.1 < U32 && d.2 < U32 }

  /** The arguments have their machine types, and the kernel symbol is a word. */
  ghost predicate Sized(run: R.AttentionRun, t: LaunchTrace, caps: Caps, contract: Contract) {
    && R.WellTyped(run) && TargetSized(contract.requested) && TargetSized(contract.observed)
    && caps.threadsPerWarp < U64 && caps.warpsPerCore < U64 && caps.localMemoryBytes < U64
    && Dim3Sized(t.grid) && Dim3Sized(t.block) && t.sharedMemoryBytes < U32
    && t.hostToDeviceBytes < U64 && t.deviceToHostBytes < U64 && NoWhite(t.kernel)
  }

  /** Whatever a run reports is within the types the parsers expect. */
  lemma ReportsAreTyped(plan: P.Plan, run: R.AttentionRun, t: LaunchTrace, caps: Caps, contract: Contract, outputElements: nat)
    requires Sized(run, t, caps, contract) && FromRuntime(plan, run, t, caps, contract, outputElements).Some?
    ensures Typed(t, FromRuntime(plan, run, t, caps, contract, outputElements).value)
  {
    hide NoWhite, P.Estimate, Caps.MaxWorkgroupThreads, Product, LogicalMacs, MismatchMask;
    EstimateFits(P.Shape(run.sequence, run.head_dim), plan.schedule);
    ProductFits(t.grid);
    ProductFits(t.block);
    LogicalFits(run.sequence, run.head_dim);
    MaskFits(contract.requested, contract.observed);
  }

  lemma MaskFits(a: Target, b: Target)
    ensures MismatchMask(a, b) < U16
  {
    hide MismatchMask;
  }

  lemma ProductFits(d: Dim3)
    ensures Product(d).Some? ==> Product(d).value < U64
  {
  }

  lemma LogicalFits(sequence: nat, head_dim: nat)
    ensures LogicalMacs(sequence, head_dim).Some? ==> LogicalMacs(sequence, head_dim).value < U64
  {
  }

  lemma EstimateFits(shape: P.Shape, s: P.Schedule)
    ensures var m := P.Estimate(shape, s, P.I8, P.I8);
            m.Some? ==> m.value.lowered_macs < U64 && m.value.global_bytes_read < U64 && m.value.global_bytes_written < U64
  {
  }

  /** So the line printed for any finished run whose contract was made from its own device capabilities is read
      back whole: every number, flag and backend, the launch, and the contract with its cross-check. */
  lemma ReportRoundTrip(plan: P.Plan, run: R.AttentionRun, t: LaunchTrace, caps: Caps, contract: Contract, outputElements: nat, xlen: nat)
    requires Sized(run, t, caps, contract) && FromRuntime(plan, run, t, caps, contract, outputElements).Some?
    requires ObservedTarget(xlen, caps) == Some(contract.observed)
    ensures var w := FromRuntime(plan, run, t, caps, contract, outputElements).value;
            && (forall k :: Limit(k).Some? ==> NumberField(TraceLine(t, w), k) == Some(Number(t, w, k)))
            && (forall k :: Flag(t, w, k).Some? ==> FlagField(TraceLine(t, w), k) == Flag(t, w, k))
            && (forall k :: BackendOf(w, k).Some? ==> BackendField(TraceLine(t, w), k) == BackendOf(w, k))
            && SummaryOf(TraceLine(t, w), t.kernel)
               == Ok(Summary(t.kernel, t.grid, t.block, t.sharedMemoryBytes, t.hostToDeviceBytes, t.deviceToHostBytes))
            && ContractOf(MetadataOf(TraceLine(t, w))) == Some(contract)
  {
    var w := FromRuntime(plan, run, t, caps, contract, outputElements).value;
    hide Sized, Typed, NumberField, FlagField, BackendField, TraceLine, SummaryOf, ContractOf, MetadataOf, ObservedTarget, P.Estimate,
         Product, LogicalMacs;
    ReportsAreTyped(plan, run, t, caps, contract, outputElements);
    forall k
      ensures Limit(k).Some? ==> NumberField(TraceLine(t, w), k) == Some(Number(t, w, k))
      ensures Flag(t, w, k).Some? ==> FlagField(TraceLine(t, w), k) == Flag(t, w, k)
      ensures BackendOf(w, k).Some? ==> BackendField(TraceLine(t, w), k) == BackendOf(w, k)
    {
      MetadataRoundTrip(t, w, k);
    }
    SummaryRoundTrip(t, w, t.kernel);
    RuntimeContractSurvives(t, w, xlen);
  }

  lemma LogicalIs(s: nat, d: nat)
    ensures LogicalMacs(s, d).Some? ==> LogicalMacs(s, d).value == 2 * (s * (s * d))
  {
    P.Reassociate(s, s, d);
  }

  /** What a run reports, in terms of the run: its shape and tiles, the work of the lowered kernel for that shape, one
      workgroup per grid cell and one thread per block cell, and the sizes of its buffers in bytes. */
  lemma ReportNumbers(plan: P.Plan, run: R.AttentionRun, t: LaunchTrace, caps: Caps, contract: Contract, outputElements: nat)
    requires plan.schedule == P.DENSE_SCALAR_TWO_PASS_4X1X64 && R.WellTyped(run) && R.Accepted(run)
    requires FromRuntime(plan, run, t, caps, contract, outputElements).Some?
    ensures var w, s, d := FromRuntime(plan, run, t, caps, contract, outputElements).value, run.sequence, run.head_dim;
            && w.runtimeSequence == s && w.runtimeHeadDim == d && w.queryTile == run.query_tile && w.keyTile == run.key_tile
            && w.compiledSequence == plan.shape.sequence && w.compiledHeadDim == plan.shape.head_dim && w.headDimTile == 64
            && w.logicalMacs == 2 * (s * (s * d)) && w.loweredMacs == 2 * ((s * d) * (s * d)) + s * (s * d)
            && w.estimatedGlobalBytesRead == 4 * ((s * d) * (s * d)) + s * (s * d) && w.estimatedGlobalBytesWritten == s * d
            && w.estimatedLocalMemoryBytesPerWorkgroup == 0
            && w.workgroupCount == t.grid.0 * t.grid.1 * t.grid.2 && w.threadsPerWorkgroup == t.block.0 * t.block.1 * t.block.2
            && w.totalThreads == w.workgroupCount * w.threadsPerWorkgroup
            && w.runtimeQElements == s * d && w.runtimeKvElements == 2 * (s * d) && w.runtimeOutputElements == outputElements
            && w.runtimeQBytes == w.runtimeQElements && w.runtimeKvBytes == w.runtimeKvElements
            && w.runtimeOutputBytes == w.runtimeOutputElements
            && w.requested == contract.requested && w.observed == contract.observed && w.caps == caps
  {
    hide P.Estimate, LogicalMacs, Caps.MaxWorkgroupThreads;
    LogicalIs(run.sequence, run.head_dim);
    P.EstimateExact(P.Shape(run.sequence, run.head_dim));
  }
}
