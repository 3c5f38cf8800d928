/** The device-IR form of the kernel, launched on the grid of a compiled plan. */
module DeviceLaunch {
  import opened Options
  import Floats
  import opened DeviceIr
  import opened DeviceSemantics
  import opened LaunchMachine
  import opened SoundSteps
  import opened AttentionKernel
  import opened AttentionThread
  import opened AttentionLoops
  import opened AttentionDims
  import opened AttentionEntry
  import opened AttentionTiles
  import opened AttentionGrid
  import opened AttentionLaunch
  import opened Sums
  import P = AttentionPlan
  import R = AttentionReference

  function AdvanceWithEffect(k: Kernel<Reg, Label>, mem: Memory, th: AThread): (AThread, Effect) {
    (Advance(k, mem, th), Step(k, mem, th.state).1)
  }

  function DeviceSystem(fm: Floats.FloatModel, run: R.AttentionRun, gridX: nat): System<AThread>
    requires gridX > 0
  {
    System((t, mem, th) => AdvanceWithEffect(AttentionKernelFor(JobAt(fm, run, gridX, t)), mem, th),
           (th: AThread) => th.log, (th: AThread) => th.state.Done?, StartState())
  }

  lemma DeviceSound(fm: Floats.FloatModel, run: R.AttentionRun, gridX: nat)
    requires gridX > 0
    ensures Sound(DeviceSystem(fm, run, gridX))
  {
    hide SameReadable, Step, AttentionKernelFor, JobAt, CanStore;
    var sys := DeviceSystem(fm, run, gridX);
    forall t: nat, m, m', s | SameReadable(m, m') ensures sys.step(t, m, s) == sys.step(t, m', s) {
      StepSame(AttentionKernelFor(JobAt(fm, run, gridX, t)), m, m', s.state);
    }
    forall t: nat, m, s | sys.step(t, m, s).1.Stored?
      ensures CanStore(m, AddrV(sys.step(t, m, s).1.obj, sys.step(t, m, s).1.off))
    {
      StepStores(AttentionKernelFor(JobAt(fm, run, gridX, t)), m, s.state);
    }
    forall t: nat, m, s: AThread | sys.done(s) ensures sys.step(t, m, s) == (s, Silent) {
      DoneStays(AttentionKernelFor(JobAt(fm, run, gridX, t)), m, s);
    }
  }

  lemma DoneStays(k: Kernel<Reg, Label>, m: Memory, s: AThread)
    requires s.state.Done?
    ensures AdvanceWithEffect(k, m, s) == (s, Silent)
  {
  }

  lemma {:induction false} AloneIterates(fm: Floats.FloatModel, run: R.AttentionRun, gridX: nat, t: nat, mem: Memory, n: nat)
    requires gridX > 0
    ensures Alone(DeviceSystem(fm, run, gridX), t, mem, n)
            == Iterate(AttentionKernelFor(JobAt(fm, run, gridX, t)), mem, n, StartState())
  {
    hide Step, AttentionKernelFor, JobAt;
    var k := AttentionKernelFor(JobAt(fm, run, gridX, t));
    if n > 0 {
      AloneIterates(fm, run, gridX, t, mem, n - 1);
      IterateAdd(k, mem, n - 1, 1, StartState());
      var before := Iterate(k, mem, n - 1, StartState());
      assert Iterate(k, mem, 1, before) == Iterate(k, mem, 0, Advance(k, mem, before));
    }
  }

  /** A launch of the device IR on any runtime input that fits the compiled plan. */
  lemma DeviceLaunches(fm: Floats.FloatModel, run: R.AttentionRun, p: P.Plan, g0: Global<AThread>)
    requires RunsOn(fm, run, p) && p.gridX > 0 && |g0.threads| == ThreadCount(p) && LaunchMemory(run, g0.mem)
    requires R.Accepted(run)
    requires forall t :: 0 <= t < |g0.threads| ==> g0.threads[t] == StartState()
    ensures Launch(DeviceSystem(fm, run, p.gridX), fm, run, p, g0)
  {
    hide RunsOn, JobAt, FinalLog, Job.Fits, R.Accepted, Sound, Reaches;
    var sys := DeviceSystem(fm, run, p.gridX);
    DeviceSound(fm, run, p.gridX);
    MemorySeparated(run, g0.mem);
    forall t: nat | t < ThreadCount(p)
      ensures JobAt(fm, run, p.gridX, t).run == run && Ends(sys, t, g0.mem, FinalLog(JobAt(fm, run, p.gridX, t)))
    {
      JobsFit(fm, run, p, t);
      JobParts(fm, run, p.gridX, t);
      var j := JobAt(fm, run, p.gridX, t);
      ThreadRuns(j, g0.mem);
      var n := StepsOf(j, g0.mem);
      AloneIterates(fm, run, p.gridX, t, g0.mem, n);
      assert Completes(sys, t, g0.mem, n, FinalLog(j));
    }
  }

  lemma StepsOf(j: Job, mem: Memory) returns (n: nat)
    requires R.Accepted(j.run) && Reaches(j, mem, StartState(), Thread(Done, FinalLog(j)))
    ensures Iterate(AttentionKernelFor(j), mem, n, StartState()) == Thread(Done, FinalLog(j))
  {
    hide FinalLog, R.Accepted, AttentionKernelFor, Iterate;
    n :| Iterate(AttentionKernelFor(j), mem, n, StartState()) == Thread(Done, FinalLog(j));
  }

  lemma MemorySeparated(run: R.AttentionRun, mem: Memory)
    requires LaunchMemory(run, mem)
    ensures Separated(mem)
  {
  }

  /** The premises about arithmetic, memory and reference can always be met: for every accepted input and
      every initial output buffer there is such a launch. */
  lemma LaunchExists(run: R.AttentionRun, initial: seq<Val>)
    returns (fm: Floats.FloatModel, mem: Memory, out: seq<int>)
    requires R.Accepted(run) && |initial| == |run.q|
    ensures fm.Valid() && LaunchMemory(run, mem) && mem[Obj(Out)].cells == initial && R.IsOutput(fm, run, out)
  {
    hide R.Accepted, LaunchMemory;
    fm := Floats.FloatModel(x => x, x => 1.0, x => x);
    mem := MemoryWith(run, initial);
    out := R.OutputExists(fm, run);
  }

  /** From a successful compile to the compared output: for every runtime shape within the compiled one,
      every input on which the reference succeeds, every initial output buffer and every order of steps,
      the launch ends, and it ends with the reference output. */
  lemma CompiledLaunchIsCorrect(fm: Floats.FloatModel, op: P.AttentionOp, c: P.Constraints, run: R.AttentionRun,
                                mem: Memory, out: seq<int>, schedule: seq<nat>) returns (bound: nat)
    requires op.shape.Valid() && P.Compile(op, c).Ok? && fm.Valid()
    requires R.WellTyped(run) && R.Accepted(run) && R.DotsFit(run) && R.IsOutput(fm, run, out)
    requires run.sequence <= op.shape.sequence && run.head_dim <= op.shape.head_dim
    requires run.query_tile == P.Compile(op, c).value.query_tile && LaunchMemory(run, mem)
    ensures var p := P.Compile(op, c).value;
            && p.gridX > 0
            && var sys := DeviceSystem(fm, run, p.gridX);
               var g0 := Global(seq(ThreadCount(p), _ => StartState()), mem);
               && (forall s :: IsSchedule(s, ThreadCount(p)) && IsLive(sys, g0, s) ==> |s| <= bound)
               && (IsSchedule(schedule, ThreadCount(p)) && AllDone(sys, Run(sys, g0, schedule)) ==>
                     Obj(Out) in mem && Run(sys, g0, schedule).mem == mem[Obj(Out) := mem[Obj(Out)].(cells := Cells(out))])
  {
    hide P.Compile, P.Launchable, R.WellTyped, R.Accepted, R.DotsFit, R.IsOutput, LaunchMemory, Launch, Run, AllDone, IsLive,
         DeviceSystem, Floats.FloatModel.Valid;
    P.CompileExact(op, c);
    var p := P.Compile(op, c).value;
    GridNonempty(p);
    var sys := DeviceSystem(fm, run, p.gridX);
    var g0 := Global(seq(ThreadCount(p), _ => StartState()), mem);
    DeviceLaunches(fm, run, p, g0);
    OwnTileHits(run, p);
    bound := LaunchTerminates(sys, fm, run, p, g0);
    if IsSchedule(schedule, ThreadCount(p)) && AllDone(sys, Run(sys, g0, schedule)) {
      LaunchComputesReference(sys, fm, run, p, g0, schedule, out);
    }
  }

  // ----- the cost of a launch -----

  lemma BytesGrow(s: nat, d: nat, s': nat, d': nat)
    requires s <= s' && d <= d'
    ensures P.BytesRead(s, d) <= P.BytesRead(s', d')
  {
    P.MulMono(s, s', d, d');
    P.MulMono(s * d, s' * d', s * d, s' * d');
    P.MulMono(s, s', s * d, s' * d');
  }

  /** The plan's own estimate, and the estimate of any shape within the compiled one. */
  lemma PlanEstimates(op: P.AttentionOp, c: P.Constraints, shape: P.Shape)
    requires op.shape.Valid() && P.Compile(op, c).Ok? && shape.sequence > 0 && shape.head_dim > 0
    requires shape.sequence <= op.shape.sequence && shape.head_dim <= op.shape.head_dim
    ensures var p := P.Compile(op, c).value;
            && p.schedule == P.DENSE_SCALAR_TWO_PASS_4X1X64 && P.Estimate(shape, p.schedule, P.I8, P.I8).Some?
            && P.Estimate(op.shape, p.schedule, P.I8, P.I8) == Some(p.metrics) && p.metrics.thread_count == ThreadCount(p)
  {
    hide P.Estimate, P.BytesRead, P.LoweredMacs;
    P.CompileExact(op, c);
    BytesGrow(shape.sequence, shape.head_dim, op.shape.sequence, op.shape.head_dim);
    P.EstimateExact(op.shape);
    P.EstimateExact(shape);
  }

  /** On a successfully compiled plan, with its own tile, the work that all threads of a complete run have done adds
      up to what the profiler estimates for the shape that was run, and for the compiled shape to the plan's metrics. */
  lemma CompiledLaunchCost(fm: Floats.FloatModel, op: P.AttentionOp, c: P.Constraints, run: R.AttentionRun, mem: Memory,
                           schedule: seq<nat>, macs: nat -> nat, bytes: nat -> nat, stores: nat -> nat)
    requires op.shape.Valid() && P.Compile(op, c).Ok? && fm.Valid()
    requires R.WellTyped(run) && R.Accepted(run) && R.DotsFit(run)
    requires run.sequence <= op.shape.sequence && run.head_dim <= op.shape.head_dim
    requires run.query_tile == P.Compile(op, c).value.query_tile && LaunchMemory(run, mem)
    requires P.Compile(op, c).value.gridX > 0
    requires var p := P.Compile(op, c).value;
             var sys := DeviceSystem(fm, run, p.gridX);
             && IsSchedule(schedule, ThreadCount(p)) && AllDone(sys, Run(sys, Begin(sys, p, mem), schedule))
             && forall t: nat :: t < ThreadCount(p) ==>
                  var log := sys.log(Run(sys, Begin(sys, p, mem), schedule).threads[t]);
                  macs(t) == log.macs && bytes(t) == log.bytesRead && stores(t) == |log.stores|
    ensures var p := P.Compile(op, c).value;
            var m := P.Estimate(P.Shape(run.sequence, run.head_dim), p.schedule, P.I8, P.I8);
            && m.Some?
            && SumRange(macs, 0, ThreadCount(p)) == m.value.lowered_macs
            && SumRange(bytes, 0, ThreadCount(p)) == m.value.global_bytes_read
            && SumRange(stores, 0, ThreadCount(p)) == m.value.global_bytes_written
            && (P.Shape(run.sequence, run.head_dim) == op.shape ==> m == Some(p.metrics) && p.metrics.thread_count == ThreadCount(p))
  {
    hide P.Compile, P.Estimate, P.Launchable, R.WellTyped, R.DotsFit, LaunchMemory, Launch, Run, AllDone, DeviceSystem,
         Floats.FloatModel.Valid, SumRange, P.BytesRead, P.LoweredMacs;
    P.CompileExact(op, c);
    var p, shape := P.Compile(op, c).value, P.Shape(run.sequence, run.head_dim);
    PlanEstimates(op, c, shape);
    P.EstimateExact(shape);
    var sys := DeviceSystem(fm, run, p.gridX);
    AllDeviceLaunches(fm, run, p);
    var g0 := Begin(sys, p, mem);
    assert Launch(sys, fm, run, p, g0);
    LaunchCost(sys, fm, run, p, g0, schedule, macs, bytes, stores);
  }

  // ----- any tile argument -----

  lemma AllDeviceLaunches(fm: Floats.FloatModel, run: R.AttentionRun, p: P.Plan)
    requires RunsOn(fm, run, p) && p.gridX > 0 && R.Accepted(run)
    ensures AllLaunch(DeviceSystem(fm, run, p.gridX), fm, run, p)
  {
    hide RunsOn, R.Accepted, LaunchMemory, Launch;
    var sys := DeviceSystem(fm, run, p.gridX);
    forall mem | LaunchMemory(run, mem) ensures Launch(sys, fm, run, p, Begin(sys, p, mem)) {
      DeviceLaunches(fm, run, p, Begin(sys, p, mem));
    }
  }

  /** The backend does not compare the tile argument with the plan. On every plan and every accepted input,
      launches always end with the reference output if and only if the argument reaches every query row. */
  lemma LaunchCorrectIff(fm: Floats.FloatModel, op: P.AttentionOp, c: P.Constraints, run: R.AttentionRun)
    requires op.shape.Valid() && P.Compile(op, c).Ok? && fm.Valid()
    requires R.WellTyped(run) && R.Accepted(run) && R.DotsFit(run)
    requires run.sequence <= op.shape.sequence && run.head_dim <= op.shape.head_dim
    ensures var p := P.Compile(op, c).value;
            p.gridX > 0
            && (AlwaysReference(DeviceSystem(fm, run, p.gridX), fm, run, p) <==> RowsHit(p.gridX, run.query_tile, run.sequence))
  {
    hide P.Compile, P.Launchable, R.WellTyped, R.Accepted, R.DotsFit, DeviceSystem, Floats.FloatModel.Valid, RowsHit,
         AlwaysReference, AllLaunch;
    P.CompileExact(op, c);
    var p := P.Compile(op, c).value;
    GridNonempty(p);
    AllDeviceLaunches(fm, run, p);
    ReferenceIff(DeviceSystem(fm, run, p.gridX), fm, run, p);
  }

  /** The condition in closed form, for inputs that need the whole grid or arguments that do not wrap. */
  lemma LaunchCorrectClosedForm(fm: Floats.FloatModel, op: P.AttentionOp, c: P.Constraints, run: R.AttentionRun)
    requires op.shape.Valid() && P.Compile(op, c).Ok? && fm.Valid()
    requires R.WellTyped(run) && R.Accepted(run) && R.DotsFit(run)
    requires run.sequence <= op.shape.sequence && run.head_dim <= op.shape.head_dim
    requires var gridX := P.Compile(op, c).value.gridX; gridX > 0 && PlainGrid(gridX, run.query_tile, run.sequence)
    ensures var p := P.Compile(op, c).value;
            AlwaysReference(DeviceSystem(fm, run, p.gridX), fm, run, p) <==> TileReaches(p.gridX, run.query_tile, run.sequence)
  {
    hide P.Compile, P.Launchable, R.DotsFit, DeviceSystem, Floats.FloatModel.Valid, RowsHit, AlwaysReference, PlainGrid,
         TileReaches;
    LaunchCorrectIff(fm, op, c, run);
    P.CompileExact(op, c);
    var p := P.Compile(op, c).value;
    GridNonempty(p);
    RowsHitIff(p.gridX, run.query_tile, run.sequence);
  }

  /** An accepted input on a plan for its own shape, with a tile argument of 5: row 4 is never computed. */
  lemma TileFiveFails(fm: Floats.FloatModel) returns (run: R.AttentionRun, op: P.AttentionOp, c: P.Constraints)
    requires fm.Valid()
    ensures run == R.AttentionRun(seq(8, _ => 0), seq(8, _ => 0), seq(8, _ => 0), 8, 1, 5, 1) && R.Accepted(run)
    ensures op == P.AttentionOp(P.Shape(8, 1), P.I8) && c.max_workgroup_threads == 16 && P.Compile(op, c).Ok?
    ensures var p := P.Compile(op, c).value;
            p.gridX == 2 && !AlwaysReference(DeviceSystem(fm, run, p.gridX), fm, run, p)
  {
    hide DeviceSystem, Floats.FloatModel.Valid, AlwaysReference, P.Compile;
    run := R.AttentionRun(seq(8, _ => 0), seq(8, _ => 0), seq(8, _ => 0), 8, 1, 5, 1);
    op := P.AttentionOp(P.Shape(8, 1), P.I8);
    c := P.Constraints(16, 0);
    P.CompileExact(op, c);
    R.SmallHeadDimFits(run);
    LaunchCorrectClosedForm(fm, op, c, run);
  }
}
