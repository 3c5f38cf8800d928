/** The rendered attention kernel: rendering it never panics, gives a module with the code generator's own
    names, and every launch of that module computes the reference output. */
module AttentionMlir {
  import opened Options
  import Floats
  import opened DeviceIr
  import opened DeviceSemantics
  import opened StraightLine
  import opened LaunchMachine
  import opened SoundSteps
  import opened MlirForm
  import opened PhiLowering
  import opened PhiEdges
  import opened PhiSimulation
  import opened MlirText
  import opened MlirNames
  import opened MlirNaming
  import opened MlirModule
  import opened AttentionKernel
  import opened AttentionNames
  import opened AttentionDefinitions
  import opened AttentionThread
  import opened AttentionLoops
  import opened AttentionEntry
  import opened AttentionTiles
  import opened AttentionGrid
  import opened AttentionLaunch
  import DL = DeviceLaunch
  import P = AttentionPlan
  import R = AttentionReference

  // ----- the builder's output is well formed -----

  lemma {:induction false} PhiCountIs<R, L>(ops: seq<Op<R, L>>, n: nat)
    requires n <= |ops| && (forall i :: 0 <= i < n ==> ops[i].Phi?) && (n < |ops| ==> !ops[n].Phi?)
    ensures PhiCount(ops) == n
  {
    if n > 0 {
      PhiCountIs(ops[1..], n - 1);
    }
  }

  function Phis(l: Label): nat {
    match l
    case DimLoop => 1
    case DotLoop(_) => 2
    case MaxKeyLoop => 2
    case SoftmaxKeyLoop => 3
    case _ => 0
  }

  lemma EntryHasNoPhis(tile: nat)
    ensures forall i :: 0 <= i < |EntryOps(tile)| ==> !EntryOps(tile)[i].Phi?
  {
    hide FieldIndex, FieldType;
  }

  lemma PhisLead(l: Label, tile: nat)
    ensures var ops := BlockOf(l, tile).ops;
            Phis(l) <= |ops| && (forall i :: 0 <= i < Phis(l) ==> ops[i].Phi?) && (forall i :: Phis(l) <= i < |ops| ==> !ops[i].Phi?)
  {
    hide EntryOps;
    EntryHasNoPhis(tile);
  }

  lemma BlockPhis(l: Label, tile: nat)
    ensures PhisFirst(BlockOf(l, tile).ops) && PhiCount(BlockOf(l, tile).ops) == Phis(l)
  {
    hide BlockOf;
    PhisLead(l, tile);
    PhiCountIs(BlockOf(l, tile).ops, Phis(l));
  }

  /** The edges of the control-flow graph. */
  predicate IsEdge(from: Label, to: Label) {
    match from
    case Entry => to == Exit || to == DimLoop
    case DimLoop => to == DotLoop(Score0) || to == Exit
    case DotLoop(p) => to == DotBody(p) || to == AfterDot(p)
    case DotBody(p) => to == DotLoop(p)
    case MaxKeyLoop => to == DotLoop(Max) || to == SoftmaxKeyLoop
    case MaxUpdate => to == MaxKeyLoop
    case SoftmaxKeyLoop => to == DotLoop(Softmax) || to == StoreOutput
    case SoftmaxUpdate => to == SoftmaxKeyLoop
    case StoreOutput => to == DimLoop
    case Exit => false
  }

  ghost predicate PhisCover(ops: seq<KOp>, from: Label) {
    forall i :: 0 <= i < |ops| && ops[i].Phi? ==>
      var v := IncomingFor(ops[i].incoming, from);
      v.Some? && TypedLiteral(v.value, ops[i].ty)
  }

  /** Every phi of the kernel has an incoming value for each of the two edges into its block. */
  ghost predicate TwoWay(op: KOp, a: Label, b: Label) {
    op.Phi? && |op.incoming| == 2 && op.incoming[0].pred == a && op.incoming[1].pred == b
    && (op.ty == I32 || op.ty == LlvmType.F32)
  }

  lemma TwoWayCovers(op: KOp, a: Label, b: Label, from: Label)
    requires TwoWay(op, a, b) && (from == a || from == b)
    ensures var v := IncomingFor(op.incoming, from);
            v.Some? && TypedLiteral(v.value, op.ty)
  {
    assert op.incoming == [op.incoming[0], op.incoming[1]];
    IncomingOfTwo(op.incoming[0], op.incoming[1], from);
  }

  function Back(l: Label): (Label, Label) {
    match l
    case DimLoop => (Entry, StoreOutput)
    case DotLoop(p) => (OuterOf(p), DotBody(p))
    case MaxKeyLoop => (DotLoop(Score0), MaxUpdate)
    case _ => (MaxKeyLoop, SoftmaxUpdate)
  }

  lemma PhisTwoWay(l: Label, tile: nat)
    ensures forall i :: 0 <= i < |BlockOf(l, tile).ops| && BlockOf(l, tile).ops[i].Phi? ==>
              TwoWay(BlockOf(l, tile).ops[i], Back(l).0, Back(l).1)
  {
    hide EntryOps;
    EntryHasNoPhis(tile);
  }

  lemma EdgePhis(from: Label, to: Label, tile: nat)
    requires IsEdge(from, to)
    ensures PhisCover(BlockOf(to, tile).ops, from)
  {
    hide BlockOf, TwoWay;
    PhisTwoWay(to, tile);
    PhisLead(to, tile);
    var ops := BlockOf(to, tile).ops;
    forall i | 0 <= i < |ops| && ops[i].Phi?
      ensures var v := IncomingFor(ops[i].incoming, from); v.Some? && TypedLiteral(v.value, ops[i].ty)
    {
      TwoWayCovers(ops[i], Back(to).0, Back(to).1, from);
    }
  }

  lemma EntryFirst(tile: nat)
    ensures AttentionBlocks(tile) != [] && AttentionBlocks(tile)[0].name == Entry
  {
    hide BlockOf;
    BlocksFollowLabels(tile, 0);
  }

  lemma EdgeIsCovered(from: Label, to: Label, tile: nat)
    requires IsEdge(from, to)
    ensures EdgeCovered(AttentionBlocks(tile), from, to)
  {
    hide BlockOf, AttentionBlocks;
    BlockFound(to, tile);
    EdgePhis(from, to, tile);
    EntryFirst(tile);
  }

  lemma ExitsAreEdges(l: Label, tile: nat)
    ensures var t := BlockOf(l, tile).terminator;
            && (t.Br? ==> IsEdge(l, t.target))
            && (t.CondBr? ==> IsEdge(l, t.thenLabel) && IsEdge(l, t.elseLabel))
  {
    hide EntryOps, DimLoopOps, DotLoopOps, QkDotOps, MaxKeyLoopOps, MaxUpdateOps, SoftmaxKeyLoopOps, SoftmaxUpdateOps, StoreOutputOps;
  }

  lemma BlockExits(l: Label, tile: nat)
    ensures ExitsCovered(AttentionBlocks(tile), BlockOf(l, tile))
  {
    hide BlockOf, AttentionBlocks, EdgeCovered, IsEdge;
    BlockName(l, tile);
    ExitsAreEdges(l, tile);
    var t := BlockOf(l, tile).terminator;
    match t
    case RetVoid =>
    case Br(to) => EdgeIsCovered(l, to, tile);
    case CondBr(_, a, b) =>
      EdgeIsCovered(l, a, tile);
      EdgeIsCovered(l, b, tile);
  }

  lemma LabelsDistinct(tile: nat)
    ensures DistinctLabels(AttentionBlocks(tile))
  {
    hide AttentionBlocks, LABELS;
    KernelLength(tile);
    forall i, j | 0 <= i < j < |LABELS| ensures AttentionBlocks(tile)[i].name != AttentionBlocks(tile)[j].name {
      BlocksFollowLabels(tile, i);
      BlocksFollowLabels(tile, j);
      LabelsDiffer(j);
      assert LABELS[i] in LABELS[..j];
    }
  }

  /** The builder's kernel meets the conditions under which rendering preserves meaning. */
  lemma AttentionWellFormed(tile: nat)
    ensures WellFormed(AttentionBlocks(tile))
  {
    hide BlockOf, PhisFirst, ExitsCovered, PhiCount, Definitions, Distinct;
    var blocks := AttentionBlocks(tile);
    DefinedOnce(tile);
    LabelsDistinct(tile);
    forall b | b in blocks ensures PhisFirst(b.ops) && ExitsCovered(blocks, b) {
      var i :| 0 <= i < |blocks| && blocks[i] == b;
      BlocksFollowLabels(tile, i);
      BlockPhis(LABELS[i], tile);
      BlockExits(LABELS[i], tile);
    }
    BlocksFollowLabels(tile, 0);
    BlockPhis(Entry, tile);
  }

  /** So rendering it never reaches the renderer's panics. */
  lemma RenderingSucceeds(tile: nat)
    ensures LowerKernel(AttentionBlocks(tile)).Some?
    ensures Lowered(AttentionBlocks(tile), LowerKernel(AttentionBlocks(tile)).value)
  {
    hide AttentionBlocks, ExitsCovered, PhisFirst, LowerUpTo;
    AttentionWellFormed(tile);
    LowerSucceeds(AttentionBlocks(tile), |AttentionBlocks(tile)|);
  }

  // ----- its names -----

  /** The code generator's spelling of registers and labels. */
  const SPELLING: Naming<Reg, Label> := Naming((r: Reg) => RegText(r), (l: Label) => LabelText(l))

  /** The kernel's own names are kept apart, from each other and from every constant the renderer adds. */
  lemma AttentionGoodNames(tile: nat)
    ensures GoodNames(SPELLING, AttentionBlocks(tile), Arg)
  {
    hide AttentionBlocks, RegText, LabelText, Used, Sanitized, ValueName, LABELS, Distinct;
    var blocks := AttentionBlocks(tile);
    var regs := [Arg] + Definitions(blocks);
    DefinedOnce(tile);
    KernelLength(tile);
    assert Used(Arg) by { ArgUsed(); }
    forall r, s | r in regs && s in regs && SPELLING.regText(r) == SPELLING.regText(s) ensures r == s {
      RegistersApart(r, s);
    }
    forall i, j | 0 <= i < j < |blocks|
      ensures Sanitized(SPELLING.labelText(blocks[i].name)) != Sanitized(SPELLING.labelText(blocks[j].name))
    {
      LabelsDistinct(tile);
      LabelsApart(blocks[i].name, blocks[j].name);
    }
    forall r, b, n: nat, ty | r in regs && b in blocks
      ensures SPELLING.regText(r) != ValueName(SPELLING.labelText(b.name), n, ty)
    {
      ConstantsApart(r, b.name, n, ty);
    }
  }

  lemma ArgUsed()
    ensures Used(Arg)
  {
  }

  /** The kernel is written out as a module: every name defined once, every branch resolved. */
  lemma AttentionIsModule(tile: nat)
    ensures LowerKernel(AttentionBlocks(tile)).Some?
    ensures IsModule(SPELLING.Module(LowerKernel(AttentionBlocks(tile)).value), "%arg")
  {
    hide AttentionBlocks, LowerKernel, Lowered, GoodNames, IsModule;
    RenderingSucceeds(tile);
    AttentionGoodNames(tile);
    TextIsModule(SPELLING, AttentionBlocks(tile), LowerKernel(AttentionBlocks(tile)).value, Arg);
  }

  // ----- the module as a launch -----

  /** The module text's blocks for the fixed kernel. */
  function RenderedBlocks(): (r: seq<MBlock<Reg, Label>>)
    ensures Lowered(AttentionBlocks(TILE), r)
  {
    RenderingSucceeds(TILE);
    LowerKernel(AttentionBlocks(TILE)).value
  }

  function MStart(): MState<Reg, Label> {
    MAt(Entry, 0, map[Orig(Arg) := START_ENV[Arg]])
  }

  function RenderedStart(): TState {
    MAt("entry", 0, map["%arg" := START_ENV[Arg]])
  }

  function Contexts(fm: Floats.FloatModel, run: R.AttentionRun, gridX: nat): nat -> Context
    requires gridX > 0
  {
    (t: nat) => DeviceContext(JobAt(fm, run, gridX, t))
  }

  /** Threads of the emitted module, names written out, on the grid of a plan. */
  function RenderedSystem(fm: Floats.FloatModel, run: R.AttentionRun, gridX: nat): System<TThread>
    requires gridX > 0
  {
    TargetSystem(SPELLING.Module(RenderedBlocks()), Contexts(fm, run, gridX), RenderedStart())
  }

  lemma MExecSame<N(!new), L(!new)>(ctx: Context, a: Memory, b: Memory, env: map<N, Val>, op: MlirOp<N, L>)
    requires SameReadable(a, b)
    ensures MExec(ctx, a, env, op) == MExec(ctx, b, env, op)
  {
    hide ExecOp;
    if op.Plain? {
      ExecSame(ctx, a, b, env, op.op);
    }
  }

  lemma MStepSame<N(!new), L(!new)>(k: MlirKernel<N, L>, a: Memory, b: Memory, s: MlirState<N, L>)
    requires SameReadable(a, b)
    ensures MStep(k, a, s) == MStep(k, b, s)
  {
    hide MExec, SameReadable, MLeave;
    if s.MAt? {
      var blk := MLookup(k.blocks, s.block);
      if blk.Some? && s.pc < |blk.value.ops| {
        MExecSame(k.ctx, a, b, s.env, blk.value.ops[s.pc]);
      }
    }
  }

  lemma MStepStores<N(!new), L(!new)>(k: MlirKernel<N, L>, mem: Memory, s: MlirState<N, L>)
    requires MStep(k, mem, s).1.Stored?
    ensures CanStore(mem, AddrV(MStep(k, mem, s).1.obj, MStep(k, mem, s).1.off))
  {
    hide ExecOp, MLeave;
    var op := MLookup(k.blocks, s.block).value.ops[s.pc];
    assert op.Plain?;
    ExecStores(k.ctx, mem, s.env, op.op);
  }

  lemma MDoneStays<N(!new), L(!new)>(k: MlirKernel<N, L>, m: Memory, s: MlirThread<N, L>)
    requires s.state.MDone?
    ensures MAdvance(k, m, s) == s && MStep(k, m, s.state).1 == Silent
  {
  }

  lemma MAdvanceLogs<N(!new), L(!new)>(k: MlirKernel<N, L>, m: Memory, s: MlirThread<N, L>)
    ensures MAdvance(k, m, s).log == Record(s.log, MStep(k, m, s.state).1)
  {
    hide MStep;
  }

  lemma {:induction false} RenderedSound<N(!new), L(!new)>(mblocks: seq<MlirBlock<N, L>>, ctx: nat -> Context, start: MlirState<N, L>)
    ensures Sound(TargetSystem(mblocks, ctx, start))
  {
    hide SameReadable, MStep, CanStore;
    var sys := TargetSystem(mblocks, ctx, start);
    forall t: nat, m, m', s: MlirThread<N, L> | SameReadable(m, m') ensures sys.step(t, m, s) == sys.step(t, m', s) {
      MStepSame(MKernel(mblocks, ctx(t)), m, m', s.state);
    }
    forall t: nat, m, s: MlirThread<N, L> | sys.step(t, m, s).1.Stored?
      ensures CanStore(m, AddrV(sys.step(t, m, s).1.obj, sys.step(t, m, s).1.off))
    {
      MStepStores(MKernel(mblocks, ctx(t)), m, s.state);
    }
    forall t: nat, m, s: MlirThread<N, L> | sys.done(s) ensures sys.step(t, m, s) == (s, Silent) {
      MDoneStays(MKernel(mblocks, ctx(t)), m, s);
    }
    forall t: nat, m, s: MlirThread<N, L> ensures sys.log(sys.step(t, m, s).0) == Record(sys.log(s), sys.step(t, m, s).1) {
      MAdvanceLogs(MKernel(mblocks, ctx(t)), m, s);
    }
  }

  lemma StartsRelated(fm: Floats.FloatModel)
    ensures StateRel(fm, AttentionBlocks(TILE), StartState().state, MStart())
    ensures SameState(SPELLING, Scope(RenderedBlocks(), Arg), MStart(), RenderedStart())
  {
    hide AttentionBlocks, RenderedBlocks, SameState, Scope, Naming.Name;
    DeviceStart(fm);
    EntryFirst(TILE);
    Spelled();
    StartsSame(SPELLING, AttentionBlocks(TILE), RenderedBlocks(), Arg, START_ENV[Arg]);
  }

  lemma Spelled()
    ensures SPELLING.labelText(Entry) == "entry" && SPELLING.regText(Arg) == "%arg"
  {
  }

  lemma DeviceStart(fm: Floats.FloatModel)
    ensures StateRel(fm, AttentionBlocks(TILE), StartState().state, MStart())
  {
    hide BlockOf, AttentionBlocks;
    BlockFound(Entry, TILE);
  }

  /** On its own, every rendered thread returns with the log expected of it. */
  lemma RenderedThreadEnds(fm: Floats.FloatModel, run: R.AttentionRun, p: P.Plan, t: nat, mem: Memory)
    requires RunsOn(fm, run, p) && p.gridX > 0 && t < ThreadCount(p) && LaunchMemory(run, mem) && R.Accepted(run)
    ensures JobAt(fm, run, p.gridX, t).run == run
    ensures Ends(RenderedSystem(fm, run, p.gridX), t, mem, FinalLog(JobAt(fm, run, p.gridX, t)))
  {
    hide RunsOn, JobAt, FinalLog, Job.Fits, R.Accepted, Reaches, LaunchMemory, Lowered, LowerKernel, AttentionBlocks, Iterate, Alone,
         KernelInScope, Scope, RenderedBlocks, GoodNames;
    JobsFit(fm, run, p, t);
    JobParts(fm, run, p.gridX, t);
    var j := JobAt(fm, run, p.gridX, t);
    ThreadRuns(j, mem);
    var n := DL.StepsOf(j, mem);
    StartsRelated(fm);
    var ctx, blocks, mblocks := Contexts(fm, run, p.gridX), AttentionBlocks(TILE), RenderedBlocks();
    var m := AloneSim(blocks, mblocks, ctx, StartState().state, MStart(), t, mem, n);
    AttentionGoodNames(TILE);
    GoodNamesInScope(SPELLING, blocks, mblocks, Arg);
    AloneSame(SPELLING, Scope(mblocks, Arg), mblocks, ctx, MStart(), RenderedStart(), t, mem, m);
    assert Completes(RenderedSystem(fm, run, p.gridX), t, mem, m, FinalLog(j));
  }

  lemma RenderedParts(fm: Floats.FloatModel, run: R.AttentionRun, gridX: nat)
    requires gridX > 0
    ensures var sys := RenderedSystem(fm, run, gridX);
            Sound(sys) && sys.start == MThread(RenderedStart(), EMPTY_LOG) && sys.log(sys.start) == EMPTY_LOG
  {
    hide Sound, RenderedBlocks, Contexts;
    RenderedSound(SPELLING.Module(RenderedBlocks()), Contexts(fm, run, gridX), RenderedStart());
  }

  /** A launch of the emitted module on any runtime input that fits the compiled plan. */
  lemma RenderedLaunches(fm: Floats.FloatModel, run: R.AttentionRun, p: P.Plan, g0: Global<TThread>)
    requires RunsOn(fm, run, p) && p.gridX > 0 && |g0.threads| == ThreadCount(p) && LaunchMemory(run, g0.mem)
    requires R.Accepted(run)
    requires forall t :: 0 <= t < |g0.threads| ==> g0.threads[t] == MThread(RenderedStart(), EMPTY_LOG)
    ensures Launch(RenderedSystem(fm, run, p.gridX), fm, run, p, g0)
  {
    hide RunsOn, JobAt, FinalLog, R.Accepted, Sound, Ends, RenderedSystem, RenderedStart, LaunchMemory;
    var sys := RenderedSystem(fm, run, p.gridX);
    RenderedParts(fm, run, p.gridX);
    DL.MemorySeparated(run, g0.mem);
    forall t: nat | t < ThreadCount(p)
      ensures JobAt(fm, run, p.gridX, t).run == run && Ends(sys, t, g0.mem, FinalLog(JobAt(fm, run, p.gridX, t)))
    {
      RenderedThreadEnds(fm, run, p, t, g0.mem);
    }
  }

  /** The emitted module computes what the host reference computes, for every runtime shape within the
      compiled one, every accepted input, every initial output buffer and every order of steps. */
  lemma EmittedModuleIsCorrect(fm: Floats.FloatModel, op: P.AttentionOp, c: P.Constraints, run: R.AttentionRun,
                               mem: Memory, out: seq<int>, schedule: seq<nat>) returns (bound: nat)
    requires op.shape.Valid() && P.Compile(op, c).Ok? && fm.Valid()
    requires R.WellTyped(run) && R.Accepted(run) && R.DotsFit(run) && R.IsOutput(fm, run, out)
    requires run.sequence <= op.shape.sequence && run.head_dim <= op.shape.head_dim
    requires run.query_tile == P.Compile(op, c).value.query_tile && LaunchMemory(run, mem)
    ensures var p := P.Compile(op, c).value;
            && p.gridX > 0
            && var sys := RenderedSystem(fm, run, p.gridX);
               var g0 := Global(seq(ThreadCount(p), _ => MThread(RenderedStart(), EMPTY_LOG)), mem);
               && (forall s :: IsSchedule(s, ThreadCount(p)) && IsLive(sys, g0, s) ==> |s| <= bound)
               && (IsSchedule(schedule, ThreadCount(p)) && AllDone(sys, Run(sys, g0, schedule)) ==>
                     Obj(Out) in mem && Run(sys, g0, schedule).mem == mem[Obj(Out) := mem[Obj(Out)].(cells := Cells(out))])
  {
    hide P.Compile, P.Launchable, R.WellTyped, R.Accepted, R.DotsFit, R.IsOutput, LaunchMemory, Launch, Run, AllDone, IsLive,
         RenderedSystem, RenderedStart, Floats.FloatModel.Valid;
    P.CompileExact(op, c);
    var p := P.Compile(op, c).value;
    GridNonempty(p);
    var sys := RenderedSystem(fm, run, p.gridX);
    var g0 := Global(seq(ThreadCount(p), _ => MThread(RenderedStart(), EMPTY_LOG)), mem);
    RenderedLaunches(fm, run, p, g0);
    OwnTileHits(run, p);
    bound := LaunchTerminates(sys, fm, run, p, g0);
    if IsSchedule(schedule, ThreadCount(p)) && AllDone(sys, Run(sys, g0, schedule)) {
      LaunchComputesReference(sys, fm, run, p, g0, schedule, out);
    }
  }

  lemma AllRenderedLaunches(fm: Floats.FloatModel, run: R.AttentionRun, p: P.Plan)
    requires RunsOn(fm, run, p) && p.gridX > 0 && R.Accepted(run)
    ensures AllLaunch(RenderedSystem(fm, run, p.gridX), fm, run, p)
  {
    hide RunsOn, R.Accepted, LaunchMemory, Launch, RenderedSystem, RenderedStart;
    var sys := RenderedSystem(fm, run, p.gridX);
    RenderedParts(fm, run, p.gridX);
    forall mem | LaunchMemory(run, mem) ensures Launch(sys, fm, run, p, Begin(sys, p, mem)) {
      RenderedLaunches(fm, run, p, Begin(sys, p, mem));
    }
  }

  /** With any tile argument: launches of the emitted module always end with the reference output if and only
      if the argument reaches every query row. */
  lemma EmittedCorrectIff(fm: Floats.FloatModel, op: P.AttentionOp, c: P.Constraints, run: R.AttentionRun)
    requires op.shape.Valid() && P.Compile(op, c).Ok? && fm.Valid()
    requires R.WellTyped(run) && R.Accepted(run) && R.DotsFit(run)
    requires run.sequence <= op.shape.sequence && run.head_dim <= op.shape.head_dim
    ensures var p := P.Compile(op, c).value;
            p.gridX > 0
            && (AlwaysReference(RenderedSystem(fm, run, p.gridX), fm, run, p) <==> RowsHit(p.gridX, run.query_tile, run.sequence))
  {
    hide P.Compile, P.Launchable, R.WellTyped, R.Accepted, R.DotsFit, RenderedSystem, Floats.FloatModel.Valid, RowsHit,
         AlwaysReference, AllLaunch;
    P.CompileExact(op, c);
    var p := P.Compile(op, c).value;
    GridNonempty(p);
    AllRenderedLaunches(fm, run, p);
    ReferenceIff(RenderedSystem(fm, run, p.gridX), fm, run, p);
  }
}
