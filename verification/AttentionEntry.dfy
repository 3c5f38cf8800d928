/** The entry block (arguments, thread coordinates, bounds check) and the run of a whole thread. */
module AttentionEntry {
  import opened Options
  import Floats
  import opened DeviceIr
  import opened DeviceSemantics
  import opened StraightLine
  import opened AttentionKernel
  import opened AttentionThread
  import opened AttentionLoops
  import opened AttentionDims
  import R = AttentionReference

  const START_ENV: Env := map[Arg := AddrV(0, 0)]

  function FieldEnv(e: Env, f: Field, v: Val): Env {
    e[FieldPtr(f) := AddrV(0, FieldIndex(f))][FieldValue(f) := v]
  }

  function ArgCell(run: R.AttentionRun, f: Field): Val {
    match f
    case QAddr => AddrV(Obj(Q), 0) case KAddr => AddrV(Obj(K), 0)
    case VAddr => AddrV(Obj(V), 0) case OutAddr => AddrV(Obj(Out), 0)
    case Sequence => U(run.sequence) case HeadDim => U(run.head_dim)
    case QueryTile => U(run.query_tile) case KeyTile => U(run.key_tile)
  }

  lemma ArgCellStored(run: R.AttentionRun, mem: Memory, f: Field)
    requires LaunchMemory(run, mem)
    ensures 0 in mem && mem[0].readable && FieldIndex(f) < |mem[0].cells| && mem[0].cells[FieldIndex(f)] == ArgCell(run, f)
    ensures HasType(ArgCell(run, f), FieldType(f)) && FieldType(f) != I8
  {
  }

  lemma FieldLoadExec(w: Walk<Reg, Label>, run: R.AttentionRun, e: Env, log: Log, f: Field)
    requires LaunchMemory(run, w.mem) && Has(e, Arg, AddrV(0, 0))
    requires w.start == 0 && w.from == Frame(e, log) && FieldLoad(f) <= w.ops
    ensures w.At(2, Frame(FieldEnv(e, f, ArgCell(run, f)), log))
    ensures Has(FieldEnv(e, f, ArgCell(run, f)), Arg, AddrV(0, 0))
  {
    hide Walk.At, LaunchMemory, ArgCell, FieldType, HasType;
    ArgCellStored(run, w.mem, f);
    WalkStart(w);
    StepFieldPtr(w, 0, Frame(e, log), 0);
    StepLoad(w, 1, Frame(e[FieldPtr(f) := AddrV(0, FieldIndex(f))], log), 0, FieldIndex(f));
  }

  function PointerEnv(e: Env, f: Field): Env
    requires f in {QAddr, KAddr, VAddr, OutAddr}
  {
    FieldEnv(e, f, AddrV(Obj(BufferOf(f)), 0))[Base(BufferOf(f)) := AddrV(Obj(BufferOf(f)), 0)]
  }

  lemma PointerLoadExec(w: Walk<Reg, Label>, run: R.AttentionRun, e: Env, log: Log, f: Field)
    requires f in {QAddr, KAddr, VAddr, OutAddr}
    requires LaunchMemory(run, w.mem) && Has(e, Arg, AddrV(0, 0))
    requires w.start == 0 && w.from == Frame(e, log) && w.ops == PointerLoad(f)
    ensures w.At(3, Frame(PointerEnv(e, f), log)) && Has(PointerEnv(e, f), Arg, AddrV(0, 0))
  {
    hide Walk.At, LaunchMemory;
    FieldLoadExec(w, run, e, log, f);
    StepIntToPtr(w, 2, Frame(FieldEnv(e, f, ArgCell(run, f)), log), Obj(BufferOf(f)));
  }

  function PointersEnv(e: Env): Env {
    PointerEnv(PointerEnv(PointerEnv(PointerEnv(e, QAddr), KAddr), VAddr), OutAddr)
  }

  function ScalarsEnv(run: R.AttentionRun, e: Env): Env {
    FieldEnv(FieldEnv(FieldEnv(FieldEnv(e, Sequence, U(run.sequence)), HeadDim, U(run.head_dim)),
                      QueryTile, U(run.query_tile)), KeyTile, U(run.key_tile))
  }

  lemma EntryShape(tile: nat)
    ensures var ops := EntryOps(tile);
            && |ops| == 31
            && ops[0..3] == PointerLoad(QAddr) && ops[3..6] == PointerLoad(KAddr)
            && ops[6..9] == PointerLoad(VAddr) && ops[9..12] == PointerLoad(OutAddr)
            && ops[12..14] == FieldLoad(Sequence) && ops[14..16] == FieldLoad(HeadDim)
            && ops[16..18] == FieldLoad(QueryTile) && ops[18..20] == FieldLoad(KeyTile)
            && ops[20..30] == CoordinateOps(tile)
            && ops[30] == Icmp(QueryOob, Uge, I32, Ref(Query), Ref(FieldValue(Sequence)))
  {
    hide CoordinateOps;
    assert |CoordinateOps(tile)| == 10 by { CoordinateShape(tile); }
    var ops := EntryOps(tile);
    assert ops[0..3] == PointerLoad(QAddr);
    assert ops[3..6] == PointerLoad(KAddr);
    assert ops[6..9] == PointerLoad(VAddr);
    assert ops[9..12] == PointerLoad(OutAddr);
  }

  lemma CoordinateShape(tile: nat)
    ensures |CoordinateOps(tile)| == 10
  {
  }

  lemma PointersExec(w: Walk<Reg, Label>, run: R.AttentionRun, e: Env, log: Log)
    requires LaunchMemory(run, w.mem) && Has(e, Arg, AddrV(0, 0))
    requires w.start == 0 && w.from == Frame(e, log) && w.ops == EntryOps(TILE)
    ensures w.At(12, Frame(PointersEnv(e), log)) && Has(PointersEnv(e), Arg, AddrV(0, 0))
  {
    hide Walk.At, LaunchMemory, PointerEnv, PointerLoad, EntryOps, FieldLoad, CoordinateOps;
    EntryShape(TILE);
    WalkStart(w);
    PointerLengths();
    var e1 := PointerEnv(e, QAddr);
    var e2 := PointerEnv(e1, KAddr);
    var e3 := PointerEnv(e2, VAddr);
    PointerStep(w, 0, run, e, log, QAddr);
    PointerStep(w, 3, run, e1, log, KAddr);
    PointerStep(w, 6, run, e2, log, VAddr);
    PointerStep(w, 9, run, e3, log, OutAddr);
  }

  lemma PointerLengths()
    ensures forall f :: f in {QAddr, KAddr, VAddr, OutAddr} ==> |PointerLoad(f)| == 3
    ensures forall f :: |FieldLoad(f)| == 2
  {
  }

  lemma PointerStep(w: Walk<Reg, Label>, i: nat, run: R.AttentionRun, e: Env, log: Log, f: Field)
    requires f in {QAddr, KAddr, VAddr, OutAddr}
    requires LaunchMemory(run, w.mem) && Has(e, Arg, AddrV(0, 0)) && w.At(i, Frame(e, log))
    requires i + 3 <= |w.ops| && w.ops[i..i + 3] == PointerLoad(f)
    ensures w.At(i + 3, Frame(PointerEnv(e, f), log)) && Has(PointerEnv(e, f), Arg, AddrV(0, 0))
  {
    hide Walk.At, LaunchMemory, PointerEnv, PointerLoad;
    PointerLengths();
    var sub := Walk(w.ctx, w.mem, PointerLoad(f), 0, Frame(e, log));
    PointerLoadExec(sub, run, e, log, f);
    StepMany(w, i, Frame(e, log), sub, Frame(PointerEnv(e, f), log));
  }

  lemma ScalarStep(w: Walk<Reg, Label>, i: nat, run: R.AttentionRun, e: Env, log: Log, f: Field)
    requires LaunchMemory(run, w.mem) && Has(e, Arg, AddrV(0, 0)) && w.At(i, Frame(e, log))
    requires i + 2 <= |w.ops| && w.ops[i..i + 2] == FieldLoad(f)
    ensures w.At(i + 2, Frame(FieldEnv(e, f, ArgCell(run, f)), log))
    ensures Has(FieldEnv(e, f, ArgCell(run, f)), Arg, AddrV(0, 0))
  {
    hide Walk.At, LaunchMemory, FieldEnv, FieldLoad, ArgCell;
    PointerLengths();
    var sub := Walk(w.ctx, w.mem, FieldLoad(f), 0, Frame(e, log));
    FieldLoadExec(sub, run, e, log, f);
    StepMany(w, i, Frame(e, log), sub, Frame(FieldEnv(e, f, ArgCell(run, f)), log));
  }

  lemma ScalarsExec(w: Walk<Reg, Label>, run: R.AttentionRun, e: Env, log: Log)
    requires LaunchMemory(run, w.mem) && Has(e, Arg, AddrV(0, 0))
    requires w.ops == EntryOps(TILE) && w.At(12, Frame(e, log))
    ensures w.At(20, Frame(ScalarsEnv(run, e), log))
  {
    hide Walk.At, LaunchMemory, FieldEnv, PointerLoad, EntryOps, FieldLoad, CoordinateOps;
    EntryShape(TILE);
    var e1 := FieldEnv(e, Sequence, U(run.sequence));
    var e2 := FieldEnv(e1, HeadDim, U(run.head_dim));
    var e3 := FieldEnv(e2, QueryTile, U(run.query_tile));
    ScalarStep(w, 12, run, e, log, Sequence);
    ScalarStep(w, 14, run, e1, log, HeadDim);
    ScalarStep(w, 16, run, e2, log, QueryTile);
    ScalarStep(w, 18, run, e3, log, KeyTile);
  }

  function CsrEnv(j: Job, e: Env): Env {
    e[BlockX64 := IntV(64, j.bx)][BlockXRaw := U(j.bx)][BlockX := U(j.bx)]
     [BlockZ64 := IntV(64, j.bz)][BlockZRaw := U(j.bz)][BlockZ := U(j.bz)]
     [BlockDimX64 := IntV(64, BLOCK)][BlockDimXRaw := U(BLOCK)][BlockDimX := U(BLOCK)]
     [ThreadX64 := IntV(64, j.tx)][ThreadX := U(j.tx)][ThreadX := U(j.tx)]
     [ThreadY64 := IntV(64, j.ty)][ThreadY := U(j.ty)][ThreadY := U(j.ty)]
  }

  lemma CsrExec(w: Walk<Reg, Label>, j: Job, e: Env, log: Log)
    requires j.Fits() && w.ctx == DeviceContext(j) && w.ops == CoordinateOps(TILE) && w.start == 0 && w.from == Frame(e, log)
    ensures w.At(5, Frame(CsrEnv(j, e), log))
  {
    hide Walk.At, R.WellTyped, R.DotsFit, R.Accepted, Floats.FloatModel.Valid;
    WalkStart(w);
    CsrNumbers(j);
    StepCsr(w, 0, Frame(e, log), j.bx);
    var e1 := e[BlockX64 := IntV(64, j.bx)][BlockXRaw := U(j.bx)][BlockX := U(j.bx)];
    StepCsr(w, 1, Frame(e1, log), j.bz);
    var e2 := e1[BlockZ64 := IntV(64, j.bz)][BlockZRaw := U(j.bz)][BlockZ := U(j.bz)];
    StepCsr(w, 2, Frame(e2, log), BLOCK);
    var e3 := e2[BlockDimX64 := IntV(64, BLOCK)][BlockDimXRaw := U(BLOCK)][BlockDimX := U(BLOCK)];
    StepCsr(w, 3, Frame(e3, log), j.tx);
    var e4 := e3[ThreadX64 := IntV(64, j.tx)][ThreadX := U(j.tx)][ThreadX := U(j.tx)];
    StepCsr(w, 4, Frame(e4, log), j.ty);
  }

  lemma CsrNumbers(j: Job)
    ensures var m := DeviceContext(j).csr;
            && BlockId(X).Encoded() in m && m[BlockId(X).Encoded()] == j.bx
            && BlockId(Z).Encoded() in m && m[BlockId(Z).Encoded()] == j.bz
            && BlockDim(X).Encoded() in m && m[BlockDim(X).Encoded()] == BLOCK
            && ThreadId(X).Encoded() in m && m[ThreadId(X).Encoded()] == j.tx
            && ThreadId(Y).Encoded() in m && m[ThreadId(Y).Encoded()] == j.ty
  {
  }

  function CoordinateEnv(j: Job, e: Env): Env {
    e[QueryBase := U(RowOf(j.run.query_tile, j.bx, 0))][Query := U(j.QueryRow())][DimTileBase := U(j.bz * TILE)]
     [DimStart := U(j.FirstDim())][DimTileEnd := U(j.TileEnd())]
  }

  /** Multiplying and then adding, each wrapping, is wrapping once. */
  lemma RowArithmetic(tile: nat, bx: nat, ty: nat)
    ensures IntBinary(Mul, 32, bx, tile, Wrap) == Some(U(RowOf(tile, bx, 0)))
    ensures IntBinary(Add, 32, RowOf(tile, bx, 0), ty, Wrap) == Some(U(RowOf(tile, bx, ty)))
  {
    WrapOnce(bx * tile, ty);
  }

  lemma WrapOnce(n: nat, k: nat)
    ensures (n % U32_LIMIT + k) % U32_LIMIT == (n + k) % U32_LIMIT
  {
  }

  /** The dimension coordinates do not wrap. */
  lemma CoordinateArithmetic(j: Job)
    requires j.Fits()
    ensures IntBinary(Mul, 32, j.bz, TILE, Wrap) == Some(U(j.bz * TILE))
    ensures IntBinary(Add, 32, j.bz * TILE, j.tx, Wrap) == Some(U(j.FirstDim()))
    ensures IntBinary(Add, 32, j.bz * TILE, TILE, Wrap) == Some(U(j.TileEnd()))
  {
    hide R.WellTyped, R.DotsFit, R.Accepted, Floats.FloatModel.Valid;
  }

  lemma CoordinatesExec(w: Walk<Reg, Label>, j: Job, e: Env, log: Log)
    requires j.Fits() && w.ctx == DeviceContext(j) && w.ops == CoordinateOps(TILE) && w.At(5, Frame(e, log))
    requires Has(e, BlockX, U(j.bx)) && Has(e, BlockZ, U(j.bz)) && Has(e, ThreadX, U(j.tx)) && Has(e, ThreadY, U(j.ty))
    requires Has(e, FieldValue(QueryTile), U(j.run.query_tile))
    ensures w.At(10, Frame(CoordinateEnv(j, e), log))
  {
    hide Walk.At, Job.Fits, IntBinary, DeviceContext, Floats.FloatModel.Valid, EvalLiteral, RowOf;
    FitsBasics(j);
    CoordinateArithmetic(j);
    RowArithmetic(j.run.query_tile, j.bx, j.ty);
    var base := RowOf(j.run.query_tile, j.bx, 0);
    StepInt(w, 5, Frame(e, log), j.bx, j.run.query_tile, U(base));
    var e1 := e[QueryBase := U(base)];
    StepInt(w, 6, Frame(e1, log), base, j.ty, U(j.QueryRow()));
    var e2 := e1[Query := U(j.QueryRow())];
    Literals(j.fm, e2);
    StepInt(w, 7, Frame(e2, log), j.bz, TILE, U(j.bz * TILE));
    var e3 := e2[DimTileBase := U(j.bz * TILE)];
    StepInt(w, 8, Frame(e3, log), j.bz * TILE, j.tx, U(j.FirstDim()));
    var e4 := e3[DimStart := U(j.FirstDim())];
    Literals(j.fm, e4);
    StepInt(w, 9, Frame(e4, log), j.bz * TILE, TILE, U(j.TileEnd()));
  }

  // ----- the registers after the entry block -----

  ghost predicate Pointers(e: Env) {
    && Has(e, Base(Q), AddrV(Obj(Q), 0)) && Has(e, Base(K), AddrV(Obj(K), 0))
    && Has(e, Base(V), AddrV(Obj(V), 0)) && Has(e, Base(Out), AddrV(Obj(Out), 0))
  }

  lemma PointersHold(e: Env)
    ensures Pointers(PointersEnv(e))
  {
  }

  ghost predicate Args(j: Job, e: Env) {
    && Pointers(e) && Has(e, FieldValue(Sequence), U(j.run.sequence)) && Has(e, FieldValue(HeadDim), U(j.run.head_dim))
    && Has(e, FieldValue(QueryTile), U(j.run.query_tile))
  }

  lemma ArgsHold(j: Job, e: Env)
    requires Pointers(e)
    ensures Args(j, ScalarsEnv(j.run, e))
  {
  }

  lemma CsrHold(j: Job, e: Env)
    requires Args(j, e)
    ensures var e' := CsrEnv(j, e);
            && Args(j, e') && Has(e', BlockX, U(j.bx)) && Has(e', BlockZ, U(j.bz)) && Has(e', ThreadX, U(j.tx))
            && Has(e', ThreadY, U(j.ty)) && Has(e', BlockDimX, U(BLOCK))
  {
  }

  lemma CoordinatesHold(j: Job, e: Env, oob: Val)
    requires Args(j, e) && Has(e, BlockDimX, U(BLOCK))
    ensures var e' := CoordinateEnv(j, e);
            && Row(j, e') && Has(e', DimStart, U(j.FirstDim()))
            && Row(j, e'[QueryOob := oob]) && Has(e'[QueryOob := oob], DimStart, U(j.FirstDim()))
  {
  }

  lemma EntryExec(j: Job, mem: Memory, log: Log) returns (e': Env)
    requires j.Fits() && LaunchMemory(j.run, mem)
    ensures Row(j, e') && Has(e', DimStart, U(j.FirstDim())) && Has(e', QueryOob, BoolV(j.QueryRow() >= j.run.sequence))
    ensures Walk(DeviceContext(j), mem, EntryOps(TILE), 0, Frame(START_ENV, log)).At(31, Frame(e', log))
  {
    hide Walk.At, Job.Fits, LaunchMemory, DeviceContext, EntryOps, CoordinateOps, PointersEnv, ScalarsEnv, CsrEnv, CoordinateEnv,
         PointerLoad, FieldLoad, Pointers;
    EntryShape(TILE);
    CoordinateShape(TILE);
    var w := Walk(DeviceContext(j), mem, EntryOps(TILE), 0, Frame(START_ENV, log));
    PointersExec(w, j.run, START_ENV, log);
    var e1 := PointersEnv(START_ENV);
    PointersHold(START_ENV);
    ScalarsExec(w, j.run, e1, log);
    var e2 := ScalarsEnv(j.run, e1);
    ArgsHold(j, e1);
    var sub := Walk(w.ctx, mem, CoordinateOps(TILE), 0, Frame(e2, log));
    CsrExec(sub, j, e2, log);
    var e3 := CsrEnv(j, e2);
    CsrHold(j, e2);
    CoordinatesExec(sub, j, e3, log);
    var e4 := CoordinateEnv(j, e3);
    StepMany(w, 20, Frame(e2, log), sub, Frame(e4, log));
    CoordinatesHold(j, e3, BoolV(j.QueryRow() >= j.run.sequence));
    StepIcmp(w, 30, Frame(e4, log), j.QueryRow(), j.run.sequence);
    e' := e4[QueryOob := BoolV(j.QueryRow() >= j.run.sequence)];
  }

  // ----- the whole thread -----

  function StartState(): AThread {
    Thread(DeviceSemantics.At(Entry, 0, START_ENV), EMPTY_LOG)
  }

  /** Everything a thread stores and counts. */
  function FinalLog(j: Job): Log
    requires R.Accepted(j.run)
  {
    if j.QueryRow() < j.run.sequence then RowLog(j, j.FirstDim(), EMPTY_LOG) else EMPTY_LOG
  }

  lemma EntryRuns(j: Job, mem: Memory) returns (e: Env)
    requires j.Fits() && LaunchMemory(j.run, mem)
    ensures Row(j, e) && DimEdge(Entry, e, j.FirstDim())
    ensures Reaches(j, mem, StartState(),
                    Thread(Entering(if j.QueryRow() < j.run.sequence then DimLoop else Exit, Entry, e), EMPTY_LOG))
  {
    hide Walk.At, Job.Fits, LaunchMemory, DeviceContext, EntryOps, Row, BlockOf, Straight, Jump;
    e := EntryExec(j, mem, EMPTY_LOG);
    EntryBlock();
    EntryShape(TILE);
    BlockFound(Entry, TILE);
    var out := j.QueryRow() >= j.run.sequence;
    JumpIf(j.fm, Entry, e, QueryOob, out, Exit, DimLoop);
    WalkReached(Walk(DeviceContext(j), mem, EntryOps(TILE), 0, Frame(START_ENV, EMPTY_LOG)), 31, Frame(e, EMPTY_LOG));
    LeaveRuns(AttentionKernelFor(j), mem, BlockOf(Entry, TILE), 0, Frame(START_ENV, EMPTY_LOG), Frame(e, EMPTY_LOG));
  }

  lemma EntryBlock()
    ensures BlockOf(Entry, TILE) == Block(Entry, EntryOps(TILE), CondBr(Ref(QueryOob), Exit, DimLoop))
  {
    hide EntryOps;
  }

  lemma WalkReached(w: Walk<Reg, Label>, i: nat, g: Frame<Reg>)
    requires w.At(i, g)
    ensures w.start <= i <= |w.ops| && Straight(w.ctx, w.mem, w.ops, w.start, i, w.from) == Some(g)
  {
    hide Straight;
  }

  /** Run on its own from the entry, every thread returns without trapping, with exactly the expected log. */
  lemma ThreadRuns(j: Job, mem: Memory)
    requires j.Fits() && R.Accepted(j.run) && LaunchMemory(j.run, mem)
    ensures Reaches(j, mem, StartState(), Thread(Done, FinalLog(j)))
  {
    hide Job.Fits, LaunchMemory, Row, R.Accepted, Reaches, DimEdge, RowLog;
    var e := EntryRuns(j, mem);
    if j.QueryRow() < j.run.sequence {
      var e' := DimRuns(j, mem, Entry, e, EMPTY_LOG, j.FirstDim());
      ReachesTrans(j, mem, StartState(), Thread(Entering(DimLoop, Entry, e), EMPTY_LOG),
                   Thread(Entering(Exit, DimLoop, e'), FinalLog(j)));
      ExitRuns(j, mem, DimLoop, e', FinalLog(j));
      ReachesTrans(j, mem, StartState(), Thread(Entering(Exit, DimLoop, e'), FinalLog(j)), Thread(Done, FinalLog(j)));
    } else {
      ExitRuns(j, mem, Entry, e, EMPTY_LOG);
      ReachesTrans(j, mem, StartState(), Thread(Entering(Exit, Entry, e), EMPTY_LOG), Thread(Done, EMPTY_LOG));
    }
  }
}
