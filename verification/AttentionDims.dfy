/** The work for one output dimension, and the strided loop over dimensions. */
module AttentionDims {
  import opened Options
  import Floats
  import opened DeviceIr
  import opened DeviceSemantics
  import opened StraightLine
  import opened AttentionKernel
  import opened AttentionThread
  import opened AttentionLoops
  import opened AttentionRun
  import R = AttentionReference

  lemma StoreRuns(j: Job, mem: Memory, dim: nat, e: Env, log: Log) returns (e': Env)
    requires R.Accepted(j.run) && j.QueryRow() < j.run.sequence && dim < j.run.head_dim
    requires j.Fits() && LaunchMemory(j.run, mem) && InDim(j, e, dim) && SumsHead(j, dim, e, j.run.sequence)
    ensures InDim(j, e', dim) && Has(e', DimNext, U(dim + BLOCK))
    ensures Reaches(j, mem, Thread(Entering(StoreOutput, SoftmaxKeyLoop, e), log),
                    Thread(Entering(DimLoop, StoreOutput, e'), StoreLog(j, dim, log)))
  {
    hide Walk.At, LaunchMemory, Job.Fits, DeviceContext, R.Accepted, InDim, DenomOf, NumerOf, Jump, Reaches, StoreOutputOps,
         StoreLog;
    e' := StoreExec(j, mem, dim, e, log);
    StoreShape();
    JumpAlways(j.fm, StoreOutput, e', DimLoop);
    BindNone(j.fm, StoreOutputOps(), SoftmaxKeyLoop, e);
    assert e + map[] == e;
    Visit(j, mem, StoreOutput, SoftmaxKeyLoop, e, log, 0, map[], Frame(e', StoreLog(j, dim, log)),
          Entering(DimLoop, StoreOutput, e'));
  }

  // ----- one dimension -----

  /** What one dimension costs and stores: two dot products and one value product per key. */
  function DimLog(j: Job, dim: nat, log: Log): Log
    requires R.Accepted(j.run) && j.QueryRow() < j.run.sequence && dim < j.run.head_dim
  {
    var dots := Total(j.run.sequence, j.run.head_dim);
    StoreLog(j, dim, Work(log, 2 * dots + j.run.sequence, 4 * dots + j.run.sequence))
  }

  lemma FirstScore(j: Job, e: Env, e': Env, dim: nat)
    requires R.Accepted(j.run) && j.QueryRow() < j.run.sequence && InDim(j, e, dim)
    requires DotHead(j, Score0, 0, e, e', j.run.head_dim)
    ensures InDim(j, e', dim) && MaxEdge(j, DotLoop(Score0), e', 1)
  {
    hide R.Accepted, MaxOf, Partial, Keeps;
    MaxOfFirst(j);
    KeepsSame(Score0, e, e');
    InDimSame(j, e, e', dim);
  }

  lemma NoSums(j: Job, dim: nat, e: Env)
    requires R.Accepted(j.run) && j.QueryRow() < j.run.sequence && dim < j.run.head_dim
    ensures SumsEdge(j, dim, MaxKeyLoop, e, 0)
  {
    hide R.Accepted;
  }

  /** From the first dot loop of a dimension to the store of its output. */
  lemma DimBodyRuns(j: Job, mem: Memory, dim: nat, e: Env, log: Log) returns (e': Env)
    requires R.Accepted(j.run) && j.QueryRow() < j.run.sequence && dim < j.run.head_dim
    requires j.Fits() && LaunchMemory(j.run, mem) && InDim(j, e, dim)
    ensures InDim(j, e', dim) && Has(e', DimNext, U(dim + BLOCK))
    ensures Reaches(j, mem, Thread(Entering(DotLoop(Score0), DimLoop, e), log),
                    Thread(Entering(DimLoop, StoreOutput, e'), DimLog(j, dim, log)))
  {
    hide LaunchMemory, Job.Fits, R.Accepted, MaxOf, Reaches, SumsEdge, MaxEdge, DotHead, Partial, DotEdge, InDim, SumsHead,
         StoreLog;
    var d, s := j.run.head_dim, j.run.sequence;
    SequenceNonzero(j);
    InDimReady(j, mem, e, dim);
    AtLoopKey(j, mem, Score0, 0, e, dim);
    EdgeZero(j, Score0, 0, e);
    var e1 := DotRuns(j, mem, Score0, 0, DimLoop, e, log, 0);
    var log1 := Work(log, d, 2 * d);
    FirstScore(j, e, e1, dim);
    var e2 := MaxRuns(j, mem, dim, DotLoop(Score0), e1, log1, 1);
    var dots := Total(s, d);
    var log2 := Work(log, dots, 2 * dots);
    NoSums(j, dim, e2);
    var e3 := SumsRuns(j, mem, dim, MaxKeyLoop, e2, log2, 0);
    var log3 := Work(log2, dots + s, 2 * dots + s);
    e' := StoreRuns(j, mem, dim, e3, log3);
    var start := Thread(Entering(DotLoop(Score0), DimLoop, e), log);
    ReachesTrans(j, mem, start, Thread(Entering(MaxKeyLoop, DotLoop(Score0), e1), log1),
                 Thread(Entering(SoftmaxKeyLoop, MaxKeyLoop, e2), log2));
    ReachesTrans(j, mem, start, Thread(Entering(SoftmaxKeyLoop, MaxKeyLoop, e2), log2),
                 Thread(Entering(StoreOutput, SoftmaxKeyLoop, e3), log3));
    ReachesTrans(j, mem, start, Thread(Entering(StoreOutput, SoftmaxKeyLoop, e3), log3),
                 Thread(Entering(DimLoop, StoreOutput, e'), DimLog(j, dim, log)));
  }

  lemma SequenceNonzero(j: Job)
    requires R.Accepted(j.run)
    ensures j.run.sequence > 0 && j.run.head_dim > 0
  {
  }

  // ----- the strided loop -----

  ghost predicate DimEdge(from: Label, e: Env, dim: nat) {
    (from == Entry && Has(e, DimStart, U(dim))) || (from == StoreOutput && Has(e, DimNext, U(dim)))
  }

  lemma DimArrive(j: Job, mem: Memory, from: Label, e: Env, log: Log, dim: nat) returns (e': Env)
    requires j.Fits() && LaunchMemory(j.run, mem) && Row(j, e) && j.QueryRow() < j.run.sequence && DimEdge(from, e, dim)
    ensures Row(j, e') && Has(e', Dim, U(dim))
    ensures Reaches(j, mem, Thread(Entering(DimLoop, from, e), log),
                    Thread(Entering(if dim < j.DimEnd() then DotLoop(Score0) else Exit, DimLoop, e'), log))
  {
    hide Walk.At, LaunchMemory, Job.Fits, DeviceContext, Row, Jump, Reaches, IntBinary;
    var phis := map[Dim := U(dim)];
    DimPhiValue(j, from, e, dim);
    var w := Walk(DeviceContext(j), mem, DimLoopOps(), 1, Frame(e + phis, log));
    WalkStart(w);
    DimCompared(j, e, dim);
    var e1 := e + phis;
    StepIcmp(w, 1, Frame(e1, log), dim, j.run.head_dim);
    var a := dim < j.run.head_dim;
    var e2 := e1[DimLtHead := BoolV(a)];
    StepIcmp(w, 2, Frame(e2, log), dim, j.TileEnd());
    var b := dim < j.TileEnd();
    var e3 := e2[DimLtTileEnd := BoolV(b)];
    AndOfBools(a, b);
    StepInt(w, 3, Frame(e3, log), BoolV(a).bits, BoolV(b).bits, BoolV(a && b));
    e' := e3[HasDim := BoolV(a && b)];
    RowKept(j, e, e', dim, BoolV(a), BoolV(b), BoolV(a && b));
    JumpIf(j.fm, DimLoop, e', HasDim, a && b, DotLoop(Score0), Exit);
    Visit(j, mem, DimLoop, from, e, log, 1, phis, Frame(e', log),
          Entering(if a && b then DotLoop(Score0) else Exit, DimLoop, e'));
  }

  lemma DimPhiValue(j: Job, from: Label, e: Env, dim: nat)
    requires DimEdge(from, e, dim)
    ensures PhiBindings(j.fm, DimLoopOps()[..1], from, e) == Some(map[Dim := U(dim)])
  {
    EdgeOfTwo(j.fm, Dim, I32, PhiIncoming(Ref(DimStart), Entry), PhiIncoming(Ref(DimNext), StoreOutput), from, e);
    BindNone(j.fm, DimLoopOps(), from, e);
    BindNext(j.fm, DimLoopOps(), 0, from, e, map[]);
  }

  lemma DimCompared(j: Job, e: Env, dim: nat)
    requires Row(j, e)
    ensures var e1 := e + map[Dim := U(dim)];
            Has(e1, FieldValue(HeadDim), U(j.run.head_dim)) && Has(e1, DimTileEnd, U(j.TileEnd()))
  {
  }

  lemma AndOfBools(a: bool, b: bool)
    ensures IntBinary(And, 1, BoolV(a).bits, BoolV(b).bits, Wrap) == Some(BoolV(a && b))
  {
    assert BitAnd(1, 1) == 2 * BitAnd(0, 0) + 1;
  }

  lemma RowKept(j: Job, e: Env, e': Env, dim: nat, a: Val, b: Val, c: Val)
    requires Row(j, e)
    requires e' == (e + map[Dim := U(dim)])[DimLtHead := a][DimLtTileEnd := b][HasDim := c]
    ensures Row(j, e') && Has(e', Dim, U(dim))
  {
  }

  /** Everything a thread stores and counts from dimension `dim` on. */
  function RowLog(j: Job, dim: nat, log: Log): Log
    requires R.Accepted(j.run) && j.QueryRow() < j.run.sequence
    decreases j.DimEnd() - dim
  {
    if dim < j.DimEnd() then RowLog(j, dim + BLOCK, DimLog(j, dim, log)) else log
  }

  lemma InDimHere(j: Job, e: Env, dim: nat)
    requires Row(j, e) && Has(e, Dim, U(dim)) && dim < j.DimEnd() && j.QueryRow() < j.run.sequence
    ensures InDim(j, e, dim) && dim < j.run.head_dim
  {
    hide Row;
  }

  lemma InDimRow(j: Job, e: Env, dim: nat)
    requires InDim(j, e, dim)
    ensures Row(j, e)
  {
    hide Row;
  }

  lemma {:induction false} DimRuns(j: Job, mem: Memory, from: Label, e: Env, log: Log, dim: nat) returns (e': Env)
    requires R.Accepted(j.run) && j.QueryRow() < j.run.sequence
    requires j.Fits() && LaunchMemory(j.run, mem) && Row(j, e) && DimEdge(from, e, dim)
    ensures Reaches(j, mem, Thread(Entering(DimLoop, from, e), log), Thread(Entering(Exit, DimLoop, e'), RowLog(j, dim, log)))
    decreases j.DimEnd() - dim
  {
    hide LaunchMemory, Job.Fits, R.Accepted, Reaches, InDim, DimLog, Row;
    var start := Thread(Entering(DimLoop, from, e), log);
    var e1 := DimArrive(j, mem, from, e, log, dim);
    if dim < j.DimEnd() {
      InDimHere(j, e1, dim);
      var e2 := DimBodyRuns(j, mem, dim, e1, log);
      InDimRow(j, e2, dim);
      e' := DimRuns(j, mem, StoreOutput, e2, DimLog(j, dim, log), dim + BLOCK);
      ReachesTrans(j, mem, start, Thread(Entering(DotLoop(Score0), DimLoop, e1), log),
                   Thread(Entering(DimLoop, StoreOutput, e2), DimLog(j, dim, log)));
      ReachesTrans(j, mem, start, Thread(Entering(DimLoop, StoreOutput, e2), DimLog(j, dim, log)),
                   Thread(Entering(Exit, DimLoop, e'), RowLog(j, dim, log)));
    } else {
      e' := e1;
    }
  }

  lemma ExitRuns(j: Job, mem: Memory, from: Label, e: Env, log: Log)
    ensures Reaches(j, mem, Thread(Entering(Exit, from, e), log), Thread(Done, log))
  {
    hide Reaches;
    BindNone(j.fm, BlockOf(Exit, TILE).ops, from, e);
    assert e + map[] == e;
    WalkStart(Walk(DeviceContext(j), mem, BlockOf(Exit, TILE).ops, 0, Frame(e, log)));
    Visit(j, mem, Exit, from, e, log, 0, map[], Frame(e, log), Done);
  }
}
