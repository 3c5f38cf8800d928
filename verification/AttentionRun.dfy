/** The softmax pass over the keys, and the output element it ends in: the quotient clamped, converted and stored. */
module AttentionRun {
  import opened Options
  import Floats
  import opened DeviceIr
  import opened DeviceSemantics
  import opened StraightLine
  import opened AttentionKernel
  import opened AttentionThread
  import opened AttentionLoops
  import R = AttentionReference

  lemma SoftmaxUpdateRuns(j: Job, mem: Memory, dim: nat, e: Env, log: Log, n: nat) returns (e': Env)
    requires R.Accepted(j.run) && j.QueryRow() < j.run.sequence && dim < j.run.head_dim
    requires j.Fits() && LaunchMemory(j.run, mem) && InSoftmax(j, e, dim)
    requires n < j.run.sequence && SumsHead(j, dim, e, n) && Has(e, Dot(Softmax), S(Partial(j, n, j.run.head_dim)))
    ensures InSoftmax(j, e', dim) && SumsEdge(j, dim, SoftmaxUpdate, e', n + 1)
    ensures Reaches(j, mem, Thread(Entering(SoftmaxUpdate, DotLoop(Softmax), e), log),
                    Thread(Entering(SoftmaxKeyLoop, SoftmaxUpdate, e'), Work(log, 1, 1)))
  {
    hide Walk.At, LaunchMemory, Job.Fits, DeviceContext, R.Accepted, InSoftmax, SumsHead, SumsEdge, Partial, Jump, Reaches,
         SoftmaxUpdateOps;
    e' := SoftmaxUpdateExec(j, mem, dim, e, log, n);
    SoftmaxShape();
    JumpAlways(j.fm, SoftmaxUpdate, e', SoftmaxKeyLoop);
    BindNone(j.fm, SoftmaxUpdateOps(), DotLoop(Softmax), e);
    assert e + map[] == e;
    Visit(j, mem, SoftmaxUpdate, DotLoop(Softmax), e, log, 0, map[], Frame(e', Work(log, 1, 1)),
          Entering(SoftmaxKeyLoop, SoftmaxUpdate, e'));
  }

  lemma SumsHeadKept(j: Job, e: Env, e': Env, dim: nat, n: nat)
    requires R.Accepted(j.run) && j.QueryRow() < j.run.sequence && dim < j.run.head_dim && n <= j.run.sequence
    requires InSoftmax(j, e, dim) && SumsHead(j, dim, e, n) && Keeps(Softmax, e, e')
    ensures InSoftmax(j, e', dim) && SumsHead(j, dim, e', n)
  {
    hide R.Accepted, MaxOf, DenomOf, NumerOf;
    KeepsSame(Softmax, e, e');
    InDimSame(j, e, e', dim);
  }

  /** The keys from `n` on are added to denominator and numerator. */
  lemma {:induction false} SumsRuns(j: Job, mem: Memory, dim: nat, from: Label, e: Env, log: Log, n: nat) returns (e': Env)
    requires R.Accepted(j.run) && j.QueryRow() < j.run.sequence && dim < j.run.head_dim
    requires j.Fits() && LaunchMemory(j.run, mem) && InSoftmax(j, e, dim)
    requires n <= j.run.sequence && SumsEdge(j, dim, from, e, n)
    ensures InSoftmax(j, e', dim) && SumsHead(j, dim, e', j.run.sequence)
    ensures var cost, keys := Total(j.run.sequence - n, j.run.head_dim), j.run.sequence - n;
            Reaches(j, mem, Thread(Entering(SoftmaxKeyLoop, from, e), log),
                    Thread(Entering(StoreOutput, SoftmaxKeyLoop, e'), Work(log, cost + keys, 2 * cost + keys)))
    decreases j.run.sequence - n
  {
    hide LaunchMemory, Job.Fits, R.Accepted, MaxOf, Reaches, SumsEdge, Keeps, Partial, DotEdge, InDim, NumerOf, DenomOf;
    var start := Thread(Entering(SoftmaxKeyLoop, from, e), log);
    var e1 := SumsArrive(j, mem, dim, from, e, log, n);
    if n == j.run.sequence {
      e' := e1;
    } else {
      var d := j.run.head_dim;
      InDimReady(j, mem, e1, dim);
      AtLoopKey(j, mem, Softmax, n, e1, dim);
      EdgeZero(j, Softmax, n, e1);
      var e2 := DotRuns(j, mem, Softmax, n, SoftmaxKeyLoop, e1, log, 0);
      SumsHeadKept(j, e1, e2, dim, n);
      var log2 := Work(log, d, 2 * d);
      var log3 := Work(log2, 1, 1);
      var e3 := SoftmaxUpdateRuns(j, mem, dim, e2, log2, n);
      e' := SumsRuns(j, mem, dim, SoftmaxUpdate, e3, log3, n + 1);
      var cost, keys := Total(j.run.sequence - n, d), j.run.sequence - n;
      var end := Thread(Entering(StoreOutput, SoftmaxKeyLoop, e'), Work(log, cost + keys, 2 * cost + keys));
      ReachesTrans(j, mem, start, Thread(Entering(DotLoop(Softmax), SoftmaxKeyLoop, e1), log),
                   Thread(Entering(SoftmaxUpdate, DotLoop(Softmax), e2), log2));
      ReachesTrans(j, mem, start, Thread(Entering(SoftmaxUpdate, DotLoop(Softmax), e2), log2),
                   Thread(Entering(SoftmaxKeyLoop, SoftmaxUpdate, e3), log3));
      ReachesTrans(j, mem, start, Thread(Entering(SoftmaxKeyLoop, SoftmaxUpdate, e3), log3), end);
    }
  }

  // ----- the store -----

  lemma StoreShape()
    ensures var ops := StoreOutputOps();
            && |ops| == 13
            && ops[0] == FloatOf(OutRaw, FDiv, Ref(Numer), Ref(Denom))
            && ops[1] == Fcmp(OutGtMax, Ogt, LlvmType.F32, Ref(OutRaw), Lit(FloatLit(127.0)))
            && ops[2] == Select(OutHi, Ref(OutGtMax), LlvmType.F32, Lit(FloatLit(127.0)), Ref(OutRaw))
            && ops[3] == Fcmp(OutLtMin, Olt, LlvmType.F32, Ref(OutHi), Lit(FloatLit(-128.0)))
            && ops[4] == Select(OutClamped, Ref(OutLtMin), LlvmType.F32, Lit(FloatLit(-128.0)), Ref(OutHi))
            && ops[5] == Cast(OutI32, Fptosi, LlvmType.F32, Ref(OutClamped), I32)
            && ops[6] == Cast(OutI8, Trunc, I32, Ref(OutI32), I8)
            && ops[7..11] == AddressOps(OutStore, Out, Ref(Query), Ref(Dim))
            && ops[11] == Store(I8, Ref(OutI8), CellPtr(OutStore))
            && ops[12] == BinaryOf(DimNext, Add, Ref(Dim), Ref(BlockDimX))
  {
    hide AddressOps;
  }

  function Hi(x: real): real { if x > 127.0 then 127.0 else x }
  function Clamped(x: real): real { if Hi(x) < -128.0 then -128.0 else Hi(x) }

  function HiEnv(e: Env, x: real): Env {
    e[OutRaw := FloatV(Floats.Fin(x))][OutGtMax := BoolV(x > 127.0)][OutHi := FloatV(Floats.Fin(Hi(x)))]
  }

  lemma HiExec(w: Walk<Reg, Label>, e: Env, log: Log, numer: Floats.F32, denom: Floats.F32, x: real)
    requires w.ops == StoreOutputOps() && w.At(0, Frame(e, log)) && w.ctx.fm.Valid()
    requires Has(e, Numer, FloatV(numer)) && Has(e, Denom, FloatV(denom))
    requires w.ctx.fm.Div(numer, denom) == Floats.Fin(x)
    ensures w.At(3, Frame(HiEnv(e, x), log))
  {
    hide Walk.At, StoreOutputOps, AddressOps, Floats.FloatModel.Div, Floats.FloatModel.Valid, EvalLiteral;
    StoreShape();
    StepFloat(w, 0, Frame(e, log), numer, denom);
    var e1 := e[OutRaw := FloatV(Floats.Fin(x))];
    Literals(w.ctx.fm, e1);
    StepFcmp(w, 1, Frame(e1, log), Floats.Fin(x), Floats.Fin(127.0));
    var e2 := e1[OutGtMax := BoolV(x > 127.0)];
    Literals(w.ctx.fm, e2);
    StepSelect(w, 2, Frame(e2, log), x > 127.0, FloatV(Floats.Fin(127.0)), FloatV(Floats.Fin(x)));
  }

  function ClampEnv(e: Env, x: real): Env {
    HiEnv(e, x)[OutLtMin := BoolV(Hi(x) < -128.0)][OutClamped := FloatV(Floats.Fin(Clamped(x)))]
  }

  lemma LoExec(w: Walk<Reg, Label>, e: Env, log: Log, h: real, c: real)
    requires w.ops == StoreOutputOps() && w.At(3, Frame(e, log)) && w.ctx.fm.Valid()
    requires Has(e, OutHi, FloatV(Floats.Fin(h))) && c == if h < -128.0 then -128.0 else h
    ensures w.At(5, Frame(e[OutLtMin := BoolV(h < -128.0)][OutClamped := FloatV(Floats.Fin(c))], log))
  {
    hide Walk.At, StoreOutputOps, AddressOps, Floats.FloatModel.Valid, EvalLiteral;
    StoreShape();
    Literals(w.ctx.fm, e);
    StepFcmp(w, 3, Frame(e, log), Floats.Fin(h), Floats.Fin(-128.0));
    var e4 := e[OutLtMin := BoolV(h < -128.0)];
    Literals(w.ctx.fm, e4);
    StepSelect(w, 4, Frame(e4, log), h < -128.0, FloatV(Floats.Fin(-128.0)), FloatV(Floats.Fin(h)));
  }

  /** Clamping high then low and truncating is the reference's conversion, and it is a byte. */
  lemma ClampedIsReference(fm: Floats.FloatModel, x: real)
    ensures var t := Floats.Trunc(Clamped(x));
            t == R.TruncClamped(Floats.Fin(x)) && R.IsI8(t)
            && CastValue(fm, Fptosi, FloatV(Floats.Fin(Clamped(x))), I32) == Some(S(t))
            && CastValue(fm, Trunc, S(t), I8) == Some(FromSigned(8, t))
  {
    var t := Floats.Trunc(Clamped(x));
    TruncBounds(Clamped(x));
    SignedRoundTrip(t);
    TruncByte(t);
  }

  lemma TruncBounds(y: real)
    requires -128.0 <= y <= 127.0
    ensures R.IsI8(Floats.Trunc(y))
    ensures y == 127.0 ==> Floats.Trunc(y) == 127
    ensures y == -128.0 ==> Floats.Trunc(y) == -128
  {
  }

  lemma TruncByte(t: int)
    requires R.IsI8(t)
    ensures FromSigned(8, S(t).bits) == FromSigned(8, t)
  {
  }

  function ConvertEnv(e: Env, x: real, t: int): Env {
    ClampEnv(e, x)[OutI32 := S(t)][OutI8 := FromSigned(8, t)]
  }

  /** Operations 0 to 6 turn the quotient into the byte the reference computes. */
  lemma ConvertExec(w: Walk<Reg, Label>, e: Env, log: Log, numer: Floats.F32, denom: Floats.F32, x: real, t: int)
    requires w.ops == StoreOutputOps() && w.At(0, Frame(e, log)) && w.ctx.fm.Valid()
    requires Has(e, Numer, FloatV(numer)) && Has(e, Denom, FloatV(denom))
    requires w.ctx.fm.Div(numer, denom) == Floats.Fin(x) && t == R.TruncClamped(Floats.Fin(x))
    ensures w.At(7, Frame(ConvertEnv(e, x, t), log))
  {
    hide Walk.At, StoreOutputOps, AddressOps, Floats.FloatModel.Div, Floats.FloatModel.Valid, EvalLiteral, CastValue,
         FromSigned, R.TruncClamped, Floats.Trunc, HiEnv;
    StoreShape();
    HiExec(w, e, log, numer, denom, x);
    assert Has(HiEnv(e, x), OutHi, FloatV(Floats.Fin(Hi(x)))) by { HiHas(e, x); }
    LoExec(w, HiEnv(e, x), log, Hi(x), Clamped(x));
    var e5 := ClampEnv(e, x);
    ClampedIsReference(w.ctx.fm, x);
    SignedRoundTrip(t);
    StepCast(w, 5, Frame(e5, log), FloatV(Floats.Fin(Clamped(x))), S(t));
    StepCast(w, 6, Frame(e5[OutI32 := S(t)], log), S(t), FromSigned(8, t));
  }

  lemma HiHas(e: Env, x: real)
    ensures Has(HiEnv(e, x), OutHi, FloatV(Floats.Fin(Hi(x))))
  {
  }

  function OutputOf(j: Job, dim: nat): int
    requires R.Accepted(j.run) && j.QueryRow() < j.run.sequence && dim < j.run.head_dim
  {
    R.Output(j.fm, j.run, j.QueryRow(), dim)
  }

  function OutIndex(j: Job, dim: nat): nat {
    R.Index(j.QueryRow(), dim, j.run.head_dim)
  }

  /** The one store of a dimension. */
  function StoreLog(j: Job, dim: nat, log: Log): Log
    requires R.Accepted(j.run) && j.QueryRow() < j.run.sequence && dim < j.run.head_dim
  {
    log.(stores := log.stores + [Write(Obj(Out), OutIndex(j, dim), FromSigned(8, OutputOf(j, dim)))])
  }

  lemma QuotientOf(j: Job, dim: nat) returns (x: real)
    requires j.Fits() && R.Accepted(j.run) && j.QueryRow() < j.run.sequence && dim < j.run.head_dim
    ensures j.fm.Div(NumerOf(j, dim, j.run.sequence), DenomOf(j, j.run.sequence)) == Floats.Fin(x)
    ensures OutputOf(j, dim) == R.TruncClamped(Floats.Fin(x)) && R.IsI8(OutputOf(j, dim))
  {
    hide R.Numer, R.Denom, Floats.FloatModel.Div, R.WellTyped, R.DotsFit, R.Accepted, Floats.FloatModel.Valid, R.TruncClamped;
    R.QuotientFinite(j.fm, j.run, j.QueryRow(), dim);
    x := j.fm.Div(NumerOf(j, dim, j.run.sequence), DenomOf(j, j.run.sequence)).r;
    ClampedIsReference(j.fm, x);
  }

  lemma ConvertSame(e: Env, x: real, t: int)
    ensures Same(e, ConvertEnv(e, x, t), LiveInDim) && Has(ConvertEnv(e, x, t), OutI8, FromSigned(8, t))
  {
    hide FromSigned;
  }

  lemma AddressSame(e: Env, obj: nat, offset: nat, index: nat)
    ensures Same(e, AddressEnv(e, OutStore, obj, offset, index), LiveInDim)
    ensures OutI8 in e ==> Has(AddressEnv(e, OutStore, obj, offset, index), OutI8, e[OutI8])
    ensures Has(AddressEnv(e, OutStore, obj, offset, index), CellPtr(OutStore), AddrV(obj, index))
  {
  }

  lemma DimOperands(j: Job, e: Env, dim: nat)
    requires InDim(j, e, dim)
    ensures Row(j, e) && dim < j.run.head_dim && j.QueryRow() < j.run.sequence
    ensures Eval(j.fm, e, Ref(Query), I32) == Some(U(j.QueryRow())) && Eval(j.fm, e, Ref(Dim), I32) == Some(U(dim))
    ensures Eval(j.fm, e, Ref(BlockDimX), I32) == Some(U(BLOCK))
  {
  }

  lemma DimUp(j: Job, mem: Memory, dim: nat)
    requires j.Fits() && LaunchMemory(j.run, mem) && dim < j.run.head_dim && dim < j.TileEnd()
    requires j.QueryRow() < j.run.sequence
    ensures IntBinary(Add, 32, dim, BLOCK, Wrap) == Some(U(dim + BLOCK))
    ensures Obj(Out) in mem && mem[Obj(Out)].writable && OutIndex(j, dim) < |mem[Obj(Out)].cells|
  {
    hide R.WellTyped, R.DotsFit, Floats.FloatModel.Valid;
    R.IndexInRange(j.QueryRow(), dim, j.run.sequence, j.run.head_dim);
  }

  lemma StoreExec(j: Job, mem: Memory, dim: nat, e: Env, log: Log) returns (e': Env)
    requires R.Accepted(j.run) && j.QueryRow() < j.run.sequence && dim < j.run.head_dim
    requires j.Fits() && LaunchMemory(j.run, mem) && InDim(j, e, dim)
    requires Has(e, Denom, FloatV(DenomOf(j, j.run.sequence))) && Has(e, Numer, FloatV(NumerOf(j, dim, j.run.sequence)))
    ensures InDim(j, e', dim) && Has(e', DimNext, U(dim + BLOCK))
    ensures Walk(DeviceContext(j), mem, StoreOutputOps(), 0, Frame(e, log)).At(13, Frame(e', StoreLog(j, dim, log)))
  {
    hide Walk.At, Row, LaunchMemory, Job.Fits, DeviceContext, R.Accepted, DenomOf, NumerOf, FromSigned, Floats.FloatModel.Valid,
         Floats.FloatModel.Div, IntBinary, Same, ConvertEnv, AddressEnv, StoreOutputOps, AddressOps, InDim, OutputOf,
         R.Index, R.TruncClamped, Eval;
    FitsBasics(j);
    StoreShape();
    var w := Walk(DeviceContext(j), mem, StoreOutputOps(), 0, Frame(e, log));
    WalkStart(w);
    var x := QuotientOf(j, dim);
    var t := OutputOf(j, dim);
    ConvertExec(w, e, log, NumerOf(j, dim, j.run.sequence), DenomOf(j, j.run.sequence), x, t);
    var e1 := ConvertEnv(e, x, t);
    ConvertSame(e, x, t);
    InDimSame(j, e, e1, dim);
    DimOperands(j, e1, dim);
    AddressExec(j, mem, e1, log, OutStore, Out, Ref(Query), Ref(Dim), j.QueryRow(), dim);
    var e2 := AddressEnv(e1, OutStore, Obj(Out), j.QueryRow() * j.run.head_dim, OutIndex(j, dim));
    AddressSame(e1, Obj(Out), j.QueryRow() * j.run.head_dim, OutIndex(j, dim));
    InDimSame(j, e1, e2, dim);
    StepMany(w, 7, Frame(e1, log), Walk(w.ctx, mem, AddressOps(OutStore, Out, Ref(Query), Ref(Dim)), 0, Frame(e1, log)),
             Frame(e2, log));
    DimUp(j, mem, dim);
    SextByte(t);
    EvalOf(j.fm, e2, OutI8, I8, FromSigned(8, t));
    StepStore(w, 11, Frame(e2, log), Obj(Out), OutIndex(j, dim), FromSigned(8, t));
    DimOperands(j, e2, dim);
    StepInt(w, 12, Frame(e2, StoreLog(j, dim, log)), dim, BLOCK, U(dim + BLOCK));
    e' := e2[DimNext := U(dim + BLOCK)];
    DimNextSame(e2, dim + BLOCK);
    InDimSame(j, e2, e', dim);
  }

  lemma DimNextSame(e: Env, n: nat)
    ensures Same(e, e[DimNext := U(n)], LiveInDim)
  {
  }
}
