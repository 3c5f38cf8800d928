/** The inner loops of the attention kernel, each as one run along its edges: the three dot products, the
    maximum over keys and the softmax sums. */
module AttentionLoops {
  import opened Options
  import opened Arithmetic
  import Floats
  import opened DeviceIr
  import opened DeviceSemantics
  import opened StraightLine
  import opened AttentionKernel
  import opened AttentionThread
  import R = AttentionReference

  type AThread = Thread<Reg, Label>

  ghost predicate Reaches(j: Job, mem: Memory, a: AThread, b: AThread) {
    Runs(AttentionKernelFor(j), mem, a, b)
  }

  lemma ReachesTrans(j: Job, mem: Memory, a: AThread, b: AThread, c: AThread)
    requires Reaches(j, mem, a, b) && Reaches(j, mem, b, c)
    ensures Reaches(j, mem, a, c)
  {
    RunsTrans(AttentionKernelFor(j), mem, a, b, c);
  }

  /** A visit of a block of the kernel, given its phi values, its walk and its jump. */
  lemma Visit(j: Job, mem: Memory, l: Label, from: Label, e: Env, log: Log, n: nat, phis: Env, g: Frame<Reg>,
              next: ThreadState<Reg, Label>)
    requires var ops := BlockOf(l, TILE).ops;
             && n <= |ops| && (forall i :: 0 <= i < n ==> ops[i].Phi?) && (n < |ops| ==> !ops[n].Phi?)
             && PhiBindings(j.fm, ops[..n], from, e) == Some(phis)
             && Walk(DeviceContext(j), mem, ops, n, Frame(e + phis, log)).At(|ops|, g)
             && Jump(j.fm, BlockOf(l, TILE), g.env) == next
    ensures Reaches(j, mem, Thread(Entering(l, from, e), log), Thread(next, g.log))
  {
    hide BlockOf, PhiBindings, Straight, Jump;
    BlockFound(l, TILE);
    BlockName(l, TILE);
    VisitRuns(AttentionKernelFor(j), mem, BlockOf(l, TILE), from, e, log, n, phis, g);
  }

  lemma JumpIf(fm: Floats.FloatModel, l: Label, e: Env, cond: Reg, c: bool, t: Label, f: Label)
    requires BlockOf(l, TILE).terminator == CondBr(Ref(cond), t, f) && Has(e, cond, BoolV(c))
    ensures Jump(fm, BlockOf(l, TILE), e) == Entering(if c then t else f, l, e)
  {
    BlockName(l, TILE);
    hide BlockOf;
  }

  lemma JumpAlways(fm: Floats.FloatModel, l: Label, e: Env, t: Label)
    requires BlockOf(l, TILE).terminator == Br(t)
    ensures Jump(fm, BlockOf(l, TILE), e) == Entering(t, l, e)
  {
    BlockName(l, TILE);
    hide BlockOf;
  }

  // ----- the dot loops -----

  /** The edge into a dot loop carries the first `n` terms of the dot product with `key`. */
  ghost predicate DotEdge(j: Job, p: Phase, key: nat, from: Label, e: Env, n: nat)
    requires R.Accepted(j.run) && j.QueryRow() < j.run.sequence && key < j.run.sequence && n <= j.run.head_dim
  {
    || (from == OuterOf(p) && n == 0)
    || (from == DotBody(p) && Has(e, DepthNext(p), U(n)) && Has(e, DotNext(p), S(Partial(j, key, n))))
  }

  ghost predicate AtKey(j: Job, mem: Memory, p: Phase, key: nat, e: Env) {
    Ready(j, mem, e) && key < j.run.sequence && Eval(j.fm, e, KeyOf(p), I32) == Some(U(key))
  }

  function DotPhis(j: Job, p: Phase, key: nat, n: nat): Env
    requires R.Accepted(j.run) && j.QueryRow() < j.run.sequence && key < j.run.sequence && n <= j.run.head_dim
  {
    map[Depth(p) := U(n)][Dot(p) := S(Partial(j, key, n))]
  }

  lemma {:induction false} BindTwo(fm: Floats.FloatModel, ops: seq<KOp>, from: Label, e: Env, a: Val, b: Val)
    requires 2 <= |ops| && ops[0].Phi? && ops[1].Phi?
    requires EdgeValue(fm, ops[0], from, e) == Some(a) && EdgeValue(fm, ops[1], from, e) == Some(b)
    ensures PhiBindings(fm, ops[..2], from, e) == Some(map[ops[0].result := a][ops[1].result := b])
  {
    hide EdgeValue;
    BindNone(fm, ops, from, e);
    BindNext(fm, ops, 0, from, e, map[]);
    BindNext(fm, ops, 1, from, e, map[ops[0].result := a]);
  }

  /** What an edge gives a phi with two incoming edges. */
  lemma EdgeOfTwo(fm: Floats.FloatModel, result: Reg, ty: LlvmType, a: PhiIncoming<Reg, Label>, b: PhiIncoming<Reg, Label>,
                  from: Label, e: Env)
    ensures EdgeValue(fm, Phi(result, ty, [a, b]), from, e)
            == (if a.pred == from then Eval(fm, e, a.value, ty)
                else if b.pred == from then Eval(fm, e, b.value, ty) else None)
  {
    hide Eval;
    IncomingOfTwo(a, b, from);
  }

  lemma DotPhiValues(j: Job, p: Phase, key: nat, from: Label, e: Env, n: nat)
    requires j.Fits() && j.QueryRow() < j.run.sequence && key < j.run.sequence && n <= j.run.head_dim
    requires R.Accepted(j.run) && DotEdge(j, p, key, from, e, n)
    ensures PhiBindings(j.fm, DotLoopOps(p)[..2], from, e) == Some(DotPhis(j, p, key, n))
  {
    hide Floats.FloatModel.Valid, R.WellTyped, R.DotsFit, R.Accepted, Partial, FromSigned;
    Literals(j.fm, e);
    PartialFits(j, key, n);
    PartialWord(j, key, n);
    var ops := DotLoopOps(p);
    EdgeOfTwo(j.fm, Depth(p), I32, PhiIncoming(ZERO, OuterOf(p)), PhiIncoming(Ref(DepthNext(p)), DotBody(p)), from, e);
    EdgeOfTwo(j.fm, Dot(p), I32, PhiIncoming(ZERO, OuterOf(p)), PhiIncoming(Ref(DotNext(p)), DotBody(p)), from, e);
    BindTwo(j.fm, ops, from, e, U(n), S(Partial(j, key, n)));
  }

  lemma PartialWord(j: Job, key: nat, n: nat)
    requires j.Fits() && j.QueryRow() < j.run.sequence && key < j.run.sequence && n <= j.run.head_dim
    requires R.Accepted(j.run)
    ensures HasType(S(Partial(j, key, n)), I32) && (n == 0 ==> S(Partial(j, key, n)) == U(0))
    ensures SignedOf(32, S(Partial(j, key, n)).bits) == Partial(j, key, n) && S(Partial(j, key, n)).width == 32
  {
    PartialFits(j, key, n);
    SignedRoundTrip(Partial(j, key, n));
  }

  lemma EvalOf(fm: Floats.FloatModel, e: Env, r: Reg, ty: LlvmType, v: Val)
    requires Has(e, r, v) && HasType(v, ty)
    ensures Eval(fm, e, Ref(r), ty) == Some(v)
  {
  }

  /** What the header of a dot loop leaves behind after `n` terms. */
  ghost predicate DotHead(j: Job, p: Phase, key: nat, e: Env, e': Env, n: nat)
    requires R.Accepted(j.run) && j.QueryRow() < j.run.sequence && key < j.run.sequence && n <= j.run.head_dim
  {
    && Has(e', Depth(p), U(n)) && Has(e', Dot(p), S(Partial(j, key, n)))
    && Has(e', HasDepth(p), BoolV(n < j.run.head_dim))
    && (p.Score0? ==> Has(e', Score0F32, FloatV(j.fm.FromInt(Partial(j, key, n)))))
    && Keeps(p, e, e')
  }

  lemma DotHeadExec(j: Job, mem: Memory, p: Phase, key: nat, e: Env, log: Log, n: nat) returns (e': Env)
    requires Ready(j, mem, e) && R.Accepted(j.run) && key < j.run.sequence && n <= j.run.head_dim
    ensures DotHead(j, p, key, e, e', n)
    ensures Walk(DeviceContext(j), mem, DotLoopOps(p), 2, Frame(e + DotPhis(j, p, key, n), log)).At(
              |DotLoopOps(p)|, Frame(e', log))
  {
    hide Walk.At, Row, LaunchMemory, Job.Fits, Partial, FromSigned, DeviceContext, R.Accepted, Keeps, DotTemp, RowOf;
    DotTemps(p);
    var e1 := e + DotPhis(j, p, key, n);
    var w := Walk(DeviceContext(j), mem, DotLoopOps(p), 2, Frame(e1, log));
    WalkStart(w);
    RowHeadDim(j, e);
    PartialWord(j, key, n);
    assert Eval(j.fm, e1, Ref(Depth(p)), I32) == Some(U(n));
    StepIcmp(w, 2, Frame(e1, log), n, j.run.head_dim);
    var e2 := e1[HasDepth(p) := BoolV(n < j.run.head_dim)];
    PhisKeep(p, e, U(n), S(Partial(j, key, n)));
    UpdateKeeps(p, e, e1, HasDepth(p), BoolV(n < j.run.head_dim));
    e' := e2;
    if p.Score0? {
      var score := FloatV(j.fm.FromInt(Partial(j, key, n)));
      EvalOf(j.fm, e2, Dot(p), I32, S(Partial(j, key, n)));
      StepCast(w, 3, Frame(e2, log), S(Partial(j, key, n)), score);
      UpdateKeeps(p, e, e2, Score0F32, score);
      e' := e2[Score0F32 := score];
    }
  }

  lemma RowHeadDim(j: Job, e: Env)
    requires Row(j, e)
    ensures Has(e, FieldValue(HeadDim), U(j.run.head_dim)) && Has(e, FieldValue(Sequence), U(j.run.sequence))
  {
  }

  lemma PhisKeep(p: Phase, e: Env, a: Val, b: Val)
    ensures Keeps(p, e, e + map[Depth(p) := a][Dot(p) := b])
  {
    hide DotTemp;
    DotTemps(p);
  }

  /** One arrival at the header of a dot loop. */
  lemma DotArrive(j: Job, mem: Memory, p: Phase, key: nat, from: Label, e: Env, log: Log, n: nat) returns (e': Env)
    requires AtKey(j, mem, p, key, e) && R.Accepted(j.run) && n <= j.run.head_dim && DotEdge(j, p, key, from, e, n)
    ensures DotHead(j, p, key, e, e', n)
    ensures Reaches(j, mem, Thread(Entering(DotLoop(p), from, e), log),
                    Thread(Entering(if n < j.run.head_dim then DotBody(p) else AfterDot(p), DotLoop(p), e'), log))
  {
    hide Walk.At, Row, LaunchMemory, Job.Fits, DeviceContext, R.Accepted, DotPhis, Eval, Keeps, Partial, DotEdge, Jump,
         PhiBindings, Reaches;
    DotPhiValues(j, p, key, from, e, n);
    e' := DotHeadExec(j, mem, p, key, e, log, n);
    JumpIf(j.fm, DotLoop(p), e', HasDepth(p), n < j.run.head_dim, DotBody(p), AfterDot(p));
    Visit(j, mem, DotLoop(p), from, e, log, 2, DotPhis(j, p, key, n), Frame(e', log),
          Entering(if n < j.run.head_dim then DotBody(p) else AfterDot(p), DotLoop(p), e'));
  }

  /** One pass through the body of a dot loop. */
  lemma DotBodyRuns(j: Job, mem: Memory, p: Phase, key: nat, e: Env, log: Log, n: nat) returns (e': Env)
    requires AtKey(j, mem, p, key, e) && R.Accepted(j.run) && n < j.run.head_dim
    requires Has(e, Depth(p), U(n)) && Has(e, Dot(p), S(Partial(j, key, n)))
    ensures Keeps(p, e, e') && DotEdge(j, p, key, DotBody(p), e', n + 1)
    ensures Reaches(j, mem, Thread(Entering(DotBody(p), DotLoop(p), e), log),
                    Thread(Entering(DotLoop(p), DotBody(p), e'), Work(log, 1, 2)))
  {
    hide Walk.At, Row, LaunchMemory, Job.Fits, DeviceContext, R.Accepted, Eval, Keeps, Partial, Jump, Reaches, QkDotOps;
    e' := QkDotExec(j, mem, p, key, e, log, n);
    QkDotShape(p, KeyOf(p));
    JumpAlways(j.fm, DotBody(p), e', DotLoop(p));
    BindNone(j.fm, QkDotOps(p, KeyOf(p)), DotLoop(p), e);
    assert e + map[] == e;
    Visit(j, mem, DotBody(p), DotLoop(p), e, log, 0, map[], Frame(e', Work(log, 1, 2)), Entering(DotLoop(p), DotBody(p), e'));
  }

  lemma KeyKept(j: Job, mem: Memory, p: Phase, key: nat, e: Env, e': Env)
    requires AtKey(j, mem, p, key, e) && Keeps(p, e, e')
    ensures AtKey(j, mem, p, key, e')
  {
    hide LaunchMemory, Job.Fits;
    KeepsRow(j, p, e, e');
  }

  /** A whole dot loop: it leaves the exact dot product in the accumulator. */
  lemma {:induction false} DotRuns(j: Job, mem: Memory, p: Phase, key: nat, from: Label, e: Env, log: Log, n: nat)
    returns (e': Env)
    requires AtKey(j, mem, p, key, e) && R.Accepted(j.run) && n <= j.run.head_dim && DotEdge(j, p, key, from, e, n)
    ensures DotHead(j, p, key, e, e', j.run.head_dim)
    ensures Reaches(j, mem, Thread(Entering(DotLoop(p), from, e), log),
                    Thread(Entering(AfterDot(p), DotLoop(p), e'), Work(log, j.run.head_dim - n, 2 * (j.run.head_dim - n))))
    decreases j.run.head_dim - n
  {
    hide Ready, R.Accepted, Eval, Keeps, Partial, DotEdge, Reaches;
    var start := Thread(Entering(DotLoop(p), from, e), log);
    var e1 := DotArrive(j, mem, p, key, from, e, log, n);
    if n == j.run.head_dim {
      e' := e1;
    } else {
      KeyKept(j, mem, p, key, e, e1);
      var e2 := DotBodyRuns(j, mem, p, key, e1, log, n);
      KeyKept(j, mem, p, key, e1, e2);
      e' := DotRuns(j, mem, p, key, DotBody(p), e2, Work(log, 1, 2), n + 1);
      KeepsTrans(p, e, e1, e2);
      KeepsTrans(p, e, e2, e');
      ReachesTrans(j, mem, start, Thread(Entering(DotBody(p), DotLoop(p), e1), log),
                   Thread(Entering(DotLoop(p), DotBody(p), e2), Work(log, 1, 2)));
      ReachesTrans(j, mem, start, Thread(Entering(DotLoop(p), DotBody(p), e2), Work(log, 1, 2)),
                   Thread(Entering(AfterDot(p), DotLoop(p), e'), Work(log, j.run.head_dim - n, 2 * (j.run.head_dim - n))));
    }
  }

  // ----- what survives from one loop to the next -----

  /** Registers every later block of a dimension reads. */
  predicate LiveInDim(r: Reg) {
    r.Base? || r.FieldValue? || r.Query? || r.DimTileEnd? || r.BlockDimX? || r.Dim?
  }

  ghost predicate Same(e: Env, e': Env, live: Reg -> bool) {
    forall r :: r in e && live(r) ==> Has(e', r, e[r])
  }

  lemma InDimSame(j: Job, e: Env, e': Env, dim: nat)
    requires InDim(j, e, dim) && Same(e, e', LiveInDim)
    ensures InDim(j, e', dim)
  {
  }

  lemma KeepsSame(p: Phase, e: Env, e': Env)
    requires Keeps(p, e, e')
    ensures Same(e, e', LiveInDim)
  {
  }

  lemma InDimReady(j: Job, mem: Memory, e: Env, dim: nat)
    requires j.Fits() && LaunchMemory(j.run, mem) && InDim(j, e, dim)
    ensures Ready(j, mem, e) && R.Accepted(j.run)
  {
  }

  /** The row maximum over the first `n` keys. */
  function MaxOf(j: Job, n: nat): Floats.F32
    requires R.Accepted(j.run) && j.QueryRow() < j.run.sequence && n <= j.run.sequence
  {
    R.MaxScore(j.fm, j.run, j.QueryRow(), n)
  }

  function ScoreOf(j: Job, key: nat): Floats.F32
    requires R.Accepted(j.run) && j.QueryRow() < j.run.sequence && key < j.run.sequence
  {
    j.fm.FromInt(Partial(j, key, j.run.head_dim))
  }

  lemma MaxOfFirst(j: Job)
    requires R.Accepted(j.run) && j.QueryRow() < j.run.sequence
    ensures MaxOf(j, 1) == ScoreOf(j, 0)
  {
    hide R.Dot, R.Accepted;
    assert R.MaxScore(j.fm, j.run, j.QueryRow(), 0) == Floats.NegInf;
  }

  /** An ordered-greater select folds one more key into the maximum. */
  lemma MaxOfNext(j: Job, n: nat)
    requires R.Accepted(j.run) && j.QueryRow() < j.run.sequence && 0 < n < j.run.sequence
    ensures MaxOf(j, n + 1) == if Floats.Gt(ScoreOf(j, n), MaxOf(j, n)) then ScoreOf(j, n) else MaxOf(j, n)
  {
    var best := R.MaxScoreAttained(j.fm, j.run, j.QueryRow(), n);
    hide R.Dot, R.Accepted;
  }

  // ----- the maximum over keys -----

  ghost predicate MaxEdge(j: Job, from: Label, e: Env, n: nat)
    requires R.Accepted(j.run) && j.QueryRow() < j.run.sequence && n <= j.run.sequence
  {
    || (from == DotLoop(Score0) && n == 1 && Has(e, Score0F32, FloatV(MaxOf(j, 1))))
    || (from == MaxUpdate && Has(e, MaxKeyNext, U(n)) && Has(e, MaxScoreNext, FloatV(MaxOf(j, n))))
  }

  ghost predicate MaxHead(j: Job, e: Env, n: nat)
    requires R.Accepted(j.run) && j.QueryRow() < j.run.sequence && n <= j.run.sequence
  {
    Has(e, MaxKey, U(n)) && Has(e, MaxScore, FloatV(MaxOf(j, n))) && Has(e, MaxHasKey, BoolV(n < j.run.sequence))
  }

  lemma MaxPhiValues(j: Job, from: Label, e: Env, n: nat)
    requires j.fm.Valid() && R.Accepted(j.run) && j.QueryRow() < j.run.sequence && n <= j.run.sequence
    requires MaxEdge(j, from, e, n)
    ensures PhiBindings(j.fm, MaxKeyLoopOps()[..2], from, e) == Some(map[MaxKey := U(n)][MaxScore := FloatV(MaxOf(j, n))])
  {
    hide Floats.FloatModel.Valid, R.Accepted, MaxOf;
    Literals(j.fm, e);
    EdgeOfTwo(j.fm, MaxKey, I32, PhiIncoming(ONE, DotLoop(Score0)), PhiIncoming(Ref(MaxKeyNext), MaxUpdate), from, e);
    EdgeOfTwo(j.fm, MaxScore, LlvmType.F32, PhiIncoming(Ref(Score0F32), DotLoop(Score0)),
              PhiIncoming(Ref(MaxScoreNext), MaxUpdate), from, e);
    BindTwo(j.fm, MaxKeyLoopOps(), from, e, U(n), FloatV(MaxOf(j, n)));
  }

  lemma MaxArrive(j: Job, mem: Memory, dim: nat, from: Label, e: Env, log: Log, n: nat) returns (e': Env)
    requires j.Fits() && LaunchMemory(j.run, mem) && InDim(j, e, dim) && R.Accepted(j.run)
    requires 0 < n <= j.run.sequence && MaxEdge(j, from, e, n)
    ensures InDim(j, e', dim) && MaxHead(j, e', n)
    ensures Reaches(j, mem, Thread(Entering(MaxKeyLoop, from, e), log),
                    Thread(Entering(if n < j.run.sequence then DotLoop(Max) else SoftmaxKeyLoop, MaxKeyLoop, e'), log))
  {
    hide Walk.At, Row, LaunchMemory, Job.Fits, DeviceContext, R.Accepted, MaxOf, Jump, PhiBindings, Reaches, MaxEdge,
         Floats.FloatModel.Valid;
    FitsBasics(j);
    MaxPhiValues(j, from, e, n);
    var phis := map[MaxKey := U(n)][MaxScore := FloatV(MaxOf(j, n))];
    var w := Walk(DeviceContext(j), mem, MaxKeyLoopOps(), 2, Frame(e + phis, log));
    WalkStart(w);
    RowHeadDim(j, e);
    StepIcmp(w, 2, Frame(e + phis, log), n, j.run.sequence);
    e' := (e + phis)[MaxHasKey := BoolV(n < j.run.sequence)];
    InDimSame(j, e, e', dim);
    JumpIf(j.fm, MaxKeyLoop, e', MaxHasKey, n < j.run.sequence, DotLoop(Max), SoftmaxKeyLoop);
    Visit(j, mem, MaxKeyLoop, from, e, log, 2, phis, Frame(e', log),
          Entering(if n < j.run.sequence then DotLoop(Max) else SoftmaxKeyLoop, MaxKeyLoop, e'));
  }

  /** The four operations of the update, on given scores. */
  lemma MaxUpdateExec(w: Walk<Reg, Label>, e: Env, log: Log, dot: int, cand: Floats.F32, best: Floats.F32, n: nat)
    returns (e': Env)
    requires w.ops == MaxUpdateOps() && w.start == 0 && w.from == Frame(e, log) && w.ctx.fm.Valid()
    requires R.FitsI32(dot) && cand == w.ctx.fm.FromInt(dot)
    requires Has(e, Dot(Max), S(dot)) && Has(e, MaxScore, FloatV(best)) && Has(e, MaxKey, U(n))
    requires IntBinary(Add, 32, n, 1, Wrap) == Some(U(n + 1))
    ensures w.At(4, Frame(e', log)) && Same(e, e', LiveInDim)
    ensures Has(e', MaxKeyNext, U(n + 1)) && Has(e', MaxScoreNext, FloatV(if Floats.Gt(cand, best) then cand else best))
  {
    hide Walk.At, FromSigned, Floats.FloatModel.Valid, Floats.Gt, IntBinary;
    SignedRoundTrip(dot);
    WalkStart(w);
    StepCast(w, 0, w.from, S(dot), FloatV(cand));
    var e1 := e[MaxCandidate := FloatV(cand)];
    StepFcmp(w, 1, Frame(e1, log), cand, best);
    var e2 := e1[MaxIsLarger := BoolV(Floats.Gt(cand, best))];
    StepSelect(w, 2, Frame(e2, log), Floats.Gt(cand, best), FloatV(cand), FloatV(best));
    var e3 := e2[MaxScoreNext := FloatV(if Floats.Gt(cand, best) then cand else best)];
    Literals(w.ctx.fm, e3);
    StepInt(w, 3, Frame(e3, log), n, 1, U(n + 1));
    e' := e3[MaxKeyNext := U(n + 1)];
  }

  lemma MaxUpdateRuns(j: Job, mem: Memory, dim: nat, e: Env, log: Log, n: nat) returns (e': Env)
    requires j.Fits() && LaunchMemory(j.run, mem) && InDim(j, e, dim) && R.Accepted(j.run)
    requires 0 < n < j.run.sequence && MaxHead(j, e, n) && Has(e, Dot(Max), S(Partial(j, n, j.run.head_dim)))
    ensures InDim(j, e', dim) && MaxEdge(j, MaxUpdate, e', n + 1)
    ensures Reaches(j, mem, Thread(Entering(MaxUpdate, DotLoop(Max), e), log), Thread(Entering(MaxKeyLoop, MaxUpdate, e'), log))
  {
    hide Walk.At, Row, LaunchMemory, Job.Fits, DeviceContext, R.Accepted, Partial, MaxOf, Jump, Reaches, FromSigned,
         Floats.FloatModel.Valid, Floats.Gt, IntBinary, Same;
    FitsBasics(j);
    MaxOfNext(j, n);
    PartialFits(j, n, j.run.head_dim);
    KeyUp(j, n);
    e' := MaxUpdateExec(Walk(DeviceContext(j), mem, MaxUpdateOps(), 0, Frame(e, log)), e, log,
                        Partial(j, n, j.run.head_dim), ScoreOf(j, n), MaxOf(j, n), n);
    InDimSame(j, e, e', dim);
    JumpAlways(j.fm, MaxUpdate, e', MaxKeyLoop);
    BindNone(j.fm, MaxUpdateOps(), DotLoop(Max), e);
    assert e + map[] == e;
    Visit(j, mem, MaxUpdate, DotLoop(Max), e, log, 0, map[], Frame(e', log), Entering(MaxKeyLoop, MaxUpdate, e'));
  }

  lemma KeyUp(j: Job, n: nat)
    requires j.Fits() && n < j.run.sequence
    ensures IntBinary(Add, 32, n, 1, Wrap) == Some(U(n + 1)) && n + 1 < I32_LIMIT
  {
    RowsFit(j);
    hide Job.Fits;
    OneMore(n);
  }

  lemma RowsFit(j: Job)
    requires j.Fits()
    ensures j.run.sequence < I32_LIMIT
  {
    hide R.WellTyped, R.DotsFit, Floats.FloatModel.Valid, RowOf;
    MulLe(1, j.run.head_dim, j.run.sequence);
  }

  lemma OneMore(n: nat)
    requires n + 1 < I32_LIMIT
    ensures IntBinary(Add, 32, n, 1, Wrap) == Some(U(n + 1))
  {
  }

  /** `keys` times `per`, as the loops accumulate it. */
  function Total(keys: nat, per: nat): nat {
    if keys == 0 then 0 else per + Total(keys - 1, per)
  }

  lemma {:induction false} TotalIsProduct(keys: nat, per: nat)
    ensures Total(keys, per) == keys * per
  {
    if keys > 0 {
      TotalIsProduct(keys - 1, per);
    }
  }

  /** The keys from `n` on are folded into the maximum; each costs one dot product. */
  lemma {:induction false} MaxRuns(j: Job, mem: Memory, dim: nat, from: Label, e: Env, log: Log, n: nat) returns (e': Env)
    requires j.Fits() && LaunchMemory(j.run, mem) && InDim(j, e, dim) && R.Accepted(j.run)
    requires 0 < n <= j.run.sequence && MaxEdge(j, from, e, n)
    ensures InDim(j, e', dim) && Has(e', MaxScore, FloatV(MaxOf(j, j.run.sequence)))
    ensures var cost := Total(j.run.sequence - n, j.run.head_dim);
            Reaches(j, mem, Thread(Entering(MaxKeyLoop, from, e), log),
                    Thread(Entering(SoftmaxKeyLoop, MaxKeyLoop, e'), Work(log, cost, 2 * cost)))
    decreases j.run.sequence - n
  {
    hide InDim, LaunchMemory, Job.Fits, R.Accepted, MaxOf, Reaches, MaxEdge, Keeps, Partial, DotEdge;
    var start := Thread(Entering(MaxKeyLoop, from, e), log);
    var e1 := MaxArrive(j, mem, dim, from, e, log, n);
    if n == j.run.sequence {
      e' := e1;
    } else {
      var d := j.run.head_dim;
      InDimReady(j, mem, e1, dim);
      AtLoopKey(j, mem, Max, n, e1, dim);
      EdgeZero(j, Max, n, e1);
      var e2 := DotRuns(j, mem, Max, n, MaxKeyLoop, e1, log, 0);
      MaxHeadKept(j, e1, e2, n, dim);
      var log2 := Work(log, d, 2 * d);
      var e3 := MaxUpdateRuns(j, mem, dim, e2, log2, n);
      e' := MaxRuns(j, mem, dim, MaxUpdate, e3, log2, n + 1);
      var cost := Total(j.run.sequence - n, d);
      var rest := Total(j.run.sequence - (n + 1), d);
      assert Work(log2, rest, 2 * rest) == Work(log, cost, 2 * cost);
      ReachesTrans(j, mem, start, Thread(Entering(DotLoop(Max), MaxKeyLoop, e1), log),
                   Thread(Entering(MaxUpdate, DotLoop(Max), e2), log2));
      ReachesTrans(j, mem, start, Thread(Entering(MaxUpdate, DotLoop(Max), e2), log2),
                   Thread(Entering(MaxKeyLoop, MaxUpdate, e3), log2));
      ReachesTrans(j, mem, start, Thread(Entering(MaxKeyLoop, MaxUpdate, e3), log2),
                   Thread(Entering(SoftmaxKeyLoop, MaxKeyLoop, e'), Work(log, cost, 2 * cost)));
    }
  }

  lemma AtLoopKey(j: Job, mem: Memory, p: Phase, key: nat, e: Env, dim: nat)
    requires j.Fits() && LaunchMemory(j.run, mem) && InDim(j, e, dim) && key < j.run.sequence
    requires (p.Score0? && key == 0) || (p.Max? && Has(e, MaxKey, U(key))) || (p.Softmax? && Has(e, SoftmaxKey, U(key)))
    ensures AtKey(j, mem, p, key, e)
  {
    hide LaunchMemory;
    Literals(j.fm, e);
  }

  lemma EdgeZero(j: Job, p: Phase, key: nat, e: Env)
    requires R.Accepted(j.run) && j.QueryRow() < j.run.sequence && key < j.run.sequence
    ensures DotEdge(j, p, key, OuterOf(p), e, 0)
  {
    hide R.Accepted;
  }

  lemma MaxHeadKept(j: Job, e: Env, e': Env, n: nat, dim: nat)
    requires R.Accepted(j.run) && j.QueryRow() < j.run.sequence && n <= j.run.sequence
    requires InDim(j, e, dim) && MaxHead(j, e, n) && Keeps(Max, e, e')
    ensures InDim(j, e', dim) && MaxHead(j, e', n)
  {
    hide R.Accepted, MaxOf;
    KeepsSame(Max, e, e');
    InDimSame(j, e, e', dim);
  }

  // ----- the softmax sums -----

  function DenomOf(j: Job, n: nat): Floats.F32
    requires R.Accepted(j.run) && j.QueryRow() < j.run.sequence && n <= j.run.sequence
  {
    R.Denom(j.fm, j.run, j.QueryRow(), n)
  }

  function NumerOf(j: Job, dim: nat, n: nat): Floats.F32
    requires R.Accepted(j.run) && j.QueryRow() < j.run.sequence && dim < j.run.head_dim && n <= j.run.sequence
  {
    R.Numer(j.fm, j.run, j.QueryRow(), dim, n)
  }

  function WeightOf(j: Job, key: nat): Floats.F32
    requires R.Accepted(j.run) && j.QueryRow() < j.run.sequence && key < j.run.sequence
  {
    j.fm.Exp(j.fm.Sub(ScoreOf(j, key), MaxOf(j, j.run.sequence)))
  }

  lemma SumsNext(j: Job, dim: nat, n: nat)
    requires R.Accepted(j.run) && j.QueryRow() < j.run.sequence && dim < j.run.head_dim && n < j.run.sequence
    ensures DenomOf(j, n + 1) == j.fm.Add(DenomOf(j, n), WeightOf(j, n))
    ensures NumerOf(j, dim, n + 1)
            == j.fm.Add(NumerOf(j, dim, n), j.fm.Mul(WeightOf(j, n), j.fm.FromInt(R.ValueAt(j.run, n, dim))))
  {
    hide R.Dot, R.MaxScore, R.Accepted, R.ValueAt, Floats.FloatModel.Add, Floats.FloatModel.Mul, Floats.FloatModel.Sub,
         Floats.FloatModel.Exp;
  }

  /** Inside the softmax pass: the dimension, and the final row maximum. */
  ghost predicate InSoftmax(j: Job, e: Env, dim: nat)
    requires R.Accepted(j.run) && j.QueryRow() < j.run.sequence
  {
    InDim(j, e, dim) && Has(e, MaxScore, FloatV(MaxOf(j, j.run.sequence)))
  }

  ghost predicate SumsEdge(j: Job, dim: nat, from: Label, e: Env, n: nat)
    requires R.Accepted(j.run) && j.QueryRow() < j.run.sequence && dim < j.run.head_dim && n <= j.run.sequence
  {
    || (from == MaxKeyLoop && n == 0)
    || (from == SoftmaxUpdate && Has(e, SoftmaxKeyNext, U(n)) && Has(e, DenomNext, FloatV(DenomOf(j, n)))
        && Has(e, NumerNext, FloatV(NumerOf(j, dim, n))))
  }

  ghost predicate SumsHead(j: Job, dim: nat, e: Env, n: nat)
    requires R.Accepted(j.run) && j.QueryRow() < j.run.sequence && dim < j.run.head_dim && n <= j.run.sequence
  {
    && Has(e, SoftmaxKey, U(n)) && Has(e, Denom, FloatV(DenomOf(j, n))) && Has(e, Numer, FloatV(NumerOf(j, dim, n)))
    && Has(e, SoftmaxHasKey, BoolV(n < j.run.sequence))
  }

  function SumsPhis(j: Job, dim: nat, n: nat): Env
    requires R.Accepted(j.run) && j.QueryRow() < j.run.sequence && dim < j.run.head_dim && n <= j.run.sequence
  {
    map[SoftmaxKey := U(n)][Denom := FloatV(DenomOf(j, n))][Numer := FloatV(NumerOf(j, dim, n))]
  }

  lemma SumsPhiValues(j: Job, dim: nat, from: Label, e: Env, n: nat)
    requires j.fm.Valid() && R.Accepted(j.run) && j.QueryRow() < j.run.sequence && dim < j.run.head_dim
    requires n <= j.run.sequence && SumsEdge(j, dim, from, e, n)
    ensures PhiBindings(j.fm, SoftmaxKeyLoopOps()[..3], from, e) == Some(SumsPhis(j, dim, n))
  {
    hide Floats.FloatModel.Valid, R.Accepted, R.Weight;
    Literals(j.fm, e);
    var f32 := LlvmType.F32;
    EdgeOfTwo(j.fm, SoftmaxKey, I32, PhiIncoming(ZERO, MaxKeyLoop), PhiIncoming(Ref(SoftmaxKeyNext), SoftmaxUpdate), from, e);
    EdgeOfTwo(j.fm, Denom, f32, PhiIncoming(FZERO, MaxKeyLoop), PhiIncoming(Ref(DenomNext), SoftmaxUpdate), from, e);
    EdgeOfTwo(j.fm, Numer, f32, PhiIncoming(FZERO, MaxKeyLoop), PhiIncoming(Ref(NumerNext), SoftmaxUpdate), from, e);
    var ops := SoftmaxKeyLoopOps();
    BindTwo(j.fm, ops, from, e, U(n), FloatV(DenomOf(j, n)));
    BindNext(j.fm, ops, 2, from, e, map[SoftmaxKey := U(n)][Denom := FloatV(DenomOf(j, n))]);
  }

  lemma SumsCompared(j: Job, e: Env, dim: nat, n: nat)
    requires R.Accepted(j.run) && j.QueryRow() < j.run.sequence && dim < j.run.head_dim && n <= j.run.sequence
    requires InDim(j, e, dim)
    ensures Eval(j.fm, e + SumsPhis(j, dim, n), Ref(SoftmaxKey), I32) == Some(U(n))
    ensures Eval(j.fm, e + SumsPhis(j, dim, n), Ref(FieldValue(Sequence)), I32) == Some(U(j.run.sequence))
  {
    hide R.Accepted, NumerOf, DenomOf;
  }

  lemma SumsHeadHolds(j: Job, e: Env, e': Env, dim: nat, n: nat)
    requires R.Accepted(j.run) && j.QueryRow() < j.run.sequence && dim < j.run.head_dim && n <= j.run.sequence
    requires InSoftmax(j, e, dim)
    requires e' == (e + SumsPhis(j, dim, n))[SoftmaxHasKey := BoolV(n < j.run.sequence)]
    ensures InSoftmax(j, e', dim) && SumsHead(j, dim, e', n) && Has(e', SoftmaxHasKey, BoolV(n < j.run.sequence))
  {
    hide R.Accepted, NumerOf, DenomOf, MaxOf;
  }

  lemma SumsArrive(j: Job, mem: Memory, dim: nat, from: Label, e: Env, log: Log, n: nat) returns (e': Env)
    requires R.Accepted(j.run) && j.QueryRow() < j.run.sequence && dim < j.run.head_dim
    requires j.Fits() && LaunchMemory(j.run, mem) && InSoftmax(j, e, dim)
    requires n <= j.run.sequence && SumsEdge(j, dim, from, e, n)
    ensures InSoftmax(j, e', dim) && SumsHead(j, dim, e', n)
    ensures Reaches(j, mem, Thread(Entering(SoftmaxKeyLoop, from, e), log),
                    Thread(Entering(if n < j.run.sequence then DotLoop(Softmax) else StoreOutput, SoftmaxKeyLoop, e'), log))
  {
    hide Walk.At, Row, LaunchMemory, Job.Fits, DeviceContext, R.Accepted, MaxOf, DenomOf, NumerOf, Jump, PhiBindings,
         Reaches, SumsEdge, Floats.FloatModel.Valid, SumsHead, InDim, SumsPhis, Has;
    FitsBasics(j);
    SumsPhiValues(j, dim, from, e, n);
    var phis := SumsPhis(j, dim, n);
    var w := Walk(DeviceContext(j), mem, SoftmaxKeyLoopOps(), 3, Frame(e + phis, log));
    WalkStart(w);
    SumsCompared(j, e, dim, n);
    StepIcmp(w, 3, Frame(e + phis, log), n, j.run.sequence);
    e' := (e + phis)[SoftmaxHasKey := BoolV(n < j.run.sequence)];
    SumsHeadHolds(j, e, e', dim, n);
    JumpIf(j.fm, SoftmaxKeyLoop, e', SoftmaxHasKey, n < j.run.sequence, DotLoop(Softmax), StoreOutput);
    Visit(j, mem, SoftmaxKeyLoop, from, e, log, 3, phis, Frame(e', log),
          Entering(if n < j.run.sequence then DotLoop(Softmax) else StoreOutput, SoftmaxKeyLoop, e'));
  }

  lemma SoftmaxShape()
    ensures var ops := SoftmaxUpdateOps();
            && |ops| == 14
            && ops[0] == Cast(SoftmaxScore, Sitofp, I32, Ref(Dot(Softmax)), LlvmType.F32)
            && ops[1] == FloatOf(SoftmaxShifted, FSub, Ref(SoftmaxScore), Ref(MaxScore))
            && ops[2] == FloatExp(SoftmaxWeight, LlvmType.F32, Ref(SoftmaxShifted))
            && ops[3..9] == MatrixLoadOps(SoftmaxV, V, Ref(SoftmaxKey), Ref(Dim))
            && ops[9] == Cast(SoftmaxVF32, Sitofp, I32, Ref(LoadedI32(SoftmaxV)), LlvmType.F32)
            && ops[10] == FloatOf(SoftmaxWeightedV, FMul, Ref(SoftmaxWeight), Ref(SoftmaxVF32))
            && ops[11] == FloatOf(DenomNext, FAdd, Ref(Denom), Ref(SoftmaxWeight))
            && ops[12] == FloatOf(NumerNext, FAdd, Ref(Numer), Ref(SoftmaxWeightedV))
            && ops[13] == BinaryOf(SoftmaxKeyNext, Add, Ref(SoftmaxKey), ONE)
  {
    hide MatrixLoadOps;
  }

  function WeightEnv(fm: Floats.FloatModel, e: Env, score: Floats.F32, best: Floats.F32): Env {
    e[SoftmaxScore := FloatV(score)][SoftmaxShifted := FloatV(fm.Sub(score, best))]
     [SoftmaxWeight := FloatV(fm.Exp(fm.Sub(score, best)))]
  }

  /** The weight of a key. */
  lemma WeightExec(w: Walk<Reg, Label>, e: Env, log: Log, dot: int, best: Floats.F32)
    requires w.ops == SoftmaxUpdateOps() && w.start == 0 && w.from == Frame(e, log) && R.FitsI32(dot)
    requires Has(e, Dot(Softmax), S(dot)) && Has(e, MaxScore, FloatV(best))
    ensures w.At(3, Frame(WeightEnv(w.ctx.fm, e, w.ctx.fm.FromInt(dot), best), log))
  {
    hide Walk.At, FromSigned, SoftmaxUpdateOps, MatrixLoadOps, Floats.FloatModel.Exp, Floats.FloatModel.Sub;
    SoftmaxShape();
    SignedRoundTrip(dot);
    WalkStart(w);
    var score := w.ctx.fm.FromInt(dot);
    StepCast(w, 0, w.from, S(dot), FloatV(score));
    var e1 := e[SoftmaxScore := FloatV(score)];
    StepFloat(w, 1, Frame(e1, log), score, best);
    var e2 := e1[SoftmaxShifted := FloatV(w.ctx.fm.Sub(score, best))];
    StepExp(w, 2, Frame(e2, log), w.ctx.fm.Sub(score, best));
  }

  function WeightedEnv(fm: Floats.FloatModel, e: Env, weight: Floats.F32, v: int): Env {
    e[SoftmaxVF32 := FloatV(fm.FromInt(v))][SoftmaxWeightedV := FloatV(fm.Mul(weight, fm.FromInt(v)))]
  }

  lemma WeightedExec(w: Walk<Reg, Label>, e: Env, log: Log, weight: Floats.F32, v: int)
    requires w.ops == SoftmaxUpdateOps() && w.At(9, Frame(e, log)) && R.IsI8(v)
    requires Has(e, SoftmaxWeight, FloatV(weight)) && Has(e, LoadedI32(SoftmaxV), S(v))
    ensures w.At(11, Frame(WeightedEnv(w.ctx.fm, e, weight, v), Work(log, 1, 0)))
  {
    hide Walk.At, FromSigned, SoftmaxUpdateOps, MatrixLoadOps, Floats.FloatModel.Mul;
    SoftmaxShape();
    SignedRoundTrip(v);
    var x := w.ctx.fm.FromInt(v);
    StepCast(w, 9, Frame(e, log), S(v), FloatV(x));
    StepFloat(w, 10, Frame(e[SoftmaxVF32 := FloatV(x)], log), weight, x);
  }

  function SumsEnv(fm: Floats.FloatModel, e: Env, denom: Floats.F32, weight: Floats.F32, numer: Floats.F32,
                   weighted: Floats.F32, n: nat): Env {
    e[DenomNext := FloatV(fm.Add(denom, weight))][NumerNext := FloatV(fm.Add(numer, weighted))][SoftmaxKeyNext := U(n + 1)]
  }

  /** Denominator, numerator and key counter. */
  lemma SumsExec(w: Walk<Reg, Label>, e: Env, log: Log, denom: Floats.F32, weight: Floats.F32, numer: Floats.F32,
                 weighted: Floats.F32, n: nat)
    requires w.ops == SoftmaxUpdateOps() && w.At(11, Frame(e, log)) && w.ctx.fm.Valid()
    requires Has(e, SoftmaxWeight, FloatV(weight)) && Has(e, SoftmaxWeightedV, FloatV(weighted))
    requires Has(e, Denom, FloatV(denom)) && Has(e, Numer, FloatV(numer)) && Has(e, SoftmaxKey, U(n))
    requires IntBinary(Add, 32, n, 1, Wrap) == Some(U(n + 1))
    ensures w.At(14, Frame(SumsEnv(w.ctx.fm, e, denom, weight, numer, weighted, n), log))
  {
    hide Walk.At, FromSigned, SoftmaxUpdateOps, MatrixLoadOps, Floats.FloatModel.Add, IntBinary, Floats.FloatModel.Valid;
    SoftmaxShape();
    StepFloat(w, 11, Frame(e, log), denom, weight);
    var e3 := e[DenomNext := FloatV(w.ctx.fm.Add(denom, weight))];
    StepFloat(w, 12, Frame(e3, log), numer, weighted);
    var e4 := e3[NumerNext := FloatV(w.ctx.fm.Add(numer, weighted))];
    Literals(w.ctx.fm, e4);
    StepInt(w, 13, Frame(e4, log), n, 1, U(n + 1));
  }

  /** Registers of the softmax pass that an update reads after the value load. */
  predicate LiveInSums(r: Reg) {
    LiveInDim(r) || r.SoftmaxKey? || r.Denom? || r.Numer? || r.SoftmaxWeight? || r.MaxScore?
  }

  lemma ValueLoadSame(e: Env, e': Env)
    requires KeepsBut(SoftmaxV, e, e')
    ensures Same(e, e', LiveInSums)
  {
  }

  lemma WeightedSame(fm: Floats.FloatModel, e: Env, weight: Floats.F32, v: int)
    ensures Same(e, WeightedEnv(fm, e, weight, v), LiveInSums)
    ensures Has(WeightedEnv(fm, e, weight, v), SoftmaxWeightedV, FloatV(fm.Mul(weight, fm.FromInt(v))))
  {
    hide Floats.FloatModel.Mul;
  }

  lemma SumsSame(fm: Floats.FloatModel, e: Env, denom: Floats.F32, weight: Floats.F32, numer: Floats.F32,
                 weighted: Floats.F32, n: nat)
    ensures Same(e, SumsEnv(fm, e, denom, weight, numer, weighted, n), LiveInSums)
    ensures var e' := SumsEnv(fm, e, denom, weight, numer, weighted, n);
            Has(e', DenomNext, FloatV(fm.Add(denom, weight))) && Has(e', NumerNext, FloatV(fm.Add(numer, weighted)))
            && Has(e', SoftmaxKeyNext, U(n + 1))
  {
    hide Floats.FloatModel.Add;
  }

  lemma HasSame(e: Env, e': Env, r: Reg, v: Val)
    requires Same(e, e', LiveInSums) && Has(e, r, v) && LiveInSums(r)
    ensures Has(e', r, v)
  {
    hide LiveInSums;
  }

  lemma InSoftmaxSame(j: Job, e: Env, e': Env, dim: nat)
    requires R.Accepted(j.run) && j.QueryRow() < j.run.sequence && InSoftmax(j, e, dim) && Same(e, e', LiveInSums)
    ensures InSoftmax(j, e', dim)
  {
    hide R.Accepted, MaxOf;
  }

  lemma SumsHeadSame(j: Job, e: Env, e': Env, dim: nat, n: nat)
    requires R.Accepted(j.run) && j.QueryRow() < j.run.sequence && dim < j.run.head_dim && n <= j.run.sequence
    requires Same(e, e', LiveInSums) && InSoftmax(j, e, dim)
    requires Has(e, SoftmaxKey, U(n)) && Has(e, Denom, FloatV(DenomOf(j, n))) && Has(e, Numer, FloatV(NumerOf(j, dim, n)))
    ensures InSoftmax(j, e', dim)
    ensures Has(e', SoftmaxKey, U(n)) && Has(e', Denom, FloatV(DenomOf(j, n))) && Has(e', Numer, FloatV(NumerOf(j, dim, n)))
  {
    hide R.Accepted, MaxOf, DenomOf, NumerOf, Same, InSoftmax;
    InSoftmaxSame(j, e, e', dim);
    HasSame(e, e', SoftmaxKey, U(n));
    HasSame(e, e', Denom, FloatV(DenomOf(j, n)));
    HasSame(e, e', Numer, FloatV(NumerOf(j, dim, n)));
  }

  /** What the sums need after the value has been loaded. */
  ghost predicate ValueReady(j: Job, e: Env, dim: nat, n: nat)
    requires R.Accepted(j.run) && j.QueryRow() < j.run.sequence && dim < j.run.head_dim && n < j.run.sequence
  {
    && InSoftmax(j, e, dim) && Has(e, SoftmaxKey, U(n)) && Has(e, Denom, FloatV(DenomOf(j, n)))
    && Has(e, Numer, FloatV(NumerOf(j, dim, n))) && Has(e, SoftmaxWeight, FloatV(WeightOf(j, n)))
  }

  /** Weight and value load: operations 0 to 8 of the update. */
  lemma WeightAndValue(j: Job, mem: Memory, dim: nat, e: Env, log: Log, n: nat) returns (e': Env, v: int)
    requires R.Accepted(j.run) && j.QueryRow() < j.run.sequence && dim < j.run.head_dim
    requires j.Fits() && LaunchMemory(j.run, mem) && InSoftmax(j, e, dim)
    requires n < j.run.sequence && SumsHead(j, dim, e, n) && Has(e, Dot(Softmax), S(Partial(j, n, j.run.head_dim)))
    ensures ValueReady(j, e', dim, n) && R.IsI8(v) && v == R.ValueAt(j.run, n, dim)
    ensures Has(e', LoadedI32(SoftmaxV), S(v))
    ensures Walk(DeviceContext(j), mem, SoftmaxUpdateOps(), 0, Frame(e, log)).At(9, Frame(e', Work(log, 0, 1)))
  {
    hide Walk.At, Row, LaunchMemory, Job.Fits, DeviceContext, R.Accepted, Partial, MaxOf, DenomOf, NumerOf, FromSigned,
         Floats.FloatModel.Valid, Floats.FloatModel.Exp, Floats.FloatModel.Sub, Same, LiveInSums, KeepsBut, WeightEnv,
         SoftmaxUpdateOps, MatrixLoadOps, InDim, Eval, R.ValueAt, R.Index;
    PartialFits(j, n, j.run.head_dim);
    SoftmaxShape();
    var fm := j.fm;
    var w := Walk(DeviceContext(j), mem, SoftmaxUpdateOps(), 0, Frame(e, log));
    var dot, best := Partial(j, n, j.run.head_dim), MaxOf(j, j.run.sequence);
    WeightExec(w, e, log, dot, best);
    var e1 := WeightEnv(fm, e, fm.FromInt(dot), best);
    WeightKept(j, e, dim, n, fm.FromInt(dot), best);
    RowColOperands(j, e1, dim, n);
    e', v := LoadInto(j, mem, e1, log, SoftmaxV, V, Ref(SoftmaxKey), Ref(Dim), n, dim);
    StepMany(w, 3, Frame(e1, log), Walk(w.ctx, mem, MatrixLoadOps(SoftmaxV, V, Ref(SoftmaxKey), Ref(Dim)), 0, Frame(e1, log)),
             Frame(e', Work(log, 0, 1)));
    ValueLoaded(j, n, dim);
    ValueLoadSame(e1, e');
    SumsHeadSame(j, e1, e', dim, n);
    SumsLive();
    HasSame(e1, e', SoftmaxWeight, FloatV(WeightOf(j, n)));
  }

  /** Weight, value load, product and sums: operations 0 to 13 of the update. */
  lemma SoftmaxUpdateExec(j: Job, mem: Memory, dim: nat, e: Env, log: Log, n: nat) returns (e': Env)
    requires R.Accepted(j.run) && j.QueryRow() < j.run.sequence && dim < j.run.head_dim
    requires j.Fits() && LaunchMemory(j.run, mem) && InSoftmax(j, e, dim)
    requires n < j.run.sequence && SumsHead(j, dim, e, n) && Has(e, Dot(Softmax), S(Partial(j, n, j.run.head_dim)))
    ensures InSoftmax(j, e', dim) && SumsEdge(j, dim, SoftmaxUpdate, e', n + 1)
    ensures Walk(DeviceContext(j), mem, SoftmaxUpdateOps(), 0, Frame(e, log)).At(14, Frame(e', Work(log, 1, 1)))
  {
    hide Walk.At, Row, LaunchMemory, Job.Fits, DeviceContext, R.Accepted, Partial, MaxOf, DenomOf, NumerOf, FromSigned,
         Floats.FloatModel.Valid, Floats.FloatModel.Add, Floats.FloatModel.Mul, Floats.FloatModel.Exp, Floats.FloatModel.Sub,
         IntBinary, Same, LiveInSums, WeightedEnv, SumsEnv, SoftmaxUpdateOps, InDim, InSoftmax, SumsHead, R.ValueAt, R.Index;
    var e2, v := WeightAndValue(j, mem, dim, e, log, n);
    FitsBasics(j);
    KeyUp(j, n);
    SumsNext(j, dim, n);
    SumsLive();
    var fm, weight := j.fm, WeightOf(j, n);
    var w := Walk(DeviceContext(j), mem, SoftmaxUpdateOps(), 0, Frame(e, log));
    WeightedExec(w, e2, Work(log, 0, 1), weight, v);
    var e3 := WeightedEnv(fm, e2, weight, v);
    WeightedSame(fm, e2, weight, v);
    SumsHeadSame(j, e2, e3, dim, n);
    HasSame(e2, e3, SoftmaxWeight, FloatV(weight));
    SumsExec(w, e3, Work(log, 1, 1), DenomOf(j, n), weight, NumerOf(j, dim, n), fm.Mul(weight, fm.FromInt(v)), n);
    e' := SumsEnv(fm, e3, DenomOf(j, n), weight, NumerOf(j, dim, n), fm.Mul(weight, fm.FromInt(v)), n);
    SumsSame(fm, e3, DenomOf(j, n), weight, NumerOf(j, dim, n), fm.Mul(weight, fm.FromInt(v)), n);
    InSoftmaxSame(j, e3, e', dim);
  }

  lemma SumsLive()
    ensures LiveInSums(SoftmaxWeight)
  {
  }

  lemma WeightKept(j: Job, e: Env, dim: nat, n: nat, score: Floats.F32, best: Floats.F32)
    requires R.Accepted(j.run) && j.QueryRow() < j.run.sequence && dim < j.run.head_dim && n < j.run.sequence
    requires InSoftmax(j, e, dim) && SumsHead(j, dim, e, n)
    requires score == ScoreOf(j, n) && best == MaxOf(j, j.run.sequence)
    ensures var e1 := WeightEnv(j.fm, e, score, best);
            && InSoftmax(j, e1, dim) && Has(e1, SoftmaxWeight, FloatV(WeightOf(j, n)))
            && Has(e1, SoftmaxKey, U(n)) && Has(e1, Denom, FloatV(DenomOf(j, n)))
            && Has(e1, Numer, FloatV(NumerOf(j, dim, n)))
  {
    hide R.Accepted, MaxOf, DenomOf, NumerOf, Partial, Floats.FloatModel.Exp, Floats.FloatModel.Sub;
  }

  lemma RowColOperands(j: Job, e: Env, dim: nat, n: nat)
    requires InDim(j, e, dim) && Has(e, SoftmaxKey, U(n))
    ensures Row(j, e) && dim < j.run.head_dim
    ensures Eval(j.fm, e, Ref(SoftmaxKey), I32) == Some(U(n)) && Eval(j.fm, e, Ref(Dim), I32) == Some(U(dim))
  {
  }

  lemma ValueLoaded(j: Job, n: nat, dim: nat)
    requires R.Accepted(j.run) && n < j.run.sequence && dim < j.run.head_dim
    ensures var i := R.Index(n, dim, j.run.head_dim);
            i < |Source(j.run, V)| && R.ValueAt(j.run, n, dim) == Source(j.run, V)[i]
  {
    R.IndexInRange(n, dim, j.run.sequence, j.run.head_dim);
  }
}
