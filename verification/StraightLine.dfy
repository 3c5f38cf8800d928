/** Executing a stretch of a block, and a whole visit of a block, as single big steps. */
module StraightLine {
  import opened Options
  import opened Floats
  import opened DeviceIr
  import opened DeviceSemantics

  datatype Frame<R> = Frame(env: map<R, Val>, log: Log)

  function ExecFrame<R, L>(ctx: Context, mem: Memory, f: Option<Frame<R>>, op: Op<R, L>): Option<Frame<R>> {
    if f.None? then None
    else match ExecOp(ctx, mem, f.value.env, op)
      case Trap => None
      case Next(env, e) => Some(Frame(env, Record(f.value.log, e)))
  }

  /** Operations `i..j` in sequence. */
  function Straight<R, L>(ctx: Context, mem: Memory, ops: seq<Op<R, L>>, i: nat, j: nat, f: Frame<R>): Option<Frame<R>>
    requires i <= j <= |ops|
  {
    if i == j then Some(f) else ExecFrame(ctx, mem, Straight(ctx, mem, ops, i, j - 1, f), ops[j - 1])
  }

  lemma {:induction false} StraightAppend<R, L>(ctx: Context, mem: Memory, ops: seq<Op<R, L>>, i: nat, j: nat, k: nat,
                                                f: Frame<R>)
    requires i <= j <= k <= |ops| && Straight(ctx, mem, ops, i, j, f).Some?
    ensures Straight(ctx, mem, ops, i, k, f) == Straight(ctx, mem, ops, j, k, Straight(ctx, mem, ops, i, j, f).value)
  {
    hide ExecFrame;
    if j < k {
      StraightAppend(ctx, mem, ops, i, j, k - 1, f);
    }
  }

  lemma {:induction false} StraightSlice<R, L>(ctx: Context, mem: Memory, ops: seq<Op<R, L>>, i: nat, sub: seq<Op<R, L>>,
                                               n: nat, f: Frame<R>)
    requires n <= |sub| && i + n <= |ops| && forall m :: 0 <= m < n ==> ops[i + m] == sub[m]
    ensures Straight(ctx, mem, ops, i, i + n, f) == Straight(ctx, mem, sub, 0, n, f)
  {
    hide ExecFrame;
    if n > 0 {
      StraightSlice(ctx, mem, ops, i, sub, n - 1, f);
      assert ops[i + (n - 1)] == sub[n - 1];
    }
  }

  // ----- walking along a block one operation at a time -----

  /** A walk starts at operation `start` with frame `from`; it is at `(j, g)` once operations
      `start..j` have turned `from` into `g`. */
  datatype Walk<R, L> = Walk(ctx: Context, mem: Memory, ops: seq<Op<R, L>>, start: nat, from: Frame<R>) {
    ghost predicate At(j: nat, g: Frame<R>) {
      start <= j <= |ops| && Straight(ctx, mem, ops, start, j, from) == Some(g)
    }
  }

  lemma WalkStart<R, L>(w: Walk<R, L>)
    requires w.start <= |w.ops|
    ensures w.At(w.start, w.from)
  {
  }

  lemma StepAny<R, L>(w: Walk<R, L>, j: nat, g: Frame<R>, env: map<R, Val>, e: Effect)
    requires w.At(j, g) && j < |w.ops| && ExecOp(w.ctx, w.mem, g.env, w.ops[j]) == Next(env, e)
    ensures w.At(j + 1, Frame(env, Record(g.log, e)))
  {
    hide ExecOp;
  }

  lemma StepInt<R, L>(w: Walk<R, L>, j: nat, g: Frame<R>, a: nat, b: nat, v: Val)
    requires w.At(j, g) && j < |w.ops| && w.ops[j].Binary?
    requires var op := w.ops[j];
             && Eval(w.ctx.fm, g.env, op.lhs, op.ty) == Some(IntV(Width(op.ty), a))
             && Eval(w.ctx.fm, g.env, op.rhs, op.ty) == Some(IntV(Width(op.ty), b))
             && IntBinary(op.op, Width(op.ty), a, b, op.overflow) == Some(v)
    ensures var op := w.ops[j];
            w.At(j + 1, Frame(g.env[op.result := v],
                              Record(g.log, if op.op.Mul? && op.overflow.Nsw? then Mac else Silent)))
  {
    hide IntBinary, Walk.At;
    var op := w.ops[j];
    StepAny(w, j, g, g.env[op.result := v], if op.op.Mul? && op.overflow.Nsw? then Mac else Silent);
  }

  lemma StepFloat<R, L>(w: Walk<R, L>, j: nat, g: Frame<R>, a: Floats.F32, b: Floats.F32)
    requires w.At(j, g) && j < |w.ops| && w.ops[j].FloatBinary?
    requires var op := w.ops[j];
             && Eval(w.ctx.fm, g.env, op.lhs, op.ty) == Some(FloatV(a))
             && Eval(w.ctx.fm, g.env, op.rhs, op.ty) == Some(FloatV(b))
    ensures var op := w.ops[j];
            w.At(j + 1, Frame(g.env[op.result := FloatV(FloatBinaryValue(w.ctx.fm, op.fop, a, b))],
                              Record(g.log, if op.fop.FMul? then Mac else Silent)))
  {
    hide FloatBinaryValue, Walk.At;
    var op := w.ops[j];
    StepAny(w, j, g, g.env[op.result := FloatV(FloatBinaryValue(w.ctx.fm, op.fop, a, b))],
            if op.fop.FMul? then Mac else Silent);
  }

  lemma StepIcmp<R, L>(w: Walk<R, L>, j: nat, g: Frame<R>, a: nat, b: nat)
    requires w.At(j, g) && j < |w.ops| && w.ops[j].Icmp?
    requires var op := w.ops[j];
             && Eval(w.ctx.fm, g.env, op.lhs, op.ty) == Some(IntV(Width(op.ty), a))
             && Eval(w.ctx.fm, g.env, op.rhs, op.ty) == Some(IntV(Width(op.ty), b))
    ensures var op := w.ops[j];
            w.At(j + 1, Frame(g.env[op.result := BoolV(if op.ipred.Ult? then a < b else a >= b)], g.log))
  {
    hide Walk.At;
    var op := w.ops[j];
    StepAny(w, j, g, g.env[op.result := BoolV(if op.ipred.Ult? then a < b else a >= b)], Silent);
  }

  lemma StepFcmp<R, L>(w: Walk<R, L>, j: nat, g: Frame<R>, a: Floats.F32, b: Floats.F32)
    requires w.At(j, g) && j < |w.ops| && w.ops[j].Fcmp?
    requires var op := w.ops[j];
             && Eval(w.ctx.fm, g.env, op.lhs, op.ty) == Some(FloatV(a))
             && Eval(w.ctx.fm, g.env, op.rhs, op.ty) == Some(FloatV(b))
    ensures var op := w.ops[j];
            w.At(j + 1, Frame(g.env[op.result := BoolV(if op.fpred.Ogt? then Gt(a, b) else Gt(b, a))], g.log))
  {
    hide Walk.At, Gt;
    var op := w.ops[j];
    StepAny(w, j, g, g.env[op.result := BoolV(if op.fpred.Ogt? then Gt(a, b) else Gt(b, a))], Silent);
  }

  lemma StepSelect<R, L>(w: Walk<R, L>, j: nat, g: Frame<R>, c: bool, a: Val, b: Val)
    requires w.At(j, g) && j < |w.ops| && w.ops[j].Select?
    requires var op := w.ops[j];
             && Eval(w.ctx.fm, g.env, op.cond, I1) == Some(BoolV(c))
             && Eval(w.ctx.fm, g.env, op.trueValue, op.ty) == Some(a)
             && Eval(w.ctx.fm, g.env, op.falseValue, op.ty) == Some(b)
    ensures w.At(j + 1, Frame(g.env[w.ops[j].result := if c then a else b], g.log))
  {
    hide Walk.At;
    StepAny(w, j, g, g.env[w.ops[j].result := if c then a else b], Silent);
  }

  lemma StepExp<R, L>(w: Walk<R, L>, j: nat, g: Frame<R>, a: Floats.F32)
    requires w.At(j, g) && j < |w.ops| && w.ops[j].FloatExp?
    requires Eval(w.ctx.fm, g.env, w.ops[j].value, w.ops[j].ty) == Some(FloatV(a))
    ensures w.At(j + 1, Frame(g.env[w.ops[j].result := FloatV(w.ctx.fm.Exp(a))], g.log))
  {
    hide Walk.At;
    StepAny(w, j, g, g.env[w.ops[j].result := FloatV(w.ctx.fm.Exp(a))], Silent);
  }

  lemma StepCast<R, L>(w: Walk<R, L>, j: nat, g: Frame<R>, a: Val, v: Val)
    requires w.At(j, g) && j < |w.ops| && w.ops[j].Cast?
    requires var op := w.ops[j];
             && Eval(w.ctx.fm, g.env, op.value, op.fromTy) == Some(a)
             && CastValue(w.ctx.fm, op.kind, a, op.toTy) == Some(v)
    ensures w.At(j + 1, Frame(g.env[w.ops[j].result := v], g.log))
  {
    hide Walk.At, CastValue;
    StepAny(w, j, g, g.env[w.ops[j].result := v], Silent);
  }

  lemma StepGep<R, L>(w: Walk<R, L>, j: nat, g: Frame<R>, obj: nat, index: nat)
    requires w.At(j, g) && j < |w.ops| && w.ops[j].Gep? && w.ops[j].elementTy == I8
    requires var op := w.ops[j];
             && op.base in g.env && g.env[op.base] == AddrV(obj, 0) && obj in w.mem
             && Eval(w.ctx.fm, g.env, op.index, I64) == Some(IntV(64, index))
             && index <= |w.mem[obj].cells| && index < 0x8000_0000
    ensures w.At(j + 1, Frame(g.env[w.ops[j].result := AddrV(obj, index)], g.log))
  {
    hide Walk.At;
    StepAny(w, j, g, g.env[w.ops[j].result := AddrV(obj, index)], Silent);
  }

  lemma StepLoad<R, L>(w: Walk<R, L>, j: nat, g: Frame<R>, obj: nat, off: nat)
    requires w.At(j, g) && j < |w.ops| && w.ops[j].Load?
    requires var op := w.ops[j];
             && op.ptr in g.env && g.env[op.ptr] == AddrV(obj, off)
             && obj in w.mem && w.mem[obj].readable && off < |w.mem[obj].cells|
             && HasType(w.mem[obj].cells[off], op.ty)
    ensures w.At(j + 1, Frame(g.env[w.ops[j].result := w.mem[obj].cells[off]],
                              Record(g.log, Loaded(obj, off, w.ops[j].ty))))
  {
    hide Walk.At;
    StepAny(w, j, g, g.env[w.ops[j].result := w.mem[obj].cells[off]], Loaded(obj, off, w.ops[j].ty));
  }

  lemma StepStore<R, L>(w: Walk<R, L>, j: nat, g: Frame<R>, obj: nat, off: nat, v: Val)
    requires w.At(j, g) && j < |w.ops| && w.ops[j].Store?
    requires var op := w.ops[j];
             && op.ptr in g.env && g.env[op.ptr] == AddrV(obj, off)
             && obj in w.mem && w.mem[obj].writable && off < |w.mem[obj].cells|
             && Eval(w.ctx.fm, g.env, op.value, op.ty) == Some(v)
    ensures w.At(j + 1, Frame(g.env, Record(g.log, Stored(obj, off, v))))
  {
    hide Walk.At;
    StepAny(w, j, g, g.env, Stored(obj, off, v));
  }

  lemma StepFieldPtr<R, L>(w: Walk<R, L>, j: nat, g: Frame<R>, obj: nat)
    requires w.At(j, g) && j < |w.ops| && w.ops[j].StructFieldPtr?
    requires w.ops[j].base in g.env && g.env[w.ops[j].base] == AddrV(obj, 0)
    ensures w.At(j + 1, Frame(g.env[w.ops[j].result := AddrV(obj, w.ops[j].field)], g.log))
  {
    hide Walk.At;
    StepAny(w, j, g, g.env[w.ops[j].result := AddrV(obj, w.ops[j].field)], Silent);
  }

  lemma StepIntToPtr<R, L>(w: Walk<R, L>, j: nat, g: Frame<R>, obj: nat)
    requires w.At(j, g) && j < |w.ops| && w.ops[j].IntToPtr?
    requires Eval(w.ctx.fm, g.env, w.ops[j].value, w.ops[j].ty) == Some(AddrV(obj, 0))
    ensures w.At(j + 1, Frame(g.env[w.ops[j].result := AddrV(obj, 0)], g.log))
  {
    hide Walk.At;
    StepAny(w, j, g, g.env[w.ops[j].result := AddrV(obj, 0)], Silent);
  }

  lemma StepCsr<R, L>(w: Walk<R, L>, j: nat, g: Frame<R>, n: nat)
    requires w.At(j, g) && j < |w.ops| && w.ops[j].CtaCsrI32?
    requires var op := w.ops[j];
             && op.csr.Encoded() in w.ctx.csr && w.ctx.csr[op.csr.Encoded()] == n && n < 0x1_0000_0000
    ensures var op := w.ops[j];
            var raw32 := if op.uniform && op.raw32.Some? then op.raw32.value else op.result;
            w.At(j + 1, Frame(g.env[op.raw64 := IntV(64, n)][raw32 := IntV(32, n)][op.result := IntV(32, n)], g.log))
  {
    hide Walk.At;
    var op := w.ops[j];
    var raw32 := if op.uniform && op.raw32.Some? then op.raw32.value else op.result;
    StepAny(w, j, g, g.env[op.raw64 := IntV(64, n)][raw32 := IntV(32, n)][op.result := IntV(32, n)], Silent);
  }

  /** A stretch of operations proved separately. */
  lemma StepMany<R, L>(w: Walk<R, L>, j: nat, g: Frame<R>, sub: Walk<R, L>, h: Frame<R>)
    requires w.At(j, g) && sub.ctx == w.ctx && sub.mem == w.mem && sub.start == 0 && sub.from == g
    requires j + |sub.ops| <= |w.ops| && w.ops[j..j + |sub.ops|] == sub.ops
    requires sub.At(|sub.ops|, h)
    ensures w.At(j + |sub.ops|, h)
  {
    forall m | 0 <= m < |sub.ops| ensures w.ops[j + m] == sub.ops[m] {
      assert w.ops[j..j + |sub.ops|][m] == w.ops[j + m];
    }
    StraightSlice(w.ctx, w.mem, w.ops, j, sub.ops, |sub.ops|, g);
    StraightAppend(w.ctx, w.mem, w.ops, w.start, j, j + |sub.ops|, w.from);
  }

  lemma {:induction false} StraightRuns<R, L>(k: Kernel<R, L>, mem: Memory, b: Block<R, L>, i: nat, j: nat, f: Frame<R>)
    requires Lookup(k.blocks, b.name) == Some(b) && i <= j <= |b.ops|
    requires Straight(k.ctx, mem, b.ops, i, j, f).Some?
    ensures var g := Straight(k.ctx, mem, b.ops, i, j, f).value;
            Runs(k, mem, Thread(At(b.name, i, f.env), f.log), Thread(At(b.name, j, g.env), g.log))
  {
    hide ExecOp;
    var start := Thread(At(b.name, i, f.env), f.log);
    if i == j {
      assert Iterate(k, mem, 0, start) == start;
    } else {
      var h := Straight(k.ctx, mem, b.ops, i, j - 1, f).value;
      var mid := Thread(At(b.name, j - 1, h.env), h.log);
      StraightRuns(k, mem, b, i, j - 1, f);
      RunsOne(k, mem, mid);
      RunsTrans(k, mem, start, mid, Advance(k, mem, mid));
    }
  }

  /** From an operation of a block through its end and out of it. */
  lemma LeaveRuns<R, L>(k: Kernel<R, L>, mem: Memory, b: Block<R, L>, i: nat, f: Frame<R>, g: Frame<R>)
    requires Lookup(k.blocks, b.name) == Some(b) && i <= |b.ops|
    requires Straight(k.ctx, mem, b.ops, i, |b.ops|, f) == Some(g)
    ensures Runs(k, mem, Thread(At(b.name, i, f.env), f.log), Thread(Jump(k.ctx.fm, b, g.env), g.log))
  {
    hide ExecOp;
    var mid := Thread(At(b.name, |b.ops|, g.env), g.log);
    StraightRuns(k, mem, b, i, |b.ops|, f);
    RunsOne(k, mem, mid);
    RunsTrans(k, mem, Thread(At(b.name, i, f.env), f.log), mid, Advance(k, mem, mid));
  }

  /** A whole visit: along an edge into a block with `n` phis, through its operations, and out. */
  lemma VisitRuns<R, L>(k: Kernel<R, L>, mem: Memory, b: Block<R, L>, from: L, env: map<R, Val>, log: Log,
                        n: nat, phis: map<R, Val>, g: Frame<R>)
    requires Lookup(k.blocks, b.name) == Some(b)
    requires n <= |b.ops| && (forall i :: 0 <= i < n ==> b.ops[i].Phi?) && (n < |b.ops| ==> !b.ops[n].Phi?)
    requires PhiBindings(k.ctx.fm, b.ops[..n], from, env) == Some(phis)
    requires Straight(k.ctx, mem, b.ops, n, |b.ops|, Frame(env + phis, log)) == Some(g)
    ensures Runs(k, mem, Thread(Entering(b.name, from, env), log), Thread(Jump(k.ctx.fm, b, g.env), g.log))
  {
    hide ExecOp;
    assert PhiCount(b.ops) == n;
    var start := Thread(Entering(b.name, from, env), log);
    RunsOne(k, mem, start);
    assert Advance(k, mem, start) == Thread(At(b.name, n, env + phis), log);
    LeaveRuns(k, mem, b, n, Frame(env + phis, log), g);
    RunsTrans(k, mem, start, Advance(k, mem, start), Thread(Jump(k.ctx.fm, b, g.env), g.log));
  }

  /** The value an edge gives a phi of two incoming edges. */
  function EdgeValue<R, L(==)>(fm: FloatModel, phi: Op<R, L>, from: L, env: map<R, Val>): Option<Val>
    requires phi.Phi?
  {
    var o := IncomingFor(phi.incoming, from);
    if o.None? then None else Eval(fm, env, o.value, phi.ty)
  }

  lemma IncomingOfTwo<R, L>(a: PhiIncoming<R, L>, b: PhiIncoming<R, L>, from: L)
    ensures IncomingFor([a, b], from)
            == (if a.pred == from then Some(a.value) else if b.pred == from then Some(b.value) else None)
  {
    assert [a, b][1..] == [b];
    assert [b][1..] == [];
    assert IncomingFor([b], from) == (if b.pred == from then Some(b.value) else None);
  }

  lemma {:induction false} BindNone<R, L>(fm: FloatModel, ops: seq<Op<R, L>>, from: L, env: map<R, Val>)
    ensures PhiBindings(fm, ops[..0], from, env) == Some(map[])
  {
  }

  lemma {:induction false} BindNext<R, L>(fm: FloatModel, ops: seq<Op<R, L>>, n: nat, from: L, env: map<R, Val>, m: map<R, Val>)
    requires n < |ops| && forall i :: 0 <= i <= n ==> ops[i].Phi?
    requires PhiBindings(fm, ops[..n], from, env) == Some(m) && EdgeValue(fm, ops[n], from, env).Some?
    ensures PhiBindings(fm, ops[..n + 1], from, env) == Some(m[ops[n].result := EdgeValue(fm, ops[n], from, env).value])
  {
    assert ops[..n + 1][..n] == ops[..n];
  }
}
