/** Rendering to block arguments preserves meaning: operations. */
module PhiLowering {
  import opened Options
  import opened Floats
  import opened DeviceIr
  import opened DeviceSemantics
  import opened MlirForm

  type Env<R(==)> = map<R, Val>
  type MEnv<R(==), L(==)> = map<MName<R, L>, Val>

  /** The original names have the same values in both forms. */
  ghost predicate Rel<R(!new), L>(env: Env<R>, menv: MEnv<R, L>) {
    forall r: R :: (r in env <==> Orig(r) in menv) && (r in env ==> menv[Orig(r)] == env[r])
  }

  /** Constants of a block not yet numbered. */
  predicate Fresh<R, L(==)>(n: MName<R, L>, block: L, counter: nat) {
    n.Const? && n.block == block && n.index >= counter
  }

  /** Only fresh constants have been added. */
  ghost predicate Extends<R(!new), L(!new)>(a: MEnv<R, L>, b: MEnv<R, L>, block: L, counter: nat) {
    forall n: MName<R, L> :: !Fresh(n, block, counter) ==> (n in a <==> n in b) && (n in a ==> a[n] == b[n])
  }

  predicate Settled<R, L(==)>(o: Operand<MName<R, L>>, block: L, counter: nat) {
    o.Lit? || !Fresh(o.name, block, counter)
  }

  lemma ExtendsTrans<R(!new), L(!new)>(a: MEnv<R, L>, b: MEnv<R, L>, c: MEnv<R, L>, block: L, m: nat, n: nat)
    requires Extends(a, b, block, m) && Extends(b, c, block, n) && m <= n
    ensures Extends(a, c, block, m)
  {
    forall x: MName<R, L> | !Fresh(x, block, m) ensures (x in a <==> x in c) && (x in a ==> a[x] == c[x]) {
      assert !Fresh(x, block, n);
    }
  }

  lemma SettledLater<R(!new), L>(o: Operand<MName<R, L>>, block: L, m: nat, n: nat)
    requires Settled(o, block, m) && m <= n
    ensures Settled(o, block, n)
  {
  }

  lemma EvalSettled<R(!new), L(!new)>(fm: FloatModel, a: MEnv<R, L>, b: MEnv<R, L>, block: L, counter: nat,
                                      o: Operand<MName<R, L>>, ty: LlvmType)
    requires Extends(a, b, block, counter) && Settled(o, block, counter)
    ensures Eval(fm, a, o, ty) == Eval(fm, b, o, ty)
  {
  }

  lemma RelUpdate<R(!new), L(!new)>(env: Env<R>, menv: MEnv<R, L>, r: R, v: Val)
    requires Rel(env, menv)
    ensures Rel(env[r := v], menv[Orig(r) := v])
  {
  }

  /** Operations that only define registers, one after the other. */
  function Quiet<R(==), L(==)>(ctx: Context, mem: Memory, ops: seq<MOp<R, L>>, env: MEnv<R, L>): Option<MEnv<R, L>> {
    if ops == [] then Some(env)
    else
      var before := Quiet(ctx, mem, ops[..|ops| - 1], env);
      if before.None? then None
      else match MExec(ctx, mem, before.value, ops[|ops| - 1])
        case Next(after, Silent) => Some(after)
        case _ => None
  }

  lemma {:induction false} QuietAppend<R, L>(ctx: Context, mem: Memory, a: seq<MOp<R, L>>, b: seq<MOp<R, L>>, env: MEnv<R, L>)
    requires Quiet(ctx, mem, a, env).Some?
    ensures Quiet(ctx, mem, a + b, env) == Quiet(ctx, mem, b, Quiet(ctx, mem, a, env).value)
  {
    hide MExec;
    if b == [] {
      assert a + b == a;
    } else {
      assert (a + b)[..|a + b| - 1] == a + b[..|b| - 1];
      QuietAppend(ctx, mem, a, b[..|b| - 1], env);
    }
  }

  lemma QuietOne<R, L>(ctx: Context, mem: Memory, op: MOp<R, L>, env: MEnv<R, L>, after: MEnv<R, L>)
    requires MExec(ctx, mem, env, op) == Next(after, Silent)
    ensures Quiet(ctx, mem, [op], env) == Some(after)
  {
    hide MExec;
    assert [op][..0] == [];
    assert Quiet(ctx, mem, [op][..0], env) == Some(env);
  }

  predicate LiteralTyped<R>(fm: FloatModel, v: Operand<R>, ty: LlvmType) {
    v.Lit? && IsLiteralForType(v.lit, ty) ==> EvalLiteral(fm, v.lit, ty).Some?
  }

  /** Rendering one operand: the constant it may need is fresh, and the operand's value is the source's. */
  lemma EnsureSim<R(!new), L(!new)>(ctx: Context, mem: Memory, block: L, counter: nat, v: Operand<R>, ty: LlvmType,
                                    env: Env<R>, menv: MEnv<R, L>) returns (after: MEnv<R, L>)
    requires Rel(env, menv) && LiteralTyped(ctx.fm, v, ty)
    ensures var e := EnsureValue(block, counter, v, ty);
            && Quiet(ctx, mem, e.ops, menv) == Some(after) && counter <= e.counter
            && Rel(env, after) && Extends(menv, after, block, counter) && Settled(e.value, block, e.counter)
            && Eval(ctx.fm, after, e.value, ty) == Eval(ctx.fm, env, v, ty)
  {
    hide ExecOp, Quiet;
    QuietEmpty(ctx, mem, menv);
    after := menv;
    if v.Lit? && IsLiteralForType(v.lit, ty) {
      var name: MName<R, L> := Const(block, counter, ty);
      after := menv[name := EvalLiteral(ctx.fm, v.lit, ty).value];
      QuietOne(ctx, mem, Constant(name, v.lit, ty), menv, after);
      LiteralHasType(ctx.fm, v.lit, ty);
    }
  }

  lemma QuietEmpty<R, L>(ctx: Context, mem: Memory, env: MEnv<R, L>)
    ensures Quiet(ctx, mem, [], env) == Some(env)
  {
  }

  lemma LiteralHasType(fm: FloatModel, lit: Literal, ty: LlvmType)
    requires EvalLiteral(fm, lit, ty).Some?
    ensures HasType(EvalLiteral(fm, lit, ty).value, ty)
  {
  }

  lemma TypedWhenEvaluated<R>(fm: FloatModel, env: Env<R>, v: Operand<R>, ty: LlvmType)
    requires Eval(fm, env, v, ty).Some?
    ensures LiteralTyped(fm, v, ty)
  {
  }

  lemma PrepareTwo<R(!new), L(!new)>(ctx: Context, mem: Memory, block: L, counter: nat, v: Operand<R>, vt: LlvmType,
                                     u: Operand<R>, ut: LlvmType, env: Env<R>, menv: MEnv<R, L>) returns (after: MEnv<R, L>)
    requires Rel(env, menv) && Eval(ctx.fm, env, v, vt).Some? && Eval(ctx.fm, env, u, ut).Some?
    ensures var a := EnsureValue(block, counter, v, vt);
            var b := EnsureValue(block, a.counter, u, ut);
            && Quiet(ctx, mem, a.ops + b.ops, menv) == Some(after) && Rel(env, after)
            && Extends(menv, after, block, counter) && counter <= b.counter
            && Settled(a.value, block, b.counter) && Settled(b.value, block, b.counter)
            && Eval(ctx.fm, after, a.value, vt) == Eval(ctx.fm, env, v, vt)
            && Eval(ctx.fm, after, b.value, ut) == Eval(ctx.fm, env, u, ut)
  {
    hide Eval, EnsureValue, Quiet, Rel, Extends, Settled, LiteralTyped;
    TypedWhenEvaluated(ctx.fm, env, v, vt);
    TypedWhenEvaluated(ctx.fm, env, u, ut);
    var a := EnsureValue(block, counter, v, vt);
    var mid := EnsureSim(ctx, mem, block, counter, v, vt, env, menv);
    after := EnsureSim(ctx, mem, block, a.counter, u, ut, env, mid);
    var b := EnsureValue(block, a.counter, u, ut);
    QuietAppend(ctx, mem, a.ops, b.ops, menv);
    EvalSettled(ctx.fm, mid, after, block, a.counter, a.value, vt);
    SettledLater(a.value, block, a.counter, b.counter);
    ExtendsTrans(menv, mid, after, block, counter, a.counter);
  }

  /** What simulating one operation means. */
  ghost predicate OpSimulated<R(!new), L(!new)>(ctx: Context, mem: Memory, e: Emitted<R, L>, menv: MEnv<R, L>,
                                                mid: MEnv<R, L>, after: MEnv<R, L>, env': Env<R>, effect: Effect)
  {
    && Quiet(ctx, mem, e.pre, menv) == Some(mid)
    && MExec(ctx, mem, mid, e.last) == Next(after, effect)
    && Rel(env', after)
  }

  lemma SimNoOperand<R(!new), L(!new)>(ctx: Context, mem: Memory, block: L, counter: nat, op: Op<R, L>,
                                       env: Env<R>, menv: MEnv<R, L>) returns (mid: MEnv<R, L>, after: MEnv<R, L>)
    requires op.StructFieldPtr? || op.Load?
    requires Rel(env, menv) && ExecOp(ctx, mem, env, op).Next?
    ensures var out := ExecOp(ctx, mem, env, op);
            OpSimulated(ctx, mem, EmitOp(block, counter, op), menv, mid, after, out.env, out.effect)
  {
    hide LoadCell, Quiet;
    QuietEmpty(ctx, mem, menv);
    mid := menv;
    var out := ExecOp(ctx, mem, env, op);
    after := menv[Orig(op.result) := out.env[op.result]];
    RelUpdate(env, menv, op.result, out.env[op.result]);
  }

  lemma SimOneOperand<R(!new), L(!new)>(ctx: Context, mem: Memory, block: L, counter: nat, op: Op<R, L>,
                                        env: Env<R>, menv: MEnv<R, L>) returns (mid: MEnv<R, L>, after: MEnv<R, L>)
    requires op.Store? || op.IntToPtr? || op.FloatExp? || op.Gep? || op.Cast?
    requires Rel(env, menv) && ExecOp(ctx, mem, env, op).Next?
    ensures var out := ExecOp(ctx, mem, env, op);
            OpSimulated(ctx, mem, EmitOp(block, counter, op), menv, mid, after, out.env, out.effect)
  {
    hide Eval, CastValue, GepValue, CanStore, Quiet, EnsureValue, LiteralTyped, FloatModel.Exp;
    var ty := if op.Gep? then I64 else if op.Cast? then op.fromTy else op.ty;
    var v := if op.Gep? then op.index else op.value;
    TypedWhenEvaluated(ctx.fm, env, v, ty);
    mid := EnsureSim(ctx, mem, block, counter, v, ty, env, menv);
    var out := ExecOp(ctx, mem, env, op);
    if op.Store? {
      after := mid;
    } else {
      after := mid[Orig(op.result) := out.env[op.result]];
      RelUpdate(env, mid, op.result, out.env[op.result]);
    }
  }

  lemma SimTwoOperands<R(!new), L(!new)>(ctx: Context, mem: Memory, block: L, counter: nat, op: Op<R, L>,
                                         env: Env<R>, menv: MEnv<R, L>) returns (mid: MEnv<R, L>, after: MEnv<R, L>)
    requires op.Binary? || op.FloatBinary? || op.Icmp? || op.Fcmp?
    requires Rel(env, menv) && ExecOp(ctx, mem, env, op).Next?
    ensures var out := ExecOp(ctx, mem, env, op);
            OpSimulated(ctx, mem, EmitOp(block, counter, op), menv, mid, after, out.env, out.effect)
  {
    hide Eval, IntBinary, FloatBinaryValue, Quiet, EnsureValue, Settled, Extends, Gt, BoolV;
    mid := PrepareTwo(ctx, mem, block, counter, op.lhs, op.ty, op.rhs, op.ty, env, menv);
    var out := ExecOp(ctx, mem, env, op);
    after := mid[Orig(op.result) := out.env[op.result]];
    RelUpdate(env, mid, op.result, out.env[op.result]);
  }

  lemma SimSelect<R(!new), L(!new)>(ctx: Context, mem: Memory, block: L, counter: nat, op: Op<R, L>,
                                    env: Env<R>, menv: MEnv<R, L>) returns (mid: MEnv<R, L>, after: MEnv<R, L>)
    requires op.Select?
    requires Rel(env, menv) && ExecOp(ctx, mem, env, op).Next?
    ensures var out := ExecOp(ctx, mem, env, op);
            OpSimulated(ctx, mem, EmitOp(block, counter, op), menv, mid, after, out.env, out.effect)
  {
    hide Eval, Quiet, EnsureValue, Settled, Extends, LiteralTyped;
    var first := PrepareTwo(ctx, mem, block, counter, op.cond, I1, op.trueValue, op.ty, env, menv);
    var c := EnsureValue<R, L>(block, counter, op.cond, I1);
    var a := EnsureValue<R, L>(block, c.counter, op.trueValue, op.ty);
    TypedWhenEvaluated(ctx.fm, env, op.falseValue, op.ty);
    mid := EnsureSim(ctx, mem, block, a.counter, op.falseValue, op.ty, env, first);
    var b := EnsureValue<R, L>(block, a.counter, op.falseValue, op.ty);
    QuietAppend(ctx, mem, c.ops + a.ops, b.ops, menv);
    EvalSettled(ctx.fm, first, mid, block, a.counter, c.value, I1);
    EvalSettled(ctx.fm, first, mid, block, a.counter, a.value, op.ty);
    var out := ExecOp(ctx, mem, env, op);
    after := mid[Orig(op.result) := out.env[op.result]];
    RelUpdate(env, mid, op.result, out.env[op.result]);
  }

  lemma {:induction false} QuietSnoc<R, L>(ctx: Context, mem: Memory, ops: seq<MOp<R, L>>, op: MOp<R, L>, env: MEnv<R, L>,
                                           mid: MEnv<R, L>, after: MEnv<R, L>)
    requires Quiet(ctx, mem, ops, env) == Some(mid) && MExec(ctx, mem, mid, op) == Next(after, Silent)
    ensures Quiet(ctx, mem, ops + [op], env) == Some(after)
  {
    hide MExec;
    assert (ops + [op])[..|ops + [op]| - 1] == ops;
  }

  lemma EncodedWord(csr: CtaCsr)
    ensures FromSigned(32, csr.Encoded()) == IntV(32, csr.Encoded())
  {
  }

  /** Reading a thread coordinate: constant, `csrr`, truncation, and the uniform marker. */
  lemma SimCsr<R(!new), L(!new)>(ctx: Context, mem: Memory, block: L, counter: nat, op: Op<R, L>,
                                 env: Env<R>, menv: MEnv<R, L>) returns (mid: MEnv<R, L>, after: MEnv<R, L>)
    requires op.CtaCsrI32?
    requires Rel(env, menv) && ExecOp(ctx, mem, env, op).Next?
    ensures var out := ExecOp(ctx, mem, env, op);
            OpSimulated(ctx, mem, EmitOp(block, counter, op), menv, mid, after, out.env, out.effect)
  {
    hide Quiet, Rel, CtaCsr.Encoded, FromSigned, EnsureValue, Settled, Extends;
    var csr := op.csr.Encoded();
    EncodedWord(op.csr);
    var c := EnsureValue<R, L>(block, counter, Lit(IntLit(csr)), I32);
    LiteralWord(ctx.fm, csr);
    var m0 := EnsureSim(ctx, mem, block, counter, Lit(IntLit(csr)), I32, env, menv);
    var wide := FromSigned(64, ctx.csr[csr]);
    NarrowTyped(ctx.csr[csr]);
    var narrow := FromSigned(32, wide.bits);
    var m1 := m0[Orig(op.raw64) := wide];
    QuietSnoc(ctx, mem, c.ops, CsrRead(Orig(op.raw64), c.value), menv, m0, m1);
    var e1 := env[op.raw64 := wide];
    RelUpdate(env, m0, op.raw64, wide);
    if op.uniform {
      var raw32 := if op.raw32.Some? then op.raw32.value else op.result;
      TruncNarrow(ctx, mem, m1, Orig(raw32), Orig(op.raw64), wide, narrow);
      mid := m1[Orig(raw32) := narrow];
      QuietSnoc(ctx, mem, c.ops + [CsrRead(Orig(op.raw64), c.value)],
                Plain(Cast(Orig(raw32), Trunc, I64, Ref(Orig(op.raw64)), I32)), menv, m1, mid);
      RelUpdate(e1, m1, raw32, narrow);
      after := mid[Orig(op.result) := narrow];
      RelUpdate(e1[raw32 := narrow], mid, op.result, narrow);
    } else {
      TruncNarrow(ctx, mem, m1, Orig(op.result), Orig(op.raw64), wide, narrow);
      mid := m1;
      after := mid[Orig(op.result) := narrow];
      RelUpdate(e1, mid, op.result, narrow);
      assert e1[op.result := narrow][op.result := narrow] == e1[op.result := narrow];
    }
  }

  lemma LiteralWord(fm: FloatModel, n: nat)
    ensures LiteralTyped<int>(fm, Lit(IntLit(n)), I32)
    ensures EvalLiteral(fm, IntLit(n), I32) == Some(FromSigned(32, n))
  {
  }

  lemma NarrowTyped(n: nat)
    ensures var wide := FromSigned(64, n);
            wide.IntV? && wide.width == 64 && HasType(wide, I64) && HasType(FromSigned(32, wide.bits), I32)
  {
  }

  lemma TruncNarrow<R, L>(ctx: Context, mem: Memory, env: MEnv<R, L>, result: MName<R, L>, source: MName<R, L>, wide: Val, narrow: Val)
    requires source in env && env[source] == wide && wide.IntV? && wide.width == 64 && HasType(wide, I64)
    requires narrow == FromSigned(32, wide.bits)
    ensures var op: MOp<R, L> := Plain(Cast(result, Trunc, I64, Ref(source), I32));
            MExec(ctx, mem, env, op) == Next(env[result := narrow], Silent)
  {
    hide FromSigned;
  }

  /** Every operation that does not trap is matched by the operations rendered for it, the last of which
      has the same effect on memory. */
  lemma OpSim<R(!new), L(!new)>(ctx: Context, mem: Memory, block: L, counter: nat, op: Op<R, L>, env: Env<R>, menv: MEnv<R, L>)
    returns (mid: MEnv<R, L>, after: MEnv<R, L>)
    requires Rel(env, menv) && ExecOp(ctx, mem, env, op).Next?
    ensures var out := ExecOp(ctx, mem, env, op);
            !op.Phi? && OpSimulated(ctx, mem, EmitOp(block, counter, op), menv, mid, after, out.env, out.effect)
  {
    hide Rel, OpSimulated, EmitOp;
    assert !op.Phi? by { PhiTraps(ctx, mem, op, env); }
    hide ExecOp;
    match op
    case StructFieldPtr(_, _, _) => mid, after := SimNoOperand(ctx, mem, block, counter, op, env, menv);
    case Load(_, _, _) => mid, after := SimNoOperand(ctx, mem, block, counter, op, env, menv);
    case CtaCsrI32(_, _, _, _, _) => mid, after := SimCsr(ctx, mem, block, counter, op, env, menv);
    case Select(_, _, _, _, _) => mid, after := SimSelect(ctx, mem, block, counter, op, env, menv);
    case Binary(_, _, _, _, _, _) => mid, after := SimTwoOperands(ctx, mem, block, counter, op, env, menv);
    case FloatBinary(_, _, _, _, _) => mid, after := SimTwoOperands(ctx, mem, block, counter, op, env, menv);
    case Icmp(_, _, _, _, _) => mid, after := SimTwoOperands(ctx, mem, block, counter, op, env, menv);
    case Fcmp(_, _, _, _, _) => mid, after := SimTwoOperands(ctx, mem, block, counter, op, env, menv);
    case _ => mid, after := SimOneOperand(ctx, mem, block, counter, op, env, menv);
  }

  lemma PhiTraps<R, L>(ctx: Context, mem: Memory, op: Op<R, L>, env: Env<R>)
    ensures op.Phi? ==> ExecOp(ctx, mem, env, op).Trap?
  {
  }
}
