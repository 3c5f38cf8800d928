/** Facts about single steps of any kernel: they depend on memory only through what may be read, and
    store only where storing is allowed. */
module SoundSteps {
  import opened Options
  import opened DeviceIr
  import opened DeviceSemantics
  import opened LaunchMachine

  lemma ExecSame<R, L>(ctx: Context, a: Memory, b: Memory, env: map<R, Val>, op: Op<R, L>)
    requires SameReadable(a, b)
    ensures ExecOp(ctx, a, env, op) == ExecOp(ctx, b, env, op)
  {
    hide Eval, IntBinary, CastValue, FloatBinaryValue, HasType, SignedOf, ExecCsr;
    match op
    case Load(_, ty, ptr) =>
      if ptr in env {
        LoadSame(a, b, env[ptr], ty);
      }
    case Store(_, _, ptr) =>
    case Gep(_, _, base, index, inbounds) =>
    case _ =>
  }

  lemma LoadSame(a: Memory, b: Memory, p: Val, ty: LlvmType)
    requires SameReadable(a, b)
    ensures LoadCell(a, p, ty) == LoadCell(b, p, ty)
  {
  }

  lemma StepSame<R, L>(k: Kernel<R, L>, a: Memory, b: Memory, s: ThreadState<R, L>)
    requires SameReadable(a, b)
    ensures Step(k, a, s) == Step(k, b, s)
  {
    hide ExecOp, SameReadable;
    if s.At? {
      var blk := Lookup(k.blocks, s.block);
      if blk.Some? && s.pc < |blk.value.ops| {
        ExecSame(k.ctx, a, b, s.env, blk.value.ops[s.pc]);
      }
    }
  }

  lemma ExecStores<R, L>(ctx: Context, mem: Memory, env: map<R, Val>, op: Op<R, L>)
    requires ExecOp(ctx, mem, env, op).Next? && ExecOp(ctx, mem, env, op).effect.Stored?
    ensures var e := ExecOp(ctx, mem, env, op).effect; CanStore(mem, AddrV(e.obj, e.off))
  {
    hide Eval, IntBinary, CastValue, FloatBinaryValue, HasType, SignedOf, LoadCell, GepValue;
  }

  lemma StepStores<R, L>(k: Kernel<R, L>, mem: Memory, s: ThreadState<R, L>)
    requires Step(k, mem, s).1.Stored?
    ensures CanStore(mem, AddrV(Step(k, mem, s).1.obj, Step(k, mem, s).1.off))
  {
    hide ExecOp;
    ExecStores(k.ctx, mem, s.env, Lookup(k.blocks, s.block).value.ops[s.pc]);
  }
}
