/** The renderer itself: an emitter with a growing output and a constant counter. What it leaves behind is
    what the lowering functions say. */
module MlirEmitter {
  import opened Options
  import opened DeviceIr
  import opened DeviceSemantics
  import opened MlirForm

  class MlirBlockEmitter<R, L(==)> {
    const block: L
    var ops: seq<MOp<R, L>>
    var constCounter: nat

    constructor (block: L)
      ensures this.block == block && ops == [] && constCounter == 0
    {
      this.block := block;
      ops := [];
      constCounter := 0;
    }

    /** A literal of the right kind becomes a numbered constant; everything else is passed through. */
    method EnsureValue(v: Operand<R>, ty: LlvmType) returns (value: Operand<MName<R, L>>)
      modifies this
      ensures var e := MlirForm.EnsureValue(block, old(constCounter), v, ty);
              ops == old(ops) + e.ops && constCounter == e.counter && value == e.value
    {
      if v.Ref? {
        return Ref(Orig(v.name));
      }
      if !IsLiteralForType(v.lit, ty) {
        return Lit(v.lit);
      }
      var name := Const(block, constCounter, ty);
      constCounter := constCounter + 1;
      ops := ops + [Constant(name, v.lit, ty)];
      value := Ref(name);
    }

    method PushOp(op: Op<MName<R, L>, L>)
      modifies this
      ensures ops == old(ops) + [Plain(op)] && constCounter == old(constCounter)
    {
      ops := ops + [Plain(op)];
    }

    method EmitCsrReadI64(result: R, csr: nat)
      modifies this
      ensures var c := MlirForm.EnsureValue(block, old(constCounter), Lit(IntLit(csr)), I32);
              ops == old(ops) + (c.ops + [CsrRead(Orig(result), c.value)]) && constCounter == c.counter
    {
      var c := EnsureValue(Lit(IntLit(csr)), I32);
      ops := ops + [CsrRead(Orig(result), c)];
    }

    method EmitCtaCsrI32(raw64: R, raw32: Option<R>, result: R, csr: CtaCsr, uniform: bool)
      modifies this
      ensures var e := EmitCsr(block, old(constCounter), raw64, raw32, result, csr.Encoded(), uniform);
              ops == old(ops) + e.All() && constCounter == e.counter
    {
      EmitCsrReadI64(raw64, csr.Encoded());
      if uniform {
        var narrow := if raw32.Some? then raw32.value else result;
        PushOp(Cast(Orig(narrow), Trunc, I64, Ref(Orig(raw64)), I32));
        ops := ops + [UniformCall(Orig(result), Orig(narrow))];
      } else {
        PushOp(Cast(Orig(result), Trunc, I64, Ref(Orig(raw64)), I32));
      }
    }

    method EmitOp(op: Op<R, L>)
      requires !op.Phi?
      modifies this
      ensures var e := MlirForm.EmitOp(block, old(constCounter), op);
              ops == old(ops) + e.All() && constCounter == e.counter
    {
      hide MlirForm.EnsureValue, EmitCsr;
      match op {
        case StructFieldPtr(result, base, field) => PushOp(StructFieldPtr(Orig(result), Orig(base), field));
        case Load(result, ty, ptr) => PushOp(Load(Orig(result), ty, Orig(ptr)));
        case Store(ty, value, ptr) =>
          var v := EnsureValue(value, ty);
          PushOp(Store(ty, v, Orig(ptr)));
        case IntToPtr(result, ty, value) =>
          var v := EnsureValue(value, ty);
          PushOp(IntToPtr(Orig(result), ty, v));
        case CtaCsrI32(raw64, raw32, result, csr, uniform) => EmitCtaCsrI32(raw64, raw32, result, csr, uniform);
        case Binary(result, bop, ty, lhs, rhs, overflow) =>
          var a := EnsureValue(lhs, ty);
          var b := EnsureValue(rhs, ty);
          PushOp(Binary(Orig(result), bop, ty, a, b, overflow));
        case FloatBinary(result, fop, ty, lhs, rhs) =>
          var a := EnsureValue(lhs, ty);
          var b := EnsureValue(rhs, ty);
          PushOp(FloatBinary(Orig(result), fop, ty, a, b));
        case Icmp(result, pred, ty, lhs, rhs) =>
          var a := EnsureValue(lhs, ty);
          var b := EnsureValue(rhs, ty);
          PushOp(Icmp(Orig(result), pred, ty, a, b));
        case Fcmp(result, pred, ty, lhs, rhs) =>
          var a := EnsureValue(lhs, ty);
          var b := EnsureValue(rhs, ty);
          PushOp(Fcmp(Orig(result), pred, ty, a, b));
        case Select(result, cond, ty, trueValue, falseValue) =>
          var c := EnsureValue(cond, I1);
          var a := EnsureValue(trueValue, ty);
          var b := EnsureValue(falseValue, ty);
          PushOp(Select(Orig(result), c, ty, a, b));
        case FloatExp(result, ty, value) =>
          var v := EnsureValue(value, ty);
          PushOp(FloatExp(Orig(result), ty, v));
        case Gep(result, elementTy, base, index, inbounds) =>
          var i := EnsureValue(index, I64);
          PushOp(Gep(Orig(result), elementTy, Orig(base), i, inbounds));
        case Cast(result, kind, fromTy, value, toTy) =>
          var v := EnsureValue(value, fromTy);
          PushOp(Cast(Orig(result), kind, fromTy, v, toTy));
      }
    }

    /** Every operation of a block but its phis, which its predecessors resolve. */
    method EmitOps(source: seq<Op<R, L>>)
      requires ops == [] && constCounter == 0
      modifies this
      ensures ops == MlirForm.EmitOps(block, source).ops && constCounter == MlirForm.EmitOps(block, source).counter
    {
      hide MlirForm.EmitOp;
      for i := 0 to |source|
        invariant ops == MlirForm.EmitOps(block, source[..i]).ops
        invariant constCounter == MlirForm.EmitOps(block, source[..i]).counter
      {
        assert source[..i + 1][..i] == source[..i];
        if !source[i].Phi? {
          EmitOp(source[i]);
        }
      }
      assert source[..|source|] == source;
    }

    /** One value per phi of the target, each looked up by this block's label; `None` is the panic. */
    method RenderSuccessor(blocks: seq<Block<R, L>>, target: L) returns (succ: Option<Successor<R, L>>)
      modifies this
      ensures var e := EmitSuccessor(blocks, block, old(constCounter), target);
              && (succ.None? <==> e.None?)
              && (e.Some? ==> succ == Some(e.value.succ) && ops == old(ops) + e.value.ops && constCounter == e.value.counter)
    {
      hide MlirForm.EnsureValue, EmitArgs, PhiOps;
      NoArgs<R, L>(block, constCounter);
      var found := Lookup(blocks, target);
      if found.None? {
        return None;
      }
      var source := found.value.ops;
      var args: seq<Passed<R, L>> := [];
      var i := 0;
      while i < |source|
        invariant i <= |source|
        invariant var e := EmitArgs(block, old(constCounter), PhiOps(source[..i]));
                  e.Some? && args == e.value.args && ops == old(ops) + e.value.ops && constCounter == e.value.counter
      {
        PhiOpsNext(source, i);
        if source[i].Phi? {
          ArgsNext(block, old(constCounter), PhiOps(source[..i]), source[i]);
          var incoming := IncomingFor(source[i].incoming, block);
          if incoming.None? {
            MissingArgs(block, old(constCounter), source, i + 1);
            return None;
          }
          var v := EnsureValue(incoming.value, source[i].ty);
          args := args + [Passed(v, source[i].ty)];
        }
        i := i + 1;
      }
      assert source[..i] == source;
      succ := Some(Successor(target, args));
    }

    method EmitTerminator(blocks: seq<Block<R, L>>, t: Terminator<R, L>) returns (term: Option<MTerminator<R, L>>)
      modifies this
      ensures var e := MlirForm.EmitTerminator(blocks, block, old(constCounter), t);
              && (term.None? <==> e.None?)
              && (e.Some? ==> term == Some(e.value.term) && ops == old(ops) + e.value.ops)
    {
      hide MlirForm.EnsureValue, EmitSuccessor;
      match t {
        case RetVoid => term := Some(MRet);
        case Br(target) =>
          var s := RenderSuccessor(blocks, target);
          term := if s.None? then None else Some(MBr(s.value));
        case CondBr(cond, thenLabel, elseLabel) =>
          var c := EnsureValue(cond, I1);
          var a := RenderSuccessor(blocks, thenLabel);
          if a.None? {
            return None;
          }
          var b := RenderSuccessor(blocks, elseLabel);
          term := if b.None? then None else Some(MCondBr(c, a.value, b.value));
      }
    }
  }

  lemma NoArgs<R, L>(block: L, counter: nat)
    ensures PhiOps<R, L>([]) == [] && EmitArgs<R, L>(block, counter, []) == Some(PassedArgs([], counter, []))
  {
  }

  lemma PhiOpsNext<R, L>(source: seq<Op<R, L>>, i: nat)
    requires i < |source|
    ensures PhiOps(source[..i + 1]) == if source[i].Phi? then PhiOps(source[..i]) + [source[i]] else PhiOps(source[..i])
  {
    assert source[..i + 1][..i] == source[..i];
  }

  lemma {:induction false} ArgsNext<R, L>(block: L, counter: nat, phis: seq<Op<R, L>>, phi: Op<R, L>)
    requires phi.Phi? && forall i :: 0 <= i < |phis| ==> phis[i].Phi?
    ensures var before := EmitArgs(block, counter, phis);
            var incoming := IncomingFor(phi.incoming, block);
            EmitArgs(block, counter, phis + [phi])
            == if before.None? || incoming.None? then None
               else
                 var v := EnsureValue(block, before.value.counter, incoming.value, phi.ty);
                 Some(PassedArgs(before.value.ops + v.ops, v.counter, before.value.args + [Passed(v.value, phi.ty)]))
  {
    hide EnsureValue;
    assert (phis + [phi])[..|phis|] == phis;
  }

  /** A phi without a value for the edge makes the whole successor fail. */
  lemma {:induction false} MissingArgs<R, L>(block: L, counter: nat, source: seq<Op<R, L>>, n: nat)
    requires n <= |source| && EmitArgs(block, counter, PhiOps(source[..n])).None?
    ensures EmitArgs(block, counter, PhiOps(source)).None?
    decreases |source|
  {
    hide EmitArgs, PhiOps;
    assert source[..|source|] == source;
    if n < |source| {
      var m := |source| - 1;
      assert source[..m][..n] == source[..n];
      MissingArgs(block, counter, source[..m], n);
      PhiOpsNext(source, m);
      if source[m].Phi? {
        ArgsNext(block, counter, PhiOps(source[..m]), source[m]);
      }
    }
  }

  method EmitMlirBlock<R, L(==)>(blocks: seq<Block<R, L>>, b: Block<R, L>, isEntry: bool) returns (out: Option<MBlock<R, L>>)
    ensures out == LowerBlock(blocks, b, isEntry)
  {
    var emitter := new MlirBlockEmitter<R, L>(b.name);
    emitter.EmitOps(b.ops);
    var t := emitter.EmitTerminator(blocks, b.terminator);
    if t.None? {
      return None;
    }
    out := Some(MBlock(b.name, if isEntry then [] else ParamsOf(PhiOps(b.ops)), emitter.ops, t.value));
  }

  /** The whole kernel, block after block. */
  method EmitMlirKernel<R, L(==)>(blocks: seq<Block<R, L>>) returns (out: Option<seq<MBlock<R, L>>>)
    ensures out == LowerKernel(blocks)
  {
    hide LowerBlock;
    var done: seq<MBlock<R, L>> := [];
    for index := 0 to |blocks|
      invariant LowerUpTo(blocks, index) == Some(done)
    {
      var b := EmitMlirBlock(blocks, blocks[index], index == 0);
      if b.None? {
        FailsOn(blocks, index + 1, |blocks|);
        return None;
      }
      done := done + [b.value];
    }
    out := Some(done);
  }

  lemma {:induction false} FailsOn<R, L>(blocks: seq<Block<R, L>>, m: nat, n: nat)
    requires m <= n <= |blocks| && LowerUpTo(blocks, m).None?
    ensures LowerUpTo(blocks, n).None?
  {
    hide LowerBlock;
    if m < n {
      FailsOn(blocks, m, n - 1);
    }
  }
}
