/** Rendering to block arguments preserves meaning: edges, blocks and runs. */
module PhiEdges {
  import opened Options
  import opened Floats
  import opened DeviceIr
  import opened DeviceSemantics
  import opened MlirForm
  import opened PhiLowering

  // ----- what a kernel must satisfy -----

  ghost predicate PhisFirst<R, L>(ops: seq<Op<R, L>>) {
    forall i :: PhiCount(ops) <= i < |ops| ==> !ops[i].Phi?
  }

  /** A literal passed along an edge has a type that literals of its kind can have. */
  predicate TypedLiteral<R>(v: Operand<R>, ty: LlvmType) {
    v.Lit? && IsLiteralForType(v.lit, ty) ==> ty == LlvmType.F32 || Width(ty) != 0
  }

  /** An edge can be taken: it does not lead to the entry, and every phi of `target` has a value for it. */
  ghost predicate EdgeCovered<R, L>(blocks: seq<Block<R, L>>, from: L, target: L) {
    var b := Lookup(blocks, target);
    b.Some? && target != blocks[0].name && forall i :: 0 <= i < |b.value.ops| && b.value.ops[i].Phi? ==>
      var v := IncomingFor(b.value.ops[i].incoming, from);
      v.Some? && TypedLiteral(v.value, b.value.ops[i].ty)
  }

  ghost predicate ExitsCovered<R, L>(blocks: seq<Block<R, L>>, b: Block<R, L>) {
    match b.terminator
    case RetVoid => true
    case Br(l) => EdgeCovered(blocks, b.name, l)
    case CondBr(_, l, m) => EdgeCovered(blocks, b.name, l) && EdgeCovered(blocks, b.name, m)
  }

  ghost predicate DistinctLabels<R, L>(blocks: seq<Block<R, L>>) {
    forall i, j :: 0 <= i < j < |blocks| ==> blocks[i].name != blocks[j].name
  }

  /** Labels are distinct and every register is defined once; phis lead their blocks; the entry has no phi
      and no predecessor; and every edge gives every phi a value. */
  ghost predicate WellFormed<R, L>(blocks: seq<Block<R, L>>) {
    && blocks != [] && PhiCount(blocks[0].ops) == 0
    && DistinctLabels(blocks) && Distinct(Definitions(blocks))
    && forall b :: b in blocks ==> PhisFirst(b.ops) && ExitsCovered(blocks, b)
  }

  // ----- phis and parameters -----

  lemma {:induction false} PhiOpsPrefix<R, L>(ops: seq<Op<R, L>>, n: nat)
    requires n <= |ops| && (forall i :: 0 <= i < n ==> ops[i].Phi?) && (forall i :: n <= i < |ops| ==> !ops[i].Phi?)
    ensures PhiOps(ops) == ops[..n]
  {
    if ops != [] {
      var m := |ops| - 1;
      if n == |ops| {
        PhiOpsPrefix(ops[..m], m);
        assert ops[..m][..m] + [ops[m]] == ops[..n];
      } else {
        PhiOpsPrefix(ops[..m], n);
        assert ops[..m][..n] == ops[..n];
      }
    }
  }

  lemma {:induction false} PhiOpsLead<R, L>(ops: seq<Op<R, L>>)
    requires PhisFirst(ops)
    ensures PhiOps(ops) == ops[..PhiCount(ops)]
  {
    PhiOpsPrefix(ops, PhiCount(ops));
  }

  /** Every phi has a value for this predecessor, with a literal type if it is a literal. */
  ghost predicate ArgsCovered<R, L>(phis: seq<Op<R, L>>, from: L) {
    forall i :: 0 <= i < |phis| ==>
      && phis[i].Phi? && IncomingFor(phis[i].incoming, from).Some?
      && TypedLiteral(IncomingFor(phis[i].incoming, from).value, phis[i].ty)
  }

  lemma TypedIsEvaluable<R>(fm: FloatModel, v: Operand<R>, ty: LlvmType)
    requires TypedLiteral(v, ty)
    ensures LiteralTyped(fm, v, ty)
  {
  }

  lemma {:induction false} EmitArgsSucceeds<R, L>(block: L, counter: nat, phis: seq<Op<R, L>>)
    requires ArgsCovered(phis, block)
    ensures EmitArgs(block, counter, phis).Some? && |EmitArgs(block, counter, phis).value.args| == |phis|
  {
    if phis != [] {
      EmitArgsSucceeds(block, counter, phis[..|phis| - 1]);
    }
  }

  /** The rendered arguments have the values the phis would read. */
  ghost predicate ArgsAgree<R(!new), L(!new)>(fm: FloatModel, phis: seq<Op<R, L>>, from: L, env: Env<R>,
                                              args: seq<Passed<R, L>>, menv: MEnv<R, L>)
  {
    && |args| == |phis| && ArgsCovered(phis, from)
    && forall i :: 0 <= i < |phis| ==>
         args[i].ty == phis[i].ty
         && Eval(fm, menv, args[i].value, args[i].ty) == Eval(fm, env, IncomingFor(phis[i].incoming, from).value, phis[i].ty)
  }

  ghost predicate AllSettled<R, L>(args: seq<Passed<R, L>>, block: L, counter: nat) {
    forall i :: 0 <= i < |args| ==> Settled(args[i].value, block, counter)
  }

  lemma {:induction false} ArgsAgreeLater<R(!new), L(!new)>(fm: FloatModel, phis: seq<Op<R, L>>, from: L, env: Env<R>, args: seq<Passed<R, L>>,
                                                            a: MEnv<R, L>, b: MEnv<R, L>, block: L, counter: nat)
    requires ArgsAgree(fm, phis, from, env, args, a) && AllSettled(args, block, counter) && Extends(a, b, block, counter)
    ensures ArgsAgree(fm, phis, from, env, args, b)
  {
    hide Eval, Settled, Extends;
    forall i | 0 <= i < |phis| ensures Eval(fm, b, args[i].value, args[i].ty) == Eval(fm, a, args[i].value, args[i].ty) {
      EvalSettled(fm, a, b, block, counter, args[i].value, args[i].ty);
    }
  }

  lemma {:induction false} ArgsSim<R(!new), L(!new)>(ctx: Context, mem: Memory, block: L, counter: nat, phis: seq<Op<R, L>>,
                                                     env: Env<R>, menv: MEnv<R, L>) returns (after: MEnv<R, L>)
    requires Rel(env, menv) && ArgsCovered(phis, block)
    ensures EmitArgs(block, counter, phis).Some?
    ensures var e := EmitArgs(block, counter, phis).value;
            && Quiet(ctx, mem, e.ops, menv) == Some(after) && Rel(env, after) && Extends(menv, after, block, counter)
            && counter <= e.counter && AllSettled(e.args, block, e.counter)
            && ArgsAgree(ctx.fm, phis, block, env, e.args, after)
  {
    hide Eval, Rel, Settled, Extends, Quiet, EnsureValue, LiteralTyped, TypedLiteral;
    EmitArgsSucceeds(block, counter, phis);
    if phis == [] {
      QuietEmpty(ctx, mem, menv);
      after := menv;
      ExtendsSelf(menv, block, counter);
    } else {
      var n := |phis| - 1;
      var mid := ArgsSim(ctx, mem, block, counter, phis[..n], env, menv);
      var before := EmitArgs(block, counter, phis[..n]).value;
      var v := IncomingFor(phis[n].incoming, block).value;
      TypedIsEvaluable(ctx.fm, v, phis[n].ty);
      after := EnsureSim(ctx, mem, block, before.counter, v, phis[n].ty, env, mid);
      var e := EnsureValue<R, L>(block, before.counter, v, phis[n].ty);
      QuietAppend(ctx, mem, before.ops, e.ops, menv);
      ExtendsTrans(menv, mid, after, block, counter, before.counter);
      ArgsAgreeLater(ctx.fm, phis[..n], block, env, before.args, mid, after, block, before.counter);
      forall i | 0 <= i < n ensures Settled(before.args[i].value, block, e.counter) {
        SettledLater(before.args[i].value, block, before.counter, e.counter);
      }
    }
  }

  lemma ExtendsSelf<R(!new), L(!new)>(menv: MEnv<R, L>, block: L, counter: nat)
    ensures Extends(menv, menv, block, counter)
  {
  }

  /** Binding parameters in parallel gives what evaluating the phis in parallel gives. */
  lemma {:induction false} BindSim<R(!new), L(!new)>(fm: FloatModel, phis: seq<Op<R, L>>, from: L, env: Env<R>,
                                                     args: seq<Passed<R, L>>, menv: MEnv<R, L>) returns (bound: MEnv<R, L>)
    requires ArgsAgree(fm, phis, from, env, args, menv) && PhiBindings(fm, phis, from, env).Some?
    ensures BindParams(fm, ParamsOf(phis), args, menv) == Some(bound)
    ensures Rel(PhiBindings(fm, phis, from, env).value, bound)
  {
    hide Eval, Rel;
    if phis == [] {
      bound := map[];
      EmptyRel<R, L>();
    } else {
      var n := |phis| - 1;
      assert ParamsOf<R, L>(phis)[..n] == ParamsOf<R, L>(phis[..n]);
      var before := BindSim(fm, phis[..n], from, env, args[..n], menv);
      var v := Eval(fm, menv, args[n].value, args[n].ty);
      bound := before[Orig(phis[n].result) := v.value];
      RelUpdate(PhiBindings(fm, phis[..n], from, env).value, before, phis[n].result, v.value);
    }
  }

  lemma EmptyRel<R(!new), L(!new)>()
    ensures Rel<R, L>(map[], map[])
  {
  }

  lemma RelUnion<R(!new), L(!new)>(env: Env<R>, menv: MEnv<R, L>, b: Env<R>, m: MEnv<R, L>)
    requires Rel(env, menv) && Rel(b, m)
    ensures Rel(env + b, menv + m)
  {
  }

  // ----- leaving a block along an edge -----

  /** `succ` was rendered for the edge from `from` to `target`, and its arguments have been prepared. */
  ghost predicate Passes<R(!new), L(!new)>(fm: FloatModel, blocks: seq<Block<R, L>>, from: L, target: L, env: Env<R>,
                                           succ: Successor<R, L>, menv: MEnv<R, L>)
  {
    && Lookup(blocks, target).Some? && target != blocks[0].name && succ.target == target
    && ArgsAgree(fm, PhiOps(Lookup(blocks, target).value.ops), from, env, succ.args, menv)
  }

  lemma {:induction false} PhiOpsFrom<R, L>(ops: seq<Op<R, L>>)
    ensures forall i :: 0 <= i < |PhiOps(ops)| ==> PhiOps(ops)[i] in ops
  {
    if ops != [] {
      PhiOpsFrom(ops[..|ops| - 1]);
    }
  }

  lemma {:induction false} EdgeArgs<R, L>(blocks: seq<Block<R, L>>, from: L, target: L)
    requires EdgeCovered(blocks, from, target)
    ensures Lookup(blocks, target).Some? && target != blocks[0].name && ArgsCovered(PhiOps(Lookup(blocks, target).value.ops), from)
  {
    PhiOpsFrom(Lookup(blocks, target).value.ops);
  }

  lemma {:induction false} SuccessorSim<R(!new), L(!new)>(ctx: Context, mem: Memory, blocks: seq<Block<R, L>>, block: L, counter: nat, target: L,
                                                          env: Env<R>, menv: MEnv<R, L>) returns (after: MEnv<R, L>)
    requires Rel(env, menv) && EdgeCovered(blocks, block, target)
    ensures EmitSuccessor(blocks, block, counter, target).Some?
    ensures var e := EmitSuccessor(blocks, block, counter, target).value;
            && Quiet(ctx, mem, e.ops, menv) == Some(after) && Rel(env, after) && Extends(menv, after, block, counter)
            && counter <= e.counter && AllSettled(e.succ.args, block, e.counter)
            && Passes(ctx.fm, blocks, block, target, env, e.succ, after)
  {
    hide Rel, Extends, Quiet, AllSettled, ArgsAgree, EmitArgs, PhiOps, EdgeCovered, ArgsCovered;
    EdgeArgs(blocks, block, target);
    after := ArgsSim(ctx, mem, block, counter, PhiOps(Lookup(blocks, target).value.ops), env, menv);
  }

  lemma {:induction false} PassesLater<R(!new), L(!new)>(fm: FloatModel, blocks: seq<Block<R, L>>, from: L, target: L, env: Env<R>,
                                                         succ: Successor<R, L>, a: MEnv<R, L>, b: MEnv<R, L>, counter: nat)
    requires Passes(fm, blocks, from, target, env, succ, a) && AllSettled(succ.args, from, counter)
    requires Extends(a, b, from, counter)
    ensures Passes(fm, blocks, from, target, env, succ, b)
  {
    hide ArgsAgree, AllSettled, Extends, PhiOps;
    ArgsAgreeLater(fm, PhiOps(Lookup(blocks, target).value.ops), from, env, succ.args, a, b, from, counter);
  }

  /** The rendered terminator branches the same way, with every argument of the taken edge prepared. */
  ghost predicate BranchesTo<R(!new), L(!new)>(fm: FloatModel, blocks: seq<Block<R, L>>, from: L, target: L, env: Env<R>,
                                               t: MTerminator<R, L>, menv: MEnv<R, L>)
  {
    match t
    case MRet => false
    case MBr(s) => Passes(fm, blocks, from, target, env, s, menv)
    case MCondBr(cond, a, b) =>
      var c := Eval(fm, menv, cond, I1);
      c.Some? && c.value.IntV? && Passes(fm, blocks, from, target, env, if c.value.bits != 0 then a else b, menv)
  }

  lemma {:induction false} TerminatorSim<R(!new), L(!new)>(ctx: Context, mem: Memory, blocks: seq<Block<R, L>>, b: Block<R, L>, counter: nat,
                                                           env: Env<R>, menv: MEnv<R, L>) returns (after: MEnv<R, L>)
    requires Rel(env, menv) && ExitsCovered(blocks, b) && !b.terminator.RetVoid?
    requires Target(ctx.fm, b.terminator, env).Some?
    ensures EmitTerminator(blocks, b.name, counter, b.terminator).Some?
    ensures var e := EmitTerminator(blocks, b.name, counter, b.terminator).value;
            && Quiet(ctx, mem, e.ops, menv) == Some(after) && Rel(env, after)
            && BranchesTo(ctx.fm, blocks, b.name, Target(ctx.fm, b.terminator, env).value, env, e.term, after)
  {
    hide Rel, Extends, Quiet, AllSettled, EmitSuccessor, EdgeCovered, Passes, Eval, EnsureValue, Settled, LiteralTyped;
    if b.terminator.Br? {
      after := SuccessorSim(ctx, mem, blocks, b.name, counter, b.terminator.target, env, menv);
    } else {
      var t := b.terminator;
      TypedWhenEvaluated(ctx.fm, env, t.cond, I1);
      var m1 := EnsureSim(ctx, mem, b.name, counter, t.cond, I1, env, menv);
      var c := EnsureValue<R, L>(b.name, counter, t.cond, I1);
      var m2 := SuccessorSim(ctx, mem, blocks, b.name, c.counter, t.thenLabel, env, m1);
      var x := EmitSuccessor(blocks, b.name, c.counter, t.thenLabel).value;
      after := SuccessorSim(ctx, mem, blocks, b.name, x.counter, t.elseLabel, env, m2);
      var y := EmitSuccessor(blocks, b.name, x.counter, t.elseLabel).value;
      QuietAppend(ctx, mem, c.ops, x.ops, menv);
      QuietAppend(ctx, mem, c.ops + x.ops, y.ops, menv);
      PassesLater(ctx.fm, blocks, b.name, t.thenLabel, env, x.succ, m2, after, x.counter);
      EvalSettled(ctx.fm, m1, m2, b.name, c.counter, c.value, I1);
      SettledLater(c.value, b.name, c.counter, x.counter);
      EvalSettled(ctx.fm, m2, after, b.name, x.counter, c.value, I1);
    }
  }

  // ----- the rendered blocks -----

  lemma {:induction false} EmitOpsPrefix<R, L>(block: L, ops: seq<Op<R, L>>, i: nat)
    requires i <= |ops|
    ensures EmitOps(block, ops[..i]).ops <= EmitOps(block, ops).ops
  {
    hide EmitOp;
    if i == |ops| {
      assert ops[..i] == ops;
    } else {
      EmitOpsPrefix(block, ops[..|ops| - 1], i);
      assert ops[..|ops| - 1][..i] == ops[..i];
    }
  }

  function Offset<R, L>(b: Block<R, L>, i: nat): nat
    requires i <= |b.ops|
  {
    |EmitOps(b.name, b.ops[..i]).ops|
  }

  /** Operation `i` of a block is rendered at its offset. */
  lemma OffsetNext<R, L>(b: Block<R, L>, i: nat)
    requires i < |b.ops| && !b.ops[i].Phi?
    ensures var e := EmitOp(b.name, EmitOps(b.name, b.ops[..i]).counter, b.ops[i]);
            && Offset(b, i + 1) == Offset(b, i) + |e.All()|
            && Offset(b, i + 1) <= |EmitOps(b.name, b.ops).ops|
            && EmitOps(b.name, b.ops).ops[Offset(b, i)..Offset(b, i + 1)] == e.All()
  {
    hide EmitOp;
    var upTo := b.ops[..i + 1];
    assert upTo[..|upTo| - 1] == b.ops[..i];
    EmitOpsPrefix(b.name, b.ops, i + 1);
    var all, part := EmitOps(b.name, b.ops).ops, EmitOps(b.name, upTo).ops;
    assert all[..|part|] == part;
    assert part[Offset(b, i)..] == EmitOp(b.name, EmitOps(b.name, b.ops[..i]).counter, b.ops[i]).All();
  }

  lemma {:induction false} OffsetOfPhis<R, L>(block: L, ops: seq<Op<R, L>>)
    requires forall i :: 0 <= i < |ops| ==> ops[i].Phi?
    ensures EmitOps(block, ops).ops == []
  {
    if ops != [] {
      OffsetOfPhis(block, ops[..|ops| - 1]);
    }
  }

  lemma {:induction false} LowerUpToAt<R, L>(blocks: seq<Block<R, L>>, n: nat, i: nat)
    requires i < n <= |blocks| && LowerUpTo(blocks, n).Some?
    ensures |LowerUpTo(blocks, n).value| == n
    ensures LowerBlock(blocks, blocks[i], i == 0) == Some(LowerUpTo(blocks, n).value[i])
    decreases n
  {
    hide LowerBlock;
    if i < n - 1 {
      LowerUpToAt(blocks, n - 1, i);
    } else if n > 1 {
      LowerUpToAt(blocks, n - 1, 0);
    }
  }

  lemma {:induction false} MLookupFirst<R, L>(blocks: seq<MBlock<R, L>>, i: nat)
    requires i < |blocks| && forall j :: 0 <= j < i ==> blocks[j].name != blocks[i].name
    ensures MLookup(blocks, blocks[i].name) == Some(blocks[i])
  {
    if i > 0 {
      MLookupFirst(blocks[1..], i - 1);
    }
  }

  lemma {:induction false} LookupIndex<R, L>(blocks: seq<Block<R, L>>, name: L) returns (i: nat)
    requires Lookup(blocks, name).Some?
    ensures i < |blocks| && blocks[i] == Lookup(blocks, name).value && blocks[i].name == name
    ensures forall j :: 0 <= j < i ==> blocks[j].name != name
  {
    if blocks[0].name == name {
      i := 0;
    } else {
      i := LookupIndex(blocks[1..], name);
      i := i + 1;
    }
  }

  lemma {:induction false} LoweredName<R, L>(blocks: seq<Block<R, L>>, b: Block<R, L>, isEntry: bool)
    requires LowerBlock(blocks, b, isEntry).Some?
    ensures LowerBlock(blocks, b, isEntry).value.name == b.name
    ensures PhiOps(b.ops) == [] ==> LowerBlock(blocks, b, isEntry) == LowerBlock(blocks, b, false)
  {
    hide EmitOps, EmitTerminator;
  }

  /** A label resolves to the rendering of the block it resolved to before. */
  lemma {:induction false} LowerLookup<R, L>(blocks: seq<Block<R, L>>, mblocks: seq<MBlock<R, L>>, name: L)
    requires WellFormed(blocks) && LowerKernel(blocks) == Some(mblocks) && Lookup(blocks, name).Some?
    ensures MLookup(mblocks, name).Some?
    ensures name != blocks[0].name ==> MLookup(Headed(mblocks), name) == MLookup(mblocks, name)
    ensures LowerBlock(blocks, Lookup(blocks, name).value, false) == MLookup(mblocks, name)
  {
    hide LowerBlock, PhiOps, ExitsCovered;
    var i := LookupIndex(blocks, name);
    forall j | 0 <= j <= i
      ensures |mblocks| == |blocks| && LowerBlock(blocks, blocks[j], j == 0) == Some(mblocks[j])
              && mblocks[j].name == blocks[j].name
    {
      LowerUpToAt(blocks, |blocks|, j);
      LoweredName(blocks, blocks[j], j == 0);
    }
    MLookupFirst(mblocks, i);
    if i == 0 {
      PhiOpsLead(blocks[0].ops);
      LoweredName(blocks, blocks[0], true);
    }
  }

  /** Rendering never panics on a well-formed kernel. */
  lemma {:induction false} LowerSucceeds<R, L>(blocks: seq<Block<R, L>>, n: nat)
    requires n <= |blocks| && forall b :: b in blocks ==> ExitsCovered(blocks, b)
    ensures LowerUpTo(blocks, n).Some?
  {
    hide LowerBlock, ExitsCovered;
    if n > 0 {
      LowerSucceeds(blocks, n - 1);
      BlockSucceeds(blocks, blocks[n - 1], n == 1);
    }
  }

  lemma {:induction false} BlockSucceeds<R, L>(blocks: seq<Block<R, L>>, b: Block<R, L>, isEntry: bool)
    requires ExitsCovered(blocks, b)
    ensures LowerBlock(blocks, b, isEntry).Some?
  {
    hide EmitOps, EmitSuccessor, EdgeCovered, EnsureValue;
    var c := EmitOps(b.name, b.ops).counter;
    if b.terminator.Br? {
      SuccessorSucceeds(blocks, b.name, c, b.terminator.target);
    } else if b.terminator.CondBr? {
      var cond := EnsureValue<R, L>(b.name, c, b.terminator.cond, I1);
      SuccessorSucceeds(blocks, b.name, cond.counter, b.terminator.thenLabel);
      var x := EmitSuccessor(blocks, b.name, cond.counter, b.terminator.thenLabel).value;
      SuccessorSucceeds(blocks, b.name, x.counter, b.terminator.elseLabel);
    }
  }

  lemma {:induction false} SuccessorSucceeds<R, L>(blocks: seq<Block<R, L>>, block: L, counter: nat, target: L)
    requires EdgeCovered(blocks, block, target)
    ensures EmitSuccessor(blocks, block, counter, target).Some?
  {
    hide EmitArgs, ArgsCovered, PhiOps, EdgeCovered;
    EdgeArgs(blocks, block, target);
    EmitArgsSucceeds(block, counter, PhiOps(Lookup(blocks, target).value.ops));
  }
}
