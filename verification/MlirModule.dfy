/** The module text's kernel: written out with names that are kept apart it runs in lockstep with the
    rendered form, so it has exactly the runs of the device IR. */
module MlirModule {
  import opened Options
  import opened Floats
  import opened DeviceIr
  import opened DeviceSemantics
  import opened LaunchMachine
  import opened MlirForm
  import opened MlirText
  import opened MlirNames
  import opened MlirNaming
  import opened PhiLowering
  import opened PhiEdges
  import opened PhiSimulation
  import opened PhiConverse

  type TState = MlirState<string, string>
  type TThread = MlirThread<string, string>
  type TBlock = MlirBlock<string, string>

  // ----- one step -----

  ghost predicate BlockInScope<R(!new), L(!new)>(scope: set<MName<R, L>>, b: MBlock<R, L>) {
    && InScope(scope, ParamNames(b.params))
    && forall i :: 0 <= i < |b.ops| ==> InScope(scope, MDefs(b.ops[i]))
  }

  /** What the blocks define is in scope, and different labels are spelled differently. */
  ghost predicate KernelInScope<R(!new), L(!new)>(nm: Naming<R, L>, scope: set<MName<R, L>>, blocks: seq<MBlock<R, L>>) {
    && Apart(nm, scope)
    && (forall b :: b in blocks ==> BlockInScope(scope, b))
    && (forall b, c :: b in blocks && c in blocks && nm.labelText(b.name) == nm.labelText(c.name) ==> b.name == c.name)
  }

  lemma ExecSameText<R(!new), L(!new)>(nm: Naming<R, L>, scope: set<MName<R, L>>, ctx: Context, mem: Memory,
                                       env: MEnv<R, L>, t: map<string, Val>, op: MOp<R, L>)
    requires SameEnv(nm, scope, env, t) && Apart(nm, scope) && InScope(scope, MDefs(op))
    ensures Follows(nm, scope, MExec(ctx, mem, env, op), MExec(ctx, mem, t, nm.Write(op)))
  {
    hide SameEnv, Apart, ExecOp, Eval, Naming.Name, Naming.Value, Naming.Plainly, FromSigned, EvalLiteral, HasType;
    match op
    case Constant(name, lit, ty) =>
      assert MDefs(op)[0] in scope;
      DefineSame(nm, scope, env, t, name, EvalLiteral(ctx.fm, lit, ty), Silent);
    case CsrRead(result, csr) =>
      assert MDefs(op)[0] in scope;
      PairSame(nm, scope, ctx.fm, env, t, csr, csr, I32);
      var c := Eval(ctx.fm, env, csr, I32);
      if c.Some? && c.value.IntV? && c.value.bits in ctx.csr {
        DefineSame(nm, scope, env, t, result, Some(FromSigned(64, ctx.csr[c.value.bits])), Silent);
      }
    case UniformCall(result, arg) =>
      assert MDefs(op)[0] in scope;
      ReadSame(nm, scope, env, t, arg);
      if arg in env {
        DefineSame(nm, scope, env, t, result, Some(env[arg]), Silent);
      }
    case Plain(p) => PlainSame(nm, scope, ctx, mem, env, t, p);
  }

  lemma {:induction false} BindParamsSame<R(!new), L(!new)>(nm: Naming<R, L>, scope: set<MName<R, L>>, fm: FloatModel,
                                                            params: seq<Param<R, L>>, args: seq<Passed<R, L>>,
                                                            env: MEnv<R, L>, t: map<string, Val>)
    requires |params| == |args| && SameEnv(nm, scope, env, t) && Apart(nm, scope) && InScope(scope, ParamNames(params))
    requires BindParams(fm, params, args, env).Some?
    ensures BindParams(fm, nm.Params(params), nm.Args(args), t).Some?
    ensures SameEnv(nm, scope, BindParams(fm, params, args, env).value, BindParams(fm, nm.Params(params), nm.Args(args), t).value)
  {
    hide Eval, Naming.Name, Naming.Value, Apart;
    if params == [] {
      EmptySame(nm, scope);
    } else {
      hide SameEnv;
      var n := |params| - 1;
      assert nm.Params(params)[..n] == nm.Params(params[..n]) && nm.Args(args)[..n] == nm.Args(args[..n]);
      assert InScope(scope, ParamNames(params[..n])) && params[n].name in scope by { LastInScope(scope, params, n); }
      BindParamsSame(nm, scope, fm, params[..n], args[..n], env, t);
      var before := BindParams(fm, params[..n], args[..n], env).value;
      PairSame(nm, scope, fm, env, t, args[n].value, args[n].value, args[n].ty);
      var v := Eval(fm, env, args[n].value, args[n].ty).value;
      BindSame(nm, scope, before, BindParams(fm, nm.Params(params[..n]), nm.Args(args[..n]), t).value, params[n].name, v);
    }
  }

  lemma {:induction false} LastInScope<R(!new), L(!new)>(scope: set<MName<R, L>>, params: seq<Param<R, L>>, n: nat)
    requires n < |params| && InScope(scope, ParamNames(params))
    ensures InScope(scope, ParamNames(params[..n])) && params[n].name in scope
  {
    assert ParamNames(params)[n] in scope;
    assert ParamNames(params[..n]) == ParamNames(params)[..n];
  }

  lemma EmptySame<R(!new), L(!new)>(nm: Naming<R, L>, scope: set<MName<R, L>>)
    ensures SameEnv(nm, scope, map[], map[])
  {
  }

  lemma {:induction false} LookupSame<R(!new), L(!new)>(nm: Naming<R, L>, scope: set<MName<R, L>>, all: seq<MBlock<R, L>>,
                                                        blocks: seq<MBlock<R, L>>, l: L)
    requires KernelInScope(nm, scope, all) && MLookup(blocks, l).Some? && forall b :: b in blocks ==> b in all
    ensures MLookup(nm.Module(blocks), nm.labelText(l)) == Some(nm.WriteBlock(MLookup(blocks, l).value))
    ensures BlockInScope(scope, MLookup(blocks, l).value)
  {
    hide BlockInScope, Apart;
    if blocks[0].name != l {
      assert nm.Module(blocks)[1..] == nm.Module(blocks[1..]);
      assert blocks[0] in all && MLookup(blocks, l).value in blocks;
      LookupSame(nm, scope, all, blocks[1..], l);
    }
  }

  /** The same place, with the same values. */
  ghost predicate SameState<R(!new), L(!new)>(nm: Naming<R, L>, scope: set<MName<R, L>>, s: MState<R, L>, t: TState) {
    match s
    case MTrapped => false
    case MDone => t.MDone?
    case MAt(l, pc, env) => t.MAt? && t.block == nm.labelText(l) && t.pc == pc && SameEnv(nm, scope, env, t.env)
  }

  lemma GotoSame<R(!new), L(!new)>(nm: Naming<R, L>, scope: set<MName<R, L>>, k: MKernel<R, L>, succ: Successor<R, L>,
                                   env: MEnv<R, L>, t: map<string, Val>)
    requires KernelInScope(nm, scope, k.blocks) && SameEnv(nm, scope, env, t) && !MGoto(k, succ, env).MTrapped?
    ensures SameState(nm, scope, MGoto(k, succ, env), MGoto(MKernel(nm.Module(k.blocks), k.ctx), nm.Succ(succ), t))
  {
    hide SameEnv, Apart, BindParams, Naming.Name, KernelInScope, BlockInScope, Naming.Value;
    assert k.blocks != [];
    assert Headed(nm.Module(k.blocks)) == nm.Module(Headed(k.blocks));
    LookupSame(nm, scope, k.blocks, Headed(k.blocks), succ.target);
    var b := MLookup(Headed(k.blocks), succ.target).value;
    ScopeParts(nm, scope, k.blocks, b);
    BindParamsSame(nm, scope, k.ctx.fm, b.params, succ.args, env, t);
    UnionSame(nm, scope, env, BindParams(k.ctx.fm, b.params, succ.args, env).value,
              t, BindParams(k.ctx.fm, nm.Params(b.params), nm.Args(succ.args), t).value);
  }

  lemma {:induction false} ScopeParts<R(!new), L(!new)>(nm: Naming<R, L>, scope: set<MName<R, L>>, blocks: seq<MBlock<R, L>>, b: MBlock<R, L>)
    requires KernelInScope(nm, scope, blocks) && BlockInScope(scope, b)
    ensures Apart(nm, scope) && InScope(scope, ParamNames(b.params))
    ensures forall i :: 0 <= i < |b.ops| ==> InScope(scope, MDefs(b.ops[i]))
  {
    hide Apart, InScope;
  }

  lemma LeaveSame<R(!new), L(!new)>(nm: Naming<R, L>, scope: set<MName<R, L>>, k: MKernel<R, L>, term: MTerminator<R, L>,
                                    env: MEnv<R, L>, t: map<string, Val>)
    requires KernelInScope(nm, scope, k.blocks) && SameEnv(nm, scope, env, t) && !MLeave(k, term, env).MTrapped?
    ensures SameState(nm, scope, MLeave(k, term, env), MLeave(MKernel(nm.Module(k.blocks), k.ctx), nm.Leave(term), t))
  {
    hide SameEnv, KernelInScope, MGoto, Eval, Naming.Value, Naming.Succ;
    match term
    case MRet =>
    case MBr(s) => GotoSame(nm, scope, k, s, env, t);
    case MCondBr(cond, a, b) =>
      PairSame(nm, scope, k.ctx.fm, env, t, cond, cond, I1);
      GotoSame(nm, scope, k, if Eval(k.ctx.fm, env, cond, I1).value.bits != 0 then a else b, env, t);
  }

  /** A step that does not trap is the same step with the names written out. */
  lemma StepSameText<R(!new), L(!new)>(nm: Naming<R, L>, scope: set<MName<R, L>>, k: MKernel<R, L>, mem: Memory, s: MState<R, L>, t: TState)
    requires KernelInScope(nm, scope, k.blocks) && SameState(nm, scope, s, t) && !MStep(k, mem, s).0.MTrapped?
    ensures var (s', e) := MStep(k, mem, s);
            var (t', e') := MStep(MKernel(nm.Module(k.blocks), k.ctx), mem, t);
            e == e' && SameState(nm, scope, s', t')
  {
    hide SameEnv, KernelInScope, BlockInScope, MExec, MLeave, Naming.Write, Naming.Leave, InScope;
    if s.MAt? {
      LookupSame(nm, scope, k.blocks, k.blocks, s.block);
      var b := MLookup(k.blocks, s.block).value;
      ScopeParts(nm, scope, k.blocks, b);
      if s.pc < |b.ops| {
        ExecSameText(nm, scope, k.ctx, mem, s.env, t.env, b.ops[s.pc]);
      } else {
        LeaveSame(nm, scope, k, b.terminator, s.env, t.env);
      }
    }
  }

  // ----- whole runs, in lockstep -----

  ghost predicate SameThread<R(!new), L(!new)>(nm: Naming<R, L>, scope: set<MName<R, L>>, a: MThread<R, L>, b: TThread) {
    SameState(nm, scope, a.state, b.state) && a.log == b.log
  }

  ghost predicate SameGlobal<R(!new), L(!new)>(nm: Naming<R, L>, scope: set<MName<R, L>>, a: Global<MThread<R, L>>, b: Global<TThread>) {
    && |a.threads| == |b.threads| && a.mem == b.mem
    && forall t: nat :: t < |a.threads| ==> SameThread(nm, scope, a.threads[t], b.threads[t])
  }

  ghost predicate NoMTraps<N, L>(g: Global<MlirThread<N, L>>) {
    forall t :: 0 <= t < |g.threads| ==> !g.threads[t].state.MTrapped?
  }

  lemma MAdvanceTrapped<R, L>(k: MKernel<R, L>, mem: Memory, th: MThread<R, L>)
    ensures th.state.MTrapped? ==> MAdvance(k, mem, th).state.MTrapped?
  {
    hide MExec, MLeave;
  }

  lemma {:induction false} MTrapStays<R, L>(mblocks: seq<MBlock<R, L>>, ctx: nat -> Context, t0: MState<R, L>, a: Global<MThread<R, L>>, t: nat)
    requires t < |a.threads| && NoMTraps(Tick(TargetSystem(mblocks, ctx, t0), a, t))
    ensures NoMTraps(a) && !MStep(MKernel(mblocks, ctx(t)), a.mem, a.threads[t].state).0.MTrapped?
  {
    hide MStep, Apply;
    var a' := Tick(TargetSystem(mblocks, ctx, t0), a, t);
    MAdvanceTrapped(MKernel(mblocks, ctx(t)), a.mem, a.threads[t]);
    assert !a'.threads[t].state.MTrapped?;
    forall u | 0 <= u < |a.threads| ensures !a.threads[u].state.MTrapped? {
      assert a'.threads[u] == if u == t then MAdvance(MKernel(mblocks, ctx(t)), a.mem, a.threads[t]) else a.threads[u];
    }
  }

  lemma {:induction false} RunSame<R(!new), L(!new)>(nm: Naming<R, L>, scope: set<MName<R, L>>, mblocks: seq<MBlock<R, L>>, ctx: nat -> Context,
                                                     t0: MState<R, L>, u0: TState, a: Global<MThread<R, L>>, b: Global<TThread>,
                                                     schedule: seq<nat>)
    requires KernelInScope(nm, scope, mblocks) && SameGlobal(nm, scope, a, b) && IsSchedule(schedule, |a.threads|)
    requires NoMTraps(Run(TargetSystem(mblocks, ctx, t0), a, schedule))
    ensures SameGlobal(nm, scope, Run(TargetSystem(mblocks, ctx, t0), a, schedule),
                       Run(TargetSystem(nm.Module(mblocks), ctx, u0), b, schedule))
  {
    hide KernelInScope, SameState, MStep, Apply;
    if schedule != [] {
      var n, t := |schedule| - 1, schedule[|schedule| - 1];
      var mid := Run(TargetSystem(mblocks, ctx, t0), a, schedule[..n]);
      MTrapStays(mblocks, ctx, t0, mid, t);
      RunSame(nm, scope, mblocks, ctx, t0, u0, a, b, schedule[..n]);
      var mid' := Run(TargetSystem(nm.Module(mblocks), ctx, u0), b, schedule[..n]);
      assert SameThread(nm, scope, mid.threads[t], mid'.threads[t]);
      StepSameText(nm, scope, MKernel(mblocks, ctx(t)), mid.mem, mid.threads[t].state, mid'.threads[t].state);
    }
  }

  /** A thread on its own, with the names written out. */
  lemma {:induction false} AloneSame<R(!new), L(!new)>(nm: Naming<R, L>, scope: set<MName<R, L>>, mblocks: seq<MBlock<R, L>>, ctx: nat -> Context,
                                                       t0: MState<R, L>, u0: TState, t: nat, mem: Memory, m: nat)
    requires KernelInScope(nm, scope, mblocks) && SameState(nm, scope, t0, u0)
    requires !Alone(TargetSystem(mblocks, ctx, t0), t, mem, m).state.MTrapped?
    ensures SameThread(nm, scope, Alone(TargetSystem(mblocks, ctx, t0), t, mem, m),
                       Alone(TargetSystem(nm.Module(mblocks), ctx, u0), t, mem, m))
  {
    hide KernelInScope, SameState, MStep;
    if m > 0 {
      var before := Alone(TargetSystem(mblocks, ctx, t0), t, mem, m - 1);
      MAdvanceTrapped(MKernel(mblocks, ctx(t)), mem, before);
      AloneSame(nm, scope, mblocks, ctx, t0, u0, t, mem, m - 1);
      StepSameText(nm, scope, MKernel(mblocks, ctx(t)), mem, before.state,
                   Alone(TargetSystem(nm.Module(mblocks), ctx, u0), t, mem, m - 1).state);
    }
  }

  // ----- what keeps names apart -----

  /** Registers are spelled differently from each other and from every constant of the kernel, and labels
      differently even after sanitizing. */
  ghost predicate GoodNames<R(!new), L(!new)>(nm: Naming<R, L>, blocks: seq<Block<R, L>>, param: R) {
    var regs := [param] + Definitions(blocks);
    && param !in Definitions(blocks)
    && (forall r, s :: r in regs && s in regs && nm.regText(r) == nm.regText(s) ==> r == s)
    && (forall i, j :: 0 <= i < j < |blocks| ==> Sanitized(nm.labelText(blocks[i].name)) != Sanitized(nm.labelText(blocks[j].name)))
    && (forall r, b, n: nat, ty :: r in regs && b in blocks ==> nm.regText(r) != ValueName(nm.labelText(b.name), n, ty))
  }

  /** All names of the rendered kernel. */
  function AllNames<R, L>(mblocks: seq<MBlock<R, L>>, param: R): seq<MName<R, L>> { [Orig(param)] + MDefinitions(mblocks) }

  function Scope<R(==), L(==)>(mblocks: seq<MBlock<R, L>>, param: R): set<MName<R, L>> { set n | n in AllNames(mblocks, param) }

  lemma {:induction false} AllNamesFacts<R, L>(blocks: seq<Block<R, L>>, mblocks: seq<MBlock<R, L>>, param: R)
    requires Lowered(blocks, mblocks) && param !in Definitions(blocks)
    ensures var names := AllNames(mblocks, param);
            && Origs(names) == [param] + Definitions(blocks) && SlotsApart(names) && Distinct(names)
            && FromBlocks(names, blocks, |blocks|)
  {
    hide LowerKernel, PhisFirst, ExitsCovered, MDefinitions, Definitions;
    KernelNames(blocks, mblocks);
    var names := AllNames(mblocks, param);
    OrigsAppend([Orig(param)], MDefinitions(mblocks));
    OrigsOfNamed<R, L>([param]);
    assert Named<R, L>([param]) == [Orig(param)];
    ApartDistinct(names);
  }

  /** Two names of the kernel are spelled alike only if they are the same definition. */
  lemma {:induction false} SpelledApart<R(!new), L(!new)>(nm: Naming<R, L>, blocks: seq<Block<R, L>>, mblocks: seq<MBlock<R, L>>, param: R, i: nat, j: nat)
    requires Lowered(blocks, mblocks) && GoodNames(nm, blocks, param)
    requires i <= j < |AllNames(mblocks, param)|
    requires nm.Name(AllNames(mblocks, param)[i]) == nm.Name(AllNames(mblocks, param)[j])
    ensures i == j
  {
    hide Lowered, Definitions, MDefinitions, ValueName, SuffixOf, Sanitized;
    var names := AllNames(mblocks, param);
    AllNamesFacts(blocks, mblocks, param);
    var a, b := names[i], names[j];
    if a.Orig? {
      OrigsIn(names, i);
    }
    if b.Orig? {
      OrigsIn(names, j);
    }
    if a.Const? && b.Const? {
      ValueNamesAgree(nm.labelText(a.block), a.index, SuffixOf(a.ty), nm.labelText(b.block), b.index, SuffixOf(b.ty));
      var k := BlockOfConstant(names, blocks, i);
      var l := BlockOfConstant(names, blocks, j);
      assert k == l;
      assert SameSlot(a, b);
    } else if a.Const? {
      var k := BlockOfConstant(names, blocks, i);
    } else if b.Const? {
      var k := BlockOfConstant(names, blocks, j);
    }
  }

  lemma {:induction false} BlockOfConstant<R, L>(names: seq<MName<R, L>>, blocks: seq<Block<R, L>>, i: nat) returns (k: nat)
    requires i < |names| && names[i].Const? && FromBlocks(names, blocks, |blocks|)
    ensures k < |blocks| && blocks[k].name == names[i].block && blocks[k] in blocks
  {
    k :| 0 <= k < |blocks| && blocks[k].name == names[i].block;
  }

  // ----- what the blocks define -----

  lemma {:induction false} DefinedByOp<N, L>(ops: seq<MlirOp<N, L>>, i: nat, x: N)
    requires i < |ops| && x in MDefs(ops[i])
    ensures x in MDefsOf(ops)
  {
    hide MDefs;
    if i < |ops| - 1 {
      DefinedByOp(ops[..|ops| - 1], i, x);
    }
  }

  lemma {:induction false} DefinedByBlock<N, L>(blocks: seq<MlirBlock<N, L>>, i: nat, x: N)
    requires i < |blocks| && (x in ParamNames(blocks[i].params) || x in MDefsOf(blocks[i].ops))
    ensures x in MDefinitions(blocks)
  {
    hide MDefsOf;
    if i < |blocks| - 1 {
      DefinedByBlock(blocks[..|blocks| - 1], i, x);
    }
  }

  lemma {:induction false} BlocksInScope<R(!new), L(!new)>(mblocks: seq<MBlock<R, L>>, param: R, i: nat)
    requires i < |mblocks|
    ensures BlockInScope(Scope(mblocks, param), mblocks[i])
  {
    hide MDefinitions, MDefsOf, MDefs;
    var b, scope := mblocks[i], Scope(mblocks, param);
    forall x | x in ParamNames(b.params) ensures x in scope {
      DefinedByBlock(mblocks, i, x);
    }
    forall k | 0 <= k < |b.ops| ensures InScope(scope, MDefs(b.ops[k])) {
      forall x | x in MDefs(b.ops[k]) ensures x in scope {
        DefinedByOp(b.ops, k, x);
        DefinedByBlock(mblocks, i, x);
      }
    }
  }

  lemma {:induction false} LoweredLabels<R, L>(blocks: seq<Block<R, L>>, mblocks: seq<MBlock<R, L>>, i: nat)
    requires LowerKernel(blocks) == Some(mblocks) && i < |blocks|
    ensures |mblocks| == |blocks| && mblocks[i].name == blocks[i].name
    ensures LowerBlock(blocks, blocks[i], i == 0) == Some(mblocks[i])
  {
    hide LowerBlock;
    LowerUpToAt(blocks, |blocks|, i);
    LoweredName(blocks, blocks[i], i == 0);
  }

  /** So the written kernel runs in lockstep with the rendered one. */
  lemma {:induction false} GoodNamesInScope<R(!new), L(!new)>(nm: Naming<R, L>, blocks: seq<Block<R, L>>, mblocks: seq<MBlock<R, L>>, param: R)
    requires Lowered(blocks, mblocks) && GoodNames(nm, blocks, param)
    ensures KernelInScope(nm, Scope(mblocks, param), mblocks)
  {
    hide LowerUpTo, WellFormed, BlockInScope, MDefinitions, Definitions, Naming.Name, Sanitized, Distinct;
    var scope, names := Scope(mblocks, param), AllNames(mblocks, param);
    forall a, b | a in scope && b in scope && nm.Name(a) == nm.Name(b) ensures a == b {
      var i: nat :| i < |names| && names[i] == a;
      var j: nat :| j < |names| && names[j] == b;
      if i <= j {
        SpelledApart(nm, blocks, mblocks, param, i, j);
      } else {
        SpelledApart(nm, blocks, mblocks, param, j, i);
      }
    }
    LowerLength(blocks, |blocks|);
    forall b | b in mblocks ensures BlockInScope(scope, b) {
      var i: nat :| i < |mblocks| && mblocks[i] == b;
      BlocksInScope(mblocks, param, i);
    }
    forall b, c | b in mblocks && c in mblocks && nm.labelText(b.name) == nm.labelText(c.name) ensures b.name == c.name {
      var i: nat :| i < |mblocks| && mblocks[i] == b;
      var j: nat :| j < |mblocks| && mblocks[j] == c;
      LoweredLabels(blocks, mblocks, i);
      LoweredLabels(blocks, mblocks, j);
    }
  }

  // ----- the text is a module -----

  /** A branch names a labelled block and passes one value of the right type for each of its parameters. */
  ghost predicate Resolves<N, L>(blocks: seq<MlirBlock<N, L>>, s: MlirSuccessor<N, L>) {
    var b := MLookup(Headed(blocks), s.target);
    b.Some? && |b.value.params| == |s.args| && forall i :: 0 <= i < |s.args| ==> s.args[i].ty == b.value.params[i].ty
  }

  ghost predicate ExitsResolve<N, L>(blocks: seq<MlirBlock<N, L>>, t: MlirTerminator<N, L>) {
    match t
    case MRet => true
    case MBr(s) => Resolves(blocks, s)
    case MCondBr(_, a, b) => Resolves(blocks, a) && Resolves(blocks, b)
  }

  /** Written labels are distinct, every name is defined once, the entry takes no parameters, and every branch resolves. */
  ghost predicate IsModule(blocks: seq<TBlock>, param: string) {
    && blocks != [] && blocks[0].params == []
    && (forall i, j :: 0 <= i < j < |blocks| ==> blocks[i].name != blocks[j].name)
    && Distinct([param] + MDefinitions(blocks))
    && (forall b :: b in blocks ==> ExitsResolve(blocks, b.terminator))
  }

  lemma {:induction false} ArgTypes<R, L>(block: L, counter: nat, phis: seq<Op<R, L>>)
    requires (forall i :: 0 <= i < |phis| ==> phis[i].Phi?) && EmitArgs(block, counter, phis).Some?
    ensures var args := EmitArgs(block, counter, phis).value.args;
            |args| == |phis| && forall i :: 0 <= i < |phis| ==> args[i].ty == phis[i].ty
  {
    hide EnsureValue;
    if phis != [] {
      ArgTypes(block, counter, phis[..|phis| - 1]);
    }
  }

  lemma {:induction false} SuccessorResolves<R, L>(blocks: seq<Block<R, L>>, mblocks: seq<MBlock<R, L>>, block: L, counter: nat, target: L)
    requires Lowered(blocks, mblocks) && EmitSuccessor(blocks, block, counter, target).Some?
    requires Lookup(blocks, target).Some? && target != blocks[0].name
    ensures Resolves(mblocks, EmitSuccessor(blocks, block, counter, target).value.succ)
  {
    hide Lowered, EmitArgs, EmitOps, EmitTerminator, PhisFirst, ExitsCovered, PhiOps;
    var m := LoweredBlock(blocks, mblocks, target);
    ArgTypes(block, counter, PhiOps(Lookup(blocks, target).value.ops));
  }

  lemma {:induction false} LoweredExits<R, L>(blocks: seq<Block<R, L>>, mblocks: seq<MBlock<R, L>>, i: nat)
    requires Lowered(blocks, mblocks) && i < |blocks| && i < |mblocks|
    ensures ExitsResolve(mblocks, mblocks[i].terminator)
  {
    hide Lowered, LowerKernel, EmitOps, EmitSuccessor, EnsureValue, Resolves, PhisFirst, ParamsOf, PhiOps;
    var b := blocks[i];
    BlockParts(blocks, mblocks, i);
    var counter := EmitOps(b.name, b.ops).counter;
    match b.terminator
    case RetVoid =>
    case Br(l) => SuccessorResolves(blocks, mblocks, b.name, counter, l);
    case CondBr(cond, l, m) =>
      var c: Ensured<R, L> := EnsureValue(b.name, counter, cond, I1);
      var x := EmitSuccessor(blocks, b.name, c.counter, l).value;
      SuccessorResolves(blocks, mblocks, b.name, c.counter, l);
      SuccessorResolves(blocks, mblocks, b.name, x.counter, m);
  }

  lemma {:induction false} BlockParts<R, L>(blocks: seq<Block<R, L>>, mblocks: seq<MBlock<R, L>>, i: nat)
    requires Lowered(blocks, mblocks) && i < |blocks|
    ensures |mblocks| == |blocks| && ExitsCovered(blocks, blocks[i]) && mblocks[i].name == blocks[i].name
    ensures LowerBlock(blocks, blocks[i], i == 0) == Some(mblocks[i])
  {
    hide LowerKernel, LowerBlock, ExitsCovered, PhisFirst;
    LoweredLabels(blocks, mblocks, i);
  }

  // ----- definitions and branches, written out -----

  function Spelled<R, L>(nm: Naming<R, L>, names: seq<MName<R, L>>): (r: seq<string>)
    ensures |r| == |names| && forall i :: 0 <= i < |names| ==> r[i] == nm.Name(names[i])
  {
    seq(|names|, i requires 0 <= i < |names| => nm.Name(names[i]))
  }

  lemma SpelledOp<R, L>(nm: Naming<R, L>, op: MOp<R, L>)
    ensures MDefs(nm.Write(op)) == Spelled(nm, MDefs(op))
  {
    hide Naming.Name, Naming.Value, Naming.Incoming;
  }

  lemma {:induction false} SpelledOps<R, L>(nm: Naming<R, L>, ops: seq<MOp<R, L>>)
    ensures MDefsOf(nm.Ops(ops)) == Spelled(nm, MDefsOf(ops))
  {
    hide MDefs, Naming.Write, Naming.Name;
    if ops != [] {
      var n := |ops| - 1;
      assert nm.Ops(ops)[..n] == nm.Ops(ops[..n]);
      SpelledOps(nm, ops[..n]);
      SpelledOp(nm, ops[n]);
    }
  }

  lemma {:induction false} SpelledDefinitions<R, L>(nm: Naming<R, L>, blocks: seq<MBlock<R, L>>)
    ensures MDefinitions(nm.Module(blocks)) == Spelled(nm, MDefinitions(blocks))
  {
    hide MDefsOf, Naming.Name, Naming.Ops, Naming.Leave;
    if blocks != [] {
      var n := |blocks| - 1;
      assert nm.Module(blocks)[..n] == nm.Module(blocks[..n]);
      SpelledDefinitions(nm, blocks[..n]);
      SpelledOps(nm, blocks[n].ops);
      assert ParamNames(nm.Params(blocks[n].params)) == Spelled(nm, ParamNames(blocks[n].params));
    }
  }

  lemma {:induction false} ResolvesText<R(!new), L(!new)>(nm: Naming<R, L>, scope: set<MName<R, L>>, blocks: seq<MBlock<R, L>>, s: Successor<R, L>)
    requires KernelInScope(nm, scope, blocks) && Resolves(blocks, s)
    ensures Resolves(nm.Module(blocks), nm.Succ(s))
  {
    hide KernelInScope, BlockInScope, Naming.Ops, Naming.Leave, Naming.Value, Naming.Name;
    LookupSame(nm, scope, blocks, Headed(blocks), s.target);
    assert Headed(nm.Module(blocks)) == nm.Module(Headed(blocks));
  }

  lemma {:induction false} ExitsResolveText<R(!new), L(!new)>(nm: Naming<R, L>, scope: set<MName<R, L>>, blocks: seq<MBlock<R, L>>, t: MTerminator<R, L>)
    requires KernelInScope(nm, scope, blocks) && ExitsResolve(blocks, t)
    ensures ExitsResolve(nm.Module(blocks), nm.Leave(t))
  {
    hide KernelInScope, Resolves, Naming.Succ, Naming.Value;
    match t
    case MRet =>
    case MBr(s) => ResolvesText(nm, scope, blocks, s);
    case MCondBr(_, a, b) =>
      ResolvesText(nm, scope, blocks, a);
      ResolvesText(nm, scope, blocks, b);
  }

  /** A well-formed kernel with good names is written out as a module. */
  lemma {:induction false} TextIsModule<R(!new), L(!new)>(nm: Naming<R, L>, blocks: seq<Block<R, L>>, mblocks: seq<MBlock<R, L>>, param: R)
    requires Lowered(blocks, mblocks) && GoodNames(nm, blocks, param)
    ensures IsModule(nm.Module(mblocks), nm.regText(param))
  {
    hide LowerUpTo, LowerBlock, MDefinitions, Definitions, Naming.Name, Sanitized, ExitsResolve, KernelInScope, PhisFirst, ExitsCovered,
         GoodNames, Naming.Ops, Naming.Leave;
    GoodNamesInScope(nm, blocks, mblocks, param);
    var text := nm.Module(mblocks);
    LowerLength(blocks, |blocks|);
    forall b | b in text ensures ExitsResolve(text, b.terminator) {
      var i: nat :| i < |text| && text[i] == b;
      LoweredExits(blocks, mblocks, i);
      ExitsResolveText(nm, Scope(mblocks, param), mblocks, mblocks[i].terminator);
    }
    EntryTakesNothing(blocks, mblocks);
    SpelledDistinct(nm, blocks, mblocks, param);
    forall i, j | 0 <= i < j < |text| ensures text[i].name != text[j].name {
      LabelsSpelledApart(nm, blocks, mblocks, param, i, j);
    }
  }

  lemma {:induction false} EntryTakesNothing<R, L>(blocks: seq<Block<R, L>>, mblocks: seq<MBlock<R, L>>)
    requires Lowered(blocks, mblocks)
    ensures mblocks != [] && mblocks[0].params == []
  {
    hide LowerKernel, PhisFirst, ExitsCovered, EmitOps, EmitTerminator;
    LoweredLabels(blocks, mblocks, 0);
  }

  lemma {:induction false} LabelsSpelledApart<R(!new), L(!new)>(nm: Naming<R, L>, blocks: seq<Block<R, L>>, mblocks: seq<MBlock<R, L>>, param: R, i: nat, j: nat)
    requires LowerKernel(blocks) == Some(mblocks) && GoodNames(nm, blocks, param) && i < j < |blocks|
    ensures |mblocks| == |blocks| && nm.labelText(mblocks[i].name) != nm.labelText(mblocks[j].name)
  {
    hide LowerKernel, Sanitized, ValueName;
    LoweredLabels(blocks, mblocks, i);
    LoweredLabels(blocks, mblocks, j);
  }

  lemma {:induction false} SpelledDistinct<R(!new), L(!new)>(nm: Naming<R, L>, blocks: seq<Block<R, L>>, mblocks: seq<MBlock<R, L>>, param: R)
    requires Lowered(blocks, mblocks) && GoodNames(nm, blocks, param)
    ensures Distinct([nm.regText(param)] + MDefinitions(nm.Module(mblocks)))
  {
    hide Lowered, GoodNames, MDefinitions;
    SpelledDefinitions(nm, mblocks);
    var names := AllNames(mblocks, param);
    var texts := [nm.regText(param)] + MDefinitions(nm.Module(mblocks));
    assert texts == Spelled(nm, names);
    forall i, j | 0 <= i < j < |texts| ensures texts[i] != texts[j] {
      if nm.Name(names[i]) == nm.Name(names[j]) {
        SpelledApart(nm, blocks, mblocks, param, i, j);
      }
    }
  }

  // ----- the runs of the module -----

  function TextStart<R, L>(nm: Naming<R, L>, blocks: seq<Block<R, L>>, param: R, v: Val): TState
    requires blocks != []
  {
    MAt(nm.labelText(blocks[0].name), 0, map[nm.regText(param) := v])
  }

  lemma {:induction false} StartsSame<R(!new), L(!new)>(nm: Naming<R, L>, blocks: seq<Block<R, L>>, mblocks: seq<MBlock<R, L>>, param: R, v: Val)
    requires blocks != []
    ensures SameState(nm, Scope(mblocks, param), TargetStart(blocks, map[Orig(param) := v]), TextStart(nm, blocks, param, v))
  {
    var env: MEnv<R, L> := map[Orig(param) := v];
    assert AllNames(mblocks, param)[0] == Orig(param);
    assert Orig(param) in env && nm.Name(Orig(param)) == nm.regText(param);
  }

  lemma StartRel<R(!new), L(!new)>(param: R, v: Val)
    ensures Rel<R, L>(map[param := v], map[Orig(param) := v])
  {
  }

  /** Threads of a kernel, all at its entry with their argument in the parameter register. */
  function Started<R(==), L(==)>(blocks: seq<Block<R, L>>, param: R, v: Val, mem: Memory, threads: nat): Global<Thread<R, L>>
    requires blocks != []
  {
    Global(seq(threads, _ => Thread(SourceStart(blocks, map[param := v]), EMPTY_LOG)), mem)
  }

  function MStarted<R(==), L(==)>(blocks: seq<Block<R, L>>, param: R, v: Val, mem: Memory, threads: nat): Global<MThread<R, L>>
    requires blocks != []
  {
    Global(seq(threads, _ => MThread(TargetStart(blocks, map[Orig(param) := v]), EMPTY_LOG)), mem)
  }

  function TStarted<R(==), L(==)>(nm: Naming<R, L>, blocks: seq<Block<R, L>>, param: R, v: Val, mem: Memory, threads: nat): Global<TThread>
    requires blocks != []
  {
    Global(seq(threads, _ => MThread(TextStart(nm, blocks, param, v), EMPTY_LOG)), mem)
  }

  /** The two systems, as they are launched. */
  function KernelSystem<R(==), L(==)>(blocks: seq<Block<R, L>>, ctx: nat -> Context, param: R, v: Val): System<Thread<R, L>>
    requires blocks != []
  {
    SourceSystem(blocks, ctx, SourceStart(blocks, map[param := v]))
  }

  function TextSystem<R(==), L(==)>(nm: Naming<R, L>, blocks: seq<Block<R, L>>, mblocks: seq<MBlock<R, L>>, ctx: nat -> Context,
                                    param: R, v: Val): System<TThread>
    requires blocks != []
  {
    TargetSystem(nm.Module(mblocks), ctx, TextStart(nm, blocks, param, v))
  }

  lemma {:induction false} TextRun<R(!new), L(!new)>(nm: Naming<R, L>, blocks: seq<Block<R, L>>, mblocks: seq<MBlock<R, L>>, ctx: nat -> Context,
                                                     param: R, v: Val, mem: Memory, threads: nat, schedule: seq<nat>)
    requires Lowered(blocks, mblocks) && blocks != [] && GoodNames(nm, blocks, param) && IsSchedule(schedule, threads)
    requires NoMTraps(Run(TargetSystem(mblocks, ctx, TargetStart(blocks, map[Orig(param) := v])),
                          MStarted(blocks, param, v, mem, threads), schedule))
    ensures SameGlobal(nm, Scope(mblocks, param),
                       Run(TargetSystem(mblocks, ctx, TargetStart(blocks, map[Orig(param) := v])),
                           MStarted(blocks, param, v, mem, threads), schedule),
                       Run(TextSystem(nm, blocks, mblocks, ctx, param, v), TStarted(nm, blocks, param, v, mem, threads), schedule))
  {
    hide Lowered, GoodNames, KernelInScope, Run, SameState, NoMTraps, Scope;
    GoodNamesInScope(nm, blocks, mblocks, param);
    StartsSame(nm, blocks, mblocks, param, v);
    RunSame(nm, Scope(mblocks, param), mblocks, ctx, TargetStart(blocks, map[Orig(param) := v]), TextStart(nm, blocks, param, v),
            MStarted(blocks, param, v, mem, threads), TStarted(nm, blocks, param, v, mem, threads), schedule);
  }

  lemma SameTrans<R(!new), L(!new)>(nm: Naming<R, L>, scope: set<MName<R, L>>, a: Global<Thread<R, L>>, b: Global<MThread<R, L>>, c: Global<TThread>)
    requires SameOutcome(a, b) && SameGlobal(nm, scope, b, c)
    ensures SameOutcome(a, c)
  {
    hide SameEnv;
    forall t: nat | t < |a.threads| ensures SameEnd(a.threads[t], c.threads[t]) {
      assert SameEnd(a.threads[t], b.threads[t]) && SameThread(nm, scope, b.threads[t], c.threads[t]);
    }
  }

  lemma OutcomeNoTraps<R, L>(a: Global<Thread<R, L>>, b: Global<MThread<R, L>>)
    requires SameOutcome(a, b)
    ensures NoMTraps(b)
  {
    forall t: nat | t < |b.threads| ensures !b.threads[t].state.MTrapped? {
      assert SameEnd(a.threads[t], b.threads[t]);
    }
  }

  /** A thread inside a block is inside the block of that label, and every register has its value under its own name. */
  ghost predicate SameRegisters<R(!new), L(!new)>(nm: Naming<R, L>, a: ThreadState<R, L>, c: TState) {
    a.At? ==>
      && c.MAt? && c.block == nm.labelText(a.block)
      && forall r :: r in a.env ==> nm.regText(r) in c.env && c.env[nm.regText(r)] == a.env[r]
  }

  ghost predicate AllSameRegisters<R(!new), L(!new)>(nm: Naming<R, L>, a: Global<Thread<R, L>>, c: Global<TThread>)
    requires |a.threads| == |c.threads|
  {
    forall t: nat :: t < |a.threads| ==> SameRegisters(nm, a.threads[t].state, c.threads[t].state)
  }

  lemma {:induction false} RegistersKept<R(!new), L(!new)>(nm: Naming<R, L>, scope: set<MName<R, L>>, fm: FloatModel, blocks: seq<Block<R, L>>,
                                                           a: Thread<R, L>, b: MThread<R, L>, c: TThread)
    requires ThreadRel(fm, blocks, a, b) && SameThread(nm, scope, b, c)
    ensures SameRegisters(nm, a.state, c.state)
  {
    if a.state.At? {
      forall r | r in a.state.env
        ensures nm.regText(r) in c.state.env && c.state.env[nm.regText(r)] == a.state.env[r]
      {
        assert Orig(r) in b.state.env && nm.Name(Orig(r)) == nm.regText(r);
      }
    }
  }

  lemma {:induction false} AllRegistersKept<R(!new), L(!new)>(nm: Naming<R, L>, scope: set<MName<R, L>>, blocks: seq<Block<R, L>>, ctx: nat -> Context,
                                                              a: Global<Thread<R, L>>, b: Global<MThread<R, L>>, c: Global<TThread>)
    requires GlobalRel(blocks, ctx, a, b) && SameGlobal(nm, scope, b, c)
    ensures |a.threads| == |c.threads| && AllSameRegisters(nm, a, c)
  {
    hide ThreadRel, SameThread, SameRegisters;
    forall t: nat | t < |a.threads| ensures SameRegisters(nm, a.threads[t].state, c.threads[t].state) {
      RegistersKept(nm, scope, ctx(t).fm, blocks, a.threads[t], b.threads[t], c.threads[t]);
    }
  }

  /** A well-formed kernel with good names is written out as a module, and for any number of threads, any
      memory and any interleaving in which none traps, some interleaving of the module ends with the same
      memory and logs, the same threads returned, and in the others the same values of all registers. */
  lemma {:induction false} ModulePreservesRuns<R(!new), L(!new)>(nm: Naming<R, L>, blocks: seq<Block<R, L>>, ctx: nat -> Context, param: R, v: Val,
                                                                 mem: Memory, threads: nat, schedule: seq<nat>)
    returns (mblocks: seq<MBlock<R, L>>, matching: seq<nat>)
    requires WellFormed(blocks) && GoodNames(nm, blocks, param) && IsSchedule(schedule, threads)
    requires NoneTrapped(Run(KernelSystem(blocks, ctx, param, v), Started(blocks, param, v, mem, threads), schedule))
    ensures LowerKernel(blocks) == Some(mblocks) && IsModule(nm.Module(mblocks), nm.regText(param)) && IsSchedule(matching, threads)
    ensures SameOutcome(Run(KernelSystem(blocks, ctx, param, v), Started(blocks, param, v, mem, threads), schedule),
                        Run(TextSystem(nm, blocks, mblocks, ctx, param, v), TStarted(nm, blocks, param, v, mem, threads), matching))
    ensures AllSameRegisters(nm, Run(KernelSystem(blocks, ctx, param, v), Started(blocks, param, v, mem, threads), schedule),
                             Run(TextSystem(nm, blocks, mblocks, ctx, param, v), TStarted(nm, blocks, param, v, mem, threads), matching))
  {
    hide Rel, Run, NoneTrapped, SameOutcome, LowerUpTo, ExitsCovered, PhisFirst, GoodNames, IsModule, NoMTraps, SameGlobal, Scope,
         Distinct, DistinctLabels, Definitions, GlobalRel, AllSameRegisters;
    StartRel<R, L>(param, v);
    mblocks, matching := RenderingPreservesRuns(blocks, ctx, map[param := v], map[Orig(param) := v], mem, threads, schedule);
    TextIsModule(nm, blocks, mblocks, param);
    OutcomeNoTraps(Run(KernelSystem(blocks, ctx, param, v), Started(blocks, param, v, mem, threads), schedule),
                   Run(TargetSystem(mblocks, ctx, TargetStart(blocks, map[Orig(param) := v])),
                       MStarted(blocks, param, v, mem, threads), matching));
    TextRun(nm, blocks, mblocks, ctx, param, v, mem, threads, matching);
    SameTrans(nm, Scope(mblocks, param),
              Run(KernelSystem(blocks, ctx, param, v), Started(blocks, param, v, mem, threads), schedule),
              Run(TargetSystem(mblocks, ctx, TargetStart(blocks, map[Orig(param) := v])),
                  MStarted(blocks, param, v, mem, threads), matching),
              Run(TextSystem(nm, blocks, mblocks, ctx, param, v), TStarted(nm, blocks, param, v, mem, threads), matching));
    AllRegistersKept(nm, Scope(mblocks, param), blocks, ctx,
                     Run(KernelSystem(blocks, ctx, param, v), Started(blocks, param, v, mem, threads), schedule),
                     Run(TargetSystem(mblocks, ctx, TargetStart(blocks, map[Orig(param) := v])),
                         MStarted(blocks, param, v, mem, threads), matching),
                     Run(TextSystem(nm, blocks, mblocks, ctx, param, v), TStarted(nm, blocks, param, v, mem, threads), matching));
  }

  /** And if no interleaving of the kernel traps, every interleaving of the module ends with the memory and logs
      of some interleaving of the kernel, with the same threads returned. */
  lemma {:induction false} ModuleAddsNoRuns<R(!new), L(!new)>(nm: Naming<R, L>, blocks: seq<Block<R, L>>, ctx: nat -> Context, param: R, v: Val,
                                                              mem: Memory, threads: nat, schedule: seq<nat>)
    returns (mblocks: seq<MBlock<R, L>>, origin: seq<nat>)
    requires WellFormed(blocks) && GoodNames(nm, blocks, param) && IsSchedule(schedule, threads)
    requires NeverTraps(KernelSystem(blocks, ctx, param, v), Started(blocks, param, v, mem, threads))
    ensures LowerKernel(blocks) == Some(mblocks) && IsSchedule(origin, threads)
    ensures SameOutcome(Run(KernelSystem(blocks, ctx, param, v), Started(blocks, param, v, mem, threads), origin),
                        Run(TextSystem(nm, blocks, mblocks, ctx, param, v), TStarted(nm, blocks, param, v, mem, threads), schedule))
  {
    hide Rel, Run, NeverTraps, SameOutcome, LowerUpTo, ExitsCovered, PhisFirst, GoodNames, NoMTraps, SameGlobal, Scope,
         Distinct, DistinctLabels, Definitions;
    StartRel<R, L>(param, v);
    mblocks, origin := RenderingAddsNoRuns(blocks, ctx, map[param := v], map[Orig(param) := v], mem, threads, schedule);
    OutcomeNoTraps(Run(KernelSystem(blocks, ctx, param, v), Started(blocks, param, v, mem, threads), origin),
                   Run(TargetSystem(mblocks, ctx, TargetStart(blocks, map[Orig(param) := v])),
                       MStarted(blocks, param, v, mem, threads), schedule));
    TextRun(nm, blocks, mblocks, ctx, param, v, mem, threads, schedule);
    SameTrans(nm, Scope(mblocks, param),
              Run(KernelSystem(blocks, ctx, param, v), Started(blocks, param, v, mem, threads), origin),
              Run(TargetSystem(mblocks, ctx, TargetStart(blocks, map[Orig(param) := v])),
                  MStarted(blocks, param, v, mem, threads), schedule),
              Run(TextSystem(nm, blocks, mblocks, ctx, param, v), TStarted(nm, blocks, param, v, mem, threads), schedule));
  }
}
