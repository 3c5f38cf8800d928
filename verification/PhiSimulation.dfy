/** Rendering to block arguments preserves meaning: every interleaved run of the device IR is matched by
    an interleaved run of the rendered form, with the same memory throughout. */
module PhiSimulation {
  import opened Options
  import opened Floats
  import opened DeviceIr
  import opened DeviceSemantics
  import opened LaunchMachine
  import opened MlirForm
  import opened PhiLowering
  import opened PhiEdges

  // ----- the two systems -----

  /** Threads of the device IR; thread `t` reads its own coordinates. */
  function SourceSystem<R(==), L(==)>(blocks: seq<Block<R, L>>, ctx: nat -> Context, start: ThreadState<R, L>): System<Thread<R, L>> {
    System((t: nat, mem: Memory, th: Thread<R, L>) =>
             (Advance(Kernel(blocks, ctx(t)), mem, th), Step(Kernel(blocks, ctx(t)), mem, th.state).1),
           (th: Thread<R, L>) => th.log, (th: Thread<R, L>) => th.state.Done?, Thread(start, EMPTY_LOG))
  }

  function MAdvance<N(==), L(==)>(k: MlirKernel<N, L>, mem: Memory, th: MlirThread<N, L>): MlirThread<N, L> {
    var (s, e) := MStep(k, mem, th.state);
    MThread(s, Record(th.log, e))
  }

  function TargetSystem<N(==), L(==)>(mblocks: seq<MlirBlock<N, L>>, ctx: nat -> Context, start: MlirState<N, L>): System<MlirThread<N, L>> {
    System((t: nat, mem: Memory, th: MlirThread<N, L>) =>
             (MAdvance(MKernel(mblocks, ctx(t)), mem, th), MStep(MKernel(mblocks, ctx(t)), mem, th.state).1),
           (th: MlirThread<N, L>) => th.log, (th: MlirThread<N, L>) => th.state.MDone?, MThread(start, EMPTY_LOG))
  }

  // ----- related states -----

  /** At the same operation, with the same values of all original names; a thread on an edge is still at the
      rendered terminator, which takes that edge. */
  ghost predicate StateRel<R(!new), L(!new)>(fm: FloatModel, blocks: seq<Block<R, L>>, s: ThreadState<R, L>, t: MState<R, L>) {
    match s
    case Done => t.MDone?
    case Trapped => false
    case At(l, pc, env) =>
      var b := Lookup(blocks, l);
      b.Some? && pc <= |b.value.ops| && t.MAt? && t.block == l && t.pc == Offset(b.value, pc) && Rel(env, t.env)
    case Entering(l, from, env) =>
      var b := Lookup(blocks, from);
      && b.Some? && t.MAt? && t.block == from && t.pc == Offset(b.value, |b.value.ops|) && Rel(env, t.env)
      && !b.value.terminator.RetVoid? && Target(fm, b.value.terminator, env) == Some(l)
  }

  /** A thread about to take a jump: its rendering has not moved yet when it is put on the edge. */
  predicate Jumping<R, L(==)>(blocks: seq<Block<R, L>>, s: ThreadState<R, L>) {
    s.At? && var b := Lookup(blocks, s.block); b.Some? && s.pc >= |b.value.ops| && !b.value.terminator.RetVoid?
  }

  /** How many operations are rendered before the one that does what the thread does next. */
  function PreCount<R, L(==)>(blocks: seq<Block<R, L>>, s: ThreadState<R, L>): nat {
    match s
    case At(l, pc, _) =>
      var b := Lookup(blocks, l);
      if b.Some? && pc < |b.value.ops| && !b.value.ops[pc].Phi?
      then |EmitOp(l, EmitOps(l, b.value.ops[..pc]).counter, b.value.ops[pc]).pre| else 0
    case Entering(_, from, _) =>
      var b := Lookup(blocks, from);
      if b.None? then 0
      else
        var t := EmitTerminator(blocks, from, EmitOps(from, b.value.ops).counter, b.value.terminator);
        if t.Some? then |t.value.ops| else 0
    case _ => 0
  }

  // ----- silent steps -----

  function MIter<R(==), L(==)>(k: MKernel<R, L>, mem: Memory, n: nat, s: MState<R, L>): MState<R, L> {
    if n == 0 then s else MStep(k, mem, MIter(k, mem, n - 1, s)).0
  }

  ghost predicate AllQuiet<R, L>(k: MKernel<R, L>, mem: Memory, n: nat, s: MState<R, L>) {
    forall i: nat :: i < n ==> MStep(k, mem, MIter(k, mem, i, s)).1 == Silent
  }

  lemma {:induction false} QuietWalk<R, L>(k: MKernel<R, L>, mem: Memory, b: MBlock<R, L>, p: nat, ops: seq<MOp<R, L>>,
                                           env: MEnv<R, L>, after: MEnv<R, L>)
    requires MLookup(k.blocks, b.name) == Some(b) && p + |ops| <= |b.ops| && b.ops[p..p + |ops|] == ops
    requires Quiet(k.ctx, mem, ops, env) == Some(after)
    ensures MIter(k, mem, |ops|, MAt(b.name, p, env)) == MAt(b.name, p + |ops|, after)
    ensures AllQuiet(k, mem, |ops|, MAt(b.name, p, env))
  {
    hide MExec, MStep, MLookup;
    if ops != [] {
      var n := |ops| - 1;
      var mid := Quiet(k.ctx, mem, ops[..n], env).value;
      assert b.ops[p..p + n] == ops[..n];
      QuietWalk(k, mem, b, p, ops[..n], env, mid);
      assert b.ops[p..p + |ops|][n] == b.ops[p + n];
      QuietStep(k, mem, b, p + n, mid, after);
    }
  }

  lemma QuietStep<R, L>(k: MKernel<R, L>, mem: Memory, b: MBlock<R, L>, p: nat, env: MEnv<R, L>, after: MEnv<R, L>)
    requires MLookup(k.blocks, b.name) == Some(b) && p < |b.ops| && MExec(k.ctx, mem, env, b.ops[p]) == Next(after, Silent)
    ensures MStep(k, mem, MAt(b.name, p, env)) == (MAt(b.name, p + 1, after), Silent)
  {
    hide MExec, MLookup;
  }

  // ----- one step -----

  /** `n` silent steps, then (if `last`) one more with the given effect. */
  ghost predicate Matches<R, L>(k: MKernel<R, L>, mem: Memory, t: MState<R, L>, n: nat, last: bool, t': MState<R, L>, e: Effect) {
    && AllQuiet(k, mem, n, t)
    && if last then MStep(k, mem, MIter(k, mem, n, t)) == (t', e) else MIter(k, mem, n, t) == t' && e == Silent
  }

  ghost predicate Lowered<R, L>(blocks: seq<Block<R, L>>, mblocks: seq<MBlock<R, L>>) {
    WellFormed(blocks) && LowerKernel(blocks) == Some(mblocks)
  }

  /** The rendering of a block that a label resolves to. */
  lemma {:induction false} LoweredBlock<R, L>(blocks: seq<Block<R, L>>, mblocks: seq<MBlock<R, L>>, l: L) returns (m: MBlock<R, L>)
    requires Lowered(blocks, mblocks) && Lookup(blocks, l).Some?
    ensures MLookup(mblocks, l) == Some(m) && m.name == l
    ensures l != blocks[0].name ==> MLookup(Headed(mblocks), l) == Some(m)
    ensures var b := Lookup(blocks, l).value;
            var body := EmitOps<R, L>(l, b.ops);
            var t := EmitTerminator(blocks, l, body.counter, b.terminator);
            && b in blocks && b.name == l && PhisFirst(b.ops) && ExitsCovered(blocks, b)
            && t.Some? && m.ops == body.ops + t.value.ops && m.terminator == t.value.term
            && m.params == ParamsOf(PhiOps(b.ops))
  {
    hide EmitOps, EmitTerminator, PhiOps;
    LowerLookup(blocks, mblocks, l);
    m := MLookup(mblocks, l).value;
    LoweredName(blocks, Lookup(blocks, l).value, false);
  }

  lemma {:induction false} OpStepSim<R(!new), L(!new)>(blocks: seq<Block<R, L>>, mblocks: seq<MBlock<R, L>>, ctx: Context, mem: Memory,
                                                       l: L, pc: nat, env: Env<R>, menv: MEnv<R, L>) returns (n: nat, t': MState<R, L>)
    requires Lowered(blocks, mblocks) && Lookup(blocks, l).Some? && pc < |Lookup(blocks, l).value.ops|
    requires Rel(env, menv) && !Step(Kernel(blocks, ctx), mem, At(l, pc, env)).0.Trapped?
    ensures var (s', e) := Step(Kernel(blocks, ctx), mem, At(l, pc, env));
            && Matches(MKernel(mblocks, ctx), mem, MAt(l, Offset(Lookup(blocks, l).value, pc), menv), n, true, t', e)
            && StateRel(ctx.fm, blocks, s', t')
    ensures n == PreCount(blocks, At(l, pc, env))
  {
    hide ExecOp, EmitOp, EmitOps, EmitTerminator, Rel, Lowered, PhisFirst, ExitsCovered, MExec, Quiet, MLookup, AllQuiet, MIter;
    var b := Lookup(blocks, l).value;
    var m := LoweredBlock(blocks, mblocks, l);
    var counter := EmitOps<R, L>(l, b.ops[..pc]).counter;
    var mid, after := OpSim(ctx, mem, l, counter, b.ops[pc], env, menv);
    var e := EmitOp<R, L>(l, counter, b.ops[pc]);
    OffsetNext(b, pc);
    var p := Offset(b, pc);
    AllSlices(m.ops, EmitOps<R, L>(l, b.ops).ops, p, e.pre, e.last);
    QuietWalk(MKernel(mblocks, ctx), mem, m, p, e.pre, menv, mid);
    n := |e.pre|;
    t' := MAt(l, p + n + 1, after);
  }

  lemma {:induction false} AllSlices<R, L>(ops: seq<MOp<R, L>>, body: seq<MOp<R, L>>, p: nat, pre: seq<MOp<R, L>>, last: MOp<R, L>)
    requires body <= ops && p + |pre| + 1 <= |body| && body[p..p + |pre| + 1] == pre + [last]
    ensures ops[p..p + |pre|] == pre && ops[p + |pre|] == last
  {
    assert ops[..|body|] == body;
    assert ops[p..p + |pre| + 1] == body[p..p + |pre| + 1];
    assert ops[p..p + |pre|] == ops[p..p + |pre| + 1][..|pre|];
    assert ops[p + |pre|] == ops[p..p + |pre| + 1][|pre|];
  }

  /** Reaching the end of a block: a return returns, and a jump puts the source on an edge. */
  lemma {:induction false} LeaveStepSim<R(!new), L(!new)>(blocks: seq<Block<R, L>>, mblocks: seq<MBlock<R, L>>, ctx: Context, mem: Memory,
                                                          l: L, env: Env<R>, menv: MEnv<R, L>) returns (last: bool, t': MState<R, L>)
    requires Lowered(blocks, mblocks) && Lookup(blocks, l).Some? && Rel(env, menv)
    requires var s := At(l, |Lookup(blocks, l).value.ops|, env); !Step(Kernel(blocks, ctx), mem, s).0.Trapped?
    ensures var (s', e) := Step(Kernel(blocks, ctx), mem, At(l, |Lookup(blocks, l).value.ops|, env));
            var b := Lookup(blocks, l).value;
            && Matches(MKernel(mblocks, ctx), mem, MAt(l, Offset(b, |b.ops|), menv), 0, last, t', e)
            && StateRel(ctx.fm, blocks, s', t') && last == b.terminator.RetVoid?
  {
    hide ExecOp, EmitOps, Rel, Lowered, PhisFirst, ExitsCovered, MExec, EnsureValue, EmitSuccessor, Target;
    var b := Lookup(blocks, l).value;
    var m := LoweredBlock(blocks, mblocks, l);
    assert b.ops[..|b.ops|] == b.ops;
    if b.terminator.RetVoid? {
      last, t' := true, MDone;
    } else {
      last, t' := false, MAt(l, Offset(b, |b.ops|), menv);
    }
  }

  /** Crossing an edge: constants are materialised, then the branch binds the parameters in parallel. */
  lemma {:induction false} EdgeStepSim<R(!new), L(!new)>(blocks: seq<Block<R, L>>, mblocks: seq<MBlock<R, L>>, ctx: Context, mem: Memory,
                                                         l: L, from: L, env: Env<R>, t: MState<R, L>) returns (n: nat, t': MState<R, L>)
    requires Lowered(blocks, mblocks) && StateRel(ctx.fm, blocks, Entering(l, from, env), t)
    requires !EnterBlock(Kernel(blocks, ctx), l, from, env).Trapped?
    ensures Matches(MKernel(mblocks, ctx), mem, t, n, true, t', Silent)
    ensures StateRel(ctx.fm, blocks, EnterBlock(Kernel(blocks, ctx), l, from, env), t')
    ensures n == PreCount(blocks, Entering(l, from, env))
  {
    hide EmitOps, EmitTerminator, Rel, Lowered, ExitsCovered, MExec, Target, Quiet, BranchesTo, MLeave, PhiBindings, AllQuiet;
    var b := Lookup(blocks, from).value;
    var m := LoweredBlock(blocks, mblocks, from);
    assert b.ops[..|b.ops|] == b.ops;
    var counter := EmitOps<R, L>(from, b.ops).counter;
    var after := TerminatorSim(ctx, mem, blocks, b, counter, env, t.env);
    var e := EmitTerminator(blocks, from, counter, b.terminator).value;
    QuietWalk(MKernel(mblocks, ctx), mem, m, t.pc, e.ops, t.env, after);
    n := |e.ops|;
    t' := GotoSim(blocks, mblocks, ctx, l, from, env, e.term, after);
  }

  lemma {:induction false} GotoSim<R(!new), L(!new)>(blocks: seq<Block<R, L>>, mblocks: seq<MBlock<R, L>>, ctx: Context, l: L, from: L, env: Env<R>,
                                                     term: MTerminator<R, L>, after: MEnv<R, L>) returns (t': MState<R, L>)
    requires Lowered(blocks, mblocks) && Rel(env, after) && BranchesTo(ctx.fm, blocks, from, l, env, term, after)
    requires !EnterBlock(Kernel(blocks, ctx), l, from, env).Trapped?
    ensures MLeave(MKernel(mblocks, ctx), term, after) == t'
    ensures StateRel(ctx.fm, blocks, EnterBlock(Kernel(blocks, ctx), l, from, env), t')
  {
    hide Rel, Lowered, EmitOps, EmitTerminator, ArgsAgree, Eval, PhiBindings, BindParams, PhiOps, ExitsCovered;
    var target := LoweredBlock(blocks, mblocks, l);
    var b := Lookup(blocks, l).value;
    var phis := PhiOps(b.ops);
    PhiOpsLead(b.ops);
    var succ := if term.MBr? then term.succ
                else if Eval(ctx.fm, after, term.cond, I1).value.bits != 0 then term.thenSucc else term.elseSucc;
    var bound := BindSim(ctx.fm, phis, from, env, succ.args, after);
    SameCount(ctx.fm, phis, from, env, succ.args, after);
    RelUnion(env, after, PhiBindings(ctx.fm, phis, from, env).value, bound);
    OffsetOfPhis<R, L>(l, b.ops[..PhiCount(b.ops)]);
    t' := MAt(l, 0, after + bound);
  }

  lemma {:induction false} SameCount<R(!new), L(!new)>(fm: FloatModel, phis: seq<Op<R, L>>, from: L, env: Env<R>, args: seq<Passed<R, L>>, menv: MEnv<R, L>)
    requires ArgsAgree(fm, phis, from, env, args, menv)
    ensures |args| == |phis|
  {
  }

  /** Any step of the device IR that does not trap is matched by the rendered form, from related states and
      at any memory, with the same effect and ending in related states. */
  lemma {:induction false} StepSim<R(!new), L(!new)>(blocks: seq<Block<R, L>>, mblocks: seq<MBlock<R, L>>, ctx: Context, mem: Memory,
                                                     s: ThreadState<R, L>, t: MState<R, L>) returns (n: nat, last: bool, t': MState<R, L>)
    requires Lowered(blocks, mblocks) && StateRel(ctx.fm, blocks, s, t)
    requires !Step(Kernel(blocks, ctx), mem, s).0.Trapped?
    ensures var (s', e) := Step(Kernel(blocks, ctx), mem, s);
            Matches(MKernel(mblocks, ctx), mem, t, n, last, t', e) && StateRel(ctx.fm, blocks, s', t')
    ensures n == PreCount(blocks, s) && last == !(s.Done? || Jumping(blocks, s))
  {
    hide Lowered, ExecOp, Rel, EmitOps, Target, Matches, EnterBlock;
    match s
    case Done =>
      n, last, t' := 0, false, t;
      NoSteps(MKernel(mblocks, ctx), mem, t);
    case Entering(l, from, env) =>
      last := true;
      n, t' := EdgeStepSim(blocks, mblocks, ctx, mem, l, from, env, t);
    case At(l, pc, env) =>
      if pc < |Lookup(blocks, l).value.ops| {
        last := true;
        n, t' := OpStepSim(blocks, mblocks, ctx, mem, l, pc, env, t.env);
      } else {
        n := 0;
        last, t' := LeaveStepSim(blocks, mblocks, ctx, mem, l, env, t.env);
      }
  }

  lemma NoSteps<R, L>(k: MKernel<R, L>, mem: Memory, t: MState<R, L>)
    ensures Matches(k, mem, t, 0, false, t, Silent)
  {
  }

  // ----- whole runs -----

  /** `t` scheduled `n` times in a row. */
  function Times(t: nat, n: nat): (s: seq<nat>)
    ensures |s| == n && forall i :: 0 <= i < n ==> s[i] == t
  {
    seq(n, _ => t)
  }

  lemma {:induction false} RunAppend<S>(sys: System<S>, g: Global<S>, a: seq<nat>, b: seq<nat>)
    requires IsSchedule(a, |g.threads|) && IsSchedule(b, |g.threads|)
    ensures IsSchedule(a + b, |g.threads|)
    ensures Run(sys, g, a + b) == Run(sys, Run(sys, g, a), b)
  {
    if b == [] {
      assert a + b == a;
    } else {
      assert (a + b)[..|a + b| - 1] == a + b[..|b| - 1];
      RunAppend(sys, g, a, b[..|b| - 1]);
    }
  }

  lemma {:induction false} RunQuiet<R(!new), L(!new)>(mblocks: seq<MBlock<R, L>>, ctx: nat -> Context, start: MState<R, L>,
                                                      g: Global<MThread<R, L>>, t: nat, n: nat)
    requires t < |g.threads| && AllQuiet(MKernel(mblocks, ctx(t)), g.mem, n, g.threads[t].state)
    ensures var th := g.threads[t];
            var end := MThread(MIter(MKernel(mblocks, ctx(t)), g.mem, n, th.state), th.log);
            Run(TargetSystem(mblocks, ctx, start), g, Times(t, n)) == Global(g.threads[t := end], g.mem)
  {
    hide MStep;
    var sys := TargetSystem(mblocks, ctx, start);
    if n > 0 {
      RunQuiet(mblocks, ctx, start, g, t, n - 1);
      assert Times(t, n)[..n - 1] == Times(t, n - 1);
    }
  }

  /** The same memory, and thread by thread related states and equal logs. */
  ghost predicate GlobalRel<R(!new), L(!new)>(blocks: seq<Block<R, L>>, ctx: nat -> Context,
                                              a: Global<Thread<R, L>>, b: Global<MThread<R, L>>)
  {
    && |a.threads| == |b.threads| && a.mem == b.mem
    && forall t: nat :: t < |a.threads| ==> ThreadRel(ctx(t).fm, blocks, a.threads[t], b.threads[t])
  }

  ghost predicate ThreadRel<R(!new), L(!new)>(fm: FloatModel, blocks: seq<Block<R, L>>, a: Thread<R, L>, b: MThread<R, L>) {
    StateRel(fm, blocks, a.state, b.state) && a.log == b.log
  }

  ghost predicate NoneTrapped<R, L>(g: Global<Thread<R, L>>) {
    forall t :: 0 <= t < |g.threads| ==> !g.threads[t].state.Trapped?
  }

  /** One tick of the device IR is matched by some ticks of the same thread in the rendered form. */
  lemma {:induction false} TickSim<R(!new), L(!new)>(blocks: seq<Block<R, L>>, mblocks: seq<MBlock<R, L>>, ctx: nat -> Context,
                                                     s0: ThreadState<R, L>, t0: MState<R, L>,
                                                     a: Global<Thread<R, L>>, b: Global<MThread<R, L>>, t: nat) returns (n: nat)
    requires Lowered(blocks, mblocks) && GlobalRel(blocks, ctx, a, b) && t < |a.threads|
    requires !Tick(SourceSystem(blocks, ctx, s0), a, t).threads[t].state.Trapped?
    ensures IsSchedule(Times(t, n), |b.threads|)
    ensures GlobalRel(blocks, ctx, Tick(SourceSystem(blocks, ctx, s0), a, t),
                      Run(TargetSystem(mblocks, ctx, t0), b, Times(t, n)))
  {
    hide Lowered, StateRel, Step, MStep, Apply;
    var k := MKernel(mblocks, ctx(t));
    var sys := TargetSystem(mblocks, ctx, t0);
    var s, th := a.threads[t], b.threads[t];
    var m, last, t' := StepSim(blocks, mblocks, ctx(t), a.mem, s.state, th.state);
    RunQuiet(mblocks, ctx, t0, b, t, m);
    SilentKeeps(a.mem, s.log);
    n := if last then m + 1 else m;
    if last {
      assert Times(t, n)[..m] == Times(t, m);
    }
    var b' := Run(sys, b, Times(t, n));
    assert b'.threads == b.threads[t := b'.threads[t]];
  }

  lemma SilentKeeps(mem: Memory, log: Log)
    ensures Apply(mem, Silent) == mem && Record(log, Silent) == log
  {
  }

  lemma {:induction false} TrappedStays<R, L>(blocks: seq<Block<R, L>>, ctx: nat -> Context, s0: ThreadState<R, L>, a: Global<Thread<R, L>>, t: nat)
    requires t < |a.threads| && NoneTrapped(Tick(SourceSystem(blocks, ctx, s0), a, t))
    ensures NoneTrapped(a)
  {
    hide Step, Apply;
    var a' := Tick(SourceSystem(blocks, ctx, s0), a, t);
    AdvanceTrapped(Kernel(blocks, ctx(t)), a.mem, a.threads[t]);
    forall u | 0 <= u < |a.threads| ensures !a.threads[u].state.Trapped? {
      assert a'.threads[u] == if u == t then Advance(Kernel(blocks, ctx(t)), a.mem, a.threads[t]) else a.threads[u];
    }
  }

  /** For every interleaving of the device IR in which no thread traps there is an interleaving of the
      rendered form that ends with the same memory, the same logs, and related threads. */
  lemma {:induction false} ScheduleSim<R(!new), L(!new)>(blocks: seq<Block<R, L>>, mblocks: seq<MBlock<R, L>>, ctx: nat -> Context,
                                                         s0: ThreadState<R, L>, t0: MState<R, L>,
                                                         a: Global<Thread<R, L>>, b: Global<MThread<R, L>>, schedule: seq<nat>)
    returns (matching: seq<nat>)
    requires Lowered(blocks, mblocks) && GlobalRel(blocks, ctx, a, b) && IsSchedule(schedule, |a.threads|)
    requires NoneTrapped(Run(SourceSystem(blocks, ctx, s0), a, schedule))
    ensures IsSchedule(matching, |b.threads|)
    ensures GlobalRel(blocks, ctx, Run(SourceSystem(blocks, ctx, s0), a, schedule),
                      Run(TargetSystem(mblocks, ctx, t0), b, matching))
  {
    hide Lowered, StateRel, Step, MStep, Apply, Tick;
    if schedule == [] {
      matching := [];
    } else {
      var n := |schedule| - 1;
      var mid := Run(SourceSystem(blocks, ctx, s0), a, schedule[..n]);
      TrappedStays(blocks, ctx, s0, mid, schedule[n]);
      var before := ScheduleSim(blocks, mblocks, ctx, s0, t0, a, b, schedule[..n]);
      var mid' := Run(TargetSystem(mblocks, ctx, t0), b, before);
      NotTrapped(Tick(SourceSystem(blocks, ctx, s0), mid, schedule[n]), schedule[n]);
      var k := TickSim(blocks, mblocks, ctx, s0, t0, mid, mid', schedule[n]);
      RunAppend(TargetSystem(mblocks, ctx, t0), b, before, Times(schedule[n], k));
      matching := before + Times(schedule[n], k);
    }
  }

  lemma NotTrapped<R, L>(g: Global<Thread<R, L>>, t: nat)
    requires NoneTrapped(g)
    ensures t < |g.threads| ==> !g.threads[t].state.Trapped?
  {
  }

  // ----- from the entry -----

  lemma {:induction false} EntryRelated<R(!new), L(!new)>(fm: FloatModel, blocks: seq<Block<R, L>>, env: Env<R>, menv: MEnv<R, L>)
    requires blocks != [] && Rel(env, menv)
    ensures StateRel(fm, blocks, At(blocks[0].name, 0, env), MAt(blocks[0].name, 0, menv))
  {
    hide Rel;
  }

  function SourceStart<R(==), L(==)>(blocks: seq<Block<R, L>>, env: Env<R>): ThreadState<R, L>
    requires blocks != []
  {
    At(blocks[0].name, 0, env)
  }

  function TargetStart<R(==), L(==)>(blocks: seq<Block<R, L>>, menv: MEnv<R, L>): MState<R, L>
    requires blocks != []
  {
    MAt(blocks[0].name, 0, menv)
  }

  /** The same memory and, thread by thread, the same log; no thread of the target has trapped, and exactly
      those have returned that have returned in the source. */
  ghost predicate SameOutcome<R, L, N, M>(a: Global<Thread<R, L>>, b: Global<MlirThread<N, M>>) {
    && |a.threads| == |b.threads| && a.mem == b.mem
    && forall t: nat :: t < |a.threads| ==> SameEnd(a.threads[t], b.threads[t])
  }

  ghost predicate SameEnd<R, L, N, M>(a: Thread<R, L>, b: MlirThread<N, M>) {
    a.log == b.log && !b.state.MTrapped? && (a.state.Done? <==> b.state.MDone?)
  }

  lemma {:induction false} RelatedOutcome<R(!new), L(!new)>(blocks: seq<Block<R, L>>, ctx: nat -> Context,
                                                            a: Global<Thread<R, L>>, b: Global<MThread<R, L>>)
    requires GlobalRel(blocks, ctx, a, b)
    ensures SameOutcome(a, b)
  {
    hide Rel;
    forall t: nat | t < |a.threads| ensures SameEnd(a.threads[t], b.threads[t]) {
      assert ThreadRel(ctx(t).fm, blocks, a.threads[t], b.threads[t]);
    }
  }

  /** Rendering preserves runs: any well-formed kernel is rendered without a panic, and for any number of
      threads started at its entry, any memory and any interleaving in which none traps, some interleaving of
      the rendered form ends with the same memory, the same logs and the same threads returned. */
  lemma {:induction false} RenderingPreservesRuns<R(!new), L(!new)>(blocks: seq<Block<R, L>>, ctx: nat -> Context, env: Env<R>, menv: MEnv<R, L>,
                                                                    mem: Memory, threads: nat, schedule: seq<nat>)
    returns (mblocks: seq<MBlock<R, L>>, matching: seq<nat>)
    requires WellFormed(blocks) && Rel(env, menv) && IsSchedule(schedule, threads)
    requires var s0 := SourceStart(blocks, env);
             NoneTrapped(Run(SourceSystem(blocks, ctx, s0), Global(seq(threads, _ => Thread(s0, EMPTY_LOG)), mem), schedule))
    ensures LowerKernel(blocks) == Some(mblocks) && IsSchedule(matching, threads)
    ensures var s0, t0 := SourceStart(blocks, env), TargetStart(blocks, menv);
            SameOutcome(Run(SourceSystem(blocks, ctx, s0), Global(seq(threads, _ => Thread(s0, EMPTY_LOG)), mem), schedule),
                        Run(TargetSystem(mblocks, ctx, t0), Global(seq(threads, _ => MThread(t0, EMPTY_LOG)), mem), matching))
    ensures var s0, t0 := SourceStart(blocks, env), TargetStart(blocks, menv);
            GlobalRel(blocks, ctx, Run(SourceSystem(blocks, ctx, s0), Global(seq(threads, _ => Thread(s0, EMPTY_LOG)), mem), schedule),
                      Run(TargetSystem(mblocks, ctx, t0), Global(seq(threads, _ => MThread(t0, EMPTY_LOG)), mem), matching))
  {
    hide Rel, Run, NoneTrapped, StateRel, SameOutcome, LowerUpTo, ExitsCovered, PhisFirst;
    LowerSucceeds(blocks, |blocks|);
    mblocks := LowerKernel(blocks).value;
    var s0, t0 := SourceStart(blocks, env), TargetStart(blocks, menv);
    var a, b := Global(seq(threads, _ => Thread(s0, EMPTY_LOG)), mem), Global(seq(threads, _ => MThread(t0, EMPTY_LOG)), mem);
    forall t: nat | t < threads ensures ThreadRel(ctx(t).fm, blocks, a.threads[t], b.threads[t]) {
      EntryRelated(ctx(t).fm, blocks, env, menv);
    }
    matching := ScheduleSim(blocks, mblocks, ctx, s0, t0, a, b, schedule);
    RelatedOutcome(blocks, ctx, Run(SourceSystem(blocks, ctx, s0), a, schedule), Run(TargetSystem(mblocks, ctx, t0), b, matching));
  }

  // ----- one thread on its own -----

  lemma {:induction false} AloneQuiet<R(!new), L(!new)>(mblocks: seq<MBlock<R, L>>, ctx: nat -> Context, start: MState<R, L>,
                                                        t: nat, mem: Memory, m: nat, n: nat)
    requires var sys := TargetSystem(mblocks, ctx, start);
             AllQuiet(MKernel(mblocks, ctx(t)), mem, n, Alone(sys, t, mem, m).state)
    ensures var sys := TargetSystem(mblocks, ctx, start);
            Alone(sys, t, mem, m + n)
            == MThread(MIter(MKernel(mblocks, ctx(t)), mem, n, Alone(sys, t, mem, m).state), Alone(sys, t, mem, m).log)
  {
    hide MStep;
    if n > 0 {
      AloneQuiet(mblocks, ctx, start, t, mem, m, n - 1);
    }
  }

  lemma IterateLast<R, L>(k: Kernel<R, L>, mem: Memory, n: nat, th: Thread<R, L>)
    requires n > 0
    ensures Iterate(k, mem, n, th) == Advance(k, mem, Iterate(k, mem, n - 1, th))
  {
    hide Step;
    IterateAdd(k, mem, n - 1, 1, th);
    var before := Iterate(k, mem, n - 1, th);
    assert Iterate(k, mem, 1, before) == Iterate(k, mem, 0, Advance(k, mem, before));
  }

  lemma AdvanceTrapped<R, L>(k: Kernel<R, L>, mem: Memory, th: Thread<R, L>)
    ensures th.state.Trapped? ==> Advance(k, mem, th).state.Trapped?
  {
    hide EnterBlock, Jump, ExecOp;
  }

  /** Whatever a thread of the device IR does on its own without trapping, its rendered form does too. */
  lemma {:induction false} AloneSim<R(!new), L(!new)>(blocks: seq<Block<R, L>>, mblocks: seq<MBlock<R, L>>, ctx: nat -> Context,
                                                      s0: ThreadState<R, L>, t0: MState<R, L>, t: nat, mem: Memory, n: nat)
    returns (m: nat)
    requires Lowered(blocks, mblocks) && StateRel(ctx(t).fm, blocks, s0, t0)
    requires !Iterate(Kernel(blocks, ctx(t)), mem, n, Thread(s0, EMPTY_LOG)).state.Trapped?
    ensures ThreadRel(ctx(t).fm, blocks, Iterate(Kernel(blocks, ctx(t)), mem, n, Thread(s0, EMPTY_LOG)),
                      Alone(TargetSystem(mblocks, ctx, t0), t, mem, m))
  {
    hide Lowered, StateRel, Step, MStep;
    if n == 0 {
      m := 0;
    } else {
      var k := Kernel(blocks, ctx(t));
      IterateLast(k, mem, n, Thread(s0, EMPTY_LOG));
      var before := Iterate(k, mem, n - 1, Thread(s0, EMPTY_LOG));
      AdvanceTrapped(k, mem, before);
      var m0 := AloneSim(blocks, mblocks, ctx, s0, t0, t, mem, n - 1);
      var sys := TargetSystem(mblocks, ctx, t0);
      var th := Alone(sys, t, mem, m0);
      var q, last, t' := StepSim(blocks, mblocks, ctx(t), mem, before.state, th.state);
      AloneQuiet(mblocks, ctx, t0, t, mem, m0, q);
      SilentKeeps(mem, before.log);
      m := if last then m0 + q + 1 else m0 + q;
    }
  }
}
