/** Rendering to block arguments adds no behaviours: every interleaved run of the rendered form comes from
    an interleaved run of the device IR. */
module PhiConverse {
  import opened Options
  import opened Floats
  import opened DeviceIr
  import opened DeviceSemantics
  import opened LaunchMachine
  import opened MlirForm
  import opened PhiLowering
  import opened PhiEdges
  import opened PhiSimulation

  // ----- what the renderer inserts does not look at memory -----

  predicate IsLocal<R, L>(op: MOp<R, L>) {
    op.Constant? || op.CsrRead? || (op.Plain? && op.op.Cast?)
  }

  predicate AllLocal<R, L>(ops: seq<MOp<R, L>>) {
    forall i :: 0 <= i < |ops| ==> IsLocal(ops[i])
  }

  lemma EmitOpLocal<R, L>(block: L, counter: nat, op: Op<R, L>)
    requires !op.Phi?
    ensures AllLocal(EmitOp(block, counter, op).pre)
  {
  }

  lemma {:induction false} EmitArgsLocal<R, L>(block: L, counter: nat, phis: seq<Op<R, L>>)
    requires (forall i :: 0 <= i < |phis| ==> phis[i].Phi?) && EmitArgs(block, counter, phis).Some?
    ensures AllLocal(EmitArgs(block, counter, phis).value.ops)
  {
    if phis != [] {
      EmitArgsLocal(block, counter, phis[..|phis| - 1]);
    }
  }

  lemma {:induction false} EmitTerminatorLocal<R, L>(blocks: seq<Block<R, L>>, block: L, counter: nat, t: Terminator<R, L>)
    requires EmitTerminator(blocks, block, counter, t).Some?
    ensures AllLocal(EmitTerminator(blocks, block, counter, t).value.ops)
  {
    hide EmitArgs, PhiOps;
    match t
    case RetVoid =>
    case Br(target) =>
      EmitArgsLocal(block, counter, PhiOps(Lookup(blocks, target).value.ops));
    case CondBr(cond, thenLabel, elseLabel) =>
      var c := EnsureValue<R, L>(block, counter, cond, I1);
      EmitArgsLocal(block, c.counter, PhiOps(Lookup(blocks, thenLabel).value.ops));
      var a := EmitSuccessor(blocks, block, c.counter, thenLabel).value;
      EmitArgsLocal(block, a.counter, PhiOps(Lookup(blocks, elseLabel).value.ops));
  }

  lemma StepLocal<R, L>(k: MKernel<R, L>, m: Memory, m': Memory, b: MBlock<R, L>, p: nat, env: MEnv<R, L>)
    requires MLookup(k.blocks, b.name) == Some(b) && p < |b.ops| && IsLocal(b.ops[p])
    ensures MStep(k, m, MAt(b.name, p, env)) == MStep(k, m', MAt(b.name, p, env))
    ensures var s := MStep(k, m, MAt(b.name, p, env)).0; s.MTrapped? || (s.MAt? && s.block == b.name && s.pc == p + 1)
  {
    hide MLookup;
  }

  lemma TrappedStep<R, L>(k: MKernel<R, L>, m: Memory, s: MState<R, L>)
    requires s.MTrapped?
    ensures MStep(k, m, s) == (s, Silent)
  {
  }

  /** Local operations lead to the same state at every memory. */
  lemma {:induction false} LocalWalk<R, L>(k: MKernel<R, L>, m: Memory, m': Memory, b: MBlock<R, L>, p: nat, n: nat, env: MEnv<R, L>)
    requires MLookup(k.blocks, b.name) == Some(b) && p + n <= |b.ops| && AllLocal(b.ops[p..p + n])
    ensures MIter(k, m, n, MAt(b.name, p, env)) == MIter(k, m', n, MAt(b.name, p, env))
    ensures var s := MIter(k, m, n, MAt(b.name, p, env)); s.MTrapped? || (s.MAt? && s.block == b.name && s.pc == p + n)
  {
    hide MLookup, IsLocal, MStep;
    if n > 0 {
      assert b.ops[p..p + n][..n - 1] == b.ops[p..p + n - 1];
      LocalWalk(k, m, m', b, p, n - 1, env);
      assert b.ops[p..p + n][n - 1] == b.ops[p + n - 1];
      var s := MIter(k, m, n - 1, MAt(b.name, p, env));
      if s.MAt? {
        StepLocal(k, m, m', b, p + n - 1, s.env);
      } else {
        TrappedStep(k, m, s);
        TrappedStep(k, m', s);
      }
    }
  }

  // ----- a rendered thread part-way through -----

  /** What is rendered before the operation that does what the thread does next is local. */
  lemma {:induction false} BeforeMain<R(!new), L(!new)>(fm: FloatModel, blocks: seq<Block<R, L>>, mblocks: seq<MBlock<R, L>>,
                                                        s: ThreadState<R, L>, t: MState<R, L>) returns (m: MBlock<R, L>)
    requires Lowered(blocks, mblocks) && StateRel(fm, blocks, s, t) && PreCount(blocks, s) > 0
    ensures t.MAt? && t.block == m.name && MLookup(mblocks, m.name) == Some(m)
    ensures t.pc + PreCount(blocks, s) <= |m.ops| && AllLocal(m.ops[t.pc..t.pc + PreCount(blocks, s)])
  {
    hide Lowered, EmitOps, EmitOp, EmitTerminator, Rel, Target, PhisFirst, ExitsCovered, AllLocal;
    match s
    case At(l, pc, env) =>
      m := LoweredBlock(blocks, mblocks, l);
      var b := Lookup(blocks, l).value;
      var counter := EmitOps<R, L>(l, b.ops[..pc]).counter;
      var e := EmitOp<R, L>(l, counter, b.ops[pc]);
      OffsetNext(b, pc);
      AllSlices(m.ops, EmitOps<R, L>(l, b.ops).ops, t.pc, e.pre, e.last);
      EmitOpLocal(l, counter, b.ops[pc]);
    case Entering(l, from, env) =>
      m := LoweredBlock(blocks, mblocks, from);
      var b := Lookup(blocks, from).value;
      assert b.ops[..|b.ops|] == b.ops;
      var body := EmitOps<R, L>(from, b.ops);
      EmitTerminatorLocal(blocks, from, body.counter, b.terminator);
      var e := EmitTerminator(blocks, from, body.counter, b.terminator).value;
      assert m.ops[t.pc..t.pc + |e.ops|] == e.ops;
  }

  /** The rendered thread has taken `j` of the steps that come before the one that does what `s` does next. */
  ghost predicate PendingAt<R(!new), L(!new)>(fm: FloatModel, blocks: seq<Block<R, L>>, k: MKernel<R, L>, mem: Memory,
                                              s: ThreadState<R, L>, from: MState<R, L>, j: nat, t: MState<R, L>)
  {
    StateRel(fm, blocks, s, from) && j <= PreCount(blocks, s) && MIter(k, mem, j, from) == t
  }

  ghost predicate Pending<R(!new), L(!new)>(blocks: seq<Block<R, L>>, k: MKernel<R, L>, mem: Memory,
                                            s: ThreadState<R, L>, t: MState<R, L>)
  {
    exists from, j: nat :: PendingAt(k.ctx.fm, blocks, k, mem, s, from, j, t)
  }

  /** Where a rendered thread stands does not depend on what other threads have stored meanwhile. */
  lemma {:induction false} PendingAnywhere<R(!new), L(!new)>(blocks: seq<Block<R, L>>, mblocks: seq<MBlock<R, L>>, ctx: Context, mem: Memory, mem': Memory,
                                                             s: ThreadState<R, L>, t: MState<R, L>)
    requires Lowered(blocks, mblocks) && Pending(blocks, MKernel(mblocks, ctx), mem, s, t)
    ensures Pending(blocks, MKernel(mblocks, ctx), mem', s, t)
  {
    hide Lowered, StateRel, MStep, AllLocal, PreCount;
    var k := MKernel(mblocks, ctx);
    var from, j: nat :| PendingAt(ctx.fm, blocks, k, mem, s, from, j, t);
    if j > 0 {
      var m := BeforeMain(ctx.fm, blocks, mblocks, s, from);
      LocalSlice(m.ops, from.pc, j, PreCount(blocks, s));
      LocalWalk(k, mem, mem', m, from.pc, j, from.env);
    }
    assert PendingAt(ctx.fm, blocks, k, mem', s, from, j, t);
  }

  lemma {:induction false} LocalSlice<R, L>(ops: seq<MOp<R, L>>, p: nat, j: nat, n: nat)
    requires j <= n && p + n <= |ops| && AllLocal(ops[p..p + n])
    ensures AllLocal(ops[p..p + j])
  {
    assert ops[p..p + j] == ops[p..p + n][..j];
  }

  /** Exactly the rendered threads have returned whose threads have. */
  lemma {:induction false} PendingDone<R(!new), L(!new)>(blocks: seq<Block<R, L>>, mblocks: seq<MBlock<R, L>>, ctx: Context, mem: Memory,
                                                         s: ThreadState<R, L>, t: MState<R, L>)
    requires Lowered(blocks, mblocks) && Pending(blocks, MKernel(mblocks, ctx), mem, s, t)
    ensures t.MDone? <==> s.Done?
  {
    hide Lowered, MStep, AllLocal, Rel, Target, EmitOp, EmitOps, EmitTerminator;
    var k := MKernel(mblocks, ctx);
    var from, j: nat :| PendingAt(ctx.fm, blocks, k, mem, s, from, j, t);
    if j > 0 {
      var m := BeforeMain(ctx.fm, blocks, mblocks, s, from);
      LocalSlice(m.ops, from.pc, j, PreCount(blocks, s));
      LocalWalk(k, mem, mem, m, from.pc, j, from.env);
    }
  }

  lemma {:induction false} TrappedIter<R, L>(k: MKernel<R, L>, mem: Memory, j: nat, n: nat, from: MState<R, L>)
    requires j <= n && MIter(k, mem, j, from).MTrapped?
    ensures MIter(k, mem, n, from).MTrapped?
  {
    if j < n {
      TrappedIter(k, mem, j, n - 1, from);
    }
  }

  /** A rendered thread has not trapped, as long as the thread it renders will not trap next. */
  lemma {:induction false} PendingNotTrapped<R(!new), L(!new)>(blocks: seq<Block<R, L>>, mblocks: seq<MBlock<R, L>>, ctx: Context, mem: Memory,
                                                               s: ThreadState<R, L>, t: MState<R, L>)
    requires Lowered(blocks, mblocks) && Pending(blocks, MKernel(mblocks, ctx), mem, s, t)
    requires !Step(Kernel(blocks, ctx), mem, s).0.Trapped?
    ensures !t.MTrapped?
  {
    hide Lowered, MIter, Step, PreCount, Rel, Target, AllQuiet;
    var k := MKernel(mblocks, ctx);
    var from, j: nat :| PendingAt(ctx.fm, blocks, k, mem, s, from, j, t);
    var n, last, t' := StepSim(blocks, mblocks, ctx, mem, s, from);
    if t.MTrapped? {
      TrappedIter(k, mem, j, n, from);
      assert false;
    }
  }

  // ----- one tick of the rendered form -----

  ghost predicate BackRel<R(!new), L(!new)>(blocks: seq<Block<R, L>>, mblocks: seq<MBlock<R, L>>, ctx: nat -> Context,
                                            a: Global<Thread<R, L>>, b: Global<MThread<R, L>>)
  {
    && |a.threads| == |b.threads| && a.mem == b.mem
    && forall t: nat :: t < |a.threads| ==> ThreadBack(blocks, MKernel(mblocks, ctx(t)), a.mem, a.threads[t], b.threads[t])
  }

  ghost predicate ThreadBack<R(!new), L(!new)>(blocks: seq<Block<R, L>>, k: MKernel<R, L>, mem: Memory,
                                               a: Thread<R, L>, b: MThread<R, L>)
  {
    Pending(blocks, k, mem, a.state, b.state) && a.log == b.log
  }

  /** One step of a rendered thread: either nothing happens in the device IR, or its next step does. */
  lemma {:induction false} StepBack<R(!new), L(!new)>(blocks: seq<Block<R, L>>, mblocks: seq<MBlock<R, L>>, ctx: Context, mem: Memory,
                                                      s: ThreadState<R, L>, t: MState<R, L>) returns (moves: bool)
    requires Lowered(blocks, mblocks) && Pending(blocks, MKernel(mblocks, ctx), mem, s, t) && !Jumping(blocks, s)
    requires !Step(Kernel(blocks, ctx), mem, s).0.Trapped?
    ensures var (s', e) := Step(Kernel(blocks, ctx), mem, s);
            var (t', e') := MStep(MKernel(mblocks, ctx), mem, t);
            if moves then e' == e && Pending(blocks, MKernel(mblocks, ctx), mem, s', t')
            else e' == Silent && Pending(blocks, MKernel(mblocks, ctx), mem, s, t')
  {
    hide Lowered, Step, MStep, PreCount, Jumping, StateRel;
    var k := MKernel(mblocks, ctx);
    var from, j: nat :| PendingAt(ctx.fm, blocks, k, mem, s, from, j, t);
    var n, last, end := StepSim(blocks, mblocks, ctx, mem, s, from);
    var t' := MStep(k, mem, t).0;
    if j < n {
      moves := false;
      assert MStep(k, mem, MIter(k, mem, j, from)).1 == Silent;
      assert PendingAt(ctx.fm, blocks, k, mem, s, from, j + 1, t');
    } else {
      moves := true;
      assert j == n;
      if s.Done? {
        DoneStep(Kernel(blocks, ctx), k, mem, s, from);
      }
      assert PendingAt(ctx.fm, blocks, k, mem, Step(Kernel(blocks, ctx), mem, s).0, t', 0, t');
    }
  }

  lemma DoneStep<R(!new), L(!new)>(k: Kernel<R, L>, mk: MKernel<R, L>, mem: Memory, s: ThreadState<R, L>, t: MState<R, L>)
    requires s.Done? && StateRel(k.ctx.fm, k.blocks, s, t)
    ensures Step(k, mem, s) == (s, Silent) && MStep(mk, mem, t) == (t, Silent) && PreCount(k.blocks, s) == 0
  {
  }

  /** A thread about to take a jump can be put on the edge without moving its rendering. */
  lemma {:induction false} JumpBack<R(!new), L(!new)>(blocks: seq<Block<R, L>>, mblocks: seq<MBlock<R, L>>, ctx: Context, mem: Memory,
                                                      s: ThreadState<R, L>, t: MState<R, L>)
    requires Lowered(blocks, mblocks) && Pending(blocks, MKernel(mblocks, ctx), mem, s, t) && Jumping(blocks, s)
    requires !Step(Kernel(blocks, ctx), mem, s).0.Trapped?
    ensures var (s', e) := Step(Kernel(blocks, ctx), mem, s);
            e == Silent && Pending(blocks, MKernel(mblocks, ctx), mem, s', t) && !Jumping(blocks, s')
  {
    hide Lowered, MStep, StateRel, ExecOp;
    var k := MKernel(mblocks, ctx);
    var from, j: nat :| PendingAt(ctx.fm, blocks, k, mem, s, from, j, t);
    var n, last, end := StepSim(blocks, mblocks, ctx, mem, s, from);
    assert j == 0;
    assert PendingAt(ctx.fm, blocks, k, mem, Step(Kernel(blocks, ctx), mem, s).0, t, 0, t);
  }

  // ----- whole runs -----

  /** No interleaving of the device IR from `a` makes any thread trap. */
  ghost predicate NeverTraps<R(!new), L(!new)>(sys: System<Thread<R, L>>, a: Global<Thread<R, L>>) {
    forall schedule :: IsSchedule(schedule, |a.threads|) ==> NoneTrapped(Run(sys, a, schedule))
  }

  lemma {:induction false} NextTickSafe<R(!new), L(!new)>(blocks: seq<Block<R, L>>, ctx: nat -> Context, s0: ThreadState<R, L>, a: Global<Thread<R, L>>, t: nat)
    requires NeverTraps(SourceSystem(blocks, ctx, s0), a) && t < |a.threads|
    ensures !Step(Kernel(blocks, ctx(t)), a.mem, a.threads[t].state).0.Trapped?
    ensures NeverTraps(SourceSystem(blocks, ctx, s0), Tick(SourceSystem(blocks, ctx, s0), a, t))
  {
    hide Step, Apply;
    var sys := SourceSystem(blocks, ctx, s0);
    assert [t][..0] == [];
    assert Run(sys, a, [t]) == Tick(sys, a, t);
    assert NoneTrapped(Tick(sys, a, t));
    assert Tick(sys, a, t).threads[t] == Advance(Kernel(blocks, ctx(t)), a.mem, a.threads[t]);
    forall schedule | IsSchedule(schedule, |a.threads|) ensures NoneTrapped(Run(sys, Tick(sys, a, t), schedule)) {
      RunAppend(sys, a, [t], schedule);
      assert NoneTrapped(Run(sys, a, [t] + schedule));
    }
  }

  /** A tick of thread `t` in both systems with the same effect. */
  lemma {:induction false} BackBoth<R(!new), L(!new)>(blocks: seq<Block<R, L>>, mblocks: seq<MBlock<R, L>>, ctx: nat -> Context,
                                                      s0: ThreadState<R, L>, t0: MState<R, L>,
                                                      a: Global<Thread<R, L>>, b: Global<MThread<R, L>>, t: nat)
    requires Lowered(blocks, mblocks) && BackRel(blocks, mblocks, ctx, a, b) && t < |a.threads|
    requires var (s, e) := Step(Kernel(blocks, ctx(t)), a.mem, a.threads[t].state);
             var (s', e') := MStep(MKernel(mblocks, ctx(t)), a.mem, b.threads[t].state);
             e == e' && Pending(blocks, MKernel(mblocks, ctx(t)), a.mem, s, s')
    ensures BackRel(blocks, mblocks, ctx, Tick(SourceSystem(blocks, ctx, s0), a, t), Tick(TargetSystem(mblocks, ctx, t0), b, t))
  {
    hide Lowered, Step, MStep, Pending, Apply;
    var a', b' := Tick(SourceSystem(blocks, ctx, s0), a, t), Tick(TargetSystem(mblocks, ctx, t0), b, t);
    forall u: nat | u < |a.threads|
      ensures ThreadBack(blocks, MKernel(mblocks, ctx(u)), a'.mem, a'.threads[u], b'.threads[u])
    {
      var k := MKernel(mblocks, ctx(u));
      assert ThreadBack(blocks, k, a.mem, a.threads[u], b.threads[u]);
      PendingAnywhere(blocks, mblocks, ctx(u), a.mem, a'.mem, a'.threads[u].state, b'.threads[u].state);
    }
  }

  /** A tick of the rendered form alone, with no effect. */
  lemma {:induction false} BackSilent<R(!new), L(!new)>(blocks: seq<Block<R, L>>, mblocks: seq<MBlock<R, L>>, ctx: nat -> Context, t0: MState<R, L>,
                                                        a: Global<Thread<R, L>>, b: Global<MThread<R, L>>, t: nat)
    requires BackRel(blocks, mblocks, ctx, a, b) && t < |a.threads|
    requires var (s', e') := MStep(MKernel(mblocks, ctx(t)), a.mem, b.threads[t].state);
             e' == Silent && Pending(blocks, MKernel(mblocks, ctx(t)), a.mem, a.threads[t].state, s')
    ensures BackRel(blocks, mblocks, ctx, a, Tick(TargetSystem(mblocks, ctx, t0), b, t))
  {
    hide MStep, Pending;
    var b' := Tick(TargetSystem(mblocks, ctx, t0), b, t);
    forall u: nat | u < |a.threads|
      ensures ThreadBack(blocks, MKernel(mblocks, ctx(u)), a.mem, a.threads[u], b'.threads[u])
    {
      assert ThreadBack(blocks, MKernel(mblocks, ctx(u)), a.mem, a.threads[u], b.threads[u]);
    }
  }

  /** A tick of the device IR alone, with no effect. */
  lemma {:induction false} BackJump<R(!new), L(!new)>(blocks: seq<Block<R, L>>, mblocks: seq<MBlock<R, L>>, ctx: nat -> Context, s0: ThreadState<R, L>,
                                                      a: Global<Thread<R, L>>, b: Global<MThread<R, L>>, t: nat)
    requires BackRel(blocks, mblocks, ctx, a, b) && t < |a.threads|
    requires var (s, e) := Step(Kernel(blocks, ctx(t)), a.mem, a.threads[t].state);
             e == Silent && Pending(blocks, MKernel(mblocks, ctx(t)), a.mem, s, b.threads[t].state)
    ensures BackRel(blocks, mblocks, ctx, Tick(SourceSystem(blocks, ctx, s0), a, t), b)
  {
    hide Step, Pending;
    var a' := Tick(SourceSystem(blocks, ctx, s0), a, t);
    forall u: nat | u < |a.threads|
      ensures ThreadBack(blocks, MKernel(mblocks, ctx(u)), a'.mem, a'.threads[u], b.threads[u])
    {
      assert ThreadBack(blocks, MKernel(mblocks, ctx(u)), a.mem, a.threads[u], b.threads[u]);
    }
  }

  /** One tick of the rendered form comes from at most two ticks of the same thread of the device IR. */
  lemma {:induction false} TickBack<R(!new), L(!new)>(blocks: seq<Block<R, L>>, mblocks: seq<MBlock<R, L>>, ctx: nat -> Context,
                                                      s0: ThreadState<R, L>, t0: MState<R, L>,
                                                      a: Global<Thread<R, L>>, b: Global<MThread<R, L>>, t: nat) returns (n: nat)
    requires Lowered(blocks, mblocks) && BackRel(blocks, mblocks, ctx, a, b) && t < |a.threads|
    requires NeverTraps(SourceSystem(blocks, ctx, s0), a)
    ensures n <= 2 && IsSchedule(Times(t, n), |a.threads|)
    ensures var a' := Run(SourceSystem(blocks, ctx, s0), a, Times(t, n));
            BackRel(blocks, mblocks, ctx, a', Tick(TargetSystem(mblocks, ctx, t0), b, t))
            && NeverTraps(SourceSystem(blocks, ctx, s0), a')
  {
    hide Lowered, Step, MStep, Pending, Apply, Jumping, NeverTraps, Tick;
    var sys := SourceSystem(blocks, ctx, s0);
    var k, mk := Kernel(blocks, ctx(t)), MKernel(mblocks, ctx(t));
    NextTickSafe(blocks, ctx, s0, a, t);
    assert ThreadBack(blocks, mk, a.mem, a.threads[t], b.threads[t]);
    if Jumping(blocks, a.threads[t].state) {
      JumpBack(blocks, mblocks, ctx(t), a.mem, a.threads[t].state, b.threads[t].state);
      BackJump(blocks, mblocks, ctx, s0, a, b, t);
      JumpTick(blocks, mblocks, ctx, s0, a, b, t);
      var a1 := Tick(sys, a, t);
      var m := TickBackOnce(blocks, mblocks, ctx, s0, t0, a1, b, t);
      n := m + 1;
      TimesFirst(sys, a, t, m);
    } else {
      n := TickBackOnce(blocks, mblocks, ctx, s0, t0, a, b, t);
    }
  }

  lemma {:induction false} JumpTick<R(!new), L(!new)>(blocks: seq<Block<R, L>>, mblocks: seq<MBlock<R, L>>, ctx: nat -> Context, s0: ThreadState<R, L>,
                                                      a: Global<Thread<R, L>>, b: Global<MThread<R, L>>, t: nat)
    requires |a.threads| == |b.threads| && t < |a.threads| && !Jumping(blocks, Step(Kernel(blocks, ctx(t)), a.mem, a.threads[t].state).0)
    ensures var a1 := Tick(SourceSystem(blocks, ctx, s0), a, t); |a1.threads| == |a.threads| && !Jumping(blocks, a1.threads[t].state)
  {
    hide Step, Apply, Jumping;
  }

  lemma {:induction false} TimesFirst<S>(sys: System<S>, g: Global<S>, t: nat, m: nat)
    requires t < |g.threads|
    ensures IsSchedule(Times(t, m), |Tick(sys, g, t).threads|) && IsSchedule(Times(t, m + 1), |g.threads|)
    ensures Run(sys, g, Times(t, m + 1)) == Run(sys, Tick(sys, g, t), Times(t, m))
  {
    assert [t][..0] == [];
    assert Run(sys, g, [t]) == Tick(sys, g, t);
    assert [t] + Times(t, m) == Times(t, m + 1);
    RunAppend(sys, g, [t], Times(t, m));
  }

  lemma {:induction false} TickBackOnce<R(!new), L(!new)>(blocks: seq<Block<R, L>>, mblocks: seq<MBlock<R, L>>, ctx: nat -> Context,
                                                          s0: ThreadState<R, L>, t0: MState<R, L>,
                                                          a: Global<Thread<R, L>>, b: Global<MThread<R, L>>, t: nat) returns (n: nat)
    requires Lowered(blocks, mblocks) && BackRel(blocks, mblocks, ctx, a, b) && t < |a.threads|
    requires NeverTraps(SourceSystem(blocks, ctx, s0), a) && !Jumping(blocks, a.threads[t].state)
    ensures n <= 1 && IsSchedule(Times(t, n), |a.threads|)
    ensures var a' := Run(SourceSystem(blocks, ctx, s0), a, Times(t, n));
            BackRel(blocks, mblocks, ctx, a', Tick(TargetSystem(mblocks, ctx, t0), b, t))
            && NeverTraps(SourceSystem(blocks, ctx, s0), a')
  {
    hide Lowered, Step, MStep, Pending, Apply, Jumping, NeverTraps, Tick;
    var sys := SourceSystem(blocks, ctx, s0);
    NextTickSafe(blocks, ctx, s0, a, t);
    assert ThreadBack(blocks, MKernel(mblocks, ctx(t)), a.mem, a.threads[t], b.threads[t]);
    var moves := StepBack(blocks, mblocks, ctx(t), a.mem, a.threads[t].state, b.threads[t].state);
    if moves {
      BackBoth(blocks, mblocks, ctx, s0, t0, a, b, t);
      n := 1;
      TimesFirst(sys, a, t, 0);
      assert Times(t, 0) == [];
    } else {
      BackSilent(blocks, mblocks, ctx, t0, a, b, t);
      n := 0;
      assert Times(t, 0) == [];
    }
  }

  /** Every interleaving of the rendered form comes from an interleaving of the device IR with the same
      memory and the same logs. */
  lemma {:induction false} ScheduleBack<R(!new), L(!new)>(blocks: seq<Block<R, L>>, mblocks: seq<MBlock<R, L>>, ctx: nat -> Context,
                                                          s0: ThreadState<R, L>, t0: MState<R, L>,
                                                          a: Global<Thread<R, L>>, b: Global<MThread<R, L>>, schedule: seq<nat>)
    returns (origin: seq<nat>)
    requires Lowered(blocks, mblocks) && BackRel(blocks, mblocks, ctx, a, b) && IsSchedule(schedule, |b.threads|)
    requires NeverTraps(SourceSystem(blocks, ctx, s0), a)
    ensures IsSchedule(origin, |a.threads|)
    ensures var a' := Run(SourceSystem(blocks, ctx, s0), a, origin);
            BackRel(blocks, mblocks, ctx, a', Run(TargetSystem(mblocks, ctx, t0), b, schedule))
            && NeverTraps(SourceSystem(blocks, ctx, s0), a')
  {
    hide Lowered, ThreadBack, NeverTraps, Tick;
    if schedule == [] {
      origin := [];
    } else {
      var n := |schedule| - 1;
      var sys := SourceSystem(blocks, ctx, s0);
      var before := ScheduleBack(blocks, mblocks, ctx, s0, t0, a, b, schedule[..n]);
      var mid, mid' := Run(sys, a, before), Run(TargetSystem(mblocks, ctx, t0), b, schedule[..n]);
      var k := TickBack(blocks, mblocks, ctx, s0, t0, mid, mid', schedule[n]);
      RunAppend(sys, a, before, Times(schedule[n], k));
      origin := before + Times(schedule[n], k);
    }
  }

  lemma {:induction false} BackOutcome<R(!new), L(!new)>(blocks: seq<Block<R, L>>, mblocks: seq<MBlock<R, L>>, ctx: nat -> Context, s0: ThreadState<R, L>,
                                                         a: Global<Thread<R, L>>, b: Global<MThread<R, L>>)
    requires Lowered(blocks, mblocks) && BackRel(blocks, mblocks, ctx, a, b) && NeverTraps(SourceSystem(blocks, ctx, s0), a)
    ensures SameOutcome(a, b)
  {
    hide Lowered, Pending, NeverTraps, Step;
    forall t: nat | t < |a.threads| ensures SameEnd(a.threads[t], b.threads[t]) {
      assert ThreadBack(blocks, MKernel(mblocks, ctx(t)), a.mem, a.threads[t], b.threads[t]);
      NextTickSafe(blocks, ctx, s0, a, t);
      PendingDone(blocks, mblocks, ctx(t), a.mem, a.threads[t].state, b.threads[t].state);
      PendingNotTrapped(blocks, mblocks, ctx(t), a.mem, a.threads[t].state, b.threads[t].state);
    }
  }

  /** Rendering adds no runs: if no interleaving of a well-formed kernel traps, then none of its rendering
      does, and each of those ends with the memory and the logs of some interleaving of the kernel, in which
      the same threads have returned. */
  lemma {:induction false} RenderingAddsNoRuns<R(!new), L(!new)>(blocks: seq<Block<R, L>>, ctx: nat -> Context, env: Env<R>, menv: MEnv<R, L>,
                                                                 mem: Memory, threads: nat, schedule: seq<nat>)
    returns (mblocks: seq<MBlock<R, L>>, origin: seq<nat>)
    requires WellFormed(blocks) && Rel(env, menv) && IsSchedule(schedule, threads)
    requires var s0 := SourceStart(blocks, env);
             NeverTraps(SourceSystem(blocks, ctx, s0), Global(seq(threads, _ => Thread(s0, EMPTY_LOG)), mem))
    ensures LowerKernel(blocks) == Some(mblocks) && IsSchedule(origin, threads)
    ensures var s0, t0 := SourceStart(blocks, env), TargetStart(blocks, menv);
            SameOutcome(Run(SourceSystem(blocks, ctx, s0), Global(seq(threads, _ => Thread(s0, EMPTY_LOG)), mem), origin),
                        Run(TargetSystem(mblocks, ctx, t0), Global(seq(threads, _ => MThread(t0, EMPTY_LOG)), mem), schedule))
  {
    hide Rel, Run, NeverTraps, StateRel, SameOutcome, LowerUpTo, ExitsCovered, PhisFirst, PreCount;
    LowerSucceeds(blocks, |blocks|);
    mblocks := LowerKernel(blocks).value;
    var s0, t0 := SourceStart(blocks, env), TargetStart(blocks, menv);
    var a, b := Global(seq(threads, _ => Thread(s0, EMPTY_LOG)), mem), Global(seq(threads, _ => MThread(t0, EMPTY_LOG)), mem);
    forall t: nat | t < threads ensures ThreadBack(blocks, MKernel(mblocks, ctx(t)), mem, a.threads[t], b.threads[t]) {
      EntryRelated(ctx(t).fm, blocks, env, menv);
      assert PendingAt(ctx(t).fm, blocks, MKernel(mblocks, ctx(t)), mem, s0, t0, 0, t0);
    }
    origin := ScheduleBack(blocks, mblocks, ctx, s0, t0, a, b, schedule);
    BackOutcome(blocks, mblocks, ctx, s0, Run(SourceSystem(blocks, ctx, s0), a, origin), Run(TargetSystem(mblocks, ctx, t0), b, schedule));
  }
}
