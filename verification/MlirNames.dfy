/** The names a rendered kernel defines: the registers of the device IR, each where it was defined, and
    numbered constants. No name is defined twice. */
module MlirNames {
  import opened Options
  import opened DeviceIr
  import opened DeviceSemantics
  import opened MlirForm
  import opened PhiEdges

  /** What an operation defines, in order. */
  function MDefs<N, L>(op: MlirOp<N, L>): seq<N> {
    match op
    case Constant(name, _, _) => [name]
    case CsrRead(result, _) => [result]
    case UniformCall(result, _) => [result]
    case Plain(p) => Defs(p)
  }

  function MDefsOf<N, L>(ops: seq<MlirOp<N, L>>): seq<N> {
    if ops == [] then [] else MDefsOf(ops[..|ops| - 1]) + MDefs(ops[|ops| - 1])
  }

  function ParamNames<N>(params: seq<MlirParam<N>>): (names: seq<N>)
    ensures |names| == |params| && forall i :: 0 <= i < |params| ==> names[i] == params[i].name
  {
    seq(|params|, i requires 0 <= i < |params| => params[i].name)
  }

  /** Every definition of a rendered kernel: parameters, then operations, block after block. */
  function MDefinitions<N, L>(blocks: seq<MlirBlock<N, L>>): seq<N> {
    if blocks == [] then []
    else
      var b := blocks[|blocks| - 1];
      MDefinitions(blocks[..|blocks| - 1]) + (ParamNames(b.params) + MDefsOf(b.ops))
  }

  lemma {:induction false} MDefsAppend<N, L>(a: seq<MlirOp<N, L>>, b: seq<MlirOp<N, L>>)
    ensures MDefsOf(a + b) == MDefsOf(a) + MDefsOf(b)
  {
    hide MDefs;
    if b == [] {
      assert a + b == a;
    } else {
      assert (a + b)[..|a + b| - 1] == a + b[..|b| - 1];
      MDefsAppend(a, b[..|b| - 1]);
    }
  }

  lemma MDefsOne<N, L>(op: MlirOp<N, L>)
    ensures MDefsOf([op]) == MDefs(op)
  {
    assert [op][..0] == [];
    assert MDefsOf([op]) == MDefsOf([op][..0]) + MDefs(op);
  }

  // ----- registers and constants among names -----

  function Origs<R, L>(names: seq<MName<R, L>>): seq<R> {
    if names == [] then []
    else Origs(names[..|names| - 1]) + if names[|names| - 1].Orig? then [names[|names| - 1].reg] else []
  }

  lemma {:induction false} OrigsAppend<R, L>(a: seq<MName<R, L>>, b: seq<MName<R, L>>)
    ensures Origs(a + b) == Origs(a) + Origs(b)
  {
    if b == [] {
      assert a + b == a;
    } else {
      assert (a + b)[..|a + b| - 1] == a + b[..|b| - 1];
      OrigsAppend(a, b[..|b| - 1]);
    }
  }

  lemma {:induction false} OrigsIn<R, L>(names: seq<MName<R, L>>, i: nat)
    requires i < |names| && names[i].Orig?
    ensures names[i].reg in Origs(names)
  {
    if i < |names| - 1 {
      OrigsIn(names[..|names| - 1], i);
    }
  }

  lemma {:induction false} OrigsApart<R, L>(names: seq<MName<R, L>>, i: nat, j: nat)
    requires Distinct(Origs(names)) && i < j < |names| && names[i].Orig? && names[j].Orig?
    ensures names[i] != names[j]
  {
    var n := |names| - 1;
    var before := Origs(names[..n]);
    assert before == Origs(names)[..|before|];
    if j < n {
      OrigsApart(names[..n], i, j);
    } else {
      OrigsIn(names[..n], i);
      var k :| 0 <= k < |before| && before[k] == names[i].reg;
      assert Origs(names)[k] == names[i].reg && Origs(names)[|before|] == names[n].reg;
    }
  }

  /** The constants carry this block's label and strictly increasing numbers in [lo, hi). */
  ghost predicate Rising<R, L>(names: seq<MName<R, L>>, block: L, lo: nat, hi: nat) {
    && lo <= hi
    && (forall i :: 0 <= i < |names| && names[i].Const? ==> names[i].block == block && lo <= names[i].index < hi)
    && (forall i, j :: 0 <= i < j < |names| && names[i].Const? && names[j].Const? ==> names[i].index < names[j].index)
  }

  lemma RisingAppend<R, L>(a: seq<MName<R, L>>, b: seq<MName<R, L>>, block: L, lo: nat, mid: nat, hi: nat)
    requires Rising(a, block, lo, mid) && Rising(b, block, mid, hi)
    ensures Rising(a + b, block, lo, hi)
  {
    var names := a + b;
    forall i, j | 0 <= i < j < |names| && names[i].Const? && names[j].Const? ensures names[i].index < names[j].index {
      if i < |a| <= j {
        assert a[i].index < mid <= b[j - |a|].index;
      }
    }
  }

  /** These operations define exactly these registers, and constants numbered in [lo, hi). */
  ghost predicate Tidy<R, L>(ops: seq<MOp<R, L>>, defs: seq<R>, block: L, lo: nat, hi: nat) {
    Origs(MDefsOf(ops)) == defs && Rising(MDefsOf(ops), block, lo, hi)
  }

  lemma TidyAppend<R, L>(a: seq<MOp<R, L>>, c: seq<R>, b: seq<MOp<R, L>>, d: seq<R>, block: L, lo: nat, mid: nat, hi: nat)
    requires Tidy(a, c, block, lo, mid) && Tidy(b, d, block, mid, hi)
    ensures Tidy(a + b, c + d, block, lo, hi)
  {
    MDefsAppend(a, b);
    OrigsAppend(MDefsOf(a), MDefsOf(b));
    RisingAppend(MDefsOf(a), MDefsOf(b), block, lo, mid, hi);
  }

  function Named<R, L>(regs: seq<R>): (names: seq<MName<R, L>>)
    ensures |names| == |regs| && forall i :: 0 <= i < |regs| ==> names[i] == Orig(regs[i])
  {
    seq(|regs|, i requires 0 <= i < |regs| => Orig(regs[i]))
  }

  lemma {:induction false} OrigsOfNamed<R, L>(regs: seq<R>)
    ensures Origs(Named<R, L>(regs)) == regs
  {
    if regs != [] {
      var n := |regs| - 1;
      assert Named<R, L>(regs)[..n] == Named<R, L>(regs[..n]);
      OrigsOfNamed<R, L>(regs[..n]);
    }
  }

  lemma NamedRising<R, L>(regs: seq<R>, block: L, n: nat)
    ensures Rising(Named<R, L>(regs), block, n, n)
  {
  }

  lemma LastTidy<R, L>(a: seq<MOp<R, L>>, c: seq<R>, op: MOp<R, L>, d: seq<R>, block: L, lo: nat, hi: nat)
    requires Tidy(a, c, block, lo, hi) && MDefs(op) == Named(d)
    ensures Tidy(a + [op], c + d, block, lo, hi)
  {
    hide MDefs, MDefsOf, Origs, Rising;
    MDefsOne(op);
    OrigsOfNamed<R, L>(d);
    NamedRising<R, L>(d, block, hi);
    TidyAppend(a, c, [op], d, block, lo, hi, hi);
  }

  // ----- what the renderer defines -----

  lemma EnsureTidy<R, L>(block: L, counter: nat, v: Operand<R>, ty: LlvmType)
    ensures var e := EnsureValue(block, counter, v, ty); Tidy(e.ops, [], block, counter, e.counter)
  {
    var e := EnsureValue(block, counter, v, ty);
    if e.ops != [] {
      MDefsOne<MName<R, L>, L>(e.ops[0]);
      assert e.ops == [e.ops[0]];
      var names := MDefsOf(e.ops);
      assert names[..0] == [] && Origs(names) == Origs(names[..0]) + [];
    }
  }

  lemma OneTidy<R, L>(block: L, counter: nat, v: Operand<R>, ty: LlvmType, op: Op<MName<R, L>, L>, d: seq<R>)
    requires Defs(op) == Named(d)
    ensures var e := EmitUnary(EnsureValue(block, counter, v, ty), op); Tidy(e.All(), d, block, counter, e.counter)
  {
    hide Tidy, EnsureValue;
    var a := EnsureValue(block, counter, v, ty);
    EnsureTidy(block, counter, v, ty);
    LastTidy(a.ops, [], Plain(op), d, block, counter, a.counter);
    assert [] + d == d;
  }

  lemma PairTidy<R, L>(block: L, counter: nat, v: Operand<R>, vt: LlvmType, u: Operand<R>, ut: LlvmType)
    ensures var a := EnsureValue(block, counter, v, vt);
            var b := EnsureValue(block, a.counter, u, ut);
            Tidy(a.ops + b.ops, [], block, counter, b.counter)
  {
    hide Tidy, EnsureValue;
    var a := EnsureValue(block, counter, v, vt);
    var b := EnsureValue(block, a.counter, u, ut);
    EnsureTidy(block, counter, v, vt);
    EnsureTidy(block, a.counter, u, ut);
    TidyAppend(a.ops, [], b.ops, [], block, counter, a.counter, b.counter);
  }

  lemma TwoTidy<R, L>(block: L, counter: nat, v: Operand<R>, u: Operand<R>, ty: LlvmType, op: Op<MName<R, L>, L>, d: seq<R>)
    requires Defs(op) == Named(d)
    ensures var a := EnsureValue(block, counter, v, ty);
            var e := EmitBinary(a, EnsureValue(block, a.counter, u, ty), op);
            Tidy(e.All(), d, block, counter, e.counter)
  {
    hide Tidy, EnsureValue;
    PairTidy(block, counter, v, ty, u, ty);
    var a := EnsureValue(block, counter, v, ty);
    var b := EnsureValue(block, a.counter, u, ty);
    LastTidy(a.ops + b.ops, [], Plain(op), d, block, counter, b.counter);
    assert [] + d == d;
  }

  lemma CsrTidy<R, L>(block: L, counter: nat, op: Op<R, L>)
    requires op.CtaCsrI32?
    ensures var e := EmitOp(block, counter, op); Tidy(e.All(), Defs(op), block, counter, e.counter)
  {
    hide Tidy, EnsureValue;
    var c: Ensured<R, L> := EnsureValue(block, counter, Lit(IntLit(op.csr.Encoded())), I32);
    EnsureTidy<R, L>(block, counter, Lit(IntLit(op.csr.Encoded())), I32);
    var read := CsrRead(Orig(op.raw64), c.value);
    LastTidy(c.ops, [], read, [op.raw64], block, counter, c.counter);
    var e := EmitOp(block, counter, op);
    if op.uniform {
      var raw32 := if op.raw32.Some? then op.raw32.value else op.result;
      LastTidy(c.ops + [read], [] + [op.raw64], e.pre[|e.pre| - 1], [raw32], block, counter, c.counter);
      LastTidy(e.pre, [] + [op.raw64] + [raw32], e.last, [op.result], block, counter, c.counter);
      assert [] + [op.raw64] + [raw32] + [op.result] == Defs(op);
    } else {
      LastTidy(c.ops + [read], [] + [op.raw64], e.last, [op.result], block, counter, c.counter);
      assert [] + [op.raw64] + [op.result] == Defs(op);
    }
  }

  lemma SelectTidy<R, L>(block: L, counter: nat, op: Op<R, L>)
    requires op.Select?
    ensures var e := EmitOp(block, counter, op); Tidy(e.All(), Defs(op), block, counter, e.counter)
  {
    hide Tidy, EnsureValue;
    PairTidy(block, counter, op.cond, I1, op.trueValue, op.ty);
    var c: Ensured<R, L> := EnsureValue(block, counter, op.cond, I1);
    var a: Ensured<R, L> := EnsureValue(block, c.counter, op.trueValue, op.ty);
    var b: Ensured<R, L> := EnsureValue(block, a.counter, op.falseValue, op.ty);
    EnsureTidy(block, a.counter, op.falseValue, op.ty);
    TidyAppend(c.ops + a.ops, [], b.ops, [], block, counter, a.counter, b.counter);
    var e := EmitOp(block, counter, op);
    LastTidy(e.pre, [] + [], e.last, Defs(op), block, counter, b.counter);
    assert [] + [] + Defs(op) == Defs(op);
  }

  lemma EmptyTidy<R, L>(block: L, counter: nat)
    ensures Tidy<R, L>([], [], block, counter, counter)
  {
  }

  lemma NoneTidy<R, L>(op: MOp<R, L>, d: seq<R>, block: L, counter: nat)
    requires MDefs(op) == Named(d)
    ensures Tidy([] + [op], d, block, counter, counter)
  {
    hide Tidy, MDefs;
    EmptyTidy<R, L>(block, counter);
    LastTidy([], [], op, d, block, counter, counter);
    assert [] + d == d;
  }

  lemma OpTidy<R, L>(block: L, counter: nat, op: Op<R, L>)
    requires !op.Phi?
    ensures var e := EmitOp(block, counter, op); Tidy(e.All(), Defs(op), block, counter, e.counter)
  {
    hide Tidy, EnsureValue, EmitCsr;
    var e := EmitOp(block, counter, op);
    match op
    case StructFieldPtr(_, _, _) => NoneTidy(e.last, Defs(op), block, counter);
    case Load(_, _, _) => NoneTidy(e.last, Defs(op), block, counter);
    case Store(ty, value, _) => OneTidy(block, counter, value, ty, e.last.op, Defs(op));
    case IntToPtr(_, ty, value) => OneTidy(block, counter, value, ty, e.last.op, Defs(op));
    case CtaCsrI32(_, _, _, _, _) => CsrTidy(block, counter, op);
    case Binary(_, _, ty, lhs, rhs, _) => TwoTidy(block, counter, lhs, rhs, ty, e.last.op, Defs(op));
    case FloatBinary(_, _, ty, lhs, rhs) => TwoTidy(block, counter, lhs, rhs, ty, e.last.op, Defs(op));
    case Icmp(_, _, ty, lhs, rhs) => TwoTidy(block, counter, lhs, rhs, ty, e.last.op, Defs(op));
    case Fcmp(_, _, ty, lhs, rhs) => TwoTidy(block, counter, lhs, rhs, ty, e.last.op, Defs(op));
    case Select(_, _, _, _, _) => SelectTidy(block, counter, op);
    case FloatExp(_, ty, value) => OneTidy(block, counter, value, ty, e.last.op, Defs(op));
    case Gep(_, _, _, index, _) => OneTidy(block, counter, index, I64, e.last.op, Defs(op));
    case Cast(_, _, ty, value, _) => OneTidy(block, counter, value, ty, e.last.op, Defs(op));
  }

  function PhiDefs<R, L>(phis: seq<Op<R, L>>): (regs: seq<R>)
    requires forall i :: 0 <= i < |phis| ==> phis[i].Phi?
    ensures |regs| == |phis| && forall i :: 0 <= i < |phis| ==> regs[i] == phis[i].result
  {
    seq(|phis|, i requires 0 <= i < |phis| => phis[i].result)
  }

  function BodyDefs<R, L>(ops: seq<Op<R, L>>): seq<R> {
    if ops == [] then []
    else BodyDefs(ops[..|ops| - 1]) + if ops[|ops| - 1].Phi? then [] else Defs(ops[|ops| - 1])
  }

  lemma {:induction false} BodyTidy<R, L>(block: L, ops: seq<Op<R, L>>)
    ensures var b := EmitOps(block, ops); Tidy(b.ops, BodyDefs(ops), block, 0, b.counter)
  {
    hide EmitOp, Defs;
    if ops != [] {
      var n := |ops| - 1;
      BodyTidy(block, ops[..n]);
      if !ops[n].Phi? {
        var before := EmitOps(block, ops[..n]);
        OpTidy(block, before.counter, ops[n]);
        var e := EmitOp(block, before.counter, ops[n]);
        TidyAppend(before.ops, BodyDefs(ops[..n]), e.All(), Defs(ops[n]), block, 0, before.counter, e.counter);
      }
    }
  }

  lemma {:induction false} DefsOfPhis<R, L>(ops: seq<Op<R, L>>)
    requires forall i :: 0 <= i < |ops| ==> ops[i].Phi?
    ensures DefsOf(ops) == PhiDefs(ops) && BodyDefs(ops) == []
  {
    hide Defs;
    if ops != [] {
      var n := |ops| - 1;
      DefsOfPhis(ops[..n]);
      PhiDefines(ops[n]);
      assert PhiDefs(ops) == PhiDefs(ops[..n]) + [ops[n].result];
    }
  }

  lemma {:induction false} LastDefs<R, L>(ops: seq<Op<R, L>>)
    requires ops != [] && !ops[|ops| - 1].Phi?
    ensures DefsOf(ops) == DefsOf(ops[..|ops| - 1]) + Defs(ops[|ops| - 1])
    ensures BodyDefs(ops) == BodyDefs(ops[..|ops| - 1]) + Defs(ops[|ops| - 1])
  {
    hide Defs;
  }

  /** Phis first: a block defines its phis, then the rest. */
  lemma {:induction false} DefsSplit<R, L>(ops: seq<Op<R, L>>, k: nat)
    requires k <= |ops| && (forall i :: 0 <= i < k ==> ops[i].Phi?) && (forall i :: k <= i < |ops| ==> !ops[i].Phi?)
    ensures DefsOf(ops) == PhiDefs(ops[..k]) + BodyDefs(ops)
  {
    hide Defs, PhiDefs, DefsOf, BodyDefs;
    var n := |ops| - 1;
    if k == |ops| {
      DefsOfPhis(ops);
      assert ops[..k] == ops;
    } else {
      DefsSplit(ops[..n], k);
      assert ops[..n][..k] == ops[..k];
      LastDefs(ops);
      Regroup(PhiDefs(ops[..k]), BodyDefs(ops[..n]), Defs(ops[n]));
    }
  }

  lemma Regroup<T>(a: seq<T>, b: seq<T>, c: seq<T>)
    ensures (a + b) + c == a + (b + c)
  {
  }

  lemma PhiDefines<R, L>(op: Op<R, L>)
    requires op.Phi?
    ensures Defs(op) == [op.result]
  {
  }

  lemma {:induction false} ArgsTidy<R, L>(block: L, counter: nat, phis: seq<Op<R, L>>)
    requires forall i :: 0 <= i < |phis| ==> phis[i].Phi?
    requires EmitArgs(block, counter, phis).Some?
    ensures var e := EmitArgs(block, counter, phis).value; Tidy(e.ops, [], block, counter, e.counter)
  {
    hide EnsureValue;
    if phis != [] {
      var n := |phis| - 1;
      ArgsTidy(block, counter, phis[..n]);
      var before := EmitArgs(block, counter, phis[..n]).value;
      var v := IncomingFor(phis[n].incoming, block).value;
      EnsureTidy(block, before.counter, v, phis[n].ty);
      var e: Ensured<R, L> := EnsureValue(block, before.counter, v, phis[n].ty);
      TidyAppend(before.ops, [], e.ops, [], block, counter, before.counter, e.counter);
    }
  }

  lemma {:induction false} SuccessorTidy<R, L>(blocks: seq<Block<R, L>>, block: L, counter: nat, target: L)
    requires EmitSuccessor(blocks, block, counter, target).Some?
    ensures var e := EmitSuccessor(blocks, block, counter, target).value; Tidy(e.ops, [], block, counter, e.counter)
  {
    hide EmitArgs, PhiOps, Tidy;
    ArgsTidy(block, counter, PhiOps(Lookup(blocks, target).value.ops));
  }

  lemma {:induction false} TerminatorTidy<R, L>(blocks: seq<Block<R, L>>, block: L, counter: nat, t: Terminator<R, L>) returns (hi: nat)
    requires EmitTerminator(blocks, block, counter, t).Some?
    ensures Tidy(EmitTerminator(blocks, block, counter, t).value.ops, [], block, counter, hi)
  {
    hide EmitSuccessor, EnsureValue;
    hi := counter;
    match t
    case RetVoid =>
    case Br(l) =>
      SuccessorTidy(blocks, block, counter, l);
      hi := EmitSuccessor(blocks, block, counter, l).value.counter;
    case CondBr(cond, l, m) =>
      EnsureTidy<R, L>(block, counter, cond, I1);
      var c: Ensured<R, L> := EnsureValue(block, counter, cond, I1);
      SuccessorTidy(blocks, block, c.counter, l);
      var x := EmitSuccessor(blocks, block, c.counter, l).value;
      SuccessorTidy(blocks, block, x.counter, m);
      var y := EmitSuccessor(blocks, block, x.counter, m).value;
      hide Tidy;
      TidyAppend(c.ops, [], x.ops, [], block, counter, c.counter, x.counter);
      TidyAppend(c.ops + x.ops, [] + [], y.ops, [], block, counter, x.counter, y.counter);
        hi := y.counter;
  }

  /** A rendered block defines the registers its block defined, in the same order. */
  lemma {:induction false} BlockNames<R, L>(blocks: seq<Block<R, L>>, b: Block<R, L>, isEntry: bool) returns (hi: nat)
    requires LowerBlock(blocks, b, isEntry).Some? && PhisFirst(b.ops) && (isEntry ==> PhiCount(b.ops) == 0)
    ensures var m := LowerBlock(blocks, b, isEntry).value;
            var names := ParamNames(m.params) + MDefsOf(m.ops);
            Origs(names) == DefsOf(b.ops) && Rising(names, b.name, 0, hi)
  {
    hide EmitOps, EmitTerminator, PhiOps, DefsOf, MDefsOf, Origs, Rising, BodyDefs, PhisFirst, PhiCount;
    var m := LowerBlock(blocks, b, isEntry).value;
    var body := EmitOps(b.name, b.ops);
    BodyTidy(b.name, b.ops);
    hi := TerminatorTidy(blocks, b.name, body.counter, b.terminator);
    TidyAppend(body.ops, BodyDefs(b.ops), EmitTerminator(blocks, b.name, body.counter, b.terminator).value.ops, [],
               b.name, 0, body.counter, hi);
    var regs := ParamsDefine(blocks, b, isEntry);
    OrigsOfNamed<R, L>(regs);
    NamedRising<R, L>(regs, b.name, 0);
    OrigsAppend(ParamNames(m.params), MDefsOf(m.ops));
    RisingAppend(ParamNames(m.params), MDefsOf(m.ops), b.name, 0, 0, hi);
  }

  lemma {:induction false} ParamsDefine<R, L>(blocks: seq<Block<R, L>>, b: Block<R, L>, isEntry: bool) returns (regs: seq<R>)
    requires LowerBlock(blocks, b, isEntry).Some? && PhisFirst(b.ops) && (isEntry ==> PhiCount(b.ops) == 0)
    ensures ParamNames(LowerBlock(blocks, b, isEntry).value.params) == Named(regs)
    ensures DefsOf(b.ops) == regs + (BodyDefs(b.ops) + [])
  {
    hide EmitOps, EmitTerminator, PhiOps, DefsOf, BodyDefs;
    PhiOpsLead(b.ops);
    DefsSplit(b.ops, PhiCount(b.ops));
    regs := PhiDefs(b.ops[..PhiCount(b.ops)]);
  }

  // ----- the whole kernel -----

  predicate SameSlot<R, L(==)>(a: MName<R, L>, b: MName<R, L>) {
    a.Const? && b.Const? && a.block == b.block && a.index == b.index
  }

  /** No two constants have the same block and number. */
  ghost predicate SlotsApart<R, L>(names: seq<MName<R, L>>) {
    forall i, j :: 0 <= i < j < |names| ==> !SameSlot(names[i], names[j])
  }

  /** The constants belong to the first `n` blocks. */
  ghost predicate FromBlocks<R, L>(names: seq<MName<R, L>>, blocks: seq<Block<R, L>>, n: nat)
    requires n <= |blocks|
  {
    forall x :: x in names && x.Const? ==> exists i :: 0 <= i < n && blocks[i].name == x.block
  }

  lemma {:induction false} KernelNamesUpTo<R, L>(blocks: seq<Block<R, L>>, n: nat)
    requires n <= |blocks| && WellFormed(blocks) && LowerUpTo(blocks, n).Some?
    ensures var names := MDefinitions(LowerUpTo(blocks, n).value);
            Origs(names) == Definitions(blocks[..n]) && SlotsApart(names) && FromBlocks(names, blocks, n)
  {
    hide LowerBlock, PhisFirst, ExitsCovered, Rising, DefsOf, Origs, MDefsOf, SlotsApart, FromBlocks, Distinct, MDefinitions, Definitions;
    if n == 0 {
      NoNames(blocks);
    } else {
      KernelNamesUpTo(blocks, n - 1);
      var before := LowerUpTo(blocks, n - 1).value;
      var m := LowerBlock(blocks, blocks[n - 1], n == 1).value;
      var hi := BlockNames(blocks, blocks[n - 1], n == 1);
      var a, b := MDefinitions(before), ParamNames(m.params) + MDefsOf(m.ops);
      LastBlockDefines(before, m);
      LastBlockDefined(blocks, n);
      OrigsAppend(a, b);
      NamesAppend(blocks, n - 1, a, b, hi);
    }
  }

  lemma {:induction false} NoNames<R, L>(blocks: seq<Block<R, L>>)
    ensures var names: seq<MName<R, L>> := MDefinitions<MName<R, L>, L>([]);
            Origs(names) == Definitions(blocks[..0]) && SlotsApart(names) && FromBlocks(names, blocks, 0)
  {
  }

  lemma LastBlockDefines<R, L>(before: seq<MBlock<R, L>>, m: MBlock<R, L>)
    ensures MDefinitions(before + [m]) == MDefinitions(before) + (ParamNames(m.params) + MDefsOf(m.ops))
  {
    hide MDefsOf;
    assert (before + [m])[..|before|] == before;
  }

  lemma {:induction false} LastBlockDefined<R, L>(blocks: seq<Block<R, L>>, n: nat)
    requires 0 < n <= |blocks|
    ensures Definitions(blocks[..n]) == Definitions(blocks[..n - 1]) + DefsOf(blocks[n - 1].ops)
  {
    hide DefsOf;
    assert blocks[..n][..n - 1] == blocks[..n - 1];
  }

  lemma {:induction false} LowerLength<R, L>(blocks: seq<Block<R, L>>, n: nat)
    requires n <= |blocks| && LowerUpTo(blocks, n).Some?
    ensures |LowerUpTo(blocks, n).value| == n
  {
    hide LowerBlock;
    if n > 0 {
      LowerLength(blocks, n - 1);
    }
  }

  lemma {:induction false} NamesAppend<R, L>(blocks: seq<Block<R, L>>, n: nat, a: seq<MName<R, L>>, b: seq<MName<R, L>>, hi: nat)
    requires n < |blocks| && DistinctLabels(blocks)
    requires SlotsApart(a) && FromBlocks(a, blocks, n) && Rising(b, blocks[n].name, 0, hi)
    ensures SlotsApart(a + b) && FromBlocks(a + b, blocks, n + 1)
  {
    var names := a + b;
    forall i, j | 0 <= i < j < |names| ensures !SameSlot(names[i], names[j]) {
      if i < |a| <= j && names[i].Const? {
        assert names[i] in a;
      }
    }
  }

  lemma {:induction false} ApartDistinct<R, L>(names: seq<MName<R, L>>)
    requires Distinct(Origs(names)) && SlotsApart(names)
    ensures Distinct(names)
  {
    forall i, j | 0 <= i < j < |names| ensures names[i] != names[j] {
      if names[i].Orig? && names[j].Orig? {
        OrigsApart(names, i, j);
      }
    }
  }

  /** A rendered kernel defines the registers of the device IR, in the same order, and constants no two of
      which have the same block and number: so no name twice. */
  lemma {:induction false} KernelNames<R, L>(blocks: seq<Block<R, L>>, mblocks: seq<MBlock<R, L>>)
    requires WellFormed(blocks) && LowerKernel(blocks) == Some(mblocks)
    ensures Origs(MDefinitions(mblocks)) == Definitions(blocks) && SlotsApart(MDefinitions(mblocks))
    ensures FromBlocks(MDefinitions(mblocks), blocks, |blocks|) && Distinct(MDefinitions(mblocks))
  {
    hide LowerUpTo, PhisFirst, ExitsCovered;
    KernelNamesUpTo(blocks, |blocks|);
    assert blocks[..|blocks|] == blocks;
    ApartDistinct(MDefinitions(mblocks));
  }
}
