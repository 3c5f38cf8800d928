/** The block-argument form that device IR is rendered to
    (crates/vortex-codegen/src/codegen/device_ir_mlir.rs): its syntax, one thread's steps, and the lowering. */
module MlirForm {
  import opened Options
  import opened Floats
  import opened DeviceIr
  import opened DeviceSemantics

  /** Names of the rendered text: the original registers, and the constants materialised in a block. */
  datatype MName<R, L> = Orig(reg: R) | Const(block: L, index: nat, ty: LlvmType)

  /** The syntax is generic in the names of values: structured names here, text where it is written out. */
  datatype MlirOp<N, L> =
    | Constant(name: N, lit: Literal, cty: LlvmType)
    | CsrRead(result: N, csr: Operand<N>)
    | UniformCall(result: N, arg: N)
    | Plain(op: Op<N, L>)

  /** A successor passes typed values to the parameters of its target. */
  datatype MlirArg<N> = Passed(value: Operand<N>, ty: LlvmType)
  datatype MlirSuccessor<N, L> = Successor(target: L, args: seq<MlirArg<N>>)

  datatype MlirTerminator<N, L> =
    | MBr(succ: MlirSuccessor<N, L>)
    | MCondBr(cond: Operand<N>, thenSucc: MlirSuccessor<N, L>, elseSucc: MlirSuccessor<N, L>)
    | MRet

  datatype MlirParam<N> = Param(name: N, ty: LlvmType)
  datatype MlirBlock<N, L> = MBlock(name: L, params: seq<MlirParam<N>>, ops: seq<MlirOp<N, L>>, terminator: MlirTerminator<N, L>)

  type MOp<R, L> = MlirOp<MName<R, L>, L>
  type Passed<R, L> = MlirArg<MName<R, L>>
  type Successor<R, L> = MlirSuccessor<MName<R, L>, L>
  type MTerminator<R, L> = MlirTerminator<MName<R, L>, L>
  type Param<R, L> = MlirParam<MName<R, L>>
  type MBlock<R, L> = MlirBlock<MName<R, L>, L>

  // ----- one thread of the rendered form -----

  function MLookup<N, L(==)>(blocks: seq<MlirBlock<N, L>>, name: L): (r: Option<MlirBlock<N, L>>)
    ensures r.Some? ==> r.value in blocks && r.value.name == name
  {
    if blocks == [] then None
    else if blocks[0].name == name then Some(blocks[0])
    else MLookup(blocks[1..], name)
  }

  /** The blocks that are written with a label: all but the entry. Only these can be branched to. */
  function Headed<N, L>(blocks: seq<MlirBlock<N, L>>): seq<MlirBlock<N, L>> {
    if blocks == [] then [] else blocks[1..]
  }

  function MExec<N(==), L(==)>(ctx: Context, mem: Memory, env: map<N, Val>, op: MlirOp<N, L>): Outcome<N> {
    match op
    case Constant(name, lit, ty) =>
      var v := EvalLiteral(ctx.fm, lit, ty);
      if v.Some? then Next(env[name := v.value], Silent) else Trap
    case CsrRead(result, csr) =>
      var c := Eval(ctx.fm, env, csr, I32);
      if c.Some? && c.value.IntV? && c.value.bits in ctx.csr
      then Next(env[result := FromSigned(64, ctx.csr[c.value.bits])], Silent) else Trap
    case UniformCall(result, arg) =>
      if arg in env && HasType(env[arg], I32) then Next(env[result := env[arg]], Silent) else Trap
    case Plain(p) => ExecOp(ctx, mem, env, p)
  }

  /** All arguments are read before any parameter is bound. */
  function BindParams<N(==)>(fm: FloatModel, params: seq<MlirParam<N>>, args: seq<MlirArg<N>>, env: map<N, Val>): Option<map<N, Val>>
    requires |params| == |args|
  {
    if params == [] then Some(map[])
    else
      var n := |params| - 1;
      var before := BindParams(fm, params[..n], args[..n], env);
      var v := Eval(fm, env, args[n].value, args[n].ty);
      if before.None? || v.None? || args[n].ty != params[n].ty then None else Some(before.value[params[n].name := v.value])
  }

  datatype MlirState<N(==), L> = MAt(block: L, pc: nat, env: map<N, Val>) | MDone | MTrapped
  datatype MlirKernel<N, L> = MKernel(blocks: seq<MlirBlock<N, L>>, ctx: Context)

  type MState<R(==), L(==)> = MlirState<MName<R, L>, L>
  type MKernel<R, L> = MlirKernel<MName<R, L>, L>

  function MGoto<N(==), L(==)>(k: MlirKernel<N, L>, s: MlirSuccessor<N, L>, env: map<N, Val>): MlirState<N, L> {
    var b := MLookup(Headed(k.blocks), s.target);
    if b.None? || |b.value.params| != |s.args| then MTrapped
    else
      var bound := BindParams(k.ctx.fm, b.value.params, s.args, env);
      if bound.None? then MTrapped else MAt(s.target, 0, env + bound.value)
  }

  function MLeave<N(==), L(==)>(k: MlirKernel<N, L>, t: MlirTerminator<N, L>, env: map<N, Val>): MlirState<N, L> {
    match t
    case MRet => MDone
    case MBr(s) => MGoto(k, s, env)
    case MCondBr(cond, a, b) =>
      var c := Eval(k.ctx.fm, env, cond, I1);
      if c.Some? && c.value.IntV? then MGoto(k, if c.value.bits != 0 then a else b, env) else MTrapped
  }

  function MStep<N(==), L(==)>(k: MlirKernel<N, L>, mem: Memory, s: MlirState<N, L>): (MlirState<N, L>, Effect) {
    match s
    case MDone => (s, Silent)
    case MTrapped => (s, Silent)
    case MAt(block, pc, env) =>
      var b := MLookup(k.blocks, block);
      if b.None? then (MTrapped, Silent)
      else if pc < |b.value.ops| then
        match MExec(k.ctx, mem, env, b.value.ops[pc])
        case Trap => (MTrapped, Silent)
        case Next(env', effect) => (MAt(block, pc + 1, env'), effect)
      else (MLeave(k, b.value.terminator, env), Silent)
  }

  datatype MlirThread<N(==), L> = MThread(state: MlirState<N, L>, log: Log)

  type MThread<R(==), L(==)> = MlirThread<MName<R, L>, L>

  // ----- the lowering -----

  predicate IsLiteralForType(lit: Literal, ty: LlvmType) {
    if ty == LlvmType.F32 then lit.FloatLit? else lit.IntLit?
  }

  /** What rendering an operand appends, the next constant number, and the operand's rendered name. */
  datatype Ensured<R, L> = Ensured(ops: seq<MOp<R, L>>, counter: nat, value: Operand<MName<R, L>>)

  function EnsureValue<R, L>(block: L, counter: nat, v: Operand<R>, ty: LlvmType): Ensured<R, L> {
    match v
    case Ref(r) => Ensured([], counter, Ref(Orig(r)))
    case Lit(lit) =>
      if IsLiteralForType(lit, ty) then
        Ensured([Constant(Const(block, counter, ty), lit, ty)], counter + 1, Ref(Const(block, counter, ty)))
      else Ensured([], counter, Lit(lit))
  }

  /** What rendering an operation appends: preparation, then one last operation. */
  datatype Emitted<R, L> = Emitted(pre: seq<MOp<R, L>>, last: MOp<R, L>, counter: nat) {
    function All(): seq<MOp<R, L>> { pre + [last] }
  }

  function EmitUnary<R, L>(a: Ensured<R, L>, op: Op<MName<R, L>, L>): Emitted<R, L> {
    Emitted(a.ops, Plain(op), a.counter)
  }

  function EmitBinary<R, L>(a: Ensured<R, L>, b: Ensured<R, L>, op: Op<MName<R, L>, L>): Emitted<R, L> {
    Emitted(a.ops + b.ops, Plain(op), b.counter)
  }

  function EmitCsr<R, L>(block: L, counter: nat, raw64: R, raw32: Option<R>, result: R, csr: nat, uniform: bool): Emitted<R, L> {
    var c := EnsureValue(block, counter, Lit(IntLit(csr)), I32);
    var read := c.ops + [CsrRead(Orig(raw64), c.value)];
    if uniform then
      var narrow := Orig(if raw32.Some? then raw32.value else result);
      Emitted(read + [Plain(Cast(narrow, Trunc, I64, Ref(Orig(raw64)), I32))], UniformCall(Orig(result), narrow), c.counter)
    else
      Emitted(read, Plain(Cast(Orig(result), Trunc, I64, Ref(Orig(raw64)), I32)), c.counter)
  }

  function EmitOp<R, L>(block: L, counter: nat, op: Op<R, L>): Emitted<R, L>
    requires !op.Phi?
  {
    match op
    case StructFieldPtr(result, base, field) =>
      Emitted([], Plain(StructFieldPtr(Orig(result), Orig(base), field)), counter)
    case Load(result, ty, ptr) => Emitted([], Plain(Load(Orig(result), ty, Orig(ptr))), counter)
    case Store(ty, value, ptr) =>
      var v := EnsureValue(block, counter, value, ty);
      EmitUnary(v, Store(ty, v.value, Orig(ptr)))
    case IntToPtr(result, ty, value) =>
      var v := EnsureValue(block, counter, value, ty);
      EmitUnary(v, IntToPtr(Orig(result), ty, v.value))
    case CtaCsrI32(raw64, raw32, result, csr, uniform) =>
      EmitCsr(block, counter, raw64, raw32, result, csr.Encoded(), uniform)
    case Binary(result, bop, ty, lhs, rhs, overflow) =>
      var a := EnsureValue(block, counter, lhs, ty);
      var b := EnsureValue(block, a.counter, rhs, ty);
      EmitBinary(a, b, Binary(Orig(result), bop, ty, a.value, b.value, overflow))
    case FloatBinary(result, fop, ty, lhs, rhs) =>
      var a := EnsureValue(block, counter, lhs, ty);
      var b := EnsureValue(block, a.counter, rhs, ty);
      EmitBinary(a, b, FloatBinary(Orig(result), fop, ty, a.value, b.value))
    case Icmp(result, pred, ty, lhs, rhs) =>
      var a := EnsureValue(block, counter, lhs, ty);
      var b := EnsureValue(block, a.counter, rhs, ty);
      EmitBinary(a, b, Icmp(Orig(result), pred, ty, a.value, b.value))
    case Fcmp(result, pred, ty, lhs, rhs) =>
      var a := EnsureValue(block, counter, lhs, ty);
      var b := EnsureValue(block, a.counter, rhs, ty);
      EmitBinary(a, b, Fcmp(Orig(result), pred, ty, a.value, b.value))
    case Select(result, cond, ty, trueValue, falseValue) =>
      var c := EnsureValue(block, counter, cond, I1);
      var a := EnsureValue(block, c.counter, trueValue, ty);
      var b := EnsureValue(block, a.counter, falseValue, ty);
      Emitted(c.ops + a.ops + b.ops, Plain(Select(Orig(result), c.value, ty, a.value, b.value)), b.counter)
    case FloatExp(result, ty, value) =>
      var v := EnsureValue(block, counter, value, ty);
      EmitUnary(v, FloatExp(Orig(result), ty, v.value))
    case Gep(result, elementTy, base, index, inbounds) =>
      var i := EnsureValue(block, counter, index, I64);
      EmitUnary(i, Gep(Orig(result), elementTy, Orig(base), i.value, inbounds))
    case Cast(result, kind, fromTy, value, toTy) =>
      var v := EnsureValue(block, counter, value, fromTy);
      EmitUnary(v, Cast(Orig(result), kind, fromTy, v.value, toTy))
  }

  /** The operations of a block up to `n`, phis skipped, and the next constant number. */
  datatype Body<R, L> = Body(ops: seq<MOp<R, L>>, counter: nat)

  function EmitOps<R, L>(block: L, ops: seq<Op<R, L>>): Body<R, L> {
    if ops == [] then Body([], 0)
    else
      var before := EmitOps(block, ops[..|ops| - 1]);
      var op := ops[|ops| - 1];
      if op.Phi? then before
      else
        var e := EmitOp(block, before.counter, op);
        Body(before.ops + e.All(), e.counter)
  }

  /** Every phi of a block, wherever it stands. */
  function PhiOps<R, L>(ops: seq<Op<R, L>>): (phis: seq<Op<R, L>>)
    ensures forall i :: 0 <= i < |phis| ==> phis[i].Phi?
  {
    if ops == [] then []
    else PhiOps(ops[..|ops| - 1]) + if ops[|ops| - 1].Phi? then [ops[|ops| - 1]] else []
  }

  datatype PassedArgs<R, L> = PassedArgs(ops: seq<MOp<R, L>>, counter: nat, args: seq<Passed<R, L>>)

  /** The values an edge passes; `None` where the renderer panics on a missing incoming value. */
  function EmitArgs<R, L(==)>(block: L, counter: nat, phis: seq<Op<R, L>>): Option<PassedArgs<R, L>>
    requires forall i :: 0 <= i < |phis| ==> phis[i].Phi?
  {
    if phis == [] then Some(PassedArgs([], counter, []))
    else
      var before := EmitArgs(block, counter, phis[..|phis| - 1]);
      var phi := phis[|phis| - 1];
      var incoming := IncomingFor(phi.incoming, block);
      if before.None? || incoming.None? then None
      else
        var v := EnsureValue(block, before.value.counter, incoming.value, phi.ty);
        Some(PassedArgs(before.value.ops + v.ops, v.counter, before.value.args + [Passed(v.value, phi.ty)]))
  }

  datatype EmittedSuccessor<R, L> = EmittedSuccessor(ops: seq<MOp<R, L>>, counter: nat, succ: Successor<R, L>)

  /** `None` also where the renderer panics on an unknown successor block. */
  function EmitSuccessor<R, L(==)>(blocks: seq<Block<R, L>>, block: L, counter: nat, target: L)
    : Option<EmittedSuccessor<R, L>>
  {
    var b := Lookup(blocks, target);
    if b.None? then None
    else
      var args := EmitArgs(block, counter, PhiOps(b.value.ops));
      if args.None? then None
      else Some(EmittedSuccessor(args.value.ops, args.value.counter, Successor(target, args.value.args)))
  }

  datatype EmittedTerminator<R, L> = EmittedTerminator(ops: seq<MOp<R, L>>, term: MTerminator<R, L>)

  function EmitTerminator<R, L(==)>(blocks: seq<Block<R, L>>, block: L, counter: nat, t: Terminator<R, L>)
    : Option<EmittedTerminator<R, L>>
  {
    match t
    case RetVoid => Some(EmittedTerminator([], MRet))
    case Br(target) =>
      var s := EmitSuccessor(blocks, block, counter, target);
      if s.None? then None else Some(EmittedTerminator(s.value.ops, MBr(s.value.succ)))
    case CondBr(cond, thenLabel, elseLabel) =>
      var c := EnsureValue(block, counter, cond, I1);
      var a := EmitSuccessor(blocks, block, c.counter, thenLabel);
      if a.None? then None
      else
        var b := EmitSuccessor(blocks, block, a.value.counter, elseLabel);
        if b.None? then None
        else Some(EmittedTerminator(c.ops + a.value.ops + b.value.ops, MCondBr(c.value, a.value.succ, b.value.succ)))
  }

  function ParamsOf<R, L>(phis: seq<Op<R, L>>): (params: seq<Param<R, L>>)
    requires forall i :: 0 <= i < |phis| ==> phis[i].Phi?
    ensures |params| == |phis|
    ensures forall i :: 0 <= i < |phis| ==> params[i] == Param(Orig(phis[i].result), phis[i].ty)
  {
    seq(|phis|, i requires 0 <= i < |phis| => Param(Orig(phis[i].result), phis[i].ty))
  }

  /** The entry block is rendered without a header, so it has no parameters. */
  function LowerBlock<R, L(==)>(blocks: seq<Block<R, L>>, b: Block<R, L>, isEntry: bool): Option<MBlock<R, L>> {
    var body := EmitOps(b.name, b.ops);
    var t := EmitTerminator(blocks, b.name, body.counter, b.terminator);
    if t.None? then None
    else Some(MBlock(b.name, if isEntry then [] else ParamsOf(PhiOps(b.ops)), body.ops + t.value.ops, t.value.term))
  }

  /** The first `n` blocks, in order. */
  function LowerUpTo<R, L(==)>(blocks: seq<Block<R, L>>, n: nat): Option<seq<MBlock<R, L>>>
    requires n <= |blocks|
  {
    if n == 0 then Some([])
    else
      var before := LowerUpTo(blocks, n - 1);
      var b := LowerBlock(blocks, blocks[n - 1], n == 1);
      if before.None? || b.None? then None else Some(before.value + [b.value])
  }

  function LowerKernel<R, L(==)>(blocks: seq<Block<R, L>>): Option<seq<MBlock<R, L>>> {
    LowerUpTo(blocks, |blocks|)
  }
}
