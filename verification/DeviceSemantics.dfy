/** A small-step semantics of one thread of a device-IR kernel. Undefined or poison-producing steps
    (missing register, signed overflow under nsw, out-of-range access or conversion) trap. */
module DeviceSemantics {
  import opened Options
  import opened Floats
  import opened DeviceIr

  /** An i64 that holds a device address is the address itself: object and cell offset. */
  datatype Val = IntV(width: nat, bits: nat) | FloatV(x: Floats.F32) | AddrV(obj: nat, off: int)

  /** Buffers carry the access flags they were created with. */
  datatype Object = Object(cells: seq<Val>, readable: bool, writable: bool)
  type Memory = map<nat, Object>

  datatype Context = Context(fm: FloatModel, csr: map<nat, nat>)

  /** What one step does besides updating registers. `Mac` marks a data multiplication: an nsw
      integer multiply or a float multiply. */
  datatype Effect =
    | Silent
    | Mac
    | Loaded(obj: nat, off: int, ty: LlvmType)
    | Stored(obj: nat, off: int, v: Val)

  datatype Outcome<R> = Trap | Next(env: map<R, Val>, effect: Effect)

  function Width(ty: LlvmType): nat {
    match ty
    case I1 => 1
    case I8 => 8
    case I32 => 32
    case I64 => 64
    case _ => 0
  }

  function Modulus(width: nat): (m: nat)
    ensures m > 0
  {
    if width == 1 then 2
    else if width == 8 then 0x100
    else if width == 32 then 0x1_0000_0000
    else if width == 64 then 0x1_0000_0000_0000_0000
    else 1
  }

  predicate HasType(v: Val, ty: LlvmType) {
    match v
    case IntV(w, _) => w != 0 && w == Width(ty)
    case FloatV(_) => ty == LlvmType.F32
    case AddrV(_, _) => ty == Ptr || ty == I64
  }

  function SignedOf(width: nat, bits: nat): int {
    if bits < Modulus(width) / 2 then bits else bits - Modulus(width)
  }

  function FromSigned(width: nat, n: int): Val {
    IntV(width, n % Modulus(width))
  }

  predicate FitsSigned(width: nat, n: int) {
    -(Modulus(width) / 2) <= n < Modulus(width) / 2
  }

  function EvalLiteral(fm: FloatModel, lit: Literal, ty: LlvmType): Option<Val> {
    match lit
    case IntLit(n) => if Width(ty) != 0 then Some(FromSigned(Width(ty), n)) else None
    case FloatLit(x) => if ty == LlvmType.F32 then Some(FloatV(Fin(fm.round(x)))) else None
  }

  function Eval<R>(fm: FloatModel, env: map<R, Val>, o: Operand<R>, ty: LlvmType): Option<Val> {
    match o
    case Ref(r) => if r in env && HasType(env[r], ty) then Some(env[r]) else None
    case Lit(lit) => EvalLiteral(fm, lit, ty)
  }

  function BitAnd(a: nat, b: nat): nat {
    if a == 0 || b == 0 then 0 else 2 * BitAnd(a / 2, b / 2) + (a % 2) * (b % 2)
  }

  function BitOr(a: nat, b: nat): nat {
    if a == 0 then b else if b == 0 then a
    else 2 * BitOr(a / 2, b / 2) + (if a % 2 == 1 || b % 2 == 1 then 1 else 0)
  }

  /** Integer arithmetic wraps; under nsw a signed overflow has no result. */
  function IntBinary(op: BinaryOp, width: nat, a: nat, b: nat, overflow: Overflow): Option<Val> {
    var sa, sb := SignedOf(width, a), SignedOf(width, b);
    match op
    case Add =>
      if overflow.Nsw? && !FitsSigned(width, sa + sb) then None else Some(FromSigned(width, a + b))
    case Sub =>
      if overflow.Nsw? && !FitsSigned(width, sa - sb) then None else Some(FromSigned(width, a - b))
    case Mul =>
      if overflow.Nsw? && !FitsSigned(width, sa * sb) then None
      else if overflow.Nsw? then Some(FromSigned(width, sa * sb))
      else Some(FromSigned(width, a * b))
    case And => Some(FromSigned(width, BitAnd(a, b)))
    case Or => Some(FromSigned(width, BitOr(a, b)))
    case Udiv => if b == 0 then None else Some(FromSigned(width, a / b))
    case Urem => if b == 0 then None else Some(FromSigned(width, a % b))
  }

  function FloatBinaryValue(fm: FloatModel, op: FloatBinaryOp, a: Floats.F32, b: Floats.F32): Floats.F32 {
    match op
    case FAdd => fm.Add(a, b)
    case FSub => fm.Sub(a, b)
    case FMul => fm.Mul(a, b)
    case FDiv => fm.Div(a, b)
  }

  function BoolV(b: bool): Val {
    IntV(1, if b then 1 else 0)
  }

  function CastValue(fm: FloatModel, kind: CastKind, v: Val, toTy: LlvmType): Option<Val> {
    var w := Width(toTy);
    match (kind, v)
    case (Sext, IntV(from, b)) => if from < w then Some(FromSigned(w, SignedOf(from, b))) else None
    case (Zext, IntV(from, b)) => if from < w then Some(FromSigned(w, b)) else None
    case (Trunc, IntV(from, b)) => if 0 < w < from then Some(FromSigned(w, b)) else None
    case (Sitofp, IntV(from, b)) =>
      if toTy == LlvmType.F32 then Some(FloatV(fm.FromInt(SignedOf(from, b)))) else None
    case (Fptosi, FloatV(x)) =>
      if w != 0 && x.Fin? && FitsSigned(w, Floats.Trunc(x.r)) then Some(FromSigned(w, Floats.Trunc(x.r))) else None
    case _ => None
  }

  function Define<R>(env: map<R, Val>, result: R, v: Option<Val>, effect: Effect): Outcome<R> {
    if v.Some? then Next(env[result := v.value], effect) else Trap
  }

  function LoadCell(mem: Memory, a: Val, ty: LlvmType): Option<Val> {
    if a.AddrV? && a.obj in mem && mem[a.obj].readable && 0 <= a.off < |mem[a.obj].cells|
       && HasType(mem[a.obj].cells[a.off], ty)
    then Some(mem[a.obj].cells[a.off]) else None
  }

  predicate CanStore(mem: Memory, a: Val) {
    a.AddrV? && a.obj in mem && mem[a.obj].writable && 0 <= a.off < |mem[a.obj].cells|
  }

  /** The size in memory of an element an address operation steps over; structures are stepped over by field. */
  function ElementBytes(ty: LlvmType): nat {
    match ty
    case I1 => 1
    case I8 => 1
    case I32 => 4
    case F32 => 4
    case I64 => 8
    case Ptr => 8
    case Struct(_) => 0
  }

  /** Offsets into buffers are in bytes: an index moves by as many elements of the given type. */
  function GepValue(mem: Memory, base: Val, index: Val, elementTy: LlvmType, inbounds: bool): Option<Val> {
    if base.AddrV? && index.IntV? && base.obj in mem && ElementBytes(elementTy) != 0 then
      var off := base.off + ElementBytes(elementTy) * SignedOf(64, index.bits);
      if inbounds ==> 0 <= off <= |mem[base.obj].cells| then Some(AddrV(base.obj, off)) else None
    else None
  }

  /** `csrr` into a 64-bit register, then truncation to 32 bits (and the uniform marker, an identity). */
  function ExecCsr<R>(ctx: Context, env: map<R, Val>, raw64: R, raw32: R, result: R, csr: nat): Outcome<R> {
    if csr !in ctx.csr then Trap
    else
      var wide := FromSigned(64, ctx.csr[csr]);
      var narrow := FromSigned(32, wide.bits);
      Next(env[raw64 := wide][raw32 := narrow][result := narrow], Silent)
  }

  function ExecOp<R, L>(ctx: Context, mem: Memory, env: map<R, Val>, op: Op<R, L>): Outcome<R> {
    match op
    case StructFieldPtr(result, base, field) =>
      if base in env && env[base].AddrV? then
        Next(env[result := AddrV(env[base].obj, env[base].off + field)], Silent) else Trap
    case Load(result, ty, ptr) =>
      if ptr in env && env[ptr].AddrV? then
        Define(env, result, LoadCell(mem, env[ptr], ty), Loaded(env[ptr].obj, env[ptr].off, ty)) else Trap
    case Store(ty, value, ptr) =>
      var v := Eval(ctx.fm, env, value, ty);
      if v.Some? && ptr in env && CanStore(mem, env[ptr]) then
        Next(env, Stored(env[ptr].obj, env[ptr].off, v.value)) else Trap
    case IntToPtr(result, ty, value) =>
      var v := Eval(ctx.fm, env, value, ty);
      if v.Some? && v.value.AddrV? then Next(env[result := v.value], Silent) else Trap
    case CtaCsrI32(raw64, raw32, result, csr, uniform) =>
      ExecCsr(ctx, env, raw64, if uniform && raw32.Some? then raw32.value else result, result, csr.Encoded())
    case Binary(result, bop, ty, lhs, rhs, overflow) =>
      var a, b := Eval(ctx.fm, env, lhs, ty), Eval(ctx.fm, env, rhs, ty);
      if a.Some? && b.Some? && a.value.IntV? && b.value.IntV? then
        Define(env, result, IntBinary(bop, Width(ty), a.value.bits, b.value.bits, overflow),
               if bop.Mul? && overflow.Nsw? then Mac else Silent)
      else Trap
    case FloatBinary(result, fop, ty, lhs, rhs) =>
      var a, b := Eval(ctx.fm, env, lhs, ty), Eval(ctx.fm, env, rhs, ty);
      if a.Some? && b.Some? && a.value.FloatV? && b.value.FloatV? then
        Next(env[result := FloatV(FloatBinaryValue(ctx.fm, fop, a.value.x, b.value.x))],
             if fop.FMul? then Mac else Silent)
      else Trap
    case Icmp(result, pred, ty, lhs, rhs) =>
      var a, b := Eval(ctx.fm, env, lhs, ty), Eval(ctx.fm, env, rhs, ty);
      if a.Some? && b.Some? && a.value.IntV? && b.value.IntV? then
        Next(env[result := BoolV(if pred.Ult? then a.value.bits < b.value.bits else a.value.bits >= b.value.bits)],
             Silent)
      else Trap
    case Fcmp(result, pred, ty, lhs, rhs) =>
      var a, b := Eval(ctx.fm, env, lhs, ty), Eval(ctx.fm, env, rhs, ty);
      if a.Some? && b.Some? && a.value.FloatV? && b.value.FloatV? then
        Next(env[result := BoolV(if pred.Ogt? then Gt(a.value.x, b.value.x) else Gt(b.value.x, a.value.x))], Silent)
      else Trap
    case Select(result, cond, ty, trueValue, falseValue) =>
      var c := Eval(ctx.fm, env, cond, I1);
      var a, b := Eval(ctx.fm, env, trueValue, ty), Eval(ctx.fm, env, falseValue, ty);
      if c.Some? && c.value.IntV? && a.Some? && b.Some? then
        Next(env[result := if c.value.bits != 0 then a.value else b.value], Silent)
      else Trap
    case FloatExp(result, ty, value) =>
      var v := Eval(ctx.fm, env, value, ty);
      if v.Some? && v.value.FloatV? then Next(env[result := FloatV(ctx.fm.Exp(v.value.x))], Silent) else Trap
    case Phi(_, _, _) => Trap
    case Gep(result, elementTy, base, index, inbounds) =>
      var i := Eval(ctx.fm, env, index, I64);
      if base in env && i.Some? then Define(env, result, GepValue(mem, env[base], i.value, elementTy, inbounds), Silent) else Trap
    case Cast(result, kind, fromTy, value, toTy) =>
      var v := Eval(ctx.fm, env, value, fromTy);
      if v.Some? then Define(env, result, CastValue(ctx.fm, kind, v.value, toTy), Silent) else Trap
  }

  /** The first incoming value for an edge from `from`. */
  function IncomingFor<R, L(==)>(incoming: seq<PhiIncoming<R, L>>, from: L): Option<Operand<R>> {
    if incoming == [] then None
    else if incoming[0].pred == from then Some(incoming[0].value)
    else IncomingFor(incoming[1..], from)
  }

  /** All phis of a block read the registers as they were at the end of the predecessor. */
  function PhiBindings<R, L(==)>(fm: FloatModel, phis: seq<Op<R, L>>, from: L, env: map<R, Val>): Option<map<R, Val>>
    requires forall i :: 0 <= i < |phis| ==> phis[i].Phi?
  {
    if phis == [] then Some(map[])
    else
      var last := phis[|phis| - 1];
      var before := PhiBindings(fm, phis[..|phis| - 1], from, env);
      var o := IncomingFor(last.incoming, from);
      if before.None? || o.None? then None
      else
        var v := Eval(fm, env, o.value, last.ty);
        if v.None? then None else Some(before.value[last.result := v.value])
  }

  /** Either about to enter a block along an edge, or at an operation of a block (the terminator
      comes after the last operation), or finished. */
  datatype ThreadState<R, L> =
    | Entering(block: L, from: L, env: map<R, Val>)
    | At(block: L, pc: nat, env: map<R, Val>)
    | Done
    | Trapped

  datatype Kernel<R, L> = Kernel(blocks: seq<Block<R, L>>, ctx: Context)

  function EnterBlock<R, L(==)>(k: Kernel<R, L>, block: L, from: L, env: map<R, Val>): ThreadState<R, L> {
    var b := Lookup(k.blocks, block);
    if b.None? then Trapped
    else
      var phis := PhiBindings(k.ctx.fm, b.value.ops[..PhiCount(b.value.ops)], from, env);
      if phis.None? then Trapped else At(block, PhiCount(b.value.ops), env + phis.value)
  }

  /** The label a terminator jumps to; `None` when the condition has no value. */
  function Target<R, L>(fm: FloatModel, t: Terminator<R, L>, env: map<R, Val>): Option<L>
    requires !t.RetVoid?
  {
    match t
    case Br(l) => Some(l)
    case CondBr(cond, thenLabel, elseLabel) =>
      var c := Eval(fm, env, cond, I1);
      if c.Some? && c.value.IntV? then Some(if c.value.bits != 0 then thenLabel else elseLabel) else None
  }

  function Jump<R, L>(fm: FloatModel, b: Block<R, L>, env: map<R, Val>): ThreadState<R, L> {
    if b.terminator.RetVoid? then Done
    else
      var target := Target(fm, b.terminator, env);
      if target.None? then Trapped else Entering(target.value, b.name, env)
  }

  function Step<R, L(==)>(k: Kernel<R, L>, mem: Memory, s: ThreadState<R, L>): (ThreadState<R, L>, Effect) {
    match s
    case Done => (s, Silent)
    case Trapped => (s, Silent)
    case Entering(block, from, env) => (EnterBlock(k, block, from, env), Silent)
    case At(block, pc, env) =>
      var b := Lookup(k.blocks, block);
      if b.None? then (Trapped, Silent)
      else if pc < |b.value.ops| then
        match ExecOp(k.ctx, mem, env, b.value.ops[pc])
        case Trap => (Trapped, Silent)
        case Next(env', effect) => (At(block, pc + 1, env'), effect)
      else (Jump(k.ctx.fm, b.value, env), Silent)
  }

  /** What a thread has done so far: data multiplications, bytes loaded, and its stores in order. */
  datatype Write = Write(obj: nat, off: int, v: Val)
  datatype Log = Log(macs: nat, bytesRead: nat, stores: seq<Write>)
  const EMPTY_LOG := Log(0, 0, [])

  function Record(log: Log, e: Effect): Log {
    match e
    case Silent => log
    case Mac => log.(macs := log.macs + 1)
    case Loaded(_, _, ty) => if ty == I8 then log.(bytesRead := log.bytesRead + 1) else log
    case Stored(obj, off, v) => log.(stores := log.stores + [Write(obj, off, v)])
  }

  datatype Thread<R, L> = Thread(state: ThreadState<R, L>, log: Log)

  function Advance<R, L(==)>(k: Kernel<R, L>, mem: Memory, t: Thread<R, L>): Thread<R, L> {
    var (s, e) := Step(k, mem, t.state);
    Thread(s, Record(t.log, e))
  }

  function Iterate<R, L(==)>(k: Kernel<R, L>, mem: Memory, n: nat, t: Thread<R, L>): Thread<R, L> {
    if n == 0 then t else Iterate(k, mem, n - 1, Advance(k, mem, t))
  }

  ghost predicate Runs<R, L>(k: Kernel<R, L>, mem: Memory, a: Thread<R, L>, b: Thread<R, L>) {
    exists n: nat :: Iterate(k, mem, n, a) == b
  }

  lemma {:induction false} IterateAdd<R, L>(k: Kernel<R, L>, mem: Memory, m: nat, n: nat, t: Thread<R, L>)
    ensures Iterate(k, mem, m + n, t) == Iterate(k, mem, n, Iterate(k, mem, m, t))
  {
    if m > 0 {
      IterateAdd(k, mem, m - 1, n, Advance(k, mem, t));
    }
  }

  lemma RunsTrans<R, L>(k: Kernel<R, L>, mem: Memory, a: Thread<R, L>, b: Thread<R, L>, c: Thread<R, L>)
    requires Runs(k, mem, a, b) && Runs(k, mem, b, c)
    ensures Runs(k, mem, a, c)
  {
    var m: nat :| Iterate(k, mem, m, a) == b;
    var n: nat :| Iterate(k, mem, n, b) == c;
    IterateAdd(k, mem, m, n, a);
  }

  lemma RunsOne<R, L>(k: Kernel<R, L>, mem: Memory, a: Thread<R, L>)
    ensures Runs(k, mem, a, Advance(k, mem, a))
  {
    assert Iterate(k, mem, 1, a) == Iterate(k, mem, 0, Advance(k, mem, a));
  }
}
