/** A rendered kernel with its names written out: registers and labels as the device IR spells them,
    constants as the renderer spells them. Where names are kept apart, it runs as before. */
module MlirNaming {
  import opened Options
  import opened Floats
  import opened DeviceIr
  import opened DeviceSemantics
  import opened MlirForm
  import opened MlirText

  function SuffixOf(ty: LlvmType): TypeSuffix {
    match ty
    case I1 => SI1 case I8 => SI8 case I32 => SI32 case I64 => SI64
    case F32 => SF32 case Ptr => SPtr case Struct(_) => SStruct
  }

  /** How registers and labels are spelled. */
  datatype Naming<!R, !L> = Naming(regText: R -> string, labelText: L -> string) {
    function Name(n: MName<R, L>): string {
      match n
      case Orig(r) => regText(r)
      case Const(block, index, ty) => ValueName(labelText(block), index, SuffixOf(ty))
    }

    function Value(o: Operand<MName<R, L>>): Operand<string> {
      match o
      case Ref(n) => Ref(Name(n))
      case Lit(lit) => Lit(lit)
    }

    function Incoming(incoming: seq<PhiIncoming<MName<R, L>, L>>): seq<PhiIncoming<string, string>> {
      seq(|incoming|, i requires 0 <= i < |incoming| => PhiIncoming(Value(incoming[i].value), labelText(incoming[i].pred)))
    }

    function Plainly(op: Op<MName<R, L>, L>): Op<string, string> {
      match op
      case StructFieldPtr(result, base, field) => StructFieldPtr(Name(result), Name(base), field)
      case Load(result, ty, ptr) => Load(Name(result), ty, Name(ptr))
      case Store(ty, value, ptr) => Store(ty, Value(value), Name(ptr))
      case IntToPtr(result, ty, value) => IntToPtr(Name(result), ty, Value(value))
      case CtaCsrI32(raw64, raw32, result, csr, uniform) =>
        CtaCsrI32(Name(raw64), if raw32.Some? then Some(Name(raw32.value)) else None, Name(result), csr, uniform)
      case Binary(result, bop, ty, lhs, rhs, overflow) => Binary(Name(result), bop, ty, Value(lhs), Value(rhs), overflow)
      case FloatBinary(result, fop, ty, lhs, rhs) => FloatBinary(Name(result), fop, ty, Value(lhs), Value(rhs))
      case Icmp(result, pred, ty, lhs, rhs) => Icmp(Name(result), pred, ty, Value(lhs), Value(rhs))
      case Fcmp(result, pred, ty, lhs, rhs) => Fcmp(Name(result), pred, ty, Value(lhs), Value(rhs))
      case Select(result, cond, ty, a, b) => Select(Name(result), Value(cond), ty, Value(a), Value(b))
      case FloatExp(result, ty, value) => FloatExp(Name(result), ty, Value(value))
      case Phi(result, ty, incoming) => Phi(Name(result), ty, Incoming(incoming))
      case Gep(result, elementTy, base, index, inbounds) => Gep(Name(result), elementTy, Name(base), Value(index), inbounds)
      case Cast(result, kind, fromTy, value, toTy) => Cast(Name(result), kind, fromTy, Value(value), toTy)
    }

    function Write(op: MOp<R, L>): MlirOp<string, string> {
      match op
      case Constant(name, lit, ty) => Constant(Name(name), lit, ty)
      case CsrRead(result, csr) => CsrRead(Name(result), Value(csr))
      case UniformCall(result, arg) => UniformCall(Name(result), Name(arg))
      case Plain(p) => Plain(Plainly(p))
    }

    function Args(args: seq<MlirArg<MName<R, L>>>): (r: seq<MlirArg<string>>)
      ensures |r| == |args| && forall i :: 0 <= i < |args| ==> r[i] == Passed(Value(args[i].value), args[i].ty)
    {
      seq(|args|, i requires 0 <= i < |args| => Passed(Value(args[i].value), args[i].ty))
    }

    function Params(params: seq<MlirParam<MName<R, L>>>): (r: seq<MlirParam<string>>)
      ensures |r| == |params| && forall i :: 0 <= i < |params| ==> r[i] == Param(Name(params[i].name), params[i].ty)
    {
      seq(|params|, i requires 0 <= i < |params| => Param(Name(params[i].name), params[i].ty))
    }

    function Succ(s: MlirSuccessor<MName<R, L>, L>): MlirSuccessor<string, string> {
      Successor(labelText(s.target), Args(s.args))
    }

    function Leave(t: MTerminator<R, L>): MlirTerminator<string, string> {
      match t
      case MBr(s) => MBr(Succ(s))
      case MCondBr(cond, a, b) => MCondBr(Value(cond), Succ(a), Succ(b))
      case MRet => MRet
    }

    function Ops(ops: seq<MOp<R, L>>): (r: seq<MlirOp<string, string>>)
      ensures |r| == |ops| && forall i :: 0 <= i < |ops| ==> r[i] == Write(ops[i])
    {
      seq(|ops|, i requires 0 <= i < |ops| => Write(ops[i]))
    }

    function WriteBlock(b: MBlock<R, L>): MlirBlock<string, string> {
      MBlock(labelText(b.name), Params(b.params), Ops(b.ops), Leave(b.terminator))
    }

    function Module(blocks: seq<MBlock<R, L>>): (r: seq<MlirBlock<string, string>>)
      ensures |r| == |blocks| && forall i :: 0 <= i < |blocks| ==> r[i] == WriteBlock(blocks[i])
    {
      seq(|blocks|, i requires 0 <= i < |blocks| => WriteBlock(blocks[i]))
    }
  }

  // ----- environments -----

  /** Names in scope are spelled differently. */
  ghost predicate Apart<R(!new), L(!new)>(nm: Naming<R, L>, scope: set<MName<R, L>>) {
    forall a, b :: a in scope && b in scope && nm.Name(a) == nm.Name(b) ==> a == b
  }

  /** The same names, all in scope, with the same values. */
  ghost predicate SameEnv<R(!new), L(!new)>(nm: Naming<R, L>, scope: set<MName<R, L>>, env: map<MName<R, L>, Val>, t: map<string, Val>) {
    && env.Keys <= scope
    && (forall n :: n in env ==> nm.Name(n) in t && t[nm.Name(n)] == env[n])
    && (forall s :: s in t ==> exists n :: n in env && nm.Name(n) == s)
  }

  lemma EvalSame<R(!new), L(!new)>(nm: Naming<R, L>, scope: set<MName<R, L>>, fm: FloatModel, env: map<MName<R, L>, Val>,
                                   t: map<string, Val>, o: Operand<MName<R, L>>, ty: LlvmType)
    requires SameEnv(nm, scope, env, t) && Eval(fm, env, o, ty).Some?
    ensures Eval(fm, t, nm.Value(o), ty) == Eval(fm, env, o, ty)
  {
  }

  lemma BindSame<R(!new), L(!new)>(nm: Naming<R, L>, scope: set<MName<R, L>>, env: map<MName<R, L>, Val>,
                                   t: map<string, Val>, n: MName<R, L>, v: Val)
    requires SameEnv(nm, scope, env, t) && Apart(nm, scope) && n in scope
    ensures SameEnv(nm, scope, env[n := v], t[nm.Name(n) := v])
  {
    var e, u := env[n := v], t[nm.Name(n) := v];
    forall s | s in u ensures exists m :: m in e && nm.Name(m) == s {
      if s == nm.Name(n) {
        assert n in e;
      } else {
        var m :| m in env && nm.Name(m) == s;
        assert m in e;
      }
    }
  }

  lemma UnionSame<R(!new), L(!new)>(nm: Naming<R, L>, scope: set<MName<R, L>>, a: map<MName<R, L>, Val>, b: map<MName<R, L>, Val>,
                                    t: map<string, Val>, u: map<string, Val>)
    requires SameEnv(nm, scope, a, t) && SameEnv(nm, scope, b, u) && Apart(nm, scope)
    ensures SameEnv(nm, scope, a + b, t + u)
  {
    forall n | n in a + b ensures nm.Name(n) in t + u && (t + u)[nm.Name(n)] == (a + b)[n] {
      if n in b {
        assert nm.Name(n) in u;
      } else {
        assert n in a;
      }
    }
    forall s | s in t + u ensures exists n :: n in a + b && nm.Name(n) == s {
      if s in u {
        var n :| n in b && nm.Name(n) == s;
        assert n in a + b;
      } else {
        var n :| n in a && nm.Name(n) == s;
        assert n in a + b;
      }
    }
  }

  // ----- operations -----

  /** The written operation does the same, and what it defines is in scope. */
  ghost predicate Follows<R(!new), L(!new)>(nm: Naming<R, L>, scope: set<MName<R, L>>, a: Outcome<MName<R, L>>, b: Outcome<string>) {
    a.Next? ==> b.Next? && b.effect == a.effect && SameEnv(nm, scope, a.env, b.env)
  }

  ghost predicate InScope<R(!new), L(!new)>(scope: set<MName<R, L>>, names: seq<MName<R, L>>) {
    forall i :: 0 <= i < |names| ==> names[i] in scope
  }

  lemma DefineSame<R(!new), L(!new)>(nm: Naming<R, L>, scope: set<MName<R, L>>, env: map<MName<R, L>, Val>, t: map<string, Val>,
                                     result: MName<R, L>, v: Option<Val>, e: Effect)
    requires SameEnv(nm, scope, env, t) && Apart(nm, scope) && result in scope
    ensures Follows(nm, scope, Define(env, result, v, e), Define(t, nm.Name(result), v, e))
  {
    hide SameEnv, Apart, Naming.Name;
    if v.Some? {
      BindSame(nm, scope, env, t, result, v.value);
    }
  }

  /** A register read by name. */
  lemma ReadSame<R(!new), L(!new)>(nm: Naming<R, L>, scope: set<MName<R, L>>, env: map<MName<R, L>, Val>, t: map<string, Val>, n: MName<R, L>)
    requires SameEnv(nm, scope, env, t)
    ensures n in env ==> nm.Name(n) in t && t[nm.Name(n)] == env[n]
  {
  }

  /** Both operands have values. */
  predicate BothEval<N>(fm: FloatModel, env: map<N, Val>, a: Operand<N>, b: Operand<N>, ty: LlvmType) {
    Eval(fm, env, a, ty).Some? && Eval(fm, env, b, ty).Some?
  }

  lemma PairSame<R(!new), L(!new)>(nm: Naming<R, L>, scope: set<MName<R, L>>, fm: FloatModel, env: map<MName<R, L>, Val>,
                                   t: map<string, Val>, a: Operand<MName<R, L>>, b: Operand<MName<R, L>>, ty: LlvmType)
    requires SameEnv(nm, scope, env, t)
    ensures BothEval(fm, env, a, b, ty) ==>
              Eval(fm, t, nm.Value(a), ty) == Eval(fm, env, a, ty) && Eval(fm, t, nm.Value(b), ty) == Eval(fm, env, b, ty)
  {
    hide SameEnv, Eval, Naming.Value;
    if BothEval(fm, env, a, b, ty) {
      EvalSame(nm, scope, fm, env, t, a, ty);
      EvalSame(nm, scope, fm, env, t, b, ty);
    }
  }

  lemma ResultInScope<R(!new), L(!new)>(scope: set<MName<R, L>>, op: Op<MName<R, L>, L>)
    requires InScope(scope, Defs(op)) && !op.Store? && !op.CtaCsrI32?
    ensures op.result in scope
  {
    assert Defs(op)[0] in scope;
  }

  lemma MemorySame<R(!new), L(!new)>(nm: Naming<R, L>, scope: set<MName<R, L>>, ctx: Context, mem: Memory, env: map<MName<R, L>, Val>,
                                     t: map<string, Val>, op: Op<MName<R, L>, L>)
    requires SameEnv(nm, scope, env, t) && Apart(nm, scope) && InScope(scope, Defs(op))
    requires op.StructFieldPtr? || op.Load? || op.Store? || op.Gep?
    ensures Follows(nm, scope, ExecOp(ctx, mem, env, op), ExecOp(ctx, mem, t, nm.Plainly(op)))
  {
    hide SameEnv, Apart, Eval, Naming.Name, Naming.Value, LoadCell, CanStore, GepValue, InScope;
    if !op.Store? {
      ResultInScope(scope, op);
    }
    match op
    case StructFieldPtr(result, base, field) =>
      ReadSame(nm, scope, env, t, base);
      if base in env && env[base].AddrV? {
        DefineSame(nm, scope, env, t, result, Some(AddrV(env[base].obj, env[base].off + field)), Silent);
      }
    case Load(result, ty, ptr) =>
      ReadSame(nm, scope, env, t, ptr);
      if ptr in env && env[ptr].AddrV? {
        DefineSame(nm, scope, env, t, result, LoadCell(mem, env[ptr], ty), Loaded(env[ptr].obj, env[ptr].off, ty));
      }
    case Store(ty, value, ptr) =>
      ReadSame(nm, scope, env, t, ptr);
      PairSame(nm, scope, ctx.fm, env, t, value, value, ty);
    case Gep(result, elementTy, base, index, inbounds) =>
      ReadSame(nm, scope, env, t, base);
      PairSame(nm, scope, ctx.fm, env, t, index, index, I64);
      var i := Eval(ctx.fm, env, index, I64);
      if base in env && i.Some? {
        DefineSame(nm, scope, env, t, result, GepValue(mem, env[base], i.value, elementTy, inbounds), Silent);
      }
  }

  lemma UnarySame<R(!new), L(!new)>(nm: Naming<R, L>, scope: set<MName<R, L>>, ctx: Context, mem: Memory, env: map<MName<R, L>, Val>,
                                    t: map<string, Val>, op: Op<MName<R, L>, L>)
    requires SameEnv(nm, scope, env, t) && Apart(nm, scope) && InScope(scope, Defs(op))
    requires op.IntToPtr? || op.FloatExp? || op.Cast?
    ensures Follows(nm, scope, ExecOp(ctx, mem, env, op), ExecOp(ctx, mem, t, nm.Plainly(op)))
  {
    hide SameEnv, Apart, Eval, Naming.Name, Naming.Value, CastValue;
    ResultInScope(scope, op);
    var ty := if op.Cast? then op.fromTy else op.ty;
    PairSame(nm, scope, ctx.fm, env, t, op.value, op.value, ty);
    var v := Eval(ctx.fm, env, op.value, ty);
    if v.Some? {
      var w := if op.Cast? then CastValue(ctx.fm, op.kind, v.value, op.toTy)
               else if op.IntToPtr? then v
               else if v.value.FloatV? then Some(FloatV(ctx.fm.Exp(v.value.x))) else None;
      DefineSame(nm, scope, env, t, op.result, w, Silent);
    }
  }

  lemma BinarySame<R(!new), L(!new)>(nm: Naming<R, L>, scope: set<MName<R, L>>, ctx: Context, mem: Memory, env: map<MName<R, L>, Val>,
                                     t: map<string, Val>, op: Op<MName<R, L>, L>)
    requires SameEnv(nm, scope, env, t) && Apart(nm, scope) && InScope(scope, Defs(op))
    requires op.Binary? || op.FloatBinary? || op.Icmp? || op.Fcmp?
    ensures Follows(nm, scope, ExecOp(ctx, mem, env, op), ExecOp(ctx, mem, t, nm.Plainly(op)))
  {
    hide SameEnv, Apart, Eval, Naming.Name, Naming.Value, IntBinary, FloatBinaryValue, BoolV, Gt;
    ResultInScope(scope, op);
    PairSame(nm, scope, ctx.fm, env, t, op.lhs, op.rhs, op.ty);
    var out := ExecOp(ctx, mem, env, op);
    if out.Next? {
      DefineSame(nm, scope, env, t, op.result, Some(out.env[op.result]), out.effect);
    }
  }

  lemma SelectSame<R(!new), L(!new)>(nm: Naming<R, L>, scope: set<MName<R, L>>, ctx: Context, mem: Memory, env: map<MName<R, L>, Val>,
                                     t: map<string, Val>, op: Op<MName<R, L>, L>)
    requires SameEnv(nm, scope, env, t) && Apart(nm, scope) && InScope(scope, Defs(op)) && op.Select?
    ensures Follows(nm, scope, ExecOp(ctx, mem, env, op), ExecOp(ctx, mem, t, nm.Plainly(op)))
  {
    hide SameEnv, Apart, Eval, Naming.Name, Naming.Value;
    ResultInScope(scope, op);
    PairSame(nm, scope, ctx.fm, env, t, op.cond, op.cond, I1);
    PairSame(nm, scope, ctx.fm, env, t, op.trueValue, op.falseValue, op.ty);
    var out := ExecOp(ctx, mem, env, op);
    if out.Next? {
      DefineSame(nm, scope, env, t, op.result, Some(out.env[op.result]), Silent);
    }
  }

  lemma CsrSame<R(!new), L(!new)>(nm: Naming<R, L>, scope: set<MName<R, L>>, ctx: Context, mem: Memory, env: map<MName<R, L>, Val>,
                                  t: map<string, Val>, op: Op<MName<R, L>, L>)
    requires SameEnv(nm, scope, env, t) && Apart(nm, scope) && InScope(scope, Defs(op)) && op.CtaCsrI32?
    ensures Follows(nm, scope, ExecOp(ctx, mem, env, op), ExecOp(ctx, mem, t, nm.Plainly(op)))
  {
    hide SameEnv, Apart, Naming.Name;
    var raw32 := if op.uniform && op.raw32.Some? then op.raw32.value else op.result;
    assert op.raw64 in scope && raw32 in scope && op.result in scope by { CsrDefs(scope, op); }
    var csr := op.csr.Encoded();
    if csr in ctx.csr {
      var wide := FromSigned(64, ctx.csr[csr]);
      var narrow := FromSigned(32, wide.bits);
      BindSame(nm, scope, env, t, op.raw64, wide);
      BindSame(nm, scope, env[op.raw64 := wide], t[nm.Name(op.raw64) := wide], raw32, narrow);
      BindSame(nm, scope, env[op.raw64 := wide][raw32 := narrow],
               t[nm.Name(op.raw64) := wide][nm.Name(raw32) := narrow], op.result, narrow);
    }
  }

  lemma CsrDefs<R(!new), L(!new)>(scope: set<MName<R, L>>, op: Op<MName<R, L>, L>)
    requires op.CtaCsrI32? && InScope(scope, Defs(op))
    ensures op.raw64 in scope && op.result in scope && (op.uniform && op.raw32.Some? ==> op.raw32.value in scope)
  {
    var d := Defs(op);
    assert d[0] in scope && d[|d| - 1] in scope && d[1] in scope;
  }

  lemma PlainSame<R(!new), L(!new)>(nm: Naming<R, L>, scope: set<MName<R, L>>, ctx: Context, mem: Memory, env: map<MName<R, L>, Val>,
                                    t: map<string, Val>, op: Op<MName<R, L>, L>)
    requires SameEnv(nm, scope, env, t) && Apart(nm, scope) && InScope(scope, Defs(op))
    ensures Follows(nm, scope, ExecOp(ctx, mem, env, op), ExecOp(ctx, mem, t, nm.Plainly(op)))
  {
    hide SameEnv, Apart, InScope, Defs, ExecOp, Naming.Plainly;
    match op
    case StructFieldPtr(_, _, _) => MemorySame(nm, scope, ctx, mem, env, t, op);
    case Load(_, _, _) => MemorySame(nm, scope, ctx, mem, env, t, op);
    case Store(_, _, _) => MemorySame(nm, scope, ctx, mem, env, t, op);
    case Gep(_, _, _, _, _) => MemorySame(nm, scope, ctx, mem, env, t, op);
    case IntToPtr(_, _, _) => UnarySame(nm, scope, ctx, mem, env, t, op);
    case FloatExp(_, _, _) => UnarySame(nm, scope, ctx, mem, env, t, op);
    case Cast(_, _, _, _, _) => UnarySame(nm, scope, ctx, mem, env, t, op);
    case Binary(_, _, _, _, _, _) => BinarySame(nm, scope, ctx, mem, env, t, op);
    case FloatBinary(_, _, _, _, _) => BinarySame(nm, scope, ctx, mem, env, t, op);
    case Icmp(_, _, _, _, _) => BinarySame(nm, scope, ctx, mem, env, t, op);
    case Fcmp(_, _, _, _, _) => BinarySame(nm, scope, ctx, mem, env, t, op);
    case Select(_, _, _, _, _) => SelectSame(nm, scope, ctx, mem, env, t, op);
    case CtaCsrI32(_, _, _, _, _) => CsrSame(nm, scope, ctx, mem, env, t, op);
    case Phi(_, _, _) => PhiNoStep(ctx, mem, env, op);
  }

  lemma PhiNoStep<R, L>(ctx: Context, mem: Memory, env: map<MName<R, L>, Val>, op: Op<MName<R, L>, L>)
    requires op.Phi?
    ensures ExecOp(ctx, mem, env, op).Trap?
  {
  }
}
