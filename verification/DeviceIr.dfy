/** The phi-form device IR (crates/vortex-codegen/src/codegen/device_ir.rs), generic in the types
    of register names and block labels. */
module DeviceIr {
  import opened Options

  datatype LlvmType = I1 | I8 | I32 | I64 | F32 | Ptr | Struct(name: string)

  /** An operand is a register or a literal; the source keeps both as text and tells them apart by parsing. */
  datatype Literal = IntLit(n: int) | FloatLit(x: real)
  datatype Operand<R> = Ref(name: R) | Lit(lit: Literal)

  datatype BinaryOp = Add | Sub | Mul | And | Or | Udiv | Urem
  datatype FloatBinaryOp = FAdd | FSub | FMul | FDiv
  datatype Overflow = Wrap | Nsw
  datatype IcmpPredicate = Ult | Uge
  datatype FcmpPredicate = Ogt | Olt
  datatype CastKind = Sext | Zext | Trunc | Sitofp | Fptosi
  datatype PhiIncoming<R, L> = PhiIncoming(value: Operand<R>, pred: L)

  datatype Axis = X | Y | Z
  datatype CtaCsr = ThreadId(axis: Axis) | BlockId(axis: Axis) | BlockDim(axis: Axis) {
    function Encoded(): nat {
      (match this case ThreadId(_) => 0xCD3 case BlockId(_) => 0xCD6 case BlockDim(_) => 0xCD9)
      + (match axis case X => 0 case Y => 1 case Z => 2)
    }
  }

  datatype Op<R, L> =
    | StructFieldPtr(result: R, base: R, field: nat)
    | Load(result: R, ty: LlvmType, ptr: R)
    | Store(ty: LlvmType, value: Operand<R>, ptr: R)
    | IntToPtr(result: R, ty: LlvmType, value: Operand<R>)
    | CtaCsrI32(raw64: R, raw32: Option<R>, result: R, csr: CtaCsr, uniform: bool)
    | Binary(result: R, op: BinaryOp, ty: LlvmType, lhs: Operand<R>, rhs: Operand<R>, overflow: Overflow)
    | FloatBinary(result: R, fop: FloatBinaryOp, ty: LlvmType, lhs: Operand<R>, rhs: Operand<R>)
    | Icmp(result: R, ipred: IcmpPredicate, ty: LlvmType, lhs: Operand<R>, rhs: Operand<R>)
    | Fcmp(result: R, fpred: FcmpPredicate, ty: LlvmType, lhs: Operand<R>, rhs: Operand<R>)
    | Select(result: R, cond: Operand<R>, ty: LlvmType, trueValue: Operand<R>, falseValue: Operand<R>)
    | FloatExp(result: R, ty: LlvmType, value: Operand<R>)
    | Phi(result: R, ty: LlvmType, incoming: seq<PhiIncoming<R, L>>)
    | Gep(result: R, elementTy: LlvmType, base: R, index: Operand<R>, inbounds: bool)
    | Cast(result: R, kind: CastKind, fromTy: LlvmType, value: Operand<R>, toTy: LlvmType)

  datatype Terminator<R, L> =
    | Br(target: L)
    | CondBr(cond: Operand<R>, thenLabel: L, elseLabel: L)
    | RetVoid

  datatype Block<R, L> = Block(name: L, ops: seq<Op<R, L>>, terminator: Terminator<R, L>)

  /** The first block with that label, as every consumer of the block list looks it up. */
  function Lookup<R, L(==)>(blocks: seq<Block<R, L>>, name: L): (r: Option<Block<R, L>>)
    ensures r.Some? ==> r.value in blocks && r.value.name == name
    ensures r.None? ==> forall b :: b in blocks ==> b.name != name
  {
    if blocks == [] then None
    else if blocks[0].name == name then Some(blocks[0])
    else Lookup(blocks[1..], name)
  }

  /** The registers an operation defines, in the order in which its rendering defines them. */
  function Defs<R, L>(op: Op<R, L>): seq<R> {
    match op
    case Store(_, _, _) => []
    case CtaCsrI32(raw64, raw32, result, _, uniform) =>
      if uniform then [raw64, if raw32.Some? then raw32.value else result, result] else [raw64, result]
    case _ => [op.result]
  }

  function DefsOf<R, L>(ops: seq<Op<R, L>>): seq<R> {
    if ops == [] then [] else DefsOf(ops[..|ops| - 1]) + Defs(ops[|ops| - 1])
  }

  /** Every definition of a kernel, block after block. */
  function Definitions<R, L>(blocks: seq<Block<R, L>>): seq<R> {
    if blocks == [] then [] else Definitions(blocks[..|blocks| - 1]) + DefsOf(blocks[|blocks| - 1].ops)
  }

  ghost predicate Distinct<T>(xs: seq<T>) { forall i, j :: 0 <= i < j < |xs| ==> xs[i] != xs[j] }

  /** Number of leading phis. */
  function PhiCount<R, L>(ops: seq<Op<R, L>>): (n: nat)
    ensures n <= |ops|
    ensures forall i :: 0 <= i < n ==> ops[i].Phi?
    ensures n < |ops| ==> !ops[n].Phi?
  {
    if ops != [] && ops[0].Phi? then 1 + PhiCount(ops[1..]) else 0
  }

  /** The growing block of the builders. */
  class VortexBlock<R, L> {
    const name: L
    var ops: seq<Op<R, L>>
    const terminator: Terminator<R, L>

    constructor (name: L, terminator: Terminator<R, L>)
      ensures this.name == name && this.terminator == terminator && ops == []
    {
      this.name := name;
      this.terminator := terminator;
      ops := [];
    }

    method PushOp(op: Op<R, L>)
      modifies this
      ensures ops == old(ops) + [op]
    {
      ops := ops + [op];
    }

    /** The finished block, as it is moved into a kernel. */
    function Value(): Block<R, L>
      reads this
    {
      Block(name, ops, terminator)
    }
  }

  /** A kernel owns the blocks pushed into it, in order. */
  class VortexKernelFunction<R, L> {
    var blocks: seq<Block<R, L>>

    constructor ()
      ensures blocks == []
    {
      blocks := [];
    }

    method PushBlock(block: Block<R, L>)
      modifies this
      ensures blocks == old(blocks) + [block]
    {
      blocks := blocks + [block];
    }
  }
}
