/** What rendering leaves as it is: the kind of every operation, its types, predicates, flags and fields.
    Its operands are the business of the simulation. */
module MlirOutline {
  import opened Options
  import opened DeviceIr
  import opened MlirForm
  import opened MlirNaming

  const BLANK: Operand<()> := Ref(())

  /** An operation without its names and operands. */
  function Outline<N, L>(op: Op<N, L>): Op<(), ()> {
    match op
    case StructFieldPtr(_, _, field) => StructFieldPtr((), (), field)
    case Load(_, ty, _) => Load((), ty, ())
    case Store(ty, _, _) => Store(ty, BLANK, ())
    case IntToPtr(_, ty, _) => IntToPtr((), ty, BLANK)
    case CtaCsrI32(_, raw32, _, csr, uniform) => CtaCsrI32((), if raw32.Some? then Some(()) else None, (), csr, uniform)
    case Binary(_, bop, ty, _, _, overflow) => Binary((), bop, ty, BLANK, BLANK, overflow)
    case FloatBinary(_, fop, ty, _, _) => FloatBinary((), fop, ty, BLANK, BLANK)
    case Icmp(_, pred, ty, _, _) => Icmp((), pred, ty, BLANK, BLANK)
    case Fcmp(_, pred, ty, _, _) => Fcmp((), pred, ty, BLANK, BLANK)
    case Select(_, _, ty, _, _) => Select((), BLANK, ty, BLANK, BLANK)
    case FloatExp(_, ty, _) => FloatExp((), ty, BLANK)
    case Phi(_, ty, incoming) => Phi((), ty, seq(|incoming|, _ => PhiIncoming(BLANK, ())))
    case Gep(_, elementTy, _, _, inbounds) => Gep((), elementTy, (), BLANK, inbounds)
    case Cast(_, kind, fromTy, _, toTy) => Cast((), kind, fromTy, BLANK, toTy)
  }

  /** Rendered, every operation but a coordinate read ends in itself: no type, predicate or flag is changed, so
      neither an overflow flag nor an element type is lost. A coordinate read ends in the uniform call exactly
      when it is uniform. */
  lemma RenderedOutline<R, L>(block: L, counter: nat, op: Op<R, L>)
    requires !op.Phi?
    ensures var last := EmitOp(block, counter, op).last;
            if op.CtaCsrI32? then
              (op.uniform <==> last.UniformCall?)
              && (!op.uniform ==> last.Plain? && Outline(last.op) == Cast((), Trunc, I64, BLANK, I32))
            else last.Plain? && Outline(last.op) == Outline(op)
  {
    hide EnsureValue;
  }

  /** Writing names out changes nothing else. */
  lemma WrittenOutline<R, L>(nm: Naming<R, L>, op: MOp<R, L>)
    ensures var w := nm.Write(op);
            && (op.Plain? <==> w.Plain?) && (op.Constant? <==> w.Constant?) && (op.CsrRead? <==> w.CsrRead?)
            && (op.Plain? ==> Outline(w.op) == Outline(op.op))
            && (op.Constant? ==> w.lit == op.lit && w.cty == op.cty)
  {
    hide Naming.Name, Naming.Value;
  }
}
