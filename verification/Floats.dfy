/** Binary32 arithmetic as the kernels use it: an exact real operation followed by a rounding that
    this project keeps abstract. Signed zeros and overflow of finite operands are not modelled. */
module Floats {

  datatype F32 = Fin(r: real) | PosInf | NegInf | NaN

  const EXACT_INT_BOUND: int := 0x100_0000 // 2^24

  /** What an implementation chooses: the rounding of an exact result and its transcendental functions. */
  datatype FloatModel = FloatModel(round: real -> real, expReal: real -> real, sqrtReal: real -> real) {

    predicate MonotoneAt(x: real, y: real) { x <= y ==> round(x) <= round(y) }

    predicate ExactAt(n: int) { -EXACT_INT_BOUND <= n <= EXACT_INT_BOUND ==> round(n as real) == n as real }

    predicate ExpNonNegativeAt(x: real) { expReal(x) >= 0.0 }

    /** Rounding is monotone and exact on integers up to 2^24; exp is non-negative with exp(0) = 1. */
    ghost predicate Valid() {
      && (forall x, y :: MonotoneAt(x, y))
      && (forall n :: ExactAt(n))
      && (forall x :: ExpNonNegativeAt(x))
      && expReal(0.0) == 1.0
    }

    function FromInt(n: int): F32 {
      Fin(round(n as real))
    }

    function Add(a: F32, b: F32): F32 {
      match (a, b)
      case (NaN, _) => NaN
      case (_, NaN) => NaN
      case (Fin(x), Fin(y)) => Fin(round(x + y))
      case (Fin(_), _) => b
      case (_, Fin(_)) => a
      case _ => if a == b then a else NaN
    }

    function Negate(a: F32): F32 {
      match a
      case Fin(x) => Fin(-x)
      case PosInf => NegInf
      case NegInf => PosInf
      case NaN => NaN
    }

    function Sub(a: F32, b: F32): F32 {
      Add(a, Negate(b))
    }

    static function Sign(a: F32): int {
      match a
      case Fin(x) => if x > 0.0 then 1 else if x < 0.0 then -1 else 0
      case PosInf => 1
      case NegInf => -1
      case NaN => 0
    }

    static function Infinity(sign: int): F32 {
      if sign > 0 then PosInf else if sign < 0 then NegInf else NaN
    }

    function Mul(a: F32, b: F32): F32 {
      if a.NaN? || b.NaN? then NaN
      else if a.Fin? && b.Fin? then Fin(round(a.r * b.r))
      else Infinity(Sign(a) * Sign(b))
    }

    function Div(a: F32, b: F32): F32 {
      if a.NaN? || b.NaN? then NaN
      else if a.Fin? && b.Fin? then (if b.r != 0.0 then Fin(round(a.r / b.r)) else Infinity(Sign(a)))
      else if a.Fin? then Fin(0.0)
      else if b.Fin? then Infinity(if b.r < 0.0 then -Sign(a) else Sign(a))
      else NaN
    }

    function Exp(a: F32): F32 {
      match a
      case Fin(x) => Fin(round(expReal(x)))
      case PosInf => PosInf
      case NegInf => Fin(0.0)
      case NaN => NaN
    }

    function Sqrt(a: F32): F32 {
      match a
      case Fin(x) => if x < 0.0 then NaN else Fin(round(sqrtReal(x)))
      case PosInf => PosInf
      case NegInf => NaN
      case NaN => NaN
    }
  }

  /** Ordered "greater than": false as soon as one side is NaN. */
  predicate Gt(a: F32, b: F32) {
    match (a, b)
    case (NaN, _) => false
    case (_, NaN) => false
    case (Fin(x), Fin(y)) => x > y
    case (PosInf, _) => b != PosInf
    case (_, NegInf) => a != NegInf
    case _ => false
  }

  /** `f32::max`: a NaN operand loses. */
  function Max(a: F32, b: F32): F32 {
    if a.NaN? then b else if b.NaN? then a else if Gt(b, a) then b else a
  }

  /** Truncation toward zero. */
  function Trunc(x: real): int {
    if x >= 0.0 then x.Floor else -((-x).Floor)
  }

  /** Element `i` of a buffer; positions outside it are never read. */
  function At(xs: seq<F32>, i: nat): F32 { if i < |xs| then xs[i] else Fin(0.0) }
}
