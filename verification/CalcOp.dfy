/** The CALC instruction set: operators, functions, their precedence and arity,
    and the numbers they work on. */
module CalcOp {

  /** A double, up to rounding and the sign of zero. Comparisons follow section 5.11
      of IEEE 754-2008: every ordered comparison with a NaN is false. */
  datatype Num = NaN | NegInf | Fin(r: real) | PosInf

  const ZERO := Fin(0.0)
  const ONE := Fin(1.0)

  predicate Less(a: Num, b: Num) {
    match a
    case NaN => false
    case NegInf => b.Fin? || b.PosInf?
    case Fin(x) => b.PosInf? || (b.Fin? && x < b.r)
    case PosInf => false
  }

  predicate Same(a: Num, b: Num) {
    !a.NaN? && a == b
  }

  predicate IsZero(a: Num) {
    a == ZERO
  }

  function FromBool(b: bool): (r: Num)
    ensures IsZero(r) <==> !b
  {
    if b then ONE else ZERO
  }

  datatype Prefix = Neg | NotL | NotB

  datatype Infix =
    | Add | Sub | Mul | Div | Modulo | Pow
    | Gt | Ge | Lt | Le | Eq | Ne | AndL | OrL
    | AndB | OrB | XorB | Shl | Shr | ShrLogic

  datatype Unary =
    | Abs | Sqrt | Exp | Log10 | Ln | Ceil | Floor | Nint
    | Sin | Cos | Tan | Asin | Acos | Atan | Sinh | Cosh | Tanh | IsInf

  datatype Binary = Atan2 | Fmod

  datatype Variadic = Min | Max | IsNan | Finite

  /** What a function name stands for before its argument count is known. */
  datatype Fn = Fn1(u: Unary) | Fn2(b: Binary) | FnN(v: Variadic)

  datatype Op =
    | Arg(slot: nat)
    | Lit(v: Num)
    | Rndm
    | Pre(p: Prefix)
    | Inf(i: Infix)
    | Call1(u: Unary)
    | Call2(b: Binary)
    | CallN(f: Variadic, n: nat)
    | CondIf(elseTarget: nat)
    | CondElse(endTarget: nat)
    | CondEnd
    | Store(slot: nat)

  /** Operands A-U. */
  const SLOTS: nat := 21

  function InfixPrec(i: Infix): (p: nat)
    ensures 1 <= p <= 6
  {
    match i
    case OrL | OrB | XorB => 1
    case AndL | AndB | Shl | Shr | ShrLogic => 2
    case Gt | Ge | Lt | Le | Eq | Ne => 3
    case Add | Sub => 4
    case Mul | Div | Modulo => 5
    case Pow => 6
  }

  const PREFIX_PREC: nat := 7

  /** Binding power of an operator as it sits on the operator stack. */
  function Prec(op: Op): nat {
    match op
    case Inf(i) => InfixPrec(i)
    case Pre(_) => PREFIX_PREC
    case Call1(_) | Call2(_) | CallN(_, _) => 13
    case _ => 0
  }

  /** How many values an operation pops. */
  function Arity(op: Op): nat {
    match op
    case Arg(_) | Lit(_) | Rndm => 0
    case Pre(_) | Call1(_) => 1
    case Inf(_) | Call2(_) => 2
    case CallN(_, n) => n
    case CondIf(_) | Store(_) => 1
    case CondElse(_) | CondEnd => 0
  }

  /** The operations that pop their operands and push one result. */
  predicate IsOperator(op: Op) {
    op.Pre? || op.Inf? || op.Call1? || op.Call2? || op.CallN?
  }

  predicate IsCond(op: Op) {
    op.CondIf? || op.CondElse? || op.CondEnd?
  }
}
