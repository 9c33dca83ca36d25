/** The instruction-pointer machine that runs a compiled CALC expression. */
module CalcMachine {
  import opened CalcOp
  import opened Options

  /** The numeric operations left uninterpreted (arithmetic, bitwise and
      transcendental), and the stream of random draws. Every theorem holds for all of them. */
  datatype Env = Env(
    prefix: (Prefix, Num) -> Num,
    infix: (Infix, Num, Num) -> Num,
    unary: (Unary, Num) -> Num,
    atan2: (Num, Num) -> Num,
    fmod: (Num, Num) -> Num,
    draw: nat -> Num)

  function ApplyPrefix(env: Env, p: Prefix, a: Num): Num {
    match p
    case NotL => FromBool(IsZero(a))
    case _ => env.prefix(p, a)
  }

  function ApplyInfix(env: Env, i: Infix, a: Num, b: Num): Num {
    match i
    case Gt => FromBool(Less(b, a))
    case Ge => FromBool(Less(b, a) || Same(a, b))
    case Lt => FromBool(Less(a, b))
    case Le => FromBool(Less(a, b) || Same(a, b))
    case Eq => FromBool(Same(a, b))
    case Ne => FromBool(!Same(a, b))
    case AndL => FromBool(!IsZero(a) && !IsZero(b))
    case OrL => FromBool(!IsZero(a) || !IsZero(b))
    case _ => env.infix(i, a, b)
  }

  function ApplyUnary(env: Env, u: Unary, a: Num): Num {
    match u
    case IsInf => FromBool(a.NegInf? || a.PosInf?)
    case _ => env.unary(u, a)
  }

  /** `ATAN2(a, b)` is the arc tangent of b over a; `FMOD` keeps its argument order. */
  function ApplyBinary(env: Env, f: Binary, a: Num, b: Num): Num {
    match f
    case Atan2 => env.atan2(b, a)
    case Fmod => env.fmod(a, b)
  }

  predicate AnyNaN(vs: seq<Num>) {
    exists i :: 0 <= i < |vs| && vs[i].NaN?
  }

  predicate AllFinite(vs: seq<Num>) {
    forall i :: 0 <= i < |vs| ==> vs[i].Fin?
  }

  /** `f64::min` and `f64::max`: the other operand when one is NaN. */
  function Min2(a: Num, b: Num): Num {
    if a.NaN? then b else if b.NaN? || !Less(b, a) then a else b
  }

  function Max2(a: Num, b: Num): Num {
    if a.NaN? then b else if b.NaN? || !Less(a, b) then a else b
  }

  function FoldMin(acc: Num, vs: seq<Num>): Num
    decreases |vs|
  {
    if vs == [] then acc else FoldMin(Min2(acc, vs[0]), vs[1..])
  }

  function FoldMax(acc: Num, vs: seq<Num>): Num
    decreases |vs|
  {
    if vs == [] then acc else FoldMax(Max2(acc, vs[0]), vs[1..])
  }

  function ApplyVariadic(f: Variadic, vs: seq<Num>): Num {
    match f
    case Min => if AnyNaN(vs) then NaN else FoldMin(PosInf, vs)
    case Max => if AnyNaN(vs) then NaN else FoldMax(NegInf, vs)
    case IsNan => FromBool(AnyNaN(vs))
    case Finite => FromBool(AllFinite(vs))
  }

  /** The value an operator leaves in place of its operands, given first to last. */
  function Apply(env: Env, op: Op, vs: seq<Num>): Num
    requires IsOperator(op) && |vs| == Arity(op)
  {
    match op
    case Pre(p) => ApplyPrefix(env, p, vs[0])
    case Inf(i) => ApplyInfix(env, i, vs[0], vs[1])
    case Call1(u) => ApplyUnary(env, u, vs[0])
    case Call2(b) => ApplyBinary(env, b, vs[0], vs[1])
    case CallN(f, _) => ApplyVariadic(f, vs)
  }

  /** One machine state. The top of the stack is its last element, `drawn` counts the
      random draws made, and `written` lists the slots stored so far, in order. */
  datatype Machine = Machine(ip: nat, stack: seq<Num>, args: seq<Num>, drawn: nat, written: seq<nat>)

  function Start(args: seq<Num>): Machine {
    Machine(0, [], args, 0, [])
  }

  /** Execute one instruction; `None` is a panic (a pop from an empty stack or an
      operand index out of range). */
  function Step(env: Env, op: Op, m: Machine): Option<Machine> {
    var d := |m.stack|;
    match op
    case Arg(i) =>
      if i < |m.args| then Some(m.(ip := m.ip + 1, stack := m.stack + [m.args[i]])) else None
    case Lit(v) => Some(m.(ip := m.ip + 1, stack := m.stack + [v]))
    case Rndm => Some(m.(ip := m.ip + 1, stack := m.stack + [env.draw(m.drawn)], drawn := m.drawn + 1))
    case Store(i) =>
      if d >= 1 && i < |m.args|
      then Some(m.(ip := m.ip + 1, stack := m.stack[..d - 1], args := m.args[i := m.stack[d - 1]],
                   written := m.written + [i]))
      else None
    case CondIf(target) =>
      if d >= 1
      then Some(m.(ip := if IsZero(m.stack[d - 1]) then target else m.ip + 1, stack := m.stack[..d - 1]))
      else None
    case CondElse(target) => Some(m.(ip := target))
    case CondEnd => Some(m.(ip := m.ip + 1))
    case _ =>
      var n := Arity(op);
      if d >= n
      then Some(m.(ip := m.ip + 1, stack := m.stack[..d - n] + [Apply(env, op, m.stack[d - n..])]))
      else None
  }

  /** How a run ends. `Backward` is a jump that does not advance the instruction pointer. */
  datatype Outcome = Halted(m: Machine) | Panicked | Backward

  function Run(env: Env, ops: seq<Op>, m: Machine): Outcome
    decreases |ops| - m.ip
  {
    if m.ip >= |ops| then Halted(m)
    else
      match Step(env, ops[m.ip], m)
      case None => Panicked
      case Some(next) => if next.ip <= m.ip then Backward else Run(env, ops, next)
  }

  /** What the caller sees: the value on top, or NaN when the program was empty. */
  function Answer(m: Machine): Num {
    if m.stack == [] then NaN else m.stack[|m.stack| - 1]
  }
}
