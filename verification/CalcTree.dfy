/** CALC expressions as trees: how they are written, what they mean, and the code they denote. */
module CalcTree {
  import opened CalcOp
  import opened CalcMachine
  import opened CalcParser
  import opened Options

  /** An operator node carries the spelling used for it; `EGroup` is a redundant pair
      of parentheses. */
  datatype Expr =
    | ELit(v: Num)
    | EConst(v: Num)
    | EArg(slot: nat)
    | ERndm
    | EPre(tok: Token, p: Prefix, e: Expr)
    | EInf(tok: Token, i: Infix, l: Expr, r: Expr)
    | ECall(fn: Fn, args: seq<Expr>)
    | ECond(c: Expr, t: Expr, f: Expr)
    | EGroup(e: Expr)

  /** The operator a token stands for in operand or operator position. */
  function Denotes(t: Token, operandPosition: bool): Option<Op> {
    match t
    case TSym(s) => ToOp(s, operandPosition)
    case TIdent(id) =>
      (match id
       case WordNot => if operandPosition then Some(Pre(NotB)) else None
       case WordAnd => if operandPosition then None else Some(Inf(AndB))
       case WordOr => if operandPosition then None else Some(Inf(OrB))
       case WordXor => if operandPosition then None else Some(Inf(XorB))
       case _ => None)
    case _ => None
  }

  predicate ArgCountOk(fn: Fn, n: nat) {
    match fn
    case Fn1(_) => n == 1
    case Fn2(_) => n == 2
    case FnN(_) => n >= 1
  }

  /** Operators are spelled by a token that denotes them, calls have the arguments they need. */
  predicate WellFormed(e: Expr) {
    match e
    case EPre(tok, p, e1) => Denotes(tok, true) == Some(Pre(p)) && WellFormed(e1)
    case EInf(tok, i, l, r) => Denotes(tok, false) == Some(Inf(i)) && WellFormed(l) && WellFormed(r)
    case ECall(fn, args) => ArgCountOk(fn, |args|) && forall k :: 0 <= k < |args| ==> WellFormed(args[k])
    case ECond(c, t, f) => WellFormed(c) && WellFormed(t) && WellFormed(f)
    case EGroup(e1) => WellFormed(e1)
    case _ => true
  }

  const PRIMARY: nat := 8

  /** How tightly the outermost construct binds: `?:` loosest, then the seven levels. */
  function Level(e: Expr): nat {
    match e
    case ECond(_, _, _) => 0
    case EInf(_, i, _, _) => InfixPrec(i)
    case EPre(_, _, _) => PREFIX_PREC
    case _ => PRIMARY
  }

  // ----- Concrete syntax -----

  /** Tokens of `e` where a construct of level at least `m` is wanted: parentheses are added
      only when the precedence table requires them. */
  function Print(e: Expr, m: nat): seq<Token>
    decreases e, 1
  {
    if Level(e) < m then [TOpen] + Bare(e) + [TClose] else Bare(e)
  }

  function Bare(e: Expr): seq<Token>
    decreases e, 0
  {
    match e
    case ELit(v) => [TNum(v)]
    case EConst(v) => [TIdent(Constant(v))]
    case EArg(i) => [TArg(i)]
    case ERndm => [TIdent(Random)]
    case EPre(tok, _, e1) => [tok] + Print(e1, PREFIX_PREC)
    case EInf(tok, i, l, r) => Print(l, InfixPrec(i)) + [tok] + Print(r, InfixPrec(i) + 1)
    case ECall(fn, args) => [TIdent(Function(fn)), TOpen] + PrintArgs(args) + [TClose]
    case ECond(c, t, f) => Print(c, 1) + [TQuestion] + Print(t, 0) + [TColon] + Print(f, 0)
    case EGroup(e1) => [TOpen] + Print(e1, 0) + [TClose]
  }

  function PrintArgs(args: seq<Expr>): seq<Token>
    decreases args, 0
  {
    if args == [] then []
    else if |args| == 1 then Print(args[0], 0)
    else Print(args[0], 0) + [TComma] + PrintArgs(args[1..])
  }

  // ----- Meaning -----

  /** Value and number of draws made so far. Operands are evaluated left to right, and only
      the chosen branch of a conditional is evaluated. */
  function Eval(env: Env, e: Expr, args: seq<Num>, drawn: nat): (Num, nat)
    decreases e, 0
  {
    match e
    case ELit(v) => (v, drawn)
    case EConst(v) => (v, drawn)
    case EArg(i) => (if i < |args| then args[i] else NaN, drawn)
    case ERndm => (env.draw(drawn), drawn + 1)
    case EPre(_, p, e1) =>
      var (v, k) := Eval(env, e1, args, drawn);
      (ApplyPrefix(env, p, v), k)
    case EInf(_, i, l, r) =>
      var (a, k) := Eval(env, l, args, drawn);
      var (b, k') := Eval(env, r, args, k);
      (ApplyInfix(env, i, a, b), k')
    case ECall(fn, es) =>
      var (vs, k) := EvalArgs(env, es, args, drawn);
      (Invoke(env, fn, vs), k)
    case ECond(c, t, f) =>
      var (v, k) := Eval(env, c, args, drawn);
      if IsZero(v) then Eval(env, f, args, k) else Eval(env, t, args, k)
    case EGroup(e1) => Eval(env, e1, args, drawn)
  }

  function EvalArgs(env: Env, es: seq<Expr>, args: seq<Num>, drawn: nat): (r: (seq<Num>, nat))
    ensures |r.0| == |es|
    decreases es, 1
  {
    if es == [] then ([], drawn)
    else
      var (v, k) := Eval(env, es[0], args, drawn);
      var (vs, k') := EvalArgs(env, es[1..], args, k);
      ([v] + vs, k')
  }

  /** Apply a function to its argument values; a wrong argument count gives NaN (it is not
      well-formed). */
  function Invoke(env: Env, fn: Fn, vs: seq<Num>): Num {
    match fn
    case Fn1(u) => if |vs| == 1 then ApplyUnary(env, u, vs[0]) else NaN
    case Fn2(b) => if |vs| == 2 then ApplyBinary(env, b, vs[0], vs[1]) else NaN
    case FnN(v) => ApplyVariadic(v, vs)
  }

  // ----- Code -----

  /** Postfix code of `e` when its first instruction sits at index `base`. */
  function Code(e: Expr, base: nat): (code: seq<Op>)
    decreases e, 0
  {
    match e
    case ELit(v) => [Lit(v)]
    case EConst(v) => [Lit(v)]
    case EArg(i) => [Arg(i)]
    case ERndm => [Rndm]
    case EPre(_, p, e1) => Code(e1, base) + [Pre(p)]
    case EInf(_, i, l, r) =>
      var left := Code(l, base);
      left + Code(r, base + |left|) + [Inf(i)]
    case ECall(fn, args) => CodeArgs(args, base) + [CallOp(fn, |args|)]
    case ECond(c, t, f) =>
      var cond := Code(c, base);
      var thenAt := base + |cond| + 1;
      var then' := Code(t, thenAt);
      var elseAt := thenAt + |then'| + 1;
      CondCode(cond, then', Code(f, elseAt), elseAt)
    case EGroup(e1) => Code(e1, base)
  }

  /** The layout of a conditional whose else-branch starts at index `elseAt`. */
  function CondCode(cond: seq<Op>, then': seq<Op>, else': seq<Op>, elseAt: nat): seq<Op> {
    cond + [CondIf(elseAt)] + then' + [CondElse(elseAt + |else'| + 1)] + else' + [CondEnd]
  }

  function CodeArgs(args: seq<Expr>, base: nat): seq<Op>
    decreases args, 1
  {
    if args == [] then []
    else
      var first := Code(args[0], base);
      first + CodeArgs(args[1..], base + |first|)
  }

  // ----- Programs -----

  /** Where a store may be written: in front of an expression, or in the then-branch of a
      conditional, from which it is hoisted. */
  datatype Target = Here(e: Expr) | InThen(c: Expr, then': Target, f: Expr)

  /** `SStore(s, InThen(c, Here(t), f))` is written `c ? s := t : f`. */
  datatype Stmt = SValue(e: Expr) | SStore(slot: nat, target: Target)

  /** The expression whose value is stored: the hoisted conditional as a whole. */
  function Hoisted(t: Target): Expr {
    match t
    case Here(e) => e
    case InThen(c, t1, f) => ECond(c, Hoisted(t1), f)
  }

  function PrintTarget(slot: nat, t: Target): seq<Token> {
    match t
    case Here(e) => [TArg(slot), TAssign] + Print(e, 0)
    case InThen(c, t1, f) => Print(c, 1) + [TQuestion] + PrintTarget(slot, t1) + [TColon] + Print(f, 0)
  }

  function PrintStmt(s: Stmt): seq<Token> {
    match s
    case SValue(e) => Print(e, 0)
    case SStore(slot, t) => PrintTarget(slot, t)
  }

  function PrintProgram(ss: seq<Stmt>): seq<Token>
    decreases |ss|
  {
    if ss == [] then []
    else if |ss| == 1 then PrintStmt(ss[0])
    else PrintStmt(ss[0]) + [TSemi] + PrintProgram(ss[1..])
  }

  predicate WellFormedStmt(s: Stmt) {
    match s
    case SValue(e) => WellFormed(e)
    case SStore(_, t) => WellFormed(Hoisted(t))
  }

  predicate WellFormedProgram(ss: seq<Stmt>) {
    forall i :: 0 <= i < |ss| ==> WellFormedStmt(ss[i])
  }

  function CodeStmt(s: Stmt, base: nat): seq<Op> {
    match s
    case SValue(e) => Code(e, base)
    case SStore(slot, t) => Code(Hoisted(t), base) + [Store(slot)]
  }

  function CodeProgram(ss: seq<Stmt>, base: nat): seq<Op>
    decreases |ss|
  {
    if ss == [] then []
    else
      var first := CodeStmt(ss[0], base);
      first + CodeProgram(ss[1..], base + |first|)
  }

  /** How many values the program leaves. */
  function Values(ss: seq<Stmt>): nat
    decreases |ss|
  {
    if ss == [] then 0 else (if ss[0].SValue? then 1 else 0) + Values(ss[1..])
  }

  /** The effect of a program: the values left, the operands afterwards and the draws made. */
  datatype Effect = Effect(values: seq<Num>, args: seq<Num>, drawn: nat)

  function EvalProgram(env: Env, ss: seq<Stmt>, args: seq<Num>, drawn: nat): Effect
    decreases |ss|
  {
    if ss == [] then Effect([], args, drawn)
    else
      match ss[0]
      case SValue(e) =>
        var (v, k) := Eval(env, e, args, drawn);
        var rest := EvalProgram(env, ss[1..], args, k);
        rest.(values := [v] + rest.values)
      case SStore(slot, t) =>
        var (v, k) := Eval(env, Hoisted(t), args, drawn);
        EvalProgram(env, ss[1..], if slot < |args| then args[slot := v] else args, k)
  }

  /** Every operand named exists. */
  predicate SlotsOk(e: Expr, n: nat)
    decreases e
  {
    match e
    case EArg(i) => i < n
    case EPre(_, _, e1) => SlotsOk(e1, n)
    case EInf(_, _, l, r) => SlotsOk(l, n) && SlotsOk(r, n)
    case ECall(_, args) => forall k :: 0 <= k < |args| ==> SlotsOk(args[k], n)
    case ECond(c, t, f) => SlotsOk(c, n) && SlotsOk(t, n) && SlotsOk(f, n)
    case EGroup(e1) => SlotsOk(e1, n)
    case _ => true
  }

  predicate ProgramSlotsOk(ss: seq<Stmt>, n: nat) {
    forall i :: 0 <= i < |ss| ==>
      match ss[i]
      case SValue(e) => SlotsOk(e, n)
      case SStore(slot, t) => slot < n && SlotsOk(Hoisted(t), n)
  }
}
