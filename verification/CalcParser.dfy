/** The shunting-yard compiler from CALC tokens to postfix instructions. */
module CalcParser {
  import opened CalcOp
  import opened CalcChecker
  import opened Options

  const MAX_OPS: nat := 1000

  /** The operator spellings; `=`/`==`, `#`/`!=` and `^`/`**` are pairs of aliases. */
  datatype Sym =
    | Minus | Plus | Star | Slash | Percent | Caret | StarStar
    | Bang | Greater | GreaterEq | Smaller | SmallerEq | Equals | EqualsEquals | Hash | BangEq
    | AmpAmp | BarBar | Tilde | Amp | Bar | ShiftLeft | ShiftRight | ShiftRightLogic

  /** What an identifier names: a constant, `RNDM`, a word operator, a function, or nothing. */
  datatype Ident = Constant(v: Num) | Random | WordAnd | WordOr | WordXor | WordNot | Function(fn: Fn) | Unknown

  datatype Token =
    | TArg(slot: nat)
    | TNum(v: Num)
    | TIdent(id: Ident)
    | TOpen | TClose | TQuestion | TColon | TAssign | TSemi | TComma
    | TSym(s: Sym)

  /** Map an operator symbol to an instruction, resolving unary against binary. */
  function ToOp(s: Sym, operandPosition: bool): Option<Op> {
    if operandPosition then
      match s
      case Minus => Some(Pre(Neg))
      case Bang => Some(Pre(NotL))
      case Tilde => Some(Pre(NotB))
      case _ => None
    else
      match s
      case Plus => Some(Inf(Add))
      case Minus => Some(Inf(Sub))
      case Star => Some(Inf(Mul))
      case Slash => Some(Inf(Div))
      case Percent => Some(Inf(Modulo))
      case Caret | StarStar => Some(Inf(Pow))
      case Greater => Some(Inf(Gt))
      case GreaterEq => Some(Inf(Ge))
      case Smaller => Some(Inf(Lt))
      case SmallerEq => Some(Inf(Le))
      case Equals | EqualsEquals => Some(Inf(Eq))
      case Hash | BangEq => Some(Inf(Ne))
      case AmpAmp => Some(Inf(AndL))
      case BarBar => Some(Inf(OrL))
      case Amp => Some(Inf(AndB))
      case Bar => Some(Inf(OrB))
      case ShiftLeft => Some(Inf(Shl))
      case ShiftRight => Some(Inf(Shr))
      case ShiftRightLogic => Some(Inf(ShrLogic))
      case Bang | Tilde => None
  }

  /** A pending entry of the operator stack. A `FHead` remembers its `CondIf`, a `FTail`
      its `CondIf` and its `CondElse`, both still without targets. */
  datatype Frame =
    | FOp(op: Op)
    | FParen
    | FHead(ifIdx: nat)
    | FTail(ifIdx: nat, elseIdx: nat)
    | FFunc(fn: Fn)

  /** The compiler's working state; the operator stack has its top last. `counts` and
      `starts` hold the comma count and the output length at each open call's parenthesis. */
  datatype Parser = Parser(out: seq<Op>, stack: seq<Frame>, expectOperand: bool, counts: seq<nat>, starts: seq<nat>)

  const INITIAL := Parser([], [], true, [], [])

  function Top(s: seq<Frame>): Frame
    requires s != []
  {
    s[|s| - 1]
  }

  function Below(s: seq<Frame>): seq<Frame>
    requires s != []
  {
    s[..|s| - 1]
  }

  /** Emit `CondEnd` and patch both jump targets of a completed conditional. Indices outside
      the output, where the source would panic, leave it unpatched: `CalcShape` shows
      they do not occur. */
  function FinalizeCond(out: seq<Op>, i: nat, j: nat): seq<Op> {
    var o := out + [CondEnd];
    if i < |out| && j < |out| then o[i := CondIf(j + 1)][j := CondElse(|o|)] else o
  }

  /** Move one operator or completed conditional from the stack to the output. */
  function Emit(out: seq<Op>, f: Frame): seq<Op>
    requires f.FOp? || f.FTail?
  {
    if f.FOp? then out + [f.op] else FinalizeCond(out, f.ifIdx, f.elseIdx)
  }

  /** Pop operators that bind at least as tightly (more tightly, if right-associative). */
  function PopWhile(out: seq<Op>, stack: seq<Frame>, prec: nat, left: bool): (seq<Op>, seq<Frame>)
    decreases |stack|
  {
    if stack != [] && Top(stack).FOp? && (if left then Prec(Top(stack).op) >= prec else Prec(Top(stack).op) > prec)
    then PopWhile(out + [Top(stack).op], Below(stack), prec, left)
    else (out, stack)
  }

  /** Flush down to the nearest open parenthesis, which stays on the stack. */
  function FlushToParen(out: seq<Op>, stack: seq<Frame>): Option<(seq<Op>, seq<Frame>)>
    decreases |stack|
  {
    if stack == [] then None
    else
      match Top(stack)
      case FParen => Some((out, stack))
      case FHead(_) => None
      case FFunc(_) => None
      case f => FlushToParen(Emit(out, f), Below(stack))
  }

  /** Flush the whole stack; an open parenthesis, call or `?` is an error. */
  function FlushAll(out: seq<Op>, stack: seq<Frame>): Option<seq<Op>>
    decreases |stack|
  {
    if stack == [] then Some(out)
    else
      match Top(stack)
      case FOp(_) => FlushAll(Emit(out, Top(stack)), Below(stack))
      case FTail(_, _) => FlushAll(Emit(out, Top(stack)), Below(stack))
      case _ => None
  }

  function Restored(held: seq<Op>): (fs: seq<Frame>)
    ensures |fs| == |held|
  {
    seq(|held|, k requires 0 <= k < |held| => FOp(held[|held| - 1 - k]))
  }

  /** Flush down to the `?` that this `:` answers. Stores are held aside and put back
      beneath the conditional, so that they are emitted after it. */
  function FlushToHead(out: seq<Op>, stack: seq<Frame>, held: seq<Op>): Option<(seq<Op>, seq<Frame>)>
    decreases |stack|
  {
    if stack == [] then None
    else
      match Top(stack)
      case FParen => None
      case FFunc(_) => None
      case FHead(i) => Some((out + [CondElse(0)], Below(stack) + Restored(held) + [FTail(i, |out|)]))
      case FTail(_, _) => FlushToHead(Emit(out, Top(stack)), Below(stack), held)
      case FOp(op) =>
        if op.Store? then FlushToHead(out, Below(stack), held + [op])
        else FlushToHead(Emit(out, Top(stack)), Below(stack), held)
  }

  /** The instruction a closed call emits; only the variadic functions keep the count. */
  function CallOp(fn: Fn, count: nat): Op {
    match fn
    case Fn1(u) => Call1(u)
    case Fn2(b) => Call2(b)
    case FnN(v) => CallN(v, count)
  }

  function PushOperand(p: Parser, op: Op): Parser {
    p.(out := p.out + [op], expectOperand := false)
  }

  function PushOperator(p: Parser, op: Op): Parser {
    var (out, stack) := PopWhile(p.out, p.stack, Prec(op), !op.Pre?);
    p.(out := out, stack := stack + [FOp(op)], expectOperand := true)
  }

  function OnIdent(p: Parser, id: Ident): Option<Parser> {
    match id
    case Constant(v) => if p.expectOperand then Some(PushOperand(p, Lit(v))) else None
    case Random => if p.expectOperand then Some(PushOperand(p, Rndm)) else None
    case WordNot => if p.expectOperand then Some(PushOperator(p, Pre(NotB))) else None
    case WordAnd => if p.expectOperand then None else Some(PushOperator(p, Inf(AndB)))
    case WordOr => if p.expectOperand then None else Some(PushOperator(p, Inf(OrB)))
    case WordXor => if p.expectOperand then None else Some(PushOperator(p, Inf(XorB)))
    case Function(fn) =>
      if p.expectOperand then Some(p.(stack := p.stack + [FFunc(fn)], expectOperand := true)) else None
    case Unknown => None
  }

  function OnOpen(p: Parser): Parser {
    var q := if p.stack != [] && Top(p.stack).FFunc?
             then p.(counts := p.counts + [0], starts := p.starts + [|p.out|])
             else p;
    q.(stack := p.stack + [FParen], expectOperand := true)
  }

  function OnClose(p: Parser): Option<Parser> {
    var (out, stack) :- FlushToParen(p.out, p.stack);
    var rest := if stack == [] then [] else Below(stack);
    if rest != [] && Top(rest).FFunc? then
      var n, k := |p.counts|, |p.starts|;
      var commas := if n == 0 then 0 else p.counts[n - 1];
      var start := if k == 0 then |out| else p.starts[k - 1];
      if |out| == start then None
      else Some(Parser(out + [CallOp(Top(rest).fn, commas + 1)], Below(rest), false,
                       if n == 0 then [] else p.counts[..n - 1], if k == 0 then [] else p.starts[..k - 1]))
    else Some(p.(out := out, stack := rest, expectOperand := false))
  }

  function OnQuestion(p: Parser): Option<Parser> {
    if p.expectOperand then None
    else
      var (out, stack) := PopWhile(p.out, p.stack, 0, false);
      Some(p.(out := out + [CondIf(0)], stack := stack + [FHead(|out|)], expectOperand := true))
  }

  predicate AllHeads(stack: seq<Frame>) {
    forall i :: 0 <= i < |stack| ==> stack[i].FHead?
  }

  function OnAssign(p: Parser): Option<Parser> {
    var n := |p.out|;
    if p.expectOperand || !AllHeads(p.stack) || n == 0 || !p.out[n - 1].Arg? then None
    else Some(p.(out := p.out[..n - 1], stack := p.stack + [FOp(Store(p.out[n - 1].slot))], expectOperand := true))
  }

  function OnSemi(p: Parser): Option<Parser> {
    if p.expectOperand then None
    else
      var out :- FlushAll(p.out, p.stack);
      Some(p.(out := out, stack := [], expectOperand := true))
  }

  function OnColon(p: Parser): Option<Parser> {
    if p.expectOperand then None
    else
      var (out, stack) :- FlushToHead(p.out, p.stack, []);
      Some(p.(out := out, stack := stack, expectOperand := true))
  }

  function OnComma(p: Parser): Option<Parser> {
    var (out, stack) :- FlushToParen(p.out, p.stack);
    var n := |p.counts|;
    if n == 0 then None
    else Some(Parser(out, stack, true, p.counts[n - 1 := p.counts[n - 1] + 1], p.starts))
  }

  function OnSym(p: Parser, s: Sym): Option<Parser> {
    var op :- ToOp(s, p.expectOperand);
    Some(PushOperator(p, op))
  }

  function OnToken(p: Parser, t: Token): Option<Parser> {
    match t
    case TArg(i) => Some(PushOperand(p, Arg(i)))
    case TNum(v) => Some(PushOperand(p, Lit(v)))
    case TIdent(id) => OnIdent(p, id)
    case TOpen => Some(OnOpen(p))
    case TClose => OnClose(p)
    case TQuestion => OnQuestion(p)
    case TColon => OnColon(p)
    case TAssign => OnAssign(p)
    case TSemi => OnSemi(p)
    case TComma => OnComma(p)
    case TSym(s) => OnSym(p, s)
  }

  /** Consume tokens without the length guard. */
  function Feed(p: Parser, toks: seq<Token>): Option<Parser>
    decreases |toks|
  {
    if toks == [] then Some(p)
    else
      var q :- OnToken(p, toks[0]);
      Feed(q, toks[1..])
  }

  /** The end-of-input unwind and the "operand still wanted" check. */
  function Finish(p: Parser, empty: bool): Option<seq<Op>> {
    var out :- FlushAll(p.out, p.stack);
    if p.expectOperand && !empty then None else Some(out)
  }

  /** What reaches the stack checker. */
  function Emitted(toks: seq<Token>): Option<seq<Op>> {
    var p :- Feed(INITIAL, toks);
    Finish(p, toks == [])
  }

  /** The compiler as a function: emitted within the limit, and accepted by the checker. */
  function Compiled(toks: seq<Token>): Option<seq<Op>> {
    var out :- Emitted(toks);
    if |out| <= MAX_OPS && Accepts(out) then Some(out) else None
  }

  lemma {:induction false} FeedAppend(p: Parser, a: seq<Token>, b: seq<Token>)
    ensures Feed(p, a + b) == var q := Feed(p, a); if q.None? then None else Feed(q.value, b)
    decreases |a|
  {
    if a == [] {
      assert a + b == b;
    } else {
      assert (a + b)[0] == a[0] && (a + b)[1..] == a[1..] + b;
      var q := OnToken(p, a[0]);
      if q.Some? {
        FeedAppend(q.value, a[1..], b);
      }
    }
  }

  // ----- The length guard -----

  /** Instructions already out plus those the pending frames are still owed. */
  function Weight(stack: seq<Frame>): nat
    decreases |stack|
  {
    if stack == [] then 0
    else Weight(Below(stack)) + if Top(stack).FParen? || Top(stack).FHead? then 0 else 1
  }

  function Owed(p: Parser): nat {
    |p.out| + Weight(p.stack)
  }

  lemma {:induction false} WeightAppend(a: seq<Frame>, b: seq<Frame>)
    ensures Weight(a + b) == Weight(a) + Weight(b)
    decreases |b|
  {
    if b == [] {
      assert a + b == a;
    } else {
      assert Below(a + b) == a + Below(b) && Top(a + b) == Top(b);
      WeightAppend(a, Below(b));
    }
  }

  lemma {:induction false} WeightPush(a: seq<Frame>, f: Frame)
    ensures Weight(a + [f]) == Weight(a) + if f.FParen? || f.FHead? then 0 else 1
  {
    assert Below(a + [f]) == a && Top(a + [f]) == f;
  }

  lemma {:induction false} PopWhileKeepsOwed(out: seq<Op>, stack: seq<Frame>, prec: nat, left: bool)
    ensures var r := PopWhile(out, stack, prec, left); |r.0| + Weight(r.1) == |out| + Weight(stack)
    decreases |stack|
  {
    if stack != [] && Top(stack).FOp? {
      PopWhileKeepsOwed(out + [Top(stack).op], Below(stack), prec, left);
    }
  }

  lemma {:induction false} FlushToParenKeepsOwed(out: seq<Op>, stack: seq<Frame>)
    ensures var r := FlushToParen(out, stack);
            r.Some? ==>
              && r.value.1 != [] && Top(r.value.1).FParen?
              && |r.value.0| + Weight(r.value.1) == |out| + Weight(stack)
    decreases |stack|
  {
    if stack != [] && (Top(stack).FOp? || Top(stack).FTail?) {
      FlushToParenKeepsOwed(Emit(out, Top(stack)), Below(stack));
    }
  }

  lemma {:induction false} FlushAllKeepsOwed(out: seq<Op>, stack: seq<Frame>)
    ensures var r := FlushAll(out, stack); r.Some? ==> |r.value| == |out| + Weight(stack)
    decreases |stack|
  {
    if stack != [] && (Top(stack).FOp? || Top(stack).FTail?) {
      FlushAllKeepsOwed(Emit(out, Top(stack)), Below(stack));
    }
  }

  lemma {:induction false} RestoredWeight(held: seq<Op>)
    ensures Weight(Restored(held)) == |held|
    decreases |held|
  {
    if held != [] {
      var r := Restored(held);
      assert Below(r) == Restored(held[1..]);
      RestoredWeight(held[1..]);
    }
  }

  lemma {:induction false} FlushToHeadKeepsOwed(out: seq<Op>, stack: seq<Frame>, held: seq<Op>)
    ensures var r := FlushToHead(out, stack, held);
            r.Some? ==> |r.value.0| + Weight(r.value.1) == |out| + Weight(stack) + |held| + 2
    decreases |stack|
  {
    if stack != [] {
      match Top(stack)
      case FHead(i) =>
        RestoredWeight(held);
        WeightAppend(Below(stack), Restored(held));
        WeightPush(Below(stack) + Restored(held), FTail(i, |out|));
      case FTail(_, _) => FlushToHeadKeepsOwed(Emit(out, Top(stack)), Below(stack), held);
      case FOp(op) =>
        if op.Store? {
          FlushToHeadKeepsOwed(out, Below(stack), held + [op]);
        } else {
          FlushToHeadKeepsOwed(Emit(out, Top(stack)), Below(stack), held);
        }
      case _ =>
    }
  }

  lemma {:induction false} PushOperatorOwed(p: Parser, op: Op)
    ensures Owed(PushOperator(p, op)) == Owed(p) + 1
  {
    PopWhileKeepsOwed(p.out, p.stack, Prec(op), !op.Pre?);
    WeightPush(PopWhile(p.out, p.stack, Prec(op), !op.Pre?).1, FOp(op));
  }

  lemma {:induction false} CloseNeverShrinks(p: Parser)
    requires OnClose(p).Some?
    ensures Owed(p) <= Owed(OnClose(p).value)
  {
    hide FlushToParen;
    FlushToParenKeepsOwed(p.out, p.stack);
  }

  /** No token makes the finished program shorter. */
  lemma {:induction false} TokenNeverShrinks(p: Parser, t: Token)
    requires OnToken(p, t).Some?
    ensures Owed(p) <= Owed(OnToken(p, t).value)
  {
    hide PopWhile, FlushToParen, FlushAll, FlushToHead, PushOperator, OnClose;
    match t
    case TArg(_) =>
    case TNum(_) =>
    case TIdent(id) =>
      match id {
        case WordNot => PushOperatorOwed(p, Pre(NotB));
        case WordAnd => PushOperatorOwed(p, Inf(AndB));
        case WordOr => PushOperatorOwed(p, Inf(OrB));
        case WordXor => PushOperatorOwed(p, Inf(XorB));
        case Function(fn) => WeightPush(p.stack, FFunc(fn));
        case _ =>
      }
    case TOpen => WeightPush(p.stack, FParen);
    case TClose => CloseNeverShrinks(p);
    case TQuestion =>
      PopWhileKeepsOwed(p.out, p.stack, 0, false);
      var (out, stack) := PopWhile(p.out, p.stack, 0, false);
      WeightPush(stack, FHead(|out|));
    case TColon => FlushToHeadKeepsOwed(p.out, p.stack, []);
    case TAssign => WeightPush(p.stack, FOp(Store(p.out[|p.out| - 1].slot)));
    case TSemi => FlushAllKeepsOwed(p.out, p.stack);
    case TComma => FlushToParenKeepsOwed(p.out, p.stack);
    case TSym(s) => PushOperatorOwed(p, ToOp(s, p.expectOperand).value);
  }

  lemma {:induction false} FeedNeverShrinks(p: Parser, toks: seq<Token>)
    requires Feed(p, toks).Some?
    ensures Owed(p) <= Owed(Feed(p, toks).value)
    decreases |toks|
  {
    if toks != [] {
      TokenNeverShrinks(p, toks[0]);
      FeedNeverShrinks(OnToken(p, toks[0]).value, toks[1..]);
    }
  }

  /** The length check inside the token loop is only an early exit: once the output is too
      long, whatever follows, the finished program is too long or refused. */
  lemma {:induction false} OverLimitStaysOver(p: Parser, toks: seq<Token>, empty: bool)
    requires |p.out| > MAX_OPS
    ensures var q := Feed(p, toks);
            q.Some? && Finish(q.value, empty).Some? ==> |Finish(q.value, empty).value| > MAX_OPS
  {
    var q := Feed(p, toks);
    if q.Some? {
      FeedNeverShrinks(p, toks);
      FlushAllKeepsOwed(q.value.out, q.value.stack);
    }
  }
}
