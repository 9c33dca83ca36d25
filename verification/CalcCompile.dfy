/** The compiler's token loop, with its output and operator stack updated step by step. */
module CalcCompile {
  import opened CalcOp
  import opened CalcChecker
  import opened CalcParser
  import opened CalcShape
  import opened Options

  /** Emit `CondEnd` and patch both placeholders in place. */
  method Finalize(out: seq<Op>, i: nat, j: nat) returns (r: seq<Op>)
    requires i < |out| && j < |out|
    ensures r == FinalizeCond(out, i, j)
  {
    r := out + [CondEnd];
    r := r[i := CondIf(j + 1)];
    r := r[j := CondElse(|r|)];
  }

  method EmitTop(out: seq<Op>, stack: seq<Frame>) returns (out': seq<Op>, stack': seq<Frame>)
    requires stack != [] && (Top(stack).FOp? || Top(stack).FTail?) && Shape(out, |out|, stack)
    ensures out' == Emit(out, Top(stack)) && stack' == Below(stack)
  {
    match Top(stack) {
      case FOp(op) => out' := out + [op];
      case FTail(i, j) => out' := Finalize(out, i, j);
    }
    stack' := Below(stack);
  }

  method PopOperators(out: seq<Op>, stack: seq<Frame>, prec: nat, left: bool)
      returns (out': seq<Op>, stack': seq<Frame>)
    ensures (out', stack') == PopWhile(out, stack, prec, left)
  {
    out', stack' := out, stack;
    while stack' != [] && Top(stack').FOp?
      invariant PopWhile(out', stack', prec, left) == PopWhile(out, stack, prec, left)
      decreases |stack'|
    {
      var topPrec := Prec(Top(stack').op);
      if !(if left then topPrec >= prec else topPrec > prec) { return; }
      out', stack' := out' + [Top(stack').op], Below(stack');
    }
  }

  /** Popping a store leaves only open `?`, on which every flush fails next. */
  predicate Flushing(out: seq<Op>, stack: seq<Frame>) {
    Inv(out, stack, SLOTS) || (stack != [] && AllHeads(stack))
  }

  lemma {:induction false} FlushingStep(out: seq<Op>, stack: seq<Frame>)
    requires stack != [] && (Top(stack).FOp? || Top(stack).FTail?) && Flushing(out, stack)
    ensures Shape(out, |out|, stack)
    ensures Flushing(Emit(out, Top(stack)), Below(stack))
  {
    FramesBelow(stack, SLOTS);
    if Top(stack).FTail? || !Top(stack).op.Store? || Below(stack) == [] {
      EmitKeeps(out, stack, SLOTS);
    }
  }

  /** The loop shared by `)` and `,`. */
  method CloseToParen(out: seq<Op>, stack: seq<Frame>) returns (r: Option<(seq<Op>, seq<Frame>)>)
    requires Inv(out, stack, SLOTS)
    ensures r == FlushToParen(out, stack)
  {
    hide Inv;
    var out', stack' := out, stack;
    while true
      invariant Flushing(out', stack')
      invariant FlushToParen(out', stack') == FlushToParen(out, stack)
      decreases |stack'|
    {
      if stack' == [] { return None; }
      match Top(stack') {
        case FParen => return Some((out', stack'));
        case FHead(_) => return None;
        case FFunc(_) => return None;
        case _ =>
          FlushingStep(out', stack');
          out', stack' := EmitTop(out', stack');
      }
    }
  }

  /** The loop shared by `;` and the end of input. */
  method UnwindAll(out: seq<Op>, stack: seq<Frame>) returns (r: Option<seq<Op>>)
    requires Inv(out, stack, SLOTS)
    ensures r == FlushAll(out, stack)
  {
    hide Inv;
    var out', stack' := out, stack;
    while stack' != []
      invariant Flushing(out', stack')
      invariant FlushAll(out', stack') == FlushAll(out, stack)
      decreases |stack'|
    {
      if !Top(stack').FOp? && !Top(stack').FTail? { return None; }
      FlushingStep(out', stack');
      out', stack' := EmitTop(out', stack');
    }
    r := Some(out');
  }

  /** The loop of `:`: stores are set aside and put back beneath the conditional. */
  method CloseToHead(out: seq<Op>, stack: seq<Frame>) returns (r: Option<(seq<Op>, seq<Frame>)>)
    requires Inv(out, stack, SLOTS)
    ensures r == FlushToHead(out, stack, [])
  {
    hide Shape, FramesOk, SlotsBelow;
    var out', stack' := out, stack;
    var held: seq<Op> := [];
    while stack' != []
      invariant Inv(out', stack', SLOTS)
      invariant FlushToHead(out', stack', held) == FlushToHead(out, stack, [])
      decreases |stack'|
    {
      match Top(stack') {
        case FHead(i) =>
          stack' := Below(stack');
          ghost var below := stack';
          var k := |held|;
          while k > 0
            invariant 0 <= k <= |held|
            invariant stack' == below + Restored(held)[..|held| - k]
          {
            k := k - 1;
            stack' := stack' + [FOp(held[k])];
          }
          assert Restored(held)[..|held|] == Restored(held);
          return Some((out' + [CondElse(0)], stack' + [FTail(i, |out'|)]));
        case FTail(_, _) =>
          EmitKeeps(out', stack', SLOTS);
          out', stack' := EmitTop(out', stack');
        case FOp(op) =>
          if op.Store? {
            StoreSetAside(out', stack');
            stack', held := Below(stack'), held + [op];
          } else {
            EmitKeeps(out', stack', SLOTS);
            out', stack' := EmitTop(out', stack');
          }
        case _ => return None;
      }
    }
    r := None;
  }

  lemma {:induction false} StoreSetAside(out: seq<Op>, stack: seq<Frame>)
    requires stack != [] && Top(stack).FOp? && Inv(out, stack, SLOTS)
    ensures Inv(out, Below(stack), SLOTS)
  {
    FramesBelow(stack, SLOTS);
  }

  /** One token. */
  method Consume(p: Parser, t: Token) returns (r: Option<Parser>)
    requires Inv(p.out, p.stack, SLOTS)
    ensures r == OnToken(p, t)
  {
    hide Inv;
    match t {
      case TClose =>
        var flushed := CloseToParen(p.out, p.stack);
        if flushed.None? { return None; }
        var (out, withParen) := flushed.value;
        FlushToParenKeepsOwed(p.out, p.stack);
        var stack := Below(withParen);
        var counts, starts := p.counts, p.starts;
        if stack != [] && Top(stack).FFunc? {
          var fn := Top(stack).fn;
          stack := Below(stack);
          var commas := 0;
          if counts != [] { commas, counts := counts[|counts| - 1], counts[..|counts| - 1]; }
          var start := |out|;
          if starts != [] { start, starts := starts[|starts| - 1], starts[..|starts| - 1]; }
          if |out| == start { return None; }
          out := out + [CallOp(fn, commas + 1)];
        }
        return Some(Parser(out, stack, false, counts, starts));
      case TQuestion =>
        if p.expectOperand { return None; }
        var out, stack := PopOperators(p.out, p.stack, 0, false);
        return Some(p.(out := out + [CondIf(0)], stack := stack + [FHead(|out|)], expectOperand := true));
      case TColon =>
        if p.expectOperand { return None; }
        var flushed := CloseToHead(p.out, p.stack);
        if flushed.None? { return None; }
        return Some(p.(out := flushed.value.0, stack := flushed.value.1, expectOperand := true));
      case TSemi =>
        if p.expectOperand { return None; }
        var flushed := UnwindAll(p.out, p.stack);
        if flushed.None? { return None; }
        return Some(p.(out := flushed.value, stack := [], expectOperand := true));
      case TComma =>
        var flushed := CloseToParen(p.out, p.stack);
        if flushed.None? || p.counts == [] { return None; }
        var last := |p.counts| - 1;
        return Some(Parser(flushed.value.0, flushed.value.1, true, p.counts[last := p.counts[last] + 1], p.starts));
      case TSym(s) =>
        var op := ToOp(s, p.expectOperand);
        if op.None? { return None; }
        r := Operator(p, op.value);
      case TIdent(id) =>
        match id {
          case WordNot => if p.expectOperand { r := Operator(p, Pre(NotB)); } else { r := None; }
          case WordAnd => if p.expectOperand { r := None; } else { r := Operator(p, Inf(AndB)); }
          case WordOr => if p.expectOperand { r := None; } else { r := Operator(p, Inf(OrB)); }
          case WordXor => if p.expectOperand { r := None; } else { r := Operator(p, Inf(XorB)); }
          case Unknown => r := None;
          case Constant(v) => if p.expectOperand { r := Operand(p, Lit(v)); } else { r := None; }
          case Random => if p.expectOperand { r := Operand(p, Rndm); } else { r := None; }
          case Function(fn) =>
            if !p.expectOperand { return None; }
            return Some(p.(stack := p.stack + [FFunc(fn)], expectOperand := true));
        }
      case TArg(i) => r := Operand(p, Arg(i));
      case TNum(v) => r := Operand(p, Lit(v));
      case TOpen =>
        var counts, starts := p.counts, p.starts;
        if p.stack != [] && Top(p.stack).FFunc? {
          counts, starts := counts + [0], starts + [|p.out|];
        }
        return Some(Parser(p.out, p.stack + [FParen], true, counts, starts));
      case TAssign =>
        if p.expectOperand { return None; }
        var heads := OnlyHeads(p.stack);
        if !heads || p.out == [] { return None; }
        var last := p.out[|p.out| - 1];
        if !last.Arg? { return None; }
        return Some(p.(out := p.out[..|p.out| - 1], stack := p.stack + [FOp(Store(last.slot))], expectOperand := true));
    }
  }

  /** Operands go straight to the output. */
  method Operand(p: Parser, op: Op) returns (r: Option<Parser>)
    ensures r == Some(PushOperand(p, op))
  {
    r := Some(p.(out := p.out + [op], expectOperand := false));
  }

  /** Whether nothing but open conditionals is on the stack. */
  method OnlyHeads(stack: seq<Frame>) returns (heads: bool)
    ensures heads == AllHeads(stack)
  {
    for i := 0 to |stack|
      invariant AllHeads(stack[..i])
    {
      if !stack[i].FHead? { return false; }
    }
    assert stack[..|stack|] == stack;
    heads := true;
  }

  method Operator(p: Parser, op: Op) returns (r: Option<Parser>)
    ensures r == Some(PushOperator(p, op))
  {
    var out, stack := PopOperators(p.out, p.stack, Prec(op), !op.Pre?);
    r := Some(p.(out := out, stack := stack + [FOp(op)], expectOperand := true));
  }

  /** Compile a token list: the loop with its length guard, the unwind, and the checks. */
  method Compile(toks: seq<Token>) returns (r: Option<seq<Op>>)
    requires forall i :: 0 <= i < |toks| ==> TokenOk(toks[i], SLOTS)
    ensures r == Compiled(toks)
  {
    hide Inv, OnToken, Finish;
    InitialInv();
    var p := INITIAL;
    var i := 0;
    while i < |toks|
      invariant 0 <= i <= |toks|
      invariant Inv(p.out, p.stack, SLOTS)
      invariant Feed(p, toks[i..]) == Feed(INITIAL, toks)
    {
      var q := Consume(p, toks[i]);
      assert toks[i..][0] == toks[i] && toks[i..][1..] == toks[i + 1..];
      if q.None? { return None; }
      TokenKeeps(p, toks[i], SLOTS);
      p := q.value;
      i := i + 1;
      if |p.out| > MAX_OPS {
        OverLimitStaysOver(p, toks[i..], toks == []);
        return None;
      }
    }
    assert toks[i..] == [];
    r := Complete(p, toks == []);
  }

  lemma {:induction false} InitialInv()
    ensures Inv(INITIAL.out, INITIAL.stack, SLOTS)
  {
  }

  method Complete(p: Parser, empty: bool) returns (r: Option<seq<Op>>)
    requires Inv(p.out, p.stack, SLOTS)
    ensures r == var out := Finish(p, empty);
                 if out.Some? && |out.value| <= MAX_OPS && Accepts(out.value) then out else None
  {
    hide Inv, FlushAll;
    var out := UnwindAll(p.out, p.stack);
    if out.None? { return None; }
    if p.expectOperand && !empty { return None; }
    if |out.value| > MAX_OPS { return None; }
    var ok := CheckArity(out.value);
    r := if ok then out else None;
  }
}
