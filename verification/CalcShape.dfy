/** What the compiler keeps for every token list: conditionals nest like brackets with
    correctly patched targets, and no store is ever placed inside one. */
module CalcShape {
  import opened CalcOp
  import opened CalcMachine
  import opened CalcChecker
  import opened CalcParser
  import opened Options

  predicate NoStore(ops: seq<Op>, lo: nat, hi: nat)
    requires lo <= hi <= |ops|
  {
    forall k :: lo <= k < hi ==> !ops[k].Store?
  }

  /** `ops[lo..hi]` is a run of plain instructions and complete, storeless conditionals. */
  predicate Nested(ops: seq<Op>, lo: nat, hi: nat)
    requires lo <= hi <= |ops|
    decreases hi - lo
  {
    lo == hi ||
    if ops[lo].CondIf? then
      && CondAt(ops, lo, hi)
      && Nested(ops, lo + 1, ElseIdx(ops, lo))
      && Nested(ops, ElseIdx(ops, lo) + 1, EndIdx(ops, lo))
      && NoStore(ops, lo, EndIdx(ops, lo))
      && Nested(ops, EndIdx(ops, lo) + 1, hi)
    else !IsCond(ops[lo]) && Nested(ops, lo + 1, hi)
  }

  /** The output below `hi` as the operator stack sees it: each open `?` or `? :` marks its
      placeholders, and the code between the marks nests. */
  predicate Shape(out: seq<Op>, hi: nat, stack: seq<Frame>)
    requires hi <= |out|
    decreases |stack|
  {
    if stack == [] then Nested(out, 0, hi)
    else
      match Top(stack)
      case FHead(i) =>
        && i < hi && out[i].CondIf? && Nested(out, i + 1, hi) && NoStore(out, i, hi)
        && Shape(out, i, Below(stack))
      case FTail(i, j) =>
        && i < j < hi && out[i].CondIf? && out[j].CondElse?
        && Nested(out, i + 1, j) && Nested(out, j + 1, hi) && NoStore(out, i, hi)
        && Shape(out, i, Below(stack))
      case _ => Shape(out, hi, Below(stack))
  }

  predicate SlotOk(op: Op, n: nat) {
    (op.Arg? ==> op.slot < n) && (op.Store? ==> op.slot < n)
  }

  /** Pending operators are operators or stores, and below a store there are only open `?`. */
  predicate FramesOk(stack: seq<Frame>, n: nat) {
    forall k :: 0 <= k < |stack| && stack[k].FOp? ==>
      && (IsOperator(stack[k].op) || stack[k].op.Store?)
      && SlotOk(stack[k].op, n)
      && (stack[k].op.Store? ==> AllHeads(stack[..k]))
  }

  /** The compiler's invariant, for operands below `n`. */
  predicate Inv(out: seq<Op>, stack: seq<Frame>, n: nat) {
    Shape(out, |out|, stack) && FramesOk(stack, n) && SlotsBelow(out, n)
  }

  // ----- Nesting -----

  lemma {:induction false} NestedFrame(ops: seq<Op>, ops': seq<Op>, lo: nat, hi: nat)
    requires lo <= hi <= |ops| && hi <= |ops'| && Nested(ops, lo, hi)
    requires forall k :: lo <= k < hi ==> ops'[k] == ops[k]
    ensures Nested(ops', lo, hi)
    decreases hi - lo
  {
    if lo < hi {
      if ops[lo].CondIf? {
        NestedFrame(ops, ops', lo + 1, ElseIdx(ops, lo));
        NestedFrame(ops, ops', ElseIdx(ops, lo) + 1, EndIdx(ops, lo));
        NestedFrame(ops, ops', EndIdx(ops, lo) + 1, hi);
      } else {
        NestedFrame(ops, ops', lo + 1, hi);
      }
    }
  }

  lemma {:induction false} NestedConcat(ops: seq<Op>, lo: nat, mid: nat, hi: nat)
    requires lo <= mid <= hi <= |ops| && Nested(ops, lo, mid) && Nested(ops, mid, hi)
    ensures Nested(ops, lo, hi)
    decreases mid - lo
  {
    if lo < mid {
      if ops[lo].CondIf? {
        NestedConcat(ops, EndIdx(ops, lo) + 1, mid, hi);
      } else {
        NestedConcat(ops, lo + 1, mid, hi);
      }
    }
  }

  lemma {:induction false} NestedChop(ops: seq<Op>, lo: nat, hi: nat)
    requires lo < hi <= |ops| && Nested(ops, lo, hi) && !IsCond(ops[hi - 1])
    ensures Nested(ops, lo, hi - 1)
    decreases hi - lo
  {
    if lo + 1 < hi {
      if ops[lo].CondIf? {
        NestedChop(ops, EndIdx(ops, lo) + 1, hi);
      } else {
        NestedChop(ops, lo + 1, hi);
      }
    }
  }

  // ----- The shape of the output -----

  lemma {:induction false} ShapeFrame(out: seq<Op>, out': seq<Op>, hi: nat, stack: seq<Frame>)
    requires hi <= |out| && hi <= |out'| && Shape(out, hi, stack)
    requires forall k :: 0 <= k < hi ==> out'[k] == out[k]
    ensures Shape(out', hi, stack)
    decreases |stack|
  {
    if stack == [] {
      NestedFrame(out, out', 0, hi);
    } else {
      match Top(stack)
      case FHead(i) =>
        NestedFrame(out, out', i + 1, hi);
        ShapeFrame(out, out', i, Below(stack));
      case FTail(i, j) =>
        NestedFrame(out, out', i + 1, j);
        NestedFrame(out, out', j + 1, hi);
        ShapeFrame(out, out', i, Below(stack));
      case _ => ShapeFrame(out, out', hi, Below(stack));
    }
  }

  /** Nesting code may be added at the end; a store only when no conditional is open. */
  lemma {:induction false} ShapeExtend(out: seq<Op>, out': seq<Op>, lo: nat, hi: nat, stack: seq<Frame>)
    requires lo <= |out| && lo <= hi <= |out'| && Shape(out, lo, stack)
    requires forall k :: 0 <= k < lo ==> out'[k] == out[k]
    requires Nested(out', lo, hi) && (NoStore(out', lo, hi) || stack == [])
    ensures Shape(out', hi, stack)
    decreases |stack|
  {
    if stack == [] {
      NestedFrame(out, out', 0, lo);
      NestedConcat(out', 0, lo, hi);
    } else {
      match Top(stack)
      case FHead(i) =>
        NestedFrame(out, out', i + 1, lo);
        NestedConcat(out', i + 1, lo, hi);
        ShapeFrame(out, out', i, Below(stack));
      case FTail(i, j) =>
        NestedFrame(out, out', i + 1, j);
        NestedFrame(out, out', j + 1, lo);
        NestedConcat(out', j + 1, lo, hi);
        ShapeFrame(out, out', i, Below(stack));
      case _ => ShapeExtend(out, out', lo, hi, Below(stack));
    }
  }

  lemma {:induction false} ShapeChop(out: seq<Op>, hi: nat, stack: seq<Frame>)
    requires 0 < hi <= |out| && Shape(out, hi, stack) && out[hi - 1].Arg?
    ensures Shape(out, hi - 1, stack)
    decreases |stack|
  {
    if stack == [] {
      NestedChop(out, 0, hi);
    } else {
      match Top(stack)
      case FHead(i) => NestedChop(out, i + 1, hi);
      case FTail(i, j) => NestedChop(out, j + 1, hi);
      case _ => ShapeChop(out, hi, Below(stack));
    }
  }

  /** Appending one plain instruction. */
  lemma {:induction false} ShapePush(out: seq<Op>, op: Op, stack: seq<Frame>)
    requires Shape(out, |out|, stack) && !IsCond(op) && (!op.Store? || stack == [])
    ensures Shape(out + [op], |out| + 1, stack)
  {
    ShapeExtend(out, out + [op], |out|, |out| + 1, stack);
  }

  lemma {:induction false} TailShape(out: seq<Op>, stack: seq<Frame>)
    requires stack != [] && Top(stack).FTail? && Shape(out, |out|, stack)
    ensures var FTail(i, j) := Top(stack);
            && i < j < |out| && Nested(out, i + 1, j) && Nested(out, j + 1, |out|) && NoStore(out, i, |out|)
            && Shape(out, i, Below(stack))
  {
  }

  /** A whole conditional at the end of the output. */
  lemma {:induction false} CondNests(ops: seq<Op>, i: nat, j: nat)
    requires i < j < |ops| - 1 && ops[i] == CondIf(j + 1) && ops[j] == CondElse(|ops|) && ops[|ops| - 1].CondEnd?
    requires Nested(ops, i + 1, j) && Nested(ops, j + 1, |ops| - 1) && NoStore(ops, i, |ops| - 1)
    ensures Nested(ops, i, |ops|)
  {
    assert CondAt(ops, i, |ops|) && ElseIdx(ops, i) == j && EndIdx(ops, i) == |ops| - 1;
  }

  /** Finalizing the conditional on top turns it into one nested piece of code. */
  lemma {:induction false} FinalizeKeeps(out: seq<Op>, stack: seq<Frame>)
    requires stack != [] && Top(stack).FTail? && Shape(out, |out|, stack)
    ensures var f := Top(stack); var out' := FinalizeCond(out, f.ifIdx, f.elseIdx);
            Shape(out', |out'|, Below(stack))
  {
    var FTail(i, j) := Top(stack);
    var out' := FinalizeCond(out, i, j);
    assert Nested(out', |out'|, |out'|);
    TailShape(out, stack);
    hide Shape, Nested;
    NestedFrame(out, out', i + 1, j);
    NestedFrame(out, out', j + 1, |out|);
    CondNests(out', i, j);
    ShapeExtend(out, out', i, |out'|, Below(stack));
  }

  lemma {:induction false} FramesBelow(stack: seq<Frame>, n: nat)
    requires stack != [] && FramesOk(stack, n)
    ensures FramesOk(Below(stack), n)
    ensures Top(stack).FOp? && Top(stack).op.Store? ==> AllHeads(Below(stack))
  {
    forall k | 0 <= k < |Below(stack)| && Below(stack)[k].FOp?
      ensures (IsOperator(Below(stack)[k].op) || Below(stack)[k].op.Store?) && SlotOk(Below(stack)[k].op, n)
      ensures Below(stack)[k].op.Store? ==> AllHeads(Below(stack)[..k])
    {
      assert stack[k] == Below(stack)[k] && Below(stack)[..k] == stack[..k];
    }
  }

  lemma {:induction false} FramesPush(stack: seq<Frame>, f: Frame, n: nat)
    requires FramesOk(stack, n)
    requires f.FOp? ==> (IsOperator(f.op) || (f.op.Store? && AllHeads(stack))) && SlotOk(f.op, n)
    ensures FramesOk(stack + [f], n)
  {
    var s := stack + [f];
    forall k | 0 <= k < |s| && s[k].FOp?
      ensures (IsOperator(s[k].op) || s[k].op.Store?) && SlotOk(s[k].op, n)
      ensures s[k].op.Store? ==> AllHeads(s[..k])
    {
      if k < |stack| {
        assert s[k] == stack[k] && s[..k] == stack[..k];
      } else {
        assert s[..k] == stack;
      }
    }
  }

  /** Moving an operator or a completed conditional to the output. */
  lemma {:induction false} EmitKeeps(out: seq<Op>, stack: seq<Frame>, n: nat)
    requires stack != [] && Inv(out, stack, n)
    requires Top(stack).FTail? || (Top(stack).FOp? && (!Top(stack).op.Store? || Below(stack) == []))
    ensures Inv(Emit(out, Top(stack)), Below(stack), n)
  {
    FramesBelow(stack, n);
    if Top(stack).FOp? {
      ShapePush(out, Top(stack).op, Below(stack));
    } else {
      FinalizeKeeps(out, stack);
    }
  }

  // ----- The flushes -----

  lemma {:induction false} PopWhileKeeps(out: seq<Op>, stack: seq<Frame>, prec: nat, left: bool, n: nat)
    requires Inv(out, stack, n) && (prec >= 1 || !left)
    ensures var r := PopWhile(out, stack, prec, left); Inv(r.0, r.1, n)
    decreases |stack|
  {
    if stack != [] && Top(stack).FOp? && !Top(stack).op.Store? {
      EmitKeeps(out, stack, n);
      PopWhileKeeps(out + [Top(stack).op], Below(stack), prec, left, n);
    }
  }

  lemma {:induction false} FlushToParenKeeps(out: seq<Op>, stack: seq<Frame>, n: nat)
    requires Inv(out, stack, n)
    ensures var r := FlushToParen(out, stack);
            r.Some? ==> r.value.1 != [] && Top(r.value.1).FParen? && Inv(r.value.0, r.value.1, n)
    decreases |stack|
  {
    if stack != [] && (Top(stack).FTail? || Top(stack).FOp?) {
      FramesBelow(stack, n);
      if Top(stack).FTail? || !Top(stack).op.Store? {
        EmitKeeps(out, stack, n);
        FlushToParenKeeps(Emit(out, Top(stack)), Below(stack), n);
      }
    }
  }

  lemma {:induction false} FlushAllKeeps(out: seq<Op>, stack: seq<Frame>, n: nat)
    requires Inv(out, stack, n)
    ensures var r := FlushAll(out, stack); r.Some? ==> Inv(r.value, [], n)
    decreases |stack|
  {
    if stack != [] && (Top(stack).FTail? || Top(stack).FOp?) {
      FramesBelow(stack, n);
      if Top(stack).FTail? || !Top(stack).op.Store? || Below(stack) == [] {
        EmitKeeps(out, stack, n);
        FlushAllKeeps(Emit(out, Top(stack)), Below(stack), n);
      }
    }
  }

  lemma {:induction false} FlushToHeadKeeps(out: seq<Op>, stack: seq<Frame>, held: seq<Op>, n: nat)
    requires Inv(out, stack, n)
    requires held == [] || (|held| == 1 && held[0].Store? && SlotOk(held[0], n) && AllHeads(stack))
    ensures var r := FlushToHead(out, stack, held); r.Some? ==> Inv(r.value.0, r.value.1, n)
    decreases |stack|
  {
    if stack != [] {
      FramesBelow(stack, n);
      match Top(stack)
      case FHead(i) => HeadAnswered(out, stack, held, n);
      case FTail(_, _) =>
        EmitKeeps(out, stack, n);
        FlushToHeadKeeps(Emit(out, Top(stack)), Below(stack), held, n);
      case FOp(op) =>
        if op.Store? {
          assert held + [op] == [op];
          FlushToHeadKeeps(out, Below(stack), held + [op], n);
        } else {
          EmitKeeps(out, stack, n);
          FlushToHeadKeeps(Emit(out, Top(stack)), Below(stack), held, n);
        }
      case _ =>
    }
  }

  /** The `:` closes the then-branch and puts a held store beneath the conditional. */
  lemma {:induction false} HeadAnswered(out: seq<Op>, stack: seq<Frame>, held: seq<Op>, n: nat)
    requires stack != [] && Top(stack).FHead? && Inv(out, stack, n)
    requires held == [] || (|held| == 1 && held[0].Store? && SlotOk(held[0], n) && AllHeads(stack))
    ensures Inv(out + [CondElse(0)], Below(stack) + Restored(held) + [FTail(Top(stack).ifIdx, |out|)], n)
  {
    var i := Top(stack).ifIdx;
    var out' := out + [CondElse(0)];
    FramesBelow(stack, n);
    var rest := Below(stack) + Restored(held);
    ShapeFrame(out, out', i, Below(stack));
    if held == [] {
      assert rest == Below(stack);
    } else {
      assert rest == Below(stack) + [FOp(held[0])];
      assert Top(rest) == FOp(held[0]) && Below(rest) == Below(stack);
      FramesPush(Below(stack), FOp(held[0]), n);
    }
    FramesPush(rest, FTail(i, |out|), n);
    NestedFrame(out, out', i + 1, |out|);
    var s := rest + [FTail(i, |out|)];
    assert Top(s) == FTail(i, |out|) && Below(s) == rest;
  }

  // ----- Tokens -----

  lemma {:induction false} PushKeeps(out: seq<Op>, stack: seq<Frame>, f: Frame, n: nat)
    requires Inv(out, stack, n) && (f.FParen? || f.FFunc? || f.FOp?)
    requires f.FOp? ==> (IsOperator(f.op) || (f.op.Store? && AllHeads(stack))) && SlotOk(f.op, n)
    ensures Inv(out, stack + [f], n)
  {
    FramesPush(stack, f, n);
    assert Top(stack + [f]) == f && Below(stack + [f]) == stack;
  }

  lemma {:induction false} OperandKeeps(out: seq<Op>, stack: seq<Frame>, op: Op, n: nat)
    requires Inv(out, stack, n) && !IsCond(op) && !op.Store? && SlotOk(op, n)
    ensures Inv(out + [op], stack, n)
  {
    ShapePush(out, op, stack);
  }

  lemma {:induction false} OperatorKeeps(p: Parser, op: Op, n: nat)
    requires Inv(p.out, p.stack, n) && (op.Pre? || op.Inf?)
    ensures var q := PushOperator(p, op); Inv(q.out, q.stack, n)
  {
    PopWhileKeeps(p.out, p.stack, Prec(op), !op.Pre?, n);
    var (out, stack) := PopWhile(p.out, p.stack, Prec(op), !op.Pre?);
    PushKeeps(out, stack, FOp(op), n);
  }

  lemma {:induction false} QuestionKeeps(out: seq<Op>, stack: seq<Frame>, n: nat)
    requires Inv(out, stack, n)
    ensures Inv(out + [CondIf(0)], stack + [FHead(|out|)], n)
  {
    var out' := out + [CondIf(0)];
    ShapeFrame(out, out', |out|, stack);
    FramesPush(stack, FHead(|out|), n);
    var s := stack + [FHead(|out|)];
    assert Top(s) == FHead(|out|) && Below(s) == stack;
  }

  lemma {:induction false} AssignKeeps(p: Parser, n: nat)
    requires Inv(p.out, p.stack, n) && OnAssign(p).Some?
    ensures Inv(OnAssign(p).value.out, OnAssign(p).value.stack, n)
  {
    var k := |p.out| - 1;
    var out := p.out[..k];
    ShapeChop(p.out, |p.out|, p.stack);
    ShapeFrame(p.out, out, k, p.stack);
    PushKeeps(out, p.stack, FOp(Store(p.out[k].slot)), n);
  }

  lemma {:induction false} CloseKeeps(p: Parser, n: nat)
    requires Inv(p.out, p.stack, n) && OnClose(p).Some?
    ensures Inv(OnClose(p).value.out, OnClose(p).value.stack, n)
  {
    hide Nested;
    FlushToParenKeeps(p.out, p.stack, n);
    var (out, stack) := FlushToParen(p.out, p.stack).value;
    FramesBelow(stack, n);
    var rest := Below(stack);
    assert Shape(out, |out|, rest);
    if rest != [] && Top(rest).FFunc? {
      FramesBelow(rest, n);
      assert Shape(out, |out|, Below(rest));
      var k := |p.counts|;
      OperandKeeps(out, Below(rest), CallOp(Top(rest).fn, (if k == 0 then 0 else p.counts[k - 1]) + 1), n);
    }
  }

  predicate TokenOk(t: Token, n: nat) {
    t.TArg? ==> t.slot < n
  }

  /** Every token the compiler accepts keeps the invariant. */
  lemma {:induction false} TokenKeeps(p: Parser, t: Token, n: nat)
    requires Inv(p.out, p.stack, n) && TokenOk(t, n) && OnToken(p, t).Some?
    ensures var q := OnToken(p, t).value; Inv(q.out, q.stack, n)
  {
    hide Inv;
    match t
    case TArg(i) => OperandKeeps(p.out, p.stack, Arg(i), n);
    case TNum(v) => OperandKeeps(p.out, p.stack, Lit(v), n);
    case TIdent(id) => IdentKeeps(p, id, n);
    case TOpen => PushKeeps(p.out, p.stack, FParen, n);
    case TClose => CloseKeeps(p, n);
    case TQuestion =>
      PopWhileKeeps(p.out, p.stack, 0, false, n);
      var (out, stack) := PopWhile(p.out, p.stack, 0, false);
      QuestionKeeps(out, stack, n);
    case TColon => FlushToHeadKeeps(p.out, p.stack, [], n);
    case TAssign => AssignKeeps(p, n);
    case TSemi => FlushAllKeeps(p.out, p.stack, n);
    case TComma => FlushToParenKeeps(p.out, p.stack, n);
    case TSym(s) => OperatorKeeps(p, ToOp(s, p.expectOperand).value, n);
  }

  lemma {:induction false} IdentKeeps(p: Parser, id: Ident, n: nat)
    requires Inv(p.out, p.stack, n) && OnIdent(p, id).Some?
    ensures var q := OnIdent(p, id).value; Inv(q.out, q.stack, n)
  {
    hide Inv;
    match id
    case Constant(v) => OperandKeeps(p.out, p.stack, Lit(v), n);
    case Random => OperandKeeps(p.out, p.stack, Rndm, n);
    case WordNot => OperatorKeeps(p, Pre(NotB), n);
    case WordAnd => OperatorKeeps(p, Inf(AndB), n);
    case WordOr => OperatorKeeps(p, Inf(OrB), n);
    case WordXor => OperatorKeeps(p, Inf(XorB), n);
    case Function(fn) => PushKeeps(p.out, p.stack, FFunc(fn), n);
  }

  lemma {:induction false} FeedKeeps(p: Parser, toks: seq<Token>, n: nat)
    requires Inv(p.out, p.stack, n) && Feed(p, toks).Some?
    requires forall i :: 0 <= i < |toks| ==> TokenOk(toks[i], n)
    ensures var q := Feed(p, toks).value; Inv(q.out, q.stack, n)
    decreases |toks|
  {
    hide Inv, OnToken;
    if toks != [] {
      TokenKeeps(p, toks[0], n);
      FeedKeeps(OnToken(p, toks[0]).value, toks[1..], n);
    }
  }

  // ----- What reaches the checker -----

  /** Whatever the tokens, code that reaches the checker nests: conditionals pair up with
      their own targets and contain no store, and every operand exists. */
  lemma {:induction false} EmittedNests(toks: seq<Token>, n: nat)
    requires Emitted(toks).Some? && forall i :: 0 <= i < |toks| ==> TokenOk(toks[i], n)
    ensures var ops := Emitted(toks).value; Nested(ops, 0, |ops|) && SlotsBelow(ops, n)
  {
    FeedKeeps(INITIAL, toks, n);
    var p := Feed(INITIAL, toks).value;
    FlushAllKeeps(p.out, p.stack, n);
  }

  /** On nested code the checker's structural tests never fail: its "malformed target"
      verdict is unreachable from the compiler. */
  lemma {:induction false} NestedNeverMalformed(ops: seq<Op>, lo: nat, hi: nat, depth: nat)
    requires lo <= hi <= |ops| && Nested(ops, lo, hi)
    ensures !Segment(ops, lo, hi, depth).Malformed?
    decreases hi - lo
  {
    if lo < hi {
      if ops[lo].CondIf? {
        if depth >= 1 {
          NestedNeverMalformed(ops, lo + 1, ElseIdx(ops, lo), depth - 1);
          NestedNeverMalformed(ops, ElseIdx(ops, lo) + 1, EndIdx(ops, lo), depth - 1);
          NestedNeverMalformed(ops, EndIdx(ops, lo) + 1, hi, depth);
        }
      } else if ops[lo].Store? {
        if depth >= 1 {
          NestedNeverMalformed(ops, lo + 1, hi, depth - 1);
        }
      } else if depth >= Arity(ops[lo]) {
        NestedNeverMalformed(ops, lo + 1, hi, depth - Arity(ops[lo]) + 1);
      }
    }
  }

  /** End to end: any accepted expression halts on any operands with one value, or none if
      the expression is empty. */
  lemma {:induction false} CompiledProgramsHalt(env: Env, toks: seq<Token>, args: seq<Num>)
    requires Compiled(toks).Some? && forall i :: 0 <= i < |toks| ==> TokenOk(toks[i], |args|)
    ensures var ops := Compiled(toks).value;
            var r := Run(env, ops, Start(args));
            && Segment(ops, 0, |ops|, 0).Depth?
            && r.Halted? && r.m.ip == |ops| && |r.m.stack| == if ops == [] then 0 else 1
  {
    EmittedNests(toks, |args|);
    AcceptedProgramsHalt(env, Compiled(toks).value, args);
  }
}
