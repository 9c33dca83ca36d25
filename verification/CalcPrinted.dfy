/** Compiling a printed tree yields exactly the code the tree denotes. */
module CalcPrinted {
  import opened CalcOp
  import opened CalcParser
  import opened CalcTree
  import opened Options
  import opened Seqs

  // ----- What the compiler holds after reading an expression -----

  /** The instructions already emitted once the tokens of `e` have been read. */
  function Now(e: Expr, base: nat): seq<Op>
    decreases e, 0
  {
    match e
    case EPre(_, _, e1) => NowAt(e1, PREFIX_PREC, base)
    case EInf(_, i, l, r) =>
      var left := Code(l, base);
      left + NowAt(r, InfixPrec(i) + 1, base + |left|)
    case ECond(c, t, f) =>
      var cond := Code(c, base);
      var then' := Code(t, base + |cond| + 1);
      Opened(cond, then') + Now(f, base + |cond| + 1 + |then'| + 1)
    case _ => Code(e, base)
  }

  /** A conditional read up to its `:`, with neither target known yet. */
  function Opened(cond: seq<Op>, then': seq<Op>): seq<Op> {
    cond + [CondIf(0)] + then' + [CondElse(0)]
  }

  function NowAt(e: Expr, m: nat, base: nat): seq<Op>
    decreases e, 1
  {
    if Level(e) < m then Code(e, base) else Now(e, base)
  }

  /** The frames still pending on the operator stack at that point. */
  function Pend(e: Expr, base: nat): seq<Frame>
    decreases e, 0
  {
    match e
    case EPre(_, p, e1) => [FOp(Pre(p))] + PendAt(e1, PREFIX_PREC, base)
    case EInf(_, i, l, r) => [FOp(Inf(i))] + PendAt(r, InfixPrec(i) + 1, base + |Code(l, base)|)
    case ECond(c, t, f) =>
      var ifIdx := base + |Code(c, base)|;
      var elseIdx := ifIdx + 1 + |Code(t, ifIdx + 1)|;
      [FTail(ifIdx, elseIdx)] + Pend(f, elseIdx + 1)
    case _ => []
  }

  function PendAt(e: Expr, m: nat, base: nat): seq<Frame>
    decreases e, 1
  {
    if Level(e) < m then [] else Pend(e, base)
  }

  function After(p: Parser, e: Expr, m: nat): Parser {
    p.(out := p.out + NowAt(e, m, |p.out|), stack := p.stack + PendAt(e, m, |p.out|), expectOperand := false)
  }

  // ----- Flushing -----

  /** Operators and completed conditionals, never a store. */
  predicate Flushable(fs: seq<Frame>) {
    forall i :: 0 <= i < |fs| ==> (fs[i].FOp? && !fs[i].op.Store?) || fs[i].FTail?
  }

  function Flush(out: seq<Op>, fs: seq<Frame>): seq<Op>
    requires Flushable(fs)
    decreases |fs|
  {
    if fs == [] then out else Flush(Emit(out, Top(fs)), Below(fs))
  }

  lemma {:induction false} FlushBottom(out: seq<Op>, f: Frame, fs: seq<Frame>)
    requires (f.FOp? && !f.op.Store?) || f.FTail?
    requires Flushable(fs)
    ensures Flushable([f] + fs)
    ensures Flush(out, [f] + fs) == Emit(Flush(out, fs), f)
    decreases |fs|
  {
    if fs == [] {
      assert [f] + fs == [f];
      assert Below([f]) == [];
    } else {
      assert Top([f] + fs) == Top(fs) && Below([f] + fs) == [f] + Below(fs);
      FlushBottom(Emit(out, Top(fs)), f, Below(fs));
    }
  }

  lemma {:induction false} FlushToParenOver(out: seq<Op>, stack: seq<Frame>, fs: seq<Frame>)
    requires stack != [] && Top(stack) == FParen && Flushable(fs)
    ensures FlushToParen(out, stack + fs) == Some((Flush(out, fs), stack))
    decreases |fs|
  {
    if fs == [] {
      assert stack + fs == stack;
    } else {
      assert Top(stack + fs) == Top(fs) && Below(stack + fs) == stack + Below(fs);
      FlushToParenOver(Emit(out, Top(fs)), stack, Below(fs));
    }
  }

  lemma {:induction false} FlushAllOver(out: seq<Op>, stack: seq<Frame>, fs: seq<Frame>)
    requires Flushable(fs)
    ensures FlushAll(out, stack + fs) == FlushAll(Flush(out, fs), stack)
    decreases |fs|
  {
    if fs == [] {
      assert stack + fs == stack;
    } else {
      assert Top(stack + fs) == Top(fs) && Below(stack + fs) == stack + Below(fs);
      FlushAllOver(Emit(out, Top(fs)), stack, Below(fs));
    }
  }

  lemma {:induction false} FlushToHeadOver(out: seq<Op>, stack: seq<Frame>, fs: seq<Frame>, held: seq<Op>)
    requires stack != [] && Flushable(fs)
    ensures FlushToHead(out, stack + fs, held) == FlushToHead(Flush(out, fs), stack, held)
    decreases |fs|
  {
    if fs == [] {
      assert stack + fs == stack;
    } else {
      assert Top(stack + fs) == Top(fs) && Below(stack + fs) == stack + Below(fs);
      FlushToHeadOver(Emit(out, Top(fs)), stack, Below(fs), held);
    }
  }

  /** Whether an incoming operator of this precedence pops the frame. */
  predicate Yields(f: Frame, prec: nat, left: bool) {
    f.FOp? && if left then Prec(f.op) >= prec else Prec(f.op) > prec
  }

  predicate AllYield(fs: seq<Frame>, prec: nat, left: bool) {
    forall i :: 0 <= i < |fs| ==> Yields(fs[i], prec, left)
  }

  lemma {:induction false} PopWhileOver(out: seq<Op>, stack: seq<Frame>, fs: seq<Frame>, prec: nat, left: bool)
    requires Flushable(fs) && AllYield(fs, prec, left)
    requires stack == [] || !Yields(Top(stack), prec, left)
    ensures PopWhile(out, stack + fs, prec, left) == (Flush(out, fs), stack)
    decreases |fs|
  {
    if fs == [] {
      assert stack + fs == stack;
    } else {
      assert Top(stack + fs) == Top(fs) && Below(stack + fs) == stack + Below(fs);
      PopWhileOver(Emit(out, Top(fs)), stack, Below(fs), prec, left);
    }
  }

  // ----- The pending frames complete the expression -----

  lemma {:induction false} PendShape(e: Expr, base: nat)
    ensures Flushable(Pend(e, base))
    ensures forall i :: Level(e) >= 1 && 0 <= i < |Pend(e, base)| ==>
              Pend(e, base)[i].FOp? && Prec(Pend(e, base)[i].op) >= Level(e)
    decreases e
  {
    match e
    case EPre(_, _, e1) => PendShape(e1, base);
    case EInf(_, i, l, r) => PendShape(r, base + |Code(l, base)|);
    case ECond(c, t, f) =>
      var elseIdx := base + |Code(c, base)| + 1 + |Code(t, base + |Code(c, base)| + 1)|;
      PendShape(f, elseIdx + 1);
    case _ =>
  }

  lemma {:induction false} PendAtFlushes(e: Expr, m: nat, out: seq<Op>)
    ensures Flushable(PendAt(e, m, |out|))
    ensures Flush(out + NowAt(e, m, |out|), PendAt(e, m, |out|)) == out + Code(e, |out|)
    decreases e, 2
  {
    if Level(e) >= m {
      PendFlushes(e, out);
    }
  }

  lemma {:induction false} PendFlushes(e: Expr, out: seq<Op>)
    ensures Flushable(Pend(e, |out|))
    ensures Flush(out + Now(e, |out|), Pend(e, |out|)) == out + Code(e, |out|)
    decreases e, 1
  {
    match e
    case EPre(_, p, e1) =>
      PendAtFlushes(e1, PREFIX_PREC, out);
      FlushBottom(out + Now(e, |out|), FOp(Pre(p)), PendAt(e1, PREFIX_PREC, |out|));
      assert out + Code(e1, |out|) + [Pre(p)] == out + Code(e, |out|);
    case EInf(tok, i, l, r) => InfFlushes(e, out);
    case ECond(c, t, f) => CondFlushes(e, out);
    case _ =>
  }

  lemma {:induction false} InfFlushes(e: Expr, out: seq<Op>)
    requires e.EInf?
    ensures Flushable(Pend(e, |out|))
    ensures Flush(out + Now(e, |out|), Pend(e, |out|)) == out + Code(e, |out|)
    decreases e, 0
  {
    var m, left := InfixPrec(e.i) + 1, Code(e.l, |out|);
    var base := |out| + |left|;
    assert |out + left| == base;
    PendAtFlushes(e.r, m, out + left);
    InfStep(out, left, NowAt(e.r, m, base), PendAt(e.r, m, base), Code(e.r, base), e.i);
  }

  lemma {:induction false} InfStep(out: seq<Op>, left: seq<Op>, now: seq<Op>, pend: seq<Frame>, right: seq<Op>,
                                   i: Infix)
    requires Flushable(pend) && Flush(out + left + now, pend) == out + left + right
    ensures Flushable([FOp(Inf(i))] + pend)
    ensures Flush(out + (left + now), [FOp(Inf(i))] + pend) == out + (left + right + [Inf(i)])
  {
    Assoc(out, left, now);
    FlushBottom(out + left + now, FOp(Inf(i)), pend);
    Assoc4(out, left, right, [Inf(i)]);
  }

  /** The conditional case: once the else-branch is flushed, both targets are patched in. */
  lemma {:induction false} CondFlushes(e: Expr, out: seq<Op>)
    requires e.ECond?
    ensures Flushable(Pend(e, |out|))
    ensures Flush(out + Now(e, |out|), Pend(e, |out|)) == out + Code(e, |out|)
    decreases e, 0
  {
    hide *;
    var cond := Code(e.c, |out|);
    var then' := Code(e.t, |out| + |cond| + 1);
    var base := |out| + |cond| + 1 + |then'| + 1;
    OpenedLength(cond, then');
    PendFlushes(e.f, out + Opened(cond, then'));
    CondUnfold(e, |out|);
    CondStep(out, cond, then', Now(e.f, base), Pend(e.f, base), Code(e.f, base));
  }

  lemma {:induction false} OpenedLength(cond: seq<Op>, then': seq<Op>)
    ensures |Opened(cond, then')| == |cond| + 1 + |then'| + 1
  {
  }

  lemma {:induction false} CondUnfold(e: Expr, base: nat)
    requires e.ECond?
    ensures var cond := Code(e.c, base);
            var then' := Code(e.t, base + |cond| + 1);
            var elseIdx := base + |cond| + 1 + |then'|;
            && Now(e, base) == Opened(cond, then') + Now(e.f, elseIdx + 1)
            && Pend(e, base) == [FTail(base + |cond|, elseIdx)] + Pend(e.f, elseIdx + 1)
            && Code(e, base) == CondCode(cond, then', Code(e.f, elseIdx + 1), elseIdx + 1)
  {
  }

  lemma {:induction false} CondStep(out: seq<Op>, cond: seq<Op>, then': seq<Op>, now: seq<Op>, pend: seq<Frame>,
                                    else': seq<Op>)
    requires Flushable(pend)
    requires Flush(out + Opened(cond, then') + now, pend) == out + Opened(cond, then') + else'
    ensures var elseIdx := |out| + |cond| + 1 + |then'|;
            var tail := FTail(|out| + |cond|, elseIdx);
            && Flushable([tail] + pend)
            && Flush(out + (Opened(cond, then') + now), [tail] + pend)
              == out + CondCode(cond, then', else', elseIdx + 1)
  {
    hide Opened, CondCode, Flush, FinalizeCond;
    var elseIdx := |out| + |cond| + 1 + |then'|;
    Assoc(out, Opened(cond, then'), now);
    FlushBottom(out + Opened(cond, then') + now, FTail(|out| + |cond|, elseIdx), pend);
    CondPatched(out, cond, then', else');
  }

  lemma {:induction false} UpdateMiddle(a: seq<Op>, x: Op, b: seq<Op>, y: Op)
    ensures (a + [x] + b)[|a| := y] == a + [y] + b
  {
  }

  lemma {:induction false} OpenedIs(out: seq<Op>, cond: seq<Op>, then': seq<Op>, else': seq<Op>)
    ensures out + Opened(cond, then') + else' + [CondEnd]
            == (out + cond) + [CondIf(0)] + (then' + [CondElse(0)] + (else' + [CondEnd]))
  {
  }

  lemma {:induction false} CondCodeIs(out: seq<Op>, cond: seq<Op>, then': seq<Op>, else': seq<Op>, at: nat)
    ensures (out + cond + [CondIf(at)] + then') + [CondElse(at + |else'| + 1)] + (else' + [CondEnd])
            == out + CondCode(cond, then', else', at)
  {
  }

  lemma {:induction false} CondPatched(out: seq<Op>, cond: seq<Op>, then': seq<Op>, else': seq<Op>)
    ensures var elseIdx := |out| + |cond| + 1 + |then'|;
            FinalizeCond(out + Opened(cond, then') + else', |out| + |cond|, elseIdx)
            == out + CondCode(cond, then', else', elseIdx + 1)
  {
    var elseIdx := |out| + |cond| + 1 + |then'|;
    var ifOp, elseOp := CondIf(elseIdx + 1), CondElse(elseIdx + 1 + |else'| + 1);
    var tail := else' + [CondEnd];
    var rest := then' + [CondElse(0)] + tail;
    OpenedIs(out, cond, then', else');
    CondCodeIs(out, cond, then', else', elseIdx + 1);
    assert |out + Opened(cond, then') + else'| == elseIdx + 1 + |else'|;
    hide Opened, CondCode;
    UpdateMiddle(out + cond, CondIf(0), rest, ifOp);
    var head := out + cond + [ifOp] + then';
    assert (out + cond) + [ifOp] + rest == head + [CondElse(0)] + tail;
    UpdateMiddle(head, CondElse(0), tail, elseOp);
  }

  // ----- Reading an expression -----

  /** Nothing on top of the stack can be popped by an operator of level `m` or more, and no
      function name is waiting for its parenthesis. */
  predicate Ready(stack: seq<Frame>, m: nat) {
    stack == [] || (
      && !Top(stack).FFunc?
      && (Top(stack).FOp? ==> if m >= PREFIX_PREC then Prec(Top(stack).op) <= PREFIX_PREC
                              else Prec(Top(stack).op) < (if m == 0 then 1 else m)))
  }

  /** The state once `e` has been read but its pending frames not yet flushed. */
  function Read(p: Parser, e: Expr): Parser {
    p.(out := p.out + Now(e, |p.out|), stack := p.stack + Pend(e, |p.out|), expectOperand := false)
  }

  /** The state once the code of an operand is complete. */
  function Done(p: Parser, code: seq<Op>): Parser {
    p.(out := p.out + code, expectOperand := false)
  }

  lemma {:induction false} FeedOne(p: Parser, t: Token)
    ensures Feed(p, [t]) == OnToken(p, t)
  {
    assert [t][1..] == [];
    if OnToken(p, t).Some? {
      assert Feed(OnToken(p, t).value, []) == Some(OnToken(p, t).value);
    }
  }

  lemma {:induction false} FeedTwo(p: Parser, a: seq<Token>, b: seq<Token>, q: Parser)
    requires Feed(p, a) == Some(q)
    ensures Feed(p, a + b) == Feed(q, b)
  {
    FeedAppend(p, a, b);
  }

  /** Read `a`, then one token, then `b`. */
  lemma {:induction false} FeedAround(p: Parser, a: seq<Token>, t: Token, b: seq<Token>, q: Parser, r: Parser)
    requires Feed(p, a) == Some(q) && OnToken(q, t) == Some(r)
    ensures Feed(p, a + [t] + b) == Feed(r, b)
  {
    hide *;
    FeedTwo(p, a, [t], q);
    FeedOne(q, t);
    FeedTwo(p, a + [t], b, r);
  }

  lemma {:induction false} DoneFlush(e: Expr, m: nat, out: seq<Op>, stack: seq<Frame>, prec: nat, left: bool)
    requires m >= 1 && (if left then prec <= m else prec < m)
    requires stack == [] || !Yields(Top(stack), prec, left)
    ensures PopWhile(out + NowAt(e, m, |out|), stack + PendAt(e, m, |out|), prec, left) == (out + Code(e, |out|), stack)
  {
    PendAtFlushes(e, m, out);
    PendShape(e, |out|);
    assert AllYield(PendAt(e, m, |out|), prec, left);
    PopWhileOver(out + NowAt(e, m, |out|), stack, PendAt(e, m, |out|), prec, left);
  }

  /** An operator token read after its left operand. */
  lemma {:induction false} OperatorStep(p: Parser, l: Expr, m: nat, tok: Token, i: Infix)
    requires Denotes(tok, false) == Some(Inf(i)) && m == InfixPrec(i) && Ready(p.stack, m)
    ensures OnToken(After(p, l, m), tok)
            == Some(p.(out := p.out + Code(l, |p.out|), stack := p.stack + [FOp(Inf(i))], expectOperand := true))
  {
    var q := After(p, l, m);
    assert OnToken(q, tok) == Some(PushOperator(q, Inf(i)));
    DoneFlush(l, m, p.out, p.stack, m, true);
  }

  lemma {:induction false} PrefixStep(p: Parser, tok: Token, u: Prefix, m: nat)
    requires Denotes(tok, true) == Some(Pre(u)) && p.expectOperand && m <= PREFIX_PREC && Ready(p.stack, m)
    ensures OnToken(p, tok) == Some(p.(stack := p.stack + [FOp(Pre(u))]))
  {
    assert OnToken(p, tok) == Some(PushOperator(p, Pre(u)));
  }

  lemma {:induction false} QuestionStep(p: Parser, c: Expr)
    requires Ready(p.stack, 0)
    ensures OnToken(After(p, c, 1), TQuestion) == Some(Asked(p, Code(c, |p.out|)))
  {
    DoneFlush(c, 1, p.out, p.stack, 0, false);
  }

  /** The state just after `cond ?`. */
  function Asked(p: Parser, cond: seq<Op>): Parser {
    p.(out := p.out + cond + [CondIf(0)], stack := p.stack + [FHead(|p.out + cond|)], expectOperand := true)
  }

  /** The state just after `cond ? then :`. */
  function Answered(p: Parser, cond: seq<Op>, then': seq<Op>): Parser {
    p.(out := p.out + Opened(cond, then'),
       stack := p.stack + [FTail(|p.out| + |cond|, |p.out| + |cond| + 1 + |then'|)],
       expectOperand := true)
  }

  lemma {:induction false} ColonStep(p: Parser, cond: seq<Op>, t: Expr)
    ensures OnToken(Read(Asked(p, cond), t), TColon)
            == Some(Answered(p, cond, Code(t, |p.out| + |cond| + 1)))
  {
    hide Code, Now, Pend, Flush, Flushable;
    var q := Asked(p, cond);
    var then' := Code(t, |q.out|);
    assert |q.out| == |p.out| + |cond| + 1;
    assert Top(q.stack) == FHead(|p.out| + |cond|) && Below(q.stack) == p.stack;
    assert p.stack + Restored([]) == p.stack;
    assert q.out + then' + [CondElse(0)] == p.out + Opened(cond, then');
    PendFlushes(t, q.out);
    hide Opened, Restored;
    FlushToHeadOver(q.out + Now(t, |q.out|), q.stack, Pend(t, |q.out|), []);
  }

  lemma {:induction false} CloseStep(p: Parser, e: Expr)
    requires Ready(p.stack, PRIMARY)
    ensures OnToken(Read(OnOpen(p), e), TClose) == Some(Done(p, Code(e, |p.out|)))
  {
    var q := OnOpen(p);
    PendFlushes(e, p.out);
    FlushToParenOver(p.out + Now(e, |p.out|), p.stack + [FParen], Pend(e, |p.out|));
    assert Below(p.stack + [FParen]) == p.stack;
  }

  lemma {:induction false} PrintFeeds(e: Expr, m: nat, p: Parser)
    requires WellFormed(e) && p.expectOperand && Ready(p.stack, m)
    ensures Feed(p, Print(e, m)) == Some(After(p, e, m))
    decreases e, 3
  {
    if Level(e) < m {
      ParenFeeds(e, p);
      assert p.stack + [] == p.stack;
    } else {
      BareFeeds(e, m, p);
    }
  }

  /** A parenthesised expression is complete at its closing parenthesis. */
  lemma {:induction false} ParenFeeds(e: Expr, p: Parser)
    requires WellFormed(e) && p.expectOperand && Ready(p.stack, PRIMARY)
    ensures Feed(p, [TOpen] + Bare(e) + [TClose]) == Some(Done(p, Code(e, |p.out|)))
    decreases e, 2
  {
    var q := OnOpen(p);
    FeedOne(p, TOpen);
    FeedTwo(p, [TOpen], Bare(e), q);
    assert Top(q.stack) == FParen;
    BareFeeds(e, 0, q);
    CloseStep(p, e);
    FeedTwo(p, [TOpen] + Bare(e), [TClose], Read(q, e));
    FeedOne(Read(q, e), TClose);
  }

  lemma {:induction false} BareFeeds(e: Expr, m: nat, p: Parser)
    requires WellFormed(e) && p.expectOperand && Level(e) >= m && Ready(p.stack, m)
    ensures Feed(p, Bare(e)) == Some(Read(p, e))
    decreases e, 1
  {
    match e
    case EPre(_, _, _) => PreFeeds(e, m, p);
    case EInf(_, _, _, _) => InfFeeds(e, m, p);
    case ECond(_, _, _) => CondFeeds(e, p);
    case ECall(_, _) => CallFeeds(e, p);
    case EGroup(e1) =>
      ParenFeeds(e1, p);
      assert p.stack + [] == p.stack;
    case _ =>
      FeedOne(p, Bare(e)[0]);
      assert p.stack + [] == p.stack;
  }

  lemma {:induction false} PreFeeds(e: Expr, m: nat, p: Parser)
    requires e.EPre? && WellFormed(e) && p.expectOperand && PREFIX_PREC >= m && Ready(p.stack, m)
    ensures Feed(p, Bare(e)) == Some(Read(p, e))
    decreases e, 0
  {
    var q := p.(stack := p.stack + [FOp(Pre(e.p))]);
    PrefixStep(p, e.tok, e.p, m);
    FeedOne(p, e.tok);
    FeedTwo(p, [e.tok], Print(e.e, PREFIX_PREC), q);
    PrintFeeds(e.e, PREFIX_PREC, q);
    Assoc(p.stack, [FOp(Pre(e.p))], PendAt(e.e, PREFIX_PREC, |p.out|));
  }

  lemma {:induction false} InfFeeds(e: Expr, m: nat, p: Parser)
    requires e.EInf? && WellFormed(e) && p.expectOperand && InfixPrec(e.i) >= m && Ready(p.stack, m)
    ensures Feed(p, Bare(e)) == Some(Read(p, e))
    decreases e, 0
  {
    hide Code, Now, NowAt, Pend, PendAt, Bare, Print, Feed, OnToken, Read, After;
    var prec := InfixPrec(e.i);
    var left := Code(e.l, |p.out|);
    var q := p.(out := p.out + left, stack := p.stack + [FOp(Inf(e.i))], expectOperand := true);
    PrintFeeds(e.l, prec, p);
    OperatorStep(p, e.l, prec, e.tok, e.i);
    FeedAround(p, Print(e.l, prec), e.tok, Print(e.r, prec + 1), After(p, e.l, prec), q);
    PrintFeeds(e.r, prec + 1, q);
    InfRead(e, p);
  }

  /** Reading the right operand after `left op` is reading the whole operation. */
  lemma {:induction false} InfRead(e: Expr, p: Parser)
    requires e.EInf?
    ensures Bare(e) == Print(e.l, InfixPrec(e.i)) + [e.tok] + Print(e.r, InfixPrec(e.i) + 1)
    ensures After(p.(out := p.out + Code(e.l, |p.out|), stack := p.stack + [FOp(Inf(e.i))], expectOperand := true),
                  e.r, InfixPrec(e.i) + 1) == Read(p, e)
  {
    hide Code, NowAt, PendAt;
    var prec := InfixPrec(e.i);
    var left := Code(e.l, |p.out|);
    Assoc(p.out, left, NowAt(e.r, prec + 1, |p.out| + |left|));
    Assoc(p.stack, [FOp(Inf(e.i))], PendAt(e.r, prec + 1, |p.out| + |left|));
  }

  lemma {:induction false} CondFeeds(e: Expr, p: Parser)
    requires e.ECond? && WellFormed(e) && p.expectOperand && Ready(p.stack, 0)
    ensures Feed(p, Bare(e)) == Some(Read(p, e))
    decreases e, 0
  {
    hide Code, Now, NowAt, Pend, PendAt, Bare, Print, Feed, OnToken, Read, After, Opened, Flush;
    CondTokens(e);
    CondRead(e, p);
    var cond := Code(e.c, |p.out|);
    var then' := Code(e.t, |p.out| + |cond| + 1);
    PrintFeeds(e.c, 1, p);
    QuestionStep(p, e.c);
    var asked := Asked(p, cond);
    assert |asked.out| == |p.out| + |cond| + 1;
    var toThen := Print(e.c, 1) + [TQuestion] + Print(e.t, 0);
    FeedAround(p, Print(e.c, 1), TQuestion, Print(e.t, 0), After(p, e.c, 1), asked);
    assert Top(asked.stack).FHead?;
    BareFeeds(e.t, 0, asked);
    ColonStep(p, cond, e.t);
    var answered := Answered(p, cond, then');
    FeedAround(p, toThen, TColon, Print(e.f, 0), Read(asked, e.t), answered);
    assert Top(answered.stack).FTail?;
    BareFeeds(e.f, 0, answered);
  }

  lemma {:induction false} CondTokens(e: Expr)
    requires e.ECond?
    ensures Bare(e) == Print(e.c, 1) + [TQuestion] + Print(e.t, 0) + [TColon] + Print(e.f, 0)
    ensures Print(e.t, 0) == Bare(e.t) && Print(e.f, 0) == Bare(e.f)
  {
  }

  /** Reading the else-branch after `cond ? then :` is reading the whole conditional. */
  lemma {:induction false} CondRead(e: Expr, p: Parser)
    requires e.ECond?
    ensures var cond := Code(e.c, |p.out|);
            Read(Answered(p, cond, Code(e.t, |p.out| + |cond| + 1)), e.f) == Read(p, e)
  {
    hide Code, Now, Pend, Opened, CondCode;
    var cond := Code(e.c, |p.out|);
    var then' := Code(e.t, |p.out| + |cond| + 1);
    var elseIdx := |p.out| + |cond| + 1 + |then'|;
    CondUnfold(e, |p.out|);
    OpenedLength(cond, then');
    Assoc(p.out, Opened(cond, then'), Now(e.f, elseIdx + 1));
    Assoc(p.stack, [FTail(|p.out| + |cond|, elseIdx)], Pend(e.f, elseIdx + 1));
  }

  // ----- Calls -----

  function Bumped(counts: seq<nat>, k: nat): seq<nat>
    requires counts != []
  {
    counts[|counts| - 1 := counts[|counts| - 1] + k]
  }

  /** Inside a call: everything since its parenthesis flushes to the code of the arguments. */
  predicate ArgsRead(p: Parser, args: seq<Expr>, q: Parser)
    requires p.counts != [] && args != []
  {
    && FlushToParen(q.out, q.stack) == Some((p.out + CodeArgs(args, |p.out|), p.stack))
    && q.counts == Bumped(p.counts, |args| - 1)
    && q.starts == p.starts
  }

  lemma {:induction false} CommaStep(p: Parser, a: Expr)
    requires p.counts != [] && ArgsRead(p, [a], Read(p, a))
    ensures OnToken(Read(p, a), TComma)
            == Some(p.(out := p.out + Code(a, |p.out|), expectOperand := true, counts := Bumped(p.counts, 1)))
  {
    assert CodeArgs([a], |p.out|) == Code(a, |p.out|) + [];
    assert Code(a, |p.out|) + [] == Code(a, |p.out|);
  }

  lemma {:induction false} LastArgRead(p: Parser, a: Expr)
    requires p.counts != [] && p.stack != [] && Top(p.stack) == FParen
    ensures ArgsRead(p, [a], Read(p, a))
  {
    assert CodeArgs([a], |p.out|) == Code(a, |p.out|) + [];
    assert Code(a, |p.out|) + [] == Code(a, |p.out|);
    hide Now, Pend, Code, CodeArgs, Flush, FlushToParen, Flushable;
    PendFlushes(a, p.out);
    FlushToParenOver(p.out + Now(a, |p.out|), p.stack, Pend(a, |p.out|));
  }

  lemma {:induction false} ArgsUnfold(args: seq<Expr>, base: nat)
    requires args != []
    ensures Print(args[0], 0) == Bare(args[0])
    ensures |args| == 1 ==> PrintArgs(args) == Bare(args[0])
    ensures |args| > 1 ==> PrintArgs(args) == Bare(args[0]) + [TComma] + PrintArgs(args[1..])
    ensures var first := Code(args[0], base); CodeArgs(args, base) == first + CodeArgs(args[1..], base + |first|)
  {
  }

  lemma {:induction false} ArgsFeed(args: seq<Expr>, p: Parser) returns (q: Parser)
    requires args != [] && forall k :: 0 <= k < |args| ==> WellFormed(args[k])
    requires p.expectOperand && p.stack != [] && Top(p.stack) == FParen && p.counts != []
    ensures Feed(p, PrintArgs(args)) == Some(q) && ArgsRead(p, args, q)
    decreases args, 4
  {
    hide Code, Now, NowAt, Pend, PendAt, Bare, Print, Feed, OnToken, Read, CodeArgs, PrintArgs, FlushToParen;
    ArgsUnfold(args, |p.out|);
    BareFeeds(args[0], 0, p);
    LastArgRead(p, args[0]);
    if |args| == 1 {
      q := Read(p, args[0]);
      assert args == [args[0]];
    } else {
      CommaStep(p, args[0]);
      var r := p.(out := p.out + Code(args[0], |p.out|), expectOperand := true, counts := Bumped(p.counts, 1));
      FeedAround(p, Print(args[0], 0), TComma, PrintArgs(args[1..]), Read(p, args[0]), r);
      q := ArgsFeed(args[1..], r);
      Assoc(p.out, Code(args[0], |p.out|), CodeArgs(args[1..], |r.out|));
    }
  }

  lemma {:induction false} CodeNonEmpty(e: Expr, base: nat)
    ensures |Code(e, base)| >= 1
    decreases e
  {
    match e
    case EGroup(e1) => CodeNonEmpty(e1, base);
    case _ =>
  }

  lemma {:induction false} CodeArgsNonEmpty(args: seq<Expr>, base: nat)
    requires args != []
    ensures |CodeArgs(args, base)| >= 1
  {
    CodeNonEmpty(args[0], base);
  }

  lemma {:induction false} CallCloseStep(p: Parser, open: Parser, fn: Fn, args: seq<Expr>, q: Parser)
    requires args != [] && open == OnOpen(p.(stack := p.stack + [FFunc(fn)]))
    requires open.counts != [] && ArgsRead(open, args, q)
    ensures OnToken(q, TClose) == Some(Done(p, CodeArgs(args, |p.out|) + [CallOp(fn, |args|)]))
  {
    hide CodeArgs;
    CodeArgsNonEmpty(args, |p.out|);
    var rest := p.stack + [FFunc(fn)];
    assert Top(rest) == FFunc(fn) && Below(rest) == p.stack;
    assert open.stack == rest + [FParen] && Below(open.stack) == rest;
    assert q.counts == p.counts + [|args| - 1] && q.counts[..|p.counts|] == p.counts;
    assert q.starts == p.starts + [|p.out|] && q.starts[..|p.starts|] == p.starts;
    Assoc(p.out, CodeArgs(args, |p.out|), [CallOp(fn, |args|)]);
  }

  lemma {:induction false} CallFeeds(e: Expr, p: Parser)
    requires e.ECall? && WellFormed(e) && p.expectOperand
    ensures Feed(p, Bare(e)) == Some(Read(p, e))
    decreases e, 0
  {
    var named := p.(stack := p.stack + [FFunc(e.fn)]);
    var open := OnOpen(named);
    assert Top(named.stack) == FFunc(e.fn) && Top(open.stack) == FParen;
    var head := [TIdent(Function(e.fn)), TOpen];
    assert head == [TIdent(Function(e.fn))] + [TOpen];
    FeedOne(p, TIdent(Function(e.fn)));
    FeedTwo(p, [TIdent(Function(e.fn))], [TOpen], named);
    FeedOne(named, TOpen);
    var q := ArgsFeed(e.args, open);
    FeedTwo(p, head, PrintArgs(e.args), open);
    CallCloseStep(p, open, e.fn, e.args, q);
    FeedTwo(p, head + PrintArgs(e.args), [TClose], q);
    FeedOne(q, TClose);
    assert p.stack + [] == p.stack;
  }
}
