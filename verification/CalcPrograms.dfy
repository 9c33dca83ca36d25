/** Compiling a printed program: statements, stores and hoisted stores. */
module CalcPrograms {
  import opened CalcOp
  import opened CalcChecker
  import opened CalcParser
  import opened CalcTree
  import opened CalcPrinted
  import opened Options
  import opened Seqs

  /** The state once a store to `slot` of the value of `e` has been read: the store waits
      beneath whatever is still pending for `e`. */
  function StoreRead(p: Parser, slot: nat, e: Expr): Parser {
    p.(out := p.out + Now(e, |p.out|),
       stack := p.stack + [FOp(Store(slot))] + Pend(e, |p.out|),
       expectOperand := false)
  }

  lemma {:induction false} AssignStep(p: Parser, slot: nat)
    requires AllHeads(p.stack)
    ensures Feed(p, [TArg(slot), TAssign]) == Some(p.(stack := p.stack + [FOp(Store(slot))], expectOperand := true))
  {
    var q := PushOperand(p, Arg(slot));
    assert [TArg(slot), TAssign] == [TArg(slot)] + [TAssign];
    FeedOne(p, TArg(slot));
    FeedTwo(p, [TArg(slot)], [TAssign], q);
    FeedOne(q, TAssign);
    assert q.out[..|q.out| - 1] == p.out;
  }

  lemma {:induction false} HereFeeds(slot: nat, e: Expr, p: Parser)
    requires WellFormed(e) && AllHeads(p.stack)
    ensures Feed(p, [TArg(slot), TAssign] + Print(e, 0)) == Some(StoreRead(p, slot, e))
  {
    var q := p.(stack := p.stack + [FOp(Store(slot))], expectOperand := true);
    AssignStep(p, slot);
    FeedTwo(p, [TArg(slot), TAssign], Print(e, 0), q);
    assert Top(q.stack) == FOp(Store(slot));
    PrintFeeds(e, 0, q);
  }

  lemma {:induction false} HeldStore(out: seq<Op>, below: seq<Frame>, i: nat, slot: nat)
    ensures FlushToHead(out, below + [FHead(i)] + [FOp(Store(slot))], [])
            == Some((out + [CondElse(0)], below + [FOp(Store(slot))] + [FTail(i, |out|)]))
  {
    var head := below + [FHead(i)];
    var stack := head + [FOp(Store(slot))];
    assert Top(stack) == FOp(Store(slot)) && Below(stack) == head;
    assert Top(head) == FHead(i) && Below(head) == below;
    assert [] + [Store(slot)] == [Store(slot)];
    assert Restored([Store(slot)]) == [FOp(Store(slot))];
  }

  /** At the `:` the store is lifted over the conditional's head and put beneath its tail. */
  lemma {:induction false} HoistColonStep(p: Parser, cond: seq<Op>, slot: nat, t: Expr)
    ensures OnToken(StoreRead(Asked(p, cond), slot, t), TColon)
            == Some(Answered(p.(stack := p.stack + [FOp(Store(slot))]), cond, Code(t, |p.out| + |cond| + 1)))
  {
    hide Code, Now, Pend, Flush, Flushable, FlushToHead;
    var q := Asked(p, cond);
    var then' := Code(t, |q.out|);
    assert |q.out| == |p.out| + |cond| + 1;
    PendFlushes(t, q.out);
    FlushToHeadOver(q.out + Now(t, |q.out|), q.stack + [FOp(Store(slot))], Pend(t, |q.out|), []);
    HeldStore(q.out + then', p.stack, |p.out + cond|, slot);
    assert q.out + then' + [CondElse(0)] == p.out + Opened(cond, then');
  }

  /** A store written in the then-branch of a conditional reads as a store of the whole
      conditional. */
  lemma {:induction false} TargetFeeds(slot: nat, t: Target, p: Parser)
    requires WellFormed(Hoisted(t)) && p.expectOperand && AllHeads(p.stack)
    ensures Feed(p, PrintTarget(slot, t)) == Some(StoreRead(p, slot, Hoisted(t)))
    decreases t, 1
  {
    match t
    case Here(e) => HereFeeds(slot, e, p);
    case InThen(c, t1, f) => InThenFeeds(slot, t, p);
  }

  lemma {:induction false} InThenFeeds(slot: nat, t: Target, p: Parser)
    requires t.InThen? && WellFormed(Hoisted(t)) && p.expectOperand && AllHeads(p.stack)
    ensures Feed(p, PrintTarget(slot, t)) == Some(StoreRead(p, slot, Hoisted(t)))
    decreases t, 0
  {
    hide Code, Now, NowAt, Pend, PendAt, Bare, Print, Feed, OnToken, Read, After, Opened, Flush, StoreRead;
    var InThen(c, t1, f) := t;
    var e := ECond(c, Hoisted(t1), f);
    var cond := Code(c, |p.out|);
    var then' := Code(Hoisted(t1), |p.out| + |cond| + 1);
    PrintFeeds(c, 1, p);
    QuestionStep(p, c);
    var asked := Asked(p, cond);
    assert |asked.out| == |p.out| + |cond| + 1;
    FeedAround(p, Print(c, 1), TQuestion, PrintTarget(slot, t1), After(p, c, 1), asked);
    TargetFeeds(slot, t1, asked);
    HoistColonStep(p, cond, slot, Hoisted(t1));
    var below := p.(stack := p.stack + [FOp(Store(slot))]);
    var answered := Answered(below, cond, then');
    FeedAround(p, Print(c, 1) + [TQuestion] + PrintTarget(slot, t1), TColon, Print(f, 0),
               StoreRead(asked, slot, Hoisted(t1)), answered);
    assert Top(answered.stack).FTail?;
    CondTokens(e);
    CondRead(e, below);
    BareFeeds(f, 0, answered);
    StoreReadIsRead(p, slot, e);
  }

  lemma {:induction false} StoreReadIsRead(p: Parser, slot: nat, e: Expr)
    ensures Read(p.(stack := p.stack + [FOp(Store(slot))]), e) == StoreRead(p, slot, e)
  {
  }

  // ----- Statements -----

  /** The state after a statement: whatever it leaves pending flushes to its code. */
  predicate StmtRead(p: Parser, code: seq<Op>, q: Parser) {
    && !q.expectOperand
    && FlushAll(q.out, q.stack) == Some(p.out + code)
    && q.counts == p.counts && q.starts == p.starts
  }

  lemma {:induction false} ValueFlushes(e: Expr, p: Parser)
    requires p.stack == []
    ensures StmtRead(p, Code(e, |p.out|), Read(p, e))
  {
    hide Code, Now, Pend, Flush;
    PendFlushes(e, p.out);
    FlushAllOver(p.out + Now(e, |p.out|), [], Pend(e, |p.out|));
  }

  lemma {:induction false} StoreFlushes(slot: nat, e: Expr, p: Parser)
    requires p.stack == []
    ensures StmtRead(p, Code(e, |p.out|) + [Store(slot)], StoreRead(p, slot, e))
  {
    hide Code, Now, Pend, Flush;
    PendFlushes(e, p.out);
    var store := [FOp(Store(slot))];
    assert p.stack + store == store;
    FlushAllOver(p.out + Now(e, |p.out|), store, Pend(e, |p.out|));
    assert Top(store) == FOp(Store(slot)) && Below(store) == [];
    Assoc(p.out, Code(e, |p.out|), [Store(slot)]);
  }

  lemma {:induction false} StmtFeeds(s: Stmt, p: Parser) returns (q: Parser)
    requires WellFormedStmt(s) && p.expectOperand && p.stack == []
    ensures Feed(p, PrintStmt(s)) == Some(q) && StmtRead(p, CodeStmt(s, |p.out|), q)
  {
    hide Code, StmtRead, Feed, Print, Read, StoreRead;
    match s
    case SValue(e) =>
      PrintFeeds(e, 0, p);
      AfterIsRead(p, e);
      q := Read(p, e);
      ValueFlushes(e, p);
    case SStore(slot, t) =>
      TargetFeeds(slot, t, p);
      q := StoreRead(p, slot, Hoisted(t));
      StoreFlushes(slot, Hoisted(t), p);
  }

  lemma {:induction false} AfterIsRead(p: Parser, e: Expr)
    ensures After(p, e, 0) == Read(p, e)
  {
  }

  lemma {:induction false} ProgramFeeds(ss: seq<Stmt>, p: Parser) returns (q: Parser)
    requires ss != [] && WellFormedProgram(ss) && p.expectOperand && p.stack == []
    ensures Feed(p, PrintProgram(ss)) == Some(q) && StmtRead(p, CodeProgram(ss, |p.out|), q)
    decreases |ss|
  {
    hide PrintStmt, Feed, CodeStmt, FlushAll, StmtRead;
    q := StmtFeeds(ss[0], p);
    var first := CodeStmt(ss[0], |p.out|);
    if |ss| == 1 {
      assert CodeProgram(ss, |p.out|) == first + [];
      assert first + [] == first;
    } else {
      var next := p.(out := p.out + first);
      SemiStep(p, first, q);
      FeedAround(p, PrintStmt(ss[0]), TSemi, PrintProgram(ss[1..]), q, next);
      q := ProgramFeeds(ss[1..], next);
      StmtReadAppend(p, first, CodeProgram(ss[1..], |next.out|), q);
    }
  }

  lemma {:induction false} StmtReadAppend(p: Parser, first: seq<Op>, rest: seq<Op>, q: Parser)
    requires StmtRead(p.(out := p.out + first), rest, q)
    ensures StmtRead(p, first + rest, q)
  {
    Assoc(p.out, first, rest);
  }

  lemma {:induction false} SemiStep(p: Parser, code: seq<Op>, q: Parser)
    requires p.expectOperand && p.stack == [] && StmtRead(p, code, q)
    ensures OnToken(q, TSemi) == Some(p.(out := p.out + code))
  {
  }

  /** What the compiler emits for a printed program is the program's code. */
  lemma {:induction false} EmitsCode(ss: seq<Stmt>)
    requires ss != [] && WellFormedProgram(ss)
    ensures Emitted(PrintProgram(ss)) == Some(CodeProgram(ss, 0))
  {
    var q := ProgramFeeds(ss, INITIAL);
    assert PrintProgram(ss) == [] ==> q == INITIAL;
    assert [] + CodeProgram(ss, 0) == CodeProgram(ss, 0);
  }
}
