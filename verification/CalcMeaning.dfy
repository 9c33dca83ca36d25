/** The code of a tree is accepted by the checker and runs to the tree's meaning. */
module CalcMeaning {
  import opened CalcOp
  import opened CalcMachine
  import opened CalcChecker
  import opened CalcParser
  import opened CalcTree
  import CalcPrinted
  import opened CalcPrograms
  import opened Options
  import opened Seqs

  /** `code` sits in `ops` from index `base` on. */
  predicate At(ops: seq<Op>, base: nat, code: seq<Op>) {
    base + |code| <= |ops| && ops[base..base + |code|] == code
  }

  lemma {:induction false} AtAppend(ops: seq<Op>, base: nat, a: seq<Op>, b: seq<Op>)
    requires At(ops, base, a + b)
    ensures At(ops, base, a) && At(ops, base + |a|, b)
  {
    assert a == (a + b)[..|a|] && b == (a + b)[|a|..];
    assert ops[base..base + |a|] == ops[base..base + |a + b|][..|a|];
    assert ops[base + |a|..base + |a| + |b|] == ops[base..base + |a + b|][|a|..];
  }

  lemma {:induction false} AtWhole(ops: seq<Op>)
    ensures At(ops, 0, ops)
  {
  }

  lemma {:induction false} AtOne(ops: seq<Op>, base: nat, op: Op)
    requires At(ops, base, [op])
    ensures base < |ops| && ops[base] == op
  {
    assert ops[base..base + 1][0] == op;
  }

  /** Where the pieces of a conditional sit. */
  lemma {:induction false} AtCond(ops: seq<Op>, base: nat, cond: seq<Op>, then': seq<Op>, else': seq<Op>, elseAt: nat)
    requires elseAt == base + |cond| + 1 + |then'| + 1
    requires At(ops, base, CondCode(cond, then', else', elseAt))
    ensures At(ops, base, cond) && At(ops, base + |cond| + 1, then') && At(ops, elseAt, else')
    ensures ops[base + |cond|] == CondIf(elseAt)
    ensures ops[elseAt - 1] == CondElse(elseAt + |else'| + 1)
    ensures elseAt + |else'| < |ops| && ops[elseAt + |else'|] == CondEnd
  {
    var i, e := [CondIf(elseAt)], [CondElse(elseAt + |else'| + 1)];
    AtAppend(ops, base, cond + i + then' + e + else', [CondEnd]);
    AtAppend(ops, base, cond + i + then' + e, else');
    AtAppend(ops, base, cond + i + then', e);
    AtAppend(ops, base, cond + i, then');
    AtAppend(ops, base, cond, i);
    AtOne(ops, base + |cond|, CondIf(elseAt));
    AtOne(ops, elseAt - 1, CondElse(elseAt + |else'| + 1));
    AtOne(ops, elseAt + |else'|, CondEnd);
  }

  // ----- The checker accepts the code -----

  lemma {:induction false} OperandSegment(ops: seq<Op>, i: nat, end: nat, d: nat)
    requires i < end <= |ops| && (IsOperator(ops[i]) || ops[i].Arg? || ops[i].Lit? || ops[i].Rndm?)
    requires d >= Arity(ops[i])
    ensures Segment(ops, i, end, d) == Segment(ops, i + 1, end, d - Arity(ops[i]) + 1)
  {
  }

  lemma {:induction false} CodeUnfold(e: Expr, base: nat)
    ensures e.EPre? ==> Code(e, base) == Code(e.e, base) + [Pre(e.p)]
    ensures e.EInf? ==> Code(e, base) == Code(e.l, base) + Code(e.r, base + |Code(e.l, base)|) + [Inf(e.i)]
    ensures e.ECall? ==> Code(e, base) == CodeArgs(e.args, base) + [CallOp(e.fn, |e.args|)]
    ensures e.EGroup? ==> Code(e, base) == Code(e.e, base)
    ensures e.ECond? ==>
      var cond := Code(e.c, base);
      var then' := Code(e.t, base + |cond| + 1);
      var elseAt := base + |cond| + 1 + |then'| + 1;
      Code(e, base) == CondCode(cond, then', Code(e.f, elseAt), elseAt)
  {
  }

  /** Code of an expression adds exactly one value, whatever follows it. */
  lemma {:induction false} CodeDepth(e: Expr, ops: seq<Op>, base: nat, end: nat, d: nat)
    requires WellFormed(e) && At(ops, base, Code(e, base)) && base + |Code(e, base)| <= end <= |ops|
    ensures Segment(ops, base, end, d) == Segment(ops, base + |Code(e, base)|, end, d + 1)
    decreases e, 1
  {
    match e
    case EPre(_, _, _) => PreDepth(e, ops, base, end, d);
    case EInf(_, _, _, _) => InfDepth(e, ops, base, end, d);
    case ECall(_, _) => CallDepth(e, ops, base, end, d);
    case ECond(_, _, _) => CondDepth(e, ops, base, end, d);
    case EGroup(e1) => CodeDepth(e1, ops, base, end, d);
    case _ =>
      hide Segment, At;
      AtOne(ops, base, Code(e, base)[0]);
      OperandSegment(ops, base, end, d);
  }

  lemma {:induction false} PreDepth(e: Expr, ops: seq<Op>, base: nat, end: nat, d: nat)
    requires e.EPre? && WellFormed(e) && At(ops, base, Code(e, base)) && base + |Code(e, base)| <= end <= |ops|
    ensures Segment(ops, base, end, d) == Segment(ops, base + |Code(e, base)|, end, d + 1)
    decreases e, 0
  {
    hide Segment, At, Code;
    CodeUnfold(e, base);
    var inner := Code(e.e, base);
    AtAppend(ops, base, inner, [Pre(e.p)]);
    AtOne(ops, base + |inner|, Pre(e.p));
    CodeDepth(e.e, ops, base, end, d);
    OperandSegment(ops, base + |inner|, end, d + 1);
  }

  lemma {:induction false} InfDepth(e: Expr, ops: seq<Op>, base: nat, end: nat, d: nat)
    requires e.EInf? && WellFormed(e) && At(ops, base, Code(e, base)) && base + |Code(e, base)| <= end <= |ops|
    ensures Segment(ops, base, end, d) == Segment(ops, base + |Code(e, base)|, end, d + 1)
    decreases e, 0
  {
    hide Segment, At, Code;
    CodeUnfold(e, base);
    var left := Code(e.l, base);
    var right := Code(e.r, base + |left|);
    AtAppend(ops, base, left + right, [Inf(e.i)]);
    AtAppend(ops, base, left, right);
    AtOne(ops, base + |left| + |right|, Inf(e.i));
    CodeDepth(e.l, ops, base, end, d);
    CodeDepth(e.r, ops, base + |left|, end, d + 1);
    OperandSegment(ops, base + |left| + |right|, end, d + 2);
  }

  lemma {:induction false} CallDepth(e: Expr, ops: seq<Op>, base: nat, end: nat, d: nat)
    requires e.ECall? && WellFormed(e) && At(ops, base, Code(e, base)) && base + |Code(e, base)| <= end <= |ops|
    ensures Segment(ops, base, end, d) == Segment(ops, base + |Code(e, base)|, end, d + 1)
    decreases e, 0
  {
    hide Segment, At, Code, CodeArgs;
    CodeUnfold(e, base);
    var inner := CodeArgs(e.args, base);
    var op := CallOp(e.fn, |e.args|);
    AtAppend(ops, base, inner, [op]);
    AtOne(ops, base + |inner|, op);
    ArgsDepth(e.args, ops, base, end, d);
    OperandSegment(ops, base + |inner|, end, d + |e.args|);
  }

  lemma {:induction false} ArgsDepth(args: seq<Expr>, ops: seq<Op>, base: nat, end: nat, d: nat)
    requires forall k :: 0 <= k < |args| ==> WellFormed(args[k])
    requires At(ops, base, CodeArgs(args, base)) && base + |CodeArgs(args, base)| <= end <= |ops|
    ensures Segment(ops, base, end, d) == Segment(ops, base + |CodeArgs(args, base)|, end, d + |args|)
    decreases args, 2
  {
    hide Segment, At, Code;
    if args != [] {
      var first := Code(args[0], base);
      AtAppend(ops, base, first, CodeArgs(args[1..], base + |first|));
      CodeDepth(args[0], ops, base, end, d);
      ArgsDepth(args[1..], ops, base + |first|, end, d + 1);
    }
  }

  lemma {:induction false} CondDepth(e: Expr, ops: seq<Op>, base: nat, end: nat, d: nat)
    requires e.ECond? && WellFormed(e) && At(ops, base, Code(e, base)) && base + |Code(e, base)| <= end <= |ops|
    ensures Segment(ops, base, end, d) == Segment(ops, base + |Code(e, base)|, end, d + 1)
    decreases e, 0
  {
    hide Segment, CondCode, At, Code;
    CodeUnfold(e, base);
    var cond := Code(e.c, base);
    var i := base + |cond|;
    var then' := Code(e.t, i + 1);
    var elseAt := i + 1 + |then'| + 1;
    var else' := Code(e.f, elseAt);
    CondCodeLength(cond, then', else', elseAt);
    AtCond(ops, base, cond, then', else', elseAt);
    CodeDepth(e.c, ops, base, end, d);
    CodeDepth(e.t, ops, i + 1, elseAt - 1, d);
    CodeDepth(e.f, ops, elseAt, elseAt + |else'|, d);
    EmptySegment(ops, elseAt - 1, d + 1);
    EmptySegment(ops, elseAt + |else'|, d + 1);
    CondSegment(ops, i, end, d);
  }

  lemma {:induction false} EmptySegment(ops: seq<Op>, i: nat, d: nat)
    requires i <= |ops|
    ensures Segment(ops, i, i, d) == Depth(d)
  {
  }

  lemma {:induction false} CondCodeLength(cond: seq<Op>, then': seq<Op>, else': seq<Op>, elseAt: nat)
    ensures |CondCode(cond, then', else', elseAt)| == |cond| + 1 + |then'| + 1 + |else'| + 1
  {
  }

  /** A conditional whose arms each add one value counts as one value. */
  lemma {:induction false} CondSegment(ops: seq<Op>, i: nat, end: nat, d: nat)
    requires i < end <= |ops| && CondAt(ops, i, end)
    requires Segment(ops, i + 1, ElseIdx(ops, i), d) == Depth(d + 1)
    requires Segment(ops, ElseIdx(ops, i) + 1, EndIdx(ops, i), d) == Depth(d + 1)
    ensures Segment(ops, i, end, d + 1) == Segment(ops, EndIdx(ops, i) + 1, end, d + 1)
  {
  }

  lemma {:induction false} ProgramDepth(ss: seq<Stmt>, ops: seq<Op>, base: nat, d: nat)
    requires WellFormedProgram(ss) && At(ops, base, CodeProgram(ss, base)) && base + |CodeProgram(ss, base)| == |ops|
    ensures Segment(ops, base, |ops|, d) == Depth(d + Values(ss))
    decreases |ss|
  {
    hide Segment, CodeStmt, At;
    if ss == [] {
      EmptySegment(ops, |ops|, d);
    } else {
      var first := CodeStmt(ss[0], base);
      AtAppend(ops, base, first, CodeProgram(ss[1..], base + |first|));
      StmtDepth(ss[0], ops, base, d);
      ProgramDepth(ss[1..], ops, base + |first|, if ss[0].SValue? then d + 1 else d);
    }
  }

  lemma {:induction false} StmtDepth(s: Stmt, ops: seq<Op>, base: nat, d: nat)
    requires WellFormedStmt(s) && At(ops, base, CodeStmt(s, base))
    ensures Segment(ops, base, |ops|, d) ==
            Segment(ops, base + |CodeStmt(s, base)|, |ops|, if s.SValue? then d + 1 else d)
  {
    hide Segment, Code;
    match s
    case SValue(e) => CodeDepth(e, ops, base, |ops|, d);
    case SStore(slot, t) =>
      var value := Code(Hoisted(t), base);
      AtAppend(ops, base, value, [Store(slot)]);
      AtOne(ops, base + |value|, Store(slot));
      CodeDepth(Hoisted(t), ops, base, |ops|, d);
      StoreSegment(ops, base + |value|, d);
  }

  lemma {:induction false} StoreSegment(ops: seq<Op>, i: nat, d: nat)
    requires i < |ops| && ops[i].Store?
    ensures Segment(ops, i, |ops|, d + 1) == Segment(ops, i + 1, |ops|, d)
  {
  }

  /** The compiler accepts a printed program exactly when it leaves one value and fits the
      length limit; what it then produces is the program's code. */
  lemma {:induction false} CompilesToCode(ss: seq<Stmt>)
    requires ss != [] && WellFormedProgram(ss)
    ensures Compiled(PrintProgram(ss)) ==
            if Values(ss) == 1 && |CodeProgram(ss, 0)| <= MAX_OPS then Some(CodeProgram(ss, 0)) else None
  {
    hide Emitted, PrintProgram, Segment, At, CodeStmt;
    EmitsCode(ss);
    var ops := CodeProgram(ss, 0);
    AtWhole(ops);
    ProgramDepth(ss, ops, 0, 0);
    StmtNonEmpty(ss[0], 0);
  }

  lemma {:induction false} StmtNonEmpty(s: Stmt, base: nat)
    ensures |CodeStmt(s, base)| >= 1
  {
    match s
    case SValue(e) => CalcPrinted.CodeNonEmpty(e, base);
    case SStore(_, _) =>
  }

  // ----- The code runs to the meaning -----

  /** The state after evaluating an expression at `m`. */
  function Evaluated(env: Env, e: Expr, m: Machine, ip: nat): Machine {
    var (v, k) := Eval(env, e, m.args, m.drawn);
    m.(ip := ip, stack := m.stack + [v], drawn := k)
  }

  function ArgsEvaluated(env: Env, es: seq<Expr>, m: Machine, ip: nat): Machine {
    var (vs, k) := EvalArgs(env, es, m.args, m.drawn);
    m.(ip := ip, stack := m.stack + vs, drawn := k)
  }

  /** An operator instruction replaces its operands by their result. */
  lemma {:induction false} OperatorRuns(env: Env, ops: seq<Op>, m: Machine, op: Op, below: seq<Num>, vs: seq<Num>)
    requires m.ip < |ops| && ops[m.ip] == op && IsOperator(op)
    requires m.stack == below + vs && |vs| == Arity(op)
    ensures Run(env, ops, m) == Run(env, ops, m.(ip := m.ip + 1, stack := below + [Apply(env, op, vs)]))
  {
    assert m.stack[..|m.stack| - |vs|] == below && m.stack[|m.stack| - |vs|..] == vs;
    RunStep(env, ops, m, m.(ip := m.ip + 1, stack := below + [Apply(env, op, vs)]));
  }

  lemma {:induction false} CodeRuns(env: Env, e: Expr, ops: seq<Op>, m: Machine)
    requires WellFormed(e) && SlotsOk(e, |m.args|) && At(ops, m.ip, Code(e, m.ip))
    ensures Run(env, ops, m) == Run(env, ops, Evaluated(env, e, m, m.ip + |Code(e, m.ip)|))
    decreases e, 1
  {
    hide Run;
    if e.EPre? {
      PreRuns(env, e, ops, m);
    } else if e.EInf? {
      InfRuns(env, e, ops, m);
    } else if e.ECall? {
      CallRuns(env, e, ops, m);
    } else if e.ECond? {
      CondRuns(env, e, ops, m);
    } else if e.EGroup? {
      CodeRuns(env, e.e, ops, m);
    } else {
      AtOne(ops, m.ip, Code(e, m.ip)[0]);
      RunStep(env, ops, m, Evaluated(env, e, m, m.ip + 1));
    }
  }

  lemma {:induction false} PreRuns(env: Env, e: Expr, ops: seq<Op>, m: Machine)
    requires e.EPre? && WellFormed(e) && SlotsOk(e, |m.args|) && At(ops, m.ip, Code(e, m.ip))
    ensures Run(env, ops, m) == Run(env, ops, Evaluated(env, e, m, m.ip + |Code(e, m.ip)|))
    decreases e, 0
  {
    hide Run, At, Code;
    CodeUnfold(e, m.ip);
    var inner := Code(e.e, m.ip);
    AtAppend(ops, m.ip, inner, [Pre(e.p)]);
    AtOne(ops, m.ip + |inner|, Pre(e.p));
    CodeRuns(env, e.e, ops, m);
    var (v, _) := Eval(env, e.e, m.args, m.drawn);
    OperatorRuns(env, ops, Evaluated(env, e.e, m, m.ip + |inner|), Pre(e.p), m.stack, [v]);
  }

  lemma {:induction false} InfRuns(env: Env, e: Expr, ops: seq<Op>, m: Machine)
    requires e.EInf? && WellFormed(e) && SlotsOk(e, |m.args|) && At(ops, m.ip, Code(e, m.ip))
    ensures Run(env, ops, m) == Run(env, ops, Evaluated(env, e, m, m.ip + |Code(e, m.ip)|))
    decreases e, 0
  {
    hide Run, At, Code;
    CodeUnfold(e, m.ip);
    var left := Code(e.l, m.ip);
    var right := Code(e.r, m.ip + |left|);
    AtAppend(ops, m.ip, left + right, [Inf(e.i)]);
    AtAppend(ops, m.ip, left, right);
    AtOne(ops, m.ip + |left| + |right|, Inf(e.i));
    CodeRuns(env, e.l, ops, m);
    var m1 := Evaluated(env, e.l, m, m.ip + |left|);
    CodeRuns(env, e.r, ops, m1);
    var m2 := Evaluated(env, e.r, m1, m1.ip + |right|);
    var (a, k) := Eval(env, e.l, m.args, m.drawn);
    var (b, _) := Eval(env, e.r, m.args, k);
    assert m2.stack == m.stack + [a, b];
    OperatorRuns(env, ops, m2, Inf(e.i), m.stack, [a, b]);
  }

  lemma {:induction false} ArgsRun(env: Env, es: seq<Expr>, ops: seq<Op>, m: Machine)
    requires forall k :: 0 <= k < |es| ==> WellFormed(es[k]) && SlotsOk(es[k], |m.args|)
    requires At(ops, m.ip, CodeArgs(es, m.ip))
    ensures Run(env, ops, m) == Run(env, ops, ArgsEvaluated(env, es, m, m.ip + |CodeArgs(es, m.ip)|))
    decreases es, 2
  {
    hide Run, At, Code;
    if es == [] {
      assert m.stack + [] == m.stack;
    } else {
      var first := Code(es[0], m.ip);
      AtAppend(ops, m.ip, first, CodeArgs(es[1..], m.ip + |first|));
      CodeRuns(env, es[0], ops, m);
      var m1 := Evaluated(env, es[0], m, m.ip + |first|);
      ArgsRun(env, es[1..], ops, m1);
      Assoc(m.stack, [Eval(env, es[0], m.args, m.drawn).0], EvalArgs(env, es[1..], m.args, m1.drawn).0);
    }
  }

  lemma {:induction false} CallRuns(env: Env, e: Expr, ops: seq<Op>, m: Machine)
    requires e.ECall? && WellFormed(e) && SlotsOk(e, |m.args|) && At(ops, m.ip, Code(e, m.ip))
    ensures Run(env, ops, m) == Run(env, ops, Evaluated(env, e, m, m.ip + |Code(e, m.ip)|))
    decreases e, 0
  {
    hide Run, At, Code, CodeArgs;
    CodeUnfold(e, m.ip);
    var inner := CodeArgs(e.args, m.ip);
    var op := CallOp(e.fn, |e.args|);
    AtAppend(ops, m.ip, inner, [op]);
    AtOne(ops, m.ip + |inner|, op);
    ArgsRun(env, e.args, ops, m);
    var (vs, _) := EvalArgs(env, e.args, m.args, m.drawn);
    OperatorRuns(env, ops, ArgsEvaluated(env, e.args, m, m.ip + |inner|), op, m.stack, vs);
  }

  lemma {:induction false} CondRuns(env: Env, e: Expr, ops: seq<Op>, m: Machine)
    requires e.ECond? && WellFormed(e) && SlotsOk(e, |m.args|) && At(ops, m.ip, Code(e, m.ip))
    ensures Run(env, ops, m) == Run(env, ops, Evaluated(env, e, m, m.ip + |Code(e, m.ip)|))
    decreases e, 0
  {
    hide Run, At, Code, CondCode, Step;
    CodeUnfold(e, m.ip);
    var cond := Code(e.c, m.ip);
    var i := m.ip + |cond|;
    var then' := Code(e.t, i + 1);
    var elseAt := i + 1 + |then'| + 1;
    var else' := Code(e.f, elseAt);
    CondCodeLength(cond, then', else', elseAt);
    AtCond(ops, m.ip, cond, then', else', elseAt);
    CodeRuns(env, e.c, ops, m);
    var (v, k) := Eval(env, e.c, m.args, m.drawn);
    var end := elseAt + |else'|;
    var arm := if IsZero(v) then e.f else e.t;
    var m1 := m.(ip := if IsZero(v) then elseAt else i + 1, drawn := k);
    BranchRuns(env, ops, m, i, v, k, elseAt);
    CodeRuns(env, arm, ops, m1);
    ExitRuns(env, ops, Evaluated(env, arm, m1, if IsZero(v) then end else elseAt - 1), end + 1);
  }

  lemma {:induction false} BranchRuns(env: Env, ops: seq<Op>, m: Machine, i: nat, v: Num, k: nat, elseAt: nat)
    requires i < |ops| && ops[i] == CondIf(elseAt) && i < elseAt
    ensures Run(env, ops, m.(ip := i, stack := m.stack + [v], drawn := k))
            == Run(env, ops, m.(ip := if IsZero(v) then elseAt else i + 1, drawn := k))
  {
    hide Run;
    var m1 := m.(ip := i, stack := m.stack + [v], drawn := k);
    assert m1.stack[..|m1.stack| - 1] == m.stack;
    RunStep(env, ops, m1, m.(ip := if IsZero(v) then elseAt else i + 1, drawn := k));
  }

  /** Both ends of a conditional's arms lead just past it. */
  lemma {:induction false} ExitRuns(env: Env, ops: seq<Op>, m: Machine, end: nat)
    requires m.ip < |ops| && m.ip < end
    requires ops[m.ip] == CondElse(end) || (ops[m.ip] == CondEnd && m.ip + 1 == end)
    ensures Run(env, ops, m) == Run(env, ops, m.(ip := end))
  {
    hide Run;
    RunStep(env, ops, m, m.(ip := end));
  }

  /** The slots a program stores to, in order. */
  function StoredSlots(ss: seq<Stmt>): seq<nat>
    decreases |ss|
  {
    if ss == [] then []
    else (if ss[0].SStore? then [ss[0].slot] else []) + StoredSlots(ss[1..])
  }

  lemma {:induction false} ProgramRuns(env: Env, ss: seq<Stmt>, ops: seq<Op>, m: Machine)
    requires WellFormedProgram(ss) && ProgramSlotsOk(ss, |m.args|)
    requires At(ops, m.ip, CodeProgram(ss, m.ip))
    ensures var r := EvalProgram(env, ss, m.args, m.drawn);
            Run(env, ops, m) == Run(env, ops, Machine(m.ip + |CodeProgram(ss, m.ip)|, m.stack + r.values,
                                                      r.args, r.drawn, m.written + StoredSlots(ss)))
    decreases |ss|, 1
  {
    hide Run, At, Code, Eval, EvalProgram, CodeProgram, StoredSlots;
    if ss == [] {
      NoProgram(env, m);
    } else if ss[0].SValue? {
      ValueProgramRuns(env, ss, ops, m);
    } else {
      StoreProgramRuns(env, ss, ops, m);
    }
  }

  lemma {:induction false} NoProgram(env: Env, m: Machine)
    ensures EvalProgram(env, [], m.args, m.drawn) == Effect([], m.args, m.drawn)
    ensures CodeProgram([], m.ip) == [] && StoredSlots([]) == []
    ensures m.stack + [] == m.stack && m.written + [] == m.written
  {
  }

  lemma {:induction false} ValueProgramRuns(env: Env, ss: seq<Stmt>, ops: seq<Op>, m: Machine)
    requires ss != [] && ss[0].SValue? && WellFormedProgram(ss) && ProgramSlotsOk(ss, |m.args|)
    requires At(ops, m.ip, CodeProgram(ss, m.ip))
    ensures var r := EvalProgram(env, ss, m.args, m.drawn);
            Run(env, ops, m) == Run(env, ops, Machine(m.ip + |CodeProgram(ss, m.ip)|, m.stack + r.values,
                                                      r.args, r.drawn, m.written + StoredSlots(ss)))
    decreases |ss|, 0
  {
    hide Run, At, Code, Eval;
    var e := ss[0].e;
    var first := CodeStmt(ss[0], m.ip);
    AtAppend(ops, m.ip, first, CodeProgram(ss[1..], m.ip + |first|));
    CodeRuns(env, e, ops, m);
    ProgramRuns(env, ss[1..], ops, Evaluated(env, e, m, m.ip + |first|));
    var (v, k) := Eval(env, e, m.args, m.drawn);
    Assoc(m.stack, [v], EvalProgram(env, ss[1..], m.args, k).values);
    assert [] + StoredSlots(ss[1..]) == StoredSlots(ss[1..]);
  }

  lemma {:induction false} StoreProgramRuns(env: Env, ss: seq<Stmt>, ops: seq<Op>, m: Machine)
    requires ss != [] && ss[0].SStore? && WellFormedProgram(ss) && ProgramSlotsOk(ss, |m.args|)
    requires At(ops, m.ip, CodeProgram(ss, m.ip))
    ensures var r := EvalProgram(env, ss, m.args, m.drawn);
            Run(env, ops, m) == Run(env, ops, Machine(m.ip + |CodeProgram(ss, m.ip)|, m.stack + r.values,
                                                      r.args, r.drawn, m.written + StoredSlots(ss)))
    decreases |ss|, 0
  {
    hide Run, At, Code, Eval;
    var slot, e := ss[0].slot, Hoisted(ss[0].target);
    var first := CodeStmt(ss[0], m.ip);
    AtAppend(ops, m.ip, first, CodeProgram(ss[1..], m.ip + |first|));
    StoreRuns(env, ss[0], ops, m);
    var (v, k) := Eval(env, e, m.args, m.drawn);
    var m1 := m.(ip := m.ip + |first|, args := m.args[slot := v], drawn := k, written := m.written + [slot]);
    ProgramRuns(env, ss[1..], ops, m1);
    Assoc(m.written, [slot], StoredSlots(ss[1..]));
  }

  lemma {:induction false} StoreRuns(env: Env, s: Stmt, ops: seq<Op>, m: Machine)
    requires s.SStore? && WellFormedStmt(s) && SlotsOk(Hoisted(s.target), |m.args|) && s.slot < |m.args|
    requires At(ops, m.ip, CodeStmt(s, m.ip))
    ensures var (v, k) := Eval(env, Hoisted(s.target), m.args, m.drawn);
            Run(env, ops, m) == Run(env, ops, m.(ip := m.ip + |CodeStmt(s, m.ip)|, args := m.args[s.slot := v],
                                                 drawn := k, written := m.written + [s.slot]))
  {
    hide Run, At, Code, Eval;
    var e := Hoisted(s.target);
    var value := Code(e, m.ip);
    AtAppend(ops, m.ip, value, [Store(s.slot)]);
    AtOne(ops, m.ip + |value|, Store(s.slot));
    CodeRuns(env, e, ops, m);
    var m1 := Evaluated(env, e, m, m.ip + |value|);
    var (v, k) := Eval(env, e, m.args, m.drawn);
    assert m1.stack[..|m1.stack| - 1] == m.stack;
    RunStep(env, ops, m1,
            m.(ip := m1.ip + 1, args := m.args[s.slot := v], drawn := k, written := m.written + [s.slot]));
  }

  /** Compiler correctness: a printed program that leaves one value and fits the limit is
      accepted, and running what the compiler made of it gives the program's value, its
      final operands, its draws, and its stores in order. */
  lemma {:induction false} CompilationPreservesMeaning(env: Env, ss: seq<Stmt>, args: seq<Num>)
    requires ss != [] && WellFormedProgram(ss) && ProgramSlotsOk(ss, |args|)
    requires Values(ss) == 1 && |CodeProgram(ss, 0)| <= MAX_OPS
    ensures var ops := Compiled(PrintProgram(ss));
            var r := EvalProgram(env, ss, args, 0);
            && ops.Some?
            && |r.values| == 1
            && Run(env, ops.value, Start(args))
               == Halted(Machine(|ops.value|, r.values, r.args, r.drawn, StoredSlots(ss)))
  {
    hide CodeProgram, EvalProgram, Compiled, PrintProgram, StoredSlots, At;
    CompilesToCode(ss);
    var ops := CodeProgram(ss, 0);
    AtWhole(ops);
    ProgramRuns(env, ss, ops, Start(args));
    ValuesCount(env, ss, args, 0);
    var r := EvalProgram(env, ss, args, 0);
    assert [] + r.values == r.values && [] + StoredSlots(ss) == StoredSlots(ss);
  }

  lemma {:induction false} ValuesCount(env: Env, ss: seq<Stmt>, args: seq<Num>, drawn: nat)
    ensures |EvalProgram(env, ss, args, drawn).values| == Values(ss)
    decreases |ss|
  {
    if ss != [] {
      match ss[0]
      case SValue(e) => ValuesCount(env, ss[1..], args, Eval(env, e, args, drawn).1);
      case SStore(slot, t) =>
        var (v, k) := Eval(env, Hoisted(t), args, drawn);
        ValuesCount(env, ss[1..], if slot < |args| then args[slot := v] else args, k);
    }
  }

  /** The empty expression compiles to no code, and evaluates to NaN on any operands. */
  lemma {:induction false} EmptyExpression(env: Env, args: seq<Num>)
    ensures Compiled([]) == Some([])
    ensures Run(env, [], Start(args)) == Halted(Start(args)) && Answer(Start(args)) == NaN
  {
    assert Segment([], 0, 0, 0) == Depth(0);
  }
}
