/** The evaluation loop over a mutable operand array. */
module CalcEval {
  import opened CalcOp
  import opened CalcMachine
  import opened CalcChecker
  import opened Options

  method AnyIsNaN(vs: seq<Num>) returns (any: bool)
    ensures any == AnyNaN(vs)
  {
    any := false;
    for i := 0 to |vs|
      invariant any == AnyNaN(vs[..i])
    {
      assert vs[..i + 1] == vs[..i] + [vs[i]];
      any := any || vs[i].NaN?;
    }
    assert vs[..|vs|] == vs;
  }

  /** The loops over the tail of the stack that a variadic call takes. */
  method FoldTail(f: Variadic, vs: seq<Num>) returns (v: Num)
    ensures v == ApplyVariadic(f, vs)
  {
    var nan := AnyIsNaN(vs);
    if f.Finite? {
      var all := true;
      for i := 0 to |vs|
        invariant all == AllFinite(vs[..i])
      {
        assert vs[..i + 1] == vs[..i] + [vs[i]];
        all := all && vs[i].Fin?;
      }
      assert vs[..|vs|] == vs;
      return FromBool(all);
    }
    if f.IsNan? { return FromBool(nan); }
    if nan { return NaN; }
    v := if f.Min? then PosInf else NegInf;
    assert vs[0..] == vs;
    for i := 0 to |vs|
      invariant f.Min? ==> FoldMin(v, vs[i..]) == FoldMin(PosInf, vs)
      invariant f.Max? ==> FoldMax(v, vs[i..]) == FoldMax(NegInf, vs)
    {
      assert vs[i..][1..] == vs[i + 1..];
      v := if f.Min? then Min2(v, vs[i]) else Max2(v, vs[i]);
    }
  }

  /** Pop an operator's operands, last first, and push its result. */
  method Operate(env: Env, op: Op, stack: seq<Num>) returns (r: seq<Num>)
    requires IsOperator(op) && |stack| >= Arity(op)
    ensures var d := |stack| - Arity(op); r == stack[..d] + [Apply(env, op, stack[d..])]
  {
    hide ApplyPrefix, ApplyUnary, ApplyInfix, ApplyBinary, ApplyVariadic;
    if op.CallN? {
      var at := |stack| - op.n;
      var v := FoldTail(op.f, stack[at..]);
      return stack[..at] + [v];
    }
    var top := stack[|stack| - 1];
    r := stack[..|stack| - 1];
    if op.Pre? {
      r := r + [ApplyPrefix(env, op.p, top)];
    } else if op.Call1? {
      r := r + [ApplyUnary(env, op.u, top)];
    } else {
      var left := r[|r| - 1];
      r := r[..|r| - 1];
      r := r + [if op.Inf? then ApplyInfix(env, op.i, left, top) else ApplyBinary(env, op.b, left, top)];
    }
  }

  /** A run that halts can take its next step. */
  lemma {:induction false} HaltingRunSteps(env: Env, ops: seq<Op>, m: Machine)
    requires m.ip < |ops| && Run(env, ops, m).Halted?
    ensures Step(env, ops[m.ip], m).Some?
    ensures m.ip < Step(env, ops[m.ip], m).value.ip
    ensures Run(env, ops, Step(env, ops[m.ip], m).value) == Run(env, ops, m)
  {
  }

  lemma {:induction false} StoppedRun(env: Env, ops: seq<Op>, m: Machine)
    requires m.ip >= |ops|
    ensures Run(env, ops, m) == Halted(m)
  {
  }

  /** Run an accepted program against the operands in `args`, writing stores back to them. */
  method Evaluate(env: Env, ops: seq<Op>, args: array<Num>) returns (value: Num, drawn: nat)
    requires Accepts(ops) && SlotsBelow(ops, args.Length)
    modifies args
    ensures var r := Run(env, ops, Start(old(args[..])));
            r.Halted? && args[..] == r.m.args && value == Answer(r.m) && drawn == r.m.drawn
  {
    hide Run, Exec, Apply, Segment;
    AcceptedProgramsHalt(env, ops, args[..]);
    ghost var outcome := Run(env, ops, Start(args[..]));
    var stack: seq<Num> := [];
    var ip: nat := 0;
    ghost var written: seq<nat> := [];
    drawn := 0;
    while ip < |ops|
      invariant Run(env, ops, Machine(ip, stack, args[..], drawn, written)) == outcome
      invariant outcome.Halted?
      decreases |ops| - ip
    {
      HaltingRunSteps(env, ops, Machine(ip, stack, args[..], drawn, written));
      ghost var next := Step(env, ops[ip], Machine(ip, stack, args[..], drawn, written)).value;
      var op := ops[ip];
      if op.CondIf? {
        var cond := stack[|stack| - 1];
        stack := stack[..|stack| - 1];
        ip := if IsZero(cond) then op.elseTarget else ip + 1;
      } else if op.CondElse? {
        ip := op.endTarget;
      } else {
        if op.Arg? {
          stack := stack + [args[op.slot]];
        } else if op.Lit? {
          stack := stack + [op.v];
        } else if op.Rndm? {
          stack := stack + [env.draw(drawn)];
          drawn := drawn + 1;
        } else if op.Store? {
          args[op.slot] := stack[|stack| - 1];
          stack := stack[..|stack| - 1];
          written := written + [op.slot];
        } else if !op.CondEnd? {
          stack := Operate(env, op, stack);
        }
        ip := ip + 1;
      }
      assert args[..] == next.args;
      assert Machine(ip, stack, args[..], drawn, written) == next;
    }
    StoppedRun(env, ops, Machine(ip, stack, args[..], drawn, written));
    value := if stack == [] then NaN else stack[|stack| - 1];
  }
}
