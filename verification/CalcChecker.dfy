/** The static stack checker, and what a program it accepts is guaranteed to do. */
module CalcChecker {
  import opened CalcOp
  import opened CalcMachine
  import opened Options

  /** The checker's verdict on a stretch of code: the depth it leaves, or why it is refused. */
  datatype Verdict = Depth(d: nat) | Starved | Excess | Malformed

  /** A conditional at `i` whose two targets are in range below `end` and land one past
      a `CondElse` and one past a `CondEnd`. */
  predicate CondAt(ops: seq<Op>, i: nat, end: nat)
    requires i < end <= |ops|
  {
    && ops[i].CondIf?
    && i + 1 < ops[i].elseTarget <= end
    && ops[ElseIdx(ops, i)].CondElse?
    && ops[ElseIdx(ops, i)].endTarget <= end
    && ElseIdx(ops, i) < ops[ElseIdx(ops, i)].endTarget
    && ops[EndIdx(ops, i)].CondEnd?
  }

  function ElseIdx(ops: seq<Op>, i: nat): (j: int)
    requires i < |ops| && ops[i].CondIf?
  {
    ops[i].elseTarget - 1
  }

  function EndIdx(ops: seq<Op>, i: nat): (j: int)
    requires i < |ops| && ops[i].CondIf?
    requires 0 <= ElseIdx(ops, i) < |ops| && ops[ElseIdx(ops, i)].CondElse?
  {
    ops[ElseIdx(ops, i)].endTarget - 1
  }

  /** Simulate the stack depth of `ops[start..end]`; both arms of a conditional start
      from the same depth and must each add exactly one value. */
  function Segment(ops: seq<Op>, start: nat, end: nat, depth: nat): Verdict
    requires start <= end <= |ops|
    decreases end - start
  {
    if start == end then Depth(depth)
    else
      match ops[start]
      case CondIf(_) =>
        if depth < 1 then Starved
        else if !CondAt(ops, start, end) then Malformed
        else
          var elseIdx, endIdx := ElseIdx(ops, start), EndIdx(ops, start);
          var thenDepth := Segment(ops, start + 1, elseIdx, depth - 1);
          if !thenDepth.Depth? then thenDepth
          else if thenDepth.d != depth then (if thenDepth.d < depth then Starved else Excess)
          else
            var elseDepth := Segment(ops, elseIdx + 1, endIdx, depth - 1);
            if !elseDepth.Depth? then elseDepth
            else if elseDepth.d != depth then (if elseDepth.d < depth then Starved else Excess)
            else Segment(ops, endIdx + 1, end, depth)
      case CondElse(_) => Malformed
      case CondEnd => Malformed
      case Store(_) => if depth < 1 then Starved else Segment(ops, start + 1, end, depth - 1)
      case op =>
        if depth < Arity(op) then Starved
        else Segment(ops, start + 1, end, depth - Arity(op) + 1)
  }

  /** Accepted: exactly one value is left, or the program is empty. */
  predicate Accepts(ops: seq<Op>) {
    Segment(ops, 0, |ops|, 0) == Depth(1) || ops == []
  }

  /** The recursive loop over a stretch of code. */
  method CheckSegment(ops: seq<Op>, start: nat, end: nat, depthIn: nat) returns (v: Verdict)
    requires start <= end <= |ops|
    ensures v == Segment(ops, start, end, depthIn)
    decreases end - start
  {
    var depth := depthIn;
    var i := start;
    while i < end
      invariant start <= i <= end
      invariant Segment(ops, i, end, depth) == Segment(ops, start, end, depthIn)
    {
      match ops[i] {
        case CondIf(elseTarget) =>
          if depth < 1 { return Starved; }
          var afterCond := depth - 1;
          if elseTarget == 0 || elseTarget > end || elseTarget - 1 <= i { return Malformed; }
          var elseIdx := elseTarget - 1;
          if !ops[elseIdx].CondElse? { return Malformed; }
          var endTarget := ops[elseIdx].endTarget;
          if endTarget == 0 || endTarget > end || endTarget <= elseIdx { return Malformed; }
          var endIdx := endTarget - 1;
          if !ops[endIdx].CondEnd? { return Malformed; }
          var thenDepth := CheckSegment(ops, i + 1, elseIdx, afterCond);
          if !thenDepth.Depth? { return thenDepth; }
          if thenDepth.d != afterCond + 1 {
            return if thenDepth.d < afterCond + 1 then Starved else Excess;
          }
          var elseDepth := CheckSegment(ops, elseIdx + 1, endIdx, afterCond);
          if !elseDepth.Depth? { return elseDepth; }
          if elseDepth.d != afterCond + 1 {
            return if elseDepth.d < afterCond + 1 then Starved else Excess;
          }
          depth := afterCond + 1;
          i := endIdx + 1;
          continue;
        case CondElse(_) => return Malformed;
        case CondEnd => return Malformed;
        case Store(_) =>
          if depth < 1 { return Starved; }
          depth := depth - 1;
        case op =>
          var need := Arity(op);
          if depth < need { return Starved; }
          depth := depth - need + 1;
      }
      i := i + 1;
    }
    v := Depth(depth);
  }

  method CheckArity(ops: seq<Op>) returns (ok: bool)
    ensures ok <==> Accepts(ops)
  {
    var v := CheckSegment(ops, 0, |ops|, 0);
    ok := (v == Depth(0) && |ops| == 0) || v == Depth(1);
  }

  /** Every operand the code names exists. */
  predicate SlotsBelow(ops: seq<Op>, n: nat) {
    forall i :: 0 <= i < |ops| ==>
      (ops[i].Arg? ==> ops[i].slot < n) && (ops[i].Store? ==> ops[i].slot < n)
  }

  /** A machine standing at `lo` with enough on its stack for `ops[lo..hi]`. */
  predicate Fits(ops: seq<Op>, lo: nat, hi: nat, m: Machine) {
    && lo <= hi <= |ops|
    && m.ip == lo
    && SlotsBelow(ops, |m.args|)
    && Segment(ops, lo, hi, |m.stack|).Depth?
  }

  /** Where the arm taken by the conditional at `lo` ends: at its `CondElse` or its `CondEnd`. */
  function ArmEnd(ops: seq<Op>, lo: nat, m: Machine): nat
    requires m.stack != [] && lo < |ops| && CondAt(ops, lo, |ops|)
  {
    if IsZero(m.stack[|m.stack| - 1]) then EndIdx(ops, lo) else ElseIdx(ops, lo)
  }

  /** The big-step effect of an accepted stretch of code: only the arm taken runs. */
  function Exec(env: Env, ops: seq<Op>, lo: nat, hi: nat, m: Machine): (r: Machine)
    requires Fits(ops, lo, hi, m)
    ensures r.ip == hi && |r.args| == |m.args|
    ensures |r.stack| == Segment(ops, lo, hi, |m.stack|).d
    decreases hi - lo
  {
    if lo == hi then m
    else if ops[lo].CondIf? then
      CondSteps(env, ops, lo, hi, m);
      var next := Step(env, ops[lo], m).value;
      CondParts(env, ops, lo, hi, m, next);
      var body := Exec(env, ops, next.ip, ArmEnd(ops, lo, m), next);
      Exec(env, ops, EndIdx(ops, lo) + 1, hi, body.(ip := EndIdx(ops, lo) + 1))
    else
      PlainParts(env, ops, lo, hi, m);
      Exec(env, ops, lo + 1, hi, Step(env, ops[lo], m).value)
  }

  lemma {:induction false} CondSteps(env: Env, ops: seq<Op>, lo: nat, hi: nat, m: Machine)
    requires Fits(ops, lo, hi, m) && lo < hi && ops[lo].CondIf?
    ensures Step(env, ops[lo], m).Some?
  {
  }

  /** An accepted instruction that is not a conditional runs and leaves the rest accepted. */
  lemma {:induction false} PlainParts(env: Env, ops: seq<Op>, lo: nat, hi: nat, m: Machine)
    requires Fits(ops, lo, hi, m) && lo < hi && !ops[lo].CondIf?
    ensures Step(env, ops[lo], m).Some? && Fits(ops, lo + 1, hi, Step(env, ops[lo], m).value)
    ensures |Step(env, ops[lo], m).value.args| == |m.args|
    ensures Segment(ops, lo + 1, hi, |Step(env, ops[lo], m).value.stack|) == Segment(ops, lo, hi, |m.stack|)
  {
  }

  /** One forward step of a run. */
  lemma {:induction false} RunStep(env: Env, ops: seq<Op>, m: Machine, next: Machine)
    requires m.ip < |ops| && Step(env, ops[m.ip], m) == Some(next) && m.ip < next.ip
    ensures Run(env, ops, m) == Run(env, ops, next)
  {
  }

  /** The machine gets from `lo` to `hi` without a panic or a backward jump, and arrives
      in the state the big-step reading says. */
  lemma {:induction false} RunReaches(env: Env, ops: seq<Op>, lo: nat, hi: nat, m: Machine)
    requires Fits(ops, lo, hi, m)
    ensures Run(env, ops, m) == Run(env, ops, Exec(env, ops, lo, hi, m))
    decreases hi - lo, 1
  {
    hide Run, Segment, Exec, Step;
    if lo == hi {
      ExecNone(env, ops, lo, m);
    } else if ops[lo].CondIf? {
      CondSteps(env, ops, lo, hi, m);
      var next := Step(env, ops[lo], m).value;
      CondParts(env, ops, lo, hi, m, next);
      RunStep(env, ops, m, next);
      RunReachesCond(env, ops, lo, hi, m, next);
    } else {
      PlainParts(env, ops, lo, hi, m);
      ExecPlain(env, ops, lo, hi, m);
      var next := Step(env, ops[lo], m).value;
      RunStep(env, ops, m, next);
      RunReaches(env, ops, lo + 1, hi, next);
    }
  }

  lemma {:induction false} ExecNone(env: Env, ops: seq<Op>, lo: nat, m: Machine)
    requires Fits(ops, lo, lo, m)
    ensures Exec(env, ops, lo, lo, m) == m
  {
  }

  lemma {:induction false} ExecPlain(env: Env, ops: seq<Op>, lo: nat, hi: nat, m: Machine)
    requires Fits(ops, lo, hi, m) && lo < hi && !ops[lo].CondIf?
    requires Step(env, ops[lo], m).Some? && Fits(ops, lo + 1, hi, Step(env, ops[lo], m).value)
    ensures Exec(env, ops, lo, hi, m) == Exec(env, ops, lo + 1, hi, Step(env, ops[lo], m).value)
  {
    hide Segment, Step;
  }

  /** The marker that ends the arm taken jumps or falls just past the conditional. */
  lemma {:induction false} ArmExit(env: Env, ops: seq<Op>, lo: nat, hi: nat, m: Machine, body: Machine)
    requires m.stack != [] && lo < hi <= |ops| && CondAt(ops, lo, hi)
    requires body.ip == ArmEnd(ops, lo, m)
    ensures body.ip < EndIdx(ops, lo) + 1 <= hi
    ensures Step(env, ops[body.ip], body) == Some(body.(ip := EndIdx(ops, lo) + 1))
  {
  }

  /** In a checked conditional the arm taken is checked, and adds the one value the rest expects. */
  lemma {:induction false} CondParts(env: Env, ops: seq<Op>, lo: nat, hi: nat, m: Machine, next: Machine)
    requires Fits(ops, lo, hi, m) && lo < hi && ops[lo].CondIf?
    requires Step(env, ops[lo], m) == Some(next)
    ensures CondAt(ops, lo, hi) && m.stack != []
    ensures lo < next.ip <= ArmEnd(ops, lo, m) <= EndIdx(ops, lo) < hi <= |ops|
    ensures Fits(ops, next.ip, ArmEnd(ops, lo, m), next)
    ensures Segment(ops, next.ip, ArmEnd(ops, lo, m), |next.stack|).d == |m.stack|
    ensures Segment(ops, EndIdx(ops, lo) + 1, hi, |m.stack|) == Segment(ops, lo, hi, |m.stack|)
  {
  }

  /** Executing a conditional is executing the arm taken, then what follows. */
  lemma {:induction false} ExecCond(env: Env, ops: seq<Op>, lo: nat, hi: nat, m: Machine)
    requires Fits(ops, lo, hi, m) && lo < hi && ops[lo].CondIf?
    requires CondAt(ops, lo, hi) && m.stack != []
    ensures var next := Step(env, ops[lo], m).value;
            && Fits(ops, next.ip, ArmEnd(ops, lo, m), next)
            && var after := Exec(env, ops, next.ip, ArmEnd(ops, lo, m), next).(ip := EndIdx(ops, lo) + 1);
               Fits(ops, EndIdx(ops, lo) + 1, hi, after)
               && Exec(env, ops, lo, hi, m) == Exec(env, ops, EndIdx(ops, lo) + 1, hi, after)
  {
    hide Segment;
    CondParts(env, ops, lo, hi, m, Step(env, ops[lo], m).value);
  }

  /** The conditional case: run the arm taken, step over its closing marker, go on. */
  lemma {:induction false} RunReachesCond(env: Env, ops: seq<Op>, lo: nat, hi: nat, m: Machine, next: Machine)
    requires Fits(ops, lo, hi, m) && lo < hi && ops[lo].CondIf?
    requires Step(env, ops[lo], m) == Some(next)
    ensures Run(env, ops, next) == Run(env, ops, Exec(env, ops, lo, hi, m))
    decreases hi - lo, 0
  {
    hide Run, Exec, Segment, Step, Fits;
    CondParts(env, ops, lo, hi, m, next);
    ExecCond(env, ops, lo, hi, m);
    var body := Exec(env, ops, next.ip, ArmEnd(ops, lo, m), next);
    var after := body.(ip := EndIdx(ops, lo) + 1);
    calc {
      Run(env, ops, next);
      { RunReaches(env, ops, next.ip, ArmEnd(ops, lo, m), next); }
      Run(env, ops, body);
      { ArmExit(env, ops, lo, hi, m, body); RunStep(env, ops, body, after); }
      Run(env, ops, after);
      { RunReaches(env, ops, EndIdx(ops, lo) + 1, hi, after); }
      Run(env, ops, Exec(env, ops, EndIdx(ops, lo) + 1, hi, after));
    }
  }

  /** Type soundness: a program the checker accepts halts on every input with exactly one
      value on the stack, or none if it is empty, having made no panic and no backward jump. */
  lemma {:induction false} AcceptedProgramsHalt(env: Env, ops: seq<Op>, args: seq<Num>)
    requires Accepts(ops) && SlotsBelow(ops, |args|)
    ensures Run(env, ops, Start(args)).Halted?
    ensures Run(env, ops, Start(args)).m == Exec(env, ops, 0, |ops|, Start(args))
    ensures |Run(env, ops, Start(args)).m.stack| == if ops == [] then 0 else 1
    ensures Run(env, ops, Start(args)).m.ip == |ops|
  {
    RunReaches(env, ops, 0, |ops|, Start(args));
  }
}
