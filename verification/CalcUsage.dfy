/** The dataflow summary of an expression: which operands it reads and which it stores,
    and why a caller may rely on it. */
module CalcUsage {
  import opened CalcOp
  import opened CalcMachine
  import opened CalcChecker
  import opened CalcParser
  import opened CalcShape
  import opened Options
  import opened Seqs

  /** Slots stored by the first `i` instructions. */
  function StoresBefore(ops: seq<Op>, i: nat): set<nat>
    requires i <= |ops|
  {
    set j | 0 <= j < i && ops[j].Store? :: ops[j].slot
  }

  /** Slots fetched by some instruction with no earlier store to the same slot. */
  function Inputs(ops: seq<Op>): set<nat> {
    set j | 0 <= j < |ops| && ops[j].Arg? && ops[j].slot !in StoresBefore(ops, j) :: ops[j].slot
  }

  function Stores(ops: seq<Op>): set<nat> {
    StoresBefore(ops, |ops|)
  }

  /** The slots `ops[lo..hi]` stores to, in order. */
  function StoreList(ops: seq<Op>, lo: nat, hi: nat): seq<nat>
    requires lo <= hi <= |ops|
    decreases hi - lo
  {
    if lo == hi then []
    else (if ops[lo].Store? then [ops[lo].slot] else []) + StoreList(ops, lo + 1, hi)
  }

  /** The flat walk that computes both masks (held here as sets of slots). */
  method ArgUsage(ops: seq<Op>) returns (inputs: set<nat>, stores: set<nat>)
    ensures inputs == Inputs(ops) && stores == Stores(ops)
  {
    inputs, stores := {}, {};
    for i := 0 to |ops|
      invariant stores == StoresBefore(ops, i)
      invariant inputs == set j | 0 <= j < i && ops[j].Arg? && ops[j].slot !in StoresBefore(ops, j) :: ops[j].slot
    {
      match ops[i]
      case Arg(slot) => inputs := inputs + ({slot} - stores);
      case Store(slot) => stores := stores + {slot};
      case _ =>
    }
  }

  predicate Agree(a: seq<Num>, b: seq<Num>, slots: set<nat>) {
    |a| == |b| && forall s :: s in slots && s < |a| ==> a[s] == b[s]
  }

  /** Two machines that differ at most in operands outside `slots`. */
  predicate Alike(m: Machine, m': Machine, slots: set<nat>) {
    && m.ip == m'.ip && m.stack == m'.stack && m.drawn == m'.drawn && m.written == m'.written
    && Agree(m.args, m'.args, slots)
  }

  lemma {:induction false} StoresStep(ops: seq<Op>, i: nat)
    requires i < |ops|
    ensures StoresBefore(ops, i + 1) == StoresBefore(ops, i) + (if ops[i].Store? then {ops[i].slot} else {})
  {
    if ops[i].Store? {
      assert ops[i].slot in StoresBefore(ops, i + 1);
    }
  }

  lemma {:induction false} StoresSkip(ops: seq<Op>, lo: nat, hi: nat)
    requires lo <= hi <= |ops| && NoStore(ops, lo, hi)
    ensures StoresBefore(ops, hi) == StoresBefore(ops, lo)
    ensures StoreList(ops, lo, hi) == []
    decreases hi - lo
  {
    if lo < hi {
      StoresStep(ops, lo);
      StoresSkip(ops, lo + 1, hi);
    }
  }

  /** One instruction outside a conditional keeps two machines alike. */
  lemma {:induction false} StepAlike(env: Env, ops: seq<Op>, lo: nat, m: Machine, m': Machine)
    requires lo < |ops| && !ops[lo].CondIf? && m.ip == lo
    requires Alike(m, m', Inputs(ops) + StoresBefore(ops, lo))
    requires Step(env, ops[lo], m).Some? && Step(env, ops[lo], m').Some?
    ensures Alike(Step(env, ops[lo], m).value, Step(env, ops[lo], m').value, Inputs(ops) + StoresBefore(ops, lo + 1))
  {
    StoresStep(ops, lo);
    if ops[lo].Arg? {
      assert ops[lo].slot in Inputs(ops) + StoresBefore(ops, lo);
    }
  }

  /** Runs of an accepted stretch from like machines end alike: a fetch reads either an input
      or a slot an earlier store has already set, since stores are never skipped. */
  lemma {:induction false} ExecAlike(env: Env, ops: seq<Op>, lo: nat, hi: nat, m: Machine, m': Machine)
    requires Fits(ops, lo, hi, m) && Fits(ops, lo, hi, m') && Nested(ops, lo, hi)
    requires Alike(m, m', Inputs(ops) + StoresBefore(ops, lo))
    ensures Alike(Exec(env, ops, lo, hi, m), Exec(env, ops, lo, hi, m'), Inputs(ops) + StoresBefore(ops, hi))
    decreases hi - lo, 1
  {
    if lo < hi {
      if ops[lo].CondIf? {
        CondAlike(env, ops, lo, hi, m, m');
      } else {
        StepAlike(env, ops, lo, m, m');
        ExecAlike(env, ops, lo + 1, hi, Step(env, ops[lo], m).value, Step(env, ops[lo], m').value);
      }
    }
  }

  /** The pieces of a conditional inside nested code contain no store. */
  lemma {:induction false} ArmStoreless(env: Env, ops: seq<Op>, lo: nat, hi: nat, m: Machine)
    requires Fits(ops, lo, hi, m) && lo < hi && ops[lo].CondIf? && Nested(ops, lo, hi)
    ensures CondAt(ops, lo, hi) && m.stack != []
    ensures var next := Step(env, ops[lo], m).value;
            var armEnd := ArmEnd(ops, lo, m);
            && lo < next.ip <= armEnd <= EndIdx(ops, lo)
            && Nested(ops, next.ip, armEnd) && NoStore(ops, next.ip, armEnd)
            && NoStore(ops, lo, next.ip) && NoStore(ops, lo, EndIdx(ops, lo) + 1)
            && Nested(ops, EndIdx(ops, lo) + 1, hi)
  {
  }

  lemma {:induction false} CondAlike(env: Env, ops: seq<Op>, lo: nat, hi: nat, m: Machine, m': Machine)
    requires Fits(ops, lo, hi, m) && Fits(ops, lo, hi, m') && Nested(ops, lo, hi) && lo < hi && ops[lo].CondIf?
    requires Alike(m, m', Inputs(ops) + StoresBefore(ops, lo))
    ensures Alike(Exec(env, ops, lo, hi, m), Exec(env, ops, lo, hi, m'), Inputs(ops) + StoresBefore(ops, hi))
    decreases hi - lo, 0
  {
    hide Exec, Segment, Nested, Inputs, StoresBefore;
    ArmStoreless(env, ops, lo, hi, m);
    ArmStoreless(env, ops, lo, hi, m');
    ExecCond(env, ops, lo, hi, m);
    ExecCond(env, ops, lo, hi, m');
    var next, next' := Step(env, ops[lo], m).value, Step(env, ops[lo], m').value;
    var armEnd, end := ArmEnd(ops, lo, m), EndIdx(ops, lo) + 1;
    StoresSkip(ops, lo, next.ip);
    StoresSkip(ops, next.ip, armEnd);
    StoresSkip(ops, lo, end);
    ExecAlike(env, ops, next.ip, armEnd, next, next');
    var after := Exec(env, ops, next.ip, armEnd, next).(ip := end);
    var after' := Exec(env, ops, next.ip, armEnd, next').(ip := end);
    ExecAlike(env, ops, end, hi, after, after');
  }

  /** Operands outside the stored slots are untouched, and every store is executed, in order. */
  predicate StoresRan(ops: seq<Op>, lo: nat, hi: nat, m: Machine, r: Machine)
    requires lo <= hi <= |ops|
  {
    && r.written == m.written + StoreList(ops, lo, hi)
    && |r.args| == |m.args|
    && forall s :: 0 <= s < |m.args| && s !in StoreList(ops, lo, hi) ==> r.args[s] == m.args[s]
  }

  lemma {:induction false} ExecStores(env: Env, ops: seq<Op>, lo: nat, hi: nat, m: Machine)
    requires Fits(ops, lo, hi, m) && Nested(ops, lo, hi)
    ensures StoresRan(ops, lo, hi, m, Exec(env, ops, lo, hi, m))
    decreases hi - lo, 1
  {
    if lo == hi {
      assert m.written + [] == m.written;
    } else if ops[lo].CondIf? {
      CondStores(env, ops, lo, hi, m);
    } else {
      var next := Step(env, ops[lo], m).value;
      ExecStores(env, ops, lo + 1, hi, next);
      StepStores(env, ops, lo, hi, m, Exec(env, ops, lo + 1, hi, next));
    }
  }

  lemma {:induction false} StepStores(env: Env, ops: seq<Op>, lo: nat, hi: nat, m: Machine, r: Machine)
    requires lo < hi <= |ops| && !ops[lo].CondIf? && Step(env, ops[lo], m).Some?
    requires StoresRan(ops, lo + 1, hi, Step(env, ops[lo], m).value, r)
    ensures StoresRan(ops, lo, hi, m, r)
  {
    Assoc(m.written, if ops[lo].Store? then [ops[lo].slot] else [], StoreList(ops, lo + 1, hi));
    assert m.written + [] == m.written;
  }

  lemma {:induction false} CondStores(env: Env, ops: seq<Op>, lo: nat, hi: nat, m: Machine)
    requires Fits(ops, lo, hi, m) && Nested(ops, lo, hi) && lo < hi && ops[lo].CondIf?
    ensures StoresRan(ops, lo, hi, m, Exec(env, ops, lo, hi, m))
    decreases hi - lo, 0
  {
    hide Exec, Segment, Nested, StoreList;
    ArmStoreless(env, ops, lo, hi, m);
    ExecCond(env, ops, lo, hi, m);
    var next := Step(env, ops[lo], m).value;
    var armEnd, end := ArmEnd(ops, lo, m), EndIdx(ops, lo) + 1;
    ExecStores(env, ops, next.ip, armEnd, next);
    StoresSkip(ops, next.ip, armEnd);
    StoresSkip(ops, lo, end);
    var after := Exec(env, ops, next.ip, armEnd, next).(ip := end);
    assert next.written + [] == next.written;
    ExecStores(env, ops, end, hi, after);
    StoreListSplit(ops, lo, end, hi);
    assert [] + StoreList(ops, end, hi) == StoreList(ops, end, hi);
  }

  lemma {:induction false} StoreListHead(ops: seq<Op>, lo: nat, hi: nat)
    requires lo < hi <= |ops|
    ensures StoreList(ops, lo, hi) == (if ops[lo].Store? then [ops[lo].slot] else []) + StoreList(ops, lo + 1, hi)
  {
  }

  lemma {:induction false} StoreListSplit(ops: seq<Op>, lo: nat, mid: nat, hi: nat)
    requires lo <= mid <= hi <= |ops|
    ensures StoreList(ops, lo, hi) == StoreList(ops, lo, mid) + StoreList(ops, mid, hi)
    decreases mid - lo
  {
    if lo == mid {
      assert [] + StoreList(ops, mid, hi) == StoreList(ops, mid, hi);
    } else {
      StoreListHead(ops, lo, mid);
      StoreListHead(ops, lo, hi);
      hide StoreList;
      StoreListSplit(ops, lo + 1, mid, hi);
      Assoc(if ops[lo].Store? then [ops[lo].slot] else [], StoreList(ops, lo + 1, mid), StoreList(ops, mid, hi));
    }
  }

  lemma {:induction false} StoreAt(ops: seq<Op>, lo: nat, hi: nat, s: nat) returns (j: nat)
    requires lo <= hi <= |ops| && s in StoreList(ops, lo, hi)
    ensures lo <= j < hi && ops[j] == Store(s)
    decreases hi - lo
  {
    if ops[lo].Store? && ops[lo].slot == s {
      j := lo;
    } else {
      j := StoreAt(ops, lo + 1, hi, s);
    }
  }

  lemma {:induction false} ListsStore(ops: seq<Op>, lo: nat, hi: nat, j: nat)
    requires lo <= j < hi <= |ops| && ops[j].Store?
    ensures ops[j].slot in StoreList(ops, lo, hi)
    decreases j - lo
  {
    if lo < j {
      ListsStore(ops, lo + 1, hi, j);
    }
  }

  lemma {:induction false} StoreListIsStores(ops: seq<Op>, lo: nat, hi: nat, s: nat)
    requires lo <= hi <= |ops|
    ensures s in StoreList(ops, lo, hi) <==> exists j :: lo <= j < hi && ops[j] == Store(s)
  {
    if s in StoreList(ops, lo, hi) {
      var j := StoreAt(ops, lo, hi, s);
    }
    if exists j :: lo <= j < hi && ops[j] == Store(s) {
      var j :| lo <= j < hi && ops[j] == Store(s);
      ListsStore(ops, lo, hi, j);
    }
  }

  /** The summary may be trusted: for any accepted expression, two operand arrays that agree on
      the inputs give the same answer, draws and stored values; every store in the program
      runs exactly once and in order, and no other operand changes. */
  lemma {:induction false} UsageIsSound(env: Env, toks: seq<Token>, a: seq<Num>, b: seq<Num>)
    requires Compiled(toks).Some? && forall i :: 0 <= i < |toks| ==> TokenOk(toks[i], |a|)
    requires Agree(a, b, Inputs(Compiled(toks).value))
    ensures var ops := Compiled(toks).value;
            var r, r' := Run(env, ops, Start(a)), Run(env, ops, Start(b));
            && r.Halted? && r'.Halted?
            && r.m.stack == r'.m.stack && r.m.drawn == r'.m.drawn && Answer(r.m) == Answer(r'.m)
            && Agree(r.m.args, r'.m.args, Inputs(ops) + Stores(ops))
            && r.m.written == StoreList(ops, 0, |ops|)
            && |r.m.args| == |a|
            && forall s :: 0 <= s < |a| && s !in Stores(ops) ==> r.m.args[s] == a[s]
  {
    var ops := Compiled(toks).value;
    EmittedNests(toks, |a|);
    AcceptedProgramsHalt(env, ops, a);
    AcceptedProgramsHalt(env, ops, b);
    hide Exec, Compiled, Run, Nested;
    assert Inputs(ops) + StoresBefore(ops, 0) == Inputs(ops);
    ExecAlike(env, ops, 0, |ops|, Start(a), Start(b));
    ExecStores(env, ops, 0, |ops|, Start(a));
    assert [] + StoreList(ops, 0, |ops|) == StoreList(ops, 0, |ops|);
    forall s | 0 <= s < |a| && s !in Stores(ops)
      ensures Exec(env, ops, 0, |ops|, Start(a)).args[s] == a[s]
    {
      StoreListIsStores(ops, 0, |ops|, s);
    }
  }
}
