/** MIN, MAX, ISNAN and FINITE: "any NaN, else fold" against Base's pairwise champion loop. */
module CalcFolds {
  import opened CalcOp
  import opened CalcMachine
  import opened Options

  /** Base's loop: the champion so far meets each argument below it, and stays champion when
      it is larger (smaller, for MIN) or NaN. */
  function Champion(max: bool, vs: seq<Num>): Num
    requires |vs| >= 1
    decreases |vs|
  {
    if |vs| == 1 then vs[0]
    else
      var top := Champion(max, vs[1..]);
      var beaten := if max then Less(vs[0], top) else Less(top, vs[0]);
      if beaten || top.NaN? then top else vs[0]
  }

  /** `x` is one of the values and none of them beats it. */
  predicate Extreme(max: bool, x: Num, vs: seq<Num>) {
    x in vs && forall i :: 0 <= i < |vs| ==> if max then !Less(x, vs[i]) else !Less(vs[i], x)
  }

  lemma {:induction false} ExtremeUnique(max: bool, x: Num, y: Num, vs: seq<Num>)
    requires !AnyNaN(vs) && Extreme(max, x, vs) && Extreme(max, y, vs)
    ensures x == y
  {
  }

  lemma {:induction false} ChampionIsExtreme(max: bool, vs: seq<Num>)
    requires |vs| >= 1
    ensures AnyNaN(vs) ==> Champion(max, vs) == NaN
    ensures !AnyNaN(vs) ==> Extreme(max, Champion(max, vs), vs)
    decreases |vs|
  {
    if |vs| > 1 {
      ChampionIsExtreme(max, vs[1..]);
      assert vs == [vs[0]] + vs[1..];
      assert forall i :: 0 <= i < |vs[1..]| ==> vs[1..][i] == vs[i + 1];
      if AnyNaN(vs) {
        var k :| 0 <= k < |vs| && vs[k].NaN?;
        assert k > 0 ==> vs[1..][k - 1].NaN?;
      }
    }
  }

  lemma {:induction false} FoldIsExtreme(max: bool, acc: Num, vs: seq<Num>)
    requires !acc.NaN? && !AnyNaN(vs)
    ensures Extreme(max, if max then FoldMax(acc, vs) else FoldMin(acc, vs), [acc] + vs)
    decreases |vs|
  {
    if vs != [] {
      var next := if max then Max2(acc, vs[0]) else Min2(acc, vs[0]);
      assert forall i :: 0 <= i < |vs[1..]| ==> vs[1..][i] == vs[i + 1];
      FoldIsExtreme(max, next, vs[1..]);
      ExtremeCons(max, acc, vs, if max then FoldMax(acc, vs) else FoldMin(acc, vs));
    }
  }

  lemma {:induction false} ExtremeCons(max: bool, acc: Num, vs: seq<Num>, r: Num)
    requires vs != [] && !acc.NaN? && !AnyNaN(vs)
    requires Extreme(max, r, [if max then Max2(acc, vs[0]) else Min2(acc, vs[0])] + vs[1..])
    ensures Extreme(max, r, [acc] + vs)
  {
    var all := [if max then Max2(acc, vs[0]) else Min2(acc, vs[0])] + vs[1..];
    assert forall i :: 0 < i < |vs| ==> all[i] == vs[i];
    var k :| 0 <= k < |all| && all[k] == r;
    assert k > 0 ==> vs[k] == r;
    forall i | 0 <= i < |[acc] + vs| ensures if max then !Less(r, ([acc] + vs)[i]) else !Less(([acc] + vs)[i], r) {
      if i < 2 {
        assert ([acc] + vs)[i] == (if i == 0 then acc else vs[0]) && all[0] == all[0];
      } else {
        assert ([acc] + vs)[i] == all[i - 1];
      }
    }
  }

  /** The fold's seed is never beaten into the result: it is the weakest possible value. */
  lemma {:induction false} SeedDrops(max: bool, x: Num, vs: seq<Num>)
    requires vs != [] && !AnyNaN(vs) && Extreme(max, x, [if max then NegInf else PosInf] + vs)
    ensures Extreme(max, x, vs)
  {
    var seed := if max then NegInf else PosInf;
    var all := [seed] + vs;
    assert forall i :: 0 <= i < |vs| ==> all[i + 1] == vs[i];
    if x == seed {
      assert vs[0] == seed;
    }
  }

  /** MIN and MAX agree with Base's champion loop for every argument list: a NaN at any
      position wins, otherwise the extreme argument does. */
  lemma {:induction false} MinMaxIsChampion(vs: seq<Num>)
    requires vs != []
    ensures ApplyVariadic(Min, vs) == Champion(false, vs)
    ensures ApplyVariadic(Max, vs) == Champion(true, vs)
    ensures !AnyNaN(vs) ==> Extreme(false, ApplyVariadic(Min, vs), vs) && Extreme(true, ApplyVariadic(Max, vs), vs)
  {
    ChampionIsExtreme(false, vs);
    ChampionIsExtreme(true, vs);
    if !AnyNaN(vs) {
      FoldIsExtreme(false, PosInf, vs);
      FoldIsExtreme(true, NegInf, vs);
      SeedDrops(false, FoldMin(PosInf, vs), vs);
      SeedDrops(true, FoldMax(NegInf, vs), vs);
      ExtremeUnique(false, FoldMin(PosInf, vs), Champion(false, vs), vs);
      ExtremeUnique(true, FoldMax(NegInf, vs), Champion(true, vs), vs);
    }
  }

  /** Base's OR-fold and AND-fold, from the top of the stack down. */
  function OrFold(vs: seq<Num>): bool
    decreases |vs|
  {
    vs != [] && (OrFold(vs[1..]) || vs[0].NaN?)
  }

  function AndFold(vs: seq<Num>): bool
    decreases |vs|
  {
    vs == [] || (AndFold(vs[1..]) && vs[0].Fin?)
  }

  lemma {:induction false} PredicatesAreFolds(vs: seq<Num>)
    ensures AnyNaN(vs) <==> OrFold(vs)
    ensures AllFinite(vs) <==> AndFold(vs)
    decreases |vs|
  {
    if vs != [] {
      PredicatesAreFolds(vs[1..]);
      assert forall i :: 0 <= i < |vs[1..]| ==> vs[1..][i] == vs[i + 1];
      if AnyNaN(vs) && !vs[0].NaN? {
        var k :| 0 <= k < |vs| && vs[k].NaN?;
        assert vs[1..][k - 1].NaN?;
      }
    }
  }

  /** A variadic call consumes exactly its arguments: whatever lies below them stays, and the
      result on top is Base's. */
  lemma {:induction false} VariadicCall(env: Env, f: Variadic, m: Machine, below: seq<Num>, vs: seq<Num>)
    requires vs != [] && m.stack == below + vs
    ensures Step(env, CallN(f, |vs|), m).Some?
    ensures var r := Step(env, CallN(f, |vs|), m).value;
            && r.stack == below + [match f
                                   case Min => Champion(false, vs)
                                   case Max => Champion(true, vs)
                                   case IsNan => FromBool(OrFold(vs))
                                   case Finite => FromBool(AndFold(vs))]
            && r.args == m.args && r.drawn == m.drawn
  {
    MinMaxIsChampion(vs);
    PredicatesAreFolds(vs);
    assert ApplyVariadic(IsNan, vs) == FromBool(OrFold(vs)) && ApplyVariadic(Finite, vs) == FromBool(AndFold(vs));
    hide ApplyVariadic, Champion, OrFold, AndFold, AnyNaN, AllFinite, FromBool, Extreme;
    assert m.stack[..|m.stack| - |vs|] == below && m.stack[|m.stack| - |vs|..] == vs;
  }
}
