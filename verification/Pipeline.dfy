/** Credit in a pipelined monitor: the client's acknowledgements, the two directions of the
    connection, and the server's window, as steps in any order. */
module Pipeline {
  import opened Options
  import opened PvaFrame
  import opened Encoding

  const MAX_PIPELINE_WINDOW: nat := 4096

  /** What a server does with an ACK of n updates: add n to its credit, as the protocol has it, or
      set its credit to n, as this repository's registry does. Either way it keeps to a ceiling. */
  datatype Policy = Adds | Sets

  datatype Params = Params(queueSize: nat, policy: Policy, ceiling: nat)

  /** The client asks for a positive 32-bit queue size. */
  predicate ParamsOk(p: Params) {
    0 < p.queueSize < U32 && 0 < p.ceiling
  }

  function Threshold(queueSize: nat): nat {
    if queueSize / 2 > 1 then queueSize / 2 else 1
  }

  function Min(a: nat, b: nat): nat {
    if a < b then a else b
  }

  /** The window the server grants. */
  function Window(p: Params): nat {
    Min(p.queueSize, p.ceiling)
  }

  /** The server's credit, updates on the wire, updates consumed since the last ACK, and ACKs on
      the wire. */
  datatype State = State(free: nat, updates: nat, unacked: nat, acks: seq<nat>)

  function Start(p: Params): State {
    State(Window(p), 0, 0, [])
  }

  /** One consumed update: the new count, and the ACK if one is due. */
  function OnConsume(unacked: nat, threshold: nat): (nat, Option<nat>) {
    var n := Min(unacked + 1, U32 - 1);
    if n >= threshold then (0, Some(n)) else (n, None)
  }

  /** The server posts an update; the client consumes one, whether or not it decodes; an ACK
      reaches the server. */
  datatype Action = Post | Consume(decodes: bool) | Deliver

  /** The server posts only on credit. */
  predicate Enabled(s: State, a: Action) {
    match a
    case Post => s.free > 0
    case Consume(_) => s.updates > 0
    case Deliver => s.acks != []
  }

  function Credit(p: Params, free: nat, n: nat): nat {
    match p.policy
    case Adds => Min(Min(free + n, U32 - 1), p.ceiling)
    case Sets => Min(n, p.ceiling)
  }

  function Apply(s: State, a: Action, p: Params): State
    requires Enabled(s, a)
  {
    match a
    case Post => s.(free := s.free - 1, updates := s.updates + 1)
    case Consume(_) =>
      var (unacked, ack) := OnConsume(s.unacked, Threshold(p.queueSize));
      s.(updates := s.updates - 1, unacked := unacked, acks := if ack.Some? then s.acks + [ack.value] else s.acks)
    case Deliver => s.(free := Credit(p, s.free, s.acks[0]), acks := s.acks[1..])
  }

  function Run(s: State, actions: seq<Action>, p: Params): Option<State>
    decreases |actions|
  {
    if actions == [] then Some(s)
    else if !Enabled(s, actions[0]) then None
    else Run(Apply(s, actions[0], p), actions[1..], p)
  }

  ghost predicate Reachable(s: State, p: Params) {
    exists actions :: Run(Start(p), actions, p) == Some(s)
  }

  function Sum(ns: seq<nat>): nat
    decreases |ns|
  {
    if ns == [] then 0 else ns[0] + Sum(ns[1..])
  }

  /** Every credit there is: at the server, spent on updates under way, waiting to be
      acknowledged, and on its way back. */
  function Total(s: State): nat {
    s.free + s.updates + s.unacked + Sum(s.acks)
  }

  // ----- The invariant -----

  /** Each ACK is for exactly a threshold, and less than one is outstanding. */
  ghost predicate AcksOk(s: State, t: nat) {
    s.unacked < t && forall i :: 0 <= i < |s.acks| ==> s.acks[i] == t
  }

  /** With no ACK under way, enough credit is about to bring the next one. */
  ghost predicate Live(s: State, t: nat) {
    s.acks == [] ==> s.free + s.updates + s.unacked >= t
  }

  ghost predicate Inv(s: State, p: Params) {
    && AcksOk(s, Threshold(p.queueSize))
    && Total(s) <= Window(p)
    && (p.policy.Adds? ==> Total(s) == Window(p))
    && (Threshold(p.queueSize) <= p.ceiling ==> Live(s, Threshold(p.queueSize)))
  }

  lemma {:induction false} SumAppend(ns: seq<nat>, n: nat)
    ensures Sum(ns + [n]) == Sum(ns) + n
    decreases |ns|
  {
    if ns == [] {
      assert ns + [n] == [n];
    } else {
      assert (ns + [n])[1..] == ns[1..] + [n];
      SumAppend(ns[1..], n);
    }
  }

  lemma {:induction false} ThresholdFits(p: Params)
    requires ParamsOk(p)
    ensures 1 <= Threshold(p.queueSize) <= p.queueSize && Threshold(p.queueSize) < U32
    ensures Threshold(p.queueSize) <= Window(p) <==> Threshold(p.queueSize) <= p.ceiling
    ensures Threshold(p.queueSize) <= p.ceiling <==> p.queueSize / 2 <= p.ceiling
  {
  }

  lemma {:induction false} ConsumeKeeps(s: State, decodes: bool, p: Params)
    requires ParamsOk(p) && Inv(s, p) && Enabled(s, Consume(decodes))
    ensures Inv(Apply(s, Consume(decodes), p), p)
    ensures Total(Apply(s, Consume(decodes), p)) == Total(s)
  {
    ThresholdFits(p);
    var t := Threshold(p.queueSize);
    hide Threshold, Window;
    SumAppend(s.acks, t);
  }

  lemma {:induction false} DeliverKeeps(s: State, p: Params)
    requires ParamsOk(p) && Inv(s, p) && Enabled(s, Deliver)
    ensures Inv(Apply(s, Deliver, p), p)
  {
    ThresholdFits(p);
    hide Threshold;
    assert Sum(s.acks) == s.acks[0] + Sum(s.acks[1..]);
  }

  lemma {:induction false} StepKeeps(s: State, a: Action, p: Params)
    requires ParamsOk(p) && Inv(s, p) && Enabled(s, a)
    ensures Inv(Apply(s, a, p), p)
  {
    match a
    case Post =>
    case Consume(decodes) => ConsumeKeeps(s, decodes, p);
    case Deliver => DeliverKeeps(s, p);
  }

  lemma {:induction false} RunKeeps(s: State, actions: seq<Action>, p: Params)
    requires ParamsOk(p) && Inv(s, p) && Run(s, actions, p).Some?
    ensures Inv(Run(s, actions, p).value, p)
    decreases |actions|
  {
    hide Inv, Apply, Enabled;
    if actions != [] {
      StepKeeps(s, actions[0], p);
      RunKeeps(Apply(s, actions[0], p), actions[1..], p);
    }
  }

  lemma {:induction false} ReachableInv(s: State, p: Params)
    requires ParamsOk(p) && Reachable(s, p)
    ensures Inv(s, p)
  {
    ThresholdFits(p);
    assert Inv(Start(p), p);
    var actions :| Run(Start(p), actions, p) == Some(s);
    RunKeeps(Start(p), actions, p);
  }

  // ----- Conservation -----

  /** Against a server that adds, whatever subset of updates fails to decode, credit is neither
      lost nor made: it always sums to the window. */
  lemma {:induction false} CreditIsConserved(s: State, p: Params)
    requires ParamsOk(p) && p.policy.Adds? && Reachable(s, p)
    ensures s.free + s.updates + s.unacked + Sum(s.acks) == Window(p)
  {
    ReachableInv(s, p);
  }

  /** Against either server, the updates under way never exceed the window. */
  lemma {:induction false} WindowIsKept(s: State, p: Params)
    requires ParamsOk(p) && Reachable(s, p)
    ensures s.updates + s.free <= Window(p) <= p.queueSize
  {
    ReachableInv(s, p);
  }

  /** Against the registry, which sets, a delivered ACK keeps the sum exactly when the server had
      no credit left; otherwise the credit it still had is lost. */
  lemma {:induction false} SettingConservesIffSpent(s: State, p: Params)
    requires ParamsOk(p) && p.policy.Sets? && Reachable(s, p) && s.acks != []
    ensures Total(Apply(s, Deliver, p)) == Total(s) - s.free
    ensures Total(Apply(s, Deliver, p)) == Total(s) <==> s.free == 0
  {
    ReachableInv(s, p);
    assert Sum(s.acks) == s.acks[0] + Sum(s.acks[1..]);
  }

  /** Two updates consumed and acknowledged out of a window of four leave two credits, not four. */
  lemma {:induction false} SettingLosesCredit()
    ensures var p := Params(4, Sets, MAX_PIPELINE_WINDOW);
            && Run(Start(p), [Post, Post, Consume(true), Consume(false), Deliver], p) == Some(State(2, 0, 0, []))
            && Total(State(2, 0, 0, [])) < Window(p)
  {
    var p := Params(4, Sets, MAX_PIPELINE_WINDOW);
    var s1 := Apply(Start(p), Post, p);
    var s2 := Apply(s1, Post, p);
    var s3 := Apply(s2, Consume(true), p);
    var s4 := Apply(s3, Consume(false), p);
    assert s4 == State(2, 0, 0, [2]);
    var s5 := Apply(s4, Deliver, p);
    hide Apply;
    assert Run(s5, [], p) == Some(s5);
    assert Run(s4, [Deliver], p) == Some(s5);
    assert Run(s3, [Consume(false), Deliver], p) == Some(s5);
    assert Run(s2, [Consume(true), Consume(false), Deliver], p) == Some(s5);
    assert Run(s1, [Post, Consume(true), Consume(false), Deliver], p) == Some(s5);
  }

  // ----- No stall -----

  /** Both directions have drained. */
  predicate Drained(s: State) {
    s.updates == 0 && s.acks == []
  }

  /** Post `n` updates, then consume them all. */
  function Burst(n: nat): seq<Action> {
    seq(n, _ => Post) + seq(n, _ => Consume(true))
  }

  lemma {:induction false} RunAppend(s: State, a: seq<Action>, b: seq<Action>, p: Params)
    requires Run(s, a, p).Some?
    ensures Run(s, a + b, p) == Run(Run(s, a, p).value, b, p)
    decreases |a|
  {
    if a == [] {
      assert a + b == b;
    } else {
      assert (a + b)[1..] == a[1..] + b;
      RunAppend(Apply(s, a[0], p), a[1..], b, p);
    }
  }

  lemma {:induction false} Posts(s: State, n: nat, p: Params)
    requires n <= s.free
    ensures Run(s, seq(n, _ => Post), p) == Some(s.(free := s.free - n, updates := s.updates + n))
    decreases n
  {
    if n > 0 {
      assert seq(n, _ => Post)[1..] == seq(n - 1, _ => Post);
      Posts(Apply(s, Post, p), n - 1, p);
    }
  }

  /** Short of the threshold, updates are consumed without an ACK. */
  lemma {:induction false} Consumes(s: State, n: nat, p: Params)
    requires n <= s.updates && s.unacked + n < Threshold(p.queueSize) && Threshold(p.queueSize) < U32
    ensures Run(s, seq(n, _ => Consume(true)), p) == Some(s.(updates := s.updates - n, unacked := s.unacked + n))
    decreases n
  {
    if n > 0 {
      assert seq(n, _ => Consume(true))[1..] == seq(n - 1, _ => Consume(true));
      Consumes(Apply(s, Consume(true), p), n - 1, p);
    }
  }

  // ----- When the registry conserves -----

  /** Setting loses nothing along a run while the threshold is at least the window: an ACK can
      then only be for all there is. */
  lemma {:induction false} SettingConserves(s: State, actions: seq<Action>, p: Params)
    requires ParamsOk(p) && p.policy.Sets? && Window(p) <= Threshold(p.queueSize)
    requires Inv(s, p) && Total(s) == Window(p) && Run(s, actions, p).Some?
    ensures Total(Run(s, actions, p).value) == Window(p)
    decreases |actions|
  {
    if actions != [] {
      var a := actions[0];
      StepKeeps(s, a, p);
      assert Total(Apply(s, a, p)) == Total(s) by {
        ThresholdFits(p);
        if a.Consume? {
          ConsumeKeeps(s, a.decodes, p);
        } else if a.Deliver? {
          assert Sum(s.acks) == s.acks[0] + Sum(s.acks[1..]);
        }
      }
      hide Inv, Apply, Enabled, Total;
      SettingConserves(Apply(s, a, p), actions[1..], p);
    }
  }

  /** The last update of a threshold brings its ACK. */
  lemma {:induction false} ConsumesThreshold(s: State, p: Params)
    requires s.acks == [] && s.unacked == 0 && Threshold(p.queueSize) <= s.updates && Threshold(p.queueSize) < U32
    ensures var t := Threshold(p.queueSize);
            Run(s, seq(t, _ => Consume(true)), p) == Some(s.(updates := s.updates - t, acks := [t]))
  {
    var t := Threshold(p.queueSize);
    Consumes(s, t - 1, p);
    var s1 := s.(updates := s.updates - (t - 1), unacked := t - 1);
    assert Apply(s1, Consume(true), p) == s.(updates := s.updates - t, acks := [t]) by {
      assert s1.acks + [t] == [t];
    }
    assert [Consume(true)][1..] == [];
    assert Run(Apply(s1, Consume(true), p), [], p) == Some(Apply(s1, Consume(true), p));
    assert Run(s1, [Consume(true)], p) == Some(Apply(s1, Consume(true), p));
    RunAppend(s, seq(t - 1, _ => Consume(true)), [Consume(true)], p);
    assert seq(t, _ => Consume(true)) == seq(t - 1, _ => Consume(true)) + [Consume(true)];
  }

  /** With a window beyond the threshold, acknowledging the first threshold of updates loses the
      rest of the window. */
  lemma {:induction false} SettingLoses(p: Params)
    requires ParamsOk(p) && p.policy.Sets? && Threshold(p.queueSize) < Window(p)
    ensures var s := State(Threshold(p.queueSize), 0, 0, []); Reachable(s, p) && Total(s) < Window(p)
  {
    ThresholdFits(p);
    var t, w := Threshold(p.queueSize), Window(p);
    var posts, consumes := seq(t, _ => Post), seq(t, _ => Consume(true));
    var s1, s2 := State(w - t, t, 0, []), State(w - t, 0, 0, [t]);
    Posts(Start(p), t, p);
    ConsumesThreshold(s1, p);
    RunAppend(Start(p), posts, consumes, p);
    RunAppend(Start(p), posts + consumes, [Deliver], p);
    assert [Deliver][1..] == [] && Apply(s2, Deliver, p) == State(t, 0, 0, []);
    assert Run(Apply(s2, Deliver, p), [], p) == Some(State(t, 0, 0, []));
    assert Run(s2, [Deliver], p) == Some(State(t, 0, 0, []));
    assert Run(Start(p), posts + consumes + [Deliver], p) == Some(State(t, 0, 0, []));
    assert Sum([]) == 0;
  }

  /** Against a server that sets, credit is conserved over every run exactly when the window it
      grants is no more than the client's threshold. */
  lemma {:induction false} SettingConservesIff(p: Params)
    requires ParamsOk(p) && p.policy.Sets?
    ensures (forall s :: Reachable(s, p) ==> Total(s) == Window(p)) <==> Window(p) <= Threshold(p.queueSize)
  {
    if Window(p) <= Threshold(p.queueSize) {
      forall s | Reachable(s, p) ensures Total(s) == Window(p) {
        ThresholdFits(p);
        assert Inv(Start(p), p);
        var actions :| Run(Start(p), actions, p) == Some(s);
        SettingConserves(Start(p), actions, p);
      }
    } else {
      SettingLoses(p);
    }
  }

  /** With this repository's server that leaves a queue size of one, and those of 8192 and up. */
  lemma {:induction false} RegistryConservesIff(queueSize: nat)
    requires 0 < queueSize < U32
    ensures var p := Params(queueSize, Sets, MAX_PIPELINE_WINDOW);
            (forall s :: Reachable(s, p) ==> Total(s) == Window(p)) <==> queueSize == 1 || queueSize >= 8192
  {
    SettingConservesIff(Params(queueSize, Sets, MAX_PIPELINE_WINDOW));
  }

  /** When the threshold is beyond the window, the whole window can be consumed with no ACK: the
      server is out of credit, nothing is under way, and no step is possible ever again. */
  lemma {:induction false} SmallWindowStalls(p: Params)
    requires ParamsOk(p) && Window(p) < Threshold(p.queueSize)
    ensures var s := State(0, 0, Window(p), []);
            Reachable(s, p) && Drained(s) && forall a :: !Enabled(s, a)
  {
    ThresholdFits(p);
    var w := Window(p);
    var s1 := State(0, w, 0, []);
    hide Threshold, Window;
    Posts(Start(p), w, p);
    Consumes(s1, w, p);
    RunAppend(Start(p), seq(w, _ => Post), seq(w, _ => Consume(true)), p);
    assert Run(Start(p), Burst(w), p) == Some(State(0, 0, w, []));
  }

  /** Against either server, the monitor never stalls (once both directions drain the server has
      credit to post with) exactly when half the queue size fits the server's ceiling. */
  lemma {:induction false} NeverStallsIff(p: Params)
    requires ParamsOk(p)
    ensures (forall s :: Reachable(s, p) && Drained(s) ==> s.free >= 1) <==> p.queueSize / 2 <= p.ceiling
  {
    ThresholdFits(p);
    if p.queueSize / 2 <= p.ceiling {
      forall s | Reachable(s, p) && Drained(s) ensures s.free >= 1 {
        ReachableInv(s, p);
      }
    } else {
      SmallWindowStalls(p);
      assert Drained(State(0, 0, Window(p), []));
    }
  }

  /** With this repository's server the queue sizes that cannot stall are those up to 8193. */
  lemma {:induction false} RegistryNeverStallsIff(queueSize: nat)
    requires 0 < queueSize < U32
    ensures var p := Params(queueSize, Sets, MAX_PIPELINE_WINDOW);
            (forall s :: Reachable(s, p) && Drained(s) ==> s.free >= 1) <==> queueSize <= 8193
  {
    NeverStallsIff(Params(queueSize, Sets, MAX_PIPELINE_WINDOW));
  }

  // ----- The client's side, in place -----

  class AckCounter {
    const threshold: nat
    var unacked: nat

    constructor (queueSize: nat)
      requires 0 < queueSize < U32
      ensures threshold == Threshold(queueSize) && unacked == 0
    {
      threshold := if queueSize / 2 > 1 then queueSize / 2 else 1;
      unacked := 0;
    }

    /** One consumed update. The ACK's body, when there is one, reads back as the credit it
        returns. */
    method Consumed(big: bool) returns (body: Option<seq<byte>>)
      requires unacked < U32
      modifies this
      ensures unacked == OnConsume(old(unacked), threshold).0 < U32
      ensures match OnConsume(old(unacked), threshold).1
              case None => body.None?
              case Some(n) => body.Some? && |body.value| == 4 && FromBytes(body.value, big) == n
    {
      unacked := if unacked + 1 < U32 then unacked + 1 else U32 - 1;
      if unacked >= threshold {
        BytesRoundTrip(unacked, big);
        body := Some(ToBytes(unacked, big));
        unacked := 0;
      } else {
        body := None;
      }
    }
  }

  /** The update inside a MONITOR data message for `ioid`, read in place; nothing for any other
      frame. Only such a message costs a credit. */
  function DataBody(bytes: seq<byte>, ioid: nat, big: bool): Option<seq<byte>> {
    if |bytes| < HEADER + 4 + 1 || IsControl(bytes[..HEADER]) || Command(bytes[..HEADER]) != 13 then None
    else if FromBytes(bytes[HEADER..HEADER + 4], big) != ioid || bytes[HEADER + 4] != 0 then None
    else Some(bytes[HEADER + 5..])
  }

  /** The fixed offsets pick out exactly the messages made of an application MONITOR header, the
      ioid, a zero subcommand and the update. */
  lemma {:induction false} DataBodyIff(bytes: seq<byte>, ioid: nat, big: bool, body: seq<byte>)
    requires ioid < U32
    ensures DataBody(bytes, ioid, big) == Some(body) <==>
              && |bytes| >= HEADER && !IsControl(bytes[..HEADER]) && Command(bytes[..HEADER]) == 13
              && bytes == bytes[..HEADER] + ToBytes(ioid, big) + [0] + body
  {
    if |bytes| >= HEADER + 5 {
      var id := bytes[HEADER..HEADER + 4];
      BytesDetermined(id, big);
      BytesRoundTrip(ioid, big);
      assert bytes == bytes[..HEADER] + id + [bytes[HEADER + 4]] + bytes[HEADER + 5..];
      if bytes == bytes[..HEADER] + ToBytes(ioid, big) + [0] + body {
        var there := bytes[..HEADER] + ToBytes(ioid, big) + [0] + body;
        assert there[HEADER..HEADER + 4] == ToBytes(ioid, big) && there[HEADER + 4] == 0 && there[HEADER + 5..] == body;
      }
    }
  }
}
