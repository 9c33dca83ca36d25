/** When pooled connections stay at a frame boundary with no request open: in every run whose
    handshakes lose nothing and whose operations are not misread. */
module PooledBoundary {
  import opened Options
  import opened ConnPools
  import opened PooledOps
  import opened PooledCalls

  predicate Pure(c: Conn) {
    c.lostAtDial == [] && c.requests == {}
  }

  ghost predicate PureStack(stack: seq<Conn>) {
    forall c :: c in stack ==> Pure(c)
  }

  ghost predicate PureIdle(idle: Idle) {
    forall a :: a in idle ==> PureStack(idle[a])
  }

  ghost predicate PureCalls(calls: Calls) {
    forall c :: c in calls && HasConn(calls[c]) ==> Pure(calls[c].stage.conn)
  }

  /** The step's opening reads end between frames, and its operation is not misread. */
  predicate Fair(calls: Calls, a: Action) {
    && (a.Dials? && a.dial.Connects? ==> EndsWhole(a.dial.first, a.dial.second))
    && (a.Perform? && a.c in calls ==> !Misread(calls[a.c].op, a.script))
  }

  predicate FairRun(s: State, actions: seq<Action>, cfg: Config)
    requires Run(s, actions, cfg).Some?
    decreases |actions|
  {
    |actions| == 0 || (Fair(s.calls, actions[0]) && FairRun(Apply(s, actions[0], cfg), actions[1..], cfg))
  }

  lemma {:induction false} CheckoutPure(idle: Idle, addr: Addr, now: Time, cfg: Config)
    requires PureIdle(idle)
    ensures var (idle', hit) := Checkout(idle, addr, now, cfg);
            PureIdle(idle') && (hit.Some? ==> Pure(hit.value))
  {
    if cfg.ttl.Some? && addr in idle {
      var stack := idle[addr];
      assert PureStack(stack);
      PopIs(stack, now, cfg.ttl.value);
      var (rest, hit) := PopFresh(stack, now, cfg.ttl.value);
      hide PopFresh;
      assert PureStack(rest) by { assert forall c :: c in rest ==> c in stack; }
      assert hit.Some? ==> stack[|rest|] in stack;
    }
  }

  lemma {:induction false} CheckinPure(idle: Idle, c: Conn, now: Time, cfg: Config)
    requires PureIdle(idle) && Pure(c)
    ensures PureIdle(Checkin(idle, c, now, cfg))
  {
    if cfg.ttl.Some? && cfg.max > 0 {
      var stack := StackOf(idle, c.addr);
      SweptIs(stack, now, cfg.ttl.value);
      hide Swept;
      assert PureStack(stack);
    }
  }

  lemma {:induction false} DisposePure(s: State, conn: Conn, fate: Fate, name: Name, cfg: Config)
    requires PureIdle(s.idle) && (!fate.Discard? ==> Pure(conn))
    ensures PureIdle(Dispose(s, conn, fate, name, cfg).idle)
  {
    hide PureIdle, Checkin;
    if !fate.Discard? {
      CheckinPure(s.idle, Kept(conn, fate, name), s.now, cfg);
    }
  }

  lemma {:induction false} ConcludePure(s: State, c: CallId, conn: Conn, fate: Fate, t: Try, retry: bool, cfg: Config)
    requires c in s.calls && PureIdle(s.idle) && PureCalls(s.calls) && (!fate.Discard? ==> Pure(conn))
    ensures var s' := Conclude(Dispose(s, conn, fate, s.calls[c].name, cfg), c, t, retry);
            PureIdle(s'.idle) && PureCalls(s'.calls)
  {
    DisposePure(s, conn, fate, s.calls[c].name, cfg);
    DisposeFrame(s, conn, fate, s.calls[c].name, cfg);
    hide Dispose, PureIdle, Pure;
  }

  lemma {:induction false} DialPure(s: State, c: CallId, dial: Dialling)
    requires c in s.calls && PureIdle(s.idle) && PureCalls(s.calls) && Fair(s.calls, Dials(c, dial))
    ensures PureIdle(DialStep(s, c, dial).idle) && PureCalls(DialStep(s, c, dial).calls)
  {
    var k := s.calls[c];
    if Handshake(s.next, k.addr, c, s.now, dial).Ok? {
      HandshakeIsQuiet(s.next, k.addr, c, s.now, dial);
    }
    hide Handshake, EndsWhole, PureStack, Refile;
  }

  lemma {:induction false} OpenPure(s: State, c: CallId, o: Creation, cfg: Config)
    requires Inv(s, cfg) && Enabled(s, Open(c, o)) && PureIdle(s.idle) && PureCalls(s.calls)
    ensures PureIdle(OpenStep(s, c, o, cfg).idle) && PureCalls(OpenStep(s, c, o, cfg).calls)
  {
    HeldIsQuiet(s, c, cfg);
    var k := s.calls[c];
    SidIsTidy(k.stage.conn, k.name, o);
    var (conn, sid) := ChannelSid(k.stage.conn, k.name, o);
    hide Inv, ChannelSid, Conclude, Dispose, Quiet, PureIdle;
    assert Pure(conn);
    if sid.Err? {
      var e := sid.error;
      var t := Try(conn.id, k.stage.conn.reused, conn.dialledBy, false, 0, Some(e));
      ConcludePure(s, c, conn, FateAfterChannel(e), t, RetryAfterChannel(e, k.stage.conn.reused, k.attempt), cfg);
    }
  }

  lemma {:induction false} PerformPure(s: State, c: CallId, ioid: Ioid, script: Script, cfg: Config)
    requires Inv(s, cfg) && Enabled(s, Perform(c, ioid, script)) && Fair(s.calls, Perform(c, ioid, script))
    requires PureIdle(s.idle) && PureCalls(s.calls)
    ensures var s' := PerformStep(s, c, ioid, script, cfg); PureIdle(s'.idle) && PureCalls(s'.calls)
  {
    HeldIsQuiet(s, c, cfg);
    var k := s.calls[c];
    var conn := k.stage.conn;
    assert Pure(conn);
    OpIsTidy(k.op, conn, ioid, script, conn.reused, k.attempt);
    RequestStaysOpenIff(k.op, conn, ioid, script);
    hide Inv, RunOp, Conclude, Dispose, Quiet, PureIdle, PureCalls, FateAfterOp;
    var end := RunOp(k.op, conn, ioid, script);
    var t := Try(end.conn.id, conn.reused, end.conn.dialledBy, end.ctx.committed, end.written, end.error);
    ConcludePure(s, c, end.conn, FateAfterOp(end), t, RetryAfterOp(end, conn.reused, k.attempt), cfg);
  }

  lemma {:induction false} DrawPure(s: State, c: CallId, cfg: Config)
    requires c in s.calls && PureIdle(s.idle) && PureCalls(s.calls)
    ensures PureIdle(DrawStep(s, c, cfg).idle) && PureCalls(DrawStep(s, c, cfg).calls)
  {
    CheckoutPure(s.idle, s.calls[c].addr, s.now, cfg);
    hide Checkout, PureIdle, Pure, Refile;
  }

  lemma {:induction false} StepPure(s: State, a: Action, cfg: Config)
    requires Inv(s, cfg) && Enabled(s, a) && Fair(s.calls, a) && PureIdle(s.idle) && PureCalls(s.calls)
    ensures PureIdle(Apply(s, a, cfg).idle) && PureCalls(Apply(s, a, cfg).calls)
  {
    if a.Begin? || a.Cancel? || a.Pass? {
      hide Inv, Pure, PureIdle;
    } else {
      hide Inv, Fair, Pure, PureIdle, PureCalls, DrawStep, DialStep, OpenStep, PerformStep;
      if a.Draw? {
        DrawPure(s, a.c, cfg);
      } else if a.Dials? {
        DialPure(s, a.c, a.dial);
      } else if a.Open? {
        OpenPure(s, a.c, a.outcome, cfg);
      } else {
        PerformPure(s, a.c, a.ioid, a.script, cfg);
      }
    }
  }

  lemma {:induction false} RunPure(s: State, actions: seq<Action>, cfg: Config)
    requires Inv(s, cfg) && Run(s, actions, cfg).Some? && PureIdle(s.idle) && PureCalls(s.calls)
    requires FairRun(s, actions, cfg)
    ensures var s' := Run(s, actions, cfg).value; Inv(s', cfg) && PureIdle(s'.idle) && PureCalls(s'.calls)
    decreases |actions|
  {
    hide Inv, PureIdle, PureCalls, Enabled, Apply, Fair;
    if |actions| > 0 {
      StepKeeps(s, actions[0], cfg);
      StepPure(s, actions[0], cfg);
      RunPure(Apply(s, actions[0], cfg), actions[1..], cfg);
    }
  }

  /** In every run of fair steps, however they interleave: each idle connection is at a frame
      boundary with nothing half-assembled and no request open on the server. */
  lemma {:induction false} FairRunsStayAligned(actions: seq<Action>, cfg: Config)
    requires Run(INIT, actions, cfg).Some? && FairRun(INIT, actions, cfg)
    ensures var s := Run(INIT, actions, cfg).value;
            forall a, conn :: a in s.idle && conn in s.idle[a] ==>
                conn.lost == [] && conn.pending.None? && conn.requests == {}
  {
    InitOk(cfg);
    RunPure(INIT, actions, cfg);
    PoolIsSafe(actions, cfg);
    var s := Run(INIT, actions, cfg).value;
    hide Inv, Run, FairRun, InOnePlace, PureCalls, NoRepeats;
    forall a, conn | a in s.idle && conn in s.idle[a] ensures Pure(conn) {
      assert PureStack(s.idle[a]);
    }
  }

  // ----- Both conditions are needed -----

  /** The channel is created at once. */
  function Opens(): Action {
    Open(0, Creation(Sent, Answered(CREATE_CHANNEL, Good), 1))
  }

  /** One call on a pool that is empty: it dials, opens its channel, and performs. */
  function Through(d: Dialling, name: Name, addr: Addr, op: Op, script: Script): seq<Action> {
    [Begin(0, name, addr, op), Draw(0), Dials(0, d), Opens(), Perform(0, 1, script)]
  }

  /** After a draw from an empty pool. */
  function Drawn(name: Name, addr: Addr, op: Op): State {
    State(0, map[], map[0 := Call(name, addr, op, 0, OnDial, [])], map[], 0, 0)
  }

  /** The call in a stage with a connection of its own. */
  function Holding(stage: Stage, name: Name, addr: Addr, op: Op): State {
    State(0, map[], map[0 := Call(name, addr, op, 0, stage, [])], map[0 := OutWith(0)], 1, 0)
  }

  lemma {:induction false} RunFirst(s: State, a: Action, rest: seq<Action>, cfg: Config)
    requires Enabled(s, a)
    ensures Run(s, [a] + rest, cfg) == Run(Apply(s, a, cfg), rest, cfg)
  {
    assert ([a] + rest)[1..] == rest;
  }

  lemma {:induction false} DrawnFirst(name: Name, addr: Addr, op: Op, rest: seq<Action>, cfg: Config)
    ensures Run(INIT, [Begin(0, name, addr, op), Draw(0)] + rest, cfg) == Run(Drawn(name, addr, op), rest, cfg)
  {
    var begin := Begin(0, name, addr, op);
    RunFirst(INIT, begin, [Draw(0)] + rest, cfg);
    var s := Apply(INIT, begin, cfg);
    RunFirst(s, Draw(0), rest, cfg);
    assert [begin, Draw(0)] + rest == [begin] + ([Draw(0)] + rest);
    assert Apply(s, Draw(0), cfg) == Drawn(name, addr, op);
  }

  /** A connection as a call has it before anything has run on it. */
  predicate New(conn: Conn, addr: Addr) {
    && conn.addr == addr && conn.id == 0 && !conn.reused && conn.channels == map[]
    && Quiet(conn) && conn.requests == {}
  }

  lemma {:induction false} Dialled(d: Dialling, name: Name, addr: Addr, op: Op, cfg: Config) returns (conn: Conn)
    requires Handshake(0, addr, 0, 0, d).Ok?
    ensures New(conn, addr) && (conn.lost == [] <==> EndsWhole(d.first, d.second))
    ensures Apply(Drawn(name, addr, op), Dials(0, d), cfg) == Holding(Connected(conn), name, addr, op)
  {
    HandshakeIsQuiet(0, addr, 0, 0, d);
    conn := Handshake(0, addr, 0, 0, d).value;
    hide Handshake, EndsWhole;
  }

  function WithChannel(conn: Conn, name: Name): Conn {
    conn.(nextCid := (conn.nextCid + 1) % 0x1_0000_0000, channels := map[name := 1])
  }

  /** The call with its channel open. */
  function Ready(conn: Conn, name: Name, addr: Addr, op: Op): State {
    Holding(Opened(WithChannel(conn, name), 1), name, addr, op)
  }

  lemma {:induction false} OpensBare(conn: Conn, name: Name, addr: Addr, op: Op, cfg: Config)
    requires New(conn, addr)
    ensures Apply(Holding(Connected(conn), name, addr, op), Opens(), cfg) == Ready(conn, name, addr, op)
  {
    BareAnswers(conn.(nextCid := (conn.nextCid + 1) % 0x1_0000_0000), CREATE_CHANNEL, Good);
    hide Listen;
  }

  lemma {:induction false} DialAndOpen(conn: Conn, d: Dialling, rest: seq<Action>, name: Name, addr: Addr, op: Op,
                                       cfg: Config)
    requires Apply(Drawn(name, addr, op), Dials(0, d), cfg) == Holding(Connected(conn), name, addr, op)
    requires Apply(Holding(Connected(conn), name, addr, op), Opens(), cfg) == Ready(conn, name, addr, op)
    ensures Run(Drawn(name, addr, op), [Dials(0, d), Opens()] + rest, cfg)
            == Run(Ready(conn, name, addr, op), rest, cfg)
  {
    hide Apply;
    RunFirst(Drawn(name, addr, op), Dials(0, d), [Opens()] + rest, cfg);
    RunFirst(Holding(Connected(conn), name, addr, op), Opens(), rest, cfg);
    assert [Dials(0, d), Opens()] + rest == [Dials(0, d)] + ([Opens()] + rest);
  }

  /** The pool with one connection in it, or none. */
  function Shelf(end: End, addr: Addr, name: Name): Idle {
    if FateAfterOp(end).Discard? then map[]
    else map[addr := [Kept(end.conn, FateAfterOp(end), name).(idleSince := 0, reused := false)]]
  }

  lemma {:induction false} PerformedLast(conn: Conn, name: Name, addr: Addr, op: Op, script: Script, cfg: Config)
    requires New(conn, addr) && cfg.ttl.Some? && cfg.max > 0
    ensures var r := Run(Ready(conn, name, addr, op), [Perform(0, 1, script)], cfg);
            r.Some? && r.value.idle == Shelf(RunOp(op, WithChannel(conn, name), 1, script), addr, name)
  {
    var c, s := WithChannel(conn, name), Ready(conn, name, addr, op);
    RunFirst(s, Perform(0, 1, script), [], cfg);
    assert [Perform(0, 1, script)] + [] == [Perform(0, 1, script)];
    OpIsTidy(op, c, 1, script, false, 0);
    var end := RunOp(op, c, 1, script);
    var kept := Kept(end.conn, FateAfterOp(end), name);
    EmptyCheckin(kept, cfg);
    hide RunOp, FateAfterOp, Checkin, Refile, Quiet, Kept;
    assert kept.addr == addr by { KeptSame(end.conn, FateAfterOp(end), name); }
  }

  lemma {:induction false} KeptSame(conn: Conn, fate: Fate, name: Name)
    ensures Kept(conn, fate, name).addr == conn.addr && Kept(conn, fate, name).requests == conn.requests
    ensures Kept(conn, fate, name).lost == conn.lost
  {
  }

  lemma {:induction false} EmptyCheckin(c: Conn, cfg: Config)
    requires cfg.ttl.Some? && cfg.max > 0
    ensures Checkin(map[], c, 0, cfg) == map[c.addr := [c.(idleSince := 0, reused := false)]]
  {
    var stack := [c.(idleSince := 0, reused := false)];
    assert Swept([], 0, cfg.ttl.value) == [] && [] + stack == stack;
  }

  /** What the whole run leaves in the pool. */
  lemma {:induction false} ThroughLeaves(d: Dialling, name: Name, addr: Addr, op: Op, script: Script, cfg: Config)
      returns (conn: Conn)
    requires Handshake(0, addr, 0, 0, d).Ok? && cfg.ttl.Some? && cfg.max > 0
    ensures New(conn, addr) && (conn.lost == [] <==> EndsWhole(d.first, d.second))
    ensures var r := Run(INIT, Through(d, name, addr, op, script), cfg);
            r.Some? && r.value.idle == Shelf(RunOp(op, WithChannel(conn, name), 1, script), addr, name)
  {
    var steps := Through(d, name, addr, op, script);
    conn := Dialled(d, name, addr, op, cfg);
    OpensBare(conn, name, addr, op, cfg);
    PerformedLast(conn, name, addr, op, script, cfg);
    hide Run, New, EndsWhole, Handshake, Holding, Ready, Drawn, Apply, Opens, Shelf;
    DrawnFirst(name, addr, op, steps[2..], cfg);
    assert steps == steps[..2] + steps[2..] && steps[..2] == [Begin(0, name, addr, op), Draw(0)];
    DialAndOpen(conn, d, steps[4..], name, addr, op, cfg);
    assert steps[2..] == [steps[2], steps[3]] + steps[4..] && steps[4..] == [steps[4]];
  }

  /** An operation that succeeds. */
  function Succeeds(): Script {
    Script(Sent, Answered(GET_FIELD, Good), Encodable, Sent, Answered(GET_FIELD, Good), Sent)
  }

  /** A dial that succeeds, and an operation that does, leave in the pool a connection that is at a
      frame boundary exactly if the handshake's opening reads ended at one. */
  lemma {:induction false} PoolIsAlignedIff(d: Dialling, name: Name, addr: Addr, cfg: Config)
    requires Handshake(0, addr, 0, 0, d).Ok? && cfg.ttl.Some? && cfg.max > 0
    ensures var r := Run(INIT, Through(d, name, addr, Info, Succeeds()), cfg);
            && r.Some? && r.value.idle.Keys == {addr} && |r.value.idle[addr]| == 1
            && (r.value.idle[addr][0].lost == [] <==> EndsWhole(d.first, d.second))
  {
    var conn := ThroughLeaves(d, name, addr, Info, Succeeds(), cfg);
    BareAnswers(WithChannel(conn, name), GET_FIELD, Good);
    hide Run, Listen, Handshake, EndsWhole;
  }

  /** An operation, whatever the network does to it, after a dial that succeeds leaves in the pool a
      connection with a request open exactly if it is misread. */
  lemma {:induction false} PoolHasRequestIff(d: Dialling, name: Name, addr: Addr, op: Op, script: Script, cfg: Config)
    requires Handshake(0, addr, 0, 0, d).Ok? && cfg.ttl.Some? && cfg.max > 0
    ensures var r := Run(INIT, Through(d, name, addr, op, script), cfg);
            && r.Some?
            && (Misread(op, script)
                <==> addr in r.value.idle && |r.value.idle[addr]| == 1 && r.value.idle[addr][0].requests != {})
  {
    var conn := ThroughLeaves(d, name, addr, op, script, cfg);
    var c := WithChannel(conn, name);
    RequestStaysOpenIff(op, c, 1, script);
    var end := RunOp(op, c, 1, script);
    KeptSame(end.conn, FateAfterOp(end), name);
    hide Run, RunOp, Handshake, EndsWhole, Misread, Kept, FateAfterOp, Quiet;
  }
}
