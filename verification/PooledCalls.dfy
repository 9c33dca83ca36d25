/** Concurrent pooled operations, as steps that may interleave in any order: who holds which
    connection, and how often each operation is tried. */
module PooledCalls {
  import opened Options
  import opened ConnPools
  import opened PooledOps

  /** Where a call is in `with_pooled_channel`. */
  datatype Stage = Connecting | OnDial | Connected(conn: Conn) | Opened(conn: Conn, sid: Sid)
    | Ended(error: Option<Error>)

  /** History of one attempt that got a connection. */
  datatype Try = Try(conn: ConnId, reused: bool, dialledBy: CallId, committed: bool, written: nat, error: Option<Error>)

  datatype Call = Call(name: Name, addr: Addr, op: Op, attempt: nat, stage: Stage, tries: seq<Try>)

  /** Where a connection is. */
  datatype Place = AtRest(addr: Addr) | OutWith(call: CallId) | Closed

  type Calls = map<CallId, Call>
  type Places = map<ConnId, Place>

  /** `places` is history: the whereabouts of every connection ever dialled. */
  datatype State = State(now: Time, idle: Idle, calls: Calls, places: Places, next: ConnId, retriedDead: nat)

  const INIT := State(0, map[], map[], map[], 0, 0)

  datatype Action =
    | Begin(c: CallId, name: Name, addr: Addr, op: Op)
    | Draw(c: CallId)
    | Dials(c: CallId, dial: Dialling)
    | Open(c: CallId, outcome: Creation)
    | Perform(c: CallId, ioid: Ioid, script: Script)
    | Cancel(c: CallId)
    | Pass(dt: nat)

  predicate Enabled(s: State, a: Action) {
    match a
    case Begin(c, _, _, _) => c !in s.calls
    case Draw(c) => c in s.calls && s.calls[c].stage.Connecting?
    case Dials(c, _) => c in s.calls && s.calls[c].stage.OnDial?
    case Open(c, _) => c in s.calls && s.calls[c].stage.Connected?
    case Perform(c, _, _) => c in s.calls && s.calls[c].stage.Opened?
    case Cancel(c) => c in s.calls && !s.calls[c].stage.Ended?
    case Pass(_) => true
  }

  predicate HasConn(k: Call) {
    k.stage.Connected? || k.stage.Opened?
  }

  function Ids(stack: seq<Conn>): set<ConnId> {
    set c | c in stack :: c.id
  }

  /** The stack of an address has become `stack`: whatever else rested there is closed. */
  function Refile(places: Places, addr: Addr, stack: seq<Conn>): Places {
    map id | id in places ::
      if id in Ids(stack) then AtRest(addr) else if places[id] == AtRest(addr) then Closed else places[id]
  }

  // ----- Steps -----

  /** The first attempt may draw from the pool; the second only dials. */
  function DrawStep(s: State, c: CallId, cfg: Config): State
    requires c in s.calls
  {
    var k := s.calls[c];
    var dialling := k.(stage := OnDial);
    if k.attempt > 0 then s.(calls := s.calls[c := dialling])
    else
      var (idle, hit) := Checkout(s.idle, k.addr, s.now, cfg);
      var places := Refile(s.places, k.addr, StackOf(idle, k.addr));
      if hit.None? then s.(idle := idle, places := places, calls := s.calls[c := dialling])
      else s.(idle := idle, places := places[hit.value.id := OutWith(c)],
              calls := s.calls[c := k.(stage := Connected(hit.value))])
  }

  /** A dial that fails closes the address's idle connections too. */
  function DialStep(s: State, c: CallId, dial: Dialling): State
    requires c in s.calls
  {
    var k := s.calls[c];
    match Handshake(s.next, k.addr, c, s.now, dial)
    case Ok(conn) =>
      s.(calls := s.calls[c := k.(stage := Connected(conn))], places := s.places[s.next := OutWith(c)],
         next := s.next + 1)
    case Err(Dropped) => s.(calls := s.calls[c := k.(stage := Ended(Some(Dropped)))])
    case Err(e) =>
      s.(idle := Purge(s.idle, k.addr), places := Refile(s.places, k.addr, []),
         calls := s.calls[c := k.(stage := Ended(Some(e)))])
  }

  /** The connection goes back to the pool, or is closed. */
  function Dispose(s: State, conn: Conn, fate: Fate, name: Name, cfg: Config): State {
    var closed := s.places[conn.id := Closed];
    if fate.Discard? then s.(places := closed)
    else
      var idle := Checkin(s.idle, Kept(conn, fate, name), s.now, cfg);
      s.(idle := idle, places := Refile(closed, conn.addr, StackOf(idle, conn.addr)))
  }

  /** The attempt is over: go round again, or return. */
  function Conclude(s: State, c: CallId, t: Try, retry: bool): State
    requires c in s.calls
  {
    var k := s.calls[c];
    if retry then
      s.(calls := s.calls[c := k.(attempt := k.attempt + 1, stage := Connecting, tries := k.tries + [t])],
         retriedDead := s.retriedDead + 1)
    else s.(calls := s.calls[c := k.(stage := Ended(t.error), tries := k.tries + [t])])
  }

  function OpenStep(s: State, c: CallId, outcome: Creation, cfg: Config): State
    requires c in s.calls && s.calls[c].stage.Connected?
  {
    var k := s.calls[c];
    var (conn, sid) := ChannelSid(k.stage.conn, k.name, outcome);
    match sid
    case Ok(n) => s.(calls := s.calls[c := k.(stage := Opened(conn, n))])
    case Err(e) =>
      var t := Try(conn.id, k.stage.conn.reused, conn.dialledBy, false, 0, Some(e));
      Conclude(Dispose(s, conn, FateAfterChannel(e), k.name, cfg), c, t,
               RetryAfterChannel(e, k.stage.conn.reused, k.attempt))
  }

  function PerformStep(s: State, c: CallId, ioid: Ioid, script: Script, cfg: Config): State
    requires c in s.calls && s.calls[c].stage.Opened?
  {
    var k := s.calls[c];
    var end := RunOp(k.op, k.stage.conn, ioid, script);
    var t := Try(end.conn.id, k.stage.conn.reused, end.conn.dialledBy, end.ctx.committed, end.written, end.error);
    Conclude(Dispose(s, end.conn, FateAfterOp(end), k.name, cfg), c, t,
             RetryAfterOp(end, k.stage.conn.reused, k.attempt))
  }

  /** A dropped future takes its connection with it. */
  function CancelStep(s: State, c: CallId): State
    requires c in s.calls
  {
    var k := s.calls[c];
    s.(calls := s.calls[c := k.(stage := Ended(Some(Dropped)))],
       places := if HasConn(k) then s.places[k.stage.conn.id := Closed] else s.places)
  }

  function Apply(s: State, a: Action, cfg: Config): State
    requires Enabled(s, a)
  {
    match a
    case Begin(c, name, addr, op) => s.(calls := s.calls[c := Call(name, addr, op, 0, Connecting, [])])
    case Draw(c) => DrawStep(s, c, cfg)
    case Dials(c, dial) => DialStep(s, c, dial)
    case Open(c, outcome) => OpenStep(s, c, outcome, cfg)
    case Perform(c, ioid, script) => PerformStep(s, c, ioid, script, cfg)
    case Cancel(c) => CancelStep(s, c)
    case Pass(dt) => s.(now := s.now + dt)
  }

  function Run(s: State, actions: seq<Action>, cfg: Config): Option<State>
    decreases |actions|
  {
    if |actions| == 0 then Some(s)
    else if !Enabled(s, actions[0]) then None
    else Run(Apply(s, actions[0], cfg), actions[1..], cfg)
  }

  // ----- The invariant -----

  ghost predicate NoRepeats(stack: seq<Conn>) {
    forall i, j :: 0 <= i < j < |stack| ==> stack[i].id != stack[j].id
  }

  ghost predicate Rests(c: Conn, addr: Addr, places: Places) {
    c.addr == addr && Quiet(c) && !c.reused && c.id in places && places[c.id] == AtRest(addr)
  }

  /** A stack holds a few different connections to its address, all quiet. */
  ghost predicate StackOk(addr: Addr, stack: seq<Conn>, places: Places, max: nat) {
    0 < |stack| <= max && NoRepeats(stack) && forall c :: c in stack ==> Rests(c, addr, places)
  }

  ghost predicate IdleOk(idle: Idle, places: Places, max: nat) {
    && (forall a :: a in idle ==> StackOk(a, idle[a], places, max))
    && (forall id :: id in places && places[id].AtRest? ==> places[id].addr in idle && id in Ids(idle[places[id].addr]))
  }

  ghost predicate Holds(k: Call, id: ConnId) {
    HasConn(k) && k.stage.conn.id == id
  }

  ghost predicate OutOk(calls: Calls, places: Places) {
    && (forall c :: c in calls && HasConn(calls[c]) ==>
          calls[c].stage.conn.id in places && places[calls[c].stage.conn.id] == OutWith(c)
            && Quiet(calls[c].stage.conn))
    && (forall id :: id in places && places[id].OutWith? ==>
        places[id].call in calls && Holds(calls[places[id].call], id))
  }

  ghost predicate Numbered(places: Places, next: ConnId) {
    forall id: ConnId :: id in places <==> id < next
  }

  /** At most two attempts, the second only after a reused connection failed uncommitted, and on
      a connection dialled for it; at most one data frame in all. */
  ghost predicate CallOk(c: CallId, k: Call) {
    && k.attempt <= 1 && |k.tries| <= k.attempt + 1
    && (!k.stage.Ended? ==> |k.tries| == k.attempt)
    && (HasConn(k) && k.attempt == 1 ==> !k.stage.conn.reused && k.stage.conn.dialledBy == c)
    && (k.attempt == 1 ==> |k.tries| > 0 && Retryable(k.tries[0]))
    && (|k.tries| == 2 ==> !k.tries[1].reused && k.tries[1].dialledBy == c)
    && (forall i :: 0 <= i < |k.tries| ==> k.tries[i].written <= 1 && (k.tries[i].written > 0 ==> k.op.Put?))
  }

  ghost predicate Retryable(t: Try) {
    t.reused && !t.committed && t.written == 0 && t.error.Some? && IsReuseFailure(t.error.value)
  }

  ghost predicate CallsOk(calls: Calls) {
    forall c :: c in calls ==> CallOk(c, calls[c])
  }

  /** The calls in or past their second attempt. */
  ghost function Seconds(calls: Calls): set<CallId> {
    set c | c in calls && calls[c].attempt == 1
  }

  ghost predicate Inv(s: State, cfg: Config) {
    && IdleOk(s.idle, s.places, cfg.max)
    && OutOk(s.calls, s.places)
    && Numbered(s.places, s.next)
    && CallsOk(s.calls)
    && s.retriedDead == |Seconds(s.calls)|
  }

  // ----- The pool's own steps -----

  lemma {:induction false} PopIs(stack: seq<Conn>, now: Time, ttl: Time)
    ensures var (rest, hit) := PopFresh(stack, now, ttl);
            && |rest| <= |stack| && rest == stack[..|rest|]
            && (hit.Some? ==> |rest| < |stack| && hit.value == stack[|rest|].(reused := true))
            && (hit.None? ==> rest == [])
    decreases |stack|
  {
    if stack != [] {
      PopIs(stack[..|stack| - 1], now, ttl);
    }
  }

  lemma {:induction false} SweptIs(stack: seq<Conn>, now: Time, ttl: Time)
    ensures |Swept(stack, now, ttl)| <= |stack|
    ensures forall c :: c in Swept(stack, now, ttl) ==> c in stack
    decreases |stack|
  {
    if stack != [] {
      var init := stack[..|stack| - 1];
      SweptIs(init, now, ttl);
      assert forall c :: c in init ==> c in stack;
    }
  }

  lemma {:induction false} SweptApart(stack: seq<Conn>, now: Time, ttl: Time)
    requires NoRepeats(stack)
    ensures NoRepeats(Swept(stack, now, ttl))
    decreases |stack|
  {
    if stack != [] {
      var init, top := stack[..|stack| - 1], stack[|stack| - 1];
      SweptApart(init, now, ttl);
      SweptIs(init, now, ttl);
      var kept := Swept(init, now, ttl);
      forall i | 0 <= i < |kept| ensures kept[i].id != top.id {
        assert kept[i] in init;
      }
    }
  }

  /** A new stack for an address, made of connections that rested there or are otherwise closed. */
  ghost predicate StackFits(addr: Addr, stack: seq<Conn>, places: Places, max: nat) {
    && |stack| <= max && NoRepeats(stack)
    && forall c :: c in stack ==>
         c.addr == addr && Quiet(c) && !c.reused && c.id in places
           && (places[c.id] == AtRest(addr) || places[c.id].Closed?)
  }

  lemma {:induction false} RefileIdle(idle: Idle, places: Places, max: nat, addr: Addr, stack: seq<Conn>)
    requires IdleOk(idle, places, max) && StackFits(addr, stack, places, max)
    ensures IdleOk(WithStack(idle, addr, stack), Refile(places, addr, stack), max)
  {
    var idle', places' := WithStack(idle, addr, stack), Refile(places, addr, stack);
    assert forall c :: c in stack ==> c.id in Ids(stack);
    forall a | a in idle' ensures StackOk(a, idle'[a], places', max) {
      if a != addr {
        assert StackOk(a, idle[a], places, max);
        assert forall c :: c in idle[a] ==> c.id !in Ids(stack);
      }
    }
    hide StackOk, NoRepeats;
  }

  lemma {:induction false} RefileOut(calls: Calls, places: Places, max: nat, addr: Addr, stack: seq<Conn>)
    requires OutOk(calls, places) && StackFits(addr, stack, places, max)
    ensures OutOk(calls, Refile(places, addr, stack))
  {
    assert forall id :: id in Ids(stack) ==> id in places && !places[id].OutWith?;
    hide StackFits, Ids;
  }

  lemma {:induction false} RelabelIdle(idle: Idle, places: Places, max: nat, id: ConnId, p: Place)
    requires IdleOk(idle, places, max) && !p.AtRest? && (id in places ==> !places[id].AtRest?)
    ensures IdleOk(idle, places[id := p], max)
  {
    forall a | a in idle ensures StackOk(a, idle[a], places[id := p], max) {
      assert StackOk(a, idle[a], places, max);
    }
    hide StackOk;
  }

  lemma {:induction false} StackStill(idle: Idle, places: Places, max: nat, addr: Addr)
    requires IdleOk(idle, places, max)
    ensures StackFits(addr, StackOf(idle, addr), places, max) && WithStack(idle, addr, StackOf(idle, addr)) == idle
  {
    if addr in idle {
      assert StackOk(addr, idle[addr], places, max);
    }
  }

  lemma {:induction false} CheckoutFits(idle: Idle, places: Places, addr: Addr, now: Time, cfg: Config)
    requires IdleOk(idle, places, cfg.max)
    ensures var (idle', hit) := Checkout(idle, addr, now, cfg);
            var rest := StackOf(idle', addr);
            && StackFits(addr, rest, places, cfg.max) && idle' == WithStack(idle, addr, rest)
            && (hit.Some? ==>
                  && Quiet(hit.value) && hit.value.reused && hit.value.id in places
                  && places[hit.value.id] == AtRest(addr) && hit.value.id !in Ids(rest))
  {
    if cfg.ttl.None? || addr !in idle {
      StackStill(idle, places, cfg.max, addr);
    } else {
      var stack := idle[addr];
      assert StackOk(addr, stack, places, cfg.max);
      PopIs(stack, now, cfg.ttl.value);
      hide PopFresh, StackOk, IdleOk;
      PrefixFits(addr, stack, places, cfg.max, |PopFresh(stack, now, cfg.ttl.value).0|);
    }
  }

  lemma {:induction false} PrefixFits(addr: Addr, stack: seq<Conn>, places: Places, max: nat, n: nat)
    requires StackOk(addr, stack, places, max) && n <= |stack|
    ensures StackFits(addr, stack[..n], places, max)
    ensures n < |stack| ==>
              && Quiet(stack[n]) && stack[n].id in places && places[stack[n].id] == AtRest(addr)
                && stack[n].id !in Ids(stack[..n])
  {
    assert forall c :: c in stack[..n] ==> c in stack;
    assert n < |stack| ==> stack[n] in stack;
  }

  lemma {:induction false} CheckinFits(idle: Idle, places: Places, c: Conn, now: Time, cfg: Config)
    requires IdleOk(idle, places, cfg.max) && Quiet(c) && c.id in places && places[c.id].Closed?
    ensures var idle' := Checkin(idle, c, now, cfg);
            var stack := StackOf(idle', c.addr);
            StackFits(c.addr, stack, places, cfg.max) && idle' == WithStack(idle, c.addr, stack)
  {
    StackStill(idle, places, cfg.max, c.addr);
    if cfg.ttl.Some? && cfg.max > 0 {
      var stack := StackOf(idle, c.addr);
      SweptIs(stack, now, cfg.ttl.value);
      SweptApart(stack, now, cfg.ttl.value);
      hide Swept, IdleOk;
      var swept := Swept(stack, now, cfg.ttl.value);
      forall i | 0 <= i < |swept| ensures swept[i].id != c.id {
        assert swept[i] in stack;
      }
    }
  }

  // ----- Who holds what -----

  lemma {:induction false} HoldOut(calls: Calls, places: Places, c: CallId, k: Call, id: ConnId)
    requires OutOk(calls, places) && (c in calls ==> !HasConn(calls[c]))
    requires Holds(k, id) && Quiet(k.stage.conn) && (id in places ==> !places[id].OutWith?)
    ensures OutOk(calls[c := k], places[id := OutWith(c)])
  {
  }

  lemma {:induction false} ReleaseOut(calls: Calls, places: Places, c: CallId, k: Call, id: ConnId)
    requires OutOk(calls, places) && c in calls && Holds(calls[c], id) && !HasConn(k)
    ensures OutOk(calls[c := k], places[id := Closed])
  {
  }

  lemma {:induction false} SameOut(calls: Calls, places: Places, c: CallId, k: Call)
    requires OutOk(calls, places) && c in calls
    requires HasConn(k) <==> HasConn(calls[c])
    requires HasConn(k) ==> k.stage.conn.id == calls[c].stage.conn.id && Quiet(k.stage.conn)
    ensures OutOk(calls[c := k], places)
  {
  }

  // ----- Each step -----

  lemma {:induction false} SameSeconds(calls: Calls, c: CallId, k: Call)
    requires c in calls ==> k.attempt == calls[c].attempt
    requires c !in calls ==> k.attempt == 0
    ensures Seconds(calls[c := k]) == Seconds(calls)
  {
  }

  lemma {:induction false} DialledKeeps(s: State, c: CallId, conn: Conn, cfg: Config)
    requires Inv(s, cfg) && c in s.calls && s.calls[c].stage.OnDial?
    requires Quiet(conn) && conn.id == s.next && conn.dialledBy == c && !conn.reused
    ensures Inv(s.(calls := s.calls[c := s.calls[c].(stage := Connected(conn))],
                   places := s.places[s.next := OutWith(c)], next := s.next + 1), cfg)
  {
    var k := s.calls[c];
    var k' := k.(stage := Connected(conn));
    assert s.next !in s.places && CallOk(c, k);
    assert Numbered(s.places[s.next := OutWith(c)], s.next + 1);
    hide IdleOk, OutOk, Numbered, Seconds, Quiet;
    RelabelIdle(s.idle, s.places, cfg.max, s.next, OutWith(c));
    HoldOut(s.calls, s.places, c, k', s.next);
    SameSeconds(s.calls, c, k');
  }

  lemma {:induction false} DialFailedKeeps(s: State, c: CallId, e: Error, cfg: Config)
    requires Inv(s, cfg) && c in s.calls && s.calls[c].stage.OnDial?
    ensures var s' := s.(calls := s.calls[c := s.calls[c].(stage := Ended(Some(e)))]);
            Inv(s', cfg) && Inv(s'.(idle := Purge(s.idle, s.calls[c].addr),
                                    places := Refile(s.places, s.calls[c].addr, [])), cfg)
  {
    var k := s.calls[c];
    var k' := k.(stage := Ended(Some(e)));
    assert CallOk(c, k);
    hide IdleOk, OutOk, Numbered, Seconds, Refile;
    NoStack(k.addr, s.places, cfg.max);
    RefileIdle(s.idle, s.places, cfg.max, k.addr, []);
    SameOut(s.calls, s.places, c, k');
    RefileOut(s.calls[c := k'], s.places, cfg.max, k.addr, []);
    RefileNumbered(s.places, s.next, k.addr, []);
    SameSeconds(s.calls, c, k');
  }

  lemma {:induction false} DialKeeps(s: State, c: CallId, dial: Dialling, cfg: Config)
    requires Inv(s, cfg) && Enabled(s, Dials(c, dial))
    ensures Inv(DialStep(s, c, dial), cfg)
  {
    hide Inv, Handshake, Quiet;
    var r := Handshake(s.next, s.calls[c].addr, c, s.now, dial);
    if r.Ok? {
      HandshakeIsQuiet(s.next, s.calls[c].addr, c, s.now, dial);
      DialledKeeps(s, c, r.value, cfg);
    } else {
      DialFailedKeeps(s, c, r.error, cfg);
    }
  }

  lemma {:induction false} NoStack(addr: Addr, places: Places, max: nat)
    ensures StackFits(addr, [], places, max)
  {
  }

  lemma {:induction false} RefileNumbered(places: Places, next: ConnId, addr: Addr, stack: seq<Conn>)
    requires Numbered(places, next)
    ensures Numbered(Refile(places, addr, stack), next)
  {
    assert forall id :: id in Refile(places, addr, stack) <==> id in places;
  }

  /** A draw that finds a connection moves it from the pool to the call; it closes only stale ones. */
  lemma {:induction false} DrawKeeps(s: State, c: CallId, cfg: Config)
    requires Inv(s, cfg) && Enabled(s, Draw(c))
    ensures Inv(DrawStep(s, c, cfg), cfg)
  {
    var k := s.calls[c];
    assert CallOk(c, k);
    if k.attempt > 0 {
      var k' := k.(stage := OnDial);
      hide IdleOk, OutOk, Numbered, Seconds;
      SameOut(s.calls, s.places, c, k');
      SameSeconds(s.calls, c, k');
    } else {
      DrawnKeeps(s, c, cfg);
    }
  }

  lemma {:induction false} DrawnKeeps(s: State, c: CallId, cfg: Config)
    requires Inv(s, cfg) && Enabled(s, Draw(c)) && s.calls[c].attempt == 0
    ensures Inv(DrawStep(s, c, cfg), cfg)
  {
    var k := s.calls[c];
    var (idle, hit) := Checkout(s.idle, k.addr, s.now, cfg);
    var rest := StackOf(idle, k.addr);
    CheckoutFits(s.idle, s.places, k.addr, s.now, cfg);
    assert CallOk(c, k);
    assert hit.Some? ==> Refile(s.places, k.addr, rest)[hit.value.id] == Closed;
    hide IdleOk, OutOk, Numbered, Seconds, Checkout, StackFits, StackOf;
    RefileIdle(s.idle, s.places, cfg.max, k.addr, rest);
    RefileOut(s.calls, s.places, cfg.max, k.addr, rest);
    RefileNumbered(s.places, s.next, k.addr, rest);
    var places := Refile(s.places, k.addr, rest);
    hide Refile;
    var k' := if hit.Some? then k.(stage := Connected(hit.value)) else k.(stage := OnDial);
    SameSeconds(s.calls, c, k');
    if hit.Some? {
      RelabelIdle(idle, places, cfg.max, hit.value.id, OutWith(c));
      HoldOut(s.calls, places, c, k', hit.value.id);
      RelabelNumbered(places, s.next, hit.value.id, OutWith(c));
    } else {
      SameOut(s.calls, places, c, k');
    }
  }

  lemma {:induction false} RelabelNumbered(places: Places, next: ConnId, id: ConnId, p: Place)
    requires Numbered(places, next) && id in places
    ensures Numbered(places[id := p], next)
  {
  }

  /** Putting a connection away keeps the pool in order, whatever becomes of it. */
  lemma {:induction false} DisposeKeeps(s: State, conn: Conn, fate: Fate, name: Name, cfg: Config, c: CallId, k: Call)
    requires IdleOk(s.idle, s.places, cfg.max) && OutOk(s.calls, s.places) && Numbered(s.places, s.next)
    requires c in s.calls && Holds(s.calls[c], conn.id) && !HasConn(k) && (!fate.Discard? ==> Quiet(conn))
    ensures var s' := Dispose(s, conn, fate, name, cfg);
            IdleOk(s'.idle, s'.places, cfg.max) && OutOk(s.calls[c := k], s'.places) && Numbered(s'.places, s.next)
  {
    assert conn.id in s.places && s.places[conn.id] == OutWith(c);
    var closed := s.places[conn.id := Closed];
    hide IdleOk, OutOk, Numbered;
    RelabelIdle(s.idle, s.places, cfg.max, conn.id, Closed);
    ReleaseOut(s.calls, s.places, c, k, conn.id);
    RelabelNumbered(s.places, s.next, conn.id, Closed);
    if !fate.Discard? {
      var kept := Kept(conn, fate, name);
      var idle := Checkin(s.idle, kept, s.now, cfg);
      CheckinFits(s.idle, closed, kept, s.now, cfg);
      hide Checkin, StackOf, Refile, StackFits;
      RefileIdle(s.idle, closed, cfg.max, conn.addr, StackOf(idle, conn.addr));
      RefileOut(s.calls[c := k], closed, cfg.max, conn.addr, StackOf(idle, conn.addr));
      RefileNumbered(closed, s.next, conn.addr, StackOf(idle, conn.addr));
    }
  }

  /** What may be said of an attempt that ends on `conn`. */
  ghost predicate TryOk(t: Try, k: Call, conn: Conn, retry: bool) {
    && t.reused == conn.reused && t.dialledBy == conn.dialledBy
    && t.written <= 1 && (t.written > 0 ==> k.op.Put?)
    && (retry ==> k.attempt == 0 && Retryable(t))
  }

  lemma {:induction false} ConcludeCall(c: CallId, k: Call, t: Try, retry: bool)
    requires CallOk(c, k) && HasConn(k) && TryOk(t, k, k.stage.conn, retry)
    ensures CallOk(c, k.(attempt := k.attempt + 1, stage := Connecting, tries := k.tries + [t])) || !retry
    ensures CallOk(c, k.(stage := Ended(t.error), tries := k.tries + [t])) || retry
  {
  }

  lemma {:induction false} OneMoreSecond(calls: Calls, c: CallId, k: Call)
    requires c in calls && calls[c].attempt == 0 && k.attempt == 1
    ensures |Seconds(calls[c := k])| == |Seconds(calls)| + 1
  {
    assert Seconds(calls[c := k]) == Seconds(calls) + {c};
  }

  lemma {:induction false} OneCall(calls: Calls, c: CallId, k: Call)
    requires CallsOk(calls) && c in calls
    ensures CallOk(c, calls[c]) && (CallOk(c, k) ==> CallsOk(calls[c := k]))
  {
    hide CallOk;
  }

  lemma {:induction false} ConcludeKeeps(s: State, c: CallId, conn: Conn, fate: Fate, t: Try, retry: bool, cfg: Config)
    requires Inv(s, cfg) && c in s.calls && Holds(s.calls[c], conn.id) && (!fate.Discard? ==> Quiet(conn))
    requires TryOk(t, s.calls[c], s.calls[c].stage.conn, retry)
    ensures Inv(Conclude(Dispose(s, conn, fate, s.calls[c].name, cfg), c, t, retry), cfg)
  {
    var k := s.calls[c];
    var k' := if retry then k.(attempt := k.attempt + 1, stage := Connecting, tries := k.tries + [t])
              else k.(stage := Ended(t.error), tries := k.tries + [t]);
    OneCall(s.calls, c, k');
    hide IdleOk, OutOk, Numbered, Dispose, CallOk, CallsOk, TryOk, Seconds;
    DisposeFrame(s, conn, fate, k.name, cfg);
    DisposeKeeps(s, conn, fate, k.name, cfg, c, k');
    ConcludeCall(c, k, t, retry);
    RetryIsFirst(k, t, retry);
    if retry {
      OneMoreSecond(s.calls, c, k');
    } else {
      SameSeconds(s.calls, c, k');
    }
  }

  lemma {:induction false} RetryIsFirst(k: Call, t: Try, retry: bool)
    requires HasConn(k) && TryOk(t, k, k.stage.conn, retry)
    ensures retry ==> k.attempt == 0
  {
  }

  lemma {:induction false} DisposeFrame(s: State, conn: Conn, fate: Fate, name: Name, cfg: Config)
    ensures var s' := Dispose(s, conn, fate, name, cfg);
            s'.calls == s.calls && s'.next == s.next && s'.retriedDead == s.retriedDead
  {
  }

  lemma {:induction false} HeldIsQuiet(s: State, c: CallId, cfg: Config)
    requires Inv(s, cfg) && c in s.calls && HasConn(s.calls[c])
    ensures Quiet(s.calls[c].stage.conn) && CallOk(c, s.calls[c])
  {
    hide IdleOk, Numbered, Seconds, CallOk;
  }

  lemma {:induction false} OpenedKeeps(s: State, c: CallId, conn: Conn, sid: Sid, cfg: Config)
    requires Inv(s, cfg) && c in s.calls && s.calls[c].stage.Connected? && Quiet(conn)
             && SameConn(conn, s.calls[c].stage.conn)
    ensures Inv(s.(calls := s.calls[c := s.calls[c].(stage := Opened(conn, sid))]), cfg)
  {
    var k := s.calls[c];
    var k' := k.(stage := Opened(conn, sid));
    assert CallOk(c, k);
    hide IdleOk, OutOk, Numbered, Seconds, Quiet;
    SameOut(s.calls, s.places, c, k');
    SameSeconds(s.calls, c, k');
  }

  lemma {:induction false} OpenKeeps(s: State, c: CallId, outcome: Creation, cfg: Config)
    requires Inv(s, cfg) && Enabled(s, Open(c, outcome))
    ensures Inv(OpenStep(s, c, outcome, cfg), cfg)
  {
    HeldIsQuiet(s, c, cfg);
    hide Inv, Conclude, Dispose, ChannelSid, Quiet, CallOk;
    var k := s.calls[c];
    SidIsTidy(k.stage.conn, k.name, outcome);
    var (conn, sid) := ChannelSid(k.stage.conn, k.name, outcome);
    match sid
    case Ok(n) => OpenedKeeps(s, c, conn, n, cfg);
    case Err(e) =>
      var t := Try(conn.id, k.stage.conn.reused, conn.dialledBy, false, 0, Some(e));
      ConcludeKeeps(s, c, conn, FateAfterChannel(e), t, RetryAfterChannel(e, k.stage.conn.reused, k.attempt), cfg);
  }

  lemma {:induction false} PerformKeeps(s: State, c: CallId, ioid: Ioid, script: Script, cfg: Config)
    requires Inv(s, cfg) && Enabled(s, Perform(c, ioid, script))
    ensures Inv(PerformStep(s, c, ioid, script, cfg), cfg)
  {
    HeldIsQuiet(s, c, cfg);
    hide Inv, Conclude, Dispose, RunOp, Quiet, CallOk, FateAfterOp;
    var k := s.calls[c];
    var conn := k.stage.conn;
    var end := RunOp(k.op, conn, ioid, script);
    OpIsTidy(k.op, conn, ioid, script, conn.reused, k.attempt);
    var t := Try(end.conn.id, conn.reused, end.conn.dialledBy, end.ctx.committed, end.written, end.error);
    ConcludeKeeps(s, c, end.conn, FateAfterOp(end), t, RetryAfterOp(end, conn.reused, k.attempt), cfg);
  }

  lemma {:induction false} CancelKeeps(s: State, c: CallId, cfg: Config)
    requires Inv(s, cfg) && Enabled(s, Cancel(c))
    ensures Inv(CancelStep(s, c), cfg)
  {
    var k := s.calls[c];
    var k' := k.(stage := Ended(Some(Dropped)));
    assert CallOk(c, k) && CallOk(c, k');
    SameSeconds(s.calls, c, k');
    if HasConn(k) {
      var id := k.stage.conn.id;
      assert id in s.places && s.places[id] == OutWith(c);
      hide IdleOk, OutOk, Numbered, Seconds, CallOk;
      RelabelIdle(s.idle, s.places, cfg.max, id, Closed);
      ReleaseOut(s.calls, s.places, c, k', id);
      RelabelNumbered(s.places, s.next, id, Closed);
    } else {
      hide IdleOk, OutOk, Numbered, Seconds, CallOk;
      SameOut(s.calls, s.places, c, k');
    }
  }

  lemma {:induction false} BeginKeeps(s: State, c: CallId, k: Call, cfg: Config)
    requires Inv(s, cfg) && c !in s.calls && k.attempt == 0 && k.stage.Connecting? && k.tries == []
    ensures Inv(s.(calls := s.calls[c := k]), cfg)
  {
    SameSeconds(s.calls, c, k);
    hide IdleOk, Numbered, Seconds;
  }

  lemma {:induction false} StepKeeps(s: State, a: Action, cfg: Config)
    requires Inv(s, cfg) && Enabled(s, a)
    ensures Inv(Apply(s, a, cfg), cfg)
  {
    if a.Pass? {
      hide IdleOk, OutOk, Numbered, CallsOk, Seconds;
    } else {
      hide Inv, DrawStep, DialStep, OpenStep, PerformStep, CancelStep;
      if a.Begin? {
        BeginKeeps(s, a.c, Call(a.name, a.addr, a.op, 0, Connecting, []), cfg);
      } else if a.Draw? {
        DrawKeeps(s, a.c, cfg);
      } else if a.Dials? {
        DialKeeps(s, a.c, a.dial, cfg);
      } else if a.Open? {
        OpenKeeps(s, a.c, a.outcome, cfg);
      } else if a.Perform? {
        PerformKeeps(s, a.c, a.ioid, a.script, cfg);
      } else {
        CancelKeeps(s, a.c, cfg);
      }
    }
  }

  lemma {:induction false} RunKeeps(s: State, actions: seq<Action>, cfg: Config)
    requires Inv(s, cfg) && Run(s, actions, cfg).Some?
    ensures Inv(Run(s, actions, cfg).value, cfg)
    decreases |actions|
  {
    hide Inv, Enabled, Apply;
    if |actions| > 0 {
      StepKeeps(s, actions[0], cfg);
      RunKeeps(Apply(s, actions[0], cfg), actions[1..], cfg);
    }
  }

  // ----- What every run guarantees -----

  ghost predicate IdleAt(idle: Idle, a: Addr, id: ConnId) {
    a in idle && id in Ids(idle[a])
  }

  ghost predicate HeldBy(calls: Calls, c: CallId, id: ConnId) {
    c in calls && Holds(calls[c], id)
  }

  /** Every connection ever dialled is idle at one address, held by one call, or closed, and no
      two of these. */
  ghost predicate InOnePlace(s: State, id: ConnId)
    requires id in s.places
  {
    && (forall a :: IdleAt(s.idle, a, id) <==> s.places[id] == AtRest(a))
    && (forall c :: HeldBy(s.calls, c, id) <==> s.places[id] == OutWith(c))
  }

  lemma {:induction false} OnePlaceEach(s: State, id: ConnId, cfg: Config)
    requires Inv(s, cfg) && id in s.places
    ensures InOnePlace(s, id)
  {
    assert forall a :: a in s.idle ==> StackOk(a, s.idle[a], s.places, cfg.max);
    forall a | IdleAt(s.idle, a, id) ensures s.places[id] == AtRest(a) {
      var conn :| conn in s.idle[a] && conn.id == id;
      assert Rests(conn, a, s.places);
    }
    hide CallsOk, Seconds, Numbered;
  }

  lemma {:induction false} InitOk(cfg: Config)
    ensures Inv(INIT, cfg)
  {
    var s := INIT;
    assert Seconds(s.calls) == {};
    assert forall id: ConnId :: id !in s.places;
    assert Numbered(s.places, s.next);
  }

  /** In every interleaving of calls, cancellations, failures and purges: each connection is in
      exactly one place; an address holds at most `max` idle connections, all different; and an
      idle connection has nothing half-assembled, has lost no byte since its handshake, and has no
      request open on the server unless a frame that was to free one could not be written. */
  lemma {:induction false} PoolIsSafe(actions: seq<Action>, cfg: Config)
    requires Run(INIT, actions, cfg).Some?
    ensures var s := Run(INIT, actions, cfg).value;
            && (forall id: ConnId :: id < s.next <==> id in s.places)
            && (forall id :: id in s.places ==> InOnePlace(s, id))
            && (forall a :: a in s.idle ==> 0 < |s.idle[a]| <= cfg.max && NoRepeats(s.idle[a]))
            && (forall a, conn :: a in s.idle && conn in s.idle[a] ==>
                  conn.addr == a && conn.pending.None? && conn.lost == conn.lostAtDial
                    && (conn.requests != {} ==> conn.broken))
  {
    InitOk(cfg);
    RunKeeps(INIT, actions, cfg);
    var s := Run(INIT, actions, cfg).value;
    hide Run;
    forall id | id in s.places ensures InOnePlace(s, id) {
      OnePlaceEach(s, id, cfg);
    }
    assert forall a :: a in s.idle ==> StackOk(a, s.idle[a], s.places, cfg.max);
    hide InOnePlace, OutOk, CallsOk, Seconds, NoRepeats;
  }

  function Written(tries: seq<Try>): nat
    decreases |tries|
  {
    if tries == [] then 0 else Written(tries[..|tries| - 1]) + tries[|tries| - 1].written
  }

  lemma {:induction false} WrittenOnce(c: CallId, k: Call)
    requires CallOk(c, k)
    ensures Written(k.tries) <= 1
  {
    if |k.tries| == 2 {
      assert k.tries[..1][..0] == [];
      assert k.tries == [k.tries[0], k.tries[1]] && k.tries[..1] == [k.tries[0]];
      assert Written(k.tries[..1]) == k.tries[0].written;
    } else if |k.tries| == 1 {
      assert k.tries[..0] == [];
    }
  }

  /** In every interleaving: a call is tried at most twice, the second time only after a reused
      connection failed before any commit, and then on a connection dialled by that call; it
      begins to write at most one data frame over both tries; and the dead-retry counter is the
      number of calls that went to a second attempt. */
  lemma {:induction false} RetriesAreSafe(actions: seq<Action>, cfg: Config)
    requires Run(INIT, actions, cfg).Some?
    ensures var s := Run(INIT, actions, cfg).value;
            && (forall c :: c in s.calls ==>
                  var k := s.calls[c];
                  && k.attempt <= 1 && |k.tries| <= 2
                  && (|k.tries| == 2 ==>
                        && k.tries[0].reused && !k.tries[0].committed
                        && k.tries[0].error.Some? && IsReuseFailure(k.tries[0].error.value)
                        && !k.tries[1].reused && k.tries[1].dialledBy == c)
                  && Written(k.tries) <= 1)
            && s.retriedDead == |Seconds(s.calls)|
  {
    InitOk(cfg);
    RunKeeps(INIT, actions, cfg);
    var s := Run(INIT, actions, cfg).value;
    hide Run, IdleOk, OutOk, Numbered, Written;
    forall c | c in s.calls ensures CallOk(c, s.calls[c]) && Written(s.calls[c].tries) <= 1 {
      WrittenOnce(c, s.calls[c]);
    }
  }
}
