/** The pool of idle validated connections: per address, a small last-in first-out stack. */
module ConnPools {
  import opened Options
  import opened PvaFrame
  import opened Segments

  /** The most a connection's reassembler holds. */
  const MAX_MESSAGE: nat := 268_435_456

  type Assembly = p: Option<Pending> | PendingOk(MAX_MESSAGE, p) witness None

  type Addr = nat
  type ConnId = nat
  type CallId = nat
  type Name = string
  type Sid = nat
  type Ioid = nat
  /** Milliseconds. */
  type Time = nat

  /** A validated connection: `pending` is its reassembler. The other fields of the last three lines
      are history: who dialled it; the bytes that were read off it and thrown away with a buffer, in
      all and by its handshake; the requests the server may still hold for it, and whether a frame
      that was to free one could not be written. */
  datatype Conn = Conn(
    id: ConnId,
    addr: Addr,
    channels: map<Name, Sid>,
    nextCid: nat,
    idleSince: Time,
    reused: bool,
    dialledBy: CallId,
    pending: Assembly, lost: seq<byte>, lostAtDial: seq<byte>,
    requests: set<Ioid>, broken: bool)

  type Idle = map<Addr, seq<Conn>>

  /** The idle TTL, if pooling is enabled, and the cap per address. */
  datatype Config = Config(ttl: Option<Time>, max: nat)

  predicate Stale(c: Conn, now: Time, ttl: Time) {
    c.idleSince + ttl <= now
  }

  /** Pop stale connections off the top, then the first that is not. */
  function PopFresh(stack: seq<Conn>, now: Time, ttl: Time): (seq<Conn>, Option<Conn>)
    decreases |stack|
  {
    if stack == [] then ([], None)
    else
      var top, rest := stack[|stack| - 1], stack[..|stack| - 1];
      if Stale(top, now, ttl) then PopFresh(rest, now, ttl) else (rest, Some(top.(reused := true)))
  }

  function StackOf(idle: Idle, addr: Addr): seq<Conn> {
    if addr in idle then idle[addr] else []
  }

  function WithStack(idle: Idle, addr: Addr, stack: seq<Conn>): Idle {
    if stack == [] then idle - {addr} else idle[addr := stack]
  }

  function Checkout(idle: Idle, addr: Addr, now: Time, cfg: Config): (Idle, Option<Conn>) {
    if cfg.ttl.None? || addr !in idle then (idle, None)
    else
      var (rest, hit) := PopFresh(idle[addr], now, cfg.ttl.value);
      (WithStack(idle, addr, rest), hit)
  }

  /** The connections a sweep keeps. */
  function Swept(stack: seq<Conn>, now: Time, ttl: Time): seq<Conn>
    decreases |stack|
  {
    if stack == [] then []
    else
      var top, rest := stack[|stack| - 1], Swept(stack[..|stack| - 1], now, ttl);
      if Stale(top, now, ttl) then rest else rest + [top]
  }

  function Checkin(idle: Idle, c: Conn, now: Time, cfg: Config): Idle {
    if cfg.ttl.None? || cfg.max == 0 then idle
    else
      var stack := Swept(StackOf(idle, c.addr), now, cfg.ttl.value);
      var full := |stack| >= cfg.max;
      idle[c.addr := if full then stack else stack + [c.(idleSince := now, reused := false)]]
  }

  function Purge(idle: Idle, addr: Addr): Idle {
    idle - {addr}
  }

  // ----- The pool as it is updated in place -----

  class ConnPool {
    const cfg: Config
    var idle: Idle
    var hits: nat
    var misses: nat
    var evicted: nat

    constructor (cfg: Config)
      ensures this.cfg == cfg && idle == map[] && hits == misses == evicted == 0
    {
      this.cfg := cfg;
      idle, hits, misses, evicted := map[], 0, 0, 0;
    }

    /** Take an idle connection, closing those that sat too long on top of it. Every call counts
        one hit or one miss, and every connection closed here one eviction. */
    method Take(addr: Addr, now: Time) returns (hit: Option<Conn>)
      modifies this
      ensures (idle, hit) == Checkout(old(idle), addr, now, cfg)
      ensures hits == old(hits) + (if hit.Some? then 1 else 0) && misses == old(misses) + (if hit.None? then 1 else 0)
      ensures evicted + |StackOf(idle, addr)| + (if hit.Some? then 1 else 0)
              == old(evicted) + |StackOf(old(idle), addr)|
    {
      hit := None;
      if cfg.ttl.None? || addr !in idle {
        misses := misses + 1;
        return;
      }
      var stack := idle[addr];
      var gone := 0;
      while stack != []
        invariant PopFresh(stack, now, cfg.ttl.value) == PopFresh(old(idle)[addr], now, cfg.ttl.value)
        invariant gone + |stack| == |old(idle)[addr]|
        decreases |stack|
      {
        var c := stack[|stack| - 1];
        stack := stack[..|stack| - 1];
        if !Stale(c, now, cfg.ttl.value) {
          hit := Some(c.(reused := true));
          break;
        }
        gone := gone + 1;
      }
      evicted := evicted + gone;
      idle := if stack == [] then idle - {addr} else idle[addr := stack];
      if hit.Some? {
        hits := hits + 1;
      } else {
        misses := misses + 1;
      }
    }

    /** Every dial that draws nothing counts as a miss. */
    method CountMiss()
      modifies this`misses
      ensures misses == old(misses) + 1
    {
      misses := misses + 1;
    }

    /** Return a healthy connection; over the cap, it is closed instead. */
    method Give(c: Conn, now: Time)
      modifies this`idle
      ensures idle == Checkin(old(idle), c, now, cfg)
    {
      if cfg.ttl.None? || cfg.max == 0 { return; }
      var stack := SweepStack(if c.addr in idle then idle[c.addr] else [], now, cfg.ttl.value);
      if |stack| < cfg.max {
        stack := stack + [c.(idleSince := now, reused := false)];
      }
      idle := idle[c.addr := stack];
    }

    method CloseAll(addr: Addr)
      modifies this`idle
      ensures idle == Purge(old(idle), addr)
    {
      idle := idle - {addr};
    }
  }

  method SweepStack(stack: seq<Conn>, now: Time, ttl: Time) returns (kept: seq<Conn>)
    ensures kept == Swept(stack, now, ttl)
  {
    kept := [];
    for i := 0 to |stack|
      invariant kept == Swept(stack[..i], now, ttl)
    {
      assert stack[..i + 1][..i] == stack[..i];
      if !Stale(stack[i], now, ttl) {
        kept := kept + [stack[i]];
      }
    }
    assert stack[..|stack|] == stack;
  }
}
