/** The pooled operation as the client runs it: a loop of two attempts over the pool, each step of
    which is a step of the concurrent model. */
module PooledClient {
  import opened Options
  import opened ConnPools
  import opened PooledOps
  import opened PooledCalls

  /** What the network does to one attempt, and how long it takes. */
  datatype Weather = Weather(dial: Dialling, creation: Creation, ioid: Ioid, script: Script, dialTime: nat,
                             openTime: nat, opTime: nat)

  /** The steps of one attempt of `c`, in whatever order. */
  ghost predicate Mine(a: Action, c: CallId, w: Weather) {
    a == Draw(c) || a == Dials(c, w.dial) || a == Open(c, w.creation) || a == Perform(c, w.ioid, w.script) || a.Pass?
  }

  ghost predicate AllMine(steps: seq<Action>, c: CallId, w: Weather) {
    forall i :: 0 <= i < |steps| ==> Mine(steps[i], c, w)
  }

  lemma {:induction false} RunSnoc(s: State, actions: seq<Action>, a: Action, cfg: Config)
    requires Run(s, actions, cfg).Some? && Enabled(Run(s, actions, cfg).value, a)
    ensures Run(s, actions + [a], cfg) == Some(Apply(Run(s, actions, cfg).value, a, cfg))
    decreases |actions|
  {
    hide Enabled, Apply;
    if |actions| == 0 {
      assert (actions + [a])[1..] == [];
    } else {
      assert (actions + [a])[0] == actions[0] && (actions + [a])[1..] == actions[1..] + [a];
      RunSnoc(Apply(s, actions[0], cfg), actions[1..], a, cfg);
    }
  }

  /** An attempt of `c` has ended: it goes round again, or returns. Nothing else has changed. */
  ghost predicate Over(before: Calls, after: Calls, c: CallId, again: bool, error: Option<Error>)
    requires c in before
  {
    && c in after && after == before[c := after[c]]
    && after[c].name == before[c].name && after[c].addr == before[c].addr && after[c].op == before[c].op
    && after[c].attempt == before[c].attempt + (if again then 1 else 0)
    && after[c].stage == (if again then Connecting else Ended(error))
  }

  class Client {
    const pool: ConnPool
    var nextConn: ConnId
    var retriedDead: nat
    var now: Time
    ghost var log: seq<Action>
    ghost var world: State

    /** The steps taken so far are a run, and the client's state is its state. */
    ghost predicate Valid()
      reads this, pool
    {
      Run(INIT, log, pool.cfg) == Some(world) && Agrees()
    }

    ghost predicate Agrees()
      reads this, pool
    {
      world.idle == pool.idle && world.next == nextConn && world.retriedDead == retriedDead && world.now == now
    }

    constructor (cfg: Config)
      ensures Valid() && fresh(pool) && pool.cfg == cfg && log == [] && world == INIT
    {
      pool := new ConnPool(cfg);
      nextConn, retriedDead, now := 0, 0, 0;
      log, world := [], INIT;
    }

    /** Note a step that has just been taken. */
    ghost method Note(a: Action)
      requires Run(INIT, log, pool.cfg) == Some(world) && Enabled(world, a)
      modifies this`log, this`world
      ensures log == old(log) + [a] && world == Apply(old(world), a, pool.cfg)
      ensures Run(INIT, log, pool.cfg) == Some(world)
    {
      RunSnoc(INIT, log, a, pool.cfg);
      log, world := log + [a], Apply(world, a, pool.cfg);
    }

    method Sleep(dt: nat)
      requires Valid()
      modifies this`now, this`log, this`world
      ensures Valid() && log == old(log) + [Pass(dt)] && world == old(world).(now := old(world).now + dt)
    {
      hide Run;
      now := now + dt;
      Note(Pass(dt));
    }

    /** A connection for an attempt: the first may come from the pool, the second is dialled. Every
        attempt counts one hit or one miss, every dial a miss. A dial that fails is not yet noted. */
    method Connect(c: CallId, attempt: nat, addr: Addr, w: Weather) returns (r: Result<Conn, Error>)
      requires Valid() && c in world.calls && world.calls[c].stage.Connecting?
      requires world.calls[c].attempt == attempt && world.calls[c].addr == addr
      modifies this, pool
      ensures Valid() && old(log) < log && AllMine(log[|old(log)|..], c, w)
      ensures retriedDead == old(retriedDead) && pool.hits + pool.misses == old(pool.hits) + old(pool.misses) + 1
      ensures pool.misses == old(pool.misses) +
                if attempt == 0 && Checkout(old(pool.idle), addr, old(now), pool.cfg).1.Some? then 0 else 1
      ensures c in world.calls
              && world.calls == old(world.calls)[c := old(world.calls[c]).(stage := world.calls[c].stage)]
      ensures r.Ok? ==> world.calls[c].stage == Connected(r.value)
      ensures r.Err? ==> world.calls[c].stage.OnDial? && Handshake(nextConn, addr, c, now, w.dial) == r
    {
      hide Run, Handshake, Checkout, Refile;
      if attempt == 0 {
        var hit := pool.Take(addr, now);
        Note(Draw(c));
        if hit.Some? { return Ok(hit.value); }
      } else {
        pool.CountMiss();
        Note(Draw(c));
      }
      Sleep(w.dialTime);
      r := Handshake(nextConn, addr, c, now, w.dial);
      if r.Ok? {
        nextConn := nextConn + 1;
        Note(Dials(c, w.dial));
      }
    }

    /** The operation itself, once its channel is open. `again` asks for the second attempt. */
    method Perform(c: CallId, op: Op, conn: Conn, name: Name, attempt: nat, w: Weather)
        returns (again: bool, error: Option<Error>)
      requires Valid() && c in world.calls && world.calls[c].stage.Opened? && world.calls[c].stage.conn == conn
      requires world.calls[c].op == op && world.calls[c].name == name && world.calls[c].attempt == attempt
      modifies this, pool`idle
      ensures Valid() && log == old(log) + [Pass(w.opTime), PooledCalls.Perform(c, w.ioid, w.script)]
      ensures Over(old(world.calls), world.calls, c, again, error)
              && retriedDead == old(retriedDead) + (if again then 1 else 0)
    {
      hide Run, RunOp, Checkin, Refile;
      Sleep(w.opTime);
      var end := RunOp(op, conn, w.ioid, w.script);
      again, error := false, end.error;
      if end.error.None? {
        if end.ctx.reusable {
          pool.Give(end.conn, now);
        }
      } else if IsReuseFailure(end.error.value) {
        again := conn.reused && attempt == 0 && !end.ctx.committed;
        if again {
          retriedDead := retriedDead + 1;
        }
      } else if IsServerRefusal(end.error.value) {
        pool.Give(end.conn.(channels := end.conn.channels - {name}), now);
      } else if end.ctx.reusable {
        pool.Give(end.conn, now);
      }
      Note(PooledCalls.Perform(c, w.ioid, w.script));
    }

    /** One attempt that has its connection: open the channel, then perform the operation. */
    method Attempt(c: CallId, op: Op, conn: Conn, name: Name, attempt: nat, w: Weather)
        returns (again: bool, error: Option<Error>)
      requires Valid() && c in world.calls && world.calls[c].stage == Connected(conn)
      requires world.calls[c].op == op && world.calls[c].name == name && world.calls[c].attempt == attempt
      modifies this, pool`idle
      ensures Valid() && old(log) < log && AllMine(log[|old(log)|..], c, w)
      ensures Over(old(world.calls), world.calls, c, again, error)
              && retriedDead == old(retriedDead) + (if again then 1 else 0)
    {
      hide Run, ChannelSid, Checkin, Refile;
      Sleep(w.openTime);
      var (conn', sid) := ChannelSid(conn, name, w.creation);
      if sid.Err? {
        var retryable := IsReuseFailure(sid.error);
        if !retryable && IsServerRefusal(sid.error) {
          pool.Give(conn', now);
        }
        again, error := retryable && conn.reused && attempt == 0, Some(sid.error);
        if again {
          retriedDead := retriedDead + 1;
        }
        Note(Open(c, w.creation));
      } else {
        Note(Open(c, w.creation));
        again, error := Perform(c, op, conn', name, attempt, w);
      }
    }

    /** One attempt: get a connection, or give up and close the address's idle ones; then try. */
    method Round(c: CallId, name: Name, addr: Addr, op: Op, attempt: nat, w: Weather)
        returns (again: bool, error: Option<Error>, ghost steps: seq<Action>)
      requires Valid() && c in world.calls && world.calls[c].stage.Connecting? && world.calls[c].attempt == attempt
      requires world.calls[c].name == name && world.calls[c].addr == addr && world.calls[c].op == op
      modifies this, pool
      ensures Valid() && log == old(log) + steps && steps != [] && AllMine(steps, c, w)
      ensures Over(old(world.calls), world.calls, c, again, error)
              && retriedDead == old(retriedDead) + (if again then 1 else 0)
      ensures pool.hits + pool.misses == old(pool.hits) + old(pool.misses) + 1
      ensures CallOk(c, world.calls[c]) && world.calls[c].attempt <= 1 && Written(world.calls[c].tries) <= 1
    {
      hide Run, Handshake, Refile, CallOk, Written;
      var acquired := Connect(c, attempt, addr, w);
      if acquired.Err? {
        if !acquired.error.Dropped? {
          pool.CloseAll(addr);
        }
        Note(Dials(c, w.dial));
        again, error := false, Some(acquired.error);
      } else {
        again, error := Attempt(c, op, acquired.value, name, attempt, w);
      }
      steps := log[|old(log)|..];
      CallIsOk(log, world, c, pool.cfg);
    }

    /** Run an operation for `name` on a pooled connection. The steps taken are those of one attempt
        or two, with what the network did to each, and the call ends as the concurrent model says:
        at most two tries, the second on a connection dialled for it after a reused one failed
        uncommitted; at most one data frame. Every attempt counts one hit or one miss. */
    method WithPooledChannel(c: CallId, name: Name, addr: Addr, op: Op, weather: seq<Weather>)
        returns (error: Option<Error>, ghost first: seq<Action>, ghost second: seq<Action>)
      requires Valid() && c !in world.calls && |weather| == 2
      modifies this, pool
      ensures Valid() && log == old(log) + [Begin(c, name, addr, op)] + first + second
      ensures AllMine(first, c, weather[0]) && AllMine(second, c, weather[1])
      ensures c in world.calls && world.calls == old(world.calls)[c := world.calls[c]]
              && world.calls[c].stage == Ended(error)
      ensures CallOk(c, world.calls[c]) && Written(world.calls[c].tries) <= 1
      ensures second == [] <==> world.calls[c].attempt == 0
      ensures retriedDead == old(retriedDead) + world.calls[c].attempt
      ensures pool.hits + pool.misses == old(pool.hits) + old(pool.misses) + 1 + world.calls[c].attempt
    {
      assert AllMine([], c, weather[0]) && AllMine([], c, weather[1]);
      hide *;
      Enter(c, name, addr, op);
      var attempt := 0;
      first, second := [], [];
      assert log == old(log) + [Begin(c, name, addr, op)] + first + second;
      while attempt < 2
        invariant Valid() && attempt <= 1 && c in world.calls && world.calls == old(world.calls)[c := world.calls[c]]
        invariant world.calls[c].stage.Connecting? && world.calls[c].attempt == attempt
        invariant world.calls[c].name == name && world.calls[c].addr == addr && world.calls[c].op == op
        invariant log == old(log) + [Begin(c, name, addr, op)] + first + second
        invariant second == [] && (attempt == 0 ==> first == []) && AllMine(first, c, weather[0])
        invariant retriedDead == old(retriedDead) + attempt
        invariant pool.hits + pool.misses == old(pool.hits) + old(pool.misses) + attempt
        decreases 2 - attempt
      {
        ghost var before, calls := log, world.calls;
        ghost var steps;
        var again;
        again, error, steps := Round(c, name, addr, op, attempt, weather[attempt]);
        OverIs(calls, world.calls, c, again, error);
        if attempt == 0 {
          assert before + steps == old(log) + [Begin(c, name, addr, op)] + steps + [];
          first := steps;
        } else {
          assert before + steps == old(log) + [Begin(c, name, addr, op)] + first + steps;
          second := steps;
        }
        if !again { return; }
        attempt := attempt + 1;
      }
      // Both attempts return.
      assert false;
    }

    ghost method Enter(c: CallId, name: Name, addr: Addr, op: Op)
      requires Valid() && c !in world.calls
      modifies this`log, this`world
      ensures Valid() && log == old(log) + [Begin(c, name, addr, op)]
      ensures world.calls == old(world.calls)[c := Call(name, addr, op, 0, Connecting, [])]
    {
      hide Run;
      Note(Begin(c, name, addr, op));
    }
  }

  lemma {:induction false} OverIs(before: Calls, after: Calls, c: CallId, again: bool, error: Option<Error>)
    requires c in before && Over(before, after, c, again, error)
    ensures c in after && after == before[c := after[c]]
    ensures after[c].name == before[c].name && after[c].addr == before[c].addr && after[c].op == before[c].op
    ensures after[c].attempt == before[c].attempt + (if again then 1 else 0)
    ensures after[c].stage == (if again then Connecting else Ended(error))
  {
  }

  lemma {:induction false} CallIsOk(log: seq<Action>, world: State, c: CallId, cfg: Config)
    requires Run(INIT, log, cfg) == Some(world) && c in world.calls
    ensures CallOk(c, world.calls[c]) && world.calls[c].attempt <= 1 && Written(world.calls[c].tries) <= 1
  {
    InitOk(cfg);
    RunKeeps(INIT, log, cfg);
    hide Run, IdleOk, OutOk, Numbered, Seconds, Written;
    WrittenOnce(c, world.calls[c]);
  }
}
