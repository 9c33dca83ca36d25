/** The search engine as its task runs it: the table, the name index and the reply channels
    updated in place. */
module SearchTask {
  import opened Options
  import opened Encoding
  import opened Packing
  import opened SearchEngine
  import opened SearchSafety
  import opened SearchRuns
  import opened Sets

  // ----- Choosing a cid -----

  lemma {:induction false} CyclesDiffer(from: Cid, i: nat, j: nat)
    requires i < j < U32
    ensures Cycle(from, i) != Cycle(from, j)
  {
    var a, b := from + i, from + j;
    assert a == U32 * (a / U32) + a % U32 && b == U32 * (b / U32) + b % U32;
  }

  /** The first `k` cids tried. */
  ghost function Tried(from: Cid, k: nat): set<Cid> {
    if k == 0 then {} else Tried(from, k - 1) + {Cycle(from, k - 1)}
  }

  lemma {:induction false} TriedAre(from: Cid, k: nat)
    requires k <= U32
    ensures |Tried(from, k)| == k
    ensures forall c :: c in Tried(from, k) ==> exists j: nat :: j < k && c == Cycle(from, j)
    decreases k
  {
    if k > 0 {
      TriedAre(from, k - 1);
      forall j: nat | j < k - 1 ensures Cycle(from, j) != Cycle(from, k - 1) {
        CyclesDiffer(from, j, k - 1);
      }
      hide Cycle;
    }
  }

  lemma {:induction false} AllTriedTaken(pending: Table, from: Cid, k: nat)
    requires k <= U32 && forall j: nat :: j < k ==> Cycle(from, j) in pending
    ensures k <= |pending|
  {
    hide Cycle, Tried;
    TriedAre(from, k);
    SubsetSize(Tried(from, k), pending.Keys);
    assert |pending.Keys| == |pending|;
  }

  lemma {:induction false} NextCycle(from: Cid, k: nat)
    ensures Cycle(from, k + 1) == (Cycle(from, k) + 1) % U32
  {
    var a := from + k;
    assert a == U32 * (a / U32) + a % U32;
  }

  /** Count up, wrapping, past the cids taken. It stops because not all of them are. */
  method FreeCid(pending: Table, from: Cid) returns (cid: Cid)
    requires |pending| < U32 && from < U32
    ensures FirstFree(pending, from, cid) && cid !in pending && cid < U32
  {
    cid := from;
    ghost var k: nat := 0;
    while cid in pending
      invariant cid == Cycle(from, k) && k <= |pending|
      invariant forall j: nat :: j < k ==> Cycle(from, j) in pending
      decreases U32 - k
    {
      AllTriedTaken(pending, from, k + 1);
      NextCycle(from, k);
      cid := (cid + 1) % U32;
      k := k + 1;
    }
  }

  // ----- Expiring one entry -----

  function OverdueOf(ws: seq<Waiter>, replies: Replies, now: Time): set<RequestId> {
    set w | w in ws && IsOpen(replies, w.id) && w.deadline <= now :: w.id
  }

  /** One pass over the waiters, timing out the overdue and keeping the rest. */
  method ExpireWaiters(ws: seq<Waiter>, replies: Replies, now: Time) returns (kept: seq<Waiter>, replies': Replies)
    requires Apart(ws)
    ensures kept == SearchEngine.Kept(ws, replies, now)
    ensures replies' == Settle(replies, OverdueOf(ws, replies, now), TimedOut)
  {
    kept, replies' := [], replies;
    for i := 0 to |ws|
      invariant kept == SearchEngine.Kept(ws[..i], replies, now)
      invariant replies' == Settle(replies, OverdueOf(ws[..i], replies, now), TimedOut)
    {
      var w := ws[i];
      assert ws[..i + 1][..i] == ws[..i];
      assert OverdueOf(ws[..i + 1], replies, now) ==
        OverdueOf(ws[..i], replies, now) + (if IsOpen(replies, w.id) && w.deadline <= now then {w.id} else {});
      assert w.id !in OverdueOf(ws[..i], replies, now);
      if IsOpen(replies', w.id) {
        if w.deadline <= now {
          replies' := replies'[w.id := TimedOut];
        } else {
          kept := kept + [w];
        }
      }
    }
    assert ws[..|ws|] == ws;
  }

  // ----- Expiring the table -----

  /** The waiters of different entries are different requests. */
  ghost predicate Separate(pending: Table) {
    && (forall c :: c in pending ==> Apart(pending[c].waiters))
    && (forall c, d :: c in pending && d in pending && c != d ==> Ids(pending[c].waiters) !! Ids(pending[d].waiters))
  }

  lemma {:induction false} TablesSeparate(queue: seq<RequestId>, pending: Table, byName: Index, replies: Replies,
                                          asked: map<RequestId, Asked>)
    requires Tables(queue, pending, byName, replies, asked)
    ensures Separate(pending)
  {
    assert forall c :: c in pending ==> Placed(pending[c], replies, asked);
    forall c, d | c in pending && d in pending && c != d ensures Ids(pending[c].waiters) !! Ids(pending[d].waiters) {
      assert pending[c].name != pending[d].name;
    }
  }

  /** Expiry looks only at the replies of the waiters themselves. */
  lemma {:induction false} ExpiryIsLocal(ws: seq<Waiter>, replies: Replies, ids: set<RequestId>, now: Time)
    requires Ids(ws) !! ids
    ensures SearchEngine.Kept(ws, Settle(replies, ids, TimedOut), now) == SearchEngine.Kept(ws, replies, now)
    ensures OverdueOf(ws, Settle(replies, ids, TimedOut), now) == OverdueOf(ws, replies, now)
    decreases |ws|
  {
    var replies' := Settle(replies, ids, TimedOut);
    assert forall w :: w in ws ==> w.id in Ids(ws) && IsOpen(replies', w.id) == IsOpen(replies, w.id);
    if ws != [] {
      assert forall w :: w in ws[..|ws| - 1] ==> w in ws;
      assert Ids(ws[..|ws| - 1]) <= Ids(ws);
      assert ws[|ws| - 1] in ws;
      hide Settle, Ids;
      ExpiryIsLocal(ws[..|ws| - 1], replies, ids, now);
    }
  }

  lemma {:induction false} SettleTwice(replies: Replies, a: set<RequestId>, b: set<RequestId>, r: Reply)
    ensures Settle(Settle(replies, a, r), b, r) == Settle(replies, a + b, r)
  {
  }

  /** The entries already gone through. */
  function Part(pending: Table, todo: set<Cid>): Table {
    map c | c in pending && c !in todo :: pending[c]
  }

  lemma {:induction false} OneMorePart(pending: Table, todo: set<Cid>, c: Cid, replies: Replies, now: Time)
    requires c in pending && c in todo && Separate(pending)
    ensures Overdue(Part(pending, todo - {c}), replies, now) ==
              Overdue(Part(pending, todo), replies, now) + OverdueOf(pending[c].waiters, replies, now)
    ensures Overdue(Part(pending, todo), replies, now) !! Ids(pending[c].waiters)
  {
    var done, done' := Part(pending, todo), Part(pending, todo - {c});
    assert forall d :: d in done' <==> d in done || d == c;
    forall id | id in Overdue(done', replies, now)
      ensures id in Overdue(done, replies, now) + OverdueOf(pending[c].waiters, replies, now)
    {
      var d, w :| d in done' && w in done'[d].waiters && IsOpen(replies, w.id) && w.deadline <= now && w.id == id;
      assert d == c || d in done;
    }
    assert forall d :: d in done ==> Ids(pending[d].waiters) !! Ids(pending[c].waiters);
  }

  /** The table part way through an expiry. */
  function Partly(pending: Table, replies: Replies, now: Time, todo: set<Cid>): Table {
    map c | c in pending && (c in todo || SearchEngine.Kept(pending[c].waiters, replies, now) != [])
      :: if c in todo then pending[c] else pending[c].(waiters := SearchEngine.Kept(pending[c].waiters, replies, now))
  }

  function Emptied(pending: Table, replies: Replies, now: Time, todo: set<Cid>): set<Name> {
    set c | c in pending && c !in todo && SearchEngine.Kept(pending[c].waiters, replies, now) == [] :: pending[c].name
  }

  /** Go through every entry once, dropping those left with no waiter. */
  method ExpireTable(pending: Table, byName: Index, replies: Replies, now: Time)
      returns (pending': Table, byName': Index, replies': Replies)
    requires Separate(pending)
    ensures pending' == Survivors(pending, replies, now) && byName' == byName - Deserted(pending, replies, now)
    ensures replies' == Settle(replies, Overdue(pending, replies, now), TimedOut)
  {
    pending', byName', replies' := pending, byName, replies;
    var todo := pending.Keys;
    assert forall c :: c in pending ==> Apart(pending[c].waiters);
    hide *;
    Ends(pending, replies, now);
    while todo != {}
      invariant todo <= pending.Keys
      invariant pending' == Partly(pending, replies, now, todo)
      invariant byName' == byName - Emptied(pending, replies, now, todo)
      invariant replies' == Settle(replies, Overdue(Part(pending, todo), replies, now), TimedOut)
      decreases |todo|
    {
      var c :| c in todo;
      OneMorePart(pending, todo, c, replies, now);
      ghost var so := Overdue(Part(pending, todo), replies, now);
      ExpiryIsLocal(pending[c].waiters, replies, so, now);
      SettleTwice(replies, so, OverdueOf(pending[c].waiters, replies, now), TimedOut);
      var kept;
      kept, replies' := ExpireWaiters(pending[c].waiters, replies', now);
      EntryDone(pending, byName, replies, now, todo, c);
      LessNames(byName, Emptied(pending, replies, now, todo), pending[c].name);
      if kept == [] {
        byName' := byName' - {pending[c].name};
        pending' := pending' - {c};
      } else {
        pending' := pending'[c := pending[c].(waiters := kept)];
      }
      todo := todo - {c};
    }
  }

  lemma {:induction false} Ends(pending: Table, replies: Replies, now: Time)
    ensures Part(pending, {}) == pending
    ensures Partly(pending, replies, now, {}) == Survivors(pending, replies, now)
    ensures Emptied(pending, replies, now, {}) == Deserted(pending, replies, now)
    ensures Partly(pending, replies, now, pending.Keys) == pending && Emptied(pending, replies, now, pending.Keys) == {}
    ensures Settle(replies, Overdue(Part(pending, pending.Keys), replies, now), TimedOut) == replies
  {
    hide SearchEngine.Kept;
    assert Part(pending, pending.Keys) == map[];
    assert Overdue(map[], replies, now) == {};
  }

  lemma {:induction false} LessNames(byName: Index, gone: set<Name>, n: Name)
    ensures byName - gone - {n} == byName - (gone + {n})
  {
  }

  lemma {:induction false} EntryDone(pending: Table, byName: Index, replies: Replies, now: Time, todo: set<Cid>, c: Cid)
    requires c in pending && c in todo
    ensures var kept := SearchEngine.Kept(pending[c].waiters, replies, now);
            var before, after := Partly(pending, replies, now, todo), Partly(pending, replies, now, todo - {c});
            var gone, gone' := Emptied(pending, replies, now, todo), Emptied(pending, replies, now, todo - {c});
            if kept == [] then after == before - {c} && gone' == gone + {pending[c].name}
            else after == before[c := pending[c].(waiters := kept)] && gone' == gone
  {
    hide SearchEngine.Kept;
  }

  // ----- Collecting what is due -----

  ghost predicate Sorted(pending: Table, cids: seq<Cid>) {
    && (forall c :: c in cids ==> c in pending)
    && forall i, j :: 0 <= i < j < |cids| && cids[i] in pending && cids[j] in pending ==>
         Before(pending[cids[i]].order, cids[i], pending[cids[j]].order, cids[j])
  }

  ghost predicate InOrder(pending: Table, c: Cid, d: Cid) {
    c in pending && d in pending && Before(pending[c].order, c, pending[d].order, d)
  }

  lemma {:induction false} InsertSorted(pending: Table, cids: seq<Cid>, c: Cid, at: nat)
    requires Sorted(pending, cids) && c in pending && at <= |cids|
    requires forall i :: 0 <= i < at ==> InOrder(pending, cids[i], c)
    requires forall i :: at <= i < |cids| ==> InOrder(pending, c, cids[i])
    ensures Sorted(pending, cids[..at] + [c] + cids[at..])
  {
    var r := cids[..at] + [c] + cids[at..];
    assert forall i :: 0 <= i < |r| ==> r[i] == if i < at then cids[i] else if i == at then c else cids[i - 1];
    hide Before;
  }

  /** Put a cid in its place by arrival order. */
  method Insert(pending: Table, cids: seq<Cid>, c: Cid) returns (r: seq<Cid>)
    requires Sorted(pending, cids) && c in pending && c !in cids
    ensures Sorted(pending, r) && forall d :: d in r <==> d in cids || d == c
  {
    var at := |cids|;
    while at > 0 && Before(pending[c].order, c, pending[cids[at - 1]].order, cids[at - 1])
      invariant 0 <= at <= |cids|
      invariant forall j :: at <= j < |cids| ==> InOrder(pending, c, cids[j])
    {
      at := at - 1;
    }
    forall i | 0 <= i < at ensures InOrder(pending, cids[i], c) {
      assert cids[i] in cids && cids[at - 1] in cids;
      assert i < at - 1 ==> InOrder(pending, cids[i], cids[at - 1]);
    }
    InsertSorted(pending, cids, c, at);
    r := cids[..at] + [c] + cids[at..];
    assert forall d :: d in cids <==> d in cids[..at] || d in cids[at..];
  }

  method Collect(pending: Table, now: Time) returns (due: seq<Cid>)
    ensures IsBatch(pending, now, due)
  {
    due := [];
    var todo := pending.Keys;
    while todo != {}
      invariant todo <= pending.Keys
      invariant Sorted(pending, due)
      invariant forall c :: c in due <==> c in pending && c !in todo && DueBy(pending[c], now + RETRY_COALESCE)
      decreases |todo|
    {
      var c :| c in todo;
      todo := todo - {c};
      if DueBy(pending[c], now + RETRY_COALESCE) {
        due := Insert(pending, due, c);
      }
    }
  }

  /** The earliest deadline among some waiters. */
  method EarliestDeadline(ws: seq<Waiter>) returns (t: Option<Time>)
    ensures t.None? <==> ws == []
    ensures t.Some? ==> (exists w :: w in ws && w.deadline == t.value) && forall w :: w in ws ==> t.value <= w.deadline
  {
    t := None;
    for i := 0 to |ws|
      invariant t.None? <==> i == 0
      invariant t.Some? ==> (exists w :: w in ws && w.deadline == t.value) && forall j :: 0 <= j < i ==>
                  t.value <= ws[j].deadline
    {
      if t.None? || ws[i].deadline < t.value {
        t := Some(ws[i].deadline);
      }
    }
  }

  function Earlier(a: Option<Time>, b: Option<Time>): Option<Time> {
    if a.None? || (b.Some? && b.value < a.value) then b else a
  }

  /** The earliest thing the engine has to wake for, if there is any. */
  method NextWake(pending: Table) returns (t: Option<Time>)
    ensures t.Some? ==> WakesAt(pending, t.value)
    ensures forall u :: WakesAt(pending, u) ==> t.Some? && t.value <= u
  {
    t := None;
    var todo := pending.Keys;
    while todo != {}
      invariant todo <= pending.Keys
      invariant t.Some? ==> exists c :: c in pending && c !in todo && Wakes(pending[c], t.value)
      invariant forall c, u :: c in pending && c !in todo && Wakes(pending[c], u) ==> t.Some? && t.value <= u
      decreases |todo|
    {
      var c :| c in todo;
      todo := todo - {c};
      var d := EarliestDeadline(pending[c].waiters);
      assert forall u :: Wakes(pending[c], u) ==>
               Earlier(pending[c].nextSend, d).Some? && Earlier(pending[c].nextSend, d).value <= u;
      assert Earlier(pending[c].nextSend, d).Some? ==> Wakes(pending[c], Earlier(pending[c].nextSend, d).value);
      t := Earlier(t, Earlier(pending[c].nextSend, d));
    }
  }

  // ----- Answering -----

  /** Send every waiter the same result; a channel its caller dropped takes none. */
  method SendAll(ws: seq<Waiter>, replies: Replies, r: Reply) returns (replies': Replies)
    requires !r.Open?
    ensures replies' == Settle(replies, OpenIds(ws, replies), r)
  {
    replies' := replies;
    for i := 0 to |ws|
      invariant replies' == Settle(replies, OpenIds(ws[..i], replies), r)
    {
      assert OpenIds(ws[..i + 1], replies)
             == OpenIds(ws[..i], replies) + if IsOpen(replies, ws[i].id) then {ws[i].id} else {};
      if IsOpen(replies', ws[i].id) {
        replies' := replies'[ws[i].id := r];
      }
    }
    assert ws[..|ws|] == ws;
  }

  // ----- The engine -----

  class Engine {
    /** Largest datagram to build. */
    const limit: nat
    var pending: Table
    var byName: Index
    var nextCid: Cid
    var nextSeq: Number
    var nextOrder: nat
    var rng: nat
    /** The request channel and the reply channels. */
    var queue: seq<RequestId>
    var replies: Replies
    ghost var log: Log

    ghost function Value(): State
      reads this
    {
      State(pending, byName, nextCid, nextSeq, nextOrder, rng, queue, replies, log)
    }

    ghost predicate Valid()
      reads this
    {
      Inv(Value()) && nextCid < U32 && SEARCH_FIXED_BYTES <= limit
    }

    constructor (cid: Cid, number: Number, limit: nat)
      requires cid < U32 && limit in {MAX_DATAGRAM_V4, MAX_DATAGRAM_V6}
      ensures Valid() && Value() == Start(cid, number)
    {
      this.limit := limit;
      pending, byName, nextCid, nextSeq, nextOrder, rng := map[], map[], cid, number, 0, 0;
      queue, replies, log := [], map[], Log(map[], map[], map[], map[], map[]);
    }

    /** Take one request off the channel and join or start the search for its name. */
    method Add(asked: Asked, now: Time) returns (cid: Cid)
      requires Valid() && queue != [] && queue[0] in log.asked && asked == log.asked[queue[0]]
      requires |pending| < U32
      modifies this
      ensures Valid() && Value() == Take(old(Value()), now, cid)
      ensures asked.name !in old(byName) && IsOpen(old(replies), old(queue)[0]) ==>
                FirstFree(old(pending), old(nextCid), cid)
    {
      hide Inv, FirstFree, Take;
      ghost var was := Value();
      cid := nextCid;
      var id, w := queue[0], Waiter(queue[0], asked.deadline);
      if IsOpen(replies, id) && asked.name !in byName {
        cid := FreeCid(pending, nextCid);
      }
      TakeKeeps(was, now, cid);
      TakeIs(was, now, cid);
      queue := queue[1..];
      if !IsOpen(replies, id) { return; }
      log := log.(made := More(log.made, asked.name));
      if asked.name in byName && byName[asked.name] in pending {
        JoinEntry(byName[asked.name], w, now);
      } else {
        StartEntry(asked.name, cid, w, now);
      }
    }

    method JoinEntry(cid: Cid, w: Waiter, now: Time)
      requires cid in pending
      modifies this`pending
      ensures pending == old(pending)[cid := Join(old(pending)[cid], w, now)]
    {
      var p := pending[cid].(waiters := pending[cid].waiters + [w]);
      if p.nextSend.None? {
        p := p.(sends := 0, nextSend := Some(now));
      }
      pending := pending[cid := p];
    }

    method StartEntry(name: Name, cid: Cid, w: Waiter, now: Time)
      modifies this`pending, this`byName, this`nextCid, this`nextOrder, this`log
      ensures pending == old(pending)[cid := Pending(name, old(nextOrder), [w], 0, Some(now), [])]
      ensures byName == old(byName)[name := cid] && nextCid == (cid + 1) % U32 && nextOrder == old(nextOrder) + 1
      ensures log == old(log).(carried := old(log).carried[cid := []])
    {
      nextCid := (cid + 1) % U32;
      byName := byName[name := cid];
      pending := pending[cid := Pending(name, nextOrder, [w], 0, Some(now), [])];
      nextOrder := nextOrder + 1;
      log := log.(carried := log.carried[cid := []]);
    }

    /** Time out waiters past their deadline, drop those whose caller went away, and forget names
        nobody is waiting for any more. */
    method ExpireAll(now: Time)
      requires Valid()
      modifies this
      ensures Valid() && Value() == Expire(old(Value()), now)
    {
      hide Inv, Separate, Survivors, Deserted, Overdue, Settle, Close;
      ghost var was := Value();
      ExpireKeeps(was, now);
      InvSeparate(was);
      log := log.(ended := Close(log.ended, Overdue(pending, replies, now), Expired(now)));
      pending, byName, replies := ExpireTable(pending, byName, replies, now);
      assert Value() == Expire(was, now);
    }

    /** One datagram: every entry in it remembers its number. */
    method CarryRun(cids: seq<Cid>, number: Number)
      requires forall i :: 0 <= i < |cids| ==> cids[i] in pending
      modifies this`pending, this`log
      ensures pending.Keys == old(pending.Keys) && Value() == CarryAll(old(Value()), cids, number)
    {
      ghost var was := Value();
      hide CarryAll, More;
      assert cids[0..] == cids;
      for i := 0 to |cids|
        invariant pending.Keys == was.pending.Keys
        invariant CarryAll(Value(), cids[i..], number) == CarryAll(was, cids, number)
      {
        CarryNext(Value(), cids, i, number);
        ghost var before := Value();
        var p := pending[cids[i]];
        var seqs := if |p.seqs| == SEQS_KEPT then p.seqs[1..] else p.seqs;
        ghost var carried := if cids[i] in log.carried then log.carried[cids[i]] else [];
        pending := pending[cids[i] := p.(seqs := seqs + [number])];
        log := log.(carried := log.carried[cids[i] := carried + [number]], sent := More(log.sent, p.name));
        assert Value() == Carry(before, cids[i], number);
      }
      CarryNext(Value(), cids, |cids|, number);
    }

    /** One datagram per run, each with the next sequence number. */
    method Transmit(due: seq<Cid>, runs: seq<Range>)
      requires forall i :: 0 <= i < |due| ==> due[i] in pending
      requires forall i :: 0 <= i < |runs| ==> runs[i].start <= runs[i].end <= |due|
      modifies this`pending, this`log, this`nextSeq
      ensures pending.Keys == old(pending.Keys) && Value() == SendRuns(old(Value()), due, runs)
    {
      ghost var was := Value();
      hide SendRuns, CarryAll;
      assert runs[0..] == runs;
      for k := 0 to |runs|
        invariant pending.Keys == was.pending.Keys
        invariant SendRuns(Value(), due, runs[k..]) == SendRuns(was, due, runs)
      {
        SendNext(Value(), due, runs, k);
        var number := nextSeq;
        nextSeq := (nextSeq + 1) % U32;
        CarryRun(due[runs[k].start..runs[k].end], number);
      }
      SendNext(Value(), due, runs, |runs|);
    }

    /** Count the send of every entry and set its next one. */
    method RescheduleBatch(due: seq<Cid>, now: Time, unit: nat -> Unit)
      requires forall i :: 0 <= i < |due| ==> due[i] in pending
      modifies this`pending, this`rng
      ensures Value() == RescheduleAll(old(Value()), due, now, unit)
    {
      ghost var was := Value();
      hide RescheduleAll;
      assert due[0..] == due;
      for i := 0 to |due|
        invariant pending.Keys == was.pending.Keys
        invariant RescheduleAll(Value(), due[i..], now, unit) == RescheduleAll(was, due, now, unit)
      {
        RescheduleNext(Value(), due, i, now, unit);
        var p := pending[due[i]];
        var next := None;
        if p.sends < |RETRY_GAPS_MS| {
          next := Some(now + Jitter(RETRY_GAPS_MS[p.sends], unit(rng)));
          rng := rng + 1;
        }
        pending := pending[due[i] := p.(sends := p.sends + 1, nextSend := next)];
      }
      RescheduleNext(Value(), due, |due|, now, unit);
    }

    /** Send every name that is due, in as few datagrams as fit. */
    method Send(now: Time, unit: nat -> Unit) returns (ghost due: seq<Cid>, ghost runs: seq<Range>)
      requires Valid()
      modifies this
      ensures Valid() && nextCid == old(nextCid)
      ensures !AnyDue(old(pending), now) ==> Value() == old(Value())
      ensures AnyDue(old(pending), now) ==>
                && IsPacked(old(pending), now, due, runs, limit)
                && Value() == SendDue(old(Value()), now, due, runs, limit, unit)
                && forall other :: IsPacked(old(pending), now, due, other, limit) ==> |runs| <= |other|
    {
      hide *;
      ghost var was := Value();
      InvOf(this);
      due, runs := [], [];
      if !AnyDue(pending, now) { return; }
      var batch := Collect(pending, now);
      BatchIsDistinct(pending, now, batch);
      var packed := PackNextFit(SizesOfDue(pending, batch), limit - SEARCH_FIXED_BYTES);
      due, runs := batch, packed;
      PackedIs(pending, now, batch, packed, limit);
      PackedTiles(pending, now, batch, packed, limit);
      SendDueIs(was, now, batch, packed, limit, unit);
      SendKeeps(was, now, batch, packed, limit, unit);
      Transmit(batch, packed);
      RescheduleBatch(batch, now, unit);
      ValidAgain(this);
    }

    /** Resolve every waiting name a response answers. */
    method Receive(packet: Option<Response>)
      requires Valid()
      modifies this
      ensures Valid() && Value() == OnPacket(old(Value()), packet)
    {
      if packet.None? || !packet.value.found { return; }
      var r := packet.value;
      if r.protocol != "" && !IsTcp(r.protocol) { return; }
      ghost var was := Value();
      assert r.cids[0..] == r.cids;
      AnswersKeep(was, r.cids, r);
      assert OnPacket(was, packet) == AnswerAll(was, r.cids, r);
      hide *;
      InvOf(this);
      for i := 0 to |r.cids|
        invariant AnswerAll(Value(), r.cids[i..], r) == AnswerAll(was, r.cids, r) && nextCid < U32
      {
        AnswerNext(Value(), r.cids, i, r);
        if r.cids[i] in pending && r.number in pending[r.cids[i]].seqs {
          Resolve(r.cids[i], r);
        }
      }
      AnswerNext(Value(), r.cids, |r.cids|, r);
      ValidAgain(this);
    }

    /** Remove an entry and answer its waiters. */
    method Resolve(cid: Cid, r: Response)
      requires cid in pending
      modifies this`pending, this`byName, this`replies, this`log
      ensures Value() == Resolved(old(Value()), cid, r)
    {
      var p := pending[cid];
      ghost var ids := OpenIds(p.waiters, replies);
      ghost var carried := if cid in log.carried then log.carried[cid] else [];
      hide *;
      pending := pending - {cid};
      byName := byName - {p.name};
      replies := SendAll(p.waiters, replies, Found(r.addr));
      log := log.(ended := Close(log.ended, ids, Answered(p.name, r, cid, carried)));
    }

    /** One turn of the task's loop, after whatever woke it. */
    method Turn(now: Time, unit: nat -> Unit)
      requires Valid()
      modifies this
      ensures Valid()
      ensures forall t :: WakesAt(pending, t) ==> t > now
    {
      ghost var was := Value();
      ExpireAll(now);
      hide *;
      ExpiredPatient(was, now);
      ghost var e := Value();
      ghost var due, runs := Send(now, unit);
      if AnyDue(e.pending, now) {
        NothingLeftDue(e, now, due, runs, limit, unit);
      } else {
        QuietLater(e.pending, now);
      }
      LaterWakes(pending, now);
    }
  }

  /** The parts of an engine's validity. */
  lemma {:induction false} InvOf(e: Engine)
    requires e.Valid()
    ensures Inv(e.Value()) && SEARCH_FIXED_BYTES <= e.limit && e.Value().pending == e.pending && e.nextCid < U32
  {
  }

  lemma {:induction false} ValidAgain(e: Engine)
    requires Inv(e.Value()) && SEARCH_FIXED_BYTES <= e.limit && e.nextCid < U32
    ensures e.Valid()
  {
  }

  lemma {:induction false} PackedIs(pending: Table, now: Time, due: seq<Cid>, runs: seq<Range>, limit: nat)
    requires IsBatch(pending, now, due) && SEARCH_FIXED_BYTES <= limit
    requires forall i :: 0 <= i < |due| ==> due[i] in pending
    requires Packs(runs, SizesOfDue(pending, due), limit - SEARCH_FIXED_BYTES, |SizesOfDue(pending, due)|)
    requires forall other ::
               Packs(other, SizesOfDue(pending, due), limit - SEARCH_FIXED_BYTES, |SizesOfDue(pending, due)|) ==>
                 |runs| <= |other|
    ensures IsPacked(pending, now, due, runs, limit)
    ensures forall other :: IsPacked(pending, now, due, other, limit) ==> |runs| <= |other|
  {
    hide Packs, IsBatch;
  }

  // What is left of each loop, one turn at a time.

  lemma {:induction false} RescheduleNext(s: State, due: seq<Cid>, i: nat, now: Time, unit: nat -> Unit)
    requires i <= |due| && forall j :: 0 <= j < |due| ==> due[j] in s.pending
    ensures RescheduleAll(s, due[i..], now, unit)
            == if i == |due| then s else RescheduleAll(Reschedule(s, due[i], now, unit), due[i + 1..], now, unit)
  {
    assert i < |due| ==> due[i..][1..] == due[i + 1..];
  }

  lemma {:induction false} AnswerNext(s: State, cids: seq<Cid>, i: nat, r: Response)
    requires i <= |cids|
    ensures i == |cids| ==> AnswerAll(s, cids[i..], r) == s
    ensures i < |cids| ==>
              var hit := cids[i] in s.pending && r.number in s.pending[cids[i]].seqs;
              AnswerAll(s, cids[i..], r) == AnswerAll(if hit then Resolved(s, cids[i], r) else s, cids[i + 1..], r)
  {
    assert i < |cids| ==> cids[i..][1..] == cids[i + 1..];
  }

  lemma {:induction false} CarryNext(s: State, cids: seq<Cid>, i: nat, number: Number)
    requires i <= |cids| && forall j :: 0 <= j < |cids| ==> cids[j] in s.pending
    ensures CarryAll(s, cids[i..], number)
            == if i == |cids| then s else CarryAll(Carry(s, cids[i], number), cids[i + 1..], number)
  {
    assert i < |cids| ==> cids[i..][1..] == cids[i + 1..];
  }

  /** The number is taken before the datagram is built. */
  lemma {:induction false} SendNext(s: State, due: seq<Cid>, runs: seq<Range>, k: nat)
    requires k <= |runs| && forall i :: 0 <= i < |due| ==> due[i] in s.pending
    requires forall i :: 0 <= i < |runs| ==> runs[i].start <= runs[i].end <= |due|
    ensures k == |runs| ==> SendRuns(s, due, runs[k..]) == s
    ensures k < |runs| ==>
              var cids := due[runs[k].start..runs[k].end];
              var s' := CarryAll(s.(nextSeq := (s.nextSeq + 1) % U32), cids, s.nextSeq);
              && s'.pending.Keys == s.pending.Keys
              && SendRuns(s, due, runs[k..]) == SendRuns(s', due, runs[k + 1..])
  {
    hide CarryAll;
    if k == |runs| { return; }
    var cids := due[runs[k].start..runs[k].end];
    assert runs[k..][1..] == runs[k + 1..];
    CarriedSamePending(s, cids, s.nextSeq);
    CarryIgnoresNumber(s, cids, s.nextSeq, (s.nextSeq + 1) % U32);
  }

  lemma {:induction false} CarryIgnoresNumber(s: State, cids: seq<Cid>, number: Number, next: Number)
    requires forall i :: 0 <= i < |cids| ==> cids[i] in s.pending
    ensures CarryAll(s.(nextSeq := next), cids, number) == CarryAll(s, cids, number).(nextSeq := next)
    decreases |cids|
  {
    if cids != [] {
      CarryIgnoresNumber(Carry(s, cids[0], number), cids[1..], number, next);
    }
  }

  /** Taking a request, case by case. */
  lemma {:induction false} TakeIs(s: State, now: Time, cid: Cid)
    requires Inv(s) && CidOk(s, cid)
    ensures var id, a, s1 := s.queue[0], s.log.asked[s.queue[0]], s.(queue := s.queue[1..]);
            if !IsOpen(s.replies, id) then Take(s, now, cid) == s1
            else if a.name in s.byName then
              && s.byName[a.name] in s.pending
              && Take(s, now, cid) == s1.(
                   pending := s.pending[s.byName[a.name] :=
                     Join(s.pending[s.byName[a.name]], Waiter(id, a.deadline), now)],
                   log := s.log.(made := More(s.log.made, a.name)))
            else Take(s, now, cid) == s1.(
                   pending := s.pending[cid :=
                     Pending(a.name, s.nextOrder, [Waiter(id, a.deadline)], 0, Some(now), [])],
                   byName := s.byName[a.name := cid], nextCid := (cid + 1) % U32, nextOrder := s.nextOrder + 1,
                   log := s.log.(made := More(s.log.made, a.name), carried := s.log.carried[cid := []]))
  {
    hide Join, More, Counts, EndedOk, AllPlaced, QueueOk, OpenOk;
  }

  lemma {:induction false} InvSeparate(s: State)
    requires Inv(s)
    ensures Separate(s.pending)
  {
    hide Tables, Separate;
    TablesSeparate(s.queue, s.pending, s.byName, s.replies, s.log.asked);
  }
}
