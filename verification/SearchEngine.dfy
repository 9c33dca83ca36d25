/** The batching search engine: one table of unresolved names, the callers waiting on them, and
    the steps that add requests, retransmit, expire and answer. */
module SearchEngine {
  import opened Options
  import opened Encoding
  import opened Packing

  type Cid = nat
  type Number = nat
  type RequestId = nat
  type Address = nat
  /** Milliseconds. */
  type Time = real
  /** A draw of the jitter generator. */
  type Unit = r: real | 0.0 <= r < 1.0

  const RETRY_GAPS_MS: seq<real> := [100.0, 400.0, 500.0, 1000.0]
  const MAX_SENDS: nat := 5
  const RETRY_JITTER: real := 0.25
  const RETRY_COALESCE: real := 25.0
  const SEQS_KEPT: nat := 16

  datatype Waiter = Waiter(id: RequestId, deadline: Time)

  /** One unresolved name. */
  datatype Pending = Pending(
    name: Name,
    order: nat,
    waiters: seq<Waiter>,
    sends: nat,
    nextSend: Option<Time>,
    seqs: seq<Number>)

  type Table = map<Cid, Pending>
  type Index = map<Name, Cid>

  /** A caller's reply channel: still open, dropped by the caller, or sent its one result. */
  datatype Reply = Open | Gone | Found(addr: Address) | TimedOut

  type Replies = map<RequestId, Reply>

  /** A decoded SEARCH_RESPONSE. */
  datatype Response = Response(found: bool, protocol: string, number: Number, cids: seq<Cid>, addr: Address)

  datatype Asked = Asked(name: Name, deadline: Time)

  /** How a request ended: when it timed out, or the response and the datagrams that had by then
      carried its name. */
  datatype Ending = Expired(at: Time) | Answered(name: Name, response: Response, cid: Cid, carried: seq<Number>)

  /** History: what was asked, how it ended, the datagrams that carried each entry, and per name
      the requests accepted and the datagrams sent. */
  datatype Log = Log(
    asked: map<RequestId, Asked>,
    ended: map<RequestId, Ending>,
    carried: map<Cid, seq<Number>>,
    made: map<Name, nat>,
    sent: map<Name, nat>)

  datatype State = State(
    pending: Table,
    byName: Index,
    nextCid: Cid,
    nextSeq: Number,
    nextOrder: nat,
    rng: nat,
    queue: seq<RequestId>,
    replies: Replies,
    log: Log)

  function Count(m: map<Name, nat>, n: Name): nat {
    if n in m then m[n] else 0
  }

  function More(m: map<Name, nat>, n: Name): map<Name, nat> {
    m[n := Count(m, n) + 1]
  }

  function Ids(ws: seq<Waiter>): set<RequestId> {
    set w | w in ws :: w.id
  }

  // ----- Requests -----

  predicate IsOpen(replies: Replies, id: RequestId) {
    id in replies && replies[id].Open?
  }

  function Cycle(from: Cid, k: nat): Cid {
    (from + k) % U32
  }

  /** The first cid at or after `from`, wrapping at 32 bits, that is not taken. */
  ghost predicate FirstFree(pending: Table, from: Cid, cid: Cid) {
    cid !in pending && exists k: nat :: cid == Cycle(from, k) && forall j: nat :: j < k ==> Cycle(from, j) in pending
  }

  /** A waiter joins a name already being searched, restarting a spent schedule. */
  function Join(p: Pending, w: Waiter, now: Time): Pending {
    if p.nextSend.None? then p.(waiters := p.waiters + [w], sends := 0, nextSend := Some(now))
    else p.(waiters := p.waiters + [w])
  }

  function AddKnown(s: State, id: RequestId, a: Asked, now: Time): State
    requires a.name in s.byName && s.byName[a.name] in s.pending
  {
    var cid := s.byName[a.name];
    s.(pending := s.pending[cid := Join(s.pending[cid], Waiter(id, a.deadline), now)],
       log := s.log.(made := More(s.log.made, a.name)))
  }

  function AddNew(s: State, id: RequestId, a: Asked, now: Time, cid: Cid): State {
    s.(pending := s.pending[cid := Pending(a.name, s.nextOrder, [Waiter(id, a.deadline)], 0, Some(now), [])],
       byName := s.byName[a.name := cid],
       nextCid := (cid + 1) % U32,
       nextOrder := s.nextOrder + 1,
       log := s.log.(made := More(s.log.made, a.name), carried := s.log.carried[cid := []]))
  }

  function Add(s: State, id: RequestId, a: Asked, now: Time, cid: Cid): State {
    if !IsOpen(s.replies, id) then s
    else if a.name in s.byName && s.byName[a.name] in s.pending then AddKnown(s, id, a, now)
    else AddNew(s, id, a, now, cid)
  }

  /** Take the oldest request off the channel. */
  function Take(s: State, now: Time, cid: Cid): State
    requires s.queue != [] && s.queue[0] in s.log.asked
  {
    Add(s.(queue := s.queue[1..]), s.queue[0], s.log.asked[s.queue[0]], now, cid)
  }

  // ----- Expiry -----

  /** The waiters still owed an answer: not dropped by their caller, not past their deadline. */
  function Kept(ws: seq<Waiter>, replies: Replies, now: Time): seq<Waiter>
    decreases |ws|
  {
    if ws == [] then []
    else
      var w := ws[|ws| - 1];
      var rest := Kept(ws[..|ws| - 1], replies, now);
      if IsOpen(replies, w.id) && w.deadline > now then rest + [w] else rest
  }

  /** The requests that time out now. */
  function Overdue(pending: Table, replies: Replies, now: Time): set<RequestId> {
    set c, w | c in pending && w in pending[c].waiters && IsOpen(replies, w.id) && w.deadline <= now :: w.id
  }

  function Settle(replies: Replies, ids: set<RequestId>, r: Reply): Replies {
    map id | id in replies :: if id in ids then r else replies[id]
  }

  function Close(ended: map<RequestId, Ending>, ids: set<RequestId>, e: Ending): map<RequestId, Ending> {
    ended + map id | id in ids :: e
  }

  /** The entries with waiters left, and the names of the others. */
  function Survivors(pending: Table, replies: Replies, now: Time): Table {
    map c | c in pending && Kept(pending[c].waiters, replies, now) != []
      :: pending[c].(waiters := Kept(pending[c].waiters, replies, now))
  }

  function Deserted(pending: Table, replies: Replies, now: Time): set<Name> {
    set c | c in pending && Kept(pending[c].waiters, replies, now) == [] :: pending[c].name
  }

  function Expire(s: State, now: Time): State {
    var overdue := Overdue(s.pending, s.replies, now);
    s.(pending := Survivors(s.pending, s.replies, now),
       byName := s.byName - Deserted(s.pending, s.replies, now),
       replies := Settle(s.replies, overdue, TimedOut),
       log := s.log.(ended := Close(s.log.ended, overdue, Expired(now))))
  }

  // ----- Retransmission -----

  function Jitter(ms: real, u: Unit): Time {
    ms * (1.0 + RETRY_JITTER * (2.0 * u - 1.0))
  }

  predicate DueBy(p: Pending, t: Time) {
    p.nextSend.Some? && p.nextSend.value <= t
  }

  /** The batch: every name due within the coalescing window, each once, oldest first. */
  ghost predicate IsBatch(pending: Table, now: Time, due: seq<Cid>) {
    && (forall c :: c in due <==> c in pending && DueBy(pending[c], now + RETRY_COALESCE))
    && (forall i, j :: 0 <= i < j < |due| && due[i] in pending && due[j] in pending ==>
          Before(pending[due[i]].order, due[i], pending[due[j]].order, due[j]))
  }

  predicate Before(order: nat, cid: Cid, order': nat, cid': Cid) {
    order < order' || (order == order' && cid < cid')
  }

  function SizesOfDue(pending: Table, due: seq<Cid>): seq<nat>
    requires forall i :: 0 <= i < |due| ==> due[i] in pending
  {
    seq(|due|, i requires 0 <= i < |due| => SearchEntryBytes(pending[due[i]].name))
  }

  /** Remember a datagram number, forgetting the oldest of a full list. */
  function Remember(seqs: seq<Number>, number: Number): seq<Number> {
    (if |seqs| == SEQS_KEPT then seqs[1..] else seqs) + [number]
  }

  /** One datagram carrying one entry. */
  function Carry(s: State, cid: Cid, number: Number): State
    requires cid in s.pending
  {
    var p := s.pending[cid];
    var carried := if cid in s.log.carried then s.log.carried[cid] else [];
    s.(pending := s.pending[cid := p.(seqs := Remember(p.seqs, number))],
       log := s.log.(carried := s.log.carried[cid := carried + [number]], sent := More(s.log.sent, p.name)))
  }

  function CarryAll(s: State, cids: seq<Cid>, number: Number): State
    requires forall i :: 0 <= i < |cids| ==> cids[i] in s.pending
    decreases |cids|
  {
    if cids == [] then s
    else CarryAll(Carry(s, cids[0], number), cids[1..], number)
  }

  /** One datagram per run, numbered in turn. */
  function SendRuns(s: State, due: seq<Cid>, runs: seq<Range>): (r: State)
    requires forall i :: 0 <= i < |due| ==> due[i] in s.pending
    requires forall i :: 0 <= i < |runs| ==> runs[i].start <= runs[i].end <= |due|
    decreases |runs|
  {
    if runs == [] then s
    else
      var cids := due[runs[0].start..runs[0].end];
      CarriedSamePending(s, cids, s.nextSeq);
      SendRuns(CarryAll(s, cids, s.nextSeq).(nextSeq := (s.nextSeq + 1) % U32), due, runs[1..])
  }

  lemma {:induction false} CarriedSamePending(s: State, cids: seq<Cid>, number: Number)
    requires forall i :: 0 <= i < |cids| ==> cids[i] in s.pending
    ensures CarryAll(s, cids, number).pending.Keys == s.pending.Keys
    decreases |cids|
  {
    if cids != [] {
      var s' := Carry(s, cids[0], number);
      assert s'.pending.Keys == s.pending.Keys;
      CarriedSamePending(s', cids[1..], number);
    }
  }

  /** After a send: count it, and set the next one, jittered, unless the schedule is spent. */
  function Rescheduled(p: Pending, now: Time, u: Unit): Pending {
    var next := if p.sends < |RETRY_GAPS_MS| then Some(now + Jitter(RETRY_GAPS_MS[p.sends], u)) else None;
    p.(sends := p.sends + 1, nextSend := next)
  }

  /** A jitter is drawn only for a next send. */
  function Reschedule(s: State, cid: Cid, now: Time, unit: nat -> Unit): State
    requires cid in s.pending
  {
    var p := s.pending[cid];
    s.(pending := s.pending[cid := Rescheduled(p, now, unit(s.rng))],
       rng := if p.sends < |RETRY_GAPS_MS| then s.rng + 1 else s.rng)
  }

  function RescheduleAll(s: State, due: seq<Cid>, now: Time, unit: nat -> Unit): State
    requires forall i :: 0 <= i < |due| ==> due[i] in s.pending
    decreases |due|
  {
    if due == [] then s
    else RescheduleAll(Reschedule(s, due[0], now, unit), due[1..], now, unit)
  }

  lemma {:induction false} SentSamePending(s: State, due: seq<Cid>, runs: seq<Range>)
    requires forall i :: 0 <= i < |due| ==> due[i] in s.pending
    requires forall i :: 0 <= i < |runs| ==> runs[i].start <= runs[i].end <= |due|
    ensures SendRuns(s, due, runs).pending.Keys == s.pending.Keys
    decreases |runs|
  {
    hide CarryAll;
    if runs != [] {
      var cids := due[runs[0].start..runs[0].end];
      CarriedSamePending(s, cids, s.nextSeq);
      SentSamePending(CarryAll(s, cids, s.nextSeq).(nextSeq := (s.nextSeq + 1) % U32), due, runs[1..]);
    }
  }

  predicate AnyDue(pending: Table, now: Time) {
    exists c :: c in pending && DueBy(pending[c], now)
  }

  /** The runs of the batch, packed for datagrams of at most `limit` bytes. */
  ghost predicate IsPacked(pending: Table, now: Time, due: seq<Cid>, runs: seq<Range>, limit: nat) {
    && IsBatch(pending, now, due)
    && limit >= SEARCH_FIXED_BYTES
    && Packs(runs, SizesOfDue(pending, due), limit - SEARCH_FIXED_BYTES, |due|)
  }

  lemma {:induction false} PackedInRange(runs: seq<Range>, sizes: seq<nat>, capacity: nat, i: nat)
    requires Packs(runs, sizes, capacity, |sizes|) && i < |runs|
    ensures runs[i].start <= runs[i].end <= |sizes|
  {
    assert RunAt(runs, i, sizes, capacity);
  }

  /** Nothing if nothing is due; otherwise the batch goes out and is rescheduled. */
  ghost function SendDue(s: State, now: Time, due: seq<Cid>, runs: seq<Range>, limit: nat, unit: nat -> Unit): State
    requires IsPacked(s.pending, now, due, runs, limit)
  {
    if !AnyDue(s.pending, now) then s
    else
      assert forall i :: 0 <= i < |runs| ==> runs[i].start <= runs[i].end <= |due| by {
        forall i | 0 <= i < |runs| ensures runs[i].start <= runs[i].end <= |due| {
          PackedInRange(runs, SizesOfDue(s.pending, due), limit - SEARCH_FIXED_BYTES, i);
        }
      }
      SentSamePending(s, due, runs);
      RescheduleAll(SendRuns(s, due, runs), due, now, unit)
  }

  // ----- Answers -----

  function Lower(c: char): char {
    if 'A' <= c <= 'Z' then c - 'A' + 'a' else c
  }

  predicate IsTcp(protocol: string) {
    |protocol| == 3 && Lower(protocol[0]) == 't' && Lower(protocol[1]) == 'c' && Lower(protocol[2]) == 'p'
  }

  /** A response that may answer: it found something, over TCP or an unnamed protocol. */
  predicate Positive(r: Response) {
    r.found && (r.protocol == "" || IsTcp(r.protocol))
  }

  /** The waiters a result still reaches. */
  function OpenIds(ws: seq<Waiter>, replies: Replies): set<RequestId> {
    set w | w in ws && IsOpen(replies, w.id) :: w.id
  }

  /** The entry is resolved: every waiter is answered. */
  function Resolved(s: State, cid: Cid, r: Response): State
    requires cid in s.pending
  {
    var p := s.pending[cid];
    var ids := OpenIds(p.waiters, s.replies);
    var carried := if cid in s.log.carried then s.log.carried[cid] else [];
    s.(pending := s.pending - {cid},
       byName := s.byName - {p.name},
       replies := Settle(s.replies, ids, Found(r.addr)),
       log := s.log.(ended := Close(s.log.ended, ids, Answered(p.name, r, cid, carried))))
  }

  /** A response answers for a cid only if it echoes a recent datagram that carried it. */
  function Answer(s: State, cid: Cid, r: Response): State {
    if cid in s.pending && r.number in s.pending[cid].seqs then Resolved(s, cid, r) else s
  }

  function AnswerAll(s: State, cids: seq<Cid>, r: Response): State
    decreases |cids|
  {
    if cids == [] then s else AnswerAll(Answer(s, cids[0], r), cids[1..], r)
  }

  /** A datagram that does not decode, or is not a positive response, changes nothing. */
  function OnPacket(s: State, packet: Option<Response>): State {
    if packet.Some? && Positive(packet.value) then AnswerAll(s, packet.value.cids, packet.value) else s
  }

  // ----- Waking -----

  /** An entry's next send and its waiters' deadlines are what the engine has to wake for. */
  ghost predicate Wakes(p: Pending, t: Time) {
    p.nextSend == Some(t) || exists w :: w in p.waiters && w.deadline == t
  }

  ghost predicate WakesAt(pending: Table, t: Time) {
    exists c :: c in pending && Wakes(pending[c], t)
  }
}
