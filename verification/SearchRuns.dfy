/** Whole runs of the search engine with its callers and the network. */
module SearchRuns {
  import opened Options
  import opened Encoding
  import opened Packing
  import opened SearchEngine
  import opened SearchSafety

  /** A caller asks or goes away; the engine takes a request, expires, sends what is due in the
      given packed batch, or receives a datagram. Any order, at any times. */
  datatype Action =
    | Asks(id: RequestId, asked: Asked)
    | Leaves(id: RequestId)
    | Takes(now: Time, cid: Cid)
    | Expires(now: Time)
    | Sends(now: Time, due: seq<Cid>, runs: seq<Range>)
    | Receives(packet: Option<Response>)

  ghost predicate Enabled(s: State, a: Action, limit: nat) {
    match a
    case Asks(id, _) => id !in s.log.asked
    case Leaves(id) => IsOpen(s.replies, id)
    case Takes(_, cid) => CidOk(s, cid)
    case Expires(_) => true
    case Sends(now, due, runs) => IsPacked(s.pending, now, due, runs, limit)
    case Receives(_) => true
  }

  ghost function Apply(s: State, a: Action, limit: nat, unit: nat -> Unit): State
    requires Enabled(s, a, limit)
  {
    match a
    case Asks(id, asked) => Ask(s, id, asked)
    case Leaves(id) => Abandon(s, id)
    case Takes(now, cid) => Take(s, now, cid)
    case Expires(now) => Expire(s, now)
    case Sends(now, due, runs) => SendDue(s, now, due, runs, limit, unit)
    case Receives(packet) => OnPacket(s, packet)
  }

  /** The state after a run, unless some step of it cannot be taken. */
  ghost function Run(s: State, actions: seq<Action>, limit: nat, unit: nat -> Unit): Option<State>
    decreases |actions|
  {
    if actions == [] then Some(s)
    else if !Enabled(s, actions[0], limit) then None
    else Run(Apply(s, actions[0], limit, unit), actions[1..], limit, unit)
  }

  /** A new engine, with whatever starting cid and sequence number. */
  function Start(cid: Cid, number: Number): State {
    State(map[], map[], cid, number, 0, 0, [], map[], Log(map[], map[], map[], map[], map[]))
  }

  lemma {:induction false} StepKeeps(s: State, a: Action, limit: nat, unit: nat -> Unit)
    requires Inv(s) && Enabled(s, a, limit)
    ensures Inv(Apply(s, a, limit, unit))
  {
    hide Inv, Ask, Abandon, Take, Expire, SendDue, IsPacked, Positive, AnswerAll;
    if a.Asks? {
      AskKeeps(s, a.id, a.asked);
    } else if a.Leaves? {
      AbandonKeeps(s, a.id);
    } else if a.Takes? {
      TakeKeeps(s, a.now, a.cid);
    } else if a.Expires? {
      ExpireKeeps(s, a.now);
    } else if a.Sends? {
      SendKeeps(s, a.now, a.due, a.runs, limit, unit);
    } else if a.packet.Some? && Positive(a.packet.value) {
      AnswersKeep(s, a.packet.value.cids, a.packet.value);
    }
  }

  lemma {:induction false} RunKeeps(s: State, actions: seq<Action>, limit: nat, unit: nat -> Unit)
    requires Inv(s) && Run(s, actions, limit, unit).Some?
    ensures Inv(Run(s, actions, limit, unit).value)
    decreases |actions|
  {
    hide Inv, Enabled, Apply;
    if actions != [] {
      StepKeeps(s, actions[0], limit, unit);
      RunKeeps(Apply(s, actions[0], limit, unit), actions[1..], limit, unit);
    }
  }

  /** The request is owed an answer and is in exactly one place: on the channel, or waiting once
      in the entry of the name it asked for. */
  ghost predicate WaitsOnce(s: State, id: RequestId) {
    && id in s.log.asked
    && (id in s.queue <==> !Waits(s.pending, s.byName, s.log.asked[id].name, id))
    && forall c :: c in s.pending && id in Ids(s.pending[c].waiters) ==> s.pending[c].name == s.log.asked[id].name
  }

  lemma {:induction false} OpenWaitsOnce(s: State, id: RequestId)
    requires Inv(s) && IsOpen(s.replies, id)
    ensures WaitsOnce(s, id)
  {
    forall c | c in s.pending && id in Ids(s.pending[c].waiters) ensures s.pending[c].name == s.log.asked[id].name {
      assert Placed(s.pending[c], s.replies, s.log.asked);
    }
    hide Placed, EndedOk, Counts, Inverse, Ids;
  }

  /** In every state any run reaches: the index is the inverse of the table; every request asked
      is still waiting in one place, was abandoned, timed out at or after its deadline, or was
      answered by a positive response echoing its entry's cid and one of the last sixteen
      datagrams that carried it; no entry has more than five sends, and it is scheduled exactly
      while it has fewer; and at most five datagrams per request have carried a name. */
  lemma {:induction false} EngineIsSound(cid: Cid, number: Number, actions: seq<Action>, limit: nat, unit: nat -> Unit)
    requires Run(Start(cid, number), actions, limit, unit).Some?
    ensures var s := Run(Start(cid, number), actions, limit, unit).value;
            && (forall c :: c in s.pending ==> s.pending[c].name in s.byName && s.byName[s.pending[c].name] == c)
            && (forall n :: n in s.byName ==> s.byName[n] in s.pending && s.pending[s.byName[n]].name == n)
            && (forall id :: id in s.log.asked ==> id in s.replies && RequestOk(s, id))
            && (forall c :: c in s.pending ==>
                  s.pending[c].sends <= MAX_SENDS && (s.pending[c].nextSend.None? <==> s.pending[c].sends == MAX_SENDS))
            && (forall n :: Count(s.log.sent, n) <= MAX_SENDS * Count(s.log.made, n))
  {
    var s0 := Start(cid, number);
    assert Inv(s0);
    RunKeeps(s0, actions, limit, unit);
    var s := Run(s0, actions, limit, unit).value;
    hide Run;
    Summary(s);
  }

  ghost predicate RequestOk(s: State, id: RequestId)
    requires id in s.log.asked && id in s.replies
  {
    match s.replies[id]
    case Open => WaitsOnce(s, id)
    case Gone => true
    case TimedOut => id in s.log.ended && s.log.ended[id].Expired? && s.log.asked[id].deadline <= s.log.ended[id].at
    case Found(addr) =>
      && id in s.log.ended && s.log.ended[id].Answered?
      && var e := s.log.ended[id];
         && e.name == s.log.asked[id].name && e.response.addr == addr
         && e.response.found && (e.response.protocol == "" || IsTcp(e.response.protocol))
         && e.cid in e.response.cids
         && exists i :: 0 <= i < |e.carried| && i + SEQS_KEPT >= |e.carried| && e.carried[i] == e.response.number
  }

  lemma {:induction false} EndedRequest(s: State, id: RequestId)
    requires EndedOk(s.replies, s.log.asked, s.log.ended) && id in s.replies && !Unanswered(s.replies, id)
    ensures id in s.log.asked && RequestOk(s, id)
  {
    var e := s.log.ended[id];
    assert EndingOk(s.replies[id], s.log.asked[id], e);
    if s.replies[id].Found? {
      var k :| 0 <= k < |Recent(e.carried)| && Recent(e.carried)[k] == e.response.number;
      assert e.carried[|e.carried| - |Recent(e.carried)| + k] == e.response.number;
    }
  }

  lemma {:induction false} Summary(s: State)
    requires Inv(s)
    ensures Inverse(s.pending, s.byName) && Scheduled(s.pending)
    ensures forall id :: id in s.log.asked ==> id in s.replies && RequestOk(s, id)
    ensures forall n :: Count(s.log.sent, n) <= MAX_SENDS * Count(s.log.made, n)
  {
    forall id | id in s.log.asked ensures id in s.replies && RequestOk(s, id) {
      hide Tables, Counts, EndingOk, WaitsOnce;
      assert id in s.log.asked.Keys;
      if IsOpen(s.replies, id) {
        OpenWaitsOnce(s, id);
      } else if !Unanswered(s.replies, id) {
        EndedRequest(s, id);
      }
    }
    forall n ensures Count(s.log.sent, n) <= MAX_SENDS * Count(s.log.made, n) {
      hide Tables, EndedOk, SeqsOk, Count;
      assert Count(s.log.sent, n) + MAX_SENDS <= MAX_SENDS * Count(s.log.made, n) + Spent(s.pending, s.byName, {}, n);
    }
    hide EndedOk, RequestOk;
  }

  // ----- Answered once -----

  /** A request that has ended, one way or another, keeps its end. */
  ghost predicate Final(before: Replies, after: Replies) {
    forall id :: id in before && !before[id].Open? ==> id in after && after[id] == before[id]
  }

  lemma {:induction false} AnswersFinal(s: State, cids: seq<Cid>, r: Response)
    ensures Final(s.replies, AnswerAll(s, cids, r).replies)
    decreases |cids|
  {
    if cids != [] {
      var s' := Answer(s, cids[0], r);
      assert Final(s.replies, s'.replies);
      hide Answer;
      AnswersFinal(s', cids[1..], r);
    }
  }

  lemma {:induction false} CarriesFinal(s: State, cids: seq<Cid>, number: Number)
    requires forall i :: 0 <= i < |cids| ==> cids[i] in s.pending
    ensures CarryAll(s, cids, number).replies == s.replies
    decreases |cids|
  {
    if cids != [] {
      CarriesFinal(Carry(s, cids[0], number), cids[1..], number);
    }
  }

  lemma {:induction false} SendRunsFinal(s: State, due: seq<Cid>, runs: seq<Range>)
    requires forall i :: 0 <= i < |due| ==> due[i] in s.pending
    requires forall i :: 0 <= i < |runs| ==> runs[i].start <= runs[i].end <= |due|
    ensures SendRuns(s, due, runs).replies == s.replies
    decreases |runs|
  {
    hide CarryAll;
    if runs != [] {
      var cids := due[runs[0].start..runs[0].end];
      CarriedSamePending(s, cids, s.nextSeq);
      CarriesFinal(s, cids, s.nextSeq);
      SendRunsFinal(CarryAll(s, cids, s.nextSeq).(nextSeq := (s.nextSeq + 1) % U32), due, runs[1..]);
    }
  }

  lemma {:induction false} RescheduleAllFinal(s: State, due: seq<Cid>, now: Time, unit: nat -> Unit)
    requires forall i :: 0 <= i < |due| ==> due[i] in s.pending
    ensures RescheduleAll(s, due, now, unit).replies == s.replies
    decreases |due|
  {
    if due != [] {
      hide Rescheduled;
      RescheduleAllFinal(Reschedule(s, due[0], now, unit), due[1..], now, unit);
    }
  }

  lemma {:induction false} SendFinal(s: State, now: Time, due: seq<Cid>, runs: seq<Range>, limit: nat,
                                     unit: nat -> Unit)
    requires IsPacked(s.pending, now, due, runs, limit)
    ensures SendDue(s, now, due, runs, limit, unit).replies == s.replies
  {
    BatchIsDistinct(s.pending, now, due);
    PackedTiles(s.pending, now, due, runs, limit);
    hide *;
    SendDueIs(s, now, due, runs, limit, unit);
    if AnyDue(s.pending, now) {
      SendRunsFinal(s, due, runs);
      RescheduleAllFinal(SendRuns(s, due, runs), due, now, unit);
    }
  }

  lemma {:induction false} StepFinal(s: State, a: Action, limit: nat, unit: nat -> Unit)
    requires Inv(s) && Enabled(s, a, limit)
    ensures Final(s.replies, Apply(s, a, limit, unit).replies)
  {
    if a.Sends? {
      SendFinal(s, a.now, a.due, a.runs, limit, unit);
    } else if a.Receives? {
      hide Inv, AnswerAll, Positive;
      if a.packet.Some? {
        AnswersFinal(s, a.packet.value.cids, a.packet.value);
      }
    } else {
      assert s.replies.Keys == s.log.asked.Keys;
      hide Inv, SearchEngine.Kept, IsPacked;
    }
  }

  /** Over any run, no request that was answered, timed out or abandoned is ever sent anything
      else. */
  lemma {:induction false} EachEndsOnce(s: State, actions: seq<Action>, limit: nat, unit: nat -> Unit)
    requires Inv(s) && Run(s, actions, limit, unit).Some?
    ensures Final(s.replies, Run(s, actions, limit, unit).value.replies)
    decreases |actions|
  {
    hide Inv, Enabled, Apply;
    if actions != [] {
      StepKeeps(s, actions[0], limit, unit);
      StepFinal(s, actions[0], limit, unit);
      EachEndsOnce(Apply(s, actions[0], limit, unit), actions[1..], limit, unit);
    }
  }

  // ----- The loop cannot spin -----

  lemma {:induction false} JitterBounds(i: nat, u: Unit)
    requires i < |RETRY_GAPS_MS|
    ensures RETRY_GAPS_MS[i] * 0.75 <= Jitter(RETRY_GAPS_MS[i], u) <= RETRY_GAPS_MS[i] * 1.25
    ensures Jitter(RETRY_GAPS_MS[i], u) > 0.0
  {
  }

  ghost predicate Patient(p: Pending, now: Time) {
    forall w :: w in p.waiters ==> w.deadline > now
  }

  /** The entry has nothing to be woken for at or before `now`. */
  ghost predicate Later(p: Pending, now: Time) {
    Patient(p, now) && (p.nextSend.Some? ==> p.nextSend.value > now)
  }

  lemma {:induction false} ExpirePatient(s: State, now: Time, c: Cid)
    requires c in Expire(s, now).pending
    ensures Patient(Expire(s, now).pending[c], now)
  {
    KeptIs(s.pending[c].waiters, s.replies, now);
    hide SearchEngine.Kept;
  }

  lemma {:induction false} RescheduledLater(p: Pending, now: Time, u: Unit)
    requires Patient(p, now)
    ensures Later(Rescheduled(p, now, u), now)
  {
    if p.sends < |RETRY_GAPS_MS| {
      JitterBounds(p.sends, u);
    }
  }

  /** Rescheduling touches only the batch, and leaves it with nothing due. */
  lemma {:induction false} RescheduleAllLater(s: State, due: seq<Cid>, now: Time, unit: nat -> Unit)
    requires forall i :: 0 <= i < |due| ==> due[i] in s.pending
    requires forall c :: c in s.pending ==> Patient(s.pending[c], now) && (c in due || Later(s.pending[c], now))
    ensures RescheduleAll(s, due, now, unit).pending.Keys == s.pending.Keys
    ensures forall c :: c in s.pending ==> Later(RescheduleAll(s, due, now, unit).pending[c], now)
    decreases |due|
  {
    if due != [] {
      RescheduledLater(s.pending[due[0]], now, unit(s.rng));
      hide Rescheduled;
      var s' := Reschedule(s, due[0], now, unit);
      assert s'.pending.Keys == s.pending.Keys;
      RescheduleAllLater(s', due[1..], now, unit);
    }
  }

  lemma {:induction false} CarriesSchedule(s: State, cids: seq<Cid>, number: Number)
    requires forall i :: 0 <= i < |cids| ==> cids[i] in s.pending
    ensures Unhurried(s.pending, CarryAll(s, cids, number).pending)
    decreases |cids|
  {
    if cids != [] {
      CarriesSchedule(Carry(s, cids[0], number), cids[1..], number);
    }
  }

  /** Carrying a name changes neither its waiters nor its schedule. */
  ghost predicate Unhurried(pending: Table, pending': Table) {
    pending'.Keys == pending.Keys
    && forall c :: c in pending ==>
        pending'[c].waiters == pending[c].waiters && pending'[c].nextSend == pending[c].nextSend
  }

  lemma {:induction false} SendRunsSchedule(s: State, due: seq<Cid>, runs: seq<Range>)
    requires forall i :: 0 <= i < |due| ==> due[i] in s.pending
    requires forall i :: 0 <= i < |runs| ==> runs[i].start <= runs[i].end <= |due|
    ensures Unhurried(s.pending, SendRuns(s, due, runs).pending)
    decreases |runs|
  {
    hide CarryAll;
    if runs != [] {
      var cids := due[runs[0].start..runs[0].end];
      CarriesSchedule(s, cids, s.nextSeq);
      SendRunsSchedule(CarryAll(s, cids, s.nextSeq).(nextSeq := (s.nextSeq + 1) % U32), due, runs[1..]);
    }
  }

  /** After expiring and sending at `now`, the next wake is strictly later. */
  lemma {:induction false} NextWakeIsLater(s: State, now: Time, due: seq<Cid>, runs: seq<Range>, limit: nat,
                                           unit: nat -> Unit, t: Time)
    requires IsPacked(Expire(s, now).pending, now, due, runs, limit)
    requires WakesAt(SendDue(Expire(s, now), now, due, runs, limit, unit).pending, t)
    ensures t > now
  {
    ExpiredPatient(s, now);
    hide Expire, SendDue;
    NothingLeftDue(Expire(s, now), now, due, runs, limit, unit);
  }

  lemma {:induction false} ExpiredPatient(s: State, now: Time)
    ensures forall c :: c in Expire(s, now).pending ==> Patient(Expire(s, now).pending[c], now)
  {
    hide Patient, Expire;
    forall c | c in Expire(s, now).pending ensures Patient(Expire(s, now).pending[c], now) {
      ExpirePatient(s, now, c);
    }
  }

  lemma {:induction false} QuietLater(pending: Table, now: Time)
    requires !AnyDue(pending, now) && forall c :: c in pending ==> Patient(pending[c], now)
    ensures forall c :: c in pending ==> Later(pending[c], now)
  {
  }

  lemma {:induction false} LaterWakes(pending: Table, now: Time)
    requires forall c :: c in pending ==> Later(pending[c], now)
    ensures forall t :: WakesAt(pending, t) ==> t > now
  {
  }

  lemma {:induction false} NothingLeftDue(e: State, now: Time, due: seq<Cid>, runs: seq<Range>, limit: nat,
                                          unit: nat -> Unit)
    requires IsPacked(e.pending, now, due, runs, limit)
    requires forall c :: c in e.pending ==> Patient(e.pending[c], now)
    ensures var s := SendDue(e, now, due, runs, limit, unit); forall c :: c in s.pending ==> Later(s.pending[c], now)
  {
    BatchIsDistinct(e.pending, now, due);
    PackedTiles(e.pending, now, due, runs, limit);
    assert forall c :: c in e.pending && c !in due ==> Later(e.pending[c], now);
    SendDueIs(e, now, due, runs, limit, unit);
    hide IsPacked, SendDue, RescheduleAll, SendRuns;
    if AnyDue(e.pending, now) {
      SendRunsSchedule(e, due, runs);
      RescheduleAllLater(SendRuns(e, due, runs), due, now, unit);
    }
  }
}
