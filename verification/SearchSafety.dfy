/** What every run of the search engine keeps. */
module SearchSafety {
  import opened Options
  import opened Encoding
  import opened Packing
  import opened SearchEngine

  // ----- The invariant -----

  /** The name index is the exact inverse of the table. */
  ghost predicate Inverse(pending: Table, byName: Index) {
    && (forall c :: c in pending ==> pending[c].name in byName && byName[pending[c].name] == c)
    && (forall n :: n in byName ==> byName[n] in pending && pending[byName[n]].name == n)
  }

  ghost predicate Unanswered(replies: Replies, id: RequestId) {
    id in replies && (replies[id].Open? || replies[id].Gone?)
  }

  /** Every waiter of an entry asked for its name, once, and has had no answer. */
  ghost predicate Placed(p: Pending, replies: Replies, asked: map<RequestId, Asked>) {
    && (forall w :: w in p.waiters ==>
        w.id in asked && asked[w.id] == Asked(p.name, w.deadline) && Unanswered(replies, w.id))
    && Apart(p.waiters)
  }

  ghost predicate Apart(ws: seq<Waiter>) {
    forall i, j :: 0 <= i < j < |ws| ==> ws[i].id != ws[j].id
  }

  ghost predicate AllPlaced(pending: Table, replies: Replies, asked: map<RequestId, Asked>) {
    forall c :: c in pending ==> Placed(pending[c], replies, asked)
  }

  /** The request waits in the entry of its name. */
  ghost predicate Waits(pending: Table, byName: Index, name: Name, id: RequestId) {
    name in byName && byName[name] in pending && id in Ids(pending[byName[name]].waiters)
  }

  ghost predicate NoRepeats(queue: seq<RequestId>) {
    forall i, j :: 0 <= i < j < |queue| ==> queue[i] != queue[j]
  }

  /** Queued requests are distinct, unanswered and not yet in the table. */
  ghost predicate QueueOk(queue: seq<RequestId>, pending: Table, replies: Replies, asked: map<RequestId, Asked>) {
    && NoRepeats(queue)
    && (forall id :: id in queue ==> id in asked && Unanswered(replies, id))
    && (forall c, id :: c in pending && id in queue ==> id !in Ids(pending[c].waiters))
  }

  /** Nothing is lost: an open request is queued or waits in the table. */
  ghost predicate OpenOk(queue: seq<RequestId>, pending: Table, byName: Index, replies: Replies,
                         asked: map<RequestId, Asked>) {
    forall id :: IsOpen(replies, id) ==> id in asked && (id in queue || Waits(pending, byName, asked[id].name, id))
  }

  ghost predicate Tables(queue: seq<RequestId>, pending: Table, byName: Index, replies: Replies,
                         asked: map<RequestId, Asked>) {
    && Inverse(pending, byName)
    && AllPlaced(pending, replies, asked)
    && QueueOk(queue, pending, replies, asked)
    && OpenOk(queue, pending, byName, replies, asked)
  }

  /** The last datagrams, as many as an entry remembers. */
  function Recent(carried: seq<Number>): seq<Number> {
    if |carried| <= SEQS_KEPT then carried else carried[|carried| - SEQS_KEPT..]
  }

  /** The result a caller got is one it was due. */
  ghost predicate EndingOk(r: Reply, a: Asked, e: Ending) {
    match r
    case TimedOut => e.Expired? && a.deadline <= e.at
    case Found(addr) =>
      && e.Answered? && e.name == a.name && addr == e.response.addr
      && Positive(e.response) && e.cid in e.response.cids && e.response.number in Recent(e.carried)
    case _ => true
  }

  ghost predicate EndedOk(replies: Replies, asked: map<RequestId, Asked>, ended: map<RequestId, Ending>) {
    && replies.Keys == asked.Keys
    && forall id :: id in replies && !Unanswered(replies, id) ==>
        id in ended && EndingOk(replies[id], asked[id], ended[id])
  }

  ghost predicate SeqsOk(pending: Table, carried: map<Cid, seq<Number>>) {
    forall c :: c in pending ==> c in carried && pending[c].seqs == Recent(carried[c])
  }

  ghost predicate ScheduleOk(p: Pending) {
    p.sends <= MAX_SENDS && (p.nextSend.None? <==> p.sends == MAX_SENDS)
  }

  ghost predicate Scheduled(pending: Table) {
    forall c :: c in pending ==> ScheduleOk(pending[c])
  }

  /** Sends used up of the current request: all of them when the name is not pending. The entries
      in `ahead` have been sent but not yet counted. */
  ghost function Spent(pending: Table, byName: Index, ahead: set<Cid>, n: Name): nat {
    if n in byName && byName[n] in pending then
      pending[byName[n]].sends + if byName[n] in ahead then 1 else 0
    else MAX_SENDS
  }

  /** At most five datagrams have carried a name per request accepted for it. */
  ghost predicate Budget(pending: Table, byName: Index, made: map<Name, nat>, sent: map<Name, nat>, ahead: set<Cid>) {
    forall n :: Count(sent, n) + MAX_SENDS <= MAX_SENDS * Count(made, n) + Spent(pending, byName, ahead, n)
  }

  ghost predicate Counts(pending: Table, byName: Index, carried: map<Cid, seq<Number>>,
                         made: map<Name, nat>, sent: map<Name, nat>, ahead: set<Cid>)
  {
    SeqsOk(pending, carried) && Scheduled(pending) && Budget(pending, byName, made, sent, ahead)
  }

  ghost predicate Inv(s: State) {
    && Tables(s.queue, s.pending, s.byName, s.replies, s.log.asked)
    && EndedOk(s.replies, s.log.asked, s.log.ended)
    && Counts(s.pending, s.byName, s.log.carried, s.log.made, s.log.sent, {})
  }

  /** In the middle of a send, with the entries in `ahead` sent but not yet counted. */
  ghost predicate Sending(s: State, ahead: set<Cid>) {
    && Tables(s.queue, s.pending, s.byName, s.replies, s.log.asked)
    && EndedOk(s.replies, s.log.asked, s.log.ended)
    && Counts(s.pending, s.byName, s.log.carried, s.log.made, s.log.sent, ahead)
  }

  // ----- Requests -----

  lemma {:induction false} JoinPlaced(p: Pending, w: Waiter, now: Time, replies: Replies, asked: map<RequestId, Asked>)
    requires Placed(p, replies, asked) && Unanswered(replies, w.id) && w.id !in Ids(p.waiters)
    requires w.id in asked && asked[w.id] == Asked(p.name, w.deadline)
    ensures Placed(Join(p, w, now), replies, asked)
    ensures Join(p, w, now).name == p.name && Ids(Join(p, w, now).waiters) == Ids(p.waiters) + {w.id}
  {
    var ws := p.waiters;
    assert forall v :: v in ws ==> v.id in Ids(ws);
    assert forall v :: v in ws + [w] <==> v in ws || v == w;
    assert w in ws + [w];
  }

  lemma {:induction false} Pop(queue: seq<RequestId>)
    requires NoRepeats(queue) && queue != []
    ensures NoRepeats(queue[1..])
    ensures forall id :: id in queue <==> id == queue[0] || id in queue[1..]
    ensures queue[0] !in queue[1..]
  {
  }

  /** The request at the head of the queue moves into the entry of its name. */
  lemma {:induction false} GrowTables(queue: seq<RequestId>, pending: Table, byName: Index, replies: Replies,
                                      asked: map<RequestId, Asked>, c: Cid, p: Pending)
    requires Tables(queue, pending, byName, replies, asked) && queue != [] && c in pending
    requires p.name == pending[c].name == asked[queue[0]].name && Placed(p, replies, asked)
    requires Ids(p.waiters) == Ids(pending[c].waiters) + {queue[0]}
    ensures Tables(queue[1..], pending[c := p], byName, replies, asked)
  {
    Pop(queue);
    hide Placed, Ids, Unanswered, NoRepeats;
  }

  /** The request at the head of the queue gets an entry of its own. */
  lemma {:induction false} StartTables(queue: seq<RequestId>, pending: Table, byName: Index, replies: Replies,
                                       asked: map<RequestId, Asked>, c: Cid, p: Pending)
    requires Tables(queue, pending, byName, replies, asked) && queue != [] && c !in pending
    requires p.name == asked[queue[0]].name && p.name !in byName && Placed(p, replies, asked)
    requires Ids(p.waiters) == {queue[0]}
    ensures Tables(queue[1..], pending[c := p], byName[p.name := c], replies, asked)
  {
    Pop(queue);
    hide Placed, Ids, Unanswered, NoRepeats;
  }

  /** A request whose caller has gone is dropped. */
  lemma {:induction false} DropTables(queue: seq<RequestId>, pending: Table, byName: Index, replies: Replies,
                                      asked: map<RequestId, Asked>)
    requires Tables(queue, pending, byName, replies, asked) && queue != [] && !IsOpen(replies, queue[0])
    ensures Tables(queue[1..], pending, byName, replies, asked)
  {
    Pop(queue);
    hide Placed, Ids, Unanswered, NoRepeats, IsOpen;
  }

  /** A new entry, if the next request needs one, gets a cid that is not taken. */
  ghost predicate CidOk(s: State, cid: Cid) {
    && s.queue != [] && s.queue[0] in s.log.asked
    && (IsOpen(s.replies, s.queue[0]) && s.log.asked[s.queue[0]].name !in s.byName ==> cid !in s.pending)
  }

  lemma {:induction false} TakeTables(s: State, now: Time, cid: Cid)
    requires Tables(s.queue, s.pending, s.byName, s.replies, s.log.asked) && CidOk(s, cid)
    ensures var s' := Take(s, now, cid); Tables(s'.queue, s'.pending, s'.byName, s'.replies, s'.log.asked)
  {
    var id := s.queue[0];
    assert id in s.queue && id in s.log.asked && Unanswered(s.replies, id);
    var a := s.log.asked[id];
    if !IsOpen(s.replies, id) {
      DropTables(s.queue, s.pending, s.byName, s.replies, s.log.asked);
    } else if a.name in s.byName {
      var c := s.byName[a.name];
      assert c in s.pending && s.pending[c].name == a.name && Placed(s.pending[c], s.replies, s.log.asked);
      assert id !in Ids(s.pending[c].waiters);
      hide Tables, Placed, Ids, Unanswered, Join;
      JoinPlaced(s.pending[c], Waiter(id, a.deadline), now, s.replies, s.log.asked);
      GrowTables(s.queue, s.pending, s.byName, s.replies, s.log.asked, c,
                 Join(s.pending[c], Waiter(id, a.deadline), now));
    } else {
      var p := Pending(a.name, s.nextOrder, [Waiter(id, a.deadline)], 0, Some(now), []);
      assert Ids(p.waiters) == {id} by {
        assert Waiter(id, a.deadline) in p.waiters;
      }
      assert Placed(p, s.replies, s.log.asked);
      hide Tables, Placed, Ids, Unanswered;
      StartTables(s.queue, s.pending, s.byName, s.replies, s.log.asked, cid, p);
    }
  }

  lemma {:induction false} OneMore(m: map<Name, nat>, a: Name)
    ensures forall n :: Count(More(m, a), n) == Count(m, n) + if n == a then 1 else 0
  {
  }

  /** A request accepted for a pending name: its budget grows by a full schedule, of which a
      restart takes as much. */
  lemma {:induction false} JoinBudget(pending: Table, byName: Index, made: map<Name, nat>, sent: map<Name, nat>, c: Cid,
                                      p: Pending)
    requires Inverse(pending, byName) && Budget(pending, byName, made, sent, {}) && c in pending
    requires p.name == pending[c].name && (p.sends == pending[c].sends || pending[c].sends <= MAX_SENDS)
    ensures Budget(pending[c := p], byName, More(made, p.name), sent, {})
  {
    OneMore(made, p.name);
    hide Count, More;
    forall n
      ensures Count(sent, n) + MAX_SENDS <= MAX_SENDS * Count(More(made, p.name), n)
              + Spent(pending[c := p], byName, {}, n)
    {
      assert Count(sent, n) + MAX_SENDS <= MAX_SENDS * Count(made, n) + Spent(pending, byName, {}, n);
    }
  }

  lemma {:induction false} StartBudget(pending: Table, byName: Index, made: map<Name, nat>, sent: map<Name, nat>,
                                       c: Cid, p: Pending)
    requires Inverse(pending, byName) && Budget(pending, byName, made, sent, {}) && c !in pending && p.name !in byName
    ensures Budget(pending[c := p], byName[p.name := c], More(made, p.name), sent, {})
  {
    OneMore(made, p.name);
    hide Count, More;
    forall n
      ensures Count(sent, n) + MAX_SENDS <= MAX_SENDS * Count(More(made, p.name), n)
              + Spent(pending[c := p], byName[p.name := c], {}, n)
    {
      assert Count(sent, n) + MAX_SENDS <= MAX_SENDS * Count(made, n) + Spent(pending, byName, {}, n);
    }
  }

  lemma {:induction false} AddCounts(s: State, id: RequestId, a: Asked, now: Time, cid: Cid)
    requires Inverse(s.pending, s.byName) && Counts(s.pending, s.byName, s.log.carried, s.log.made, s.log.sent, {})
    ensures a.name in s.byName ==>
              var s' := AddKnown(s, id, a, now);
              Counts(s'.pending, s'.byName, s'.log.carried, s'.log.made, s'.log.sent, {})
    ensures a.name !in s.byName && cid !in s.pending ==>
              var s' := AddNew(s, id, a, now, cid);
              Counts(s'.pending, s'.byName, s'.log.carried, s'.log.made, s'.log.sent, {})
  {
    if a.name in s.byName {
      var c := s.byName[a.name];
      assert c in s.pending && s.pending[c].name == a.name && ScheduleOk(s.pending[c]);
      hide Budget, Inverse, More, Recent;
      JoinBudget(s.pending, s.byName, s.log.made, s.log.sent, c, Join(s.pending[c], Waiter(id, a.deadline), now));
    } else if cid !in s.pending {
      hide Budget, Inverse, More;
      var p := Pending(a.name, s.nextOrder, [Waiter(id, a.deadline)], 0, Some(now), []);
      StartBudget(s.pending, s.byName, s.log.made, s.log.sent, cid, p);
    }
  }

  lemma {:induction false} TakeKeeps(s: State, now: Time, cid: Cid)
    requires Inv(s) && CidOk(s, cid)
    ensures Inv(Take(s, now, cid))
  {
    TakeTables(s, now, cid);
    assert Inverse(s.pending, s.byName);
    assert forall n :: n in s.byName ==> s.byName[n] in s.pending;
    hide Tables, EndedOk, Counts, Inverse, More, Join;
    AddCounts(s.(queue := s.queue[1..]), s.queue[0], s.log.asked[s.queue[0]], now, cid);
  }

  /** A caller asks; the request waits on the channel. */
  function Ask(s: State, id: RequestId, a: Asked): State {
    s.(queue := s.queue + [id], replies := s.replies[id := Open], log := s.log.(asked := s.log.asked[id := a]))
  }

  /** A caller drops its end of the reply channel. */
  function Abandon(s: State, id: RequestId): State {
    s.(replies := s.replies[id := Gone])
  }

  lemma {:induction false} PlacedStill(pending: Table, replies: Replies, asked: map<RequestId, Asked>,
                                       replies': Replies, asked': map<RequestId, Asked>)
    requires AllPlaced(pending, replies, asked)
    requires forall id :: id in asked ==> id in asked' && asked'[id] == asked[id]
    requires forall id :: id in asked && Unanswered(replies, id) ==> Unanswered(replies', id)
    ensures AllPlaced(pending, replies', asked')
  {
    forall c | c in pending ensures Placed(pending[c], replies', asked') {
      assert Placed(pending[c], replies, asked);
    }
  }

  lemma {:induction false} AskTables(queue: seq<RequestId>, pending: Table, byName: Index, replies: Replies,
                                     asked: map<RequestId, Asked>, id: RequestId, a: Asked)
    requires Tables(queue, pending, byName, replies, asked) && id !in asked
    ensures Tables(queue + [id], pending, byName, replies[id := Open], asked[id := a])
  {
    PlacedStill(pending, replies, asked, replies[id := Open], asked[id := a]);
    forall c | c in pending ensures id !in Ids(pending[c].waiters) {
      assert Placed(pending[c], replies, asked);
    }
    hide Placed, AllPlaced, Ids, Inverse;
    assert forall i :: i in queue + [id] <==> i in queue || i == id;
  }

  lemma {:induction false} AskKeeps(s: State, id: RequestId, a: Asked)
    requires Inv(s) && id !in s.log.asked
    ensures Inv(Ask(s, id, a))
  {
    hide Tables, Counts, EndingOk;
    AskTables(s.queue, s.pending, s.byName, s.replies, s.log.asked, id, a);
  }

  lemma {:induction false} AbandonKeeps(s: State, id: RequestId)
    requires Inv(s) && IsOpen(s.replies, id)
    ensures Inv(Abandon(s, id))
  {
    var s' := Abandon(s, id);
    PlacedStill(s.pending, s.replies, s.log.asked, s'.replies, s'.log.asked);
    assert EndedOk(s'.replies, s'.log.asked, s'.log.ended) by {
      hide Tables, Counts, EndingOk;
    }
    hide Placed, AllPlaced, Ids, Inverse, Counts, EndedOk, NoRepeats;
  }

  // ----- Expiry -----

  lemma {:induction false} KeptIs(ws: seq<Waiter>, replies: Replies, now: Time)
    ensures forall w :: w in Kept(ws, replies, now) <==> w in ws && IsOpen(replies, w.id) && w.deadline > now
    decreases |ws|
  {
    if ws != [] {
      var init, w := ws[..|ws| - 1], ws[|ws| - 1];
      KeptIs(init, replies, now);
      assert forall v :: v in ws <==> v in init || v == w;
    }
  }

  lemma {:induction false} KeptApart(ws: seq<Waiter>, replies: Replies, now: Time)
    requires Apart(ws)
    ensures Apart(Kept(ws, replies, now))
    decreases |ws|
  {
    if ws != [] {
      var init, w := ws[..|ws| - 1], ws[|ws| - 1];
      KeptApart(init, replies, now);
      KeptIs(init, replies, now);
      var k := Kept(init, replies, now);
      forall i | 0 <= i < |k| ensures k[i].id != w.id {
        assert k[i] in init;
      }
    }
  }

  /** Entries and waiters may go, as long as no open request loses its place. */
  lemma {:induction false} ShrinkTables(queue: seq<RequestId>, asked: map<RequestId, Asked>,
                                        pending: Table, byName: Index, replies: Replies,
                                        pending': Table, byName': Index, replies': Replies)
    requires Tables(queue, pending, byName, replies, asked) && Inverse(pending', byName')
             && AllPlaced(pending', replies', asked)
    requires forall c :: c in pending' ==> c in pending && Ids(pending'[c].waiters) <= Ids(pending[c].waiters)
    requires forall id :: id in queue && id in replies ==> id in replies' && replies'[id] == replies[id]
    requires forall id :: IsOpen(replies', id) && id !in queue ==>
               IsOpen(replies, id) && (id in asked && Waits(pending, byName, asked[id].name, id) ==>
                                       Waits(pending', byName', asked[id].name, id))
    ensures Tables(queue, pending', byName', replies', asked)
  {
    hide Placed, AllPlaced, Ids, Inverse, Waits, NoRepeats;
  }

  lemma {:induction false} ExpirePlaced(pending: Table, replies: Replies, asked: map<RequestId, Asked>, now: Time,
                                        c: Cid)
    requires AllPlaced(pending, replies, asked) && c in pending
    ensures var p := pending[c].(waiters := Kept(pending[c].waiters, replies, now));
            && Placed(p, Settle(replies, Overdue(pending, replies, now), TimedOut), asked)
            && Ids(p.waiters) <= Ids(pending[c].waiters)
  {
    var p := pending[c].(waiters := Kept(pending[c].waiters, replies, now));
    var overdue := Overdue(pending, replies, now);
    assert Placed(pending[c], replies, asked);
    KeptIs(pending[c].waiters, replies, now);
    KeptApart(pending[c].waiters, replies, now);
    hide Kept, Apart;
    forall w | w in p.waiters
      ensures w.id in asked && asked[w.id] == Asked(p.name, w.deadline)
              && Unanswered(Settle(replies, overdue, TimedOut), w.id)
    {
      assert w.id !in overdue by {
        forall d, v | d in pending && v in pending[d].waiters && v.id == w.id ensures v.deadline > now {
          assert Placed(pending[d], replies, asked);
        }
      }
    }
  }

  lemma {:induction false} ExpireInverse(s: State, now: Time)
    requires Inverse(s.pending, s.byName)
    ensures Inverse(Expire(s, now).pending, Expire(s, now).byName)
  {
    hide Kept, Overdue;
    var s' := Expire(s, now);
    forall n | n in s'.byName ensures s'.byName[n] in s'.pending && s'.pending[s'.byName[n]].name == n {
      var c := s.byName[n];
      assert c in s.pending && s.pending[c].name == n;
    }
    forall c | c in s'.pending ensures s'.pending[c].name in s'.byName && s'.byName[s'.pending[c].name] == c {
      assert s.pending[c].name in s.byName && s.byName[s.pending[c].name] == c;
      forall d | d in s.pending && d !in s'.pending ensures s.pending[d].name != s.pending[c].name {
        assert s.byName[s.pending[d].name] == d;
      }
    }
  }

  lemma {:induction false} ExpireTables(s: State, now: Time)
    requires Tables(s.queue, s.pending, s.byName, s.replies, s.log.asked)
    ensures var s' := Expire(s, now); Tables(s.queue, s'.pending, s'.byName, s'.replies, s.log.asked)
  {
    var s', overdue := Expire(s, now), Overdue(s.pending, s.replies, now);
    ExpireInverse(s, now);
    forall c | c in s'.pending
      ensures Placed(s'.pending[c], s'.replies, s.log.asked) && Ids(s'.pending[c].waiters) <= Ids(s.pending[c].waiters)
    {
      ExpirePlaced(s.pending, s.replies, s.log.asked, now, c);
    }
    forall id | id in s.queue && id in s.replies ensures id in s'.replies && s'.replies[id] == s.replies[id] {
      assert forall c, w :: c in s.pending && w in s.pending[c].waiters ==> w.id in Ids(s.pending[c].waiters);
    }
    forall id | IsOpen(s'.replies, id) && id in s.log.asked && Waits(s.pending, s.byName, s.log.asked[id].name, id)
      ensures Waits(s'.pending, s'.byName, s.log.asked[id].name, id)
    {
      StillWaits(s, now, id);
    }
    hide Placed, Ids, Inverse, Waits, Expire;
    ShrinkTables(s.queue, s.log.asked, s.pending, s.byName, s.replies, s'.pending, s'.byName, s'.replies);
  }

  /** A request that is open after the expiry keeps its place. */
  lemma {:induction false} StillWaits(s: State, now: Time, id: RequestId)
    requires Inverse(s.pending, s.byName) && Inverse(Expire(s, now).pending, Expire(s, now).byName)
    requires IsOpen(Expire(s, now).replies, id) && id in s.log.asked
             && Waits(s.pending, s.byName, s.log.asked[id].name, id)
    ensures Waits(Expire(s, now).pending, Expire(s, now).byName, s.log.asked[id].name, id)
  {
    var s' := Expire(s, now);
    var n := s.log.asked[id].name;
    var c := s.byName[n];
    var w :| w in s.pending[c].waiters && w.id == id;
    KeptIs(s.pending[c].waiters, s.replies, now);
    assert IsOpen(s.replies, id) && w.deadline > now;
    assert w in Kept(s.pending[c].waiters, s.replies, now);
    assert c in s'.pending && w in s'.pending[c].waiters;
    assert s'.pending[c].name == n;
  }

  lemma {:induction false} SettleEnded(replies: Replies, asked: map<RequestId, Asked>, ended: map<RequestId, Ending>,
                                       ids: set<RequestId>, r: Reply, e: Ending)
    requires EndedOk(replies, asked, ended)
    requires forall id :: id in ids ==> IsOpen(replies, id) && id in asked && EndingOk(r, asked[id], e)
    ensures EndedOk(Settle(replies, ids, r), asked, Close(ended, ids, e))
  {
    hide EndingOk;
  }

  lemma {:induction false} ExpireEnded(s: State, now: Time)
    requires AllPlaced(s.pending, s.replies, s.log.asked) && EndedOk(s.replies, s.log.asked, s.log.ended)
    ensures EndedOk(Expire(s, now).replies, s.log.asked, Expire(s, now).log.ended)
  {
    var overdue := Overdue(s.pending, s.replies, now);
    assert forall c :: c in s.pending ==> Placed(s.pending[c], s.replies, s.log.asked);
    assert forall id :: id in overdue ==> IsOpen(s.replies, id) && id in s.log.asked && s.log.asked[id].deadline <= now;
    hide Kept, Placed, Overdue, EndedOk, Settle, Close;
    SettleEnded(s.replies, s.log.asked, s.log.ended, overdue, TimedOut, Expired(now));
  }

  /** Names no longer pending have used up their schedule, as far as the budget goes. */
  lemma {:induction false} ShrinkCounts(pending: Table, byName: Index, pending': Table, byName': Index,
                                        carried: map<Cid, seq<Number>>, made: map<Name, nat>, sent: map<Name, nat>)
    requires Counts(pending, byName, carried, made, sent, {})
    requires forall c :: c in pending' ==> c in pending && pending'[c].(waiters := []) == pending[c].(waiters := [])
    requires forall n :: n in byName' ==> n in byName && byName'[n] == byName[n]
    ensures Counts(pending', byName', carried, made, sent, {})
  {
    forall n ensures Count(sent, n) + MAX_SENDS <= MAX_SENDS * Count(made, n) + Spent(pending', byName', {}, n) {
      assert Count(sent, n) + MAX_SENDS <= MAX_SENDS * Count(made, n) + Spent(pending, byName, {}, n);
      assert n in byName && byName[n] in pending ==> ScheduleOk(pending[byName[n]]);
    }
    hide Count, Spent, Recent;
    assert forall c :: c in pending' ==> pending'[c].seqs == pending[c].seqs && ScheduleOk(pending[c]);
  }

  lemma {:induction false} ExpireKeeps(s: State, now: Time)
    requires Inv(s)
    ensures Inv(Expire(s, now))
  {
    var s' := Expire(s, now);
    assert forall c :: c in s'.pending ==> s'.pending[c].(waiters := []) == s.pending[c].(waiters := []);
    assert s'.queue == s.queue && s'.log.asked == s.log.asked && s'.log.carried == s.log.carried
      && s'.log.made == s.log.made && s'.log.sent == s.log.sent;
    ExpireTables(s, now);
    ExpireEnded(s, now);
    hide Inverse, AllPlaced, QueueOk, OpenOk, EndedOk, Counts;
    ShrinkCounts(s.pending, s.byName, s'.pending, s'.byName, s.log.carried, s.log.made, s.log.sent);
  }

  // ----- Answers -----

  /** The requests answered wait nowhere else. */
  lemma {:induction false} AnswerPlaced(s: State, cid: Cid, r: Response)
    requires Inverse(s.pending, s.byName) && AllPlaced(s.pending, s.replies, s.log.asked)
    ensures AllPlaced(Answer(s, cid, r).pending, Answer(s, cid, r).replies, s.log.asked)
  {
    var s' := Answer(s, cid, r);
    if cid in s.pending && r.number in s.pending[cid].seqs {
      var p := s.pending[cid];
      assert Placed(p, s.replies, s.log.asked);
      forall c | c in s'.pending ensures Placed(s'.pending[c], s'.replies, s.log.asked) {
        assert Placed(s.pending[c], s.replies, s.log.asked);
        assert s.pending[c].name != p.name;
      }
    }
  }

  lemma {:induction false} AnswerInverse(s: State, cid: Cid, r: Response)
    requires Inverse(s.pending, s.byName)
    ensures Inverse(Answer(s, cid, r).pending, Answer(s, cid, r).byName)
    ensures forall id :: IsOpen(Answer(s, cid, r).replies, id) ==> IsOpen(s.replies, id)
    ensures forall id, n :: IsOpen(Answer(s, cid, r).replies, id) && Waits(s.pending, s.byName, n, id) ==>
              Waits(Answer(s, cid, r).pending, Answer(s, cid, r).byName, n, id)
  {
    assert cid in s.pending ==> forall id :: id in Ids(s.pending[cid].waiters) && IsOpen(s.replies, id) ==>
      id in OpenIds(s.pending[cid].waiters, s.replies);
    hide Ids, OpenIds;
  }

  lemma {:induction false} AnswerTables(s: State, cid: Cid, r: Response)
    requires Tables(s.queue, s.pending, s.byName, s.replies, s.log.asked)
    ensures var s' := Answer(s, cid, r); Tables(s.queue, s'.pending, s'.byName, s'.replies, s.log.asked)
  {
    var s' := Answer(s, cid, r);
    if cid in s.pending && r.number in s.pending[cid].seqs {
      AnswerPlaced(s, cid, r);
      AnswerInverse(s, cid, r);
      assert forall id :: id in s.queue ==> id !in Ids(s.pending[cid].waiters);
      assert forall c :: c in s'.pending ==> c in s.pending && s'.pending[c] == s.pending[c];
      hide Placed, AllPlaced, Ids, Inverse, OpenOk, QueueOk, Waits;
      assert forall id :: id in s.queue && id in s.replies ==> s'.replies[id] == s.replies[id];
      hide Answer;
      ShrinkTables(s.queue, s.log.asked, s.pending, s.byName, s.replies, s'.pending, s'.byName, s'.replies);
    }
  }

  lemma {:induction false} AnswerEnded(s: State, cid: Cid, r: Response)
    requires AllPlaced(s.pending, s.replies, s.log.asked) && EndedOk(s.replies, s.log.asked, s.log.ended)
    requires SeqsOk(s.pending, s.log.carried) && Positive(r) && cid in r.cids
    ensures EndedOk(Answer(s, cid, r).replies, s.log.asked, Answer(s, cid, r).log.ended)
  {
    if cid in s.pending && r.number in s.pending[cid].seqs {
      var p := s.pending[cid];
      assert Placed(p, s.replies, s.log.asked);
      assert forall id :: id in Ids(p.waiters) ==> id in s.log.asked && s.log.asked[id].name == p.name;
      hide Placed, Ids, EndedOk, Settle, Close, AllPlaced;
      var ids := OpenIds(p.waiters, s.replies);
      assert forall id :: id in ids ==> id in Ids(p.waiters) && IsOpen(s.replies, id);
      SettleEnded(s.replies, s.log.asked, s.log.ended, ids, Found(r.addr),
                  Answered(p.name, r, cid, s.log.carried[cid]));
    }
  }

  lemma {:induction false} AnswerKeeps(s: State, cid: Cid, r: Response)
    requires Inv(s) && Positive(r) && cid in r.cids
    ensures Inv(Answer(s, cid, r))
  {
    var s' := Answer(s, cid, r);
    assert forall c :: c in s'.pending ==> s'.pending[c] == s.pending[c];
    assert s'.queue == s.queue && s'.log.asked == s.log.asked && s'.log.carried == s.log.carried
      && s'.log.made == s.log.made && s'.log.sent == s.log.sent;
    AnswerTables(s, cid, r);
    AnswerEnded(s, cid, r);
    hide Inverse, AllPlaced, QueueOk, OpenOk, EndedOk, Counts;
    ShrinkCounts(s.pending, s.byName, s'.pending, s'.byName, s.log.carried, s.log.made, s.log.sent);
  }

  lemma {:induction false} AnswersKeep(s: State, cids: seq<Cid>, r: Response)
    requires Inv(s) && Positive(r) && forall c :: c in cids ==> c in r.cids
    ensures Inv(AnswerAll(s, cids, r))
    decreases |cids|
  {
    hide Inv, Answer, Positive;
    if cids != [] {
      assert cids[0] in cids;
      AnswerKeeps(s, cids[0], r);
      AnswersKeep(Answer(s, cids[0], r), cids[1..], r);
    }
  }

  // ----- Retransmission -----

  lemma {:induction false} SameTables(queue: seq<RequestId>, pending: Table, byName: Index, replies: Replies,
                                      asked: map<RequestId, Asked>, c: Cid, p: Pending)
    requires Tables(queue, pending, byName, replies, asked) && c in pending
    requires p.name == pending[c].name && p.waiters == pending[c].waiters
    ensures Tables(queue, pending[c := p], byName, replies, asked)
  {
    assert Placed(p, replies, asked) by {
      assert Placed(pending[c], replies, asked);
    }
    hide Placed, NoRepeats;
  }

  lemma {:induction false} RememberIsRecent(carried: seq<Number>, number: Number)
    ensures Remember(Recent(carried), number) == Recent(carried + [number])
  {
  }

  lemma {:induction false} CarryBudget(pending: Table, byName: Index, made: map<Name, nat>, sent: map<Name, nat>,
                                       ahead: set<Cid>, c: Cid, p: Pending)
    requires Inverse(pending, byName) && Budget(pending, byName, made, sent, ahead) && c in pending && c !in ahead
    requires p.name == pending[c].name && p.sends == pending[c].sends
    ensures Budget(pending[c := p], byName, made, More(sent, p.name), ahead + {c})
  {
    OneMore(sent, p.name);
    hide Count, More;
    forall n
      ensures Count(More(sent, p.name), n) + MAX_SENDS <= MAX_SENDS * Count(made, n)
              + Spent(pending[c := p], byName, ahead + {c}, n)
    {
      assert Count(sent, n) + MAX_SENDS <= MAX_SENDS * Count(made, n) + Spent(pending, byName, ahead, n);
    }
  }

  lemma {:induction false} CountBudget(pending: Table, byName: Index, made: map<Name, nat>, sent: map<Name, nat>,
                                       ahead: set<Cid>, c: Cid, p: Pending)
    requires Inverse(pending, byName) && Budget(pending, byName, made, sent, ahead) && c in pending && c in ahead
    requires p.name == pending[c].name && p.sends == pending[c].sends + 1
    ensures Budget(pending[c := p], byName, made, sent, ahead - {c})
  {
    hide Count;
    forall n
      ensures Count(sent, n) + MAX_SENDS <= MAX_SENDS * Count(made, n) + Spent(pending[c := p], byName, ahead - {c}, n)
    {
      assert Count(sent, n) + MAX_SENDS <= MAX_SENDS * Count(made, n) + Spent(pending, byName, ahead, n);
    }
  }

  lemma {:induction false} CarryCounts(pending: Table, byName: Index, carried: map<Cid, seq<Number>>,
                                       made: map<Name, nat>, sent: map<Name, nat>, ahead: set<Cid>, c: Cid, p: Pending,
                                       number: Number)
    requires Inverse(pending, byName) && Counts(pending, byName, carried, made, sent, ahead) && c in pending
             && c !in ahead
    requires p == pending[c].(seqs := Recent(carried[c] + [number]))
    ensures Counts(pending[c := p], byName, carried[c := carried[c] + [number]], made, More(sent, p.name), ahead + {c})
  {
    hide Inverse, Recent, Budget, More;
    CarryBudget(pending, byName, made, sent, ahead, c, p);
  }

  lemma {:induction false} CarryKeeps(s: State, c: Cid, number: Number, ahead: set<Cid>)
    requires Sending(s, ahead) && c in s.pending && c !in ahead
    ensures Sending(Carry(s, c, number), ahead + {c})
  {
    hide EndedOk, Inverse, AllPlaced, QueueOk, OpenOk, Scheduled, Budget, Recent, Remember, More;
    var p := s.pending[c].(seqs := Remember(s.pending[c].seqs, number));
    RememberIsRecent(s.log.carried[c], number);
    SameTables(s.queue, s.pending, s.byName, s.replies, s.log.asked, c, p);
    CarryCounts(s.pending, s.byName, s.log.carried, s.log.made, s.log.sent, ahead, c, p, number);
  }

  lemma {:induction false} RescheduledOk(p: Pending, now: Time, u: Unit)
    requires ScheduleOk(p) && p.nextSend.Some?
    ensures var q := Rescheduled(p, now, u);
            ScheduleOk(q) && q.name == p.name && q.waiters == p.waiters && q.seqs == p.seqs && q.sends == p.sends + 1
  {
  }

  lemma {:induction false} RescheduleCounts(pending: Table, byName: Index, carried: map<Cid, seq<Number>>,
                                            made: map<Name, nat>, sent: map<Name, nat>, ahead: set<Cid>, c: Cid,
                                            p: Pending)
    requires Inverse(pending, byName) && Counts(pending, byName, carried, made, sent, ahead) && c in pending
             && c in ahead
    requires ScheduleOk(p) && p.name == pending[c].name && p.seqs == pending[c].seqs && p.sends == pending[c].sends + 1
    ensures Counts(pending[c := p], byName, carried, made, sent, ahead - {c})
  {
    hide Inverse, Recent, Budget;
    CountBudget(pending, byName, made, sent, ahead, c, p);
  }

  lemma {:induction false} RescheduleKeeps(s: State, c: Cid, now: Time, unit: nat -> Unit, ahead: set<Cid>)
    requires Sending(s, ahead) && c in s.pending && c in ahead && s.pending[c].nextSend.Some?
    ensures Sending(Reschedule(s, c, now, unit), ahead - {c})
  {
    hide EndedOk, Inverse, AllPlaced, QueueOk, OpenOk, SeqsOk, Budget, Rescheduled;
    var p := Rescheduled(s.pending[c], now, unit(s.rng));
    RescheduledOk(s.pending[c], now, unit(s.rng));
    SameTables(s.queue, s.pending, s.byName, s.replies, s.log.asked, c, p);
    RescheduleCounts(s.pending, s.byName, s.log.carried, s.log.made, s.log.sent, ahead, c, p);
  }

  function ToSet(cids: seq<Cid>): set<Cid> {
    set c | c in cids
  }

  ghost predicate DistinctCids(cids: seq<Cid>) {
    forall i, j :: 0 <= i < j < |cids| ==> cids[i] != cids[j]
  }

  /** Whether an entry is scheduled, as sends count it. */
  ghost predicate SameSchedule(pending: Table, pending': Table) {
    pending'.Keys == pending.Keys && forall c :: c in pending ==> pending'[c].nextSend == pending[c].nextSend
  }

  lemma {:induction false} Head(cids: seq<Cid>, ahead: set<Cid>)
    requires DistinctCids(cids) && cids != []
    ensures cids[0] in ToSet(cids) && cids[0] !in ToSet(cids[1..])
    ensures ahead + {cids[0]} + ToSet(cids[1..]) == ahead + ToSet(cids)
    ensures ToSet(cids) !! ahead ==> ToSet(cids[1..]) !! ahead + {cids[0]}
  {
    assert cids == [cids[0]] + cids[1..];
  }

  lemma {:induction false} CarryAllKeeps(s: State, cids: seq<Cid>, number: Number, ahead: set<Cid>)
    requires Sending(s, ahead) && DistinctCids(cids) && ToSet(cids) !! ahead
    requires forall i :: 0 <= i < |cids| ==> cids[i] in s.pending
    ensures Sending(CarryAll(s, cids, number), ahead + ToSet(cids))
    ensures SameSchedule(s.pending, CarryAll(s, cids, number).pending)
    decreases |cids|
  {
    hide Sending;
    if cids == [] {
      assert ahead + ToSet(cids) == ahead;
    } else {
      Head(cids, ahead);
      var s' := Carry(s, cids[0], number);
      assert SameSchedule(s.pending, s'.pending);
      hide Carry, ToSet;
      CarryKeeps(s, cids[0], number, ahead);
      CarryAllKeeps(s', cids[1..], number, ahead + {cids[0]});
    }
  }

  /** The runs cover the batch from `from` on, in order. */
  ghost predicate Tiles(runs: seq<Range>, from: nat, n: nat)
    decreases |runs|
  {
    if runs == [] then from == n
    else runs[0].start == from <= runs[0].end <= n && Tiles(runs[1..], runs[0].end, n)
  }

  lemma {:induction false} PacksTile(runs: seq<Range>, sizes: seq<nat>, capacity: nat, k: nat)
    requires Packs(runs, sizes, capacity, |sizes|) && k <= |runs|
    ensures Tiles(runs[k..], End(runs, k), |sizes|)
    decreases |runs| - k
  {
    if k < |runs| {
      assert RunAt(runs, k, sizes, capacity);
      PacksTile(runs, sizes, capacity, k + 1);
      assert runs[k..][1..] == runs[k + 1..];
    }
  }

  lemma {:induction false} TilesInRange(runs: seq<Range>, from: nat, n: nat, i: nat)
    requires Tiles(runs, from, n) && i < |runs|
    ensures runs[i].start <= runs[i].end <= n
    decreases |runs|
  {
    if i > 0 {
      TilesInRange(runs[1..], runs[0].end, n, i - 1);
    }
  }

  lemma {:induction false} NextTile(due: seq<Cid>, from: nat, end: nat)
    requires DistinctCids(due) && from <= end <= |due|
    ensures DistinctCids(due[from..end]) && ToSet(due[from..end]) !! ToSet(due[..from])
    ensures ToSet(due[..from]) + ToSet(due[from..end]) == ToSet(due[..end])
  {
    assert due[..end] == due[..from] + due[from..end];
  }

  ghost function CarriedBy(carried: map<Cid, seq<Number>>, c: Cid): seq<Number> {
    if c in carried then carried[c] else []
  }

  /** One more datagram for each entry in `cids`, none for any other. */
  ghost predicate CarriedOnce(before: map<Cid, seq<Number>>, after: map<Cid, seq<Number>>, cids: set<Cid>) {
    forall c: Cid ::
      var was, now := CarriedBy(before, c), CarriedBy(after, c);
      if c in cids then |now| == |was| + 1 && now[..|was|] == was else now == was
  }

  lemma {:induction false} CarriedTwice(a: map<Cid, seq<Number>>, b: map<Cid, seq<Number>>, c: map<Cid, seq<Number>>,
                                        first: set<Cid>, second: set<Cid>)
    requires CarriedOnce(a, b, first) && CarriedOnce(b, c, second) && first !! second
    ensures CarriedOnce(a, c, first + second)
  {
  }

  lemma {:induction false} CarryAllOnce(s: State, cids: seq<Cid>, number: Number)
    requires DistinctCids(cids) && forall i :: 0 <= i < |cids| ==> cids[i] in s.pending
    ensures CarriedOnce(s.log.carried, CarryAll(s, cids, number).log.carried, ToSet(cids))
    decreases |cids|
  {
    if cids != [] {
      Head(cids, {});
      var s' := Carry(s, cids[0], number);
      assert CarriedOnce(s.log.carried, s'.log.carried, {cids[0]});
      assert s'.pending.Keys == s.pending.Keys;
      assert {cids[0]} + ToSet(cids[1..]) == ToSet(cids);
      hide Carry, CarriedOnce;
      CarryAllOnce(s', cids[1..], number);
      CarriedTwice(s.log.carried, s'.log.carried, CarryAll(s', cids[1..], number).log.carried, {cids[0]},
                   ToSet(cids[1..]));
    }
  }

  /** The datagrams of a batch carry every entry of it exactly once, and nothing else. */
  lemma {:induction false} BatchCarriedOnce(s: State, due: seq<Cid>, runs: seq<Range>, from: nat)
    requires from <= |due| && DistinctCids(due) && Tiles(runs, from, |due|)
    requires forall i :: 0 <= i < |due| ==> due[i] in s.pending
    requires forall i :: 0 <= i < |runs| ==> runs[i].start <= runs[i].end <= |due|
    ensures CarriedOnce(s.log.carried, SendRuns(s, due, runs).log.carried, ToSet(due[from..]))
    decreases |runs|
  {
    hide CarriedOnce, ToSet, DistinctCids, CarryAll;
    if runs == [] {
      NoneCarried(s.log.carried, due[from..]);
    } else {
      var end := runs[0].end;
      var s1 := CarryAll(s, due[from..end], s.nextSeq);
      RestOfTile(due, from, end);
      CarriedSamePending(s, due[from..end], s.nextSeq);
      CarryAllOnce(s, due[from..end], s.nextSeq);
      var s2 := s1.(nextSeq := (s.nextSeq + 1) % U32);
      BatchCarriedOnce(s2, due, runs[1..], end);
      CarriedTwice(s.log.carried, s1.log.carried, SendRuns(s2, due, runs[1..]).log.carried, ToSet(due[from..end]),
                   ToSet(due[end..]));
    }
  }

  lemma {:induction false} NoneCarried(carried: map<Cid, seq<Number>>, cids: seq<Cid>)
    requires cids == []
    ensures CarriedOnce(carried, carried, ToSet(cids))
  {
  }

  lemma {:induction false} RestOfTile(due: seq<Cid>, from: nat, end: nat)
    requires DistinctCids(due) && from <= end <= |due|
    ensures DistinctCids(due[from..end]) && ToSet(due[from..end]) !! ToSet(due[end..])
    ensures ToSet(due[from..end]) + ToSet(due[end..]) == ToSet(due[from..])
  {
    assert due[from..] == due[from..end] + due[end..];
  }

  /** Sending a batch keeps everything but the counts of its entries, each now one behind. */
  lemma {:induction false} SendRunsKeeps(s: State, due: seq<Cid>, runs: seq<Range>, from: nat)
    requires from <= |due| && Sending(s, ToSet(due[..from])) && DistinctCids(due) && Tiles(runs, from, |due|)
    requires forall i :: 0 <= i < |due| ==> due[i] in s.pending
    requires forall i :: 0 <= i < |runs| ==> runs[i].start <= runs[i].end <= |due|
    ensures Sending(SendRuns(s, due, runs), ToSet(due))
    ensures SameSchedule(s.pending, SendRuns(s, due, runs).pending)
    decreases |runs|
  {
    hide Sending, ToSet, DistinctCids, CarryAll;
    if runs == [] {
      assert due[..from] == due;
    } else {
      var end := runs[0].end;
      var s' := CarryAll(s, due[from..end], s.nextSeq);
      NextTile(due, from, end);
      CarryAllKeeps(s, due[from..end], s.nextSeq, ToSet(due[..from]));
      Renumbered(s', ToSet(due[..end]), (s.nextSeq + 1) % U32);
      SendRunsKeeps(s'.(nextSeq := (s.nextSeq + 1) % U32), due, runs[1..], end);
    }
  }

  lemma {:induction false} Renumbered(s: State, ahead: set<Cid>, number: Number)
    requires Sending(s, ahead)
    ensures Sending(s.(nextSeq := number), ahead)
  {
    hide Tables, EndedOk, Counts;
  }

  lemma {:induction false} RescheduleAllKeeps(s: State, due: seq<Cid>, now: Time, unit: nat -> Unit)
    requires Sending(s, ToSet(due)) && DistinctCids(due)
    requires forall i :: 0 <= i < |due| ==> due[i] in s.pending && s.pending[due[i]].nextSend.Some?
    ensures Sending(RescheduleAll(s, due, now, unit), {})
    decreases |due|
  {
    if due == [] {
      assert ToSet(due) == {};
    } else {
      hide Sending;
      Head(due, {});
      assert ToSet(due) - {due[0]} == ToSet(due[1..]);
      var s' := Reschedule(s, due[0], now, unit);
      assert forall i :: 0 < i < |due| ==> due[i] != due[0] && s'.pending[due[i]] == s.pending[due[i]];
      hide ToSet, Reschedule;
      RescheduleKeeps(s, due[0], now, unit, ToSet(due));
      RescheduleAllKeeps(s', due[1..], now, unit);
    }
  }

  lemma {:induction false} BatchIsDistinct(pending: Table, now: Time, due: seq<Cid>)
    requires IsBatch(pending, now, due)
    ensures DistinctCids(due)
    ensures forall i :: 0 <= i < |due| ==> due[i] in pending && pending[due[i]].nextSend.Some?
  {
    assert forall i :: 0 <= i < |due| ==> due[i] in due;
  }

  lemma {:induction false} PackedTiles(pending: Table, now: Time, due: seq<Cid>, runs: seq<Range>, limit: nat)
    requires IsPacked(pending, now, due, runs, limit)
    ensures Tiles(runs, 0, |due|) && forall i :: 0 <= i < |runs| ==> runs[i].start <= runs[i].end <= |due|
  {
    PacksTile(runs, SizesOfDue(pending, due), limit - SEARCH_FIXED_BYTES, 0);
    assert runs[0..] == runs;
    hide IsPacked;
    forall i | 0 <= i < |runs| ensures runs[i].start <= runs[i].end <= |due| {
      TilesInRange(runs, 0, |due|, i);
    }
  }

  lemma {:induction false} SendKeeps(s: State, now: Time, due: seq<Cid>, runs: seq<Range>, limit: nat,
                                     unit: nat -> Unit)
    requires Inv(s) && IsPacked(s.pending, now, due, runs, limit)
    ensures Inv(SendDue(s, now, due, runs, limit, unit))
  {
    BatchIsDistinct(s.pending, now, due);
    PackedTiles(s.pending, now, due, runs, limit);
    hide *;
    SendDueIs(s, now, due, runs, limit, unit);
    if AnyDue(s.pending, now) {
      WholeBatch(s, due, runs, now, unit);
    }
  }

  lemma {:induction false} SendDueIs(s: State, now: Time, due: seq<Cid>, runs: seq<Range>, limit: nat,
                                     unit: nat -> Unit)
    requires IsPacked(s.pending, now, due, runs, limit)
    requires forall i :: 0 <= i < |due| ==> due[i] in s.pending
    requires forall i :: 0 <= i < |runs| ==> runs[i].start <= runs[i].end <= |due|
    ensures !AnyDue(s.pending, now) ==> SendDue(s, now, due, runs, limit, unit) == s
    ensures AnyDue(s.pending, now) ==>
              && (forall i :: 0 <= i < |due| ==> due[i] in SendRuns(s, due, runs).pending)
              && SendDue(s, now, due, runs, limit, unit) == RescheduleAll(SendRuns(s, due, runs), due, now, unit)
  {
    hide IsPacked, AnyDue, SendRuns, RescheduleAll;
    SentSamePending(s, due, runs);
  }

  lemma {:induction false} WholeBatch(s: State, due: seq<Cid>, runs: seq<Range>, now: Time, unit: nat -> Unit)
    requires Inv(s) && DistinctCids(due) && Tiles(runs, 0, |due|)
    requires forall i :: 0 <= i < |due| ==> due[i] in s.pending && s.pending[due[i]].nextSend.Some?
    requires forall i :: 0 <= i < |runs| ==> runs[i].start <= runs[i].end <= |due|
    ensures forall i :: 0 <= i < |due| ==> due[i] in SendRuns(s, due, runs).pending
    ensures Inv(RescheduleAll(SendRuns(s, due, runs), due, now, unit))
  {
    assert ToSet(due[..0]) == {};
    hide Tables, EndedOk, Counts, ToSet, DistinctCids, Tiles, SendRuns, RescheduleAll;
    SendRunsKeeps(s, due, runs, 0);
    RescheduleAllKeeps(SendRuns(s, due, runs), due, now, unit);
  }
}
