/** Operations on a pooled connection: what they write, when they commit, and whether the
    connection may go back. The network is a script of what happens at each await. */
module PooledOps {
  import opened Options
  import opened PvaFrame
  import opened Segments
  import opened Awaiting
  import opened ConnPools

  /** Error texts as tagged cases: a dead or stalled socket, a status or decode text with or
      without the stale-sid and refusal markers, or anything else. `Dropped` is no error of the
      source: the caller dropped the operation, and nothing more of it runs. */
  datatype Error = Io | Timeout | Text(unknownSid: bool, refusal: bool) | Unrelated | Dropped

  predicate IsReuseFailure(e: Error) {
    e.Io? || e.Timeout? || (e.Text? && e.unknownSid)
  }

  predicate IsServerRefusal(e: Error) {
    e.Text? && e.refusal
  }

  datatype Op = Get | Put | Info

  // ----- Waiting -----

  datatype Write = Sent | Broken | Unfinished

  function WriteError(w: Write): Option<Error> {
    match w
    case Sent => None
    case Broken => Some(Io)
    case Unfinished => Some(Dropped)
  }

  type WireFrame = f: Frame | |f.header| == HEADER witness Frame([0, 0, 0, 0, 0, 0, 0, 0], [])

  /** What a whole reply says: it refuses, in words that may themselves contain a marker; it cannot
      be used; or it is good. */
  datatype Verdict = Refuses(unknownSid: bool, marked: bool) | Unusable | Good

  /** Waiting for a reply: the frames that come, what has come of the next one when the wait is cut
      short and why, which messages carry the ids waited for, and what the reply says. */
  datatype Wait = Wait(frames: seq<WireFrame>, part: seq<byte>, why: Stop, picks: seq<byte> -> bool, verdict: Verdict)

  const CREATE_CHANNEL: byte := 7
  const VALIDATED: byte := 9
  const GET: byte := 10
  const PUT: byte := 11
  const GET_FIELD: byte := 17

  predicate Answers(m: seq<byte>, command: byte, picks: seq<byte> -> bool) {
    |m| >= HEADER && !IsControl(m[..HEADER]) && Command(m[..HEADER]) == command && picks(m)
  }

  /** The error a wait reports: a frame over the limit is a text of the client's own, a segmentation
      error is neither a text nor a dead socket. */
  function WaitError(end: WaitEnd): Error
    requires !end.Accepted?
  {
    match end
    case Malformed => Unrelated
    case Stopped(Late) => Timeout
    case Stopped(Lost) => Io
    case Stopped(Over) => Text(false, false)
    case Stopped(Gone) => Dropped
  }

  /** `read_until` on a connection: the wait over its frames, with a buffer that goes afterwards. */
  function Listen(conn: Conn, w: Wait, command: byte): (Conn, Result<Verdict, Error>) {
    var (pending, held, end) := Await(MAX_MESSAGE, conn.pending, w.frames, m => Answers(m, command, w.picks), w.part,
                                      w.why);
    (conn.(pending := pending, lost := conn.lost + held), if end.Accepted? then Ok(w.verdict) else Err(WaitError(end)))
  }

  /** Everything about a connection but what its reads leave. */
  predicate SameButReads(c: Conn, conn: Conn) {
    c == conn.(pending := c.pending, lost := c.lost)
  }

  /** A reply read whole leaves nothing half-assembled and loses no byte, whatever the connection
      was assembling before; and no failed wait reads like a refusal. */
  lemma {:induction false} ListenLeaves(conn: Conn, w: Wait, command: byte)
    ensures var (c, r) := Listen(conn, w, command);
            && SameButReads(c, conn)
            && (r.Ok? ==> r.value == w.verdict && c.pending.None? && c.lost == conn.lost)
            && (r.Err? ==> !IsServerRefusal(r.error))
  {
    var accept := m => Answers(m, command, w.picks);
    if Await(MAX_MESSAGE, conn.pending, w.frames, accept, w.part, w.why).2.Accepted? {
      AcceptedLeavesNothing(MAX_MESSAGE, conn.pending, w.frames, accept, w.part, w.why);
    }
  }

  /** The wait ends with the message waited for, on a connection with nothing half-assembled. */
  predicate Arrives(w: Wait, command: byte) {
    Await(MAX_MESSAGE, None, w.frames, m => Answers(m, command, w.picks), w.part, w.why).2.Accepted?
  }

  lemma {:induction false} ArrivesIs(conn: Conn, w: Wait, command: byte)
    requires conn.pending.None?
    ensures Listen(conn, w, command).1.Ok? <==> Arrives(w, command)
  {
  }

  /** An unsegmented server message without a payload. */
  function Bare(command: byte): WireFrame {
    Frame([0xCA, 2, 0x40, command, 0, 0, 0, 0], [])
  }

  function Answered(command: byte, verdict: Verdict): Wait {
    Wait([Bare(command)], [], Late, _ => true, verdict)
  }

  lemma {:induction false} BareAnswers(conn: Conn, command: byte, verdict: Verdict)
    requires conn.pending.None?
    ensures Listen(conn, Answered(command, verdict), command) == (conn, Ok(verdict))
  {
    var f := Bare(command);
    assert Wire(f)[..HEADER] == f.header;
    assert conn.lost + [] == conn.lost;
  }

  // ----- Dialling -----

  /** One of the handshake's two opening reads, which end with the first message. */
  datatype Opening = Opening(frames: seq<WireFrame>, part: seq<byte>, why: Stop)

  datatype Dialling =
    | Unreachable(error: Error)
    | Connects(first: Opening, second: Opening, validation: Write, validated: Wait)

  function OpeningRead(pending: Assembly, o: Opening): (r: (Option<Pending>, seq<byte>, WaitEnd))
    ensures PendingOk(MAX_MESSAGE, r.0)
  {
    Await(MAX_MESSAGE, pending, o.frames, m => true, o.part, o.why)
  }

  /** The opening reads share a buffer and their errors are passed over: what the reassembler holds
      afterwards, and what the buffer does, which goes with it. A second read that completes no
      frame leaves what the first left too. */
  function OpeningReads(first: Opening, second: Opening): (r: (Option<Pending>, seq<byte>))
    ensures PendingOk(MAX_MESSAGE, r.0)
  {
    var (p1, h1, _) := OpeningRead(None, first);
    var (p2, h2, _) := OpeningRead(p1, second);
    (p2, if |second.frames| == 0 then h1 + h2 else h2)
  }

  /** No part of a frame goes with the buffer: the second read ended with a message or an error of
      the reassembler, or it stopped with nothing held, and either took a frame or followed a first
      read that held nothing. */
  predicate EndsWhole(first: Opening, second: Opening) {
    var (p1, _, e1) := OpeningRead(None, first);
    || !OpeningRead(p1, second).2.Stopped?
    || (second.part == [] && (|second.frames| > 0 || !e1.Stopped? || first.part == []))
  }

  lemma {:induction false} ReadLeavesPart(pending: Assembly, o: Opening)
    ensures var (_, held, end) := OpeningRead(pending, o);
            held == (if end.Stopped? then o.part else []) && (|o.frames| == 0 ==> end.Stopped?)
  {
    AwaitHolds(MAX_MESSAGE, pending, o.frames, m => true, o.part, o.why);
  }

  lemma {:induction false} LosesNothingIff(first: Opening, second: Opening)
    ensures OpeningReads(first, second).1 == [] <==> EndsWhole(first, second)
  {
    ReadLeavesPart(None, first);
    ReadLeavesPart(OpeningRead(None, first).0, second);
    hide OpeningRead;
  }

  predicate OpeningDropped(first: Opening, second: Opening) {
    var (p1, _, e1) := OpeningRead(None, first);
    e1 == Stopped(Gone) || OpeningRead(p1, second).2 == Stopped(Gone)
  }

  /** Connect and validate. */
  function Handshake(id: ConnId, addr: Addr, c: CallId, now: Time, d: Dialling): Result<Conn, Error> {
    match d
    case Unreachable(e) => Err(e)
    case Connects(first, second, validation, validated) =>
      if OpeningDropped(first, second) then Err(Dropped)
      else if !validation.Sent? then Err(WriteError(validation).value)
      else
        var (pending, lost) := OpeningReads(first, second);
        var raw := Conn(id, addr, map[], 1, now, false, c, pending, lost, lost, {}, false);
        var (conn, r) := Listen(raw, validated, VALIDATED);
        if r.Ok? then Ok(conn) else Err(r.error)
  }

  /** Nothing half-assembled, no byte lost since the handshake, and no request open on the server
      unless the frame to free it could not be written. */
  predicate Quiet(c: Conn) {
    c.pending.None? && c.lost == c.lostAtDial && (c.requests == {} || c.broken)
  }

  /** A validated connection is quiet, and at a frame boundary exactly if its opening reads were. */
  lemma {:induction false} HandshakeIsQuiet(id: ConnId, addr: Addr, c: CallId, now: Time, d: Dialling)
    requires Handshake(id, addr, c, now, d).Ok?
    ensures var conn := Handshake(id, addr, c, now, d).value;
            && Quiet(conn) && conn.requests == {} && conn.id == id && conn.addr == addr && conn.dialledBy == c
              && !conn.reused
            && conn.channels == map[] && (conn.lost == [] <==> EndsWhole(d.first, d.second))
  {
    LosesNothingIff(d.first, d.second);
    var (pending, lost) := OpeningReads(d.first, d.second);
    ListenLeaves(Conn(id, addr, map[], 1, now, false, c, pending, lost, lost, {}, false), d.validated, VALIDATED);
    hide Listen, OpeningReads, OpeningDropped, EndsWhole;
  }

  /** A server that stalls after one byte of its first frame, past both opening reads: the
      connection is validated and no longer at a frame boundary. */
  lemma {:induction false} StalledHandshakeLosesBytes(id: ConnId, addr: Addr, c: CallId, now: Time)
    ensures var d := Connects(Opening([], [0xCA], Late), Opening([], [], Late), Sent, Answered(VALIDATED, Good));
            Handshake(id, addr, c, now, d).Ok? && Handshake(id, addr, c, now, d).value.lost == [0xCA]
  {
    BareAnswers(Conn(id, addr, map[], 1, now, false, c, None, [0xCA], [0xCA], {}, false), VALIDATED, Good);
    hide Listen;
    assert [0xCA] + [] == [0xCA];
  }

  // ----- Operations -----

  /** Whether a PUT's value fits the structure the server describes. If not, the client's text quotes
      a key of the value or a name of the structure, which may contain a marker. */
  datatype Encoding = Encodable | Unencodable(unknownSid: bool, marked: bool)

  datatype Script = Script(init: Write, initReply: Wait, encoding: Encoding, data: Write, dataReply: Wait,
                           destroy: Write)

  /** The operation's marks: past the point of no return, and safe to pool. */
  datatype OpCtx = OpCtx(committed: bool, reusable: bool)

  const FRESH := OpCtx(false, false)

  /** How an operation ends; `written` counts the PUT data frames it began to write. */
  datatype End = End(conn: Conn, ctx: OpCtx, error: Option<Error>, written: nat)

  /** Free the server's state for a request; only a frame that went out marks the connection. A
      frame that cannot be written is no error, unless the caller is gone. */
  function DestroyRequest(conn: Conn, ioid: Ioid, ctx: OpCtx, w: Write, error: Option<Error>, written: nat): End {
    match w
    case Sent => End(conn.(requests := conn.requests - {ioid}), ctx.(reusable := true), error, written)
    case Broken => End(conn.(broken := true), ctx, error, written)
    case Unfinished => End(conn, ctx, Some(Dropped), written)
  }

  /** Write the INIT and wait for its reply. A refused INIT opens no request. */
  function Init(conn: Conn, ioid: Ioid, s: Script, command: byte): (Conn, Option<Error>) {
    var begun := conn.(requests := conn.requests + {ioid});
    if !s.init.Sent? then (begun, WriteError(s.init))
    else
      var (c, r) := Listen(begun, s.initReply, command);
      match r
      case Err(e) => (c, Some(e))
      case Ok(Refuses(unknownSid, _)) => (c.(requests := conn.requests), Some(Text(unknownSid, true)))
      case Ok(Unusable) => (c, Some(Text(false, false)))
      case Ok(Good) => (c, None)
  }

  function RunGet(conn: Conn, ioid: Ioid, s: Script): End {
    var (c, e) := Init(conn, ioid, s, GET);
    if e.Some? then End(c, FRESH, e, 0)
    else if !s.data.Sent? then End(c, FRESH, WriteError(s.data), 0)
    else
      var (c', r) := Listen(c, s.dataReply, GET);
      match r
      case Err(e) => End(c', FRESH, Some(e), 0)
      case Ok(Good) => DestroyRequest(c', ioid, FRESH, s.destroy, None, 0)
      case Ok(_) => End(c', FRESH, Some(Text(false, false)), 0)
  }

  /** What the status of a PUT's data reply reports. */
  function ReplyError(verdict: Verdict): Option<Error> {
    match verdict
    case Refuses(unknownSid, marked) => Some(Text(unknownSid, marked))
    case Unusable => Some(Text(false, false))
    case Good => None
  }

  /** The commit mark is set before the data frame is written, never after. */
  function RunPut(conn: Conn, ioid: Ioid, s: Script): End {
    var (c, e) := Init(conn, ioid, s, PUT);
    if e.Some? then End(c, FRESH, e, 0)
    else if s.encoding.Unencodable? then
      DestroyRequest(c, ioid, FRESH, s.destroy, Some(Text(s.encoding.unknownSid, s.encoding.marked)), 0)
    else
      var committed := FRESH.(committed := true);
      if !s.data.Sent? then End(c, committed, WriteError(s.data), 1)
      else
        var (c', r) := Listen(c, s.dataReply, PUT);
        match r
        case Err(e) => End(c', committed, Some(e), 1)
        case Ok(verdict) => DestroyRequest(c', ioid, committed, s.destroy, ReplyError(verdict), 1)
  }

  /** GET_FIELD is one request and one reply; the server keeps nothing for it. */
  function RunInfo(conn: Conn, s: Script): End {
    if !s.init.Sent? then End(conn, FRESH, WriteError(s.init), 0)
    else
      var (c, r) := Listen(conn, s.initReply, GET_FIELD);
      match r
      case Err(e) => End(c, FRESH, Some(e), 0)
      case Ok(Refuses(unknownSid, _)) => End(c, FRESH, Some(Text(unknownSid, true)), 0)
      case Ok(Unusable) => End(c, FRESH, Some(Text(false, false)), 0)
      case Ok(Good) => End(c, FRESH.(reusable := true), None, 0)
  }

  function RunOp(op: Op, conn: Conn, ioid: Ioid, s: Script): End {
    match op
    case Get => RunGet(conn, ioid, s)
    case Put => RunPut(conn, ioid, s)
    case Info => RunInfo(conn, s)
  }

  datatype Creation = Creation(create: Write, reply: Wait, sid: Sid)

  /** The channel for a name: cached, or created with the connection's next cid. */
  function ChannelSid(conn: Conn, name: Name, o: Creation): (Conn, Result<Sid, Error>) {
    if name in conn.channels then (conn, Ok(conn.channels[name]))
    else
      var c := conn.(nextCid := (conn.nextCid + 1) % 0x1_0000_0000);
      if !o.create.Sent? then (c, Err(WriteError(o.create).value))
      else
        var (c', r) := Listen(c, o.reply, CREATE_CHANNEL);
        match r
        case Err(e) => (c', Err(e))
        case Ok(Refuses(unknownSid, _)) => (c', Err(Text(unknownSid, true)))
        case Ok(Unusable) => (c', Err(Text(false, false)))
        case Ok(Good) => (c'.(channels := c'.channels[name := o.sid]), Ok(o.sid))
  }

  /** What becomes of the connection, and whether the operation is tried again. */
  datatype Fate = Keep | Forget | Discard

  function FateAfterChannel(e: Error): Fate {
    if !IsReuseFailure(e) && IsServerRefusal(e) then Keep else Discard
  }

  predicate RetryAfterChannel(e: Error, reused: bool, attempt: nat) {
    IsReuseFailure(e) && reused && attempt == 0
  }

  function FateAfterOp(end: End): Fate {
    if end.error.None? then (if end.ctx.reusable then Keep else Discard)
    else if IsReuseFailure(end.error.value) then Discard
    else if IsServerRefusal(end.error.value) then Forget
    else if end.ctx.reusable then Keep
    else Discard
  }

  predicate RetryAfterOp(end: End, reused: bool, attempt: nat) {
    end.error.Some? && IsReuseFailure(end.error.value) && reused && attempt == 0 && !end.ctx.committed
  }

  /** A refused operation's channel is forgotten: its sid may be stale. */
  function Kept(conn: Conn, fate: Fate, name: Name): Conn {
    if fate.Forget? then conn.(channels := conn.channels - {name}) else conn
  }

  // ----- What an operation leaves -----

  /** Still the connection `conn`. */
  predicate SameConn(c: Conn, conn: Conn) {
    c.id == conn.id && c.addr == conn.addr && c.dialledBy == conn.dialledBy && c.reused == conn.reused
      && c.lostAtDial == conn.lostAtDial
  }

  lemma {:induction false} InitLeaves(conn: Conn, ioid: Ioid, s: Script, command: byte)
    requires Quiet(conn)
    ensures var (c, e) := Init(conn, ioid, s, command);
            && SameConn(c, conn) && c.broken == conn.broken
            && (e.None? ==> c.pending.None? && c.lost == conn.lost && c.requests == conn.requests + {ioid})
            && (e.Some? && IsServerRefusal(e.value) ==> Quiet(c) && c.requests == conn.requests)
  {
    var begun := conn.(requests := conn.requests + {ioid});
    ListenLeaves(begun, s.initReply, command);
    var (c, r) := Listen(begun, s.initReply, command);
    hide Listen;
    assert r.Ok? ==> c.pending.None? && c.lost == conn.lost;
    assert r.Err? ==> !IsServerRefusal(r.error);
    assert c.broken == conn.broken && c.lostAtDial == conn.lostAtDial;
  }

  /** Whatever the network does: a connection that goes back is quiet if it came quiet, it is the
      same connection, at most one data frame is written and only by a committed PUT, and an
      operation that will be retried has written none. */
  ghost predicate Tidy(op: Op, conn: Conn, end: End) {
    && SameConn(end.conn, conn)
    && (!FateAfterOp(end).Discard? || end.ctx.reusable ==> Quiet(end.conn))
    && end.written <= 1 && (end.written > 0 ==> end.ctx.committed && op.Put?)
    && (end.ctx.committed ==> op.Put?)
  }

  /** With its request open, and otherwise as quiet as `conn`. */
  predicate Begun(c: Conn, conn: Conn, ioid: Ioid) {
    && SameConn(c, conn) && c.broken == conn.broken
    && c.pending.None? && c.lost == conn.lost && c.requests == conn.requests + {ioid}
  }

  lemma {:induction false} FreedIsTidy(op: Op, conn: Conn, c: Conn, ioid: Ioid, committed: bool, w: Write,
                                       error: Option<Error>, written: nat)
    requires Quiet(conn) && Begun(c, conn, ioid)
    requires written <= 1 && (written > 0 ==> committed) && (committed ==> op.Put?)
    ensures Tidy(op, conn, DestroyRequest(c, ioid, OpCtx(committed, false), w, error, written))
  {
    assert conn.requests == {} ==> conn.requests + {ioid} - {ioid} == {};
  }

  lemma {:induction false} GetIsTidy(conn: Conn, ioid: Ioid, s: Script)
    requires Quiet(conn)
    ensures Tidy(Get, conn, RunGet(conn, ioid, s))
  {
    InitLeaves(conn, ioid, s, GET);
    var c := Init(conn, ioid, s, GET).0;
    ListenLeaves(c, s.dataReply, GET);
    var (c', r) := Listen(c, s.dataReply, GET);
    hide Listen, Init, DestroyRequest;
    if Begun(c, conn, ioid) && r.Ok? {
      FreedIsTidy(Get, conn, c', ioid, false, s.destroy, None, 0);
    }
  }

  lemma {:induction false} PutIsTidy(conn: Conn, ioid: Ioid, s: Script)
    requires Quiet(conn)
    ensures Tidy(Put, conn, RunPut(conn, ioid, s))
  {
    InitLeaves(conn, ioid, s, PUT);
    var c := Init(conn, ioid, s, PUT).0;
    ListenLeaves(c, s.dataReply, PUT);
    var (c', r) := Listen(c, s.dataReply, PUT);
    hide Listen, Init, DestroyRequest;
    if Begun(c, conn, ioid) {
      if s.encoding.Unencodable? {
        FreedIsTidy(Put, conn, c, ioid, false, s.destroy, Some(Text(s.encoding.unknownSid, s.encoding.marked)), 0);
      }
      if r.Ok? {
        FreedIsTidy(Put, conn, c', ioid, true, s.destroy, ReplyError(r.value), 1);
      }
    }
  }

  lemma {:induction false} InfoIsTidy(conn: Conn, s: Script)
    requires Quiet(conn)
    ensures Tidy(Info, conn, RunInfo(conn, s))
  {
    ListenLeaves(conn, s.initReply, GET_FIELD);
    var (c, r) := Listen(conn, s.initReply, GET_FIELD);
    hide Listen;
    assert r.Err? ==> !IsServerRefusal(r.error);
    assert r.Ok? ==> Quiet(c);
  }

  lemma {:induction false} OpIsTidy(op: Op, conn: Conn, ioid: Ioid, s: Script, reused: bool, attempt: nat)
    requires Quiet(conn)
    ensures var end := RunOp(op, conn, ioid, s);
            Tidy(op, conn, end) && (RetryAfterOp(end, reused, attempt) ==> end.written == 0)
  {
    hide RunGet, RunPut, RunInfo, FateAfterOp, Quiet;
    match op
    case Get => GetIsTidy(conn, ioid, s);
    case Put => PutIsTidy(conn, ioid, s);
    case Info => InfoIsTidy(conn, s);
  }

  lemma {:induction false} SidIsTidy(conn: Conn, name: Name, o: Creation)
    requires Quiet(conn)
    ensures var (c, sid) := ChannelSid(conn, name, o);
            && SameConn(c, conn) && c.requests == conn.requests
            && (sid.Ok? || !FateAfterChannel(sid.error).Discard? ==> Quiet(c))
  {
    ListenLeaves(conn.(nextCid := (conn.nextCid + 1) % 0x1_0000_0000), o.reply, CREATE_CHANNEL);
    hide Listen;
  }

  /** A text that reads like a refused INIT and not like a stale sid. */
  const REFUSAL := Text(false, true)

  /** An accepted PUT ends in words that read like a refused INIT, the client's own about the value
      or the server's about the data frame, and the frame to free the request cannot be written. */
  predicate Misread(op: Op, s: Script) {
    && op.Put? && s.destroy.Broken?
    && s.init.Sent? && Arrives(s.initReply, PUT) && s.initReply.verdict.Good?
    && (if s.encoding.Unencodable? then Text(s.encoding.unknownSid, s.encoding.marked) == REFUSAL
        else s.data.Sent? && Arrives(s.dataReply, PUT) && s.dataReply.verdict == Refuses(false, true))
  }

  /** The connection goes back with a request open. */
  predicate KeptOpen(end: End) {
    !FateAfterOp(end).Discard? && end.conn.requests != {}
  }

  lemma {:induction false} FreedIsOpenIff(c: Conn, ioid: Ioid, ctx: OpCtx, w: Write, error: Option<Error>, written: nat)
    requires c.requests == {ioid} && !ctx.reusable
    ensures KeptOpen(DestroyRequest(c, ioid, ctx, w, error, written)) <==> w.Broken? && error == Some(REFUSAL)
  {
    assert {ioid} - {ioid} == {};
  }

  lemma {:induction false} InitOpensIff(conn: Conn, ioid: Ioid, s: Script, command: byte)
    requires Quiet(conn) && conn.requests == {}
    ensures var (c, e) := Init(conn, ioid, s, command);
            && (e.None? <==> s.init.Sent? && Arrives(s.initReply, command) && s.initReply.verdict.Good?)
            && (e.None? ==> c.pending.None? && c.requests == {ioid})
            && (e.Some? ==> !KeptOpen(End(c, FRESH, e, 0)))
  {
    var begun := conn.(requests := conn.requests + {ioid});
    InitLeaves(conn, ioid, s, command);
    ListenLeaves(begun, s.initReply, command);
    ArrivesIs(begun, s.initReply, command);
    hide Listen, Arrives;
  }

  lemma {:induction false} PutLeavesOpenIff(conn: Conn, ioid: Ioid, s: Script)
    requires Quiet(conn) && conn.requests == {}
    ensures KeptOpen(RunPut(conn, ioid, s)) <==> Misread(Put, s)
  {
    InitOpensIff(conn, ioid, s, PUT);
    var (c, e) := Init(conn, ioid, s, PUT);
    hide Init, Quiet, DestroyRequest, Arrives;
    if e.None? {
      if s.encoding.Unencodable? {
        FreedIsOpenIff(c, ioid, FRESH, s.destroy, Some(Text(s.encoding.unknownSid, s.encoding.marked)), 0);
      } else {
        DataLeavesOpenIff(c, ioid, s);
      }
    }
  }

  /** The data frame and its reply, once the request is open. */
  lemma {:induction false} DataLeavesOpenIff(c: Conn, ioid: Ioid, s: Script)
    requires c.pending.None? && c.requests == {ioid}
    ensures var ctx := OpCtx(true, false);
            var (c', r) := Listen(c, s.dataReply, PUT);
            && (!s.data.Sent? ==> !KeptOpen(End(c, ctx, WriteError(s.data), 1)))
            && (r.Err? ==> !Arrives(s.dataReply, PUT) && !KeptOpen(End(c', ctx, Some(r.error), 1)))
            && (r.Ok? ==>
                  var error := ReplyError(r.value);
                  && r.value == s.dataReply.verdict && Arrives(s.dataReply, PUT)
                  && (KeptOpen(DestroyRequest(c', ioid, ctx, s.destroy, error, 1))
                      <==> s.destroy.Broken? && error == Some(REFUSAL)))
  {
    ListenLeaves(c, s.dataReply, PUT);
    ArrivesIs(c, s.dataReply, PUT);
    var (c', r) := Listen(c, s.dataReply, PUT);
    hide Listen, Arrives, DestroyRequest;
    if r.Ok? {
      FreedIsOpenIff(c', ioid, OpCtx(true, false), s.destroy, ReplyError(r.value), 1);
    }
  }

  lemma {:induction false} GetLeavesNoneOpen(conn: Conn, ioid: Ioid, s: Script)
    requires Quiet(conn) && conn.requests == {}
    ensures !KeptOpen(RunGet(conn, ioid, s))
  {
    InitOpensIff(conn, ioid, s, GET);
    var (c, e) := Init(conn, ioid, s, GET);
    ListenLeaves(c, s.dataReply, GET);
    var (c', r) := Listen(c, s.dataReply, GET);
    hide Listen, Init, Quiet, Arrives, DestroyRequest;
    if e.None? && r.Ok? {
      FreedIsOpenIff(c', ioid, FRESH, s.destroy, None, 0);
    }
  }

  lemma {:induction false} InfoLeavesNoneOpen(conn: Conn, s: Script)
    requires conn.requests == {}
    ensures !KeptOpen(RunInfo(conn, s))
  {
    ListenLeaves(conn, s.initReply, GET_FIELD);
    hide Listen;
  }

  /** A connection with no request open goes back with one exactly if the operation is misread. */
  lemma {:induction false} RequestStaysOpenIff(op: Op, conn: Conn, ioid: Ioid, s: Script)
    requires Quiet(conn) && conn.requests == {}
    ensures KeptOpen(RunOp(op, conn, ioid, s)) <==> Misread(op, s)
  {
    hide RunGet, RunPut, RunInfo, KeptOpen, Quiet;
    match op
    case Get => GetLeavesNoneOpen(conn, ioid, s);
    case Put => PutLeavesOpenIff(conn, ioid, s);
    case Info => InfoLeavesNoneOpen(conn, s);
  }

  /** The server refuses the data frame in words that contain a marker of the client's. */
  lemma {:induction false} MisreadPutLeavesRequest(conn: Conn, ioid: Ioid)
    requires Quiet(conn) && conn.requests == {}
    ensures var s := Script(Sent, Answered(PUT, Good), Encodable, Sent, Answered(PUT, Refuses(false, true)), Broken);
            var end := RunOp(Put, conn, ioid, s);
            FateAfterOp(end).Forget? && end.conn.requests == {ioid} && end.written == 1
  {
    var begun := conn.(requests := conn.requests + {ioid});
    BareAnswers(begun, PUT, Good);
    BareAnswers(begun, PUT, Refuses(false, true));
    hide Listen;
  }

  /** The value has a key that contains one, as in `{"PUT init error:": 1}`. */
  lemma {:induction false} MisnamedPutLeavesRequest(conn: Conn, ioid: Ioid)
    requires Quiet(conn) && conn.requests == {}
    ensures var s := Script(Sent, Answered(PUT, Good), Unencodable(false, true), Sent, Answered(PUT, Good), Broken);
            var end := RunOp(Put, conn, ioid, s);
            FateAfterOp(end).Forget? && end.conn.requests == {ioid} && end.written == 0
  {
    BareAnswers(conn.(requests := conn.requests + {ioid}), PUT, Good);
    hide Listen;
  }
}
