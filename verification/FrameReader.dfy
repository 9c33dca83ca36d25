/** The resumable frame reader: however the stream is cut into reads, and whenever a read
    times out or is dropped, the reassembler is handed exactly the frames of the stream. */
module FrameReader {
  import opened PvaFrame
  import opened Segments
  import opened Options
  import opened Seqs

  const MAX_INBOUND_PAYLOAD: nat := 268_435_456
  const RECYCLE_RETAIN_MAX: nat := 65_536

  // ----- The socket -----

  /** What the next read meets: some bytes (none is end of stream), an error, the deadline, or
      the caller dropping the read. */
  datatype Event = Data(bytes: seq<byte>) | Fault | Elapsed | Dropped

  datatype ReadResult = Bytes(bs: seq<byte>) | End | Failed | TimeUp | Cancelled

  function Measure(script: seq<Event>): nat
    decreases |script|
  {
    if script == [] then 0
    else (if script[0].Data? then 1 + |script[0].bytes| else 1) + Measure(script[1..])
  }

  /** All the bytes a script will ever bring. */
  function Stream(script: seq<Event>): seq<byte>
    decreases |script|
  {
    if script == [] then []
    else (if script[0].Data? then script[0].bytes else []) + Stream(script[1..])
  }

  /** A socket that follows a script. `stream` is all it will bring, `consumed` what has been
      taken off it, and `last` how the last read ended. */
  class Socket {
    var script: seq<Event>
    ghost const stream: seq<byte>
    ghost var consumed: seq<byte>
    ghost var last: ReadResult

    ghost predicate Valid()
      reads this
    {
      consumed + Stream(script) == stream
    }

    constructor (script: seq<Event>)
      ensures this.script == script && consumed == [] && Valid() && stream == Stream(script)
    {
      this.script := script;
      stream := Stream(script);
      consumed, last := [], Cancelled;
    }

    /** One cancellation-safe read of at most `cap` bytes: only returned bytes are consumed. A
        script that has run out leaves the read waiting until it is dropped. */
    method Read(cap: nat) returns (r: ReadResult)
      requires cap >= 1 && Valid()
      modifies this
      ensures Valid() && last == r
      ensures r.Bytes? ==> 1 <= |r.bs| <= cap
      ensures consumed == old(consumed) + if r.Bytes? then r.bs else []
      ensures Measure(script) < old(Measure(script)) || (r.Cancelled? && script == old(script) == [])
    {
      r := Cancelled;
      last := r;
      if script == [] { return; }
      var e, rest := script[0], script[1..];
      script := rest;
      match e {
        case Fault => r := Failed;
        case Elapsed => r := TimeUp;
        case Dropped => r := Cancelled;
        case Data(bs) =>
          if bs == [] {
            r := End;
          } else if |bs| <= cap {
            Assoc(consumed, bs, Stream(rest));
            consumed := consumed + bs;
            r := Bytes(bs);
          } else {
            script := [Data(bs[cap..])] + rest;
            assert script[1..] == rest;
            assert bs == bs[..cap] + bs[cap..];
            Assoc(bs[..cap], bs[cap..], Stream(rest));
            Assoc(consumed, bs[..cap], Stream(script));
            consumed := consumed + bs[..cap];
            r := Bytes(bs[..cap]);
          }
      }
      last := r;
    }
  }

  // ----- Partial-read state -----

  /** The cursor that outlives a dropped read. `payloadCap` is the allocation behind `payload`. */
  class FrameBuf {
    var header: seq<byte>
    var headerFilled: nat
    var headerDone: bool
    var payload: seq<byte>
    var payloadCap: nat
    var payloadFilled: nat
    var payloadNeed: nat
    const maxPayload: nat

    ghost predicate Valid()
      reads this
    {
      && |header| == HEADER && headerFilled <= HEADER && payloadFilled <= payloadNeed
      && |payload| <= payloadCap
      && (headerDone ==>
            && headerFilled == HEADER && payloadNeed == Declared(header) <= maxPayload
            && |payload| == payloadNeed)
      && (!headerDone ==> payloadNeed == 0)
    }

    /** The bytes taken off the socket for the frame in progress. */
    ghost function Held(): seq<byte>
      requires Valid()
      reads this
    {
      if headerDone then header + payload[..payloadFilled] else header[..headerFilled]
    }

    constructor (max: nat)
      ensures Valid() && Held() == [] && maxPayload == max
    {
      header := [0, 0, 0, 0, 0, 0, 0, 0];
      headerFilled, headerDone := 0, false;
      payload, payloadCap, payloadFilled, payloadNeed := [], 0, 0, 0;
      maxPayload := max;
    }

    /** Await a new frame; the payload allocation has been moved out with the last one. */
    method Reset()
      requires Valid()
      modifies this
      ensures Valid() && Held() == []
    {
      headerFilled, headerDone := 0, false;
      payloadFilled, payloadNeed := 0, 0;
      payload, payloadCap := [], 0;
    }

    /** The header is complete: make room for the payload it declares. */
    method Begin(declared: nat)
      requires Valid() && !headerDone && headerFilled == HEADER && declared == Declared(header) <= maxPayload
      modifies this
      ensures Valid() && headerDone && payloadFilled == 0 && header == old(header) && headerFilled == HEADER
      ensures Held() == old(Held()) == header
    {
      assert header[..HEADER] == header;
      payloadNeed := declared;
      payload := seq(declared, _ => 0);
      if payloadCap < declared { payloadCap := declared; }
      payloadFilled := 0;
      headerDone := true;
    }

    /** Accept a donated buffer's allocation, unless a frame is partly read, the donation is too
        large to keep, or it is no larger than what is held. Never touches the bytes held. */
    method Recycle(capacity: nat)
      requires Valid()
      modifies this
      ensures Valid() && Held() == old(Held())
      ensures payloadCap == if old(Held()) != [] || old(headerDone) || capacity > RECYCLE_RETAIN_MAX
                               || capacity > maxPayload + HEADER || capacity <= old(payloadCap)
                            then old(payloadCap) else capacity
    {
      if headerFilled != 0 || headerDone || payloadFilled != 0 { return; }
      var keep := if RECYCLE_RETAIN_MAX <= maxPayload + HEADER then RECYCLE_RETAIN_MAX else maxPayload + HEADER;
      if capacity > keep { return; }
      if capacity <= payloadCap { return; }
      payload, payloadCap := [], capacity;
    }
  }

  // ----- Filling a buffer -----

  datatype FillResult = Done | TimedOut | Ended | Broken | Abandoned

  /** The read that cut a fill short. */
  function Why(r: FillResult): ReadResult
    requires !r.Done?
  {
    match r
    case TimedOut => TimeUp
    case Ended => End
    case Broken => Failed
    case Abandoned => Cancelled
  }

  /** Write `bs` into `buf` at `at`. */
  function Overwrite(buf: seq<byte>, at: nat, bs: seq<byte>): (r: seq<byte>)
    requires at + |bs| <= |buf|
    ensures |r| == |buf|
  {
    buf[..at] + bs + buf[at + |bs|..]
  }

  /** Read until `buf` is full. `filled` advances by exactly the bytes taken off the socket. A
      time-out is reported only when committed reads are bounded, or at a clean boundary. */
  method Fill(socket: Socket, buf: seq<byte>, filled: nat, allowTimeout: bool, boundCommitted: bool)
    returns (buf': seq<byte>, filled': nat, r: FillResult)
    requires filled <= |buf| && socket.Valid()
    modifies socket
    ensures socket.Valid() && |buf'| == |buf| && filled <= filled' <= |buf|
    ensures buf'[..filled] == buf[..filled]
    ensures socket.consumed == old(socket.consumed) + buf'[filled..filled']
    ensures r.Done? <==> filled' == |buf|
    ensures r.TimedOut? ==> boundCommitted || (allowTimeout && filled' == 0)
    ensures Measure(socket.script) <= old(Measure(socket.script))
    ensures r.Done? && filled < |buf| ==> Measure(socket.script) < old(Measure(socket.script))
    ensures filled == |buf| ==> r.Done? && buf' == buf
    ensures !r.Done? ==>
              && Why(r) == socket.last
              && (Measure(socket.script) < old(Measure(socket.script)) || socket.script == [])
  {
    buf', filled' := buf, filled;
    assert buf'[filled..filled'] == [];
    while filled' < |buf'|
      invariant socket.Valid() && |buf'| == |buf| && filled <= filled' <= |buf|
      invariant buf'[..filled] == buf[..filled]
      invariant socket.consumed == old(socket.consumed) + buf'[filled..filled']
      invariant Measure(socket.script) <= old(Measure(socket.script))
      invariant filled' > filled ==> Measure(socket.script) < old(Measure(socket.script))
      decreases Measure(socket.script)
    {
      var bounded := (allowTimeout && filled' == 0) || boundCommitted;
      var got := socket.Read(|buf'| - filled');
      match got {
        case Bytes(bs) =>
          ghost var before := buf';
          buf' := Overwrite(buf', filled', bs);
          OverwriteGrows(before, filled, filled', bs);
          Assoc(old(socket.consumed), before[filled..filled'], bs);
          filled' := filled' + |bs|;
        case End => return buf', filled', Ended;
        case Failed => return buf', filled', Broken;
        case Cancelled => return buf', filled', Abandoned;
        case TimeUp =>
          if bounded { return buf', filled', TimedOut; }
      }
    }
    r := Done;
  }

  lemma {:induction false} OverwriteGrows(buf: seq<byte>, from: nat, at: nat, bs: seq<byte>)
    requires from <= at && at + |bs| <= |buf|
    ensures var r := Overwrite(buf, at, bs);
            r[..from] == buf[..from] && r[from..at + |bs|] == buf[from..at] + bs
  {
  }

  // ----- Reading a message -----

  datatype ReadOutcome =
    | Message(msg: seq<byte>)
    | Timeout
    | IoError
    | Oversize(declared: nat)
    | DecodeError(error: SegmentError)
    | Drop

  function Delivered(r: ReadOutcome): seq<Delivery> {
    match r
    case Message(m) => [Got(m)]
    case DecodeError(e) => [Bad(e)]
    case _ => []
  }

  /** An outcome that is not a message says what the last read met. */
  ghost predicate Explained(r: ReadOutcome, last: ReadResult) {
    match r
    case Timeout => last.TimeUp?
    case IoError => last.End? || last.Failed?
    case Drop => last.Cancelled?
    case _ => true
  }

  /** The frame being read declares more than the limit. */
  ghost predicate OverLimit(held: seq<byte>, max: nat) {
    |held| >= HEADER && Declared(held[..HEADER]) > max
  }

  /** Every byte consumed is in a frame already handed over or in the partial-read state. */
  ghost predicate InSync(socket: Socket, re: SegmentReassembler, fb: FrameBuf)
    reads socket, re, fb
  {
    && re.Valid() && fb.Valid() && socket.Valid()
    && AllOk(re.fed, fb.maxPayload)
    && socket.consumed == Join(re.fed) + fb.Held()
  }

  /** Between calls the partial-read state holds no complete frame, so the frames handed over
      are exactly those the reference splitter finds. */
  ghost predicate Resting(socket: Socket, re: SegmentReassembler, fb: FrameBuf)
    reads socket, re, fb
  {
    InSync(socket, re, fb) && Incomplete(fb.Held(), fb.maxPayload)
  }

  lemma {:induction false} RestingIsSplit(socket: Socket, re: SegmentReassembler, fb: FrameBuf)
    requires Resting(socket, re, fb)
    ensures Split(socket.consumed, fb.maxPayload) == (re.fed, fb.Held())
  {
    SplitJoin(re.fed, fb.Held(), fb.maxPayload);
  }

  /** A call that stops early has met the end of the script or something else to explain it, or
      the frame being read is over the limit. */
  ghost predicate Stopped(r: ReadOutcome, socket: Socket, fb: FrameBuf, before: nat)
    requires fb.Valid()
    reads socket, fb
  {
    && Explained(r, socket.last)
    && (OverLimit(fb.Held(), fb.maxPayload) || Measure(socket.script) < before || socket.script == [])
    && (r.Oversize? ==> OverLimit(fb.Held(), fb.maxPayload))
  }

  /** The header phase. */
  method ReadHeader(socket: Socket, re: SegmentReassembler, fb: FrameBuf, boundCommitted: bool)
    returns (stop: Option<ReadOutcome>)
    requires InSync(socket, re, fb) && !fb.headerDone
    modifies socket, fb
    ensures InSync(socket, re, fb) && Measure(socket.script) <= old(Measure(socket.script))
    ensures stop.None? ==> fb.headerDone && fb.payloadFilled == 0
    ensures stop.Some? ==> !fb.headerDone && Incomplete(fb.Held(), fb.maxPayload) && Delivered(stop.value) == []
    ensures stop.Some? && stop.value.Timeout? && !boundCommitted ==> fb.Held() == []
    ensures stop.None? && old(fb.headerFilled) < HEADER ==> Measure(socket.script) < old(Measure(socket.script))
    ensures old(fb.headerFilled) == HEADER ==> fb.header == old(fb.header) && fb.headerFilled == HEADER
    ensures stop.Some? ==> Stopped(stop.value, socket, fb, old(Measure(socket.script)))
  {
    hide Join, AllOk, Declared, Measure;
    ghost var held := fb.Held();
    assert fb.header[..HEADER] == fb.header;
    var buf, filled, r := Fill(socket, fb.header, fb.headerFilled, true, boundCommitted);
    assert buf[..HEADER] == buf;
    assert buf[..filled] == held + buf[fb.headerFilled..filled];
    Assoc(Join(re.fed), held, buf[fb.headerFilled..filled]);
    fb.header, fb.headerFilled := buf, filled;
    match r {
      case TimedOut => return Some(Timeout);
      case Ended => return Some(IoError);
      case Broken => return Some(IoError);
      case Abandoned => return Some(Drop);
      case Done =>
        assert fb.Held() == fb.header;
        var declared := Declared(fb.header);
        if declared > fb.maxPayload {
          assert fb.header[..HEADER] == fb.header;
          return Some(Oversize(declared));
        }
        fb.Begin(declared);
        return None;
    }
  }

  /** The payload phase. */
  method ReadPayload(socket: Socket, re: SegmentReassembler, fb: FrameBuf, boundCommitted: bool)
    returns (stop: Option<ReadOutcome>)
    requires InSync(socket, re, fb) && fb.headerDone
    modifies socket, fb
    ensures InSync(socket, re, fb) && fb.headerDone && Measure(socket.script) <= old(Measure(socket.script))
    ensures stop.None? ==> fb.payloadFilled == fb.payloadNeed
    ensures stop.Some? ==> Incomplete(fb.Held(), fb.maxPayload) && Delivered(stop.value) == []
    ensures stop.Some? && stop.value.Timeout? ==> boundCommitted
    ensures stop.None? && old(fb.payloadFilled < fb.payloadNeed) ==>
              Measure(socket.script) < old(Measure(socket.script))
    ensures stop.Some? ==> Stopped(stop.value, socket, fb, old(Measure(socket.script)))
  {
    if fb.payloadFilled == fb.payloadNeed { return None; }
    ghost var held := fb.Held();
    var buf, filled, r := Fill(socket, fb.payload, fb.payloadFilled, false, boundCommitted);
    assert fb.header + buf[..filled] == held + buf[fb.payloadFilled..filled];
    Assoc(Join(re.fed), held, buf[fb.payloadFilled..filled]);
    fb.payload, fb.payloadFilled := buf, filled;
    assert fb.Held()[..HEADER] == fb.header;
    match r {
      case TimedOut => return Some(Timeout);
      case Ended => return Some(IoError);
      case Broken => return Some(IoError);
      case Abandoned => return Some(Drop);
      case Done => return None;
    }
  }

  /** Hand the completed frame to the reassembler. */
  method HandOver(socket: Socket, re: SegmentReassembler, fb: FrameBuf)
    returns (r: Result<Outcome, SegmentError>)
    requires InSync(socket, re, fb) && fb.headerDone && fb.payloadFilled == fb.payloadNeed
    modifies re, fb
    ensures Resting(socket, re, fb) && fb.Held() == []
    ensures re.fed == old(re.fed) + [Frame(old(fb.header), old(fb.payload))]
    ensures |old(fb.header)| == HEADER
    ensures old(re.Valid())
            && (re.pending, r) == Pushed(re.maxBytes, old(re.pending), Frame(old(fb.header), old(fb.payload)))
  {
    hide Join, AllOk, Stream, Pushed, Declared;
    var header, payload := fb.header, fb.payload;
    ghost var f := Frame(header, payload);
    assert payload[..|payload|] == payload;
    OneMoreFrame(re.fed, f, fb.maxPayload);
    NothingHeld(fb.maxPayload);
    fb.Reset();
    r := re.Push(header, payload);
  }

  lemma {:induction false} OneMoreFrame(fed: seq<Frame>, f: Frame, max: nat)
    requires AllOk(fed, max) && |f.header| == HEADER && |f.payload| == Declared(f.header) <= max
    ensures AllOk(fed + [f], max) && Join(fed + [f]) + [] == Join(fed) + (f.header + f.payload)
  {
    assert (fed + [f])[..|fed|] == fed;
  }

  lemma {:induction false} NothingHeld(max: nat)
    ensures Incomplete([], max)
  {
  }

  /** One frame: both phases, then the hand-over. */
  method ReadOne(socket: Socket, re: SegmentReassembler, fb: FrameBuf, boundCommitted: bool)
    returns (stop: Option<ReadOutcome>, pushed: Result<Outcome, SegmentError>, ghost f: Frame)
    requires Resting(socket, re, fb)
    modifies socket, re, fb
    ensures Resting(socket, re, fb)
    ensures stop.Some? ==> re.fed == old(re.fed) && re.pending == old(re.pending) && Delivered(stop.value) == []
    ensures stop.Some? ==> Stopped(stop.value, socket, fb, old(Measure(socket.script)))
    ensures Measure(socket.script) <= old(Measure(socket.script))
    ensures old(OverLimit(fb.Held(), fb.maxPayload)) ==> OverLimit(fb.Held(), fb.maxPayload) && stop.Some?
    ensures stop.Some? && stop.value.Timeout? && !boundCommitted && old(fb.Held()) == [] ==> fb.Held() == []
    ensures stop.None? ==>
      && fb.Held() == [] && Measure(socket.script) < old(Measure(socket.script))
      && |f.header| == HEADER && re.fed == old(re.fed) + [f]
      && old(re.Valid()) && (re.pending, pushed) == Pushed(re.maxBytes, old(re.pending), f)
  {
    stop, pushed, f := None, Ok(Absorbed), Frame([], []);
    var headerWasDone := fb.headerDone;
    if !fb.headerDone {
      assert fb.headerFilled == HEADER ==> fb.Held()[..HEADER] == fb.header;
      stop := ReadHeader(socket, re, fb, boundCommitted);
      if stop.Some? { return; }
    } else {
      assert fb.Held()[..HEADER] == fb.header;
    }
    stop := ReadPayload(socket, re, fb, boundCommitted);
    if stop.Some? { return; }
    f := Frame(fb.header, fb.payload);
    pushed := HandOver(socket, re, fb);
  }

  /** Every call takes something off the script, until nothing is left or the frame being read is
      over the limit; and that it stays. */
  ghost predicate Advances(socket: Socket, fb: FrameBuf, before: nat, over: bool)
    requires fb.Valid()
    reads socket, fb
  {
    && (OverLimit(fb.Held(), fb.maxPayload) || Measure(socket.script) < before || socket.script == [])
    && Measure(socket.script) <= before
    && (over ==> OverLimit(fb.Held(), fb.maxPayload))
  }

  /** Only the last of the frames delivers anything. */
  ghost predicate ByLast(cap: nat, pending: Option<Pending>, fs: seq<Frame>)
    requires HeadersOk(fs) && PendingOk(cap, pending) && cap <= U32_MAX
  {
    fs != [] && Replay(cap, pending, fs[..|fs| - 1]).1 == []
  }

  /** The shared core: read frames until one completes a message. All partial-read state is in
      `fb`, so a time-out or a dropped call loses nothing. */
  method ReadFrameInto(socket: Socket, re: SegmentReassembler, fb: FrameBuf, boundCommitted: bool)
    returns (r: ReadOutcome)
    requires Resting(socket, re, fb)
    modifies socket, re, fb
    ensures Resting(socket, re, fb)
    ensures |old(re.fed)| <= |re.fed| && re.fed[..|old(re.fed)|] == old(re.fed)
    ensures HeadersOk(re.fed[|old(re.fed)|..])
    ensures PendingOk(re.maxBytes, old(re.pending))
    ensures Replay(re.maxBytes, old(re.pending), re.fed[|old(re.fed)|..]) == (re.pending, Delivered(r))
    ensures r.Message? || r.DecodeError? ==>
              fb.Held() == [] && ByLast(re.maxBytes, old(re.pending), re.fed[|old(re.fed)|..])
    ensures r.Timeout? && !boundCommitted && old(fb.Held()) == [] ==> fb.Held() == []
    ensures !r.Message? && !r.DecodeError? ==> Explained(r, socket.last)
    ensures Advances(socket, fb, old(Measure(socket.script)), old(OverLimit(fb.Held(), fb.maxPayload)))
  {
    hide AllOk, Join, Incomplete, PendingOk, Pushed, Replay, FrameBuf.Valid, FrameBuf.Held, SegmentReassembler.Valid;
    ReplayNothing(re);
    ghost var fed0, pending0 := re.fed, re.pending;
    assert re.fed[|fed0|..] == [];
    while true
      invariant Resting(socket, re, fb)
      invariant |fed0| <= |re.fed| && re.fed[..|fed0|] == fed0 && HeadersOk(re.fed[|fed0|..])
      invariant Replay(re.maxBytes, pending0, re.fed[|fed0|..]) == (re.pending, [])
      invariant old(fb.Held()) == [] ==> fb.Held() == []
      invariant Measure(socket.script) <= old(Measure(socket.script))
      invariant old(OverLimit(fb.Held(), fb.maxPayload)) ==> OverLimit(fb.Held(), fb.maxPayload)
      decreases Measure(socket.script)
    {
      ghost var before, pending := re.fed, re.pending;
      var stop, pushed, f := ReadOne(socket, re, fb, boundCommitted);
      if stop.Some? { return stop.value; }
      assert re.fed[|fed0|..] == before[|fed0|..] + [f];
      assert re.fed[|fed0|..][..|re.fed[|fed0|..]| - 1] == before[|fed0|..];
      ReplayOne(re.maxBytes, pending0, before[|fed0|..], pending, f);
      match pushed {
        case Err(e) => return DecodeError(e);
        case Ok(Complete(m)) => return Message(m);
        case Ok(Control(m)) => return Message(m);
        case Ok(Absorbed) =>
      }
    }
  }

  lemma {:induction false} ReplayNothing(re: SegmentReassembler)
    requires re.Valid()
    ensures re.maxBytes <= U32_MAX && PendingOk(re.maxBytes, re.pending)
    ensures Replay(re.maxBytes, re.pending, []) == (re.pending, [])
  {
  }

  lemma {:induction false} ReplayOne(max: nat, pending: Option<Pending>, fs: seq<Frame>, mid: Option<Pending>, f: Frame)
    requires HeadersOk(fs) && |f.header| == HEADER && PendingOk(max, pending) && max <= U32_MAX
    requires Replay(max, pending, fs) == (mid, [])
    ensures HeadersOk(fs + [f])
    ensures Replay(max, pending, fs + [f]) == (Pushed(max, mid, f).0, DeliveryOf(Pushed(max, mid, f).1))
  {
    ReplayAppend(max, pending, fs, [f]);
    PushKeepsCap(max, mid, f);
    var (next, r) := Pushed(max, mid, f);
    assert [f][1..] == [];
    assert Replay(max, next, []) == (next, []);
    assert DeliveryOf(r) + [] == DeliveryOf(r) && [] + DeliveryOf(r) == DeliveryOf(r);
  }

  /** Resume from the partial state in `fb`; a stall mid-frame times out and can be resumed. */
  method ReadFrameResumable(socket: Socket, re: SegmentReassembler, fb: FrameBuf) returns (r: ReadOutcome)
    requires Resting(socket, re, fb)
    modifies socket, re, fb
    ensures Resting(socket, re, fb)
    ensures Split(socket.consumed, fb.maxPayload) == (re.fed, fb.Held())
    ensures |old(re.fed)| <= |re.fed| && re.fed[..|old(re.fed)|] == old(re.fed)
    ensures HeadersOk(re.fed[|old(re.fed)|..]) && PendingOk(re.maxBytes, old(re.pending))
    ensures Replay(re.maxBytes, old(re.pending), re.fed[|old(re.fed)|..]) == (re.pending, Delivered(r))
    ensures !r.Message? && !r.DecodeError? ==> Explained(r, socket.last)
    ensures Advances(socket, fb, old(Measure(socket.script)), old(OverLimit(fb.Held(), fb.maxPayload)))
  {
    r := ReadFrameInto(socket, re, fb, true);
    RestingIsSplit(socket, re, fb);
  }

  /** With a buffer of its own the reader times out only between frames: nothing is lost when
      the buffer is thrown away, so the caller may simply call again. */
  method ReadFrame(socket: Socket, re: SegmentReassembler) returns (r: ReadOutcome)
    requires re.Valid() && socket.Valid() && AllOk(re.fed, MAX_INBOUND_PAYLOAD) && socket.consumed == Join(re.fed)
    modifies socket, re
    ensures re.Valid() && socket.Valid() && AllOk(re.fed, MAX_INBOUND_PAYLOAD)
    ensures !r.Message? && !r.DecodeError? ==> Explained(r, socket.last)
    ensures r.Message? || r.DecodeError? || r.Timeout? ==> socket.consumed == Join(re.fed)
    ensures |old(re.fed)| <= |re.fed| && re.fed[..|old(re.fed)|] == old(re.fed)
    ensures HeadersOk(re.fed[|old(re.fed)|..]) && PendingOk(re.maxBytes, old(re.pending))
    ensures Replay(re.maxBytes, old(re.pending), re.fed[|old(re.fed)|..]) == (re.pending, Delivered(r))
  {
    var fb := new FrameBuf(MAX_INBOUND_PAYLOAD);
    assert Join(re.fed) + [] == Join(re.fed);
    r := ReadFrameInto(socket, re, fb, false);
    assert Join(re.fed) + [] == Join(re.fed);
  }

  // ----- Whole runs -----

  lemma {:induction false} NewIsResting(socket: Socket, re: SegmentReassembler, fb: FrameBuf)
    requires socket.Valid() && socket.consumed == [] && re.Valid() && re.fed == [] && fb.Valid() && fb.Held() == []
    ensures Resting(socket, re, fb)
  {
  }

  lemma {:induction false} FedHeaders(socket: Socket, re: SegmentReassembler, fb: FrameBuf)
    requires Resting(socket, re, fb)
    ensures HeadersOk(re.fed) && re.maxBytes <= U32_MAX && PendingOk(re.maxBytes, None)
  {
  }

  lemma {:induction false} RecycleKeeps(socket: Socket, re: SegmentReassembler, fb: FrameBuf, held: seq<byte>)
    requires re.Valid() && fb.Valid() && socket.Valid() && AllOk(re.fed, fb.maxPayload)
    requires fb.Held() == held && socket.consumed == Join(re.fed) + held && Incomplete(held, fb.maxPayload)
    ensures Resting(socket, re, fb)
  {
  }

  /** What the owner of a connection does: read again, or donate a finished buffer. */
  datatype Call = Again | Donate(capacity: nat)

  /** What the caller has been handed so far is the replay of the frames handed over so far. */
  ghost predicate Logged(re: SegmentReassembler, log: seq<Delivery>)
    reads re
  {
    re.Valid() && HeadersOk(re.fed) && Replay(re.maxBytes, None, re.fed) == (re.pending, log)
  }

  lemma {:induction false} LogGrows(re: SegmentReassembler, fed: seq<Frame>, mid: Option<Pending>,
                                    log: seq<Delivery>, more: seq<Delivery>)
    requires re.Valid() && HeadersOk(re.fed) && |fed| <= |re.fed| && re.fed[..|fed|] == fed
    requires Replay(re.maxBytes, None, fed) == (mid, log)
    requires Replay(re.maxBytes, mid, re.fed[|fed|..]) == (re.pending, more)
    ensures Logged(re, log + more)
  {
    assert re.fed == fed + re.fed[|fed|..];
    ReplayAppend(re.maxBytes, None, fed, re.fed[|fed|..]);
  }

  /** One call of the owner. */
  method Serve(socket: Socket, re: SegmentReassembler, fb: FrameBuf, call: Call, log: seq<Delivery>)
    returns (log': seq<Delivery>)
    requires Resting(socket, re, fb) && Logged(re, log)
    modifies socket, re, fb
    ensures Resting(socket, re, fb) && Logged(re, log')
    ensures call.Again? ==> Advances(socket, fb, old(Measure(socket.script)), old(OverLimit(fb.Held(), fb.maxPayload)))
    ensures call.Donate? ==> socket.script == old(socket.script) && fb.Held() == old(fb.Held())
  {
    hide AllOk, Join, Incomplete, PendingOk, Replay, FrameBuf.Valid, FrameBuf.Held, Split;
    match call
    case Donate(capacity) =>
      ghost var held := fb.Held();
      fb.Recycle(capacity);
      RecycleKeeps(socket, re, fb, held);
      log' := log;
    case Again =>
      ghost var fed, pending := re.fed, re.pending;
      var r := ReadFrameResumable(socket, re, fb);
      FedHeaders(socket, re, fb);
      LogGrows(re, fed, pending, log, Delivered(r));
      log' := log + Delivered(r);
  }

  /** How many of the calls are reads. */
  function Reads(calls: seq<Call>): nat
    decreases |calls|
  {
    if calls == [] then 0 else Reads(calls[..|calls| - 1]) + if calls[|calls| - 1].Again? then 1 else 0
  }

  lemma {:induction false} NoScript(script: seq<Event>)
    ensures Measure(script) == 0 <==> script == []
    ensures script == [] ==> Stream(script) == []
  {
  }

  /** With the script used up, or a frame over the limit next, no frame of the stream is missing. */
  lemma {:induction false} NothingMissing(socket: Socket, re: SegmentReassembler, fb: FrameBuf)
    requires Resting(socket, re, fb) && (socket.script == [] || OverLimit(fb.Held(), fb.maxPayload))
    ensures Split(socket.stream, fb.maxPayload).0 == re.fed
  {
    var held, rest := fb.Held(), Stream(socket.script);
    assert OverLimit(held, fb.maxPayload) ==> (held + rest)[..HEADER] == held[..HEADER];
    assert socket.script == [] ==> held + rest == held;
    SplitJoin(re.fed, held + rest, fb.maxPayload);
    Assoc(Join(re.fed), held, rest);
  }

  /** Any run of calls on one connection, under any schedule of chunks, time-outs, faults and
      dropped reads: what the caller is handed is the replay of exactly the frames of the bytes
      consumed, in order; and after enough reads those are all the frames of the stream. */
  method Drive(socket: Socket, calls: seq<Call>, max: nat, cap: nat)
    returns (re: SegmentReassembler, fb: FrameBuf, log: seq<Delivery>)
    requires socket.Valid() && socket.consumed == []
    modifies socket
    ensures Resting(socket, re, fb) && fb.maxPayload == max && HeadersOk(re.fed)
    ensures Split(socket.consumed, max) == (re.fed, fb.Held())
    ensures Replay(re.maxBytes, None, re.fed) == (re.pending, log)
    ensures Reads(calls) >= old(Measure(socket.script)) ==> re.fed == Split(socket.stream, max).0
    ensures forall i :: 0 <= i < |log| && log[i].Got? ==> Sound(log[i].msg, max, re.maxBytes)
  {
    re := new SegmentReassembler(cap);
    fb := new FrameBuf(max);
    log := [];
    NewIsResting(socket, re, fb);
    ReplayNothing(re);
    ghost var all := Measure(socket.script);
    for i := 0 to |calls|
      invariant fresh(re) && fresh(fb) && fb.maxPayload == max
      invariant Resting(socket, re, fb) && Logged(re, log)
      invariant OverLimit(fb.Held(), max) || Measure(socket.script) == 0
                || Measure(socket.script) + Reads(calls[..i]) <= all
    {
      assert calls[..i + 1][..i] == calls[..i];
      assert Reads(calls[..i + 1]) == Reads(calls[..i]) + if calls[i].Again? then 1 else 0;
      hide Resting, Logged, Measure, OverLimit, Reads, FrameBuf.Held;
      RestingIsValid(socket, re, fb);
      log := Serve(socket, re, fb, calls[i], log);
      NoScript(socket.script);
    }
    assert calls[..|calls|] == calls;
    NoScript(socket.script);
    RestingIsSplit(socket, re, fb);
    if Reads(calls) >= all {
      NothingMissing(socket, re, fb);
    }
    forall i | 0 <= i < |log| && log[i].Got? ensures Sound(log[i].msg, max, re.maxBytes) {
      DeliveriesAreFrames(max, re.maxBytes, None, re.fed, i);
    }
  }

  lemma {:induction false} RestingIsValid(socket: Socket, re: SegmentReassembler, fb: FrameBuf)
    requires Resting(socket, re, fb)
    ensures fb.Valid()
  {
  }
}
