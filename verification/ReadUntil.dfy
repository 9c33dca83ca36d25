/** The request-reply read: frames until a message matches, over a buffer of its own. */
module ReadUntil {
  import opened Options
  import opened PvaFrame
  import opened Segments
  import opened Seqs
  import opened FrameReader
  import opened Awaiting

  function StopOf(r: ReadOutcome): Stop
    requires !r.Message? && !r.DecodeError?
  {
    match r
    case Timeout => Late
    case IoError => Lost
    case Oversize(_) => Over
    case Drop => Gone
  }

  /** At a frame boundary: every byte consumed is in a frame handed over. */
  ghost predicate AtBoundary(socket: Socket, re: SegmentReassembler)
    reads socket, re
  {
    socket.Valid() && re.Valid() && AllOk(re.fed, MAX_INBOUND_PAYLOAD) && socket.consumed == Join(re.fed)
  }

  /** The frames fed since `from` wait as the reference does, from `was` to what is held now. */
  ghost predicate Waits(cap: nat, from: seq<Frame>, was: Option<Pending>, fed: seq<Frame>, pending: Option<Pending>,
                        accept: seq<byte> -> bool, held: seq<byte>, end: WaitEnd)
  {
    && cap <= U32_MAX && PendingOk(cap, was) && |from| <= |fed| && fed[..|from|] == from && HeadersOk(fed[|from|..])
    && Await(cap, was, fed[|from|..], accept, held, if end.Stopped? then end.why else Late) == (pending, held, end)
  }

  lemma {:induction false} NoWait(cap: nat, fed: seq<Frame>, pending: Option<Pending>, accept: seq<byte> -> bool)
    requires cap <= U32_MAX && PendingOk(cap, pending)
    ensures Waits(cap, fed, pending, fed, pending, accept, [], Stopped(Late))
  {
    assert fed[|fed|..] == [];
  }

  lemma {:induction false} WaitOn(cap: nat, from: seq<Frame>, was: Option<Pending>, mid: seq<Frame>,
                                  pending: Option<Pending>, fed: seq<Frame>, pending': Option<Pending>,
                                  accept: seq<byte> -> bool, held: seq<byte>, end: WaitEnd)
    requires Waits(cap, from, was, mid, pending, accept, [], Stopped(Late))
    requires Waits(cap, mid, pending, fed, pending', accept, held, end)
    ensures Waits(cap, from, was, fed, pending', accept, held, end)
  {
    hide Await;
    assert fed[|from|..] == mid[|from|..] + fed[|mid|..];
    AwaitAppend(cap, was, mid[|from|..], fed[|mid|..], accept, held, if end.Stopped? then end.why else Late);
  }

  /** One message: `None` if it is passed over. The frames it took wait as the reference does. */
  method Next(socket: Socket, re: SegmentReassembler, fb: FrameBuf, accept: seq<byte> -> bool)
      returns (r: Option<WaitEnd>)
    requires Resting(socket, re, fb)
    modifies socket, re, fb
    ensures Resting(socket, re, fb) && (r.None? || !r.value.Stopped? ==> fb.Held() == [])
    ensures Waits(re.maxBytes, old(re.fed), old(re.pending), re.fed, re.pending, accept, fb.Held(),
                  if r.None? then Stopped(Late) else r.value)
  {
    hide Await, Join, AllOk, Incomplete, PendingOk, Replay, Resting, FrameBuf.Held, SegmentReassembler.Valid;
    ghost var before, mid := re.fed, re.pending;
    var got := ReadFrameInto(socket, re, fb, true);
    ghost var more := re.fed[|before|..];
    CapIsSmall(socket, re, fb);
    if got.Message? || got.DecodeError? {
      DeliveredLast(re.maxBytes, mid, more, accept, got, re.pending);
      r := if got.DecodeError? then Some(Malformed) else if accept(got.msg) then Some(Accepted(got.msg)) else None;
    } else {
      AwaitSilence(re.maxBytes, mid, more, accept, fb.Held(), StopOf(got));
      r := Some(Stopped(StopOf(got)));
    }
  }

  lemma {:induction false} CapIsSmall(socket: Socket, re: SegmentReassembler, fb: FrameBuf)
    requires Resting(socket, re, fb)
    ensures re.maxBytes <= U32_MAX && fb.Valid()
  {
  }

  /** Read messages until one is accepted. `rounds` is how many messages come before the deadline
      is found to have passed between two of them. The wait is the reference wait over the frames
      read; whatever is left of a frame goes with the buffer. An accepted message leaves nothing. */
  method Until(socket: Socket, re: SegmentReassembler, accept: seq<byte> -> bool, rounds: nat)
      returns (r: WaitEnd, ghost held: seq<byte>)
    requires AtBoundary(socket, re)
    modifies socket, re
    ensures socket.Valid() && re.Valid() && AllOk(re.fed, MAX_INBOUND_PAYLOAD) && socket.consumed == Join(re.fed) + held
    ensures Waits(re.maxBytes, old(re.fed), old(re.pending), re.fed, re.pending, accept, held, r)
    ensures r.Accepted? && NoControl(accept) ==> held == [] && re.pending.None? && AtBoundary(socket, re)
  {
    var fb := new FrameBuf(MAX_INBOUND_PAYLOAD);
    assert Join(re.fed) + [] == Join(re.fed);
    ghost var fed0, pending0 := re.fed, re.pending;
    NoWait(re.maxBytes, re.fed, re.pending, accept);
    assert Resting(socket, re, fb);
    hide Waits, Await, Join, AllOk, Resting, NoControl, FrameBuf.Valid, FrameBuf.Held, SegmentReassembler.Valid,
         Socket.Valid;
    var left := rounds;
    r, held := Stopped(Late), [];
    while left > 0
      invariant fresh(fb) && fb.maxPayload == MAX_INBOUND_PAYLOAD && Resting(socket, re, fb) && fb.Valid()
                && fb.Held() == held == []
      invariant Waits(re.maxBytes, fed0, pending0, re.fed, re.pending, accept, [], Stopped(Late))
      invariant r == Stopped(Late)
    {
      left := left - 1;
      ghost var before, mid := re.fed, re.pending;
      var next := Next(socket, re, fb, accept);
      CapIsSmall(socket, re, fb);
      held := fb.Held();
      r := if next.Some? then next.value else Stopped(Late);
      WaitOn(re.maxBytes, fed0, pending0, before, mid, re.fed, re.pending, accept, held, r);
      if next.Some? { break; }
    }
    RestingParts(socket, re, fb);
    if r.Accepted? && NoControl(accept) {
      AcceptedBoundary(re.maxBytes, fed0, pending0, re.fed, re.pending, accept, held, r);
      BoundaryAgain(socket, re);
    }
  }

  lemma {:induction false} AcceptedBoundary(cap: nat, from: seq<Frame>, was: Option<Pending>, fed: seq<Frame>,
                                            pending: Option<Pending>, accept: seq<byte> -> bool, held: seq<byte>,
                                            end: WaitEnd)
    requires Waits(cap, from, was, fed, pending, accept, held, end) && end.Accepted? && NoControl(accept)
    ensures held == [] && pending.None?
  {
    hide Await;
    AcceptedLeavesNothing(cap, was, fed[|from|..], accept, held, Late);
  }

  /** A read that returns a message or an error returns the last frame's. */
  lemma {:induction false} DeliveredLast(cap: nat, pending: Option<Pending>, fs: seq<Frame>, accept: seq<byte> -> bool,
                                         got: ReadOutcome, after: Option<Pending>)
    requires HeadersOk(fs) && PendingOk(cap, pending) && cap <= U32_MAX && (got.Message? || got.DecodeError?)
    requires Replay(cap, pending, fs) == (after, Delivered(got)) && ByLast(cap, pending, fs)
    ensures Await(cap, pending, fs, accept, [], Late) ==
              (after, [],
               if got.DecodeError? then Malformed else if accept(got.msg) then Accepted(got.msg) else Stopped(Late))
  {
    var n := |fs| - 1;
    var f, mid := fs[n], Replay(cap, pending, fs[..n]).0;
    assert fs == fs[..n] + [f];
    ReplayOne(cap, pending, fs[..n], mid, f);
    AwaitDelivery(cap, pending, fs[..n], f, accept, [], Late);
  }

  lemma {:induction false} RestingParts(socket: Socket, re: SegmentReassembler, fb: FrameBuf)
    requires Resting(socket, re, fb)
    ensures socket.Valid() && re.Valid() && AllOk(re.fed, fb.maxPayload) && socket.consumed == Join(re.fed) + fb.Held()
  {
  }

  lemma {:induction false} BoundaryAgain(socket: Socket, re: SegmentReassembler)
    requires socket.Valid() && re.Valid() && AllOk(re.fed, MAX_INBOUND_PAYLOAD) && socket.consumed == Join(re.fed) + []
    ensures AtBoundary(socket, re)
  {
    assert Join(re.fed) + [] == Join(re.fed);
  }
}
