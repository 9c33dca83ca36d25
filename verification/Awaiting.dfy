/** Waiting for one message among the frames of a connection. */
module Awaiting {
  import opened Options
  import opened PvaFrame
  import opened Segments

  /** Why a wait stopped without an answer: the deadline, a dead socket, a frame over the limit, or
      the caller dropping it. */
  datatype Stop = Late | Lost | Over | Gone

  datatype WaitEnd = Accepted(msg: seq<byte>) | Malformed | Stopped(why: Stop)

  /** The reference: frames go to the reassembler one by one; a message that is accepted ends the
      wait, one that is not is passed over, an error ends it too. When the frames run out, `held`
      is what has come of the next one and `why` what stopped the wait. The result is what the
      reassembler then holds, what of a frame is held, and the end. */
  function Await(cap: nat, pending: Option<Pending>, fs: seq<Frame>, accept: seq<byte> -> bool, held: seq<byte>,
                 why: Stop)
      : (r: (Option<Pending>, seq<byte>, WaitEnd))
    requires HeadersOk(fs) && PendingOk(cap, pending) && cap <= U32_MAX
    ensures PendingOk(cap, r.0)
    decreases |fs|
  {
    if |fs| == 0 then (pending, held, Stopped(why))
    else
      PushKeepsCap(cap, pending, fs[0]);
      var (next, r) := Pushed(cap, pending, fs[0]);
      if r.Err? then (next, [], Malformed)
      else if !r.value.Absorbed? && accept(r.value.msg) then (next, [], Accepted(r.value.msg))
      else Await(cap, next, fs[1..], accept, held, why)
  }

  /** Only application messages are waited for. */
  ghost predicate NoControl(accept: seq<byte> -> bool) {
    forall m :: accept(m) ==> |m| >= HEADER && !IsControl(m[..HEADER])
  }

  /** An accepted answer leaves the connection at a frame boundary with nothing half-assembled,
      whatever was being assembled before. */
  lemma {:induction false} AcceptedLeavesNothing(cap: nat, pending: Option<Pending>, fs: seq<Frame>,
                                                 accept: seq<byte> -> bool, held: seq<byte>, why: Stop)
    requires HeadersOk(fs) && PendingOk(cap, pending) && cap <= U32_MAX && NoControl(accept)
    requires Await(cap, pending, fs, accept, held, why).2.Accepted?
    ensures Await(cap, pending, fs, accept, held, why).0.None? && Await(cap, pending, fs, accept, held, why).1 == []
    decreases |fs|
  {
    PushKeepsCap(cap, pending, fs[0]);
    var (next, r) := Pushed(cap, pending, fs[0]);
    assert Wire(fs[0])[..HEADER] == fs[0].header;
    if !(r.Ok? && !r.value.Absorbed? && accept(r.value.msg)) {
      AcceptedLeavesNothing(cap, next, fs[1..], accept, held, why);
    }
  }

  /** What is held of a frame is held only if the wait stops, and without a frame it does. */
  lemma {:induction false} AwaitHolds(cap: nat, pending: Option<Pending>, fs: seq<Frame>, accept: seq<byte> -> bool,
                                      held: seq<byte>, why: Stop)
    requires HeadersOk(fs) && PendingOk(cap, pending) && cap <= U32_MAX
    ensures var (_, left, end) := Await(cap, pending, fs, accept, held, why);
            left == (if end.Stopped? then held else []) && (|fs| == 0 ==> end.Stopped?)
    decreases |fs|
  {
    if |fs| > 0 {
      PushKeepsCap(cap, pending, fs[0]);
      AwaitHolds(cap, Pushed(cap, pending, fs[0]).0, fs[1..], accept, held, why);
    }
  }

  /** Frames that end nothing may be taken off the front. */
  lemma {:induction false} AwaitAppend(cap: nat, pending: Option<Pending>, a: seq<Frame>, b: seq<Frame>,
                                       accept: seq<byte> -> bool, held: seq<byte>, why: Stop)
    requires HeadersOk(a) && HeadersOk(b) && PendingOk(cap, pending) && cap <= U32_MAX
    requires Await(cap, pending, a, accept, [], Late).2.Stopped?
    ensures HeadersOk(a + b)
    ensures var mid := Await(cap, pending, a, accept, [], Late).0;
            Await(cap, pending, a + b, accept, held, why) == Await(cap, mid, b, accept, held, why)
    decreases |a|
  {
    if |a| == 0 {
      assert a + b == b;
    } else {
      PushKeepsCap(cap, pending, a[0]);
      assert (a + b)[0] == a[0] && (a + b)[1..] == a[1..] + b;
      AwaitAppend(cap, Pushed(cap, pending, a[0]).0, a[1..], b, accept, held, why);
    }
  }

  /** Frames that deliver nothing end nothing. */
  lemma {:induction false} AwaitSilence(cap: nat, pending: Option<Pending>, fs: seq<Frame>, accept: seq<byte> -> bool,
                                        held: seq<byte>, why: Stop)
    requires HeadersOk(fs) && PendingOk(cap, pending) && cap <= U32_MAX && Replay(cap, pending, fs).1 == []
    ensures Await(cap, pending, fs, accept, held, why) == (Replay(cap, pending, fs).0, held, Stopped(why))
    decreases |fs|
  {
    if |fs| > 0 {
      PushKeepsCap(cap, pending, fs[0]);
      var (next, r) := Pushed(cap, pending, fs[0]);
      assert DeliveryOf(r) + Replay(cap, next, fs[1..]).1 == [];
      AwaitSilence(cap, next, fs[1..], accept, held, why);
    }
  }

  /** A frame that delivers a message, or an error, after some that deliver nothing. */
  lemma {:induction false} AwaitDelivery(cap: nat, pending: Option<Pending>, fs: seq<Frame>, f: Frame,
                                         accept: seq<byte> -> bool, held: seq<byte>, why: Stop)
    requires HeadersOk(fs) && |f.header| == HEADER && PendingOk(cap, pending) && cap <= U32_MAX
    requires Replay(cap, pending, fs).1 == []
    ensures HeadersOk(fs + [f])
    ensures var (next, r) := Pushed(cap, Replay(cap, pending, fs).0, f);
            Await(cap, pending, fs + [f], accept, held, why) ==
              if r.Err? then (next, [], Malformed)
              else if !r.value.Absorbed? && accept(r.value.msg) then (next, [], Accepted(r.value.msg))
              else (next, held, Stopped(why))
  {
    AwaitSilence(cap, pending, fs, accept, [], Late);
    AwaitAppend(cap, pending, fs, [f], accept, held, why);
    var mid := Replay(cap, pending, fs).0;
    PushKeepsCap(cap, mid, f);
    assert [f][1..] == [];
    assert Await(cap, Pushed(cap, mid, f).0, [], accept, held, why) == (Pushed(cap, mid, f).0, held, Stopped(why));
  }
}
