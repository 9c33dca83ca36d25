/** Reassembly of segmented PVA messages. */
module Segments {
  import opened PvaFrame
  import opened Options
  import opened Seqs

  const U32_MAX: nat := 0xFFFF_FFFF

  datatype Pending = Pending(header: seq<byte>, payloads: seq<seq<byte>>, total: nat)

  datatype SegmentError =
    | Interrupted(expected: byte, got: byte)
    | Unexpected(flags: byte)
    | Mismatch(expected: byte, got: byte)
    | TooLarge(total: nat, limit: nat)

  datatype Outcome = Complete(msg: seq<byte>) | Absorbed | Control(msg: seq<byte>)

  function Concat(ps: seq<seq<byte>>): seq<byte>
    decreases |ps|
  {
    if ps == [] then [] else Concat(ps[..|ps| - 1]) + ps[|ps| - 1]
  }

  lemma {:induction false} ConcatPush(ps: seq<seq<byte>>, p: seq<byte>)
    ensures Concat(ps + [p]) == Concat(ps) + p
  {
    assert (ps + [p])[..|ps|] == ps;
  }

  /** A standalone message: the header with its segment bits cleared and its length rewritten. */
  function Rebuilt(h: seq<byte>, payload: seq<byte>): seq<byte>
    requires |h| == HEADER && |payload| <= U32_MAX
  {
    h[..2] + [h[2] - 16 * SegmentCode(h), h[3]] + ToBytes(|payload|, IsBig(h)) + payload
  }

  /** One frame pushed: the new state and what came of it. */
  function Pushed(max: nat, pending: Option<Pending>, f: Frame): (Option<Pending>, Result<Outcome, SegmentError>)
    requires |f.header| == HEADER && PendingOk(max, pending) && max <= U32_MAX
  {
    var flags, command := f.header[2], Command(f.header);
    if IsControl(f.header) then (pending, Ok(Control(Wire(f))))
    else
      match SegmentCode(f.header)
      case 0 =>
        if pending.Some? then (None, Err(Interrupted(Command(pending.value.header), command)))
        else (None, Ok(Complete(Wire(f))))
      case 1 =>
        if pending.Some? then (None, Err(Unexpected(flags)))
        else if |f.payload| > max then (None, Err(TooLarge(|f.payload|, max)))
        else (Some(Pending(f.header, [f.payload], |f.payload|)), Ok(Absorbed))
      case code =>
        if pending.None? then (None, Err(Unexpected(flags)))
        else
          var p := pending.value;
          var total := p.total + |f.payload|;
          if Command(p.header) != command || Direction(p.header) != Direction(f.header)
          then (None, Err(Mismatch(Command(p.header), command)))
          else if total > max then (None, Err(TooLarge(total, max)))
          else
            ConcatPush(p.payloads, f.payload);
            if code == 2 then (None, Ok(Complete(Rebuilt(p.header, Concat(p.payloads + [f.payload])))))
            else (Some(Pending(p.header, p.payloads + [f.payload], total)), Ok(Absorbed))
  }

  /** What is held: a first segment's header and payloads within the cap, correctly totalled. */
  predicate PendingOk(max: nat, pending: Option<Pending>) {
    pending.Some? ==>
      var p := pending.value;
      && |p.header| == HEADER && !IsControl(p.header) && SegmentCode(p.header) == 1
      && p.total == |Concat(p.payloads)| <= max
  }

  /** Held bytes never exceed the cap, whatever is pushed; and any error leaves nothing held. */
  lemma {:induction false} PushKeepsCap(max: nat, pending: Option<Pending>, f: Frame)
    requires |f.header| == HEADER && PendingOk(max, pending) && max <= U32_MAX
    ensures var (next, r) := Pushed(max, pending, f);
            PendingOk(max, next) && (r.Err? ==> next.None?) && (r.Ok? && r.value.Control? ==> next == pending)
  {
    ConcatPush([], f.payload);
    assert [] + [f.payload] == [f.payload];
    if pending.Some? {
      ConcatPush(pending.value.payloads, f.payload);
    }
  }

  /** Rebuild a message: patch the header bytes, then append the payloads one by one. */
  method Finish(p: Pending) returns (out: seq<byte>)
    requires |p.header| == HEADER && p.total == |Concat(p.payloads)| <= U32_MAX
    ensures out == Rebuilt(p.header, Concat(p.payloads))
  {
    var header := p.header;
    var big := IsBig(header);
    header := header[2 := header[2] - 16 * SegmentCode(header)];
    var len := ToBytes(p.total, big);
    header := header[4 := len[0]][5 := len[1]][6 := len[2]][7 := len[3]];
    out := header;
    assert header == Rebuilt(p.header, Concat(p.payloads))[..HEADER];
    for i := 0 to |p.payloads|
      invariant out == header + Concat(p.payloads[..i])
    {
      assert p.payloads[..i + 1] == p.payloads[..i] + [p.payloads[i]];
      ConcatPush(p.payloads[..i], p.payloads[i]);
      Assoc(header, Concat(p.payloads[..i]), p.payloads[i]);
      out := out + p.payloads[i];
    }
    assert p.payloads[..|p.payloads|] == p.payloads;
  }

  /** The reassembler of one connection. `fed` records the frames pushed so far. */
  class SegmentReassembler {
    const maxBytes: nat
    var pending: Option<Pending>
    ghost var fed: seq<Frame>

    ghost predicate Valid()
      reads this
    {
      maxBytes <= U32_MAX && PendingOk(maxBytes, pending)
    }

    /** The cap is clamped to what a payload length field can hold. */
    constructor (maxBytes: nat)
      ensures Valid() && pending.None? && fed == []
      ensures this.maxBytes == if maxBytes <= U32_MAX then maxBytes else U32_MAX
    {
      this.maxBytes := if maxBytes <= U32_MAX then maxBytes else U32_MAX;
      pending := None;
      fed := [];
    }

    method Push(header: seq<byte>, payload: seq<byte>) returns (r: Result<Outcome, SegmentError>)
      requires Valid() && |header| == HEADER
      modifies this
      ensures Valid() && fed == old(fed) + [Frame(header, payload)]
      ensures (pending, r) == Pushed(maxBytes, old(pending), Frame(header, payload))
    {
      PushKeepsCap(maxBytes, pending, Frame(header, payload));
      fed := fed + [Frame(header, payload)];
      if IsControl(header) { return Ok(Control(header + payload)); }
      var flags, command := header[2], Command(header);
      var taken := pending;
      pending := None;
      match SegmentCode(header) {
        case 0 =>
          if taken.Some? { return Err(Interrupted(Command(taken.value.header), command)); }
          return Ok(Complete(header + payload));
        case 1 =>
          if taken.Some? { return Err(Unexpected(flags)); }
          if |payload| > maxBytes { return Err(TooLarge(|payload|, maxBytes)); }
          pending := Some(Pending(header, [payload], |payload|));
          return Ok(Absorbed);
        case code =>
          if taken.None? { return Err(Unexpected(flags)); }
          var p := taken.value;
          if Command(p.header) != command || Direction(p.header) != Direction(header) {
            return Err(Mismatch(Command(p.header), command));
          }
          var total := p.total + |payload|;
          if total > maxBytes { return Err(TooLarge(total, maxBytes)); }
          ConcatPush(p.payloads, payload);
          p := Pending(p.header, p.payloads + [payload], total);
          if code == 2 {
            var msg := Finish(p);
            return Ok(Complete(msg));
          }
          pending := Some(p);
          return Ok(Absorbed);
      }
    }
  }

  // ----- Runs of frames -----

  /** What a run of frames hands to the caller: messages and decode errors, in order. */
  datatype Delivery = Got(msg: seq<byte>) | Bad(error: SegmentError)

  function DeliveryOf(r: Result<Outcome, SegmentError>): seq<Delivery> {
    match r
    case Err(e) => [Bad(e)]
    case Ok(Complete(m)) => [Got(m)]
    case Ok(Control(m)) => [Got(m)]
    case Ok(Absorbed) => []
  }

  predicate HeadersOk(fs: seq<Frame>) {
    forall i :: 0 <= i < |fs| ==> |fs[i].header| == HEADER
  }

  function Replay(max: nat, pending: Option<Pending>, fs: seq<Frame>): (r: (Option<Pending>, seq<Delivery>))
    requires HeadersOk(fs) && PendingOk(max, pending) && max <= U32_MAX
    ensures PendingOk(max, r.0)
    decreases |fs|
  {
    if fs == [] then (pending, [])
    else
      PushKeepsCap(max, pending, fs[0]);
      var (next, r) := Pushed(max, pending, fs[0]);
      var (last, rest) := Replay(max, next, fs[1..]);
      (last, DeliveryOf(r) + rest)
  }

  lemma {:induction false} ReplayAppend(max: nat, pending: Option<Pending>, a: seq<Frame>, b: seq<Frame>)
    requires HeadersOk(a) && HeadersOk(b) && PendingOk(max, pending) && max <= U32_MAX
    ensures HeadersOk(a + b)
    ensures var (mid, first) := Replay(max, pending, a);
            var (last, second) := Replay(max, mid, b);
            Replay(max, pending, a + b) == (last, first + second)
    decreases |a|
  {
    if a == [] {
      assert a + b == b;
      assert [] + Replay(max, pending, b).1 == Replay(max, pending, b).1;
    } else {
      assert (a + b)[0] == a[0] && (a + b)[1..] == a[1..] + b;
      PushKeepsCap(max, pending, a[0]);
      var (next, r) := Pushed(max, pending, a[0]);
      ReplayAppend(max, next, a[1..], b);
      var (mid, first) := Replay(max, next, a[1..]);
      Assoc(DeliveryOf(r), first, Replay(max, mid, b).1);
    }
  }

  // ----- Cutting a message into segments -----

  /** The header of one segment of the message under `h`: code 1 first, 3 middle, 2 last. */
  function SegmentHeader(h: seq<byte>, code: nat, len: nat): (r: seq<byte>)
    requires |h| == HEADER && SegmentCode(h) == 0 && 1 <= code <= 3 && len <= U32_MAX
  {
    h[..2] + [h[2] + 16 * code, h[3]] + ToBytes(len, IsBig(h))
  }

  lemma {:induction false} SegmentHeaderFields(h: seq<byte>, code: nat, len: nat)
    requires |h| == HEADER && SegmentCode(h) == 0 && 1 <= code <= 3 && len <= U32_MAX
    ensures var s := SegmentHeader(h, code, len);
            && |s| == HEADER && SegmentCode(s) == code && IsControl(s) == IsControl(h)
            && Command(s) == Command(h) && Direction(s) == Direction(h) && IsBig(s) == IsBig(h)
            && PayloadLength(s) == len
  {
    var s := SegmentHeader(h, code, len);
    var f: int, g: int := h[2], s[2];
    FlagArithmetic(f, code);
    assert g == f + 16 * code;
    assert s[4..8] == ToBytes(len, IsBig(h));
    BytesRoundTrip(len, IsBig(h));
  }

  /** The flag fields of a byte given by its top two bits, segment code and low nibble. */
  lemma {:induction false} FlagFields(hi: int, code: int, lo: int)
    requires 0 <= hi < 4 && 0 <= code < 4 && 0 <= lo < 16
    ensures var f := 64 * hi + 16 * code + lo;
            && 0 <= f < 256 && f % 2 == lo % 2 && f / 16 % 4 == code && f / 64 % 2 == hi % 2 && f / 128 == hi / 2
            && f / 64 == hi && f % 16 == lo
  {
    var f := 64 * hi + 16 * code + lo;
    assert f / 16 == 4 * hi + code;
    assert (4 * hi + code) % 4 == code;
    assert f / 64 == hi;
  }

  lemma {:induction false} FlagArithmetic(f: int, code: int)
    requires 0 <= f < 256 && 0 <= code < 4
    ensures var g := f - 16 * (f / 16 % 4) + 16 * code;
            0 <= g < 256 && g % 2 == f % 2 && g / 16 % 4 == code && g / 64 % 2 == f / 64 % 2 && g / 128 == f / 128
  {
    var hi, was, lo := f / 64, f / 16 % 4, f % 16;
    assert f == 64 * hi + 16 * was + lo;
    FlagFields(hi, was, lo);
    FlagFields(hi, code, lo);
  }

  function CodeAt(i: nat, n: nat): nat {
    if i == 0 then 1 else if i + 1 < n then 3 else 2
  }

  predicate Cuttable(h: seq<byte>, pieces: seq<seq<byte>>) {
    && |h| == HEADER && !IsControl(h) && SegmentCode(h) == 0
    && |pieces| >= 2
    && forall i :: 0 <= i < |pieces| ==> |pieces[i]| <= U32_MAX
  }

  /** The message under `h` cut into the given pieces, two or more. */
  function Cut(h: seq<byte>, pieces: seq<seq<byte>>): (fs: seq<Frame>)
    requires Cuttable(h, pieces)
    ensures |fs| == |pieces|
  {
    seq(|pieces|, i requires 0 <= i < |pieces| =>
      Frame(SegmentHeader(h, CodeAt(i, |pieces|), |pieces[i]|), pieces[i]))
  }

  /** The frames that are not control frames. */
  function DataFrames(fs: seq<Frame>): seq<Frame>
    requires HeadersOk(fs)
    decreases |fs|
  {
    if fs == [] then []
    else (if IsControl(fs[0].header) then [] else [fs[0]]) + DataFrames(fs[1..])
  }

  /** Control frames are delivered as they come; the last data frame delivers `msg`. */
  function Interleaved(fs: seq<Frame>, msg: seq<byte>): seq<Delivery>
    requires HeadersOk(fs)
    decreases |fs|
  {
    if fs == [] then []
    else
      (if IsControl(fs[0].header) then [Got(Wire(fs[0]))]
       else if DataFrames(fs[1..]) == [] then [Got(msg)] else [])
      + Interleaved(fs[1..], msg)
  }

  lemma {:induction false} ConcatPrefix(ps: seq<seq<byte>>, k: nat)
    requires k <= |ps|
    ensures |Concat(ps[..k])| <= |Concat(ps)|
    decreases |ps| - k
  {
    if k < |ps| {
      assert ps[..k + 1] == ps[..k] + [ps[k]];
      ConcatPush(ps[..k], ps[k]);
      ConcatPrefix(ps, k + 1);
    } else {
      assert ps[..k] == ps;
    }
  }

  /** The state after `k` segments of the cut have been absorbed. */
  function Absorbing(h: seq<byte>, pieces: seq<seq<byte>>, k: nat): Option<Pending>
    requires Cuttable(h, pieces) && k <= |pieces|
  {
    if k == 0 || k == |pieces| then None
    else Some(Pending(SegmentHeader(h, 1, |pieces[0]|), pieces[..k], |Concat(pieces[..k])|))
  }

  lemma {:induction false} AbsorbingOk(max: nat, h: seq<byte>, pieces: seq<seq<byte>>, k: nat)
    requires Cuttable(h, pieces) && k <= |pieces| && |Concat(pieces)| <= max <= U32_MAX
    ensures PendingOk(max, Absorbing(h, pieces, k))
  {
    SegmentHeaderFields(h, 1, |pieces[0]|);
    ConcatPrefix(pieces, k);
  }

  lemma {:induction false} PushControl(max: nat, pending: Option<Pending>, f: Frame)
    requires |f.header| == HEADER && IsControl(f.header) && PendingOk(max, pending) && max <= U32_MAX
    ensures Pushed(max, pending, f) == (pending, Ok(Control(Wire(f))))
  {
  }

  lemma {:induction false} PushFirst(max: nat, f: Frame)
    requires |f.header| == HEADER && !IsControl(f.header) && SegmentCode(f.header) == 1 && |f.payload| <= max <= U32_MAX
    ensures Pushed(max, None, f) == (Some(Pending(f.header, [f.payload], |f.payload|)), Ok(Absorbed))
  {
  }

  lemma {:induction false} PushNext(max: nat, p: Pending, f: Frame)
    requires |f.header| == HEADER && !IsControl(f.header) && SegmentCode(f.header) >= 2
    requires PendingOk(max, Some(p)) && max <= U32_MAX && p.total + |f.payload| <= max
    requires Command(p.header) == Command(f.header) && Direction(p.header) == Direction(f.header)
    ensures |Concat(p.payloads + [f.payload])| == p.total + |f.payload|
    ensures Pushed(max, Some(p), f) ==
            if SegmentCode(f.header) == 2 then (None, Ok(Complete(Rebuilt(p.header, Concat(p.payloads + [f.payload])))))
            else (Some(Pending(p.header, p.payloads + [f.payload], p.total + |f.payload|)), Ok(Absorbed))
  {
    ConcatPush(p.payloads, f.payload);
  }

  /** Pushing segment `k` of a cut advances the absorbed prefix; the last one completes it. */
  predicate SegmentAdvances(max: nat, h: seq<byte>, pieces: seq<seq<byte>>, k: nat)
    requires Cuttable(h, pieces) && k < |pieces| && |Concat(pieces)| <= max <= U32_MAX
    requires PendingOk(max, Absorbing(h, pieces, k)) && |Cut(h, pieces)[k].header| == HEADER
    requires |SegmentHeader(h, 1, |pieces[0]|)| == HEADER
  {
    var (next, r) := Pushed(max, Absorbing(h, pieces, k), Cut(h, pieces)[k]);
    && next == Absorbing(h, pieces, k + 1)
    && r == Ok(if k + 1 == |pieces| then Complete(Rebuilt(SegmentHeader(h, 1, |pieces[0]|), Concat(pieces)))
               else Absorbed)
  }

  lemma {:induction false} FirstSegment(max: nat, h: seq<byte>, pieces: seq<seq<byte>>)
    requires Cuttable(h, pieces) && |Concat(pieces)| <= max <= U32_MAX
    ensures SegmentAdvances(max, h, pieces, 0)
  {
    hide SegmentHeader, Concat, Rebuilt, Pushed, SegmentCode, IsControl;
    SegmentHeaderFields(h, 1, |pieces[0]|);
    assert pieces[..1] == [pieces[0]];
    ConcatOne(pieces[0]);
    ConcatPrefix(pieces, 1);
    PushFirst(max, Cut(h, pieces)[0]);
  }

  lemma {:induction false} LaterSegment(max: nat, h: seq<byte>, pieces: seq<seq<byte>>, k: nat)
    requires Cuttable(h, pieces) && 0 < k < |pieces| && |Concat(pieces)| <= max <= U32_MAX
    requires PendingOk(max, Absorbing(h, pieces, k)) && |Cut(h, pieces)[k].header| == HEADER
    requires |SegmentHeader(h, 1, |pieces[0]|)| == HEADER
    ensures SegmentAdvances(max, h, pieces, k)
  {
    hide SegmentHeader, Concat, Rebuilt, Pushed, SegmentCode, IsControl, Command, Direction;
    SegmentHeaderFields(h, CodeAt(k, |pieces|), |pieces[k]|);
    SegmentHeaderFields(h, 1, |pieces[0]|);
    assert pieces[..k + 1] == pieces[..k] + [pieces[k]];
    ConcatPush(pieces[..k], pieces[k]);
    ConcatPrefix(pieces, k + 1);
    assert k + 1 == |pieces| ==> pieces[..k + 1] == pieces;
    PushNext(max, Absorbing(h, pieces, k).value, Cut(h, pieces)[k]);
  }

  lemma {:induction false} SegmentPushed(max: nat, h: seq<byte>, pieces: seq<seq<byte>>, k: nat)
    requires Cuttable(h, pieces) && k < |pieces| && |Concat(pieces)| <= max <= U32_MAX
    ensures PendingOk(max, Absorbing(h, pieces, k)) && |Cut(h, pieces)[k].header| == HEADER
    ensures |SegmentHeader(h, 1, |pieces[0]|)| == HEADER
    ensures SegmentAdvances(max, h, pieces, k)
  {
    hide SegmentAdvances, Pushed, Concat, PendingOk, SegmentHeader;
    AbsorbingOk(max, h, pieces, k);
    SegmentHeaderFields(h, CodeAt(k, |pieces|), |pieces[k]|);
    SegmentHeaderFields(h, 1, |pieces[0]|);
    if k == 0 {
      FirstSegment(max, h, pieces);
    } else {
      LaterSegment(max, h, pieces, k);
    }
  }

  lemma {:induction false} ConcatOne(p: seq<byte>)
    ensures Concat([p]) == p
  {
    assert [p][..0] == [] && [] + p == p;
  }

  /** From segment `k` on, with any control frames in between. */
  lemma {:induction false} ReassembleFrom(max: nat, h: seq<byte>, pieces: seq<seq<byte>>, k: nat, fs: seq<Frame>)
    requires Cuttable(h, pieces) && k <= |pieces| && |Concat(pieces)| <= max <= U32_MAX
    requires HeadersOk(fs) && DataFrames(fs) == Cut(h, pieces)[k..]
    ensures PendingOk(max, Absorbing(h, pieces, k))
    ensures Replay(max, Absorbing(h, pieces, k), fs)
            == (None, Interleaved(fs, Rebuilt(SegmentHeader(h, 1, |pieces[0]|), Concat(pieces))))
    decreases |fs|
  {
    hide Pushed, Concat, Rebuilt, SegmentHeader, SegmentCode, Cut, PendingOk, IsControl;
    AbsorbingOk(max, h, pieces, k);
    if fs != [] {
      if IsControl(fs[0].header) {
        assert DataFrames(fs) == [] + DataFrames(fs[1..]);
        PushControl(max, Absorbing(h, pieces, k), fs[0]);
        ReassembleFrom(max, h, pieces, k, fs[1..]);
      } else {
        assert DataFrames(fs) == [fs[0]] + DataFrames(fs[1..]);
        assert Cut(h, pieces)[k..][0] == Cut(h, pieces)[k];
        assert Cut(h, pieces)[k..][1..] == Cut(h, pieces)[k + 1..];
        SegmentPushed(max, h, pieces, k);
        ReassembleFrom(max, h, pieces, k + 1, fs[1..]);
      }
    }
  }

  /** Round trip: however a message is cut, and whatever control frames are interleaved, the
      reassembler delivers every control frame in place and, at the last segment, the message
      itself under its original header with the length rewritten. */
  lemma {:induction false} CutReassembles(max: nat, h: seq<byte>, pieces: seq<seq<byte>>, fs: seq<Frame>)
    requires Cuttable(h, pieces) && |Concat(pieces)| <= max <= U32_MAX
    requires HeadersOk(fs) && DataFrames(fs) == Cut(h, pieces)
    ensures Replay(max, None, fs) == (None, Interleaved(fs, Rebuilt(h, Concat(pieces))))
    ensures Rebuilt(h, Concat(pieces)) == h[..4] + ToBytes(|Concat(pieces)|, IsBig(h)) + Concat(pieces)
  {
    assert Cut(h, pieces)[0..] == Cut(h, pieces);
    ReassembleFrom(max, h, pieces, 0, fs);
    RebuiltOfFirst(h, |pieces[0]|, Concat(pieces));
  }

  lemma {:induction false} RebuiltOfFirst(h: seq<byte>, len: nat, payload: seq<byte>)
    requires |h| == HEADER && SegmentCode(h) == 0 && len <= U32_MAX && |payload| <= U32_MAX
    ensures Rebuilt(SegmentHeader(h, 1, len), payload) == Rebuilt(h, payload)
    ensures Rebuilt(h, payload) == h[..4] + ToBytes(|payload|, IsBig(h)) + payload
  {
    var s := SegmentHeader(h, 1, len);
    SegmentHeaderFields(h, 1, len);
    assert s[..2] == h[..2] && s[2] == h[2] + 16 && s[3] == h[3];
    assert h[..4] == h[..2] + [h[2], h[3]];
  }

  // ----- Messages are frames -----

  lemma {:induction false} RebuiltIsFrame(h: seq<byte>, payload: seq<byte>)
    requires |h| == HEADER && !IsControl(h) && |payload| <= U32_MAX
    ensures var m := Rebuilt(h, payload);
            && |m| == HEADER + |payload| && m[HEADER..] == payload
            && !IsControl(m[..HEADER]) && SegmentCode(m[..HEADER]) == 0 && Declared(m[..HEADER]) == |payload|
  {
    var m := Rebuilt(h, payload);
    var r := m[..HEADER];
    assert r == h[..2] + [h[2] - 16 * SegmentCode(h), h[3]] + ToBytes(|payload|, IsBig(h));
    FlagArithmetic(h[2], 0);
    assert r[2] == h[2] - 16 * SegmentCode(h);
    assert r[4..8] == ToBytes(|payload|, IsBig(h));
    BytesRoundTrip(|payload|, IsBig(h));
  }

  /** A message that reads back as itself under a frame limit and a reassembler cap: the splitter
      finds exactly one frame in it, and the reassembler hands that frame straight back. */
  ghost predicate ReadsBack(m: seq<byte>, limit: nat, cap: nat)
    requires cap <= U32_MAX
  {
    && |m| >= HEADER
    && Split(m, limit) == ([Frame(m[..HEADER], m[HEADER..])], [])
    && Replay(cap, None, [Frame(m[..HEADER], m[HEADER..])]) == (None, [Got(m)])
  }

  /** A message that is one whole frame, a control frame or an unsegmented one. */
  ghost predicate IsFrame(m: seq<byte>) {
    && |m| >= HEADER && |m| - HEADER == Declared(m[..HEADER])
    && (IsControl(m[..HEADER]) || SegmentCode(m[..HEADER]) == 0)
  }

  /** Such a message reads back exactly under the limits its payload is within. */
  lemma {:induction false} FrameReadsBackIff(m: seq<byte>, limit: nat, cap: nat)
    requires IsFrame(m) && cap <= U32_MAX
    ensures ReadsBack(m, limit, cap) <==> |m| - HEADER <= limit
  {
    var f := Frame(m[..HEADER], m[HEADER..]);
    assert Wire(f) == m && m + [] == m;
    if |m| - HEADER <= limit {
      SplitFirst(f, [], limit);
      assert Split([], limit) == ([], []) && [f] + [] == [f];
      var r := Pushed(cap, None, f).1;
      assert [f][1..] == [] && DeliveryOf(r) == [Got(m)];
      assert Replay(cap, Pushed(cap, None, f).0, []) == (None, []);
      assert [Got(m)] + [] == [Got(m)];
    }
  }

  /** A delivered message is a whole frame, no larger than the frame limit or the cap. */
  ghost predicate Sound(m: seq<byte>, limit: nat, cap: nat) {
    IsFrame(m) && (|m| - HEADER <= limit || |m| - HEADER <= cap)
  }

  /** Every message delivered for frames off the wire, whatever the frame limit and the cap, is
      itself a frame within one of them. */
  lemma {:induction false} DeliveriesAreFrames(limit: nat, cap: nat, pending: Option<Pending>, fs: seq<Frame>, i: nat)
    requires AllOk(fs, limit) && HeadersOk(fs) && PendingOk(cap, pending) && cap <= U32_MAX
    requires i < |Replay(cap, pending, fs).1| && Replay(cap, pending, fs).1[i].Got?
    ensures Sound(Replay(cap, pending, fs).1[i].msg, limit, cap)
    decreases |fs|
  {
    PushKeepsCap(cap, pending, fs[0]);
    var (next, r) := Pushed(cap, pending, fs[0]);
    var first := DeliveryOf(r);
    assert Replay(cap, pending, fs).1 == first + Replay(cap, next, fs[1..]).1;
    if i < |first| {
      MessageIsFrame(limit, cap, pending, fs[0]);
    } else {
      DeliveriesAreFrames(limit, cap, next, fs[1..], i - |first|);
    }
  }

  lemma {:induction false} MessageIsFrame(limit: nat, cap: nat, pending: Option<Pending>, f: Frame)
    requires FrameOk(f, limit) && PendingOk(cap, pending) && cap <= U32_MAX
    requires DeliveryOf(Pushed(cap, pending, f).1) != [] && DeliveryOf(Pushed(cap, pending, f).1)[0].Got?
    ensures Sound(DeliveryOf(Pushed(cap, pending, f).1)[0].msg, limit, cap)
  {
    if IsControl(f.header) || SegmentCode(f.header) == 0 {
      assert Wire(f)[..HEADER] == f.header;
    } else {
      var p := pending.value;
      ConcatPush(p.payloads, f.payload);
      RebuiltIsFrame(p.header, Concat(p.payloads + [f.payload]));
    }
  }

  /** So a message reads back as itself under any frame limit at least as large as both. */
  lemma {:induction false} DeliveriesReadBack(limit: nat, cap: nat, pending: Option<Pending>, fs: seq<Frame>, i: nat,
                                              wide: nat)
    requires AllOk(fs, limit) && HeadersOk(fs) && PendingOk(cap, pending) && cap <= U32_MAX
    requires i < |Replay(cap, pending, fs).1| && Replay(cap, pending, fs).1[i].Got?
    requires limit <= wide && cap <= wide
    ensures ReadsBack(Replay(cap, pending, fs).1[i].msg, wide, cap)
  {
    hide Replay;
    DeliveriesAreFrames(limit, cap, pending, fs, i);
    FrameReadsBackIff(Replay(cap, pending, fs).1[i].msg, wide, cap);
  }
}
