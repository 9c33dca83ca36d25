/** PVA framing: the 8-byte header, and the reference splitter that cuts a byte stream
    into frames. */
module PvaFrame {
  import opened Seqs

  type byte = x: int | 0 <= x < 256

  const HEADER: nat := 8

  /** Four bytes in either order as an unsigned 32-bit number. */
  function FromBytes(b: seq<byte>, big: bool): (n: nat)
    requires |b| == 4
    ensures n < 0x1_0000_0000
  {
    var b0: int, b1: int, b2: int, b3: int := b[0], b[1], b[2], b[3];
    if big then b0 * 0x100_0000 + b1 * 0x1_0000 + b2 * 0x100 + b3
    else b3 * 0x100_0000 + b2 * 0x1_0000 + b1 * 0x100 + b0
  }

  function ToBytes(n: nat, big: bool): (b: seq<byte>)
    requires n < 0x1_0000_0000
    ensures |b| == 4
  {
    var b0, b1, b2, b3 := n / 0x100_0000, n / 0x1_0000 % 0x100, n / 0x100 % 0x100, n % 0x100;
    if big then [b0, b1, b2, b3] else [b3, b2, b1, b0]
  }

  lemma {:induction false} BytesRoundTrip(n: nat, big: bool)
    requires n < 0x1_0000_0000
    ensures FromBytes(ToBytes(n, big), big) == n
  {
    assert n == n / 0x100 * 0x100 + n % 0x100;
    assert n / 0x100 == n / 0x1_0000 * 0x100 + n / 0x100 % 0x100;
    assert n / 0x1_0000 == n / 0x100_0000 * 0x100 + n / 0x1_0000 % 0x100;
  }

  lemma {:induction false} BytesDetermined(b: seq<byte>, big: bool)
    requires |b| == 4
    ensures ToBytes(FromBytes(b, big), big) == b
  {
    var b0: int, b1: int, b2: int, b3: int := b[0], b[1], b[2], b[3];
    Digits(b0, b1, b2, b3);
    Digits(b3, b2, b1, b0);
    assert b == [b[0], b[1], b[2], b[3]];
  }

  lemma {:induction false} Digits(a: int, b: int, c: int, d: int)
    requires 0 <= a < 0x100 && 0 <= b < 0x100 && 0 <= c < 0x100 && 0 <= d < 0x100
    ensures var n := a * 0x100_0000 + b * 0x1_0000 + c * 0x100 + d;
            n / 0x100_0000 == a && n / 0x1_0000 % 0x100 == b && n / 0x100 % 0x100 == c && n % 0x100 == d
  {
    var n := a * 0x100_0000 + b * 0x1_0000 + c * 0x100 + d;
    assert n / 0x100 == a * 0x1_0000 + b * 0x100 + c;
    assert n / 0x1_0000 == a * 0x100 + b;
  }

  // The flags byte: bit 0 control, bits 4-5 segment code, bit 6 direction, bit 7 byte order.

  predicate IsControl(h: seq<byte>) requires |h| == HEADER {
    h[2] % 2 == 1
  }

  function SegmentCode(h: seq<byte>): nat requires |h| == HEADER {
    h[2] / 16 % 4
  }

  function Direction(h: seq<byte>): nat requires |h| == HEADER {
    h[2] / 64 % 2
  }

  predicate IsBig(h: seq<byte>) requires |h| == HEADER {
    h[2] / 128 == 1
  }

  function Command(h: seq<byte>): byte requires |h| == HEADER {
    h[3]
  }

  function PayloadLength(h: seq<byte>): nat requires |h| == HEADER {
    FromBytes(h[4..8], IsBig(h))
  }

  /** How many payload bytes follow: none for a control frame, whatever its length field says. */
  function Declared(h: seq<byte>): nat requires |h| == HEADER {
    if IsControl(h) then 0 else PayloadLength(h)
  }

  datatype Frame = Frame(header: seq<byte>, payload: seq<byte>)

  /** A frame as it appears on the wire under a payload limit. */
  predicate FrameOk(f: Frame, max: nat) {
    |f.header| == HEADER && |f.payload| == Declared(f.header) <= max
  }

  function Wire(f: Frame): seq<byte> {
    f.header + f.payload
  }

  function Join(fs: seq<Frame>): seq<byte>
    decreases |fs|
  {
    if fs == [] then [] else Join(fs[..|fs| - 1]) + Wire(fs[|fs| - 1])
  }

  /** Bytes from which no frame can be taken: too few, or the next frame is over the limit. */
  predicate Incomplete(bytes: seq<byte>, max: nat) {
    |bytes| < HEADER || Declared(bytes[..HEADER]) > max || |bytes| < HEADER + Declared(bytes[..HEADER])
  }

  /** The reference: take whole frames off the front while there are any. */
  function Split(bytes: seq<byte>, max: nat): (r: (seq<Frame>, seq<byte>))
    decreases |bytes|
  {
    if Incomplete(bytes, max) then ([], bytes)
    else
      var end := HEADER + Declared(bytes[..HEADER]);
      var (fs, rest) := Split(bytes[end..], max);
      ([Frame(bytes[..HEADER], bytes[HEADER..end])] + fs, rest)
  }

  predicate AllOk(fs: seq<Frame>, max: nat) {
    forall i :: 0 <= i < |fs| ==> FrameOk(fs[i], max)
  }

  lemma {:induction false} SplitFirst(f: Frame, rest: seq<byte>, max: nat)
    requires FrameOk(f, max)
    ensures Split(Wire(f) + rest, max) == ([f] + Split(rest, max).0, Split(rest, max).1)
  {
    var bytes := Wire(f) + rest;
    assert bytes[..HEADER] == f.header;
    var end := HEADER + Declared(f.header);
    assert bytes[HEADER..end] == f.payload && bytes[end..] == rest;
  }

  lemma {:induction false} JoinFirst(f: Frame, fs: seq<Frame>)
    ensures Join([f] + fs) == Wire(f) + Join(fs)
    decreases |fs|
  {
    var all := [f] + fs;
    if fs == [] {
      assert all[..0] == [] && all[0] == f;
      assert Wire(f) + [] == Wire(f) && [] + Wire(f) == Wire(f);
    } else {
      assert all[..|all| - 1] == [f] + fs[..|fs| - 1];
      JoinFirst(f, fs[..|fs| - 1]);
      assert Wire(f) + Join(fs[..|fs| - 1]) + Wire(fs[|fs| - 1])
             == Wire(f) + (Join(fs[..|fs| - 1]) + Wire(fs[|fs| - 1]));
    }
  }

  /** Splitting undoes joining: the frames come back in order, none lost, merged or repeated,
      and an incomplete tail is left as it is. */
  lemma {:induction false} SplitJoin(fs: seq<Frame>, tail: seq<byte>, max: nat)
    requires AllOk(fs, max) && Incomplete(tail, max)
    ensures Split(Join(fs) + tail, max) == (fs, tail)
    decreases |fs|
  {
    if fs == [] {
      assert [] + tail == tail;
    } else {
      var rest := fs[1..];
      assert fs == [fs[0]] + rest;
      JoinFirst(fs[0], rest);
      Assoc(Wire(fs[0]), Join(rest), tail);
      SplitFirst(fs[0], Join(rest) + tail, max);
      SplitJoin(rest, tail, max);
    }
  }

  lemma {:induction false} AllOkFirst(f: Frame, fs: seq<Frame>, max: nat)
    requires FrameOk(f, max) && AllOk(fs, max)
    ensures AllOk([f] + fs, max)
  {
  }

  /** And joining undoes splitting: no byte is invented or dropped. */
  lemma {:induction false} JoinSplit(bytes: seq<byte>, max: nat)
    ensures var (fs, rest) := Split(bytes, max);
            AllOk(fs, max) && Incomplete(rest, max) && Join(fs) + rest == bytes
    decreases |bytes|
  {
    if Incomplete(bytes, max) {
      assert [] + bytes == bytes;
    } else {
      var end := HEADER + Declared(bytes[..HEADER]);
      JoinSplit(bytes[end..], max);
      var (fs, rest) := Split(bytes[end..], max);
      var f := Frame(bytes[..HEADER], bytes[HEADER..end]);
      hide Join, Split, Declared;
      JoinFirst(f, fs);
      assert Wire(f) == bytes[..end];
      assert bytes == bytes[..end] + bytes[end..];
      Assoc(Wire(f), Join(fs), rest);
      AllOkFirst(f, fs, max);
    }
  }
}
