/** PVA size prefixes and size-prefixed strings. */
module Encoding {
  import opened Options
  import opened PvaFrame

  datatype DecodeError = Truncated(needed: nat, available: nat)

  const U32: nat := 0x1_0000_0000

  /** One byte below 254; otherwise 0xFE and the size cut to 32 bits. */
  function EncodeSize(size: nat, big: bool): seq<byte> {
    if size < 254 then [size] else [0xFE] + ToBytes(size % U32, big)
  }

  function EncodeString(s: seq<byte>, big: bool): seq<byte> {
    EncodeSize(|s|, big) + s
  }

  /** The size and the bytes it took; 0xFF is the null marker. */
  function DecodeSize(data: seq<byte>, big: bool): Result<(nat, nat), DecodeError> {
    if |data| == 0 then Err(Truncated(1, 0))
    else if data[0] == 0xFF then Ok((0, 1))
    else if data[0] < 254 then Ok((data[0], 1))
    else if |data| < 5 then Err(Truncated(5, |data|))
    else Ok((FromBytes(data[1..5], big), 5))
  }

  function DecodeString(data: seq<byte>, big: bool): Result<(seq<byte>, nat), DecodeError> {
    match DecodeSize(data, big)
    case Err(e) => Err(e)
    case Ok((size, at)) =>
      if size == 0 then Ok(([], at))
      else if |data| < at + size then Err(Truncated(at + size, |data|))
      else Ok((data[at..at + size], at + size))
  }

  /** A size reads back, whatever follows it, exactly when it fits in 32 bits. */
  lemma {:induction false} SizeReadsBack(size: nat, big: bool, rest: seq<byte>)
    ensures DecodeSize(EncodeSize(size, big) + rest, big) == Ok((size, |EncodeSize(size, big)|)) <==> size < U32
    ensures DecodeSize(EncodeSize(size, big) + rest, big).Ok?
  {
    if size >= 254 {
      BytesRoundTrip(size % U32, big);
      assert (EncodeSize(size, big) + rest)[1..5] == ToBytes(size % U32, big);
    }
  }

  /** A string that fits reads back, and its reader stops just past it. */
  lemma {:induction false} StringReadsBack(s: seq<byte>, big: bool, rest: seq<byte>)
    requires |s| < U32
    ensures DecodeString(EncodeString(s, big) + rest, big) == Ok((s, |EncodeString(s, big)|))
  {
    SizeReadsBack(|s|, big, s + rest);
    var at := |EncodeSize(|s|, big)|;
    var data := EncodeString(s, big) + rest;
    assert data == EncodeSize(|s|, big) + (s + rest);
    assert data[at..at + |s|] == s;
  }

  method PushSize(out: seq<byte>, size: nat, big: bool) returns (r: seq<byte>)
    ensures r == out + EncodeSize(size, big)
  {
    if size < 254 { return out + [size]; }
    r := out + [0xFE];
    r := r + ToBytes(size % U32, big);
  }
}
