/** Packing search entries, in order, into as few datagrams as fit. */
module Packing {
  import opened PvaFrame
  import opened Encoding

  datatype Range = Range(start: nat, end: nat)

  function Sum(sizes: seq<nat>, lo: nat, hi: nat): nat
    requires lo <= hi <= |sizes|
    decreases hi
  {
    if lo == hi then 0 else Sum(sizes, lo, hi - 1) + sizes[hi - 1]
  }

  /** Where the first `k` runs end. */
  function End(runs: seq<Range>, k: nat): nat
    requires k <= |runs|
  {
    if k == 0 then 0 else runs[k - 1].end
  }

  /** A run is non-empty and fits the capacity, unless it is a single item. */
  ghost predicate RunOk(r: Range, sizes: seq<nat>, capacity: nat) {
    r.start < r.end <= |sizes| && (Sum(sizes, r.start, r.end) <= capacity || r.end == r.start + 1)
  }

  /** Run `k` starts where the one before it ends. */
  ghost predicate RunAt(runs: seq<Range>, k: nat, sizes: seq<nat>, capacity: nat)
    requires k < |runs|
  {
    runs[k].start == End(runs, k) && RunOk(runs[k], sizes, capacity)
  }

  /** The runs cover the first `upTo` items in order, none split, lost or repeated. */
  ghost predicate Packs(runs: seq<Range>, sizes: seq<nat>, capacity: nat, upTo: nat) {
    && (forall k :: 0 <= k < |runs| ==> RunAt(runs, k, sizes, capacity))
    && End(runs, |runs|) == upTo
  }

  /** Each run stops only because the next item would not fit. */
  ghost predicate Greedy(runs: seq<Range>, sizes: seq<nat>, capacity: nat) {
    forall r :: r in runs && r.start <= r.end < |sizes| ==> Sum(sizes, r.start, r.end + 1) > capacity
  }

  lemma {:induction false} SumGrows(sizes: seq<nat>, a: nat, b: nat, c: nat, d: nat)
    requires a <= b <= c <= d <= |sizes|
    ensures Sum(sizes, b, c) <= Sum(sizes, a, d)
    decreases d - c + b - a
  {
    if c < d {
      SumGrows(sizes, a, b, c, d - 1);
    } else if a < b {
      SumGrows(sizes, a + 1, b, c, d);
      SumFront(sizes, a, d);
    }
  }

  lemma {:induction false} SumFront(sizes: seq<nat>, lo: nat, hi: nat)
    requires lo < hi <= |sizes|
    ensures Sum(sizes, lo, hi) == sizes[lo] + Sum(sizes, lo + 1, hi)
    decreases hi
  {
    if lo + 1 < hi {
      SumFront(sizes, lo, hi - 1);
    }
  }

  /** After as many runs, greedy packing has come at least as far as any other. */
  lemma {:induction false} GreedyStaysAhead(runs: seq<Range>, other: seq<Range>, sizes: seq<nat>, capacity: nat, k: nat)
    requires Packs(runs, sizes, capacity, |sizes|) && Greedy(runs, sizes, capacity)
    requires Packs(other, sizes, capacity, |sizes|)
    requires k <= |runs| && k <= |other|
    ensures End(other, k) <= End(runs, k)
    decreases k
  {
    if k > 0 {
      GreedyStaysAhead(runs, other, sizes, capacity, k - 1);
      var mine, theirs := runs[k - 1], other[k - 1];
      assert RunAt(runs, k - 1, sizes, capacity) && RunAt(other, k - 1, sizes, capacity);
      if mine.end < theirs.end {
        SumGrows(sizes, theirs.start, mine.start, mine.end + 1, theirs.end);
      }
    }
  }

  /** No packing uses fewer runs than a greedy one. */
  lemma {:induction false} GreedyIsOptimal(runs: seq<Range>, other: seq<Range>, sizes: seq<nat>, capacity: nat)
    requires Packs(runs, sizes, capacity, |sizes|) && Greedy(runs, sizes, capacity)
    requires Packs(other, sizes, capacity, |sizes|)
    ensures |runs| <= |other|
  {
    if |other| < |runs| {
      assert RunAt(runs, |other|, sizes, capacity);
      GreedyStaysAhead(runs, other, sizes, capacity, |other|);
    }
  }

  lemma {:induction false} PacksOneMore(runs: seq<Range>, end: nat, sizes: seq<nat>, capacity: nat)
    requires Packs(runs, sizes, capacity, End(runs, |runs|)) && RunOk(Range(End(runs, |runs|), end), sizes, capacity)
    ensures Packs(runs + [Range(End(runs, |runs|), end)], sizes, capacity, end)
  {
    var more := runs + [Range(End(runs, |runs|), end)];
    forall k | 0 <= k < |more| ensures RunAt(more, k, sizes, capacity) {
      if k < |runs| {
        assert RunAt(runs, k, sizes, capacity);
      }
    }
  }

  method PackNextFit(sizes: seq<nat>, capacity: nat) returns (runs: seq<Range>)
    ensures Packs(runs, sizes, capacity, |sizes|)
    ensures forall other :: Packs(other, sizes, capacity, |sizes|) ==> |runs| <= |other|
  {
    runs := [];
    var start, used := 0, 0;
    for i := 0 to |sizes|
      invariant start <= i && (start == i ==> i == 0)
      invariant used == Sum(sizes, start, i)
      invariant used <= capacity || i == start + 1
      invariant Packs(runs, sizes, capacity, start) && Greedy(runs, sizes, capacity)
    {
      if i > start && used + sizes[i] > capacity {
        PacksOneMore(runs, i, sizes, capacity);
        runs := runs + [Range(start, i)];
        start, used := i, 0;
      }
      used := used + sizes[i];
    }
    if start < |sizes| {
      PacksOneMore(runs, |sizes|, sizes, capacity);
      runs := runs + [Range(start, |sizes|)];
    }
    forall other | Packs(other, sizes, capacity, |sizes|) ensures |runs| <= |other| {
      GreedyIsOptimal(runs, other, sizes, capacity);
    }
  }

  // ----- What the packed runs become on the wire -----

  type Name = seq<byte>

  const MAX_DATAGRAM_V4: nat := 1472
  const MAX_DATAGRAM_V6: nat := 1452
  const SEARCH_FIXED_BYTES: nat := 41

  function SearchEntryBytes(name: Name): nat {
    4 + (if |name| < 254 then 1 else 5) + |name|
  }

  datatype Entry = Entry(cid: nat, name: Name)

  function EncodeEntries(batch: seq<Entry>, big: bool): seq<byte>
    decreases |batch|
  {
    if batch == [] then []
    else
      var e := batch[|batch| - 1];
      EncodeEntries(batch[..|batch| - 1], big) + ToBytes(e.cid % U32, big) + EncodeString(e.name, big)
  }

  function U16(n: nat, big: bool): seq<byte> {
    if big then [n / 0x100 % 0x100, n % 0x100] else [n % 0x100, n / 0x100 % 0x100]
  }

  /** A SEARCH message: header, sequence number, flags, reserved bytes, where to reply, the
      protocols, and the counted entries. */
  function EncodeSearch(number: nat, flags: byte, port: nat, reply: seq<byte>, batch: seq<Entry>, version: byte,
                        big: bool): seq<byte>
    requires |reply| == 16
  {
    var payload :=
      ToBytes(number % U32, big) + [flags] + [0, 0, 0] + reply + U16(port, big)
      + EncodeSize(1, big) + EncodeString([116, 99, 112], big) + U16(|batch|, big) + EncodeEntries(batch, big);
    [0xCA, version, if big then 0x80 else 0, 3] + ToBytes(|payload| % U32, big) + payload
  }

  function SizesOf(batch: seq<Entry>): seq<nat> {
    seq(|batch|, i requires 0 <= i < |batch| => SearchEntryBytes(batch[i].name))
  }

  lemma {:induction false} EntryLength(e: Entry, big: bool)
    ensures |ToBytes(e.cid % U32, big)| + |EncodeString(e.name, big)| == SearchEntryBytes(e.name)
  {
  }

  lemma {:induction false} EntriesLength(batch: seq<Entry>, lo: nat, hi: nat, big: bool)
    requires lo <= hi <= |batch|
    ensures |EncodeEntries(batch[lo..hi], big)| == Sum(SizesOf(batch), lo, hi)
    decreases hi
  {
    if lo < hi {
      EntriesLength(batch, lo, hi - 1, big);
      assert batch[lo..hi][..hi - lo - 1] == batch[lo..hi - 1];
      EntryLength(batch[hi - 1], big);
      hide EncodeString, ToBytes, SearchEntryBytes;
    }
  }

  /** The size arithmetic is exact, so a datagram of two or more names is never over the limit. */
  lemma {:induction false} DatagramsFit(batch: seq<Entry>, runs: seq<Range>, limit: nat, k: nat,
                                        number: nat, flags: byte, port: nat, reply: seq<byte>, version: byte, big: bool)
    requires limit >= SEARCH_FIXED_BYTES && |reply| == 16 && k < |runs|
    requires Packs(runs, SizesOf(batch), limit - SEARCH_FIXED_BYTES, |batch|)
    ensures RunOk(runs[k], SizesOf(batch), limit - SEARCH_FIXED_BYTES)
    ensures var names := batch[runs[k].start..runs[k].end];
            var datagram := EncodeSearch(number, flags, port, reply, names, version, big);
            && |datagram| == SEARCH_FIXED_BYTES + Sum(SizesOf(batch), runs[k].start, runs[k].end)
            && (|names| >= 2 ==> |datagram| <= limit)
  {
    assert RunAt(runs, k, SizesOf(batch), limit - SEARCH_FIXED_BYTES);
    EntriesLength(batch, runs[k].start, runs[k].end, big);
  }
}
