/** The bit numbers of a structure's fields: the PUT encoder that sets them and the monitor's path
    table that reads them. */
module PutBits {
  import opened Options
  import opened PvaFrame
  import opened Seqs
  import opened Encoding

  /** A structure description: named fields, each nested or of some kind of value. */
  datatype FieldType = Plain(kind: nat) | Structure(fields: seq<Field>)
  datatype Field = Field(name: string, ftype: FieldType)

  /** A JSON value: an object, or something else. */
  datatype Value = Object(entries: map<string, Value>) | Scalar(text: string)

  type Entries = map<string, Value>

  datatype PutError =
    | UnknownField
    | EmptyObject(name: string)
    | NotAnObject(name: string)
    | BadValue(name: string)
    | NothingSelected
    | NoValueField

  /** How a plain field's value is written, if it can be. */
  type ValueEncoder = (nat, Value) -> Option<seq<byte>>

  // ----- Bits -----

  predicate Bit(n: nat, k: nat)
    decreases k
  {
    if k == 0 then n % 2 == 1 else Bit(n / 2, k - 1)
  }

  /** The number with binary digit `k` set. */
  function WithBit(n: nat, k: nat): nat
    decreases k
  {
    if k == 0 then n / 2 * 2 + 1 else WithBit(n / 2, k - 1) * 2 + n % 2
  }

  function Pow2(m: nat): nat {
    if m == 0 then 1 else 2 * Pow2(m - 1)
  }

  lemma {:induction false} WithBitIs(n: nat, k: nat, j: nat)
    ensures Bit(WithBit(n, k), j) <==> j == k || Bit(n, j)
    decreases k
  {
    if k > 0 && j > 0 {
      WithBitIs(n / 2, k - 1, j - 1);
      assert WithBit(n, k) / 2 == WithBit(n / 2, k - 1);
    }
  }

  lemma {:induction false} WithBitFits(n: nat, k: nat, m: nat)
    requires k < m && n < Pow2(m)
    ensures WithBit(n, k) < Pow2(m)
    decreases k
  {
    var half := Pow2(m - 1);
    assert Pow2(m) == 2 * half && n / 2 < half;
    if k > 0 {
      assert WithBit(n, k) == WithBit(n / 2, k - 1) * 2 + n % 2;
      hide WithBit, Pow2;
      WithBitFits(n / 2, k - 1, m - 1);
    }
  }

  lemma {:induction false} ByteBits()
    ensures Pow2(8) == 256
  {
    assert Pow2(4) == 16;
  }

  lemma {:induction false} NoBits(k: nat)
    ensures !Bit(0, k)
    decreases k
  {
    if k > 0 {
      NoBits(k - 1);
    }
  }

  predicate IsSet(bits: seq<byte>, bit: nat) {
    bit / 8 < |bits| && Bit(bits[bit / 8], bit % 8)
  }

  function Zeros(n: nat): seq<byte> {
    seq(n, _ => 0)
  }

  /** The bitset grown to hold `bit`, with `bit` set. */
  function SetBit(bits: seq<byte>, bit: nat): (r: seq<byte>)
    ensures |r| > 0
  {
    var i := bit / 8;
    var grown := if |bits| <= i then bits + Zeros(i + 1 - |bits|) else bits;
    ByteBits();
    WithBitFits(grown[i], bit % 8, 8);
    grown[i := WithBit(grown[i], bit % 8)]
  }

  lemma {:induction false} SetBitIs(bits: seq<byte>, bit: nat, j: nat)
    ensures IsSet(SetBit(bits, bit), j) <==> j == bit || IsSet(bits, j)
  {
    var i := bit / 8;
    var grown := if |bits| <= i then bits + Zeros(i + 1 - |bits|) else bits;
    ByteBits();
    WithBitFits(grown[i], bit % 8, 8);
    NoBits(j % 8);
    assert IsSet(grown, j) <==> IsSet(bits, j);
    WithBitIs(grown[i], bit % 8, j % 8);
    hide Bit, WithBit;
    assert j / 8 == i && j % 8 == bit % 8 ==> j == bit;
  }

  // ----- The numbering -----

  /** How many bits a structure's fields take, nested ones included. */
  function Count(fields: seq<Field>): nat
    decreases fields, 0
  {
    if fields == [] then 0 else Size(fields[0]) + Count(fields[1..])
  }

  /** Bits one field takes. */
  function Size(f: Field): nat
    decreases f, 1
  {
    1 + if f.ftype.Structure? then Count(f.ftype.fields) else 0
  }

  function Path(prefix: string, name: string): string {
    if prefix == "" then name else prefix + "." + name
  }

  /** Depth first, each field before its own fields. */
  function Flatten(fields: seq<Field>, prefix: string): seq<string>
    decreases fields, 0
  {
    if fields == [] then [] else OwnPaths(fields[0], prefix) + Flatten(fields[1..], prefix)
  }

  /** The paths of one field and those below it. */
  function OwnPaths(f: Field, prefix: string): seq<string>
    decreases f, 1
  {
    [Path(prefix, f.name)] + if f.ftype.Structure? then Flatten(f.ftype.fields, Path(prefix, f.name)) else []
  }

  function BitPaths(fields: seq<Field>): seq<string> {
    ["<whole structure>"] + Flatten(fields, "")
  }

  /** The paths whose bits are set, in order; the first path has number `base`. */
  function Select(paths: seq<string>, bits: seq<byte>, base: nat): seq<string>
    decreases |paths|
  {
    if paths == [] then []
    else (if IsSet(bits, base) then [paths[0]] else []) + Select(paths[1..], bits, base + 1)
  }

  // ----- The encoder -----

  datatype Progress = Progress(bits: seq<byte>, offset: nat, data: seq<byte>)

  predicate Known(fields: seq<Field>, name: string) {
    exists i :: 0 <= i < |fields| && fields[i].name == name
  }

  predicate AllKnown(fields: seq<Field>, values: Entries) {
    forall key :: key in values ==> Known(fields, key)
  }

  /** Encode the fields of one structure for which the input has values. */
  function EncodePartial(fields: seq<Field>, values: Entries, p: Progress, enc: ValueEncoder)
      : Result<Progress, PutError>
    decreases fields, 1
  {
    if AllKnown(fields, values) then EncodeFields(fields, values, p, enc) else Err(UnknownField)
  }

  function EncodeFields(fields: seq<Field>, values: Entries, p: Progress, enc: ValueEncoder): Result<Progress, PutError>
    decreases fields, 0
  {
    if fields == [] then Ok(p)
    else
      match EncodeField(fields[0], values, p, enc)
      case Err(e) => Err(e)
      case Ok(p') => EncodeFields(fields[1..], values, p', enc)
  }

  /** A field takes its own bit, present or not; a missing structure is stepped over whole. */
  function EncodeField(f: Field, values: Entries, p: Progress, enc: ValueEncoder): Result<Progress, PutError>
    decreases f, 2
  {
    var next := p.(offset := p.offset + 1);
    match f.ftype
    case Structure(fields) =>
      if f.name !in values then Ok(next.(offset := next.offset + Count(fields)))
      else if values[f.name].Scalar? then Err(NotAnObject(f.name))
      else if values[f.name].entries == map[] then Err(EmptyObject(f.name))
      else EncodePartial(fields, values[f.name].entries, next, enc)
    case Plain(kind) =>
      if f.name !in values then Ok(next)
      else
        match enc(kind, values[f.name])
        case None => Err(BadValue(f.name))
        case Some(bytes) => Ok(next.(bits := SetBit(p.bits, p.offset), data := p.data + bytes))
  }

  function NormalizeRoot(fields: seq<Field>, input: Value): Result<Entries, PutError> {
    if input.Object? then Ok(input.entries)
    else if Known(fields, "value") then Ok(map["value" := input])
    else Err(NoValueField)
  }

  /** The PUT body: the sized bitset, then the data. */
  function EncodePut(fields: seq<Field>, input: Value, enc: ValueEncoder, big: bool): Result<seq<byte>, PutError> {
    match NormalizeRoot(fields, input)
    case Err(e) => Err(e)
    case Ok(root) =>
      match EncodePartial(fields, root, Progress([], 1, []), enc)
      case Err(e) => Err(e)
      case Ok(p) =>
        if p.bits == [] then Err(NothingSelected)
        else Ok(EncodeSize(|p.bits|, big) + p.bits + p.data)
  }

  /** The bitset at the front of a body, and where it ends. */
  function ReadBitset(data: seq<byte>, big: bool): Result<(seq<byte>, nat), DecodeError> {
    match DecodeSize(data, big)
    case Err(e) => Err(e)
    case Ok((size, at)) =>
      if |data| < at + size then Err(Truncated(at + size, |data|)) else Ok((data[at..at + size], at + size))
  }

  // ----- What was supplied -----

  /** The paths of the plain fields for which the input has values. */
  function Supplied(fields: seq<Field>, values: Entries, prefix: string): seq<string>
    decreases fields, 0
  {
    if fields == [] then [] else OwnSupplied(fields[0], values, prefix) + Supplied(fields[1..], values, prefix)
  }

  function OwnSupplied(f: Field, values: Entries, prefix: string): seq<string>
    decreases f, 1
  {
    if f.name !in values then []
    else match f.ftype
         case Plain(_) => [Path(prefix, f.name)]
         case Structure(sub) =>
           if values[f.name].Object? then Supplied(sub, values[f.name].entries, Path(prefix, f.name)) else []
  }

  /** The numbers of the supplied plain fields, when the first field has number `offset`. */
  ghost function Chosen(fields: seq<Field>, values: Entries, offset: nat): set<nat>
    decreases fields, 0
  {
    if fields == [] then {}
    else ChosenIn(fields[0], values, offset) + Chosen(fields[1..], values, offset + Size(fields[0]))
  }

  ghost function ChosenIn(f: Field, values: Entries, offset: nat): set<nat>
    decreases f, 1
  {
    if f.name !in values then {}
    else match f.ftype
         case Plain(_) => {offset}
         case Structure(sub) => if values[f.name].Object? then Chosen(sub, values[f.name].entries, offset + 1) else {}
  }

  lemma {:induction false} ChosenInRange(fields: seq<Field>, values: Entries, offset: nat)
    ensures forall b :: b in Chosen(fields, values, offset) ==> offset <= b < offset + Count(fields)
    decreases fields, 0
  {
    if fields != [] {
      FieldInRange(fields[0], values, offset);
      ChosenInRange(fields[1..], values, offset + Size(fields[0]));
    }
  }

  lemma {:induction false} FieldInRange(f: Field, values: Entries, offset: nat)
    ensures forall b :: b in ChosenIn(f, values, offset) ==> offset <= b < offset + Size(f)
    decreases f, 1
  {
    if f.ftype.Structure? && f.name in values && values[f.name].Object? {
      ChosenInRange(f.ftype.fields, values[f.name].entries, offset + 1);
    }
  }

  /** The encoder's progress: the offset moves past every field whichever are present, and exactly
      the chosen bits are added. */
  ghost predicate Advanced(p: Progress, p': Progress, n: nat, chosen: set<nat>) {
    p'.offset == p.offset + n && forall b: nat :: IsSet(p'.bits, b) <==> IsSet(p.bits, b) || b in chosen
  }

  lemma {:induction false} FieldAdvances(f: Field, values: Entries, p: Progress, enc: ValueEncoder)
    requires EncodeField(f, values, p, enc).Ok?
    ensures Advanced(p, EncodeField(f, values, p, enc).value, Size(f), ChosenIn(f, values, p.offset))
    decreases f, 1
  {
    if f.name in values {
      if f.ftype.Structure? {
        FieldsAdvance(f.ftype.fields, values[f.name].entries, p.(offset := p.offset + 1), enc);
      } else {
        forall b: nat ensures IsSet(SetBit(p.bits, p.offset), b) <==> b == p.offset || IsSet(p.bits, b) {
          SetBitIs(p.bits, p.offset, b);
        }
        hide IsSet, SetBit;
      }
    }
  }

  lemma {:induction false} FieldsAdvance(fields: seq<Field>, values: Entries, p: Progress, enc: ValueEncoder)
    requires EncodeFields(fields, values, p, enc).Ok?
    ensures Advanced(p, EncodeFields(fields, values, p, enc).value, Count(fields), Chosen(fields, values, p.offset))
    decreases fields, 0
  {
    hide IsSet;
    if fields != [] {
      FieldAdvances(fields[0], values, p, enc);
      var p1 := EncodeField(fields[0], values, p, enc).value;
      FieldsAdvance(fields[1..], values, p1, enc);
    }
  }

  // ----- The path table reads the same numbers -----

  lemma {:induction false} FlattenLength(fields: seq<Field>, prefix: string)
    ensures |Flatten(fields, prefix)| == Count(fields)
    decreases fields
  {
    if fields != [] {
      if fields[0].ftype.Structure? {
        FlattenLength(fields[0].ftype.fields, Path(prefix, fields[0].name));
      }
      FlattenLength(fields[1..], prefix);
    }
  }

  lemma {:induction false} SelectAppend(a: seq<string>, b: seq<string>, bits: seq<byte>, base: nat)
    ensures Select(a + b, bits, base) == Select(a, bits, base) + Select(b, bits, base + |a|)
    decreases |a|
  {
    hide IsSet;
    if a == [] {
      assert a + b == b;
    } else {
      assert (a + b)[1..] == a[1..] + b;
      SelectAppend(a[1..], b, bits, base + 1);
    }
  }

  /** Within a range of numbers, the bits set are the chosen ones. */
  ghost predicate Agree(bits: seq<byte>, lo: nat, n: nat, chosen: set<nat>) {
    forall b: nat :: lo <= b < lo + n ==> (IsSet(bits, b) <==> b in chosen)
  }

  /** The first field's bits and the rest's. */
  lemma {:induction false} AgreeParts(fields: seq<Field>, values: Entries, bits: seq<byte>, offset: nat)
    requires fields != [] && Agree(bits, offset, Count(fields), Chosen(fields, values, offset))
    ensures var f, later := fields[0], offset + Size(fields[0]);
            && Agree(bits, offset, Size(f), ChosenIn(f, values, offset))
            && Agree(bits, later, Count(fields[1..]), Chosen(fields[1..], values, later))
  {
    var f, later := fields[0], offset + Size(fields[0]);
    FieldInRange(f, values, offset);
    ChosenInRange(fields[1..], values, later);
    assert Chosen(fields, values, offset) == ChosenIn(f, values, offset) + Chosen(fields[1..], values, later);
    assert Count(fields) == Size(f) + Count(fields[1..]);
  }

  lemma {:induction false} OwnLength(f: Field, prefix: string)
    ensures |OwnPaths(f, prefix)| == Size(f)
  {
    if f.ftype.Structure? {
      FlattenLength(f.ftype.fields, Path(prefix, f.name));
    }
  }

  lemma {:induction false} PathsUnfold(fields: seq<Field>, values: Entries, prefix: string)
    requires fields != []
    ensures Flatten(fields, prefix) == OwnPaths(fields[0], prefix) + Flatten(fields[1..], prefix)
    ensures Supplied(fields, values, prefix)
            == OwnSupplied(fields[0], values, prefix) + Supplied(fields[1..], values, prefix)
  {
  }

  lemma {:induction false} SelectSupplied(fields: seq<Field>, values: Entries, prefix: string, bits: seq<byte>,
                                          offset: nat)
    requires Agree(bits, offset, Count(fields), Chosen(fields, values, offset))
    ensures Select(Flatten(fields, prefix), bits, offset) == Supplied(fields, values, prefix)
    decreases fields, 0
  {
    if fields != [] {
      var f, rest := fields[0], fields[1..];
      AgreeParts(fields, values, bits, offset);
      hide *;
      OwnLength(f, prefix);
      SelectOwn(f, values, prefix, bits, offset);
      SelectSupplied(rest, values, prefix, bits, offset + Size(f));
      SelectJoined(fields, values, prefix, bits, offset);
    }
  }

  lemma {:induction false} SelectJoined(fields: seq<Field>, values: Entries, prefix: string, bits: seq<byte>,
                                        offset: nat)
    requires fields != [] && |OwnPaths(fields[0], prefix)| == Size(fields[0])
    requires Select(OwnPaths(fields[0], prefix), bits, offset) == OwnSupplied(fields[0], values, prefix)
    requires Select(Flatten(fields[1..], prefix), bits, offset + Size(fields[0]))
             == Supplied(fields[1..], values, prefix)
    ensures Select(Flatten(fields, prefix), bits, offset) == Supplied(fields, values, prefix)
  {
    PathsUnfold(fields, values, prefix);
    hide *;
    SelectAppend(OwnPaths(fields[0], prefix), Flatten(fields[1..], prefix), bits, offset);
  }

  lemma {:induction false} SelectNone(paths: seq<string>, bits: seq<byte>, base: nat)
    requires Agree(bits, base, |paths|, {})
    ensures Select(paths, bits, base) == []
    decreases |paths|
  {
    if paths != [] {
      SelectNone(paths[1..], bits, base + 1);
    }
  }

  lemma {:induction false} SelectOwn(f: Field, values: Entries, prefix: string, bits: seq<byte>, offset: nat)
    requires Agree(bits, offset, Size(f), ChosenIn(f, values, offset))
    ensures Select(OwnPaths(f, prefix), bits, offset) == OwnSupplied(f, values, prefix)
    decreases f, 1
  {
    var path := Path(prefix, f.name);
    match f.ftype
    case Plain(_) =>
      assert OwnPaths(f, prefix) == [path];
      assert IsSet(bits, offset) <==> f.name in values;
    case Structure(sub) =>
      FlattenLength(sub, path);
      if f.name in values && values[f.name].Object? {
        ChosenInRange(sub, values[f.name].entries, offset + 1);
        assert ChosenIn(f, values, offset) == Chosen(sub, values[f.name].entries, offset + 1);
        assert offset !in ChosenIn(f, values, offset) && !IsSet(bits, offset);
        assert Agree(bits, offset + 1, Count(sub), Chosen(sub, values[f.name].entries, offset + 1));
        SelectSupplied(sub, values[f.name].entries, path, bits, offset + 1);
        assert OwnPaths(f, prefix)[1..] == Flatten(sub, path);
      } else {
        SelectNone(OwnPaths(f, prefix), bits, offset);
      }
  }

  // ----- The data follows the bits -----

  /** The values of the supplied plain fields, written in field order. */
  ghost function Data(fields: seq<Field>, values: Entries, enc: ValueEncoder): seq<byte>
    decreases fields, 0
  {
    if fields == [] then [] else DataIn(fields[0], values, enc) + Data(fields[1..], values, enc)
  }

  ghost function DataIn(f: Field, values: Entries, enc: ValueEncoder): seq<byte>
    decreases f, 1
  {
    if f.name !in values then []
    else match f.ftype
         case Plain(kind) => if enc(kind, values[f.name]).Some? then enc(kind, values[f.name]).value else []
         case Structure(sub) => if values[f.name].Object? then Data(sub, values[f.name].entries, enc) else []
  }

  lemma {:induction false} FieldWrites(f: Field, values: Entries, p: Progress, enc: ValueEncoder)
    requires EncodeField(f, values, p, enc).Ok?
    ensures EncodeField(f, values, p, enc).value.data == p.data + DataIn(f, values, enc)
    decreases f, 1
  {
    if f.name in values && f.ftype.Structure? {
      FieldsWrite(f.ftype.fields, values[f.name].entries, p.(offset := p.offset + 1), enc);
    }
  }

  lemma {:induction false} FieldsWrite(fields: seq<Field>, values: Entries, p: Progress, enc: ValueEncoder)
    requires EncodeFields(fields, values, p, enc).Ok?
    ensures EncodeFields(fields, values, p, enc).value.data == p.data + Data(fields, values, enc)
    decreases fields, 0
  {
    if fields != [] {
      FieldWrites(fields[0], values, p, enc);
      FieldsWrite(fields[1..], values, EncodeField(fields[0], values, p, enc).value, enc);
    }
  }

  /** The bitset is no longer than the bits passed over need. */
  ghost predicate Short(p: Progress) {
    8 * (|p.bits| - 1) < p.offset
  }

  lemma {:induction false} FieldStaysShort(f: Field, values: Entries, p: Progress, enc: ValueEncoder)
    requires EncodeField(f, values, p, enc).Ok? && Short(p)
    ensures Short(EncodeField(f, values, p, enc).value)
    decreases f, 1
  {
    if f.name in values && f.ftype.Structure? {
      FieldsStayShort(f.ftype.fields, values[f.name].entries, p.(offset := p.offset + 1), enc);
    }
  }

  lemma {:induction false} FieldsStayShort(fields: seq<Field>, values: Entries, p: Progress, enc: ValueEncoder)
    requires EncodeFields(fields, values, p, enc).Ok? && Short(p)
    ensures Short(EncodeFields(fields, values, p, enc).value)
    decreases fields, 0
  {
    if fields != [] {
      FieldStaysShort(fields[0], values, p, enc);
      hide Short;
      FieldsStayShort(fields[1..], values, EncodeField(fields[0], values, p, enc).value, enc);
    }
  }

  lemma {:induction false} BodyReadsBack(bits: seq<byte>, data: seq<byte>, big: bool)
    requires |bits| < U32
    ensures ReadBitset(EncodeSize(|bits|, big) + bits + data, big) == Ok((bits, |EncodeSize(|bits|, big)| + |bits|))
  {
    var at := |EncodeSize(|bits|, big)|;
    var body := EncodeSize(|bits|, big) + bits + data;
    SizeReadsBack(|bits|, big, bits + data);
    assert body == EncodeSize(|bits|, big) + (bits + data);
    hide EncodeSize, DecodeSize;
    assert body[at..at + |bits|] == bits;
  }

  /** Whenever a PUT body is built, for any descriptor and any partial input: the bitset read back
      from it selects from the monitor's path table exactly the supplied plain fields, in order,
      and their values follow, in the same order. */
  lemma {:induction false} PutSelectsSupplied(fields: seq<Field>, input: Value, enc: ValueEncoder, big: bool)
    requires EncodePut(fields, input, enc, big).Ok? && Count(fields) < 8 * (U32 - 1)
    ensures var body, root := EncodePut(fields, input, enc, big).value, NormalizeRoot(fields, input).value;
            && ReadBitset(body, big).Ok?
            && var (bits, at) := ReadBitset(body, big).value;
               && at <= |body|
               && Select(BitPaths(fields), bits, 0) == Supplied(fields, root, "")
               && body[at..] == Data(fields, root, enc)
  {
    var root := NormalizeRoot(fields, input).value;
    var p := EncodePartial(fields, root, Progress([], 1, []), enc).value;
    FieldsAdvance(fields, root, Progress([], 1, []), enc);
    FieldsWrite(fields, root, Progress([], 1, []), enc);
    FieldsStayShort(fields, root, Progress([], 1, []), enc);
    assert forall b: nat :: IsSet(p.bits, b) <==> b in Chosen(fields, root, 1);
    BodyReadsBack(p.bits, p.data, big);
    var at := |EncodeSize(|p.bits|, big)| + |p.bits|;
    assert (EncodeSize(|p.bits|, big) + p.bits + p.data)[at..] == p.data;
    ChosenInRange(fields, root, 1);
    hide EncodeSize, ReadBitset, EncodePartial;
    SelectSupplied(fields, root, "", p.bits, 1);
    assert BitPaths(fields)[1..] == Flatten(fields, "");
    assert !IsSet(p.bits, 0);
  }

  // ----- When a PUT body is built -----

  /** Every key names a field, every nested value is an object with something in it that itself
      fits, and every plain value can be written. */
  ghost predicate Fits(fields: seq<Field>, values: Entries, enc: ValueEncoder)
    decreases fields, 0
  {
    && AllKnown(fields, values)
    && forall i :: 0 <= i < |fields| ==> FieldFits(fields[i], values, enc)
  }

  ghost predicate FieldFits(f: Field, values: Entries, enc: ValueEncoder)
    decreases f, 1
  {
    f.name in values ==>
      match f.ftype
      case Plain(kind) => enc(kind, values[f.name]).Some?
      case Structure(sub) =>
        values[f.name].Object? && values[f.name].entries != map[] && Fits(sub, values[f.name].entries, enc)
  }

  lemma {:induction false} FieldOkIff(f: Field, values: Entries, p: Progress, enc: ValueEncoder)
    ensures EncodeField(f, values, p, enc).Ok? <==> FieldFits(f, values, enc)
    decreases f, 1
  {
    if f.name in values && f.ftype.Structure? && values[f.name].Object? {
      PartialOkIff(f.ftype.fields, values[f.name].entries, p.(offset := p.offset + 1), enc);
    }
  }

  lemma {:induction false} FieldsOkIff(fields: seq<Field>, values: Entries, p: Progress, enc: ValueEncoder)
    ensures EncodeFields(fields, values, p, enc).Ok? <==> forall i :: 0 <= i < |fields| ==>
              FieldFits(fields[i], values, enc)
    decreases fields, 0
  {
    if fields != [] {
      FieldOkIff(fields[0], values, p, enc);
      if EncodeField(fields[0], values, p, enc).Ok? {
        FieldsOkIff(fields[1..], values, EncodeField(fields[0], values, p, enc).value, enc);
        hide FieldFits, EncodeField;
        assert forall i :: 0 < i < |fields| ==> fields[i] == fields[1..][i - 1];
        assert forall i :: 0 <= i < |fields[1..]| ==> fields[1..][i] == fields[i + 1];
      }
    }
  }

  lemma {:induction false} PartialOkIff(fields: seq<Field>, values: Entries, p: Progress, enc: ValueEncoder)
    ensures EncodePartial(fields, values, p, enc).Ok? <==> Fits(fields, values, enc)
    decreases fields, 1
  {
    FieldsOkIff(fields, values, p, enc);
  }

  lemma {:induction false} ChosenAt(fields: seq<Field>, values: Entries, offset: nat, i: nat)
    requires i < |fields|
    ensures exists at: nat :: ChosenIn(fields[i], values, at) <= Chosen(fields, values, offset)
    decreases i
  {
    if i == 0 {
      assert ChosenIn(fields[0], values, offset) <= Chosen(fields, values, offset);
    } else {
      ChosenAt(fields[1..], values, offset + Size(fields[0]), i - 1);
      var at: nat :| ChosenIn(fields[1..][i - 1], values, at) <= Chosen(fields[1..], values, offset + Size(fields[0]));
      assert ChosenIn(fields[i], values, at) <= Chosen(fields, values, offset);
    }
  }

  /** An input that fits and is not empty chooses something, however deeply nested. */
  lemma {:induction false} SomethingChosen(fields: seq<Field>, values: Entries, offset: nat, enc: ValueEncoder)
    requires Fits(fields, values, enc) && values != map[]
    ensures Chosen(fields, values, offset) != {}
    decreases fields
  {
    var key :| key in values;
    var i :| 0 <= i < |fields| && fields[i].name == key;
    ChosenAt(fields, values, offset, i);
    var at: nat :| ChosenIn(fields[i], values, at) <= Chosen(fields, values, offset);
    assert FieldFits(fields[i], values, enc);
    if fields[i].ftype.Structure? {
      SomethingChosen(fields[i].ftype.fields, values[key].entries, at + 1, enc);
    }
    assert ChosenIn(fields[i], values, at) != {};
  }

  lemma {:induction false} EmptyInput(fields: seq<Field>, p: Progress, enc: ValueEncoder)
    ensures EncodeFields(fields, map[], p, enc).Ok? && EncodeFields(fields, map[], p, enc).value.bits == p.bits
    decreases fields
  {
    if fields != [] {
      EmptyInput(fields[1..], EncodeField(fields[0], map[], p, enc).value, enc);
    }
  }

  /** A body is built exactly for a non-empty input that fits the descriptor. */
  lemma {:induction false} PutBuiltIff(fields: seq<Field>, input: Value, enc: ValueEncoder, big: bool)
    ensures EncodePut(fields, input, enc, big).Ok? <==>
              && (input.Object? || Known(fields, "value"))
              && var root := if input.Object? then input.entries else map["value" := input];
                 root != map[] && Fits(fields, root, enc)
  {
    if input.Object? || Known(fields, "value") {
      var root := if input.Object? then input.entries else map["value" := input];
      var p := Progress([], 1, []);
      PartialOkIff(fields, root, p, enc);
      if root == map[] {
        EmptyInput(fields, p, enc);
      } else if Fits(fields, root, enc) {
        SomethingChosen(fields, root, 1, enc);
        FieldsAdvance(fields, root, p, enc);
        var b :| b in Chosen(fields, root, 1);
        ChosenInRange(fields, root, 1);
        assert IsSet(EncodeFields(fields, root, p, enc).value.bits, b);
      }
    }
  }

  // ----- As the client runs it -----

  method CountFields(fields: seq<Field>) returns (count: nat)
    ensures count == Count(fields)
    decreases fields
  {
    count := 0;
    assert fields[0..] == fields;
    for i := 0 to |fields|
      invariant count + Count(fields[i..]) == Count(fields)
    {
      assert fields[i..][1..] == fields[i + 1..];
      count := count + 1;
      if fields[i].ftype.Structure? {
        var nested := CountFields(fields[i].ftype.fields);
        count := count + nested;
      }
    }
  }

  method FlattenPaths(fields: seq<Field>, prefix: string, out: seq<string>) returns (r: seq<string>)
    ensures r == out + Flatten(fields, prefix)
    decreases fields
  {
    r := out;
    assert fields[0..] == fields;
    hide Flatten;
    for i := 0 to |fields|
      invariant r + Flatten(fields[i..], prefix) == out + Flatten(fields, prefix)
    {
      FlattenNext(fields, prefix, i);
      ghost var before := r;
      var path := if prefix == "" then fields[i].name else prefix + "." + fields[i].name;
      r := r + [path];
      if fields[i].ftype.Structure? {
        r := FlattenPaths(fields[i].ftype.fields, path, r);
        Assoc(before, [path], Flatten(fields[i].ftype.fields, path));
      }
      assert r == before + OwnPaths(fields[i], prefix);
      Assoc(before, OwnPaths(fields[i], prefix), Flatten(fields[i + 1..], prefix));
    }
    FlattenNone(fields[|fields|..], prefix);
    assert r + [] == r;
  }

  lemma {:induction false} FlattenNone(fields: seq<Field>, prefix: string)
    requires fields == []
    ensures Flatten(fields, prefix) == []
  {
  }

  lemma {:induction false} FlattenNext(fields: seq<Field>, prefix: string, i: nat)
    requires i < |fields|
    ensures Flatten(fields[i..], prefix) == OwnPaths(fields[i], prefix) + Flatten(fields[i + 1..], prefix)
  {
    assert fields[i..][1..] == fields[i + 1..];
  }

  /** The encoder's loop, stopping at the first error. */
  method EncodeStructure(fields: seq<Field>, values: Entries, p: Progress, enc: ValueEncoder)
      returns (r: Result<Progress, PutError>)
    ensures r == EncodePartial(fields, values, p, enc)
    decreases fields
  {
    if !AllKnown(fields, values) { return Err(UnknownField); }
    var bits, offset, data := p.bits, p.offset, p.data;
    assert fields[0..] == fields;
    for i := 0 to |fields|
      invariant EncodeFields(fields[i..], values, Progress(bits, offset, data), enc)
                == EncodeFields(fields, values, p, enc)
    {
      assert fields[i..][1..] == fields[i + 1..];
      var f, current := fields[i], offset;
      offset := offset + 1;
      if f.ftype.Structure? {
        if f.name in values {
          if values[f.name].Scalar? { return Err(NotAnObject(f.name)); }
          if values[f.name].entries == map[] { return Err(EmptyObject(f.name)); }
          var nested := EncodeStructure(f.ftype.fields, values[f.name].entries, Progress(bits, offset, data), enc);
          if nested.Err? { return nested; }
          bits, offset, data := nested.value.bits, nested.value.offset, nested.value.data;
        } else {
          var children := CountFields(f.ftype.fields);
          offset := offset + children;
        }
      } else if f.name in values {
        bits := SetBit(bits, current);
        var bytes := enc(f.ftype.kind, values[f.name]);
        if bytes.None? { return Err(BadValue(f.name)); }
        data := data + bytes.value;
      }
    }
    r := Ok(Progress(bits, offset, data));
  }
}
