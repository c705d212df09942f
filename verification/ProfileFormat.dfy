/**
 The pprof profile messages: how the builder lays their fields out, and how a protobuf reader takes
 them apart again. Text is its UTF-8 bytes.
 */
module ProfileFormat {
  import opened Wrappers
  import opened Wire

  type Text = Bytes

  datatype ValueType = ValueType(kind: int, unit: int)
  datatype Label = Label(key: int, str: int, num: int, numUnit: int)
  datatype Sample = Sample(locations: seq<nat>, values: seq<int>, labels: seq<Label>)
  datatype Mapping = Mapping(id: nat, filename: int, buildId: int)
  datatype Line = Line(function_: nat)
  datatype Location = Location(id: nat, mapping: nat, address: nat, lines: seq<Line>)
  datatype Function = Function(id: nat, name: int, systemName: int)
  datatype Profile = Profile(
    sampleTypes: seq<ValueType>,
    samples: seq<Sample>,
    mappings: seq<Mapping>,
    locations: seq<Location>,
    functions: seq<Function>,
    strings: seq<Text>,
    time: int,
    duration: int,
    periodType: ValueType,
    period: int)

  predicate Int64(v: int) {
    -HALF <= v < HALF
  }

  // Fields of each message, in the order they are written

  function Int64Field(n: nat, v: int): seq<Field> {
    [Scalar(n, Wrap(v))]
  }

  /** A field that is left out when the value is zero. */
  function NonZeroField(n: nat, v: int): seq<Field> {
    if v != 0 then Int64Field(n, v) else []
  }

  function Wraps(values: seq<int>): seq<nat> {
    seq(|values|, i requires 0 <= i < |values| => Wrap(values[i]))
  }

  function ValueTypeFields(t: ValueType): seq<Field> {
    Int64Field(1, t.kind) + Int64Field(2, t.unit)
  }

  /** A label is numeric, with a unit, or else a string. */
  function LabelFields(l: Label): seq<Field> {
    Int64Field(1, l.key) + if l.numUnit != 0 then Int64Field(3, l.num) + Int64Field(4, l.numUnit)
      else Int64Field(2, l.str)
  }

  function SampleFields(s: Sample): seq<Field> {
    ScalarFields(1, Wraps(s.locations)) + ScalarFields(2, Wraps(s.values)) +
      ChunkFields(3, EncodeAll(EncodeLabel, s.labels))
  }

  function MappingFields(m: Mapping): seq<Field> {
    Int64Field(1, m.id) + Int64Field(5, m.filename) + NonZeroField(6, m.buildId)
  }

  function LocationFields(l: Location): seq<Field> {
    Int64Field(1, l.id) + Int64Field(2, l.mapping) + Int64Field(3, l.address) +
      ChunkFields(4, EncodeAll(EncodeLine, l.lines))
  }

  function FunctionFields(f: Function): seq<Field> {
    Int64Field(1, f.id) + Int64Field(2, f.name) + Int64Field(3, f.systemName)
  }

  function TableFields(p: Profile): seq<Field> {
    ChunkFields(3, EncodeAll(EncodeMapping, p.mappings)) + ChunkFields(4, EncodeAll(EncodeLocation, p.locations)) +
    ChunkFields(5, EncodeAll(EncodeFunction, p.functions)) + ChunkFields(6, p.strings)
  }

  /** The times are given as the caller passed them: zero means unknown and is not written. */
  function HeaderFields(p: Profile, time: int, duration: int): seq<Field> {
    NonZeroField(9, time) + NonZeroField(10, duration) + [Chunk(11, EncodeValueType(p.periodType))] +
      Int64Field(12, p.period)
  }

  function ProfileFields(p: Profile, time: int, duration: int): seq<Field> {
    ChunkFields(1, EncodeAll(EncodeValueType, p.sampleTypes)) + ChunkFields(2, EncodeAll(EncodeSample, p.samples)) +
    TableFields(p) + HeaderFields(p, time, duration)
  }

  function EncodeValueType(t: ValueType): Bytes { Encode(ValueTypeFields(t)) }
  function EncodeLabel(l: Label): Bytes { Encode(LabelFields(l)) }
  function EncodeSample(s: Sample): Bytes { Encode(SampleFields(s)) }
  function EncodeMapping(m: Mapping): Bytes { Encode(MappingFields(m)) }
  function EncodeLine(l: Line): Bytes { Encode(Int64Field(1, l.function_)) }
  function EncodeLocation(l: Location): Bytes { Encode(LocationFields(l)) }
  function EncodeFunction(f: Function): Bytes { Encode(FunctionFields(f)) }
  function EncodeProfile(p: Profile, time: int, duration: int): Bytes { Encode(ProfileFields(p, time, duration)) }

  function EncodeAll<T>(enc: T -> Bytes, items: seq<T>): seq<Bytes> {
    seq(|items|, i requires 0 <= i < |items| => enc(items[i]))
  }

  // Reading the messages back by field number

  function ReadInt64(fields: seq<Field>, n: nat): int {
    Signed(LastOf(Scalars(fields, n)))
  }

  function ReadUint64(fields: seq<Field>, n: nat): nat {
    LastOf(Scalars(fields, n))
  }

  function SignedAll(words: seq<nat>): seq<int> {
    seq(|words|, i requires 0 <= i < |words| => Signed(words[i]))
  }

  function DecodeAll<T>(dec: Bytes -> Option<T>, chunks: seq<Bytes>): Option<seq<T>> {
    if chunks == [] then Some([])
    else
      match (dec(chunks[0]), DecodeAll(dec, chunks[1..]))
      case (Some(x), Some(xs)) => Some([x] + xs)
      case _ => None
  }

  function DecodeValueType(b: Bytes): Option<ValueType> {
    match Decode(b)
    case None => None
    case Some(fs) => Some(ValueType(ReadInt64(fs, 1), ReadInt64(fs, 2)))
  }

  function DecodeLabel(b: Bytes): Option<Label> {
    match Decode(b)
    case None => None
    case Some(fs) => Some(Label(ReadInt64(fs, 1), ReadInt64(fs, 2), ReadInt64(fs, 3), ReadInt64(fs, 4)))
  }

  function DecodeSample(b: Bytes): Option<Sample> {
    match Decode(b)
    case None => None
    case Some(fs) =>
      match DecodeAll(DecodeLabel, Chunks(fs, 3))
      case None => None
      case Some(labels) => Some(Sample(Scalars(fs, 1), SignedAll(Scalars(fs, 2)), labels))
  }

  function DecodeMapping(b: Bytes): Option<Mapping> {
    match Decode(b)
    case None => None
    case Some(fs) => Some(Mapping(ReadUint64(fs, 1), ReadInt64(fs, 5), ReadInt64(fs, 6)))
  }

  function DecodeLine(b: Bytes): Option<Line> {
    match Decode(b)
    case None => None
    case Some(fs) => Some(Line(ReadUint64(fs, 1)))
  }

  function DecodeLocation(b: Bytes): Option<Location> {
    match Decode(b)
    case None => None
    case Some(fs) =>
      match DecodeAll(DecodeLine, Chunks(fs, 4))
      case None => None
      case Some(lines) => Some(Location(ReadUint64(fs, 1), ReadUint64(fs, 2), ReadUint64(fs, 3), lines))
  }

  function DecodeFunction(b: Bytes): Option<Function> {
    match Decode(b)
    case None => None
    case Some(fs) => Some(Function(ReadUint64(fs, 1), ReadInt64(fs, 2), ReadInt64(fs, 3)))
  }

  function Joined(chunks: seq<Bytes>): Bytes {
    if chunks == [] then [] else chunks[0] + Joined(chunks[1..])
  }

  /** Occurrences of a singular message merge, which is the same as decoding their bytes joined. */
  function DecodeProfile(b: Bytes): Option<Profile> {
    match Decode(b)
    case None => None
    case Some(fs) =>
      match (DecodeAll(DecodeValueType, Chunks(fs, 1)), DecodeAll(DecodeSample, Chunks(fs, 2)),
             DecodeAll(DecodeMapping, Chunks(fs, 3)), DecodeAll(DecodeLocation, Chunks(fs, 4)),
             DecodeAll(DecodeFunction, Chunks(fs, 5)), DecodeValueType(Joined(Chunks(fs, 11))))
      case (Some(types), Some(samples), Some(mappings), Some(locations), Some(functions), Some(periodType)) =>
        Some(Profile(types, samples, mappings, locations, functions, Chunks(fs, 6),
                     ReadInt64(fs, 9), ReadInt64(fs, 10), periodType, ReadInt64(fs, 12)))
      case _ => None
  }

  // Round trips

  lemma SelectOne(f: Field, k: nat)
    ensures Scalars([f], k) == if f.Scalar? && f.number == k then [f.value] else []
    ensures Chunks([f], k) == if f.Chunk? && f.number == k then [f.data] else []
  {
    assert [f][1..] == [];
  }

  lemma SelectInt64(n: nat, v: int, k: nat)
    ensures Scalars(Int64Field(n, v), k) == if k == n then [Wrap(v)] else []
    ensures Chunks(Int64Field(n, v), k) == []
  {
    SelectOne(Scalar(n, Wrap(v)), k);
  }

  lemma SelectNonZero(n: nat, v: int, k: nat)
    ensures LastOf(Scalars(NonZeroField(n, v), k)) == if k == n then Wrap(v) else 0
    ensures k != n ==> Scalars(NonZeroField(n, v), k) == []
    ensures Chunks(NonZeroField(n, v), k) == []
  {
    if v != 0 {
      SelectInt64(n, v, k);
    }
  }

  lemma {:induction false} FieldInside(fields: seq<Field>, f: Field)
    requires f in fields
    ensures |EncodeField(f)| <= |Encode(fields)|
    ensures f.Chunk? ==> |f.data| <= |Encode(fields)|
  {
    if fields[0] != f {
      FieldInside(fields[1..], f);
    }
  }

  /** Encoded messages are decodable when their numbers are fields of the format and their values are words. */
  lemma MessageRoundTrip(fields: seq<Field>)
    requires |Encode(fields)| < WORD
    requires forall f :: f in fields ==> 1 <= f.number < 16 && (f.Scalar? ==> f.value < WORD)
    ensures Decode(Encode(fields)) == Some(fields)
  {
    forall f | f in fields
      ensures Encodable(f)
    {
      FieldInside(fields, f);
    }
    FieldsRoundTrip(fields);
  }

  lemma {:induction false} AllRoundTrip<T>(enc: T -> Bytes, dec: Bytes -> Option<T>, items: seq<T>)
    requires forall x :: x in items ==> dec(enc(x)) == Some(x)
    ensures DecodeAll(dec, EncodeAll(enc, items)) == Some(items)
  {
    if items != [] {
      assert EncodeAll(enc, items)[1..] == EncodeAll(enc, items[1..]);
      AllRoundTrip(enc, dec, items[1..]);
      assert [items[0]] + items[1..] == items;
    }
  }

  /** Each chunk of a repeated field is no longer than the message that holds it. */
  lemma ChunksInside<T>(fields: seq<Field>, n: nat, enc: T -> Bytes, items: seq<T>)
    requires forall f :: f in ChunkFields(n, EncodeAll(enc, items)) ==> f in fields
    ensures forall x :: x in items ==> |enc(x)| <= |Encode(fields)|
  {
    forall x | x in items
      ensures |enc(x)| <= |Encode(fields)|
    {
      var i :| 0 <= i < |items| && items[i] == x;
      assert ChunkFields(n, EncodeAll(enc, items))[i] == Chunk(n, enc(x));
      FieldInside(fields, Chunk(n, enc(x)));
    }
  }

  lemma SelectAfter(prefix: seq<Field>, n: nat, v: int, k: nat)
    ensures Scalars(prefix + Int64Field(n, v), k) == Scalars(prefix, k) + if k == n then [Wrap(v)] else []
    ensures Chunks(prefix + Int64Field(n, v), k) == Chunks(prefix, k)
  {
    SelectConcat(prefix, Int64Field(n, v), k);
    SelectInt64(n, v, k);
  }

  lemma TwoInts(a: nat, x: int, b: nat, y: int, k: nat)
    requires a != b
    ensures Scalars(Int64Field(a, x) + Int64Field(b, y), k) == if k == a then [Wrap(x)] else if k == b then [Wrap(y)]
      else []
    ensures Chunks(Int64Field(a, x) + Int64Field(b, y), k) == []
  {
    SelectAfter(Int64Field(a, x), b, y, k);
    SelectInt64(a, x, k);
  }

  lemma ThreeInts(a: nat, x: int, b: nat, y: int, c: nat, z: int, k: nat)
    requires a != b && a != c && b != c
    ensures Scalars(Int64Field(a, x) + Int64Field(b, y) + Int64Field(c, z), k) ==
      if k == a then [Wrap(x)] else if k == b then [Wrap(y)] else if k == c then [Wrap(z)] else []
    ensures Chunks(Int64Field(a, x) + Int64Field(b, y) + Int64Field(c, z), k) == []
  {
    SelectAfter(Int64Field(a, x) + Int64Field(b, y), c, z, k);
    TwoInts(a, x, b, y, k);
  }

  predicate ValueTypeOk(t: ValueType) {
    Int64(t.kind) && Int64(t.unit)
  }

  predicate LabelOk(l: Label) {
    Int64(l.key) && Int64(l.str) && Int64(l.num) && Int64(l.numUnit) && if l.numUnit != 0 then l.str == 0
      else l.num == 0
  }

  predicate SampleOk(s: Sample) {
    && (forall id :: id in s.locations ==> id < WORD)
    && (forall v :: v in s.values ==> Int64(v))
    && (forall l :: l in s.labels ==> LabelOk(l))
  }

  predicate MappingOk(m: Mapping) {
    m.id < WORD && Int64(m.filename) && Int64(m.buildId)
  }

  predicate LocationOk(l: Location) {
    && l.id < WORD && l.mapping < WORD && l.address < WORD
    && forall x :: x in l.lines ==> x.function_ < WORD
  }

  predicate FunctionOk(f: Function) {
    f.id < WORD && Int64(f.name) && Int64(f.systemName)
  }

  /** Every number of the profile is inside the type its field has in the format. */
  predicate ProfileOk(p: Profile) {
    && (forall t :: t in p.sampleTypes ==> ValueTypeOk(t))
    && (forall s :: s in p.samples ==> SampleOk(s))
    && (forall m :: m in p.mappings ==> MappingOk(m))
    && (forall l :: l in p.locations ==> LocationOk(l))
    && (forall f :: f in p.functions ==> FunctionOk(f))
    && ValueTypeOk(p.periodType)
    && Int64(p.period)
  }

  lemma ValueTypeRoundTrip(t: ValueType)
    requires ValueTypeOk(t) && |EncodeValueType(t)| < WORD
    ensures DecodeValueType(EncodeValueType(t)) == Some(t)
  {
    MessageRoundTrip(ValueTypeFields(t));
    TwoInts(1, t.kind, 2, t.unit, 1);
    TwoInts(1, t.kind, 2, t.unit, 2);
    WrapSigned(t.kind);
    WrapSigned(t.unit);
  }

  lemma StringLabelRoundTrip(l: Label)
    requires LabelOk(l) && l.numUnit == 0 && |EncodeLabel(l)| < WORD
    ensures DecodeLabel(EncodeLabel(l)) == Some(l)
  {
    MessageRoundTrip(LabelFields(l));
    TwoInts(1, l.key, 2, l.str, 1);
    TwoInts(1, l.key, 2, l.str, 2);
    TwoInts(1, l.key, 2, l.str, 3);
    TwoInts(1, l.key, 2, l.str, 4);
    WrapSigned(l.key);
    WrapSigned(l.str);
  }

  lemma ReadNumericLabel(l: Label)
    requires LabelOk(l) && l.numUnit != 0
    ensures ReadInt64(LabelFields(l), 1) == l.key
    ensures ReadInt64(LabelFields(l), 2) == l.str
    ensures ReadInt64(LabelFields(l), 3) == l.num
    ensures ReadInt64(LabelFields(l), 4) == l.numUnit
  {
    assert LabelFields(l) == Int64Field(1, l.key) + Int64Field(3, l.num) + Int64Field(4, l.numUnit);
    ThreeInts(1, l.key, 3, l.num, 4, l.numUnit, 1);
    ThreeInts(1, l.key, 3, l.num, 4, l.numUnit, 2);
    ThreeInts(1, l.key, 3, l.num, 4, l.numUnit, 3);
    ThreeInts(1, l.key, 3, l.num, 4, l.numUnit, 4);
    WrapSigned(l.key);
    WrapSigned(l.num);
    WrapSigned(l.numUnit);
  }

  lemma NumericLabelRoundTrip(l: Label)
    requires LabelOk(l) && l.numUnit != 0 && |EncodeLabel(l)| < WORD
    ensures DecodeLabel(EncodeLabel(l)) == Some(l)
  {
    ReadNumericLabel(l);
    MessageRoundTrip(LabelFields(l));
  }

  lemma SelectSampleScalars(ids: seq<nat>, values: seq<nat>, labels: seq<Bytes>, k: nat)
    ensures Scalars(ScalarFields(1, ids) + ScalarFields(2, values) + ChunkFields(3, labels), k) ==
      if k == 1 then ids else if k == 2 then values else []
  {
    var a, b, c := ScalarFields(1, ids), ScalarFields(2, values), ChunkFields(3, labels);
    ScalarsConcat(a + b, c, k);
    ScalarsConcat(a, b, k);
    SelectScalars(1, ids, k);
    SelectScalars(2, values, k);
    SelectChunks(3, labels, k);
  }

  lemma SelectSampleChunks(ids: seq<nat>, values: seq<nat>, labels: seq<Bytes>, k: nat)
    ensures Chunks(ScalarFields(1, ids) + ScalarFields(2, values) + ChunkFields(3, labels), k) == if k == 3
      then labels else []
  {
    var a, b, c := ScalarFields(1, ids), ScalarFields(2, values), ChunkFields(3, labels);
    ChunksConcat(a + b, c, k);
    ChunksConcat(a, b, k);
    SelectScalars(1, ids, k);
    SelectScalars(2, values, k);
    SelectChunks(3, labels, k);
  }

  lemma SelectSample(s: Sample, k: nat)
    ensures Scalars(SampleFields(s), k) == if k == 1 then Wraps(s.locations) else if k == 2 then Wraps(s.values) else []
    ensures Chunks(SampleFields(s), k) == if k == 3 then EncodeAll(EncodeLabel, s.labels) else []
  {
    SelectSampleScalars(Wraps(s.locations), Wraps(s.values), EncodeAll(EncodeLabel, s.labels), k);
    SelectSampleChunks(Wraps(s.locations), Wraps(s.values), EncodeAll(EncodeLabel, s.labels), k);
  }

  lemma SampleFieldsOk(s: Sample)
    requires SampleOk(s)
    ensures forall f :: f in SampleFields(s) ==> 1 <= f.number < 16 && (f.Scalar? ==> f.value < WORD)
  {
    var a, b := ScalarFields(1, Wraps(s.locations)), ScalarFields(2, Wraps(s.values));
    assert forall f :: f in a ==> f.Scalar? && f.number == 1 && f.value in Wraps(s.locations);
    assert forall f :: f in b ==> f.Scalar? && f.number == 2 && f.value in Wraps(s.values);
  }

  lemma LabelsRoundTrip(s: Sample)
    requires SampleOk(s) && |EncodeSample(s)| < WORD
    ensures DecodeAll(DecodeLabel, EncodeAll(EncodeLabel, s.labels)) == Some(s.labels)
  {
    ChunksInside(SampleFields(s), 3, EncodeLabel, s.labels);
    forall l | l in s.labels
      ensures DecodeLabel(EncodeLabel(l)) == Some(l)
    {
      if l.numUnit == 0 { StringLabelRoundTrip(l); } else { NumericLabelRoundTrip(l); }
    }
    AllRoundTrip(EncodeLabel, DecodeLabel, s.labels);
  }

  lemma SignedWraps(values: seq<int>)
    requires forall v :: v in values ==> Int64(v)
    ensures SignedAll(Wraps(values)) == values
  {
    forall i | 0 <= i < |values|
      ensures Signed(Wraps(values)[i]) == values[i]
    {
      assert values[i] in values;
      WrapSigned(values[i]);
    }
  }

  lemma WrapsWords(words: seq<nat>)
    requires forall w :: w in words ==> w < WORD
    ensures Wraps(words) == words
  {
    assert forall i :: 0 <= i < |words| ==> words[i] in words;
  }

  lemma ReadSample(s: Sample)
    requires SampleOk(s)
    ensures Scalars(SampleFields(s), 1) == s.locations
    ensures SignedAll(Scalars(SampleFields(s), 2)) == s.values
    ensures Chunks(SampleFields(s), 3) == EncodeAll(EncodeLabel, s.labels)
  {
    SelectSample(s, 1);
    SelectSample(s, 2);
    SelectSample(s, 3);
    SignedWraps(s.values);
    WrapsWords(s.locations);
  }

  lemma SampleRoundTrip(s: Sample)
    requires SampleOk(s) && |EncodeSample(s)| < WORD
    ensures DecodeSample(EncodeSample(s)) == Some(s)
  {
    assert Decode(EncodeSample(s)) == Some(SampleFields(s)) by {
      SampleFieldsOk(s);
      MessageRoundTrip(SampleFields(s));
    }
    ReadSample(s);
    LabelsRoundTrip(s);
  }

  lemma SelectMapping(m: Mapping, k: nat)
    ensures LastOf(Scalars(MappingFields(m), k)) ==
      if k == 1 then Wrap(m.id) else if k == 5 then Wrap(m.filename) else if k == 6 then Wrap(m.buildId) else 0
  {
    SelectConcat(Int64Field(1, m.id) + Int64Field(5, m.filename), NonZeroField(6, m.buildId), k);
    TwoInts(1, m.id, 5, m.filename, k);
    SelectNonZero(6, m.buildId, k);
  }

  lemma ReadMapping(m: Mapping)
    requires MappingOk(m)
    ensures ReadUint64(MappingFields(m), 1) == m.id
    ensures ReadInt64(MappingFields(m), 5) == m.filename
    ensures ReadInt64(MappingFields(m), 6) == m.buildId
  {
    SelectMapping(m, 1);
    SelectMapping(m, 5);
    SelectMapping(m, 6);
    WrapSigned(m.filename);
    WrapSigned(m.buildId);
  }

  lemma MappingRoundTrip(m: Mapping)
    requires MappingOk(m) && |EncodeMapping(m)| < WORD
    ensures DecodeMapping(EncodeMapping(m)) == Some(m)
  {
    ReadMapping(m);
    MessageRoundTrip(MappingFields(m));
  }

  lemma LineRoundTrip(l: Line)
    requires l.function_ < WORD && |EncodeLine(l)| < WORD
    ensures DecodeLine(EncodeLine(l)) == Some(l)
  {
    var fields := Int64Field(1, l.function_);
    assert ReadUint64(fields, 1) == l.function_ by {
      SelectInt64(1, l.function_, 1);
    }
    MessageRoundTrip(fields);
  }

  lemma SelectLocation(l: Location, k: nat)
    ensures Scalars(LocationFields(l), k) ==
      if k == 1 then [Wrap(l.id)] else if k == 2 then [Wrap(l.mapping)] else if k == 3 then [Wrap(l.address)] else []
    ensures Chunks(LocationFields(l), k) == if k == 4 then EncodeAll(EncodeLine, l.lines) else []
  {
    var ints := Int64Field(1, l.id) + Int64Field(2, l.mapping) + Int64Field(3, l.address);
    var lines := EncodeAll(EncodeLine, l.lines);
    SelectConcat(ints, ChunkFields(4, lines), k);
    ThreeInts(1, l.id, 2, l.mapping, 3, l.address, k);
    SelectChunks(4, lines, k);
  }

  lemma LinesRoundTrip(l: Location)
    requires LocationOk(l) && |EncodeLocation(l)| < WORD
    ensures DecodeAll(DecodeLine, EncodeAll(EncodeLine, l.lines)) == Some(l.lines)
  {
    ChunksInside(LocationFields(l), 4, EncodeLine, l.lines);
    forall x | x in l.lines
      ensures DecodeLine(EncodeLine(x)) == Some(x)
    {
      LineRoundTrip(x);
    }
    AllRoundTrip(EncodeLine, DecodeLine, l.lines);
  }

  lemma ReadLocation(l: Location)
    requires LocationOk(l)
    ensures ReadUint64(LocationFields(l), 1) == l.id
    ensures ReadUint64(LocationFields(l), 2) == l.mapping
    ensures ReadUint64(LocationFields(l), 3) == l.address
    ensures Chunks(LocationFields(l), 4) == EncodeAll(EncodeLine, l.lines)
  {
    SelectLocation(l, 1);
    SelectLocation(l, 2);
    SelectLocation(l, 3);
    SelectLocation(l, 4);
  }

  lemma LocationBytes(l: Location)
    requires |EncodeLocation(l)| < WORD
    ensures Decode(EncodeLocation(l)) == Some(LocationFields(l))
  {
    assert forall f :: f in ChunkFields(4, EncodeAll(EncodeLine, l.lines)) ==> f.Chunk? && f.number == 4;
    MessageRoundTrip(LocationFields(l));
  }

  lemma LocationRoundTrip(l: Location)
    requires LocationOk(l) && |EncodeLocation(l)| < WORD
    ensures DecodeLocation(EncodeLocation(l)) == Some(l)
  {
    ReadLocation(l);
    LinesRoundTrip(l);
    LocationBytes(l);
  }

  lemma ReadFunction(f: Function)
    requires FunctionOk(f)
    ensures ReadUint64(FunctionFields(f), 1) == f.id
    ensures ReadInt64(FunctionFields(f), 2) == f.name
    ensures ReadInt64(FunctionFields(f), 3) == f.systemName
  {
    ThreeInts(1, f.id, 2, f.name, 3, f.systemName, 1);
    ThreeInts(1, f.id, 2, f.name, 3, f.systemName, 2);
    ThreeInts(1, f.id, 2, f.name, 3, f.systemName, 3);
    WrapSigned(f.name);
    WrapSigned(f.systemName);
  }

  lemma FunctionRoundTrip(f: Function)
    requires FunctionOk(f) && |EncodeFunction(f)| < WORD
    ensures DecodeFunction(EncodeFunction(f)) == Some(f)
  {
    ReadFunction(f);
    MessageRoundTrip(FunctionFields(f));
  }

  lemma SelectTables(p: Profile, k: nat)
    ensures Scalars(TableFields(p), k) == []
    ensures Chunks(TableFields(p), k) ==
      if k == 3 then EncodeAll(EncodeMapping, p.mappings)
      else if k == 4 then EncodeAll(EncodeLocation, p.locations)
      else if k == 5 then EncodeAll(EncodeFunction, p.functions)
      else if k == 6 then p.strings
      else []
  {
    FourChunks(EncodeAll(EncodeMapping, p.mappings), EncodeAll(EncodeLocation, p.locations),
      EncodeAll(EncodeFunction, p.functions),
               p.strings, k);
  }

  lemma TwoChunks(m: nat, a: seq<Bytes>, n: nat, b: seq<Bytes>, k: nat)
    requires m != n
    ensures Scalars(ChunkFields(m, a) + ChunkFields(n, b), k) == []
    ensures Chunks(ChunkFields(m, a) + ChunkFields(n, b), k) == if k == m then a else if k == n then b else []
  {
    SelectConcat(ChunkFields(m, a), ChunkFields(n, b), k);
    SelectChunks(m, a, k);
    SelectChunks(n, b, k);
  }

  lemma FourChunks(a: seq<Bytes>, b: seq<Bytes>, c: seq<Bytes>, d: seq<Bytes>, k: nat)
    ensures var fields := ChunkFields(3, a) + ChunkFields(4, b) + ChunkFields(5, c) + ChunkFields(6, d);
      && Scalars(fields, k) == []
      && Chunks(fields, k) == if k == 3 then a else if k == 4 then b else if k == 5 then c else if k == 6 then d else []
  {
    var left, right := ChunkFields(3, a) + ChunkFields(4, b), ChunkFields(5, c) + ChunkFields(6, d);
    assert left + ChunkFields(5, c) + ChunkFields(6, d) == left + right;
    SelectConcat(left, right, k);
    TwoChunks(3, a, 4, b, k);
    TwoChunks(5, c, 6, d, k);
  }

  lemma SelectHeader(p: Profile, time: int, duration: int, k: nat)
    ensures LastOf(Scalars(HeaderFields(p, time, duration), k)) ==
      if k == 9 then Wrap(time) else if k == 10 then Wrap(duration) else if k == 12 then Wrap(p.period) else 0
    ensures Chunks(HeaderFields(p, time, duration), k) == if k == 11 then [EncodeValueType(p.periodType)] else []
  {
    var t, d, c := NonZeroField(9, time), NonZeroField(10, duration), Chunk(11, EncodeValueType(p.periodType));
    SelectAfter(t + d + [c], 12, p.period, k);
    SelectConcat(t + d, [c], k);
    SelectConcat(t, d, k);
    SelectNonZero(9, time, k);
    SelectNonZero(10, duration, k);
    SelectOne(c, k);
  }

  lemma SelectProfile(p: Profile, time: int, duration: int, k: nat)
    ensures LastOf(Scalars(ProfileFields(p, time, duration), k)) == LastOf(Scalars(HeaderFields(p, time, duration), k))
    ensures Chunks(ProfileFields(p, time, duration), k) ==
      if k == 1 then EncodeAll(EncodeValueType, p.sampleTypes)
      else if k == 2 then EncodeAll(EncodeSample, p.samples)
      else if k == 11 then [EncodeValueType(p.periodType)]
      else Chunks(TableFields(p), k)
  {
    var ts, ss := EncodeAll(EncodeValueType, p.sampleTypes), EncodeAll(EncodeSample, p.samples);
    ThreeParts(ChunkFields(1, ts) + ChunkFields(2, ss), TableFields(p), HeaderFields(p, time, duration), k);
    TwoChunks(1, ts, 2, ss, k);
    SelectTables(p, k);
    SelectHeader(p, time, duration, k);
  }

  lemma ThreeParts(a: seq<Field>, b: seq<Field>, c: seq<Field>, k: nat)
    ensures Scalars(a + b + c, k) == Scalars(a, k) + Scalars(b, k) + Scalars(c, k)
    ensures Chunks(a + b + c, k) == Chunks(a, k) + Chunks(b, k) + Chunks(c, k)
  {
    SelectConcat(a + b, c, k);
    SelectConcat(a, b, k);
  }

  lemma ValueTypesRoundTrip(types: seq<ValueType>)
    requires forall t :: t in types ==> ValueTypeOk(t) && |EncodeValueType(t)| < WORD
    ensures DecodeAll(DecodeValueType, EncodeAll(EncodeValueType, types)) == Some(types)
  {
    forall t | t in types ensures DecodeValueType(EncodeValueType(t)) == Some(t) { ValueTypeRoundTrip(t); }
    AllRoundTrip(EncodeValueType, DecodeValueType, types);
  }

  lemma SamplesRoundTrip(samples: seq<Sample>)
    requires forall s :: s in samples ==> SampleOk(s) && |EncodeSample(s)| < WORD
    ensures DecodeAll(DecodeSample, EncodeAll(EncodeSample, samples)) == Some(samples)
  {
    forall s | s in samples ensures DecodeSample(EncodeSample(s)) == Some(s) { SampleRoundTrip(s); }
    AllRoundTrip(EncodeSample, DecodeSample, samples);
  }

  lemma MappingsRoundTrip(mappings: seq<Mapping>)
    requires forall m :: m in mappings ==> MappingOk(m) && |EncodeMapping(m)| < WORD
    ensures DecodeAll(DecodeMapping, EncodeAll(EncodeMapping, mappings)) == Some(mappings)
  {
    forall m | m in mappings ensures DecodeMapping(EncodeMapping(m)) == Some(m) { MappingRoundTrip(m); }
    AllRoundTrip(EncodeMapping, DecodeMapping, mappings);
  }

  lemma LocationsRoundTrip(locations: seq<Location>)
    requires forall l :: l in locations ==> LocationOk(l) && |EncodeLocation(l)| < WORD
    ensures DecodeAll(DecodeLocation, EncodeAll(EncodeLocation, locations)) == Some(locations)
  {
    forall l | l in locations ensures DecodeLocation(EncodeLocation(l)) == Some(l) { LocationRoundTrip(l); }
    AllRoundTrip(EncodeLocation, DecodeLocation, locations);
  }

  lemma FunctionsRoundTrip(functions: seq<Function>)
    requires forall f :: f in functions ==> FunctionOk(f) && |EncodeFunction(f)| < WORD
    ensures DecodeAll(DecodeFunction, EncodeAll(EncodeFunction, functions)) == Some(functions)
  {
    forall f | f in functions ensures DecodeFunction(EncodeFunction(f)) == Some(f) { FunctionRoundTrip(f); }
    AllRoundTrip(EncodeFunction, DecodeFunction, functions);
  }

  /** The message bytes of a profile are shorter than the profile. */
  lemma PartsInside(p: Profile, time: int, duration: int)
    ensures var size := |EncodeProfile(p, time, duration)|;
      && (forall t :: t in p.sampleTypes ==> |EncodeValueType(t)| <= size)
      && (forall s :: s in p.samples ==> |EncodeSample(s)| <= size)
      && (forall m :: m in p.mappings ==> |EncodeMapping(m)| <= size)
      && (forall l :: l in p.locations ==> |EncodeLocation(l)| <= size)
      && (forall f :: f in p.functions ==> |EncodeFunction(f)| <= size)
      && |EncodeValueType(p.periodType)| <= size
  {
    var fields := ProfileFields(p, time, duration);
    assert forall f :: f in TableFields(p) ==> f in fields;
    assert forall f :: f in HeaderFields(p, time, duration) ==> f in fields;
    ChunksInside(fields, 1, EncodeValueType, p.sampleTypes);
    ChunksInside(fields, 2, EncodeSample, p.samples);
    ChunksInside(fields, 3, EncodeMapping, p.mappings);
    ChunksInside(fields, 4, EncodeLocation, p.locations);
    ChunksInside(fields, 5, EncodeFunction, p.functions);
    FieldInside(fields, Chunk(11, EncodeValueType(p.periodType)));
  }

  lemma ProfileFieldsOk(p: Profile, time: int, duration: int)
    ensures forall f :: f in ProfileFields(p, time, duration) ==> 1 <= f.number < 16 && (f.Scalar? ==> f.value < WORD)
  {
    assert forall f :: f in TableFields(p) ==> f.Chunk? && 3 <= f.number <= 6;
    assert forall f :: f in HeaderFields(p, time, duration) ==> 9 <= f.number <= 12 && (f.Scalar? ==> f.value < WORD);
    assert forall f :: f in ChunkFields(1, EncodeAll(EncodeValueType, p.sampleTypes)) ==> f.Chunk? && f.number == 1;
    assert forall f :: f in ChunkFields(2, EncodeAll(EncodeSample, p.samples)) ==> f.Chunk? && f.number == 2;
  }

  lemma ProfileBytes(p: Profile, time: int, duration: int)
    requires |EncodeProfile(p, time, duration)| < WORD
    ensures Decode(EncodeProfile(p, time, duration)) == Some(ProfileFields(p, time, duration))
  {
    ProfileFieldsOk(p, time, duration);
    MessageRoundTrip(ProfileFields(p, time, duration));
  }

  /** A protobuf reader gets back every message and every number of an encoded profile. */
  lemma ProfileRoundTrip(p: Profile, time: int, duration: int)
    requires ProfileOk(p) && |EncodeProfile(p, time, duration)| < WORD
    ensures DecodeProfile(EncodeProfile(p, time, duration)) ==
      Some(p.(time := Signed(Wrap(time)), duration := Signed(Wrap(duration))))
  {
    ProfileBytes(p, time, duration);
    PartsInside(p, time, duration);
    ValueTypesRoundTrip(p.sampleTypes);
    SamplesRoundTrip(p.samples);
    MappingsRoundTrip(p.mappings);
    LocationsRoundTrip(p.locations);
    FunctionsRoundTrip(p.functions);
    ReadProfile(p, time, duration);
  }

  lemma ReadProfile(p: Profile, time: int, duration: int)
    requires ValueTypeOk(p.periodType) && Int64(p.period) && |EncodeValueType(p.periodType)| < WORD
    ensures var fs := ProfileFields(p, time, duration);
      && Chunks(fs, 1) == EncodeAll(EncodeValueType, p.sampleTypes)
      && Chunks(fs, 2) == EncodeAll(EncodeSample, p.samples)
      && Chunks(fs, 3) == EncodeAll(EncodeMapping, p.mappings)
      && Chunks(fs, 4) == EncodeAll(EncodeLocation, p.locations)
      && Chunks(fs, 5) == EncodeAll(EncodeFunction, p.functions)
      && Chunks(fs, 6) == p.strings
      && ReadInt64(fs, 9) == Signed(Wrap(time)) && ReadInt64(fs, 10) == Signed(Wrap(duration)) &&
        ReadInt64(fs, 12) == p.period
      && DecodeValueType(Joined(Chunks(fs, 11))) == Some(p.periodType)
  {
    ReadTables(p, time, duration);
    ReadHeader(p, time, duration);
  }

  lemma ReadTables(p: Profile, time: int, duration: int)
    ensures var fs := ProfileFields(p, time, duration);
      && Chunks(fs, 1) == EncodeAll(EncodeValueType, p.sampleTypes)
      && Chunks(fs, 2) == EncodeAll(EncodeSample, p.samples)
      && Chunks(fs, 3) == EncodeAll(EncodeMapping, p.mappings)
      && Chunks(fs, 4) == EncodeAll(EncodeLocation, p.locations)
      && Chunks(fs, 5) == EncodeAll(EncodeFunction, p.functions)
      && Chunks(fs, 6) == p.strings
  {
    SelectProfile(p, time, duration, 1);
    SelectProfile(p, time, duration, 2);
    SelectProfile(p, time, duration, 3);
    SelectProfile(p, time, duration, 4);
    SelectProfile(p, time, duration, 5);
    SelectProfile(p, time, duration, 6);
    SelectTables(p, 3);
    SelectTables(p, 4);
    SelectTables(p, 5);
    SelectTables(p, 6);
  }

  lemma ReadHeader(p: Profile, time: int, duration: int)
    requires ValueTypeOk(p.periodType) && Int64(p.period) && |EncodeValueType(p.periodType)| < WORD
    ensures var fs := ProfileFields(p, time, duration);
      && ReadInt64(fs, 9) == Signed(Wrap(time)) && ReadInt64(fs, 10) == Signed(Wrap(duration)) &&
        ReadInt64(fs, 12) == p.period
      && DecodeValueType(Joined(Chunks(fs, 11))) == Some(p.periodType)
  {
    assert DecodeValueType(Joined([EncodeValueType(p.periodType)])) == Some(p.periodType) by {
      ValueTypeRoundTrip(p.periodType);
      JoinedOne(EncodeValueType(p.periodType));
    }
    assert Chunks(ProfileFields(p, time, duration), 11) == [EncodeValueType(p.periodType)] by {
      SelectProfile(p, time, duration, 11);
    }
    ReadTimes(p, time, duration);
  }

  lemma JoinedOne(b: Bytes)
    ensures Joined([b]) == b
  {
    assert [b][1..] == [] && b + [] == b;
  }

  lemma ReadTimes(p: Profile, time: int, duration: int)
    requires Int64(p.period)
    ensures var fs := ProfileFields(p, time, duration);
      ReadInt64(fs, 9) == Signed(Wrap(time)) && ReadInt64(fs, 10) == Signed(Wrap(duration)) &&
        ReadInt64(fs, 12) == p.period
  {
    SelectProfile(p, time, duration, 9);
    SelectProfile(p, time, duration, 10);
    SelectProfile(p, time, duration, 12);
    SelectHeader(p, time, duration, 9);
    SelectHeader(p, time, duration, 10);
    SelectHeader(p, time, duration, 12);
    WrapSigned(p.period);
  }
}
