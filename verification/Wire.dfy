/**
 The protobuf wire format as the profile builder writes it, and a decoder for it written from the
 Protocol Buffers encoding rules: base-128 varints, tags, length-delimited records.
 */
module Wire {
  import opened Wrappers

  type Byte = x: int | 0 <= x < 256
  type Bytes = seq<Byte>

  const WORD: int := 0x1_0000_0000_0000_0000
  const HALF: int := 0x8000_0000_0000_0000
  const VARINT_BYTES: nat := 10

  function Wrap(v: int): nat {
    v % WORD
  }

  function Signed(w: nat): int {
    if w < HALF then w else w - WORD
  }

  /** Two's complement: reading a wrapped value back as int64 is the value modulo 2^64. */
  lemma WrapSigned(v: int)
    ensures Wrap(Signed(Wrap(v))) == Wrap(v)
    ensures -HALF <= v < HALF ==> Signed(Wrap(v)) == v
  {
    if Wrap(v) >= HALF {
      assert (Wrap(v) - WORD) % WORD == Wrap(v);
    }
  }

  // Varints

  function Varint(w: nat): (b: Bytes)
    ensures 1 <= |b|
  {
    if w < 128 then [w] else [128 + w % 128] + Varint(w / 128)
  }

  method EncodeVarint(value: int) returns (out: Bytes)
    ensures out == Varint(Wrap(value))
  {
    var v: nat := Wrap(value);
    out := [];
    while true
      invariant out + Varint(v) == Varint(Wrap(value))
      decreases v
    {
      var b: Byte := v % 128;
      ghost var was := v;
      v := v / 128;
      if v != 0 {
        assert Varint(was) == [128 + b] + Varint(v);
        assert out + Varint(was) == (out + [128 + b]) + Varint(v);
        out := out + [128 + b];
      } else {
        out := out + [b];
        return;
      }
    }
  }

  datatype Read<+T> = Malformed | Got(value: T, rest: Bytes)

  /** Little-endian groups of seven bits, the high bit of each byte saying that more follow. */
  function ReadGroups(b: Bytes, limit: nat): Read<nat> {
    if limit == 0 || b == [] then Malformed
    else if b[0] < 128 then Got(b[0], b[1..])
    else match ReadGroups(b[1..], limit - 1)
      case Malformed => Malformed
      case Got(high, rest) => Got(b[0] - 128 + 128 * high, rest)
  }

  function ReadVarint(b: Bytes): Read<nat> {
    match ReadGroups(b, VARINT_BYTES)
    case Malformed => Malformed
    case Got(v, rest) => Got(Wrap(v), rest)
  }

  function Capacity(groups: nat): nat {
    if groups == 0 then 1 else 128 * Capacity(groups - 1)
  }

  lemma {:induction false} GroupsRoundTrip(w: nat, rest: Bytes, limit: nat)
    requires limit > 0 && w < Capacity(limit)
    ensures ReadGroups(Varint(w) + rest, limit) == Got(w, rest)
  {
    var b := Varint(w) + rest;
    if w < 128 {
      assert b[1..] == rest;
    } else {
      assert b[1..] == Varint(w / 128) + rest;
      GroupsRoundTrip(w / 128, rest, limit - 1);
    }
  }

  lemma VarintRoundTrip(w: nat, rest: Bytes)
    requires w < WORD
    ensures ReadVarint(Varint(w) + rest) == Got(w, rest)
  {
    assert Capacity(VARINT_BYTES) == 0x40_0000_0000_0000_0000 by {
      assert Capacity(4) == 0x1000_0000;
      assert Capacity(8) == 0x100_0000_0000_0000;
    }
    GroupsRoundTrip(w, rest, VARINT_BYTES);
  }

  // Fields

  datatype Field =
    | Scalar(number: nat, value: nat)
    | Chunk(number: nat, data: Bytes)

  /** What the wire can carry: a 29-bit field number, a 64-bit value or length. */
  predicate Encodable(f: Field) {
    && 1 <= f.number < 0x2000_0000
    && match f
       case Scalar(_, v) => v < WORD
       case Chunk(_, data) => |data| < WORD
  }

  function Tag(number: nat, wire: nat): Bytes {
    Varint(8 * number + wire)
  }

  function EncodeField(f: Field): Bytes {
    match f
    case Scalar(n, v) => Tag(n, 0) + Varint(v)
    case Chunk(n, data) => Tag(n, 2) + Varint(Wrap(|data|)) + data
  }

  function Encode(fields: seq<Field>): Bytes {
    if fields == [] then [] else EncodeField(fields[0]) + Encode(fields[1..])
  }

  /** One field: varint, 64-bit, length-delimited and 32-bit payloads; groups and field number 0 are refused. */
  function ReadField(b: Bytes): Read<Option<Field>> {
    match ReadVarint(b)
    case Malformed => Malformed
    case Got(tag, rest) =>
      var n, wire := tag / 8, tag % 8;
      if n == 0 || n >= 0x2000_0000 then Malformed
      else if wire == 0 then
        (match ReadVarint(rest)
         case Malformed => Malformed
         case Got(v, tail) => Got(Some(Scalar(n, v)), tail))
      else if wire == 2 then
        (match ReadVarint(rest)
         case Malformed => Malformed
         case Got(size, tail) =>
           if size <= |tail| then Got(Some(Chunk(n, tail[..size])), tail[size..]) else Malformed)
      else if wire == 1 && 8 <= |rest| then Got(None, rest[8..])
      else if wire == 5 && 4 <= |rest| then Got(None, rest[4..])
      else Malformed
  }

  lemma GroupsShrink(b: Bytes, limit: nat)
    ensures ReadGroups(b, limit).Got? ==> |ReadGroups(b, limit).rest| < |b|
  {
  }

  lemma FieldShrinks(b: Bytes)
    ensures ReadField(b).Got? ==> |ReadField(b).rest| < |b|
  {
    GroupsShrink(b, VARINT_BYTES);
    if ReadVarint(b).Got? {
      GroupsShrink(ReadVarint(b).rest, VARINT_BYTES);
    }
  }

  /** All fields of a message in order; fixed-width ones are unknown here and skipped. */
  function Decode(b: Bytes): Option<seq<Field>>
    decreases |b|
  {
    if b == [] then Some([])
    else
      match ReadField(b)
      case Malformed => None
      case Got(f, rest) =>
        FieldShrinks(b);
        match Decode(rest)
        case None => None
        case Some(more) => Some(if f.Some? then [f.value] + more else more)
  }

  lemma ScalarRoundTrip(n: nat, v: nat, rest: Bytes)
    requires Encodable(Scalar(n, v))
    ensures ReadField(EncodeField(Scalar(n, v)) + rest) == Got(Some(Scalar(n, v)), rest)
  {
    assert EncodeField(Scalar(n, v)) + rest == Varint(8 * n) + (Varint(v) + rest);
    VarintRoundTrip(8 * n, Varint(v) + rest);
    VarintRoundTrip(v, rest);
  }

  lemma ChunkRoundTrip(n: nat, data: Bytes, rest: Bytes)
    requires Encodable(Chunk(n, data))
    ensures ReadField(EncodeField(Chunk(n, data)) + rest) == Got(Some(Chunk(n, data)), rest)
  {
    var tail := data + rest;
    assert EncodeField(Chunk(n, data)) + rest == Varint(8 * n + 2) + (Varint(|data|) + tail);
    VarintRoundTrip(8 * n + 2, Varint(|data|) + tail);
    VarintRoundTrip(|data|, tail);
    assert tail[..|data|] == data && tail[|data|..] == rest;
  }

  /** The wire format loses nothing: any encodable fields are decoded back, in order. */
  lemma {:induction false} FieldsRoundTrip(fields: seq<Field>)
    requires forall f :: f in fields ==> Encodable(f)
    ensures Decode(Encode(fields)) == Some(fields)
  {
    if fields != [] {
      var rest := Encode(fields[1..]);
      match fields[0] {
        case Scalar(n, v) => ScalarRoundTrip(n, v, rest);
        case Chunk(n, data) => ChunkRoundTrip(n, data, rest);
      }
      FieldsRoundTrip(fields[1..]);
      assert [fields[0]] + fields[1..] == fields;
    }
  }

  lemma {:induction false} EncodeConcat(a: seq<Field>, b: seq<Field>)
    ensures Encode(a + b) == Encode(a) + Encode(b)
  {
    if a == [] {
      assert a + b == b;
    } else {
      assert (a + b)[1..] == a[1..] + b;
      EncodeConcat(a[1..], b);
    }
  }

  lemma EncodeOne(f: Field)
    ensures Encode([f]) == EncodeField(f)
  {
    assert [f][1..] == [];
  }

  // Reading a message: repeated fields in order, the last occurrence of a singular one

  function Scalars(fields: seq<Field>, n: nat): seq<nat> {
    if fields == [] then []
    else (if fields[0].Scalar? && fields[0].number == n then [fields[0].value] else []) + Scalars(fields[1..], n)
  }

  function Chunks(fields: seq<Field>, n: nat): seq<Bytes> {
    if fields == [] then []
    else (if fields[0].Chunk? && fields[0].number == n then [fields[0].data] else []) + Chunks(fields[1..], n)
  }

  function LastOf(values: seq<nat>): nat {
    if values == [] then 0 else values[|values| - 1]
  }

  lemma {:induction false} ScalarsConcat(a: seq<Field>, b: seq<Field>, n: nat)
    ensures Scalars(a + b, n) == Scalars(a, n) + Scalars(b, n)
  {
    if a == [] {
      assert a + b == b;
    } else {
      assert (a + b)[1..] == a[1..] + b;
      ScalarsConcat(a[1..], b, n);
    }
  }

  lemma {:induction false} ChunksConcat(a: seq<Field>, b: seq<Field>, n: nat)
    ensures Chunks(a + b, n) == Chunks(a, n) + Chunks(b, n)
  {
    if a == [] {
      assert a + b == b;
    } else {
      assert (a + b)[1..] == a[1..] + b;
      ChunksConcat(a[1..], b, n);
    }
  }

  lemma SelectConcat(a: seq<Field>, b: seq<Field>, n: nat)
    ensures Scalars(a + b, n) == Scalars(a, n) + Scalars(b, n)
    ensures Chunks(a + b, n) == Chunks(a, n) + Chunks(b, n)
  {
    ScalarsConcat(a, b, n);
    ChunksConcat(a, b, n);
  }

  function ScalarFields(n: nat, values: seq<nat>): seq<Field> {
    seq(|values|, i requires 0 <= i < |values| => Scalar(n, values[i]))
  }

  function ChunkFields(n: nat, data: seq<Bytes>): seq<Field> {
    seq(|data|, i requires 0 <= i < |data| => Chunk(n, data[i]))
  }

  lemma {:induction false} SelectScalars(n: nat, values: seq<nat>, k: nat)
    ensures Scalars(ScalarFields(n, values), k) == if k == n then values else []
    ensures Chunks(ScalarFields(n, values), k) == []
  {
    if values != [] {
      assert ScalarFields(n, values)[1..] == ScalarFields(n, values[1..]);
      SelectScalars(n, values[1..], k);
    }
  }

  lemma {:induction false} SelectChunks(n: nat, data: seq<Bytes>, k: nat)
    ensures Chunks(ChunkFields(n, data), k) == if k == n then data else []
    ensures Scalars(ChunkFields(n, data), k) == []
  {
    if data != [] {
      assert ChunkFields(n, data)[1..] == ChunkFields(n, data[1..]);
      SelectChunks(n, data[1..], k);
    }
  }
}
