/**
 Building a pprof profile from parsed samples: samples with the same labels and stack are merged,
 strings, mappings, functions and locations are numbered as they are first met, and the bytes are
 written message by message.
 */
module ProfileBuilder {
  import opened Wrappers
  import opened Wire
  import opened ProfileFormat
  import opened ProfileMeaning

  ghost predicate Tallied(events: seq<Event>, counts: map<Event, nat>) {
    && (forall e :: e in counts <==> e in events && e.frames != [])
    && (forall e :: e in counts ==> counts[e] == multiset(events)[e])
  }

  lemma TallyStep(events: seq<Event>, e: Event, counts: map<Event, nat>)
    requires Tallied(events, counts) && e.frames != []
    ensures Tallied(events + [e], counts[e := if e in counts then counts[e] + 1 else 1])
  {
    assert multiset(events + [e]) == multiset(events) + multiset{e};
  }

  lemma TallySkip(events: seq<Event>, e: Event, counts: map<Event, nat>)
    requires Tallied(events, counts) && e.frames == []
    ensures Tallied(events + [e], counts)
  {
    assert multiset(events + [e]) == multiset(events) + multiset{e};
  }

  method Aggregate(events: seq<Event>) returns (order: seq<Event>, counts: map<Event, nat>)
    ensures order == FirstSeen(events)
    ensures forall e :: e in counts <==> e in order
    ensures forall e :: e in counts ==> counts[e] == multiset(events)[e]
  {
    order, counts := [], map[];
    for i := 0 to |events|
      invariant order == FirstSeen(events[..i])
      invariant Tallied(events[..i], counts)
    {
      var e := events[i];
      assert events[..i + 1] == events[..i] + [e];
      assert events[..i + 1][..i] == events[..i];
      if e.frames == [] {
        TallySkip(events[..i], e, counts);
      } else {
        TallyStep(events[..i], e, counts);
        FirstSeenOnce(events[..i]);
        if e !in counts {
          order := order + [e];
          counts := counts[e := 1];
        } else {
          counts := counts[e := counts[e] + 1];
        }
      }
    }
    assert events[..|events|] == events;
    FirstSeenOnce(events);
  }

  // Writing bytes

  method WriteInt64(n: nat, v: int) returns (b: Bytes)
    requires 1 <= n < 16
    ensures b == Encode(Int64Field(n, v))
  {
    var tag := EncodeVarint(8 * n);
    var value := EncodeVarint(v);
    b := tag + value;
    EncodeOne(Scalar(n, Wrap(v)));
  }

  method WriteChunk(n: nat, data: Bytes) returns (b: Bytes)
    requires 1 <= n < 16
    ensures b == EncodeField(Chunk(n, data))
  {
    var tag := EncodeVarint(8 * n + 2);
    var size := EncodeVarint(|data|);
    b := tag + size + data;
  }

  /** Encoded messages as they are collected: each a length-delimited field of the profile. */
  ghost function Written<T>(n: nat, enc: T -> Bytes, recs: seq<T>): seq<Bytes> {
    if recs == [] then [] else Written(n, enc, recs[..|recs| - 1]) + [EncodeField(Chunk(n, enc(recs[|recs| - 1])))]
  }

  lemma AddWritten<T>(n: nat, enc: T -> Bytes, recs: seq<T>, rec: T)
    ensures Written(n, enc, recs + [rec]) == Written(n, enc, recs) + [EncodeField(Chunk(n, enc(rec)))]
  {
    assert (recs + [rec])[..|recs|] == recs;
  }

  method WriteMapping(id: nat, filename: nat, buildId: nat) returns (b: Bytes)
    ensures b == EncodeField(Chunk(3, EncodeMapping(Mapping(id, filename, buildId))))
  {
    var f1 := WriteInt64(1, id);
    var f5 := WriteInt64(5, filename);
    var msg := f1 + f5;
    EncodeConcat(Int64Field(1, id), Int64Field(5, filename));
    if buildId != 0 {
      var f6 := WriteInt64(6, buildId);
      msg := msg + f6;
      EncodeConcat(Int64Field(1, id) + Int64Field(5, filename), Int64Field(6, buildId));
    } else {
      assert Int64Field(1, id) + Int64Field(5, filename) + [] == Int64Field(1, id) + Int64Field(5, filename);
    }
    b := WriteChunk(3, msg);
  }

  method WriteThree(n0: nat, v0: int, n1: nat, v1: int, n2: nat, v2: int) returns (b: Bytes)
    requires 1 <= n0 < 16 && 1 <= n1 < 16 && 1 <= n2 < 16
    ensures b == Encode(Int64Field(n0, v0) + Int64Field(n1, v1) + Int64Field(n2, v2))
  {
    var a := WriteInt64(n0, v0);
    var c := WriteInt64(n1, v1);
    var d := WriteInt64(n2, v2);
    b := a + c + d;
    EncodeConcat(Int64Field(n0, v0), Int64Field(n1, v1));
    EncodeConcat(Int64Field(n0, v0) + Int64Field(n1, v1), Int64Field(n2, v2));
  }

  method WriteFunction(id: nat, name: nat) returns (b: Bytes)
    ensures b == EncodeField(Chunk(5, EncodeFunction(Function(id, name, name))))
  {
    var msg := WriteThree(1, id, 2, name, 3, name);
    b := WriteChunk(5, msg);
  }

  method WriteLocation(id: nat, mapping: nat, ip: int, function_: nat) returns (b: Bytes)
    ensures b == EncodeField(Chunk(4, EncodeLocation(Location(id, mapping, Wrap(ip), [Line(function_)]))))
  {
    var line := WriteInt64(1, function_);
    var ints := WriteThree(1, id, 2, mapping, 3, Wrap(ip));
    var f4 := WriteChunk(4, line);
    b := WriteChunk(4, ints + f4);
    var head := Int64Field(1, id) + Int64Field(2, mapping) + Int64Field(3, Wrap(ip));
    assert ChunkFields(4, EncodeAll(EncodeLine, [Line(function_)])) == [Chunk(4, EncodeLine(Line(function_)))];
    EncodeConcat(head, [Chunk(4, EncodeLine(Line(function_)))]);
    EncodeOne(Chunk(4, EncodeLine(Line(function_))));
  }

  /** Tables only grow, so what they say about earlier records stays true. */
  lemma MappingsGrow(strings: seq<Text>, more: seq<Text>, recs: seq<Mapping>, dsos: seq<Text>,
                     buildIds: map<Text, Text>)
    requires MappingsFor(strings, recs, dsos, buildIds) && strings <= more
    ensures MappingsFor(more, recs, dsos, buildIds)
  {
  }

  lemma FunctionsGrow(strings: seq<Text>, more: seq<Text>, recs: seq<Function>, syms: seq<Text>)
    requires FunctionsFor(strings, recs, syms) && strings <= more
    ensures FunctionsFor(more, recs, syms)
  {
  }

  lemma LocationsGrow(dsos: seq<Text>, moreDsos: seq<Text>, syms: seq<Text>, moreSyms: seq<Text>, recs: seq<Location>,
                      frames: seq<Frame>)
    requires LocationsFor(dsos, syms, recs, frames) && dsos <= moreDsos && syms <= moreSyms
    ensures LocationsFor(moreDsos, moreSyms, recs, frames)
  {
    forall i | 0 <= i < |recs|
      ensures LocationFor(moreDsos, moreSyms, recs[i], frames[i])
    {
      assert LocationFor(dsos, syms, recs[i], frames[i]);
    }
  }

  lemma SampleGrows(strings: seq<Text>, moreStrings: seq<Text>, frames: seq<Frame>, moreFrames: seq<Frame>,
                    rec: Sample, e: Event, count: nat, period: int)
    requires SampleFor(strings, frames, rec, e, count, period) && strings <= moreStrings && frames <= moreFrames
    ensures SampleFor(moreStrings, moreFrames, rec, e, count, period)
  {
  }

  lemma AddMapping(strings: seq<Text>, recs: seq<Mapping>, dsos: seq<Text>, buildIds: map<Text, Text>, rec: Mapping,
                   dso: Text)
    requires MappingsFor(strings, recs, dsos, buildIds) && rec.id == |dsos| + 1
    requires Names(strings, rec.filename, dso) && Names(strings, rec.buildId, BuildId(buildIds, dso))
    ensures MappingsFor(strings, recs + [rec], dsos + [dso], buildIds)
  {
  }

  lemma AddFunction(strings: seq<Text>, recs: seq<Function>, syms: seq<Text>, rec: Function, sym: Text)
    requires FunctionsFor(strings, recs, syms) && rec.id == |syms| + 1
    requires Names(strings, rec.name, sym) && rec.systemName == rec.name
    ensures FunctionsFor(strings, recs + [rec], syms + [sym])
  {
  }

  lemma AddLocation(dsos: seq<Text>, syms: seq<Text>, recs: seq<Location>, frames: seq<Frame>, rec: Location,
                    frame: Frame)
    requires LocationsFor(dsos, syms, recs, frames) && rec.id == |frames| + 1 && LocationFor(dsos, syms, rec, frame)
    ensures LocationsFor(dsos, syms, recs + [rec], frames + [frame])
  {
  }

  lemma AddIndexed<T>(table: seq<T>, index: map<T, nat>, first: nat, x: T)
    requires Indexed(table, index, first) && x !in index
    ensures Indexed(table + [x], index[x := first + |table|], first)
  {
  }

  lemma LookUp<T>(table: seq<T>, index: map<T, nat>, first: nat, x: T)
    requires Indexed(table, index, first) && x in index
    ensures first <= index[x] < first + |table| && table[index[x] - first] == x
  {
  }

  /** The bytes of a repeated message field. */
  ghost function Body<T>(n: nat, enc: T -> Bytes, recs: seq<T>): Bytes {
    Encode(ChunkFields(n, EncodeAll(enc, recs)))
  }

  lemma AppendBody<T>(n: nat, enc: T -> Bytes, recs: seq<T>, rec: T)
    ensures Body(n, enc, recs + [rec]) == Body(n, enc, recs) + EncodeField(Chunk(n, enc(rec)))
  {
    assert ChunkFields(n, EncodeAll(enc, recs + [rec])) == ChunkFields(n, EncodeAll(enc, recs)) + [Chunk(n, enc(rec))];
    EncodeConcat(ChunkFields(n, EncodeAll(enc, recs)), [Chunk(n, enc(rec))]);
    EncodeOne(Chunk(n, enc(rec)));
  }

  lemma FourMessages<T>(n: nat, enc: T -> Bytes, a: T, b: T, c: T, d: T)
    ensures Body(n, enc, [a, b, c, d]) ==
      EncodeField(Chunk(n, enc(a))) + EncodeField(Chunk(n, enc(b))) + EncodeField(Chunk(n, enc(c))) +
        EncodeField(Chunk(n, enc(d)))
  {
    hide EncodeField;
    AppendBody(n, enc, [], a);
    AppendBody(n, enc, [a], b);
    AppendBody(n, enc, [a, b], c);
    AppendBody(n, enc, [a, b, c], d);
    assert [a] + [b] == [a, b] && [a, b] + [c] == [a, b, c] && [a, b, c] + [d] == [a, b, c, d] && [] + [a] == [a];
  }

  lemma EncodeNone()
    ensures Encode(ScalarFields(1, Wraps([]))) == []
  {
  }

  lemma AddScalar(n: nat, values: seq<int>, v: int)
    ensures Encode(ScalarFields(n, Wraps(values + [v]))) == Encode(ScalarFields(n, Wraps(values))) +
      Encode(Int64Field(n, v))
  {
    assert ScalarFields(n, Wraps(values + [v])) == ScalarFields(n, Wraps(values)) + Int64Field(n, v);
    EncodeConcat(ScalarFields(n, Wraps(values)), Int64Field(n, v));
  }

  lemma TwoValues(count: nat, period: int)
    ensures Encode(ScalarFields(2, Wraps(Values(count, period)))) == Encode(Int64Field(2, count)) +
      Encode(Int64Field(2, count * period))
  {
    WrapSigned(count);
    WrapSigned(count * period);
    assert ScalarFields(2, Wraps(Values(count, period))) == Int64Field(2, count) + Int64Field(2, count * period);
    EncodeConcat(Int64Field(2, count), Int64Field(2, count * period));
  }

  lemma SampleParts(s: Sample, count: nat, period: int)
    requires s.values == Values(count, period)
    ensures EncodeSample(s) == Encode(ScalarFields(1, Wraps(s.locations))) + Encode(Int64Field(2, count)) +
      Encode(Int64Field(2, count * period)) + Body(3, EncodeLabel, s.labels)
  {
    hide Encode;
    var a, b, c := ScalarFields(1, Wraps(s.locations)), ScalarFields(2, Wraps(s.values)),
      ChunkFields(3, EncodeAll(EncodeLabel, s.labels));
    EncodeConcat(a + b, c);
    EncodeConcat(a, b);
    TwoValues(count, period);
  }

  /** The strings every table starts with keep their places. */
  lemma FixedIndex(strings: seq<Text>, index: map<Text, nat>, k: int, j: nat)
    requires Indexed(strings, index, 0) && PPROF_STRINGS <= strings && j < |PPROF_STRINGS| &&
      Names(strings, k, PPROF_STRINGS[j])
    ensures k == j
  {
    assert index[strings[k]] == k && index[strings[j]] == j;
  }

  lemma FixedKeys(strings: seq<Text>, index: map<Text, nat>, l0: Label, l1: Label, l2: Label, l3: Label, e: Event)
    requires Indexed(strings, index, 0) && PPROF_STRINGS <= strings
    requires l0 == Label(l0.key, l0.str, 0, 0) && Names(strings, l0.key, COMM) && Names(strings, l0.str, e.comm)
    requires l1 == Label(l1.key, 0, Signed(Wrap(e.pid)), l1.numUnit) && Names(strings, l1.key, PID) &&
      Names(strings, l1.numUnit, COUNT)
    requires l2 == Label(l2.key, 0, Signed(Wrap(e.tid)), l2.numUnit) && Names(strings, l2.key, TID) &&
      Names(strings, l2.numUnit, COUNT)
    requires l3 == Label(l3.key, l3.str, 0, 0) && Names(strings, l3.key, EVENT) && Names(strings, l3.str, e.event)
    ensures LabelsFor(strings, [l0, l1, l2, l3], e)
  {
    hide Indexed;
    FixedIndex(strings, index, l0.key, 5);
    FixedIndex(strings, index, l1.key, 6);
    FixedIndex(strings, index, l1.numUnit, 2);
    FixedIndex(strings, index, l2.key, 7);
    FixedIndex(strings, index, l2.numUnit, 2);
    FixedIndex(strings, index, l3.key, 8);
  }

  const SAMPLE_TYPES: seq<ValueType> := [ValueType(1, 2), ValueType(3, 4)]
  const PERIOD_TYPE: ValueType := ValueType(3, 4)

  lemma TwoMessages<T>(n: nat, enc: T -> Bytes, a: T, b: T)
    ensures Body(n, enc, [a, b]) == EncodeField(Chunk(n, enc(a))) + EncodeField(Chunk(n, enc(b)))
  {
    hide EncodeField;
    AppendBody(n, enc, [], a);
    AppendBody(n, enc, [a], b);
    assert [a] + [b] == [a, b] && [] + [a] == [a];
  }

  lemma FixedStrings()
    ensures |PPROF_STRINGS| == 9
    ensures PPROF_STRINGS[1] == SAMPLES && PPROF_STRINGS[2] == COUNT && PPROF_STRINGS[3] == CPU &&
      PPROF_STRINGS[4] == NANOSECONDS
  {
  }

  lemma {:induction false} JoinedLast(list: seq<Bytes>, b: Bytes)
    ensures Joined(list + [b]) == Joined(list) + b
  {
    if list == [] {
      assert list + [b] == [b];
      JoinedOne(b);
    } else {
      assert (list + [b])[1..] == list[1..] + [b];
      JoinedLast(list[1..], b);
    }
  }

  /** Joining the collected messages gives the repeated field. */
  lemma {:induction false} JoinedWritten<T>(n: nat, enc: T -> Bytes, recs: seq<T>)
    ensures Joined(Written(n, enc, recs)) == Body(n, enc, recs)
  {
    hide EncodeField;
    if recs != [] {
      var last := |recs| - 1;
      JoinedWritten(n, enc, recs[..last]);
      JoinedLast(Written(n, enc, recs[..last]), EncodeField(Chunk(n, enc(recs[last]))));
      AppendBody(n, enc, recs[..last], recs[last]);
      assert recs == recs[..last] + [recs[last]];
    }
  }

  method WriteStrings(strings: seq<Text>) returns (b: Bytes)
    ensures b == Encode(ChunkFields(6, strings))
  {
    hide EncodeField;
    b := [];
    for i := 0 to |strings|
      invariant b == Encode(ChunkFields(6, strings[..i]))
    {
      var f := WriteChunk(6, strings[i]);
      assert ChunkFields(6, strings[..i + 1]) == ChunkFields(6, strings[..i]) + [Chunk(6, strings[i])];
      EncodeConcat(ChunkFields(6, strings[..i]), [Chunk(6, strings[i])]);
      EncodeOne(Chunk(6, strings[i]));
      b := b + f;
    }
    assert strings[..|strings|] == strings;
  }

  method WriteNonZero(n: nat, v: int) returns (b: Bytes)
    requires 1 <= n < 16
    ensures b == Encode(NonZeroField(n, v))
  {
    b := [];
    if v != 0 {
      b := WriteInt64(n, v);
    }
  }

  method WriteHeader(time: int, duration: int, periodType: Bytes, period: int, ghost p: Profile) returns (b: Bytes)
    requires periodType == EncodeValueType(p.periodType) && p.period == Signed(Wrap(period))
    ensures b == Encode(HeaderFields(p, time, duration))
  {
    hide Encode, EncodeField, EncodeValueType;
    var t := WriteNonZero(9, time);
    var d := WriteNonZero(10, duration);
    var c := WriteChunk(11, periodType);
    var q := WriteInt64(12, period);
    b := t + d + c + q;
    WrapSigned(period);
    EncodeConcat(NonZeroField(9, time), NonZeroField(10, duration));
    EncodeConcat(NonZeroField(9, time) + NonZeroField(10, duration), [Chunk(11, periodType)]);
    EncodeConcat(NonZeroField(9, time) + NonZeroField(10, duration) + [Chunk(11, periodType)], Int64Field(12, period));
    EncodeOne(Chunk(11, periodType));
  }

  /** The whole profile is its repeated fields one after another, then the header. */
  lemma ProfileParts(p: Profile, time: int, duration: int)
    ensures EncodeProfile(p, time, duration) ==
      Body(1, EncodeValueType, p.sampleTypes) + Body(2, EncodeSample, p.samples) + Body(3, EncodeMapping, p.mappings) +
      Body(4, EncodeLocation, p.locations) + Body(5, EncodeFunction, p.functions) + Encode(ChunkFields(6, p.strings)) +
      Encode(HeaderFields(p, time, duration))
  {
    hide Encode, HeaderFields;
    var a, b := ChunkFields(1, EncodeAll(EncodeValueType, p.sampleTypes)),
      ChunkFields(2, EncodeAll(EncodeSample, p.samples));
    EncodeConcat(a + b + TableFields(p), HeaderFields(p, time, duration));
    EncodeConcat(a + b, TableFields(p));
    EncodeConcat(a, b);
    TableParts(p);
  }

  lemma TableParts(p: Profile)
    ensures Encode(TableFields(p)) ==
      Body(3, EncodeMapping, p.mappings) + Body(4, EncodeLocation, p.locations) + Body(5, EncodeFunction, p.functions) +
      Encode(ChunkFields(6, p.strings))
  {
    hide Encode;
    var c, d := ChunkFields(3, EncodeAll(EncodeMapping, p.mappings)),
      ChunkFields(4, EncodeAll(EncodeLocation, p.locations));
    var e, f := ChunkFields(5, EncodeAll(EncodeFunction, p.functions)), ChunkFields(6, p.strings);
    EncodeConcat(c + d + e, f);
    EncodeConcat(c + d, e);
    EncodeConcat(c, d);
  }

  const FIRST_INDEX: map<Text, nat> :=
    map[EMPTY := 0, SAMPLES := 1, COUNT := 2, CPU := 3, NANOSECONDS := 4, COMM := 5, PID := 6, TID := 7, EVENT := 8]

  lemma FirstIndexed()
    ensures Indexed(PPROF_STRINGS, FIRST_INDEX, 0) && |PPROF_STRINGS| > 0 && PPROF_STRINGS[0] == EMPTY
  {
  }

  lemma NothingIndexed<T>()
    ensures Indexed<T>([], map[], 1)
  {
  }

  class Builder {
    const buildIds: map<Text, Text>
    var strings: seq<Text>
    var strIndex: map<Text, nat>
    var mappings: map<Text, nat>
    var functions: map<Text, nat>
    var locations: map<Frame, nat>
    var mappingId: nat
    var functionId: nat
    var locationId: nat
    var mappingList: seq<Bytes>
    var functionList: seq<Bytes>
    var locationList: seq<Bytes>
    ghost const base: seq<Text>
    ghost var dsos: seq<Text>
    ghost var syms: seq<Text>
    ghost var frames: seq<Frame>
    ghost var ms: seq<Mapping>
    ghost var fs: seq<Function>
    ghost var ls: seq<Location>

    ghost predicate StringsOk()
      reads this
    {
      Indexed(strings, strIndex, 0) && base <= strings && |strings| > 0 && strings[0] == EMPTY
    }

    ghost predicate MappingsOk()
      reads this
    {
      && Indexed(dsos, mappings, 1) && mappingId == |dsos| + 1
      && MappingsFor(strings, ms, dsos, buildIds) && mappingList == Written(3, EncodeMapping, ms)
    }

    ghost predicate FunctionsOk()
      reads this
    {
      && Indexed(syms, functions, 1) && functionId == |syms| + 1
      && FunctionsFor(strings, fs, syms) && functionList == Written(5, EncodeFunction, fs)
    }

    ghost predicate LocationsOk()
      reads this
    {
      && Indexed(frames, locations, 1) && locationId == |frames| + 1
      && LocationsFor(dsos, syms, ls, frames) && locationList == Written(4, EncodeLocation, ls)
    }

    ghost predicate Valid()
      reads this
    {
      StringsOk() && MappingsOk() && FunctionsOk() && LocationsOk()
    }

    constructor (buildIds: map<Text, Text>)
      ensures Valid() && this.buildIds == buildIds && base == PPROF_STRINGS
      ensures strings == PPROF_STRINGS && ms == [] && fs == [] && ls == []
    {
      this.buildIds := buildIds;
      base := PPROF_STRINGS;
      strings := PPROF_STRINGS;
      strIndex := FIRST_INDEX;
      mappings, functions, locations := map[], map[], map[];
      mappingId, functionId, locationId := 1, 1, 1;
      mappingList, functionList, locationList := [], [], [];
      dsos, syms, frames, ms, fs, ls := [], [], [], [], [], [];
      new;
      hide Indexed, PPROF_STRINGS, FIRST_INDEX;
      FirstIndexed();
      NothingIndexed<Text>();
      NothingIndexed<Frame>();
    }

    method Intern(s: Text) returns (idx: nat)
      requires StringsOk()
      modifies this`strings, this`strIndex
      ensures StringsOk() && old(strings) <= strings && Names(strings, idx, s)
      ensures s in old(strings) ==> strings == old(strings) && strIndex == old(strIndex)
    {
      if s in strIndex {
        return strIndex[s];
      }
      idx := |strings|;
      AddIndexed(strings, strIndex, 0, s);
      strings := strings + [s];
      strIndex := strIndex[s := idx];
    }

    method EnsureMapping(dso: Text) returns (mid: nat)
      requires StringsOk() && MappingsOk()
      modifies this`strings, this`strIndex, this`mappings, this`mappingId, this`mappingList, this`dsos, this`ms
      ensures StringsOk() && MappingsOk() && old(strings) <= strings && old(dsos) <= dsos
      ensures 1 <= mid <= |dsos| && dsos[mid - 1] == dso
    {
      hide Indexed, MappingsFor, Written, EncodeField, EncodeMapping;
      if dso in mappings {
        LookUp(dsos, mappings, 1, dso);
        return mappings[dso];
      }
      mid := mappingId;
      mappingId := mappingId + 1;
      AddIndexed(dsos, mappings, 1, dso);
      mappings := mappings[dso := mid];
      var filename := Intern(dso);
      var bid := BuildId(buildIds, dso);
      var buildId := 0;
      if bid != EMPTY {
        buildId := Intern(bid);
      }
      var msg := WriteMapping(mid, filename, buildId);
      MappingsGrow(old(strings), strings, ms, dsos, buildIds);
      AddMapping(strings, ms, dsos, buildIds, Mapping(mid, filename, buildId), dso);
      AddWritten(3, EncodeMapping, ms, Mapping(mid, filename, buildId));
      dsos := dsos + [dso];
      ms := ms + [Mapping(mid, filename, buildId)];
      mappingList := mappingList + [msg];
    }

    method EnsureFunction(sym: Text) returns (fid: nat)
      requires StringsOk() && FunctionsOk()
      modifies this`strings, this`strIndex, this`functions, this`functionId, this`functionList, this`syms, this`fs
      ensures StringsOk() && FunctionsOk() && old(strings) <= strings && old(syms) <= syms
      ensures 1 <= fid <= |syms| && syms[fid - 1] == sym
    {
      hide Indexed, FunctionsFor, Written, EncodeField, EncodeFunction;
      if sym in functions {
        LookUp(syms, functions, 1, sym);
        return functions[sym];
      }
      fid := functionId;
      functionId := functionId + 1;
      AddIndexed(syms, functions, 1, sym);
      functions := functions[sym := fid];
      var name := Intern(sym);
      var msg := WriteFunction(fid, name);
      FunctionsGrow(old(strings), strings, fs, syms);
      AddFunction(strings, fs, syms, Function(fid, name, name), sym);
      AddWritten(5, EncodeFunction, fs, Function(fid, name, name));
      syms := syms + [sym];
      fs := fs + [Function(fid, name, name)];
      functionList := functionList + [msg];
    }

    /** The mapping and the function of a frame. */
    method EnsureParts(frame: Frame) returns (mid: nat, fid: nat)
      requires StringsOk() && MappingsOk() && FunctionsOk()
      modifies this`strings, this`strIndex, this`mappings, this`mappingId, this`mappingList, this`dsos, this`ms,
        this`functions, this`functionId, this`functionList, this`syms, this`fs
      ensures StringsOk() && MappingsOk() && FunctionsOk()
      ensures old(strings) <= strings && old(dsos) <= dsos && old(syms) <= syms
      ensures 1 <= mid <= |dsos| && dsos[mid - 1] == frame.dso
      ensures 1 <= fid <= |syms| && syms[fid - 1] == frame.sym
    {
      hide Indexed, MappingsFor, FunctionsFor, Written;
      mid := EnsureMapping(frame.dso);
      FunctionsGrow(old(strings), strings, fs, syms);
      ghost var between := strings;
      fid := EnsureFunction(frame.sym);
      MappingsGrow(between, strings, ms, dsos, buildIds);
    }

    method AddLocationFor(frame: Frame, mid: nat, fid: nat) returns (lid: nat)
      requires LocationsOk() && frame !in locations
      requires LocationFor(dsos, syms, Location(locationId, mid, Wrap(frame.ip), [Line(fid)]), frame)
      modifies this`locations, this`locationId, this`locationList, this`frames, this`ls
      ensures LocationsOk() && frames == old(frames) + [frame] && lid == |frames|
    {
      hide Indexed, LocationsFor, LocationFor, Written, EncodeField, EncodeLocation;
      lid := locationId;
      locationId := locationId + 1;
      AddIndexed(frames, locations, 1, frame);
      locations := locations[frame := lid];
      var msg := WriteLocation(lid, mid, frame.ip, fid);
      ghost var rec := Location(lid, mid, Wrap(frame.ip), [Line(fid)]);
      AddLocation(dsos, syms, ls, frames, rec, frame);
      AddWritten(4, EncodeLocation, ls, rec);
      frames := frames + [frame];
      ls := ls + [rec];
      locationList := locationList + [msg];
    }

    method EnsureLocation(frame: Frame) returns (lid: nat)
      requires Valid()
      modifies this
      ensures Valid() && old(strings) <= strings && old(frames) <= frames
      ensures 1 <= lid <= |frames| && frames[lid - 1] == frame
    {
      hide Indexed, MappingsFor, FunctionsFor, LocationsFor, Written;
      if frame in locations {
        LookUp(frames, locations, 1, frame);
        return locations[frame];
      }
      var mid, fid := EnsureParts(frame);
      LocationsGrow(old(dsos), dsos, old(syms), syms, ls, frames);
      lid := AddLocationFor(frame, mid, fid);
    }

    method WriteStringLabel(key: Text, value: Text) returns (b: Bytes, ghost l: Label)
      requires StringsOk()
      modifies this`strings, this`strIndex
      ensures StringsOk() && old(strings) <= strings
      ensures l == Label(l.key, l.str, 0, 0) && Names(strings, l.key, key) && Names(strings, l.str, value)
      ensures b == EncodeField(Chunk(3, EncodeLabel(l)))
    {
      hide Indexed, EncodeField, Encode;
      var k := Intern(key);
      var s := Intern(value);
      var f1 := WriteInt64(1, k);
      var f2 := WriteInt64(2, s);
      EncodeConcat(Int64Field(1, k), Int64Field(2, s));
      l := Label(k, s, 0, 0);
      b := WriteChunk(3, f1 + f2);
    }

    method WriteNumericLabel(key: Text, num: int) returns (b: Bytes, ghost l: Label)
      requires StringsOk()
      modifies this`strings, this`strIndex
      ensures StringsOk() && old(strings) <= strings
      ensures l == Label(l.key, 0, Signed(Wrap(num)), l.numUnit) && Names(strings, l.key, key) &&
        Names(strings, l.numUnit, COUNT)
      ensures b == EncodeField(Chunk(3, EncodeLabel(l)))
    {
      hide Indexed, EncodeField, Encode;
      var k := Intern(key);
      var unit := Intern(COUNT);
      assert unit != 0;
      var msg := WriteThree(1, k, 3, num, 4, unit);
      WrapSigned(num);
      l := Label(k, 0, Signed(Wrap(num)), unit);
      assert LabelFields(l) == Int64Field(1, k) + Int64Field(3, num) + Int64Field(4, unit);
      b := WriteChunk(3, msg);
    }

    /** The labels comm, pid, tid and event of a sample. */
    method WriteLabels(e: Event) returns (b: Bytes, ghost labels: seq<Label>)
      requires StringsOk() && base == PPROF_STRINGS
      modifies this`strings, this`strIndex
      ensures StringsOk() && old(strings) <= strings
      ensures LabelsFor(strings, labels, e) && b == Body(3, EncodeLabel, labels)
    {
      hide Indexed, EncodeField, EncodeLabel, Body, PPROF_STRINGS;
      var b0, b1, b2, b3;
      ghost var l0, l1, l2, l3;
      b0, l0 := WriteStringLabel(COMM, e.comm);
      b1, l1 := WriteNumericLabel(PID, e.pid);
      b2, l2 := WriteNumericLabel(TID, e.tid);
      b3, l3 := WriteStringLabel(EVENT, e.event);
      b := b0 + b1 + b2 + b3;
      labels := [l0, l1, l2, l3];
      FourMessages(3, EncodeLabel, l0, l1, l2, l3);
      FixedKeys(strings, strIndex, l0, l1, l2, l3, e);
    }

    /** The locations of a stack, leaf first. */
    method WriteStack(stack: seq<Frame>) returns (b: Bytes, ghost ids: seq<nat>)
      requires Valid()
      modifies this
      ensures Valid() && old(strings) <= strings && old(frames) <= frames
      ensures StackFor(frames, ids, stack) && b == Encode(ScalarFields(1, Wraps(ids)))
    {
      hide Indexed, MappingsFor, FunctionsFor, LocationsFor, Written, EncodeField, Encode;
      b, ids := [], [];
      EncodeNone();
      for i := 0 to |stack|
        invariant Valid() && old(strings) <= strings && old(frames) <= frames
        invariant StackFor(frames, ids, stack[..i]) && b == Encode(ScalarFields(1, Wraps(ids)))
      {
        var lid := EnsureLocation(stack[i]);
        var f := WriteInt64(1, lid);
        AddScalar(1, ids, lid);
        b := b + f;
        ids := ids + [lid];
        assert stack[..i + 1] == stack[..i] + [stack[i]];
      }
      assert stack[..|stack|] == stack;
    }

    method WriteSample(e: Event, count: nat, period: int) returns (b: Bytes, ghost rec: Sample)
      requires Valid() && base == PPROF_STRINGS
      modifies this
      ensures Valid() && old(strings) <= strings && old(frames) <= frames
      ensures SampleFor(strings, frames, rec, e, count, period) && b == EncodeField(Chunk(2, EncodeSample(rec)))
    {
      hide Indexed, MappingsFor, FunctionsFor, LocationsFor, Written, EncodeField, Encode, LabelsFor, StackFor,
           PPROF_STRINGS;
      ghost var ids, labels;
      var stackBytes, labelBytes;
      stackBytes, ids := WriteStack(e.frames);
      var v0 := WriteInt64(2, count);
      var v1 := WriteInt64(2, count * period);
      ghost var between := strings;
      labelBytes, labels := WriteLabels(e);
      MappingsGrow(between, strings, ms, dsos, buildIds);
      FunctionsGrow(between, strings, fs, syms);
      rec := Sample(ids, Values(count, period), labels);
      SampleParts(rec, count, period);
      b := WriteChunk(2, stackBytes + v0 + v1 + labelBytes);
    }

    method WriteValueType(kind: Text, unit: Text, ghost k: nat, ghost u: nat) returns (b: Bytes)
      requires StringsOk() && base == PPROF_STRINGS && k < 9 && u < 9 && kind == PPROF_STRINGS[k] &&
        unit == PPROF_STRINGS[u]
      modifies this`strings, this`strIndex
      ensures StringsOk() && strings == old(strings) && strIndex == old(strIndex)
      ensures b == EncodeValueType(ValueType(k, u))
    {
      hide Indexed, Encode, EncodeField, PPROF_STRINGS;
      assert |PPROF_STRINGS| == 9 by { FixedStrings(); }
      assert kind == strings[k] && unit == strings[u];
      var i := Intern(kind);
      var j := Intern(unit);
      FixedIndex(strings, strIndex, i, k);
      FixedIndex(strings, strIndex, j, u);
      var f1 := WriteInt64(1, i);
      var f2 := WriteInt64(2, j);
      EncodeConcat(Int64Field(1, i), Int64Field(2, j));
      b := f1 + f2;
    }

    /** The two sample types and the period type. */
    method WriteTypes() returns (types: Bytes, periodType: Bytes)
      requires StringsOk() && base == PPROF_STRINGS
      modifies this`strings, this`strIndex
      ensures StringsOk() && strings == old(strings) && strIndex == old(strIndex)
      ensures types == Body(1, EncodeValueType, SAMPLE_TYPES) && periodType == EncodeValueType(PERIOD_TYPE)
    {
      FixedStrings();
      hide Indexed, Encode, EncodeField, PPROF_STRINGS, Body, EncodeValueType;
      var t0 := WriteValueType(SAMPLES, COUNT, 1, 2);
      var t1 := WriteValueType(CPU, NANOSECONDS, 3, 4);
      periodType := WriteValueType(CPU, NANOSECONDS, 3, 4);
      var c0 := WriteChunk(1, t0);
      var c1 := WriteChunk(1, t1);
      types := c0 + c1;
      TwoMessages(1, EncodeValueType, ValueType(1, 2), ValueType(3, 4));
    }
  }

  lemma BodySize<T>(n: nat, enc: T -> Bytes, recs: seq<T>)
    ensures |recs| <= |Body(n, enc, recs)|
  {
    FieldsSize(ChunkFields(n, EncodeAll(enc, recs)));
  }

  lemma {:induction false} FieldsSize(fields: seq<Field>)
    ensures |fields| <= |Encode(fields)|
  {
    if fields != [] {
      FieldsSize(fields[1..]);
    }
  }

  /** No table has more entries than the profile has bytes. */
  lemma ProfileSizes(p: Profile, time: int, duration: int)
    ensures var size := |EncodeProfile(p, time, duration)|;
      |p.samples| <= size && |p.mappings| <= size && |p.locations| <= size && |p.functions| <= size &&
        |p.strings| <= size
  {
    hide Body, EncodeProfile, Encode;
    ProfileParts(p, time, duration);
    BodySize(2, EncodeSample, p.samples);
    BodySize(3, EncodeMapping, p.mappings);
    BodySize(4, EncodeLocation, p.locations);
    BodySize(5, EncodeFunction, p.functions);
    FieldsSize(ChunkFields(6, p.strings));
  }

  lemma InRange(p: Profile, time: int, duration: int, dsos: seq<Text>, syms: seq<Text>, frames: seq<Frame>,
                buildIds: map<Text, Text>,
                order: seq<Event>, events: seq<Event>, period: int)
    requires TablesFor(p, dsos, syms, frames, buildIds) &&
      SamplesFor(p.strings, frames, p.samples, order, events, period)
    requires p.sampleTypes == SAMPLE_TYPES && p.periodType == PERIOD_TYPE && Int64(p.period)
    requires |EncodeProfile(p, time, duration)| < HALF
    ensures ProfileOk(p)
  {
    hide SampleFor, SampleOk, EncodeProfile;
    ProfileSizes(p, time, duration);
    TablesInRange(p, dsos, syms, frames, buildIds);
    forall s | s in p.samples
      ensures SampleOk(s)
    {
      var i :| 0 <= i < |p.samples| && p.samples[i] == s;
      assert SampleFor(p.strings, frames, s, order[i], multiset(events)[order[i]], period);
      SampleInRange(p.strings, frames, s, order[i], multiset(events)[order[i]], period);
    }
  }

  lemma SamplesGrow(strings: seq<Text>, moreStrings: seq<Text>, frames: seq<Frame>, moreFrames: seq<Frame>,
                    samples: seq<Sample>, order: seq<Event>, events: seq<Event>, period: int, s: Sample, e: Event)
    requires SamplesFor(strings, frames, samples, order, events, period)
    requires strings <= moreStrings && frames <= moreFrames
    requires SampleFor(moreStrings, moreFrames, s, e, multiset(events)[e], period)
    ensures SamplesFor(moreStrings, moreFrames, samples + [s], order + [e], events, period)
  {
    hide SampleFor;
    forall i | 0 <= i < |order|
      ensures SampleFor(moreStrings, moreFrames, samples[i], order[i], multiset(events)[order[i]], period)
    {
      SampleGrows(strings, moreStrings, frames, moreFrames, samples[i], order[i], multiset(events)[order[i]], period);
    }
  }

  method WriteSamples(b: Builder, events: seq<Event>, order: seq<Event>, counts: map<Event, nat>, period: int)
    returns (list: seq<Bytes>, ghost samples: seq<Sample>)
    requires b.Valid() && b.base == PPROF_STRINGS
    requires forall e :: e in order ==> e in counts && counts[e] == multiset(events)[e]
    modifies b
    ensures b.Valid()
    ensures SamplesFor(b.strings, b.frames, samples, order, events, period) && list == Written(2, EncodeSample, samples)
  {
    hide SampleFor, Written, EncodeField, EncodeSample, PPROF_STRINGS, Indexed, MappingsFor, FunctionsFor,
         LocationsFor, SamplesFor;
    list, samples := [], [];
    NoSamples(b.strings, b.frames, events, period);
    for i := 0 to |order|
      invariant b.Valid()
      invariant SamplesFor(b.strings, b.frames, samples, order[..i], events, period)
      invariant list == Written(2, EncodeSample, samples)
    {
      ghost var strings, frames := b.strings, b.frames;
      var msg;
      ghost var rec;
      msg, rec := b.WriteSample(order[i], counts[order[i]], period);
      SamplesGrow(strings, b.strings, frames, b.frames, samples, order[..i], events, period, rec, order[i]);
      assert order[..i + 1] == order[..i] + [order[i]];
      AddWritten(2, EncodeSample, samples, rec);
      list, samples := list + [msg], samples + [rec];
    }
    assert order[..|order|] == order;
  }

  lemma NoSamples(strings: seq<Text>, frames: seq<Frame>, events: seq<Event>, period: int)
    ensures SamplesFor(strings, frames, [], [], events, period)
    ensures Written(2, EncodeSample, []) == []
  {
  }

  /** A profile is read back as exactly the events it was built from. */
  lemma BuiltIsFaithful(p: Profile, dsos: seq<Text>, syms: seq<Text>, frames: seq<Frame>, buildIds: map<Text, Text>,
                        index: map<Text, nat>, events: seq<Event>, period: int, time: int, duration: int)
    requires TablesFor(p, dsos, syms, frames, buildIds) && PPROF_STRINGS <= p.strings && Indexed(p.strings, index, 0)
    requires SamplesFor(p.strings, frames, p.samples, FirstSeen(events), events, period)
    requires p.sampleTypes == SAMPLE_TYPES && p.periodType == PERIOD_TYPE && p.period == Signed(Wrap(period))
    requires p.time == Signed(Wrap(time)) && p.duration == Signed(Wrap(duration))
    requires |EncodeProfile(p, time, duration)| < HALF
    ensures DecodeProfile(EncodeProfile(p, time, duration)) == Some(p)
    ensures Faithful(p, events, period, time, duration, buildIds)
  {
    hide EncodeProfile, DecodeProfile, ProfileOk, TablesFor, Indexed, SamplesFor, RowsOf, RowsFor, FirstSeen, FrameOf;
    InRange(p, time, duration, dsos, syms, frames, buildIds, FirstSeen(events), events, period);
    ProfileRoundTrip(p, time, duration);
    RowsFound(p, dsos, syms, frames, buildIds, p.samples, FirstSeen(events), events, period);
    WellFormed(p, dsos, syms, frames, buildIds, index);
    FramesFound(p, dsos, syms, frames, buildIds);
    FixedStrings();
  }

  method BuildProfile(events: seq<Event>, period: int, time: int, duration: int, buildIds: map<Text, Text>)
    returns (bytes: Bytes)
    ensures |bytes| < HALF ==>
      DecodeProfile(bytes).Some? && Faithful(DecodeProfile(bytes).value, events, period, time, duration, buildIds)
  {
    hide EncodeProfile, DecodeProfile, Faithful, Indexed, SamplesFor, MappingsFor, FunctionsFor, LocationsFor,
         FirstSeen, Written, Body,
      PPROF_STRINGS, Encode, EncodeField, HeaderFields;
    var order, counts := Aggregate(events);
    var b := new Builder(buildIds);
    var list;
    ghost var samples;
    list, samples := WriteSamples(b, events, order, counts, period);
    var types, periodType := b.WriteTypes();
    var strings := WriteStrings(b.strings);
    ghost var p := Profile(SAMPLE_TYPES, samples, b.ms, b.ls, b.fs, b.strings, Signed(Wrap(time)),
      Signed(Wrap(duration)), PERIOD_TYPE,
      Signed(Wrap(period)));
    var header := WriteHeader(time, duration, periodType, period, p);
    bytes := types + Joined(list) + Joined(b.mappingList) + Joined(b.locationList) + Joined(b.functionList) +
      strings + header;
    JoinedWritten(2, EncodeSample, samples);
    JoinedWritten(3, EncodeMapping, b.ms);
    JoinedWritten(4, EncodeLocation, b.ls);
    JoinedWritten(5, EncodeFunction, b.fs);
    ProfileParts(p, time, duration);
    if |bytes| < HALF {
      BuiltIsFaithful(p, b.dsos, b.syms, b.frames, buildIds, b.strIndex, events, period, time, duration);
    }
  }
}
