/**
 What a decoded profile says: which events it records, found by following its ids and string indices.
 */
module ProfileMeaning {
  import opened Wrappers
  import opened Wire
  import opened ProfileFormat

  datatype Frame = Frame(ip: int, sym: Text, dso: Text)

  /** A parsed sample; its frames run from the leaf. Samples are merged when they are equal. */
  datatype Event = Event(comm: Text, pid: int, tid: int, event: Text, frames: seq<Frame>)

  const EMPTY: Text := []
  const SAMPLES: Text := [115, 97, 109, 112, 108, 101, 115]
  const COUNT: Text := [99, 111, 117, 110, 116]
  const CPU: Text := [99, 112, 117]
  const NANOSECONDS: Text := [110, 97, 110, 111, 115, 101, 99, 111, 110, 100, 115]
  const COMM: Text := [99, 111, 109, 109]
  const PID: Text := [112, 105, 100]
  const TID: Text := [116, 105, 100]
  const EVENT: Text := [101, 118, 101, 110, 116]

  const PPROF_STRINGS: seq<Text> := [EMPTY, SAMPLES, COUNT, CPU, NANOSECONDS, COMM, PID, TID, EVENT]

  // Merging equal samples

  /** Samples with frames, each once, in the order they are first met. */
  function FirstSeen(events: seq<Event>): seq<Event> {
    if events == [] then []
    else
      var seen, e := FirstSeen(events[..|events| - 1]), events[|events| - 1];
      if e.frames == [] || e in seen then seen else seen + [e]
  }

  lemma {:induction false} FirstSeenOnce(events: seq<Event>)
    ensures Distinct(FirstSeen(events))
    ensures forall e :: e in FirstSeen(events) <==> e in events && e.frames != []
    ensures |FirstSeen(events)| <= |events|
  {
    if events != [] {
      var n := |events| - 1;
      FirstSeenOnce(events[..n]);
      assert events == events[..n] + [events[n]];
    }
  }

  // What the numbered tables mean

  predicate Indexed<T(==)>(table: seq<T>, index: map<T, nat>, first: nat) {
    && (forall i :: 0 <= i < |table| ==> table[i] in index && index[table[i]] == i + first)
    && (forall x :: x in index ==> first <= index[x] < first + |table| && table[index[x] - first] == x)
  }

  predicate Names(strings: seq<Text>, i: int, text: Text) {
    0 <= i < |strings| && strings[i] == text
  }

  function BuildId(buildIds: map<Text, Text>, dso: Text): Text {
    if dso in buildIds then buildIds[dso] else EMPTY
  }

  predicate MappingsFor(strings: seq<Text>, recs: seq<Mapping>, dsos: seq<Text>, buildIds: map<Text, Text>) {
    && |recs| == |dsos|
    && forall i :: 0 <= i < |recs| ==>
         && recs[i].id == i + 1
         && Names(strings, recs[i].filename, dsos[i])
         && Names(strings, recs[i].buildId, BuildId(buildIds, dsos[i]))
  }

  predicate FunctionsFor(strings: seq<Text>, recs: seq<Function>, syms: seq<Text>) {
    && |recs| == |syms|
    && forall i :: 0 <= i < |recs| ==>
         && recs[i].id == i + 1
         && Names(strings, recs[i].name, syms[i])
         && Names(strings, recs[i].systemName, syms[i])
  }

  predicate LocationFor(dsos: seq<Text>, syms: seq<Text>, rec: Location, frame: Frame) {
    && 1 <= rec.mapping <= |dsos| && dsos[rec.mapping - 1] == frame.dso
    && rec.address == Wrap(frame.ip)
    && |rec.lines| == 1 && 1 <= rec.lines[0].function_ <= |syms| && syms[rec.lines[0].function_ - 1] == frame.sym
  }

  predicate LocationsFor(dsos: seq<Text>, syms: seq<Text>, recs: seq<Location>, frames: seq<Frame>) {
    && |recs| == |frames|
    && forall i :: 0 <= i < |recs| ==> recs[i].id == i + 1 && LocationFor(dsos, syms, recs[i], frames[i])
  }

  predicate StackFor(frames: seq<Frame>, ids: seq<nat>, stack: seq<Frame>) {
    && |ids| == |stack|
    && forall i :: 0 <= i < |ids| ==> 1 <= ids[i] <= |frames| && frames[ids[i] - 1] == stack[i]
  }

  predicate LabelsFor(strings: seq<Text>, labels: seq<Label>, e: Event) {
    && |labels| == 4
    && labels[0] == Label(5, labels[0].str, 0, 0) && Names(strings, labels[0].str, e.comm)
    && labels[1] == Label(6, 0, Signed(Wrap(e.pid)), 2)
    && labels[2] == Label(7, 0, Signed(Wrap(e.tid)), 2)
    && labels[3] == Label(8, labels[3].str, 0, 0) && Names(strings, labels[3].str, e.event)
  }

  function Values(count: nat, period: int): seq<int> {
    [Signed(Wrap(count)), Signed(Wrap(count * period))]
  }

  predicate SampleFor(strings: seq<Text>, frames: seq<Frame>, rec: Sample, e: Event, count: nat, period: int) {
    StackFor(frames, rec.locations, e.frames) && rec.values == Values(count, period) &&
      LabelsFor(strings, rec.labels, e)
  }

  // Reading a profile by its references

  function Find<T>(items: seq<T>, idOf: T -> nat, id: nat): Option<T> {
    if items == [] then None else if idOf(items[0]) == id then Some(items[0]) else Find(items[1..], idOf, id)
  }

  function MappingId(m: Mapping): nat { m.id }
  function FunctionId(f: Function): nat { f.id }
  function LocationId(l: Location): nat { l.id }

  function TextOf(strings: seq<Text>, i: int): Option<Text> {
    if 0 <= i < |strings| then Some(strings[i]) else None
  }

  function FileOf(p: Profile, mapping: nat): Option<Text> {
    match Find(p.mappings, MappingId, mapping)
    case None => None
    case Some(m) => TextOf(p.strings, m.filename)
  }

  function NameOf(p: Profile, function_: nat): Option<Text> {
    match Find(p.functions, FunctionId, function_)
    case None => None
    case Some(f) => TextOf(p.strings, f.name)
  }

  function FrameOf(p: Profile, location: nat): Option<Frame> {
    match Find(p.locations, LocationId, location)
    case None => None
    case Some(l) =>
      if |l.lines| != 1 then None
      else match (FileOf(p, l.mapping), NameOf(p, l.lines[0].function_))
        case (Some(dso), Some(sym)) => Some(Frame(l.address, sym, dso))
        case _ => None
  }

  function StackOf(p: Profile, locations: seq<nat>): Option<seq<Frame>> {
    if locations == [] then Some([])
    else match (FrameOf(p, locations[0]), StackOf(p, locations[1..]))
      case (Some(f), Some(rest)) => Some([f] + rest)
      case _ => None
  }

  function LabelWithKey(strings: seq<Text>, labels: seq<Label>, key: Text): Option<Label> {
    if labels == [] then None
    else if TextOf(strings, labels[0].key) == Some(key) then Some(labels[0])
    else LabelWithKey(strings, labels[1..], key)
  }

  /** One line of the profile: an event and its values. */
  datatype Row = Row(event: Event, values: seq<int>)

  function RowOf(p: Profile, s: Sample): Option<Row> {
    match (LabelWithKey(p.strings, s.labels, COMM), LabelWithKey(p.strings, s.labels, PID),
      LabelWithKey(p.strings, s.labels, TID),
           LabelWithKey(p.strings, s.labels, EVENT), StackOf(p, s.locations))
    case (Some(comm), Some(pid), Some(tid), Some(event), Some(stack)) =>
      (match (TextOf(p.strings, comm.str), TextOf(p.strings, event.str))
       case (Some(c), Some(e)) => Some(Row(Event(c, pid.num, tid.num, e, stack), s.values))
       case _ => None)
    case _ => None
  }

  function RowsOf(p: Profile, samples: seq<Sample>): Option<seq<Row>> {
    if samples == [] then Some([])
    else match (RowOf(p, samples[0]), RowsOf(p, samples[1..]))
      case (Some(r), Some(rest)) => Some([r] + rest)
      case _ => None
  }

  // The rows a list of events should give

  function FrameAs64(f: Frame): Frame {
    f.(ip := Wrap(f.ip))
  }

  function StackAs64(stack: seq<Frame>): seq<Frame> {
    seq(|stack|, i requires 0 <= i < |stack| => FrameAs64(stack[i]))
  }

  /** Addresses are kept as 64-bit words and process ids as int64. */
  function EventAs64(e: Event): Event {
    e.(pid := Signed(Wrap(e.pid)), tid := Signed(Wrap(e.tid)), frames := StackAs64(e.frames))
  }

  function RowsFor(order: seq<Event>, events: seq<Event>, period: int): seq<Row> {
    seq(|order|, i requires 0 <= i < |order| => Row(EventAs64(order[i]), Values(multiset(events)[order[i]], period)))
  }

  predicate Dense<T>(items: seq<T>, idOf: T -> nat) {
    forall i :: 0 <= i < |items| ==> idOf(items[i]) == i + 1
  }

  lemma {:induction false} FindFrom<T>(items: seq<T>, idOf: T -> nat, id: nat, first: nat)
    requires forall i :: 0 <= i < |items| ==> idOf(items[i]) == i + first
    requires first <= id < first + |items|
    ensures Find(items, idOf, id) == Some(items[id - first])
  {
    if id != first {
      FindFrom(items[1..], idOf, id, first + 1);
    }
  }

  /** The tables of a profile and the texts and frames they number. */
  ghost predicate TablesFor(p: Profile, dsos: seq<Text>, syms: seq<Text>, frames: seq<Frame>,
                            buildIds: map<Text, Text>)
  {
    && MappingsFor(p.strings, p.mappings, dsos, buildIds)
    && FunctionsFor(p.strings, p.functions, syms)
    && LocationsFor(dsos, syms, p.locations, frames)
  }

  lemma FrameFound(p: Profile, dsos: seq<Text>, syms: seq<Text>, frames: seq<Frame>, buildIds: map<Text, Text>, id: nat)
    requires TablesFor(p, dsos, syms, frames, buildIds) && 1 <= id <= |frames|
    ensures FrameOf(p, id) == Some(FrameAs64(frames[id - 1]))
  {
    var l := p.locations[id - 1];
    FindFrom(p.locations, LocationId, id, 1);
    assert LocationFor(dsos, syms, l, frames[id - 1]);
    FindFrom(p.mappings, MappingId, l.mapping, 1);
    FindFrom(p.functions, FunctionId, l.lines[0].function_, 1);
  }

  lemma {:induction false} StackFound(p: Profile, dsos: seq<Text>, syms: seq<Text>, frames: seq<Frame>,
                                      buildIds: map<Text, Text>,
                                      ids: seq<nat>, stack: seq<Frame>)
    requires TablesFor(p, dsos, syms, frames, buildIds) && StackFor(frames, ids, stack)
    ensures StackOf(p, ids) == Some(StackAs64(stack))
  {
    hide TablesFor, FrameOf;
    if ids == [] {
      assert StackAs64(stack) == [];
    } else {
      FrameFound(p, dsos, syms, frames, buildIds, ids[0]);
      assert FrameOf(p, ids[0]) == Some(FrameAs64(stack[0]));
      StackFound(p, dsos, syms, frames, buildIds, ids[1..], stack[1..]);
      assert [FrameAs64(stack[0])] + StackAs64(stack[1..]) == StackAs64(stack);
    }
  }

  /** The four labels are told apart by their keys. */
  lemma LabelsFound(strings: seq<Text>, labels: seq<Label>, e: Event)
    requires LabelsFor(strings, labels, e) && PPROF_STRINGS <= strings
    ensures LabelWithKey(strings, labels, COMM) == Some(labels[0])
    ensures LabelWithKey(strings, labels, PID) == Some(labels[1])
    ensures LabelWithKey(strings, labels, TID) == Some(labels[2])
    ensures LabelWithKey(strings, labels, EVENT) == Some(labels[3])
  {
    assert strings[5] == COMM && strings[6] == PID && strings[7] == TID && strings[8] == EVENT;
    assert PID[0] != TID[0] && |COMM| != |PID| && |COMM| != |EVENT| && |PID| != |EVENT|;
    SkipTo(strings, labels, 0, COMM);
    SkipTo(strings, labels, 1, PID);
    SkipTo(strings, labels, 2, TID);
    SkipTo(strings, labels, 3, EVENT);
  }

  lemma {:induction false} SkipTo(strings: seq<Text>, labels: seq<Label>, k: nat, key: Text)
    requires k < |labels| && TextOf(strings, labels[k].key) == Some(key)
    requires forall i :: 0 <= i < k ==> TextOf(strings, labels[i].key) != Some(key)
    ensures LabelWithKey(strings, labels, key) == Some(labels[k])
  {
    if k > 0 {
      SkipTo(strings, labels[1..], k - 1, key);
    }
  }

  lemma RowFound(p: Profile, dsos: seq<Text>, syms: seq<Text>, frames: seq<Frame>, buildIds: map<Text, Text>,
                 s: Sample, e: Event, count: nat, period: int)
    requires TablesFor(p, dsos, syms, frames, buildIds) && PPROF_STRINGS <= p.strings
    requires SampleFor(p.strings, frames, s, e, count, period)
    ensures RowOf(p, s) == Some(Row(EventAs64(e), Values(count, period)))
  {
    StackFound(p, dsos, syms, frames, buildIds, s.locations, e.frames);
    LabelsFound(p.strings, s.labels, e);
  }

  ghost predicate SamplesFor(strings: seq<Text>, frames: seq<Frame>, samples: seq<Sample>, order: seq<Event>,
                             events: seq<Event>, period: int)
  {
    && |samples| == |order|
    && forall i :: 0 <= i < |order| ==>
      SampleFor(strings, frames, samples[i], order[i], multiset(events)[order[i]], period)
  }

  lemma {:induction false} RowsFound(p: Profile, dsos: seq<Text>, syms: seq<Text>, frames: seq<Frame>,
                                     buildIds: map<Text, Text>,
                                     samples: seq<Sample>, order: seq<Event>, events: seq<Event>, period: int)
    requires TablesFor(p, dsos, syms, frames, buildIds) && PPROF_STRINGS <= p.strings
    requires SamplesFor(p.strings, frames, samples, order, events, period)
    ensures RowsOf(p, samples) == Some(RowsFor(order, events, period))
  {
    hide TablesFor, RowOf, SampleFor;
    if samples != [] {
      RowFound(p, dsos, syms, frames, buildIds, samples[0], order[0], multiset(events)[order[0]], period);
      RowsFound(p, dsos, syms, frames, buildIds, samples[1..], order[1..], events, period);
      assert [RowsFor(order, events, period)[0]] + RowsFor(order[1..], events, period) ==
        RowsFor(order, events, period);
    }
  }

  function TypeTexts(strings: seq<Text>, t: ValueType): (Option<Text>, Option<Text>) {
    (TextOf(strings, t.kind), TextOf(strings, t.unit))
  }

  /** What the profile of a list of events is: well formed, and, read by its references, exactly those
      events with frames, each once, with its number of occurrences and that number times the period. */
  ghost predicate Faithful(p: Profile, events: seq<Event>, period: int, time: int, duration: int,
                           buildIds: map<Text, Text>)
  {
    && RowsOf(p, p.samples) == Some(RowsFor(FirstSeen(events), events, period))
    && Distinct(p.strings) && |p.strings| > 0 && p.strings[0] == EMPTY
    && Dense(p.mappings, MappingId) && Dense(p.functions, FunctionId) && Dense(p.locations, LocationId)
    && (forall l :: l in p.locations ==> FrameOf(p, l.id).Some?)
    && (forall m :: m in p.mappings ==>
          match TextOf(p.strings, m.filename)
          case None => false
          case Some(dso) => TextOf(p.strings, m.buildId) == Some(if dso in buildIds then buildIds[dso] else EMPTY))
    && |p.sampleTypes| == 2
    && TypeTexts(p.strings, p.sampleTypes[0]) == (Some(SAMPLES), Some(COUNT))
    && TypeTexts(p.strings, p.sampleTypes[1]) == (Some(CPU), Some(NANOSECONDS))
    && TypeTexts(p.strings, p.periodType) == (Some(CPU), Some(NANOSECONDS))
    && p.period == Signed(Wrap(period)) && p.time == Signed(Wrap(time)) && p.duration == Signed(Wrap(duration))
  }

  /** In plain numbers: every event with a stack is one sample of the profile, and its two values are how often it
      occurred and that often the period, as long as all its numbers fit their 64-bit fields. */
  lemma EventsRecorded(p: Profile, events: seq<Event>, period: int, time: int, duration: int,
                       buildIds: map<Text, Text>, e: Event)
    returns (i: nat)
    requires Faithful(p, events, period, time, duration, buildIds) && e in events && e.frames != []
    requires -HALF <= e.pid < HALF && -HALF <= e.tid < HALF && forall f :: f in e.frames ==> 0 <= f.ip < WORD
    requires multiset(events)[e] < HALF && -HALF <= multiset(events)[e] * period < HALF
    ensures i < |p.samples| && |p.samples| == |FirstSeen(events)| && FirstSeen(events)[i] == e
    ensures RowOf(p, p.samples[i]) == Some(Row(e, [multiset(events)[e], multiset(events)[e] * period]))
  {
    hide RowOf, FirstSeen;
    var order, n := FirstSeen(events), multiset(events)[e];
    FirstSeenOnce(events);
    i :| 0 <= i < |order| && order[i] == e;
    RowsAt(p, p.samples, RowsFor(order, events, period), i);
    WrapSigned(e.pid);
    WrapSigned(e.tid);
    WrapSigned(n);
    WrapSigned(n * period);
    forall k | 0 <= k < |e.frames| ensures FrameAs64(e.frames[k]) == e.frames[k] {
      assert e.frames[k] in e.frames;
    }
    assert StackAs64(e.frames) == e.frames;
  }

  lemma {:induction false} RowsAt(p: Profile, samples: seq<Sample>, rows: seq<Row>, i: nat)
    requires RowsOf(p, samples) == Some(rows) && i < |rows|
    ensures |samples| == |rows| && RowOf(p, samples[i]) == Some(rows[i])
  {
    hide RowOf;
    if samples != [] && i > 0 {
      RowsAt(p, samples[1..], rows[1..], i - 1);
    } else if samples != [] && |rows| > 1 {
      RowsAt(p, samples[1..], rows[1..], 0);
    }
  }

  lemma WellFormed(p: Profile, dsos: seq<Text>, syms: seq<Text>, frames: seq<Frame>, buildIds: map<Text, Text>,
                   index: map<Text, nat>)
    requires TablesFor(p, dsos, syms, frames, buildIds) && PPROF_STRINGS <= p.strings && Indexed(p.strings, index, 0)
    ensures Distinct(p.strings) && |p.strings| > 0 && p.strings[0] == EMPTY
    ensures Dense(p.mappings, MappingId) && Dense(p.functions, FunctionId) && Dense(p.locations, LocationId)
    ensures forall m :: m in p.mappings ==>
      match TextOf(p.strings, m.filename)
      case None => false
      case Some(dso) => TextOf(p.strings, m.buildId) == Some(BuildId(buildIds, dso))
  {
    assert forall i, j :: 0 <= i < j < |p.strings| ==> index[p.strings[i]] != index[p.strings[j]];
  }

  lemma FramesFound(p: Profile, dsos: seq<Text>, syms: seq<Text>, frames: seq<Frame>, buildIds: map<Text, Text>)
    requires TablesFor(p, dsos, syms, frames, buildIds)
    ensures forall l :: l in p.locations ==> FrameOf(p, l.id).Some?
  {
    hide FrameOf;
    forall l | l in p.locations
      ensures FrameOf(p, l.id).Some?
    {
      var i :| 0 <= i < |p.locations| && p.locations[i] == l;
      FrameFound(p, dsos, syms, frames, buildIds, l.id);
    }
  }

  lemma TablesInRange(p: Profile, dsos: seq<Text>, syms: seq<Text>, frames: seq<Frame>, buildIds: map<Text, Text>)
    requires TablesFor(p, dsos, syms, frames, buildIds)
    requires |p.strings| < HALF && |p.mappings| < HALF && |p.functions| < HALF && |p.locations| < HALF
    ensures forall m :: m in p.mappings ==> MappingOk(m)
    ensures forall f :: f in p.functions ==> FunctionOk(f)
    ensures forall l :: l in p.locations ==> LocationOk(l)
  {
    forall l | l in p.locations
      ensures LocationOk(l)
    {
      var i :| 0 <= i < |p.locations| && p.locations[i] == l;
      assert LocationFor(dsos, syms, l, frames[i]);
    }
  }

  lemma SampleInRange(strings: seq<Text>, frames: seq<Frame>, s: Sample, e: Event, count: nat, period: int)
    requires SampleFor(strings, frames, s, e, count, period) && |strings| < HALF && |frames| < HALF
    ensures SampleOk(s)
  {
    assert s.labels == [s.labels[0], s.labels[1], s.labels[2], s.labels[3]];
  }

  // The self-check made on every built profile

  function TotalCount(samples: seq<Sample>): int {
    if samples == [] then 0
    else (if samples[0].values == [] then 0 else samples[0].values[0]) + TotalCount(samples[1..])
  }

  predicate Has<T>(items: seq<T>, idOf: T -> nat, id: nat) {
    exists i :: 0 <= i < |items| && idOf(items[i]) == id
  }

  predicate ReferencesResolve(p: Profile) {
    && (forall l :: l in p.locations ==>
          && (l.mapping != 0 ==> Has(p.mappings, MappingId, l.mapping))
          && (forall line :: line in l.lines ==> Has(p.functions, FunctionId, line.function_)))
    && (forall s :: s in p.samples ==>
          |s.values| == |p.sampleTypes| && forall id :: id in s.locations ==> Has(p.locations, LocationId, id))
  }

  predicate Validates(p: Profile) {
    && p.samples != [] && p.sampleTypes != []
    && !Has(p.mappings, MappingId, 0) && !Has(p.functions, FunctionId, 0) && !Has(p.locations, LocationId, 0)
    && ReferencesResolve(p)
    && TotalCount(p.samples) > 0
  }

  lemma {:induction false} FoundMeansHas<T>(items: seq<T>, idOf: T -> nat, id: nat)
    requires Find(items, idOf, id).Some?
    ensures Has(items, idOf, id)
  {
    if idOf(items[0]) != id {
      FoundMeansHas(items[1..], idOf, id);
      var i :| 0 <= i < |items[1..]| && idOf(items[1..][i]) == id;
      assert idOf(items[i + 1]) == id;
    }
  }

  lemma {:induction false} StackMeansHas(p: Profile, ids: seq<nat>, id: nat)
    requires StackOf(p, ids).Some? && id in ids
    ensures Has(p.locations, LocationId, id)
  {
    if ids[0] == id {
      FoundMeansHas(p.locations, LocationId, id);
    } else {
      StackMeansHas(p, ids[1..], id);
    }
  }

  lemma {:induction false} RowsOfEach(p: Profile, samples: seq<Sample>, i: nat)
    requires RowsOf(p, samples).Some? && i < |samples|
    ensures |RowsOf(p, samples).value| == |samples| && RowOf(p, samples[i]) == Some(RowsOf(p, samples).value[i])
  {
    hide RowOf;
    if i > 0 {
      RowsOfEach(p, samples[1..], i - 1);
    } else if |samples| > 1 {
      RowsOfEach(p, samples[1..], 0);
    }
  }

  lemma FrameMeansHas(p: Profile, l: Location)
    requires Dense(p.locations, LocationId) && l in p.locations && FrameOf(p, l.id).Some?
    ensures Has(p.mappings, MappingId, l.mapping)
    ensures forall line :: line in l.lines ==> Has(p.functions, FunctionId, line.function_)
  {
    FindFrom(p.locations, LocationId, l.id, 1);
    FoundMeansHas(p.mappings, MappingId, l.mapping);
    FoundMeansHas(p.functions, FunctionId, l.lines[0].function_);
  }

  lemma FaithfulResolves(p: Profile, events: seq<Event>, period: int, time: int, duration: int,
                         buildIds: map<Text, Text>)
    requires Faithful(p, events, period, time, duration, buildIds)
    ensures ReferencesResolve(p)
  {
    hide FrameOf, RowsOf, RowsFor, StackOf, LabelWithKey, FirstSeen, Distinct, Has;
    forall l | l in p.locations
      ensures Has(p.mappings, MappingId, l.mapping) && forall line :: line in l.lines ==>
        Has(p.functions, FunctionId, line.function_)
    {
      FrameMeansHas(p, l);
    }
    forall s | s in p.samples
      ensures |s.values| == 2 && forall id :: id in s.locations ==> Has(p.locations, LocationId, id)
    {
      var i :| 0 <= i < |p.samples| && p.samples[i] == s;
      RowsOfEach(p, p.samples, i);
      RowsForEach(FirstSeen(events), events, period, i);
      forall id | id in s.locations ensures Has(p.locations, LocationId, id) { StackMeansHas(p, s.locations, id); }
    }
  }

  lemma RowsForEach(order: seq<Event>, events: seq<Event>, period: int, i: nat)
    requires i < |RowsFor(order, events, period)|
    ensures i < |order| && RowsFor(order, events, period)[i].values == Values(multiset(events)[order[i]], period)
    ensures |RowsFor(order, events, period)[i].values| == 2
  {
  }

  lemma {:induction false} CountsPositive(samples: seq<Sample>)
    requires forall s :: s in samples ==> s.values != [] && s.values[0] > 0
    ensures TotalCount(samples) >= |samples|
  {
    if samples != [] {
      CountsPositive(samples[1..]);
    }
  }

  lemma {:induction false} OccursAtMost(events: seq<Event>, e: Event)
    ensures multiset(events)[e] <= |events|
  {
    if events != [] {
      var n := |events| - 1;
      OccursAtMost(events[..n], e);
      assert events == events[..n] + [events[n]];
    }
  }

  /** The self-check passes exactly for event lists with at least one stack. */
  lemma ValidatesIffStacks(p: Profile, events: seq<Event>, period: int, time: int, duration: int,
                           buildIds: map<Text, Text>)
    requires Faithful(p, events, period, time, duration, buildIds) && |events| < HALF
    ensures Validates(p) <==> exists e :: e in events && e.frames != []
  {
    hide FrameOf, RowsOf, RowsFor, RowOf, Distinct, ReferencesResolve, TextOf;
    FaithfulResolves(p, events, period, time, duration, buildIds);
    FirstSeenOnce(events);
    SampleCounts(p, events, period, time, duration, buildIds);
    CountsPositive(p.samples);
    if FirstSeen(events) != [] {
      assert FirstSeen(events)[0] in FirstSeen(events);
    }
  }

  lemma SampleCounts(p: Profile, events: seq<Event>, period: int, time: int, duration: int, buildIds: map<Text, Text>)
    requires Faithful(p, events, period, time, duration, buildIds) && |events| < HALF
    ensures |p.samples| == |FirstSeen(events)|
    ensures forall s :: s in p.samples ==> s.values != [] && s.values[0] > 0
  {
    hide FrameOf, RowsOf, Distinct, TextOf, StackOf, LabelWithKey, Dense;
    var order := FirstSeen(events);
    if p.samples != [] {
      RowsOfEach(p, p.samples, 0);
    } else {
      NoRows(p);
    }
    forall s | s in p.samples
      ensures s.values != [] && s.values[0] > 0
    {
      var i :| 0 <= i < |p.samples| && p.samples[i] == s;
      RowsOfEach(p, p.samples, i);
      FirstSeenOnce(events);
      assert order[i] in order;
      OccursAtMost(events, order[i]);
      WrapSigned(multiset(events)[order[i]]);
    }
  }

  lemma NoRows(p: Profile)
    ensures RowsOf(p, []) == Some([])
  {
  }
}
