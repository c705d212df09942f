/** Coverage segments of an hour: rebuilt from its windows, and used to decide whether a window is covered. */
module Coverage {
  import opened Sorting
  import opened Sums
  import opened Timeline

  // Times are nanoseconds; the zero time is that of an unset column.
  const SECOND: int := 1_000_000_000
  const HOUR: int := 3600 * SECOND
  const MERGE_TOLERANCE: int := 5 * SECOND
  const ZERO_TIME: Time := -62_135_596_800 * SECOND
  const MAX_COUNT: nat := 0x7fff_ffff_ffff_ffff

  /** What the sample count column holds. */
  type DbCount = c: nat | c <= MAX_COUNT

  datatype Row = Row(session: string, signal: string, span: Span, count: DbCount)
  datatype Series = Series(session: string, signal: string)
  datatype Source = Source(span: Span, count: DbCount)
  datatype Segment = Segment(span: Span, count: nat)

  function Clamp(value: nat): nat {
    if value > MAX_COUNT then MAX_COUNT else value
  }

  /** Sample counts add up until they reach what the database column holds. */
  function AddCount(total: nat, value: nat): (sum: nat)
    ensures total <= MAX_COUNT ==> sum == Clamp(total + value)
  {
    var v := Clamp(value);
    if total >= MAX_COUNT || v >= MAX_COUNT then MAX_COUNT
    else if total > MAX_COUNT - v then MAX_COUNT
    else total + v
  }

  // The windows of an hour

  predicate Usable(row: Row, from: Time, types: set<string>) {
    && row.span.start < from + HOUR && row.span.end > from && row.signal in types
    && row.session != "" && row.span.start != ZERO_TIME && row.span.end != ZERO_TIME && row.span.start < row.span.end
  }

  function SourceOf(row: Row, from: Time): Source {
    Source(Clip(row.span, from, from + HOUR), row.count)
  }

  function SourcesOf(rows: seq<Row>, from: Time, types: set<string>, key: Series): seq<Source> {
    if rows == [] then []
    else
      var rest, row := SourcesOf(rows[..|rows| - 1], from, types, key), rows[|rows| - 1];
      if Usable(row, from, types) && Series(row.session, row.signal) == key then rest + [SourceOf(row, from)] else rest
  }

  /** Rows come ordered by session and start. */
  ghost predicate InOrder(rows: seq<Row>) {
    forall i, j :: 0 <= i < j < |rows| && rows[i].session == rows[j].session ==>
      rows[i].span.start <= rows[j].span.start
  }

  predicate SourceLe(a: Source, b: Source) {
    a.span.start <= b.span.start
  }

  ghost predicate GoodSources(sources: seq<Source>, from: Time) {
    && SortedBy(sources, SourceLe)
    && forall s :: s in sources ==> from <= s.span.start < s.span.end <= from + HOUR
  }

  lemma {:induction false} SourcesGood(rows: seq<Row>, from: Time, types: set<string>, key: Series)
    requires InOrder(rows)
    ensures GoodSources(SourcesOf(rows, from, types, key), from)
    ensures forall s :: s in SourcesOf(rows, from, types, key) ==>
      exists i :: 0 <= i < |rows| && Usable(rows[i], from, types) && Series(rows[i].session, rows[i].signal) == key &&
        s == SourceOf(rows[i], from)
  {
    if rows != [] {
      var n := |rows| - 1;
      SourcesGood(rows[..n], from, types, key);
      var rest := SourcesOf(rows[..n], from, types, key);
      var row := rows[n];
      if Usable(row, from, types) && Series(row.session, row.signal) == key {
        forall s | s in rest ensures SourceLe(s, SourceOf(row, from)) {
          var i :| 0 <= i < n && Usable(rows[..n][i], from, types) &&
            Series(rows[..n][i].session, rows[..n][i].signal) == key &&
            s == SourceOf(rows[..n][i], from);
          assert rows[i].span.start <= row.span.start;
        }
      }
      forall s | s in rest
        ensures exists i ::
          0 <= i < |rows| && Usable(rows[i], from, types) && Series(rows[i].session, rows[i].signal) == key &&
          s == SourceOf(rows[i], from)
      {
        var i :| 0 <= i < n && Usable(rows[..n][i], from, types) &&
          Series(rows[..n][i].session, rows[..n][i].signal) == key &&
          s == SourceOf(rows[..n][i], from);
        assert rows[i] == rows[..n][i];
      }
    }
  }

  /** A window counts for a series, clipped to the hour, with all its samples. */
  ghost predicate CountsAs(row: Row, from: Time, types: set<string>, key: Series, s: Source) {
    && row.session == key.session && row.signal == key.signal && row.session != "" && row.signal in types
    && row.span.start != ZERO_TIME && row.span.end != ZERO_TIME && row.span.start < row.span.end
    && from < row.span.end && row.span.start < from + 3_600_000_000_000
    && (forall t :: In(s.span, t) <==> In(row.span, t) && from <= t < from + 3_600_000_000_000)
    && s.span.start < s.span.end && s.count == row.count
  }

  lemma SourceCounts(row: Row, from: Time, types: set<string>, key: Series, s: Source)
    ensures CountsAs(row, from, types, key, s) <==>
      Usable(row, from, types) && Series(row.session, row.signal) == key && s == SourceOf(row, from)
  {
    var c := SourceOf(row, from).span;
    assert forall t :: In(c, t) <==> In(row.span, t) && from <= t < from + HOUR;
    if CountsAs(row, from, types, key, s) {
      assert In(s.span, s.span.start) && In(s.span, s.span.end - 1);
      assert In(c, c.start) && In(c, c.end - 1);
      assert In(c, s.span.start) && In(c, s.span.end - 1) && In(s.span, c.start) && In(s.span, c.end - 1);
    }
  }

  /** The sources of a series are the windows of it that fall into the hour, one for one and in their order. */
  lemma {:induction false} SourcesMean(rows: seq<Row>, from: Time, types: set<string>, key: Series)
    returns (at: seq<nat>)
    ensures var sources := SourcesOf(rows, from, types, key);
      && |at| == |sources| && (forall i :: 0 <= i < |at| ==> at[i] < |rows|)
      && (forall i, j :: 0 <= i < j < |at| ==> at[i] < at[j])
      && (forall i :: 0 <= i < |at| ==> CountsAs(rows[at[i]], from, types, key, sources[i]))
      && (forall k :: 0 <= k < |rows| && k !in at ==> forall s :: !CountsAs(rows[k], from, types, key, s))
  {
    at := [];
    if rows != [] {
      var n := |rows| - 1;
      var row := rows[n];
      at := SourcesMean(rows[..n], from, types, key);
      forall s ensures CountsAs(row, from, types, key, s) <==>
        Usable(row, from, types) && Series(row.session, row.signal) == key && s == SourceOf(row, from)
      {
        SourceCounts(row, from, types, key, s);
      }
      assert forall k :: 0 <= k < n ==> rows[..n][k] == rows[k];
      if Usable(row, from, types) && Series(row.session, row.signal) == key {
        at := at + [n];
      }
    }
  }

  // Segments of one series

  function SourceSpans(sources: seq<Source>): seq<Span> {
    seq(|sources|, i requires 0 <= i < |sources| => sources[i].span)
  }

  function SegmentSpans(segments: seq<Segment>): seq<Span> {
    seq(|segments|, i requires 0 <= i < |segments| => segments[i].span)
  }

  predicate Within(inner: Span, outer: Span) {
    outer.start <= inner.start && inner.end <= outer.end
  }

  function CountIn(outer: Span): Source -> int {
    (s: Source) => if Within(s.span, outer) then s.count else 0
  }

  /** Samples of the sources that lie in a span. */
  function SamplesIn(sources: seq<Source>, outer: Span): int {
    Sum(sources, CountIn(outer))
  }

  ghost predicate CountsHold(segments: seq<Segment>, sources: seq<Source>) {
    forall k :: 0 <= k < |segments| ==>
      segments[k].count <= MAX_COUNT && segments[k].count == ClampInt(SamplesIn(sources, segments[k].span))
  }

  function ClampInt(v: int): int {
    if v > MAX_COUNT then MAX_COUNT else v
  }

  /** More than five seconds apart; every source in one of them; holes of at most five seconds inside; the
      samples of each the saturating sum of its sources' samples. */
  ghost predicate SegmentsOf(segments: seq<Segment>, sources: seq<Source>) {
    Merges(SegmentSpans(segments), SourceSpans(sources), MERGE_TOLERANCE) && CountsHold(segments, sources)
  }

  lemma SamplesMore(sources: seq<Source>, s: Source, outer: Span)
    ensures SamplesIn(sources + [s], outer) == SamplesIn(sources, outer) + if Within(s.span, outer) then s.count else 0
  {
    SumAppend(sources, s, CountIn(outer));
  }

  lemma {:induction false} SamplesSame(sources: seq<Source>, a: Span, b: Span)
    requires forall s :: s in sources ==> (Within(s.span, a) <==> Within(s.span, b))
    ensures SamplesIn(sources, a) == SamplesIn(sources, b)
  {
    SumSame(sources, CountIn(a), CountIn(b));
  }

  lemma {:induction false} SamplesNone(sources: seq<Source>, a: Span)
    requires forall s :: s in sources ==> !Within(s.span, a)
    ensures SamplesIn(sources, a) == 0
  {
    if sources != [] {
      SamplesNone(sources[1..], a);
    }
  }

  lemma SpansOfMore(sources: seq<Source>, s: Source)
    ensures SourceSpans(sources + [s]) == SourceSpans(sources) + [s.span]
  {
  }

  lemma SegmentSpansMore(segments: seq<Segment>, g: Segment)
    ensures SegmentSpans(segments + [g]) == SegmentSpans(segments) + [g.span]
  {
  }

  lemma SegmentSpansSet(segments: seq<Segment>, k: nat, g: Segment)
    requires k < |segments|
    ensures SegmentSpans(segments[k := g]) == SegmentSpans(segments)[k := g.span]
  {
  }

  lemma InSomeSegment(segments: seq<Segment>, sources: seq<Source>, x: Source) returns (k: nat)
    requires Merges(SegmentSpans(segments), SourceSpans(sources), MERGE_TOLERANCE) && x in sources
    ensures k < |segments| && Within(x.span, segments[k].span)
  {
    hide Tight;
    var i :| 0 <= i < |sources| && sources[i] == x;
    assert SourceSpans(sources)[i] == x.span;
    assert x.span in SourceSpans(sources);
    var m :| m in SegmentSpans(segments) && m.start <= x.span.start && x.span.end <= m.end;
    k :| 0 <= k < |segments| && SegmentSpans(segments)[k] == m;
  }

  lemma SegmentsInOrder(segments: seq<Segment>, sources: seq<Source>, i: nat, j: nat)
    requires Merges(SegmentSpans(segments), SourceSpans(sources), MERGE_TOLERANCE) && i < j < |segments|
    ensures segments[i].span.end + MERGE_TOLERANCE < segments[j].span.start
  {
    MergedInOrder(SegmentSpans(segments), SourceSpans(sources), MERGE_TOLERANCE, i, j);
  }

  lemma SegmentsNonEmpty(segments: seq<Segment>, sources: seq<Source>, i: nat)
    requires Merges(SegmentSpans(segments), SourceSpans(sources), MERGE_TOLERANCE) && i < |segments|
    ensures segments[i].span.start < segments[i].span.end
  {
    assert SegmentSpans(segments)[i] == segments[i].span;
  }

  /** A source starting after the end of every segment begins a new one. */
  lemma AppendCounts(segments: seq<Segment>, sources: seq<Source>, s: Source)
    requires SegmentsOf(segments, sources) && s.span.start < s.span.end && forall x :: x in sources ==>
      x.span.start < x.span.end
    requires segments != [] ==> s.span.start > segments[|segments| - 1].span.end
    ensures CountsHold(segments + [Segment(s.span, s.count)], sources + [s])
  {
    hide Merges, SamplesIn;
    var z := segments + [Segment(s.span, s.count)];
    forall k | 0 <= k < |segments| ensures segments[k].span.end < s.span.start {
      if k < |segments| - 1 {
        SegmentsInOrder(segments, sources, k, |segments| - 1);
        SegmentsNonEmpty(segments, sources, |segments| - 1);
      }
    }
    forall x | x in sources ensures !Within(x.span, s.span) {
      var k := InSomeSegment(segments, sources, x);
    }
    SamplesNone(sources, s.span);
    forall k | 0 <= k < |z| ensures z[k].count == ClampInt(SamplesIn(sources + [s], z[k].span)) {
      SamplesMore(sources, s, z[k].span);
    }
  }

  /** A source that joins the last segment. */
  lemma ExtendCounts(segments: seq<Segment>, sources: seq<Source>, s: Source, wider: Span)
    requires SegmentsOf(segments, sources) && segments != [] && forall x :: x in sources ==> x.span.start < x.span.end
    requires var last := segments[|segments| - 1].span;
      wider.start == last.start && wider.end >= last.end && Within(s.span, wider) && s.span.start < s.span.end
    ensures CountsHold(segments[|segments| - 1 := Segment(wider, AddCount(segments[|segments| - 1].count, s.count))],
      sources + [s])
  {
    hide Merges, SamplesIn;
    var n := |segments| - 1;
    var last := segments[n];
    var z := segments[n := Segment(wider, AddCount(last.count, s.count))];
    forall x | x in sources ensures Within(x.span, wider) <==> Within(x.span, last.span) {
      var k := InSomeSegment(segments, sources, x);
      if k < n { SegmentsInOrder(segments, sources, k, n); }
    }
    SamplesSame(sources, wider, last.span);
    forall k | 0 <= k < |z|
      ensures z[k].count <= MAX_COUNT && z[k].count == ClampInt(SamplesIn(sources + [s], z[k].span))
    {
      SamplesMore(sources, s, z[k].span);
      if k < n {
        SegmentsInOrder(segments, sources, k, n);
      }
    }
  }

  method RebuildSeries(sources: seq<Source>, from: Time) returns (segments: seq<Segment>)
    requires GoodSources(sources, from)
    ensures SegmentsOf(segments, sources)
  {
    hide Merges, CountsHold;
    segments := [];
    NoSegments();
    for i := 0 to |sources|
      invariant SegmentsOf(segments, sources[..i])
    {
      var s := sources[i];
      ghost var done := sources[..i];
      assert sources[..i + 1] == done + [s];
      SpansOfMore(done, s);
      ghost var spans, merged := SourceSpans(done), SegmentSpans(segments);
      var n := |segments| - 1;
      if n >= 0 && s.span.start - segments[n].span.end <= MERGE_TOLERANCE {
        var last := segments[n];
        LastStarts(merged, SourceSpans(sources), i, MERGE_TOLERANCE)
          by { PrefixSpans(sources, i); SpansSorted(sources, from); }
        var end := if s.span.end > last.span.end then s.span.end else last.span.end;
        var wider := Span(last.span.start, end);
        ExtendCounts(segments, done, s, wider);
        SegmentSpansSet(segments, n, Segment(wider, AddCount(last.count, s.count)));
        if s.span.end > last.span.end {
          MergeExtends(merged, spans, s.span, MERGE_TOLERANCE);
        } else {
          assert merged[n] in merged && wider == last.span && merged[n := wider] == merged;
          MergeSkips(merged, spans, s.span, MERGE_TOLERANCE);
        }
        segments := segments[n := Segment(wider, AddCount(last.count, s.count))];
      } else {
        AppendCounts(segments, done, s);
        SegmentSpansMore(segments, Segment(s.span, s.count));
        MergeAppends(merged, spans, s.span, MERGE_TOLERANCE);
        segments := segments + [Segment(s.span, s.count)];
      }
    }
    assert sources[..|sources|] == sources;
  }

  lemma NoSegments()
    ensures SegmentsOf([], [])
  {
    MergeNothing(MERGE_TOLERANCE);
    assert SegmentSpans([]) == [] && SourceSpans([]) == [];
  }

  lemma PrefixSpans(sources: seq<Source>, i: nat)
    requires i <= |sources|
    ensures SourceSpans(sources)[..i] == SourceSpans(sources[..i])
  {
  }

  lemma SpansSorted(sources: seq<Source>, from: Time)
    requires GoodSources(sources, from)
    ensures SortedBy(SourceSpans(sources), SpanLe)
  {
    forall i, j | 0 <= i < j < |sources| ensures SpanLe(SourceSpans(sources)[i], SourceSpans(sources)[j]) {
      assert SourceLe(sources[i], sources[j]);
    }
  }

  // All series of an hour

  ghost predicate SeriesIn(rows: seq<Row>, from: Time, types: set<string>, key: Series) {
    SourcesOf(rows, from, types, key) != []
  }

  lemma SourcesStep(rows: seq<Row>, from: Time, types: set<string>, i: nat, key: Series)
    requires i < |rows|
    ensures SourcesOf(rows[..i + 1], from, types, key) == SourcesOf(rows[..i], from, types, key) +
      if Usable(rows[i], from, types) && Series(rows[i].session, rows[i].signal) == key then [SourceOf(rows[i], from)]
        else []
  {
    assert rows[..i + 1][..i] == rows[..i];
  }

  lemma NoSources(from: Time, types: set<string>)
    ensures forall key :: SourcesOf([], from, types, key) == []
  {
  }

  method GroupSources(rows: seq<Row>, from: Time, types: set<string>) returns (bySeries: map<Series, seq<Source>>)
    ensures forall key :: key in bySeries <==> SeriesIn(rows, from, types, key)
    ensures forall key :: key in bySeries ==> bySeries[key] == SourcesOf(rows, from, types, key)
  {
    bySeries := map[];
    NoSources(from, types);
    hide SourcesOf, Usable, SourceOf;
    for i := 0 to |rows|
      invariant forall key :: key in bySeries <==> SeriesIn(rows[..i], from, types, key)
      invariant forall key :: key in bySeries ==> bySeries[key] == SourcesOf(rows[..i], from, types, key)
    {
      var row := rows[i];
      forall key
        ensures SourcesOf(rows[..i + 1], from, types, key) == SourcesOf(rows[..i], from, types, key) +
          if Usable(row, from, types) && Series(row.session, row.signal) == key then [SourceOf(row, from)] else []
      {
        SourcesStep(rows, from, types, i, key);
      }
      if Usable(row, from, types) {
        var key := Series(row.session, row.signal);
        bySeries := bySeries[key := (if key in bySeries then bySeries[key] else []) + [SourceOf(row, from)]];
      }
    }
    assert rows[..|rows|] == rows;
  }

  /** Rebuilds the segments of an hour: of each series that has windows, and of no other. */
  method RebuildHour(rows: seq<Row>, from: Time, types: set<string>) returns (segments: map<Series, seq<Segment>>)
    requires InOrder(rows)
    ensures forall key :: key in segments <==> SeriesIn(rows, from, types, key)
    ensures forall key :: key in segments ==> SegmentsOf(segments[key], SourcesOf(rows, from, types, key))
  {
    hide SegmentsOf, SourcesOf, InOrder, GoodSources;
    var bySeries := GroupSources(rows, from, types);
    segments := map[];
    var rest := bySeries.Keys;
    while rest != {}
      invariant rest <= bySeries.Keys && segments.Keys == bySeries.Keys - rest
      invariant forall key :: key in segments ==> SegmentsOf(segments[key], SourcesOf(rows, from, types, key))
    {
      var key :| key in rest;
      SourcesGood(rows, from, types, key);
      var segs := RebuildSeries(bySeries[key], from);
      segments := segments[key := segs];
      rest := rest - {key};
    }
  }

  // Asking whether a window is covered

  datatype Stored = Stored(series: Series, span: Span)

  predicate Matches(g: Stored, session: string, types: set<string>, start: Time, end: Time) {
    g.series.session == session && g.series.signal in types && g.span.start < end && g.span.end > start
  }

  function Matching(stored: seq<Stored>, session: string, types: set<string>, start: Time, end: Time): seq<Span> {
    if stored == [] then []
    else
      var rest := Matching(stored[..|stored| - 1], session, types, start, end);
      if Matches(stored[|stored| - 1], session, types, start, end) then rest + [stored[|stored| - 1].span] else rest
  }

  lemma {:induction false} MatchingMembers(stored: seq<Stored>, session: string, types: set<string>, start: Time,
                                           end: Time, s: Span)
    ensures s in Matching(stored, session, types, start, end) <==>
      exists g :: g in stored && Matches(g, session, types, start, end) && g.span == s
  {
    if stored != [] {
      var n := |stored| - 1;
      MatchingMembers(stored[..n], session, types, start, end, s);
      assert stored == stored[..n] + [stored[n]];
    }
  }

  /** An instant is close to a segment when it lies in it or at most five seconds before it. */
  ghost predicate Close(segments: seq<Span>, t: Time) {
    exists s :: s in segments && s.start - MERGE_TOLERANCE <= t < s.end
  }

  ghost predicate AllClose(segments: seq<Span>, start: Time, end: Time) {
    forall t :: start <= t < end ==> Close(segments, t)
  }

  /** A segment of the session and one of the signals that meets the range reaches the instant: it contains it, or
      begins at most five seconds after it. */
  ghost predicate Reached(stored: seq<Stored>, session: string, types: set<string>, start: Time, end: Time, t: Time) {
    exists g :: g in stored && g.series.session == session && g.series.signal in types &&
      g.span.start < end && start < g.span.end && g.span.start - 5_000_000_000 <= t < g.span.end
  }

  /** A range with both ends given whose every instant is reached. */
  ghost predicate Accepted(stored: seq<Stored>, session: string, types: set<string>, start: Time, end: Time) {
    && start != ZERO_TIME && end != ZERO_TIME && start < end
    && forall t :: start <= t < end ==> Reached(stored, session, types, start, end, t)
  }

  lemma CloseIsReached(stored: seq<Stored>, session: string, types: set<string>, start: Time, end: Time)
    ensures AllClose(Matching(stored, session, types, start, end), start, end) <==>
      forall t :: start <= t < end ==> Reached(stored, session, types, start, end, t)
  {
    hide Matching;
    var found := Matching(stored, session, types, start, end);
    forall t ensures Close(found, t) <==> Reached(stored, session, types, start, end, t) {
      if s :| s in found && s.start - MERGE_TOLERANCE <= t < s.end {
        MatchingMembers(stored, session, types, start, end, s);
      }
      if g :| g in stored && g.series.session == session && g.series.signal in types &&
              g.span.start < end && start < g.span.end && g.span.start - 5_000_000_000 <= t < g.span.end {
        assert Matches(g, session, types, start, end);
        MatchingMembers(stored, session, types, start, end, g.span);
      }
    }
  }

  /** Accepted exactly when every instant of the window lies in a segment or at most five seconds before one
      that begins inside the window. */
  method IsCovered(stored: seq<Stored>, session: string, types: set<string>, start: Time, end: Time)
    returns (covered: bool)
    ensures covered <==> Accepted(stored, session, types, start, end)
  {
    if start == ZERO_TIME || end == ZERO_TIME || start >= end {
      return false;
    }
    hide Reached, Matching;
    CloseIsReached(stored, session, types, start, end);
    ghost var found := Matching(stored, session, types, start, end);
    SortSorts(found, SpanLe);
    var segments := Sort(Matching(stored, session, types, start, end), SpanLe);
    SameMembers(segments, found);
    var cursor := start;
    for i := 0 to |segments|
      invariant start <= cursor < end
      invariant forall t :: start <= t < cursor ==> Close(found, t)
      invariant forall k :: 0 <= k < i ==> segments[k].end <= cursor
    {
      var seg := segments[i];
      if seg.start > cursor + MERGE_TOLERANCE {
        NotClose(found, segments, i, cursor);
        assert !AllClose(found, start, end);
        return false;
      }
      assert seg in found;
      if seg.end > cursor {
        cursor := seg.end;
      }
      if cursor >= end {
        return true;
      }
    }
    NotClose(found, segments, |segments|, cursor);
    return cursor >= end;
  }

  lemma NotClose(found: seq<Span>, segments: seq<Span>, i: nat, t: Time)
    requires (forall s :: s in segments <==> s in found) && SortedBy(segments, SpanLe) && i <= |segments|
    requires forall k :: 0 <= k < i ==> segments[k].end <= t
    requires i < |segments| ==> segments[i].start > t + MERGE_TOLERANCE
    ensures !Close(found, t)
  {
    forall s | s in found
      ensures !(s.start - MERGE_TOLERANCE <= t < s.end)
    {
      assert s in segments;
      var k :| 0 <= k < |segments| && segments[k] == s;
      assert k > i ==> SpanLe(segments[i], segments[k]);
    }
  }

  /** Every clipped window is covered by the segments rebuilt from its hour, whatever else is stored. */
  lemma WindowsAreCovered(rows: seq<Row>, from: Time, types: set<string>, row: Row, segments: seq<Segment>,
                          stored: seq<Stored>)
    requires InOrder(rows) && row in rows && Usable(row, from, types)
    requires var key := Series(row.session, row.signal);
      && SegmentsOf(segments, SourcesOf(rows, from, types, key))
      && forall g :: g in segments ==> Stored(key, g.span) in stored
    ensures var w := SourceOf(row, from).span;
      Accepted(stored, row.session, types, w.start, w.end) <==> w.start != ZERO_TIME && w.end != ZERO_TIME
  {
    hide Merges, CountsHold, Matching, Reached;
    var key, source := Series(row.session, row.signal), SourceOf(row, from);
    var w := source.span;
    SourceListed(rows, from, types, row);
    var k := InSomeSegment(segments, SourcesOf(rows, from, types, key), source);
    var g := Stored(key, segments[k].span);
    assert segments[k] in segments && g in stored;
    assert Matches(g, row.session, types, w.start, w.end);
    MatchingMembers(stored, row.session, types, w.start, w.end, g.span);
    CloseIsReached(stored, row.session, types, w.start, w.end);
  }

  lemma {:induction false} SourceListed(rows: seq<Row>, from: Time, types: set<string>, row: Row)
    requires row in rows && Usable(row, from, types)
    ensures SourceOf(row, from) in SourcesOf(rows, from, types, Series(row.session, row.signal))
  {
    var n := |rows| - 1;
    if rows[n] != row {
      assert row in rows[..n];
      SourceListed(rows[..n], from, types, row);
    }
  }
}
