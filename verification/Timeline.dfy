/** Gaps of a profiling timeline: where no window was recorded for longer than the tolerance. */
module Timeline {
  import opened Sorting

  type Time = int
  datatype Span = Span(start: Time, end: Time)
  datatype GapType = Leading | Internal | Trailing
  datatype Gap = Gap(span: Span, kind: GapType)

  predicate In(s: Span, t: Time) {
    s.start <= t < s.end
  }

  predicate SpanLe(a: Span, b: Span) {
    a.start <= b.start
  }

  /** Whether some window covers an instant. */
  ghost predicate Covered(windows: seq<Span>, t: Time) {
    exists w :: w in windows && In(w, t)
  }

  ghost predicate Uncovered(windows: seq<Span>, a: Time, b: Time) {
    forall t :: a <= t < b ==> !Covered(windows, t)
  }

  /** A run of uncovered instants of the range that cannot be made longer on either side. */
  ghost predicate MaximalRun(windows: seq<Span>, from: Time, to: Time, run: Span) {
    && from <= run.start < run.end <= to
    && Uncovered(windows, run.start, run.end)
    && (run.start == from || Covered(windows, run.start - 1))
    && (run.end == to || Covered(windows, run.end))
  }

  // Clipping

  function Clip(w: Span, from: Time, to: Time): Span {
    Span(if w.start < from then from else w.start, if w.end > to then to else w.end)
  }

  function ClipAll(windows: seq<Span>, from: Time, to: Time): seq<Span> {
    if windows == [] then []
    else
      var rest, c := ClipAll(windows[..|windows| - 1], from, to), Clip(windows[|windows| - 1], from, to);
      if c.start < c.end then rest + [c] else rest
  }

  ghost predicate Inside(spans: seq<Span>, from: Time, to: Time) {
    forall s :: s in spans ==> from <= s.start < s.end <= to
  }

  lemma {:induction false} ClipCovers(windows: seq<Span>, from: Time, to: Time, t: Time)
    ensures Inside(ClipAll(windows, from, to), from, to)
    ensures from <= t < to ==> (Covered(ClipAll(windows, from, to), t) <==> Covered(windows, t))
    ensures !(from <= t < to) ==> !Covered(ClipAll(windows, from, to), t)
  {
    if windows != [] {
      var n := |windows| - 1;
      ClipCovers(windows[..n], from, to, t);
      var c := Clip(windows[n], from, to);
      assert windows == windows[..n] + [windows[n]];
      if from <= t < to {
        assert Covered(windows, t) <==> Covered(windows[..n], t) || In(windows[n], t) by {
          if Covered(windows[..n], t) { var w :| w in windows[..n] && In(w, t); assert w in windows; }
          if In(windows[n], t) { assert windows[n] in windows; }
        }
        assert In(windows[n], t) <==> In(c, t);
      }
      var rest := ClipAll(windows[..n], from, to);
      if c.start < c.end {
        assert Covered(rest + [c], t) <==> Covered(rest, t) || In(c, t) by {
          if Covered(rest, t) { var w :| w in rest && In(w, t); assert w in rest + [c]; }
          if In(c, t) { assert c in rest + [c]; }
        }
      }
    }
  }

  // Merging

  /** Merged spans: apart by more than the tolerance, holding every instant covered, starting and ending at
      covered instants, and with no longer hole inside. */
  ghost predicate Merges(merged: seq<Span>, spans: seq<Span>, tolerance: int) {
    && (forall k :: 0 <= k < |merged| ==> merged[k].start < merged[k].end)
    && (forall k :: 0 <= k < |merged| - 1 ==> merged[k + 1].start - merged[k].end > tolerance)
    && (forall s :: s in spans ==> exists m :: m in merged && m.start <= s.start && s.end <= m.end)
    && (forall m :: m in merged ==> Tight(spans, m, tolerance))
  }

  ghost predicate Tight(spans: seq<Span>, m: Span, tolerance: int) {
    StartsAt(spans, m.start) && Covered(spans, m.start) && Covered(spans, m.end - 1) && NoLongHole(spans, m, tolerance)
  }

  ghost predicate StartsAt(spans: seq<Span>, t: Time) {
    exists w :: w in spans && w.start == t
  }

  ghost predicate NoLongHole(spans: seq<Span>, m: Span, tolerance: int) {
    forall a, b :: m.start <= a <= b <= m.end && Uncovered(spans, a, b) ==> b - a <= tolerance
  }

  lemma CoveredMore(spans: seq<Span>, s: Span, t: Time)
    ensures Covered(spans + [s], t) <==> Covered(spans, t) || In(s, t)
  {
    if Covered(spans, t) {
      var w :| w in spans && In(w, t);
      assert w in spans + [s];
    }
    if In(s, t) {
      assert s in spans + [s];
    }
  }

  lemma HolesShrink(spans: seq<Span>, s: Span, m: Span, tolerance: int)
    requires NoLongHole(spans, m, tolerance)
    ensures NoLongHole(spans + [s], m, tolerance)
  {
    forall a, b | m.start <= a <= b <= m.end && Uncovered(spans + [s], a, b)
      ensures b - a <= tolerance
    {
      forall t | a <= t < b ensures !Covered(spans, t) { CoveredMore(spans, s, t); }
      assert Uncovered(spans, a, b);
    }
  }

  /** Extending a merged span by a span that starts inside it or within the tolerance of its end. */
  lemma HolesExtend(spans: seq<Span>, s: Span, m: Span, tolerance: int)
    requires NoLongHole(spans, m, tolerance) && Covered(spans, m.end - 1)
    requires m.start < m.end && m.start <= s.start < s.end && s.start - m.end <= tolerance && s.end > m.end &&
      tolerance >= 0
    ensures NoLongHole(spans + [s], Span(m.start, s.end), tolerance)
  {
    forall a, b | m.start <= a <= b <= s.end && Uncovered(spans + [s], a, b)
      ensures b - a <= tolerance
    {
      forall t | a <= t < b ensures !Covered(spans, t) && !In(s, t) { CoveredMore(spans, s, t); }
      if a < b {
        assert !In(s, a) && !In(s, b - 1);
        assert b <= s.start;
        if a < m.end {
          assert b <= m.end;
          assert Uncovered(spans, a, b);
        }
      }
    }
  }

  lemma TightMore(spans: seq<Span>, s: Span, m: Span, tolerance: int)
    requires Tight(spans, m, tolerance)
    ensures Tight(spans + [s], m, tolerance)
  {
    CoveredMore(spans, s, m.start);
    CoveredMore(spans, s, m.end - 1);
    HolesShrink(spans, s, m, tolerance);
    var w :| w in spans && w.start == m.start;
    assert w in spans + [s];
  }

  lemma TightNew(spans: seq<Span>, s: Span, tolerance: int)
    requires s.start < s.end && tolerance >= 0
    ensures Tight(spans + [s], s, tolerance)
  {
    CoveredMore(spans, s, s.start);
    CoveredMore(spans, s, s.end - 1);
    assert s in spans + [s];
    forall a, b | s.start <= a <= b <= s.end && Uncovered(spans + [s], a, b)
      ensures b - a <= tolerance
    {
      CoveredMore(spans, s, a);
    }
  }

  lemma TightExtended(spans: seq<Span>, s: Span, m: Span, tolerance: int)
    requires Tight(spans, m, tolerance)
    requires m.start < m.end && m.start <= s.start < s.end && s.start - m.end <= tolerance && s.end > m.end &&
      tolerance >= 0
    ensures Tight(spans + [s], Span(m.start, s.end), tolerance)
  {
    TightMore(spans, s, m, tolerance);
    CoveredMore(spans, s, s.end - 1);
    HolesExtend(spans, s, m, tolerance);
  }

  ghost predicate Contained(s: Span, merged: seq<Span>) {
    exists m :: m in merged && m.start <= s.start && s.end <= m.end
  }

  lemma MergeAppends(merged: seq<Span>, spans: seq<Span>, s: Span, tolerance: int)
    requires Merges(merged, spans, tolerance) && s.start < s.end && tolerance >= 0
    requires merged != [] ==> s.start - merged[|merged| - 1].end > tolerance
    ensures Merges(merged + [s], spans + [s], tolerance)
  {
    hide Tight;
    var z := merged + [s];
    forall x | x in spans + [s] ensures Contained(x, z) {
      if x in spans {
        assert Contained(x, merged);
        var m :| m in merged && m.start <= x.start && x.end <= m.end;
        assert m in z;
      } else {
        assert s in z;
      }
    }
    forall m | m in z ensures Tight(spans + [s], m, tolerance) {
      if m in merged { TightMore(spans, s, m, tolerance); } else { TightNew(spans, s, tolerance); }
    }
  }

  lemma MergeSkips(merged: seq<Span>, spans: seq<Span>, s: Span, tolerance: int)
    requires Merges(merged, spans, tolerance) && Contained(s, merged)
    ensures Merges(merged, spans + [s], tolerance)
  {
    hide Tight;
    forall x | x in spans + [s] ensures Contained(x, merged) {
      if x in spans { assert Contained(x, merged); }
    }
    forall m | m in merged ensures Tight(spans + [s], m, tolerance) { TightMore(spans, s, m, tolerance); }
  }

  lemma MergeExtends(merged: seq<Span>, spans: seq<Span>, s: Span, tolerance: int)
    requires Merges(merged, spans, tolerance) && s.start < s.end && tolerance >= 0 && merged != []
    requires var m := merged[|merged| - 1]; m.start <= s.start && s.start - m.end <= tolerance && s.end > m.end
    ensures Merges(merged[|merged| - 1 := Span(merged[|merged| - 1].start, s.end)], spans + [s], tolerance)
  {
    hide Tight;
    var n := |merged| - 1;
    var last := merged[n];
    var z := merged[n := Span(last.start, s.end)];
    assert z[n] in z;
    forall x | x in spans + [s] ensures Contained(x, z) {
      if x in spans {
        assert Contained(x, merged);
        var m :| m in merged && m.start <= x.start && x.end <= m.end;
        var k :| 0 <= k < |merged| && merged[k] == m;
        assert z[k] in z;
      } else {
        assert x == s;
      }
    }
    forall k | 0 <= k < |z| ensures Tight(spans + [s], z[k], tolerance) {
      if k < n { TightMore(spans, s, merged[k], tolerance); } else { TightExtended(spans, s, last, tolerance); }
    }
  }

  method Merge(spans: seq<Span>, tolerance: int) returns (merged: seq<Span>)
    requires tolerance >= 0 && SortedBy(spans, SpanLe) && forall s :: s in spans ==> s.start < s.end
    ensures Merges(merged, spans, tolerance)
  {
    hide Merges;
    merged := [];
    MergeNothing(tolerance);
    for i := 0 to |spans|
      invariant Merges(merged, spans[..i], tolerance)
    {
      var s := spans[i];
      assert spans[..i + 1] == spans[..i] + [s];
      if merged == [] || s.start - merged[|merged| - 1].end > tolerance {
        MergeAppends(merged, spans[..i], s, tolerance);
        merged := merged + [s];
      } else {
        var last := merged[|merged| - 1];
        LastStarts(merged, spans, i, tolerance);
        if s.end > last.end {
          MergeExtends(merged, spans[..i], s, tolerance);
          merged := merged[|merged| - 1 := Span(last.start, s.end)];
        } else {
          assert last in merged;
          MergeSkips(merged, spans[..i], s, tolerance);
        }
      }
    }
    assert spans[..|spans|] == spans;
  }

  lemma MergeNothing(tolerance: int)
    ensures Merges([], [], tolerance)
  {
  }

  lemma LastStarts(merged: seq<Span>, spans: seq<Span>, i: nat, tolerance: int)
    requires i < |spans| && SortedBy(spans, SpanLe) && Merges(merged, spans[..i], tolerance) && merged != []
    ensures merged[|merged| - 1].start <= spans[i].start
  {
    var m := merged[|merged| - 1];
    assert m in merged && Tight(spans[..i], m, tolerance);
    var w :| w in spans[..i] && w.start == m.start;
    var k :| 0 <= k < i && spans[k] == w;
    assert SpanLe(spans[k], spans[i]);
  }

  // Gaps

  /** The space before merged span k, or after the last one. */
  function Before(merged: seq<Span>, from: Time, to: Time, k: nat): Span
    requires k <= |merged|
  {
    Span(if k == 0 then from else merged[k - 1].end, if k < |merged| then merged[k].start else to)
  }

  function GapAt(merged: seq<Span>, from: Time, to: Time, k: nat): Gap
    requires k <= |merged|
  {
    Gap(Before(merged, from, to, k), if k == |merged| then Trailing else if k == 0 then Leading else Internal)
  }

  function Length(s: Span): int {
    s.end - s.start
  }

  function FirstGaps(merged: seq<Span>, from: Time, to: Time, tolerance: int, n: nat): seq<Gap>
    requires n <= |merged| + 1
  {
    if n == 0 then []
    else
      var g := GapAt(merged, from, to, n - 1);
      FirstGaps(merged, from, to, tolerance, n - 1) + if Length(g.span) > tolerance then [g] else []
  }

  lemma {:induction false} FirstGapsMembers(merged: seq<Span>, from: Time, to: Time, tolerance: int, n: nat, g: Gap)
    requires n <= |merged| + 1
    ensures g in FirstGaps(merged, from, to, tolerance, n) <==>
      exists k :: 0 <= k < n && g == GapAt(merged, from, to, k) && Length(g.span) > tolerance
  {
    if n > 0 {
      FirstGapsMembers(merged, from, to, tolerance, n - 1, g);
    }
  }

  lemma MergedBounds(merged: seq<Span>, spans: seq<Span>, from: Time, to: Time, tolerance: int, m: Span)
    requires Merges(merged, spans, tolerance) && Inside(spans, from, to) && m in merged
    ensures from <= m.start < m.end <= to
  {
    hide Tight, Inside;
    assert Tight(spans, m, tolerance);
    TightBounds(spans, from, to, tolerance, m);
  }

  lemma TightBounds(spans: seq<Span>, from: Time, to: Time, tolerance: int, m: Span)
    requires Tight(spans, m, tolerance) && Inside(spans, from, to)
    ensures from <= m.start && m.end <= to
  {
    hide NoLongHole;
    var w :| w in spans && w.start == m.start;
    var v :| v in spans && In(v, m.end - 1);
  }

  lemma {:induction false} MergedInOrder(merged: seq<Span>, spans: seq<Span>, tolerance: int, i: nat, j: nat)
    requires Merges(merged, spans, tolerance) && tolerance >= 0 && i < j < |merged|
    ensures merged[i].end + tolerance < merged[j].start
    decreases j - i
  {
    if i + 1 < j {
      MergedInOrder(merged, spans, tolerance, i, j - 1);
      assert merged[j - 1 + 1].start - merged[j - 1].end > tolerance;
    } else {
      assert merged[i + 1].start - merged[i].end > tolerance;
    }
  }

  lemma CoveredInMerged(merged: seq<Span>, spans: seq<Span>, tolerance: int, t: Time)
    requires Merges(merged, spans, tolerance) && Covered(spans, t)
    ensures exists j :: 0 <= j < |merged| && In(merged[j], t)
  {
    var w :| w in spans && In(w, t);
    var m :| m in merged && m.start <= w.start && w.end <= m.end;
    var j :| 0 <= j < |merged| && merged[j] == m;
    assert In(merged[j], t);
  }

  lemma MergedEnds(merged: seq<Span>, spans: seq<Span>, tolerance: int, k: nat)
    requires Merges(merged, spans, tolerance) && k < |merged|
    ensures Covered(spans, merged[k].start) && Covered(spans, merged[k].end - 1) && Tight(spans, merged[k], tolerance)
  {
    hide NoLongHole, Covered, StartsAt;
    assert merged[k] in merged;
  }

  /** Where an instant lies among the merged spans. */
  lemma BetweenMerged(merged: seq<Span>, spans: seq<Span>, from: Time, to: Time, tolerance: int, k: nat, j: nat,
                      t: Time)
    requires Merges(merged, spans, tolerance) && tolerance >= 0 && Inside(spans, from, to) && k <= |merged| &&
      j < |merged|
    requires In(Before(merged, from, to, k), t)
    ensures !In(merged[j], t)
  {
    hide Merges, Inside;
    MergedBounds(merged, spans, from, to, tolerance, merged[j]);
    if j < k - 1 {
      MergedInOrder(merged, spans, tolerance, j, k - 1);
      MergedBounds(merged, spans, from, to, tolerance, merged[k - 1]);
    } else if k < j {
      MergedInOrder(merged, spans, tolerance, k, j);
      MergedBounds(merged, spans, from, to, tolerance, merged[k]);
    }
  }

  /** The space between merged spans is a maximal uncovered run, if there is any. */
  lemma BeforeIsRun(merged: seq<Span>, spans: seq<Span>, from: Time, to: Time, tolerance: int, k: nat)
    requires Merges(merged, spans, tolerance) && tolerance >= 0 && Inside(spans, from, to) && k <= |merged|
    requires Length(Before(merged, from, to, k)) > 0
    ensures MaximalRun(spans, from, to, Before(merged, from, to, k))
  {
    hide Merges, Inside, Covered, Tight;
    var run := Before(merged, from, to, k);
    if k > 0 {
      MergedBounds(merged, spans, from, to, tolerance, merged[k - 1]);
      MergedEnds(merged, spans, tolerance, k - 1);
    }
    if k < |merged| {
      MergedBounds(merged, spans, from, to, tolerance, merged[k]);
      MergedEnds(merged, spans, tolerance, k);
    }
    forall t | run.start <= t < run.end ensures !Covered(spans, t) {
      if Covered(spans, t) {
        CoveredInMerged(merged, spans, tolerance, t);
        var j :| 0 <= j < |merged| && In(merged[j], t);
        BetweenMerged(merged, spans, from, to, tolerance, k, j, t);
        assert false;
      }
    }
  }

  /** A long uncovered run does not touch any merged span. */
  lemma RunAvoids(spans: seq<Span>, m: Span, tolerance: int, run: Span)
    requires Tight(spans, m, tolerance) && m.start < m.end
    requires Uncovered(spans, run.start, run.end) && Length(run) > tolerance >= 0
    ensures m.end <= run.start || m.start >= run.end
  {
  }

  /** The merged span that a maximal run follows, as the number of spans before the run. */
  lemma RunPlace(merged: seq<Span>, spans: seq<Span>, from: Time, to: Time, tolerance: int, run: Span) returns (k: nat)
    requires Merges(merged, spans, tolerance) && tolerance >= 0 && Inside(spans, from, to)
    requires MaximalRun(spans, from, to, run) && Length(run) > tolerance
    ensures k <= |merged|
    ensures k > 0 ==> merged[k - 1].end <= run.start
    ensures k < |merged| ==> merged[k].start >= run.end
  {
    hide Merges, Inside, Covered, Tight;
    k := 0;
    while k < |merged| && merged[k].end <= run.start
      invariant 0 <= k <= |merged|
      invariant k > 0 ==> merged[k - 1].end <= run.start
    {
      k := k + 1;
    }
    if k < |merged| {
      MergedEnds(merged, spans, tolerance, k);
      MergedBounds(merged, spans, from, to, tolerance, merged[k]);
      RunAvoids(spans, merged[k], tolerance, run);
    }
  }

  /** The merged span that covers the instant just before or just after a run is its neighbour. */
  lemma Neighbour(merged: seq<Span>, spans: seq<Span>, from: Time, to: Time, tolerance: int, run: Span, k: nat,
                  t: Time) returns (j: nat)
    requires Merges(merged, spans, tolerance) && tolerance >= 0 && Inside(spans, from, to) && k <= |merged|
    requires k > 0 ==> merged[k - 1].end <= run.start
    requires k < |merged| ==> merged[k].start >= run.end
    requires Covered(spans, t) && run.start <= run.end && (t == run.start - 1 || t == run.end)
    ensures j < |merged| && In(merged[j], t)
    ensures t == run.start - 1 && run.start < run.end ==> j == k - 1
    ensures t == run.end && run.start < run.end ==> j == k
  {
    hide Merges, Inside, Covered;
    CoveredInMerged(merged, spans, tolerance, t);
    j :| 0 <= j < |merged| && In(merged[j], t);
    MergedBounds(merged, spans, from, to, tolerance, merged[j]);
    if k < j {
      MergedInOrder(merged, spans, tolerance, k, j);
      MergedBounds(merged, spans, from, to, tolerance, merged[k]);
    }
    if j < k - 1 {
      MergedInOrder(merged, spans, tolerance, j, k - 1);
      MergedBounds(merged, spans, from, to, tolerance, merged[k - 1]);
    }
  }

  lemma RunIsBefore(merged: seq<Span>, spans: seq<Span>, from: Time, to: Time, tolerance: int, run: Span)
    requires Merges(merged, spans, tolerance) && tolerance >= 0 && Inside(spans, from, to)
    requires MaximalRun(spans, from, to, run) && Length(run) > tolerance
    ensures exists k :: 0 <= k <= |merged| && run == Before(merged, from, to, k)
  {
    hide Merges, Inside, Covered, Uncovered;
    var k := RunPlace(merged, spans, from, to, tolerance, run);
    if k > 0 {
      MergedBounds(merged, spans, from, to, tolerance, merged[k - 1]);
    }
    if k < |merged| {
      MergedBounds(merged, spans, from, to, tolerance, merged[k]);
    }
    if run.start != from {
      var j := Neighbour(merged, spans, from, to, tolerance, run, k, run.start - 1);
    }
    if run.end != to {
      var j := Neighbour(merged, spans, from, to, tolerance, run, k, run.end);
    }
    assert run == Before(merged, from, to, k);
  }

  // Time in gaps

  function GapTime(gaps: seq<Gap>): int {
    if gaps == [] then 0 else GapTime(gaps[..|gaps| - 1]) + Length(gaps[|gaps| - 1].span)
  }

  /** Gaps in order and apart, inside the range. */
  ghost predicate Ordered(gaps: seq<Gap>, from: Time, to: Time) {
    && (forall g :: g in gaps ==> from <= g.span.start < g.span.end <= to)
    && (forall i, j :: 0 <= i < j < |gaps| ==> gaps[i].span.end < gaps[j].span.start)
  }

  lemma {:induction false} OrderedTime(gaps: seq<Gap>, from: Time, to: Time)
    requires Ordered(gaps, from, to) && from <= to
    ensures 0 <= GapTime(gaps) <= (if gaps == [] then 0 else gaps[|gaps| - 1].span.end - from) <= to - from
  {
    if gaps != [] {
      var n := |gaps| - 1;
      assert gaps[n] in gaps;
      if n > 0 {
        assert gaps[n - 1] in gaps;
      }
      OrderedTime(gaps[..n], from, to);
    }
  }

  lemma {:induction false} FirstGapsOrdered(merged: seq<Span>, spans: seq<Span>, from: Time, to: Time, tolerance: int,
                                            n: nat)
    requires Merges(merged, spans, tolerance) && tolerance >= 0 && Inside(spans, from, to) && n <= |merged| + 1
    ensures var gaps := FirstGaps(merged, from, to, tolerance, n);
      && Ordered(gaps, from, to)
      && (n > 0 && gaps != [] ==> gaps[|gaps| - 1].span.end <= Before(merged, from, to, n - 1).end)
  {
    hide Merges, Inside;
    if n > 0 {
      FirstGapsOrdered(merged, spans, from, to, tolerance, n - 1);
      var gaps, g := FirstGaps(merged, from, to, tolerance, n - 1), GapAt(merged, from, to, n - 1);
      if n > 1 {
        MergedBounds(merged, spans, from, to, tolerance, merged[n - 2]);
      }
      if n - 1 < |merged| {
        MergedBounds(merged, spans, from, to, tolerance, merged[n - 1]);
        if n > 1 { MergedInOrder(merged, spans, tolerance, n - 2, n - 1); }
      }
      if gaps != [] {
        assert gaps[|gaps| - 1] in gaps;
        assert gaps[|gaps| - 1].span.end < g.span.start;
      }
      AppendOrdered(gaps, g, from, to, tolerance);
    }
  }

  lemma AppendOrdered(gaps: seq<Gap>, g: Gap, from: Time, to: Time, tolerance: int)
    requires Ordered(gaps, from, to) && from <= g.span.start && g.span.end <= to && tolerance >= 0
    requires gaps != [] ==> gaps[|gaps| - 1].span.end < g.span.start
    ensures Length(g.span) > tolerance ==> Ordered(gaps + [g], from, to)
  {
    var z := gaps + [g];
    if Length(g.span) > tolerance {
      forall i, j | 0 <= i < j < |z| ensures z[i].span.end < z[j].span.start {
        if j == |gaps| && i < |gaps| - 1 {
          assert gaps[i].span.end < gaps[|gaps| - 1].span.start;
          assert gaps[|gaps| - 1] in gaps;
        }
      }
    }
  }

  datatype Coverage = Coverage(to: Time, total: int, gapTime: int, coveredTime: int)

  /** Exactly the maximal uncovered runs longer than the tolerance, in order. */
  ghost predicate AreGaps(gaps: seq<Gap>, windows: seq<Span>, from: Time, to: Time, tolerance: int) {
    && Ordered(gaps, from, to)
    && (forall g :: g in gaps ==>
          MaximalRun(windows, from, to, g.span) && Length(g.span) > tolerance && g.kind == KindOf(g.span, from, to))
    && (forall run :: MaximalRun(windows, from, to, run) && Length(run) > tolerance ==>
      Gap(run, KindOf(run, from, to)) in gaps)
  }

  function KindOf(run: Span, from: Time, to: Time): GapType {
    if run.end == to then Trailing else if run.start == from then Leading else Internal
  }

  function FinalTo(from: Time, to: Time, finalizedTo: Time, finalized: bool): Time {
    var t := if finalized && finalizedTo < to then finalizedTo else to;
    if t < from then from else t
  }

  method CollectGaps(merged: seq<Span>, ghost spans: seq<Span>, from: Time, to: Time, tolerance: int)
    returns (gaps: seq<Gap>)
    requires Merges(merged, spans, tolerance) && tolerance >= 0 && Inside(spans, from, to)
    ensures gaps == FirstGaps(merged, from, to, tolerance, |merged| + 1)
  {
    hide Merges, Inside;
    gaps := [];
    var cursor := from;
    for i := 0 to |merged|
      invariant gaps == FirstGaps(merged, from, to, tolerance, i)
      invariant cursor == if i == 0 then from else merged[i - 1].end
    {
      if merged[i].start - cursor > tolerance {
        gaps := gaps + [Gap(Span(cursor, merged[i].start), if i == 0 then Leading else Internal)];
      }
      MergedBounds(merged, spans, from, to, tolerance, merged[i]);
      if i > 0 {
        MergedInOrder(merged, spans, tolerance, i - 1, i);
      }
      if merged[i].end > cursor {
        cursor := merged[i].end;
      }
    }
    if to - cursor > tolerance {
      gaps := gaps + [Gap(Span(cursor, to), Trailing)];
    }
  }

  /** The gaps found between merged spans are the maximal runs of what was merged. */
  lemma FirstGapsAreGaps(merged: seq<Span>, spans: seq<Span>, from: Time, to: Time, tolerance: int)
    requires Merges(merged, spans, tolerance) && tolerance >= 0 && Inside(spans, from, to)
    ensures AreGaps(FirstGaps(merged, from, to, tolerance, |merged| + 1), spans, from, to, tolerance)
  {
    hide Merges, Inside, MaximalRun, FirstGaps, Ordered;
    var gaps := FirstGaps(merged, from, to, tolerance, |merged| + 1);
    FirstGapsOrdered(merged, spans, from, to, tolerance, |merged| + 1);
    forall g | g in gaps
      ensures MaximalRun(spans, from, to, g.span) && Length(g.span) > tolerance && g.kind == KindOf(g.span, from, to)
    {
      FirstGapsMembers(merged, from, to, tolerance, |merged| + 1, g);
      var k :| 0 <= k < |merged| + 1 && g == GapAt(merged, from, to, k) && Length(g.span) > tolerance;
      BeforeIsRun(merged, spans, from, to, tolerance, k);
      KindAt(merged, spans, from, to, tolerance, k);
    }
    forall run | MaximalRun(spans, from, to, run) && Length(run) > tolerance
      ensures Gap(run, KindOf(run, from, to)) in gaps
    {
      RunIsBefore(merged, spans, from, to, tolerance, run);
      var k :| 0 <= k <= |merged| && run == Before(merged, from, to, k);
      KindAt(merged, spans, from, to, tolerance, k);
      FirstGapsMembers(merged, from, to, tolerance, |merged| + 1, GapAt(merged, from, to, k));
    }
  }

  lemma KindAt(merged: seq<Span>, spans: seq<Span>, from: Time, to: Time, tolerance: int, k: nat)
    requires Merges(merged, spans, tolerance) && tolerance >= 0 && Inside(spans, from, to) && k <= |merged|
    ensures GapAt(merged, from, to, k).kind == KindOf(Before(merged, from, to, k), from, to)
  {
    hide Merges, Inside;
    if k < |merged| {
      MergedBounds(merged, spans, from, to, tolerance, merged[k]);
    }
    if k > 0 {
      MergedBounds(merged, spans, from, to, tolerance, merged[k - 1]);
    }
  }

  lemma SameRuns(a: seq<Span>, b: seq<Span>, from: Time, to: Time, run: Span)
    requires forall t :: from <= t < to ==> (Covered(a, t) <==> Covered(b, t))
    ensures MaximalRun(a, from, to, run) <==> MaximalRun(b, from, to, run)
  {
    hide Covered;
  }

  lemma SameGaps(gaps: seq<Gap>, a: seq<Span>, b: seq<Span>, from: Time, to: Time, tolerance: int)
    requires AreGaps(gaps, a, from, to, tolerance)
    requires forall t :: from <= t < to ==> (Covered(a, t) <==> Covered(b, t))
    ensures AreGaps(gaps, b, from, to, tolerance)
  {
    hide Covered, MaximalRun, Ordered;
    forall run ensures MaximalRun(a, from, to, run) <==> MaximalRun(b, from, to, run) { SameRuns(a, b, from, to, run); }
  }

  lemma ClippedSorted(windows: seq<Span>, sorted: seq<Span>, from: Time, to: Time)
    requires IsSortOf(sorted, ClipAll(windows, from, to), SpanLe)
    ensures Inside(sorted, from, to)
    ensures forall t :: from <= t < to ==> (Covered(sorted, t) <==> Covered(windows, t))
  {
    SameMembers(sorted, ClipAll(windows, from, to));
    ClipCovers(windows, from, to, from);
    forall t | from <= t < to ensures Covered(sorted, t) <==> Covered(windows, t) { ClipCovers(windows, from, to, t); }
  }

  method ClipWindows(windows: seq<Span>, from: Time, to: Time) returns (spans: seq<Span>)
    ensures spans == ClipAll(windows, from, to)
  {
    spans := [];
    for i := 0 to |windows|
      invariant spans == ClipAll(windows[..i], from, to)
    {
      assert windows[..i + 1][..i] == windows[..i];
      var start, end := windows[i].start, windows[i].end;
      if start < from { start := from; }
      if end > to { end := to; }
      if start < end {
        spans := spans + [Span(start, end)];
      }
    }
    assert windows[..|windows|] == windows;
  }

  /** The timeline of a range: its gaps and how much of it is covered. The covered time is never negative. */
  method TimelineCoverage(windows: seq<Span>, from: Time, to: Time, finalizedTo: Time, finalized: bool, tolerance: int)
    returns (gaps: seq<Gap>, coverage: Coverage)
    requires tolerance >= 0
    ensures AreGaps(gaps, windows, from, FinalTo(from, to, finalizedTo, finalized), tolerance)
    ensures coverage.to == FinalTo(from, to, finalizedTo, finalized) && coverage.total == coverage.to - from
    ensures from <= coverage.to
    ensures coverage.to == from || (coverage.to <= to && (finalized ==> coverage.to <= finalizedTo))
    ensures to <= coverage.to || (finalized && finalizedTo <= coverage.to)
    ensures forall g :: g in gaps ==>
      && (g.kind == Trailing <==> g.span.end == coverage.to)
      && (g.kind == Leading <==> g.span.start == from && g.span.end != coverage.to)
    ensures coverage.gapTime == GapTime(gaps)
    ensures coverage.coveredTime == coverage.total - coverage.gapTime && 0 <= coverage.coveredTime <= coverage.total
  {
    hide AreGaps, Merges, Inside, Covered, Ordered, FirstGaps;
    var finalTo := FinalTo(from, to, finalizedTo, finalized);
    var spans := ClipWindows(windows, from, finalTo);
    SortSorts(spans, SpanLe);
    var sorted := Sort(spans, SpanLe);
    ClippedSorted(windows, sorted, from, finalTo);
    NonEmpty(sorted, from, finalTo);
    var merged := Merge(sorted, tolerance);
    gaps := CollectGaps(merged, sorted, from, finalTo, tolerance);
    FirstGapsAreGaps(merged, sorted, from, finalTo, tolerance);
    SameGaps(gaps, sorted, windows, from, finalTo, tolerance);
    FirstGapsOrdered(merged, sorted, from, finalTo, tolerance, |merged| + 1);
    OrderedTime(gaps, from, finalTo);
    var total, gapTime := finalTo - from, 0;
    for i := 0 to |gaps|
      invariant gapTime == GapTime(gaps[..i])
    {
      assert gaps[..i + 1][..i] == gaps[..i];
      gapTime := gapTime + Length(gaps[i].span);
    }
    assert gaps[..|gaps|] == gaps;
    KindsMean(gaps, windows, from, finalTo, tolerance);
    var covered := total - gapTime;
    coverage := Coverage(finalTo, total, gapTime, if covered < 0 then 0 else covered);
  }

  lemma KindsMean(gaps: seq<Gap>, windows: seq<Span>, from: Time, to: Time, tolerance: int)
    requires AreGaps(gaps, windows, from, to, tolerance)
    ensures forall g :: g in gaps ==>
      && (g.kind == Trailing <==> g.span.end == to)
      && (g.kind == Leading <==> g.span.start == from && g.span.end != to)
  {
  }

  lemma NonEmpty(spans: seq<Span>, from: Time, to: Time)
    requires Inside(spans, from, to)
    ensures forall s :: s in spans ==> s.start < s.end
  {
  }

  // The gaps depend only on what is covered

  lemma OrderedHead(a: seq<Gap>, b: seq<Gap>, from: Time, to: Time)
    requires Ordered(a, from, to) && Ordered(b, from, to) && (forall g :: g in a <==> g in b) && a != []
    ensures b != [] && a[0] == b[0]
  {
    assert a[0] in b && b != [];
    var i :| 0 <= i < |b| && b[i] == a[0];
    assert b[0] in a;
    var j :| 0 <= j < |a| && a[j] == b[0];
  }

  lemma OrderedTail(a: seq<Gap>, b: seq<Gap>, from: Time, to: Time, g: Gap)
    requires Ordered(a, from, to) && (forall x :: x in a <==> x in b) && a != [] && b != [] && a[0] == b[0] &&
      g in a[1..]
    ensures g in b[1..]
  {
    var i :| 0 < i < |a| && a[i] == g;
    assert a[0].span.end < a[i].span.start && a[0] in a;
    assert g in b;
    assert b == [b[0]] + b[1..];
  }

  lemma OrderedRest(a: seq<Gap>, from: Time, to: Time)
    requires Ordered(a, from, to) && a != []
    ensures Ordered(a[1..], from, to)
  {
    assert forall g :: g in a[1..] ==> g in a;
  }

  lemma {:induction false} OrderedUnique(a: seq<Gap>, b: seq<Gap>, from: Time, to: Time)
    requires Ordered(a, from, to) && Ordered(b, from, to) && forall g :: g in a <==> g in b
    ensures a == b
  {
    hide Ordered;
    if a == [] {
      if b != [] {
        OrderedHead(b, a, from, to);
        assert false;
      }
    } else {
      OrderedHead(a, b, from, to);
      OrderedRest(a, from, to);
      OrderedRest(b, from, to);
      forall g ensures g in a[1..] <==> g in b[1..] {
        if g in a[1..] { OrderedTail(a, b, from, to, g); }
        if g in b[1..] { OrderedTail(b, a, from, to, g); }
      }
      OrderedUnique(a[1..], b[1..], from, to);
      assert a == [a[0]] + a[1..] && b == [b[0]] + b[1..];
    }
  }

  /** Windows covering the same instants, in any order and cut up in any way, have the same gaps. */
  lemma GapsUnique(gapsA: seq<Gap>, gapsB: seq<Gap>, a: seq<Span>, b: seq<Span>, from: Time, to: Time, tolerance: int)
    requires AreGaps(gapsA, a, from, to, tolerance) && AreGaps(gapsB, b, from, to, tolerance)
    requires forall t :: from <= t < to ==> (Covered(a, t) <==> Covered(b, t))
    ensures gapsA == gapsB
  {
    hide Covered, MaximalRun, Ordered;
    SameGaps(gapsA, a, b, from, to, tolerance);
    assert forall g :: g in gapsA ==> g == Gap(g.span, KindOf(g.span, from, to));
    assert forall g :: g in gapsB ==> g == Gap(g.span, KindOf(g.span, from, to));
    OrderedUnique(gapsA, gapsB, from, to);
  }

  // More windows, less gap time

  ghost function Instants(lo: Time, hi: Time, p: Time -> bool): nat
    decreases hi - lo
  {
    if lo >= hi then 0 else Instants(lo, hi - 1, p) + if p(hi - 1) then 1 else 0
  }

  ghost predicate InGaps(gaps: seq<Gap>, t: Time) {
    exists g :: g in gaps && In(g.span, t)
  }

  lemma {:induction false} InstantsLess(lo: Time, hi: Time, p: Time -> bool, q: Time -> bool)
    requires forall t :: lo <= t < hi && p(t) ==> q(t)
    ensures Instants(lo, hi, p) <= Instants(lo, hi, q)
    decreases hi - lo
  {
    if lo < hi {
      InstantsLess(lo, hi - 1, p, q);
    }
  }

  lemma {:induction false} InstantsJoin(lo: Time, mid: Time, hi: Time, p: Time -> bool)
    requires lo <= mid <= hi
    ensures Instants(lo, hi, p) == Instants(lo, mid, p) + Instants(mid, hi, p)
    decreases hi - mid
  {
    if mid < hi {
      InstantsJoin(lo, mid, hi - 1, p);
    }
  }

  lemma {:induction false} InstantsConstant(lo: Time, hi: Time, p: Time -> bool, b: bool)
    requires lo <= hi && forall t :: lo <= t < hi ==> p(t) == b
    ensures Instants(lo, hi, p) == if b then hi - lo else 0
    decreases hi - lo
  {
    if lo < hi {
      InstantsConstant(lo, hi - 1, p, b);
    }
  }

  lemma {:induction false} InstantsSame(lo: Time, hi: Time, p: Time -> bool, q: Time -> bool)
    requires forall t :: lo <= t < hi ==> p(t) == q(t)
    ensures Instants(lo, hi, p) == Instants(lo, hi, q)
    decreases hi - lo
  {
    if lo < hi {
      InstantsSame(lo, hi - 1, p, q);
    }
  }

  /** Gap time is the number of instants in gaps. */
  lemma {:induction false} GapTimeCounts(gaps: seq<Gap>, from: Time, to: Time)
    requires Ordered(gaps, from, to) && from <= to
    ensures GapTime(gaps) == Instants(from, to, t => InGaps(gaps, t))
    decreases |gaps|
  {
    var p := t => InGaps(gaps, t);
    if gaps == [] {
      InstantsConstant(from, to, p, false);
    } else {
      var n := |gaps| - 1;
      var g, rest := gaps[n].span, gaps[..n];
      assert gaps[n] in gaps;
      GapTimeCounts(rest, from, to);
      var q := t => InGaps(rest, t);
      InstantsJoin(from, g.start, to, p);
      InstantsJoin(g.start, g.end, to, p);
      InstantsJoin(from, g.start, to, q);
      forall t | from <= t < to
        ensures t < g.start ==> p(t) == q(t)
        ensures t >= g.start ==> !q(t)
        ensures t >= g.start ==> (p(t) <==> t < g.end)
      {
        LastGap(gaps, from, to, t);
      }
      InstantsSame(from, g.start, p, q);
      InstantsConstant(g.start, to, q, false);
      InstantsConstant(g.start, g.end, p, true);
      InstantsConstant(g.end, to, p, false);
    }
  }

  lemma LastGap(gaps: seq<Gap>, from: Time, to: Time, t: Time)
    requires Ordered(gaps, from, to) && gaps != []
    ensures var n := |gaps| - 1;
      && (InGaps(gaps, t) <==> InGaps(gaps[..n], t) || In(gaps[n].span, t))
      && (InGaps(gaps[..n], t) ==> t < gaps[n].span.start)
  {
    var n := |gaps| - 1;
    assert gaps == gaps[..n] + [gaps[n]];
    if InGaps(gaps[..n], t) {
      var g :| g in gaps[..n] && In(g.span, t);
      var i :| 0 <= i < n && gaps[i] == g;
      assert gaps[i].span.end < gaps[n].span.start;
      assert g in gaps;
    }
    if In(gaps[n].span, t) {
      assert gaps[n] in gaps;
    }
  }

  /** Every uncovered stretch is part of a maximal run. */
  lemma {:induction false} ExtendLeft(windows: seq<Span>, from: Time, a: Time, b: Time) returns (l: Time)
    requires from <= a < b && Uncovered(windows, a, b)
    ensures from <= l <= a && Uncovered(windows, l, b) && (l == from || Covered(windows, l - 1))
    decreases a - from
  {
    if a == from || Covered(windows, a - 1) {
      l := a;
    } else {
      l := ExtendLeft(windows, from, a - 1, b);
    }
  }

  lemma {:induction false} ExtendRight(windows: seq<Span>, limit: Time, a: Time, b: Time) returns (r: Time)
    requires a < b <= limit && Uncovered(windows, a, b)
    ensures b <= r <= limit && Uncovered(windows, a, r) && (r == limit || Covered(windows, r))
    decreases limit - b
  {
    if b == limit || Covered(windows, b) {
      r := b;
    } else {
      r := ExtendRight(windows, limit, a, b + 1);
    }
  }

  lemma GapStays(fewer: seq<Span>, more: seq<Span>, gapsF: seq<Gap>, gapsM: seq<Gap>, from: Time, to: Time,
                 tolerance: int, t: Time)
    requires AreGaps(gapsF, fewer, from, to, tolerance) && AreGaps(gapsM, more, from, to, tolerance)
    requires forall t :: Covered(fewer, t) ==> Covered(more, t)
    requires InGaps(gapsM, t)
    ensures InGaps(gapsF, t)
  {
    hide Covered, Ordered;
    var g :| g in gapsM && In(g.span, t);
    var run := g.span;
    assert MaximalRun(more, from, to, run);
    assert Uncovered(fewer, run.start, run.end);
    var l := ExtendLeft(fewer, from, run.start, run.end);
    var r := ExtendRight(fewer, to, l, run.end);
    var wide := Span(l, r);
    assert MaximalRun(fewer, from, to, wide) && Length(wide) > tolerance;
    assert Gap(wide, KindOf(wide, from, to)) in gapsF;
  }

  /** Adding windows never adds gap time. */
  lemma MoreWindowsLessGap(fewer: seq<Span>, more: seq<Span>, gapsF: seq<Gap>, gapsM: seq<Gap>, from: Time, to: Time,
                           tolerance: int)
    requires from <= to && AreGaps(gapsF, fewer, from, to, tolerance) && AreGaps(gapsM, more, from, to, tolerance)
    requires forall w :: w in fewer ==> w in more
    ensures GapTime(gapsM) <= GapTime(gapsF)
  {
    forall t | Covered(fewer, t) ensures Covered(more, t) {
      var w :| w in fewer && In(w, t);
    }
    hide AreGaps, Covered;
    OrderedGaps(gapsF, fewer, from, to, tolerance);
    OrderedGaps(gapsM, more, from, to, tolerance);
    GapTimeCounts(gapsF, from, to);
    GapTimeCounts(gapsM, from, to);
    forall t | from <= t < to && InGaps(gapsM, t) ensures InGaps(gapsF, t) {
      GapStays(fewer, more, gapsF, gapsM, from, to, tolerance, t);
    }
    InstantsLess(from, to, t => InGaps(gapsM, t), t => InGaps(gapsF, t));
  }

  lemma OrderedGaps(gaps: seq<Gap>, windows: seq<Span>, from: Time, to: Time, tolerance: int)
    requires AreGaps(gaps, windows, from, to, tolerance)
    ensures Ordered(gaps, from, to)
  {
  }
}
