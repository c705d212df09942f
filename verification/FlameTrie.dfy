/**
 Stack samples and the trie they are folded into. The trie is described here by its paths: for each path
 its weights and the names of its children in the order they were added.
 */
module FlameTrie {
  import opened Text
  import opened Wrappers
  import opened Sums
  import opened FlameTree
  import opened FlameDiff

  // Samples as they arrive, and what is counted of them

  const MAX_SAMPLE_COUNT: nat := 1_000_000_000

  /** comm and exe are the sample's labels of those names. */
  datatype RawSample = RawSample(stack: seq<string>, stackString: string, count: nat, comm: string, exe: string)

  function TrimLeft(s: string): string {
    if s != "" && IsSpace(s[0]) then TrimLeft(s[1..]) else s
  }

  function TrimRight(s: string): string {
    if s != "" && IsSpace(s[|s| - 1]) then TrimRight(s[..|s| - 1]) else s
  }

  function Trim(s: string): string {
    TrimRight(TrimLeft(s))
  }

  function Lower(s: string): string {
    seq(|s|, i requires 0 <= i < |s| => LowerChar(s[i]))
  }

  predicate Contains(s: string, part: string) {
    part <= s || (s != "" && Contains(s[1..], part))
  }

  /** Error text of the collector in place of a frame. */
  predicate LooksInvalid(frame: string) {
    var f := Trim(frame);
    f != "" && ("ERROR:" <= f || "stdin:" <= Lower(f) || Contains(Lower(f), "failed to look up stack id") ||
      Contains(Lower(f), "unknown error"))
  }

  function Split(s: string): seq<string> {
    if s == "" then [""]
    else
      var rest := Split(s[1..]);
      if s[0] == ';' then [""] + rest else [[s[0]] + rest[0]] + rest[1..]
  }

  function NonBlank(frames: seq<string>): seq<string> {
    if frames == [] then [] else (if Trim(frames[0]) != "" then [Trim(frames[0])] else []) + NonBlank(frames[1..])
  }

  function Frames(s: RawSample): seq<string> {
    if s.stack != [] then NonBlank(s.stack) else if s.stackString == "" then [] else NonBlank(Split(s.stackString))
  }

  predicate LooksValid(s: RawSample) {
    && s.count <= MAX_SAMPLE_COUNT
    && (forall f :: f in Frames(s) ==> !LooksInvalid(f))
    && !LooksInvalid(s.stackString)
  }

  function FrameName(frame: string): string {
    if Trim(frame) == "" then "unknown" else Trim(frame)
  }

  function Fallback(s: RawSample): string {
    if Trim(s.comm) != "" then Trim(s.comm) else if Trim(s.exe) != "" then Trim(s.exe) else "unknown"
  }

  datatype Weighted = Weighted(stack: Path, count: nat)

  /** What a valid sample adds: a non-empty stack of names, root first, and a positive weight. */
  function Normal(s: RawSample): (w: Weighted)
    ensures w.stack != [] && w.count > 0
  {
    var frames := if Frames(s) == [] then [Fallback(s)] else Frames(s);
    Weighted(seq(|frames|, i requires 0 <= i < |frames| => FrameName(frames[i])), if s.count == 0 then 1 else s.count)
  }

  // What is counted, in plain terms

  /** Trimming takes away white space at both ends and nothing else. */
  lemma {:induction false} TrimMeans(s: string)
    ensures exists i, j :: 0 <= i <= j <= |s| && Trim(s) == s[i..j] && IsMiddle(s, i, j)
    ensures Trim(s) != "" ==> !IsSpace(Trim(s)[0]) && !IsSpace(Trim(s)[|Trim(s)| - 1])
  {
    var i := TrimLeftMeans(s);
    var left := TrimLeft(s);
    var n := TrimRightMeans(left);
    assert s[i..][..n] == s[i..i + n];
    assert forall k :: i + n <= k < |s| ==> s[k] == left[k - i];
    assert IsMiddle(s, i, i + n);
  }

  ghost predicate IsMiddle(s: string, i: nat, j: nat) {
    i <= j <= |s| && forall k :: 0 <= k < |s| && !(i <= k < j) ==> IsSpace(s[k])
  }

  lemma {:induction false} TrimLeftMeans(s: string) returns (i: nat)
    ensures i <= |s| && TrimLeft(s) == s[i..] && (forall k :: 0 <= k < i ==> IsSpace(s[k]))
    ensures TrimLeft(s) != "" ==> !IsSpace(TrimLeft(s)[0])
  {
    if s != "" && IsSpace(s[0]) {
      i := TrimLeftMeans(s[1..]);
      assert s[1..][i..] == s[i + 1..];
      assert forall k :: 0 < k < i + 1 ==> s[k] == s[1..][k - 1];
      i := i + 1;
    } else {
      i := 0;
    }
  }

  lemma {:induction false} TrimRightMeans(s: string) returns (n: nat)
    ensures n <= |s| && TrimRight(s) == s[..n] && (forall k :: n <= k < |s| ==> IsSpace(s[k]))
    ensures TrimRight(s) != "" ==> !IsSpace(TrimRight(s)[|TrimRight(s)| - 1])
  {
    if s != "" && IsSpace(s[|s| - 1]) {
      n := TrimRightMeans(s[..|s| - 1]);
      assert s[..|s| - 1][..n] == s[..n];
    } else {
      n := |s|;
      assert s[..n] == s;
    }
  }

  lemma TrimmedStays(s: string)
    ensures Trim(Trim(s)) == Trim(s)
  {
    TrimMeans(s);
    var t := Trim(s);
    if t != "" {
      assert TrimLeft(t) == t && TrimRight(t) == t;
    }
  }

  /** The parts of a stack text are what stands between its semicolons. */
  lemma {:induction false} SplitMeans(s: string)
    ensures Split(s) != [] && Joined(Split(s)) == s
    ensures forall part :: part in Split(s) ==> ';' !in part
  {
    if s != "" {
      SplitMeans(s[1..]);
      var rest := Split(s[1..]);
      if s[0] == ';' {
        assert ([""] + rest)[1..] == rest;
        assert s == ";" + s[1..];
      } else {
        var parts := [[s[0]] + rest[0]] + rest[1..];
        assert parts[1..] == rest[1..] && s == [s[0]] + s[1..];
      }
    }
  }

  function Joined(parts: seq<string>): string {
    if parts == [] then "" else if |parts| == 1 then parts[0] else parts[0] + ";" + Joined(parts[1..])
  }

  /** Every frame contributes in its place: itself, trimmed, or nothing if it is blank. */
  lemma {:induction false} NonBlankMeans(before: seq<string>, frame: string, after: seq<string>)
    ensures NonBlank(before + [frame] + after) ==
      NonBlank(before) + (if Trim(frame) != "" then [Trim(frame)] else []) + NonBlank(after)
  {
    var all := before + [frame] + after;
    if before == [] {
      assert all == [frame] + after && all[1..] == after;
    } else {
      assert all[1..] == before[1..] + [frame] + after;
      NonBlankMeans(before[1..], frame, after);
    }
  }

  lemma {:induction false} NonBlankTrimmed(frames: seq<string>)
    ensures forall f :: f in NonBlank(frames) ==> f != "" && Trim(f) == f
  {
    if frames != [] {
      NonBlankTrimmed(frames[1..]);
      TrimmedStays(frames[0]);
    }
  }

  lemma TrimmedWord(s: string)
    requires s != "" && !IsSpace(s[0]) && !IsSpace(s[|s| - 1])
    ensures Trim(s) == s
  {
  }

  function RawFrames(s: RawSample): seq<string> {
    if s.stack != [] then s.stack else Split(s.stackString)
  }

  lemma FramesMean(s: RawSample)
    ensures Frames(s) == NonBlank(RawFrames(s))
  {
    assert Trim("") == "" && Split("")[1..] == [];
  }

  lemma FallbackNamed(s: RawSample)
    ensures FrameName(Fallback(s)) == Fallback(s)
  {
    TrimmedWord("unknown");
    TrimmedStays(s.comm);
    TrimmedStays(s.exe);
  }

  /** What a sample counts as: the frames that are not blank, from the list if there is one, else from the text, in
      their order and trimmed; without any, its command, its executable or "unknown"; once if it has no count. */
  lemma NormalMeans(s: RawSample)
    ensures var w := Normal(s); var frames := NonBlank(if s.stack != [] then s.stack else Split(s.stackString));
      var fallback := if Trim(s.comm) != "" then Trim(s.comm) else if Trim(s.exe) != "" then Trim(s.exe) else "unknown";
      && (frames != [] ==> w.stack == frames) && (frames == [] ==> w.stack == [fallback])
      && (s.count > 0 ==> w.count == s.count) && (s.count == 0 ==> w.count == 1)
  {
    hide Trim, Split, NonBlank, Frames;
    FramesMean(s);
    FallbackNamed(s);
    NonBlankTrimmed(RawFrames(s));
    var frames := NonBlank(RawFrames(s));
    forall i | 0 <= i < |frames| ensures FrameName(frames[i]) == frames[i] {
      assert frames[i] in frames;
    }
    assert frames != [] ==> Normal(s).stack == frames;
  }

  ghost predicate StandsAt(s: string, part: string, i: nat) {
    i + |part| <= |s| && s[i..i + |part|] == part
  }

  lemma {:induction false} ContainsMeans(s: string, part: string)
    ensures Contains(s, part) <==> exists i: nat :: StandsAt(s, part, i)
  {
    if part <= s {
      assert StandsAt(s, part, 0);
    } else if s != "" {
      ContainsMeans(s[1..], part);
      if i: nat :| StandsAt(s[1..], part, i) {
        assert s[1..][i..i + |part|] == s[i + 1..i + 1 + |part|];
        assert StandsAt(s, part, i + 1);
      }
      if i: nat :| StandsAt(s, part, i) {
        assert i > 0;
        assert s[1..][i - 1..i - 1 + |part|] == s[i..i + |part|];
        assert StandsAt(s[1..], part, i - 1);
      }
    }
  }

  /** A frame is refused exactly for one of the collector's four messages, of which all but the first are found in
      any case. */
  lemma InvalidMeans(frame: string)
    ensures LooksInvalid(frame) <==>
      || "ERROR:" <= Trim(frame) || "stdin:" <= Lower(Trim(frame))
      || (exists i: nat :: StandsAt(Lower(Trim(frame)), "failed to look up stack id", i))
      || (exists i: nat :: StandsAt(Lower(Trim(frame)), "unknown error", i))
  {
    ContainsMeans(Lower(Trim(frame)), "failed to look up stack id");
    ContainsMeans(Lower(Trim(frame)), "unknown error");
  }

  lemma {:induction false} InvalidFrames(frames: seq<string>)
    ensures (exists f :: f in NonBlank(frames) && LooksInvalid(f)) <==> exists f :: f in frames && LooksInvalid(f)
  {
    if frames != [] {
      InvalidFrames(frames[1..]);
      TrimmedStays(frames[0]);
      assert LooksInvalid(frames[0]) <==> Trim(frames[0]) != "" && LooksInvalid(Trim(frames[0]));
      assert frames == [frames[0]] + frames[1..];
      assert forall f :: f in frames <==> f == frames[0] || f in frames[1..];
      var first := if Trim(frames[0]) != "" then [Trim(frames[0])] else [];
      assert NonBlank(frames) == first + NonBlank(frames[1..]);
      if LooksInvalid(frames[0]) {
        assert Trim(frames[0]) in NonBlank(frames);
      }
    }
  }

  /** A sample is counted exactly if its count is at most a milliard and neither its text nor any of its frames is a
      message of the collector. */
  lemma ValidMeans(s: RawSample)
    ensures LooksValid(s) <==>
      && s.count <= 1_000_000_000 && !LooksInvalid(s.stackString)
      && !exists f :: f in (if s.stack != [] then s.stack else Split(s.stackString)) && LooksInvalid(f)
  {
    hide LooksInvalid, Split, Frames, NonBlank;
    FramesMean(s);
    InvalidFrames(RawFrames(s));
  }

  function Counted(samples: seq<RawSample>): (ws: seq<Weighted>)
    ensures forall w :: w in ws ==> w.stack != []
  {
    if samples == [] then []
    else
      var s := samples[|samples| - 1];
      Counted(samples[..|samples| - 1]) + if LooksValid(s) then [Normal(s)] else []
  }

  // The weights a path should have

  function Under(p: Path): Weighted -> int {
    (w: Weighted) => if p <= w.stack then w.count else 0
  }

  function Exactly(p: Path): Weighted -> int {
    (w: Weighted) => if p == w.stack then w.count else 0
  }

  /** Total weight of the samples whose stack starts with the path. */
  function PrefixSum(ws: seq<Weighted>, p: Path): int {
    Sum(ws, Under(p))
  }

  function LeafSum(ws: seq<Weighted>, p: Path): int {
    Sum(ws, Exactly(p))
  }

  // The trie

  datatype Cell = Cell(value: nat, self: nat)
  datatype Trie = Trie(kids: map<Path, seq<string>>, cells: map<Path, Cell>)

  const EMPTY_TRIE: Trie := Trie(map[[] := []], map[[] := Cell(0, 0)])

  function Link(t: Trie, p: Path, f: string): Trie {
    if p !in t.kids || f in t.kids[p] then t
    else Trie(t.kids[p := t.kids[p] + [f]][p + [f] := []], t.cells[p + [f] := Cell(0, 0)])
  }

  function Bump(t: Trie, p: Path, count: nat, leaf: bool): Trie {
    if p !in t.cells then t
    else t.(cells := t.cells[p := Cell(t.cells[p].value + count, t.cells[p].self + if leaf then count else 0)])
  }

  ghost predicate ChildrenIn(kids: map<Path, seq<string>>) {
    forall p, f :: p in kids && f in kids[p] ==> p + [f] in kids
  }

  predicate HasParent(kids: map<Path, seq<string>>, p: Path)
    requires p != []
  {
    p[..|p| - 1] in kids && p[|p| - 1] in kids[p[..|p| - 1]]
  }

  ghost predicate ParentsIn(kids: map<Path, seq<string>>) {
    forall p :: p in kids && p != [] ==> HasParent(kids, p)
  }

  ghost predicate Shaped(t: Trie) {
    && t.kids.Keys == t.cells.Keys && [] in t.kids
    && ChildrenIn(t.kids) && ParentsIn(t.kids)
    && (forall p :: p in t.kids ==> Distinct(t.kids[p]))
  }

  lemma NewChild(kids: map<Path, seq<string>>, p: Path, f: string)
    requires p in kids && ParentsIn(kids) && f !in kids[p]
    ensures p + [f] !in kids && p + [f] != p
  {
    var q := p + [f];
    assert q[..|q| - 1] == p && q[|q| - 1] == f;
    var parentKnown := HasParent(kids, q);
  }

  lemma LinkChildrenIn(kids: map<Path, seq<string>>, p: Path, f: string)
    requires p in kids && ChildrenIn(kids) && ParentsIn(kids) && f !in kids[p]
    ensures ChildrenIn(kids[p := kids[p] + [f]][p + [f] := []])
  {
    NewChild(kids, p, f);
  }

  lemma LinkParentsIn(kids: map<Path, seq<string>>, p: Path, f: string)
    requires p in kids && ParentsIn(kids) && f !in kids[p]
    ensures ParentsIn(kids[p := kids[p] + [f]][p + [f] := []])
  {
    var z := kids[p := kids[p] + [f]][p + [f] := []];
    NewChild(kids, p, f);
    forall q | q in z && q != []
      ensures HasParent(z, q)
    {
      if q == p + [f] {
        assert q[..|q| - 1] == p && q[|q| - 1] == f;
      } else {
        assert HasParent(kids, q);
      }
    }
  }

  lemma LinkDistinct(kids: map<Path, seq<string>>, p: Path, f: string)
    requires p in kids && f !in kids[p] && forall q :: q in kids ==> Distinct(kids[q])
    ensures var z := kids[p := kids[p] + [f]][p + [f] := []];
      (forall q :: q in z ==> Distinct(z[q])) && z.Keys == kids.Keys + {p + [f]}
  {
    assert Distinct(kids[p] + [f]);
  }

  lemma LinkShaped(t: Trie, p: Path, f: string)
    requires Shaped(t) && p in t.kids
    ensures Shaped(Link(t, p, f))
    ensures Link(t, p, f).kids.Keys == t.kids.Keys + {p + [f]}
  {
    if f in t.kids[p] {
      assert p + [f] in t.kids;
      assert t.kids.Keys == t.kids.Keys + {p + [f]};
    } else {
      hide ChildrenIn, ParentsIn, Distinct;
      var z := t.kids[p := t.kids[p] + [f]][p + [f] := []];
      LinkDistinct(t.kids, p, f);
      LinkChildrenIn(t.kids, p, f);
      LinkParentsIn(t.kids, p, f);
      assert Link(t, p, f).kids == z;
      assert Link(t, p, f).cells.Keys == t.cells.Keys + {p + [f]};
    }
  }

  function ValueAt(t: Trie, p: Path): nat {
    if p in t.cells then t.cells[p].value else 0
  }

  function SelfAt(t: Trie, p: Path): nat {
    if p in t.cells then t.cells[p].self else 0
  }

  lemma LinkWeights(t: Trie, p: Path, f: string, q: Path)
    requires Shaped(t) && p in t.kids
    ensures ValueAt(Link(t, p, f), q) == ValueAt(t, q) && SelfAt(Link(t, p, f), q) == SelfAt(t, q)
  {
    if f !in t.kids[p] {
      NewChild(t.kids, p, f);
    }
  }

  lemma BumpShaped(t: Trie, p: Path, count: nat, leaf: bool)
    requires Shaped(t)
    ensures Shaped(Bump(t, p, count, leaf)) && Bump(t, p, count, leaf).kids == t.kids
  {
  }

  lemma BumpWeights(t: Trie, p: Path, count: nat, leaf: bool, q: Path)
    requires Shaped(t) && p in t.kids
    ensures ValueAt(Bump(t, p, count, leaf), q) == ValueAt(t, q) + if q == p then count else 0
    ensures SelfAt(Bump(t, p, count, leaf), q) == SelfAt(t, q) + if q == p && leaf then count else 0
  {
  }

  /** The trie after the root and the first i frames of a sample have been visited. */
  function AddFrames(t: Trie, stack: Path, count: nat, i: nat): Trie
    requires i <= |stack|
  {
    if i == 0 then Bump(t, [], count, false)
    else Bump(Link(AddFrames(t, stack, count, i - 1), stack[..i - 1], stack[i - 1]), stack[..i], count, i == |stack|)
  }

  lemma {:induction false} AddFramesShaped(t: Trie, stack: Path, count: nat, i: nat)
    requires Shaped(t) && i <= |stack|
    ensures Shaped(AddFrames(t, stack, count, i)) && stack[..i] in AddFrames(t, stack, count, i).kids
    ensures i > 0 ==> stack[..i] in Link(AddFrames(t, stack, count, i - 1), stack[..i - 1], stack[i - 1]).kids
  {
    hide Shaped;
    if i == 0 {
      assert stack[..0] == [] && [] in t.kids by { RootIn(t); }
      BumpShaped(t, [], count, false);
    } else {
      var before := AddFrames(t, stack, count, i - 1);
      AddFramesShaped(t, stack, count, i - 1);
      assert stack[..i - 1] + [stack[i - 1]] == stack[..i];
      LinkShaped(before, stack[..i - 1], stack[i - 1]);
      BumpShaped(Link(before, stack[..i - 1], stack[i - 1]), stack[..i], count, i == |stack|);
    }
  }

  lemma RootIn(t: Trie)
    requires Shaped(t)
    ensures [] in t.kids
  {
  }

  function Add(t: Trie, stack: Path, count: nat): Trie {
    AddFrames(t, stack, count, |stack|)
  }

  function Fold(ws: seq<Weighted>): Trie {
    if ws == [] then EMPTY_TRIE else Add(Fold(ws[..|ws| - 1]), ws[|ws| - 1].stack, ws[|ws| - 1].count)
  }

  lemma {:induction false} FoldShaped(ws: seq<Weighted>)
    ensures Shaped(Fold(ws))
  {
    hide Shaped;
    if ws != [] {
      FoldShaped(ws[..|ws| - 1]);
      AddFramesShaped(Fold(ws[..|ws| - 1]), ws[|ws| - 1].stack, ws[|ws| - 1].count, |ws[|ws| - 1].stack|);
    } else {
      EmptyShaped();
    }
  }

  lemma EmptyShaped()
    ensures Shaped(EMPTY_TRIE)
  {
  }

  lemma LongerPrefix(q: Path, stack: Path, i: nat)
    requires 0 < i <= |stack|
    ensures q <= stack[..i] <==> q <= stack[..i - 1] || q == stack[..i]
    ensures q == stack[..i] ==> !(q <= stack[..i - 1])
  {
    assert stack[..i] == stack[..i - 1] + [stack[i - 1]];
  }

  /** Every node on the way gains the weight; the last one also as its own. */
  lemma {:induction false} AddFramesWeights(t: Trie, stack: Path, count: nat, i: nat, q: Path)
    requires Shaped(t) && i <= |stack|
    ensures ValueAt(AddFrames(t, stack, count, i), q) == ValueAt(t, q) + if q <= stack[..i] then count else 0
    ensures SelfAt(AddFrames(t, stack, count, i), q) == SelfAt(t, q) + if i > 0 && i == |stack| && q == stack
      then count else 0
  {
    hide Shaped, Link, Bump, ValueAt, SelfAt;
    if i == 0 {
      RootIn(t);
      BumpWeights(t, [], count, false, q);
      assert stack[..0] == [];
    } else {
      var before := AddFrames(t, stack, count, i - 1);
      AddFramesShaped(t, stack, count, i - 1);
      AddFramesShaped(t, stack, count, i);
      AddFramesWeights(t, stack, count, i - 1, q);
      LinkShaped(before, stack[..i - 1], stack[i - 1]);
      LinkWeights(before, stack[..i - 1], stack[i - 1], q);
      BumpWeights(Link(before, stack[..i - 1], stack[i - 1]), stack[..i], count, i == |stack|, q);
      LongerPrefix(q, stack, i);
      assert i == |stack| ==> stack[..i] == stack;
    }
  }

  lemma {:induction false} AddFramesPaths(t: Trie, stack: Path, count: nat, i: nat, q: Path)
    requires Shaped(t) && i <= |stack|
    ensures q in AddFrames(t, stack, count, i).kids <==> q in t.kids || q <= stack[..i]
  {
    hide Shaped, Link, Bump;
    if i == 0 {
      RootIn(t);
      BumpShaped(t, [], count, false);
      assert stack[..0] == [];
    } else {
      var before := AddFrames(t, stack, count, i - 1);
      AddFramesShaped(t, stack, count, i - 1);
      AddFramesPaths(t, stack, count, i - 1, q);
      LinkShaped(before, stack[..i - 1], stack[i - 1]);
      BumpShaped(Link(before, stack[..i - 1], stack[i - 1]), stack[..i], count, i == |stack|);
      assert stack[..i - 1] + [stack[i - 1]] == stack[..i];
      LongerPrefix(q, stack, i);
    }
  }

  /** After any samples, a path's weight is the weight of the samples below it, and its own weight that of
      the samples ending there. */
  lemma {:induction false} FoldWeights(ws: seq<Weighted>, p: Path)
    requires forall w :: w in ws ==> w.stack != []
    ensures ValueAt(Fold(ws), p) == PrefixSum(ws, p) && SelfAt(Fold(ws), p) == LeafSum(ws, p)
  {
    hide Shaped, AddFrames, ValueAt, SelfAt, Sum;
    if ws == [] {
      EmptyWeights(p);
    } else {
      var n := |ws| - 1;
      FoldWeights(ws[..n], p);
      FoldShaped(ws[..n]);
      AddFramesWeights(Fold(ws[..n]), ws[n].stack, ws[n].count, |ws[n].stack|, p);
      assert ws[n].stack[..|ws[n].stack|] == ws[n].stack;
      assert ws == ws[..n] + [ws[n]];
      SumAppend(ws[..n], ws[n], Under(p));
      SumAppend(ws[..n], ws[n], Exactly(p));
    }
  }

  lemma EmptyWeights(p: Path)
    ensures ValueAt(EMPTY_TRIE, p) == 0 && SelfAt(EMPTY_TRIE, p) == 0
    ensures Sum([], Under(p)) == 0 && Sum([], Exactly(p)) == 0
  {
  }

  lemma {:induction false} FoldPaths(ws: seq<Weighted>, p: Path)
    ensures p in Fold(ws).kids <==> p == [] || exists w :: w in ws && p <= w.stack
  {
    hide Shaped, AddFrames;
    if ws != [] {
      var n := |ws| - 1;
      FoldPaths(ws[..n], p);
      FoldShaped(ws[..n]);
      AddFramesPaths(Fold(ws[..n]), ws[n].stack, ws[n].count, |ws[n].stack|, p);
      assert ws[n].stack[..|ws[n].stack|] == ws[n].stack;
      assert ws == ws[..n] + [ws[n]];
    }
  }

  /** Weights do not depend on the order of the samples. */
  lemma FoldOrder(a: seq<Weighted>, b: seq<Weighted>, p: Path)
    requires multiset(a) == multiset(b) && (forall w :: w in a ==> w.stack != []) &&
      (forall w :: w in b ==> w.stack != [])
    ensures ValueAt(Fold(a), p) == ValueAt(Fold(b), p) && SelfAt(Fold(a), p) == SelfAt(Fold(b), p)
    ensures p in Fold(a).kids <==> p in Fold(b).kids
  {
    FoldWeights(a, p);
    FoldWeights(b, p);
    SumPermuted(a, b, Under(p));
    SumPermuted(a, b, Exactly(p));
    FoldPaths(a, p);
    FoldPaths(b, p);
    assert forall w :: w in a <==> w in multiset(a);
    assert forall w :: w in b <==> w in multiset(b);
  }

  // Conservation

  function OneOf(names: seq<string>, x: string, count: int): int {
    Sum(names, (f: string) => if f == x then count else 0)
  }

  lemma {:induction false} OneOfDistinct(names: seq<string>, x: string, count: int)
    requires Distinct(names)
    ensures OneOf(names, x, count) == if x in names then count else 0
  {
    if names != [] {
      assert Sum(names, (f: string) => if f == x then count else 0) ==
        (if names[0] == x then count else 0) + OneOf(names[1..], x, count);
      OneOfDistinct(names[1..], x, count);
      assert forall x :: x in names[1..] ==> x != names[0];
    }
  }

  function ChildSum(ws: seq<Weighted>, p: Path, names: seq<string>): int {
    Sum(names, (f: string) => PrefixSum(ws, p + [f]))
  }

  lemma OneSampleSplits(w: Weighted, p: Path, names: seq<string>)
    requires Distinct(names) && (p < w.stack ==> w.stack[|p|] in names)
    ensures Sum(names, (f: string) => Under(p + [f])(w)) == Under(p)(w) - Exactly(p)(w)
  {
    if p < w.stack {
      var x := w.stack[|p|];
      forall f ensures Under(p + [f])(w) == if f == x then w.count else 0 {
        assert w.stack == p + w.stack[|p|..];
        if p + [f] <= w.stack { assert (p + [f])[|p|] == f; }
        if f == x { assert p + [f] == w.stack[..|p| + 1]; }
      }
      SumSame(names, (f: string) => Under(p + [f])(w), (f: string) => if f == x then w.count else 0);
      OneOfDistinct(names, x, w.count);
    } else {
      forall f ensures Under(p + [f])(w) == 0 {
        assert p + [f] <= w.stack ==> p < w.stack;
      }
      SumSame(names, (f: string) => Under(p + [f])(w), (f: string) => 0);
      SumZero(names);
    }
  }

  lemma {:induction false} SumZero(names: seq<string>)
    ensures Sum(names, (f: string) => 0) == 0
  {
    if names != [] {
      SumZero(names[1..]);
    }
  }

  lemma {:induction false} ChildSumStep(ws: seq<Weighted>, p: Path, names: seq<string>)
    requires ws != []
    ensures ChildSum(ws, p, names) == Sum(names, (f: string) => Under(p + [f])(ws[0])) + ChildSum(ws[1..], p, names)
  {
    if names != [] {
      ChildSumStep(ws, p, names[1..]);
    }
  }

  /** What starts with a path either ends there or goes on to one of its children. */
  lemma {:induction false} PrefixSumSplits(ws: seq<Weighted>, p: Path, names: seq<string>)
    requires Distinct(names) && forall w :: w in ws && p < w.stack ==> w.stack[|p|] in names
    ensures PrefixSum(ws, p) == LeafSum(ws, p) + ChildSum(ws, p, names)
  {
    if ws == [] {
      SumSame(names, (f: string) => PrefixSum(ws, p + [f]), (f: string) => 0);
      SumZero(names);
    } else {
      PrefixSumSplits(ws[1..], p, names);
      OneSampleSplits(ws[0], p, names);
      ChildSumStep(ws, p, names);
    }
  }

  lemma NextFrameIn(ws: seq<Weighted>, p: Path, w: Weighted)
    requires w in ws && p < w.stack && p in Fold(ws).kids
    ensures w.stack[|p|] in Fold(ws).kids[p]
  {
    hide Fold;
    var q := w.stack[..|p| + 1];
    FoldShaped(ws);
    FoldPaths(ws, q);
    assert q[..|q| - 1] == p;
    assert HasParent(Fold(ws).kids, q);
  }

  /** In every trie built from samples, a node's weight is its own plus its children's. */
  lemma FoldConserves(ws: seq<Weighted>, p: Path)
    requires (forall w :: w in ws ==> w.stack != []) && p in Fold(ws).kids
    ensures ValueAt(Fold(ws), p) == SelfAt(Fold(ws), p) +
      Sum(Fold(ws).kids[p], (f: string) => ValueAt(Fold(ws), p + [f]))
  {
    hide Fold, ValueAt, SelfAt, Sum;
    var names := Fold(ws).kids[p];
    assert Distinct(names) by { FoldShaped(ws); }
    forall w | w in ws && p < w.stack ensures w.stack[|p|] in names { NextFrameIn(ws, p, w); }
    FoldWeights(ws, p);
    PrefixSumSplits(ws, p, names);
    forall f ensures PrefixSum(ws, p + [f]) == ValueAt(Fold(ws), p + [f]) { FoldWeights(ws, p + [f]); }
    SumSame(names, (f: string) => PrefixSum(ws, p + [f]), (f: string) => ValueAt(Fold(ws), p + [f]));
  }

  // The trie as a tree

  function Extensions(kids: map<Path, seq<string>>, p: Path): set<Path> {
    set q | q in kids.Keys && p <= q
  }

  lemma ExtensionsShrink(t: Trie, p: Path, f: string)
    requires p in t.kids
    ensures Extensions(t.kids, p + [f]) < Extensions(t.kids, p)
  {
    assert p in Extensions(t.kids, p) && p !in Extensions(t.kids, p + [f]);
  }

  function TreeAt(t: Trie, p: Path): (tree: Tree)
    requires Shaped(t) && p in t.kids
    ensures tree.name == NameAt("root", p) && |tree.order| == |t.kids[p]|
    decreases Extensions(t.kids, p), 1
  {
    Tree(NameAt("root", p), t.cells[p].value, t.cells[p].self, Subtrees(t, p, t.kids[p]))
  }

  function Subtrees(t: Trie, p: Path, names: seq<string>): (trees: seq<Tree>)
    requires Shaped(t) && p in t.kids && forall f :: f in names ==> f in t.kids[p]
    ensures |trees| == |names|
    decreases Extensions(t.kids, p), 0, |names|
  {
    if names == [] then []
    else
      ExtensionsShrink(t, p, names[0]);
      [TreeAt(t, p + [names[0]])] + Subtrees(t, p, names[1..])
  }

  lemma {:induction false} SubtreeFound(t: Trie, p: Path, names: seq<string>, f: string)
    requires Shaped(t) && p in t.kids && forall g :: g in names ==> g in t.kids[p]
    ensures FindNamed(Subtrees(t, p, names), f) == if f in names then Some(TreeAt(t, p + [f])) else None
  {
    if names != [] && names[0] != f {
      SubtreeFound(t, p, names[1..], f);
    }
  }

  lemma {:induction false} PrefixesIn(t: Trie, p: Path, q: Path)
    requires Shaped(t) && q in t.kids && p <= q
    ensures p in t.kids
    decreases |q|
  {
    if p != q {
      assert HasParent(t.kids, q);
      PrefixesIn(t, p, q[..|q| - 1]);
    }
  }

  /** Walking down the tree by names is looking the path up in the trie. */
  lemma {:induction false} TreeAtPath(t: Trie, p: Path, path: Path)
    requires Shaped(t) && p in t.kids
    ensures At(Some(TreeAt(t, p)), path) == if p + path in t.kids then Some(TreeAt(t, p + path)) else None
    decreases |path|
  {
    if path == [] {
      assert p + path == p;
    } else {
      SubtreeFound(t, p, t.kids[p], path[0]);
      assert p + path == (p + [path[0]]) + path[1..];
      if path[0] in t.kids[p] {
        TreeAtPath(t, p + [path[0]], path[1..]);
      } else {
        Nowhere(path[1..]);
        NewChild(t.kids, p, path[0]);
        if p + path in t.kids {
          PrefixesIn(t, p + [path[0]], p + path);
        }
      }
    }
  }

  lemma {:induction false} TreeWellFormed(t: Trie, p: Path)
    requires Shaped(t) && p in t.kids
    ensures WellFormed(TreeAt(t, p))
    decreases Extensions(t.kids, p), 1
  {
    SubtreesWellFormed(t, p, t.kids[p]);
  }

  lemma {:induction false} SubtreesWellFormed(t: Trie, p: Path, names: seq<string>)
    requires Shaped(t) && p in t.kids && Distinct(names) && forall f :: f in names ==> f in t.kids[p]
    ensures forall i :: 0 <= i < |names| ==>
      Subtrees(t, p, names)[i].name == names[i] && WellFormed(Subtrees(t, p, names)[i])
    decreases Extensions(t.kids, p), 0, |names|
  {
    if names != [] {
      ExtensionsShrink(t, p, names[0]);
      TreeWellFormed(t, p + [names[0]]);
      SubtreesWellFormed(t, p, names[1..]);
    }
  }

  function Flame(ws: seq<Weighted>): Tree {
    FoldShaped(ws);
    TreeAt(Fold(ws), [])
  }

  /** The flame graph of a list of samples: a well-formed tree whose node at each path weighs what the
      samples below that path weigh, and which has no other nodes. */
  lemma FlameWeights(ws: seq<Weighted>, path: Path)
    requires forall w :: w in ws ==> w.stack != []
    ensures WellFormed(Flame(ws))
    ensures At(Some(Flame(ws)), path).Some? <==> path == [] || exists w :: w in ws && path <= w.stack
    ensures At(Some(Flame(ws)), path).Some? ==>
      At(Some(Flame(ws)), path).value.value == PrefixSum(ws, path) &&
        At(Some(Flame(ws)), path).value.self == LeafSum(ws, path)
    ensures ValueOf(At(Some(Flame(ws)), path)) == PrefixSum(ws, path)
  {
    hide Shaped, Fold, PrefixSum, LeafSum;
    FoldShaped(ws);
    RootIn(Fold(ws));
    TreeWellFormed(Fold(ws), []);
    TreeAtPath(Fold(ws), [], path);
    assert [] + path == path;
    FoldPaths(ws, path);
    FoldWeights(ws, path);
    CellsIn(Fold(ws), path);
  }

  lemma CellsIn(t: Trie, p: Path)
    requires Shaped(t)
    ensures p in t.cells <==> p in t.kids
  {
  }

  /** The diff flame graph of two lists of samples shows at each path both their weights. */
  lemma FlameDiffWeights(base: seq<Weighted>, compare: seq<Weighted>, path: Path)
    requires (forall w :: w in base ==> w.stack != []) && (forall w :: w in compare ==> w.stack != [])
    ensures var d := DeltaAt(Diff("root", Some(Flame(base)), Some(Flame(compare))), path);
      && (d.Some? <==> path == [] || exists w :: (w in base || w in compare) && path <= w.stack)
      && (d.Some? ==> d.value.base == PrefixSum(base, path) && d.value.compare == PrefixSum(compare, path))
  {
    hide Diff, Flame, PrefixSum, DeltaAt, WellFormed;
    FlameWeights(base, path);
    FlameWeights(compare, path);
    DiffJoins("root", Some(Flame(base)), Some(Flame(compare)), path);
  }
}
