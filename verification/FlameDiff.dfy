/**
 Looking trees up by path, and the diff of two trees: a node for every path of either, with both weights.
 */
module FlameDiff {
  import opened Wrappers
  import opened Sorting
  import opened Forests
  import opened FlameTree

  type Path = seq<string>

  function FindNamed(trees: seq<Tree>, name: string): Option<Tree> {
    if trees == [] then None else if trees[0].name == name then Some(trees[0]) else FindNamed(trees[1..], name)
  }

  function ChildOf(t: Option<Tree>, name: string): Option<Tree> {
    match t case None => None case Some(n) => FindNamed(n.order, name)
  }

  /** The node at a path of names below the given one. */
  function At(t: Option<Tree>, path: Path): Option<Tree>
    decreases |path|
  {
    if path == [] then t else At(ChildOf(t, path[0]), path[1..])
  }

  function ValueOf(t: Option<Tree>): nat {
    match t case None => 0 case Some(n) => n.value
  }

  lemma {:induction false} FoundNamed(trees: seq<Tree>, name: string)
    ensures match FindNamed(trees, name)
      case None => forall t :: t in trees ==> t.name != name
      case Some(t) => t in trees && t.name == name
  {
    if trees != [] {
      FoundNamed(trees[1..], name);
    }
  }

  ghost predicate DistinctNames(trees: seq<Tree>) {
    forall x, y :: x in trees && y in trees && x.name == y.name ==> x == y
  }

  lemma DistinctChildren(t: Tree)
    requires WellFormed(t)
    ensures DistinctNames(t.order)
    ensures forall x :: x in t.order ==> WellFormed(x)
  {
  }

  // The node list names the same paths

  function FindEntry(nodes: seq<Rose<Entry>>, name: string): Option<Rose<Entry>> {
    if nodes == [] then None else if nodes[0].head.name == name then Some(nodes[0]) else FindEntry(nodes[1..], name)
  }

  function EntryAt(nodes: seq<Rose<Entry>>, path: Path): Option<Entry>
    requires path != []
    decreases |path|
  {
    match FindEntry(nodes, path[0])
    case None => None
    case Some(r) => if |path| == 1 then Some(r.head) else EntryAt(r.children, path[1..])
  }

  predicate Shows(e: Entry, t: Tree) {
    e.name == t.name && e.value == t.value && e.self == t.self
  }

  lemma {:induction false} RenderedChild(t: Tree, kids: seq<Tree>, prefix: string, first: nat, name: string)
    requires forall k :: k in kids ==> k in t.order
    ensures var r := FindEntry(RenderFrom(t, kids, prefix, first), name);
      match FindNamed(kids, name)
      case None => r.None?
      case Some(k) => r.Some? && r.value.children == Render(k, r.value.head.id) && Shows(r.value.head, k)
  {
    if kids != [] && kids[0].name != name {
      RenderedChild(t, kids[1..], prefix, first + 1, name);
    }
  }

  /** Sorting the children does not change which child a name finds. */
  lemma SameFound(a: seq<Tree>, b: seq<Tree>, name: string)
    requires (forall x :: x in a <==> x in b) && DistinctNames(b)
    ensures FindNamed(a, name) == FindNamed(b, name)
  {
    FoundNamed(a, name);
    FoundNamed(b, name);
  }

  /** The flame graph shows every path of the trie, and no other, with the trie's own weights. */
  lemma {:induction false} RenderShowsTree(t: Tree, prefix: string, path: Path)
    requires WellFormed(t) && path != []
    ensures match At(Some(t), path)
      case None => EntryAt(Render(t, prefix), path).None?
      case Some(n) => EntryAt(Render(t, prefix), path).Some? && Shows(EntryAt(Render(t, prefix), path).value, n)
    decreases |path|
  {
    hide SortedChildren;
    var kids := SortedChildren(t);
    DistinctChildren(t);
    SameFound(kids, t.order, path[0]);
    RenderedChild(t, kids, prefix, 0, path[0]);
    FoundNamed(t.order, path[0]);
    var r := FindEntry(Render(t, prefix), path[0]);
    match FindNamed(t.order, path[0]) {
      case None => Nowhere(path[1..]);
      case Some(k) =>
        assert At(Some(t), path) == At(Some(k), path[1..]);
        if |path| > 1 {
          RenderShowsTree(k, r.value.head.id, path[1..]);
        } else {
          assert path[1..] == [];
        }
    }
  }

  lemma {:induction false} Nowhere(path: Path)
    ensures At(None, path) == None
  {
    if path != [] {
      Nowhere(path[1..]);
    }
  }

  // The diff tree

  datatype Delta = Delta(name: string, base: nat, compare: nat, delta: int, percent: real)

  function DeltaFor(name: string, base: nat, compare: nat): Delta {
    Delta(name, base, compare, compare - base,
          if base > 0 then (compare - base) as real / base as real * 100.0 else if compare > 0 then 100.0 else 0.0)
  }

  function Heavier(d: Delta): nat {
    if d.base > d.compare then d.base else d.compare
  }

  predicate DeltaLe(a: Rose<Delta>, b: Rose<Delta>) {
    RankLe(Heavier(a.head), a.head.name, Heavier(b.head), b.head.name)
  }

  lemma DeltaOrder()
    ensures TotalOrder(DeltaLe)
  {
    forall a: Rose<Delta>, b: Rose<Delta> ensures DeltaLe(a, b) || DeltaLe(b, a) {
      RanksCompare(Heavier(a.head), a.head.name, Heavier(b.head), b.head.name);
    }
    forall a: Rose<Delta>, b: Rose<Delta>, c: Rose<Delta> | DeltaLe(a, b) && DeltaLe(b, c) ensures DeltaLe(a, c) {
      RanksChain(Heavier(a.head), a.head.name, Heavier(b.head), b.head.name, Heavier(c.head), c.head.name);
    }
  }

  function OrderOf(t: Option<Tree>): seq<Tree> {
    match t case None => [] case Some(n) => n.order
  }

  /** Names not seen before, in the order they come. */
  function AddNames(names: seq<string>, trees: seq<Tree>): seq<string>
    decreases |trees|
  {
    if trees == [] then names
    else AddNames(if trees[0].name in names then names else names + [trees[0].name], trees[1..])
  }

  function NamesOf(base: Option<Tree>, compare: Option<Tree>): seq<string> {
    AddNames(AddNames([], OrderOf(base)), OrderOf(compare))
  }

  function Size(t: Tree): nat
    decreases t, 1
  {
    1 + SizeAll(t.order)
  }

  function SizeAll(trees: seq<Tree>): nat
    decreases trees, 0
  {
    if trees == [] then 0 else Size(trees[0]) + SizeAll(trees[1..])
  }

  function Weight(t: Option<Tree>): nat {
    match t case None => 0 case Some(n) => Size(n)
  }

  lemma {:induction false} FoundSmaller(trees: seq<Tree>, name: string)
    ensures Weight(FindNamed(trees, name)) <= SizeAll(trees)
  {
    if trees != [] {
      FoundSmaller(trees[1..], name);
    }
  }

  lemma ChildSmaller(t: Option<Tree>, name: string)
    ensures Weight(ChildOf(t, name)) <= Weight(t)
    ensures t.Some? ==> Weight(ChildOf(t, name)) < Weight(t)
  {
    FoundSmaller(OrderOf(t), name);
  }

  /** Children pair up by name; a child missing on one side counts as zero there. */
  function Diff(name: string, base: Option<Tree>, compare: Option<Tree>): Rose<Delta>
    decreases Weight(base) + Weight(compare), 1, 0
  {
    Rose(DeltaFor(name, ValueOf(base), ValueOf(compare)),
         if base.None? && compare.None? then [] else Sort(DiffAll(NamesOf(base, compare), base, compare), DeltaLe))
  }

  function DiffAll(names: seq<string>, base: Option<Tree>, compare: Option<Tree>): seq<Rose<Delta>>
    requires base.Some? || compare.Some?
    decreases Weight(base) + Weight(compare), 0, |names|
  {
    if names == [] then []
    else
      ChildSmaller(base, names[0]);
      ChildSmaller(compare, names[0]);
      [Diff(names[0], ChildOf(base, names[0]), ChildOf(compare, names[0]))] + DiffAll(names[1..], base, compare)
  }

  function FindDelta(nodes: seq<Rose<Delta>>, name: string): Option<Rose<Delta>> {
    if nodes == [] then None else if nodes[0].head.name == name then Some(nodes[0]) else FindDelta(nodes[1..], name)
  }

  function DeltaAt(d: Rose<Delta>, path: Path): Option<Delta>
    decreases |path|
  {
    if path == [] then Some(d.head)
    else match FindDelta(d.children, path[0])
      case None => None
      case Some(r) => DeltaAt(r, path[1..])
  }

  lemma {:induction false} DiffFound(names: seq<string>, base: Option<Tree>, compare: Option<Tree>, name: string)
    requires base.Some? || compare.Some?
    ensures FindDelta(DiffAll(names, base, compare), name) ==
      if name in names then Some(Diff(name, ChildOf(base, name), ChildOf(compare, name))) else None
  {
    if names != [] && names[0] != name {
      DiffFound(names[1..], base, compare, name);
    }
  }

  lemma {:induction false} NamesAdded(names: seq<string>, trees: seq<Tree>, name: string)
    ensures name in AddNames(names, trees) <==> name in names || FindNamed(trees, name).Some?
    decreases |trees|
  {
    if trees != [] {
      NamesAdded(if trees[0].name in names then names else names + [trees[0].name], trees[1..], name);
    }
  }

  lemma NamesCover(base: Option<Tree>, compare: Option<Tree>, name: string)
    ensures name in NamesOf(base, compare) <==> ChildOf(base, name).Some? || ChildOf(compare, name).Some?
  {
    NamesAdded([], OrderOf(base), name);
    NamesAdded(AddNames([], OrderOf(base)), OrderOf(compare), name);
  }

  ghost predicate DistinctDeltas(nodes: seq<Rose<Delta>>) {
    forall x, y :: x in nodes && y in nodes && x.head.name == y.head.name ==> x == y
  }

  lemma {:induction false} DeltaFound(nodes: seq<Rose<Delta>>, name: string)
    ensures match FindDelta(nodes, name)
      case None => forall d :: d in nodes ==> d.head.name != name
      case Some(d) => d in nodes && d.head.name == name
  {
    if nodes != [] {
      DeltaFound(nodes[1..], name);
    }
  }

  lemma SortFindsSame(nodes: seq<Rose<Delta>>, name: string)
    requires DistinctDeltas(nodes)
    ensures FindDelta(Sort(nodes, DeltaLe), name) == FindDelta(nodes, name)
  {
    DeltaOrder();
    SortSorts(nodes, DeltaLe);
    SameMembers(Sort(nodes, DeltaLe), nodes);
    var sorted := Sort(nodes, DeltaLe);
    DeltaFound(sorted, name);
    DeltaFound(nodes, name);
    var a, b := FindDelta(sorted, name), FindDelta(nodes, name);
    assert a.Some? ==> a.value in nodes;
    assert b.Some? ==> b.value in sorted;
  }

  /** Every pair made is the pair of its own name. */
  lemma {:induction false} DiffAllPairs(names: seq<string>, base: Option<Tree>, compare: Option<Tree>)
    requires base.Some? || compare.Some?
    ensures forall d :: d in DiffAll(names, base, compare) ==>
      d == Diff(d.head.name, ChildOf(base, d.head.name), ChildOf(compare, d.head.name))
  {
    if names != [] {
      DiffAllPairs(names[1..], base, compare);
    }
  }

  lemma DiffChild(name: string, base: Option<Tree>, compare: Option<Tree>, child: string)
    ensures var b, c := ChildOf(base, child), ChildOf(compare, child);
      FindDelta(Diff(name, base, compare).children, child) == if b.Some? || c.Some? then Some(Diff(child, b, c))
        else None
  {
    if base.Some? || compare.Some? {
      var names := NamesOf(base, compare);
      DiffAllPairs(names, base, compare);
      SortFindsSame(DiffAll(names, base, compare), child);
      DiffFound(names, base, compare, child);
      NamesCover(base, compare, child);
    }
  }

  function NameAt(name: string, path: Path): string {
    if path == [] then name else path[|path| - 1]
  }

  /** The diff is the join of the two trees: a path is in it exactly when it is in one of them, and there
      it has both trees' weights, zero for the one that lacks it. */
  lemma {:induction false} DiffJoins(name: string, base: Option<Tree>, compare: Option<Tree>, path: Path)
    requires base.Some? || compare.Some?
    ensures var b, c := At(base, path), At(compare, path);
      DeltaAt(Diff(name, base, compare), path) ==
      if b.Some? || c.Some? then Some(DeltaFor(NameAt(name, path), ValueOf(b), ValueOf(c))) else None
    decreases |path|
  {
    hide DeltaFor, Diff;
    if path == [] {
      DiffHead(name, base, compare);
    } else {
      var b, c := ChildOf(base, path[0]), ChildOf(compare, path[0]);
      DiffChild(name, base, compare, path[0]);
      if b.Some? || c.Some? {
        DiffJoins(path[0], b, c, path[1..]);
      } else {
        Nowhere(path[1..]);
      }
    }
  }

  lemma DiffHead(name: string, base: Option<Tree>, compare: Option<Tree>)
    ensures Diff(name, base, compare).head == DeltaFor(name, ValueOf(base), ValueOf(compare))
  {
  }

  function Larger(a: nat, b: nat): nat {
    if a >= b then a else b
  }

  ghost predicate DeltaBefore(a: Delta, b: Delta) {
    var w, v := Larger(a.base, a.compare), Larger(b.base, b.compare);
    w > v || (w == v && Ascend(a.name, b.name))
  }

  lemma {:induction false} AddNamesDistinct(names: seq<string>, trees: seq<Tree>)
    requires Distinct(names)
    ensures Distinct(AddNames(names, trees))
    decreases |trees|
  {
    if trees != [] {
      AddNamesDistinct(if trees[0].name in names then names else names + [trees[0].name], trees[1..]);
    }
  }

  lemma {:induction false} DiffAllNames(names: seq<string>, base: Option<Tree>, compare: Option<Tree>)
    requires base.Some? || compare.Some?
    ensures |DiffAll(names, base, compare)| == |names|
    ensures forall i :: 0 <= i < |names| ==> DiffAll(names, base, compare)[i].head.name == names[i]
  {
    if names != [] {
      DiffAllNames(names[1..], base, compare);
    }
  }

  /** No two siblings have the same name. */
  lemma SiblingsDistinct(base: Option<Tree>, compare: Option<Tree>, sorted: seq<Rose<Delta>>)
    requires base.Some? || compare.Some?
    requires multiset(sorted) == multiset(DiffAll(NamesOf(base, compare), base, compare))
    ensures forall i, j :: 0 <= i < j < |sorted| ==> sorted[i].head.name != sorted[j].head.name
  {
    hide DiffAll;
    var names := NamesOf(base, compare);
    var nodes := DiffAll(names, base, compare);
    AddNamesDistinct([], OrderOf(base));
    AddNamesDistinct(AddNames([], OrderOf(base)), OrderOf(compare));
    DiffAllNames(names, base, compare);
    DiffAllPairs(names, base, compare);
    assert Distinct(nodes);
    DistinctPermuted(nodes, sorted);
    SameMembers(sorted, nodes);
    forall i, j | 0 <= i < j < |sorted| ensures sorted[i].head.name != sorted[j].head.name {
      assert sorted[i] in nodes && sorted[j] in nodes && sorted[i] != sorted[j];
    }
  }

  lemma SiblingsSorted(base: Option<Tree>, compare: Option<Tree>)
    requires base.Some? || compare.Some?
    ensures var sorted := Sort(DiffAll(NamesOf(base, compare), base, compare), DeltaLe);
      forall i, j :: 0 <= i < j < |sorted| ==> DeltaBefore(sorted[i].head, sorted[j].head)
  {
    hide DiffAll, NamesOf, Sort;
    var nodes := DiffAll(NamesOf(base, compare), base, compare);
    var sorted := Sort(nodes, DeltaLe);
    DeltaOrder();
    SortSorts(nodes, DeltaLe);
    SiblingsDistinct(base, compare, sorted);
    forall i, j | 0 <= i < j < |sorted| ensures DeltaBefore(sorted[i].head, sorted[j].head) {
      var a, b := sorted[i].head, sorted[j].head;
      assert DeltaLe(sorted[i], sorted[j]);
      RankMeans(Heavier(a), a.name, Heavier(b), b.name);
    }
  }

  lemma SiblingIsDiff(base: Option<Tree>, compare: Option<Tree>, node: Rose<Delta>)
    requires base.Some? || compare.Some?
    requires node in Sort(DiffAll(NamesOf(base, compare), base, compare), DeltaLe)
    ensures node == Diff(node.head.name, ChildOf(base, node.head.name), ChildOf(compare, node.head.name))
  {
    hide DiffAll, NamesOf, Sort, Diff;
    var nodes := DiffAll(NamesOf(base, compare), base, compare);
    DeltaOrder();
    SortSorts(nodes, DeltaLe);
    SameMembers(Sort(nodes, DeltaLe), nodes);
    DiffAllPairs(NamesOf(base, compare), base, compare);
  }

  /** At every level siblings are ordered by the larger of their two weights, then by ascending name. */
  lemma {:induction false} DiffSorted(name: string, base: Option<Tree>, compare: Option<Tree>)
    ensures InLevels(Diff(name, base, compare).children, (a, b) => DeltaBefore(a, b))
    decreases Weight(base) + Weight(compare)
  {
    hide DiffAll, NamesOf, Sort, DeltaBefore, ChildOf, DeltaFor;
    if base.Some? || compare.Some? {
      var sorted := Sort(DiffAll(NamesOf(base, compare), base, compare), DeltaLe);
      SiblingsSorted(base, compare);
      forall i | 0 <= i < |sorted| ensures InLevels(sorted[i].children, (a, b) => DeltaBefore(a, b)) {
        var child := sorted[i].head.name;
        SiblingIsDiff(base, compare, sorted[i]);
        ChildSmaller(base, child);
        ChildSmaller(compare, child);
        DiffSorted(child, ChildOf(base, child), ChildOf(compare, child));
      }
      assert Diff(name, base, compare).children == sorted;
    }
  }

  /** What is shown at a path of either tree: both weights, their difference, and that difference in per cent of
      the base weight; what is new counts as a hundred per cent. */
  lemma DiffShowsChange(name: string, base: Option<Tree>, compare: Option<Tree>, path: Path)
    requires At(base, path).Some? || At(compare, path).Some?
    ensures var d := DeltaAt(Diff(name, base, compare), path);
      && d.Some? && d.value.name == (if path == [] then name else path[|path| - 1])
      && d.value.base == ValueOf(At(base, path)) && d.value.compare == ValueOf(At(compare, path))
      && d.value.base + d.value.delta == d.value.compare
      && (d.value.base > 0 ==> d.value.percent * d.value.base as real == 100.0 * d.value.delta as real)
      && (d.value.base == 0 ==> d.value.percent == if d.value.compare > 0 then 100.0 else 0.0)
  {
    hide Diff, At, DeltaAt, DeltaFor, ValueOf;
    if base.None? && compare.None? {
      Nowhere(path);
    }
    DiffJoins(name, base, compare, path);
    DeltaMeans(NameAt(name, path), ValueOf(At(base, path)), ValueOf(At(compare, path)));
  }

  lemma DeltaMeans(name: string, base: nat, compare: nat)
    ensures var d := DeltaFor(name, base, compare);
      && d.name == name && d.base == base && d.compare == compare && base + d.delta == compare
      && (base > 0 ==> d.percent * base as real == 100.0 * d.delta as real)
      && (base == 0 ==> d.percent == if compare > 0 then 100.0 else 0.0)
  {
    if base > 0 {
      var x, b := (compare - base) as real, base as real;
      assert x / b * b == x;
      assert x / b * 100.0 * b == x / b * b * 100.0;
    }
  }

  /** Comparing a tree with itself shows no change anywhere. */
  lemma DiffOfSame(name: string, t: Tree, path: Path)
    ensures var d := DeltaAt(Diff(name, Some(t), Some(t)), path); d.Some? ==>
      d.value.delta == 0 && d.value.percent == 0.0
  {
    DiffJoins(name, Some(t), Some(t), path);
  }

  /** Swapping the two trees turns every change around. */
  lemma DiffSwapped(name: string, base: Option<Tree>, compare: Option<Tree>, path: Path)
    requires base.Some? || compare.Some?
    ensures var d, e := DeltaAt(Diff(name, base, compare), path), DeltaAt(Diff(name, compare, base), path);
      d.Some? == e.Some? && (d.Some? ==> d.value.delta == -e.value.delta && d.value.base == e.value.compare)
  {
    hide Diff;
    DiffJoins(name, base, compare, path);
    DiffJoins(name, compare, base, path);
  }

  /** The diff flame graph of a query, cut to the limit like a flame graph. */
  method TruncateDiff(root: Rose<Delta>, maxNodes: int) returns (out: Rose<Delta>, truncated: bool)
    ensures out.head == root.head
    ensures var limit := if maxNodes > 0 then maxNodes else 5000;
      (truncated <==> Count(root.children) > limit) &&
      Count(out.children) == if truncated then limit else Count(root.children)
    ensures Preorder(out.children) <= Preorder(root.children)
    ensures Pruned(out.children, root.children)
    ensures !truncated ==> out == root
    ensures InLevels(root.children, (a, b) => DeltaBefore(a, b)) ==>
      InLevels(out.children, (a, b) => DeltaBefore(a, b))
  {
    var limit := Limit(maxNodes);
    truncated := Count(root.children) > limit;
    CountIsPreorder(root.children);
    CutIsPrefix(root.children, limit);
    CutPrunes(root.children, limit);
    out := root;
    if truncated {
      var kept, left := Truncate(root.children, limit);
      out := root.(children := kept);
    } else {
      CutAll(root.children, limit);
    }
    assert InLevels(root.children, (a, b) => DeltaBefore(a, b)) ==>
      InLevels(out.children, (a, b) => DeltaBefore(a, b)) by {
      if InLevels(root.children, (a, b) => DeltaBefore(a, b)) {
        PrunedInLevels(out.children, root.children, (a, b) => DeltaBefore(a, b));
      }
    }
    CountIsPreorder(out.children);
  }
}
