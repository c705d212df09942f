/**
 Flame graphs as values: the sorted node list sent to the browser, its truncation, and the join of two
 trees into a diff flame graph.
 */
module FlameTree {
  import opened Wrappers
  import opened Sorting
  import opened Forests
  import opened Sums

  /** A trie node; its children are kept in the order they were first added. */
  datatype Tree = Tree(name: string, value: nat, self: nat, order: seq<Tree>)

  datatype Entry = Entry(id: string, name: string, value: nat, self: nat)

  const DEFAULT_MAX_NODES: nat := 5000

  /** Children have distinct names at every node. */
  predicate WellFormed(t: Tree) {
    && (forall i, j :: 0 <= i < j < |t.order| ==> t.order[i].name != t.order[j].name)
    && forall i :: 0 <= i < |t.order| ==> WellFormed(t.order[i])
  }

  // Names are compared character by character

  predicate NameLess(a: string, b: string) {
    if b == "" then false
    else if a == "" then true
    else a[0] < b[0] || (a[0] == b[0] && NameLess(a[1..], b[1..]))
  }

  lemma {:induction false} NamesCompare(a: string, b: string)
    ensures (NameLess(a, b) && a != b && !NameLess(b, a)) || (NameLess(b, a) && a != b && !NameLess(a, b)) ||
      (a == b && !NameLess(a, b) && !NameLess(b, a))
  {
    if a != "" && b != "" {
      assert a == [a[0]] + a[1..] && b == [b[0]] + b[1..];
      NamesCompare(a[1..], b[1..]);
    }
  }

  lemma {:induction false} NamesChain(a: string, b: string, c: string)
    requires NameLess(a, b) && NameLess(b, c)
    ensures NameLess(a, c)
  {
    if a != "" && a[0] == b[0] && b[0] == c[0] {
      NamesChain(a[1..], b[1..], c[1..]);
    }
  }

  /** The names agree up to some place; there the first one ends, or has the smaller character. */
  ghost predicate Ascend(a: string, b: string) {
    exists k: nat :: AscendAt(a, b, k)
  }

  ghost predicate AscendAt(a: string, b: string, k: nat) {
    && k <= |a| && k < |b| && (forall i :: 0 <= i < k ==> a[i] == b[i])
    && (k == |a| || a[k] < b[k])
  }

  lemma {:induction false} NameLessAscends(a: string, b: string)
    ensures NameLess(a, b) <==> Ascend(a, b)
  {
    if b == "" {
    } else if a == "" {
      assert AscendAt(a, b, 0);
    } else {
      NameLessAscends(a[1..], b[1..]);
      if Ascend(a[1..], b[1..]) && a[0] == b[0] {
        var k: nat :| AscendAt(a[1..], b[1..], k);
        assert AscendAt(a, b, k + 1);
      }
      if a[0] < b[0] {
        assert AscendAt(a, b, 0);
      }
      if k: nat :| AscendAt(a, b, k) && k > 0 {
        assert AscendAt(a[1..], b[1..], k - 1);
      }
    }
  }

  /** Heavier first; equal weights by name. */
  predicate RankLe(w: nat, a: string, v: nat, b: string) {
    w > v || (w == v && !NameLess(b, a))
  }

  lemma RanksCompare(w: nat, a: string, v: nat, b: string)
    ensures RankLe(w, a, v, b) || RankLe(v, b, w, a)
    ensures RankLe(w, a, v, b) && RankLe(v, b, w, a) ==> w == v && a == b
  {
    NamesCompare(a, b);
  }

  lemma RanksChain(w: nat, a: string, v: nat, b: string, u: nat, c: string)
    requires RankLe(w, a, v, b) && RankLe(v, b, u, c)
    ensures RankLe(w, a, u, c)
  {
    NamesCompare(a, b);
    NamesCompare(b, c);
    NamesCompare(a, c);
    if NameLess(c, a) && !NameLess(b, a) && !NameLess(c, b) && a != b && b != c {
      NamesChain(a, b, c);
    }
  }

  lemma RankMeans(w: nat, a: string, v: nat, b: string)
    requires a != b
    ensures RankLe(w, a, v, b) <==> w > v || (w == v && Ascend(a, b))
  {
    NamesCompare(a, b);
    NameLessAscends(a, b);
  }

  predicate TreeLe(a: Tree, b: Tree) {
    RankLe(a.value, a.name, b.value, b.name)
  }

  lemma TreeOrder()
    ensures TotalOrder(TreeLe)
  {
    forall a: Tree, b: Tree ensures TreeLe(a, b) || TreeLe(b, a) {
      RanksCompare(a.value, a.name, b.value, b.name);
    }
    forall a: Tree, b: Tree, c: Tree | TreeLe(a, b) && TreeLe(b, c) ensures TreeLe(a, c) {
      RanksChain(a.value, a.name, b.value, b.name, c.value, c.name);
    }
  }

  // The node list of a tree

  function Digits(n: nat): string {
    if n < 10 then ["0123456789"[n]] else Digits(n / 10) + ["0123456789"[n % 10]]
  }

  function ChildId(prefix: string, i: nat): string {
    if prefix != "" then prefix + "." + Digits(i) else Digits(i)
  }

  function SortedChildren(t: Tree): (kids: seq<Tree>)
    ensures |kids| == |t.order| && forall k :: k in kids <==> k in t.order
  {
    TreeOrder();
    SortSorts(t.order, TreeLe);
    SameMembers(Sort(t.order, TreeLe), t.order);
    Sort(t.order, TreeLe)
  }

  function Render(t: Tree, prefix: string): seq<Rose<Entry>>
    decreases t, 1
  {
    RenderFrom(t, SortedChildren(t), prefix, 0)
  }

  function RenderFrom(ghost t: Tree, kids: seq<Tree>, prefix: string, first: nat): (nodes: seq<Rose<Entry>>)
    requires forall k :: k in kids ==> k in t.order
    ensures |nodes| == |kids|
    decreases t, 0, |kids|
  {
    if kids == [] then []
    else
      var k, id := kids[0], ChildId(prefix, first);
      assert k in t.order;
      [Rose(Entry(id, k.name, k.value, k.self), Render(k, id))] + RenderFrom(t, kids[1..], prefix, first + 1)
  }

  ghost predicate HeaviestFirst(kids: seq<Tree>) {
    forall i, j :: 0 <= i < j < |kids| ==>
      kids[i].value > kids[j].value || (kids[i].value == kids[j].value && Ascend(kids[i].name, kids[j].name))
  }

  lemma OrderDistinct(order: seq<Tree>, kids: seq<Tree>)
    requires forall i, j :: 0 <= i < j < |order| ==> order[i].name != order[j].name
    requires multiset(kids) == multiset(order)
    ensures forall i, j :: 0 <= i < j < |kids| ==> kids[i].name != kids[j].name
  {
    assert Distinct(order);
    DistinctPermuted(order, kids);
    SameMembers(kids, order);
    forall i, j | 0 <= i < j < |kids| ensures kids[i].name != kids[j].name {
      assert kids[i] in order && kids[j] in order && kids[i] != kids[j];
    }
  }

  /** The children are shown with the heaviest first, those of equal weight by ascending name, and there is no
      other way to arrange them so. */
  lemma SortedChildrenUnique(t: Tree, kids: seq<Tree>)
    requires WellFormed(t) && multiset(kids) == multiset(t.order)
    ensures kids == SortedChildren(t) <==> HeaviestFirst(kids)
  {
    TreeOrder();
    SortSorts(t.order, TreeLe);
    OrderDistinct(t.order, kids);
    assert SortedBy(kids, TreeLe) <==> HeaviestFirst(kids) by {
      forall i, j | 0 <= i < j < |kids|
        ensures TreeLe(kids[i], kids[j]) <==>
          kids[i].value > kids[j].value || (kids[i].value == kids[j].value && Ascend(kids[i].name, kids[j].name))
      {
        RankMeans(kids[i].value, kids[i].name, kids[j].value, kids[j].name);
      }
    }
    if SortedBy(kids, TreeLe) {
      SortedArrangement(t, kids);
    }
  }

  lemma SortedArrangement(t: Tree, kids: seq<Tree>)
    requires WellFormed(t) && IsSortOf(kids, t.order, TreeLe)
    ensures kids == SortedChildren(t)
  {
    TreeOrder();
    SortSorts(t.order, TreeLe);
    SameMembers(kids, t.order);
    forall x, y | x in kids && y in kids && TreeLe(x, y) && TreeLe(y, x)
      ensures x == y
    {
      RanksCompare(x.value, x.name, y.value, y.name);
    }
    SortedUnique(kids, Sort(t.order, TreeLe), TreeLe);
  }

  ghost predicate EntryBefore(a: Entry, b: Entry) {
    a.value > b.value || (a.value == b.value && Ascend(a.name, b.name))
  }

  /** In the whole list, at every level, siblings come with the heaviest first and then by ascending name. */
  lemma {:induction false} RenderHeaviestFirst(t: Tree, prefix: string)
    requires WellFormed(t)
    ensures InLevels(Render(t, prefix), (a, b) => EntryBefore(a, b))
    decreases t, 1
  {
    TreeOrder();
    SortSorts(t.order, TreeLe);
    var kids := SortedChildren(t);
    SortedChildrenUnique(t, kids);
    RenderFromHeaviestFirst(t, kids, prefix, 0);
  }

  lemma {:induction false} RenderFromHeaviestFirst(t: Tree, kids: seq<Tree>, prefix: string, first: nat)
    requires (forall k :: k in kids ==> k in t.order && WellFormed(k)) && HeaviestFirst(kids)
    ensures InLevels(RenderFrom(t, kids, prefix, first), (a, b) => EntryBefore(a, b))
    ensures forall i :: 0 <= i < |kids| ==>
      var e := RenderFrom(t, kids, prefix, first)[i].head; e.value == kids[i].value && e.name == kids[i].name
    decreases t, 0, |kids|
  {
    if kids != [] {
      assert kids[0] in kids && kids[0] in t.order;
      RenderHeaviestFirst(kids[0], ChildId(prefix, first));
      RenderFromHeaviestFirst(t, kids[1..], prefix, first + 1);
    }
  }

  // Ids of nodes

  lemma {:induction false} DigitsDiffer(m: nat, n: nat)
    requires Digits(m) == Digits(n)
    ensures m == n
  {
    var digits := "0123456789";
    assert forall i, j :: 0 <= i < 10 && 0 <= j < 10 && digits[i] == digits[j] ==> i == j;
    DigitsEnd(m);
    DigitsEnd(n);
    if m >= 10 && n >= 10 {
      DigitsDiffer(m / 10, n / 10);
    }
  }

  /** The last character tells the last digit, the others the rest of the number. */
  lemma DigitsEnd(n: nat)
    ensures Digits(n) != "" && Digits(n)[|Digits(n)| - 1] == "0123456789"[n % 10]
    ensures n >= 10 ==> |Digits(n)| > 1 && Digits(n)[..|Digits(n)| - 1] == Digits(n / 10)
    ensures n < 10 ==> |Digits(n)| == 1
  {
    if n >= 10 {
      DigitsEnd(n / 10);
    }
  }

  lemma {:induction false} NoDotInDigits(n: nat)
    ensures '.' !in Digits(n)
  {
    if n >= 10 {
      NoDotInDigits(n / 10);
    }
  }

  /** The positions on the way to a node, written with dots. */
  function Dotted(position: seq<nat>): string
    requires position != []
  {
    if |position| == 1 then Digits(position[0]) else Digits(position[0]) + "." + Dotted(position[1..])
  }

  lemma FirstDot(x: string, u: string, y: string, v: string)
    requires '.' !in x && '.' !in y && x + "." + u == y + "." + v
    ensures x == y && u == v
  {
    var s := x + "." + u;
    assert s[|x|] == '.' && s[|y|] == '.';
    assert s[..|x|] == x && s[..|y|] == y && s[|x| + 1..] == u && s[|y| + 1..] == v;
  }

  lemma DotBetween(position: seq<nat>)
    requires position != []
    ensures |position| > 1 ==> '.' in Dotted(position)
  {
    if |position| > 1 {
      assert Dotted(position)[|Digits(position[0])|] == '.';
    }
  }

  lemma {:induction false} DottedDiffer(a: seq<nat>, b: seq<nat>)
    requires a != [] && b != [] && Dotted(a) == Dotted(b)
    ensures a == b
    decreases |a|
  {
    NoDotInDigits(a[0]);
    NoDotInDigits(b[0]);
    DotBetween(a);
    DotBetween(b);
    if |a| == 1 && |b| == 1 {
      DigitsDiffer(a[0], b[0]);
    } else if |a| > 1 && |b| > 1 {
      FirstDot(Digits(a[0]), Dotted(a[1..]), Digits(b[0]), Dotted(b[1..]));
      DigitsDiffer(a[0], b[0]);
      DottedDiffer(a[1..], b[1..]);
      assert a == [a[0]] + a[1..] && b == [b[0]] + b[1..];
    }
  }

  /** The node at a position: an index for every level. */
  function NodeAt(nodes: seq<Rose<Entry>>, position: seq<nat>): Option<Entry>
    decreases |position|
  {
    if position == [] || position[0] >= |nodes| then None
    else if |position| == 1 then Some(nodes[position[0]].head)
    else NodeAt(nodes[position[0]].children, position[1..])
  }

  function IdAt(prefix: string, position: seq<nat>): string
    requires position != []
  {
    if prefix != "" then prefix + "." + Dotted(position) else Dotted(position)
  }

  lemma {:induction false} RenderedAt(t: Tree, kids: seq<Tree>, prefix: string, first: nat, i: nat)
    requires (forall k :: k in kids ==> k in t.order) && i < |kids|
    ensures var k, id := kids[i], ChildId(prefix, first + i);
      RenderFrom(t, kids, prefix, first)[i] == Rose(Entry(id, k.name, k.value, k.self), Render(k, id))
    decreases |kids|
  {
    assert kids[0] in kids && kids[i] in kids;
    if i > 0 {
      RenderedAt(t, kids[1..], prefix, first + 1, i - 1);
    }
  }

  /** The id of every node is its position, so no two nodes have the same. */
  lemma {:induction false} IdsArePositions(t: Tree, prefix: string, position: seq<nat>)
    ensures var e := NodeAt(Render(t, prefix), position); e.Some? ==> e.value.id == IdAt(prefix, position)
    decreases |position|
  {
    var kids := SortedChildren(t);
    if position != [] && position[0] < |kids| {
      var k, id := kids[position[0]], ChildId(prefix, position[0]);
      RenderedAt(t, kids, prefix, 0, position[0]);
      DigitsEnd(position[0]);
      if |position| > 1 {
        IdsArePositions(k, id, position[1..]);
        assert prefix + "." + Digits(position[0]) + "." + Dotted(position[1..]) ==
          prefix + "." + (Digits(position[0]) + "." + Dotted(position[1..]));
      }
    }
  }

  lemma IdsDiffer(t: Tree, prefix: string, a: seq<nat>, b: seq<nat>)
    requires NodeAt(Render(t, prefix), a).Some? && NodeAt(Render(t, prefix), b).Some? && a != b
    ensures NodeAt(Render(t, prefix), a).value.id != NodeAt(Render(t, prefix), b).value.id
  {
    IdsArePositions(t, prefix, a);
    IdsArePositions(t, prefix, b);
    if IdAt(prefix, a) == IdAt(prefix, b) {
      if prefix != "" {
        var n := |prefix| + 1;
        assert IdAt(prefix, a)[n..] == Dotted(a) && IdAt(prefix, b)[n..] == Dotted(b);
      }
      DottedDiffer(a, b);
    }
  }

  // Number of nodes below the root

  function CountTree(t: Tree): nat
    decreases t, 1
  {
    |t.order| + CountTrees(t.order)
  }

  function CountTrees(trees: seq<Tree>): nat
    decreases trees, 0
  {
    if trees == [] then 0 else CountTree(trees[0]) + CountTrees(trees[1..])
  }

  function Below(t: Tree): int {
    CountTree(t)
  }

  lemma {:induction false} CountTreesSum(trees: seq<Tree>)
    ensures CountTrees(trees) == Sum(trees, Below)
  {
    if trees != [] {
      CountTreesSum(trees[1..]);
    }
  }

  lemma {:induction false} RenderCount(t: Tree, prefix: string)
    ensures Count(Render(t, prefix)) == CountTree(t)
    decreases t, 1
  {
    TreeOrder();
    SortSorts(t.order, TreeLe);
    SumPermuted(SortedChildren(t), t.order, Below);
    CountTreesSum(SortedChildren(t));
    CountTreesSum(t.order);
    RenderFromCount(t, SortedChildren(t), prefix, 0);
  }

  lemma {:induction false} RenderFromCount(t: Tree, kids: seq<Tree>, prefix: string, first: nat)
    requires forall k :: k in kids ==> k in t.order
    ensures CountBelow(RenderFrom(t, kids, prefix, first)) == CountTrees(kids)
    decreases t, 0, |kids|
  {
    if kids != [] {
      assert kids[0] in t.order;
      RenderCount(kids[0], ChildId(prefix, first));
      RenderFromCount(t, kids[1..], prefix, first + 1);
    }
  }

  // Rendering under a budget

  /** Each level is sorted and emitted until the budget is spent. */
  method RenderBudget(t: Tree, prefix: string, budget: nat) returns (nodes: seq<Rose<Entry>>, left: nat)
    ensures (nodes, left) == Cut(Render(t, prefix), budget)
    decreases t
  {
    hide Cut, SortedChildren;
    nodes, left := [], budget;
    var kids := SortedChildren(t);
    ghost var full := Render(t, prefix);
    var i := 0;
    while i < |kids| && left > 0
      invariant 0 <= i <= |kids|
      invariant nodes + Cut(RenderFrom(t, kids[i..], prefix, i), left).0 == Cut(full, budget).0
      invariant Cut(RenderFrom(t, kids[i..], prefix, i), left).1 == Cut(full, budget).1
    {
      var k, id := kids[i], ChildId(prefix, i);
      assert k in t.order;
      assert kids[i..][0] == k && kids[i..][1..] == kids[i + 1..];
      CutStep(Rose(Entry(id, k.name, k.value, k.self), Render(k, id)), RenderFrom(t, kids[i + 1..], prefix, i + 1),
        left);
      var below;
      below, left := RenderBudget(k, id, left - 1);
      nodes := nodes + [Rose(Entry(id, k.name, k.value, k.self), below)];
      i := i + 1;
    }
    CutEnd(RenderFrom(t, kids[i..], prefix, i), left);
    assert nodes + [] == nodes;
  }

  lemma CutEnd<T>(forest: seq<Rose<T>>, budget: nat)
    requires forest == [] || budget == 0
    ensures Cut(forest, budget) == ([], budget)
  {
  }

  lemma CutStep<T>(first: Rose<T>, rest: seq<Rose<T>>, budget: nat)
    requires budget > 0
    ensures var (kids, left) := Cut(first.children, budget - 1);
      Cut([first] + rest, budget) == ([Rose(first.head, kids)] + Cut(rest, left).0, Cut(rest, left).1)
  {
    assert ([first] + rest)[1..] == rest;
  }

  function Limit(maxNodes: int): nat {
    if maxNodes <= 0 then DEFAULT_MAX_NODES else maxNodes
  }

  /** The flame graph of a query: at most the limit, taken from the front of the full preorder. */
  method RenderTruncated(t: Tree, prefix: string, maxNodes: int) returns (nodes: seq<Rose<Entry>>, truncated: bool)
    ensures var limit := if maxNodes > 0 then maxNodes else 5000;
      (truncated <==> CountTree(t) > limit) && Count(nodes) == if truncated then limit else CountTree(t)
    ensures Preorder(nodes) <= Preorder(Render(t, prefix))
    ensures Pruned(nodes, Render(t, prefix))
    ensures !truncated ==> nodes == Render(t, prefix)
    ensures WellFormed(t) ==> InLevels(nodes, (a, b) => EntryBefore(a, b))
  {
    var limit := Limit(maxNodes);
    truncated := CountTree(t) > limit;
    ghost var full := Render(t, prefix);
    RenderCount(t, prefix);
    CountIsPreorder(full);
    CutIsPrefix(full, limit);
    CutPrunes(full, limit);
    if truncated {
      var left;
      nodes, left := RenderBudget(t, prefix, limit);
    } else {
      nodes := Render(t, prefix);
      CutAll(full, limit);
    }
    if WellFormed(t) {
      RenderHeaviestFirst(t, prefix);
      PrunedInLevels(nodes, full, (a, b) => EntryBefore(a, b));
    }
    CountIsPreorder(nodes);
  }
}
