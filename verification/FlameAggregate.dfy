/**
 The aggregate a query folds its samples into: a trie of nodes updated in place, the per-function table
 and the total.
 */
module FlameAggregate {
  import opened Wrappers
  import opened Sums
  import opened FlameDiff
  import opened FlameTrie

  class Node {
    var name: string
    var value: nat
    var self: nat
    var children: map<string, Node>
    var order: seq<Node>

    constructor (name: string)
      ensures this.name == name && value == 0 && self == 0 && children == map[] && order == []
    {
      this.name := name;
      value, self, children, order := 0, 0, map[], [];
    }
  }

  ghost predicate Injective(nodes: map<Path, Node>) {
    forall p, q :: p in nodes && q in nodes && nodes[p] == nodes[q] ==> p == q
  }

  /** The links of one node are the nodes of its child paths, in order. */
  ghost predicate Linked(nodes: map<Path, Node>, p: Path, names: seq<string>, children: map<string, Node>,
                         order: seq<Node>)
  {
    && |order| == |names|
    && (forall i :: 0 <= i < |names| ==> p + [names[i]] in nodes && order[i] == nodes[p + [names[i]]])
    && (forall f :: f in children <==> f in names)
    && (forall f :: f in names ==> p + [f] in nodes && children[f] == nodes[p + [f]])
  }

  ghost predicate NamesHold(nodes: map<Path, Node>)
    reads nodes.Values`name
  {
    forall p :: p in nodes ==> nodes[p].name == NameAt("root", p)
  }

  ghost predicate CellsHold(nodes: map<Path, Node>, cells: map<Path, Cell>)
    reads nodes.Values`value, nodes.Values`self
  {
    && nodes.Keys == cells.Keys
    && forall p :: p in nodes ==> nodes[p].value == cells[p].value && nodes[p].self == cells[p].self
  }

  ghost predicate LinksHold(nodes: map<Path, Node>, kids: map<Path, seq<string>>)
    reads nodes.Values`children, nodes.Values`order
  {
    && nodes.Keys == kids.Keys
    && forall p :: p in nodes ==> Linked(nodes, p, kids[p], nodes[p].children, nodes[p].order)
  }

  /** The nodes on the heap hold a trie. */
  ghost predicate Holds(nodes: map<Path, Node>, t: Trie)
    reads nodes.Values
  {
    Injective(nodes) && NamesHold(nodes) && CellsHold(nodes, t.cells) && LinksHold(nodes, t.kids)
  }

  lemma LinkedGrows(nodes: map<Path, Node>, q: Path, names: seq<string>, children: map<string, Node>,
                    order: seq<Node>, path: Path, child: Node)
    requires Linked(nodes, q, names, children, order) && path !in nodes
    ensures Linked(nodes[path := child], q, names, children, order)
  {
  }

  lemma LinkedAppends(nodes: map<Path, Node>, p: Path, names: seq<string>, children: map<string, Node>,
                      order: seq<Node>, f: string, child: Node)
    requires Linked(nodes, p, names, children, order) && p + [f] !in nodes
    ensures Linked(nodes[p + [f] := child], p, names + [f], children[f := child], order + [child])
  {
  }

  lemma LinkedEmpty(nodes: map<Path, Node>, p: Path)
    ensures Linked(nodes, p, [], map[], [])
  {
  }

  lemma LinkedChild(nodes: map<Path, Node>, p: Path, names: seq<string>, children: map<string, Node>,
                    order: seq<Node>, f: string)
    requires Linked(nodes, p, names, children, order)
    ensures f in children <==> f in names
    ensures f in children ==> p + [f] in nodes && children[f] == nodes[p + [f]]
  {
  }

  lemma InjectiveGrows(nodes: map<Path, Node>, path: Path, child: Node)
    requires Injective(nodes) && child !in nodes.Values
    ensures Injective(nodes[path := child])
  {
    assert forall q :: q in nodes ==> nodes[q] in nodes.Values;
  }

  lemma NamesGrow(nodes: map<Path, Node>, path: Path, child: Node)
    requires NamesHold(nodes) && child.name == NameAt("root", path)
    ensures NamesHold(nodes[path := child])
  {
  }

  lemma CellsGrow(nodes: map<Path, Node>, cells: map<Path, Cell>, path: Path, child: Node)
    requires CellsHold(nodes, cells) && child.value == 0 && child.self == 0
    ensures CellsHold(nodes[path := child], cells[path := Cell(0, 0)])
  {
  }

  /** A new child at the end of a node's children. */
  method AddChild(node: Node, frame: string, ghost nodes: map<Path, Node>, ghost t: Trie, ghost p: Path)
    returns (child: Node, ghost grown: map<Path, Node>)
    requires Holds(nodes, t) && p in nodes && nodes[p] == node && frame !in t.kids[p] && p + [frame] !in nodes
    modifies node`children, node`order
    ensures Holds(grown, Link(t, p, frame))
    ensures grown == nodes[p + [frame] := child] && fresh(child)
  {
    hide Linked, Injective, NamesHold, CellsHold;
    ghost var path := p + [frame];
    child := new Node(frame);
    node.children := node.children[frame := child];
    node.order := node.order + [child];
    grown := nodes[path := child];
    ghost var z := Link(t, p, frame);
    InjectiveGrows(nodes, path, child);
    forall q | q in grown
      ensures Linked(grown, q, z.kids[q], grown[q].children, grown[q].order)
    {
      if q == path {
        LinkedEmpty(grown, q);
      } else if q == p {
        LinkedAppends(nodes, p, t.kids[p], old(node.children), old(node.order), frame, child);
      } else {
        assert nodes[q] != node by { Apart(nodes, p, q); }
        LinkedGrows(nodes, q, t.kids[q], nodes[q].children, nodes[q].order, path, child);
      }
    }
    NamesGrow(nodes, path, child);
    CellsGrow(nodes, t.cells, path, child);
    assert LinksHold(grown, z.kids);
  }

  /** The child of a node, made when it is missing. */
  method Descend(node: Node, frame: string, ghost nodes: map<Path, Node>, ghost t: Trie, ghost p: Path)
    returns (child: Node, ghost grown: map<Path, Node>)
    requires Shaped(t) && Holds(nodes, t) && p in nodes && nodes[p] == node
    modifies node`children, node`order
    ensures Holds(grown, Link(t, p, frame))
    ensures p + [frame] in grown && grown[p + [frame]] == child
    ensures grown == nodes || (grown == nodes[p + [frame] := child] && fresh(child))
  {
    hide Shaped, Linked, Injective, CellsHold, NamesHold;
    LinkedChild(nodes, p, t.kids[p], node.children, node.order, frame);
    if frame in node.children {
      child, grown := node.children[frame], nodes;
    } else {
      ShapedParents(t);
      NewChild(t.kids, p, frame);
      child, grown := AddChild(node, frame, nodes, t, p);
    }
  }

  lemma Apart(nodes: map<Path, Node>, p: Path, q: Path)
    requires Injective(nodes) && p in nodes && q in nodes && p != q
    ensures nodes[p] != nodes[q]
  {
  }

  lemma ShapedParents(t: Trie)
    requires Shaped(t)
    ensures ParentsIn(t.kids)
  {
  }

  method BumpNode(node: Node, count: nat, leaf: bool, ghost nodes: map<Path, Node>, ghost t: Trie, ghost p: Path)
    requires Holds(nodes, t) && p in nodes && nodes[p] == node
    modifies node`value, node`self
    ensures Holds(nodes, Bump(t, p, count, leaf))
  {
    hide LinksHold, NamesHold;
    ghost var z := Bump(t, p, count, leaf);
    node.value := node.value + count;
    if leaf {
      node.self := node.self + count;
    }
    assert CellsHold(nodes, z.cells) by {
      forall q | q in nodes ensures nodes[q].value == z.cells[q].value && nodes[q].self == z.cells[q].self {
        if q != p { Apart(nodes, p, q); }
      }
    }
  }

  // The per-function table

  datatype TopItem = TopItem(value: nat, self: nat)

  function Occurrences(stack: Path, f: string): nat {
    if stack == [] then 0 else Occurrences(stack[..|stack| - 1], f) + if stack[|stack| - 1] == f then 1 else 0
  }

  function EndsIn(f: string): Weighted -> int {
    (w: Weighted) => if w.stack != [] && w.stack[|w.stack| - 1] == f then w.count else 0
  }

  function Passes(f: string): Weighted -> int {
    (w: Weighted) => w.count * Occurrences(w.stack, f)
  }

  function CountOf(w: Weighted): int {
    w.count
  }

  function TopValue(top: map<string, TopItem>, f: string): nat {
    if f in top then top[f].value else 0
  }

  function TopSelf(top: map<string, TopItem>, f: string): nat {
    if f in top then top[f].self else 0
  }

  /** A function's own weight is that of the samples ending in it; its weight counts every frame of it. */
  ghost predicate TopHolds(top: map<string, TopItem>, ws: seq<Weighted>) {
    && (forall f :: TopValue(top, f) == Sum(ws, Passes(f)) && TopSelf(top, f) == Sum(ws, EndsIn(f)))
    && (forall f :: f in top <==> exists w :: w in ws && f in w.stack)
  }

  method AddToTop(top: map<string, TopItem>, stack: Path, count: nat) returns (updated: map<string, TopItem>)
    ensures forall f :: TopValue(updated, f) == TopValue(top, f) + count * Occurrences(stack, f)
    ensures forall f :: TopSelf(updated, f) == TopSelf(top, f) + if stack != [] && stack[|stack| - 1] == f then count
      else 0
    ensures forall f :: f in updated <==> f in top || f in stack
  {
    updated := top;
    for i := 0 to |stack|
      invariant forall f :: TopValue(updated, f) == TopValue(top, f) + count * Occurrences(stack[..i], f)
      invariant forall f :: TopSelf(updated, f) == TopSelf(top, f) + if 0 < i == |stack| && stack[i - 1] == f then count
        else 0
      invariant forall f :: f in updated <==> f in top || f in stack[..i]
    {
      var frame := stack[i];
      assert stack[..i + 1][..i] == stack[..i];
      assert forall f :: Occurrences(stack[..i + 1], f) == Occurrences(stack[..i], f) + if f == frame then 1 else 0;
      var item := if frame in updated then updated[frame] else TopItem(0, 0);
      item := item.(value := item.value + count);
      if i == |stack| - 1 {
        item := item.(self := item.self + count);
      }
      updated := updated[frame := item];
      assert count * (Occurrences(stack[..i], frame) + 1) == count * Occurrences(stack[..i], frame) + count;
    }
    assert stack[..|stack|] == stack;
  }

  lemma TopStep(top: map<string, TopItem>, updated: map<string, TopItem>, ws: seq<Weighted>, w: Weighted)
    requires TopHolds(top, ws)
    requires forall f :: TopValue(updated, f) == TopValue(top, f) + w.count * Occurrences(w.stack, f)
    requires forall f :: TopSelf(updated, f) == TopSelf(top, f) + if w.stack != [] && w.stack[|w.stack| - 1] == f
      then w.count else 0
    requires forall f :: f in updated <==> f in top || f in w.stack
    ensures TopHolds(updated, ws + [w])
  {
    hide TopValue, TopSelf;
    forall f
      ensures TopValue(updated, f) == Sum(ws + [w], Passes(f)) && TopSelf(updated, f) == Sum(ws + [w], EndsIn(f))
    {
      SumAppend(ws, w, Passes(f));
      SumAppend(ws, w, EndsIn(f));
    }
    assert forall x :: x in ws + [w] <==> x in ws || x == w;
  }

  class Aggregate {
    const root: Node
    var total: nat
    var top: map<string, TopItem>
    ghost var nodes: map<Path, Node>
    ghost var samples: seq<Weighted>

    ghost predicate Valid()
      reads this, nodes.Values
    {
      && (forall w :: w in samples ==> w.stack != [])
      && [] in nodes && nodes[[]] == root && Holds(nodes, Fold(samples))
      && total == Sum(samples, CountOf)
      && TopHolds(top, samples)
    }

    constructor ()
      ensures Valid() && samples == [] && fresh(nodes.Values)
    {
      var r := new Node("root");
      root := r;
      total, top, samples := 0, map[], [];
      nodes := map[[] := r];
    }

    /** Adds the weight of a sample to every node on its path, making the missing ones. */
    method AddToTrie(stack: Path, count: nat)
      requires [] in nodes && nodes[[]] == root && Holds(nodes, Fold(samples))
      modifies this`nodes, nodes.Values
      ensures [] in nodes && nodes[[]] == root && Holds(nodes, Add(Fold(samples), stack, count))
      ensures forall q :: q in nodes ==> nodes[q] in old(nodes.Values) || fresh(nodes[q])
    {
      hide Shaped, Holds, Link, Bump, Fold, AddFrames;
      ghost var t := Fold(samples);
      FoldShaped(samples);
      var node := root;
      BumpNode(node, count, false, nodes, t, []);
      NoFrames(t, stack, count);
      for i := 0 to |stack|
        invariant Holds(nodes, AddFrames(t, stack, count, i))
        invariant stack[..i] in nodes && nodes[stack[..i]] == node && [] in nodes && nodes[[]] == root
        invariant forall q :: q in nodes ==> nodes[q] in old(nodes.Values) || fresh(nodes[q])
      {
        AddFramesShaped(t, stack, count, i);
        ghost var p, before := stack[..i], AddFrames(t, stack, count, i);
        assert p + [stack[i]] == stack[..i + 1];
        assert node in nodes.Values;
        node, nodes := Descend(node, stack[i], nodes, before, p);
        BumpNode(node, count, i == |stack| - 1, nodes, Link(before, p, stack[i]), stack[..i + 1]);
        NextFrame(t, stack, count, i);
      }
    }

    /** A valid sample is counted in the total, the table and the trie; any other is ignored. */
    method AddSample(s: RawSample)
      requires Valid()
      modifies this, nodes.Values
      ensures Valid()
      ensures samples == old(samples) + if LooksValid(s) then [Normal(s)] else []
      ensures forall q :: q in nodes ==> nodes[q] in old(nodes.Values) || fresh(nodes[q])
    {
      hide Shaped, Holds, Fold, LooksValid, Normal, TopHolds, Add;
      if !LooksValid(s) {
        return;
      }
      var w := Normal(s);
      assert w.stack != [];
      total := total + w.count;
      SumAppend(samples, w, CountOf);
      var updated := AddToTop(top, w.stack, w.count);
      TopStep(top, updated, samples, w);
      top := updated;
      AddToTrie(w.stack, w.count);
      FoldOne(samples, w);
      samples := samples + [w];
    }
  }

  /** What the nodes of an aggregate hold, at every moment. */
  lemma NodeWeights(agg: Aggregate, p: Path)
    requires agg.Valid()
    ensures p in agg.nodes <==> p == [] || exists w :: w in agg.samples && p <= w.stack
    ensures p in agg.nodes ==>
      agg.nodes[p].value == PrefixSum(agg.samples, p) && agg.nodes[p].self == LeafSum(agg.samples, p)
  {
    hide Fold, Linked, TopHolds, Sum;
    FoldWeights(agg.samples, p);
    FoldPaths(agg.samples, p);
  }

  lemma NoFrames(t: Trie, stack: Path, count: nat)
    ensures AddFrames(t, stack, count, 0) == Bump(t, [], count, false)
    ensures stack[..0] == []
  {
  }

  lemma NextFrame(t: Trie, stack: Path, count: nat, i: nat)
    requires i < |stack|
    ensures AddFrames(t, stack, count, i + 1) ==
      Bump(Link(AddFrames(t, stack, count, i), stack[..i], stack[i]), stack[..i + 1], count, i == |stack| - 1)
  {
  }

  lemma FoldOne(ws: seq<Weighted>, w: Weighted)
    ensures Fold(ws + [w]) == Add(Fold(ws), w.stack, w.count)
  {
    assert (ws + [w])[..|ws|] == ws;
  }

  /** The total is the root's weight, and the functions' own weights add up to it. */
  lemma TotalIsShared(ws: seq<Weighted>, top: map<string, TopItem>, names: seq<string>)
    requires (forall w :: w in ws ==> w.stack != []) && TopHolds(top, ws)
    requires Distinct(names) && forall f :: f in names <==> f in top
    ensures Sum(ws, CountOf) == ValueAt(Fold(ws), []) == Sum(names, (f: string) => TopSelf(top, f))
  {
    hide Fold, ValueAt, TopSelf, TopValue, Sum;
    RootIsTotal(ws);
    forall w | w in ws
      ensures w.stack[|w.stack| - 1] in names
    {
      assert w.stack[|w.stack| - 1] in w.stack;
    }
    SelfsCover(ws, names);
    SumSame(names, (f: string) => TopSelf(top, f), (f: string) => Sum(ws, EndsIn(f)));
  }

  lemma RootIsTotal(ws: seq<Weighted>)
    requires forall w :: w in ws ==> w.stack != []
    ensures Sum(ws, CountOf) == ValueAt(Fold(ws), [])
  {
    hide Fold, ValueAt, Sum;
    FoldWeights(ws, []);
    SumSame(ws, CountOf, Under([]));
  }

  lemma {:induction false} SelfsCover(ws: seq<Weighted>, names: seq<string>)
    requires Distinct(names) && forall w :: w in ws ==> w.stack != [] && w.stack[|w.stack| - 1] in names
    ensures Sum(names, (f: string) => Sum(ws, EndsIn(f))) == Sum(ws, CountOf)
  {
    if ws == [] {
      SumSame(names, (f: string) => Sum(ws, EndsIn(f)), (f: string) => 0);
      SumZero(names);
    } else {
      SelfsCover(ws[1..], names);
      SelfsStep(ws, names);
      var x := ws[0].stack[|ws[0].stack| - 1];
      OneOfDistinct(names, x, ws[0].count);
      SumSame(names, (f: string) => EndsIn(f)(ws[0]), (f: string) => if f == x then ws[0].count else 0);
    }
  }

  lemma {:induction false} SelfsStep(ws: seq<Weighted>, names: seq<string>)
    requires ws != []
    ensures Sum(names, (f: string) => Sum(ws, EndsIn(f))) ==
      Sum(names, (f: string) => EndsIn(f)(ws[0])) + Sum(names, (f: string) => Sum(ws[1..], EndsIn(f)))
  {
    if names != [] {
      SelfsStep(ws, names[1..]);
    }
  }

  /** Folding a whole list of raw samples builds the flame graph of the valid ones. */
  method Aggregated(samples: seq<RawSample>) returns (agg: Aggregate)
    ensures agg.Valid() && agg.samples == Counted(samples)
  {
    hide Holds, Fold, TopHolds, Sum, LooksValid, Normal;
    agg := new Aggregate();
    for i := 0 to |samples|
      invariant agg.Valid() && agg.samples == Counted(samples[..i])
      invariant fresh(agg) && fresh(agg.nodes.Values)
    {
      assert samples[..i + 1][..i] == samples[..i];
      agg.AddSample(samples[i]);
    }
    assert samples[..|samples|] == samples;
  }
}
