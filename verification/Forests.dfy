/**
 Ordered forests and their truncation to a node budget. Flame graphs and diff flame graphs are both
 truncated this way.
 */
module Forests {
  datatype Rose<T> = Rose(head: T, children: seq<Rose<T>>)

  function Preorder<T>(forest: seq<Rose<T>>): seq<T>
    decreases forest
  {
    if forest == [] then [] else [forest[0].head] + Preorder(forest[0].children) + Preorder(forest[1..])
  }

  /** Number of nodes: the children, then what is below each of them. */
  function Count<T>(forest: seq<Rose<T>>): nat
    decreases forest, 1
  {
    |forest| + CountBelow(forest)
  }

  function CountBelow<T>(forest: seq<Rose<T>>): nat
    decreases forest, 0
  {
    if forest == [] then 0 else Count(forest[0].children) + CountBelow(forest[1..])
  }

  lemma {:induction false} CountIsPreorder<T>(forest: seq<Rose<T>>)
    ensures Count(forest) == |Preorder(forest)|
    decreases forest
  {
    if forest != [] {
      CountIsPreorder(forest[0].children);
      CountIsPreorder(forest[1..]);
    }
  }

  /** Depth first, a node is kept while the budget lasts; the second component is what is left of it. */
  function Cut<T>(forest: seq<Rose<T>>, budget: nat): (seq<Rose<T>>, nat)
    decreases forest
  {
    if forest == [] || budget == 0 then ([], budget)
    else
      var (kids, left) := Cut(forest[0].children, budget - 1);
      var (rest, out) := Cut(forest[1..], left);
      ([Rose(forest[0].head, kids)] + rest, out)
  }

  function Min(a: nat, b: nat): nat {
    if a < b then a else b
  }

  /** The kept nodes are the first of the preorder, exactly as many as the budget allows. */
  lemma {:induction false} CutIsPrefix<T>(forest: seq<Rose<T>>, budget: nat)
    ensures var n := Min(budget, |Preorder(forest)|);
      Preorder(Cut(forest, budget).0) == Preorder(forest)[..n] && Cut(forest, budget).1 == budget - n
    decreases forest
  {
    if forest != [] && budget > 0 {
      var (kids, left) := Cut(forest[0].children, budget - 1);
      var (rest, out) := Cut(forest[1..], left);
      CutIsPrefix(forest[0].children, budget - 1);
      CutIsPrefix(forest[1..], left);
      var cut := [Rose(forest[0].head, kids)] + rest;
      assert cut[1..] == rest;
      assert Preorder(cut) == [forest[0].head] + Preorder(kids) + Preorder(rest);
      PrefixOfThree(forest[0].head, Preorder(forest[0].children), Preorder(forest[1..]), budget);
    }
  }

  lemma PrefixOfThree<T>(x: T, a: seq<T>, b: seq<T>, n: nat)
    requires n > 0
    ensures var i := Min(n - 1, |a|); var j := Min(n - 1 - i, |b|);
      [x] + a[..i] + b[..j] == ([x] + a + b)[..Min(n, 1 + |a| + |b|)]
  {
  }

  /** Nothing is rewritten or reparented: at each node the kept children are the first children. */
  ghost predicate Pruned<T>(cut: seq<Rose<T>>, full: seq<Rose<T>>)
    decreases full
  {
    && |cut| <= |full|
    && forall i :: 0 <= i < |cut| ==> cut[i].head == full[i].head && Pruned(cut[i].children, full[i].children)
  }

  lemma {:induction false} CutPrunes<T>(forest: seq<Rose<T>>, budget: nat)
    ensures Pruned(Cut(forest, budget).0, forest)
    decreases forest
  {
    if forest != [] && budget > 0 {
      var (kids, left) := Cut(forest[0].children, budget - 1);
      CutPrunes(forest[0].children, budget - 1);
      CutPrunes(forest[1..], left);
    }
  }

  /** At every level each node stands before its later siblings in the given order. */
  ghost predicate InLevels<T>(forest: seq<Rose<T>>, before: (T, T) -> bool)
    decreases forest
  {
    && (forall i, j :: 0 <= i < j < |forest| ==> before(forest[i].head, forest[j].head))
    && forall i :: 0 <= i < |forest| ==> InLevels(forest[i].children, before)
  }

  lemma {:induction false} PrunedInLevels<T>(cut: seq<Rose<T>>, full: seq<Rose<T>>, before: (T, T) -> bool)
    requires Pruned(cut, full) && InLevels(full, before)
    ensures InLevels(cut, before)
    decreases full
  {
    forall i | 0 <= i < |cut| ensures InLevels(cut[i].children, before) {
      PrunedInLevels(cut[i].children, full[i].children, before);
    }
  }

  lemma {:induction false} CutAll<T>(forest: seq<Rose<T>>, budget: nat)
    requires Count(forest) <= budget
    ensures Cut(forest, budget) == (forest, budget - Count(forest))
    decreases forest
  {
    if forest != [] {
      CutAll(forest[0].children, budget - 1);
      CutAll(forest[1..], budget - 1 - Count(forest[0].children));
      assert [forest[0]] + forest[1..] == forest;
    }
  }

  /** The loop that spends the budget over the children in turn. */
  method Truncate<T>(forest: seq<Rose<T>>, budget: nat) returns (kept: seq<Rose<T>>, left: nat)
    ensures (kept, left) == Cut(forest, budget)
    decreases forest
  {
    kept, left := [], budget;
    var i := 0;
    while i < |forest| && left > 0
      invariant 0 <= i <= |forest|
      invariant kept + Cut(forest[i..], left).0 == Cut(forest, budget).0
      invariant Cut(forest[i..], left).1 == Cut(forest, budget).1
    {
      assert forest[i..][0] == forest[i] && forest[i..][1..] == forest[i + 1..];
      ghost var tail := Cut(forest[i..], left).0;
      var kids;
      kids, left := Truncate(forest[i].children, left - 1);
      assert tail == [Rose(forest[i].head, kids)] + Cut(forest[i + 1..], left).0;
      kept := kept + [Rose(forest[i].head, kids)];
      i := i + 1;
    }
    assert Cut(forest[i..], left) == ([], left) && kept + [] == kept;
  }
}
