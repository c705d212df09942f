/**
 The cold summary of an hour: the heaviest functions of all windows that have expired from it, merged again
 and again as more windows expire, and cut to a fixed number each time.
 */
module ColdSummary {
  import opened Wrappers
  import opened Sorting
  import opened Sums
  import opened FlameTree

  const TOP_LIMIT: nat := 50

  datatype Item = Item(name: string, self: nat)

  /** What a round aggregated: the own weight of every function met, and the total; and whether it could read
      the list stored before it. */
  datatype Round = Round(top: seq<Item>, total: nat, readable: bool)

  datatype Summary = Summary(items: seq<Item>, sampleCount: nat)

  const NO_SUMMARY: Summary := Summary([], 0)

  predicate ItemLe(a: Item, b: Item) {
    RankLe(a.self, a.name, b.self, b.name)
  }

  lemma ItemOrder()
    ensures TotalOrder(ItemLe)
  {
    forall a: Item, b: Item ensures ItemLe(a, b) || ItemLe(b, a) {
      RanksCompare(a.self, a.name, b.self, b.name);
    }
    forall a: Item, b: Item, c: Item | ItemLe(a, b) && ItemLe(b, c) ensures ItemLe(a, c) {
      RanksChain(a.self, a.name, b.self, b.name, c.self, c.name);
    }
  }

  // Merging by name

  function Names(items: seq<Item>): set<string> {
    set i | 0 <= i < |items| :: items[i].name
  }

  function AddItem(items: seq<Item>, x: Item): seq<Item> {
    if items == [] then [x]
    else if items[0].name == x.name then [Item(x.name, items[0].self + x.self)] + items[1..]
    else [items[0]] + AddItem(items[1..], x)
  }

  function AddAll(items: seq<Item>, more: seq<Item>): seq<Item> {
    if more == [] then items else AddItem(AddAll(items, more[..|more| - 1]), more[|more| - 1])
  }

  function Cut(items: seq<Item>): seq<Item> {
    if |items| > TOP_LIMIT then items[..TOP_LIMIT] else items
  }

  /** A stored list that cannot be read is given up; the stored count is kept. */
  function ReadItems(s: Summary, round: Round): seq<Item> {
    if round.readable then s.items else []
  }

  function Merged(s: Summary, round: Round): seq<Item> {
    AddAll(AddAll([], ReadItems(s, round)), round.top)
  }

  function Merge(s: Summary, round: Round): Summary {
    Summary(Cut(Sort(Merged(s, round), ItemLe)), s.sampleCount + round.total)
  }

  function Run(rounds: seq<Round>): Summary {
    if rounds == [] then NO_SUMMARY else Merge(Run(rounds[..|rounds| - 1]), rounds[|rounds| - 1])
  }

  // Weights

  function Of(f: string): Item -> int {
    (x: Item) => if x.name == f then x.self else 0
  }

  function SelfOf(x: Item): int {
    x.self
  }

  /** The weight of a function in a list of items. */
  function Weight(items: seq<Item>, f: string): int {
    Sum(items, Of(f))
  }

  function Total(items: seq<Item>): int {
    Sum(items, SelfOf)
  }

  function RoundWeight(f: string): Round -> int {
    (r: Round) => Weight(r.top, f)
  }

  function RoundTotal(r: Round): int {
    r.total
  }

  /** What the function really weighed in all rounds. */
  function TrueWeight(rounds: seq<Round>, f: string): int {
    Sum(rounds, RoundWeight(f))
  }

  function Seen(rounds: seq<Round>): set<string> {
    if rounds == [] then {} else Seen(rounds[..|rounds| - 1]) + Names(rounds[|rounds| - 1].top)
  }

  lemma {:induction false} AddItemWeighs(items: seq<Item>, x: Item, f: Item -> int)
    requires forall a: nat, b: nat, n :: f(Item(n, a + b)) == f(Item(n, a)) + f(Item(n, b))
    ensures Sum(AddItem(items, x), f) == Sum(items, f) + f(x)
  {
    if items == [] {
      assert [x][1..] == [];
    } else if items[0].name == x.name {
      assert items[0] == Item(x.name, items[0].self) && x == Item(x.name, x.self);
      assert ([Item(x.name, items[0].self + x.self)] + items[1..])[1..] == items[1..];
    } else {
      AddItemWeighs(items[1..], x, f);
      assert ([items[0]] + AddItem(items[1..], x))[1..] == AddItem(items[1..], x);
    }
  }

  lemma SumLast<T>(s: seq<T>, f: T -> int)
    requires s != []
    ensures Sum(s, f) == Sum(s[..|s| - 1], f) + f(s[|s| - 1])
  {
    SumAppend(s[..|s| - 1], s[|s| - 1], f);
    assert s == s[..|s| - 1] + [s[|s| - 1]];
  }

  /** Merging by name loses nothing. */
  lemma {:induction false} AddAllWeighs(items: seq<Item>, more: seq<Item>, f: Item -> int)
    requires forall a: nat, b: nat, n :: f(Item(n, a + b)) == f(Item(n, a)) + f(Item(n, b))
    ensures Sum(AddAll(items, more), f) == Sum(items, f) + Sum(more, f)
  {
    if more != [] {
      AddAllWeighs(items, more[..|more| - 1], f);
      AddItemWeighs(AddAll(items, more[..|more| - 1]), more[|more| - 1], f);
      SumLast(more, f);
    }
  }

  lemma MergedWeighs(s: Summary, round: Round, f: Item -> int)
    requires forall a: nat, b: nat, n :: f(Item(n, a + b)) == f(Item(n, a)) + f(Item(n, b))
    ensures Sum(Sort(Merged(s, round), ItemLe), f) == Sum(ReadItems(s, round), f) + Sum(round.top, f)
  {
    AddAllWeighs([], ReadItems(s, round), f);
    AddAllWeighs(AddAll([], ReadItems(s, round)), round.top, f);
    ItemOrder();
    SortSorts(Merged(s, round), ItemLe);
    SumPermuted(Sort(Merged(s, round), ItemLe), Merged(s, round), f);
  }

  /** Cutting only takes away. */
  lemma CutWeighsLess(items: seq<Item>, f: Item -> int)
    requires forall x :: x in items ==> f(x) >= 0
    ensures Sum(Cut(items), f) <= Sum(items, f)
  {
    if |items| > TOP_LIMIT {
      assert items == items[..TOP_LIMIT] + items[TOP_LIMIT..];
      SumConcat(items[..TOP_LIMIT], items[TOP_LIMIT..], f);
      SumNonNegative(items[TOP_LIMIT..], f);
    }
  }

  lemma {:induction false} SumNonNegative(items: seq<Item>, f: Item -> int)
    requires forall x :: x in items ==> f(x) >= 0
    ensures Sum(items, f) >= 0
  {
    if items != [] {
      SumNonNegative(items[1..], f);
    }
  }

  /** After any merges the sample count is the exact total. */
  lemma {:induction false} CountIsExact(rounds: seq<Round>)
    ensures Run(rounds).sampleCount == Sum(rounds, RoundTotal)
  {
    if rounds != [] {
      CountIsExact(rounds[..|rounds| - 1]);
      SumLast(rounds, RoundTotal);
    }
  }

  /** No function is ever credited with more than it weighed. */
  lemma {:induction false} NeverTooHeavy(rounds: seq<Round>, f: string)
    ensures Weight(Run(rounds).items, f) <= TrueWeight(rounds, f)
  {
    if rounds != [] {
      var n := |rounds| - 1;
      NeverTooHeavy(rounds[..n], f);
      var s := Run(rounds[..n]);
      MergedWeighs(s, rounds[n], Of(f));
      SumNonNegative(s.items, Of(f));
      CutWeighsLess(Sort(Merged(s, rounds[n]), ItemLe), Of(f));
      SumLast(rounds, RoundWeight(f));
    }
  }

  /** A round's own weights add up to its total, as in every aggregate. */
  ghost predicate Balanced(rounds: seq<Round>) {
    forall r :: r in rounds ==> Total(r.top) == r.total
  }

  lemma {:induction false} StoredWithinCount(rounds: seq<Round>)
    requires Balanced(rounds)
    ensures Total(Run(rounds).items) <= Run(rounds).sampleCount
  {
    if rounds != [] {
      var n := |rounds| - 1;
      assert rounds[n] in rounds;
      StoredWithinCount(rounds[..n]);
      var s := Run(rounds[..n]);
      MergedWeighs(s, rounds[n], SelfOf);
      SumNonNegative(s.items, SelfOf);
      CutWeighsLess(Sort(Merged(s, rounds[n]), ItemLe), SelfOf);
    }
  }

  // When nothing is cut

  predicate OncePerName(items: seq<Item>) {
    forall i, j :: 0 <= i < j < |items| ==> items[i].name != items[j].name
  }

  lemma NamesMember(items: seq<Item>, f: string)
    ensures f in Names(items) <==> exists x :: x in items && x.name == f
  {
    if f in Names(items) {
      var i :| 0 <= i < |items| && items[i].name == f;
      assert items[i] in items;
    }
  }

  lemma {:induction false} AddItemNames(items: seq<Item>, x: Item)
    requires OncePerName(items)
    ensures OncePerName(AddItem(items, x)) && Names(AddItem(items, x)) == Names(items) + {x.name}
  {
    if items != [] && items[0].name != x.name {
      AddItemNames(items[1..], x);
      var z := AddItem(items[1..], x);
      assert Names(items) == {items[0].name} + Names(items[1..])
        by { NamesCons(items[0], items[1..]); assert [items[0]] + items[1..] == items; }
      NamesCons(items[0], z);
      assert items[0].name !in Names(items[1..]);
      assert items[0].name !in Names(z);
      OncePerNameCons(items[0], z);
    } else if items != [] {
      NamesCons(Item(x.name, items[0].self + x.self), items[1..]);
      NamesCons(items[0], items[1..]);
      assert [items[0]] + items[1..] == items;
    } else {
      NamesCons(x, []);
      assert [x] + [] == [x];
    }
  }

  lemma NamesCons(x: Item, rest: seq<Item>)
    ensures Names([x] + rest) == {x.name} + Names(rest)
  {
    var z := [x] + rest;
    forall f ensures f in Names(z) <==> f in {x.name} + Names(rest) {
      if f in Names(rest) {
        var i :| 0 <= i < |rest| && rest[i].name == f;
        assert z[i + 1].name == f;
      }
      assert z[0].name == x.name;
    }
  }

  lemma OncePerNameCons(x: Item, rest: seq<Item>)
    requires OncePerName(rest) && x.name !in Names(rest)
    ensures OncePerName([x] + rest)
  {
    assert forall i :: 0 <= i < |rest| ==> rest[i].name in Names(rest);
  }

  lemma {:induction false} AddAllNames(items: seq<Item>, more: seq<Item>)
    requires OncePerName(items)
    ensures OncePerName(AddAll(items, more)) && Names(AddAll(items, more)) == Names(items) + Names(more)
  {
    if more != [] {
      var n := |more| - 1;
      AddAllNames(items, more[..n]);
      AddItemNames(AddAll(items, more[..n]), more[n]);
      NamesLast(more);
    }
  }

  lemma NamesLast(items: seq<Item>)
    requires items != []
    ensures Names(items) == Names(items[..|items| - 1]) + {items[|items| - 1].name}
  {
    var n := |items| - 1;
    forall f ensures f in Names(items) <==> f in Names(items[..n]) + {items[n].name} {
      if f in Names(items[..n]) {
        var i :| 0 <= i < n && items[..n][i].name == f;
        assert items[i].name == f;
      }
      if f in Names(items) {
        var i :| 0 <= i < |items| && items[i].name == f;
        assert i < n ==> items[..n][i].name == f;
      }
    }
  }

  lemma {:induction false} NamesCount(items: seq<Item>)
    requires OncePerName(items)
    ensures |items| == |Names(items)|
  {
    if items != [] {
      var n := |items| - 1;
      NamesCount(items[..n]);
      NamesLast(items);
      assert items[n].name !in Names(items[..n]);
    }
  }

  lemma SameNames(a: seq<Item>, b: seq<Item>)
    requires multiset(a) == multiset(b)
    ensures Names(a) == Names(b)
  {
    SameMembers(a, b);
    forall f ensures f in Names(a) <==> f in Names(b) {
      NamesMember(a, f);
      NamesMember(b, f);
    }
  }

  lemma CutNames(items: seq<Item>)
    ensures Names(Cut(items)) <= Names(items)
  {
  }

  lemma SubsetSize(a: set<string>, b: set<string>)
    requires a <= b
    ensures |a| <= |b|
  {
    assert b == a + (b - a) && a !! (b - a);
  }

  lemma MergedNames(s: Summary, round: Round)
    ensures OncePerName(Merged(s, round)) && Names(Merged(s, round)) == Names(ReadItems(s, round)) + Names(round.top)
  {
    AddAllNames([], ReadItems(s, round));
    AddAllNames(AddAll([], ReadItems(s, round)), round.top);
    assert Names([]) == {};
  }

  /** The stored names were all met; the list is never longer than the limit. */
  lemma {:induction false} StoredNames(rounds: seq<Round>)
    ensures Names(Run(rounds).items) <= Seen(rounds) && |Run(rounds).items| <= TOP_LIMIT
  {
    if rounds != [] {
      var n := |rounds| - 1;
      StoredNames(rounds[..n]);
      var s := Run(rounds[..n]);
      var sorted := Sort(Merged(s, rounds[n]), ItemLe);
      ItemOrder();
      SortSorts(Merged(s, rounds[n]), ItemLe);
      MergedNames(s, rounds[n]);
      SameNames(sorted, Merged(s, rounds[n]));
      CutNames(sorted);
    }
  }

  lemma NothingCut(rounds: seq<Round>)
    requires rounds != [] && |Seen(rounds)| <= TOP_LIMIT
    ensures var n := |rounds| - 1; var merged := Merged(Run(rounds[..n]), rounds[n]);
      Cut(Sort(merged, ItemLe)) == Sort(merged, ItemLe)
  {
    var n := |rounds| - 1;
    var s := Run(rounds[..n]);
    var merged := Merged(s, rounds[n]);
    StoredNames(rounds[..n]);
    MergedNames(s, rounds[n]);
    NamesCount(merged);
    SubsetSize(Names(merged), Seen(rounds));
    ItemOrder();
    SortSorts(merged, ItemLe);
    SameMembers(Sort(merged, ItemLe), merged);
  }

  lemma SeenFewer(rounds: seq<Round>)
    requires rounds != []
    ensures |Seen(rounds[..|rounds| - 1])| <= |Seen(rounds)|
  {
    SubsetSize(Seen(rounds[..|rounds| - 1]), Seen(rounds));
  }

  ghost predicate AllReadable(rounds: seq<Round>) {
    forall r :: r in rounds ==> r.readable
  }

  /** Everything is exact as long as no more functions than the limit were ever met and the list could be read. */
  lemma {:induction false} ExactWithinLimit(rounds: seq<Round>, f: string)
    requires |Seen(rounds)| <= TOP_LIMIT && AllReadable(rounds)
    ensures Weight(Run(rounds).items, f) == TrueWeight(rounds, f)
    ensures Balanced(rounds) ==> Total(Run(rounds).items) == Run(rounds).sampleCount
  {
    if rounds != [] {
      var n := |rounds| - 1;
      SeenFewer(rounds);
      ExactWithinLimit(rounds[..n], f);
      NothingCut(rounds);
      MergedWeighs(Run(rounds[..n]), rounds[n], Of(f));
      MergedWeighs(Run(rounds[..n]), rounds[n], SelfOf);
      SumLast(rounds, RoundWeight(f));
      assert rounds[n] in rounds;
    }
  }

  lemma NoTwins(s: Summary, round: Round, x: Item, y: Item)
    requires x in Merged(s, round) && y in Merged(s, round) && x != y
    ensures x.name != y.name
  {
    MergedNames(s, round);
    var items := Merged(s, round);
    var i :| 0 <= i < |items| && items[i] == x;
    var j :| 0 <= j < |items| && items[j] == y;
  }

  /** The heaviest functions are kept: whatever is dropped weighs less than everything kept, or as much with a
      later name. */
  lemma KeptOutrankDropped(s: Summary, round: Round, kept: Item, dropped: Item)
    requires kept in Merge(s, round).items && dropped in Merged(s, round) && dropped !in Merge(s, round).items
    ensures kept.self > dropped.self || (kept.self == dropped.self && Ascend(kept.name, dropped.name))
  {
    hide Merged;
    var sorted := Sort(Merged(s, round), ItemLe);
    ItemOrder();
    SortSorts(Merged(s, round), ItemLe);
    SameMembers(sorted, Merged(s, round));
    var cut := Cut(sorted);
    assert forall k :: 0 <= k < |cut| ==> cut[k] in cut;
    var i :| 0 <= i < |cut| && cut[i] == kept;
    assert dropped in sorted;
    var j :| 0 <= j < |sorted| && sorted[j] == dropped;
    NoTwins(s, round, kept, dropped);
    RankMeans(kept.self, kept.name, dropped.self, dropped.name);
  }

  /** The stored list is a selection of the merged items, as long as possible up to the limit, heaviest first. */
  lemma KeptAreListed(s: Summary, round: Round)
    ensures var items := Merge(s, round).items;
      && |items| == (if |Merged(s, round)| <= 50 then |Merged(s, round)| else 50)
      && (forall x :: x in items ==> x in Merged(s, round))
      && forall i, j :: 0 <= i < j < |items| ==>
           items[i].self > items[j].self || (items[i].self == items[j].self && Ascend(items[i].name, items[j].name))
  {
    hide Merged;
    var merged := Merged(s, round);
    var sorted := Sort(merged, ItemLe);
    ItemOrder();
    SortSorts(merged, ItemLe);
    SameMembers(sorted, merged);
    MergedNames(s, round);
    var items := Cut(sorted);
    forall i, j | 0 <= i < j < |items|
      ensures items[i].self > items[j].self || (items[i].self == items[j].self && Ascend(items[i].name, items[j].name))
    {
      OnceInSorted(merged, sorted, i, j);
      RankMeans(items[i].self, items[i].name, items[j].self, items[j].name);
    }
  }

  lemma OnceInSorted(merged: seq<Item>, sorted: seq<Item>, i: nat, j: nat)
    requires OncePerName(merged) && multiset(sorted) == multiset(merged) && i < j < |sorted|
    ensures sorted[i].name != sorted[j].name
  {
    assert Distinct(merged);
    DistinctPermuted(merged, sorted);
    SameMembers(sorted, merged);
    assert sorted[i] in merged && sorted[j] in merged;
    var a :| 0 <= a < |merged| && merged[a] == sorted[i];
    var b :| 0 <= b < |merged| && merged[b] == sorted[j];
  }

  // The merge as it runs, over a map of weights

  function ItemsOf(order: seq<string>, merged: map<string, nat>): seq<Item>
    requires forall n :: n in order ==> n in merged
  {
    seq(|order|, i requires 0 <= i < |order| => assert order[i] in order; Item(order[i], merged[order[i]]))
  }

  ghost predicate DistinctKeys(order: seq<string>, merged: map<string, nat>) {
    && (forall n :: n in order <==> n in merged)
    && (forall i, j :: 0 <= i < j < |order| ==> order[i] != order[j])
  }

  lemma {:induction false} AddToMap(order: seq<string>, merged: map<string, nat>, x: Item)
    requires (forall n :: n in order ==> n in merged) && forall i, j :: 0 <= i < j < |order| ==> order[i] != order[j]
    ensures var m := merged[x.name := (if x.name in order then merged[x.name] else 0) + x.self];
      AddItem(ItemsOf(order, merged), x) == ItemsOf(if x.name in order then order else order + [x.name], m)
  {
    var m := merged[x.name := (if x.name in order then merged[x.name] else 0) + x.self];
    var items := ItemsOf(order, merged);
    if order == [] {
      assert items == [];
    } else if order[0] == x.name {
      assert ItemsOf(order, m) == [Item(x.name, m[x.name])] + items[1..];
    } else {
      assert items[1..] == ItemsOf(order[1..], merged);
      AddToMap(order[1..], merged, x);
      var extended := if x.name in order then order else order + [x.name];
      assert x.name in order <==> x.name in order[1..];
      assert extended[1..] == if x.name in order[1..] then order[1..] else order[1..] + [x.name];
      assert ItemsOf(extended, m) == [items[0]] + ItemsOf(extended[1..], m);
    }
  }

  method AddWeights(order0: seq<string>, merged0: map<string, nat>, items: seq<Item>)
    returns (order: seq<string>, merged: map<string, nat>)
    requires DistinctKeys(order0, merged0)
    ensures DistinctKeys(order, merged) && ItemsOf(order, merged) == AddAll(ItemsOf(order0, merged0), items)
  {
    order, merged := order0, merged0;
    for i := 0 to |items|
      invariant DistinctKeys(order, merged) && ItemsOf(order, merged) == AddAll(ItemsOf(order0, merged0), items[..i])
    {
      var x := items[i];
      assert items[..i + 1][..i] == items[..i];
      AddToMap(order, merged, x);
      if x.name in merged {
        merged := merged[x.name := merged[x.name] + x.self];
      } else {
        order := order + [x.name];
        merged := merged[x.name := x.self];
      }
    }
    assert items[..|items|] == items;
  }

  /** Reads the stored summary, adds the round function by function, sorts, cuts and stores it. */
  method MergeSummary(existing: Option<Summary>, round: Round) returns (s: Summary)
    ensures s == Merge(if existing.Some? then existing.value else NO_SUMMARY, round)
  {
    var stored := if existing.Some? then existing.value else NO_SUMMARY;
    var order, merged := [], map[];
    if round.readable {
      order, merged := AddWeights(order, merged, stored.items);
    }
    order, merged := AddWeights(order, merged, round.top);
    var items := Sort(ItemsOf(order, merged), ItemLe);
    if |items| > TOP_LIMIT {
      items := items[..TOP_LIMIT];
    }
    s := Summary(items, stored.sampleCount + round.total);
    assert ItemsOf([], map[]) == [];
  }
}
