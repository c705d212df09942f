/**
 The verdict of a composite task over its children, and what it says about the children still to finish.
 */
module Composite {
  datatype Status = Created | Running | Done | Failed | Uploading | Canceled | Unknown(code: int)

  /** DAG and unrecognised policies are treated like ALL_REQUIRED. */
  datatype Policy = AllRequired | BestEffort | Quorum | Dag | Other(name: string)

  datatype Summary = Summary(total: nat, created: nat, running: nat, done: nat, failed: nat, canceled: nat,
                             terminal: nat, quorum: int)

  predicate Terminal(s: Status) {
    s == Done || s == Failed || s == Canceled
  }

  function Count(children: seq<Status>, p: Status -> bool): nat {
    if children == [] then 0 else Count(children[..|children| - 1], p) + if p(children[|children| - 1]) then 1 else 0
  }

  predicate IsDone(s: Status) { s == Done }
  predicate IsFailed(s: Status) { s == Failed }
  predicate IsCanceled(s: Status) { s == Canceled }
  predicate IsRunning(s: Status) { s == Running || s == Uploading }

  function Needed(quorum: int, total: nat): int {
    if quorum <= 0 then (total + 1) / 2 else quorum
  }

  function Verdict(policy: Policy, quorum: int, children: seq<Status>): Status {
    var total, done, terminal := |children|, Count(children, IsDone), Count(children, Terminal);
    if total == 0 then Failed
    else match policy
      case BestEffort => if terminal < total then Running else if done > 0 then Done else Failed
      case Quorum =>
        var q := Needed(quorum, total);
        if done >= q then Done else if terminal == total || done + total - terminal < q then Failed else Running
      case _ => if terminal > done then Failed else if done == total then Done else Running
  }

  lemma {:induction false} CountsAreNumbers(children: seq<Status>)
    ensures var m := multiset(children);
      && Count(children, IsDone) == m[Done] && Count(children, IsFailed) == m[Failed]
      && Count(children, IsCanceled) == m[Canceled] && Count(children, IsRunning) == m[Running] + m[Uploading]
      && Count(children, Terminal) == m[Done] + m[Failed] + m[Canceled]
  {
    if children != [] {
      var n := |children| - 1;
      CountsAreNumbers(children[..n]);
      assert children == children[..n] + [children[n]];
    }
  }

  lemma {:induction false} CountOfAll(children: seq<Status>, p: Status -> bool)
    ensures Count(children, p) <= |children|
    ensures Count(children, p) == |children| <==> forall i :: 0 <= i < |children| ==> p(children[i])
    ensures Count(children, p) == 0 <==> forall i :: 0 <= i < |children| ==> !p(children[i])
  {
    if children != [] {
      var n := |children| - 1;
      var rest := children[..n];
      CountOfAll(rest, p);
      assert forall i :: 0 <= i < n ==> rest[i] == children[i];
    }
  }

  /** What is demanded of children that have all finished. */
  ghost predicate Succeeds(policy: Policy, quorum: int, children: seq<Status>) {
    children != [] &&
    match policy
    case BestEffort => exists s :: s in children && s == Done
    case Quorum =>
      if quorum > 0 then multiset(children)[Done] >= quorum else 2 * multiset(children)[Done] >= |children|
    case _ => forall s :: s in children ==> s == Done
  }

  /** Of finished children the verdict is success exactly when the policy is met, and failure otherwise; without
      children it is failure. */
  lemma VerdictOnFinished(policy: Policy, quorum: int, children: seq<Status>)
    requires forall s :: s in children ==> s in {Done, Failed, Canceled}
    ensures Verdict(policy, quorum, children) ==
      if Succeeds(policy, quorum, children) then Done else Failed
  {
    hide Count;
    CountsAreNumbers(children);
    CountOfAll(children, IsDone);
    CountOfAll(children, Terminal);
    assert forall i :: 0 <= i < |children| ==> children[i] in children;
  }

  /** BEST_EFFORT runs exactly as long as some child does. */
  lemma BestEffortWaits(quorum: int, children: seq<Status>)
    ensures Verdict(BestEffort, quorum, children) == Running <==>
      exists s :: s in children && s !in {Done, Failed, Canceled}
  {
    CountOfAll(children, Terminal);
    assert forall i :: 0 <= i < |children| ==> children[i] in children;
  }

  method Tally(children: seq<Status>, quorum: int) returns (summary: Summary)
    ensures var m := multiset(children);
      && summary.total == |children| && summary.done == m[Done] && summary.failed == m[Failed]
      && summary.canceled == m[Canceled] && summary.running == m[Running] + m[Uploading]
    ensures summary.terminal == summary.done + summary.failed + summary.canceled
    ensures summary.created + summary.running + summary.terminal == summary.total && summary.quorum == quorum
  {
    summary := Summary(|children|, 0, 0, 0, 0, 0, 0, quorum);
    for i := 0 to |children|
      invariant summary.total == |children| && summary.quorum == quorum
      invariant var m := multiset(children[..i]);
        && summary.done == m[Done] && summary.failed == m[Failed] && summary.canceled == m[Canceled]
        && summary.running == m[Running] + m[Uploading]
      invariant summary.terminal == summary.done + summary.failed + summary.canceled
      invariant summary.created + summary.running + summary.terminal == i
    {
      assert children[..i + 1] == children[..i] + [children[i]];
      match children[i] {
        case Done => summary := summary.(done := summary.done + 1, terminal := summary.terminal + 1);
        case Failed => summary := summary.(failed := summary.failed + 1, terminal := summary.terminal + 1);
        case Canceled => summary := summary.(canceled := summary.canceled + 1, terminal := summary.terminal + 1);
        case Running => summary := summary.(running := summary.running + 1);
        case Uploading => summary := summary.(running := summary.running + 1);
        case _ => summary := summary.(created := summary.created + 1);
      }
    }
    assert children[..|children|] == children;
  }

  /** The verdict, its analysis status, and how many children are in which state. */
  method Aggregate(policy: Policy, quorum: int, children: seq<Status>)
    returns (status: Status, analysis: nat, summary: Summary)
    ensures status == Verdict(policy, quorum, children)
    ensures status == Done ==> analysis == 2
    ensures status == Failed ==> analysis == 3
    ensures status == Running ==> analysis == 0
    ensures status in {Done, Failed, Running}
    ensures var m := multiset(children);
      && summary.total == |children| && summary.done == m[Done] && summary.failed == m[Failed]
      && summary.canceled == m[Canceled] && summary.running == m[Running] + m[Uploading]
    ensures summary.terminal == summary.done + summary.failed + summary.canceled
    ensures summary.created + summary.running + summary.terminal == summary.total
    ensures children != [] ==> summary.quorum == if quorum > 0 then quorum else |children| / 2 + |children| % 2
  {
    hide Count;
    summary := Tally(children, quorum);
    CountsAreNumbers(children);
    if summary.total == 0 {
      return Failed, 3, summary;
    }
    var q := if quorum <= 0 then (summary.total + 1) / 2 else quorum;
    summary := summary.(quorum := q);
    match policy {
      case BestEffort =>
        status := if summary.terminal < summary.total then Running else if summary.done > 0 then Done else Failed;
      case Quorum =>
        status := if summary.done >= q then Done
                  else if summary.terminal == summary.total || summary.done + summary.total - summary.terminal < q
                    then Failed
                  else Running;
      case _ =>
        status := if summary.failed > 0 || summary.canceled > 0 then Failed
                  else if summary.done == summary.total then Done else Running;
    }
    analysis := if status == Done then 2 else if status == Failed then 3 else 0;
  }

  // Completions

  /** Later states of the same children: what is finished stays as it is. */
  predicate Advances(now: seq<Status>, later: seq<Status>) {
    |now| == |later| && forall i :: 0 <= i < |now| && Terminal(now[i]) ==> later[i] == now[i]
  }

  predicate Completes(now: seq<Status>, end: seq<Status>) {
    Advances(now, end) && forall s :: s in end ==> Terminal(s)
  }

  /** Every unfinished child ends the same way. */
  function AllEnd(children: seq<Status>, outcome: Status): (end: seq<Status>)
    requires Terminal(outcome)
    ensures Completes(children, end)
  {
    seq(|children|, i requires 0 <= i < |children| => if Terminal(children[i]) then children[i] else outcome)
  }

  lemma {:induction false} Counts(now: seq<Status>, later: seq<Status>)
    requires Advances(now, later)
    ensures Count(now, Terminal) <= Count(later, Terminal) <= |now|
    ensures Count(now, IsDone) <= Count(later, IsDone)
    ensures Count(later, IsDone) - Count(now, IsDone) <= Count(later, Terminal) - Count(now, Terminal)
    ensures Count(later, IsDone) <= Count(later, Terminal)
    ensures (forall s :: s in later ==> Terminal(s)) ==> Count(later, Terminal) == |later|
    ensures Count(now, Terminal) - Count(now, IsDone) <= Count(later, Terminal) - Count(later, IsDone)
  {
    if now != [] {
      Counts(now[..|now| - 1], later[..|later| - 1]);
    }
  }

  lemma {:induction false} AllEndCounts(children: seq<Status>, outcome: Status)
    requires Terminal(outcome)
    ensures Count(AllEnd(children, outcome), IsDone) ==
      Count(children, IsDone) + if outcome == Done then |children| - Count(children, Terminal) else 0
  {
    var n := |children| - 1;
    if children != [] {
      AllEndCounts(children[..n], outcome);
      assert AllEnd(children, outcome)[..n] == AllEnd(children[..n], outcome);
    }
  }

  /** For every policy but BEST_EFFORT the verdict is exactly what can be foretold: success when every way
      of finishing succeeds, failure when every way fails, and running only while both can still happen. */
  lemma VerdictForetells(policy: Policy, quorum: int, children: seq<Status>)
    requires policy != BestEffort
    ensures Verdict(policy, quorum, children) == Done <==>
      forall end :: Completes(children, end) ==> Succeeds(policy, quorum, end)
    ensures Verdict(policy, quorum, children) == Failed <==>
      forall end :: Completes(children, end) ==> !Succeeds(policy, quorum, end)
    ensures Verdict(policy, quorum, children) == Running <==>
      && (exists end :: Completes(children, end) && Succeeds(policy, quorum, end))
      && (exists end :: Completes(children, end) && !Succeeds(policy, quorum, end))
  {
    hide Succeeds;
    var best, worst := AllEnd(children, Done), AllEnd(children, Failed);
    AllEndCounts(children, Done);
    AllEndCounts(children, Failed);
    Counts(children, best);
    Counts(children, worst);
    assert Completes(children, best) && Completes(children, worst);
    forall end | Completes(children, end)
      ensures Verdict(policy, quorum, children) == Done ==> Verdict(policy, quorum, end) == Done
      ensures Verdict(policy, quorum, children) == Failed ==> Verdict(policy, quorum, end) == Failed
      ensures Verdict(policy, quorum, end) == if Succeeds(policy, quorum, end) then Done else Failed
    {
      Counts(children, end);
      VerdictOnFinished(policy, quorum, end);
    }
  }

  /** Under every policy a final verdict never changes while finished children stay finished. */
  lemma VerdictIsFinal(policy: Policy, quorum: int, now: seq<Status>, later: seq<Status>)
    requires Advances(now, later) && Verdict(policy, quorum, now) in {Done, Failed}
    ensures Verdict(policy, quorum, later) == Verdict(policy, quorum, now)
  {
    Counts(now, later);
  }

  /** BEST_EFFORT waits for all children: it foretells success only when no child is left or none has
      succeeded yet. */
  lemma BestEffortForetellsIff(quorum: int, children: seq<Status>)
    ensures (Verdict(BestEffort, quorum, children) == Done <==>
             forall end :: Completes(children, end) ==> Succeeds(BestEffort, quorum, end)) <==>
      (forall s :: s in children ==> s in {Done, Failed, Canceled}) || Done !in children
  {
    hide Succeeds;
    CountOfAll(children, IsDone);
    CountOfAll(children, Terminal);
    assert forall i :: 0 <= i < |children| ==> children[i] in children;
    var best, worst := AllEnd(children, Done), AllEnd(children, Failed);
    AllEndCounts(children, Done);
    AllEndCounts(children, Failed);
    Counts(children, best);
    Counts(children, worst);
    assert Completes(children, best) && Completes(children, worst);
    forall end | Completes(children, end)
      ensures Count(children, IsDone) > 0 ==> Verdict(BestEffort, quorum, end) == Done
      ensures Count(children, Terminal) == |children| ==>
        Verdict(BestEffort, quorum, end) == Verdict(BestEffort, quorum, children)
      ensures Verdict(BestEffort, quorum, end) == if Succeeds(BestEffort, quorum, end) then Done else Failed
    {
      Counts(children, end);
      VerdictOnFinished(BestEffort, quorum, end);
    }
  }

  /** One success and one child still running: every ending is a success, the verdict is still running. */
  lemma BestEffortLags(quorum: int)
    ensures Verdict(BestEffort, quorum, [Done, Running]) == Running
    ensures forall end :: Completes([Done, Running], end) ==> Verdict(BestEffort, quorum, end) == Done
  {
    forall end | Completes([Done, Running], end)
      ensures Verdict(BestEffort, quorum, end) == Done
    {
      assert end == [Done] + [end[1]] && end[..1] == [Done] && [Done][..0] == [];
      assert end[1] in end;
      assert Count(end[..1], IsDone) == 1 && Count(end[..1], Terminal) == 1;
    }
    assert [Done, Running][..1] == [Done] && [Done][..0] == [];
    assert Count([Done], Terminal) == 1;
  }
}
