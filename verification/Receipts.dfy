/** Whether migration receipts prove that a time range was migrated. */
module Receipts {
  import opened Sorting

  type Time = int
  datatype Receipt = Receipt(start: Time, end: Time)

  predicate ReceiptLe(a: Receipt, b: Receipt) {
    a.start < b.start || (a.start == b.start && a.end <= b.end)
  }

  ghost predicate InReceipt(receipts: seq<Receipt>, t: Time) {
    exists r :: r in receipts && r.start <= t < r.end
  }

  /** True exactly when every instant of the range lies in some receipt, for receipts in any order,
      overlapping, empty or turned around. */
  method ReceiptsCoverRange(receipts: seq<Receipt>, start: Time, end: Time) returns (covered: bool)
    ensures covered <==> forall t :: start <= t < end ==> InReceipt(receipts, t)
  {
    if start >= end {
      return true;
    }
    SortSorts(receipts, ReceiptLe);
    var sorted := Sort(receipts, ReceiptLe);
    SameMembers(sorted, receipts);
    var cursor := start;
    for i := 0 to |sorted|
      invariant start <= cursor < end
      invariant forall t :: start <= t < cursor ==> InReceipt(receipts, t)
      invariant forall k :: 0 <= k < i ==> sorted[k].end <= cursor
    {
      var r := sorted[i];
      if r.end <= cursor {
        continue;
      }
      if r.start > cursor {
        NotCovered(receipts, sorted, i, cursor);
        return false;
      }
      assert r in receipts;
      cursor := r.end;
      if cursor >= end {
        return true;
      }
    }
    NotCovered(receipts, sorted, |sorted|, cursor);
    return false;
  }

  lemma NotCovered(receipts: seq<Receipt>, sorted: seq<Receipt>, i: nat, t: Time)
    requires (forall r :: r in sorted <==> r in receipts) && SortedBy(sorted, ReceiptLe) && i <= |sorted|
    requires forall k :: 0 <= k < i ==> sorted[k].end <= t
    requires i < |sorted| ==> sorted[i].start > t
    ensures !InReceipt(receipts, t)
  {
    forall r | r in receipts
      ensures !(r.start <= t < r.end)
    {
      assert r in sorted;
      var k :| 0 <= k < |sorted| && sorted[k] == r;
      assert k > i ==> ReceiptLe(sorted[i], sorted[k]);
    }
  }
}
