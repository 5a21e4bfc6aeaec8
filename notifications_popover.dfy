/** The bill notifications popover (components/NotificationsPopover.tsx):
    an empty list shows the "all paid" message; otherwise the caller's bill
    array is sorted in place by due date and each bill is shown with its
    overdue flag and a mark-as-paid button carrying its id. */
module NotificationsPopover {
  import opened Types

  /** `new Date(dueDate) < today`, on day numbers: strictly before today.
      `today` is read once when the module loads, so every bill of every
      render is compared with the same value, passed here as a parameter. */
  predicate IsOverdue(dueDate: int, today: int)
    ensures dueDate == today ==> !IsOverdue(dueDate, today)
    ensures dueDate == today - 1 ==> IsOverdue(dueDate, today)
  {
    dueDate < today
  }

  predicate SortedByDue(s: seq<Bill>)
  {
    forall i, j :: 0 <= i < j < |s| ==> s[i].dueDate <= s[j].dueDate
  }

  /** In due-date order the overdue bills come first: whenever a bill is
      overdue, so is every bill before it. */
  lemma OverdueArePrefix(s: seq<Bill>, today: int)
    requires SortedByDue(s)
    ensures forall i, j :: 0 <= i < j < |s| && IsOverdue(s[j].dueDate, today) ==> IsOverdue(s[i].dueDate, today)
  {
  }

  /** `bills.sort((a, b) => dueTime(a) - dueTime(b))`, in place: an
      insertion sort, each round sinking the next bill into the sorted
      prefix. */
  method SortByDueDate(a: array<Bill>)
    modifies a
    ensures SortedByDue(a[..])
    ensures multiset(a[..]) == old(multiset(a[..]))
  {
    var i := 0;
    while i < a.Length
      invariant 0 <= i <= a.Length
      invariant forall p, q :: 0 <= p < q < i ==> a[p].dueDate <= a[q].dueDate
      invariant multiset(a[..]) == old(multiset(a[..]))
    {
      SinkInto(a, i);
      i := i + 1;
    }
  }

  /** Moves `a[i]` left past every later-due bill of the sorted prefix. */
  method SinkInto(a: array<Bill>, i: nat)
    requires i < a.Length
    requires forall p, q :: 0 <= p < q < i ==> a[p].dueDate <= a[q].dueDate
    modifies a
    ensures forall p, q :: 0 <= p < q <= i ==> a[p].dueDate <= a[q].dueDate
    ensures multiset(a[..]) == old(multiset(a[..]))
  {
    var j := i;
    while j > 0 && a[j - 1].dueDate > a[j].dueDate
      invariant 0 <= j <= i
      invariant forall p, q :: 0 <= p < q <= i && p != j && q != j ==> a[p].dueDate <= a[q].dueDate
      invariant forall q :: j < q <= i ==> a[j].dueDate < a[q].dueDate
      invariant multiset(a[..]) == old(multiset(a[..]))
    {
      SwapWithPrevious(a, j);
      j := j - 1;
    }
  }

  method SwapWithPrevious(a: array<Bill>, j: nat)
    requires 0 < j < a.Length
    modifies a
    ensures a[j - 1] == old(a[j]) && a[j] == old(a[j - 1])
    ensures forall k :: 0 <= k < a.Length && k != j - 1 && k != j ==> a[k] == old(a[k])
    ensures multiset(a[..]) == old(multiset(a[..]))
  {
    a[j - 1], a[j] := a[j], a[j - 1];
  }

  /** One rendered bill. `markPaidId` is what its button hands to
      `onMarkAsPaid`. */
  datatype BillRow = BillRow(name: string, amount: real, dueDate: int, overdue: bool, markPaidId: string)

  datatype Popover = AllPaidMessage | BillList(rows: seq<BillRow>)

  /** The rows for bills already in display order: one per bill, none
      filtered out, each flagged against the same `today` and each button
      carrying its own bill's id. */
  function Rows(bills: seq<Bill>, today: int): (rows: seq<BillRow>)
    ensures |rows| == |bills|
    ensures forall i :: 0 <= i < |rows| ==>
      rows[i].name == bills[i].name && rows[i].amount == bills[i].amount &&
      rows[i].dueDate == bills[i].dueDate &&
      (rows[i].overdue <==> bills[i].dueDate < today) &&
      rows[i].markPaidId == bills[i].id
  {
    seq(|bills|, i requires 0 <= i < |bills| =>
      BillRow(bills[i].name, bills[i].amount, bills[i].dueDate, IsOverdue(bills[i].dueDate, today), bills[i].id))
  }

  /** Rendering: an empty list shows the message and touches nothing; a
      non-empty one is reordered in place and listed in that order. The
      component never changes a bill; marking one paid is the caller's. */
  method Render(bills: array<Bill>, today: int) returns (p: Popover)
    modifies bills
    ensures bills.Length == 0 ==> p == AllPaidMessage
    ensures bills.Length > 0 ==>
      SortedByDue(bills[..]) && multiset(bills[..]) == old(multiset(bills[..])) &&
      p == BillList(Rows(bills[..], today))
  {
    if bills.Length == 0 {
      p := AllPaidMessage;
    } else {
      SortByDueDate(bills);
      p := BillList(Rows(bills[..], today));
    }
  }
}
