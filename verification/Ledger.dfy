/** Closed positions rebuilt from deals, with the account balance around each of them. Money is in units of 1e-8. */
module Ledger {
  import opened Lists
  import opened Protocol

  datatype Deal = Deal(
    ticket: int, positionId: int, time: Option<int>, timeMsc: int, kind: int, entry: int,
    commission: int, swap: int, profit: int, fee: int)
  {
    predicate IsTrading() { kind == 0 || kind == 1 }

    predicate IsOpening() { entry == 0 || entry == 2 }

    predicate IsClosing() { entry == 1 || entry == 3 || entry == 2 }

    function BalanceDelta(): int { profit + swap + commission + fee }

    /** The deal belongs to a position. */
    predicate Grouped() { IsTrading() && positionId != 0 }

    predicate Closes(id: int) { Grouped() && IsClosing() && positionId == id }
  }

  function Delta(deal: Deal): int { deal.BalanceDelta() }

  function SumDelta(deals: seq<Deal>): int { SumBy(deals, Delta) }

  function DealKey(deal: Deal): Key { (deal.timeMsc, deal.ticket) }

  function SortDeals(deals: seq<Deal>): seq<Deal> { Sort(deals, DealKey) }

  /** Earlier in time, or at the same millisecond with the smaller ticket. */
  predicate Earlier(d: Deal, e: Deal) { d.timeMsc < e.timeMsc || (d.timeMsc == e.timeMsc && d.ticket < e.ticket) }

  function Stamped(timeMsc: int, ticket: int): Deal -> bool { (d: Deal) => d.timeMsc == timeMsc && d.ticket == ticket }

  /** Sorted deals are the same deals in order of time and ticket, and those that share both stay as they came. */
  lemma SortedByTime(deals: seq<Deal>, timeMsc: int, ticket: int)
    ensures multiset(SortDeals(deals)) == multiset(deals)
    ensures forall i, j :: 0 <= i < j < |SortDeals(deals)| ==> !Earlier(SortDeals(deals)[j], SortDeals(deals)[i])
    ensures Filter(SortDeals(deals), Stamped(timeMsc, ticket)) == Filter(deals, Stamped(timeMsc, ticket))
  {
    SortSorts(deals, DealKey);
    InOrderOfTime(SortDeals(deals));
    SortFilter(deals, DealKey, Stamped(timeMsc, ticket));
    SortedStays(Filter(deals, Stamped(timeMsc, ticket)), DealKey);
  }

  lemma InOrderOfTime(sorted: seq<Deal>)
    requires Sorted(sorted, DealKey)
    ensures forall i, j :: 0 <= i < j < |sorted| ==> !Earlier(sorted[j], sorted[i])
  {
    forall i, j | 0 <= i < j < |sorted| ensures !Earlier(sorted[j], sorted[i]) {
      assert KeyLe(DealKey(sorted[i]), DealKey(sorted[j]));
    }
  }

  predicate UniqueKeys(deals: seq<Deal>) {
    forall i, j :: 0 <= i < j < |deals| ==> deals[i].timeMsc != deals[j].timeMsc || deals[i].ticket != deals[j].ticket
  }

  ghost predicate OneDealPerKey(deals: multiset<Deal>) {
    forall d, e :: d in deals && e in deals && d.timeMsc == e.timeMsc && d.ticket == e.ticket ==> d == e
  }

  lemma LastIsLatest(sorted: seq<Deal>, d: Deal)
    requires Sorted(sorted, DealKey) && d in sorted
    ensures d == sorted[|sorted| - 1] || KeyLe(DealKey(d), DealKey(sorted[|sorted| - 1]))
  {
  }

  lemma LastsAgree(a: seq<Deal>, b: seq<Deal>, all: multiset<Deal>)
    requires Sorted(a, DealKey) && Sorted(b, DealKey) && multiset(a) == multiset(b) && OneDealPerKey(all)
    requires forall d :: d in a ==> d in all
    requires a != [] && b != []
    ensures a[|a| - 1] == b[|b| - 1]
  {
    var x, y := a[|a| - 1], b[|b| - 1];
    assert x in multiset(b) && y in multiset(a);
    assert x in b && y in a;
    LastIsLatest(a, y);
    LastIsLatest(b, x);
  }

  /** With unique keys there is one sorted order of the same deals. */
  lemma {:induction false} SortedOnce(a: seq<Deal>, b: seq<Deal>, all: multiset<Deal>)
    requires Sorted(a, DealKey) && Sorted(b, DealKey) && multiset(a) == multiset(b) && OneDealPerKey(all)
    requires forall d :: d in a ==> d in all
    ensures a == b
    decreases |a|
  {
    SameSize(a, b);
    if a != [] {
      LastsAgree(a, b, all);
      DropLasts(a, b);
      var front, other := a[..|a| - 1], b[..|b| - 1];
      SortedOnce(front, other, all);
      assert a == front + [a[|a| - 1]] && b == other + [b[|b| - 1]];
    }
  }

  lemma DropLasts(a: seq<Deal>, b: seq<Deal>)
    requires a != [] && b != [] && multiset(a) == multiset(b) && a[|a| - 1] == b[|b| - 1]
    ensures multiset(a[..|a| - 1]) == multiset(b[..|b| - 1])
  {
    DropLast(a);
    DropLast(b);
  }

  lemma DropLast(a: seq<Deal>)
    requires a != []
    ensures multiset(a[..|a| - 1]) == multiset(a) - multiset{a[|a| - 1]}
  {
    assert a == a[..|a| - 1] + [a[|a| - 1]];
  }

  lemma SameSize(a: seq<Deal>, b: seq<Deal>)
    requires multiset(a) == multiset(b)
    ensures |a| == |b|
  {
    assert |multiset(a)| == |a| && |multiset(b)| == |b|;
  }

  /** The order deals arrive in does not matter when their keys are unique. */
  lemma SortIgnoresOrder(a: seq<Deal>, b: seq<Deal>)
    requires multiset(a) == multiset(b) && UniqueKeys(a)
    ensures SortDeals(a) == SortDeals(b)
  {
    SortSorts(a, DealKey);
    SortSorts(b, DealKey);
    forall d, e | d in multiset(a) && e in multiset(a) && d.timeMsc == e.timeMsc && d.ticket == e.ticket ensures d == e {
      var i :| 0 <= i < |a| && a[i] == d;
      var j :| 0 <= j < |a| && a[j] == e;
    }
    forall d | d in SortDeals(a) ensures d in multiset(a) {
      assert d in multiset(SortDeals(a));
    }
    SortedOnce(SortDeals(a), SortDeals(b), multiset(a));
  }

  // The balance after each position's last close.

  /** The position in the sorted history of the last deal that closes a position, or -1. */
  function LastClose(sorted: seq<Deal>, id: int): (i: int)
    ensures -1 <= i < |sorted|
    ensures i >= 0 ==> sorted[i].Closes(id)
    ensures forall j :: i < j < |sorted| ==> !sorted[j].Closes(id)
  {
    if sorted == [] then -1
    else if sorted[|sorted| - 1].Closes(id) then |sorted| - 1
    else LastClose(sorted[..|sorted| - 1], id)
  }

  /** What the account held right after that deal: the balance now, less everything that happened since. */
  function BalanceAfter(sorted: seq<Deal>, current: int, id: int): int {
    current - SumDelta(sorted[LastClose(sorted, id) + 1..])
  }

  /** The replay of a history from a starting balance. */
  function Replayed(sorted: seq<Deal>, start: int): map<int, int> {
    if sorted == [] then map[]
    else
      var before := Replayed(sorted[..|sorted| - 1], start);
      var deal := sorted[|sorted| - 1];
      if deal.Grouped() && deal.IsClosing() then before[deal.positionId := start + SumDelta(sorted)] else before
  }

  lemma {:induction false} ReplayedAtLastClose(sorted: seq<Deal>, start: int, id: int)
    ensures id in Replayed(sorted, start) <==> LastClose(sorted, id) >= 0
    ensures id in Replayed(sorted, start) ==>
              Replayed(sorted, start)[id] == start + SumDelta(sorted[..LastClose(sorted, id) + 1])
  {
    if sorted != [] {
      var front := sorted[..|sorted| - 1];
      ReplayedAtLastClose(front, start, id);
      assert sorted[..|sorted|] == sorted;
      var i := LastClose(front, id);
      assert front[..i + 1] == sorted[..i + 1];
    }
  }

  /**
   The replay from the rebuilt balance ends at the current one, and leaves for each closed position the balance after its
   last close.
   */
  method BalanceAfterClose(deals: seq<Deal>, current: int) returns (balances: map<int, int>, running: int)
    ensures running == current
    ensures forall id :: id in balances <==> LastClose(SortDeals(deals), id) >= 0
    ensures forall id :: id in balances ==> balances[id] == BalanceAfter(SortDeals(deals), current, id)
  {
    var start := current - SumDelta(deals);
    running := start;
    balances := map[];
    var sorted := SortDeals(deals);
    for i := 0 to |sorted|
      invariant running == start + SumDelta(sorted[..i])
      invariant balances == Replayed(sorted[..i], start)
    {
      var deal := sorted[i];
      assert sorted[..i + 1][..i] == sorted[..i];
      running := running + deal.BalanceDelta();
      if deal.IsTrading() && deal.positionId != 0 && deal.IsClosing() {
        balances := balances[deal.positionId := running];
      }
    }
    assert sorted[..|sorted|] == sorted;
    SortSum(deals, DealKey, Delta);
    forall id ensures id in balances <==> LastClose(sorted, id) >= 0
              ensures id in balances ==> balances[id] == BalanceAfter(sorted, current, id) {
      ReplayIsBackward(sorted, start, current, id);
    }
  }

  /** Replaying forwards from the rebuilt balance is counting backwards from the current one. */
  lemma ReplayIsBackward(sorted: seq<Deal>, start: int, current: int, id: int)
    requires start + SumDelta(sorted) == current
    ensures id in Replayed(sorted, start) <==> LastClose(sorted, id) >= 0
    ensures id in Replayed(sorted, start) ==> Replayed(sorted, start)[id] == BalanceAfter(sorted, current, id)
  {
    ReplayedAtLastClose(sorted, start, id);
    var k := LastClose(sorted, id) + 1;
    assert sorted == sorted[..k] + sorted[k..];
    SumAppend(sorted[..k], sorted[k..], Delta);
  }
}
