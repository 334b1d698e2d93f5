/** What the built positions add up to: the account's balances, its order independence and its conservation. */
module Statements {
  import opened Protocol
  import opened Ledger
  import opened Lists
  import opened Positions

  // The balance after a position.

  /** The last closing deal among a position's own is the one that closes it in the whole history. */
  lemma {:induction false} OwnLastClose(sorted: seq<Deal>, id: int)
    requires LastClose(sorted, id) >= 0
    ensures EndsWith(Filter(DealsOf(sorted, id), Closing), sorted[LastClose(sorted, id)])
  {
    var front, last := sorted[..|sorted| - 1], sorted[|sorted| - 1];
    assert sorted == front + [last];
    FilterSplit(front, last, InPosition(id));
    FilterSplit(DealsOf(front, id), last, Closing);
    if !last.Closes(id) {
      OwnLastClose(front, id);
    }
  }

  predicate EndsWith(deals: seq<Deal>, d: Deal) { deals != [] && deals[|deals| - 1] == d }

  lemma BuiltEnds(id: int, own: seq<Deal>, balanceAfter: int, d: Deal)
    requires EndsWith(Filter(own, Closing), d)
    ensures var p := BuildPosition(id, own, balanceAfter);
            p.id == id && p.balanceInit + p.netPnl == balanceAfter && p.closedAt == d.time
  {
  }

  predicate EndsAtItsClose(p: Position, sorted: seq<Deal>, current: int) {
    var i := LastClose(sorted, p.id);
    && i >= 0
    && p.balanceInit + p.netPnl == current - SumDelta(sorted[i + 1..])
    && p.closedAt == sorted[i].time
  }

  /** A built position ends at the balance the account held right after its last closing deal, and at that deal's time. */
  lemma PositionEndsAtItsClose(deals: seq<Deal>, current: int, id: int)
    requires PositionOf(deals, current, id).Some?
    ensures PositionOf(deals, current, id).value.id == id
    ensures EndsAtItsClose(PositionOf(deals, current, id).value, SortDeals(deals), current)
  {
    var sorted := SortDeals(deals);
    OwnCloses(deals, id);
    OwnLastClose(sorted, id);
    PositionIsBuilt(deals, current, id);
    BuiltEndsAtItsClose(id, DealsOf(sorted, id), sorted, current);
  }

  lemma BuiltEndsAtItsClose(id: int, own: seq<Deal>, sorted: seq<Deal>, current: int)
    requires LastClose(sorted, id) >= 0 && EndsWith(Filter(own, Closing), sorted[LastClose(sorted, id)])
    ensures BuildPosition(id, own, BalanceAfter(sorted, current, id)).id == id
    ensures EndsAtItsClose(BuildPosition(id, own, BalanceAfter(sorted, current, id)), sorted, current)
  {
    BuiltEnds(id, own, BalanceAfter(sorted, current, id), sorted[LastClose(sorted, id)]);
  }

  /** A trade of the position: a buy or a sell. */
  function Trades(id: int): Deal -> bool { (d: Deal) => 0 <= d.kind <= 1 && d.positionId == id && id != 0 }

  /** A trade that goes out of the position, reverses it, or closes it by another. */
  function Closes(id: int): Deal -> bool {
    (d: Deal) => 0 <= d.kind <= 1 && d.positionId == id && id != 0 && 1 <= d.entry <= 3
  }

  /** A trade that goes into the position or reverses it. */
  function Opens(id: int): Deal -> bool {
    (d: Deal) => 0 <= d.kind <= 1 && d.positionId == id && id != 0 && (d.entry == 0 || d.entry == 2)
  }

  lemma TradesAreDeals(deals: seq<Deal>, id: int)
    ensures Filter(deals, Trades(id)) == DealsOf(deals, id)
  {
    FilterAgrees(deals, Trades(id), InPosition(id));
  }

  lemma BuiltTells(id: int, own: seq<Deal>, balanceAfter: int)
    requires Filter(own, Closing) != []
    ensures var p := BuildPosition(id, own, balanceAfter);
            && p.pnl == SumBy(Filter(own, Closing), Profit)
            && p.swap == SumBy(own, Swap)
            && p.commission == Abs(SumBy(own, Commission))
            && p.netPnl == p.pnl + p.swap - p.commission - Abs(SumBy(own, Fee))
            && (p.win <==> p.netPnl > 0)
            && p.createdAt == (if Filter(own, Opening) != [] then Filter(own, Opening)[0] else own[0]).time
  {
  }

  /**
   What a built position shows, on the deals as they came: the profit of those that close it, the swap of all, commission and
   fees as charges whatever their sign, and what remains.
   */
  lemma PositionTellsItsDeals(deals: seq<Deal>, current: int, id: int)
    requires PositionOf(deals, current, id).Some?
    ensures var p, own := PositionOf(deals, current, id).value, Filter(deals, Trades(id));
            && p.id == id
            && p.pnl == SumBy(Filter(deals, Closes(id)), (d: Deal) => d.profit)
            && p.swap == SumBy(own, (d: Deal) => d.swap)
            && p.commission == Abs(SumBy(own, (d: Deal) => d.commission))
            && p.netPnl == p.pnl + p.swap - p.commission - Abs(SumBy(own, (d: Deal) => d.fee))
            && (p.win <==> p.netPnl > 0)
  {
    var own := DealsOf(deals, id);
    TradesAreDeals(deals, id);
    BuiltTells(id, SortDeals(own), BalanceAfter(SortDeals(deals), current, id));
    ProfitOfCloses(deals, id);
    SumsIgnoreOrder(own);
  }

  lemma ProfitOfCloses(deals: seq<Deal>, id: int)
    ensures SumBy(Filter(SortDeals(DealsOf(deals, id)), Closing), Profit)
         == SumBy(Filter(deals, Closes(id)), (d: Deal) => d.profit)
  {
    SortFilter(DealsOf(deals, id), DealKey, Closing);
    FilterTwice(deals, InPosition(id), Closing, Closes(id));
    SortSum(Filter(deals, Closes(id)), DealKey, Profit);
    SumAgrees(Filter(deals, Closes(id)), Profit, (d: Deal) => d.profit);
  }

  lemma SumsIgnoreOrder(own: seq<Deal>)
    ensures SumBy(SortDeals(own), Swap) == SumBy(own, (d: Deal) => d.swap)
    ensures SumBy(SortDeals(own), Commission) == SumBy(own, (d: Deal) => d.commission)
    ensures SumBy(SortDeals(own), Fee) == SumBy(own, (d: Deal) => d.fee)
  {
    SortSum(own, DealKey, Swap);
    SumAgrees(own, Swap, (d: Deal) => d.swap);
    SortSum(own, DealKey, Commission);
    SumAgrees(own, Commission, (d: Deal) => d.commission);
    SortSum(own, DealKey, Fee);
    SumAgrees(own, Fee, (d: Deal) => d.fee);
  }

  // The balance, told on the deals as they came.

  /** Of the deals that close a position this is the last in time. */
  predicate LastToClose(deals: seq<Deal>, id: int, c: Deal) {
    c in deals && Closes(id)(c) && forall d :: d in deals && Closes(id)(d) ==> !Earlier(c, d)
  }

  function After(c: Deal): Deal -> bool { (d: Deal) => Earlier(c, d) }

  function Change(d: Deal): int { d.profit + d.swap + d.commission + d.fee }

  predicate Successive(sorted: seq<Deal>) { forall j, k :: 0 <= j < k < |sorted| ==> Earlier(sorted[j], sorted[k]) }

  lemma LaterDealsFollow(sorted: seq<Deal>, i: nat)
    requires i < |sorted| && Successive(sorted)
    ensures Filter(sorted, After(sorted[i])) == sorted[i + 1..]
  {
    var upTo, later, after := sorted[..i + 1], sorted[i + 1..], After(sorted[i]);
    assert sorted == upTo + later;
    FilterAppend(upTo, later, after);
    NothingUpTo(sorted, i);
    AllLater(sorted, i);
  }

  lemma NothingUpTo(sorted: seq<Deal>, i: nat)
    requires i < |sorted| && Successive(sorted)
    ensures Filter(sorted[..i + 1], After(sorted[i])) == []
  {
    forall d | d in sorted[..i + 1] ensures !After(sorted[i])(d) {
      var k :| 0 <= k <= i && sorted[k] == d;
    }
    NothingLeft(sorted[..i + 1], After(sorted[i]));
  }

  lemma AllLater(sorted: seq<Deal>, i: nat)
    requires i < |sorted| && Successive(sorted)
    ensures Filter(sorted[i + 1..], After(sorted[i])) == sorted[i + 1..]
  {
    forall d | d in sorted[i + 1..] ensures After(sorted[i])(d) {
      var k :| i < k < |sorted| && sorted[k] == d;
    }
    FilterAll(sorted[i + 1..], After(sorted[i]));
  }

  lemma {:induction false} NothingLeft(s: seq<Deal>, keep: Deal -> bool)
    requires forall d :: d in s ==> !keep(d)
    ensures Filter(s, keep) == []
  {
    if s != [] {
      assert s[|s| - 1] in s;
      NothingLeft(s[..|s| - 1], keep);
    }
  }

  /**
   With unique stamps: a built position ends with the balance the account held after the last of its closing deals, which is
   the balance now less all that later deals changed, and at that deal's time.
   */
  lemma PositionEndsWithItsLastClose(deals: seq<Deal>, current: int, id: int)
    requires PositionOf(deals, current, id).Some? && UniqueKeys(deals)
    ensures exists c :: && LastToClose(deals, id, c)
                        && PositionOf(deals, current, id).value.closedAt == c.time
                        && PositionOf(deals, current, id).value.balanceInit + PositionOf(deals, current, id).value.netPnl
                           == current - SumBy(Filter(deals, After(c)), Change)
  {
    PositionEndsAtItsClose(deals, current, id);
    var i := LastClose(SortDeals(deals), id);
    LaterChanges(deals, i);
    LastIsLast(deals, id, i);
  }

  lemma LaterChanges(deals: seq<Deal>, i: nat)
    requires UniqueKeys(deals) && i < |SortDeals(deals)|
    ensures SumDelta(SortDeals(deals)[i + 1..]) == SumBy(Filter(deals, After(SortDeals(deals)[i])), Change)
  {
    var c := SortDeals(deals)[i];
    SortedSucceeds(deals);
    LaterDealsFollow(SortDeals(deals), i);
    SortFilter(deals, DealKey, After(c));
    SortSum(Filter(deals, After(c)), DealKey, Delta);
    SumAgrees(Filter(deals, After(c)), Delta, Change);
  }

  lemma SortedSucceeds(deals: seq<Deal>)
    requires UniqueKeys(deals)
    ensures Successive(SortDeals(deals))
  {
    var sorted := SortDeals(deals);
    SortedByTime(deals, 0, 0);
    forall i, j | 0 <= i < j < |sorted| ensures Earlier(sorted[i], sorted[j]) {
      assert !Earlier(sorted[j], sorted[i]);
      if DealKey(sorted[i]) == DealKey(sorted[j]) {
        NotTwice(deals, i, j);
      }
    }
  }

  lemma NotTwice(deals: seq<Deal>, i: nat, j: nat)
    requires UniqueKeys(deals) && i < j < |SortDeals(deals)|
    ensures DealKey(SortDeals(deals)[i]) != DealKey(SortDeals(deals)[j])
  {
    var sorted := SortDeals(deals);
    if DealKey(sorted[i]) == DealKey(sorted[j]) {
      var same := Stamped(sorted[i].timeMsc, sorted[i].ticket);
      StampedOnce(deals, sorted[i]);
      SortedByTime(deals, sorted[i].timeMsc, sorted[i].ticket);
      FilterInOrder(sorted, same, i, j);
    }
  }

  lemma {:induction false} StampedOnce(deals: seq<Deal>, d: Deal)
    requires UniqueKeys(deals)
    ensures |Filter(deals, Stamped(d.timeMsc, d.ticket))| <= 1
  {
    if deals != [] {
      var front, last := deals[..|deals| - 1], deals[|deals| - 1];
      StampedOnce(front, d);
      if Stamped(d.timeMsc, d.ticket)(last) {
        forall e | e in front ensures !Stamped(d.timeMsc, d.ticket)(e) {
          var k :| 0 <= k < |front| && front[k] == e;
          assert deals[k] == e;
        }
        NothingLeft(front, Stamped(d.timeMsc, d.ticket));
      }
    }
  }

  lemma LastIsLast(deals: seq<Deal>, id: int, i: nat)
    requires LastClose(SortDeals(deals), id) == i
    ensures LastToClose(deals, id, SortDeals(deals)[i])
  {
    var sorted := SortDeals(deals);
    SortedByTime(deals, 0, 0);
    SortMembers(deals, DealKey, sorted[i]);
    forall d | d in deals && Closes(id)(d) ensures !Earlier(sorted[i], d) {
      SortMembers(deals, DealKey, d);
      NoneLater(sorted, id, d);
    }
  }

  lemma NoneLater(sorted: seq<Deal>, id: int, d: Deal)
    requires d in sorted && Closes(id)(d)
    requires forall j, k :: 0 <= j < k < |sorted| ==> !Earlier(sorted[k], sorted[j])
    ensures LastClose(sorted, id) >= 0 && !Earlier(sorted[LastClose(sorted, id)], d)
  {
    var k :| 0 <= k < |sorted| && sorted[k] == d;
    assert sorted[k].Closes(id);
  }

  /** A position begins at its first opening deal in the sorted history, or at its first deal if nothing opens it. */
  lemma PositionBeginsAtItsFirstOpening(deals: seq<Deal>, current: int, id: int)
    requires PositionOf(deals, current, id).Some?
    ensures var p, sorted := PositionOf(deals, current, id).value, SortDeals(deals);
            var i, j := First(sorted, Opens(id)), First(sorted, Trades(id));
            && j < |sorted|
            && p.createdAt == sorted[if i < |sorted| then i else j].time
  {
    var sorted := SortDeals(deals);
    PositionIsBuilt(deals, current, id);
    TradesAreDeals(sorted, id);
    BuiltTells(id, DealsOf(sorted, id), BalanceAfter(sorted, current, id));
    FilterTwice(sorted, InPosition(id), Opening, Opens(id));
    if First(sorted, Opens(id)) < |sorted| {
      FirstIsFiltered(sorted, Opens(id));
    } else {
      NothingFiltered(sorted, Opens(id));
    }
    if First(sorted, Trades(id)) == |sorted| {
      NothingFiltered(sorted, Trades(id));
    } else {
      FirstIsFiltered(sorted, Trades(id));
    }
  }

  /** A position is built from its deals in the order of the whole history. */
  lemma PositionIsBuilt(deals: seq<Deal>, current: int, id: int)
    requires PositionOf(deals, current, id).Some?
    ensures var sorted := SortDeals(deals);
            && Filter(DealsOf(sorted, id), Closing) != []
            && PositionOf(deals, current, id) == Some(BuildPosition(id, DealsOf(sorted, id), BalanceAfter(sorted, current, id)))
  {
    SortFilter(deals, DealKey, InPosition(id));
  }

  /** The ledger of a position does not depend on the order deals arrive in when no two share a time and a ticket. */
  lemma PositionsIgnoreOrder(a: seq<Deal>, b: seq<Deal>, current: int, id: int)
    requires multiset(a) == multiset(b) && UniqueKeys(a)
    ensures PositionOf(a, current, id) == PositionOf(b, current, id)
  {
    SortIgnoresOrder(a, b);
    SortFilter(a, DealKey, InPosition(id));
    SortFilter(b, DealKey, InPosition(id));
  }

  // What a position's result leaves out of its deals.

  /** The part of a position's deals its net result misses: charges that were in truth credits, and openings' profit. */
  function Excess(own: seq<Deal>): (x: int)
    ensures x >= 0
    ensures x == 0 <==> SumBy(own, Commission) <= 0 && SumBy(own, Fee) <= 0
  {
    SumBy(own, Commission) + Abs(SumBy(own, Commission)) + SumBy(own, Fee) + Abs(SumBy(own, Fee))
  }

  predicate OpeningsEarnNothing(deals: seq<Deal>) {
    forall d :: d in deals && d.Grouped() && !d.IsClosing() ==> d.profit == 0
  }

  lemma {:induction false} DeltaByParts(own: seq<Deal>)
    ensures SumDelta(own) == SumBy(own, Profit) + SumBy(own, Swap) + SumBy(own, Commission) + SumBy(own, Fee)
  {
    if own != [] {
      DeltaByParts(own[..|own| - 1]);
    }
  }

  lemma {:induction false} ClosingProfit(own: seq<Deal>)
    requires forall d :: d in own && !d.IsClosing() ==> d.profit == 0
    ensures SumBy(Filter(own, Closing), Profit) == SumBy(own, Profit)
  {
    if own != [] {
      var front, last := own[..|own| - 1], own[|own| - 1];
      ClosingProfit(front);
      SumEnd(Filter(front, Closing), last, Profit);
      assert own == front + [last];
      FilterSplit(front, last, Closing);
      assert last in own;
    }
  }

  lemma NetIsEffectLessExcess(own: seq<Deal>)
    requires forall d :: d in own && !d.IsClosing() ==> d.profit == 0
    ensures NetOf(own) == SumDelta(own) - Excess(own)
  {
    DeltaByParts(own);
    ClosingProfit(own);
  }

  lemma NetIgnoresOrder(deals: seq<Deal>)
    ensures NetOf(SortDeals(deals)) == NetOf(deals)
  {
    SortFilter(deals, DealKey, Closing);
    SortSum(Filter(deals, Closing), DealKey, Profit);
    SortSum(deals, DealKey, Swap);
    SortSum(deals, DealKey, Commission);
    SortSum(deals, DealKey, Fee);
  }

  lemma PositionNet(deals: seq<Deal>, current: int, id: int)
    requires PositionOf(deals, current, id).Some? && OpeningsEarnNothing(deals)
    ensures PositionOf(deals, current, id).value.netPnl == SumDelta(DealsOf(deals, id)) - Excess(DealsOf(deals, id))
  {
    NetIgnoresOrder(DealsOf(deals, id));
    forall d | d in DealsOf(deals, id) && !d.IsClosing() ensures d.profit == 0 {
      FilterMembers(deals, InPosition(id), d);
    }
    NetIsEffectLessExcess(DealsOf(deals, id));
  }

  // Conservation over the account.

  function Ids(positions: seq<Position>): (ids: set<int>) {
    set p | p in positions :: p.id
  }

  function InAny(ids: set<int>): Deal -> bool { (d: Deal) => d.Grouped() && d.positionId in ids }

  function InNone(ids: set<int>): Deal -> bool { (d: Deal) => !(d.Grouped() && d.positionId in ids) }

  function Net(p: Position): int { p.netPnl }

  function SumNet(positions: seq<Position>): int { SumBy(positions, Net) }

  function SumExcess(deals: seq<Deal>, positions: seq<Position>): (x: int)
    ensures x >= 0
    ensures x == 0 <==> forall p :: p in positions ==> Excess(DealsOf(deals, p.id)) == 0
  {
    if positions == [] then 0
    else
      assert positions == positions[..|positions| - 1] + [positions[|positions| - 1]];
      SumExcess(deals, positions[..|positions| - 1]) + Excess(DealsOf(deals, positions[|positions| - 1].id))
  }

  lemma FilterEnd(deals: seq<Deal>, keep: Deal -> bool)
    requires deals != []
    ensures SumDelta(Filter(deals, keep))
         == SumDelta(Filter(deals[..|deals| - 1], keep)) + if keep(deals[|deals| - 1]) then deals[|deals| - 1].BalanceDelta() else 0
  {
    var front, last := deals[..|deals| - 1], deals[|deals| - 1];
    assert deals == front + [last];
    FilterSplit(front, last, keep);
    SumEnd(Filter(front, keep), last, Delta);
  }

  lemma {:induction false} OneMore(deals: seq<Deal>, ids: set<int>, id: int)
    requires id !in ids
    ensures SumDelta(Filter(deals, InAny(ids + {id}))) == SumDelta(Filter(deals, InAny(ids))) + SumDelta(DealsOf(deals, id))
  {
    if deals != [] {
      OneMore(deals[..|deals| - 1], ids, id);
      FilterEnd(deals, InAny(ids + {id}));
      FilterEnd(deals, InAny(ids));
      FilterEnd(deals, InPosition(id));
    }
  }

  lemma {:induction false} InOrOut(deals: seq<Deal>, ids: set<int>)
    ensures SumDelta(deals) == SumDelta(Filter(deals, InAny(ids))) + SumDelta(Filter(deals, InNone(ids)))
  {
    if deals != [] {
      InOrOut(deals[..|deals| - 1], ids);
      FilterEnd(deals, InAny(ids));
      FilterEnd(deals, InNone(ids));
    }
  }

  lemma {:induction false} NobodyOwns(deals: seq<Deal>)
    ensures SumDelta(Filter(deals, InAny({}))) == 0
  {
    if deals != [] {
      NobodyOwns(deals[..|deals| - 1]);
      FilterEnd(deals, InAny({}));
    }
  }

  predicate DistinctIds(positions: seq<Position>) {
    forall i, j :: 0 <= i < j < |positions| ==> positions[i].id != positions[j].id
  }

  lemma TwiceIsTwo(positions: seq<Position>, i: nat, j: nat)
    requires i < j < |positions| && positions[i] == positions[j]
    ensures multiset(positions)[positions[i]] >= 2
  {
    var p := positions[i];
    assert positions == positions[..j] + positions[j..];
    assert p in positions[..j] && p in positions[j..];
    assert p in multiset(positions[..j]) && p in multiset(positions[j..]);
  }

  lemma BuiltIdsDiffer(deals: seq<Deal>, current: int, positions: seq<Position>)
    requires forall p :: p in positions ==> PositionOf(deals, current, p.id) == Some(p)
    requires forall p :: multiset(positions)[p] <= 1
    ensures DistinctIds(positions)
  {
    forall i, j | 0 <= i < j < |positions| ensures positions[i].id != positions[j].id {
      if positions[i].id == positions[j].id {
        assert positions[i] in positions && positions[j] in positions;
        TwiceIsTwo(positions, i, j);
      }
    }
  }

  lemma {:induction false} NetsAddUp(deals: seq<Deal>, current: int, positions: seq<Position>)
    requires OpeningsEarnNothing(deals) && DistinctIds(positions)
    requires forall p :: p in positions ==> PositionOf(deals, current, p.id) == Some(p)
    ensures SumNet(positions) == SumDelta(Filter(deals, InAny(Ids(positions)))) - SumExcess(deals, positions)
  {
    if positions == [] {
      assert Ids(positions) == {};
      NobodyOwns(deals);
    } else {
      var front, last := positions[..|positions| - 1], positions[|positions| - 1];
      NetsAddUp(deals, current, front);
      assert last in positions;
      PositionNet(deals, current, last.id);
      IdsGrow(positions);
      OneMore(deals, Ids(front), last.id);
    }
  }

  lemma IdsGrow(positions: seq<Position>)
    requires positions != [] && DistinctIds(positions)
    ensures var front, last := positions[..|positions| - 1], positions[|positions| - 1];
            last.id !in Ids(front) && Ids(positions) == Ids(front) + {last.id}
  {
    var front, last := positions[..|positions| - 1], positions[|positions| - 1];
    assert positions == front + [last];
  }

  /**
   The starting balance, the built positions' results and every deal outside them add up to the balance now,
   less what the results miss; and nothing is missed exactly when no built position was credited commission or fees.
   */
  lemma AccountAddsUp(deals: seq<Deal>, current: int, positions: seq<Position>)
    requires BuiltAll(deals, current, positions) && OpeningsEarnNothing(deals)
    ensures var start := current - SumDelta(deals);
            var outside := SumDelta(Filter(deals, InNone(Ids(positions))));
            && start + SumNet(positions) + outside <= current
            && (start + SumNet(positions) + outside == current <==>
                  forall p :: p in positions ==>
                    SumBy(DealsOf(deals, p.id), Commission) <= 0 && SumBy(DealsOf(deals, p.id), Fee) <= 0)
  {
    BuiltIdsDiffer(deals, current, positions);
    NetsAddUp(deals, current, positions);
    InOrOut(deals, Ids(positions));
    NothingMissed(deals, positions);
  }

  lemma NothingMissed(deals: seq<Deal>, positions: seq<Position>)
    ensures SumExcess(deals, positions) == 0 <==>
            forall p :: p in positions ==>
              SumBy(DealsOf(deals, p.id), Commission) <= 0 && SumBy(DealsOf(deals, p.id), Fee) <= 0
  {
    forall p | p in positions
      ensures Excess(DealsOf(deals, p.id)) == 0 <==>
              SumBy(DealsOf(deals, p.id), Commission) <= 0 && SumBy(DealsOf(deals, p.id), Fee) <= 0 {}
  }
}
