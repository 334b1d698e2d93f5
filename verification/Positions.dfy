/** Positions built from their deals, and what their results add up to. */
module Positions {
  import opened Lists
  import opened Protocol
  import opened Ledger

  datatype Position = Position(
    id: int, pnl: int, netPnl: int, commission: int, swap: int, win: bool,
    createdAt: Option<int>, closedAt: Option<int>, balanceInit: int)

  function Profit(deal: Deal): int { deal.profit }

  function Swap(deal: Deal): int { deal.swap }

  function Commission(deal: Deal): int { deal.commission }

  function Fee(deal: Deal): int { deal.fee }

  function Opening(deal: Deal): bool { deal.IsOpening() }

  function Closing(deal: Deal): bool { deal.IsClosing() }

  function InPosition(id: int): Deal -> bool { (d: Deal) => d.Grouped() && d.positionId == id }

  /** The deals of a position, in the order they came. */
  function DealsOf(deals: seq<Deal>, id: int): seq<Deal> { Filter(deals, InPosition(id)) }

  function NetOf(deals: seq<Deal>): int {
    SumBy(Filter(deals, Closing), Profit) + SumBy(deals, Swap)
    - Abs(SumBy(deals, Commission)) - Abs(SumBy(deals, Fee))
  }

  /** One position from its sorted deals; the balance after its last close gives the balance before it. */
  function BuildPosition(id: int, deals: seq<Deal>, balanceAfter: int): Position
    requires Filter(deals, Closing) != []
  {
    var opening := Filter(deals, Opening);
    var closing := Filter(deals, Closing);
    var firstOpen := if opening != [] then opening[0] else deals[0];
    var lastClose := closing[|closing| - 1];
    var pnl := SumBy(closing, Profit);
    var swap := SumBy(deals, Swap);
    var commission := Abs(SumBy(deals, Commission));
    var fee := Abs(SumBy(deals, Fee));
    var net := pnl + swap - commission - fee;
    Position(id, pnl, net, commission, swap, net > 0, firstOpen.time, lastClose.time, balanceAfter - net)
  }

  /** The position with this id, as the whole history determines it; none if no deal closes it. */
  function PositionOf(deals: seq<Deal>, current: int, id: int): Option<Position> {
    var own := SortDeals(DealsOf(deals, id));
    if Filter(own, Closing) == [] then None
    else Some(BuildPosition(id, own, BalanceAfter(SortDeals(deals), current, id)))
  }

  // Building all of them.

  /** Ordered by a time that may be missing, the missing ones last. */
  function TimeKey(at: Option<int>): Key { if at.Some? then (0, at.value) else (1, 0) }

  function OpenKey(p: Position): Key { TimeKey(p.createdAt) }

  function CloseKey(p: Position): Key { TimeKey(p.closedAt) }

  lemma ClosesSomewhere(deals: seq<Deal>, id: int)
    ensures LastClose(deals, id) >= 0 <==> exists d :: d in deals && d.Closes(id)
  {
    if d :| d in deals && d.Closes(id) {
      var i :| 0 <= i < |deals| && deals[i] == d;
      assert deals[i].Closes(id);
    }
    if LastClose(deals, id) >= 0 {
      assert deals[LastClose(deals, id)] in deals;
    }
  }

  /** A position has a closing deal of its own exactly if the history closes it. */
  lemma OwnCloses(deals: seq<Deal>, id: int)
    ensures Filter(SortDeals(DealsOf(deals, id)), Closing) != [] <==> LastClose(SortDeals(deals), id) >= 0
  {
    var own := SortDeals(DealsOf(deals, id));
    var sorted := SortDeals(deals);
    ClosesSomewhere(sorted, id);
    if Filter(own, Closing) != [] {
      var d := Filter(own, Closing)[0];
      FilterMembers(own, Closing, d);
      SortMembers(DealsOf(deals, id), DealKey, d);
      FilterMembers(deals, InPosition(id), d);
      SortMembers(deals, DealKey, d);
    }
    if LastClose(sorted, id) >= 0 {
      var d := sorted[LastClose(sorted, id)];
      SortMembers(deals, DealKey, d);
      FilterMembers(deals, InPosition(id), d);
      SortMembers(DealsOf(deals, id), DealKey, d);
      FilterMembers(own, Closing, d);
    }
  }

  lemma DealsOfAppend(deals: seq<Deal>, i: nat, id: int)
    requires i < |deals|
    ensures DealsOf(deals[..i + 1], id)
         == if deals[i].Grouped() && deals[i].positionId == id then DealsOf(deals[..i], id) + [deals[i]]
            else DealsOf(deals[..i], id)
  {
    assert deals[..i + 1][..i] == deals[..i];
  }

  /** The groups hold each position's deals so far, and each group has one place in the order. */
  ghost predicate GroupedSoFar(deals: seq<Deal>, groups: map<int, seq<Deal>>, order: seq<int>) {
    && NamedOnce(groups.Keys, order)
    && (forall id :: GroupRight(deals, groups, id))
  }

  ghost predicate NamedOnce(ids: set<int>, order: seq<int>) {
    && (forall id :: id in ids <==> id in order)
    && (forall i, j :: 0 <= i < j < |order| ==> order[i] != order[j])
  }

  lemma NamesGrow(ids: set<int>, order: seq<int>, id: int)
    requires NamedOnce(ids, order)
    ensures NamedOnce(ids + {id}, if id in ids then order else order + [id])
  {
    if id in ids {
      assert ids + {id} == ids;
    }
  }

  predicate GroupRight(deals: seq<Deal>, groups: map<int, seq<Deal>>, id: int) {
    (if id in groups then groups[id] else []) == DealsOf(deals, id)
  }

  lemma GroupTakes(deals: seq<Deal>, i: nat, groups: map<int, seq<Deal>>, id: int)
    requires i < |deals| && deals[i].Grouped()
    requires GroupRight(deals[..i], groups, id)
    ensures var own := deals[i].positionId;
            var before := if own in groups then groups[own] else [];
            GroupRight(deals[..i + 1], groups[own := before + [deals[i]]], id)
  {
    DealsOfAppend(deals, i, id);
  }

  lemma GroupGrows(deals: seq<Deal>, i: nat, groups: map<int, seq<Deal>>, order: seq<int>)
    requires i < |deals| && deals[i].Grouped()
    requires GroupedSoFar(deals[..i], groups, order)
    ensures var own := deals[i].positionId;
            var before := if own in groups then groups[own] else [];
            GroupedSoFar(deals[..i + 1], groups[own := before + [deals[i]]],
              if own in groups then order else order + [own])
  {
    var own := deals[i].positionId;
    var before := if own in groups then groups[own] else [];
    var now, next := groups[own := before + [deals[i]]], deals[..i + 1];
    NamesGrow(groups.Keys, order, own);
    assert now.Keys == groups.Keys + {own};
    forall id ensures GroupRight(next, now, id) {
      assert GroupRight(deals[..i], groups, id);
      GroupTakes(deals, i, groups, id);
    }
  }

  lemma GroupStays(deals: seq<Deal>, i: nat, groups: map<int, seq<Deal>>, order: seq<int>)
    requires i < |deals| && !deals[i].Grouped()
    requires GroupedSoFar(deals[..i], groups, order)
    ensures GroupedSoFar(deals[..i + 1], groups, order)
  {
    var next := deals[..i + 1];
    forall id ensures GroupRight(next, groups, id) {
      assert GroupRight(deals[..i], groups, id);
      DealsOfAppend(deals, i, id);
    }
  }

  method GroupDeals(deals: seq<Deal>) returns (groups: map<int, seq<Deal>>, order: seq<int>)
    ensures GroupedSoFar(deals, groups, order)
  {
    groups, order := map[], [];
    for i := 0 to |deals|
      invariant GroupedSoFar(deals[..i], groups, order)
    {
      var deal := deals[i];
      if deal.IsTrading() && deal.positionId != 0 {
        GroupGrows(deals, i, groups, order);
        var sofar := if deal.positionId in groups then groups[deal.positionId] else [];
        if deal.positionId !in groups {
          order := order + [deal.positionId];
        }
        groups := groups[deal.positionId := sofar + [deal]];
      } else {
        GroupStays(deals, i, groups, order);
      }
    }
    assert deals[..|deals|] == deals;
  }

  /** One group: a position if some deal of it closes. */
  method BuildGroup(deals: seq<Deal>, current: int, id: int, own: seq<Deal>, closeBalances: map<int, int>)
    returns (built: Option<Position>)
    requires own == DealsOf(deals, id)
    requires id in closeBalances <==> LastClose(SortDeals(deals), id) >= 0
    requires id in closeBalances ==> closeBalances[id] == BalanceAfter(SortDeals(deals), current, id)
    ensures built == PositionOf(deals, current, id)
  {
    var ordered := SortDeals(own);
    OwnCloses(deals, id);
    if Filter(ordered, Closing) == [] {
      return None;
    }
    var balanceAfter := if id in closeBalances then closeBalances[id] else 0;
    return Some(BuildPosition(id, ordered, balanceAfter));
  }

  /** In order of their opening times, those without one last. */
  predicate ByOpening(positions: seq<Position>) {
    forall i, j :: 0 <= i < j < |positions| && positions[j].createdAt.Some? ==>
      positions[i].createdAt.Some? && positions[i].createdAt.value <= positions[j].createdAt.value
  }

  lemma OpeningSorts(positions: seq<Position>)
    ensures ByOpening(Sort(positions, OpenKey))
  {
    SortSorts(positions, OpenKey);
    var sorted := Sort(positions, OpenKey);
    forall i, j | 0 <= i < j < |sorted| && sorted[j].createdAt.Some?
      ensures sorted[i].createdAt.Some? && sorted[i].createdAt.value <= sorted[j].createdAt.value
    {
      assert KeyLe(OpenKey(sorted[i]), OpenKey(sorted[j]));
    }
  }

  /** Every position some deal closes is built once, exactly as the history determines it, ordered by its opening. */
  method BuildPositions(deals: seq<Deal>, current: int) returns (positions: seq<Position>)
    ensures BuiltAll(deals, current, positions)
    ensures ByOpening(positions)
  {
    var groups, order := GroupDeals(deals);
    var closeBalances, _ := BalanceAfterClose(deals, current);
    positions := [];
    for i := 0 to |order|
      invariant BuiltFrom(deals, current, order[..i], positions)
    {
      var id := order[i];
      assert GroupRight(deals, groups, id);
      assert order[..i + 1] == order[..i] + [id];
      var built := BuildGroup(deals, current, id, groups[id], closeBalances);
      if built.None? {
        SkipOne(deals, current, order[..i], positions, id);
      } else {
        BuildOne(deals, current, order[..i], positions, id);
        positions := positions + [built.value];
      }
    }
    BuiltEvery(deals, current, groups, order, positions);
    OpeningSorts(positions);
    positions := Sort(positions, OpenKey);
  }

  /** Each position the history determines, once, and nothing else. */
  ghost predicate BuiltAll(deals: seq<Deal>, current: int, positions: seq<Position>) {
    && (forall p :: p in positions ==> PositionOf(deals, current, p.id) == Some(p))
    && (forall id :: PositionOf(deals, current, id).Some? ==> PositionOf(deals, current, id).value in positions)
    && (forall p :: multiset(positions)[p] <= 1)
  }

  lemma BuiltEvery(deals: seq<Deal>, current: int, groups: map<int, seq<Deal>>, order: seq<int>, built: seq<Position>)
    requires GroupedSoFar(deals, groups, order)
    requires BuiltFrom(deals, current, order[..|order|], built)
    ensures BuiltAll(deals, current, Sort(built, OpenKey))
  {
    assert order[..|order|] == order;
    var sorted := Sort(built, OpenKey);
    forall p ensures p in sorted <==> p in built {
      assert p in multiset(sorted) <==> p in multiset(built);
    }
    forall id | PositionOf(deals, current, id).Some? ensures id in order {
      assert DealsOf(deals, id) != [] && GroupRight(deals, groups, id);
    }
  }

  /** The positions built after some of the groups. */
  ghost predicate BuiltFrom(deals: seq<Deal>, current: int, ids: seq<int>, positions: seq<Position>) {
    && (forall p :: p in positions ==> PositionOf(deals, current, p.id) == Some(p) && p.id in ids)
    && (forall id :: id in ids && PositionOf(deals, current, id).Some? ==> PositionOf(deals, current, id).value in positions)
    && (forall p :: multiset(positions)[p] <= 1)
  }

  lemma SkipOne(deals: seq<Deal>, current: int, ids: seq<int>, positions: seq<Position>, id: int)
    requires BuiltFrom(deals, current, ids, positions) && PositionOf(deals, current, id).None?
    ensures BuiltFrom(deals, current, ids + [id], positions)
  {
  }

  lemma BuildOne(deals: seq<Deal>, current: int, ids: seq<int>, positions: seq<Position>, id: int)
    requires BuiltFrom(deals, current, ids, positions) && PositionOf(deals, current, id).Some? && id !in ids
    ensures BuiltFrom(deals, current, ids + [id], positions + [PositionOf(deals, current, id).value])
  {
    var p := PositionOf(deals, current, id).value;
    assert p.id == id;
    assert p !in positions;
    assert multiset(positions + [p]) == multiset(positions) + multiset{p};
  }
}
