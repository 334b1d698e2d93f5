/** The account's balance history, as the built positions tell it. */
module Snapshots {
  import opened Protocol
  import opened Ledger
  import opened Lists
  import opened Positions
  import opened Statements
  import Clock

  datatype Snapshot = Snapshot(at: Option<int>, atUtc: Option<int>, balance: int)

  function UtcOf(clock: Clock.ServerClock, at: Option<int>): Option<int> {
    if at.None? then None else clock.ToUtc(at.value)
  }

  function FirstOf(p: Position, clock: Clock.ServerClock): Snapshot {
    Snapshot(p.createdAt, UtcOf(clock, p.createdAt), p.balanceInit)
  }

  function ClosingOf(p: Position, clock: Clock.ServerClock): Snapshot {
    Snapshot(p.closedAt, UtcOf(clock, p.closedAt), p.balanceInit + p.netPnl)
  }

  function ClosingSnapshots(ordered: seq<Position>, clock: Clock.ServerClock): (r: seq<Snapshot>)
    ensures forall s :: s in r <==> exists p :: p in ordered && p.closedAt.Some? && s == ClosingOf(p, clock)
  {
    if ordered == [] then []
    else
      var front, last := ordered[..|ordered| - 1], ordered[|ordered| - 1];
      assert ordered == front + [last];
      ClosingSnapshots(front, clock) + if last.closedAt.Some? then [ClosingOf(last, clock)] else []
  }

  function From(snapshots: seq<Snapshot>, since: int): (r: seq<Snapshot>)
    ensures forall s :: s in r <==> s in snapshots && s.at.Some? && s.at.value >= since
  {
    if snapshots == [] then []
    else
      var front, last := snapshots[..|snapshots| - 1], snapshots[|snapshots| - 1];
      assert snapshots == front + [last];
      From(front, since) + if last.at.Some? && last.at.value >= since then [last] else []
  }

  function BuildBalanceSnapshots(positions: seq<Position>, since: Option<int>, clock: Clock.ServerClock): seq<Snapshot> {
    var ordered := Sort(positions, CloseKey);
    if ordered == [] then []
    else
      var snapshots := [FirstOf(ordered[0], clock)] + ClosingSnapshots(ordered, clock);
      if since.None? then snapshots else From(snapshots, since.value)
  }

  // What the history says.

  /** The moment right after some position's last close, with the balance the account then held. */
  ghost predicate Closing(s: Snapshot, deals: seq<Deal>, current: int, positions: seq<Position>, clock: Clock.ServerClock) {
    exists p :: p in positions && AtLastClose(s, SortDeals(deals), current, p.id, clock)
  }

  predicate AtLastClose(s: Snapshot, sorted: seq<Deal>, current: int, id: int, clock: Clock.ServerClock) {
    var i := LastClose(sorted, id);
    && i >= 0
    && s.at == sorted[i].time
    && s.atUtc == (if s.at.Some? then clock.ToUtc(s.at.value) else None)
    && s.balance == current - SumDelta(sorted[i + 1..])
  }

  lemma ClosingIsTrue(sorted: seq<Deal>, current: int, p: Position, clock: Clock.ServerClock)
    requires EndsAtItsClose(p, sorted, current)
    ensures AtLastClose(ClosingOf(p, clock), sorted, current, p.id, clock)
  {
  }

  predicate Ascending(snapshots: seq<Snapshot>) {
    forall i, j :: 0 <= i < j < |snapshots| ==>
      snapshots[i].at.Some? && snapshots[j].at.Some? && snapshots[i].at.value <= snapshots[j].at.value
  }

  /** Closing snapshots follow one another in time. */
  lemma {:induction false} ClosingsAscend(ordered: seq<Position>, clock: Clock.ServerClock)
    requires Sorted(ordered, CloseKey)
    ensures Ascending(ClosingSnapshots(ordered, clock))
  {
    if ordered != [] {
      var front, last := ordered[..|ordered| - 1], ordered[|ordered| - 1];
      ClosingsAscend(front, clock);
      if last.closedAt.Some? {
        forall s | s in ClosingSnapshots(front, clock) ensures s.at.Some? && s.at.value <= last.closedAt.value {
          var p :| p in front && p.closedAt.Some? && s == ClosingOf(p, clock);
          var k :| 0 <= k < |front| && front[k] == p;
          assert KeyLe(CloseKey(ordered[k]), CloseKey(ordered[|ordered| - 1]));
        }
        AscendingEnd(ClosingSnapshots(front, clock), ClosingOf(last, clock));
      } else {
        assert ClosingSnapshots(ordered, clock) == ClosingSnapshots(front, clock);
      }
    }
  }

  lemma AscendingEnd(earlier: seq<Snapshot>, s: Snapshot)
    requires Ascending(earlier) && s.at.Some?
    requires forall e :: e in earlier ==> e.at.Some? && e.at.value <= s.at.value
    ensures Ascending(earlier + [s])
  {
  }

  /** How often a position's closing shows as this snapshot. */
  function Shows(clock: Clock.ServerClock, s: Snapshot): Position -> int {
    (p: Position) => if p.closedAt.Some? && ClosingOf(p, clock) == s then 1 else 0
  }

  lemma {:induction false} HowOften(positions: seq<Position>, clock: Clock.ServerClock, s: Snapshot)
    ensures multiset(ClosingSnapshots(positions, clock))[s] == SumBy(positions, Shows(clock, s))
  {
    if positions != [] {
      HowOften(positions[..|positions| - 1], clock, s);
    }
  }

  /**
   Of the positions built from a history, the snapshots after the first are exactly the moments after last closes,
   each with the balance the history gives for it, one to a position that has a closing time, in order of time.
   */
  lemma SnapshotsTellTheHistory(deals: seq<Deal>, current: int, positions: seq<Position>, clock: Clock.ServerClock)
    requires BuiltAll(deals, current, positions) && positions != []
    ensures var r := BuildBalanceSnapshots(positions, None, clock);
            && r != []
            && Ascending(r[1..])
            && multiset(r[1..]) == multiset(ClosingSnapshots(positions, clock))
            && (forall s :: s in r[1..] <==> s.at.Some? && Closing(s, deals, current, positions, clock))
  {
    var ordered := Sort(positions, CloseKey);
    SortSorts(positions, CloseKey);
    ClosingsAscend(ordered, clock);
    SameMembers(positions);
    var r := BuildBalanceSnapshots(positions, None, clock);
    assert r[1..] == ClosingSnapshots(ordered, clock);
    forall s ensures multiset(ClosingSnapshots(ordered, clock))[s] == multiset(ClosingSnapshots(positions, clock))[s] {
      HowOften(ordered, clock, s);
      HowOften(positions, clock, s);
      SortSum(positions, CloseKey, Shows(clock, s));
    }
    forall s ensures s in r[1..] <==> s.at.Some? && Closing(s, deals, current, positions, clock) {
      ClosingMatches(s, deals, current, positions, clock);
    }
  }

  /** The first snapshot is the opening of the position that closed first, with the balance before it. */
  lemma FirstSnapshotOpens(positions: seq<Position>, clock: Clock.ServerClock)
    requires positions != []
    ensures BuildBalanceSnapshots(positions, None, clock) != []
    ensures exists p :: && p in positions
                        && (forall q :: q in positions && q.closedAt.Some? ==>
                              p.closedAt.Some? && p.closedAt.value <= q.closedAt.value)
                        && BuildBalanceSnapshots(positions, None, clock)[0]
                           == Snapshot(p.createdAt, if p.createdAt.Some? then clock.ToUtc(p.createdAt.value) else None, p.balanceInit)
  {
    var ordered := Sort(positions, CloseKey);
    SortSorts(positions, CloseKey);
    SameMembers(positions);
    var p := ordered[0];
    forall q | q in positions && q.closedAt.Some? ensures p.closedAt.Some? && p.closedAt.value <= q.closedAt.value {
      var i :| 0 <= i < |ordered| && ordered[i] == q;
      assert i > 0 ==> KeyLe(CloseKey(ordered[0]), CloseKey(ordered[i]));
    }
    assert p in positions && BuildBalanceSnapshots(positions, None, clock)[0] == FirstOf(p, clock);
  }

  lemma SameMembers(positions: seq<Position>)
    ensures forall p :: p in Sort(positions, CloseKey) <==> p in positions
    ensures positions != [] ==> Sort(positions, CloseKey) != []
  {
    forall p ensures p in Sort(positions, CloseKey) <==> p in positions {
      assert p in multiset(Sort(positions, CloseKey)) <==> p in multiset(positions);
    }
    assert |multiset(Sort(positions, CloseKey))| == |multiset(positions)|;
  }

  lemma ClosingMatches(s: Snapshot, deals: seq<Deal>, current: int, positions: seq<Position>, clock: Clock.ServerClock)
    requires forall p :: p in positions ==> PositionOf(deals, current, p.id) == Some(p)
    ensures (exists p :: p in positions && p.closedAt.Some? && s == ClosingOf(p, clock))
       <==> s.at.Some? && Closing(s, deals, current, positions, clock)
  {
    forall p | p in positions ensures AtLastClose(ClosingOf(p, clock), SortDeals(deals), current, p.id, clock) {
      PositionEndsAtItsClose(deals, current, p.id);
      ClosingIsTrue(SortDeals(deals), current, p, clock);
    }
  }

  /** A lower bound keeps exactly the snapshots whose time is known and not before it. */
  lemma SinceCuts(positions: seq<Position>, since: int, clock: Clock.ServerClock, s: Snapshot)
    ensures s in BuildBalanceSnapshots(positions, Some(since), clock)
       <==> s in BuildBalanceSnapshots(positions, None, clock) && s.at.Some? && s.at.value >= since
  {
  }
}
