/** Syncs of one account in turn: measure what is not yet measured, store it, and start again from what is stored. */
module Syncs {
  import opened Convergence
  import opened Enrichment
  import opened EnrichmentRun
  import opened Excursion
  import opened Lists
  import opened Protocol
  import opened Repository

  /** The positions measured by one enrichment. */
  function EnrichedIds(queue: seq<Trade>, fates: seq<Fate>): set<int>
    requires |fates| == |queue|
  {
    set k | 0 <= k < |queue| && fates[k].Enriched? :: queue[k].id
  }

  /** The rows a sync stores: every position rebuilt, with its excursions if this sync measured it. */
  function RowOf(t: Trade, enriched: set<int>, round: Round): Row {
    var fields := After(t, if t.id in enriched then Enriched else Skipped, (None, None), round);
    Row(t, fields.0, fields.1)
  }

  function RowsOf(trades: seq<Trade>, enriched: set<int>, round: Round): (rows: seq<Row>)
    ensures |rows| == |trades|
    ensures forall i :: 0 <= i < |trades| ==> rows[i] == RowOf(trades[i], enriched, round)
  {
    seq(|trades|, i requires 0 <= i < |trades| => RowOf(trades[i], enriched, round))
  }

  function EnrichedBy(trades: seq<Trade>, measured: set<int>, round: Round): set<int> {
    var queue := Queue(trades, measured);
    EnrichedIds(queue, Fates(queue, |queue|, round))
  }

  function Synced(table: Table, account: int, trades: seq<Trade>, round: Round): Table {
    Upserted(table, account, RowsOf(trades, EnrichedBy(trades, Measured(table, account), round), round))
  }

  function Sync(account: int, trades: seq<Trade>, round: Round): Table -> Table {
    (table: Table) => Synced(table, account, trades, round)
  }

  function SyncedTimes(table: Table, account: int, trades: seq<Trade>, round: Round, n: nat): Table {
    Iterate(Sync(account, trades, round), table, n)
  }

  // One sync.

  /** The position with this identifier is measured by this sync's candles. */
  ghost predicate Measures(queue: seq<Trade>, id: int, round: Round)
  {
    exists t :: t in queue && t.id == id && round.measure(t).Enriched?
  }

  lemma EnrichedMeasures(queue: seq<Trade>, round: Round, id: int)
    requires id in EnrichedIds(queue, Fates(queue, |queue|, round))
    ensures Measures(queue, id, round)
  {
    var k :| 0 <= k < |queue| && Fates(queue, |queue|, round)[k].Enriched? && queue[k].id == id;
    FateAt(queue, k, |queue|, round);
    assert queue[k] in queue;
  }

  /** Once stored, the measured positions are those measured before and those this sync measured. */
  lemma SyncMeasures(table: Table, account: int, trades: seq<Trade>, round: Round)
    requires DistinctIds(trades) && Sound(round)
    ensures Measured(Synced(table, account, trades, round), account)
         == Measured(table, account) + EnrichedBy(trades, Measured(table, account), round)
  {
    var queue := Queue(trades, Measured(table, account));
    var enriched := EnrichedBy(trades, Measured(table, account), round);
    var rows := RowsOf(trades, enriched, round);
    QueueMembers(trades, Measured(table, account));
    forall id | id in enriched ensures Measures(queue, id, round) {
      EnrichedMeasures(queue, round, id);
    }
    forall id ensures id in Measured(Upserted(table, account, rows), account)
                 <==> id in Measured(table, account) || id in enriched {
      RowsTell(trades, enriched, round, queue, id);
      LastMeasurementStays(table, account, rows, id);
      MeasuredIsMae(table, account, id);
      MeasuredIsMae(Upserted(table, account, rows), account, id);
    }
  }

  lemma OwnRow(trades: seq<Trade>, enriched: set<int>, round: Round, i: nat, has: Row -> bool)
    requires DistinctIds(trades) && i < |trades|
    ensures var rows := RowsOf(trades, enriched, round);
            LastWith(rows, trades[i].id, has) == if has(rows[i]) then i else -1
  {
    var rows := RowsOf(trades, enriched, round);
    var k := LastWith(rows, trades[i].id, has);
    assert rows[i].trade == trades[i];
    if k >= 0 {
      assert rows[k].trade == trades[k];
    }
  }

  /**
   What a sync stores: each position as it was rebuilt, with the excursions of this sync if it measured the position, and
   those it had otherwise.
   */
  lemma SyncStores(table: Table, account: int, trades: seq<Trade>, round: Round, t: Trade)
    requires DistinctIds(trades) && t in trades
    ensures var key, stored := (account, t.id), Synced(table, account, trades, round);
            var now := if t.id in EnrichedBy(trades, Measured(table, account), round) then round.excursions(t) else (None, None);
            && key in stored && stored[key].trade == t
            && stored[key].mae == (if now.0.Some? then now.0 else if key in table then table[key].mae else None)
            && stored[key].mfe == (if now.1.Some? then now.1 else if key in table then table[key].mfe else None)
  {
    var enriched := EnrichedBy(trades, Measured(table, account), round);
    var i :| 0 <= i < |trades| && trades[i] == t;
    OwnRow(trades, enriched, round, i, HasMae);
    OwnRow(trades, enriched, round, i, HasMfe);
    OwnRow(trades, enriched, round, i, Any);
    LastMeasurementStays(table, account, RowsOf(trades, enriched, round), t.id);
    LastRowWins(table, account, RowsOf(trades, enriched, round), t.id);
  }

  /** A row carries a measurement exactly if this sync measured its position. */
  lemma RowTells(trades: seq<Trade>, enriched: set<int>, round: Round, queue: seq<Trade>, t: Trade)
    requires DistinctIds(trades) && t in trades && Sound(round)
    requires forall t :: t in queue ==> t in trades
    requires t.id in enriched ==> Measures(queue, t.id, round)
    ensures HasMae(RowOf(t, enriched, round)) <==> t.id in enriched
  {
    if t.id in enriched {
      var same :| same in queue && same.id == t.id && round.measure(same).Enriched?;
      var i :| 0 <= i < |trades| && trades[i] == t;
      var j :| 0 <= j < |trades| && trades[j] == same;
      assert i == j;
    }
  }

  lemma RowsTell(trades: seq<Trade>, enriched: set<int>, round: Round, queue: seq<Trade>, id: int)
    requires DistinctIds(trades) && Sound(round)
    requires forall t :: t in queue ==> t in trades
    requires id in enriched ==> Measures(queue, id, round)
    ensures var rows := RowsOf(trades, enriched, round);
            var i := LastWith(rows, id, HasMae);
            (i >= 0 <==> id in enriched) && (i >= 0 ==> rows[i].mae.Some?)
  {
    var rows := RowsOf(trades, enriched, round);
    forall i | 0 <= i < |rows| && rows[i].trade.id == id ensures HasMae(rows[i]) <==> id in enriched {
      assert rows[i] == RowOf(trades[i], enriched, round);
      RowTells(trades, enriched, round, queue, trades[i]);
    }
    if id in enriched {
      var t :| t in queue && t.id == id && round.measure(t).Enriched?;
      var i :| 0 <= i < |trades| && trades[i] == t;
      assert rows[i].trade.id == id;
    }
  }

  lemma MeasuredIsMae(table: Table, account: int, id: int)
    ensures id in Measured(table, account) <==> Mae(table, (account, id)).Some?
  {
    var key := (account, id);
    assert id == key.1;
  }

  // Syncs with time enough, whose candles always come.

  function Usable(round: Round): Trade -> bool { (t: Trade) => round.measure(t).Enriched? }

  ghost predicate Steady(round: Round, limit: nat, trades: seq<Trade>) {
    && Sound(round)
    && round.limit == Some(limit)
    && (forall i :: !round.late(i))
    && (forall t :: t in trades ==> round.measure(t).Came())
  }

  lemma {:induction false} NoTrail(queue: seq<Trade>, fates: seq<Fate>, pair: string)
    requires |fates| <= |queue| && forall k :: 0 <= k < |fates| ==> !fates[k].Failed?
    ensures Trail(queue, fates, pair) == []
  {
    if fates != [] {
      NoTrail(queue, fates[..|fates| - 1], pair);
    }
  }

  function SteadyFate(t: Trade, k: nat, limit: nat, round: Round): Fate {
    if k < limit then round.measure(t) else Deferred
  }

  ghost predicate AllSteady(queue: seq<Trade>, fates: seq<Fate>, limit: nat, round: Round)
    requires |fates| <= |queue|
  {
    forall k :: 0 <= k < |fates| ==> fates[k] == SteadyFate(queue[k], k, limit, round)
  }

  lemma SteadyNext(queue: seq<Trade>, fates: seq<Fate>, limit: nat, round: Round)
    requires |fates| < |queue|
    requires Steady(round, limit, queue) && AllSteady(queue, fates, limit, round)
    ensures AllSteady(queue, fates + [NextFate(queue, fates, round)], limit, round)
  {
    if |fates| < limit {
      NothingFailed(queue, fates, limit, round);
    } else if |fates| > 0 {
      assert queue[|fates| - 1] in queue;
    }
    assert queue[|fates|] in queue;
    assert NextFate(queue, fates, round) == SteadyFate(queue[|fates|], |fates|, limit, round);
  }

  lemma NothingFailed(queue: seq<Trade>, fates: seq<Fate>, limit: nat, round: Round)
    requires |fates| < |queue| && |fates| < limit
    requires Steady(round, limit, queue) && AllSteady(queue, fates, limit, round)
    ensures forall k :: 0 <= k < |fates| ==> fates[k].Came()
    ensures !Abandoned(queue, fates, queue[|fates|].pair)
  {
    forall k | 0 <= k < |fates| ensures fates[k].Came() {
      assert queue[k] in queue;
    }
    NoTrail(queue, fates, queue[|fates|].pair);
  }

  lemma {:induction false} SteadyFates(queue: seq<Trade>, n: nat, limit: nat, round: Round)
    requires n <= |queue|
    requires Steady(round, limit, queue)
    ensures AllSteady(queue, Fates(queue, n, round), limit, round)
  {
    if n > 0 {
      SteadyFates(queue, n - 1, limit, round);
      SteadyNext(queue, Fates(queue, n - 1, round), limit, round);
    }
  }

  function Kept(enriched: set<int>): Trade -> bool { (t: Trade) => t.id !in enriched }

  /** What this sync measured is what is usable in the first positions of the queue. */
  lemma SteadyEnriched(queue: seq<Trade>, limit: nat, round: Round, k: nat)
    requires k < |queue|
    requires DistinctIds(queue) && Steady(round, limit, queue)
    ensures Kept(EnrichedIds(queue, Fates(queue, |queue|, round)))(queue[k]) <==> !(k < limit && Usable(round)(queue[k]))
  {
    SteadyFates(queue, |queue|, limit, round);
    var fates := Fates(queue, |queue|, round);
    if queue[k].id in EnrichedIds(queue, fates) {
      var j :| 0 <= j < |queue| && fates[j].Enriched? && queue[j].id == queue[k].id;
      assert j == k;
    }
  }

  lemma SteadyStep(queue: seq<Trade>, limit: nat, round: Round)
    requires DistinctIds(queue) && Steady(round, limit, queue)
    ensures Filter(queue, Kept(EnrichedIds(queue, Fates(queue, |queue|, round)))) == Step(queue, limit, Usable(round))
  {
    var kept, stays := Kept(EnrichedIds(queue, Fates(queue, |queue|, round))), Not(Usable(round));
    forall k | 0 <= k < |queue| ensures kept(queue[k]) == !(k < limit && Usable(round)(queue[k])) {
      SteadyEnriched(queue, limit, round, k);
    }
    KeptIsStep(queue, limit, kept, Usable(round));
  }

  lemma KeptAhead(head: seq<Trade>, kept: Trade -> bool, usable: Trade -> bool)
    requires forall k :: 0 <= k < |head| ==> kept(head[k]) == !usable(head[k])
    ensures Filter(head, kept) == Filter(head, Not(usable))
  {
    forall t | t in head ensures kept(t) == Not(usable)(t) {
      var k :| 0 <= k < |head| && head[k] == t;
    }
    FilterAgrees(head, kept, Not(usable));
  }

  lemma KeptBehind(tail: seq<Trade>, kept: Trade -> bool)
    requires forall k :: 0 <= k < |tail| ==> kept(tail[k])
    ensures Filter(tail, kept) == tail
  {
    forall t | t in tail ensures kept(t) {
      var k :| 0 <= k < |tail| && tail[k] == t;
    }
    FilterAll(tail, kept);
  }

  lemma KeptInTwo(head: seq<Trade>, tail: seq<Trade>, kept: Trade -> bool, usable: Trade -> bool)
    requires forall k :: 0 <= k < |head| ==> kept(head[k]) == !usable(head[k])
    requires forall k :: 0 <= k < |tail| ==> kept(tail[k])
    ensures Filter(head + tail, kept) == Filter(head, Not(usable)) + tail
  {
    KeptAhead(head, kept, usable);
    KeptBehind(tail, kept);
    FilterAppend(head, tail, kept);
  }

  lemma KeptSplits(queue: seq<Trade>, limit: nat, kept: Trade -> bool, usable: Trade -> bool)
    requires limit < |queue|
    requires forall k :: 0 <= k < |queue| ==> kept(queue[k]) == !(k < limit && usable(queue[k]))
    ensures forall k :: 0 <= k < limit ==> kept(queue[..limit][k]) == !usable(queue[..limit][k])
    ensures forall k :: 0 <= k < |queue| - limit ==> kept(queue[limit..][k])
  {
    forall k | 0 <= k < |queue| - limit ensures kept(queue[limit..][k]) {
      assert queue[limit..][k] == queue[limit + k];
    }
  }

  lemma KeptIsStep(queue: seq<Trade>, limit: nat, kept: Trade -> bool, usable: Trade -> bool)
    requires forall k :: 0 <= k < |queue| ==> kept(queue[k]) == !(k < limit && usable(queue[k]))
    ensures Filter(queue, kept) == Step(queue, limit, usable)
  {
    if |queue| <= limit {
      KeptAhead(queue, kept, usable);
    } else {
      KeptPastLimit(queue, limit, kept, usable);
    }
  }

  lemma KeptPastLimit(queue: seq<Trade>, limit: nat, kept: Trade -> bool, usable: Trade -> bool)
    requires limit < |queue|
    requires forall k :: 0 <= k < |queue| ==> kept(queue[k]) == !(k < limit && usable(queue[k]))
    ensures Filter(queue, kept) == Filter(queue[..limit], Not(usable)) + queue[limit..]
  {
    KeptSplits(queue, limit, kept, usable);
    KeptInTwo(queue[..limit], queue[limit..], kept, usable);
    assert queue == queue[..limit] + queue[limit..];
  }

  /** The queue of the next sync is what this one leaves. */
  lemma QueueAfter(trades: seq<Trade>, measured: set<int>, enriched: set<int>)
    ensures Queue(trades, measured + enriched) == Filter(Queue(trades, measured), Kept(enriched))
  {
    FilterTwice(trades, Unmeasured(measured), Kept(enriched), Unmeasured(measured + enriched));
    SortFilter(Filter(trades, Unmeasured(measured)), NewestFirst, Kept(enriched));
  }

  lemma {:induction false} PlaceKeepsDistinct(sorted: seq<Trade>, t: Trade)
    requires DistinctIds(sorted) && forall s :: s in sorted ==> s.id != t.id
    ensures DistinctIds(Place(sorted, t, NewestFirst))
  {
    if sorted != [] && !KeyLe(NewestFirst(sorted[|sorted| - 1]), NewestFirst(t)) {
      var front, last := sorted[..|sorted| - 1], sorted[|sorted| - 1];
      PlaceKeepsDistinct(front, t);
      forall s | s in Place(front, t, NewestFirst) ensures s.id != last.id {
        assert s in multiset(Place(front, t, NewestFirst));
        assert s == t || s in front;
      }
    }
  }

  lemma {:induction false} SortKeepsDistinct(s: seq<Trade>)
    requires DistinctIds(s)
    ensures DistinctIds(Sort(s, NewestFirst))
  {
    if s != [] {
      var front, last := s[..|s| - 1], s[|s| - 1];
      SortKeepsDistinct(front);
      forall t | t in Sort(front, NewestFirst) ensures t.id != last.id {
        SortMembers(front, NewestFirst, t);
      }
      PlaceKeepsDistinct(Sort(front, NewestFirst), last);
    }
  }

  lemma QueueKeepsDistinct(trades: seq<Trade>, measured: set<int>)
    requires DistinctIds(trades)
    ensures DistinctIds(Queue(trades, measured))
  {
    FilterKeepsDistinct(trades, Unmeasured(measured));
    SortKeepsDistinct(Filter(trades, Unmeasured(measured)));
  }

  lemma SyncStep(table: Table, account: int, trades: seq<Trade>, round: Round, limit: nat)
    requires DistinctIds(trades) && Steady(round, limit, trades)
    ensures Queue(trades, Measured(Synced(table, account, trades, round), account))
         == Step(Queue(trades, Measured(table, account)), limit, Usable(round))
  {
    var measured := Measured(table, account);
    SyncMeasures(table, account, trades, round);
    QueueMembers(trades, measured);
    QueueAfter(trades, measured, EnrichedBy(trades, measured, round));
    QueueKeepsDistinct(trades, measured);
    SteadyStep(Queue(trades, measured), limit, round);
  }

  /** What waits to be measured, by what is stored. */
  function WaitingIs(account: int, trades: seq<Trade>): (Table, seq<Trade>) -> bool {
    (table: Table, queue: seq<Trade>) => Queue(trades, Measured(table, account)) == queue
  }

  lemma OneSync(table: Table, account: int, trades: seq<Trade>, round: Round, limit: nat, queue: seq<Trade>)
    requires DistinctIds(trades) && Steady(round, limit, trades) && WaitingIs(account, trades)(table, queue)
    ensures WaitingIs(account, trades)(Sync(account, trades, round)(table), TakeShare(limit, Usable(round))(queue))
  {
    SyncStep(table, account, trades, round, limit);
  }

  lemma SyncsStep(table: Table, account: int, trades: seq<Trade>, round: Round, limit: nat, n: nat, queue: seq<Trade>)
    requires DistinctIds(trades) && Steady(round, limit, trades) && WaitingIs(account, trades)(table, queue)
    ensures WaitingIs(account, trades)(SyncedTimes(table, account, trades, round, n), Steps(queue, limit, Usable(round), n))
  {
    var sync, step, waits := Sync(account, trades, round), TakeShare(limit, Usable(round)), WaitingIs(account, trades);
    forall now, waiting | waits(now, waiting) ensures waits(sync(now), step(waiting)) {
      OneSync(now, account, trades, round, limit, waiting);
    }
    RunsStayRelated(sync, step, waits, table, queue, n);
  }

  /** Whether a position is stored as measured after some syncs. */
  predicate MeasuredAfter(table: Table, account: int, trades: seq<Trade>, round: Round, n: nat, id: int) {
    id in Measured(SyncedTimes(table, account, trades, round, n), account)
  }

  lemma MeasuredIsGone(table: Table, account: int, trades: seq<Trade>, round: Round, limit: nat, n: nat, t: Trade)
    requires DistinctIds(trades) && Steady(round, limit, trades)
    requires t in Queue(trades, Measured(table, account))
    ensures MeasuredAfter(table, account, trades, round, n, t.id)
       <==> t !in Steps(Queue(trades, Measured(table, account)), limit, Usable(round), n)
  {
    SyncsStep(table, account, trades, round, limit, n, Queue(trades, Measured(table, account)));
    QueueMembers(trades, Measured(table, account));
    QueueMembers(trades, Measured(SyncedTimes(table, account, trades, round, n), account));
  }

  lemma MeasuredOrNot(table: Table, account: int, trades: seq<Trade>, round: Round, limit: nat, i: nat, n: nat)
    requires DistinctIds(trades) && Steady(round, limit, trades)
    requires i < |Queue(trades, Measured(table, account))| && Usable(round)(Queue(trades, Measured(table, account))[i])
    ensures var queue := Queue(trades, Measured(table, account));
            && (Blockers(queue, i, Usable(round)) < limit && n > i ==> MeasuredAfter(table, account, trades, round, n, queue[i].id))
            && (Blockers(queue, i, Usable(round)) >= limit ==> !MeasuredAfter(table, account, trades, round, n, queue[i].id))
  {
    var queue := Queue(trades, Measured(table, account));
    QueueKeepsDistinct(trades, Measured(table, account));
    MeasuredIsGone(table, account, trades, round, limit, n, queue[i]);
    ReachedOrNot(queue, i, limit, Usable(round), n);
  }

  /** Some sync measures a position of the queue exactly if fewer than a share of unmeasurable ones stand before it. */
  lemma MeasuredFromQueue(table: Table, account: int, trades: seq<Trade>, round: Round, limit: nat, i: nat)
    requires DistinctIds(trades) && Steady(round, limit, trades)
    requires i < |Queue(trades, Measured(table, account))| && Usable(round)(Queue(trades, Measured(table, account))[i])
    ensures var queue := Queue(trades, Measured(table, account));
            (exists n: nat :: MeasuredAfter(table, account, trades, round, n, queue[i].id))
            <==> Blockers(queue, i, Usable(round)) < limit
  {
    var queue := Queue(trades, Measured(table, account));
    MeasuredOrNot(table, account, trades, round, limit, i, i + 1);
    if Blockers(queue, i, Usable(round)) >= limit {
      forall n: nat ensures !MeasuredAfter(table, account, trades, round, n, queue[i].id) {
        MeasuredOrNot(table, account, trades, round, limit, i, n);
      }
    }
  }

  // The same, told on the positions as they come.

  /** One waiting position closed later than another, or at the same moment and comes earlier. */
  predicate Newer(trades: seq<Trade>, measured: set<int>, q: nat, p: nat)
    requires q < |trades| && p < |trades|
  {
    && ToMeasure(trades[q], measured) && ToMeasure(trades[p], measured)
    && ( || trades[q].closedAt.value > trades[p].closedAt.value
         || (trades[q].closedAt.value == trades[p].closedAt.value && q < p))
  }

  lemma NewerStandsBefore(trades: seq<Trade>, measured: set<int>, q: nat, p: nat)
    requires q < |trades| && p < |trades| && Newer(trades, measured, q, p)
    ensures InThatOrder(Queue(trades, measured), trades[q], trades[p])
  {
    var eligible := Filter(trades, Unmeasured(measured));
    if q < p {
      FilterInOrder(trades, Unmeasured(measured), q, p);
      var a, b :| 0 <= a < b < |eligible| && eligible[a] == trades[q] && eligible[b] == trades[p];
      SortInOrder(eligible, NewestFirst, a, b);
    } else {
      FilterInOrder(trades, Unmeasured(measured), p, q);
      var a, b :| 0 <= a < b < |eligible| && eligible[a] == trades[p] && eligible[b] == trades[q];
      SortInOrder(eligible, NewestFirst, b, a);
    }
  }

  /** The unmeasurable positions that wait and are newer. */
  function InTheWay(trades: seq<Trade>, measured: set<int>, round: Round, p: nat): set<int>
    requires p < |trades|
  {
    set q | 0 <= q < |trades| && Newer(trades, measured, q, p) && !round.measure(trades[q]).Enriched? :: trades[q].id
  }

  function IdsOf(s: seq<Trade>): set<int> { set k | 0 <= k < |s| :: s[k].id }

  lemma {:induction false} IdsCounted(s: seq<Trade>)
    requires DistinctIds(s)
    ensures |IdsOf(s)| == |s|
  {
    if s != [] {
      var front, last := s[..|s| - 1], s[|s| - 1];
      IdsCounted(front);
      assert IdsOf(s) == IdsOf(front) + {last.id};
      assert last.id !in IdsOf(front);
    }
  }

  /** What stands before a position in the queue is what is newer. */
  lemma BeforeIsNewer(trades: seq<Trade>, measured: set<int>, i: nat, p: nat, j: nat, q: nat)
    requires DistinctIds(trades) && i < |Queue(trades, measured)| && p < |trades| && Queue(trades, measured)[i] == trades[p]
    requires j < |Queue(trades, measured)| && q < |trades| && Queue(trades, measured)[j] == trades[q]
    ensures j < i <==> Newer(trades, measured, q, p)
  {
    var queue := Queue(trades, measured);
    QueueMembers(trades, measured);
    QueueKeepsDistinct(trades, measured);
    assert queue[i] in queue && queue[j] in queue;
    if Newer(trades, measured, q, p) {
      NewerStandsBefore(trades, measured, q, p);
      var a, b :| 0 <= a < b < |queue| && queue[a] == trades[q] && queue[b] == trades[p];
    } else if q != p {
      NewerStandsBefore(trades, measured, p, q);
      var a, b :| 0 <= a < b < |queue| && queue[a] == trades[p] && queue[b] == trades[q];
    }
  }

  /** The waiting positions before a place of the queue that cannot be measured. */
  function StandBefore(queue: seq<Trade>, i: nat, round: Round): seq<Trade>
    requires i <= |queue|
  {
    Filter(queue[..i], Not(Usable(round)))
  }

  lemma BlockerIsInTheWay(trades: seq<Trade>, measured: set<int>, round: Round, i: nat, p: nat, t: Trade)
    requires DistinctIds(trades) && i < |Queue(trades, measured)| && p < |trades| && Queue(trades, measured)[i] == trades[p]
    requires t in StandBefore(Queue(trades, measured), i, round)
    ensures t.id in InTheWay(trades, measured, round, p)
  {
    var queue := Queue(trades, measured);
    QueueMembers(trades, measured);
    FilterMembers(queue[..i], Not(Usable(round)), t);
    var j :| 0 <= j < i && queue[..i][j] == t;
    assert queue[j] in queue;
    var q :| 0 <= q < |trades| && trades[q] == t;
    BeforeIsNewer(trades, measured, i, p, j, q);
  }

  lemma InTheWayIsBlocker(trades: seq<Trade>, measured: set<int>, round: Round, i: nat, p: nat, q: nat)
    requires DistinctIds(trades) && i < |Queue(trades, measured)| && p < |trades| && Queue(trades, measured)[i] == trades[p]
    requires q < |trades| && Newer(trades, measured, q, p) && !round.measure(trades[q]).Enriched?
    ensures trades[q] in StandBefore(Queue(trades, measured), i, round)
  {
    var queue := Queue(trades, measured);
    QueueMembers(trades, measured);
    assert trades[q] in queue;
    var j :| 0 <= j < |queue| && queue[j] == trades[q];
    BeforeIsNewer(trades, measured, i, p, j, q);
    assert queue[..i][j] == trades[q];
    FilterMembers(queue[..i], Not(Usable(round)), trades[q]);
  }

  lemma BlockersAreInTheWay(trades: seq<Trade>, measured: set<int>, round: Round, i: nat, p: nat)
    requires DistinctIds(trades) && i < |Queue(trades, measured)| && p < |trades| && Queue(trades, measured)[i] == trades[p]
    ensures Blockers(Queue(trades, measured), i, Usable(round)) == |InTheWay(trades, measured, round, p)|
  {
    var front := StandBefore(Queue(trades, measured), i, round);
    QueueKeepsDistinct(trades, measured);
    FilterKeepsDistinct(Queue(trades, measured)[..i], Not(Usable(round)));
    IdsCounted(front);
    forall id | id in IdsOf(front) ensures id in InTheWay(trades, measured, round, p) {
      var k :| 0 <= k < |front| && front[k].id == id;
      BlockerIsInTheWay(trades, measured, round, i, p, front[k]);
    }
    forall id | id in InTheWay(trades, measured, round, p) ensures id in IdsOf(front) {
      var q :| 0 <= q < |trades| && Newer(trades, measured, q, p) && !round.measure(trades[q]).Enriched? && trades[q].id == id;
      InTheWayIsBlocker(trades, measured, round, i, p, q);
      var k :| 0 <= k < |front| && front[k] == trades[q];
    }
    assert IdsOf(front) == InTheWay(trades, measured, round, p);
  }

  /**
   A waiting position that can be measured is measured by some sync, exactly if fewer than a sync's share of waiting
   positions that cannot be measured closed after it, or with it and come earlier.
   */
  lemma MeasuredEventually(table: Table, account: int, trades: seq<Trade>, round: Round, limit: nat, p: nat)
    requires DistinctIds(trades) && Steady(round, limit, trades)
    requires p < |trades| && ToMeasure(trades[p], Measured(table, account)) && round.measure(trades[p]).Enriched?
    ensures (exists n: nat :: MeasuredAfter(table, account, trades, round, n, trades[p].id))
            <==> |InTheWay(trades, Measured(table, account), round, p)| < limit
  {
    var queue := Queue(trades, Measured(table, account));
    QueueMembers(trades, Measured(table, account));
    assert trades[p] in queue;
    var i :| 0 <= i < |queue| && queue[i] == trades[p];
    MeasuredFromQueue(table, account, trades, round, limit, i);
    BlockersAreInTheWay(trades, Measured(table, account), round, i, p);
  }

  lemma AllOfQueueInTime(table: Table, account: int, trades: seq<Trade>, round: Round, limit: nat, n: nat)
    requires DistinctIds(trades) && Steady(round, limit, trades)
    requires forall t :: t in Queue(trades, Measured(table, account)) ==> Usable(round)(t)
    ensures (forall t :: t in Queue(trades, Measured(table, account)) ==> MeasuredAfter(table, account, trades, round, n, t.id))
       <==> n * limit >= |Queue(trades, Measured(table, account))|
  {
    var queue := Queue(trades, Measured(table, account));
    SharesLeave(queue, limit, Usable(round), n);
    forall t | t in queue ensures MeasuredAfter(table, account, trades, round, n, t.id)
                             <==> t !in Steps(queue, limit, Usable(round), n) {
      MeasuredIsGone(table, account, trades, round, limit, n, t);
    }
    if n * limit < |queue| {
      var last := queue[|queue| - 1];
      assert last in queue && queue[n * limit..][|queue| - 1 - n * limit] == last;
    }
  }

  /** When every waiting position can be measured, all of them are exactly once the shares add up to their number. */
  lemma AllMeasuredInTime(table: Table, account: int, trades: seq<Trade>, round: Round, limit: nat, n: nat)
    requires DistinctIds(trades) && Steady(round, limit, trades)
    requires forall t :: t in trades && ToMeasure(t, Measured(table, account)) ==> round.measure(t).Enriched?
    ensures (forall t :: t in trades && ToMeasure(t, Measured(table, account)) ==>
               MeasuredAfter(table, account, trades, round, n, t.id))
       <==> n * limit >= |set t | t in trades && ToMeasure(t, Measured(table, account))|
  {
    QueueMembers(trades, Measured(table, account));
    QueueCounted(trades, Measured(table, account));
    AllOfQueueInTime(table, account, trades, round, limit, n);
  }

  lemma QueueCounted(trades: seq<Trade>, measured: set<int>)
    requires DistinctIds(trades)
    ensures |Queue(trades, measured)| == |set t | t in trades && ToMeasure(t, measured)|
  {
    var queue := Queue(trades, measured);
    QueueMembers(trades, measured);
    QueueKeepsDistinct(trades, measured);
    DistinctCounted(queue);
    assert (set t | t in queue) == set t | t in trades && ToMeasure(t, measured);
  }

  lemma {:induction false} DistinctCounted(s: seq<Trade>)
    requires DistinctIds(s)
    ensures |set t | t in s| == |s|
  {
    if s != [] {
      var front, last := s[..|s| - 1], s[|s| - 1];
      DistinctCounted(front);
      assert s == front + [last];
      assert (set t | t in s) == (set t | t in front) + {last};
    }
  }
}
