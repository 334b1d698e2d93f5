/** What the enrichment loop guarantees: every position accounted for, true extremes, and which positions it ever reaches. */
module EnrichmentTheorems {
  import opened Enrichment
  import opened EnrichmentRun
  import opened Excursion
  import opened Lists
  import opened Protocol
  import opened Segments

  // Accounting.

  lemma {:induction false} NoneUnreached(queue: seq<Trade>, n: nat, round: Round)
    requires n <= |queue| && Sound(round)
    requires Raised !in Fates(queue, n, round)
    ensures forall k :: 0 <= k < n ==> !Fates(queue, n, round)[k].Unreached?
  {
    if n > 0 {
      var before := Fates(queue, n - 1, round);
      assert Fates(queue, n, round) == before + [NextFate(queue, before, round)];
      NoneUnreached(queue, n - 1, round);
    }
  }

  /** Unless a fetch loses the terminal, each position to measure ends in exactly one of six ways. */
  lemma EveryPositionAccounted(trades: seq<Trade>, measured: set<int>, round: Round, report: Report,
                               now: seq<Fields>, was: seq<Fields>)
    requires Finished(report, now, Queue(trades, measured), was, round) && report.Done? && Sound(round)
    ensures var queue := Queue(trades, measured);
            var fates := Fates(queue, |queue|, round);
            && report.enriched + report.rejected + report.skipped + report.deferred
               + CountOf(fates, Empty) + CountOf(fates, Failed) == |queue| == |Filter(trades, Unmeasured(measured))|
            && (round.limit.Some? ==> |queue| - report.deferred <= round.limit.value)
  {
    var queue := Queue(trades, measured);
    var fates := Fates(queue, |queue|, round);
    NoneUnreached(queue, |queue|, round);
    CountsAddUp(fates);
    NoneCounted(fates, Raised);
    NoneCounted(fates, Unreached);
    if round.limit.Some? {
      Rationed(queue, |queue|, round);
    }
  }

  lemma {:induction false} Rationed(queue: seq<Trade>, n: nat, round: Round)
    requires n <= |queue|
    requires Sound(round) && round.limit.Some? && Raised !in Fates(queue, n, round)
    ensures n - CountOf(Fates(queue, n, round), Deferred) <= round.limit.value
  {
    if n > round.limit.value {
      var before := Fates(queue, n - 1, round);
      assert Fates(queue, n, round) == before + [NextFate(queue, before, round)];
      Rationed(queue, n - 1, round);
      NoneUnreached(queue, n - 1, round);
      assert NextFate(queue, before, round).Deferred?;
      CountEnd(before, Deferred, Deferred);
    }
  }

  /**
   What the loop does not reach: everything after a fetch that lost the terminal; and, before one does, everything from the
   limit on and from the moment the time was up. What it reaches and does not skip is measured.
   */
  lemma {:induction false} StopsExactly(queue: seq<Trade>, round: Round, m: nat)
    requires m < |queue| && Sound(round)
    ensures var fates := Fates(queue, |queue|, round);
            var lost := exists r :: 0 <= r < m && fates[r].Raised?;
            && (fates[m].Unreached? <==> lost)
            && (fates[m].Deferred? <==>
                  !lost && ((round.limit.Some? && m >= round.limit.value) || exists k: nat :: k <= m && round.late(k)))
            && (!fates[m].Unreached? && !fates[m].Deferred? && !fates[m].Skipped? ==> fates[m] == round.measure(queue[m]))
  {
    var fates := Fates(queue, |queue|, round);
    FateAt(queue, m, |queue|, round);
    FatesGrow(queue, m, |queue|, round);
    if m > 0 {
      StopsExactly(queue, round, m - 1);
      assert fates[..m][m - 1] == fates[m - 1];
    }
  }

  // True extremes.

  ghost predicate SameBars(candles: seq<Candle>, bars: set<Candle>) { forall c :: c in candles <==> c in bars }

  /** Bars that come are all the bars the terminal holds for the segment, and no others. */
  ghost predicate TrueTo(fetch: Fetcher, pair: string, market: Market) {
    forall segment {:trigger fetch(pair, segment)} ::
      fetch(pair, segment).Bars? ==> SameBars(fetch(pair, segment).candles, Fetched(market, segment))
  }

  lemma AllFetchedGrows(before: seq<Candle>, part: seq<Candle>, market: Market, front: seq<Segment>, last: Segment)
    requires AllFetched(before, market, front) && SameBars(part, Fetched(market, last))
    ensures AllFetched(before + part, market, front + [last])
  {
    var segments := front + [last];
    forall c | c in before + part ensures exists i :: 0 <= i < |segments| && c in Fetched(market, segments[i]) {
      if c in before {
        var i :| 0 <= i < |front| && c in Fetched(market, front[i]);
        assert c in Fetched(market, segments[i]);
      } else {
        assert c in Fetched(market, segments[|front|]);
      }
    }
    forall i, c | 0 <= i < |segments| && c in Fetched(market, segments[i]) ensures c in before + part {
      if i < |front| {
        assert c in Fetched(market, front[i]);
      }
    }
  }

  lemma {:induction false} GatheredIsAll(pair: string, segments: seq<Segment>, fetch: Fetcher, market: Market)
    requires TrueTo(fetch, pair, market) && Gather(pair, segments, fetch).Bars?
    ensures AllFetched(Gather(pair, segments, fetch).candles, market, segments)
  {
    if segments != [] {
      var front, last := segments[..|segments| - 1], segments[|segments| - 1];
      GatheredIsAll(pair, front, fetch, market);
      AllFetchedGrows(Gather(pair, front, fetch).candles, fetch(pair, last).candles, market, front, last);
      assert segments == front + [last];
    }
  }

  /** The excursions the highest and the lowest price of some bars give a position. */
  ghost predicate TrueExcursions(t: Trade, unit: real, bars: set<Candle>, fields: Fields) {
    exists high, low ::
      IsHigh(high, bars) && IsLow(low, bars) && fields == (Some(Worst(t, high, low, unit)), Some(Best(t, high, low, unit)))
  }

  /** An enriched position's excursions are those of the true extremes of its life, minute by minute. */
  lemma ExcursionsAreTrue(t: Trade, fetch: Fetcher, all: seq<Trade>, market: Market)
    requires Closed(t) && Measure(t, fetch, all).Enriched?
    requires Consistent(market) && TrueTo(fetch, t.pair, market)
    ensures UnitIn(t, all).Some?
    ensures TrueExcursions(t, UnitIn(t, all).value, MinuteBarsWithin(market, t.createdAt.value, t.closedAt.value),
                           Excursions(t, fetch, all))
  {
    var candles := CandlesOf(t, fetch).candles;
    GatheredIsAll(t.pair, SegmentsOf(t.createdAt.value, t.closedAt.value), fetch, market);
    ExtremesKept(market, t.createdAt.value, t.closedAt.value, candles);
    var high, low := HighOf(candles), LowOf(candles);
    assert IsHigh(high, MinuteBarsWithin(market, t.createdAt.value, t.closedAt.value));
    assert IsLow(low, MinuteBarsWithin(market, t.createdAt.value, t.closedAt.value));
  }
}
