/** Measuring closed positions against their candles: newest first, rationed, and giving up on symbols that fail. */
module Enrichment {
  import opened Excursion
  import opened Protocol
  import opened Segments

  class FXPosition {
    const trade: Trade
    var mae: Option<real>
    var mfe: Option<real>
    var rr: Option<real>
    var rrPlanned: Option<real>

    constructor (trade: Trade)
      ensures this.trade == trade
      ensures mae == mfe == rr == rrPlanned == None
    {
      this.trade := trade;
      mae, mfe, rr, rrPlanned := None, None, None, None;
    }

    method ApplyRR(unit: Option<real>)
      modifies this`rr, this`rrPlanned
      ensures rrPlanned == if RRPlanned(trade).Some? then RRPlanned(trade) else old(rrPlanned)
      ensures rr == if RR(trade, unit).Some? then RR(trade, unit) else old(rr)
    {
      if !Present(trade.sl) || trade.entryPrice == 0.0 {
        return;
      }
      var riskPrice := RiskPrice(trade);
      if riskPrice == 0.0 {
        return;
      }
      if Present(trade.tp) {
        rrPlanned := Some(Excursion.Abs(trade.tp.value - trade.entryPrice) / riskPrice);
      }
      if unit.None? {
        return;
      }
      var riskMoney := riskPrice * unit.value;
      assert riskMoney == RiskMoney(trade, unit.value);
      if riskMoney > 0.0 {
        rr := Some(trade.netPnl / riskMoney);
      }
    }

    method ApplyMaeMfe(high: real, low: real, unit: Option<real>) returns (measured: bool)
      modifies this`mae, this`mfe
      ensures measured <==> unit.Some? && Accepted(trade, high, low)
      ensures measured ==> mae == Some(Worst(trade, high, low, unit.value)) && mfe == Some(Best(trade, high, low, unit.value))
      ensures !measured ==> mae == old(mae) && mfe == old(mfe)
    {
      if unit.None? {
        return false;
      }
      var tradedLow := Min(trade.entryPrice, trade.exitPrice);
      var tradedHigh := Max(trade.entryPrice, trade.exitPrice);
      var slack := tradedHigh * 0.01;
      if low > tradedHigh + slack || high < tradedLow - slack {
        return false;
      }
      var top, bottom := Max(high, tradedHigh), Min(low, tradedLow);
      assert top == Top(trade, high) && bottom == Bottom(trade, low);
      if trade.long {
        assert bottom - trade.entryPrice == WorstMove(trade, high, low);
        assert top - trade.entryPrice == BestMove(trade, high, low);
        mae := Some(Min(0.0, Worth(bottom - trade.entryPrice, unit.value)));
        mfe := Some(Max(0.0, Worth(top - trade.entryPrice, unit.value)));
      } else {
        assert trade.entryPrice - top == WorstMove(trade, high, low);
        assert trade.entryPrice - bottom == BestMove(trade, high, low);
        mae := Some(Min(0.0, Worth(trade.entryPrice - top, unit.value)));
        mfe := Some(Max(0.0, Worth(trade.entryPrice - bottom, unit.value)));
      }
      return true;
    }
  }

  // Fetching a position's candles.

  /** What one fetch comes to: bars, an error, or an error that says the terminal is gone. */
  datatype Fetch = Bars(candles: seq<Candle>) | Failure | Lost

  type Fetcher = (string, Segment) -> Fetch

  /** The bars of all segments in turn, or the first error. */
  function Gather(pair: string, segments: seq<Segment>, fetch: Fetcher): Fetch {
    if segments == [] then Bars([])
    else
      var before := Gather(pair, segments[..|segments| - 1], fetch);
      if !before.Bars? then before
      else
        var last := fetch(pair, segments[|segments| - 1]);
        if last.Bars? then Bars(before.candles + last.candles) else last
  }

  lemma {:induction false} GatherStops(pair: string, segments: seq<Segment>, fetch: Fetcher, k: nat)
    requires k <= |segments| && !Gather(pair, segments[..k], fetch).Bars?
    ensures Gather(pair, segments, fetch) == Gather(pair, segments[..k], fetch)
  {
    if k == |segments| {
      assert segments[..k] == segments;
    } else {
      assert segments[..|segments| - 1][..k] == segments[..k];
      GatherStops(pair, segments[..|segments| - 1], fetch, k);
    }
  }

  predicate Closed(t: Trade) { t.closedAt.Some? && t.createdAt.Some? && t.pair != "" }

  function CandlesOf(t: Trade, fetch: Fetcher): Fetch
    requires Closed(t)
  {
    Gather(t.pair, SegmentsOf(t.createdAt.value, t.closedAt.value), fetch)
  }

  method FetchAll(t: Trade, fetch: Fetcher) returns (got: Fetch)
    requires Closed(t)
    ensures got == CandlesOf(t, fetch)
  {
    var segments := Split(t.createdAt.value, t.closedAt.value);
    var candles: seq<Candle> := [];
    for i := 0 to |segments|
      invariant Gather(t.pair, segments[..i], fetch) == Bars(candles)
    {
      assert segments[..i + 1][..i] == segments[..i];
      var part := fetch(t.pair, segments[i]);
      if !part.Bars? {
        GatherStops(t.pair, segments, fetch, i + 1);
        return part;
      }
      candles := candles + part.candles;
    }
    assert segments[..|segments|] == segments;
    return Bars(candles);
  }

  // Where each position ends.

  datatype Fate = Enriched | Rejected | Empty | Failed | Skipped | Deferred | Raised | Unreached
  {
    /** The symbol's candles came. */
    predicate Came() { Enriched? || Rejected? || Empty? }
  }

  const SYMBOL_FAILURE_LIMIT: nat := 3

  /** Adverse and favourable excursion, as a position shows them. */
  type Fields = (Option<real>, Option<real>)

  /** What a pass over the queue goes by: the fate and the excursions each position would have, the allowance, the time. */
  datatype Round = Round(measure: Trade -> Fate, excursions: Trade -> Fields, limit: Option<nat>, late: nat -> bool)

  function Measure(t: Trade, fetch: Fetcher, all: seq<Trade>): (f: Fate)
    requires Closed(t)
    ensures !f.Skipped? && !f.Deferred? && !f.Unreached?
  {
    match CandlesOf(t, fetch)
    case Failure => Failed
    case Lost => Raised
    case Bars(candles) =>
      if candles == [] then Empty
      else if UnitIn(t, all).Some? && Accepted(t, HighOf(candles), LowOf(candles)) then Enriched
      else Rejected
  }

  /** The excursions a position's candles give it. */
  function Excursions(t: Trade, fetch: Fetcher, all: seq<Trade>): (fields: Fields)
    requires Closed(t) && Measure(t, fetch, all).Enriched?
    ensures fields.0.Some? && fields.1.Some?
  {
    var candles, unit := CandlesOf(t, fetch).candles, UnitIn(t, all).value;
    (Some(Worst(t, HighOf(candles), LowOf(candles), unit)), Some(Best(t, HighOf(candles), LowOf(candles), unit)))
  }

  function MeasureBy(fetch: Fetcher, all: seq<Trade>): Trade -> Fate {
    (t: Trade) => if Closed(t) then Measure(t, fetch, all) else Empty
  }

  function ExcursionsBy(fetch: Fetcher, all: seq<Trade>): Trade -> Fields {
    (t: Trade) => if Closed(t) && Measure(t, fetch, all).Enriched? then Excursions(t, fetch, all) else (None, None)
  }

  /** A pass that fetches candles, among all positions of the account. */
  function RoundFor(fetch: Fetcher, all: seq<Trade>, limit: Option<nat>, late: nat -> bool): Round {
    Round(MeasureBy(fetch, all), ExcursionsBy(fetch, all), limit, late)
  }

  /** Measuring a position neither skips nor defers it, and an enriched one gets an excursion. */
  ghost predicate Sound(round: Round) {
    && (forall t :: !round.measure(t).Skipped? && !round.measure(t).Deferred? && !round.measure(t).Unreached?)
    && (forall t :: round.measure(t).Enriched? ==> round.excursions(t).0.Some?)
  }

  /** The candles of a position come exactly if the bars of each of its segments do; the first that does not decides. */
  lemma {:induction false} GatherExactly(pair: string, segments: seq<Segment>, fetch: Fetcher)
    ensures Gather(pair, segments, fetch).Bars? <==> forall i :: 0 <= i < |segments| ==> fetch(pair, segments[i]).Bars?
    ensures !Gather(pair, segments, fetch).Bars? ==>
              exists i :: && 0 <= i < |segments| && Gather(pair, segments, fetch) == fetch(pair, segments[i])
                          && forall j :: 0 <= j < i ==> fetch(pair, segments[j]).Bars?
    ensures Gather(pair, segments, fetch).Bars? ==>
              forall c :: c in Gather(pair, segments, fetch).candles <==>
                          exists i :: 0 <= i < |segments| && c in fetch(pair, segments[i]).candles
  {
    if segments != [] {
      GatherExactly(pair, segments[..|segments| - 1], fetch);
    }
  }

  /** How a position ends: lost or failed with the first fetch that is; empty without a candle; else by what its candles say. */
  lemma MeasureExactly(t: Trade, fetch: Fetcher, all: seq<Trade>)
    requires Closed(t)
    ensures var got := CandlesOf(t, fetch);
            && (Measure(t, fetch, all).Raised? <==> got.Lost?)
            && (Measure(t, fetch, all).Failed? <==> got.Failure?)
            && (Measure(t, fetch, all).Empty? <==> got == Bars([]))
            && (Measure(t, fetch, all).Enriched? <==>
                  && got.Bars? && got.candles != [] && UnitIn(t, all).Some?
                  && var high, low := HighOf(got.candles), LowOf(got.candles);
                  var most := if t.entryPrice < t.exitPrice then t.exitPrice else t.entryPrice;
                  var least := if t.entryPrice < t.exitPrice then t.entryPrice else t.exitPrice;
                  low <= most + most * 0.01 && high >= least - most * 0.01)
  {
  }

  lemma RoundForIsSound(fetch: Fetcher, all: seq<Trade>, limit: Option<nat>, late: nat -> bool)
    ensures Sound(RoundFor(fetch, all, limit, late))
  {
  }

  /** The failures of a symbol since its candles last came. */
  function Trail(queue: seq<Trade>, fates: seq<Fate>, pair: string): (trail: seq<nat>)
    requires |fates| <= |queue|
    ensures forall k :: 0 <= k < |trail| ==> trail[k] < |fates|
  {
    if fates == [] then []
    else
      var i := |fates| - 1;
      var before := Trail(queue, fates[..i], pair);
      if queue[i].pair != pair then before
      else if fates[i].Came() then []
      else if fates[i].Failed? then before + [i]
      else before
  }

  predicate Abandoned(queue: seq<Trade>, fates: seq<Fate>, pair: string)
    requires |fates| <= |queue|
  {
    |Trail(queue, fates, pair)| >= SYMBOL_FAILURE_LIMIT
  }

  function NextFate(queue: seq<Trade>, fates: seq<Fate>, round: Round): Fate
    requires |fates| < |queue|
  {
    var i := |fates|;
    if i > 0 && (fates[i - 1].Raised? || fates[i - 1].Unreached?) then Unreached
    else if round.limit.Some? && i >= round.limit.value then Deferred
    else if (i > 0 && fates[i - 1].Deferred?) || round.late(i) then Deferred
    else if Abandoned(queue, fates, queue[i].pair) then Skipped
    else round.measure(queue[i])
  }

  function Fates(queue: seq<Trade>, n: nat, round: Round): (fates: seq<Fate>)
    requires n <= |queue|
    ensures |fates| == n
  {
    if n == 0 then []
    else
      var before := Fates(queue, n - 1, round);
      before + [NextFate(queue, before, round)]
  }

  lemma {:induction false} FatesGrow(queue: seq<Trade>, k: nat, n: nat, round: Round)
    requires k <= n <= |queue|
    ensures Fates(queue, n, round)[..k] == Fates(queue, k, round)
  {
    if k < n {
      FatesGrow(queue, k, n - 1, round);
      assert Fates(queue, n, round)[..k] == Fates(queue, n - 1, round)[..k];
    }
  }

  lemma FateAt(queue: seq<Trade>, k: nat, n: nat, round: Round)
    requires k < n <= |queue|
    ensures Fates(queue, n, round)[k] == NextFate(queue, Fates(queue, k, round), round)
  {
    FatesGrow(queue, k + 1, n, round);
    assert Fates(queue, n, round)[k] == Fates(queue, n, round)[..k + 1][k];
  }

  // Giving a symbol up.

  /** A fetch of the symbol that failed, and no fetch of it came since. */
  predicate FailedSince(queue: seq<Trade>, fates: seq<Fate>, pair: string, i: nat)
    requires |fates| <= |queue|
  {
    && i < |fates| && fates[i].Failed? && queue[i].pair == pair
    && forall j :: i < j < |fates| && queue[j].pair == pair ==>
         !fates[j].Enriched? && !fates[j].Rejected? && !fates[j].Empty?
  }

  lemma {:induction false} TrailHolds(queue: seq<Trade>, fates: seq<Fate>, pair: string, i: nat)
    requires |fates| <= |queue|
    ensures i in Trail(queue, fates, pair) <==> FailedSince(queue, fates, pair, i)
  {
    if fates != [] {
      var last := |fates| - 1;
      TrailHolds(queue, fates[..last], pair, i);
    }
  }

  lemma {:induction false} TrailIncreases(queue: seq<Trade>, fates: seq<Fate>, pair: string)
    requires |fates| <= |queue|
    ensures forall j, k :: 0 <= j < k < |Trail(queue, fates, pair)| ==>
              Trail(queue, fates, pair)[j] < Trail(queue, fates, pair)[k]
  {
    if fates != [] {
      TrailIncreases(queue, fates[..|fates| - 1], pair);
    }
  }

  /** Three fetches of the symbol failed before this point with none coming in between or since. */
  ghost predicate ThreeInARow(queue: seq<Trade>, fates: seq<Fate>, pair: string)
    requires |fates| <= |queue|
  {
    exists i: nat, j: nat, k: nat ::
      && i < j < k
      && FailedSince(queue, fates, pair, i) && FailedSince(queue, fates, pair, j) && FailedSince(queue, fates, pair, k)
  }

  lemma AbandonedIsThree(queue: seq<Trade>, fates: seq<Fate>, pair: string)
    requires |fates| <= |queue|
    ensures Abandoned(queue, fates, pair) <==> ThreeInARow(queue, fates, pair)
  {
    var trail := Trail(queue, fates, pair);
    TrailIncreases(queue, fates, pair);
    if |trail| >= 3 {
      TrailHolds(queue, fates, pair, trail[0]);
      TrailHolds(queue, fates, pair, trail[1]);
      TrailHolds(queue, fates, pair, trail[2]);
    }
    if ThreeInARow(queue, fates, pair) {
      var i: nat, j: nat, k: nat :|
        && i < j < k
        && FailedSince(queue, fates, pair, i) && FailedSince(queue, fates, pair, j) && FailedSince(queue, fates, pair, k);
      TrailHolds(queue, fates, pair, i);
      TrailHolds(queue, fates, pair, j);
      TrailHolds(queue, fates, pair, k);
      ThreeMembers(trail, i, j, k);
    }
  }

  lemma ThreeMembers(s: seq<nat>, i: nat, j: nat, k: nat)
    requires i in s && j in s && k in s && i < j < k
    ensures |s| >= 3
  {
  }

  /** A position is skipped exactly when three fetches of its symbol have failed in a row, and so none is made again. */
  lemma SkippedExactlyAfterThree(queue: seq<Trade>, round: Round, m: nat)
    requires m < |queue| && Sound(round)
    ensures var fates := Fates(queue, |queue|, round);
            fates[m].Skipped? <==>
              !fates[m].Deferred? && !fates[m].Unreached? && ThreeInARow(queue, fates[..m], queue[m].pair)
  {
    FateAt(queue, m, |queue|, round);
    FatesGrow(queue, m, |queue|, round);
    AbandonedIsThree(queue, Fates(queue, m, round), queue[m].pair);
  }
}
