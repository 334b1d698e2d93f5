/** The enrichment loop, its counters and the position fields it writes. */
module EnrichmentRun {
  import opened Enrichment
  import opened Excursion
  import opened Lists
  import opened Protocol
  import opened Segments

  datatype Report =
    | Done(enriched: nat, rejected: nat, skipped: nat, deferred: nat, abandoned: set<string>)
    | TerminalLost

  function NewestFirst(t: Trade): Key { (if t.closedAt.Some? then -t.closedAt.value else 0, 0) }

  function Unmeasured(measured: set<int>): Trade -> bool { (t: Trade) => Closed(t) && t.id !in measured }

  /** The positions to measure, the most recently closed first. */
  function Queue(trades: seq<Trade>, measured: set<int>): seq<Trade> {
    Sort(Filter(trades, Unmeasured(measured)), NewestFirst)
  }

  lemma QueueMembers(trades: seq<Trade>, measured: set<int>)
    ensures forall t :: t in Queue(trades, measured) <==> t in trades && Closed(t) && t.id !in measured
  {
    var eligible := Filter(trades, Unmeasured(measured));
    forall t ensures t in Queue(trades, measured) <==> t in trades && Closed(t) && t.id !in measured {
      SortMembers(eligible, NewestFirst, t);
      FilterMembers(trades, Unmeasured(measured), t);
    }
  }

  /** The position is closed, its life is known, and nothing is measured of it yet. */
  predicate ToMeasure(t: Trade, measured: set<int>) {
    t.closedAt.Some? && t.createdAt.Some? && t.pair != "" && t.id !in measured
  }

  function ClosedAt(at: int): Trade -> bool { (t: Trade) => t.closedAt == Some(at) }

  function ToMeasureSince(measured: set<int>, at: int): Trade -> bool {
    (t: Trade) => ToMeasure(t, measured) && t.closedAt == Some(at)
  }

  /** These are the positions waiting to be measured: the later closed come first, and those of one moment as they came. */
  ghost predicate NewestFirstOf(queue: seq<Trade>, trades: seq<Trade>, measured: set<int>) {
    && (forall t :: t in queue <==> t in trades && ToMeasure(t, measured))
    && (forall i, j :: 0 <= i < j < |queue| ==>
          queue[i].closedAt.Some? && queue[j].closedAt.Some? && queue[i].closedAt.value >= queue[j].closedAt.value)
    && (forall at :: Filter(queue, ClosedAt(at)) == Filter(trades, ToMeasureSince(measured, at)))
  }

  lemma QueueIsNewestFirst(trades: seq<Trade>, measured: set<int>)
    ensures NewestFirstOf(Queue(trades, measured), trades, measured)
  {
    var queue, eligible := Queue(trades, measured), Filter(trades, Unmeasured(measured));
    QueueMembers(trades, measured);
    SortSorts(eligible, NewestFirst);
    forall i, j | 0 <= i < j < |queue|
      ensures queue[i].closedAt.Some? && queue[j].closedAt.Some? && queue[i].closedAt.value >= queue[j].closedAt.value
    {
      assert queue[i] in queue && queue[j] in queue;
      assert KeyLe(NewestFirst(queue[i]), NewestFirst(queue[j]));
    }
    forall at ensures Filter(queue, ClosedAt(at)) == Filter(trades, ToMeasureSince(measured, at)) {
      TiesStay(trades, measured, at);
    }
  }

  lemma TiesStay(trades: seq<Trade>, measured: set<int>, at: int)
    ensures Filter(Queue(trades, measured), ClosedAt(at)) == Filter(trades, ToMeasureSince(measured, at))
  {
    var eligible := Filter(trades, Unmeasured(measured));
    SortFilter(eligible, NewestFirst, ClosedAt(at));
    SortedStays(Filter(eligible, ClosedAt(at)), NewestFirst);
    FilterTwice(trades, Unmeasured(measured), ClosedAt(at), ToMeasureSince(measured, at));
  }

  function CountOf(fates: seq<Fate>, f: Fate): nat {
    if fates == [] then 0 else CountOf(fates[..|fates| - 1], f) + if fates[|fates| - 1] == f then 1 else 0
  }

  /** Every position has one fate, so the counts of all fates add up to the positions. */
  lemma {:induction false} CountsAddUp(fates: seq<Fate>)
    ensures CountOf(fates, Enriched) + CountOf(fates, Rejected) + CountOf(fates, Empty) + CountOf(fates, Failed)
          + CountOf(fates, Skipped) + CountOf(fates, Deferred) + CountOf(fates, Raised) + CountOf(fates, Unreached)
         == |fates|
  {
    if fates != [] {
      CountsAddUp(fates[..|fates| - 1]);
    }
  }

  lemma CountEnd(fates: seq<Fate>, f: Fate, last: Fate)
    ensures CountOf(fates + [last], f) == CountOf(fates, f) + if last == f then 1 else 0
  {
    assert (fates + [last])[..|fates|] == fates;
  }

  // The objects and their trades.

  function TradesOf(positions: seq<FXPosition>): (trades: seq<Trade>)
    ensures |trades| == |positions|
    ensures forall i :: 0 <= i < |positions| ==> trades[i] == positions[i].trade
  {
    seq(|positions|, i requires 0 <= i < |positions| => positions[i].trade)
  }

  function ObjectKey(p: FXPosition): Key { NewestFirst(p.trade) }

  function ObjectUnmeasured(measured: set<int>): FXPosition -> bool {
    (p: FXPosition) => Closed(p.trade) && p.trade.id !in measured
  }

  lemma {:induction false} FilterTrades(positions: seq<FXPosition>, measured: set<int>)
    ensures TradesOf(Filter(positions, ObjectUnmeasured(measured))) == Filter(TradesOf(positions), Unmeasured(measured))
  {
    if positions != [] {
      FilterTrades(positions[..|positions| - 1], measured);
      assert TradesOf(positions)[..|positions| - 1] == TradesOf(positions[..|positions| - 1]);
    }
  }

  lemma TradesEnd(front: seq<FXPosition>, p: FXPosition)
    ensures TradesOf(front + [p]) == TradesOf(front) + [p.trade]
  {
  }

  lemma {:induction false} PlaceTrades(sorted: seq<FXPosition>, p: FXPosition)
    ensures TradesOf(Place(sorted, p, ObjectKey)) == Place(TradesOf(sorted), p.trade, NewestFirst)
  {
    if sorted != [] {
      var front, last := sorted[..|sorted| - 1], sorted[|sorted| - 1];
      assert sorted == front + [last];
      TradesEnd(front, last);
      if KeyLe(ObjectKey(last), ObjectKey(p)) {
        TradesEnd(sorted, p);
      } else {
        PlaceTrades(front, p);
        TradesEnd(Place(front, p, ObjectKey), last);
        PlaceBeforeLast(TradesOf(front), last.trade, p.trade, NewestFirst);
      }
    }
  }

  lemma {:induction false} SortTrades(positions: seq<FXPosition>)
    ensures TradesOf(Sort(positions, ObjectKey)) == Sort(TradesOf(positions), NewestFirst)
  {
    if positions != [] {
      SortTrades(positions[..|positions| - 1]);
      PlaceTrades(Sort(positions[..|positions| - 1], ObjectKey), positions[|positions| - 1]);
      assert TradesOf(positions)[..|positions| - 1] == TradesOf(positions[..|positions| - 1]);
    }
  }

  predicate Distinct(positions: seq<FXPosition>) {
    forall i, j :: 0 <= i < j < |positions| ==> positions[i] != positions[j]
  }

  lemma {:induction false} FilterDistinct(positions: seq<FXPosition>, keep: FXPosition -> bool)
    requires Distinct(positions)
    ensures Distinct(Filter(positions, keep))
  {
    if positions != [] {
      FilterDistinct(positions[..|positions| - 1], keep);
    }
  }

  lemma {:induction false} PlaceDistinct(sorted: seq<FXPosition>, p: FXPosition)
    requires Distinct(sorted) && p !in sorted
    ensures Distinct(Place(sorted, p, ObjectKey))
  {
    if sorted != [] && !KeyLe(ObjectKey(sorted[|sorted| - 1]), ObjectKey(p)) {
      var front, last := sorted[..|sorted| - 1], sorted[|sorted| - 1];
      PlaceDistinct(front, p);
      assert last !in Place(front, p, ObjectKey) by {
        assert last in Place(front, p, ObjectKey) <==> last in multiset(Place(front, p, ObjectKey));
      }
    }
  }

  lemma {:induction false} SortDistinct(positions: seq<FXPosition>)
    requires Distinct(positions)
    ensures Distinct(Sort(positions, ObjectKey))
  {
    if positions != [] {
      var front, last := positions[..|positions| - 1], positions[|positions| - 1];
      SortDistinct(front);
      SortMembers(front, ObjectKey, last);
      PlaceDistinct(Sort(front, ObjectKey), last);
    }
  }

  function ObjectQueue(positions: seq<FXPosition>, measured: set<int>): seq<FXPosition> {
    Sort(Filter(positions, ObjectUnmeasured(measured)), ObjectKey)
  }

  /** These objects are the positions waiting to be measured, each once, the later closed first. */
  ghost predicate IsQueue(objects: seq<FXPosition>, positions: seq<FXPosition>, measured: set<int>) {
    && Distinct(objects)
    && (forall p :: p in objects ==> p in positions && ToMeasure(p.trade, measured))
    && (forall p :: p in positions && ToMeasure(p.trade, measured) ==> p in objects)
    && NewestFirstOf(TradesOf(objects), TradesOf(positions), measured)
  }

  lemma QueueIsTrades(positions: seq<FXPosition>, measured: set<int>)
    ensures TradesOf(ObjectQueue(positions, measured)) == Queue(TradesOf(positions), measured)
  {
    FilterTrades(positions, measured);
    SortTrades(Filter(positions, ObjectUnmeasured(measured)));
  }

  lemma QueueMember(positions: seq<FXPosition>, measured: set<int>, p: FXPosition)
    ensures p in ObjectQueue(positions, measured) <==> p in positions && ToMeasure(p.trade, measured)
  {
    SortMembers(Filter(positions, ObjectUnmeasured(measured)), ObjectKey, p);
    FilterMembers(positions, ObjectUnmeasured(measured), p);
  }

  lemma QueueDistinct(positions: seq<FXPosition>, measured: set<int>)
    requires Distinct(positions)
    ensures Distinct(ObjectQueue(positions, measured))
  {
    FilterDistinct(positions, ObjectUnmeasured(measured));
    SortDistinct(Filter(positions, ObjectUnmeasured(measured)));
  }

  lemma MakesQueue(objects: seq<FXPosition>, positions: seq<FXPosition>, measured: set<int>)
    requires Distinct(objects) && TradesOf(objects) == Queue(TradesOf(positions), measured)
    requires forall p :: p in objects ==> p in positions && ToMeasure(p.trade, measured)
    requires forall p :: p in positions && ToMeasure(p.trade, measured) ==> p in objects
    ensures IsQueue(objects, positions, measured)
  {
    var queue := TradesOf(objects);
    QueueIsNewestFirst(TradesOf(positions), measured);
    assert NewestFirstOf(queue, TradesOf(positions), measured);
  }

  /** The objects measured are those whose positions the queue lists, in its order: the later closed first. */
  lemma QueueTrades(positions: seq<FXPosition>, measured: set<int>)
    requires Distinct(positions)
    ensures TradesOf(ObjectQueue(positions, measured)) == Queue(TradesOf(positions), measured)
    ensures IsQueue(ObjectQueue(positions, measured), positions, measured)
  {
    var objects := ObjectQueue(positions, measured);
    QueueIsTrades(positions, measured);
    QueueDistinct(positions, measured);
    forall p | p in objects ensures p in positions && ToMeasure(p.trade, measured) {
      QueueMember(positions, measured, p);
    }
    forall p | p in positions && ToMeasure(p.trade, measured) ensures p in objects {
      QueueMember(positions, measured, p);
    }
    MakesQueue(objects, positions, measured);
  }

  // The counters of failures.

  function FailuresOf(failures: map<string, nat>, pair: string): nat { if pair in failures then failures[pair] else 0 }

  predicate PairTallied(failures: map<string, nat>, abandoned: set<string>, queue: seq<Trade>, fates: seq<Fate>, pair: string)
    requires |fates| <= |queue|
  {
    && FailuresOf(failures, pair) == |Trail(queue, fates, pair)|
    && (pair in abandoned <==> Abandoned(queue, fates, pair))
  }

  ghost predicate Tallied(failures: map<string, nat>, abandoned: set<string>, queue: seq<Trade>, fates: seq<Fate>)
    requires |fates| <= |queue|
  {
    forall pair :: PairTallied(failures, abandoned, queue, fates, pair)
  }

  function NextFailures(failures: map<string, nat>, pair: string, f: Fate): map<string, nat> {
    if f.Failed? then failures[pair := FailuresOf(failures, pair) + 1]
    else if f.Came() then failures - {pair}
    else failures
  }

  function NextAbandoned(abandoned: set<string>, failures: map<string, nat>, pair: string, f: Fate): set<string> {
    if f.Failed? && FailuresOf(failures, pair) + 1 >= SYMBOL_FAILURE_LIMIT then abandoned + {pair} else abandoned
  }

  lemma TrailEnd(queue: seq<Trade>, fates: seq<Fate>, f: Fate, pair: string)
    requires |fates| < |queue|
    ensures Trail(queue, fates + [f], pair)
         == if queue[|fates|].pair != pair || !(f.Came() || f.Failed?) then Trail(queue, fates, pair)
            else if f.Failed? then Trail(queue, fates, pair) + [|fates|]
            else []
  {
    assert (fates + [f])[..|fates|] == fates;
  }

  lemma TallyGrows(failures: map<string, nat>, abandoned: set<string>, queue: seq<Trade>, fates: seq<Fate>, f: Fate)
    requires |fates| < |queue| && Tallied(failures, abandoned, queue, fates)
    requires f.Came() || f.Failed? ==> queue[|fates|].pair !in abandoned
    ensures var pair := queue[|fates|].pair;
            Tallied(NextFailures(failures, pair, f), NextAbandoned(abandoned, failures, pair, f), queue, fates + [f])
  {
    var own := queue[|fates|].pair;
    var after, given := NextFailures(failures, own, f), NextAbandoned(abandoned, failures, own, f);
    var next := fates + [f];
    forall pair ensures PairTallied(after, given, queue, next, pair) {
      assert PairTallied(failures, abandoned, queue, fates, pair);
      TrailEnd(queue, fates, f, pair);
    }
  }

  // What follows once the loop has stopped.

  predicate StopsWith(queue: seq<Trade>, k: nat, round: Round, f: Fate)
    requires k < |queue|
  {
    var first := NextFate(queue, Fates(queue, k, round), round);
    (first.Deferred? && f.Deferred?) || (first.Raised? && f.Unreached?)
  }

  /** Once a position is put off, or a fetch loses the terminal, the next is not looked at either. */
  lemma GoesOn(queue: seq<Trade>, fates: seq<Fate>, round: Round, f: Fate)
    requires 0 < |fates| < |queue|
    requires var last := fates[|fates| - 1];
             (last.Deferred? && f.Deferred?) || ((last.Raised? || last.Unreached?) && f.Unreached?)
    ensures NextFate(queue, fates, round) == f
  {
  }

  /** The fates of the positions after one where the loop stopped. */
  lemma {:induction false} RestIs(queue: seq<Trade>, k: nat, n: nat, round: Round, f: Fate)
    requires k < n <= |queue|
    requires StopsWith(queue, k, round, f)
    ensures n == k + 1 ==> Fates(queue, n, round)[k] == NextFate(queue, Fates(queue, k, round), round)
    ensures n > k + 1 ==> Fates(queue, n, round)[n - 1] == f
  {
    if n > k + 1 {
      RestIs(queue, k, n - 1, round, f);
      GoesOn(queue, Fates(queue, n - 1, round), round, f);
    }
  }

  lemma RestFate(queue: seq<Trade>, k: nat, i: nat, n: nat, round: Round, f: Fate)
    requires k < i < n <= |queue|
    requires StopsWith(queue, k, round, f)
    ensures Fates(queue, n, round)[i] == f
  {
    RestIs(queue, k, i + 1, round, f);
    FatesGrow(queue, i + 1, n, round);
    assert Fates(queue, n, round)[i] == Fates(queue, n, round)[..i + 1][i];
  }

  function Repeat(f: Fate, m: nat): (fates: seq<Fate>)
    ensures |fates| == m && forall k :: 0 <= k < m ==> fates[k] == f
  {
    if m == 0 then [] else Repeat(f, m - 1) + [f]
  }

  lemma {:induction false} RestRepeats(queue: seq<Trade>, k: nat, n: nat, round: Round, f: Fate)
    requires k < n <= |queue| && StopsWith(queue, k, round, f)
    ensures Fates(queue, n, round) == Fates(queue, k + 1, round) + Repeat(f, n - k - 1)
  {
    if n > k + 1 {
      RestRepeats(queue, k, n - 1, round, f);
      RestIs(queue, k, n, round, f);
    }
  }

  lemma {:induction false} CountAppend(a: seq<Fate>, b: seq<Fate>, g: Fate)
    ensures CountOf(a + b, g) == CountOf(a, g) + CountOf(b, g)
  {
    if b == [] {
      assert a + b == a;
    } else {
      CountAppend(a, b[..|b| - 1], g);
      assert (a + b)[..|a + b| - 1] == a + b[..|b| - 1];
    }
  }

  lemma {:induction false} RepeatCounts(f: Fate, m: nat, g: Fate)
    ensures CountOf(Repeat(f, m), g) == if g == f then m else 0
  {
    if m > 0 {
      RepeatCounts(f, m - 1, g);
      CountEnd(Repeat(f, m - 1), g, f);
    }
  }

  lemma {:induction false} RepeatTrails(queue: seq<Trade>, fates: seq<Fate>, f: Fate, m: nat, pair: string)
    requires |fates| + m <= |queue| && (f.Deferred? || f.Unreached?)
    ensures Trail(queue, fates + Repeat(f, m), pair) == Trail(queue, fates, pair)
  {
    if m == 0 {
      assert fates + Repeat(f, m) == fates;
    } else {
      var shorter := fates + Repeat(f, m - 1);
      assert fates + Repeat(f, m) == shorter + [f];
      RepeatTrails(queue, fates, f, m - 1, pair);
      TrailEnd(queue, shorter, f, pair);
    }
  }

  // The loop.

  function FieldsOf(p: FXPosition): Fields
    reads p
  {
    (p.mae, p.mfe)
  }

  function Each(objects: seq<FXPosition>): set<FXPosition> { set p | p in objects }

  /** What a position's fields hold after its fate, if they held this before: only an enriched one's change. */
  function After(t: Trade, f: Fate, was: Fields, round: Round): Fields {
    if f.Enriched? then round.excursions(t) else was
  }

  method MeasureOne(p: FXPosition, rates: map<string, real>, fetch: Fetcher, ghost all: seq<Trade>) returns (f: Fate)
    requires Closed(p.trade) && Tells(rates, all)
    modifies p`mae, p`mfe
    ensures f == Measure(p.trade, fetch, all)
    ensures FieldsOf(p) == if f.Enriched? then Excursions(p.trade, fetch, all) else old(FieldsOf(p))
  {
    var got := FetchAll(p.trade, fetch);
    match got
    case Failure => return Failed;
    case Lost => return Raised;
    case Bars(candles) =>
      if candles == [] {
        return Empty;
      }
      ResolveIsUnitIn(p.trade, all, rates);
      var measured := p.ApplyMaeMfe(HighOf(candles), LowOf(candles), ResolveUnit(p.trade, rates));
      return if measured then Enriched else Rejected;
  }

  ghost predicate Counts(report: Report, queue: seq<Trade>, fates: seq<Fate>)
    requires |fates| <= |queue|
  {
    && report.Done?
    && report.enriched == CountOf(fates, Enriched)
    && report.rejected == CountOf(fates, Rejected)
    && report.skipped == CountOf(fates, Skipped)
    && report.deferred == CountOf(fates, Deferred)
    && forall pair :: pair in report.abandoned <==> Abandoned(queue, fates, pair)
  }

  /** The loop's counters. */
  datatype Progress = Progress(enriched: nat, rejected: nat, skipped: nat, failures: map<string, nat>, abandoned: set<string>)

  /** The counters after the positions whose fates are these, with the loop still running. */
  ghost predicate Tracks(progress: Progress, queue: seq<Trade>, fates: seq<Fate>)
    requires |fates| <= |queue|
  {
    && progress.enriched == CountOf(fates, Enriched)
    && progress.rejected == CountOf(fates, Rejected)
    && progress.skipped == CountOf(fates, Skipped)
    && Tallied(progress.failures, progress.abandoned, queue, fates)
    && (forall k :: 0 <= k < |fates| ==> !fates[k].Raised? && !fates[k].Deferred? && !fates[k].Unreached?)
  }

  function Advance(progress: Progress, pair: string, f: Fate): Progress {
    Progress(
      if f.Enriched? then progress.enriched + 1 else progress.enriched,
      if f.Rejected? then progress.rejected + 1 else progress.rejected,
      if f.Skipped? then progress.skipped + 1 else progress.skipped,
      NextFailures(progress.failures, pair, f),
      NextAbandoned(progress.abandoned, progress.failures, pair, f))
  }

  lemma Advances(progress: Progress, queue: seq<Trade>, fates: seq<Fate>, f: Fate)
    requires |fates| < |queue| && Tracks(progress, queue, fates)
    requires !f.Raised? && !f.Deferred? && !f.Unreached?
    requires f.Skipped? <==> queue[|fates|].pair in progress.abandoned
    ensures Tracks(Advance(progress, queue[|fates|].pair, f), queue, fates + [f])
  {
    TallyGrows(progress.failures, progress.abandoned, queue, fates, f);
    CountEnd(fates, Enriched, f);
    CountEnd(fates, Rejected, f);
    CountEnd(fates, Skipped, f);
  }

  lemma NextIs(progress: Progress, queue: seq<Trade>, fates: seq<Fate>, round: Round)
    requires |fates| < |queue| && Tracks(progress, queue, fates)
    requires !(round.limit.Some? && |fates| >= round.limit.value) && !round.late(|fates|)
    ensures NextFate(queue, fates, round)
         == if queue[|fates|].pair in progress.abandoned then Skipped
            else round.measure(queue[|fates|])
  {
    assert PairTallied(progress.failures, progress.abandoned, queue, fates, queue[|fates|].pair);
  }

  /** One turn of the loop. */
  method Visit(p: FXPosition, progress: Progress, rates: map<string, real>, fetch: Fetcher, ghost all: seq<Trade>, ghost round: Round)
    returns (f: Fate, next: Progress)
    requires Closed(p.trade) && Tells(rates, all) && round == RoundFor(fetch, all, round.limit, round.late)
    modifies p`mae, p`mfe
    ensures f == if p.trade.pair in progress.abandoned then Skipped else round.measure(p.trade)
    ensures FieldsOf(p) == After(p.trade, f, old(FieldsOf(p)), round)
    ensures !f.Raised? ==> next == Advance(progress, p.trade.pair, f)
  {
    var pair := p.trade.pair;
    if pair in progress.abandoned {
      return Skipped, progress.(skipped := progress.skipped + 1);
    }
    f := MeasureOne(p, rates, fetch, all);
    next := progress;
    if f.Failed? {
      next := next.(failures := next.failures[pair := FailuresOf(next.failures, pair) + 1]);
      if next.failures[pair] >= SYMBOL_FAILURE_LIMIT {
        next := next.(abandoned := next.abandoned + {pair});
      }
    } else if !f.Raised? {
      next := next.(failures := next.failures - {pair});
      if f.Enriched? {
        next := next.(enriched := next.enriched + 1);
      } else if f.Rejected? {
        next := next.(rejected := next.rejected + 1);
      }
    }
  }

  /** The loop ran out of positions, of its allowance or of time. */
  predicate StopsHere(queue: seq<Trade>, i: nat, round: Round) {
    i < |queue| ==> (round.limit.Some? && i >= round.limit.value) || round.late(i)
  }

  /** From there on every position is put off. */
  lemma DeferredFrom(queue: seq<Trade>, i: nat, round: Round)
    requires i < |queue| && StopsHere(queue, i, round)
    requires forall k :: 0 <= k < i ==> !Fates(queue, i, round)[k].Raised? && !Fates(queue, i, round)[k].Unreached?
    ensures Fates(queue, |queue|, round) == Fates(queue, i, round) + Repeat(Deferred, |queue| - i)
  {
    var fates := Fates(queue, i, round);
    assert NextFate(queue, fates, round).Deferred?;
    RestRepeats(queue, i, |queue|, round, Deferred);
    assert Fates(queue, i + 1, round) == fates + [Deferred];
    RepeatFirst(Deferred, |queue| - i);
    assert fates + ([Deferred] + Repeat(Deferred, |queue| - i - 1)) == (fates + [Deferred]) + Repeat(Deferred, |queue| - i - 1);
  }

  lemma RepeatFirst(f: Fate, m: nat)
    requires m > 0
    ensures Repeat(f, m) == [f] + Repeat(f, m - 1)
  {
  }

  lemma StopsAt(queue: seq<Trade>, i: nat, round: Round, progress: Progress)
    requires i <= |queue|
    requires Tracks(progress, queue, Fates(queue, i, round)) && StopsHere(queue, i, round)
    ensures var all := Fates(queue, |queue|, round);
            && Counts(DoneWith(progress, |queue| - i), queue, all)
            && Raised !in all
            && (forall k :: i <= k < |queue| ==> all[k].Deferred?)
  {
    var fates, all := Fates(queue, i, round), Fates(queue, |queue|, round);
    NoneCounted(fates, Deferred);
    var m := |queue| - i;
    if m > 0 {
      DeferredFrom(queue, i, round);
    } else {
      assert all == fates + Repeat(Deferred, 0);
    }
    forall g ensures CountOf(all, g) == CountOf(fates, g) + if g == Deferred then m else 0 {
      CountAppend(fates, Repeat(Deferred, m), g);
      RepeatCounts(Deferred, m, g);
    }
    forall pair ensures Trail(queue, all, pair) == Trail(queue, fates, pair) {
      RepeatTrails(queue, fates, Deferred, m, pair);
    }
    AbandonedIsTallied(progress, queue, fates, all);
  }

  lemma AbandonedIsTallied(progress: Progress, queue: seq<Trade>, fates: seq<Fate>, all: seq<Fate>)
    requires |fates| <= |all| == |queue| && Tallied(progress.failures, progress.abandoned, queue, fates)
    requires forall pair :: Trail(queue, all, pair) == Trail(queue, fates, pair)
    ensures forall pair :: pair in progress.abandoned <==> Abandoned(queue, all, pair)
  {
    forall pair ensures pair in progress.abandoned <==> Abandoned(queue, all, pair) {
      assert PairTallied(progress.failures, progress.abandoned, queue, fates, pair);
    }
  }

  lemma {:induction false} NoneCounted(fates: seq<Fate>, f: Fate)
    requires forall k :: 0 <= k < |fates| ==> fates[k] != f
    ensures CountOf(fates, f) == 0
  {
    if fates != [] {
      NoneCounted(fates[..|fates| - 1], f);
    }
  }

  lemma LostAt(queue: seq<Trade>, i: nat, round: Round)
    requires i < |queue|
    requires NextFate(queue, Fates(queue, i, round), round).Raised?
    ensures Raised in Fates(queue, |queue|, round)
    ensures forall k :: i <= k < |queue| ==> !Fates(queue, |queue|, round)[k].Enriched?
  {
    FateAt(queue, i, |queue|, round);
    forall k | i < k < |queue| ensures !Fates(queue, |queue|, round)[k].Enriched? {
      RestFate(queue, i, k, |queue|, round, Unreached);
    }
    assert Fates(queue, |queue|, round)[i].Raised?;
  }

  function AllFields(objects: seq<FXPosition>): (fields: seq<Fields>)
    reads objects
    ensures |fields| == |objects|
    ensures forall k :: 0 <= k < |objects| ==> fields[k] == FieldsOf(objects[k])
  {
    if objects == [] then []
    else AllFields(objects[..|objects| - 1]) + [FieldsOf(objects[|objects| - 1])]
  }

  /** One turn changes the fields of one position. */
  method VisitAt(objects: seq<FXPosition>, i: nat, progress: Progress, rates: map<string, real>, fetch: Fetcher,
                 ghost all: seq<Trade>, ghost round: Round)
    returns (f: Fate, next: Progress)
    requires i < |objects| && Distinct(objects)
    requires Closed(objects[i].trade) && Tells(rates, all) && round == RoundFor(fetch, all, round.limit, round.late)
    modifies Each(objects)`mae, Each(objects)`mfe
    ensures var t := objects[i].trade;
            && f == (if t.pair in progress.abandoned then Skipped else round.measure(t))
            && (!f.Raised? ==> next == Advance(progress, t.pair, f))
            && AllFields(objects) == old(AllFields(objects))[i := After(t, f, old(AllFields(objects))[i], round)]
  {
    ghost var before := AllFields(objects);
    f, next := Visit(objects[i], progress, rates, fetch, all, round);
    forall k | 0 <= k < |objects| && k != i ensures FieldsOf(objects[k]) == before[k] {
      assert objects[k] != objects[i];
    }
  }

  /** The fields of all positions once the first of them have had their fates; the rest are as they were. */
  ghost predicate Settled(now: seq<Fields>, queue: seq<Trade>, fates: seq<Fate>, was: seq<Fields>, round: Round)
    requires |fates| <= |queue|
  {
    && |now| == |was| == |queue|
    && (forall k: nat {:trigger SettledAt(now, queue, fates, was, round, k)} :: k < |queue| ==> SettledAt(now, queue, fates, was, round, k))
  }

  predicate SettledAt(now: seq<Fields>, queue: seq<Trade>, fates: seq<Fate>, was: seq<Fields>, round: Round, k: nat)
    requires |fates| <= |queue| && |now| == |was| == |queue| && k < |queue|
  {
    now[k] == if k < |fates| then After(queue[k], fates[k], was[k], round) else was[k]
  }

  lemma SettlesNext(now: seq<Fields>, queue: seq<Trade>, fates: seq<Fate>, was: seq<Fields>, round: Round, f: Fate)
    requires |fates| < |queue| && Settled(now, queue, fates, was, round)
    ensures Settled(now[|fates| := After(queue[|fates|], f, now[|fates|], round)], queue, fates + [f], was, round)
  {
    var next := now[|fates| := After(queue[|fates|], f, now[|fates|], round)];
    forall k: nat | k < |queue| ensures SettledAt(next, queue, fates + [f], was, round, k) {
      assert SettledAt(now, queue, fates, was, round, k);
    }
  }

  lemma SettledAtEnd(now: seq<Fields>, queue: seq<Trade>, i: nat, was: seq<Fields>, round: Round)
    requires i <= |queue|
    requires Settled(now, queue, Fates(queue, i, round), was, round)
    requires forall k :: i <= k < |queue| ==> !Fates(queue, |queue|, round)[k].Enriched?
    ensures Settled(now, queue, Fates(queue, |queue|, round), was, round)
  {
    FatesGrow(queue, i, |queue|, round);
    var all := Fates(queue, |queue|, round);
    forall k: nat | k < |queue| ensures SettledAt(now, queue, all, was, round, k) {
      assert SettledAt(now, queue, Fates(queue, i, round), was, round, k);
      assert k < i ==> all[k] == all[..i][k];
    }
  }

  /** Before a turn of the loop: the counters and the fields are as the fates so far say. */
  ghost predicate Running(progress: Progress, now: seq<Fields>, queue: seq<Trade>, i: nat, was: seq<Fields>, round: Round)
    requires i <= |queue|
  {
    && Tracks(progress, queue, Fates(queue, i, round))
    && Settled(now, queue, Fates(queue, i, round), was, round)
  }

  /** After the loop: the counters and the fields are as all the fates say. */
  ghost predicate Finished(report: Report, now: seq<Fields>, queue: seq<Trade>, was: seq<Fields>, round: Round)
  {
    var all := Fates(queue, |queue|, round);
    && Settled(now, queue, all, was, round)
    && (if Raised in all then report.TerminalLost? else Counts(report, queue, all))
  }

  lemma TurnKeeps(progress: Progress, now: seq<Fields>, queue: seq<Trade>, i: nat, was: seq<Fields>, round: Round, f: Fate)
    requires i < |queue|
    requires Running(progress, now, queue, i, was, round) && Sound(round)
    requires !(round.limit.Some? && i >= round.limit.value) && !round.late(i)
    requires f == if queue[i].pair in progress.abandoned then Skipped else round.measure(queue[i])
    ensures var after := now[i := After(queue[i], f, now[i], round)];
            if f.Raised? then Finished(TerminalLost, after, queue, was, round)
            else Running(Advance(progress, queue[i].pair, f), after, queue, i + 1, was, round)
  {
    var fates := Fates(queue, i, round);
    NextIs(progress, queue, fates, round);
    if f.Raised? {
      LostAt(queue, i, round);
      SettledAtEnd(now, queue, i, was, round);
      assert now[i := now[i]] == now;
    } else {
      Advances(progress, queue, fates, f);
      SettlesNext(now, queue, fates, was, round, f);
    }
  }

  lemma EndKeeps(progress: Progress, now: seq<Fields>, queue: seq<Trade>, i: nat, was: seq<Fields>, round: Round, report: Report)
    requires i <= |queue|
    requires Running(progress, now, queue, i, was, round) && StopsHere(queue, i, round)
    requires report == DoneWith(progress, |queue| - i)
    ensures Finished(report, now, queue, was, round)
  {
    StopsAt(queue, i, round, progress);
    SettledAtEnd(now, queue, i, was, round);
  }

  /** One turn of the loop. */
  method Turn(objects: seq<FXPosition>, i: nat, progress: Progress, rates: map<string, real>, fetch: Fetcher,
              ghost all: seq<Trade>, ghost round: Round, ghost queue: seq<Trade>, ghost was: seq<Fields>)
    returns (f: Fate, next: Progress)
    requires i < |objects| == |queue| && Distinct(objects) && objects[i].trade == queue[i] && Closed(queue[i])
    requires Tells(rates, all) && round == RoundFor(fetch, all, round.limit, round.late)
    requires !(round.limit.Some? && i >= round.limit.value) && !round.late(i)
    requires Running(progress, AllFields(objects), queue, i, was, round)
    modifies Each(objects)`mae, Each(objects)`mfe
    ensures f.Raised? ==> Finished(TerminalLost, AllFields(objects), queue, was, round)
    ensures !f.Raised? ==> Running(next, AllFields(objects), queue, i + 1, was, round)
  {
    ghost var now := AllFields(objects);
    f, next := VisitAt(objects, i, progress, rates, fetch, all, round);
    RoundForIsSound(fetch, all, round.limit, round.late);
    TurnKeeps(progress, now, queue, i, was, round, f);
  }

  lemma Starts(queue: seq<Trade>, was: seq<Fields>, round: Round)
    requires |was| == |queue|
    ensures Running(Progress(0, 0, 0, map[], {}), was, queue, 0, was, round)
  {
  }

  /** How many positions the allowance lets the loop visit. */
  function Allowed(limit: Option<nat>, waiting: nat): nat {
    if limit.Some? && waiting > limit.value then limit.value else waiting
  }

  lemma LoopEnds(progress: Progress, now: seq<Fields>, queue: seq<Trade>, i: nat, was: seq<Fields>, round: Round, report: Report)
    requires i <= Allowed(round.limit, |queue|) && (i < Allowed(round.limit, |queue|) ==> round.late(i))
    requires Running(progress, now, queue, i, was, round) && report == DoneWith(progress, |queue| - i)
    ensures Finished(report, now, queue, was, round)
  {
    EndKeeps(progress, now, queue, i, was, round, report);
  }

  /** The loop over the chosen positions. */
  method MeasureAll(objects: seq<FXPosition>, rates: map<string, real>, fetch: Fetcher, limit: Option<nat>, late: nat -> bool,
                    ghost all: seq<Trade>, ghost round: Round, ghost queue: seq<Trade>)
    returns (report: Report)
    requires Distinct(objects) && |queue| == |objects| && Tells(rates, all) && round == RoundFor(fetch, all, limit, late)
    requires forall k :: 0 <= k < |objects| ==> objects[k].trade == queue[k] && Closed(objects[k].trade)
    modifies Each(objects)`mae, Each(objects)`mfe
    ensures Finished(report, AllFields(objects), queue, old(AllFields(objects)), round)
  {
    var progress := Progress(0, 0, 0, map[], {});
    ghost var was := AllFields(objects);
    Starts(queue, was, round);
    var closed := Allowed(limit, |objects|);
    var i := 0;
    while i < closed && !late(i)
      invariant 0 <= i <= closed
      invariant Running(progress, AllFields(objects), queue, i, was, round)
    {
      var f, next := Turn(objects, i, progress, rates, fetch, all, round, queue, was);
      if f.Raised? {
        report := TerminalLost;
        assert Finished(report, AllFields(objects), queue, was, round);
        return;
      }
      progress := next;
      i := i + 1;
    }
    report := DoneWith(progress, (|objects| - closed) + (closed - i));
    LoopEnds(progress, AllFields(objects), queue, i, was, round, report);
  }

  function DoneWith(progress: Progress, deferred: nat): Report {
    Done(progress.enriched, progress.rejected, progress.skipped, deferred, progress.abandoned)
  }

  /** The loop over a queue of positions. */
  method MeasureQueue(positions: seq<FXPosition>, objects: seq<FXPosition>, fetch: Fetcher, ghost measured: set<int>,
                      limit: Option<nat>, late: nat -> bool)
    returns (report: Report)
    requires IsQueue(objects, positions, measured)
    modifies Each(objects)`mae, Each(objects)`mfe
    ensures Finished(report, AllFields(objects), TradesOf(objects), old(AllFields(objects)),
                     RoundFor(fetch, TradesOf(positions), limit, late))
  {
    var trades := TradesOf(positions);
    ghost var round := RoundFor(fetch, trades, limit, late);
    ghost var queue, was := TradesOf(objects), AllFields(objects);
    var rates := ValuePerLot(trades);
    report := MeasureAll(objects, rates, fetch, limit, late, trades, round, queue);
    assert Finished(report, AllFields(objects), queue, was, round);
  }

  /**
   Measures what waits, the latest closed first; each position's fields and the counters are as its fate says, whatever the
   fetches do.
   */
  method EnrichMaeMfe(positions: seq<FXPosition>, fetch: Fetcher, measured: set<int>, limit: Option<nat>, late: nat -> bool)
    returns (report: Report)
    requires Distinct(positions)
    modifies Each(ObjectQueue(positions, measured))`mae, Each(ObjectQueue(positions, measured))`mfe
    ensures IsQueue(ObjectQueue(positions, measured), positions, measured)
    ensures Finished(report, AllFields(ObjectQueue(positions, measured)), TradesOf(ObjectQueue(positions, measured)),
                     old(AllFields(ObjectQueue(positions, measured))), RoundFor(fetch, TradesOf(positions), limit, late))
  {
    var objects := ObjectQueue(positions, measured);
    QueueTrades(positions, measured);
    report := MeasureQueue(positions, objects, fetch, measured, limit, late);
  }
}
