/** The board's counters, read off the whole history of a terminal. */
module HealthHistory {
  import opened Protocol
  import opened HealthSpec

  datatype Event =
    | Recorded(now: int, warming: bool, server: string, result: SyncResult)
    | RecloneStarted(now: int)
    | Recloned
    | RecloneFailed(error: string)

  function Apply(h: Health, e: Event): Health {
    match e
    case Recorded(now, warming, server, result) => Record(h, now, warming, server, result)
    case RecloneStarted(now) => MarkRecloning(h, now)
    case Recloned => MarkRecloned(h)
    case RecloneFailed(error) => MarkRecloneFailed(h, error)
  }

  function Init(es: seq<Event>): seq<Event>
    requires es != []
  {
    es[..|es| - 1]
  }

  function Last(es: seq<Event>): Event
    requires es != []
  {
    es[|es| - 1]
  }

  /** The board after a history, computed incrementally as the source does. */
  function Replay(es: seq<Event>): Health {
    if es == [] then FRESH else Apply(Replay(Init(es)), Last(es))
  }

  /** What the pool does with a terminal: only a quarantined one is recloned, and a reclone ends once. */
  predicate Legal(es: seq<Event>) {
    es == [] ||
    ( && Legal(Init(es))
      && (Last(es).RecloneStarted? ==> Replay(Init(es)).state == Quarantined)
      && (Last(es).Recloned? || Last(es).RecloneFailed? ==> Replay(Init(es)).state == Recloning))
  }

  // The declarative side: nothing below mentions the counters or the state.

  /** A result that neither succeeded nor saw the terminal initialized, but says how the terminal started. */
  predicate Failed(e: Event) {
    e.Recorded? && !e.result.ok && e.result.terminal.Some? && !e.result.terminal.value.initialized
  }

  /** The launched process died, or an attached one was killed as a zombie. */
  predicate IsHard(e: Event) { Failed(e) && (e.result.terminal.value.died || e.result.terminal.value.killed == Some("zombie")) }

  /** The terminal lived but never answered. */
  predicate IsSoft(e: Event) {
    && Failed(e) && e.result.terminal.value.ipcFailed
    && !e.result.terminal.value.died && e.result.terminal.value.killed != Some("zombie")
  }

  /** A hard failure counts at any hour, a soft one only once the pool has warmed up. */
  predicate IsStrike(e: Event) { IsHard(e) || (IsSoft(e) && !e.warming) }

  predicate Clears(e: Event) {
    e.Recloned? || (e.Recorded? && (e.result.ok || (e.result.terminal.Some? && e.result.terminal.value.initialized)))
  }

  predicate AllStrikes(es: seq<Event>) {
    forall i :: 0 <= i < |es| ==> IsStrike(es[i])
  }

  function StrikesIn(es: seq<Event>): (s: seq<Event>)
    ensures AllStrikes(s)
  {
    if es == [] then [] else StrikesIn(Init(es)) + if IsStrike(Last(es)) then [Last(es)] else []
  }

  /** The position just after the last success or reclone. */
  function LastClear(es: seq<Event>): (i: nat)
    ensures i <= |es|
    ensures forall j :: i <= j < |es| ==> !Clears(es[j])
    ensures i > 0 ==> Clears(es[i - 1])
  {
    if es == [] then 0 else if Clears(Last(es)) then |es| else LastClear(Init(es))
  }

  /** The position just after the last reclone. */
  function LastReclone(es: seq<Event>): (i: nat)
    ensures i <= |es|
    ensures forall j :: i <= j < |es| ==> !es[j].Recloned?
    ensures i > 0 ==> es[i - 1].Recloned?
  {
    if es == [] then 0 else if Last(es).Recloned? then |es| else LastReclone(Init(es))
  }

  /** The strikes since the last success or reclone. */
  function Outstanding(es: seq<Event>): (s: seq<Event>)
    ensures AllStrikes(s)
  {
    StrikesIn(es[LastClear(es)..])
  }

  function HardIn(strikes: seq<Event>): nat {
    if strikes == [] then 0 else HardIn(Init(strikes)) + if IsHard(Last(strikes)) then 1 else 0
  }

  function ServersIn(strikes: seq<Event>): set<string> {
    set i | 0 <= i < |strikes| && strikes[i].Recorded? :: strikes[i].server
  }

  /** The two quarantine conditions, on the strikes themselves. */
  predicate Critical(strikes: seq<Event>)
    requires AllStrikes(strikes)
  {
    || (|strikes| >= 3 && HardIn(strikes) >= 2)
    || ( && |strikes| >= 5
         && |ServersIn(strikes)| >= 2
         && strikes[|strikes| - 1].now - strikes[0].now >= 15 * MINUTE)
  }

  predicate Trips(es: seq<Event>, i: nat)
    requires i < |es|
  {
    IsStrike(es[i]) && Critical(Outstanding(es[..i + 1]))
  }

  ghost predicate TrippedAt(es: seq<Event>, i: nat) {
    LastReclone(es) <= i < |es| && Trips(es, i)
  }

  /** Some strike since the last reclone met a quarantine condition. */
  ghost predicate Tripped(es: seq<Event>) {
    exists i: nat :: TrippedAt(es, i)
  }

  /** The counters say exactly what the list of strikes says. */
  ghost predicate CountersShow(h: Health, strikes: seq<Event>)
    requires AllStrikes(strikes)
  {
    && h.strikes == |strikes|
    && h.hardStrikes == HardIn(strikes)
    && h.failedServers == ServersIn(strikes)
    && h.firstStrikeAt == if strikes == [] then None else Some(strikes[0].now)
  }

  lemma OutstandingUnfolds(es: seq<Event>)
    requires es != []
    ensures Clears(Last(es)) ==> Outstanding(es) == []
    ensures !Clears(Last(es)) && IsStrike(Last(es)) ==> Outstanding(es) == Outstanding(Init(es)) + [Last(es)]
    ensures !Clears(Last(es)) && !IsStrike(Last(es)) ==> Outstanding(es) == Outstanding(Init(es))
  {
    if !Clears(Last(es)) {
      var tail := es[LastClear(es)..];
      assert Init(tail) == Init(es)[LastClear(es)..];
      assert Last(tail) == Last(es);
    }
  }

  lemma ServersGrow(strikes: seq<Event>, e: Event)
    requires e.Recorded?
    ensures ServersIn(strikes + [e]) == ServersIn(strikes) + {e.server}
  {
    var more := strikes + [e];
    forall server ensures server in ServersIn(more) <==> server in ServersIn(strikes) + {e.server} {
      if server in ServersIn(strikes) {
        var i :| 0 <= i < |strikes| && strikes[i].Recorded? && strikes[i].server == server;
        assert more[i] == strikes[i];
      }
      assert more[|strikes|] == e;
    }
  }

  lemma TripsInPrefix(es: seq<Event>, i: nat)
    requires es != [] && i < |es| - 1
    ensures Trips(es, i) == Trips(Init(es), i)
  {
    assert es[..i + 1] == Init(es)[..i + 1];
  }

  lemma TrippedUnfolds(es: seq<Event>)
    requires es != []
    ensures Tripped(es) <==> !Last(es).Recloned? && (Tripped(Init(es)) || Trips(es, |es| - 1))
  {
    var before := Init(es);
    if Tripped(es) {
      var i: nat :| TrippedAt(es, i);
      if i < |es| - 1 { TripsInPrefix(es, i); assert TrippedAt(before, i); }
    }
    if !Last(es).Recloned? {
      if Tripped(before) {
        var i: nat :| TrippedAt(before, i);
        TripsInPrefix(es, i);
        assert TrippedAt(es, i);
      }
      if Trips(es, |es| - 1) { assert TrippedAt(es, |es| - 1); }
    }
  }

  /** What the board tests on a result is what these say. */
  lemma StrikesAreStrikes(e: Event)
    requires e.Recorded?
    ensures Strikes(e.result, e.warming) <==> IsStrike(e)
    ensures Succeeds(e.result) <==> Clears(e)
    ensures IsStrike(e) ==> e.result.terminal.Some? && (e.result.terminal.value.Hard() <==> IsHard(e))
  {
  }

  /** While the pool warms up a terminal that lived but never answered changes no counter and no state. */
  lemma SoftCountsNothingWhileWarming(h: Health, e: Event)
    requires IsSoft(e) && e.warming
    ensures var after := Apply(h, e);
            && after.state == h.state && after.strikes == h.strikes && after.hardStrikes == h.hardStrikes
            && after.failedServers == h.failedServers && after.firstStrikeAt == h.firstStrikeAt
  {
  }

  /** A hard failure of a usable terminal counts at any hour. */
  lemma HardCountsAtAnyHour(h: Health, e: Event)
    requires IsHard(e) && h.Usable()
    ensures var after := Apply(h, e);
            && after.strikes == h.strikes + 1 && after.hardStrikes == h.hardStrikes + 1
            && after.failedServers == h.failedServers + {e.server}
            && after.firstStrikeAt == if h.firstStrikeAt.Some? then h.firstStrikeAt else Some(e.now)
  {
  }

  /** When a strike quarantines, the moment and the reason are kept; a launch and a success are stamped. */
  lemma RecordStamps(h: Health, e: Event)
    requires e.Recorded?
    ensures var after := Apply(h, e);
            && (after.state == Quarantined && h.state != Quarantined ==>
                  && after.quarantinedAt == Some(e.now)
                  && after.quarantineReason == Some(if after.strikes >= 3 && after.hardStrikes >= 2
                                                    then ColdStartsDied(after.hardStrikes, after.strikes)
                                                    else NeverAnswered(after.strikes, |after.failedServers|)))
            && after.lastSuccessAt == (if Clears(e) then Some(e.now) else h.lastSuccessAt)
            && after.lastLaunchAt == (if e.result.terminal.Some? && e.result.terminal.value.launched then Some(e.now)
                                      else h.lastLaunchAt)
            && after.lastPid == (if e.result.terminal.Some? && (e.result.terminal.value.launched || e.result.terminal.value.attached)
                                 then e.result.terminal.value.pid else h.lastPid)
  {
  }

  lemma StrikeIsApplied(h: Health, e: Event)
    requires IsStrike(e) && h.Usable()
    ensures Apply(h, e) == Strike(Launched(h, e.now, e.result.terminal), e.now, e.server, IsHard(e))
  {
    StrikesAreStrikes(e);
  }

  lemma StruckShows(h: Health, strikes: seq<Event>, e: Event)
    requires AllStrikes(strikes) && IsStrike(e) && CountersShow(h, strikes)
    ensures CountersShow(Struck(h, e.now, e.server, IsHard(e)), strikes + [e])
    ensures QuarantineReason(Struck(h, e.now, e.server, IsHard(e)), e.now).Some? <==> Critical(strikes + [e])
  {
    ServersGrow(strikes, e);
    assert Init(strikes + [e]) == strikes;
  }

  lemma LaunchedShows(h: Health, strikes: seq<Event>, now: int, report: Option<StartReport>)
    requires AllStrikes(strikes) && CountersShow(h, strikes)
    ensures CountersShow(Launched(h, now, report), strikes) && Launched(h, now, report).state == h.state
  {
  }

  lemma StrikeMoves(h: Health, now: int, server: string, hard: bool)
    ensures var struck, after := Struck(h, now, server, hard), Strike(h, now, server, hard);
            && after.strikes == struck.strikes == h.strikes + 1 && after.hardStrikes == struck.hardStrikes
            && after.failedServers == struck.failedServers && after.firstStrikeAt == struck.firstStrikeAt
            && after.state == if QuarantineReason(struck, now).Some? then Quarantined
                              else if struck.strikes >= 2 then Suspect else h.state
  {
  }

  /** A strike on a usable terminal adds itself to the counters and quarantines exactly on a critical list. */
  lemma StrikeShows(h: Health, strikes: seq<Event>, e: Event)
    requires AllStrikes(strikes) && IsStrike(e)
    requires h.Usable() && CountersShow(h, strikes)
    ensures CountersShow(Apply(h, e), strikes + [e])
    ensures Apply(h, e).state == if Critical(strikes + [e]) then Quarantined
                                 else if |strikes| + 1 >= 2 then Suspect else h.state
  {
    var launched := Launched(h, e.now, e.result.terminal);
    StrikeIsApplied(h, e);
    LaunchedShows(h, strikes, e.now, e.result.terminal);
    StruckShows(launched, strikes, e);
    StrikeMoves(launched, e.now, e.server, IsHard(e));
  }

  /** Any other result leaves the counters alone, or empties them when the start succeeded. */
  lemma ResultShows(h: Health, strikes: seq<Event>, e: Event)
    requires AllStrikes(strikes) && e.Recorded? && !(IsStrike(e) && h.Usable())
    requires CountersShow(h, strikes)
    ensures CountersShow(Apply(h, e), if Clears(e) then [] else strikes)
    ensures Apply(h, e).state == if Clears(e) && h.state == Suspect then Healthy else h.state
  {
  }

  lemma RecloneShows(h: Health, strikes: seq<Event>, e: Event)
    requires AllStrikes(strikes) && !e.Recorded?
    requires CountersShow(h, strikes)
    ensures CountersShow(Apply(h, e), if e.Recloned? then [] else strikes)
    ensures Apply(h, e).state == if e.Recloned? then Healthy else if e.RecloneStarted? then Recloning else Quarantined
  {
  }

  /** The board after a history, described without the increments. */
  ghost predicate Refines(h: Health, es: seq<Event>) {
    && (h.Usable() <==> !Tripped(es))
    && (!Tripped(es) ==> CountersShow(h, Outstanding(es)))
    && (!Tripped(es) ==> (h.state == Healthy <==> |Outstanding(es)| < 2))
  }

  lemma EmptyHistory()
    ensures Refines(FRESH, [])
  {
    assert !Tripped([]);
    assert ServersIn([]) == {};
  }

  /** The board refines its history while the terminal is usable, and it is usable exactly until a strike trips it. */
  lemma {:induction false} BoardRefinesHistory(es: seq<Event>)
    requires Legal(es)
    ensures Refines(Replay(es), es)
  {
    if es == [] {
      EmptyHistory();
    } else {
      BoardRefinesHistory(Init(es));
      if Replay(Init(es)).Usable() {
        if IsStrike(Last(es)) {
          UsableStruck(es);
        } else {
          UsableAnswered(es);
        }
      } else {
        QuarantinedStep(es);
      }
    }
  }

  lemma UsableStruck(es: seq<Event>)
    requires es != [] && Legal(es) && IsStrike(Last(es)) && !Tripped(Init(es))
    requires Replay(Init(es)).Usable() && CountersShow(Replay(Init(es)), Outstanding(Init(es)))
    requires Replay(Init(es)).state == Healthy <==> |Outstanding(Init(es))| < 2
    ensures Refines(Replay(es), es)
  {
    StrikeShows(Replay(Init(es)), Outstanding(Init(es)), Last(es));
    StrikeStep(Replay(es), es);
  }

  lemma UsableAnswered(es: seq<Event>)
    requires es != [] && Legal(es) && !IsStrike(Last(es)) && !Tripped(Init(es))
    requires Replay(Init(es)).Usable() && CountersShow(Replay(Init(es)), Outstanding(Init(es)))
    requires Replay(Init(es)).state == Healthy <==> |Outstanding(Init(es))| < 2
    ensures Refines(Replay(es), es)
  {
    ResultShows(Replay(Init(es)), Outstanding(Init(es)), Last(es));
    ResultStep(Replay(Init(es)).state, Replay(es), es);
  }

  lemma StrikeStep(h: Health, es: seq<Event>)
    requires es != [] && IsStrike(Last(es)) && !Tripped(Init(es))
    requires CountersShow(h, Outstanding(Init(es)) + [Last(es)])
    requires h.state == if Critical(Outstanding(Init(es)) + [Last(es)]) then Quarantined
                        else if |Outstanding(Init(es))| + 1 >= 2 then Suspect else Healthy
    ensures Refines(h, es)
  {
    OutstandingUnfolds(es);
    TrippedUnfolds(es);
    assert es[..|es| - 1 + 1] == es;
  }

  lemma ResultStep(before: TerminalState, h: Health, es: seq<Event>)
    requires es != [] && Last(es).Recorded? && !IsStrike(Last(es)) && !Tripped(Init(es))
    requires before == Healthy || before == Suspect
    requires before == Healthy <==> |Outstanding(Init(es))| < 2
    requires CountersShow(h, if Clears(Last(es)) then [] else Outstanding(Init(es)))
    requires h.state == if Clears(Last(es)) && before == Suspect then Healthy else before
    ensures Refines(h, es)
  {
    OutstandingUnfolds(es);
    TrippedUnfolds(es);
  }

  lemma QuarantinedStep(es: seq<Event>)
    requires es != [] && Legal(es) && !Replay(Init(es)).Usable() && Refines(Replay(Init(es)), Init(es))
    ensures Refines(Replay(es), es)
  {
    var e := Last(es);
    OutstandingUnfolds(es);
    TrippedUnfolds(es);
    if e.Recorded? {
      RecordMoves(Replay(Init(es)), e.now, e.warming, e.server, e.result);
    } else if e.Recloned? {
      assert ServersIn([]) == {};
    }
  }

  ghost predicate FirstTrip(es: seq<Event>, i: nat) {
    TrippedAt(es, i) && forall j: nat :: j < i ==> !TrippedAt(es, j)
  }

  lemma TripKept(es: seq<Event>, i: nat)
    requires es != [] && !Last(es).Recloned? && i < |es| - 1
    ensures TrippedAt(es, i) == TrippedAt(Init(es), i)
  {
    TripsInPrefix(es, i);
  }

  /** After a quarantine the counters stand still at the strikes that caused it, until a success empties them. */
  lemma {:induction false} QuarantineFreezesCounters(es: seq<Event>) returns (i: nat)
    requires Legal(es) && Tripped(es)
    ensures i < |es| && FirstTrip(es, i)
    ensures CountersShow(Replay(es), Frozen(es, i))
  {
    TrippedUnfolds(es);
    if Tripped(Init(es)) {
      i := QuarantineFreezesCounters(Init(es));
      FrozenKept(es, i);
    } else {
      i := |es| - 1;
      FirstTripNow(es);
    }
  }

  lemma FrozenKept(es: seq<Event>, i: nat)
    requires es != [] && Legal(es) && Tripped(Init(es)) && !Last(es).Recloned? && i < |es| - 1
    requires FirstTrip(Init(es), i) && CountersShow(Replay(Init(es)), Frozen(Init(es), i))
    ensures FirstTrip(es, i) && CountersShow(Replay(es), Frozen(es, i))
  {
    FirstTripKept(es, i);
    BoardRefinesHistory(Init(es));
    assert es[..i + 1] == Init(es)[..i + 1];
    FrozenStep(Replay(Init(es)), Last(es), Frozen(Init(es), i));
  }

  function Frozen(es: seq<Event>, i: nat): (s: seq<Event>)
    requires i < |es|
    ensures AllStrikes(s)
  {
    if LastClear(es) <= i then Outstanding(es[..i + 1]) else []
  }

  lemma FirstTripKept(es: seq<Event>, i: nat)
    requires es != [] && !Last(es).Recloned? && i < |es| - 1 && FirstTrip(Init(es), i)
    ensures FirstTrip(es, i)
  {
    forall j: nat | j < |es| - 1 ensures TrippedAt(es, j) == TrippedAt(Init(es), j) {
      TripKept(es, j);
    }
  }

  lemma FirstTripNow(es: seq<Event>)
    requires es != [] && Legal(es) && Tripped(es) && !Tripped(Init(es))
    ensures FirstTrip(es, |es| - 1)
    ensures CountersShow(Replay(es), Frozen(es, |es| - 1))
  {
    TrippedUnfolds(es);
    forall j: nat | j < |es| - 1 ensures !TrippedAt(es, j) {
      TripKept(es, j);
    }
    assert TrippedAt(es, |es| - 1);
    BoardRefinesHistory(Init(es));
    OutstandingUnfolds(es);
    assert es[..|es| - 1 + 1] == es;
    StrikeShows(Replay(Init(es)), Outstanding(Init(es)), Last(es));
  }

  lemma FrozenStep(h: Health, e: Event, shown: seq<Event>)
    requires AllStrikes(shown) && CountersShow(h, shown) && !h.Usable() && !e.Recloned?
    ensures CountersShow(Apply(h, e), if Clears(e) then [] else shown)
  {
    if e.Recorded? {
      ResultShows(h, shown, e);
    } else {
      RecloneShows(h, shown, e);
    }
  }

  /** A usable terminal becomes quarantined at exactly the strikes that meet a quarantine condition. */
  lemma QuarantinedExactlyWhenTripped(es: seq<Event>)
    requires es != [] && Legal(es) && Replay(Init(es)).Usable()
    ensures Replay(es).state == Quarantined <==> Trips(es, |es| - 1)
  {
    BoardRefinesHistory(es);
    BoardRefinesHistory(Init(es));
    TrippedUnfolds(es);
    if Last(es).Recorded? {
      RecordMoves(Replay(Init(es)), Last(es).now, Last(es).warming, Last(es).server, Last(es).result);
    }
  }

  /** A reclone wipes the slate clean: no strike before it counts any more. */
  lemma RecloneClears(es: seq<Event>)
    requires es != [] && Last(es).Recloned?
    ensures Outstanding(es) == [] && !Tripped(es)
    ensures CountersShow(Replay(es), []) && Replay(es).state == Healthy
  {
    TrippedUnfolds(es);
  }

  // The documented rule.

  function SoftIn(strikes: seq<Event>): (s: seq<Event>)
    requires AllStrikes(strikes)
    ensures AllStrikes(s) && |s| + HardIn(strikes) == |strikes|
  {
    if strikes == [] then [] else SoftIn(Init(strikes)) + if IsHard(Last(strikes)) then [] else [Last(strikes)]
  }

  /** Enough strikes, on enough servers, over long enough. */
  predicate Severe(strikes: seq<Event>)
    requires AllStrikes(strikes)
  {
    |strikes| >= 5 && |ServersIn(strikes)| >= 2 && strikes[|strikes| - 1].now - strikes[0].now >= 15 * MINUTE
  }

  /** The quarantine conditions as documented: the five strikes of the second one are soft. */
  predicate Documented(strikes: seq<Event>)
    requires AllStrikes(strikes)
  {
    (|strikes| >= 3 && HardIn(strikes) >= 2) || Severe(SoftIn(strikes))
  }

  predicate InOrder(strikes: seq<Event>)
    requires AllStrikes(strikes)
  {
    forall i, j :: 0 <= i < j < |strikes| ==> strikes[i].now <= strikes[j].now
  }

  lemma {:induction false} AllSoft(strikes: seq<Event>)
    requires AllStrikes(strikes) && HardIn(strikes) == 0
    ensures SoftIn(strikes) == strikes
  {
    if strikes != [] {
      assert HardIn(Init(strikes)) == 0 && !IsHard(Last(strikes));
      AllSoft(Init(strikes));
      assert strikes == Init(strikes) + [Last(strikes)];
    }
  }

  lemma {:induction false} SoftAmongStrikes(strikes: seq<Event>, e: Event)
    requires AllStrikes(strikes) && e in SoftIn(strikes)
    ensures e in strikes
  {
    if e !in SoftIn(Init(strikes)) {
      assert e == Last(strikes);
    } else {
      SoftAmongStrikes(Init(strikes), e);
    }
  }

  lemma SoftServers(strikes: seq<Event>)
    requires AllStrikes(strikes)
    ensures |ServersIn(SoftIn(strikes))| <= |ServersIn(strikes)|
  {
    var soft := SoftIn(strikes);
    forall server | server in ServersIn(soft) ensures server in ServersIn(strikes) {
      var k :| 0 <= k < |soft| && soft[k].Recorded? && soft[k].server == server;
      SoftAmongStrikes(strikes, soft[k]);
    }
    Fewer(ServersIn(soft), ServersIn(strikes));
  }

  lemma WithinSpan(strikes: seq<Event>, e: Event)
    requires AllStrikes(strikes) && InOrder(strikes) && e in strikes
    ensures strikes[0].now <= e.now <= strikes[|strikes| - 1].now
  {
    var i :| 0 <= i < |strikes| && strikes[i] == e;
  }

  lemma SoftIsSevere(strikes: seq<Event>)
    requires AllStrikes(strikes) && InOrder(strikes) && Severe(SoftIn(strikes))
    ensures Severe(strikes)
  {
    var soft := SoftIn(strikes);
    SoftServers(strikes);
    SoftAmongStrikes(strikes, soft[0]);
    SoftAmongStrikes(strikes, soft[|soft| - 1]);
    WithinSpan(strikes, soft[0]);
    WithinSpan(strikes, soft[|soft| - 1]);
  }

  lemma Fewer(a: set<string>, b: set<string>)
    requires a <= b
    ensures |a| <= |b|
  {
    assert b == a + (b - a);
  }

  /**
   The code and its documentation quarantine alike unless exactly one strike is hard and only with it, or only without it,
   the strikes are severe. While time does not run back it is only with it: the code is never the laxer of the two.
   */
  lemma DocumentedExactly(strikes: seq<Event>)
    requires AllStrikes(strikes)
    ensures (Critical(strikes) <==> Documented(strikes))
            <==> (HardIn(strikes) == 1 ==> (Severe(strikes) <==> Severe(SoftIn(strikes))))
    ensures InOrder(strikes) && Documented(strikes) ==> Critical(strikes)
    ensures HardIn(strikes) == 1 && |strikes| == 5 ==> !Documented(strikes)
  {
    if HardIn(strikes) == 0 { AllSoft(strikes); }
    if InOrder(strikes) && Severe(SoftIn(strikes)) { SoftIsSevere(strikes); }
  }

  /** Every event so far is an outstanding strike, and none has tripped the terminal. */
  ghost predicate OnlyStrikes(es: seq<Event>) {
    AllStrikes(es) && Legal(es) && Outstanding(es) == es && Replay(es).Usable() && CountersShow(Replay(es), es)
  }

  lemma AnotherStrike(es: seq<Event>, e: Event)
    requires OnlyStrikes(es) && IsStrike(e)
    ensures AllStrikes(es + [e]) && Legal(es + [e]) && Outstanding(es + [e]) == es + [e]
    ensures HardIn(es + [e]) == HardIn(es) + if IsHard(e) then 1 else 0
    ensures if Critical(es + [e]) then Replay(es + [e]).state == Quarantined else OnlyStrikes(es + [e])
  {
    assert Init(es + [e]) == es;
    OutstandingUnfolds(es + [e]);
    StrikeShows(Replay(es), es, e);
  }

  function ColdStart(now: int, server: string, died: bool): Event {
    Recorded(now, false, server,
             SyncResult(false, None, false, false, Some(StartReport(false, true, None, None, died, false, false, !died))))
  }

  lemma BorneStrike(es: seq<Event>, e: Event)
    requires OnlyStrikes(es) && IsStrike(e) && |es| < 4
    requires HardIn(es) + (if IsHard(e) then 1 else 0) < 2
    ensures OnlyStrikes(es + [e]) && HardIn(es + [e]) == HardIn(es) + if IsHard(e) then 1 else 0
  {
    AnotherStrike(es, e);
  }

  /** With one hard strike a terminal bears four strikes. */
  lemma {:induction false} FourAreBorne(n: nat) returns (es: seq<Event>)
    requires 1 <= n <= 4
    ensures |es| == n && OnlyStrikes(es) && HardIn(es) == 1 && es[0] == ColdStart(0, "a", true)
  {
    var before: seq<Event> := [];
    var e := ColdStart(0, "a", true);
    if n == 1 {
      EmptyHistory();
    } else {
      before := FourAreBorne(n - 1);
      e := ColdStart((n - 1) * 4 * MINUTE, "b", false);
    }
    assert IsStrike(e);
    BorneStrike(before, e);
    es := before + [e];
  }

  /** Five strikes of which one is hard quarantine a terminal, though the documentation asks for five soft ones. */
  lemma OneHardStrikeIsEnough()
    ensures exists es :: && Legal(es) && Replay(es).state == Quarantined
                         && Critical(Outstanding(es)) && !Documented(Outstanding(es))
  {
    var before := FourAreBorne(4);
    var e := ColdStart(16 * MINUTE, "b", false);
    AnotherStrike(before, e);
    var es := before + [e];
    assert es[0].server == "a" && es[4].server == "b";
    Fewer({"a", "b"}, ServersIn(es));
    DocumentedExactly(es);
  }
}
