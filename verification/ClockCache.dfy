/** The clocks kept per server between measurements. */
module ClockCache {
  import opened Clock
  import opened Protocol

  const TTL_SCANNED: int := 6 * HOUR
  const TTL_TICK_ONLY: int := 300 * SECOND
  const TTL_UNKNOWN: int := 6 * HOUR

  datatype Reading = Reading(at: int, clock: ServerClock)

  /** What is kept for one server: its last known clock, and when a measurement last failed since. */
  datatype Kept = Kept(known: Option<Reading>, missed: Option<int>)

  const UNKNOWN_CLOCK := ServerClock([], false)

  function Ttl(clock: ServerClock): int { if clock.scanned then TTL_SCANNED else TTL_TICK_ONLY }

  /** A fetch at this moment measures anew. */
  predicate Measures(kept: Kept, now: int) {
    && !(kept.known.Some? && now - kept.known.value.at < Ttl(kept.known.value.clock))
    && !(kept.missed.Some? && now - kept.missed.value < TTL_UNKNOWN)
  }

  function AfterFetch(kept: Kept, now: int, measured: ServerClock): Kept {
    if !Measures(kept, now) then kept
    else if measured.Known() then Kept(Some(Reading(now, measured)), None)
    else kept.(missed := Some(now))
  }

  function Serves(kept: Kept): ServerClock { if kept.known.Some? then kept.known.value.clock else UNKNOWN_CLOCK }

  class ClockCache {
    var clocks: map<string, Reading>
    var misses: map<string, int>

    function Of(server: string): Kept
      reads this
    {
      Kept(if server in clocks then Some(clocks[server]) else None, if server in misses then Some(misses[server]) else None)
    }

    constructor ()
      ensures clocks == map[] && misses == map[]
    {
      clocks, misses := map[], map[];
    }

    /** The clock of a server, at the given moment; `measured` is what a measurement made now gives. */
    method Fetch(server: string, now: int, measured: ServerClock) returns (clock: ServerClock)
      modifies this
      ensures Of(server) == AfterFetch(old(Of(server)), now, measured)
      ensures forall other :: other != server ==> Of(other) == old(Of(other))
      ensures Serves(Of(server)).Known() ==> clock == Serves(Of(server))
      ensures !Serves(Of(server)).Known() ==> !clock.Known()
    {
      if server in clocks {
        var ttl := if clocks[server].clock.scanned then TTL_SCANNED else TTL_TICK_ONLY;
        if now - clocks[server].at < ttl {
          return clocks[server].clock;
        }
      }
      if server in misses && now - misses[server] < TTL_UNKNOWN {
        return if server in clocks then clocks[server].clock else UNKNOWN_CLOCK;
      }
      if measured.Known() {
        clocks := clocks[server := Reading(now, measured)];
        misses := misses - {server};
        return measured;
      }
      misses := misses[server := now];
      return if server in clocks then clocks[server].clock else measured;
    }
  }

  // Runs of fetches for one server.

  datatype Visit = Visit(now: int, measured: ServerClock)

  const FRESH := Kept(None, None)

  function Play(visits: seq<Visit>): Kept {
    if visits == [] then FRESH
    else AfterFetch(Play(visits[..|visits| - 1]), visits[|visits| - 1].now, visits[|visits| - 1].measured)
  }

  /** The fetch at this place of the run measured. */
  predicate Measured(visits: seq<Visit>, i: nat)
    requires i < |visits|
  {
    Measures(Play(visits[..i]), visits[i].now)
  }

  /** The last fetch of the run that measured, or -1. */
  function LastMeasured(visits: seq<Visit>): (i: int)
    ensures -1 <= i < |visits|
  {
    if visits == [] then -1
    else if Measured(visits, |visits| - 1) then |visits| - 1
    else LastMeasured(visits[..|visits| - 1])
  }

  /** The last fetch of the run that measured a known clock, or -1. */
  function LastKnown(visits: seq<Visit>): (i: int)
    ensures -1 <= i < |visits|
  {
    if visits == [] then -1
    else if Measured(visits, |visits| - 1) && visits[|visits| - 1].measured.Known() then |visits| - 1
    else LastKnown(visits[..|visits| - 1])
  }

  /** A server is served the last clock a measurement knew, however many have failed since. */
  lemma {:induction false} ServesLastKnown(visits: seq<Visit>)
    ensures var i := LastKnown(visits);
            Play(visits).known == if i < 0 then None else Some(Reading(visits[i].now, visits[i].measured))
    ensures Serves(Play(visits)).Known() <==> LastKnown(visits) >= 0
  {
    if visits != [] {
      var front := visits[..|visits| - 1];
      ServesLastKnown(front);
      var i := LastKnown(front);
      assert i >= 0 ==> front[i] == visits[i];
      KnownIsKnown(visits);
    }
  }

  lemma {:induction false} KnownIsKnown(visits: seq<Visit>)
    ensures LastKnown(visits) >= 0 ==> visits[LastKnown(visits)].measured.Known()
  {
    if visits != [] {
      KnownIsKnown(visits[..|visits| - 1]);
    }
  }

  /** The last measurement is what holds the next one back. */
  lemma {:induction false} LastMeasurementHolds(visits: seq<Visit>)
    ensures var i, kept := LastMeasured(visits), Play(visits);
            if i < 0 then kept == FRESH
            else if visits[i].measured.Known() then kept == Kept(Some(Reading(visits[i].now, visits[i].measured)), None)
            else kept.missed == Some(visits[i].now)
                 && (kept.known.Some? ==> visits[i].now - kept.known.value.at >= Ttl(kept.known.value.clock))
  {
    if visits != [] {
      LastMeasurementHolds(visits[..|visits| - 1]);
    }
  }

  predicate InOrder(visits: seq<Visit>) {
    forall i, j :: 0 <= i < j < |visits| ==> visits[i].now <= visits[j].now
  }

  /** How long a measurement lasts: six hours, but five minutes if only a tick gave the clock. */
  function Rest(clock: ServerClock): int {
    if clock.Known() && !clock.scanned then 5 * 60 * SECOND else 6 * 60 * 60 * SECOND
  }

  lemma {:induction false} MeasuredBefore(visits: seq<Visit>, i: nat)
    requires i < |visits| && Measured(visits, i)
    ensures i <= LastMeasured(visits) && Measured(visits, LastMeasured(visits))
  {
    var last := |visits| - 1;
    if !Measured(visits, last) {
      var front := visits[..last];
      assert forall k :: 0 <= k < last ==> front[..k] == visits[..k];
      MeasuredBefore(front, i);
    }
  }

  lemma LastDecides(visits: seq<Visit>, j: nat)
    requires InOrder(visits) && j < |visits|
    ensures var k := LastMeasured(visits[..j]);
            Measured(visits, j) <==> k < 0 || visits[j].now - visits[k].now >= Rest(visits[k].measured)
  {
    LastMeasurementHolds(visits[..j]);
  }

  /** A fetch measures exactly if every earlier measurement has had its time. */
  lemma {:induction false} MeasuredExactly(visits: seq<Visit>, j: nat)
    requires InOrder(visits) && j < |visits|
    ensures Measured(visits, j)
            <==> forall i :: 0 <= i < j && Measured(visits, i) ==> visits[j].now - visits[i].now >= Rest(visits[i].measured)
    decreases j
  {
    var before := visits[..j];
    assert forall k :: 0 <= k < j ==> before[..k] == visits[..k];
    LastDecides(visits, j);
    var k := LastMeasured(before);
    if k >= 0 {
      LastIsMeasured(before);
      MeasuredExactly(visits, k);
    }
    forall i | 0 <= i < j && Measured(visits, i) && Measured(visits, j)
      ensures visits[j].now - visits[i].now >= Rest(visits[i].measured)
    {
      MeasuredBefore(before, i);
    }
  }

  lemma {:induction false} LastIsMeasured(visits: seq<Visit>)
    ensures LastMeasured(visits) >= 0 ==> Measured(visits, LastMeasured(visits))
  {
    var last := |visits| - 1;
    if visits != [] && !Measured(visits, last) {
      var front := visits[..last];
      assert forall k :: 0 <= k < last ==> front[..k] == visits[..k];
      LastIsMeasured(front);
    }
  }
}
