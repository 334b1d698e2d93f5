/**
 The server clock: a step function from labels (server wall-clock stamps) to offsets, and its two conversions.
 Labels and UTC instants are microseconds; offsets are minutes.
 */
module Clock {
  import opened Lists
  import opened Protocol

  datatype Step = Step(at: int, minutes: int)

  datatype ServerClock = ServerClock(steps: seq<Step>, scanned: bool)
  {
    predicate Known() { steps != [] }

    function OffsetAt(local: int): Option<int> {
      var i := InForce(steps, local);
      if i < 0 then None else Some(steps[i].minutes)
    }

    function ToUtc(local: int): Option<int> {
      match OffsetAt(local)
      case None => None
      case Some(minutes) => Some(local - minutes * MINUTE)
    }

    function ToServer(instant: int): Option<int> {
      var i := InForceUtc(steps, instant);
      if i < 0 then None else Some(instant + steps[i].minutes * MINUTE)
    }
  }

  /** The last step a label has reached, or -1: the steps are searched from the back. */
  function InForce(steps: seq<Step>, local: int): (i: int)
    ensures -1 <= i < |steps|
    ensures i >= 0 ==> steps[i].at <= local
    ensures forall j :: i < j < |steps| ==> local < steps[j].at
  {
    if steps == [] then -1
    else if local >= steps[|steps| - 1].at then |steps| - 1
    else InForce(steps[..|steps| - 1], local)
  }

  /** The last step whose own label for the instant has reached it, or -1. */
  function InForceUtc(steps: seq<Step>, instant: int): (i: int)
    ensures -1 <= i < |steps|
    ensures i >= 0 ==> steps[i].at <= instant + steps[i].minutes * MINUTE
    ensures forall j :: i < j < |steps| ==> instant + steps[j].minutes * MINUTE < steps[j].at
  {
    if steps == [] then -1
    else if instant + steps[|steps| - 1].minutes * MINUTE >= steps[|steps| - 1].at then |steps| - 1
    else InForceUtc(steps[..|steps| - 1], instant)
  }

  predicate Increasing(steps: seq<Step>) {
    forall i, j :: 0 <= i < j < |steps| ==> steps[i].at < steps[j].at
  }

  // Round trips.

  /** The label lies in the stretch a later increase of the offset skips. */
  predicate Skipped(steps: seq<Step>, local: int) {
    var i := InForce(steps, local);
    i >= 0 && exists j :: i < j < |steps|
                          && steps[j].at - (steps[j].minutes - steps[i].minutes) * MINUTE <= local < steps[j].at
  }

  /** The instant lies in the stretch whose labels a later decrease of the offset repeats. */
  predicate Repeated(steps: seq<Step>, instant: int) {
    var i := InForceUtc(steps, instant);
    i >= 0 && exists j :: i < j < |steps|
                          && steps[j].at - steps[i].minutes * MINUTE <= instant < steps[j].at - steps[j].minutes * MINUTE
  }

  /** A label survives the trip through UTC exactly if no later switch skips it. */
  lemma LabelRoundTrip(clock: ServerClock, local: int)
    requires clock.ToUtc(local).Some?
    ensures clock.ToServer(clock.ToUtc(local).value).Some?
    ensures clock.ToServer(clock.ToUtc(local).value) == Some(local) <==> !Skipped(clock.steps, local)
  {
    var steps := clock.steps;
    var i := InForce(steps, local);
    var utc := local - steps[i].minutes * MINUTE;
    var j := InForceUtc(steps, utc);
    assert i <= j;
    if i < j {
      assert local < steps[j].at <= utc + steps[j].minutes * MINUTE;
      assert steps[j].at - (steps[j].minutes - steps[i].minutes) * MINUTE <= local;
    }
  }

  /** An instant survives the trip through a label exactly if no later switch repeats its label. */
  lemma InstantRoundTrip(clock: ServerClock, instant: int)
    requires clock.ToServer(instant).Some?
    ensures clock.ToUtc(clock.ToServer(instant).value).Some?
    ensures clock.ToUtc(clock.ToServer(instant).value) == Some(instant) <==> !Repeated(clock.steps, instant)
  {
    var steps := clock.steps;
    var i := InForceUtc(steps, instant);
    var local := instant + steps[i].minutes * MINUTE;
    var j := InForce(steps, local);
    assert i <= j;
    if i < j {
      assert steps[j].at <= local && instant + steps[j].minutes * MINUTE < steps[j].at;
    }
  }

  /** Conversion keeps the order of labels, unless the earlier one is skipped by a switch. */
  lemma ToUtcKeepsOrder(clock: ServerClock, earlier: int, later: int)
    requires earlier < later && clock.ToUtc(earlier).Some? && !Skipped(clock.steps, earlier)
    ensures clock.ToUtc(later).Some? && clock.ToUtc(earlier).value < clock.ToUtc(later).value
  {
    var i, j := InForce(clock.steps, earlier), InForce(clock.steps, later);
    assert i <= j;
    if i < j {
      var steps := clock.steps;
      assert steps[j].at - (steps[j].minutes - steps[i].minutes) * MINUTE > earlier;
    }
  }

  // Storing and reading back.

  function StepKey(step: Step): Key { (step.at, step.minutes) }

  function SortSteps(rows: seq<Step>): seq<Step> { Sort(rows, StepKey) }

  /** The stored rows of a clock. */
  function Rows(clock: ServerClock): seq<Step> { clock.steps }

  /** The stored rows in order of their stamps, those of one stamp by their minutes. */
  method FromRows(rows: seq<Step>) returns (clock: ServerClock)
    ensures clock == ServerClock(SortSteps(rows), false) && multiset(clock.steps) == multiset(rows)
    ensures forall i, j :: 0 <= i < j < |clock.steps| ==>
              || clock.steps[i].at < clock.steps[j].at
              || (clock.steps[i].at == clock.steps[j].at && clock.steps[i].minutes <= clock.steps[j].minutes)
  {
    var steps: seq<Step> := [];
    for i := 0 to |rows|
      invariant steps == rows[..i]
    {
      steps := steps + [rows[i]];
    }
    assert rows[..|rows|] == rows;
    SortSorts(rows, StepKey);
    clock := ServerClock(SortSteps(steps), false);
    forall i, j | 0 <= i < j < |clock.steps|
      ensures || clock.steps[i].at < clock.steps[j].at
              || (clock.steps[i].at == clock.steps[j].at && clock.steps[i].minutes <= clock.steps[j].minutes)
    {
      assert KeyLe(StepKey(clock.steps[i]), StepKey(clock.steps[j]));
    }
  }

  /** Storing a clock whose steps increase and reading it back loses no step. */
  lemma RowsRoundTrip(clock: ServerClock)
    requires Increasing(clock.steps)
    ensures SortSteps(Rows(clock)) == clock.steps
  {
    SortedStays(clock.steps, StepKey);
  }
}

/** Windows of days, pushed down to the stored labels. */
module Query {
  import opened Clock
  import opened Lists
  import opened Protocol

  /** The label rows are compared with: the cutoff in the server's clock, or as it is when the clock cannot say. */
  function WindowStart(clock: ServerClock, cutoff: int): int {
    match clock.ToServer(cutoff)
    case Some(local) => local
    case None => cutoff
  }

  /** The stored label passes the pushed-down comparison; a missing one never does. */
  predicate Passes(clock: ServerClock, cutoff: int, local: Option<int>) {
    local.Some? && local.value >= WindowStart(clock, cutoff)
  }

  /** The moment the row means is not before the cutoff. */
  predicate Within(clock: ServerClock, cutoff: int, local: Option<int>) {
    local.Some? && clock.ToUtc(local.value).Some? && clock.ToUtc(local.value).value >= cutoff
  }

  /** The comparison on labels decides as the one on instants, except in the windows around a switch. */
  lemma PushdownExactly(clock: ServerClock, cutoff: int, local: int)
    requires clock.ToServer(cutoff).Some?
    ensures var i := InForce(clock.steps, local);
            var j := InForceUtc(clock.steps, cutoff);
            (Passes(clock, cutoff, Some(local)) <==> Within(clock, cutoff, Some(local))) <==>
            && !(i > j && local < cutoff + clock.steps[j].minutes * MINUTE)
            && !(0 <= i < j && local - clock.steps[i].minutes * MINUTE >= cutoff)
  {
    var steps := clock.steps;
    var i, j := InForce(steps, local), InForceUtc(steps, cutoff);
    var start := WindowStart(clock, cutoff);
    assert start == cutoff + steps[j].minutes * MINUTE >= steps[j].at;
    if i > j {
      assert cutoff + steps[i].minutes * MINUTE < steps[i].at <= local;
    } else if i < j {
      assert local < steps[j].at <= start;
    }
  }

  /** When no step has reached the cutoff it is compared as it is, and that is right exactly on one side of it. */
  lemma PushdownBeforeTheClock(clock: ServerClock, cutoff: int, local: int)
    requires clock.ToServer(cutoff).None?
    ensures (Passes(clock, cutoff, Some(local)) <==> Within(clock, cutoff, Some(local)))
            <==> (local >= cutoff <==> exists i :: 0 <= i < |clock.steps| && clock.steps[i].at <= local)
  {
    var i := InForce(clock.steps, local);
    if i >= 0 {
      assert cutoff + clock.steps[i].minutes * MINUTE < clock.steps[i].at <= local;
    }
  }

  lemma NotRepeatedLater(steps: seq<Step>, cutoff: int, i: nat)
    requires InForceUtc(steps, cutoff) >= 0 && !Repeated(steps, cutoff) && InForceUtc(steps, cutoff) < i < |steps|
    ensures steps[i].at > cutoff + steps[InForceUtc(steps, cutoff)].minutes * MINUTE
  {
    assert cutoff + steps[i].minutes * MINUTE < steps[i].at;
  }

  lemma NotSkippedLater(steps: seq<Step>, local: int, j: nat)
    requires InForce(steps, local) >= 0 && !Skipped(steps, local) && InForce(steps, local) < j < |steps|
    ensures steps[j].at - steps[j].minutes * MINUTE > local - steps[InForce(steps, local)].minutes * MINUTE
  {
    var i := InForce(steps, local);
    assert local < steps[j].at;
    assert (steps[j].minutes - steps[i].minutes) * MINUTE == steps[j].minutes * MINUTE - steps[i].minutes * MINUTE;
  }

  /** Outside the windows of a switch the pushed-down comparison is exact. */
  lemma PushdownIsExact(clock: ServerClock, cutoff: int, local: Option<int>)
    requires clock.ToServer(cutoff).Some? && !Repeated(clock.steps, cutoff)
    requires local.Some? ==> !Skipped(clock.steps, local.value)
    ensures Passes(clock, cutoff, local) <==> Within(clock, cutoff, local)
  {
    if local.Some? {
      PushdownExactly(clock, cutoff, local.value);
      var i, j := InForce(clock.steps, local.value), InForceUtc(clock.steps, cutoff);
      if i > j {
        NotRepeatedLater(clock.steps, cutoff, i);
      } else if 0 <= i < j {
        NotSkippedLater(clock.steps, local.value, j);
      }
    }
  }

  function PassesAt<T>(clock: ServerClock, cutoff: int, stamp: T -> Option<int>): T -> bool {
    (row: T) => Passes(clock, cutoff, stamp(row))
  }

  function WithinAt<T>(clock: ServerClock, cutoff: int, stamp: T -> Option<int>): T -> bool {
    (row: T) => Within(clock, cutoff, stamp(row))
  }

  /** A query window selects exactly the rows whose moment lies in it. */
  lemma WindowSelectsTheMoments<T>(clock: ServerClock, cutoff: int, rows: seq<T>, stamp: T -> Option<int>)
    requires clock.ToServer(cutoff).Some? && !Repeated(clock.steps, cutoff)
    requires forall row :: row in rows && stamp(row).Some? ==> !Skipped(clock.steps, stamp(row).value)
    ensures Filter(rows, PassesAt(clock, cutoff, stamp)) == Filter(rows, WithinAt(clock, cutoff, stamp))
  {
    forall row | row in rows ensures PassesAt(clock, cutoff, stamp)(row) == WithinAt(clock, cutoff, stamp)(row) {
      PushdownIsExact(clock, cutoff, stamp(row));
    }
    FilterAgrees(rows, PassesAt(clock, cutoff, stamp), WithinAt(clock, cutoff, stamp));
  }
}
