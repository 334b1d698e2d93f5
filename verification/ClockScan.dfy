/** Reading the clock off the trading week: weekend gaps, their offsets, and the switches between them. */
module ClockScan {
  import opened Protocol
  import opened Clock

  const MIN_GAP_SECONDS: int := 24 * 3600
  const MAX_OFFSET_MINUTES: int := 14 * 60
  const ROUND_TO_MINUTES: int := 30
  const MAX_SWITCH_MINUTES: int := 60
  const CONFIRMATIONS: nat := 2

  /** Days are counted from 1970-01-01, a Thursday; Monday is 0. */
  function Day(instant: int): int { instant / DAY }

  function Weekday(day: int): int { (day + 3) % 7 }

  const FRIDAY: int := 4

  /** 17:00 in New York: 21:00 or 22:00 UTC, as the zone database says for that day. */
  function Close(summer: int -> bool, day: int): int {
    day * DAY + (if summer(day) then 21 else 22) * HOUR
  }

  /** A day is a Friday if it is a whole number of weeks after 2 January 1970. */
  lemma Fridays(day: int)
    ensures Weekday(day) == FRIDAY <==> day % 7 == 1
  {
  }

  /** New York is four hours behind UTC in summer and five otherwise. */
  lemma ClosesAtFive(summer: int -> bool, day: int)
    ensures Close(summer, day) == day * DAY + 17 * HOUR + (if summer(day) then 4 else 5) * HOUR
  {
  }

  const SLOT: int := ROUND_TO_MINUTES * MINUTE

  /** Python's round of a distance in slots of half an hour: to the nearest, halves to even. */
  function RoundToSlots(distance: int): (r: int)
    ensures -SLOT <= 2 * (r * SLOT - distance) <= SLOT
    ensures distance % SLOT == 0 ==> r * SLOT == distance
    ensures 2 * (distance % SLOT) == SLOT ==> r % 2 == 0
  {
    var low := distance / SLOT;
    var rest := distance % SLOT;
    if 2 * rest < SLOT then low
    else if 2 * rest > SLOT then low + 1
    else if low % 2 == 0 then low else low + 1
  }

  datatype Weekend = Weekend(closedAt: int, opensAt: int, minutes: int)

  // The Friday close nearest to a label.

  /** The Friday within two days of a day: there is one from Wednesday to Sunday, and never two. */
  function FridayNear(day: int): Option<int> {
    var weekday := Weekday(day);
    if 2 <= weekday then Some(day + FRIDAY - weekday) else None
  }

  lemma FridayNearIsUnique(day: int, other: int)
    requires -2 <= other - day <= 2
    ensures Weekday(other) == FRIDAY <==> FridayNear(day) == Some(other)
  {
  }

  lemma NearCloses(summer: int -> bool, local: int)
    ensures FridayNear(Day(local)).None? <==> forall day :: local / DAY - 2 <= day <= local / DAY + 2 ==> day % 7 != 1
    ensures FridayNear(Day(local)).Some? ==>
              var day := FridayNear(Day(local)).value;
              && local / DAY - 2 <= day <= local / DAY + 2 && day % 7 == 1
              && Close(summer, day) == day * DAY + 17 * HOUR + (if summer(day) then 4 else 5) * HOUR
  {
    forall day | local / DAY - 2 <= day <= local / DAY + 2 ensures day % 7 == 1 <==> FridayNear(Day(local)) == Some(day) {
      Fridays(day);
      FridayNearIsUnique(Day(local), day);
    }
    if FridayNear(Day(local)).Some? {
      ClosesAtFive(summer, FridayNear(Day(local)).value);
    }
  }

  /** 17:00 in New York on the Friday within two days of a label's day; none if there is no such Friday. */
  method FridayCloseUtc(summer: int -> bool, local: int) returns (best: Option<int>)
    ensures best.None? <==> forall day :: local / DAY - 2 <= day <= local / DAY + 2 ==> day % 7 != 1
    ensures best.Some? ==> exists day :: && local / DAY - 2 <= day <= local / DAY + 2 && day % 7 == 1
                                         && best.value == day * DAY + 17 * HOUR + (if summer(day) then 4 else 5) * HOUR
    ensures best == match FridayNear(Day(local)) case None => None case Some(friday) => Some(Close(summer, friday))
  {
    best := None;
    for delta := -2 to 3
      invariant best.None? ==> forall day :: Day(local) - 2 <= day < Day(local) + delta ==> Weekday(day) != FRIDAY
      invariant best.Some? ==> exists day :: && Day(local) - 2 <= day < Day(local) + delta && Weekday(day) == FRIDAY
                                             && best.value == Close(summer, day)
    {
      var day := Day(local) + delta;
      if Weekday(day) != FRIDAY {
        continue;
      }
      var close := Close(summer, day);
      if best.None? || Abs(local - close) < Abs(local - best.value) {
        best := Some(close);
      }
    }
    forall day | -2 <= day - Day(local) <= 2 ensures Weekday(day) == FRIDAY <==> FridayNear(Day(local)) == Some(day) {
      FridayNearIsUnique(Day(local), day);
    }
    if FridayNear(Day(local)).Some? {
      assert Weekday(FridayNear(Day(local)).value) == FRIDAY;
    }
    NearCloses(summer, local);
  }

  // Weekend readings.

  predicate Gap(times: seq<int>, k: nat)
    requires k + 1 < |times|
  {
    times[k + 1] - times[k] >= MIN_GAP_SECONDS
  }

  /** What one gap says about the offset, if it says anything; bar times are whole seconds, labelled by their open. */
  function ReadingAt(summer: int -> bool, before: int, after: int): Option<Weekend> {
    if after - before < MIN_GAP_SECONDS then None
    else
      var closedAt := before * SECOND + HOUR;
      match FridayNear(Day(closedAt))
      case None => None
      case Some(friday) =>
        var distance := closedAt - Close(summer, friday);
        if Abs(distance) > MAX_OFFSET_MINUTES * MINUTE then None
        else Some(Weekend(closedAt, after * SECOND,
                          RoundToSlots(distance) * ROUND_TO_MINUTES))
  }

  function Readings(summer: int -> bool, times: seq<int>): seq<Weekend> {
    if |times| < 2 then []
    else
      Readings(summer, times[..|times| - 1])
      + match ReadingAt(summer, times[|times| - 2], times[|times| - 1])
        case None => []
        case Some(weekend) => [weekend]
  }

  method Weekends(summer: int -> bool, times: seq<int>) returns (readings: seq<Weekend>)
    ensures readings == Readings(summer, times)
  {
    readings := [];
    if |times| == 0 {
      return;
    }
    for k := 0 to |times| - 1
      invariant readings == Readings(summer, times[..k + 1])
    {
      var before, after := times[k], times[k + 1];
      assert times[..k + 2][..k + 1] == times[..k + 1];
      if after - before < MIN_GAP_SECONDS {
        continue;
      }
      var closedAt := before * SECOND + HOUR;
      var close := FridayCloseUtc(summer, closedAt);
      if close.None? {
        continue;
      }
      var distance := closedAt - close.value;
      if Abs(distance) > MAX_OFFSET_MINUTES * MINUTE {
        continue;
      }
      readings := readings + [Weekend(closedAt, after * SECOND,
                                      RoundToSlots(distance) * ROUND_TO_MINUTES)];
    }
    assert times[..|times|] == times;
  }

  /**
   An offset within fourteen hours is read back exactly: the last bar of the week, an hour long, ends when New York closes
   on Friday at 17:00, as the broker's clock shows it.
   */
  lemma OffsetIsReadBack(summer: int -> bool, friday: int, minutes: int, before: int, after: int)
    requires friday % 7 == 1
    requires -14 * 60 <= minutes <= 14 * 60 && minutes % 30 == 0
    requires before * SECOND + HOUR == friday * DAY + 17 * HOUR + (if summer(friday) then 4 else 5) * HOUR + minutes * MINUTE
    requires after - before >= 24 * 3600
    ensures ReadingAt(summer, before, after) == Some(Weekend(before * SECOND + HOUR, after * SECOND, minutes))
  {
    var closedAt := before * SECOND + HOUR;
    Fridays(friday);
    ClosesAtFive(summer, friday);
    CloseIsNear(summer, friday, closedAt);
    FridayNearIsUnique(Day(closedAt), friday);
    WholeSlots(minutes);
  }

  /** What a gap between bars says: how far its close lies from New York's, to the nearest half hour. */
  ghost predicate Says(summer: int -> bool, before: int, after: int, weekend: Weekend, friday: int) {
    var distance := weekend.closedAt - (friday * DAY + 17 * HOUR + (if summer(friday) then 4 else 5) * HOUR);
    && friday % 7 == 1
    && weekend.closedAt == before * SECOND + HOUR && weekend.opensAt == after * SECOND
    && -14 * HOUR <= distance <= 14 * HOUR
    && weekend.minutes % 30 == 0
    && -15 * MINUTE <= weekend.minutes * MINUTE - distance <= 15 * MINUTE
  }

  /** A gap is read exactly if it lasts a day and begins within fourteen hours of a Friday close. */
  lemma ReadingExactly(summer: int -> bool, before: int, after: int)
    ensures ReadingAt(summer, before, after).Some? <==>
            after - before >= 24 * 3600 && exists weekend, friday :: Says(summer, before, after, weekend, friday)
    ensures ReadingAt(summer, before, after).Some? ==>
              exists friday :: Says(summer, before, after, ReadingAt(summer, before, after).value, friday)
  {
    var closedAt := before * SECOND + HOUR;
    if ReadingAt(summer, before, after).Some? {
      var friday := FridayNear(Day(closedAt)).value;
      FridayNearIsUnique(Day(closedAt), friday);
      Fridays(friday);
      ClosesAtFive(summer, friday);
      assert Says(summer, before, after, ReadingAt(summer, before, after).value, friday);
    }
    if weekend, friday :| Says(summer, before, after, weekend, friday) {
      Fridays(friday);
      ClosesAtFive(summer, friday);
      CloseIsNear(summer, friday, closedAt);
      FridayNearIsUnique(Day(closedAt), friday);
    }
  }

  lemma CloseIsNear(summer: int -> bool, friday: int, at: int)
    requires Abs(at - Close(summer, friday)) <= MAX_OFFSET_MINUTES * MINUTE
    ensures 0 <= Day(at) - friday <= 1
  {
  }

  lemma WholeSlots(minutes: int)
    requires minutes % ROUND_TO_MINUTES == 0
    ensures minutes * MINUTE == (minutes / ROUND_TO_MINUTES) * SLOT && (minutes * MINUTE) % SLOT == 0
  {
  }

  // Collapsing the readings to switches.

  /** The next two readings agree with this one. */
  predicate Confirmed(weekends: seq<Weekend>, i: nat) {
    && i + CONFIRMATIONS < |weekends|
    && weekends[i + 1].minutes == weekends[i].minutes
    && weekends[i + 2].minutes == weekends[i].minutes
  }

  /** The steps after the first n readings. */
  function Collapsed(start: int, weekends: seq<Weekend>, n: nat): (steps: seq<Step>)
    requires n <= |weekends|
    ensures steps != [] ==> n > 0
  {
    if n == 0 then []
    else
      var before := Collapsed(start, weekends, n - 1);
      var weekend := weekends[n - 1];
      if !Confirmed(weekends, n - 1) then before
      else if before == [] then [Step(start, weekend.minutes)]
      else
        var current := before[|before| - 1].minutes;
        if weekend.minutes == current || Abs(weekend.minutes - current) > MAX_SWITCH_MINUTES then before
        else before + [Step(weekends[n - 2].opensAt, weekend.minutes)]
  }

  method Steps(start: int, weekends: seq<Weekend>) returns (steps: seq<Step>)
    ensures steps == Collapsed(start, weekends, |weekends|)
  {
    steps := [];
    for index := 0 to |weekends|
      invariant steps == Collapsed(start, weekends, index)
    {
      var weekend := weekends[index];
      var confirmations := if index + 1 + CONFIRMATIONS <= |weekends|
                           then weekends[index + 1..index + 1 + CONFIRMATIONS] else weekends[index + 1..];
      if |confirmations| < CONFIRMATIONS {
        continue;
      }
      if confirmations[0].minutes != weekend.minutes || confirmations[1].minutes != weekend.minutes {
        continue;
      }
      if steps == [] {
        steps := [Step(start, weekend.minutes)];
        continue;
      }
      var current := steps[|steps| - 1].minutes;
      if weekend.minutes == current || Abs(weekend.minutes - current) > MAX_SWITCH_MINUTES {
        continue;
      }
      steps := steps + [Step(weekends[index - 1].opensAt, weekend.minutes)];
    }
  }

  ghost predicate Witnessed(weekends: seq<Weekend>, n: nat, minutes: int) {
    exists i: nat :: i < n && Confirmed(weekends, i) && weekends[i].minutes == minutes
  }

  /** Every step is witnessed by three agreeing readings, and neighbours differ by more than nothing and at most an hour. */
  lemma {:induction false} StepsAreWitnessed(start: int, weekends: seq<Weekend>, n: nat)
    requires n <= |weekends|
    ensures var steps := Collapsed(start, weekends, n);
            && (forall j :: 0 <= j < |steps| ==> Witnessed(weekends, n, steps[j].minutes))
            && (forall j, k :: 0 <= j < k < |steps| && k == j + 1 ==>
                  && steps[j].minutes != steps[k].minutes
                  && Abs(steps[k].minutes - steps[j].minutes) <= 60)
            && (steps != [] ==> steps[0].at == start)
            && (steps == [] <==> forall i: nat :: i < n ==> !Confirmed(weekends, i))
  {
    if n > 0 {
      StepsAreWitnessed(start, weekends, n - 1);
      var before := Collapsed(start, weekends, n - 1);
      var steps := Collapsed(start, weekends, n);
      forall j | 0 <= j < |steps| ensures Witnessed(weekends, n, steps[j].minutes) {
        if j < |before| {
          assert Witnessed(weekends, n - 1, before[j].minutes);
          assert steps[j].minutes == before[j].minutes;
          var i: nat :| i < n - 1 && Confirmed(weekends, i) && weekends[i].minutes == before[j].minutes;
          assert i < n && Confirmed(weekends, i);
        } else {
          assert Confirmed(weekends, n - 1);
        }
      }
    }
  }

  // Recovery of the true switches.

  /** From reading `first` on the true offset is `minutes`. */
  datatype Stretch = Stretch(first: nat, minutes: int)

  ghost predicate Stretches(weekends: seq<Weekend>, truth: seq<Stretch>) {
    && truth != [] && truth[0].first == 0
    && (forall j, k :: 0 <= j < k < |truth| ==> truth[j].first < truth[k].first)
    && (forall j :: 0 <= j < |truth| ==> truth[j].first <= |weekends|)
    && (forall j, k :: 0 <= j < k < |truth| && k == j + 1 ==>
          && truth[j].minutes != truth[k].minutes
          && Abs(truth[k].minutes - truth[j].minutes) <= 60)
  }

  /** How many stretches begin before reading n. */
  ghost function Begun(truth: seq<Stretch>, n: nat): (c: nat)
    ensures c <= |truth|
    ensures forall j :: 0 <= j < |truth| && (forall i, k :: 0 <= i < k < |truth| ==> truth[i].first < truth[k].first)
              ==> (truth[j].first < n <==> j < c)
  {
    if truth == [] then 0
    else if truth[|truth| - 1].first < n then |truth|
    else Begun(truth[..|truth| - 1], n)
  }

  ghost function TrueMinutes(truth: seq<Stretch>, i: nat): int
    requires truth != []
  {
    var c := Begun(truth, i + 1);
    if c == 0 then truth[0].minutes else truth[c - 1].minutes
  }

  /**
   What the scan asks of the readings: whatever three readings agree on is the truth where they start, the first
   stretch shows itself somewhere, and every later one at once. Holidays may disturb anything else.
   */
  ghost predicate Legible(weekends: seq<Weekend>, truth: seq<Stretch>)
    requires truth != []
  {
    && (forall i: nat :: Confirmed(weekends, i) ==> weekends[i].minutes == TrueMinutes(truth, i))
    && (exists i: nat :: Confirmed(weekends, i) && (|truth| > 1 ==> i < truth[1].first))
    && (forall j :: 1 <= j < |truth| ==> Confirmed(weekends, truth[j].first))
  }

  /** The true switches, each at the open after the weekend it happened in. */
  function Switches(start: int, weekends: seq<Weekend>, truth: seq<Stretch>): seq<Step>
    requires forall j :: 1 <= j < |truth| ==> 1 <= truth[j].first <= |weekends|
  {
    seq(|truth|, j requires 0 <= j < |truth| =>
      Step(if j == 0 then start else weekends[truth[j].first - 1].opensAt, truth[j].minutes))
  }

  ghost predicate Seen(weekends: seq<Weekend>, n: nat) {
    exists i: nat :: i < n && Confirmed(weekends, i)
  }

  lemma BegunGrows(truth: seq<Stretch>, n: nat)
    requires forall i, k :: 0 <= i < k < |truth| ==> truth[i].first < truth[k].first
    ensures Begun(truth, n) <= Begun(truth, n + 1) <= Begun(truth, n) + 1
    ensures Begun(truth, n + 1) > Begun(truth, n) ==> truth[Begun(truth, n)].first == n
    ensures forall j :: 0 <= j < |truth| && truth[j].first == n ==> Begun(truth, n) == j && Begun(truth, n + 1) == j + 1
  {
    var c, d := Begun(truth, n), Begun(truth, n + 1);
    if c < |truth| {
      assert truth[c].first >= n;
      if c + 1 < |truth| {
        assert truth[c].first < truth[c + 1].first;
      }
    }
    if c > 0 { assert truth[c - 1].first < n; }
    if d > 0 { assert truth[d - 1].first < n + 1; }
  }

  /** After n readings the scan has found exactly the switches begun so far, once the first stretch has shown itself. */
  lemma {:induction false} CollapsedFindsSwitches(start: int, weekends: seq<Weekend>, truth: seq<Stretch>, n: nat)
    requires n <= |weekends| && Stretches(weekends, truth) && Legible(weekends, truth)
    ensures Collapsed(start, weekends, n) == Found(start, weekends, truth, n)
  {
    if n > 0 {
      CollapsedFindsSwitches(start, weekends, truth, n - 1);
      if Confirmed(weekends, n - 1) {
        ConfirmedFinds(start, weekends, truth, n);
      } else {
        UnconfirmedFinds(start, weekends, truth, n);
      }
    }
  }

  /** The switches begun before reading n, once the first stretch has shown itself. */
  ghost function Found(start: int, weekends: seq<Weekend>, truth: seq<Stretch>, n: nat): seq<Step>
    requires Stretches(weekends, truth)
  {
    if Seen(weekends, n) then Switches(start, weekends, truth)[..Begun(truth, n)] else []
  }

  /** No stretch but the first begins at a reading that is not confirmed. */
  lemma UnconfirmedBegins(weekends: seq<Weekend>, truth: seq<Stretch>, n: nat)
    requires 0 < n && !Confirmed(weekends, n - 1)
    requires truth != [] && truth[0].first == 0 && forall j, k :: 0 <= j < k < |truth| ==> truth[j].first < truth[k].first
    requires forall j :: 1 <= j < |truth| ==> Confirmed(weekends, truth[j].first)
    ensures Begun(truth, n) == Begun(truth, n - 1) || n == 1
  {
    BegunGrows(truth, n - 1);
    var c := Begun(truth, n - 1);
    if Begun(truth, n) > c {
      assert truth[c].first == n - 1;
      assert c == 0;
    }
  }

  lemma UnconfirmedFinds(start: int, weekends: seq<Weekend>, truth: seq<Stretch>, n: nat)
    requires 0 < n <= |weekends| && Stretches(weekends, truth) && Legible(weekends, truth)
    requires !Confirmed(weekends, n - 1)
    ensures Found(start, weekends, truth, n) == Found(start, weekends, truth, n - 1)
  {
    UnconfirmedBegins(weekends, truth, n);
    SeenUnconfirmed(weekends, n);
  }

  lemma SeenUnconfirmed(weekends: seq<Weekend>, n: nat)
    requires 0 < n <= |weekends| && !Confirmed(weekends, n - 1)
    ensures Seen(weekends, n) == Seen(weekends, n - 1)
    ensures n == 1 ==> !Seen(weekends, n)
  {
  }

  lemma ConfirmedFinds(start: int, weekends: seq<Weekend>, truth: seq<Stretch>, n: nat)
    requires 0 < n <= |weekends| && Stretches(weekends, truth) && Legible(weekends, truth)
    requires Confirmed(weekends, n - 1)
    requires Collapsed(start, weekends, n - 1) == Found(start, weekends, truth, n - 1)
    ensures Collapsed(start, weekends, n) == Found(start, weekends, truth, n)
  {
    assert Seen(weekends, n);
    ConfirmedMinutes(weekends, truth, n);
    if !Seen(weekends, n - 1) {
      FirstSeenInFirstStretch(weekends, truth, n);
      FirstSwitch(start, weekends, truth);
    } else {
      SeenHasBegun(weekends, truth, n - 1);
      SeenFinds(start, weekends, truth, n);
    }
  }

  lemma FirstSwitch(start: int, weekends: seq<Weekend>, truth: seq<Stretch>)
    requires Stretches(weekends, truth)
    ensures Switches(start, weekends, truth)[..1] == [Step(start, truth[0].minutes)]
  {
  }

  lemma ConfirmedMinutes(weekends: seq<Weekend>, truth: seq<Stretch>, n: nat)
    requires 0 < n <= |weekends| && Stretches(weekends, truth) && Legible(weekends, truth) && Confirmed(weekends, n - 1)
    ensures Begun(truth, n) > 0 && weekends[n - 1].minutes == truth[Begun(truth, n) - 1].minutes
  {
    assert truth[0].first < n;
  }

  /** A confirmed reading that agrees with the newest step adds nothing; one that differs by at most an hour adds a step. */
  lemma CollapsedNext(start: int, weekends: seq<Weekend>, n: nat, minutes: int)
    requires 0 < n <= |weekends| && Confirmed(weekends, n - 1)
    requires var before := Collapsed(start, weekends, n - 1); before != [] && before[|before| - 1].minutes == minutes
    requires Abs(weekends[n - 1].minutes - minutes) <= MAX_SWITCH_MINUTES
    ensures Collapsed(start, weekends, n)
         == if weekends[n - 1].minutes == minutes then Collapsed(start, weekends, n - 1)
            else Collapsed(start, weekends, n - 1) + [Step(weekends[n - 2].opensAt, weekends[n - 1].minutes)]
  {
  }

  lemma SeenFinds(start: int, weekends: seq<Weekend>, truth: seq<Stretch>, n: nat)
    requires 0 < n <= |weekends| && Stretches(weekends, truth) && Confirmed(weekends, n - 1)
    requires Begun(truth, n - 1) > 0 && Begun(truth, n) > 0
    requires weekends[n - 1].minutes == truth[Begun(truth, n) - 1].minutes
    requires Collapsed(start, weekends, n - 1) == Switches(start, weekends, truth)[..Begun(truth, n - 1)]
    ensures Collapsed(start, weekends, n) == Switches(start, weekends, truth)[..Begun(truth, n)]
  {
    BegunGrows(truth, n - 1);
    var c, d := Begun(truth, n - 1), Begun(truth, n);
    var all := Switches(start, weekends, truth);
    assert all[c - 1].minutes == truth[c - 1].minutes;
    if d == c + 1 {
      assert truth[c - 1].minutes != truth[c].minutes;
      assert all[..d] == all[..c] + [all[c]];
    }
    CollapsedNext(start, weekends, n, truth[c - 1].minutes);
  }

  lemma SeenHasBegun(weekends: seq<Weekend>, truth: seq<Stretch>, n: nat)
    requires Stretches(weekends, truth) && Seen(weekends, n)
    ensures Begun(truth, n) > 0
  {
    assert truth[0].first < n;
  }

  lemma FirstSeenInFirstStretch(weekends: seq<Weekend>, truth: seq<Stretch>, n: nat)
    requires 0 < n <= |weekends| && Stretches(weekends, truth) && Legible(weekends, truth)
    requires !Seen(weekends, n - 1)
    ensures Begun(truth, n) == 1
  {
    var i: nat :| Confirmed(weekends, i) && (|truth| > 1 ==> i < truth[1].first);
    assert i >= n - 1;
    assert truth[0].first < n;
    if |truth| > 1 {
      assert truth[1].first >= n;
    }
  }

  lemma AllBegun(weekends: seq<Weekend>, truth: seq<Stretch>)
    requires Stretches(weekends, truth) && Legible(weekends, truth)
    ensures Begun(truth, |weekends|) == |truth| && Seen(weekends, |weekends|)
  {
    var i: nat :| Confirmed(weekends, i);
    assert i < |weekends|;
    var last := |truth| - 1;
    if last > 0 {
      assert Confirmed(weekends, truth[last].first);
    }
    assert truth[last].first < |weekends|;
  }

  /** Clock recovery: the scan returns exactly the true switches, each keyed to the open after its weekend. */
  lemma ScanRecoversSwitches(start: int, weekends: seq<Weekend>, truth: seq<Stretch>)
    requires Stretches(weekends, truth) && Legible(weekends, truth)
    ensures Collapsed(start, weekends, |weekends|) == Switches(start, weekends, truth)
  {
    CollapsedFindsSwitches(start, weekends, truth, |weekends|);
    AllBegun(weekends, truth);
    WholeSlice(Switches(start, weekends, truth));
  }

  lemma WholeSlice(steps: seq<Step>)
    ensures steps[..|steps|] == steps
  {
  }

  function StretchEnd(weekends: seq<Weekend>, truth: seq<Stretch>, j: nat): nat
    requires j < |truth|
  {
    if j + 1 < |truth| then truth[j + 1].first else |weekends|
  }

  /** Undisturbed readings of stretches at least three weekends long are legible. */
  lemma LongStretchesAreLegible(weekends: seq<Weekend>, truth: seq<Stretch>)
    requires Stretches(weekends, truth)
    requires forall i: nat :: i < |weekends| ==> weekends[i].minutes == TrueMinutes(truth, i)
    requires forall j :: 0 <= j < |truth| ==> truth[j].first + 3 <= StretchEnd(weekends, truth, j)
    ensures Legible(weekends, truth)
  {
    forall j | 0 <= j < |truth| ensures Confirmed(weekends, truth[j].first) {
      var first := truth[j].first;
      assert first + 3 <= StretchEnd(weekends, truth, j) <= |weekends|;
      forall i: nat | first <= i <= first + 2 ensures weekends[i].minutes == truth[j].minutes {
        assert Begun(truth, i + 1) == j + 1 by {
          assert truth[j].first < i + 1;
          if j + 1 < |truth| { assert truth[j + 1].first >= i + 1; }
        }
      }
      assert weekends[first].minutes == truth[j].minutes;
      assert weekends[first + 1].minutes == truth[j].minutes;
      assert weekends[first + 2].minutes == truth[j].minutes;
    }
    assert Confirmed(weekends, truth[0].first);
  }

  /** Holiday immunity: readings that stray for at most two weekends at a time leave a constant clock one step. */
  lemma HolidaysMakeNoSwitch(start: int, weekends: seq<Weekend>, minutes: int)
    requires forall i: nat :: i + 2 < |weekends| ==>
               || weekends[i].minutes == minutes
               || weekends[i + 1].minutes == minutes
               || weekends[i + 2].minutes == minutes
    requires exists i: nat :: Confirmed(weekends, i) && weekends[i].minutes == minutes
    ensures Collapsed(start, weekends, |weekends|) == [Step(start, minutes)]
  {
    var truth := [Stretch(0, minutes)];
    forall i: nat | Confirmed(weekends, i) ensures weekends[i].minutes == TrueMinutes(truth, i) {
      assert i + 2 < |weekends|;
    }
    ScanRecoversSwitches(start, weekends, truth);
  }

  // Which changes are believed.

  /** Every change is by exactly an hour, as documented. */
  ghost predicate ByTheHour(minutes: seq<int>) {
    forall j, k :: 0 <= j < k < |minutes| && k == j + 1 ==> Abs(minutes[k] - minutes[j]) == 60
  }

  function StepMinutes(steps: seq<Step>): seq<int> {
    seq(|steps|, j requires 0 <= j < |steps| => steps[j].minutes)
  }

  function StretchMinutes(truth: seq<Stretch>): seq<int> {
    seq(|truth|, j requires 0 <= j < |truth| => truth[j].minutes)
  }

  /** For legible readings every change found is by an hour, exactly if every true one is. */
  lemma HourStepsExactly(start: int, weekends: seq<Weekend>, truth: seq<Stretch>)
    requires Stretches(weekends, truth) && Legible(weekends, truth)
    ensures ByTheHour(StepMinutes(Collapsed(start, weekends, |weekends|))) <==> ByTheHour(StretchMinutes(truth))
  {
    ScanRecoversSwitches(start, weekends, truth);
    SwitchMinutes(start, weekends, truth);
  }

  lemma SwitchMinutes(start: int, weekends: seq<Weekend>, truth: seq<Stretch>)
    requires forall j :: 1 <= j < |truth| ==> 1 <= truth[j].first <= |weekends|
    ensures StepMinutes(Switches(start, weekends, truth)) == StretchMinutes(truth)
  {
  }

  /** For any readings it is, if those that count differ from one another by whole hours. */
  lemma WholeHoursGiveHourSteps(start: int, weekends: seq<Weekend>, n: nat, rest: int)
    requires n <= |weekends|
    requires forall i: nat :: i < n && Confirmed(weekends, i) ==> weekends[i].minutes % 60 == rest
    ensures ByTheHour(StepMinutes(Collapsed(start, weekends, n)))
  {
    StepsAreWitnessed(start, weekends, n);
    var steps := Collapsed(start, weekends, n);
    forall j, k | 0 <= j < k < |steps| && k == j + 1
      ensures Abs(StepMinutes(steps)[k] - StepMinutes(steps)[j]) == 60
    {
      WitnessRest(weekends, n, steps[j].minutes, rest);
      WitnessRest(weekends, n, steps[k].minutes, rest);
      HourApart(steps[j].minutes, steps[k].minutes);
    }
  }

  lemma WitnessRest(weekends: seq<Weekend>, n: nat, minutes: int, rest: int)
    requires n <= |weekends| && Witnessed(weekends, n, minutes)
    requires forall i: nat :: i < n && Confirmed(weekends, i) ==> weekends[i].minutes % 60 == rest
    ensures minutes % 60 == rest
  {
  }

  lemma HourApart(x: int, y: int)
    requires x % 60 == y % 60 && x != y && Abs(y - x) <= 60
    ensures Abs(y - x) == 60
  {
  }

  function WeekendAt(k: int, minutes: int): Weekend { Weekend(k * 7 * DAY, k * 7 * DAY + 2 * DAY, minutes) }

  const HALF_HOUR_READINGS: seq<Weekend> :=
    [WeekendAt(1, 120), WeekendAt(2, 120), WeekendAt(3, 120), WeekendAt(4, 150), WeekendAt(5, 150), WeekendAt(6, 150)]

  const HALF_HOUR_TRUTH: seq<Stretch> := [Stretch(0, 120), Stretch(3, 150)]

  lemma HalfHourIsTrue(i: nat)
    requires i < 6
    ensures HALF_HOUR_READINGS[i].minutes == TrueMinutes(HALF_HOUR_TRUTH, i)
  {
    var c := Begun(HALF_HOUR_TRUTH, i + 1);
    assert HALF_HOUR_TRUTH[0].first < i + 1 <==> 0 < c;
    assert HALF_HOUR_TRUTH[1].first < i + 1 <==> 1 < c;
  }

  lemma HalfHourStretches()
    ensures Stretches(HALF_HOUR_READINGS, HALF_HOUR_TRUTH)
    ensures forall j :: 0 <= j < 2 ==> HALF_HOUR_TRUTH[j].first + 3 <= StretchEnd(HALF_HOUR_READINGS, HALF_HOUR_TRUTH, j)
  {
  }

  lemma HalfHourIsLegible()
    ensures Stretches(HALF_HOUR_READINGS, HALF_HOUR_TRUTH) && Legible(HALF_HOUR_READINGS, HALF_HOUR_TRUTH)
  {
    HalfHourStretches();
    forall i: nat | i < |HALF_HOUR_READINGS| ensures HALF_HOUR_READINGS[i].minutes == TrueMinutes(HALF_HOUR_TRUTH, i) {
      HalfHourIsTrue(i);
    }
    LongStretchesAreLegible(HALF_HOUR_READINGS, HALF_HOUR_TRUTH);
  }

  /** A change of half an hour is believed, though the documentation asks for exactly an hour. */
  lemma HalfHourIsBelieved()
    ensures Stretches(HALF_HOUR_READINGS, HALF_HOUR_TRUTH) && Legible(HALF_HOUR_READINGS, HALF_HOUR_TRUTH)
    ensures StepMinutes(Collapsed(0, HALF_HOUR_READINGS, |HALF_HOUR_READINGS|)) == [120, 150]
    ensures !ByTheHour([120, 150])
  {
    HalfHourIsLegible();
    ScanRecoversSwitches(0, HALF_HOUR_READINGS, HALF_HOUR_TRUTH);
    SwitchMinutes(0, HALF_HOUR_READINGS, HALF_HOUR_TRUTH);
    assert Abs([120, 150][1] - [120, 150][0]) == 30;
  }
}
