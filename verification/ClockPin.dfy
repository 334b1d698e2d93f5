/** The live tick: it owns the current trading week, the scan owns the history before it. */
module ClockPin {
  import opened Protocol
  import opened Clock
  import opened ClockScan
  import opened ClockRecovery

  /** Days from a day to the next Friday, itself included. */
  function ToFriday(day: int): (d: nat)
    ensures d <= 6 && Weekday(day + d) == FRIDAY
  {
    (FRIDAY - Weekday(day)) % 7
  }

  lemma FridaysAreAWeekApart(day: int, other: int)
    requires Weekday(day) == FRIDAY && Weekday(other) == FRIDAY && -6 <= other - day <= 6
    ensures day == other
  {
  }

  /** The close the current week ends with: this Friday's, or a week after it once that is over. */
  function WeekClose(summer: int -> bool, now: int): (close: int)
    ensures now <= close
  {
    var close := Close(summer, Day(now) + ToFriday(Day(now)));
    if close < now then close + 7 * DAY else close
  }

  /**
   The week closes at 17:00 in New York on the Friday of now or the next one, a week later if that is over, and opened five
   days before.
   */
  method WeekBounds(summer: int -> bool, now: int) returns (open: int, close: int)
    ensures exists friday ::
              var five := friday * DAY + 17 * HOUR + (if summer(friday) then 4 else 5) * HOUR;
              && friday % 7 == 1 && now / DAY <= friday <= now / DAY + 6
              && close == (if five < now then five + 7 * DAY else five)
    ensures now <= close && open == close - 5 * DAY
    ensures close == WeekClose(summer, now) && open == close - 5 * DAY
  {
    var day := Day(now);
    while Weekday(day) != FRIDAY
      invariant Day(now) <= day <= Day(now) + ToFriday(Day(now))
      decreases Day(now) + ToFriday(Day(now)) - day
    {
      assert day < Day(now) + ToFriday(Day(now));
      day := day + 1;
    }
    FridaysAreAWeekApart(day, Day(now) + ToFriday(Day(now)));
    Fridays(day);
    ClosesAtFive(summer, day);
    close := Close(summer, day);
    if close < now {
      close := close + 7 * DAY;
    }
    open := close - 5 * DAY;
  }

  /** When the trading week around now began. */
  function WeekOpen(summer: int -> bool, now: int): int {
    var open := WeekClose(summer, now) - 5 * DAY;
    if open > now then open - 7 * DAY else open
  }

  /** It is the last moment by now that lies whole weeks from five days before 17:00 in New York on the coming Friday. */
  lemma WeekOpenExactly(summer: int -> bool, now: int)
    ensures WeekOpen(summer, now) <= now < WeekOpen(summer, now) + 7 * DAY
    ensures exists friday ::
              && friday % 7 == 1 && now / DAY <= friday <= now / DAY + 6
              && (WeekOpen(summer, now) - (friday * DAY + 17 * HOUR + (if summer(friday) then 4 else 5) * HOUR - 5 * DAY))
                 % (7 * DAY) == 0
  {
    var friday := Day(now) + ToFriday(Day(now));
    Fridays(friday);
    ClosesAtFive(summer, friday);
    assert now - DAY < Day(now) * DAY <= now;
    var five := friday * DAY + 17 * HOUR + (if summer(friday) then 4 else 5) * HOUR;
    assert five == Close(summer, friday);
    assert WeekOpen(summer, now) - (five - 5 * DAY) in {-7 * DAY, 0, 7 * DAY};
  }

  function Pinned(steps: seq<Step>, weekOpen: int, live: int): seq<Step> {
    steps + [Step(weekOpen + live * MINUTE, live)]
  }

  /** A pin converts every stamp of its week by the live offset and leaves every older stamp to the scan. */
  lemma PinOwnsItsWeek(steps: seq<Step>, weekOpen: int, live: int, scanned: bool, local: int)
    ensures var pinned := ServerClock(Pinned(steps, weekOpen, live), scanned);
            if local - live * MINUTE >= weekOpen then pinned.ToUtc(local) == Some(local - live * MINUTE)
            else pinned.ToUtc(local) == ServerClock(steps, scanned).ToUtc(local)
  {
    assert Pinned(steps, weekOpen, live)[..|steps|] == steps;
  }

  /** The tick says something the scan does not. */
  predicate Corrects(live: Option<int>, scanned: Option<ServerClock>)
    requires scanned.Some? ==> scanned.value.Known()
  {
    live.Some? && (scanned.Some? ==> live.value != scanned.value.steps[|scanned.value.steps| - 1].minutes)
  }

  /**
   The clock a measurement ends with: the scan, or none; a tick that says something else owns the current week, and every
   older stamp is left to the scan.
   */
  method Measure(scanned: Option<ServerClock>, live: Option<int>, weekOpen: int) returns (clock: ServerClock)
    requires scanned.Some? ==> scanned.value.Known() && scanned.value.scanned
    ensures clock.Known() <==> scanned.Some? || live.Some?
    ensures clock.scanned <==> scanned.Some?
    ensures clock.Known() && live.Some? ==> clock.steps[|clock.steps| - 1].minutes == live.value
    ensures !Corrects(live, scanned) ==> clock.steps == if scanned.Some? then scanned.value.steps else []
    ensures Corrects(live, scanned) ==>
              clock.steps == Pinned(if scanned.Some? then scanned.value.steps else [], weekOpen, live.value)
    ensures Corrects(live, scanned) ==> forall local ::
              clock.ToUtc(local) == if local - live.value * MINUTE >= weekOpen then Some(local - live.value * MINUTE)
                                    else if scanned.Some? then scanned.value.ToUtc(local) else None
  {
    if Corrects(live, scanned) {
      forall local
        ensures ServerClock(Pinned(if scanned.Some? then scanned.value.steps else [], weekOpen, live.value), scanned.Some?).ToUtc(local)
             == if local - live.value * MINUTE >= weekOpen then Some(local - live.value * MINUTE)
                else if scanned.Some? then scanned.value.ToUtc(local) else None
      {
        PinOwnsItsWeek(if scanned.Some? then scanned.value.steps else [], weekOpen, live.value, scanned.Some?, local);
      }
    }
    if scanned.Some? {
      clock := scanned.value;
      if live.Some? && live.value != clock.steps[|clock.steps| - 1].minutes {
        clock := ServerClock(Pinned(clock.steps, weekOpen, live.value), true);
      }
      return;
    }
    if live.Some? {
      return ServerClock(Pinned([], weekOpen, live.value), false);
    }
    return ServerClock([], false);
  }

  // A pin keeps the steps in order: the last switch the scan confirmed is weeks old.

  /** What a reading says about the Friday it was taken at. */
  ghost predicate TakenAt(summer: int -> bool, weekend: Weekend, friday: int) {
    && Weekday(friday) == FRIDAY
    && Abs(weekend.closedAt - Close(summer, friday)) <= MAX_OFFSET_MINUTES * MINUTE
    && -SLOT <= 2 * (weekend.minutes * MINUTE - (weekend.closedAt - Close(summer, friday))) <= SLOT
  }

  ghost predicate Taken(summer: int -> bool, weekend: Weekend) {
    && (exists friday :: TakenAt(summer, weekend, friday))
    && weekend.opensAt >= weekend.closedAt + 23 * HOUR
  }

  lemma ReadingTaken(summer: int -> bool, before: int, after: int)
    requires ReadingAt(summer, before, after).Some?
    ensures Taken(summer, ReadingAt(summer, before, after).value)
  {
    var friday := FridayNear(Day(before * SECOND + HOUR)).value;
    FridayNearIsUnique(Day(before * SECOND + HOUR), friday);
    assert TakenAt(summer, ReadingAt(summer, before, after).value, friday);
  }

  lemma {:induction false} ReadingsTaken(summer: int -> bool, times: seq<int>)
    ensures forall k :: 0 <= k < |Readings(summer, times)| ==> Taken(summer, Readings(summer, times)[k])
  {
    if |times| >= 2 {
      ReadingsTaken(summer, times[..|times| - 1]);
      if ReadingAt(summer, times[|times| - 2], times[|times| - 1]).Some? {
        ReadingTaken(summer, times[|times| - 2], times[|times| - 1]);
      }
    }
  }

  /** Readings that agree but were taken at different closes were taken on different Fridays. */
  lemma AgreeingReadings(summer: int -> bool, x: Weekend, y: Weekend, f: int, g: int)
    requires TakenAt(summer, x, f) && TakenAt(summer, y, g) && x.minutes == y.minutes
    requires y.closedAt >= x.closedAt + 23 * HOUR
    ensures g >= f + 7
    ensures y.closedAt - x.closedAt >= Close(summer, g) - Close(summer, f) - SLOT
  {
    assert y.closedAt - x.closedAt <= Close(summer, g) - Close(summer, f) + SLOT;
    if g < f + 7 {
      if g >= f {
        FridaysAreAWeekApart(f, g);
      }
    }
  }

  /** Three readings that agree span two weeks, give or take the hours of summer time. */
  lemma AgreementTakesTwoWeeks(summer: int -> bool, x: Weekend, y: Weekend, z: Weekend, f: int, g: int, h: int)
    requires TakenAt(summer, x, f) && TakenAt(summer, y, g) && TakenAt(summer, z, h)
    requires x.minutes == y.minutes == z.minutes
    requires x.closedAt + 23 * HOUR <= y.closedAt && y.closedAt + 23 * HOUR <= z.closedAt
    ensures z.closedAt >= x.closedAt + 14 * DAY - 2 * HOUR
  {
    AgreeingReadings(summer, x, y, f, g);
    AgreeingReadings(summer, y, z, g, h);
    AgreeingReadings(summer, x, z, f, h);
    ClosesApart(summer, f, h);
  }

  lemma ClosesApart(summer: int -> bool, f: int, h: int)
    requires h >= f + 14
    ensures Close(summer, h) - Close(summer, f) >= 14 * DAY - HOUR
  {
  }

  lemma ConfirmationTakesTwoWeeks(summer: int -> bool, start: int, weekends: seq<Weekend>, i: nat)
    requires WeeksInOrder(start, weekends) && Confirmed(weekends, i)
    requires forall k :: 0 <= k < |weekends| ==> Taken(summer, weekends[k])
    ensures weekends[i + 2].closedAt >= weekends[i].closedAt + 14 * DAY - 2 * HOUR
  {
    assert weekends[i].opensAt < weekends[i + 1].closedAt;
    assert weekends[i + 1].opensAt < weekends[i + 2].closedAt;
    var f :| TakenAt(summer, weekends[i], f);
    var g :| TakenAt(summer, weekends[i + 1], g);
    var h :| TakenAt(summer, weekends[i + 2], h);
    AgreementTakesTwoWeeks(summer, weekends[i], weekends[i + 1], weekends[i + 2], f, g, h);
  }

  ghost predicate BeforeConfirmed(weekends: seq<Weekend>, at: int) {
    exists i: nat :: Confirmed(weekends, i) && at < weekends[i].closedAt
  }

  /** A reading adds at most one step, at the start or after the weekend before it. */
  lemma CollapsedGrows(start: int, weekends: seq<Weekend>, n: nat)
    requires 0 < n <= |weekends|
    ensures var before, steps := Collapsed(start, weekends, n - 1), Collapsed(start, weekends, n);
            || steps == before
            || (Confirmed(weekends, n - 1)
                && steps == before + [Step(if before == [] then start else weekends[n - 2].opensAt, weekends[n - 1].minutes)])
  {
  }

  /** No step of the scan begins after the weekend before its reading. */
  predicate NewestBy(start: int, weekends: seq<Weekend>, n: nat, at: int)
    requires n <= |weekends|
  {
    if n >= 2 then at <= weekends[n - 2].opensAt else at == start
  }

  /** The steps of any scan increase. */
  lemma {:induction false} CollapsedIncreases(start: int, weekends: seq<Weekend>, n: nat)
    requires n <= |weekends| && WeeksInOrder(start, weekends)
    ensures var steps := Collapsed(start, weekends, n);
            Increasing(steps) && (steps != [] ==> NewestBy(start, weekends, n, steps[|steps| - 1].at))
  {
    if n > 0 {
      CollapsedIncreases(start, weekends, n - 1);
      CollapsedGrows(start, weekends, n);
      OpensAscend(start, weekends, n);
    }
  }

  /** The newest of them begins before a reading that was confirmed. */
  lemma {:induction false} NewestIsConfirmed(start: int, weekends: seq<Weekend>, n: nat)
    requires n <= |weekends| && WeeksInOrder(start, weekends)
    ensures var steps := Collapsed(start, weekends, n);
            steps != [] ==> BeforeConfirmed(weekends, steps[|steps| - 1].at)
  {
    if n > 0 {
      NewestIsConfirmed(start, weekends, n - 1);
      CollapsedGrows(start, weekends, n);
      OpensAscend(start, weekends, n);
      var before, steps := Collapsed(start, weekends, n - 1), Collapsed(start, weekends, n);
      if steps != before {
        assert Confirmed(weekends, n - 1) && steps[|steps| - 1].at < weekends[n - 1].closedAt;
      }
    }
  }

  lemma OpensAscend(start: int, weekends: seq<Weekend>, n: nat)
    requires 0 < n <= |weekends| && WeeksInOrder(start, weekends)
    ensures start < weekends[n - 1].closedAt
    ensures n > 1 ==> start < weekends[n - 2].opensAt < weekends[n - 1].closedAt
    ensures n > 2 ==> weekends[n - 3].opensAt < weekends[n - 2].opensAt
  {
    if n > 2 {
      assert weekends[n - 3].opensAt < weekends[n - 2].closedAt;
    }
    if n > 1 {
      assert weekends[n - 2].opensAt < weekends[n - 1].closedAt;
    }
  }

  /** The newest step of a scan is nearly two weeks older than its newest bar. */
  lemma NewestStepIsOld(summer: int -> bool, start: int, weekends: seq<Weekend>, newest: int, at: int)
    requires WeeksInOrder(start, weekends) && BeforeConfirmed(weekends, at)
    requires forall k :: 0 <= k < |weekends| ==> Taken(summer, weekends[k])
    requires forall k :: 0 <= k < |weekends| ==> weekends[k].opensAt <= newest
    ensures at < newest - 14 * DAY + 2 * HOUR
  {
    var i: nat :| Confirmed(weekends, i) && at < weekends[i].closedAt;
    ConfirmationTakesTwoWeeks(summer, start, weekends, i);
    assert weekends[i + 2].closedAt < weekends[i + 2].opensAt <= newest;
  }

  lemma PinnedIncreases(steps: seq<Step>, weekOpen: int, live: int)
    requires Increasing(steps)
    requires steps != [] ==> steps[|steps| - 1].at < weekOpen + live * MINUTE
    ensures Increasing(Pinned(steps, weekOpen, live))
    ensures SortSteps(Pinned(steps, weekOpen, live)) == Pinned(steps, weekOpen, live)
  {
    RowsRoundTrip(ServerClock(Pinned(steps, weekOpen, live), true));
  }

  /** A pinned clock still increases, so storing keeps it. */
  lemma PinnedClockIncreases(summer: int -> bool, times: seq<int>, now: int, live: int)
    requires BarsIncrease(times) && times != []
    requires times[|times| - 1] * SECOND <= now + MAX_OFFSET_MINUTES * MINUTE
    requires -MAX_OFFSET_MINUTES <= live <= MAX_OFFSET_MINUTES
    ensures var weekends := Readings(summer, times);
            var pinned := Pinned(Collapsed(times[0] * SECOND, weekends, |weekends|), WeekOpen(summer, now), live);
            Increasing(pinned) && SortSteps(pinned) == pinned
  {
    ReadingsInOrder(summer, times);
    ReadingsTaken(summer, times);
    PinnedScanIncreases(summer, times[0] * SECOND, Readings(summer, times), times[|times| - 1] * SECOND, now, live);
  }

  lemma PinnedScanIncreases(summer: int -> bool, start: int, weekends: seq<Weekend>, newest: int, now: int, live: int)
    requires WeeksInOrder(start, weekends)
    requires forall k :: 0 <= k < |weekends| ==> Taken(summer, weekends[k])
    requires forall k :: 0 <= k < |weekends| ==> weekends[k].opensAt <= newest
    requires newest <= now + MAX_OFFSET_MINUTES * MINUTE
    requires -MAX_OFFSET_MINUTES <= live <= MAX_OFFSET_MINUTES
    ensures var pinned := Pinned(Collapsed(start, weekends, |weekends|), WeekOpen(summer, now), live);
            Increasing(pinned) && SortSteps(pinned) == pinned
  {
    var steps := Collapsed(start, weekends, |weekends|);
    CollapsedIncreases(start, weekends, |weekends|);
    NewestIsConfirmed(start, weekends, |weekends|);
    WeekOpenExactly(summer, now);
    var open := WeekOpen(summer, now);
    if steps != [] {
      NewestStepIsOld(summer, start, weekends, newest, steps[|steps| - 1].at);
      PinIsLater(steps[|steps| - 1].at, newest, now, open, live);
    }
    PinnedIncreases(steps, open, live);
  }

  lemma PinIsLater(at: int, newest: int, now: int, open: int, live: int)
    requires at < newest - 14 * DAY + 2 * HOUR && newest <= now + MAX_OFFSET_MINUTES * MINUTE
    requires now < open + 7 * DAY && -MAX_OFFSET_MINUTES <= live
    ensures at < open + live * MINUTE
  {
  }
}
