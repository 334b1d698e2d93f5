/** From the bars of a broker to its clock: every stamp of a trading week converts back to the moment it was made. */
module ClockRecovery {
  import opened Protocol
  import opened Clock
  import opened ClockScan

  predicate BarsIncrease(times: seq<int>) {
    forall i, j :: 0 <= i < j < |times| ==> times[i] < times[j]
  }

  /** Weekends follow each other: close, open, close, open. */
  ghost predicate WeeksInOrder(start: int, weekends: seq<Weekend>) {
    && (forall k :: 0 <= k < |weekends| ==> start < weekends[k].closedAt < weekends[k].opensAt)
    && (forall i, k :: 0 <= i < k < |weekends| && k == i + 1 ==> weekends[i].opensAt < weekends[k].closedAt)
  }

  lemma {:induction false} ReadingsInOrder(summer: int -> bool, times: seq<int>)
    requires BarsIncrease(times) && times != []
    ensures WeeksInOrder(times[0] * SECOND, Readings(summer, times))
    ensures forall k :: 0 <= k < |Readings(summer, times)| ==>
              Readings(summer, times)[k].opensAt <= times[|times| - 1] * SECOND
  {
    if |times| >= 2 {
      ReadingsInOrder(summer, times[..|times| - 1]);
    }
  }

  lemma {:induction false} OrderedAcross(start: int, weekends: seq<Weekend>, i: nat, k: nat)
    requires WeeksInOrder(start, weekends) && i <= k < |weekends|
    ensures weekends[i].opensAt <= weekends[k].opensAt
    ensures i < k ==> weekends[i].opensAt < weekends[k].closedAt
  {
    if i < k {
      OrderedAcross(start, weekends, i, k - 1);
      assert weekends[k - 1].opensAt < weekends[k].closedAt;
    }
  }

  /** The steps of a recovered clock increase, so the stored rows give it back. */
  lemma SwitchesIncrease(start: int, weekends: seq<Weekend>, truth: seq<Stretch>)
    requires Stretches(weekends, truth) && WeeksInOrder(start, weekends)
    ensures Increasing(Switches(start, weekends, truth))
    ensures SortSteps(Rows(ServerClock(Switches(start, weekends, truth), true))) == Switches(start, weekends, truth)
  {
    var steps := Switches(start, weekends, truth);
    forall i, j | 0 <= i < j < |steps| ensures steps[i].at < steps[j].at {
      assert truth[i].first < truth[j].first <= |weekends|;
      if i > 0 {
        assert truth[0].first < truth[i].first;
        OrderedAcross(start, weekends, truth[i].first - 1, truth[j].first - 1);
      }
    }
    RowsRoundTrip(ServerClock(steps, true));
  }

  /** A stamp made in trading week k: after the open that follows weekend k - 1, up to the close of weekend k. */
  predicate StampedIn(start: int, weekends: seq<Weekend>, k: nat, local: int)
    requires k < |weekends|
  {
    (if k == 0 then start else weekends[k - 1].opensAt) <= local <= weekends[k].closedAt
  }

  /** A recovered clock converts every stamp of a week it has seen with the true offset of that week. */
  lemma RecoveredClockConverts(start: int, weekends: seq<Weekend>, truth: seq<Stretch>, k: nat, local: int)
    requires Stretches(weekends, truth) && WeeksInOrder(start, weekends)
    requires k < |weekends| && StampedIn(start, weekends, k, local)
    ensures ServerClock(Switches(start, weekends, truth), true).ToUtc(local)
         == Some(local - TrueMinutes(truth, k) * MINUTE)
  {
    var steps := Switches(start, weekends, truth);
    var j := StretchOf(weekends, truth, k);
    StepReached(start, weekends, truth, k, local, j);
    forall i | j < i < |truth| ensures local < steps[i].at {
      StepAhead(start, weekends, truth, k, local, i);
    }
    StepInForce(steps, local, j);
  }

  /** The stretch a weekend lies in: the last that has begun. */
  lemma StretchOf(weekends: seq<Weekend>, truth: seq<Stretch>, k: nat) returns (j: nat)
    requires Stretches(weekends, truth)
    ensures j < |truth| && truth[j].first <= k && TrueMinutes(truth, k) == truth[j].minutes
    ensures forall i :: j < i < |truth| ==> k < truth[i].first
  {
    var c := Begun(truth, k + 1);
    assert truth[0].first < k + 1;
    j := c - 1;
  }

  lemma StepInForce(steps: seq<Step>, local: int, j: nat)
    requires j < |steps| && steps[j].at <= local && forall i :: j < i < |steps| ==> local < steps[i].at
    ensures InForce(steps, local) == j
  {
  }

  lemma StepAhead(start: int, weekends: seq<Weekend>, truth: seq<Stretch>, k: nat, local: int, i: nat)
    requires Stretches(weekends, truth) && WeeksInOrder(start, weekends)
    requires k < |weekends| && StampedIn(start, weekends, k, local)
    requires 0 < i < |truth| && k < truth[i].first
    ensures local < Switches(start, weekends, truth)[i].at
  {
    OrderedAcross(start, weekends, k, truth[i].first - 1);
  }

  lemma StepReached(start: int, weekends: seq<Weekend>, truth: seq<Stretch>, k: nat, local: int, j: nat)
    requires Stretches(weekends, truth) && WeeksInOrder(start, weekends)
    requires k < |weekends| && StampedIn(start, weekends, k, local)
    requires j < |truth| && truth[j].first <= k
    ensures Switches(start, weekends, truth)[j].at <= local
  {
    if j > 0 {
      assert truth[0].first < truth[j].first;
      OrderedAcross(start, weekends, truth[j].first - 1, k - 1);
    } else if k > 0 {
      assert start < weekends[k - 1].closedAt;
    }
  }

  /**
   End to end: if whatever three readings of the bars agree on is true and each stretch shows itself, the scan yields a
   clock that converts every stamp of every week it saw, and that storing keeps; whatever closures the bars contain.
   */
  lemma ScanOfBarsIsTrue(summer: int -> bool, times: seq<int>, truth: seq<Stretch>, k: nat, local: int)
    requires times != [] && BarsIncrease(times)
    requires Stretches(Readings(summer, times), truth) && Legible(Readings(summer, times), truth)
    requires k < |Readings(summer, times)| && StampedIn(times[0] * SECOND, Readings(summer, times), k, local)
    ensures var weekends := Readings(summer, times);
            var clock := ServerClock(Collapsed(times[0] * SECOND, weekends, |weekends|), true);
            && clock.ToUtc(local) == Some(local - TrueMinutes(truth, k) * MINUTE)
            && SortSteps(Rows(clock)) == clock.steps
  {
    var weekends := Readings(summer, times);
    ReadingsInOrder(summer, times);
    ScanRecoversSwitches(times[0] * SECOND, weekends, truth);
    SwitchesIncrease(times[0] * SECOND, weekends, truth);
    RecoveredClockConverts(times[0] * SECOND, weekends, truth, k, local);
  }

  /**
   The broker's side: each weekend gap follows 17:00 in New York on a Friday, as the broker's clock shows it at the offset
   then in force; New York is four hours behind UTC in summer and five otherwise.
   */
  ghost predicate Broker(summer: int -> bool, times: seq<int>, friday: int -> int, offset: int -> int) {
    forall k: nat :: k + 1 < |times| && Gap(times, k) ==>
      && friday(k) % 7 == 1
      && -14 * 60 <= offset(k) <= 14 * 60 && offset(k) % 30 == 0
      && times[k] * SECOND + HOUR
         == friday(k) * DAY + 17 * HOUR + (if summer(friday(k)) then 4 else 5) * HOUR + offset(k) * MINUTE
  }

  /** The weekends as they were. */
  function TrueWeekends(times: seq<int>, offset: int -> int): seq<Weekend> {
    if |times| < 2 then []
    else
      var k := |times| - 2;
      TrueWeekends(times[..|times| - 1], offset)
      + if Gap(times, k) then [Weekend(times[k] * SECOND + HOUR, times[k + 1] * SECOND, offset(k))] else []
  }

  lemma {:induction false} GapsAreReadBack(summer: int -> bool, times: seq<int>, friday: int -> int, offset: int -> int)
    requires Broker(summer, times, friday, offset)
    ensures Readings(summer, times) == TrueWeekends(times, offset)
  {
    if |times| >= 2 {
      var before := times[..|times| - 1];
      forall k: nat | k + 1 < |before| && Gap(before, k) ensures Gap(times, k) {
      }
      GapsAreReadBack(summer, before, friday, offset);
      var k := |times| - 2;
      if Gap(times, k) {
        OffsetIsReadBack(summer, friday(k), offset(k), times[k], times[k + 1]);
      }
    }
  }

  /**
   For a broker that closes with New York, keeps one offset between weekends and switches by at most an hour and at least
   three weekends apart, it is so.
   */
  lemma ScannedClockIsTrue(summer: int -> bool, times: seq<int>, friday: int -> int, offset: int -> int,
                           truth: seq<Stretch>, k: nat, local: int)
    requires times != [] && BarsIncrease(times) && Broker(summer, times, friday, offset)
    requires Stretches(TrueWeekends(times, offset), truth)
    requires forall i: nat :: i < |TrueWeekends(times, offset)| ==>
               TrueWeekends(times, offset)[i].minutes == TrueMinutes(truth, i)
    requires forall j :: 0 <= j < |truth| ==>
               truth[j].first + 3 <= StretchEnd(TrueWeekends(times, offset), truth, j)
    requires k < |TrueWeekends(times, offset)|
    requires StampedIn(times[0] * SECOND, TrueWeekends(times, offset), k, local)
    ensures var weekends := Readings(summer, times);
            var clock := ServerClock(Collapsed(times[0] * SECOND, weekends, |weekends|), true);
            && clock.ToUtc(local) == Some(local - TrueMinutes(truth, k) * MINUTE)
            && SortSteps(Rows(clock)) == clock.steps
  {
    GapsAreReadBack(summer, times, friday, offset);
    LongStretchesAreLegible(TrueWeekends(times, offset), truth);
    ScanOfBarsIsTrue(summer, times, truth, k, local);
  }
}
