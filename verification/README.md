# Verification of the MT5 account API

A Dafny 4.11 model of the parts of the service where a mistake would be hard to see, with proofs of what they promise:
the dispatch of syncs to terminals, the health board, the server clock, the arithmetic that rebuilds closed positions
and balances, the measuring of positions against candles, and the assignment of proxies. `dafny verify dfyconfig.toml`
checks all of it.

## What is modelled

**The pool** (`Pool.dfy` and the other `Pool*.dfy`). A terminal has a priority queue, one dispatcher, at most one running
sync and a health record. The pool is a transition system: one step is the code between two `await`s, and the steps of
requests, dispatchers, runs, the reaper and the shutdown interleave freely. What a worker answers is arbitrary. Queues
are lists from which the entry with the least (priority, sequence) is taken. `Pool.Next` says what each step does; the
invariant in `PoolInvariants.dfy` is kept by every step, and `PoolTheorems.dfy`, `PoolOrder.dfy`, `PoolShutdown.dfy`,
`PoolHealth.dfy`, `PoolRetries.dfy`, `PoolTimeouts.dfy` and `PoolPromises.dfy` say what follows for every reachable state,
every run and whoever makes a step.
`PoolManager.PoolManager` is the same code as a class with one method to a step. Each method changes the fields as
`Pool.Next` says and leaves the object in a reachable state, so all of that holds of the object; its contract states
besides what its caller relies on.

**The health board** (`HealthSpec.dfy`, `HealthHistory.dfy`, `Board.dfy`). `HealthSpec` is the record of one terminal as a
value, `HealthHistory` relates it to the whole sequence of events that led to it, `Board` is the class the pool keeps,
with what happened to each terminal as a ghost field its methods keep in step.

**The server clock** (`Clock.dfy`, `ClockScan.dfy`, `ClockRecovery.dfy`, `ClockPin.dfy`, `ClockCache.dfy`). Labels and
instants are integers of microseconds, offsets are minutes. Whether New York observes summer time on a day is an
arbitrary function of the day; the week closes on Friday at 17:00 there, four or five hours behind UTC as that function
says.

**Positions and balances** (`Ledger.dfy`, `Positions.dfy`, `Statements.dfy`, `Snapshots.dfy`). Money is an integer number
of 1e-8 units, so that rounding to eight digits is the identity.

**Measuring positions** (`Segments.dfy`, `Excursion.dfy`, `Enrichment*.dfy`, `Repository.dfy`, `Convergence.dfy`,
`Syncs.dfy`). Prices and the money they are worth are exact reals. The fetches of candles and the reading of the
monotonic clock are arbitrary functions. `Syncs` puts measuring and storing together, one sync after another.

**Proxies and workers** (`Proxies.dfy`, `Workers.dfy`). The proxy list, or its being unavailable, and the outcome of
each spawn are parameters.

`Protocol.dfy` holds the values these exchange; `Lists.dfy` holds sums, filters and one stable sort by key.

## Where the documentation and the code differ

The model follows the code.

- README.md:457 says that nothing writes after shutdown. The closing flag is tested once, right after a worker's answer
  (`pool/manager.py:386`). A sync past the test (rotating its proxy or restarting its worker) is still handed to the result
  handler, and so is the queue of a quarantine being worked off; a run that crashes hands a failure over without any test
  (`pool/manager.py:343-356`). `PoolShutdown.SilentOnceClosing` says exactly which terminals still can,
  `PoolShutdown.SilentWithoutCrash` which still can without a crash; `PoolLate.ALateResultIsHandedOver` and
  `PoolLate.ACrashHandsOver` give runs.
- README.md:457-461 says that a sync in flight is answered. One that is cut off when the wait for it times out never is
  (`pool/manager.py:181-189`, `362`): `PoolLate.AFutureIsLeftOpen` gives a run, `PoolTheorems.StopAnswersAllUnlessCutOff` the
  exact condition.
- README.md:659 believes a change of the server clock only when it is exactly an hour. The code takes any change up to 60
  minutes (`mt5api/clock.py:200`): `ClockScan.HalfHourIsBelieved` gives readings, `ClockScan.HourStepsExactly` and
  `ClockScan.WholeHoursGiveHourSteps` say when every change is an hour.
- README.md:485-488 speaks of five soft strikes. The code counts all strikes (`pool/health.py:137`):
  `HealthHistory.OneHardStrikeIsEnough` gives a history, `HealthHistory.DocumentedExactly` says when the two rules agree.
- Built positions do not depend on the order deals arrive in, but the ratio RR of one without a price move of its own does
  (`mt5api/enrichment.py:37-45`): `Excursion.OrderDecidesRR` gives positions, `Excursion.UnitIgnoresOrderExactly` says when.

## Model

| member | source | states |
|---|---|---|
| PoolTheorems.EachTaskInOnePlace | pool/manager.py:265-308 | In every reachable state an open accepted sync is in exactly one of: its own terminal's queue, that dispatcher's hand, a run, the drain's hand. A settled one is in none, on any terminal |
| PoolTheorems.OneRunAtATime | pool/manager.py:283-296 | No terminal ever runs two syncs, and what it runs was pinned to it |
| PoolTheorems.HandlerOncePerTask | pool/manager.py:616-631 | The result handler gets each sync at most once: exactly once if it completes, never if a shutdown or a refusal answers it |
| PoolTheorems.DedupeIsExact | services/sync_service.py:40-63 | Over all interleavings at most one deduplicated sync per account is open and it is the registered one; every registered future is open and belongs to its account |
| PoolTheorems.DedupedRequestJoins | services/sync_service.py:41-45 | While a deduplicated sync is open, another deduplicated request for its account changes nothing and finds that very sync registered |
| PoolTheorems.RunsAreBounded | pool/manager.py:592-614 | Runs equal attempts plus free re-runs throughout, so a sync runs at most its limit plus three times, and three times if initial, whatever the workers answer; which failures run again is `PoolRetries.RetryExactly` |
| PoolRetries.RetryExactly | pool/manager.py:592-614 | A failure runs again if and only if the login was not refused (-6), it is not an IPC error (-10000 or below) of a terminal and proxy still there, and it is the first replacement, the first dead proxy, or within the retries (none for an initial sync); the first two are free and noted |
| PoolTimeouts.TimeoutsUseAllRetries | pool/manager.py:592-614 | Over all interleavings, a sync whose worker never answers has run exactly once more than its retries when its own run hands it over |
| PoolTheorems.QuarantinedTerminalIsEmpty | pool/manager.py:437-456 | Once its drain has ended, a quarantined or recloning terminal has an empty queue, no run and nothing in its dispatcher's hand |
| PoolTheorems.HardQueuedIsExact | pool/manager.py:232-292 | Before closing and outside a drain the reported count of waiting hard syncs is the number of queued hard and initial syncs plus the held one |
| PoolTheorems.StopAnswersEveryFuture | pool/manager.py:165-196 | A stop whose drain did not time out leaves no future ever returned by submit open |
| PoolTheorems.StopAnswersAllUnlessCutOff | pool/manager.py:181-196 | The end of a stop answers every future if and only if it cuts no running sync off |
| PoolTheorems.LateSubmitIsAnswered | pool/manager.py:229-243 | A submission is left open exactly if the pool is not closing and the terminal is usable; then it is queued there once, otherwise it is answered at once and nothing else changes |
| PoolRuns.StepKeeps | pool/manager.py:60-135 | Every step of requests, dispatchers, runs, reaper and shutdown keeps the pool's invariant |
| PoolRuns.ReachableInv | pool/manager.py:137-163 | The invariant holds in every state reachable from a started pool |
| PoolOrder.BoundedOvertaking | pool/manager.py:283-296 | While a hard or initial sync waits in its queue, at most one scheduled sync starts on that terminal: the one the dispatcher already held |
| PoolOrder.LeavesInOrder | pool/manager.py:265-288 | An entry with a lesser priority number, or the same and an earlier sequence, never stays behind the other |
| PoolOrder.KindsLeaveInOrder | pool/manager.py:232-288 | A hard or initial sync that waits beside a scheduled one, and of two as urgent the one that came earlier, leaves the queue no later than the other |
| PoolOrder.LeftForGood | pool/manager.py:265-268 | A queue entry that has left its queue never comes back |
| PoolOrder.ReachableOrder | pool/manager.py:265-292 | Both orderings hold along every run from every reachable state |
| PoolShutdown.SilentOnceClosing | pool/manager.py:343-456 | Once closing, some run hands a sync of the terminal to the result handler if and only if a task of it runs that was not handed over yet, a quarantine of it has queued syncs left, or its dispatcher, not cancelled yet, holds a sync or waits with one queued |
| PoolShutdown.SilentWithoutCrash | pool/manager.py:386-413 | Some run without a crash of it does, if and only if the terminal is past the closing test with a result that is not retried, or has a quarantine with queued syncs left |
| PoolLate.ALateResultIsHandedOver | pool/manager.py:403-413 | A reachable closing pool from which a result is still handed over without a crash |
| PoolLate.ACrashHandsOver | pool/manager.py:343-356 | A reachable closing pool from which only a crash hands a result over |
| PoolLate.AFutureIsLeftOpen | pool/manager.py:181-189 | A reachable stopped pool with a future that was cut off: open, and still registered |
| PoolHealth.PoolHealthTellsHistory | pool/manager.py:415-489 | The health record of every terminal of a reachable pool refines a legal history of that terminal |
| PoolManager.PoolManager.Request | services/sync_service.py:40-45 | A request joins an open sync of its account and changes nothing, or holds the lock; a deduplicated one goes on only if no deduplicated sync of the account is open |
| PoolManager.PoolManager.Submit | pool/manager.py:198-243 | The new sync has its request's account, kind and server; it is open, registered if its account had none, and waits behind all others of its terminal if the pool serves and the terminal is usable; otherwise it is refused, nowhere, and no queue changed; older syncs stay as they were |
| PoolManager.PoolManager.TakeItem | pool/manager.py:288 | The dispatcher holds an owed sync that no entry of the queue preceded |
| PoolManager.PoolManager.StartItem | pool/manager.py:290-296 | The held sync is the one run of its terminal, whose worker was ready and ran nothing, and in no other place |
| PoolManager.PoolManager.CancelDispatcher | pool/manager.py:297-300 | A cancelled dispatcher has ended; the sync it held is answered, nowhere any more, and was never handed over |
| PoolManager.PoolManager.StartTask | pool/manager.py:372-375 | One more run is counted, and there are at most three more than the retries allow |
| PoolManager.PoolManager.TakeAnswer | pool/manager.py:377-413 | Once closing an answer settles its sync and reaches nobody. Before that the sync stays owed in one place and the board has recorded the answer, or the failure made up for none; the sync is handed over with its worker out of use if that quarantined the terminal, else it rotates a dead proxy if there is a registry, else it restarts a worker that is lost or never answered, else it waits again behind all others or is handed over, exactly as the fields of the answer and its counters say |
| PoolManager.PoolManager.RestartDone | pool/manager.py:403-413 | After a restart the sync waits again behind every other entry of its terminal, recounted, or is handed over, exactly as the fields of its result and its counters say; the worker is ready as the restart ended |
| PoolManager.PoolManager.Crash | pool/manager.py:343-356 | A crash leaves the sync owed and handed over, and the worker out of use |
| PoolManager.PoolManager.HandlerReturns | pool/manager.py:437-456 | What the handler is through with is complete, was handed over once, and is on no terminal any more; a quarantine goes on with the queued sync no other precedes, and ends with an empty queue |
| PoolManager.PoolManager.DrainTerminal | pool/manager.py:192-195 | Every queued sync of a terminal is answered, and nothing else |
| PoolManager.PoolManager.FinishStop | pool/manager.py:181-196 | The loops that end a stop leave one state in whatever order they visit terminals; every future is answered if and only if no run was cut off |
| HealthHistory.BoardRefinesHistory | pool/health.py:91-150 | After any legal history a terminal is usable if and only if no strike since its last reclone met a quarantine condition; while it is, its counters, servers and first strike are those of the strikes counted since the last success or reclone, and healthy means fewer than two. A strike and a success are told on the fields of the report |
| HealthHistory.QuarantinedExactlyWhenTripped | pool/health.py:119-143 | A terminal becomes quarantined exactly at a counted strike, told on the fields of its report, that meets one of the two conditions |
| HealthHistory.QuarantineFreezesCounters | pool/health.py:113-114 | After a quarantine the counters stay at the strikes that caused it, until a success empties them |
| HealthHistory.SoftCountsNothingWhileWarming | pool/health.py:108-117 | While the pool warms up, a terminal that lived but never answered changes no counter and no state |
| HealthHistory.HardCountsAtAnyHour | pool/health.py:108-117 | A process that died or was killed as a zombie, without success, adds a strike and a hard strike to a usable terminal at any hour |
| HealthHistory.RecordStamps | pool/health.py:99-150 | Which results stamp a launch, a process and a success, and that a quarantine keeps its moment and its reason |
| HealthHistory.DocumentedExactly | pool/health.py:126-143 | The documented quarantine rule and the one in the code agree unless exactly one strike is hard and only with it, or only without it, the strikes are severe; in order of time the code is never the laxer |
| HealthHistory.OneHardStrikeIsEnough | pool/health.py:126-143 | A history of four soft strikes and one hard one over two servers and 16 minutes that quarantines |
| Board.HealthBoard.Record | pool/health.py:91-124 | The result is added to what happened to the terminal and to nothing else; a usable terminal is quarantined if and only if the result is a strike (hard at any hour, soft once warm) that meets a condition together with those before it; the tally counts it |
| Board.HealthBoard.EntryTellsHistory | pool/health.py:91-189 | At any time the entry of a terminal refines all that happened to it |
| Board.HealthBoard.MarkRecloned | pool/health.py:178-184 | After a reclone no strike before it counts: none is outstanding, none trips the terminal, it is healthy |
| Board.HealthBoard.MarkRecloneFailed | pool/health.py:186-189 | A failed reclone leaves all that put the terminal into quarantine |
| Board.HealthBoard.MarkRecloning | pool/health.py:171-176 | The begin of a reclone is counted and stamped, and changes nothing about the strikes |
| Board.HealthBoard.Placeable | pool/health.py:152-157 | The healthy terminals if there are any, else the suspect ones, else all, each once and in board order |
| Board.HealthBoard.Keepable | pool/health.py:159-160 | The usable terminals, each once and in board order |
| Board.Quorum | pool/health.py:195-208 | The build most healthy terminals share, of several the one counted first, with its first terminal; none exactly if no two share one |
| Clock.LabelRoundTrip | mt5api/clock.py:83-105 | A label survives the trip to UTC and back if and only if no later switch skips it |
| Clock.InstantRoundTrip | mt5api/clock.py:83-105 | An instant survives the trip to a label and back if and only if no later switch repeats its label |
| Clock.ToUtcKeepsOrder | mt5api/clock.py:92-96 | Conversion is strictly monotone across switches, unless the earlier label is skipped |
| Clock.FromRows | mt5api/clock.py:61-69 | Stored rows come back ordered by stamp and then by minutes, none lost |
| Clock.RowsRoundTrip | mt5api/clock.py:61-73 | A clock whose steps increase survives storing |
| Query.PushdownExactly | services/query_service.py:77-81 | For every label and cutoff, the exact condition under which the comparison on labels agrees with the one on instants |
| Query.PushdownBeforeTheClock | services/query_service.py:77-81 | When no step has reached the cutoff it is compared as it is, which agrees if and only if the label is past the cutoff exactly when some step has reached the label |
| Query.PushdownIsExact | services/query_service.py:77-81 | Outside the windows around a switch it does agree |
| Query.WindowSelectsTheMoments | services/query_service.py:83-107 | A pushed-down window selects exactly the rows whose moment is not before the cutoff |
| ClockScan.FridayCloseUtc | mt5api/clock.py:153-162 | The search over five days finds 17:00 in New York, four hours behind UTC in summer and five otherwise, on the only Friday among them, and nothing exactly if there is none |
| ClockScan.Weekends | mt5api/clock.py:165-183 | The loop over bar pairs yields a reading for each gap with an offset within 14 hours, in order |
| ClockScan.ReadingExactly | mt5api/clock.py:165-183 | A gap is read if and only if it lasts a day and its last bar ends within 14 hours of 17:00 in New York on a Friday; the reading is that distance to the nearest half hour |
| ClockScan.OffsetIsReadBack | mt5api/clock.py:171-182 | A gap whose last bar ends at 17:00 in New York on a Friday, as a clock at some offset shows it, is read back with exactly that offset |
| ClockScan.Steps | mt5api/clock.py:186-203 | The loop over readings collapses them as specified |
| ClockScan.StepsAreWitnessed | mt5api/clock.py:191-202 | Each step is witnessed by three agreeing readings in a row, neighbours differ by more than nothing and at most an hour, and there is no step exactly if no three readings agree |
| ClockScan.ScanRecoversSwitches | mt5api/clock.py:186-203 | If whatever three readings agree on is true and each stretch shows itself, the scan finds exactly the true switches, each at the open after its weekend |
| ClockScan.LongStretchesAreLegible | mt5api/clock.py:33-34 | True readings with at least three to a stretch meet that condition |
| ClockScan.HolidaysMakeNoSwitch | mt5api/clock.py:191-195 | Readings that stray at most two weekends at a time leave a constant clock one step |
| ClockScan.HourStepsExactly | mt5api/clock.py:200 | For legible readings every change found is by an hour if and only if every true one is |
| ClockScan.WholeHoursGiveHourSteps | mt5api/clock.py:200 | For any readings it is if those that count are whole hours apart |
| ClockScan.HalfHourIsBelieved | mt5api/clock.py:200 | Readings in which a change of half an hour is believed |
| ClockRecovery.SwitchesIncrease | mt5api/clock.py:202 | Recovered switches are strictly increasing and survive storing |
| ClockRecovery.RecoveredClockConverts | mt5api/clock.py:83-96 | The recovered clock converts each stamp of a week with the offset true for that week |
| ClockRecovery.GapsAreReadBack | mt5api/clock.py:165-183 | The weekend gaps of a broker that closes at 17:00 in New York on Fridays, four or five hours behind UTC, are read back as they were |
| ClockRecovery.ScanOfBarsIsTrue | mt5api/clock.py:206-221 | From bars to conversions: if whatever three readings agree on is true and each stretch shows itself, the scanned clock converts every stamp of every week it saw correctly, whatever closures the bars contain |
| ClockRecovery.ScannedClockIsTrue | mt5api/clock.py:206-221 | So it does for a broker that closes at 17:00 in New York on Fridays and whose stretches last at least three weekends |
| ClockPin.WeekBounds | mt5api/clock.py:108-115 | The trading week closes at 17:00 in New York on the Friday of now or the next one, a week later if that is over, and opened five days before |
| ClockPin.WeekOpenExactly | mt5api/clock.py:123-128 | The week a tick owns opened at the last moment by now that lies whole weeks from five days before 17:00 in New York on the coming Friday |
| ClockPin.Measure | mt5api/clock.py:256-284 | Which clock a measurement gives, and how it converts: a tick that says something else decides every stamp since the week's open, the scan or nothing every older one |
| ClockPin.PinnedClockIncreases | mt5api/clock.py:258-261 | A pinned clock still increases, so storing keeps it |
| ClockCache.ClockCache.Fetch | mt5api/fetch.py:112-146 | One fetch of the cached clock in every branch, and no effect on other servers |
| ClockCache.ServesLastKnown | mt5api/fetch.py:133-146 | A server is served the last clock a measurement knew, however many have failed since |
| ClockCache.MeasuredExactly | mt5api/fetch.py:112-146 | A fetch measures anew if and only if every earlier measurement of the server has had its time: five minutes if only a tick gave the clock, six hours otherwise |
| Lists.SortSorts | mt5api/builders/position.py:16-17 | The stable sort sorts |
| Lists.SortFilter | mt5api/builders/position.py:49-50 | Sorting a part gives the part of the sorted whole |
| Ledger.SortedByTime | mt5api/builders/position.py:16-17 | Sorted deals are the same deals in order of time and ticket, and those that share both stay as they came |
| Ledger.SortIgnoresOrder | mt5api/builders/position.py:16-17 | With unique (time, ticket) there is one order, whatever the input order |
| Ledger.BalanceAfterClose | mt5api/builders/position.py:20-27 | The forward replay ends at the current balance and leaves, for each closed position, the current balance less every delta after its last close |
| Positions.GroupDeals | mt5api/builders/position.py:36-39 | Each position's group holds exactly its deals in order |
| Positions.BuildPositions | mt5api/builders/position.py:30-66 | Every position some deal closes is built exactly once, as the whole history determines it, sorted by opening time |
| Positions.OwnCloses | mt5api/builders/position.py:50-52 | A position is built exactly if the history closes it |
| Statements.PositionEndsAtItsClose | mt5api/builders/position.py:77-110 | A built position's starting balance plus its net result is the current balance less all that was sorted after its last close, and it closes at that deal's time |
| Statements.PositionEndsWithItsLastClose | mt5api/builders/position.py:77-110 | With unique (time, ticket): on the deals as they came, a built position closes with the last of its closing deals and ends with the current balance less all that later deals changed |
| Statements.PositionTellsItsDeals | mt5api/builders/position.py:82-106 | A built position's result is the profit of its closing deals, its swap and commission the sums over all its deals, its net result what remains after charges, and it is a win exactly if that is positive |
| Statements.PositionBeginsAtItsFirstOpening | mt5api/builders/position.py:77-79 | A position begins at its first opening deal in the sorted history, or its first deal if none opens it |
| Statements.PositionsIgnoreOrder | mt5api/builders/position.py:30-60 | The ledger of a built position (its sums, times and balance) does not depend on the order deals arrive in when keys are unique |
| Statements.AccountAddsUp | mt5api/builders/position.py:82-86 | If openings carry no profit, the starting balance, all net results and all deals outside positions never exceed the current balance, and equal it if and only if no built position has a positive commission or fee sum |
| Snapshots.SnapshotsTellTheHistory | mt5api/builders/balance_snapshots.py:10-33 | After the first, the snapshots are exactly the moments after last closes with the balances the history gives, one to a position with a closing time, ordered in time |
| Snapshots.FirstSnapshotOpens | mt5api/builders/balance_snapshots.py:16-24 | The first snapshot is the opening of the position that closed first, with the balance before it |
| Segments.Split | mt5api/enrichment.py:94-107 | The list built in place is the specified one; its second early return is never taken |
| Segments.SegmentsTile | mt5api/enrichment.py:94-107 | Segments follow each other without gap or overlap, day parts are whole days, and once split the minute parts hold less than two days |
| Segments.EachMomentOnce | mt5api/enrichment.py:102-107 | In such a tiling every moment of the span lies in exactly one segment |
| Segments.ExtremesKept | mt5api/enrichment.py:146-169 | If each day bar sums up its minute bars, the highest and lowest of the fetched bars are those of every minute bar in the span |
| Excursion.ValuePerLot | mt5api/enrichment.py:37-45 | A pair's rate is the one of the first position that tells it, and a pair has a rate only if one does |
| Excursion.UnitExactly | mt5api/enrichment.py:28-57 | A price unit is worth what the position's own result over its own move says; else, for a position with a volume, what the first telling position of its pair says of a lot, times the volume; else nothing |
| Excursion.TwiceTheVolume | mt5api/enrichment.py:54-72 | Without a move of its own, twice the volume has twice the unit and half the ratio |
| Excursion.RatiosExactly | mt5api/enrichment.py:60-72 | RR is the net result over the distance from entry to stop in money, RRPlanned the distance to the target over it, and when there is none |
| Excursion.UnitIgnoresOrderExactly | mt5api/enrichment.py:48-57 | What a price unit is worth to a position is the same for every order of the positions if and only if it has a unit of its own, no amount, or a pair on whose lots all telling positions agree |
| Excursion.RRIgnoresOrderExactly | mt5api/builders/position.py:61-63 | With positive volumes so is the ratio of a position at risk that earned or lost something |
| Excursion.OrderDecidesRR | mt5api/builders/position.py:61-63 | Three positions of one pair whose order decides the ratio of one |
| Excursion.LosingStopIsMinusOne | mt5api/enrichment.py:60-72 | A loss taken at the stop has RR = -1 if and only if the position cost nothing |
| Excursion.WinningTargetIsPlanned | mt5api/enrichment.py:60-72 | A gain taken at the target has RR = RRPlanned if and only if the position cost nothing |
| Excursion.BetweenExactly | mt5api/enrichment.py:75-91 | MAE <= PnL <= MFE and MAE <= 0 <= MFE for all accepted candles if and only if the result is zero or has the sign of the price move, or for negative prices the acceptance margin alone covers it |
| Excursion.ExcursionsAreExtremes | mt5api/enrichment.py:75-91 | MAE and MFE are the worst and the best the position would have earned at a price it saw, or nothing, and no other |
| Enrichment.FXPosition.ApplyRR | mt5api/enrichment.py:60-72 | Which ratios are written, and which are left |
| Enrichment.FXPosition.ApplyMaeMfe | mt5api/enrichment.py:75-91 | Candles are accepted exactly if they overlap the traded prices within 1%, and only then fields change |
| Enrichment.MeasureExactly | mt5api/enrichment.py:145-170 | How a position ends, told on its candles: lost, failed, empty, or enriched exactly if it has a unit and they overlap its prices within 1% |
| Enrichment.SkippedExactlyAfterThree | mt5api/enrichment.py:142-165 | A position is skipped if and only if three fetches of its symbol failed in a row before it, so none is ever made again |
| EnrichmentRun.EnrichMaeMfe | mt5api/enrichment.py:110-181 | The whole loop over the closed unmeasured positions, the later closed first and ties as they came: each position's fields and every counter are as its fate says, whatever the fetches and the clock do |
| EnrichmentRun.QueueTrades | mt5api/enrichment.py:117-126 | The objects the loop visits are exactly the closed unmeasured positions, the later closed first, those closed at one moment as they came |
| EnrichmentTheorems.EveryPositionAccounted | mt5api/enrichment.py:126-181 | Each closed unmeasured position is exactly one of enriched, rejected, empty, failed, skipped, deferred, and no more than the limit are attempted |
| EnrichmentTheorems.StopsExactly | mt5api/enrichment.py:126-142 | A position is put off if and only if no fetch before it lost the terminal and it is past the limit or the time was up by its turn; what is neither put off, unreached nor skipped is measured |
| EnrichmentTheorems.ExcursionsAreTrue | mt5api/enrichment.py:147-170 | A measured position shows the excursions of the true extremes of its life, minute by minute, at the unit `Excursion.UnitExactly` states |
| Repository.PositionRepository.UpsertMany | repositories/position_repo.py:28-59 | Batches and rows leave the table the rows one by one would, and a position once measured is measured after, in every account |
| Repository.LastMeasurementStays | repositories/position_repo.py:43-46 | After any upserts a position shows the last measurement any row carried, else the one it had |
| Repository.LastRowWins | repositories/position_repo.py:40-50 | Everything else comes from a position's last row |
| Convergence.ReachedExactly | mt5api/enrichment.py:126-129 | In a queue of which each round takes so many, a measurable position is reached exactly if fewer than that many unmeasurable ones stand before it |
| Convergence.SharesLeave | mt5api/enrichment.py:127-129 | If all are measurable each round takes exactly its share |
| Syncs.SyncMeasures | services/sync_service.py:50-62 | Measuring and storing: the stored measured positions grow by exactly those this sync measured |
| Syncs.SyncStores | services/sync_service.py:50-62 | What a sync stores: each position as rebuilt, with the excursions of this sync if it measured the position and those it had otherwise |
| Syncs.MeasuredEventually | mt5api/enrichment.py:118-129 | Over serial syncs with time enough and candles that come, a measurable position is measured by some sync if and only if fewer than the limit of unmeasured, unmeasurable positions closed later, or as late and stand earlier in the list |
| Syncs.AllMeasuredInTime | mt5api/enrichment.py:126-129 | If all that wait are measurable, all are measured after n syncs if and only if n times the limit reaches their number |
| Proxies.ProxyRegistry.Load | services/proxy_service.py:69-108 | The two passes: no endpoint twice, only listed ones, each still listed endpoint kept by the first terminal in order that had it and by no other, a terminal bare only if every listed endpoint is taken, and exactly the returned assignments stored; untouched if the list is unavailable |
| Proxies.ProxyRegistry.Rotate | services/proxy_service.py:110-135 | Never the dead proxy nor one another terminal holds, none only if the list has no other or is unavailable; no other assignment changes, and no endpoint comes to serve two terminals |
| Proxies.InterleavedRotationsCollide | services/proxy_service.py:113-128 | Two rotations that both read before either writes, each with its own list, give two terminals one endpoint if and only if some endpoint is the first each may take of its list |
| Proxies.CollideOnOneList | services/proxy_service.py:113-128 | With one list they do if and only if its first endpoint that not both must avoid is one that neither must |
| Proxies.OwnProxiesCollide | services/proxy_service.py:113-128 | Two terminals that replace the proxies they hold do if and only if the list has an endpoint nobody holds |
| Proxies.TwoTerminalsOneProxy | services/proxy_service.py:113-128 | Two bare terminals given the same proxy |
| Workers.WorkerHandle.Spawn | pool/worker_handle.py:58-84 | A spawn ends idle, ready and connected, or failed with nothing left |
| Workers.WorkerHandle.Restart | pool/worker_handle.py:86-97 | A restart stops at the first of three spawns that comes up, and its count and end state say which |

## Left out

- Crashes in the pool: a run may crash while it waits for a worker, a proxy or a restart; alerts, logging and the health
  board's own bookkeeping are taken not to raise, and a dispatcher's own error path (`pool/manager.py:301-308`) is not a
  step.
- Worker readiness: restarts by the reaper, re-proxying and the refresh of the master are one step that may make a worker
  ready or not at any time; that over-approximates them, and `Workers` treats one restart on its own, without the state
  another restart of the same worker could show during the back-off.
- Worker handles: in the pool's state they are values in a map, so aliasing between handles and tasks is not modelled.
- Reclones: one step that begins, and one that succeeds or fails; the reclone lock and the hourly interval are left out,
  so the model allows more reclones than the code.
- Results: a future carries which kind of answer it got, not the payload; what `persist` writes besides measured
  positions (account status, transactions, open positions, hashes) is not modelled.
- Account strikes, terminal picking and the row and payload converters: each is one expression or one pass over its input
  and takes part in no property above.
- PoolOrder.BoundedOvertaking: counts scheduled starts while an entry waits in the queue; a retry is a new entry.
- Excursion.RRIgnoresOrderExactly: needs positive volumes, as sums of traded volumes are; the condition for the unit itself,
  `Excursion.UnitIgnoresOrderExactly`, needs nothing.
- Statements.AccountAddsUp: needs openings without profit, which MetaTrader guarantees; a deal that reverses a position
  is an opening and a closing and may carry profit.
- PoolTimeouts.TimeoutsUseAllRetries: speaks of the sync's own run that hands it over; a quarantine of its terminal may hand
  it over from the queue before that, and a stop may answer it.
- Statements.PositionEndsWithItsLastClose: needs unique (time, ticket), without which "later" says less than the sort does;
  `Statements.PositionEndsAtItsClose` needs nothing.
- Excursion.ExcursionsAreExtremes: needs a unit that is not negative, as one by the position's own result never is.
- Syncs.MeasuredEventually: the history is taken to stay the same between syncs and fetches not to fail; with failing
  fetches a symbol can be skipped for reasons of other positions, which `Enrichment.SkippedExactlyAfterThree` covers.
- Positions.BuildPositions: entry and exit prices, orders, protection levels and their comment parsing are not part of the
  ledger's position, nor is RR; `Excursion.Trade` holds the ones the ratios read.
- Floating point: sums and products are exact; drift and the rounding of prices are not modelled.
- The tick's own rounding to hours (`mt5api/clock.py:131-150`) and the choice of symbols: the live offset is a parameter
  of `ClockPin.Measure`.
- Clock.RowsRoundTrip: a stored row is the pair of stamp and minutes it means; the ISO text of the stamp is not modelled.
- HealthHistory.BoardRefinesHistory: needs a legal history (only a quarantined terminal is recloned, and a reclone ends
  once); `PoolHealth.PoolHealthTellsHistory` shows that the pool makes no other.
- PostgreSQL refuses two rows with one key in a single statement; `Repository` applies rows one after another.
- MetaTrader, processes, files, the proxy provider's HTTP, Telegram, FastAPI and the deployment scripts.
