/** The board itself: one mutable record per terminal, updated in place. */
module Board {
  import opened Protocol
  import opened HealthSpec
  import opened HealthHistory
  import opened Lists

  class TerminalHealth {
    var state: TerminalState
    var strikes: nat
    var hardStrikes: nat
    var failedServers: set<string>
    var firstStrikeAt: Option<int>
    var lastSuccessAt: Option<int>
    var lastLaunchAt: Option<int>
    var lastPid: Option<int>
    var build: Option<string>
    var quarantinedAt: Option<int>
    var quarantineReason: Option<Reason>
    var reclones: nat
    var lastRecloneAt: Option<int>
    var recloneError: Option<string>

    constructor ()
      ensures View() == FRESH
    {
      state, strikes, hardStrikes, failedServers, firstStrikeAt := Healthy, 0, 0, {}, None;
      lastSuccessAt, lastLaunchAt, lastPid, build := None, None, None, None;
      quarantinedAt, quarantineReason, reclones, lastRecloneAt, recloneError := None, None, 0, None, None;
    }

    function View(): Health
      reads this
    {
      Health(state, strikes, hardStrikes, failedServers, firstStrikeAt, lastSuccessAt, lastLaunchAt, lastPid, build,
             quarantinedAt, quarantineReason, reclones, lastRecloneAt, recloneError)
    }

    method ResetStrikes()
      modifies this
      ensures View() == old(View()).ResetStrikes()
    {
      strikes, hardStrikes := 0, 0;
      failedServers := {};
      firstStrikeAt := None;
    }

    method AddStrike(server: string, hard: bool, now: int)
      modifies this
      ensures View() == Struck(old(View()), now, server, hard)
    {
      strikes := strikes + 1;
      hardStrikes := hardStrikes + if hard then 1 else 0;
      failedServers := failedServers + {server};
      if firstStrikeAt.None? {
        firstStrikeAt := Some(now);
      }
    }
  }

  datatype Tally = Tally(syncsOk: nat, syncsFailed: nat, quarantines: nat, reclones: nat, replaced: nat)

  predicate Distinct(paths: seq<string>) {
    forall i, j :: 0 <= i < j < |paths| ==> paths[i] != paths[j]
  }

  /** These terminals, in board order. */
  function Among(paths: seq<string>, wanted: set<string>): seq<string> {
    if paths == [] then []
    else
      var last := paths[|paths| - 1];
      Among(paths[..|paths| - 1], wanted) + if last in wanted then [last] else []
  }

  lemma {:induction false} AmongMembers(paths: seq<string>, wanted: set<string>)
    ensures forall path :: path in Among(paths, wanted) <==> path in paths && path in wanted
  {
    if paths != [] {
      AmongMembers(paths[..|paths| - 1], wanted);
      assert paths == paths[..|paths| - 1] + [paths[|paths| - 1]];
    }
  }

  lemma {:induction false} AmongIsDistinct(paths: seq<string>, wanted: set<string>)
    requires Distinct(paths)
    ensures Distinct(Among(paths, wanted))
  {
    if paths != [] {
      var front, last := paths[..|paths| - 1], paths[|paths| - 1];
      AmongIsDistinct(front, wanted);
      AmongMembers(front, wanted);
      assert last !in front;
    }
  }

  /** These are the terminals wanted, each once and in board order. */
  ghost predicate Picks(found: seq<string>, paths: seq<string>, wanted: set<string>) {
    && Distinct(found)
    && (forall path :: path in found <==> path in paths && path in wanted)
    && (forall i, j :: 0 <= i < j < |found| ==> InThatOrder(paths, found[i], found[j]))
  }

  lemma {:induction false} AmongPicks(paths: seq<string>, wanted: set<string>)
    requires Distinct(paths)
    ensures Picks(Among(paths, wanted), paths, wanted)
  {
    AmongMembers(paths, wanted);
    AmongIsDistinct(paths, wanted);
    if paths != [] {
      var front, last := paths[..|paths| - 1], paths[|paths| - 1];
      assert paths == front + [last];
      AmongPicks(front, wanted);
      var before, found := Among(front, wanted), Among(paths, wanted);
      forall i, j | 0 <= i < j < |found| ensures InThatOrder(paths, found[i], found[j]) {
        assert found[i] in before && (found[j] == last || InThatOrder(front, found[i], found[j]));
        OrderGrows(front, last, found[i], found[j]);
      }
    }
  }

  /** The build of a terminal is read off its file and is no part of its history. */
  predicate Tells(h: Health, es: seq<Event>) {
    h.(build := None) == Replay(es).(build := None)
  }

  /** The terminals in one of the given states. */
  ghost function In(board: map<string, TerminalState>, states: set<TerminalState>): set<string> {
    set path | path in board && board[path] in states
  }

  lemma NoneHealthy(board: map<string, TerminalState>)
    ensures In(board, {Healthy}) == {} ==> In(board, {Healthy, Suspect}) == In(board, {Suspect})
  {
    if In(board, {Healthy}) == {} {
      forall path | path in In(board, {Healthy, Suspect}) ensures path in In(board, {Suspect}) {
        assert path !in In(board, {Healthy});
      }
    }
  }

  lemma SuccessApart(h: Health, build: Option<string>, now: int)
    ensures Success(h.(build := build), now) == Success(h, now).(build := build)
  {
  }

  lemma StrikeApart(h: Health, build: Option<string>, now: int, server: string, hard: bool)
    ensures Strike(h.(build := build), now, server, hard) == Strike(h, now, server, hard).(build := build)
  {
  }

  lemma LaunchedApart(h: Health, build: Option<string>, now: int, report: Option<StartReport>)
    ensures Launched(h.(build := build), now, report) == Launched(h, now, report).(build := build)
  {
  }

  /** Recording a result has nothing to do with the build. */
  lemma RecordApart(h: Health, build: Option<string>, now: int, warming: bool, server: string, result: SyncResult)
    ensures HealthSpec.Record(h.(build := build), now, warming, server, result)
         == HealthSpec.Record(h, now, warming, server, result).(build := build)
  {
    LaunchedApart(h, build, now, result.terminal);
    var launched := Launched(h, now, result.terminal);
    if Succeeds(result) {
      SuccessApart(launched, build, now);
    } else if Strikes(result, warming) && h.Usable() {
      StrikeApart(launched, build, now, server, result.terminal.value.Hard());
    }
  }

  lemma RecordTells(h: Health, es: seq<Event>, now: int, warming: bool, server: string, result: SyncResult)
    requires Tells(h, es)
    ensures Tells(HealthSpec.Record(h, now, warming, server, result), es + [Recorded(now, warming, server, result)])
    ensures HealthSpec.Record(h, now, warming, server, result).build == h.build
  {
    var more := es + [Recorded(now, warming, server, result)];
    assert Init(more) == es;
    RecordApart(h, None, now, warming, server, result);
    RecordApart(h, h.build, now, warming, server, result);
    RecordApart(Replay(es), None, now, warming, server, result);
    assert h.(build := h.build) == h;
  }

  lemma RecloneTells(h: Health, es: seq<Event>, e: Event)
    requires Tells(h, es) && !e.Recorded?
    ensures Tells(Apply(h, e), es + [e])
    ensures if e.Recloned? then CountersShow(Apply(h, e), []) && Outstanding(es + [e]) == [] && !Tripped(es + [e])
            else Outstanding(es + [e]) == Outstanding(es) && Tripped(es + [e]) == Tripped(es)
  {
    var more := es + [e];
    assert Init(more) == es;
    OutstandingUnfolds(more);
    TrippedUnfolds(more);
    if e.Recloned? { RecloneClears(more); }
  }

  lemma RecordTrips(before: Health, after: Health, es: seq<Event>, e: Event)
    requires Legal(es) && e.Recorded? && Tells(before, es) && Tells(after, es + [e]) && before.Usable()
    ensures after.state == Quarantined <==> Trips(es + [e], |es|)
  {
    assert Init(es + [e]) == es;
    QuarantinedExactlyWhenTripped(es + [e]);
  }

  class HealthBoard {
    const paths: seq<string>
    const terminals: map<string, TerminalHealth>
    const warmup: int
    var warmUntil: int
    var tally: Tally
    /** All that has happened to each terminal. */
    ghost var history: map<string, seq<Event>>

    ghost function Repr(): set<TerminalHealth> { set path | path in terminals :: terminals[path] }

    /** The board has one entry for each of its paths. */
    ghost predicate Shape() {
      && Distinct(paths)
      && (forall path :: path in terminals <==> path in paths)
      && (forall p, q :: p in terminals && q in terminals && p != q ==> terminals[p] != terminals[q])
    }

    ghost predicate Valid()
      reads this, Repr()
    {
      && Shape()
      && history.Keys == terminals.Keys
      && (forall path {:trigger history[path]} :: path in terminals ==> Tells(terminals[path].View(), history[path]))
    }

    constructor (paths: seq<string>, warmup: int)
      requires Distinct(paths)
      ensures Valid() && this.paths == paths && this.warmup == warmup && warmUntil == 0
      ensures forall path :: path in terminals ==> fresh(terminals[path]) && history[path] == []
      ensures tally == Tally(0, 0, 0, 0, 0)
    {
      var made: map<string, TerminalHealth> := map[];
      for i := 0 to |paths|
        invariant forall path :: path in made <==> path in paths[..i]
        invariant forall path :: path in made ==> fresh(made[path]) && made[path].View() == FRESH
        invariant forall p, q :: p in made && q in made && p != q ==> made[p] != made[q]
      {
        var health := new TerminalHealth();
        made := made[paths[i] := health];
      }
      assert paths[..|paths|] == paths;
      this.paths, this.warmup, this.terminals := paths, warmup, made;
      warmUntil, tally := 0, Tally(0, 0, 0, 0, 0);
      history := map path | path in made :: [];
    }

    /** Something happened to one terminal, and nothing to the others. */
    twostate predicate Happened(path: string, e: Event)
      requires path in old(history)
      reads this
    {
      history == old(history)[path := old(history)[path] + [e]]
    }

    /** At any time a terminal's entry says what all that ever happened to the terminal says. */
    lemma EntryTellsHistory(path: string)
      requires Valid() && path in terminals && Legal(history[path])
      ensures Refines(terminals[path].View(), history[path])
    {
      BoardRefinesHistory(history[path]);
    }

    /**
     One result recorded. It puts the terminal into quarantine exactly if it is a strike that meets a condition together
     with those before it.
     */
    method Record(path: string, server: string, result: SyncResult, now: int, monotonic: int)
      returns (state: TerminalState)
      requires Valid() && path in terminals
      modifies this`tally, this`history, terminals[path]
      ensures Valid() && Happened(path, Recorded(now, monotonic < warmUntil, server, result))
      ensures state == terminals[path].state && terminals[path].build == old(terminals[path].build)
      ensures Legal(old(history)[path]) && old(terminals[path].View()).Usable() ==>
                (state == Quarantined <==> Trips(history[path], |old(history)[path]|))
      ensures tally.syncsOk == old(tally.syncsOk) + (if result.ok then 1 else 0)
      ensures tally.syncsFailed == old(tally.syncsFailed) + (if result.ok then 0 else 1)
      ensures tally.quarantines == old(tally.quarantines)
              + (if state == Quarantined && old(terminals[path].state) != Quarantined then 1 else 0)
      ensures tally.replaced == old(tally).replaced
              + (if result.terminal.Some? && result.terminal.value.replaced then 1 else 0)
      ensures tally.reclones == old(tally).reclones
    {
      ghost var before, es := terminals[path].View(), history[path];
      ghost var e := Recorded(now, monotonic < warmUntil, server, result);
      state := RecordResult(path, server, result, now, monotonic);
      RecordTells(before, es, now, e.warming, server, result);
      if Legal(es) && before.Usable() {
        RecordTrips(before, terminals[path].View(), es, e);
      }
      Note(path, e);
    }

    /** Every entry but one tells what happened to its terminal. */
    ghost predicate ValidBut(path: string)
      reads this, Repr()
    {
      && Shape()
      && history.Keys == terminals.Keys
      && (forall p {:trigger history[p]} :: p in terminals && p != path ==> Tells(terminals[p].View(), history[p]))
    }

    /** What was done to one entry is noted. */
    ghost method Note(path: string, e: Event)
      requires path in terminals && ValidBut(path) && Tells(terminals[path].View(), history[path] + [e])
      modifies this`history
      ensures Valid() && history == old(history)[path := old(history)[path] + [e]]
    {
      history := history[path := history[path] + [e]];
    }

    method RecordResult(path: string, server: string, result: SyncResult, now: int, monotonic: int)
      returns (state: TerminalState)
      requires path in terminals
      modifies this`tally, terminals[path]
      ensures terminals[path].View() ==
              HealthSpec.Record(old(terminals[path].View()), now, monotonic < warmUntil, server, result)
      ensures state == terminals[path].state
      ensures tally.syncsOk == old(tally.syncsOk) + (if result.ok then 1 else 0)
      ensures tally.syncsFailed == old(tally.syncsFailed) + (if result.ok then 0 else 1)
      ensures tally.quarantines == old(tally.quarantines)
              + (if state == Quarantined && old(terminals[path].state) != Quarantined then 1 else 0)
      ensures tally.replaced == old(tally).replaced
              + (if result.terminal.Some? && result.terminal.value.replaced then 1 else 0)
      ensures tally.reclones == old(tally).reclones
    {
      var health := terminals[path];
      tally := if result.ok then tally.(syncsOk := tally.syncsOk + 1) else tally.(syncsFailed := tally.syncsFailed + 1);
      var report := result.terminal;
      RecordLaunch(health, report, now);
      if result.ok || (report.Some? && report.value.initialized) {
        RecordSuccess(health, now);
        return health.state;
      }
      if report.None? || !(report.value.Hard() || report.value.Soft()) {
        return health.state;
      }
      if report.value.Soft() && monotonic < warmUntil {
        return health.state;
      }
      if !health.View().Usable() {
        return health.state;
      }
      RecordStrike(path, server, report.value.Hard(), now);
      return health.state;
    }

    method RecordLaunch(health: TerminalHealth, report: Option<StartReport>, now: int)
      modifies this`tally, health
      ensures health.View() == Launched(old(health.View()), now, report)
      ensures tally == old(tally).(replaced := old(tally).replaced
                                               + if report.Some? && report.value.replaced then 1 else 0)
    {
      if report.Some? {
        if report.value.launched {
          health.lastLaunchAt, health.lastPid := Some(now), report.value.pid;
        } else if report.value.attached {
          health.lastPid := report.value.pid;
        }
        if report.value.replaced {
          tally := tally.(replaced := tally.replaced + 1);
        }
      }
    }

    method RecordStrike(path: string, server: string, hard: bool, now: int)
      requires path in terminals
      modifies this`tally, terminals[path]
      ensures terminals[path].View() == Strike(old(terminals[path].View()), now, server, hard)
      ensures var struck := Strike(old(terminals[path].View()), now, server, hard);
              tally == old(tally).(quarantines := old(tally).quarantines
                                                  + if QuarantineReason(struck, now).Some? then 1 else 0)
    {
      var health := terminals[path];
      health.AddStrike(server, hard, now);
      var reason := QuarantineReason(health.View(), now);
      if reason.Some? {
        Quarantine(path, reason.value, now);
      } else if health.strikes >= SUSPECT_STRIKES {
        health.state := Suspect;
      }
    }

    method RecordSuccess(health: TerminalHealth, now: int)
      modifies health
      ensures health.View() == Success(old(health.View()), now)
    {
      health.lastSuccessAt := Some(now);
      health.ResetStrikes();
      if health.state == Suspect {
        health.state := Healthy;
      }
    }

    method Quarantine(path: string, reason: Reason, now: int)
      requires path in terminals
      modifies this`tally, terminals[path]
      ensures terminals[path].View() ==
              old(terminals[path].View()).(state := Quarantined, quarantinedAt := Some(now),
                                           quarantineReason := Some(reason))
      ensures tally == old(tally).(quarantines := old(tally).quarantines + 1)
    {
      var health := terminals[path];
      health.state := Quarantined;
      health.quarantinedAt := Some(now);
      health.quarantineReason := Some(reason);
      tally := tally.(quarantines := tally.quarantines + 1);
    }

    /** A reclone begins; what the strikes show stays. */
    method MarkRecloning(path: string, now: int)
      requires Valid() && path in terminals
      modifies this`history, terminals[path]
      ensures Valid() && Happened(path, RecloneStarted(now))
      ensures terminals[path].state == Recloning && terminals[path].recloneError.None?
      ensures terminals[path].lastRecloneAt == Some(now) && terminals[path].reclones == old(terminals[path].reclones) + 1
      ensures Tripped(history[path]) == Tripped(old(history)[path])
      ensures Outstanding(history[path]) == Outstanding(old(history)[path])
    {
      ghost var before := terminals[path].View();
      var health := terminals[path];
      health.state := Recloning;
      health.lastRecloneAt := Some(now);
      health.reclones := health.reclones + 1;
      health.recloneError := None;
      assert health.View() == HealthSpec.MarkRecloning(before, now);
      RecloneTells(before, history[path], RecloneStarted(now));
      Note(path, RecloneStarted(now));
    }

    /** A reclone that worked wipes the slate clean: no strike before it counts against the terminal any more. */
    method MarkRecloned(path: string)
      requires Valid() && path in terminals
      modifies this`tally, this`history, terminals[path]
      ensures Valid() && Happened(path, Recloned)
      ensures terminals[path].state == Healthy && terminals[path].build.None?
      ensures terminals[path].quarantinedAt.None? && terminals[path].quarantineReason.None?
      ensures CountersShow(terminals[path].View(), []) && Outstanding(history[path]) == [] && !Tripped(history[path])
      ensures tally == old(tally).(reclones := old(tally).reclones + 1)
    {
      ghost var before := terminals[path].View();
      var health := terminals[path];
      health.state := Healthy;
      health.quarantinedAt, health.quarantineReason := None, None;
      health.build := None;
      health.ResetStrikes();
      tally := tally.(reclones := tally.reclones + 1);
      assert health.View() == HealthSpec.MarkRecloned(before);
      RecloneTells(before, history[path], Recloned);
      Note(path, Recloned);
    }

    /** A reclone that failed leaves everything that put the terminal into quarantine. */
    method MarkRecloneFailed(path: string, error: string)
      requires Valid() && path in terminals
      modifies this`history, terminals[path]
      ensures Valid() && Happened(path, RecloneFailed(error))
      ensures terminals[path].state == Quarantined && terminals[path].recloneError == Some(error)
      ensures Tripped(history[path]) == Tripped(old(history)[path])
      ensures Outstanding(history[path]) == Outstanding(old(history)[path])
    {
      ghost var before := terminals[path].View();
      var health := terminals[path];
      health.state := Quarantined;
      health.recloneError := Some(error);
      RecloneTells(before, history[path], RecloneFailed(error));
      Note(path, RecloneFailed(error));
    }

    /** The build read off the terminal's file; what happened to the terminal has no part in it. */
    method RefreshBuild(path: string, build: Option<string>)
      requires Valid() && path in terminals
      modifies terminals[path]
      ensures Valid() && terminals[path].View() == old(terminals[path].View()).(build := build)
    {
      terminals[path].build := build;
    }

    ghost function States(): map<string, TerminalState>
      reads this, Repr()
    {
      map path | path in terminals :: terminals[path].state
    }

    method InStates(states: set<TerminalState>) returns (found: seq<string>)
      requires Shape()
      ensures Picks(found, paths, In(States(), states))
      ensures found != [] <==> In(States(), states) != {}
    {
      found := [];
      for i := 0 to |paths|
        invariant found == Among(paths[..i], In(States(), states))
      {
        assert paths[..i + 1][..i] == paths[..i];
        if terminals[paths[i]].state in states {
          found := found + [paths[i]];
        }
      }
      assert paths[..|paths|] == paths;
      AmongPicks(paths, In(States(), states));
      if found != [] { assert found[0] in In(States(), states); }
      if path :| path in In(States(), states) { assert path in found; }
    }

    /**
     New accounts go to the healthy terminals, each once and in board order, if there is one; else to the suspect ones;
     else to all.
     */
    method Placeable() returns (chosen: seq<string>)
      requires Shape()
      ensures if In(States(), {Healthy}) != {} then Picks(chosen, paths, In(States(), {Healthy}))
              else if In(States(), {Suspect}) != {} then Picks(chosen, paths, In(States(), {Suspect})) else chosen == paths
      ensures Distinct(chosen) && (paths != [] ==> chosen != [])
    {
      ghost var board := States();
      NoneHealthy(board);
      chosen := InStates({Healthy});
      assert States() == board;
      if chosen != [] { return; }
      chosen := InStates({Healthy, Suspect});
      assert States() == board;
      if chosen != [] { return; }
      chosen := paths;
    }

    /** The usable terminals, each once and in board order. */
    method Keepable() returns (chosen: seq<string>)
      requires Shape()
      ensures Picks(chosen, paths, In(States(), {Healthy, Suspect}))
    {
      chosen := InStates({Healthy, Suspect});
    }
  }

  /** The builds of the healthy terminals, in board order; an empty build counts as unknown. */
  predicate Votes(h: Health, build: string) {
    h.state == Healthy && h.build == Some(build) && build != ""
  }

  function CountVotes(board: seq<(string, Health)>, build: string): nat {
    if board == [] then 0
    else CountVotes(board[..|board| - 1], build) + if Votes(board[|board| - 1].1, build) then 1 else 0
  }

  /** The first terminal that votes for a build. */
  predicate FirstVote(board: seq<(string, Health)>, i: nat, build: string) {
    i < |board| && Votes(board[i].1, build) && forall j :: 0 <= j < i ==> !Votes(board[j].1, build)
  }

  /** One build gets the better of another: it has more votes, or as many and the earlier first one. */
  ghost predicate Beats(board: seq<(string, Health)>, i: nat, build: string, other: string) {
    || CountVotes(board, other) < CountVotes(board, build)
    || (CountVotes(board, other) == CountVotes(board, build)
        && forall j :: 0 <= j < i && j < |board| ==> !Votes(board[j].1, other))
  }

  /** The builds that got votes, by their first votes. */
  predicate InOrderOfVotes(board: seq<(string, Health)>, order: seq<string>, firsts: seq<nat>)
    requires |firsts| == |order|
  {
    && (forall a :: 0 <= a < |order| ==> FirstVote(board, firsts[a], order[a]))
    && (forall a, b :: 0 <= a < b < |order| ==> firsts[a] < firsts[b])
  }

  lemma {:induction false} NoVoter(board: seq<(string, Health)>, build: string)
    requires CountVotes(board, build) == 0
    ensures forall j :: 0 <= j < |board| ==> !Votes(board[j].1, build)
  {
    if board != [] {
      NoVoter(board[..|board| - 1], build);
    }
  }

  lemma FirstOfTheBest(board: seq<(string, Health)>, order: seq<string>, firsts: seq<nat>, b: nat)
    requires |firsts| == |order| && InOrderOfVotes(board, order, firsts) && b < |order|
    requires forall build :: build !in order ==> CountVotes(board, build) == 0
    requires forall j :: 0 <= j < |order| ==> CountVotes(board, order[j]) <= CountVotes(board, order[b])
    requires forall j :: 0 <= j < b ==> CountVotes(board, order[j]) < CountVotes(board, order[b])
    ensures forall other :: other != order[b] ==> Beats(board, firsts[b], order[b], other)
  {
    forall other | other != order[b] ensures Beats(board, firsts[b], order[b], other) {
      if other in order {
        var j :| 0 <= j < |order| && order[j] == other;
        assert FirstVote(board, firsts[j], order[j]);
      } else {
        NoVoter(board, other);
      }
    }
  }

  ghost predicate Tallied(board: seq<(string, Health)>, counts: map<string, nat>) {
    forall build :: CountVotes(board, build) == if build in counts then counts[build] else 0
  }

  /** A terminal of this build, or of none that counts, is added to the count. */
  lemma VoteCounts(board: seq<(string, Health)>, voter: (string, Health), counts: map<string, nat>)
    requires Tallied(board, counts)
    ensures var build := voter.1.build;
            if voter.1.state == Healthy && build.Some? && build.value != ""
            then Tallied(board + [voter], counts[build.value := CountVotes(board, build.value) + 1])
            else Tallied(board + [voter], counts)
  {
    assert (board + [voter])[..|board|] == board;
  }

  lemma VotesGrow(board: seq<(string, Health)>, voter: (string, Health), order: seq<string>, firsts: seq<nat>)
    requires |firsts| == |order| && InOrderOfVotes(board, order, firsts)
    ensures InOrderOfVotes(board + [voter], order, firsts)
  {
  }

  lemma NewVote(board: seq<(string, Health)>, voter: (string, Health), build: string, order: seq<string>,
                firsts: seq<nat>)
    requires |firsts| == |order| && InOrderOfVotes(board, order, firsts) && Votes(voter.1, build)
    requires CountVotes(board, build) == 0
    ensures InOrderOfVotes(board + [voter], order + [build], firsts + [|board|])
  {
    NoVoter(board, build);
  }

  /** The votes of each build, and the builds in the order they were first voted for. */
  method CountBuilds(board: seq<(string, Health)>)
    returns (counts: map<string, nat>, order: seq<string>, ghost firsts: seq<nat>)
    ensures Tallied(board, counts) && forall build :: build in counts <==> build in order
    ensures |firsts| == |order| && InOrderOfVotes(board, order, firsts)
  {
    counts, order, firsts := map[], [], [];
    for i := 0 to |board|
      invariant Tallied(board[..i], counts) && forall build :: build in counts <==> build in order
      invariant |firsts| == |order| && InOrderOfVotes(board[..i], order, firsts)
    {
      assert board[..i] + [board[i]] == board[..i + 1];
      var health := board[i].1;
      VoteCounts(board[..i], board[i], counts);
      VotesGrow(board[..i], board[i], order, firsts);
      if health.state == Healthy && health.build.Some? && health.build.value != "" {
        var build := health.build.value;
        if build !in counts {
          NewVote(board[..i], board[i], build, order, firsts);
          order, firsts := order + [build], firsts + [i];
        }
        counts := counts[build := (if build in counts then counts[build] else 0) + 1];
      }
    }
    assert board[..|board|] == board;
  }

  /** The first of the builds with the most votes. */
  method MostCommon(counts: map<string, nat>, order: seq<string>) returns (b: nat)
    requires order != [] && forall build :: build in order ==> build in counts
    ensures b < |order|
    ensures forall j :: 0 <= j < |order| ==> counts[order[j]] <= counts[order[b]]
    ensures forall j :: 0 <= j < b ==> counts[order[j]] < counts[order[b]]
  {
    b := 0;
    for i := 1 to |order|
      invariant b < i
      invariant forall j :: 0 <= j < i ==> counts[order[j]] <= counts[order[b]]
      invariant forall j :: 0 <= j < b ==> counts[order[j]] < counts[order[b]]
    {
      if counts[order[i]] > counts[order[b]] {
        b := i;
      }
    }
  }

  /** The first terminal that votes for a build. */
  method SourceOf(board: seq<(string, Health)>, build: string, ghost first: nat) returns (source: string)
    requires FirstVote(board, first, build)
    ensures source == board[first].0
  {
    var k := 0;
    while !Votes(board[k].1, build)
      invariant 0 <= k <= first
      decreases |board| - k
    {
      k := k + 1;
    }
    return board[k].0;
  }

  /** The healthy terminals whose build is known to be this one. */
  ghost function Voters(board: seq<(string, Health)>, build: string): set<int> {
    set i | 0 <= i < |board| && board[i].1.state == Healthy && board[i].1.build == Some(build) && build != ""
  }

  lemma {:induction false} VotersCounted(board: seq<(string, Health)>, build: string)
    ensures CountVotes(board, build) == |Voters(board, build)|
  {
    if board != [] {
      var front, last := board[..|board| - 1], board[|board| - 1];
      VotersCounted(front, build);
      assert Voters(board, build) == Voters(front, build) + if Votes(last.1, build) then {|front|} else {};
    }
  }

  /**
   The build most healthy terminals share, of several the one whose first terminal comes first, with that terminal; none
   below two.
   */
  method Quorum(board: seq<(string, Health)>) returns (quorum: Option<(string, string)>)
    ensures quorum.None? <==> forall build :: |Voters(board, build)| < 2
    ensures quorum.Some? ==>
              var (build, source) := quorum.value;
              && |Voters(board, build)| >= 2
              && exists i :: && i in Voters(board, build) && board[i].0 == source
                             && (forall j :: j in Voters(board, build) ==> i <= j)
                             && forall other :: other != build ==>
                                  || |Voters(board, other)| < |Voters(board, build)|
                                  || ( && |Voters(board, other)| == |Voters(board, build)|
                                       && forall j :: j in Voters(board, other) ==> i < j)
  {
    forall build { VotersCounted(board, build); }
    var counts, order;
    ghost var firsts;
    counts, order, firsts := CountBuilds(board);
    if order == [] {
      return None;
    }
    var b := MostCommon(counts, order);
    if counts[order[b]] < 2 {
      return None;
    }
    var source := SourceOf(board, order[b], firsts[b]);
    FirstOfTheBest(board, order, firsts, b);
    FirstVoters(board, firsts[b], order[b]);
    return Some((order[b], source));
  }

  lemma FirstVoters(board: seq<(string, Health)>, i: nat, build: string)
    requires FirstVote(board, i, build) && forall other :: other != build ==> Beats(board, i, build, other)
    ensures i in Voters(board, build) && forall j :: j in Voters(board, build) ==> i <= j
    ensures forall other :: other != build ==>
              || |Voters(board, other)| < |Voters(board, build)|
              || ( && |Voters(board, other)| == |Voters(board, build)|
                   && forall j :: j in Voters(board, other) ==> i < j)
  {
    VotersCounted(board, build);
    forall other | other != build
      ensures || |Voters(board, other)| < |Voters(board, build)|
              || (|Voters(board, other)| == |Voters(board, build)| && forall j :: j in Voters(board, other) ==> i < j)
    {
      VotersCounted(board, other);
      assert Beats(board, i, build, other);
    }
  }
}
