/** The pool's health records: each is what the legal history of its terminal leads to. */
module PoolHealth {
  import opened Protocol
  import opened Pool
  import opened PoolRuns
  import HealthSpec
  import HealthHistory

  type Health = HealthSpec.Health

  type Event = HealthHistory.Event

  ghost predicate HasHistory(h: Health) {
    exists es :: HealthHistory.Legal(es) && HealthHistory.Replay(es) == h
  }

  /** The event may follow in a legal history. */
  predicate MayFollow(h: Health, e: Event) {
    && (e.RecloneStarted? ==> h.state == HealthSpec.Quarantined)
    && (e.Recloned? || e.RecloneFailed? ==> h.state == HealthSpec.Recloning)
  }

  lemma HistoryGrows(h: Health, e: Event)
    requires HasHistory(h) && MayFollow(h, e)
    ensures HasHistory(HealthHistory.Apply(h, e))
  {
    var es :| HealthHistory.Legal(es) && HealthHistory.Replay(es) == h;
    assert HealthHistory.Init(es + [e]) == es;
    assert HealthHistory.Legal(es + [e]) && HealthHistory.Replay(es + [e]) == HealthHistory.Apply(h, e);
  }

  predicate Same(s: State, t: State, path: string)
    requires path in s.workers
  {
    path in t.workers && t.workers[path].health == s.workers[path].health
  }

  lemma FinishSame(s: State, path: string, k: nat, result: SyncResult, healthy: bool, other: string)
    requires HasTask(s, path, k) && s.workers[path].tasks[k].id < |s.items| && other in s.workers
    ensures Same(s, Finish(s, path, k, result, healthy), other)
  {
  }

  lemma RecordedSame(s: State, path: string, k: nat, result: SyncResult, healthy: bool, health: Health, other: string)
    requires HasTask(s, path, k) && s.workers[path].tasks[k].id < |s.items| && other in s.workers
    ensures Same(Put(s, path, s.workers[path].(health := health)), Recorded(s, path, k, result, healthy, health), other)
  {
    var recorded := Put(s, path, s.workers[path].(health := health));
    if health.state != HealthSpec.Quarantined && !(result.proxyDead && s.registry) && healthy {
      FinishSame(recorded, path, k, result, true, other);
    }
  }

  lemma AnswerKeepsHistory(s: State, path: string, k: nat, answer: Option<SyncResult>, now: int, warming: bool, other: string)
    requires HasTask(s, path, k) && Bounded(s, path) && other in s.workers && HasHistory(s.workers[other].health)
    ensures var t := AnswerNow(s, path, k, answer, now, warming); other in t.workers && HasHistory(t.workers[other].health)
  {
    var w, result := s.workers[path], if answer.Some? then answer.value else POOL_FAILURE;
    var server := s.items[w.tasks[k].id].server;
    if s.Closing() {
      assert Same(s, AnswerNow(s, path, k, answer, now, warming), other);
    } else {
      RecordedSame(s, path, k, result, answer.Some? && !result.terminalLost,
                   HealthSpec.Record(w.health, now, warming, server, result), other);
      if other == path {
        HistoryGrows(w.health, HealthHistory.Recorded(now, warming, server, result));
      }
    }
  }

  lemma HandlerSame(s: State, path: string, k: nat, other: string)
    requires HasTask(s, path, k) && Bounded(s, path) && other in s.workers
    ensures Same(s, HandlerDoneNow(s, path, k), other)
  {
  }

  lemma RunKeepsHistory(s: State, path: string, k: nat, run: RunStep, other: string)
    requires RunEnabled(s, path, k, run) && Bounded(s, path) && other in s.workers && HasHistory(s.workers[other].health)
    ensures var t := AfterRun(s, path, k, run); other in t.workers && HasHistory(t.workers[other].health)
  {
    match run {
      case Answer(answer, now, warming) => AnswerKeepsHistory(s, path, k, answer, now, warming, other);
      case RestartDone(healthy) => FinishSame(s, path, k, StageOf(s, path, k).result, healthy, other);
      case HandlerDone => HandlerSame(s, path, k, other);
      case _ => assert Same(s, AfterRun(s, path, k, run), other);
    }
  }

  lemma ReapKeepsHistory(s: State, path: string, reap: ReaperStep, other: string)
    requires ReapEnabled(s, path, reap) && other in s.workers && HasHistory(s.workers[other].health)
    ensures var t := AfterReap(s, path, reap); other in t.workers && HasHistory(t.workers[other].health)
  {
    if other != path {
      assert Same(s, AfterReap(s, path, reap), other);
    } else {
      match reap {
        case MarkReady(_) =>
        case StartReclone(now) => HistoryGrows(s.workers[path].health, HealthHistory.RecloneStarted(now));
        case FinishReclone => HistoryGrows(s.workers[path].health, HealthHistory.Recloned);
        case FailReclone(error) => HistoryGrows(s.workers[path].health, HealthHistory.RecloneFailed(error));
      }
    }
  }

  lemma StopSame(s: State, stop: StopStep, other: string)
    requires AllBounded(s) && StopEnabled(s, stop) && other in s.workers
    ensures Same(s, AfterStop(s, stop), other)
  {
    match stop {
      case CancelDispatcher(path) => assert Bounded(s, path);
      case _ =>
    }
  }

  lemma StepKeepsHistory(s: State, step: Step, path: string)
    requires AllBounded(s) && Enabled(s, step) && path in s.workers && HasHistory(s.workers[path].health)
    ensures path in Next(s, step).workers && HasHistory(Next(s, step).workers[path].health)
  {
    match step {
      case Request(_) => assert Same(s, Next(s, step), path);
      case Reap(other, reap) => ReapKeepsHistory(s, other, reap, path);
      case Dispatch(_, _) => assert Same(s, Next(s, step), path);
      case Run(other, k, run) =>
        assert Bounded(s, other);
        RunKeepsHistory(s, other, k, run, path);
      case Stop(stop) => StopSame(s, stop, path);
    }
  }

  lemma {:induction false} RunHasHistory(s: State, steps: seq<Step>, path: string)
    requires Feasible(s, steps) && path in s.workers && HasHistory(s.workers[path].health)
    ensures path in After(s, steps).workers && HasHistory(After(s, steps).workers[path].health)
    decreases |steps|
  {
    if steps != [] {
      StepKeepsHistory(s, steps[0], path);
      RunHasHistory(Next(s, steps[0]), steps[1..], path);
    }
  }

  lemma {:induction false} TerminalsStay(s: State, steps: seq<Step>)
    requires Feasible(s, steps)
    ensures After(s, steps).workers.Keys == s.workers.Keys
    decreases |steps|
  {
    if steps != [] {
      StepKeepsTerminals(s, steps[0]);
      TerminalsStay(Next(s, steps[0]), steps[1..]);
    }
  }

  lemma FinishKeepsTerminals(s: State, path: string, k: nat, result: SyncResult, healthy: bool)
    requires HasTask(s, path, k) && s.workers[path].tasks[k].id < |s.items|
    ensures Finish(s, path, k, result, healthy).workers.Keys == s.workers.Keys
  {
  }

  lemma AnswerKeepsTerminals(s: State, path: string, k: nat, answer: Option<SyncResult>, now: int, warming: bool)
    requires HasTask(s, path, k) && Bounded(s, path)
    ensures AnswerNow(s, path, k, answer, now, warming).workers.Keys == s.workers.Keys
  {
    if !s.Closing() {
      var w, result := s.workers[path], if answer.Some? then answer.value else POOL_FAILURE;
      var health := HealthSpec.Record(w.health, now, warming, s.items[w.tasks[k].id].server, result);
      RecordedKeepsTerminals(s, path, k, result, answer.Some? && !result.terminalLost, health);
    }
  }

  lemma RecordedKeepsTerminals(s: State, path: string, k: nat, result: SyncResult, healthy: bool, health: Health)
    requires HasTask(s, path, k) && s.workers[path].tasks[k].id < |s.items|
    ensures Recorded(s, path, k, result, healthy, health).workers.Keys == s.workers.Keys
  {
    var recorded := Put(s, path, s.workers[path].(health := health));
    assert recorded.workers.Keys == s.workers.Keys;
    FinishKeepsTerminals(recorded, path, k, result, true);
  }

  lemma HandlerKeepsTerminals(s: State, path: string, k: nat)
    requires HasTask(s, path, k) && Bounded(s, path)
    ensures HandlerDoneNow(s, path, k).workers.Keys == s.workers.Keys
  {
  }

  lemma RunKeepsTerminals(s: State, path: string, k: nat, run: RunStep)
    requires RunEnabled(s, path, k, run) && Bounded(s, path)
    ensures AfterRun(s, path, k, run).workers.Keys == s.workers.Keys
  {
    match run {
      case Answer(answer, now, warming) => AnswerKeepsTerminals(s, path, k, answer, now, warming);
      case RestartDone(healthy) => FinishKeepsTerminals(s, path, k, StageOf(s, path, k).result, healthy);
      case HandlerDone => HandlerKeepsTerminals(s, path, k);
      case _ =>
    }
  }

  lemma StopKeepsTerminals(s: State, stop: StopStep)
    requires AllBounded(s) && StopEnabled(s, stop)
    ensures AfterStop(s, stop).workers.Keys == s.workers.Keys
  {
    match stop {
      case CancelDispatcher(path) => assert Bounded(s, path);
      case _ =>
    }
  }

  lemma StepKeepsTerminals(s: State, step: Step)
    requires AllBounded(s) && Enabled(s, step)
    ensures Next(s, step).workers.Keys == s.workers.Keys
  {
    match step {
      case Run(path, k, run) =>
        assert Bounded(s, path);
        RunKeepsTerminals(s, path, k, run);
      case Stop(stop) => StopKeepsTerminals(s, stop);
      case _ =>
    }
  }

  /** The health record of a terminal of any reachable pool is the replay of a legal history. */
  lemma HealthIsReplayed(s: State, path: string)
    requires Reachable(s) && path in s.workers
    ensures HasHistory(s.workers[path].health)
  {
    var start, steps :| Started(start) && Feasible(start, steps) && s == After(start, steps);
    TerminalsStay(start, steps);
    assert HealthHistory.Legal([]) && HealthHistory.Replay([]) == HealthSpec.FRESH;
    RunHasHistory(start, steps, path);
  }

  /**
   So everything proved of legal histories holds of the terminals of the pool: a terminal takes syncs exactly until a
   strike trips it, and while it does its counters show the strikes since the last success or reclone.
   */
  lemma PoolHealthTellsHistory(s: State, path: string)
    requires Reachable(s) && path in s.workers
    ensures exists es :: HealthHistory.Legal(es) && HealthHistory.Refines(s.workers[path].health, es)
  {
    HealthIsReplayed(s, path);
    var es :| HealthHistory.Legal(es) && HealthHistory.Replay(es) == s.workers[path].health;
    HealthHistory.BoardRefinesHistory(es);
  }
}
