/** A sync whose worker never answers uses all its retries, and no more. */
module PoolTimeouts {
  import opened Protocol
  import opened Pool
  import opened PoolInvariants
  import opened PoolAnswers
  import opened PoolRetries
  import opened PoolRunSteps
  import opened PoolRuns
  import HealthSpec

  /** The runs of a sync that always fails: one, and its retries; an initial sync has none. */
  function AllRuns(maxRetries: int, item: Item): int {
    1 + if item.kind == Initial || maxRetries < 0 then 0 else maxRetries
  }

  /** What becomes of the sync here is not a timeout: its worker answers, or its run crashes. */
  predicate Disturbs(s: State, step: Step, id: Id) {
    && step.Run? && HasTask(s, step.path, step.k) && s.workers[step.path].tasks[step.k].id == id
    && (step.run == Crash || (step.run.Answer? && step.run.answer.Some?))
  }

  /** All through a run the sync gets no answer. */
  ghost predicate OnlyTimesOut(s: State, steps: seq<Step>, id: Id)
    requires Feasible(s, steps)
    decreases |steps|
  {
    steps == [] || (!Disturbs(s, steps[0], id) && OnlyTimesOut(Next(s, steps[0]), steps[1..], id))
  }

  predicate RunsSync(s: State, path: string, id: Id) {
    path in s.workers && s.workers[path].tasks != [] && s.workers[path].tasks[0].id == id
  }

  /** No free re-run so far; and once its own run hands it over, it has run as often as it may. */
  predicate TimedOut(s: State, id: Id) {
    id < |s.items| && s.items[id].outcome == Pending ==>
      var item := s.items[id];
      && item.replacements == 0 && item.rotations == 0
      && (RunsSync(s, item.path, id) ==>
            match s.workers[item.path].tasks[0].stage
            case Created => true
            case Talking => item.attempts >= 1
            case Restarting(result) => item.attempts >= 1 && result == NO_ANSWER
            case Completing => item.attempts == AllRuns(s.maxRetries, item)
            case _ => false)
  }

  // Steps that are not the sync's own.

  predicate SameCounts(a: Item, b: Item) {
    && b.attempts == a.attempts && b.replacements == a.replacements && b.rotations == a.rotations
    && b.kind == a.kind && b.path == a.path && (b.outcome == Pending ==> a.outcome == Pending)
  }

  predicate Untouched(s: State, t: State, id: Id) {
    && id < |s.items| <= |t.items| && t.maxRetries == s.maxRetries
    && SameCounts(s.items[id], t.items[id])
    && var path := s.items[id].path;
    (RunsSync(t, path, id) ==>
       || t.workers[path].tasks[0] == Task(id, Created)
       || (RunsSync(s, path, id) && t.workers[path].tasks[0] == s.workers[path].tasks[0]))
  }

  lemma UntouchedKeeps(s: State, t: State, id: Id)
    requires Untouched(s, t, id) && TimedOut(s, id)
    ensures TimedOut(t, id)
  {
  }

  lemma ResolveUntouched(s: State, id: Id, other: Id, outcome: Outcome)
    requires id < |s.items| && other < |s.items| && outcome != Pending
    ensures Untouched(s, Resolve(s, other, outcome), id)
  {
  }

  lemma FinishUntouched(s: State, path: string, result: SyncResult, healthy: bool, id: Id)
    requires HasTask(s, path, 0) && |s.workers[path].tasks| == 1 && s.workers[path].tasks[0].id < |s.items|
    requires id < |s.items| && s.workers[path].tasks[0].id != id
    ensures Untouched(s, Finish(s, path, 0, result, healthy), id)
  {
  }

  lemma RecordedUntouched(s: State, path: string, result: SyncResult, healthy: bool, health: HealthSpec.Health, id: Id)
    requires HasTask(s, path, 0) && |s.workers[path].tasks| == 1 && s.workers[path].tasks[0].id < |s.items|
    requires id < |s.items| && s.workers[path].tasks[0].id != id
    ensures Untouched(s, Recorded(s, path, 0, result, healthy, health), id)
  {
    var recorded := Put(s, path, s.workers[path].(health := health));
    if health.state != HealthSpec.Quarantined && !(result.proxyDead && s.registry) && healthy {
      FinishUntouched(recorded, path, result, true, id);
    }
  }

  lemma AnswerUntouched(s: State, path: string, answer: Option<SyncResult>, now: int, warming: bool, id: Id)
    requires HasTask(s, path, 0) && |s.workers[path].tasks| == 1 && Bounded(s, path)
    requires id < |s.items| && s.workers[path].tasks[0].id != id
    ensures Untouched(s, AnswerNow(s, path, 0, answer, now, warming), id)
  {
    var w, result := s.workers[path], if answer.Some? then answer.value else POOL_FAILURE;
    if s.Closing() {
      ResolveUntouched(s, id, w.tasks[0].id, ShutDown);
    } else {
      RecordedUntouched(s, path, result, answer.Some? && !result.terminalLost,
                        HealthSpec.Record(w.health, now, warming, s.items[w.tasks[0].id].server, result), id);
    }
  }

  lemma DrainUntouched(s: State, path: string, id: Id)
    requires HasTask(s, path, 0) && |s.workers[path].tasks| == 1 && id < |s.items|
    requires forall e :: e in s.workers[path].queue ==> e.id < |s.items|
    requires !RunsSync(s, path, id) || s.items[id].path != path
    ensures Untouched(s, DrainNext(s, path, 0), id)
  {
  }

  lemma UntouchedTwice(s: State, t: State, u: State, id: Id)
    requires Untouched(s, t, id) && Untouched(t, u, id)
    ensures Untouched(s, u, id)
  {
  }

  lemma HandlerUntouched(s: State, path: string, id: Id)
    requires HasTask(s, path, 0) && |s.workers[path].tasks| == 1 && Bounded(s, path)
    requires RunEnabled(s, path, 0, HandlerDone) && id < |s.items|
    requires StageOf(s, path, 0).Completing? || !RunsSync(s, path, id) || s.items[id].path != path
    ensures Untouched(s, HandlerDoneNow(s, path, 0), id)
  {
    var task := s.workers[path].tasks[0];
    var done := Resolve(s, Grip(task), Completed);
    ResolveUntouched(s, id, Grip(task), Completed);
    if task.stage.Completing? {
      assert Untouched(done, EndTask(done, path, 0), id);
      UntouchedTwice(s, done, EndTask(done, path, 0), id);
    } else {
      DrainUntouched(done, path, id);
      UntouchedTwice(s, done, DrainNext(done, path, 0), id);
    }
  }

  lemma RunUntouched(s: State, path: string, k: nat, run: RunStep, id: Id)
    requires RunEnabled(s, path, k, run) && WorkerInv(s, path) && id < |s.items|
    requires s.workers[path].tasks[k].id != id
    ensures Untouched(s, AfterRun(s, path, k, run), id)
  {
    match run {
      case Answer(answer, now, warming) => AnswerUntouched(s, path, answer, now, warming, id);
      case RestartDone(healthy) => FinishUntouched(s, path, StageOf(s, path, k).result, healthy, id);
      case HandlerDone => HandlerUntouched(s, path, id);
      case _ =>
    }
  }

  lemma DispatchUntouched(s: State, path: string, step: DispatchStep, id: Id)
    requires DispatchEnabled(s, path, step) && WorkerInv(s, path) && id < |s.items|
    ensures Untouched(s, AfterDispatch(s, path, step), id)
  {
  }

  lemma StopUntouched(s: State, step: StopStep, id: Id)
    requires AllBounded(s) && StopEnabled(s, step) && id < |s.items|
    ensures Untouched(s, AfterStop(s, step), id)
  {
    match step {
      case CancelDispatcher(path) =>
        assert Bounded(s, path);
        if s.workers[path].dispatcher.Holding? {
          ResolveUntouched(s, id, s.workers[path].dispatcher.item, ShutDown);
        }
      case _ =>
    }
  }

  // The sync's own steps.

  /** A result without a start report tells the board nothing. */
  lemma NoAnswerIsNoStrike(h: HealthSpec.Health, now: int, warming: bool, server: string)
    ensures HealthSpec.Record(h, now, warming, server, NO_ANSWER) == h
  {
  }

  lemma OwnAnswerKeeps(s: State, path: string, now: int, warming: bool, id: Id)
    requires RunEnabled(s, path, 0, Answer(None, now, warming)) && WorkerInv(s, path) && s.workers[path].tasks[0].id == id
    requires TimedOut(s, id)
    ensures TimedOut(AnswerNow(s, path, 0, None, now, warming), id)
  {
    RunningIsOwed(s, path, 0);
    var t := AnswerNow(s, path, 0, None, now, warming);
    if s.Closing() {
      assert t.items[id].outcome == ShutDown;
    } else {
      NoAnswerIsNoStrike(s.workers[path].health, now, warming, s.items[id].server);
      RecordedGoesOn(s, path, None, s.workers[path].health);
      assert t == Recorded(s, path, 0, NO_ANSWER, false, s.workers[path].health);
    }
  }

  lemma OwnRestartKeeps(s: State, path: string, healthy: bool, id: Id)
    requires RunEnabled(s, path, 0, RestartDone(healthy)) && WorkerInv(s, path) && s.workers[path].tasks[0].id == id
    requires id < |s.items| && ItemInv(s.maxRetries, s.items[id]) && TimedOut(s, id)
    ensures TimedOut(Finish(s, path, 0, StageOf(s, path, 0).result, healthy), id)
  {
    RunningIsOwed(s, path, 0);
    FinishEnds(s, path, StageOf(s, path, 0).result, healthy);
  }

  lemma OwnStartKeeps(s: State, path: string, id: Id)
    requires RunEnabled(s, path, 0, StartTask) && WorkerInv(s, path) && s.workers[path].tasks[0].id == id
    requires id < |s.items| && ItemInv(s.maxRetries, s.items[id]) && TimedOut(s, id)
    ensures TimedOut(StartTaskNow(s, path, 0), id)
  {
    RunningIsOwed(s, path, 0);
  }

  /** A sync that works off a quarantine, or is past its completion, has had its answer. */
  lemma OwnHandlerKeeps(s: State, path: string, id: Id)
    requires RunEnabled(s, path, 0, HandlerDone) && WorkerInv(s, path) && s.workers[path].tasks[0].id == id
    requires id < |s.items| && s.items[id].path == path && TimedOut(s, id)
    ensures TimedOut(HandlerDoneNow(s, path, 0), id)
  {
    if StageOf(s, path, 0).Completing? {
      HandlerUntouched(s, path, id);
      UntouchedKeeps(s, HandlerDoneNow(s, path, 0), id);
    } else {
      HandlerAnswers(s, path, id);
    }
  }

  lemma DrainKeepsOutcomes(s: State, path: string, k: nat)
    requires HasTask(s, path, k) && forall e :: e in s.workers[path].queue ==> e.id < |s.items|
    ensures var t := DrainNext(s, path, k);
            |t.items| == |s.items| && forall id: Id :: id < |s.items| ==> t.items[id].outcome == s.items[id].outcome
  {
  }

  lemma HandlerAnswers(s: State, path: string, id: Id)
    requires RunEnabled(s, path, 0, HandlerDone) && Bounded(s, path) && id < |s.items| && s.items[id].outcome != Pending
    ensures |HandlerDoneNow(s, path, 0).items| == |s.items| && HandlerDoneNow(s, path, 0).items[id].outcome != Pending
  {
    var task := s.workers[path].tasks[0];
    if !task.stage.Completing? {
      DrainKeepsOutcomes(Resolve(s, Grip(task), Completed), path, 0);
    }
  }

  lemma OwnRunKeeps(s: State, path: string, k: nat, run: RunStep, id: Id)
    requires RunEnabled(s, path, k, run) && WorkerInv(s, path) && s.workers[path].tasks[k].id == id
    requires id < |s.items| && ItemInv(s.maxRetries, s.items[id])
    requires !Disturbs(s, Run(path, k, run), id) && TimedOut(s, id)
    requires s.items[id].path == path
    ensures TimedOut(AfterRun(s, path, k, run), id)
  {
    match run {
      case StartTask => OwnStartKeeps(s, path, id);
      case Answer(_, now, warming) => OwnAnswerKeeps(s, path, now, warming, id);
      case RotateDone => RunningIsOwed(s, path, k);
      case RestartDone(healthy) => OwnRestartKeeps(s, path, healthy, id);
      case HandlerDone => OwnHandlerKeeps(s, path, id);
    }
  }

  // Runs.

  lemma RequestKeepsTimedOut(s: State, step: RequestStep, id: Id)
    requires Inv(s) && RequestEnabled(s, step) && TimedOut(s, id)
    ensures TimedOut(AfterRequest(s, step), id)
  {
    var t := AfterRequest(s, step);
    if id < |s.items| {
      assert Untouched(s, t, id);
    } else if id < |t.items| && t.items[id].path in s.workers {
      assert Bounded(s, t.items[id].path);
    }
  }

  lemma RunStepKeepsTimedOut(s: State, path: string, k: nat, run: RunStep, id: Id)
    requires Inv(s) && RunEnabled(s, path, k, run) && !Disturbs(s, Run(path, k, run), id) && TimedOut(s, id)
    requires id < |s.items|
    ensures Bounded(s, path) && TimedOut(AfterRun(s, path, k, run), id)
  {
    assert WorkerInv(s, path) && ItemKept(s, id);
    HandIsOwed(s, path);
    if s.workers[path].tasks[k].id == id && s.items[id].path == path {
      OwnRunKeeps(s, path, k, run, id);
    } else {
      if s.workers[path].tasks[k].id == id {
        HandlerUntouched(s, path, id);
      } else {
        RunUntouched(s, path, k, run, id);
      }
      UntouchedKeeps(s, AfterRun(s, path, k, run), id);
    }
  }

  lemma StepKeepsTimedOut(s: State, step: Step, id: Id)
    requires Inv(s) && Enabled(s, step) && !Disturbs(s, step, id) && TimedOut(s, id)
    ensures TimedOut(Next(s, step), id)
  {
    var t := Next(s, step);
    if step.Request? {
      RequestKeepsTimedOut(s, step.request, id);
    } else if id < |s.items| {
      match step {
        case Reap(path, reap) => assert Untouched(s, t, id);
        case Dispatch(path, dispatch) =>
          assert WorkerInv(s, path);
          DispatchUntouched(s, path, dispatch, id);
        case Run(path, k, run) => RunStepKeepsTimedOut(s, path, k, run, id);
        case Stop(stop) => StopUntouched(s, stop, id);
      }
      if !step.Run? { UntouchedKeeps(s, t, id); }
    } else {
      NoMoreItems(s, step);
    }
  }

  lemma FinishSize(s: State, path: string, k: nat, result: SyncResult, healthy: bool)
    requires HasTask(s, path, k) && s.workers[path].tasks[k].id < |s.items|
    ensures |Finish(s, path, k, result, healthy).items| == |s.items|
  {
  }

  lemma AnswerSize(s: State, path: string, k: nat, answer: Option<SyncResult>, now: int, warming: bool)
    requires HasTask(s, path, k) && Bounded(s, path)
    ensures |AnswerNow(s, path, k, answer, now, warming).items| == |s.items|
  {
    if !s.Closing() {
      var w, result := s.workers[path], if answer.Some? then answer.value else POOL_FAILURE;
      var health := HealthSpec.Record(w.health, now, warming, s.items[w.tasks[k].id].server, result);
      FinishSize(Put(s, path, w.(health := health)), path, k, result, true);
    }
  }

  lemma HandlerSize(s: State, path: string, k: nat)
    requires HasTask(s, path, k) && Bounded(s, path)
    ensures |HandlerDoneNow(s, path, k).items| == |s.items|
  {
    var task := s.workers[path].tasks[k];
    if task.stage.Quarantining? || task.stage.Draining? {
      DrainKeepsOutcomes(Resolve(s, Grip(task), Completed), path, k);
    }
  }

  lemma RunSize(s: State, path: string, k: nat, run: RunStep)
    requires RunEnabled(s, path, k, run) && Bounded(s, path)
    ensures |AfterRun(s, path, k, run).items| == |s.items|
  {
    match run {
      case Answer(answer, now, warming) => AnswerSize(s, path, k, answer, now, warming);
      case RestartDone(healthy) => FinishSize(s, path, k, StageOf(s, path, k).result, healthy);
      case HandlerDone => HandlerSize(s, path, k);
      case _ =>
    }
  }

  lemma NoMoreItems(s: State, step: Step)
    requires AllBounded(s) && Enabled(s, step) && !step.Request?
    ensures |Next(s, step).items| == |s.items|
  {
    match step {
      case Run(path, k, run) =>
        assert Bounded(s, path);
        RunSize(s, path, k, run);
      case Stop(CancelDispatcher(path)) => assert Bounded(s, path);
      case _ =>
    }
  }

  lemma {:induction false} RunKeepsTimedOut(s: State, steps: seq<Step>, id: Id)
    requires Inv(s) && Feasible(s, steps) && OnlyTimesOut(s, steps, id) && TimedOut(s, id)
    ensures Inv(After(s, steps)) && TimedOut(After(s, steps), id)
    decreases |steps|
  {
    if steps != [] {
      StepKeepsTimedOut(s, steps[0], id);
      StepKeeps(s, steps[0]);
      RunKeepsTimedOut(Next(s, steps[0]), steps[1..], id);
    }
  }

  /** A sync that always times out has run exactly once more than its retries when its own run hands it over. */
  lemma TimeoutsUseAllRetries(start: State, steps: seq<Step>, path: string, id: Id)
    requires Started(start) && Feasible(start, steps) && OnlyTimesOut(start, steps, id)
    requires RunsSync(After(start, steps), path, id) && After(start, steps).workers[path].tasks[0].stage == Completing
    ensures id < |After(start, steps).items|
    ensures var s := After(start, steps);
            s.items[id].fired == 1 && s.items[id].runs == AllRuns(s.maxRetries, s.items[id])
  {
    StartedInv(start);
    RunKeepsTimedOut(start, steps, id);
    var s := After(start, steps);
    assert WorkerInv(s, path);
    HandIsOwed(s, path);
    assert ItemKept(s, id);
    assert Firing(s.workers[path], id);
  }
}
