/** Which results are still handed to the result handler once the pool is closing. */
module PoolShutdown {
  import opened Protocol
  import opened Pool
  import opened PoolInvariants
  import opened PoolAnswers
  import opened PoolRuns
  import opened PoolStop

  /**
   The terminal is past the one test of the closing flag: its task has been answered and will not be run again, or its
   quarantine still has queued tasks to work off.
   */
  predicate WillHandOver(maxRetries: int, items: seq<Item>, w: Worker) {
    w.tasks != [] && w.tasks[0].id < |items| &&
    match w.tasks[0].stage
    case Rotating(result) => !ShouldRetry(maxRetries, items[w.tasks[0].id], result).0
    case Restarting(result) => !ShouldRetry(maxRetries, items[w.tasks[0].id], result).0
    case Quarantining => w.queue != []
    case Draining(_) => w.queue != []
    case _ => false
  }

  predicate Silent(s: State, path: string) {
    path in s.workers && s.Closing() && !WillHandOver(s.maxRetries, s.items, s.workers[path])
  }

  /** No task of the terminal was handed over in between. */
  ghost predicate NoneHandedOver(a: seq<Item>, b: seq<Item>, path: string) {
    && |a| <= |b|
    && forall id: Id :: id < |a| && a[id].path == path ==> b[id].path == path && b[id].fired == a[id].fired
  }

  // Steps of the terminal itself.

  lemma OwnStartsSilently(s: State, path: string)
    requires Silent(s, path) && HasTask(s, path, 0) && Bounded(s, path) && |s.workers[path].tasks| == 1
    ensures var t := StartTaskNow(s, path, 0); Silent(t, path) && NoneHandedOver(s.items, t.items, path)
  {
  }

  lemma OwnAnswersSilently(s: State, path: string, answer: Option<SyncResult>, now: int, warming: bool)
    requires Silent(s, path) && HasTask(s, path, 0) && Bounded(s, path) && |s.workers[path].tasks| == 1
    ensures var t := AnswerNow(s, path, 0, answer, now, warming); Silent(t, path) && NoneHandedOver(s.items, t.items, path)
  {
    assert AnswerNow(s, path, 0, answer, now, warming) == EndTask(Resolve(s, s.workers[path].tasks[0].id, ShutDown), path, 0);
  }

  lemma OwnRestartsSilently(s: State, path: string, healthy: bool)
    requires Silent(s, path) && HasTask(s, path, 0) && Bounded(s, path) && |s.workers[path].tasks| == 1
    requires StageOf(s, path, 0).Restarting?
    ensures var t := Finish(s, path, 0, StageOf(s, path, 0).result, healthy);
            Silent(t, path) && NoneHandedOver(s.items, t.items, path)
  {
    var id := s.workers[path].tasks[0].id;
    var (again, item) := ShouldRetry(s.maxRetries, s.items[id], StageOf(s, path, 0).result);
    assert again && item.path == s.items[id].path && item.fired == s.items[id].fired;
  }

  /** With no queued task left to drain, the handler's return ends the run. */
  lemma HandlerEnds(s: State, path: string)
    requires HasTask(s, path, 0) && Bounded(s, path) && |s.workers[path].tasks| == 1 && RunEnabled(s, path, 0, HandlerDone)
    requires StageOf(s, path, 0).Completing? || s.workers[path].queue == []
    ensures var t, id := HandlerDoneNow(s, path, 0), Grip(s.workers[path].tasks[0]);
            && path in t.workers && t.workers[path].tasks == [] && t.workers[path].dispatcher == s.workers[path].dispatcher
            && t.workers[path].queue == s.workers[path].queue
            && id < |s.items| && t.items == Resolve(s, id, Completed).items && t.phase == s.phase
  {
    var task := s.workers[path].tasks[0];
    var done := Resolve(s, Grip(task), Completed);
    var empty := Put(done, path, s.workers[path].(hardQueued := 0));
    assert HandlerDoneNow(s, path, 0) == EndTask(if task.stage.Completing? then done else empty, path, 0);
  }

  lemma OwnHandlerReturnsSilently(s: State, path: string)
    requires Silent(s, path) && HasTask(s, path, 0) && Bounded(s, path) && |s.workers[path].tasks| == 1
    requires RunEnabled(s, path, 0, HandlerDone)
    ensures var t := HandlerDoneNow(s, path, 0); Silent(t, path) && NoneHandedOver(s.items, t.items, path)
  {
    HandlerEnds(s, path);
  }

  lemma OwnRunSilent(s: State, path: string, k: nat, run: RunStep)
    requires Silent(s, path) && RunEnabled(s, path, k, run) && WorkerInv(s, path) && run != Crash
    ensures var t := AfterRun(s, path, k, run); Silent(t, path) && NoneHandedOver(s.items, t.items, path)
  {
    match run {
      case StartTask => OwnStartsSilently(s, path);
      case Answer(answer, now, warming) => OwnAnswersSilently(s, path, answer, now, warming);
      case RotateDone =>
      case RestartDone(healthy) => OwnRestartsSilently(s, path, healthy);
      case HandlerDone => OwnHandlerReturnsSilently(s, path);
    }
  }

  // Steps elsewhere.

  /** Items of one terminal only changed, and the other terminals did not. */
  predicate Elsewhere(s: State, t: State, path: string) {
    && t.maxRetries == s.maxRetries && t.phase == s.phase && |t.items| == |s.items|
    && t.workers.Keys == s.workers.Keys
    && (path in s.workers ==> t.workers[path] == s.workers[path])
    && (forall id: Id :: id < |s.items| && s.items[id].path == path ==> t.items[id] == s.items[id])
  }

  lemma ElsewhereIsSilent(s: State, t: State, path: string)
    requires Silent(s, path) && Elsewhere(s, t, path) && WorkerInv(s, path)
    ensures Silent(t, path) && NoneHandedOver(s.items, t.items, path)
  {
    var w := s.workers[path];
    if w.tasks != [] && (w.tasks[0].stage.Rotating? || w.tasks[0].stage.Restarting?) {
      HandIsOwed(s, path);
    }
  }

  lemma FinishElsewhere(s: State, path: string, result: SyncResult, healthy: bool, other: string)
    requires HasTask(s, path, 0) && s.workers[path].tasks[0].id < |s.items|
    requires s.items[s.workers[path].tasks[0].id].path == path && path != other
    ensures Elsewhere(s, Finish(s, path, 0, result, healthy), other)
  {
  }

  lemma DrainElsewhere(s: State, path: string, other: string)
    requires HasTask(s, path, 0) && path != other
    requires forall e :: e in s.workers[path].queue ==> e.id < |s.items| && s.items[e.id].path == path
    ensures Elsewhere(s, DrainNext(s, path, 0), other)
  {
  }

  lemma QueueIsOwn(s: State, path: string)
    requires path in s.workers && WorkerInv(s, path)
    ensures forall e :: e in s.workers[path].queue ==> e.id < |s.items| && s.items[e.id].path == path
  {
    forall e | e in s.workers[path].queue ensures e.id < |s.items| && s.items[e.id].path == path {
      QueuedIsOwed(s, path, e.id);
    }
  }

  lemma ElsewhereTwice(s: State, t: State, u: State, path: string)
    requires Elsewhere(s, t, path) && Elsewhere(t, u, path)
    ensures Elsewhere(s, u, path)
  {
  }

  lemma ResolveElsewhere(s: State, path: string, id: Id, outcome: Outcome, other: string)
    requires id < |s.items| && s.items[id].path == path && path != other
    ensures Elsewhere(s, Resolve(s, id, outcome), other)
    ensures forall i: Id :: i < |s.items| ==> Resolve(s, id, outcome).items[i].path == s.items[i].path
  {
  }

  lemma HandlerElsewhere(s: State, path: string, other: string)
    requires HasTask(s, path, 0) && WorkerInv(s, path) && RunEnabled(s, path, 0, HandlerDone) && path != other
    ensures Elsewhere(s, HandlerDoneNow(s, path, 0), other)
  {
    HandIsOwed(s, path);
    QueueIsOwn(s, path);
    var task := s.workers[path].tasks[0];
    var done := Resolve(s, Grip(task), Completed);
    ResolveElsewhere(s, path, Grip(task), Completed, other);
    if !task.stage.Completing? {
      DrainElsewhere(done, path, other);
      ElsewhereTwice(s, done, DrainNext(done, path, 0), other);
    }
  }

  lemma AnswerElsewhere(s: State, path: string, answer: Option<SyncResult>, now: int, warming: bool, other: string)
    requires HasTask(s, path, 0) && Bounded(s, path) && s.Closing() && path != other
    requires s.items[s.workers[path].tasks[0].id].path == path
    ensures Elsewhere(s, AnswerNow(s, path, 0, answer, now, warming), other)
  {
    ResolveElsewhere(s, path, s.workers[path].tasks[0].id, ShutDown, other);
    assert AnswerNow(s, path, 0, answer, now, warming) == EndTask(Resolve(s, s.workers[path].tasks[0].id, ShutDown), path, 0);
  }

  lemma StartElsewhere(s: State, path: string, other: string)
    requires HasTask(s, path, 0) && Bounded(s, path) && path != other
    requires s.items[s.workers[path].tasks[0].id].path == path
    ensures Elsewhere(s, StartTaskNow(s, path, 0), other)
  {
  }

  lemma CrashElsewhere(s: State, path: string, other: string)
    requires HasTask(s, path, 0) && Bounded(s, path) && path != other
    requires s.items[s.workers[path].tasks[0].id].path == path
    ensures Elsewhere(s, SetStage(Fire(SetReady(s, path, false), s.workers[path].tasks[0].id), path, 0, Completing), other)
  {
  }

  lemma RunElsewhere(s: State, path: string, k: nat, run: RunStep, other: string)
    requires RunEnabled(s, path, k, run) && WorkerInv(s, path) && s.Closing() && path != other
    ensures Elsewhere(s, AfterRun(s, path, k, run), other)
  {
    HandIsOwed(s, path);
    match run {
      case StartTask => StartElsewhere(s, path, other);
      case Answer(answer, now, warming) => AnswerElsewhere(s, path, answer, now, warming, other);
      case RotateDone =>
      case RestartDone(healthy) => FinishElsewhere(s, path, StageOf(s, path, 0).result, healthy, other);
      case Crash => CrashElsewhere(s, path, other);
      case HandlerDone => HandlerElsewhere(s, path, other);
    }
  }

  // Every other step.

  lemma RequestSilent(s: State, step: RequestStep, path: string)
    requires Silent(s, path) && RequestEnabled(s, step) && Bounded(s, path)
    ensures var t := AfterRequest(s, step); Silent(t, path) && NoneHandedOver(s.items, t.items, path)
  {
  }

  lemma ReapSilent(s: State, at: string, step: ReaperStep, path: string)
    requires Silent(s, path) && ReapEnabled(s, at, step)
    ensures var t := AfterReap(s, at, step); Silent(t, path) && NoneHandedOver(s.items, t.items, path)
  {
  }

  lemma DispatchSilent(s: State, at: string, step: DispatchStep, path: string)
    requires Silent(s, path) && DispatchEnabled(s, at, step) && WorkerInv(s, at)
    ensures var t := AfterDispatch(s, at, step); Silent(t, path) && NoneHandedOver(s.items, t.items, path)
  {
  }

  lemma StopSilent(s: State, step: StopStep, path: string)
    requires Silent(s, path) && AllBounded(s) && StopEnabled(s, step)
    ensures var t := AfterStop(s, step); Silent(t, path) && NoneHandedOver(s.items, t.items, path)
  {
    match step {
      case CancelDispatcher(at) => assert Bounded(s, at);
      case _ =>
    }
  }

  /** A crash of the terminal's own run, the one step that can hand over a task that was not past its answer. */
  predicate IsCrash(step: Step, path: string) { step.Run? && step.path == path && step.run == Crash }

  lemma RunSilent(s: State, at: string, k: nat, run: RunStep, path: string)
    requires Inv(s) && Silent(s, path) && RunEnabled(s, at, k, run) && !IsCrash(Run(at, k, run), path)
    ensures Bounded(s, at)
    ensures var t := AfterRun(s, at, k, run); Silent(t, path) && NoneHandedOver(s.items, t.items, path)
  {
    assert WorkerInv(s, at) && WorkerInv(s, path);
    if at == path {
      OwnRunSilent(s, path, k, run);
    } else {
      RunElsewhere(s, at, k, run, path);
      ElsewhereIsSilent(s, AfterRun(s, at, k, run), path);
    }
  }

  lemma StepSilent(s: State, step: Step, path: string)
    requires Inv(s) && Silent(s, path) && Enabled(s, step) && !IsCrash(step, path)
    ensures Silent(Next(s, step), path) && NoneHandedOver(s.items, Next(s, step).items, path)
  {
    match step {
      case Request(request) =>
        assert Bounded(s, path);
        RequestSilent(s, request, path);
      case Reap(at, reap) => ReapSilent(s, at, reap, path);
      case Dispatch(at, dispatch) =>
        assert WorkerInv(s, at);
        DispatchSilent(s, at, dispatch, path);
      case Run(at, k, run) => RunSilent(s, at, k, run, path);
      case Stop(stop) => StopSilent(s, stop, path);
    }
  }

  // Runs.

  predicate NoCrash(steps: seq<Step>, path: string) {
    forall i :: 0 <= i < |steps| ==> !IsCrash(steps[i], path)
  }

  lemma {:induction false} RunStaysSilent(s: State, steps: seq<Step>, path: string)
    requires Inv(s) && Silent(s, path) && Feasible(s, steps) && NoCrash(steps, path)
    ensures NoneHandedOver(s.items, After(s, steps).items, path)
    decreases |steps|
  {
    if steps != [] {
      StepSilent(s, steps[0], path);
      StepKeeps(s, steps[0]);
      RunStaysSilent(Next(s, steps[0]), steps[1..], path);
    }
  }

  /** Some run from here, without a crash on the terminal, hands one of its tasks over. */
  ghost predicate CanHandOverUncrashed(s: State, path: string) {
    exists steps :: Feasible(s, steps) && NoCrash(steps, path) && !NoneHandedOver(s.items, After(s, steps).items, path)
  }

  lemma HandsOverNow(s: State, path: string, step: RunStep, id: Id)
    requires Inv(s) && RunEnabled(s, path, 0, step) && step != Crash
    requires id < |s.items| && s.items[id].path == path
    requires Bounded(s, path)
    requires |AfterRun(s, path, 0, step).items| == |s.items| && AfterRun(s, path, 0, step).items[id].fired > s.items[id].fired
    ensures CanHandOverUncrashed(s, path)
  {
    var steps := [Run(path, 0, step)];
    assert steps[1..] == [];
    assert Feasible(Next(s, steps[0]), steps[1..]);
    assert Feasible(s, steps);
    assert After(s, steps) == Next(s, steps[0]) == AfterRun(s, path, 0, step);
    assert NoCrash(steps, path);
  }

  lemma RestartHandsOver(s: State, path: string)
    requires Inv(s) && HasTask(s, path, 0) && StageOf(s, path, 0).Restarting?
    requires WillHandOver(s.maxRetries, s.items, s.workers[path])
    ensures CanHandOverUncrashed(s, path)
  {
    assert WorkerInv(s, path);
    HandIsOwed(s, path);
    HandsOverNow(s, path, RestartDone(true), s.workers[path].tasks[0].id);
  }

  /** The handler's return in a quarantine hands the next queued task over. */
  lemma DrainFires(s: State, path: string)
    requires HasTask(s, path, 0) && Bounded(s, path) && InQuarantine(s.workers[path]) && s.workers[path].queue != []
    requires s.workers[path].queue[First(s.workers[path].queue)].id != Grip(s.workers[path].tasks[0])
    ensures var id := s.workers[path].queue[First(s.workers[path].queue)].id;
            && id < |s.items| == |HandlerDoneNow(s, path, 0).items|
            && HandlerDoneNow(s, path, 0).items[id].fired == s.items[id].fired + 1
  {
    var w := s.workers[path];
    var done := Resolve(s, Grip(w.tasks[0]), Completed);
    assert HandlerDoneNow(s, path, 0) == DrainNext(done, path, 0);
    assert done.workers[path] == w;
  }

  lemma DrainHandsOver(s: State, path: string)
    requires Inv(s) && HasTask(s, path, 0) && InQuarantine(s.workers[path])
    requires WillHandOver(s.maxRetries, s.items, s.workers[path])
    ensures CanHandOverUncrashed(s, path)
  {
    assert WorkerInv(s, path);
    var queue := s.workers[path].queue;
    var id := queue[First(queue)].id;
    QueuedIsOwed(s, path, id);
    DrainFires(s, path);
    HandsOverNow(s, path, HandlerDone, id);
  }

  lemma RotateHandsOver(s: State, path: string)
    requires Inv(s) && HasTask(s, path, 0) && StageOf(s, path, 0).Rotating?
    requires WillHandOver(s.maxRetries, s.items, s.workers[path])
    ensures CanHandOverUncrashed(s, path)
  {
    assert WorkerInv(s, path);
    var step := Run(path, 0, RotateDone);
    var t := Next(s, step);
    StepKeeps(s, step);
    RestartHandsOver(t, path);
    var steps :| Feasible(t, steps) && NoCrash(steps, path) && !NoneHandedOver(t.items, After(t, steps).items, path);
    var longer := [step] + steps;
    assert longer[1..] == steps;
    assert Feasible(s, longer) && After(s, longer) == After(t, steps);
    assert NoCrash(longer, path);
  }

  /**
   Once the pool is closing, the tasks of a terminal are handed to the result handler no more, exactly if the terminal
   is not past the test of the closing flag with a result still to hand over; crashes aside.
   */
  lemma SilentWithoutCrash(s: State, path: string)
    requires Reachable(s) && s.Closing() && path in s.workers
    ensures CanHandOverUncrashed(s, path) <==> WillHandOver(s.maxRetries, s.items, s.workers[path])
  {
    ReachableInv(s);
    if WillHandOver(s.maxRetries, s.items, s.workers[path]) {
      assert WorkerInv(s, path);
      match s.workers[path].tasks[0].stage {
        case Rotating(_) => RotateHandsOver(s, path);
        case Restarting(_) => RestartHandsOver(s, path);
        case _ => DrainHandsOver(s, path);
      }
    } else {
      forall steps | Feasible(s, steps) && NoCrash(steps, path) ensures NoneHandedOver(s.items, After(s, steps).items, path) {
        RunStaysSilent(s, steps, path);
      }
    }
  }

  // Crashes included.

  /**
   What a terminal can still hand over, whatever happens: a task that has not been handed over yet, or queued tasks of a
   quarantine; or a task its dispatcher holds or may still take, which only a dispatcher that no stop has cancelled can.
   */
  predicate MayHandOver(w: Worker) {
    if w.tasks != [] then
      match w.tasks[0].stage
      case Completing => false
      case Quarantining => w.queue != []
      case Draining(_) => w.queue != []
      case _ => true
    else
      w.dispatcher.Holding? || ((w.dispatcher.AwaitReady? || w.dispatcher.AwaitItem?) && w.queue != [])
  }

  predicate Quiet(s: State, path: string) {
    path in s.workers && s.Closing() && !MayHandOver(s.workers[path])
  }

  lemma QuietIsSilent(s: State, path: string)
    requires Quiet(s, path)
    ensures Silent(s, path)
  {
  }

  lemma QuietMeansNoCrash(s: State, path: string, k: nat)
    requires Quiet(s, path) && WorkerInv(s, path) && HasTask(s, path, k)
    ensures !RunEnabled(s, path, k, Crash)
  {
    assert k == 0;
  }

  lemma OwnRunQuiet(s: State, path: string, k: nat, run: RunStep)
    requires Quiet(s, path) && WorkerInv(s, path) && RunEnabled(s, path, k, run)
    ensures Quiet(AfterRun(s, path, k, run), path)
  {
    assert k == 0 && run == HandlerDone;
    HandlerEnds(s, path);
  }

  lemma OwnDispatchQuiet(s: State, path: string, step: DispatchStep)
    requires Quiet(s, path) && WorkerInv(s, path) && DispatchEnabled(s, path, step)
    ensures Quiet(AfterDispatch(s, path, step), path)
  {
  }

  lemma StopQuiet(s: State, step: StopStep, path: string)
    requires Quiet(s, path) && AllBounded(s) && StopEnabled(s, step) && WorkerInv(s, path)
    ensures Quiet(AfterStop(s, step), path)
  {
    match step {
      case CancelDispatcher(at) => assert Bounded(s, at);
      case _ =>
    }
  }

  lemma StepQuiet(s: State, step: Step, path: string)
    requires Inv(s) && Quiet(s, path) && Enabled(s, step)
    ensures Quiet(Next(s, step), path) && NoneHandedOver(s.items, Next(s, step).items, path)
  {
    assert WorkerInv(s, path);
    QuietIsSilent(s, path);
    if step.Run? && step.path == path {
      QuietMeansNoCrash(s, path, step.k);
    }
    StepSilent(s, step, path);
    match step {
      case Request(_) =>
      case Reap(_, _) =>
      case Dispatch(at, dispatch) => if at == path { OwnDispatchQuiet(s, path, dispatch); }
      case Run(at, k, run) =>
        assert WorkerInv(s, at);
        if at == path { OwnRunQuiet(s, path, k, run); } else { RunElsewhere(s, at, k, run, path); }
      case Stop(stop) => StopQuiet(s, stop, path);
    }
  }

  lemma {:induction false} RunStaysQuiet(s: State, steps: seq<Step>, path: string)
    requires Inv(s) && Quiet(s, path) && Feasible(s, steps)
    ensures NoneHandedOver(s.items, After(s, steps).items, path)
    decreases |steps|
  {
    if steps != [] {
      StepQuiet(s, steps[0], path);
      StepKeeps(s, steps[0]);
      RunStaysQuiet(Next(s, steps[0]), steps[1..], path);
    }
  }

  /** Some run from here hands one of the terminal's tasks over. */
  ghost predicate CanHandOver(s: State, path: string) {
    exists steps :: Feasible(s, steps) && !NoneHandedOver(s.items, After(s, steps).items, path)
  }

  lemma StillHandedOver(a: seq<Item>, b: seq<Item>, c: seq<Item>, path: string)
    requires |a| == |b| && NoneHandedOver(a, b, path) && NoneHandedOver(b, a, path)
    requires !NoneHandedOver(b, c, path)
    ensures !NoneHandedOver(a, c, path)
  {
  }

  lemma FeasibleAfter(s: State, step: Step, steps: seq<Step>)
    requires AllBounded(s) && Enabled(s, step) && Feasible(Next(s, step), steps)
    ensures Feasible(s, [step] + steps) && After(s, [step] + steps) == After(Next(s, step), steps)
  {
    assert ([step] + steps)[1..] == steps;
  }

  /** What can be handed over after a step that hands nothing over can be handed over now. */
  lemma HandsOverAfter(s: State, step: Step, path: string)
    requires Inv(s) && Enabled(s, step) && CanHandOver(Next(s, step), path)
    requires |Next(s, step).items| == |s.items| && NoneHandedOver(s.items, Next(s, step).items, path)
    requires NoneHandedOver(Next(s, step).items, s.items, path)
    ensures CanHandOver(s, path)
  {
    var t := Next(s, step);
    var steps :| Feasible(t, steps) && !NoneHandedOver(t.items, After(t, steps).items, path);
    FeasibleAfter(s, step, steps);
    StillHandedOver(s.items, t.items, After(t, steps).items, path);
  }

  lemma CrashHandsOver(s: State, path: string)
    requires Inv(s) && RunEnabled(s, path, 0, Crash)
    ensures CanHandOver(s, path)
  {
    assert WorkerInv(s, path);
    HandIsOwed(s, path);
    var steps := [Run(path, 0, Crash)];
    assert steps[1..] == [];
    assert Feasible(Next(s, steps[0]), steps[1..]);
    assert Feasible(s, steps) && After(s, steps) == AfterRun(s, path, 0, Crash);
    var id := s.workers[path].tasks[0].id;
    assert After(s, steps).items[id].fired == s.items[id].fired + 1;
  }

  lemma StartsQuietly(s: State, path: string)
    requires HasTask(s, path, 0) && Bounded(s, path)
    ensures var t := StartTaskNow(s, path, 0);
            && |t.items| == |s.items| && NoneHandedOver(s.items, t.items, path) && NoneHandedOver(t.items, s.items, path)
            && HasTask(t, path, 0) && StageOf(t, path, 0).Talking?
  {
  }

  lemma StartHandsOver(s: State, path: string)
    requires Inv(s) && RunEnabled(s, path, 0, StartTask)
    ensures CanHandOver(s, path)
  {
    assert WorkerInv(s, path);
    var step := Run(path, 0, StartTask);
    StepKeeps(s, step);
    StartsQuietly(s, path);
    CrashHandsOver(Next(s, step), path);
    HandsOverAfter(s, step, path);
  }

  lemma HeldHandsOver(s: State, path: string)
    requires Inv(s) && path in s.workers && s.workers[path].dispatcher.Holding? && s.workers[path].ready
    ensures CanHandOver(s, path)
  {
    assert WorkerInv(s, path);
    var step := Dispatch(path, StartItem);
    StepKeeps(s, step);
    StartHandsOver(Next(s, step), path);
    HandsOverAfter(s, step, path);
  }

  lemma TakenHandsOver(s: State, path: string)
    requires Inv(s) && path in s.workers && s.workers[path].dispatcher == AwaitItem && s.workers[path].queue != []
    requires s.workers[path].ready
    ensures CanHandOver(s, path)
  {
    var step := Dispatch(path, TakeItem);
    StepKeeps(s, step);
    HeldHandsOver(Next(s, step), path);
    HandsOverAfter(s, step, path);
  }

  lemma WaitingHandsOver(s: State, path: string)
    requires Inv(s) && path in s.workers && s.workers[path].dispatcher == AwaitReady && s.workers[path].queue != []
    requires s.workers[path].ready
    ensures CanHandOver(s, path)
  {
    var step := Dispatch(path, TakeReady);
    StepKeeps(s, step);
    TakenHandsOver(Next(s, step), path);
    HandsOverAfter(s, step, path);
  }

  /** A dispatcher that is not cancelled yet starts what it holds or takes once its worker is ready. */
  lemma DispatcherHandsOver(s: State, path: string)
    requires Inv(s) && path in s.workers && s.workers[path].tasks == [] && MayHandOver(s.workers[path])
    ensures CanHandOver(s, path)
  {
    var step := Reap(path, MarkReady(true));
    StepKeeps(s, step);
    var t := Next(s, step);
    match s.workers[path].dispatcher {
      case Holding(_) => HeldHandsOver(t, path);
      case AwaitItem => TakenHandsOver(t, path);
      case AwaitReady => WaitingHandsOver(t, path);
    }
    HandsOverAfter(s, step, path);
  }

  /**
   Once the pool is closing, exactly which terminals still hand results over in some run: the documentation promises that
   none does.
   */
  lemma SilentOnceClosing(s: State, path: string)
    requires Reachable(s) && s.Closing() && path in s.workers
    ensures CanHandOver(s, path) <==> MayHandOver(s.workers[path])
  {
    ReachableInv(s);
    assert WorkerInv(s, path);
    var w := s.workers[path];
    if !MayHandOver(w) {
      forall steps | Feasible(s, steps) ensures NoneHandedOver(s.items, After(s, steps).items, path) {
        RunStaysQuiet(s, steps, path);
      }
    } else if w.tasks == [] {
      DispatcherHandsOver(s, path);
    } else {
      match w.tasks[0].stage {
        case Created => StartHandsOver(s, path);
        case Quarantining => DrainHandsOver(s, path);
        case Draining(_) => DrainHandsOver(s, path);
        case _ => CrashHandsOver(s, path);
      }
    }
  }
}
