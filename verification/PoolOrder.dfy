/** In which order the tasks of a terminal start. */
module PoolOrder {
  import opened Protocol
  import opened Pool
  import opened PoolInvariants
  import opened PoolRuns
  import HealthSpec

  /** A step changes a queue in one of four ways, and only by taking does a dispatcher get hold of a task. */
  ghost predicate QueueMoves(s: State, t: State, path: string)
    requires path in s.workers && path in t.workers
  {
    var w, v := s.workers[path], t.workers[path];
    || (v.queue == w.queue && (v.dispatcher.Holding? ==> v.dispatcher == w.dispatcher))
    || (w.queue != [] && v.queue == Without(w.queue, First(w.queue))
        && (v.dispatcher.Holding? ==> v.dispatcher == Holding(w.queue[First(w.queue)].id) || v.dispatcher == w.dispatcher))
    || (exists priority: nat, id: Id :: v.queue == w.queue + [Entry(priority, s.sequence, id)] && v.dispatcher == w.dispatcher)
    || (v.queue == [] && !v.dispatcher.Holding?)
  }

  lemma FinishMoves(s: State, path: string, k: nat, result: SyncResult, healthy: bool, other: string)
    requires HasTask(s, path, k) && s.workers[path].tasks[k].id < |s.items| && other in s.workers
    ensures other in Finish(s, path, k, result, healthy).workers
    ensures QueueMoves(s, Finish(s, path, k, result, healthy), other)
  {
    var t := Finish(s, path, k, result, healthy);
    var id := s.workers[path].tasks[k].id;
    if other == path && ShouldRetry(s.maxRetries, s.items[id], result).0 {
      var x := ShouldRetry(s.maxRetries, s.items[id], result).1;
      assert t.workers[path].queue == s.workers[path].queue + [Entry(x.Priority(), s.sequence, id)];
    }
  }

  lemma RecordedMoves(s: State, path: string, k: nat, result: SyncResult, healthy: bool, health: HealthSpec.Health,
                      other: string)
    requires HasTask(s, path, k) && s.workers[path].tasks[k].id < |s.items| && other in s.workers
    ensures other in Recorded(s, path, k, result, healthy, health).workers
    ensures QueueMoves(s, Recorded(s, path, k, result, healthy, health), other)
  {
    var recorded := Put(s, path, s.workers[path].(health := health));
    if health.state != HealthSpec.Quarantined && !(result.proxyDead && s.registry) && healthy {
      FinishMoves(recorded, path, k, result, true, other);
    }
  }

  lemma AnswerMoves(s: State, path: string, k: nat, answer: Option<SyncResult>, now: int, warming: bool, other: string)
    requires HasTask(s, path, k) && Bounded(s, path) && other in s.workers
    ensures other in AnswerNow(s, path, k, answer, now, warming).workers
    ensures QueueMoves(s, AnswerNow(s, path, k, answer, now, warming), other)
  {
    if !s.Closing() {
      var result := if answer.Some? then answer.value else POOL_FAILURE;
      var w := s.workers[path];
      RecordedMoves(s, path, k, result, answer.Some? && !result.terminalLost,
                    HealthSpec.Record(w.health, now, warming, s.items[w.tasks[k].id].server, result), other);
    }
  }

  lemma DrainMoves(s: State, path: string, k: nat, other: string)
    requires HasTask(s, path, k) && other in s.workers
    requires forall e :: e in s.workers[path].queue ==> e.id < |s.items|
    ensures other in DrainNext(s, path, k).workers
    ensures QueueMoves(s, DrainNext(s, path, k), other)
  {
  }

  lemma HandlerMoves(s: State, path: string, k: nat, other: string)
    requires HasTask(s, path, k) && Bounded(s, path) && other in s.workers
    ensures other in HandlerDoneNow(s, path, k).workers
    ensures QueueMoves(s, HandlerDoneNow(s, path, k), other)
  {
    match s.workers[path].tasks[k].stage {
      case Quarantining => DrainMoves(Resolve(s, s.workers[path].tasks[k].id, Completed), path, k, other);
      case Draining(queued) => DrainMoves(Resolve(s, queued, Completed), path, k, other);
      case _ =>
    }
  }

  lemma RunMoves(s: State, path: string, k: nat, step: RunStep, other: string)
    requires RunEnabled(s, path, k, step) && Bounded(s, path) && other in s.workers
    ensures other in AfterRun(s, path, k, step).workers
    ensures QueueMoves(s, AfterRun(s, path, k, step), other)
  {
    match step {
      case Answer(answer, now, warming) => AnswerMoves(s, path, k, answer, now, warming, other);
      case RestartDone(healthy) => FinishMoves(s, path, k, StageOf(s, path, k).result, healthy, other);
      case HandlerDone => HandlerMoves(s, path, k, other);
      case _ =>
    }
  }

  lemma RequestMoves(s: State, step: RequestStep, other: string)
    requires RequestEnabled(s, step) && other in s.workers
    ensures other in AfterRequest(s, step).workers
    ensures QueueMoves(s, AfterRequest(s, step), other)
  {
  }

  lemma StopMoves(s: State, step: StopStep, other: string)
    requires AllBounded(s) && StopEnabled(s, step) && other in s.workers && Inv(s)
    ensures other in AfterStop(s, step).workers
    ensures QueueMoves(s, AfterStop(s, step), other)
  {
    assert WorkerInv(s, other);
    match step {
      case CancelDispatcher(path) => assert Bounded(s, path);
      case _ =>
    }
  }

  lemma ReapMoves(s: State, path: string, step: ReaperStep, other: string)
    requires ReapEnabled(s, path, step) && other in s.workers
    ensures other in AfterReap(s, path, step).workers
    ensures QueueMoves(s, AfterReap(s, path, step), other)
  {
  }

  lemma DispatcherMoves(s: State, path: string, step: DispatchStep, other: string)
    requires DispatchEnabled(s, path, step) && Bounded(s, path) && other in s.workers
    ensures other in AfterDispatch(s, path, step).workers
    ensures QueueMoves(s, AfterDispatch(s, path, step), other)
  {
  }

  lemma StepMoves(s: State, step: Step, path: string)
    requires Inv(s) && Enabled(s, step) && path in s.workers
    ensures path in Next(s, step).workers
    ensures QueueMoves(s, Next(s, step), path)
  {
    match step {
      case Request(request) => RequestMoves(s, request, path);
      case Reap(other, reap) => ReapMoves(s, other, reap, path);
      case Dispatch(other, dispatch) => DispatcherMoves(s, other, dispatch, path);
      case Run(other, k, run) => RunMoves(s, other, k, run, path);
      case Stop(stop) => StopMoves(s, stop, path);
    }
  }

  // Kinds never change.

  ghost predicate KindsKept(s: State, t: State) {
    |s.items| <= |t.items| && forall id: Id :: id < |s.items| ==> t.items[id].kind == s.items[id].kind
  }

  lemma StepKeepsKinds(s: State, step: Step)
    requires AllBounded(s) && Enabled(s, step)
    ensures KindsKept(s, Next(s, step))
  {
    match step {
      case Run(path, k, run) => RunKeepsKinds(s, path, k, run);
      case Stop(stop) => StopKeepsKinds(s, stop);
      case _ =>
    }
  }

  lemma StopKeepsKinds(s: State, step: StopStep)
    requires AllBounded(s) && StopEnabled(s, step)
    ensures KindsKept(s, AfterStop(s, step))
  {
    match step {
      case CancelDispatcher(path) =>
        assert Bounded(s, path);
        if s.workers[path].dispatcher.Holding? {
          ResolveKeepsKinds(Put(s, path, s.workers[path].(dispatcher := Ended)), s.workers[path].dispatcher.item, ShutDown);
        }
      case _ =>
    }
  }

  lemma ResolveKeepsKinds(s: State, id: Id, outcome: Outcome)
    requires id < |s.items|
    ensures KindsKept(s, Resolve(s, id, outcome))
  {
  }

  lemma DrainKeepsKinds(s: State, path: string, k: nat)
    requires HasTask(s, path, k) && forall e :: e in s.workers[path].queue ==> e.id < |s.items|
    ensures KindsKept(s, DrainNext(s, path, k))
  {
  }

  lemma FinishKeepsKinds(s: State, path: string, k: nat, result: SyncResult, healthy: bool)
    requires HasTask(s, path, k) && s.workers[path].tasks[k].id < |s.items|
    ensures KindsKept(s, Finish(s, path, k, result, healthy))
  {
  }

  lemma AnswerKeepsKinds(s: State, path: string, k: nat, answer: Option<SyncResult>, now: int, warming: bool)
    requires HasTask(s, path, k) && Bounded(s, path)
    ensures KindsKept(s, AnswerNow(s, path, k, answer, now, warming))
  {
    if !s.Closing() {
      var result := if answer.Some? then answer.value else POOL_FAILURE;
      var w := s.workers[path];
      RecordedKeepsKinds(s, path, k, result, answer.Some? && !result.terminalLost,
                         HealthSpec.Record(w.health, now, warming, s.items[w.tasks[k].id].server, result));
    }
  }

  lemma RecordedKeepsKinds(s: State, path: string, k: nat, result: SyncResult, healthy: bool, health: HealthSpec.Health)
    requires HasTask(s, path, k) && s.workers[path].tasks[k].id < |s.items|
    ensures KindsKept(s, Recorded(s, path, k, result, healthy, health))
  {
    FinishKeepsKinds(Put(s, path, s.workers[path].(health := health)), path, k, result, true);
  }

  lemma RunKeepsKinds(s: State, path: string, k: nat, step: RunStep)
    requires RunEnabled(s, path, k, step) && Bounded(s, path)
    ensures KindsKept(s, AfterRun(s, path, k, step))
  {
    match step {
      case Answer(answer, now, warming) => AnswerKeepsKinds(s, path, k, answer, now, warming);
      case RestartDone(healthy) => FinishKeepsKinds(s, path, k, StageOf(s, path, k).result, healthy);
      case HandlerDone => HandlerKeepsKinds(s, path, k);
      case _ =>
    }
  }

  lemma HandlerKeepsKinds(s: State, path: string, k: nat)
    requires HasTask(s, path, k) && Bounded(s, path)
    ensures KindsKept(s, HandlerDoneNow(s, path, k))
  {
    var task := s.workers[path].tasks[k];
    var id := if task.stage.Draining? then task.stage.queued else task.id;
    ResolveKeepsKinds(s, id, Completed);
    if task.stage.Quarantining? || task.stage.Draining? {
      DrainKeepsKinds(Resolve(s, id, Completed), path, k);
    }
  }

  // Overtaking.

  /** The dispatcher of a terminal holds a scheduled task. */
  predicate HoldsScheduled(s: State, path: string)
    requires path in s.workers
  {
    var d := s.workers[path].dispatcher;
    d.Holding? && d.item < |s.items| && s.items[d.item].kind == Scheduled
  }

  predicate StartsScheduled(s: State, step: Step, path: string)
    requires path in s.workers
  {
    step == Dispatch(path, StartItem) && HoldsScheduled(s, path)
  }

  /** How many scheduled tasks start on a terminal during a run. */
  ghost function ScheduledStarts(s: State, steps: seq<Step>, path: string): nat
    requires path in s.workers && Inv(s) && Feasible(s, steps)
    decreases |steps|
  {
    if steps == [] then 0
    else
      StepKeeps(s, steps[0]);
      StepMoves(s, steps[0], path);
      (if StartsScheduled(s, steps[0], path) then 1 else 0)
      + ScheduledStarts(Next(s, steps[0]), steps[1..], path)
  }

  /** The entry waits in the queue all through a run. */
  ghost predicate WaitsThroughout(s: State, steps: seq<Step>, path: string, e: Entry)
    requires Feasible(s, steps)
    decreases |steps|
  {
    && path in s.workers && e in s.workers[path].queue
    && (steps != [] ==> WaitsThroughout(Next(s, steps[0]), steps[1..], path, e))
  }

  /** While a hard task waits, only what its dispatcher already held can be scheduled work. */
  lemma NoScheduledTaken(s: State, step: Step, path: string, e: Entry)
    requires Inv(s) && Enabled(s, step) && path in s.workers
    requires e in s.workers[path].queue && e.priority == PRIORITY_HARD
    requires path in Next(s, step).workers && e in Next(s, step).workers[path].queue
    ensures HoldsScheduled(Next(s, step), path) ==> HoldsScheduled(s, path)
    ensures StartsScheduled(s, step, path) ==> !HoldsScheduled(Next(s, step), path)
  {
    StepMoves(s, step, path);
    StepKeepsKinds(s, step);
    assert Bounded(s, path);
    FirstIsHard(s, path, e);
  }

  lemma FirstIsHard(s: State, path: string, e: Entry)
    requires Inv(s) && path in s.workers && e in s.workers[path].queue && e.priority == PRIORITY_HARD
    ensures var queue := s.workers[path].queue;
            queue[First(queue)].id < |s.items| && s.items[queue[First(queue)].id].kind != Scheduled
  {
    assert WorkerInv(s, path);
    var queue := s.workers[path].queue;
    var j :| 0 <= j < |queue| && queue[j] == e;
    assert queue[First(queue)].priority == PRIORITY_HARD;
  }

  /** Bounded overtaking: while a hard or initial task waits, at most one scheduled task starts, the one already held. */
  lemma {:induction false} BoundedOvertaking(s: State, steps: seq<Step>, path: string, e: Entry)
    requires path in s.workers && Inv(s) && Feasible(s, steps)
    requires WaitsThroughout(s, steps, path, e) && e.priority == PRIORITY_HARD
    ensures ScheduledStarts(s, steps, path) <= if HoldsScheduled(s, path) then 1 else 0
    decreases |steps|
  {
    if steps != [] {
      var t := Next(s, steps[0]);
      StepKeeps(s, steps[0]);
      StepMoves(s, steps[0], path);
      assert e in t.workers[path].queue;
      NoScheduledTaken(s, steps[0], path, e);
      BoundedOvertaking(t, steps[1..], path, e);
    }
  }

  // First in, first out.

  lemma StepKeepsOrder(s: State, step: Step, path: string, e: Entry, f: Entry)
    requires Inv(s) && Enabled(s, step) && path in s.workers && path in Next(s, step).workers
    requires e in s.workers[path].queue && f in s.workers[path].queue && Precedes(e, f)
    requires e in Next(s, step).workers[path].queue
    ensures f in Next(s, step).workers[path].queue
  {
    StepMoves(s, step, path);
    var queue := s.workers[path].queue;
    var later := Next(s, step).workers[path].queue;
    if later == Without(queue, First(queue)) {
      var i := First(queue);
      var j :| 0 <= j < |queue| && queue[j] == f;
      var k :| 0 <= k < |queue| && queue[k] == e;
      assert j != i;
      assert f in queue[..i] || f in queue[i + 1..] by {
        if j < i { assert queue[..i][j] == f; } else { assert queue[i + 1..][j - i - 1] == f; }
      }
    }
  }

  /** An entry that has left a queue never comes back: a retry gets a new place at the end. */
  lemma {:induction false} LeftForGood(s: State, steps: seq<Step>, path: string, e: Entry)
    requires path in s.workers && Inv(s) && Feasible(s, steps)
    requires e !in s.workers[path].queue && e.sequence < s.sequence
    ensures path in After(s, steps).workers && e !in After(s, steps).workers[path].queue
    decreases |steps|
  {
    if steps != [] {
      StepKeeps(s, steps[0]);
      StepMoves(s, steps[0], path);
      SequenceGrows(s, steps[0]);
      LeftForGood(Next(s, steps[0]), steps[1..], path, e);
    }
  }

  lemma SequenceGrows(s: State, step: Step)
    requires AllBounded(s) && Enabled(s, step)
    ensures s.sequence <= Next(s, step).sequence
  {
    match step {
      case Run(path, k, run) => RunSequenceGrows(s, path, k, run);
      case _ =>
    }
  }

  lemma RunSequenceGrows(s: State, path: string, k: nat, step: RunStep)
    requires RunEnabled(s, path, k, step) && Bounded(s, path)
    ensures s.sequence <= AfterRun(s, path, k, step).sequence
  {
  }

  /** Tasks of equal priority leave in the order they came, and hard ones before scheduled ones. */
  lemma {:induction false} LeavesInOrder(s: State, steps: seq<Step>, path: string, e: Entry, f: Entry)
    requires path in s.workers && Inv(s) && Feasible(s, steps)
    requires e in s.workers[path].queue && f in s.workers[path].queue
    requires e.priority < f.priority || (e.priority == f.priority && e.sequence < f.sequence)
    ensures path in After(s, steps).workers
    ensures e in After(s, steps).workers[path].queue ==> f in After(s, steps).workers[path].queue
    decreases |steps|
  {
    if steps != [] {
      var t := Next(s, steps[0]);
      StepKeeps(s, steps[0]);
      StepMoves(s, steps[0], path);
      if e in t.workers[path].queue {
        StepKeepsOrder(s, steps[0], path, e, f);
        LeavesInOrder(t, steps[1..], path, e, f);
      } else {
        SequenceGrows(s, steps[0]);
        assert WorkerInv(s, path);
        LeftForGood(t, steps[1..], path, e);
      }
    }
  }

  /** A sync should start before another of its terminal: it is not scheduled work and the other is, or it came first. */
  predicate ComesFirst(s: State, path: string, i: nat, j: nat)
    requires path in s.workers && Bounded(s, path) && i < |s.workers[path].queue| && j < |s.workers[path].queue|
  {
    var a, b := s.items[s.workers[path].queue[i].id].kind, s.items[s.workers[path].queue[j].id].kind;
    (a != Scheduled && b == Scheduled) || ((a == Scheduled <==> b == Scheduled) && i < j)
  }

  /** And it leaves the queue no later, whatever happens. */
  lemma KindsLeaveInOrder(s: State, steps: seq<Step>, path: string, i: nat, j: nat)
    requires Reachable(s) && path in s.workers && Feasible(s, steps) && Bounded(s, path)
    requires i < |s.workers[path].queue| && j < |s.workers[path].queue| && ComesFirst(s, path, i, j)
    ensures path in After(s, steps).workers
    ensures s.workers[path].queue[j] !in After(s, steps).workers[path].queue ==>
              s.workers[path].queue[i] !in After(s, steps).workers[path].queue
  {
    ReachableInv(s);
    assert WorkerInv(s, path);
    LeavesInOrder(s, steps, path, s.workers[path].queue[i], s.workers[path].queue[j]);
  }

  /** Both orders hold from any state a pool can reach. */
  lemma ReachableOrder(s: State, steps: seq<Step>, path: string, e: Entry, f: Entry)
    requires Reachable(s) && path in s.workers && Feasible(s, steps)
    requires e in s.workers[path].queue
    ensures Inv(s)
    ensures e.priority == PRIORITY_HARD && WaitsThroughout(s, steps, path, e) ==> ScheduledStarts(s, steps, path) <= 1
    ensures e.priority == PRIORITY_HARD && WaitsThroughout(s, steps, path, e) && !HoldsScheduled(s, path) ==>
              ScheduledStarts(s, steps, path) == 0
    ensures f in s.workers[path].queue && Precedes(e, f) ==>
              && path in After(s, steps).workers
              && (f !in After(s, steps).workers[path].queue ==> e !in After(s, steps).workers[path].queue)
  {
    ReachableInv(s);
    if e.priority == PRIORITY_HARD && WaitsThroughout(s, steps, path, e) {
      BoundedOvertaking(s, steps, path, e);
    }
    if f in s.workers[path].queue && Precedes(e, f) {
      LeavesInOrder(s, steps, path, e, f);
    }
  }
}
