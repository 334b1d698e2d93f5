/** What one step of the pool promises whoever made it. */
module PoolPromises {
  import opened Protocol
  import opened Pool
  import opened PoolInvariants
  import opened PoolRunSteps
  import opened PoolAnswers
  import opened PoolRetries
  import opened PoolRuns
  import opened PoolTheorems
  import HealthSpec

  /** The sync is open and in exactly one place of its terminal. */
  ghost predicate StillOwed(s: State, path: string, id: Id) {
    && path in s.workers && id < |s.items|
    && s.items[id].path == path && s.items[id].outcome == Pending
    && PlacesAt(s.workers[path], id) == 1
  }

  /** The sync has its answer, and no terminal has it any more. */
  ghost predicate Settled(s: State, id: Id, outcome: Outcome) {
    && id < |s.items| && s.items[id].outcome == outcome != Pending
    && forall path :: path in s.workers ==> PlacesAt(s.workers[path], id) == 0
  }

  lemma OpenIsOwed(s: State, id: Id)
    requires Reachable(s) && id < |s.items| && s.items[id].outcome == Pending
    ensures StillOwed(s, s.items[id].path, id)
  {
    ReachableInv(s);
    assert ItemKept(s, id);
    EachTaskInOnePlace(s, id, s.items[id].path);
  }

  lemma AnsweredIsSettled(s: State, id: Id)
    requires Reachable(s) && id < |s.items| && s.items[id].outcome != Pending
    ensures Settled(s, id, s.items[id].outcome)
  {
    forall path | path in s.workers ensures PlacesAt(s.workers[path], id) == 0 {
      EachTaskInOnePlace(s, id, path);
    }
  }

  /** A deduplicated request is told the open sync of its account, and goes on only if there is none. */
  lemma RequestPromise(s: State, account: string)
    requires Reachable(s)
    ensures account in s.pending ==>
              var id := s.pending[account];
              id < |s.items| && s.items[id].account == account && s.items[id].Unresolved()
    ensures account !in s.pending ==> forall id: Id :: OpenDedupe(s, id) ==> s.items[id].account != account
  {
    DedupeIsExact(s);
  }

  /** A submission is refused at once, or its sync is owed on the terminal it was made for, behind all others there. */
  lemma SubmitPromise(s: State, path: string, server: string)
    requires Reachable(s) && s.lock.Held? && path in s.workers
    ensures var t, id := SubmitNow(s, path, server), |s.items|;
            && |t.items| == id + 1 && t.items[..id] == s.items && t.lock == Free
            && t.items[id].(outcome := Pending)
               == Item(s.lock.account, s.lock.kind, server, path, s.lock.dedupe, 0, 0, 0, 0, 0, Pending)
            && if !s.Closing() && s.workers[path].health.Usable() then
                 && StillOwed(t, path, id) && IsLast(t.workers[path].queue, id)
                 && t.pending == s.pending + if s.lock.account in s.pending then map[] else map[s.lock.account := id]
               else
                 Settled(t, id, Refused) && t.workers == s.workers && t.pending == s.pending
  {
    var step := Step.Request(Submit(path, server));
    ReachableInv(s);
    assert WorkerInv(s, path);
    ReachableOn(s, step);
    var t, id := Next(s, step), |s.items|;
    SubmitOutcome(s, path, server);
    if t.items[id].outcome == Pending {
      OpenIsOwed(t, id);
      LastInQueue(s.workers[path].queue, t.workers[path].queue, s.sequence, id);
    } else {
      AnsweredIsSettled(t, id);
    }
  }

  lemma SubmitOutcome(s: State, path: string, server: string)
    requires s.lock.Held? && path in s.workers
    ensures var t, id := SubmitNow(s, path, server), |s.items|;
            var open := !s.Closing() && s.workers[path].health.Usable();
            && |t.items| == id + 1 && t.items[..id] == s.items && t.lock == Free && path in t.workers
            && t.items[id] == Item(s.lock.account, s.lock.kind, server, path, s.lock.dedupe, 0, 0, 0, 0, 0,
                                   if open then Pending else Refused)
            && t.pending == s.pending + (if open && s.lock.account !in s.pending then map[s.lock.account := id] else map[])
            && if open then
                 t.workers[path].queue == s.workers[path].queue + [Entry(t.items[id].Priority(), s.sequence, id)]
               else
                 t.workers == s.workers
  {
  }

  /** No entry of the queue precedes this sync's. */
  predicate IsLeast(queue: seq<Entry>, id: Id) {
    exists e | e in queue :: e.id == id
      && forall f | f in queue :: e.priority < f.priority || (e.priority == f.priority && e.sequence <= f.sequence)
  }

  lemma FirstIsLeast(items: seq<Item>, queue: seq<Entry>, sequence: nat)
    requires queue != [] && OrderedQueue(items, queue, sequence)
    ensures IsLeast(queue, queue[First(queue)].id)
  {
    var i := First(queue);
    forall f | f in queue
      ensures queue[i].priority < f.priority || (queue[i].priority == f.priority && queue[i].sequence <= f.sequence)
    {
      var j :| 0 <= j < |queue| && queue[j] == f;
    }
  }

  /** The dispatcher gets an owed sync that no other in the queue should have preceded. */
  lemma TakePromise(s: State, path: string)
    requires Reachable(s) && DispatchEnabled(s, path, TakeItem)
    ensures Take(s.workers[path]).dispatcher.Holding?
    ensures var t := Put(s, path, Take(s.workers[path]));
            var id := t.workers[path].dispatcher.item;
            && StillOwed(t, path, id)
            && IsLeast(s.workers[path].queue, id)
  {
    ReachableInv(s);
    assert WorkerInv(s, path);
    var step := Dispatch(path, TakeItem);
    ReachableOn(s, step);
    var t := Next(s, step);
    ReachableInv(t);
    assert WorkerInv(t, path);
    HandIsOwed(t, path);
    OpenIsOwed(t, t.workers[path].dispatcher.item);
    FirstIsLeast(s.items, s.workers[path].queue, s.sequence);
  }

  /** The held sync is the only one that runs. */
  lemma StartPromise(s: State, path: string)
    requires Reachable(s) && DispatchEnabled(s, path, StartItem)
    ensures s.workers[path].dispatcher.item < |s.items|
    ensures var id := s.workers[path].dispatcher.item;
            var t := Put(s, path, Launch(s.workers[path], s.items));
            && StillOwed(t, path, id) && t.workers[path].tasks == [Task(id, Created)]
            && s.workers[path].ready && s.workers[path].tasks == []
  {
    ReachableInv(s);
    assert WorkerInv(s, path);
    HandIsOwed(s, path);
    var step := Dispatch(path, StartItem);
    ReachableOn(s, step);
    OpenIsOwed(Next(s, step), s.workers[path].dispatcher.item);
  }

  /** The one task that runs on a terminal is owed there. */
  lemma RunningTask(s: State, path: string, k: nat)
    requires Reachable(s) && HasTask(s, path, k)
    ensures Inv(s) && WorkerInv(s, path)
    ensures k == 0 && |s.workers[path].tasks| == 1
    ensures Owed(s.items, Grip(s.workers[path].tasks[0]), path)
    ensures s.workers[path].tasks[0].id < |s.items|
  {
    ReachableInv(s);
    assert WorkerInv(s, path);
    HandIsOwed(s, path);
  }

  /** A dispatcher goes on once nothing runs on its terminal. */
  lemma ResumePromise(s: State, path: string)
    requires Reachable(s) && DispatchEnabled(s, path, ResumeLoop)
    ensures s.workers[path].tasks == []
  {
    ReachableInv(s);
    assert WorkerInv(s, path);
  }

  /** A run begins within its budget. */
  lemma RunPromise(s: State, path: string, k: nat)
    requires Reachable(s) && RunEnabled(s, path, k, StartTask)
    ensures Bounded(s, path)
    ensures var id := s.workers[path].tasks[k].id;
            var t := StartTaskNow(s, path, k);
            && StillOwed(t, path, id) && t.workers[path].tasks == [Task(id, Talking)]
            && t.items[id].runs == s.items[id].runs + 1 && t.items[id].attempts == s.items[id].attempts + 1
            && t.items[id].runs <= (if t.items[id].kind == Initial || t.maxRetries < 0 then 0 else t.maxRetries) + 3
  {
    RunningTask(s, path, k);
    var step := Run(path, k, StartTask);
    ReachableOn(s, step);
    var t, id := Next(s, step), s.workers[path].tasks[k].id;
    OpenIsOwed(t, id);
    RunsAreBounded(t, id);
  }

  /**
   An answer that comes while the pool serves leaves its sync owed. The board records it; it is handed over if that put the
   terminal into quarantine, and goes on by its own fields otherwise. One that comes later settles the sync, and its
   result reaches nobody.
   */
  lemma AnswerPromise(s: State, path: string, k: nat, answer: Option<SyncResult>, now: int, warming: bool)
    requires Reachable(s) && RunEnabled(s, path, k, Answer(answer, now, warming))
    ensures Bounded(s, path)
    ensures var id := s.workers[path].tasks[k].id;
            var t := AnswerNow(s, path, k, answer, now, warming);
            && id < |s.items|
            && (s.Closing() ==> Settled(t, id, ShutDown) && t.items[id].fired == 0)
            && (!s.Closing() ==> StillOwed(t, path, id) && Heard(s, t, path, id, answer, now, warming))
  {
    RunningTask(s, path, k);
    RunningIsOwed(s, path, k);
    var step := Run(path, k, Answer(answer, now, warming));
    ReachableOn(s, step);
    var t, id := Next(s, step), s.workers[path].tasks[k].id;
    if s.Closing() {
      assert t == EndTask(Resolve(s, id, ShutDown), path, k);
      AnsweredIsSettled(t, id);
      HandlerOncePerTask(t, id);
    } else {
      ServedAnswer(s, path, answer, now, warming);
      AnswerKeepsItem(s, path, answer, now, warming);
      OpenIsOwed(t, id);
    }
  }

  /** What an answer does to a serving pool's terminal and to its sync. */
  predicate Heard(s: State, t: State, path: string, id: Id, answer: Option<SyncResult>, now: int, warming: bool)
    requires path in s.workers && id < |s.items|
  {
    var result := if answer.Some? then answer.value else NO_ANSWER;
    && path in t.workers && id < |t.items|
    && t.workers[path].health == HealthSpec.Record(s.workers[path].health, now, warming, s.items[id].server, result)
    && if t.workers[path].health.state == HealthSpec.Quarantined then
         && t.workers[path].tasks == [Task(id, Quarantining)] && !t.workers[path].ready
         && t.items[id] == s.items[id].(fired := 1)
       else
         GoesOn(t, path, id, s.items[id], answer)
  }

  lemma ServedAnswer(s: State, path: string, answer: Option<SyncResult>, now: int, warming: bool)
    requires HasTask(s, path, 0) && |s.workers[path].tasks| == 1 && Bounded(s, path) && !s.Closing()
    requires s.items[s.workers[path].tasks[0].id].fired == 0
    requires OrderedQueue(s.items, s.workers[path].queue, s.sequence)
    ensures var id, t := s.workers[path].tasks[0].id, AnswerNow(s, path, 0, answer, now, warming);
            Heard(s, t, path, id, answer, now, warming)
  {
    var id, result := s.workers[path].tasks[0].id, if answer.Some? then answer.value else NO_ANSWER;
    var health := HealthSpec.Record(s.workers[path].health, now, warming, s.items[id].server, result);
    assert result == if answer.Some? then answer.value else POOL_FAILURE;
    if health.state == HealthSpec.Quarantined {
      QuarantineAnswer(s, path, result, answer.Some? && !result.terminalLost, health);
    } else {
      RecordedGoesOn(s, path, answer, health);
    }
  }

  lemma QuarantineAnswer(s: State, path: string, result: SyncResult, healthy: bool, health: HealthSpec.Health)
    requires HasTask(s, path, 0) && |s.workers[path].tasks| == 1 && s.workers[path].tasks[0].id < |s.items|
    requires health.state == HealthSpec.Quarantined
    ensures var id, t := s.workers[path].tasks[0].id, Recorded(s, path, 0, result, healthy, health);
            && path in t.workers && t.workers[path].tasks == [Task(id, Quarantining)] && !t.workers[path].ready
            && t.workers[path].health == health
            && t.items == s.items[id := s.items[id].(fired := s.items[id].fired + 1)]
  {
  }

  lemma RecordedKeepsItem(s: State, path: string, result: SyncResult, healthy: bool, health: HealthSpec.Health)
    requires HasTask(s, path, 0) && s.workers[path].tasks[0].id < |s.items|
    ensures var id, t := s.workers[path].tasks[0].id, Recorded(s, path, 0, result, healthy, health);
            && |t.items| == |s.items|
            && t.items[id].path == s.items[id].path && t.items[id].outcome == s.items[id].outcome
  {
  }

  lemma AnswerKeepsItem(s: State, path: string, answer: Option<SyncResult>, now: int, warming: bool)
    requires HasTask(s, path, 0) && Bounded(s, path) && !s.Closing()
    ensures var id, t := s.workers[path].tasks[0].id, AnswerNow(s, path, 0, answer, now, warming);
            && |t.items| == |s.items|
            && t.items[id].path == s.items[id].path && t.items[id].outcome == s.items[id].outcome
  {
    var id, result := s.workers[path].tasks[0].id, if answer.Some? then answer.value else POOL_FAILURE;
    var health := HealthSpec.Record(s.workers[path].health, now, warming, s.items[id].server, result);
    RecordedKeepsItem(s, path, result, answer.Some? && !result.terminalLost, health);
  }

  /** A run that ends puts its sync behind all others of its terminal or hands it over, as the fields of its result say. */
  lemma FinishPromise(s: State, path: string, k: nat, healthy: bool)
    requires Reachable(s) && RunEnabled(s, path, k, RestartDone(healthy))
    ensures Bounded(s, path)
    ensures var id, result := s.workers[path].tasks[k].id, StageOf(s, path, k).result;
            var t := Finish(s, path, k, result, healthy);
            StillOwed(t, path, id) && RunEnded(t, path, id, s.items[id], result) && t.workers[path].ready == healthy
  {
    RunningTask(s, path, k);
    RunningIsOwed(s, path, k);
    var step := Run(path, k, RestartDone(healthy));
    ReachableOn(s, step);
    FinishEnds(s, path, StageOf(s, path, k).result, healthy);
    OpenIsOwed(Next(s, step), s.workers[path].tasks[k].id);
  }

  /** A crash of a run still hands a failure over, and takes the worker out of use. */
  lemma CrashPromise(s: State, path: string, k: nat)
    requires Reachable(s) && RunEnabled(s, path, k, Crash)
    ensures Bounded(s, path)
    ensures var id := s.workers[path].tasks[k].id;
            var t := AfterRun(s, path, k, Crash);
            && StillOwed(t, path, id) && t.items[id].fired == 1 && !t.workers[path].ready
            && t.workers[path].tasks == [Task(id, Completing)]
  {
    RunningTask(s, path, k);
    RunningIsOwed(s, path, k);
    var step := Run(path, k, Crash);
    ReachableOn(s, step);
    OpenIsOwed(Next(s, step), s.workers[path].tasks[k].id);
  }

  /** A quarantine goes on with the sync that no other in its queue preceded, and ends with nothing left to count. */
  ghost predicate DrainsOn(s: State, t: State, path: string) {
    && path in s.workers && path in t.workers
    && var queue, tasks := s.workers[path].queue, t.workers[path].tasks;
    if queue == [] then tasks == [] && t.workers[path].hardQueued == 0
    else
      && |tasks| == 1 && tasks[0].stage.Draining? && IsLeast(queue, tasks[0].stage.queued)
      && tasks[0].stage.queued < |t.items| && t.items[tasks[0].stage.queued].fired == 1
      && StillOwed(t, path, tasks[0].stage.queued)
  }

  /**
   Once the handler is through with a result its sync is complete, and it was handed over once; in a quarantine the next
   queued sync is handed over.
   */
  lemma HandlerPromise(s: State, path: string, k: nat)
    requires Reachable(s) && RunEnabled(s, path, k, HandlerDone)
    ensures Bounded(s, path)
    ensures var id := Grip(s.workers[path].tasks[k]);
            var t := HandlerDoneNow(s, path, k);
            && Settled(t, id, Completed) && t.items[id].fired == 1
            && if StageOf(s, path, k).Completing? then t.workers[path].tasks == [] else DrainsOn(s, t, path)
  {
    RunningTask(s, path, k);
    var step := Run(path, k, HandlerDone);
    ReachableOn(s, step);
    var t, id := Next(s, step), Grip(s.workers[path].tasks[k]);
    HandlerOutcome(s, path);
    AnsweredIsSettled(t, id);
    HandlerOncePerTask(t, id);
    if !StageOf(s, path, k).Completing? && s.workers[path].queue != [] {
      DrainPromise(s, t, path);
    }
  }

  lemma DrainPromise(s: State, t: State, path: string)
    requires Reachable(t) && path in s.workers && WorkerInv(s, path) && s.workers[path].queue != []
    requires path in t.workers && |t.workers[path].tasks| == 1 && |t.items| == |s.items|
    requires t.workers[path].tasks[0].stage == Draining(s.workers[path].queue[First(s.workers[path].queue)].id)
    ensures DrainsOn(s, t, path)
  {
    FirstIsLeast(s.items, s.workers[path].queue, s.sequence);
    RunningTask(t, path, 0);
    var next := t.workers[path].tasks[0].stage.queued;
    OpenIsOwed(t, next);
    assert Firing(t.workers[path], next) && Owed(t.items, next, path);
  }

  lemma DrainOutcome(s: State, path: string)
    requires HasTask(s, path, 0) && |s.workers[path].tasks| == 1
    requires forall e :: e in s.workers[path].queue ==> e.id < |s.items|
    ensures var t := DrainNext(s, path, 0);
            && |t.items| == |s.items| && path in t.workers
            && (forall id: Id :: id < |s.items| ==> t.items[id].outcome == s.items[id].outcome)
            && if s.workers[path].queue == [] then t.workers[path].tasks == [] && t.workers[path].hardQueued == 0
               else
                 && |t.workers[path].tasks| == 1
                 && t.workers[path].tasks[0].stage == Draining(s.workers[path].queue[First(s.workers[path].queue)].id)
  {
  }

  lemma HandlerOutcome(s: State, path: string)
    requires HasTask(s, path, 0) && |s.workers[path].tasks| == 1 && Bounded(s, path)
    requires Owed(s.items, Grip(s.workers[path].tasks[0]), path)
    requires RunEnabled(s, path, 0, HandlerDone)
    ensures var id := Grip(s.workers[path].tasks[0]);
            var t := HandlerDoneNow(s, path, 0);
            && |t.items| == |s.items| && t.items[id].outcome == Completed && path in t.workers
            && if StageOf(s, path, 0).Completing? then t.workers[path].tasks == []
               else if s.workers[path].queue == [] then t.workers[path].tasks == [] && t.workers[path].hardQueued == 0
               else
                 && |t.workers[path].tasks| == 1
                 && t.workers[path].tasks[0].stage == Draining(s.workers[path].queue[First(s.workers[path].queue)].id)
  {
    var task := s.workers[path].tasks[0];
    if !task.stage.Completing? {
      DrainOutcome(Resolve(s, Grip(task), Completed), path);
    }
  }

  /** A cancelled dispatcher answers the sync in its hand, whose result nobody gets. */
  lemma CancelPromise(s: State, path: string)
    requires Reachable(s) && StopEnabled(s, CancelDispatcher(path))
    ensures Bounded(s, path)
    ensures var t := CancelNow(s, path);
            && path in t.workers && t.workers[path].dispatcher == Ended
            && (s.workers[path].dispatcher.Holding? ==>
                  var id := s.workers[path].dispatcher.item; Settled(t, id, ShutDown) && t.items[id].fired == 0)
  {
    ReachableInv(s);
    assert WorkerInv(s, path);
    HandIsOwed(s, path);
    var step := Stop(CancelDispatcher(path));
    ReachableOn(s, step);
    var t := Next(s, step);
    if s.workers[path].dispatcher.Holding? {
      AnsweredIsSettled(t, s.workers[path].dispatcher.item);
      HandlerOncePerTask(t, s.workers[path].dispatcher.item);
    }
  }
}
