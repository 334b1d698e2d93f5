/** The steps of a running task keep the invariant. */
module PoolRunSteps {
  import opened Protocol
  import opened Pool
  import opened PoolInvariants
  import opened PoolSteps
  import HealthSpec

  /** The same submission, with other counters. */
  predicate SameTask(x: Item, y: Item) {
    && x.account == y.account && x.kind == y.kind && x.server == y.server && x.path == y.path
    && x.dedupe == y.dedupe && x.outcome == y.outcome
  }

  predicate Plain(stage: Stage) {
    stage.Created? || stage.Talking? || stage.Rotating? || stage.Restarting?
  }

  predicate Fires(stage: Stage) {
    stage.Completing? || stage.Quarantining? || stage.Draining?
  }

  lemma AmendedItems(a: seq<Item>, id: Id, x: Item, path: string)
    requires id < |a| && SameTask(a[id], x)
    ensures forall other: Id :: Owed(a[id := x], other, path) == Owed(a, other, path)
  {
  }

  lemma AmendedQueue(a: seq<Item>, id: Id, x: Item, queue: seq<Entry>, sequence: nat)
    requires id < |a| && SameTask(a[id], x) && OrderedQueue(a, queue, sequence)
    ensures OrderedQueue(a[id := x], queue, sequence)
  {
  }

  // One task moves on to its next stage.

  function Restage(w: Worker, stage: Stage, ready: bool, health: HealthSpec.Health): Worker
    requires w.tasks != []
  {
    w.(tasks := [Task(w.tasks[0].id, stage)], ready := ready, health := health)
  }

  predicate CanRestage(w: Worker, a: seq<Item>, x: Item, stage: Stage) {
    && |w.tasks| == 1 && w.tasks[0].id < |a| && SameTask(a[w.tasks[0].id], x)
    && Plain(w.tasks[0].stage) && !stage.Created? && !stage.Draining?
    && x.fired == a[w.tasks[0].id].fired + if Fires(stage) then 1 else 0
  }

  lemma RestageHoldings(w: Worker, stage: Stage, ready: bool, health: HealthSpec.Health)
    requires |w.tasks| == 1 && Plain(w.tasks[0].stage) && !stage.Created? && !stage.Draining?
    ensures Holdings(Restage(w, stage, ready, health)) == Holdings(w)
  {
    HoldingsOfOne(w);
    HoldingsOfOne(Restage(w, stage, ready, health));
  }

  lemma RestageBudget(maxRetries: int, a: seq<Item>, x: Item, w: Worker, path: string, stage: Stage, ready: bool,
                      health: HealthSpec.Health)
    requires CanRestage(w, a, x, stage) && Conserved(a, w, path) && Budgeted(maxRetries, a, w)
    requires w.dispatcher == AwaitTask(w.tasks[0].id) || w.dispatcher == Ended
    ensures Budgeted(maxRetries, a[w.tasks[0].id := x], Restage(w, stage, ready, health))
  {
    var v := Restage(w, stage, ready, health);
    var moved := w.tasks[0].id;
    HoldingsOfOne(w);
    forall id: Id | Unstarted(v, id) ensures Unstarted(w, id) && id != moved {
      QueuedIds(w, id);
      QueuedIds(v, id);
      assert Holdings(w)[moved] <= 1;
    }
  }

  lemma RestageFired(a: seq<Item>, x: Item, w: Worker, path: string, stage: Stage, ready: bool, health: HealthSpec.Health)
    requires CanRestage(w, a, x, stage) && FiredOnce(a, w, path)
    ensures FiredOnce(a[w.tasks[0].id := x], Restage(w, stage, ready, health), path)
  {
    AmendedItems(a, w.tasks[0].id, x, path);
  }

  lemma RestageKeeps(maxRetries: int, a: seq<Item>, x: Item, w: Worker, path: string, sequence: nat, phase: Phase,
                     stage: Stage, ready: bool, health: HealthSpec.Health)
    requires Keeps(maxRetries, a, w, path, sequence, phase) && CanRestage(w, a, x, stage)
    requires health.Usable() || stage.Quarantining?
    ensures Keeps(maxRetries, a[w.tasks[0].id := x], Restage(w, stage, ready, health), path, sequence, phase)
  {
    AmendedItems(a, w.tasks[0].id, x, path);
    AmendedQueue(a, w.tasks[0].id, x, w.queue, sequence);
    RestageHoldings(w, stage, ready, health);
    RestageBudget(maxRetries, a, x, w, path, stage, ready, health);
    RestageFired(a, x, w, path, stage, ready, health);
  }

  // One task goes back to its queue.

  function Requeue(w: Worker, x: Item, id: Id, sequence: nat, ready: bool, health: HealthSpec.Health): Worker {
    w.(
      tasks := [], ready := ready, health := health,
      queue := w.queue + [Entry(x.Priority(), sequence, id)],
      hardQueued := w.hardQueued + if x.Priority() == PRIORITY_HARD then 1 else 0)
  }

  predicate CanRequeue(maxRetries: int, w: Worker, a: seq<Item>, x: Item) {
    && |w.tasks| == 1 && w.tasks[0].id < |a| && SameTask(a[w.tasks[0].id], x)
    && Plain(w.tasks[0].stage) && x.fired == a[w.tasks[0].id].fired
    && x.attempts <= Cap(maxRetries, x)
  }

  lemma RequeueHoldings(w: Worker, x: Item, sequence: nat, ready: bool, health: HealthSpec.Health)
    requires |w.tasks| == 1 && Plain(w.tasks[0].stage)
    ensures Holdings(Requeue(w, x, w.tasks[0].id, sequence, ready, health)) == Holdings(w)
  {
    var v := Requeue(w, x, w.tasks[0].id, sequence, ready, health);
    HoldingsOfOne(w);
    HoldingsOfOne(v);
    IdsAppend(w.queue, Entry(x.Priority(), sequence, w.tasks[0].id));
  }

  lemma RequeueBudget(maxRetries: int, a: seq<Item>, x: Item, w: Worker, sequence: nat, ready: bool,
                      health: HealthSpec.Health)
    requires CanRequeue(maxRetries, w, a, x) && Budgeted(maxRetries, a, w)
    ensures Budgeted(maxRetries, a[w.tasks[0].id := x], Requeue(w, x, w.tasks[0].id, sequence, ready, health))
  {
    var v := Requeue(w, x, w.tasks[0].id, sequence, ready, health);
    forall id: Id | Unstarted(v, id) && id != w.tasks[0].id ensures Unstarted(w, id) {
    }
  }

  lemma RequeueOrdered(a: seq<Item>, x: Item, id: Id, queue: seq<Entry>, sequence: nat)
    requires id < |a| && SameTask(a[id], x) && OrderedQueue(a, queue, sequence)
    ensures OrderedQueue(a[id := x], queue + [Entry(x.Priority(), sequence, id)], sequence + 1)
  {
    AmendedQueue(a, id, x, queue, sequence);
  }

  lemma RequeueCounts(maxRetries: int, a: seq<Item>, x: Item, w: Worker, sequence: nat, phase: Phase,
                      ready: bool, health: HealthSpec.Health)
    requires CanRequeue(maxRetries, w, a, x) && HardCounted(a, w, phase) && !w.dispatcher.Holding?
    ensures HardCounted(a[w.tasks[0].id := x], Requeue(w, x, w.tasks[0].id, sequence, ready, health), phase)
  {
    IdsAppend(w.queue, Entry(x.Priority(), sequence, w.tasks[0].id));
  }

  lemma RequeueFired(maxRetries: int, a: seq<Item>, x: Item, w: Worker, path: string, sequence: nat, ready: bool,
                     health: HealthSpec.Health)
    requires CanRequeue(maxRetries, w, a, x) && FiredOnce(a, w, path)
    ensures FiredOnce(a[w.tasks[0].id := x], Requeue(w, x, w.tasks[0].id, sequence, ready, health), path)
  {
    AmendedItems(a, w.tasks[0].id, x, path);
  }

  lemma RequeueKeeps(maxRetries: int, a: seq<Item>, x: Item, w: Worker, path: string, sequence: nat, phase: Phase,
                     ready: bool, health: HealthSpec.Health)
    requires Keeps(maxRetries, a, w, path, sequence, phase) && CanRequeue(maxRetries, w, a, x)
    requires health.Usable()
    ensures Keeps(maxRetries, a[w.tasks[0].id := x], Requeue(w, x, w.tasks[0].id, sequence, ready, health),
                  path, sequence + 1, phase)
  {
    AmendedItems(a, w.tasks[0].id, x, path);
    RequeueOrdered(a, x, w.tasks[0].id, w.queue, sequence);
    RequeueHoldings(w, x, sequence, ready, health);
    RequeueBudget(maxRetries, a, x, w, sequence, ready, health);
    RequeueCounts(maxRetries, a, x, w, sequence, phase, ready, health);
    RequeueFired(maxRetries, a, x, w, path, sequence, ready, health);
  }

  // The pool-wide part of the invariant.

  lemma AmendGlobal(s: State, t: State, path: string, id: Id)
    requires ItemsInv(s) && Registered(s) && path in s.workers && path in t.workers
    requires id < |s.items| == |t.items| && s.items[id].path == path
    requires SameTask(s.items[id], t.items[id]) && ItemInv(t.maxRetries, t.items[id])
    requires t == s.(items := s.items[id := t.items[id]], workers := s.workers[path := t.workers[path]],
                     sequence := t.sequence)
    requires s.sequence <= t.sequence
    ensures ItemsInv(t) && Registered(t) && LocalStep(s, t, path)
  {
    forall other: Id | other < |t.items| ensures ItemKept(t, other) && DedupeKept(t, other) {
      assert ItemKept(s, other) && DedupeKept(s, other);
    }
    forall account | account in t.pending ensures Registration(t, account) {
      assert Registration(s, account);
    }
  }

  /** A stage of the running task changed together with its counters. */
  lemma AmendKeeps(s: State, t: State, path: string, id: Id)
    requires Inv(s) && path in s.workers && path in t.workers
    requires id < |s.items| == |t.items| && s.items[id].path == path
    requires SameTask(s.items[id], t.items[id]) && ItemInv(t.maxRetries, t.items[id])
    requires t == s.(items := s.items[id := t.items[id]], workers := s.workers[path := t.workers[path]],
                     sequence := t.sequence)
    requires s.sequence <= t.sequence
    requires WorkerInv(t, path)
    ensures Inv(t)
  {
    AmendGlobal(s, t, path, id);
    LocalKeeps(s, t, path);
  }

  // The steps of a run that amend its task.

  /** What a plain stage works on is owed, and its result was never handed over. */
  lemma RunningIsOwed(s: State, path: string, k: nat)
    requires HasTask(s, path, k) && WorkerInv(s, path) && Plain(StageOf(s, path, k))
    ensures k == 0 && |s.workers[path].tasks| == 1
    ensures Owed(s.items, s.workers[path].tasks[0].id, path)
    ensures s.items[s.workers[path].tasks[0].id].fired == 0
    ensures s.workers[path].health.Usable()
  {
    HoldingsOfOne(s.workers[path]);
    assert Holdings(s.workers[path])[s.workers[path].tasks[0].id] > 0;
  }

  lemma RestageStep(s: State, t: State, path: string, x: Item, stage: Stage, ready: bool, health: HealthSpec.Health)
    requires Inv(s) && HasTask(s, path, 0) && WorkerInv(s, path) && CanRestage(s.workers[path], s.items, x, stage)
    requires health.Usable() || stage.Quarantining?
    requires ItemInv(s.maxRetries, x)
    requires t == s.(items := s.items[s.workers[path].tasks[0].id := x],
                     workers := s.workers[path := Restage(s.workers[path], stage, ready, health)])
    ensures Inv(t)
  {
    RunningIsOwed(s, path, 0);
    RestageKeeps(s.maxRetries, s.items, x, s.workers[path], path, s.sequence, s.phase, stage, ready, health);
    BoundedFromKeeps(t, path);
    AmendKeeps(s, t, path, s.workers[path].tasks[0].id);
  }

  // The shapes of the source's methods when one task runs.

  lemma SetStageShape(s: State, path: string, k: nat, stage: Stage)
    requires HasTask(s, path, k) && |s.workers[path].tasks| == 1
    ensures SetStage(s, path, k, stage) ==
            s.(workers := s.workers[path := Restage(s.workers[path], stage, s.workers[path].ready, s.workers[path].health)])
  {
    var w := s.workers[path];
    assert w.tasks[0 := w.tasks[0].(stage := stage)] == [Task(w.tasks[0].id, stage)];
  }

  lemma EndTaskShape(s: State, path: string, k: nat)
    requires HasTask(s, path, k) && |s.workers[path].tasks| == 1
    ensures EndTask(s, path, k) == s.(workers := s.workers[path := s.workers[path].(tasks := [])])
  {
    var w := s.workers[path];
    assert w.tasks[..k] + w.tasks[k + 1..] == [];
  }

  lemma PutTwice(s: State, path: string, v: Worker, w: Worker)
    requires path in s.workers
    ensures Put(Put(s, path, v), path, w) == Put(s, path, w)
  {
    assert s.workers[path := v][path := w] == s.workers[path := w];
  }

  /** A recorded result that moves its task on, with the handler called or not. */
  lemma RecordedShape(s: State, path: string, k: nat, stage: Stage, x: Item, ready: bool, health: HealthSpec.Health)
    requires HasTask(s, path, k) && |s.workers[path].tasks| == 1 && s.workers[path].tasks[0].id < |s.items|
    ensures var w := s.workers[path];
            var u := Put(s, path, w.(health := health));
            SetStage(SetReady(u, path, ready).(items := s.items[w.tasks[0].id := x]), path, k, stage) ==
            s.(items := s.items[w.tasks[0].id := x], workers := s.workers[path := Restage(w, stage, ready, health)])
  {
    var w := s.workers[path];
    PutTwice(s, path, w.(health := health), w.(health := health, ready := ready));
    var u := SetReady(Put(s, path, w.(health := health)), path, ready).(items := s.items[w.tasks[0].id := x]);
    SetStageShape(u, path, k, stage);
    assert s.workers[path := w.(health := health, ready := ready)][path := Restage(w, stage, ready, health)]
        == s.workers[path := Restage(w, stage, ready, health)];
  }

  lemma RequeuedShape(s: State, path: string, k: nat, x: Item, ready: bool, health: HealthSpec.Health)
    requires HasTask(s, path, k) && |s.workers[path].tasks| == 1 && s.workers[path].tasks[0].id < |s.items|
    ensures var w := s.workers[path];
            var id := w.tasks[0].id;
            var u := SetReady(Put(s, path, w.(health := health)), path, ready).(items := s.items[id := x]);
            Enqueue(EndTask(u, path, k), path, id) ==
            s.(items := s.items[id := x], sequence := s.sequence + 1,
               workers := s.workers[path := Requeue(w, x, id, s.sequence, ready, health)])
  {
    var w := s.workers[path];
    var id := w.tasks[0].id;
    PutTwice(s, path, w.(health := health), w.(health := health, ready := ready));
    var u := SetReady(Put(s, path, w.(health := health)), path, ready).(items := s.items[id := x]);
    EndTaskShape(u, path, k);
    assert Enqueue(EndTask(u, path, k), path, id).workers
        == s.workers[path := Requeue(w, x, id, s.sequence, ready, health)];
  }

  lemma RequeueStep(s: State, t: State, path: string, x: Item, ready: bool, health: HealthSpec.Health)
    requires Inv(s) && HasTask(s, path, 0) && WorkerInv(s, path)
    requires CanRequeue(s.maxRetries, s.workers[path], s.items, x)
    requires health.Usable()
    requires ItemInv(s.maxRetries, x)
    requires t == s.(items := s.items[s.workers[path].tasks[0].id := x], sequence := s.sequence + 1,
                     workers := s.workers[path := Requeue(s.workers[path], x, s.workers[path].tasks[0].id,
                                                          s.sequence, ready, health)])
    ensures Inv(t)
  {
    RunningIsOwed(s, path, 0);
    RequeueKeeps(s.maxRetries, s.items, x, s.workers[path], path, s.sequence, s.phase, ready, health);
    BoundedFromKeeps(t, path);
    AmendKeeps(s, t, path, s.workers[path].tasks[0].id);
  }

  /** A retry never overdraws the budget: free re-runs give their attempt back, others are within the limit. */
  lemma RetryBudget(maxRetries: int, item: Item, result: SyncResult)
    requires ItemInv(maxRetries, item)
    ensures var (retry, x) := ShouldRetry(maxRetries, item, result);
            && ItemInv(maxRetries, x) && SameTask(item, x) && x.fired == item.fired
            && (retry ==> x.attempts <= Cap(maxRetries, x))
            && (!retry ==> x == item)
  {
  }

  // Every step of a run.

  lemma FinishShape(s: State, path: string, k: nat, result: SyncResult, healthy: bool, health: HealthSpec.Health)
    requires HasTask(s, path, k) && |s.workers[path].tasks| == 1 && s.workers[path].tasks[0].id < |s.items|
    ensures var w := s.workers[path];
            var id := w.tasks[0].id;
            var (retry, x) := ShouldRetry(s.maxRetries, s.items[id], result);
            var y := x.(fired := x.fired + 1);
            Finish(Put(s, path, w.(health := health)), path, k, result, healthy) ==
            if retry then
              s.(items := s.items[id := x], sequence := s.sequence + 1,
                 workers := s.workers[path := Requeue(w, x, id, s.sequence, healthy, health)])
            else
              s.(items := s.items[id := y], workers := s.workers[path := Restage(w, Completing, healthy, health)])
  {
    var id := s.workers[path].tasks[0].id;
    var (retry, x) := ShouldRetry(s.maxRetries, s.items[id], result);
    var y := x.(fired := x.fired + 1);
    if retry {
      RequeuedShape(s, path, k, x, healthy, health);
    } else {
      RecordedShape(s, path, k, Completing, y, healthy, health);
      assert s.items[id := x][id := y] == s.items[id := y];
    }
  }

  lemma FinishKeeps(s: State, path: string, k: nat, result: SyncResult, healthy: bool, health: HealthSpec.Health)
    requires Inv(s) && HasTask(s, path, k) && WorkerInv(s, path) && Plain(StageOf(s, path, k)) && health.Usable()
    ensures s.workers[path].tasks[k].id < |s.items|
    ensures Inv(Finish(Put(s, path, s.workers[path].(health := health)), path, k, result, healthy))
  {
    RunningIsOwed(s, path, k);
    var id := s.workers[path].tasks[0].id;
    var t := Finish(Put(s, path, s.workers[path].(health := health)), path, k, result, healthy);
    assert ItemKept(s, id);
    RetryBudget(s.maxRetries, s.items[id], result);
    FinishShape(s, path, k, result, healthy, health);
    var (retry, x) := ShouldRetry(s.maxRetries, s.items[id], result);
    if retry {
      RequeueStep(s, t, path, x, healthy, health);
    } else {
      RestageStep(s, t, path, x.(fired := x.fired + 1), Completing, healthy, health);
    }
  }

  lemma StartTaskShape(s: State, path: string, k: nat)
    requires HasTask(s, path, k) && |s.workers[path].tasks| == 1 && s.workers[path].tasks[0].id < |s.items|
    requires Bounded(s, path)
    ensures var w := s.workers[path];
            var item := s.items[w.tasks[0].id];
            StartTaskNow(s, path, k) ==
            s.(items := s.items[w.tasks[0].id := item.(attempts := item.attempts + 1, runs := item.runs + 1)],
               workers := s.workers[path := Restage(w, Talking, w.ready, w.health)])
  {
    var w := s.workers[path];
    assert w.tasks[0 := w.tasks[0].(stage := Talking)] == [Task(w.tasks[0].id, Talking)];
  }

  lemma StartTaskKeeps(s: State, path: string, k: nat)
    requires Inv(s) && RunEnabled(s, path, k, StartTask) && WorkerInv(s, path)
    ensures Inv(StartTaskNow(s, path, k))
  {
    RunningIsOwed(s, path, k);
    var w := s.workers[path];
    var id := w.tasks[0].id;
    assert Unstarted(w, id) && ItemKept(s, id);
    var x := s.items[id].(attempts := s.items[id].attempts + 1, runs := s.items[id].runs + 1);
    StartTaskShape(s, path, k);
    RestageStep(s, StartTaskNow(s, path, k), path, x, Talking, w.ready, w.health);
  }
}
