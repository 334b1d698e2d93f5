/** Safety of the pool over every run: each accepted task is in one place, and a stop answers every future. */
module PoolSafety {
  import opened Protocol
  import opened Pool
  import opened PoolInvariants
  import opened PoolSteps
  import opened PoolRunSteps
  import opened PoolAnswers
  import HealthSpec

  // The remaining steps of a run.

  lemma DrainEndShape(s: State, path: string, k: nat)
    requires HasTask(s, path, k) && |s.workers[path].tasks| == 1 && s.workers[path].queue == []
    ensures DrainNext(s, path, k) == s.(workers := s.workers[path := DrainEnd(s.workers[path])])
  {
    var w := s.workers[path];
    EndTaskShape(Put(s, path, w.(hardQueued := 0)), path, k);
    PutTwice(s, path, w.(hardQueued := 0), DrainEnd(w));
  }

  lemma DrainHandShape(s: State, path: string, k: nat)
    requires HasTask(s, path, k) && |s.workers[path].tasks| == 1 && s.workers[path].queue != []
    requires forall e :: e in s.workers[path].queue ==> e.id < |s.items|
    ensures var w := s.workers[path];
            DrainNext(s, path, k) ==
            Fire(s, w.queue[First(w.queue)].id).(workers := s.workers[path := DrainHand(w)])
  {
    var w := s.workers[path];
    var i := First(w.queue);
    var v := w.(queue := Without(w.queue, i));
    SetStageShape(Fire(Put(s, path, v), w.queue[i].id), path, k, Draining(w.queue[i].id));
    PutTwice(s, path, v, DrainHand(w));
  }

  lemma DrainEndStep(s: State, path: string, k: nat)
    requires Inv(s) && HasTask(s, path, k) && WorkerInv(s, path) && CanDrain(s.workers[path])
    requires s.workers[path].queue == [] && Owed(s.items, Grip(s.workers[path].tasks[0]), path)
    ensures Inv(DrainNext(Resolve(s, Grip(s.workers[path].tasks[0]), Completed), path, k))
  {
    var w := s.workers[path];
    var g := Grip(w.tasks[0]);
    var u := Resolve(s, g, Completed);
    DrainEndShape(u, path, k);
    var t := DrainNext(u, path, k);
    DrainEndKeeps(s.maxRetries, s.items, w, path, s.sequence, s.phase);
    BoundedFromKeeps(t, path);
    ResolveKeeps(s, t, path, g, Completed);
  }

  lemma QueueInRange(s: State, path: string)
    requires path in s.workers && Bounded(s, path)
    ensures forall e :: e in s.workers[path].queue ==> e.id < |s.items|
  {
  }

  /** The state after the drain has put one task away and taken the next in hand. */
  ghost function DrainedHand(s: State, path: string): State
    requires path in s.workers && s.workers[path].tasks != [] && s.workers[path].queue != []
    requires Grip(s.workers[path].tasks[0]) < |s.items| && s.workers[path].queue[First(s.workers[path].queue)].id < |s.items|
  {
    var w := s.workers[path];
    Fire(Resolve(s, Grip(w.tasks[0]), Completed), w.queue[First(w.queue)].id).(
      workers := s.workers[path := DrainHand(w)])
  }

  lemma DrainedHandShape(s: State, path: string)
    requires path in s.workers && s.workers[path].tasks != [] && s.workers[path].queue != []
    requires Owed(s.items, Grip(s.workers[path].tasks[0]), path)
    requires s.workers[path].queue[First(s.workers[path].queue)].id < |s.items|
    ensures var w := s.workers[path];
            var t := DrainedHand(s, path);
            && t.items == Fired(Settle(s.items, Grip(w.tasks[0]), Completed), w.queue[First(w.queue)].id)
            && t.workers[path] == DrainHand(w) && path in t.workers
            && t.sequence == s.sequence && t.phase == s.phase && t.maxRetries == s.maxRetries
  {
  }

  lemma DrainedHandOwn(s: State, path: string)
    requires path in s.workers && WorkerInv(s, path) && CanDrain(s.workers[path])
    requires s.workers[path].queue != [] && Owed(s.items, Grip(s.workers[path].tasks[0]), path)
    ensures s.workers[path].queue[First(s.workers[path].queue)].id < |s.items|
    ensures WorkerInv(DrainedHand(s, path), path)
  {
    DrainHandKeeps(s.maxRetries, s.items, s.workers[path], path, s.sequence, s.phase);
    DrainedHandShape(s, path);
    KeptIsBounded(s, DrainedHand(s, path), path);
  }

  /** A terminal that keeps its own invariant and its running task is well formed. */
  lemma KeptIsBounded(s: State, t: State, path: string)
    requires path in s.workers && path in t.workers && Bounded(s, path) && |s.items| <= |t.items|
    requires Keeps(t.maxRetries, t.items, t.workers[path], path, t.sequence, t.phase)
    requires t.workers[path].tasks != [] ==>
               s.workers[path].tasks != [] && t.workers[path].tasks[0].id == s.workers[path].tasks[0].id
    ensures WorkerInv(t, path)
  {
    BoundedFromKeeps(t, path);
  }

  lemma DrainHandStep(s: State, path: string, k: nat)
    requires Inv(s) && HasTask(s, path, k) && WorkerInv(s, path) && CanDrain(s.workers[path])
    requires s.workers[path].queue != [] && Owed(s.items, Grip(s.workers[path].tasks[0]), path)
    requires forall e :: e in s.workers[path].queue ==> e.id < |s.items|
    ensures Inv(DrainNext(Resolve(s, Grip(s.workers[path].tasks[0]), Completed), path, k))
  {
    var w := s.workers[path];
    DrainedHandOwn(s, path);
    DrainHandFired(s.items, w, path);
    ResolveFireKeeps(s, DrainedHand(s, path), path, Grip(w.tasks[0]), w.queue[First(w.queue)].id);
    DrainHandShape(Resolve(s, Grip(w.tasks[0]), Completed), path, k);
  }

  lemma DrainKeeps(s: State, path: string, k: nat)
    requires Inv(s) && HasTask(s, path, k) && WorkerInv(s, path) && CanDrain(s.workers[path])
    ensures forall e :: e in s.workers[path].queue ==> e.id < |s.items|
    ensures Grip(s.workers[path].tasks[0]) < |s.items|
    ensures Inv(DrainNext(Resolve(s, Grip(s.workers[path].tasks[0]), Completed), path, k))
  {
    HandIsOwed(s, path);
    QueueInRange(s, path);
    if s.workers[path].queue == [] {
      DrainEndStep(s, path, k);
    } else {
      DrainHandStep(s, path, k);
    }
  }

  lemma HandlerDoneKeeps(s: State, path: string, k: nat)
    requires Inv(s) && RunEnabled(s, path, k, HandlerDone) && WorkerInv(s, path)
    ensures Inv(HandlerDoneNow(s, path, k))
  {
    assert k == 0;
    if StageOf(s, path, k).Completing? {
      RetireStep(s, path, k, Completed);
    } else {
      DrainKeeps(s, path, k);
    }
  }

  lemma RotateDoneKeeps(s: State, path: string, k: nat)
    requires Inv(s) && RunEnabled(s, path, k, RotateDone) && WorkerInv(s, path)
    ensures Inv(SetStage(s, path, k, Restarting(StageOf(s, path, k).result)))
  {
    RunningIsOwed(s, path, k);
    var w := s.workers[path];
    var id := w.tasks[0].id;
    var stage := Restarting(StageOf(s, path, k).result);
    assert ItemKept(s, id);
    SetStageShape(s, path, k, stage);
    assert s.items[id := s.items[id]] == s.items;
    RestageStep(s, SetStage(s, path, k, stage), path, s.items[id], stage, w.ready, w.health);
  }

  lemma CrashShape(s: State, path: string, k: nat)
    requires HasTask(s, path, k) && |s.workers[path].tasks| == 1 && s.workers[path].tasks[0].id < |s.items|
    ensures var w := s.workers[path];
            var id := w.tasks[0].id;
            SetStage(Fire(SetReady(s, path, false), id), path, k, Completing) ==
            s.(items := Fired(s.items, id), workers := s.workers[path := Restage(w, Completing, false, w.health)])
  {
    var w := s.workers[path];
    SetStageShape(Fire(SetReady(s, path, false), w.tasks[0].id), path, k, Completing);
    PutTwice(s, path, w.(ready := false), Restage(w, Completing, false, w.health));
  }

  lemma CrashKeeps(s: State, path: string, k: nat)
    requires Inv(s) && RunEnabled(s, path, k, Crash) && WorkerInv(s, path)
    ensures s.workers[path].tasks[k].id < |s.items|
    ensures Inv(SetStage(Fire(SetReady(s, path, false), s.workers[path].tasks[k].id), path, k, Completing))
  {
    RunningIsOwed(s, path, k);
    var w := s.workers[path];
    var id := w.tasks[0].id;
    assert ItemKept(s, id);
    CrashShape(s, path, k);
    RestageStep(s, SetStage(Fire(SetReady(s, path, false), id), path, k, Completing), path,
                s.items[id].(fired := s.items[id].fired + 1), Completing, false, w.health);
  }

  // The answer of a worker.

  lemma AnswerKeeps(s: State, path: string, k: nat, answer: Option<SyncResult>, now: int, warming: bool)
    requires Inv(s) && RunEnabled(s, path, k, Answer(answer, now, warming)) && WorkerInv(s, path)
    ensures Inv(AnswerNow(s, path, k, answer, now, warming))
  {
    RunningIsOwed(s, path, k);
    if s.Closing() {
      RetireStep(s, path, k, ShutDown);
    } else {
      AnswerOpenKeeps(s, path, k, answer, now, warming);
    }
  }

  lemma QuarantineShape(s: State, path: string, k: nat, health: HealthSpec.Health)
    requires HasTask(s, path, k) && |s.workers[path].tasks| == 1 && s.workers[path].tasks[0].id < |s.items|
    ensures var w := s.workers[path];
            var id := w.tasks[0].id;
            SetStage(Fire(SetReady(Put(s, path, w.(health := health)), path, false), id), path, k, Quarantining) ==
            s.(items := Fired(s.items, id), workers := s.workers[path := Restage(w, Quarantining, false, health)])
  {
    var id := s.workers[path].tasks[0].id;
    RecordedShape(s, path, k, Quarantining, s.items[id].(fired := s.items[id].fired + 1), false, health);
  }

  lemma MoveOnShape(s: State, path: string, k: nat, stage: Stage, health: HealthSpec.Health)
    requires HasTask(s, path, k) && |s.workers[path].tasks| == 1 && s.workers[path].tasks[0].id < |s.items|
    ensures var w := s.workers[path];
            SetStage(Put(s, path, w.(health := health)), path, k, stage) ==
            s.(items := s.items[w.tasks[0].id := s.items[w.tasks[0].id]],
               workers := s.workers[path := Restage(w, stage, w.ready, health)])
  {
    var w := s.workers[path];
    SetStageShape(Put(s, path, w.(health := health)), path, k, stage);
    assert s.workers[path := w.(health := health)][path := Restage(w, stage, w.ready, health)]
        == s.workers[path := Restage(w, stage, w.ready, health)];
  }

  lemma QuarantineKeeps(s: State, path: string, k: nat, health: HealthSpec.Health)
    requires Inv(s) && HasTask(s, path, k) && WorkerInv(s, path) && Plain(StageOf(s, path, k))
    ensures var w := s.workers[path];
            && w.tasks[k].id < |s.items|
            && Inv(SetStage(Fire(SetReady(Put(s, path, w.(health := health)), path, false), w.tasks[k].id),
                            path, k, Quarantining))
  {
    RunningIsOwed(s, path, k);
    var w := s.workers[path];
    var id := w.tasks[0].id;
    assert ItemKept(s, id);
    QuarantineShape(s, path, k, health);
    RestageStep(s, SetStage(Fire(SetReady(Put(s, path, w.(health := health)), path, false), id), path, k, Quarantining),
                path, s.items[id].(fired := s.items[id].fired + 1), Quarantining, false, health);
  }

  lemma MoveOnKeeps(s: State, path: string, k: nat, stage: Stage, health: HealthSpec.Health)
    requires Inv(s) && HasTask(s, path, k) && WorkerInv(s, path) && Plain(StageOf(s, path, k))
    requires stage.Rotating? || stage.Restarting?
    requires health.Usable()
    ensures Inv(SetStage(Put(s, path, s.workers[path].(health := health)), path, k, stage))
  {
    RunningIsOwed(s, path, k);
    var w := s.workers[path];
    var id := w.tasks[0].id;
    assert ItemKept(s, id);
    MoveOnShape(s, path, k, stage, health);
    RestageStep(s, SetStage(Put(s, path, w.(health := health)), path, k, stage), path, s.items[id], stage, w.ready, health);
  }

  /** The four ways out of an answer recorded on the board. */
  lemma RecordedKeeps(s: State, path: string, k: nat, result: SyncResult, healthy: bool, health: HealthSpec.Health)
    requires Inv(s) && HasTask(s, path, k) && WorkerInv(s, path) && Plain(StageOf(s, path, k))
    requires health.Usable() || health.state == HealthSpec.Quarantined
    ensures s.workers[path].tasks[k].id < |s.items|
    ensures Inv(Recorded(s, path, k, result, healthy, health))
  {
    if health.state == HealthSpec.Quarantined {
      QuarantineKeeps(s, path, k, health);
    } else if result.proxyDead && s.registry {
      MoveOnKeeps(s, path, k, Rotating(result), health);
    } else if !healthy {
      MoveOnKeeps(s, path, k, Restarting(result), health);
    } else {
      FinishKeeps(s, path, k, result, true, health);
    }
  }

  lemma AnswerOpenKeeps(s: State, path: string, k: nat, answer: Option<SyncResult>, now: int, warming: bool)
    requires Inv(s) && RunEnabled(s, path, k, Answer(answer, now, warming)) && WorkerInv(s, path) && !s.Closing()
    ensures Inv(AnswerNow(s, path, k, answer, now, warming))
  {
    RunningIsOwed(s, path, k);
    var result := if answer.Some? then answer.value else POOL_FAILURE;
    var w := s.workers[path];
    var server := s.items[w.tasks[k].id].server;
    HealthSpec.RecordMoves(w.health, now, warming, server, result);
    RecordedKeeps(s, path, k, result, answer.Some? && !result.terminalLost,
                  HealthSpec.Record(w.health, now, warming, server, result));
  }

  lemma RunKeeps(s: State, path: string, k: nat, step: RunStep)
    requires Inv(s) && RunEnabled(s, path, k, step) && WorkerInv(s, path)
    ensures Inv(AfterRun(s, path, k, step))
  {
    match step {
      case StartTask => StartTaskKeeps(s, path, k);
      case Answer(answer, now, warming) => AnswerKeeps(s, path, k, answer, now, warming);
      case RotateDone => RotateDoneKeeps(s, path, k);
      case RestartDone(healthy) =>
        var w := s.workers[path];
        RunningIsOwed(s, path, k);
        assert Put(s, path, w.(health := w.health)) == s by { assert s.workers[path := w] == s.workers; }
        FinishKeeps(s, path, k, StageOf(s, path, k).result, healthy, w.health);
      case Crash => CrashKeeps(s, path, k);
      case HandlerDone => HandlerDoneKeeps(s, path, k);
    }
  }

  // Submissions.

  lemma RefuseGlobal(s: State, t: State, path: string, x: Item)
    requires ItemsInv(s) && Registered(s) && s.lock.Held? && path in s.workers
    requires x.outcome == Refused && ItemInv(s.maxRetries, x) && x.path == path
    requires t == s.(items := s.items + [x], lock := Free)
    ensures ItemsInv(t) && Registered(t) && LocalStep(s, t, path)
  {
    forall id: Id | id < |t.items| ensures ItemKept(t, id) && DedupeKept(t, id) {
      if id < |s.items| {
        assert ItemKept(s, id) && DedupeKept(s, id);
      }
    }
    forall account | account in t.pending ensures Registration(t, account) {
      assert Registration(s, account);
    }
    assert s.workers[path := s.workers[path]] == s.workers;
  }

  /** The dedupe map keeps an older registration; a deduplicated request finds none, for it held the lock since its check. */
  lemma AcceptGlobal(s: State, t: State, path: string, x: Item)
    requires ItemsInv(s) && Registered(s) && s.lock.Held? && path in s.workers && path in t.workers
    requires x.outcome == Pending && ItemInv(s.maxRetries, x) && x.path == path
    requires x.account == s.lock.account && x.dedupe == s.lock.dedupe
    requires t == s.(items := s.items + [x], lock := Free, sequence := s.sequence + 1,
                     pending := if x.account in s.pending then s.pending else s.pending[x.account := |s.items|],
                     workers := s.workers[path := t.workers[path]])
    ensures ItemsInv(t) && Registered(t) && LocalStep(s, t, path)
  {
    forall id: Id | id < |t.items| ensures ItemKept(t, id) && DedupeKept(t, id) {
      if id < |s.items| {
        assert ItemKept(s, id) && DedupeKept(s, id);
      }
    }
    forall account | account in t.pending ensures Registration(t, account) {
      if account in s.pending {
        assert Registration(s, account);
      }
    }
  }

  lemma SubmitGlobal(s: State, path: string, server: string)
    requires ItemsInv(s) && Registered(s) && s.lock.Held? && path in s.workers
    ensures var t := SubmitNow(s, path, server); ItemsInv(t) && Registered(t) && LocalStep(s, t, path)
  {
    var t := SubmitNow(s, path, server);
    var x := t.items[|s.items|];
    if s.Closing() || !s.workers[path].health.Usable() {
      RefuseGlobal(s, t, path, x);
    } else {
      AcceptGlobal(s, t, path, x);
    }
  }

  function Accept(w: Worker, priority: nat, sequence: nat, id: Id): Worker {
    w.(queue := w.queue + [Entry(priority, sequence, id)],
       hardQueued := w.hardQueued + if priority == PRIORITY_HARD then 1 else 0)
  }

  lemma AppendItems(a: seq<Item>, x: Item, path: string)
    ensures forall id: Id :: Owed(a + [x], id, path) ==
                             (Owed(a, id, path) || (id == |a| && x.path == path && x.outcome == Pending))
  {
  }

  lemma AppendQueue(a: seq<Item>, x: Item, queue: seq<Entry>, sequence: nat)
    requires OrderedQueue(a, queue, sequence)
    ensures OrderedQueue(a + [x], queue, sequence)
    ensures OrderedQueue(a + [x], queue + [Entry(x.Priority(), sequence, |a|)], sequence + 1)
  {
  }

  lemma AcceptConserved(a: seq<Item>, x: Item, w: Worker, path: string, sequence: nat)
    requires Conserved(a, w, path) && x.path == path && x.outcome == Pending
    ensures Conserved(a + [x], Accept(w, x.Priority(), sequence, |a|), path)
  {
    var v := Accept(w, x.Priority(), sequence, |a|);
    IdsAppend(w.queue, Entry(x.Priority(), sequence, |a|));
    assert Holdings(v) == Holdings(w) + multiset{|a|};
    AppendItems(a, x, path);
  }

  lemma AcceptBudget(maxRetries: int, a: seq<Item>, x: Item, w: Worker, path: string, sequence: nat)
    requires Budgeted(maxRetries, a, w) && Conserved(a, w, path) && x.attempts == 0 && |w.tasks| <= 1
    ensures Budgeted(maxRetries, a + [x], Accept(w, x.Priority(), sequence, |a|))
  {
    var v := Accept(w, x.Priority(), sequence, |a|);
    forall id: Id | id < |a| && Unstarted(v, id) ensures Unstarted(w, id) {
    }
  }

  lemma AcceptFired(a: seq<Item>, x: Item, w: Worker, path: string, sequence: nat)
    requires FiredOnce(a, w, path) && Conserved(a, w, path) && x.fired == 0 && |w.tasks| <= 1
    ensures FiredOnce(a + [x], Accept(w, x.Priority(), sequence, |a|), path)
  {
    HoldingsOfOne(w);
    if w.tasks != [] {
      assert Holdings(w)[Grip(w.tasks[0])] > 0;
    }
    AppendItems(a, x, path);
  }

  lemma AcceptCounts(a: seq<Item>, x: Item, w: Worker, path: string, sequence: nat, phase: Phase)
    requires HardCounted(a, w, phase) && Conserved(a, w, path)
    ensures HardCounted(a + [x], Accept(w, x.Priority(), sequence, |a|), phase)
  {
    IdsAppend(w.queue, Entry(x.Priority(), sequence, |a|));
    if w.dispatcher.Holding? {
      assert Holdings(w)[w.dispatcher.item] > 0;
    }
  }

  lemma AcceptKeeps(maxRetries: int, a: seq<Item>, x: Item, w: Worker, path: string, sequence: nat, phase: Phase)
    requires Keeps(maxRetries, a, w, path, sequence, phase) && w.health.Usable() && phase == Serving
    requires x.path == path && x.outcome == Pending && x.attempts == 0 && x.fired == 0
    ensures Keeps(maxRetries, a + [x], Accept(w, x.Priority(), sequence, |a|), path, sequence + 1, phase)
  {
    AcceptConserved(a, x, w, path, sequence);
    AcceptBudget(maxRetries, a, x, w, path, sequence);
    AcceptFired(a, x, w, path, sequence);
    AcceptCounts(a, x, w, path, sequence, phase);
    AppendQueue(a, x, w.queue, sequence);
  }

  /** An item refused on the spot never enters a terminal. */
  lemma RefuseKeeps(maxRetries: int, a: seq<Item>, x: Item, w: Worker, path: string, sequence: nat, phase: Phase)
    requires Keeps(maxRetries, a, w, path, sequence, phase) && x.outcome == Refused
    ensures Keeps(maxRetries, a + [x], w, path, sequence, phase)
  {
    AppendItems(a, x, path);
    AppendQueue(a, x, w.queue, sequence);
    RefuseRest(maxRetries, a, x, w, path, phase);
  }

  lemma RefuseRest(maxRetries: int, a: seq<Item>, x: Item, w: Worker, path: string, phase: Phase)
    requires Conserved(a, w, path) && |w.tasks| <= 1 && Budgeted(maxRetries, a, w) && HardCounted(a, w, phase)
    ensures Budgeted(maxRetries, a + [x], w) && HardCounted(a + [x], w, phase)
  {
    HoldingsOfOne(w);
    forall id: Id | Unstarted(w, id) ensures id < |a| {
      QueuedIds(w, id);
      assert Holdings(w)[id] > 0;
    }
    if w.dispatcher.Holding? {
      assert Holdings(w)[w.dispatcher.item] > 0;
    }
  }

  lemma SubmitOwn(s: State, path: string, server: string)
    requires s.lock.Held? && path in s.workers && WorkerInv(s, path)
    ensures WorkerInv(SubmitNow(s, path, server), path)
  {
    var t := SubmitNow(s, path, server);
    var w := s.workers[path];
    var x := t.items[|s.items|];
    if s.Closing() || !w.health.Usable() {
      RefuseKeeps(s.maxRetries, s.items, x, w, path, s.sequence, s.phase);
    } else {
      AcceptKeeps(s.maxRetries, s.items, x, w, path, s.sequence, s.phase);
      assert t.workers[path] == Accept(w, x.Priority(), s.sequence, |s.items|);
    }
    BoundedFromKeeps(t, path);
  }

  lemma RequestKeeps(s: State, step: RequestStep)
    requires Inv(s) && RequestEnabled(s, step)
    ensures Inv(AfterRequest(s, step))
  {
    var t := AfterRequest(s, step);
    match step {
      case Submit(path, server) =>
        assert WorkerInv(s, path);
        SubmitOwn(s, path, server);
        SubmitGlobal(s, path, server);
        LocalKeeps(s, t, path);
      case _ =>
        LockKeeps(s, t.lock);
        assert t == s.(lock := t.lock);
    }
  }

  lemma LockKeeps(s: State, lock: Lock)
    requires Inv(s) && (lock.Held? && lock.dedupe ==> lock.account !in s.pending)
    ensures Inv(s.(lock := lock))
  {
    var t := s.(lock := lock);
    forall id: Id | id < |t.items| ensures ItemKept(t, id) && DedupeKept(t, id) {
      assert ItemKept(s, id) && DedupeKept(s, id);
    }
    forall account | account in t.pending ensures Registration(t, account) {
      assert Registration(s, account);
    }
    forall path | path in t.workers ensures WorkerInv(t, path) && Bounded(t, path) {
      assert WorkerInv(s, path);
    }
  }
}
