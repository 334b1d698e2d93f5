/**
 The pool's mutable state. The state of a pool is always one that the protocol reaches, so all that is proved of reachable
 states holds of it; each step method does its step of the protocol and states what its caller relies on.
 */
module PoolManager {
  import opened Pool
  import opened PoolInvariants
  import opened PoolPromises
  import opened PoolRetries
  import opened PoolRuns
  import opened PoolTheorems
  import opened Protocol
  import HealthSpec

  class PoolManager {
    const maxTaskRetries: int
    const hasRegistry: bool
    var workers: map<string, Worker>
    var items: seq<Item>
    var pending: map<string, Id>
    var sequence: nat
    var phase: Phase
    /** The submit lock of the sync service in front of the pool. */
    var lock: Lock

    function View(): State
      reads this
    {
      State(maxTaskRetries, hasRegistry, workers, items, pending, sequence, phase, lock)
    }

    /** Some run of the protocol leads here; the invariant follows. */
    ghost predicate Valid()
      reads this
    {
      Inv(View()) && Reachable(View())
    }

    constructor (maxTaskRetries: int, hasRegistry: bool, paths: set<string>)
      ensures Valid() && Started(View())
      ensures workers.Keys == paths && this.maxTaskRetries == maxTaskRetries && this.hasRegistry == hasRegistry
    {
      this.maxTaskRetries, this.hasRegistry := maxTaskRetries, hasRegistry;
      workers := map path | path in paths :: Worker([], 0, false, AwaitReady, [], HealthSpec.FRESH);
      items, pending, sequence, phase, lock := [], map[], 0, Serving, Free;
      new;
      StartedInv(View());
      assert Feasible(View(), []) && After(View(), []) == View();
    }

    // Requests.

    /** A request that finds its account's sync open joins it and changes nothing; any other goes on under the lock. */
    method Request(account: string, kind: SyncKind, dedupe: bool) returns (joined: Option<Id>)
      requires Valid() && lock == Free
      modifies this
      ensures Valid() && View() == Next(old(View()), Step.Request(BeginRequest(account, kind, dedupe)))
      ensures joined.Some? <==> dedupe && account in old(pending)
      ensures joined.None? ==> lock == Held(account, kind, dedupe)
      ensures joined.Some? ==>
                && View() == old(View()) && joined.value < |items|
                && items[joined.value].account == account && items[joined.value].Unresolved()
      ensures dedupe && joined.None? ==> forall id: Id :: OpenDedupe(View(), id) ==> items[id].account != account
    {
      RequestPromise(View(), account);
      StepIsValid(View(), Step.Request(BeginRequest(account, kind, dedupe)));
      if dedupe && account in pending {
        return Some(pending[account]);
      }
      lock := Held(account, kind, dedupe);
      return None;
    }

    method AbortRequest()
      requires Valid() && lock.Held?
      modifies this
      ensures Valid() && View() == Next(old(View()), Step.Request(Pool.AbortRequest))
      ensures View() == old(View()).(lock := Free)
    {
      lock := Free;
      StepIsValid(old(View()), Step.Request(Pool.AbortRequest));
    }

    /** A submission is answered at once, or its sync is in one place of the terminal it was made for. */
    method Submit(path: string, server: string) returns (id: Id)
      requires Valid() && lock.Held? && path in workers
      modifies this
      ensures Valid() && View() == Next(old(View()), Step.Request(Pool.Submit(path, server)))
      ensures id == |old(items)| && |items| == id + 1 && items[..id] == old(items)
      ensures items[id].(outcome := Pending)
           == Item(old(lock).account, old(lock).kind, server, path, old(lock).dedupe, 0, 0, 0, 0, 0, Pending)
      ensures lock == Free
      ensures if old(phase) == Serving && old(workers)[path].health.Usable() then
                && StillOwed(View(), path, id) && IsLast(workers[path].queue, id)
                && pending == old(pending) + if old(lock).account in old(pending) then map[] else map[old(lock).account := id]
              else
                Settled(View(), id, Refused) && workers == old(workers) && pending == old(pending)
    {
      SubmitPromise(View(), path, server);
      id := SubmitItem(path, server);
      StepIsValid(old(View()), Step.Request(Pool.Submit(path, server)));
    }

    method SubmitItem(path: string, server: string) returns (id: Id)
      requires lock.Held? && path in workers
      modifies this
      ensures View() == SubmitNow(old(View()), path, server) && id == |old(items)|
    {
      var account := lock.account;
      var item := Item(account, lock.kind, server, path, lock.dedupe, 0, 0, 0, 0, 0, Pending);
      id := |items|;
      lock := Free;
      if phase != Serving {
        items := items + [item.(outcome := Refused)];
        return;
      }
      if !workers[path].health.Usable() {
        items := items + [item.(outcome := Refused)];
        return;
      }
      items := items + [item];
      if account !in pending {
        pending := pending[account := id];
      }
      EnqueueItem(path, id);
    }

    method EnqueueItem(path: string, id: Id)
      requires path in workers && id < |items|
      modifies this
      ensures View() == Enqueue(old(View()), path, id)
    {
      var w := workers[path];
      if items[id].Priority() == PRIORITY_HARD {
        w := w.(hardQueued := w.hardQueued + 1);
      }
      w := w.(queue := w.queue + [Entry(items[id].Priority(), sequence, id)]);
      sequence := sequence + 1;
      workers := workers[path := w];
    }

    method ResolveItem(id: Id, outcome: Outcome)
      requires id < |items|
      modifies this
      ensures View() == Resolve(old(View()), id, outcome)
    {
      var account := items[id].account;
      if account in pending && pending[account] == id {
        pending := pending - {account};
      }
      if items[id].outcome == Pending {
        items := items[id := items[id].(outcome := outcome)];
      }
    }

    // The reaper, and whatever else makes a worker ready or not.

    method SetWorkerReady(path: string, ready: bool)
      requires Valid() && path in workers
      modifies this
      ensures Valid() && View() == Next(old(View()), Reap(path, Pool.MarkReady(ready)))
      ensures path in workers && workers[path] == old(workers)[path].(ready := ready)
    {
      MarkWorker(path, ready);
      StepIsValid(old(View()), Reap(path, Pool.MarkReady(ready)));
    }

    method BeginReclone(path: string, now: int)
      requires Valid() && ReapEnabled(View(), path, Pool.StartReclone(now))
      modifies this
      ensures Valid() && View() == Next(old(View()), Reap(path, Pool.StartReclone(now)))
      ensures path in workers && workers[path].health.state == HealthSpec.Recloning && old(phase) == Serving
    {
      workers := workers[path := workers[path].(health := HealthSpec.MarkRecloning(workers[path].health, now))];
      StepIsValid(old(View()), Reap(path, Pool.StartReclone(now)));
    }

    method EndReclone(path: string)
      requires Valid() && ReapEnabled(View(), path, Pool.FinishReclone)
      modifies this
      ensures Valid() && View() == Next(old(View()), Reap(path, Pool.FinishReclone))
      ensures path in workers && workers[path].health.state == HealthSpec.Healthy && workers[path].ready
    {
      workers := workers[path := workers[path].(health := HealthSpec.MarkRecloned(workers[path].health))];
      MarkWorker(path, true);
      StepIsValid(old(View()), Reap(path, Pool.FinishReclone));
    }

    method FailReclone(path: string, error: string)
      requires Valid() && ReapEnabled(View(), path, Pool.FailReclone(error))
      modifies this
      ensures Valid() && View() == Next(old(View()), Reap(path, Pool.FailReclone(error)))
      ensures path in workers && workers[path].health.state == HealthSpec.Quarantined
    {
      workers := workers[path := workers[path].(health := HealthSpec.MarkRecloneFailed(workers[path].health, error))];
      StepIsValid(old(View()), Reap(path, Pool.FailReclone(error)));
    }

    // The dispatcher of a terminal.

    method TakeReady(path: string)
      requires Valid() && DispatchEnabled(View(), path, Pool.TakeReady)
      modifies this
      ensures Valid() && View() == Next(old(View()), Dispatch(path, Pool.TakeReady))
      ensures path in workers && old(workers)[path].ready && workers[path].dispatcher == AwaitItem
    {
      workers := workers[path := workers[path].(dispatcher := AwaitItem)];
      StepIsValid(old(View()), Dispatch(path, Pool.TakeReady));
    }

    /** The dispatcher takes an owed sync that no waiting one precedes. */
    method TakeItem(path: string)
      requires Valid() && DispatchEnabled(View(), path, Pool.TakeItem)
      modifies this
      ensures Valid() && View() == Next(old(View()), Dispatch(path, Pool.TakeItem))
      ensures path in workers && workers[path].dispatcher.Holding?
      ensures StillOwed(View(), path, workers[path].dispatcher.item)
      ensures IsLeast(old(workers)[path].queue, workers[path].dispatcher.item)
    {
      TakePromise(View(), path);
      var w := workers[path];
      var i := First(w.queue);
      var entry := w.queue[i];
      w := w.(queue := Without(w.queue, i));
      w := w.(dispatcher := Holding(entry.id));
      workers := workers[path := w];
      StepIsValid(old(View()), Dispatch(path, Pool.TakeItem));
    }

    /** The held sync becomes the one run of its terminal. */
    method StartItem(path: string)
      requires Valid() && DispatchEnabled(View(), path, Pool.StartItem)
      modifies this
      ensures Valid() && View() == Next(old(View()), Dispatch(path, Pool.StartItem))
      ensures path in workers && workers[path].tasks == [Task(old(workers)[path].dispatcher.item, Created)]
      ensures StillOwed(View(), path, workers[path].tasks[0].id)
      ensures old(workers)[path].ready && old(workers)[path].tasks == []
    {
      StartPromise(View(), path);
      var w := workers[path];
      var id := w.dispatcher.item;
      if items[id].Priority() == PRIORITY_HARD {
        w := w.(hardQueued := w.hardQueued - 1);
      }
      w := w.(tasks := w.tasks + [Task(id, Created)], dispatcher := AwaitTask(id));
      workers := workers[path := w];
      StepIsValid(old(View()), Dispatch(path, Pool.StartItem));
    }

    method ResumeLoop(path: string)
      requires Valid() && DispatchEnabled(View(), path, Pool.ResumeLoop)
      modifies this
      ensures Valid() && View() == Next(old(View()), Dispatch(path, Pool.ResumeLoop))
      ensures path in workers && workers[path].tasks == []
      ensures workers[path].dispatcher == if phase == Serving then AwaitReady else Ended
    {
      ResumePromise(View(), path);
      if phase == Serving {
        workers := workers[path := workers[path].(dispatcher := AwaitReady)];
      } else {
        workers := workers[path := workers[path].(dispatcher := Ended)];
      }
      StepIsValid(old(View()), Dispatch(path, Pool.ResumeLoop));
    }

    /** A cancelled dispatcher answers the sync in its hand, and nobody gets a result of it. */
    method CancelDispatcher(path: string)
      requires Valid() && StopEnabled(View(), Pool.CancelDispatcher(path))
      modifies this
      ensures Valid() && View() == Next(old(View()), Stop(Pool.CancelDispatcher(path)))
      ensures path in workers && workers[path].dispatcher == Ended
      ensures old(workers)[path].dispatcher.Holding? ==>
                var id := old(workers)[path].dispatcher.item; Settled(View(), id, ShutDown) && items[id].fired == 0
    {
      CancelPromise(View(), path);
      var w := workers[path];
      workers := workers[path := w.(dispatcher := Ended)];
      if w.dispatcher.Holding? {
        ResolveItem(w.dispatcher.item, ShutDown);
      }
      StepIsValid(old(View()), Stop(Pool.CancelDispatcher(path)));
    }

    // A run.

    method SetTask(path: string, k: nat, stage: Stage)
      requires HasTask(View(), path, k)
      modifies this
      ensures View() == SetStage(old(View()), path, k, stage)
    {
      var w := workers[path];
      workers := workers[path := w.(tasks := w.tasks[k := w.tasks[k].(stage := stage)])];
    }

    method DropTask(path: string, k: nat)
      requires HasTask(View(), path, k)
      modifies this
      ensures View() == EndTask(old(View()), path, k)
    {
      var w := workers[path];
      workers := workers[path := w.(tasks := w.tasks[..k] + w.tasks[k + 1..])];
    }

    method MarkWorker(path: string, ready: bool)
      requires path in workers
      modifies this
      ensures View() == SetReady(old(View()), path, ready)
    {
      workers := workers[path := workers[path].(ready := ready)];
    }

    method HandOver(id: Id)
      requires id < |items|
      modifies this
      ensures View() == Fire(old(View()), id)
    {
      items := items[id := items[id].(fired := items[id].fired + 1)];
    }

    /** A run is counted before the worker is asked, and there are never more of them than the retries allow plus three. */
    method StartTask(path: string, k: nat)
      requires Valid() && RunEnabled(View(), path, k, Pool.StartTask)
      modifies this
      ensures Valid() && View() == Next(old(View()), Run(path, k, Pool.StartTask))
      ensures old(workers[path].tasks[k].id) < |old(items)|
      ensures var id := old(workers)[path].tasks[k].id;
              && StillOwed(View(), path, id) && workers[path].tasks == [Task(id, Talking)]
              && items[id].runs == old(items)[id].runs + 1 && items[id].attempts == old(items)[id].attempts + 1
              && items[id].runs <= (if items[id].kind == Initial || maxTaskRetries < 0 then 0 else maxTaskRetries) + 3
    {
      RunPromise(View(), path, k);
      var id := workers[path].tasks[k].id;
      var item := items[id];
      items := items[id := item.(attempts := item.attempts + 1, runs := item.runs + 1)];
      SetTask(path, k, Talking);
      StepIsValid(old(View()), Run(path, k, Pool.StartTask));
    }

    /** Whether a sync runs again; a re-run it does not pay for is noted on it. */
    method Retries(id: Id, result: SyncResult) returns (again: bool)
      requires id < |items|
      modifies this
      ensures |items| == |old(items)| && (again, items[id]) == ShouldRetry(maxTaskRetries, old(items[id]), result)
      ensures View() == old(View()).(items := old(items)[id := items[id]])
    {
      if result.ok {
        return false;
      }
      if result.errorCode == Some(AUTHORIZATION_FAILED)
         || (IsIpc(result.errorCode) && !result.terminalLost && !result.proxyDead) {
        return false;
      }
      var item := items[id];
      if result.terminal.Some? && result.terminal.value.replaced && item.replacements == 0 {
        items := items[id := item.(replacements := item.replacements + 1, attempts := item.attempts - 1)];
        return true;
      }
      if result.proxyDead && item.rotations == 0 {
        items := items[id := item.(rotations := item.rotations + 1, attempts := item.attempts - 1)];
        return true;
      }
      var limit := if item.kind == Initial then 0 else maxTaskRetries;
      return item.attempts <= limit;
    }

    /** The end of a run: the worker is marked, and the sync queued again or handed to the result handler. */
    method FinishRun(path: string, k: nat, result: SyncResult, healthy: bool)
      requires HasTask(View(), path, k) && workers[path].tasks[k].id < |items|
      modifies this
      ensures View() == Finish(old(View()), path, k, result, healthy)
    {
      var id := workers[path].tasks[k].id;
      MarkWorker(path, healthy);
      var again := Retries(id, result);
      if again {
        DropTask(path, k);
        EnqueueItem(path, id);
      } else {
        HandOver(id);
        SetTask(path, k, Completing);
      }
    }

    /**
     The worker answered, or its answer never came. Once the pool is closing the sync is settled and nobody gets the result;
     before that it stays owed, and goes on as the board and the fields of the answer say.
     */
    method TakeAnswer(path: string, k: nat, answer: Option<SyncResult>, now: int, warming: bool)
      requires Valid() && RunEnabled(View(), path, k, Answer(answer, now, warming))
      modifies this
      ensures Valid() && View() == Next(old(View()), Run(path, k, Answer(answer, now, warming)))
      ensures old(workers[path].tasks[k].id) < |old(items)|
      ensures var id := old(workers)[path].tasks[k].id;
              if old(phase) != Serving then Settled(View(), id, ShutDown) && items[id].fired == 0
              else StillOwed(View(), path, id) && Heard(old(View()), View(), path, id, answer, now, warming)
    {
      AnswerPromise(View(), path, k, answer, now, warming);
      StepIsValid(View(), Run(path, k, Answer(answer, now, warming)));
      var id := workers[path].tasks[k].id;
      var result := if answer.Some? then answer.value else POOL_FAILURE;
      var healthy := answer.Some?;
      if healthy && result.terminalLost {
        healthy := false;
      }
      if phase != Serving {
        ResolveItem(id, ShutDown);
        DropTask(path, k);
        return;
      }
      var health := HealthSpec.Record(workers[path].health, now, warming, items[id].server, result);
      GoOn(path, k, result, healthy, health);
    }

    /** What a run does once the board has recorded its answer. */
    method GoOn(path: string, k: nat, result: SyncResult, healthy: bool, health: HealthSpec.Health)
      requires HasTask(View(), path, k) && workers[path].tasks[k].id < |items|
      modifies this
      ensures View() == Recorded(old(View()), path, k, result, healthy, health)
    {
      workers := workers[path := workers[path].(health := health)];
      if health.state == HealthSpec.Quarantined {
        MarkWorker(path, false);
        HandOver(workers[path].tasks[k].id);
        SetTask(path, k, Quarantining);
        return;
      }
      if result.proxyDead && hasRegistry {
        SetTask(path, k, Rotating(result));
      } else if !healthy {
        SetTask(path, k, Restarting(result));
      } else {
        FinishRun(path, k, result, true);
      }
    }

    method RotationDone(path: string, k: nat)
      requires Valid() && RunEnabled(View(), path, k, RotateDone)
      modifies this
      ensures Valid() && View() == Next(old(View()), Run(path, k, RotateDone))
      ensures path in workers && workers[path].tasks
           == [Task(old(workers)[path].tasks[k].id, Restarting(old(workers)[path].tasks[k].stage.result))]
    {
      RunningTask(View(), path, k);
      SetTask(path, k, Restarting(workers[path].tasks[k].stage.result));
      StepIsValid(old(View()), Run(path, k, RotateDone));
    }

    /** The sync waits again behind all others of its terminal or goes to the result handler, as its result says. */
    method RestartDone(path: string, k: nat, healthy: bool)
      requires Valid() && RunEnabled(View(), path, k, Pool.RestartDone(healthy))
      modifies this
      ensures Valid() && View() == Next(old(View()), Run(path, k, Pool.RestartDone(healthy)))
      ensures old(workers[path].tasks[k].id) < |old(items)|
      ensures var id, result := old(workers)[path].tasks[k].id, old(workers)[path].tasks[k].stage.result;
              && StillOwed(View(), path, id) && RunEnded(View(), path, id, old(items)[id], result)
              && workers[path].ready == healthy
    {
      FinishPromise(View(), path, k, healthy);
      FinishRun(path, k, workers[path].tasks[k].stage.result, healthy);
      StepIsValid(old(View()), Run(path, k, Pool.RestartDone(healthy)));
    }

    /** A run that crashes takes its worker out of use and hands a failure over. */
    method Crash(path: string, k: nat)
      requires Valid() && RunEnabled(View(), path, k, Pool.Crash)
      modifies this
      ensures Valid() && View() == Next(old(View()), Run(path, k, Pool.Crash))
      ensures var id := old(workers)[path].tasks[k].id;
              && StillOwed(View(), path, id) && items[id].fired == 1 && !workers[path].ready
              && workers[path].tasks == [Task(id, Completing)]
    {
      CrashPromise(View(), path, k);
      MarkWorker(path, false);
      HandOver(workers[path].tasks[k].id);
      SetTask(path, k, Completing);
      StepIsValid(old(View()), Run(path, k, Pool.Crash));
    }

    /** One turn of the drain of a quarantined terminal's queue. */
    method DrainOne(path: string, k: nat)
      requires HasTask(View(), path, k)
      requires forall e :: e in workers[path].queue ==> e.id < |items|
      modifies this
      ensures View() == DrainNext(old(View()), path, k)
    {
      var w := workers[path];
      if w.queue == [] {
        workers := workers[path := w.(hardQueued := 0)];
        DropTask(path, k);
        return;
      }
      var i := First(w.queue);
      var entry := w.queue[i];
      workers := workers[path := w.(queue := Without(w.queue, i))];
      HandOver(entry.id);
      SetTask(path, k, Draining(entry.id));
    }

    /**
     What the result handler is through with is complete, was handed over once, and is gone from every terminal; a quarantine
     goes on with the next queued sync, and any other run is over.
     */
    method HandlerReturns(path: string, k: nat)
      requires Valid() && RunEnabled(View(), path, k, HandlerDone)
      modifies this
      ensures Valid() && View() == Next(old(View()), Run(path, k, HandlerDone))
      ensures var id := Grip(old(workers)[path].tasks[k]); Settled(View(), id, Completed) && items[id].fired == 1
      ensures if old(workers)[path].tasks[k].stage.Completing? then path in workers && workers[path].tasks == []
              else DrainsOn(old(View()), View(), path)
    {
      HandlerPromise(View(), path, k);
      SettleHandled(path, k);
      StepIsValid(old(View()), Run(path, k, HandlerDone));
    }

    method SettleHandled(path: string, k: nat)
      requires RunEnabled(View(), path, k, HandlerDone) && Bounded(View(), path)
      modifies this
      ensures View() == HandlerDoneNow(old(View()), path, k)
    {
      var task := workers[path].tasks[k];
      if task.stage.Draining? {
        ResolveItem(task.stage.queued, Completed);
        DrainOne(path, k);
      } else if task.stage.Quarantining? {
        ResolveItem(task.id, Completed);
        DrainOne(path, k);
      } else {
        ResolveItem(task.id, Completed);
        DropTask(path, k);
      }
    }

    // The stop.

    method BeginStop()
      requires Valid() && phase == Serving
      modifies this
      ensures Valid() && View() == Next(old(View()), Stop(Pool.BeginStop))
      ensures View() == old(View()).(phase := Cancelling)
    {
      phase := Cancelling;
      StepIsValid(old(View()), Stop(Pool.BeginStop));
    }

    method TerminateWorkers()
      requires Valid() && StopEnabled(View(), Pool.TerminateWorkers)
      modifies this
      ensures Valid() && View() == Next(old(View()), Stop(Pool.TerminateWorkers))
      ensures View() == old(View()).(phase := Terminating) && forall path :: path in workers ==> workers[path].dispatcher == Ended
    {
      phase := Terminating;
      StepIsValid(old(View()), Stop(Pool.TerminateWorkers));
    }

    /** Every task still queued on a terminal is answered. */
    method DrainTerminal(path: string)
      requires path in workers && Bounded(View(), path) && Consistent(items, pending)
      modifies this
      ensures View() == DrainedAt(old(View()), path)
    {
      ghost var s, done := View(), {};
      ghost var waiting := WaitingIds(workers[path].queue);
      NoneAnswered(items, pending);
      var queue := workers[path].queue;
      while queue != []
        invariant done + WaitingIds(queue) == waiting
        invariant forall e :: e in queue ==> e.id < |s.items|
        invariant View() == Answered(s, done)
        decreases |queue|
      {
        var i := First(queue);
        var id := queue[i].id;
        QueueLoses(queue, i);
        queue := Without(queue, i);
        AnsweredResolves(s, done, id);
        ResolveItem(id, ShutDown);
        done := done + {id};
      }
      workers := workers[path := workers[path].(queue := queue)];
    }

    /** Every queue of the pool is drained, in whatever order. */
    method DrainAll()
      requires AllBounded(View()) && Consistent(items, pending)
      modifies this
      ensures View() == Drained(old(View()), old(workers).Keys)
    {
      ghost var s := View();
      NothingDrained(s);
      var todo := workers.Keys;
      while todo != {}
        invariant todo <= s.workers.Keys
        invariant View() == Drained(s, s.workers.Keys - todo)
        decreases todo
      {
        var path :| path in todo;
        assert Bounded(s, path);
        DrainsOneMore(s, s.workers.Keys - todo, path);
        DrainTerminal(path);
        assert s.workers.Keys - (todo - {path}) == s.workers.Keys - todo + {path};
        todo := todo - {path};
      }
      assert s.workers.Keys - todo == s.workers.Keys;
    }

    /** The queues are drained in whatever order; every future is answered exactly if no run was cut off. */
    method FinishStop(timedOut: bool)
      requires Valid() && StopEnabled(View(), Pool.FinishStop(timedOut))
      modifies this
      ensures Valid() && View() == Next(old(View()), Stop(Pool.FinishStop(timedOut)))
      ensures (forall id: Id :: id < |items| ==> !items[id].Unresolved())
              <==> forall path :: path in old(workers) ==> old(workers)[path].tasks == []
    {
      InvIsConsistent(View());
      StopAnswersAllUnlessCutOff(View(), timedOut);
      DrainAll();
      DrainedIsFinished(old(View()), timedOut);
      items := CutOff(items, workers);
      workers := WithoutTasks(workers);
      phase := Stopped(timedOut);
      StepIsValid(old(View()), Stop(Pool.FinishStop(timedOut)));
    }
  }

  lemma StepIsValid(s: State, step: Step)
    requires Inv(s) && Reachable(s) && Enabled(s, step)
    ensures Inv(Next(s, step)) && Reachable(Next(s, step))
  {
    ReachableOn(s, step);
    ReachableInv(Next(s, step));
  }

  /** Registered futures belong to the account they are registered for. */
  predicate Consistent(items: seq<Item>, pending: map<string, Id>) {
    forall account :: account in pending ==> pending[account] < |items| && items[pending[account]].account == account
  }

  function WaitingIds(queue: seq<Entry>): set<Id> {
    set e | e in queue :: e.id
  }

  /** The open tasks among these are answered that the pool is shutting down. */
  function AnsweredItems(items: seq<Item>, ids: set<Id>): (after: seq<Item>)
    ensures |after| == |items|
  {
    seq(|items|, id requires 0 <= id < |items| =>
      if items[id].outcome == Pending && id in ids then items[id].(outcome := ShutDown) else items[id])
  }

  function AnsweredPending(pending: map<string, Id>, ids: set<Id>): map<string, Id> {
    map account | account in pending && pending[account] !in ids :: pending[account]
  }

  lemma NoneAnswered(items: seq<Item>, pending: map<string, Id>)
    ensures AnsweredItems(items, {}) == items && AnsweredPending(pending, {}) == pending
  {
  }

  lemma AnswersOneMoreItem(items: seq<Item>, done: set<Id>, id: Id)
    requires id < |items|
    ensures var before := AnsweredItems(items, done);
            AnsweredItems(items, done + {id})
              == if before[id].outcome == Pending then before[id := before[id].(outcome := ShutDown)] else before
  {
  }

  lemma ForgetsOneMore(items: seq<Item>, pending: map<string, Id>, done: set<Id>, id: Id)
    requires Consistent(items, pending) && id < |items|
    ensures var before, account := AnsweredPending(pending, done), items[id].account;
            AnsweredPending(pending, done + {id})
              == if account in before && before[account] == id then before - {account} else before
  {
  }

  function Answered(s: State, ids: set<Id>): State {
    s.(items := AnsweredItems(s.items, ids), pending := AnsweredPending(s.pending, ids))
  }

  lemma AnsweredResolves(s: State, done: set<Id>, id: Id)
    requires Consistent(s.items, s.pending) && id < |s.items|
    ensures Resolve(Answered(s, done), id, ShutDown) == Answered(s, done + {id})
  {
    AnswersOneMoreItem(s.items, done, id);
    ForgetsOneMore(s.items, s.pending, done, id);
  }

  // Draining all terminals.

  function WaitingAt(workers: map<string, Worker>, paths: set<string>): set<Id> {
    set path, e | path in paths && path in workers && e in workers[path].queue :: e.id
  }

  function EmptyAt(workers: map<string, Worker>, paths: set<string>): map<string, Worker> {
    map path | path in workers :: if path in paths then workers[path].(queue := []) else workers[path]
  }

  /** The queues of these terminals drained. */
  function Drained(s: State, paths: set<string>): State {
    Answered(s, WaitingAt(s.workers, paths)).(workers := EmptyAt(s.workers, paths))
  }

  lemma NothingDrained(s: State)
    ensures Drained(s, {}) == s
  {
    NoneAnswered(s.items, s.pending);
    assert WaitingAt(s.workers, {}) == {};
    assert EmptyAt(s.workers, {}) == s.workers;
  }

  lemma InvIsConsistent(s: State)
    requires Inv(s)
    ensures Consistent(s.items, s.pending) && AllBounded(s)
  {
    forall account | account in s.pending
      ensures s.pending[account] < |s.items| && s.items[s.pending[account]].account == account {
      assert Registration(s, account);
    }
  }

  lemma AnsweredTwice(items: seq<Item>, pending: map<string, Id>, a: set<Id>, b: set<Id>)
    ensures AnsweredItems(AnsweredItems(items, a), b) == AnsweredItems(items, a + b)
    ensures AnsweredPending(AnsweredPending(pending, a), b) == AnsweredPending(pending, a + b)
    ensures Consistent(items, pending) ==> Consistent(AnsweredItems(items, a), AnsweredPending(pending, a))
  {
  }

  lemma WaitingGrows(workers: map<string, Worker>, paths: set<string>, path: string)
    requires path in workers
    ensures WaitingAt(workers, paths + {path}) == WaitingAt(workers, paths) + WaitingIds(workers[path].queue)
  {
  }

  lemma EmptyGrows(workers: map<string, Worker>, paths: set<string>, path: string)
    requires path in workers
    ensures EmptyAt(workers, paths)[path := workers[path].(queue := [])] == EmptyAt(workers, paths + {path})
  {
  }

  /** What draining one terminal does to a pool. */
  function DrainedAt(s: State, path: string): State
    requires path in s.workers
  {
    Answered(s, WaitingIds(s.workers[path].queue)).(workers := s.workers[path := s.workers[path].(queue := [])])
  }

  lemma DrainsOneMore(s: State, paths: set<string>, path: string)
    requires path in s.workers && path !in paths && Bounded(s, path) && Consistent(s.items, s.pending)
    ensures Bounded(Drained(s, paths), path) && Consistent(Drained(s, paths).items, Drained(s, paths).pending)
    ensures DrainedAt(Drained(s, paths), path) == Drained(s, paths + {path})
  {
    AnsweredTwice(s.items, s.pending, WaitingAt(s.workers, paths), WaitingIds(s.workers[path].queue));
    WaitingGrows(s.workers, paths, path);
    EmptyGrows(s.workers, paths, path);
  }

  /** Tasks that were running when the wait was given up keep an open future that nothing answers. */
  function CutOff(items: seq<Item>, workers: map<string, Worker>): (after: seq<Item>)
    ensures |after| == |items|
  {
    seq(|items|, id requires 0 <= id < |items| =>
      if items[id].outcome == Pending && (exists path | path in workers :: exists task | task in workers[path].tasks :: Grip(task) == id)
      then items[id].(outcome := Lost) else items[id])
  }

  lemma WaitingIsQueued(s: State, id: Id)
    ensures id in WaitingAt(s.workers, s.workers.Keys) <==> QueuedSomewhere(s, id)
  {
    if QueuedSomewhere(s, id) {
      var path :| path in s.workers && Queued(s.workers[path], id);
      var i :| 0 <= i < |s.workers[path].queue| && s.workers[path].queue[i].id == id;
      assert s.workers[path].queue[i] in s.workers[path].queue;
    }
  }

  lemma CutOffIsGripped(s: State, paths: set<string>, id: Id)
    ensures (exists path | path in EmptyAt(s.workers, paths) ::
               exists task | task in EmptyAt(s.workers, paths)[path].tasks :: Grip(task) == id)
       <==> GrippedSomewhere(s, id)
  {
    if GrippedSomewhere(s, id) {
      var path :| path in s.workers && exists k :: 0 <= k < |s.workers[path].tasks| && Grip(s.workers[path].tasks[k]) == id;
      var k :| 0 <= k < |s.workers[path].tasks| && Grip(s.workers[path].tasks[k]) == id;
      assert path in EmptyAt(s.workers, paths) && s.workers[path].tasks[k] in EmptyAt(s.workers, paths)[path].tasks;
    }
  }

  lemma FinishedItem(s: State, timedOut: bool, id: Id)
    requires id < |s.items|
    ensures var d := Drained(s, s.workers.Keys);
            FinishStopNow(s, timedOut).items[id] == CutOff(d.items, d.workers)[id]
  {
    WaitingIsQueued(s, id);
    CutOffIsGripped(s, s.workers.Keys, id);
  }

  lemma DrainedIsFinished(s: State, timedOut: bool)
    ensures var d := Drained(s, s.workers.Keys);
            FinishStopNow(s, timedOut)
            == State(s.maxRetries, s.registry, WithoutTasks(d.workers),
                 CutOff(d.items, d.workers), d.pending, s.sequence, Stopped(timedOut), s.lock)
  {
    var d, t := Drained(s, s.workers.Keys), FinishStopNow(s, timedOut);
    forall id: Id | id < |s.items| { FinishedItem(s, timedOut, id); }
    assert t.items == CutOff(d.items, d.workers);
    forall id { WaitingIsQueued(s, id); }
    assert t.pending == d.pending;
    assert t.workers == WithoutTasks(d.workers);
  }

  function WithoutTasks(workers: map<string, Worker>): map<string, Worker> {
    map path | path in workers :: workers[path].(tasks := [])
  }

  lemma QueueLoses(queue: seq<Entry>, i: nat)
    requires i < |queue|
    ensures WaitingIds(queue) == WaitingIds(Without(queue, i)) + {queue[i].id}
    ensures forall e :: e in Without(queue, i) ==> e in queue
  {
    assert queue == queue[..i] + [queue[i]] + queue[i + 1..];
  }
}
