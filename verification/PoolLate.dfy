/** A run in which a result is still to be handed over when the pool closes. */
module PoolLate {
  import opened Protocol
  import opened Pool
  import opened PoolRuns
  import opened PoolShutdown
  import HealthSpec

  /** The worker's terminal was lost under an initial sync, which is not retried. */
  const LOST := SyncResult(false, None, true, false, None)

  function Sync(attempts: nat): Item {
    Item("account", Initial, "server", "terminal", false, attempts, 0, 0, attempts, 0, Pending)
  }

  function Only(queue: seq<Entry>, hardQueued: int, dispatcher: Dispatcher, tasks: seq<Task>): map<string, Worker> {
    map["terminal" := Worker(queue, hardQueued, true, dispatcher, tasks, HealthSpec.FRESH)]
  }

  function Accepted(workers: map<string, Worker>, attempts: nat, phase: Phase): State {
    State(0, false, workers, [Sync(attempts)], map["account" := 0], 1, phase, Free)
  }

  lemma SubmitStep()
    ensures SubmitNow(State(0, false, Only([], 0, AwaitReady, []), [], map[], 0, Serving, Held("account", Initial, false)),
                      "terminal", "server")
         == Accepted(Only([Entry(0, 0, 0)], 1, AwaitReady, []), 0, Serving)
  {
    var s := State(0, false, Only([], 0, AwaitReady, []), [], map[], 0, Serving, Held("account", Initial, false));
    var t := SubmitNow(s, "terminal", "server");
    assert [] + [Entry(0, 0, 0)] == [Entry(0, 0, 0)] && [] + [Sync(0)] == [Sync(0)];
    assert t.items == [Sync(0)];
    assert t.workers["terminal"] == Only([Entry(0, 0, 0)], 1, AwaitReady, [])["terminal"];
  }

  lemma Submitted()
    ensures Reachable(Accepted(Only([Entry(0, 0, 0)], 1, AwaitReady, []), 0, Serving))
  {
    var s0 := State(0, false, Only([], 0, AwaitReady, []), [], map[], 0, Serving, Free);
    assert Started(s0) && Feasible(s0, []) && After(s0, []) == s0;
    assert Reachable(s0);
    ReachableOn(s0, Request(BeginRequest("account", Initial, false)));
    ReachableOn(s0.(lock := Held("account", Initial, false)), Request(Submit("terminal", "server")));
    SubmitStep();
  }

  lemma TakeStep(w: Worker)
    requires w.queue == [Entry(0, 0, 0)]
    ensures Take(w) == w.(queue := [], dispatcher := Holding(0))
  {
    assert First(w.queue) == 0;
    assert Without(w.queue, 0) == [];
  }

  lemma LaunchStep(w: Worker)
    requires w.queue == [] && w.hardQueued == 1 && w.dispatcher == Holding(0) && w.tasks == []
    ensures Launch(w, [Sync(0)]) == w.(hardQueued := 0, dispatcher := AwaitTask(0), tasks := [Task(0, Created)])
  {
    assert [] + [Task(0, Created)] == [Task(0, Created)];
  }

  lemma OnlyPut(w: Worker, v: Worker)
    ensures map["terminal" := w]["terminal" := v] == map["terminal" := v]
  {
  }

  lemma Dispatched()
    ensures Reachable(Accepted(Only([], 0, AwaitTask(0), [Task(0, Created)]), 0, Serving))
  {
    Submitted();
    var s1 := Accepted(Only([Entry(0, 0, 0)], 1, AwaitReady, []), 0, Serving);
    var s2 := Accepted(Only([Entry(0, 0, 0)], 1, AwaitItem, []), 0, Serving);
    var s3 := Accepted(Only([], 1, Holding(0), []), 0, Serving);
    var s4 := Accepted(Only([], 0, AwaitTask(0), [Task(0, Created)]), 0, Serving);
    OnlyPut(s1.workers["terminal"], s2.workers["terminal"]);
    OnlyPut(s2.workers["terminal"], s3.workers["terminal"]);
    OnlyPut(s3.workers["terminal"], s4.workers["terminal"]);
    ReachableOn(s1, Dispatch("terminal", TakeReady));
    TakeStep(s2.workers["terminal"]);
    ReachableOn(s2, Dispatch("terminal", TakeItem));
    LaunchStep(s3.workers["terminal"]);
    ReachableOn(s3, Dispatch("terminal", StartItem));
  }

  lemma StageStep(w: Worker, stage: Stage, next: Stage)
    requires w.tasks == [Task(0, stage)]
    ensures w.(tasks := w.tasks[0 := w.tasks[0].(stage := next)]) == w.(tasks := [Task(0, next)])
  {
  }

  lemma LostIsNoStrike()
    ensures HealthSpec.Record(HealthSpec.FRESH, 0, false, "server", LOST) == HealthSpec.FRESH
  {
  }

  lemma Claimed()
    ensures Reachable(Accepted(Only([], 0, AwaitTask(0), [Task(0, Talking)]), 1, Serving))
  {
    Dispatched();
    var s1 := Accepted(Only([], 0, AwaitTask(0), [Task(0, Created)]), 0, Serving);
    var s2 := Accepted(Only([], 0, AwaitTask(0), [Task(0, Talking)]), 1, Serving);
    OnlyPut(s1.workers["terminal"], s2.workers["terminal"]);
    StageStep(s1.workers["terminal"], Created, Talking);
    ReachableOn(s1, Run("terminal", 0, StartTask));
    assert [Sync(0)][0 := Sync(1)] == [Sync(1)];
  }

  lemma Closed()
    ensures Reachable(Accepted(Only([], 0, AwaitTask(0), [Task(0, Restarting(LOST))]), 1, Cancelling))
  {
    Claimed();
    var s2 := Accepted(Only([], 0, AwaitTask(0), [Task(0, Talking)]), 1, Serving);
    var s3 := Accepted(Only([], 0, AwaitTask(0), [Task(0, Restarting(LOST))]), 1, Serving);
    OnlyPut(s2.workers["terminal"], s2.workers["terminal"]);
    OnlyPut(s2.workers["terminal"], s3.workers["terminal"]);
    StageStep(s2.workers["terminal"], Talking, Restarting(LOST));
    LostIsNoStrike();
    ReachableOn(s2, Run("terminal", 0, Answer(Some(LOST), 0, false)));
    assert Recorded(s2, "terminal", 0, LOST, false, HealthSpec.FRESH) == s3;
    ReachableOn(s3, Stop(BeginStop));
  }

  /** The documentation's promise that nothing writes after a shutdown has begun fails on this run. */
  lemma ALateResultIsHandedOver()
    ensures exists s, path :: Reachable(s) && s.Closing() && path in s.workers && CanHandOverUncrashed(s, path)
  {
    Closed();
    var s := Accepted(Only([], 0, AwaitTask(0), [Task(0, Restarting(LOST))]), 1, Cancelling);
    assert WillHandOver(s.maxRetries, s.items, s.workers["terminal"]);
    SilentWithoutCrash(s, "terminal");
  }

  /** A crash hands over what is not even past the test of the closing flag; without one this terminal would stay silent. */
  lemma ACrashHandsOver()
    ensures exists s, path :: Reachable(s) && s.Closing() && path in s.workers
                              && CanHandOver(s, path) && !CanHandOverUncrashed(s, path)
  {
    Claimed();
    var s := Accepted(Only([], 0, AwaitTask(0), [Task(0, Talking)]), 1, Serving);
    ReachableOn(s, Stop(BeginStop));
    var t := s.(phase := Cancelling);
    SilentOnceClosing(t, "terminal");
    SilentWithoutCrash(t, "terminal");
  }

  lemma Cut()
    ensures Reachable(Accepted(Only([], 0, Ended, [Task(0, Restarting(LOST))]), 1, Terminating))
  {
    Closed();
    var s1 := Accepted(Only([], 0, AwaitTask(0), [Task(0, Restarting(LOST))]), 1, Cancelling);
    var s2 := Accepted(Only([], 0, Ended, [Task(0, Restarting(LOST))]), 1, Cancelling);
    OnlyPut(s1.workers["terminal"], s2.workers["terminal"]);
    ReachableOn(s1, Stop(CancelDispatcher("terminal")));
    ReachableOn(s2, Stop(TerminateWorkers));
  }

  /** A stop that gives up its wait leaves the future of the sync it cuts off open for good, and still registered. */
  lemma AFutureIsLeftOpen()
    ensures exists s, id: Id :: Reachable(s) && s.phase == Stopped(true) && id < |s.items|
                                && s.items[id].outcome == Lost && id in s.pending.Values
  {
    Cut();
    var s := Accepted(Only([], 0, Ended, [Task(0, Restarting(LOST))]), 1, Terminating);
    ReachableOn(s, Stop(FinishStop(true)));
    var t := FinishStopNow(s, true);
    assert Grip(s.workers["terminal"].tasks[0]) == 0;
    assert GrippedSomewhere(s, 0);
    assert !QueuedSomewhere(s, 0);
    assert t.items[0].outcome == Lost;
    assert t.pending["account"] == 0;
  }
}
