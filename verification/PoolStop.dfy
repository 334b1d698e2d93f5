/** Stopping the pool: what its steps keep, and who is still answered. */
module PoolStop {
  import opened Pool
  import opened PoolInvariants
  import opened PoolSteps
  import opened PoolAnswers

  lemma PhaseKeeps(s: State, phase: Phase)
    requires Inv(s) && !s.phase.Stopped? && !phase.Stopped?
    requires phase == Serving ==> s.phase == Serving
    requires phase == Terminating ==> forall path :: path in s.workers ==> s.workers[path].dispatcher == Ended
    requires s.phase == Terminating ==> phase == Terminating
    ensures Inv(s.(phase := phase))
  {
    var t := s.(phase := phase);
    SameGlobal(s, t);
    forall path | path in t.workers ensures WorkerInv(t, path) && Bounded(t, path) {
      assert WorkerInv(s, path);
      PhaseOwn(s, path, phase);
    }
  }

  lemma PhaseOwn(s: State, path: string, phase: Phase)
    requires path in s.workers && WorkerInv(s, path) && !phase.Stopped?
    requires phase == Serving ==> s.phase == Serving
    requires phase == Terminating ==> s.workers[path].dispatcher == Ended
    requires s.phase == Terminating ==> phase == Terminating
    ensures WorkerInv(s.(phase := phase), path)
  {
  }

  // The end of a stop.

  /** A queued task is owed on its own terminal, and nobody has handed its result over. */
  lemma QueuedIsOwed(s: State, path: string, id: Id)
    requires path in s.workers && WorkerInv(s, path) && Queued(s.workers[path], id)
    ensures Owed(s.items, id, path) && s.items[id].fired == 0
    ensures s.workers[path].tasks != [] ==> Grip(s.workers[path].tasks[0]) != id
  {
    var w := s.workers[path];
    QueuedIds(w, id);
    HoldingsOfOne(w);
    assert Holdings(w)[id] == 1;
  }

  /** Once the dispatchers have ended, an owed task is queued or in the grip of a running task. */
  lemma OwedIsSomewhere(s: State, path: string, id: Id)
    requires path in s.workers && WorkerInv(s, path) && s.workers[path].dispatcher == Ended
    requires Owed(s.items, id, path)
    ensures Queued(s.workers[path], id) || (s.workers[path].tasks != [] && Grip(s.workers[path].tasks[0]) == id)
  {
    var w := s.workers[path];
    QueuedIds(w, id);
    HoldingsOfOne(w);
    assert Holdings(w)[id] == 1;
  }

  /** Once the workers are gone an open task is queued or about to be cut off, and only a queued one is still answered. */
  lemma OpenAtStop(s: State, timedOut: bool, id: Id)
    requires Inv(s) && s.phase == Terminating && id < |s.items| && s.items[id].outcome == Pending
    requires timedOut || forall path :: path in s.workers ==> s.workers[path].tasks == []
    ensures QueuedSomewhere(s, id) || (timedOut && GrippedSomewhere(s, id))
    ensures QueuedSomewhere(s, id) ==> s.items[id].fired == 0
  {
    assert ItemKept(s, id);
    var at := s.items[id].path;
    assert WorkerInv(s, at);
    OwedIsSomewhere(s, at, id);
    if QueuedSomewhere(s, id) {
      var path :| path in s.workers && Queued(s.workers[path], id);
      assert WorkerInv(s, path);
      QueuedIsOwed(s, path, id);
    } else {
      assert !Queued(s.workers[at], id);
      assert s.workers[at].tasks != [] && Grip(s.workers[at].tasks[0]) == id;
    }
  }

  /** What the end of a stop does to one task. */
  lemma FinishStopItem(s: State, timedOut: bool, id: Id)
    requires Inv(s) && s.phase == Terminating && id < |s.items|
    requires timedOut || forall path :: path in s.workers ==> s.workers[path].tasks == []
    ensures var t := FinishStopNow(s, timedOut);
            && t.items[id].outcome != Pending
            && t.items[id] == s.items[id].(outcome := t.items[id].outcome)
            && ItemKept(t, id)
            && (s.items[id].outcome == Pending ==>
                  (t.items[id].outcome == ShutDown <==> QueuedSomewhere(s, id))
                  && (t.items[id].outcome == Lost <==> !QueuedSomewhere(s, id)))
            && (s.items[id].outcome != Pending ==> t.items[id] == s.items[id])
  {
    assert ItemKept(s, id);
    if s.items[id].outcome == Pending {
      OpenAtStop(s, timedOut, id);
    }
  }

  lemma FinishStopOwn(s: State, t: State, timedOut: bool, path: string)
    requires path in s.workers && WorkerInv(s, path) && s.workers[path].dispatcher == Ended
    requires path in t.workers && t.workers[path] == s.workers[path].(queue := [], tasks := [])
    requires t.phase == Stopped(timedOut) && forall id: Id :: id < |t.items| ==> t.items[id].outcome != Pending
    ensures WorkerInv(t, path)
  {
    var v := t.workers[path];
    HoldingsOfOne(v);
    assert Holdings(v) == multiset{};
    assert forall id: Id :: !Unstarted(v, id);
  }

  lemma FinishStopRegistered(s: State, timedOut: bool)
    requires Inv(s) && s.phase == Terminating
    requires timedOut || forall path :: path in s.workers ==> s.workers[path].tasks == []
    ensures Registered(FinishStopNow(s, timedOut))
  {
    var t := FinishStopNow(s, timedOut);
    forall account | account in t.pending ensures Registration(t, account) {
      assert Registration(s, account);
      FinishStopItem(s, timedOut, s.pending[account]);
    }
    forall id: Id | id < |t.items| ensures DedupeKept(t, id) {
      assert DedupeKept(s, id) && ItemKept(s, id);
      FinishStopItem(s, timedOut, id);
    }
  }

  lemma FinishStopKeeps(s: State, timedOut: bool)
    requires Inv(s) && s.phase == Terminating
    requires timedOut || forall path :: path in s.workers ==> s.workers[path].tasks == []
    ensures Inv(FinishStopNow(s, timedOut))
  {
    var t := FinishStopNow(s, timedOut);
    FinishStopRegistered(s, timedOut);
    forall id: Id | id < |t.items| ensures ItemKept(t, id) && t.items[id].outcome != Pending {
      FinishStopItem(s, timedOut, id);
    }
    forall path | path in t.workers ensures WorkerInv(t, path) && Bounded(t, path) {
      assert WorkerInv(s, path);
      FinishStopOwn(s, t, timedOut, path);
    }
  }

  lemma StopKeeps(s: State, step: StopStep)
    requires Inv(s) && StopEnabled(s, step)
    ensures Inv(AfterStop(s, step))
  {
    match step {
      case BeginStop => PhaseKeeps(s, Cancelling);
      case CancelDispatcher(path) =>
        assert WorkerInv(s, path);
        CancelKeeps(s, path);
      case TerminateWorkers => PhaseKeeps(s, Terminating);
      case FinishStop(timedOut) => FinishStopKeeps(s, timedOut);
    }
  }
}
