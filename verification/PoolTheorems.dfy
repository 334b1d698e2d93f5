/** The promises of the pool, for every reachable state and every run. */
module PoolTheorems {
  import opened Protocol
  import opened Pool
  import opened PoolInvariants
  import opened PoolAnswers
  import opened PoolSafety
  import opened PoolStop
  import opened PoolRuns

  // Places.

  /** The places of one terminal that a task is in: queue positions, the dispatcher's hand, runs and the drain's hand. */
  ghost function PlacesAt(w: Worker, id: Id): nat {
    |set i | 0 <= i < |w.queue| && w.queue[i].id == id|
    + (if w.dispatcher == Holding(id) then 1 else 0)
    + |set k | 0 <= k < |w.tasks| && Grip(w.tasks[k]) == id|
  }

  lemma OneMore(s: set<int>, x: int)
    requires x !in s
    ensures |s + {x}| == |s| + 1
  {
  }

  lemma {:induction false} QueuePlaces(queue: seq<Entry>, id: Id)
    ensures |set i | 0 <= i < |queue| && queue[i].id == id| == multiset(Ids(queue))[id]
  {
    if queue != [] {
      var front, last := queue[..|queue| - 1], queue[|queue| - 1];
      QueuePlaces(front, id);
      IdsAppend(front, last);
      assert front + [last] == queue;
      var before := set i | 0 <= i < |front| && front[i].id == id;
      var now := set i | 0 <= i < |queue| && queue[i].id == id;
      assert now == before + if last.id == id then {|front|} else {};
    }
  }

  lemma {:induction false} GripPlaces(tasks: seq<Task>, id: Id)
    ensures |set k | 0 <= k < |tasks| && Grip(tasks[k]) == id| == Grips(tasks)[id]
  {
    if tasks != [] {
      var front, last := tasks[..|tasks| - 1], tasks[|tasks| - 1];
      GripPlaces(front, id);
      var before := set k | 0 <= k < |front| && Grip(front[k]) == id;
      var now := set k | 0 <= k < |tasks| && Grip(tasks[k]) == id;
      assert forall k :: 0 <= k < |front| ==> front[k] == tasks[k];
      if Grip(last) == id {
        OneMore(before, |front|);
        assert now == before + {|front|};
      } else {
        assert now == before;
      }
    }
  }

  lemma PlacesAreHoldings(w: Worker, id: Id)
    ensures PlacesAt(w, id) == Holdings(w)[id]
  {
    QueuePlaces(w.queue, id);
    GripPlaces(w.tasks, id);
  }

  /** In every reachable state an open accepted task is in exactly one place, on its own terminal; a settled one is nowhere. */
  lemma EachTaskInOnePlace(s: State, id: Id, path: string)
    requires Reachable(s) && id < |s.items| && path in s.workers
    ensures PlacesAt(s.workers[path], id) ==
            if s.items[id].outcome == Pending && s.items[id].path == path then 1 else 0
    ensures s.items[id].outcome == Pending ==> s.items[id].path in s.workers
  {
    ReachableInv(s);
    assert WorkerInv(s, path) && ItemKept(s, id);
    PlacesAreHoldings(s.workers[path], id);
  }

  /** No terminal runs two tasks at once, and what a terminal runs was pinned to it. */
  lemma OneRunAtATime(s: State, path: string)
    requires Reachable(s) && path in s.workers
    ensures |s.workers[path].tasks| <= 1
    ensures forall k :: 0 <= k < |s.workers[path].tasks| ==>
              var id := Grip(s.workers[path].tasks[k]); id < |s.items| && s.items[id].path == path
  {
    ReachableInv(s);
    assert WorkerInv(s, path);
    HandIsOwed(s, path);
  }

  /** The result handler gets each task at most once: exactly once if it completes, never if a shutdown answers it. */
  lemma HandlerOncePerTask(s: State, id: Id)
    requires Reachable(s) && id < |s.items|
    ensures s.items[id].fired <= 1
    ensures s.items[id].outcome == Completed ==> s.items[id].fired == 1
    ensures s.items[id].outcome == ShutDown || s.items[id].outcome == Refused ==> s.items[id].fired == 0
  {
    ReachableInv(s);
    assert ItemKept(s, id);
  }

  // The dedupe map.

  predicate OpenDedupe(s: State, id: Id) {
    id < |s.items| && s.items[id].dedupe && s.items[id].Unresolved()
  }

  /** At most one deduplicated task per account is open, and it is the registered one; registered futures are open. */
  lemma DedupeIsExact(s: State)
    requires Reachable(s)
    ensures forall account :: account in s.pending ==>
              && s.pending[account] < |s.items|
              && s.items[s.pending[account]].account == account
              && s.items[s.pending[account]].Unresolved()
    ensures forall i: Id, j: Id :: OpenDedupe(s, i) && OpenDedupe(s, j) ==>
              (s.items[i].account == s.items[j].account <==> i == j)
    ensures forall i: Id :: OpenDedupe(s, i) ==>
              s.items[i].account in s.pending && s.pending[s.items[i].account] == i
  {
    ReachableInv(s);
    forall account | account in s.pending
      ensures s.pending[account] < |s.items| && s.items[s.pending[account]].account == account
      ensures s.items[s.pending[account]].Unresolved()
    {
      assert Registration(s, account);
    }
    forall i: Id | OpenDedupe(s, i) ensures s.items[i].account in s.pending && s.pending[s.items[i].account] == i {
      assert DedupeKept(s, i);
    }
  }

  /** A deduplicated request while another is open submits nothing. */
  lemma DedupedRequestJoins(s: State, id: Id, kind: SyncKind)
    requires Reachable(s) && s.lock == Free
    requires id < |s.items| && s.items[id].dedupe && s.items[id].Unresolved()
    ensures AfterRequest(s, BeginRequest(s.items[id].account, kind, true)) == s
    ensures s.items[id].account in s.pending && s.pending[s.items[id].account] == id
  {
    ReachableInv(s);
    assert DedupeKept(s, id);
  }

  // Retries.

  /** The counters account for every run, so a task runs at most three times more than its retries, whatever the workers answer. */
  lemma RunsAreBounded(s: State, id: Id)
    requires Reachable(s) && id < |s.items|
    ensures var item := s.items[id];
            && item.runs == item.attempts + item.replacements + item.rotations
            && item.runs <= (if item.kind == Initial || s.maxRetries < 0 then 0 else s.maxRetries) + 3
  {
    ReachableInv(s);
    assert ItemKept(s, id);
  }

  // Quarantine.

  /** A terminal out of use holds nothing once its drain has ended. */
  lemma QuarantinedTerminalIsEmpty(s: State, path: string)
    requires Reachable(s) && path in s.workers
    requires !s.workers[path].health.Usable() && !InQuarantine(s.workers[path])
    ensures s.workers[path].queue == [] && s.workers[path].tasks == [] && !s.workers[path].dispatcher.Holding?
  {
    ReachableInv(s);
    assert WorkerInv(s, path);
  }

  /** The reported number of waiting hard syncs is exact before closing and outside a drain. */
  lemma HardQueuedIsExact(s: State, path: string)
    requires Reachable(s) && path in s.workers && s.phase == Serving && !InQuarantine(s.workers[path])
    ensures Bounded(s, path)
    ensures var w := s.workers[path];
            w.hardQueued == |set i | 0 <= i < |w.queue| && s.items[w.queue[i].id].kind != Scheduled|
                            + if w.dispatcher.Holding? && s.items[w.dispatcher.item].kind != Scheduled then 1 else 0
  {
    ReachableInv(s);
    assert WorkerInv(s, path);
    CountHardPlaces(s.items, s.workers[path].queue, s.sequence);
    HandIsOwed(s, path);
  }

  lemma {:induction false} CountHardPlaces(items: seq<Item>, queue: seq<Entry>, sequence: nat)
    requires OrderedQueue(items, queue, sequence)
    ensures forall i :: 0 <= i < |queue| ==> queue[i].id < |items|
    ensures CountHard(queue) == |HardPlaces(items, queue)|
  {
    if queue != [] {
      var front, last := queue[..|queue| - 1], queue[|queue| - 1];
      CountHardPlaces(items, front, sequence);
      HardPlacesGrow(items, front, last);
      assert queue == front + [last];
    }
  }

  function HardPlaces(items: seq<Item>, queue: seq<Entry>): set<int>
    requires forall i :: 0 <= i < |queue| ==> queue[i].id < |items|
  {
    set i | 0 <= i < |queue| && items[queue[i].id].kind != Scheduled
  }

  lemma HardPlacesGrow(items: seq<Item>, front: seq<Entry>, last: Entry)
    requires last.id < |items| && forall i :: 0 <= i < |front| ==> front[i].id < |items|
    ensures |HardPlaces(items, front + [last])|
         == |HardPlaces(items, front)| + if items[last.id].kind != Scheduled then 1 else 0
  {
    var before, queue := HardPlaces(items, front), front + [last];
    assert HardPlaces(items, queue) == before + if items[last.id].kind != Scheduled then {|front|} else {};
    OneMore(before, |front|);
  }

  // Shutdown.

  /** A stop whose drain did not time out has answered every future ever returned. */
  lemma StopAnswersEveryFuture(s: State, id: Id)
    requires Reachable(s) && s.phase == Stopped(false) && id < |s.items|
    ensures !s.items[id].Unresolved()
  {
    ReachableInv(s);
    assert ItemKept(s, id);
    var path := s.items[id].path;
    if path in s.workers {
      assert WorkerInv(s, path);
      HoldingsOfOne(s.workers[path]);
      assert Holdings(s.workers[path])[id] == 0;
    }
  }

  /** Exactly: the end of a stop leaves a future open if and only if it cuts a running task off. */
  lemma StopAnswersAllUnlessCutOff(s: State, timedOut: bool)
    requires Reachable(s) && StopEnabled(s, FinishStop(timedOut))
    ensures (forall id: Id :: id < |s.items| ==> !FinishStopNow(s, timedOut).items[id].Unresolved())
            <==> forall path :: path in s.workers ==> s.workers[path].tasks == []
  {
    ReachableInv(s);
    var t := FinishStopNow(s, timedOut);
    if forall path :: path in s.workers ==> s.workers[path].tasks == [] {
      forall id: Id | id < |s.items| ensures !t.items[id].Unresolved() {
        FinishStopItem(s, false, id);
        assert ItemKept(s, id);
        assert t.items[id] == FinishStopNow(s, false).items[id];
        assert !GrippedSomewhere(s, id);
      }
    } else {
      var path :| path in s.workers && s.workers[path].tasks != [];
      assert WorkerInv(s, path);
      HandIsOwed(s, path);
      var id := Grip(s.workers[path].tasks[0]);
      FinishStopItem(s, timedOut, id);
      if QueuedSomewhere(s, id) {
        var other :| other in s.workers && Queued(s.workers[other], id);
        assert WorkerInv(s, other);
        QueuedIsOwed(s, other, id);
      }
      assert t.items[id].Unresolved();
    }
  }

  /** A submission that arrives once the pool is closing, or for a terminal out of use, is answered at once. */
  lemma LateSubmitIsAnswered(s: State, path: string, server: string)
    requires Reachable(s) && s.lock.Held? && path in s.workers
    ensures var t := SubmitNow(s, path, server);
            && |t.items| == |s.items| + 1
            && t.items[..|s.items|] == s.items
            && (t.items[|s.items|].Unresolved() <==> !s.Closing() && s.workers[path].health.Usable())
            && (t.items[|s.items|].Unresolved() ==> PlacesAt(t.workers[path], |s.items|) == 1)
            && (!t.items[|s.items|].Unresolved() ==> t.workers == s.workers && t.pending == s.pending)
  {
    ReachableInv(s);
    assert WorkerInv(s, path);
    var t := SubmitNow(s, path, server);
    SubmitOwn(s, path, server);
    if t.items[|s.items|].Unresolved() {
      assert Owed(t.items, |s.items|, path);
      PlacesAreHoldings(t.workers[path], |s.items|);
    }
  }
}
