/** The steps that answer futures keep the invariant. */
module PoolAnswers {
  import opened Pool
  import opened PoolInvariants
  import opened PoolSteps
  import opened PoolRunSteps

  function Settle(a: seq<Item>, id: Id, outcome: Outcome): seq<Item>
    requires id < |a|
  {
    a[id := a[id].(outcome := outcome)]
  }

  lemma SettledItems(a: seq<Item>, id: Id, outcome: Outcome, path: string)
    requires id < |a| && outcome != Pending
    ensures forall other: Id :: Owed(Settle(a, id, outcome), other, path) == (Owed(a, other, path) && other != id)
  {
  }

  lemma SettledQueue(a: seq<Item>, id: Id, outcome: Outcome, queue: seq<Entry>, sequence: nat)
    requires id < |a| && OrderedQueue(a, queue, sequence)
    ensures OrderedQueue(Settle(a, id, outcome), queue, sequence)
  {
  }

  lemma SettledConserved(a: seq<Item>, id: Id, outcome: Outcome, w: Worker, v: Worker, path: string)
    requires Owed(a, id, path) && outcome != Pending && Conserved(a, w, path)
    requires Holdings(w) == Holdings(v) + multiset{id}
    ensures Conserved(Settle(a, id, outcome), v, path)
  {
    SettledItems(a, id, outcome, path);
  }

  // A sync ends on its terminal.

  function Retire(w: Worker): Worker { w.(tasks := []) }

  lemma RetireHoldings(w: Worker)
    requires |w.tasks| == 1
    ensures Holdings(w) == Holdings(Retire(w)) + multiset{Grip(w.tasks[0])}
  {
    HoldingsOfOne(w);
    HoldingsOfOne(Retire(w));
  }

  lemma RetireKeeps(maxRetries: int, a: seq<Item>, w: Worker, path: string, sequence: nat, phase: Phase, outcome: Outcome)
    requires Keeps(maxRetries, a, w, path, sequence, phase) && |w.tasks| == 1
    requires !w.tasks[0].stage.Quarantining? && !w.tasks[0].stage.Draining?
    requires Owed(a, w.tasks[0].id, path) && outcome != Pending
    ensures Keeps(maxRetries, Settle(a, w.tasks[0].id, outcome), Retire(w), path, sequence, phase)
  {
    var id := w.tasks[0].id;
    RetireHoldings(w);
    SettledConserved(a, id, outcome, w, Retire(w), path);
    SettledItems(a, id, outcome, path);
    SettledQueue(a, id, outcome, w.queue, sequence);
    assert forall other: Id :: Unstarted(Retire(w), other) ==> Unstarted(w, other);
    assert FiredOnce(Settle(a, id, outcome), Retire(w), path);
  }

  // A dispatcher is cancelled with or without a task in hand.

  function Halt(w: Worker): Worker { w.(dispatcher := Ended) }

  lemma HaltEmptyKeeps(maxRetries: int, a: seq<Item>, w: Worker, path: string, sequence: nat, phase: Phase)
    requires Keeps(maxRetries, a, w, path, sequence, phase) && phase == Cancelling && !w.dispatcher.Holding?
    ensures Keeps(maxRetries, a, Halt(w), path, sequence, phase)
  {
    assert Holdings(Halt(w)) == Holdings(w);
    assert forall id: Id :: Unstarted(Halt(w), id) ==> Unstarted(w, id);
    assert forall id: Id :: Firing(Halt(w), id) == Firing(w, id);
  }

  lemma HaltHoldingKeeps(maxRetries: int, a: seq<Item>, w: Worker, path: string, sequence: nat, phase: Phase)
    requires Keeps(maxRetries, a, w, path, sequence, phase) && phase == Cancelling && w.dispatcher.Holding?
    requires Owed(a, w.dispatcher.item, path)
    ensures Keeps(maxRetries, Settle(a, w.dispatcher.item, ShutDown), Halt(w), path, sequence, phase)
  {
    var id := w.dispatcher.item;
    assert w.tasks == [];
    assert Holdings(w) == Holdings(Halt(w)) + multiset{id};
    SettledConserved(a, id, ShutDown, w, Halt(w), path);
    SettledItems(a, id, ShutDown, path);
    SettledQueue(a, id, ShutDown, w.queue, sequence);
    assert forall other: Id :: Unstarted(Halt(w), other) ==> Unstarted(w, other);
    assert FiredOnce(Settle(a, id, ShutDown), Halt(w), path);
  }

  // The quarantine drain takes the next task in hand, or ends.

  predicate CanDrain(w: Worker) {
    |w.tasks| == 1 && (w.tasks[0].stage.Quarantining? || w.tasks[0].stage.Draining?)
  }

  function DrainEnd(w: Worker): Worker { w.(tasks := [], hardQueued := 0) }

  lemma DrainEndKeeps(maxRetries: int, a: seq<Item>, w: Worker, path: string, sequence: nat, phase: Phase)
    requires Keeps(maxRetries, a, w, path, sequence, phase) && CanDrain(w) && w.queue == []
    requires Owed(a, Grip(w.tasks[0]), path)
    ensures Keeps(maxRetries, Settle(a, Grip(w.tasks[0]), Completed), DrainEnd(w), path, sequence, phase)
  {
    var id := Grip(w.tasks[0]);
    RetireHoldings(w);
    assert Holdings(DrainEnd(w)) == Holdings(Retire(w));
    SettledConserved(a, id, Completed, w, DrainEnd(w), path);
    SettledItems(a, id, Completed, path);
    assert forall other: Id :: !Unstarted(DrainEnd(w), other);
    assert FiredOnce(Settle(a, id, Completed), DrainEnd(w), path);
  }

  function DrainHand(w: Worker): Worker
    requires w.tasks != [] && w.queue != []
  {
    var i := First(w.queue);
    w.(queue := Without(w.queue, i), tasks := [Task(w.tasks[0].id, Draining(w.queue[i].id))])
  }

  function Fired(a: seq<Item>, id: Id): seq<Item>
    requires id < |a|
  {
    a[id := a[id].(fired := a[id].fired + 1)]
  }

  lemma DrainHandHoldings(w: Worker)
    requires CanDrain(w) && w.queue != []
    ensures Holdings(w) == Holdings(DrainHand(w)) + multiset{Grip(w.tasks[0])}
    ensures forall id: Id :: Unstarted(DrainHand(w), id) ==> Unstarted(w, id)
    ensures Unstarted(w, w.queue[First(w.queue)].id)
  {
    var i := First(w.queue);
    IdsWithout(w.queue, i);
    HoldingsOfOne(w);
    HoldingsOfOne(DrainHand(w));
    forall id: Id | Unstarted(DrainHand(w), id) ensures Unstarted(w, id) {
      QueuedIds(w, id);
      QueuedIds(DrainHand(w), id);
    }
    QueuedIds(w, w.queue[i].id);
    assert w.queue[i].id == w.queue[i].id;
  }

  lemma DrainHandFired(a: seq<Item>, w: Worker, path: string)
    requires CanDrain(w) && w.queue != [] && FiredOnce(a, w, path) && Conserved(a, w, path)
    requires Owed(a, Grip(w.tasks[0]), path)
    ensures var id := w.queue[First(w.queue)].id;
            && Owed(a, id, path) && id != Grip(w.tasks[0]) && a[id].fired == 0
            && FiredOnce(Fired(Settle(a, Grip(w.tasks[0]), Completed), id), DrainHand(w), path)
  {
    var i := First(w.queue);
    var id := w.queue[i].id;
    IdsWithout(w.queue, i);
    HoldingsOfOne(w);
    assert Holdings(w)[id] > 0;
    assert Holdings(w)[Grip(w.tasks[0])] <= 1;
  }

  lemma DrainHandConserved(a: seq<Item>, w: Worker, path: string)
    requires CanDrain(w) && w.queue != [] && FiredOnce(a, w, path) && Conserved(a, w, path)
    requires Owed(a, Grip(w.tasks[0]), path)
    ensures var id := w.queue[First(w.queue)].id;
            id < |a| && Conserved(Fired(Settle(a, Grip(w.tasks[0]), Completed), id), DrainHand(w), path)
  {
    var g := Grip(w.tasks[0]);
    var b := Settle(a, g, Completed);
    DrainHandHoldings(w);
    DrainHandFired(a, w, path);
    SettledConserved(a, g, Completed, w, DrainHand(w), path);
    var id := w.queue[First(w.queue)].id;
    AmendedItems(b, id, b[id].(fired := b[id].fired + 1), path);
  }

  lemma DrainHandOrdered(a: seq<Item>, w: Worker, sequence: nat)
    requires CanDrain(w) && w.queue != [] && Grip(w.tasks[0]) < |a| && OrderedQueue(a, w.queue, sequence)
    ensures var id := w.queue[First(w.queue)].id;
            OrderedQueue(Fired(Settle(a, Grip(w.tasks[0]), Completed), id), DrainHand(w).queue, sequence)
  {
    var i := First(w.queue);
    var b := Settle(a, Grip(w.tasks[0]), Completed);
    SettledQueue(a, Grip(w.tasks[0]), Completed, w.queue, sequence);
    WithoutOrdered(b, w.queue, i, sequence);
    var id := w.queue[i].id;
    AmendedQueue(b, id, b[id].(fired := b[id].fired + 1), Without(w.queue, i), sequence);
  }

  lemma DrainHandBudget(maxRetries: int, a: seq<Item>, w: Worker)
    requires CanDrain(w) && w.queue != [] && Grip(w.tasks[0]) < |a| && Budgeted(maxRetries, a, w)
    requires w.queue[First(w.queue)].id < |a|
    ensures Budgeted(maxRetries, Fired(Settle(a, Grip(w.tasks[0]), Completed), w.queue[First(w.queue)].id), DrainHand(w))
  {
    DrainHandHoldings(w);
  }

  lemma DrainHandKeeps(maxRetries: int, a: seq<Item>, w: Worker, path: string, sequence: nat, phase: Phase)
    requires Keeps(maxRetries, a, w, path, sequence, phase) && CanDrain(w) && w.queue != []
    requires Owed(a, Grip(w.tasks[0]), path)
    ensures var id := w.queue[First(w.queue)].id;
            && id < |a|
            && Keeps(maxRetries, Fired(Settle(a, Grip(w.tasks[0]), Completed), id), DrainHand(w), path, sequence, phase)
  {
    DrainHandConserved(a, w, path);
    DrainHandFired(a, w, path);
    DrainHandOrdered(a, w, sequence);
    DrainHandBudget(maxRetries, a, w);
  }

  // The pool-wide part.

  lemma ItemsLocalChain(a: seq<Item>, b: seq<Item>, c: seq<Item>, path: string)
    requires ItemsLocal(a, b, path) && ItemsLocal(b, c, path)
    ensures ItemsLocal(a, c, path)
  {
  }

  /** Answering a future keeps the dedupe map exact: the future is forgotten if it was the registered one. */
  lemma ResolveGlobal(s: State, id: Id, outcome: Outcome)
    requires ItemsInv(s) && Registered(s) && id < |s.items| && s.items[id].outcome == Pending
    requires outcome == Completed || outcome == ShutDown
    requires s.items[id].fired == if outcome == Completed then 1 else 0
    ensures var t := Resolve(s, id, outcome);
            && t == s.(items := Settle(s.items, id, outcome), pending := t.pending)
            && ItemsInv(t) && Registered(t) && ItemsLocal(s.items, t.items, s.items[id].path)
  {
    var t := Resolve(s, id, outcome);
    forall other: Id | other < |t.items| ensures ItemKept(t, other) && DedupeKept(t, other) {
      assert ItemKept(s, other) && DedupeKept(s, other);
      assert DedupeKept(s, id);
    }
    forall account | account in t.pending ensures Registration(t, account) {
      assert Registration(s, account);
    }
  }

  /** Resolve, then change the terminal and perhaps the counters of another of its tasks. */
  lemma ResolveKeeps(s: State, t: State, path: string, id: Id, outcome: Outcome)
    requires Inv(s) && path in s.workers && path in t.workers
    requires Owed(s.items, id, path)
    requires outcome == Completed || outcome == ShutDown
    requires s.items[id].fired == if outcome == Completed then 1 else 0
    requires t == Resolve(s, id, outcome).(workers := s.workers[path := t.workers[path]])
    requires WorkerInv(t, path)
    ensures Inv(t)
  {
    var u := Resolve(s, id, outcome);
    ResolveGlobal(s, id, outcome);
    SameGlobal(u, t);
    LocalKeeps(s, t, path);
  }

  lemma ResolveFireKeeps(s: State, t: State, path: string, id: Id, next: Id)
    requires Inv(s) && path in s.workers && path in t.workers
    requires Owed(s.items, id, path) && s.items[id].fired == 1
    requires Owed(s.items, next, path) && s.items[next].fired == 0 && next != id
    requires t == Fire(Resolve(s, id, Completed), next).(workers := s.workers[path := t.workers[path]])
    requires WorkerInv(t, path)
    ensures Inv(t)
  {
    var u := Resolve(s, id, Completed);
    ResolveGlobal(s, id, Completed);
    assert ItemKept(u, next);
    AmendGlobal(u, t, path, next);
    ItemsLocalChain(s.items, u.items, t.items, path);
    LocalKeeps(s, t, path);
  }

  // The steps.

  lemma HandIsOwed(s: State, path: string)
    requires path in s.workers && WorkerInv(s, path)
    ensures s.workers[path].tasks != [] ==> Owed(s.items, Grip(s.workers[path].tasks[0]), path)
    ensures s.workers[path].dispatcher.Holding? ==> Owed(s.items, s.workers[path].dispatcher.item, path)
  {
    var w := s.workers[path];
    HoldingsOfOne(w);
    if w.tasks != [] {
      assert Holdings(w)[Grip(w.tasks[0])] > 0;
    }
    if w.dispatcher.Holding? {
      assert Holdings(w)[w.dispatcher.item] > 0;
    }
  }

  lemma HandIsNotFired(s: State, path: string)
    requires path in s.workers && WorkerInv(s, path) && s.workers[path].dispatcher.Holding?
    ensures s.workers[path].dispatcher.item < |s.items| && s.items[s.workers[path].dispatcher.item].fired == 0
  {
    HandIsOwed(s, path);
  }

  lemma CancelKeeps(s: State, path: string)
    requires Inv(s) && path in s.workers && WorkerInv(s, path) && s.phase == Cancelling
    ensures Inv(CancelNow(s, path))
  {
    var w := s.workers[path];
    var t := CancelNow(s, path);
    if w.dispatcher.Holding? {
      HandIsNotFired(s, path);
      HandIsOwed(s, path);
      HaltHoldingKeeps(s.maxRetries, s.items, w, path, s.sequence, s.phase);
      BoundedFromKeeps(t, path);
      ResolveKeeps(s, t, path, w.dispatcher.item, ShutDown);
    } else {
      HaltEmptyKeeps(s.maxRetries, s.items, w, path, s.sequence, s.phase);
      BoundedFromKeeps(t, path);
      QuietKeeps(s, path, Halt(w));
    }
  }

  /** A sync ends on its terminal with its future answered. */
  lemma RetireStep(s: State, path: string, k: nat, outcome: Outcome)
    requires Inv(s) && HasTask(s, path, k) && WorkerInv(s, path)
    requires (outcome == ShutDown && Plain(StageOf(s, path, k))) || (outcome == Completed && StageOf(s, path, k).Completing?)
    ensures s.workers[path].tasks[k].id < |s.items|
    ensures Inv(EndTask(Resolve(s, s.workers[path].tasks[k].id, outcome), path, k))
  {
    var w := s.workers[path];
    var id := w.tasks[k].id;
    HandIsOwed(s, path);
    RetireKeeps(s.maxRetries, s.items, w, path, s.sequence, s.phase, outcome);
    var t := EndTask(Resolve(s, id, outcome), path, k);
    EndTaskShape(Resolve(s, id, outcome), path, k);
    BoundedFromKeeps(t, path);
    ResolveKeeps(s, t, path, id, outcome);
  }
}
