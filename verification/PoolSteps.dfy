/** Every step of the pool keeps the invariant. */
module PoolSteps {
  import opened Pool
  import opened PoolInvariants
  import HealthSpec

  // A step of one terminal leaves the other terminals, and the tasks pinned to them, alone.

  ghost predicate ItemsLocal(a: seq<Item>, b: seq<Item>, path: string) {
    && |a| <= |b|
    && (forall id: Id :: id < |a| && a[id].path != path ==> b[id] == a[id])
    && (forall id: Id :: |a| <= id < |b| ==> b[id].path == path || b[id].outcome == Refused)
    && (forall id: Id :: id < |a| ==> b[id].path == a[id].path && b[id].kind == a[id].kind)
  }

  ghost predicate LocalStep(s: State, t: State, path: string) {
    && path in s.workers && path in t.workers
    && t.workers == s.workers[path := t.workers[path]]
    && ItemsLocal(s.items, t.items, path)
    && s.sequence <= t.sequence && t.phase == s.phase && t.maxRetries == s.maxRetries
  }

  lemma OtherConserved(a: seq<Item>, b: seq<Item>, path: string, w: Worker, other: string)
    requires ItemsLocal(a, b, path) && other != path && Conserved(a, w, other)
    ensures Conserved(b, w, other)
    ensures forall id: Id :: Owed(b, id, other) == Owed(a, id, other)
  {
    forall id: Id ensures Owed(b, id, other) == Owed(a, id, other) {
    }
  }

  lemma UnstartedIsOwed(s: State, path: string, id: Id)
    requires path in s.workers && WorkerInv(s, path) && Unstarted(s.workers[path], id)
    ensures Owed(s.items, id, path)
  {
    HoldingsOfOne(s.workers[path]);
    QueuedIds(s.workers[path], id);
    assert Holdings(s.workers[path])[id] > 0;
  }

  lemma OtherBudgeted(s: State, t: State, path: string, other: string)
    requires LocalStep(s, t, path) && other in s.workers && other != path && WorkerInv(s, other)
    ensures Budgeted(t.maxRetries, t.items, t.workers[other])
  {
    forall id: Id | id < |t.items| && Unstarted(t.workers[other], id)
      ensures t.items[id].attempts <= Cap(t.maxRetries, t.items[id])
    {
      UnstartedIsOwed(s, other, id);
    }
  }

  lemma OtherOrdered(s: State, t: State, path: string, other: string)
    requires LocalStep(s, t, path) && other in s.workers && other != path && WorkerInv(s, other)
    ensures OrderedQueue(t.items, t.workers[other].queue, t.sequence)
    ensures HardCounted(t.items, t.workers[other], t.phase)
    ensures Bounded(t, other)
  {
  }

  lemma OtherTerminal(s: State, t: State, path: string, other: string)
    requires LocalStep(s, t, path) && other in s.workers && other != path && WorkerInv(s, other)
    ensures WorkerInv(t, other)
  {
    assert t.workers[other] == s.workers[other];
    OtherConserved(s.items, t.items, path, s.workers[other], other);
    OtherBudgeted(s, t, path, other);
    OtherOrdered(s, t, path, other);
  }

  /** A step of one terminal keeps the invariant of all of them if it keeps its own. */
  lemma LocalKeeps(s: State, t: State, path: string)
    requires Inv(s) && LocalStep(s, t, path) && WorkerInv(t, path)
    requires ItemsInv(t) && Registered(t)
    ensures Inv(t)
  {
    forall other | other in t.workers ensures WorkerInv(t, other) {
      if other != path {
        assert WorkerInv(s, other);
        OtherTerminal(s, t, path, other);
      }
    }
  }

  /** The pool-wide part of the invariant looks at the tasks, the dedupe map and the lock only. */
  lemma SameGlobal(s: State, t: State)
    requires ItemsInv(s) && Registered(s)
    requires t.items == s.items && t.pending == s.pending && t.lock == s.lock && t.maxRetries == s.maxRetries
    requires t.workers.Keys == s.workers.Keys && (s.phase.Stopped? ==> t.phase == s.phase)
    ensures ItemsInv(t) && Registered(t)
  {
    forall id: Id | id < |t.items| ensures ItemKept(t, id) && DedupeKept(t, id) {
      assert ItemKept(s, id) && DedupeKept(s, id);
    }
    forall account | account in t.pending ensures Registration(t, account) {
      assert Registration(s, account);
    }
  }

  /** A step of one terminal that touches no task. */
  lemma QuietKeeps(s: State, path: string, w: Worker)
    requires Inv(s) && path in s.workers && WorkerInv(Put(s, path, w), path)
    ensures Inv(Put(s, path, w))
  {
    SameGlobal(s, Put(s, path, w));
    LocalKeeps(s, Put(s, path, w), path);
  }

  lemma BoundedFromKeeps(s: State, path: string)
    requires path in s.workers
    requires Conserved(s.items, s.workers[path], path) && Serial(s.workers[path], s.phase)
    requires OrderedQueue(s.items, s.workers[path].queue, s.sequence)
    requires s.workers[path].tasks != [] ==> s.workers[path].tasks[0].id < |s.items|
    ensures Bounded(s, path)
  {
    var w := s.workers[path];
    HoldingsOfOne(w);
    if w.dispatcher.Holding? {
      assert Holdings(w)[w.dispatcher.item] > 0;
    }
    if w.tasks != [] {
      assert Holdings(w)[Grip(w.tasks[0])] > 0;
    }
  }

  // The reaper.

  lemma ReapKeeps(s: State, path: string, step: ReaperStep)
    requires Inv(s) && ReapEnabled(s, path, step)
    ensures Inv(AfterReap(s, path, step))
  {
    assert WorkerInv(s, path);
    ReapOwn(s, path, step);
    QuietKeeps(s, path, AfterReap(s, path, step).workers[path]);
  }

  lemma ReapOwn(s: State, path: string, step: ReaperStep)
    requires ReapEnabled(s, path, step) && WorkerInv(s, path)
    ensures WorkerInv(AfterReap(s, path, step), path)
    ensures AfterReap(s, path, step) == Put(s, path, AfterReap(s, path, step).workers[path])
  {
    var v := AfterReap(s, path, step).workers[path];
    IdleKeeps(s.maxRetries, s.items, s.workers[path], v.ready, v.health, path, s.sequence, s.phase);
  }

  /** Readiness changes freely, and health as long as it does not take a usable terminal out of use. */
  lemma IdleKeeps(maxRetries: int, items: seq<Item>, w: Worker, ready: bool, health: HealthSpec.Health,
                  path: string, sequence: nat, phase: Phase)
    requires Keeps(maxRetries, items, w, path, sequence, phase)
    requires w.health.Usable() ==> health.Usable()
    ensures Keeps(maxRetries, items, w.(ready := ready, health := health), path, sequence, phase)
  {
    var v := w.(ready := ready, health := health);
    assert Holdings(v) == Holdings(w);
    assert forall id: Id :: Unstarted(v, id) == Unstarted(w, id);
    assert forall id: Id :: Firing(v, id) == Firing(w, id);
  }

  // The dispatcher.

  lemma DispatchKeeps(s: State, path: string, step: DispatchStep)
    requires Inv(s) && DispatchEnabled(s, path, step)
    ensures Inv(AfterDispatch(s, path, step))
  {
    assert WorkerInv(s, path);
    DispatchOwn(s, path, step);
    QuietKeeps(s, path, AfterDispatch(s, path, step).workers[path]);
  }

  lemma DispatchOwn(s: State, path: string, step: DispatchStep)
    requires DispatchEnabled(s, path, step) && WorkerInv(s, path)
    ensures WorkerInv(AfterDispatch(s, path, step), path)
    ensures AfterDispatch(s, path, step) == Put(s, path, AfterDispatch(s, path, step).workers[path])
  {
    DispatchMoves(s, path, step);
    BoundedFromKeeps(AfterDispatch(s, path, step), path);
  }

  lemma DispatchMoves(s: State, path: string, step: DispatchStep)
    requires DispatchEnabled(s, path, step) && WorkerInv(s, path)
    ensures var v := AfterDispatch(s, path, step).workers[path];
            && Keeps(s.maxRetries, s.items, v, path, s.sequence, s.phase)
            && (v.tasks != [] ==> v.tasks[0].id < |s.items|)
  {
    var w := s.workers[path];
    match step {
      case TakeReady => MoveKeeps(s.maxRetries, s.items, w, AwaitItem, path, s.sequence, s.phase);
      case TakeItem => TakeKeeps(s.maxRetries, s.items, w, path, s.sequence, s.phase);
      case StartItem => LaunchKeeps(s.maxRetries, s.items, w, path, s.sequence, s.phase);
      case ResumeLoop =>
        MoveKeeps(s.maxRetries, s.items, w, if s.Closing() then Ended else AwaitReady, path, s.sequence, s.phase);
    }
  }

  /** A dispatcher without a task in hand may move on while no task runs. */
  lemma MoveKeeps(maxRetries: int, items: seq<Item>, w: Worker, d: Dispatcher, path: string, sequence: nat, phase: Phase)
    requires Keeps(maxRetries, items, w, path, sequence, phase)
    requires !w.dispatcher.Holding? && !d.Holding? && w.dispatcher != Ended
    requires w.dispatcher.AwaitTask? ==> !TaskRunning(w, w.dispatcher.item)
    requires d == Ended ==> phase != Serving
    ensures Keeps(maxRetries, items, w.(dispatcher := d), path, sequence, phase)
  {
    var v := w.(dispatcher := d);
    assert w.tasks == [];
    assert Holdings(v) == Holdings(w);
    assert forall id: Id :: Unstarted(v, id) == Unstarted(w, id);
    assert forall id: Id :: Firing(v, id) == Firing(w, id);
  }

  lemma TakeKeeps(maxRetries: int, items: seq<Item>, w: Worker, path: string, sequence: nat, phase: Phase)
    requires Keeps(maxRetries, items, w, path, sequence, phase)
    requires w.queue != [] && w.dispatcher == AwaitItem
    ensures Keeps(maxRetries, items, Take(w), path, sequence, phase)
  {
    TakeHoldings(w);
    assert forall id: Id :: Firing(Take(w), id) == Firing(w, id);
    WithoutOrdered(items, w.queue, First(w.queue), sequence);
    TakeCounts(items, w, sequence, phase);
  }

  lemma TakeHoldings(w: Worker)
    requires w.queue != [] && w.dispatcher == AwaitItem
    ensures Holdings(Take(w)) == Holdings(w)
    ensures forall id: Id :: Unstarted(Take(w), id) ==> Unstarted(w, id)
  {
    IdsWithout(w.queue, First(w.queue));
    forall id: Id | Unstarted(Take(w), id) ensures Unstarted(w, id) {
      QueuedIds(w, id);
      QueuedIds(Take(w), id);
    }
  }

  lemma WithoutOrdered(items: seq<Item>, queue: seq<Entry>, i: nat, sequence: nat)
    requires i < |queue| && OrderedQueue(items, queue, sequence)
    ensures OrderedQueue(items, Without(queue, i), sequence)
  {
  }

  lemma TakeCounts(items: seq<Item>, w: Worker, sequence: nat, phase: Phase)
    requires w.queue != [] && w.dispatcher == AwaitItem
    requires OrderedQueue(items, w.queue, sequence) && HardCounted(items, w, phase)
    ensures HardCounted(items, Take(w), phase)
  {
    CountWithout(w.queue, First(w.queue));
  }

  lemma LaunchKeeps(maxRetries: int, items: seq<Item>, w: Worker, path: string, sequence: nat, phase: Phase)
    requires Keeps(maxRetries, items, w, path, sequence, phase)
    requires w.dispatcher.Holding? && w.dispatcher.item < |items|
    ensures Keeps(maxRetries, items, Launch(w, items), path, sequence, phase)
  {
    assert w.tasks == [];
    LaunchHoldings(w, items);
    assert FiredOnce(items, Launch(w, items), path);
    assert HardCounted(items, Launch(w, items), phase);
  }

  lemma LaunchHoldings(w: Worker, items: seq<Item>)
    requires w.dispatcher.Holding? && w.dispatcher.item < |items| && w.tasks == []
    ensures Holdings(Launch(w, items)) == Holdings(w)
    ensures forall id: Id :: Unstarted(Launch(w, items), id) ==> Unstarted(w, id)
    ensures forall id: Id :: !Firing(Launch(w, items), id) && !Firing(w, id)
  {
    var v := Launch(w, items);
    assert v.tasks == [Task(w.dispatcher.item, Created)] && v.queue == w.queue;
    HoldingsOfOne(w);
    HoldingsOfOne(v);
  }
}
