/** What every step of the pool keeps. */
module PoolInvariants {
  import opened Pool

  function Ids(queue: seq<Entry>): seq<Id> {
    seq(|queue|, i requires 0 <= i < |queue| => queue[i].id)
  }

  function Hand(d: Dispatcher): multiset<Id> {
    if d.Holding? then multiset{d.item} else multiset{}
  }

  function Grips(tasks: seq<Task>): multiset<Id> {
    if tasks == [] then multiset{} else Grips(tasks[..|tasks| - 1]) + multiset{Grip(tasks[|tasks| - 1])}
  }

  /** Every place of one terminal a task can be in: its queue, its dispatcher's hand, a run or the drain's hand. */
  function Holdings(w: Worker): multiset<Id> {
    multiset(Ids(w.queue)) + Hand(w.dispatcher) + Grips(w.tasks)
  }

  /** A sync accepted for this terminal whose future is not answered. */
  predicate Owed(items: seq<Item>, id: Id, path: string) {
    id < |items| && items[id].path == path && items[id].outcome == Pending
  }

  ghost predicate Conserved(items: seq<Item>, w: Worker, path: string) {
    forall id: Id :: Holdings(w)[id] == if Owed(items, id, path) then 1 else 0
  }

  predicate Serial(w: Worker, phase: Phase) {
    && |w.tasks| <= 1
    && (w.tasks != [] ==> w.dispatcher == AwaitTask(w.tasks[0].id) || w.dispatcher == Ended)
    && (w.dispatcher == Ended ==> phase != Serving)
    && (phase == Terminating || phase.Stopped? ==> w.dispatcher == Ended)
    && (phase.Stopped? ==> w.queue == [] && w.tasks == [])
  }

  function Cap(maxRetries: int, item: Item): nat {
    if Limit(maxRetries, item) >= 0 then Limit(maxRetries, item) else 0
  }

  predicate Unstarted(w: Worker, id: Id) {
    Queued(w, id) || w.dispatcher == Holding(id) || (w.tasks != [] && w.tasks[0] == Task(id, Created))
  }

  ghost predicate Budgeted(maxRetries: int, items: seq<Item>, w: Worker) {
    forall id: Id :: id < |items| && Unstarted(w, id) ==> items[id].attempts <= Cap(maxRetries, items[id])
  }

  /** The handler holds its result right now. */
  predicate Firing(w: Worker, id: Id) {
    && w.tasks != [] && Grip(w.tasks[0]) == id
    && (w.tasks[0].stage.Completing? || w.tasks[0].stage.Quarantining? || w.tasks[0].stage.Draining?)
  }

  ghost predicate FiredOnce(items: seq<Item>, w: Worker, path: string) {
    forall id: Id :: Owed(items, id, path) ==> items[id].fired == if Firing(w, id) then 1 else 0
  }

  predicate OrderedQueue(items: seq<Item>, queue: seq<Entry>, sequence: nat) {
    && (forall i :: 0 <= i < |queue| ==>
          && queue[i].sequence < sequence
          && queue[i].id < |items| && queue[i].priority == items[queue[i].id].Priority())
    && (forall i, j :: 0 <= i < j < |queue| ==> queue[i].sequence < queue[j].sequence)
  }

  /** A quarantine of this terminal is being worked off. */
  predicate InQuarantine(w: Worker) {
    w.tasks != [] && (w.tasks[0].stage.Quarantining? || w.tasks[0].stage.Draining?)
  }

  function CountHard(queue: seq<Entry>): nat {
    if queue == [] then 0
    else CountHard(queue[..|queue| - 1]) + if queue[|queue| - 1].priority == PRIORITY_HARD then 1 else 0
  }

  function HardInHand(items: seq<Item>, d: Dispatcher): nat {
    if d.Holding? && d.item < |items| && items[d.item].Priority() == PRIORITY_HARD then 1 else 0
  }

  predicate HardCounted(items: seq<Item>, w: Worker, phase: Phase) {
    phase == Serving && !InQuarantine(w) ==> w.hardQueued == CountHard(w.queue) + HardInHand(items, w.dispatcher)
  }

  /** Nothing waits on a terminal that is out of use, once its drain is over. */
  predicate Emptied(w: Worker) {
    !w.health.Usable() && !InQuarantine(w) ==> w.queue == [] && !w.dispatcher.Holding? && w.tasks == []
  }

  ghost predicate WorkerInv(s: State, path: string)
    requires path in s.workers
  {
    Keeps(s.maxRetries, s.items, s.workers[path], path, s.sequence, s.phase) && Bounded(s, path)
  }

  ghost predicate Keeps(maxRetries: int, items: seq<Item>, w: Worker, path: string, sequence: nat, phase: Phase) {
    && Conserved(items, w, path)
    && Serial(w, phase)
    && Budgeted(maxRetries, items, w)
    && FiredOnce(items, w, path)
    && OrderedQueue(items, w.queue, sequence)
    && HardCounted(items, w, phase)
    && Emptied(w)
  }

  predicate ItemInv(maxRetries: int, item: Item) {
    && item.runs == item.attempts + item.replacements + item.rotations
    && item.replacements <= 1 && item.rotations <= 1
    && item.attempts <= Cap(maxRetries, item) + 1
    && item.fired <= 1
    && (item.outcome == Completed ==> item.fired == 1)
    && (item.outcome == ShutDown || item.outcome == Refused ==> item.fired == 0)
  }

  predicate ItemKept(s: State, id: Id)
    requires id < |s.items|
  {
    && ItemInv(s.maxRetries, s.items[id])
    && (s.items[id].outcome == Pending ==> s.items[id].path in s.workers)
    && (s.items[id].outcome == Lost ==> s.phase == Stopped(true))
  }

  ghost predicate ItemsInv(s: State) {
    forall id: Id {:trigger ItemKept(s, id)} :: id < |s.items| ==> ItemKept(s, id)
  }

  predicate Registration(s: State, account: string)
    requires account in s.pending
  {
    && s.pending[account] < |s.items|
    && s.items[s.pending[account]].account == account
    && s.items[s.pending[account]].Unresolved()
  }

  /** An open deduplicated task is the one registered for its account. */
  predicate DedupeKept(s: State, id: Id)
    requires id < |s.items|
  {
    s.items[id].dedupe && s.items[id].Unresolved() ==>
      s.items[id].account in s.pending && s.pending[s.items[id].account] == id
  }

  /** The dedupe map: registered futures are open, and every open deduplicated task is the registered one. */
  ghost predicate Registered(s: State) {
    && (forall account {:trigger Registration(s, account)} :: account in s.pending ==> Registration(s, account))
    && (forall id: Id {:trigger DedupeKept(s, id)} :: id < |s.items| ==> DedupeKept(s, id))
    && (s.lock.Held? && s.lock.dedupe ==> s.lock.account !in s.pending)
  }

  ghost predicate Inv(s: State) {
    && AllBounded(s)
    && ItemsInv(s)
    && Registered(s)
    && (forall path {:trigger WorkerInv(s, path)} :: path in s.workers ==> WorkerInv(s, path))
  }

  // Queues.

  lemma IdsAppend(queue: seq<Entry>, e: Entry)
    ensures Ids(queue + [e]) == Ids(queue) + [e.id]
    ensures CountHard(queue + [e]) == CountHard(queue) + if e.priority == PRIORITY_HARD then 1 else 0
  {
    assert (queue + [e])[..|queue|] == queue;
  }

  lemma IdsWithout(queue: seq<Entry>, i: nat)
    requires i < |queue|
    ensures multiset(Ids(queue)) == multiset(Ids(Without(queue, i))) + multiset{queue[i].id}
  {
    assert Ids(queue) == Ids(queue[..i]) + [queue[i].id] + Ids(queue[i + 1..]);
    assert Ids(Without(queue, i)) == Ids(queue[..i]) + Ids(queue[i + 1..]);
  }

  lemma {:induction false} CountWithout(queue: seq<Entry>, i: nat)
    requires i < |queue|
    ensures CountHard(queue) == CountHard(Without(queue, i)) + if queue[i].priority == PRIORITY_HARD then 1 else 0
  {
    var front := queue[..|queue| - 1];
    if i == |queue| - 1 {
      assert Without(queue, i) == front;
    } else {
      CountWithout(front, i);
      assert Without(queue, i)[..|Without(queue, i)| - 1] == Without(front, i);
    }
  }

  lemma QueuedIds(w: Worker, id: Id)
    ensures Queued(w, id) <==> multiset(Ids(w.queue))[id] > 0
  {
    if Queued(w, id) {
      var i :| 0 <= i < |w.queue| && w.queue[i].id == id;
      assert Ids(w.queue)[i] == id;
    }
    if id in Ids(w.queue) {
      var i :| 0 <= i < |Ids(w.queue)| && Ids(w.queue)[i] == id;
      assert w.queue[i].id == id;
    }
  }

  lemma HoldingsOfOne(w: Worker)
    requires |w.tasks| <= 1
    ensures Holdings(w) == multiset(Ids(w.queue)) + Hand(w.dispatcher)
                           + if w.tasks == [] then multiset{} else multiset{Grip(w.tasks[0])}
  {
    if w.tasks != [] {
      assert w.tasks[..0] == [];
      assert Grips(w.tasks[..0]) == multiset{};
    }
  }
}
