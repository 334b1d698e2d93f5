/**
 The dispatch protocol of the pool as a transition system. One step is the code between two suspension
 points; every interleaving of the steps is a run.
 */
module Pool {
  import opened Protocol
  import HealthSpec

  type Id = nat

  const PRIORITY_HARD: nat := 0
  const PRIORITY_SCHEDULED: nat := 1

  /** An entry of a terminal's priority queue. */
  datatype Entry = Entry(priority: nat, sequence: nat, id: Id)

  predicate Precedes(e: Entry, f: Entry) {
    e.priority < f.priority || (e.priority == f.priority && e.sequence < f.sequence)
  }

  /** Where a terminal's dispatcher is suspended. */
  datatype Dispatcher = AwaitReady | AwaitItem | Holding(item: Id) | AwaitTask(item: Id) | Ended

  /** Where a task of the pool is suspended. */
  datatype Stage =
    | Created
    | Talking
    | Rotating(result: SyncResult)
    | Restarting(result: SyncResult)
    | Completing
    | Quarantining
    | Draining(queued: Id)

  datatype Task = Task(id: Id, stage: Stage)

  datatype Worker = Worker(
    queue: seq<Entry>, hardQueued: int, ready: bool, dispatcher: Dispatcher, tasks: seq<Task>,
    health: HealthSpec.Health)

  datatype Outcome = Refused | Pending | Completed | ShutDown | Lost

  /** A submitted task with its future; runs and fired count what happened to it. */
  datatype Item = Item(
    account: string, kind: SyncKind, server: string, path: string, dedupe: bool,
    attempts: int, replacements: nat, rotations: nat,
    runs: nat, fired: nat, outcome: Outcome)
  {
    function Priority(): nat { if kind == Scheduled then PRIORITY_SCHEDULED else PRIORITY_HARD }

    /** The future has not been answered. */
    predicate Unresolved() { outcome == Pending || outcome == Lost }
  }

  datatype Phase = Serving | Cancelling | Terminating | Stopped(timedOut: bool)

  /** The submit lock, with the request that holds it. */
  datatype Lock = Free | Held(account: string, kind: SyncKind, dedupe: bool)

  datatype State = State(
    maxRetries: int, registry: bool, workers: map<string, Worker>, items: seq<Item>,
    pending: map<string, Id>, sequence: nat, phase: Phase, lock: Lock)
  {
    predicate Closing() { phase != Serving }
  }

  // The queue.

  /** The position of the entry that leaves a queue first. */
  function First(queue: seq<Entry>): (i: nat)
    requires queue != []
    ensures i < |queue|
    ensures forall j :: 0 <= j < |queue| && j != i ==> !Precedes(queue[j], queue[i])
  {
    if |queue| == 1 then 0
    else
      var i := First(queue[..|queue| - 1]);
      if Precedes(queue[|queue| - 1], queue[i]) then |queue| - 1 else i
  }

  function Without(queue: seq<Entry>, i: nat): seq<Entry>
    requires i < |queue|
  {
    queue[..i] + queue[i + 1..]
  }

  // Pieces of the source's methods.

  function Put(s: State, path: string, w: Worker): State
    requires path in s.workers
  {
    s.(workers := s.workers[path := w])
  }

  function Enqueue(s: State, path: string, id: Id): State
    requires path in s.workers && id < |s.items|
  {
    var w := s.workers[path];
    var priority := s.items[id].Priority();
    Put(s, path, w.(
      queue := w.queue + [Entry(priority, s.sequence, id)],
      hardQueued := w.hardQueued + if priority == PRIORITY_HARD then 1 else 0)).(sequence := s.sequence + 1)
  }

  /** Answer a future, and forget it if it is the one registered for its account. */
  function Resolve(s: State, id: Id, outcome: Outcome): State
    requires id < |s.items|
  {
    var item := s.items[id];
    s.(
      pending := if item.account in s.pending && s.pending[item.account] == id then s.pending - {item.account}
                 else s.pending,
      items := if item.outcome == Pending then s.items[id := item.(outcome := outcome)] else s.items)
  }

  /** Hand a result to the result handler. */
  function Fire(s: State, id: Id): State
    requires id < |s.items|
  {
    s.(items := s.items[id := s.items[id].(fired := s.items[id].fired + 1)])
  }

  function SetStage(s: State, path: string, k: nat, stage: Stage): State
    requires path in s.workers && k < |s.workers[path].tasks|
  {
    var w := s.workers[path];
    Put(s, path, w.(tasks := w.tasks[k := w.tasks[k].(stage := stage)]))
  }

  function EndTask(s: State, path: string, k: nat): State
    requires path in s.workers && k < |s.workers[path].tasks|
  {
    var w := s.workers[path];
    Put(s, path, w.(tasks := w.tasks[..k] + w.tasks[k + 1..]))
  }

  function SetReady(s: State, path: string, ready: bool): State
    requires path in s.workers
  {
    Put(s, path, s.workers[path].(ready := ready))
  }

  function Limit(maxRetries: int, item: Item): int {
    if item.kind == Initial then 0 else maxRetries
  }

  /** Whether a task runs again after a result, and its counters afterwards. */
  function ShouldRetry(maxRetries: int, item: Item, result: SyncResult): (bool, Item) {
    if result.ok then (false, item)
    else if
      || result.errorCode == Some(AUTHORIZATION_FAILED)
      || (IsIpc(result.errorCode) && !result.terminalLost && !result.proxyDead)
    then (false, item)
    else if result.terminal.Some? && result.terminal.value.replaced && item.replacements == 0 then
      (true, item.(replacements := item.replacements + 1, attempts := item.attempts - 1))
    else if result.proxyDead && item.rotations == 0 then
      (true, item.(rotations := item.rotations + 1, attempts := item.attempts - 1))
    else (item.attempts <= Limit(maxRetries, item), item)
  }

  /** The tail of a run: mark the worker, then retry or complete. */
  function Finish(s: State, path: string, k: nat, result: SyncResult, healthy: bool): State
    requires path in s.workers && k < |s.workers[path].tasks| && s.workers[path].tasks[k].id < |s.items|
  {
    var id := s.workers[path].tasks[k].id;
    var (retry, item) := ShouldRetry(s.maxRetries, s.items[id], result);
    var marked := SetReady(s, path, healthy).(items := s.items[id := item]);
    if retry then Enqueue(EndTask(marked, path, k), path, id)
    else SetStage(Fire(marked, id), path, k, Completing)
  }

  /** One turn of the quarantine drain: take the next queued task in hand, or end. */
  function DrainNext(s: State, path: string, k: nat): State
    requires path in s.workers && k < |s.workers[path].tasks|
    requires forall e :: e in s.workers[path].queue ==> e.id < |s.items|
  {
    var w := s.workers[path];
    if w.queue == [] then
      EndTask(Put(s, path, w.(hardQueued := 0)), path, k)
    else
      var i := First(w.queue);
      SetStage(Fire(Put(s, path, w.(queue := Without(w.queue, i))), w.queue[i].id), path, k, Draining(w.queue[i].id))
  }

  // The steps.

  /** A request for a sync: it holds the submit lock from the dedupe check to the submission. */
  datatype RequestStep =
    | BeginRequest(account: string, kind: SyncKind, dedupe: bool)
    | AbortRequest
    | Submit(path: string, server: string)

  /** What the reaper, a restart or a refresh of the master does to one worker. */
  datatype ReaperStep =
    | MarkReady(ready: bool)
    | StartReclone(now: int)
    | FinishReclone
    | FailReclone(error: string)

  datatype DispatchStep = TakeReady | TakeItem | StartItem | ResumeLoop

  datatype RunStep =
    | StartTask
    | Answer(answer: Option<SyncResult>, now: int, warming: bool)
    | RotateDone
    | RestartDone(healthy: bool)
    | Crash
    | HandlerDone

  datatype StopStep = BeginStop | CancelDispatcher(path: string) | TerminateWorkers | FinishStop(timedOut: bool)

  datatype Step =
    | Request(request: RequestStep)
    | Reap(path: string, reap: ReaperStep)
    | Dispatch(path: string, dispatch: DispatchStep)
    | Run(path: string, k: nat, run: RunStep)
    | Stop(stop: StopStep)

  predicate HasTask(s: State, path: string, k: nat) {
    path in s.workers && k < |s.workers[path].tasks|
  }

  function StageOf(s: State, path: string, k: nat): Stage
    requires HasTask(s, path, k)
  {
    s.workers[path].tasks[k].stage
  }

  predicate TaskRunning(w: Worker, id: Id) {
    exists k :: 0 <= k < |w.tasks| && w.tasks[k].id == id
  }

  predicate RequestEnabled(s: State, step: RequestStep) {
    match step
    case BeginRequest(_, _, _) => s.lock == Free
    case AbortRequest => s.lock.Held?
    case Submit(path, _) => s.lock.Held? && path in s.workers
  }

  predicate ReapEnabled(s: State, path: string, step: ReaperStep) {
    path in s.workers &&
    match step
    case MarkReady(_) => true
    case StartReclone(_) => !s.Closing() && s.workers[path].health.state == HealthSpec.Quarantined
    case FinishReclone => s.workers[path].health.state == HealthSpec.Recloning
    case FailReclone(_) => s.workers[path].health.state == HealthSpec.Recloning
  }

  predicate DispatchEnabled(s: State, path: string, step: DispatchStep) {
    path in s.workers &&
    var w := s.workers[path];
    match step
    case TakeReady => w.dispatcher == AwaitReady && w.ready
    case TakeItem => w.dispatcher == AwaitItem && w.queue != []
    case StartItem => w.dispatcher.Holding? && w.ready
    case ResumeLoop => w.dispatcher.AwaitTask? && !TaskRunning(w, w.dispatcher.item)
  }

  predicate RunEnabled(s: State, path: string, k: nat, step: RunStep) {
    HasTask(s, path, k) &&
    var stage := StageOf(s, path, k);
    match step
    case StartTask => stage.Created?
    case Answer(_, _, _) => stage.Talking?
    case RotateDone => stage.Rotating?
    case RestartDone(_) => stage.Restarting?
    case Crash => stage.Talking? || stage.Rotating? || stage.Restarting?
    case HandlerDone => stage.Completing? || stage.Quarantining? || stage.Draining?
  }

  predicate StopEnabled(s: State, step: StopStep) {
    match step
    case BeginStop => s.phase == Serving
    case CancelDispatcher(path) =>
      s.phase == Cancelling && path in s.workers && s.workers[path].dispatcher != Ended
    case TerminateWorkers =>
      s.phase == Cancelling && forall path :: path in s.workers ==> s.workers[path].dispatcher == Ended
    case FinishStop(timedOut) =>
      s.phase == Terminating && (timedOut || forall path :: path in s.workers ==> s.workers[path].tasks == [])
  }

  /** The code a step stands for can run. */
  predicate Enabled(s: State, step: Step) {
    match step
    case Request(request) => RequestEnabled(s, request)
    case Reap(path, reap) => ReapEnabled(s, path, reap)
    case Dispatch(path, dispatch) => DispatchEnabled(s, path, dispatch)
    case Run(path, k, run) => RunEnabled(s, path, k, run)
    case Stop(stop) => StopEnabled(s, stop)
  }

  /** Every index in a worker refers to a submitted task. */
  predicate Bounded(s: State, path: string)
    requires path in s.workers
  {
    var w := s.workers[path];
    && (forall i :: 0 <= i < |w.queue| ==> w.queue[i].id < |s.items|)
    && (w.dispatcher.Holding? ==> w.dispatcher.item < |s.items|)
    && (forall k :: 0 <= k < |w.tasks| ==>
          w.tasks[k].id < |s.items| && (w.tasks[k].stage.Draining? ==> w.tasks[k].stage.queued < |s.items|))
  }

  predicate AllBounded(s: State) {
    forall path {:trigger Bounded(s, path)} :: path in s.workers ==> Bounded(s, path)
  }

  function SubmitNow(s: State, path: string, server: string): State
    requires s.lock.Held? && path in s.workers
  {
    var (account, kind, dedupe) := (s.lock.account, s.lock.kind, s.lock.dedupe);
    var item := Item(account, kind, server, path, dedupe, 0, 0, 0, 0, 0, Pending);
    var id := |s.items|;
    if s.Closing() || !s.workers[path].health.Usable() then
      s.(items := s.items + [item.(outcome := Refused)], lock := Free)
    else
      Enqueue(s.(
                items := s.items + [item],
                pending := if account in s.pending then s.pending else s.pending[account := id],
                lock := Free),
              path, id)
  }

  /** What follows an answer once the board has recorded it. */
  function Recorded(s: State, path: string, k: nat, result: SyncResult, healthy: bool, health: HealthSpec.Health): State
    requires HasTask(s, path, k) && s.workers[path].tasks[k].id < |s.items|
  {
    var recorded := Put(s, path, s.workers[path].(health := health));
    if health.state == HealthSpec.Quarantined then
      SetStage(Fire(SetReady(recorded, path, false), s.workers[path].tasks[k].id), path, k, Quarantining)
    else if result.proxyDead && s.registry then
      SetStage(recorded, path, k, Rotating(result))
    else if !healthy then
      SetStage(recorded, path, k, Restarting(result))
    else
      Finish(recorded, path, k, result, true)
  }

  /** The answer of a run: the worker's own, or the failure made up when it never came. */
  function AnswerNow(s: State, path: string, k: nat, answer: Option<SyncResult>, now: int, warming: bool): State
    requires HasTask(s, path, k) && Bounded(s, path)
  {
    var result := if answer.Some? then answer.value else POOL_FAILURE;
    var w := s.workers[path];
    var id := w.tasks[k].id;
    if s.Closing() then
      EndTask(Resolve(s, id, ShutDown), path, k)
    else
      Recorded(s, path, k, result, answer.Some? && !result.terminalLost,
               HealthSpec.Record(w.health, now, warming, s.items[id].server, result))
  }

  function HandlerDoneNow(s: State, path: string, k: nat): State
    requires HasTask(s, path, k) && Bounded(s, path)
  {
    var task := s.workers[path].tasks[k];
    match task.stage
    case Quarantining => DrainNext(Resolve(s, task.id, Completed), path, k)
    case Draining(queued) => DrainNext(Resolve(s, queued, Completed), path, k)
    case _ => EndTask(Resolve(s, task.id, Completed), path, k)
  }

  function StartTaskNow(s: State, path: string, k: nat): State
    requires HasTask(s, path, k) && Bounded(s, path)
  {
    var id := s.workers[path].tasks[k].id;
    var item := s.items[id];
    SetStage(s.(items := s.items[id := item.(attempts := item.attempts + 1, runs := item.runs + 1)]), path, k, Talking)
  }

  function Take(w: Worker): Worker
    requires w.queue != []
  {
    var i := First(w.queue);
    w.(queue := Without(w.queue, i), dispatcher := Holding(w.queue[i].id))
  }

  /** The held task starts: it leaves the dispatcher's hand and becomes a task of the pool. */
  function Launch(w: Worker, items: seq<Item>): Worker
    requires w.dispatcher.Holding? && w.dispatcher.item < |items|
  {
    var id := w.dispatcher.item;
    w.(
      hardQueued := w.hardQueued - (if items[id].Priority() == PRIORITY_HARD then 1 else 0),
      tasks := w.tasks + [Task(id, Created)],
      dispatcher := AwaitTask(id))
  }

  function CancelNow(s: State, path: string): State
    requires path in s.workers && Bounded(s, path)
  {
    var w := s.workers[path];
    var ended := Put(s, path, w.(dispatcher := Ended));
    if w.dispatcher.Holding? then Resolve(ended, w.dispatcher.item, ShutDown) else ended
  }

  predicate Queued(w: Worker, id: Id) {
    exists i :: 0 <= i < |w.queue| && w.queue[i].id == id
  }

  predicate QueuedSomewhere(s: State, id: Id) {
    exists path | path in s.workers :: Queued(s.workers[path], id)
  }

  /** The unanswered task a running task would leave behind if it were cut off. */
  function Grip(task: Task): Id {
    if task.stage.Draining? then task.stage.queued else task.id
  }

  predicate GrippedSomewhere(s: State, id: Id) {
    exists path | path in s.workers :: exists k :: 0 <= k < |s.workers[path].tasks| && Grip(s.workers[path].tasks[k]) == id
  }

  /** The end of a stop: tasks a timed-out drain cut off are lost, queued ones are answered. */
  function FinishStopNow(s: State, timedOut: bool): State {
    s.(
      items := seq(|s.items|, id requires 0 <= id < |s.items| =>
        var item := s.items[id];
        if item.outcome != Pending then item
        else if QueuedSomewhere(s, id) then item.(outcome := ShutDown)
        else if GrippedSomewhere(s, id) then item.(outcome := Lost)
        else item),
      pending := map account | account in s.pending && !QueuedSomewhere(s, s.pending[account]) :: s.pending[account],
      workers := map path | path in s.workers :: s.workers[path].(queue := [], tasks := []),
      phase := Stopped(timedOut))
  }

  function AfterRequest(s: State, step: RequestStep): State
    requires RequestEnabled(s, step)
  {
    match step
    case BeginRequest(account, kind, dedupe) =>
      if dedupe && account in s.pending then s else s.(lock := Held(account, kind, dedupe))
    case AbortRequest => s.(lock := Free)
    case Submit(path, server) => SubmitNow(s, path, server)
  }

  function AfterReap(s: State, path: string, step: ReaperStep): State
    requires ReapEnabled(s, path, step)
  {
    var w := s.workers[path];
    match step
    case MarkReady(ready) => SetReady(s, path, ready)
    case StartReclone(now) => Put(s, path, w.(health := HealthSpec.MarkRecloning(w.health, now)))
    case FinishReclone => SetReady(Put(s, path, w.(health := HealthSpec.MarkRecloned(w.health))), path, true)
    case FailReclone(error) => Put(s, path, w.(health := HealthSpec.MarkRecloneFailed(w.health, error)))
  }

  function AfterDispatch(s: State, path: string, step: DispatchStep): State
    requires DispatchEnabled(s, path, step) && Bounded(s, path)
  {
    var w := s.workers[path];
    match step
    case TakeReady => Put(s, path, w.(dispatcher := AwaitItem))
    case TakeItem => Put(s, path, Take(w))
    case StartItem => Put(s, path, Launch(w, s.items))
    case ResumeLoop => Put(s, path, w.(dispatcher := if s.Closing() then Ended else AwaitReady))
  }

  function AfterRun(s: State, path: string, k: nat, step: RunStep): State
    requires RunEnabled(s, path, k, step) && Bounded(s, path)
  {
    match step
    case StartTask => StartTaskNow(s, path, k)
    case Answer(answer, now, warming) => AnswerNow(s, path, k, answer, now, warming)
    case RotateDone => SetStage(s, path, k, Restarting(StageOf(s, path, k).result))
    case RestartDone(healthy) => Finish(s, path, k, StageOf(s, path, k).result, healthy)
    case Crash => SetStage(Fire(SetReady(s, path, false), s.workers[path].tasks[k].id), path, k, Completing)
    case HandlerDone => HandlerDoneNow(s, path, k)
  }

  function AfterStop(s: State, step: StopStep): State
    requires AllBounded(s) && StopEnabled(s, step)
  {
    match step
    case BeginStop => s.(phase := Cancelling)
    case CancelDispatcher(path) => CancelNow(s, path)
    case TerminateWorkers => s.(phase := Terminating)
    case FinishStop(timedOut) => FinishStopNow(s, timedOut)
  }

  function Next(s: State, step: Step): State
    requires AllBounded(s) && Enabled(s, step)
  {
    match step
    case Request(request) => AfterRequest(s, request)
    case Reap(path, reap) => AfterReap(s, path, reap)
    case Dispatch(path, dispatch) => AfterDispatch(s, path, dispatch)
    case Run(path, k, run) => AfterRun(s, path, k, run)
    case Stop(stop) => AfterStop(s, stop)
  }
}
