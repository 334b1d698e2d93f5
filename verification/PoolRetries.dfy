/** Which failures run again, told on the fields of the answer. */
module PoolRetries {
  import opened Protocol
  import opened Pool
  import HealthSpec

  /** An answer that never came: the run timed out, or its worker was lost. */
  const NO_ANSWER := SyncResult(false, None, false, false, None)

  /** The worker found another instance in place of the terminal it had launched. */
  predicate FirstReplacement(item: Item, result: SyncResult) {
    result.terminal.Some? && result.terminal.value.replaced && item.replacements == 0
  }

  predicate FirstRotation(item: Item, result: SyncResult) { result.proxyDead && item.rotations == 0 }

  /**
   A failure runs again unless the login was refused, or the terminal answered that the server never did; and only while
   it is the first replacement, the first dead proxy, or within the retries: none for an initial sync.
   */
  predicate RunsAgain(maxRetries: int, item: Item, result: SyncResult) {
    && !result.ok
    && result.errorCode != Some(-6)
    && (result.errorCode.Some? && result.errorCode.value <= -10000 ==> result.terminalLost || result.proxyDead)
    && ( || FirstReplacement(item, result)
         || FirstRotation(item, result)
         || item.attempts <= if item.kind == Initial then 0 else maxRetries)
  }

  /** A first replacement, or else a first rotation, is free: it gives the attempt back and is noted. */
  function Recounted(item: Item, result: SyncResult): Item {
    if FirstReplacement(item, result) then item.(replacements := 1, attempts := item.attempts - 1)
    else if FirstRotation(item, result) then item.(rotations := 1, attempts := item.attempts - 1)
    else item
  }

  lemma RetryExactly(maxRetries: int, item: Item, result: SyncResult)
    ensures ShouldRetry(maxRetries, item, result)
         == if RunsAgain(maxRetries, item, result) then (true, Recounted(item, result)) else (false, item)
  {
  }

  /** No entry of the queue came after this sync's. */
  predicate IsLast(queue: seq<Entry>, id: Id) {
    exists e | e in queue :: e.id == id && forall f | f in queue :: f == e || f.sequence < e.sequence
  }

  /** The run of a sync has ended with a result: it waits again behind all others, recounted, or was handed over. */
  predicate RunEnded(s: State, path: string, id: Id, before: Item, result: SyncResult) {
    && path in s.workers && id < |s.items|
    && if RunsAgain(s.maxRetries, before, result) then
         s.workers[path].tasks == [] && IsLast(s.workers[path].queue, id) && s.items[id] == Recounted(before, result)
       else
         s.workers[path].tasks == [Task(id, Completing)] && s.items[id] == before.(fired := before.fired + 1)
  }

  lemma LastInQueue(before: seq<Entry>, queue: seq<Entry>, sequence: nat, id: Id)
    requires forall i :: 0 <= i < |before| ==> before[i].sequence < sequence
    requires |queue| == |before| + 1 && queue[..|before|] == before
    requires queue[|before|].sequence == sequence && queue[|before|].id == id
    ensures IsLast(queue, id)
  {
    var e := queue[|before|];
    forall f | f in queue && f != e ensures f.sequence < e.sequence {
      var i :| 0 <= i < |queue| && queue[i] == f;
      assert before[i] == f;
    }
  }

  lemma FinishEnds(s: State, path: string, result: SyncResult, healthy: bool)
    requires HasTask(s, path, 0) && |s.workers[path].tasks| == 1 && s.workers[path].tasks[0].id < |s.items|
    requires forall i :: 0 <= i < |s.workers[path].queue| ==> s.workers[path].queue[i].sequence < s.sequence
    ensures var id := s.workers[path].tasks[0].id;
            var t := Finish(s, path, 0, result, healthy);
            && RunEnded(t, path, id, s.items[id], result)
            && t.workers[path].ready == healthy && t.workers[path].health == s.workers[path].health
  {
    var id := s.workers[path].tasks[0].id;
    var t := Finish(s, path, 0, result, healthy);
    RetryExactly(s.maxRetries, s.items[id], result);
    if RunsAgain(s.maxRetries, s.items[id], result) {
      LastInQueue(s.workers[path].queue, t.workers[path].queue, s.sequence, id);
    }
  }

  /** What follows an answer that does not put the terminal into quarantine. */
  predicate GoesOn(s: State, path: string, id: Id, before: Item, answer: Option<SyncResult>) {
    var result := if answer.Some? then answer.value else NO_ANSWER;
    && path in s.workers && id < |s.items|
    && if result.proxyDead && s.registry then
         s.workers[path].tasks == [Task(id, Rotating(result))] && s.items[id] == before
       else if answer.None? || result.terminalLost then
         s.workers[path].tasks == [Task(id, Restarting(result))] && s.items[id] == before
       else
         RunEnded(s, path, id, before, result) && s.workers[path].ready
  }

  lemma RecordedGoesOn(s: State, path: string, answer: Option<SyncResult>, health: HealthSpec.Health)
    requires HasTask(s, path, 0) && |s.workers[path].tasks| == 1 && s.workers[path].tasks[0].id < |s.items|
    requires forall i :: 0 <= i < |s.workers[path].queue| ==> s.workers[path].queue[i].sequence < s.sequence
    requires health.state != HealthSpec.Quarantined
    ensures var id, result := s.workers[path].tasks[0].id, if answer.Some? then answer.value else NO_ANSWER;
            var t := Recorded(s, path, 0, result, answer.Some? && !result.terminalLost, health);
            GoesOn(t, path, id, s.items[id], answer) && t.workers[path].health == health
  {
    var result := if answer.Some? then answer.value else NO_ANSWER;
    var recorded := Put(s, path, s.workers[path].(health := health));
    if !(result.proxyDead && s.registry) && answer.Some? && !result.terminalLost {
      FinishEnds(recorded, path, result, true);
    }
  }
}
