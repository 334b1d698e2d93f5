/** What holds over every run of the pool. */
module PoolRuns {
  import opened Pool
  import opened PoolInvariants
  import opened PoolSteps
  import opened PoolSafety
  import opened PoolStop
  import HealthSpec

  lemma StepKeeps(s: State, step: Step)
    requires Inv(s) && Enabled(s, step)
    ensures Inv(Next(s, step))
  {
    match step {
      case Request(request) => RequestKeeps(s, request);
      case Reap(path, reap) => ReapKeeps(s, path, reap);
      case Dispatch(path, dispatch) => DispatchKeeps(s, path, dispatch);
      case Run(path, k, run) =>
        assert WorkerInv(s, path);
        RunKeeps(s, path, k, run);
      case Stop(stop) => StopKeeps(s, stop);
    }
  }

  /** A pool as `start` leaves it. */
  ghost predicate Started(s: State) {
    && s.items == [] && s.pending == map[] && s.phase == Serving && s.lock == Free
    && forall path :: path in s.workers ==>
         s.workers[path] == Worker([], 0, s.workers[path].ready, AwaitReady, [], HealthSpec.FRESH)
  }

  lemma StartedInv(s: State)
    requires Started(s)
    ensures Inv(s)
  {
    forall path | path in s.workers ensures WorkerInv(s, path) && Bounded(s, path) {
      assert Holdings(s.workers[path]) == multiset{};
      assert forall id: Id :: !Unstarted(s.workers[path], id);
    }
  }

  /** The steps can follow each other from s. */
  ghost predicate Feasible(s: State, steps: seq<Step>)
    decreases |steps|
  {
    steps == [] || (AllBounded(s) && Enabled(s, steps[0]) && Feasible(Next(s, steps[0]), steps[1..]))
  }

  ghost function After(s: State, steps: seq<Step>): State
    requires Feasible(s, steps)
    decreases |steps|
  {
    if steps == [] then s else After(Next(s, steps[0]), steps[1..])
  }

  lemma {:induction false} RunKeepsInv(s: State, steps: seq<Step>)
    requires Inv(s) && Feasible(s, steps)
    ensures Inv(After(s, steps))
    decreases |steps|
  {
    if steps != [] {
      StepKeeps(s, steps[0]);
      RunKeepsInv(Next(s, steps[0]), steps[1..]);
    }
  }

  ghost predicate Reachable(s: State) {
    exists start, steps :: Started(start) && Feasible(start, steps) && s == After(start, steps)
  }

  lemma ReachableInv(s: State)
    requires Reachable(s)
    ensures Inv(s)
  {
    var start, steps :| Started(start) && Feasible(start, steps) && s == After(start, steps);
    StartedInv(start);
    RunKeepsInv(start, steps);
  }

  lemma {:induction false} FeasibleOn(s: State, steps: seq<Step>, step: Step)
    requires Feasible(s, steps) && AllBounded(After(s, steps)) && Enabled(After(s, steps), step)
    ensures Feasible(s, steps + [step]) && After(s, steps + [step]) == Next(After(s, steps), step)
    decreases |steps|
  {
    if steps == [] {
      assert steps + [step] == [step] && [step][1..] == [];
    } else {
      FeasibleOn(Next(s, steps[0]), steps[1..], step);
      assert (steps + [step])[1..] == steps[1..] + [step];
    }
  }

  lemma ReachableOn(s: State, step: Step)
    requires Reachable(s) && Enabled(s, step)
    ensures AllBounded(s) && Reachable(Next(s, step))
  {
    ReachableInv(s);
    var start, steps :| Started(start) && Feasible(start, steps) && s == After(start, steps);
    FeasibleOn(start, steps, step);
  }
}
