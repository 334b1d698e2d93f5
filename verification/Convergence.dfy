/** Which positions repeated syncs ever measure, when each sync may measure only so many. */
module Convergence {
  import opened Excursion
  import opened Lists

  // The waiting queue, sync after sync.

  function Not(p: Trade -> bool): Trade -> bool { (t: Trade) => !p(t) }

  /** A sync takes the first positions of the queue; those it cannot measure wait at the front. */
  function Step(queue: seq<Trade>, limit: nat, usable: Trade -> bool): seq<Trade> {
    if |queue| <= limit then Filter(queue, Not(usable))
    else Filter(queue[..limit], Not(usable)) + queue[limit..]
  }

  function TakeShare(limit: nat, usable: Trade -> bool): seq<Trade> -> seq<Trade> {
    (queue: seq<Trade>) => Step(queue, limit, usable)
  }

  function Steps(queue: seq<Trade>, limit: nat, usable: Trade -> bool, n: nat): seq<Trade> {
    Iterate(TakeShare(limit, usable), queue, n)
  }

  predicate DistinctIds(queue: seq<Trade>) {
    forall i, j :: 0 <= i < j < |queue| ==> queue[i].id != queue[j].id
  }

  /** The positions ahead of this one that no sync can measure. */
  function Blockers(queue: seq<Trade>, i: nat, usable: Trade -> bool): nat
    requires i <= |queue|
  {
    |Filter(queue[..i], Not(usable))|
  }

  /** Where a position that was not taken stands after a sync. */
  function Moved(queue: seq<Trade>, i: nat, limit: nat, usable: Trade -> bool): int
    requires limit <= i < |queue|
  {
    Blockers(queue, limit, usable) + (i - limit)
  }

  lemma StepKeepsTail(queue: seq<Trade>, i: nat, limit: nat, usable: Trade -> bool)
    requires limit <= i < |queue|
    ensures var k := Moved(queue, i, limit, usable);
            && 0 <= k < |Step(queue, limit, usable)|
            && Step(queue, limit, usable)[k] == queue[i]
            && Step(queue, limit, usable)[..k] == Filter(queue[..limit], Not(usable)) + queue[limit..i]
  {
  }

  lemma SameBlockers(head: seq<Trade>, middle: seq<Trade>, usable: Trade -> bool)
    ensures |Filter(Filter(head, Not(usable)) + middle, Not(usable))| == |Filter(head + middle, Not(usable))|
    ensures |Filter(head, Not(usable))| <= |Filter(head + middle, Not(usable))|
  {
    var waiting := Filter(head, Not(usable));
    FilterAppend(head, middle, Not(usable));
    FilterAppend(waiting, middle, Not(usable));
    FilterAll(waiting, Not(usable));
  }

  lemma MovesUp(queue: seq<Trade>, i: nat, limit: nat, usable: Trade -> bool)
    requires limit <= i < |queue|
    ensures var next, k := Step(queue, limit, usable), Moved(queue, i, limit, usable);
            && 0 <= k < |next| && next[k] == queue[i]
            && Blockers(next, k, usable) == Blockers(queue, i, usable)
            && (Blockers(queue, i, usable) < limit ==> k < i)
  {
    var head, middle := queue[..limit], queue[limit..i];
    StepKeepsTail(queue, i, limit, usable);
    var next, k := Step(queue, limit, usable), Moved(queue, i, limit, usable);
    assert queue[..i] == head + middle && next[..k] == Filter(head, Not(usable)) + middle;
    SameBlockers(head, middle, usable);
  }

  lemma {:induction false} FilterShrinks(s: seq<Trade>, keep: Trade -> bool)
    ensures |Filter(s, keep)| <= |s|
  {
    if s != [] {
      FilterShrinks(s[..|s| - 1], keep);
    }
  }

  lemma {:induction false} FilterKeepsDistinct(s: seq<Trade>, keep: Trade -> bool)
    requires DistinctIds(s)
    ensures DistinctIds(Filter(s, keep))
  {
    if s != [] {
      FilterKeepsDistinct(s[..|s| - 1], keep);
    }
  }

  lemma StepMembers(queue: seq<Trade>, limit: nat, usable: Trade -> bool, t: Trade)
    ensures t in Step(queue, limit, usable) ==> t in queue
  {
    if |queue| <= limit {
      FilterMembers(queue, Not(usable), t);
    } else {
      FilterMembers(queue[..limit], Not(usable), t);
    }
  }

  lemma StepKeepsDistinct(queue: seq<Trade>, limit: nat, usable: Trade -> bool)
    requires DistinctIds(queue)
    ensures DistinctIds(Step(queue, limit, usable))
  {
    if |queue| <= limit {
      FilterKeepsDistinct(queue, Not(usable));
    } else {
      var waiting := Filter(queue[..limit], Not(usable));
      FilterKeepsDistinct(queue[..limit], Not(usable));
      forall w, k | w in waiting && limit <= k < |queue| ensures w.id != queue[k].id {
        FilterMembers(queue[..limit], Not(usable), w);
        var j :| 0 <= j < limit && queue[..limit][j] == w;
      }
    }
  }

  /** A position taken and measured leaves the queue. */
  lemma TakenLeaves(queue: seq<Trade>, i: nat, limit: nat, usable: Trade -> bool)
    requires DistinctIds(queue) && i < |queue| && i < limit && usable(queue[i])
    ensures queue[i] !in Step(queue, limit, usable)
  {
    var t := queue[i];
    if |queue| <= limit {
      FilterMembers(queue, Not(usable), t);
    } else {
      FilterMembers(queue[..limit], Not(usable), t);
      assert forall k :: limit <= k < |queue| ==> queue[k] != t;
    }
  }

  predicate At(queue: seq<Trade>, t: Trade, k: nat, blockers: nat, usable: Trade -> bool) {
    k < |queue| && queue[k] == t && Blockers(queue, k, usable) == blockers
  }

  /** The position is in the queue, no further back than this, with so many blockers before it. */
  ghost predicate Waits(queue: seq<Trade>, t: Trade, bound: int, blockers: nat, usable: Trade -> bool) {
    exists k: nat :: At(queue, t, k, blockers, usable) && k <= bound
  }

  lemma OneStep(queue: seq<Trade>, t: Trade, bound: int, blockers: nat, limit: nat, usable: Trade -> bool)
    requires DistinctIds(queue) && Waits(queue, t, bound, blockers, usable) && usable(t)
    ensures blockers < limit ==> t !in Step(queue, limit, usable) || Waits(Step(queue, limit, usable), t, bound - 1, blockers, usable)
    ensures blockers >= limit ==> Waits(Step(queue, limit, usable), t, bound, blockers, usable)
  {
    var k: nat :| At(queue, t, k, blockers, usable) && k <= bound;
    FilterShrinks(queue[..k], Not(usable));
    if k < limit {
      TakenLeaves(queue, k, limit, usable);
    } else {
      MovesUp(queue, k, limit, usable);
      MovesBack(queue, k, limit, usable);
      assert At(Step(queue, limit, usable), t, Moved(queue, k, limit, usable), blockers, usable);
    }
  }

  lemma MovesBack(queue: seq<Trade>, i: nat, limit: nat, usable: Trade -> bool)
    requires limit <= i < |queue|
    ensures Moved(queue, i, limit, usable) <= i
  {
    FilterShrinks(queue[..limit], Not(usable));
  }

  lemma {:induction false} StepsKeepDistinct(queue: seq<Trade>, limit: nat, usable: Trade -> bool, n: nat)
    requires DistinctIds(queue)
    ensures DistinctIds(Steps(queue, limit, usable, n))
  {
    if n > 0 {
      StepsKeepDistinct(queue, limit, usable, n - 1);
      StepKeepsDistinct(Steps(queue, limit, usable, n - 1), limit, usable);
    }
  }

  /** Either the position has left the queue, or it waits; one that can be reached waits further ahead with each sync. */
  ghost predicate GoneOrWaits(queue: seq<Trade>, t: Trade, bound: int, blockers: nat, usable: Trade -> bool) {
    t !in queue || Waits(queue, t, bound, blockers, usable)
  }

  lemma OneStepOn(queue: seq<Trade>, t: Trade, bound: int, blockers: nat, limit: nat, usable: Trade -> bool)
    requires DistinctIds(queue) && GoneOrWaits(queue, t, bound, blockers, usable) && usable(t) && blockers < limit
    ensures GoneOrWaits(Step(queue, limit, usable), t, bound - 1, blockers, usable)
  {
    StepMembers(queue, limit, usable, t);
    if t in queue {
      OneStep(queue, t, bound, blockers, limit, usable);
    }
  }

  /** The position waits behind a sync's share or more of blockers. */
  ghost predicate Stuck(queue: seq<Trade>, t: Trade, bound: int, blockers: nat, usable: Trade -> bool) {
    DistinctIds(queue) && Waits(queue, t, bound, blockers, usable)
  }

  lemma OneStepStuck(queue: seq<Trade>, t: Trade, bound: int, blockers: nat, limit: nat, usable: Trade -> bool)
    requires Stuck(queue, t, bound, blockers, usable) && usable(t) && blockers >= limit
    ensures Stuck(Step(queue, limit, usable), t, bound, blockers, usable)
  {
    OneStep(queue, t, bound, blockers, limit, usable);
    StepKeepsDistinct(queue, limit, usable);
  }

  lemma {:induction false} ReachedInTime(queue: seq<Trade>, t: Trade, i: nat, limit: nat, blockers: nat, usable: Trade -> bool, n: nat)
    requires DistinctIds(queue) && GoneOrWaits(queue, t, i, blockers, usable) && usable(t) && blockers < limit
    ensures DistinctIds(Steps(queue, limit, usable, n)) && GoneOrWaits(Steps(queue, limit, usable, n), t, i - n, blockers, usable)
  {
    if n > 0 {
      ReachedInTime(queue, t, i, limit, blockers, usable, n - 1);
      StepsKeepDistinct(queue, limit, usable, n);
      OneStepOn(Steps(queue, limit, usable, n - 1), t, i - (n - 1), blockers, limit, usable);
    }
  }

  ghost function IsStuck(t: Trade, bound: int, blockers: nat, usable: Trade -> bool): seq<Trade> -> bool {
    (queue: seq<Trade>) => Stuck(queue, t, bound, blockers, usable)
  }

  lemma NeverReached(queue: seq<Trade>, t: Trade, i: nat, limit: nat, blockers: nat, usable: Trade -> bool, n: nat)
    requires Stuck(queue, t, i, blockers, usable) && usable(t) && blockers >= limit
    ensures Stuck(Steps(queue, limit, usable, n), t, i, blockers, usable)
  {
    var step, stuck := TakeShare(limit, usable), IsStuck(t, i, blockers, usable);
    forall now | stuck(now) ensures stuck(step(now)) {
      OneStepStuck(now, t, i, blockers, limit, usable);
    }
    RunsKeep(step, stuck, queue, n);
  }

  lemma WaitsIsIn(queue: seq<Trade>, t: Trade, bound: int, blockers: nat, usable: Trade -> bool)
    requires Waits(queue, t, bound, blockers, usable)
    ensures t in queue && bound >= 0
  {
    var k: nat :| At(queue, t, k, blockers, usable) && k <= bound;
    assert queue[k] == t;
  }

  lemma ReachedOrNot(queue: seq<Trade>, i: nat, limit: nat, usable: Trade -> bool, n: nat)
    requires DistinctIds(queue) && i < |queue| && usable(queue[i])
    ensures Blockers(queue, i, usable) < limit && n > i ==> queue[i] !in Steps(queue, limit, usable, n)
    ensures Blockers(queue, i, usable) >= limit ==> queue[i] in Steps(queue, limit, usable, n)
  {
    var t, blockers := queue[i], Blockers(queue, i, usable);
    assert At(queue, t, i, blockers, usable);
    if blockers < limit {
      ReachedInTime(queue, t, i, limit, blockers, usable, n);
      if n > i && t in Steps(queue, limit, usable, n) {
        WaitsIsIn(Steps(queue, limit, usable, n), t, i - n, blockers, usable);
      }
    } else {
      NeverReached(queue, t, i, limit, blockers, usable, n);
      WaitsIsIn(Steps(queue, limit, usable, n), t, i, blockers, usable);
    }
  }

  /** A position that can be measured leaves the queue exactly if fewer than a sync's share block the way. */
  lemma ReachedExactly(queue: seq<Trade>, i: nat, limit: nat, usable: Trade -> bool)
    requires DistinctIds(queue) && i < |queue| && usable(queue[i])
    ensures (exists n: nat :: queue[i] !in Steps(queue, limit, usable, n)) <==> Blockers(queue, i, usable) < limit
  {
    forall n: nat { ReachedOrNot(queue, i, limit, usable, n); }
    ReachedOrNot(queue, i, limit, usable, i + 1);
  }

  /** With nothing in the way each sync takes exactly its share. */
  lemma {:induction false} SharesLeave(queue: seq<Trade>, limit: nat, usable: Trade -> bool, n: nat)
    requires forall t :: t in queue ==> usable(t)
    ensures n * limit >= 0
    ensures Steps(queue, limit, usable, n) == if n * limit < |queue| then queue[n * limit..] else []
  {
    if n > 0 {
      SharesLeave(queue, limit, usable, n - 1);
      Share(n, limit);
      StepTakesShare(Steps(queue, limit, usable, n - 1), limit, usable);
    }
  }

  lemma Share(n: nat, limit: nat)
    requires n > 0
    ensures n * limit == (n - 1) * limit + limit && (n - 1) * limit >= 0
  {
  }

  lemma StepTakesShare(queue: seq<Trade>, limit: nat, usable: Trade -> bool)
    requires forall t :: t in queue ==> usable(t)
    ensures Step(queue, limit, usable) == if |queue| <= limit then [] else queue[limit..]
  {
    NoneKept(if |queue| <= limit then queue else queue[..limit], Not(usable));
  }

  lemma {:induction false} NoneKept(s: seq<Trade>, keep: Trade -> bool)
    requires forall t :: t in s ==> !keep(t)
    ensures Filter(s, keep) == []
  {
    if s != [] {
      assert s[|s| - 1] in s;
      NoneKept(s[..|s| - 1], keep);
    }
  }
}
