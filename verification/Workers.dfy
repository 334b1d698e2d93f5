/** The handle of one worker process: its states, and the restart loop. */
module Workers {

  datatype WorkerState = Starting | Idle | Busy | Restarting | Failed | Stopped

  /** What one spawn comes to. */
  datatype SpawnOutcome = WouldNotSpawn | NoAnswer | WrongAnswer | CameUp

  const RESTART_ATTEMPTS: nat := 3

  class WorkerHandle {
    var state: WorkerState
    var connected: bool
    var ready: bool
    var restarts: nat

    constructor ()
      ensures state == Starting && !connected && !ready && restarts == 0
    {
      state, connected, ready, restarts := Starting, false, false, 0;
    }

    method Terminate()
      modifies this`connected
      ensures !connected
    {
      connected := false;
    }

    method MarkIdle()
      modifies this`state, this`ready
      ensures state == Idle && ready
    {
      state, ready := Idle, true;
    }

    method MarkFailed()
      modifies this`state, this`ready
      ensures state == Failed && !ready
    {
      state, ready := Failed, false;
    }

    method StartFailed() returns (up: bool)
      modifies this`connected, this`state, this`ready
      ensures !up && state == Failed && !ready && !connected
    {
      Terminate();
      MarkFailed();
      return false;
    }

    /** A worker comes up idle and connected, or ends up failed with nothing left of it. */
    method Spawn(outcome: SpawnOutcome) returns (up: bool)
      modifies this`connected, this`state, this`ready
      ensures up == outcome.CameUp?
      ensures up ==> state == Idle && ready && connected
      ensures !up ==> state == Failed && !ready && !connected
    {
      if outcome.WouldNotSpawn? {
        up := StartFailed();
        return;
      }
      connected, state := true, Starting;
      if outcome.NoAnswer? {
        up := StartFailed();
        return;
      }
      if outcome.WrongAnswer? {
        up := StartFailed();
        return;
      }
      MarkIdle();
      return true;
    }

    /** A restart stops at the first spawn that comes up, and gives up after the third that does not. */
    method Restart(outcomes: nat -> SpawnOutcome) returns (up: bool)
      modifies this`connected, this`state, this`ready, this`restarts
      ensures up <==> outcomes(1).CameUp? || outcomes(2).CameUp? || outcomes(3).CameUp?
      ensures restarts == old(restarts) + if outcomes(1).CameUp? then 1 else if outcomes(2).CameUp? then 2 else 3
      ensures up ==> state == Idle && ready && connected
      ensures !up ==> state == Failed && !ready && !connected
    {
      state, ready := Restarting, false;
      Terminate();
      var attempt := 1;
      while attempt <= RESTART_ATTEMPTS
        invariant 1 <= attempt <= RESTART_ATTEMPTS + 1
        invariant restarts == old(restarts) + attempt - 1
        invariant forall j :: 1 <= j < attempt ==> !outcomes(j).CameUp?
        invariant attempt > 1 ==> state == Failed && !ready && !connected
      {
        restarts := restarts + 1;
        up := Spawn(outcomes(attempt));
        if up {
          return;
        }
        attempt := attempt + 1;
      }
      return false;
    }
  }
}
