/** The values exchanged between the pool and its workers. */
module Protocol {

  datatype Option<+T> = None | Some(value: T)

  /** Instants and durations are whole microseconds, the resolution of the source's datetimes. */
  const SECOND: int := 1_000_000
  const MINUTE: int := 60 * SECOND
  const HOUR: int := 60 * MINUTE
  const DAY: int := 24 * HOUR

  const AUTHORIZATION_FAILED: int := -6
  const IPC_ERROR_CEILING: int := -10000

  function Abs(x: int): int { if x < 0 then -x else x }

  /** What a worker saw while it started or attached to its terminal. */
  datatype StartReport = StartReport(
    attached: bool, launched: bool, pid: Option<int>, killed: Option<string>,
    died: bool, replaced: bool, initialized: bool, ipcFailed: bool)
  {
    predicate Hard() { died || killed == Some("zombie") }

    predicate Soft() { ipcFailed && !Hard() && !initialized }
  }

  datatype SyncResult = SyncResult(
    ok: bool, errorCode: Option<int>, terminalLost: bool, proxyDead: bool, terminal: Option<StartReport>)

  /** The failure the pool itself makes up when no worker answer exists. */
  const POOL_FAILURE := SyncResult(false, None, false, false, None)

  predicate IsIpc(code: Option<int>) { code.Some? && code.value <= IPC_ERROR_CEILING }

  datatype SyncKind = Initial | HardSync | Scheduled
}
