/** Strikes per terminal and the quarantine they lead to. */
module HealthSpec {
  import opened Protocol

  const SUSPECT_STRIKES: nat := 2
  const QUARANTINE_STRIKES: nat := 3
  const QUARANTINE_HARD_STRIKES: nat := 2
  const SOFT_QUARANTINE_STRIKES: nat := 5
  const SOFT_QUARANTINE_SERVERS: nat := 2
  const SOFT_QUARANTINE_SPAN: int := 15 * MINUTE

  datatype TerminalState = Healthy | Suspect | Quarantined | Recloning

  datatype Reason = ColdStartsDied(hard: nat, strikes: nat) | NeverAnswered(strikes: nat, servers: nat)

  /** One terminal's entry on the board, as a value. */
  datatype Health = Health(
    state: TerminalState, strikes: nat, hardStrikes: nat, failedServers: set<string>, firstStrikeAt: Option<int>,
    lastSuccessAt: Option<int>, lastLaunchAt: Option<int>, lastPid: Option<int>, build: Option<string>,
    quarantinedAt: Option<int>, quarantineReason: Option<Reason>,
    reclones: nat, lastRecloneAt: Option<int>, recloneError: Option<string>)
  {
    predicate Usable() { state == Healthy || state == Suspect }

    function ResetStrikes(): Health {
      this.(strikes := 0, hardStrikes := 0, failedServers := {}, firstStrikeAt := None)
    }
  }

  const FRESH := Health(Healthy, 0, 0, {}, None, None, None, None, None, None, None, 0, None, None)

  function QuarantineReason(h: Health, now: int): Option<Reason> {
    if h.strikes >= QUARANTINE_STRIKES && h.hardStrikes >= QUARANTINE_HARD_STRIKES then
      Some(ColdStartsDied(h.hardStrikes, h.strikes))
    else if
      && h.strikes >= SOFT_QUARANTINE_STRIKES
      && |h.failedServers| >= SOFT_QUARANTINE_SERVERS
      && h.firstStrikeAt.Some?
      && now - h.firstStrikeAt.value >= SOFT_QUARANTINE_SPAN
    then
      Some(NeverAnswered(h.strikes, |h.failedServers|))
    else
      None
  }

  function Launched(h: Health, now: int, report: Option<StartReport>): Health {
    match report
    case None => h
    case Some(r) =>
      if r.launched then h.(lastLaunchAt := Some(now), lastPid := r.pid)
      else if r.attached then h.(lastPid := r.pid)
      else h
  }

  predicate Succeeds(result: SyncResult) {
    result.ok || (result.terminal.Some? && result.terminal.value.initialized)
  }

  predicate Strikes(result: SyncResult, warming: bool) {
    && !Succeeds(result)
    && result.terminal.Some?
    && (result.terminal.value.Hard() || result.terminal.value.Soft())
    && !(result.terminal.value.Soft() && warming)
  }

  function Success(h: Health, now: int): Health {
    var reset := h.(lastSuccessAt := Some(now)).ResetStrikes();
    if reset.state == Suspect then reset.(state := Healthy) else reset
  }

  function Struck(h: Health, now: int, server: string, hard: bool): Health {
    h.(
      strikes := h.strikes + 1,
      hardStrikes := h.hardStrikes + (if hard then 1 else 0),
      failedServers := h.failedServers + {server},
      firstStrikeAt := if h.firstStrikeAt.Some? then h.firstStrikeAt else Some(now))
  }

  function Strike(h: Health, now: int, server: string, hard: bool): Health {
    var struck := Struck(h, now, server, hard);
    match QuarantineReason(struck, now)
    case Some(reason) =>
      struck.(state := Quarantined, quarantinedAt := Some(now), quarantineReason := Some(reason))
    case None =>
      if struck.strikes >= SUSPECT_STRIKES then struck.(state := Suspect) else struck
  }

  /** One result recorded against one terminal. */
  function Record(h: Health, now: int, warming: bool, server: string, result: SyncResult): Health {
    var launched := Launched(h, now, result.terminal);
    if Succeeds(result) then Success(launched, now)
    else if Strikes(result, warming) && h.Usable() then
      Strike(launched, now, server, result.terminal.value.Hard())
    else launched
  }

  function MarkRecloning(h: Health, now: int): Health {
    h.(state := Recloning, lastRecloneAt := Some(now), reclones := h.reclones + 1, recloneError := None)
  }

  function MarkRecloned(h: Health): Health {
    h.(state := Healthy, quarantinedAt := None, quarantineReason := None, build := None).ResetStrikes()
  }

  function MarkRecloneFailed(h: Health, error: string): Health {
    h.(state := Quarantined, recloneError := Some(error))
  }

  /** Recording never takes a terminal out of quarantine or out of a reclone, and never starts a reclone. */
  lemma RecordMoves(h: Health, now: int, warming: bool, server: string, result: SyncResult)
    ensures !h.Usable() ==> Record(h, now, warming, server, result).state == h.state
    ensures h.Usable() ==> Record(h, now, warming, server, result).state != Recloning
  {
  }
}
