/**
 Backend status, the requests that ask for it, and the pure decisions of the
 lifecycle: which snapshot may be woken, which status counts as ready, what a
 waiter concludes from what it sees, and what each port reply does to the
 status an observation carries.
 */
module Status {
  import opened Outcomes

  datatype LifecycleState = Cold | Warming | Ready | Error
  datatype CapabilityState = Ready | Degraded
  datatype TunnelState = Down | Connecting | Ready
  datatype UnitState = Unknown | Inactive | Activating | Active | Failed
  datatype Request = Chat | Embeddings

  datatype BackendStatus = BackendStatus(
    lifecycle: LifecycleState,
    chat: CapabilityState,
    embeddings: CapabilityState,
    embeddingsReason: Option<string>,
    tunnel: TunnelState,
    lastWakeAttemptAt: Option<nat>,
    leaseExpiresAt: Option<nat>,
    llamaServerUnit: UnitState,
    inhibitUnit: UnitState)

  const DEFAULT_STATUS := BackendStatus(
    LifecycleState.Cold, CapabilityState.Ready, CapabilityState.Ready, None,
    TunnelState.Down, None, None, UnitState.Unknown, UnitState.Unknown)

  /** What the helper reports about the backend. */
  datatype Observation = Observation(
    lifecycle: LifecycleState,
    chat: CapabilityState,
    embeddings: CapabilityState,
    embeddingsReason: Option<string>,
    error: Option<string>,
    llamaServerUnit: UnitState,
    inhibitUnit: UnitState)

  datatype Decision =
    | Ready(status: BackendStatus)
    | Warming(status: BackendStatus)
    | Failed(status: BackendStatus, error: string)

  const UNSPECIFIED_ERROR := "backend reported error state"
  const DEADLINE_ERROR := "backend did not become ready before the boot deadline"

  predicate ShouldRequestWake(lifecycle: LifecycleState) {
    lifecycle.Cold? || lifecycle.Ready? || lifecycle.Error?
  }

  predicate BackendIsReady(status: BackendStatus) {
    status.lifecycle.Ready? && status.tunnel.Ready?
  }

  function Priority(request: Request): nat {
    match request
    case Chat => 0
    case Embeddings => 1
  }

  /** The status with which a waiter times out. */
  function WaitStatus(status: BackendStatus, stale: bool): BackendStatus {
    if stale then status.(lifecycle := LifecycleState.Warming, tunnel := TunnelState.Down) else status
  }

  /** What one pass of the waiting loop concludes. */
  datatype Verdict = Settled(decision: Decision) | Wait(stale: bool)

  function Judge(status: BackendStatus, active: bool, lastError: Option<string>): Verdict {
    var stale := active && !status.lifecycle.Warming?;
    if !stale && BackendIsReady(status) then
      Settled(Decision.Ready(status))
    else if !stale && status.lifecycle.Error? then
      Settled(Decision.Failed(status, lastError.GetOr(UNSPECIFIED_ERROR)))
    else
      Wait(stale)
  }

  // What each reply does to the status carried through one observation.

  function Broken(status: BackendStatus): BackendStatus {
    status.(lifecycle := LifecycleState.Error, tunnel := TunnelState.Down)
  }

  function Asleep(status: BackendStatus): BackendStatus {
    status.(lifecycle := LifecycleState.Warming, tunnel := TunnelState.Down)
  }

  function BeforeWake(status: BackendStatus, clock: nat): BackendStatus {
    status.(lastWakeAttemptAt := Some(clock), tunnel := TunnelState.Down)
  }

  function Adopt(status: BackendStatus, seen: Observation): BackendStatus {
    status.(lifecycle := seen.lifecycle, chat := seen.chat, embeddings := seen.embeddings,
    embeddingsReason := seen.embeddingsReason, llamaServerUnit := seen.llamaServerUnit,
    inhibitUnit := seen.inhibitUnit)
  }

  function WithTunnel(status: BackendStatus, tunnel: TunnelState): BackendStatus {
    if tunnel.Ready? then status.(tunnel := tunnel)
    else status.(tunnel := tunnel, lifecycle := LifecycleState.Warming)
  }

  /** The two edits made to the published status outside a bootstrap. */
  datatype Edit = MarkWarming | Degrade(reason: string)

  function ApplyEdit(edit: Edit, status: BackendStatus): BackendStatus {
    match edit
    case MarkWarming => Asleep(status)
    case Degrade(reason) =>
      status.(embeddings := CapabilityState.Degraded, embeddingsReason := Some(reason))
  }
}
