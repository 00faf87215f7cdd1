/**
 One observation: what the port replies make of a snapshot, and the run of
 protocol steps that it is.
 */
module Lifecycle {
  import opened Outcomes
  import opened Status
  import opened Protocol
  import opened Recovery

  /** The replies the ports give during one observation, the helper's for each request it can be asked about, and the
      clock it reads. */
  datatype Ports = Ports(ssh: Result<bool>, clock: nat, wakeError: Option<string>,
                         helper: Request -> Result<Observation>, tunnel: Result<TunnelState>)

  /** One observation: what it decides, the status it publishes, if any, and the wake it sent, if any. */
  datatype Report = Report(decision: Decision, published: Option<BackendStatus>, woke: Option<Request>)

  function Fails(status: BackendStatus, error: string): Report {
    Report(Decision.Failed(status, error), None, None)
  }

  function Shows(status: BackendStatus): Report {
    Report(if BackendIsReady(status) then Decision.Ready(status) else Decision.Warming(status), Some(status), None)
  }

  /** The host does not answer ssh: wake it if asked to and allowed, and report it warming. */
  function ObserveAsleep(wake: Option<Request>, status: BackendStatus, ports: Ports): Report {
    if wake.Some? && ShouldRequestWake(status.lifecycle) then
      var woken := BeforeWake(status, ports.clock);
      match ports.wakeError
      case Some(error) => Fails(woken.(lifecycle := LifecycleState.Error), error).(woke := wake)
      case None => Shows(Asleep(woken)).(woke := wake)
    else
      Shows(Asleep(status))
  }

  /** The host answers ssh: ask the helper and, when it says Ready, the tunnel. */
  function ObserveAwake(ask: Request, status: BackendStatus, ports: Ports): Report {
    match ports.helper(ask)
    case Err(error) => Fails(Broken(status), error)
    case Ok(seen) =>
      var adopted := Adopt(status, seen);
      if seen.lifecycle.Error? then
        Fails(adopted.(tunnel := TunnelState.Down), seen.error.GetOr(UNSPECIFIED_ERROR))
      else if !seen.lifecycle.Ready? then
        Shows(adopted.(tunnel := TunnelState.Down))
      else
        match ports.tunnel
        case Err(error) => Fails(Broken(adopted), error)
        case Ok(state) => Shows(WithTunnel(adopted, state))
  }

  /** `wake`: the leader's request; `ask`: the request the helper is asked about. */
  function Observe(wake: Option<Request>, ask: Request, status: BackendStatus, ports: Ports): Report {
    match ports.ssh
    case Err(error) => Fails(Broken(status), error)
    case Ok(up) => if up then ObserveAwake(ask, status, ports) else ObserveAsleep(wake, status, ports)
  }

  // The same in plain terms.

  /** Everything but lifecycle, tunnel and wake timestamp is as before. */
  predicate KeepsCapabilities(now: BackendStatus, was: BackendStatus) {
    && now.chat == was.chat && now.embeddings == was.embeddings && now.embeddingsReason == was.embeddingsReason
    && now.leaseExpiresAt == was.leaseExpiresAt
    && now.llamaServerUnit == was.llamaServerUnit && now.inhibitUnit == was.inhibitUnit
  }

  /** Capabilities and units are what the helper reports, lease and wake timestamp are as before. */
  predicate TakesCapabilities(now: BackendStatus, seen: Observation, was: BackendStatus) {
    && now.chat == seen.chat && now.embeddings == seen.embeddings && now.embeddingsReason == seen.embeddingsReason
    && now.llamaServerUnit == seen.llamaServerUnit && now.inhibitUnit == seen.inhibitUnit
    && now.leaseExpiresAt == was.leaseExpiresAt && now.lastWakeAttemptAt == was.lastWakeAttemptAt
  }

  predicate KeepsAllButEmbeddings(now: BackendStatus, was: BackendStatus) {
    && now.lifecycle == was.lifecycle && now.chat == was.chat && now.tunnel == was.tunnel
    && now.lastWakeAttemptAt == was.lastWakeAttemptAt && now.leaseExpiresAt == was.leaseExpiresAt
    && now.llamaServerUnit == was.llamaServerUnit && now.inhibitUnit == was.inhibitUnit
  }

  predicate FailsOf(report: Report, error: string) {
    report.decision.Failed? && report.decision.error == error && report.published.None?
    && report.decision.status.lifecycle.Error? && report.decision.status.tunnel.Down?
  }

  predicate WarmsOf(report: Report, lifecycle: LifecycleState, tunnel: TunnelState) {
    report.decision.Warming? && report.published == Some(report.decision.status)
    && report.decision.status.lifecycle == lifecycle && report.decision.status.tunnel == tunnel
  }

  /** The host is asleep.  A wake goes out exactly when there is a request to wake for and the snapshot does not say
      Warming; it stamps the status with the clock, and if it succeeds the stamped status is published as Warming. */
  predicate AsleepSays(wake: Option<Request>, was: BackendStatus, ports: Ports, report: Report) {
    var s := report.decision.status;
    && report.woke == (if was.lifecycle.Warming? then None else wake)
    && KeepsCapabilities(s, was)
    && s.lastWakeAttemptAt == (if report.woke.Some? then Some(ports.clock) else was.lastWakeAttemptAt)
    && if report.woke.Some? && ports.wakeError.Some? then FailsOf(report, ports.wakeError.value)
       else WarmsOf(report, LifecycleState.Warming, TunnelState.Down)
  }

  /** The host is awake: the helper's answer, and the tunnel if that says Ready. */
  predicate AwakeSays(helper: Result<Observation>, was: BackendStatus, ports: Ports, report: Report) {
    var s := report.decision.status;
    && report.woke.None?
    && match helper
       case Err(error) =>
         FailsOf(report, error) && KeepsCapabilities(s, was) && s.lastWakeAttemptAt == was.lastWakeAttemptAt
       case Ok(seen) =>
         && TakesCapabilities(s, seen, was)
         && match seen.lifecycle {
              case Error => FailsOf(report, seen.error.GetOr("backend reported error state"))
              case Cold => WarmsOf(report, LifecycleState.Cold, TunnelState.Down)
              case Warming => WarmsOf(report, LifecycleState.Warming, TunnelState.Down)
              case Ready =>
                if ports.tunnel.Err? then FailsOf(report, ports.tunnel.error)
                else if !ports.tunnel.value.Ready? then WarmsOf(report, LifecycleState.Warming, ports.tunnel.value)
                else
                  && report.decision.Ready? && report.published == Some(s)
                  && s.lifecycle.Ready? && s.tunnel.Ready?
            }
  }

  /** What an observation must report, whatever the ports reply. */
  predicate ObservationSays(wake: Option<Request>, ask: Request, was: BackendStatus, ports: Ports, report: Report) {
    match ports.ssh
    case Err(error) =>
      && report.woke.None? && FailsOf(report, error)
      && KeepsCapabilities(report.decision.status, was)
      && report.decision.status.lastWakeAttemptAt == was.lastWakeAttemptAt
    case Ok(up) =>
      if up then AwakeSays(ports.helper(ask), was, ports, report) else AsleepSays(wake, was, ports, report)
  }

  lemma ObserveSays(wake: Option<Request>, ask: Request, status: BackendStatus, ports: Ports)
    ensures ObservationSays(wake, ask, status, ports, Observe(wake, ask, status, ports))
  {
  }

  // The port replies and the publish of one observation, as steps of task `t`.

  function AsleepSteps(wake: Option<Request>, status: BackendStatus, ports: Ports, t: Tid): seq<Label> {
    if wake.Some? && ShouldRequestWake(status.lifecycle) then
      [WakeReply(t, ports.wakeError)] + (if ports.wakeError.None? then [Publish(t)] else [])
    else
      [Publish(t)]
  }

  function AwakeSteps(ask: Request, ports: Ports, t: Tid): seq<Label> {
    [HelperReply(t, ports.helper(ask))] +
    match ports.helper(ask)
    case Err(_) => []
    case Ok(seen) =>
      if seen.lifecycle.Error? then []
      else if !seen.lifecycle.Ready? then [Publish(t)]
      else [TunnelReply(t, ports.tunnel)] + (if ports.tunnel.Ok? then [Publish(t)] else [])
  }

  function ObserveSteps(wake: Option<Request>, ask: Request, status: BackendStatus, ports: Ports, t: Tid): seq<Label> {
    [SshReply(t, ports.ssh, ports.clock)] +
    match ports.ssh
    case Err(_) => []
    case Ok(up) => if up then AwakeSteps(ask, ports, t) else AsleepSteps(wake, status, ports, t)
  }

  /** The steps hold a wake exactly when the observation sent one. */
  lemma WakeStepExactly(wake: Option<Request>, ask: Request, status: BackendStatus, ports: Ports, t: Tid)
    ensures var steps := ObserveSteps(wake, ask, status, ports, t);
            (exists i :: 0 <= i < |steps| && steps[i].WakeReply?) <==> Observe(wake, ask, status, ports).woke.Some?
  {
    var steps := ObserveSteps(wake, ask, status, ports, t);
    if Observe(wake, ask, status, ports).woke.Some? {
      assert steps[1] == WakeReply(t, ports.wakeError);
    }
  }

  /** Where a task stands after an observation with this decision. */
  predicate Stands(role: Role, decision: Decision, pc: Pc) {
    match decision
    case Ready(status) =>
      if role.Leader? then pc.Reborrowing? && pc.role == role && pc.status == status
      else pc.Finishing? && pc.role == role && pc.status == status && pc.error.None?
    case Warming(_) => if role.Leader? then pc == Spawning(role) else pc == Idle
    case Failed(status, error) => pc.Finishing? && pc.role == role && pc.status == status && pc.error == Some(error)
  }

  /** The steps `run` take task `t` of `w` through an observation with this report. */
  ghost predicate Performs(w: World, t: Tid, role: Role, run: seq<Label>, report: Report) {
    && Legal(w, run)
    && t in Run(w, run).tasks && Stands(role, report.decision, Run(w, run).tasks[t])
    && Run(w, run).core == (if report.published.Some? then w.core.Publish(report.published.value) else w.core)
  }

  lemma PublishPerforms(w: World, t: Tid)
    requires t in w.tasks && w.tasks[t].Publishing?
    ensures Performs(w, t, w.tasks[t].role, [Publish(t)], Shows(w.tasks[t].status))
  {
    RunOne(w, Publish(t));
  }

  /** A step that leaves the core alone, then a run that performs the report. */
  lemma ThenPerforms(w: World, t: Tid, role: Role, l: Label, rest: seq<Label>, report: Report)
    requires Enabled(w, l) && Next(w, l).core == w.core && Performs(Next(w, l), t, role, rest, report)
    ensures Performs(w, t, role, [l] + rest, report)
  {
    RunFrom(w, l, rest);
  }

  lemma TunnelPerforms(w: World, t: Tid, tunnel: Result<TunnelState>)
    requires t in w.tasks && w.tasks[t].Tunnelling?
    ensures var l, status := TunnelReply(t, tunnel), w.tasks[t].status;
            match tunnel
            case Err(error) => Performs(w, t, w.tasks[t].role, [l] + [], Fails(Broken(status), error))
            case Ok(state) => Performs(w, t, w.tasks[t].role, [l] + [Publish(t)], Shows(WithTunnel(status, state)))
  {
    var l := TunnelReply(t, tunnel);
    if tunnel.Ok? { PublishPerforms(Next(w, l), t); }
    ThenPerforms(w, t, w.tasks[t].role, l, if tunnel.Ok? then [Publish(t)] else [],
                 if tunnel.Ok? then Shows(WithTunnel(w.tasks[t].status, tunnel.value))
                 else Fails(Broken(w.tasks[t].status), tunnel.error));
  }

  lemma AwakePerforms(w: World, t: Tid, ports: Ports)
    requires t in w.tasks && w.tasks[t].Helping?
    ensures Performs(w, t, w.tasks[t].role, AwakeSteps(w.tasks[t].probe.request, ports, t),
                     ObserveAwake(w.tasks[t].probe.request, w.tasks[t].status, ports))
  {
    var ask := w.tasks[t].probe.request;
    var r, role := HelperReply(t, ports.helper(ask)), w.tasks[t].role;
    var w' := Next(w, r);
    if w'.tasks[t].Publishing? { PublishPerforms(w', t); }
    if w'.tasks[t].Tunnelling? { TunnelPerforms(w', t, ports.tunnel); }
    ThenPerforms(w, t, role, r, AwakeSteps(ask, ports, t)[1..], ObserveAwake(ask, w.tasks[t].status, ports));
  }

  lemma WakePerforms(w: World, t: Tid, wakeError: Option<string>)
    requires t in w.tasks && w.tasks[t].Waking?
    ensures var l, role, status := WakeReply(t, wakeError), w.tasks[t].role, w.tasks[t].status;
            match wakeError
            case Some(error) => Performs(w, t, role, [l] + [], Fails(status.(lifecycle := LifecycleState.Error), error))
            case None => Performs(w, t, role, [l] + [Publish(t)], Shows(Asleep(status)))
  {
    var l, role, status := WakeReply(t, wakeError), w.tasks[t].role, w.tasks[t].status;
    if wakeError.None? {
      PublishPerforms(Next(w, l), t);
      ThenPerforms(w, t, role, l, [Publish(t)], Shows(Asleep(status)));
    } else {
      ThenPerforms(w, t, role, l, [], Fails(status.(lifecycle := LifecycleState.Error), wakeError.value));
    }
  }

  /** One uninterrupted observation is exactly these steps of the protocol. */
  lemma ObserveIsARun(w: World, t: Tid, ports: Ports)
    requires t in w.tasks && w.tasks[t].Probing?
    ensures var Probing(role, probe, status) := w.tasks[t];
            var wake := if role.Leader? then Some(role.kind) else None;
            Performs(w, t, role, ObserveSteps(wake, probe.request, status, ports, t),
                     Observe(wake, probe.request, status, ports))
  {
    var Probing(role, probe, status) := w.tasks[t];
    var wake := if role.Leader? then Some(role.kind) else None;
    var l := SshReply(t, ports.ssh, ports.clock);
    var w' := Next(w, l);
    if w'.tasks[t].Waking? {
      WakePerforms(w', t, ports.wakeError);
    } else if w'.tasks[t].Publishing? {
      PublishPerforms(w', t);
    } else if w'.tasks[t].Helping? {
      AwakePerforms(w', t, ports);
    }
    ThenPerforms(w, t, role, l, ObserveSteps(wake, probe.request, status, ports, t)[1..],
                 Observe(wake, probe.request, status, ports));
  }
}
