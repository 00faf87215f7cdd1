/**
 The chain behind a Ready: the helper on the host, its exit status, and the RPC
 that turns its answer into an observation.  systemd, the model server and ssh
 are ports that answer as they like.
 */
module Helper {
  import opened Outcomes
  import opened Status
  import opened Text

  datatype HelperStatus = Ok | Mismatch | Error

  const POLL_MS: nat := 500

  /** The host as one `ensure-started` finds it.  `alive(t)` says whether the server answers at millisecond `t`,
      `took(t)` how long asking it takes; `identity` is the first model id it reports. */
  datatype Host = Host(
    expectedPath: string,
    isActive: Result<bool>,
    startError: Option<string>,
    timeoutSecs: nat,
    alive: nat -> bool,
    took: nat -> nat,
    identity: Result<Option<string>>)

  datatype Response = Response(
    status: HelperStatus,
    message: string,
    startupTriggered: bool,
    serverReady: bool,
    modelVerified: bool)

  /** The first poll, from `t` on and before the deadline, that the server answers. */
  function FirstAnswer(host: Host, t: nat, deadline: nat): Option<nat>
    decreases deadline - t
  {
    if t >= deadline then None
    else if host.alive(t) then Some(t)
    else FirstAnswer(host, t + host.took(t) + POLL_MS, deadline)
  }

  lemma {:induction false} FirstAnswerIsAlive(host: Host, t: nat, deadline: nat)
    ensures FirstAnswer(host, t, deadline).Some? ==>
              t <= FirstAnswer(host, t, deadline).value < deadline && host.alive(FirstAnswer(host, t, deadline).value)
    decreases deadline - t
  {
    if t < deadline && !host.alive(t) {
      FirstAnswerIsAlive(host, t + host.took(t) + POLL_MS, deadline);
    }
  }

  /** Polls twice a second until the server answers or the timeout has passed. */
  method WaitForServer(host: Host, start: nat) returns (ready: bool, tried: nat)
    ensures ready <==> FirstAnswer(host, start, start + 1000 * host.timeoutSecs).Some?
    ensures tried <= 2 * host.timeoutSecs
    ensures host.timeoutSecs == 0 ==> !ready
  {
    var deadline := start + 1000 * host.timeoutSecs;
    var now := start;
    tried := 0;
    while now < deadline
      invariant FirstAnswer(host, start, deadline) == FirstAnswer(host, now, deadline)
      invariant start + POLL_MS * tried <= now && now >= start
      invariant POLL_MS * tried < deadline - start + POLL_MS
      decreases deadline - now
    {
      tried := tried + 1;
      if host.alive(now) {
        return true, tried;
      }
      now := now + host.took(now) + POLL_MS;
    }
    ready := false;
  }

  /** A server that is up for the last half second before the deadline and the longest that asking it took before
      that, is found. */
  lemma {:induction false} UpInTimeIsFound(host: Host, t: nat, deadline: nat, longest: nat)
    requires t < deadline
    requires forall x :: host.took(x) <= longest
    requires forall x :: t <= x < deadline && deadline <= x + longest + 500 ==> host.alive(x)
    ensures FirstAnswer(host, t, deadline).Some?
    decreases deadline - t
  {
    if !host.alive(t) {
      UpInTimeIsFound(host, t + host.took(t) + POLL_MS, deadline, longest);
    }
  }

  /** The unit runs, whether it did already or was started now. */
  predicate UnitRuns(host: Host) {
    host.isActive == Result.Ok(true) || host.startError.None?
  }

  predicate Answers(host: Host, start: nat) {
    FirstAnswer(host, start, start + 1000 * host.timeoutSecs).Some?
  }

  /** The id the server reports and the configured path: one is part of the other. */
  predicate Matches(id: string, path: string) {
    Contains(id, path) || Contains(path, id)
  }

  /** The server was up in time and reported a matching id. */
  predicate Verified(host: Host, start: nat) {
    && UnitRuns(host) && Answers(host, start)
    && host.identity.Ok? && host.identity.value.Some? && Matches(host.identity.value.value, host.expectedPath)
  }

  /** The status of the answer. */
  function Ensured(host: Host, start: nat): HelperStatus {
    if Verified(host, start) then HelperStatus.Ok
    else if UnitRuns(host) && Answers(host, start) && host.identity.Ok? && host.identity.value.Some? then Mismatch
    else HelperStatus.Error
  }

  method EnsureStarted(host: Host, start: nat) returns (r: Response)
    ensures r.status == Ensured(host, start)
    ensures r.status.Ok? <==>
              && (host.isActive == Result.Ok(true) || host.startError.None?) && Answers(host, start)
              && host.identity.Ok? && host.identity.value.Some?
              && (Contains(host.identity.value.value, host.expectedPath)
                  || Contains(host.expectedPath, host.identity.value.value))
    ensures r.modelVerified <==> r.status.Ok?
    ensures r.status.Mismatch? <==>
              && (host.isActive == Result.Ok(true) || host.startError.None?) && Answers(host, start)
              && host.identity.Ok? && host.identity.value.Some?
              && !Contains(host.identity.value.value, host.expectedPath)
              && !Contains(host.expectedPath, host.identity.value.value)
    ensures r.startupTriggered <==> host.isActive != Result.Ok(true) && host.startError.None?
    ensures r.serverReady <==> (host.isActive == Result.Ok(true) || host.startError.None?) && Answers(host, start)
  {
    var startupTriggered := false;
    var isActive := if host.isActive.Ok? then host.isActive.value else false;
    if !isActive {
      match host.startError {
        case None =>
          startupTriggered := true;
        case Some(e) =>
          return Response(HelperStatus.Error, "failed to start llama-server: " + e, false, false, false);
      }
    }
    var serverReady, tried := WaitForServer(host, start);
    if !serverReady {
      return Response(HelperStatus.Error, "llama-server did not become ready", startupTriggered, false, false);
    }
    match host.identity {
      case Ok(Some(id)) =>
        if Contains(id, host.expectedPath) || Contains(host.expectedPath, id) {
          r := Response(HelperStatus.Ok,
                        if startupTriggered then "model started and verified successfully"
                        else "model is already running and ready",
                        startupTriggered, serverReady, true);
        } else {
          r := Response(HelperStatus.Mismatch,
                        "expected model path '" + host.expectedPath + "', but server reports '" + id + "'",
                        startupTriggered, serverReady, false);
        }
      case Ok(None) =>
        r := Response(HelperStatus.Error, "server responded but returned no model identifiers",
                      startupTriggered, serverReady, false);
      case Err(e) =>
        r := Response(HelperStatus.Error, "model identity check failed: " + e, startupTriggered, serverReady, false);
    }
  }

  /** The helper process: its JSON answer if the exit status is success, else the ssh command fails. */
  function HelperProcess(host: Host, start: nat): Result<HelperStatus> {
    if host.expectedPath == "" then Err("EXPECTED_MODEL_PATH must be set for ensure-started")
    else
      match Ensured(host, start)
      case Ok => Result.Ok(HelperStatus.Ok)
      case _ => Err("helper command failed")
  }

  /** One RPC: the host, the time, a failure of ssh or of parsing, and the units the status call reports, if it
      succeeds. */
  datatype Rpc = Rpc(host: Host, start: nat, transportError: Option<string>, unit: UnitState,
                     units: Option<(UnitState, UnitState)>)

  function FromEnsureStarted(status: HelperStatus, modelVerified: bool, message: string, unit: UnitState): Observation {
    Observation(
      if status.Ok? then (if modelVerified then LifecycleState.Ready else LifecycleState.Warming)
      else LifecycleState.Error,
      CapabilityState.Ready, CapabilityState.Ready, None,
      if status.Ok? then None else Some(message),
      unit, UnitState.Unknown)
  }

  function ObserveBackend(rpc: Rpc): Result<Observation> {
    if rpc.transportError.Some? then Err(rpc.transportError.value)
    else
      match HelperProcess(rpc.host, rpc.start)
      case Err(e) => Err(e)
      case Ok(status) =>
        var state := FromEnsureStarted(status, status.Ok?, "", rpc.unit);
        Result.Ok(
          if state.lifecycle.Ready? && rpc.units.Some? then
            state.(llamaServerUnit := rpc.units.value.0, inhibitUnit := rpc.units.value.1)
          else state)
  }

  /** The RPC as it runs: the helper command, its exit status, the mapping of its answer, the patch of the units. */
  method ObserveOverSsh(rpc: Rpc) returns (r: Result<Observation>)
    ensures r == ObserveBackend(rpc)
  {
    if rpc.transportError.Some? {
      return Err(rpc.transportError.value);
    }
    if rpc.host.expectedPath == "" {
      return Err("EXPECTED_MODEL_PATH must be set for ensure-started");
    }
    var ensure := EnsureStarted(rpc.host, rpc.start);
    if !ensure.status.Ok? {
      return Err("helper command failed");
    }
    var state := FromEnsureStarted(ensure.status, ensure.modelVerified, ensure.message, rpc.unit);
    if state.lifecycle.Ready? && rpc.units.Some? {
      state := state.(llamaServerUnit := rpc.units.value.0);
      state := state.(inhibitUnit := rpc.units.value.1);
    }
    r := Result.Ok(state);
  }

  predicate VerifiedRpc(rpc: Rpc) {
    rpc.transportError.None? && rpc.host.expectedPath != "" && Verified(rpc.host, rpc.start)
  }

  /** An observation succeeds exactly when the host was verified, and then it says Ready: the branches for a warming
      or failed backend are never taken behind the helper's exit status. */
  lemma ObservationMeansVerified(rpc: Rpc)
    ensures ObserveBackend(rpc).Ok? <==> VerifiedRpc(rpc)
    ensures ObserveBackend(rpc).Ok? ==>
              && ObserveBackend(rpc).value.lifecycle.Ready? && ObserveBackend(rpc).value.error.None?
              && exists t: nat :: rpc.start <= t < rpc.start + 1000 * rpc.host.timeoutSecs && rpc.host.alive(t)
  {
    FirstAnswerIsAlive(rpc.host, rpc.start, rpc.start + 1000 * rpc.host.timeoutSecs);
  }

  /** What a successful observation says: everything serves, and the units are those of the status call, if it answered,
      else the one that ensure-started reported. */
  lemma VerifiedObservation(rpc: Rpc)
    requires VerifiedRpc(rpc)
    ensures var r := ObserveBackend(rpc);
            && r.Ok? && r.value.lifecycle.Ready? && r.value.chat.Ready? && r.value.embeddings.Ready?
            && r.value.embeddingsReason.None? && r.value.error.None?
            && match rpc.units
               case Some(units) => r.value.llamaServerUnit == units.0 && r.value.inhibitUnit == units.1
               case None => r.value.llamaServerUnit == rpc.unit && r.value.inhibitUnit == UnitState.Unknown
  {
  }

  /** A server that reports an empty id passes: the empty text is part of every path. */
  lemma EmptyIdMatches(path: string)
    ensures Matches("", path)
  {
    assert At(path, "", 0);
  }

  // The tunnel.

  datatype Child = Child(pid: nat)

  /** What try_wait says of a child. */
  datatype Wait = Exited | StillRunning | WaitFailed

  /** One attempt to create a tunnel: spawning, then a look at the child half a second later. */
  datatype Attempt = SpawnFailed(error: string) | Spawned(child: Child, look: Wait)

  class SshTunnelManager {
    var proc: Option<Child>

    constructor ()
      ensures proc.None?
    {
      proc := None;
    }

    method CreateTunnel(attempt: Attempt) returns (r: Result<Child>)
      ensures r.Ok? <==> attempt.Spawned? && attempt.look.StillRunning?
      ensures r.Ok? ==> r.value == attempt.child
    {
      if attempt.SpawnFailed? {
        return Err("failed to spawn SSH tunnel: " + attempt.error);
      }
      match attempt.look {
        case Exited => r := Err("SSH tunnel exited immediately");
        case StillRunning => r := Result.Ok(attempt.child);
        case WaitFailed => r := Err("failed to check tunnel");
      }
    }

    /** Ready means that a child seen running is in the slot: the old one if it still runs, else a new one.  A child
        seen dead never stays, a failed creation leaves the slot empty, and a child that cannot be asked stays, Down. */
    method EnsureTunnel(before: Wait, attempt: Attempt) returns (r: Result<TunnelState>)
      modifies this
      ensures var kept := old(proc).Some? && before.StillRunning?;
              var unknown := old(proc).Some? && before.WaitFailed?;
              var created := attempt.Spawned? && attempt.look.StillRunning?;
              && (r.Err? <==> !kept && !unknown && !created)
              && (r == Result.Ok(TunnelState.Down) <==> unknown)
              && (r == Result.Ok(TunnelState.Ready) <==> kept || (created && !unknown))
              && proc == if kept || unknown then old(proc) else if created then Some(attempt.child) else None
    {
      if proc.Some? {
        match before {
          case Exited =>
            proc := None;
            var created := CreateTunnel(attempt);
            match created {
              case Ok(child) =>
                proc := Some(child);
                r := Result.Ok(TunnelState.Ready);
              case Err(e) => r := Err(e);
            }
          case StillRunning => r := Result.Ok(TunnelState.Ready);
          case WaitFailed => r := Result.Ok(TunnelState.Down);
        }
      } else {
        var created := CreateTunnel(attempt);
        match created {
          case Ok(child) =>
            proc := Some(child);
            r := Result.Ok(TunnelState.Ready);
          case Err(e) => r := Err(e);
        }
      }
    }
  }
}
