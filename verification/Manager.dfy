/**
 The lifecycle core as an object updated in place, and its background poller.
 Methods are proved against the functions that the protocol steps use.
 */
module Manager {
  import opened Outcomes
  import opened Status
  import opened Protocol
  import opened Lifecycle
  import opened Polling

  /** One pass of a waiting call: what it reads, whether its budget is spent, and the status it times out on, unless
      a change wakes it. */
  datatype Look = Look(status: BackendStatus, active: bool, lastError: Option<string>, expired: bool,
                       timedOutOn: Option<BackendStatus>)

  /** The call waits on: it saw a bootstrap at work or nothing settled, has time left and is woken by a change. */
  predicate GoesOn(look: Look) {
    && (look.active || !(look.status.lifecycle.Error? || (look.status.lifecycle.Ready? && look.status.tunnel.Ready?)))
    && !look.expired && look.timedOutOn.None?
  }

  predicate LastLook(looks: seq<Look>, last: nat) {
    last < |looks| && !GoesOn(looks[last]) && forall k :: 0 <= k < last ==> GoesOn(looks[k])
  }

  /** What a waiting call that ends with `look` answers.  Time spent while a bootstrap is at work on anything but a
      Warming status is answered as Warming with the tunnel down. */
  predicate Concludes(look: Look, decision: Decision) {
    match decision
    case Ready(status) =>
      !look.active && status == look.status && status.lifecycle.Ready? && status.tunnel.Ready?
    case Failed(status, error) =>
      && !look.active && status == look.status && status.lifecycle.Error?
      && error == look.lastError.GetOr("backend reported error state")
    case Warming(status) =>
      && (look.expired || look.timedOutOn.Some?)
      && (look.active
          || !(look.status.lifecycle.Error? || (look.status.lifecycle.Ready? && look.status.tunnel.Ready?)))
      && var latest := if look.expired then look.status else look.timedOutOn.value;
         if look.active && !look.status.lifecycle.Warming? then
           && status.lifecycle.Warming? && status.tunnel.Down?
           && KeepsCapabilities(status, latest) && status.lastWakeAttemptAt == latest.lastWakeAttemptAt
         else status == latest
  }

  class LifecycleCore {
    var status: BackendStatus
    var active: bool
    var lastError: Option<string>
    var observe: Request
    /** Every value the channel has held; `status` is the last. */
    ghost var published: seq<BackendStatus>

    ghost predicate Valid()
      reads this
    {
      |published| > 0 && published[|published| - 1] == status
    }

    ghost function View(): Core
      reads this
      requires Valid()
    {
      Core(published, active, lastError, observe)
    }

    constructor (initial: BackendStatus)
      ensures Valid() && View() == Start(initial).core
    {
      status, active, lastError, observe := initial, false, None, Request.Chat;
      published := [initial];
    }

    method Publish(next: BackendStatus)
      requires Valid()
      modifies this
      ensures Valid() && View() == old(View()).Publish(next)
      ensures status == next && published == old(published) + [next]
      ensures active == old(active) && lastError == old(lastError) && observe == old(observe)
    {
      status := next;
      published := published + [next];
    }

    method StartOrJoinBootstrap(request: Request) returns (started: bool)
      requires Valid()
      modifies this
      ensures Valid() && started == !old(active)
      ensures View() == if started then old(View()).Start(request) else old(View()).Join(request)
      ensures active && published == old(published)
      ensures started ==> lastError == None && observe == request
      ensures !started ==>
                lastError == old(lastError) && observe == if request.Embeddings? then request else old(observe)
    {
      started := !active;
      if started {
        active, lastError, observe := true, None, request;
      } else if Priority(request) > Priority(observe) {
        observe := request;
      }
    }

    method FinishBootstrap(next: BackendStatus, error: Option<string>)
      requires Valid()
      modifies this
      ensures Valid() && View() == old(View()).Finish(next, error)
      ensures !active && lastError == error && published == old(published) + [next] && observe == old(observe)
    {
      lastError := error;
      Publish(next);
      active := false;
    }

    method MarkWarming()
      requires Valid()
      modifies this
      ensures Valid() && View() == old(View()).Publish(ApplyEdit(Edit.MarkWarming, old(status)))
      ensures status.lifecycle.Warming? && status.tunnel.Down?
      ensures KeepsCapabilities(status, old(status)) && status.lastWakeAttemptAt == old(status.lastWakeAttemptAt)
      ensures published == old(published) + [status]
    {
      var next := status;
      next := next.(lifecycle := LifecycleState.Warming);
      next := next.(tunnel := TunnelState.Down);
      Publish(next);
    }

    method DegradeEmbeddings(reason: string)
      requires Valid()
      modifies this
      ensures Valid() && View() == old(View()).Publish(ApplyEdit(Edit.Degrade(reason), old(status)))
      ensures status.embeddings.Degraded? && status.embeddingsReason == Some(reason)
      ensures KeepsAllButEmbeddings(status, old(status)) && published == old(published) + [status]
    {
      var next := status;
      next := next.(embeddings := CapabilityState.Degraded);
      next := next.(embeddingsReason := Some(reason));
      Publish(next);
    }

    method ObserveOnce(wake: Option<Request>, ask: Request, snapshot: BackendStatus, ports: Ports)
      returns (decision: Decision, woke: Option<Request>)
      requires Valid()
      modifies this
      ensures Valid()
      ensures var report := Observe(wake, ask, snapshot, ports);
              && ObservationSays(wake, ask, snapshot, ports, report)
              && decision == report.decision && woke == report.woke
              && View() == if report.published.Some? then old(View()).Publish(report.published.value) else old(View())
      ensures ports.ssh == Ok(false) && wake.Some? && !snapshot.lifecycle.Warming? && ports.wakeError.None? ==>
                && woke == wake && status.lastWakeAttemptAt == Some(ports.clock)
                && status.lifecycle.Warming? && published == old(published) + [status]
    {
      ObserveSays(wake, ask, snapshot, ports);
      woke := None;
      var s := snapshot;
      if ports.ssh.Err? {
        s := s.(lifecycle := LifecycleState.Error);
        s := s.(tunnel := TunnelState.Down);
        return Decision.Failed(s, ports.ssh.error), woke;
      }
      if !ports.ssh.value {
        if wake.Some? && ShouldRequestWake(s.lifecycle) {
          s := s.(lastWakeAttemptAt := Some(ports.clock));
          s := s.(tunnel := TunnelState.Down);
          woke := wake;
          if ports.wakeError.Some? {
            s := s.(lifecycle := LifecycleState.Error);
            return Decision.Failed(s, ports.wakeError.value), woke;
          }
        }
        s := s.(lifecycle := LifecycleState.Warming);
        s := s.(tunnel := TunnelState.Down);
        Publish(s);
        return Decision.Warming(s), woke;
      }
      var helper := ports.helper(ask);
      if helper.Err? {
        s := s.(lifecycle := LifecycleState.Error);
        s := s.(tunnel := TunnelState.Down);
        return Decision.Failed(s, helper.error), woke;
      }
      var seen := helper.value;
      s := s.(lifecycle := seen.lifecycle, chat := seen.chat, embeddings := seen.embeddings);
      s := s.(embeddingsReason := seen.embeddingsReason);
      s := s.(llamaServerUnit := seen.llamaServerUnit, inhibitUnit := seen.inhibitUnit);
      if s.lifecycle.Error? {
        s := s.(tunnel := TunnelState.Down);
        return Decision.Failed(s, seen.error.GetOr(UNSPECIFIED_ERROR)), woke;
      }
      if !s.lifecycle.Ready? {
        s := s.(tunnel := TunnelState.Down);
        Publish(s);
        return Decision.Warming(s), woke;
      }
      if ports.tunnel.Err? {
        s := s.(lifecycle := LifecycleState.Error);
        s := s.(tunnel := TunnelState.Down);
        return Decision.Failed(s, ports.tunnel.error), woke;
      }
      s := s.(tunnel := ports.tunnel.value);
      if !s.tunnel.Ready? {
        s := s.(lifecycle := LifecycleState.Warming);
      }
      Publish(s);
      if s.lifecycle.Ready? && s.tunnel.Ready? {
        return Decision.Ready(s), woke;
      }
      return Decision.Warming(s), woke;
    }

    /** The budget is at most the hard deadline exactly when the last wake attempt is not ahead of the clock,
        or the clock is so near its end that the sum saturates. */
    method BootstrapDeadline(now: nat, hardDeadline: nat) returns (budget: nat)
      requires status.lastWakeAttemptAt.GetOr(now) <= U64_MAX && now <= U64_MAX && hardDeadline <= U64_MAX
      ensures budget == BootBudget(status.lastWakeAttemptAt, now, hardDeadline)
      ensures status.lastWakeAttemptAt.None? && now + hardDeadline <= U64_MAX ==> budget == 1000 * hardDeadline
      ensures forall w :: status.lastWakeAttemptAt == Some(w) && now <= w + hardDeadline <= U64_MAX ==>
                            1000 * now + budget == 1000 * (w + hardDeadline)
      ensures budget <= 1000 * hardDeadline
              <==> status.lastWakeAttemptAt.GetOr(now) <= now || U64_MAX <= now + hardDeadline
    {
      var wakeStartedAt := status.lastWakeAttemptAt.GetOr(now);
      var hardDeadlineAt := SaturatingAdd(wakeStartedAt, hardDeadline);
      budget := 1000 * SaturatingSub(hardDeadlineAt, now);
    }

    /** Ends the bootstrap with the deadline error. */
    method GiveUp()
      requires Valid()
      modifies this
      ensures Valid() && View() == old(View()).Finish(Broken(old(status)), Some(DEADLINE_ERROR))
      ensures GivesUp(View(), old(status)) && published == old(published) + [status]
    {
      var next := status;
      next := next.(lifecycle := LifecycleState.Error);
      next := next.(tunnel := TunnelState.Down);
      FinishBootstrap(next, Some(DEADLINE_ERROR));
    }

    /** What other tasks do while the poll waits: publish, and join. */
    method Meanwhile(pass: Pass)
      requires Valid()
      modifies this
      ensures Valid() && View() == Elsewhere(old(View()), pass)
    {
      if pass.others != [] {
        status := pass.others[|pass.others| - 1];
        published := published + pass.others;
      } else {
        assert published + pass.others == published;
      }
      if Priority(pass.joined) > Priority(observe) {
        observe := pass.joined;
      }
    }

    /** One pass of the poll, from `from` on: `began` says when its observation began, if one did. */
    method PollOnce(from: nat, deadline: nat, poll: nat, pass: Pass)
      returns (ending: Ending, began: seq<nat>, at: nat)
      requires Valid()
      modifies this
      ensures Valid()
      ensures Progress(View(), ending, began, at, |pass.others|)
              == AfterPass(Progress(old(View()), StillPolling, [], from, 0), deadline, poll, pass)
    {
      Meanwhile(pass);
      began := [];
      at := from + pass.before;
      if at >= deadline {
        GiveUp();
        return ByDeadline, began, at;
      }
      if poll != 0 {
        at := at + poll + pass.overslept;
      }
      if at >= deadline {
        GiveUp();
        return ByDeadline, began, at;
      }
      began := [at];
      at := at + pass.took;
      var decision, woke := ObserveOnce(None, observe, status, pass.ports);
      match decision {
        case Ready(next) =>
          FinishBootstrap(next, None);
          ending := ByReady;
        case Failed(next, error) =>
          FinishBootstrap(next, Some(error));
          ending := ByFailure(error);
        case Warming(_) =>
          ending := StillPolling;
      }
    }

    /** The same, adding to what earlier passes began. */
    method PollAgain(from: nat, deadline: nat, poll: nat, pass: Pass, before: seq<nat>, ghost shared: nat)
      returns (ending: Ending, began: seq<nat>, at: nat, ghost others: nat)
      requires Valid()
      modifies this
      ensures Valid()
      ensures Progress(View(), ending, began, at, others)
              == AfterPass(Progress(old(View()), StillPolling, before, from, shared), deadline, poll, pass)
    {
      PassAppends(Progress(View(), StillPolling, before, from, shared), deadline, poll, pass);
      var observed;
      ending, observed, at := PollOnce(from, deadline, poll, pass);
      began, others := before + observed, shared + |pass.others|;
    }

    /** The poll loop: `began` are the times its observations began, `at` the time it stopped. */
    method Poll(start: nat, deadline: nat, poll: nat, passes: seq<Pass>)
      returns (ending: Ending, began: seq<nat>, at: nat, ghost others: nat)
      requires Valid()
      modifies this
      ensures Valid()
      ensures Progress(View(), ending, began, at, others)
              == AfterPasses(Progress(old(View()), StillPolling, [], start, 0), deadline, poll, passes)
    {
      ghost var all := AfterPasses(Progress(View(), StillPolling, [], start, 0), deadline, poll, passes);
      others := 0;
      at, began, ending := start, [], StillPolling;
      var i := 0;
      while i < |passes| && ending.StillPolling?
        invariant Valid() && i <= |passes|
        invariant AfterPasses(Progress(View(), ending, began, at, others), deadline, poll, passes[i..]) == all
      {
        PassesGoOn(Progress(View(), ending, began, at, others), deadline, poll, passes, i);
        ending, began, at, others := PollAgain(at, deadline, poll, passes[i], began, others);
        i := i + 1;
      }
    }

    /** At `at`, the hard deadline after the last wake attempt or, without one, after `now` has been reached by a clock
        that shows `now` at `start`. */
    static predicate RunsOut(lastWake: Option<nat>, now: nat, hardDeadline: nat, start: nat, at: nat) {
      var from := match lastWake case None => now case Some(w) => w;
      from + hardDeadline <= U64_MAX ==> 1000 * (from + hardDeadline) <= 1000 * now + (at - start)
    }

    /** The background poll, from millisecond `start` on.  It stops by itself unless `passes` runs out. */
    method StartBootstrap(start: nat, now: nat, hardDeadline: nat, poll: nat, passes: seq<Pass>)
      returns (ending: Ending, began: seq<nat>, at: nat, ghost others: nat)
      requires Valid() && active
      requires status.lastWakeAttemptAt.GetOr(now) <= U64_MAX && now <= U64_MAX && hardDeadline <= U64_MAX
      modifies this
      ensures Valid()
      ensures var budget := BootBudget(old(status.lastWakeAttemptAt), now, hardDeadline);
              && Progress(View(), ending, began, at, others)
                 == AfterPasses(Progress(old(View()), StillPolling, [], start, 0), start + budget, poll, passes)
              && (began != [] ==> |began| * poll < budget)
              && (passes != [] && |passes| * poll >= budget ==> !ending.StillPolling?)
      ensures ending.ByDeadline? ==> RunsOut(old(status.lastWakeAttemptAt), now, hardDeadline, start, at)
      ensures active <==> ending.StillPolling?
    {
      var budget := BootstrapDeadline(now, hardDeadline);
      BudgetRunsToTheDeadline(status.lastWakeAttemptAt, now, hardDeadline);
      PollIsBounded(View(), start, budget, poll, passes);
      ending, began, at, others := Poll(start, start + budget, poll, passes);
    }

    /** The waiting loop: it answers on the first look that settles or finds the time spent. */
    static method WaitForReadyOrTimeout(looks: seq<Look>) returns (decision: Option<Decision>, last: nat)
      ensures decision.None? <==> forall k :: 0 <= k < |looks| ==> GoesOn(looks[k])
      ensures decision.Some? ==> LastLook(looks, last) && Concludes(looks[last], decision.value)
    {
      last := 0;
      while last < |looks|
        invariant last <= |looks|
        invariant forall k :: 0 <= k < last ==> GoesOn(looks[k])
      {
        var look := looks[last];
        var stale := look.active && !look.status.lifecycle.Warming?;
        if !stale && BackendIsReady(look.status) {
          return Some(Decision.Ready(look.status)), last;
        }
        if !stale && look.status.lifecycle.Error? {
          return Some(Decision.Failed(look.status, look.lastError.GetOr(UNSPECIFIED_ERROR))), last;
        }
        if look.expired {
          return Some(Decision.Warming(WaitStatus(look.status, stale))), last;
        }
        if look.timedOutOn.Some? {
          return Some(Decision.Warming(WaitStatus(look.timedOutOn.value, stale))), last;
        }
        last := last + 1;
      }
      decision := None;
    }

    /** One call, run without interruption up to its waiting loop.  A leader that neither finished nor failed leaves the
        bootstrap to a spawned poller. */
    method EnsureBackend(request: Request, ports: Ports, looks: seq<Look>)
      returns (decision: Option<Decision>, spawned: bool, woke: Option<Request>)
      requires Valid()
      modifies this
      ensures Valid()
      ensures !old(active) && old(status).lifecycle.Ready? && old(status).tunnel.Ready? ==>
                && decision == Some(Decision.Ready(old(status))) && !spawned && woke.None?
                && View() == old(View())
      ensures old(active) ==>
                && !spawned && woke.None? && active && published == old(published) && lastError == old(lastError)
                && observe == if request.Embeddings? then request else old(observe)
      ensures !old(active) && !(old(status).lifecycle.Ready? && old(status).tunnel.Ready?) ==>
                var report := Observe(Some(request), request, old(status), ports);
                && ObservationSays(Some(request), request, old(status), ports, report)
                && Leaves(Core(old(published), true, None, request), report, View()) && observe == request
                && spawned == report.decision.Warming? && (!spawned ==> decision == Some(report.decision))
                && woke == report.woke
      ensures && !old(active) && !(old(status).lifecycle.Ready? && old(status).tunnel.Ready?)
              && ports.ssh == Ok(false) && !old(status).lifecycle.Warming? && ports.wakeError.None? ==>
                && woke == Some(request) && spawned && status.lastWakeAttemptAt == Some(ports.clock)
                && status.lifecycle.Warming? && published == old(published) + [status]
      ensures old(active) || spawned ==> (decision.None? <==> forall k :: 0 <= k < |looks| ==> GoesOn(looks[k]))
      ensures decision.Some? && (old(active) || spawned) ==>
                exists k: nat :: LastLook(looks, k) && Concludes(looks[k], decision.value)
      ensures active <==> old(active) || spawned
    {
      var initial := status;
      spawned, woke := false, None;
      if !active && BackendIsReady(initial) {
        return Some(Decision.Ready(initial)), spawned, woke;
      }
      var started := StartOrJoinBootstrap(request);
      if started {
        var own;
        own, woke := ObserveOnce(Some(request), observe, initial, ports);
        match own {
          case Ready(_) =>
            FinishBootstrap(status, None);
            return Some(own), spawned, woke;
          case Failed(failed, error) =>
            FinishBootstrap(failed, Some(error));
            return Some(own), spawned, woke;
          case Warming(_) =>
            spawned := true;
        }
      }
      var last;
      decision, last := WaitForReadyOrTimeout(looks);
    }
  }
}
