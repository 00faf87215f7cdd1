/**
 Every published status is well formed, and every Ready that was not there from
 the start comes from one complete observation.
 */
module Provenance {
  import opened Outcomes
  import opened Status
  import opened Protocol
  import opened Frames
  import opened Views

  /** The shape of a status the manager may publish. */
  predicate WellFormed(status: BackendStatus) {
    && (status.lifecycle.Ready? <==> status.tunnel.Ready?)
    && (status.lifecycle.Error? || status.lifecycle.Cold? ==> status.tunnel.Down?)
    && (status.tunnel.Connecting? ==> status.lifecycle.Warming?)
  }

  predicate SaysReady(helper: Heard<Observation>) {
    helper.reply.Ok? && helper.reply.value.lifecycle.Ready?
  }

  /** ssh answered, then the helper said Ready, then the tunnel was up, and the status says what the helper saw. */
  predicate Complete(obs: Obs, status: BackendStatus) {
    && obs.ssh.at < obs.helper.at < obs.tunnel.at
    && obs.ssh.reply == Ok(true)
    && SaysReady(obs.helper)
    && obs.tunnel.reply == Ok(TunnelState.Ready)
    && Reports(obs.helper.reply.value, status)
  }

  predicate Reports(seen: Observation, status: BackendStatus) {
    && status.chat == seen.chat
    && status.llamaServerUnit == seen.llamaServerUnit
    && status.inhibitUnit == seen.inhibitUnit
    && (status.embeddings.Degraded?
        || (status.embeddings == seen.embeddings && status.embeddingsReason == seen.embeddingsReason))
  }

  /** `first` is the status the manager was created with. */
  predicate Sound(first: BackendStatus, status: BackendStatus, origin: Origin) {
    && WellFormed(status)
    && (status.lifecycle.Ready? ==>
          match origin
          case Initial => BackendIsReady(first)
          case By(_) => false
          case Observed(obs) => Complete(obs, status))
  }

  predicate Past(origin: Origin, now: nat) {
    origin.Observed? ==> origin.obs.tunnel.at < now
  }

  ghost predicate SoundPc(first: BackendStatus, now: nat, pc: Pc) {
    match pc
    case Waking(_, status) => status.tunnel.Down?
    case Helping(_, _, _, ssh) => ssh.at < now && ssh.reply == Ok(true)
    case Tunnelling(_, _, status, ssh, helper) =>
      && ssh.at < helper.at < now && ssh.reply == Ok(true)
      && status.lifecycle.Ready? && SaysReady(helper) && Reports(helper.reply.value, status)
    case Publishing(_, status, origin) => Sound(first, status, origin) && Past(origin, now)
    case Finishing(_, status, origin, _, _) => Sound(first, status, origin) && Past(origin, now)
    case _ => true
  }

  ghost predicate SoundChannel(w: World) {
    && |w.hist.origins| == |w.core.chan|
    && w.hist.origins[0] == Initial
    && forall v :: 0 <= v < |w.core.chan| ==>
                     Sound(w.core.chan[0], w.core.chan[v], w.hist.origins[v]) && Past(w.hist.origins[v], w.hist.now)
  }

  ghost predicate Traced(w: World) {
    && SoundChannel(w)
    && forall t :: t in w.tasks ==> SoundPc(w.core.chan[0], w.hist.now, w.tasks[t])
  }

  lemma StepKeepsChannelSound(w: World, l: Label)
    requires Viewed(w) && Traced(w) && Enabled(w, l)
    ensures SoundChannel(Next(w, l))
  {
    var w' := Next(w, l);
    StepChannel(w, l);
    if l.CommitEdit? {
      assert ViewOk(w.core, w.tasks[l.t]);
    }
    if Publishes(l) {
      assert w'.core.chan[..|w.core.chan|] == w.core.chan;
      assert w'.hist.origins[..|w.core.chan|] == w.hist.origins;
      assert SoundPc(w.core.chan[0], w.hist.now, w.tasks[l.t]);
    }
  }

  lemma StepperStaysSound(w: World, l: Label)
    requires Viewed(w) && Traced(w) && Enabled(w, l) && l.t in Next(w, l).tasks
    ensures SoundPc(w.core.chan[0], Next(w, l).hist.now, Next(w, l).tasks[l.t])
  {
    if l.t in w.tasks {
      assert SoundPc(w.core.chan[0], w.hist.now, w.tasks[l.t]);
    }
  }

  lemma StepKeepsTraced(w: World, l: Label)
    requires Viewed(w) && Traced(w) && Enabled(w, l)
    ensures Traced(Next(w, l))
  {
    var w' := Next(w, l);
    StepKeepsChannelSound(w, l);
    StepExtends(w, l);
    forall u | u in w'.tasks
      ensures SoundPc(w'.core.chan[0], w'.hist.now, w'.tasks[u])
    {
      OthersUntouched(w, l, u);
      if u == l.t { StepperStaysSound(w, l); }
    }
  }
}
