/**
 What a published Ready means when every helper reply comes through the chain of
 helper, exit status and RPC.
 */
module EndToEnd {
  import opened Outcomes
  import opened Status
  import opened Protocol
  import opened Frames
  import opened Provenance
  import opened Epochs
  import opened Bootstrap
  import opened Degrades
  import opened Helper

  /** Every helper reply is the RPC's answer about the host as it is at that moment. */
  function ThroughChain(rpcs: nat -> Rpc): (World, Label) -> bool {
    (w: World, l: Label) => l.HelperReply? ==> l.helper == ObserveBackend(rpcs(w.hist.now))
  }

  /** The helper's reply is about a host whose server ran, answered and reported a matching id when it was given. */
  predicate Vouched(rpcs: nat -> Rpc, helper: Heard<Observation>) {
    VerifiedRpc(rpcs(helper.at)) && helper.reply == ObserveBackend(rpcs(helper.at))
  }

  predicate VouchedOrigin(rpcs: nat -> Rpc, origin: Origin) {
    origin.Observed? ==> Vouched(rpcs, origin.obs.helper)
  }

  predicate VouchedPc(rpcs: nat -> Rpc, pc: Pc) {
    match pc
    case Tunnelling(_, _, _, _, helper) => Vouched(rpcs, helper)
    case Publishing(_, _, origin) => VouchedOrigin(rpcs, origin)
    case Finishing(_, _, origin, _, _) => VouchedOrigin(rpcs, origin)
    case _ => true
  }

  ghost predicate AllVouched(rpcs: nat -> Rpc, w: World) {
    && (forall v :: 0 <= v < |w.hist.origins| ==> VouchedOrigin(rpcs, w.hist.origins[v]))
    && (forall t :: t in w.tasks ==> VouchedPc(rpcs, w.tasks[t]))
  }

  lemma StepperStaysVouched(rpcs: nat -> Rpc, w: World, l: Label)
    requires AllVouched(rpcs, w) && Enabled(w, l) && ThroughChain(rpcs)(w, l) && l.t in Next(w, l).tasks
    ensures VouchedPc(rpcs, Next(w, l).tasks[l.t])
  {
    if l.t in w.tasks { assert VouchedPc(rpcs, w.tasks[l.t]); }
    if l.HelperReply? { ObservationMeansVerified(rpcs(w.hist.now)); }
  }

  lemma StepStaysVouched(rpcs: nat -> Rpc, w: World, l: Label)
    requires AllVouched(rpcs, w) && Enabled(w, l) && ThroughChain(rpcs)(w, l)
    ensures AllVouched(rpcs, Next(w, l))
  {
    var w' := Next(w, l);
    StepOrigins(w, l);
    if Publishes(l) { assert VouchedPc(rpcs, w.tasks[l.t]); }
    forall u | u in w'.tasks
      ensures VouchedPc(rpcs, w'.tasks[u])
    {
      OthersUntouched(w, l, u);
      if u == l.t { StepperStaysVouched(rpcs, w, l); }
    }
  }

  lemma {:induction false} RunStaysVouched(rpcs: nat -> Rpc, w: World, run: seq<Label>)
    requires AllVouched(rpcs, w) && Legal(w, run) && Always(w, run, ThroughChain(rpcs))
    ensures AllVouched(rpcs, Run(w, run))
    decreases |run|
  {
    if run != [] {
      StepStaysVouched(rpcs, w, run[0]);
      RunStaysVouched(rpcs, Next(w, run[0]), run[1..]);
    }
  }

  /** Every Ready ever published, unless it was there from the start, was observed on a host whose server was up and
      reported an id that matches the configured path when the helper was asked, after ssh answered and before the
      tunnel was up. */
  lemma ReadyMeansVerified(rpcs: nat -> Rpc, initial: BackendStatus, run: seq<Label>, v: nat)
    requires WellFormed(initial) && Legal(Start(initial), run) && Always(Start(initial), run, ThroughChain(rpcs))
    requires v < |Run(Start(initial), run).core.chan|
    ensures var w := Run(Start(initial), run);
            w.core.chan[v].lifecycle.Ready? && !BackendIsReady(initial) ==>
              && v < |w.hist.origins| && w.hist.origins[v].Observed?
              && Complete(w.hist.origins[v].obs, w.core.chan[v])
              && VerifiedRpc(rpcs(w.hist.origins[v].obs.helper.at))
              && w.hist.origins[v].obs.helper.reply == ObserveBackend(rpcs(w.hist.origins[v].obs.helper.at))
  {
    PublishedIsSound(initial, run, v);
    RunStaysVouched(rpcs, Start(initial), run);
    assert VouchedOrigin(rpcs, Run(Start(initial), run).hist.origins[v]);
  }

  /** Behind the chain every Ready ever published, unless it was there from the start, serves chat, and serves
      embeddings unless they were degraded after its observation. */
  lemma ReadyServes(rpcs: nat -> Rpc, initial: BackendStatus, run: seq<Label>, v: nat)
    requires WellFormed(initial) && Legal(Start(initial), run) && Always(Start(initial), run, ThroughChain(rpcs))
    requires v < |Run(Start(initial), run).core.chan|
    ensures var w := Run(Start(initial), run);
            w.core.chan[v].lifecycle.Ready? && !BackendIsReady(initial) ==>
              && v < |w.hist.origins| && w.hist.origins[v].Observed?
              && w.core.chan[v].chat.Ready?
              && ((w.core.chan[v].embeddings.Ready? && w.core.chan[v].embeddingsReason.None?)
                  || DegradedSince(w.hist.degrades, w.hist.origins[v].obs.tunnel.at))
  {
    ReadyMeansVerified(rpcs, initial, run, v);
    OnlyDegradesDegrade(initial, run, v);
    var w := Run(Start(initial), run);
    if w.core.chan[v].lifecycle.Ready? && !BackendIsReady(initial) {
      VerifiedObservation(rpcs(w.hist.origins[v].obs.helper.at));
    }
  }

  /** Behind the chain the helper never says "still warming": its reply leads to the tunnel when the host is verified,
      and otherwise to the end of the epoch in Error, with the error it gave. */
  lemma HelperDecides(w: World, t: Tid, rpc: Rpc)
    requires Enabled(w, HelperReply(t, ObserveBackend(rpc)))
    ensures var w' := Next(w, HelperReply(t, ObserveBackend(rpc)));
            if VerifiedRpc(rpc) then t in w'.tasks && w'.tasks[t].Tunnelling?
            else
              && ObserveBackend(rpc).Err? && Enabled(w', Finish(t))
              && var end := Next(w', Finish(t)).core;
              && !end.active && end.lastError == Some(ObserveBackend(rpc).error)
              && end.Current().lifecycle.Error? && end.Current().tunnel.Down?
  {
    ObservationMeansVerified(rpc);
  }

  /** The steps after which the observing task goes on to poll (or to spawn the poller). */
  predicate GoesOnPolling(pc: Pc) {
    pc.Publishing? && !BackendIsReady(pc.status)
  }

  /** So polling goes on only because the host did not answer ssh or the tunnel was not up. */
  lemma PollingMeansSshOrTunnel(rpcs: nat -> Rpc, w: World, l: Label)
    requires Enabled(w, l) && ThroughChain(rpcs)(w, l) && l.t in w.tasks && !w.tasks[l.t].Publishing?
    requires l.t in Next(w, l).tasks && GoesOnPolling(Next(w, l).tasks[l.t])
    requires w.tasks[l.t].Tunnelling? ==> w.tasks[l.t].status.lifecycle.Ready?
    ensures || (l.SshReply? && l.up == Result.Ok(false))
            || l.WakeReply?
            || (l.TunnelReply? && l.tunnel.Ok? && !l.tunnel.value.Ready?)
  {
    if l.HelperReply? { ObservationMeansVerified(rpcs(w.hist.now)); }
  }
}
