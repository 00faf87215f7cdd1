/**
 What the two edits publish, and that nothing else takes embeddings away: a
 Ready status says of embeddings what its observation heard, unless they were
 degraded after that observation.
 */
module Degrades {
  import opened Outcomes
  import opened Status
  import opened Protocol
  import opened Frames
  import opened Views
  import opened Provenance
  import opened Epochs
  import opened Bootstrap
  import opened Invalidation

  /** Committing a degrade makes the status it read current with embeddings degraded for its reason; committing a mark
      makes it Warming with the tunnel down.  Nothing else of it changes. */
  lemma EditsShow(w: World, t: Tid)
    requires Enabled(w, CommitEdit(t))
    ensures var held, now := w.tasks[t].status, Next(w, CommitEdit(t)).core.Current();
            && now.chat == held.chat && now.lastWakeAttemptAt == held.lastWakeAttemptAt
            && now.leaseExpiresAt == held.leaseExpiresAt
            && now.llamaServerUnit == held.llamaServerUnit && now.inhibitUnit == held.inhibitUnit
            && match w.tasks[t].edit
               case Degrade(reason) =>
                 && now.embeddings.Degraded? && now.embeddingsReason == Some(reason)
                 && now.lifecycle == held.lifecycle && now.tunnel == held.tunnel
               case MarkWarming =>
                 && now.lifecycle.Warming? && now.tunnel.Down?
                 && now.embeddings == held.embeddings && now.embeddingsReason == held.embeddingsReason
  {
  }

  /** Embeddings were degraded after `at`. */
  predicate DegradedSince(degrades: seq<nat>, at: nat) {
    exists i :: 0 <= i < |degrades| && degrades[i] > at
  }

  predicate Heeds(status: BackendStatus, helper: Heard<Observation>) {
    helper.reply.Ok? ==>
      && status.embeddings == helper.reply.value.embeddings
      && status.embeddingsReason == helper.reply.value.embeddingsReason
  }

  predicate Explained(degrades: seq<nat>, status: BackendStatus, origin: Origin) {
    status.lifecycle.Ready? && origin.Observed? ==>
      Heeds(status, origin.obs.helper) || DegradedSince(degrades, origin.obs.tunnel.at)
  }

  predicate ExplainedPc(degrades: seq<nat>, pc: Pc) {
    match pc
    case Tunnelling(_, _, status, _, helper) => Heeds(status, helper)
    case Publishing(_, status, origin) => Explained(degrades, status, origin)
    case Finishing(_, status, origin, _, _) => Explained(degrades, status, origin)
    case _ => true
  }

  ghost predicate ChannelExplained(w: World) {
    && |w.hist.origins| == |w.core.chan|
    && forall v :: 0 <= v < |w.core.chan| ==> Explained(w.hist.degrades, w.core.chan[v], w.hist.origins[v])
  }

  ghost predicate AllExplained(w: World) {
    ChannelExplained(w) && forall t :: t in w.tasks ==> ExplainedPc(w.hist.degrades, w.tasks[t])
  }

  lemma StepDegrades(w: World, l: Label)
    requires Enabled(w, l)
    ensures var degrades := Next(w, l).hist.degrades;
            degrades == if l.CommitEdit? && w.tasks[l.t].edit.Degrade? then w.hist.degrades + [w.hist.now]
                        else w.hist.degrades
  {
  }

  lemma StaysExplained(degrades: seq<nat>, more: seq<nat>, status: BackendStatus, origin: Origin)
    requires Explained(degrades, status, origin)
    ensures Explained(degrades + more, status, origin)
  {
    if origin.Observed? && DegradedSince(degrades, origin.obs.tunnel.at) {
      var i :| 0 <= i < |degrades| && degrades[i] > origin.obs.tunnel.at;
      assert (degrades + more)[i] == degrades[i];
    }
  }

  /** The one value that a step adds is explained. */
  lemma NewEntryExplained(w: World, l: Label)
    requires Viewed(w) && Traced(w) && AllExplained(w) && Enabled(w, l) && Publishes(l)
    ensures var w', v := Next(w, l), |w.core.chan|;
            |w'.core.chan| == v + 1 && |w'.hist.origins| == v + 1
            && Explained(w'.hist.degrades, w'.core.chan[v], w'.hist.origins[v])
  {
    var w', v, pc := Next(w, l), |w.core.chan|, w.tasks[l.t];
    NewEntry(w, l);
    StepOrigins(w, l);
    StepDegrades(w, l);
    assert ViewOk(w.core, pc) && ExplainedPc(w.hist.degrades, pc);
    if l.CommitEdit? && pc.edit.Degrade? {
      assert Past(w.hist.origins[pc.at], w.hist.now);
      assert w'.hist.degrades[|w.hist.degrades|] == w.hist.now;
    }
  }

  lemma ChannelStaysExplained(w: World, l: Label)
    requires Viewed(w) && Traced(w) && AllExplained(w) && Enabled(w, l)
    ensures ChannelExplained(Next(w, l))
  {
    var w' := Next(w, l);
    StepChannel(w, l);
    StepOrigins(w, l);
    StepDegrades(w, l);
    if Publishes(l) { NewEntryExplained(w, l); }
    forall v | 0 <= v < |w'.core.chan|
      ensures Explained(w'.hist.degrades, w'.core.chan[v], w'.hist.origins[v])
    {
      if v < |w.core.chan| {
        var more := if w'.hist.degrades == w.hist.degrades then [] else [w.hist.now];
        assert w'.hist.degrades == w.hist.degrades + more;
        StaysExplained(w.hist.degrades, more, w.core.chan[v], w.hist.origins[v]);
      }
    }
  }

  lemma StepperStaysExplained(w: World, l: Label)
    requires Viewed(w) && AllExplained(w) && Enabled(w, l) && l.t in Next(w, l).tasks
    ensures ExplainedPc(Next(w, l).hist.degrades, Next(w, l).tasks[l.t])
  {
    StepDegrades(w, l);
    if l.t in w.tasks { assert ExplainedPc(w.hist.degrades, w.tasks[l.t]) && ViewOk(w.core, w.tasks[l.t]); }
  }

  lemma PausedStaysExplained(w: World, l: Label, pc: Pc)
    requires Enabled(w, l) && ExplainedPc(w.hist.degrades, pc)
    ensures ExplainedPc(Next(w, l).hist.degrades, pc)
  {
    StepDegrades(w, l);
    var more := if Next(w, l).hist.degrades == w.hist.degrades then [] else [w.hist.now];
    assert Next(w, l).hist.degrades == w.hist.degrades + more;
    match pc
    case Publishing(_, status, origin) => StaysExplained(w.hist.degrades, more, status, origin);
    case Finishing(_, status, origin, _, _) => StaysExplained(w.hist.degrades, more, status, origin);
    case _ =>
  }

  lemma StepStaysExplained(w: World, l: Label)
    requires Viewed(w) && Traced(w) && AllExplained(w) && Enabled(w, l)
    ensures AllExplained(Next(w, l))
  {
    ChannelStaysExplained(w, l);
    forall u | u in Next(w, l).tasks
      ensures ExplainedPc(Next(w, l).hist.degrades, Next(w, l).tasks[u])
    {
      OthersUntouched(w, l, u);
      if u == l.t {
        StepperStaysExplained(w, l);
      } else if u in w.tasks {
        PausedStaysExplained(w, l, w.tasks[u]);
      }
    }
  }

  lemma {:induction false} RunStaysExplained(w: World, run: seq<Label>)
    requires Viewed(w) && Traced(w) && AllExplained(w) && Legal(w, run)
    ensures AllExplained(Run(w, run))
    decreases |run|
  {
    if run != [] {
      StepKeepsViewed(w, run[0]);
      StepKeepsTraced(w, run[0]);
      StepStaysExplained(w, run[0]);
      RunStaysExplained(Next(w, run[0]), run[1..]);
    }
  }

  /** A published Ready that comes from an observation says of embeddings what the helper reported, with its reason,
      unless embeddings were degraded after the observation. */
  lemma OnlyDegradesDegrade(initial: BackendStatus, run: seq<Label>, v: nat)
    requires WellFormed(initial) && Legal(Start(initial), run)
    requires v < |Run(Start(initial), run).core.chan|
    ensures var w := Run(Start(initial), run);
            && |w.hist.origins| == |w.core.chan|
            && (w.core.chan[v].lifecycle.Ready? && w.hist.origins[v].Observed? ==>
                  || Heeds(w.core.chan[v], w.hist.origins[v].obs.helper)
                  || DegradedSince(w.hist.degrades, w.hist.origins[v].obs.tunnel.at))
  {
    RunStaysExplained(Start(initial), run);
  }
}
