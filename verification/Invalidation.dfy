/**
 What `mark_warming` guarantees.  Marking while no epoch runs makes every later
 Ready come from an observation begun after the mark, unless a degrade of the
 embeddings still holds a Ready status it read before.
 */
module Invalidation {
  import opened Status
  import opened Protocol
  import opened Frames
  import opened SingleFlight
  import opened Views
  import opened Provenance
  import opened Epochs
  import opened Bootstrap
  import opened Recovery

  /** A degrade that has read a Ready status and not yet published. */
  predicate HoldsReady(pc: Pc) {
    pc.Holding? && pc.edit.Degrade? && pc.status.lifecycle.Ready?
  }

  predicate SeenSince(origin: Origin, tau: nat) {
    origin.Observed? && tau <= origin.obs.ssh.at
  }

  /** Every Ready published at version `m` or later was observed wholly at time `tau` or later. */
  ghost predicate Renewed(w: World, m: nat, tau: nat) {
    forall v :: m <= v < |w.core.chan| && w.core.chan[v].lifecycle.Ready? ==>
                  && v < |w.hist.origins| && SeenSince(w.hist.origins[v], tau)
                  && Complete(w.hist.origins[v].obs, w.core.chan[v])
  }

  ghost predicate RenewedPc(m: nat, tau: nat, pc: Pc) {
    match pc
    case Helping(_, _, _, ssh) => tau <= ssh.at
    case Tunnelling(_, _, _, ssh, _) => tau <= ssh.at
    case Publishing(_, status, origin) => status.lifecycle.Ready? ==> SeenSince(origin, tau)
    case Finishing(_, status, origin, _, _) => status.lifecycle.Ready? ==> SeenSince(origin, tau)
    case Holding(edit, status, at) => HoldsReady(pc) ==> m <= at
    case _ => true
  }

  ghost predicate Renewing(w: World, m: nat, tau: nat) {
    && m < |w.core.chan| && tau <= w.hist.now
    && Renewed(w, m, tau)
    && forall t :: t in w.tasks ==> RenewedPc(m, tau, w.tasks[t])
  }

  lemma StepperStaysRenewing(w: World, l: Label, m: nat, tau: nat)
    requires Viewed(w) && Traced(w) && Renewing(w, m, tau) && Enabled(w, l) && l.t in Next(w, l).tasks
    ensures RenewedPc(m, tau, Next(w, l).tasks[l.t])
  {
    if l.t in w.tasks {
      assert RenewedPc(m, tau, w.tasks[l.t]);
    }
  }

  lemma ChannelStaysRenewed(w: World, l: Label, m: nat, tau: nat)
    requires Viewed(w) && Traced(w) && Renewing(w, m, tau) && Enabled(w, l)
    ensures Renewed(Next(w, l), m, tau)
  {
    StepKeepsChannelSound(w, l);
    StepChannel(w, l);
    StepOrigins(w, l);
    if Publishes(l) {
      var w', v := Next(w, l), |w.core.chan|;
      assert RenewedPc(m, tau, w.tasks[l.t]) && ViewOk(w.core, w.tasks[l.t]);
      assert Sound(w'.core.chan[0], w'.core.chan[v], w'.hist.origins[v]);
      NewEntry(w, l);
      if w'.core.chan[v].lifecycle.Ready? {
        assert SeenSince(w'.hist.origins[v], tau);
      }
    }
  }

  /** What the one added value is. */
  lemma NewEntry(w: World, l: Label)
    requires Enabled(w, l) && Publishes(l)
    ensures var chan' := Next(w, l).core.chan;
            var pc := w.tasks[l.t];
            chan' == w.core.chan + [if l.CommitEdit? then ApplyEdit(pc.edit, pc.status) else pc.status]
  {
  }

  lemma StepStaysRenewing(w: World, l: Label, m: nat, tau: nat)
    requires Viewed(w) && Traced(w) && Renewing(w, m, tau) && Enabled(w, l)
    ensures Renewing(Next(w, l), m, tau)
  {
    var w' := Next(w, l);
    StepExtends(w, l);
    ChannelStaysRenewed(w, l, m, tau);
    forall u | u in w'.tasks
      ensures RenewedPc(m, tau, w'.tasks[u])
    {
      OthersUntouched(w, l, u);
      if u == l.t { StepperStaysRenewing(w, l, m, tau); }
    }
  }

  lemma {:induction false} RunStaysRenewing(w: World, run: seq<Label>, m: nat, tau: nat)
    requires Viewed(w) && Traced(w) && Renewing(w, m, tau) && Legal(w, run)
    ensures Renewed(Run(w, run), m, tau)
    decreases |run|
  {
    if run != [] {
      StepKeepsViewed(w, run[0]);
      StepKeepsTraced(w, run[0]);
      StepStaysRenewing(w, run[0], m, tau);
      RunStaysRenewing(Next(w, run[0]), run[1..], m, tau);
    }
  }

  /** The mark takes effect: task `t` publishes the Warming status while no epoch runs. */
  ghost predicate Marks(w: World, t: Tid) {
    Enabled(w, CommitEdit(t)) && w.tasks[t].edit.MarkWarming? && !w.core.active
  }

  lemma MarkStartsRenewing(w: World, t: Tid)
    requires Owned(w) && Viewed(w) && Traced(w) && Marks(w, t)
    requires forall u :: u in w.tasks ==> !HoldsReady(w.tasks[u])
    ensures Renewing(Next(w, CommitEdit(t)), w.core.Version() + 1, w.hist.now)
  {
    var w', m := Next(w, CommitEdit(t)), w.core.Version() + 1;
    NewEntry(w, CommitEdit(t));
    forall u | u in w'.tasks
      ensures RenewedPc(m, w.hist.now, w'.tasks[u])
    {
      OthersUntouched(w, CommitEdit(t), u);
      assert u in w.tasks && (u == t || !Owns(w.tasks[u]));
    }
  }

  lemma MarkHolds(w: World, t: Tid, run: seq<Label>)
    requires Owned(w) && Viewed(w) && Traced(w) && Marks(w, t)
    requires forall u :: u in w.tasks ==> !HoldsReady(w.tasks[u])
    requires Legal(Next(w, CommitEdit(t)), run)
    ensures Renewed(Run(Next(w, CommitEdit(t)), run), w.core.Version() + 1, w.hist.now)
  {
    StepKeepsViewed(w, CommitEdit(t));
    StepKeepsTraced(w, CommitEdit(t));
    MarkStartsRenewing(w, t);
    RunStaysRenewing(Next(w, CommitEdit(t)), run, w.core.Version() + 1, w.hist.now);
  }

  /** Committing an edit appends the edited copy, with the origin of what was read. */
  lemma EditEntry(w: World, u: Tid)
    requires Viewed(w) && Traced(w) && Enabled(w, CommitEdit(u))
    ensures var w', v, held := Next(w, CommitEdit(u)), |w.core.chan|, w.tasks[u];
            && |w'.core.chan| == v + 1 && |w'.hist.origins| == v + 1
            && w'.core.chan[v] == ApplyEdit(held.edit, held.status)
            && w'.hist.origins[v] == w.hist.origins[held.at]
  {
    assert ViewOk(w.core, w.tasks[u]);
    NewEntry(w, CommitEdit(u));
    StepOrigins(w, CommitEdit(u));
  }

  ghost predicate RenewedForEver(w: World, m: nat, tau: nat) {
    forall run :: Legal(w, run) ==> Renewed(Run(w, run), m, tau)
  }

  /** One commit revives the Ready that the degrade read before the mark. */
  lemma HeldReadyRevives(w: World, t: Tid, u: Tid)
    requires Viewed(w) && Traced(w) && Marks(w, t) && u in w.tasks && HoldsReady(w.tasks[u])
    ensures !RenewedForEver(Next(w, CommitEdit(t)), w.core.Version() + 1, w.hist.now)
  {
    var w', at := Next(w, CommitEdit(t)), w.tasks[u].at;
    OthersUntouched(w, CommitEdit(t), u);
    EditEntry(w, t);
    RunOne(w', CommitEdit(u));
    CommitRevives(w, w', u);
    assert !Renewed(Run(w', [CommitEdit(u)]), w.core.Version() + 1, w.hist.now);
  }

  lemma CommitRevives(w: World, w': World, u: Tid)
    requires Viewed(w) && Traced(w) && u in w.tasks && HoldsReady(w.tasks[u])
    requires u in w'.tasks && w'.tasks[u] == w.tasks[u]
    requires w.hist.origins <= w'.hist.origins && |w'.hist.origins| == |w'.core.chan|
    requires |w'.core.chan| == |w.core.chan| + 1
    ensures !Renewed(Next(w', CommitEdit(u)), w.core.Version() + 1, w.hist.now)
  {
    var at := w.tasks[u].at;
    assert ViewOk(w.core, w.tasks[u]);
    NewEntry(w', CommitEdit(u));
    StepOrigins(w', CommitEdit(u));
    assert Past(w.hist.origins[at], w.hist.now) && Sound(w.core.chan[0], w.core.chan[at], w.hist.origins[at]);
    assert Next(w', CommitEdit(u)).core.chan[|w'.core.chan|].lifecycle.Ready?;
  }

  /** In every continuation of the mark a later Ready is one complete observation, all of it after the mark. */
  ghost predicate MarkLasts(w: World, t: Tid)
    requires Marks(w, t)
  {
    RenewedForEver(Next(w, CommitEdit(t)), w.core.Version() + 1, w.hist.now)
  }

  ghost predicate NoReadyHeld(w: World) {
    forall u :: u in w.tasks ==> !HoldsReady(w.tasks[u])
  }

  lemma MarkHoldsExactly(w: World, t: Tid)
    requires Owned(w) && Viewed(w) && Traced(w) && Marks(w, t)
    ensures MarkLasts(w, t) <==> NoReadyHeld(w)
  {
    if u :| u in w.tasks && HoldsReady(w.tasks[u]) {
      HeldReadyRevives(w, t, u);
    } else {
      var w' := Next(w, CommitEdit(t));
      forall run | Legal(w', run)
        ensures Renewed(Run(w', run), w.core.Version() + 1, w.hist.now)
      {
        MarkHolds(w, t, run);
      }
    }
  }

  /** Marking while no epoch runs invalidates for good exactly when no degrade holds a Ready status it read before. */
  lemma MarkWarmingInvalidates(initial: BackendStatus, past: seq<Label>, t: Tid)
    requires WellFormed(initial) && Legal(Start(initial), past) && Marks(Run(Start(initial), past), t)
    ensures MarkLasts(Run(Start(initial), past), t) <==> NoReadyHeld(Run(Start(initial), past))
  {
    RunKeepsConsistent(Start(initial), past);
    RunKeepsTraced(Start(initial), past);
    MarkHoldsExactly(Run(Start(initial), past), t);
  }
}
