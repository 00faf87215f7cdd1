/** What every run of the bootstrap protocol keeps, from any initial status. */
module Bootstrap {
  import opened Outcomes
  import opened Status
  import opened Protocol
  import opened Frames
  import opened SingleFlight
  import opened Views
  import opened Provenance
  import opened Epochs

  ghost predicate Consistent(w: World) {
    Owned(w) && Viewed(w) && Booked(w)
  }

  lemma {:induction false} RunKeepsConsistent(w: World, run: seq<Label>)
    requires Consistent(w) && Legal(w, run)
    ensures Consistent(Run(w, run))
    decreases |run|
  {
    if run != [] {
      StepKeepsOwned(w, run[0]);
      StepKeepsViewed(w, run[0]);
      StepKeepsBooked(w, run[0]);
      RunKeepsConsistent(Next(w, run[0]), run[1..]);
    }
  }

  lemma {:induction false} RunKeepsTraced(w: World, run: seq<Label>)
    requires Viewed(w) && Traced(w) && Legal(w, run)
    ensures Traced(Run(w, run))
    decreases |run|
  {
    if run != [] {
      StepKeepsViewed(w, run[0]);
      StepKeepsTraced(w, run[0]);
      RunKeepsTraced(Next(w, run[0]), run[1..]);
    }
  }

  /** Every step of the run satisfies `guard`. */
  ghost predicate Always(w: World, run: seq<Label>, guard: (World, Label) -> bool)
    requires Legal(w, run)
    decreases |run|
  {
    run == [] || (guard(w, run[0]) && Always(Next(w, run[0]), run[1..], guard))
  }

  /** A waiter asleep with nothing new to see would, looking now, go back to sleep: in
      particular no waiter sleeps on a settled status of a finished bootstrap. */
  lemma NoLostWakeup(initial: BackendStatus, run: seq<Label>, t: Tid)
    requires Legal(Start(initial), run)
    ensures var w := Run(Start(initial), run);
            t in w.tasks && w.tasks[t].Parked? && !Enabled(w, Changed(t)) ==>
              var now := w.core.Current();
              && Judge(now, w.core.active, w.core.lastError).Wait?
              && (w.core.active || !(now.lifecycle.Error? || (now.lifecycle.Ready? && now.tunnel.Ready?)))
  {
    RunKeepsConsistent(Start(initial), run);
    var w := Run(Start(initial), run);
    assert t in w.tasks ==> ViewOk(w.core, w.tasks[t]);
  }

  /** At most one task runs the bootstrap, every port call in flight is its own, and `active`
      is set exactly while it exists or after it was dropped. */
  lemma SingleOwner(initial: BackendStatus, run: seq<Label>)
    requires Legal(Start(initial), run)
    ensures var w := Run(Start(initial), run);
            && (forall t, u :: t in w.tasks && u in w.tasks && Owns(w.tasks[t]) && Owns(w.tasks[u]) ==> t == u)
            && (forall t :: t in w.tasks && CallsPort(w.tasks[t]) ==> Owns(w.tasks[t]) && w.core.active)
            && (w.core.active <==> w.hist.orphaned || exists t :: t in w.tasks && Owns(w.tasks[t]))
  {
    RunKeepsConsistent(Start(initial), run);
    var w := Run(Start(initial), run);
    if w.hist.owner.Some? {
      assert w.hist.owner.value in w.tasks && Owns(w.tasks[w.hist.owner.value]);
    }
  }

  /** The run never drops the call that owns the bootstrap. */
  ghost predicate OwnerSurvives(w: World, l: Label) {
    l.Drop? && l.t in w.tasks ==> !Owns(w.tasks[l.t])
  }

  lemma {:induction false} SurvivingOwner(w: World, run: seq<Label>)
    requires Legal(w, run) && Always(w, run, OwnerSurvives) && !w.hist.orphaned
    ensures !Run(w, run).hist.orphaned
    decreases |run|
  {
    if run != [] {
      SurvivingOwner(Next(w, run[0]), run[1..]);
    }
  }

  lemma ActiveMeansOwned(initial: BackendStatus, run: seq<Label>)
    requires Legal(Start(initial), run) && Always(Start(initial), run, OwnerSurvives)
    ensures var w := Run(Start(initial), run);
            w.core.active <==> exists t :: t in w.tasks && Owns(w.tasks[t])
  {
    SingleOwner(initial, run);
    SurvivingOwner(Start(initial), run);
  }

  /** A Ready or Failed answer carries a status that was current at a moment between the call and the return. */
  lemma DecisionsAreLinearizable(initial: BackendStatus, run: seq<Label>, t: Tid)
    requires Legal(Start(initial), run)
    ensures var w := Run(Start(initial), run);
            t in w.tasks && w.tasks[t].Returned? && !w.tasks[t].decision.Warming? ==>
              && w.tasks[t].since <= w.tasks[t].at < |w.core.chan|
              && w.core.chan[w.tasks[t].at] == w.tasks[t].decision.status
              && var answer := w.tasks[t].decision.status;
                 if w.tasks[t].decision.Ready? then answer.lifecycle.Ready? && answer.tunnel.Ready?
                 else answer.lifecycle.Error?
  {
    RunKeepsConsistent(Start(initial), run);
    var w := Run(Start(initial), run);
    assert t in w.tasks ==> ViewOk(w.core, w.tasks[t]);
  }

  /** Every value ever published is well formed; a Ready is the initial one, an edit of it, or comes from a complete
      observation. */
  lemma PublishedIsSound(initial: BackendStatus, run: seq<Label>, v: nat)
    requires WellFormed(initial) && Legal(Start(initial), run)
    requires v < |Run(Start(initial), run).core.chan|
    ensures var w := Run(Start(initial), run);
            && |w.hist.origins| == |w.core.chan|
            && WellFormed(w.core.chan[v])
            && (w.core.chan[v].lifecycle.Ready? ==>
                  || (w.hist.origins[v].Observed? && Complete(w.hist.origins[v].obs, w.core.chan[v]))
                  || (w.hist.origins[v].Initial? && BackendIsReady(initial)))
  {
    RunKeepsTraced(Start(initial), run);
    FirstStays(Start(initial), run);
  }

  lemma {:induction false} FirstStays(w: World, run: seq<Label>)
    requires Legal(w, run)
    ensures w.core.chan <= Run(w, run).core.chan
    decreases |run|
  {
    if run != [] {
      StepExtends(w, run[0]);
      FirstStays(Next(w, run[0]), run[1..]);
    }
  }

  function WakeCount(epochs: seq<Epoch>): nat {
    if epochs == [] then 0 else WakeCount(epochs[..|epochs| - 1]) + |LastOf(epochs).wakes|
  }

  lemma {:induction false} AtMostOneEach(epochs: seq<Epoch>)
    requires forall e :: e in epochs ==> |e.wakes| <= 1
    ensures WakeCount(epochs) <= |epochs|
  {
    if epochs != [] {
      AtMostOneEach(epochs[..|epochs| - 1]);
    }
  }

  /** An epoch has exactly one wake if its leader heard that the host is down while its snapshot was not Warming, and
      otherwise none; the wake is for the leader's kind. */
  lemma WakesAreAccounted(initial: BackendStatus, run: seq<Label>)
    requires Legal(Start(initial), run)
    ensures var w := Run(Start(initial), run);
            && WakeCount(w.hist.epochs) <= |w.hist.epochs|
            && (forall e :: e in w.hist.epochs ==>
                              match e.probe
                              case None => e.wakes == []
                              case Some(p) => |e.wakes| == if p.ssh == Ok(false) && !p.snapshot.Warming? then 1 else 0)
            && forall e, k :: e in w.hist.epochs && 0 <= k < |e.wakes| ==>
                                && k == 0 && e.wakes[k].kind == e.leader
                                && !e.wakes[k].snapshot.Warming? && e.wakes[k].ssh == Ok(false)
  {
    RunKeepsConsistent(Start(initial), run);
    var w := Run(Start(initial), run);
    forall e | e in w.hist.epochs
      ensures EpochOk(e, |w.core.chan|, w.hist.now)
    {
      var i :| 0 <= i < |w.hist.epochs| && w.hist.epochs[i] == e;
    }
    AtMostOneEach(w.hist.epochs);
  }

  /** While an epoch runs the observe request is the highest priority among leader and joiners,
      and every completed observation asked for the highest at the time it read it. */
  lemma ObserveRequestIsHighest(initial: BackendStatus, run: seq<Label>)
    requires Legal(Start(initial), run)
    ensures var w := Run(Start(initial), run);
            && (w.core.active ==> w.hist.epochs != [] && IsHighest(w.core.observe, LastOf(w.hist.epochs).members))
            && (forall v :: 0 <= v < |w.hist.origins| && w.hist.origins[v].Observed? ==>
                              ObsOk(w.hist.epochs, w.hist.origins[v].obs))
            && (forall t :: t in w.tasks && w.tasks[t].Helping? ==>
                              w.hist.epochs != [] && AskedOk(w.tasks[t].probe, LastOf(w.hist.epochs)))
  {
    RunKeepsConsistent(Start(initial), run);
    var w := Run(Start(initial), run);
    forall t | t in w.tasks && w.tasks[t].Helping?
      ensures w.hist.epochs != [] && AskedOk(w.tasks[t].probe, LastOf(w.hist.epochs))
    {
      assert BookPc(w.hist.epochs, w.tasks[t]);
    }
  }

  lemma EpochsOnlyGrow(w: World, l: Label)
    requires Enabled(w, l)
    ensures |w.hist.epochs| <= |Next(w, l).hist.epochs|
    ensures |w.hist.epochs| == |Next(w, l).hist.epochs| ==>
              w.core.observe.Embeddings? ==> Next(w, l).core.observe.Embeddings?
  {
  }

  /** Until the next epoch starts the observe request, once Embeddings, stays so, whatever the order of arrival. */
  lemma {:induction false} ObserveRequestOnlyRises(w: World, run: seq<Label>)
    requires Legal(w, run)
    ensures |w.hist.epochs| <= |Run(w, run).hist.epochs|
    ensures |w.hist.epochs| == |Run(w, run).hist.epochs| ==>
              w.core.observe.Embeddings? ==> Run(w, run).core.observe.Embeddings?
    decreases |run|
  {
    if run != [] {
      EpochsOnlyGrow(w, run[0]);
      ObserveRequestOnlyRises(Next(w, run[0]), run[1..]);
    }
  }
}
