/**
 At most one task runs the bootstrap, and only that task talks to the ports.
 The `active` flag means exactly that the owner exists or was dropped.
 */
module SingleFlight {
  import opened Outcomes
  import opened Protocol
  import opened Frames

  ghost predicate Owned(w: World) {
    && OneOwner(w)
    && (w.core.active <==> w.hist.owner.Some? || w.hist.orphaned)
    && !(w.hist.owner.Some? && w.hist.orphaned)
  }

  ghost predicate OneOwner(w: World) {
    && (forall t :: t in w.tasks ==> (Owns(w.tasks[t]) <==> w.hist.owner == Some(t)))
    && (w.hist.owner.Some? ==> w.hist.owner.value in w.tasks)
  }

  lemma OwnerStepKeepsOwned(w: World, l: Label)
    requires Owned(w) && Enabled(w, l) && OwnerStep(l)
    ensures Owned(Next(w, l))
  {
    forall u ensures u != l.t && u in w.tasks ==> u in Next(w, l).tasks && Next(w, l).tasks[u] == w.tasks[u] {
      OthersUntouched(w, l, u);
    }
  }

  lemma CallerStepKeepsOwned(w: World, l: Label)
    requires Owned(w) && Enabled(w, l) && !OwnerStep(l)
    ensures Owned(Next(w, l))
  {
  }

  lemma StepKeepsOwned(w: World, l: Label)
    requires Owned(w) && Enabled(w, l)
    ensures Owned(Next(w, l))
  {
    if OwnerStep(l) { OwnerStepKeepsOwned(w, l); } else { CallerStepKeepsOwned(w, l); }
  }

  lemma {:induction false} RunKeepsOwned(w: World, run: seq<Label>)
    requires Owned(w) && Legal(w, run)
    ensures Owned(Run(w, run))
    decreases |run|
  {
    if run != [] {
      StepKeepsOwned(w, run[0]);
      RunKeepsOwned(Next(w, run[0]), run[1..]);
    }
  }
}
