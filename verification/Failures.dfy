/**
 What failing calls agree on under every interleaving: all that fail with the
 same number of epochs started fail alike, with the error the last of those
 epochs ended with or, if it ended Ready, with the unspecified one.
 */
module Failures {
  import opened Outcomes
  import opened Status
  import opened Protocol
  import opened Frames
  import opened SingleFlight
  import opened Views
  import opened Epochs
  import opened Bootstrap

  predicate Ended(epochs: seq<Epoch>, e: nat) {
    1 <= e <= |epochs| && epochs[e - 1].end.Some?
  }

  /** The error a call fails with after epoch `e`. */
  predicate FailsAfter(epochs: seq<Epoch>, e: nat, error: string) {
    Ended(epochs, e) && error == epochs[e - 1].end.value.error.GetOr(UNSPECIFIED_ERROR)
  }

  predicate EndedWith(epochs: seq<Epoch>, e: nat, error: string) {
    Ended(epochs, e) && epochs[e - 1].end.value.error == Some(error)
  }

  predicate AlikePc(epochs: seq<Epoch>, pc: Pc) {
    match pc
    case WaitBorrow(waiter) => 1 <= waiter.epoch <= |epochs|
    case WaitLock(waiter, _, _) => 1 <= waiter.epoch <= |epochs|
    case Parked(waiter, _) => 1 <= waiter.epoch <= |epochs|
    case Returned(_, _, decision, _, epoch) => decision.Failed? ==> FailsAfter(epochs, epoch, decision.error)
    case _ => true
  }

  ghost predicate Alike(w: World) {
    forall t :: t in w.tasks ==> AlikePc(w.hist.epochs, w.tasks[t])
  }

  lemma StepperFailsAlike(w: World, l: Label)
    requires Consistent(w) && Alike(w) && Enabled(w, l) && l.t in Next(w, l).tasks
    ensures AlikePc(Next(w, l).hist.epochs, Next(w, l).tasks[l.t])
  {
    if l.t in w.tasks { assert AlikePc(w.hist.epochs, w.tasks[l.t]) && ViewOk(w.core, w.tasks[l.t]); }
  }

  lemma StepStaysAlike(w: World, l: Label)
    requires Consistent(w) && Alike(w) && Enabled(w, l)
    ensures Alike(Next(w, l))
  {
    StepLater(w, l);
    forall u | u in Next(w, l).tasks
      ensures AlikePc(Next(w, l).hist.epochs, Next(w, l).tasks[u])
    {
      OthersUntouched(w, l, u);
      if u == l.t {
        StepperFailsAlike(w, l);
      } else if u in w.tasks {
        assert AlikePc(w.hist.epochs, w.tasks[u]);
      }
    }
  }

  lemma {:induction false} RunStaysAlike(w: World, run: seq<Label>)
    requires Consistent(w) && Alike(w) && Legal(w, run)
    ensures Alike(Run(w, run))
    decreases |run|
  {
    if run != [] {
      StepKeepsOwned(w, run[0]);
      StepKeepsViewed(w, run[0]);
      StepKeepsBooked(w, run[0]);
      StepStaysAlike(w, run[0]);
      RunStaysAlike(Next(w, run[0]), run[1..]);
    }
  }

  /** Calls that fail with the same number of epochs started fail with the same error, whatever slips in between; it is
      the error the last of those epochs ended with exactly when that epoch ended with one. */
  lemma FailuresAgree(initial: BackendStatus, run: seq<Label>, t: Tid, u: Tid)
    requires Legal(Start(initial), run)
    requires var w := Run(Start(initial), run);
             && t in w.tasks && w.tasks[t].Returned? && w.tasks[t].decision.Failed?
             && u in w.tasks && w.tasks[u].Returned? && w.tasks[u].decision.Failed?
             && w.tasks[t].epoch == w.tasks[u].epoch
    ensures var w := Run(Start(initial), run);
            var e, error := w.tasks[t].epoch, w.tasks[t].decision.error;
            && w.tasks[u].decision.error == error
            && FailsAfter(w.hist.epochs, e, error)
            && (EndedWith(w.hist.epochs, e, error) <==> w.hist.epochs[e - 1].end.value.error.Some?)
  {
    RunStaysAlike(Start(initial), run);
    var w := Run(Start(initial), run);
    assert AlikePc(w.hist.epochs, w.tasks[t]) && AlikePc(w.hist.epochs, w.tasks[u]);
  }
}
