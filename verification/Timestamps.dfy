/**
 The wake timestamp.  From the first publish after its wake to its end, an epoch
 keeps the timestamp in everything published, whoever publishes it, unless an
 edit still holds a status read before.
 */
module Timestamps {
  import opened Outcomes
  import opened Status
  import opened Protocol
  import opened Frames
  import opened SingleFlight
  import opened Views
  import opened Epochs
  import opened Bootstrap
  import opened Recovery
  import opened Invalidation

  /** The last version that epoch `n` (counted from 1) accounts for. */
  function EpochLimit(w: World, n: nat): nat
    requires 1 <= n <= |w.hist.epochs|
  {
    match w.hist.epochs[n - 1].end
    case Some(end) => end.version
    case None => w.core.Version()
  }

  predicate Stamped(status: BackendStatus, clock: nat) {
    status.lastWakeAttemptAt == Some(clock)
  }

  ghost predicate Kept(w: World, n: nat, from: nat, clock: nat) {
    && 1 <= n <= |w.hist.epochs|
    && forall v :: from <= v <= EpochLimit(w, n) && v < |w.core.chan| ==> Stamped(w.core.chan[v], clock)
  }

  /** After the first publish the epoch belongs to the poller, and every status in flight carries the stamp. */
  predicate StampedPc(clock: nat, pc: Pc) {
    match pc
    case Started(role, status) => role.Background? && Stamped(status, clock)
    case Probing(role, _, status) => role.Background? && Stamped(status, clock)
    case Waking(_, _) => false
    case Helping(role, _, status, _) => role.Background? && Stamped(status, clock)
    case Tunnelling(role, _, status, _, _) => role.Background? && Stamped(status, clock)
    case Publishing(role, status, _) => role.Background? && Stamped(status, clock)
    case Reborrowing(_, _, _) => false
    case Finishing(role, status, _, _, _) => role.Background? && Stamped(status, clock)
    case Holding(_, status, _) => Stamped(status, clock)
    case _ => true
  }

  ghost predicate Keeping(w: World, n: nat, from: nat, clock: nat) {
    && from < |w.core.chan|
    && Kept(w, n, from, clock)
    && (w.hist.epochs[n - 1].end.None? ==>
          && n == |w.hist.epochs|
          && forall t :: t in w.tasks ==> StampedPc(clock, w.tasks[t]))
  }

  lemma StepperStaysStamped(w: World, l: Label, n: nat, from: nat, clock: nat)
    requires Keeping(w, n, from, clock) && w.hist.epochs[n - 1].end.None? && w.core.active
    requires Enabled(w, l) && l.t in Next(w, l).tasks
    ensures StampedPc(clock, Next(w, l).tasks[l.t])
  {
    assert Stamped(w.core.Current(), clock);
    if l.t in w.tasks { assert StampedPc(clock, w.tasks[l.t]); }
  }

  lemma StepStaysKept(w: World, l: Label, n: nat, from: nat, clock: nat)
    requires Consistent(w) && Keeping(w, n, from, clock) && Enabled(w, l)
    ensures Kept(Next(w, l), n, from, clock)
  {
    StepLater(w, l);
    StepChannel(w, l);
    if w.hist.epochs[n - 1].end.None? {
      if l.t in w.tasks { assert StampedPc(clock, w.tasks[l.t]); }
      if Publishes(l) { NewEntry(w, l); }
    }
  }

  lemma StepStaysKeeping(w: World, l: Label, n: nat, from: nat, clock: nat)
    requires Consistent(w) && Keeping(w, n, from, clock) && Enabled(w, l)
    ensures Keeping(Next(w, l), n, from, clock)
  {
    var w' := Next(w, l);
    StepLater(w, l);
    StepExtends(w, l);
    StepStaysKept(w, l, n, from, clock);
    if w'.hist.epochs[n - 1].end.None? {
      EpochGoesOn(w, l, n);
      forall u | u in w'.tasks
        ensures StampedPc(clock, w'.tasks[u])
      {
        OthersUntouched(w, l, u);
        if u == l.t { StepperStaysStamped(w, l, n, from, clock); }
      }
    }
  }

  lemma EpochGoesOn(w: World, l: Label, n: nat)
    requires Consistent(w) && Enabled(w, l) && n == |w.hist.epochs| && 1 <= n && w.hist.epochs[n - 1].end.None?
    ensures w.core.active && |Next(w, l).hist.epochs| == n
  {
  }

  lemma {:induction false} RunStaysKept(w: World, run: seq<Label>, n: nat, from: nat, clock: nat)
    requires Consistent(w) && Keeping(w, n, from, clock) && Legal(w, run)
    ensures Kept(Run(w, run), n, from, clock)
    decreases |run|
  {
    if run != [] {
      StepKeepsOwned(w, run[0]);
      StepKeepsViewed(w, run[0]);
      StepKeepsBooked(w, run[0]);
      StepStaysKeeping(w, run[0], n, from, clock);
      RunStaysKept(Next(w, run[0]), run[1..], n, from, clock);
    }
  }

  /** The leader `t` of the last epoch has sent its wake and is about to publish for the first time. */
  ghost predicate FirstPublish(w: World, t: Tid) {
    && Enabled(w, Publish(t)) && w.tasks[t].role.Leader?
    && w.hist.epochs != [] && LastOf(w.hist.epochs).wakes != []
  }

  function Clock(w: World): nat
    requires w.hist.epochs != [] && LastOf(w.hist.epochs).wakes != []
  {
    LastOf(w.hist.epochs).wakes[0].clock
  }

  ghost predicate KeptForEver(w: World, n: nat, from: nat, clock: nat) {
    forall run :: Legal(w, run) ==> Kept(Run(w, run), n, from, clock)
  }

  lemma FirstPublishStarts(w: World, t: Tid)
    requires Consistent(w) && FirstPublish(w, t)
    requires forall u :: u in w.tasks && w.tasks[u].Holding? ==> Stamped(w.tasks[u].status, Clock(w))
    ensures Keeping(Next(w, Publish(t)), |w.hist.epochs|, w.core.Version() + 1, Clock(w))
  {
    var w' := Next(w, Publish(t));
    NewEntry(w, Publish(t));
    assert BookPc(w.hist.epochs, w.tasks[t]);
    forall u | u in w'.tasks
      ensures StampedPc(Clock(w), w'.tasks[u])
    {
      OthersUntouched(w, Publish(t), u);
      assert u in w.tasks && (u == t || !Owns(w.tasks[u]));
    }
  }

  /** Publishing an unstamped status while epoch `n` runs breaks the promise. */
  lemma UnstampedBreaks(w: World, u: Tid, n: nat, from: nat, clock: nat)
    requires Enabled(w, CommitEdit(u)) && !Stamped(w.tasks[u].status, clock)
    requires 1 <= n <= |w.hist.epochs| && w.hist.epochs[n - 1].end.None? && from <= |w.core.chan|
    ensures !KeptForEver(w, n, from, clock)
  {
    var l := CommitEdit(u);
    RunOne(w, l);
    NewEntry(w, l);
    QuietStep(w, l);
    assert !Stamped(Next(w, l).core.chan[|w.core.chan|], clock);
    assert !Kept(Run(w, [l]), n, from, clock);
  }

  lemma LateEditBreaks(w: World, t: Tid, u: Tid)
    requires Consistent(w) && FirstPublish(w, t)
    requires u in w.tasks && w.tasks[u].Holding? && !Stamped(w.tasks[u].status, Clock(w))
    ensures !KeptForEver(Next(w, Publish(t)), |w.hist.epochs|, w.core.Version() + 1, Clock(w))
  {
    OthersUntouched(w, Publish(t), u);
    StepChannel(w, Publish(t));
    QuietStep(w, Publish(t));
    assert w.core.active by { assert Owns(w.tasks[t]); }
    UnstampedBreaks(Next(w, Publish(t)), u, |w.hist.epochs|, w.core.Version() + 1, Clock(w));
  }

  /** The epoch's timestamp is in every value from its first publish to its end, in every continuation. */
  ghost predicate StampLasts(w: World, t: Tid)
    requires FirstPublish(w, t)
  {
    KeptForEver(Next(w, Publish(t)), |w.hist.epochs|, w.core.Version() + 1, Clock(w))
  }

  /** Every edit in flight holds a status with the timestamp. */
  ghost predicate EditsStamped(w: World)
    requires w.hist.epochs != [] && LastOf(w.hist.epochs).wakes != []
  {
    forall u :: u in w.tasks && w.tasks[u].Holding? ==> Stamped(w.tasks[u].status, Clock(w))
  }

  /** The epoch's timestamp lasts from its first publish to its end exactly when no edit in flight holds a status
      without it. */
  lemma WakeTimestampIsKept(initial: BackendStatus, past: seq<Label>, t: Tid)
    requires Legal(Start(initial), past) && FirstPublish(Run(Start(initial), past), t)
    ensures StampLasts(Run(Start(initial), past), t) <==> EditsStamped(Run(Start(initial), past))
  {
    RunKeepsConsistent(Start(initial), past);
    TimestampExactly(Run(Start(initial), past), t);
  }

  lemma TimestampExactly(w: World, t: Tid)
    requires Consistent(w) && FirstPublish(w, t)
    ensures StampLasts(w, t) <==> EditsStamped(w)
  {
    if u :| u in w.tasks && w.tasks[u].Holding? && !Stamped(w.tasks[u].status, Clock(w)) {
      LateEditBreaks(w, t, u);
    } else {
      var w' := Next(w, Publish(t));
      forall run | Legal(w', run)
        ensures Kept(Run(w', run), |w.hist.epochs|, w.core.Version() + 1, Clock(w))
      {
        TimestampHolds(w, t, run);
      }
    }
  }

  lemma TimestampHolds(w: World, t: Tid, run: seq<Label>)
    requires Consistent(w) && FirstPublish(w, t)
    requires forall u :: u in w.tasks && w.tasks[u].Holding? ==> Stamped(w.tasks[u].status, Clock(w))
    requires Legal(Next(w, Publish(t)), run)
    ensures Kept(Run(Next(w, Publish(t)), run), |w.hist.epochs|, w.core.Version() + 1, Clock(w))
  {
    var w' := Next(w, Publish(t));
    StepKeepsOwned(w, Publish(t));
    StepKeepsViewed(w, Publish(t));
    StepKeepsBooked(w, Publish(t));
    FirstPublishStarts(w, t);
    RunStaysKept(w', run, |w.hist.epochs|, w.core.Version() + 1, Clock(w));
  }

  /** The leader `t` has sent its wake, the wake failed, and it is about to publish for the first time by ending the
      epoch. */
  ghost predicate FailedWake(w: World, t: Tid) {
    && Enabled(w, Finish(t)) && w.tasks[t].role.Leader? && w.tasks[t].error.Some?
    && w.hist.epochs != [] && LastOf(w.hist.epochs).wakes != []
  }

  lemma FinishIsStamped(w: World, t: Tid)
    requires Consistent(w) && FailedWake(w, t)
    ensures Keeping(Next(w, Finish(t)), |w.hist.epochs|, w.core.Version() + 1, Clock(w))
    ensures |Next(w, Finish(t)).hist.epochs| == |w.hist.epochs|
    ensures LastOf(Next(w, Finish(t)).hist.epochs).end == Some(End(w.core.Version() + 1, w.tasks[t].error))
  {
    assert BookPc(w.hist.epochs, w.tasks[t]);
  }

  /** Its one value, with which the epoch ends, carries the timestamp in every continuation. */
  ghost predicate FailedStampLasts(w: World, t: Tid)
    requires FailedWake(w, t)
  {
    var w' := Next(w, Finish(t));
    && |w'.hist.epochs| == |w.hist.epochs|
    && LastOf(w'.hist.epochs).end == Some(End(w.core.Version() + 1, w.tasks[t].error))
    && KeptForEver(w', |w.hist.epochs|, w.core.Version() + 1, Clock(w))
  }

  /** A leader whose wake failed publishes only the end of its epoch, and that value carries the timestamp, in every
      continuation, whatever else is in flight. */
  lemma FailedWakeIsStamped(initial: BackendStatus, past: seq<Label>, t: Tid)
    requires Legal(Start(initial), past) && FailedWake(Run(Start(initial), past), t)
    ensures FailedStampLasts(Run(Start(initial), past), t)
  {
    RunKeepsConsistent(Start(initial), past);
    FailedWakeStaysStamped(Run(Start(initial), past), t);
  }

  lemma FailedWakeStaysStamped(w: World, t: Tid)
    requires Consistent(w) && FailedWake(w, t)
    ensures FailedStampLasts(w, t)
  {
    var w' := Next(w, Finish(t));
    StepKeepsOwned(w, Finish(t));
    StepKeepsViewed(w, Finish(t));
    StepKeepsBooked(w, Finish(t));
    FinishIsStamped(w, t);
    forall run | Legal(w', run)
      ensures Kept(Run(w', run), |w.hist.epochs|, w.core.Version() + 1, Clock(w))
    {
      RunStaysKept(w', run, |w.hist.epochs|, w.core.Version() + 1, Clock(w));
    }
  }
}
