/**
 What joiners learn when nothing slips in between a read and its use: an answer
 is never older than the end of the epoch that was joined, and a failure names
 the error with which the last epoch ended.
 */
module Agreement {
  import opened Outcomes
  import opened Status
  import opened Protocol
  import opened Frames
  import opened SingleFlight
  import opened Views
  import opened Epochs
  import opened Bootstrap
  import opened Failures

  /** A status that settles a waiter. */
  predicate Decisive(status: BackendStatus) {
    BackendIsReady(status) || status.lifecycle.Error?
  }

  /** The value a waiter or an edit has read is still current when it acts. */
  predicate NothingSlipsIn(w: World, l: Label) {
    l.t in w.tasks ==>
      && (l.LockView? && w.tasks[l.t].WaitLock? ==> w.tasks[l.t].at == w.core.Version())
      && (l.CommitEdit? && w.tasks[l.t].Holding? ==> w.tasks[l.t].at == w.core.Version())
  }

  predicate EndedBy(epochs: seq<Epoch>, e: nat, version: nat) {
    Ended(epochs, e) && epochs[e - 1].end.value.version <= version
  }

  ghost predicate AgreesPc(core: Core, epochs: seq<Epoch>, pc: Pc) {
    match pc
    case Reborrowing(_, _, _) => !core.Current().lifecycle.Error?
    case Finishing(_, status, _, error, _) => error.None? ==> !status.lifecycle.Error?
    case WaitBorrow(waiter) => 1 <= waiter.epoch <= |epochs|
    case WaitLock(waiter, _, _) => 1 <= waiter.epoch <= |epochs|
    case Parked(waiter, _) => 1 <= waiter.epoch <= |epochs|
    case Returned(_, joined, decision, at, epoch) =>
      && (joined.Some? && !decision.Warming? ==> joined.value <= epoch && EndedBy(epochs, joined.value, at))
      && (decision.Failed? ==> EndedWith(epochs, epoch, decision.error))
    case _ => true
  }

  ghost predicate Agrees(w: World) {
    && (w.hist.epochs != [] && !w.core.active && w.core.Current().lifecycle.Error? ==> w.core.lastError.Some?)
    && forall t :: t in w.tasks ==> AgreesPc(w.core, w.hist.epochs, w.tasks[t])
  }

  lemma EndsStay(es: seq<Epoch>, es': seq<Epoch>, e: nat)
    requires Later(es, es')
    ensures forall v: nat :: EndedBy(es, e, v) ==> EndedBy(es', e, v)
    ensures forall error: string :: EndedWith(es, e, error) ==> EndedWith(es', e, error)
  {
  }

  /** A waiter that acts on the current status and settles does so after its epoch ended. */
  lemma LookerAgrees(w: World, l: Label)
    requires Consistent(w) && Agrees(w) && Enabled(w, l) && l.LockView? && NothingSlipsIn(w, l)
    ensures AgreesPc(Next(w, l).core, Next(w, l).hist.epochs, Next(w, l).tasks[l.t])
  {
    var pc := w.tasks[l.t];
    assert ViewOk(w.core, pc) && AgreesPc(w.core, w.hist.epochs, pc);
    var e := pc.waiter.epoch;
    if Judge(pc.status, w.core.active, w.core.lastError).Settled? {
      assert !w.core.active && pc.status == w.core.Current();
      assert EndedBy(w.hist.epochs, e, w.core.Version());
    }
  }

  lemma StepperAgrees(w: World, l: Label)
    requires Consistent(w) && Agrees(w) && Enabled(w, l) && !l.LockView? && l.t in Next(w, l).tasks
    ensures AgreesPc(Next(w, l).core, Next(w, l).hist.epochs, Next(w, l).tasks[l.t])
  {
    if l.t in w.tasks { assert AgreesPc(w.core, w.hist.epochs, w.tasks[l.t]) && ViewOk(w.core, w.tasks[l.t]); }
  }

  lemma CurrentAgrees(w: World, l: Label)
    requires Consistent(w) && Agrees(w) && Enabled(w, l) && NothingSlipsIn(w, l)
    ensures var w' := Next(w, l);
            w'.hist.epochs != [] && !w'.core.active && w'.core.Current().lifecycle.Error? ==> w'.core.lastError.Some?
  {
    if l.t in w.tasks { assert AgreesPc(w.core, w.hist.epochs, w.tasks[l.t]) && ViewOk(w.core, w.tasks[l.t]); }
  }

  /** While the leader reborrows, nobody can publish an Error. */
  lemma ReborrowerAgrees(w: World, l: Label, u: Tid)
    requires Consistent(w) && Agrees(w) && Enabled(w, l) && NothingSlipsIn(w, l)
    requires u in w.tasks && u != l.t && w.tasks[u].Reborrowing?
    ensures !Next(w, l).core.Current().lifecycle.Error?
  {
    assert Owns(w.tasks[u]) && AgreesPc(w.core, w.hist.epochs, w.tasks[u]);
    if l.t in w.tasks { assert ViewOk(w.core, w.tasks[l.t]) && !Owns(w.tasks[l.t]); }
  }

  lemma StepKeepsAgrees(w: World, l: Label)
    requires Consistent(w) && Agrees(w) && Enabled(w, l) && NothingSlipsIn(w, l)
    ensures Agrees(Next(w, l))
  {
    var w' := Next(w, l);
    CurrentAgrees(w, l);
    StepLater(w, l);
    forall u | u in w'.tasks
      ensures AgreesPc(w'.core, w'.hist.epochs, w'.tasks[u])
    {
      OthersUntouched(w, l, u);
      if u == l.t {
        if l.LockView? { LookerAgrees(w, l); } else { StepperAgrees(w, l); }
      } else if u in w.tasks {
        PausedAgrees(w, l, u);
      }
    }
  }

  lemma PausedAgrees(w: World, l: Label, u: Tid)
    requires Consistent(w) && Agrees(w) && Enabled(w, l) && NothingSlipsIn(w, l)
    requires Later(w.hist.epochs, Next(w, l).hist.epochs)
    requires u in w.tasks && u != l.t
    ensures AgreesPc(Next(w, l).core, Next(w, l).hist.epochs, w.tasks[u])
  {
    var pc := w.tasks[u];
    assert AgreesPc(w.core, w.hist.epochs, pc);
    if pc.Reborrowing? {
      ReborrowerAgrees(w, l, u);
    } else if pc.Returned? {
      EndsStay(w.hist.epochs, Next(w, l).hist.epochs, pc.epoch);
      if pc.joined.Some? { EndsStay(w.hist.epochs, Next(w, l).hist.epochs, pc.joined.value); }
    }
  }

  lemma {:induction false} RunKeepsAgrees(w: World, run: seq<Label>)
    requires Consistent(w) && Agrees(w) && Legal(w, run) && Always(w, run, NothingSlipsIn)
    ensures Agrees(Run(w, run))
    decreases |run|
  {
    if run != [] {
      StepKeepsOwned(w, run[0]);
      StepKeepsViewed(w, run[0]);
      StepKeepsBooked(w, run[0]);
      StepKeepsAgrees(w, run[0]);
      RunKeepsAgrees(Next(w, run[0]), run[1..]);
    }
  }

  /** A call that joined epoch e is answered Ready or Failed only on a status published at e's end or later. */
  lemma JoinersAreFresh(initial: BackendStatus, run: seq<Label>, t: Tid)
    requires Legal(Start(initial), run) && Always(Start(initial), run, NothingSlipsIn)
    ensures var w := Run(Start(initial), run);
            t in w.tasks && w.tasks[t].Returned? && w.tasks[t].joined.Some? && !w.tasks[t].decision.Warming? ==>
              EndedBy(w.hist.epochs, w.tasks[t].joined.value, w.tasks[t].at)
  {
    RunKeepsAgrees(Start(initial), run);
    var w := Run(Start(initial), run);
    assert t in w.tasks ==> AgreesPc(w.core, w.hist.epochs, w.tasks[t]);
  }

  /** A call that fails carries the very error that the last epoch started before it ended with. */
  lemma FailuresNameTheEnd(initial: BackendStatus, run: seq<Label>, t: Tid)
    requires Legal(Start(initial), run) && Always(Start(initial), run, NothingSlipsIn)
    ensures var w := Run(Start(initial), run);
            t in w.tasks && w.tasks[t].Returned? && w.tasks[t].decision.Failed? ==>
              EndedWith(w.hist.epochs, w.tasks[t].epoch, w.tasks[t].decision.error)
  {
    RunKeepsAgrees(Start(initial), run);
    var w := Run(Start(initial), run);
    assert t in w.tasks ==> AgreesPc(w.core, w.hist.epochs, w.tasks[t]);
  }
}
