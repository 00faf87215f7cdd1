/**
 When a joiner's answer is sure to be no older than the end of its epoch, under
 every interleaving.  It is exactly when the epoch can show no settled status
 any more before it ends: its owner is about to finish, none is current, and no
 degrade holds one.
 */
module Endings {
  import opened Outcomes
  import opened Status
  import opened Protocol
  import opened Frames
  import opened SingleFlight
  import opened Views
  import opened Epochs
  import opened Bootstrap
  import opened Recovery
  import opened Invalidation
  import opened Failures
  import opened Agreement

  /** What `t` was answered, if settled, was published at the end of epoch `e` or later. */
  ghost predicate EndSeen(w: World, t: Tid, e: nat) {
    t in w.tasks && w.tasks[t].Returned? && !w.tasks[t].decision.Warming? ==> EndedBy(w.hist.epochs, e, w.tasks[t].at)
  }

  ghost predicate EndSeenForEver(w: World, t: Tid, e: nat) {
    forall run :: Legal(w, run) ==> EndSeen(Run(w, run), t, e)
  }

  /** A task that cannot make a settled status current while the epoch lasts. */
  predicate Harmless(pc: Pc) {
    && (Owns(pc) ==> pc.Reborrowing? || pc.Finishing?)
    && (pc.Holding? && pc.edit.Degrade? ==> !Decisive(pc.status))
  }

  /** The epoch in progress shows no settled status before it ends. */
  ghost predicate Closing(w: World) {
    !Decisive(w.core.Current()) && forall u :: u in w.tasks ==> Harmless(w.tasks[u])
  }

  // A closing epoch is fresh in every continuation.

  /** Nothing settled that the joiner has seen is from before the end of `e`. */
  predicate SeesEnd(epochs: seq<Epoch>, e: nat, pc: Pc) {
    match pc
    case WaitBorrow(_) => true
    case WaitLock(_, status, at) => Decisive(status) ==> EndedBy(epochs, e, at)
    case Parked(_, _) => true
    case Returned(_, _, decision, at, _) => !decision.Warming? ==> EndedBy(epochs, e, at)
    case Gone => true
    case _ => false
  }

  ghost predicate Closes(w: World, t: Tid, e: nat) {
    && 1 <= e <= |w.hist.epochs| && t in w.tasks && SeesEnd(w.hist.epochs, e, w.tasks[t])
    && (w.hist.epochs[e - 1].end.None? ==> e == |w.hist.epochs| && w.core.active && Closing(w))
  }

  lemma EndIsLatest(w: World, l: Label, e: nat)
    requires Consistent(w) && Enabled(w, l) && 1 <= e <= |w.hist.epochs|
    ensures Later(w.hist.epochs, Next(w, l).hist.epochs)
    ensures Ended(w.hist.epochs, e) ==> EndedBy(w.hist.epochs, e, w.core.Version())
  {
    StepLater(w, l);
  }

  lemma SeesStays(es: seq<Epoch>, es': seq<Epoch>, e: nat, pc: Pc)
    requires Later(es, es') && SeesEnd(es, e, pc)
    ensures SeesEnd(es', e, pc)
  {
  }

  /** The joiner's own step. */
  lemma JoinerSteps(w: World, l: Label, e: nat)
    requires Consistent(w) && Closes(w, l.t, e) && Enabled(w, l)
    ensures l.t in Next(w, l).tasks && SeesEnd(Next(w, l).hist.epochs, e, Next(w, l).tasks[l.t])
  {
    EndIsLatest(w, l, e);
    assert ViewOk(w.core, w.tasks[l.t]);
  }

  lemma JoinerStillSees(w: World, l: Label, t: Tid, e: nat)
    requires Consistent(w) && Closes(w, t, e) && Enabled(w, l)
    ensures t in Next(w, l).tasks && SeesEnd(Next(w, l).hist.epochs, e, Next(w, l).tasks[t])
  {
    OthersUntouched(w, l, t);
    if l.t == t {
      JoinerSteps(w, l, e);
    } else {
      StepLater(w, l);
      SeesStays(w.hist.epochs, Next(w, l).hist.epochs, e, w.tasks[t]);
    }
  }

  lemma NothingSettledAppears(w: World, l: Label)
    requires Viewed(w) && Closing(w) && Enabled(w, l) && Next(w, l).core.active
    ensures !Decisive(Next(w, l).core.Current())
  {
    StepChannel(w, l);
    if Publishes(l) { NewEntry(w, l); }
    if l.t in w.tasks { assert Harmless(w.tasks[l.t]); }
  }

  lemma StepperStaysHarmless(w: World, l: Label)
    requires Closing(w) && Enabled(w, l) && w.core.active && l.t in Next(w, l).tasks
    ensures Harmless(Next(w, l).tasks[l.t])
  {
    if l.t in w.tasks { assert Harmless(w.tasks[l.t]); }
  }

  lemma StepStaysHarmless(w: World, l: Label)
    requires Viewed(w) && Closing(w) && Enabled(w, l) && w.core.active && Next(w, l).core.active
    ensures Closing(Next(w, l))
  {
    NothingSettledAppears(w, l);
    forall u | u in Next(w, l).tasks
      ensures Harmless(Next(w, l).tasks[u])
    {
      OthersUntouched(w, l, u);
      if l.t in w.tasks { assert Harmless(w.tasks[l.t]); }
      if u == l.t {
        StepperStaysHarmless(w, l);
      } else {
        assert u in w.tasks ==> Harmless(w.tasks[u]);
      }
    }
  }

  lemma StepStaysClosing(w: World, l: Label, t: Tid, e: nat)
    requires Consistent(w) && Closes(w, t, e) && Enabled(w, l)
    ensures Closes(Next(w, l), t, e)
  {
    StepLater(w, l);
    StepKeepsOwned(w, l);
    StepKeepsBooked(w, l);
    JoinerStillSees(w, l, t, e);
    if Next(w, l).hist.epochs[e - 1].end.None? {
      EpochLasts(w, l, e);
      StepStaysHarmless(w, l);
    }
  }

  lemma EpochLasts(w: World, l: Label, e: nat)
    requires Consistent(w) && Enabled(w, l) && e == |w.hist.epochs| && e > 0 && w.core.active
    requires |Next(w, l).hist.epochs| >= e && Next(w, l).hist.epochs[e - 1].end.None?
    ensures Next(w, l).core.active && |Next(w, l).hist.epochs| == e
  {
  }

  lemma {:induction false} RunSeesEnd(w: World, run: seq<Label>, t: Tid, e: nat)
    requires Consistent(w) && Closes(w, t, e) && Legal(w, run)
    ensures EndSeen(Run(w, run), t, e)
    decreases |run|
  {
    if run != [] {
      StepKeepsOwned(w, run[0]);
      StepKeepsViewed(w, run[0]);
      StepKeepsBooked(w, run[0]);
      StepStaysClosing(w, run[0], t, e);
      RunSeesEnd(Next(w, run[0]), run[1..], t, e);
    }
  }

  // Any other epoch shows a settled status before it ends, to a joiner that looks.

  /** `t` has joined epoch `e`, which goes on and can still end. */
  ghost predicate Joined(w: World, t: Tid, e: nat) {
    && Consistent(w) && w.core.active && !w.hist.orphaned && e == |w.hist.epochs|
    && t in w.tasks && w.tasks[t].WaitBorrow?
  }

  lemma StepBack(w: World, l: Label, t: Tid, e: nat)
    requires Enabled(w, l) && !EndSeenForEver(Next(w, l), t, e)
    ensures !EndSeenForEver(w, t, e)
  {
    var rest :| Legal(Next(w, l), rest) && !EndSeen(Run(Next(w, l), rest), t, e);
    RunFrom(w, l, rest);
  }

  /** Epoch `e` does not end at version `m` or before. */
  ghost predicate EndsAfter(w: World, e: nat, m: nat) {
    1 <= e <= |w.hist.epochs| && m < |w.core.chan| && !EndedBy(w.hist.epochs, e, m)
  }

  lemma StepEndsAfter(w: World, l: Label, e: nat, m: nat)
    requires Owned(w) && Booked(w) && EndsAfter(w, e, m) && Enabled(w, l)
    ensures EndsAfter(Next(w, l), e, m)
  {
    StepLater(w, l);
    StepChannel(w, l);
    if !l.StartOrJoin? && !l.SshReply? && !l.Finish? { QuietStep(w, l); }
  }

  lemma {:induction false} RunEndsAfter(w: World, run: seq<Label>, e: nat, m: nat)
    requires Consistent(w) && EndsAfter(w, e, m) && Legal(w, run)
    ensures EndsAfter(Run(w, run), e, m)
    decreases |run|
  {
    if run != [] {
      StepKeepsOwned(w, run[0]);
      StepKeepsViewed(w, run[0]);
      StepKeepsBooked(w, run[0]);
      StepEndsAfter(w, run[0], e, m);
      RunEndsAfter(Next(w, run[0]), run[1..], e, m);
    }
  }

  lemma LateLook(w: World, t: Tid, e: nat)
    requires t in w.tasks && w.tasks[t].WaitLock? && Decisive(w.tasks[t].status) && !w.core.active
    requires !EndedBy(w.hist.epochs, e, w.tasks[t].at)
    ensures Enabled(w, LockView(t, false)) && !EndSeen(Next(w, LockView(t, false)), t, e)
  {
  }

  /** The joiner reads the settled status, the epoch ends, and the joiner is answered with what it read. */
  lemma SettledAnswers(w: World, t: Tid, e: nat)
    requires Joined(w, t, e) && Decisive(w.core.Current())
    ensures !EndSeenForEver(w, t, e)
  {
    var l := Borrow(t);
    var w1 := Next(w, l);
    StepKeepsOwned(w, l);
    StepKeepsViewed(w, l);
    StepKeepsBooked(w, l);
    assert EndsAfter(w1, e, w.core.Version());
    var way := EndEpoch(w1);
    RunEndsAfter(w1, way, e, w.core.Version());
    var w2 := Run(w1, way);
    assert w2.tasks[t] == w1.tasks[t];
    LateLook(w2, t, e);
    RunOne(w2, LockView(t, false));
    RunConcat(w1, way, [LockView(t, false)]);
    assert !EndSeen(Run(w1, way + [LockView(t, false)]), t, e);
    StepBack(w, l, t, e);
  }

  /** The owner's way to a published Ready, ports succeeding. */
  function WayUp(pc: Pc, u: Tid, child: Tid): Label {
    match pc
    case Started(_, _) => ReadRequest(u)
    case Probing(_, _, _) => SshReply(u, Ok(true), 0)
    case Waking(_, _) => WakeReply(u, None)
    case Helping(_, _, _, _) => HelperReply(u, Ok(ALL_WELL))
    case Tunnelling(_, _, _, _, _) => TunnelReply(u, Ok(TunnelState.Ready))
    case Publishing(_, _, _) => Publish(u)
    case Spawning(_) => Spawn(u, child)
    case _ => Tick(u)
  }

  function Height(pc: Pc): nat {
    match pc
    case Publishing(_, status, _) => if BackendIsReady(status) then 1 else 8
    case Tunnelling(_, _, _, _, _) => 2
    case Helping(_, _, _, _) => 3
    case Probing(_, _, _) => 4
    case Started(_, _) => 5
    case Idle => 6
    case Spawning(_) => 7
    case _ => 9
  }

  /** A step of the owner other than finishing leaves the joiner where it is. */
  lemma StaysJoined(w: World, t: Tid, e: nat, l: Label)
    requires Joined(w, t, e) && Enabled(w, l) && OwnerStep(l) && !l.Finish? && w.hist.owner == Some(l.t)
    ensures Joined(Next(w, l), t, e) && Next(w, l).hist.owner.Some?
  {
    StepKeepsOwned(w, l);
    StepKeepsViewed(w, l);
    StepKeepsBooked(w, l);
    OthersUntouched(w, l, t);
    StepLater(w, l);
  }

  lemma ClimbsUp(w: World, u: Tid, child: Tid)
    requires Viewed(w) && u in w.tasks && Owns(w.tasks[u]) && child !in w.tasks && w.hist.owner == Some(u)
    requires !w.tasks[u].Reborrowing? && !w.tasks[u].Finishing?
    ensures var l := WayUp(w.tasks[u], u, child);
            && Enabled(w, l) && OwnerStep(l) && !l.Finish? && l.t == u
            && var w' := Next(w, l);
               var v := if l.Spawn? then child else u;
               && w'.hist.owner == Some(v) && v in w'.tasks
               && (Decisive(w'.core.Current()) ||
                   (!w'.tasks[v].Reborrowing? && !w'.tasks[v].Finishing? && Height(w'.tasks[v]) < Height(w.tasks[u])))
  {
    assert ViewOk(w.core, w.tasks[u]);
  }

  lemma {:induction false} OwnerShowsReady(w: World, t: Tid, e: nat)
    requires Joined(w, t, e) && w.hist.owner.Some?
    requires !w.tasks[w.hist.owner.value].Reborrowing? && !w.tasks[w.hist.owner.value].Finishing?
    ensures !EndSeenForEver(w, t, e)
    decreases Height(w.tasks[w.hist.owner.value])
  {
    var u := w.hist.owner.value;
    var child := UnusedTid(w.tasks.Keys);
    assert child !in w.tasks;
    var l := WayUp(w.tasks[u], u, child);
    ClimbsUp(w, u, child);
    StaysJoined(w, t, e, l);
    if Decisive(Next(w, l).core.Current()) {
      SettledAnswers(Next(w, l), t, e);
    } else {
      OwnerShowsReady(Next(w, l), t, e);
    }
    StepBack(w, l, t, e);
  }

  lemma DegradeShowsSettled(w: World, t: Tid, e: nat, u: Tid)
    requires Joined(w, t, e) && u in w.tasks && w.tasks[u].Holding? && !Harmless(w.tasks[u])
    ensures !EndSeenForEver(w, t, e)
  {
    var l := CommitEdit(u);
    StepKeepsOwned(w, l);
    StepKeepsViewed(w, l);
    StepKeepsBooked(w, l);
    OthersUntouched(w, l, t);
    NewEntry(w, l);
    QuietStep(w, l);
    SettledAnswers(Next(w, l), t, e);
    StepBack(w, l, t, e);
  }

  lemma OpenEpochAnswers(w: World, t: Tid, e: nat)
    requires Joined(w, t, e) && !Closing(w)
    ensures !EndSeenForEver(w, t, e)
  {
    if Decisive(w.core.Current()) {
      SettledAnswers(w, t, e);
    } else {
      var u :| u in w.tasks && !Harmless(w.tasks[u]);
      if w.tasks[u].Holding? { DegradeShowsSettled(w, t, e, u); } else { OwnerShowsReady(w, t, e); }
    }
  }

  lemma EndSeenExactly(w: World, t: Tid, e: nat)
    requires Consistent(w) && w.core.active && e == |w.hist.epochs| && t in w.tasks && w.tasks[t].WaitBorrow?
    ensures EndSeenForEver(w, t, e) <==> w.hist.orphaned || Closing(w)
  {
    if w.hist.orphaned {
      forall run | Legal(w, run)
        ensures EndSeen(Run(w, run), t, e)
      {
        DroppedOwnerIsFinal(w, run);
        assert !Answered(w, t);
      }
    } else if Closing(w) {
      forall run | Legal(w, run)
        ensures EndSeen(Run(w, run), t, e)
      {
        RunSeesEnd(w, run, t, e);
      }
    } else {
      OpenEpochAnswers(w, t, e);
    }
  }

  /** A call that joins an epoch is sure, in every continuation, that a settled answer was published at the epoch's end
      or later exactly when, as it joins, the epoch has lost its owner, or its owner is about to finish, no settled
      status is current and no degrade holds one. */
  lemma JoinerSeesTheEndExactly(initial: BackendStatus, past: seq<Label>, t: Tid)
    requires Legal(Start(initial), past)
    requires var w := Run(Start(initial), past); Enabled(w, StartOrJoin(t)) && w.core.active
    ensures var w := Next(Run(Start(initial), past), StartOrJoin(t));
            EndSeenForEver(w, t, |w.hist.epochs|) <==> w.hist.orphaned || Closing(w)
  {
    RunKeepsConsistent(Start(initial), past);
    var w0 := Run(Start(initial), past);
    StepKeepsOwned(w0, StartOrJoin(t));
    StepKeepsViewed(w0, StartOrJoin(t));
    StepKeepsBooked(w0, StartOrJoin(t));
    EndSeenExactly(Next(w0, StartOrJoin(t)), t, |w0.hist.epochs|);
  }
}
