/**
 What joiners learn under every interleaving.  A joiner reads the status and the
 bootstrap state in two steps, so it can pair a status left over from before its
 epoch with the end of that epoch.  It can do so exactly when such a status is
 still around when it joins.
 */
module Leftovers {
  import opened Outcomes
  import opened Status
  import opened Protocol
  import opened Frames
  import opened SingleFlight
  import opened Views
  import opened Epochs
  import opened Bootstrap
  import opened Recovery
  import opened Invalidation
  import opened Agreement

  /** A settled status made before epoch `e`, on its way to the channel. */
  predicate CarriesLeftover(w: World, pc: Pc, e: nat) {
    match pc
    case Holding(edit, status, at) => edit.Degrade? && Decisive(status) && OriginAt(w, at).Epoch() < e
    case Finishing(_, status, origin, _, _) => Decisive(status) && origin.Epoch() < e
    case _ => false
  }

  ghost predicate NoLeftover(w: World, e: nat) {
    && (Decisive(w.core.Current()) ==> OriginAt(w, w.core.Version()).Epoch() >= e)
    && forall u :: u in w.tasks ==> !CarriesLeftover(w, w.tasks[u], e)
  }

  /** Whatever `t` was answered, if settled, was made in epoch `e` or later. */
  ghost predicate FreshAnswer(w: World, t: Tid, e: nat) {
    t in w.tasks && w.tasks[t].Returned? && !w.tasks[t].decision.Warming? ==>
      OriginAt(w, w.tasks[t].at).Epoch() >= e
  }

  ghost predicate FreshForEver(w: World, t: Tid, e: nat) {
    forall run :: Legal(w, run) ==> FreshAnswer(Run(w, run), t, e)
  }

  // Without leftovers every continuation is fresh.

  predicate LooksFrom(pc: Pc, m: nat) {
    match pc
    case WaitBorrow(waiter) => m <= waiter.seen
    case WaitLock(waiter, _, at) => m <= waiter.seen && m <= at
    case Parked(waiter, _) => m <= waiter.seen
    case Returned(_, _, decision, at, _) => !decision.Warming? ==> m <= at && Decisive(decision.status)
    case Gone => true
    case _ => false
  }

  ghost predicate FreshFrom(w: World, m: nat, e: nat) {
    && e <= |w.hist.epochs| && m < |w.core.chan|
    && (forall v :: m <= v < |w.core.chan| && Decisive(w.core.chan[v]) ==> OriginAt(w, v).Epoch() >= e)
    && (forall u :: u in w.tasks ==> !CarriesLeftover(w, w.tasks[u], e))
  }

  lemma OriginsStay(w: World, l: Label)
    requires Booked(w) && Enabled(w, l)
    ensures forall v {:trigger OriginAt(w, v)} :: 0 <= v < |w.core.chan| ==> OriginAt(Next(w, l), v) == OriginAt(w, v)
  {
    StepOrigins(w, l);
  }

  lemma StepperNoLeftover(w: World, l: Label, m: nat, e: nat)
    requires Consistent(w) && FreshFrom(w, m, e) && Enabled(w, l) && l.t in Next(w, l).tasks
    ensures !CarriesLeftover(Next(w, l), Next(w, l).tasks[l.t], e)
  {
    if l.t in w.tasks {
      assert ViewOk(w.core, w.tasks[l.t]) && BookPc(w.hist.epochs, w.tasks[l.t]);
      assert !CarriesLeftover(w, w.tasks[l.t], e);
    }
  }

  lemma NewEntryIsFresh(w: World, l: Label, m: nat, e: nat)
    requires Consistent(w) && FreshFrom(w, m, e) && Enabled(w, l) && Publishes(l)
    ensures var w', v := Next(w, l), |w.core.chan|;
            Decisive(w'.core.chan[v]) ==> OriginAt(w', v).Epoch() >= e
  {
    StepOrigins(w, l);
    NewEntry(w, l);
    assert !CarriesLeftover(w, w.tasks[l.t], e) && BookPc(w.hist.epochs, w.tasks[l.t]);
  }

  lemma StepAddsNoLeftover(w: World, l: Label, m: nat, e: nat, u: Tid)
    requires Consistent(w) && FreshFrom(w, m, e) && Enabled(w, l) && u in Next(w, l).tasks
    ensures !CarriesLeftover(Next(w, l), Next(w, l).tasks[u], e)
  {
    OthersUntouched(w, l, u);
    if u == l.t {
      StepperNoLeftover(w, l, m, e);
    } else if u in w.tasks {
      OriginsStay(w, l);
      assert ViewOk(w.core, w.tasks[u]) && !CarriesLeftover(w, w.tasks[u], e);
    }
  }

  lemma ChannelStaysFresh(w: World, l: Label, m: nat, e: nat)
    requires Consistent(w) && FreshFrom(w, m, e) && Enabled(w, l)
    ensures var w' := Next(w, l);
            forall v :: m <= v < |w'.core.chan| && Decisive(w'.core.chan[v]) ==> OriginAt(w', v).Epoch() >= e
  {
    var w' := Next(w, l);
    OriginsStay(w, l);
    StepChannel(w, l);
    if Publishes(l) { NewEntryIsFresh(w, l, m, e); }
    forall v | m <= v < |w'.core.chan| && Decisive(w'.core.chan[v])
      ensures OriginAt(w', v).Epoch() >= e
    {
      assert v < |w.core.chan| ==> w'.core.chan[v] == w.core.chan[v] && OriginAt(w', v) == OriginAt(w, v);
    }
  }

  lemma StepStaysFresh(w: World, l: Label, m: nat, e: nat)
    requires Consistent(w) && FreshFrom(w, m, e) && Enabled(w, l)
    ensures FreshFrom(Next(w, l), m, e)
  {
    ChannelStaysFresh(w, l, m, e);
    StepChannel(w, l);
    StepLater(w, l);
    forall u | u in Next(w, l).tasks
      ensures !CarriesLeftover(Next(w, l), Next(w, l).tasks[u], e)
    {
      StepAddsNoLeftover(w, l, m, e, u);
    }
  }

  lemma StepLooksFrom(w: World, l: Label, t: Tid, m: nat)
    requires Viewed(w) && Enabled(w, l) && t in w.tasks && LooksFrom(w.tasks[t], m) && m < |w.core.chan|
    ensures t in Next(w, l).tasks && LooksFrom(Next(w, l).tasks[t], m)
  {
    OthersUntouched(w, l, t);
    assert ViewOk(w.core, w.tasks[t]);
  }

  lemma {:induction false} RunStaysFresh(w: World, run: seq<Label>, t: Tid, m: nat, e: nat)
    requires Consistent(w) && FreshFrom(w, m, e) && t in w.tasks && LooksFrom(w.tasks[t], m) && Legal(w, run)
    ensures FreshAnswer(Run(w, run), t, e)
    decreases |run|
  {
    if run == [] {
      assert ViewOk(w.core, w.tasks[t]);
    } else {
      var l := run[0];
      StepKeepsOwned(w, l);
      StepKeepsViewed(w, l);
      StepKeepsBooked(w, l);
      StepStaysFresh(w, l, m, e);
      StepLooksFrom(w, l, t, m);
      RunStaysFresh(Next(w, l), run[1..], t, m, e);
    }
  }

  // With a leftover some continuation is stale.

  lemma {:induction false} OriginsStayInRun(w: World, run: seq<Label>)
    requires Legal(w, run)
    ensures w.hist.origins <= Run(w, run).hist.origins
    decreases |run|
  {
    if run != [] {
      StepOrigins(w, run[0]);
      OriginsStayInRun(Next(w, run[0]), run[1..]);
    }
  }

  lemma OldOriginStays(w: World, run: seq<Label>, v: nat)
    requires Legal(w, run) && v < |w.hist.origins|
    ensures OriginAt(Run(w, run), v) == OriginAt(w, v)
  {
    OriginsStayInRun(w, run);
  }

  lemma LookSettles(w: World, t: Tid, e: nat)
    requires t in w.tasks && w.tasks[t].WaitLock? && Decisive(w.tasks[t].status) && !w.core.active
    requires OriginAt(w, w.tasks[t].at).Epoch() < e
    ensures Enabled(w, LockView(t, false)) && !FreshAnswer(Next(w, LockView(t, false)), t, e)
  {
  }

  /** A waiter that borrows a leftover and looks again after the end of the epoch is answered with it. */
  lemma BorrowedLeftover(w: World, t: Tid, e: nat) returns (run: seq<Label>)
    requires Consistent(w) && t in w.tasks && w.tasks[t].WaitBorrow? && !w.hist.orphaned
    requires Decisive(w.core.Current()) && OriginAt(w, w.core.Version()).Epoch() < e
    ensures Legal(w, run) && !FreshAnswer(Run(w, run), t, e)
  {
    var l := Borrow(t);
    var w1 := Next(w, l);
    StepKeepsOwned(w, l);
    StepKeepsViewed(w, l);
    RunOne(w, l);
    var way := [];
    if w.core.active { way := EndEpoch(w1); }
    OldOriginStays(w1, way, w.core.Version());
    var w2 := Run(w1, way);
    assert w2.tasks[t] == w1.tasks[t];
    LookSettles(w2, t, e);
    RunOne(w2, LockView(t, false));
    RunConcat(w1, way, [LockView(t, false)]);
    run := [l] + (way + [LockView(t, false)]);
    RunFrom(w, l, way + [LockView(t, false)]);
  }

  /** A leftover on its way reaches the channel in one step. */
  lemma LeftoverArrives(w: World, t: Tid, u: Tid, e: nat) returns (l: Label)
    requires Consistent(w) && t in w.tasks && w.tasks[t].WaitBorrow? && !w.hist.orphaned
    requires u in w.tasks && CarriesLeftover(w, w.tasks[u], e)
    ensures Enabled(w, l)
    ensures var w' := Next(w, l);
            && Consistent(w') && t in w'.tasks && w'.tasks[t].WaitBorrow? && !w'.hist.orphaned
            && Decisive(w'.core.Current()) && OriginAt(w', w'.core.Version()).Epoch() < e
  {
    l := if w.tasks[u].Holding? then CommitEdit(u) else Finish(u);
    StepKeepsOwned(w, l);
    StepKeepsViewed(w, l);
    StepKeepsBooked(w, l);
    OthersUntouched(w, l, t);
    StepOrigins(w, l);
    NewEntry(w, l);
  }

  lemma LeftoverAnswers(w: World, t: Tid, e: nat)
    requires Consistent(w) && t in w.tasks && w.tasks[t].WaitBorrow? && !w.hist.orphaned && !NoLeftover(w, e)
    ensures !FreshForEver(w, t, e)
  {
    if Decisive(w.core.Current()) && OriginAt(w, w.core.Version()).Epoch() < e {
      var run := BorrowedLeftover(w, t, e);
    } else {
      var u :| u in w.tasks && CarriesLeftover(w, w.tasks[u], e);
      var l := LeftoverArrives(w, t, u, e);
      var rest := BorrowedLeftover(Next(w, l), t, e);
      RunFrom(w, l, rest);
    }
  }

  /** A call that joins epoch e is sure of an answer made in epoch e or later exactly when, as it joins, no settled
      status from before e is current or on its way to the channel. */
  lemma JoinerIsFreshExactly(initial: BackendStatus, past: seq<Label>, t: Tid)
    requires Legal(Start(initial), past)
    requires var w := Run(Start(initial), past); Enabled(w, StartOrJoin(t)) && w.core.active && !w.hist.orphaned
    ensures var w := Next(Run(Start(initial), past), StartOrJoin(t));
            FreshForEver(w, t, |w.hist.epochs|) <==> NoLeftover(w, |w.hist.epochs|)
  {
    RunKeepsConsistent(Start(initial), past);
    FreshAfterJoin(Run(Start(initial), past), t);
  }

  lemma FreshAfterJoin(w0: World, t: Tid)
    requires Consistent(w0) && Enabled(w0, StartOrJoin(t)) && w0.core.active && !w0.hist.orphaned
    ensures var w := Next(w0, StartOrJoin(t));
            FreshForEver(w, t, |w.hist.epochs|) <==> NoLeftover(w, |w.hist.epochs|)
  {
    var w := Next(w0, StartOrJoin(t));
    var m, e := w.core.Version(), |w.hist.epochs|;
    StepKeepsOwned(w0, StartOrJoin(t));
    StepKeepsViewed(w0, StartOrJoin(t));
    StepKeepsBooked(w0, StartOrJoin(t));
    if NoLeftover(w, e) {
      forall run | Legal(w, run)
        ensures FreshAnswer(Run(w, run), t, e)
      {
        RunStaysFresh(w, run, t, m, e);
      }
    } else {
      LeftoverAnswers(w, t, e);
    }
  }

  // The race on its own: an epoch ends Ready and its joiner is told it failed.

  const NO_ROUTE := "no route to host"
  const OLD_ERROR := Broken(DEFAULT_STATUS)

  /** A chat call finds no epoch active and leads one. */
  lemma CallLeads(w0: World, t: Tid) returns (run: seq<Label>)
    requires t !in w0.tasks && !w0.core.active && !BackendIsReady(w0.core.Current())
    ensures Legal(w0, run)
    ensures var w, v := Run(w0, run), w0.core.Version();
            && w.core == w0.core.Start(Request.Chat)
            && w.tasks == w0.tasks[t := Started(Leader(Request.Chat, v, v), w0.core.Current())]
            && |w.hist.epochs| == |w0.hist.epochs| + 1
  {
    var w := w0;
    run := [];
    run, w := RunThen(w0, run, Call(t, Request.Chat));
    run, w := RunThen(w0, run, Borrow(t));
    run, w := RunThen(w0, run, CheckActive(t));
    run, w := RunThen(w0, run, StartOrJoin(t));
  }

  /** Its ssh probe fails, and so does its epoch. */
  lemma LeaderFails(w0: World, t: Tid) returns (run: seq<Label>)
    requires t in w0.tasks && w0.tasks[t].Started? && w0.tasks[t].role.Leader?
    ensures Legal(w0, run)
    ensures var w := Run(w0, run);
            && w.core == w0.core.Finish(Broken(w0.tasks[t].status), Some(NO_ROUTE))
            && w.tasks.Keys == w0.tasks.Keys
            && |w.hist.epochs| == |w0.hist.epochs|
  {
    var w := w0;
    run := [];
    run, w := RunThen(w0, run, ReadRequest(t));
    run, w := RunThen(w0, run, SshReply(t, Err(NO_ROUTE), 0));
    run, w := RunThen(w0, run, Finish(t));
  }

  /** A chat call joins the epoch in progress and reads the status. */
  lemma JoinerReads(w0: World, t: Tid) returns (run: seq<Label>)
    requires t !in w0.tasks && w0.core.active
    ensures Legal(w0, run)
    ensures var w, v := Run(w0, run), w0.core.Version();
            && w.core == w0.core && |w.hist.epochs| == |w0.hist.epochs|
            && w.tasks == w0.tasks[t := WaitLock(Waiter(v, v, |w0.hist.epochs|), w0.core.Current(), v)]
  {
    var w := w0;
    run := [];
    run, w := RunThen(w0, run, Call(t, Request.Chat));
    run, w := RunThen(w0, run, Borrow(t));
    run, w := RunThen(w0, run, CheckActive(t));
    run, w := RunThen(w0, run, StartOrJoin(t));
    run, w := RunThen(w0, run, Borrow(t));
  }

  /** The leader observes the backend ready. */
  lemma LeaderObserves(w0: World, t: Tid) returns (run: seq<Label>)
    requires t in w0.tasks && w0.tasks[t].Started?
    ensures Legal(w0, run)
    ensures var w := Run(w0, run);
            && t in w.tasks && w.tasks[t].Publishing? && w.tasks[t].role == w0.tasks[t].role
            && BackendIsReady(w.tasks[t].status) && w.tasks == w0.tasks[t := w.tasks[t]]
            && w.core == w0.core && |w.hist.epochs| == |w0.hist.epochs|
  {
    var w := w0;
    run := [];
    run, w := RunThen(w0, run, ReadRequest(t));
    run, w := RunThen(w0, run, SshReply(t, Ok(true), 0));
    run, w := RunThen(w0, run, HelperReply(t, Ok(ALL_WELL)));
    run, w := RunThen(w0, run, TunnelReply(t, Ok(TunnelState.Ready)));
  }

  /** It publishes what it saw and ends the epoch without an error. */
  lemma LeaderEnds(w0: World, t: Tid) returns (run: seq<Label>)
    requires t in w0.tasks && w0.tasks[t].Publishing? && w0.tasks[t].role.Leader? && BackendIsReady(w0.tasks[t].status)
    requires w0.hist.epochs != []
    ensures Legal(w0, run)
    ensures var w := Run(w0, run);
            && !w.core.active && w.core.lastError == None && BackendIsReady(w.core.Current())
            && t in w.tasks && w.tasks == w0.tasks[t := w.tasks[t]]
            && |w.hist.epochs| == |w0.hist.epochs|
            && LastOf(w.hist.epochs).end.Some? && LastOf(w.hist.epochs).end.value.error == None
  {
    var w := w0;
    run := [];
    run, w := RunThen(w0, run, Publish(t));
    run, w := RunThen(w0, run, Reborrow(t));
    run, w := RunThen(w0, run, Finish(t));
  }

  /** Epoch 1 fails; call 1 leads epoch 2, and call 2 joins it and reads the Error of epoch 1. */
  lemma JoinerReadsOldError() returns (run: seq<Label>)
    ensures Legal(Start(DEFAULT_STATUS), run)
    ensures var w := Run(Start(DEFAULT_STATUS), run);
            && |w.hist.epochs| == 2
            && 1 in w.tasks && w.tasks[1] == Started(Leader(Request.Chat, 1, 1), OLD_ERROR)
            && 2 in w.tasks && w.tasks[2] == WaitLock(Waiter(1, 1, 2), OLD_ERROR, 1)
  {
    var w0 := Start(DEFAULT_STATUS);
    run := CallLeads(w0, 0);
    var fail := LeaderFails(Run(w0, run), 0);
    RunConcat(w0, run, fail);
    run := run + fail;
    assert Run(w0, run).core.Current() == OLD_ERROR && Run(w0, run).tasks.Keys == {0};
    var lead := CallLeads(Run(w0, run), 1);
    RunConcat(w0, run, lead);
    run := run + lead;
    var join := JoinerReads(Run(w0, run), 2);
    RunConcat(w0, run, join);
    run := run + join;
  }

  /** Without atomic views a joiner of an epoch that ended Ready can be answered Failed, with an error nobody
      reported. */
  lemma StaleFailureIsReachable()
    ensures exists run :: && Legal(Start(DEFAULT_STATUS), run)
                          && var w := Run(Start(DEFAULT_STATUS), run);
                          && 2 in w.tasks && w.tasks[2].Returned? && w.tasks[2].joined == Some(2)
                          && w.tasks[2].decision == Decision.Failed(OLD_ERROR, UNSPECIFIED_ERROR)
                          && BackendIsReady(w.core.Current())
                          && |w.hist.epochs| == 2 && w.hist.epochs[1].end.Some?
                          && w.hist.epochs[1].end.value.error == None
  {
    var w0 := Start(DEFAULT_STATUS);
    var run := JoinerReadsOldError();
    var observe := LeaderObserves(Run(w0, run), 1);
    RunConcat(w0, run, observe);
    run := run + observe;
    var end := LeaderEnds(Run(w0, run), 1);
    RunConcat(w0, run, end);
    run := run + end;
    var longer, w := RunThen(w0, run, LockView(2, false));
  }
}
