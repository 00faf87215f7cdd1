/**
 Whether an epoch in progress can still end.  It can exactly when its owner was
 not dropped; after such a drop the bootstrap is stuck for good.
 */
module Recovery {
  import opened Outcomes
  import opened Status
  import opened Protocol
  import opened Frames
  import opened SingleFlight
  import opened Views
  import opened Bootstrap

  lemma RunConcat(w: World, a: seq<Label>, b: seq<Label>)
    requires Legal(w, a) && Legal(Run(w, a), b)
    ensures Legal(w, a + b) && Run(w, a + b) == Run(Run(w, a), b)
    decreases |a|
  {
    if a == [] {
      assert a + b == b;
    } else {
      assert (a + b)[0] == a[0] && (a + b)[1..] == a[1..] + b;
      RunConcat(Next(w, a[0]), a[1..], b);
    }
  }

  lemma RunOne(w: World, l: Label)
    requires Enabled(w, l)
    ensures Legal(w, [l]) && Run(w, [l]) == Next(w, l)
  {
    assert [l][1..] == [];
    assert Legal(Next(w, l), [l][1..]);
  }

  lemma RunThen(w: World, run: seq<Label>, l: Label) returns (longer: seq<Label>, w': World)
    requires Legal(w, run) && Enabled(Run(w, run), l)
    ensures longer == run + [l] && w' == Next(Run(w, run), l)
    ensures Legal(w, longer) && Run(w, longer) == w'
  {
    RunOne(Run(w, run), l);
    RunConcat(w, run, [l]);
    longer, w' := run + [l], Next(Run(w, run), l);
  }

  lemma RunFrom(w: World, l: Label, rest: seq<Label>)
    requires Enabled(w, l) && Legal(Next(w, l), rest)
    ensures Legal(w, [l] + rest) && Run(w, [l] + rest) == Run(Next(w, l), rest)
  {
    RunOne(w, l);
    RunConcat(w, [l], rest);
  }

  lemma {:induction false} UnusedTid(tasks: set<Tid>) returns (t: Tid)
    ensures forall u :: u in tasks ==> u < t
    decreases |tasks|
  {
    if tasks == {} {
      t := 0;
    } else {
      var u :| u in tasks;
      var below := UnusedTid(tasks - {u});
      assert forall v :: v in tasks ==> v == u || v in tasks - {u};
      t := if u < below then below else u + 1;
    }
  }

  /** The helper's best answer. */
  const ALL_WELL := Observation(LifecycleState.Ready, CapabilityState.Ready, CapabilityState.Ready, None, None,
                                UnitState.Active, UnitState.Unknown)

  /** The owner's shortest way to the end of its epoch, ports failing. */
  function WayOut(pc: Pc, t: Tid, child: Tid): Label {
    match pc
    case Started(_, _) => ReadRequest(t)
    case Probing(_, _, _) => SshReply(t, Err(""), 0)
    case Waking(_, _) => WakeReply(t, Some(""))
    case Helping(_, _, _, _) => HelperReply(t, Err(""))
    case Tunnelling(_, _, _, _, _) => TunnelReply(t, Err(""))
    case Publishing(_, _, _) => Publish(t)
    case Spawning(_) => Spawn(t, child)
    case Reborrowing(_, _, _) => Reborrow(t)
    case Idle => Deadline(t)
    case _ => Finish(t)
  }

  function Distance(pc: Pc): nat {
    match pc
    case Publishing(_, _, _) => 4
    case Spawning(_) => 3
    case Started(_, _) => 2
    case Finishing(_, _, _, _, _) => 0
    case _ => 1
  }

  lemma StepOut(w: World, l: Label, child: Tid)
    requires Owned(w) && Viewed(w) && w.hist.owner.Some? && child !in w.tasks
    requires l == WayOut(w.tasks[w.hist.owner.value], w.hist.owner.value, child)
    ensures Enabled(w, l) && OwnerStep(l)
    ensures l.Finish? ==> !Next(w, l).core.active
    ensures !l.Finish? ==>
              && Owned(Next(w, l)) && Viewed(Next(w, l)) && Next(w, l).hist.owner.Some?
              && Distance(Next(w, l).tasks[Next(w, l).hist.owner.value]) < Distance(w.tasks[w.hist.owner.value])
  {
    assert ViewOk(w.core, w.tasks[w.hist.owner.value]);
    StepKeepsOwned(w, l);
    StepKeepsViewed(w, l);
  }

  ghost predicate Bystanders(w: World, w': World) {
    forall u :: u in w.tasks && !Owns(w.tasks[u]) ==> u in w'.tasks && w'.tasks[u] == w.tasks[u]
  }

  lemma StepPastBystanders(w: World, l: Label)
    requires Enabled(w, l) && OwnerStep(l)
    ensures Bystanders(w, Next(w, l))
  {
    forall u | u in w.tasks && !Owns(w.tasks[u])
      ensures u in Next(w, l).tasks && Next(w, l).tasks[u] == w.tasks[u]
    {
      OthersUntouched(w, l, u);
    }
  }

  /** From any state with an owner the epoch can end, and ending it moves no other task. */
  lemma {:induction false} EndEpoch(w: World) returns (run: seq<Label>)
    requires Owned(w) && Viewed(w) && w.hist.owner.Some?
    ensures Legal(w, run) && !Run(w, run).core.active && Bystanders(w, Run(w, run))
    decreases Distance(w.tasks[w.hist.owner.value])
  {
    var t := w.hist.owner.value;
    var child := UnusedTid(w.tasks.Keys);
    assert child !in w.tasks;
    var l := WayOut(w.tasks[t], t, child);
    StepOut(w, l, child);
    StepPastBystanders(w, l);
    if l.Finish? {
      run := [l];
      RunOne(w, l);
    } else {
      var rest := EndEpoch(Next(w, l));
      run := [l] + rest;
      RunFrom(w, l, rest);
    }
  }

  /** The answers given: a task that has returned, with something other than "still warming". */
  predicate Answered(w: World, t: Tid) {
    t in w.tasks && w.tasks[t].Returned? && !w.tasks[t].decision.Warming?
  }

  lemma StuckStep(w: World, l: Label)
    requires Owned(w) && w.hist.orphaned && Enabled(w, l)
    ensures Next(w, l).hist.orphaned && !OwnerStep(l)
    ensures forall t :: Answered(Next(w, l), t) ==> Answered(w, t)
  {
  }

  /** After its owner is dropped the bootstrap stays active for ever: no task owns it, no port is
      called again, and no call is ever answered with Ready or Failed. */
  lemma {:induction false} DroppedOwnerIsFinal(w: World, run: seq<Label>)
    requires Owned(w) && w.hist.orphaned && Legal(w, run)
    ensures var w' := Run(w, run);
            && w'.hist.orphaned && w'.core.active
            && (forall t :: t in w'.tasks ==> !Owns(w'.tasks[t]) && !CallsPort(w'.tasks[t]))
            && (forall t :: Answered(w', t) ==> Answered(w, t))
    decreases |run|
  {
    if run != [] {
      StuckStep(w, run[0]);
      StepKeepsOwned(w, run[0]);
      DroppedOwnerIsFinal(Next(w, run[0]), run[1..]);
    }
  }

  /** An epoch in progress can end if and only if its owner was not dropped. */
  lemma EndsUnlessDropped(w: World)
    requires Consistent(w) && w.core.active
    ensures (exists run :: Legal(w, run) && !Run(w, run).core.active) <==> !w.hist.orphaned
  {
    if w.hist.orphaned {
      forall run | Legal(w, run)
        ensures Run(w, run).core.active
      {
        DroppedOwnerIsFinal(w, run);
      }
    } else {
      var run := EndEpoch(w);
    }
  }

  /** The stuck state is reached by one call whose future is dropped while it waits for ssh. */
  lemma ADropBlocksForEver()
    ensures var run := [Call(0, Request.Chat), Borrow(0), CheckActive(0), StartOrJoin(0), ReadRequest(0), Drop(0)];
            Legal(Start(DEFAULT_STATUS), run) && Run(Start(DEFAULT_STATUS), run).hist.orphaned
  {
    var w0 := Start(DEFAULT_STATUS);
    var r, w := [], w0;
    r, w := RunThen(w0, r, Call(0, Request.Chat));
    r, w := RunThen(w0, r, Borrow(0));
    r, w := RunThen(w0, r, CheckActive(0));
    r, w := RunThen(w0, r, StartOrJoin(0));
    r, w := RunThen(w0, r, ReadRequest(0));
    r, w := RunThen(w0, r, Drop(0));
  }
}
