/** What every run of the scheduler keeps: permits and tickets, order of service, cancellation, execution counts. */
module SchedulerLaws {
  import opened Counting
  import opened Scheduler

  // Permits and tickets.

  ghost predicate Conserved(s: State) {
    && s.sem.available + Count(s.tasks, HasPermit) == s.config.maxActive
    && s.queued == Count(s.tasks, HasTicket) <= s.config.maxQueued
  }

  ghost predicate QueueOk(s: State) {
    && Distinct(s.sem.waiters)
    && (forall t :: t in s.sem.waiters <==> t in s.tasks && s.tasks[t].Queued?)
    && (s.sem.waiters != [] ==> s.sem.available == 0)
  }

  ghost predicate Distinct(s: seq<Tid>) {
    forall i, j :: 0 <= i < j < |s| ==> s[i] != s[j]
  }

  lemma {:induction false} WithoutRemoves(s: seq<Tid>, t: Tid)
    requires Distinct(s)
    ensures forall u :: u in Without(s, t) <==> u in s && u != t
    ensures Distinct(Without(s, t))
  {
    if s != [] {
      WithoutRemoves(s[1..], t);
      assert s == [s[0]] + s[1..];
      assert s[0] !in s[1..];
    }
  }

  lemma MoveKeepsQueue(s: State, t: Tid, pc: Pc)
    requires QueueOk(s) && !pc.Queued? && (t in s.tasks ==> !s.tasks[t].Queued?)
    ensures QueueOk(s.With(t, pc))
  {
  }

  lemma ReturnKeepsQueue(s: State)
    requires QueueOk(s)
    ensures QueueOk(s.Return())
  {
    if s.sem.waiters != [] {
      assert s.sem.waiters == [s.sem.waiters[0]] + s.sem.waiters[1..];
      assert s.sem.waiters[0] !in s.sem.waiters[1..];
    }
  }

  lemma LeaveKeepsQueue(s: State, t: Tid, outcome: Outcome)
    requires QueueOk(s) && t in s.tasks && (s.tasks[t].Queued? || s.tasks[t].Granted?)
    ensures QueueOk(LeaveQueue(s, t, outcome))
  {
    if s.tasks[t].Granted? {
      MoveKeepsQueue(s, t, Leaving(outcome));
      ReturnKeepsQueue(s.With(t, Leaving(outcome)));
    } else {
      WithoutRemoves(s.sem.waiters, t);
    }
  }

  lemma StepKeepsQueue(s: State, l: Label)
    requires QueueOk(s) && Enabled(s, l)
    ensures QueueOk(Next(s, l))
  {
    var t := l.t;
    match l
    case Release(_) =>
      var done := Done(if s.tasks[t].Finished? then Completed else Aborted);
      MoveKeepsQueue(s, t, done);
      ReturnKeepsQueue(s.With(t, done));
    case TimeOut(_) => LeaveKeepsQueue(s, t, QueueTimeout);
    case Abort(_) => if s.tasks[t].Queued? || s.tasks[t].Granted? { LeaveKeepsQueue(s, t, Aborted); }
    case _ =>
  }

  lemma ReturnConserves(s: State)
    requires QueueOk(s)
    requires s.sem.waiters != [] ==> s.sem.waiters[0] in s.tasks && s.tasks[s.sem.waiters[0]].Queued?
    ensures s.Return().sem.available + Count(s.Return().tasks, HasPermit)
            == s.sem.available + Count(s.tasks, HasPermit) + 1
    ensures Count(s.Return().tasks, HasTicket) == Count(s.tasks, HasTicket)
    ensures s.Return().config == s.config && s.Return().queued == s.queued
  {
    if s.sem.waiters != [] {
      CountAfter(s.tasks, s.sem.waiters[0], Granted, HasPermit);
      CountAfter(s.tasks, s.sem.waiters[0], Granted, HasTicket);
    }
  }

  /** The task gives its permit back as it moves on. */
  lemma GiveBackConserves(s: State, t: Tid, pc: Pc)
    requires QueueOk(s) && Conserved(s) && t in s.tasks && !s.tasks[t].Queued?
    requires HasPermit(s.tasks[t]) && !HasPermit(pc) && (HasTicket(pc) <==> HasTicket(s.tasks[t])) && !pc.Queued?
    ensures Conserved(s.With(t, pc).Return())
  {
    CountAfter(s.tasks, t, pc, HasPermit);
    CountAfter(s.tasks, t, pc, HasTicket);
    MoveKeepsQueue(s, t, pc);
    ReturnConserves(s.With(t, pc));
  }

  predicate GivesBack(s: State, l: Label)
    requires Enabled(s, l)
  {
    l.Release? || ((l.TimeOut? || l.Abort?) && s.tasks[l.t].Granted?)
  }

  lemma StepConserves(s: State, l: Label)
    requires QueueOk(s) && Conserved(s) && Enabled(s, l)
    ensures Conserved(Next(s, l))
  {
    var t := l.t;
    if GivesBack(s, l) {
      match l
      case Release(_) => GiveBackConserves(s, t, Done(if s.tasks[t].Finished? then Completed else Aborted));
      case TimeOut(_) => GiveBackConserves(s, t, Leaving(QueueTimeout));
      case Abort(_) => GiveBackConserves(s, t, Leaving(Aborted));
    } else {
      CountAfter(s.tasks, t, Next(s, l).tasks[t], HasPermit);
      CountAfter(s.tasks, t, Next(s, l).tasks[t], HasTicket);
    }
  }

  // Order of service.

  ghost predicate SortedBy(arrival: map<Tid, nat>, waiters: seq<Tid>) {
    && (forall t :: t in waiters ==> t in arrival)
    && forall i, j :: 0 <= i < j < |waiters| ==> arrival[waiters[i]] < arrival[waiters[j]]
  }

  ghost predicate Ordered(s: State) {
    && SortedBy(s.hist.arrival, s.sem.waiters)
    && (forall t :: t in s.hist.arrival ==>
                      && s.hist.arrival[t] < s.hist.next
                      && t in s.tasks && !s.tasks[t].Arrived? && !s.tasks[t].Refused? && !s.tasks[t].Reserved?)
    && (forall g, t :: g in s.hist.served && t in s.sem.waiters ==>
                         g in s.hist.arrival && s.hist.arrival[g] < s.hist.arrival[t])
    && (forall g :: g in s.hist.served ==> g in s.hist.arrival)
  }

  lemma SortedTail(arrival: map<Tid, nat>, w: seq<Tid>)
    requires SortedBy(arrival, w) && w != []
    ensures SortedBy(arrival, w[1..])
    ensures forall u :: u in w[1..] ==> u in w && arrival[w[0]] < arrival[u]
  {
    forall u | u in w[1..]
      ensures u in w && arrival[w[0]] < arrival[u]
    {
      var i :| 0 <= i < |w[1..]| && w[1..][i] == u;
      assert u == w[i + 1];
    }
  }

  lemma SortedPush(arrival: map<Tid, nat>, t: Tid, rest: seq<Tid>)
    requires SortedBy(arrival, rest) && t in arrival && forall u :: u in rest ==> arrival[t] < arrival[u]
    ensures SortedBy(arrival, [t] + rest)
  {
  }

  lemma {:induction false} WithoutStaysSorted(arrival: map<Tid, nat>, w: seq<Tid>, t: Tid)
    requires SortedBy(arrival, w)
    ensures SortedBy(arrival, Without(w, t))
    ensures forall u :: u in Without(w, t) ==> u in w
  {
    if w != [] {
      SortedTail(arrival, w);
      WithoutStaysSorted(arrival, w[1..], t);
      if w[0] != t { SortedPush(arrival, w[0], Without(w[1..], t)); }
    }
  }

  lemma ReturnStaysOrdered(s: State)
    requires Ordered(s)
    ensures Ordered(s.Return())
  {
    if s.sem.waiters != [] { SortedTail(s.hist.arrival, s.sem.waiters); }
  }

  lemma MoveStaysOrdered(s: State, t: Tid, pc: Pc)
    requires Ordered(s)
    requires t in s.hist.arrival ==> !pc.Arrived? && !pc.Refused? && !pc.Reserved?
    ensures Ordered(s.With(t, pc))
  {
  }

  lemma LeaveStaysOrdered(s: State, t: Tid, outcome: Outcome)
    requires Ordered(s) && t in s.tasks
    ensures Ordered(LeaveQueue(s, t, outcome))
  {
    MoveStaysOrdered(s, t, Leaving(outcome));
    if s.tasks[t].Granted? {
      ReturnStaysOrdered(s.With(t, Leaving(outcome)));
    } else {
      WithoutStaysSorted(s.hist.arrival, s.sem.waiters, t);
    }
  }

  lemma AcquireStaysOrdered(s: State, t: Tid)
    requires Ordered(s) && Enabled(s, Acquire(t))
    ensures Ordered(Next(s, Acquire(t)))
  {
    MoveStaysOrdered(s, t, Admitted);
  }

  lemma StepStaysOrdered(s: State, l: Label)
    requires Ordered(s) && Enabled(s, l)
    ensures Ordered(Next(s, l))
  {
    var t := l.t;
    match l
    case Release(_) =>
      var done := Done(if s.tasks[t].Finished? then Completed else Aborted);
      MoveStaysOrdered(s, t, done);
      ReturnStaysOrdered(s.With(t, done));
    case Acquire(_) => AcquireStaysOrdered(s, t);
    case TimeOut(_) => LeaveStaysOrdered(s, t, QueueTimeout);
    case Abort(_) => if s.tasks[t].Queued? || s.tasks[t].Granted? { LeaveStaysOrdered(s, t, Aborted); }
    case _ =>
  }

  // Executions and cancellation.

  /** How often a request at this point has begun its operation. */
  function Executions(pc: Pc, dropped: bool): nat {
    match pc
    case Running => 1
    case Finished => 1
    case Cancelling => 1
    case Releasing => 1
    case Done(Completed) => 1
    case Done(Aborted) => if dropped then 1 else 0
    case _ => 0
  }

  ghost predicate LedgerOk(hist: History, t: Tid, pc: Pc) {
    && t in hist.begun && hist.begun[t] == Executions(pc, t in hist.dropped)
    && (pc.Cancelling? || pc.Releasing? ==> t in hist.dropped)
    && (t in hist.dropped ==> pc.Cancelling? || pc.Releasing? || pc == Done(Aborted))
    && (t in hist.tokens <==> t in hist.dropped && !pc.Cancelling?)
    && (pc.Leaving? ==> pc.outcome.QueueTimeout? || pc.outcome.Aborted?)
  }

  ghost predicate Ledger(s: State) {
    && s.hist.dropped <= s.tasks.Keys && s.hist.tokens <= s.tasks.Keys
    && forall t :: t in s.tasks ==> LedgerOk(s.hist, t, s.tasks[t])
  }

  lemma StepperKeepsLedger(s: State, l: Label)
    requires QueueOk(s) && Ledger(s) && Enabled(s, l)
    ensures l.t in Next(s, l).tasks && LedgerOk(Next(s, l).hist, l.t, Next(s, l).tasks[l.t])
  {
    if l.t in s.tasks {
      assert LedgerOk(s.hist, l.t, s.tasks[l.t]);
      assert l.t in s.sem.waiters <==> s.tasks[l.t].Queued?;
    }
  }

  lemma OthersKeepLedger(s: State, l: Label, u: Tid)
    requires QueueOk(s) && Ledger(s) && Enabled(s, l) && u in s.tasks && u != l.t
    ensures u in Next(s, l).tasks && LedgerOk(Next(s, l).hist, u, Next(s, l).tasks[u])
  {
    assert LedgerOk(s.hist, u, s.tasks[u]);
  }

  lemma StepTasks(s: State, l: Label)
    requires QueueOk(s) && Enabled(s, l)
    ensures Next(s, l).tasks.Keys == s.tasks.Keys + {l.t}
    ensures Next(s, l).hist.dropped <= s.hist.dropped + {l.t} && Next(s, l).hist.tokens <= s.hist.tokens + {l.t}
  {
  }

  lemma StepKeepsLedger(s: State, l: Label)
    requires QueueOk(s) && Ledger(s) && Enabled(s, l)
    ensures Ledger(Next(s, l))
  {
    var s' := Next(s, l);
    StepTasks(s, l);
    forall u | u in s'.tasks
      ensures LedgerOk(s'.hist, u, s'.tasks[u])
    {
      if u == l.t { StepperKeepsLedger(s, l); } else { OthersKeepLedger(s, l, u); }
    }
  }

  lemma StepKeepsConfig(s: State, l: Label)
    requires Enabled(s, l)
    ensures Next(s, l).config == s.config
  {
  }

  lemma {:induction false} RunThen(s: State, run: seq<Label>, l: Label)
    requires Legal(s, run) && Enabled(Run(s, run), l)
    ensures Legal(s, run + [l]) && Run(s, run + [l]) == Next(Run(s, run), l)
    decreases |run|
  {
    if run == [] {
      assert [] + [l] == [l] && [l][1..] == [];
      assert Legal(Next(s, l), []);
    } else {
      RunThen(Next(s, run[0]), run[1..], l);
      assert (run + [l])[1..] == run[1..] + [l];
    }
  }

  ghost predicate Lawful(s: State) {
    QueueOk(s) && Conserved(s) && Ordered(s) && Ledger(s)
  }

  lemma StepKeepsLawful(s: State, l: Label)
    requires Lawful(s) && Enabled(s, l)
    ensures Lawful(Next(s, l))
  {
    StepKeepsQueue(s, l);
    StepConserves(s, l);
    StepStaysOrdered(s, l);
    StepKeepsLedger(s, l);
  }

  lemma {:induction false} RunKeepsLawful(s: State, run: seq<Label>)
    requires Lawful(s) && Legal(s, run)
    ensures Lawful(Run(s, run)) && Run(s, run).config == s.config
    decreases |run|
  {
    if run != [] {
      StepKeepsLawful(s, run[0]);
      RunKeepsLawful(Next(s, run[0]), run[1..]);
    }
  }

  lemma InsideIsBounded(s: State)
    requires Conserved(s)
    ensures Count(s.tasks, pc => HasPermit(pc) || HasTicket(pc)) <= s.config.maxActive + s.config.maxQueued
  {
    var permits, tickets := Those(s.tasks, HasPermit), Those(s.tasks, HasTicket);
    assert Those(s.tasks, pc => HasPermit(pc) || HasTicket(pc)) == permits + tickets;
    UnionIsSmall(permits, tickets);
  }

  lemma OldestWaits(waiters: seq<Tid>)
    requires waiters != []
    ensures waiters[0] in waiters
  {
  }

  lemma AllIsReturned(s: State)
    requires QueueOk(s) && Conserved(s) && forall t :: t in s.tasks ==> s.tasks[t].Done?
    ensures s.sem == Semaphore(s.config.maxActive, []) && s.queued == 0
  {
    assert Those(s.tasks, HasPermit) == {} && Those(s.tasks, HasTicket) == {};
    if s.sem.waiters != [] { OldestWaits(s.sem.waiters); }
  }

  lemma TicketIsCounted(s: State, t: Tid)
    requires Conserved(s) && Enabled(s, DropTicket(t))
    ensures s.queued > 0
  {
    assert t in Those(s.tasks, HasTicket);
  }

  /** Permits and tickets are conserved and bounded, nothing is left when all requests are done, and the
      subtraction that gives back a ticket never saturates. */
  lemma SchedulerConserves(config: Config, run: seq<Label>)
    requires Legal(Start(config), run)
    ensures var s := Run(Start(config), run);
            && s.sem.available + Count(s.tasks, HasPermit) == config.maxActive
            && s.queued == Count(s.tasks, HasTicket) <= config.maxQueued
            && Count(s.tasks, pc => HasPermit(pc) || HasTicket(pc)) <= config.maxActive + config.maxQueued
            && (forall t :: Enabled(s, DropTicket(t)) ==> s.queued > 0)
            && ((forall t :: t in s.tasks ==> s.tasks[t].Done?) ==>
                  s.sem == Semaphore(config.maxActive, []) && s.queued == 0)
  {
    StartIsLawful(config);
    RunKeepsLawful(Start(config), run);
    var s := Run(Start(config), run);
    InsideIsBounded(s);
    forall t | Enabled(s, DropTicket(t))
      ensures s.queued > 0
    {
      TicketIsCounted(s, t);
    }
    if forall t :: t in s.tasks ==> s.tasks[t].Done? {
      AllIsReturned(s);
    }
  }

  lemma StartIsLawful(config: Config)
    ensures Lawful(Start(config))
  {
    assert Those(Start(config).tasks, HasPermit) == {} && Those(Start(config).tasks, HasTicket) == {};
  }

  lemma UnionIsSmall(a: set<Tid>, b: set<Tid>)
    ensures |a + b| <= |a| + |b|
  {
    assert a + b == a + (b - a);
    assert |b - a| + |b * a| == |b|;
  }

  /** No permit is free while a request waits for one, and no request is served before one that queued earlier and
      still waits. */
  lemma SchedulerIsFair(config: Config, run: seq<Label>)
    requires Legal(Start(config), run)
    ensures var s := Run(Start(config), run);
            && (s.sem.available > 0 ==> forall t :: t in s.tasks ==> !s.tasks[t].Queued?)
            && (forall early, late ::
                  (early in s.hist.arrival && late in s.hist.arrival && s.hist.arrival[early] < s.hist.arrival[late]
                   && early in s.tasks && s.tasks[early].Queued?) ==> late !in s.hist.served)
  {
    StartIsLawful(config);
    RunKeepsLawful(Start(config), run);
    var s := Run(Start(config), run);
    forall early, late | early in s.hist.arrival && late in s.hist.arrival
                         && s.hist.arrival[early] < s.hist.arrival[late]
                         && early in s.tasks && s.tasks[early].Queued?
      ensures late !in s.hist.served
    {
      assert early in s.sem.waiters;
    }
  }

  /** A completed request ran its operation exactly once, a rejected one never; a token is raised only for a request
      dropped while it ran, and always before its permit is given back. */
  lemma ExecutionAndCancellation(config: Config, run: seq<Label>, t: Tid)
    requires Legal(Start(config), run) && t in Run(Start(config), run).tasks
    ensures var s := Run(Start(config), run);
            && t in s.hist.begun
            && (s.tasks[t] == Done(Completed) ==> s.hist.begun[t] == 1 && t !in s.hist.tokens)
            && (s.tasks[t] == Done(QueueFull) || s.tasks[t] == Done(QueueTimeout) ==>
                  s.hist.begun[t] == 0 && t !in s.hist.tokens)
            && s.hist.begun[t] <= 1
            && (t in s.hist.tokens ==> t in s.hist.dropped)
            && (t in s.hist.dropped && !HasPermit(s.tasks[t]) ==> t in s.hist.tokens)
  {
    StartIsLawful(config);
    RunKeepsLawful(Start(config), run);
    assert LedgerOk(Run(Start(config), run).hist, t, Run(Start(config), run).tasks[t]);
  }

  // Bounded waiting.

  /** The request does not leave the queue by itself. */
  ghost predicate Stays(s: State, run: seq<Label>, t: Tid)
    requires Legal(s, run)
    decreases |run|
  {
    run == [] || (run[0] != TimeOut(t) && run[0] != Abort(t) && Stays(Next(s, run[0]), run[1..], t))
  }

  ghost predicate WaitsBehind(s: State, t: Tid, k: nat) {
    exists i :: 0 <= i <= k && i < |s.sem.waiters| && s.sem.waiters[i] == t
  }

  lemma {:induction false} WithoutMovesUp(w: seq<Tid>, u: Tid, i: nat)
    requires i < |w| && w[i] != u
    ensures || (i < |Without(w, u)| && Without(w, u)[i] == w[i])
            || (0 < i <= |Without(w, u)| && Without(w, u)[i - 1] == w[i])
  {
    if w[0] != u && i > 0 {
      WithoutMovesUp(w[1..], u, i - 1);
    }
  }

  /** One step: either the request was served, or it is still behind as many as before, less the permits given back. */
  lemma StepMovesUp(s: State, l: Label, t: Tid, k: nat)
    requires QueueOk(s) && Enabled(s, l) && l != TimeOut(t) && l != Abort(t) && WaitsBehind(s, t, k)
    ensures var s' := Next(s, l);
            || t in s'.hist.served
            || (s'.hist.releases == s.hist.releases && WaitsBehind(s', t, k))
            || (s'.hist.releases == s.hist.releases + 1 && k > 0 && WaitsBehind(s', t, k - 1))
  {
    var i :| 0 <= i <= k && i < |s.sem.waiters| && s.sem.waiters[i] == t;
    var w, w' := s.sem.waiters, Next(s, l).sem.waiters;
    assert t in w && s.tasks[t].Queued?;
    if Next(s, l).hist.releases != s.hist.releases {
      assert w' == w[1..];
      assert i > 0 ==> w'[i - 1] == t;
    } else if (l.TimeOut? || l.Abort?) && s.tasks[l.t].Queued? {
      WithoutMovesUp(w, l.t, i);
    } else {
      assert w <= w' && w'[i] == t;
    }
  }

  lemma {:induction false} ServedStays(s: State, run: seq<Label>)
    requires Legal(s, run)
    ensures s.hist.served <= Run(s, run).hist.served && s.hist.releases <= Run(s, run).hist.releases
    decreases |run|
  {
    if run != [] {
      ServedStays(Next(s, run[0]), run[1..]);
    }
  }

  lemma {:induction false} WaitIsBounded(s: State, run: seq<Label>, t: Tid, k: nat)
    requires QueueOk(s) && Legal(s, run) && Stays(s, run, t) && WaitsBehind(s, t, k)
    ensures t in Run(s, run).hist.served || Run(s, run).hist.releases <= s.hist.releases + k
    decreases |run|
  {
    if run != [] {
      var s' := Next(s, run[0]);
      StepMovesUp(s, run[0], t, k);
      StepKeepsQueue(s, run[0]);
      if t in s'.hist.served {
        ServedStays(s', run[1..]);
      } else if s'.hist.releases == s.hist.releases {
        WaitIsBounded(s', run[1..], t, k);
      } else {
        WaitIsBounded(s', run[1..], t, k - 1);
      }
    }
  }

  /** A request with `k` others ahead of it is served within k + 1 returned permits, unless it times out or is
      dropped. */
  lemma ServedWithinReleases(config: Config, past: seq<Label>, run: seq<Label>, t: Tid, k: nat)
    requires Legal(Start(config), past)
    requires var s := Run(Start(config), past);
             && k < |s.sem.waiters| && s.sem.waiters[k] == t
             && Legal(s, run) && Stays(s, run, t)
             && Run(s, run).hist.releases >= s.hist.releases + k + 1
    ensures t in Run(Run(Start(config), past), run).hist.served
  {
    StartIsLawful(config);
    RunKeepsLawful(Start(config), past);
    WaitIsBounded(Run(Start(config), past), run, t, k);
  }
}
