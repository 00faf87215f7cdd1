/** What every run of the request pipeline keeps: the accounts, the cold-start permits, and who is tried twice. */
module PipelineLaws {
  import opened Status
  import opened Counting
  import opened Pipeline

  /** Which requests a counter stands for. */
  predicate Counts(c: Counter, job: Job) {
    match c
    case ColdStarts =>
      || job.pc.ColdCounted? || job.pc.Retrying? || job.pc.RetryForwarding?
      || Ended(job, ColdStart) || Ended(job, Aborted(true))
    case WakeAttempts =>
      job.pc.Retrying? || job.pc.RetryForwarding? || Ended(job, ColdStart) || Ended(job, Aborted(true))
    case WarmRequests => Ended(job, Warm)
    case QueueFullRejections => Ended(job, QueueFull)
    case QueueTimeouts => Ended(job, QueueTimeout)
    case WakeFailures => Ended(job, WakeFailure)
    case EmbeddingsDegraded => Ended(job, Fate.Degraded)
    case ForwardingErrors => Ended(job, ForwardingError)
    case ChatRequests => job.kind.Chat?
    case EmbeddingsRequests => job.kind.Embeddings?
    case TunnelDrops => false
  }

  predicate Ended(job: Job, fate: Fate) { job.pc == Done(fate) }

  /** Answered without any counter, besides the one for its kind. */
  predicate Untold(job: Job) {
    Ended(job, Rejected) || Ended(job, ColdQueueRefused) || Ended(job, DegradedRefused) || Ended(job, Aborted(false))
  }

  /** Received and not yet counted as anything. */
  predicate Pending(job: Job) {
    || job.pc.Received? || job.pc.Admitting? || job.pc.Ensuring? || job.pc.GotReady?
    || job.pc.Scheduling? || job.pc.Forwarding?
  }

  predicate BetweenCounts(job: Job) { job.pc.ColdCounted? }

  predicate HoldsPermit(job: Job) { job.permit }

  function Received(c: Counters): nat { c[ChatRequests] + c[EmbeddingsRequests] }

  function Charged(c: Counters): nat {
    c[WarmRequests] + c[EmbeddingsDegraded] + c[ForwardingErrors] + c[QueueFullRejections] + c[QueueTimeouts]
    + c[WakeFailures] + c[ColdStarts]
  }

  function One(b: bool): int { if b then 1 else 0 }

  /** The request `l` speaks of, as a step finds it and leaves it. */
  predicate Was(s: State, t: Tid, p: Job -> bool) {
    t in s.jobs && p(s.jobs[t])
  }

  // Every counter.

  /** A move increments the counters that come to stand for its request, and those only. */
  predicate Tallies(job: Job, move: Move, c: Counter) {
    move.charges[c] == One(Counts(c, move.job)) - One(Counts(c, job))
  }

  lemma DecisionTallies(job: Job, decision: Decision, c: Counter)
    requires job.pc.Ensuring? && c != TunnelDrops
    ensures Tallies(job, OnDecision(job, decision), c)
  {
  }

  lemma ReplyTallies(job: Job, reply: Reply, c: Counter)
    requires job.pc.Forwarding? && c != TunnelDrops
    ensures Tallies(job, OnReply(job, reply), c)
  {
  }

  lemma ReadyTallies(job: Job, wasReady: bool, c: Counter)
    requires job.pc.GotReady? && c != TunnelDrops
    ensures Tallies(job, ToReady(job, wasReady), c)
  {
  }

  lemma LateTallies(job: Job, l: Label, c: Counter)
    requires Fits(job, l) && (l.CountWake? || l.RetryDecide? || l.RetryReply? || l.Abort?) && c != TunnelDrops
    ensures Tallies(job, Moves(job, l, false, false), c)
  {
  }

  lemma MoveTallies(job: Job, l: Label, coldFree: bool, wasReady: bool, c: Counter)
    requires Fits(job, l) && c != TunnelDrops
    ensures Tallies(job, Moves(job, l, coldFree, wasReady), c)
  {
    match l
    case Decide(_, decision) => DecisionTallies(job, decision, c);
    case ForwardReply(_, reply) => ReplyTallies(job, reply, c);
    case CheckReady(_) => ReadyTallies(job, wasReady, c);
    case CountWake(_) => LateTallies(job, l, c);
    case RetryDecide(_, _) => LateTallies(job, l, c);
    case RetryReply(_) => LateTallies(job, l, c);
    case Abort(_) => LateTallies(job, l, c);
    case _ =>
  }

  ghost function CountOf(jobs: map<Tid, Job>, c: Counter): nat { Count(jobs, job => Counts(c, job)) }

  ghost predicate Exact(s: State) {
    forall c: Counter :: c != TunnelDrops ==> s.counters[c] == CountOf(s.jobs, c)
  }

  lemma StepIsAMove(s: State, l: Label)
    requires Enabled(s, l) && !l.Receive?
    ensures var Move(after, charges) := MoveOf(s, l);
            Next(s, l).jobs == s.jobs[l.t := after] && Next(s, l).counters == s.counters + charges
  {
  }

  lemma StepIsAReceive(s: State, l: Label)
    requires Enabled(s, l) && l.Receive?
    ensures Next(s, l).jobs == s.jobs[l.t := Job(l.kind, false, Pc.Received, [])]
    ensures Next(s, l).counters == s.counters + multiset{if l.kind.Chat? then ChatRequests else EmbeddingsRequests}
  {
  }

  lemma MoveCounts(jobs: map<Tid, Job>, t: Tid, move: Move, c: Counter)
    requires t in jobs && Tallies(jobs[t], move, c)
    ensures CountOf(jobs[t := move.job], c) == CountOf(jobs, c) + move.charges[c]
  {
    CountAfter(jobs, t, move.job, job => Counts(c, job));
  }

  lemma ReceiveCounts(jobs: map<Tid, Job>, t: Tid, kind: Request, c: Counter)
    requires t !in jobs
    ensures CountOf(jobs[t := Job(kind, false, Pc.Received, [])], c) ==
            CountOf(jobs, c) + multiset{if kind.Chat? then ChatRequests else EmbeddingsRequests}[c]
  {
    CountAfter(jobs, t, Job(kind, false, Pc.Received, []), job => Counts(c, job));
  }

  lemma StepTallies(s: State, l: Label, c: Counter)
    requires Enabled(s, l) && s.counters[c] == CountOf(s.jobs, c) && c != TunnelDrops
    ensures Next(s, l).counters[c] == CountOf(Next(s, l).jobs, c)
  {
    if l.Receive? {
      StepIsAReceive(s, l);
      ReceiveCounts(s.jobs, l.t, l.kind, c);
    } else {
      StepIsAMove(s, l);
      MoveTallies(s.jobs[l.t], l, s.coldFree > 0, s.WasReady(s.jobs[l.t].kind), c);
      MoveCounts(s.jobs, l.t, MoveOf(s, l), c);
    }
  }

  lemma StepStaysExact(s: State, l: Label)
    requires Exact(s) && Enabled(s, l)
    ensures Exact(Next(s, l))
  {
    forall c: Counter | c != TunnelDrops
      ensures Next(s, l).counters[c] == CountOf(Next(s, l).jobs, c)
    {
      StepTallies(s, l, c);
    }
  }

  // Conservation.

  /** Pending, untold, or charged to exactly one counter. */
  lemma OneClassEach(job: Job)
    ensures One(Pending(job)) + One(Untold(job)) + One(Counts(WarmRequests, job)) + One(Counts(EmbeddingsDegraded, job))
            + One(Counts(ForwardingErrors, job)) + One(Counts(QueueFullRejections, job))
            + One(Counts(QueueTimeouts, job))
            + One(Counts(WakeFailures, job)) + One(Counts(ColdStarts, job)) == 1
  {
    if job.pc.Done? && job.pc.fate.Aborted? {
      assert job.pc.fate == Aborted(true) || job.pc.fate == Aborted(false);
    }
  }

  lemma TalliesCharge(job: Job, move: Move)
    requires move.job.kind == job.kind && forall c: Counter :: c != TunnelDrops ==> Tallies(job, move, c)
    ensures Received(move.charges) == 0
    ensures Charged(move.charges) == One(Pending(job)) - One(Pending(move.job))
                                     + One(Untold(job)) - One(Untold(move.job))
  {
    OneClassEach(job);
    OneClassEach(move.job);
    assert Tallies(job, move, WarmRequests) && Tallies(job, move, EmbeddingsDegraded)
           && Tallies(job, move, ForwardingErrors);
    assert Tallies(job, move, QueueFullRejections) && Tallies(job, move, QueueTimeouts)
           && Tallies(job, move, WakeFailures);
    assert Tallies(job, move, ColdStarts) && Tallies(job, move, ChatRequests) && Tallies(job, move, EmbeddingsRequests);
  }

  lemma MoveIsTallied(job: Job, l: Label, coldFree: bool, wasReady: bool)
    requires Fits(job, l)
    ensures var move := Moves(job, l, coldFree, wasReady);
            move.job.kind == job.kind && forall c: Counter :: c != TunnelDrops ==> Tallies(job, move, c)
  {
    forall c: Counter | c != TunnelDrops
      ensures Tallies(job, Moves(job, l, coldFree, wasReady), c)
    {
      MoveTallies(job, l, coldFree, wasReady, c);
    }
  }

  lemma ChargesAdd(c: Counters, d: Counters)
    ensures Received(c + d) == Received(c) + Received(d) && Charged(c + d) == Charged(c) + Charged(d)
  {
  }

  ghost predicate ChargesAccount(s: State, l: Label)
    requires Enabled(s, l)
  {
    var s' := Next(s, l);
    Received(s'.counters) - Charged(s'.counters) == Received(s.counters) - Charged(s.counters)
                                                   + One(Was(s', l.t, Pending)) - One(Was(s, l.t, Pending))
                                                   + One(Was(s', l.t, Untold)) - One(Was(s, l.t, Untold))
  }

  lemma ReceiveCharges(s: State, l: Label)
    requires Enabled(s, l) && l.Receive?
    ensures ChargesAccount(s, l)
  {
    ChargesAdd(s.counters, multiset{if l.kind.Chat? then ChatRequests else EmbeddingsRequests});
  }

  lemma MoveCharges(s: State, l: Label)
    requires Enabled(s, l) && !l.Receive?
    ensures ChargesAccount(s, l)
  {
    var job, move := s.jobs[l.t], MoveOf(s, l);
    MoveIsTallied(job, l, s.coldFree > 0, s.WasReady(job.kind));
    TalliesCharge(job, move);
    ChargesAdd(s.counters, move.charges);
    StepIsAMove(s, l);
  }

  ghost predicate Balanced(s: State) {
    Received(s.counters) == Charged(s.counters) + Count(s.jobs, Untold) + Count(s.jobs, Pending)
  }

  lemma StepStaysBalanced(s: State, l: Label)
    requires Balanced(s) && Enabled(s, l)
    ensures Balanced(Next(s, l))
  {
    if l.Receive? { ReceiveCharges(s, l); } else { MoveCharges(s, l); }
    CountAfter(s.jobs, l.t, Next(s, l).jobs[l.t], Pending);
    CountAfter(s.jobs, l.t, Next(s, l).jobs[l.t], Untold);
  }

  // Cold-start permits.

  ghost predicate PermitsOk(s: State, coldMax: nat) {
    s.coldFree + Count(s.jobs, HoldsPermit) == coldMax
  }

  /** Permits are held from admission to the response. */
  predicate PermitInTime(job: Job) {
    job.pc.Received? || job.pc.Admitting? || job.pc.Done? ==> !job.permit
  }

  ghost predicate PermitsInTime(s: State) {
    forall t :: t in s.jobs ==> PermitInTime(s.jobs[t])
  }

  lemma MoveKeepsPermitInTime(job: Job, l: Label, coldFree: bool, wasReady: bool)
    requires Fits(job, l) && PermitInTime(job)
    ensures var after := Moves(job, l, coldFree, wasReady).job;
            PermitInTime(after) && (after.permit && !job.permit ==> coldFree)
  {
  }

  lemma StepKeepsPermits(s: State, l: Label, coldMax: nat)
    requires PermitsOk(s, coldMax) && PermitsInTime(s) && Enabled(s, l)
    ensures PermitsOk(Next(s, l), coldMax) && PermitsInTime(Next(s, l))
  {
    CountAfter(s.jobs, l.t, Next(s, l).jobs[l.t], HoldsPermit);
    if !l.Receive? { MoveKeepsPermitInTime(s.jobs[l.t], l, s.coldFree > 0, s.WasReady(s.jobs[l.t].kind)); }
  }

  // What each response says about decisions and replies.

  /** The first decision was Ready and did not refuse this kind. */
  predicate Cleared(kind: Request, trail: seq<Event>) {
    && |trail| > 0 && trail[0].Decided? && trail[0].decision.Ready?
    && !(kind.Embeddings? && trail[0].decision.status.embeddings.Degraded?)
  }

  predicate Called(kind: Request, trail: seq<Event>) {
    |trail| >= 2 && Cleared(kind, trail) && trail[1].CalledUpstream?
  }

  predicate Heard(kind: Request, trail: seq<Event>, reply: Reply) {
    |trail| >= 3 && Called(kind, trail) && trail[2] == Replied(reply)
  }

  /** Nobody was found, a fresh decision was Ready, and upstream was called again. */
  predicate CalledAgain(kind: Request, trail: seq<Event>) {
    && |trail| == 5 && Heard(kind, trail, Unreachable)
    && trail[3].Decided? && trail[3].decision.Ready? && trail[4].CalledUpstream?
  }

  /** What can have happened to a request at this point. */
  predicate TrailFits(job: Job) {
    match job.pc
    case Received => job.trail == []
    case Admitting => job.trail == []
    case Ensuring => job.trail == []
    case GotReady(status) => job.trail == [Decided(Decision.Ready(status))]
    case Scheduling => |job.trail| == 1 && Cleared(job.kind, job.trail)
    case Forwarding => |job.trail| == 2 && Called(job.kind, job.trail)
    case ColdCounted(retry) =>
      if retry then |job.trail| == 3 && Heard(job.kind, job.trail, Unreachable)
      else |job.trail| == 1 && job.trail[0].Decided? && job.trail[0].decision.Warming?
    case Retrying => |job.trail| == 3 && Heard(job.kind, job.trail, Unreachable)
    case RetryForwarding => CalledAgain(job.kind, job.trail)
    case Done(fate) => FateFits(job.kind, fate, job.trail)
  }

  /** What led to each response. */
  predicate FateFits(kind: Request, fate: Fate, trail: seq<Event>) {
    match fate
    case Rejected => trail == []
    case ColdQueueRefused => trail == []
    case WakeFailure => |trail| == 1 && trail[0].Decided? && trail[0].decision.Failed?
    case DegradedRefused =>
      && |trail| == 1 && trail[0].Decided? && trail[0].decision.Ready?
      && kind.Embeddings? && trail[0].decision.status.embeddings.Degraded?
    case QueueFull => |trail| == 2 && Cleared(kind, trail) && trail[1] == TurnedAway(true)
    case QueueTimeout => |trail| == 2 && Cleared(kind, trail) && trail[1] == TurnedAway(false)
    case Warm => |trail| == 3 && Heard(kind, trail, Success)
    case Degraded => |trail| == 3 && Heard(kind, trail, EmbeddingsUnsupported)
    case ForwardingError => |trail| == 3 && Heard(kind, trail, OtherError)
    case ColdStart =>
      || (|trail| == 1 && trail[0].Decided? && trail[0].decision.Warming?)
      || (|trail| == 4 && Heard(kind, trail, Unreachable) && trail[3].Decided? && !trail[3].decision.Ready?)
      || CalledAgain(kind, trail)
    case Aborted(charged) =>
      if charged then (|trail| == 3 && Heard(kind, trail, Unreachable)) || CalledAgain(kind, trail)
      else trail == [] || (|trail| == 1 && Cleared(kind, trail)) || (|trail| == 2 && Called(kind, trail))
  }

  ghost predicate Trailed(s: State) {
    forall t :: t in s.jobs ==> TrailFits(s.jobs[t])
  }

  lemma ReplyKeepsTrail(job: Job, reply: Reply)
    requires job.pc.Forwarding? && TrailFits(job)
    ensures TrailFits(OnReply(job, reply).job)
  {
  }

  lemma DecisionKeepsTrail(job: Job, decision: Decision)
    requires job.pc.Ensuring? && TrailFits(job)
    ensures TrailFits(OnDecision(job, decision).job)
  {
  }

  lemma ReadyKeepsTrail(job: Job, wasReady: bool)
    requires job.pc.GotReady? && TrailFits(job)
    ensures TrailFits(ToReady(job, wasReady).job)
  {
  }

  lemma RetryKeepsTrail(job: Job, decision: Decision)
    requires job.pc.Retrying? && TrailFits(job)
    ensures TrailFits(Moves(job, RetryDecide(0, decision), false, false).job)
  {
  }

  lemma AbortKeepsTrail(job: Job)
    requires Fits(job, Abort(0)) && TrailFits(job)
    ensures TrailFits(Moves(job, Abort(0), false, false).job)
  {
  }

  lemma MoveKeepsTrail(job: Job, l: Label, coldFree: bool, wasReady: bool)
    requires Fits(job, l) && TrailFits(job)
    ensures TrailFits(Moves(job, l, coldFree, wasReady).job)
  {
    match l
    case Decide(_, decision) => DecisionKeepsTrail(job, decision);
    case CheckReady(_) => ReadyKeepsTrail(job, wasReady);
    case ForwardReply(_, reply) => ReplyKeepsTrail(job, reply);
    case RetryDecide(_, decision) => RetryKeepsTrail(job, decision);
    case Abort(_) => AbortKeepsTrail(job);
    case _ =>
  }

  lemma StepStaysTrailed(s: State, l: Label)
    requires Trailed(s) && Enabled(s, l)
    ensures Trailed(Next(s, l))
  {
    if !l.Receive? { MoveKeepsTrail(s.jobs[l.t], l, s.coldFree > 0, s.WasReady(s.jobs[l.t].kind)); }
  }

  // Runs.

  lemma {:induction false} RunThen(s: State, run: seq<Label>, l: Label)
    requires Legal(s, run) && Enabled(Run(s, run), l)
    ensures Legal(s, run + [l]) && Run(s, run + [l]) == Next(Run(s, run), l)
    decreases |run|
  {
    if run == [] {
      assert [] + [l] == [l] && [l][1..] == [];
      assert Legal(Next(s, l), []);
    } else {
      RunThen(Next(s, run[0]), run[1..], l);
      assert (run + [l])[1..] == run[1..] + [l];
    }
  }

  ghost predicate Kept(s: State, coldMax: nat) {
    Exact(s) && Balanced(s) && PermitsOk(s, coldMax) && PermitsInTime(s) && Trailed(s)
  }

  lemma {:induction false} RunKeeps(s: State, run: seq<Label>, coldMax: nat)
    requires Kept(s, coldMax) && Legal(s, run)
    ensures Kept(Run(s, run), coldMax)
    decreases |run|
  {
    if run != [] {
      StepStaysExact(s, run[0]);
      StepStaysBalanced(s, run[0]);
      StepKeepsPermits(s, run[0], coldMax);
      StepStaysTrailed(s, run[0]);
      RunKeeps(Next(s, run[0]), run[1..], coldMax);
    }
  }

  lemma NobodyCounts(p: Job -> bool)
    ensures Count(map[], p) == 0
  {
    assert Those(map[], p) == {};
  }

  lemma ReachableIsKept(coldMax: nat, run: seq<Label>)
    requires Legal(Start(coldMax), run)
    ensures Kept(Run(Start(coldMax), run), coldMax)
  {
    NobodyCounts(Pending);
    NobodyCounts(Untold);
    NobodyCounts(HoldsPermit);
    forall c: Counter ensures CountOf(Start(coldMax).jobs, c) == 0 {
      NobodyCounts(job => Counts(c, job));
    }
    RunKeeps(Start(coldMax), run, coldMax);
  }

  lemma NoneIfNobody(jobs: map<Tid, Job>, p: Job -> bool)
    ensures Count(jobs, p) == 0 <==> forall t :: t in jobs ==> !p(jobs[t])
  {
    if t :| t in jobs && p(jobs[t]) {
      assert t in Those(jobs, p);
    } else {
      assert Those(jobs, p) == {};
    }
  }

  /** Each counter is the number of requests it stands for. */
  lemma CountersAreExact(coldMax: nat, run: seq<Label>, c: Counter)
    requires Legal(Start(coldMax), run) && c != TunnelDrops
    ensures var s := Run(Start(coldMax), run); s.counters[c] == CountOf(s.jobs, c)
  {
    ReachableIsKept(coldMax, run);
  }

  /** Every request received is charged to exactly one counter, was answered untold, or is still pending; once all are
      answered only the untold ones are missing. */
  lemma MetricsConserve(coldMax: nat, run: seq<Label>)
    requires Legal(Start(coldMax), run)
    ensures var s := Run(Start(coldMax), run);
            && Received(s.counters) == Charged(s.counters) + Count(s.jobs, Untold) + Count(s.jobs, Pending)
            && (Received(s.counters) == Charged(s.counters) + Count(s.jobs, Untold) <==>
                forall t :: t in s.jobs ==> !Pending(s.jobs[t]))
  {
    ReachableIsKept(coldMax, run);
    NoneIfNobody(Run(Start(coldMax), run).jobs, Pending);
  }

  lemma BetweenIsTheGap(s: State)
    requires Exact(s)
    ensures s.counters[ColdStarts] == s.counters[WakeAttempts] + Count(s.jobs, BetweenCounts)
  {
    var all, rest := Those(s.jobs, job => Counts(ColdStarts, job)), Those(s.jobs, job => Counts(WakeAttempts, job));
    var gap := Those(s.jobs, BetweenCounts);
    assert all == rest + gap && rest !! gap;
  }

  /** Cold starts run ahead of wake attempts by the requests between the two increments, and by nothing else. */
  lemma ColdStartsAreWakeAttempts(coldMax: nat, run: seq<Label>)
    requires Legal(Start(coldMax), run)
    ensures var s := Run(Start(coldMax), run);
            && s.counters[ColdStarts] == s.counters[WakeAttempts] + Count(s.jobs, BetweenCounts)
            && (s.counters[ColdStarts] == s.counters[WakeAttempts]
                <==> forall t :: t in s.jobs ==> !s.jobs[t].pc.ColdCounted?)
  {
    ReachableIsKept(coldMax, run);
    var s := Run(Start(coldMax), run);
    BetweenIsTheGap(s);
    NoneIfNobody(s.jobs, BetweenCounts);
    assert forall t :: t in s.jobs ==> BetweenCounts(s.jobs[t]) == s.jobs[t].pc.ColdCounted?;
  }

  /** Cold-start permits are conserved, and all are free once every request has its response. */
  lemma ColdPermitsConserve(coldMax: nat, run: seq<Label>)
    requires Legal(Start(coldMax), run)
    ensures var s := Run(Start(coldMax), run);
            && s.coldFree + Count(s.jobs, HoldsPermit) == coldMax
            && ((forall t :: t in s.jobs ==> s.jobs[t].pc.Done?) ==> s.coldFree == coldMax)
  {
    ReachableIsKept(coldMax, run);
    var s := Run(Start(coldMax), run);
    NoneIfNobody(s.jobs, HoldsPermit);
    assert forall t :: t in s.jobs ==> PermitInTime(s.jobs[t]);
  }

  lemma ReachableFits(coldMax: nat, run: seq<Label>, t: Tid)
    requires Legal(Start(coldMax), run) && t in Run(Start(coldMax), run).jobs
    ensures TrailFits(Run(Start(coldMax), run).jobs[t])
  {
    ReachableIsKept(coldMax, run);
  }

  lemma CallsAreApart(job: Job)
    requires TrailFits(job)
    ensures forall i :: 0 <= i < |job.trail| && job.trail[i].CalledUpstream? ==>
                          i == 1 || (i == 4 && CalledAgain(job.kind, job.trail))
  {
  }

  /** A request calls upstream at most twice: after its first decision, and again only after the first call found nobody
      and a fresh decision was Ready. */
  lemma AtMostTwoAttempts(coldMax: nat, run: seq<Label>, t: Tid)
    requires Legal(Start(coldMax), run) && t in Run(Start(coldMax), run).jobs
    ensures var job := Run(Start(coldMax), run).jobs[t];
            forall i :: 0 <= i < |job.trail| && job.trail[i].CalledUpstream? ==>
                          i == 1 || (i == 4 && CalledAgain(job.kind, job.trail))
  {
    ReachableFits(coldMax, run, t);
    CallsAreApart(Run(Start(coldMax), run).jobs[t]);
  }

  /** A response given is what the reply, the scheduler or the decision calls for. */
  predicate Answers(job: Job) {
    job.pc.Done? && !job.pc.fate.Aborted? && job.trail != [] ==>
      var fate := job.pc.fate;
      if |job.trail| >= 3 && job.trail[2].Replied? then
        match job.trail[2].reply
        case Success => fate == Warm
        case EmbeddingsUnsupported => fate == Fate.Degraded
        case OtherError => fate == ForwardingError
        case Unreachable => fate == ColdStart
      else if |job.trail| >= 2 && job.trail[1].TurnedAway? then
        fate == if job.trail[1].full then QueueFull else QueueTimeout
      else
        job.trail[0].Decided? &&
        match job.trail[0].decision
        case Ready(status) => fate == DegradedRefused && job.kind.Embeddings? && status.embeddings.Degraded?
        case Warming(_) => fate == ColdStart
        case Failed(_, _) => fate == WakeFailure
  }

  lemma FittingAnswers(job: Job)
    requires TrailFits(job)
    ensures Answers(job)
  {
  }

  /** Over every run, every response is the one that the request's replies and decisions call for; with the counters
      exact, each counts what upstream, scheduler and lifecycle did. */
  lemma ResponsesFollowReplies(coldMax: nat, run: seq<Label>, t: Tid)
    requires Legal(Start(coldMax), run) && t in Run(Start(coldMax), run).jobs
    ensures Answers(Run(Start(coldMax), run).jobs[t])
  {
    ReachableFits(coldMax, run, t);
    FittingAnswers(Run(Start(coldMax), run).jobs[t]);
  }

  // Tunnel drops.

  /** The lifecycle answers Ready only with a status that is ready. */
  predicate ReadyIsReady(l: Label) {
    l.Decide? && l.decision.Ready? ==> l.decision.status.tunnel.Ready?
  }

  ghost predicate DropFree(s: State) {
    s.counters[TunnelDrops] == 0
    && forall t :: t in s.jobs && s.jobs[t].pc.GotReady? ==> s.jobs[t].pc.status.tunnel.Ready?
  }

  lemma MoveDropsNothing(job: Job, l: Label, coldFree: bool, wasReady: bool)
    requires Fits(job, l) && ReadyIsReady(l) && (job.pc.GotReady? ==> job.pc.status.tunnel.Ready?)
    ensures var Move(after, charges) := Moves(job, l, coldFree, wasReady);
            charges[TunnelDrops] == 0 && (after.pc.GotReady? ==> after.pc.status.tunnel.Ready?)
  {
  }

  lemma StepStaysDropFree(s: State, l: Label)
    requires DropFree(s) && Enabled(s, l) && ReadyIsReady(l)
    ensures DropFree(Next(s, l))
  {
    if !l.Receive? { MoveDropsNothing(s.jobs[l.t], l, s.coldFree > 0, s.WasReady(s.jobs[l.t].kind)); }
  }

  /** With a lifecycle that answers Ready only with a ready status, no tunnel drop is ever counted. */
  lemma {:induction false} TunnelDropsStayZero(s: State, run: seq<Label>)
    requires DropFree(s) && Legal(s, run) && forall i :: 0 <= i < |run| ==> ReadyIsReady(run[i])
    ensures Run(s, run).counters[TunnelDrops] == 0
    decreases |run|
  {
    if run != [] {
      StepStaysDropFree(s, run[0]);
      TunnelDropsStayZero(Next(s, run[0]), run[1..]);
    }
  }
}
