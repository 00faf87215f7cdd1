/**
 The request pipeline as a labelled transition system: admission, the lifecycle
 decision, the scheduler, one retry, and the counters each path charges.
 Lifecycle, scheduler and upstream answer as they like.
 */
module Pipeline {
  import opened Status

  type Tid = nat

  datatype Counter =
    | ColdStarts | WarmRequests | QueueFullRejections | QueueTimeouts | WakeAttempts | WakeFailures
    | TunnelDrops | EmbeddingsDegraded | ForwardingErrors | ChatRequests | EmbeddingsRequests

  /** How often each counter was incremented. */
  type Counters = multiset<Counter>

  /** How the first forward through the scheduler ends. */
  datatype Reply = Success | EmbeddingsUnsupported | Unreachable | OtherError

  /** The responses, by what they are counted as; the first three are counted nowhere. */
  datatype Fate =
    | Rejected | ColdQueueRefused | DegradedRefused
    | Warm | Degraded | ForwardingError | QueueFull | QueueTimeout | WakeFailure | ColdStart
    | Aborted(charged: bool)

  datatype Pc =
    | Received
    | Admitting
    | Ensuring
    | GotReady(status: BackendStatus)
    | Scheduling
    | Forwarding
    | ColdCounted(retry: bool)     // cold start counted, wake attempt not yet
    | Retrying
    | RetryForwarding
    | Done(fate: Fate)

  /** What was decided and replied about a request so far. */
  datatype Event = Decided(decision: Decision) | TurnedAway(full: bool) | CalledUpstream | Replied(reply: Reply)

  /** `permit`: holds a cold-start permit. */
  datatype Job = Job(kind: Request, permit: bool, pc: Pc, trail: seq<Event>)
  {
    function To(pc: Pc): Job { this.(pc := pc) }

    function Saw(events: seq<Event>): Job { this.(trail := trail + events) }

    /** The response is sent: the cold-start permit goes back. */
    function Respond(fate: Fate): Job { this.(pc := Done(fate), permit := false) }
  }

  datatype State = State(counters: Counters, coldFree: nat, chatWasReady: bool, embeddingsWasReady: bool,
                         jobs: map<Tid, Job>)
  {
    function WasReady(kind: Request): bool { if kind.Chat? then chatWasReady else embeddingsWasReady }

    function SetReady(kind: Request, ready: bool): State {
      if kind.Chat? then this.(chatWasReady := ready) else this.(embeddingsWasReady := ready)
    }
  }

  datatype Label =
    | Receive(t: Tid, kind: Request)
    | Validate(t: Tid, valid: bool)
    | AcquireCold(t: Tid, cold: bool)
    | Decide(t: Tid, decision: Decision)
    | CheckReady(t: Tid)
    | Refuse(t: Tid, full: bool)
    | BeginForward(t: Tid)
    | ForwardReply(t: Tid, reply: Reply)
    | CountWake(t: Tid)
    | RetryDecide(t: Tid, decision: Decision)
    | RetryReply(t: Tid)
    | Abort(t: Tid)

  predicate Fits(job: Job, l: Label) {
    match l
    case Receive(_, _) => false
    case Validate(_, _) => job.pc.Received?
    case AcquireCold(_, _) => job.pc.Admitting?
    case Decide(_, _) => job.pc.Ensuring?
    case CheckReady(_) => job.pc.GotReady?
    case Refuse(_, _) => job.pc.Scheduling?
    case BeginForward(_) => job.pc.Scheduling?
    case ForwardReply(_, reply) => job.pc.Forwarding? && (reply.EmbeddingsUnsupported? ==> job.kind.Embeddings?)
    case CountWake(_) => job.pc.ColdCounted?
    case RetryDecide(_, _) => job.pc.Retrying?
    case RetryReply(_) => job.pc.RetryForwarding?
    case Abort(_) =>
      job.pc.Ensuring? || job.pc.Scheduling? || job.pc.Forwarding? || job.pc.Retrying? || job.pc.RetryForwarding?
  }

  predicate Enabled(s: State, l: Label) {
    if l.Receive? then l.t !in s.jobs else l.t in s.jobs && Fits(s.jobs[l.t], l)
  }

  /** What a step does to its request, and which counters it increments. */
  datatype Move = Move(job: Job, charges: Counters)

  function ToReady(job: Job, wasReady: bool): Move
    requires job.pc.GotReady?
  {
    var status := job.pc.status;
    var charges := if wasReady && !status.tunnel.Ready? then multiset{TunnelDrops} else multiset{};
    if job.kind.Embeddings? && status.embeddings.Degraded? then Move(job.Respond(DegradedRefused), charges)
    else Move(job.To(Scheduling), charges)
  }

  function OnReply(job: Job, reply: Reply): Move {
    var heard := job.Saw([Replied(reply)]);
    match reply
    case Success => Move(heard.Respond(Warm), multiset{WarmRequests})
    case EmbeddingsUnsupported => Move(heard.Respond(Fate.Degraded), multiset{EmbeddingsDegraded})
    case Unreachable => Move(heard.To(ColdCounted(true)), multiset{ColdStarts})
    case OtherError => Move(heard.Respond(ForwardingError), multiset{ForwardingErrors})
  }

  function OnDecision(job: Job, decision: Decision): Move {
    var told := job.Saw([Decided(decision)]);
    match decision
    case Ready(status) => Move(told.To(GotReady(status)), multiset{})
    case Warming(_) => Move(told.To(ColdCounted(false)), multiset{ColdStarts})
    case Failed(_, _) => Move(told.Respond(WakeFailure), multiset{WakeFailures})
  }

  function Moves(job: Job, l: Label, coldFree: bool, wasReady: bool): Move
    requires Fits(job, l)
  {
    match l
    case Validate(_, valid) => Move(if valid then job.To(Admitting) else job.Respond(Rejected), multiset{})
    case AcquireCold(_, cold) =>
      Move(if !cold then job.To(Ensuring)
           else if coldFree then job.To(Ensuring).(permit := true)
           else job.Respond(ColdQueueRefused), multiset{})
    case Decide(_, decision) => OnDecision(job, decision)
    case CheckReady(_) => ToReady(job, wasReady)
    case Refuse(_, full) =>
      var away := job.Saw([TurnedAway(full)]);
      if full then Move(away.Respond(QueueFull), multiset{QueueFullRejections})
      else Move(away.Respond(QueueTimeout), multiset{QueueTimeouts})
    case BeginForward(_) => Move(job.To(Forwarding).Saw([CalledUpstream]), multiset{})
    case ForwardReply(_, reply) => OnReply(job, reply)
    case CountWake(_) => Move(if job.pc.retry then job.To(Retrying) else job.Respond(ColdStart), multiset{WakeAttempts})
    case RetryDecide(_, decision) =>
      var told := job.Saw([Decided(decision)]);
      Move(if decision.Ready? then told.To(RetryForwarding).Saw([CalledUpstream]) else told.Respond(ColdStart),
           multiset{})
    case RetryReply(_) => Move(job.Respond(ColdStart), multiset{})
    case Abort(_) => Move(job.Respond(Aborted(job.pc.Retrying? || job.pc.RetryForwarding?)), multiset{})
  }

  function MoveOf(s: State, l: Label): Move
    requires Enabled(s, l) && !l.Receive?
  {
    Moves(s.jobs[l.t], l, s.coldFree > 0, s.WasReady(s.jobs[l.t].kind))
  }

  function Next(s: State, l: Label): State
    requires Enabled(s, l)
  {
    if l.Receive? then
      s.(jobs := s.jobs[l.t := Job(l.kind, false, Received, [])],
      counters := s.counters + multiset{if l.kind.Chat? then ChatRequests else EmbeddingsRequests})
    else
      var job := s.jobs[l.t];
      var Move(after, charges) := MoveOf(s, l);
      var flagged := if l.CheckReady? then s.SetReady(job.kind, job.pc.status.tunnel.Ready?) else s;
      flagged.(jobs := s.jobs[l.t := after], counters := s.counters + charges,
      coldFree := if after.permit && !job.permit then if s.coldFree > 0 then s.coldFree - 1 else 0
                  else if job.permit && !after.permit then s.coldFree + 1 else s.coldFree)
  }

  predicate Legal(s: State, run: seq<Label>)
    decreases |run|
  {
    run == [] || (Enabled(s, run[0]) && Legal(Next(s, run[0]), run[1..]))
  }

  function Run(s: State, run: seq<Label>): State
    requires Legal(s, run)
    decreases |run|
  {
    if run == [] then s else Run(Next(s, run[0]), run[1..])
  }

  function Start(coldMax: nat): State { State(multiset{}, coldMax, false, false, map[]) }
}
