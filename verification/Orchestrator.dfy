/**
 One request's way through the proxy as code that updates shared state in
 place. Run without interruption, it takes exactly the pipeline steps that its
 answers call for, and leaves counters, permits and tunnel flags as they do.
 */
module Orchestrator {
  import opened Status
  import opened Counting
  import opened Pipeline
  import opened PipelineLaws

  /** What the scheduler makes of the first forward. */
  datatype Scheduled = Full | TimedOut | Ran(reply: Reply)

  /** Everything one request asks for: whether its backend is cold, both decisions, and the forward. */
  datatype Answers = Answers(cold: bool, first: Decision, scheduled: Scheduled, second: Decision)

  // The steps the answers call for.

  function RetrySteps(t: Tid, second: Decision): seq<Label> {
    [CountWake(t)] + ([RetryDecide(t, second)] + if second.Ready? then [RetryReply(t)] else [])
  }

  function ForwardSteps(t: Tid, scheduled: Scheduled, second: Decision): seq<Label> {
    match scheduled
    case Full => [Refuse(t, true)]
    case TimedOut => [Refuse(t, false)]
    case Ran(reply) =>
      [BeginForward(t)] + ([ForwardReply(t, reply)] + if reply.Unreachable? then RetrySteps(t, second) else [])
  }

  function ReadySteps(t: Tid, kind: Request, status: BackendStatus, answers: Answers): seq<Label> {
    [CheckReady(t)] +
    if kind.Embeddings? && status.embeddings.Degraded? then []
    else ForwardSteps(t, answers.scheduled, answers.second)
  }

  function DecisionSteps(t: Tid, kind: Request, answers: Answers): seq<Label> {
    [Decide(t, answers.first)] +
    match answers.first
    case Ready(status) => ReadySteps(t, kind, status, answers)
    case Warming(_) => [CountWake(t)]
    case Failed(_, _) => []
  }

  function ExecuteSteps(t: Tid, kind: Request, answers: Answers, coldFree: nat): seq<Label> {
    [AcquireCold(t, answers.cold)] +
    if answers.cold && coldFree == 0 then [] else DecisionSteps(t, kind, answers)
  }

  // What the answers come to: the response, and the counters it costs.

  datatype Outcome = Outcome(fate: Fate, charges: Counters)

  function ForwardOutcome(scheduled: Scheduled): Outcome {
    match scheduled
    case Full => Outcome(QueueFull, multiset{QueueFullRejections})
    case TimedOut => Outcome(QueueTimeout, multiset{QueueTimeouts})
    case Ran(Success) => Outcome(Warm, multiset{WarmRequests})
    case Ran(EmbeddingsUnsupported) => Outcome(Fate.Degraded, multiset{EmbeddingsDegraded})
    case Ran(OtherError) => Outcome(ForwardingError, multiset{ForwardingErrors})
    case Ran(Unreachable) => Outcome(ColdStart, multiset{ColdStarts, WakeAttempts})
  }

  function ReadyOutcome(kind: Request, status: BackendStatus, scheduled: Scheduled, wasReady: bool): Outcome {
    var dropped := if wasReady && !status.tunnel.Ready? then multiset{TunnelDrops} else multiset{};
    if kind.Embeddings? && status.embeddings.Degraded? then Outcome(DegradedRefused, dropped)
    else Outcome(ForwardOutcome(scheduled).fate, dropped + ForwardOutcome(scheduled).charges)
  }

  function DecisionOutcome(kind: Request, answers: Answers, wasReady: bool): Outcome {
    match answers.first
    case Ready(status) => ReadyOutcome(kind, status, answers.scheduled, wasReady)
    case Warming(_) => Outcome(ColdStart, multiset{ColdStarts, WakeAttempts})
    case Failed(_, _) => Outcome(WakeFailure, multiset{WakeFailures})
  }

  function RequestOutcome(kind: Request, answers: Answers, coldFree: nat, wasReady: bool): Outcome {
    if answers.cold && coldFree == 0 then Outcome(ColdQueueRefused, multiset{})
    else DecisionOutcome(kind, answers, wasReady)
  }

  lemma BothCounts(c: Counters)
    ensures c + multiset{ColdStarts} + multiset{WakeAttempts} == c + multiset{ColdStarts, WakeAttempts}
  {
  }

  lemma BothCharges(c: Counters, first: Counters, rest: Counters)
    ensures c + first + rest == c + (first + rest)
  {
  }

  lemma Regroup(before: seq<Label>, first: seq<Label>, rest: seq<Label>)
    ensures before + first + rest == before + (first + rest)
  {
  }

  /** Every counter of the proxy, each with its increment. */
  class Metrics {
    var counts: Counters

    constructor ()
      ensures counts == multiset{}
    {
      counts := multiset{};
    }

    method Inc(counter: Counter)
      modifies this
      ensures counts == old(counts) + multiset{counter}
    {
      counts := counts[counter := counts[counter] + 1];
    }
  }

  class Orchestrator {
    const metrics: Metrics
    const coldMax: nat
    var coldFree: nat
    var chatWasReady: bool
    var embeddingsWasReady: bool
    /** Every step so far, and the pipeline state they lead to. */
    ghost var trace: seq<Label>
    ghost var model: State

    ghost predicate Reached()
      reads this`trace, this`model
    {
      Legal(Start(coldMax), trace) && Run(Start(coldMax), trace) == model
    }

    /** The fields show a state that a run of the pipeline reaches.  `owed`: permits whose requests are answered, on
        their way back. */
    ghost predicate Shows(owed: nat)
      reads this, metrics
    {
      && Reached()
      && model.counters == metrics.counts && model.coldFree == coldFree + owed
      && model.chatWasReady == chatWasReady && model.embeddingsWasReady == embeddingsWasReady
    }

    ghost predicate At(t: Tid, kind: Request, permit: bool)
      reads this`model
    {
      t in model.jobs && model.jobs[t].kind == kind && model.jobs[t].permit == permit
    }

    ghost predicate Answered(t: Tid, fate: Fate)
      reads this`model
    {
      t in model.jobs && model.jobs[t].pc == Done(fate)
    }

    function WasReady(kind: Request): bool
      reads this`chatWasReady, this`embeddingsWasReady
    {
      if kind.Chat? then chatWasReady else embeddingsWasReady
    }

    /** Every counter is the number of requests it stands for, the counters account for every request received, and
        free and held cold-start permits make the limit. */
    ghost predicate Accounts()
      reads this, metrics
    {
      && (forall c: Counter :: c != TunnelDrops ==> metrics.counts[c] == CountOf(model.jobs, c))
      && PipelineLaws.Received(metrics.counts)
         == Charged(metrics.counts) + Count(model.jobs, Untold) + Count(model.jobs, Pending)
      && coldFree + Count(model.jobs, HoldsPermit) == coldMax
    }

    lemma ShownAccounts()
      requires Shows(0)
      ensures Accounts()
    {
      ReachableIsKept(coldMax, trace);
    }

    constructor (coldMax: nat)
      ensures this.coldMax == coldMax && Shows(0) && Accounts() && trace == [] && fresh(metrics)
    {
      this.coldMax := coldMax;
      metrics := new Metrics();
      trace := [];
      coldFree, chatWasReady, embeddingsWasReady := coldMax, false, false;
      model := Start(coldMax);
      new;
      ShownAccounts();
    }

    /** Notes a step that the fields have taken. */
    ghost method Note(l: Label)
      requires Reached() && Enabled(model, l)
      modifies this`trace, this`model
      ensures Reached() && trace == old(trace) + [l] && model == Next(old(model), l)
    {
      RunThen(Start(coldMax), trace, l);
      trace, model := trace + [l], Next(model, l);
    }

    /** Counts the request before anything else. */
    method Receives(t: Tid, kind: Request)
      requires Shows(0) && t !in model.jobs
      modifies this`trace, this`model, metrics
      ensures Shows(0) && At(t, kind, false) && model.jobs[t].pc == Pc.Received
      ensures trace == old(trace) + [Receive(t, kind)]
      ensures metrics.counts == old(metrics.counts) + multiset{if kind.Chat? then ChatRequests else EmbeddingsRequests}
    {
      metrics.Inc(if kind.Chat? then ChatRequests else EmbeddingsRequests);
      Note(Receive(t, kind));
    }

    method Validates(t: Tid, kind: Request, valid: bool)
      requires Shows(0) && At(t, kind, false) && model.jobs[t].pc == Pc.Received
      modifies this`trace, this`model
      ensures Shows(0) && At(t, kind, false) && model.jobs[t].pc == if valid then Admitting else Done(Rejected)
      ensures trace == old(trace) + [Validate(t, valid)]
    {
      Note(Validate(t, valid));
    }

    method ReceivesAndValidates(t: Tid, kind: Request, valid: bool)
      requires Shows(0) && t !in model.jobs
      modifies this`trace, this`model, metrics
      ensures Shows(0) && trace == old(trace) + [Receive(t, kind), Validate(t, valid)]
      ensures At(t, kind, false) && model.jobs[t].pc == if valid then Admitting else Done(Rejected)
      ensures metrics.counts == old(metrics.counts) + multiset{if kind.Chat? then ChatRequests else EmbeddingsRequests}
    {
      Receives(t, kind);
      Validates(t, kind, valid);
    }

    method Handle(t: Tid, kind: Request, valid: bool)
      requires Shows(0) && t !in model.jobs
      modifies this`trace, this`model, metrics
      ensures Shows(0) && trace == old(trace) + [Receive(t, kind), Validate(t, valid)]
      ensures At(t, kind, false) && model.jobs[t].pc == if valid then Admitting else Done(Rejected)
      ensures metrics.counts == old(metrics.counts) + multiset{if kind.Chat? then ChatRequests else EmbeddingsRequests}
      ensures Accounts()
    {
      ReceivesAndValidates(t, kind, valid);
      ShownAccounts();
    }

    /** A cold-start permit for a cold backend, if one is free. */
    method AcquireColdPermit(t: Tid, kind: Request, cold: bool) returns (admitted: bool, permit: bool)
      requires Shows(0) && At(t, kind, false) && model.jobs[t].pc.Admitting?
      modifies this
      ensures Shows(0) && trace == old(trace) + [AcquireCold(t, cold)]
      ensures chatWasReady == old(chatWasReady) && embeddingsWasReady == old(embeddingsWasReady)
      ensures admitted == (!cold || old(coldFree) > 0) && permit == (cold && admitted)
      ensures coldFree == old(coldFree) - if permit then 1 else 0
      ensures At(t, kind, permit) && model.jobs[t].pc == if admitted then Ensuring else Done(ColdQueueRefused)
    {
      if !cold {
        admitted, permit := true, false;
      } else if coldFree > 0 {
        coldFree := coldFree - 1;
        admitted, permit := true, true;
      } else {
        admitted, permit := false, false;
      }
      Note(AcquireCold(t, cold));
    }

    /** Swaps the flag of `kind`: true exactly when the tunnel was ready and is not any more. */
    method CheckTunnelDrop(kind: Request, tunnel: TunnelState) returns (dropped: bool)
      modifies this`chatWasReady, this`embeddingsWasReady
      ensures dropped == ((if kind.Chat? then old(chatWasReady) else old(embeddingsWasReady)) && !tunnel.Ready?)
      ensures chatWasReady == if kind.Chat? then tunnel.Ready? else old(chatWasReady)
      ensures embeddingsWasReady == if kind.Chat? then old(embeddingsWasReady) else tunnel.Ready?
    {
      var was;
      if kind.Chat? {
        was, chatWasReady := chatWasReady, tunnel.Ready?;
      } else {
        was, embeddingsWasReady := embeddingsWasReady, tunnel.Ready?;
      }
      dropped := was && !tunnel.Ready?;
    }

    /** The second of the two counts of a cold start. */
    method CountWakeAttempt(t: Tid, kind: Request, ghost permit: bool, ghost retry: bool)
      requires Shows(0) && At(t, kind, permit) && model.jobs[t].pc == ColdCounted(retry)
      modifies this`trace, this`model, metrics
      ensures trace == old(trace) + [CountWake(t)] && metrics.counts == old(metrics.counts) + multiset{WakeAttempts}
      ensures if retry then Shows(0) && At(t, kind, permit) && model.jobs[t].pc == Retrying
              else Shows(if permit then 1 else 0) && Answered(t, ColdStart)
    {
      metrics.Inc(WakeAttempts);
      Note(CountWake(t));
    }

    /** What the second decision leads to. */
    method RetryDecided(t: Tid, kind: Request, ghost permit: bool, second: Decision)
      requires Shows(0) && At(t, kind, permit) && model.jobs[t].pc == Retrying
      modifies this`trace, this`model
      ensures Shows(if permit then 1 else 0) && Answered(t, ColdStart)
      ensures trace == old(trace) + RetrySteps(t, second)[1..]
    {
      Note(RetryDecide(t, second));
      if second.Ready? {
        Note(RetryReply(t));
      }
    }

    /** The upstream was not there: a second decision, and a forward past the scheduler if it is Ready. */
    method Retry(t: Tid, kind: Request, ghost permit: bool, second: Decision)
      requires Shows(0) && At(t, kind, permit) && model.jobs[t].pc == ColdCounted(true)
      modifies this`trace, this`model, metrics
      ensures Shows(if permit then 1 else 0) && trace == old(trace) + RetrySteps(t, second)
      ensures Answered(t, ColdStart) && metrics.counts == old(metrics.counts) + multiset{WakeAttempts}
    {
      CountWakeAttempt(t, kind, permit, true);
      RetryDecided(t, kind, permit, second);
    }

    /** Counts what the reply stands for. */
    method CountReply(reply: Reply) returns (fate: Fate)
      modifies metrics
      ensures reply.Unreachable? ==> metrics.counts == old(metrics.counts) + multiset{ColdStarts}
      ensures !reply.Unreachable? ==>
                && fate == ForwardOutcome(Ran(reply)).fate
                && metrics.counts == old(metrics.counts) + ForwardOutcome(Ran(reply)).charges
    {
      match reply {
        case Success =>
          metrics.Inc(WarmRequests);
          fate := Warm;
        case EmbeddingsUnsupported =>
          metrics.Inc(EmbeddingsDegraded);
          fate := Fate.Degraded;
        case Unreachable =>
          metrics.Inc(ColdStarts);
          fate := ColdStart;
        case OtherError =>
          metrics.Inc(ForwardingErrors);
          fate := ForwardingError;
      }
    }

    method ForwardOnce(t: Tid, kind: Request, ghost permit: bool, reply: Reply) returns (fate: Fate)
      requires Shows(0) && At(t, kind, permit) && model.jobs[t].pc.Forwarding?
      requires reply.EmbeddingsUnsupported? ==> kind.Embeddings?
      modifies this`trace, this`model, metrics
      ensures trace == old(trace) + [ForwardReply(t, reply)]
      ensures reply.Unreachable? ==> metrics.counts == old(metrics.counts) + multiset{ColdStarts}
      ensures !reply.Unreachable? ==>
                && fate == ForwardOutcome(Ran(reply)).fate
                && metrics.counts == old(metrics.counts) + ForwardOutcome(Ran(reply)).charges
      ensures if reply.Unreachable? then Shows(0) && At(t, kind, permit) && model.jobs[t].pc == ColdCounted(true)
              else Shows(if permit then 1 else 0) && Answered(t, fate)
    {
      fate := CountReply(reply);
      Note(ForwardReply(t, reply));
    }

    method TurnAway(t: Tid, kind: Request, ghost permit: bool, full: bool) returns (fate: Fate)
      requires Shows(0) && At(t, kind, permit) && model.jobs[t].pc.Scheduling?
      modifies this`trace, this`model, metrics
      ensures Shows(if permit then 1 else 0) && Answered(t, fate) && trace == old(trace) + [Refuse(t, full)]
      ensures fate == ForwardOutcome(if full then Full else TimedOut).fate
      ensures metrics.counts == old(metrics.counts) + ForwardOutcome(if full then Full else TimedOut).charges
    {
      if full {
        metrics.Inc(QueueFullRejections);
        fate := QueueFull;
      } else {
        metrics.Inc(QueueTimeouts);
        fate := QueueTimeout;
      }
      Note(Refuse(t, full));
    }

    ghost method Begins(t: Tid, kind: Request, permit: bool)
      requires Shows(0) && At(t, kind, permit) && model.jobs[t].pc.Scheduling?
      modifies this`trace, this`model
      ensures Shows(0) && At(t, kind, permit) && model.jobs[t].pc.Forwarding? && trace == old(trace) + [BeginForward(t)]
    {
      Note(BeginForward(t));
    }

    /** The reply, and the retry if nobody was found. */
    method Forwarded(t: Tid, kind: Request, ghost permit: bool, reply: Reply, second: Decision) returns (fate: Fate)
      requires Shows(0) && At(t, kind, permit) && model.jobs[t].pc.Forwarding?
      requires reply.EmbeddingsUnsupported? ==> kind.Embeddings?
      modifies this`trace, this`model, metrics
      ensures Shows(if permit then 1 else 0) && Answered(t, fate) && fate == ForwardOutcome(Ran(reply)).fate
      ensures trace == old(trace) + ForwardSteps(t, Ran(reply), second)[1..]
      ensures metrics.counts == old(metrics.counts) + ForwardOutcome(Ran(reply)).charges
    {
      fate := ForwardOnce(t, kind, permit, reply);
      if reply.Unreachable? {
        Retry(t, kind, permit, second);
        fate := ColdStart;
        BothCounts(old(metrics.counts));
        Regroup(old(trace), [ForwardReply(t, reply)], RetrySteps(t, second));
      }
    }

    method ForwardViaScheduler(t: Tid, kind: Request, ghost permit: bool, scheduled: Scheduled, second: Decision)
      returns (fate: Fate)
      requires Shows(0) && At(t, kind, permit) && model.jobs[t].pc.Scheduling?
      requires scheduled.Ran? && scheduled.reply.EmbeddingsUnsupported? ==> kind.Embeddings?
      modifies this`trace, this`model, metrics
      ensures Shows(if permit then 1 else 0) && trace == old(trace) + ForwardSteps(t, scheduled, second)
      ensures Answered(t, fate) && fate == ForwardOutcome(scheduled).fate
      ensures metrics.counts == old(metrics.counts) + ForwardOutcome(scheduled).charges
    {
      match scheduled
      case Full =>
        fate := TurnAway(t, kind, permit, true);
      case TimedOut =>
        fate := TurnAway(t, kind, permit, false);
      case Ran(reply) =>
        Begins(t, kind, permit);
        fate := Forwarded(t, kind, permit, reply, second);
        Regroup(old(trace), [BeginForward(t)], ForwardSteps(t, scheduled, second)[1..]);
    }

    /** Compares the tunnel with how it was last seen, and counts a drop. */
    method SeeTunnel(t: Tid, kind: Request, ghost permit: bool, status: BackendStatus) returns (refused: bool)
      requires Shows(0) && At(t, kind, permit) && model.jobs[t].pc == GotReady(status)
      modifies this`trace, this`model, this`chatWasReady, this`embeddingsWasReady, metrics
      ensures trace == old(trace) + [CheckReady(t)]
      ensures metrics.counts == old(metrics.counts) +
              (if old(WasReady(kind)) && !status.tunnel.Ready? then multiset{TunnelDrops} else multiset{})
      ensures chatWasReady == if kind.Chat? then status.tunnel.Ready? else old(chatWasReady)
      ensures embeddingsWasReady == if kind.Chat? then old(embeddingsWasReady) else status.tunnel.Ready?
      ensures refused == (kind.Embeddings? && status.embeddings.Degraded?)
      ensures if refused then Shows(if permit then 1 else 0) && Answered(t, DegradedRefused)
              else Shows(0) && At(t, kind, permit) && model.jobs[t].pc.Scheduling?
    {
      var dropped := CheckTunnelDrop(kind, status.tunnel);
      if dropped {
        metrics.Inc(TunnelDrops);
      }
      Note(CheckReady(t));
      refused := kind.Embeddings? && status.embeddings.Degraded?;
    }

    method HandleReady(t: Tid, kind: Request, ghost permit: bool, status: BackendStatus, answers: Answers)
      returns (fate: Fate)
      requires Shows(0) && At(t, kind, permit) && model.jobs[t].pc == GotReady(status)
      requires answers.scheduled.Ran? && answers.scheduled.reply.EmbeddingsUnsupported? ==> kind.Embeddings?
      modifies this`trace, this`model, this`chatWasReady, this`embeddingsWasReady, metrics
      ensures Shows(if permit then 1 else 0) && trace == old(trace) + ReadySteps(t, kind, status, answers)
      ensures Answered(t, fate)
      ensures var end := ReadyOutcome(kind, status, answers.scheduled, old(WasReady(kind)));
              fate == end.fate && metrics.counts == old(metrics.counts) + end.charges
      ensures chatWasReady == if kind.Chat? then status.tunnel.Ready? else old(chatWasReady)
      ensures embeddingsWasReady == if kind.Chat? then old(embeddingsWasReady) else status.tunnel.Ready?
    {
      var refused := SeeTunnel(t, kind, permit, status);
      if refused {
        fate := DegradedRefused;
      } else {
        fate := ForwardViaScheduler(t, kind, permit, answers.scheduled, answers.second);
        Regroup(old(trace), [CheckReady(t)], ForwardSteps(t, answers.scheduled, answers.second));
      }
    }

    /** The flag of `kind` shows the tunnel of a Ready decision, the other flag what it showed. */
    predicate Flags(kind: Request, decision: Decision, chat: bool, embeddings: bool)
      reads this`chatWasReady, this`embeddingsWasReady
    {
      && chatWasReady == (if decision.Ready? && kind.Chat? then decision.status.tunnel.Ready? else chat)
      && embeddingsWasReady ==
         (if decision.Ready? && kind.Embeddings? then decision.status.tunnel.Ready? else embeddings)
    }

    /** Counts what the first decision stands for. */
    method Decided(t: Tid, kind: Request, ghost permit: bool, decision: Decision)
      requires Shows(0) && At(t, kind, permit) && model.jobs[t].pc.Ensuring?
      modifies this`trace, this`model, metrics
      ensures trace == old(trace) + [Decide(t, decision)]
      ensures metrics.counts == old(metrics.counts) +
              match decision
              case Ready(_) => multiset{}
              case Warming(_) => multiset{ColdStarts}
              case Failed(_, _) => multiset{WakeFailures}
      ensures match decision
              case Ready(status) => Shows(0) && At(t, kind, permit) && model.jobs[t].pc == GotReady(status)
              case Warming(_) => Shows(0) && At(t, kind, permit) && model.jobs[t].pc == ColdCounted(false)
              case Failed(_, _) => Shows(if permit then 1 else 0) && Answered(t, WakeFailure)
    {
      match decision {
        case Ready(_) =>
        case Warming(_) => metrics.Inc(ColdStarts);
        case Failed(_, _) => metrics.Inc(WakeFailures);
      }
      Note(Decide(t, decision));
    }

    method AnswerReady(t: Tid, kind: Request, ghost permit: bool, status: BackendStatus, answers: Answers)
      returns (fate: Fate)
      requires Shows(0) && At(t, kind, permit) && model.jobs[t].pc.Ensuring? && answers.first == Decision.Ready(status)
      requires answers.scheduled.Ran? && answers.scheduled.reply.EmbeddingsUnsupported? ==> kind.Embeddings?
      modifies this`trace, this`model, this`chatWasReady, this`embeddingsWasReady, metrics
      ensures Shows(if permit then 1 else 0) && Answered(t, fate)
      ensures trace == old(trace) + ([Decide(t, answers.first)] + ReadySteps(t, kind, status, answers))
      ensures var end := ReadyOutcome(kind, status, answers.scheduled, old(WasReady(kind)));
              fate == end.fate && metrics.counts == old(metrics.counts) + end.charges
      ensures Flags(kind, answers.first, old(chatWasReady), old(embeddingsWasReady))
    {
      Decided(t, kind, permit, answers.first);
      assert metrics.counts == old(metrics.counts);
      fate := HandleReady(t, kind, permit, status, answers);
      Regroup(old(trace), [Decide(t, answers.first)], ReadySteps(t, kind, status, answers));
    }

    method AnswerWarming(t: Tid, kind: Request, ghost permit: bool, decision: Decision)
      requires Shows(0) && At(t, kind, permit) && model.jobs[t].pc.Ensuring? && decision.Warming?
      modifies this`trace, this`model, metrics
      ensures Shows(if permit then 1 else 0) && Answered(t, ColdStart)
      ensures trace == old(trace) + ([Decide(t, decision)] + [CountWake(t)])
      ensures metrics.counts == old(metrics.counts) + multiset{ColdStarts, WakeAttempts}
    {
      Decided(t, kind, permit, decision);
      CountWakeAttempt(t, kind, permit, false);
      BothCounts(old(metrics.counts));
      Regroup(old(trace), [Decide(t, decision)], [CountWake(t)]);
    }

    method Answer(t: Tid, kind: Request, ghost permit: bool, answers: Answers) returns (fate: Fate)
      requires Shows(0) && At(t, kind, permit) && model.jobs[t].pc.Ensuring?
      requires answers.scheduled.Ran? && answers.scheduled.reply.EmbeddingsUnsupported? ==> kind.Embeddings?
      modifies this`trace, this`model, this`chatWasReady, this`embeddingsWasReady, metrics
      ensures Shows(if permit then 1 else 0) && trace == old(trace) + DecisionSteps(t, kind, answers)
      ensures Answered(t, fate)
      ensures var end := DecisionOutcome(kind, answers, old(WasReady(kind)));
              fate == end.fate && metrics.counts == old(metrics.counts) + end.charges
      ensures Flags(kind, answers.first, old(chatWasReady), old(embeddingsWasReady))
    {
      match answers.first
      case Ready(status) =>
        fate := AnswerReady(t, kind, permit, status, answers);
      case Warming(_) =>
        AnswerWarming(t, kind, permit, answers.first);
        fate := ColdStart;
      case Failed(_, _) =>
        Decided(t, kind, permit, answers.first);
        assert [Decide(t, answers.first)] + [] == [Decide(t, answers.first)];
        fate := WakeFailure;
    }

    /** From admission to the answer: the permit is back at the end. */
    method Serve(t: Tid, kind: Request, answers: Answers) returns (fate: Fate)
      requires Shows(0) && At(t, kind, false) && model.jobs[t].pc.Admitting?
      requires answers.scheduled.Ran? && answers.scheduled.reply.EmbeddingsUnsupported? ==> kind.Embeddings?
      modifies this, metrics
      ensures Shows(0) && trace == old(trace) + ExecuteSteps(t, kind, answers, old(coldFree))
      ensures Answered(t, fate) && coldFree == old(coldFree)
      ensures var end := RequestOutcome(kind, answers, old(coldFree), old(WasReady(kind)));
              fate == end.fate && metrics.counts == old(metrics.counts) + end.charges
      ensures fate != ColdQueueRefused ==> Flags(kind, answers.first, old(chatWasReady), old(embeddingsWasReady))
      ensures fate == ColdQueueRefused ==>
                chatWasReady == old(chatWasReady) && embeddingsWasReady == old(embeddingsWasReady)
    {
      var admitted, permit := AcquireColdPermit(t, kind, answers.cold);
      if !admitted {
        fate := ColdQueueRefused;
      } else {
        fate := Answer(t, kind, permit, answers);
        Regroup(old(trace), [AcquireCold(t, answers.cold)], DecisionSteps(t, kind, answers));
        if permit {
          coldFree := coldFree + 1;
        }
      }
    }

    /** The whole request: it takes the steps its answers call for, and leaves the accounts balanced. */
    method Execute(t: Tid, kind: Request, answers: Answers) returns (fate: Fate)
      requires Shows(0) && At(t, kind, false) && model.jobs[t].pc.Admitting?
      requires answers.scheduled.Ran? && answers.scheduled.reply.EmbeddingsUnsupported? ==> kind.Embeddings?
      modifies this, metrics
      ensures Shows(0) && trace == old(trace) + ExecuteSteps(t, kind, answers, old(coldFree))
      ensures Accounts() && Answered(t, fate) && coldFree == old(coldFree)
      ensures var end := RequestOutcome(kind, answers, old(coldFree), old(WasReady(kind)));
              fate == end.fate && metrics.counts == old(metrics.counts) + end.charges
      ensures fate != ColdQueueRefused ==> Flags(kind, answers.first, old(chatWasReady), old(embeddingsWasReady))
      ensures fate == ColdQueueRefused ==>
                chatWasReady == old(chatWasReady) && embeddingsWasReady == old(embeddingsWasReady)
    {
      fate := Serve(t, kind, answers);
      ShownAccounts();
    }
  }
}
