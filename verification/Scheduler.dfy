/**
 The warm execution scheduler as a labelled transition system: a semaphore with
 FIFO waiters, a bounded queue counter with tickets, timeouts, and requests
 dropped at any await.
 */
module Scheduler {

  type Tid = nat

  datatype Config = Config(maxActive: nat, maxQueued: nat)

  /** The semaphore: free permits, and the waiters not yet given one, oldest first. */
  datatype Semaphore = Semaphore(available: nat, waiters: seq<Tid>)
  {
    function Take(): Semaphore
      requires available > 0
    {
      this.(available := available - 1)
    }

    function Enqueue(t: Tid): Semaphore { this.(waiters := waiters + [t]) }

    /** A returned permit goes to the oldest waiter, and is free only when there is none. */
    function Return(): Semaphore {
      if waiters == [] then this.(available := available + 1) else this.(waiters := waiters[1..])
    }

    function Forget(t: Tid): Semaphore { this.(waiters := Without(waiters, t)) }
  }

  function Without(s: seq<Tid>, t: Tid): seq<Tid> {
    if s == [] then [] else if s[0] == t then s[1..] else [s[0]] + Without(s[1..], t)
  }

  function SaturatingDec(n: nat): nat { if n == 0 then 0 else n - 1 }

  datatype Outcome = Completed | QueueFull | QueueTimeout | Aborted

  datatype Pc =
    | Arrived               // before the first poll
    | Refused               // no permit was free
    | Reserved              // holds a ticket, has not asked the semaphore yet
    | Queued                // waits in the semaphore
    | Granted               // was given a permit, has not resumed
    | Admitted              // resumed with its permit, ticket still held
    | Holding               // holds a permit and no ticket
    | Running               // the operation is in progress
    | Finished              // the operation completed, the guard is disarmed
    | Cancelling            // dropped while running, the guard is about to fire
    | Releasing             // the guard has fired
    | Leaving(outcome: Outcome)  // without a permit, ticket still held
    | Done(outcome: Outcome)

  predicate HasPermit(pc: Pc) {
    pc.Granted? || pc.Admitted? || pc.Holding? || pc.Running? || pc.Finished? || pc.Cancelling? || pc.Releasing?
  }

  predicate HasTicket(pc: Pc) {
    pc.Reserved? || pc.Queued? || pc.Granted? || pc.Admitted? || pc.Leaving?
  }

  /** `dropped`: futures dropped while their operation ran; `tokens`: cancellations raised; `arrival`: order of
      queueing; `served`: given a permit from the queue; `releases`: permits given back; `begun`: operations begun. */
  datatype History = History(dropped: set<Tid>, tokens: set<Tid>, arrival: map<Tid, nat>, next: nat,
                             served: set<Tid>, releases: nat, begun: map<Tid, nat>)

  datatype State = State(config: Config, sem: Semaphore, queued: nat, tasks: map<Tid, Pc>, hist: History)
  {
    function With(t: Tid, pc: Pc): State { this.(tasks := tasks[t := pc]) }

    /** Gives a permit back. */
    function Return(): State {
      var s := this.(sem := sem.Return(), hist := hist.(releases := hist.releases + 1));
      if sem.waiters == [] then s
      else s.With(sem.waiters[0], Granted).(hist := s.hist.(served := s.hist.served + {sem.waiters[0]}))
    }
  }

  datatype Label =
    | Arrive(t: Tid)
    | TryAcquire(t: Tid)
    | Reserve(t: Tid)
    | Acquire(t: Tid)
    | Resume(t: Tid)
    | DropTicket(t: Tid)
    | Begin(t: Tid)
    | Complete(t: Tid)
    | RaiseToken(t: Tid)
    | Release(t: Tid)
    | TimeOut(t: Tid)
    | Abort(t: Tid)

  predicate Enabled(s: State, l: Label) {
    if l.Arrive? then l.t !in s.tasks
    else
      && l.t in s.tasks
      && var pc := s.tasks[l.t];
         match l
         case TryAcquire(_) => pc.Arrived?
         case Reserve(_) => pc.Refused?
         case Acquire(_) => pc.Reserved?
         case Resume(_) => pc.Granted?
         case DropTicket(_) => pc.Admitted? || pc.Leaving?
         case Begin(_) => pc.Holding?
         case Complete(_) => pc.Running?
         case RaiseToken(_) => pc.Cancelling?
         case Release(_) => pc.Finished? || pc.Releasing?
         case TimeOut(_) => pc.Queued? || pc.Granted?
         case Abort(_) => pc.Arrived? || pc.Queued? || pc.Granted? || pc.Running?
         case _ => false
  }

  /** Dropping the acquire future: a waiter leaves the queue, a permit already given goes back. */
  function LeaveQueue(s: State, t: Tid, outcome: Outcome): State
    requires t in s.tasks
  {
    if s.tasks[t].Granted? then s.With(t, Leaving(outcome)).Return()
    else s.With(t, Leaving(outcome)).(sem := s.sem.Forget(t))
  }

  function Next(s: State, l: Label): State
    requires Enabled(s, l)
  {
    match l
    case Arrive(t) => s.With(t, Arrived).(hist := s.hist.(begun := s.hist.begun[t := 0]))
    case TryAcquire(t) =>
      if s.sem.available > 0 then s.With(t, Holding).(sem := s.sem.Take()) else s.With(t, Refused)
    case Reserve(t) =>
      if s.queued >= s.config.maxQueued then s.With(t, Done(QueueFull))
      else s.With(t, Reserved).(queued := s.queued + 1)
    case Acquire(t) =>
      if s.sem.available > 0 then s.With(t, Admitted).(sem := s.sem.Take())
      else
        s.With(t, Queued).(sem := s.sem.Enqueue(t),
        hist := s.hist.(arrival := s.hist.arrival[t := s.hist.next], next := s.hist.next + 1))
    case Resume(t) => s.With(t, Admitted)
    case DropTicket(t) =>
      s.With(t, if s.tasks[t].Admitted? then Holding else Done(s.tasks[t].outcome)).(queued := SaturatingDec(s.queued))
    case Begin(t) =>
      var begun := if t in s.hist.begun then s.hist.begun[t] else 0;
      s.With(t, Running).(hist := s.hist.(begun := s.hist.begun[t := begun + 1]))
    case Complete(t) => s.With(t, Finished)
    case RaiseToken(t) => s.With(t, Releasing).(hist := s.hist.(tokens := s.hist.tokens + {t}))
    case Release(t) => s.With(t, Done(if s.tasks[t].Finished? then Completed else Aborted)).Return()
    case TimeOut(t) => LeaveQueue(s, t, QueueTimeout)
    case Abort(t) =>
      match s.tasks[t]
      case Arrived => s.With(t, Done(Aborted))
      case Running => s.With(t, Cancelling).(hist := s.hist.(dropped := s.hist.dropped + {t}))
      case _ => LeaveQueue(s, t, Aborted)
  }

  predicate Legal(s: State, run: seq<Label>)
    decreases |run|
  {
    run == [] || (Enabled(s, run[0]) && Legal(Next(s, run[0]), run[1..]))
  }

  function Run(s: State, run: seq<Label>): State
    requires Legal(s, run)
    decreases |run|
  {
    if run == [] then s else Run(Next(s, run[0]), run[1..])
  }

  function Start(config: Config): State {
    State(config, Semaphore(config.maxActive, []), 0, map[], History({}, {}, map[], 0, {}, 0, map[]))
  }
}
