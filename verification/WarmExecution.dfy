/**
 The scheduler as an object: `execute` cut where other requests can come in
 between.  Each method is what one stretch of a request's future, or its drop,
 does to the semaphore, the queue counter and the guards, and adds exactly those
 steps to the run that the object shows.
 */
module WarmExecution {
  import opened Outcomes
  import opened Counting
  import opened Scheduler
  import opened SchedulerLaws
  import Guards = Cancellation

  /** What becomes of a request that found no free permit. */
  datatype Entry = Begun(guard: Guards.CancelOnDrop) | Waiting(ticket: Guards.QueueTicket) | Full

  class WarmExecutionScheduler {
    const config: Config
    const queue: Guards.QueueState
    var available: nat
    var waiters: seq<Tid>
    /** Every step so far, and the scheduler state they lead to. */
    ghost var trace: seq<Label>
    ghost var model: State

    /** The fields show a state that a run of the scheduler reaches. */
    ghost predicate Shows()
      reads this, queue
    {
      && Legal(Start(config), trace) && Run(Start(config), trace) == model
      && QueueOk(model) && Conserved(model)
      && model.config == config && model.sem == Semaphore(available, waiters) && model.queued == queue.queued
    }

    /** Free permits and held ones make the limit; the queue counter is the number of tickets, within its limit. */
    ghost predicate Conserves()
      reads this, queue
    {
      && available + Count(model.tasks, HasPermit) == config.maxActive
      && queue.queued == Count(model.tasks, HasTicket) <= config.maxQueued
    }

    ghost predicate At(t: Tid, pc: Pc)
      reads this
    {
      t in model.tasks && model.tasks[t] == pc
    }

    /** `ticket` is a slot in this queue that has not been given back. */
    ghost predicate Holds(ticket: Guards.QueueTicket)
      reads ticket
    {
      ticket.queue == queue && ticket.active
    }

    constructor (config: Config)
      ensures this.config == config && Shows() && Conserves() && trace == [] && fresh(queue)
    {
      this.config := config;
      queue := new Guards.QueueState();
      available, waiters := config.maxActive, [];
      trace, model := [], Start(config);
      StartIsLawful(config);
      new;
    }

    /** Notes a step that the fields have taken. */
    ghost method Note(l: Label)
      requires Legal(Start(config), trace) && Run(Start(config), trace) == model
      requires QueueOk(model) && Conserved(model) && Enabled(model, l)
      modifies this`trace, this`model
      ensures Legal(Start(config), trace) && Run(Start(config), trace) == model
      ensures QueueOk(model) && Conserved(model) && model.config == old(model).config
      ensures trace == old(trace) + [l] && model == Next(old(model), l)
    {
      StepKeepsQueue(model, l);
      StepConserves(model, l);
      StepKeepsConfig(model, l);
      RunThen(Start(config), trace, l);
      trace, model := trace + [l], Next(model, l);
    }

    /** Drops a permit: the oldest waiter gets it, or it is free. */
    method GiveBack()
      modifies this`available, this`waiters
      ensures Semaphore(available, waiters) == old(Semaphore(available, waiters)).Return()
    {
      if waiters == [] {
        available := available + 1;
      } else {
        waiters := waiters[1..];
      }
    }

    /** Drops an acquire: a waiter leaves the queue, a permit given meanwhile goes back. */
    method DropAcquire(t: Tid)
      modifies this`available, this`waiters
      ensures Semaphore(available, waiters) ==
              if t in old(waiters) then old(Semaphore(available, waiters)).Forget(t)
              else old(Semaphore(available, waiters)).Return()
    {
      if t in waiters {
        waiters := Without(waiters, t);
      } else {
        GiveBack();
      }
    }

    /** The permit of a request that is done with its operation goes back. */
    method ReleasePermit(t: Tid)
      requires Shows() && (At(t, Finished) || At(t, Releasing))
      modifies this
      ensures Shows() && At(t, Done(if old(model).tasks[t].Finished? then Completed else Aborted))
      ensures trace == old(trace) + [Release(t)]
    {
      GiveBack();
      Note(Release(t));
    }

    /** The slot in the queue goes back. */
    method ReleaseTicket(t: Tid, ticket: Guards.QueueTicket)
      requires Shows() && Holds(ticket) && t in model.tasks && (model.tasks[t].Admitted? || model.tasks[t].Leaving?)
      modifies this`trace, this`model, queue, ticket
      ensures Shows() && !ticket.active && trace == old(trace) + [DropTicket(t)]
      ensures At(t, if old(model).tasks[t].Admitted? then Holding else Done(old(model).tasks[t].outcome))
    {
      ticket.Drop();
      Note(DropTicket(t));
    }

    method StartOperation(t: Tid) returns (guard: Guards.CancelOnDrop)
      requires Shows() && At(t, Holding)
      modifies this`trace, this`model
      ensures Shows() && At(t, Running) && trace == old(trace) + [Begin(t)]
      ensures fresh(guard) && fresh(guard.cancellation) && guard.armed && !guard.cancellation.cancelled
    {
      var cancellation := new Guards.RequestCancellation();
      guard := new Guards.CancelOnDrop(cancellation);
      Note(Begin(t));
    }

    /** A new request: its operation begins if a permit is free. */
    method TryFirst(t: Tid) returns (guard: Option<Guards.CancelOnDrop>)
      requires Shows() && t !in model.tasks
      modifies this
      ensures Shows() && Conserves() && (guard.Some? <==> old(available) > 0)
      ensures guard.Some? ==>
                && At(t, Running) && trace == old(trace) + [Arrive(t), TryAcquire(t), Begin(t)]
                && fresh(guard.value) && guard.value.armed && !guard.value.cancellation.cancelled
      ensures guard.None? ==> At(t, Refused) && trace == old(trace) + [Arrive(t), TryAcquire(t)]
    {
      Note(Arrive(t));
      if available > 0 {
        available := available - 1;
        Note(TryAcquire(t));
        var started := StartOperation(t);
        return Some(started);
      }
      Note(TryAcquire(t));
      guard := None;
    }

    /** The acquire that a ticket pays for: a permit freed since is taken at once, otherwise the request waits last. */
    method Acquiring(t: Tid, ticket: Guards.QueueTicket) returns (guard: Option<Guards.CancelOnDrop>)
      requires Shows() && Holds(ticket) && At(t, Reserved)
      modifies this, queue, ticket
      ensures Shows() && (guard.Some? <==> old(available) > 0)
      ensures guard.Some? ==>
                && At(t, Running) && !ticket.active && trace == old(trace) + [Acquire(t), DropTicket(t), Begin(t)]
                && fresh(guard.value) && guard.value.armed && !guard.value.cancellation.cancelled
      ensures guard.None? ==>
                && At(t, Queued) && Holds(ticket) && trace == old(trace) + [Acquire(t)]
                && waiters == old(waiters) + [t]
    {
      if available > 0 {
        available := available - 1;
        Note(Acquire(t));
        ReleaseTicket(t, ticket);
        var started := StartOperation(t);
        return Some(started);
      }
      waiters := waiters + [t];
      Note(Acquire(t));
      guard := None;
    }

    /** A slot in the queue, if it has one left. */
    method TakeTicket(t: Tid) returns (ticket: Option<Guards.QueueTicket>)
      requires Shows() && At(t, Refused)
      modifies this`trace, this`model, queue
      ensures Shows() && (ticket.None? <==> old(queue.queued) >= config.maxQueued)
      ensures trace == old(trace) + [Reserve(t)] && At(t, if ticket.None? then Done(QueueFull) else Reserved)
      ensures ticket.Some? ==> fresh(ticket.value) && Holds(ticket.value)
    {
      ticket := Guards.QueueTicket.Reserve(queue, config.maxQueued);
      Note(Reserve(t));
    }

    /** A request that found no free permit: turned away by a full queue, else up to its await. */
    method Enter(t: Tid) returns (entry: Entry)
      requires Shows() && At(t, Refused)
      modifies this, queue
      ensures Shows() && Conserves()
      ensures entry.Full? <==> old(queue.queued) >= config.maxQueued
      ensures match entry
              case Full => trace == old(trace) + [Reserve(t)] && At(t, Done(QueueFull))
              case Begun(guard) =>
                && old(available) > 0 && At(t, Running)
                && trace == old(trace) + [Reserve(t), Acquire(t), DropTicket(t), Begin(t)]
                && fresh(guard) && guard.armed && !guard.cancellation.cancelled
              case Waiting(ticket) =>
                && old(available) == 0 && At(t, Queued) && waiters == old(waiters) + [t]
                && trace == old(trace) + [Reserve(t), Acquire(t)]
                && fresh(ticket) && Holds(ticket)
    {
      var ticket := TakeTicket(t);
      if ticket.None? {
        return Full;
      }
      var guard := Acquiring(t, ticket.value);
      entry := if guard.Some? then Begun(guard.value) else Waiting(ticket.value);
    }

    /** The acquire returned a permit: the slot in the queue is given back and the operation begins. */
    method Resumed(t: Tid, ticket: Guards.QueueTicket) returns (guard: Guards.CancelOnDrop)
      requires Shows() && Holds(ticket) && At(t, Granted)
      modifies this, queue, ticket
      ensures Shows() && Conserves() && At(t, Running)
      ensures trace == old(trace) + [Resume(t), DropTicket(t), Begin(t)]
      ensures !ticket.active && fresh(guard) && guard.armed && !guard.cancellation.cancelled
    {
      Note(Resume(t));
      ReleaseTicket(t, ticket);
      guard := StartOperation(t);
    }

    /** The queue timeout fired first, for a waiter or for one that was given a permit and had not resumed. */
    method TimedOut(t: Tid, ticket: Guards.QueueTicket)
      requires Shows() && Holds(ticket) && (At(t, Queued) || At(t, Granted))
      modifies this, queue, ticket
      ensures Shows() && Conserves() && At(t, Done(QueueTimeout)) && !ticket.active
      ensures trace == old(trace) + [TimeOut(t), DropTicket(t)]
    {
      DropAcquire(t);
      Note(TimeOut(t));
      ReleaseTicket(t, ticket);
    }

    /** The future is dropped while it waits: a permit it was given meanwhile goes back. */
    method DropWaiting(t: Tid, ticket: Guards.QueueTicket)
      requires Shows() && Holds(ticket) && (At(t, Queued) || At(t, Granted))
      modifies this, queue, ticket
      ensures Shows() && Conserves() && At(t, Done(Aborted)) && !ticket.active
      ensures trace == old(trace) + [Abort(t), DropTicket(t)]
    {
      DropAcquire(t);
      Note(Abort(t));
      ReleaseTicket(t, ticket);
    }

    /** The operation completed: the guard is disarmed before it is dropped, then the permit goes back. */
    method Complete(t: Tid, guard: Guards.CancelOnDrop)
      requires Shows() && At(t, Running)
      modifies this, guard, guard.cancellation
      ensures Shows() && Conserves() && At(t, Done(Completed))
      ensures trace == old(trace) + [Label.Complete(t), Release(t)]
      ensures guard.cancellation.cancelled == old(guard.cancellation.cancelled)
    {
      guard.Disarm();
      guard.Drop();
      Note(Label.Complete(t));
      ReleasePermit(t);
    }

    /** The operation's future is dropped first, then the guard, which raises the token. */
    method DropOperation(t: Tid, guard: Guards.CancelOnDrop)
      requires Shows() && guard.armed && At(t, Running)
      modifies this`trace, this`model, guard.cancellation
      ensures Shows() && At(t, Releasing) && guard.cancellation.cancelled
      ensures trace == old(trace) + [Abort(t), RaiseToken(t)]
    {
      Note(Abort(t));
      guard.Drop();
      Note(RaiseToken(t));
    }

    /** The future is dropped while the operation runs: the token is raised, then the permit goes back. */
    method DropRunning(t: Tid, guard: Guards.CancelOnDrop)
      requires Shows() && guard.armed && At(t, Running)
      modifies this, guard.cancellation
      ensures Shows() && Conserves() && At(t, Done(Aborted)) && guard.cancellation.cancelled
      ensures trace == old(trace) + [Abort(t), RaiseToken(t), Release(t)]
    {
      DropOperation(t, guard);
      ReleasePermit(t);
    }
  }
}
