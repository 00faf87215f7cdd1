/**
 The cancellation token under every interleaving of `cancel` with `cancelled`,
 and the guards that raise it and that give queue slots back.
 */
module Cancellation {
  import opened Outcomes

  type Tid = nat

  /** `notified` counts the calls of notify_waiters; a future created before such a call is woken by it. */
  datatype Token = Token(cancelled: bool, notified: nat)

  datatype Pc =
    | Cancel                // about to swap the flag
    | Notify                // swapped it first, about to notify
    | CancelDone(first: bool)
    | Listen                // about to create the notified future
    | Check(since: nat)     // created it, about to read the flag
    | Parked(since: nat)    // awaits it
    | ListenDone
    | Gone                  // dropped while listening

  datatype State = State(token: Token, tasks: map<Tid, Pc>)
  {
    function With(t: Tid, pc: Pc): State { this.(tasks := tasks[t := pc]) }
  }

  datatype Label = CallCancel(t: Tid) | CallCancelled(t: Tid) | Step(t: Tid) | Drop(t: Tid)

  predicate Blocked(s: State, t: Tid) {
    t in s.tasks && s.tasks[t].Parked? && s.tasks[t].since == s.token.notified
  }

  predicate Enabled(s: State, l: Label) {
    match l
    case CallCancel(t) => t !in s.tasks
    case CallCancelled(t) => t !in s.tasks
    case Drop(t) => t in s.tasks && (s.tasks[t].Listen? || s.tasks[t].Parked?)
    case Step(t) =>
      && t in s.tasks && !Blocked(s, t)
      && !s.tasks[t].CancelDone? && !s.tasks[t].ListenDone? && !s.tasks[t].Gone?
  }

  function Next(s: State, l: Label): State
    requires Enabled(s, l)
  {
    match l
    case CallCancel(t) => s.With(t, Cancel)
    case CallCancelled(t) => s.With(t, Listen)
    case Drop(t) => s.With(t, Gone)
    case Step(t) =>
      match s.tasks[t]
      case Cancel =>
        if s.token.cancelled then s.With(t, CancelDone(false))
        else s.With(t, Notify).(token := s.token.(cancelled := true))
      case Notify => s.With(t, CancelDone(true)).(token := s.token.(notified := s.token.notified + 1))
      case Listen => s.With(t, Check(s.token.notified))
      case Check(since) => if s.token.cancelled then s.With(t, ListenDone) else s.With(t, Parked(since))
      case _ => s.With(t, ListenDone)
  }

  predicate Legal(s: State, run: seq<Label>)
    decreases |run|
  {
    run == [] || (Enabled(s, run[0]) && Legal(Next(s, run[0]), run[1..]))
  }

  function Run(s: State, run: seq<Label>): State
    requires Legal(s, run)
    decreases |run|
  {
    if run == [] then s else Run(Next(s, run[0]), run[1..])
  }

  const START := State(Token(false, 0), map[])

  ghost predicate TokenOk(s: State) {
    && s.token.notified <= 1
    && (forall t, u :: t in s.tasks && u in s.tasks && Swapped(s.tasks[t]) && Swapped(s.tasks[u]) ==> t == u)
    && (s.token.cancelled <==> exists t :: t in s.tasks && Swapped(s.tasks[t]))
    && (forall t :: t in s.tasks && s.tasks[t].Notify? ==> s.token.notified == 0)
    && (forall t :: t in s.tasks && s.tasks[t] == CancelDone(true) ==> s.token.notified == 1)
    && (forall t :: t in s.tasks && s.tasks[t].Parked? ==> s.tasks[t].since == 0)
    && (forall t :: t in s.tasks && s.tasks[t].Check? && !s.token.cancelled ==> s.tasks[t].since == 0)
    && (!s.token.cancelled ==> s.token.notified == 0)
    && (forall t :: t in s.tasks && (s.tasks[t] == CancelDone(false) || s.tasks[t].ListenDone?) ==> s.token.cancelled)
  }

  /** The one caller that found the flag down. */
  predicate Swapped(pc: Pc) { pc.Notify? || pc == CancelDone(true) }

  lemma StepKeepsToken(s: State, l: Label)
    requires TokenOk(s) && Enabled(s, l)
    ensures TokenOk(Next(s, l))
  {
    if t :| t in s.tasks && Swapped(s.tasks[t]) {
      assert t in Next(s, l).tasks && Swapped(Next(s, l).tasks[t]);
    } else {
      assert Swapped(Next(s, l).tasks[l.t]) ==> Next(s, l).token.cancelled;
    }
  }

  lemma {:induction false} RunKeepsToken(s: State, run: seq<Label>)
    requires TokenOk(s) && Legal(s, run)
    ensures TokenOk(Run(s, run))
    decreases |run|
  {
    if run != [] {
      StepKeepsToken(s, run[0]);
      RunKeepsToken(Next(s, run[0]), run[1..]);
    }
  }

  /** A listener returns only on a raised token, and on a raised token the next look of any listener lets it return. */
  lemma ListenersReturnOnlyRaised(run: seq<Label>, u: Tid)
    requires Legal(START, run)
    ensures var s := Run(START, run);
            && (u in s.tasks && s.tasks[u].ListenDone? ==> s.token.cancelled)
            && (u in s.tasks && s.tasks[u].Check? && s.token.cancelled ==>
                  Enabled(s, Step(u)) && Next(s, Step(u)).tasks[u].ListenDone?)
  {
    RunKeepsToken(START, run);
  }

  /** No listener is blocked once the first caller of `cancel` has completed; while a listener is blocked on a raised
      token, that caller has still to notify, and when it does nobody stays blocked. */
  lemma NoListenerIsForgotten(run: seq<Label>)
    requires Legal(START, run)
    ensures var s := Run(START, run);
            && ((exists t :: t in s.tasks && s.tasks[t] == CancelDone(true)) ==> forall u :: !Blocked(s, u))
            && (s.token.cancelled && (exists u :: Blocked(s, u)) ==> exists t :: t in s.tasks && s.tasks[t].Notify?)
            && (forall t, u :: t in s.tasks && s.tasks[t].Notify? ==> !Blocked(Next(s, Step(t)), u))
  {
    RunKeepsToken(START, run);
    var s := Run(START, run);
    forall t, u | t in s.tasks && s.tasks[t].Notify?
      ensures !Blocked(Next(s, Step(t)), u)
    {
      StepKeepsToken(s, Step(t));
    }
  }

  predicate SomeoneBlocked(s: State) {
    exists u :: u in s.tasks && Blocked(s, u)
  }

  ghost predicate NeverBlocksAgain(s: State) {
    forall run :: Legal(s, run) ==> !SomeoneBlocked(Run(s, run))
  }

  lemma NobodyBlocksNow(s: State)
    requires NeverBlocksAgain(s)
    ensures !SomeoneBlocked(s)
  {
    var none: seq<Label> := [];
    assert Legal(s, none) && Run(s, none) == s;
  }

  lemma {:induction false} NotifiedStays(s: State, run: seq<Label>)
    requires Legal(s, run) && TokenOk(s) && s.token.cancelled && forall t :: t in s.tasks ==> !s.tasks[t].Notify?
    ensures forall u :: !Blocked(Run(s, run), u)
    decreases |run|
  {
    if run == [] {
      NobodyBlocked(s);
    } else {
      StepKeepsToken(s, run[0]);
      NotifiedStays(Next(s, run[0]), run[1..]);
    }
  }

  lemma NobodyBlocked(s: State)
    requires TokenOk(s) && s.token.cancelled && forall t :: t in s.tasks ==> !s.tasks[t].Notify?
    ensures forall u :: !Blocked(s, u)
  {
    var t :| t in s.tasks && Swapped(s.tasks[t]);
    assert s.tasks[t] == CancelDone(true);
  }

  /** On a raised token a listener is blocked exactly when it is parked and the notification is still to come. */
  lemma BlockedExactly(run: seq<Label>, u: Tid)
    requires Legal(START, run) && Run(START, run).token.cancelled
    ensures var s := Run(START, run);
            Blocked(s, u) <==> u in s.tasks && s.tasks[u].Parked? && exists t :: t in s.tasks && s.tasks[t].Notify?
  {
    RunKeepsToken(START, run);
    var s := Run(START, run);
    if !(exists t :: t in s.tasks && s.tasks[t].Notify?) { NobodyBlocked(s); }
  }

  /** When any call of `cancel` has returned, nobody is blocked now and in every continuation exactly when the
      notification has been sent or no listener is parked. */
  lemma ReturnedCancelExactly(run: seq<Label>, c: Tid)
    requires Legal(START, run) && c in Run(START, run).tasks && Run(START, run).tasks[c].CancelDone?
    ensures var s := Run(START, run);
            NeverBlocksAgain(s)
            <==> || (forall t :: t in s.tasks ==> !s.tasks[t].Notify?)
                 || (forall u :: u in s.tasks ==> !s.tasks[u].Parked?)
  {
    RunKeepsToken(START, run);
    var s := Run(START, run);
    assert s.token.cancelled;
    if u :| u in s.tasks && s.tasks[u].Parked? {
      if t :| t in s.tasks && s.tasks[t].Notify? {
        assert Blocked(s, u);
        if NeverBlocksAgain(s) { NobodyBlocksNow(s); }
      } else {
        forall more | Legal(s, more) ensures !SomeoneBlocked(Run(s, more)) { NotifiedStays(s, more); }
      }
    } else {
      forall more | Legal(s, more) ensures !SomeoneBlocked(Run(s, more)) { NobodyParks(s, more); }
    }
  }

  /** On a raised token nobody parks any more. */
  lemma {:induction false} NobodyParks(s: State, run: seq<Label>)
    requires Legal(s, run) && s.token.cancelled && forall u :: u in s.tasks ==> !s.tasks[u].Parked?
    ensures forall u :: !Blocked(Run(s, run), u)
    decreases |run|
  {
    if run != [] {
      NobodyParks(Next(s, run[0]), run[1..]);
    }
  }

  /** A second `cancel` returns as soon as it finds the flag up, so its return promises nothing yet. */
  lemma SecondCancelPromisesNothing()
    ensures exists run :: Legal(START, run)
                          && var s := Run(START, run);
                          Blocked(s, 0) && 2 in s.tasks && s.tasks[2] == CancelDone(false)
  {
    var run := [CallCancelled(0), Step(0), Step(0), CallCancel(1), Step(1), CallCancel(2), Step(2)];
    var s1 := Next(START, run[0]);
    var s2 := Next(s1, run[1]);
    var s3 := Next(s2, run[2]);
    var s4 := Next(s3, run[3]);
    var s5 := Next(s4, run[4]);
    var s6 := Next(s5, run[5]);
    var s7 := Next(s6, run[6]);
    assert Legal(s7, []);
    assert run[6..] == [run[6]] && run[6..][1..] == [];
    assert Legal(s6, run[6..]) && Run(s6, run[6..]) == s7;
    assert run[5..][1..] == run[6..] && Legal(s5, run[5..]) && Run(s5, run[5..]) == s7;
    assert run[4..][1..] == run[5..] && Legal(s4, run[4..]) && Run(s4, run[4..]) == s7;
    assert run[3..][1..] == run[4..] && Legal(s3, run[3..]) && Run(s3, run[3..]) == s7;
    assert run[2..][1..] == run[3..] && Legal(s2, run[2..]) && Run(s2, run[2..]) == s7;
    assert run[1..][1..] == run[2..] && Legal(s1, run[1..]) && Run(s1, run[1..]) == s7;
    assert Legal(START, run) && Run(START, run) == s7;
  }

  // The guards as objects.

  class RequestCancellation {
    var cancelled: bool
    /** Calls of notify_waiters so far. */
    var notified: nat

    constructor ()
      ensures !cancelled && notified == 0
    {
      cancelled, notified := false, 0;
    }

    /** Raises the token and notifies the listeners, once. */
    method Cancel()
      modifies this
      ensures cancelled && notified == old(notified) + (if old(cancelled) then 0 else 1)
    {
      var was := cancelled;
      cancelled := true;
      if !was {
        notified := notified + 1;
      }
    }
  }

  class CancelOnDrop {
    const cancellation: RequestCancellation
    var armed: bool

    constructor (cancellation: RequestCancellation)
      ensures this.cancellation == cancellation && armed
    {
      this.cancellation, armed := cancellation, true;
    }

    method Disarm()
      modifies this
      ensures !armed
    {
      armed := false;
    }

    method Drop()
      modifies cancellation
      ensures cancellation.cancelled == (old(cancellation.cancelled) || armed)
      ensures cancellation.notified == old(cancellation.notified) +
                                        (if armed && !old(cancellation.cancelled) then 1 else 0)
    {
      if armed {
        cancellation.Cancel();
      }
    }
  }

  class QueueState {
    var queued: nat

    constructor ()
      ensures queued == 0
    {
      queued := 0;
    }
  }

  class QueueTicket {
    const queue: QueueState
    var active: bool

    /** A slot that was counted in the queue. */
    constructor (queue: QueueState)
      modifies queue
      ensures this.queue == queue && active && queue.queued == old(queue.queued) + 1
    {
      this.queue, active := queue, true;
      new;
      queue.queued := queue.queued + 1;
    }

    static method Reserve(queue: QueueState, maxQueued: nat) returns (ticket: Option<QueueTicket>)
      modifies queue
      ensures ticket.None? <==> old(queue.queued) >= maxQueued
      ensures ticket.None? ==> queue.queued == old(queue.queued)
      ensures ticket.Some? ==> fresh(ticket.value) && ticket.value.queue == queue && ticket.value.active
                               && queue.queued == old(queue.queued) + 1 <= maxQueued
    {
      if queue.queued >= maxQueued {
        return None;
      }
      var slot := new QueueTicket(queue);
      ticket := Some(slot);
    }

    /** Gives the slot back the first time, and nothing after. */
    method Drop()
      modifies this, queue
      ensures !active
      ensures queue.queued == if old(active) && old(queue.queued) > 0 then old(queue.queued) - 1 else old(queue.queued)
    {
      if !active {
        return;
      }
      if queue.queued > 0 {
        queue.queued := queue.queued - 1;
      }
      active := false;
    }
  }
}
