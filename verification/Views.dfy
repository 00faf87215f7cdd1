/**
 What a task may believe: every local status is a value the channel held at a
 moment inside the call, and a waiter that sleeps would decide to sleep again.
 */
module Views {
  import opened Outcomes
  import opened Status
  import opened Protocol
  import opened Frames

  ghost predicate Held(core: Core, since: nat, at: nat, status: BackendStatus) {
    since <= at < |core.chan| && core.chan[at] == status
  }

  ghost predicate RoleOk(core: Core, role: Role) {
    role.Leader? ==> role.since <= role.seen < |core.chan|
  }

  ghost predicate WaiterOk(core: Core, waiter: Waiter) {
    waiter.since <= waiter.seen < |core.chan|
  }

  ghost predicate ViewOk(core: Core, pc: Pc) {
    match pc
    case Called(_, since) => since < |core.chan|
    case Peeked(_, since, status, at) => Held(core, since, at, status)
    case Deciding(_, since, status, at) => Held(core, since, at, status)
    case Started(role, _) => RoleOk(core, role)
    case Probing(role, _, _) => RoleOk(core, role)
    case Waking(role, _) => RoleOk(core, role)
    case Helping(role, _, _, _) => RoleOk(core, role)
    case Tunnelling(role, _, status, _, _) => RoleOk(core, role) && status.lifecycle.Ready?
    case Publishing(role, _, _) => RoleOk(core, role)
    case Spawning(role) => RoleOk(core, role) && role.Leader?
    case Reborrowing(role, status, at) =>
      RoleOk(core, role) && BackendIsReady(status) && role.Leader? && Held(core, role.since, at, status)
    case Finishing(role, status, _, error, ready) =>
      && RoleOk(core, role)
      && (error.Some? ==> ready.None? && status.lifecycle.Error?)
      && (error.None? && role.Leader? ==>
            ready.Some? && BackendIsReady(ready.value.0) && Held(core, role.since, ready.value.1, ready.value.0))
      && (error.None? && role.Background? ==> BackendIsReady(status))
    case WaitBorrow(waiter) => WaiterOk(core, waiter)
    case WaitLock(waiter, status, at) => WaiterOk(core, waiter) && Held(core, waiter.seen, at, status)
    case Parked(waiter, _) =>
      WaiterOk(core, waiter)
      && (waiter.seen == core.Version() ==> Judge(core.Current(), core.active, core.lastError).Wait?)
    case Returned(since, _, decision, at, _) =>
      match decision {
        case Ready(status) => Held(core, since, at, status) && BackendIsReady(status)
        case Failed(status, _) => Held(core, since, at, status) && status.lifecycle.Error?
        case Warming(_) => true
      }
    case Holding(_, status, at) => Held(core, 0, at, status)
    case Idle => true
    case Gone => true
  }

  ghost predicate Viewed(w: World) {
    forall t :: t in w.tasks ==> ViewOk(w.core, w.tasks[t])
  }

  lemma Stable(c: Core, c': Core, pc: Pc)
    requires Extends(c, c') && ViewOk(c, pc)
    ensures ViewOk(c', pc)
  {
  }

  lemma OwnerKeepsView(w: World, l: Label)
    requires Enabled(w, l) && OwnerStep(l) && l.t in Next(w, l).tasks
    requires ViewOk(w.core, w.tasks[l.t])
    ensures ViewOk(Next(w, l).core, Next(w, l).tasks[l.t])
  {
  }

  lemma CallerKeepsView(w: World, l: Label)
    requires Enabled(w, l) && !OwnerStep(l) && l.t in Next(w, l).tasks
    requires l.t in w.tasks ==> ViewOk(w.core, w.tasks[l.t])
    ensures ViewOk(Next(w, l).core, Next(w, l).tasks[l.t])
  {
  }

  lemma StepKeepsViewed(w: World, l: Label)
    requires Viewed(w) && Enabled(w, l)
    ensures Viewed(Next(w, l))
  {
    var w' := Next(w, l);
    forall u | u in w'.tasks
      ensures ViewOk(w'.core, w'.tasks[u])
    {
      OthersUntouched(w, l, u);
      if u == l.t {
        if OwnerStep(l) { OwnerKeepsView(w, l); } else { CallerKeepsView(w, l); }
      } else if u in w.tasks {
        StepExtends(w, l);
        Stable(w.core, w'.core, w.tasks[u]);
      }
    }
  }

  /** Every snapshot a task takes is the value current at that moment. */
  lemma SnapshotsAreCurrent(w: World, t: Tid, edit: Edit)
    ensures Enabled(w, Borrow(t)) ==>
              var pc := Next(w, Borrow(t)).tasks[t];
              (pc.Peeked? || pc.WaitLock?) && pc.status == w.core.Current() && pc.at == w.core.Version()
    ensures Enabled(w, BeginEdit(t, edit)) ==>
              Next(w, BeginEdit(t, edit)).tasks[t] == Holding(edit, w.core.Current(), w.core.Version())
    ensures Enabled(w, Tick(t)) ==> Next(w, Tick(t)).tasks[t] == Started(Background, w.core.Current())
  {
  }

  /** A call is answered without a bootstrap exactly when none is at work and the status it saw is ready. */
  lemma FastPathExactly(w: World, t: Tid)
    requires Enabled(w, CheckActive(t))
    ensures var seen, pc := w.tasks[t].status, Next(w, CheckActive(t)).tasks[t];
            if !w.core.active && seen.lifecycle.Ready? && seen.tunnel.Ready? then
              pc.Returned? && pc.decision == Decision.Ready(seen) && pc.joined.None?
            else
              pc.Deciding? && pc.status == seen
  {
  }

  /** A leader that saw Ready ends its epoch on the status then current: what was edited since its publish stays. */
  lemma ReadyEndKeepsTheStatus(w: World, t: Tid)
    requires Enabled(w, Reborrow(t))
    ensures Enabled(Next(w, Reborrow(t)), Finish(t))
    ensures var end := Next(Next(w, Reborrow(t)), Finish(t)).core;
            !end.active && end.lastError.None? && end.Current() == w.core.Current()
  {
  }

  /** A waiter whose time is spent while a bootstrap is at work on anything but a Warming status says Warming with the
      tunnel down, whether it sees so itself or had seen so when it went to sleep. */
  lemma StaleAnswersSayWarming(w: World, t: Tid)
    ensures Enabled(w, LockView(t, true)) && w.core.active && !w.tasks[t].status.lifecycle.Warming? ==>
              SaysWarming(Next(w, LockView(t, true)), t, w.tasks[t].status)
    ensures Enabled(w, LockView(t, false)) && Next(w, LockView(t, false)).tasks[t].Parked? ==>
              (Next(w, LockView(t, false)).tasks[t].stale <==> w.core.active && !w.tasks[t].status.lifecycle.Warming?)
    ensures Enabled(w, Timeout(t)) && w.tasks[t].stale ==>
              SaysWarming(Next(w, Timeout(t)), t, w.core.Current())
  {
  }

  /** `t` was answered Warming: the status it saw last, with lifecycle and tunnel taken back. */
  predicate SaysWarming(w: World, t: Tid, seen: BackendStatus) {
    && t in w.tasks && w.tasks[t].Returned? && w.tasks[t].decision.Warming?
    && var answer := w.tasks[t].decision.status;
       && answer.lifecycle.Warming? && answer.tunnel.Down?
       && answer.embeddings == seen.embeddings && answer.embeddingsReason == seen.embeddingsReason
       && answer.chat == seen.chat && answer.lastWakeAttemptAt == seen.lastWakeAttemptAt
  }

  lemma {:induction false} RunKeepsViews(w: World, run: seq<Label>)
    requires Viewed(w) && Legal(w, run)
    ensures Viewed(Run(w, run))
    decreases |run|
  {
    if run != [] {
      StepKeepsViewed(w, run[0]);
      RunKeepsViews(Next(w, run[0]), run[1..]);
    }
  }
}
