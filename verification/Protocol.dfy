/**
 The bootstrap protocol as a labelled transition system.  One step is one
 channel operation, one critical section of the bootstrap mutex, or one port
 reply; every interleaving of callers, background pollers, waiters and editors
 of the status is a run.
 */
module Protocol {
  import opened Outcomes
  import opened Status

  type Tid = nat

  /** Every value ever published; the last one is current and its index is the version. */
  type Channel = c: seq<BackendStatus> | |c| > 0 witness [DEFAULT_STATUS]

  /** The shared state: the watch channel and the mutex-protected bootstrap state. */
  datatype Core = Core(chan: Channel, active: bool, lastError: Option<string>, observe: Request)
  {
    function Version(): nat { |chan| - 1 }

    function Current(): BackendStatus { chan[|chan| - 1] }

    function Publish(status: BackendStatus): Core { this.(chan := chan + [status]) }

    function Start(request: Request): Core {
      this.(active := true, lastError := None, observe := request)
    }

    function Join(request: Request): Core {
      if Priority(request) > Priority(observe) then this.(observe := request) else this
    }

    function Finish(status: BackendStatus, error: Option<string>): Core {
      this.(chan := chan + [status], active := false, lastError := error)
    }
  }

  // History: where published values come from and what each epoch did.

  /** A port's reply and when it came. */
  datatype Heard<T> = Heard(at: nat, reply: Result<T>)

  datatype Obs = Obs(epoch: nat, request: Request, asked: nat,
                     ssh: Heard<bool>, helper: Heard<Observation>, tunnel: Heard<TunnelState>)

  /** Where a published value was made: at creation, by an epoch without seeing the backend ready, or by a complete
      observation. */
  datatype Origin = Initial | By(epoch: nat) | Observed(obs: Obs)
  {
    function Epoch(): nat {
      match this
      case Initial => 0
      case By(epoch) => epoch
      case Observed(obs) => obs.epoch
    }
  }

  /** A wake, with the leader's snapshot and the ssh reply that led to it. */
  datatype WakeCall = WakeCall(kind: Request, clock: nat, snapshot: LifecycleState, ssh: Result<bool>)

  /** The leader's ssh probe: the lifecycle it held and the reply. */
  datatype LeaderProbe = LeaderProbe(snapshot: LifecycleState, ssh: Result<bool>)

  datatype End = End(version: nat, error: Option<string>)

  /** From setting `active` to clearing it. `members` are the leader and the joiners in order. */
  datatype Epoch = Epoch(leader: Request, members: seq<Request>, startedAt: nat, startVersion: nat,
                         probe: Option<LeaderProbe>, wakes: seq<WakeCall>, end: Option<End>)

  /** `degrades`: when embeddings were degraded. */
  datatype History = History(now: nat, owner: Option<Tid>, orphaned: bool, origins: seq<Origin>, epochs: seq<Epoch>,
                             degrades: seq<nat>)

  // Tasks.

  /** Who runs an observation: the call that started the epoch, or the polling task. */
  datatype Role = Leader(kind: Request, since: nat, seen: nat) | Background

  /** A call in the waiting loop: version at the call, version its receiver has seen, epoch joined. */
  datatype Waiter = Waiter(since: nat, seen: nat, epoch: nat)

  datatype Probe = Probe(request: Request, asked: nat)

  datatype Pc =
    | Called(kind: Request, since: nat)
    | Peeked(kind: Request, since: nat, status: BackendStatus, at: nat)
    | Deciding(kind: Request, since: nat, status: BackendStatus, at: nat)
    | Started(role: Role, status: BackendStatus)
    | Probing(role: Role, probe: Probe, status: BackendStatus)
    | Waking(role: Role, status: BackendStatus)
    | Helping(role: Role, probe: Probe, status: BackendStatus, ssh: Heard<bool>)
    | Tunnelling(role: Role, probe: Probe, status: BackendStatus, ssh: Heard<bool>, helper: Heard<Observation>)
    | Publishing(role: Role, status: BackendStatus, origin: Origin)
    | Spawning(role: Role)
    | Reborrowing(role: Role, status: BackendStatus, at: nat)
    | Finishing(role: Role, status: BackendStatus, origin: Origin, error: Option<string>,
                ready: Option<(BackendStatus, nat)>)
    | Idle
    | WaitBorrow(waiter: Waiter)
    | WaitLock(waiter: Waiter, status: BackendStatus, at: nat)
    | Parked(waiter: Waiter, stale: bool)
    | Returned(since: nat, joined: Option<nat>, decision: Decision, at: nat, epoch: nat)
    | Holding(edit: Edit, status: BackendStatus, at: nat)
    | Gone

  /** The program points of the task that runs the bootstrap. */
  predicate Owns(pc: Pc) {
    pc.Started? || pc.Probing? || pc.Waking? || pc.Helping? || pc.Tunnelling? || pc.Publishing?
    || pc.Spawning? || pc.Reborrowing? || pc.Finishing? || pc.Idle?
  }

  /** The program points with an ssh, wake, helper or tunnel call in flight. */
  predicate CallsPort(pc: Pc) {
    pc.Probing? || pc.Waking? || pc.Helping? || pc.Tunnelling?
  }

  /** Where a call's future can be dropped: at an await, and never in a spawned task. */
  predicate Droppable(pc: Pc) {
    match pc
    case Called(_, _) => true
    case Peeked(_, _, _, _) => true
    case Deciding(_, _, _, _) => true
    case Started(role, _) => role.Leader?
    case Probing(role, _, _) => role.Leader?
    case Waking(role, _) => role.Leader?
    case Helping(role, _, _, _) => role.Leader?
    case Tunnelling(role, _, _, _, _) => role.Leader?
    case Finishing(role, _, _, _, _) => role.Leader?
    case WaitLock(_, _, _) => true
    case Parked(_, _) => true
    case _ => false
  }

  datatype World = World(core: Core, tasks: map<Tid, Pc>, hist: History)
  {
    function With(t: Tid, pc: Pc): World { this.(tasks := tasks[t := pc]) }

    function Put(status: BackendStatus, origin: Origin): World {
      this.(core := core.Publish(status), hist := hist.(origins := hist.origins + [origin]))
    }
  }

  datatype Label =
    | Call(t: Tid, kind: Request)
    | Borrow(t: Tid)
    | CheckActive(t: Tid)
    | StartOrJoin(t: Tid)
    | ReadRequest(t: Tid)
    | SshReply(t: Tid, up: Result<bool>, clock: nat)
    | WakeReply(t: Tid, error: Option<string>)
    | HelperReply(t: Tid, helper: Result<Observation>)
    | TunnelReply(t: Tid, tunnel: Result<TunnelState>)
    | Publish(t: Tid)
    | Spawn(t: Tid, child: Tid)
    | Reborrow(t: Tid)
    | Finish(t: Tid)
    | Tick(t: Tid)
    | Deadline(t: Tid)
    | LockView(t: Tid, expired: bool)
    | Changed(t: Tid)
    | Timeout(t: Tid)
    | BeginEdit(t: Tid, edit: Edit)
    | CommitEdit(t: Tid)
    | Drop(t: Tid)

  predicate Enabled(w: World, l: Label) {
    if l.Call? || l.BeginEdit? then
      l.t !in w.tasks
    else
      && l.t in w.tasks
      && var pc := w.tasks[l.t];
         match l
         case Borrow(_) => pc.Called? || pc.WaitBorrow?
         case CheckActive(_) => pc.Peeked?
         case StartOrJoin(_) => pc.Deciding?
         case ReadRequest(_) => pc.Started?
         case SshReply(_, _, _) => pc.Probing?
         case WakeReply(_, _) => pc.Waking?
         case HelperReply(_, _) => pc.Helping?
         case TunnelReply(_, _) => pc.Tunnelling?
         case Publish(_) => pc.Publishing?
         case Spawn(_, child) => pc.Spawning? && pc.role.Leader? && child !in w.tasks
         case Reborrow(_) => pc.Reborrowing? && pc.role.Leader?
         case Finish(_) => pc.Finishing?
         case Tick(_) => pc.Idle?
         case Deadline(_) => pc.Idle?
         case LockView(_, _) => pc.WaitLock?
         case Changed(_) => pc.Parked? && pc.waiter.seen != w.core.Version()
         case Timeout(_) => pc.Parked?
         case CommitEdit(_) => pc.Holding?
         case Drop(_) => Droppable(pc)
         case _ => false
  }

  // The effect of each step, in the order of one call.

  function DoBorrow(w: World, t: Tid): World
    requires Enabled(w, Borrow(t))
  {
    match w.tasks[t]
    case Called(kind, since) => w.With(t, Peeked(kind, since, w.core.Current(), w.core.Version()))
    case WaitBorrow(waiter) => w.With(t, WaitLock(waiter, w.core.Current(), w.core.Version()))
  }

  function DoCheckActive(w: World, t: Tid): World
    requires Enabled(w, CheckActive(t))
  {
    var Peeked(kind, since, status, at) := w.tasks[t];
    if !w.core.active && BackendIsReady(status) then
      w.With(t, Returned(since, None, Decision.Ready(status), at, |w.hist.epochs|))
    else
      w.With(t, Deciding(kind, since, status, at))
  }

  function JoinLast(epochs: seq<Epoch>, kind: Request): seq<Epoch> {
    if epochs == [] then epochs
    else
      var last := epochs[|epochs| - 1];
      epochs[|epochs| - 1 := last.(members := last.members + [kind])]
  }

  function DoStartOrJoin(w: World, t: Tid): World
    requires Enabled(w, StartOrJoin(t))
  {
    var Deciding(kind, since, status, at) := w.tasks[t];
    var v := w.core.Version();
    if !w.core.active then
      var epoch := Epoch(kind, [kind], w.hist.now, v, None, [], None);
      w.With(t, Started(Leader(kind, since, v), status))
      .(core := w.core.Start(kind),
      hist := w.hist.(owner := Some(t), epochs := w.hist.epochs + [epoch]))
    else
      w.With(t, WaitBorrow(Waiter(since, v, |w.hist.epochs|)))
      .(core := w.core.Join(kind),
      hist := w.hist.(epochs := JoinLast(w.hist.epochs, kind)))
  }

  function Members(w: World): nat {
    if w.hist.epochs == [] then 0 else |w.hist.epochs[|w.hist.epochs| - 1].members|
  }

  function DoReadRequest(w: World, t: Tid): World
    requires Enabled(w, ReadRequest(t))
  {
    var Started(role, status) := w.tasks[t];
    w.With(t, Probing(role, Probe(w.core.observe, Members(w)), status))
  }

  function Failing(w: World, role: Role, status: BackendStatus, error: string): Pc {
    Finishing(role, status, By(|w.hist.epochs|), Some(error), None)
  }

  function LogProbe(epochs: seq<Epoch>, probe: LeaderProbe): seq<Epoch> {
    if epochs == [] then epochs
    else epochs[|epochs| - 1 := epochs[|epochs| - 1].(probe := Some(probe))]
  }

  /** The leader's probe goes into the books. */
  function Probed(w: World, role: Role, status: BackendStatus, up: Result<bool>): World {
    if role.Background? then w
    else w.(hist := w.hist.(epochs := LogProbe(w.hist.epochs, LeaderProbe(status.lifecycle, up))))
  }

  function LogWake(epochs: seq<Epoch>, wake: WakeCall): seq<Epoch> {
    if epochs == [] then epochs
    else
      var last := epochs[|epochs| - 1];
      epochs[|epochs| - 1 := last.(wakes := last.wakes + [wake])]
  }

  function DoSshReply(w: World, t: Tid, up: Result<bool>, clock: nat): World
    requires Enabled(w, SshReply(t, up, clock))
  {
    var Probing(role, probe, status) := w.tasks[t];
    var w' := Probed(w, role, status, up);
    match up
    case Err(error) => w'.With(t, Failing(w, role, Broken(status), error))
    case Ok(true) => w'.With(t, Helping(role, probe, status, Heard(w.hist.now, up)))
    case Ok(false) =>
      if role.Leader? && ShouldRequestWake(status.lifecycle) then
        w'.With(t, Waking(role, BeforeWake(status, clock)))
        .(hist := w'.hist.(epochs := LogWake(w'.hist.epochs, WakeCall(role.kind, clock, status.lifecycle, up))))
      else
        w'.With(t, Publishing(role, Asleep(status), By(|w.hist.epochs|)))
  }

  function DoWakeReply(w: World, t: Tid, error: Option<string>): World
    requires Enabled(w, WakeReply(t, error))
  {
    var Waking(role, status) := w.tasks[t];
    match error
    case Some(e) => w.With(t, Failing(w, role, status.(lifecycle := LifecycleState.Error), e))
    case None => w.With(t, Publishing(role, Asleep(status), By(|w.hist.epochs|)))
  }

  function DoHelperReply(w: World, t: Tid, helper: Result<Observation>): World
    requires Enabled(w, HelperReply(t, helper))
  {
    var Helping(role, probe, status, ssh) := w.tasks[t];
    match helper
    case Err(error) => w.With(t, Failing(w, role, Broken(status), error))
    case Ok(seen) =>
      var adopted := Adopt(status, seen);
      if adopted.lifecycle.Error? then
        w.With(t, Failing(w, role, adopted.(tunnel := TunnelState.Down), seen.error.GetOr(UNSPECIFIED_ERROR)))
      else if !adopted.lifecycle.Ready? then
        w.With(t, Publishing(role, adopted.(tunnel := TunnelState.Down), By(|w.hist.epochs|)))
      else
        w.With(t, Tunnelling(role, probe, adopted, ssh, Heard(w.hist.now, helper)))
  }

  function DoTunnelReply(w: World, t: Tid, tunnel: Result<TunnelState>): World
    requires Enabled(w, TunnelReply(t, tunnel))
  {
    var Tunnelling(role, probe, status, ssh, helper) := w.tasks[t];
    match tunnel
    case Err(error) => w.With(t, Failing(w, role, Broken(status), error))
    case Ok(state) =>
      var obs := Obs(|w.hist.epochs|, probe.request, probe.asked, ssh, helper, Heard(w.hist.now, tunnel));
      w.With(t, Publishing(role, WithTunnel(status, state), Observed(obs)))
  }

  function DoPublish(w: World, t: Tid): World
    requires Enabled(w, Publish(t))
  {
    var Publishing(role, status, origin) := w.tasks[t];
    var w' := w.Put(status, origin);
    if BackendIsReady(status) then
      if role.Leader? then w'.With(t, Reborrowing(role, status, w'.core.Version()))
      else w'.With(t, Finishing(role, status, origin, None, None))
    else
      if role.Leader? then w'.With(t, Spawning(role)) else w'.With(t, Idle)
  }

  function DoSpawn(w: World, t: Tid, child: Tid): World
    requires Enabled(w, Spawn(t, child))
  {
    var role := w.tasks[t].role;
    w.With(t, WaitBorrow(Waiter(role.since, role.seen, |w.hist.epochs|))).With(child, Idle)
    .(hist := w.hist.(owner := Some(child)))
  }

  function OriginAt(w: World, at: nat): Origin {
    if at < |w.hist.origins| then w.hist.origins[at] else Initial
  }

  function DoReborrow(w: World, t: Tid): World
    requires Enabled(w, Reborrow(t))
  {
    var Reborrowing(role, status, at) := w.tasks[t];
    w.With(t, Finishing(role, w.core.Current(), OriginAt(w, w.core.Version()), None, Some((status, at))))
  }

  function EndLast(epochs: seq<Epoch>, end: End): seq<Epoch> {
    if epochs == [] then epochs
    else epochs[|epochs| - 1 := epochs[|epochs| - 1].(end := Some(end))]
  }

  function DoFinish(w: World, t: Tid): World
    requires Enabled(w, Finish(t))
  {
    var Finishing(role, status, origin, error, ready) := w.tasks[t];
    var core := w.core.Finish(status, error);
    var pc :=
      match role
      case Background => Gone
      case Leader(_, since, _) =>
        match ready
        case Some((own, at)) => Returned(since, None, Decision.Ready(own), at, |w.hist.epochs|)
        case None =>
          var failed := Decision.Failed(status, error.GetOr(UNSPECIFIED_ERROR));
          Returned(since, None, failed, core.Version(), |w.hist.epochs|);
    w.With(t, pc)
    .(core := core,
    hist := w.hist.(owner := None, origins := w.hist.origins + [origin],
    epochs := EndLast(w.hist.epochs, End(core.Version(), error))))
  }

  function DoLockView(w: World, t: Tid, expired: bool): World
    requires Enabled(w, LockView(t, expired))
  {
    var WaitLock(waiter, status, at) := w.tasks[t];
    match Judge(status, w.core.active, w.core.lastError)
    case Settled(decision) =>
      w.With(t, Returned(waiter.since, Some(waiter.epoch), decision, at, |w.hist.epochs|))
    case Wait(stale) =>
      if expired then
        var warming := Decision.Warming(WaitStatus(status, stale));
        w.With(t, Returned(waiter.since, Some(waiter.epoch), warming, at, |w.hist.epochs|))
      else
        w.With(t, Parked(waiter, stale))
  }

  function DoTimeout(w: World, t: Tid): World
    requires Enabled(w, Timeout(t))
  {
    var Parked(waiter, stale) := w.tasks[t];
    w.With(t, Returned(waiter.since, Some(waiter.epoch), Decision.Warming(WaitStatus(w.core.Current(), stale)),
                       w.core.Version(), |w.hist.epochs|))
  }

  function DoCommitEdit(w: World, t: Tid): World
    requires Enabled(w, CommitEdit(t))
  {
    var Holding(edit, status, at) := w.tasks[t];
    var w' := w.Put(ApplyEdit(edit, status), OriginAt(w, at)).With(t, Gone);
    if edit.Degrade? then w'.(hist := w'.hist.(degrades := w.hist.degrades + [w.hist.now])) else w'
  }

  function DoDrop(w: World, t: Tid): World
    requires Enabled(w, Drop(t))
  {
    var w' := w.With(t, Gone);
    if Owns(w.tasks[t]) then w'.(hist := w.hist.(owner := None, orphaned := true)) else w'
  }

  function Effect(w: World, l: Label): World
    requires Enabled(w, l)
  {
    match l
    case Call(t, kind) => w.With(t, Called(kind, w.core.Version()))
    case Borrow(t) => DoBorrow(w, t)
    case CheckActive(t) => DoCheckActive(w, t)
    case StartOrJoin(t) => DoStartOrJoin(w, t)
    case ReadRequest(t) => DoReadRequest(w, t)
    case SshReply(t, up, clock) => DoSshReply(w, t, up, clock)
    case WakeReply(t, error) => DoWakeReply(w, t, error)
    case HelperReply(t, helper) => DoHelperReply(w, t, helper)
    case TunnelReply(t, tunnel) => DoTunnelReply(w, t, tunnel)
    case Publish(t) => DoPublish(w, t)
    case Spawn(t, child) => DoSpawn(w, t, child)
    case Reborrow(t) => DoReborrow(w, t)
    case Finish(t) => DoFinish(w, t)
    case Tick(t) => w.With(t, Started(Background, w.core.Current()))
    case Deadline(t) => w.With(t, Failing(w, Background, Broken(w.core.Current()), DEADLINE_ERROR))
    case LockView(t, expired) => DoLockView(w, t, expired)
    case Changed(t) => w.With(t, WaitBorrow(w.tasks[t].waiter.(seen := w.core.Version())))
    case Timeout(t) => DoTimeout(w, t)
    case BeginEdit(t, edit) => w.With(t, Holding(edit, w.core.Current(), w.core.Version()))
    case CommitEdit(t) => DoCommitEdit(w, t)
    case Drop(t) => DoDrop(w, t)
  }

  function Next(w: World, l: Label): World
    requires Enabled(w, l)
  {
    var w' := Effect(w, l);
    w'.(hist := w'.hist.(now := w.hist.now + 1))
  }

  // Runs.

  predicate Legal(w: World, run: seq<Label>)
    decreases |run|
  {
    run == [] || (Enabled(w, run[0]) && Legal(Next(w, run[0]), run[1..]))
  }

  function Run(w: World, run: seq<Label>): World
    requires Legal(w, run)
    decreases |run|
  {
    if run == [] then w else Run(Next(w, run[0]), run[1..])
  }

  function Start(initial: BackendStatus): World {
    World(Core([initial], false, None, Request.Chat), map[], History(0, None, false, [Initial], [], []))
  }
}
