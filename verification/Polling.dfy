/**
 The background poll as a function of what each pass meets, and its bound: how
 many observations fit before the boot deadline, and what the poll leaves behind.
 */
module Polling {
  import opened Outcomes
  import opened Status
  import opened Protocol
  import opened Lifecycle

  const U64_MAX: nat := 0xFFFF_FFFF_FFFF_FFFF

  function SaturatingAdd(a: nat, b: nat): nat {
    if a + b <= U64_MAX then a + b else U64_MAX
  }

  function SaturatingSub(a: nat, b: nat): nat {
    if a >= b then a - b else 0
  }

  /** Milliseconds left to boot; the hard deadline, in seconds, counts from the last wake attempt. */
  function BootBudget(lastWake: Option<nat>, now: nat, hardDeadline: nat): nat {
    1000 * SaturatingSub(SaturatingAdd(lastWake.GetOr(now), hardDeadline), now)
  }

  /** The budget over the numbers alone: it runs to the hard deadline after the last wake attempt or, without one, after
      now, on a clock that stops at its end; never before now. */
  lemma BudgetRunsToTheDeadline(lastWake: Option<nat>, now: nat, hardDeadline: nat)
    requires now <= 0xFFFF_FFFF_FFFF_FFFF
    ensures var from := match lastWake case None => now case Some(w) => w;
            var budget := BootBudget(lastWake, now, hardDeadline);
            && (now <= from + hardDeadline <= 0xFFFF_FFFF_FFFF_FFFF ==>
                  1000 * now + budget == 1000 * (from + hardDeadline))
            && (from + hardDeadline < now ==> budget == 0)
            && (from + hardDeadline > 0xFFFF_FFFF_FFFF_FFFF ==>
                  1000 * now + budget == 1000 * 0xFFFF_FFFF_FFFF_FFFF)
  {
  }

  /** How a bootstrap poll ended. */
  datatype Ending = ByReady | ByFailure(error: string) | ByDeadline | StillPolling

  /** One pass of the poll loop: what other tasks publish and the highest request they join with meanwhile, the time
      until the first check, the oversleep, the port replies, the time they took. */
  datatype Pass = Pass(others: seq<BackendStatus>, joined: Request, before: nat, overslept: nat, ports: Ports,
                       took: nat)

  /** The core after an observation whose report was acted on. */
  function Carried(core: Core, report: Report): Core {
    var shown := if report.published.Some? then core.Publish(report.published.value) else core;
    match report.decision
    case Ready(status) => shown.Finish(status, None)
    case Failed(status, error) => shown.Finish(status, Some(error))
    case Warming(_) => shown
  }

  function EndingOf(decision: Decision): Ending {
    match decision
    case Ready(_) => ByReady
    case Failed(_, error) => ByFailure(error)
    case Warming(_) => StillPolling
  }

  /** A poll in progress: when its observations began, the time now, and how many values others have published. */
  datatype Progress = Progress(core: Core, ending: Ending, began: seq<nat>, at: nat, others: nat)

  /** The core after other tasks have published and joined. */
  function Elsewhere(core: Core, pass: Pass): Core {
    core.(chan := core.chan + pass.others).Join(pass.joined)
  }

  /** One pass: an observation an interval from now, or the deadline error if that is too late. */
  function AfterPass(p: Progress, deadline: nat, poll: nat, pass: Pass): Progress {
    var core := Elsewhere(p.core, pass);
    var others := p.others + |pass.others|;
    var first := p.at + pass.before;
    var second := if poll == 0 then first else first + poll + pass.overslept;
    if second >= deadline then
      Progress(core.Finish(Broken(core.Current()), Some(DEADLINE_ERROR)), ByDeadline, p.began,
               if first >= deadline then first else second, others)
    else
      var report := Observe(None, core.observe, core.Current(), pass.ports);
      Progress(Carried(core, report), EndingOf(report.decision), p.began + [second], second + pass.took, others)
  }

  function AfterPasses(p: Progress, deadline: nat, poll: nat, passes: seq<Pass>): Progress
    decreases |passes|
  {
    if passes == [] || !p.ending.StillPolling? then p
    else AfterPasses(AfterPass(p, deadline, poll, passes[0]), deadline, poll, passes[1..])
  }

  /** Observations begin a poll interval apart, the first one an interval after `start`, and all before `deadline`. */
  ghost predicate Spaced(began: seq<nat>, start: nat, deadline: nat, poll: nat) {
    && (began != [] ==> start + poll <= began[0])
    && (forall k :: 0 < k < |began| ==> began[k - 1] + poll <= began[k])
    && (forall k :: 0 <= k < |began| ==> began[k] < deadline)
  }

  lemma {:induction false} SpacedTakesTime(began: seq<nat>, start: nat, deadline: nat, poll: nat)
    requires Spaced(began, start, deadline, poll) && began != []
    ensures start + |began| * poll <= began[|began| - 1]
  {
    var n := |began| - 1;
    if n > 0 {
      SpacedTakesTime(began[..n], start, deadline, poll);
      assert |began| * poll == n * poll + poll;
    }
  }

  lemma ProductsGrow(m: nat, n: nat, d: nat)
    requires m <= n
    ensures m * d <= n * d
  {
    assert n * d == m * d + (n - m) * d;
  }

  lemma QuotientBounds(n: nat, b: nat, d: nat)
    requires d > 0 && n * d <= b
    ensures n <= b / d
  {
    assert b / d * d + b % d == b;
    if n > b / d {
      ProductsGrow(b / d + 1, n, d);
    }
  }

  lemma FitsBudget(began: seq<nat>, start: nat, budget: nat, poll: nat)
    requires Spaced(began, start, start + budget, poll) && began != []
    ensures |began| * poll < budget
    ensures poll > 0 ==> |began| <= (budget - 1) / poll
  {
    SpacedTakesTime(began, start, start + budget, poll);
    if poll > 0 { QuotientBounds(|began|, budget - 1, poll); }
  }

  lemma DeadlineGivesUp(core: Core)
    ensures GivesUp(core.Finish(Broken(core.Current()), Some(DEADLINE_ERROR)), core.Current())
  {
  }

  /** What one pass must do, in plain terms. */
  predicate PassSays(p: Progress, deadline: nat, poll: nat, pass: Pass, after: Progress) {
    var chan := p.core.chan + pass.others;
    var seen := chan[|chan| - 1];
    var ask := if pass.joined.Embeddings? then pass.joined else p.core.observe;
    var due := p.at + pass.before + (if poll == 0 then 0 else poll + pass.overslept);
    && after.others == p.others + |pass.others| && after.core.observe == ask
    && if due >= deadline then
         && after.ending.ByDeadline? && after.began == p.began
         && after.at == (if p.at + pass.before >= deadline then p.at + pass.before else due)
         && |after.core.chan| == |chan| + 1 && chan <= after.core.chan && GivesUp(after.core, seen)
       else
         && after.began == p.began + [due] && after.at == due + pass.took
         && var report := Observe(None, ask, seen, pass.ports);
            && ObservationSays(None, ask, seen, pass.ports, report)
            && Leaves(p.core.(chan := chan), report, after.core)
            && match report.decision
               case Ready(_) => after.ending.ByReady?
               case Failed(_, error) => after.ending == ByFailure(error)
               case Warming(_) => after.ending.StillPolling?
  }

  /** What acting on a report leaves, in plain terms: a Ready or a failure ends the epoch, and any other report only
      shows its status. */
  predicate Leaves(core: Core, report: Report, after: Core) {
    var s := report.decision.status;
    match report.decision
    case Ready(_) => !after.active && after.lastError == None && after.chan == core.chan + [s, s]
    case Failed(_, error) => !after.active && after.lastError == Some(error) && after.chan == core.chan + [s]
    case Warming(_) =>
      after.active == core.active && after.lastError == core.lastError && after.chan == core.chan + [s]
  }

  lemma CarriedLeaves(core: Core, wake: Option<Request>, ask: Request, status: BackendStatus, ports: Ports)
    ensures Leaves(core, Observe(wake, ask, status, ports), Carried(core, Observe(wake, ask, status, ports)))
    ensures Carried(core, Observe(wake, ask, status, ports)).observe == core.observe
  {
    ObserveSays(wake, ask, status, ports);
  }

  /** The epoch is over with the deadline error, the status before it now Error with the tunnel down. */
  predicate GivesUp(core: Core, before: BackendStatus) {
    var s := core.Current();
    && !core.active && core.lastError == Some("backend did not become ready before the boot deadline")
    && s.lifecycle.Error? && s.tunnel.Down?
    && KeepsCapabilities(s, before) && s.lastWakeAttemptAt == before.lastWakeAttemptAt
  }

  lemma LeavesAlike(core: Core, other: Core, report: Report, after: Core)
    requires Leaves(core, report, after)
    requires other.chan == core.chan && other.active == core.active && other.lastError == core.lastError
    ensures Leaves(other, report, after)
  {
  }

  lemma PassIsPlain(p: Progress, deadline: nat, poll: nat, pass: Pass)
    ensures PassSays(p, deadline, poll, pass, AfterPass(p, deadline, poll, pass))
  {
    var core := Elsewhere(p.core, pass);
    ObserveSays(None, core.observe, core.Current(), pass.ports);
    CarriedLeaves(core, None, core.observe, core.Current(), pass.ports);
    LeavesAlike(core, p.core.(chan := core.chan), Observe(None, core.observe, core.Current(), pass.ports),
                Carried(core, Observe(None, core.observe, core.Current(), pass.ports)));
  }

  lemma PassAppends(p: Progress, deadline: nat, poll: nat, pass: Pass)
    ensures var alone := AfterPass(p.(began := [], others := 0), deadline, poll, pass);
            AfterPass(p, deadline, poll, pass)
            == alone.(began := p.began + alone.began, others := p.others + alone.others)
  {
  }

  lemma PassesGoOn(p: Progress, deadline: nat, poll: nat, passes: seq<Pass>, i: nat)
    requires p.ending.StillPolling? && i < |passes|
    ensures AfterPasses(p, deadline, poll, passes[i..])
            == AfterPasses(AfterPass(p, deadline, poll, passes[i]), deadline, poll, passes[i + 1..])
  {
    assert passes[i..][0] == passes[i] && passes[i..][1..] == passes[i + 1..];
  }

  // What every poll keeps.

  /** What a poll that ended this way leaves behind. */
  predicate EndedWell(p: Progress, deadline: nat) {
    match p.ending
    case ByReady =>
      p.core.Current().lifecycle.Ready? && p.core.Current().tunnel.Ready? && p.core.lastError == None
    case ByFailure(error) => p.core.Current().lifecycle.Error? && p.core.lastError == Some(error)
    case ByDeadline =>
      && deadline <= p.at
      && |p.core.chan| >= 2 && GivesUp(p.core, p.core.chan[|p.core.chan| - 2])
    case StillPolling => true
  }

  /** A poll of `core` begun at `start`: its observations in time, one publish for each and one more for a Ready or
      deadline end besides those of others, and the epoch active while it goes on. */
  ghost predicate OnTime(p: Progress, core: Core, start: nat, deadline: nat, poll: nat) {
    && Spaced(p.began, start, deadline, poll)
    && start <= p.at && (p.began != [] ==> p.began[|p.began| - 1] <= p.at)
    && (p.core.active <==> p.ending.StillPolling?)
    && EndedWell(p, deadline)
    && core.chan <= p.core.chan
    && |p.core.chan|
       == |core.chan| + p.others + |p.began| + (if p.ending.ByReady? || p.ending.ByDeadline? then 1 else 0)
  }

  lemma ReportFits(core: Core, report: Report, ports: Ports)
    requires report == Observe(None, core.observe, core.Current(), ports) && core.active
    ensures var core' := Carried(core, report);
            && core.chan <= core'.chan
            && (core'.active <==> report.decision.Warming?)
            && |core'.chan| == |core.chan| + (if report.decision.Ready? then 2 else 1)
            && (report.decision.Ready? ==>
                  core'.Current().lifecycle.Ready? && core'.Current().tunnel.Ready? && core'.lastError == None)
            && (report.decision.Failed? ==>
                  core'.Current().lifecycle.Error? && core'.lastError == Some(report.decision.error))
  {
  }

  lemma PassStaysOnTime(p: Progress, core: Core, start: nat, deadline: nat, poll: nat, pass: Pass)
    requires OnTime(p, core, start, deadline, poll) && p.ending.StillPolling?
    ensures var p' := AfterPass(p, deadline, poll, pass);
            && OnTime(p', core, start, deadline, poll)
            && (p'.ending.StillPolling? ==> |p'.began| == |p.began| + 1)
  {
    var p', mid := AfterPass(p, deadline, poll, pass), Elsewhere(p.core, pass);
    assert core.chan <= p.core.chan <= mid.chan;
    DeadlineGivesUp(mid);
    if p'.ending.ByDeadline? {
      assert p'.core.chan[..|mid.chan|] == mid.chan;
    } else {
      ReportFits(mid, Observe(None, mid.observe, mid.Current(), pass.ports), pass.ports);
    }
  }

  lemma {:induction false} PassesStayOnTime(p: Progress, core: Core, start: nat, deadline: nat, poll: nat,
                                            passes: seq<Pass>)
    requires OnTime(p, core, start, deadline, poll)
    ensures var p' := AfterPasses(p, deadline, poll, passes);
            && OnTime(p', core, start, deadline, poll)
            && (p'.ending.StillPolling? ==> |p'.began| == |p.began| + |passes|)
    decreases |passes|
  {
    if passes != [] && p.ending.StillPolling? {
      PassStaysOnTime(p, core, start, deadline, poll, passes[0]);
      PassesStayOnTime(AfterPass(p, deadline, poll, passes[0]), core, start, deadline, poll, passes[1..]);
    }
  }

  /** Every poll, whatever its passes meet and others publish between them, observes only before the deadline and an
      interval apart, so that the intervals before its observations fit in the budget; with as many passes as fill
      the budget it has ended, and with the deadline error only at or after the deadline. */
  lemma PollIsBounded(core: Core, start: nat, budget: nat, poll: nat, passes: seq<Pass>)
    requires core.active
    ensures var p := AfterPasses(Progress(core, StillPolling, [], start, 0), start + budget, poll, passes);
            && OnTime(p, core, start, start + budget, poll)
            && (p.began != [] ==> |p.began| * poll < budget)
            && (passes != [] && |passes| * poll >= budget ==> !p.ending.StillPolling?)
  {
    PassesStayOnTime(Progress(core, StillPolling, [], start, 0), core, start, start + budget, poll, passes);
    var p := AfterPasses(Progress(core, StillPolling, [], start, 0), start + budget, poll, passes);
    if p.began != [] { FitsBudget(p.began, start, budget, poll); }
  }
}
