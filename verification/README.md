# Verified model of the wake-on-demand proxy

The proxy forwards chat and embedding requests to a host that may be asleep. A request that finds no ready backend
starts a *bootstrap*: probe ssh, send a wake packet, ask the helper on the host to start and verify the model server, open
a tunnel, and poll until the backend is ready or a boot deadline passes. Concurrent requests join the bootstrap in progress
and wait on a versioned watch channel. Ready backends are used through a bounded scheduler, and what they answer passes a
rewriter that replaces the model name. This project states those parts in Dafny and proves what holds over all their runs.

## How it is organised

- **Bootstrap protocol.** `Protocol` is a labelled transition system: one step is one channel operation, one critical
  section of the bootstrap mutex, or one port reply, and callers, pollers, waiters and editors of the status interleave as
  they like. `Frames`, `SingleFlight`, `Views`, `Provenance` and `Epochs` hold its inductive invariants; `Bootstrap`,
  `Recovery`, `Invalidation`, `Timestamps`, `Degrades`, `Failures`, `Agreement`, `Endings` and `Leftovers` the theorems over runs. `Lifecycle` shows that one
  observation is a run of those steps, and `Manager` is the lifecycle core as an object whose methods are proved against
  the functions the steps use; `Polling` bounds its poll loop by the boot deadline.
- **Scheduler.** `Scheduler` is the transition system (FIFO semaphore, queue counter, tickets, timeouts, drops at every
  await), `SchedulerLaws` its theorems, `WarmExecution` the scheduler as an object, cut where other requests can come in between. `Cancellation` holds
  the cancellation token under every interleaving, and the guards as objects.
- **Rewriter.** `Text` has lines and substrings, `Rewriter` the rewriter over any JSON codec that obeys stated laws, `Json`
  a concrete codec that obeys them. The rewriter works on the lines of server-sent events (section 9.2 of the WHATWG HTML
  standard); that printed JSON holds no raw line break is section 7 of RFC 8259.
- **Pipeline and helper.** `Pipeline` and `PipelineLaws` account for every request, permit and upstream call;
  `Orchestrator` is the request path as code over shared counters, `Drops` joins pipeline and lifecycle managers. `Helper` is the chain behind an observation (helper,
  exit status, RPC, tunnel process), and `EndToEnd` says what a published Ready means when it comes through that chain.

Some results describe behaviour that a reader of the code might not expect; each is a theorem about the code as it is.

- A leader dropped before it finishes or hands over leaves the bootstrap active for ever, and no later call is answered
  Ready or Failed (`Recovery.DroppedOwnerIsFinal`, `Recovery.EndsUnlessDropped`).
- A waiter reads the status and the bootstrap state in two steps, so it can report the failure of an earlier epoch when the
  one it joined ended Ready (`Leftovers.StaleFailureIsReachable`), and its answer can be older than the end of that epoch.
  `Leftovers.JoinerIsFreshExactly` says exactly when an answer can be from before the epoch, and
  `Endings.JoinerSeesTheEndExactly` exactly when it can be from before its end. Failing calls still agree with each other in
  every run (`Failures.FailuresAgree`).
- A second `cancel` of one token would return before the listeners are notified (`Cancellation.SecondCancelPromisesNothing`,
  `Cancellation.ReturnedCancelExactly`); the scheduler's guards cancel each token at most once.
- The tunnel-drop counter never moves with the lifecycle manager behind it: it answers Ready only with a ready tunnel
  (`Drops.ManagersCountNoDrop`).
- A server reporting an empty model id
  passes the identity check (`Helper.EmptyIdMatches`).

## Model

| member | source | states |
|---|---|---|
| Bootstrap.NoLostWakeup | src/lifecycle.rs:487-541 | In every run, a waiter asleep with nothing new to see would go back to sleep if it looked now; none sleeps on a Ready or Error of a finished bootstrap |
| Bootstrap.SingleOwner | src/lifecycle.rs:286-303 | In every run, drops included, at most one task owns the bootstrap, every port call in flight is its own, and `active` holds exactly while it exists or after it was dropped |
| Bootstrap.ActiveMeansOwned | src/lifecycle.rs:552-595 | On runs that drop no owner, `active` holds exactly when an owner exists |
| Bootstrap.DecisionsAreLinearizable | src/lifecycle.rs:494-595 | Fast path, leader or joiner: a Ready or Failed carries a status that was the channel's current value between call and return, ready or Error respectively |
| Bootstrap.PublishedIsSound | src/lifecycle.rs:309-425 | From a well-formed start every published value is well formed, and every Ready is the initial one (or an edit of it) or reports a complete observation: ssh answered up, then the helper Ready, then the tunnel Ready |
| Bootstrap.WakesAreAccounted | src/lifecycle.rs:309-350 | An epoch has exactly one wake if its leader heard that the host is down while its snapshot was not Warming, and otherwise none; the wake is of the leader's own kind, so wakes never exceed epochs |
| Bootstrap.ObserveRequestIsHighest | src/lifecycle.rs:286-307 | While an epoch runs its observe request is Embeddings if leader or a joiner asked for embeddings, else Chat, and every helper observation asked for what that was at the time it read it |
| Bootstrap.ObserveRequestOnlyRises | src/lifecycle.rs:286-303 | Until the next epoch starts an observe request for embeddings stays one, whatever the order of arrival |
| SingleFlight.StepKeepsOwned | src/lifecycle.rs:286-303 | Every step keeps the ownership invariant that ties `active`, the owner and a dropped owner together |
| Views.StepKeepsViewed | src/lifecycle.rs:494-541 | Every step of any task keeps every local status a value held by the channel within the call, and every sleeper justified in sleeping |
| Views.SnapshotsAreCurrent | src/lifecycle.rs:500-502 | Every snapshot a call, an editor or the poller takes is the value current at that moment |
| Views.FastPathExactly | src/lifecycle.rs:553-559 | A call is answered without a bootstrap if and only if none is at work and the status it saw is ready |
| Views.ReadyEndKeepsTheStatus | src/lifecycle.rs:572-577 | A leader that saw Ready ends its epoch on the status then current, so what was edited since its publish stays |
| Views.StaleAnswersSayWarming | src/lifecycle.rs:504-541 | Time spent while a bootstrap is at work on anything but a Warming status is answered as Warming with the tunnel down and the rest as seen |
| Provenance.StepKeepsTraced | src/lifecycle.rs:309-425 | Every step keeps each value in flight or published well formed and traced to the observation that made it |
| Epochs.StepKeepsBooked | src/lifecycle.rs:286-307 | Every step keeps the books of all epochs: members, wakes, requests asked, ends, versions |
| Recovery.EndsUnlessDropped | src/lifecycle.rs:552-595 | An epoch in progress can end if and only if its owner was not dropped |
| Recovery.EndEpoch | src/lifecycle.rs:440-492 | From any reachable state with an owner there is a run that ends the epoch and moves no other task |
| Recovery.DroppedOwnerIsFinal | src/lifecycle.rs:566-595 | After the owner is dropped the bootstrap stays active in every continuation, no port is called again, no further call is answered Ready or Failed |
| Recovery.ADropBlocksForEver | src/lifecycle.rs:566-575 | One call dropped while it waits for ssh reaches that state |
| Invalidation.MarkWarmingInvalidates | src/lifecycle.rs:610-615 | Marking while no epoch runs makes every later Ready one complete observation begun after the mark, in every continuation, if and only if no degrade holds a Ready it read before |
| Timestamps.WakeTimestampIsKept | src/lifecycle.rs:309-350 | From the leader's first publish to the epoch's end every published value carries the epoch's wake timestamp, in every continuation, if and only if no edit in flight holds a status without it |
| Timestamps.FailedWakeIsStamped | src/lifecycle.rs:326-342 | A leader whose wake failed publishes only the end of its epoch, and that value carries the timestamp for good |
| Degrades.EditsShow | src/lifecycle.rs:601-615 | Committing a degrade makes what it read current with embeddings degraded for its reason, committing a mark makes it Warming with the tunnel down, and nothing else of it changes |
| Degrades.OnlyDegradesDegrade | src/lifecycle.rs:352-425 | Over every run a Ready that comes from an observation says of embeddings what the helper reported, unless they were degraded after the observation |
| Agreement.JoinersAreFresh | src/lifecycle.rs:494-517 | When nothing slips in between a read and its use, a joiner's Ready or Failed is of a status published at or after its epoch's end |
| Agreement.FailuresNameTheEnd | src/lifecycle.rs:487-517 | On such runs a call that fails carries exactly the error the last epoch started before its answer ended with |
| Failures.FailuresAgree | src/lifecycle.rs:487-517 | In every run, calls that fail with the same number of epochs started fail with the same error; it is the error the last of those epochs ended with if and only if that epoch ended with one |
| Endings.JoinerSeesTheEndExactly | src/lifecycle.rs:494-517 | Under every interleaving a joiner's settled answer is of a status published at its epoch's end or later, in every continuation, if and only if, as it joins, the epoch has lost its owner, or its owner is about to finish, no settled status is current and no degrade holds one |
| Leftovers.JoinerIsFreshExactly | src/lifecycle.rs:501-517 | Under every interleaving a joiner's settled answer is never from before its epoch, in every continuation, if and only if no settled status from before is current or on its way when it joins |
| Leftovers.StaleFailureIsReachable | src/lifecycle.rs:501-517 | From the default status: an epoch fails, the next one ends Ready, and a joiner of the second is answered Failed with an error nobody reported |
| Lifecycle.ObserveSays | src/lifecycle.rs:309-425 | For all replies, in plain fields: when a wake goes out and stamps the clock, what is published, decided and reported as error, and which fields of the snapshot stay |
| Lifecycle.WakeStepExactly | src/lifecycle.rs:326-342 | The run of an observation holds a wake if and only if the observation sent one |
| Lifecycle.ObserveIsARun | src/lifecycle.rs:309-425 | One uninterrupted observation is a legal run of protocol steps that publishes, decides and leaves its task as the observation says |
| Manager.LifecycleCore.StartOrJoinBootstrap | src/lifecycle.rs:286-303 | Starts exactly when no epoch is active, clearing the error; otherwise only raises the observe request to Embeddings |
| Manager.LifecycleCore.FinishBootstrap | src/lifecycle.rs:487-492 | Publishes, records the error and clears `active`, nothing else |
| Manager.LifecycleCore.MarkWarming | src/lifecycle.rs:610-615 | Publishes the current status as Warming with the tunnel down and every other field as before |
| Manager.LifecycleCore.DegradeEmbeddings | src/lifecycle.rs:601-608 | Publishes the current status with embeddings Degraded for the reason and every other field as before |
| Manager.LifecycleCore.ObserveOnce | src/lifecycle.rs:309-425 | Decides, publishes and wakes as ObserveSays states; with ssh down, a request, a snapshot that is not Warming and a wake that succeeds it publishes a Warming status stamped with the clock |
| Polling.BudgetRunsToTheDeadline | src/lifecycle.rs:427-438 | Over the numbers: now plus the budget is the last wake attempt, or now without one, plus the hard deadline, on a clock that saturates; nothing if that is past |
| Manager.LifecycleCore.BootstrapDeadline | src/lifecycle.rs:427-438 | Without a wake the budget is the hard deadline; with one it runs to the hard deadline after it; it is within the hard deadline if and only if the last wake is not ahead of the clock or the sum saturates |
| Polling.FitsBudget | src/lifecycle.rs:440-485 | Observations a poll interval apart and before the deadline are at most (budget - 1) / interval, none for an empty budget |
| Polling.PassIsPlain | src/lifecycle.rs:444-484 | One pass in plain terms: an observation of the current status an interval on if that is before the deadline, acted on by its report; else the deadline error on a status now Error with the tunnel down |
| Polling.PollIsBounded | src/lifecycle.rs:440-485 | Whatever its passes meet and other tasks publish or join between them, a poll observes only before the deadline and an interval apart, within that bound; with more passes it has ended; it publishes once per observation and once more at a Ready or deadline end; the deadline error comes only at or after the deadline |
| Polling.PassesStayOnTime | src/lifecycle.rs:444-484 | Every pass keeps that: observations in time, epoch active while polling goes on, channel extended as said, error and status of each ending |
| Manager.LifecycleCore.PollOnce | src/lifecycle.rs:444-484 | One pass of the loop, after whatever others publish and join while it waits, leaves core, ending and times exactly as the pass function says |
| Manager.LifecycleCore.Poll | src/lifecycle.rs:444-485 | The loop computes the passes one after the other until one ends it |
| Manager.LifecycleCore.StartBootstrap | src/lifecycle.rs:440-485 | The poll with the budget of its deadline, hence within the bound on observations, the epoch active if and only if passes ran out; it ends by deadline only once the hard deadline after the last wake, or after its start, is reached |
| Manager.LifecycleCore.WaitForReadyOrTimeout | src/lifecycle.rs:494-541 | A waiting call answers on the first look that settles or finds the time spent; Ready and Failed only with no epoch active, Warming only when the time is spent and the look was not decisive |
| Manager.LifecycleCore.EnsureBackend | src/lifecycle.rs:552-595 | In plain fields: the fast path changes nothing; a joiner only raises the request; a leader wakes, publishes and decides as ObserveSays states and finishes, or leaves the epoch active to exactly one spawned poller |
| SchedulerLaws.SchedulerConserves | src/scheduler.rs:92-180 | Free and held permits always make the limit, `queued` is the number of tickets within its limit, requests inside stay within the two limits, the ticket subtraction never saturates, all is returned when all are done |
| SchedulerLaws.SchedulerIsFair | src/scheduler.rs:102-137 | No permit is free while a request waits for one; none is served before one that queued earlier and still waits |
| SchedulerLaws.ServedWithinReleases | src/scheduler.rs:102-120 | A request with k ahead of it is served within k + 1 returned permits unless it times out or is dropped |
| SchedulerLaws.ExecutionAndCancellation | src/scheduler.rs:102-137 | A completed request ran once, a rejected one never; a token is raised only for a request dropped while it ran, and always before its permit is given back |
| SchedulerLaws.StepKeepsLawful | src/scheduler.rs:92-180 | Every step keeps queue, permits, order of service and ledger |
| WarmExecution.WarmExecutionScheduler.TryFirst | src/scheduler.rs:102-104 | A new request begins its operation if and only if a permit is free |
| WarmExecution.WarmExecutionScheduler.Enter | src/scheduler.rs:104-111 | A request that found none is turned away if and only if the queue is full, takes a permit freed since, or waits last with a ticket; permits and tickets stay conserved on the object |
| WarmExecution.WarmExecutionScheduler.Resumed | src/scheduler.rs:112-132 | The slot in the queue is given back before the operation begins |
| WarmExecution.WarmExecutionScheduler.TimedOut | src/scheduler.rs:112-122 | The waiter leaves the queue, or the permit given meanwhile goes to the next one, and the slot is given back |
| WarmExecution.WarmExecutionScheduler.DropWaiting | src/scheduler.rs:112-118 | Dropped while waiting: a permit given meanwhile goes to the next waiter, the slot is given back |
| WarmExecution.WarmExecutionScheduler.Complete | src/scheduler.rs:132-134 | The permit goes back, the token stays as it was, permits and tickets stay conserved on the object |
| WarmExecution.WarmExecutionScheduler.DropRunning | src/scheduler.rs:129-134 | Dropped while running: the token is raised, then the permit goes back |
| Cancellation.NoListenerIsForgotten | src/scheduler.rs:31-49 | Under every interleaving of `cancel` and `cancelled`, nobody is blocked once the first `cancel` has completed; before that its notification is still to come and frees everybody |
| Cancellation.ListenersReturnOnlyRaised | src/scheduler.rs:37-45 | A listener returns only on a raised token, and one that looks at a raised token returns |
| Cancellation.SecondCancelPromisesNothing | src/scheduler.rs:31-35 | A run in which a second `cancel` has returned and a listener is still blocked |
| Cancellation.BlockedExactly | src/scheduler.rs:31-49 | On a raised token a listener is blocked if and only if it is parked and the notification is still to come |
| Cancellation.ReturnedCancelExactly | src/scheduler.rs:31-49 | Once any `cancel` has returned, nobody is blocked now and in every continuation if and only if the notification has been sent or nobody is parked |
| Cancellation.RequestCancellation.Cancel | src/scheduler.rs:31-35 | Raises the token, notifies once |
| Cancellation.CancelOnDrop.Drop | src/scheduler.rs:200-206 | Raises the token and notifies if and only if still armed |
| Cancellation.QueueTicket.Reserve | src/scheduler.rs:145-166 | A ticket if and only if the queue has room, counted exactly once |
| Cancellation.QueueTicket.Drop | src/scheduler.rs:169-180 | Gives the slot back the first time and nothing after |
| Rewriter.RewriteModelAlias | src/forward.rs:171-232 | The loop over lines computes the rewriting function, for every codec and body |
| Rewriter.RewriteIsLinewise | src/forward.rs:171-178 | The early return for bodies without `"model"` changes nothing: rewriting is always line by line |
| Rewriter.ChunkwiseIsWhole | src/forward.rs:150-160 | For a body cut at line ends into any chunks, rewriting the chunks one by one is rewriting the whole |
| Rewriter.LinesOfRewrite | src/forward.rs:171-232 | The lines of the rewritten body are the rewritten lines of the body |
| Rewriter.RewriteAbsorbs | src/forward.rs:171-232 | Rewriting to one alias and then another is rewriting to the second; so rewriting is idempotent |
| Rewriter.RewriteKeepsShape | src/forward.rs:171-232 | Same number of lines, each with its trailing CR and `data: ` prefix; a line without `"model"` or that is not JSON is untouched, any other differs only at its top-level model |
| Json.ParseReadsBack | src/forward.rs:186-197 | What the concrete codec prints, it reads back, for every value |
| Json.TrailingTextIsRejected | src/forward.rs:186-187 | A value followed by text that does not go on with its digits is no JSON: nothing is read in part |
| Json.MemberAloneIsRejected | src/forward.rs:203-204 | A member alone on its line, as in an object printed over several, is no JSON |
| Json.CodecIsLawful | src/forward.rs:186-217 | The concrete codec obeys every law the rewriter relies on |
| Rewriter.SeamDecides | src/forward.rs:150-160 | A body cut in two anywhere is rewritten piecewise as it is whole if and only if the line with the cut is |
| Json.CutIsNotRewritten | src/forward.rs:150-160 | A body cut inside a line keeps the name it came with, though the whole body would be rewritten |
| PipelineLaws.CountersAreExact | src/orchestrate.rs:21-216 | Over every run each counter (tunnel drops apart) is exactly the number of requests it stands for |
| PipelineLaws.MetricsConserve | src/orchestrate.rs:21-216 | Requests received are the sum of warm, degraded, forwarding-error, queue-full, queue-timeout, wake-failure and cold-start counts, the untold and the pending; the pending are nought exactly when the rest adds up |
| PipelineLaws.ColdStartsAreWakeAttempts | src/orchestrate.rs:34-45 | Cold starts exceed wake attempts by the requests between the two increments; they are equal exactly when there is none |
| PipelineLaws.ColdPermitsConserve | src/orchestrate.rs:58-75 | Free and held cold-start permits always make the limit; all are free once every request has its response |
| PipelineLaws.AtMostTwoAttempts | src/orchestrate.rs:124-201 | A request calls upstream at most twice, the second time only after the first call found nobody and a fresh decision was Ready |
| PipelineLaws.ResponsesFollowReplies | src/orchestrate.rs:27-216 | Over every run each response is the one its upstream reply, the scheduler or the decision calls for; so each exact counter counts what those did |
| PipelineLaws.TunnelDropsStayZero | src/state.rs:77-87 | If the lifecycle answers Ready only with a ready tunnel, no tunnel drop is ever counted |
| Drops.ManagersCountNoDrop | src/state.rs:77-87 | With first decisions that calls of the lifecycle managers were answered, in any runs of theirs, no tunnel drop is ever counted |
| Orchestrator.Metrics.Inc | src/metrics.rs:50-92 | Raises its counter by one and leaves the others |
| Orchestrator.Orchestrator.Handle | src/app.rs:190-255 | Receiving counts the request under its kind before validating it, and the counters still account for every request |
| Orchestrator.Orchestrator.AcquireColdPermit | src/orchestrate.rs:58-75 | Only cold requests take a permit, and are refused exactly when none is free |
| Orchestrator.Orchestrator.CheckTunnelDrop | src/state.rs:77-87 | Swaps the flag of its kind only; true exactly when the tunnel was ready and is not |
| Orchestrator.Orchestrator.HandleReady | src/orchestrate.rs:77-105 | Counts a drop if the tunnel was ready and is not, keeps the flag of its kind, refuses degraded embeddings, else answers and counts by the forward's outcome |
| Orchestrator.Orchestrator.ForwardViaScheduler | src/orchestrate.rs:107-216 | Response and counters by outcome, written out: success is warm, another error a forwarding error, unsupported embeddings degraded, a full queue and a timeout each their own, nobody found a cold start with its wake attempt |
| Orchestrator.Orchestrator.Execute | src/orchestrate.rs:21-56 | A whole request answers, counts and sets flags by its answers as written out, its permit is back, and after it every counter of the proxy is the number of requests it stands for, together they account for every request received, and free and held permits make the limit |
| Helper.WaitForServer | src/helper.rs:665-674 | Ready if and only if the server answers a poll before the deadline; at most two tries a second, none for a zero timeout |
| Helper.UpInTimeIsFound | src/helper.rs:665-674 | A server that is up for the last half second, and the longest that asking took before that, is found |
| Helper.EnsureStarted | src/helper.rs:378-528 | Ok if and only if the unit runs, the server answered in time and its id is in a substring relation with the configured path; Mismatch if and only if only the relation fails |
| Helper.ObserveOverSsh | src/host.rs:156-256 | The RPC computes the observation of helper, exit status and mapping |
| Helper.ObservationMeansVerified | src/bin/helper.rs:94-115 | An observation succeeds if and only if the host was verified, and then it says Ready |
| Helper.VerifiedObservation | src/host.rs:186-256 | Then it serves chat and embeddings with no reason and no error, and its units are those of the status call, or else the one ensure-started reported |
| Helper.EmptyIdMatches | src/helper.rs:445-447 | An empty reported id passes the identity check for every path |
| Helper.SshTunnelManager.CreateTunnel | src/host.rs:307-339 | A child if and only if it spawned and was seen running |
| Helper.SshTunnelManager.EnsureTunnel | src/host.rs:343-372 | Exactly when it is Ready, Down or an error, and which child is in the slot after: the old one if it still runs or cannot be asked, else one seen running, else none |
| EndToEnd.ReadyMeansVerified | src/lifecycle.rs:352-425 | With helper replies given by the RPC about the host as it is at each moment, every Ready ever published, if not there from the start, comes from an observation at whose helper call the host's server was up in time and reported a matching id |
| EndToEnd.ReadyServes | src/lifecycle.rs:352-425 | Behind the helper chain every Ready ever published, if not there from the start, serves chat, and serves embeddings unless they were degraded after its observation |
| EndToEnd.HelperDecides | src/host.rs:239-256 | Behind the chain a helper reply leads to the tunnel if the host is verified and otherwise ends the epoch in Error with the error given |
| EndToEnd.PollingMeansSshOrTunnel | src/lifecycle.rs:440-485 | Polling goes on only because the host did not answer ssh or the tunnel was not up |

## Left out

- Agreement.JoinersAreFresh: stated for runs in which no publish falls between a waiter's or editor's read and its use; under every interleaving Endings.JoinerSeesTheEndExactly gives the exact condition for the same property.
- Agreement.FailuresNameTheEnd: stated for the same runs; in all others Failures.FailuresAgree says exactly which error a failing call carries.
- Rewriter.RewriteAbsorbs: relies on the codec laws; serde_json itself (key order, number formatting) is not part of this model.
- Json.CodecIsLawful: the concrete codec is compact JSON with natural numbers; whitespace, fractions, exponents and escapes of characters from U+0020 on are not read.
- Json.ParseReadsBack: of that codec only.
- Rewriter.ChunkwiseIsWhole: chunks are texts cut at line ends; Rewriter.SeamDecides is exact for any cut, and lossy UTF-8 decoding is outside both.
- Manager.LifecycleCore.EnsureBackend: runs without interruption up to its waiting loop, whose looks are arbitrary; interleavings are the business of Protocol.
- Manager.LifecycleCore.StartBootstrap: the number of passes is bounded by the sequence given, and with a zero poll interval the loop need not end.
- Polling.PollIsBounded: others publish and join while a pass waits, not between its read and its own publish; that interleaving is in Protocol.
- Orchestrator.Orchestrator.Execute: one request without interruption, after any steps before it; mark_warming and the degrade it calls are steps of Protocol. Pipeline interleaves requests.
- The wait budget, sleeps and timeouts may expire at any time; clock values are arbitrary.
- Counters are naturals: no wrap at 64 bits. Other integers saturate where the code says so.
- Atomics are sequentially consistent steps; Tokio's semaphore, watch channel and Notify follow their documented contracts; lock poisoning and panics are absent.
- The scheduler bound covers the operation only: streaming bodies still flowing and the retry past the scheduler are not bounded, as in the code.
- Packets, ssh, systemd, HTTP and process calls are ports with arbitrary replies.
- The texts of the helper's messages and of port errors are carried along, not constrained.
- Request validation, error bodies, routing, configuration and environment parsing: single-branch facts.
- Lease commands, unit listing, status output and target selection of the helper: not on the bootstrap path.
