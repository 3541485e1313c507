# OpenRide: verified models of the simulation and dataplane cores

A Dafny model of the parts of OpenRide that have to keep agreeing while several threads, processes
and failures work against them:

* the **step barrier** of the scheduler and the agents' **sleep protocol** (`Scheduler`,
  `SchedulerFacts`, `Agent`, `Protocol`, `ProtocolInvariant`, `ProtocolTheorems`, `ProtocolOnce`,
  `ProtocolRuns`, `HandlerRace`, `Wakeup`, `OrphanGuard`);
* the **run loop** around it: capped spawning, drain and shutdown, and the optimistic status write
  (`Spawner`, `RunLoop`, `StatusWrite`);
* the dataplane's **supervised threads** (`Supervisor`, `SupervisorRuns`), the **end of a run** and its
  **loss audit** (`FinalCapture`, `LossAudit`, `LossAuditRuns`), its **code books** (`CodeBook`,
  `CodeBookRuns`), the **live bus** and the **live stream** (`LiveBus`, `LiveStream`);
* **dependency-ordered starting** of the services (`ServiceStart`) and the buffered **KPI store**
  (`KpiStore`).

Code that changes things in place is modelled by classes with those fields and by loops; each method
is proved against a function on the value of the fields (`View()`), and the laws are proved about
those functions.  Where threads interleave, one event is one critical section or one unprotected
action, and the laws range over every sequence of events.

## Assumptions

* Replies of one agent arrive in order and are not lost; an unsubscribed agent hears no broadcast; a
  broadcast may be lost.  Agent ids are not reused.  Replies carry a real step number.
* In `Protocol` a reply is handled as one unit, which may fall between any two of the nine assignments
  of the reset; the sweep (openride_scheduler.py:455-464) and the scan of the collection (:286) are
  atomic with respect to replies.  `HandlerRace` drops the first of these: there the handler is cut
  after its step test, after the test whether the agent is awaited, and between recording the agent and
  counting down, and the reset, taken as one event, may fall in any of these gaps.  `Wakeup` has the same
  gaps and cuts the rest of the handler into count-down, test and signal.
* An agent that announces a nap has no wake signal for it (`sleep_steps_hint() != 0` implies none).
* A status PATCH has reached the server by the time the call returns, or never does; every write gives
  the document a new etag, and the server answers 412 exactly for a stale one.  Others may write the
  document at any time, but nobody else writes its status.
* One sweep thread; `evict` and `resident_runs` of the hot tier do not raise.
* Clocks are monotone reals given from outside; network and store outcomes are inputs.

## Where the code promises more than it keeps

Each line says when the promise fails: after "iff" comes the exact condition, with the lemma that proves
it; the lemmas before it are inputs or runs of the model in which the promise fails.  Where none stands
before it, every input that meets the condition is one.

* Ledger and agent, registered and with no reply in flight, can disagree on a nap:
  `ProtocolRuns.AgreementNeedsALiveAgent`; iff the agent was stopped in a nap that is not over,
  `ProtocolTheorems.LedgerAgreement`.
* A live agent that naps truthfully can be pruned as silent: `ProtocolRuns.NapInFlightIsPruned`,
  `ProtocolRuns.UnhandledNapIsPruned`; iff it was expected and its answer is unhandled, or something of
  its own was in flight when the step began and it has not answered since,
  `ProtocolOnce.NappingAgentIsPrunedIff`.
* The barrier can be wrong when the reset falls inside the handler: `HandlerRace.AnswerOfTheLastStepCounts`,
  `HandlerRace.LateAnswerPrunesAnother`, `HandlerRace.RecordedAnswerCountsTwice`; iff the reply it caught
  is not harmless, `HandlerRace.CountIsRightIff`.
* The drain rule can see no awake agent while one is awake, since the ledger can hold agents that are not
  registered: `ProtocolRuns.GhostSleeper`; iff at least as many of those as of awake ones, `RunLoop.DrainedMeans`.
* A step can signal twice, and a fully answered one not at all: `Wakeup.StepSignalsTwice`,
  `Wakeup.SignalCanBeSkipped`; twice iff it was counted down once more than it expected, by a reply its
  reset caught, and the last test read zero or less; not at all, if counted down as often as it expected,
  iff that test came late and read more; `Wakeup.StepSignalsIff`.  No wake-up is lost
  (`Wakeup.NoLostWakeup`).
* The orphan guard can tear down agents of a live run: `OrphanGuard.FalseOrphan`; iff H + D exceeds half
  the timeout, `OrphanGuard.OrphanGuardIsSharp`.
* An exhausted source may not have launched everything: iff something is registered for a negative step,
  `Spawner.ExhaustedMeansAllLaunched`.
* A run can stop before its horizon: `RunLoop.EmptyRunStopsEarly`; iff the drain cap is negative and the
  horizon positive, `RunLoop.StopsEarlyIff`.
* A backoff can be above its maximum: iff the initial one is, `SupervisorRuns.FirstDelayClampedIff`.
* Two hauliers can share a code in an orderly life: iff there are more than 255,
  `CodeBookRuns.BooksStayInjective`.
* Two persists that overlap can take an entry off the disk: `CodeBookRuns.OverlapLosesAnEntry`; iff the later
  write is not skipped and a map it writes has fewer names than the disk's, `CodeBookRuns.WriteKeepsIff`.
* A failed read can take an entry off the disk, if the restore had failed too:
  `CodeBookRuns.FailedRestoreAndReadLoseAnEntry`; iff the write is made and a live map is neither
  empty nor holds the disk's, `CodeBook.PersistKeepsIff`.  After a restore and without an overlap it
  cannot (`CodeBookRuns.DiskOnlyGrows`).
* A failed restore can put two hauliers on one code, with no conflict counted:
  `CodeBookRuns.FailedRestoreCollides`; iff a new name's code lies among those on disk,
  `CodeBookRuns.MergedInjectiveIff`.
* A slab rebuilt with the same slots misleads a connected client, although the comment on the delta says
  that the contradiction is found: `LiveStream.RebuiltSlabMisleads`; while lookups succeed, iff a slot of a
  frame sent without a due book has changed its agent since the client was told,
  `LiveStream.StreamResolvedIff`.
* Positions can be on no frame after an LRU eviction: `LossAuditRuns.LruLosesPositions`; with no later
  position, iff the run was neither idle nor a count short of it, `LossAudit.LruLosesIff`; after a revival
  and in general, `LossAudit.CoversIff`.
* The loss audit can fire over a run that is wholly on disk, and stay silent over a loss:
  `LossAuditRuns.AuditFiresFalsely`, `LossAuditRuns.RevivalUnderTheSweepFiresFalsely`,
  `LossAuditRuns.AuditMissesALoss`; it fires iff a position was counted after those the last capture took
  account of, or none was counted since the counters were dropped but a capture was made,
  `LossAudit.AuditFiresIff`; what that says about frames, with no position in hand, `LossAudit.AuditMeans`.
* A replayed terminal can count the same loss again: iff the run was not resident and its counters differed
  before the first one, `FinalCapture.ReplayIsIdempotent`.

## Model

| member | source | states |
|---|---|---|
| Scheduler.OpenRideScheduler.HandleReply | apps/simulation/openride_scheduler.py:172-253 | one reply: the whole new state, and the single wake-up is asked for exactly when the count drops to zero or below |
| Scheduler.OpenRideScheduler.NoteAlive | apps/simulation/openride_scheduler.py:185-193 | a late completed or ready reply puts the stashed entry back; any reply ends the boot phase |
| Scheduler.OpenRideScheduler.NoteSleep | apps/simulation/openride_scheduler.py:211-233 | a reply announces a timed or an indefinite nap, or ends one |
| Scheduler.OpenRideScheduler.TallyReply | apps/simulation/openride_scheduler.py:235-253 | only a reply for the current step from an agent expected and not yet heard counts; shutdown and error replies are noted either way |
| Scheduler.OpenRideScheduler.BeginStepBarrier | apps/simulation/openride_scheduler.py:265-300 | expired naps go, booting and sleeping agents are not expected, all counters are reset |
| Scheduler.ResetAll | apps/simulation/openride_scheduler.py:292-300 | the nine assignments, made one after the other on any old state, amount to one fresh barrier |
| Scheduler.OpenRideScheduler.Sweep | apps/simulation/openride_scheduler.py:451-464 | whatever order the set is visited in: shut-down and silent agents leave, silent ones are stashed within the bound |
| Scheduler.OpenRideScheduler.RemoveAgent | apps/simulation/openride_scheduler.py:151-156 | the agent and everything the ledger holds of it go |
| Scheduler.OpenRideScheduler.AddAgent | apps/simulation/openride_scheduler.py:117-136 | the agent is registered as booting |
| Scheduler.OpenRideScheduler.StepTimeoutHandler | apps/simulation/openride_scheduler.py:489-548 | a timeout raises exactly at the configured number of consecutive steps over tolerance; any other timeout resets or extends the streak |
| Scheduler.OpenRideScheduler.Step | apps/simulation/openride_scheduler.py:379-483 | one whole step, given the replies that arrive and how the wait ends; when it raises nothing is swept and time stands still |
| SchedulerFacts.TallyIsRecount | apps/simulation/openride_scheduler.py:235-253 | the incremental counters equal an independent recount of the replies: first answers per agent, per action, and those that stepped |
| SchedulerFacts.TallyOkAll | apps/simulation/openride_scheduler.py:243-251 | responded is a subset of expected, outstanding is the difference of the sizes, the reactions sum to the responded, did-step is at most that |
| SchedulerFacts.StragglersIgnored | apps/simulation/openride_scheduler.py:235-253 | replies for other steps never touch the counters |
| SchedulerFacts.TrimKeepsNewest | apps/simulation/openride_scheduler.py:461-463 | the bounded stash keeps exactly the newest entries |
| SchedulerFacts.ReplyRoster | apps/simulation/openride_scheduler.py:185-193 | a reply adds at most its own sender to the collection, keeps everyone else, and keeps stash and collection disjoint |
| SchedulerFacts.ReapAll | apps/simulation/openride_scheduler.py:455-464 | a sweep removes exactly the visited agents and stashes only silent ones, each with its own entry |
| Agent.OpenRideAgent.HandleMessage | apps/container_logistics/openride_agent.py:149-264 | zombie gate, sleep gate, work with its nap announcement, shutdown and crash: new state and reply |
| Agent.OpenRideAgent.HandleAppEvent | apps/container_logistics/openride_agent.py:96-107 | an event on the own topic resubscribes an unsubscribed sleeper |
| Agent.OpenRideAgent.HandleNotice | apps/container_logistics/openride_agent.py:97-103 | the direct notice resubscribes and is then treated as a broadcast |
| Agent.OpenRideAgent.HandleHeartbeatFailure | apps/container_logistics/openride_agent.py:270-305 | liveness refresh at half the timeout, teardown at the full one |
| ProtocolInvariant.StepKeeps | apps/simulation/openride_scheduler.py:172-300 | every event of the two sides keeps the protocol invariant, with stragglers between any two assignments of the reset |
| ProtocolInvariant.ReachableInv | apps/simulation/openride_scheduler.py:172-483 | so it holds in every reachable state |
| ProtocolTheorems.LedgerAgreement | apps/simulation/openride_scheduler.py:211-233 | with no reply in flight, ledger and agent agree on the nap, up to expiry, exactly unless the agent was stopped during a nap that is not over; for a live agent always |
| ProtocolTheorems.StoppedAsleepMeans | apps/container_logistics/openride_agent.py:237-261 | the history bit used there is set exactly if some earlier event made the sleeping agent handle a stop |
| ProtocolTheorems.ExpectedAgentAnswers | apps/container_logistics/openride_agent.py:165-185 | a live agent that is waited for, with nothing of its own in flight when the step began, does not swallow the broadcast: it replies, for this step |
| ProtocolTheorems.BarrierIsExact | apps/simulation/openride_scheduler.py:284-300 | from the broadcast to the end of the step the lock-free counters are an exact recount, in every reachable state, each reply being handled as one unit |
| ProtocolTheorems.WhoLeaves | apps/simulation/openride_scheduler.py:451-473 | an agent leaves if and only if the sweep finds it shut down or expected and silent, or a final step ends while it naps; a booting agent is never swept |
| ProtocolTheorems.NappingVictim | apps/simulation/openride_scheduler.py:284-290 | a silent victim whose nap is in the ledger announced it in a reply for an earlier step, in flight when the step began |
| ProtocolOnce.NappingAgentIsPrunedIff | apps/simulation/openride_scheduler.py:451-464 | a live napping agent is swept exactly if it was expected and its answer to this step is unhandled, or something of its own was in flight when the step began and it has not answered since |
| ProtocolTheorems.StashedUntilReinstated | apps/simulation/openride_scheduler.py:185-191 | a stashed entry survives every event until a completed or ready reply restores that same entry or the bound evicts it |
| ProtocolTheorems.PrunedIsStashed | apps/simulation/openride_scheduler.py:458-463 | every silent agent the sweep removes is stashed with its entry, unless the bound is reached |
| ProtocolTheorems.StashDisjoint | apps/simulation/openride_scheduler.py:185-191 | stash and collection are disjoint, and the bound holds, in every reachable state |
| ProtocolTheorems.PrunesWithinTolerance | apps/simulation/openride_scheduler.py:339-353 | a wait that ends by its own rule prunes at most tolerance times the agents counted at its start |
| ProtocolRuns.AgreementNeedsALiveAgent | apps/container_logistics/openride_agent.py:260-261 | a reachable state in which ledger and agent disagree: the agent shut down during its nap |
| ProtocolRuns.NapInFlightIsPruned | apps/simulation/openride_scheduler.py:286-290 | a reachable state in which a live, truthfully napping agent is about to be pruned, because its announcement was in flight when the step began |
| ProtocolRuns.UnhandledNapIsPruned | apps/simulation/openride_scheduler.py:455-464 | a reachable state in which it is, because its answer to this very step, which announces the nap, has not been handled when the sweep comes |
| ProtocolRuns.GhostSleeper | apps/simulation/openride_scheduler.py:211-226 | a reachable state whose ledger holds an agent that is not registered |
| HandlerRace.HandlerInPieces | apps/simulation/openride_scheduler.py:172-253 | the handler cut in four pieces is, uninterrupted, the handler |
| HandlerRace.CountIsRightIff | apps/simulation/openride_scheduler.py:235-251 | with resets in any gap of the handler: the count of outstanding agents is the number whose answer to this step has not been handled exactly if no reply was caught by the reset, or it is still in hand, or was caught before the second test and its agent is not expected, or was caught before the record and its agent is expected and has answered again |
| HandlerRace.RespondersAreRightIff | apps/simulation/openride_scheduler.py:243-247 | and the responders are those whose answer has been handled exactly in those cases or if the caught reply had been recorded |
| HandlerRace.BeginFits | apps/simulation/openride_scheduler.py:265-300 | the reset here is the one of `Wakeup`, and a caught reply is counted in addition there exactly if it is past the second test and its agent is not expected, or recorded |
| HandlerRace.CountFits | apps/simulation/openride_scheduler.py:251-253 | and so is the count-down with the test and the signal |
| HandlerRace.AnswerOfTheLastStepCounts | apps/simulation/openride_scheduler.py:235-247 | a run in which the first answer of a booted agent is counted for the next step, whose wait ends without its new answer |
| HandlerRace.LateAnswerPrunesAnother | apps/simulation/openride_scheduler.py:243-251 | a run in which a late answer takes another agent's place in the count, and that agent is pruned |
| HandlerRace.RecordedAnswerCountsTwice | apps/simulation/openride_scheduler.py:247-251 | a run in which a recorded answer is counted after the reset and its agent answers again, so that another agent is pruned |
| Wakeup.NoLostWakeup | apps/simulation/openride_scheduler.py:355-374 | a parked loop with nothing outstanding has its wake-up set, queued, or in the hands of the handler |
| Wakeup.WakesWithoutPoll | apps/simulation/openride_scheduler.py:363-374 | it is woken within four actions without the poll, and no action of the other thread moves that away |
| Wakeup.StepSignalsIff | apps/simulation/openride_scheduler.py:243-253 | of any step, past or current, whose handler is done: one signal for every count-down that found the count at zero or below, but for a late last test; a non-empty step signals at most twice, twice exactly if it was counted down once more than it expected, which takes a reply its reset caught, and the last test still read zero or less |
| Wakeup.HeardStepSignalsIff | apps/simulation/openride_scheduler.py:243-253 | a current non-empty step whose expected agents are all among the responders has signalled once, or twice exactly if its reset caught a reply that is counted in addition |
| Wakeup.LateTestMeans | apps/simulation/openride_scheduler.py:251-253 | the two marks of a late test are set exactly if some earlier test of the count read otherwise than the count-down had left it |
| Wakeup.StepSignalsTwice | apps/simulation/openride_scheduler.py:243-253 | a run in which a step signals twice |
| Wakeup.SignalCanBeSkipped | apps/simulation/openride_scheduler.py:251-253 | a run in which a fully answered step never signals: the loop opens the next step before the handler tests the count |
| OrphanGuard.OrphansAreReclaimed | apps/container_logistics/openride_agent.py:293-305 | once messages stop, every agent is down within the timeout plus one heartbeat |
| OrphanGuard.NoFalseOrphan | apps/container_logistics/openride_agent.py:275-291 | if heartbeat plus broadcast period fit in half the timeout, a live run tears nobody down |
| OrphanGuard.FalseOrphan | apps/container_logistics/openride_agent.py:285-296 | over that bound some live sleeper is torn down |
| OrphanGuard.OrphanGuardIsSharp | apps/container_logistics/openride_agent.py:270-305 | so the guard is safe exactly up to H + D = timeout / 2 |
| Spawner.BatchedAgentSource.constructor | apps/simulation/batched_agent_source.py:18-73 | after the registration loops every item is listed under its own step, in order, or among the bootstrap agents |
| Spawner.BatchedAgentSource.AgentsForStep | apps/simulation/batched_agent_source.py:78-95 | non-orders of the step, then at most the cap of backlog and new orders in order; the rest is the new backlog |
| Spawner.Replay | apps/simulation/batched_agent_source.py:78-98 | calling the object for steps 0, 1, 2, ... yields the launches and the exhaustion the laws below are about |
| Spawner.OrdersFifo | apps/simulation/batched_agent_source.py:80-95 | orders launched so far followed by the backlog are exactly the orders due so far, in order |
| Spawner.ExactDelay | apps/simulation/batched_agent_source.py:85-93 | the order with q before it at step s launches at step s + q div cap, at place q mod cap |
| Spawner.AtMostCapOrders | apps/simulation/batched_agent_source.py:85-91 | at most cap orders a step; non-orders are never delayed |
| Spawner.Conservation | apps/simulation/batched_agent_source.py:78-95 | launched plus backlog is what fell due, as multisets: nothing lost, nothing twice |
| Spawner.ExhaustedMeansAllLaunched | apps/simulation/batched_agent_source.py:97-98 | at exhaustion every item registered for a step from 0 on has been launched exactly once; one registered for a negative step never is |
| Spawner.ExhaustedStays | apps/simulation/batched_agent_source.py:97-98 | exhaustion is permanent and later calls return nothing |
| Spawner.ExhaustionIsReached | apps/simulation/batched_agent_source.py:97-98 | it is reached, at the latest one step per order still waiting after the last arrival |
| RunLoop.StopBeforeHorizon | apps/simulation/terminations.py:69-83 | before the horizon a run stops if and only if the cap, then negative, is reached and no service agent is left |
| RunLoop.EmptyRunStopsEarly | apps/simulation/terminations.py:39-50 | for every rule with a negative cap and a positive horizon, a run that stops before its horizon |
| RunLoop.StopsEarlyIff | apps/simulation/terminations.py:39-50 | some run stops before its horizon exactly when the cap is negative and the horizon positive |
| RunLoop.AwakeCountMeans | apps/simulation/terminations.py:47-56 | the awake count is registered agents without a nap minus ledger entries without a registration |
| RunLoop.DrainedMeans | apps/simulation/terminations.py:58-62 | "no awake agent counted" means all registered agents nap if every sleeper is registered, and otherwise can hide awake ones |
| RunLoop.FinalStepEmpties | apps/simulation/openride_scheduler.py:451-473 | a final step empties a scheduler whose agents have booted and answer with shutdown or not at all, whatever else arrives that neither restores an agent nor ends a nap |
| RunLoop.StopsByTheCap | apps/simulation/simulation_runtime.py:754-801 | no run goes past one step beyond the cap, and one that gets there stops there, if the service agents comply and none returns late |
| RunLoop.FinalStepThenStop | apps/simulation/terminations.py:69-89 | whatever made a step final, the next stop test succeeds if the shutdown rule still holds |
| RunLoop.StopMeansDone | apps/simulation/terminations.py:69-83 | stopping before the cap: past the horizon, everything launched exactly once, no awake agent counted, no service agent left |
| RunLoop.SimulationRuntime.RunSimulation | apps/simulation/simulation_runtime.py:754-801 | the loop over the two scheduler objects and the source is a run of the relation above, and ends exactly when the rule says or a step raises |
| RunLoop.SimulationRuntime.Launch | apps/simulation/simulation_runtime.py:706-709 | the final-step test sees what the same turn has just spawned |
| StatusWrite.StatusWriter.UpdateStatus | apps/simulation/simulation_runtime.py:824-918 | at most 3 PATCHes and 2 GETs; success means exactly one write of this call landed and the record carries its etag; an exhausted call landed nothing and at least three other writes came since its cached etag |
| StatusWrite.StatusWriter.WriteStatus | apps/simulation/simulation_runtime.py:217-231 | the kept etag moves exactly on success; any other outcome may hide at most one landed write |
| StatusWrite.StatusWriter.WriteTerminalStatus | apps/simulation/simulation_runtime.py:310-346 | one to three calls, stopping at the first success; then the document reads success, otherwise a terminal status is published |
| StatusWrite.StatusWriter.RecordStatusWrite | apps/simulation/simulation_runtime.py:208-215 | the counters follow the history of outcomes |
| StatusWrite.FailuresAreTheFailingOutcomes | apps/simulation/simulation_runtime.py:208-215 | the failure counter is the sum of the failing outcome counts |
| StatusWrite.ConsecutiveIsTheLongestFailingSuffix | apps/simulation/simulation_runtime.py:208-215 | the consecutive counter is the length of the longest failing suffix |
| Supervisor.SupervisedTask.Start | apps/dataplane/supervisor.py:272-284 | a start does nothing while the thread lives, else clears the stop event and opens a new generation |
| Supervisor.SupervisedTask.RestartStalled | apps/dataplane/supervisor.py:301-325 | exactly a stalled thread that opted in is abandoned, counted, and replaced by a new generation |
| Supervisor.SupervisedTask.ReadStopping | apps/dataplane/supervisor.py:159-178 | stop event, or a known thread of another generation |
| Supervisor.SupervisedTask.ReadStalled | apps/dataplane/supervisor.py:210-221 | alive, not stopping, and no mark for longer than the stall timeout |
| Supervisor.SupervisedTask.CountRound | apps/dataplane/supervisor.py:376-385 | a round counts only for the current generation |
| Supervisor.WatchdogTick | apps/dataplane/supervisor.py:433-448 | each registered thread is restarted on its own merits; the names returned are exactly those restarted |
| SupervisorRuns.InvAt | apps/dataplane/supervisor.py:129-178 | thread object and generation agree in every reachable state |
| SupervisorRuns.SupersededReadsStopping | apps/dataplane/supervisor.py:159-178 | a superseded thread that is alive reads stopping as true for ever, even after a later start clears the event |
| SupervisorRuns.SupersededCannotInterfere | apps/dataplane/supervisor.py:129-157 | nothing it does changes liveness, failures, restarts, errors or the finished flag; only the backoff history may still get one entry |
| SupervisorRuns.AtMostOneMoreEntry | apps/dataplane/supervisor.py:343-356 | it enters the function at most once more, and only if it had passed the generation check |
| SupervisorRuns.OneWorker | apps/dataplane/supervisor.py:159-178 | two live runner threads never both read stopping as false |
| SupervisorRuns.RestartsAreCounted | apps/dataplane/supervisor.py:317-318 | over every run restarts equals rounds ended by the current generation plus abandonments |
| SupervisorRuns.AbandonmentsApart | apps/dataplane/supervisor.py:210-221 | two abandonments are more than the stall timeout apart |
| SupervisorRuns.SleepsArePaced | apps/dataplane/supervisor.py:376-393 | every sleep of every thread has the length its place since the last settled round gives it |
| SupervisorRuns.DelayIsClampedDoubling | apps/dataplane/supervisor.py:386-393 | that length is min(initial * 2^k, max) |
| SupervisorRuns.FirstDelayClampedIff | apps/dataplane/supervisor.py:344-393 | for every k exactly when the initial delay is not above the maximum |
| FinalCapture.Dataplane.OnTripGeo | apps/dataplane/service.py:686-705 | a position of a finalized run is refused; any other is recorded, then counted |
| FinalCapture.Dataplane.CaptureRun | apps/dataplane/service.py:888-917 | a frame is written exactly for a resident run that moved and has positions; a failed write changes nothing |
| FinalCapture.Dataplane.FinalizeRun | apps/dataplane/service.py:813-855 | refused while kpi rows are unwritten or another topic is blocked; then capture, audit, status, mark, evict, queue; a failed capture or status stops it before the eviction |
| FinalCapture.Dataplane.AuditPositions | apps/dataplane/service.py:838-849 | one loss more exactly if the two counters of the run differ |
| FinalCapture.Dataplane.QueueDump | apps/dataplane/service.py:1221-1229 | a run that already waits for its dump is not queued again and takes the new reason, if there is one |
| FinalCapture.CaptureInSections | apps/dataplane/service.py:891-917 | the three sections the two threads interleave at make up one capture |
| FinalCapture.StepKeeps | apps/dataplane/service.py:837-989 | every section of either thread keeps the invariant, and after the eviction no frame and no position is added |
| FinalCapture.CaptureIsComplete | apps/dataplane/service.py:837-855 | for every interleaving without an LRU eviction: once a finalize has returned, the last frame is the last position of every truck recorded by this process, the status is on disk, the run is gone |
| FinalCapture.EvictionComesLast | apps/dataplane/service.py:837-853 | at the eviction the frame and the status are on disk |
| FinalCapture.NothingAfterEviction | apps/dataplane/service.py:688-692 | no frame after it, from the sweep or from a replayed terminal |
| FinalCapture.ReplayIsIdempotent | apps/dataplane/service.py:802-804 | a replayed terminal writes no frame and changes nothing but the reason, except that it counts the loss again exactly if before the first one the run was not resident and its counters differed |
| LossAudit.WatchKeeps | apps/dataplane/service.py:888-989 | over every interleaving with LRU evictions and revivals: frames, snapshots, slab and counters are what the history of recorded positions says |
| LossAudit.NewestUnframedIff | apps/dataplane/service.py:919-928 | the newest position is on no frame exactly if the last frame was snapped before it |
| LossAudit.CoversIff | apps/dataplane/service.py:891-917 | in every reachable state the last frame holds every truck's last position exactly if it was snapped after the newest position and every truck had reported since its slab was created |
| LossAudit.AuditFiresIff | apps/dataplane/service.py:919-928 | the audit fires exactly if a position was counted after those the last capture took account of; if none was counted since the counters were dropped, exactly if a capture was made since |
| LossAudit.AuditMeans | apps/dataplane/service.py:919-928 | with no position in hand: exactly if the newest position is on no frame, or the last frame was snapped between its newest position's update and its count |
| LossAudit.AuditMeansCoverage | apps/dataplane/service.py:919-928 | while the run has had one slab: exactly if the last frame lacks some truck's last position, or for the same corner |
| LossAudit.SilentAuditMeans | apps/dataplane/service.py:838-849 | after any revivals, a silent audit means coverage exactly if every truck has reported since the slab of the last frame was created |
| LossAudit.LruLosesIff | apps/dataplane/service.py:958-976 | after an LRU eviction and no later position the last frame covers the run exactly if it was idle at the eviction, or one count short of it |
| LossAudit.LruAuditIff | apps/dataplane/service.py:966-976 | and every audit from then on counts a loss exactly if it was not idle and the counters have not been dropped |
| LossAuditRuns.LruLosesPositions | apps/dataplane/service.py:838-849 | a run: the LRU takes the run before any frame, the finalize returns without the position on disk, one loss is counted |
| LossAuditRuns.AuditFiresFalsely | apps/dataplane/service.py:694-705 | a run: the frame is snapped between update and count, everything is on disk, one loss is counted |
| LossAuditRuns.AuditMissesALoss | apps/dataplane/service.py:838-849 | a run: another truck revives the run, the last frame lacks the first truck, no loss is counted |
| LossAuditRuns.RevivalUnderTheSweepFiresFalsely | apps/dataplane/service.py:958-976 | a run: revived between the sweep's list and its audit, everything ends on disk, two losses are counted |
| CodeBook.MergeCodeMap | apps/dataplane/service.py:1013-1036 | the union, persisted entries winning, and exactly the disagreements counted |
| CodeBook.RunMeta.PersistRunMeta | apps/dataplane/service.py:1061-1125 | merge with disk, skip by the signature, write, then record the signature |
| CodeBook.EntriesAreStable | apps/dataplane/service.py:1023-1036 | if reads succeed no entry on disk ever changes or goes, over any persists, conflicts and restarts |
| CodeBook.SkipAddsNothing | apps/dataplane/service.py:1091-1094 | a write the size-only signature skips would have added nothing |
| CodeBook.PersistKeepsIff | apps/dataplane/service.py:1061-1125 | one persist keeps every entry on disk exactly if its read succeeds, it writes nothing, or each live map is empty or holds the disk's |
| CodeBookRuns.RunSlab.UpdatePosition | apps/dataplane/store/hot.py:169-192 | slots are minted in arrival order; codes from 1 up to 255, which all later names share |
| CodeBookRuns.AdoptedOk | apps/dataplane/store/hot.py:194-214 | a restored slab goes on exactly where the persisted books ended |
| CodeBookRuns.PersistInTwoHalves | apps/dataplane/service.py:1066-1123 | a persist nothing interrupts is the one call of `PersistRunMeta` |
| CodeBookRuns.StepKeeps | apps/dataplane/service.py:1127-1201 | positions, restores, either half of the sweep's and the terminal's persists, finalize and restart keep disk, pending and live books nested, as long as no position precedes the restore |
| CodeBookRuns.BooksStayInjective | apps/dataplane/store/hot.py:180-192 | over any such life, with overlapping persists and failed reads and writes: no conflict, slots one to one, codes one to one exactly up to 255 names |
| CodeBookRuns.DiskOnlyGrows | apps/dataplane/service.py:1023-1036 | and while no two persists overlap the disk only grows, even when reads fail and while positions keep coming between a read and its write |
| CodeBookRuns.WriteKeepsIff | apps/dataplane/service.py:1066-1123 | over any such life, however persists overlap and whatever fails: a write keeps everything on disk exactly if it is skipped, or each map it writes has at least as many names as the one on disk |
| CodeBookRuns.OverlapLosesAnEntry | apps/dataplane/service.py:1066-1123 | a life from its birth in which it loses an entry |
| CodeBookRuns.FailedRestoreAndReadLoseAnEntry | apps/dataplane/service.py:1076-1083 | a life in which a failed restore and then a failed read lose an entry |
| CodeBookRuns.MergedInjectiveIff | apps/dataplane/service.py:1013-1036 | merging live codes that are one to one, restored in time, late or not at all, keeps codes one to one exactly if the code of every new name lies above those on disk |
| CodeBookRuns.FailedRestoreCollides | apps/dataplane/service.py:1144-1155 | a life in which a failed restore puts two names on one code on disk, with no conflict counted |
| LiveBus.Bus.Publish | apps/dataplane/service.py:166-174 | the buffer stays the longest suffix of the log that fits |
| LiveBus.Bus.Since | apps/dataplane/service.py:176-183 | events after the cursor, cut by any limit, as a function of the unbounded log |
| LiveBus.Bus.Head | apps/dataplane/service.py:185-188 | the number of the last event published |
| LiveBus.Bus.Drop | apps/dataplane/service.py:190-192 | one run is forgotten, numbering goes on |
| LiveBus.PollIsSlice | apps/dataplane/service.py:176-183 | a poll reads one contiguous stretch from the first unread event still buffered |
| LiveBus.SubscriberSees | apps/dataplane/service.py:176-183 | with any limits, a subscriber gets a strictly increasing subsequence and has missed only events evicted unread |
| LiveBus.NeverLaggingMissesNothing | apps/dataplane/service.py:152-155 | if it never lags by more than the bound it misses none |
| LiveBus.UnlimitedPollCatchesUp | apps/dataplane/service.py:176-183 | a poll whose limit does not bite reaches the head |
| LiveStream.CodebookDelta | apps/dataplane/read_api.py:464-523 | contradiction test, full book or delta or nothing, with its loops over the dictionaries |
| LiveStream.EmitAgreesIff | apps/dataplane/read_api.py:489-523 | after every emission the client agrees with the hot tier on every slot and code exactly when no two trucks share a slot |
| LiveStream.Connection.EmitCodebook | apps/dataplane/read_api.py:590-614 | the connection state and the event follow the delta |
| LiveStream.Connection.OneTurn | apps/dataplane/read_api.py:639-685 | one turn: waiting, keepalive, or book when due and frame |
| LiveStream.FoldIsKnown | apps/dataplane/read_api.py:600-603 | the connection's own books are the fold of the events it has sent |
| LiveStream.FoldBeforeFrame | apps/dataplane/read_api.py:639-685 | what a client has folded when a frame arrives is what the frame is resolved against below |
| LiveStream.FramesAreResolved | apps/dataplane/read_api.py:658-682 | in frames mode, while the slot map only grows and lookups succeed, every frame comes after events that resolve all its slots correctly |
| LiveStream.FrameResolvedIff | apps/dataplane/read_api.py:639-682 | in any stream, with failed lookups and rebuilt slabs, a frame is resolved exactly if no slot of it has changed its agent since the connection was last told that slot |
| LiveStream.DueBookResolves | apps/dataplane/read_api.py:658-670 | a due book resolves its frame, if the lookup succeeds on the slab the frame was taken from |
| LiveStream.StreamResolvedIff | apps/dataplane/read_api.py:639-685 | so with such lookups every frame is resolved exactly if, at each frame sent without a due book, none of its slots has changed its agent since the connection was told it |
| LiveStream.RebuiltSlabMisleads | apps/dataplane/read_api.py:664-670 | a slab rebuilt with the same slots makes a frame resolve to the wrong truck |
| ServiceStart.ServiceManager.Start | openride_control/manager.py:290-338 | terminates on every acyclic graph; stops nothing; what is new is needed and has its dependencies running, on success and on failure; a failure names a service that was down and whose own attempt failed |
| ServiceStart.GrowsKeepsClosed | openride_control/manager.py:302-308 | so a dependency-closed running set stays closed |
| ServiceStart.StartedMeansAllUp | openride_control/manager.py:302-333 | and a successful start leaves all transitive dependencies running |
| ServiceStart.ServiceManager.EnsureBackend | openride_control/manager.py:346-372 | the backend pass and the restart of the worker pool: what runs after each way it can end, the service a failed pass names, and closure kept while nothing that runs needs the worker pool |
| ServiceStart.PassClosedIffTopological | openride_control/manager.py:350-354 | the pass keeps every closed set closed, whatever fails, exactly when its order is topological |
| ServiceStart.StartOrderIsTopological | openride_control/registry.py:652-666 | the start order of the registry is |
| ServiceStart.RegistryIsAcyclic | openride_control/registry.py:510-650 | the registry is acyclic, and a running set needs the worker pool exactly if the simulation is in it |
| ServiceStart.SimulationIsProvided | openride_control/manager.py:346-354 | after a pass without failure every transitive dependency of the simulation runs |
| KpiStore.DuckDbKpiStore.Enqueue | apps/kpi_sink/duckdb_store.py:141-149 | one more row held; a flush exactly when the batch is full |
| KpiStore.DuckDbKpiStore.Flush | apps/kpi_sink/duckdb_store.py:151-175 | pending rows move to their file and nothing held changes, for one run or all |
| KpiStore.DuckDbKpiStore.WriteRows | apps/kpi_sink/duckdb_store.py:92-98 | upserts in order are last write wins |
| KpiStore.DuckDbKpiStore.FetchAll | apps/kpi_sink/duckdb_store.py:177-201 | the last value of every key enqueued for the run, each once, in the order of clock and metric, whatever the batch size, the flushes and the file names |
| KpiStore.SelectInOrder | apps/kpi_sink/duckdb_store.py:190-201 | the rows of one run in a table, in the order of the query |
| KpiStore.RedeliveryIsInvisible | apps/dataplane/service.py:13-18 | any at-least-once delivery of the input leaves what a single delivery leaves |
| KpiStore.SuffixAgain | apps/dataplane/service.py:15-18 | enqueueing any suffix again changes nothing |
| KpiStore.StretchAgainCanUndo | apps/kpi_sink/duckdb_store.py:92-98 | a stretch that is not a suffix can bring an old value back |

## Left out

- Transport and storage calls (MQTT, Kafka, HTTP, Mongo, DuckDB, Celery, docker, systemd): only their outcomes, as inputs.
- `step_response` history, `agent_stat`, perf summaries, logging and message texts: read by no rule modelled here.
- The `init` action of the agent handler, unused in the repository, and the alias of step -1 for the current step.
- Scheduler.OpenRideScheduler.Step: takes the replies and whether the wait timed out as inputs; the waiting loop itself is `Wakeup`, and the 50 ms poll and the settle time appear there and in `Scheduler.Done` as choices.
- ProtocolTheorems.BarrierIsExact: each reply is one unit; a reset inside a handler is `HandlerRace`, where the nine assignments are one event and the notes of shutdowns and errors belong to the second test.
- RunLoop.SimulationRuntime.RunSimulation: bounded by a number of turns, since without a cap the loop need not end; progress notes, status writes and pacing sleeps between turns are left out, and the two schedulers step one after the other on disjoint state.
- StatusWrite.StatusWriter.UpdateStatus: the payload is only the status; backoff sleeps between attempts are left out.
- Supervisor.SupervisedTask.Start: the stop event is the object's own; another owner of a shared event setting or clearing it is an event of `SupervisorRuns`.
- `healthy` and `status` of a supervised thread: read-outs that change nothing and that no modelled rule depends on.
- FinalCapture.Dataplane.FinalizeRun: frame indexes and the counters behind `/health` other than `positions_dropped` are left out; the pending kpi rows appear as whether their flush succeeded.
- LossAudit.LruLosesIff: an eviction while a capture holds its snapshot, or while a position of this run is in hand, is left to `LossAudit.CoversIff`, which covers every reachable state.
- Other runs in the dataplane: one run is modelled; the sweep's work on others appears as time between its sections.
- CodeBookRuns.BooksStayInjective: the LRU taking a slab whose names are not yet persisted is left out.
- LiveStream.Connection.OneTurn: the forwarding of bus events and the column data of a frame are left out; a frame is its slots.
- ServiceStart.ServiceManager.Start: the simulation's own start command, containers that docker brings up by itself, stopping services and `start_backend`, which carries on after a failure, are left out.
- KpiStore.DuckDbKpiStore.FetchAll: breakdown rows and concurrent flushes are left out.
- Real floats, wall-clock jitter and random jitter of the backoff.
- CLI, TUI, reports, OSRM and geometry, `rebate.py`, `haul_trip_duration.py`, `_downsample`, `perf_rollup` and the payload parsers: single-step calculations with no state to keep.
