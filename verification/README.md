# Verification model of the LOOP control plane

The LOOP harness is a single-machine control plane for agent work: packets move through a
table-driven life cycle, queues and refill loops start work for them, ledgers on disk record what
happened, and every process may die at any moment. This project models its protocols as state plus
steps and proves what they promise over every interleaving, crash point and event log.

`dafny verify dfyconfig.toml` checks everything. JSON files are maps, an atomic replace is an
assignment, a lock-protected block is one step. Liveness of processes, the clock, the contents of
files written by others and the decisions of agents are inputs.

| module | what it is |
|---|---|
| `WakeProtocol` | the coalesced wake-up of the refill actuator and the terminal epilogue |
| `L2Queue` | the exactly-once verifier queue: claims, heartbeats, reaper, completions |
| `EventLog` | the torn-line cursor over the shared event log, byte by byte |
| `Lifecycle` | the transition table, the decision for one event, and authorized histories |
| `LifecycleWorld` | producers and state machine as one system: stale snapshots, deaths, and admissions that put an old ledger back |
| `StaleAdmission` | what such an admission does, with the run in which retries are counted out of order |
| `LineLog` | the bytes of `EventLog` and the lines of `LifecycleWorld` joined |
| `LifecycleLaws` | what every event does to a packet, by states and event names alone |
| `LifecycleMachine` | the state machine in place, shown to be runs of that system |
| `Producers` | `retry.py` and `duty_route.py` in place, shown to be runs of that system |
| `Split`, `Refill`, `Selection` | largest-remainder split, ledger sync and recompute, round-robin selection |
| `Roster` | who owns a packet's roster row, its history, and what a waiting wave reports |
| `Manifest` | admission of parent manifests, cut off at any write |
| `Admission` | what an import admits is what the refill controller counts |
| `Budget` | token budgets: shares, pool, state ladder |
| `Install` | installing into a user's home and restoring it |
| `DagAssert` | the acyclicity and path-disjointness gate |
| `Reducer` | the strictest-wins reducer and its truncated packet |

The pattern is the same throughout: a specification of steps on immutable states, theorems over all
runs of it, and classes or methods that update their fields as the code does, whose contracts tie
the new state to the specification. `EventLog` counts bytes, `LifecycleWorld` takes a log of parsed
lines and a cursor in lines; `LineLog` shows that both cursors are always in the same place.

## Where the code keeps less than its documentation says

- L2 queue: the header promises exactly one verifier execution per request and a reclaim budget. A
  reaper that dies between moving an exhausted claim aside and writing the poison completion
  (`harness/l2_consumer.py:797-813`) allows one more dispatch. `DispatchesAreBounded` counts these
  deaths, `DeathReopensAnExhaustedKey` says exactly when it happens, `ReaperDeathCostsADispatch`
  shows one.
- Admission: `retry.py` calls its admission a locked read-merge-write of the current ledger, but it
  locks another file than the state machine and the importer (`harness/retry.py:206-207`,
  `harness/statemachine.py:503`). Its replace can take back whatever was committed since its read,
  and a step can overwrite it (`ReplaceRevertsCommits`, `AdmissionSurvivesCommitWhen`). Histories,
  caps, births and the numbers in the log survive that; the numbering of the attempts does not:
  `SecondRetryCountsAsFirst` is a run in which a second retry is counted as a first attempt. It holds
  when no admission takes an attempt of the packet back (`RetriesAreNumberedInOrder`), in particular
  when none replaces a ledger committed after its read (`FreshAdmissionTakesNothing`); for one line,
  exactly when every earlier retry line of the packet was counted (`CountedInOrderWhen`).
- Unsafe ids: an event with an id that must not become a file name is refused visibly, and from then
  on every step halts at it: nothing behind it is ever folded (`NothingPassesAnUnsafeId`).
- Refill: debt is documented as at most what is pending. With a queue edited by hand it exceeds it
  exactly when the parents ask for more than the pool counts (`DebtExceedsPendingWhen`), as
  after a removal by hand (`LoweredQueueOwesMore`); after a ledger sync it cannot (`DebtIsPending`).
- Budget: opened shares are documented as scaled to fit the ceiling. They fit if and only if the
  capped Sol and the floored K3 shares fit it by themselves (`OpenFits`, `FixedSharesMayNotFit`). The
  K3 floor is met only within one token a role, and not at all when no K3 role has a cost
  (`FloorIsNearlyMet`, `OddFloorIsMissed`, `FreeVerifierGetsNothing`). Without an open task the pool
  may become negative, exactly as `RegisterKeepsSound` says (`UnbudgetedPoolGoesNegative`). The
  cooldown of the state ladder never decides anything (`ClockNeverMatters`).
- Roster: a new generation with an equal start time takes a row over (`PeersMayTakeOver`,
  `PeersTakeTurns`). A wave falls back to a `report` field that no new generation clears: a run that
  set it would have its file reported for the next one (`LeftoverReport`); supervisors do not set it.
- Reducer: the packet is documented to fit its budget, with a sentinel for every cut. It fits if and
  only if it would without paths and findings; findings are cut without a sentinel, and the
  sentinel of the paths disappears when all of them are cut (`Truncate`, `LongQuestionDoesNotFit`,
  `FindingsAreCutSilently`, `SentinelMayBeLost`). A record that brings the
  first verdict may soften an escalated set (`MoreIsStricter`, `FirstVerdictMaySoften`).

## Model

| member | source | states |
|---|---|---|
| `WakeProtocol.NoLostWakeUp` | harness/refill_consumer_v2.py:121-153 | over every interleaving of schedulers and runners with crashes anywhere: once a whole schedule has run and no process has died since, `requested_seq > consumed_seq` implies the marker names a live runner, and with no runner left the two numbers are equal |
| `WakeProtocol.ConsumedIsCovered` | harness/refill_consumer_v2.py:434-447 | every request up to `consumed_seq` was seen by a finished pass that began after it was recorded, in every run with crashes anywhere |
| `WakeProtocol.PassConsumes` | harness/terminal_packet_epilogue.py:120-156 | a finished pass consumes everything recorded before its read |
| `WakeProtocol.LeavesWhenQuiet` | harness/terminal_packet_epilogue.py:157-167 | a runner that survives its commit leaves when nothing was scheduled since its read, and the counters are then equal |
| `WakeProtocol.StaysWhenScheduled` | harness/terminal_packet_epilogue.py:157-167 | one schedule during the pass keeps the runner in its loop: the other half of the exit condition |
| `WakeProtocol.ScheduleRestoresHealth` | harness/lifecycle_supervisor.py:490-531 | from any reachable state, crashed or not, one undisturbed schedule leaves a live marked runner |
| `WakeProtocol.StepKeepsValid` | harness/lifecycle_supervisor.py:490-531 | no step lets the consumed number pass the requested one, or either go back |
| `WakeProtocol.StepKeepsHealthy` | harness/lifecycle_supervisor.py:490-531 | no step without a death strands a waiting request |
| `WakeProtocol.RunKeepsValid` | harness/refill_consumer_v2.py:121-153 | the counter invariant over every run, deaths included |
| `WakeProtocol.WorkingIsOpened` | harness/refill_consumer_v2.py:435-447 | whatever a runner is working on was read by it in a pass still open |
| `WakeProtocol.PassHolds` | harness/refill_consumer_v2.py:434-447 | between its read and its commit a runner keeps the number it read, whatever others do |
| `WakeProtocol.QuietKeepsRequests` | harness/refill_consumer_v2.py:121-127 | only a schedule records a request |
| `WakeProtocol.RequestsOnlyGrow` | harness/refill_consumer_v2.py:121-127 | the requested number only grows, strictly with each schedule, also one that coalesces |
| `WakeProtocol.ControlPlane.constructor` | harness/refill_consumer_v2.py:122-123 | nothing requested, no runner |
| `WakeProtocol.ControlPlane.ScheduleRun` | harness/refill_consumer_v2.py:106-156 | one call takes the schedule step; it coalesces exactly when the marker names a live runner, and the marker names the returned one |
| `WakeProtocol.ControlPlane.CommitPass` | harness/refill_consumer_v2.py:442-459 | the locked block takes the commit step of its runner and says whether it left |
| `WakeProtocol.ControlPlane.Interfere` | harness/refill_consumer_v2.py:121-153 | whatever enabled steps others take, the run goes on and this runner stays where it is |
| `WakeProtocol.ControlPlane.DrainRequested` | harness/refill_consumer_v2.py:423-459 | the loop, under any interference around each read, is a run of the protocol; it leaves at the latest with the first pass during which nothing is scheduled, its last step is its commit, and it consumed at least what was requested when it began |
| `WakeProtocol.SchedulesCoalesce` | harness/refill_consumer_v2.py:128-153 | in every run without deaths and without runners started by hand there is never more than one runner, and the marker names it |
| `L2Queue.ClaimsAreConserved` | harness/l2_consumer.py:518-542 | in every run of any number of drainers, reapers and completers: successful claims of a key = the claim present + reaped + released by its completion |
| `L2Queue.DispatchesAreBounded` | harness/l2_consumer.py:796-815 | a key is dispatched at most `claim_max_reclaims` + 1 times, plus once per reaper death between moving an exhausted claim aside and writing the poison completion |
| `L2Queue.DeathReopensAnExhaustedKey` | harness/l2_consumer.py:797-813 | when the allowance is spent, a later drain dispatches the key again if and only if the reaper died in that window |
| `L2Queue.ReaperDeathCostsADispatch` | harness/l2_consumer.py:797-813 | for every budget and key some run has one reaper death and claim_max_reclaims + 2 dispatches |
| `L2Queue.NothingFollowsACompletion` | harness/l2_consumer.py:729-735 | completions are written once; after one, no claim, dispatch or second completion of its key |
| `L2Queue.CompletionsAreImmutable` | harness/l2_consumer.py:878-911 | a completion keeps its value in every run |
| `L2Queue.NextEvidenceIsNew` | harness/l2_consumer.py:796-800 | a numbered reap never overwrites earlier evidence, torn claims in between included |
| `L2Queue.PassDispatchesEachOnce` | harness/l2_consumer.py:725-753 | one pass dispatches every open pending key exactly once however often it is listed, and nothing else |
| `L2Queue.SecondPassIsIdle` | harness/l2_consumer.py:725-735 | a pass over keys that are all claimed or complete changes nothing |
| `L2Queue.DrainTwiceIsDrainOnce` | harness/l2_consumer.py:703-756 | draining again, at any time and with any deaths, changes nothing |
| `L2Queue.NothingAgesSilently` | harness/l2_consumer.py:833-863 | after a stale check every pending record has a claim, a completion or is young, and no earlier completion changed |
| `L2Queue.OtherFilesAreUntouched` | harness/l2_consumer.py:512-516 | a step touches the files of its own key only |
| `L2Queue.OtherTallyIsUntouched` | harness/l2_consumer.py:512-516 | nor does it count against any other key |
| `L2Queue.StepKeepsSound` | harness/l2_consumer.py:770-822 | every step, with its deaths, keeps the accounting of every key |
| `L2Queue.RunKeepsSound` | harness/l2_consumer.py:770-822 | and so does every run |
| `L2Queue.L2Consumer.constructor` | harness/l2_consumer.py:440-470 | an empty queue |
| `L2Queue.L2Consumer.Enqueue` | harness/l2_consumer.py:472-493 | appends exactly when no record of the key is listed |
| `L2Queue.L2Consumer.TryClaim` | harness/l2_consumer.py:518-542 | succeeds exactly when no claim of the key exists, and then that claim exists |
| `L2Queue.L2Consumer.DrainRecord` | harness/l2_consumer.py:725-753 | one loop body is the drain step, and says how the record was met |
| `L2Queue.L2Consumer.DrainPending` | harness/l2_consumer.py:725-756 | the pass over the pending file; its statistics add up, with dispatcher refusals counted apart |
| `L2Queue.L2Consumer.ReapClaim` | harness/l2_consumer.py:770-821 | one iteration is the reap step; a written claim moves if and only if it has no completion and its heartbeat is at least the stale threshold old, a torn one if and only if its file is; only that claim goes, and only an escalation may complete the key |
| `L2Queue.L2Consumer.ReapStaleClaims` | harness/l2_consumer.py:758-822 | the pass over the claim directory: only aged claims go, no listed aged claim without a completion stays, the others are as they were, and the count is the number gone |
| `L2Queue.L2Consumer.CheckStalePending` | harness/l2_consumer.py:833-863 | the pass over the pending file; the count is the number of completions it wrote, each stale and of an aged record |
| `L2Queue.L2Consumer.CompleteKey` | harness/l2_consumer.py:867-925 | publishes once: a repeated call reports the first result and changes nothing |
| `L2Queue.L2Consumer.Beat` | harness/l2_consumer.py:548-557 | refreshes a readable claim, false exactly when there is none |
| `L2Queue.ReapedExactlyWhenStale` | harness/l2_consumer.py:770-795 | in every run a reap moves a claim aside if and only if the last claim or heartbeat of its key is at least `claim_stale_after_s` old and, for a written claim, the key has no completion |
| `L2Queue.HeartbeatPostponesReap` | harness/l2_consumer.py:548-557 | in every run: for `claim_stale_after_s` after a heartbeat no reap changes anything |
| `L2Queue.LiveKeysAreDispatchedOnce` | harness/l2_consumer.py:793-795 | in every run in which each reap of a claim of the key comes earlier than that after its last claim or heartbeat, the key is never reaped, claimed at most once and dispatched at most once |
| `L2Queue.EscalatedExactlyWhenAged` | harness/l2_consumer.py:842-848 | a stale check completes a key, as stale, if and only if its record is older than `l2_max_age_s` and the key has neither claim nor completion |
| `EventLog.FoldedExactlyOnce` | harness/statemachine.py:507-545 | for every chunking of appended bytes, steps dying before their commit and old ledgers put back by admissions: the committed ledger folded exactly the complete lines before its cursor, once each and in order, and the cursor is 0 or just after a newline |
| `EventLog.ChunkingIsInvisible` | harness/statemachine.py:514-536 | two runs that append the same bytes agree on cursor and ledger after one more committed step |
| `EventLog.FoldReachesTheEnd` | harness/statemachine.py:520-536 | one committed step catches up with every complete line |
| `EventLog.LinesAreTheBytes` | harness/statemachine.py:520-536 | lines and tail together are the bytes read |
| `EventLog.EndOf` | harness/statemachine.py:522-528 | the end of the last complete line: no newline after it |
| `EventLog.LinesEndThere` | harness/statemachine.py:522-528 | up to that end the same lines are read, with nothing left over |
| `EventLog.LinesOfJoin` | harness/statemachine.py:520-536 | reading on from a line end gives the lines of the whole |
| `EventLog.AppendKeepsScan` | harness/statemachine.py:514-519 | a concurrent append does not change what was read |
| `EventLog.FoldKeepsSound` | harness/statemachine.py:542-545 | a committed fold keeps lines and cursor in step |
| `EventLog.StepKeepsSound` | harness/statemachine.py:507-545 | so does every step |
| `EventLog.RunIsSound` | harness/statemachine.py:507-545 | and every run, whose bytes are what was appended |
| `EventLog.ReadLine` | harness/statemachine.py:523-525 | one readline: a whole line up to the next newline, or torn exactly when there is none |
| `EventLog.ReadLoop` | harness/statemachine.py:513-536 | the loop returns exactly the non-blank complete lines after its offset and the end of the last complete one |
| `EventLog.VisibleLinesAreFolded` | harness/statemachine.py:526-536 | in every run every complete line before the cursor that holds a visible character was folded |
| `EventLog.LinesAreSingle` | harness/statemachine.py:522-525 | a line ends with its only newline |
| `Lifecycle.DecisionIsAuthorized` | harness/statemachine.py:251-366 | whatever the packet and the event, the row written is an authorized edge out of the current state |
| `Lifecycle.RetryRowsComeFromRetries` | harness/statemachine.py:273-284 | only a retry that is not stale counts an attempt |
| `Lifecycle.DutyRowsComeFromOutcomes` | harness/statemachine.py:336-341 | a duty route is taken only out of DUTY_REVIEW and only for an outcome |
| `Lifecycle.CappedRowsAreCounted` | harness/statemachine.py:342-361 | a capped transition is taken only below its cap and bumps its own counter |
| `Lifecycle.BirthsArePaidFor` | harness/statemachine.py:55-90 | on every authorized history, dispatches plus a packet still waiting never exceed plans, replans and retries |
| `Lifecycle.DispatchNeedsRelease` | harness/statemachine.py:55-90 | between two dispatches of a packet there is a retry or a replan |
| `Lifecycle.OthersAreUntouched` | harness/statemachine.py:251-271 | an event touches no packet and no counter but those of the id it names |
| `Lifecycle.ReviewRowsComeFromReviews` | harness/statemachine.py:317-325 | only a release review whose run failed takes t26 |
| `LifecycleLaws.HistoriesAreLawful` | harness/statemachine.py:55-90 | in every run, rows of every packet: each state is entered only out of the states and by the events it may be entered from, named one by one without the table |
| `LifecycleLaws.DoneMeansReleased` | harness/statemachine.py:78-79 | in every run DONE is entered only out of SOL_ADJUDICATE by release_merge, and what leaves it is a dead letter |
| `LifecycleLaws.FailuresFail` | harness/statemachine.py:60-75 | in every run budget_exhausted and duty_terminal rows end in DEAD_LETTER, acceptance_fail rows in FAILED, exec_failed rows in FAILED or, for reviews, SOL_ADJUDICATE; no failing event leads to REPORTED, ACCEPTED, MERGED or DONE |
| `LifecycleLaws.OnlyReviewsFailUpwards` | harness/statemachine.py:317-325 | in every run only a release review goes from a failed run to SOL_ADJUDICATE |
| `LifecycleLaws.AdjudicationIsLeft` | harness/statemachine.py:78-88 | in every run SOL_ADJUDICATE is left only for a replan, a release or a dead letter |
| `LifecycleLaws.MergedMeansAccepted` | harness/statemachine.py:62-73 | in every run a merge or merge conflict is preceded by an acceptance pass since which the packet has not moved, so in particular none was dispatched since |
| `LifecycleLaws.OnlyMergesMerge` | harness/statemachine.py:72-73 | in every run MERGED is entered by merged only, MERGE_CONFLICT by merge_conflict only |
| `LifecycleLaws.EventsLeadToReport` | harness/statemachine.py:55-90 | with every gate open, from the plan to the judgement of the report, each event leads to the state named for it |
| `LifecycleLaws.EventsLeadFromFailure` | harness/statemachine.py:63-71 | the same out of FAILED, TIMED_OUT and DUTY_REVIEW |
| `LifecycleLaws.EventsLeadToAdjudication` | harness/statemachine.py:72-77 | the same from acceptance or dead letter to adjudication |
| `LifecycleLaws.EventsLeadToRelease` | harness/statemachine.py:78-79 | the same for a replan and the release |
| `LifecycleLaws.ClosedGatesLead` | harness/statemachine.py:317-361 | where a closed gate leads: dead letter without a current report, without enforcement or after the timeout retry; SOL_ADJUDICATE after two replans or with an unreadable counter |
| `LifecycleLaws.LateEventsConfirm` | harness/statemachine.py:285-316 | late and repeated events leave the state as it is |
| `LifecycleLaws.DeadLettersAreMadeOnce` | harness/statemachine.py:299-307 | a late event never makes a dead letter anew, so its first evidence stays |
| `LifecycleLaws.MisplacedEventsAreDeadLetters` | harness/statemachine.py:326-329 | an event where it does not belong is a dead letter, a repeated dispatch of another generation included |
| `LifecycleLaws.StaleEventsMoveNothing` | harness/statemachine.py:279-284 | an event of an older generation moves neither state, attempts nor counters |
| `LifecycleLaws.ForeignEventsAreIgnored` | harness/statemachine.py:253-270 | audit events, verifier jobs and packets never planned or admitted change nothing |
| `LifecycleLaws.PlansAreAdmitted` | harness/statemachine.py:267-271 | a plan makes an unknown packet known, planned by one row |
| `LifecycleLaws.MalformedLinesAreDeadLetters` | harness/statemachine.py:263-266 | a malformed line is a dead letter of the id it carries |
| `LifecycleWorld.BoundedBirths` | harness/statemachine.py:55-90 | in every run of producers and machine from the empty system, admissions that put an old ledger back included: the history is an authorized path ending in the state, attempts = its t9 + t37 rows, the birth inequality holds, and RUNNING is entered at most attempts + 4 times |
| `LifecycleWorld.CapsSurviveCrashes` | harness/statemachine.py:342-361 | however steps die after bumping a counter and replay the log, and whatever old ledger an admission puts back: t22 at most twice, t37 at most once, at most one duty row per packet |
| `LifecycleWorld.RetriesAreNumberedInOrder` | harness/statemachine.py:362-366 | as long as no admission takes an attempt of the packet back, an attempt is counted only for the retry that asks for exactly the next number, so they run 1, 2, 3, ... without gap or repeat |
| `LifecycleWorld.CountedInOrderWhen` | harness/statemachine.py:273-284 | in every run: a counted retry asks for a number above all counted so far, and for exactly the next one if and only if every retry line of the packet read so far was counted |
| `LifecycleWorld.LogIsNumbered` | harness/retry.py:285-305 | in every run the retry lines of a packet stand in the log numbered 1, 2, 3, ... in this order |
| `LifecycleWorld.NumberAtLine` | harness/retry.py:285-305 | the number of a retry line is its place among the retry lines of its packet |
| `LifecycleWorld.FreshAdmissionTakesNothing` | harness/retry.py:207-217 | an admission whose read is still the committed ledger takes no attempt back |
| `LifecycleWorld.ReplacementKeepsInv` | harness/retry.py:207-217 | the ledger an admission puts back, however old, keeps the invariant of every packet |
| `LifecycleWorld.RunKeepsInStep` | harness/statemachine.py:503-545 | without such an admission no retry and no call is ever further than the next attempt |
| `LifecycleWorld.ProducersAreUnique` | harness/retry.py:285-305 | the log holds at most one retry per packet and number, and at most one duty outcome per packet |
| `LifecycleWorld.AttemptsStayWithinLimit` | harness/retry.py:276-284 | no packet counts more attempts than the largest class limit |
| `LifecycleWorld.RetryAsksForMore` | harness/statemachine.py:273-284 | a retry at the cursor is stale or asks for a number above the attempts counted, and all smaller ones were read before it |
| `LifecycleWorld.RulingNumbers` | harness/statemachine.py:326-366 | which events each counted transition can come from |
| `LifecycleWorld.AttemptsMoveByRetries` | harness/statemachine.py:362-366 | only a retry moves the attempts, and by one |
| `LifecycleWorld.HandleKeepsInv` | harness/statemachine.py:520-536 | handling a line keeps the invariant of every packet, a halt included |
| `LifecycleWorld.ProducerKeepsInv` | harness/retry.py:232-305 | so do all producer steps, from snapshots that may be stale |
| `LifecycleWorld.MachineKeepsInv` | harness/statemachine.py:503-545 | so do fallback, watchdog, commit and death |
| `LifecycleWorld.RunKeepsInv` | harness/statemachine.py:503-545 | so does every run |
| `LifecycleMachine.OneMoreLine` | harness/statemachine.py:534-536 | handling one more safe line is the model step |
| `LifecycleMachine.UnsafeIdsHalt` | harness/statemachine.py:253-262 | what halts a step is in the line alone, whatever the ledger says |
| `LifecycleMachine.LinesAreRun` | harness/statemachine.py:522-536 | handling safe lines one after the other is a run |
| `LifecycleMachine.HaltIsRun` | harness/statemachine.py:253-262 | meeting an unsafe id ends the step without a commit, with the counters as they are |
| `LifecycleMachine.OneMoreGoesOff` | harness/statemachine.py:399-426 | one more listed packet: timed out if RUNNING and overdue, else nothing; every other entry stays |
| `LifecycleMachine.OneMoreFallsBack` | harness/statemachine.py:368-373 | one more listed packet: reported if RUNNING and current, else nothing; every other entry stays |
| `LifecycleMachine.OneMoreLineOfTimeouts` | harness/statemachine.py:419-423 | the lines of one more timed-out packet are those before and its timeout event with its attempt |
| `LifecycleMachine.SweepsCompose` | harness/statemachine.py:538-541 | both sweeps in a row: reported if current, timed out if overdue and not current, unchanged otherwise; fired exactly the latter |
| `LifecycleMachine.StateMachine.constructor` | harness/statemachine.py:98-103 | the empty system |
| `LifecycleMachine.StateMachine.BumpReplanCounter` | harness/statemachine.py:173-192 | counts when readable; exceeded exactly at the cap or when unreadable |
| `LifecycleMachine.StateMachine.BumpTimeoutRetryCounter` | harness/statemachine.py:195-218 | the same with its own cap |
| `LifecycleMachine.StateMachine.Record` | harness/statemachine.py:362-366 | appends the row, moves the packet, counts an attempt for t9 and t37 |
| `LifecycleMachine.StateMachine.Absorb` | harness/statemachine.py:279-316 | the five confirmations and late events, in order: absorbed rows are what the decision says, and none applies otherwise |
| `LifecycleMachine.StateMachine.TakeEdge` | harness/statemachine.py:342-366 | takes an edge or refuses it at its cap, with the counter bumped either way |
| `LifecycleMachine.StateMachine.Route` | harness/statemachine.py:317-366 | the rest of the decision for an event not absorbed |
| `LifecycleMachine.StateMachine.ApplyEvent` | harness/statemachine.py:251-366 | one event changes packets and counters as the decision says, and returns the state reached, nothing, or the halt on an unsafe id |
| `LifecycleMachine.StateMachine.ReadLoop` | harness/statemachine.py:522-536 | folds every line from the cursor up to the end, once each, or up to the first unsafe id, and counts exactly the lines that end in a dead letter |
| `LifecycleMachine.StateMachine.Reconcile` | harness/statemachine.py:368-373 | the sweep is a run: listed RUNNING packets with a current report become REPORTED by t4, and every other entry keeps its value |
| `LifecycleMachine.StateMachine.WatchdogSweep` | harness/statemachine.py:375-427 | the sweep is a run; it fires for exactly the listed RUNNING overdue packets, once each: one t5 row and one timeout line with the attempt of that packet, in order; every other entry keeps its value |
| `LifecycleMachine.StateMachine.Step` | harness/statemachine.py:503-545 | a whole step is a run of the system, so the theorems above hold of it; it halts, with ledger and log unchanged, exactly when an unsafe id is between its cursor and the end of the log; otherwise it commits the folded packets with the sweeps over them (REPORTED if current, TIMED_OUT if overdue and not current, otherwise as folded), appends exactly the timeout lines of those it fired for, moves the cursor to the end of the log it read, and counts the dead letters exactly |
| `Producers.Cascade` | harness/retry.py:245-284 | when a call retries, exactly; when the circuit, an unknown or a repeated class decides, exactly; which class each other decision means; the attempt asked for is the next and within the class limit |
| `Producers.FindRetry` | harness/retry.py:99-120 | finds a retry of that number exactly when the log holds one |
| `Producers.PriorOutcome` | harness/duty_route.py:42-53 | finds an outcome exactly when the log holds one |
| `Producers.ForeignKeepsCall` | harness/retry.py:285-305 | no step of anybody else ends or alters a call |
| `Producers.EventProducers.constructor` | harness/retry.py:231 | the empty system |
| `Producers.EventProducers.Interfere` | harness/retry.py:285-305 | whatever others do to the files, the call and its admission stay as they are |
| `Producers.EventProducers.AdmitFailedPacket` | harness/retry.py:198-217 | under a lock no step takes: a packet the ledger knows is left alone, an unknown one is put into the ledger that was read, whatever was committed meanwhile; it fails only on a busy lock |
| `Producers.EventProducers.EndRetry` | harness/retry.py:285-305 | under the event lock the retry is appended exactly when its number is not in the log |
| `Producers.EventProducers.EndGivenUp` | harness/retry.py:254-283 | a call that gives up appends its review or dead-letter event |
| `Producers.EventProducers.ProceedToRetry` | harness/retry.py:276-305 | after its decision a call changes its mind only when the same retry was appended by another, or fails on the admission lock |
| `Producers.EventProducers.RetryMain` | harness/retry.py:219-306 | a whole call, with anything happening after its snapshot, inside its admission and before the event lock, is a run of the system; it retries only what the cascade lets it, the last line is then the retry with the next attempt, or the review or dead-letter event of its decision; an unknown packet is read for admission first; it does nothing to a packet that has not failed |
| `Producers.EventProducers.DutyGate` | harness/duty_route.py:128-147 | the codes 2 and 3 before a ruling is made: wrong state, no source for a ruling, or already adjudicated |
| `Producers.EventProducers.EndDuty` | harness/duty_route.py:153-160 | under the event lock the outcome is appended exactly when the log holds none of the packet |
| `Producers.EventProducers.Adjudicate` | harness/duty_route.py:120-164 | a whole adjudication, with anything happening while the ruling is made, is a run; its code says whether it was a usage error, already adjudicated, terminal or routed, and the event appended is the gated class |
| `StaleAdmission.SecondRetryCountsAsFirst` | harness/retry.py:198-217 | for any two packets a run from the empty system in which the second retry of one is about to be counted as its first attempt |
| `StaleAdmission.SecondRetryMeansTakenBack` | harness/retry.py:198-217 | in any such run an admission took an attempt back |
| `StaleAdmission.ReplaceRevertsCommits` | harness/retry.py:207-217 | a replace puts every other packet and the cursor back to where the admission read them |
| `StaleAdmission.AdmissionSurvivesCommitWhen` | harness/statemachine.py:503-545 | an admission written during a step survives its commit if and only if the step met the packet itself |
| `LineLog.CursorsAgree` | harness/statemachine.py:507-545 | in every run of the byte log, what a step reads from its byte cursor on are exactly the lines of the log from its line cursor on |
| `LineLog.ChunksExtendLines` | harness/statemachine.py:514-525 | whatever is appended, whole or torn, earlier lines stay and new ones come after |
| `LineLog.WholeLineIsOneEvent` | harness/statemachine.py:112-118 | a whole line after a whole line is exactly one more event |
| `LineLog.FoldsStayJoined` | harness/statemachine.py:542-545 | a committed fold of the bytes and a step that reads every line stay in the same place |
| `LineLog.PutBackStaysJoined` | harness/retry.py:207-217 | so do both when an old ledger is put back |
| `LineLog.ReadEvents` | harness/statemachine.py:520-536 | the lines the byte loop returns are the lines the state machine handles |
| `LineLog.RunKeepsClear` | harness/statemachine.py:253-262 | no copy of the ledger is ever past an unsafe id |
| `LineLog.NothingPassesAnUnsafeId` | harness/statemachine.py:253-262 | in every run no committed cursor passes a line with an unsafe id: nothing behind it is folded any more |
| `Split.SplitIsExact` | harness/refill_controller_v2.py:592-610 | the parts sum to exactly min(max(total, 0), sum of pending) and none exceeds its pending, for any number of pools |
| `Split.SplitIsFair` | harness/refill_controller_v2.py:598-607 | each part differs from its exact quota by less than one |
| `Split.RoundedUpHadMore` | harness/refill_controller_v2.py:602-607 | no pool rounded down has a larger remainder than one rounded up |
| `Split.SmallSplit` | harness/refill_controller_v2.py:599-610 | below the grand total the parts are the floors, some raised by one, and sum to the total |
| `Split.FullSplit` | harness/refill_controller_v2.py:596-610 | from the grand total on, every pool gets all it asks for |
| `Split.SharesAddUp` | harness/refill_controller_v2.py:599-600 | floors times grand total plus remainders is total times pending |
| `Split.LeftOver` | harness/refill_controller_v2.py:601 | what the floors leave is never negative and at most the number of pools with a remainder |
| `Split.SortIs` | harness/refill_controller_v2.py:602 | the order is the wanting pools, once each, remainders descending |
| `Split.AwardAllIs` | harness/refill_controller_v2.py:602-609 | the award loop rounds up the first of that order, one each, and the final cap changes nothing |
| `Split.SplitDeficit` | harness/refill_controller_v2.py:592-610 | the loops compute the split |
| `Split.Shares` | harness/refill_controller_v2.py:599-600 | the floors and remainders |
| `Split.Award` | harness/refill_controller_v2.py:602-610 | the award loop with its early exit |
| `Split.TiesGoFirst` | harness/refill_controller_v2.py:602 | of two pools with the same remainder the earlier one is rounded up first |
| `Refill.SyncedIsCovered` | harness/refill_controller_v2.py:226-263 | after a sync every pool counts at least the sum of its parents' counts, whichever parents are added up |
| `Refill.ParentsAreDemand` | harness/refill_controller_v2.py:238-261 | the demand of distinct parents is part of the demand of the pool |
| `Refill.DebtIsPending` | harness/refill_controller_v2.py:450-486 | from such a queue, parent borrowing included, debt and deficit stay within what is pending in every pool |
| `Refill.DebtExceedsPendingWhen` | harness/refill_controller_v2.py:480-482 | for any queue, debt exceeds pending if and only if the parents ask a required pool for more than that |
| `Refill.DebtExceedsParentsWhen` | harness/refill_controller_v2.py:450-482 | the same for the debts the registered parents really have |
| `Refill.LoweredQueueOwesMore` | harness/refill_controller_v2.py:216-218 | taking tasks out of a pool by hand, but not all, leaves a parent that owes more than is pending |
| `Refill.OneOfTwoTaken` | harness/refill_controller_v2.py:216-218 | such a queue: two tasks of one parent, one taken out |
| `Refill.DebtWithinPending` | harness/refill_controller_v2.py:480-486 | parent demand within pending keeps debt and deficit within it |
| `Refill.ParentDebtsAreQueued` | harness/refill_controller_v2.py:451-468 | the parents' debts are backlog they have queued in that pool |
| `Refill.DeficitFits` | harness/refill_controller_v2.py:484-486 | running + initializing + deficit never pass max(target_total, running + initializing) |
| `Refill.DeficitIsCapped` | harness/refill_controller_v2.py:484-485 | the guard on the total is redundant |
| `Refill.DeficitIsSplit` | harness/refill_controller_v2.py:480-486 | the deficits sum to their total and each is at most what its pool may spawn, at most its debt |
| `Refill.ParentFits` | harness/refill_controller_v2.py:505-515 | no parent is spawned past its own target, past the capacity, or out of a pool it has no backlog in; an inactive one never |
| `Refill.DebtRestoresTarget` | harness/refill_controller_v2.py:470-482 | spawning a pool's debt restores its target or everything pending |
| `Refill.LonePoolFillsTotal` | harness/refill_controller_v2.py:422-427 | a pool with the only pending work is given all capacity of the total, or all it has pending |
| `Refill.PairSplit` | harness/refill_controller_v2.py:592-610 | the split for two pools |
| `Refill.RefillController.constructor` | harness/refill_controller_v2.py:141-153 | an empty queue |
| `Refill.RefillController.QueueSyncLedger` | harness/refill_controller_v2.py:226-266 | afterwards the queue is exactly the demand of the ledger, by pool and by parent |
| `Refill.RefillController.QueueRemove` | harness/refill_controller_v2.py:216-218 | lowers a pool, at least to nothing, and keeps the parents |
| `Refill.RefillController.SumParentDebts` | harness/refill_controller_v2.py:450-468 | the debts of the active parents, pool by pool |
| `Refill.RefillController.ParentStates` | harness/refill_controller_v2.py:488-538 | every registered parent gets its state |
| `Refill.RefillController.Recompute` | harness/refill_controller_v2.py:405-589 | publishes the required pools, debts, deficits and parent states of what it saw; the pools are restored to the targets of the policy as `PoolsAreRestored` says |
| `Refill.PoolsAreRestored` | harness/refill_controller_v2.py:414-482 | of every published state, in the policy's own fields: without borrowing, running + debt of v4 is at least min(v4 target, running + pending) and at most max(v4 target, running, running + parent demand), the same for k3 with the k3 target; with one borrowing pool that bound is the total and the idle pool owes nothing; a finalized release owes nothing |
| `Refill.DeficitsAreUsed` | harness/refill_controller_v2.py:484-486 | the published deficits are all debt that is not starting already, as far as the total leaves room, and no pool's is more than its own |
| `Refill.ParentTargetsAre` | harness/refill_controller_v2.py:446-449 | a parent's target: what it asks for within 1 and the dialogue limit, the limit when it asks for nothing |
| `Refill.ParentsAreServed` | harness/refill_controller_v2.py:488-515 | every published parent: its debt is min(queued, lacking) when active, else 0; it may spawn min(debt, free places of its target, room of the total) out of its own queue |
| `Refill.RowsAreDemandOf` | harness/refill_controller_v2.py:226-263 | which pool and parent a ledger row is demand of, in terms of its fields |
| `Selection.NoOvershoot` | harness/refill_consumer_v2.py:261-363 | end to end: with the tasks selected from a recomputed state, running + initializing + selected <= max(target_total, running + initializing) |
| `Selection.NoParentOvershoot` | harness/refill_consumer_v2.py:331-360 | the same for every parent against its own target |
| `Selection.TasksAreAllowed` | harness/refill_consumer_v2.py:324-360 | selected tasks are distinct, at most the deficit of their pool, and within each parent's spawn quota |
| `Selection.TasksAreEligible` | harness/refill_consumer_v2.py:287-322 | every task is a DISPATCHABLE packet of the ledger, not a release review, whose parent is active under its manifest and in the same snapshot |
| `Selection.RoundRobinIsFair` | harness/refill_consumer_v2.py:324-362 | in the runs the rounds produce, no bucket gets its (k+2)-th task while one holding k tasks still has a selectable row |
| `Selection.NextMeansOthersDead` | harness/refill_consumer_v2.py:324-362 | in such a run a bucket ahead of another gets its next task only when the other has no selectable row |
| `Selection.SelectionIsMaximal` | harness/refill_consumer_v2.py:324-363 | when the selection ends, every eligible packet was taken or fits its pool or parent quota no more |
| `Selection.QuotasAreSpent` | harness/refill_consumer_v2.py:357-359 | picked + left = granted, by pool and by parent |
| `Selection.RunIsDistinct` | harness/refill_consumer_v2.py:339 | no packet is picked twice |
| `Selection.KeptOrPicked` | harness/refill_consumer_v2.py:339 | no row is lost: it is still in its bucket or was picked |
| `Selection.DeadStaysDead` | harness/refill_consumer_v2.py:329-336 | a bucket with nothing selectable never has anything again |
| `Selection.ParentQuotasAreKept` | harness/refill_consumer_v2.py:332-334 | both pools together stay within a parent's quota |
| `Selection.TasksAreDemand` | harness/refill_consumer_v2.py:287-319 | what may be selected is demand the ledger sync counted, in the same pool and for the same parent |
| `Selection.Buckets` | harness/refill_consumer_v2.py:286-322 | every eligible packet is in the bucket of its parent, in ledger order |
| `Selection.FirstFit` | harness/refill_consumer_v2.py:329-336 | the first row that fits, or none exactly when none fits |
| `Selection.Visit` | harness/refill_consumer_v2.py:326-360 | the visit of one bucket takes its first row that fits, in turn, or stops at an unsound one |
| `Selection.Round` | harness/refill_consumer_v2.py:325-360 | one round gives each bucket its one task or finds nothing selectable in it; what it takes is in turn; a round without any task leaves nothing selectable anywhere |
| `Selection.SelectTasks` | harness/refill_consumer_v2.py:261-363 | terminates with a fair run that nothing selectable survives, all its tasks sound, or stops where the pick whose turn it is is an unsound packet |
| `Selection.EligibleWhen` | harness/refill_consumer_v2.py:287-322 | which packets may be selected, and into which pool, in terms of their fields |
| `Selection.SoundWhen` | harness/refill_consumer_v2.py:339-356 | which picked rows are accepted: sound file, known role, the pool of that role |
| `Selection.LeftOversFindNoRoom` | harness/refill_consumer_v2.py:324-363 | when a selection ends, an eligible packet not taken finds as many tasks of its pool as the deficit, or of its parent in that pool as the quota |
| `Selection.BucketIsInOrder` | harness/refill_consumer_v2.py:287-322 | rows stand in their bucket in ledger order |
| `Roster.OlderRunsAreShutOut` | harness/lifecycle_supervisor.py:152-163 | once a strictly newer run owns a packet no update of an older run changes its row, whatever happens in between |
| `Roster.PeersMayTakeOver` | harness/lifecycle_supervisor.py:160-163 | a `starting` announcement takes the row if and only if its start is not older: equal start times do not protect an owner |
| `Roster.PeersTakeTurns` | harness/lifecycle_supervisor.py:160-163 | two runs with equal starts take the row from each other, for any two runs |
| `Roster.RunKeepsStamp` | harness/lifecycle_supervisor.py:152-176 | an owned row carries the start of its owner, which never decreases |
| `Roster.TerminalEvidenceIsKept` | harness/lifecycle_supervisor.py:177-191 | a run that turned terminal while it owned the packet keeps a terminal history row for ever |
| `Roster.HistoryIsAppendOnly` | harness/lifecycle_supervisor.py:164-191 | histories only grow at their end |
| `Roster.RunSpeaks` | harness/lifecycle_supervisor.py:152-192 | the live row speaks for its owner only, every history row for the run it names |
| `Roster.ReportIsOwn` | harness/headless_wave.py:223-277 | a reported status was set by an update of that same run; so was the report file, or it is the `report` field of the live row |
| `Roster.ReportIsOwnFile` | harness/headless_wave.py:223-277 | as long as no update sets that field, the report file is the run's own |
| `Roster.LeftoverReport` | harness/headless_wave.py:223-226 | a run that sets it leaves its file to be reported for the next one |
| `Roster.ReplacedRunIsReported` | harness/headless_wave.py:263-272 | once a run that turned terminal has been replaced, every poll reports it |
| `Roster.EventsAreUnique` | harness/lifecycle_supervisor.py:212-223 | each event of a run is in the log exactly once, however often it is appended |
| `Roster.Store.constructor` | harness/lifecycle_supervisor.py:148-151 | an empty roster |
| `Roster.Store.Update` | harness/lifecycle_supervisor.py:140-195 | one update of one row, as the ownership rule says; no other row changes |
| `Roster.Store.AppendEventOnce` | harness/lifecycle_supervisor.py:212-223 | appends exactly when the event is not there |
| `Roster.Poll` | harness/headless_wave.py:257-279 | one pass settles exactly the runs whose roster row or history reports them |
| `Roster.WaitForTerminal` | harness/headless_wave.py:239-291 | a result is the report of the first pass that read one for that run, or a timeout exactly when no pass read one |
| `Roster.LateRunsAreRefused` | harness/lifecycle_supervisor.py:152-163 | an update of another run than the owner changes nothing unless it announces itself with a start not before the owner's |
| `Roster.TakeOverStartsClean` | harness/lifecycle_supervisor.py:164-176 | a run that takes the row over owns it with its own attempt, without any diagnostics of another run, with everything else kept and a history row for it |
| `Roster.OwnUpdatesApply` | harness/lifecycle_supervisor.py:177-192 | an owner's update sets its fields and keeps the others; a change of state leaves one history row, a terminal one with the evidence of the update |
| `Roster.LiveRowsAreReported` | harness/headless_wave.py:257-277 | the owner's row is reported as soon as it is terminal, not before, with its status and published file |
| `Roster.ReplacedRunsAreReportedLast` | harness/headless_wave.py:260-277 | a replaced run is reported by its last terminal history row, with the file published in it |
| `Manifest.AdmissionSurvivesCrashes` | harness/parent_manifest_importer.py:240-329 | after any number of imports cut off at any write, with admitted packets moving on meanwhile, one completed import leaves the packets and admissions of one never interrupted |
| `Manifest.AdmissionSurvivesOthers` | harness/parent_manifest_importer.py:240-329 | the same with stops of parents and imports of other manifests in between: if the parent is still active, the packets and admissions of the manifest are those of an uninterrupted import |
| `Manifest.StoppedParentsAdmitNothing` | harness/parent_manifest_importer.py:232-237 | if it was stopped, every later import is refused and changes nothing |
| `Manifest.ImportSeesItsOwn` | harness/parent_manifest_importer.py:251-295 | an import depends on its own packets and on whether its parent was stopped |
| `Manifest.OtherImportIsUnseen` | harness/parent_manifest_importer.py:251-308 | another manifest's import leaves the packets of this one alone |
| `Manifest.CrashesAloneLeaveNoTrace` | harness/parent_manifest_importer.py:240-329 | without such moves the ledger is the same to the last field |
| `Manifest.CutIsAbsorbed` | harness/parent_manifest_importer.py:296-310 | one cut-off import is absorbed by the next |
| `Manifest.CutKeepsAdmissible` | harness/parent_manifest_importer.py:277-295 | a cut-off import never turns into a collision, nor hides one |
| `Manifest.ImportAltersNothing` | harness/parent_manifest_importer.py:277-308 | no entry or packet already there is changed: state, history and attempts included |
| `Manifest.ImportAddsTasks` | harness/parent_manifest_importer.py:303-310 | what is added is a task of the manifest, fresh, and never an entry before its packet |
| `Manifest.ImportSeesContracts` | harness/parent_manifest_importer.py:278-295 | only the immutable contract of an entry decides an import |
| `Manifest.ImportsCommute` | harness/parent_manifest_importer.py:240-310 | imports of different manifests commute, cut off or not |
| `Manifest.AllArePresent` | harness/parent_manifest_importer.py:293-295 | after a completed import the next counts every task as existing |
| `Manifest.PidTextIsInjective` | harness/parent_manifest_importer.py:209-211 | different manifest and task ids hash different texts |
| `Manifest.PlanFillsPackets` | harness/parent_manifest_importer.py:250-305 | writing the plan fills in the missing packet files |
| `Manifest.PlanFillsEntries` | harness/parent_manifest_importer.py:250-307 | and the missing ledger entries |
| `Manifest.DeathIsCut` | harness/parent_manifest_importer.py:303-310 | what is on disk after a prefix of the plan is the cut of the same tasks |
| `Manifest.Importer.constructor` | harness/parent_manifest_importer.py:231-246 | an empty disk |
| `Manifest.Importer.Check` | harness/parent_manifest_importer.py:135-206 | accepts exactly the documents that are enabled, within limits, with distinct task ids and known roles |
| `Manifest.Importer.PlanBatch` | harness/parent_manifest_importer.py:250-300 | refuses exactly when some task collides, before any write; otherwise the plan and the count of those present |
| `Manifest.Importer.WriteBatch` | harness/parent_manifest_importer.py:303-308 | writes a prefix of the planned packet files and collects the ledger |
| `Manifest.Importer.AdmitBatch` | harness/parent_manifest_importer.py:245-310 | under the ledger lock: refused without a write, cut at a prefix, or packets and ledger of the whole batch |
| `Manifest.Importer.ImportManifest` | harness/parent_manifest_importer.py:218-329 | a whole import with a death anywhere or a Stop in its race window: refused exactly when inadmissible and then unchanged; done, every task is admitted with a fresh or its earlier entry; a stopped parent is not reactivated |
| `Manifest.AdmissibleWhen` | harness/parent_manifest_importer.py:135-295 | when exactly a manifest is admitted, in terms of its fields and of what is on disk under the ids of its tasks |
| `Manifest.DoneMeansAdmitted` | harness/parent_manifest_importer.py:250-328 | after a completed import every task has its packet and entry, a new entry DISPATCHABLE with no history and no attempts, an earlier one as it was, and the parent is registered with it |
| `Admission.ImportedTasksAreDemand` | harness/parent_manifest_importer.py:255-273 | what an import newly admits is demand for the ledger sync of the refill controller: in the pool of its role and for its parent |
| `Budget.TokensAreConserved` | harness/budget_controller.py:223-353 | over every sequence of register, record, extend and reclaim on an open task: allocations + pool + retired tokens stay what it was opened with, and nothing is negative |
| `Budget.StepConserves` | harness/budget_controller.py:223-353 | the same for one operation |
| `Budget.RegisterConserves` | harness/budget_controller.py:242-247 | registering moves tokens and makes none, unbudgeted mode included |
| `Budget.RegisterKeepsSound` | harness/budget_controller.py:235-245 | registering keeps every component non-negative if and only if the agent is known, a task is open, something is left or nothing is wanted |
| `Budget.UnbudgetedPoolGoesNegative` | harness/budget_controller.py:235-245 | without a task the first registration takes what it wants out of an empty pool |
| `Budget.SharesBeforePool` | harness/budget_controller.py:242-246 | an agent gets min(want, share + pool), the pool only once the share is used up, and no other share changes |
| `Budget.SecondReclaimIsEmpty` | harness/budget_controller.py:313-327 | a second reclaim returns nothing and changes no table |
| `Budget.StateIsTheLadder` | harness/budget_controller.py:274-310 | within an opened task the stored state is always the threshold function of consumed / ceiling, and it never falls |
| `Budget.StepIsOnLadder` | harness/budget_controller.py:274-310 | the same for one operation, whatever the clock |
| `Budget.ClockNeverMatters` | harness/budget_controller.py:293-309 | runs that differ only in whether the cooldown has passed end alike |
| `Budget.LadderIsMonotone` | harness/budget_controller.py:282-285 | a larger ratio is no lower on the ladder, whatever the thresholds |
| `Budget.OpenFits` | harness/budget_controller.py:190-208 | the opened shares fit the ceiling if and only if capped Sol plus floored K3 fit it by themselves |
| `Budget.FixedSharesMayNotFit` | harness/budget_controller.py:190-208 | a capped Sol and one verifier that costs the whole ceiling pass it |
| `Budget.FittedOthers` | harness/budget_controller.py:201-208 | the other roles get at most what those leave |
| `Budget.FlooredShare` | harness/budget_controller.py:196-200 | flooring raises the K3 share to at most the floor, and no other |
| `Budget.FloorIsNearlyMet` | harness/budget_controller.py:196-200 | the floor is met within one token a role, and not at all when no K3 role has a cost |
| `Budget.FreeVerifierGetsNothing` | harness/budget_controller.py:196-200 | a verifier without a cost misses any floor |
| `Budget.OddFloorIsMissed` | harness/budget_controller.py:196-200 | two roles of one token each miss an odd floor by one token |
| `Budget.ShapingKeepsRoles` | harness/budget_controller.py:190-208 | shaping changes amounts, not roles |
| `Budget.OpenedIsSound` | harness/budget_controller.py:210-218 | an opened task holds exactly its shaped shares, on the ladder |
| `Budget.OpenedTaskIsSound` | harness/budget_controller.py:171-353 | from opening on, every run conserves exactly the shaped shares with its state on the ladder |
| `Budget.BudgetController.constructor` | harness/budget_controller.py:142-149 | no task |
| `Budget.BudgetController.OpenTask` | harness/budget_controller.py:171-221 | refuses exactly a non-positive ceiling; otherwise the shaped shares, nothing consumed |
| `Budget.BudgetController.RegisterAgent` | harness/budget_controller.py:223-249 | exceeded exactly when an open task has nothing left; otherwise the grant is the agent's allocation |
| `Budget.BudgetController.RecomputeState` | harness/budget_controller.py:274-310 | the ladder with its hysteresis |
| `Budget.BudgetController.RecordUsage` | harness/budget_controller.py:252-272 | records the use on the agent, moves the state to its rung or keeps it, and is breached exactly in BREAK with the agent over its share |
| `Budget.BudgetController.ReclaimUnused` | harness/budget_controller.py:313-327 | returns what the pool gained: the unused part |
| `Budget.BudgetController.ExtendOrWrapUp` | harness/budget_controller.py:329-353 | continues exactly below 85 %; extends by exactly half the share, as far as the pool goes, when verified and not in BREAK; wrapping up changes nothing |
| `Budget.StateIsOnItsRung` | harness/budget_controller.py:282-285 | within an opened task: BREAK exactly above the break threshold, DEGRADE from its threshold on, THROTTLE from its threshold on, NORMAL below |
| `Budget.SharesAreShaped` | harness/budget_controller.py:190-208 | Sol gets min(asked, cap); a role that is neither Sol nor K3 never more than it asked for |
| `Budget.FittingAsksAreKept` | harness/budget_controller.py:190-208 | what meets cap, floor and ceiling as asked for is opened as asked for |
| `Install.InstallRoundTrip` | harness/install_user_config.py:152-262 | any number of installs with changing sources, failing ones included, and one restore bring every file back to its bytes or absence before the first |
| `Install.RestoreKeepsEdits` | harness/install_user_config.py:245-259 | a user's own edit of a managed file survives a restore, and every other file still goes back |
| `Install.InstallTracks` | harness/install_user_config.py:155-206 | an install keeps the ledger true to the originals |
| `Install.InstallsTrack` | harness/install_user_config.py:155-206 | and so do any number of them |
| `Install.RestoredAt` | harness/install_user_config.py:241-259 | what a restore makes of one file |
| `Install.SkippedAre` | harness/install_user_config.py:246-248 | exactly the listed files the user changed or removed are skipped |
| `Install.StopIsFinal` | harness/install_user_config.py:253-255 | nothing is put back from the first bad backup on |
| `Install.UserConfig.constructor` | harness/install_user_config.py:160-164 | a home without a restore ledger |
| `Install.UserConfig.PlanAgents` | harness/install_user_config.py:135-144 | exactly the agents whose file is absent or differs, before any write |
| `Install.UserConfig.BackUp` | harness/install_user_config.py:177-200 | first touch remembers the original, later ones keep it |
| `Install.UserConfig.WriteTargets` | harness/install_user_config.py:194-227 | all targets written, or a failure at any write rolled back completely |
| `Install.UserConfig.RollBack` | harness/install_user_config.py:211-227 | every file is as it was, written yet or not |
| `Install.UserConfig.InstallFiles` | harness/install_user_config.py:128-228 | done: everything `InstalledIsAll` says, whether or not it had to be written; refused or rolled back: files and restore ledger unchanged |
| `Install.UserConfig.RestoreOne` | harness/install_user_config.py:245-258 | one file put back, skipped exactly when not as installed, or stopped by a bad backup |
| `Install.UserConfig.Restore` | harness/install_user_config.py:231-262 | the files and the skipped list; the ledger is dropped exactly when nothing was skipped |
| `Install.AgentsHoldSources` | harness/install_user_config.py:139-144 | after an install every agent file holds exactly its source, written or not |
| `Install.FileIsWrittenWhen` | harness/install_user_config.py:141-154 | a file is written if and only if it is an absent or different agent's, or the config with rendered text |
| `Install.InstalledIsAll` | harness/install_user_config.py:139-206 | a finished install, file by file and entry by entry: agents hold their sources, the config its text, every other file is as before; the ledger gains exactly the agents absent or different before and the config, with what was there before |
| `DagAssert.AssertDag` | harness/dag_assert.py:46-78 | passes exactly when the edge relation, duplicates and self-loops included, has no cycle and every wave loads and is path-disjoint; a cycle is reported exactly when there is one, with the counts |
| `DagAssert.SortsTopologically` | harness/dag_assert.py:50-63 | the removal loop answers true exactly for acyclic graphs |
| `DagAssert.OrderMeansAcyclic` | harness/dag_assert.py:55-63 | if every node can be removed in order there is no cycle |
| `DagAssert.StuckMeansCycle` | harness/dag_assert.py:62-63 | where every node left has a predecessor left there is a cycle |
| `DagAssert.EmptyQueueMeans` | harness/dag_assert.py:54-63 | with the queue empty, all nodes are gone if and only if the graph is acyclic |
| `DagAssert.RemovalIsOrdered` | harness/dag_assert.py:56-61 | a node is removed after all its predecessors |
| `DagAssert.CountEdges` | harness/dag_assert.py:51-53 | the in-degrees, duplicates counted |
| `DagAssert.InitialQueue` | harness/dag_assert.py:54 | exactly the nodes without an edge in |
| `DagAssert.CountOff` | harness/dag_assert.py:57-61 | removing a node counts its edges off and queues exactly the nodes that reach zero |
| `DagAssert.OverlapIsNesting` | harness/dag_assert.py:64-77 | two paths clash exactly when the components of one are a prefix of the other's |
| `DagAssert.TextPrefixIsPartPrefix` | harness/dag_assert.py:64-76 | for closed paths a text prefix is a component prefix |
| `DagAssert.SlashesDoNotCount` | harness/dag_assert.py:64 | trailing slashes do not matter |
| `DagAssert.ComparePaths` | harness/dag_assert.py:74-76 | finds a clash exactly when there is one, and it is one |
| `DagAssert.CheckWave` | harness/dag_assert.py:66-77 | a wave passes exactly when every packet loads and no two positions clash; the clash reported is real |
| `DagAssert.CheckWaves` | harness/dag_assert.py:65-77 | all waves |
| `DagAssert.NormAddsOneSlash` | harness/dag_assert.py:64 | a path without a trailing slash is compared as itself and one slash |
| `DagAssert.PartsJoin` | harness/dag_assert.py:64 | the components are the text between slashes: joined again they are the path |
| `Reducer.PassMeansAllPass` | harness/result_reducer.py:321-353 | the verdict is pass if and only if there is a verdict, all of them pass and nothing is inconsistent |
| `Reducer.OrderDoesNotMatter` | harness/result_reducer.py:316-353 | the order of arrival does not matter |
| `Reducer.MoreIsStricter` | harness/result_reducer.py:321-353 | a record more never softens the verdict, except exactly when it brings the first verdict, sound and not escalated |
| `Reducer.FirstVerdictMaySoften` | harness/result_reducer.py:348-353 | a concrete set whose escalation a later pass softens |
| `Reducer.StrictestBounds` | harness/result_reducer.py:271-276 | the strictest verdict bounds all and is one of them |
| `Reducer.CutKeepsPrefix` | harness/result_reducer.py:421-425 | a cut keeps a prefix and an exact count of what it left out |
| `Reducer.SentinelMayBeLost` | harness/result_reducer.py:420-428 | one path too many: it goes, and no count says so |
| `Reducer.FindingsAreCutSilently` | harness/result_reducer.py:420-428 | one finding too many goes without a trace |
| `Reducer.LongQuestionDoesNotFit` | harness/result_reducer.py:418-428 | a question over the budget leaves a packet over the budget |
| `Reducer.ResultReducer.constructor` | harness/result_reducer.py:181-195 | nothing collected |
| `Reducer.ResultReducer.Add` | harness/result_reducer.py:197-254 | added exactly when sound and its key is new; duplicates are counted |
| `Reducer.ResultReducer.CollectVerdicts` | harness/result_reducer.py:321-351 | the verdicts and whether anything is inconsistent, nothing at all included |
| `Reducer.ResultReducer.StrictestOf` | harness/result_reducer.py:271-276 | the strictest verdict |
| `Reducer.ResultReducer.Consolidate` | harness/result_reducer.py:301-353 | the consolidated verdict of everything collected |
| `Reducer.ResultReducer.Truncate` | harness/result_reducer.py:418-428 | the packet fits if and only if it fits without paths and findings; what is shown is a prefix with an exact count of omitted paths, findings are cut only after all paths, and nothing is cut when everything fits |
| `Reducer.VerdictIsStrictest` | harness/result_reducer.py:321-353 | in terms of the records: the strictest of what they judge, by explicit verdict or status and needed decisions, and escalated when one is unsound or none judges |
| `Reducer.OneFailureIsEnough` | harness/result_reducer.py:321-345 | one failed, blocked, stale or cancelled result without an explicit verdict, one unsound record or one needed decision is enough for no pass |

## Left out

- Process spawning, `/proc`, Win32 job objects, HTTP observers, TOML and JSON parsing, command lines, lock implementations, logging, prompts and events written for audit only.
- Wake protocol: the default taken when the request file is missing (`harness/refill_consumer_v2.py:435-437`), delayed runs and provider backoff. (pid, start ticks) is a unique runner id; the code compares the pid alone when it unlinks the marker. Work that raises in the middle of a pass is a death.
- WakeProtocol.ControlPlane.DrainRequested: the loop is cut off when the given interference ends, because under a schedule in every pass it does not leave; its contract and `LeavesWhenQuiet` say when it does.
- L2 queue: check-then-claim and read-then-replace at finer grain than one loop body, the heartbeat thread's timing, provider backoff, `max_records`, malformed pending lines, the canary. Idempotency digests are injective. A second torn claim of a key replaces the evidence of the first, as a rename does on POSIX.
- L2Queue.DispatchesAreBounded: does not bound dispatches by the budget alone, because reaper deaths exceed it; the exact condition is `L2Queue.DeathReopensAnExhaustedKey`.
- Event log: the `.sm_cursor` cache read for ledgers without a cursor, carriage returns, UTF-8 decoding and whitespace outside ASCII.
- Life cycle: dead-letter, Sol-wake and L4 files, `wave-check`, CSV reconciliation, ids that are not strings, `statemachine_v2`. Other event producers append anything but retries and duty outcomes. `record_terminal` is an adjudication with a terminal ruling.
- LifecycleWorld.RetriesAreNumberedInOrder: does not hold of every run, because an admission may take an attempt back; the exact condition is `LifecycleWorld.CountedInOrderWhen`, the failing run `StaleAdmission.SecondRetryCountsAsFirst`.
- Retry: breaker window, jitter, pattern matching, the class sidecar and tickets are inputs or left out. A call that dies anywhere is `Abandon`; a lock that stays busy fails the call. The total of retries against the run budget is taken as the call saw it; over a whole run it is not a bound, because snapshots can be stale.
- Refill: low-water marks and reason texts, roster and observer counting (what runs and starts is an input), release finalize and resume, manual queue operations other than a removal, manifest ids carried in queue rows, event output.
- Refill.RefillController.Recompute: does not publish reasons, low-water marks, manifest ids or events, because they are reports that nothing else of the model reads.
- Selection: buckets and packets come in the order given; `task_name` and the other output fields are not carried; the checks on a packet file are membership in a set of sound files.
- Roster: an unreadable roster, times, rows written without any run id (the theorems over runs require one), recovery of a live supervisor (an ordinary update of its run). Supervisors announce themselves before anything else and with one start time per run.
- Roster.ReportIsOwn: does not say that a file taken from the `report` field is the run's own, because it may not be (`Roster.LeftoverReport`).
- Manifest.Importer.Check: does not model the checks on text, UUIDs, working directories and paths, which compare strings only.
- Manifest.Importer.ImportManifest: does not model an unreadable ledger, nor the event and the wake-up after admission, which is a schedule of `WakeProtocol`.
- Manifest: packet ids are injective digests of `PidText`.
- Budget: floating point, modelled by exact reals and floors; cost models, caps and floors are inputs; agent ids that begin with `role:`; the tracker block and the global quota check.
- Install: the merge of the config text (its result is an input), time-stamped side copies, dry runs, path checks, and a process that dies during an install without rolling back.
- DAG gate: malformed edges and input files other than a missing packet or missing paths.
- Reducer: candidate ranking, the statuses of a packet, the validator and the JSON size (any estimate that is smallest without paths and findings).
