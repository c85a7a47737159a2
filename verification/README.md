# Execution engine, audit chain and generators of the APT simulator

The simulator runs *scenarios*: directed acyclic graphs of simulated techniques. A planner hands ready
steps to polling agents, a history store keeps a second copy of the same state, a hash-chained audit log
records what happened and feeds a live dashboard, a small Sigma evaluator decides whether a detection rule
matches an event, and generators number and expand scenario and catalog variants. This project models that
logic and proves what holds of it over all histories and all inputs.

## How the model is laid out

Code that updates state in place is a class or a loop proved against functions on values, and the theorems
are about those functions.

| Part | Values and laws | State in place |
|---|---|---|
| Dependency graphs, validation, topological sort | `Graphs`, `Scenarios` | loops in `Graphs`, `Scenarios` |
| One run, the planner | `RunModel`, `RunProperties`, `PlannerModel`, `Completion`, `Schedules` | `Planner` (classes `Run`, `Planner`) |
| History store | `StoreModel` | `Repository` |
| API calls that drive both | `WorldModel`, `Simulation`, `StoredRows`, `Retries`, `Trail`, `Witnesses` | `Orchestrator` (class `AppState`) |
| Offline runner of the agent | `LocalRunner` | loops in `LocalRunner` |
| Audit log, event bus, live feed | `AuditChain`, `LiveFeed`, `LoggedFeed` | `AuditLog`, `EventBus` |
| Campaign scheduling | `Campaigns` | class `Campaign` |
| Sigma conditions and field matching | `Sigma`, `Values`, `Detection` | |
| Scenario variants and generation | `MixedRadix`, `Combinations`, `Text`, `ScenarioBuilder` | loops in `ScenarioBuilder` |
| Catalog scale packs | `Catalog` | `Catalog.Registry` and the loops in `Catalog` |

How the parts depend on each other: `Scenarios.ValidateDag` gives acyclicity; `Graphs.EveryoneWaitsIsCyclic`
turns "everybody waits for somebody" into a cycle and is the one argument behind the validation loop, the
planner's freedom from unexplained deadlock and the local runner's. The invariant of
`PlannerModel.HistoryKeepsInvariant` feeds the deadlock, closure and completion results (for all schedules in
`Schedules`) and, through
`Simulation.CallsAreEvents`, the bound on stored attempts. `Catalog.SelfDetection` joins the catalog
expander, string formatting and the Sigma evaluator.

## Assumptions

- Each API handler and each locked section is one atomic step. Every call takes one clock reading; readings
  at which a step or run ends are positive. Run ids are fresh.
- Random choices of the scenario generator are nondeterministic, so its contract covers every seed.
- `sha` is an arbitrary function parameter standing for SHA-256 (section 6.2 of FIPS 180-4) of the canonical
  JSON. Nothing is assumed of it: the tamper results name the collision, or the entry that hashes to the
  genesis value, that an undetected change would exhibit.
- JSON (RFC 8259) is a value type; writing, parsing and canonicalising are the identity on it, as they are
  for payloads with string keys.
- `Values.Builtins` collects the language's own operations on untyped values (text of a non-string, lower
  and upper case, truth value, numeric comparison, elaborate replacement fields); they are arbitrary
  functions, except that distinctness of catalog keys needs digits and `_` to be their own upper case, and the
  concrete pack of `Catalog.BracesBreakSelfDetection` needs "high" and "{fidelity}" to be their own lower case
  and the upper case of "T1" to be free of braces.

## Where the code differs from what its documentation says

- *Audit log.* The module says that tampering with any past line breaks the chain. Cutting lines off the end
  goes unnoticed (`AuditChain.ChainPrefix`), and so does replacing the last record by another sealed and
  linked one. `AuditChain.EditIsDetected`, `AuditChain.DeletionIsDetected` and
  `AuditChain.InsertionIsDetected` give the verdict on a replaced, deleted or inserted record exactly.
- *Sigma conditions.* The forms "X and not Y" and "X or Y" are documented without restriction, but a compound
  whose first operand is "1 of p*" or "all of p*" never matches: the whole rest of the text is taken for a
  selection name. `Sigma.EvaluationMeaning` states for every documented condition when evaluation agrees with
  the boolean reading; `Sigma.QuantifiedCompoundMissed` is a concrete rule that is missed.
- *Kill switch.* `report_result` does not look at the status of the step or run, so a late result decides an
  ended run again; an aborted run becomes completed or failed (`RunProperties.LateResultDecidesAgain`;
  `Witnesses.AbortedRunCompletes` is a history of calls that does it). The kill switch is described as halting
  all activity, but a paused run is spared and goes on once it is resumed after the switch is released
  (`RunProperties.AbortSparesPaused`, `Witnesses.PausedRunGoesOn`); for the runs it does meet, nothing is handed
  out any more without a retry (`PlannerModel.StoppedUntilRetry`).
- *Failures.* A failed step keeps the steps that directly depend on it from being handed out until the run is
  retried or a success is reported for the failed step itself, which the code accepts
  (`PlannerModel.FailureHoldsDependents`, `PlannerModel.FailureStaysIff`). While the results for the run answer
  dispatched steps this extends to all transitive dependents (`PlannerModel.FailureStrandsDependents`). A run
  without steps never completes.
- *Repeated results.* Nothing limits how often a result may be reported. Between retries the moves of a run that
  do any work are bounded (`PlannerModel.MovesBounded`); idle results are exactly the ones that are not, and
  they can be added without end (`PlannerModel.RepeatedResults`).
- *Attempts.* Retrying does not enforce `max_attempts`; only the engine's status report compares the attempt
  counter with it (orchestrator/execution_engine_v3.py:53-57). Every row allows one attempt, so the report
  counts a failed, skipped or aborted step as retryable exactly if it was never handed out
  (`Retries.CountedIffNeverHandedOut`), and a retry requeues the others all the same
  (`Retries.RetriedAlthoughNotCounted`). The counter exceeds the limit exactly from the second hand-out on
  (`Retries.OverLimitIffHandedOutTwice`), and `Retries.LimitIsExceeded` is a history that does so.
- *Audit coverage.* The architecture notes say that every state transition is audit-logged
  (docs/ARCHITECTURE.md:62). Of the status changes of a step, the log names the step exactly for hand-outs and
  for its own results (`Trail.NamedIff`). The others are cascaded skips (the entry is about the failing step),
  requeueings (the entry is about the run), and stops by the kill switch (an engagement logs its reason, a
  beacon logs nothing); `Trail.UnnamedChangeIff` says that these are all. The end of a run has no entry of its
  own (`Trail.RunEndsUnlogged`), and closing a campaign while its summary is read has none either
  (`Campaigns.UnloggedCampaignChanges`). Calls that log nothing at all change the planner only as a beacon under
  the kill switch (`Trail.UnloggedChanges`). `Witnesses.SilentAbort`, `Witnesses.CascadeWithoutEntry` and
  `Witnesses.EndWithoutEntry` are reachable histories; the first shows two states with the same log.
- *Campaigns.* Resuming a campaign that was ever scheduled schedules it again at its old time. If no repeats are
  left, the next due tick launches it beyond `repeat_count`, and only then
  (`Campaigns.ResumeOverrunsIffExhausted`, `Campaigns.CampaignRepeats`); `Campaigns.ResumesRelaunch` reaches
  the bound for every repeat count.
- *Pausing.* A paused campaign is woken not only by resuming it but also by a retry that finds a failed run
  (`Campaigns.WakesIffActive`).
- *Local runner.* A failure with `abort_on_fail` prints "Stopping" but ends only the current round; all other
  steps still run (`LocalRunner.RunRound`, `LocalRunner.RunLocal`).
- *Catalog.* A pack whose data set contains a placeholder renders it in the event but not in the rule, so its
  items detect themselves only if the fidelity happens to read like the placeholder
  (`Catalog.PlaceholderDatasetDetection`); `Catalog.BracesBreakSelfDetection` is a pack whose item does not.

## Model

| member | source | states |
|---|---|---|
| Graphs.SortGraph | orchestrator/dsl/schema.py:74-85 | The root-removing loop terminates and succeeds if and only if the graph has no cycle; the order it builds lists every node once and after all its dependencies |
| Graphs.EveryoneWaitsIsCyclic | orchestrator/dsl/schema.py:78-80 | A non-empty set in which every member waits for a member contains a real cycle, so a round without roots is a genuine cycle error |
| Graphs.OrderedIsAcyclic | orchestrator/dsl/schema.py:76-83 | A topological order excludes every cycle, of any length |
| Scenarios.AcceptsStepIdsIffUnique | orchestrator/dsl/schema.py:59-65 | Comparing the number of ids with the number of distinct ids accepts exactly the scenarios without duplicate step ids |
| Scenarios.ValidateDag | orchestrator/dsl/schema.py:67-85 | Returns normally if and only if all references exist and the graph is acyclic; each error is raised exactly for its cause, the unknown dependency being the first one in reading order |
| RunProperties.StartedKeeps | orchestrator/core/planner.py:72-81 | A validated scenario starts in a state that satisfies the run invariant |
| RunProperties.DispatchKeeps | orchestrator/core/planner.py:143-149 | Handing out a queued step of an active run keeps the run invariant |
| RunProperties.ReportKeeps | orchestrator/core/planner.py:152-178 | A result for any step in any state, with cascade and conclusion, keeps the run invariant: run status, step statuses and finishing time stay coherent, and nothing is skipped while something is queued |
| RunProperties.RetryKeeps | orchestrator/core/planner.py:111-132 | A retry keeps the run invariant |
| RunProperties.AbortKeeps | orchestrator/core/planner.py:180-193 | An abort keeps the run invariant |
| RunProperties.PauseResumeKeep | orchestrator/core/planner.py:91-109 | Pausing and resuming keep the run invariant |
| RunProperties.AbortSparesPaused | orchestrator/core/planner.py:180-193 | An abort leaves a queued step queued if and only if its run is paused, and resuming then continues as if there had been no abort |
| RunProperties.RetryTwiceIsOnce | orchestrator/core/planner.py:119-131 | A retry makes the failed, skipped and aborted steps fresh, keeps all others, and repeating it changes nothing |
| RunProperties.LateResultDecidesAgain | orchestrator/core/planner.py:167-178 | A result for an ended run fails it exactly if the result is a failure or another step failed, and completes it otherwise; an aborted run never stays aborted |
| RunProperties.ReadyMeansDependenciesSucceeded | orchestrator/core/planner.py:47-57 | Although "skipped" would satisfy a dependency, a step is ready if and only if it is queued and all its dependencies succeeded |
| RunProperties.NothingReadyMeansBlocked | orchestrator/core/planner.py:47-57 | No unexplained deadlock in a run: if no step is ready, every queued step has a transitive dependency that is dispatched or failed |
| RunProperties.NothingReadyIffBlocked | orchestrator/core/planner.py:47-57 | When results come only for dispatched steps the explanation is exact in both directions |
| RunProperties.ActiveRunAdvances | orchestrator/core/planner.py:143-149 | An active run with nothing dispatched and nothing failed has a ready step |
| RunProperties.RetryUnblocks | orchestrator/core/planner.py:111-132 | After a retry of a run with nothing outstanding there is a step to hand out |
| RunProperties.SuccessRestsOnSuccess | orchestrator/core/planner.py:47-57 | If whatever is dispatched or has succeeded has only successful direct dependencies, it has only successful transitive ones |
| RunProperties.ClosedIffTransitively | orchestrator/core/planner.py:47-57 | That closure over direct dependencies is equivalent to closure over all transitive ones |
| RunProperties.ReportKeepsClosureIff | orchestrator/core/planner.py:167-178 | Exactly which results keep the closure: a success whose dependencies succeeded, or a failure of a step that nothing dispatched or successful depends on |
| RunProperties.ReportLowersWeight | orchestrator/core/planner.py:167-178 | No result, however late, raises 2 * queued + dispatched, and it lowers it exactly if its step was queued or dispatched or it makes queued steps skipped |
| RunProperties.DispatchLowersWeight | orchestrator/core/planner.py:143-149 | A hand-out lowers 2 * queued + dispatched by one |
| PlannerModel.EventKeepsInvariant | orchestrator/core/planner.py:72-193 | Each planner operation keeps the invariant of all runs |
| PlannerModel.HistoryKeepsInvariant | orchestrator/core/planner.py:39-193 | Over all histories of starts, pauses, resumes, retries, hand-outs, results and aborts every run is coherent: running or paused iff a step is not terminal, completed excludes failures, failed has one, aborted has an aborted step, the finishing time is zero exactly while running or paused |
| PlannerModel.IdleMeansBlocked | orchestrator/core/planner.py:134-150 | If an agent gets nothing, every queued step of every active run on its platform has a transitive dependency that is dispatched or failed |
| PlannerModel.IdleIffBlocked | orchestrator/core/planner.py:134-150 | In histories whose results answer dispatched steps, an agent gets nothing if and only if that is so |
| PlannerModel.HandedOutAfterSuccess | orchestrator/core/planner.py:134-150 | In every reachable state the step handed out belongs to an active run and all its direct dependencies succeeded |
| PlannerModel.TaskIsFirst | orchestrator/core/planner.py:138-149 | The task is the first ready step, in scenario order, of the first active run, in insertion order, that targets "any" or the agent's platform and has a ready step |
| PlannerModel.LowerMeaning | orchestrator/core/planner.py:136 | The agent's platform is compared without regard to ASCII case |
| PlannerModel.StepRecords | orchestrator/core/planner.py:143-191 | What a hand-out, a result and an abort write into each step besides its status: agent and start, output, error and end, reason and end; all other fields and steps stay |
| PlannerModel.DisciplinedKeepsClosure | orchestrator/core/planner.py:134-178 | In such histories dispatched and successful steps always rest on successes |
| PlannerModel.HandoutsBounded | orchestrator/core/planner.py:111-150 | Over all histories no step is handed out more than once plus once per retry call of its run |
| PlannerModel.MovesLowerWeight | orchestrator/core/planner.py:91-193 | Between retries no event of any history raises the run's weight, and a hand-out or recorded result lowers it exactly unless it is an idle result |
| PlannerModel.MovesBounded | orchestrator/core/planner.py:134-178 | In every history, between retries, the hand-outs and non-idle results of a run are bounded by its weight at the start |
| PlannerModel.AnsweredMovesBounded | orchestrator/core/planner.py:134-178 | In histories whose results for the run answer dispatched steps, all its hand-outs and results are bounded so |
| PlannerModel.RepeatedResults | orchestrator/core/planner.py:152-178 | Without that there is no bound: any recorded result can be repeated n times, adding n moves |
| PlannerModel.FreshWeight | orchestrator/core/planner.py:72-81 | A run of n steps starts with weight 2n |
| PlannerModel.StoppedUntilRetry | orchestrator/core/planner.py:171-193 | After the kill switch meets an active run, or a step with abort_on_fail fails, no step of that run is handed out until a retry, whatever results still arrive |
| PlannerModel.FailureStaysIff | orchestrator/core/planner.py:111-178 | A failed step stays failed exactly unless its run is retried or a success is reported for it |
| PlannerModel.FailureHoldsDependents | orchestrator/core/planner.py:47-57 | In every history, until one of these happens, no step that directly depends on a failed one is handed out |
| PlannerModel.FailureStrandsDependents | orchestrator/core/planner.py:47-57 | In histories whose results for the run answer dispatched steps, until a retry a failed step stays failed and no step that depends on it, directly or not, is handed out |
| Schedules.EveryScheduleCompletes | orchestrator/core/planner.py:134-178 | For any number of agents, any interleaving, and whatever happens to other runs: a validated run of n >= 1 steps whose own results answer dispatched steps, and which meets no kill switch and no failed result, is running, paused or done; n minus its queued steps have been handed out; it is done exactly after 2n moves, n of them hand-outs; and while it is active with nothing outstanding the next agent of its platform gets a task |
| Schedules.ScheduleConserves | orchestrator/core/planner.py:134-178 | From any such state of the run on, under the same condition on its own results, hand-outs plus queued steps and moves plus weight stay constant |
| Schedules.DoneIffSucceeded | orchestrator/core/planner.py:176-178 | Such a run has no work left if and only if it is completed with all steps successful |
| Schedules.NeverStuck | orchestrator/core/planner.py:134-150 | Such a run, active with nothing dispatched, always yields a task to an agent of its platform |
| Schedules.FreshMovesBounded | orchestrator/core/planner.py:134-178 | Until it is retried a run of n steps takes at most 2n hand-outs and non-idle results in every history, and at most 2n hand-outs and results in histories whose results for it answer dispatched steps |
| Completion.ExchangeIsTwoEvents | orchestrator/core/planner.py:134-178 | One exchange of the driver is a hand-out followed by its successful result |
| Completion.DriveCompletes | orchestrator/core/planner.py:134-178 | One schedule carried through to the end: a single agent that reports each success before it asks again completes every run it may serve with all steps successful, and leaves the others as they were |
| Completion.DriveCounts | orchestrator/core/planner.py:134-150 | Under that schedule the number of hand-outs equals the number of steps settled |
| Completion.DriveFreshScenario | orchestrator/core/planner.py:72-178 | Under that schedule a validated scenario of n >= 1 steps ends completed after exactly n hand-outs |
| Planner.Run.RetrySteps | orchestrator/core/planner.py:119-132 | The loop requeues exactly the failed, skipped and aborted steps, returns how many there were, and reactivates the run if there was one |
| Planner.Run.Record | orchestrator/core/planner.py:167-178 | Records the result, cascades and concludes, as the value model does |
| Planner.Run.Abort | orchestrator/core/planner.py:184-191 | Ends every queued or dispatched step with the reason and leaves terminal steps alone |
| Planner.Planner.StartRun | orchestrator/core/planner.py:72-81 | Adds a fresh run exactly if validation passes and changes nothing otherwise |
| Planner.Planner.PauseRuns | orchestrator/core/planner.py:91-99 | Pauses exactly the listed active runs and returns their number, also with repeated ids |
| Planner.Planner.ResumeRuns | orchestrator/core/planner.py:101-109 | Resumes exactly the listed paused runs and returns their number |
| Planner.Planner.RetryFailedSteps | orchestrator/core/planner.py:111-132 | Retries one run, leaves the others alone, and returns the number of requeued steps |
| Planner.Planner.NextTaskForAgent | orchestrator/core/planner.py:134-150 | Dispatches the first ready step of the first active matching run, in insertion order, and nothing else; returns nothing only if there is none |
| Planner.Planner.ReportResult | orchestrator/core/planner.py:152-178 | Records the result in its run only; unknown runs and steps change nothing |
| Planner.Planner.AbortAll | orchestrator/core/planner.py:180-193 | Aborts every active run, leaves the others alone, and returns how many were active |
| Repository.Repository.CreateRun | orchestrator/storage/db.py:137-178 | One run row and a queued step row and queue row per step |
| Repository.Repository.UpdateRunStatus | orchestrator/storage/db.py:180-191 | Sets the status; finishing closes the pending cleanup items of that run and no others |
| Repository.Repository.UpdateStep | orchestrator/storage/db.py:193-250 | Rewrites one step row and its queue row, with the attempt, output, error and cleanup rules; unknown steps change nothing |
| Repository.Repository.RetryFailedSteps | orchestrator/storage/db.py:283-323 | Requeues exactly the failed, skipped and aborted rows of the run in both tables and returns how many step rows there were |
| Repository.Repository.MarkCleanupComplete | orchestrator/storage/db.py:325-344 | Completes the cleanup of the run's items and returns how many were open |
| Orchestrator.AppState.Launch | orchestrator/api/scenarios.py:139-149 | Run and rows appear together, or neither does |
| Orchestrator.AppState.Beacon | orchestrator/api/agents.py:57-103 | Unknown agents change nothing; under the kill switch all active runs are aborted in the planner only; otherwise the next task is dispatched in both |
| Orchestrator.AppState.ReportResult | orchestrator/api/agents.py:107-124 | The result reaches planner and store, and the run row follows once the planner's run is no longer running |
| Orchestrator.AppState.Engage | orchestrator/api/killswitch.py:21-39 | Sets the flag, aborts every active run and mirrors all aborted runs and steps to the store: the call of the same name |
| Orchestrator.AppState.RetryFailedRun | orchestrator/execution_engine_v3.py:178-189 | Retries in both and returns both counts |
| WorldModel.DoParts | orchestrator/api/agents.py:57-124 | Every API call is at most one planner event beside one store update |
| Simulation.CallKeepsKey | orchestrator/api/agents.py:68-124 | For each step, every API call keeps the stored rows following the planner |
| Simulation.HistoryKeepsSimulation | orchestrator/api/agents.py:68-124 | Over every sequence of API calls: success and failure are stored iff planned, dispatched is stored as dispatched, queued or skipped as queued or dispatched, stored aborted implies planned aborted, skipped is never stored, and step and queue rows agree |
| Simulation.EngagementIsMirrored | orchestrator/api/killswitch.py:21-37 | Whatever went before, engaging leaves every aborted step of every aborted run stored as aborted |
| StoredRows.RunRowFollows | orchestrator/api/agents.py:121-124 | Over every history, what any call makes of a stored run row: a known agent's result stores the planner's new status and the end as soon as the run is not active, an engagement stores aborted runs as aborted and ended, a retry that requeues something reactivates the row, and every other call leaves it alone |
| StoredRows.RunRowAppears | orchestrator/api/scenarios.py:139-149 | A run row appears exactly when a valid scenario is launched, with its name, active and not ended |
| StoredRows.HandedOutRows | orchestrator/api/agents.py:91-98 | A hand-out stores the agent, the first start and the attempt, and keeps every other field of both rows |
| StoredRows.ReportedRows | orchestrator/api/agents.py:112-124 | A result stores its outcome, its output up to 4000 characters, its error and the end; cleanup is not required after a success, pending after a failure, and complete once the run has ended |
| StoredRows.EngagedRows | orchestrator/api/killswitch.py:26-37 | After an engagement every aborted step of an aborted run is stored with the planner's reason and the time of the engagement |
| StoredRows.RetriedRows | orchestrator/storage/db.py:290-310 | A retry makes the retryable rows of its run as new, apart from the attempts made, and leaves the others alone |
| StoredRows.CleanedRows | orchestrator/storage/db.py:325-344 | A cleanup completes every item of its run and touches nothing else |
| StoredRows.EngagedHandsOutNothing | orchestrator/api/agents.py:68-70 | From an engagement until the switch is disengaged no agent is handed any step of any run, whatever is launched, resumed, retried or reported in between |
| Simulation.RetryRequeuesAtMost | orchestrator/execution_engine_v3.py:178-189 | A retry requeues no more stored steps than planner steps |
| Simulation.AttemptsCountHandouts | orchestrator/storage/db.py:227-232 | The stored attempt counter equals the number of times the step was handed out |
| Simulation.CallsAreEvents | orchestrator/api/agents.py:68-124 | A history of API calls is a planner history with the same hand-outs and retries |
| Simulation.AttemptsBounded | orchestrator/storage/db.py:283-323 | No step has more attempts than one plus the retries of its run |
| Retries.ReachedAllOne | orchestrator/storage/db.py:144-156 | In every reachable store each queue row allows exactly one attempt |
| Retries.OverLimitIffHandedOutTwice | orchestrator/storage/db.py:227-232 | The attempt counter exceeds the limit exactly for steps handed out at least twice |
| Retries.CountedIffNeverHandedOut | orchestrator/execution_engine_v3.py:53-57 | The status report counts a failed, skipped or aborted step as retryable exactly if it was never handed out |
| Retries.RetriedAlthoughNotCounted | orchestrator/execution_engine_v3.py:178-189 | A step that failed after a hand-out is not counted, and a retry requeues it in planner and store all the same |
| Retries.LimitIsExceeded | orchestrator/storage/db.py:283-323 | A history of six calls ends with two attempts against a limit of one |
| Trail.NamedIff | orchestrator/api/agents.py:91-135 | A call appends an entry that names a step if and only if it hands the step out or is a known agent's result for it |
| Trail.StepTransition | orchestrator/api/agents.py:57-124 | What every call makes of every step: dispatched by its hand-out, success or failed by its own result, skipped by a cascade, queued by a retry, aborted by the kill switch, and otherwise unchanged |
| Trail.UnnamedChangeIff | orchestrator/api/agents.py:68-135 | A step changes its status without an entry that names it if and only if it is cascaded, requeued or stopped by the kill switch |
| Trail.UnnamedEntries | orchestrator/api/killswitch.py:21-38 | All the log holds of such a change is an entry about the other step, about the run, about the reason, or nothing |
| Trail.RunEndsUnlogged | orchestrator/api/agents.py:121-135 | A run ends as completed or failed only by a result for one of its steps, and that step's entry is the only one |
| Trail.UnloggedChanges | orchestrator/api/agents.py:68-70 | Calls that append no entry at all leave store and agents alone, and change the planner exactly when a beacon aborts active runs under the kill switch |
| Trail.TrailCountsAttempts | orchestrator/api/agents.py:91-102 | Over every history the dispatch entries of a step in the audit log are as many as its stored attempts |
| Witnesses.SilentAbort | orchestrator/api/agents.py:68-70 | Two reachable states with the same audit log, one with the run active and one with it aborted |
| Witnesses.CascadeWithoutEntry | orchestrator/core/planner.py:171-175 | A reachable state with a skipped step that no entry of the whole log names |
| Witnesses.EndWithoutEntry | orchestrator/api/agents.py:121-135 | A reachable call that completes a run and appends only the entry of its last step |
| Witnesses.AbortedRunCompletes | orchestrator/core/planner.py:167-178 | A reachable run that the kill switch aborts and a late result then completes |
| Witnesses.PausedRunGoesOn | orchestrator/core/planner.py:180-184 | A reachable paused run that survives an engagement and, released and resumed, hands out its step |
| LocalRunner.RunLocal | agent/main.py:97-139 | The deadlock message appears if and only if the scenario is invalid; otherwise every step is handled exactly once, after its dependencies, and has the result of its technique |
| LocalRunner.RunRound | agent/main.py:110-135 | A round handles the ready steps in order, all of them or up to and including the first that fails with abort_on_fail, and nothing else |
| AuditChain.CheckExplains | orchestrator/core/audit.py:74-93 | Verification accepts exactly the readable files whose records form a chain from the genesis value, and otherwise names the first line that fails |
| AuditChain.ChainPrefix | orchestrator/core/audit.py:74-93 | Every prefix of an accepted log is accepted: truncation goes unnoticed |
| AuditChain.ScanFindsLastHash | orchestrator/core/audit.py:37-51 | Reopening an accepted file continues from the hash of its last record |
| AuditChain.SealedEntry | orchestrator/core/audit.py:55-66 | Dropping the hash of a written record gives back the entry that was hashed, linked to its predecessor |
| AuditChain.AppendWrites | orchestrator/core/audit.py:53-66 | An append adds one record with exactly the keys ts, event, payload, prev and hash, holding the given event, the previous hash and the digest of the rest, and remembers that digest |
| AuditChain.RecordsAreAppends | orchestrator/core/audit.py:37-72 | From an empty file, under every interleaving with reopenings, the records are exactly the appended events, in order |
| AuditChain.HistoryStaysValid | orchestrator/core/audit.py:37-93 | From an empty file every interleaving of appends and reopenings keeps the log valid |
| AuditChain.FailureIsPermanent | orchestrator/core/audit.py:74-93 | Nothing written later repairs or moves a failure |
| AuditChain.SameEndSameLog | orchestrator/core/audit.py:74-93 | Accepted logs with the same final hash are equal record by record, or exhibit a collision or a genesis preimage |
| AuditChain.EditIsDetected | orchestrator/core/audit.py:74-93 | The exact verdict after one record is replaced: that line, or the next record's line, and silence only for a sealed and linked last record |
| AuditChain.DeletionIsDetected | orchestrator/core/audit.py:74-93 | The exact verdict after one record is deleted: reported at the next record, silent only for the last record or a record whose digest equals the hash it links to |
| AuditChain.InsertionIsDetected | orchestrator/core/audit.py:74-93 | The exact verdict after a record is inserted: reported at its own line or at the next record, silent only for a sealed and linked one at the end or with such a digest |
| AuditLog.AuditLog.Append | orchestrator/core/audit.py:53-72 | Adds one record that holds the event and payload, links to the previous hash and carries its own, and publishes that record; an intact log stays intact |
| AuditLog.AuditLog.Verify | orchestrator/core/audit.py:74-93 | The loop returns the verdict of the chain, valid exactly for chains |
| AuditLog.AuditLog.ScanLastHash | orchestrator/core/audit.py:37-51 | The loop finds the last hash, skipping blank and malformed lines |
| EventBus.EventBus.Publish | orchestrator/core/bus.py:35-41 | Schedules one delivery per current subscriber, in order, if a loop is attached |
| EventBus.EventBus.RunNext | orchestrator/core/bus.py:43-48 | A scheduled delivery fills the queue or is dropped when the queue is full |
| EventBus.DeliveryMeaning | orchestrator/core/bus.py:43-48 | The oldest delivery is put at the end of its queue while the queue is below its size or has none, and is dropped otherwise; other queues are left alone |
| LiveFeed.FlagsIff | orchestrator/core/bus.py:35-48 | A subscriber is marked as having missed something exactly if one of its deliveries met its queue at its size, or an entry was appended for it while no loop was attached |
| LiveFeed.SubscribedIff | orchestrator/core/bus.py:24-33 | The subscribers are exactly the queues that joined and have not left since |
| LiveFeed.AttachedIff | orchestrator/core/bus.py:21-22 | A loop is attached exactly once some step has attached one |
| LiveFeed.BoundsMeaning | orchestrator/core/bus.py:24-33 | The entries a subscriber is entitled to run from the log's length at its subscription to the log's length when it left, or now |
| LiveFeed.NothingIsLost | orchestrator/core/bus.py:24-48 | A subscriber that was never marked has received, once its deliveries have run, exactly the entries it is entitled to |
| LiveFeed.FeedRefinesLog | orchestrator/core/bus.py:24-48 | In every run what a subscriber consumed and has queued is an ordered, duplicate-free part of the entries appended since it subscribed, within its queue bound, and all of them once delivered unless one met a full queue or no attached loop |
| LoggedFeed.SubscribersSeeRecords | orchestrator/core/audit.py:53-72 | Over every interleaving of appends, subscriptions, deliveries and consumption the log stays valid, and what a subscriber consumed and has queued are actual records of the log, in order, without repetition, from its subscription on, and all of them unless one met a full queue or no attached loop |
| LoggedFeed.SubscribersSeeEvents | orchestrator/core/audit.py:53-72 | Each record a subscriber sees holds the event that was written at its position of the log |
| LoggedFeed.NoEventIsLost | orchestrator/core/audit.py:53-72 | A subscriber whose queue was never at its size at one of its deliveries, and for which nothing was written without a loop, sees every event written from its subscription until it left or until now, in order |
| Campaigns.CampaignRepeats | orchestrator/api/scenarios.py:173-215 | Over every history launches plus remaining repeats equal repeat_count plus the launches with no repeat left; those are at most the resumes that meet the campaign exhausted (scheduled once, no repeats left), so without such a resume the sum is exactly repeat_count |
| Campaigns.LaunchesArePaid | orchestrator/api/scenarios.py:193-215 | The same from any campaign state that is not waiting without repeats |
| Campaigns.ResumeOverrunsIffExhausted | orchestrator/api/scenarios.py:496-506 | A resume followed by a due tick launches without using up a repeat if and only if the campaign was exhausted |
| Campaigns.ResumesRelaunch | orchestrator/api/scenarios.py:496-506 | For every repeat count and number of resumes, a scheduled campaign launches once plus once per resume, which exceeds repeat_count by exactly the resumes that met it exhausted |
| Campaigns.PausedLaunchesNothing | orchestrator/api/scenarios.py:483-493 | Pausing puts any campaign on hold, and then it launches nothing and keeps its repeats under every history of ticks, summaries, pauses and retries until it is resumed or a retry finds a failed run |
| Campaigns.WakesIffActive | orchestrator/api/scenarios.py:496-531 | Exactly a resume and a retry that finds a failed run end the pause of a campaign |
| Campaigns.RescheduledIff | orchestrator/api/scenarios.py:202-211 | A tick puts a running campaign back on schedule, one interval ahead, exactly if it has an interval, repeats left and runs, all of which have completed, failed or been aborted |
| Campaigns.UnloggedCampaignChanges | orchestrator/api/scenarios.py:799-829 | The only change of a campaign without an audit entry is its closing, which happens exactly when a summary finds all runs over and another outcome than the recorded one |
| Campaigns.Campaign.Launch | orchestrator/api/scenarios.py:173-190 | Starts one run per named scenario that is loaded, in order, and uses up a repeat if there is one |
| Campaigns.Campaign.Tick | orchestrator/api/scenarios.py:193-215 | One scheduler turn launches a due campaign, reschedules a finished repeating one, and changes nothing otherwise |
| Campaigns.Campaign.Summary | orchestrator/api/scenarios.py:799-829 | Reports how many runs are over and the total (the planned runs before the first launch), and closes the campaign exactly when all its runs are over, as failed iff one failed |
| Campaigns.Campaign.RetryFailed | orchestrator/api/scenarios.py:509-531 | Starts exactly the failed runs again, in order, appends the new runs and their scenario names pairwise, and reactivates the campaign if there are any |
| Sigma.EvaluationMeaning | orchestrator/detection.py:98-151 | For every documented condition, evaluating its text equals its boolean reading if it is recognised, and is false otherwise; recognised means that a compound starts with a selection name |
| Sigma.QuantifiedCompoundMissed | orchestrator/detection.py:101-106 | A rule "1 of selection_* and not filter" that holds but is not matched |
| Sigma.AtomMeaning | orchestrator/detection.py:138-151 | Evaluating the text of an operand equals its boolean reading |
| Sigma.ListSplits | orchestrator/detection.py:126-128 | Splitting a printed list of alternatives at " or " recovers exactly the alternatives |
| Detection.RuleMeaning | orchestrator/detection.py:91-135 | The same for whole rules over the matches of their selections |
| Detection.SelectionsByName | orchestrator/detection.py:94-96 | The condition learns of each selection exactly whether that selection matches |
| Detection.ModifierMeaning | orchestrator/detection.py:26-34 | startswith, endswith and contains hold exactly when the event's text is the target with something after, before or around it, up to case |
| Detection.ListTargets | orchestrator/detection.py:70-83 | Lists of targets are disjunctions, or conjunctions under "all", with the empty list and single members accordingly |
| Detection.KeyRoundTrip | orchestrator/detection.py:60-62 | A field key is taken apart into exactly the field and modifiers it was joined from |
| Detection.JoinedKeyMeaning | orchestrator/detection.py:58-84 | A joined key asks for its own field with its own modifiers |
| Detection.KeyMeaning | orchestrator/detection.py:60-83 | The first modifier of a key besides "all" is the comparison applied to the field, wherever "all" stands: to a text, to each or some member of a list, while a flag asks for the field's truth value |
| Detection.PlainKeyMeaning | orchestrator/detection.py:60-83 | A key with no other modifier than "all" asks for equality up to case |
| Detection.TextKeyMeaning | orchestrator/detection.py:26-34 | A key with endswith, startswith or contains and a text target matches exactly when the field is present and its text is the target with something before, after or around it, up to case |
| Detection.SelectionNames | orchestrator/detection.py:94-96 | The condition can refer to exactly the entries that hold fields, other than itself |
| ScenarioBuilder.DecodeVariant | orchestrator/scenario_builder.py:121-152 | For dimensions of any sign every index in [0, total) decodes to coordinates in range whose index it is; all others are rejected with their own error |
| ScenarioBuilder.IndexIsBijective | orchestrator/scenario_builder.py:140-152 | Whenever the total is positive, also with negative steps and seeds, every coordinate has an index in [0, total) and different coordinates have different indices |
| MixedRadix.DigitsOfValue | orchestrator/scenario_builder.py:144-152 | For any number of non-zero radices of any sign, digits in range are recovered from their value plus any multiple of the product |
| MixedRadix.DigitsOfIndex | orchestrator/scenario_builder.py:144-152 | For a positive product, digits in range are the digits of their index |
| MixedRadix.IndexOfDigits | orchestrator/scenario_builder.py:144-152 | For a positive product, a number below it is the index of its digits |
| Combinations.EverySubsetOnce | orchestrator/scenario_builder.py:67-73 | For a pool without repetition every non-empty subset is listed exactly once, 2^n - 1 in all |
| ScenarioBuilder.BuildBatch | orchestrator/scenario_builder.py:168-196 | Accepted exactly if count, stride and all indices are in bounds and every variant has an eligible technique; then the variants are those at offset + i * stride and pairwise distinct |
| ScenarioBuilder.NamesDistinct | orchestrator/scenario_builder.py:162-163 | Different variants have different names when no entry contains a separator |
| ScenarioBuilder.NamesCanCollide | orchestrator/scenario_builder.py:162-163 | With separators in custom entries two variants can share a name |
| ScenarioBuilder.DefaultSpace | orchestrator/scenario_builder.py:26-46 | The default dimensions have no such entries and 15,680,015,680 variants |
| ScenarioBuilder.BuildScenario | orchestrator/scenario_builder.py:199-237 | Whatever the random choices, the steps run different techniques of the pool in sorting order, are numbered, depend only on earlier steps, and have at most branch-factor parents, at least one after the first step |
| ScenarioBuilder.BackwardIsValid | orchestrator/scenario_builder.py:217-228 | Such steps have distinct ids and pass validation |
| ScenarioBuilder.GeneratedScenarioCompletes | orchestrator/scenario_builder.py:199-237 | Every generated scenario passes validation; under every schedule without failures its run never gets stuck and is done exactly after one hand-out and one result per step, and a single agent gets there |
| Catalog.PlaceholderRenders | ttps/catalog.py:33-38 | A placeholder becomes the text of its parameter, unrendered, and stays as it is when the parameter is missing |
| Catalog.BraceFreeUnchanged | ttps/catalog.py:33-38 | Text without braces is unchanged by formatting |
| Catalog.ParamDefaults | ttps/catalog.py:46-51 | A name has a default if and only if some parameter of that name declares one, and its value is the last declared |
| Catalog.Expand | ttps/catalog.py:54-175 | Item k uses the list positions that are the digits of k; empty bases or a non-positive count give nothing, and an empty list fails exactly when an item is due |
| Catalog.ItemIdentity | ttps/catalog.py:77-98 | Item k takes its technique from the bases in turn, and its identifier is the attack id, the prefix and the number from 1, padded to four digits |
| Catalog.WindowCoversEachOnce | ttps/catalog.py:81-96 | Any T*F*S*P consecutive items use each (telemetry, fidelity, format, scope) position exactly once |
| MixedRadix.DigitsModulo | ttps/catalog.py:81-96 | The digits repeat with the product of the radices as period |
| Catalog.KeysDistinct | ttps/catalog.py:97-98 | Items of one pack never share a registry key, after upper-casing twice |
| Catalog.PackSurvivesRegistration | ttps/base.py:69-72 | After registering a pack every item is found under its key, and entries under other keys are untouched |
| Catalog.Registry.Register | ttps/base.py:69-72 | Stores the item under its upper-case id, or refuses an empty id |
| Catalog.Registry.RegisterCatalog | ttps/catalog.py:321-333 | Registers every item once; a refused item stops the loop and keeps the items before it |
| Catalog.CompletedKeeps | ttps/catalog.py:272-277 | Completing an event never changes a field that it has |
| Catalog.DetectionCondition | ttps/catalog.py:129-171 | For any declaration and parameters, rendering succeeds iff no text raises, and the rule then matches its own event iff data set, attack id and variant survive rendering up to case and the telemetry source in force is the declared one up to case |
| Catalog.SelfDetection | ttps/catalog.py:265-278 | Every item of a pack with brace-free data set, slug and attack ids detects its own event with default parameters, and with others exactly if the telemetry source is unchanged up to case |
| Catalog.PlaceholderDatasetDetection | ttps/catalog.py:129-171 | If the data set is the placeholder "{fidelity}", an item detects its own event exactly when its fidelity equals the placeholder up to case |
| Catalog.BracesBreakSelfDetection | ttps/catalog.py:129-171 | A concrete pack whose item renders its event and whose rule does not match it |

## Left out

- The run log and artifact rows of the store, the target platforms and timestamps of queue rows, the mode without a store, and the contents of reports: bookkeeping with no further state.
- Repository.Repository.CreateRun: does not append the artifact rows and the log row, and does not store the target platforms.
- Repository.Repository.UpdateRunStatus: does not append the log row.
- Repository.Repository.UpdateStep: does not append the log row and does not set the queue row's update time.
- Repository.Repository.RetryFailedSteps: does not append the log row and does not clear the next attempt time.
- Repository.Repository.MarkCleanupComplete: does not append the log row.
- Orchestrator.AppState.Launch: the handler's audit entry is modelled on values in the module Trail, not written by the method.
- Orchestrator.AppState.Beacon: likewise for its audit entry; payload signing is not modelled.
- Orchestrator.AppState.ReportResult: likewise for its audit entry.
- Orchestrator.AppState.Engage: likewise for its audit entry.
- Orchestrator.AppState.RetryFailedRun: likewise for its audit entry.
- Routing, request validation, authentication, payload signing, telemetry export and the dashboard: opaque libraries and presentation.
- The details that the agent registry keeps about an agent, and the path in the kill switch's flag-file reason: only membership and the kind of reason matter here.
- Scenario step parameters, the format rule for technique ids, descriptions and tags: data that no modelled operation looks at.
- Step states are values inside a run's table, so aliasing between a handed-out step state and the table is not captured; the planner's runs and the runs themselves are objects.
- Concurrency inside a handler: planner and store are updated without a common lock, and interleavings of two handlers are not modelled.
- Simulation.HistoryKeepsSimulation: claims nothing about the stored run-level status, because a result for a paused run stores "paused" as if it were finished.
- Completion.DriveCompletes: one agent, one platform, one clock reading, no outputs, each result before the next hand-out; Schedules.EveryScheduleCompletes is about all schedules.
- Schedules.EveryScheduleCompletes: says nothing about whether agents come back; it states what holds whenever they do.
- Sigma.EvaluationMeaning: aggregation tails that contain " or " or " and not ", and selection names with blanks before an unrecognised compound, are outside the documented forms.
- LiveFeed.FeedRefinesLog: is about positions in the log; LoggedFeed.SubscribersSeeRecords carries it over to the records.
- AuditLog.AuditLog.Append: publishers other than the bus, and a publisher that raises, are not modelled; the audit log ignores both.
- Campaigns.CampaignRepeats: concerns one campaign record; the scheduler's loop over all campaigns treats them independently. Which scenarios are loaded, the fresh run ids and the planner's statuses are given.
- Campaigns.Campaign.Launch: persistence is not modelled, and the audit entry is a value (Campaigns.Appended).
- Campaigns.Campaign.Tick: likewise.
- Campaigns.Campaign.RetryFailed: likewise; the new runs are given by their ids.
- Campaigns.Campaign.Summary: the counts per status and the percentage are not modelled beyond the total and the number of finished runs.
- ScenarioBuilder.BuildBatch: which techniques are eligible is a given predicate of the coordinates.
- Catalog.Expand: the uuid of a rule, titles, descriptions and platforms are not part of an item, because nothing modelled looks at them.
- Catalog.DetectionCondition: format fields with attribute access, indices, conversions or nested fields are an arbitrary function of text and parameters.
- Numeric comparison modifiers of the Sigma matcher are an arbitrary predicate per pair of values, because floating point is not the point.
- Campaign selection, importers, coverage navigation, readiness and scorecard modules, and the individual techniques: constants, counts and parsing glue.
- The multi-agent smoke routine of the execution engine: a fixed loop over operations modelled here.
