# A verified model of the AOTP campaign engine

AOTP runs authorised security-test campaigns: a campaign is a set of objectives with dependencies,
limits and approvals; an engine visits them in order, asks a policy gate before each one, pauses for
human review, keeps a hash-chained event log, and saves a checkpoint it can resume from. This project
models that engine in Dafny and proves what it guarantees over whole runs, although the engine itself
checks little of it locally: the loop never looks at dependencies, never compares log and state before
saving, and rebuilds its budget from the checkpoint on every call.

Verify with `dafny verify dfyconfig.toml` (Dafny 4.11).

## How the project is built

| file | what it holds |
|---|---|
| `Basics.dfy` | options, results, facts about sequences, sums over maps |
| `Objectives.dfy` | objectives, dependency graphs, cycles as paths, what a canonical schedule is |
| `CampaignGraph.dfy`, `Scheduler.dfy` | the depth-first check and the greedy scheduler as they run |
| `EventLog.dfy` | the hash chain and its verification |
| `CampaignState.dfy` | the checkpoint, its validation, the safety budget |
| `CampaignSpec.dfy` | what each entry point computes, as functions on checkpoint values |
| `CampaignInvariant.dfy`, `CampaignSteps.dfy`, `CampaignRuns.dfy` | the invariant, and that every transition and run keeps it |
| `Disk.dfy`, `CrashSafety.dfy` | the workspace on disk; histories of calls, each cut off anywhere; what survives |
| `RunOrder.dfy`, `StepRefinement.dfy`, `Termination.dfy` | which objectives a run executes; one-at-a-time against unbounded; termination and bounds |
| `RunReport.dfy`, `HumanAnswers.dfy` | every field a run, a review and an operator stop leave, stated from their inputs alone |
| `AcceptedCalls.dfy` | workspaces whose log and checkpoint agree, what they accept, campaigns as histories of accepted calls |
| `CrashRetry.dfy`, `Replay.dfy` | a run cut off inside an execution: retried, or refused for good; a review decision is accepted once |
| `Witnesses.dfy` | a concrete campaign that meets every assumption, reaches the bounds, and is left in each state a crash can leave |
| `CampaignEngine.dfy` | the engine as a class that mutates a checkpoint and writes files, proved against the functions above |
| `Orchestration.dfy` | the durable graph that drives the engine one objective per node |
| `GovernedTools.dfy`, `Redaction.dfy`, `TemplateBundle.dfy`, `BoundedFuzzing.dfy`, `WstgCoverage.dfy`, `FindingLifecycle.dfy` | six smaller components, each with its own result |

Four choices shape the main part.

* **A call is a list of writes.** An entry point's effect on disk is a sequence of log appends and
  checkpoint saves. A crash, or an exception anywhere in the call, keeps a prefix of it. A history is any
  sequence of calls (fresh runs, resumed runs, reviews, operator stops), each cut after any number of
  writes. The theorems of `CrashSafety` hold after every history.
* **The outside is a parameter.** The policy gate, the executor, the clock, event stamps (ids and times)
  and the hash function are function values. The gate is any function with two properties: "human
  approval is required" is given only in dry run to an unapproved objective that requires approval, and
  such an objective is never allowed in dry run. The executor is any function that answers manual review
  exactly when live and uses at most the declared request budget. The gate may answer differently at
  each iteration. A concrete campaign, gate and clock that meet the assumptions together, live and in
  dry run, are given by `Witnesses.AssumptionsMet`.
* **The functions are checked against plain statements.** What `CampaignSpec` computes with nested
  functions, `RunReport` and `HumanAnswers` say again without naming any of them: which objectives pass
  which limits, why a run ends, and each field of each checkpoint it leaves, from the inputs of the call.
* **The code and the functions are separate.** `CampaignEngine.Campaign` updates fields in place, as the
  engine does, and each method is proved to end in the state and with the file writes that
  `CampaignSpec` and `Disk` say, in that order.

Ids are compared as they stand: the parser compares stripped ids (src/aotp/config.py:163) while the
scheduler and the loop use the raw ones, so a campaign is assumed to carry ids without surrounding blanks.

## Results that limit an obvious claim

* Iterations can pass `max_iterations` by two, because lockout pauses and pre-execution stops skip or follow
  the budget check: `Witnesses.IterationBoundTight` gives the run, `CrashSafety.CheckpointFacts` the bound.
* A crash can leave one or two events beyond the checkpoint, or an event and no checkpoint; then nothing but an
  operator stop is accepted: `Witnesses.LogRunsAhead`, `Witnesses.LogWithoutCheckpoint`.
* An operator stop does not look at the log. After a crash it leaves a log that no longer verifies, exactly
  when the crash had left events beyond the checkpoint: `CrashSafety.HaltVerifiesExactly`.
* Sanitizing keeps a dictionary's size unless two cleaned keys coincide: `Redaction.EntriesKept`; they can:
  `Redaction.CollisionDropsEntry`.
* A directory's digest is also that of a regular file holding the directory's stream:
  `TemplateBundle.DigestIgnoresKind`.
* The static fuzzing check does not compare the two request limits, so the budget it stands for may not be
  constructible: `BoundedFuzzing.BudgetAcceptsExactly`, `BoundedFuzzing.StaticCheckAloneIsNotEnough`.
* A valid warning result without evidence cannot be recorded: `WstgCoverage.RecordExactlyUnlessBareWarning`,
  `WstgCoverage.BareWarningIsValid`.
* The status totals of a gap summary exceed the number of objectives by the explicit deferred records:
  `WstgCoverage.StatusTotalsExceed`.
* A finding transition that fails validation has already changed the object:
  `FindingLifecycle.RaiseLeavesInvalidObject`.

## Model

| member | source | states |
|---|---|---|
| `CampaignGraph.ValidateDependencyGraph` | src/aotp/campaign.py:86-112 | the check accepts a graph exactly when every dependency is known and no path of dependencies returns to its start; a raise names an objective that has an unknown dependency, depends on itself, or lies on a cycle |
| `CampaignGraph.CheckEdges` | src/aotp/campaign.py:88-95 | passing the first loop means every dependency is known; otherwise the objective named has the unknown or self dependency |
| `CampaignGraph.DependencyWalk.Visit` | src/aotp/campaign.py:100-109 | a visit that returns has finished the objective after everything it depends on and leaves the open calls as they were; a raise names a node that lies on a cycle |
| `CampaignGraph.DependencyWalk.VisitAll` | src/aotp/campaign.py:106-107 | the nested visits finish every dependency of the objective, or name a node on a cycle |
| `CampaignGraph.FinishedWalk` | src/aotp/campaign.py:111-112 | a walk that finished every node leaves a topological order behind, so the graph has no cycle |
| `Scheduler.Schedule` | src/aotp/scheduler.py:8-27 | scheduling succeeds exactly on acyclic graphs with known dependencies, terminates, and then returns the canonical order, in whatever order the remaining set is iterated |
| `Scheduler.GatherReady` | src/aotp/scheduler.py:14-18 | the ready list holds exactly the waiting objectives whose dependencies are completed |
| `Scheduler.SortedHead` | src/aotp/scheduler.py:21-22 | the selected objective is a member of the ready list with no smaller (priority, id) key in it |
| `Scheduler.SomethingReady` | src/aotp/scheduler.py:14-20 | while an acyclic graph has objectives left, one of them is ready, so the error branch is never reached on it |
| `Scheduler.ScheduleIgnoresListOrder` | src/aotp/scheduler.py:9-26 | two lists with the same objectives in any order have the same schedule |
| `Objectives.CanonicalIsTopological` | src/aotp/scheduler.py:13-26 | the schedule is a permutation of the objectives with each dependency before its dependents |
| `Objectives.CanonicalUnique` | src/aotp/scheduler.py:13-26 | "each position holds the least (priority, id) among the ready" determines the whole order |
| `Objectives.SmallerFirst` | src/aotp/scheduler.py:21-22 | of two scheduled objectives, the later one, if it could have come already, has a larger priority number or the same and an id that sorts later |
| `Objectives.StringLeExactly` | src/aotp/scheduler.py:21 | ids sort by the first character in which they differ, a prefix first |
| `Objectives.TopologicalIsAcyclic` | src/aotp/campaign.py:86-112 | a graph with a topological order has no unknown dependency and no cycle |
| `Objectives.AcyclicHasSource` | src/aotp/scheduler.py:14-20 | in an acyclic graph every non-empty set of objectives has a member that depends on nothing else in the set |
| `EventLog.SealedKeepsChain` | src/aotp/campaign_events.py:59-85 | a log that chains still chains after the next event is appended |
| `EventLog.VerifyEventLog` | src/aotp/campaign_events.py:89-118 | no failure is reported exactly when the log is non-empty, decodes throughout, and every event carries its position, its predecessor's hash and its own hash; otherwise exactly the faults there are, each with its line, undecodable lines passed over in counting and chaining |
| `EventLog.VerifyStateEventLog` | src/aotp/campaign_events.py:121-131 | no failure exactly when, besides, the last hash and the number of lines are the state's |
| `EventLog.StateMatchesOwnLog` | src/aotp/campaign_events.py:121-131 | the log written along with a state verifies against that state |
| `EventLog.HashDeterminesHistory` | src/aotp/campaign_events.py:21-24 | two verifying logs that end in the same hash and contain no collision are equal event by event |
| `EventLog.CheckpointDeterminesLog` | src/aotp/campaign_events.py:121-131 | short of a collision, the only file that verifies against a checkpoint is the one written for it |
| `CampaignState.Denial` | src/aotp/safety_budget.py:18-31 | an execution is let through exactly when no limit would be passed by it |
| `CampaignState.SafetyBudget.DenialReason` | src/aotp/safety_budget.py:18-31 | the budget object answers as the function on its counters does |
| `CampaignState.SafetyBudget.Record` | src/aotp/safety_budget.py:42-48 | the new counters: one more iteration, requests added to total and minute alike, failures counted only while consecutive |
| `CampaignState.ValidStateExactly` | src/aotp/campaign_state.py:114-163 | the checks come to: no objective twice in the four lists taken together, a pending review exactly while paused, nothing left when completed, no negative number, a hash of 64 hexadecimal digits |
| `CampaignInvariant.HeadFacts` | src/aotp/campaign_loop.py:355-362 | the objective the loop reaches is the first pending one, and everything it depends on is completed, though the loop never asks |
| `CampaignInvariant.PendingPosition` | src/aotp/campaign_loop.py:358-362 | the loop skips exactly the schedule positions before the first pending objective |
| `CampaignInvariant.InvariantPassesValidation` | src/aotp/campaign_state.py:99-163 | every state the invariant admits passes validate_state |
| `CampaignSteps.FuzzingStopKeeps` | src/aotp/campaign_loop.py:218-287 | a fuzzing stop keeps the whole invariant, log provenance and counters included |
| `CampaignSteps.LockoutPauseKeeps` | src/aotp/campaign_loop.py:150-215 | so does a lockout pause, which bypasses the budget |
| `CampaignSteps.PreExecutionStopKeeps` | src/aotp/campaign_loop.py:90-147 | so does a budget or operator stop before execution |
| `CampaignSteps.ResultRecorded` | src/aotp/campaign_loop.py:595-606 | after an objective_result is logged: at most one result per objective beside its gate pause, dependencies completed first, and an allowed dry run is justified in the log |
| `CampaignSteps.DryRunWasReviewed` | src/aotp/policy_gate.py:298-299 | an allowed dry run of an objective that needs a review has an approved pre-execution review in the log |
| `CampaignSteps.ExecutionKeeps` | src/aotp/campaign_loop.py:429-663 | executing the head within the budget keeps the invariant for any gate and executor answer |
| `CampaignSteps.VisitKeeps` | src/aotp/campaign_loop.py:358-665 | every pass of the loop body, whichever branch it takes, keeps the invariant in memory and in each checkpoint it saves |
| `CampaignRuns.LoopKeeps` | src/aotp/campaign_loop.py:358-665 | the whole loop does, and without a step limit it ends with nothing pending or a status other than running |
| `CampaignRuns.RunKeeps` | src/aotp/campaign_loop.py:290-680 | an accepted run saves only checkpoints that satisfy the invariant, each adding at most two events to the one before |
| `CampaignRuns.RunTimed` | src/aotp/campaign_loop.py:661-667 | with a clock that does not run backwards no saved elapsed time is negative |
| `CampaignRuns.ReviewKeeps` | src/aotp/campaign_control.py:57-90 | an accepted review keeps the invariant, adds one event, and leaves the campaign resumable or stopped |
| `CampaignRuns.OperatorStopKeeps` | src/aotp/campaign_control.py:93-116 | an operator stop keeps the invariant from any live status, with an objective current or not |
| `CrashSafety.CutAnywhere` | src/aotp/campaign_events.py:76-85 | cutting the writes of any committed checkpoints anywhere leaves a workspace whose log is the checkpoint's or runs ahead by at most two events |
| `CrashSafety.VerifiedMeansInStep` | src/aotp/campaign_events.py:121-131 | short of an operator stop, the log verifies against the checkpoint exactly when nothing was logged after it |
| `CrashSafety.StepSound` | src/aotp/campaign_loop.py:290-680 | one call of any kind, completed, refused or cut anywhere, keeps the workspace sound |
| `CrashSafety.HistorySound` | src/aotp/campaign_control.py:25-116 | so does any history of runs, reviews, operator stops and crashes |
| `CrashSafety.CrashIsRefusedOrResumed` | src/aotp/campaign_loop.py:308-319 | after any history, which calls are accepted: a run exactly in the executable statuses with the log in step; a review exactly on a paused checkpoint with the log in step, naming that file, campaign, objective and operator and not dated ahead; an operator stop exactly unless completed or already so stopped; without a checkpoint only a fresh run over an empty log |
| `CrashSafety.RefusalsNamed` | src/aotp/campaign_control.py:32-49 | each refusal of a run, a review or an operator stop names a check that fails in that workspace |
| `CrashSafety.NoSecondResult` | src/aotp/campaign_loop.py:595-606 | after any history no objective has a second result beside its human-gate pause, and there are at most max_iterations results in all |
| `CrashSafety.DependenciesFirst` | src/aotp/campaign_loop.py:358-362 | after any history a logged result comes after log evidence that each dependency was completed |
| `CrashSafety.CheckpointFacts` | src/aotp/campaign_state.py:118-163 | after any history the saved checkpoint is valid, its lists split the schedule with at most one stopped, completed means everything, its counters respect every limit, and each completed objective ran reviewed as required or was reviewed afterwards |
| `CrashSafety.HaltVerifiesExactly` | src/aotp/campaign_control.py:93-116 | after an operator stop the log verifies exactly if a crash had not left events beyond the old checkpoint |
| `RunOrder.RunExecutesInOrder` | src/aotp/campaign_loop.py:358-665 | a run logs results for exactly the first n pending objectives, in schedule order, under consecutive iterations; n > 0 exactly when a step is left, the head has no stop signal and its review, and iterations, elapsed time, requests in all and per minute, and failures are each within their limit; every result is logged under an iteration whose clock reading was short of the runtime limit; only the last of them can be left uncompleted, and the run goes on to its step limit, a pause, a stop or the end; a live run completes nothing |
| `RunReport.RunReported` | src/aotp/campaign_loop.py:305-680 | a run in full, from its inputs: the pending objectives pass one by one, each within every limit as used up by the ones before, up to the first that does not; the run ends there, for exactly that of eight reasons, or at the end; status, lists, review, counters, failures in a row, elapsed time, stop history, events and stamps of what it leaves, and of every checkpoint saved on the way |
| `RunReport.LoopReported` | src/aotp/campaign_loop.py:358-665 | the same of the loop from any point inside it, with the number of saves |
| `RunReport.MeetsLimits` | src/aotp/safety_budget.py:18-31 | the budget lets an objective start exactly if the limits allow it after what the run has spent, and otherwise names the first limit that does not, in the order iterations, runtime, requests, rate, failures |
| `RunReport.VisitReported` | src/aotp/campaign_loop.py:378-665 | one pass: the objective passes, or the run ends at it for the reason its signals, review, limits, gate and result give |
| `HumanAnswers.ReviewAnswered` | src/aotp/campaign_control.py:51-90 | an accepted decision: approved before execution, the objective is recorded as reviewed and stays pending; approved after it, it is completed; denied, it is stopped and the campaign by condition, without an operator stop; stop campaign, it is stopped and the campaign by the operator; one event, counters untouched |
| `HumanAnswers.HaltAnswered` | src/aotp/campaign_control.py:93-116 | an accepted operator stop of any live checkpoint, paused ones included: stopped by the operator, no review, the current objective stopped, everything else kept, one event |
| `HumanAnswers.StopExactlyAsked` | src/aotp/campaign_control.py:82-106 | after any history a saved checkpoint carries the operator stop exactly if its events hold an operator stop or a review that answered stop campaign |
| `CrashRetry.CutInExecution` | src/aotp/campaign_loop.py:429-432 | a run cut off after it marked an objective leaves that checkpoint and exactly as many events beyond it as were appended |
| `CrashRetry.InterruptedIterationRetried` | src/aotp/campaign_loop.py:429-432 | cut before the result is appended, the campaign is accepted again and the same objective is retried under the same iteration, exactly when a run would have executed it from the checkpoint before |
| `CrashRetry.InterruptedHistoryRetried` | src/aotp/campaign_loop.py:316-319 | after any history an objective found marked, with nothing logged beyond the checkpoint, is the head of pending and is retried so |
| `CrashRetry.CrashLeavesLogAhead` | src/aotp/campaign_loop.py:595-663 | cut after the result, or after its pause, the log is one event or two ahead of the checkpoint |
| `CrashRetry.LogAheadRefused` | src/aotp/campaign_events.py:121-131 | then every run and every review is refused, and an operator stop is accepted but leaves a log that does not verify |
| `Witnesses.LogRunsAhead` | src/aotp/campaign_loop.py:595-663 | a concrete fresh run, cut after its fourth write in dry run or its fifth live, is left one event or two ahead and refused |
| `Witnesses.LogWithoutCheckpoint` | src/aotp/campaign_loop.py:313-337 | a concrete fresh run, cut after its first write, leaves an event without a checkpoint, and a fresh run is refused |
| `RunOrder.LiveVisit` | src/aotp/executor.py:23-30 | a live pass never completes its objective: it pauses for review or stops |
| `StepRefinement.VisitAlike` | src/aotp/campaign_loop.py:339-349 | two invocations whose clocks agree take the same branch and change like states into like states |
| `StepRefinement.OneStep` | src/aotp/campaign_loop.py:376-377 | one call with max_steps = 1 is one pass over the first pending objective, and if it leaves the campaign running that objective is gone from pending |
| `StepRefinement.StepwiseFollows` | src/aotp/langgraph_orchestration.py:131-159 | from any point of an unbounded loop the chain of single steps reaches the state that loop reaches |
| `StepRefinement.StepwiseRefinesUnbounded` | src/aotp/langgraph_orchestration.py:131-159 | single steps until no longer running give the same lists, status, reviews, counters, next iteration, stop history, events (up to stamps and hashes) and elapsed time as one unbounded call, although each step rebuilds the budget |
| `Termination.RunMeasure` | src/aotp/campaign_loop.py:358-665 | 2 x pending, less one if its head is reviewed, never grows in a run and shrinks if anything leaves pending |
| `Termination.ApprovalMeasure` | src/aotp/campaign_control.py:66-76 | every approval shrinks it and makes the campaign resumable |
| `Termination.RunAndApprove` | src/aotp/campaign_control.py:66-76 | running and approving in turn, whatever the gate says when, ends in a terminal status within as many approvals as the measure |
| `Termination.CampaignTerminates` | src/aotp/langgraph_orchestration.py:110-129 | a fresh campaign of n objectives ends after at most 2n approvals, and if it ends completed everything scheduled is completed |
| `AcceptedCalls.ApprovalAccepted` | src/aotp/campaign_control.py:32-55 | the approval made for a settled, paused checkpoint passes every check of apply_review_decision |
| `AcceptedCalls.RoundsAsHistory` | src/aotp/campaign_control.py:25-90 | running and approving in turn is a history of calls that are all accepted and leave on disk what the functions compute |
| `AcceptedCalls.CampaignRunsToEnd` | src/aotp/langgraph_orchestration.py:110-129 | through the entry points: a fresh campaign of n objectives reaches a terminal checkpoint on disk with every call accepted and at most 2n approvals |
| `AcceptedCalls.SettledRun` | src/aotp/campaign_loop.py:305-337 | where log and checkpoint agree a run is accepted in the executable statuses and, uncut, leaves them in agreement with its result saved |
| `Replay.DecisionAcceptedOnce` | src/aotp/campaign_control.py:42-43 | a decision accepted and acted on is refused ever after, whatever calls and crashes follow, and so is any other decision for the same checkpoint; short of a digest collision |
| `Replay.StepPast` | src/aotp/campaign_state.py:166-175 | once the checkpoint's revision has risen, or its log outgrown it, no call however cut brings that state back |
| `Termination.StepwiseIsShort` | src/aotp/langgraph_orchestration.py:94-97 | a chain of single steps is at most one longer than the iterations left |
| `Witnesses.IterationBoundTight` | src/aotp/campaign_loop.py:392-427 | a concrete accepted campaign uses max_iterations + 2 iterations: run, lockout pause past the budget, approval, budget stop |
| `CampaignEngine.Campaign.Fresh` | src/aotp/campaign_loop.py:44-65 | a fresh object is the planned state over the scheduled order |
| `CampaignEngine.Campaign.AppendCampaignEvent` | src/aotp/campaign_events.py:46-86 | the event sealed on the chain is appended to the file first and to memory then, and nothing else changes |
| `CampaignEngine.Campaign.SaveState` | src/aotp/campaign_state.py:166-194 | an invalid state is refused before anything is written; a valid one is written with the next revision |
| `CampaignEngine.Campaign.RecordFuzzingConditionStop` | src/aotp/campaign_loop.py:218-287 | the state and the writes of the fuzzing stop |
| `CampaignEngine.Campaign.RecordPanelLockoutPause` | src/aotp/campaign_loop.py:150-215 | the state and the writes of the lockout pause |
| `CampaignEngine.Campaign.RecordPreExecutionStop` | src/aotp/campaign_loop.py:90-147 | the state and the writes of the stop before execution |
| `CampaignEngine.Campaign.Dispose` | src/aotp/campaign_loop.py:609-659 | where an objective goes after its result: pre-execution pause, policy stop, post-execution pause or completed |
| `CampaignEngine.Campaign.ExecuteObjective` | src/aotp/campaign_loop.py:429-663 | save as current, gate, executor, counters, result, disposition, save: both saves succeed and the object's budget still equals the checkpoint's counters |
| `CampaignEngine.Campaign.VisitObjective` | src/aotp/campaign_loop.py:358-665 | one pass of the loop body ends in the specified state with the specified writes, those that RunReport.VisitReported gives from the inputs |
| `CampaignEngine.Campaign.RunLoop` | src/aotp/campaign_loop.py:355-665 | the loop with its breaks ends in the specified state with the specified writes, and no save inside it can fail |
| `CampaignEngine.Campaign.RunCampaign` | src/aotp/campaign_loop.py:290-680 | run_campaign refuses and accepts as specified, a refusal changes nothing, an accepted run makes exactly the specified writes and no save of it fails |
| `CampaignEngine.Campaign.ApplyReviewDecision` | src/aotp/campaign_control.py:25-90 | apply_review_decision runs its checks in order, on time, file digest, campaign, objective and operator; refused, it changes nothing; accepted, it makes exactly the specified writes, whose outcome per decision HumanAnswers.ReviewAnswered gives |
| `CampaignEngine.Campaign.ClearCurrent` | src/aotp/campaign_control.py:98-104 | the current objective moves from pending to stopped, at most once |
| `CampaignEngine.Campaign.RequestOperatorStop` | src/aotp/campaign_control.py:93-116 | request_operator_stop is refused only when completed or already stopped, which CrashSafety.CrashIsRefusedOrResumed states apart from it; otherwise it makes exactly the specified writes without looking at the log |
| `Orchestration.CampaignOrchestrator.CampaignStep` | src/aotp/langgraph_orchestration.py:131-159 | in whatever state a crash left the workspace the node reports a terminal checkpoint untouched, or runs one objective, or is refused and changes nothing |
| `Orchestration.CampaignOrchestrator.StepUntilRouted` | src/aotp/langgraph_orchestration.py:181-193 | in whatever state a crash left the workspace: the first visit may report a terminal checkpoint or be refused, changing nothing; otherwise the node repeats until the status routes elsewhere, ends in the last state of the chain of single steps, and is bounded by the iterations left |
| `Orchestration.CampaignOrchestrator.Start` | src/aotp/langgraph_orchestration.py:215-221 | start over any workspace, empty or not: reports a terminal checkpoint, is refused, or ends at a pause or a terminal status after one node visit per step and one for the pause; always within max_iterations + 2 visits, under the recursion limit of four times max_iterations plus 20 |
| `Orchestration.CampaignOrchestrator.Resume` | src/aotp/langgraph_orchestration.py:223-230 | resume applies the decision exactly when it is acceptable, otherwise changes nothing; it answers paused or a terminal status, after the review and, for an approval, every step to the next pause or end, within the same bound |
| `Orchestration.GraphMatchesUnbounded` | src/aotp/langgraph_orchestration.py:131-159 | the graph ends where one unbounded run would |
| `Orchestration.ResumeMatchesUnbounded` | src/aotp/langgraph_orchestration.py:161-193 | after an approval the graph ends where one unbounded run from the reviewed checkpoint would, waiting for the next review or over; after any other decision at the reviewed checkpoint |
| `Orchestration.StepwiseRests` | src/aotp/langgraph_orchestration.py:181-189 | a chain of steps stops only at a pause or a terminal status |
| `GovernedTools.RequestBudget.Check` | src/aotp/request_budget.py:56-69 | the reasons are those of the limits the request would pass |
| `GovernedTools.RequestBudget.Consume` | src/aotp/request_budget.py:71-79 | a request within the limits is charged to the total, its tool and its tier; any other changes nothing |
| `GovernedTools.Denials` | src/aotp/request_budget.py:56-69 | a request without reasons leaves every limit kept once charged, one with reasons would break one |
| `GovernedTools.DenialsNamed` | src/aotp/request_budget.py:56-69 | each budget reason is given exactly when the limit it names would be passed |
| `GovernedTools.NativeToolRegistry.Register` | src/aotp/tool_registry.py:140-143 | a name is registered once and never replaced |
| `GovernedTools.NativeToolRegistry.Evaluate` | src/aotp/tool_registry.py:154-207 | all other objections come first; the budget is asked only if there are none |
| `GovernedTools.NativeToolRegistry.Execute` | src/aotp/tool_registry.py:209-244 | the budget is charged exactly when the executor is reached, even if it raises; the executor gets the call's arguments and its output is returned; the second budget check cannot fail |
| `GovernedTools.AllowedExactlyWithin` | src/aotp/tool_registry.py:190-200 | a registered call is allowed exactly when it is inside the rules of engagement and the charged budget keeps every limit |
| `GovernedTools.ObjectionsNamed` | src/aotp/tool_registry.py:172-193 | each other reason is given exactly when what it says is so |
| `GovernedTools.ApprovalByRank` | src/aotp/tool_risk_tiers.py:30-78 | a tier needs human approval exactly from rank 40 on, so none riskier than one that does goes without |
| `GovernedTools.BudgetConserved` | src/aotp/request_budget.py:71-79 | after any registrations and calls the used requests are the cost of the calls that reached an executor, in total, per tool and per tier, the three agree, and no limit is passed |
| `GovernedTools.OneTierPerTool` | src/aotp/tool_registry.py:140-143 | one tool name is charged at one tier throughout |
| `Redaction.ScanValue` | src/aotp/redaction.py:105-145 | the loops report exactly the findings of every text, key and sensitive field, at their paths; which keys are sensitive Redaction.SensitiveExactly states apart |
| `Redaction.ScanFindsExactly` | src/aotp/redaction.py:105-145 | the report is empty exactly when no text or key anywhere has findings and every sensitive field is blank or a placeholder |
| `Redaction.SanitizeWithReport` | src/aotp/redaction.py:155-176 | the loops compute the sanitized value and the report of the original; where each entry goes Redaction.EntryDestination states from the entry itself |
| `Redaction.SanitizeEstablishes` | src/aotp/redaction.py:155-176 | whatever comes in, texts and keys are without findings, sensitive fields are blank or marked, keys are distinct strings |
| `Redaction.SanitizedFixed` | src/aotp/redaction.py:155-176 | sanitizing changes nothing exactly on values that are already sanitized |
| `Redaction.Idempotent` | src/aotp/redaction.py:155-176 | sanitizing twice is sanitizing once |
| `Redaction.NothingLeftToFind` | src/aotp/redaction.py:148-152 | a sanitized value scans without findings at every path, so the redaction assertion accepts it |
| `Redaction.GeneratedHarmless` | src/aotp/redaction.py:77-98 | no generated replacement key is a sensitive key |
| `Redaction.SensitiveExactly` | src/aotp/redaction.py:77-98 | a key is sensitive exactly if, up to ASCII case and dash or underscore, it has no harmless ending and is a listed key or has a listed ending |
| `Redaction.SpellingIgnored` | src/aotp/redaction.py:78 | two keys that differ only in ASCII case and dash or underscore are both sensitive or neither |
| `Redaction.EntryDestination` | src/aotp/redaction.py:162-175 | every entry that no later one displaces is in the output under its text or a numbered placeholder, with the marker if its key reads like a listed secret and the value is not blank, sanitized otherwise |
| `Redaction.SecretReported` | src/aotp/redaction.py:122-130 | a value under such a key, neither blank nor a placeholder, is reported at its path with its digest |
| `Redaction.DigitsRead` | src/aotp/redaction.py:167 | the number in a placeholder key is the entry's index |
| `Redaction.EntriesKept` | src/aotp/redaction.py:162-175 | a sanitized dictionary has one entry per different cleaned key |
| `Redaction.CollisionDropsEntry` | src/aotp/redaction.py:167-174 | a key that already looks generated can swallow the entry of a redacted key |
| `TemplateBundle.HashTemplateBundle` | src/aotp/template_registry.py:149-166 | the running digest is fed the framed, sorted files; missing, empty and oversized bundles are refused |
| `TemplateBundle.Feed` | src/aotp/template_registry.py:159-165 | the loop feeds the whole stream exactly when every length fits in eight bytes |
| `TemplateBundle.NumberRoundTrip` | src/aotp/template_registry.py:161-164 | a big-endian length reads back as the length written |
| `TemplateBundle.FirstByteWeighsMost` | src/aotp/template_registry.py:161-164 | the first byte of a length is the most significant |
| `TemplateBundle.DecodeStream` | src/aotp/template_registry.py:159-165 | the stream decodes back to the list of (relative path, content) pairs |
| `TemplateBundle.PosixInjective` | src/aotp/template_registry.py:160 | different relative paths have different texts |
| `TemplateBundle.StreamDeterminesBundle` | src/aotp/template_registry.py:155-166 | two directories feed the same bytes exactly when they hold the same files, however they were listed |
| `TemplateBundle.DigestDeterminesDirectory` | src/aotp/template_registry.py:155-166 | short of a collision, equal digests mean equal files |
| `TemplateBundle.DirectoryRefused` | src/aotp/template_registry.py:155-165 | a directory is refused exactly when it is empty or some length does not fit |
| `BoundedFuzzing.FuzzingBoundaryErrors` | src/aotp/bounded_fuzzing.py:213-310 | no error exactly for objectives within every bound of their scope |
| `BoundedFuzzing.SignalsFound` | src/aotp/bounded_fuzzing.py:101-111 | a stop signal is found whatever blanks surround it |
| `BoundedFuzzing.SignalsTrimmed` | src/aotp/bounded_fuzzing.py:106-110 | no stop signal is blank or padded |
| `BoundedFuzzing.StripExactly` | src/aotp/bounded_fuzzing.py:107-109 | stripping takes the blanks off both ends and nothing else |
| `BoundedFuzzing.BuildFuzzingDryRunPlan` | src/aotp/bounded_fuzzing.py:313-372 | the builder succeeds exactly on well-formed objectives without stop signals; the plan takes over classes, counts, limits and corpus and plans the sum of the endpoint budgets |
| `BoundedFuzzing.StaticCheckMeetsPlan` | src/aotp/bounded_fuzzing.py:213-372 | an objective without boundary errors is planned exactly when it has no stop signal, within the scope's request budget |
| `BoundedFuzzing.FuzzingRequestBudget.Reserve` | src/aotp/bounded_fuzzing.py:71-82 | a reservation is refused for the first limit it would pass, or a blank alias or a count not positive, and then changes nothing; granted, it adds the count to the total and to its endpoint |
| `BoundedFuzzing.RefusedExactly` | src/aotp/bounded_fuzzing.py:76-80 | a labelled, positive request is refused exactly when granting it would pass a limit |
| `BoundedFuzzing.ReservationsConserved` | src/aotp/bounded_fuzzing.py:71-82 | after any reservations the total is the sum over endpoints and no limit is passed |
| `BoundedFuzzing.PlanCovers` | src/aotp/bounded_fuzzing.py:270-274 | the planned count bounds every multiset of requests within the plan |
| `BoundedFuzzing.PlanReached` | src/aotp/bounded_fuzzing.py:313-372 | of endpoints listed once, some order within the plan is as long as the planned count |
| `BoundedFuzzing.StaticCheckMeetsBudget` | src/aotp/bounded_fuzzing.py:71-82 | every order of single requests within the plan of an objective without boundary errors passes the budget of its scope without a refusal |
| `BoundedFuzzing.NewBudget` | src/aotp/bounded_fuzzing.py:63-69 | a budget exists exactly for positive limits with the per-endpoint one at most the total |
| `BoundedFuzzing.BudgetAcceptsExactly` | src/aotp/bounded_fuzzing.py:63-69 | for an objective without boundary errors the comparison of the two limits is all the budget adds |
| `BoundedFuzzing.StaticCheckAloneIsNotEnough` | src/aotp/bounded_fuzzing.py:213-310 | there is an objective without boundary errors whose scope has no constructible budget |
| `WstgCoverage.CoverageTracker.Record` | src/aotp/wstg/coverage.py:78-82 | only known objectives are recorded, and the last record wins |
| `WstgCoverage.CoverageTracker.Mark` | src/aotp/wstg/coverage.py:84-101 | a mark succeeds exactly for a known objective with evidence if tested and reasons if not |
| `WstgCoverage.CoverageTracker.Apply` | src/aotp/wstg/execution_adapter.py:337-342 | a result becomes the objective's record unless its conversion or the objective is refused; then nothing changes |
| `WstgCoverage.CoverageTracker.GapSummary` | src/aotp/wstg/coverage.py:119-135 | the loops count what the two tables say, and the gaps are the ids of what is missing |
| `WstgCoverage.NewTracker` | src/aotp/wstg/coverage.py:67-72 | a tracker exists exactly for objectives with different identifiers |
| `WstgCoverage.RecordExactlyUnlessBareWarning` | src/aotp/wstg/execution_adapter.py:317-333 | a valid result becomes a valid record exactly unless it is a warning without evidence; the record keeps identifier, WSTG id and phase, is tested with the result's evidence or skipped with none, and keeps the reasons given |
| `WstgCoverage.EarliestIsLeast` | src/aotp/wstg/coverage.py:160 | the chosen objective has the least (phase, WSTG id) of all that are missing, and is the first of those |
| `WstgCoverage.RoundShrinks` | src/aotp/wstg/coverage.py:106-117 | choosing, executing and recording removes exactly the chosen objective from what is missing |
| `WstgCoverage.CoverageCompletes` | src/aotp/wstg/coverage.py:138-169 | repeated until nothing is missing this takes as many rounds as were missing, visits each once in (phase, WSTG id) order, and ends with each tested or skipped |
| `WstgCoverage.PhaseTableSums` | src/aotp/wstg/coverage.py:125-129 | the phase table sums to the number of objectives |
| `WstgCoverage.CellAdds` | src/aotp/wstg/coverage.py:125-129 | a cell of the phase table is additive over the list of objectives, so it counts them one by one |
| `WstgCoverage.CellOne` | src/aotp/wstg/coverage.py:125-129 | a single objective counts in the cell of its phase and its record, deferred if it has none |
| `WstgCoverage.StatusTotalsExceed` | src/aotp/wstg/coverage.py:120-124 | the status totals sum to that number plus the explicit deferred records |
| `FindingLifecycle.FindingCandidate.TransitionTo` | src/aotp/finding_lifecycle.py:22-42 | a transition succeeds exactly along an allowed edge into a valid finding; failing validation it has changed the object all the same |
| `FindingLifecycle.FindingRuns` | src/aotp/finding_lifecycle.py:10-42 | after any transitions of a created candidate its history is a connected path of allowed edges to its state; it is bound to evidence, verification and fingerprint, and reviewed if it has to be; confirmed or beyond means human-validated, from human review, on verified evidence; ready for report means rated, not weak, and a review decision that holds |
| `FindingLifecycle.IndicatorsNeverConfirmed` | src/aotp/finding_candidate.py:111-126 | a candidate from SBOM presence or a cryptographic indicator never gets to confirmed or beyond |
| `FindingLifecycle.ConfirmedExactly` | src/aotp/finding_candidate.py:109-126 | confirming succeeds exactly from human review, with a human, on verified evidence |
| `FindingLifecycle.CreatedExactly` | src/aotp/finding_candidate.py:146-226 | a candidate is created exactly from a failed verification of this evidence with every reference present, for panel evidence with a decision on it; and the fields it starts with |
| `FindingLifecycle.MovesExactly` | src/aotp/finding_candidate.py:78-135 | a valid finding moves exactly along an allowed edge, bound to its evidence, with a human and verified evidence into confirmed, and rated, not weak and decided into ready for report |
| `FindingLifecycle.StatesReached` | src/aotp/finding_lifecycle.py:10-19 | every state but observed is reached by some moves of some created candidate |
| `FindingLifecycle.NeverObserved` | src/aotp/finding_lifecycle.py:10-19 | observed by none |
| `FindingLifecycle.PaidWentThrough` | src/aotp/finding_lifecycle.py:10-19 | a paid finding was last in human review, confirmed, ready for report, submitted, accepted and paid, in that order |

## Left out

- The file system: atomic replacement, permissions, symbolic links, path escapes, torn or partly written log lines. An append or a save happens or does not.
- Tampering between calls: the log and the checkpoint change only through the modelled calls, so the integrity envelope of load_state always matches.
- SHA-256 and canonical JSON: the hash is a function parameter; where collisions matter their absence between the two compared values is a precondition.
- Scope and campaign-definition hashes on resume (src/aotp/campaign_loop.py:73-76): the campaign, scope and limits are fixed over a history.
- The field checks of parse_campaign and of a review decision (src/aotp/campaign.py:115-260): campaigns arrive with well-formed fields and a positive max_iterations, decisions with well-formed fields.
- The body of the policy gate beyond the two facts named above.
- Evidence manifests, panel, fuzzing, SBOM and cryptographic records, evidence directories and endpoint counters of a run: written beside the checkpoint, read by no transition. An exception while writing them is a cut of the call.
- Event module names and evidence directories, and the free text of details: the model keeps kind, iteration, objective, policy decision, outcome and the structured detail.
- Floating-point elapsed time: real numbers.
- Clock readings between two calls of a chain of single steps: in the refinement the next call starts at the reading the last one ended at; within a call the clock is arbitrary.
- LangGraph, SQLite and the interrupt mechanism: the graph is its two nodes and two routes; the hash checks of the graph's own checkpoint are not modelled.
- Denial and execution evidence of tool calls, and the argument and scope validators, which are functions of the tool.
- The text patterns of the scanner: four laws about them are preconditions, and a detector that obeys the laws exists (`Redaction.LawsHaveModels`). Their sequential substitution is not modelled.
- Lower-casing and stripping beyond ASCII: keys are lower-cased as far as ASCII letters go, labels stripped of the ten ASCII characters Python strips.
- The order of Python paths: any total order; file names are bytes and parts never contain a slash.
- Corpus references and report-review decisions are accepted or refused by their own validators, which are abstract here.
- CampaignInvariant.InvariantPassesValidation: without the check that start_time and last_updated_time are timezone-aware timestamps, which the engine takes from the clock and never reads.
- CrashSafety.CheckpointFacts: without the same check of timestamps.
- CampaignEngine.Campaign.SaveState: without the same check of timestamps.
- Redaction.ScanValue: the report is a set; the source sorts that set by the findings' own fields, which adds nothing to it.
- Redaction.SanitizeWithReport: the report is a set, as for ScanValue.
- BoundedFuzzing.BuildFuzzingDryRunPlan: endpoints keep the order of the objective, where the source sorts the same dictionary by alias; the constant entries of the plan and the copied target and api texts are omitted.
- The adapter protocol, engine plan and catalogue of WSTG tests; coverage reports.
- Writing and loading findings, reports, the command line, the vault, lab targets, benchmark comparison: validation and formatting without a property across operations.
