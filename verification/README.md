# Verification of the AI engineering command center

This project models the parts of the command center whose correctness depends on interleavings, crashes,
clocks and lost answers, and proves what they guarantee.

## What is modelled

**Approval, execution and reconciliation.** `ApprovalRows` holds the row and what one store transaction does
to it. `ApprovalProtocol` is the protocol of one approval as a transition system: `Next` performs one atomic
step (one row transaction, one audit append, one `kubectl` call, one crash, one event of the cluster or the
clock) and `Action` carries every choice of the environment, so a sequence of actions is one interleaving of
any number of processes. A status read may be untruthful (every nonzero exit reads as "absent"), a timed-out
apply may land later, a finished Job is deleted by the TTL controller, and clocks and leases are whatever the
action says. `ControlPlane` runs many approvals over one table, one cluster keyed by Job name and one audit log,
and `ControlPlane.Projection` shows that each approval of it is, by itself, a run of `ApprovalProtocol`; so every
result about one approval holds of all of them at once.

- `ProtocolSafety`, `RunTheorems`: the invariant of all reachable states and the safety results.
- `Outcomes`: what a COMPLETED and what a FAILED row say about the approval's Job.
- `ProtocolCounts`: how often things happen, by a debt that every step pays or keeps.
- `TimedRuns`, `SingleOwner`, `OneJob`: the two results that need time, each with its exact condition. The
  "only if" halves build a run that meets the timing bounds and breaks the property.
- `PlaneTheorems`, `ApprovalTable`: all approvals together, status counts and the reconcilable list.
- `ApprovalStores`, `Sites`, `Handlers`: the code itself as methods over a mutable store, audit table and cluster.
  `Handlers` writes `execute_approval`, `decide_approval`, `create_approval`, `ApprovalService.execute`,
  `reconcile` and `retry_if_absent` out statement by statement. Between any two statements arbitrary other
  processes, the cluster and the clock act. Each method is proved to be a run of the protocol in which its process
  performs its task from start to end, so the results about runs are results about these methods
  (`Handlers.ObjectsAreSafe` spells that out). `Working` and `Done` are the contracts of all of them: the objects
  still amount to the state that the recorded run leads to, since its start the process has only moved, and it is
  at the given step, or gone.
- `SoloReconcile`, `AdvisoryLocks`, `ReconciliationWorkers`, `CycleDrain`, `CycleFairness`: the reconciliation worker,
  what its cycles drain, and exactly which rows they ever settle.
- `JobNames`, `Manifests`: the Job name that apply renders and the one that reconciliation looks up.

**The tool-calling agent.** `ToolRegistries`, `ToolCalling`, `ToolAgents`: the allowlist and the bounded loop, for
an LLM that is any function of the round and the messages, and handlers that are any functions.

**The scoring consumer.** `OffsetProtocol` and `ScoringConsumers`: save, produce, commit on one partition, with
every call able to fail, to lose its answer, or to be the last thing the process does.

**Model selection.** `ModelSelection` has the agent's comparison and the training pipeline's selection,
`SelectorAgreement` exactly when the two name the same run.

`RunTheorems.Reaches` and `PlaneTheorems.PlaneReaches` say that a run leads to a state, by the states it goes through
one step at a time; `ReachesRun` and `PlaneReachesRun` show that this is the state that the fold `Run` computes.

## Findings

- The state diagram at README.md:170-184 leaves out UNKNOWN and its edges. The model follows the code.
- COMPLETED written by `execute_approval` means that the request was taken, not that the training ended well: such a
  row has had a Job (`Outcomes.CompletedHadAJob`), and exactly one if it is watched in time
  (`CompletedHadExactlyOneJob`), but the Job may fail (`CompletedThenFailed`). A FAILED row may belong to a Job that
  later completes, be it that `kubectl` exits with an error after the Job was created (`FailedThenCompleted`), or that
  a reconcile reads the first failed pod of a Job whose `backoffLimit` grants it another (`FailedPodThenCompleted`).
  FAILED is conclusive exactly when there is no Job but one that finished as failed, no request is on its way and no
  owner is still before its send (`FailedIsFinalExactlyWhen`).
- One Job per approval needs `gap + send + delay < TTL`, strictly: at equality a Job deleted at the last moment can
  be created again (`OneJob.OneJobIffWatchedInTime`). Lease exclusivity needs `lease > hold + 2 * skew`
  (`SingleOwner.ExclusiveIffLeaseOutlastsHold`); the code checks only that a lease is at least one second.
- The comment at services/kafka_consumer/scoring_consumer.py:328-329 says that a message that failed for a passing
  reason can be processed again after a restart. One later commit breaks that
  (`OffsetProtocol.FailedMessageIsOvertaken`); `FetchedAgainExactlyWhen` and `LostExactlyWhen` give the exact
  conditions.
- The worker's batch is always the oldest rows. With nothing else going wrong, its cycles settle a row if and only if
  the row's own Job can be looked up and has finished, and fewer than a batch of the older rows fail that test
  (`CycleFairness.SettledExactlyWhen`). So a batch's worth of rows with running Jobs starves every younger row, and an
  UNKNOWN row whose Job is gone never leaves the head by the worker's doing: `CycleFairness.FinishedRowStarves` is an
  input on which a completed Job is never read back.
- A worker whose database session ends in mid-cycle goes on working while another is admitted, and learns of it only
  when its release raises (`AdvisoryLocks.DeadSessionAdmitsAnother`, `ReconciliationWorker.RunOnce`).
- A tool result that is None, a boolean or a number, or a list or string that mentions "error", and arguments on which
  the JSON parser raises anything but a decode error, make the agent raise between its audit events; the trace then
  has no result and no terminal event (`ToolAgents.WhatBreaksARunOff`, `ToolAgents.TraceIsBracketed`). `tools_used`
  also lists refused calls of approval-gated tools, since their execution returns.
- The selection picks the head of the comparison, and can pick nothing else however pandas breaks ties, if and only if
  the head has a positive metric, and every other run that the comparison shows and every family's newest measured run
  that it does not show has a lower one (`SelectorAgreement.SelectorsAgreeExactlyWhen`). For some way of breaking ties
  it picks the head if and only if the head has a positive metric and no family's newest measured run that the
  comparison does not show has a higher one (`HeadMayBePickedExactlyWhen`). A run is measured here if its metric is
  positive. They part, for one, when the head itself was not measured (`UnmeasuredHeadIsNotPicked`,
  `UnmeasuredRunPartsThem`); an unmeasured run of another family need not matter, and an older run of the head's family
  does not even if its metric is higher (`OlderRunDoesNotMatter`).

## Model

| member | source | states |
|---|---|---|
| RunTheorems.NoJobWithoutHumanYes | ai_engineering/api/agent_service.py:281-318 | in every run, an apply call, a request on its way or a Job implies an earlier committed human approval, a recorded verdict and a row that is past APPROVED and was never rejected |
| RunTheorems.RowRefinesStory | ai_engineering/storage/approval_store.py:61-69 | for every interleaving the status history is pending, rejected or approved, then executing and unknown in alternation, ending in at most one of completed and failed; verdict, start time and result are set exactly where the history says |
| RunTheorems.FinalRowsAreFrozen | ai_engineering/storage/approval_store.py:222-240 | first writer wins: no later action changes any column of a rejected, completed or failed row |
| RunTheorems.AuditAgreesWithRow | ai_engineering/api/agent_service.py:294-318 | an execution-completed (failed) event implies a COMPLETED (FAILED) row from then on, so no run logs both |
| RunTheorems.ReconcileMarkSettles | ai_engineering/services/reconciliation_service.py:55-62 | a reconcile that saw a finished Job leaves the row settled whatever happened in between; its mark raises exactly when the opposite status came first, and then changes nothing |
| RunTheorems.ReachesRun | ai_engineering/storage/approval_store.py:296-304 | the state at the end of a run, reached one atomic step at a time, is the one that folding the steps computes, and there is no other |
| RunTheorems.ReachedStatesAreSound | ai_engineering/services/reconciliation_service.py:39-180 | the invariant tying row, history, columns, program counters, cluster and log holds in every reachable state |
| ProtocolSafety.MutatorsLawful | ai_engineering/storage/approval_store.py:177-312 | every mutator, the standalone `mark_executing` and `mark_retry_executing` among them, leaves the row alone or takes it along an edge with the columns of the longer history |
| ProtocolSafety.NextKeeps | ai_engineering/services/reconciliation_service.py:91-180 | each step of any process keeps the invariant, freezes final rows, and only extends the history and the log |
| Outcomes.CompletedHadAJob | ai_engineering/api/agent_service.py:310-318 | in every run a COMPLETED row, whoever wrote it, has had a Job |
| Outcomes.CompletedHadExactlyOneJob | ai_engineering/tools/kubernetes_executor.py:58-106 | and exactly one if the run is watched in time |
| Outcomes.FailedIsFinalExactlyWhen | k8s/jobs/model-training-job.yaml:10-11 | after any run that ends in FAILED, no continuation completes a Job if and only if there is no Job but one that finished as failed, no request is on its way and no owner is before its send |
| Outcomes.FailedThenCompleted | ai_engineering/tools/kubernetes_executor.py:84-106 | a run: the request creates the Job, `kubectl` exits with an error, the row is marked FAILED, and the Job completes |
| Outcomes.FailedPodThenCompleted | ai_engineering/tools/kubernetes_executor.py:130-137 | a run: a pod fails, a reconcile reads `failed` as a failed Job and marks FAILED, and the Job completes with its next pod |
| Outcomes.CompletedThenFailed | ai_engineering/api/agent_service.py:310-314 | a run: the handler marks COMPLETED on the success of `kubectl apply`, and the Job fails |
| ProtocolCounts.CountingSandwich | ai_engineering/services/reconciliation_service.py:163-173 | apply calls are at most the started and retry events, these (with service calls) at most the entries into EXECUTING, these at most one more than the entries into UNKNOWN; started at most once; unknown events at most the entries into UNKNOWN |
| ProtocolCounts.RunBalanced | ai_engineering/api/agent_service.py:289-303 | in every run each entry into EXECUTING or UNKNOWN covers the events and calls made and still owed because of it |
| SingleOwner.ExclusiveIffLeaseOutlastsHold | ai_engineering/storage/approval_store.py:269-294 | in all timely runs at most one process is between claim and mark, and none when the row is not EXECUTING, if and only if the lease exceeds the holding time plus twice the clock skew |
| SingleOwner.RunOneOwner | ai_engineering/storage/approval_store.py:198-211 | under that condition every timely run has one owner at most |
| OneJob.OneJobIffWatchedInTime | ai_engineering/tools/kubernetes_executor.py:58-106 | in all watched runs at most one Job is ever created for an approval, despite TTL deletion, if and only if gap plus send plus delay is below the TTL |
| OneJob.RunKeepsJob | k8s/jobs/model-training-job.yaml:11 | under that condition every watched run creates one Job at most |
| ControlPlane.Projection | ai_engineering/storage/approval_store.py:296-304 | in a run over many approvals, what concerns one approval is by itself a run of the protocol |
| ControlPlane.ViewOfOthers | ai_engineering/services/reconciliation_service.py:52 | a step of one approval leaves every other approval's row, Job, requests, processes and events alone, since Job names differ |
| PlaneTheorems.EveryJobWasApproved | ai_engineering/tools/kubernetes_executor.py:30-37 | every Job that is or was in the cluster carries the name of an approval that a human approved earlier in the run |
| PlaneTheorems.EachApprovalHasOneJobAndOneOwner | ai_engineering/services/reconciliation_service.py:91-180 | the two timed results for every approval of the control plane at once, each under its own timing rule |
| PlaneTheorems.CountsConserved | ai_engineering/storage/approval_store.py:139-148 | each step creates one PENDING approval, moves one unit along an edge, or changes no count; the counts add up to the number of approvals |
| PlaneTheorems.StatusMovesAlongEdges | ai_engineering/storage/approval_store.py:306-312 | any step leaves a status, creates a PENDING row, or takes the row along an edge |
| PlaneTheorems.EveryApprovalIsSafe | ai_engineering/storage/approval_store.py:58-69 | every approval of a control plane run satisfies the invariant and the count bounds, and starts by handler once at most |
| ApprovalTable.CountsAddUp | ai_engineering/storage/approval_store.py:139-148 | the status counts add up to the number of rows |
| ApprovalTable.WriteMovesOneUnit | ai_engineering/storage/approval_store.py:139-148 | a write takes one unit out of the old status and puts one into the new |
| ApprovalTable.ReconcilableFacts | ai_engineering/storage/approval_store.py:150-165 | the unlimited list has exactly the EXECUTING and UNKNOWN rows, each once, oldest first |
| ApprovalTable.LimitKeepsOldest | ai_engineering/storage/approval_store.py:155-163 | a limit leaves out only rows that are no older than those kept |
| ApprovalTable.ReconcilableCount | ai_engineering/storage/approval_store.py:150-165 | executing plus unknown in the counts is the length of the unlimited list |
| ApprovalStores.ApprovalStore.Create | ai_engineering/storage/approval_store.py:92-111 | a new PENDING row without verdict, start or result at the end of the table; other statuses and used ids are refused and change nothing |
| ApprovalStores.ApprovalStore.Get | ai_engineering/storage/approval_store.py:113-116 | the row, if there is one |
| ApprovalStores.ApprovalStore.CountStatuses | ai_engineering/storage/approval_store.py:139-148 | the true count of every status, zero or not, adding up to the number of rows |
| ApprovalStores.ApprovalStore.ListReconcilable | ai_engineering/storage/approval_store.py:150-165 | the oldest EXECUTING and UNKNOWN rows up to the limit, each once, oldest first, all of them if the limit is not reached; a limit below one is refused |
| ApprovalStores.ApprovalStore.Decide | ai_engineering/storage/approval_store.py:177-187 | one transaction: the decision and its verdict, or a refusal and an unchanged table |
| ApprovalStores.ApprovalStore.MarkExecuting | ai_engineering/storage/approval_store.py:189-196 | the transition to EXECUTING with its start time, or a refusal and an unchanged table |
| ApprovalStores.ApprovalStore.ClaimExecution | ai_engineering/storage/approval_store.py:198-211 | the caller owns the execution exactly when its call moved the row from APPROVED; an EXECUTING row comes back unowned and unchanged |
| ApprovalStores.ApprovalStore.MarkUnknown | ai_engineering/storage/approval_store.py:213-220 | EXECUTING to UNKNOWN with the result, or a refusal and an unchanged table |
| ApprovalStores.ApprovalStore.MarkSettled | ai_engineering/storage/approval_store.py:222-240 | the final status and result; the same mark again changes nothing; the other mark is refused |
| ApprovalStores.ApprovalStore.MarkRetryExecuting | ai_engineering/storage/approval_store.py:242-253 | UNKNOWN to EXECUTING with a new start time, or a refusal |
| ApprovalStores.ApprovalStore.ClaimRetryExecution | ai_engineering/storage/approval_store.py:255-267 | the caller owns the retry exactly when its call moved the row from UNKNOWN |
| ApprovalStores.ApprovalStore.RecoverStaleExecution | ai_engineering/storage/approval_store.py:269-294 | EXECUTING becomes UNKNOWN exactly when the lease has run out on the caller's clock; a lease below one second is refused |
| Handlers.ExecuteApproval | ai_engineering/api/agent_service.py:281-318 | under arbitrary interference the handler is a run of the protocol from first read to last event; it says not found, or unsupported, exactly for those rows; if it made no apply it returns an EXECUTING row of another owner or the store's refusal, and if it made one its answer is that of the apply's reply |
| Handlers.FinishExecution | ai_engineering/api/agent_service.py:290-318 | from the claim on: the row comes back with the status of the reply, the executor's error comes exactly of an apply that raised and with the row FAILED, in both cases right after the event of the reply; or the store refuses the mark |
| Handlers.AppliedAndMarked | ai_engineering/api/agent_service.py:291-316 | the reply of the apply decides the status written; a mark that succeeds is in the store, and one that fails was refused from a committed status |
| Handlers.DecideApproval | ai_engineering/api/agent_service.py:260-278 | succeeds exactly on a PENDING row when path and body name the same approval, returns it with the status and verdict of the decision, and a rejection stays as returned |
| Handlers.CreateApproval | ai_engineering/api/agent_service.py:222-244 | succeeds exactly for the supported action on an unused id, and returns the new row |
| Handlers.ServiceExecute | ai_engineering/services/approval_service.py:30-42 | the service's own execution path is a run of the protocol, and what it returns is the stored row |
| Handlers.Reconcile | ai_engineering/services/reconciliation_service.py:39-89 | under arbitrary interference a reconcile is a run of the protocol; not found exactly without a row; a row that is not waiting comes back as it is; otherwise it raises the executor's error exactly when the status read raises, conflicts only on a settled row (or a lease below one second), and else returns a row that was in the store, and still is if final |
| Handlers.Resolved | ai_engineering/services/reconciliation_service.py:55-80 | what a reconcile does with what it read: a finished Job's status is written or, if refused, nothing changes; UNKNOWN is written exactly when it read EXECUTING, found the Job absent and the lease of the row as it is now has run out; else the row comes back unchanged |
| Handlers.RetryIfAbsent | ai_engineering/services/reconciliation_service.py:91-180 | under arbitrary interference a retry is a run of the protocol, claim first; not found exactly without a row; a row that is not UNKNOWN comes back as it is; otherwise it returns a row that was in the store, and still is if final, or the store's refusal of its mark |
| Handlers.RetrySettled | ai_engineering/services/reconciliation_service.py:113-161 | a retry that reads a finished Job writes its status, and one that cannot tell writes UNKNOWN |
| Handlers.RetryRead | ai_engineering/services/reconciliation_service.py:113-180 | an absent Job is applied after the retry event; a running one is only recorded and the row read again; anything else is marked |
| Handlers.ObjectsAreSafe | ai_engineering/api/agent_service.py:281-318 | on the objects themselves, wherever the processes are: a Job of this name implies an approved row that is past APPROVED, and a logged outcome is the outcome in the row |
| Sites.Cluster.GetJob | ai_engineering/tools/kubernetes_executor.py:108-137 | a truthful read tells completed, failed pods, running or absent; any nonzero exit tells absent |
| Sites.Site.Interfere | ai_engineering/storage/approval_store.py:296-304 | whatever other processes on the approval, the cluster and the clock do, the site still follows a run of the protocol, the waiting process is where it was, and nothing final or committed is taken back |
| JobNames.NamesCohere | ai_engineering/tools/kubernetes_executor.py:30-42 | apply and reconciliation use the same name exactly for the ids that the lookup validator accepts |
| JobNames.NamesInjective | ai_engineering/tools/kubernetes_executor.py:30-37 | two ids share a Job exactly when lowering and trimming makes them equal; valid ids never do |
| JobNames.NamesAreHostLabels | ai_engineering/tools/kubernetes_executor.py:19-20 | every Job name is a host label of section 2.1 of RFC 1123 within the 63 octets of section 2.3.4 of RFC 1035, and passes the lookup validator |
| JobNames.UuidsAreIds | ai_engineering/api/agent_service.py:226 | the ids that the API draws are valid ids |
| Manifests.RenderRenamesTheFirst | ai_engineering/tools/kubernetes_executor.py:44-56 | rendering replaces the template's name where it first stands under `name:` and nothing else; it fails exactly when the id is bad or the name is not there |
| Manifests.RenderIsInjective | ai_engineering/tools/kubernetes_executor.py:44-56 | different approvals render different manifests |
| SoloReconcile.AloneIsTheProtocol | ai_engineering/services/reconciliation_service.py:39-89 | without interference the single steps of a reconcile amount to one function of row and Job: the row written, the events in order, and nothing else touched |
| AdvisoryLocks.PostgresAdvisoryLock.TryAcquire | ai_engineering/workers/reconciliation_worker.py:32-48 | succeeds exactly when a connection is kept already, alive or not, or the attempt does not fail and the key is free; it raises exactly when it asks and fails; a connection is kept only on success |
| AdvisoryLocks.PostgresAdvisoryLock.Release | ai_engineering/workers/reconciliation_worker.py:50-59 | frees the key if this client has it, drops the connection in any case, and raises exactly when its session had ended |
| AdvisoryLocks.OneClientInside | ai_engineering/workers/reconciliation_worker.py:24-59 | two workers are between a successful acquire and its release at once only if the session of one has ended |
| AdvisoryLocks.DeadSessionAdmitsAnother | ai_engineering/workers/reconciliation_worker.py:32-34 | once a session has ended, the next worker is admitted beside it, unless its attempt fails |
| AdvisoryLocks.Rivals | ai_engineering/workers/reconciliation_worker.py:85-89 | while one worker is inside with a live session, every attempt of any other is turned away, failing or answered |
| ReconciliationWorkers.ReconciliationWorker.RunOnce | ai_engineering/workers/reconciliation_worker.py:85-110 | for any pattern of failures and interference: an acquire that fails raises and changes nothing; without the lock nothing is done; otherwise each batch row is tried once in the list's order, processed plus failed is the batch length, and the lock is released on every exit, also when the load fails; the release raises exactly when the session ended in the cycle, and no rival got in otherwise |
| ReconciliationWorkers.ReconciliationWorker.Build | ai_engineering/workers/reconciliation_worker.py:65-83 | intervals and batch sizes below one are refused |
| CycleDrain.CycleSettlesItsBatch | ai_engineering/workers/reconciliation_worker.py:93-104 | with every Job finished and nothing in the way, one cycle settles exactly the batch with its Jobs' outcomes, returns its size and leaves the other rows alone |
| CycleDrain.DrainedExactlyWhen | ai_engineering/workers/reconciliation_worker.py:85-110 | the reconcilable rows are gone after `c` cycles if and only if `c` is at least their number divided by the batch size, rounded up |
| CycleFairness.SettledExactlyWhen | ai_engineering/workers/reconciliation_worker.py:93-104 | some number of cycles settles a reconcilable row if and only if its Job can be looked up and has finished, and fewer than a batch of the older rows fail that test |
| CycleFairness.SettledInTime | ai_engineering/workers/reconciliation_worker.py:93-104 | such a row is settled after at most one cycle more than there are older rows |
| CycleFairness.CycleSweeps | ai_engineering/storage/approval_store.py:150-165 | one cycle takes the rows of the batch that settle out of the reconcilable list and keeps the others in order; rows outside it are untouched |
| CycleFairness.StuckHeadStarvesTheRest | ai_engineering/storage/approval_store.py:155-163 | with none of the oldest batch able to settle, for whatever reason, no row is ever settled |
| CycleFairness.IdleHeadStopsTheWorker | ai_engineering/services/reconciliation_service.py:55-80 | with running Jobs, refused names or UNKNOWN rows without a Job in the oldest batch, no number of cycles changes anything |
| CycleFairness.FinishedRowStarves | ai_engineering/services/reconciliation_service.py:79-80 | an input: behind one UNKNOWN row whose Job is gone, a completed Job is never read back by batches of one |
| ToolRegistries.ToolRegistry.Register | ai_engineering/tools/registry.py:28-34 | blank and duplicate names are refused and change nothing; otherwise the tool is added |
| ToolRegistries.ToolRegistry.Execute | ai_engineering/tools/registry.py:60-74 | only a registered tool that needs no approval runs, once, and only with an object; a gated tool answers with a refusal; the rest raise |
| ToolAgents.ToolCallingAgent.Run | ai_engineering/llm/tool_calling.py:39-192 | for all replies, parsers and handlers: at most `maxRounds` model calls, each shown a transcript one tool round longer; all calls worked through once in order; `tools_used` is the calls whose execution returned; nothing else ran; the trace is request, pairs, terminal event, and when it breaks off |
| ToolAgents.ToolCallingAgent.AnswerAll | ai_engineering/llm/tool_calling.py:124-177 | the calls of one reply in order, one tool message and one event pair each, until a result cannot be judged |
| ToolAgents.ToolCallingAgent.Build | ai_engineering/llm/tool_calling.py:25-37 | only 1 to 10 rounds are accepted |
| ToolAgents.TalkFacts | ai_engineering/llm/tool_calling.py:71-122 | the last message list shown is a transcript with two messages, one per earlier tool round and one per tool call |
| ToolAgents.TraceIsBracketed | ai_engineering/llm/tool_calling.py:51-56 | a run's trace is one request, adjacent pairs and one terminal event exactly when the run does not raise; otherwise it has no terminal event |
| ToolAgents.WhatBreaksARunOff | ai_engineering/llm/tool_calling.py:141-169 | exactly which arguments and tool results make the agent raise between its audit events |
| ToolCalling.TranscriptGrows | ai_engineering/llm/tool_calling.py:105-177 | a transcript stays one when a reply's calls and their answers are added, with the same ids in the same order |
| ToolCalling.TranscriptLength | ai_engineering/llm/tool_calling.py:71-122 | a transcript's length is two plus its tool rounds plus its tool calls |
| ToolCalling.OnlyAllowedToolsRun | ai_engineering/tools/registry.py:60-74 | every handler that ran in a run is registered, needs no approval and was called |
| ToolCalling.PairsArePaired | ai_engineering/llm/tool_calling.py:126-169 | the tool events are adjacent called and result events, in call order, two per call |
| ScoringConsumers.ScoringConsumer.ProcessMessage | services/kafka_consumer/scoring_consumer.py:236-329 | for every way its calls end: what is saved, sent and committed, which branch is taken, and whether the process ends |
| ScoringConsumers.ScoringConsumer.Consume | services/kafka_consumer/scoring_consumer.py:359-383 | the poll loop, over any number of processes, is a run of the offset protocol |
| OffsetProtocol.CommittedIsAccountedFor | services/kafka_consumer/scoring_consumer.py:236-329 | the committed offset never decreases, and every message below it was saved, committed as invalid, or hit the branch without a commit |
| OffsetProtocol.RowsPerMessage | services/kafka_consumer/scoring_consumer.py:244-272 | never more than one row per message and process; at least one for a committed message that was neither invalid nor failed |
| OffsetProtocol.ScoredAtLeastOnce | services/kafka_consumer/scoring_consumer.py:236-329 | without passing failures every committed valid message has between one row and one row per process, and no invalid one has any |
| OffsetProtocol.FetchedAgainExactlyWhen | services/kafka_consumer/scoring_consumer.py:318-329 | an uncommitted message is fetched again after a restart if and only if no message at or behind it was committed meanwhile |
| OffsetProtocol.LostExactlyWhen | services/kafka_consumer/scoring_consumer.py:318-329 | no continuation gives a message a row if and only if it has none and the committed offset is past it |
| OffsetProtocol.FailedMessageIsOvertaken | services/kafka_consumer/scoring_consumer.py:328-329 | one failed save followed by one success loses the failed message for good, against the comment |
| ModelSelection.CompareLatestModels | ai_engineering/tools/mlflow_tools.py:161-186 | the first of the newest 100 finished runs of each supported family, each once, highest metric first, missing last, newer first on ties |
| ModelSelection.FirstOfEachFacts | ai_engineering/tools/mlflow_tools.py:166-170 | the dictionary loop keeps exactly the first run of each supported family |
| ModelSelection.RankedFacts | ai_engineering/tools/mlflow_tools.py:182-186 | the stable reverse sort permutes its input and orders it, keeping the newer first on ties |
| ModelSelection.SelectBest | src/training/select_best_model.py:20-72 | which error is raised when; otherwise a newest eligible run of its family that no other family's newest run beats, however pandas breaks ties |
| ModelSelection.HeadIsBest | src/training/select_best_model.py:63-72 | sort, drop duplicates and sort puts such a run first |
| SelectorAgreement.SelectorsAgree | src/training/select_best_model.py:37-72 | when each family's newest finished run is among the newest 100 and has a positive metric, start times differ and no other family ties the lead, the selection picks exactly the head of the comparison |
| SelectorAgreement.SelectorsAgreeExactlyWhen | src/training/select_best_model.py:37-72 | the selection picks the head of the comparison, however pandas breaks ties, if and only if the head has a positive metric, and every other run shown and every family's newest measured run not shown has a lower one |
| SelectorAgreement.HeadMayBePickedExactlyWhen | src/training/select_best_model.py:63-72 | for some way of breaking ties the selection picks the head, if and only if the head has a positive metric and no family's newest measured run that is not shown has a higher one |
| SelectorAgreement.PicksExactlyTheBest | src/training/select_best_model.py:63-72 | the runs that can come out of sort, drop duplicates and sort, for some way of breaking ties, are exactly the best ones: newest of their family and beaten by no family's newest |
| SelectorAgreement.RankedIsNewestWhen | src/training/select_best_model.py:29-33 | a run that the comparison shows is its family's newest row in the selection exactly when it has a positive metric |
| SelectorAgreement.UnmeasuredHeadIsNotPicked | ai_engineering/tools/mlflow_tools.py:182-186 | an unmeasured head of the comparison is never the selection's pick |
| SelectorAgreement.UnmeasuredRunPartsThem | ai_engineering/tools/mlflow_tools.py:182-186 | an input: of a family's two runs the comparison names the newer, unmeasured one and the selection the older |
| SelectorAgreement.OlderRunDoesNotMatter | src/training/select_best_model.py:63-72 | an input: with an older and better run of the head's family, the selection still picks the head |

## Left out

- FastAPI routing, authentication, metrics, readiness and the dashboard: presentation and I/O without state of their own.
- `create_agent_decision` and `create_training_approval`: they create an approval through the same store operation as `create_approval`.
- SQL, sessions, migrations and JSON columns: a store mutator is one atomic transaction on the row. Rows with a null start time, `clear` and `create_tables` are not part of the protocol.
- Row contents that no code branches on: reason, execution plan, and the text of results. A result is kept as its `executed` and `unknown` flags and where it came from.
- Ties on the request time in `list_reconcilable`: SQL leaves them open, the model takes insertion order.
- Audit writes that fail in a handler: the process stops there, which is a crash of the protocol. The worker model does let the two audit writes of a reconcile fail.
- Jobs deleted by hand, and more than one cluster or namespace.
- `kubectl apply` of a changed manifest to an existing Job: apply leaves an existing Job as it is.
- Ids outside ASCII in Job names and white space outside ASCII in manifests: `str.lower` and `str.strip` are modelled on ASCII.
- Handlers.ExecuteApproval: its interference is that of processes working on the same approval and of the clock; processes on other approvals are covered by ControlPlane.Projection, not by the method.
- Sites.Site.Interfere: the same; processes on other approvals share the store, the log and the cluster but not this approval's part of them.
- Handlers.Reconcile: the ids, trace ids and payloads of audit events are not modelled, only which event is about which approval.
- ReconciliationWorkers.ReconciliationWorker.RunOnce: each reconcile of the batch is taken in one step, by the function that SoloReconcile.AloneIsTheProtocol derives from the single steps; other processes write rows between items, not within one.
- AdvisoryLocks.PostgresAdvisoryLock.TryAcquire: an attempt that fails leaves the key as it was; a key granted to a session that lives on although its answer is lost is not modelled.
- AdvisoryLocks.PostgresAdvisoryLock.Release: an unlock statement that fails while its session lives on is not modelled.
- `run_forever` and its sleeping, and the environment variables that configure worker, lease and loop.
- ToolAgents.ToolCallingAgent.Run: audit writes do not fail in the model, and a result always has a JSON form; parsing of arguments is any function, which may raise.
- `ToolRegistry.names` and `definitions`: listings of the registered tools.
- Kafka rebalancing, several partitions, delivery of produced results, and producer flushing: one partition, one consumer, and a produce call that is accepted or not.
- The scores, features and thresholds themselves, and the row's contents: a row stands for its message's offset.
- ModelSelection.CompareLatestModels: metrics other than roc_auc are passed through by the code and are not modelled; metrics are real numbers, so NaN does not occur.
- The champion alias, promotion, drift reports, training and Airflow DAGs; `ReviewerAgent`, `MLAgent`, `MonitoringAgent`, `OrchestratorAgent`, `RetrainingWorkflow` and `ModelPromotionWorkflow`: short decision chains or library calls.
