# CareerOps agent harness: a verified model

CareerOps runs a model/tool loop whose every action is a database row committed before and after it
happens, so that a process that dies can be resumed from what it left behind. This project models the
parts of the harness that have to be right for that to work, and proves what they promise.

**Durable tool calls.** `ToolProtocol` is a machine with one step per point where the process can die or
another session can interleave: each commit, the select and the conditional update of an approval, and the
moment after the handler or the reconciliation adapter was called and before anything is stored. The
handler, the clock and the adapter are arbitrary. A `World` is the committed rows plus a log of what an
outside observer saw (invocations, adapter answers, reported provider ids). `ToolHistories` puts any
number of sessions on one world; a history is any list of begin, step and crash moves. `ApprovalSafety`
and `ToolSafety` hold the invariants, `ToolGuarantees`, `ToolAuthority` (what the task policy has to do with
what runs) and `ToolConfirmation` (what a success rests on) the results over histories, `ToolLimits` concrete
histories that show where a stronger claim would be false. `ToolOutcomes` and `RecoveryOutcomes` say what one
request makes of the rows and the log when nobody interferes: which request a reused key answers, what each
policy decides, what each handler outcome and each adapter answer leaves behind. `ToolRuntime` is the code's
own form, a session object whose methods change rows and commit; each method is proved to end where the
machine stands after as many steps of the same request, with the process dying after any number of them, so
the results hold of the methods.

**Agent runs.** `AgentRuns` is the same construction one level up, for the bounded loop and its recovery,
with every step also able to raise; `AgentOutcomes` says when a run goes on, stops, needs review and fails;
`AgentEngine` is the engine class and refines the machine. `AgentToolRuns` puts
the two machines together: the executor of a run does its tool steps as one session of the tool machine
among others. `RunLeases` is the compare-and-set lease on a run.

**Context budget.** `ContextCompaction` is the search for a form of the observations that fits,
`MemorySelection` the two-queue allocator, `RequestBudget` the composition under one input budget. Token
estimators are arbitrary functions that give an empty list zero tokens.

**Memory store.** `MemoryRecords` has the rows (current view, revisions, journal, tombstones) and what each
operation does to them; `MemoryRetention` the maintenance pass; `MemoryHistories` what every history of
operations keeps; `MemoryOutcomes` what is admitted, rewritten, retired and purged, row by row;
`MemoryService` the services as methods that change rows in place.

**Retrieval.** `HybridRetrieval` fuses three rankings by reciprocal rank, over exact reals, and
`RankingOutcomes` says what those rankings are in terms of the documents;
`EmbeddingCache` is the persistent cache in front of an embedding provider.

Ids are positions in the tables. Integers are unbounded, as they are in the source language. Times are in
seconds.

## Where the code does less than it seems to promise

- The design says the adapter is asked about the operation whose outcome is unknown
  (docs/reliable-tool-runtime.md:134-139). An attempt abandoned while executing keeps the provider id of an
  earlier attempt (app/services/tool_runtime.py:238-245), so a `not_found` may be about that one.
  `ToolGuarantees.ProviderIdIsLatestIffNotAbandoned` says exactly when the id is the latest attempt's,
  `ToolLimits.RetryOnStaleNotFound` is a history where it is not, and
  `ToolGuarantees.NotFoundBetweenInvocations` is what holds regardless.
- Exactly-once internal writes, and an approval never both consumed and revoked, need requests for one call
  to be serialized: `ToolLimits.ConcurrentRecoveriesWriteTwice` and `ToolLimits.ConsumedAndRevoked` are
  interleavings that break them. The claims about spending approvals hold in every interleaving.
- A batch of recoveries selects by status once, for all its calls (app/services/tool_recovery.py:43-54), and
  recovering one of them does not look at its status as a filter again (app/services/tool_recovery.py:69-140).
  A batch therefore holds every call from its select on, and serialized means that nobody else works on a
  held call: `ToolRuntime.BatchIsAHistory`. Where another recovery finishes a held call first, the batch
  repeats it and commits an internal write twice, though no two recoveries overlap:
  `ToolLimits.StaleSelectionWritesTwice`.
- Recovery of a run ends with the run no longer running unless something raises where nothing catches it: in
  recovery's own steps, or in the engine's failure handler (app/services/agent_loop.py:333-337).
  `AgentRuns.RecoveryLeavesRunningIff` gives the exact condition.
- The failure handler does not look at the status it overwrites (app/services/agent_loop.py:882-887): the
  engine started on a finished run leaves it alone unless its first read raises, and then marks it failed
  (`AgentRuns.FinishedRunIsLeftAlone` states both halves).
- The embedding cache stores nothing of a refused reply (app/services/retrieval_embedding_cache.py:54-65), so
  texts are embedded again after one: `EmbeddingCache.RefusedReplyIsAskedAgain`. At most once per version
  holds while no insert has been lost and no reply refused, and in any case exactly the texts that are not
  stored are asked for.
- The compaction search falls back to an empty list, which tells the model of no observation at all, exactly
  when no form fits: `ContextCompaction.SearchAccountsForAllIff`.
- A lease holder that re-acquires or renews for a shorter time gives up time it was promised.
  `RunLeases.LeasesAreExclusive` holds without such steps, in particular with one lease length, and
  `RunLeases.ShorteningLetsAnotherIn` shows that one such step is enough to break it.

## Model

| member | source | states |
|---|---|---|
| `ToolGuarantees.InternalWriteCommittedIffSucceeded` | app/services/tools.py:267-306 | over every history with serialized requests per call, where a batch holds each call from its select on, and any crashes: the business write of an internal_write call has been committed once if its status is succeeded and never otherwise |
| `ToolGuarantees.NotFoundBetweenInvocations` | app/services/tool_recovery.py:143-266 | between any two handler invocations of one external_write call the adapter has answered not_found for it, whatever was submitted, replayed, recovered or cut short |
| `ToolGuarantees.WaitingMeansNothingOutstanding` | app/services/tool_recovery.py:82-105 | a proposed, authorized, denied or waiting external write has no invocation that was not answered not_found, and attempt_count never falls behind the invocations |
| `ToolGuarantees.ProviderIdIsLatestIffNotAbandoned` | app/services/tool_runtime.py:228-303 | the stored provider id of an unknown outcome was reported by the latest counted attempt exactly when that attempt was not abandoned while executing |
| `ToolGuarantees.ConsumedOrRevokedNotBoth` | app/services/tool_approval.py:37-64 | with serialized requests no approval is both consumed and revoked |
| `ToolGuarantees.SlotMarksTheOneOpenApproval` | app/models.py:601 | in every interleaving the slot column is set exactly while an approval is neither consumed nor revoked, and a call has at most one such approval |
| `ToolGuarantees.InvocationsStandOnOwnApprovals` | app/services/authorization.py:66-83 | in every interleaving an invocation of an external write stands on an approval with the same call, task, tool, key and fingerprint, consumed before its expiry, on which no other invocation stands |
| `ToolGuarantees.InvocationsNeverOutnumberApprovals` | app/services/tool_approval.py:92-127 | in every interleaving the invocations of an external write are at most its consumed approvals |
| `ToolGuarantees.SpentOnceForAll` | app/services/tool_approval.py:109-127 | a consumption, once committed, is never altered or repeated by any later history |
| `ToolGuarantees.OnlyItsCallSpends` | app/services/tool_approval.py:98-116 | the only move that consumes an approval is the spending update of a session on its own call, while the slot is set and before expiry |
| `ToolAuthority.AuthorizationsFollowThePolicy` | app/services/authorization.py:64-87 | in every interleaving an authorization row is only written by a request that has read its task's policy; it says denied exactly when the tool was not listed there, allowed without an approval when it was listed and free to run, and allowed with one exactly where one was asked for and found |
| `ToolAuthority.OnlyListedToolsRun` | app/services/authorization.py:66-68 | in every interleaving a handler invocation is logged and a business write committed only by a request that found the tool listed when it decided |
| `ToolAuthority.OffListEndsRefused` | app/services/tool_runtime.py:88-121 | in every interleaving a request that found its tool off the list ends as a refused replay, with its call denied, or, in recovery, with its call up for review |
| `ToolConfirmation.SucceededMeansConfirmed` | app/services/tool_recovery.py:186-190 | over every serialized history a call is succeeded only if its last invocation returned the stored output, or an adapter answer since then says succeeded with that output |
| `ToolOutcomes.ConflictsIff` | app/services/tool_runtime.py:400-406 | for every request and every crash point, a submission conflicts exactly when its tool is registered and the key belongs to another request of the task, is refused as unknown exactly when the request's tool or that of the matching saved call is not registered, and in both cases has changed nothing |
| `ToolOutcomes.FinishesOwnRequest` | app/services/tool_runtime.py:55-60 | for every request and every crash point, what a submission finishes is a call of its task under its key with exactly its request |
| `ToolOutcomes.AlwaysUniqueKeys` | app/models.py:498-500 | in every interleaving no two calls of a task share a key |
| `ToolOutcomes.FirstSubmissionEnds` | app/services/tool_runtime.py:62-132 | a first submission that lives to its end leaves one new row: denied when the tool is off the list, waiting when it has no approval it needs, with nothing invoked or written in either case, and otherwise with the result of one attempt |
| `ToolOutcomes.ReplayEnds` | app/services/tool_runtime.py:407-425 | a replay that lives to its end is refused exactly when the policy or a missing approval says so; allowed, a waiting or denied call makes one attempt, which invokes it unless its arguments do not validate, and any other call only has its replays counted |
| `ToolOutcomes.SettledReplayNeverExecutes` | app/services/tool_runtime.py:426-451 | wherever it dies, a replay of a call that neither waits nor was denied invokes nothing, writes nothing and changes no row but the one replay count with which it ends |
| `ToolOutcomes.ReplayedAnswerExecutedNothing` | app/services/tool_runtime.py:426-451 | whatever was submitted, an answer marked as replayed invoked nothing and changed one replay count |
| `ToolOutcomes.AuthorizationEnds` | app/services/authorization.py:56-109 | the decision recorded is the one the policy row, or the read-only default, and the open approvals of exactly this call at that time call for; only the authorization row, a missing policy and the spent approval are written |
| `ToolOutcomes.AttemptEnds` | app/services/tool_runtime.py:135-215 | one attempt is counted, and for every way the tool can end the row, the log and the business write are what that ending calls for |
| `RecoveryOutcomes.SucceedsByReconciliationIff` | app/services/tool_recovery.py:166-266 | a recovery of an unknown outcome that can be asked for ends succeeded without an invocation exactly when the adapter says succeeded, with that output and no error; on pending, unknown and failed answers status, attempts and provider id are unchanged and nothing is invoked |
| `RecoveryOutcomes.RetryAfterNotFoundEnds` | app/services/tool_recovery.py:211-255 | after not_found the call is decided about again: off the list it needs review, for want of an approval it waits, and only allowed is it tried once more |
| `RecoveryOutcomes.ReviewedRecoveryEnds` | app/services/tool_recovery.py:74-117 | a proposed call, an unknown outcome nobody can be asked about and an unregistered retry are handed to review and nothing else changes |
| `RecoveryOutcomes.ExternalRecoveryEnds` | app/services/tool_recovery.py:85-105 | an external write that may have been sent is only marked unknown, never invoked |
| `RecoveryOutcomes.RepeatedRecoveryEnds` | app/services/tool_recovery.py:107-140 | a read or internal write is attempted again exactly when the policy still lists it |
| `RecoveryOutcomes.ApprovalGrantedIff` | app/services/tool_approval.py:18-64 | an approval is granted exactly for a waiting or denied external write whose last decision asked for one and that has none in force; it is scoped to that call, and what was expired in its slot is revoked |
| `RecoveryOutcomes.PolicyChangedIff` | app/services/authorization.py:41-53 | a policy changes exactly when every listed tool is registered; then it lists exactly these and is one version on |
| `ToolLimits.RetryOnStaleNotFound` | app/services/tool_runtime.py:238-245 | a serialized history in which the third invocation follows a not_found about the first attempt's id |
| `ToolLimits.ConcurrentRecoveriesWriteTwice` | app/services/tool_recovery.py:107-140 | an interleaving of two recoveries of one call that commits its internal write twice |
| `ToolLimits.StaleSelectionWritesTwice` | app/services/tool_recovery.py:43-54 | a history in which a batch selects an executing call, another recovery finishes it, and the batch then reads it as succeeded and commits its internal write again |
| `ToolLimits.ConsumedAndRevoked` | app/services/tool_approval.py:43-47 | an interleaving that leaves an approval both consumed and revoked |
| `ToolHistories.StepsRunOut` | app/services/tool_recovery.py:69-140 | every step of every request lowers a bound on its remaining steps, so no request runs forever |
| `ToolHistories.StepKeepsCalls` | app/services/tool_runtime.py:306-319 | no step deletes a call or changes what identifies it, and a step changes only the row of its own call |
| `ToolHistories.StepKeepsApprovals` | app/services/tool_approval.py:51-60 | no step changes the scope of an approval or a recorded consumption; only a spending step consumes |
| `ToolRuntime.Runtime.RunToolCall` | app/services/tool_runtime.py:41-132 | leaves the committed rows where the machine's submission stands after the same number of steps, for every crash point, and returns the outcome the machine reaches |
| `ToolRuntime.Runtime.ReplayOrConflict` | app/services/tool_runtime.py:394-451 | a conflict exactly when the saved call is another request, which changes nothing; a waiting or denied call finishes as executed and any other as replayed; and the rows are where the machine stands after the same number of steps, for every crash point |
| `ToolRuntime.Runtime.ExecuteAuthorizedRecord` | app/services/tool_runtime.py:135-215 | the same for authorized, executing and the final commit |
| `ToolRuntime.Runtime.RetryPersistedToolCall` | app/services/tool_runtime.py:228-303 | the same for a retry, which keeps the earlier provider id until its own result is stored |
| `ToolRuntime.Runtime.ExecuteTool` | app/services/tools.py:236-314 | the classification of every handler outcome, and that the session keeps the business write of an internal write exactly when it succeeded |
| `ToolRuntime.Runtime.AuthorizeToolCall` | app/services/authorization.py:56-109 | denied exactly when the task's policy, or the read-only default of a task without one, does not list the tool; and the same refinement for policy, approval and authorization row |
| `ToolRuntime.Runtime.GetOrCreateTaskPolicy` | app/services/authorization.py:30-38 | the same refinement for the default policy |
| `ToolRuntime.Runtime.UpdateTaskPolicy` | app/services/authorization.py:41-53 | the same refinement for a policy change, refused for unregistered tools |
| `ToolRuntime.Runtime.ConsumeMatchingToolApproval` | app/services/tool_approval.py:92-127 | the same refinement for the select and the conditional update, which grants exactly when it still matched a row |
| `ToolRuntime.Runtime.CreateToolApproval` | app/services/tool_approval.py:18-89 | the same refinement for a grant, its refusals included |
| `ToolRuntime.Runtime.RecoverRecord` | app/services/tool_recovery.py:69-140 | the same refinement for recovery by status and effect, for whatever status the row has by then, a final one included |
| `ToolRuntime.Runtime.RecoverStaleToolCalls` | app/services/tool_recovery.py:36-66 | selects the task's stale calls that have neither ended nor wait for a person, in id order, once, and leaves the rows where the machine stands after recovering them in turn, for every crash point |
| `ToolRuntime.BatchIsAHistory` | app/services/tool_recovery.py:43-54 | such a batch is a serialized history in which all selected calls are held from the query on, so the guarantees apply to it |
| `ToolRuntime.Runtime.ReconcileExternalWrite` | app/services/tool_recovery.py:143-266 | succeeded with the reported output and no error when the adapter says succeeded, otherwise only an error text while it knows nothing; and the same refinement for every answer, missing adapter and missing provider id |
| `ToolRuntime.Runtime.SetStatus` | app/services/tool_recovery.py:269-328 | the same refinement for the transitions that only set status and error, such as keeping a reconciliation pending |
| `ToolRuntime.OneCallPerRequest` | app/models.py:498-500 | however far a request gets, it creates at most one ToolCall, only by a submission, and only under a task and key that had none |
| `ToolRuntime.ServingIsAHistory` | app/services/tool_recovery.py:299-303 | any sequence of method calls with any crash points is a serialized history, so the guarantees apply to the rows the methods leave |
| `AgentRuns.EveryCommittedPrefixIsWellFormed` | app/services/agent_loop.py:532-738 | in every committed state of a run, whatever the model, the tools and the crashes: steps are 1..step_count within max_steps, only the last tool step can lack its observation, an answer is last, and each created ToolCall is linked to its step, at most one per step |
| `AgentRuns.RecoveryTerminates` | app/services/agent_run_recovery.py:117-197 | recovery of a reachable running run ends within a bound given by the run, with the run no longer running unless an exception left it, calls the model at most max_steps - step_count times and never when an answer was saved |
| `AgentRuns.RecoveryLeavesRunningIff` | app/services/agent_run_recovery.py:103-207 | recovery leaves the run running exactly when something raises at one of recovery's own steps (its start other than the two caught refusals, marking for review, the resumed tool step, recovering the linked call, restoring its observation) or in the engine's failure handler |
| `AgentRuns.EngineEscapesIff` | app/services/agent_loop.py:333-337 | an exception leaves the engine's run method exactly when its failure handler raises |
| `AgentOutcomes.ResumableRunGoesOn` | app/services/agent_loop.py:388-405 | a running run without steps or with an observed last step, started or recovered with nothing raised or refused, asks the model below its limit and stops as max_steps without a call at its limit |
| `AgentOutcomes.LinkedStepIsRestored` | app/services/agent_run_recovery.py:160-197 | a linked step gets the durable result of its call, and the run goes on, exactly when that call has ended; otherwise the run needs review and nothing else changes |
| `AgentOutcomes.UnlinkedStepIsExecuted` | app/services/agent_run_recovery.py:149-158 | a step no call was created for is executed by recovery, gets what came of it, be it an error, and the run goes on |
| `AgentOutcomes.RefusedRecoveryNeedsReview` | app/services/agent_run_recovery.py:106-115 | a recovery refused for its model or checkpoint hands the run to review |
| `AgentOutcomes.AnswerCompletesRun` | app/services/agent_loop.py:365-380 | an answer is saved as the next step and completes the run with exactly that answer |
| `AgentOutcomes.ToolTurnGoesOn` | app/services/agent_loop.py:365-386 | a tool call is saved as the next step, linked to the ToolCall it created or found, observed as what came of it, and the run goes on or stops at its limit |
| `AgentOutcomes.RunFailsIff` | app/services/agent_loop.py:333-337 | wherever a request dies, its run is failed exactly when the engine gave up on an exception it catches or on an invalid decision, or was started on a tool step only recovery may take up, and marking it failed went through |
| `AgentEngine.AgentLoopEngine.RunLoop` | app/services/agent_loop.py:357-386 | the loop leaves the committed run where the machine stands after the same number of steps, for every crash point, and says whether it raised |
| `AgentEngine.AgentLoopEngine.RunEngine` | app/services/agent_loop.py:333-337 | the same, with every exception of the loop turned into a failed run and one of the failure handler passed on |
| `AgentEngine.AgentLoopEngine.ExecuteTool` | app/services/agent_loop.py:636-738 | the same for linking the call and storing its observation |
| `AgentEngine.AgentLoopEngine.FinishCommittedBoundary` | app/services/agent_loop.py:388-405 | the loop goes on exactly for a running run with no steps or an observed last step, and the start is refused exactly on a step without its observation; and the same refinement |
| `AgentEngine.AgentLoopEngine.CompleteRun` | app/services/agent_loop.py:747-849 | the same for completion, all or nothing |
| `AgentEngine.AgentLoopEngine.RecoverAgentRun` | app/services/agent_run_recovery.py:103-197 | the same for recovery by the last committed step, with the two refusals it catches and every raise it does not |
| `AgentEngine.AgentLoopEngine.RecoverReachableRun` | app/services/agent_run_recovery.py:103-197 | on a reachable running run, in a process that lives long enough, recovery returns with a well-formed run, raising exactly when it is left running, within the model-call bound |
| `AgentToolRuns.EveryObservationIsCommitted` | app/services/agent_loop.py:642-668 | in every history of a run and its tools, when a step gets the observation of a call, the step is linked to that call and the status is that of its row; an internal write has then been committed once if the status is succeeded and never otherwise, and between any two invocations of an external write there was a not_found |
| `AgentToolRuns.StepsOwnTheirCalls` | app/services/tool_runtime.py:75-86 | in every such history the ToolCalls created for steps are distinct rows of distinct steps, each linked to its step for good, and every link is to a row that exists |
| `AgentToolRuns.ExecutorCreatesForItsStep` | app/services/agent_run_recovery.py:152-154 | every row an executor adds, in the loop or in recovery, is recorded as created for the pending step and linked to it |
| `AgentToolRuns.CallsCarryTheirSteps` | app/services/agent_loop.py:645-655 | in every such history the ToolCall created for a step is for good that step's own request: its tool, and a fingerprint of exactly its tool and arguments |
| `AgentToolRuns.ExecutorRefinesRun` | app/services/agent_loop.py:636-668 | seen from the run, every step of the two machines together is a step of the run's machine or none, so what is proved of runs holds with real tools |
| `RunLeases.RunLease.AcquireLease` | app/services/agent_run_lease.py:18-49 | grants exactly on a running run that is free, expired or already the owner's, and is refused for a blank owner or under three seconds |
| `RunLeases.RunLease.RenewLease` | app/services/agent_run_lease.py:52-76 | renews exactly for the unexpired holder of a running run |
| `RunLeases.RunLease.ReleaseLease` | app/services/agent_run_lease.py:79-87 | clears the lease of its owner; a displaced owner's release changes nothing |
| `RunLeases.OneLengthIsExclusive` | app/services/agent_run_lease.py:18-87 | for any operations at nondecreasing times with one lease length, claims of different owners never share a moment |
| `RunLeases.LeasesAreExclusive` | app/services/agent_run_lease.py:26-48 | the same for any lengths as long as no operation shortens the lease its holder has |
| `RunLeases.ShorteningLetsAnotherIn` | app/services/agent_run_lease.py:30-44 | after any orderly history, one operation that shortens a live lease lets any other owner in while the holder still has promised time |
| `RunLeases.NothingGrantedAfterFinish` | app/services/agent_run_lease.py:33-34 | once a run is finished no operation grants or extends anything on it |
| `RunLeases.GrantedUnlessClaimed` | app/services/agent_run_lease.py:26-48 | after any orderly history a lease is granted on a running run exactly when nobody else's claim is still in force |
| `RunLeases.RenewedWhileClaimed` | app/services/agent_run_lease.py:61-75 | after any orderly history a lease is renewed exactly while the owner's own claim is in force |
| `ContextCompaction.CompactObservations` | app/services/context_compaction.py:172-225 | for any estimator the search ends; its result fits the budget, kept and removed indexes split the observations with the kept ones a suffix, and it is the first form in the fixed order that fits, every earlier one exceeding the budget |
| `ContextCompaction.BuildCompactedObservations` | app/services/context_compaction.py:228-249 | the form is the summary of the removed prefix followed by the kept suffix unchanged |
| `ContextCompaction.FormAccountsForAll` | app/services/context_compaction.py:309-337 | every form shows or counts every observation, and details plus omissions add up to what was summarized |
| `ContextCompaction.FormAtMeans` | app/services/context_compaction.py:201-225 | what the k-th form shows: how long a suffix as it is, how many older observations in detail, identified and previewed to 160 characters, and how many only counted |
| `ContextCompaction.SearchAccountsForAllIff` | app/services/context_compaction.py:215-225 | what the search returns accounts for every observation exactly when some form fits, since its fallback is the empty list |
| `ContextCompaction.CompactAgentContext` | app/services/context_compaction.py:56-161 | the context fits the budget, is untouched exactly when the whole list fits, and is otherwise the first form that fits, telling exactly the reported split into a removed prefix and a retained suffix |
| `RequestBudget.BuildRequest` | app/services/agent_loop.py:407-521 | whether a request can be built does not depend on the observations: exactly when the fixed sections fit; every request handed to the model satisfies sum of sections <= context minus output reserve and shows the first form of the observations that fits what is left |
| `RequestBudget.AllocationIsLargestShare` | app/services/agent_loop.py:456-462 | memory gets the most it asks for that is at most a third of what the protected sections leave |
| `MemorySelection.SelectUnderBudget` | app/services/memory_runtime.py:304-350 | the loop computes the specified rounds of turns |
| `MemorySelection.SelectionIsOrderly` | app/services/memory_runtime.py:318-348 | the selection stays within the token budget and both limits, keeps each channel's rank order, and alternates strictly until one channel closes for good |
| `MemorySelection.SelectionIsMaximal` | app/services/memory_runtime.py:325-340 | with a monotone estimator no unselected candidate of a channel below its limit fits on top of the selection |
| `MemorySelection.EveryPickIsTheNextThatFits` | app/services/memory_runtime.py:324-345 | for any estimator every pick is the first candidate after its channel's earlier picks that fits on top of everything chosen before it |
| `MemorySelection.MemoriesGoFirst` | app/services/memory_runtime.py:316-323 | knowledge is picked first only when no memory could be picked at all |
| `MemoryHistories.CurrentViewIsLatestWrite` | app/services/memory_evaluator.py:157-212 | after any history a memory's content is that of its latest stored or superseded journal row, purged or not, and its version is 1 plus the superseded rows |
| `MemoryHistories.ChainReplaysTheJournal` | app/services/memory_versioning.py:11-68 | until its purge a memory has revisions 1..version without a gap, each closed exactly when the next begins, the last open with the current content, and together they are the written journal contents in order |
| `MemoryHistories.JournalIsAppendOnly` | app/services/memory_evaluator.py:650-681 | each evaluation journals exactly one row, nothing else does, and a row only ever changes by having its payload masked when the memory it names is purged |
| `MemoryHistories.PurgedStaysPurged` | app/services/memory_maintenance.py:81-93 | once purged, under any later history, a memory never changes again, is retired with marker content and no revisions, and no journal row that names it carries a payload |
| `MemoryHistories.RetiredStaysRetired` | app/services/memory_evaluator.py:639-647 | no history reactivates or rewrites a retired memory; only a purge touches it |
| `MemoryHistories.ReplayStoresNothing` | app/services/memory_evaluator.py:157-165 | evaluating an accepted candidate again changes no memory and no revision, whatever the evidence is by then |
| `MemoryHistories.BackfillChangesNothing` | app/schema_compat.py:114-147 | on every reachable store the startup backfill is the identity, so it never revives purged revisions |
| `MemoryHistories.HistoriesKeepStore` | app/models.py:276-281 | every history keeps the whole store invariant, unique names included |
| `MemoryOutcomes.AddedIff` | app/services/memory_evaluator.py:380-418 | a memory is added exactly when its name is free and the candidate is in scope, at least 24 characters, free of secrets, novel, and accepted by provenance or by the semantic verdict the rules asked for; the new row, revision and journal row are exactly the candidate |
| `MemoryOutcomes.RewrittenIff` | app/services/memory_evaluator.py:639-647 | the memory of that name is rewritten exactly when the candidate meets the same conditions but novelty and a tool source reports other content for an active fact of the same scope, task and run; its open revision is closed and the next one opened |
| `MemoryOutcomes.OtherwiseOnlyJournaled` | app/services/memory_evaluator.py:157-212 | in every other case no memory and no revision changes, and the journal says already stored exactly when an admissible candidate repeats the content under its name, and otherwise not stored, masked if the memory was purged |
| `MemoryOutcomes.ReviewedIff` | app/services/memory_evaluator.py:408-413 | an evaluation is left for review exactly when no rule rejects it, its provenance needs review, and no semantic verdict settles it |
| `MemoryOutcomes.OnlyAdmissibleIsStored` | app/services/memory_evaluator.py:393-407 | over every history of the store, each journal row that stored or superseded something belongs to an evaluation of an admissible candidate |
| `MemoryOutcomes.CreatedIff` | app/main.py:212-236 | an explicit creation adds one active memory with one open revision exactly when its lifetime holds and its name is free, and changes nothing otherwise |
| `MemoryOutcomes.EndRetiresWorking` | app/services/memory_lifecycle.py:20-47 | the end of a run or task retires exactly its active working memories |
| `MemoryOutcomes.BackfillGivesFirstRevision` | app/schema_compat.py:114-147 | a memory gets a first revision exactly when it has none and was not purged |
| `MemoryRetention.MaintenanceBoundsEpisodes` | app/services/memory_maintenance.py:38-57 | after maintenance the task's active unexpired runtime episodes are exactly the kept ones: at most the limit, with pairwise different content, each above every capacity-retired one by importance and id |
| `MemoryRetention.RetireListMeans` | app/services/memory_maintenance.py:38-57 | who is on the retire list: the task's expired memories, and of its episodes exactly those not kept |
| `MemoryRetention.PurgeListMeans` | app/services/memory_maintenance.py:59-66 | who is on the purge list: retired long enough, working or episodic, not yet cleaned |
| `MemoryOutcomes.RetiredIff` | app/services/memory_maintenance.py:38-57 | a pass retires a memory exactly for having outlived its date, for repeating a better episode, or for having as many better episodes as the limit allows, and gives that reason |
| `MemoryOutcomes.MaintainedExactly` | app/services/memory_maintenance.py:59-93 | what a pass makes of every row: retired with its reason, purged of payload, revisions and journal payloads when retired long enough, or untouched |
| `MemoryRetention.MaintenanceLeavesAlone` | app/services/memory_maintenance.py:32-36 | memories of other tasks, unexpired facts and whatever is on neither list keep their row and revisions |
| `MemoryRetention.SecondPassFindsNothing` | app/services/memory_maintenance.py:38-66 | a second pass at the same time with the same limits retires and purges nothing |
| `MemoryService.AgentMemories.EvaluateAndStoreCandidate` | app/services/memory_evaluator.py:128-212 | a memory is stored exactly when the name is free and the candidate admissible and novel, and nothing is stored, superseded or confirmed that is not admissible; the store becomes the evaluated store |
| `MemoryService.AgentMemories.SupersedeMemory` | app/services/memory_versioning.py:29-68 | the version change computes the store's supersede |
| `MemoryService.AgentMemories.RetireMemory` | app/services/memory_lifecycle.py:11-17 | retires, and says whether the memory was active |
| `MemoryService.AgentMemories.RetireWorkingMemories` | app/services/memory_lifecycle.py:20-47 | retires exactly the active working memories of the run or task and returns exactly their ids |
| `MemoryService.AgentMemories.MaintainTaskMemories` | app/services/memory_maintenance.py:19-102 | refuses limits under one; the report is the same with and without a dry run; a dry run changes nothing, otherwise the store becomes the maintained store |
| `MemoryService.AgentMemories.EnsureMemoryRevisionHistory` | app/schema_compat.py:114-147 | the startup loop computes the store's backfill |
| `MemoryService.AgentMemories.CreateMemory` | app/main.py:212-236 | succeeds exactly for a scope that holds and a free name, and stores the memory under the resolved scope with a first revision |
| `HybridRetrieval.RankHybridDocuments` | app/services/hybrid_retrieval.py:42-127 | returns the first limit entries of the one full fused ranking with their documents and scores, repeated keys included, refuses a limit under one, and names the method used |
| `HybridRetrieval.Fuse` | app/services/hybrid_retrieval.py:103-106 | the double loop gives every ranked key the sum of its reciprocal ranks |
| `HybridRetrieval.FusionRespectsDominance` | app/services/hybrid_retrieval.py:103-109 | a key ranked before another wherever that one is ranked precedes it in the fused ranking |
| `HybridRetrieval.BetterEverywhereIsShownFirst` | app/services/hybrid_retrieval.py:55-127 | the same for documents with distinct keys, in the list returned under any limit |
| `HybridRetrieval.InputOrderDoesNotMatter` | app/services/hybrid_retrieval.py:55-121 | with distinct keys the returned candidates, documents and scores included, do not depend on the order of the documents |
| `HybridRetrieval.SmallerLimitIsPrefix` | app/services/hybrid_retrieval.py:109-121 | a smaller limit returns a prefix of what a larger one returns |
| `HybridRetrieval.PriorRankingByKey` | app/services/hybrid_retrieval.py:68-72 | with distinct keys the prior ranking, sorted by each document's own score, is the one a dictionary of scores gives |
| `HybridRetrieval.FullRankingIsUnique` | app/services/hybrid_retrieval.py:103-121 | the rankings determine the fused ranking |
| `RankingOutcomes.LexicalRankingMeans` | app/services/hybrid_retrieval.py:56-67 | the lexical ranking is the documents that share a token with the query, the larger shared part of the two token sets first, equal ones by key |
| `RankingOutcomes.SemanticRankingMeans` | app/services/hybrid_retrieval.py:90-98 | the semantic ranking is the documents of similarity at least 0.55, the most similar first, equal ones by key, and empty without a provider |
| `RankingOutcomes.PriorRankingMeans` | app/services/hybrid_retrieval.py:68-72 | the prior ranking is the documents with a positive prior, repeated keys included, the highest first, equal ones by key |
| `RankingOutcomes.FusedScoreMeans` | app/services/hybrid_retrieval.py:103-106 | with distinct keys the fused score is the sum over the three rankings of one part in sixty plus the place |
| `RankingOutcomes.ShownMeans` | app/services/hybrid_retrieval.py:112-121 | what is shown of a key: its last document, the exact shared part of the token sets, its similarity if there is one, and its fused score |
| `EmbeddingCache.RetrievalEmbeddingCache.Embed` | app/services/retrieval_embedding_cache.py:22-85 | for a per-text delegate, a collision-free hash and a table earlier processes may have filled, after any history of calls, versions and lost insert races: the answer is the delegate's vectors in order, duplicates included; the delegate is asked for exactly the texts not stored; its reply is refused exactly on a raise, another version, a wrong count or an empty vector; while no insert was lost and no reply refused, no text of a version is embedded twice |
| `EmbeddingCache.RefusedReplyIsAskedAgain` | app/services/retrieval_embedding_cache.py:54-65 | a refused reply followed by a request for one of its texts embeds that text again, without any race |
| `EmbeddingCache.RetrievalEmbeddingCache.Insert` | app/services/retrieval_embedding_cache.py:74-79 | the insert is stored whole, or rolled back whole when another worker holds one of its keys |
| `EmbeddingCache.HitsAndMissesCoverTheInput` | app/services/retrieval_embedding_cache.py:42-49 | hits plus the occurrences of the missed texts are the input length |

## Left out

- Columns and rows that only report: reconciliation_status, reconciled_at, timings, execution traces, usage metering, error wording, and the separate replay-fixture commit.
- Which calls and runs are stale: an input to a batch of calls; the batch of runs, its lease claims and its report are left out, each run being recovered separately.
- Tools leaving the registry, and tools whose own permission is not granted: the registry is fixed and granted.
- SHA-256: the request fingerprint and the content hash are taken to be collision-free.
- Stripping of tool names in a policy update and of a requested idempotency key, and the caller's lookup of task, plan step and run.
- RunLeases.LeasesAreExclusive: is about lease rows; a worker that ignores a lost lease is not stopped, because no caller consults it, and heartbeat threads are not modelled.
- AgentRuns.EveryCommittedPrefixIsWellFormed: assumes one executor of a run at a time, which the lease is there to provide.
- ToolGuarantees.InternalWriteCommittedIffSucceeded: assumes requests for one call one after the other, a batch holding its calls from the select on; histories that break it otherwise are ToolLimits.ConcurrentRecoveriesWriteTwice and ToolLimits.StaleSelectionWritesTwice.
- AgentToolRuns.EveryObservationIsCommitted: assumes that nobody else works on the call of a run's pending step while the run has an executor.
- AgentEngine.AgentLoopEngine.CompleteRun: does not model the memory evaluation, retirement and maintenance of the same transaction, which are modelled as operations on the memory store.
- The content of an observation beyond the call and its status, working-memory capture, and resuming the outer workflow after recovery.
- The memory visibility filter and ranking that feed the allocator, including semantic scores of memories.
- Provenance lookups, secret patterns and the semantic evaluator: their verdicts are inputs; text normalization is a parameter.
- Trimming by the message library: an arbitrary number of latest observations kept.
- Floating-point rounding and cosine similarity: scores are reals, similarities an arbitrary map.
- RankingOutcomes.FusedScoreMeans: is about distinct keys; for repeated ones the score is that of `HybridRetrieval.Fuse`, which adds a share for every place.
- Negative budgets handed to compaction directly: the request builder never passes one.
- Routes, request schemas, console, debugging tools, provider clients, credentials, ingestion, the learning graph, checkpoint versioning, roadmap and governance.
- Startup migrations other than the revision backfill.
