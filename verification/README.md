# Emotion agent: a verified model

A model, in Dafny, of four parts of a chat agent written in Go, with proofs about
all their inputs and all their runs.

* **The affect job queue** (`JobTables`, `JobStore`, `JobSelection`, `RetryPolicy`,
  `QueueLeases`, `QueueRows`, `WorkerProtocol`, `BatchWorker`, `WorkerProgress` and the
  modules that prove things about them).
  Finished chat turns become jobs of a mood owner. Any number of workers claim
  contiguous batches under a lease, evaluate them, and commit or fail them; expired
  leases are released by whoever polls next; manual writers move the mood and
  supersede jobs under running workers. `JobTables` gives each transaction as a
  function on the tables, `JobStore` the same transactions as methods that update
  rows in place, `WorkerProtocol` every interleaving of workers and writers as a
  transition system, and `BatchWorker` a worker's turn as the program drives it,
  with arbitrary steps of everybody else between its own.
  `QueueLeases` and `QueueRows` say what they do in the columns of the rows alone.
* **Mood dynamics** (`MoodVectors`, `MoodClamp`, `MoodDecay`, `CauseTrace`,
  `CauseEntries`): clamping, rounding, decay and the cause trace, over whole histories.
* **Slash commands** (`CommandText`, `CommandRegistry`, `RegistryTheorems`,
  `CommandTokens`, `CommandRoundTrip`, `CommandParser`, `CommandLines`,
  `CommandFlags`): the two-map registry, the tokeniser with its grammar, and the parser.
* **A chat turn** (`Reasoning`, `ToolLoop`, `ToolTheorems`, `Silence`, `TurnStages`,
  `TurnTheorems`, `TurnOutput`, `TurnOutcome`, `TurnFailures`, `TurnSilence`, `TurnReply`,
  `TurnSends`, `TurnProgress`, `TurnRuntime`): the loop over model calls and tools, the reasoning events, and the stages of
  a turn with what they send and store, and what of it the stream accepts.

Everything outside these parts is an input: what the model and the tools answer, what the
clock reads, which transaction goes next, which send returns an error, which
write of the database fails.

## Findings

Where something one would expect of the code is false of it, the model keeps the code as
it is and proves exactly when the expectation holds. Each entry ends with a lemma at a
concrete input.

* A manual mood write that commits before a worker's staleness check is detected exactly
  when its time stamp is later than that of the state the worker read
  (`MoodTheorems.CheckPassesIff`): the latest state is the one with the greatest stamp, and a
  manual writer takes its stamp before it commits. `StaleWrites.LateManualWriteIsMissed` is a run
  in which such a write is missed, and `StaleWrites.WriteAfterCheckIsOverwritten` one in which a
  write between the check and the commit is overwritten.
* The predicted mood is clamped and then rounded to six decimals, and not clamped again, so it
  stays in its box exactly when the two configurable maxima do not round up
  (`MoodClamp.PredictedInBoxIff`, `MoodDecay.MoodStaysInBoxIff`). With a maximum of 0.9999996
  the attachment becomes 1 (`MoodClamp.MaximumIsExceeded`).
* A delta is limited and then rounded too, so the committed delta keeps the per-request limit
  exactly when the reach of one request, which is the limit cut off at the ends of the
  dimension, does not round up (`MoodClamp.CommittedDeltaWithinIff`, and over all histories
  `MoodDecay.HistoryDeltasWithinIff`). For a limit no wider than its dimension that is exactly
  when the limit does not round up (`MoodDecay.HistoryKeepsNarrowLimitIff`). A limit of
  0.0000006 commits 0.000001 (`MoodClamp.LimitIsExceeded`).
* Normalising a command root is not idempotent, so the name a command was registered under
  finds it exactly when the normalised name is already normal, or an alias gives it
  (`RegistryTheorems.NameIsFoundIff`). A command named `//a` answers to `/a` only
  (`RegistryTheorems.DoubleSlashIsNotFound`).
* A flag with an empty name is dropped; a token is lost exactly then
  (`CommandParser.NothingIsLostIff`). The flag `--=x` is one
  (`CommandParser.NamelessFlagIsDropped`).
* A command line is trimmed before it is read, so a fully escaped line comes back exactly when
  its last word does not end in white space (`CommandLines.EscapedLineReadsBackIff`). The word
  `a` followed by a space comes back as `a` followed by a backslash
  (`CommandLines.TrailingSpaceIsLost`).
* A delta whose send returns an error is passed over, as when a `fail_closed` plugin hook on
  outbound events rejects it or times out (internal/plugin/host.go:153-160,
  internal/plugin/hookbus.go:143-145, put around the stream at
  internal/chat/turn_runtime.go:146-148). So the text the stream accepts is the text stored
  exactly when no send of a delta returns an error (`TurnSends.AcceptedTextIsStoredIff`,
  `TurnProgress.RejectedDeltasAreStored`); an error of any other send makes the turn fail. With
  the second of two deltas rejected the turn succeeds and stores both
  (`TurnProgress.RejectedDeltaIsStored`).

Three parts fail when taken alone, on inputs that the rest of the repository keeps away from
them. Behind those guards the property holds for every input.

* The first retry is never capped, so the delay is the capped power of two exactly when there
  has been a retry before or the base is within the cap (`RetryPolicy.DelayIsCappedPowerIff`).
  The configuration check rejects a base above the cap (internal/configcenter/issues.go:356-361),
  and for every configuration it accepts the delay is the capped power
  (`RetryPolicy.AcceptedDelay`).
* Without the memory stages a silenced proactive turn would store its silent reply
  (`TurnSilence.SilenceIsSilent`). The service takes proactive turns only with the memory stages
  on (internal/app/chat_service.go:86-88), and there a silenced turn leaves nothing
  (`TurnSilence.SilencedIffNothingLeft`).
* In buffered mode, a last reply whose content is not what it streamed would be stored otherwise
  than it was sent (`TurnReply.BufferedTextIsStoredIff`). Both model clients build the content
  from the deltas they stream (internal/llm/client.go:558-638, internal/llm/anthropic.go:325-392)
  and the metering wrapper passes it on (internal/tokenmeter/metered_client.go:90-93), and for
  such replies the text sent is the text stored in either mode (`TurnReply.SentTextIsStored`).

## Model

| member | source | states |
|---|---|---|
| JobStore.Store.Enqueue | internal/agentaffect/store_jobs_sqlite.go:68-123 | a new pending job gets the next seq, with the defaults for run time and attempts; no other row changes |
| JobStore.Store.ReleaseExpired | internal/agentaffect/store_jobs_sqlite.go:209-251 | every expired running job is pending again without batch or lease, and its batch has failed; all else is as before |
| JobStore.Store.GetFirstClaimable | internal/agentaffect/store_jobs_sqlite.go:602-638 | the scan returns the first row that has waited long enough and whose owner runs nothing |
| JobStore.Store.SelectContiguous | internal/agentaffect/store_jobs_sqlite.go:640-694 | the candidate rows up to where the batch must stop |
| JobStore.Store.TakeWhileAdmissible | internal/agentaffect/store_jobs_sqlite.go:657-693 | the loop with its early exits takes the prefix that the declarative stop says |
| JobStore.Store.ClaimNextBatch | internal/agentaffect/store_jobs_sqlite.go:125-184 | release, selection, and the insertion of the batch are one step of the tables, or nothing but the release when there is nothing to claim |
| JobStore.Store.InsertBatchAndMarkRunning | internal/agentaffect/store_jobs_sqlite.go:155-182 | exactly the picked pending rows become running, under one lease, with one attempt more |
| JobStore.Store.MarkBatchDone | internal/agentaffect/store_jobs_sqlite.go:253-292 | the batch and all its rows are done, whatever their status was |
| JobStore.Store.MarkBatchFailed | internal/agentaffect/store_jobs_sqlite.go:294-364 | the two row updates together fail each row or requeue it by its own attempts |
| JobStore.Store.CommitBatchEvaluation | internal/agentaffect/store_jobs_sqlite.go:474-534 | all of the commit happens if the batch runs with all its jobs, and none of it otherwise |
| JobStore.Store.SupersedePendingJobs | internal/agentaffect/store_jobs_sqlite.go:536-562 | exactly the pending jobs in scope are superseded; a request without scope is refused and changes nothing |
| JobStore.Store.ClearFailedJobs | internal/agentaffect/store_jobs_sqlite.go:564-591 | exactly the matching failed jobs are removed, and counted |
| JobStore.Store.CommitStateEvent | internal/agentaffect/store_sqlite.go:364-381 | a manual state and its event are appended together |
| JobTables.Latest | internal/agentaffect/store_sqlite.go:213-264 | an owner's latest state is one of its states with the greatest stamp, or none when it has none |
| JobSelection.ExtendIsLongest | internal/agentaffect/store_jobs_sqlite.go:657-693 | the loop's prefix is admissible and no longer prefix is |
| JobSelection.FirstClaimableIsLeast | internal/agentaffect/store_jobs_sqlite.go:602-638 | the first claimable row is the least claimable one, and there is none only if no row is claimable |
| JobSelection.PickedIsLongestRun | internal/agentaffect/store_jobs_sqlite.go:640-694 | a batch is the longest admissible run of the due jobs from its first; the query limit and the early exits never shorten it |
| JobSelection.ClaimsNothingIff | internal/agentaffect/store_jobs_sqlite.go:125-153 | nothing is claimed exactly when none of the first hundred due jobs is claimable |
| JobSelection.PickedIsOneOwner | internal/agentaffect/store_jobs_sqlite.go:657-689 | a batch has one owner and one type, in seq order, all due; its owner runs nothing; a barrier or non-batchable job is alone |
| JobSelection.PickedStartsOldest | internal/agentaffect/store_jobs_sqlite.go:602-638 | a batch starts at its owner's oldest due job that has waited long enough |
| JobSelection.PickedIsContiguous | internal/agentaffect/store_jobs_sqlite.go:640-694 | no due job lies inside a batch's range but outside the batch |
| JobSelection.NoClaimPassesBarrier | internal/agentaffect/store_jobs_sqlite.go:657-689 | with creation times in seq order no claim passes a due barrier of its owner |
| QueueLeases.ReleaseByLease | internal/agentaffect/store_jobs_sqlite.go:209-251 | a poll returns exactly the running rows whose lease is at or before its time, and fails exactly their running batches; all else is as before |
| QueueLeases.NoLeaseIsOver | internal/agentaffect/store_jobs_sqlite.go:239-247 | after the release no running row has a lease at or before the time of the poll |
| QueueLeases.ClaimIsLeased | internal/agentaffect/store_jobs_sqlite.go:125-184 | a claimed batch runs with all its jobs under one lease, the time of the claim plus the configured span or five minutes |
| QueueLeases.StepSparesIff | internal/agentaffect/store_jobs_sqlite.go:209-251 | a step leaves a leased batch its lease exactly when it is no poll at or after that lease and neither finishes nor fails the batch; otherwise the batch runs no more |
| QueueLeases.ClaimHoldsIff | internal/agentaffect/store_jobs_sqlite.go:125-251 | in every run a claimed batch keeps running under its lease exactly as long as every step spares it |
| QueueRows.BatchIsFull | internal/agentaffect/store_jobs_sqlite.go:640-694 | in columns: a batch is a run of ripe rows that fits its first row, its first has rested and its owner is free, and the next ripe row does not fit in as well |
| QueueRows.NothingFoundIff | internal/agentaffect/store_jobs_sqlite.go:602-638 | a claim finds nothing exactly when every ripe, rested job of a free owner has a hundred ripe jobs before it, and otherwise starts with the first that has not |
| QueueRows.ClaimWrites | internal/agentaffect/store_jobs_sqlite.go:155-182 | the columns that a claim writes in a picked row and in the new batch, and no others |
| QueueRows.EnqueuedIsRipe | internal/agentaffect/store_jobs_sqlite.go:68-123 | an enqueued job is ripe from its own time on, or at once without one, and unclaimed; without a maximum it has three attempts |
| QueueRows.FailureWrites | internal/agentaffect/store_jobs_sqlite.go:294-364 | the columns a failure writes, by the job's own attempts: what waits keeps its text, what has failed for good loses it if asked |
| QueueRows.DoneWrites | internal/agentaffect/store_jobs_sqlite.go:253-292 | exactly the batch's jobs and the batch are done |
| QueueRows.SupersededIff | internal/agentaffect/store_jobs_sqlite.go:536-562 | exactly the pending jobs of the owner, of the persona, or all, are superseded |
| QueueRows.ClearedIff | internal/agentaffect/store_jobs_sqlite.go:564-591 | exactly the failed jobs that agree with every column the query names are removed |
| RetryPolicy.ComputeRetryDelay | internal/agentaffect/worker.go:308-331 | the doubling loop computes the delay, and no value on the way exceeds twice the larger bound |
| RetryPolicy.ShouldRetryJobs | internal/agentaffect/worker.go:333-340 | true exactly when some job has attempts left |
| RetryPolicy.DelayIsCappedPowerIff | internal/agentaffect/worker.go:323-330 | the delay taken alone, before any check of the configuration: it is the capped power of two exactly from the second attempt on or when the base is within the cap |
| RetryPolicy.AcceptedDelay | internal/agentaffect/worker.go:308-331 | for every configuration that the check accepts the delay is the capped power of two, positive, bounded and monotone in the attempts |
| RetryPolicy.UnsetDelays | internal/agentaffect/worker.go:308-316 | without a base the first delay is half a minute, and without a maximum the delays end at a quarter of an hour |
| RetryPolicy.DelayMonotoneIff | internal/agentaffect/worker.go:323-330 | later attempts wait at least as long exactly when the base is within the cap |
| WorkerInvariant.StepKeepsInv | internal/agentaffect/worker.go:59-163 | every step of every worker and writer keeps the table invariant and that each batch has at most one holder |
| WorkerInvariant.RunKeepsInv | internal/agentaffect/worker.go:59-163 | the invariant holds over every run |
| TableInvariant.RunningCountIsExact | internal/agentaffect/store_jobs_sqlite.go:488-510 | the running rows counted for a running batch are exactly its job count |
| QueueTheorems.TablesAgree | internal/agentaffect/store_jobs_sqlite.go:166-251 | in every reachable state a job runs iff its batch does, a running batch has exactly its jobs under one lease, and an owner's running jobs are in one batch |
| QueueTheorems.CommitRefusedOnlyWhenReleased | internal/agentaffect/store_jobs_sqlite.go:488-510 | a worker's commit adds its event exactly when its batch still runs: the count check never refuses a running batch |
| QueueTheorems.AtMostOneEffect | internal/agentaffect/store_jobs_sqlite.go:474-534 | in every interleaving a job is in the batch of at most one evaluation event, and the batch of every event is in the table |
| QueueTheorems.ReleasedWorkerIsHarmless | internal/agentaffect/worker.go:77-162 | whatever a worker still does after its claim was released changes no job, no mood and no event, though two of the calls have no status guard |
| QueueTheorems.FailureIsPerJob | internal/agentaffect/worker.go:290-306 | after a failure each job is pending without batch and later, or failed in its batch, by its own attempts |
| QueueTheorems.GivenUpPerJob | internal/agentaffect/worker.go:290-306 | a batch given up and marked failed leaves each job pending until after the delay, or failed, as the cause and the job's own attempts say |
| QueueTheorems.AttemptsAreBounded | internal/agentaffect/store_jobs_sqlite.go:171-178 | attempts is the number of batches that claimed the job, and exceeds its maximum, read as 1 when it is less, by at most the number of its expired claims |
| QueueTheorems.BarriersHold | internal/agentaffect/store_jobs_sqlite.go:657-689 | in every reachable state no claim takes a job past a due barrier of its owner |
| AttemptInvariant.StepKeepsAttempts | internal/agentaffect/store_jobs_sqlite.go:209-251 | each step keeps the account of attempts, claims and expiries |
| StatusGraph.StepEdges | internal/agentaffect/store_jobs_sqlite.go:186-364 | every step moves jobs and batches along the status graph, and only clearing failed jobs removes a row |
| StatusGraph.SettledForever | internal/agentaffect/store_jobs_sqlite.go:536-591 | over every run done and superseded jobs stay so, failed ones stay failed until cleared, and a cleared key never returns |
| StatusGraph.NeverRunsAgain | internal/agentaffect/store_jobs_sqlite.go:209-251 | a batch that has left running never runs again |
| MoodHistory.LatestUnchangedIff | internal/agentaffect/store_sqlite.go:213-264 | the latest state is unchanged exactly when no later row outranks it |
| MoodHistory.StepKeepsMoods | internal/agentaffect/worker.go:109-160 | every step keeps that rows are distinct, bases are real, and unmixed owners have chained events |
| MoodTheorems.SerialHistory | internal/agentaffect/worker.go:109-160 | when workers are an owner's only writers its events form one chain, across expiry and re-claim |
| MoodTheorems.CheckPassesIff | internal/agentaffect/worker.go:273-288 | the staleness check passes exactly when no row written since the base was read outranks it |
| MoodTheorems.CommitBaseIsLatestIff | internal/agentaffect/worker.go:148-161 | at the commit the base is still the latest exactly when no manual write has outranked it since the check |
| MoodTheorems.ManualWriteIsVisibleIff | internal/agentaffect/service.go:234-268 | a manual write becomes the mood exactly when its stamp is greater than all others |
| MoodTheorems.DetectedBatchNeverCommits | internal/agentaffect/worker.go:148-150 | a batch found stale is never committed in any continuation |
| StaleWrites.LateManualWriteIsMissed | internal/agentaffect/worker.go:273-288 | a reachable run in which a manual write before the check is not detected and the batch commits |
| StaleWrites.WriteAfterCheckIsOverwritten | internal/agentaffect/worker.go:148-161 | a reachable run in which a batch commits on a base that is no longer the latest |
| BatchWorker.StepKeepsKind | internal/agentaffect/worker.go:77-92 | no step changes a batch's owner or type or removes it, so a worker may rely on what it read at the claim |
| BatchWorker.Worker.Pause | internal/agentaffect/worker.go:59-163 | between two calls of a worker others take any steps; the worker stays where it is |
| BatchWorker.Worker.Claim | internal/agentaffect/worker.go:77-83 | the claim call is the protocol's claim step |
| BatchWorker.Worker.FailBatch | internal/agentaffect/worker.go:290-306 | the failing of a batch, with its retry decision and delay, is the protocol's step, leaves the worker idle, and the turnout says whether the failure was marked |
| BatchWorker.Worker.EnsureBase | internal/agentaffect/worker.go:273-288 | the second reading passes exactly when the base is still the latest by id, and is the protocol's check |
| BatchWorker.Worker.CommitBatch | internal/agentaffect/worker.go:151-162 | the commit appends the new state and an event from the base to it, or neither |
| BatchWorker.Worker.ProcessNextBatch | internal/agentaffect/worker.go:59-163 | every execution, with anything done by others between its calls, is a run of the protocol that ends idle; each turnout says what the tables show: nothing to claim, a barrier or batch finished, a failure marked, a commit refused, or the marking itself failed |
| BatchWorker.Worker.ValidIsReachable | internal/agentaffect/worker.go:59-163 | so everything proved of reachable states holds of the program's worker at every call |
| WorkerProgress.UndisturbedTurnCommits | internal/agentaffect/worker.go:77-162 | from any reachable state a worker that claims a batch of turns and is left alone can take all its steps, commits one event from the latest mood, and leaves every job of the batch done |
| MoodClamp.ClampWithNotes | internal/agentaffect/clamp.go:20-49 | the clamp with its notes computes the delta and the state, and leaves no note exactly when nothing was clamped |
| MoodClamp.ClampStateInPlace | internal/agentaffect/clamp.go:69-102 | assigning the fields one by one gives the vector with every dimension clamped |
| MoodClamp.RequestIsMetAsFarAsAllowed | internal/agentaffect/clamp.go:20-102 | from a value in its range each dimension goes to the one place, among those the limit and the range allow, that is nearest to what is asked for, and is rounded |
| MoodClamp.RequestWithinLimitIsMet | internal/agentaffect/clamp.go:20-102 | a request within its limit that stays in the range is met in full, with the plugins' factor for a plugin; a larger one moves by the limit in its own direction, or to the end of the range |
| MoodClamp.PredictedInBoxIff | internal/agentaffect/clamp.go:20-49 | every predicted state is in the box exactly when the configured maxima do not round up |
| MoodClamp.MaximumIsExceeded | internal/agentaffect/clamp.go:20-49 | with a maximum of 0.9999996 a state at the maximum is kept as 1 |
| MoodClamp.CommittedDeltaBounded | internal/agentaffect/clamp.go:20-49 | from a state in the box the committed delta of a dimension is within its per-request limit rounded to six decimals |
| MoodClamp.CommittedDeltaIsTheChange | internal/agentaffect/clamp.go:20-49 | from any state the committed delta is the change of state up to 1e-6 |
| MoodClamp.CommittedDeltaWithinIff | internal/agentaffect/clamp.go:20-49 | every delta committed from the box is within the limit exactly when the reach of one request does not round above the limit |
| MoodClamp.LimitIsExceeded | internal/agentaffect/clamp.go:20-49 | with a limit of 0.0000006 and both maxima at 1 a request for more commits 0.000001 |
| MoodClamp.WideLimitIsKept | internal/agentaffect/clamp.go:20-49 | a limit wider than its dimension is kept although it rounds up itself |
| MoodDecay.DecayInBox | internal/agentaffect/decay.go:10-36 | decay stays between the stored mood and the baseline, so in the box |
| MoodDecay.GapShrinks | internal/agentaffect/decay.go:10-36 | the gap to the baseline is in each dimension the stored gap times the factor of the elapsed time, or the stored gap when decay is off, the stamp unset or no time has passed |
| MoodDecay.DecayInTwoSteps | internal/agentaffect/decay.go:10-36 | decaying to one time and on to another is decaying at once |
| MoodDecay.IdleCommitKeepsTrajectory | internal/agentaffect/service.go:586-593 | committing the decayed, rounded mood with no delta moves its later course by at most 1e-6 |
| MoodDecay.MoodStaysInBoxIff | internal/agentaffect/service.go:93-114 | over every history of updates, resets, deltas and evaluations the mood stays in its box exactly when the maxima do not round up |
| MoodDecay.CommitIsTheChange | internal/agentaffect/service.go:586-593 | after any history what a delta or an evaluation commits is the change from the mood it starts from, up to 1e-6 |
| MoodDecay.HistoryDeltasWithinIff | internal/agentaffect/service.go:93-114 | over every history each delta committed to a dimension is within its limit exactly when the reach from the dimension's highest attainable value does not round above the limit |
| MoodDecay.HistoryKeepsNarrowLimitIff | internal/agentaffect/service.go:93-114 | when no maximum rounds up, a limit no wider than its dimension is kept over every history exactly when it does not round up |
| MoodDecay.ProfileMovesMoodIff | internal/agentaffect/service.go:553-584 | a profile update moves the mood exactly until the owner's first committed state |
| MoodDecay.PerformIsExact | internal/agentaffect/service.go:93-260 | an evaluation starts from the decayed mood and a manual delta from the stored one; each stores what the clamp predicts under its own time, and a profile update only cuts the baseline to its range |
| MoodDecay.ResetIsExact | internal/agentaffect/service.go:274-330 | a reset goes to the values asked for, or to the baseline when all are zero, cut to their ranges |
| CauseTrace.DecayTrace | internal/agentaffect/trace.go:42-57 | the loop keeps the faded entries that are still heavy enough |
| CauseTrace.MergeCause | internal/agentaffect/trace.go:59-71 | the incoming cause replaces its kind or is appended |
| CauseTrace.SortInPlace | internal/agentaffect/trace.go:73-80 | the array is sorted stably, heavier first and then newer |
| CauseTrace.StableSortSorts | internal/agentaffect/trace.go:73-80 | the sort orders the entries and keeps each of them |
| CauseTrace.StableSortKeepsRanks | internal/agentaffect/trace.go:73-80 | entries of equal rank keep their order |
| CauseTrace.UpdateCauseTrace | internal/agentaffect/trace.go:11-40 | decay, merge, sort and cut compute the updated trace |
| CauseTrace.UpdateKeepsTrace | internal/agentaffect/trace.go:11-40 | from any plausible trace the new one has distinct named kinds, weights in range, is sorted and bounded, and nothing cut outranks anything kept |
| CauseTrace.TraceOkForever | internal/agentaffect/trace.go:11-40 | the same over every history of updates |
| CauseEntries.UpdateIsExact | internal/agentaffect/trace.go:11-80 | the new trace holds, each once, only entries that want to be in: prior causes still heavy enough and the finding's entry; all of them, unless it is full of entries at least as heavy |
| CauseEntries.HeavyCauseStays | internal/agentaffect/trace.go:42-57 | a prior cause whose faded weight reaches the minimum and that the finding does not renew keeps its entry with that weight, under the same cut |
| CauseEntries.FindingIsEntered | internal/agentaffect/trace.go:19-71 | a finding that is taken up has its own summary, confidence and stamp, with its weight plus 0.55 of what is left of its kind, up to 1 |
| CommandText.NormalizeFixedIff | internal/command/reserved.go:46-50 | normalisation leaves alone exactly the roots without capitals, outer spaces or a leading slash |
| CommandText.SpellingIsNormalised | internal/command/reserved.go:46-50 | white space around a root, one slash before it and capitals for its small letters do not change its normal form |
| CommandRegistry.RootsOfExactly | internal/command/registry.go:178-193 | a root is listed exactly when it is the non-empty normal form of the name or an alias |
| CommandRegistry.RootsOfDistinct | internal/command/registry.go:178-193 | no root is listed twice |
| CommandRegistry.Registry.TryRegister | internal/command/registry.go:22-59 | the first failing test decides the error and leaves both maps alone; otherwise exactly the new command and its roots are added |
| CommandRegistry.Registry.UpdateRoots | internal/command/registry.go:117-163 | the same for a change of name and aliases, which releases the command's own roots first |
| CommandRegistry.Registry.UnregisterPlugin | internal/command/registry.go:90-115 | in any order of iteration exactly the plugin's commands and their roots go, and they are counted |
| CommandRegistry.Registry.Lookup | internal/command/registry.go:61-77 | the command the normalised text resolves to |
| RegistryTheorems.RegistersIff | internal/command/registry.go:26-53 | registration succeeds exactly for a new named id whose roots nobody has and, for a plugin, are not reserved |
| RegistryTheorems.UpdatesIff | internal/command/registry.go:121-152 | a change of roots succeeds exactly for a known id whose new roots are free or its own and, for a plugin, not reserved |
| RegistryTheorems.RunKeepsIndex | internal/command/registry.go:22-163 | after any calls a root maps to an id exactly when that command is stored and has that root, and no plugin has a reserved root |
| RegistryTheorems.FindIff | internal/command/registry.go:61-77 | a lookup finds a command exactly when it is stored and answers to the root |
| RegistryTheorems.RootsAreDisjoint | internal/command/registry.go:148-152 | two commands never share a root |
| RegistryTheorems.ReservedRootsStayBuiltin | internal/command/reserved.go:7-44 | after any calls what a user types for a reserved root never reaches a plugin |
| RegistryTheorems.RegisterChangesOnlyItsRoots | internal/command/registry.go:54-57 | registration changes the lookup of its own roots and of nothing else |
| RegistryTheorems.UpdateChangesOnlyItsRoots | internal/command/registry.go:153-161 | a change of roots moves exactly that command's old and new roots |
| RegistryTheorems.RegisteredAnswers | internal/command/registry.go:22-59 | a registered command is stored under its trimmed id and normalised name, otherwise as offered, and found by exactly the texts its name or an alias answers to |
| RegistryTheorems.UpdatedAnswers | internal/command/registry.go:117-163 | after a change of roots the command has the given aliases and the new name, or its old one, with all else unchanged; exactly the texts these answer to find it, and its former ones find nothing |
| RegistryTheorems.UnloadedIsGone | internal/command/registry.go:90-115 | unloading removes exactly the commands that name the plugin, and changes no other lookup |
| RegistryTheorems.RefusalIsFirstFault | internal/command/registry.go:26-53 | the error of a refused registration is that of the first test that fails |
| RegistryTheorems.NameIsFoundIff | internal/command/registry.go:26-57 | the registered name finds its command exactly when its normal form is a fixed point or an alias gives it |
| RegistryTheorems.DoubleSlashIsNotFound | internal/command/registry.go:26-57 | a command registered as //a is found as /a and not under its own name |
| RegistryTheorems.UnloadErasesPlugin | internal/command/registry.go:90-115 | unloading a plugin leaves exactly the registry there would be had it been unloaded before all it did for itself |
| CommandTokens.ReadTokens | internal/command/parser.go:53-100 | the loop over quotes and escapes computes the scanner's tokens or the unterminated-quote error |
| CommandTokens.TokensIff | internal/command/parser.go:53-100 | the scanner accepts exactly the lines made of gaps, plain or escaped characters and closed quotes, and its tokens are the words of any such reading |
| CommandTokens.NoTokenIsEmpty | internal/command/parser.go:81-98 | no token is empty |
| CommandRoundTrip.SpelledWordsReadBack | internal/command/parser.go:53-100 | non-empty words spelled in any mixture of plain, escaped and quoted pieces, with any separators, are read back |
| CommandRoundTrip.EscapedWordsReadBack | internal/command/parser.go:53-100 | a backslash before every character and any separators between words lose nothing |
| CommandParser.SortTokens | internal/command/parser.go:34-48 | the index-skipping loop sorts the tokens as their neighbours alone decide |
| CommandParser.ApplyGreedyArgs | internal/command/parser.go:117-131 | from the first greedy argument on, the rest of the line is one argument |
| CommandParser.Parse | internal/command/parser.go:14-51 | the outcome for every input: no command, an unterminated quote, a missing name, or name, arguments and flags |
| CommandParser.EachTokenHasOneUse | internal/command/parser.go:35-48 | a token is exactly one of positional, flag, value of the flag before it, or dropped flag |
| CommandParser.TokensAreConserved | internal/command/parser.go:35-48 | the tokens are the positionals, flags, values and dropped flags, each counted once |
| CommandParser.NothingIsLostIff | internal/command/parser.go:102-107 | no token is lost exactly when no flag has an empty name |
| CommandParser.NamelessFlagIsDropped | internal/command/parser.go:102-107 | the token --=x is read and leaves neither argument nor flag nor value |
| CommandParser.FlagIsSetIff | internal/command/parser.go:38-41 | a flag is set exactly when some token sets it |
| CommandParser.LastSettingWins | internal/command/parser.go:38-41 | a flag has the value of its last setting |
| CommandParser.GreedyKeepsText | internal/command/parser.go:117-131 | a greedy argument changes no text and is the last |
| CommandFlags.PiecesAreRead | internal/command/parser.go:34-48 | words, --key=value, --key value and lone --key are read as exactly the words in order and the keys with their last values, true for a lone one |
| CommandFlags.CommandLineParsesBack | internal/command/parser.go:14-51 | a whole escaped line of a name and such pieces is parsed back to the name, the words and the flags |
| CommandFlags.JoinedIsSpaced | internal/command/parser.go:117-131 | joining puts one space between the words |
| CommandFlags.GreedyIsExact | internal/command/parser.go:117-131 | the first greedy argument takes the joined rest and the arguments before it stay |
| CommandLines.EscapedLineReadsBackIff | internal/command/parser.go:14-24 | an escaped command line comes back as its words exactly when the last does not end in white space |
| CommandLines.TrailingSpaceIsLost | internal/command/parser.go:14-24 | the escaped word a-and-space is read back as a-and-backslash |
| CommandLines.PlainCommandParsesBack | internal/command/parser.go:14-51 | an escaped command with plain arguments parses to its name and those arguments |
| Reasoning.Tracker.OnDelta | internal/chat/engine.go:552-571 | a delta starts the block if need be and is ignored when empty or after the end |
| Reasoning.Tracker.End | internal/chat/engine.go:592-614 | the end is sent once, only after a start, and records the block |
| Reasoning.Tracker.Complete | internal/chat/engine.go:616-641 | the final content is sent only if nothing was streamed, and the block ends |
| Reasoning.RunIsShaped | internal/chat/engine.go:527-656 | for every sequence of calls the events are a prefix of start, deltas, end, and at most one block is recorded, the text of the deltas |
| Reasoning.RunAppends | internal/chat/engine.go:538-550 | a tracker adds to the events and blocks of the trackers before it and never looks at them |
| ToolLoop.Conversation.Receive | internal/chat/engine.go:1063-1080 | a stream adds its deltas to the visible text and drives the reasoning tracker event by event |
| ToolLoop.Conversation.Finish | internal/chat/engine.go:1124-1145 | what a final reply gives the callback and hands on, in realtime and in buffered mode |
| ToolLoop.Conversation.RunTools | internal/chat/engine.go:1147-1325 | the loop goes on exactly when tools are enabled, within the limit, present and not waiting for approval; otherwise which error or content ends it |
| ToolLoop.Conversation.SendTurn | internal/chat/engine.go:1032-1188 | the loop with its self-decrementing retry makes exactly the calls that are followed by another and one more, and ends, shows and logs what those calls say |
| ToolLoop.CallsUnique | internal/chat/engine.go:1032-1113 | the number of calls is determined by which calls are followed by another |
| ToolTheorems.LoopIsBounded | internal/chat/engine.go:1032-1156 | at most 12 model calls and 10 rounds of tools for any behaviour of the model |
| ToolTheorems.BoundsAreReached | internal/chat/engine.go:1081-1156 | both bounds are reached by one behaviour |
| ToolTheorems.WhatIsShownIsKept | internal/chat/engine.go:1124-1188 | in realtime mode a turn that ends normally hands on exactly the text it has shown, or has shown nothing |
| ToolTheorems.KeptUnshownIff | internal/chat/engine.go:1176-1188 | what is kept but not shown is exactly the content of a reply that asks for tools without naming any, or everything when nobody listens |
| ToolTheorems.BufferedShownIff | internal/chat/engine.go:1136-1140 | in buffered mode the text shown is the content exactly when the final reply streamed its own content, or a reply asking for tools it does not name has none |
| ToolTheorems.SpelledIsKept | internal/chat/engine.go:1124-1188 | when the last reply's content is what it streamed, a turn that ends normally hands on what it has shown, or has shown nothing, in either mode |
| ToolTheorems.GoesOnIff | internal/chat/engine.go:1081-1325 | a call is reached exactly when each before it ran tools without approval, at most ten times, or was the one overflow that was compacted |
| ToolTheorems.WaitsIff | internal/chat/engine.go:1081-1325 | the loop waits for an approval exactly when a call that is reached asks for a blocked tool whose approval could be created, or approvals changed while its tools ran |
| ToolTheorems.ConcludesIff | internal/chat/engine.go:1081-1325 | the loop ends with content exactly when a call that is reached asks for no tools or names none; the content is the text streamed in realtime mode, or that call's own |
| ToolTheorems.CallReasoning | internal/chat/engine.go:1035-1114 | the reasoning events of each call are well formed, and a call that was answered leaves no block open |
| Silence.SilenceIff | internal/chat/proactive_turn.go:45-54 | a reply counts as silence exactly when it is made of white space and whole markers |
| TurnRuntime.TurnContext.EmitAll | internal/turn/runtime.go:123-140 | events are sent in order until a send returns an error |
| TurnRuntime.TurnContext.AskEngine | internal/chat/engine.go:684-782 | the engine's turn: the stored input, a notice instead of a reply, or the loop and its commit |
| TurnRuntime.TurnContext.RunMessage | internal/chat/turn_runtime.go:669-832 | the message stage: start, engine, silence or speech, and who ends the stream |
| TurnRuntime.TurnContext.RunMemoryCommit | internal/chat/turn_runtime.go:515-579 | the commit stage stores the waiting output and then ends a waiting stream |
| TurnRuntime.TurnContext.RunResume | internal/chat/turn_runtime.go:865-908 | the resume stage after an approval |
| TurnRuntime.TurnContext.PassOne | internal/turn/runtime.go:60-116 | one stage: its state, its outbound events, and whether the turn is over and has failed |
| TurnRuntime.TurnContext.Execute | internal/turn/runtime.go:31-121 | the loop over the stages of the turn's kind computes the whole turn |
| TurnOutput.PassPhase | internal/chat/turn_runtime.go:334-376 | every stage takes a turn from its phase to the next stage's, or settles it |
| TurnOutput.OneStreamEnd | internal/chat/turn_runtime.go:515-579 | every turn that does not fail or fall silent sends exactly one stream end, after anything it stores, and then only approval events |
| TurnOutcome.ReplyTurn | internal/chat/turn_runtime.go:669-832 | when everything works a message turn that gets a reply ends done, and this is all it sends and stores, in order: start, deltas or segments or the whole reply, one store, one end, one event per approval |
| TurnOutcome.WaitingTurn | internal/chat/turn_runtime.go:780-832 | when the model asks for a tool that must wait, a message turn around which everything works ends in approval wait: start, deltas, one end, one event per approval, required exactly for the pending ones, and nothing stored |
| TurnOutcome.ResumedTurn | internal/chat/turn_runtime.go:865-908 | the same for a turn that resumes after an approval, with a reply and with another wait |
| TurnOutcome.NoticeTurn | internal/chat/turn_runtime.go:679-688 | a message answered by a notice stores it once and sends it instead of a reply, and then ends |
| TurnOutcome.UnreadApprovalsFail | internal/chat/turn_runtime.go:909-940 | when the approvals cannot be read after a reply, the turn of a user's message fails |
| TurnFailures.TroubleFails | internal/chat/turn_runtime.go:334-376 | an invalid message, an input that is not stored, memory, engine or loop failing a turn that asks the model, or a reply that cannot be stored, makes the turn fail, whatever its sends return |
| TurnSilence.SilencedIff | internal/chat/turn_runtime.go:788-800 | a turn is silenced exactly when it is proactive, silence is enabled, and the reply it gets is white space and markers |
| TurnSilence.SilenceIsSilent | internal/chat/turn_runtime.go:788-800 | the stage taken alone: a silenced turn succeeds and sends nothing; it stores nothing exactly when a later stage commits; a later commit stage adds nothing |
| TurnSilence.SilencedIffNothingLeft | internal/chat/turn_runtime.go:788-800 | with the memory stages on, a turn that does not fail is silenced exactly when it has sent and stored nothing |
| TurnProgress.SmoothTurnSucceeds | internal/turn/runtime.go:60-120 | a turn around which everything works, except perhaps the sends of deltas, does not fail, and ends in allowed silence or with one stream end |
| TurnProgress.RejectedDeltasAreStored | internal/chat/turn_runtime.go:715-724 | such a turn stores its reply whole, and the stream accepts all of its text exactly when no send returns an error |
| TurnProgress.RejectedDeltaIsStored | internal/chat/turn_runtime.go:715-724 | with an error on the second of two deltas the turn succeeds and stores both, which is not the text accepted |
| TurnReply.ReplyIsTold | internal/chat/turn_runtime.go:801-823 | a turn that gets a reply sends its segments, or the deltas as they were passed on, or else the whole reply, and stores the content once |
| TurnReply.SentTextIsStored | internal/chat/turn_runtime.go:669-832 | in realtime mode, when output is held back, and whenever the last reply's content is what it streamed, the text sent over the whole turn is the content stored |
| TurnReply.BufferedTextIsStoredIff | internal/chat/turn_runtime.go:801-823 | in buffered mode the text sent is the content stored exactly when the last reply asks for tools without naming any, streamed nothing, or streamed its own content |
| TurnSends.OnlyDeltasAreRejected | internal/chat/turn_runtime.go:715-724 | in a turn that does not fail no send returned an error but those of the deltas passed on, whose numbers are known beforehand |
| TurnSends.RejectedTextIsMissed | internal/chat/turn_runtime.go:715-724 | leaving out any event with text makes the text accepted shorter than the text sent, and leaving out none makes them equal |
| TurnSends.AcceptedTextIsStoredIff | internal/chat/turn_runtime.go:669-832 | whenever the text sent is the content stored, the text accepted by the stream is too exactly when no send of a delta passed on returns an error |
| TurnSends.HeldBackTextIsAccepted | internal/chat/turn_runtime.go:801-823 | a reply whose deltas are not passed on, split into segments or not, is accepted in full by the stream or the turn fails |

## Left out

- SQL text, scanning, JSON, ids, locks and logging: tables are maps, transactions are atomic steps, ids are counted up.
- Time as text: stamps are integers and every reading of the clock is later than the one before, so no two states have one stamp; the store's query for the latest state (internal/agentaffect/store_sqlite.go:222) gives equal stamps no defined order, and the store compares RFC 3339 strings with trailing zeros dropped, which is not order-preserving inside a second (internal/agentaffect/store_sqlite.go:664-669).
- Enqueuing with a status chosen by the caller (internal/agentaffect/store_jobs_sqlite.go:81): jobs are enqueued as pending.
- Changes of configuration in mid-run, in particular of the mood scope, and the fallback of mood reading to another session (internal/agentaffect/service.go:553-584).
- Immediate evaluation of a message, which inserts state and event on its own; the other manual writers are steps of the protocol, not methods.
- Error texts, result columns and the recorded evaluations of jobs and batches.
- BatchWorker.Worker.FailBatch: one reading of the clock stands for the two that stamp the failure and the retry.
- MoodClamp.CommittedDeltaBounded: moods are real numbers, so NaN, infinities and binary rounding below 1e-6 are not modelled.
- MoodDecay.DecayInTwoSteps: the power of one half is any function into [0, 1] that turns sums of times into products.
- CauseTrace.UpdateCauseTrace: summaries are carried but the maps of delta per cause are not.
- CommandText.NormalizeFixedIff: lower-casing is that of ASCII letters only.
- Nil receivers of the command registry, its listing methods, and command execution, permissions and help.
- TurnReply.SentTextIsStored: says nothing of replies that reply delivery splits into segments, whose texts are arbitrary here.
- Deltas are sent when the model loop has ended rather than during it; no other modelled event is sent meanwhile, so the order is the same.
- TurnSends.AcceptedTextIsStoredIff: ends where the stream accepts an event. A sink may accept and drop: the WebSocket sink detaches after a failed write and returns no error from then on (internal/chat/handler.go:682-692), and the buffer before it accepts a delta before it is written (internal/turn/outbound_buffer.go:58-85).
- What a failing turn has sent: it may have started a stream it does not end.
- Plugin hooks, except that one may make a send return an error; their changes to events and stages.
- Tool execution, approvals, the idempotency store, the journal, context statistics, progress and tool events, and engines other than the built-in one.
- The affect job that the commit stage enqueues after storing a reply (internal/chat/turn_runtime.go:543-571).
- Prompt building, memory retrieval, media, context compaction and token counting: their outcomes are inputs.
- HTTP, WebSocket, adapters, persona files and sidecars.
