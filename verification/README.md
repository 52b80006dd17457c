# rag-params-finder: verified models

A Dafny model of the parts of rag-params-finder that keep state under concurrency, transform a sequence,
or rank under a fixed order, with proofs of what those parts promise. `dafny verify dfyconfig.toml` checks
the whole project.

The repository sweeps retrieval parameters: it expands a grid of configurations, runs each through
parse, chunk, embed, store and query, and compares the scores. Seven parts are modelled.

- **Voyage throughput.** `RateLimiter` is the sliding-window limiter as a class. `RateLimiterProtocol` runs
  any number of callers through it, one lock-holding pass at a time, with the lock free while a caller
  sleeps; `RateLimiterCeiling` settles when the request ceiling is exact. `Batching` holds the greedy
  splitters that feed it.
- **Sweeps.** `SweepGrid` (expansion and signatures), `SweepRunner` (one sweep over futures and control
  signals), `SweepHistory` (a first sweep and its resumes), `BayesianSearch` (the trial loop) and
  `ExperimentControl` (cancel, pause, resume and delete across sweeps).
- **DoubleWord checkpoints.** `DoubleWordWatcher` (checkpoint store, watcher and users as steps),
  `StaleSnapshots` (when a failed or cancelled experiment is swept all the same) and `StartupReconciliation`
  (the boot pass).
- **Run-state merge.** `RunStateMerge`.
- **Ranking.** `ResultsAnalyzer`, `AnalysisLaws` (what its figures mean), `Compare`, `CompareLaws` and `Fusion`.
- **Chunk grouping.** `Chunkers` (sentence and semantic) and `Padding`.
- **Search-index preflight.** `SearchIndexPreflight`.

`Collections`, `Listing` and `Sorting` hold facts about sets, lists and stable sorting that several models
share.

## How the models are built

Code that changes things step by step is a class or a method with a loop, proved against a specification
function; protocols are state machines over runs, each step being one stretch of code that nothing else can
interleave with. Times, scores and token counts of the outside world are arbitrary: reals for clocks and
scores, `*` for outcomes of calls, functions for embeddings and encodings. Texts that are only compared are
integers. Python's `round` is any monotone function that leaves integers alone.

## Where the code differs from what it says

- The limiter's docstring promises RPM and TPM ceilings. The request ceiling can be exceeded by up to one
  request per further caller, because the RPM check is not repeated after a TPM sleep
  (server/core/embedding/rate_limiter.py:42-43, 77-79); `RateLimiterCeiling.RequestCeilingExactly` says when,
  `RateLimiterCeiling.PeakExactly` by how much, and `RateLimiterCeiling.CeilingWithTokensExactly` when for
  callers that all need tokens.
- A resume is described as skipping the parameter sets that already completed. Signatures leave out padding
  and the retriever's type, so it can also skip one that did not; `SweepHistory.ResumeIsSoundForConfig` says when.
- The boot pass has a third case, "waiting, but the API key was removed"
  (server/core/pipeline/startup_reconciliation.py:84-100). The two cases before it cover every waiting
  experiment, so it is never reached and the model has no branch for it.
- Boot and the sweep derive an experiment's status from the same counts by different rules;
  `StartupReconciliation.BootAgreesWithSweepExactly` says when they differ.
- A cancel answered while a sweep is queued is meant to stop it. For a grid sweep of an experiment that is not
  deleted it does so exactly when no other sweep of it is still to make its final write. Once the experiment may
  be deleted, and for a Bayesian sweep always, since that one does not look at storage before it starts
  (server/core/pipeline/orchestrator.py:154-169), it does so exactly when that sweep is the experiment's only
  one, its control entry is there and no further sweep is triggered;
  `ExperimentControl.CancelOfQueuedSticksExactly`.
- A pause answered before its sweep has started is lost: the sweep is skipped with an exception, nothing is
  written (server/core/pipeline/orchestrator.py:634-642 catches only the cancel), and the experiment is left
  RUNNING, not PAUSED; `ExperimentControl.PauseTakesHoldExactly`, `ExperimentControl.SignalledSweepStops`.
- The watcher can schedule a sweep of an experiment it has just marked failed, or that a user has cancelled,
  from a stale snapshot; `StaleSnapshots.DeadBatchEndsItExactly` and `StaleSnapshots.CancelEndsItExactly` say
  when.
- Padding is described as merging until chunks reach a minimum. On untrimmed chunks the last output can fall
  short, and padding again changes the list; `Padding.SafeExactly` says which chunks can do that and
  `Padding.PaddingReachesExactly` which lists.
- A merge's dry run cannot see a run id that the host already uses;
  `RunStateMerge.DryRunCanMissATakenRunId`.
- Configurations are ranked by their highest score. It is rounded before it is compared, so the first one need not
  hold the highest raw score; `AnalysisLaws.HighestWinsExactly` says when it does.
- In a comparison every `store_rank` is 1, since a group has one run per store.

## Model

| member | source | states |
|---|---|---|
| RateLimiter.RateLimiter.PurgeWindow | server/core/embedding/rate_limiter.py:30-34 | both logs lose exactly their stale entries from the front |
| RateLimiter.RateLimiter.TokensInWindow | server/core/embedding/rate_limiter.py:36-37 | the sum of the logged tokens |
| RateLimiter.RateLimiter.RpmPass | server/core/embedding/rate_limiter.py:49-61 | one turn of the RPM loop purges, then passes or says how long to sleep |
| RateLimiter.RateLimiter.TpmPass | server/core/embedding/rate_limiter.py:63-79 | one turn of the TPM loop, with its ways out for an unlimited budget, no tokens and an empty log |
| RateLimiter.RateLimiter.Append | server/core/embedding/rate_limiter.py:44-47 | a grant is logged, its tokens only when positive |
| RateLimiter.RateLimiter.Wait | server/core/embedding/rate_limiter.py:39-47 | for a caller nobody overlaps the wait ends with a grant: the logs lose just what was stale at the last purge and gain the grant, and are within their ceilings or hold one oversized request alone; with a request ceiling of zero or less it empties the log and fails |
| RateLimiter.PurgeKeepsExactlyFresh | server/core/embedding/rate_limiter.py:30-34 | purging an ordered log leaves exactly the entries of the last 60 seconds of the full history |
| RateLimiter.RpmSleepOutlastsHead | server/core/embedding/rate_limiter.py:55-60 | an RPM sleep ends 60.1 seconds after the oldest request, which has left the window by then, so the loop progresses |
| RateLimiter.TpmSleepOutlastsHead | server/core/embedding/rate_limiter.py:73-78 | so does a TPM sleep after the oldest token entry |
| RateLimiterProtocol.RunInv | server/core/embedding/rate_limiter.py:39-79 | in every interleaving one caller at most holds the lock, the logs are the recent history and each passed check still means what it meant |
| RateLimiterProtocol.RpmDecision | server/core/embedding/rate_limiter.py:49-61 | a caller passes the RPM check exactly when fewer than rpm requests were granted in the last 60 seconds |
| RateLimiterProtocol.TpmDecision | server/core/embedding/rate_limiter.py:63-79 | a caller passes the TPM check exactly when its tokens fit with those of the last 60 seconds, or there were none |
| RateLimiterProtocol.TokenCeiling | server/core/embedding/rate_limiter.py:63-79 | in every run and every closed 60-second interval the granted tokens total at most tpm, or the interval holds a single token-bearing grant |
| RateLimiterProtocol.RequestCeiling | server/core/embedding/rate_limiter.py:39-61 | in every run and every closed 60-second interval at most rpm + callers - 1 grants |
| RateLimiterCeiling.AtomicPassesKeepCeiling | server/core/embedding/rate_limiter.py:39-47 | where the TPM check never sleeps between the RPM check and the grant, rpm is the ceiling for any number of callers |
| RateLimiterCeiling.BudgetKeepsCeiling | server/core/embedding/rate_limiter.py:63-79 | where every call needs tokens, a token budget of at most rpm keeps the request ceiling too |
| RateLimiterCeiling.LateGrantsCostTokens | server/core/embedding/rate_limiter.py:63-79 | a window holds at most rpm + tpm grants: each beyond rpm slept on the token budget and has a token of it |
| RateLimiterCeiling.OverrunExists | server/core/embedding/rate_limiter.py:42-43 | some run grants rpm requests and one of each further caller within 60 seconds, as far as the budget has tokens for them, by calls without tokens or with them |
| RateLimiterCeiling.PeakExactly | server/core/embedding/rate_limiter.py:39-79 | the most grants any window of any run holds: rpm where the ceiling is kept, and else rpm plus the smaller of tpm and the number of further callers; no more, and that many in some run |
| RateLimiterCeiling.RequestCeilingExactly | server/core/embedding/rate_limiter.py:39-79 | rpm is the ceiling of every run exactly when there is one caller, tokens are unlimited or rpm is 1 |
| RateLimiterCeiling.CeilingWithTokensExactly | server/core/embedding/rate_limiter.py:39-79 | of every run whose calls all need tokens, exactly when one of these holds or the token budget is at most rpm |
| Batching.SplitIntoBatches | server/core/embedding/embedder.py:254-276 | the batches concatenate to the texts and are greedy: none empty, only lone texts over budget, none could take the next text |
| Batching.SplitIntoRequests | server/core/embedding/embedder.py:288-308 | the same for requests, limited by tokens and by number of segments |
| Batching.GreedyIsOptimal | server/core/embedding/embedder.py:254-308 | no contiguous split into fitting groups has fewer groups |
| Batching.GreedyIsUnique | server/core/embedding/embedder.py:254-308 | there is only one greedy split of a list |
| Batching.ClosedWhenFull | server/core/embedding/embedder.py:254-308 | a group is only closed when it is full or the next item would take it over the budget |
| Batching.EstimateIs | server/core/embedding/rate_limiter.py:122-123 | four characters of all the texts together are estimated as one token, a remainder as none, and nothing as less than one |
| Batching.CountInParts | server/core/embedding/embedder.py:236-239 | the token counts of two lists add up, and a list without tokens counts as one |
| Batching.BatchEstimate | server/core/embedding/embedder.py:254-276 | a batch of n texts cut to a budget is estimated at most budget + 3n/4 tokens when sent |
| Batching.BatchEstimateIsTight | server/core/embedding/rate_limiter.py:122-123 | that slack is reached |
| Batching.ValidateChunkSizes | server/core/embedding/embedder.py:242-251 | the first text over the 32,000-token window is reported, and none exactly when all fit |
| Batching.ContextRequests | server/core/embedding/embedder.py:236-308 | validated texts flatten back in order out of requests of at most 120,000 tokens and 1,000 segments, with segments of at most 32,000 tokens, 30,000 when of several texts; both splits are greedy, so the only ones of their kind |
| SweepGrid.ExpandSweep | server/models/config.py:318-367 | the runs of the grid in row-major order |
| SweepGrid.PairsAt | server/models/config.py:333-340 | position of each pair of choices: the last dimension turns fastest |
| SweepGrid.PlanCountsTheGrid | server/models/config.py:437-464 | the planned full grid count is the number of runs the sweep expands to |
| SweepGrid.GridHoldsExactlyTheCombinations | server/models/config.py:318-367 | a run is in the grid exactly when it is a choice from every dimension, with dense search and no padding by default, and the deprecated fields that go with its retriever |
| SweepGrid.GridAt | server/models/config.py:333-340 | where in the grid each combination of choices stands |
| SweepGrid.GridHasNoRepeats | server/models/config.py:318-367 | when no dimension repeats a value each combination is listed once |
| SweepGrid.StoredSignatureSurvives | server/core/pipeline/signatures.py:22-55 | the signature read back from a run's row is the signature of its parameters |
| SweepGrid.SignatureTells | server/core/pipeline/signatures.py:22-33 | two runs have one signature exactly when they agree on everything but padding and the retriever's own type |
| SweepGrid.MissingColumns | server/core/pipeline/signatures.py:44-55 | how a row with missing columns reads |
| SweepGrid.LegacyTwinsExactly | server/models/config.py:309-316 | which retrievers leave the same deprecated fields: those that search alike, those that rerank with one provider and model, and plain dense search with local reranking by no named model |
| SweepGrid.SignaturesDistinctExactly | server/core/pipeline/signatures.py:22-33 | signatures tell the runs of a non-empty grid apart exactly when no dimension repeats a value, there is at most one padding and no two retrievers look alike to them |
| SweepRunner.Control.Check | server/core/pipeline/experiment_control.py:58-66 | what a check sees of the two events: a cancel hides a pause |
| SweepRunner.RunSingle | server/core/pipeline/orchestrator.py:863-1084 | a run's phases follow the pipeline in order; its last is COMPLETE exactly when it did all its work, INTERRUPTED exactly when it was cancelled or paused, which it was only if signalled, and FAILED exactly when it failed or the service was gone |
| SweepRunner.Sweep.SubmitNext | server/core/pipeline/orchestrator.py:666-710 | unless stopped, exhausted or signalled it submits exactly the next pending run; a cancel or pause raised before it keeps it from submitting and sets its flag |
| SweepRunner.Sweep.TakeResult | server/core/pipeline/orchestrator.py:724-748 | a reaped future leaves, its row is closed, and its outcome is on the flags and the log |
| SweepRunner.ReapSets | server/core/pipeline/orchestrator.py:724-748 | which flags that sets, and that no other row changes |
| SweepRunner.Sweep.Drain | server/core/pipeline/orchestrator.py:712-767 | the loop ends with no future out, and with everything submitted unless stopped |
| SweepRunner.RunSweepInner | server/core/pipeline/orchestrator.py:621-815 | how a sweep ends: skipped whenever a cancel was raised before it, escaped for a pause, failed preflight only when the stores are not ready, or finished with the status its log and rows call for, the log telling what was raised |
| SweepRunner.FinishedSweep | server/core/pipeline/orchestrator.py:655-767 | in every completion order and signal timing: submitted runs are a prefix of the pending ones, all before a submission being submissions, checks that saw nothing and runs that completed, or failed where the sweep goes on; each is reaped once and its row closed as that says; all are submitted where nothing stopped it |
| SweepRunner.VerdictTells | server/core/pipeline/orchestrator.py:769-860 | the final status from the log and the rows: a cancel seen, then a pause, then an outage, then how many rows are complete and failed |
| SweepHistory.HistoryKeepsOnce | server/core/pipeline/orchestrator.py:646-647 | over any history no two completed rows share a signature |
| SweepHistory.ResumeIsSoundExactly | server/core/pipeline/orchestrator.py:119-132 | in every history no combination completes twice and each resume runs whatever has not completed, exactly when the grid's signatures are distinct |
| SweepHistory.ResumeIsSoundForConfig | server/core/pipeline/signatures.py:22-60 | the same in terms a caller can check in the configuration |
| SweepHistory.TwinsBreakResume | server/core/pipeline/signatures.py:22-33 | two combinations with one signature give a history in which one is never run or both complete |
| SweepHistory.CompleteExactly | server/core/pipeline/orchestrator.py:848-860 | the counts say COMPLETE exactly when every combination has a completed row and no row failed |
| SweepHistory.SweepEndsCompleteExactly | server/core/pipeline/orchestrator.py:769-812 | so does a sweep that ends with no cancel, pause or outage |
| SweepHistory.PendingInParts | server/core/pipeline/orchestrator.py:646-647 | a resume goes through what is left in the grid's order |
| SweepHistory.NoFailedRowAdded | server/core/pipeline/orchestrator.py:855-860 | a sweep in which no run fails and the service stays adds no FAILED row, however it is cancelled or paused |
| SweepHistory.ResumedToTheEnd | server/core/pipeline/orchestrator.py:119-132 | so an experiment without a failed run, paused and resumed any number of times, is COMPLETE after a sweep that sees no signal and completes what it starts |
| BayesianSearch.TrialLoop.Visit | server/core/pipeline/orchestrator.py:197-250 | a new pair is visited, and attempted unless something stopped the search or a cancel or pause was raised, which it then flags |
| BayesianSearch.RunTrials | server/core/pipeline/orchestrator.py:252-312 | the pairs visited are those the sampler suggested; none is attempted twice, attempts stay within the plan and the times the sampler is asked within three per planned trial, and nothing is attempted or checked after a trial or a check that calls for the end |
| BayesianSearch.RunBayesianInner | server/core/pipeline/orchestrator.py:154-338 | a cancel raised before it skips the search; otherwise planned trials are at most the space of pairs, and are the attempted and the discarded ones with none left over |
| BayesianSearch.BudgetIsCapped | server/models/config.py:370-377 | the number of trials is the configured one, or the number of pairs where that is smaller or none is configured |
| BayesianSearch.TrialsAreOfTheGrid | server/core/pipeline/orchestrator.py:172-250 | every trial is a run of the grid, the first one but for its size and overlap, with its row closed as it ended |
| BayesianSearch.BayesianStatusMeans | server/core/pipeline/orchestrator.py:341-441 | the final status in terms of how the attempts ended and what was signalled |
| BayesianSearch.ShortfallMeansAsked | server/core/pipeline/orchestrator.py:252-257 | a search that nothing ended and that fell short has used all its asks |
| ExperimentControl.SweepControls.Register | server/core/pipeline/experiment_control.py:26-29 | registering twice keeps the events already raised |
| ExperimentControl.SweepControls.Unregister | server/core/pipeline/experiment_control.py:32-33 | the entry goes with its events |
| ExperimentControl.SweepControls.RequestCancel | server/core/pipeline/experiment_control.py:36-42 | raises the event and says so exactly when there is an entry |
| ExperimentControl.SweepControls.RequestPause | server/core/pipeline/experiment_control.py:45-51 | the same for a pause |
| ExperimentControl.SweepControls.CheckControl | server/core/pipeline/experiment_control.py:58-66 | what the experiment's sweep is told |
| ExperimentControl.StepKeepsInv | server/core/pipeline/executors.py:31-48 | what every handler and worker step keeps |
| ExperimentControl.EntryExistsInBody | server/core/pipeline/orchestrator.py:141-151 | a control entry exists throughout every sweep body |
| ExperimentControl.EventsStayWithTheirSweep | server/core/pipeline/experiment_control.py:26-66 | an event raised against one sweep is never seen by a later one |
| ExperimentControl.StatusChanges | server/api/experiments.py:375-511 | besides by a sweep's final write, a status changes only by a cancel of a RUNNING experiment, a pause of one with nothing to signal, or the resume of a PAUSED grid sweep; only what is not RUNNING is deleted |
| ExperimentControl.SignalledSweepStops | server/core/pipeline/experiment_control.py:36-66 | a cancel or a pause that finds a control entry stops the first unfinished sweep of its experiment: whatever happens then, that sweep creates no further run |
| ExperimentControl.PauseTakesHoldExactly | server/api/experiments.py:412-443 | a pause can make its experiment PAUSED exactly when it finds no control entry or a sweep past its start that has seen no cancel |
| ExperimentControl.ResumedExperimentCanRun | server/api/experiments.py:446-485 | a resumed experiment is RUNNING and can be swept again |
| ExperimentControl.VerdictMayBeWritten | server/core/pipeline/orchestrator.py:769-812 | the final write of a grid sweep is one the protocol allows |
| ExperimentControl.BayesianVerdictMayBeWritten | server/core/pipeline/orchestrator.py:341-379 | and that of a Bayesian one |
| ExperimentControl.CancelOfQueuedSticksExactly | server/api/experiments.py:375-409 | whichever triggers and deletes may still come: a cancel handled while a sweep is queued keeps every further run from being created exactly when, for a grid sweep not deleted, no sweep of the experiment is yet to write without having seen a cancel, and otherwise none can be triggered, none is on the worker, one is queued and its control entry is there |
| ExperimentControl.CancelSticksShortOfDelete | server/core/pipeline/orchestrator.py:626-642 | the first case: a grid sweep looks at storage before it starts |
| ExperimentControl.TriggersUndoIt | server/core/pipeline/orchestrator.py:154-169 | in the other case, where sweeps can be triggered no cancel keeps the experiment from running |
| ExperimentControl.CancelCanFailToStick | server/api/experiments.py:412-485 | the exception is reachable: a pause that finds no entry leads to two sweeps of one experiment |
| ExperimentControl.DeletedExperimentCanRun | server/api/experiments.py:488-511 | the exception to sticking through a delete is reachable: a cancelled, then deleted experiment is run |
| ExperimentControl.CancelledBayesianCanRun | server/core/pipeline/orchestrator.py:154-169 | a Bayesian experiment with a second sweep triggered runs after its cancel, even if nobody deletes it or triggers it again |
| DoubleWordWatcher.CheckpointStore.AddEntries | server/core/pipeline/pre_embed.py:79-83 | new entries go behind the old ones |
| DoubleWordWatcher.CheckpointStore.RemoveByBatchId | server/core/pipeline/pre_embed.py:85-89 | exactly the batch's entries go |
| DoubleWordWatcher.CheckpointStore.RemoveForExperiment | server/core/pipeline/pre_embed.py:94-98 | exactly the experiment's entries go |
| DoubleWordWatcher.CheckpointStore.GetForExperiment | server/core/pipeline/pre_embed.py:91-92 | exactly the experiment's entries, in order |
| DoubleWordWatcher.ProcessEntries | server/core/pipeline/doubleword_watcher.py:71-96 | a pass ends, and the watcher's own steps deal with every entry that was in the store when it began, in order, or break off at one with an exception |
| DoubleWordWatcher.OnBatchCompleted | server/core/pipeline/doubleword_watcher.py:98-130 | whatever others do meanwhile, the watcher's own steps are download, cache, removal, check and then the trigger if nothing remains, or a first part of these ended by an exception |
| DoubleWordWatcher.CleanExperimentSweepsOnce | server/core/pipeline/doubleword_watcher.py:71-193 | with no dead batch and no cancel an experiment is scheduled at most once, only with none of its batches pending and with all their vectors cached |
| DoubleWordWatcher.EntriesLeaveCached | server/core/pipeline/doubleword_watcher.py:116-122 | such an experiment's entry only leaves the store once its vectors are cached |
| StaleSnapshots.StaysUnsweptExactly | server/core/pipeline/doubleword_watcher.py:71-130 | an experiment with no checkpoint left is swept in no continuation exactly when none of its entries is in the pass's snapshot and the watcher is busy with none |
| StaleSnapshots.DeadBatchEndsItExactly | server/core/pipeline/doubleword_watcher.py:132-160 | a dead batch keeps its experiment from ever being swept exactly when it is the experiment's last in the snapshot |
| StaleSnapshots.CancelEndsItExactly | server/core/pipeline/doubleword_watcher.py:247-264 | so does the cleaning up after a cancel exactly when nothing of the experiment is in the snapshot or at hand |
| StaleSnapshots.FailedExperimentCanBeSwept | server/core/pipeline/doubleword_watcher.py:132-160 | such a sweep of a failed experiment is reachable |
| StaleSnapshots.CancelledExperimentCanBeSwept | server/core/pipeline/doubleword_watcher.py:247-264 | and of a cancelled one |
| StartupReconciliation.Storage.ReconcileOrphanedExperiments | server/core/pipeline/startup_reconciliation.py:24-107 | boot settles every RUNNING experiment by its own rows, in any order, and returns how many were RUNNING and did not wait for checkpointed batches |
| StartupReconciliation.Storage.CloseOrphan | server/core/pipeline/startup_reconciliation.py:110-177 | in-flight runs are interrupted and the experiment gets its derived status |
| StartupReconciliation.BootLeavesRunningExactly | server/core/pipeline/startup_reconciliation.py:46-104 | what becomes of each experiment: RUNNING afterwards exactly if it was and waits with a checkpointed batch, FAILED if it waits without one, and otherwise closed with its failed runs counted; one that was not RUNNING is left alone |
| StartupReconciliation.OrphansHaveTerminalRuns | server/core/pipeline/startup_reconciliation.py:110-127 | runs in flight of a RUNNING experiment that does not wait are interrupted, and no other run changes |
| StartupReconciliation.OrphanStatusByItsRuns | server/core/pipeline/startup_reconciliation.py:129-130 | the status of such an experiment, by how many of its runs had completed and failed and whether all had |
| StartupReconciliation.BootIsIdempotent | server/core/pipeline/startup_reconciliation.py:24-107 | a second boot changes nothing and closes nothing |
| StartupReconciliation.BootAgreesWithSweepExactly | server/core/pipeline/startup_reconciliation.py:180-192 | boot and sweep judge the same rows alike except when something failed, nothing completed and not all failed |
| RunStateMerge.PlanMoves | scripts/migrate/merge_run_state_dbs.py:336-360 | the plan over the volume's ids in order, or the first collision |
| RunStateMerge.PlanSplits | scripts/migrate/merge_run_state_dbs.py:336-360 | planning fails exactly on a collision with differing content; otherwise it moves what the host lacks and skips the rest |
| RunStateMerge.SameContentExactly | scripts/migrate/merge_run_state_dbs.py:283-307 | two databases have equal content of an experiment exactly when it is in both with one row, or in neither, and they have the same runs of it and each result of it equally often |
| RunStateMerge.Database.MoveExperiments | scripts/migrate/merge_run_state_dbs.py:363-389 | all experiments move, or none when a run id is taken |
| RunStateMerge.MergeRunState | scripts/migrate/merge_run_state_dbs.py:392-453 | an executed merge succeeds exactly when the dry run does and no moved run id is taken; an abort says why and leaves the host's copy as it was, a dry run writes nothing |
| RunStateMerge.RefusedExactly | scripts/migrate/merge_run_state_dbs.py:336-360 | a merge is refused beforehand exactly when an experiment is running or one in both databases differs in its row, its runs or its results; the first that differs is the one reported |
| RunStateMerge.MergedTables | scripts/migrate/merge_run_state_dbs.py:363-389 | in the tables: what the merged file has of each experiment is what either database it is in has |
| RunStateMerge.MergeKeepsBoth | scripts/migrate/merge_run_state_dbs.py:363-389 | the merged file keeps every host experiment's content, has every volume experiment's, no others, and valid foreign keys |
| RunStateMerge.MergeCountsTheUnion | scripts/migrate/merge_run_state_dbs.py:439-451 | it holds as many experiments as there are ids in either |
| RunStateMerge.ReportTells | scripts/migrate/merge_run_state_dbs.py:439-451 | the report lists the host's, the moved and the skipped experiments in rising order, and counts the runs and results of every one |
| RunStateMerge.DryRunPredicts | scripts/migrate/merge_run_state_dbs.py:409-451 | the dry run's report equals the executed one's, counts included |
| RunStateMerge.MergingAgainSkipsAll | scripts/migrate/merge_run_state_dbs.py:336-360 | merging the same volume again skips everything |
| RunStateMerge.DryRunCanMissATakenRunId | scripts/migrate/merge_run_state_dbs.py:369-387 | two valid databases whose dry run succeeds and whose merge does not |
| ResultsAnalyzer.AnalyzeResults | server/core/results_analyzer.py:44-246 | from the dictionaries the loops fill: the queries of the selected results, the ranking of their configurations with the number tied for best, and every hit by falling score |
| ResultsAnalyzer.RankingArranged | server/core/results_analyzer.py:217-225 | entries are in order of the five sort keys, ties in order of first appearance |
| ResultsAnalyzer.RankedInOrder | server/core/results_analyzer.py:217-225 | a better best score, then a better average of the chosen kind, then a smaller chunk size, overlap and padding come first |
| ResultsAnalyzer.BestIsHundredExactly | server/core/results_analyzer.py:64-113 | the winner scores 100 if two raw scores differ and 0 otherwise |
| ResultsAnalyzer.TiesLead | server/core/results_analyzer.py:229-235 | the configurations that tie for the best score are the first ones, as many as are counted |
| ResultsAnalyzer.DetailsAgreeWithRanking | server/core/results_analyzer.py:145-147 | the detailed hits are all the hits by falling score, and the first scores what the best configuration does |
| ResultsAnalyzer.EntryPermutes | server/core/results_analyzer.py:86-190 | a configuration's figures do not depend on the order of the hits |
| AnalysisLaws.HitsInOrder | server/core/results_analyzer.py:98-118 | which hits are counted: each under its run's configuration, for its rerank score if it has one, else its dense score, else zero |
| AnalysisLaws.SelectedInOrder | server/core/results_analyzer.py:61-62 | which results are analysed: those for the selected query text, in order, or all without one |
| AnalysisLaws.QueriesInOrder | server/core/results_analyzer.py:237 | the query texts are listed once each, in order |
| AnalysisLaws.RerankHidesDense | server/core/results_analyzer.py:15-20 | the dense score of a hit that was reranked changes nothing of an analysis |
| AnalysisLaws.ScaleIs | server/core/results_analyzer.py:72-113 | scores are scaled from 0 at the lowest raw score to 100 at the highest, and rounded |
| AnalysisLaws.EntryTells | server/core/results_analyzer.py:150-192 | a configuration's figures: the number of its hits, its highest score, the average of its scores, and the average over its queries of their averages |
| AnalysisLaws.AveragesBetween | server/core/results_analyzer.py:164-189 | both averages lie between a configuration's lowest and highest score |
| AnalysisLaws.HighestWinsExactly | server/core/results_analyzer.py:217-225 | whatever the hits belong to, the first configuration holds a highest raw score: exactly when no lower raw score is rounded to where the highest is |
| AnalysisLaws.HighestCanLose | server/core/results_analyzer.py:113 | three hits of which the highest does not win |
| Compare.Candidates | server/core/compare.py:69-89 | the eligible runs of a bundle, in order |
| Compare.LatestPerStoreAndGroup | server/core/compare.py:92-100 | one run per store and group, in order of first appearance |
| Compare.LookupNeverMisses | server/core/compare.py:117-134 | every ranked configuration is some member's |
| Compare.RankGroup | server/core/compare.py:109-168 | a group's rows, with ranks by position and store ranks by count |
| Compare.BuildCompare | server/core/compare.py:171-201 | one latest candidate per store and group, grouped, ranked, sorted best first and counted |
| CompareLaws.LatestIs | server/core/compare.py:92-100 | the choice has the latest stamp, and of those the lowest run id |
| CompareLaws.CandidatesExactly | server/core/compare.py:69-89 | the candidates are exactly the completed runs of eligible experiments with a store, a result and a group id |
| CompareLaws.OrderDoesNotMatter | server/core/compare.py:92-201 | with distinct run ids and a digest that tells groups apart, the whole report is the same for every order of bundles, of runs in them and of results in them |
| CompareLaws.CandidatesAddUp | server/core/compare.py:171-201 | every candidate is one ranked row, one run without a scored hit or one collapsed duplicate, and the counts add up |
| CompareLaws.GroupRows | server/core/compare.py:109-168 | in a group ranks are positions, each row's scores are its own run's, stores differ and every store rank is 1 |
| CompareLaws.GroupBestScore | server/core/compare.py:109-168 | a group's best score is 100 when two of its raw scores differ and 0 otherwise |
| CompareLaws.GroupsInOrder | server/core/compare.py:190 | groups come by falling top score, then by digest |
| CompareLaws.StoresInOrder | server/core/compare.py:191 | the stores of all ranked rows are listed once each, in rising order |
| CompareLaws.EveryGroup | server/core/compare.py:171-201 | all of this holds of every group of a report, its best score being 100 exactly when two raw scores of its hits differ |
| CompareLaws.RankedExactly | server/core/compare.py:171-190 | a run is in the report exactly when it takes part, no run of its store and group that does is later, and one of its results has a hit |
| CompareLaws.HitsOfGroupExactly | server/core/compare.py:109-117 | a group is ranked by exactly the hits of those runs, each for its rerank score, else its dense one |
| CompareLaws.GroupIsRanked | server/core/compare.py:109-168 | its rows are the ranking of these hits, in order |
| CompareLaws.CountsTell | server/core/compare.py:192-201 | the groups, the runs in them, and the groups with runs of two stores are counted |
| Fusion.FusionTable.Accumulate | server/core/retrieval/fusion.py:50-59 | one list's reciprocal ranks are added, new chunks behind the known ones |
| Fusion.RrfFuse | server/core/retrieval/fusion.py:26-47 | the top_k of the sums of 1/(rank + k) over both lists, ties first-seen first, nothing kept that is outranked by something dropped |
| Fusion.AgreementLeads | server/core/retrieval/fusion.py:26-69 | with lists of m and n distinct chunks, (m - 1)(n - 1) below (k + 1)(k + 1), every chunk both lists found precedes every chunk one found; lists of at most k + 1 are short enough |
| Fusion.AgreementCanLose | server/core/retrieval/fusion.py:26-69 | beyond that, for any lengths and k, it need not |
| Fusion.AgreementLeadsExactly | server/core/retrieval/fusion.py:26-69 | so for two lengths agreement leads in all lists exactly under that bound |
| Chunkers.ChunkSentence | server/core/chunkers/sentence.py:34-61 | chunks are linked pieces whose new sentences are the text's, each split from the next where the rule says and seeded with the last characters of the one before |
| Chunkers.SentenceBreaksExactly | server/core/chunkers/sentence.py:41-56 | the rule: a sentence joins a chunk exactly when it fits, a space after each sentence counting, but not the one after a seed; the seed is the last overlap characters, or all of a shorter chunk |
| Chunkers.SentenceChunksUnique | server/core/chunkers/sentence.py:34-61 | no other chunks follow it |
| Chunkers.OverlapSentences | server/core/chunkers/semantic.py:9-30 | the longest trailing run of whole sentences that fits, and the last sentence at least |
| Chunkers.ChunkSemantic | server/core/chunkers/semantic.py:70-103 | the same with that seed, and split where the semantic rule says |
| Chunkers.SemanticBreaksExactly | server/core/chunkers/semantic.py:85-99 | that rule: a sentence opens a chunk exactly when it is dissimilar to its neighbour or does not fit, one more space counting from the second chunk on |
| Chunkers.SemanticChunksUnique | server/core/chunkers/semantic.py:70-103 | no other chunks follow it |
| Chunkers.SeedIsSuffix | server/core/chunkers/sentence.py:46-53 | either chunker's seed is a suffix of the chunk before, and is there exactly when overlap is positive |
| Chunkers.SeedsRemovedRejoin | server/core/chunkers/semantic.py:91-98 | cutting the seeds off and joining the rest gives back the joined sentences |
| Chunkers.ChunkingLosesNothing | server/core/chunkers/sentence.py:34-61 | for either chunker no sentence is lost, and a chunk with two or more new sentences is at most chunk_size + 1 characters |
| Padding.ApplyPadding | server/core/chunkers/__init__.py:7-36 | short chunks merge forward until they reach the minimum, and a remainder joins the last chunk or stands alone |
| Padding.PaddingKeepsInk | server/core/chunkers/__init__.py:7-36 | padding keeps the sequence of non-whitespace characters, for any chunks |
| Padding.PaddingRegroups | server/core/chunkers/__init__.py:7-36 | trimmed chunks are regrouped in order, joined by single spaces, and reach the minimum unless there is one output |
| Padding.PaddingMergesForward | server/core/chunkers/__init__.py:21-36 | how: going forward each group ends with the chunk that takes it to the minimum, and a remainder short of it joins the last group |
| Padding.PaddingFixesExactly | server/core/chunkers/__init__.py:18-19 | padding leaves a list alone exactly when it is off, there is at most one chunk, or all reach the minimum |
| Padding.PaddingIsIdempotent | server/core/chunkers/__init__.py:7-36 | on trimmed chunks padding twice is padding once |
| Padding.PaddingReachesExactly | server/core/chunkers/__init__.py:30-33 | on any chunks the outputs reach the minimum unless there is one, and padding again changes nothing, exactly when there is no remainder, no second output, or the last one stays long enough once the remainder joins it and the whole is stripped |
| Padding.SafeExactly | server/core/chunkers/__init__.py:23-33 | a chunk does so in all lists of it and short chunks exactly when it is long enough without the white space at its ends, or the minimum is 1 |
| Padding.UntrimmedPaddingChangesTwice | server/core/chunkers/__init__.py:30-33 | on untrimmed chunks it need not be |
| SearchIndexPreflight.RequiredAreManaged | server/core/guards/search_index_plan.py:156-165 | what a configuration requires is always an index the project manages |
| SearchIndexPreflight.RequiredExactly | server/core/guards/search_index_plan.py:156-165 | a vector index for each model's size, and the text index exactly when some retriever is sparse or hybrid |
| SearchIndexPreflight.FeasibleExactly | server/core/guards/search_index_plan.py:130-153 | only models of 30,522 dimensions make a configuration infeasible |
| SearchIndexPreflight.FeasibleFitsTheTier | server/core/guards/search_index_plan.py:130-153 | what a feasible configuration requires is at most three indexes |
| SearchIndexPreflight.Summarize | server/core/guards/search_index_guard.py:42-82 | the names ready and not ready on chunks, and the counts of the cluster |
| SearchIndexPreflight.SatisfiedExactly | server/core/guards/search_index_plan.py:168-255 | an assessment is satisfied exactly when the requirements fit the tier and are all ready on chunks |
| SearchIndexPreflight.RequiredDroppedOnlyIfFailed | server/db/mongo/indexes.py:420-452 | reconciling drops a required index only if it failed, and pruning never does |
| SearchIndexPreflight.Cluster.Reconcile | server/db/mongo/indexes.py:420-452 | drops the failed and the surplus managed indexes of chunks, and nothing else |
| SearchIndexPreflight.Cluster.Prune | server/db/mongo/indexes.py:124-133 | drops the unmanaged indexes, and nothing else |
| SearchIndexPreflight.Cluster.EnsureRequired | server/db/mongo/indexes.py:262-277 | creates only required indexes |
| SearchIndexPreflight.Validate | server/core/guards/search_index_guard.py:269-359 | whoever else acts on the cluster, it returns exactly when its last look found the requirements met, and all it did to the cluster is on record, each drop and creation with its grounds |
| SearchIndexPreflight.EveryDeedHasGrounds | server/core/guards/search_index_guard.py:318-352 | these grounds: it acts only on a feasible request, after a look that found the requirements not met; it drops failed and surplus indexes of chunks, unmanaged ones only if the last look found slots short, and creates only required ones that are not there, if it found that the missing fit |
| SearchIndexPreflight.ActsOnlyWhenNeeded | server/core/guards/search_index_guard.py:300-352 | in terms of the cluster: it acts only if told to and only after a look that found the requirements too many for the tier or not all ready, and drops only failed indexes of chunks, managed ones there that are not required, and unmanaged ones |
| SearchIndexPreflight.UnmanagedDroppedOnlyWhenShort | server/core/guards/search_index_guard.py:329-342 | an unmanaged index that has not failed on chunks is dropped only if something was missing at the last look and did not fit the limit beside what was there |
| SearchIndexPreflight.CreatedOnlyWhenFitting | server/core/guards/search_index_guard.py:344-352 | and one is created only if it is required and absent and all that was missing fitted |
| SearchIndexPreflight.RequiredDroppedOnlyWhenFailed | server/db/mongo/indexes.py:420-452 | so a required index is dropped only when it is failed |
| SearchIndexPreflight.LostOnlyFor | server/core/guards/search_index_guard.py:329-342 | over a whole preflight of a cluster nobody else touches, an index is lost only if it failed, is surplus, or is unmanaged when slots are still short |
| SearchIndexPreflight.LostExactly | server/core/guards/search_index_guard.py:318-342 | one that is not required is lost exactly if the request is feasible and not met, and it is on chunks and failed or managed, or it is unmanaged and, once those are cleared, something is missing that does not fit the limit beside the rest |
| SearchIndexPreflight.RequiredLostOnlyIfFailed | server/core/guards/search_index_guard.py:329-352 | over a whole preflight of a cluster nobody else touches, a required index is lost only if it had failed |
| SearchIndexPreflight.QuotaKeptAsSeen | server/core/guards/search_index_guard.py:344-352 | on any cluster, as long as others add nothing after the last look, it is no larger than it was then or within its limit |
| SearchIndexPreflight.QuotaKept | server/core/guards/search_index_guard.py:344-352 | over a whole preflight of a cluster nobody else touches, it is no larger than before or within its limit |
| SearchIndexPreflight.SucceedsExactly | server/core/guards/search_index_guard.py:269-359 | with nobody else acting, a preflight succeeds exactly when all is ready already, or nothing required is building and it fits beside the managed indexes elsewhere |

## Left out

- HTTP, routing, the Voyage, OpenAI, SIE and DoubleWord clients, Aim logging, the CLI and the frontend: their results are arbitrary inputs.
- The MongoDB, Postgres, SQLite, Redis and Elasticsearch adapters: storage is maps and sequences whose operations do not fail, except the inserts of a merge.
- The other stores' preflights, the standard indexes, and what is logged or worded for the user.
- Sentence splitting, embeddings and similarities, token encodings and the Optuna sampler: arbitrary functions or choices.
- SHA-256: a digest or a group id stands for exactly what is hashed, and orders groups by an injective number.
- Floating-point rounding: clocks and scores are reals.
- `call_with_retry`: up to five attempts, each after a limiter wait, with a sleep that doubles after each rate-limit error; other errors are raised at once.
- `plan_pre_embed`: which texts are not cached yet; the batches it leads to are arbitrary new ones.
- Completion reasons, timings, trial logs, best-trial payloads and `sampler_candidate_exhaustion`: derived from the status and counts that are modelled.
- ResultsAnalyzer.AnalyzeResults: a detailed hit is its configuration, query and score; the run and chunk columns copied into it for display, and the rounding of its raw score, are not modelled.
- Columns of a run that comparison and signatures only carry along: one value stands for those that are compared together.
- `chunk_fixed` slices by a fixed stride and the recursive and token chunkers call libraries; version bumping, settings pairing rules, the provider registry and db-stats are look-ups and short case analysis with no state of their own.
- scripts/migrate/migrate_run_state_to_sqlite.py, promotion of a merged file and backup verification: driver and file operations.
- SweepRunner.RunSweepInner: a run's row is added when the run is submitted, where the code adds it when a worker starts the run; both are there once the sweep has drained.
- ExperimentControl.StepKeepsInv: API handlers are single steps; a handler suspended between its read and its write is not modelled.
