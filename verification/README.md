# Verified model of the training store's long-running services

This project models the durable protocols of the repository in Dafny and proves what they promise over
whole runs. Every store transaction is one atomic step on shared rows; any number of processes
interleave their steps; steps carry clock readings; cancellation and pause signals may
arrive at every wait.

* **Analysis pipeline** (`Analysis*.dfy`, `Pipeline*.dfy`, `RoleCall.dfy`, `RunLoop.dfy`): prepare, claim,
  reserve, dispatch, settle, retry, adopt, pause, cancel, resume, recover and close, with exact accounting,
  fenced single adoption, terminal closure and the rule that a pause never becomes a cancellation.
* **Luogu synchronization** (`Luogu*.dfy`, `SyncPages.dfy`): the source-wide lease, the resumable paged scan,
  the bounded repair queue and local dispositions beside the page route, other imports and the host's startup,
  with the exact conditions of mutual exclusion, of no history gap, of no lost key and of a durable repair
  queue, and fair repair.
* **Paid reservations** (`RollingQuota.dfy`, `Assessment*.dfy`, `Coaching*.dfy`): the rolling quota, single
  flight, one call per request, and hints earned in order.
* **Bulk material refresh** (`Material*.dfy`): the mutation queue, the run line and the close barrier.
* **Editorial merge** (`EditorialMerge.dfy`) and **source gate** (`SourceGate.dfy`).

Code that only computes is modelled by functions. Code that rewrites rows step by step is modelled twice: a
function from rows to rows says what one transaction does, and a method with the loops, early returns
and rollbacks of the source is proved to leave exactly those rows. The theorems over runs are about the
functions.

Modelling choices that matter when reading a statement:

* Instants are integers (milliseconds), keys, hashes, ids and error texts are numbers; equal numbers stand for
  equal strings. A Retry-After is a real number because the runtime rounds it.
* Store transactions are serializable and roll back as a whole; the model provider, the platform pages
  and the clock are parameters.
* A Luogu account has a second writer. `sync.page` (`src/plugin/business-api.ts:774-840`), which the buttons of
  `src/ui/Imports.tsx:23-28` call, commits pages of the same stream and moves the same checkpoint with no lease and
  no commit hook (`src/application/import-service.ts:650`). It is `OtherPageStep`: it writes rows, checkpoint and
  chain and leaves the row of the service alone. Manual documents and catalogue imports are `OtherImportStep`, and
  the startup that clears dead leases (`src/plugin/luogu-host.ts:228-265`) is `RecoverStep`. With the page route
  two promises of the service's comments fail, and the theorems say exactly when:
  `LuoguBacklog.NoKeyIsLostExactlyWhen` and `LuoguHistory.NoHistoryGapExactlyWhen`, with the failing runs
  `LuoguBacklog.APageWithoutTheHookLosesAKey` and `LuoguGaps.AnothersBoundLosesHistory`. The statements for runs
  without that route are corollaries (`LuoguBacklog.NoKeyIsLost`, `LuoguSoleWriter.NoGapWithoutOtherPages`).
* The history theorem rests on the contract written at `src/application/luogu-session.ts:46-47`: a chain of pages
  walked from no cursor to the end returned everything of its window that the platform held when its first
  page was fetched. For that platform it is exact. What finished scans cover is kept as one instant per account: a
  finished scan moves it to its first page when its window begins no later than one millisecond after it. Even
  without the page route, a reconciliation that is reserved but never reads, followed by a resume that finishes the
  old scan, makes the condition fail (`LuoguGaps.ResumeBeforeRestartLosesHistory`).
* A page is fetched after its caller read the checkpoint, so not before that checkpoint was committed. The stored
  accounts are those ever stored. A problem row stands for its key and whether it carries a statement.
* A claim and a lease renewal may read the clock before their transaction, as the code does.
  `LuoguLease.AtMostOneLeaseEver` says exactly which renewals break exclusion, and
  `LuoguDurable.RepairQueueIsDurableExactlyWhen` which steps outdate the queue of a repair pass; the fairness bounds
  hold for runs without the latter. History, lost keys and the bounds of the backlogs need neither.
* The transactions of the Luogu model read one clock that never steps back, shared by all services; only
  the readings just named may be older. Exclusion needs it at every step, since a lapsed lease would be live
  again beside its successor, and so do history markers and page instants. The turns of the source gate need a
  clock that does not run back during one operation. The pipeline and both paid services need neither: there
  every step carries an arbitrary reading.
* A new snapshot becomes the head only with a higher version, and human revisions only increase.
* Settings of the paid services may change at any time below a bound; the quotas hold for that bound.
* In the material service a finished run is released in the step that finishes it, store writes succeed, and the
  claim section may or may not have rechecked the closing flag before its write. The close of the model is the
  first one; a repeated close only waits for the runs it finds and is no barrier
  (`MaterialBarrier.RepeatedCloseMayBeEarly`). The only caller, `src/plugin/index.ts:184`, closes once.

Where code and its comments differ: the comment in `prepareBatch` says that ownership per snapshot keeps two
concurrent runs of one snapshot apart. A failed batch does not count as active there, and neither `resume`
nor `pause` of one looks again, so two active batches can name one job (`PipelineOverlap.ActiveBatchesMayShareAJob`);
`PipelineOverlap.OneActiveExactlyWhen` says exactly when. Adoption
stays single all the same, because it is fenced by the job row (`PipelineTheorems.AdoptionIsFenced`).

## Model

| member | source | states |
|---|---|---|
| `PipelineTheorems.ExactAccounting` | src/application/analysis-pipeline.ts:1401-1506 | In every state any run can reach, a batch has spent exactly as many analysis calls as it has analysis and verification attempt rows and as many reasoning calls as it has reasoning rows; the same holds per job |
| `PipelineTheorems.CountersNeverDecrease` | src/application/analysis-pipeline.ts:1486-1505 | Nothing that happens later, crashes and recoveries included, lowers a batch counter or loses an attempt row |
| `PipelineTheorems.SpendingStaysWithinLimits` | src/application/analysis-pipeline.ts:1453-1458 | All batches of a run stay within their limits up to any point exactly when no accepted resume before it set a limit below what its batch had spent |
| `PipelineTheorems.StepWithinLimitsExactlyWhen` | src/application/analysis-pipeline.ts:816-857 | One step lets a batch exceed its limits exactly when it is such a resume |
| `PipelineTheorems.AdoptionIsFenced` | src/application/analysis-pipeline.ts:1751-1866 | A job is succeeded exactly when one adoption step of the run committed for it, at most one ever does, and at that instant batch and job ran under that worker with unexpired leases while head and human revision equalled the captured ones |
| `PipelineTheorems.PreparedBatchCapturesRevisions` | src/application/analysis-pipeline.ts:586-603 | A batch is prepared for current heads only and each entry records the human revision of that moment |
| `PipelineTheorems.HumanDecisionBlocks` | src/application/analysis-pipeline.ts:1803-1809 | Once a human decided after the capture, no worker can adopt that entry at any later instant |
| `PipelineTheorems.ReplacedMaterialBlocks` | src/application/analysis-pipeline.ts:1790-1802 | Once the head of a problem moved, an entry prepared against the old material can never be adopted again |
| `PipelineTheorems.TerminalForever` | src/application/analysis-pipeline.ts:786-807 | A completed or cancelled batch keeps its status for ever, over succeeded respectively stopped jobs only |
| `PipelineTheorems.StoppedJobsAreFrozen` | src/domain/analysis.ts:587-732 | A succeeded or cancelled job row is never written again by any step of any worker |
| `PipelineTheorems.RunningMeansLeased` | src/application/batch-types.ts:317-336 | A stored batch is running exactly when it has an owner, and exactly when its lease outlives its last write |
| `PipelineTheorems.LogicalInstantIsLeast` | src/application/analysis-pipeline.ts:2178-2193 | The adoption instant of a checked run is the least one not before the clock and strictly after every result and AI decision of the problem |
| `PipelineTheorems.AdoptionOrderIsTimeOrder` | src/application/analysis-pipeline.ts:1814-1841 | Whatever the clocks do, a checked result is strictly newer than every result adopted before it for its problem |
| `PipelineTheorems.RunKeeps` | src/application/analysis-pipeline.ts:433-2087 | Coherent rows, true closures, double-entry accounts and the adoption log are kept, and history only extended, by every run of every mix of transactions |
| `PipelineSafety.StepKeeps` | src/application/analysis-pipeline.ts:433-2087 | The same for one step of any worker |
| `PipelineTheorems.StepAppends` | src/application/analysis-pipeline.ts:1848-1857 | Only an adoption whose fence is open appends a result, and exactly one |
| `PipelineOverlap.ActiveBatchesMayShareAJob` | src/application/analysis-pipeline.ts:482-509 | A reachable state with two pending batches naming one job: a failed batch is not active for preparation and resuming it does not look again |
| `PipelineOverlap.OneActiveExactlyWhen` | src/application/analysis-pipeline.ts:482-509 | No snapshot is scheduled by two active batches throughout a run exactly when no resume and no pause of it revives a failed batch whose snapshots another active batch schedules |
| `PipelineOverlap.StepOverlapsExactlyWhen` | src/application/analysis-pipeline.ts:482-509 | The same for one step of any worker |
| `AnalysisJobs.TransitionJob` | src/domain/analysis.ts:587-732 | A stopped job accepts nothing, only an accepted call inside its limit spends and exactly one unit of its kind, lease and result fields follow the status |
| `AnalysisPipeline.FirstContinuable` | src/application/analysis-pipeline.ts:533-542 | The job a preparation continues is unfinished work of that snapshot, and none is found only if there is none |
| `PipelineStore.PrepareBatch` | src/application/analysis-pipeline.ts:445-603 | The preparation loop commits all requested entries as one pending batch or rolls everything back |
| `PipelineStore.CancelPersisted` | src/application/analysis-pipeline.ts:786-807 | Cancellation stops every unfinished job of the batch and the batch in one transaction, and never a completed one |
| `PipelineStore.Resume` | src/application/analysis-pipeline.ts:816-857 | Resuming requeues quota-paused and failed jobs only and refuses running and terminal batches |
| `PipelineStore.ReclaimJob` | src/application/analysis-pipeline.ts:2004-2032 | A job without a live lease is requeued and every reserved call of it becomes uncertain, or nothing changes |
| `PipelineStore.OrphanEach` | src/application/analysis-pipeline.ts:2018-2030 | The stamping loop reaches every reserved call of the job, and stops exactly at one requested after the recovery instant |
| `PipelineStore.ClaimJobForBatch` | src/application/analysis-pipeline.ts:1015-1126 | A job is started under the batch lease, or failed when its basis moved, with the batch renewed in the same transaction |
| `PipelineStore.ReserveAttempt` | src/application/analysis-pipeline.ts:1401-1506 | A granted call writes its attempt row, one unit of job budget, one unit of batch budget and both leases together, and nothing otherwise |
| `PipelineStore.PlanRetry` | src/application/analysis-pipeline.ts:1567-1603 | A retry is counted and restarted only while this worker still owns batch and job |
| `PipelineStore.PersistQuotaPause` | src/application/analysis-pipeline.ts:1606-1628 | A quota stop pauses job and batch together |
| `PipelineStore.CountStatuses` | src/application/analysis-pipeline.ts:2041-2049 | The status loop of closing a run sees every job, an unstored one as failed |
| `PipelineStore.Finalize` | src/application/analysis-pipeline.ts:2035-2087 | A run closes its batch as the statuses of its jobs say |
| `PipelineStore.NextLogicalInstant` | src/application/analysis-pipeline.ts:2178-2193 | The two loops compute the logical adoption instant |
| `PipelineStore.SettledUsage` | src/application/analysis-pipeline.ts:1995-2002 | Recorded usage is the sum over the settled attempts of this batch job that carry usage |
| `PipelineStore.CheckFence` | src/application/analysis-pipeline.ts:1755-1813 | The reads of an adoption pass exactly when the fence is open and no stop was seen; a refusal is a cancellation only for a cancelled token without a pause |
| `PipelineStore.WriteAdoption` | src/application/analysis-pipeline.ts:1814-1866 | The four writes of an adoption are all kept or all rolled back, at every stop point |
| `PipelineStore.CommitAdoption` | src/application/analysis-pipeline.ts:1734-1867 | An adoption is written whole exactly when no stop point saw a signal and the fence was open, and otherwise leaves the store as it was |
| `RoleCall.CallRole` | src/application/analysis-pipeline.ts:1283-1355 | At most maxRetries + 1 distinct calls are dispatched, none of which had a row before, all but the last settled with known usage and a retryable error, and the retry counter rose at least once for each repetition, whatever other workers do in between |
| `PipelineDispatch.EveryDispatchIsReserved` | src/application/analysis-pipeline.ts:1283-1300 | Over every run of every worker, crash and recovery, each dispatched call has its own attempt row and none is dispatched twice |
| `PipelineDispatch.DispatchesWithinCounters` | src/application/analysis-pipeline.ts:1401-1506 | A batch never dispatched more analysis and verification calls than its analysis counter says, nor more reasoning calls than its reasoning counter says |
| `PipelineDispatch.InvocationsAddUp` | src/application/analysis-pipeline.ts:1283-1355 | The calls of one role call, appended to a log of distinct recorded calls, give one again |
| `RoleCall.NextCall` | src/application/analysis-pipeline.ts:1377-1507 | A call is dispatched only after its own attempt row was reserved |
| `RunLoop.BatchRun.Deliver` | src/application/analysis-pipeline.ts:742-754 | A pause sets its flag before it cancels the token |
| `RunLoop.BatchRun.Commit` | src/application/analysis-pipeline.ts:1684-1714 | A refused commit becomes a terminal cancellation only if the first signal of the run was one |
| `RunLoop.BatchRun.Run` | src/application/analysis-pipeline.ts:622-719 | For every schedule of signals and other workers, a run cancels its batch terminally only if the first signal it received was a cancellation; a pause never becomes one |
| `LuoguSyncState.LeaseIsFreeOursOrTheirs` | src/application/luogu-sync-types.ts:368-407 | At every instant a lease is free, ours or another owner's, never two of these |
| `LuoguSyncState.ClearIssues` | src/application/luogu-sync-types.ts:857-862 | Clearing drops exactly the diagnostics of the given keys |
| `LuoguSyncState.UpsertIssue` | src/application/luogu-sync-types.ts:847-855 | A new diagnostic replaces the one of its key and no other |
| `LuoguSyncState.Enqueued` | src/application/luogu-sync-service.ts:2281-2293 | Queued keys keep their place, every unsuppressed key is added once, the bound is never exceeded and never hit while there is room |
| `LuoguLease.AtMostOneLeaseEver` | src/application/luogu-sync-service.ts:1789-1887 | Up to any point of a run at most one account of the source is leased, then and at every later instant, exactly when no renewal before it prolonged, on an old reading, a lapsed lease after another account was claimed |
| `LuoguLease.WritersHoldTheSource` | src/application/luogu-sync-service.ts:2274-2280 | While no renewal was stale, every page, repair, failed retry and disposition batch is written by the holder of the only live lease, and every renewal by the holder at the instant it read |
| `LuoguLease.ClaimExcludes` | src/application/luogu-sync-service.ts:1795-1829 | A claim that read its clock before its transaction still excludes every lease live at the transaction |
| `LuoguLease.RenewalWithAnOldReading` | src/application/luogu-sync-service.ts:2597-2622 | A renewal with an old clock reading keeps the source exclusive exactly when its deadline is already over or nobody else took the source meanwhile |
| `LuoguLease.OldReadingBreaksExclusion` | src/application/luogu-sync-service.ts:2598 | A run of two claims and one renewal with an old reading that ends with two live leases |
| `LuoguLease.OthersUntouched` | src/application/luogu-sync-service.ts:1789-2622 | No step of another service, import or startup changes the row of a lease holder, and nothing it sees of its scan but a page the page route commits without a lease |
| `LuoguHistory.NoHistoryGapExactlyWhen` | src/application/luogu-sync-service.ts:1838-1886 | Up to any point of a run of any services, page requests and imports, for every account and whatever honest platform was read, every submission up to the last completed scan start is stored, exactly as long as every page of the service that completed a scan either did so under a marker no newer than the first page of that scan, with a window joining what the finished scans of anybody covered, or under a marker covered before |
| `LuoguSoleWriter.NoGapWithoutOtherPages` | src/application/luogu-sync-service.ts:1838-1886 | When no page is committed without the lease, the condition is the marker alone: it must be no newer than the first page of its scan |
| `LuoguSoleWriter.JoiningIsEnough` | src/application/luogu-sync-service.ts:2293-2303 | In every run, whoever pages, it is enough that each completing scan has such a marker and begins no later than the scan start its own row recorded |
| `LuoguSoleWriter.RestartsFirstIsEnough` | src/application/luogu-sync-service.ts:1846-1857 | While only the service pages, every marker is timely when no claim resumes an old scan before a reserved reconciliation committed its first page |
| `LuoguSoleWriter.NoHistoryGap` | src/application/luogu-sync-service.ts:1838-1886 | So no submission up to a recorded scan start is missing in such a run, through interruptions, incremental windows and reconciliations |
| `LuoguHistory.MisfitLosesHistory` | src/application/luogu-sync-service.ts:2294-2303 | For every completion under a marker that is not covered there is an honest platform one of whose submissions is missing |
| `LuoguHistory.CompleteMeansIncremental` | src/application/luogu-sync-service.ts:2293-2313 | In every reachable state the history counts as complete exactly in the incremental phase |
| `LuoguHistory.CompleteScanCovers` | src/application/luogu-sync-service.ts:2293-2313 | A walked chain whose window joins what was covered leaves everything up to its first page stored |
| `LuoguGaps.ResumeBeforeRestartLosesHistory` | src/application/luogu-sync-service.ts:1846-1857 | A concrete run in which a resume follows a reserved reconciliation that never read: the watermark covers a submission that is not stored |
| `LuoguGaps.AnothersBoundLosesHistory` | src/plugin/business-api.ts:826-835 | A concrete run in which the page route starts a bounded scan and a resume finishes it under an older marker: the history counts as complete and a submission from before the bound is not stored |
| `LuoguGaps.AnothersScanIsJoined` | src/plugin/business-api.ts:826-835 | The same run after a full scan by the page route loses nothing, although the row of the service records no earlier scan |
| `LuoguBacklog.NoKeyIsLostExactlyWhen` | src/application/import-service.ts:620-652 | Up to any point of a run every problem key of the stored history has its problem stored, or waits in a backlog, or carries a disposition, exactly when every page committed without the hook of the service brought only such keys |
| `LuoguBacklog.NoKeyIsLost` | src/application/luogu-sync-service.ts:2257-2293 | So no key is ever lost while only the service pages the streams of its accounts |
| `LuoguBacklog.APageWithoutTheHookLosesAKey` | src/plugin/business-api.ts:826-835 | A concrete run: one page request stores a submission whose problem nobody will fetch |
| `LuoguBacklog.BacklogsStayValid` | src/application/luogu-sync-types.ts:650-690 | Backlogs never repeat a key or exceed 2000, and every diagnostic names a queued key |
| `LuoguBacklog.PagesNeverDropKeys` | src/application/luogu-sync-service.ts:2257-2293 | After the check for room, a page is never refused for truncated keys or a full backlog |
| `LuoguDurable.RepairQueueIsDurableExactlyWhen` | src/application/luogu-sync-service.ts:2386-2497 | Up to any point of a run the queue of every repair pass that holds its lease is the durable backlog, exactly when no renewal took up a lapsed lease over a changed row and no disposition took a key from a queue that the holder of another live lease was working through |
| `LuoguDurable.RepairQueueIsDurable` | src/application/luogu-sync-service.ts:2386-2497 | So in such a run a repair pass that holds its lease works through the durable backlog |
| `LuoguDurable.LiveRenewalsAreEnough` | src/application/luogu-sync-service.ts:2597-2622 | Neither happens when every renewal finds its lease still live |
| `LuoguBacklog.ManageTracks` | src/application/luogu-sync-service.ts:1207-1282 | Skip, trash and restore keep every key accounted for |
| `LuoguStore.SyncStore.TakeLease` | src/application/luogu-sync-service.ts:1789-1887 | The claim scans every account and either takes the slot with its page plan or writes nothing |
| `LuoguStore.SyncStore.CommitOnePage` | src/application/luogu-sync-service.ts:2257-2316 | Rows, checkpoint, progress and backlog of a page commit together or the stated refusal leaves everything |
| `LuoguStore.SyncStore.PushMissing` | src/application/luogu-sync-service.ts:2281-2293 | The enqueue loop, including its refusal of a full backlog |
| `LuoguStore.SyncStore.CleanQueues` | src/application/luogu-sync-service.ts:1207-1282 | Every account of the source drops the disposed keys and their diagnostics, nothing else |
| `LuoguStore.SyncStore.ManageProblems` | src/application/luogu-sync-service.ts:1083-1153 | Dispositions and queue cleanup commit together; a conflict or an overflow rolls both back |
| `LuoguStore.SyncStore.RecoverLeases` | src/plugin/luogu-host.ts:228-265 | The startup walk gives every account its row and clears exactly the leases that are over |
| `LuoguRepair.RepairMetadata` | src/application/luogu-sync-service.ts:2358-2499 | The loop requests each key at most once and at most the bound, and leaves the unreached keys first and the failed ones after them in attempt order, nothing else removed but repaired or disposed keys |
| `LuoguRepair.RepairOne` | src/application/luogu-sync-service.ts:2413-2554 | The lease is renewed before the anonymous and before the authenticated request; one item is dequeued, repaired or rotated, or a lost lease leaves the backlog alone |
| `LuoguRepair.PassesKeepPace` | src/application/luogu-sync-service.ts:2413-2497 | A pass examines at least one key, and its bound unless it stopped early or ran out |
| `LuoguFairness.EveryKeyIsReached` | src/application/luogu-sync-service.ts:2409-2446 | In every state of a run that outdates no queue, a key at position p of a backlog is examined, or leaves the backlog, by the time p + 1 keys of that account were examined, whatever pages, retries and dispositions do in between |
| `LuoguFairness.OneRequestPerPassSuffices` | src/application/luogu-sync-service.ts:2409-2446 | So within p + 1 stretches of a run that each examine one key |
| `LuoguFairness.FullPassesSuffice` | src/application/luogu-sync-service.ts:2409-2446 | And within the ceiling of (p + 1) / bound stretches that each examine the bound, or all that waits |
| `LuoguFairness.StepAdvances` | src/application/luogu-sync-service.ts:1207-1293 | No other step of any service moves a waiting key back |
| `LuoguFairness.PassIsARun` | src/application/luogu-sync-service.ts:2386-2497 | What the repair loop leaves after n keys is what a run leaves that examines them one by one |
| `SyncPages.EveryPageFollowsThePrevious` | src/application/import-service.ts:548-657 | With any number of writers, every committed continue page was fetched with exactly the cursor and bound the previous commit left, and a start follows only a finished scan |
| `SyncPages.ScanIsOneChain` | src/application/import-service.ts:548-657 | The pages since the latest start or restart are one contiguous chain under one bound, complete only at its end |
| `SyncPages.StreamStore.SyncPage` | src/application/import-service.ts:485-657 | One call commits rows and checkpoint together exactly when the request has a position, the page moves on, nobody moved the checkpoint and the hook accepts; a refused call leaves rows, checkpoint and log to the others, and completion is reported exactly at the end |
| `SyncPages.CountMissing` | src/application/import-service.ts:1123-1156 | The page loop counts every distinct missing problem and names the first fifty |
| `SyncPages.Missing` | src/application/import-service.ts:1123-1156 | The missing keys are exactly those of items whose problem is not visible, each once |
| `AssessmentRuns.SingleFlight` | src/application/assessment-service.ts:679-690 | At most one assessment row is reserved in the whole table, so a recovery walk is never truncated |
| `AssessmentRuns.QuotaOverEveryWindow` | src/application/assessment-service.ts:691-702 | Every closed 24-hour window holds at most the allowed number of charged rows, with no assumption on clocks |
| `RollingQuota.EveryWindowIsWithinQuota` | src/application/coaching-service.ts:724-736 | The last grant inserted into a window saw all the others, so the window is within quota |
| `AssessmentRuns.OnePaidCallPerRequest` | src/application/assessment-service.ts:777-853 | Over all instances, crashes, cancels and recoveries a request id is dispatched at most once |
| `AssessmentRuns.RevisionFollowsStatus` | src/application/assessment-types.ts:305-364 | The revision is a function of the status |
| `AssessmentRuns.TerminalRowsAreFrozen` | src/application/assessment-types.ts:305-364 | Settled, uncertain and cancelled rows never change |
| `AssessmentRuns.ReportsRestOnAnUnchangedBasis` | src/application/assessment-service.ts:864-950 | A stored report means settings revision and model agreed when its preparation read them, the evidence hash when it captured them after that, and both when the call was reserved and settled |
| `Assessment.SettlementIsLegal` | src/application/assessment-service.ts:953-985 | Every settlement write is a legal move of a reserved row, whatever clock and provider say |
| `Assessment.CancellationIsLegalExactlyWhen` | src/application/assessment-service.ts:534-551 | Cancelling a prepared row is accepted exactly when the clock did not fall behind its preparation |
| `AssessmentStore.AttemptTable.PrepareOwned` | src/application/assessment-service.ts:370-410 | A preparation inserts what it read before its transaction, whatever others did meanwhile; a replay of a known request changes nothing |
| `AssessmentStore.AttemptTable.RecoverExpired` | src/application/assessment-service.ts:733-770 | The walk turns exactly the expired reservations uncertain and returns the live ones |
| `AssessmentStore.AttemptTable.ReserveOwned` | src/application/assessment-service.ts:653-724 | One transaction decides settings, flight, quota and evidence; refusals keep its recoveries and stale evidence rolls them back |
| `AssessmentStore.AttemptTable.CommitSettlement` | src/application/assessment-service.ts:953-985 | A row recovered or settled meanwhile is not rewritten |
| `AssessmentStore.AttemptTable.CancelOwned` | src/application/assessment-service.ts:534-551 | A prepared row closes as a known-zero cancellation |
| `CoachingRuns.HintsAreEarnedInOrder` | src/application/coaching-service.ts:738-750 | Every hint ever reserved was preceded by settled answers of all lower hints on the same account, problem and snapshot; the full solution is exempt |
| `CoachingRuns.EveryRequestIsWellFormed` | src/application/coaching-generation.ts:147-191 | Every request built in a reachable state passes the generator contract: at most three distinct strictly lower hints with text |
| `CoachingRuns.ConcurrencyIsBounded` | src/application/coaching-service.ts:713-723 | Never more reserved rows than the allowed concurrency, and one even when none is allowed |
| `CoachingRuns.QuotaOverEveryWindow` | src/application/coaching-service.ts:724-736 | Every closed 24-hour window holds at most the allowed number of rows, of whatever status |
| `CoachingRuns.SettledAnswersAreFrozen` | src/application/coaching-types.ts:201-233 | A settled answer is never rewritten |
| `Coaching.LatestSuccessIsNewest` | src/application/coaching-service.ts:823-840 | Over the ordered listing a level counts as earned exactly when it is, and its newest answer is used |
| `Coaching.LevelsBelow` | src/application/coaching-service.ts:1395-1397 | The levels below a level, ascending; the full solution stands above all three |
| `Coaching.CheckGeneration` | src/application/coaching-generation.ts:147-191 | The check accepts exactly the well-formed hint lists |
| `CoachingStore.AttemptTable.RecoverExpiredReservations` | src/application/coaching-service.ts:796-820 | Expired reservations become uncertain and the rest are returned |
| `CoachingStore.AttemptTable.LowerLevelSuccesses` | src/application/coaching-service.ts:823-840 | One walk finds the latest success of every level |
| `CoachingStore.AttemptTable.BuildHints` | src/application/coaching-service.ts:751-757 | The hints of a request are the latest successes of the lower levels |
| `CoachingStore.AttemptTable.ReserveOwned` | src/application/coaching-service.ts:658-783 | One transaction recovers, deduplicates, guards settings, head, concurrency, quota and progression, and writes the reservation |
| `CoachingStore.AttemptTable.SaveSettlement` | src/application/coaching-service.ts:1012-1034 | A settlement is written only along a legal change |
| `MaterialBarrier.CloseIsABarrier` | src/application/material-refresh-batch-service.ts:540-559 | Once the first close resolved, no later step of any queued call, section, run or late item writes a batch or claims a run |
| `MaterialBarrier.RepeatedCloseMayBeEarly` | src/application/material-refresh-batch-service.ts:534-539 | A close called again while the first one drains may resolve before a start writes its batch and claims its run |
| `MaterialBarrier.ClosedIsTruthful` | src/application/material-refresh-batch-service.ts:534-559 | After close every run is over or detached and no batch this process started is durably running |
| `MaterialBarrier.OneRunAtATime` | src/application/material-refresh-batch-service.ts:608-614 | At most one run of the service executes at a time |
| `MaterialBarrier.CompletedItemsStay` | src/application/material-refresh-batch-types.ts:970-1031 | No cancel, retry, interruption or late outcome repeats or loses a completed item |
| `MaterialBarrier.StepAdvances` | src/application/material-refresh-batch-types.ts:970-1031 | Every step moves every batch along a change the store accepts |
| `MaterialBatches.OutcomesAreAlwaysRecorded` | src/application/material-refresh-batch-types.ts:690-833 | A running batch can always record the outcome of its item, settle or be interrupted |
| `MaterialBatches.LastOutcomeSettles` | src/application/material-refresh-batch-types.ts:1390-1408 | After an outcome a batch is running exactly while work is left and completed exactly when all items are |
| `MaterialBatches.RetryUndoesCancel` | src/application/material-refresh-batch-types.ts:840-921 | Any batch that is not over can be cancelled, and retrying it leaves exactly its unfinished items waiting, prepared or paused as its history says and ready to start; a batch at rest without failures comes back as it was |
| `MaterialRefreshService.BatchService.RecoverSection` | src/application/material-refresh-batch-service.ts:494-510 | Recovery interrupts exactly the running batches this process does not own |
| `MaterialRefreshService.BatchService.NextItem` | src/application/material-refresh-batch-service.ts:634-655 | A run begins its first pending item, or settles and ends |
| `MaterialRefreshService.BatchService.CancelOwnedRuns` | src/application/material-refresh-batch-service.ts:546-549 | After the drain every owned run is cancelled |
| `EditorialMerge.MergeStaysWellFormed` | src/application/import-service.ts:1810-1892 | Unique source ids, unique sort keys of solutions and present sources survive every merge of a well-formed answer |
| `EditorialMerge.FoundStaysWellFormed` | src/application/import-service.ts:1827-1856 | A found merge is ordered by stable id and carries no solution without its source |
| `EditorialMerge.FoundMaterialSurvives` | src/application/import-service.ts:1834-1878 | No answer removes found material it does not name, nor its solutions |
| `EditorialMerge.MergeIsIdempotent` | src/application/import-service.ts:1810-1892 | Merging an answer twice is merging it once |
| `EditorialMerge.FoundMergeIsIdempotentExactlyWhen` | src/application/import-service.ts:1840-1848 | A found merge is idempotent exactly when the solutions of the answer belong to its own sources |
| `EditorialMerge.SolutionIdsStayUniqueExactlyWhen` | src/domain/snapshot.ts:183-191 | A found merge keeps solution ids unique exactly when the ids of the answer are and none is still used by a kept solution |
| `EditorialMerge.RepeatedAnswerIsAcceptedExactlyWhen` | src/domain/snapshot.ts:170-199 | A stored answer is accepted a second time exactly when its solutions belong to its own sources, and then changes nothing |
| `EditorialMerge.StrayAnswerIsRefusedTheSecondTime` | src/application/import-service.ts:1840-1848 | A concrete answer, accepted once, whose repetition would repeat a solution id |
| `EditorialMerge.AnswerOrderIsIrrelevant` | src/application/import-service.ts:1988-1999 | The order in which an answer lists its material does not matter |
| `EditorialMerge.IndependentAnswersCommute` | src/application/import-service.ts:1834-1848 | Found answers with disjoint names and check ids commute |
| `SourceGate.OperationsAreSpaced` | src/application/luogu-source-gate.ts:153-189 | Every operation starts at least the interval after every earlier one ended and not before any deadline an earlier one declared |
| `SourceGate.TurnsAreFirstInFirstOut` | src/application/luogu-source-gate.ts:158-190 | Calls have their turns in arrival order and none is lost |
| `SourceGate.CancelledWaiterChangesNothing` | src/application/luogu-source-gate.ts:150-166 | A waiter cancelled before or during its wait gives up its place and changes neither the floor, the deadline nor the order |
| `SourceGate.DeadlineOnlyMovesForward` | src/application/luogu-source-gate.ts:138-145 | The provider deadline never moves back |
| `SourceGate.RoundingIsFaithfulExactlyWhen` | src/application/luogu-source-gate.ts:143 | Rounding honours a declared delay in full exactly when it has no fraction below one half |
| `SourceGate.LuoguSourceGate.TakeTurn` | src/application/luogu-source-gate.ts:158-189 | A turn waits for the later of floor and deadline, records the declared delay before it ends, and a cancelled one changes nothing but the queue |
| `SourceGate.LuoguSourceGate.RecordRetryAfter` | src/application/luogu-source-gate.ts:138-145 | Only a positive finite delay is folded in, and only forward |

## Left out

- LuoguSoleWriter.NoHistoryGap: the sufficient rule a caller can keep; the exact condition is `LuoguHistory.NoHistoryGapExactlyWhen`.
- LuoguSoleWriter.JoiningIsEnough: one direction only; `LuoguGaps.AnothersScanIsJoined` is a run that loses nothing and fails it, and the exact condition is `LuoguHistory.NoHistoryGapExactlyWhen`.
- LuoguFairness.EveryKeyIsReached: speaks of runs that outdate no queue, which `LuoguDurable.RepairQueueIsDurableExactlyWhen` characterises.
- LuoguBacklog.NoKeyIsLost: the corollary for runs without the page route; the exact condition is `LuoguBacklog.NoKeyIsLostExactlyWhen`.
- MaterialBarrier.CloseIsABarrier: speaks of the first close.
- LuoguLease.WritersHoldTheSource: speaks of runs without stale renewals, which `LuoguLease.AtMostOneLeaseEver` characterises.
- LuoguRepair.RepairMetadata: the stored failure record of a pass, its pause and its backoff are not modelled.
- SourceGate.OperationsAreSpaced: a turn whose clock runs back during its operation is not a turn of the model.
- CoachingStore.AttemptTable.ReserveOwned: the store's page listing of settled rows is a parameter; `Coaching.LatestSuccessIsNewest` says what a complete ordered listing yields.
- MaterialBarrier.ClosedIsTruthful: store writes are taken to succeed; a refused interruption would leave its batch as it was.
- Plain field validation (exact keys, text bounds, ISO parsing, URL rules), hashing and canonical JSON: single-branch data checks.
- Tag decision resolution, snapshot hashing, taxonomy and completeness content: uninterpreted; an adoption takes its resolved decisions and its checked flag as given.
- Reuse of an already paid analysis pass after a resume: it only skips a call.
- The run summary, job outcomes, recovery reports and status views: projections of the rows.
- Luogu failure records, backoff and next due instant, automation settings, connect, probe, nickname refresh and credential handling.
- Sweeps, the in-process running slot and the queued reconciliation of the Luogu service: the model lets every service claim at any time.
- Problem catalogue pages and their snapshots (`writeProblems`), statement refresh and mirror selection of the import service.
- Assessment and coaching prompts, evidence capture, reports' content, history pages and views.
- Attempt counters and failure details of material items, and the classification of refresh reports.
- The close deadline timer of the material service: it may expire at any step.
- The SQLite store, HTTP adapters, model gateway and credential vault are not part of this model.
