/**
 * Any number of pipeline instances interleaving their transactions on one store.
 *
 * A run is a sequence of steps; every step carries the clock reading of its transaction, and no
 * order between readings is assumed.
 */
module PipelineRuns {
  import opened Prelude
  import opened AnalysisJobs
  import opened AnalysisBatches
  import opened AnalysisPipeline

  datatype Step =
    | PrepareStep(request: PrepareRequest, at: Instant)
    | PauseStep(b: BatchId, at: Instant)
    | CancelStep(b: BatchId, at: Instant)
    | ResumeStep(b: BatchId, limits: Limits, at: Instant)
    | RecoverBatchStep(b: BatchId, at: Instant)
    | RecoverJobStep(j: JobId, at: Instant)
    | ClaimBatchStep(w: Worker, b: BatchId, at: Instant)
    | ClaimJobStep(w: Worker, b: BatchId, k: nat, at: Instant)
    | ReserveStep(w: Worker, b: BatchId, k: nat, role: Role, id: AttemptId, at: Instant)
    | SettleStep(id: AttemptId, reply: Reply, at: Instant)
    | RetryStep(w: Worker, b: BatchId, k: nat, at: Instant)
    | PauseQuotaStep(w: Worker, b: BatchId, k: nat, at: Instant)
    | ReleaseStep(w: Worker, j: JobId, at: Instant)
    | FailStep(w: Worker, j: JobId, at: Instant)
    | AdoptStep(w: Worker, b: BatchId, k: nat, content: Content, at: Instant)
    | FinalizeStep(w: Worker, b: BatchId, at: Instant)
    | ManualDecisionStep(problem: ProblemKey)
    | NewSnapshotStep(id: SnapshotId, snapshot: Snapshot)

  /** A human decision advances the revision of its problem by one. */
  function DecideManually(db: Db, problem: ProblemKey): Db {
    db.(manualRevisions := db.manualRevisions[problem := ManualRevision(db, problem) + 1])
  }

  /** A fresh snapshot becomes the head; the head never moves back. */
  function StoreSnapshot(db: Db, id: SnapshotId, snapshot: Snapshot): Db {
    if id in db.snapshots || (snapshot.problem in db.heads && db.heads[snapshot.problem].version >= snapshot.version)
      then db
    else db.(snapshots := db.snapshots[id := snapshot],
             heads := db.heads[snapshot.problem := Head(id, snapshot.contentHash, snapshot.version)])
  }

  function Next(db: Db, step: Step): Db {
    match step
    case PrepareStep(request, at) => Prepare(db, request, at)
    case PauseStep(b, at) => PauseBatch(db, b, at)
    case CancelStep(b, at) => CancelBatch(db, b, at)
    case ResumeStep(b, limits, at) => ResumeBatch(db, b, limits, at)
    case RecoverBatchStep(b, at) => RecoverBatch(db, b, at)
    case RecoverJobStep(j, at) => RecoverJob(db, j, at)
    case ClaimBatchStep(w, b, at) => ClaimBatch(db, w, b, at)
    case ClaimJobStep(w, b, k, at) => ClaimJob(db, w, b, k, at).0
    case ReserveStep(w, b, k, role, id, at) => if id in db.attempts then db else Reserve(db, w, b, k, role, id, at).0
    case SettleStep(id, reply, at) => Settle(db, id, reply, at)
    case RetryStep(w, b, k, at) => RegisterRetry(db, w, b, k, at).0
    case PauseQuotaStep(w, b, k, at) => PauseQuota(db, w, b, k, at)
    case ReleaseStep(w, j, at) => ReleaseJob(db, w, j, at)
    case FailStep(w, j, at) => FailJob(db, w, j, at)
    case AdoptStep(w, b, k, content, at) => Adopt(db, w, b, k, content, at)
    case FinalizeStep(w, b, at) => FinalizeBatch(db, w, b, at)
    case ManualDecisionStep(problem) => DecideManually(db, problem)
    case NewSnapshotStep(id, snapshot) => StoreSnapshot(db, id, snapshot)
  }

  function Run(db: Db, steps: seq<Step>): Db {
    if steps == [] then db else Next(Run(db, steps[..|steps| - 1]), steps[|steps| - 1])
  }

  // ---- Invariants ----------------------------------------------------------------------------

  ghost predicate SpecStored(db: Db, spec: BatchJob) {
    && spec.jobId in db.jobs
    && db.jobs[spec.jobId].snapshot == spec.snapshotId
    && spec.snapshotId in db.snapshots
    && (spec.manualRevision.Some? ==>
          spec.manualRevision.value <= ManualRevision(db, db.snapshots[spec.snapshotId].problem))
  }

  ghost predicate SpecsStored(db: Db, batch: Batch) {
    forall spec | spec in batch.jobs :: SpecStored(db, spec)
  }

  ghost predicate BatchesCoherent(db: Db) {
    forall b | b in db.batches :: ValidBatch(db.batches[b]) && SpecsStored(db, db.batches[b])
  }

  ghost predicate JobsCoherent(jobs: map<JobId, Job>) {
    forall j | j in jobs :: jobs[j].Coherent() && jobs[j].snapshot == j.snapshot
  }

  ghost predicate AttemptsCoherent(db: Db) {
    forall a | a in db.attempts ::
      && ValidAttempt(db.attempts[a])
      && db.attempts[a].batch in db.batches
      && db.attempts[a].job in db.jobs
  }

  ghost predicate Coherent(db: Db) {
    BatchesCoherent(db) && JobsCoherent(db.jobs) && AttemptsCoherent(db)
  }

  /** A completed batch holds succeeded jobs only; a cancelled one holds stopped jobs only. */
  ghost predicate Closure(db: Db) {
    forall b | b in db.batches :: ClosedTruthfully(db, db.batches[b])
  }

  ghost predicate ClosedTruthfully(db: Db, batch: Batch) {
    && (batch.status.Completed? ==>
          forall spec | spec in batch.jobs :: spec.jobId in db.jobs && db.jobs[spec.jobId].status.Succeeded?)
    && (batch.status.Cancelled? ==>
          forall spec | spec in batch.jobs :: spec.jobId in db.jobs && db.jobs[spec.jobId].status.Stopped())
  }

  ghost function BatchCalls(attempts: map<AttemptId, Attempt>, b: BatchId, kind: CallKind): set<AttemptId> {
    set a | a in attempts && attempts[a].batch == b && attempts[a].role.Kind() == kind
  }

  ghost function JobCalls(attempts: map<AttemptId, Attempt>, j: JobId, kind: CallKind): set<AttemptId> {
    set a | a in attempts && attempts[a].job == j && attempts[a].role.Kind() == kind
  }

  ghost predicate BatchesBalanced(batches: map<BatchId, Batch>, attempts: map<AttemptId, Attempt>) {
    forall b, kind | b in batches :: batches[b].Calls(kind) == |BatchCalls(attempts, b, kind)|
  }

  ghost predicate JobsBalanced(jobs: map<JobId, Job>, attempts: map<AttemptId, Attempt>) {
    forall j, kind | j in jobs :: jobs[j].Calls(kind) == |JobCalls(attempts, j, kind)|
  }

  /** Double entry: the attempt rows are exactly what the batch and the job counters say was spent. */
  ghost predicate Accounted(db: Db) {
    BatchesBalanced(db.batches, db.attempts) && JobsBalanced(db.jobs, db.attempts)
  }

  /** A job succeeded exactly when one record of the log is its adoption, and it points at that record. */
  ghost predicate Logged(jobs: map<JobId, Job>, analyses: seq<AnalysisRecord>) {
    && (forall j | j in jobs && jobs[j].status.Succeeded? ::
          && jobs[j].analysis.Some?
          && jobs[j].analysis.value < |analyses|
          && analyses[jobs[j].analysis.value].job == j)
    && (forall i | 0 <= i < |analyses| ::
          && analyses[i].job in jobs
          && jobs[analyses[i].job].status.Succeeded?
          && jobs[analyses[i].job].analysis == Some(i))
  }

  /** A head that moved is newer than the one it replaced. */
  ghost predicate HeadsAdvance(before: map<ProblemKey, Head>, after: map<ProblemKey, Head>) {
    forall p | p in before ::
      p in after && (after[p] == before[p] || after[p].version > before[p].version)
  }

  /** What every step keeps of the stored history, whoever takes it. */
  ghost predicate Extends(before: Db, after: Db) {
    && (forall s | s in before.snapshots :: s in after.snapshots && after.snapshots[s] == before.snapshots[s])
    && (forall p :: ManualRevision(before, p) <= ManualRevision(after, p))
    && HeadsAdvance(before.heads, after.heads)
    && (forall b | b in before.batches ::
          b in after.batches && LegalBatchChange(before.batches[b], after.batches[b]))
    && (forall j | j in before.jobs ::
          j in after.jobs && (after.jobs[j] == before.jobs[j] || JobProgress(before.jobs[j], after.jobs[j])))
    && (forall a | a in before.attempts ::
          && a in after.attempts
          && (after.attempts[a] == before.attempts[a] || LegalAttemptChange(before.attempts[a], after.attempts[a])))
    && before.analyses <= after.analyses
    && before.decisions <= after.decisions
  }

  ghost predicate Inv(db: Db) {
    Coherent(db) && Closure(db) && Accounted(db) && Logged(db.jobs, db.analyses)
  }

  // ---- Ordinary steps: nothing is spent, adopted or closed ------------------------------------

  ghost predicate QuietBatch(before: Batch, after: Batch) {
    && ValidBatch(after)
    && LegalBatchChange(before, after)
    && after.counters.analysisCalls == before.counters.analysisCalls
    && after.counters.reasoningCalls == before.counters.reasoningCalls
    && (after.status.Terminal() ==> before.status.Terminal())
  }

  ghost predicate QuietJob(before: Job, after: Job) {
    && JobProgress(before, after)
    && after.analysisCalls == before.analysisCalls
    && after.reasoningCalls == before.reasoningCalls
    && !after.status.Succeeded?
  }

  ghost predicate QuietBatches(before: map<BatchId, Batch>, after: map<BatchId, Batch>) {
    && after.Keys == before.Keys
    && forall b | b in before :: after[b] == before[b] || QuietBatch(before[b], after[b])
  }

  ghost predicate QuietJobs(before: map<JobId, Job>, after: map<JobId, Job>) {
    && before.Keys <= after.Keys
    && (forall j | j in before :: after[j] == before[j] || QuietJob(before[j], after[j]))
    && (forall j | j in after && j !in before :: after[j] == NewJob(j.snapshot))
  }

  ghost predicate QuietAttempts(before: map<AttemptId, Attempt>, after: map<AttemptId, Attempt>) {
    && after.Keys == before.Keys
    && forall a | a in before ::
         after[a] == before[a] || (LegalAttemptChange(before[a], after[a]) && ValidAttempt(after[a]))
  }

  ghost predicate Quiet(db: Db, after: Db) {
    && after.snapshots == db.snapshots
    && after.heads == db.heads
    && after.manualRevisions == db.manualRevisions
    && after.analyses == db.analyses
    && after.decisions == db.decisions
    && QuietBatches(db.batches, after.batches)
    && QuietJobs(db.jobs, after.jobs)
    && QuietAttempts(db.attempts, after.attempts)
  }

  /** Batches with the same plans stay stored while snapshots, revisions and jobs only grow. */
  lemma SpecsKeep(db: Db, after: Db, batch: Batch)
    requires SpecsStored(db, batch)
    requires forall s | s in db.snapshots :: s in after.snapshots && after.snapshots[s] == db.snapshots[s]
    requires forall p :: ManualRevision(db, p) <= ManualRevision(after, p)
    requires forall j | j in db.jobs :: j in after.jobs && after.jobs[j].snapshot == db.jobs[j].snapshot
    ensures SpecsStored(after, batch)
  {
    forall spec | spec in batch.jobs ensures SpecStored(after, spec) {
      assert SpecStored(db, spec);
    }
  }

  lemma QuietKeepsCoherence(db: Db, after: Db)
    requires Coherent(db) && Quiet(db, after)
    ensures Coherent(after)
  {
    forall b | b in after.batches ensures ValidBatch(after.batches[b]) && SpecsStored(after, after.batches[b]) {
      SpecsKeep(db, after, db.batches[b]);
      assert after.batches[b].jobs == db.batches[b].jobs;
    }
  }

  lemma QuietKeepsClosure(db: Db, after: Db)
    requires Coherent(db) && Quiet(db, after) && Closure(db)
    ensures Closure(after)
  {
    forall b | b in after.batches ensures ClosedTruthfully(after, after.batches[b]) {
      assert ClosedTruthfully(db, db.batches[b]);
      assert after.batches[b].jobs == db.batches[b].jobs;
    }
  }

  lemma QuietCalls(before: map<AttemptId, Attempt>, after: map<AttemptId, Attempt>)
    requires QuietAttempts(before, after)
    ensures forall b, kind :: BatchCalls(after, b, kind) == BatchCalls(before, b, kind)
    ensures forall j, kind :: JobCalls(after, j, kind) == JobCalls(before, j, kind)
  {
  }

  lemma QuietKeepsBatchAccounts(before: map<BatchId, Batch>, after: map<BatchId, Batch>,
                                attempts: map<AttemptId, Attempt>, later: map<AttemptId, Attempt>)
    requires QuietBatches(before, after) && BatchesBalanced(before, attempts)
    requires forall b, kind :: BatchCalls(later, b, kind) == BatchCalls(attempts, b, kind)
    ensures BatchesBalanced(after, later)
  {
    forall b, kind | b in after ensures after[b].Calls(kind) == |BatchCalls(later, b, kind)| {
      assert before[b].Calls(kind) == |BatchCalls(attempts, b, kind)|;
    }
  }

  lemma QuietKeepsJobAccounts(before: map<JobId, Job>, after: map<JobId, Job>,
                              attempts: map<AttemptId, Attempt>, later: map<AttemptId, Attempt>)
    requires QuietJobs(before, after) && JobsBalanced(before, attempts)
    requires forall j, kind :: JobCalls(later, j, kind) == JobCalls(attempts, j, kind)
    requires forall a | a in attempts :: attempts[a].job in before
    ensures JobsBalanced(after, later)
  {
    forall j, kind | j in after ensures after[j].Calls(kind) == |JobCalls(later, j, kind)| {
      if j in before {
        assert before[j].Calls(kind) == |JobCalls(attempts, j, kind)|;
      } else {
        assert JobCalls(attempts, j, kind) == {};
      }
    }
  }

  lemma QuietExtends(db: Db, after: Db)
    requires Quiet(db, after)
    ensures Extends(db, after)
      && (Logged(db.jobs, db.analyses) && JobsCoherent(db.jobs) ==> Logged(after.jobs, after.analyses))
    ensures Coherent(db) ==> forall a | a in db.attempts :: db.attempts[a].job in db.jobs
  {
  }

  lemma QuietKeeps(db: Db, after: Db)
    requires Inv(db) && Quiet(db, after)
    ensures Inv(after) && Extends(db, after)
  {
    QuietExtends(db, after);
    hide Extends, Coherent, Closure, BatchesBalanced, JobsBalanced;
    QuietKeepsCoherence(db, after);
    QuietKeepsClosure(db, after);
    QuietCalls(db.attempts, after.attempts);
    QuietKeepsBatchAccounts(db.batches, after.batches, db.attempts, after.attempts);
    QuietKeepsJobAccounts(db.jobs, after.jobs, db.attempts, after.attempts);
  }

  // Single-row writes are quiet as soon as the row's own change is.
  lemma OneJob(jobs: map<JobId, Job>, j: JobId, next: Job)
    requires j in jobs && QuietJob(jobs[j], next)
    ensures QuietJobs(jobs, jobs[j := next])
  {
  }

  lemma SameQuiet(db: Db)
    ensures Quiet(db, db)
  {
  }

  /** A batch save after quiet job writes is quiet when it moves no call counter and closes nothing. */
  lemma SaveQuiet(db: Db, jobs: map<JobId, Job>, b: BatchId, next: Batch)
    requires b in db.batches && QuietJobs(db.jobs, jobs)
    requires next.counters.analysisCalls == db.batches[b].counters.analysisCalls
    requires next.counters.reasoningCalls == db.batches[b].counters.reasoningCalls
    requires next.status.Terminal() ==> db.batches[b].status.Terminal()
    ensures Quiet(db, OrRollback(SaveBatch(db.(jobs := jobs), b, next), db))
  {
    SameQuiet(db);
  }

  lemma JobQuiet(db: Db, j: JobId, event: JobEvent)
    requires j in db.jobs && db.jobs[j].Coherent() && !event.ConsumeCall? && !event.Succeed?
    ensures Quiet(db, OrRollback(ApplyJob(db, j, event), db))
  {
    var next := TransitionJob(db.jobs[j], event);
    if next.Some? { OneJob(db.jobs, j, next.value); }
  }

  lemma PauseQuiet(db: Db, b: BatchId, at: Instant)
    ensures Quiet(db, PauseBatch(db, b, at))
  {
    SameQuiet(db);
    if b in db.batches {
      assert db.(jobs := db.jobs) == db;
      SaveQuiet(db, db.jobs, b, db.batches[b].Closed(BatchStatus.Paused, at));
    }
  }

  lemma RecoverBatchQuiet(db: Db, b: BatchId, at: Instant)
    ensures Quiet(db, RecoverBatch(db, b, at))
  {
    SameQuiet(db);
    if b in db.batches {
      assert db.(jobs := db.jobs) == db;
      SaveQuiet(db, db.jobs, b, db.batches[b].Closed(BatchStatus.Pending, at));
    }
  }

  lemma RequeueQuiet(jobs: map<JobId, Job>, ids: set<JobId>)
    requires forall j | j in jobs :: jobs[j].Coherent()
    ensures QuietJobs(jobs, RequeueJobs(jobs, ids))
  {
  }

  lemma ResumeQuiet(db: Db, b: BatchId, limits: Limits, at: Instant)
    requires Coherent(db)
    ensures Quiet(db, ResumeBatch(db, b, limits, at))
  {
    SameQuiet(db);
    if b in db.batches {
      var batch := db.batches[b];
      RequeueQuiet(db.jobs, batch.JobIds());
      SaveQuiet(db, RequeueJobs(db.jobs, batch.JobIds()), b, batch.Closed(BatchStatus.Pending, at).(limits := limits));
    }
  }

  lemma OrphansQuiet(attempts: map<AttemptId, Attempt>, j: JobId, at: Instant)
    requires forall a | a in attempts :: ValidAttempt(attempts[a])
    requires forall a | a in attempts && OrphanedBy(attempts[a], j) :: attempts[a].requestedAt <= at
    ensures QuietAttempts(attempts, OrphanAttempts(attempts, j, at))
  {
  }

  lemma RecoverJobQuiet(db: Db, j: JobId, at: Instant)
    requires Coherent(db)
    ensures Quiet(db, RecoverJob(db, j, at))
  {
    SameQuiet(db);
    if j in db.jobs && db.jobs[j].status.Running? { OneJob(db.jobs, j, db.jobs[j].Unleased(JobStatus.Pending)); }
    if forall a | a in db.attempts :: OrphanedBy(db.attempts[a], j) ==> db.attempts[a].requestedAt <= at {
      OrphansQuiet(db.attempts, j, at);
    }
    hide QuietJobs, QuietAttempts, OrphanAttempts, Coherent;
  }

  lemma ClaimBatchQuiet(db: Db, w: Worker, b: BatchId, at: Instant)
    ensures Quiet(db, ClaimBatch(db, w, b, at))
  {
    SameQuiet(db);
    hide Quiet, ValidBatch, LegalBatchChange;
    if b in db.batches {
      assert db.(jobs := db.jobs) == db;
      SaveQuiet(db, db.jobs, b, db.batches[b].(status := BatchStatus.Running, owner := Some(w.owner),
                                               leaseExpiresAt := Some(at + w.batchLeaseMs), updatedAt := at));
    }
  }

  lemma ClaimJobQuiet(db: Db, w: Worker, b: BatchId, k: nat, at: Instant)
    requires Coherent(db)
    ensures Quiet(db, ClaimJob(db, w, b, k, at).0)
  {
    SameQuiet(db);
    if b in db.batches && k < |db.batches[b].jobs| && db.batches[b].jobs[k].jobId in db.jobs {
      var j := db.batches[b].jobs[k].jobId;
      JobQuiet(db, j, Fail(false, w.maxAttempts));
      var started := StartedOrTakenOver(db.jobs[j], w, at);
      if started.Some? {
        OneJob(db.jobs, j, started.value);
        SaveQuiet(db, db.jobs[j := started.value], b, RenewedBatch(db.batches[b], at, w.batchLeaseMs));
      }
    }
  }

  lemma SettleQuiet(db: Db, id: AttemptId, reply: Reply, at: Instant)
    ensures Quiet(db, Settle(db, id, reply, at))
  {
    SameQuiet(db);
  }

  lemma RetryQuiet(db: Db, w: Worker, b: BatchId, k: nat, at: Instant)
    requires Coherent(db)
    ensures Quiet(db, RegisterRetry(db, w, b, k, at).0)
  {
    SameQuiet(db);
    if b in db.batches && k < |db.batches[b].jobs| && db.batches[b].jobs[k].jobId in db.jobs {
      var batch := db.batches[b];
      var j := batch.jobs[k].jobId;
      var failed := TransitionJob(db.jobs[j], Fail(true, w.maxAttempts));
      if failed.Some? {
        OneJob(db.jobs, j, failed.value);
        var restarted := TransitionJob(failed.value, Start(w.owner, at, w.leaseMs));
        if failed.value.status.Pending? && restarted.Some? {
          OneJob(db.jobs, j, restarted.value);
          SaveQuiet(db, db.jobs[j := restarted.value], b,
                    RenewedBatch(batch.(counters := batch.counters.(retries := batch.counters.retries + 1)), at,
                                 w.batchLeaseMs));
        }
      }
    }
  }

  lemma PauseQuotaQuiet(db: Db, w: Worker, b: BatchId, k: nat, at: Instant)
    requires Coherent(db)
    ensures Quiet(db, PauseQuota(db, w, b, k, at))
  {
    SameQuiet(db);
    if b in db.batches && k < |db.batches[b].jobs| {
      var j := db.batches[b].jobs[k].jobId;
      var jobs := if j in db.jobs && !db.jobs[j].status.Stopped()
                  then db.jobs[j := db.jobs[j].Unleased(PausedQuota)] else db.jobs;
      SaveQuiet(db, jobs, b, db.batches[b].Closed(BatchStatus.Paused, at));
    }
  }

  lemma FailQuiet(db: Db, w: Worker, j: JobId, at: Instant)
    requires Coherent(db)
    ensures Quiet(db, FailJob(db, w, j, at))
  {
    SameQuiet(db);
    if j in db.jobs { JobQuiet(db, j, Fail(false, w.maxAttempts)); }
    hide Quiet, TransitionJob;
  }

  lemma LeaveJobQuiet(db: Db, w: Worker, j: JobId, at: Instant)
    requires Coherent(db)
    ensures Quiet(db, ReleaseJob(db, w, j, at))
    ensures Quiet(db, FailJob(db, w, j, at))
  {
    SameQuiet(db);
    FailQuiet(db, w, j, at);
    hide QuietBatches, QuietAttempts, FailJob;
    if j in db.jobs {
      var failed := TransitionJob(db.jobs[j], Fail(true, w.maxAttempts));
      if failed.Some? {
        OneJob(db.jobs, j, failed.value);
        OneJob(db.jobs, j, failed.value.Unleased(JobStatus.Pending));
      }
    }
  }
}
