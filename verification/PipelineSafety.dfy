/** Every step of every worker keeps the invariants and extends the stored history. */
module PipelineSafety {
  import opened Prelude
  import opened AnalysisJobs
  import opened AnalysisBatches
  import opened AnalysisPipeline
  import opened PipelineRuns

  lemma ExtendsTransitive(first: Db, second: Db, third: Db)
    requires Extends(first, second) && Extends(second, third)
    ensures Extends(first, third)
  {
    forall p ensures ManualRevision(first, p) <= ManualRevision(third, p) {
      assert ManualRevision(first, p) <= ManualRevision(second, p) <= ManualRevision(third, p);
    }
  }

  // ---- Preparation ---------------------------------------------------------------------------

  /** Preparing requeues failed jobs and creates fresh ones; it touches no other job. */
  ghost predicate Reopened(before: map<JobId, Job>, after: map<JobId, Job>) {
    && before.Keys <= after.Keys
    && (forall j | j in before :: after[j] == before[j] || (before[j].status.Failed? && QuietJob(before[j], after[j])))
    && (forall j | j in after && j !in before :: after[j] == NewJob(j.snapshot))
  }

  lemma ReopenedTransitive(first: map<JobId, Job>, second: map<JobId, Job>, third: map<JobId, Job>)
    requires Reopened(first, second) && Reopened(second, third)
    ensures Reopened(first, third)
  {
  }

  lemma ContinuedReopens(db: Db, id: JobId, at: Instant)
    requires JobsCoherent(db.jobs) && id in db.jobs
    ensures var next := Continued(db, id, at);
            next.Some? ==>
              Reopened(db.jobs, next.value.jobs) && next.value == db.(jobs := next.value.jobs) && id in next.value.jobs
  {
    assert db == db.(jobs := db.jobs);
  }

  ghost predicate PreparedOne(db: Db, result: Option<(Db, Option<JobId>)>, id: SnapshotId) {
    result.Some? ==>
      && Reopened(db.jobs, result.value.0.jobs)
      && result.value.0 == db.(jobs := result.value.0.jobs)
      && (result.value.1.Some? ==> result.value.1.value in result.value.0.jobs && result.value.1.value.snapshot == id)
  }

  lemma SnapshotPrepared(db: Db, request: PrepareRequest, id: SnapshotId, at: Instant)
    requires JobsCoherent(db.jobs)
    ensures PreparedOne(db, PrepareSnapshot(db, request, id, at), id)
  {
    hide ScheduledElsewhere, AlreadyDone, Continued, FirstContinuable, QuietJob, TransitionJob;
    var legacy := JobId(id, None);
    var rerun := JobId(id, Some(RunOf(request, id)));
    var found := FirstContinuable(db, request.listing, id, request.reanalyze);
    assert db == db.(jobs := db.jobs);
    if legacy in db.jobs { ContinuedReopens(db, legacy, at); }
    if rerun in db.jobs { ContinuedReopens(db, rerun, at); }
    if found.Some? { ContinuedReopens(db, found.value, at); }
  }

  lemma ReopenedCoherent(before: map<JobId, Job>, after: map<JobId, Job>)
    requires JobsCoherent(before) && Reopened(before, after)
    ensures JobsCoherent(after) && QuietJobs(before, after)
  {
  }

  ghost predicate PreparedMany(db: Db, result: Option<(Db, seq<BatchJob>)>) {
    result.Some? ==>
      && Reopened(db.jobs, result.value.0.jobs)
      && result.value.0 == db.(jobs := result.value.0.jobs)
      && (forall spec | spec in result.value.1 :: SpecStored(result.value.0, spec) && spec.manualRevision.Some?)
  }

  lemma {:induction false} AllPrepared(db: Db, request: PrepareRequest, ids: seq<SnapshotId>, at: Instant)
    requires JobsCoherent(db.jobs)
    requires forall id | id in ids :: id in db.snapshots
    ensures PreparedMany(db, PrepareAll(db, request, ids, at))
  {
    if ids == [] {
      assert db == db.(jobs := db.jobs);
    } else {
      var id := ids[|ids| - 1];
      AllPrepared(db, request, ids[..|ids| - 1], at);
      var before := PrepareAll(db, request, ids[..|ids| - 1], at);
      if before.Some? {
        ReopenedCoherent(db.jobs, before.value.0.jobs);
        SnapshotPrepared(before.value.0, request, id, at);
        var one := PrepareSnapshot(before.value.0, request, id, at);
        if one.Some? {
          ReopenedTransitive(db.jobs, before.value.0.jobs, one.value.0.jobs);
          ReopenedCoherent(before.value.0.jobs, one.value.0.jobs);
          forall spec | spec in before.value.1 ensures SpecStored(one.value.0, spec) {
            assert SpecStored(before.value.0, spec);
          }
        }
      }
    }
  }

  lemma JobsKeep(db: Db, jobs: map<JobId, Job>)
    requires Inv(db) && QuietJobs(db.jobs, jobs)
    ensures Inv(db.(jobs := jobs)) && Extends(db, db.(jobs := jobs))
  {
    QuietKeeps(db, db.(jobs := jobs));
  }

  lemma NewBatchKeeps(db: Db, b: BatchId, batch: Batch)
    requires Inv(db) && b !in db.batches && ValidBatch(batch)
    requires batch.status.Pending? && batch.counters == Counters(0, 0, 0)
    requires SpecsStored(db, batch)
    ensures Inv(db.(batches := db.batches[b := batch])) && Extends(db, db.(batches := db.batches[b := batch]))
  {
    var after := db.(batches := db.batches[b := batch]);
    forall c | c in after.batches ensures SpecsStored(after, after.batches[c]) {
      SpecsKeep(db, after, after.batches[c]);
    }
    forall c | c in after.batches ensures ClosedTruthfully(after, after.batches[c]) {
      assert c != b ==> ClosedTruthfully(db, db.batches[c]);
    }
    forall kind ensures BatchCalls(db.attempts, b, kind) == {} {
    }
  }

  lemma PrepareKeeps(db: Db, request: PrepareRequest, at: Instant)
    requires Inv(db)
    ensures Inv(Prepare(db, request, at)) && Extends(db, Prepare(db, request, at))
  {
    SameQuiet(db);
    QuietKeeps(db, db);
    if forall id | id in request.snapshots :: id in db.snapshots {
      AllPrepared(db, request, request.snapshots, at);
      var prepared := PrepareAll(db, request, request.snapshots, at);
      if prepared.Some? {
        var mid := prepared.value.0;
        ReopenedCoherent(db.jobs, mid.jobs);
        JobsKeep(db, mid.jobs);
        var batch := NewBatch(request, prepared.value.1);
        if request.batch !in mid.batches && ValidBatch(batch) {
          NewBatchKeeps(mid, request.batch, batch);
          ExtendsTransitive(db, mid, mid.(batches := mid.batches[request.batch := batch]));
        }
      }
    }
  }

  // ---- Closing a batch -----------------------------------------------------------------------

  lemma UnspentBatch(batches: map<BatchId, Batch>, b: BatchId, next: Batch, attempts: map<AttemptId, Attempt>)
    requires BatchesBalanced(batches, attempts) && b in batches && next.counters == batches[b].counters
    ensures BatchesBalanced(batches[b := next], attempts)
  {
    assert forall kind :: next.Calls(kind) == batches[b].Calls(kind);
  }

  lemma UnspentJob(jobs: map<JobId, Job>, j: JobId, next: Job, attempts: map<AttemptId, Attempt>)
    requires JobsBalanced(jobs, attempts) && j in jobs
    requires next.analysisCalls == jobs[j].analysisCalls && next.reasoningCalls == jobs[j].reasoningCalls
    ensures JobsBalanced(jobs[j := next], attempts)
  {
    assert forall kind :: next.Calls(kind) == jobs[j].Calls(kind);
  }

  lemma CloseKeeps(db: Db, b: BatchId, next: Batch)
    requires Inv(db) && b in db.batches
    requires ValidBatch(next) && LegalBatchChange(db.batches[b], next) && next.counters == db.batches[b].counters
    requires ClosedTruthfully(db, next)
    ensures Inv(db.(batches := db.batches[b := next])) && Extends(db, db.(batches := db.batches[b := next]))
  {
    var after := db.(batches := db.batches[b := next]);
    forall c | c in after.batches ensures SpecsStored(after, after.batches[c]) {
      SpecsKeep(db, after, db.batches[c]);
      assert after.batches[c].jobs == db.batches[c].jobs;
    }
    forall c | c in after.batches ensures ClosedTruthfully(after, after.batches[c]) {
      assert ClosedTruthfully(db, db.batches[c]);
    }
    UnspentBatch(db.batches, b, next, db.attempts);
  }

  lemma CancelledJobsQuiet(jobs: map<JobId, Job>, ids: set<JobId>)
    requires forall j | j in jobs :: jobs[j].Coherent()
    ensures QuietJobs(jobs, CancelJobs(jobs, ids))
    ensures forall j | j in jobs && j in ids :: CancelJobs(jobs, ids)[j].status.Stopped()
  {
  }

  lemma CancelKeeps(db: Db, b: BatchId, at: Instant)
    requires Inv(db)
    ensures Inv(CancelBatch(db, b, at)) && Extends(db, CancelBatch(db, b, at))
  {
    SameQuiet(db);
    QuietKeeps(db, db);
    if b in db.batches && !db.batches[b].status.Terminal() {
      var batch := db.batches[b];
      CancelledJobsQuiet(db.jobs, batch.JobIds());
      var mid := db.(jobs := CancelJobs(db.jobs, batch.JobIds()));
      JobsKeep(db, mid.jobs);
      var next := batch.Closed(BatchStatus.Cancelled, at);
      forall spec | spec in next.jobs ensures spec.jobId in mid.jobs && mid.jobs[spec.jobId].status.Stopped() {
        assert SpecStored(db, spec);
        assert spec.jobId in batch.JobIds();
      }
      if SaveBatch(mid, b, next).Some? {
        CloseKeeps(mid, b, next);
        ExtendsTransitive(db, mid, mid.(batches := mid.batches[b := next]));
      }
    }
  }

  lemma FinalizeKeeps(db: Db, w: Worker, b: BatchId, at: Instant)
    requires Inv(db)
    ensures Inv(FinalizeBatch(db, w, b, at)) && Extends(db, FinalizeBatch(db, w, b, at))
  {
    SameQuiet(db);
    QuietKeeps(db, db);
    if OwnsBatch(db, w, b) {
      var next := db.batches[b].Closed(FinalStatus(db, db.batches[b]), at);
      if SaveBatch(db, b, next).Some? {
        CloseKeeps(db, b, next);
      }
    }
  }

  // ---- Spending ------------------------------------------------------------------------------

  lemma OneMoreBatchCall(attempts: map<AttemptId, Attempt>, id: AttemptId, row: Attempt, b: BatchId, kind: CallKind)
    requires id !in attempts
    ensures |BatchCalls(attempts[id := row], b, kind)|
         == |BatchCalls(attempts, b, kind)| + if row.batch == b && row.role.Kind() == kind then 1 else 0
  {
    var before, after := BatchCalls(attempts, b, kind), BatchCalls(attempts[id := row], b, kind);
    var mine := row.batch == b && row.role.Kind() == kind;
    assert id !in before && (id in after <==> mine);
    assert forall a | a != id :: a in after <==> a in before;
    assert after == if mine then before + {id} else before;
  }

  lemma OneMoreJobCall(attempts: map<AttemptId, Attempt>, id: AttemptId, row: Attempt, j: JobId, kind: CallKind)
    requires id !in attempts
    ensures |JobCalls(attempts[id := row], j, kind)|
         == |JobCalls(attempts, j, kind)| + if row.job == j && row.role.Kind() == kind then 1 else 0
  {
    var before, after := JobCalls(attempts, j, kind), JobCalls(attempts[id := row], j, kind);
    var mine := row.job == j && row.role.Kind() == kind;
    assert id !in before && (id in after <==> mine);
    assert forall a | a != id :: a in after <==> a in before;
    assert after == if mine then before + {id} else before;
  }

  /** The budget `kind` of a row after one call of `spent` was counted on it. */
  ghost predicate Spends(before: nat, after: nat, kind: CallKind, spent: CallKind) {
    after == before + if kind == spent then 1 else 0
  }

  lemma SpendBalances(db: Db, b: BatchId, batch: Batch, j: JobId, job: Job, id: AttemptId, row: Attempt)
    requires Accounted(db) && b in db.batches && j in db.jobs && id !in db.attempts
    requires row.batch == b && row.job == j
    requires forall kind :: Spends(db.batches[b].Calls(kind), batch.Calls(kind), kind, row.role.Kind())
    requires forall kind :: Spends(db.jobs[j].Calls(kind), job.Calls(kind), kind, row.role.Kind())
    ensures BatchesBalanced(db.batches[b := batch], db.attempts[id := row])
    ensures JobsBalanced(db.jobs[j := job], db.attempts[id := row])
  {
    var batches, jobs := db.batches[b := batch], db.jobs[j := job];
    forall c, kind | c in batches ensures batches[c].Calls(kind) == |BatchCalls(db.attempts[id := row], c, kind)|
    {
      OneMoreBatchCall(db.attempts, id, row, c, kind);
      assert Spends(db.batches[b].Calls(kind), batch.Calls(kind), kind, row.role.Kind());
    }
    forall i, kind | i in jobs ensures jobs[i].Calls(kind) == |JobCalls(db.attempts[id := row], i, kind)|
    {
      OneMoreJobCall(db.attempts, id, row, i, kind);
      assert Spends(db.jobs[j].Calls(kind), job.Calls(kind), kind, row.role.Kind());
    }
  }

  /** Rewriting one batch, which closes nothing, and one live job leaves the plans stored and the closures true. */
  lemma RewriteKeeps(db: Db, after: Db, b: BatchId, j: JobId)
    requires BatchesCoherent(db) && JobsCoherent(db.jobs) && Closure(db)
    requires b in db.batches && b in after.batches && j in db.jobs && j in after.jobs
    requires after.batches == db.batches[b := after.batches[b]] && after.jobs == db.jobs[j := after.jobs[j]]
    requires after.snapshots == db.snapshots && after.manualRevisions == db.manualRevisions
    requires ValidBatch(after.batches[b]) && LegalBatchChange(db.batches[b], after.batches[b])
    requires !after.batches[b].status.Terminal() && JobProgress(db.jobs[j], after.jobs[j])
    ensures BatchesCoherent(after) && JobsCoherent(after.jobs) && Closure(after)
  {
    forall c | c in after.batches ensures ValidBatch(after.batches[c]) && SpecsStored(after, after.batches[c]) {
      SpecsKeep(db, after, db.batches[c]);
      assert after.batches[c].jobs == db.batches[c].jobs;
    }
    forall c | c in after.batches ensures ClosedTruthfully(after, after.batches[c]) {
      assert ClosedTruthfully(db, db.batches[c]);
    }
  }

  lemma RewriteExtends(db: Db, after: Db, b: BatchId, j: JobId)
    requires b in db.batches && b in after.batches && j in db.jobs && j in after.jobs
    requires after.batches == db.batches[b := after.batches[b]] && after.jobs == db.jobs[j := after.jobs[j]]
    requires after.snapshots == db.snapshots && after.manualRevisions == db.manualRevisions && after.heads == db.heads
    requires LegalBatchChange(db.batches[b], after.batches[b]) && JobProgress(db.jobs[j], after.jobs[j])
    requires forall a | a in db.attempts :: a in after.attempts && after.attempts[a] == db.attempts[a]
    requires db.analyses <= after.analyses && db.decisions <= after.decisions
    ensures Extends(db, after)
  {
  }

  lemma LoggedKeeps(jobs: map<JobId, Job>, analyses: seq<AnalysisRecord>, j: JobId, job: Job)
    requires Logged(jobs, analyses) && j in jobs && !jobs[j].status.Stopped() && !job.status.Succeeded?
    ensures Logged(jobs[j := job], analyses)
  {
  }

  lemma AttemptsKeep(db: Db, after: Db, id: AttemptId, row: Attempt)
    requires AttemptsCoherent(db) && after.attempts == db.attempts[id := row] && ValidAttempt(row)
    requires db.batches.Keys <= after.batches.Keys && db.jobs.Keys <= after.jobs.Keys
    requires row.batch in after.batches && row.job in after.jobs
    ensures AttemptsCoherent(after)
  {
  }

  /** One attempt row, one unit of the batch budget and one unit of the job budget are written together. */
  lemma SpendKeeps(db: Db, b: BatchId, batch: Batch, j: JobId, job: Job, id: AttemptId, row: Attempt)
    requires Inv(db) && b in db.batches && j in db.jobs && id !in db.attempts
    requires ValidBatch(batch) && LegalBatchChange(db.batches[b], batch) && !batch.status.Terminal()
    requires JobProgress(db.jobs[j], job) && !job.status.Succeeded?
    requires ValidAttempt(row) && row.batch == b && row.job == j
    requires forall kind :: Spends(db.batches[b].Calls(kind), batch.Calls(kind), kind, row.role.Kind())
    requires forall kind :: Spends(db.jobs[j].Calls(kind), job.Calls(kind), kind, row.role.Kind())
    ensures var after := db.(batches := db.batches[b := batch], jobs := db.jobs[j := job],
                             attempts := db.attempts[id := row]);
            Inv(after) && Extends(db, after)
  {
    var after := db.(batches := db.batches[b := batch], jobs := db.jobs[j := job], attempts := db.attempts[id := row]);
    LoggedKeeps(db.jobs, db.analyses, j, job);
    AttemptsKeep(db, after, id, row);
    hide Extends, BatchesCoherent, JobsCoherent, AttemptsCoherent, Closure, Logged, BatchesBalanced, JobsBalanced,
         LegalBatchChange, JobProgress, ValidBatch, ValidAttempt;
    RewriteKeeps(db, after, b, j);
    RewriteExtends(db, after, b, j);
    SpendBalances(db, b, batch, j, job, id, row);
  }

  lemma SpendKeepsGranted(db: Db, w: Worker, b: BatchId, k: nat, role: Role, id: AttemptId, at: Instant)
    requires Inv(db) && id !in db.attempts
    requires Reserve(db, w, b, k, role, id, at).1.Granted?
    ensures Inv(Reserve(db, w, b, k, role, id, at).0) && Extends(db, Reserve(db, w, b, k, role, id, at).0)
  {
    hide Extends, Accounted, Closure, Logged, BatchesCoherent, AttemptsCoherent, BasisUnchanged;
    var batch := db.batches[b];
    var spec := batch.jobs[k];
    var kind := role.Kind();
    var consumed := TransitionJob(db.jobs[spec.jobId], ConsumeCall(kind, w.JobLimit(kind))).value;
    var renewed := consumed.(leaseExpiresAt := RenewedLease(consumed.leaseExpiresAt, at, w.leaseMs));
    var counted := RenewedBatch(CountCall(batch, kind), at, w.batchLeaseMs);
    SpendKeeps(db, b, counted, spec.jobId, renewed, id, NewAttempt(b, spec, role, at));
  }

  lemma UnspentKeeps(db: Db, w: Worker, b: BatchId, k: nat, role: Role, id: AttemptId, at: Instant)
    requires Inv(db) && !Reserve(db, w, b, k, role, id, at).1.Granted?
    ensures Quiet(db, Reserve(db, w, b, k, role, id, at).0)
  {
    SameQuiet(db);
    if HoldsBatch(db, w, b, at) && k < |db.batches[b].jobs| && HoldsJob(db, w, db.batches[b].jobs[k].jobId, at) {
      var j := db.batches[b].jobs[k].jobId;
      var consumed := TransitionJob(db.jobs[j], ConsumeCall(role.Kind(), w.JobLimit(role.Kind())));
      if consumed.Some? && consumed.value.status.PausedQuota? {
        OneJob(db.jobs, j, consumed.value);
      }
    }
  }

  lemma ReserveKeeps(db: Db, w: Worker, b: BatchId, k: nat, role: Role, id: AttemptId, at: Instant)
    requires Inv(db) && id !in db.attempts
    ensures Inv(Reserve(db, w, b, k, role, id, at).0) && Extends(db, Reserve(db, w, b, k, role, id, at).0)
  {
    if Reserve(db, w, b, k, role, id, at).1.Granted? {
      SpendKeepsGranted(db, w, b, k, role, id, at);
    } else {
      UnspentKeeps(db, w, b, k, role, id, at);
      QuietKeeps(db, Reserve(db, w, b, k, role, id, at).0);
    }
  }

  // ---- Adoption ------------------------------------------------------------------------------

  lemma AdoptKeeps(db: Db, w: Worker, b: BatchId, k: nat, content: Content, at: Instant)
    requires Inv(db)
    ensures Inv(Adopt(db, w, b, k, content, at)) && Extends(db, Adopt(db, w, b, k, content, at))
  {
    if !FenceOpen(db, w, b, k, at) || db.batches[b].createdAt > at {
      SameQuiet(db);
      QuietKeeps(db, db);
    } else {
      AdoptedKeeps(db, w, b, k, content, at);
    }
  }

  lemma AdoptedKeeps(db: Db, w: Worker, b: BatchId, k: nat, content: Content, at: Instant)
    requires Inv(db) && FenceOpen(db, w, b, k, at) && db.batches[b].createdAt <= at
    ensures Inv(Adopted(db, w, b, k, content, at)) && Extends(db, Adopted(db, w, b, k, content, at))
  {
    var after := Adopted(db, w, b, k, content, at);
    var j := db.batches[b].jobs[k].jobId;
    RewriteKeeps(db, after, b, j);
    RewriteExtends(db, after, b, j);
    UnspentBatch(db.batches, b, after.batches[b], db.attempts);
    UnspentJob(db.jobs, j, after.jobs[j], db.attempts);
    AdoptedLogged(db.jobs, db.analyses, j, NewRecord(db, b, db.batches[b].jobs[k], content, at));
  }

  lemma AdoptedLogged(jobs: map<JobId, Job>, analyses: seq<AnalysisRecord>, j: JobId, record: AnalysisRecord)
    requires Logged(jobs, analyses) && j in jobs && !jobs[j].status.Stopped() && record.job == j
    ensures Logged(jobs[j := SucceededJob(jobs[j], |analyses|)], analyses + [record])
  {
  }

  /** A change of snapshots and revisions alone keeps everything that is about batches, jobs and attempts. */
  lemma MaterialKeeps(db: Db, after: Db)
    requires Inv(db)
    requires after == db.(snapshots := after.snapshots, heads := after.heads, manualRevisions := after.manualRevisions)
    requires forall s | s in db.snapshots :: s in after.snapshots && after.snapshots[s] == db.snapshots[s]
    requires forall p :: ManualRevision(db, p) <= ManualRevision(after, p)
    requires HeadsAdvance(db.heads, after.heads)
    ensures Inv(after) && Extends(db, after)
  {
    forall b | b in after.batches ensures SpecsStored(after, after.batches[b]) {
      SpecsKeep(db, after, db.batches[b]);
    }
    forall b | b in after.batches ensures ClosedTruthfully(after, after.batches[b]) {
      assert ClosedTruthfully(db, db.batches[b]);
    }
  }

  lemma MaterialStepKeeps(db: Db, step: Step)
    requires Inv(db)
    ensures step.ManualDecisionStep? || step.NewSnapshotStep? ==> Inv(Next(db, step)) && Extends(db, Next(db, step))
  {
    hide Inv, Extends;
    match step
    case ManualDecisionStep(problem) => MaterialKeeps(db, DecideManually(db, problem));
    case NewSnapshotStep(id, snapshot) => MaterialKeeps(db, StoreSnapshot(db, id, snapshot));
    case _ =>
  }

  // ---- All steps -----------------------------------------------------------------------------

  lemma QuietStep(db: Db, step: Step)
    requires Inv(db)
    requires step.PauseStep? || step.ResumeStep? || step.RecoverBatchStep? || step.RecoverJobStep?
      || step.ClaimBatchStep?
          || step.ClaimJobStep? || step.SettleStep? || step.RetryStep? || step.PauseQuotaStep? || step.ReleaseStep?
            || step.FailStep?
    ensures Quiet(db, Next(db, step))
  {
    hide Quiet, PauseBatch, ResumeBatch, RecoverBatch, RecoverJob, ClaimBatch, ClaimJob, Settle, RegisterRetry,
      PauseQuota,
         ReleaseJob, FailJob;
    match step
    case PauseStep(b, at) => PauseQuiet(db, b, at);
    case ResumeStep(b, limits, at) => ResumeQuiet(db, b, limits, at);
    case RecoverBatchStep(b, at) => RecoverBatchQuiet(db, b, at);
    case RecoverJobStep(j, at) => RecoverJobQuiet(db, j, at);
    case ClaimBatchStep(w, b, at) => ClaimBatchQuiet(db, w, b, at);
    case ClaimJobStep(w, b, k, at) => ClaimJobQuiet(db, w, b, k, at);
    case SettleStep(id, reply, at) => SettleQuiet(db, id, reply, at);
    case RetryStep(w, b, k, at) => RetryQuiet(db, w, b, k, at);
    case PauseQuotaStep(w, b, k, at) => PauseQuotaQuiet(db, w, b, k, at);
    case ReleaseStep(w, j, at) => LeaveJobQuiet(db, w, j, at);
    case FailStep(w, j, at) => LeaveJobQuiet(db, w, j, at);
  }

  lemma StepKeeps(db: Db, step: Step)
    requires Inv(db)
    ensures Inv(Next(db, step)) && Extends(db, Next(db, step))
  {
    MaterialStepKeeps(db, step);
    hide Inv, Extends, Quiet, Prepare, PauseBatch, CancelBatch, ResumeBatch, RecoverBatch, RecoverJob, ClaimBatch,
      ClaimJob,
         Reserve, Settle, RegisterRetry, PauseQuota, ReleaseJob, FailJob, Adopt, FinalizeBatch, DecideManually,
           StoreSnapshot;
    match step
    case PrepareStep(request, at) => PrepareKeeps(db, request, at);
    case CancelStep(b, at) => CancelKeeps(db, b, at);
    case ReserveStep(w, b, k, role, id, at) =>
      if id in db.attempts {
        SameQuiet(db);
        QuietKeeps(db, db);
      } else {
        ReserveKeeps(db, w, b, k, role, id, at);
      }
    case AdoptStep(w, b, k, content, at) => AdoptKeeps(db, w, b, k, content, at);
    case FinalizeStep(w, b, at) => FinalizeKeeps(db, w, b, at);
    case ManualDecisionStep(problem) =>
    case NewSnapshotStep(id, snapshot) =>
    case _ =>
      QuietStep(db, step);
      QuietKeeps(db, Next(db, step));
  }
}
