/**
 * The transaction bodies of the analysis pipeline, as functions on the stored rows
 * (src/application/analysis-pipeline.ts).
 *
 * A transaction that throws rolls back, so its function returns the database it was given.
 */
module AnalysisPipeline {
  import opened Prelude
  import opened AnalysisJobs
  import opened AnalysisBatches

  type ProblemKey = nat

  /** Snapshots are immutable; the head of a problem names the current one. */
  datatype Snapshot = Snapshot(problem: ProblemKey, contentHash: nat, version: nat)
  datatype Head = Head(snapshotId: SnapshotId, contentHash: nat, version: nat)

  /** One adopted result. `batch` and `job` record which adoption transaction wrote it. */
  datatype AnalysisRecord = AnalysisRecord(
    batch: BatchId, job: JobId, problem: ProblemKey, snapshotId: SnapshotId,
    createdAt: Instant, checked: bool, usage: Option<Usage>)

  datatype DecisionRow = DecisionRow(problem: ProblemKey, byAi: bool, decidedAt: Instant)

  datatype Db = Db(
    snapshots: map<SnapshotId, Snapshot>,
    heads: map<ProblemKey, Head>,
    manualRevisions: map<ProblemKey, nat>,
    batches: map<BatchId, Batch>,
    jobs: map<JobId, Job>,
    attempts: map<AttemptId, Attempt>,
    analyses: seq<AnalysisRecord>,
    decisions: seq<DecisionRow>)

  /** One pipeline instance: its lease owner identity, lease lengths and job budget. */
  datatype Worker = Worker(
    owner: Owner, leaseMs: int, batchLeaseMs: int, maxAttempts: int, maxAnalysisCalls: int, maxReasoningCalls: int)
  {
    function JobLimit(kind: CallKind): int {
      if kind.AnalysisCall? then maxAnalysisCalls else maxReasoningCalls
    }
  }

  function ManualRevision(db: Db, problem: ProblemKey): nat {
    if problem in db.manualRevisions then db.manualRevisions[problem] else 0
  }

  predicate HeadIsCurrent(db: Db, id: SnapshotId)
    requires id in db.snapshots
  {
    var snapshot := db.snapshots[id];
    && snapshot.problem in db.heads
    && db.heads[snapshot.problem] == Head(id, snapshot.contentHash, snapshot.version)
  }

  // ---- Store writes: each is refused or applied whole ---------------------------------------

  function SaveBatch(db: Db, id: BatchId, next: Batch): Option<Db> {
    if ValidBatch(next) && (id in db.batches ==> LegalBatchChange(db.batches[id], next))
    then Some(db.(batches := db.batches[id := next])) else None
  }

  function SaveAttempt(db: Db, id: AttemptId, next: Attempt): Option<Db> {
    if !ValidAttempt(next) then None
    else if id !in db.attempts then Some(db.(attempts := db.attempts[id := next]))
    else if db.attempts[id] == next then Some(db)
    else if LegalAttemptChange(db.attempts[id], next) then Some(db.(attempts := db.attempts[id := next]))
    else None
  }

  function ApplyJob(db: Db, id: JobId, event: JobEvent): Option<Db>
    requires id in db.jobs
  {
    var next := TransitionJob(db.jobs[id], event);
    if next.None? then None else Some(db.(jobs := db.jobs[id := next.value]))
  }

  function OrRollback(result: Option<Db>, db: Db): Db {
    if result.Some? then result.value else db
  }

  function RenewedLease(lease: Option<Instant>, at: Instant, leaseMs: int): Option<Instant> {
    Some(if lease.None? then Max(at, at + leaseMs) else Max(lease.value, at + leaseMs))
  }

  function RenewedBatch(batch: Batch, at: Instant, leaseMs: int): Batch {
    batch.(leaseExpiresAt := RenewedLease(batch.leaseExpiresAt, at, leaseMs), updatedAt := at)
  }

  // ---- Preparation ---------------------------------------------------------------------------

  /**
   * `listing` is the order in which the store lists its jobs, `checked` the succeeded jobs whose
   * result carries the current completeness check, `runs` the run identity a rerun would use.
   */
  datatype PrepareRequest = PrepareRequest(
    batch: BatchId, snapshots: seq<SnapshotId>, maxJobs: int, limits: Limits, createdAt: Instant,
    reanalyze: bool, runs: map<SnapshotId, RunId>, checked: set<JobId>, listing: seq<JobId>)

  function RunOf(request: PrepareRequest, id: SnapshotId): RunId {
    if id in request.runs then request.runs[id] else 0
  }

  predicate ScheduledElsewhere(db: Db, batch: BatchId, id: SnapshotId) {
    exists b | b in db.batches ::
      && b != batch
      && (db.batches[b].status.Pending? || db.batches[b].status.Running? || db.batches[b].status.Paused?)
      && exists spec | spec in db.batches[b].jobs :: spec.snapshotId == id
  }

  predicate AlreadyDone(db: Db, checked: set<JobId>, id: SnapshotId) {
    exists j | j in db.jobs :: db.jobs[j].snapshot == id && db.jobs[j].status.Succeeded? && j in checked
  }

  predicate Continuable(db: Db, j: JobId, id: SnapshotId, reanalyze: bool) {
    && j in db.jobs
    && j != JobId(id, None)
    && db.jobs[j].snapshot == id
    && !db.jobs[j].status.Stopped()
    && (db.jobs[j].status.Failed? ==> !reanalyze)
  }

  /** First job of the listing that continues unfinished work of this snapshot. */
  function FirstContinuable(db: Db, listing: seq<JobId>, id: SnapshotId, reanalyze: bool): (found: Option<JobId>)
    ensures found.Some? ==> found.value in listing && Continuable(db, found.value, id, reanalyze)
    ensures found.None? ==> forall j | j in listing :: !Continuable(db, j, id, reanalyze)
  {
    if listing == [] then None
    else if Continuable(db, listing[0], id, reanalyze) then Some(listing[0])
    else FirstContinuable(db, listing[1..], id, reanalyze)
  }

  /** Unfinished work continues: only a failed job is requeued, everything else stays as it is. */
  function Continued(db: Db, id: JobId, at: Instant): Option<Db>
    requires id in db.jobs
  {
    if db.jobs[id].status.Failed? then ApplyJob(db, id, Requeue(at)) else Some(db)
  }

  /** The job that analyses one snapshot, or `None` when it is already done; the outer `None` throws. */
  function PrepareSnapshot(db: Db, request: PrepareRequest, id: SnapshotId, at: Instant): Option<(Db, Option<JobId>)> {
    var legacy := JobId(id, None);
    if ScheduledElsewhere(db, request.batch, id) then None
    else if !request.reanalyze && AlreadyDone(db, request.checked, id) then Some((db, None))
    else if legacy in db.jobs && !db.jobs[legacy].status.Stopped()
         && !(request.reanalyze && db.jobs[legacy].status.Failed?) then
      var next := Continued(db, legacy, at);
      if next.None? then None else Some((next.value, Some(legacy)))
    else
      var found := FirstContinuable(db, request.listing, id, request.reanalyze);
      if found.Some? then
        var next := Continued(db, found.value, at);
        if next.None? then None else Some((next.value, found))
      else
        var target := if legacy in db.jobs then JobId(id, Some(RunOf(request, id))) else legacy;
        if target !in db.jobs then Some((db.(jobs := db.jobs[target := NewJob(id)]), Some(target)))
        else if db.jobs[target].status.Stopped() then None
        else
          var next := Continued(db, target, at);
          if next.None? then None else Some((next.value, Some(target)))
  }

  function PrepareAll(db: Db, request: PrepareRequest, ids: seq<SnapshotId>, at: Instant): Option<(Db, seq<BatchJob>)>
    requires forall id | id in ids :: id in db.snapshots
  {
    if ids == [] then Some((db, []))
    else
      var id := ids[|ids| - 1];
      var before := PrepareAll(db, request, ids[..|ids| - 1], at);
      if before.None? then None
      else
        var one := PrepareSnapshot(before.value.0, request, id, at);
        if one.None? then None
        else if one.value.1.None? then Some((one.value.0, before.value.1))
        else
          var revision := ManualRevision(db, db.snapshots[id].problem);
          Some((one.value.0, before.value.1 + [BatchJob(one.value.1.value, id, Some(revision))]))
  }

  function NewBatch(request: PrepareRequest, jobs: seq<BatchJob>): Batch {
    Batch(jobs, request.maxJobs, request.createdAt, BatchStatus.Pending, None, None, request.limits,
          Counters(0, 0, 0), request.createdAt)
  }

  /** `prepareBatch`: all requested snapshots become one pending batch, or nothing changes. */
  function Prepare(db: Db, request: PrepareRequest, at: Instant): Db {
    if request.snapshots == []
      || (exists i, j | 0 <= i < j < |request.snapshots| :: request.snapshots[i] == request.snapshots[j])
      || (exists id | id in request.snapshots :: id !in db.snapshots || !HeadIsCurrent(db, id))
    then db
    else
      var prepared := PrepareAll(db, request, request.snapshots, at);
      if prepared.None? then db
      else if prepared.value.1 == [] then prepared.value.0
      else if request.batch in db.batches then db
      else OrRollback(SaveBatch(prepared.value.0, request.batch, NewBatch(request, prepared.value.1)), db)
  }

  // ---- Batch control -------------------------------------------------------------------------

  function PauseBatch(db: Db, b: BatchId, at: Instant): Db {
    if b !in db.batches || !db.batches[b].Executable() || db.batches[b].status.Paused?
      || db.batches[b].status.Terminal()
    then db
    else OrRollback(SaveBatch(db, b, db.batches[b].Closed(BatchStatus.Paused, at)), db)
  }

  /** Every unfinished job of the batch is cancelled with it. */
  function CancelJobs(jobs: map<JobId, Job>, ids: set<JobId>): map<JobId, Job> {
    map j | j in jobs :: if j in ids && !jobs[j].status.Stopped() then jobs[j].Unleased(JobStatus.Cancelled)
      else jobs[j]
  }

  function CancelBatch(db: Db, b: BatchId, at: Instant): Db {
    if b !in db.batches || db.batches[b].status.Terminal() then db
    else
      var batch := db.batches[b];
      OrRollback(SaveBatch(db.(jobs := CancelJobs(db.jobs, batch.JobIds())), b,
                           batch.Closed(BatchStatus.Cancelled, at)), db)
  }

  function RequeueJobs(jobs: map<JobId, Job>, ids: set<JobId>): map<JobId, Job> {
    map j | j in jobs ::
      if j in ids && (jobs[j].status.PausedQuota? || jobs[j].status.Failed?) then jobs[j].Unleased(JobStatus.Pending)
      else jobs[j]
  }

  function ResumeBatch(db: Db, b: BatchId, limits: Limits, at: Instant): Db {
    if b !in db.batches || !db.batches[b].Executable() || db.batches[b].status.Running?
      || db.batches[b].status.Terminal()
    then db
    else
      var batch := db.batches[b];
      OrRollback(SaveBatch(db.(jobs := RequeueJobs(db.jobs, batch.JobIds())), b,
                           batch.Closed(BatchStatus.Pending, at).(limits := limits)), db)
  }

  function RecoverBatch(db: Db, b: BatchId, at: Instant): Db {
    if b !in db.batches || !db.batches[b].status.Running? || !Expired(db.batches[b].leaseExpiresAt, at) then db
    else OrRollback(SaveBatch(db, b, db.batches[b].Closed(BatchStatus.Pending, at)), db)
  }

  function UncertainAttempt(attempt: Attempt, at: Instant): Attempt {
    attempt.(status := Uncertain, finishedAt := Some(at), usage := None, failed := false, answered := false)
  }

  predicate OrphanedBy(attempt: Attempt, j: JobId) {
    attempt.job == j && attempt.status.Reserved?
  }

  /** Every reserved call of a job nobody runs any more becomes uncertain. */
  function OrphanAttempts(attempts: map<AttemptId, Attempt>, j: JobId, at: Instant): map<AttemptId, Attempt> {
    map a | a in attempts :: if OrphanedBy(attempts[a], j) then UncertainAttempt(attempts[a], at) else attempts[a]
  }

  /** `recoverJob`: an orphan requested after `at` cannot be stamped, so the whole transaction fails. */
  function RecoverJob(db: Db, j: JobId, at: Instant): Db {
    if j in db.jobs && db.jobs[j].status.Running? && !Expired(db.jobs[j].leaseExpiresAt, at) then db
    else if exists a | a in db.attempts :: OrphanedBy(db.attempts[a], j) && at < db.attempts[a].requestedAt then db
    else
      var jobs := if j in db.jobs && db.jobs[j].status.Running?
                  then db.jobs[j := db.jobs[j].Unleased(JobStatus.Pending)] else db.jobs;
      db.(jobs := jobs, attempts := OrphanAttempts(db.attempts, j, at))
  }

  // ---- Claims --------------------------------------------------------------------------------

  function ClaimBatch(db: Db, w: Worker, b: BatchId, at: Instant): Db {
    if b !in db.batches || !db.batches[b].Executable() then db
    else
      var batch := db.batches[b];
      if !(batch.status.Pending? || (batch.status.Running? && Expired(batch.leaseExpiresAt, at))) then db
      else
        OrRollback(SaveBatch(db, b, batch.(status := BatchStatus.Running, owner := Some(w.owner),
                                           leaseExpiresAt := Some(at + w.batchLeaseMs), updatedAt := at)), db)
  }

  /** The batch row still belongs to this worker and its lease covers `at`. */
  predicate HoldsBatch(db: Db, w: Worker, b: BatchId, at: Instant) {
    && OwnsBatch(db, w, b)
    && !Expired(db.batches[b].leaseExpiresAt, at)
  }

  predicate OwnsBatch(db: Db, w: Worker, b: BatchId) {
    && b in db.batches
    && db.batches[b].status.Running?
    && db.batches[b].owner == Some(w.owner)
  }

  predicate OwnsJob(db: Db, w: Worker, j: JobId) {
    && j in db.jobs
    && db.jobs[j].status.Running?
    && db.jobs[j].leaseOwner == Some(w.owner)
  }

  predicate HoldsJob(db: Db, w: Worker, j: JobId, at: Instant) {
    OwnsJob(db, w, j) && !Expired(db.jobs[j].leaseExpiresAt, at)
  }

  /** A fresh start, or the takeover of a job whose lease expired. */
  function StartedOrTakenOver(job: Job, w: Worker, at: Instant): Option<Job> {
    var idle := if job.status.Running? then TransitionJob(job, Requeue(at)) else Some(job);
    if idle.None? then None else TransitionJob(idle.value, Start(w.owner, at, w.leaseMs))
  }

  /** `claimJobForBatch`; the flag says whether the worker may now execute the job. */
  function ClaimJob(db: Db, w: Worker, b: BatchId, k: nat, at: Instant): (Db, bool) {
    if !HoldsBatch(db, w, b, at) || k >= |db.batches[b].jobs| then (db, false)
    else
      var spec := db.batches[b].jobs[k];
      if spec.jobId !in db.jobs then (db, false)
      else
        var job := db.jobs[spec.jobId];
        if job.status.Stopped() || job.status.Failed? || job.status.PausedQuota?
          || (job.status.Running? && !Expired(job.leaseExpiresAt, at))
          || spec.snapshotId !in db.snapshots
        then (db, false)
        else if !HeadIsCurrent(db, spec.snapshotId) then
          (OrRollback(ApplyJob(db, spec.jobId, Fail(false, w.maxAttempts)), db), false)
        else if spec.manualRevision.None? then (db, false)
        else if ManualRevision(db, db.snapshots[spec.snapshotId].problem) != spec.manualRevision.value then
          (OrRollback(ApplyJob(db, spec.jobId, Fail(false, w.maxAttempts)), db), false)
        else
          var started := StartedOrTakenOver(job, w, at);
          if started.None? then (db, false)
          else
            var saved := SaveBatch(db.(jobs := db.jobs[spec.jobId := started.value]), b,
                                   RenewedBatch(db.batches[b], at, w.batchLeaseMs));
            if saved.None? then (db, false) else (saved.value, true)
  }

  // ---- Paid calls ----------------------------------------------------------------------------

  datatype Reservation = Granted | Quota | Stopped | Refused

  /** The material and the human decisions are still the ones this claim captured. */
  predicate BasisUnchanged(db: Db, spec: BatchJob) {
    && spec.snapshotId in db.snapshots
    && HeadIsCurrent(db, spec.snapshotId)
    && spec.manualRevision == Some(ManualRevision(db, db.snapshots[spec.snapshotId].problem))
  }

  function NewAttempt(b: BatchId, spec: BatchJob, role: Role, at: Instant): Attempt {
    Attempt(b, spec.jobId, spec.snapshotId, role, at, Reserved, None, None, false, false)
  }

  function CountCall(batch: Batch, kind: CallKind): Batch {
    if kind.AnalysisCall?
    then batch.(counters := batch.counters.(analysisCalls := batch.counters.analysisCalls + 1))
    else batch.(counters := batch.counters.(reasoningCalls := batch.counters.reasoningCalls + 1))
  }

  /** `reserveAttempt` for a role the gateway implements; `id` is the fresh attempt id. */
  function Reserve(db: Db, w: Worker, b: BatchId, k: nat, role: Role, id: AttemptId, at: Instant): (Db, Reservation) {
    if !HoldsBatch(db, w, b, at) || k >= |db.batches[b].jobs| || !HoldsJob(db, w, db.batches[b].jobs[k].jobId, at)
    then (db, Stopped)
    else
      var batch := db.batches[b];
      var spec := batch.jobs[k];
      var kind := role.Kind();
      if !BasisUnchanged(db, spec) then (db, Refused)
      else if batch.Calls(kind) >= batch.Limit(kind) then (db, Quota)
      else
        var consumed := TransitionJob(db.jobs[spec.jobId], ConsumeCall(kind, w.JobLimit(kind)));
        if consumed.None? then (db, Stopped)
        else if consumed.value.status.PausedQuota? then (db.(jobs := db.jobs[spec.jobId := consumed.value]), Quota)
        else
          var renewed := consumed.value.(leaseExpiresAt := RenewedLease(consumed.value.leaseExpiresAt, at, w.leaseMs));
          var recorded := SaveAttempt(db, id, NewAttempt(b, spec, role, at));
          if recorded.None? then (db, Stopped)
          else
            var saved := SaveBatch(recorded.value.(jobs := db.jobs[spec.jobId := renewed]), b,
                                   RenewedBatch(CountCall(batch, kind), at, w.batchLeaseMs));
            if saved.None? then (db, Stopped) else (saved.value, Granted)
  }

  /** What the provider reported; `Lost` is a call that threw. */
  datatype Reply =
    | Answer(paid: Usage)
    | Error(usage: Option<Usage>, retryable: bool, code: ErrorCode)
    | Lost

  datatype ErrorCode = CancelledCall | QuotaExhausted | OtherError

  /** The row `settleAttempt` or `markUncertain` writes for a reply. */
  function SettledAttempt(attempt: Attempt, reply: Reply, at: Instant): Attempt {
    match reply
    case Answer(paid) =>
      attempt.(status := Settled, finishedAt := Some(at), usage := Some(paid), failed := false, answered := true)
    case Error(usage, _, _) =>
      attempt.(status := if usage.None? then Uncertain else Settled, finishedAt := Some(at), usage := usage,
               failed := true, answered := false)
    case Lost =>
      attempt.(status := Uncertain, finishedAt := Some(at), usage := None, failed := true, answered := false)
  }

  function Settle(db: Db, id: AttemptId, reply: Reply, at: Instant): Db {
    if id !in db.attempts then db
    else OrRollback(SaveAttempt(db, id, SettledAttempt(db.attempts[id], reply, at)), db)
  }

  datatype Retry = Planned | Exhausted | OwnershipLost

  function RegisterRetry(db: Db, w: Worker, b: BatchId, k: nat, at: Instant): (Db, Retry) {
    if !OwnsBatch(db, w, b) || k >= |db.batches[b].jobs| || !OwnsJob(db, w, db.batches[b].jobs[k].jobId)
    then (db, OwnershipLost)
    else
      var batch := db.batches[b];
      var j := batch.jobs[k].jobId;
      var failed := TransitionJob(db.jobs[j], Fail(true, w.maxAttempts));
      if failed.None? then (db, OwnershipLost)
      else if !failed.value.status.Pending? then (db.(jobs := db.jobs[j := failed.value]), Exhausted)
      else
        var restarted := TransitionJob(failed.value, Start(w.owner, at, w.leaseMs));
        if restarted.None? then (db, OwnershipLost)
        else
          var counted := batch.(counters := batch.counters.(retries := batch.counters.retries + 1));
          var saved := SaveBatch(db.(jobs := db.jobs[j := restarted.value]), b,
                                 RenewedBatch(counted, at, w.batchLeaseMs));
          if saved.None? then (db, OwnershipLost) else (saved.value, Planned)
  }

  // ---- Leaving a job -------------------------------------------------------------------------

  function PauseQuota(db: Db, w: Worker, b: BatchId, k: nat, at: Instant): Db {
    if !OwnsBatch(db, w, b) || k >= |db.batches[b].jobs| then db
    else
      var j := db.batches[b].jobs[k].jobId;
      var jobs := if j in db.jobs && !db.jobs[j].status.Stopped()
                  then db.jobs[j := db.jobs[j].Unleased(PausedQuota)] else db.jobs;
      OrRollback(SaveBatch(db.(jobs := jobs), b, db.batches[b].Closed(BatchStatus.Paused, at)), db)
  }

  /** An interruption never exhausts the attempt budget: the job always returns to `Pending`. */
  function ReleaseJob(db: Db, w: Worker, j: JobId, at: Instant): Db {
    if !OwnsJob(db, w, j) then db
    else
      var failed := TransitionJob(db.jobs[j], Fail(true, w.maxAttempts));
      if failed.None? then db
      else if failed.value.status.Failed? then db.(jobs := db.jobs[j := failed.value.Unleased(JobStatus.Pending)])
      else db.(jobs := db.jobs[j := failed.value])
  }

  function FailJob(db: Db, w: Worker, j: JobId, at: Instant): Db {
    if j !in db.jobs || db.jobs[j].status.Stopped() || db.jobs[j].status.Failed?
      || (db.jobs[j].status.Running? && db.jobs[j].leaseOwner != Some(w.owner))
    then db
    else OrRollback(ApplyJob(db, j, Fail(false, w.maxAttempts)), db)
  }

  // ---- Adoption ------------------------------------------------------------------------------

  /** Newest instant among the results and AI decisions a problem already has. */
  function NewestResult(analyses: seq<AnalysisRecord>, problem: ProblemKey, floor: Instant): Instant {
    if analyses == [] then floor
    else
      var rest := NewestResult(analyses[..|analyses| - 1], problem, floor);
      var last := analyses[|analyses| - 1];
      if last.problem == problem then Max(rest, last.createdAt + 1) else rest
  }

  function NewestDecision(decisions: seq<DecisionRow>, problem: ProblemKey, floor: Instant): Instant {
    if decisions == [] then floor
    else
      var rest := NewestDecision(decisions[..|decisions| - 1], problem, floor);
      var last := decisions[|decisions| - 1];
      if last.problem == problem && last.byAi then Max(rest, last.decidedAt + 1) else rest
  }

  function LogicalAdoptionInstant(db: Db, problem: ProblemKey, at: Instant): Instant {
    NewestDecision(db.decisions, problem, NewestResult(db.analyses, problem, at))
  }

  /** Usage of the settled attempts of one batch job, listed in `order`; `None` when none carries usage. */
  function SumUsage(db: Db, order: seq<AttemptId>, b: BatchId, j: JobId): Option<Usage> {
    if order == [] then None
    else
      var rest := SumUsage(db, order[..|order| - 1], b, j);
      var a := order[|order| - 1];
      if a in db.attempts && PaidBy(db.attempts[a], b, j) then
        if rest.None? then db.attempts[a].usage else Some(AddUsage(rest.value, db.attempts[a].usage.value))
      else rest
  }

  predicate PaidBy(attempt: Attempt, b: BatchId, j: JobId) {
    attempt.batch == b && attempt.job == j && attempt.status.Settled? && attempt.usage.Some?
  }

  /** Model output to adopt. `resolved` are the decisions the domain derives from it. */
  datatype Content = Content(checked: bool, resolved: seq<DecisionRow>, order: seq<AttemptId>)

  /** Everything the adoption transaction re-reads before it may write. */
  predicate FenceOpen(db: Db, w: Worker, b: BatchId, k: nat, at: Instant) {
    && HoldsBatch(db, w, b, at)
    && k < |db.batches[b].jobs|
    && HoldsJob(db, w, db.batches[b].jobs[k].jobId, at)
    && BasisUnchanged(db, db.batches[b].jobs[k])
  }

  function NewRecord(db: Db, b: BatchId, spec: BatchJob, content: Content, at: Instant): AnalysisRecord
    requires spec.snapshotId in db.snapshots
  {
    var problem := db.snapshots[spec.snapshotId].problem;
    AnalysisRecord(b, spec.jobId, problem, spec.snapshotId,
                   if content.checked then LogicalAdoptionInstant(db, problem, at) else at,
                   content.checked, SumUsage(db, content.order, b, spec.jobId))
  }

  function SucceededJob(job: Job, analysisId: nat): Job {
    job.Unleased(Succeeded).(analysis := Some(analysisId))
  }

  /** The one linearized adoption: result, decisions, job success and batch touch together. */
  function Adopted(db: Db, w: Worker, b: BatchId, k: nat, content: Content, at: Instant): Db
    requires FenceOpen(db, w, b, k, at)
  {
    var spec := db.batches[b].jobs[k];
    db.(analyses := db.analyses + [NewRecord(db, b, spec, content, at)],
        decisions := db.decisions + content.resolved,
        jobs := db.jobs[spec.jobId := SucceededJob(db.jobs[spec.jobId], |db.analyses|)],
        batches := db.batches[b := db.batches[b].(updatedAt := at)])
  }

  /** `commitAdoption` with no stop observed; a batch created after `at` cannot be touched at `at`. */
  function Adopt(db: Db, w: Worker, b: BatchId, k: nat, content: Content, at: Instant): Db {
    if FenceOpen(db, w, b, k, at) && db.batches[b].createdAt <= at then Adopted(db, w, b, k, content, at) else db
  }

  // ---- Closing a run -------------------------------------------------------------------------

  predicate EveryJob(db: Db, batch: Batch, status: JobStatus) {
    forall spec | spec in batch.jobs :: spec.jobId in db.jobs && db.jobs[spec.jobId].status == status
  }

  predicate SomeJob(db: Db, batch: Batch, status: JobStatus) {
    exists spec | spec in batch.jobs :: spec.jobId in db.jobs && db.jobs[spec.jobId].status == status
  }

  function FinalStatus(db: Db, batch: Batch): BatchStatus {
    if EveryJob(db, batch, Succeeded) then Completed
    else if SomeJob(db, batch, PausedQuota) then Paused
    else if SomeJob(db, batch, JobStatus.Pending) || SomeJob(db, batch, JobStatus.Running) then BatchStatus.Pending
    else if EveryJob(db, batch, JobStatus.Cancelled) then BatchStatus.Cancelled
    else BatchStatus.Failed
  }

  function FinalizeBatch(db: Db, w: Worker, b: BatchId, at: Instant): Db {
    if !OwnsBatch(db, w, b) then db
    else OrRollback(SaveBatch(db, b, db.batches[b].Closed(FinalStatus(db, db.batches[b]), at)), db)
  }
}
