/** Batch and attempt records with the rules the store enforces on every save (src/application/batch-types.ts). */
module AnalysisBatches {
  import opened Prelude
  import opened AnalysisJobs

  type BatchId = nat
  type AttemptId = nat

  const MAX_ANALYSIS_BATCH_JOBS := 100
  const MAX_ANALYSIS_BATCH_LIMIT := 1000

  datatype BatchStatus = Pending | Running | Paused | Cancelled | Completed | Failed {
    predicate Terminal() { Completed? || Cancelled? }
  }

  /** `manualRevision` is absent only in rows written before it was captured. */
  datatype BatchJob = BatchJob(jobId: JobId, snapshotId: SnapshotId, manualRevision: Option<nat>)

  datatype Limits = Limits(analysisCalls: int, reasoningCalls: int, concurrency: int)

  datatype Counters = Counters(analysisCalls: nat, reasoningCalls: nat, retries: nat) {
    predicate AtLeast(other: Counters) {
      && analysisCalls >= other.analysisCalls
      && reasoningCalls >= other.reasoningCalls
      && retries >= other.retries
    }
  }

  datatype Batch = Batch(
    jobs: seq<BatchJob>,
    maxJobs: int,
    createdAt: Instant,
    status: BatchStatus,
    owner: Option<Owner>,
    leaseExpiresAt: Option<Instant>,
    limits: Limits,
    counters: Counters,
    updatedAt: Instant)
  {
    function Calls(kind: CallKind): nat {
      if kind.AnalysisCall? then counters.analysisCalls else counters.reasoningCalls
    }

    function Limit(kind: CallKind): int {
      if kind.AnalysisCall? then limits.analysisCalls else limits.reasoningCalls
    }

    function JobIds(): set<JobId> {
      set k | 0 <= k < |jobs| :: jobs[k].jobId
    }

    function Closed(next: BatchStatus, at: Instant): Batch {
      this.(status := next, owner := None, leaseExpiresAt := None, updatedAt := at)
    }

    /** A batch is executable only when every job recorded the revision it was prepared against. */
    predicate Executable() {
      forall spec | spec in jobs :: spec.manualRevision.Some?
    }

    predicate WithinLimits() {
      counters.analysisCalls <= limits.analysisCalls && counters.reasoningCalls <= limits.reasoningCalls
    }
  }

  predicate LimitInRange(value: int, min: int) {
    min <= value <= MAX_ANALYSIS_BATCH_LIMIT
  }

  /** A running batch holds one lease that outlives its last write; every other status holds none. */
  predicate ValidLease(batch: Batch) {
    if batch.status.Running? then
      batch.owner.Some? && batch.leaseExpiresAt.Some? && batch.leaseExpiresAt.value > batch.updatedAt
    else
      batch.owner.None? && batch.leaseExpiresAt.None?
  }

  predicate ValidBatch(batch: Batch) {
    && 1 <= |batch.jobs| <= batch.maxJobs <= MAX_ANALYSIS_BATCH_JOBS
    && (forall i, j | 0 <= i < j < |batch.jobs| :: batch.jobs[i].jobId != batch.jobs[j].jobId)
    && batch.createdAt <= batch.updatedAt
    && LimitInRange(batch.limits.analysisCalls, 0)
    && LimitInRange(batch.limits.reasoningCalls, 0)
    && LimitInRange(batch.limits.concurrency, 1)
    && ValidLease(batch)
  }

  predicate LegalBatchChange(before: Batch, after: Batch) {
    && after.jobs == before.jobs
    && after.maxJobs == before.maxJobs
    && after.createdAt == before.createdAt
    && (before.status.Terminal() ==> after.status == before.status)
    && after.counters.AtLeast(before.counters)
  }

  datatype Role = Analysis | Verification | Reasoning {
    /** Analysis and verification share one budget. */
    function Kind(): CallKind {
      if Reasoning? then ReasoningCall else AnalysisCall
    }
  }

  datatype Usage = Usage(calls: nat, promptTokens: nat, completionTokens: nat, totalTokens: nat)

  datatype AttemptStatus = Reserved | Uncertain | Settled

  datatype Attempt = Attempt(
    batch: BatchId,
    job: JobId,
    snapshot: SnapshotId,
    role: Role,
    requestedAt: Instant,
    status: AttemptStatus,
    finishedAt: Option<Instant>,
    usage: Option<Usage>,
    failed: bool,
    answered: bool)

  predicate ValidAttempt(attempt: Attempt) {
    && (attempt.finishedAt.Some? ==> attempt.requestedAt <= attempt.finishedAt.value)
    && match attempt.status
       case Reserved => attempt.finishedAt.None? && attempt.usage.None? && !attempt.failed && !attempt.answered
       case Uncertain => !attempt.answered
       case Settled => attempt.finishedAt.Some? && attempt.answered != attempt.failed
  }

  predicate SameCall(before: Attempt, after: Attempt) {
    && after.batch == before.batch
    && after.job == before.job
    && after.snapshot == before.snapshot
    && after.role == before.role
    && after.requestedAt == before.requestedAt
  }

  /** The lifecycle only moves forward and a settled row never changes. */
  predicate LegalAttemptChange(before: Attempt, after: Attempt) {
    && SameCall(before, after)
    && !before.status.Settled?
    && (before.status.Uncertain? ==> !after.status.Reserved?)
  }

  function AddUsage(left: Usage, right: Usage): Usage {
    Usage(left.calls + right.calls, left.promptTokens + right.promptTokens,
          left.completionTokens + right.completionTokens, left.totalTokens + right.totalTokens)
  }
}
