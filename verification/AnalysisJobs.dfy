/** The analysis job record and its pure transition function (src/domain/analysis.ts). */
module AnalysisJobs {
  import opened Prelude

  type SnapshotId = nat
  type RunId = nat

  /** Job ids are hashes of the snapshot and an optional run identity; collisions are excluded. */
  datatype JobId = JobId(snapshot: SnapshotId, run: Option<RunId>)

  datatype CallKind = AnalysisCall | ReasoningCall

  datatype JobStatus = Pending | Running | PausedQuota | Succeeded | Failed | Cancelled {
    predicate Stopped() { Succeeded? || Cancelled? }
  }

  datatype Job = Job(
    snapshot: SnapshotId,
    status: JobStatus,
    attempts: nat,
    analysisCalls: nat,
    reasoningCalls: nat,
    retries: nat,
    leaseOwner: Option<Owner>,
    leaseExpiresAt: Option<Instant>,
    analysis: Option<nat>)
  {
    function Calls(kind: CallKind): nat {
      if kind.AnalysisCall? then analysisCalls else reasoningCalls
    }

    function Unleased(next: JobStatus): Job {
      this.(status := next, leaseOwner := None, leaseExpiresAt := None)
    }

    /** A job row is leased exactly while it runs, and names its result exactly once it succeeded. */
    predicate Coherent() {
      && (status.Running? <==> leaseOwner.Some?)
      && (status.Running? <==> leaseExpiresAt.Some?)
      && (status.Succeeded? <==> analysis.Some?)
    }
  }

  datatype JobEvent =
    | Start(owner: Owner, at: Instant, leaseMs: int)
    | ConsumeCall(kind: CallKind, limit: int)
    | Succeed(analysisId: nat)
    | Fail(retryable: bool, maxAttempts: int)
    | PauseForQuota
    | Requeue(at: Instant)
    | Cancel
    | Resume(owner: Owner, at: Instant, leaseMs: int)

  function NewJob(snapshot: SnapshotId): Job {
    Job(snapshot, Pending, 0, 0, 0, 0, None, None, None)
  }

  function StartedJob(job: Job, owner: Owner, at: Instant, leaseMs: int): Job {
    job.(status := Running, attempts := job.attempts + 1, leaseOwner := Some(owner),
         leaseExpiresAt := Some(at + leaseMs))
  }

  /**
   * What every accepted transition keeps: a stopped job accepts nothing, the snapshot is fixed,
   * budgets only grow, and the lease and result fields stay in step with the status.
   */
  ghost predicate JobProgress(before: Job, after: Job) {
    && !before.status.Stopped()
    && after.snapshot == before.snapshot
    && after.attempts >= before.attempts
    && after.analysisCalls >= before.analysisCalls
    && after.reasoningCalls >= before.reasoningCalls
    && after.retries >= before.retries
    && after.Coherent()
  }

  /**
   * `None` is the refused transition (`invalid_transition`). Only an accepted `ConsumeCall` that
   * stays inside its limit spends, and it spends exactly one unit of its own kind.
   */
  function TransitionJob(job: Job, event: JobEvent): (next: Option<Job>)
    ensures next.Some? && job.Coherent() ==> JobProgress(job, next.value)
    ensures job.status.Stopped() ==> next.None?
    ensures next.Some? ==> forall kind ::
      if event.ConsumeCall? && event.kind == kind && next.value.status.Running?
      then next.value.Calls(kind) == job.Calls(kind) + 1 <= event.limit
      else next.value.Calls(kind) == job.Calls(kind)
  {
    match event
    case Start(owner, at, leaseMs) =>
      if (job.status.Pending? || job.status.PausedQuota?) && leaseMs >= 1
      then Some(StartedJob(job, owner, at, leaseMs)) else None
    case ConsumeCall(kind, limit) =>
      if !job.status.Running? || limit < 1 then None
      else if job.Calls(kind) >= limit then Some(job.Unleased(PausedQuota))
      else if kind.AnalysisCall? then Some(job.(analysisCalls := job.analysisCalls + 1))
      else Some(job.(reasoningCalls := job.reasoningCalls + 1))
    case Succeed(analysisId) =>
      if job.status.Running? then Some(job.Unleased(Succeeded).(analysis := Some(analysisId))) else None
    case Fail(retryable, maxAttempts) =>
      if job.status.Stopped() || maxAttempts < 1 then None
      else if !retryable || job.attempts >= maxAttempts then Some(job.Unleased(Failed))
      else Some(job.Unleased(Pending).(retries := job.retries + 1))
    case PauseForQuota =>
      if job.status.Stopped() then None else Some(job.Unleased(PausedQuota))
    case Requeue(at) =>
      if job.status.Stopped() || (job.status.Running? && !Expired(job.leaseExpiresAt, at)) then None
      else Some(job.Unleased(Pending))
    case Cancel =>
      if job.status.Stopped() then None else Some(job.Unleased(Cancelled))
    case Resume(owner, at, leaseMs) =>
      if job.status.PausedQuota? && leaseMs >= 1 then Some(StartedJob(job, owner, at, leaseMs)) else None
  }
}
