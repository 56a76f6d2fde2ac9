/**
 * The pipeline's transactions as methods on one mutable store. Each is proved to leave exactly the
 * rows its specification function names, so everything proved about runs holds of them.
 */
module PipelineStore {
  import opened Prelude
  import opened AnalysisJobs
  import opened AnalysisBatches
  import opened AnalysisPipeline

  class Store {
    var snapshots: map<SnapshotId, Snapshot>
    var heads: map<ProblemKey, Head>
    var manualRevisions: map<ProblemKey, nat>
    var batches: map<BatchId, Batch>
    var jobs: map<JobId, Job>
    var attempts: map<AttemptId, Attempt>
    var analyses: seq<AnalysisRecord>
    var decisions: seq<DecisionRow>

    constructor (rows: Db)
      ensures Rows() == rows
    {
      snapshots, heads, manualRevisions := rows.snapshots, rows.heads, rows.manualRevisions;
      batches, jobs, attempts := rows.batches, rows.jobs, rows.attempts;
      analyses, decisions := rows.analyses, rows.decisions;
    }

    function Rows(): Db
      reads this
    {
      Db(snapshots, heads, manualRevisions, batches, jobs, attempts, analyses, decisions)
    }

    /** Rolls every write of a transaction back. */
    method Restore(rows: Db)
      modifies this
      ensures Rows() == rows
    {
      snapshots, heads, manualRevisions := rows.snapshots, rows.heads, rows.manualRevisions;
      batches, jobs, attempts := rows.batches, rows.jobs, rows.attempts;
      analyses, decisions := rows.analyses, rows.decisions;
    }

    method SaveBatchRow(id: BatchId, next: Batch) returns (saved: bool)
      modifies this`batches
      ensures saved <==> SaveBatch(old(Rows()), id, next).Some?
      ensures Rows() == OrRollback(SaveBatch(old(Rows()), id, next), old(Rows()))
    {
      saved := ValidBatch(next) && (id in batches ==> LegalBatchChange(batches[id], next));
      if saved {
        batches := batches[id := next];
      }
    }

    method SaveAttemptRow(id: AttemptId, next: Attempt) returns (saved: bool)
      modifies this`attempts
      ensures saved <==> SaveAttempt(old(Rows()), id, next).Some?
      ensures Rows() == OrRollback(SaveAttempt(old(Rows()), id, next), old(Rows()))
    {
      saved := ValidAttempt(next)
            && (id in attempts && attempts[id] != next ==> LegalAttemptChange(attempts[id], next));
      if saved {
        attempts := attempts[id := next];
      }
    }

    method SaveJobRow(id: JobId, next: Job)
      modifies this`jobs
      ensures jobs == old(jobs)[id := next]
    {
      jobs := jobs[id := next];
    }
  }

  // ---- Preparation ---------------------------------------------------------------------------

  /** One snapshot of `prepareBatch`; `ok` is false when it throws. */
  method PrepareOne(store: Store, request: PrepareRequest, id: SnapshotId, at: Instant)
    returns (ok: bool, target: Option<JobId>)
    modifies store
    ensures ok <==> PrepareSnapshot(old(store.Rows()), request, id, at).Some?
    ensures ok ==> PrepareSnapshot(old(store.Rows()), request, id, at) == Some((store.Rows(), target))
  {
    ok, target := false, None;
    var before := store.Rows();
    if ScheduledElsewhere(before, request.batch, id) { return; }
    if !request.reanalyze && AlreadyDone(before, request.checked, id) { return true, None; }
    var legacy := JobId(id, None);
    if legacy in store.jobs && !store.jobs[legacy].status.Stopped()
      && !(request.reanalyze && store.jobs[legacy].status.Failed?)
    {
      target := Some(legacy);
    } else {
      target := FirstContinuable(before, request.listing, id, request.reanalyze);
      if target.None? {
        var rerun := if legacy in store.jobs then JobId(id, Some(RunOf(request, id))) else legacy;
        if rerun !in store.jobs {
          store.SaveJobRow(rerun, NewJob(id));
          return true, Some(rerun);
        }
        if store.jobs[rerun].status.Stopped() { return false, None; }
        target := Some(rerun);
      }
    }
    if store.jobs[target.value].status.Failed? {
      store.SaveJobRow(target.value, TransitionJob(store.jobs[target.value], Requeue(at)).value);
    }
    ok := true;
  }

  method PrepareEach(store: Store, request: PrepareRequest, at: Instant) returns (ok: bool, jobs: seq<BatchJob>)
    requires forall id | id in request.snapshots :: id in store.snapshots
    modifies store
    ensures ok <==> PrepareAll(old(store.Rows()), request, request.snapshots, at).Some?
    ensures ok ==> PrepareAll(old(store.Rows()), request, request.snapshots, at) == Some((store.Rows(), jobs))
  {
    var before, ids := store.Rows(), request.snapshots;
    jobs := [];
    for n := 0 to |ids|
      invariant PrepareAll(before, request, ids[..n], at) == Some((store.Rows(), jobs))
      invariant store.snapshots == before.snapshots && store.manualRevisions == before.manualRevisions
    {
      assert ids[..n + 1][..n] == ids[..n];
      ghost var middle := store.Rows();
      var target;
      ok, target := PrepareOne(store, request, ids[n], at);
      if !ok {
        NothingPrepared(before, request, ids, n + 1, at);
        return;
      }
      PrepareOneFrame(middle, request, ids[n], at);
      if target.Some? {
        jobs := jobs + [BatchJob(target.value, ids[n], Some(ManualRevision(before, before.snapshots[ids[n]].problem)))];
      }
    }
    assert ids[..|ids|] == ids;
    ok := true;
  }

  method PrepareBatch(store: Store, request: PrepareRequest, at: Instant)
    modifies store
    ensures store.Rows() == Prepare(old(store.Rows()), request, at)
  {
    var before, ids := store.Rows(), request.snapshots;
    if ids == [] || (exists i, j | 0 <= i < j < |ids| :: ids[i] == ids[j]) { return; }
    if exists id | id in ids :: id !in store.snapshots || !HeadIsCurrent(before, id) { return; }
    var ok, jobs := PrepareEach(store, request, at);
    if !ok { store.Restore(before); return; }
    if jobs == [] { return; }
    assert store.batches == before.batches by { AllPreparedFrame(before, request, ids, at); }
    if request.batch in store.batches { store.Restore(before); return; }
    var saved := store.SaveBatchRow(request.batch, NewBatch(request, jobs));
    if !saved { store.Restore(before); }
  }

  lemma {:induction false} AllPreparedFrame(db: Db, request: PrepareRequest, ids: seq<SnapshotId>, at: Instant)
    requires forall id | id in ids :: id in db.snapshots
    ensures var result := PrepareAll(db, request, ids, at);
            result.Some? ==> result.value.0 == db.(jobs := result.value.0.jobs)
  {
    assert db == db.(jobs := db.jobs);
    if ids != [] {
      AllPreparedFrame(db, request, ids[..|ids| - 1], at);
      var before := PrepareAll(db, request, ids[..|ids| - 1], at);
      if before.Some? { PrepareOneFrame(before.value.0, request, ids[|ids| - 1], at); }
    }
  }

  lemma PrepareOneFrame(db: Db, request: PrepareRequest, id: SnapshotId, at: Instant)
    ensures var result := PrepareSnapshot(db, request, id, at);
            result.Some? ==> result.value.0 == db.(jobs := result.value.0.jobs)
  {
    assert db == db.(jobs := db.jobs);
  }

  lemma {:induction false} NothingPrepared(db: Db, request: PrepareRequest, ids: seq<SnapshotId>, n: nat, at: Instant)
    requires n <= |ids| && forall id | id in ids :: id in db.snapshots
    requires PrepareAll(db, request, ids[..n], at).None?
    ensures PrepareAll(db, request, ids, at).None?
    decreases |ids| - n
  {
    if n == |ids| {
      assert ids[..n] == ids;
    } else {
      assert ids[..n + 1][..n] == ids[..n];
      NothingPrepared(db, request, ids, n + 1, at);
    }
  }

  // ---- Batch control -------------------------------------------------------------------------

  method Pause(store: Store, b: BatchId, at: Instant)
    modifies store
    ensures store.Rows() == PauseBatch(old(store.Rows()), b, at)
  {
    if b !in store.batches { return; }
    var batch := store.batches[b];
    if !batch.Executable() || batch.status.Paused? || batch.status.Terminal() { return; }
    var _ := store.SaveBatchRow(b, batch.Closed(BatchStatus.Paused, at));
  }

  function FirstIds(batch: Batch, n: nat): set<JobId>
    requires n <= |batch.jobs|
  {
    set k | 0 <= k < n :: batch.jobs[k].jobId
  }

  lemma NextId(batch: Batch, k: nat)
    requires k < |batch.jobs|
    ensures FirstIds(batch, k + 1) == FirstIds(batch, k) + {batch.jobs[k].jobId}
    ensures FirstIds(batch, |batch.jobs|) == batch.JobIds()
  {
  }

  method CancelEach(store: Store, batch: Batch, at: Instant)
    modifies store`jobs
    ensures store.jobs == CancelJobs(old(store.jobs), batch.JobIds())
  {
    for k := 0 to |batch.jobs|
      invariant store.jobs == CancelJobs(old(store.jobs), FirstIds(batch, k))
    {
      NextId(batch, k);
      var j := batch.jobs[k].jobId;
      if j in store.jobs && !store.jobs[j].status.Stopped() {
        store.SaveJobRow(j, TransitionJob(store.jobs[j], Cancel).value);
      }
    }
    assert FirstIds(batch, |batch.jobs|) == batch.JobIds();
  }

  method CancelPersisted(store: Store, b: BatchId, at: Instant)
    modifies store
    ensures store.Rows() == CancelBatch(old(store.Rows()), b, at)
  {
    if b !in store.batches || store.batches[b].status.Terminal() { return; }
    var before, batch := store.Rows(), store.batches[b];
    CancelEach(store, batch, at);
    var saved := store.SaveBatchRow(b, batch.Closed(BatchStatus.Cancelled, at));
    if !saved { store.Restore(before); }
  }

  method RequeueEach(store: Store, batch: Batch, at: Instant)
    modifies store`jobs
    ensures store.jobs == RequeueJobs(old(store.jobs), batch.JobIds())
  {
    for k := 0 to |batch.jobs|
      invariant store.jobs == RequeueJobs(old(store.jobs), FirstIds(batch, k))
    {
      NextId(batch, k);
      var j := batch.jobs[k].jobId;
      if j in store.jobs && (store.jobs[j].status.PausedQuota? || store.jobs[j].status.Failed?) {
        store.SaveJobRow(j, TransitionJob(store.jobs[j], Requeue(at)).value);
      }
    }
    assert FirstIds(batch, |batch.jobs|) == batch.JobIds();
  }

  method Resume(store: Store, b: BatchId, limits: Limits, at: Instant)
    modifies store
    ensures store.Rows() == ResumeBatch(old(store.Rows()), b, limits, at)
  {
    if b !in store.batches { return; }
    var before, batch := store.Rows(), store.batches[b];
    if !batch.Executable() || batch.status.Running? || batch.status.Terminal() { return; }
    RequeueEach(store, batch, at);
    var saved := store.SaveBatchRow(b, batch.Closed(BatchStatus.Pending, at).(limits := limits));
    if !saved { store.Restore(before); }
  }

  // ---- Recovery ------------------------------------------------------------------------------

  method ReclaimBatch(store: Store, b: BatchId, at: Instant)
    modifies store
    ensures store.Rows() == RecoverBatch(old(store.Rows()), b, at)
  {
    if b !in store.batches || !store.batches[b].status.Running?
      || !Expired(store.batches[b].leaseExpiresAt, at) { return; }
    var _ := store.SaveBatchRow(b, store.batches[b].Closed(BatchStatus.Pending, at));
  }

  /** The attempts of one job already stamped by the recovery loop. */
  function StampedAttempts(attempts: map<AttemptId, Attempt>, done: set<AttemptId>, at: Instant)
    : map<AttemptId, Attempt>
  {
    map a | a in attempts :: if a in done then UncertainAttempt(attempts[a], at) else attempts[a]
  }

  /** Stamps every orphaned call; a call requested after `at` cannot be stamped and stops the loop. */
  method OrphanEach(store: Store, j: JobId, at: Instant) returns (stamped: bool)
    modifies store`attempts
    ensures stamped <==>
      !exists a | a in old(store.attempts) ::
        OrphanedBy(old(store.attempts)[a], j) && at < old(store.attempts)[a].requestedAt
    ensures stamped ==> store.attempts == OrphanAttempts(old(store.attempts), j, at)
  {
    ghost var before := store.attempts;
    var reserved := set a | a in store.attempts && OrphanedBy(store.attempts[a], j);
    var left := reserved;
    while left != {}
      invariant left <= reserved
      invariant store.attempts == StampedAttempts(before, reserved - left, at)
      invariant forall a | a in reserved - left :: before[a].requestedAt <= at
    {
      var a :| a in left;
      var saved := store.SaveAttemptRow(a, UncertainAttempt(store.attempts[a], at));
      if !saved {
        assert OrphanedBy(before[a], j) && at < before[a].requestedAt;
        return false;
      }
      left := left - {a};
    }
    return true;
  }

  method ReclaimJob(store: Store, j: JobId, at: Instant)
    modifies store
    ensures store.Rows() == RecoverJob(old(store.Rows()), j, at)
  {
    var before := store.Rows();
    if j in store.jobs && store.jobs[j].status.Running? {
      if !Expired(store.jobs[j].leaseExpiresAt, at) { return; }
      store.SaveJobRow(j, TransitionJob(store.jobs[j], Requeue(at)).value);
    }
    var stamped := OrphanEach(store, j, at);
    if !stamped { store.Restore(before); }
  }

  // ---- Claims --------------------------------------------------------------------------------

  method Claim(store: Store, w: Worker, b: BatchId, at: Instant)
    modifies store
    ensures store.Rows() == ClaimBatch(old(store.Rows()), w, b, at)
  {
    if b !in store.batches { return; }
    var batch := store.batches[b];
    if !batch.Executable() || batch.status.Terminal() || batch.status.Paused? || batch.status.Failed? { return; }
    if batch.status.Running? && !Expired(batch.leaseExpiresAt, at) { return; }
    var _ := store.SaveBatchRow(b, batch.(status := BatchStatus.Running, owner := Some(w.owner),
                                          leaseExpiresAt := Some(at + w.batchLeaseMs), updatedAt := at));
  }

  method ClaimJobForBatch(store: Store, w: Worker, b: BatchId, k: nat, at: Instant) returns (run: bool)
    modifies store
    ensures (store.Rows(), run) == ClaimJob(old(store.Rows()), w, b, k, at)
  {
    run := false;
    var before := store.Rows();
    if !HoldsBatch(before, w, b, at) || k >= |store.batches[b].jobs| { return; }
    var spec := store.batches[b].jobs[k];
    if spec.jobId !in store.jobs { return; }
    var job := store.jobs[spec.jobId];
    if job.status.Stopped() || job.status.Failed? || job.status.PausedQuota? { return; }
    if job.status.Running? && !Expired(job.leaseExpiresAt, at) { return; }
    if spec.snapshotId !in store.snapshots { return; }
    if !HeadIsCurrent(before, spec.snapshotId)
      || (spec.manualRevision.Some?
          && ManualRevision(before, store.snapshots[spec.snapshotId].problem) != spec.manualRevision.value)
    {
      var failed := TransitionJob(job, Fail(false, w.maxAttempts));
      if failed.Some? { store.SaveJobRow(spec.jobId, failed.value); }
      return;
    }
    if spec.manualRevision.None? { return; }
    var started := StartedOrTakenOver(job, w, at);
    if started.None? { return; }
    store.SaveJobRow(spec.jobId, started.value);
    run := store.SaveBatchRow(b, RenewedBatch(store.batches[b], at, w.batchLeaseMs));
    if !run { store.Restore(before); }
  }

  // ---- Paid calls ----------------------------------------------------------------------------

  method ReserveAttempt(store: Store, w: Worker, b: BatchId, k: nat, role: Role, id: AttemptId, at: Instant)
    returns (outcome: Reservation)
    modifies store
    ensures (store.Rows(), outcome) == Reserve(old(store.Rows()), w, b, k, role, id, at)
  {
    var before := store.Rows();
    if !HoldsBatch(before, w, b, at) || k >= |store.batches[b].jobs| { return Stopped; }
    var batch := store.batches[b];
    var spec := batch.jobs[k];
    if !HoldsJob(before, w, spec.jobId, at) { return Stopped; }
    if !BasisUnchanged(before, spec) { return Refused; }
    if batch.Calls(role.Kind()) >= batch.Limit(role.Kind()) { return Quota; }
    var consumed := TransitionJob(store.jobs[spec.jobId], ConsumeCall(role.Kind(), w.JobLimit(role.Kind())));
    if consumed.None? { return Stopped; }
    if consumed.value.status.PausedQuota? {
      store.SaveJobRow(spec.jobId, consumed.value);
      return Quota;
    }
    var recorded := store.SaveAttemptRow(id, NewAttempt(b, spec, role, at));
    if !recorded { return Stopped; }
    store.SaveJobRow(spec.jobId,
                     consumed.value.(leaseExpiresAt := RenewedLease(consumed.value.leaseExpiresAt, at, w.leaseMs)));
    var saved := store.SaveBatchRow(b, RenewedBatch(CountCall(batch, role.Kind()), at, w.batchLeaseMs));
    if !saved {
      store.Restore(before);
      return Stopped;
    }
    return Granted;
  }

  method SettleAttempt(store: Store, id: AttemptId, reply: Reply, at: Instant) returns (saved: bool)
    modifies store
    ensures store.Rows() == Settle(old(store.Rows()), id, reply, at)
    ensures saved ==> id in store.attempts && store.attempts[id] == SettledAttempt(old(store.attempts)[id], reply, at)
  {
    saved := false;
    if id in store.attempts {
      saved := store.SaveAttemptRow(id, SettledAttempt(store.attempts[id], reply, at));
    }
  }

  method PlanRetry(store: Store, w: Worker, b: BatchId, k: nat, at: Instant) returns (retry: Retry)
    modifies store
    ensures (store.Rows(), retry) == RegisterRetry(old(store.Rows()), w, b, k, at)
  {
    var before := store.Rows();
    if !OwnsBatch(before, w, b) || k >= |store.batches[b].jobs| { return OwnershipLost; }
    var batch := store.batches[b];
    var j := batch.jobs[k].jobId;
    if !OwnsJob(before, w, j) { return OwnershipLost; }
    var failed := TransitionJob(store.jobs[j], Fail(true, w.maxAttempts));
    if failed.None? { return OwnershipLost; }
    if !failed.value.status.Pending? {
      store.SaveJobRow(j, failed.value);
      return Exhausted;
    }
    var restarted := TransitionJob(failed.value, Start(w.owner, at, w.leaseMs));
    if restarted.None? { return OwnershipLost; }
    store.SaveJobRow(j, restarted.value);
    var counted := batch.(counters := batch.counters.(retries := batch.counters.retries + 1));
    var saved := store.SaveBatchRow(b, RenewedBatch(counted, at, w.batchLeaseMs));
    if !saved {
      store.Restore(before);
      return OwnershipLost;
    }
    return Planned;
  }

  // ---- Leaving a job -------------------------------------------------------------------------

  method PersistQuotaPause(store: Store, w: Worker, b: BatchId, k: nat, at: Instant)
    modifies store
    ensures store.Rows() == PauseQuota(old(store.Rows()), w, b, k, at)
  {
    var before := store.Rows();
    if !OwnsBatch(before, w, b) || k >= |store.batches[b].jobs| { return; }
    var batch := store.batches[b];
    var j := batch.jobs[k].jobId;
    if j in store.jobs && !store.jobs[j].status.Stopped() {
      store.SaveJobRow(j, TransitionJob(store.jobs[j], PauseForQuota).value);
    }
    var saved := store.SaveBatchRow(b, batch.Closed(BatchStatus.Paused, at));
    if !saved { store.Restore(before); }
  }

  method Release(store: Store, w: Worker, j: JobId, at: Instant)
    modifies store
    ensures store.Rows() == ReleaseJob(old(store.Rows()), w, j, at)
  {
    if !OwnsJob(store.Rows(), w, j) { return; }
    var next := TransitionJob(store.jobs[j], Fail(true, w.maxAttempts));
    if next.None? { return; }
    if next.value.status.Failed? {
      next := TransitionJob(next.value, Requeue(at));
    }
    store.SaveJobRow(j, next.value);
  }

  method RecordFailure(store: Store, w: Worker, j: JobId, at: Instant)
    modifies store
    ensures store.Rows() == FailJob(old(store.Rows()), w, j, at)
  {
    if j !in store.jobs { return; }
    var job := store.jobs[j];
    if job.status.Stopped() || job.status.Failed? { return; }
    if job.status.Running? && job.leaseOwner != Some(w.owner) { return; }
    var failed := TransitionJob(job, Fail(false, w.maxAttempts));
    if failed.Some? { store.SaveJobRow(j, failed.value); }
  }

  // ---- Closing a run -------------------------------------------------------------------------

  /** What `finalizeBatch` has seen of the statuses so far. */
  datatype Tally = Tally(allSucceeded: bool, anyPaused: bool, anyOpen: bool, allCancelled: bool)

  predicate AllOf(jobs: map<JobId, Job>, specs: seq<BatchJob>, status: JobStatus) {
    forall spec | spec in specs :: spec.jobId in jobs && jobs[spec.jobId].status == status
  }

  predicate AnyOf(jobs: map<JobId, Job>, specs: seq<BatchJob>, status: JobStatus) {
    exists spec | spec in specs :: spec.jobId in jobs && jobs[spec.jobId].status == status
  }

  predicate TallyOf(tally: Tally, jobs: map<JobId, Job>, specs: seq<BatchJob>) {
    && tally.allSucceeded == AllOf(jobs, specs, Succeeded)
    && tally.anyPaused == AnyOf(jobs, specs, PausedQuota)
    && tally.anyOpen == (AnyOf(jobs, specs, JobStatus.Pending) || AnyOf(jobs, specs, JobStatus.Running))
    && tally.allCancelled == AllOf(jobs, specs, JobStatus.Cancelled)
  }

  /** A job that is not stored counts as failed. */
  method CountStatuses(store: Store, specs: seq<BatchJob>) returns (tally: Tally)
    ensures TallyOf(tally, store.jobs, specs)
  {
    tally := Tally(true, false, false, true);
    for k := 0 to |specs|
      invariant TallyOf(tally, store.jobs, specs[..k])
    {
      var j := specs[k].jobId;
      var status := if j in store.jobs then store.jobs[j].status else JobStatus.Failed;
      tally := Tally(tally.allSucceeded && status.Succeeded?, tally.anyPaused || status.PausedQuota?,
                     tally.anyOpen || status.Pending? || status.Running?, tally.allCancelled && status.Cancelled?);
      assert specs[..k + 1] == specs[..k] + [specs[k]];
    }
    assert specs[..|specs|] == specs;
  }

  method Finalize(store: Store, w: Worker, b: BatchId, at: Instant)
    modifies store
    ensures store.Rows() == FinalizeBatch(old(store.Rows()), w, b, at)
  {
    if !OwnsBatch(store.Rows(), w, b) { return; }
    var batch := store.batches[b];
    var tally := CountStatuses(store, batch.jobs);
    var status := if tally.allSucceeded then Completed
                  else if tally.anyPaused then Paused
                  else if tally.anyOpen then BatchStatus.Pending
                  else if tally.allCancelled then BatchStatus.Cancelled
                  else BatchStatus.Failed;
    var _ := store.SaveBatchRow(b, batch.Closed(status, at));
  }

  // ---- Adoption ------------------------------------------------------------------------------

  method NextLogicalInstant(store: Store, problem: ProblemKey, at: Instant) returns (instant: Instant)
    ensures instant == LogicalAdoptionInstant(store.Rows(), problem, at)
  {
    instant := at;
    for i := 0 to |store.analyses|
      invariant instant == NewestResult(store.analyses[..i], problem, at)
    {
      var row := store.analyses[i];
      if row.problem == problem { instant := Max(instant, row.createdAt + 1); }
      assert store.analyses[..i + 1][..i] == store.analyses[..i];
    }
    assert store.analyses[..|store.analyses|] == store.analyses;
    ghost var floor := instant;
    for i := 0 to |store.decisions|
      invariant instant == NewestDecision(store.decisions[..i], problem, floor)
    {
      var row := store.decisions[i];
      if row.problem == problem && row.byAi { instant := Max(instant, row.decidedAt + 1); }
      assert store.decisions[..i + 1][..i] == store.decisions[..i];
    }
    assert store.decisions[..|store.decisions|] == store.decisions;
  }

  method SettledUsage(store: Store, order: seq<AttemptId>, b: BatchId, j: JobId) returns (usage: Option<Usage>)
    ensures usage == SumUsage(store.Rows(), order, b, j)
  {
    usage := None;
    for i := 0 to |order|
      invariant usage == SumUsage(store.Rows(), order[..i], b, j)
    {
      var a := order[i];
      if a in store.attempts && PaidBy(store.attempts[a], b, j) {
        usage := if usage.None? then store.attempts[a].usage
                 else Some(AddUsage(usage.value, store.attempts[a].usage.value));
      }
      assert order[..i + 1][..i] == order[..i];
    }
    assert order[..|order|] == order;
  }

  /** What the process shows at one await: a pause request, and a cancelled token. */
  datatype Signals = Signals(pause: bool, cancelled: bool) {
    predicate Stop() { pause || cancelled }

    /** A pause wins: pausing cancels the local token as well. */
    function Reason(): AbortReason
      requires Stop()
    {
      if pause then PausedAbort else CancelledAbort
    }
  }

  datatype AbortReason =
    | PausedAbort | CancelledAbort | BatchCancelledAbort | JobCancelledAbort
    | OwnershipLostAbort | LeaseExpiredAbort | JobNotRunningAbort | StaleSnapshotAbort | RevisionChangedAbort

  /** `StorageFailed` is a refused store write that propagates; the transaction is rolled back. */
  datatype Commit = Committed(analysisId: nat) | Aborted(reason: AbortReason) | StorageFailed

  const STOP_POINTS := 10

  predicate Undisturbed(seen: seq<Signals>) {
    forall i | 0 <= i < |seen| :: !seen[i].Stop()
  }

  /**
   * The reads of the adoption transaction with its first five stop points; a refusal leaves nothing to
   * roll back, and it is a cancellation only if a stop point saw a cancelled token and no pause.
   */
  method CheckFence(store: Store, w: Worker, b: BatchId, k: nat, at: Instant, seen: seq<Signals>)
    returns (refused: Option<AbortReason>)
    requires |seen| == STOP_POINTS
    requires b in store.batches ==>
      k < |store.batches[b].jobs| && store.batches[b].jobs[k].snapshotId in store.snapshots
    ensures refused.None? <==> FenceOpen(store.Rows(), w, b, k, at) && Undisturbed(seen[..5])
    ensures refused == Some(CancelledAbort) ==> exists i | 0 <= i < 5 :: seen[i].cancelled && !seen[i].pause
  {
    if seen[0].Stop() { return Some(seen[0].Reason()); }
    if seen[1].Stop() { return Some(seen[1].Reason()); }
    if b !in store.batches || store.batches[b].status.Cancelled? { return Some(BatchCancelledAbort); }
    var batch := store.batches[b];
    if batch.status.Paused? { return Some(PausedAbort); }
    if !batch.status.Running? || batch.owner != Some(w.owner) { return Some(OwnershipLostAbort); }
    if Expired(batch.leaseExpiresAt, at) { return Some(LeaseExpiredAbort); }
    var spec := batch.jobs[k];
    if seen[2].Stop() { return Some(seen[2].Reason()); }
    if spec.jobId !in store.jobs || store.jobs[spec.jobId].status.Cancelled? { return Some(JobCancelledAbort); }
    var job := store.jobs[spec.jobId];
    if !job.status.Running? || job.leaseOwner != Some(w.owner) { return Some(JobNotRunningAbort); }
    if Expired(job.leaseExpiresAt, at) { return Some(LeaseExpiredAbort); }
    if seen[3].Stop() { return Some(seen[3].Reason()); }
    if !HeadIsCurrent(store.Rows(), spec.snapshotId) { return Some(StaleSnapshotAbort); }
    if seen[4].Stop() { return Some(seen[4].Reason()); }
    if spec.manualRevision != Some(ManualRevision(store.Rows(), store.snapshots[spec.snapshotId].problem)) {
      return Some(RevisionChangedAbort);
    }
    return None;
  }

  /** The four writes, each followed by a stop point; any stop or refused write rolls all of them back. */
  method WriteAdoption(store: Store, w: Worker, b: BatchId, k: nat, content: Content, at: Instant, seen: seq<Signals>)
    returns (commit: Commit)
    requires |seen| == STOP_POINTS && FenceOpen(store.Rows(), w, b, k, at) && ValidBatch(store.batches[b])
    modifies store
    ensures commit.Committed? <==> Undisturbed(seen[5..]) && old(store.batches)[b].createdAt <= at
    ensures commit.Committed? ==> store.Rows() == Adopted(old(store.Rows()), w, b, k, content, at)
    ensures commit.Committed? ==> commit.analysisId == |old(store.analyses)|
    ensures !commit.Committed? ==> store.Rows() == old(store.Rows())
    ensures commit == Aborted(CancelledAbort) ==> exists i | 5 <= i < |seen| :: seen[i].cancelled && !seen[i].pause
  {
    var before := store.Rows();
    var spec := store.batches[b].jobs[k];
    var problem := store.snapshots[spec.snapshotId].problem;
    var usage := SettledUsage(store, content.order, b, spec.jobId);
    if seen[5].Stop() { assert seen[5..][0].Stop(); return Aborted(seen[5].Reason()); }
    var createdAt := at;
    if content.checked { createdAt := NextLogicalInstant(store, problem, at); }
    commit := Committed(|store.analyses|);
    store.analyses := store.analyses
      + [AnalysisRecord(b, spec.jobId, problem, spec.snapshotId, createdAt, content.checked, usage)];
    if seen[6].Stop() { assert seen[5..][1].Stop(); store.Restore(before); return Aborted(seen[6].Reason()); }
    store.decisions := store.decisions + content.resolved;
    if seen[7].Stop() { assert seen[5..][2].Stop(); store.Restore(before); return Aborted(seen[7].Reason()); }
    store.SaveJobRow(spec.jobId, TransitionJob(store.jobs[spec.jobId], Succeed(commit.analysisId)).value);
    if seen[8].Stop() { assert seen[5..][3].Stop(); store.Restore(before); return Aborted(seen[8].Reason()); }
    var saved := store.SaveBatchRow(b, store.batches[b].(updatedAt := at));
    if !saved { store.Restore(before); return StorageFailed; }
    if seen[9].Stop() { assert seen[5..][4].Stop(); store.Restore(before); return Aborted(seen[9].Reason()); }
  }

  /**
   * `commitAdoption`, with the signals visible at each of its ten stop points. Either the whole
   * adoption is written or nothing is, and it is written exactly when no stop point saw a signal and
   * the fence was open; it reports a cancellation only if some stop point saw a cancelled token
   * without a pause request.
   */
  method CommitAdoption(store: Store, w: Worker, b: BatchId, k: nat, content: Content, at: Instant, seen: seq<Signals>)
    returns (commit: Commit)
    requires |seen| == STOP_POINTS
    requires b in store.batches ==>
      k < |store.batches[b].jobs| && store.batches[b].jobs[k].snapshotId in store.snapshots
                                    && ValidBatch(store.batches[b])
    modifies store
    ensures commit.Committed? <==>
      Undisturbed(seen) && FenceOpen(old(store.Rows()), w, b, k, at) && old(store.batches)[b].createdAt <= at
    ensures commit.Committed? ==> store.Rows() == Adopted(old(store.Rows()), w, b, k, content, at)
    ensures commit.Committed? ==> commit.analysisId == |old(store.analyses)|
    ensures !commit.Committed? ==> store.Rows() == old(store.Rows())
    ensures commit == Aborted(CancelledAbort) ==> exists i | 0 <= i < |seen| :: seen[i].cancelled && !seen[i].pause
  {
    assert seen == seen[..5] + seen[5..];
    var refused := CheckFence(store, w, b, k, at, seen);
    if refused.Some? { return Aborted(refused.value); }
    commit := WriteAdoption(store, w, b, k, content, at, seen);
  }
}
