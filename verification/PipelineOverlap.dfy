/**
 * Preparation refuses a snapshot that an active batch already schedules, but a failed batch is not
 * active, and neither resuming nor pausing it looks again: two active batches can share one job.
 * What keeps the adoption single is the job row, not the batch.
 */
module PipelineOverlap {
  import opened Prelude
  import opened AnalysisJobs
  import opened AnalysisBatches
  import opened AnalysisPipeline
  import opened PipelineRuns
  import opened PipelineSafety
  import opened PipelineTheorems

  const W := Worker(7, 100, 100, 3, 10, 10)
  const J := JobId(1, None)
  const L := Limits(5, 5, 1)
  const SPEC := BatchJob(J, 1, Some(0))

  function Request(b: BatchId, at: Instant): PrepareRequest {
    PrepareRequest(b, [1], 1, L, at, false, map[], {}, [])
  }

  function Plan(status: BatchStatus, owner: Option<Owner>, lease: Option<Instant>, createdAt: Instant,
                updatedAt: Instant): Batch {
    Batch([SPEC], 1, createdAt, status, owner, lease, L, Counters(0, 0, 0), updatedAt)
  }

  function Stored(batches: map<BatchId, Batch>, jobs: map<JobId, Job>): Db {
    Db(map[1 := Snapshot(1, 1, 1)], map[1 := Head(1, 1, 1)], map[], batches, jobs, map[], [], [])
  }

  const NEW := NewJob(1)
  const STARTED := StartedJob(NEW, 7, 2, 100)
  const FAILED := STARTED.Unleased(JobStatus.Failed)
  const REQUEUED := STARTED.Unleased(JobStatus.Pending)

  const D1 := Stored(map[], map[])
  const D2 := Stored(map[1 := Plan(BatchStatus.Pending, None, None, 0, 0)], map[J := NEW])
  const D3 := Stored(map[1 := Plan(BatchStatus.Running, Some(7), Some(101), 0, 1)], map[J := NEW])
  const D4 := Stored(map[1 := Plan(BatchStatus.Running, Some(7), Some(102), 0, 2)], map[J := STARTED])
  const D5 := Stored(map[1 := Plan(BatchStatus.Running, Some(7), Some(102), 0, 2)], map[J := FAILED])
  const D6 := Stored(map[1 := Plan(BatchStatus.Failed, None, None, 0, 4)], map[J := FAILED])
  const D7 := Stored(map[1 := Plan(BatchStatus.Failed, None, None, 0, 4),
                         2 := Plan(BatchStatus.Pending, None, None, 5, 5)],
                     map[J := REQUEUED])
  const D8 := Stored(map[1 := Plan(BatchStatus.Pending, None, None, 0, 6),
                         2 := Plan(BatchStatus.Pending, None, None, 5, 5)],
                     map[J := REQUEUED])

  const OVERLAP: seq<Step> := [
    NewSnapshotStep(1, Snapshot(1, 1, 1)),
    PrepareStep(Request(1, 0), 0),
    ClaimBatchStep(W, 1, 1),
    ClaimJobStep(W, 1, 0, 2),
    FailStep(W, J, 3),
    FinalizeStep(W, 1, 4),
    PrepareStep(Request(2, 5), 5),
    ResumeStep(1, L, 6)]

  lemma One()
    ensures Next(EMPTY, OVERLAP[0]) == D1
  {
  }

  lemma Prepared(db: Db, b: BatchId, at: Instant, job: Job)
    requires db.snapshots == D1.snapshots && db.heads == D1.heads && db.manualRevisions == map[]
    requires forall c | c in db.batches :: c != b && db.batches[c].status.Failed?
    requires if J in db.jobs then db.jobs == map[J := FAILED] && job == REQUEUED else db.jobs == map[] && job == NEW
    ensures PrepareAll(db, Request(b, at), [1], at) == Some((db.(jobs := map[J := job]), [SPEC]))
  {
    var ids: seq<SnapshotId> := [1];
    var none: seq<BatchJob> := [];
    assert ids[..|ids| - 1] == [] && none + [SPEC] == [SPEC];
    assert ManualRevision(db, db.snapshots[1].problem) == 0;
    assert PrepareAll(db, Request(b, at), [], at) == Some((db, []));
    assert !ScheduledElsewhere(db, b, 1);
    assert !AlreadyDone(db, {}, 1);
    assert db.jobs[J := job] == map[J := job];
    if J in db.jobs {
      assert TransitionJob(FAILED, Requeue(at)) == Some(REQUEUED);
      assert Continued(db, J, at) == Some(db.(jobs := map[J := job]));
    } else {
      assert FirstContinuable(db, [], 1, false).None?;
    }
    assert PrepareSnapshot(db, Request(b, at), 1, at) == Some((db.(jobs := map[J := job]), Some(J)));
  }

  lemma Two()
    ensures Next(D1, OVERLAP[1]) == D2
  {
    Prepared(D1, 1, 0, NEW);
    assert ValidBatch(Plan(BatchStatus.Pending, None, None, 0, 0));
  }

  lemma Three()
    ensures Next(D2, OVERLAP[2]) == D3
  {
    assert ValidBatch(D3.batches[1]);
  }

  lemma Four()
    ensures Next(D3, OVERLAP[3]) == D4
  {
    assert ValidBatch(D4.batches[1]);
  }

  lemma Five()
    ensures Next(D4, OVERLAP[4]) == D5
  {
  }

  lemma Six()
    ensures Next(D5, OVERLAP[5]) == D6
  {
    assert ValidBatch(D6.batches[1]);
    assert SPEC in D5.batches[1].jobs;
    assert FinalStatus(D5, D5.batches[1]) == BatchStatus.Failed;
  }

  lemma Seven()
    ensures Next(D6, OVERLAP[6]) == D7
  {
    Prepared(D6, 2, 5, REQUEUED);
    assert ValidBatch(D7.batches[2]);
  }

  lemma Eight()
    ensures Next(D7, OVERLAP[7]) == D8
  {
    assert ValidBatch(D8.batches[1]);
    assert RequeueJobs(D7.jobs, D7.batches[1].JobIds()) == D7.jobs;
  }

  lemma Reach(n: nat, from: Db, to: Db)
    requires n < |OVERLAP| && Reached(OVERLAP[..n]) == from && Next(from, OVERLAP[n]) == to
    ensures Reached(OVERLAP[..n + 1]) == to
  {
    assert OVERLAP[..n + 1][..n] == OVERLAP[..n];
  }

  /** A reachable state in which two pending batches name the same job. */
  lemma ActiveBatchesMayShareAJob()
    ensures var db := Reached(OVERLAP);
            && 1 in db.batches && 2 in db.batches
            && db.batches[1].status.Pending? && db.batches[2].status.Pending?
            && J in db.batches[1].JobIds() && J in db.batches[2].JobIds()
  {
    hide Next;
    assert OVERLAP[..0] == [] && OVERLAP[..8] == OVERLAP;
    One(); Reach(0, EMPTY, D1);
    Two(); Reach(1, D1, D2);
    Three(); Reach(2, D2, D3);
    Four(); Reach(3, D3, D4);
    Five(); Reach(4, D4, D5);
    Six(); Reach(5, D5, D6);
    Seven(); Reach(6, D6, D7);
    Eight(); Reach(7, D7, D8);
    assert D8.batches[1].jobs[0].jobId == J && D8.batches[2].jobs[0].jobId == J;
  }

  // ---- Exactly when active batches overlap ---------------------------------------------------

  predicate Active(batch: Batch) {
    batch.status.Pending? || batch.status.Running? || batch.status.Paused?
  }

  function Names(batch: Batch): set<SnapshotId> {
    set spec | spec in batch.jobs :: spec.snapshotId
  }

  /** No snapshot is scheduled by two active batches. */
  ghost predicate OneActive(batches: map<BatchId, Batch>) {
    forall b, c | b in batches && c in batches && b != c && Active(batches[b]) && Active(batches[c]) ::
      Names(batches[b]) !! Names(batches[c])
  }

  /** Another active batch schedules a snapshot of this one. */
  ghost predicate Overlaps(batches: map<BatchId, Batch>, b: BatchId)
    requires b in batches
  {
    exists c | c in batches :: c != b && Active(batches[c]) && !(Names(batches[c]) !! Names(batches[b]))
  }

  /** The row a resume or a pause would store for this batch. */
  function Revived(batch: Batch, step: Step): Batch
    requires step.ResumeStep? || step.PauseStep?
  {
    if step.ResumeStep? then batch.Closed(BatchStatus.Pending, step.at).(limits := step.limits)
    else batch.Closed(BatchStatus.Paused, step.at)
  }

  /** The step makes a failed batch active again. */
  predicate Reactivates(db: Db, step: Step) {
    && (step.ResumeStep? || step.PauseStep?)
    && step.b in db.batches && db.batches[step.b].status.Failed? && db.batches[step.b].Executable()
    && ValidBatch(Revived(db.batches[step.b], step))
  }

  ghost predicate ReactivatesShared(db: Db, step: Step) {
    Reactivates(db, step) && Overlaps(db.batches, step.b)
  }

  /** The same batches with the same plans, and none that was not active became so. */
  ghost predicate NoneActivated(before: map<BatchId, Batch>, after: map<BatchId, Batch>) {
    && after.Keys == before.Keys
    && forall b | b in before :: after[b].jobs == before[b].jobs && (Active(after[b]) ==> Active(before[b]))
  }

  lemma NoneActivatedKeeps(before: map<BatchId, Batch>, after: map<BatchId, Batch>)
    requires OneActive(before) && NoneActivated(before, after)
    ensures OneActive(after)
  {
    forall b, c | b in after && c in after && b != c && Active(after[b]) && Active(after[c])
      ensures Names(after[b]) !! Names(after[c])
    {
      assert Names(before[b]) !! Names(before[c]);
    }
  }

  /** A save of one batch activates none when it does not activate that one; nor does a refused save. */
  lemma SaveActivatesNone(db: Db, mid: Db, b: BatchId, next: Batch)
    requires b in db.batches && mid.batches == db.batches && next.jobs == db.batches[b].jobs
    requires Active(next) && ValidBatch(next) ==> Active(db.batches[b])
    ensures NoneActivated(db.batches, db.batches)
    ensures NoneActivated(db.batches, OrRollback(SaveBatch(mid, b, next), db).batches)
    ensures SaveBatch(mid, b, next).Some? ==> NoneActivated(db.batches, SaveBatch(mid, b, next).value.batches)
  {
  }

  lemma ControlActivatesNone(db: Db, step: Step)
    requires step.PauseStep? || step.ResumeStep? || step.CancelStep? || step.RecoverBatchStep? || step.ClaimBatchStep?
    requires !Reactivates(db, step)
    ensures NoneActivated(db.batches, Next(db, step).batches)
  {
    if step.b in db.batches {
      var batch := db.batches[step.b];
      match step
      case PauseStep(b, at) => if batch.Executable()
        && !batch.status.Terminal() { SaveActivatesNone(db, db, b, batch.Closed(BatchStatus.Paused, at)); }
      case ResumeStep(b, limits, at) =>
        if batch.Executable() && !batch.status.Terminal() {
          SaveActivatesNone(db, db.(jobs := RequeueJobs(db.jobs, batch.JobIds())), b, Revived(batch, step));
        }
      case CancelStep(b, at) =>
        SaveActivatesNone(db, db.(jobs := CancelJobs(db.jobs, batch.JobIds())), b,
                          batch.Closed(BatchStatus.Cancelled, at));
      case RecoverBatchStep(b, at) =>
        if batch.status.Running? { SaveActivatesNone(db, db, b, batch.Closed(BatchStatus.Pending, at)); }
      case ClaimBatchStep(w, b, at) =>
        if Active(batch) {
          SaveActivatesNone(db, db, b, batch.(status := BatchStatus.Running, owner := Some(w.owner),
                                              leaseExpiresAt := Some(at + w.batchLeaseMs), updatedAt := at));
        }
    }
    hide NoneActivated, SaveBatch, RequeueJobs, CancelJobs;
  }

  lemma LeavingActivatesNone(db: Db, w: Worker, b: BatchId, k: nat, at: Instant)
    ensures NoneActivated(db.batches, PauseQuota(db, w, b, k, at).batches)
    ensures NoneActivated(db.batches, FinalizeBatch(db, w, b, at).batches)
  {
    if OwnsBatch(db, w, b) {
      var batch := db.batches[b];
      SaveActivatesNone(db, db, b, batch.Closed(FinalStatus(db, batch), at));
      if k < |batch.jobs| {
        var j := batch.jobs[k].jobId;
        var jobs := if j in db.jobs && !db.jobs[j].status.Stopped() then db.jobs[j := db.jobs[j].Unleased(PausedQuota)]
          else db.jobs;
        SaveActivatesNone(db, db.(jobs := jobs), b, batch.Closed(BatchStatus.Paused, at));
      }
    }
    hide SaveBatch, FinalStatus;
  }

  lemma ClaimActivatesNone(db: Db, w: Worker, b: BatchId, k: nat, at: Instant)
    ensures NoneActivated(db.batches, ClaimJob(db, w, b, k, at).0.batches)
  {
    if OwnsBatch(db, w, b) && k < |db.batches[b].jobs| && db.batches[b].jobs[k].jobId in db.jobs {
      var j := db.batches[b].jobs[k].jobId;
      var started := StartedOrTakenOver(db.jobs[j], w, at);
      if started.Some? {
        SaveActivatesNone(db, db.(jobs := db.jobs[j := started.value]), b,
                          RenewedBatch(db.batches[b], at, w.batchLeaseMs));
      }
    }
    hide SaveBatch, StartedOrTakenOver, TransitionJob, HeadIsCurrent, RenewedBatch;
  }

  lemma RetryActivatesNone(db: Db, w: Worker, b: BatchId, k: nat, at: Instant)
    ensures NoneActivated(db.batches, RegisterRetry(db, w, b, k, at).0.batches)
  {
    if OwnsBatch(db, w, b) && k < |db.batches[b].jobs| && db.batches[b].jobs[k].jobId in db.jobs {
      var batch, j := db.batches[b], db.batches[b].jobs[k].jobId;
      var counted := batch.(counters := batch.counters.(retries := batch.counters.retries + 1));
      var failed := TransitionJob(db.jobs[j], Fail(true, w.maxAttempts));
      if failed.Some? && TransitionJob(failed.value, Start(w.owner, at, w.leaseMs)).Some? {
        var restarted := TransitionJob(failed.value, Start(w.owner, at, w.leaseMs)).value;
        SaveActivatesNone(db, db.(jobs := db.jobs[j := restarted]), b, RenewedBatch(counted, at, w.batchLeaseMs));
      }
    }
    hide SaveBatch, TransitionJob, RenewedBatch;
  }

  lemma ReserveActivatesNone(db: Db, w: Worker, b: BatchId, k: nat, role: Role, id: AttemptId, at: Instant)
    ensures NoneActivated(db.batches, Reserve(db, w, b, k, role, id, at).0.batches)
  {
    if OwnsBatch(db, w, b) && k < |db.batches[b].jobs| && db.batches[b].jobs[k].jobId in db.jobs {
      var batch, spec, kind := db.batches[b], db.batches[b].jobs[k], role.Kind();
      var consumed := TransitionJob(db.jobs[spec.jobId], ConsumeCall(kind, w.JobLimit(kind)));
      var recorded := SaveAttempt(db, id, NewAttempt(b, spec, role, at));
      if consumed.Some? && recorded.Some? {
        var renewed := consumed.value.(leaseExpiresAt := RenewedLease(consumed.value.leaseExpiresAt, at, w.leaseMs));
        SaveActivatesNone(db, recorded.value.(jobs := db.jobs[spec.jobId := renewed]), b,
                          RenewedBatch(CountCall(batch, kind), at, w.batchLeaseMs));
      }
    }
    hide SaveBatch, SaveAttempt, TransitionJob, RenewedBatch, CountCall, RenewedLease, BasisUnchanged;
  }

  lemma AdoptActivatesNone(db: Db, w: Worker, b: BatchId, k: nat, content: Content, at: Instant)
    ensures NoneActivated(db.batches, Adopt(db, w, b, k, content, at).batches)
  {
    hide BasisUnchanged, NewRecord, SucceededJob;
  }

  lemma ReactivationOverlapsExactlyWhen(db: Db, step: Step)
    requires OneActive(db.batches) && Reactivates(db, step)
    ensures OneActive(Next(db, step).batches) <==> !Overlaps(db.batches, step.b)
  {
    var b, batches := step.b, db.batches;
    var next := Revived(batches[b], step);
    var after := batches[b := next];
    assert Next(db, step).batches == after;
    assert Active(next) && Names(next) == Names(batches[b]);
    if Overlaps(batches, b) {
      var c :| c in batches && c != b && Active(batches[c]) && !(Names(batches[c]) !! Names(batches[b]));
      assert after[c] == batches[c] && !(Names(after[c]) !! Names(after[b]));
    } else {
      forall x, y | x in after && y in after && x != y && Active(after[x]) && Active(after[y])
        ensures Names(after[x]) !! Names(after[y])
      {
        if x != b && y != b { assert Names(batches[x]) !! Names(batches[y]); }
      }
    }
  }

  lemma ContinuedKeepsBatches(db: Db, id: JobId, at: Instant)
    requires id in db.jobs
    ensures Continued(db, id, at).Some? ==> Continued(db, id, at).value.batches == db.batches
  {
  }

  /** What preparation takes into a new batch is scheduled by no active one. */
  lemma SnapshotIsFree(db: Db, request: PrepareRequest, id: SnapshotId, at: Instant)
    ensures var one := PrepareSnapshot(db, request, id, at);
            one.Some? ==>
              && one.value.0.batches == db.batches
              && !ScheduledElsewhere(db, request.batch, id)
  {
    var legacy, rerun := JobId(id, None), JobId(id, Some(RunOf(request, id)));
    var found := FirstContinuable(db, request.listing, id, request.reanalyze);
    if legacy in db.jobs { ContinuedKeepsBatches(db, legacy, at); }
    if rerun in db.jobs { ContinuedKeepsBatches(db, rerun, at); }
    if found.Some? { ContinuedKeepsBatches(db, found.value, at); }
    hide ScheduledElsewhere, AlreadyDone, FirstContinuable, Continued;
  }

  ghost predicate AllFree(db: Db, batch: BatchId, specs: seq<BatchJob>) {
    forall spec | spec in specs :: !ScheduledElsewhere(db, batch, spec.snapshotId)
  }

  lemma {:induction false} PreparedAreFree(db: Db, request: PrepareRequest, ids: seq<SnapshotId>, at: Instant)
    requires JobsCoherent(db.jobs) && forall id | id in ids :: id in db.snapshots
    ensures var all := PrepareAll(db, request, ids, at);
            all.Some? ==> all.value.0.batches == db.batches && AllFree(db, request.batch, all.value.1)
  {
    if ids != [] {
      var id := ids[|ids| - 1];
      PreparedAreFree(db, request, ids[..|ids| - 1], at);
      AllPrepared(db, request, ids[..|ids| - 1], at);
      var before := PrepareAll(db, request, ids[..|ids| - 1], at);
      if before.Some? {
        var mid := before.value.0;
        ReopenedCoherent(db.jobs, mid.jobs);
        SnapshotIsFree(mid, request, id, at);
        SnapshotPrepared(mid, request, id, at);
        assert ScheduledElsewhere(mid, request.batch, id) == ScheduledElsewhere(db, request.batch, id);
        hide ScheduledElsewhere, PrepareSnapshot;
      }
    }
  }

  lemma PrepareKeepsOneActive(db: Db, request: PrepareRequest, at: Instant)
    requires Inv(db) && OneActive(db.batches)
    ensures OneActive(Prepare(db, request, at).batches)
  {
    if forall id | id in request.snapshots :: id in db.snapshots {
      PreparedAreFree(db, request, request.snapshots, at);
      var all := PrepareAll(db, request, request.snapshots, at);
      if all.Some? && request.batch !in db.batches {
        NewBatchIsFree(db, request.batch, NewBatch(request, all.value.1));
      }
      hide OneActive, PrepareAll, ValidBatch;
    }
  }

  lemma NewBatchIsFree(db: Db, b: BatchId, batch: Batch)
    requires OneActive(db.batches) && b !in db.batches && AllFree(db, b, batch.jobs)
    ensures OneActive(db.batches[b := batch])
  {
    forall c | c in db.batches && Active(db.batches[c]) ensures Names(db.batches[c]) !! Names(batch) {
      forall id | id in Names(batch) ensures id !in Names(db.batches[c]) {
        var spec :| spec in batch.jobs && spec.snapshotId == id;
        assert !ScheduledElsewhere(db, b, spec.snapshotId);
      }
    }
  }

  lemma PrepareStepKeeps(db: Db, step: Step)
    requires step.PrepareStep? && Inv(db) && OneActive(db.batches)
    ensures OneActive(Next(db, step).batches)
  {
    hide Inv, OneActive, Prepare;
    PrepareKeepsOneActive(db, step.request, step.at);
  }

  lemma OthersActivateNone(db: Db, step: Step)
    requires !step.PrepareStep? && !LeavesBatches(step) && !Reactivates(db, step)
    ensures NoneActivated(db.batches, Next(db, step).batches)
  {
    match step {
      case ClaimJobStep(w, b, k, at) => ClaimActivatesNone(db, w, b, k, at);
      case RetryStep(w, b, k, at) => RetryActivatesNone(db, w, b, k, at);
      case AdoptStep(w, b, k, content, at) => AdoptActivatesNone(db, w, b, k, content, at);
      case ReserveStep(w, b, k, role, id, at) =>
        ReserveActivatesNone(db, w, b, k, role, id, at);
        assert NoneActivated(db.batches, db.batches);
      case PauseQuotaStep(w, b, k, at) => LeavingActivatesNone(db, w, b, k, at);
      case FinalizeStep(w, b, at) => LeavingActivatesNone(db, w, b, 0, at);
      case _ => ControlActivatesNone(db, step);
    }
    hide Reactivates, NoneActivated, ClaimJob, RegisterRetry, Adopt, Reserve, PauseQuota, FinalizeBatch, PauseBatch,
      CancelBatch,
         ResumeBatch, RecoverBatch, ClaimBatch;
  }

  /** A step lets two active batches share a snapshot exactly when it reactivates a failed batch that shares one. */
  lemma StepOverlapsExactlyWhen(db: Db, step: Step)
    requires Inv(db) && OneActive(db.batches)
    ensures OneActive(Next(db, step).batches) <==> !ReactivatesShared(db, step)
  {
    hide Inv, OneActive, Reactivates, NoneActivated, Next, Prepare;
    if Reactivates(db, step) {
      ReactivationOverlapsExactlyWhen(db, step);
    } else if step.PrepareStep? {
      PrepareStepKeeps(db, step);
    } else if LeavesBatches(step) {
      BatchesUntouched(db, step);
    } else {
      OthersActivateNone(db, step);
      NoneActivatedKeeps(db.batches, Next(db, step).batches);
    }
  }

  ghost predicate OneActiveUntil(steps: seq<Step>, n: nat)
    requires n <= |steps|
  {
    forall i | 0 <= i <= n :: OneActive(Reached(steps[..i]).batches)
  }

  ghost predicate NoneRevivedUntil(steps: seq<Step>, n: nat)
    requires n <= |steps|
  {
    forall i | 0 <= i < n :: !ReactivatesShared(Reached(steps[..i]), steps[i])
  }

  lemma UntilExtends(steps: seq<Step>, n: nat)
    requires 0 < n <= |steps|
    ensures OneActiveUntil(steps, n) <==> OneActiveUntil(steps, n - 1) && OneActive(Reached(steps[..n]).batches)
    ensures NoneRevivedUntil(steps, n)
       <==> NoneRevivedUntil(steps, n - 1) && !ReactivatesShared(Reached(steps[..n - 1]), steps[n - 1])
    ensures OneActiveUntil(steps, n - 1) ==> OneActive(Reached(steps[..n - 1]).batches)
  {
    hide Reached, OneActive, ReactivatesShared;
  }

  /**
   * Preparation's rule of one active batch per snapshot holds throughout a run exactly when no
   * resume and no pause of that run revives a failed batch whose snapshots another one schedules.
   */
  lemma {:induction false} OneActiveExactlyWhen(steps: seq<Step>, n: nat)
    requires n <= |steps|
    ensures OneActiveUntil(steps, n) <==> NoneRevivedUntil(steps, n)
  {
    if n == 0 {
      assert Reached(steps[..0]) == EMPTY;
    } else {
      hide OneActiveUntil, NoneRevivedUntil, OneActive, ReactivatesShared, Next, Inv, Reached;
      OneActiveExactlyWhen(steps, n - 1);
      var before := Reached(steps[..n - 1]);
      ReachedNext(steps, n);
      ReachedInv(steps[..n - 1]);
      if OneActive(before.batches) { StepOverlapsExactlyWhen(before, steps[n - 1]); }
      UntilExtends(steps, n);
    }
  }
}
