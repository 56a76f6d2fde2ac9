/** What holds over whole runs of any number of workers, recoveries and human decisions. */
module PipelineTheorems {
  import opened Prelude
  import opened AnalysisJobs
  import opened AnalysisBatches
  import opened AnalysisPipeline
  import opened PipelineRuns
  import opened PipelineSafety

  const EMPTY: Db := Db(map[], map[], map[], map[], map[], map[], [], [])

  function Reached(steps: seq<Step>): Db {
    Run(EMPTY, steps)
  }

  lemma {:induction false} RunKeeps(db: Db, steps: seq<Step>)
    requires Inv(db)
    ensures Inv(Run(db, steps)) && Extends(db, Run(db, steps))
  {
    if steps == [] {
      SameQuiet(db);
      QuietKeeps(db, db);
    } else {
      hide Inv, Extends, Next;
      var before := Run(db, steps[..|steps| - 1]);
      RunKeeps(db, steps[..|steps| - 1]);
      StepKeeps(before, steps[|steps| - 1]);
      ExtendsTransitive(db, before, Run(db, steps));
    }
  }

  lemma ReachedInv(steps: seq<Step>)
    ensures Inv(Reached(steps))
  {
    RunKeeps(EMPTY, steps);
  }

  lemma {:induction false} RunSplits(db: Db, first: seq<Step>, second: seq<Step>)
    ensures Run(db, first + second) == Run(Run(db, first), second)
  {
    hide Next;
    if second == [] {
      assert first + second == first;
    } else {
      var all := first + second;
      assert all[..|all| - 1] == first + second[..|second| - 1];
      RunSplits(db, first, second[..|second| - 1]);
    }
  }

  lemma PrefixReached(steps: seq<Step>, i: nat)
    requires i <= |steps|
    ensures Inv(Reached(steps[..i])) && Inv(Reached(steps))
    ensures Extends(Reached(steps[..i]), Reached(steps))
  {
    assert steps == steps[..i] + steps[i..];
    RunSplits(EMPTY, steps[..i], steps[i..]);
    ReachedInv(steps[..i]);
    RunKeeps(Reached(steps[..i]), steps[i..]);
  }

  // ---- Accounting ----------------------------------------------------------------------------

  /**
   * In every reachable state the batch counters equal the number of attempt rows: analysis and
   * verification rows on one budget, reasoning rows on the other; the job counters likewise.
   */
  lemma ExactAccounting(steps: seq<Step>)
    ensures var db := Reached(steps);
            && (forall b | b in db.batches ::
                  && db.batches[b].counters.analysisCalls
                       == |set a | a in db.attempts && db.attempts[a].batch == b && !db.attempts[a].role.Reasoning?|
                  && db.batches[b].counters.reasoningCalls
                       == |set a | a in db.attempts && db.attempts[a].batch == b && db.attempts[a].role.Reasoning?|)
            && (forall j | j in db.jobs ::
                  && db.jobs[j].analysisCalls
                       == |set a | a in db.attempts && db.attempts[a].job == j && !db.attempts[a].role.Reasoning?|
                  && db.jobs[j].reasoningCalls
                       == |set a | a in db.attempts && db.attempts[a].job == j && db.attempts[a].role.Reasoning?|)
  {
    var db := Reached(steps);
    ReachedInv(steps);
    forall b | b in db.batches
      ensures db.batches[b].counters.analysisCalls
           == |set a | a in db.attempts && db.attempts[a].batch == b && !db.attempts[a].role.Reasoning?|
      ensures db.batches[b].counters.reasoningCalls
           == |set a | a in db.attempts && db.attempts[a].batch == b && db.attempts[a].role.Reasoning?|
    {
      BatchBalance(db.batches, db.attempts, b);
    }
    forall j | j in db.jobs
      ensures db.jobs[j].analysisCalls
           == |set a | a in db.attempts && db.attempts[a].job == j && !db.attempts[a].role.Reasoning?|
      ensures db.jobs[j].reasoningCalls
           == |set a | a in db.attempts && db.attempts[a].job == j && db.attempts[a].role.Reasoning?|
    {
      JobBalance(db.jobs, db.attempts, j);
    }
  }

  lemma BatchBalance(batches: map<BatchId, Batch>, attempts: map<AttemptId, Attempt>, b: BatchId)
    requires BatchesBalanced(batches, attempts) && b in batches
    ensures batches[b].counters.analysisCalls
         == |set a | a in attempts && attempts[a].batch == b && !attempts[a].role.Reasoning?|
    ensures batches[b].counters.reasoningCalls
         == |set a | a in attempts && attempts[a].batch == b && attempts[a].role.Reasoning?|
  {
    assert (set a | a in attempts && attempts[a].batch == b && !attempts[a].role.Reasoning?)
        == BatchCalls(attempts, b, AnalysisCall);
    assert (set a | a in attempts && attempts[a].batch == b && attempts[a].role.Reasoning?)
        == BatchCalls(attempts, b, ReasoningCall);
    assert batches[b].Calls(AnalysisCall) == |BatchCalls(attempts, b, AnalysisCall)|;
    assert batches[b].Calls(ReasoningCall) == |BatchCalls(attempts, b, ReasoningCall)|;
  }

  lemma JobBalance(jobs: map<JobId, Job>, attempts: map<AttemptId, Attempt>, j: JobId)
    requires JobsBalanced(jobs, attempts) && j in jobs
    ensures jobs[j].analysisCalls == |set a | a in attempts && attempts[a].job == j && !attempts[a].role.Reasoning?|
    ensures jobs[j].reasoningCalls == |set a | a in attempts && attempts[a].job == j && attempts[a].role.Reasoning?|
  {
    assert (set a | a in attempts && attempts[a].job == j && !attempts[a].role.Reasoning?)
        == JobCalls(attempts, j, AnalysisCall);
    assert (set a | a in attempts && attempts[a].job == j && attempts[a].role.Reasoning?)
        == JobCalls(attempts, j, ReasoningCall);
    assert jobs[j].Calls(AnalysisCall) == |JobCalls(attempts, j, AnalysisCall)|;
    assert jobs[j].Calls(ReasoningCall) == |JobCalls(attempts, j, ReasoningCall)|;
  }

  /** Nothing a run does later ever lowers a counter or loses an attempt row. */
  lemma CountersNeverDecrease(steps: seq<Step>, i: nat)
    requires i <= |steps|
    ensures forall b | b in Reached(steps[..i]).batches ::
      b in Reached(steps).batches
      && Reached(steps).batches[b].counters.AtLeast(Reached(steps[..i]).batches[b].counters)
    ensures Reached(steps[..i]).attempts.Keys <= Reached(steps).attempts.Keys
  {
    PrefixReached(steps, i);
  }

  ghost predicate AllWithinLimits(batches: map<BatchId, Batch>) {
    forall b | b in batches :: batches[b].WithinLimits()
  }

  /** A resume that is accepted and sets a limit below what the batch already spent. */
  predicate LowersBelowSpent(db: Db, step: Step) {
    && step.ResumeStep? && step.b in db.batches
    && var batch := db.batches[step.b];
       && batch.Executable() && !batch.status.Running? && !batch.status.Terminal()
       && ValidBatch(batch.Closed(BatchStatus.Pending, step.at).(limits := step.limits))
       && !batch.(limits := step.limits).WithinLimits()
  }

  lemma SaveWithinLimits(db: Db, b: BatchId, next: Batch)
    requires AllWithinLimits(db.batches) && next.WithinLimits()
    ensures forall mid: Db | mid.batches == db.batches ::
      AllWithinLimits(OrRollback(SaveBatch(mid, b, next), db).batches)
  {
  }

  lemma ResumeWithinLimits(db: Db, b: BatchId, limits: Limits, at: Instant)
    requires AllWithinLimits(db.batches)
    ensures AllWithinLimits(ResumeBatch(db, b, limits, at).batches) <==>
      !LowersBelowSpent(db, ResumeStep(b, limits, at))
  {
    if b in db.batches {
      var next := db.batches[b].Closed(BatchStatus.Pending, at).(limits := limits);
      if LowersBelowSpent(db, ResumeStep(b, limits, at)) {
        assert ResumeBatch(db, b, limits, at).batches[b] == next && !next.WithinLimits();
      } else if next.WithinLimits() {
        SaveWithinLimits(db, b, next);
      }
    }
  }

  lemma ControlWithinLimits(db: Db, b: BatchId, at: Instant)
    requires AllWithinLimits(db.batches)
    ensures AllWithinLimits(PauseBatch(db, b, at).batches)
    ensures AllWithinLimits(CancelBatch(db, b, at).batches)
    ensures AllWithinLimits(RecoverBatch(db, b, at).batches)
  {
    if b in db.batches {
      var batch := db.batches[b];
      SaveWithinLimits(db, b, batch.Closed(BatchStatus.Paused, at));
      SaveWithinLimits(db, b, batch.Closed(BatchStatus.Cancelled, at));
      SaveWithinLimits(db, b, batch.Closed(BatchStatus.Pending, at));
    }
  }

  lemma OwnerWithinLimits(db: Db, w: Worker, b: BatchId, k: nat, at: Instant)
    requires AllWithinLimits(db.batches)
    ensures AllWithinLimits(ClaimBatch(db, w, b, at).batches)
    ensures AllWithinLimits(PauseQuota(db, w, b, k, at).batches)
    ensures AllWithinLimits(FinalizeBatch(db, w, b, at).batches)
  {
    if b in db.batches {
      var batch := db.batches[b];
      SaveWithinLimits(db, b, batch.(status := BatchStatus.Running, owner := Some(w.owner),
                                     leaseExpiresAt := Some(at + w.batchLeaseMs), updatedAt := at));
      SaveWithinLimits(db, b, batch.Closed(BatchStatus.Paused, at));
      SaveWithinLimits(db, b, batch.Closed(FinalStatus(db, batch), at));
    }
  }

  lemma ClaimJobWithinLimits(db: Db, w: Worker, b: BatchId, k: nat, at: Instant)
    requires AllWithinLimits(db.batches)
    ensures AllWithinLimits(ClaimJob(db, w, b, k, at).0.batches)
  {
    if b in db.batches { SaveWithinLimits(db, b, RenewedBatch(db.batches[b], at, w.batchLeaseMs)); }
    hide AllWithinLimits, SaveBatch, RenewedBatch, StartedOrTakenOver, TransitionJob, HeadIsCurrent;
  }

  lemma RetryWithinLimits(db: Db, w: Worker, b: BatchId, k: nat, at: Instant)
    requires AllWithinLimits(db.batches)
    ensures AllWithinLimits(RegisterRetry(db, w, b, k, at).0.batches)
  {
    if b in db.batches {
      var batch := db.batches[b];
      SaveWithinLimits(db, b, RenewedBatch(batch.(counters := batch.counters.(retries := batch.counters.retries + 1)),
                                           at, w.batchLeaseMs));
    }
    hide AllWithinLimits, SaveBatch, RenewedBatch, TransitionJob;
  }

  lemma AdoptWithinLimits(db: Db, w: Worker, b: BatchId, k: nat, content: Content, at: Instant)
    requires AllWithinLimits(db.batches)
    ensures AllWithinLimits(Adopt(db, w, b, k, content, at).batches)
  {
    hide BasisUnchanged, NewRecord, SucceededJob;
  }

  predicate LeavesBatches(step: Step) {
    || step.RecoverJobStep? || step.SettleStep? || step.ReleaseStep? || step.FailStep?
    || step.ManualDecisionStep? || step.NewSnapshotStep?
  }

  lemma BatchesUntouched(db: Db, step: Step)
    requires LeavesBatches(step)
    ensures Next(db, step).batches == db.batches
  {
    hide TransitionJob, OrphanAttempts, SettledAttempt, ValidAttempt, LegalAttemptChange;
  }

  lemma ReserveWithinLimits(db: Db, w: Worker, b: BatchId, k: nat, role: Role, id: AttemptId, at: Instant)
    requires AllWithinLimits(db.batches)
    ensures AllWithinLimits(Reserve(db, w, b, k, role, id, at).0.batches)
  {
  }

  lemma PrepareWithinLimits(db: Db, request: PrepareRequest, at: Instant)
    requires Inv(db) && AllWithinLimits(db.batches)
    ensures AllWithinLimits(Prepare(db, request, at).batches)
  {
    if forall id | id in request.snapshots :: id in db.snapshots {
      AllPrepared(db, request, request.snapshots, at);
    }
  }

  /**
   * A step lets a batch exceed its limits exactly when it is an accepted resume that sets them below what was
   * spent.
   */
  lemma StepWithinLimitsExactlyWhen(db: Db, step: Step)
    requires Inv(db) && AllWithinLimits(db.batches)
    ensures AllWithinLimits(Next(db, step).batches) <==> !LowersBelowSpent(db, step)
  {
    assert !step.ResumeStep? ==> !LowersBelowSpent(db, step);
    hide Inv, AllWithinLimits, LowersBelowSpent, Prepare, PauseBatch, CancelBatch, ResumeBatch, RecoverBatch,
      RecoverJob, ClaimBatch, ClaimJob,
         Reserve, Settle, RegisterRetry, PauseQuota, ReleaseJob, FailJob, Adopt, FinalizeBatch;
    match step
    case PrepareStep(request, at) => PrepareWithinLimits(db, request, at);
    case PauseStep(b, at) => ControlWithinLimits(db, b, at);
    case CancelStep(b, at) => ControlWithinLimits(db, b, at);
    case ResumeStep(b, limits, at) => ResumeWithinLimits(db, b, limits, at);
    case RecoverBatchStep(b, at) => ControlWithinLimits(db, b, at);
    case ClaimBatchStep(w, b, at) => OwnerWithinLimits(db, w, b, 0, at);
    case PauseQuotaStep(w, b, k, at) => OwnerWithinLimits(db, w, b, k, at);
    case FinalizeStep(w, b, at) => OwnerWithinLimits(db, w, b, 0, at);
    case ReserveStep(w, b, k, role, id, at) => ReserveWithinLimits(db, w, b, k, role, id, at);
    case ClaimJobStep(w, b, k, at) => ClaimJobWithinLimits(db, w, b, k, at);
    case RetryStep(w, b, k, at) => RetryWithinLimits(db, w, b, k, at);
    case AdoptStep(w, b, k, content, at) => AdoptWithinLimits(db, w, b, k, content, at);
    case _ => BatchesUntouched(db, step);
  }

  ghost predicate WithinLimitsUntil(steps: seq<Step>, n: nat)
    requires n <= |steps|
  {
    forall i | 0 <= i <= n :: AllWithinLimits(Reached(steps[..i]).batches)
  }

  ghost predicate NoneLowersUntil(steps: seq<Step>, n: nat)
    requires n <= |steps|
  {
    forall i | 0 <= i < n :: !LowersBelowSpent(Reached(steps[..i]), steps[i])
  }

  lemma ReachedNext(steps: seq<Step>, n: nat)
    requires 0 < n <= |steps|
    ensures Reached(steps[..n]) == Next(Reached(steps[..n - 1]), steps[n - 1])
  {
    assert steps[..n][..n - 1] == steps[..n - 1];
  }

  lemma WithinLimitsExtends(steps: seq<Step>, n: nat)
    requires 0 < n <= |steps|
    ensures WithinLimitsUntil(steps, n) <==>
      WithinLimitsUntil(steps, n - 1) && AllWithinLimits(Reached(steps[..n]).batches)
    ensures NoneLowersUntil(steps, n) <==>
      NoneLowersUntil(steps, n - 1) && !LowersBelowSpent(Reached(steps[..n - 1]), steps[n - 1])
    ensures WithinLimitsUntil(steps, n - 1) ==> AllWithinLimits(Reached(steps[..n - 1]).batches)
  {
    hide Reached, AllWithinLimits, LowersBelowSpent;
  }

  /**
   * Whatever else happens, all batches of a run stay within their limits up to any point exactly
   * when no accepted resume before it set a limit below what its batch had already spent.
   */
  lemma {:induction false} SpendingStaysWithinLimits(steps: seq<Step>, n: nat)
    requires n <= |steps|
    ensures WithinLimitsUntil(steps, n) <==> NoneLowersUntil(steps, n)
  {
    if n == 0 {
      assert Reached(steps[..0]) == EMPTY;
    } else {
      hide WithinLimitsUntil, NoneLowersUntil, AllWithinLimits, LowersBelowSpent, Next, Inv, Reached;
      SpendingStaysWithinLimits(steps, n - 1);
      var before := Reached(steps[..n - 1]);
      ReachedNext(steps, n);
      ReachedInv(steps[..n - 1]);
      if AllWithinLimits(before.batches) { StepWithinLimitsExactlyWhen(before, steps[n - 1]); }
      WithinLimitsExtends(steps, n);
    }
  }

  // ---- Terminal rows -------------------------------------------------------------------------

  /**
   * A batch that completed or was cancelled keeps that status for ever, a completed one over
   * succeeded jobs only and a cancelled one over stopped jobs only.
   */
  lemma TerminalForever(steps: seq<Step>, i: nat, b: BatchId)
    requires i <= |steps| && b in Reached(steps[..i]).batches && Reached(steps[..i]).batches[b].status.Terminal()
    ensures var db := Reached(steps);
            && b in db.batches
            && db.batches[b].status == Reached(steps[..i]).batches[b].status
            && (forall spec | spec in db.batches[b].jobs ::
                  && spec.jobId in db.jobs
                  && db.jobs[spec.jobId].status.Stopped()
                  && (db.batches[b].status.Completed? ==> db.jobs[spec.jobId].status.Succeeded?))
  {
    PrefixReached(steps, i);
    assert ClosedTruthfully(Reached(steps), Reached(steps).batches[b]);
  }

  /** A succeeded or cancelled job row is never written again. */
  lemma StoppedJobsAreFrozen(steps: seq<Step>, i: nat, j: JobId)
    requires i <= |steps| && j in Reached(steps[..i]).jobs && Reached(steps[..i]).jobs[j].status.Stopped()
    ensures j in Reached(steps).jobs && Reached(steps).jobs[j] == Reached(steps[..i]).jobs[j]
  {
    PrefixReached(steps, i);
  }

  /** Running is exactly holding an owner and a lease that outlives the last write. */
  lemma RunningMeansLeased(steps: seq<Step>, b: BatchId)
    requires b in Reached(steps).batches
    ensures var batch := Reached(steps).batches[b];
            && (batch.status.Running? <==> batch.owner.Some?)
            && (batch.status.Running? <==> batch.leaseExpiresAt.Some? && batch.leaseExpiresAt.value > batch.updatedAt)
  {
    ReachedInv(steps);
  }

  // ---- Adoption ------------------------------------------------------------------------------

  /** Step `i` of the run is an adoption of job `j` whose fence was open at that instant. */
  ghost predicate AdoptsAt(steps: seq<Step>, i: nat, j: JobId) {
    && i < |steps|
    && steps[i].AdoptStep?
    && var db := Reached(steps[..i]);
       var step := steps[i];
       && FenceOpen(db, step.w, step.b, step.k, step.at)
       && db.batches[step.b].createdAt <= step.at
       && db.batches[step.b].jobs[step.k].jobId == j
  }

  lemma PrepareAppendsNothing(db: Db, request: PrepareRequest, at: Instant)
    requires Inv(db)
    ensures Prepare(db, request, at).analyses == db.analyses
  {
    if forall id | id in request.snapshots :: id in db.snapshots {
      AllPrepared(db, request, request.snapshots, at);
    }
  }

  lemma ReserveAppendsNothing(db: Db, w: Worker, b: BatchId, k: nat, role: Role, id: AttemptId, at: Instant)
    ensures Reserve(db, w, b, k, role, id, at).0.analyses == db.analyses
  {
  }

  lemma ClosingAppendsNothing(db: Db, w: Worker, b: BatchId, at: Instant)
    ensures CancelBatch(db, b, at).analyses == db.analyses
    ensures FinalizeBatch(db, w, b, at).analyses == db.analyses
  {
  }

  lemma OthersAppendNothing(db: Db, step: Step)
    requires Inv(db) && !step.AdoptStep?
    ensures Next(db, step).analyses == db.analyses
  {
    match step
    case PrepareStep(request, at) => PrepareAppendsNothing(db, request, at);
    case CancelStep(b, at) => ClosingAppendsNothing(db, Worker(0, 0, 0, 0, 0, 0), b, at);
    case ReserveStep(w, b, k, role, id, at) => ReserveAppendsNothing(db, w, b, k, role, id, at);
    case FinalizeStep(w, b, at) => ClosingAppendsNothing(db, w, b, at);
    case ManualDecisionStep(problem) =>
    case NewSnapshotStep(id, snapshot) =>
    case _ => QuietStep(db, step);
  }

  /** Only an adoption with an open fence appends to the log, one record per step. */
  lemma StepAppends(db: Db, step: Step)
    requires Inv(db) && Next(db, step).analyses != db.analyses
    ensures step.AdoptStep? && FenceOpen(db, step.w, step.b, step.k, step.at)
    ensures db.batches[step.b].createdAt <= step.at
    ensures Next(db, step).analyses
         == db.analyses + [NewRecord(db, step.b, db.batches[step.b].jobs[step.k], step.content, step.at)]
  {
    if !step.AdoptStep? { OthersAppendNothing(db, step); }
  }

  /** A job succeeds in an adoption step with an open fence, and in no other step. */
  lemma StepSucceeds(db: Db, step: Step, j: JobId)
    requires Inv(db) && j in Next(db, step).jobs
    requires Next(db, step).jobs[j].status.Succeeded?
    requires j in db.jobs ==> !db.jobs[j].status.Succeeded?
    ensures step.AdoptStep? && FenceOpen(db, step.w, step.b, step.k, step.at)
    ensures db.batches[step.b].createdAt <= step.at && db.batches[step.b].jobs[step.k].jobId == j
  {
    var after := Next(db, step);
    StepKeeps(db, step);
    var i := after.jobs[j].analysis.value;
    assert after.analyses[i].job == j;
    assert i >= |db.analyses|;
    StepAppends(db, step);
  }

  lemma {:induction false} SucceededWasAdopted(steps: seq<Step>, j: JobId)
    requires j in Reached(steps).jobs && Reached(steps).jobs[j].status.Succeeded?
    ensures exists i: nat :: AdoptsAt(steps, i, j)
  {
    var n := |steps| - 1;
    var front := steps[..n];
    if j in Reached(front).jobs && Reached(front).jobs[j].status.Succeeded? {
      SucceededWasAdopted(front, j);
      var i: nat :| AdoptsAt(front, i, j);
      assert front[..i] == steps[..i];
      assert AdoptsAt(steps, i, j);
    } else {
      ReachedInv(front);
      StepSucceeds(Reached(front), steps[n], j);
      assert AdoptsAt(steps, n, j);
    }
  }

  lemma AdoptedStaysSucceeded(steps: seq<Step>, i: nat, j: JobId)
    requires AdoptsAt(steps, i, j)
    ensures forall n | i < n <= |steps| ::
      j in Reached(steps[..n]).jobs && Reached(steps[..n]).jobs[j].status.Succeeded?
  {
    var next := steps[..i + 1];
    assert next[..i] == steps[..i];
    assert j in Reached(next).jobs && Reached(next).jobs[j].status.Succeeded?;
    forall n | i < n <= |steps| ensures j in Reached(steps[..n]).jobs && Reached(steps[..n]).jobs[j].status.Succeeded? {
      assert steps[..n][..i + 1] == next;
      StoppedJobsAreFrozen(steps[..n], i + 1, j);
    }
  }

  /**
   * A job is succeeded exactly when one adoption step of the run committed for it; at most one ever
   * does, and at that instant batch and job ran under that worker with unexpired leases while head
   * and human revision still equalled what the batch captured.
   */
  lemma AdoptionIsFenced(steps: seq<Step>, j: JobId)
    ensures j in Reached(steps).jobs && Reached(steps).jobs[j].status.Succeeded? <==> exists i: nat ::
      AdoptsAt(steps, i, j)
    ensures forall i: nat, i': nat | AdoptsAt(steps, i, j) && AdoptsAt(steps, i', j) :: i == i'
    ensures forall i: nat | AdoptsAt(steps, i, j) ::
      var db := Reached(steps[..i]);
      var spec := db.batches[steps[i].b].jobs[steps[i].k];
      && db.batches[steps[i].b].owner == Some(steps[i].w.owner) == db.jobs[j].leaseOwner
      && db.batches[steps[i].b].leaseExpiresAt.value > steps[i].at && db.jobs[j].leaseExpiresAt.value > steps[i].at
      && HeadIsCurrent(db, spec.snapshotId)
      && spec.manualRevision == Some(ManualRevision(db, db.snapshots[spec.snapshotId].problem))
  {
    if j in Reached(steps).jobs && Reached(steps).jobs[j].status.Succeeded? {
      SucceededWasAdopted(steps, j);
    }
    assert steps[..|steps|] == steps;
    forall i: nat | AdoptsAt(steps, i, j) ensures j in Reached(steps).jobs && Reached(steps).jobs[j].status.Succeeded? {
      AdoptedStaysSucceeded(steps, i, j);
    }
    forall i: nat, i': nat | AdoptsAt(steps, i, j) && AdoptsAt(steps, i', j) ensures i == i' {
      AdoptedStaysSucceeded(steps, i, j);
      AdoptedStaysSucceeded(steps, i', j);
    }
  }

  /** The plan of a batch records the human revision that held when it was prepared. */
  lemma PreparedBatchCapturesRevisions(steps: seq<Step>, request: PrepareRequest, at: Instant)
    requires request.batch !in Reached(steps).batches
    requires request.batch in Prepare(Reached(steps), request, at).batches
    ensures var db := Reached(steps);
            forall spec | spec in Prepare(db, request, at).batches[request.batch].jobs ::
              && spec.snapshotId in db.snapshots
              && HeadIsCurrent(db, spec.snapshotId)
              && spec.manualRevision == Some(ManualRevision(db, db.snapshots[spec.snapshotId].problem))
  {
    var db := Reached(steps);
    ReachedInv(steps);
    AllPrepared(db, request, request.snapshots, at);
    CapturedAll(db, request, request.snapshots, at);
  }

  lemma {:induction false} CapturedAll(db: Db, request: PrepareRequest, ids: seq<SnapshotId>, at: Instant)
    requires forall id | id in ids :: id in db.snapshots
    ensures var result := PrepareAll(db, request, ids, at);
            result.Some? ==> forall spec | spec in result.value.1 ::
              && spec.snapshotId in ids
              && spec.manualRevision == Some(ManualRevision(db, db.snapshots[spec.snapshotId].problem))
  {
    if ids != [] {
      CapturedAll(db, request, ids[..|ids| - 1], at);
    }
  }

  /** A plan entry and its material stay as captured, and no human revision it captured lies ahead of the store. */
  lemma PlansPersist(before: Db, after: Db, b: BatchId, k: nat)
    requires Inv(before) && Extends(before, after) && b in before.batches && k < |before.batches[b].jobs|
    ensures b in after.batches && after.batches[b].jobs == before.batches[b].jobs
    ensures var spec := before.batches[b].jobs[k];
            && spec.snapshotId in before.snapshots && spec.snapshotId in after.snapshots
            && after.snapshots[spec.snapshotId] == before.snapshots[spec.snapshotId]
            && (spec.manualRevision.Some? ==>
                  spec.manualRevision.value <= ManualRevision(before, before.snapshots[spec.snapshotId].problem))
    ensures forall p :: ManualRevision(before, p) <= ManualRevision(after, p)
  {
    assert SpecStored(before, before.batches[b].jobs[k]);
  }

  lemma NoBasisNoAdoption(db: Db, b: BatchId, k: nat)
    requires b in db.batches && k < |db.batches[b].jobs| && !BasisUnchanged(db, db.batches[b].jobs[k])
    ensures forall w, content, at :: Adopt(db, w, b, k, content, at) == db
  {
  }

  /** Once a human decided after the capture, no later instant of any run can adopt this plan entry. */
  lemma HumanDecisionBlocks(steps: seq<Step>, i: nat, b: BatchId, k: nat, problem: ProblemKey)
    requires i < |steps| && steps[i] == ManualDecisionStep(problem)
    requires b in Reached(steps[..i]).batches && k < |Reached(steps[..i]).batches[b].jobs|
    requires var spec := Reached(steps[..i]).batches[b].jobs[k];
             spec.snapshotId in Reached(steps[..i]).snapshots
               && Reached(steps[..i]).snapshots[spec.snapshotId].problem == problem
    ensures forall w, content, at :: Adopt(Reached(steps), w, b, k, content, at) == Reached(steps)
  {
    hide Adopt, Extends, Inv;
    var before, now := Reached(steps[..i]), Reached(steps);
    var next := steps[..i + 1];
    assert next[..i] == steps[..i];
    assert Reached(next) == DecideManually(before, problem);
    PrefixReached(steps, i);
    PrefixReached(steps, i + 1);
    PlansPersist(before, now, b, k);
    PlansPersist(Reached(next), now, b, k);
    assert ManualRevision(before, problem) < ManualRevision(Reached(next), problem) <= ManualRevision(now, problem);
    NoBasisNoAdoption(now, b, k);
  }

  /** Heads never move back, so a plan whose material was replaced can never be adopted again. */
  lemma ReplacedMaterialBlocks(steps: seq<Step>, i: nat, n: nat, b: BatchId, k: nat)
    requires i <= n <= |steps|
    requires b in Reached(steps[..i]).batches && k < |Reached(steps[..i]).batches[b].jobs|
    requires var id := Reached(steps[..i]).batches[b].jobs[k].snapshotId;
             && id in Reached(steps[..i]).snapshots && id in Reached(steps[..n]).snapshots
             && HeadIsCurrent(Reached(steps[..i]), id) && !HeadIsCurrent(Reached(steps[..n]), id)
    ensures forall w, content, at :: Adopt(Reached(steps), w, b, k, content, at) == Reached(steps)
  {
    hide Adopt;
    var id := Reached(steps[..i]).batches[b].jobs[k].snapshotId;
    var problem := Reached(steps[..i]).snapshots[id].problem;
    assert steps[..n][..i] == steps[..i];
    PrefixReached(steps[..n], i);
    PrefixReached(steps, n);
    assert Reached(steps[..n]).heads[problem].version > Reached(steps[..i]).heads[problem].version;
    assert Reached(steps).heads[problem].version >= Reached(steps[..n]).heads[problem].version;
    assert Reached(steps).batches[b].jobs[k].snapshotId == id;
    assert !HeadIsCurrent(Reached(steps), id);
    NoBasisNoAdoption(Reached(steps), b, k);
  }

  // ---- Order of adopted results --------------------------------------------------------------

  lemma {:induction false} NewestResultBounds(analyses: seq<AnalysisRecord>, problem: ProblemKey, floor: Instant)
    ensures NewestResult(analyses, problem, floor) >= floor
    ensures forall a | a in analyses && a.problem == problem :: NewestResult(analyses, problem, floor) > a.createdAt
    ensures NewestResult(analyses, problem, floor) == floor
      || exists a | a in analyses :: a.problem == problem && NewestResult(analyses, problem, floor) == a.createdAt + 1
  {
    if analyses != [] {
      NewestResultBounds(analyses[..|analyses| - 1], problem, floor);
    }
  }

  lemma {:induction false} NewestDecisionBounds(decisions: seq<DecisionRow>, problem: ProblemKey, floor: Instant)
    ensures NewestDecision(decisions, problem, floor) >= floor
    ensures forall d | d in decisions && d.problem == problem && d.byAi ::
      NewestDecision(decisions, problem, floor) > d.decidedAt
    ensures NewestDecision(decisions, problem, floor) == floor
      || exists d | d in decisions ::
        d.problem == problem && d.byAi && NewestDecision(decisions, problem, floor) == d.decidedAt + 1
  {
    if decisions != [] {
      NewestDecisionBounds(decisions[..|decisions| - 1], problem, floor);
    }
  }

  /**
   * The adoption instant is the least one that is not before the clock and strictly after every
   * result and every AI decision the problem already has.
   */
  lemma LogicalInstantIsLeast(db: Db, problem: ProblemKey, at: Instant, other: Instant)
    ensures var chosen := LogicalAdoptionInstant(db, problem, at);
            var after := (t: Instant) =>
              && t >= at
              && (forall a | a in db.analyses && a.problem == problem :: t > a.createdAt)
              && (forall d | d in db.decisions && d.problem == problem && d.byAi :: t > d.decidedAt);
            after(chosen) && (after(other) ==> chosen <= other)
  {
    NewestResultBounds(db.analyses, problem, at);
    NewestDecisionBounds(db.decisions, problem, NewestResult(db.analyses, problem, at));
  }

  ghost predicate CheckedResultsAscend(analyses: seq<AnalysisRecord>) {
    forall i, n | 0 <= i < n < |analyses| && analyses[n].checked && analyses[i].problem == analyses[n].problem ::
      analyses[i].createdAt < analyses[n].createdAt
  }

  /** However clocks behave, a checked result is newer than every result adopted before it for its problem. */
  lemma {:induction false} AdoptionOrderIsTimeOrder(steps: seq<Step>)
    ensures CheckedResultsAscend(Reached(steps).analyses)
  {
    if steps != [] {
      var front := steps[..|steps| - 1];
      var step := steps[|steps| - 1];
      var db := Reached(front);
      AdoptionOrderIsTimeOrder(front);
      ReachedInv(front);
      if Next(db, step).analyses != db.analyses {
        StepAppends(db, step);
        var spec := db.batches[step.b].jobs[step.k];
        LogicalInstantIsLeast(db, db.snapshots[spec.snapshotId].problem, step.at, 0);
      }
    }
  }
}
