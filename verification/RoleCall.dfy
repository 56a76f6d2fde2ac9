/**
 * One role call with the pipeline's retry budget (`callRole`), on a store that every other worker
 * keeps writing to between its transactions.
 */
module RoleCall {
  import opened Prelude
  import opened AnalysisJobs
  import opened AnalysisBatches
  import opened AnalysisPipeline
  import opened PipelineRuns
  import opened PipelineSafety
  import opened PipelineTheorems
  import opened PipelineStore

  /**
   * What one iteration meets: the signals at its head, what other workers commit before the
   * reservation, during the call and before the retry is registered, the provider's reply, and the
   * clock readings of its three transactions.
   */
  datatype Round = Round(
    signals: Signals, earlier: seq<Step>, reservedAt: Instant, attempt: AttemptId,
    during: seq<Step>, reply: Reply, settledAt: Instant, later: seq<Step>, retriedAt: Instant)

  datatype StopReason = TokenCancelled | PauseRequested | NotReserved | CallCancelled | OwnershipGone

  datatype CallOutcome = CallOk(paid: Usage) | CallQuota | CallError | CallStopped(reason: StopReason) | CallThrew

  /** Other workers' transactions, which this worker cannot control. */
  method Interfere(store: Store, steps: seq<Step>)
    requires Inv(store.Rows())
    modifies store
    ensures store.Rows() == Run(old(store.Rows()), steps)
    ensures Inv(store.Rows()) && Extends(old(store.Rows()), store.Rows())
  {
    RunKeeps(store.Rows(), steps);
    store.Restore(Run(store.Rows(), steps));
  }

  /** The row of a call that was paid, failed, and may be repeated. */
  ghost predicate PaidFailure(db: Db, id: AttemptId, b: BatchId, j: JobId, role: Role) {
    && id in db.attempts
    && db.attempts[id].batch == b && db.attempts[id].job == j && db.attempts[id].role == role
    && db.attempts[id].status.Settled? && db.attempts[id].usage.Some? && db.attempts[id].failed
  }

  ghost predicate Dispatched(db: Db, id: AttemptId, b: BatchId, j: JobId, role: Role) {
    id in db.attempts && db.attempts[id].batch == b && db.attempts[id].job == j && db.attempts[id].role == role
  }

  /** The calls so far: recorded, distinct, and all but the last paid failures the provider called retryable. */
  ghost predicate Calls(db: Db, calls: seq<AttemptId>, replies: seq<Reply>, b: BatchId, j: JobId, role: Role,
                        settled: nat) {
    && |replies| == |calls|
    && settled <= |calls|
    && NoDuplicates(calls)
    && (forall i | 0 <= i < |calls| :: Dispatched(db, calls[i], b, j, role))
    && (forall i | 0 <= i < settled ::
          && PaidFailure(db, calls[i], b, j, role)
          && replies[i].Error? && replies[i].usage.Some? && replies[i].retryable)
  }

  lemma CallsExtend(db: Db, after: Db, calls: seq<AttemptId>, replies: seq<Reply>, b: BatchId, j: JobId, role: Role,
                    settled: nat)
    requires Calls(db, calls, replies, b, j, role, settled) && Extends(db, after)
    ensures Calls(after, calls, replies, b, j, role, settled)
  {
  }

  ghost predicate RetriesAtLeast(db: Db, b: BatchId, floor: nat) {
    b in db.batches && db.batches[b].counters.retries >= floor
  }

  /** Reserving under `Inv` with a fresh id: a granted call adds its row; the other outcomes dispatch nothing. */
  lemma ReservedRow(db: Db, w: Worker, b: BatchId, k: nat, role: Role, id: AttemptId, at: Instant)
    requires Inv(db) && id !in db.attempts && b in db.batches && k < |db.batches[b].jobs|
    requires Reserve(db, w, b, k, role, id, at).1.Granted?
    ensures Dispatched(Reserve(db, w, b, k, role, id, at).0, id, b, db.batches[b].jobs[k].jobId, role)
  {
  }

  lemma RetryCounted(db: Db, w: Worker, b: BatchId, k: nat, at: Instant, floor: nat)
    requires RetriesAtLeast(db, b, floor) && RegisterRetry(db, w, b, k, at).1.Planned?
    ensures RetriesAtLeast(RegisterRetry(db, w, b, k, at).0, b, floor + 1)
  {
  }

  /** Everything the loop knows between two transactions, whoever took the last one. */
  ghost predicate Progress(start: Db, db: Db, calls: seq<AttemptId>, replies: seq<Reply>, b: BatchId, j: JobId,
                           role: Role, settled: nat, floor: nat) {
    && Inv(db) && Extends(start, db)
    && Calls(db, calls, replies, b, j, role, settled)
    && Unseen(start, calls)
    && RetriesAtLeast(db, b, floor)
  }

  /** None of the calls had a row yet. */
  ghost predicate Unseen(db: Db, calls: seq<AttemptId>) {
    forall id | id in calls :: id !in db.attempts
  }

  lemma ProgressKeeps(start: Db, db: Db, after: Db, calls: seq<AttemptId>, replies: seq<Reply>, b: BatchId, j: JobId,
                      role: Role, settled: nat, floor: nat)
    requires Progress(start, db, calls, replies, b, j, role, settled, floor) && Inv(after) && Extends(db, after)
    ensures Progress(start, after, calls, replies, b, j, role, settled, floor)
  {
    ExtendsTransitive(start, db, after);
    CallsExtend(db, after, calls, replies, b, j, role, settled);
  }

  lemma NoCallsYet(db: Db, b: BatchId, j: JobId, role: Role)
    requires Inv(db) && b in db.batches
    ensures Progress(db, db, [], [], b, j, role, 0, db.batches[b].counters.retries)
  {
    SameQuiet(db);
    QuietKeeps(db, db);
  }

  /** Calls that were followed by another one. */
  function Repeated(calls: seq<AttemptId>): nat {
    if calls == [] then 0 else |calls| - 1
  }

  /** What is known when the loop ends: all calls but the last are paid failures, each counted as a retry. */
  ghost predicate Reported(start: Db, db: Db, calls: seq<AttemptId>, replies: seq<Reply>, b: BatchId, j: JobId,
                           role: Role, floor: nat) {
    Progress(start, db, calls, replies, b, j, role, Repeated(calls), floor + Repeated(calls))
  }

  lemma Report(start: Db, db: Db, calls: seq<AttemptId>, replies: seq<Reply>, b: BatchId, j: JobId, role: Role,
               settled: nat, counted: nat, floor: nat)
    requires Progress(start, db, calls, replies, b, j, role, settled, floor + counted)
    requires Repeated(calls) <= settled && Repeated(calls) <= counted
    ensures Reported(start, db, calls, replies, b, j, role, floor) && Unseen(start, calls)
  {
    hide Inv, Extends;
  }

  lemma PlanFixed(start: Db, db: Db, calls: seq<AttemptId>, replies: seq<Reply>, b: BatchId, j: JobId, role: Role,
                  settled: nat, floor: nat)
    requires Progress(start, db, calls, replies, b, j, role, settled, floor) && b in start.batches
    ensures b in db.batches && db.batches[b].jobs == start.batches[b].jobs
  {
  }

  method Meanwhile(store: Store, steps: seq<Step>, ghost start: Db, ghost calls: seq<AttemptId>,
                   ghost replies: seq<Reply>,
                   b: BatchId, ghost j: JobId, role: Role, ghost settled: nat, ghost floor: nat)
    requires Progress(start, store.Rows(), calls, replies, b, j, role, settled, floor)
    modifies store
    ensures Progress(start, store.Rows(), calls, replies, b, j, role, settled, floor)
  {
    ghost var before := store.Rows();
    Interfere(store, steps);
    ProgressKeeps(start, before, store.Rows(), calls, replies, b, j, role, settled, floor);
  }

  lemma StillUnseen(start: Db, db: Db, id: AttemptId)
    requires Extends(start, db) && id !in db.attempts
    ensures id !in start.attempts
  {
  }

  /** Reserves the next call; it is dispatched exactly when this is granted. */
  method NextCall(store: Store, w: Worker, b: BatchId, k: nat, role: Role, id: AttemptId, at: Instant,
                  ghost start: Db, ghost calls: seq<AttemptId>, ghost replies: seq<Reply>, ghost reply: Reply,
                  ghost j: JobId, ghost floor: nat)
    returns (reserved: Reservation)
    requires Progress(start, store.Rows(), calls, replies, b, j, role, |calls|, floor)
    requires id !in store.attempts && b in store.batches && k < |store.batches[b].jobs|
      && store.batches[b].jobs[k].jobId == j
    modifies store
    ensures !reserved.Granted? ==> Progress(start, store.Rows(), calls, replies, b, j, role, |calls|, floor)
    ensures reserved.Granted? ==>
      Progress(start, store.Rows(), calls + [id], replies + [reply], b, j, role, |calls|, floor)
  {
    hide Inv, Extends;
    ghost var db := store.Rows();
    ReserveKeeps(db, w, b, k, role, id, at);
    reserved := ReserveAttempt(store, w, b, k, role, id, at);
    ProgressKeeps(start, db, store.Rows(), calls, replies, b, j, role, |calls|, floor);
    if reserved.Granted? {
      ReservedRow(db, w, b, k, role, id, at);
      assert id !in calls;
      StillUnseen(start, db, id);
    }
  }

  lemma SettledRow(attempt: Attempt, reply: Reply, at: Instant)
    ensures SameCall(attempt, SettledAttempt(attempt, reply, at))
  {
  }

  /** Settles the last call; a reply with known usage and a retryable error makes it a paid failure. */
  method SettleCall(store: Store, id: AttemptId, reply: Reply, at: Instant,
                    ghost start: Db, ghost calls: seq<AttemptId>, ghost replies: seq<Reply>,
                    b: BatchId, ghost j: JobId, role: Role, ghost floor: nat)
    returns (settled: bool)
    requires calls != [] && |replies| == |calls| && calls[|calls| - 1] == id && replies[|calls| - 1] == reply
    requires Progress(start, store.Rows(), calls, replies, b, j, role, |calls| - 1, floor)
    modifies store
    ensures Progress(start, store.Rows(), calls, replies, b, j, role, |calls| - 1, floor)
    ensures settled && reply.Error? && reply.usage.Some? && reply.retryable ==>
      Progress(start, store.Rows(), calls, replies, b, j, role, |calls|, floor)
  {
    hide Inv, Extends;
    ghost var db := store.Rows();
    StepKeeps(db, SettleStep(id, reply, at));
    settled := SettleAttempt(store, id, reply, at);
    ProgressKeeps(start, db, store.Rows(), calls, replies, b, j, role, |calls| - 1, floor);
    if settled && reply.Error? && reply.usage.Some? && reply.retryable {
      SettledRow(db.attempts[id], reply, at);
      assert Dispatched(db, id, b, j, role);
      assert PaidFailure(store.Rows(), id, b, j, role);
    }
  }

  method NextRetry(store: Store, w: Worker, b: BatchId, k: nat, at: Instant,
                   ghost start: Db, ghost calls: seq<AttemptId>, ghost replies: seq<Reply>,
                   ghost j: JobId, role: Role, ghost floor: nat)
    returns (retry: Retry)
    requires Progress(start, store.Rows(), calls, replies, b, j, role, |calls|, floor)
    modifies store
    ensures Progress(start, store.Rows(), calls, replies, b, j, role, |calls|, if retry.Planned? then floor + 1
                     else floor)
  {
    hide Inv, Extends;
    ghost var db := store.Rows();
    StepKeeps(db, RetryStep(w, b, k, at));
    retry := PlanRetry(store, w, b, k, at);
    ProgressKeeps(start, db, store.Rows(), calls, replies, b, j, role, |calls|, floor);
    if retry.Planned? { RetryCounted(db, w, b, k, at, floor); }
  }

  /**
   * However the other workers, the provider and the signals behave: at most `maxRetries + 1` calls
   * are dispatched, every one has its own attempt row, written after this invocation began, every
   * one but the last was settled with known usage and a retryable error, and the retry counter of
   * the batch rose by at least one for every call after the first.
   */
  method CallRole(store: Store, w: Worker, b: BatchId, k: nat, role: Role, maxRetries: nat, script: seq<Round>)
    returns (outcome: CallOutcome, calls: seq<AttemptId>, replies: seq<Reply>)
    requires Inv(store.Rows()) && b in store.batches && k < |store.batches[b].jobs|
    requires |script| > maxRetries
    modifies store
    ensures |calls| <= maxRetries + 1
    ensures Reported(old(store.Rows()), store.Rows(), calls, replies, b, old(store.batches)[b].jobs[k].jobId, role,
                     old(store.batches)[b].counters.retries)
    ensures Unseen(old(store.Rows()), calls)
    ensures outcome.CallOk? ==> calls != [] && replies[|calls| - 1] == Answer(outcome.paid)
  {
    hide Inv, Extends, Calls, Unseen, Progress, Reported;
    ghost var start, j, floor := store.Rows(), store.batches[b].jobs[k].jobId, store.batches[b].counters.retries;
    NoCallsYet(start, b, j, role);
    calls, replies := [], [];
    var retriesLeft := maxRetries;
    while true
      invariant 0 <= retriesLeft <= maxRetries && |replies| == |calls| == maxRetries - retriesLeft
      invariant Progress(start, store.Rows(), calls, replies, b, j, role, |calls|, floor + |calls|)
      decreases retriesLeft
    {
      var round := script[|calls|];
      Report(start, store.Rows(), calls, replies, b, j, role, |calls|, |calls|, floor);
      if round.signals.cancelled { return CallStopped(TokenCancelled), calls, replies; }
      if round.signals.pause { return CallStopped(PauseRequested), calls, replies; }
      Meanwhile(store, round.earlier, start, calls, replies, b, j, role, |calls|, floor + |calls|);
      Report(start, store.Rows(), calls, replies, b, j, role, |calls|, |calls|, floor);
      if round.attempt in store.attempts { return CallThrew, calls, replies; }
      PlanFixed(start, store.Rows(), calls, replies, b, j, role, |calls|, floor + |calls|);
      var reserved := NextCall(store, w, b, k, role, round.attempt, round.reservedAt,
                               start, calls, replies, round.reply, j, floor + |calls|);
      if !reserved.Granted? {
        Report(start, store.Rows(), calls, replies, b, j, role, |calls|, |calls|, floor);
        return (match reserved case Quota => CallQuota case Refused => CallError case _ => CallStopped(NotReserved)),
          calls, replies;
      }
      calls, replies := calls + [round.attempt], replies + [round.reply];
      Meanwhile(store, round.during, start, calls, replies, b, j, role, |calls| - 1, floor + |calls| - 1);
      var settled := SettleCall(store, round.attempt, round.reply, round.settledAt,
                                start, calls, replies, b, j, role, floor + |calls| - 1);
      Report(start, store.Rows(), calls, replies, b, j, role, |calls| - 1, |calls| - 1, floor);
      if !settled { return CallThrew, calls, replies; }
      if round.reply.Answer? { return CallOk(round.reply.paid), calls, replies; }
      if round.reply.Lost? { return CallError, calls, replies; }
      if round.reply.code.CancelledCall? { return CallStopped(CallCancelled), calls, replies; }
      if round.reply.code.QuotaExhausted? { return CallQuota, calls, replies; }
      if round.reply.usage.None? || !round.reply.retryable || retriesLeft == 0 { return CallError, calls, replies; }
      Meanwhile(store, round.later, start, calls, replies, b, j, role, |calls|, floor + |calls| - 1);
      var retry := NextRetry(store, w, b, k, round.retriedAt, start, calls, replies, j, role, floor + |calls| - 1);
      if !retry.Planned? {
        Report(start, store.Rows(), calls, replies, b, j, role, |calls|, |calls| - 1, floor);
        return if retry.OwnershipLost? then CallStopped(OwnershipGone) else CallError, calls, replies;
      }
      retriesLeft := retriesLeft - 1;
    }
  }
}
