/**
 * `run` and its in-process signals: pausing and cancelling share one token, and only a cancellation
 * may become terminal.
 */
module RunLoop {
  import opened Prelude
  import opened AnalysisJobs
  import opened AnalysisBatches
  import opened AnalysisPipeline
  import opened PipelineRuns
  import opened PipelineSafety
  import opened PipelineTheorems
  import opened PipelineStore
  import opened RoleCall

  datatype Signal = PauseHere | CancelToken

  /** One commit attempt of a worker: the signals that arrive before each of its stop points. */
  datatype CommitTurn = CommitTurn(k: nat, content: Content, at: Instant, arriving: seq<seq<Signal>>,
                                   cancelledAt: Instant)

  /** One await of the worker pool: signals, transactions of every worker, and perhaps a commit. */
  datatype Turn = Turn(signals: seq<Signal>, steps: seq<Step>, commit: Option<CommitTurn>)

  datatype RunScript = RunScript(
    first: seq<Signal>, cancelAt: Instant, second: seq<Signal>, earlier: seq<Step>, claimAt: Instant,
    turns: seq<Turn>, last: seq<Signal>, closeAt: Instant)

  class BatchRun {
    var pauseRequested: bool
    var tokenCancelled: bool
    var terminal: nat
    ghost var history: seq<Signal>

    constructor ()
      ensures Valid() && history == [] && terminal == 0
    {
      pauseRequested, tokenCancelled, terminal, history := false, false, 0, [];
    }

    /** The flags remember every signal; a terminal cancellation needs a cancellation that came first. */
    ghost predicate Valid()
      reads this
    {
      && (pauseRequested <==> PauseHere in history)
      && (tokenCancelled <==> history != [])
      && (terminal > 0 ==> history != [] && history[0].CancelToken?)
    }

    /** `pause` requests the pause first and then cancels the local token. */
    method Deliver(signals: seq<Signal>)
      requires Valid()
      modifies this
      ensures Valid() && history == old(history) + signals && terminal == old(terminal)
    {
      for i := 0 to |signals|
        invariant Valid() && history == old(history) + signals[..i] && terminal == old(terminal)
      {
        if signals[i].PauseHere? { pauseRequested := true; }
        tokenCancelled := true;
        history := history + [signals[i]];
        assert signals[..i + 1] == signals[..i] + [signals[i]];
      }
      assert signals[..|signals|] == signals;
    }

    function Seen(): Signals
      reads this
    {
      Signals(pauseRequested, tokenCancelled)
    }

    /** `cancelPersisted`, called from the three places that decide on a terminal cancellation. */
    method CancelTerminally(store: Store, b: BatchId, at: Instant)
      requires Valid() && Inv(store.Rows())
      requires history != [] && history[0].CancelToken?
      modifies this, store
      ensures Valid() && history == old(history) && Inv(store.Rows())
      ensures store.Rows() == CancelBatch(old(store.Rows()), b, at)
    {
      CancelKeeps(store.Rows(), b, at);
      CancelPersisted(store, b, at);
      terminal := terminal + 1;
    }

    /** A cancelled token without a pause request means the first signal was a cancellation. */
    lemma FirstWasCancellation(seen: Signals, past: seq<Signal>)
      requires seen.cancelled && !seen.pause
      requires past <= history && (seen.pause <==> PauseHere in past) && (seen.cancelled <==> past != [])
      ensures history != [] && history[0].CancelToken?
    {
      assert past[0] == history[0] && past[0] in past;
    }

    method Commit(store: Store, w: Worker, b: BatchId, turn: CommitTurn)
      requires Valid() && Inv(store.Rows()) && |turn.arriving| == STOP_POINTS
      modifies this, store
      ensures Valid() && old(history) <= history && Inv(store.Rows())
    {
      hide Inv;
      if b !in store.batches || turn.k >= |store.batches[b].jobs| { return; }
      var seen: seq<Signals> := [];
      ghost var pasts: seq<seq<Signal>> := [];
      for i := 0 to STOP_POINTS
        invariant Valid() && old(history) <= history && terminal == old(terminal)
        invariant store.Rows() == old(store.Rows())
        invariant |seen| == |pasts| == i
        invariant forall n | 0 <= n < i ::
          && pasts[n] <= history
          && (seen[n].pause <==> PauseHere in pasts[n]) && (seen[n].cancelled <==> pasts[n] != [])
      {
        Deliver(turn.arriving[i]);
        seen, pasts := seen + [Seen()], pasts + [history];
      }
      ghost var before := store.Rows();
      PlanStored(before, b, turn.k);
      AdoptKeeps(before, w, b, turn.k, turn.content, turn.at);
      var commit := CommitAdoption(store, w, b, turn.k, turn.content, turn.at, seen);
      assert Inv(store.Rows());
      if commit == Aborted(CancelledAbort) {
        ghost var n :| 0 <= n < |seen| && seen[n].cancelled && !seen[n].pause;
        FirstWasCancellation(seen[n], pasts[n]);
        CancelTerminally(store, b, turn.cancelledAt);
      }
    }

    method Work(store: Store, w: Worker, b: BatchId, turns: seq<Turn>)
      requires Valid() && Inv(store.Rows())
      requires forall turn | turn in turns :: turn.commit.Some? ==> |turn.commit.value.arriving| == STOP_POINTS
      modifies this, store
      ensures Valid() && old(history) <= history && Inv(store.Rows())
    {
      for i := 0 to |turns|
        invariant Valid() && old(history) <= history && Inv(store.Rows())
      {
        Deliver(turns[i].signals);
        Interfere(store, turns[i].steps);
        if turns[i].commit.Some? { Commit(store, w, b, turns[i].commit.value); }
      }
    }

    /**
     * `run`: whatever the schedule of signals and of other workers, this run persists a terminal
     * cancellation only if the first signal it received was a cancellation; a pause alone, or a pause
     * that came first, never becomes one.
     */
    method Run(store: Store, w: Worker, b: BatchId, script: RunScript)
      requires Valid() && history == [] && terminal == 0 && Inv(store.Rows())
      requires forall turn | turn in script.turns :: turn.commit.Some? ==> |turn.commit.value.arriving| == STOP_POINTS
      modifies this, store
      ensures Valid() && Inv(store.Rows())
      ensures terminal > 0 ==> history != [] && history[0].CancelToken?
      ensures script.first != [] && script.first[0].PauseHere? ==> terminal == 0
    {
      hide Inv;
      Deliver(script.first);
      ghost var past := history;
      if b !in store.batches || !store.batches[b].Executable() { return; }
      if store.batches[b].status.Terminal() || store.batches[b].status.Paused? { return; }
      if tokenCancelled && !pauseRequested {
        FirstWasCancellation(Seen(), history);
        CancelTerminally(store, b, script.cancelAt);
        return;
      }
      Deliver(script.second);
      Interfere(store, script.earlier);
      ghost var before := store.Rows();
      StepKeeps(before, ClaimBatchStep(w, b, script.claimAt));
      Claim(store, w, b, script.claimAt);
      if !OwnsBatch(store.Rows(), w, b) { return; }
      Work(store, w, b, script.turns);
      Deliver(script.last);
      if tokenCancelled && !pauseRequested {
        FirstWasCancellation(Seen(), history);
        CancelTerminally(store, b, script.closeAt);
      } else {
        FinalizeKeeps(store.Rows(), w, b, script.closeAt);
        Finalize(store, w, b, script.closeAt);
      }
    }
  }

  lemma PlanStored(db: Db, b: BatchId, k: nat)
    requires Inv(db) && b in db.batches && k < |db.batches[b].jobs|
    ensures ValidBatch(db.batches[b]) && db.batches[b].jobs[k].snapshotId in db.snapshots
  {
    assert SpecsStored(db, db.batches[b]);
    assert SpecStored(db, db.batches[b].jobs[k]);
  }
}
