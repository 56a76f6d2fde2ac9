/** The close barrier and the single active run, for every interleaving of calls, sections and late items. */
module MaterialBarrier {
  import opened Prelude
  import opened MaterialBatches
  import opened MaterialService

  type Runs = map<RunId, Run>

  // ---- Invariants ----------------------------------------------------------------------------

  predicate Alive(runs: Runs, r: RunId) {
    r in runs && !runs[r].stage.Ended?
  }

  /** The section being executed and those queued behind it, in order. */
  function Pending(world: World): seq<Section> {
    (if world.current.Some? then [world.current.value] else []) + world.mutations
  }

  /** The ownership map holds exactly the live runs, each under its batch. */
  ghost predicate Owners(runs: Runs, owned: map<BatchId, RunId>) {
    && (forall b | b in owned :: Alive(runs, owned[b]) && runs[owned[b]].batch == b)
    && (forall r | Alive(runs, r) :: runs[r].batch in owned && owned[runs[r].batch] == r)
  }

  /** The line holds exactly the live runs, and only its head has begun. */
  ghost predicate Lined(runs: Runs, line: seq<RunId>) {
    && (forall i, j | 0 <= i < j < |line| :: line[i] != line[j])
    && (forall r :: r in line <==> Alive(runs, r))
    && (forall r | Alive(runs, r) && !runs[r].stage.Queued? :: line[0] == r)
  }

  predicate InItsSection(runs: Runs, r: RunId) {
    Alive(runs, r) && runs[r].stage.InSection?
  }

  /** At most one section of a run's own loop is pending, and its run waits for it. */
  ghost predicate Loops(runs: Runs, pending: seq<Section>) {
    && (forall s | s in pending && SectionRun(s).Some? :: InItsSection(runs, SectionRun(s).value))
    && (forall i, j | 0 <= i < j < |pending| :: !(SectionRun(pending[i]).Some? && SectionRun(pending[j]).Some?))
  }

  ghost predicate Claimed(runs: Runs, b: BatchId) {
    exists r :: r in runs && runs[r].batch == b && (!runs[r].stage.Ended? || runs[r].detached)
  }

  predicate IsRunning(batches: map<BatchId, Batch>, b: BatchId) {
    b in batches && batches[b].status.Running?
  }

  /** A batch this process ever started is durably running only while a live or detached run stands for it. */
  ghost predicate Truthful(runs: Runs, batches: map<BatchId, Batch>) {
    && (forall b | b in batches :: Valid(batches[b]))
    && (forall r | r in runs && IsRunning(batches, runs[r].batch) :: Claimed(runs, runs[r].batch))
  }

  /** Runs the close still has to deal with. */
  function LeftOver(closing: Closing): seq<RunId> {
    match closing
    case Waiting(left) => left
    case Detaching(left) => left
    case Interrupting(left) => left
    case _ => []
  }

  predicate Snapshotted(closing: Closing) {
    closing.Waiting? || closing.Detaching? || closing.Interrupting? || closing.Closed?
  }

  /** No admitted call survives the drain. */
  ghost predicate Barred(closing: Closing, current: Option<Section>, pending: seq<Section>) {
    && (!closing.Open? && !closing.Draining? ==> !(current.Some? && current.value.ApiSection?))
    && (closing.Draining? ==> DrainSection in pending)
  }

  /** Only the close detaches runs; once it listed them, every live run is listed or already detached. */
  ghost predicate Listed(closing: Closing, runs: Runs) {
    if Snapshotted(closing) then forall r | Alive(runs, r) :: r in LeftOver(closing) || runs[r].detached
    else forall r | r in runs :: !runs[r].detached
  }

  predicate RunsSection(section: Section, r: RunId) {
    || (section.StepSection? && section.run == r)
    || (section.FinishSection? && section.run == r)
    || (section.InterruptSection? && section.run == r)
  }

  /**
   * A detached run's batch is no longer running, or its interruption is pending; likewise while it is inside
   * a section.
   */
  ghost predicate Inert(runs: Runs, batches: map<BatchId, Batch>, current: Option<Section>, pending: seq<Section>) {
    && (forall r | r in runs && runs[r].detached && IsRunning(batches, runs[r].batch) :: CloseInterrupt(r) in pending)
    && (forall r | current.Some? && RunsSection(current.value, r) && r in runs && runs[r].detached ::
        CloseInterrupt(r) in pending)
  }

  /** The close interrupts one run at a time, and only then. */
  ghost predicate OneInterrupt(closing: Closing, pending: seq<Section>) {
    && (forall s | s in pending && s.CloseInterrupt? :: closing.Interrupting?)
    && (forall i, j | 0 <= i < j < |pending| :: !(pending[i].CloseInterrupt? && pending[j].CloseInterrupt?))
  }

  ghost predicate Inv(world: World) {
    && Owners(world.runs, world.owned) && Lined(world.runs, world.line)
    && Loops(world.runs, Pending(world)) && Truthful(world.runs, world.batches)
    && Barred(world.closing, world.current, Pending(world)) && Listed(world.closing, world.runs)
    && Inert(world.runs, world.batches, world.current, Pending(world)) && OneInterrupt(world.closing, Pending(world))
  }

  // ---- Queueing ------------------------------------------------------------------------------

  lemma PendingGrows(world: World, section: Section)
    ensures Pending(Enqueue(world, section)) == Pending(world) + [section]
  {
  }

  /** A section that is neither a run's own nor the close's may be queued at any time. */
  lemma EnqueueKeeps(world: World, section: Section)
    requires Inv(world) && SectionRun(section).None? && !section.CloseInterrupt?
    ensures Inv(Enqueue(world, section))
  {
    PendingGrows(world, section);
  }

  /** Only the cancellation flag of a run changed. */
  ghost predicate SameButCancelled(before: Runs, after: Runs) {
    after.Keys == before.Keys && forall r | r in before :: after[r] == before[r].(cancelled := after[r].cancelled)
  }

  lemma FlagKeeps(world: World, runs: Runs)
    requires Inv(world) && SameButCancelled(world.runs, runs)
    ensures Inv(world.(runs := runs))
  {
    assert forall r :: Alive(runs, r) == Alive(world.runs, r);
    assert forall b | Claimed(world.runs, b) :: Claimed(runs, b) by {
      forall b | Claimed(world.runs, b) ensures Claimed(runs, b) {
        var r :| r in world.runs && world.runs[r].batch == b && (!world.runs[r].stage.Ended? || world.runs[r].detached);
        assert r in runs && runs[r].batch == b;
      }
    }
    FlagLoops(world.runs, runs, Pending(world));
    assert Pending(world.(runs := runs)) == Pending(world);
  }

  lemma FlagLoops(before: Runs, after: Runs, pending: seq<Section>)
    requires Loops(before, pending) && SameButCancelled(before, after)
    ensures Loops(after, pending)
  {
  }

  /** The head of the line asks for its next section. */
  lemma AskKeeps(world: World, r: RunId, section: Section)
    requires Inv(world) && Alive(world.runs, r) && !world.runs[r].stage.InSection? && world.line != []
      && world.line[0] == r
    requires SectionRun(section) == Some(r) && !world.runs[r].detached
    ensures Inv(SetRun(Enqueue(world, section), r, world.runs[r].(stage := InSection)))
  {
    var runs := world.runs[r := world.runs[r].(stage := InSection)];
    var after := SetRun(Enqueue(world, section), r, world.runs[r].(stage := InSection));
    PendingGrows(world, section);
    NoLoopPending(world, r);
    StageOwners(world.runs, world.owned, r, InSection);
    StageLined(world.runs, world.line, r, InSection);
    StageTruthful(world.runs, world.batches, r, InSection);
    hide Owners, Lined, Truthful;
    assert Loops(runs, Pending(world) + [section]);
    assert Listed(after.closing, runs);
  }

  /** Nobody's own section is pending while the head of the line is not in one. */
  lemma NoLoopPending(world: World, r: RunId)
    requires Inv(world) && Alive(world.runs, r) && !world.runs[r].stage.InSection? && world.line != []
      && world.line[0] == r
    ensures forall s | s in Pending(world) :: SectionRun(s).None?
  {
  }

  lemma StageOwners(runs: Runs, owned: map<BatchId, RunId>, r: RunId, stage: Stage)
    requires Owners(runs, owned) && Alive(runs, r) && !stage.Ended?
    ensures Owners(runs[r := runs[r].(stage := stage)], owned)
  {
  }

  lemma StageLined(runs: Runs, line: seq<RunId>, r: RunId, stage: Stage)
    requires Lined(runs, line) && Alive(runs, r) && !stage.Ended? && line != [] && line[0] == r
    ensures Lined(runs[r := runs[r].(stage := stage)], line)
  {
    forall other ensures other in line <==> Alive(runs[r := runs[r].(stage := stage)], other) {
      assert other in line <==> Alive(runs, other);
    }
  }

  lemma StageTruthful(runs: Runs, batches: map<BatchId, Batch>, r: RunId, stage: Stage)
    requires Truthful(runs, batches) && Alive(runs, r) && !stage.Ended?
    ensures Truthful(runs[r := runs[r].(stage := stage)], batches)
  {
    var after := runs[r := runs[r].(stage := stage)];
    forall other | other in after && IsRunning(batches, after[other].batch) ensures Claimed(after, after[other].batch) {
      assert Claimed(runs, runs[other].batch);
      var c :| c in runs && runs[c].batch == runs[other].batch && (!runs[c].stage.Ended? || runs[c].detached);
      assert c in after && after[c].batch == after[other].batch && (!after[c].stage.Ended? || after[c].detached);
    }
  }

  // ---- Ending a run --------------------------------------------------------------------------

  lemma EndOwners(runs: Runs, owned: map<BatchId, RunId>, r: RunId)
    requires Owners(runs, owned) && Alive(runs, r)
    ensures Owners(runs[r := runs[r].(stage := Ended)], owned - {runs[r].batch})
  {
  }

  lemma EndLined(runs: Runs, line: seq<RunId>, r: RunId)
    requires Lined(runs, line) && Alive(runs, r) && line != [] && line[0] == r
    ensures Lined(runs[r := runs[r].(stage := Ended)], line[1..])
  {
    var after := runs[r := runs[r].(stage := Ended)];
    forall other ensures other in line[1..] <==> Alive(after, other) {
      assert other in line <==> Alive(runs, other);
      assert line == [r] + line[1..];
    }
  }

  lemma EndTruthful(runs: Runs, batches: map<BatchId, Batch>, r: RunId)
    requires Truthful(runs, batches) && Alive(runs, r) && (runs[r].detached || !IsRunning(batches, runs[r].batch))
    ensures Truthful(runs[r := runs[r].(stage := Ended)], batches)
  {
    var after := runs[r := runs[r].(stage := Ended)];
    forall other | other in after && IsRunning(batches, after[other].batch) ensures Claimed(after, after[other].batch) {
      assert Claimed(runs, runs[other].batch);
      var c :| c in runs && runs[c].batch == runs[other].batch && (!runs[c].stage.Ended? || runs[c].detached);
      assert c in after && after[c].batch == after[other].batch && (!after[c].stage.Ended? || after[c].detached);
    }
  }

  /** The head of the line may end when nothing of it is pending and its batch does not depend on it. */
  lemma EndKeeps(world: World, r: RunId)
    requires Inv(world) && Alive(world.runs, r) && world.line != [] && world.line[0] == r
    requires forall s | s in Pending(world) :: SectionRun(s).None?
    requires world.runs[r].detached || !IsRunning(world.batches, world.runs[r].batch)
    ensures Inv(End(world, r))
  {
    EndOwners(world.runs, world.owned, r);
    EndLined(world.runs, world.line, r);
    EndTruthful(world.runs, world.batches, r);
    assert Pending(End(world, r)) == Pending(world);
  }

  /** Writing a batch that does not become running by it. */
  lemma WriteKeeps(world: World, b: BatchId, next: Option<Batch>)
    requires Inv(world) && (next.Some? ==> Valid(next.value))
    requires next.Some? && next.value.status.Running? ==> IsRunning(world.batches, b)
    ensures Inv(Write(world, b, next))
  {
    assert Pending(Write(world, b, next)) == Pending(world);
  }

  // ---- Leaving and entering sections ---------------------------------------------------------

  /** The head of the pending sections is gone and nothing is being executed. */
  ghost predicate HeadGone(world: World, rest: World) {
    && Pending(world) != [] && Pending(rest) == Pending(world)[1..]
    && rest == world.(current := None, mutations := rest.mutations)
  }

  lemma DropKeeps(world: World, rest: World)
    requires Inv(world) && HeadGone(world, rest)
    requires !Pending(world)[0].DrainSection? && !Pending(world)[0].CloseInterrupt?
    ensures Inv(rest) && (world.current.None? ==> rest.current.None?)
    ensures SectionRun(Pending(world)[0]).Some? ==> forall s | s in Pending(rest) :: SectionRun(s).None?
  {
    var head := Pending(world)[0];
    assert Pending(world) == [head] + Pending(rest);
    DropLoops(world.runs, Pending(world));
    assert forall s | s in Pending(world) && s != head :: s in Pending(rest);
  }

  lemma DropLoops(runs: Runs, pending: seq<Section>)
    requires Loops(runs, pending) && pending != []
    ensures Loops(runs, pending[1..])
    ensures SectionRun(pending[0]).Some? ==> forall s | s in pending[1..] :: SectionRun(s).None?
  {
    forall s | s in pending[1..] && SectionRun(pending[0]).Some? ensures SectionRun(s).None? {
      var j :| 1 <= j < |pending| && pending[j] == s;
    }
  }

  lemma Left(world: World)
    requires world.current.Some?
    ensures HeadGone(world, world.(current := None)) && Pending(world)[0] == world.current.value
  {
  }

  lemma Entered(world: World)
    requires world.current.None? && world.mutations != []
    ensures HeadGone(world, world.(mutations := world.mutations[1..])) && Pending(world)[0] == world.mutations[0]
    ensures Pending(world.(current := Some(world.mutations[0]), mutations := world.mutations[1..])) == Pending(world)
  {
  }

  lemma EnterKeeps(world: World)
    requires Inv(world) && world.current.None? && world.mutations != []
    ensures Inv(EnterSection(world))
  {
    Entered(world);
    var section, rest := world.mutations[0], world.(mutations := world.mutations[1..]);
    if Skipped(world, section) {
      DropKeeps(world, rest);
      if SectionRun(section).Some? {
        assert InItsSection(world.runs, SectionRun(section).value);
        EndKeeps(rest, SectionRun(section).value);
      }
    } else {
      var after := rest.(current := Some(section));
      assert Inert(after.runs, after.batches, after.current, Pending(after));
    }
  }

  lemma RecoverKeeps(world: World)
    requires Inv(world)
    ensures Inv(world.(batches := RecoverAll(world)))
  {
    var after := world.(batches := RecoverAll(world));
    forall b | b in after.batches ensures Valid(after.batches[b]) {
      if world.batches[b].status.Running? { OutcomesAreAlwaysRecorded(world.batches[b], 0); }
    }
    assert forall b | IsRunning(after.batches, b) :: IsRunning(world.batches, b);
    assert Pending(after) == Pending(world);
  }

  lemma PrepareKeeps(world: World, b: BatchId, size: nat)
    requires Inv(world) && b !in world.batches && size > 0
    ensures Inv(world.(batches := world.batches[b := Batch(Prepared, seq(size, _ => ItemStatus.Pending), false)]))
  {
    var after := world.(batches := world.batches[b := Batch(Prepared, seq(size, _ => ItemStatus.Pending), false)]);
    assert after.batches[b].items[0].Pending?;
    assert forall c | IsRunning(after.batches, c) :: IsRunning(world.batches, c);
    assert Pending(after) == Pending(world);
  }

  /** A start makes its batch running and gives it a run, before anything else can happen. */
  lemma StartKeeps(world: World, b: BatchId, newRun: RunId, next: Batch)
    requires Inv(world) && b in world.batches && newRun !in world.runs && Valid(next) && !Snapshotted(world.closing)
    ensures Inv(EnsureRun(Write(world, b, Some(next)), b, newRun))
  {
    var after := EnsureRun(Write(world, b, Some(next)), b, newRun);
    assert Pending(after) == Pending(world);
    if b in world.owned {
      StartedTruthful(world.runs, world.batches, b, world.owned[b], next);
    } else {
      NewRunOwners(world.runs, world.owned, b, newRun);
      NewRunLined(world.runs, world.line, b, newRun);
      NewRunTruthful(world.runs, world.batches, b, newRun);
      StartedTruthful(after.runs, world.batches, b, newRun, next);
      NewRunLoops(world.runs, b, newRun, Pending(world));
    }
  }

  lemma StartedTruthful(runs: Runs, batches: map<BatchId, Batch>, b: BatchId, r: RunId, next: Batch)
    requires Truthful(runs, batches) && Alive(runs, r) && runs[r].batch == b && Valid(next)
    ensures Truthful(runs, batches[b := next])
  {
    assert Claimed(runs, b);
  }

  lemma NewRunOwners(runs: Runs, owned: map<BatchId, RunId>, b: BatchId, r: RunId)
    requires Owners(runs, owned) && r !in runs && b !in owned
    ensures Owners(runs[r := Run(b, false, false, Queued)], owned[b := r])
  {
  }

  lemma NewRunLined(runs: Runs, line: seq<RunId>, b: BatchId, r: RunId)
    requires Lined(runs, line) && r !in runs
    ensures Lined(runs[r := Run(b, false, false, Queued)], line + [r])
  {
    var after := runs[r := Run(b, false, false, Queued)];
    forall other ensures other in line + [r] <==> Alive(after, other) {
      assert other in line <==> Alive(runs, other);
    }
    assert r !in line;
  }

  lemma NewRunTruthful(runs: Runs, batches: map<BatchId, Batch>, b: BatchId, r: RunId)
    requires Truthful(runs, batches) && r !in runs
    ensures Truthful(runs[r := Run(b, false, false, Queued)], batches)
  {
    var after := runs[r := Run(b, false, false, Queued)];
    assert Claimed(after, b) by { assert after[r].batch == b; }
    forall other | other in after && IsRunning(batches, after[other].batch) ensures Claimed(after, after[other].batch) {
      if other != r {
        assert Claimed(runs, runs[other].batch);
        var c :| c in runs && runs[c].batch == runs[other].batch && (!runs[c].stage.Ended? || runs[c].detached);
        assert c in after && after[c] == runs[c];
      }
    }
  }

  lemma NewRunLoops(runs: Runs, b: BatchId, r: RunId, pending: seq<Section>)
    requires Loops(runs, pending) && r !in runs
    ensures Loops(runs[r := Run(b, false, false, Queued)], pending)
  {
  }

  lemma ApiKeeps(world: World, api: Api, newRun: RunId, rechecked: bool)
    requires Inv(world) && newRun !in world.runs && !Snapshotted(world.closing)
    ensures Inv(ApiEffect(world, api, newRun, rechecked))
  {
    match api
    case StartApi(b) =>
      if b in world.batches {
        TransitionsAreLegal(world.batches[b], 0);
        if world.batches[b].status.Running? {
          OutcomesAreAlwaysRecorded(world.batches[b], 0);
          WriteKeeps(world, b, Interrupt(world.batches[b]));
        } else if StartBatch(world.batches[b]).Some? {
          StartKeeps(world, b, newRun, StartBatch(world.batches[b]).value);
        }
      }
    case CancelApi(b) =>
      if b in world.batches {
        TransitionsAreLegal(world.batches[b], 0);
        WriteKeeps(world, b, CancelBatch(world.batches[b]));
      }
    case RetryApi(b) =>
      if b in world.batches {
        TransitionsAreLegal(world.batches[b], 0);
        WriteKeeps(world, b, RetryFailed(world.batches[b]));
      }
    case PrepareApi(b, size) => if b !in world.batches && size > 0 { PrepareKeeps(world, b, size); }
    case RecoverApi => RecoverKeeps(world);
  }

  /** A run that just left its section: it is the live head, in its section, with nothing of its own pending. */
  ghost predicate Acting(world: World, r: RunId) {
    && Inv(world) && InItsSection(world.runs, r) && world.line != [] && world.line[0] == r
    && (forall s | s in Pending(world) :: SectionRun(s).None?)
    && world.current.None?
    && (world.runs[r].detached ==> CloseInterrupt(r) in Pending(world))
  }

  lemma ActingWrite(world: World, r: RunId, b: BatchId, next: Option<Batch>)
    requires Acting(world, r) && (next.Some? ==> Valid(next.value))
    requires next.Some? && next.value.status.Running? ==> IsRunning(world.batches, b)
    ensures Acting(Write(world, b, next), r)
  {
    WriteKeeps(world, b, next);
    assert Pending(Write(world, b, next)) == Pending(world);
  }

  lemma ActingStage(world: World, r: RunId, stage: Stage)
    requires Acting(world, r) && !stage.Ended?
    ensures Inv(SetRun(world, r, world.runs[r].(stage := stage)))
  {
    var after := SetRun(world, r, world.runs[r].(stage := stage));
    StageOwners(world.runs, world.owned, r, stage);
    StageLined(world.runs, world.line, r, stage);
    StageTruthful(world.runs, world.batches, r, stage);
    assert Pending(after) == Pending(world);
  }

  lemma ActingAsks(world: World, r: RunId)
    requires Acting(world, r)
    ensures Inv(Enqueue(world, InterruptSection(r, true)))
  {
    PendingGrows(world, InterruptSection(r, true));
  }

  lemma StepSectionKeeps(world: World, r: RunId)
    requires Acting(world, r)
    ensures Inv(StepEffect(world, r))
  {
    var b := world.runs[r].batch;
    if !IsRunning(world.batches, b) {
      EndKeeps(world, r);
    } else {
      var batch := world.batches[b];
      var i := FirstPending(batch.items);
      TransitionsAreLegal(batch, i);
      OutcomesAreAlwaysRecorded(batch, i);
      if i == |batch.items| {
        ActingWrite(world, r, b, SettleRun(batch));
        EndKeeps(Write(world, b, SettleRun(batch)), r);
      } else {
        ActingWrite(world, r, b, BeginItem(batch, i));
        ActingStage(Write(world, b, BeginItem(batch, i)), r, Working(i));
      }
    }
  }

  lemma ContinueKeeps(world: World, r: RunId, outcome: Outcome)
    requires Acting(world, r)
    requires outcome.ItemStopped? ==> !IsRunning(world.batches, world.runs[r].batch)
    ensures Inv(Continue(world, r, outcome))
  {
    if outcome.ItemStopped? { EndKeeps(world, r); } else { ActingStage(world, r, Ready); }
  }

  lemma FinishSectionKeeps(world: World, r: RunId, i: nat, outcome: Outcome)
    requires Acting(world, r)
    ensures Inv(FinishEffect(world, r, i, outcome))
  {
    var b := world.runs[r].batch;
    if b !in world.batches {
      ContinueKeeps(world, r, outcome);
    } else {
      var batch := world.batches[b];
      TransitionsAreLegal(batch, i);
      if batch.status.Cancelled? {
        ActingWrite(world, r, b, RestoreItem(batch, i));
        ContinueKeeps(if outcome.ItemDone? then Write(world, b, RestoreItem(batch, i)) else world, r, outcome);
      } else if !batch.status.Running? {
        ContinueKeeps(world, r, outcome);
      } else {
        OutcomesAreAlwaysRecorded(batch, i);
        var next := match outcome
                    case ItemDone => CompleteItem(batch, i)
                    case ItemFailed => FailItem(batch, i)
                    case ItemStopped => Interrupt(batch);
        if next.None? {
          ActingAsks(world, r);
        } else {
          ActingWrite(world, r, b, next);
          ContinueKeeps(Write(world, b, next), r, outcome);
        }
      }
    }
  }

  lemma InterruptKeeps(world: World, b: BatchId)
    requires Inv(world)
    ensures Inv(InterruptEffect(world, b)) && !IsRunning(InterruptEffect(world, b).batches, b)
    ensures Pending(InterruptEffect(world, b)) == Pending(world)
  {
    if IsRunning(world.batches, b) {
      TransitionsAreLegal(world.batches[b], 0);
      OutcomesAreAlwaysRecorded(world.batches[b], 0);
      WriteKeeps(world, b, Interrupt(world.batches[b]));
    }
  }

  lemma BecomesActing(world: World, r: RunId)
    requires Inv(world) && world.current.Some? && SectionRun(world.current.value) == Some(r)
    ensures Acting(world.(current := None), r)
  {
    Left(world);
    DropKeeps(world, world.(current := None));
    assert world.current.value in Pending(world);
    assert InItsSection(world.runs, r);
    if world.runs[r].detached {
      assert RunsSection(world.current.value, r);
      assert Pending(world) == [world.current.value] + world.mutations;
    }
  }

  /** Dropping a head that is no interruption of the close leaves every detached run inert. */
  lemma DropInterrupts(closing: Closing, runs: Runs, batches: map<BatchId, Batch>, current: Option<Section>,
                       pending: seq<Section>)
    requires Inert(runs, batches, current, pending) && OneInterrupt(closing, pending)
    requires pending != [] && !pending[0].CloseInterrupt?
    ensures Inert(runs, batches, None, pending[1..]) && OneInterrupt(closing, pending[1..])
  {
    assert pending == [pending[0]] + pending[1..];
  }

  lemma DrainKeeps(world: World)
    requires Inv(world) && world.current == Some(DrainSection)
    ensures Inv(LeaveSection(world, 0, false))
  {
    Left(world);
    var after := LeaveSection(world, 0, false);
    assert Pending(after) == Pending(world)[1..];
    DropLoops(world.runs, Pending(world));
    DropInterrupts(world.closing, world.runs, world.batches, world.current, Pending(world));
    assert OneInterrupt(after.closing, Pending(after));
    hide Owners, Lined, Loops, Truthful, Inert, OneInterrupt;
  }

  lemma CloseInterruptKeeps(world: World, r: RunId)
    requires Inv(world) && world.current == Some(CloseInterrupt(r))
    ensures Inv(LeaveSection(world, 0, false))
  {
    Left(world);
    var after := LeaveSection(world, 0, false);
    var middle := if r in world.runs then InterruptEffect(world, world.runs[r].batch) else world;
    if r in world.runs { InterruptKeeps(world, world.runs[r].batch); }
    assert middle == world.(batches := middle.batches);
    assert Pending(after) == Pending(middle)[1..] && Pending(middle)[0] == CloseInterrupt(r);
    NoMoreInterrupts(middle.closing, Pending(middle));
    assert after == middle.(current := None, closing := Detaching(world.closing.left));
    DropLoops(middle.runs, Pending(middle));
    InertAfterInterrupt(middle.runs, middle.batches, r, middle.current, Pending(middle));
    assert OneInterrupt(after.closing, Pending(after));
    hide Owners, Lined, Loops, Truthful, Inert, OneInterrupt;
  }

  lemma NoMoreInterrupts(closing: Closing, pending: seq<Section>)
    requires OneInterrupt(closing, pending) && pending != [] && pending[0].CloseInterrupt?
    ensures closing.Interrupting?
    ensures forall s | s in pending[1..] :: !s.CloseInterrupt?
  {
    forall s | s in pending[1..] ensures !s.CloseInterrupt? {
      var j :| 1 <= j < |pending| && pending[j] == s;
    }
  }

  lemma InertAfterInterrupt(runs: Runs, batches: map<BatchId, Batch>, r: RunId, current: Option<Section>,
                            pending: seq<Section>)
    requires Inert(runs, batches, current, pending) && pending != [] && pending[0] == CloseInterrupt(r)
    requires forall s | s in pending[1..] :: !s.CloseInterrupt?
    requires r in runs ==> !IsRunning(batches, runs[r].batch)
    ensures forall other | other in runs && runs[other].detached :: !IsRunning(batches, runs[other].batch)
    ensures Inert(runs, batches, None, pending[1..])
  {
    assert pending == [pending[0]] + pending[1..];
  }

  lemma LeaveKeeps(world: World, newRun: RunId, rechecked: bool)
    requires Inv(world) && world.current.Some? && newRun !in world.runs
    ensures Inv(LeaveSection(world, newRun, rechecked))
  {
    var done := world.(current := None);
    Left(world);
    match world.current.value
    case ApiSection(api) =>
      DropKeeps(world, done);
      ApiKeeps(done, api, newRun, rechecked);
    case StepSection(r) =>
      BecomesActing(world, r);
      StepSectionKeeps(done, r);
    case FinishSection(r, i, outcome) =>
      BecomesActing(world, r);
      FinishSectionKeeps(done, r, i, outcome);
    case InterruptSection(r, fromLoop) =>
      if fromLoop {
        BecomesActing(world, r);
        InterruptKeeps(done, world.runs[r].batch);
        EndKeeps(InterruptEffect(done, world.runs[r].batch), r);
      } else {
        DropKeeps(world, done);
        if r in world.runs { InterruptKeeps(done, world.runs[r].batch); }
      }
    case DrainSection => DrainKeeps(world);
    case CloseInterrupt(r) => CloseInterruptKeeps(world, r);
  }

  // ---- The close -----------------------------------------------------------------------------

  lemma CloseKeeps(world: World)
    requires Inv(world)
    ensures Inv(Next(world, CloseStep))
  {
    if !world.Refuses() {
      EnqueueKeeps(world, DrainSection);
      var queued := Enqueue(world, DrainSection);
      PendingGrows(world, DrainSection);
      assert Pending(queued.(closing := Draining)) == Pending(queued);
    }
  }

  lemma SnapshotKeeps(world: World, order: seq<RunId>)
    requires Inv(world)
    ensures Inv(Next(world, SnapshotStep(order)))
  {
    if world.closing.Drained? && (set r | r in order) == world.owned.Values {
      var runs := map r | r in world.runs :: if r in order then world.runs[r].(cancelled := true) else world.runs[r];
      FlagKeeps(world, runs);
      var after := Next(world, SnapshotStep(order));
      assert Pending(after) == Pending(world);
      forall r | Alive(after.runs, r) ensures r in order {
        assert Alive(world.runs, r) && world.owned[world.runs[r].batch] == r;
        assert r in world.owned.Values;
      }
      assert OneInterrupt(after.closing, Pending(after));
    }
  }

  lemma ExpireKeeps(world: World)
    requires Inv(world)
    ensures Inv(Next(world, ExpireStep))
  {
    assert Pending(Next(world, ExpireStep)) == Pending(world);
  }

  lemma DetachKeeps(world: World)
    requires Inv(world)
    ensures Inv(Detach(world))
  {
    if world.closing.Detaching? {
      var left := world.closing.left;
      if left == [] || !Live(world, left[0]) {
        assert Pending(Detach(world)) == Pending(world);
        assert left != [] ==> left == [left[0]] + left[1..];
      } else {
        DetachOne(world, left[0], left[1..]);
      }
    }
  }

  lemma DetachOne(world: World, r: RunId, rest: seq<RunId>)
    requires Inv(world) && world.closing == Detaching([r] + rest) && Alive(world.runs, r)
    ensures Inv(SetRun(Enqueue(world.(closing := Interrupting(rest)), CloseInterrupt(r)), r,
                       world.runs[r].(detached := true)))
  {
    var after := SetRun(Enqueue(world.(closing := Interrupting(rest)), CloseInterrupt(r)), r,
                        world.runs[r].(detached := true));
    assert Pending(after) == Pending(world) + [CloseInterrupt(r)];
    DetachedRuns(world.runs, world.owned, world.line, Pending(world), r);
    DetachedTruthful(world.runs, world.batches, r);
    DetachedInert(world.runs, world.batches, world.current, Pending(world), r);
    DetachedList(world.runs, r, rest);
    hide Owners, Lined, Loops, Truthful, Inert, Listed;
    assert OneInterrupt(after.closing, Pending(after));
    assert Barred(after.closing, after.current, Pending(after));
  }

  lemma DetachedRuns(runs: Runs, owned: map<BatchId, RunId>, line: seq<RunId>, pending: seq<Section>, r: RunId)
    requires Owners(runs, owned) && Lined(runs, line) && Loops(runs, pending) && Alive(runs, r)
    ensures var after := runs[r := runs[r].(detached := true)];
            Owners(after, owned) && Lined(after, line) && Loops(after, pending + [CloseInterrupt(r)])
  {
    var after := runs[r := runs[r].(detached := true)];
    forall other ensures other in line <==> Alive(after, other) {
      assert other in line <==> Alive(runs, other);
    }
  }

  lemma DetachedInert(runs: Runs, batches: map<BatchId, Batch>, current: Option<Section>, pending: seq<Section>,
                      r: RunId)
    requires Inert(runs, batches, current, pending) && r in runs
    ensures Inert(runs[r := runs[r].(detached := true)], batches, current, pending + [CloseInterrupt(r)])
  {
  }

  lemma DetachedList(runs: Runs, r: RunId, rest: seq<RunId>)
    requires Listed(Detaching([r] + rest), runs) && Alive(runs, r)
    ensures Listed(Interrupting(rest), runs[r := runs[r].(detached := true)])
  {
    var after := runs[r := runs[r].(detached := true)];
    forall other | Alive(after, other) ensures other in rest || after[other].detached {
      assert Alive(runs, other);
    }
  }

  lemma DetachedTruthful(runs: Runs, batches: map<BatchId, Batch>, r: RunId)
    requires Truthful(runs, batches) && Alive(runs, r)
    ensures Truthful(runs[r := runs[r].(detached := true)], batches)
  {
    var after := runs[r := runs[r].(detached := true)];
    forall other | other in after && IsRunning(batches, after[other].batch) ensures Claimed(after, after[other].batch) {
      assert Claimed(runs, runs[other].batch);
      var c :| c in runs && runs[c].batch == runs[other].batch && (!runs[c].stage.Ended? || runs[c].detached);
      assert c in after && after[c].batch == after[other].batch && (!after[c].stage.Ended? || after[c].detached);
    }
  }

  // ---- Every step ----------------------------------------------------------------------------

  lemma HeadIsAlive(world: World, r: RunId)
    requires Inv(world) && world.line != [] && world.line[0] == r
    ensures Alive(world.runs, r)
  {
    assert r in world.line;
  }

  lemma TurnKeeps(world: World)
    requires Inv(world)
    ensures Inv(TakeTurn(world))
  {
    if world.line != [] {
      var r := world.line[0];
      HeadIsAlive(world, r);
      var run := world.runs[r];
      if run.stage.Queued? || run.stage.Ready? {
        NoLoopPending(world, r);
        if run.detached {
          EndKeeps(world, r);
        } else {
          AskKeeps(world, r, if run.cancelled then InterruptSection(r, true) else StepSection(r));
        }
      }
    }
  }

  lemma ItemKeeps(world: World, outcome: Outcome)
    requires Inv(world)
    ensures Inv(ItemReturns(world, outcome))
  {
    if world.line != [] {
      var r := world.line[0];
      HeadIsAlive(world, r);
      if world.runs[r].stage.Working? {
        NoLoopPending(world, r);
        if world.runs[r].detached {
          EndKeeps(world, r);
        } else {
          AskKeeps(world, r, FinishSection(r, world.runs[r].stage.index, outcome));
        }
      }
    }
  }

  lemma TokenKeeps(world: World, b: BatchId)
    requires Inv(world)
    ensures Inv(CancelToken(world, b))
  {
    FlagKeeps(world, CancelToken(world, b).runs);
  }

  lemma StepKeeps(world: World, step: Step)
    requires Inv(world)
    ensures Inv(Next(world, step))
  {
    match step
    case CallStep(api) =>
      if api.CancelApi? { TokenKeeps(world, api.b); }
      EnqueueKeeps(if api.CancelApi? then CancelToken(world, api.b) else world, ApiSection(api));
    case StartCancelledStep(b) =>
      TokenKeeps(world, b);
      if b in world.owned { EnqueueKeeps(CancelToken(world, b), InterruptSection(world.owned[b], false)); }
    case EnterStep => if world.current.None? && world.mutations != [] { EnterKeeps(world); }
    case LeaveStep(newRun, rechecked) =>
      if world.current.Some? && newRun !in world.runs { LeaveKeeps(world, newRun, rechecked); }
    case TurnStep => TurnKeeps(world);
    case ItemReturnsStep(outcome) => ItemKeeps(world, outcome);
    case CloseStep => CloseKeeps(world);
    case SnapshotStep(order) => SnapshotKeeps(world, order);
    case ExpireStep => ExpireKeeps(world);
    case DetachStep => DetachKeeps(world);
  }

  lemma {:induction false} RunKeeps(world: World, steps: seq<Step>)
    requires Inv(world)
    ensures Inv(RunAll(world, steps))
  {
    if steps != [] {
      hide Inv, Next;
      RunKeeps(world, steps[..|steps| - 1]);
      StepKeeps(RunAll(world, steps[..|steps| - 1]), steps[|steps| - 1]);
    }
  }

  ghost predicate AllValid(batches: map<BatchId, Batch>) {
    forall b | b in batches :: Valid(batches[b])
  }

  lemma FreshInv(batches: map<BatchId, Batch>)
    requires AllValid(batches)
    ensures Inv(Fresh(batches))
  {
  }

  // ---- Main results --------------------------------------------------------------------------

  /** A run has begun and is not over. */
  predicate Executing(world: World, r: RunId) {
    Live(world, r) && !world.runs[r].stage.Queued?
  }

  /** At most one run of the whole service executes at a time. */
  lemma OneRunAtATime(batches: map<BatchId, Batch>, steps: seq<Step>, r: RunId, other: RunId)
    requires AllValid(batches)
    requires Executing(RunAll(Fresh(batches), steps), r) && Executing(RunAll(Fresh(batches), steps), other)
    ensures r == other
  {
    FreshInv(batches);
    RunKeeps(Fresh(batches), steps);
    var world := RunAll(Fresh(batches), steps);
    assert Alive(world.runs, r) && Alive(world.runs, other);
  }

  /**
   * When `close` resolved, every run this process ever had is over or detached, and no batch it ever
   * started is left durably running.
   */
  lemma ClosedIsTruthful(batches: map<BatchId, Batch>, steps: seq<Step>, r: RunId)
    requires AllValid(batches)
    requires RunAll(Fresh(batches), steps).closing.Closed? && r in RunAll(Fresh(batches), steps).runs
    ensures var world := RunAll(Fresh(batches), steps);
            && (world.runs[r].stage.Ended? || world.runs[r].detached)
            && !(world.runs[r].batch in world.batches && world.batches[world.runs[r].batch].status.Running?)
  {
    FreshInv(batches);
    RunKeeps(Fresh(batches), steps);
    ClosedRunsAreInert(RunAll(Fresh(batches), steps), r);
  }

  lemma ClosedRunsAreInert(world: World, r: RunId)
    requires Inv(world) && world.closing.Closed? && r in world.runs
    ensures (world.runs[r].stage.Ended? || world.runs[r].detached) && !IsRunning(world.batches, world.runs[r].batch)
  {
    var b := world.runs[r].batch;
    assert Alive(world.runs, r) ==> world.runs[r].detached;
    forall c | c in world.runs && (!world.runs[c].stage.Ended? || world.runs[c].detached)
      ensures !IsRunning(world.batches, world.runs[c].batch)
    {
      assert Alive(world.runs, c) ==> world.runs[c].detached;
    }
    assert IsRunning(world.batches, b) ==> Claimed(world.runs, b);
  }

  /** After the close nothing is written and nothing is claimed, whatever late promises do. */
  lemma StepAfterClose(world: World, step: Step)
    requires Inv(world) && world.closing.Closed?
    ensures Next(world, step).batches == world.batches && Next(world, step).runs.Keys == world.runs.Keys
    ensures Next(world, step).closing.Closed?
  {
    if !step.LeaveStep? { OnlyLeavingWrites(world, step); }
    hide LeaveSection, Inv, EnterSection, TakeTurn, ItemReturns, Detach, CancelToken, Enqueue;
    if step.LeaveStep? && world.current.Some? && step.newRun !in world.runs {
      LeaveAfterClose(world, step.newRun, step.rechecked);
    }
  }

  lemma OnlyLeavingWrites(world: World, step: Step)
    requires world.closing.Closed? && !step.LeaveStep?
    ensures Next(world, step).batches == world.batches && Next(world, step).runs.Keys == world.runs.Keys
    ensures Next(world, step).closing.Closed?
  {
  }

  lemma LeaveAfterClose(world: World, newRun: RunId, rechecked: bool)
    requires Inv(world) && world.closing.Closed? && world.current.Some? && newRun !in world.runs
    ensures var after := LeaveSection(world, newRun, rechecked);
            after.batches == world.batches && after.runs.Keys == world.runs.Keys && after.closing.Closed?
  {
    var section := world.current.value;
    assert section in Pending(world);
    match section
    case StepSection(r) => NoRunSection(world);
    case FinishSection(r, i, outcome) => NoRunSection(world);
    case InterruptSection(r, fromLoop) => if r in world.runs { ClosedRunsAreInert(world, r); }
    case _ =>
  }

  /** No section of a run is under way once the close resolved. */
  lemma NoRunSection(world: World)
    requires Inv(world) && world.closing.Closed? && world.current.Some?
    ensures !world.current.value.StepSection? && !world.current.value.FinishSection?
  {
    assert world.current.value in Pending(world);
    assert forall r | Alive(world.runs, r) :: world.runs[r].detached;
    assert forall s | s in Pending(world) :: !s.CloseInterrupt?;
    assert forall r | RunsSection(world.current.value, r) :: !Alive(world.runs, r);
  }

  lemma {:induction false} RunsSplit(world: World, first: seq<Step>, second: seq<Step>)
    ensures RunAll(world, first + second) == RunAll(RunAll(world, first), second)
  {
    hide Next;
    if second == [] {
      assert first + second == first;
    } else {
      assert (first + second)[..|first + second| - 1] == first + second[..|second| - 1];
      RunsSplit(world, first, second[..|second| - 1]);
    }
  }

  lemma {:induction false} StillClosed(world: World, later: seq<Step>)
    requires Inv(world) && world.closing.Closed?
    ensures RunAll(world, later).batches == world.batches && RunAll(world, later).runs.Keys == world.runs.Keys
    ensures RunAll(world, later).closing.Closed?
  {
    if later != [] {
      StillClosed(world, later[..|later| - 1]);
      RunKeeps(world, later[..|later| - 1]);
      StepAfterClose(RunAll(world, later[..|later| - 1]), later[|later| - 1]);
    }
  }

  /**
   * The close barrier: once `close` resolved, no later step of any queued call, section, run or late
   * item writes a batch through this service or claims a run.
   */
  lemma CloseIsABarrier(batches: map<BatchId, Batch>, steps: seq<Step>, later: seq<Step>)
    requires AllValid(batches) && RunAll(Fresh(batches), steps).closing.Closed?
    ensures var closed, end := RunAll(Fresh(batches), steps), RunAll(Fresh(batches), steps + later);
            end.batches == closed.batches && end.runs.Keys == closed.runs.Keys
  {
    FreshInv(batches);
    RunKeeps(Fresh(batches), steps);
    RunsSplit(Fresh(batches), steps, later);
    StillClosed(RunAll(Fresh(batches), steps), later);
  }

  // ---- A repeated close ----------------------------------------------------------------------

  /**
   * A `close` after the first one neither drains nor detaches: it waits for the runs owned when it is
   * called, up to its deadline. Before the deadline it may resolve here.
   */
  predicate RepeatedCloseResolves(called: World, now: World) {
    called.Refuses() && forall b | b in called.owned :: !Live(now, called.owned[b])
  }

  const STARTING: seq<Step> := [CallStep(StartApi(1)), EnterStep, CloseStep]
  const ONE_ITEM: map<BatchId, Batch> := map[1 := Batch(Prepared, [ItemStatus.Pending], false)]

  lemma Starting()
    ensures RunAll(Fresh(ONE_ITEM), STARTING)
         == World(Draining, Some(ApiSection(StartApi(1))), [DrainSection], [], map[], map[], ONE_ITEM)
  {
    assert STARTING[..2] == [CallStep(StartApi(1)), EnterStep] && STARTING[..2][..1] == [CallStep(StartApi(1))];
    assert [CallStep(StartApi(1))][..0] == [];
  }

  /**
   * So it is no barrier: while the first close still drains, a start that passed its check has no run
   * yet, a repeated close has nothing to wait for, and the start writes its batch and claims its run
   * afterwards.
   */
  lemma RepeatedCloseMayBeEarly()
    ensures var world := RunAll(Fresh(ONE_ITEM), STARTING);
            && RepeatedCloseResolves(world, world)
            && var later := Next(world, LeaveStep(5, true));
               && IsRunning(later.batches, 1) && 5 in later.runs
               && world.batches == ONE_ITEM && 5 !in world.runs
  {
    Starting();
    var batch := ONE_ITEM[1];
    assert batch.items[0] in batch.items;
    assert StartBatch(batch) == Some(Batch(BatchStatus.Running, [ItemStatus.Pending], true));
  }

  // ---- What is completed stays completed -----------------------------------------------------

  ghost predicate Advances(before: map<BatchId, Batch>, after: map<BatchId, Batch>) {
    forall b | b in before :: b in after && (after[b] == before[b] || LegalChange(before[b], after[b]))
  }

  lemma ApiAdvances(world: World, api: Api, newRun: RunId, rechecked: bool)
    requires AllValid(world.batches)
    ensures Advances(world.batches, ApiEffect(world, api, newRun, rechecked).batches)
  {
    match api
    case StartApi(b) => if b in world.batches { TransitionsAreLegal(world.batches[b], 0); }
    case CancelApi(b) => if b in world.batches { TransitionsAreLegal(world.batches[b], 0); }
    case RetryApi(b) => if b in world.batches { TransitionsAreLegal(world.batches[b], 0); }
    case PrepareApi(b, size) =>
    case RecoverApi =>
      forall b | b in world.batches ensures Lawful(world.batches[b], Interrupt(world.batches[b])) {
        TransitionsAreLegal(world.batches[b], 0);
      }
  }

  lemma StepEffectAdvances(world: World, r: RunId)
    requires AllValid(world.batches) && r in world.runs
    ensures Advances(world.batches, StepEffect(world, r).batches)
  {
    var b := world.runs[r].batch;
    if b in world.batches { TransitionsAreLegal(world.batches[b], FirstPending(world.batches[b].items)); }
  }

  lemma FinishEffectAdvances(world: World, r: RunId, i: nat, outcome: Outcome)
    requires AllValid(world.batches) && r in world.runs
    ensures Advances(world.batches, FinishEffect(world, r, i, outcome).batches)
  {
    var b := world.runs[r].batch;
    if b in world.batches { TransitionsAreLegal(world.batches[b], i); }
  }

  lemma InterruptAdvances(world: World, b: BatchId)
    requires AllValid(world.batches)
    ensures Advances(world.batches, InterruptEffect(world, b).batches)
  {
    if b in world.batches { TransitionsAreLegal(world.batches[b], 0); }
  }

  lemma LeaveAdvances(world: World, newRun: RunId, rechecked: bool)
    requires AllValid(world.batches) && world.current.Some?
    ensures Advances(world.batches, LeaveSection(world, newRun, rechecked).batches)
  {
    hide Advances, AllValid;
    var done := world.(current := None);
    Unchanged(world.batches);
    match world.current.value
    case ApiSection(api) => ApiAdvances(done, api, newRun, rechecked);
    case StepSection(r) => if r in world.runs { StepEffectAdvances(done, r); }
    case FinishSection(r, i, outcome) => if r in world.runs { FinishEffectAdvances(done, r, i, outcome); }
    case InterruptSection(r, _) => if r in world.runs { InterruptAdvances(done, world.runs[r].batch); }
    case CloseInterrupt(r) => if r in world.runs { InterruptAdvances(done, world.runs[r].batch); }
    case DrainSection =>
  }

  lemma Unchanged(batches: map<BatchId, Batch>)
    ensures Advances(batches, batches)
  {
  }

  /** Every step moves every stored batch along a change the store accepts, or leaves it alone. */
  lemma StepAdvances(world: World, step: Step)
    requires AllValid(world.batches)
    ensures Advances(world.batches, Next(world, step).batches)
  {
    hide Advances, AllValid;
    Unchanged(world.batches);
    if step.LeaveStep? && world.current.Some? && step.newRun !in world.runs {
      LeaveAdvances(world, step.newRun, step.rechecked);
    } else {
      OthersWriteNothing(world, step);
    }
  }

  lemma OthersWriteNothing(world: World, step: Step)
    requires step.LeaveStep? ==> world.current.None? || step.newRun in world.runs
    ensures Next(world, step).batches == world.batches
  {
  }

  /** No cancel, retry, interruption or late outcome ever repeats or loses a completed item. */
  lemma {:induction false} CompletedItemsStay(batches: map<BatchId, Batch>, steps: seq<Step>, b: BatchId, i: nat)
    requires AllValid(batches) && b in batches && i < |batches[b].items| && batches[b].items[i].Completed?
    ensures var after := RunAll(Fresh(batches), steps).batches;
            b in after && |after[b].items| == |batches[b].items| && after[b].items[i].Completed?
  {
    if steps != [] {
      CompletedItemsStay(batches, steps[..|steps| - 1], b, i);
      FreshInv(batches);
      RunKeeps(Fresh(batches), steps[..|steps| - 1]);
      StepAdvances(RunAll(Fresh(batches), steps[..|steps| - 1]), steps[|steps| - 1]);
    }
  }
}
