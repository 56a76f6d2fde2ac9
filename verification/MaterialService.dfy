/**
 * The bulk material refresh service (src/application/material-refresh-batch-service.ts): one queue of
 * critical sections over the store, one queue of runs, and a close barrier.
 *
 * Every step is one uninterrupted stretch of the process: a public call up to its first wait, the
 * entry or the exit of a critical section, one turn of a run, or one part of `close`. Store writes
 * are taken to succeed, and a run that finished is released in the step that finishes it.
 */
module MaterialService {
  import opened Prelude
  import opened MaterialBatches

  type BatchId = nat
  type RunId = nat

  datatype Api = StartApi(b: BatchId) | CancelApi(b: BatchId) | RetryApi(b: BatchId)
    | PrepareApi(b: BatchId, size: nat) | RecoverApi

  datatype Outcome = ItemDone | ItemFailed | ItemStopped

  /** A queued critical section; `fromLoop` marks the interruption a run asks for itself. */
  datatype Section =
    | ApiSection(api: Api)
    | StepSection(run: RunId)
    | FinishSection(run: RunId, index: nat, outcome: Outcome)
    | InterruptSection(run: RunId, fromLoop: bool)
    | DrainSection
    | CloseInterrupt(run: RunId)

  datatype Stage = Queued | Ready | InSection | Working(index: nat) | Ended

  datatype Run = Run(batch: BatchId, cancelled: bool, detached: bool, stage: Stage)

  datatype Closing = Open | Draining | Drained | Waiting(left: seq<RunId>) | Detaching(left: seq<RunId>)
    | Interrupting(left: seq<RunId>) | Closed

  /** `current` is the section being executed, `line` the runs in turn. */
  datatype World = World(
    closing: Closing,
    current: Option<Section>,
    mutations: seq<Section>,
    line: seq<RunId>,
    owned: map<BatchId, RunId>,
    runs: map<RunId, Run>,
    batches: map<BatchId, Batch>)
  {
    predicate Refuses() { !closing.Open? }
  }

  datatype Step =
    | CallStep(api: Api)
    | StartCancelledStep(b: BatchId)
    | EnterStep
    | LeaveStep(newRun: RunId, rechecked: bool)
    | TurnStep
    | ItemReturnsStep(outcome: Outcome)
    | CloseStep
    | SnapshotStep(order: seq<RunId>)
    | ExpireStep
    | DetachStep

  // ---- Effects -------------------------------------------------------------------------------

  function Enqueue(world: World, section: Section): World {
    world.(mutations := world.mutations + [section])
  }

  function SetRun(world: World, r: RunId, run: Run): World {
    world.(runs := world.runs[r := run])
  }

  function CancelToken(world: World, b: BatchId): World {
    if b in world.owned && world.owned[b] in world.runs
    then SetRun(world, world.owned[b], world.runs[world.owned[b]].(cancelled := true))
    else world
  }

  /** The run of the head of the line is over: it leaves the line and the ownership map. */
  function End(world: World, r: RunId): World
    requires r in world.runs
  {
    var run := world.runs[r];
    world.(runs := world.runs[r := run.(stage := Ended)],
           line := if world.line != [] && world.line[0] == r then world.line[1..] else world.line,
           owned := if run.batch in world.owned && world.owned[run.batch] == r then world.owned - {run.batch}
             else world.owned)
  }

  function Write(world: World, b: BatchId, next: Option<Batch>): World {
    if next.Some? then world.(batches := world.batches[b := next.value]) else world
  }

  /** `ensureRun`: a batch this process still runs keeps its run. */
  function EnsureRun(world: World, b: BatchId, newRun: RunId): World {
    if b in world.owned then world
    else world.(runs := world.runs[newRun := Run(b, false, false, Queued)], owned := world.owned[b := newRun],
                line := world.line + [newRun])
  }

  function StartEffect(world: World, b: BatchId, newRun: RunId, rechecked: bool): World {
    if b !in world.batches then world
    else
      var batch := world.batches[b];
      if batch.status.Completed? || batch.status.Cancelled? then world
      else if batch.status.Running? then
        if b in world.owned then world else Write(world, b, Interrupt(batch))
      else if (world.Refuses() && !rechecked) || StartBatch(batch).None? then world
      else EnsureRun(Write(world, b, StartBatch(batch)), b, newRun)
  }

  function RecoverAll(world: World): map<BatchId, Batch> {
    map b | b in world.batches ::
      if world.batches[b].status.Running? && b !in world.owned && Interrupt(world.batches[b]).Some?
      then Interrupt(world.batches[b]).value else world.batches[b]
  }

  function ApiEffect(world: World, api: Api, newRun: RunId, rechecked: bool): World {
    match api
    case StartApi(b) => StartEffect(world, b, newRun, rechecked)
    case CancelApi(b) => if b in world.batches then Write(world, b, CancelBatch(world.batches[b])) else world
    case RetryApi(b) => if b in world.batches then Write(world, b, RetryFailed(world.batches[b])) else world
    case PrepareApi(b, size) =>
      if b in world.batches || size == 0 then world
      else world.(batches := world.batches[b := Batch(Prepared, seq(size, _ => ItemStatus.Pending), false)])
    case RecoverApi => world.(batches := RecoverAll(world))
  }

  function FirstPending(items: seq<ItemStatus>): (i: nat)
    ensures i <= |items| && (i < |items| ==> items[i].Pending?)
    ensures forall n | 0 <= n < i :: !items[n].Pending?
  {
    if items == [] || items[0].Pending? then 0 else 1 + FirstPending(items[1..])
  }

  /** A run resolves its next pending item, or settles and ends. */
  function StepEffect(world: World, r: RunId): World
    requires r in world.runs
  {
    var b := world.runs[r].batch;
    if b !in world.batches || !world.batches[b].status.Running? then End(world, r)
    else
      var i := FirstPending(world.batches[b].items);
      if i == |world.batches[b].items| then End(Write(world, b, SettleRun(world.batches[b])), r)
      else if BeginItem(world.batches[b], i).None? then Enqueue(world, InterruptSection(r, true))
      else SetRun(Write(world, b, BeginItem(world.batches[b], i)), r, world.runs[r].(stage := Working(i)))
  }

  /** After an outcome the run takes its next turn, unless the attempt was stopped. */
  function Continue(world: World, r: RunId, outcome: Outcome): World
    requires r in world.runs
  {
    if outcome.ItemStopped? then End(world, r) else SetRun(world, r, world.runs[r].(stage := Ready))
  }

  function FinishEffect(world: World, r: RunId, i: nat, outcome: Outcome): World
    requires r in world.runs
  {
    var b := world.runs[r].batch;
    if b !in world.batches then Continue(world, r, outcome)
    else
      var batch := world.batches[b];
      if batch.status.Cancelled? then
        Continue(if outcome.ItemDone? then Write(world, b, RestoreItem(batch, i)) else world, r, outcome)
      else if !batch.status.Running? then Continue(world, r, outcome)
      else
        var next := match outcome
                    case ItemDone => CompleteItem(batch, i)
                    case ItemFailed => FailItem(batch, i)
                    case ItemStopped => Interrupt(batch);
        if next.None? then Enqueue(world, InterruptSection(r, true))
        else Continue(Write(world, b, next), r, outcome)
  }

  function InterruptEffect(world: World, b: BatchId): World {
    if b in world.batches && world.batches[b].status.Running? then Write(world, b, Interrupt(world.batches[b]))
      else world
  }

  function SectionRun(section: Section): Option<RunId> {
    match section
    case StepSection(r) => Some(r)
    case FinishSection(r, _, _) => Some(r)
    case InterruptSection(r, fromLoop) => if fromLoop then Some(r) else None
    case _ => None
  }

  predicate Skipped(world: World, section: Section) {
    match section
    case ApiSection(_) => world.Refuses()
    case StepSection(r) => r !in world.runs || world.runs[r].detached
    case FinishSection(r, _, _) => r !in world.runs || world.runs[r].detached
    case InterruptSection(r, _) => r !in world.runs || world.runs[r].detached
    case _ => false
  }

  /** A section of a detached run, or a call queued behind the close, does nothing when its turn comes. */
  function EnterSection(world: World): World
    requires world.mutations != []
  {
    var section, rest := world.mutations[0], world.(mutations := world.mutations[1..]);
    if !Skipped(world, section) then rest.(current := Some(section))
    else if SectionRun(section).Some? && SectionRun(section).value in world.runs
      then End(rest, SectionRun(section).value)
    else rest
  }

  function LeaveSection(world: World, newRun: RunId, rechecked: bool): World
    requires world.current.Some?
  {
    var section, done := world.current.value, world.(current := None);
    match section
    case ApiSection(api) => ApiEffect(done, api, newRun, rechecked)
    case StepSection(r) => if r in world.runs then StepEffect(done, r) else done
    case FinishSection(r, i, outcome) => if r in world.runs then FinishEffect(done, r, i, outcome) else done
    case InterruptSection(r, fromLoop) =>
      if r !in world.runs then done
      else
        var after := InterruptEffect(done, world.runs[r].batch);
        if fromLoop then End(after, r) else after
    case DrainSection => if world.closing.Draining? then done.(closing := Drained) else done
    case CloseInterrupt(r) =>
      var after := if r in world.runs then InterruptEffect(done, world.runs[r].batch) else done;
      if world.closing.Interrupting? then after.(closing := Detaching(world.closing.left)) else after
  }

  function TakeTurn(world: World): World {
    if world.line == [] || world.line[0] !in world.runs then world
    else
      var r := world.line[0];
      var run := world.runs[r];
      if !run.stage.Queued? && !run.stage.Ready? then world
      else if run.detached then End(world, r)
      else SetRun(Enqueue(world, if run.cancelled then InterruptSection(r, true) else StepSection(r)), r,
                  run.(stage := InSection))
  }

  function ItemReturns(world: World, outcome: Outcome): World {
    if world.line == [] || world.line[0] !in world.runs || !world.runs[world.line[0]].stage.Working? then world
    else
      var r := world.line[0];
      var run := world.runs[r];
      if run.detached then End(world, r)
      else SetRun(Enqueue(world, FinishSection(r, run.stage.index, outcome)), r, run.(stage := InSection))
  }

  predicate Live(world: World, r: RunId) {
    r in world.runs && !world.runs[r].stage.Ended?
  }

  function Detach(world: World): World {
    match world.closing
    case Detaching(left) =>
      if left == [] then world.(closing := Closed)
      else if !Live(world, left[0]) then world.(closing := Detaching(left[1..]))
      else SetRun(Enqueue(world.(closing := Interrupting(left[1..])), CloseInterrupt(left[0])), left[0],
                  world.runs[left[0]].(detached := true))
    case _ => world
  }

  function Next(world: World, step: Step): World {
    match step
    case CallStep(api) =>
      if world.Refuses() || (api.RetryApi? && api.b in world.owned) then world
      else Enqueue(if api.CancelApi? then CancelToken(world, api.b) else world, ApiSection(api))
    case StartCancelledStep(b) =>
      if b !in world.owned || !Live(world, world.owned[b]) || world.runs[world.owned[b]].detached then world
      else Enqueue(CancelToken(world, b), InterruptSection(world.owned[b], false))
    case EnterStep => if world.current.Some? || world.mutations == [] then world else EnterSection(world)
    case LeaveStep(newRun, rechecked) =>
      if world.current.None? || newRun in world.runs then world else LeaveSection(world, newRun, rechecked)
    case TurnStep => TakeTurn(world)
    case ItemReturnsStep(outcome) => ItemReturns(world, outcome)
    case CloseStep => if world.Refuses() then world else Enqueue(world.(closing := Draining), DrainSection)
    case SnapshotStep(order) =>
      if !world.closing.Drained? || (set r | r in order) != world.owned.Values then world
      else world.(closing := Waiting(order),
                  runs := map r | r in world.runs ::
                    if r in order then world.runs[r].(cancelled := true) else world.runs[r])
    case ExpireStep => if world.closing.Waiting? then world.(closing := Detaching(world.closing.left)) else world
    case DetachStep => Detach(world)
  }

  /** A new process over the stored batches. */
  function Fresh(batches: map<BatchId, Batch>): World {
    World(Open, None, [], [], map[], map[], batches)
  }

  function RunAll(world: World, steps: seq<Step>): World {
    if steps == [] then world else Next(RunAll(world, steps[..|steps| - 1]), steps[|steps| - 1])
  }
}
