/**
 * The paid calls of whole runs: every dispatch has its own attempt row, so no batch ever dispatches
 * more calls than its counters say, over every mix of workers, crashes and recoveries.
 */
module PipelineDispatch {
  import opened Prelude
  import opened AnalysisJobs
  import opened AnalysisBatches
  import opened AnalysisPipeline
  import opened PipelineRuns
  import opened PipelineSafety
  import opened PipelineTheorems
  import opened RoleCall

  /**
   * `granted` are the reservations a worker holds in memory and has not dispatched yet; `dispatched`
   * is the history of calls that left for the provider.
   */
  datatype World = World(db: Db, granted: map<AttemptId, Owner>, dispatched: seq<AttemptId>)

  datatype Turn =
    | StoreTurn(step: Step)
    | DispatchTurn(id: AttemptId)
    | ForgetTurn(id: AttemptId)
    | CrashTurn(owner: Owner)

  predicate Grants(db: Db, step: Step) {
    step.ReserveStep? && step.id !in db.attempts
      && Reserve(db, step.w, step.b, step.k, step.role, step.id, step.at).1.Granted?
  }

  /** A granted reservation may be dispatched once, given up, or lost with its process. */
  function Take(world: World, turn: Turn): World {
    match turn
    case StoreTurn(step) =>
      var granted := if Grants(world.db, step) then world.granted[step.id := step.w.owner] else world.granted;
      world.(db := Next(world.db, step), granted := granted)
    case DispatchTurn(id) =>
      if id in world.granted then world.(granted := world.granted - {id}, dispatched := world.dispatched + [id])
        else world
    case ForgetTurn(id) => world.(granted := world.granted - {id})
    case CrashTurn(owner) =>
      world.(granted := map id | id in world.granted && world.granted[id] != owner :: world.granted[id])
  }

  function After(turns: seq<Turn>): World {
    if turns == [] then World(EMPTY, map[], []) else Take(After(turns[..|turns| - 1]), turns[|turns| - 1])
  }

  // ---- Invariant -----------------------------------------------------------------------------

  /** Dispatched calls are distinct and recorded. */
  ghost predicate Recorded(db: Db, dispatched: seq<AttemptId>) {
    NoDuplicates(dispatched) && forall id | id in dispatched :: id in db.attempts
  }

  ghost predicate DispatchInv(world: World) {
    && Inv(world.db) && Recorded(world.db, world.dispatched)
    && forall id | id in world.granted :: id in world.db.attempts && id !in world.dispatched
  }

  lemma AttemptsStay(before: Db, after: Db)
    requires Extends(before, after)
    ensures before.attempts.Keys <= after.attempts.Keys
    ensures forall id | id in before.attempts ::
      after.attempts[id].batch == before.attempts[id].batch && after.attempts[id].role == before.attempts[id].role
  {
  }

  lemma GrantIsFresh(db: Db, step: Step)
    requires Grants(db, step)
    ensures step.ReserveStep? && step.id !in db.attempts && step.id in Next(db, step).attempts
  {
  }

  lemma TakeKeeps(world: World, turn: Turn)
    requires DispatchInv(world)
    ensures DispatchInv(Take(world, turn))
  {
    hide Inv, Next, Grants, Extends;
    if turn.StoreTurn? {
      StepKeeps(world.db, turn.step);
      AttemptsStay(world.db, Next(world.db, turn.step));
      if Grants(world.db, turn.step) { GrantIsFresh(world.db, turn.step); }
    }
  }

  lemma {:induction false} AfterKeeps(turns: seq<Turn>)
    ensures DispatchInv(After(turns))
  {
    if turns == [] {
      ReachedInv([]);
    } else {
      AfterKeeps(turns[..|turns| - 1]);
      hide DispatchInv, Take;
      TakeKeeps(After(turns[..|turns| - 1]), turns[|turns| - 1]);
    }
  }

  // ---- Main results --------------------------------------------------------------------------

  /** The dispatches of one batch and one budget, in order. */
  function DispatchesOf(db: Db, dispatched: seq<AttemptId>, b: BatchId, kind: CallKind): (calls: seq<AttemptId>)
    ensures forall id :: id in calls <==>
      id in dispatched && id in db.attempts && db.attempts[id].batch == b && db.attempts[id].role.Kind() == kind
    ensures NoDuplicates(dispatched) ==> NoDuplicates(calls)
  {
    if dispatched == [] then []
    else
      var rest, last := DispatchesOf(db, dispatched[..|dispatched| - 1], b, kind), dispatched[|dispatched| - 1];
      assert forall id :: id in dispatched <==> id in dispatched[..|dispatched| - 1] || id == last;
      if last in db.attempts && db.attempts[last].batch == b && db.attempts[last].role.Kind() == kind
        then rest + [last] else rest
  }

  lemma {:induction false} DistinctFit(calls: seq<AttemptId>, all: set<AttemptId>)
    requires NoDuplicates(calls) && forall id | id in calls :: id in all
    ensures |calls| <= |all|
  {
    if calls != [] {
      var front, last := calls[..|calls| - 1], calls[|calls| - 1];
      DistinctFit(front, all - {last});
    }
  }

  /** In every reachable state each dispatched call has its own attempt row, and none was dispatched twice. */
  lemma EveryDispatchIsReserved(turns: seq<Turn>)
    ensures NoDuplicates(After(turns).dispatched)
    ensures forall id | id in After(turns).dispatched :: id in After(turns).db.attempts
  {
    AfterKeeps(turns);
  }

  /**
   * In every reachable state a batch has dispatched at most as many analysis and verification calls as
   * its analysis counter says and at most as many reasoning calls as its reasoning counter says.
   */
  lemma DispatchesWithinCounters(turns: seq<Turn>, b: BatchId)
    requires b in After(turns).db.batches
    ensures var world := After(turns);
            && |DispatchesOf(world.db, world.dispatched, b, AnalysisCall)| <= world.db.batches[b].counters.analysisCalls
            && |DispatchesOf(world.db, world.dispatched, b,
                             ReasoningCall)| <= world.db.batches[b].counters.reasoningCalls
  {
    AfterKeeps(turns);
    var world := After(turns);
    BatchDispatches(world, b, AnalysisCall);
    BatchDispatches(world, b, ReasoningCall);
  }

  lemma BatchDispatches(world: World, b: BatchId, kind: CallKind)
    requires DispatchInv(world) && b in world.db.batches
    ensures |DispatchesOf(world.db, world.dispatched, b, kind)| <= world.db.batches[b].Calls(kind)
  {
    assert world.db.batches[b].Calls(kind) == |BatchCalls(world.db.attempts, b, kind)|;
    DistinctFit(DispatchesOf(world.db, world.dispatched, b, kind), BatchCalls(world.db.attempts, b, kind));
  }

  /**
   * Invocations of `callRole` add up: whatever a worker's store looked like when the invocation began,
   * appending the calls it made to an honest log gives an honest log of the store it leaves.
   */
  lemma InvocationsAddUp(start: Db, after: Db, dispatched: seq<AttemptId>, calls: seq<AttemptId>, replies: seq<Reply>,
                         b: BatchId, j: JobId, role: Role, floor: nat)
    requires Recorded(start, dispatched)
    requires Reported(start, after, calls, replies, b, j, role, floor) && Unseen(start, calls)
    ensures Recorded(after, dispatched + calls)
  {
    hide Inv;
    AttemptsStay(start, after);
    assert Calls(after, calls, replies, b, j, role, Repeated(calls));
    forall id | id in calls ensures id in after.attempts {
      var i :| 0 <= i < |calls| && calls[i] == id;
      assert Dispatched(after, calls[i], b, j, role);
    }
    hide Extends, Calls;
  }
}
