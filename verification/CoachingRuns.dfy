/** Runs of any number of coaching services over one table. */
module CoachingRuns {
  import opened Prelude
  import opened RollingQuota
  import opened Coaching

  /** `grants` lists the rows in insertion order. */
  datatype World = World(db: Db, grants: seq<Grant>)

  datatype Step =
    | ReserveStep(id: RequestId, ask: Ask, snapshot: SnapshotId, listing: seq<RequestId>, scanBound: nat, at: Instant)
    | SettleStep(id: RequestId, outcome: Outcome, now: Instant)
    | SettingsStep(settings: Option<Settings>)
    | HeadStep(problem: ProblemKey, snapshot: SnapshotId)

  function Next(world: World, step: Step): World {
    match step
    case ReserveStep(id, ask, snapshot, listing, scanBound, at) =>
      var (db, reservation) := Reserve(world.db, id, ask, snapshot, listing, scanBound, at);
      World(db, if reservation.Granted? then world.grants + [Grant(id, at)] else world.grants)
    case SettleStep(id, outcome, now) => world.(db := Settle(world.db, id, outcome, now))
    case SettingsStep(settings) => world.(db := world.db.(settings := settings))
    case HeadStep(problem, snapshot) => world.(db := world.db.(heads := world.db.heads[problem := snapshot]))
  }

  const EMPTY: World := World(Db(map[], map[], None), [])

  function Run(steps: seq<Step>): World {
    if steps == [] then EMPTY else Next(Run(steps[..|steps| - 1]), steps[|steps| - 1])
  }

  // ---- Invariants ----------------------------------------------------------------------------

  ghost predicate RowsValid(rows: map<RequestId, Attempt>) {
    forall id | id in rows :: ValidShape(rows[id])
  }

  ghost predicate RowsAdvance(before: map<RequestId, Attempt>, after: map<RequestId, Attempt>) {
    forall id | id in before :: id in after && (after[id] == before[id] || LegalChange(before[id], after[id]))
  }

  /** The rows are exactly the grants, inserted in that order, each id once. */
  ghost predicate GrantsAreRows(grants: seq<Grant>, rows: map<RequestId, Attempt>) {
    && (forall i | 0 <= i < |grants| :: grants[i].id in rows && rows[grants[i].id].requestedAt == grants[i].at)
    && (forall i, j | 0 <= i < j < |grants| :: grants[i].id != grants[j].id)
    && (forall id | id in rows :: exists i :: 0 <= i < |grants| && grants[i].id == id)
  }

  /** A settled answer of hint `n` on the basis of `row`. */
  ghost predicate EarnedFor(other: Attempt, row: Attempt, n: HintNumber) {
    && other.account == row.account && other.problem == row.problem && other.snapshot == row.snapshot
    && other.level == Hint(n) && other.status.Settled? && other.text.Some?
  }

  /** Grant `i` had every hint below its own earned by a grant before it; the full solution needs none. */
  ghost predicate Progressed(grants: seq<Grant>, rows: map<RequestId, Attempt>, i: nat)
    requires i < |grants|
  {
    grants[i].id in rows &&
    var row := rows[grants[i].id];
    row.level.Hint? ==> forall n: HintNumber | n < row.level.number :: EarnedBefore(grants, rows, i, n)
  }

  ghost predicate EarnedBefore(grants: seq<Grant>, rows: map<RequestId, Attempt>, i: nat, n: HintNumber)
    requires i < |grants| && grants[i].id in rows
  {
    exists j :: 0 <= j < i && grants[j].id in rows && EarnedFor(rows[grants[j].id], rows[grants[i].id], n)
  }

  ghost predicate AllProgressed(grants: seq<Grant>, rows: map<RequestId, Attempt>) {
    forall i | 0 <= i < |grants| :: Progressed(grants, rows, i)
  }

  ghost predicate Inv(world: World) {
    && RowsValid(world.db.rows)
    && GrantsAreRows(world.grants, world.db.rows)
    && AllProgressed(world.grants, world.db.rows)
  }

  // ---- Steps ---------------------------------------------------------------------------------

  lemma GrantsStand(grants: seq<Grant>, before: map<RequestId, Attempt>, after: map<RequestId, Attempt>)
    requires GrantsAreRows(grants, before) && RowsAdvance(before, after) && after.Keys == before.Keys
    ensures GrantsAreRows(grants, after)
  {
  }

  /** Settled answers never change, so what was earned stays earned. */
  lemma ProgressStands(grants: seq<Grant>, before: map<RequestId, Attempt>, after: map<RequestId, Attempt>, i: nat)
    requires i < |grants| && Progressed(grants, before, i) && RowsAdvance(before, after)
    ensures Progressed(grants, after, i)
  {
    var row, next := before[grants[i].id], after[grants[i].id];
    if next.level.Hint? {
      forall n: HintNumber | n < next.level.number ensures EarnedBefore(grants, after, i, n) {
        assert EarnedBefore(grants, before, i, n);
        var j :| 0 <= j < i && grants[j].id in before && EarnedFor(before[grants[j].id], row, n);
        assert EarnedFor(after[grants[j].id], next, n);
      }
    }
  }

  lemma AllStand(grants: seq<Grant>, before: map<RequestId, Attempt>, after: map<RequestId, Attempt>)
    requires AllProgressed(grants, before) && RowsAdvance(before, after)
    ensures AllProgressed(grants, after)
  {
    forall i | 0 <= i < |grants| ensures Progressed(grants, after, i) {
      ProgressStands(grants, before, after, i);
    }
  }

  lemma RecoverAdvances(rows: map<RequestId, Attempt>, at: Instant)
    requires RowsValid(rows)
    ensures RowsValid(Recover(rows, at)) && RowsAdvance(rows, Recover(rows, at)) && Recover(rows, at).Keys == rows.Keys
    ensures ReservedIds(Recover(rows, at)) <= ReservedIds(rows)
  {
  }

  lemma SettleAdvances(db: Db, id: RequestId, outcome: Outcome, now: Instant)
    requires RowsValid(db.rows)
    ensures var rows := Settle(db, id, outcome, now).rows;
            && RowsValid(rows) && RowsAdvance(db.rows, rows) && rows.Keys == db.rows.Keys
            && ReservedIds(rows) <= ReservedIds(db.rows)
  {
  }

  lemma QuietKeeps(world: World, after: World)
    requires Inv(world) && RowsValid(after.db.rows) && RowsAdvance(world.db.rows, after.db.rows)
    requires after.db.rows.Keys == world.db.rows.Keys && after.grants == world.grants
    ensures Inv(after)
  {
    GrantsStand(world.grants, world.db.rows, after.db.rows);
    AllStand(world.grants, world.db.rows, after.db.rows);
  }

  ghost predicate SomeEarned(rows: map<RequestId, Attempt>, row: Attempt, n: HintNumber) {
    exists other :: other in rows && EarnedFor(rows[other], row, n)
  }

  /** The row of a granted reservation joins the history as its last grant. */
  lemma GrantJoins(grants: seq<Grant>, rows: map<RequestId, Attempt>, id: RequestId, row: Attempt)
    requires GrantsAreRows(grants, rows) && AllProgressed(grants, rows) && id !in rows
    requires row.level.Hint? ==> forall n: HintNumber | n < row.level.number :: SomeEarned(rows, row, n)
    ensures GrantsAreRows(grants + [Grant(id, row.requestedAt)], rows[id := row])
    ensures AllProgressed(grants + [Grant(id, row.requestedAt)], rows[id := row])
  {
    var all, after := grants + [Grant(id, row.requestedAt)], rows[id := row];
    GrantListed(grants, rows, id, row);
    forall i | 0 <= i < |all| ensures Progressed(all, after, i) {
      if i < |grants| {
        ProgressStands(grants, rows, after, i);
        SamePast(grants, all, after, i);
      } else if row.level.Hint? {
        forall n: HintNumber | n < row.level.number ensures EarnedBefore(all, after, i, n) {
          assert SomeEarned(rows, row, n);
          var other :| other in rows && EarnedFor(rows[other], row, n);
          var j :| 0 <= j < |grants| && grants[j].id == other;
          assert all[j].id == other && EarnedFor(after[all[j].id], after[all[i].id], n);
        }
      }
    }
  }

  lemma GrantListed(grants: seq<Grant>, rows: map<RequestId, Attempt>, id: RequestId, row: Attempt)
    requires GrantsAreRows(grants, rows) && id !in rows
    ensures GrantsAreRows(grants + [Grant(id, row.requestedAt)], rows[id := row])
  {
    var all, after := grants + [Grant(id, row.requestedAt)], rows[id := row];
    forall other | other in after ensures exists i :: 0 <= i < |all| && all[i].id == other {
      if other == id {
        assert all[|grants|].id == other;
      } else {
        var i :| 0 <= i < |grants| && grants[i].id == other;
        assert all[i].id == other;
      }
    }
  }

  lemma SamePast(grants: seq<Grant>, all: seq<Grant>, rows: map<RequestId, Attempt>, i: nat)
    requires i < |grants| && grants <= all && Progressed(grants, rows, i)
    ensures Progressed(all, rows, i)
  {
    var row := rows[grants[i].id];
    if row.level.Hint? {
      forall n: HintNumber | n < row.level.number ensures EarnedBefore(all, rows, i, n) {
        assert EarnedBefore(grants, rows, i, n);
        var j :| 0 <= j < i && grants[j].id in rows && EarnedFor(rows[grants[j].id], row, n);
        assert all[j] == grants[j];
      }
    }
  }

  lemma ReserveKeeps(world: World, step: Step)
    requires Inv(world) && step.ReserveStep?
    ensures Inv(Next(world, step)) && RowsAdvance(world.db.rows, Next(world, step).db.rows)
  {
    RecoverAdvances(world.db.rows, step.at);
    var rows := Recover(world.db.rows, step.at);
    var middle := World(world.db.(rows := rows), world.grants);
    QuietKeeps(world, middle);
    if Reserve(world.db, step.id, step.ask, step.snapshot, step.listing, step.scanBound, step.at).1.Granted? {
      GrantedKeeps(world, step, rows);
    }
  }

  /** What a granted reservation found and wrote. */
  lemma GrantedRow(db: Db, id: RequestId, ask: Ask, snapshot: SnapshotId, listing: seq<RequestId>, scanBound: nat,
                   at: Instant)
    requires Reserve(db, id, ask, snapshot, listing, scanBound, at).1.Granted?
    ensures var rows, after := Recover(db.rows, at), Reserve(db, id, ask, snapshot, listing, scanBound, at).0.rows;
            var settings := if db.settings.Some? then db.settings.value else DEFAULTS;
            && id !in db.rows && id in after && after == rows[id := after[id]]
            && ValidShape(after[id]) && after[id].status.Reserved? && after[id].requestedAt == at
            && (ReservedIds(rows) == {} || |ReservedIds(rows)| < settings.maxConcurrent)
            && |CountedSince(rows, at - WINDOW_MS)| < settings.maxCalls
            && (after[id].level.Hint? ==> forall n: HintNumber | n < after[id].level.number ::
                SomeEarned(rows, after[id], n))
  {
    var rows, row := Recover(db.rows, at),
      NewRow(ask, snapshot, if db.settings.Some? then db.settings.value.timeoutMs else DEFAULTS.timeoutMs, at);
    if ask.level.Hint? {
      forall n: HintNumber | n < ask.level.number ensures SomeEarned(rows, row, n) {
        assert n in RequiredLevels(ask.level);
        var found := LatestSuccess(rows, listing, ask, snapshot, n);
        assert EarnedFor(rows[found.value], row, n);
      }
    }
  }

  lemma RowJoins(before: map<RequestId, Attempt>, rows: map<RequestId, Attempt>, id: RequestId, row: Attempt)
    requires RowsValid(rows) && RowsAdvance(before, rows) && id !in before && ValidShape(row)
    ensures RowsValid(rows[id := row]) && RowsAdvance(before, rows[id := row])
  {
  }

  lemma GrantedKeeps(world: World, step: Step, rows: map<RequestId, Attempt>)
    requires step.ReserveStep? && rows == Recover(world.db.rows, step.at) && RowsAdvance(world.db.rows, rows)
    requires rows.Keys == world.db.rows.Keys
    requires RowsValid(rows) && GrantsAreRows(world.grants, rows) && AllProgressed(world.grants, rows)
    requires Reserve(world.db, step.id, step.ask, step.snapshot, step.listing, step.scanBound, step.at).1.Granted?
    ensures Inv(Next(world, step)) && RowsAdvance(world.db.rows, Next(world, step).db.rows)
  {
    GrantedRow(world.db, step.id, step.ask, step.snapshot, step.listing, step.scanBound, step.at);
    RowJoins(world.db.rows, rows, step.id, Next(world, step).db.rows[step.id]);
    hide Reserve, GrantsAreRows, AllProgressed, SomeEarned, Recover, RowsValid, RowsAdvance, ValidShape;
    GrantJoins(world.grants, rows, step.id, Next(world, step).db.rows[step.id]);
  }

  lemma StepKeeps(world: World, step: Step)
    requires Inv(world)
    ensures Inv(Next(world, step)) && RowsAdvance(world.db.rows, Next(world, step).db.rows)
  {
    match step
    case ReserveStep(id, ask, snapshot, listing, scanBound, at) => ReserveKeeps(world, step);
    case SettleStep(id, outcome, now) =>
      SettleAdvances(world.db, id, outcome, now);
      QuietKeeps(world, Next(world, step));
    case _ => QuietKeeps(world, Next(world, step));
  }

  lemma {:induction false} RunInv(steps: seq<Step>)
    ensures Inv(Run(steps))
  {
    if steps != [] {
      hide Inv, Next;
      RunInv(steps[..|steps| - 1]);
      StepKeeps(Run(steps[..|steps| - 1]), steps[|steps| - 1]);
    }
  }

  // ---- Hint progression ----------------------------------------------------------------------

  /**
   * Every hint ever reserved was preceded by settled answers of all lower hints for the same account,
   * problem and snapshot; only the full solution may be asked outright.
   */
  lemma HintsAreEarnedInOrder(steps: seq<Step>, i: nat, n: HintNumber)
    requires i < |Run(steps).grants|
    ensures var world := Run(steps);
            && world.grants[i].id in world.db.rows
            && var row := world.db.rows[world.grants[i].id];
               row.level.Hint? && n < row.level.number ==>
                 exists j :: 0 <= j < i && world.grants[j].id in world.db.rows
                   && EarnedFor(world.db.rows[world.grants[j].id], row, n)
  {
    RunInv(steps);
    var world := Run(steps);
    assert Progressed(world.grants, world.db.rows, i);
    var row := world.db.rows[world.grants[i].id];
    if row.level.Hint? && n < row.level.number {
      assert EarnedBefore(world.grants, world.db.rows, i, n);
    }
  }

  /** A settled answer is never rewritten, and every row keeps its request. */
  lemma {:induction false} SettledAnswersAreFrozen(steps: seq<Step>, i: nat, id: RequestId)
    requires i <= |steps| && id in Run(steps[..i]).db.rows && Run(steps[..i]).db.rows[id].status.Settled?
    ensures id in Run(steps).db.rows && Run(steps).db.rows[id] == Run(steps[..i]).db.rows[id]
    decreases |steps| - i
  {
    if i == |steps| {
      assert steps[..i] == steps;
    } else {
      assert steps[..i + 1][..i] == steps[..i];
      RunInv(steps[..i]);
      StepKeeps(Run(steps[..i]), steps[i]);
      SettledAnswersAreFrozen(steps, i + 1, id);
    }
  }

  // ---- Concurrency and quota -----------------------------------------------------------------

  ghost predicate SettingsBelow(steps: seq<Step>, calls: int, concurrent: int) {
    && DEFAULTS.maxCalls <= calls && DEFAULTS.maxConcurrent <= concurrent
    && forall i | 0 <= i < |steps| && steps[i].SettingsStep? && steps[i].settings.Some? ::
         steps[i].settings.value.maxCalls <= calls && steps[i].settings.value.maxConcurrent <= concurrent
  }

  ghost predicate SettingsWithin(settings: Option<Settings>, calls: int, concurrent: int) {
    settings.Some? ==> settings.value.maxCalls <= calls && settings.value.maxConcurrent <= concurrent
  }

  lemma {:induction false} SettingsStayBelow(steps: seq<Step>, calls: int, concurrent: int)
    requires SettingsBelow(steps, calls, concurrent)
    ensures SettingsWithin(Run(steps).db.settings, calls, concurrent)
  {
    if steps != [] {
      assert SettingsBelow(steps[..|steps| - 1], calls, concurrent);
      SettingsStayBelow(steps[..|steps| - 1], calls, concurrent);
    }
  }

  lemma BoundsAfterGrant(grants: seq<Grant>, rows: map<RequestId, Attempt>, id: RequestId, row: Attempt,
                         settings: Settings, calls: int, concurrent: int)
    requires GrantsAreRows(grants, rows) && Rationed(grants, calls)
    requires ReservedIds(rows) == {} || |ReservedIds(rows)| < settings.maxConcurrent
    requires |CountedSince(rows, row.requestedAt - WINDOW_MS)| < settings.maxCalls
    requires settings.maxCalls <= calls && settings.maxConcurrent <= concurrent
    ensures Rationed(grants + [Grant(id, row.requestedAt)], calls)
    ensures |ReservedIds(rows[id := row])| <= Max(1, concurrent)
  {
    hide Rationed, Since, GrantsAreRows, ReservedIds, CountedSince;
    CountedAreGrants(grants, rows, row.requestedAt - WINDOW_MS);
    GrantKeepsRation(grants, Grant(id, row.requestedAt), calls);
    OneMoreReserved(rows, id, row);
    NoneReserved(rows);
  }

  lemma NoneReserved(rows: map<RequestId, Attempt>)
    ensures ReservedIds(rows) == {} ==> |ReservedIds(rows)| == 0
  {
  }

  lemma ReserveBounds(world: World, step: Step, calls: int, concurrent: int)
    requires Inv(world) && step.ReserveStep? && Rationed(world.grants, calls)
    requires |ReservedIds(world.db.rows)| <= Max(1, concurrent)
    requires SettingsWithin(world.db.settings, calls, concurrent) && DEFAULTS.maxCalls <= calls
      && DEFAULTS.maxConcurrent <= concurrent
    ensures Rationed(Next(world, step).grants, calls)
    ensures |ReservedIds(Next(world, step).db.rows)| <= Max(1, concurrent)
  {
    hide Rationed, GrantsAreRows, AllProgressed, RowsAdvance, ReservedIds, CountedSince, SomeEarned;
    var rows := Recover(world.db.rows, step.at);
    RecoverAdvances(world.db.rows, step.at);
    SubsetIsSmaller(ReservedIds(rows), ReservedIds(world.db.rows));
    GrantsStand(world.grants, world.db.rows, rows);
    var (db, outcome) := Reserve(world.db, step.id, step.ask, step.snapshot, step.listing, step.scanBound, step.at);
    assert Next(world, step).db == db;
    if outcome.Granted? {
      GrantedRow(world.db, step.id, step.ask, step.snapshot, step.listing, step.scanBound, step.at);
      hide Reserve, RowsValid, Recover;
      BoundsAfterGrant(world.grants, rows, step.id, db.rows[step.id],
                       if world.db.settings.Some? then world.db.settings.value else DEFAULTS, calls, concurrent);
    }
  }

  lemma OneMoreReserved(rows: map<RequestId, Attempt>, id: RequestId, row: Attempt)
    ensures |ReservedIds(rows[id := row])| <= |ReservedIds(rows)| + 1
  {
    SubsetIsSmaller(ReservedIds(rows[id := row]), ReservedIds(rows) + {id});
  }

  lemma CountedAreGrants(grants: seq<Grant>, rows: map<RequestId, Attempt>, since: Instant)
    requires GrantsAreRows(grants, rows)
    ensures CountedSince(rows, since) == Since(grants, since)
  {
    forall id | id in CountedSince(rows, since) ensures id in Since(grants, since) {
      var i :| 0 <= i < |grants| && grants[i].id == id;
    }
  }

  lemma {:induction false} BoundsHold(steps: seq<Step>, calls: int, concurrent: int)
    requires SettingsBelow(steps, calls, concurrent)
    ensures Rationed(Run(steps).grants, calls) && |ReservedIds(Run(steps).db.rows)| <= Max(1, concurrent)
  {
    if steps != [] {
      var front, last := steps[..|steps| - 1], steps[|steps| - 1];
      assert SettingsBelow(front, calls, concurrent);
      BoundsHold(front, calls, concurrent);
      SettingsStayBelow(front, calls, concurrent);
      RunInv(front);
      hide Rationed, GrantsAreRows, AllProgressed;
      if last.ReserveStep? {
        ReserveBounds(Run(front), last, calls, concurrent);
      } else if last.SettleStep? {
        SettleAdvances(Run(front).db, last.id, last.outcome, last.now);
        SubsetIsSmaller(ReservedIds(Run(steps).db.rows), ReservedIds(Run(front).db.rows));
      }
    }
  }

  /** However settings change below the given bounds: never more calls in flight than allowed, at least one. */
  lemma ConcurrencyIsBounded(steps: seq<Step>, calls: int, concurrent: int)
    requires SettingsBelow(steps, calls, concurrent)
    ensures |set id | id in Run(steps).db.rows && Run(steps).db.rows[id].status.Reserved?| <= Max(1, concurrent)
  {
    BoundsHold(steps, calls, concurrent);
    assert ReservedIds(Run(steps).db.rows) == set id | id in Run(steps).db.rows
      && Run(steps).db.rows[id].status.Reserved?;
  }

  /** Every closed 24-hour window holds at most `calls` coaching rows, of whatever status. */
  lemma QuotaOverEveryWindow(steps: seq<Step>, calls: nat, concurrent: int, from: Instant)
    requires SettingsBelow(steps, calls, concurrent)
    ensures |set id | id in Run(steps).db.rows
      && from <= Run(steps).db.rows[id].requestedAt <= from + WINDOW_MS| <= calls
  {
    var world := Run(steps);
    BoundsHold(steps, calls, concurrent);
    RunInv(steps);
    EveryWindowIsWithinQuota(world.grants, calls, from);
    RowsInWindow(world.grants, world.db.rows, from);
    assert RequestedInWindow(world.db.rows, from)
        == set id | id in world.db.rows && from <= world.db.rows[id].requestedAt <= from + WINDOW_MS;
  }

  ghost function RequestedInWindow(rows: map<RequestId, Attempt>, from: Instant): set<RequestId> {
    set id | id in rows && from <= rows[id].requestedAt <= from + WINDOW_MS
  }

  lemma RowsInWindow(grants: seq<Grant>, rows: map<RequestId, Attempt>, from: Instant)
    requires GrantsAreRows(grants, rows)
    ensures |RequestedInWindow(rows, from)| <= |InWindow(grants, from)|
  {
    var window := RequestedInWindow(rows, from);
    forall id | id in window ensures id in InWindow(grants, from) {
      var i :| 0 <= i < |grants| && grants[i].id == id;
    }
    SubsetIsSmaller(window, InWindow(grants, from));
  }

  /** Every request `ask` builds in a reachable state passes the generator's contract. */
  lemma EveryRequestIsWellFormed(steps: seq<Step>, step: Step)
    requires step.ReserveStep?
    requires Reserve(Run(steps).db, step.id, step.ask, step.snapshot, step.listing, step.scanBound, step.at).1.Granted?
    ensures WellFormed(step.ask.level, step.ask.level.FullSolution?,
                       Reserve(Run(steps).db, step.id, step.ask, step.snapshot, step.listing, step.scanBound,
                               step.at).1.hints)
  {
    RunInv(steps);
    GrantedRequestsAreWellFormed(Run(steps).db, step.id, step.ask, step.snapshot, step.listing, step.scanBound,
                                 step.at);
  }
}
