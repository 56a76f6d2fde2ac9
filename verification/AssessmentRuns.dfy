/** Runs of any number of assessment services over one table, with crashes and changing settings. */
module AssessmentRuns {
  import opened Prelude
  import opened RollingQuota
  import opened Assessment

  datatype JobState = Waiting | InFlight

  datatype Job = Job(instance: Instance, state: JobState)

  type DraftId = nat

  /** A preparation between its reads and its transaction: settings first, then the captured evidence. */
  datatype Draft = Draft(id: RequestId, account: AccountId, settings: Settings, source: Option<Hash>)

  /**
   * `drafts` are the preparations under way in any process, `grants` the reservations in the order they
   * were inserted, `dispatched` every model call made.
   */
  datatype World = World(db: Db, drafts: map<DraftId, Draft>, jobs: map<RequestId, Job>, grants: seq<Grant>,
                         dispatched: seq<RequestId>)

  datatype Step =
    | DraftStep(draft: DraftId, id: RequestId, account: AccountId)
    | CaptureStep(draft: DraftId)
    | PrepareStep(draft: DraftId, at: Instant)
    | ReserveStep(instance: Instance, id: RequestId, at: Instant, joined: bool)
    | RecoverStep(at: Instant)
    | DispatchStep(id: RequestId, cancelled: bool, now: Instant)
    | SettleStep(id: RequestId, outcome: Outcome, now: Instant)
    | SettlementFailedStep(id: RequestId)
    | CancelStep(id: RequestId, now: Instant)
    | CrashStep(instance: Instance)
    | SettingsStep(settings: Option<Settings>)
    | SourceStep(account: AccountId, hash: Hash)

  function Next(world: World, step: Step): World {
    match step
    case DraftStep(draft, id, account) =>
      if draft in world.drafts || id in world.db.rows || world.db.settings.None? then world
      else world.(drafts := world.drafts[draft := Draft(id, account, world.db.settings.value, None)])
    case CaptureStep(draft) =>
      if draft !in world.drafts || world.drafts[draft].source.Some? then world
      else
        var read := world.drafts[draft].(source := Some(SourceOf(world.db, world.drafts[draft].account)));
        world.(drafts := world.drafts[draft := read])
    case PrepareStep(draft, at) =>
      if draft !in world.drafts || world.drafts[draft].source.None? then world
      else
        var read := world.drafts[draft];
        world.(db := Prepare(world.db, read.id, read.account, read.settings, read.source.value, at),
               drafts := world.drafts - {draft})
    case ReserveStep(instance, id, at, joined) =>
      var (db, reservation) := Reserve(world.db, id, at, joined);
      if reservation.Granted?
      then world.(db := db, grants := world.grants + [Grant(id, at)], jobs := world.jobs[id := Job(instance, Waiting)])
      else world.(db := db)
    case RecoverStep(at) => world.(db := world.db.(rows := Recover(world.db.rows, at)))
    case DispatchStep(id, cancelled, now) =>
      if id !in world.jobs || !world.jobs[id].state.Waiting? then world
      else if cancelled then world.(db := Settle(world.db, id, NotDispatched, now), jobs := world.jobs - {id})
      else world.(jobs := world.jobs[id := world.jobs[id].(state := InFlight)], dispatched := world.dispatched + [id])
    case SettleStep(id, outcome, now) =>
      if id !in world.jobs || !world.jobs[id].state.InFlight? || outcome.NotDispatched? then world
      else world.(db := Settle(world.db, id, outcome, now), jobs := world.jobs - {id})
    case SettlementFailedStep(id) => world.(jobs := world.jobs - {id})
    case CancelStep(id, now) => world.(db := Cancel(world.db, id, now))
    case CrashStep(instance) =>
      world.(jobs := map id | id in world.jobs && world.jobs[id].instance != instance :: world.jobs[id])
    case SettingsStep(settings) => world.(db := world.db.(settings := settings))
    case SourceStep(account, hash) => world.(db := world.db.(sources := world.db.sources[account := hash]))
  }

  const EMPTY: World := World(Db(map[], None, map[]), map[], map[], [], [])

  function Run(steps: seq<Step>): World {
    if steps == [] then EMPTY else Next(Run(steps[..|steps| - 1]), steps[|steps| - 1])
  }

  // ---- Invariants ----------------------------------------------------------------------------

  ghost predicate RowsValid(rows: map<RequestId, Attempt>) {
    forall id | id in rows :: RowInv(rows[id])
  }

  ghost predicate OneReserved(rows: map<RequestId, Attempt>) {
    forall id, other | id in rows && other in rows && rows[id].status.Reserved? && rows[other].status.Reserved? ::
      id == other
  }

  ghost function ChargedIds(rows: map<RequestId, Attempt>): set<RequestId> {
    set id | id in rows && rows[id].status.Charged()
  }

  /** The charged rows are exactly the reservations granted so far, at the instants they recorded. */
  ghost predicate GrantsAreCharged(grants: seq<Grant>, rows: map<RequestId, Attempt>) {
    && (forall i | 0 <= i < |grants| ::
          grants[i].id in ChargedIds(rows) && rows[grants[i].id].requestedAt == grants[i].at)
    && (forall id | id in ChargedIds(rows) :: exists i :: 0 <= i < |grants| && grants[i].id == id)
  }

  /** A job, and every call ever made, belongs to a row that left `Prepared`; a waiting job made no call yet. */
  ghost predicate DispatchInv(world: World) {
    && NoDuplicates(world.dispatched)
    && (forall id | id in world.dispatched || id in world.jobs :: id in ChargedIds(world.db.rows))
    && (forall id | id in world.jobs && world.jobs[id].state.Waiting? :: id !in world.dispatched)
  }

  ghost predicate Inv(world: World) {
    && RowsValid(world.db.rows) && OneReserved(world.db.rows)
    && GrantsAreCharged(world.grants, world.db.rows) && DispatchInv(world)
  }

  /** Every row moved only along legal changes. */
  ghost predicate RowsAdvance(before: map<RequestId, Attempt>, after: map<RequestId, Attempt>) {
    forall id | id in before ::
      && id in after
      && (after[id] == before[id] || LegalChange(before[id], after[id]))
  }

  /** Rows moved legally and no row became charged. */
  ghost predicate Quiet(before: map<RequestId, Attempt>, after: map<RequestId, Attempt>) {
    && RowsValid(after) && OneReserved(after) && RowsAdvance(before, after)
    && ChargedIds(after) == ChargedIds(before)
  }

  lemma SameQuiet(rows: map<RequestId, Attempt>)
    requires RowsValid(rows) && OneReserved(rows)
    ensures Quiet(rows, rows)
  {
  }

  lemma OneRowQuiet(rows: map<RequestId, Attempt>, id: RequestId, next: Attempt)
    requires RowsValid(rows) && OneReserved(rows) && RowInv(next) && !next.status.Reserved?
    requires if id in rows then LegalChange(rows[id], next) && next.status.Charged() == rows[id].status.Charged()
             else next.status.Prepared?
    ensures Quiet(rows, rows[id := next])
  {
  }

  lemma RecoverQuiet(rows: map<RequestId, Attempt>, at: Instant)
    requires RowsValid(rows) && OneReserved(rows)
    ensures Quiet(rows, Recover(rows, at))
    ensures forall id | id in rows && !rows[id].status.Reserved? :: Recover(rows, at)[id] == rows[id]
    ensures forall id | id in rows :: Recover(rows, at)[id].requestedAt == rows[id].requestedAt
    ensures Recover(rows, at).Keys == rows.Keys
  {
    forall id | id in rows && ExpiredReservation(rows[id], at)
      ensures RowInv(RecoveredRow(rows[id], at)) && LegalChange(rows[id], RecoveredRow(rows[id], at))
    {
      RecoveryIsLegal(rows[id], at);
    }
  }

  lemma SettleQuiet(db: Db, id: RequestId, outcome: Outcome, now: Instant)
    requires RowsValid(db.rows) && OneReserved(db.rows)
    ensures Quiet(db.rows, Settle(db, id, outcome, now).rows)
  {
    SameQuiet(db.rows);
    if id in db.rows && db.rows[id].status.Reserved? {
      SettlementIsLegal(db, id, outcome, now);
      OneRowQuiet(db.rows, id, SettledRow(db, db.rows[id], outcome, now));
    }
  }

  lemma CancelQuiet(db: Db, id: RequestId, now: Instant)
    requires RowsValid(db.rows) && OneReserved(db.rows)
    ensures Quiet(db.rows, Cancel(db, id, now).rows)
  {
    SameQuiet(db.rows);
    if id in db.rows && db.rows[id].status.Prepared? && now >= db.rows[id].requestedAt {
      OneRowQuiet(db.rows, id, CancelledRow(db.rows[id], now));
    }
  }

  lemma PrepareQuiet(db: Db, id: RequestId, account: AccountId, settings: Settings, source: Hash, at: Instant)
    requires RowsValid(db.rows) && OneReserved(db.rows)
    ensures Quiet(db.rows, Prepare(db, id, account, settings, source, at).rows)
  {
    SameQuiet(db.rows);
    if id !in db.rows { OneRowQuiet(db.rows, id, PreparedRow(settings, account, source, at)); }
  }

  lemma RefusedQuiet(db: Db, id: RequestId, at: Instant, joined: bool)
    requires RowsValid(db.rows) && OneReserved(db.rows) && !Reserve(db, id, at, joined).1.Granted?
    ensures Quiet(db.rows, Reserve(db, id, at, joined).0.rows)
  {
    SameQuiet(db.rows);
    RecoverQuiet(db.rows, at);
  }

  /** A granted reservation charges exactly its own row. */
  lemma GrantedRows(db: Db, id: RequestId, at: Instant, joined: bool)
    requires RowsValid(db.rows) && OneReserved(db.rows) && Reserve(db, id, at, joined).1.Granted?
    ensures var rows := Reserve(db, id, at, joined).0.rows;
            && RowsValid(rows) && OneReserved(rows) && RowsAdvance(db.rows, rows)
            && ChargedIds(rows) == ChargedIds(db.rows) + {id} && id !in ChargedIds(db.rows)
            && id in rows && rows[id].requestedAt == at
  {
    RecoverQuiet(db.rows, at);
    ReservationIsLegal(db.rows[id], db.settings.value.timeoutMs, at);
    var recovered := Recover(db.rows, at);
    assert forall other | other in recovered && recovered[other].status.Reserved? :: recovered[other].expiresAt > at;
  }

  lemma GrantsStand(grants: seq<Grant>, before: map<RequestId, Attempt>, after: map<RequestId, Attempt>)
    requires GrantsAreCharged(grants, before) && RowsAdvance(before, after) && ChargedIds(after) == ChargedIds(before)
    ensures GrantsAreCharged(grants, after)
  {
  }

  lemma GrantJoins(grants: seq<Grant>, before: map<RequestId, Attempt>, after: map<RequestId, Attempt>, grant: Grant)
    requires GrantsAreCharged(grants, before) && RowsAdvance(before, after)
    requires ChargedIds(after) == ChargedIds(before) + {grant.id} && grant.id !in ChargedIds(before)
    requires grant.id in after && after[grant.id].requestedAt == grant.at
    ensures GrantsAreCharged(grants + [grant], after)
  {
    var all := grants + [grant];
    forall id | id in ChargedIds(after) ensures exists i :: 0 <= i < |all| && all[i].id == id {
      if id == grant.id {
        assert all[|grants|].id == id;
      } else {
        var i :| 0 <= i < |grants| && grants[i].id == id;
        assert all[i].id == id;
      }
    }
  }

  lemma QuietKeeps(world: World, after: World)
    requires Inv(world) && Quiet(world.db.rows, after.db.rows) && after.grants == world.grants && DispatchInv(after)
    ensures Inv(after) && RowsAdvance(world.db.rows, after.db.rows)
  {
    GrantsStand(world.grants, world.db.rows, after.db.rows);
    hide RowsValid, OneReserved, DispatchInv, ChargedIds;
  }

  lemma StepKeeps(world: World, step: Step)
    requires Inv(world)
    ensures Inv(Next(world, step)) && RowsAdvance(world.db.rows, Next(world, step).db.rows)
  {
    if step.ReserveStep? && Reserve(world.db, step.id, step.at, step.joined).1.Granted? {
      GrantedKeeps(world, step);
    } else {
      StepQuiet(world, step);
      QuietKeeps(world, Next(world, step));
    }
  }

  lemma StepQuiet(world: World, step: Step)
    requires Inv(world)
    requires step.ReserveStep? ==> !Reserve(world.db, step.id, step.at, step.joined).1.Granted?
    ensures Quiet(world.db.rows, Next(world, step).db.rows) && Next(world, step).grants == world.grants
    ensures DispatchInv(Next(world, step))
  {
    hide Quiet, RowsValid, OneReserved, GrantsAreCharged;
    SameQuiet(world.db.rows);
    match step
    case PrepareStep(draft, at) =>
      if draft in world.drafts && world.drafts[draft].source.Some? {
        var read := world.drafts[draft];
        PrepareQuiet(world.db, read.id, read.account, read.settings, read.source.value, at);
      }
    case ReserveStep(instance, id, at, joined) => RefusedQuiet(world.db, id, at, joined);
    case RecoverStep(at) => RecoverQuiet(world.db.rows, at);
    case DispatchStep(id, cancelled, now) => SettleQuiet(world.db, id, NotDispatched, now);
    case SettleStep(id, outcome, now) => SettleQuiet(world.db, id, outcome, now);
    case CancelStep(id, now) => CancelQuiet(world.db, id, now);
    case _ =>
  }

  lemma GrantedKeeps(world: World, step: Step)
    requires Inv(world) && step.ReserveStep? && Reserve(world.db, step.id, step.at, step.joined).1.Granted?
    ensures Inv(Next(world, step)) && RowsAdvance(world.db.rows, Next(world, step).db.rows)
    ensures Next(world, step).grants == world.grants + [Grant(step.id, step.at)]
  {
    GrantedRows(world.db, step.id, step.at, step.joined);
    hide RowsValid, OneReserved, RowsAdvance, Reserve, ChargedIds;
    var after := Next(world, step);
    GrantJoins(world.grants, world.db.rows, after.db.rows, Grant(step.id, step.at));
    assert DispatchInv(after);
  }

  lemma {:induction false} RunInv(steps: seq<Step>)
    ensures Inv(Run(steps))
  {
    if steps != [] {
      hide Inv, Next;
      RunInv(steps[..|steps| - 1]);
      StepKeeps(Run(steps[..|steps| - 1]), steps[|steps| - 1]);
    }
  }

  // ---- Single flight and single dispatch -----------------------------------------------------

  /** At most one row of the whole table is reserved, so a recovery page is never truncated. */
  lemma SingleFlight(steps: seq<Step>)
    ensures |set id | id in Run(steps).db.rows && Run(steps).db.rows[id].status.Reserved?| <= 1 < STORE_PAGE_SIZE
  {
    RunInv(steps);
    var reserved := set id | id in Run(steps).db.rows && Run(steps).db.rows[id].status.Reserved?;
    if reserved != {} {
      var id :| id in reserved;
      assert reserved == {id};
    }
  }

  /** Over all instances, restarts, cancellations and recoveries, a request id is dispatched at most once. */
  lemma OnePaidCallPerRequest(steps: seq<Step>)
    ensures NoDuplicates(Run(steps).dispatched)
    ensures forall id | id in Run(steps).dispatched ::
      id in Run(steps).db.rows && Run(steps).db.rows[id].status.Charged()
  {
    RunInv(steps);
  }

  /** The stored revision is a function of the status. */
  lemma RevisionFollowsStatus(steps: seq<Step>, id: RequestId)
    requires id in Run(steps).db.rows
    ensures var row := Run(steps).db.rows[id];
            row.revision == match row.status
                            case Prepared => 1
                            case Reserved => 2
                            case Cancelled => 2
                            case Settled => 3
                            case Uncertain => 3
  {
    RunInv(steps);
  }

  /** A settled, uncertain or cancelled row never changes again. */
  lemma {:induction false} TerminalRowsAreFrozen(steps: seq<Step>, i: nat, id: RequestId)
    requires i <= |steps| && id in Run(steps[..i]).db.rows && Run(steps[..i]).db.rows[id].status.Terminal()
    ensures id in Run(steps).db.rows && Run(steps).db.rows[id] == Run(steps[..i]).db.rows[id]
    decreases |steps| - i
  {
    if i == |steps| {
      assert steps[..i] == steps;
    } else {
      assert steps[..i + 1][..i] == steps[..i];
      RunInv(steps[..i]);
      StepKeeps(Run(steps[..i]), steps[i]);
      TerminalRowsAreFrozen(steps, i + 1, id);
    }
  }

  // ---- Quota ---------------------------------------------------------------------------------

  /** Stored settings never allow more than `most` calls a day. */
  ghost predicate SettingsBelow(steps: seq<Step>, most: int) {
    forall i | 0 <= i < |steps| && steps[i].SettingsStep? && steps[i].settings.Some? ::
      steps[i].settings.value.maxCalls <= most
  }

  lemma {:induction false} SettingsStayBelow(steps: seq<Step>, most: int)
    requires SettingsBelow(steps, most)
    ensures Run(steps).db.settings.Some? ==> Run(steps).db.settings.value.maxCalls <= most
  {
    if steps != [] {
      assert SettingsBelow(steps[..|steps| - 1], most);
      SettingsStayBelow(steps[..|steps| - 1], most);
    }
  }

  lemma GrantIsBelowQuota(db: Db, id: RequestId, at: Instant, joined: bool)
    requires Reserve(db, id, at, joined).1.Granted?
    ensures |ChargedSince(Recover(db.rows, at), at - WINDOW_MS)| < db.settings.value.maxCalls
    ensures Agrees(db, db.rows[id]) && db.rows[id].status.Prepared?
    ensures SameRequest(db.rows[id], Reserve(db, id, at, joined).0.rows[id])
  {
  }

  /** The count of the reservation transaction is the count of earlier grants. */
  lemma CountedAreGrants(grants: seq<Grant>, rows: map<RequestId, Attempt>, since: Instant)
    requires GrantsAreCharged(grants, rows)
    ensures ChargedSince(rows, since) == Since(grants, since)
  {
    forall id | id in ChargedSince(rows, since) ensures id in Since(grants, since) {
      assert id in ChargedIds(rows);
      var i :| 0 <= i < |grants| && grants[i].id == id;
    }
  }

  lemma RecoveryKeepsGrants(grants: seq<Grant>, rows: map<RequestId, Attempt>, at: Instant)
    requires RowsValid(rows) && OneReserved(rows) && GrantsAreCharged(grants, rows)
    ensures GrantsAreCharged(grants, Recover(rows, at))
  {
    RecoverQuiet(rows, at);
    hide Recover, GrantsAreCharged, RowsValid, OneReserved;
    GrantsStand(grants, rows, Recover(rows, at));
  }

  lemma GrantRationed(grants: seq<Grant>, db: Db, id: RequestId, at: Instant, joined: bool, most: int)
    requires RowsValid(db.rows) && OneReserved(db.rows) && GrantsAreCharged(grants, db.rows)
    requires Rationed(grants, most) && Reserve(db, id, at, joined).1.Granted? && db.settings.value.maxCalls <= most
    ensures Rationed(grants + [Grant(id, at)], most)
  {
    GrantIsBelowQuota(db, id, at, joined);
    RecoveryKeepsGrants(grants, db.rows, at);
    hide Reserve, Rationed, RowsValid, OneReserved, Recover, GrantsAreCharged;
    CountedAreGrants(grants, Recover(db.rows, at), at - WINDOW_MS);
    GrantKeepsRation(grants, Grant(id, at), most);
  }

  lemma StepRationed(world: World, step: Step, most: int)
    requires Inv(world) && Rationed(world.grants, most)
    requires world.db.settings.Some? ==> world.db.settings.value.maxCalls <= most
    ensures Rationed(Next(world, step).grants, most)
  {
    hide Rationed;
    if step.ReserveStep? && Reserve(world.db, step.id, step.at, step.joined).1.Granted? {
      GrantRationed(world.grants, world.db, step.id, step.at, step.joined, most);
    } else {
      StepQuiet(world, step);
    }
  }

  lemma {:induction false} GrantsAreRationed(steps: seq<Step>, most: int)
    requires SettingsBelow(steps, most)
    ensures Rationed(Run(steps).grants, most)
  {
    if steps != [] {
      var front := steps[..|steps| - 1];
      assert SettingsBelow(front, most);
      GrantsAreRationed(front, most);
      SettingsStayBelow(front, most);
      RunInv(front);
      hide Inv;
      StepRationed(Run(front), steps[|steps| - 1], most);
    }
  }

  /** The charged rows whose reservation falls into a closed window of 24 hours. */
  ghost function ChargedInWindow(rows: map<RequestId, Attempt>, from: Instant): set<RequestId> {
    set id | id in rows && rows[id].status.Charged() && from <= rows[id].requestedAt <= from + WINDOW_MS
  }

  /**
   * However settings change below `most` and however clocks run, even backwards, every closed 24-hour
   * window holds at most `most` charged rows.
   */
  lemma QuotaOverEveryWindow(steps: seq<Step>, most: nat, from: Instant)
    requires SettingsBelow(steps, most)
    ensures |ChargedInWindow(Run(steps).db.rows, from)| <= most
  {
    var world := Run(steps);
    RunInv(steps);
    GrantsAreRationed(steps, most);
    EveryWindowIsWithinQuota(world.grants, most, from);
    forall id | id in ChargedInWindow(world.db.rows, from) ensures id in InWindow(world.grants, from) {
      assert id in ChargedIds(world.db.rows);
      var i :| 0 <= i < |world.grants| && world.grants[i].id == id;
    }
    SubsetIsSmaller(ChargedInWindow(world.db.rows, from), InWindow(world.grants, from));
  }

  // ---- Where a report comes from -------------------------------------------------------------

  /** The step `i` of the run opened the draft with the stored settings that the row records, approved or not. */
  ghost predicate SettingsReadAt(steps: seq<Step>, i: nat, draft: DraftId, id: RequestId, row: Attempt) {
    && i < |steps| && steps[i] == DraftStep(draft, id, row.account) && Run(steps[..i]).db.settings.Some?
    && Run(steps[..i]).db.settings.value.revision == row.settingsRevision
    && Run(steps[..i]).db.settings.value.model == row.model
  }

  /** The step `i` of the run captured for the draft the evidence whose hash the row records. */
  ghost predicate CapturedAt(steps: seq<Step>, i: nat, draft: DraftId, row: Attempt) {
    i < |steps| && steps[i] == CaptureStep(draft) && SourceOf(Run(steps[..i]).db, row.account) == row.sourceHash
  }

  /** The step `i` of the run inserted the row from the draft. */
  ghost predicate InsertedAt(steps: seq<Step>, i: nat, draft: DraftId, id: RequestId) {
    && i < |steps| && steps[i].PrepareStep? && steps[i].draft == draft && id !in Run(steps[..i]).db.rows
    && draft in Run(steps[..i]).drafts && Run(steps[..i]).drafts[draft].id == id
  }

  ghost predicate ReservedAt(steps: seq<Step>, i: nat, id: RequestId, row: Attempt) {
    i < |steps| && steps[i].ReserveStep? && steps[i].id == id && Agrees(Run(steps[..i]).db, row)
  }

  ghost predicate SettledAt(steps: seq<Step>, i: nat, id: RequestId, row: Attempt) {
    i < |steps| && steps[i].SettleStep? && steps[i].id == id && Agrees(Run(steps[..i]).db, row)
  }

  /** The step that opened a draft read its settings. */
  lemma {:induction false} WasDrafted(steps: seq<Step>, draft: DraftId) returns (read: nat)
    requires draft in Run(steps).drafts
    ensures var found := Run(steps).drafts[draft];
            && read < |steps| && steps[read] == DraftStep(draft, found.id, found.account)
            && Run(steps[..read]).db.settings == Some(found.settings)
  {
    var front, n := steps[..|steps| - 1], |steps| - 1;
    assert Run(steps) == Next(Run(front), steps[n]);
    hide Run;
    OneDraftStep(Run(front), steps[n], draft);
    if draft in Run(front).drafts {
      read := WasDrafted(front, draft);
      assert front[..read] == steps[..read];
    } else {
      read := n;
    }
  }

  /** One step of a draft: it is opened, or it stays and may get its evidence. */
  lemma OneDraftStep(world: World, step: Step, draft: DraftId)
    requires draft in Next(world, step).drafts
    ensures var found := Next(world, step).drafts[draft];
            if draft in world.drafts then
              var before := world.drafts[draft];
              && found.id == before.id && found.account == before.account && found.settings == before.settings
              && (found.source == before.source
                  || (step == CaptureStep(draft) && found.source == Some(SourceOf(world.db, found.account))))
            else
              step == DraftStep(draft, found.id, found.account) && world.db.settings == Some(found.settings)
                && found.source.None?
  {
  }

  /** The step that completed a draft captured its evidence, after its settings were read. */
  lemma {:induction false} WasCaptured(steps: seq<Step>, draft: DraftId) returns (read: nat, captured: nat)
    requires draft in Run(steps).drafts && Run(steps).drafts[draft].source.Some?
    ensures var found := Run(steps).drafts[draft];
            && read < captured < |steps| && steps[captured] == CaptureStep(draft)
            && steps[read] == DraftStep(draft, found.id, found.account)
            && Run(steps[..read]).db.settings == Some(found.settings)
            && SourceOf(Run(steps[..captured]).db, found.account) == found.source.value
  {
    var front, n := steps[..|steps| - 1], |steps| - 1;
    assert Run(steps) == Next(Run(front), steps[n]);
    hide Run;
    OneDraftStep(Run(front), steps[n], draft);
    if Run(front).drafts[draft].source.Some? && Run(front).drafts[draft].source == Run(steps).drafts[draft].source {
      read, captured := WasCaptured(front, draft);
      assert front[..read] == steps[..read] && front[..captured] == steps[..captured];
    } else {
      read := WasDrafted(front, draft);
      captured := n;
      assert front[..read] == steps[..read];
    }
  }

  lemma {:induction false} WasInserted(steps: seq<Step>, id: RequestId) returns (i: nat, draft: DraftId)
    requires id in Run(steps).db.rows
    ensures InsertedAt(steps, i, draft, id)
    ensures var read, row := Run(steps[..i]).drafts[draft], Run(steps).db.rows[id];
            && read.source == Some(row.sourceHash) && read.account == row.account
            && read.settings.revision == row.settingsRevision && read.settings.model == row.model
  {
    var front, n := steps[..|steps| - 1], |steps| - 1;
    assert Run(steps) == Next(Run(front), steps[n]);
    hide Inv, Next, Run;
    RunInv(front);
    StepKeeps(Run(front), steps[n]);
    if id in Run(front).db.rows {
      i, draft := WasInserted(front, id);
      assert front[..i] == steps[..i];
      assert SameRequest(Run(front).db.rows[id], Run(steps).db.rows[id]);
    } else {
      NewRowIsPrepared(Run(front), steps[n], id);
      i, draft := n, steps[n].draft;
    }
  }

  /** A row was inserted by a preparation that had read the settings and then the evidence it records. */
  lemma WasPrepared(steps: seq<Step>, id: RequestId)
    returns (draft: DraftId, read: nat, captured: nat, inserted: nat)
    requires id in Run(steps).db.rows
    ensures read < captured < inserted < |steps|
    ensures var row := Run(steps).db.rows[id];
            && SettingsReadAt(steps, read, draft, id, row) && CapturedAt(steps, captured, draft, row)
            && InsertedAt(steps, inserted, draft, id)
  {
    hide Run;
    inserted, draft := WasInserted(steps, id);
    read, captured := WasCaptured(steps[..inserted], draft);
    assert steps[..inserted][..read] == steps[..read] && steps[..inserted][..captured] == steps[..captured];
  }

  lemma NewRowIsPrepared(world: World, step: Step, id: RequestId)
    requires Inv(world) && id !in world.db.rows && id in Next(world, step).db.rows
    ensures step.PrepareStep? && step.draft in world.drafts && world.drafts[step.draft].id == id
    ensures var read, row := world.drafts[step.draft], Next(world, step).db.rows[id];
            && row.status.Prepared? && read.source == Some(row.sourceHash) && read.account == row.account
            && read.settings.revision == row.settingsRevision && read.settings.model == row.model
  {
    hide Quiet, RowsAdvance, DispatchInv, GrantsAreCharged;
    RecoverQuiet(world.db.rows, if step.ReserveStep? then step.at else 0);
  }

  lemma {:induction false} WasReserved(steps: seq<Step>, id: RequestId) returns (i: nat)
    requires id in Run(steps).db.rows && Run(steps).db.rows[id].status.Charged()
    ensures ReservedAt(steps, i, id, Run(steps).db.rows[id])
    ensures id in Run(steps[..i]).db.rows && Run(steps[..i]).db.rows[id].status.Prepared?
  {
    var front, n := steps[..|steps| - 1], |steps| - 1;
    assert Run(steps) == Next(Run(front), steps[n]);
    hide Inv, Next, Run;
    RunInv(front);
    StepKeeps(Run(front), steps[n]);
    if id in Run(front).db.rows && Run(front).db.rows[id].status.Charged() {
      i := WasReserved(front, id);
      assert front[..i] == steps[..i];
      assert SameRequest(Run(front).db.rows[id], Run(steps).db.rows[id]);
    } else {
      assert id in ChargedIds(Run(steps).db.rows) && id !in ChargedIds(Run(front).db.rows);
      ChargeIsReservation(Run(front), steps[n], id);
      i := n;
    }
  }

  lemma ChargeIsReservation(world: World, step: Step, id: RequestId)
    requires Inv(world) && id in ChargedIds(Next(world, step).db.rows) && id !in ChargedIds(world.db.rows)
    ensures step.ReserveStep? && step.id == id && id in world.db.rows && world.db.rows[id].status.Prepared?
    ensures Agrees(world.db, Next(world, step).db.rows[id])
  {
    if step.ReserveStep? && Reserve(world.db, step.id, step.at, step.joined).1.Granted? {
      GrantedRows(world.db, step.id, step.at, step.joined);
      GrantIsBelowQuota(world.db, step.id, step.at, step.joined);
    } else {
      StepQuiet(world, step);
    }
  }

  lemma {:induction false} WasSettled(steps: seq<Step>, id: RequestId) returns (i: nat)
    requires id in Run(steps).db.rows && Run(steps).db.rows[id].report.Some?
    ensures SettledAt(steps, i, id, Run(steps).db.rows[id])
    ensures id in Run(steps[..i]).db.rows && Run(steps[..i]).db.rows[id].status.Reserved?
  {
    var front, n := steps[..|steps| - 1], |steps| - 1;
    assert Run(steps) == Next(Run(front), steps[n]);
    hide Inv, Next, Run;
    RunInv(front);
    StepKeeps(Run(front), steps[n]);
    if id in Run(front).db.rows && Run(front).db.rows[id].report.Some? {
      i := WasSettled(front, id);
      assert front[..i] == steps[..i];
      assert SameRequest(Run(front).db.rows[id], Run(steps).db.rows[id]);
    } else {
      ReportIsSettlement(Run(front), steps[n], id);
      i := n;
    }
  }

  lemma ReportIsSettlement(world: World, step: Step, id: RequestId)
    requires Inv(world) && id in Next(world, step).db.rows && Next(world, step).db.rows[id].report.Some?
    requires id in world.db.rows ==> world.db.rows[id].report.None?
    ensures step.SettleStep? && step.id == id && id in world.db.rows && world.db.rows[id].status.Reserved?
    ensures Agrees(world.db, Next(world, step).db.rows[id])
  {
    if id !in world.db.rows { NewRowIsPrepared(world, step, id); }
    hide Inv;
    if !step.SettleStep? {
      OnlySettlementsReport(world, step, id);
      hide Next;
    }
  }

  lemma OnlySettlementsReport(world: World, step: Step, id: RequestId)
    requires !step.SettleStep? && id in world.db.rows && world.db.rows[id].report.None?
    ensures id in Next(world, step).db.rows ==> Next(world, step).db.rows[id].report.None?
  {
  }

  lemma {:induction false} RequestIsFixed(steps: seq<Step>, i: nat, id: RequestId)
    requires i <= |steps| && id in Run(steps[..i]).db.rows
    ensures id in Run(steps).db.rows && SameRequest(Run(steps[..i]).db.rows[id], Run(steps).db.rows[id])
    decreases |steps| - i
  {
    if i == |steps| {
      assert steps[..i] == steps;
    } else {
      assert steps[..i + 1][..i] == steps[..i];
      RunInv(steps[..i]);
      StepKeeps(Run(steps[..i]), steps[i]);
      RequestIsFixed(steps, i + 1, id);
    }
  }

  /**
   * A stored report means that the settings revision, the model and the evidence hash were the same
   * when the preparation read them, when the call was reserved and when its answer was settled.
   */
  lemma ReportsRestOnAnUnchangedBasis(steps: seq<Step>, id: RequestId)
    returns (draft: DraftId, read: nat, captured: nat, inserted: nat, reserved: nat, settled: nat)
    requires id in Run(steps).db.rows && Run(steps).db.rows[id].report.Some?
    ensures read < captured < inserted < reserved < settled < |steps|
    ensures var row := Run(steps).db.rows[id];
            && SettingsReadAt(steps, read, draft, id, row) && CapturedAt(steps, captured, draft, row)
            && InsertedAt(steps, inserted, draft, id)
            && ReservedAt(steps, reserved, id, row) && SettledAt(steps, settled, id, row)
  {
    hide Run;
    settled := WasSettled(steps, id);
    var second := steps[..settled];
    reserved := WasReserved(second, id);
    assert second[..reserved] == steps[..reserved];
    var first := steps[..reserved];
    draft, read, captured, inserted := WasPrepared(first, id);
    assert first[..read] == steps[..read] && first[..captured] == steps[..captured]
      && first[..inserted] == steps[..inserted];
    RequestIsFixed(steps, settled, id);
    RequestIsFixed(steps, reserved, id);
  }
}
