/**
 * Paid ability assessments (src/application/assessment-service.ts and assessment-types.ts): one
 * reserved call in the whole table, a rolling quota, and one dispatch per request id.
 */
module Assessment {
  import opened Prelude
  import opened RollingQuota

  type RequestId = nat
  type AccountId = nat
  type Hash = nat
  type Instance = nat

  const LEASE_MARGIN_MS := 30000
  const STORE_PAGE_SIZE := 500

  datatype Status = Prepared | Reserved | Settled | Uncertain | Cancelled {
    predicate Charged() { Reserved? || Settled? || Uncertain? }
    predicate Terminal() { Settled? || Uncertain? || Cancelled? }
  }

  /** `model` stands for provider and model together; `usage` counts the provider's calls. */
  datatype Attempt = Attempt(
    account: AccountId,
    status: Status,
    requestedAt: Instant,
    expiresAt: Instant,
    finishedAt: Option<Instant>,
    model: nat,
    settingsRevision: nat,
    sourceHash: Hash,
    revision: nat,
    usage: Option<nat>,
    report: Option<nat>,
    failed: bool)

  /** `approved` is the Flash-only configuration check. */
  datatype Settings = Settings(revision: nat, model: nat, approved: bool, maxCalls: int, timeoutMs: nat)

  // ---- Record rules --------------------------------------------------------------------------

  predicate ValidShape(row: Attempt) {
    && row.requestedAt < row.expiresAt
    && (row.finishedAt.Some? ==> row.requestedAt <= row.finishedAt.value)
    && match row.status
       case Prepared => row.finishedAt.None? && row.usage.None? && row.report.None? && !row.failed
       case Reserved => row.finishedAt.None? && row.usage.None? && row.report.None? && !row.failed
       case Uncertain => row.finishedAt.Some? && row.usage.None? && row.report.None? && row.failed
       case Cancelled => row.finishedAt.Some? && row.usage == Some(0) && row.report.None? && row.failed
       case Settled => row.finishedAt.Some? && row.usage.Some? && row.report.Some? != row.failed
  }

  predicate SameRequest(before: Attempt, after: Attempt) {
    && after.account == before.account && after.model == before.model
    && after.settingsRevision == before.settingsRevision && after.sourceHash == before.sourceHash
  }

  predicate LegalChange(before: Attempt, after: Attempt) {
    && SameRequest(before, after)
    && after.revision == before.revision + 1
    && !before.status.Terminal()
    && (if before.status.Prepared? then after.status.Reserved? || after.status.Cancelled?
        else after.status.Settled? || after.status.Uncertain?)
    && (before.status.Reserved? ==> after.requestedAt == before.requestedAt && after.expiresAt == before.expiresAt)
  }

  /** How far along its life a row is; the stored revision counts exactly this. */
  function RevisionOf(status: Status): nat {
    match status
    case Prepared => 1
    case Reserved => 2
    case Cancelled => 2
    case Settled => 3
    case Uncertain => 3
  }

  // ---- The table -----------------------------------------------------------------------------

  /** `sources` is the hash a capture of the account would carry now. */
  datatype Db = Db(rows: map<RequestId, Attempt>, settings: Option<Settings>, sources: map<AccountId, Hash>)

  function SourceOf(db: Db, account: AccountId): Hash {
    if account in db.sources then db.sources[account] else 0
  }

  /** The stored settings and evidence still are the ones the row was prepared from. */
  predicate Agrees(db: Db, row: Attempt) {
    && db.settings.Some?
    && db.settings.value.revision == row.settingsRevision
    && db.settings.value.model == row.model
    && db.settings.value.approved
    && SourceOf(db, row.account) == row.sourceHash
  }

  function Saved(db: Db, id: RequestId, next: Attempt): Option<Db> {
    if !ValidShape(next) then None
    else if id !in db.rows then
      if next.status.Prepared? then Some(db.(rows := db.rows[id := next])) else None
    else if LegalChange(db.rows[id], next) then Some(db.(rows := db.rows[id := next]))
    else None
  }

  function PreparedRow(settings: Settings, account: AccountId, source: Hash, at: Instant): Attempt {
    Attempt(account, Prepared, at, at + settings.timeoutMs + LEASE_MARGIN_MS, None, settings.model, settings.revision,
            source, 1, None, None, false)
  }

  /** The transaction of `prepareOwned`: free, with a basis read before it; a known id changes nothing. */
  function Prepare(db: Db, id: RequestId, account: AccountId, settings: Settings, source: Hash, at: Instant): Db {
    if id in db.rows then db else db.(rows := db.rows[id := PreparedRow(settings, account, source, at)])
  }

  function RecoveredRow(row: Attempt, at: Instant): Attempt {
    row.(status := Uncertain, revision := row.revision + 1, finishedAt := Some(at), failed := true)
  }

  predicate ExpiredReservation(row: Attempt, at: Instant) {
    row.status.Reserved? && row.expiresAt <= at
  }

  function Recover(rows: map<RequestId, Attempt>, at: Instant): map<RequestId, Attempt> {
    map id | id in rows :: if ExpiredReservation(rows[id], at) then RecoveredRow(rows[id], at) else rows[id]
  }

  predicate Busy(rows: map<RequestId, Attempt>, at: Instant) {
    exists id | id in rows :: rows[id].status.Reserved? && rows[id].expiresAt > at
  }

  function ChargedSince(rows: map<RequestId, Attempt>, since: Instant): set<RequestId> {
    set id | id in rows && rows[id].status.Charged() && rows[id].requestedAt >= since
  }

  function ReservedRow(row: Attempt, timeoutMs: nat, at: Instant): Attempt {
    row.(status := Reserved, revision := row.revision + 1, requestedAt := at,
         expiresAt := at + timeoutMs + LEASE_MARGIN_MS)
  }

  datatype Reservation = Granted | Existing | SettingsRefusal | BusyRefusal | QuotaRefusal | Thrown

  /**
   * `reserve`: a refusal commits the recoveries it made, stale evidence rolls them back. `joined` says
   * that the caller's token stayed quiet and the capture could be read.
   */
  function Reserve(db: Db, id: RequestId, at: Instant, joined: bool): (Db, Reservation) {
    if id !in db.rows then (db, Thrown)
    else if !db.rows[id].status.Prepared? then (db, Existing)
    else if db.settings.None? || !Agrees(db.(sources := db.sources[db.rows[id].account := db.rows[id].sourceHash]),
                                         db.rows[id])
    then (db, SettingsRefusal)
    else
      var settings := db.settings.value;
      var recovered := Recover(db.rows, at);
      if Busy(recovered, at) then (db.(rows := recovered), BusyRefusal)
      else if |ChargedSince(recovered, at - WINDOW_MS)| >= settings.maxCalls then (db.(rows := recovered), QuotaRefusal)
      else if !joined || SourceOf(db, db.rows[id].account) != db.rows[id].sourceHash then (db, Thrown)
      else (db.(rows := recovered[id := ReservedRow(db.rows[id], settings.timeoutMs, at)]), Granted)
  }

  // ---- Settlement ----------------------------------------------------------------------------

  /** What one owned dispatch produced. */
  datatype Outcome =
    | NotDispatched
    | Threw
    | Refused(usage: Option<nat>)
    | Answered(usage: Option<nat>, report: Option<nat>, cancelled: bool)

  /** The row `commitSettlement` writes: a report only when the basis is proved again. */
  function SettledRow(db: Db, row: Attempt, outcome: Outcome, now: Instant): Attempt {
    var done := row.(revision := row.revision + 1, finishedAt := Some(Max(now, row.requestedAt)));
    match outcome
    case NotDispatched => done.(status := Settled, usage := Some(0), failed := true)
    case Threw => done.(status := Uncertain, failed := true)
    case Refused(usage) => done.(status := if usage.None? then Uncertain else Settled, usage := usage, failed := true)
    case Answered(usage, report, cancelled) =>
      if usage.None? then done.(status := Uncertain, failed := true)
      else if cancelled || !Agrees(db, row) || report.None?
        then done.(status := Settled, usage := usage, failed := true)
      else done.(status := Settled, usage := usage, report := report)
  }

  function Settle(db: Db, id: RequestId, outcome: Outcome, now: Instant): Db {
    if id !in db.rows || !db.rows[id].status.Reserved? then db
    else db.(rows := db.rows[id := SettledRow(db, db.rows[id], outcome, now)])
  }

  function CancelledRow(row: Attempt, now: Instant): Attempt {
    row.(status := Cancelled, revision := row.revision + 1, finishedAt := Some(now), usage := Some(0), failed := true)
  }

  /** `cancelOwned` on a prepared row; a write its record rules refuse changes nothing. */
  function Cancel(db: Db, id: RequestId, now: Instant): Db {
    if id !in db.rows || !db.rows[id].status.Prepared? then db
    else
      var saved := Saved(db, id, CancelledRow(db.rows[id], now));
      if saved.Some? then saved.value else db
  }

  // ---- The record rules accept exactly what the service writes --------------------------------

  ghost predicate RowInv(row: Attempt) {
    ValidShape(row) && row.revision == RevisionOf(row.status)
  }

  /** Every settlement is a legal move of a reserved row, whatever the clock and the provider say. */
  lemma SettlementIsLegal(db: Db, id: RequestId, outcome: Outcome, now: Instant)
    requires id in db.rows && db.rows[id].status.Reserved? && RowInv(db.rows[id])
    ensures Saved(db, id, SettledRow(db, db.rows[id], outcome, now)) == Some(Settle(db, id, outcome, now))
    ensures RowInv(SettledRow(db, db.rows[id], outcome, now))
  {
    assert LegalChange(db.rows[id], SettledRow(db, db.rows[id], outcome, now));
  }

  lemma RecoveryIsLegal(row: Attempt, at: Instant)
    requires RowInv(row) && ExpiredReservation(row, at)
    ensures LegalChange(row, RecoveredRow(row, at)) && RowInv(RecoveredRow(row, at))
  {
  }

  lemma ReservationIsLegal(row: Attempt, timeoutMs: nat, at: Instant)
    requires RowInv(row) && row.status.Prepared?
    ensures LegalChange(row, ReservedRow(row, timeoutMs, at)) && RowInv(ReservedRow(row, timeoutMs, at))
  {
  }

  /** Cancelling a prepared row is accepted exactly when the clock did not fall behind its preparation. */
  lemma CancellationIsLegalExactlyWhen(db: Db, id: RequestId, now: Instant)
    requires id in db.rows && db.rows[id].status.Prepared? && RowInv(db.rows[id])
    ensures Saved(db, id, CancelledRow(db.rows[id], now)).Some? <==> now >= db.rows[id].requestedAt
    ensures now >= db.rows[id].requestedAt ==> RowInv(CancelledRow(db.rows[id], now))
  {
  }
}
