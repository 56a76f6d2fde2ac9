/**
 * The transactions of the Luogu synchronization service as functions on the stored rows
 * (src/application/luogu-sync-service.ts), and the runs of any number of services.
 */
module LuoguSync {
  import opened Prelude
  import opened LuoguSyncState
  import opened SyncPages

  datatype Disposition = Skipped | Trashed
  datatype Action = Skip | Trash | Restore

  /** `problems[k]` tells whether the stored row carries a non-blank statement. */
  datatype Db = Db(
    accounts: set<AccountId>,
    rows: map<AccountId, SyncRow>,
    checkpoints: map<AccountId, Checkpoint>,
    submissions: set<Submission>,
    problems: map<Key, bool>,
    dispositions: map<Key, Disposition>)

  function RowOf(db: Db, a: AccountId): SyncRow {
    if a in db.rows then db.rows[a] else EMPTY_ROW
  }

  function CheckpointOf(db: Db, a: AccountId): Option<Checkpoint> {
    if a in db.checkpoints then Some(db.checkpoints[a]) else None
  }

  predicate Holds(db: Db, owner: Owner, a: AccountId, at: Instant) {
    a in db.rows && LeaseLive(db.rows[a], Some(owner), at)
  }

  /** The row names this service, whether or not its lease is still live. */
  predicate Owns(db: Db, owner: Owner, a: AccountId) {
    a in db.rows && db.rows[a].owner == Some(owner)
  }

  predicate Resumable(db: Db, a: AccountId) {
    CheckpointOf(db, a).Some? && CheckpointOf(db, a).value.cursor.Some?
  }

  // ---- Claims --------------------------------------------------------------------------------

  datatype Purpose = History(full: bool) | Drain | RepairOp

  datatype Plan = Plan(mode: ScanMode, since: Option<Instant>)

  /** Start of the incremental window: the last completed scan start minus the overlap. */
  function IncrementalSince(lastScanStartedAt: Option<Instant>): Option<Instant> {
    if lastScanStartedAt.None? then None else Some(lastScanStartedAt.value - OVERLAP_MS)
  }

  function HistoryClaim(db: Db, a: AccountId, full: bool, at: Instant): (SyncRow, Plan) {
    var row := RowOf(db, a);
    if full then
      (row.(phase := Reconcile, historyComplete := false, scanStartedAt := Some(at)), Plan(RestartScan, None))
    else if Resumable(db, a) then
      (row.(scanStartedAt := if row.scanStartedAt.Some? then row.scanStartedAt else Some(at)),
       Plan(ContinueScan, db.checkpoints[a].since))
    else if !row.historyComplete then
      (row.(phase := if row.phase.Reconcile? then Reconcile else Backfill, scanStartedAt := Some(at)),
       Plan(StartScan, None))
    else
      (row.(phase := Incremental, scanStartedAt := Some(at)), Plan(StartScan, IncrementalSince(row.lastScanStartedAt)))
  }

  /** A drain or a repair operation takes the slot and moves nothing else. */
  function ClaimedRow(db: Db, a: AccountId, purpose: Purpose, at: Instant): (SyncRow, Plan) {
    if purpose.History? then HistoryClaim(db, a, purpose.full, at) else (RowOf(db, a), Plan(ContinueScan, None))
  }

  predicate SourceBusy(db: Db, owner: Owner, a: AccountId, at: Instant) {
    || (exists b | b in db.rows :: b in db.accounts && b != a && LeaseLive(db.rows[b], None, at))
    || HeldByAnother(RowOf(db, a), owner, at)
  }

  function Claim(db: Db, owner: Owner, a: AccountId, purpose: Purpose, leaseMs: int, at: Instant): Option<(Db, Plan)> {
    if a !in db.accounts || SourceBusy(db, owner, a, at) then None
    else
      var (row, plan) := ClaimedRow(db, a, purpose, at);
      Some((db.(rows := db.rows[a := row.Leased(owner, at + leaseMs)]), plan))
  }

  function Renew(db: Db, owner: Owner, a: AccountId, leaseMs: int, at: Instant): Option<Db> {
    if Holds(db, owner, a, at) then Some(db.(rows := db.rows[a := db.rows[a].Leased(owner, at + leaseMs)])) else None
  }

  /** `releaseLease` and `settleState`: a row taken over by another owner is left alone. */
  function Release(db: Db, owner: Owner, a: AccountId): Db {
    if a in db.rows && db.rows[a].owner == Some(owner) then db.(rows := db.rows[a := db.rows[a].Released()]) else db
  }

  // ---- Pages ---------------------------------------------------------------------------------

  datatype Page = Page(cursor: Option<Cursor>, since: Option<Instant>, items: seq<Submission>, next: Option<Cursor>,
                       fetchedAt: Instant)

  datatype PageRefusal = NoPosition | ForeignPage | ZeroProgress | CheckpointMoved | KeysTruncated | LeaseLost
    | BacklogFull

  datatype PageOutcome = PageCommitted(db: Db) | PageRefused(reason: PageRefusal)

  /** Problems the reads of the store can see: a trashed row is hidden. */
  function Visible(db: Db): set<Key> {
    set k | k in db.problems && !(k in db.dispositions && db.dispositions[k].Trashed?)
  }

  function PagedRow(row: SyncRow, backlog: seq<Key>, complete: bool, owner: Owner, until: Instant,
                    at: Instant): SyncRow {
    var scannedFrom := if row.scanStartedAt.Some? then row.scanStartedAt.value else at;
    SyncRow(if complete then Incremental else row.phase,
            complete || row.historyComplete,
            if complete then None else Some(scannedFrom),
            if complete then Some(scannedFrom) else row.lastScanStartedAt,
            backlog, row.issues, Some(owner), Some(until))
  }

  /** Why `syncPage` refuses a page of this account before its hook is asked. */
  function StreamRefusal(db: Db, a: AccountId, mode: ScanMode, requested: Requested, limit: nat,
                         before: Option<Checkpoint>, page: Page): Option<PageRefusal>
  {
    var position := ScanPosition(mode, requested, before);
    if position.None? then Some(NoPosition)
    else if Position(page.cursor, page.since) != position.value || |page.items| > limit
         || (exists s | s in page.items :: s.account != a) then Some(ForeignPage)
    else if page.next.Some? && page.next == page.cursor then Some(ZeroProgress)
    else if CheckpointOf(db, a) != before then Some(CheckpointMoved)
    else None
  }

  /** What every committed page writes, with or without a hook. */
  function WithPage(db: Db, a: AccountId, page: Page, at: Instant): Db {
    db.(checkpoints := db.checkpoints[a := Checkpoint(page.next, page.since, at)],
        submissions := db.submissions + set s | s in page.items)
  }

  /** `syncPage` without a hook or a lease, as the page route calls it for any stored account. */
  function CommitOtherPage(db: Db, a: AccountId, mode: ScanMode, requested: Requested, limit: nat,
                           before: Option<Checkpoint>, page: Page, at: Instant): Option<Db>
  {
    if a !in db.accounts || StreamRefusal(db, a, mode, requested, limit, before, page).Some? then None
    else Some(WithPage(db, a, page, at))
  }

  /** `syncPage` of this account with the service's commit hook, in one transaction. */
  function CommitPage(db: Db, owner: Owner, a: AccountId, plan: Plan, before: Option<Checkpoint>, page: Page,
                      leaseMs: int, at: Instant): PageOutcome
  {
    var refusal := StreamRefusal(db, a, plan.mode, Bound(plan.since), PAGE_SIZE, before, page);
    if refusal.Some? then PageRefused(refusal.value)
    else
      var missing := Missing(page.items, Visible(db));
      var named := missing[..Min(|missing|, MISSING_KEY_LIMIT)];
      if |missing| > |named| then PageRefused(KeysTruncated)
      else if !Holds(db, owner, a, at) then PageRefused(LeaseLost)
      else
        var backlog := Enqueued(db.rows[a].backlog, named, db.dispositions.Keys);
        if backlog.None? then PageRefused(BacklogFull)
        else
          PageCommitted(WithPage(db, a, page, at).(
            rows := db.rows[a := PagedRow(db.rows[a], backlog.value, page.next.None?, owner, at + leaseMs, at)]))
  }

  // ---- Repairs -------------------------------------------------------------------------------

  predicate Queued(db: Db, owner: Owner, a: AccountId, key: Key, at: Instant) {
    key !in db.dispositions && Holds(db, owner, a, at) && key in db.rows[a].backlog
  }

  /** The problem row, the dequeue and the cleared diagnostic of one repaired key commit together. */
  function CommitItem(db: Db, owner: Owner, a: AccountId, key: Key, leaseMs: int, at: Instant): Option<Db> {
    if !Queued(db, owner, a, key, at) then None
    else
      var row := db.rows[a];
      Some(db.(rows := db.rows[a := row.(backlog := Without(row.backlog, {key}),
                                         issues := ClearIssues(row.issues, {key}))
                                      .Leased(owner, at + leaseMs)],
               problems := db.problems[key := true]))
  }

  /** A failed one-key retry keeps the key in its place and records its diagnostic. */
  function RecordFailedRetry(db: Db, owner: Owner, a: AccountId, key: Key, code: nat, leaseMs: int,
                             at: Instant): Option<Db> {
    if !Queued(db, owner, a, key, at) then None
    else
      var row := db.rows[a];
      var issue := Issue(key, code, at, NextAttempts(row.issues, key));
      Some(db.(rows := db.rows[a := row.(issues := UpsertIssue(row.issues, issue)).Leased(owner, at + leaseMs)]))
  }

  /** `saveMetadataProgress`: the pass writes its own queue over the row it holds. */
  function SaveProgress(db: Db, owner: Owner, a: AccountId, queue: seq<Key>, issues: seq<Issue>, leaseMs: int,
                        at: Instant): Option<Db> {
    if !Holds(db, owner, a, at) then None
    else Some(db.(rows := db.rows[a := db.rows[a].(backlog := queue, issues := issues).Leased(owner, at + leaseMs)]))
  }

  // ---- Dispositions --------------------------------------------------------------------------

  datatype ManageRequest = ManageRequest(action: Action, keys: seq<Key>, expected: map<Key, Disposition>)

  function DispositionOf(db: Db, key: Key): Option<Disposition> {
    if key in db.dispositions then Some(db.dispositions[key]) else None
  }

  predicate Applicable(action: Action, current: Option<Disposition>) {
    match action
    case Skip => current.None?
    case Trash => current != Some(Trashed)
    case Restore => current.Some?
  }

  predicate LocallyKnown(db: Db, key: Key) {
    || key in db.problems
    || (exists s | s in db.submissions :: s.key == key)
    || (exists b | b in db.rows :: key in db.rows[b].backlog)
  }

  /** The CAS batch of the store: every key in its expected state, or nothing. */
  predicate BatchAccepted(db: Db, request: ManageRequest) {
    && 1 <= |request.keys| <= MAX_DISPOSITION_BATCH
    && NoDuplicates(request.keys)
    && forall key | key in request.keys ::
         && DispositionOf(db, key) == (if key in request.expected then Some(request.expected[key]) else None)
         && Applicable(request.action, DispositionOf(db, key))
         && (key in db.dispositions || LocallyKnown(db, key))
  }

  function KeySet(keys: seq<Key>): set<Key> {
    set k | k in keys
  }

  function AppliedDispositions(db: Db, request: ManageRequest): map<Key, Disposition> {
    var kept := db.dispositions - KeySet(request.keys);
    if request.action.Restore? then kept
    else kept + map k | k in KeySet(request.keys) :: if request.action.Trash? then Trashed else Skipped
  }

  /** Keys whose stored row already carries a statement need no repair. */
  function Repaired(db: Db): set<Key> {
    set k | k in db.problems && db.problems[k]
  }

  function CleanedRow(row: SyncRow, keys: set<Key>): SyncRow {
    row.(backlog := Without(row.backlog, keys), issues := ClearIssues(row.issues, keys))
  }

  /** `manageProblems`: the batch and the cleanup of every queue commit together; an overflow rolls back. */
  function Manage(db: Db, owner: Owner, a: AccountId, request: ManageRequest, at: Instant): Option<Db> {
    if !Holds(db, owner, a, at) || !BatchAccepted(db, request) then None
    else
      var cleaned := map b | b in db.rows ::
        if b in db.accounts then CleanedRow(db.rows[b], KeySet(request.keys)) else db.rows[b];
      var applied := db.(dispositions := AppliedDispositions(db, request));
      if !request.action.Restore? || a !in db.accounts then Some(applied.(rows := cleaned))
      else
        var restored := Enqueued(cleaned[a].backlog, request.keys, Repaired(db));
        if restored.None? then None
        else Some(applied.(rows := cleaned[a := cleaned[a].(backlog := restored.value)]))
  }

  // ---- Runs ----------------------------------------------------------------------------------

  /**
   * What one service is doing: its account, its page plan, the earliest instant its next page can
   * have been fetched, whether the backlog check before a page passed, and the repair loop's queue.
   */
  datatype Pass = Pass(account: AccountId, purpose: Purpose, plan: Plan, readyAt: Instant, roomChecked: bool,
                       queue: Option<seq<Key>>, issues: seq<Issue>)

  /**
   * `chains`, `restarts` and `covered` are history: the pages since the account's latest start or
   * restart, the accounts whose full reconciliation has not committed its first page yet, and the
   * instant up to which the scans walked to their end leave nothing unread, whoever walked them.
   */
  datatype World = World(db: Db, now: Instant, passes: map<Owner, Pass>, chains: map<AccountId, seq<Page>>,
                         restarts: set<AccountId>, covered: map<AccountId, Instant>)

  datatype Step =
    | ClaimStep(owner: Owner, a: AccountId, purpose: Purpose, reading: Instant, leaseMs: int)
    | RenewStep(owner: Owner, reading: Instant, leaseMs: int)
    | RoomStep(owner: Owner)
    | PageStep(owner: Owner, before: Option<Checkpoint>, page: Page, leaseMs: int)
    | ReleaseStep(owner: Owner)
    | BeginRepairStep(owner: Owner)
    | ItemFetchedStep(owner: Owner, leaseMs: int)
    | ItemFailedStep(owner: Owner, code: nat, leaseMs: int)
    | ItemDisposedStep(owner: Owner, leaseMs: int)
    | RetriedStep(owner: Owner, key: Key, leaseMs: int)
    | RetryFailedStep(owner: Owner, key: Key, code: nat, leaseMs: int)
    | ManageStep(owner: Owner, request: ManageRequest)
    | OtherImportStep(imported: map<Key, bool>, items: seq<Submission>)
    | OtherPageStep(a: AccountId, mode: ScanMode, requested: Requested, limit: nat, before: Option<Checkpoint>,
                    page: Page)
    | RecoverStep
    | CrashStep(owner: Owner)

  /** The steps of nobody who holds or wants the lease: other imports, the page route and the host's startup. */
  predicate Outside(step: Step) {
    step.OtherImportStep? || step.OtherPageStep? || step.RecoverStep?
  }

  function ChainOf(world: World, a: AccountId): seq<Page> {
    if a in world.chains then world.chains[a] else []
  }

  function CoverOf(world: World, a: AccountId): Option<Instant> {
    if a in world.covered then Some(world.covered[a]) else None
  }

  /** A window that leaves no instant unread between what was covered and its own beginning. */
  predicate Joins(covered: Option<Instant>, since: Option<Instant>) {
    since.Some? ==> covered.Some? && since.value <= covered.value + 1
  }

  /** The chain a committed page belongs to. */
  function NewChain(world: World, a: AccountId, mode: ScanMode, page: Page): (chain: seq<Page>)
    ensures chain != []
  {
    (if mode.ContinueScan? then ChainOf(world, a) else []) + [page]
  }

  /** What a committed page adds to the history: its chain grows or begins, and one that ended may cover more. */
  function Landed(world: World, a: AccountId, mode: ScanMode, page: Page, db: Db): World {
    var chain := NewChain(world, a, mode, page);
    world.(db := db, chains := world.chains[a := chain],
           covered := if page.next.None? && Joins(CoverOf(world, a), chain[0].since)
                      then world.covered[a := chain[0].fetchedAt] else world.covered)
  }

  /** A page is fetched after its caller read the checkpoint, and stored after it was fetched. */
  predicate Timely(before: Option<Checkpoint>, page: Page, at: Instant) {
    (before.Some? ==> before.value.updatedAt <= page.fetchedAt) && page.fetchedAt <= at
  }

  /** A page of the pass: the next one continues the scan, and none follows the one that ends it. */
  function TakePage(world: World, pass: Pass, w: Owner, before: Option<Checkpoint>, page: Page, leaseMs: int): World {
    if !pass.purpose.History? || pass.queue.Some? || !pass.roomChecked
      || page.fetchedAt < pass.readyAt || !Timely(before, page, world.now)
    then world
    else
      var a := pass.account;
      var outcome := CommitPage(world.db, w, a, pass.plan, before, page, leaseMs, world.now);
      if outcome.PageRefused? then world.(passes := world.passes - {w})
      else
        Landed(world, a, pass.plan.mode, page, outcome.db).(
          passes := world.passes[w := pass.(purpose := if page.next.None? then Drain else pass.purpose,
                                            plan := Plan(ContinueScan, page.since), readyAt := world.now,
                                            roomChecked := false)],
          restarts := if pass.plan.mode.ContinueScan? then world.restarts else world.restarts - {a})
  }

  /**
   * One service's step; a refused transaction ends the pass and writes nothing. A renewal may have
   * read the clock before its transaction; it never reads ahead of it.
   */
  function Act(world: World, pass: Pass, step: Step): World
    requires !step.ClaimStep? && !Outside(step)
  {
    var w := step.owner;
    var a := pass.account;
    var failed := world.(passes := world.passes - {w});
    match step
    case RenewStep(_, reading, leaseMs) =>
      var next := Renew(world.db, w, a, leaseMs, Min(reading, world.now));
      if next.None? then failed else world.(db := next.value)
    case RoomStep(_) =>
      if !pass.purpose.History? || pass.queue.Some? || MAX_BACKLOG - |RowOf(world.db, a).backlog| < PAGE_SIZE then world
      else world.(passes := world.passes[w := pass.(roomChecked := true)])
    case PageStep(_, before, page, leaseMs) => TakePage(world, pass, w, before, page, leaseMs)
    case ReleaseStep(_) => failed.(db := Release(world.db, w, a))
    case BeginRepairStep(_) =>
      if pass.purpose.RepairOp? || a !in world.db.rows || world.db.rows[a].owner != Some(w) then world
      else
        world.(passes := world.passes[w := pass.(queue := Some(world.db.rows[a].backlog),
                                                 issues := world.db.rows[a].issues,
                                                 roomChecked := false)])
    case ItemFetchedStep(_, leaseMs) =>
      if pass.queue.None? || pass.queue.value == [] then world
      else
        var queue := pass.queue.value;
        var next := CommitItem(world.db, w, a, queue[0], leaseMs, world.now);
        if next.None? then failed
        else world.(db := next.value,
                    passes := world.passes[w := pass.(queue := Some(queue[1..]),
                                                      issues := ClearIssues(pass.issues, {queue[0]}))])
    case ItemFailedStep(_, code, leaseMs) =>
      if pass.queue.None? || pass.queue.value == [] then world
      else
        var key := pass.queue.value[0];
        var queue := pass.queue.value[1..] + [key];
        var issues := UpsertIssue(pass.issues, Issue(key, code, world.now, NextAttempts(pass.issues, key)));
        var next := SaveProgress(world.db, w, a, queue, issues, leaseMs, world.now);
        if next.None? then failed
        else world.(db := next.value, passes := world.passes[w := pass.(queue := Some(queue), issues := issues)])
    case ItemDisposedStep(_, leaseMs) =>
      if pass.queue.None? || pass.queue.value == [] || pass.queue.value[0] !in world.db.dispositions then world
      else
        var queue := pass.queue.value[1..];
        var issues := ClearIssues(pass.issues, {pass.queue.value[0]});
        var next := SaveProgress(world.db, w, a, queue, issues, leaseMs, world.now);
        if next.None? then failed
        else world.(db := next.value, passes := world.passes[w := pass.(queue := Some(queue), issues := issues)])
    case RetriedStep(_, key, leaseMs) =>
      var next := CommitItem(world.db, w, a, key, leaseMs, world.now);
      if !pass.purpose.RepairOp? then world else if next.None? then failed else world.(db := next.value)
    case RetryFailedStep(_, key, code, leaseMs) =>
      var next := RecordFailedRetry(world.db, w, a, key, code, leaseMs, world.now);
      if !pass.purpose.RepairOp? then world else if next.None? then failed else world.(db := next.value)
    case ManageStep(_, request) =>
      var next := Manage(world.db, w, a, request, world.now);
      if !pass.purpose.RepairOp? then world else if next.None? then failed else world.(db := next.value)
    case CrashStep(_) => failed
  }

  /** The claim's clock may have been read before its transaction; it never reads ahead of it. */
  function TakeClaim(world: World, step: Step): World
    requires step.ClaimStep?
  {
    var at := Min(step.reading, world.now);
    var claim := Claim(world.db, step.owner, step.a, step.purpose, step.leaseMs, at);
    if claim.None? then world.(passes := world.passes - {step.owner})
    else
      world.(
        db := claim.value.0,
        passes := world.passes[step.owner := Pass(step.a, step.purpose, claim.value.1, world.now, false, None, [])],
        restarts := if step.purpose == History(true) && Resumable(world.db, step.a) then world.restarts + {step.a}
                    else world.restarts)
  }

  /**
   * Storing problems from any other import, with the submissions a manual document brings for them: a
   * retained statement is never replaced by none, and a document whose submissions name other problems
   * is refused.
   */
  function ImportProblems(db: Db, imported: map<Key, bool>, items: seq<Submission>): Db {
    if exists s | s in items :: s.key !in imported then db
    else
      db.(problems := db.problems
            + map k | k in imported :: imported[k] || (k in db.problems && db.problems[k]),
          submissions := db.submissions + set s | s in items)
  }

  /** `recoverDurableSync`: every account gets its row, and a lease that is over is cleared. */
  function RecoveredRow(row: SyncRow, at: Instant): SyncRow {
    if LeaseExpired(row, at) && row.owner.Some? then row.Released() else row
  }

  function Recover(db: Db, at: Instant): Db {
    db.(rows := map b | b in db.accounts + db.rows.Keys ::
          if b in db.accounts then RecoveredRow(RowOf(db, b), at) else db.rows[b])
  }

  /** A step of a caller that takes no part in the lease protocol. */
  function Aside(world: World, step: Step): World
    requires Outside(step)
  {
    match step
    case OtherImportStep(imported, items) => world.(db := ImportProblems(world.db, imported, items))
    case RecoverStep => world.(db := Recover(world.db, world.now))
    case OtherPageStep(a, mode, requested, limit, before, page) =>
      var next := CommitOtherPage(world.db, a, mode, requested, limit, before, page, world.now);
      if next.None? || !Timely(before, page, world.now) then world else Landed(world, a, mode, page, next.value)
  }

  function Next(before: World, at: Instant, step: Step): World {
    var world := before.(now := Max(before.now, at));
    if step.ClaimStep? then TakeClaim(world, step)
    else if Outside(step) then Aside(world, step)
    else if step.owner !in world.passes then world
    else Act(world, world.passes[step.owner], step)
  }

  datatype Event = Event(at: Instant, step: Step)

  function Run(world: World, events: seq<Event>): World {
    if events == [] then world
    else Next(Run(world, events[..|events| - 1]), events[|events| - 1].at, events[|events| - 1].step)
  }

  function Fresh(accounts: set<AccountId>, problems: map<Key, bool>, now: Instant): World {
    World(Db(accounts, map[], map[], {}, problems, map[]), now, map[], map[], {}, map[])
  }
}
