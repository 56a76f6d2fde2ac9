/**
 * No history gap: once a scan of an account completed, everything the platform held of that account
 * up to the scan's start is stored, across interruptions, incremental windows, reconciliations and the
 * pages others commit, exactly as long as no scan completes under a marker that the windows walked so
 * far do not cover.
 */
module LuoguHistory {
  import opened Prelude
  import opened LuoguSyncState
  import opened SyncPages
  import opened LuoguSync
  import opened LuoguLease

  // ---- The source contract -------------------------------------------------------------------

  /** Pages asked one after the other: each begins where the one before ended, under one bound. */
  ghost predicate Linked(chain: seq<Page>) {
    && chain != [] && chain[0].cursor.None?
    && (forall i | 0 < i < |chain| :: LinkedAt(chain, i))
  }

  ghost predicate LinkedAt(chain: seq<Page>, i: nat)
    requires 0 < i < |chain|
  {
    && chain[i - 1].next.Some? && chain[i].cursor == chain[i - 1].next
    && chain[i].since == chain[0].since
    && chain[i - 1].fetchedAt <= chain[i].fetchedAt
  }

  ghost predicate Returned(chain: seq<Page>, s: Submission) {
    exists i | 0 <= i < |chain| :: s in chain[i].items
  }

  /** The submission belongs to the window a chain was asked for. */
  ghost predicate InWindow(chain: seq<Page>, a: AccountId, s: Submission)
    requires chain != []
  {
    s.account == a && s.at <= chain[0].fetchedAt && (chain[0].since.Some? ==> s.at >= chain[0].since.value)
  }

  /** A chain walked to its end returned everything the platform held in its window when it began. */
  ghost predicate ReadHonestly(platform: iset<Submission>, a: AccountId, chain: seq<Page>) {
    Linked(chain) && chain[|chain| - 1].next.None? ==>
      forall s | s in platform && InWindow(chain, a, s) :: Returned(chain, s)
  }

  /** Everything of the account up to `v` is stored. */
  ghost predicate Covered(platform: iset<Submission>, db: Db, a: AccountId, v: Instant) {
    forall s | s in platform && s.account == a && s.at <= v :: s in db.submissions
  }

  // ---- Invariants ----------------------------------------------------------------------------

  ghost predicate FetchedBy(chain: seq<Page>, t: Instant) {
    forall i | 0 <= i < |chain| :: chain[i].fetchedAt <= t
  }

  /** The window of a finished chain is covered, or begins beyond a hole after everything covered. */
  ghost predicate WindowCounted(covered: Option<Instant>, first: Page) {
    || (covered.Some? && first.fetchedAt <= covered.value)
    || (first.since.Some? && (covered.None? || covered.value + 1 < first.since.value))
  }

  /** The checkpoint is the end of the chain, and the chain's rows are stored, whoever committed its pages. */
  ghost predicate ScanMatchesChain(world: World, a: AccountId) {
    var chain, db := ChainOf(world, a), world.db;
    && (chain == [] <==> CheckpointOf(db, a).None?)
    && (CoverOf(world, a).Some? ==> chain != [] && CoverOf(world, a).value <= chain[0].fetchedAt)
    && (chain != [] ==>
          var end := db.checkpoints[a];
          && Linked(chain)
          && chain[|chain| - 1].next == end.cursor && chain[0].since == end.since
          && FetchedBy(chain, end.updatedAt) && end.updatedAt <= world.now
          && (forall s | Returned(chain, s) :: s in db.submissions)
          && (end.cursor.None? ==> WindowCounted(CoverOf(world, a), chain[0])))
  }

  /** What a row, its checkpoint and its chain say, whatever the platform holds. */
  ghost predicate AccountScan(world: World, a: AccountId) {
    && ScanMatchesChain(world, a)
    && (RowOf(world.db, a).historyComplete <==> RowOf(world.db, a).phase.Incremental?)
  }

  /** Everything of the account up to its last completed scan start is stored. */
  ghost predicate Watermark(platform: iset<Submission>, world: World, a: AccountId) {
    RowOf(world.db, a).lastScanStartedAt.Some? ==>
      Covered(platform, world.db, a, RowOf(world.db, a).lastScanStartedAt.value)
  }

  /** What the walked windows cover is stored. */
  ghost predicate CoverStored(platform: iset<Submission>, world: World, a: AccountId) {
    CoverOf(world, a).Some? ==> Covered(platform, world.db, a, CoverOf(world, a).value)
  }

  /** A history pass that still owns its row has a marker. */
  ghost predicate PassScan(world: World, pass: Pass) {
    pass.purpose.History? ==> RowOf(world.db, pass.account).scanStartedAt.Some?
  }

  ghost predicate ScanInv(world: World) {
    && (forall a :: AccountScan(world, a))
    && (forall o | o in world.passes && Owns(world.db, o, world.passes[o].account) :: PassScan(world, world.passes[o]))
  }

  // ---- Steps ---------------------------------------------------------------------------------

  /** Nothing the history invariant speaks of moved, except that more may be stored. */
  ghost predicate SameHistory(before: World, after: World, a: AccountId) {
    && CheckpointOf(after.db, a) == CheckpointOf(before.db, a)
    && ChainOf(after, a) == ChainOf(before, a)
    && CoverOf(after, a) == CoverOf(before, a)
    && (a in after.restarts <==> a in before.restarts)
    && before.db.submissions <= after.db.submissions
    && before.now <= after.now
    && RowOf(after.db, a).phase == RowOf(before.db, a).phase
    && RowOf(after.db, a).historyComplete == RowOf(before.db, a).historyComplete
    && RowOf(after.db, a).scanStartedAt == RowOf(before.db, a).scanStartedAt
    && RowOf(after.db, a).lastScanStartedAt == RowOf(before.db, a).lastScanStartedAt
  }

  lemma SameHistoryKeeps(platform: iset<Submission>, before: World, after: World, a: AccountId)
    requires AccountScan(before, a) && SameHistory(before, after, a)
    ensures AccountScan(after, a) && CoverMoves(before, after, a)
    ensures CoverStored(platform, before, a) ==> CoverStored(platform, after, a)
  {
  }

  /** Only claims and pages touch history. */
  lemma OtherStepsSameHistory(world: World, at: Instant, step: Step, a: AccountId)
    requires !step.ClaimStep? && !step.PageStep? && !PagesAside(step, a)
    ensures SameHistory(world, Next(world, at, step), a)
  {
    if !Outside(step) && step.owner in world.passes {
      ActSameHistory(world.(now := Max(world.now, at)), world.passes[step.owner], step, a);
    }
  }

  /** A write of rows and problems that moves no history field. */
  ghost predicate SameRows(db: Db, next: Db) {
    && next == db.(rows := next.rows, problems := next.problems, dispositions := next.dispositions)
    && forall a ::
         && RowOf(next, a).phase == RowOf(db, a).phase
         && RowOf(next, a).historyComplete == RowOf(db, a).historyComplete
         && RowOf(next, a).scanStartedAt == RowOf(db, a).scanStartedAt
         && RowOf(next, a).lastScanStartedAt == RowOf(db, a).lastScanStartedAt
  }

  lemma RowWriteSame(db: Db, a: AccountId, row: SyncRow, problems: map<Key, bool>)
    requires a in db.rows
    requires row.phase == db.rows[a].phase && row.historyComplete == db.rows[a].historyComplete
    requires row.scanStartedAt == db.rows[a].scanStartedAt && row.lastScanStartedAt == db.rows[a].lastScanStartedAt
    ensures SameRows(db, db.(rows := db.rows[a := row], problems := problems))
  {
  }

  lemma LeaseSameRows(db: Db, owner: Owner, a: AccountId, leaseMs: int, at: Instant)
    ensures forall next | Renew(db, owner, a, leaseMs, at) == Some(next) :: SameRows(db, next)
    ensures SameRows(db, Release(db, owner, a))
  {
    if a in db.rows {
      RowWriteSame(db, a, db.rows[a].Leased(owner, at + leaseMs), db.problems);
      RowWriteSame(db, a, db.rows[a].Released(), db.problems);
    }
  }

  lemma ItemSameRows(db: Db, owner: Owner, a: AccountId, key: Key, leaseMs: int, at: Instant)
    ensures forall next | CommitItem(db, owner, a, key, leaseMs, at) == Some(next) :: SameRows(db, next)
  {
    if a in db.rows {
      var row := db.rows[a];
      RowWriteSame(db, a, row.(backlog := Without(row.backlog, {key}), issues := ClearIssues(row.issues, {key}))
                             .Leased(owner, at + leaseMs), db.problems[key := true]);
    }
  }

  lemma RetrySameRows(db: Db, owner: Owner, a: AccountId, key: Key, code: nat, leaseMs: int, at: Instant)
    ensures forall next | RecordFailedRetry(db, owner, a, key, code, leaseMs, at) == Some(next) :: SameRows(db, next)
  {
    if a in db.rows {
      var row := db.rows[a];
      var issue := Issue(key, code, at, NextAttempts(row.issues, key));
      RowWriteSame(db, a, row.(issues := UpsertIssue(row.issues, issue)).Leased(owner, at + leaseMs), db.problems);
    }
  }

  lemma ProgressSameRows(db: Db, owner: Owner, a: AccountId, queue: seq<Key>, issues: seq<Issue>, leaseMs: int,
                         at: Instant)
    ensures forall next | SaveProgress(db, owner, a, queue, issues, leaseMs, at) == Some(next) :: SameRows(db, next)
  {
    if a in db.rows {
      RowWriteSame(db, a, db.rows[a].(backlog := queue, issues := issues).Leased(owner, at + leaseMs), db.problems);
    }
  }

  lemma ManageSameRows(db: Db, owner: Owner, a: AccountId, request: ManageRequest, at: Instant)
    ensures forall next | Manage(db, owner, a, request, at) == Some(next) :: SameRows(db, next)
  {
    hide BatchAccepted, Enqueued, Without, ClearIssues, AppliedDispositions, Repaired, KeySet;
  }

  lemma ActSameRows(world: World, pass: Pass, step: Step)
    requires !step.ClaimStep? && !step.PageStep? && !Outside(step)
    ensures SameRows(world.db, Act(world, pass, step).db)
    ensures Act(world, pass, step) == world.(db := Act(world, pass, step).db, passes := Act(world, pass, step).passes)
  {
    hide SameRows;
    var db, w, a, now := world.db, step.owner, pass.account, world.now;
    UnwrittenSameRows(db);
    match step
    case RenewStep(_, reading, leaseMs) => LeaseSameRows(db, w, a, leaseMs, Min(reading, now));
    case ReleaseStep(_) => LeaseSameRows(db, w, a, 0, now);
    case ItemFetchedStep(_, leaseMs) =>
      if pass.queue.Some? && pass.queue.value != [] { ItemSameRows(db, w, a, pass.queue.value[0], leaseMs, now); }
    case ItemFailedStep(_, code, leaseMs) =>
      if pass.queue.Some? && pass.queue.value != [] {
        var key := pass.queue.value[0];
        ProgressSameRows(db, w, a, pass.queue.value[1..] + [key],
                         UpsertIssue(pass.issues, Issue(key, code, now, NextAttempts(pass.issues, key))), leaseMs, now);
      }
    case ItemDisposedStep(_, leaseMs) =>
      if pass.queue.Some? && pass.queue.value != [] {
        ProgressSameRows(db, w, a, pass.queue.value[1..], ClearIssues(pass.issues, {pass.queue.value[0]}), leaseMs,
                         now);
      }
    case RetriedStep(_, key, leaseMs) => ItemSameRows(db, w, a, key, leaseMs, now);
    case RetryFailedStep(_, key, code, leaseMs) => RetrySameRows(db, w, a, key, code, leaseMs, now);
    case ManageStep(_, request) => ManageSameRows(db, w, a, request, now);
    case _ =>
  }

  lemma UnwrittenSameRows(db: Db)
    ensures SameRows(db, db)
  {
  }

  lemma ActSameHistory(world: World, pass: Pass, step: Step, a: AccountId)
    requires !step.ClaimStep? && !step.PageStep? && !Outside(step)
    ensures SameHistory(world, Act(world, pass, step), a)
  {
    ActSameRows(world, pass, step);
  }

  lemma ClaimKeepsAccount(platform: iset<Submission>, world: World, step: Step, a: AccountId)
    requires step.ClaimStep? && AccountScan(world, a)
    ensures AccountScan(TakeClaim(world, step), a) && CoverMoves(world, TakeClaim(world, step), a)
    ensures CoverStored(platform, world, a) ==> CoverStored(platform, TakeClaim(world, step), a)
    ensures RowOf(TakeClaim(world, step).db, a).lastScanStartedAt == RowOf(world.db, a).lastScanStartedAt
    ensures CoverOf(TakeClaim(world, step), a) == CoverOf(world, a)
  {
    hide SourceBusy, Linked, Returned, FetchedBy;
  }

  lemma ClaimLeavesOthers(world: World, step: Step, a: AccountId)
    requires step.ClaimStep?
    requires step.a == a ==>
      Claim(world.db, step.owner, step.a, step.purpose, step.leaseMs, Min(step.reading, world.now)).None?
    ensures SameHistory(world, TakeClaim(world, step), a)
  {
  }

  lemma ClaimSetsMarker(world: World, step: Step)
    requires step.ClaimStep? && step.owner in TakeClaim(world, step).passes
    ensures PassScan(TakeClaim(world, step), TakeClaim(world, step).passes[step.owner])
  {
    hide SourceBusy;
  }

  // ---- Pages ---------------------------------------------------------------------------------

  /** The first page of the current chain never gets older, and neither does what is covered. */
  ghost predicate CoverMoves(before: World, after: World, a: AccountId) {
    && (ChainOf(before, a) != [] ==>
          ChainOf(after, a) != [] && ChainOf(before, a)[0].fetchedAt <= ChainOf(after, a)[0].fetchedAt)
    && (CoverOf(after, a) != CoverOf(before, a) ==>
          && CoverOf(after, a).Some?
          && (ChainOf(before, a) != [] ==> ChainOf(before, a)[0].fetchedAt <= CoverOf(after, a).value))
  }

  /** A page that the comparison of the checkpoint accepts extends the chain it follows. */
  lemma PageExtendsChain(world: World, a: AccountId, mode: ScanMode, requested: Requested, limit: nat,
                         before: Option<Checkpoint>, page: Page)
    requires ScanMatchesChain(world, a) && Timely(before, page, world.now)
    requires StreamRefusal(world.db, a, mode, requested, limit, before, page).None?
    ensures var chain, earlier := NewChain(world, a, mode, page), ChainOf(world, a);
            && Linked(chain) && chain[|chain| - 1] == page && chain[0].since == page.since
            && FetchedBy(chain, world.now)
            && (forall s | Returned(chain, s) :: s in world.db.submissions || s in page.items)
            && (earlier != [] ==> earlier[0].fetchedAt <= chain[0].fetchedAt)
            && (mode.ContinueScan? ==> Resumable(world.db, a) && earlier != [] && chain[0] == earlier[0])
            && (!mode.ContinueScan? ==> chain == [page])
  {
    var chain, earlier := NewChain(world, a, mode, page), ChainOf(world, a);
    if mode.ContinueScan? {
      forall i | 0 < i < |chain| ensures LinkedAt(chain, i) {
        if i < |earlier| { assert LinkedAt(earlier, i); }
      }
      if |earlier| > 1 { assert LinkedAt(earlier, |earlier| - 1); }
      forall s | Returned(chain, s) ensures s in world.db.submissions || s in page.items {
        var i :| 0 <= i < |chain| && s in chain[i].items;
        if i < |earlier| { assert s in earlier[i].items; assert Returned(earlier, s); }
      }
    } else if earlier != [] {
      assert earlier[0].fetchedAt <= before.value.updatedAt;
    }
  }

  /** What the database must hold once the page is stored, with or without a hook. */
  ghost predicate Stores(db: Db, after: Db, a: AccountId, page: Page, at: Instant) {
    && CheckpointOf(after, a) == Some(Checkpoint(page.next, page.since, at))
    && after.submissions == db.submissions + set s | s in page.items
  }

  lemma LandedKeeps(world: World, a: AccountId, mode: ScanMode, requested: Requested, limit: nat,
                    before: Option<Checkpoint>, page: Page, db: Db)
    requires ScanMatchesChain(world, a) && Timely(before, page, world.now)
    requires StreamRefusal(world.db, a, mode, requested, limit, before, page).None?
    requires Stores(world.db, db, a, page, world.now)
    ensures var after := Landed(world, a, mode, page, db);
            && ScanMatchesChain(after, a) && CoverMoves(world, after, a)
            && ChainOf(after, a) == NewChain(world, a, mode, page)
  {
    PageExtendsChain(world, a, mode, requested, limit, before, page);
    hide StreamRefusal, Linked, Returned, FetchedBy;
  }

  /** A complete chain that joins what was covered leaves everything up to its first page stored. */
  lemma CompleteScanCovers(platform: iset<Submission>, db: Db, after: Db, a: AccountId, chain: seq<Page>,
                           covered: Option<Instant>)
    requires Linked(chain) && chain[|chain| - 1].next.None? && ReadHonestly(platform, a, chain)
    requires forall s | Returned(chain, s) :: s in after.submissions
    requires db.submissions <= after.submissions && Joins(covered, chain[0].since)
    requires covered.Some? ==> Covered(platform, db, a, covered.value)
    ensures Covered(platform, after, a, chain[0].fetchedAt)
  {
    forall s | s in platform && s.account == a && s.at <= chain[0].fetchedAt ensures s in after.submissions {
      if InWindow(chain, a, s) { assert Returned(chain, s); }
    }
  }

  lemma LandedCovers(platform: iset<Submission>, world: World, a: AccountId, mode: ScanMode, page: Page, db: Db)
    requires var after := Landed(world, a, mode, page, db);
             && ScanMatchesChain(after, a) && ReadHonestly(platform, a, NewChain(world, a, mode, page))
             && db.submissions >= world.db.submissions
    requires CoverStored(platform, world, a)
    ensures CoverStored(platform, Landed(world, a, mode, page, db), a)
  {
    var chain := NewChain(world, a, mode, page);
    assert ChainOf(Landed(world, a, mode, page, db), a) == chain && chain[|chain| - 1] == page;
    if page.next.None? && Joins(CoverOf(world, a), chain[0].since) {
      CompleteScanCovers(platform, world.db, db, a, chain, CoverOf(world, a));
    }
  }

  /** A page step that committed, with everything its guards established. */
  ghost predicate PageTaken(world: World, pass: Pass, step: Step) {
    && step.PageStep?
    && pass.purpose.History? && pass.queue.None? && pass.roomChecked
    && pass.readyAt <= step.page.fetchedAt && Timely(step.before, step.page, world.now)
    && CommitPage(world.db, step.owner, pass.account, pass.plan, step.before, step.page, step.leaseMs,
                  world.now).PageCommitted?
  }

  ghost function TakenDb(world: World, pass: Pass, step: Step): Db
    requires PageTaken(world, pass, step)
  {
    CommitPage(world.db, step.owner, pass.account, pass.plan, step.before, step.page, step.leaseMs, world.now).db
  }

  /** What a committed page of the service writes beside the stream. */
  lemma TakenWrites(world: World, pass: Pass, step: Step)
    requires PageTaken(world, pass, step)
    ensures var a, db := pass.account, TakenDb(world, pass, step);
            && StreamRefusal(world.db, a, pass.plan.mode, Bound(pass.plan.since), PAGE_SIZE, step.before,
                             step.page).None?
            && Stores(world.db, db, a, step.page, world.now)
            && Owns(world.db, step.owner, a) && a in db.rows
            && var row, next := world.db.rows[a], db.rows[a];
               var from := if row.scanStartedAt.Some? then row.scanStartedAt.value else world.now;
               && (step.page.next.None? ==>
                     next.phase.Incremental? && next.historyComplete && next.lastScanStartedAt == Some(from))
               && (step.page.next.Some? ==>
                     && next.phase == row.phase && next.historyComplete == row.historyComplete
                     && next.lastScanStartedAt == row.lastScanStartedAt && next.scanStartedAt == Some(from))
  {
    hide Enqueued, Missing, Visible, StreamRefusal;
  }

  /** The taken page lands as any other, and the pass goes on or has ended its scan. */
  lemma TakenLands(world: World, pass: Pass, step: Step)
    requires PageTaken(world, pass, step)
    ensures var a, after := pass.account, Act(world, pass, step);
            var landed := Landed(world, a, pass.plan.mode, step.page, TakenDb(world, pass, step));
            && after == landed.(passes := after.passes, restarts := after.restarts)
            && step.owner in after.passes
            && after.passes[step.owner]
                 == pass.(purpose := if step.page.next.None? then Drain else pass.purpose,
                          plan := Plan(ContinueScan, step.page.since), readyAt := world.now, roomChecked := false)
            && after.restarts == if pass.plan.mode.ContinueScan? then world.restarts else world.restarts - {a}
  {
    hide CommitPage;
  }

  lemma PageKeepsAccount(platform: iset<Submission>, world: World, pass: Pass, step: Step)
    requires PageTaken(world, pass, step) && AccountScan(world, pass.account)
    ensures var a, after := pass.account, Act(world, pass, step);
            && AccountScan(after, a) && CoverMoves(world, after, a)
            && ChainOf(after, a) == NewChain(world, a, pass.plan.mode, step.page)
            && (CoverStored(platform, world, a) && ReadHonestly(platform, a, ChainOf(after, a)) ==>
                  CoverStored(platform, after, a))
  {
    hide CommitPage, StreamRefusal, Act, Linked, Returned, FetchedBy;
    var a, db := pass.account, TakenDb(world, pass, step);
    TakenWrites(world, pass, step);
    TakenLands(world, pass, step);
    var after := Act(world, pass, step);
    LandedKeeps(world, a, pass.plan.mode, Bound(pass.plan.since), PAGE_SIZE, step.before, step.page, db);
    if CoverStored(platform, world, a) && ReadHonestly(platform, a, ChainOf(after, a)) {
      LandedCovers(platform, world, a, pass.plan.mode, step.page, db);
    }
    hide Landed, PageTaken, TakenDb;
  }

  lemma PageLeavesOthers(world: World, pass: Pass, step: Step, b: AccountId)
    requires step.PageStep? && b != pass.account
    ensures SameHistory(world, Act(world, pass, step), b)
  {
    hide StreamRefusal, Missing, Visible, Enqueued, PagedRow;
  }

  /** A page step that did not commit writes nothing. */
  lemma PageRefusedSame(world: World, pass: Pass, step: Step, b: AccountId)
    requires step.PageStep? && !PageTaken(world, pass, step)
    ensures SameHistory(world, Act(world, pass, step), b) && Act(world, pass, step).db == world.db
    ensures forall o | o in Act(world, pass, step).passes :: o in world.passes || o == step.owner
  {
    hide CommitPage;
  }

  /** A page committed without a lease. */
  lemma AsidePageKeeps(platform: iset<Submission>, world: World, step: Step)
    requires step.OtherPageStep? && AccountScan(world, step.a)
    ensures var a, after := step.a, Aside(world, step);
            && AccountScan(after, a) && CoverMoves(world, after, a)
            && (CoverStored(platform, world, a) && ReadHonestly(platform, a, ChainOf(after, a)) ==>
                  CoverStored(platform, after, a))
            && RowOf(after.db, a) == RowOf(world.db, a)
  {
    var a := step.a;
    var next := CommitOtherPage(world.db, a, step.mode, step.requested, step.limit, step.before, step.page, world.now);
    if next.Some? && Timely(step.before, step.page, world.now) {
      LandedKeeps(world, a, step.mode, step.requested, step.limit, step.before, step.page, next.value);
      if CoverStored(platform, world, a) && ReadHonestly(platform, a, NewChain(world, a, step.mode, step.page)) {
        LandedCovers(platform, world, a, step.mode, step.page, next.value);
      }
    }
    hide StreamRefusal, Linked, Returned, FetchedBy;
  }

  // ---- Every step ----------------------------------------------------------------------------

  ghost predicate CommitsPage(world: World, at: Instant, step: Step) {
    && step.PageStep? && step.owner in world.passes
    && PageTaken(world.(now := Max(world.now, at)), world.passes[step.owner], step)
  }

  lemma StepAccount(platform: iset<Submission>, world: World, at: Instant, step: Step, a: AccountId)
    requires AccountScan(world, a)
    ensures AccountScan(Next(world, at, step), a) && CoverMoves(world, Next(world, at, step), a)
    ensures CoverStored(platform, world, a) && ReadHonestly(platform, a, ChainOf(Next(world, at, step), a)) ==>
      CoverStored(platform, Next(world, at, step), a)
  {
    hide AccountScan, CoverMoves, CoverStored, ReadHonestly, SameHistory, PageTaken, Act, TakeClaim, Aside;
    var later := world.(now := Max(world.now, at));
    LaterSameHistory(world, at, a);
    SameHistoryKeeps(platform, world, later, a);
    SameCoverMoves(world, later, Next(world, at, step), a);
    if step.ClaimStep? {
      ClaimKeepsAccount(platform, later, step, a);
    } else if PagesAside(step, a) {
      AsidePageKeeps(platform, later, step);
    } else if step.PageStep? && step.owner in world.passes {
      PageAccount(platform, later, world.passes[step.owner], step, a);
    } else if !step.PageStep? {
      OtherStepsSameHistory(world, at, step, a);
      SameHistoryKeeps(platform, world, Next(world, at, step), a);
    }
  }

  lemma LaterSameHistory(world: World, at: Instant, a: AccountId)
    ensures SameHistory(world, world.(now := Max(world.now, at)), a)
  {
  }

  lemma SameCoverMoves(world: World, later: World, after: World, a: AccountId)
    requires later == world.(now := later.now)
    ensures CoverMoves(later, after, a) ==> CoverMoves(world, after, a)
  {
  }

  lemma PageAccount(platform: iset<Submission>, world: World, pass: Pass, step: Step, a: AccountId)
    requires step.PageStep? && AccountScan(world, a)
    ensures var after := Act(world, pass, step);
            && AccountScan(after, a) && CoverMoves(world, after, a)
            && (CoverStored(platform, world, a) && ReadHonestly(platform, a, ChainOf(after, a)) ==>
                  CoverStored(platform, after, a))
  {
    hide AccountScan, CoverMoves, CoverStored, ReadHonestly, SameHistory, PageTaken, Act;
    var after := Act(world, pass, step);
    if a != pass.account {
      PageLeavesOthers(world, pass, step, a);
      SameHistoryKeeps(platform, world, after, a);
    } else if !PageTaken(world, pass, step) {
      PageRefusedSame(world, pass, step, a);
      SameHistoryKeeps(platform, world, after, a);
    } else {
      PageKeepsAccount(platform, world, pass, step);
    }
  }

  lemma StepPass(world: World, at: Instant, step: Step, o: Owner)
    requires ScanInv(world)
    requires o in Next(world, at, step).passes
    requires Owns(Next(world, at, step).db, o, Next(world, at, step).passes[o].account)
    ensures PassScan(Next(world, at, step), Next(world, at, step).passes[o])
  {
    hide AccountScan;
    var after, later := Next(world, at, step), world.(now := Max(world.now, at));
    if Outside(step) || step.owner != o {
      OthersLeaveOwned(world, at, step, o);
      if PagesAside(step, world.passes[o].account) {
        AsideLeavesRows(later, step);
      } else {
        OthersSameHistory(world, at, step, o);
      }
    } else if step.ClaimStep? {
      ClaimSetsMarker(later, step);
    } else {
      OwnPass(later, step);
    }
  }

  lemma AsideLeavesRows(world: World, step: Step)
    requires step.OtherPageStep?
    ensures Aside(world, step).db.rows == world.db.rows && Aside(world, step).passes == world.passes
  {
  }

  /** A step of another service leaves the history of an owned account as it is. */
  lemma OthersSameHistory(world: World, at: Instant, step: Step, o: Owner)
    requires o in world.passes && (Outside(step) || step.owner != o)
    requires Owns(world.db, o, world.passes[o].account) && !PagesAside(step, world.passes[o].account)
    requires step.ClaimStep? && step.a == world.passes[o].account ==>
      Next(world, at, step) == world.(now := Max(world.now, at), passes := world.passes - {step.owner})
    ensures SameHistory(world, Next(world, at, step), world.passes[o].account)
  {
    var a, later := world.passes[o].account, world.(now := Max(world.now, at));
    if step.PageStep? && step.owner in world.passes {
      var pass := world.passes[step.owner];
      if pass.account != a {
        PageLeavesOthers(later, pass, step, a);
      } else {
        assert !PageTaken(later, pass, step);
        PageRefusedSame(later, pass, step, a);
      }
    } else if !step.ClaimStep? && !step.PageStep? {
      OtherStepsSameHistory(world, at, step, a);
    } else if step.ClaimStep? && step.a != a {
      ClaimLeavesOthers(later, step, a);
    }
  }

  lemma OwnPass(world: World, step: Step)
    requires !step.ClaimStep? && !Outside(step) && step.owner in world.passes
    requires forall o | o in world.passes && Owns(world.db, o, world.passes[o].account) ::
      PassScan(world, world.passes[o])
    requires var after := Act(world, world.passes[step.owner], step);
             step.owner in after.passes && Owns(after.db, step.owner, after.passes[step.owner].account)
    ensures var after := Act(world, world.passes[step.owner], step);
            PassScan(after, after.passes[step.owner])
  {
    var pass := world.passes[step.owner];
    OwnPassOwned(world, step);
    if PageTaken(world, pass, step) {
      TakenWrites(world, pass, step);
      TakenLands(world, pass, step);
    } else {
      if step.PageStep? { PageRefusedSame(world, pass, step, pass.account); }
      else { ActSameHistory(world, pass, step, pass.account); }
      OwnPlanKept(world, pass, step);
    }
    hide Act, PageTaken, TakenDb;
  }

  lemma OwnPlanKept(world: World, pass: Pass, step: Step)
    requires !step.ClaimStep? && !Outside(step) && step.owner in world.passes
    requires step.PageStep? ==> !PageTaken(world, pass, step)
    requires world.passes[step.owner] == pass && step.owner in Act(world, pass, step).passes
    ensures var after := Act(world, pass, step).passes[step.owner];
            after.purpose == pass.purpose && after.plan == pass.plan && after.account == pass.account
              && after.readyAt == pass.readyAt
  {
    hide CommitPage, CommitItem, RecordFailedRetry, SaveProgress, Manage, Renew, Release;
  }

  lemma StepKeepsScan(world: World, at: Instant, step: Step)
    requires ScanInv(world)
    ensures ScanInv(Next(world, at, step))
  {
    var after := Next(world, at, step);
    hide Next, AccountScan;
    forall a ensures AccountScan(after, a) { StepAccount(iset{}, world, at, step, a); }
    forall o | o in after.passes && Owns(after.db, o, after.passes[o].account)
      ensures PassScan(after, after.passes[o]) {
      StepPass(world, at, step, o);
    }
  }

  // ---- The marker of a completing page -------------------------------------------------------

  /**
   * A scan may complete under a marker that is no newer than its first page when its window joins what
   * finished scans covered before, or under one that was covered already.
   */
  predicate MarkerCovered(covered: Option<Instant>, marker: Instant, first: Page) {
    || (marker <= first.fetchedAt && Joins(covered, first.since))
    || (covered.Some? && marker <= covered.value)
  }

  /** The marker and the first page of the scan that this page step completes. */
  ghost predicate MarkerFits(world: World, at: Instant, step: Step) {
    CommitsPage(world, at, step) && step.page.next.None? ==>
      var pass := world.passes[step.owner];
      && RowOf(world.db, pass.account).scanStartedAt.Some?
      && MarkerCovered(CoverOf(world, pass.account), RowOf(world.db, pass.account).scanStartedAt.value,
                       NewChain(world, pass.account, pass.plan.mode, step.page)[0])
  }

  /** The recorded scan start lies within what the walked windows cover. */
  ghost predicate Reached(world: World, a: AccountId) {
    RowOf(world.db, a).lastScanStartedAt.Some? ==>
      CoverOf(world, a).Some? && RowOf(world.db, a).lastScanStartedAt.value <= CoverOf(world, a).value
  }

  /** A page is taken under a marker, and its chain does not begin before what is covered. */
  lemma TakenUnderMarker(world: World, at: Instant, step: Step)
    requires ScanInv(world) && CommitsPage(world, at, step)
    ensures var pass := world.passes[step.owner];
            var a, cover := pass.account, CoverOf(world, pass.account);
            && pass.purpose.History? && Owns(world.db, step.owner, a) && world.db.rows[a].scanStartedAt.Some?
            && (cover.Some? ==> cover.value <= NewChain(world, a, pass.plan.mode, step.page)[0].fetchedAt)
  {
    hide CommitPage, StreamRefusal, AccountScan, Stores;
    var later, pass := world.(now := Max(world.now, at)), world.passes[step.owner];
    var a := pass.account;
    TakenWrites(later, pass, step);
    assert PassScan(world, pass);
    assert AccountScan(world, a);
    LaterSameHistory(world, at, a);
    SameHistoryKeeps(iset{}, world, later, a);
    FirstAfterCover(later, a, pass.plan.mode, Bound(pass.plan.since), PAGE_SIZE, step.before, step.page);
  }

  lemma FirstAfterCover(world: World, a: AccountId, mode: ScanMode, requested: Requested, limit: nat,
                        before: Option<Checkpoint>, page: Page)
    requires AccountScan(world, a) && Timely(before, page, world.now)
    requires StreamRefusal(world.db, a, mode, requested, limit, before, page).None?
    ensures CoverOf(world, a).Some? ==> CoverOf(world, a).value <= NewChain(world, a, mode, page)[0].fetchedAt
  {
    PageExtendsChain(world, a, mode, requested, limit, before, page);
    hide StreamRefusal, Linked, Returned, FetchedBy;
  }

  /** The state after a page that completed a scan. */
  lemma CompletionRecords(world: World, at: Instant, step: Step)
    requires ScanInv(world) && CommitsPage(world, at, step) && step.page.next.None?
    ensures var pass, after := world.passes[step.owner], Next(world, at, step);
            var a, row := pass.account, RowOf(world.db, pass.account);
            var first := NewChain(world, a, pass.plan.mode, step.page)[0];
            && row.scanStartedAt.Some? && RowOf(after.db, a).lastScanStartedAt == row.scanStartedAt
            && (CoverOf(world, a).Some? ==> CoverOf(world, a).value <= first.fetchedAt)
            && CoverOf(after, a)
                 == if Joins(CoverOf(world, a), first.since) then Some(first.fetchedAt) else CoverOf(world, a)
  {
    hide ScanInv, CommitPage, StreamRefusal, Act, Stores;
    var later, pass := world.(now := Max(world.now, at)), world.passes[step.owner];
    TakenUnderMarker(world, at, step);
    TakenWrites(later, pass, step);
    TakenLands(later, pass, step);
  }

  /** Only a completing page moves the recorded scan start. */
  lemma StepReached(world: World, at: Instant, step: Step, a: AccountId)
    requires ScanInv(world) && Reached(world, a) && MarkerFits(world, at, step)
    ensures Reached(Next(world, at, step), a)
  {
    var later, after := world.(now := Max(world.now, at)), Next(world, at, step);
    assert AccountScan(world, a);
    StepAccount(iset{}, world, at, step, a);
    if CommitsPage(world, at, step) && world.passes[step.owner].account == a {
      TakenWrites(later, world.passes[step.owner], step);
      TakenLands(later, world.passes[step.owner], step);
      if step.page.next.None? { CompletionRecords(world, at, step); }
      hide Act, PageTaken, TakenDb, ScanInv, StreamRefusal, Linked, Returned, FetchedBy;
    } else {
      OtherMarkersSame(world, at, step, a);
      hide Next, Linked, Returned, FetchedBy, ScanInv;
    }
  }

  lemma OtherMarkersSame(world: World, at: Instant, step: Step, a: AccountId)
    requires CommitsPage(world, at, step) ==> world.passes[step.owner].account != a
    ensures RowOf(Next(world, at, step).db, a).lastScanStartedAt == RowOf(world.db, a).lastScanStartedAt
  {
    hide AccountScan, PageTaken, Act, TakeClaim, Aside, SourceBusy;
    var later := world.(now := Max(world.now, at));
    if step.ClaimStep? {
      ClaimKeepsStart(later, step, a);
    } else if PagesAside(step, a) {
      AsideLeavesRows(later, step);
    } else if step.PageStep? && step.owner in world.passes {
      var pass := world.passes[step.owner];
      if pass.account != a { PageLeavesOthers(later, pass, step, a); } else { PageRefusedSame(later, pass, step, a); }
    } else if !step.PageStep? {
      OtherStepsSameHistory(world, at, step, a);
    }
  }

  lemma ClaimKeepsStart(world: World, step: Step, a: AccountId)
    requires step.ClaimStep?
    ensures RowOf(TakeClaim(world, step).db, a).lastScanStartedAt == RowOf(world.db, a).lastScanStartedAt
  {
    hide SourceBusy;
  }

  // ---- Runs ----------------------------------------------------------------------------------

  lemma FreshScan(accounts: set<AccountId>, problems: map<Key, bool>, start: Instant)
    ensures ScanInv(Fresh(accounts, problems, start))
  {
  }

  lemma {:induction false} RunKeepsScan(world: World, events: seq<Event>, n: nat)
    requires ScanInv(world) && n <= |events|
    ensures ScanInv(Run(world, events[..n]))
  {
    hide ScanInv, Run, Next;
    if n == 0 {
      RunNone(world, events);
    } else {
      RunKeepsScan(world, events, n - 1);
      RunNext(world, events, n);
      StepKeepsScan(Run(world, events[..n - 1]), events[n - 1].at, events[n - 1].step);
    }
  }

  ghost predicate MarkersFit(world: World, events: seq<Event>, n: nat)
    requires n <= |events|
  {
    forall i | 0 <= i < n :: MarkerFits(Run(world, events[..i]), events[i].at, events[i].step)
  }

  /** Every chain that was walked to its end in the first `n` events returned what the platform held in its window. */
  ghost predicate HonestUntil(platform: iset<Submission>, world: World, events: seq<Event>, n: nat)
    requires n <= |events|
  {
    forall i, a | 0 <= i <= n :: ReadHonestly(platform, a, ChainOf(Run(world, events[..i]), a))
  }

  lemma {:induction false} CoverHolds(platform: iset<Submission>, world: World, events: seq<Event>, n: nat,
                                      a: AccountId)
    requires ScanInv(world) && CoverStored(platform, world, a) && n <= |events|
    requires HonestUntil(platform, world, events, n)
    ensures CoverStored(platform, Run(world, events[..n]), a)
  {
    hide Run, Next, CoverStored, ReadHonestly, AccountScan;
    if n == 0 {
      RunNone(world, events);
    } else {
      CoverHolds(platform, world, events, n - 1, a);
      RunKeepsScan(world, events, n - 1);
      RunNext(world, events, n);
      var before, last := Run(world, events[..n - 1]), events[n - 1];
      assert ReadHonestly(platform, a, ChainOf(Run(world, events[..n]), a));
      assert AccountScan(before, a);
      StepAccount(platform, before, last.at, last.step, a);
    }
  }

  lemma {:induction false} ReachedHolds(world: World, events: seq<Event>, n: nat, a: AccountId)
    requires ScanInv(world) && Reached(world, a) && n <= |events| && MarkersFit(world, events, n)
    ensures Reached(Run(world, events[..n]), a)
  {
    hide ScanInv, Run, Next, Reached, MarkerFits;
    if n == 0 {
      RunNone(world, events);
    } else {
      ReachedHolds(world, events, n - 1, a);
      RunKeepsScan(world, events, n - 1);
      RunNext(world, events, n);
      var before, last := Run(world, events[..n - 1]), events[n - 1];
      assert MarkerFits(before, last.at, last.step);
      StepReached(before, last.at, last.step, a);
    }
  }

  /** Up to any point of the run, whatever honest platform was read, nothing up to a recorded scan start is missing. */
  ghost predicate NeverAGap(world: World, events: seq<Event>, n: nat)
    requires n <= |events|
  {
    forall i, a, platform: iset<Submission> | 0 <= i <= n && HonestUntil(platform, world, events, i) ::
      Watermark(platform, Run(world, events[..i]), a)
  }

  lemma CoveredWatermark(platform: iset<Submission>, world: World, a: AccountId)
    requires Reached(world, a) && CoverStored(platform, world, a)
    ensures Watermark(platform, world, a)
  {
  }

  // ---- A marker that does not fit loses history ----------------------------------------------

  lemma {:induction false} RunMovesCover(world: World, events: seq<Event>, i: nat, n: nat, a: AccountId)
    requires ScanInv(world) && i <= n <= |events|
    ensures CoverMoves(Run(world, events[..i]), Run(world, events[..n]), a)
  {
    hide Run;
    if i == n {
      MovesReflexive(Run(world, events[..n]), a);
    } else {
      RunMovesCover(world, events, i, n - 1, a);
      RunKeepsScan(world, events, n - 1);
      RunNext(world, events, n);
      var first, middle, last := Run(world, events[..i]), Run(world, events[..n - 1]), Run(world, events[..n]);
      assert AccountScan(middle, a);
      hide ScanInv, Next, CoverMoves, AccountScan;
      StepAccount(iset{}, middle, events[n - 1].at, events[n - 1].step, a);
      MovesTransitive(first, middle, last, a);
    }
  }

  lemma MovesReflexive(world: World, a: AccountId)
    ensures CoverMoves(world, world, a)
  {
  }

  lemma MovesTransitive(first: World, middle: World, last: World, a: AccountId)
    requires CoverMoves(first, middle, a) && CoverMoves(middle, last, a)
    ensures CoverMoves(first, last, a)
  {
  }

  lemma {:induction false} UnusedId(stored: set<Submission>) returns (id: nat)
    ensures forall s | s in stored :: s.id < id
    decreases stored
  {
    id := 0;
    if stored != {} {
      var s :| s in stored;
      var rest := UnusedId(stored - {s});
      id := Max(rest, s.id + 1);
    }
  }

  /** The chain of a world begins with a bound later than `t`, if it has a bound at all. */
  ghost predicate BoundAfter(world: World, a: AccountId, t: Instant) {
    var chain := ChainOf(world, a);
    chain != [] && chain[0].since.Some? ==> t < chain[0].since.value
  }

  /** An instant before every bound any scan of the account was asked for. */
  lemma {:induction false} BeforeEveryBound(world: World, events: seq<Event>, n: nat, a: AccountId, most: Instant)
    returns (t: Instant)
    requires n <= |events|
    ensures t <= most && forall i | 0 <= i <= n :: BoundAfter(Run(world, events[..i]), a, t)
  {
    hide Run;
    var chain := ChainOf(Run(world, events[..n]), a);
    t := if chain != [] && chain[0].since.Some? then Min(most, chain[0].since.value - 1) else most;
    if n > 0 {
      var rest := BeforeEveryBound(world, events, n - 1, a, t);
      t := rest;
    }
  }

  /** An instant just after what is covered, or before every bound when nothing is, was never asked for. */
  lemma HoleIsHonest(late: Submission, middle: World, last: World)
    requires var a := late.account;
             && AccountScan(middle, a) && CoverMoves(middle, last, a) && BoundAfter(middle, a, late.at)
             && CoverOf(last, a).None?
    ensures ReadHonestly(iset{late}, late.account, ChainOf(middle, late.account))
  {
    hide Returned, LinkedAt;
  }

  lemma EdgeIsHonest(late: Submission, middle: World, last: World)
    requires var a := late.account;
             && AccountScan(middle, a) && CoverMoves(middle, last, a)
             && CoverOf(last, a) == Some(late.at - 1)
    ensures ReadHonestly(iset{late}, late.account, ChainOf(middle, late.account))
  {
    hide Returned, LinkedAt;
  }

  lemma OthersAreHonest(late: Submission, b: AccountId, chain: seq<Page>)
    requires late.account != b
    ensures ReadHonestly(iset{late}, b, chain)
  {
  }

  /** A submission at an uncovered instant was due in no window that was walked to its end. */
  lemma LateWasNeverDue(world: World, events: seq<Event>, n: nat, late: Submission)
    requires ScanInv(world) && n <= |events|
    requires var cover := CoverOf(Run(world, events[..n]), late.account);
             if cover.Some? then late.at == cover.value + 1
             else forall i | 0 <= i <= n :: BoundAfter(Run(world, events[..i]), late.account, late.at)
    ensures HonestUntil(iset{late}, world, events, n)
  {
    hide Run, ReadHonestly, AccountScan, CoverMoves, BoundAfter;
    forall i, b | 0 <= i <= n ensures ReadHonestly(iset{late}, b, ChainOf(Run(world, events[..i]), b)) {
      var middle, last := Run(world, events[..i]), Run(world, events[..n]);
      if b != late.account {
        OthersAreHonest(late, b, ChainOf(middle, b));
      } else {
        RunKeepsScan(world, events, i);
        RunMovesCover(world, events, i, n, b);
        assert AccountScan(middle, b);
        if CoverOf(last, b).Some? { EdgeIsHonest(late, middle, last); } else { HoleIsHonest(late, middle, last); }
      }
    }
  }

  lemma LateIsMissing(world: World, late: Submission)
    requires late !in world.db.submissions
    requires RowOf(world.db, late.account).lastScanStartedAt.Some?
    requires late.at <= RowOf(world.db, late.account).lastScanStartedAt.value
    ensures !Watermark(iset{late}, world, late.account)
  {
  }

  /** The first instant that no finished window covers, or one before every bound. */
  lemma UncoveredInstant(world: World, events: seq<Event>, n: nat, a: AccountId, marker: Instant) returns (t: Instant)
    requires n <= |events|
    requires var cover := CoverOf(Run(world, events[..n]), a); cover.Some? ==> cover.value < marker
    ensures t <= marker
    ensures var cover := CoverOf(Run(world, events[..n]), a);
            if cover.Some? then t == cover.value + 1
            else forall i | 0 <= i <= n :: BoundAfter(Run(world, events[..i]), a, t)
  {
    hide Run, BoundAfter;
    var cover := CoverOf(Run(world, events[..n]), a);
    if cover.Some? { t := cover.value + 1; } else { t := BeforeEveryBound(world, events, n, a, marker); }
  }

  /** A submission made at an uncovered instant before the marker was due in no window, and is missing all the same. */
  lemma MisfitLosesHistory(world: World, events: seq<Event>, n: nat) returns (platform: iset<Submission>, a: AccountId)
    requires ScanInv(world) && n < |events|
    requires !MarkerFits(Run(world, events[..n]), events[n].at, events[n].step)
    ensures HonestUntil(platform, world, events, n + 1) && !Watermark(platform, Run(world, events[..n + 1]), a)
  {
    hide Run, Next, ScanInv, PageTaken, HonestUntil, Watermark, BoundAfter, NewChain;
    var before, after := Run(world, events[..n]), Run(world, events[..n + 1]);
    RunKeepsScan(world, events, n);
    RunNext(world, events, n + 1);
    CompletionRecords(before, events[n].at, events[n].step);
    a := before.passes[events[n].step.owner].account;
    var t := UncoveredInstant(world, events, n + 1, a, RowOf(before.db, a).scanStartedAt.value);
    var id := UnusedId(after.db.submissions);
    var late := Submission(id, a, 0, t);
    platform := iset{late};
    LateWasNeverDue(world, events, n + 1, late);
    LateIsMissing(after, late);
  }

  /**
   * In every reachable state, for every account and whatever honest platform was read, every
   * submission up to the account's last completed scan start is stored, exactly as long as every page
   * of the service that completed a scan did so under a marker covered by the windows walked so far,
   * its own included, whoever walked them.
   */
  lemma NoHistoryGapExactlyWhen(accounts: set<AccountId>, problems: map<Key, bool>, start: Instant, events: seq<Event>,
                                n: nat)
    requires n <= |events|
    ensures NeverAGap(Fresh(accounts, problems, start), events, n) <==>
      MarkersFit(Fresh(accounts, problems, start), events, n)
  {
    var world := Fresh(accounts, problems, start);
    FreshScan(accounts, problems, start);
    if MarkersFit(world, events, n) {
      forall i, a, platform: iset<Submission> | 0 <= i <= n && HonestUntil(platform, world, events, i)
        ensures Watermark(platform, Run(world, events[..i]), a)
      {
        assert MarkersFit(world, events, i);
        ReachedHolds(world, events, i, a);
        CoverHolds(platform, world, events, i, a);
        CoveredWatermark(platform, Run(world, events[..i]), a);
      }
    } else {
      var i :| 0 <= i < n && !MarkerFits(Run(world, events[..i]), events[i].at, events[i].step);
      var platform, a := MisfitLosesHistory(world, events, i);
    }
  }

  /** The history counts as complete exactly in the incremental phase, in every reachable state. */
  lemma CompleteMeansIncremental(accounts: set<AccountId>, problems: map<Key, bool>, start: Instant,
                                 events: seq<Event>, a: AccountId)
    ensures var row := RowOf(Run(Fresh(accounts, problems, start), events).db, a);
            row.historyComplete <==> row.phase.Incremental?
  {
    FreshScan(accounts, problems, start);
    RunKeepsScan(Fresh(accounts, problems, start), events, |events|);
    assert events[..|events|] == events;
    assert AccountScan(Run(Fresh(accounts, problems, start), events), a);
  }
}
