/** One live lease for the whole source, over every run of every service. */
module LuoguLease {
  import opened Prelude
  import opened LuoguSyncState
  import opened SyncPages
  import opened LuoguSync

  /** At most one row of the source is leased at `at`, and every row belongs to a stored account. */
  ghost predicate Exclusive(db: Db, at: Instant) {
    && db.rows.Keys <= db.accounts
    && forall a, b | a in db.rows && b in db.rows && a != b ::
         !(LeaseLive(db.rows[a], None, at) && LeaseLive(db.rows[b], None, at))
  }

  /** The leases other than that of `a` stay as they are; `a`'s may be new. */
  ghost predicate OthersKeepLease(before: Db, after: Db, a: AccountId) {
    && after.accounts == before.accounts
    && before.rows.Keys <= after.rows.Keys <= before.rows.Keys + {a}
    && forall b | b in before.rows && b != a ::
         after.rows[b].owner == before.rows[b].owner && after.rows[b].leaseExpiresAt == before.rows[b].leaseExpiresAt
  }

  ghost predicate Alone(db: Db, a: AccountId, at: Instant) {
    forall b | b in db.rows && b != a :: !LeaseLive(db.rows[b], None, at)
  }

  lemma ExclusiveAfter(before: Db, after: Db, a: AccountId, at: Instant)
    requires Exclusive(before, at) && OthersKeepLease(before, after, a) && a in before.accounts
    requires a in after.rows && LeaseLive(after.rows[a], None, at) ==> Alone(before, a, at)
    ensures Exclusive(after, at)
  {
  }

  lemma HolderIsAlone(db: Db, owner: Owner, a: AccountId, at: Instant)
    requires Exclusive(db, at) && Holds(db, owner, a, at)
    ensures Alone(db, a, at)
  {
  }

  /** A claim that read its clock early still excludes every lease live at its transaction. */
  lemma ClaimExcludes(db: Db, owner: Owner, a: AccountId, purpose: Purpose, leaseMs: int, reading: Instant, at: Instant)
    requires Exclusive(db, at) && reading <= at && Claim(db, owner, a, purpose, leaseMs, reading).Some?
    ensures Alone(db, a, at) && (a in db.rows && LeaseLive(db.rows[a], None, at) ==> db.rows[a].owner == Some(owner))
    ensures OthersKeepLease(db, Claim(db, owner, a, purpose, leaseMs, reading).value.0, a)
  {
    forall b | b in db.rows && b != a ensures !LeaseLive(db.rows[b], None, at) {
      assert !LeaseLive(db.rows[b], None, reading);
    }
  }

  lemma RenewKeepsLeases(db: Db, owner: Owner, a: AccountId, leaseMs: int, reading: Instant)
    requires Renew(db, owner, a, leaseMs, reading).Some?
    ensures Holds(db, owner, a, reading) && OthersKeepLease(db, Renew(db, owner, a, leaseMs, reading).value, a)
  {
  }

  /** What a successful repair write of the pass on `a` does to leases. */
  lemma WritesKeepLeases(db: Db, owner: Owner, a: AccountId, key: Key, code: nat, queue: seq<Key>, issues: seq<Issue>,
                         leaseMs: int, at: Instant)
    ensures forall next | CommitItem(db, owner, a, key, leaseMs, at) == Some(next) ::
      Holds(db, owner, a, at) && OthersKeepLease(db, next, a)
    ensures forall next | RecordFailedRetry(db, owner, a, key, code, leaseMs, at) == Some(next) ::
      Holds(db, owner, a, at) && OthersKeepLease(db, next, a)
    ensures forall next | SaveProgress(db, owner, a, queue, issues, leaseMs, at) == Some(next) ::
      Holds(db, owner, a, at) && OthersKeepLease(db, next, a)
  {
  }

  lemma PageKeepsLeases(db: Db, owner: Owner, a: AccountId, plan: Plan, before: Option<Checkpoint>, page: Page,
                        leaseMs: int, at: Instant)
    requires CommitPage(db, owner, a, plan, before, page, leaseMs, at).PageCommitted?
    ensures Holds(db, owner, a, at)
      && OthersKeepLease(db, CommitPage(db, owner, a, plan, before, page, leaseMs, at).db, a)
  {
  }

  lemma ManageKeepsLeases(db: Db, owner: Owner, a: AccountId, request: ManageRequest, at: Instant)
    requires Manage(db, owner, a, request, at).Some?
    ensures Holds(db, owner, a, at)
    ensures OthersKeepLease(db, Manage(db, owner, a, request, at).value, a)
  {
  }

  // ---- The one step that can break exclusion --------------------------------------------------

  /** The instant a renewal works with: its reading, which is never ahead of its transaction. */
  function RenewalReading(world: World, at: Instant, step: Step): Instant
    requires step.RenewStep?
  {
    Min(step.reading, Max(world.now, at))
  }

  /**
   * A renewal whose reading is so old that the lease it prolongs lapsed and another account of the
   * source was claimed before its transaction, while the deadline it writes still lies ahead.
   */
  ghost predicate StaleRenewal(world: World, at: Instant, step: Step) {
    && step.RenewStep? && step.owner in world.passes
    && var a, now := world.passes[step.owner].account, Max(world.now, at);
       && Holds(world.db, step.owner, a, RenewalReading(world, at, step))
       && RenewalReading(world, at, step) + step.leaseMs > now
       && !Alone(world.db, a, now)
  }

  /** A renewal accepted at its reading although the lease was over at its transaction. */
  predicate LapsedRenewal(world: World, at: Instant, step: Step) {
    && step.RenewStep? && step.owner in world.passes
    && Holds(world.db, step.owner, world.passes[step.owner].account, RenewalReading(world, at, step))
    && !Holds(world.db, step.owner, world.passes[step.owner].account, Max(world.now, at))
  }

  /** Only a renewal of a lapsed lease can be stale. */
  lemma StaleIsLapsed(world: World, at: Instant, step: Step)
    requires Exclusive(world.db, world.now) && StaleRenewal(world, at, step)
    ensures LapsedRenewal(world, at, step)
  {
    var a, now := world.passes[step.owner].account, Max(world.now, at);
    if Holds(world.db, step.owner, a, now) { HolderIsAlone(world.db, step.owner, a, now); }
  }

  lemma RowsStayStored(world: World, at: Instant, step: Step)
    requires world.db.rows.Keys <= world.db.accounts
    ensures Next(world, at, step).db.rows.Keys <= Next(world, at, step).db.accounts
    ensures Next(world, at, step).db.accounts == world.db.accounts
  {
    if !step.ClaimStep? && !Outside(step) && step.owner in world.passes {
      var later, pass := world.(now := Max(world.now, at)), world.passes[step.owner];
      if Act(later, pass, step).db != later.db { ActKeepsLeases(later, pass, step); }
      hide Act;
    }
  }

  /** Any other step writes leases of one row only, and only its holder or a claim leaves that row leased. */
  lemma StepLease(world: World, at: Instant, step: Step)
    requires Exclusive(world.db, world.now) && !StaleRenewal(world, at, step)
    ensures Exclusive(Next(world, at, step).db, Next(world, at, step).now)
  {
    var now := Max(world.now, at);
    var db := world.db;
    assert Exclusive(db, now);
    if step.ClaimStep? {
      var reading := Min(step.reading, now);
      var claim := Claim(db, step.owner, step.a, step.purpose, step.leaseMs, reading);
      if claim.Some? {
        ClaimExcludes(db, step.owner, step.a, step.purpose, step.leaseMs, reading, now);
        ExclusiveAfter(db, claim.value.0, step.a, now);
      }
    } else if !Outside(step) && step.owner in world.passes {
      ActLease(world.(now := now), world.passes[step.owner], step);
    }
  }

  /** A stale renewal leaves two live leases. */
  lemma StaleRenewalBreaks(world: World, at: Instant, step: Step)
    requires StaleRenewal(world, at, step)
    ensures !Exclusive(Next(world, at, step).db, Next(world, at, step).now)
  {
    var a, now := world.passes[step.owner].account, Max(world.now, at);
    var after := Next(world, at, step).db;
    assert after == Renew(world.db, step.owner, a, step.leaseMs, RenewalReading(world, at, step)).value;
    var b :| b in world.db.rows && b != a && LeaseLive(world.db.rows[b], None, now);
    assert LeaseLive(after.rows[a], None, now) && LeaseLive(after.rows[b], None, now);
  }

  lemma ActKeepsClock(world: World, pass: Pass, step: Step)
    requires !step.ClaimStep? && !Outside(step)
    ensures Act(world, pass, step).now == world.now
  {
  }

  lemma ActLease(world: World, pass: Pass, step: Step)
    requires Exclusive(world.db, world.now) && !step.ClaimStep? && !Outside(step)
    requires step.owner in world.passes && world.passes[step.owner] == pass && !StaleRenewal(world, world.now, step)
    ensures Exclusive(Act(world, pass, step).db, Act(world, pass, step).now)
  {
    ActKeepsClock(world, pass, step);
    var db, w, a, now := world.db, step.owner, pass.account, world.now;
    var after := Act(world, pass, step).db;
    if after != db {
      ActKeepsLeases(world, pass, step);
      if step.RenewStep? { RenewedDeadline(world, pass, step); }
      hide Act;
      if Holds(db, w, a, now) { HolderIsAlone(db, w, a, now); }
      ExclusiveAfter(db, after, a, now);
    }
  }

  lemma RenewedDeadline(world: World, pass: Pass, step: Step)
    requires step.RenewStep? && Act(world, pass, step).db != world.db && pass.account in world.db.rows
    ensures pass.account in Act(world, pass, step).db.rows
    ensures Act(world, pass, step).db.rows[pass.account].leaseExpiresAt
      == Some(Min(step.reading, world.now) + step.leaseMs)
  {
  }

  /** The instant at which a writing pass held its lease. */
  function HeldAt(world: World, step: Step): Instant {
    if step.RenewStep? then Min(step.reading, world.now) else world.now
  }

  lemma ActKeepsLeases(world: World, pass: Pass, step: Step)
    requires !step.ClaimStep? && !Outside(step) && Act(world, pass, step).db != world.db
    ensures pass.account in world.db.rows && OthersKeepLease(world.db, Act(world, pass, step).db, pass.account)
    ensures Holds(world.db, step.owner, pass.account, HeldAt(world, step))
      || (step.ReleaseStep? && Act(world, pass, step).db.rows[pass.account].owner.None?)
  {
    var db, w, a, now := world.db, step.owner, pass.account, world.now;
    match step
    case PageStep(_, before, page, leaseMs) => PageKeepsLeases(db, w, a, pass.plan, before, page, leaseMs, now);
    case RenewStep(_, reading, leaseMs) => RenewKeepsLeases(db, w, a, leaseMs, Min(reading, now));
    case ItemFetchedStep(_, leaseMs) => WritesKeepLeases(db, w, a, pass.queue.value[0], 0, [], [], leaseMs, now);
    case RetriedStep(_, key, leaseMs) => WritesKeepLeases(db, w, a, key, 0, [], [], leaseMs, now);
    case RetryFailedStep(_, key, code, leaseMs) => WritesKeepLeases(db, w, a, key, code, [], [], leaseMs, now);
    case ManageStep(_, request) => ManageKeepsLeases(db, w, a, request, now);
    case _ =>
  }

  ghost predicate SameRow(before: World, after: World, a: AccountId) {
    (a in before.db.rows <==> a in after.db.rows) && RowOf(after.db, a) == RowOf(before.db, a)
  }

  /** What a pass sees of its own account. */
  ghost predicate SameView(before: World, after: World, a: AccountId) {
    && SameRow(before, after, a)
    && CheckpointOf(after.db, a) == CheckpointOf(before.db, a)
    && ChainOf(after, a) == ChainOf(before, a)
    && (a in after.restarts <==> a in before.restarts)
  }

  /** The step is a page of this account that the page route commits without a lease. */
  predicate PagesAside(step: Step, a: AccountId) {
    step.OtherPageStep? && step.a == a
  }

  /**
   * No step of another service changes what a holder sees of its account; of its row nothing at all
   * does, and of its scan only a page committed without a lease.
   */
  lemma OthersUntouched(world: World, at: Instant, step: Step, o: Owner)
    requires Exclusive(world.db, world.now)
    requires Outside(step) || step.owner != o
    requires var after := Next(world, at, step);
             o in after.passes && Holds(after.db, o, after.passes[o].account, after.now)
    ensures var after := Next(world, at, step);
            && o in world.passes && after.passes[o] == world.passes[o]
            && Holds(world.db, o, world.passes[o].account, world.now)
            && SameRow(world, after, world.passes[o].account)
            && (SameView(world, after, world.passes[o].account) || PagesAside(step, world.passes[o].account))
  {
    var later := world.(now := Max(world.now, at));
    if step.ClaimStep? {
      var reading := Min(step.reading, later.now);
      if Claim(world.db, step.owner, step.a, step.purpose, step.leaseMs, reading).Some? {
        assert false;
      }
    } else if Outside(step) {
      AsideUntouched(later, step, world.passes[o].account);
    } else if step.owner in world.passes {
      OthersActUntouched(later, step, o);
    }
  }

  /** A live row is none the startup clears, and no other outside step writes rows. */
  lemma AsideUntouched(world: World, step: Step, a: AccountId)
    requires Outside(step) && RowOf(Aside(world, step).db, a).owner.Some?
    ensures SameRow(world, Aside(world, step), a)
    ensures SameView(world, Aside(world, step), a) || PagesAside(step, a)
  {
  }

  lemma OthersActUntouched(world: World, step: Step, o: Owner)
    requires Exclusive(world.db, world.now) && !step.ClaimStep? && !Outside(step)
    requires step.owner != o && step.owner in world.passes
    requires var after := Act(world, world.passes[step.owner], step);
             o in after.passes && Holds(after.db, o, after.passes[o].account, after.now)
    ensures var after := Act(world, world.passes[step.owner], step);
            && o in world.passes && after.passes[o] == world.passes[o]
            && Holds(world.db, o, world.passes[o].account, world.now)
            && SameView(world, after, world.passes[o].account)
  {
    var pass := world.passes[step.owner];
    ActLeavesPasses(world, pass, step, o);
    var after, a := Act(world, pass, step), world.passes[o].account;
    if after.db != world.db {
      ActKeepsLeases(world, pass, step);
      if Holds(world.db, step.owner, pass.account, world.now) {
        HolderIsAlone(world.db, step.owner, pass.account, world.now);
      }
      ActOwns(world, pass, step);
      hide Act;
    }
    if !step.ManageStep? && a != pass.account { ActFrame(world, pass, step, a); }
  }

  /**
   * Even without exclusion: a row its service still owns was owned by it before any step of another
   * service, and that step wrote for another account.
   */
  lemma OthersLeaveOwned(world: World, at: Instant, step: Step, o: Owner)
    requires Outside(step) || step.owner != o
    requires var after := Next(world, at, step); o in after.passes && Owns(after.db, o, after.passes[o].account)
    ensures o in world.passes && Next(world, at, step).passes[o] == world.passes[o]
    ensures Owns(world.db, o, world.passes[o].account)
    ensures step.ClaimStep? && step.a == world.passes[o].account ==>
      Next(world, at, step) == world.(now := Max(world.now, at), passes := world.passes - {step.owner})
    ensures (&& !step.ClaimStep? && !Outside(step) && step.owner in world.passes
             && world.passes[step.owner].account == world.passes[o].account) ==> Next(world, at, step).db == world.db
  {
    var later := world.(now := Max(world.now, at));
    if !step.ClaimStep? && !Outside(step) && step.owner in world.passes {
      var pass := world.passes[step.owner];
      ActLeavesPasses(later, pass, step, o);
      hide Act;
      if Act(later, pass, step).db != world.db {
        ActKeepsLeases(later, pass, step);
        ActOwns(later, pass, step);
      }
    }
  }

  /** The owner of a row after its own step owned it before. */
  lemma OwnPassOwned(world: World, step: Step)
    requires !step.ClaimStep? && !Outside(step) && step.owner in world.passes
    requires var after := Act(world, world.passes[step.owner], step);
             step.owner in after.passes && Owns(after.db, step.owner, after.passes[step.owner].account)
    ensures Owns(world.db, step.owner, world.passes[step.owner].account)
    ensures Act(world, world.passes[step.owner], step).passes[step.owner].account == world.passes[step.owner].account
  {
    var pass := world.passes[step.owner];
    if Act(world, pass, step).db != world.db { ActKeepsLeases(world, pass, step); }
  }

  lemma ActLeavesPasses(world: World, pass: Pass, step: Step, o: Owner)
    requires !step.ClaimStep? && !Outside(step) && step.owner != o
    ensures var after := Act(world, pass, step);
            && after.now == world.now
            && (o in after.passes <==> o in world.passes) && (o in after.passes ==> after.passes[o] == world.passes[o])
            && (after.db == world.db ==>
                step.PageStep? || (after.chains == world.chains && after.restarts == world.restarts))
  {
    hide Renew, Release, CommitItem, RecordFailedRetry, SaveProgress, Manage, TakePage;
    if step.PageStep? { PageLeavesPasses(world, pass, step.owner, step.before, step.page, step.leaseMs, o); }
  }

  lemma PageLeavesPasses(world: World, pass: Pass, w: Owner, before: Option<Checkpoint>, page: Page, leaseMs: int,
                         o: Owner)
    requires w != o
    ensures var after := TakePage(world, pass, w, before, page, leaseMs);
            && after.now == world.now
            && (o in after.passes <==> o in world.passes) && (o in after.passes ==> after.passes[o] == world.passes[o])
  {
    hide CommitPage;
  }

  /** Apart from the queue cleanup of a disposition batch, a step leaves every other account alone. */
  lemma ActFrame(world: World, pass: Pass, step: Step, b: AccountId)
    requires !step.ClaimStep? && !Outside(step) && !step.ManageStep? && b != pass.account
    ensures SameView(world, Act(world, pass, step), b)
  {
    hide Act, SameView;
    if step.PageStep? {
      PageFrame(world, pass, step, b);
    } else if step.ItemFetchedStep? || step.ItemFailedStep? || step.ItemDisposedStep? {
      ItemFrame(world, pass, step, b);
    } else if step.RetriedStep? || step.RetryFailedStep? {
      RetryFrame(world, pass, step, b);
    } else {
      LeaseFrame(world, pass, step, b);
    }
  }

  lemma LeaseFrame(world: World, pass: Pass, step: Step, b: AccountId)
    requires (step.RenewStep? || step.RoomStep? || step.ReleaseStep? || step.BeginRepairStep? || step.CrashStep?)
      && b != pass.account
    ensures SameView(world, Act(world, pass, step), b)
  {
  }

  lemma RetryFrame(world: World, pass: Pass, step: Step, b: AccountId)
    requires (step.RetriedStep? || step.RetryFailedStep?) && b != pass.account
    ensures SameView(world, Act(world, pass, step), b)
  {
    hide Without, ClearIssues, UpsertIssue, NextAttempts;
  }

  lemma ItemFrame(world: World, pass: Pass, step: Step, b: AccountId)
    requires (step.ItemFetchedStep? || step.ItemFailedStep? || step.ItemDisposedStep?) && b != pass.account
    ensures SameView(world, Act(world, pass, step), b)
  {
    hide Without, ClearIssues, UpsertIssue, NextAttempts, Enqueued, CommitPage, Holds;
  }

  lemma PageFrame(world: World, pass: Pass, step: Step, b: AccountId)
    requires step.PageStep? && b != pass.account
    ensures SameView(world, Act(world, pass, step), b)
  {
    hide Enqueued, Missing, Visible, PagedRow, ScanPosition, Holds;
  }

  /** A write leaves its row with its writer, or with nobody. */
  lemma ActOwns(world: World, pass: Pass, step: Step)
    requires !step.ClaimStep? && !Outside(step) && Act(world, pass, step).db != world.db
    ensures var row := RowOf(Act(world, pass, step).db, pass.account);
            row.owner.None? || row.owner == Some(step.owner)
  {
    match step
    case PageStep(_, before, page, leaseMs) =>
    case ManageStep(_, request) => ManageKeepsLeases(world.db, step.owner, pass.account, request, world.now);
    case _ =>
  }

  // ---- Runs ----------------------------------------------------------------------------------

  ghost predicate ExclusiveUntil(world: World, events: seq<Event>, n: nat)
    requires n <= |events|
  {
    forall i | 0 <= i <= n :: Exclusive(Run(world, events[..i]).db, Run(world, events[..i]).now)
  }

  ghost predicate NoStaleRenewal(world: World, events: seq<Event>, n: nat)
    requires n <= |events|
  {
    forall i | 0 <= i < n :: !StaleRenewal(Run(world, events[..i]), events[i].at, events[i].step)
  }

  lemma RunNone(world: World, events: seq<Event>)
    ensures Run(world, events[..0]) == world
  {
  }

  lemma RunNext(world: World, events: seq<Event>, n: nat)
    requires 0 < n <= |events|
    ensures Run(world, events[..n]) == Next(Run(world, events[..n - 1]), events[n - 1].at, events[n - 1].step)
  {
    assert events[..n][..n - 1] == events[..n - 1];
  }

  lemma {:induction false} RunExclusiveExactlyWhen(world: World, events: seq<Event>, n: nat)
    requires Exclusive(world.db, world.now) && n <= |events|
    ensures ExclusiveUntil(world, events, n) <==> NoStaleRenewal(world, events, n)
  {
    hide Run, Next, Exclusive, StaleRenewal;
    if n == 0 {
      RunNone(world, events);
    } else {
      RunExclusiveExactlyWhen(world, events, n - 1);
      RunNext(world, events, n);
      var before, last := Run(world, events[..n - 1]), events[n - 1];
      if StaleRenewal(before, last.at, last.step) {
        StaleRenewalBreaks(before, last.at, last.step);
      } else if ExclusiveUntil(world, events, n - 1) {
        StepLease(before, last.at, last.step);
      }
    }
  }

  /** At most one account of the source is leased, now and at every later instant. */
  ghost predicate OneLease(world: World) {
    forall later, a, b | later >= world.now && a in world.db.rows && b in world.db.rows
      && LeaseLive(world.db.rows[a], None, later) && LeaseLive(world.db.rows[b], None, later) :: a == b
  }

  lemma {:induction false} RunRowsStored(world: World, events: seq<Event>, n: nat)
    requires world.db.rows.Keys <= world.db.accounts && n <= |events|
    ensures Run(world, events[..n]).db.rows.Keys <= Run(world, events[..n]).db.accounts
  {
    hide Run, Next;
    if n == 0 {
      RunNone(world, events);
    } else {
      RunRowsStored(world, events, n - 1);
      RunNext(world, events, n);
      RowsStayStored(Run(world, events[..n - 1]), events[n - 1].at, events[n - 1].step);
    }
  }

  lemma OneLeaseIsExclusion(world: World)
    requires world.db.rows.Keys <= world.db.accounts
    ensures OneLease(world) <==> Exclusive(world.db, world.now)
  {
  }

  /**
   * Source-wide mutual exclusion: up to any point of a run at most one account of the source is
   * leased, at every instant from then on, exactly when no stale renewal happened before that point.
   */
  lemma AtMostOneLeaseEver(accounts: set<AccountId>, problems: map<Key, bool>, start: Instant, events: seq<Event>,
                           n: nat)
    requires n <= |events|
    ensures (forall i | 0 <= i <= n :: OneLease(Run(Fresh(accounts, problems, start), events[..i])))
       <==> NoStaleRenewal(Fresh(accounts, problems, start), events, n)
  {
    var world := Fresh(accounts, problems, start);
    RunExclusiveExactlyWhen(world, events, n);
    forall i | 0 <= i <= n
      ensures OneLease(Run(world, events[..i])) <==> Exclusive(Run(world, events[..i]).db, Run(world, events[..i]).now)
    {
      RunRowsStored(world, events, i);
      OneLeaseIsExclusion(Run(world, events[..i]));
    }
    hide Run, Fresh, OneLease, Exclusive;
  }

  lemma RunExclusive(world: World, events: seq<Event>)
    requires Exclusive(world.db, world.now) && NoStaleRenewal(world, events, |events|)
    ensures Exclusive(Run(world, events).db, Run(world, events).now)
  {
    RunExclusiveExactlyWhen(world, events, |events|);
    assert events[..|events|] == events;
    hide Run, Exclusive;
  }

  ghost predicate NoLapsedRenewal(world: World, events: seq<Event>, n: nat)
    requires n <= |events|
  {
    forall i | 0 <= i < n :: !LapsedRenewal(Run(world, events[..i]), events[i].at, events[i].step)
  }

  /** No page of any stream is committed without the service's lease. */
  predicate SoleWriter(events: seq<Event>, n: nat)
    requires n <= |events|
  {
    forall i | 0 <= i < n :: !events[i].step.OtherPageStep?
  }

  /**
   * Whatever a service writes besides taking, prolonging or giving back its lease (pages, repaired or
   * failed items, dispositions), it writes as the holder of the only live lease of the source; a
   * renewal it writes as the holder at the instant it read.
   */
  lemma WritersHoldTheSource(accounts: set<AccountId>, problems: map<Key, bool>, start: Instant, events: seq<Event>,
                             at: Instant, step: Step)
    requires NoStaleRenewal(Fresh(accounts, problems, start), events, |events|)
    requires !step.ClaimStep? && !Outside(step) && !step.ReleaseStep?
    requires var world := Run(Fresh(accounts, problems, start), events); Next(world, at, step).db != world.db
    ensures var world := Run(Fresh(accounts, problems, start), events);
            && step.owner in world.passes
            && Holds(world.db, step.owner, world.passes[step.owner].account,
                     if step.RenewStep? then RenewalReading(world, at, step) else Max(world.now, at))
            && (step.RenewStep? || Alone(world.db, world.passes[step.owner].account, Max(world.now, at)))
  {
    hide Run, Next, NoStaleRenewal, Holds, Alone;
    FreshExclusive(accounts, problems, start);
    hide Fresh, Exclusive;
    RunExclusive(Fresh(accounts, problems, start), events);
    WriterHolds(Run(Fresh(accounts, problems, start), events), at, step);
  }

  lemma FreshExclusive(accounts: set<AccountId>, problems: map<Key, bool>, start: Instant)
    ensures Exclusive(Fresh(accounts, problems, start).db, Fresh(accounts, problems, start).now)
  {
  }

  lemma WriterHolds(world: World, at: Instant, step: Step)
    requires Exclusive(world.db, world.now) && !step.ClaimStep? && !Outside(step) && !step.ReleaseStep?
    requires Next(world, at, step).db != world.db
    ensures step.owner in world.passes
    ensures Holds(world.db, step.owner, world.passes[step.owner].account,
                  if step.RenewStep? then RenewalReading(world, at, step) else Max(world.now, at))
    ensures step.RenewStep? || Alone(world.db, world.passes[step.owner].account, Max(world.now, at))
  {
    var now := world.(now := Max(world.now, at));
    ActKeepsLeases(now, world.passes[step.owner], step);
    if !step.RenewStep? { HolderIsAlone(world.db, step.owner, world.passes[step.owner].account, now.now); }
    hide Act;
  }

  /**
   * The renewal before a request reads its clock first. With a reading `reading` and a transaction at
   * `at`, it keeps the source exclusive exactly when the deadline it writes is already over or nobody
   * else took the source in between.
   */
  lemma RenewalWithAnOldReading(db: Db, owner: Owner, a: AccountId, leaseMs: int, reading: Instant, at: Instant)
    requires Exclusive(db, at) && reading <= at && Holds(db, owner, a, reading)
    ensures Exclusive(Renew(db, owner, a, leaseMs, reading).value, at) <==> reading + leaseMs <= at || Alone(db, a, at)
  {
    var after := Renew(db, owner, a, leaseMs, reading).value;
    if reading + leaseMs > at && !Alone(db, a, at) {
      var b :| b in db.rows && b != a && LeaseLive(db.rows[b], None, at);
      assert LeaseLive(after.rows[a], None, at) && LeaseLive(after.rows[b], None, at);
    }
  }

  const TAKEOVER: seq<Event> := [
    Event(0, ClaimStep(1, 1, Drain, 0, 10)),
    Event(11, ClaimStep(2, 2, Drain, 11, 100)),
    Event(12, RenewStep(1, 9, 100))]

  const LEASED_ONE := EMPTY_ROW.Leased(1, 10)
  const LEASED_TWO := EMPTY_ROW.Leased(2, 111)
  const ON_ONE := Pass(1, Drain, Plan(ContinueScan, None), 0, false, None, [])
  const ON_TWO := Pass(2, Drain, Plan(ContinueScan, None), 11, false, None, [])

  function Taken(rows: map<AccountId, SyncRow>, now: Instant, passes: map<Owner, Pass>): World {
    World(Db({1, 2}, rows, map[], {}, map[], map[]), now, passes, map[], {}, map[])
  }

  lemma TakenOnce()
    ensures Next(Fresh({1, 2}, map[], 0), 0, TAKEOVER[0].step) == Taken(map[1 := LEASED_ONE], 0, map[1 := ON_ONE])
  {
  }

  lemma TakenTwice()
    ensures Next(Taken(map[1 := LEASED_ONE], 0, map[1 := ON_ONE]), 11, TAKEOVER[1].step)
         == Taken(map[1 := LEASED_ONE, 2 := LEASED_TWO], 11, map[1 := ON_ONE, 2 := ON_TWO])
  {
    assert !SourceBusy(Taken(map[1 := LEASED_ONE], 11, map[1 := ON_ONE]).db, 2, 2, 11);
  }

  lemma TakenBack()
    ensures Next(Taken(map[1 := LEASED_ONE, 2 := LEASED_TWO], 11, map[1 := ON_ONE, 2 := ON_TWO]), 12,
                 TAKEOVER[2].step).db.rows
         == map[1 := EMPTY_ROW.Leased(1, 109), 2 := LEASED_TWO]
  {
  }

  /** A run whose last event renews with a reading older than another service's claim ends with two live leases. */
  lemma OldReadingBreaksExclusion()
    ensures var world := Run(Fresh({1, 2}, map[], 0), TAKEOVER);
            && 1 in world.db.rows && 2 in world.db.rows
            && LeaseLive(world.db.rows[1], Some(1), world.now) && LeaseLive(world.db.rows[2], Some(2), world.now)
  {
    var start := Fresh({1, 2}, map[], 0);
    assert TAKEOVER[..0] == [] && TAKEOVER[..3] == TAKEOVER;
    RunNext(start, TAKEOVER, 1);
    RunNext(start, TAKEOVER, 2);
    RunNext(start, TAKEOVER, 3);
    TakenOnce();
    TakenTwice();
    TakenBack();
    ClockMovesOn(Run(start, TAKEOVER[..2]), 12, TAKEOVER[2].step);
    hide Run, Next;
  }

  lemma ClockMovesOn(world: World, at: Instant, step: Step)
    ensures Next(world, at, step).now == Max(world.now, at)
  {
    if !step.ClaimStep? && !Outside(step) && step.owner in world.passes {
      ActKeepsClock(world.(now := Max(world.now, at)), world.passes[step.owner], step);
      hide Act;
    }
  }
}
