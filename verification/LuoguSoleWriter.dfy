/**
 * Runs in which nobody but the service pages a stream: there the marker and the first page of the
 * completing scan decide alone, and a rule about resumes is enough.
 */
module LuoguSoleWriter {
  import opened Prelude
  import opened LuoguSyncState
  import opened SyncPages
  import opened LuoguSync
  import opened LuoguLease
  import opened LuoguHistory

  // ---- Runs in which only the service pages ----------------------------------------------------

  /** An incremental window begins no later than what the last completed scan covered. */
  predicate WindowJoins(row: SyncRow, since: Option<Instant>) {
    since.Some? ==> row.lastScanStartedAt.Some? && since.value <= row.lastScanStartedAt.value
  }

  /** An unfinished scan has its marker, and its window joins the last completed scan. */
  ghost predicate SoleScan(world: World, a: AccountId) {
    var row, chain := RowOf(world.db, a), ChainOf(world, a);
    Resumable(world.db, a) ==>
      && row.scanStartedAt.Some? && chain != []
      && (a !in world.restarts ==> row.scanStartedAt.value <= chain[0].fetchedAt)
      && WindowJoins(row, chain[0].since)
  }

  /** What a pass that owns its row and opens a scan may rely on. */
  ghost predicate SolePass(world: World, pass: Pass) {
    var row := RowOf(world.db, pass.account);
    pass.purpose.History? && !pass.plan.mode.ContinueScan? ==>
      row.scanStartedAt.Some? && row.scanStartedAt.value <= pass.readyAt && WindowJoins(row, pass.plan.since)
  }

  ghost predicate SoleInv(world: World) {
    && (forall a :: SoleScan(world, a))
    && (forall o | o in world.passes && Owns(world.db, o, world.passes[o].account) :: SolePass(world, world.passes[o]))
  }

  lemma SameHistorySole(before: World, after: World, a: AccountId)
    requires SoleScan(before, a) && SameHistory(before, after, a)
    ensures SoleScan(after, a)
    ensures forall pass: Pass | pass.account == a :: SolePass(before, pass) ==> SolePass(after, pass)
  {
  }

  lemma ClaimSole(world: World, step: Step)
    requires step.ClaimStep? && SoleScan(world, step.a)
    ensures SoleScan(TakeClaim(world, step), step.a)
    ensures step.owner in TakeClaim(world, step).passes ==>
      SolePass(TakeClaim(world, step), TakeClaim(world, step).passes[step.owner])
  {
    hide SourceBusy;
  }

  /** The chain a taken page extends joins the last completed scan. */
  lemma TakenJoins(world: World, pass: Pass, step: Step)
    requires PageTaken(world, pass, step) && AccountScan(world, pass.account) && SoleScan(world, pass.account)
    requires SolePass(world, pass)
    ensures var a, row, chain := pass.account, RowOf(world.db, pass.account),
                                 NewChain(world, pass.account, pass.plan.mode, step.page);
            && WindowJoins(row, chain[0].since)
            && ((pass.plan.mode.ContinueScan? ==> a !in world.restarts) ==>
                  row.scanStartedAt.Some? && row.scanStartedAt.value <= chain[0].fetchedAt)
            && (pass.plan.mode.ContinueScan? ==>
                  Resumable(world.db, a) && ChainOf(world, a) != [] && chain[0] == ChainOf(world, a)[0])
  {
    hide CommitPage, Linked, Returned, FetchedBy, Stores;
    TakenWrites(world, pass, step);
    PageExtendsChain(world, pass.account, pass.plan.mode, Bound(pass.plan.since), PAGE_SIZE, step.before, step.page);
  }

  lemma PageSole(world: World, pass: Pass, step: Step)
    requires PageTaken(world, pass, step) && AccountScan(world, pass.account) && SoleScan(world, pass.account)
    requires SolePass(world, pass) && PassScan(world, pass)
    ensures SoleScan(Act(world, pass, step), pass.account)
    ensures SolePass(Act(world, pass, step), Act(world, pass, step).passes[step.owner])
  {
    hide CommitPage, StreamRefusal, Act, AccountScan;
    TakenJoins(world, pass, step);
    TakenWrites(world, pass, step);
    TakenLands(world, pass, step);
  }

  lemma StepSoleScan(world: World, at: Instant, step: Step, a: AccountId)
    requires ScanInv(world) && SoleInv(world) && !step.OtherPageStep?
    ensures SoleScan(Next(world, at, step), a)
  {
    hide AccountScan, SoleScan, SolePass, PassScan, SameHistory, PageTaken, Act, TakeClaim, Aside;
    var later := world.(now := Max(world.now, at));
    assert SoleScan(world, a);
    LaterSameHistory(world, at, a);
    SameHistorySole(world, later, a);
    if step.ClaimStep? {
      if step.a == a { ClaimSole(later, step); }
      else { ClaimLeavesOthers(later, step, a); SameHistorySole(later, Next(world, at, step), a); }
    } else if !step.PageStep? {
      OtherStepsSameHistory(world, at, step, a);
      SameHistorySole(world, Next(world, at, step), a);
    } else if step.owner in world.passes {
      var pass := world.passes[step.owner];
      if a == pass.account && PageTaken(later, pass, step) {
        TakenSole(world, at, step);
      } else {
        if a != pass.account { PageLeavesOthers(later, pass, step, a); } else { PageRefusedSame(later, pass, step, a); }
        SameHistorySole(later, Act(later, pass, step), a);
      }
    }
  }

  lemma TakenSole(world: World, at: Instant, step: Step)
    requires ScanInv(world) && SoleInv(world) && CommitsPage(world, at, step)
    ensures var pass, later := world.passes[step.owner], world.(now := Max(world.now, at));
            && SoleScan(Act(later, pass, step), pass.account)
            && SolePass(Act(later, pass, step), Act(later, pass, step).passes[step.owner])
            && AccountScan(later, pass.account) && SoleScan(later, pass.account)
            && SolePass(later, pass) && PassScan(later, pass)
  {
    hide AccountScan, SoleScan, SolePass, PassScan, SameHistory, CommitPage, Act, Stores;
    var pass, later := world.passes[step.owner], world.(now := Max(world.now, at));
    TakenWrites(later, pass, step);
    TakenLands(later, pass, step);
    assert AccountScan(world, pass.account) && SoleScan(world, pass.account);
    assert PassScan(world, pass) && SolePass(world, pass);
    LaterSameHistory(world, at, pass.account);
    SameHistoryKeeps(iset{}, world, later, pass.account);
    SameHistorySole(world, later, pass.account);
    SamePassScan(world, later, pass);
    PageSole(later, pass, step);
  }

  lemma SamePassScan(before: World, after: World, pass: Pass)
    requires PassScan(before, pass) && SameHistory(before, after, pass.account)
    ensures PassScan(after, pass)
  {
  }

  lemma StepSolePass(world: World, at: Instant, step: Step, o: Owner)
    requires ScanInv(world) && SoleInv(world) && !step.OtherPageStep?
    requires o in Next(world, at, step).passes
    requires Owns(Next(world, at, step).db, o, Next(world, at, step).passes[o].account)
    ensures SolePass(Next(world, at, step), Next(world, at, step).passes[o])
  {
    hide AccountScan, SoleScan, PassScan, SameHistory, PageTaken, Act, TakeClaim, Aside, SolePass;
    var after, later := Next(world, at, step), world.(now := Max(world.now, at));
    if Outside(step) || step.owner != o {
      OthersLeaveOwned(world, at, step, o);
      OthersSameHistory(world, at, step, o);
      assert SoleScan(world, world.passes[o].account) && SolePass(world, world.passes[o]);
      SameHistorySole(world, after, world.passes[o].account);
    } else if step.ClaimStep? {
      assert SoleScan(world, step.a);
      LaterSameHistory(world, at, step.a);
      SameHistorySole(world, later, step.a);
      ClaimSole(later, step);
    } else if CommitsPage(world, at, step) {
      TakenSole(world, at, step);
    } else {
      LaterSole(world, later);
      OwnSole(later, step);
    }
  }

  lemma LaterSole(world: World, later: World)
    requires SoleInv(world) && later == world.(now := later.now)
    ensures forall o | o in later.passes && Owns(later.db, o, later.passes[o].account) ::
      SolePass(later, later.passes[o])
  {
  }

  lemma OwnSole(world: World, step: Step)
    requires !step.ClaimStep? && !Outside(step) && step.owner in world.passes
    requires step.PageStep? ==> !PageTaken(world, world.passes[step.owner], step)
    requires forall o | o in world.passes && Owns(world.db, o, world.passes[o].account) ::
      SolePass(world, world.passes[o])
    requires var after := Act(world, world.passes[step.owner], step);
             step.owner in after.passes && Owns(after.db, step.owner, after.passes[step.owner].account)
    ensures SolePass(Act(world, world.passes[step.owner], step),
                     Act(world, world.passes[step.owner], step).passes[step.owner])
  {
    hide Act, PageTaken;
    var pass := world.passes[step.owner];
    OwnPassOwned(world, step);
    assert SolePass(world, pass);
    if step.PageStep? { PageRefusedSame(world, pass, step, pass.account); }
    else { ActSameHistory(world, pass, step, pass.account); }
    OwnPlanKept(world, pass, step);
  }

  lemma StepKeepsSole(world: World, at: Instant, step: Step)
    requires ScanInv(world) && SoleInv(world) && !step.OtherPageStep?
    ensures SoleInv(Next(world, at, step))
  {
    hide Next, SoleScan, SolePass, ScanInv;
    var after := Next(world, at, step);
    forall a ensures SoleScan(after, a) { StepSoleScan(world, at, step, a); }
    forall o | o in after.passes && Owns(after.db, o, after.passes[o].account)
      ensures SolePass(after, after.passes[o]) {
      StepSolePass(world, at, step, o);
    }
  }

  lemma {:induction false} RunKeepsSole(world: World, events: seq<Event>, n: nat)
    requires ScanInv(world) && SoleInv(world) && n <= |events| && SoleWriter(events, n)
    ensures ScanInv(Run(world, events[..n])) && SoleInv(Run(world, events[..n]))
  {
    hide ScanInv, SoleInv, Run, Next;
    if n == 0 {
      RunNone(world, events);
    } else {
      RunKeepsSole(world, events, n - 1);
      RunNext(world, events, n);
      StepKeepsScan(Run(world, events[..n - 1]), events[n - 1].at, events[n - 1].step);
      StepKeepsSole(Run(world, events[..n - 1]), events[n - 1].at, events[n - 1].step);
    }
  }

  /** The page completes its scan under a marker no newer than the first page of that scan. */
  ghost predicate MarkerTimely(world: World, at: Instant, step: Step) {
    CommitsPage(world, at, step) && step.page.next.None? ==>
      var pass := world.passes[step.owner];
      && RowOf(world.db, pass.account).scanStartedAt.Some?
      && RowOf(world.db, pass.account).scanStartedAt.value
           <= NewChain(world, pass.account, pass.plan.mode, step.page)[0].fetchedAt
  }

  /** The marker is timely, and the window joins what the row itself records. */
  ghost predicate JoinsItsRow(world: World, at: Instant, step: Step) {
    && MarkerTimely(world, at, step)
    && (CommitsPage(world, at, step) && step.page.next.None? ==>
          var pass := world.passes[step.owner];
          WindowJoins(RowOf(world.db, pass.account),
                      NewChain(world, pass.account, pass.plan.mode, step.page)[0].since))
  }

  lemma JoiningIsFitting(world: World, at: Instant, step: Step)
    requires JoinsItsRow(world, at, step) && forall a :: Reached(world, a)
    ensures MarkerFits(world, at, step)
  {
    hide PageTaken;
    if CommitsPage(world, at, step) { assert Reached(world, world.passes[step.owner].account); }
  }

  /** In a run of the service alone a marker fits exactly when it is timely. */
  lemma SoleFits(world: World, at: Instant, step: Step)
    requires ScanInv(world) && SoleInv(world) && forall a :: Reached(world, a)
    ensures MarkerFits(world, at, step) <==> MarkerTimely(world, at, step)
  {
    hide PageTaken, ScanInv, SoleInv;
    if CommitsPage(world, at, step) {
      var pass, later := world.passes[step.owner], world.(now := Max(world.now, at));
      TakenUnderMarker(world, at, step);
      TakenSole(world, at, step);
      TakenJoins(later, pass, step);
      assert NewChain(later, pass.account, pass.plan.mode, step.page)
        == NewChain(world, pass.account, pass.plan.mode, step.page);
      if MarkerTimely(world, at, step) { JoiningIsFitting(world, at, step); }
    }
  }

  ghost predicate MarkersTimely(world: World, events: seq<Event>, n: nat)
    requires n <= |events|
  {
    forall i | 0 <= i < n :: MarkerTimely(Run(world, events[..i]), events[i].at, events[i].step)
  }

  ghost predicate AllJoin(world: World, events: seq<Event>, n: nat)
    requires n <= |events|
  {
    forall i | 0 <= i < n :: JoinsItsRow(Run(world, events[..i]), events[i].at, events[i].step)
  }

  lemma AllReached(world: World, events: seq<Event>, n: nat)
    requires ScanInv(world) && (forall a :: Reached(world, a)) && n <= |events| && MarkersFit(world, events, n)
    ensures forall a :: Reached(Run(world, events[..n]), a)
  {
    forall a ensures Reached(Run(world, events[..n]), a) { ReachedHolds(world, events, n, a); }
  }

  /** The check on the row alone is enough in every run, whoever pages: no scan that passes it loses anything. */
  lemma {:induction false} JoiningIsEnough(accounts: set<AccountId>, problems: map<Key, bool>, start: Instant,
                                           events: seq<Event>, n: nat)
    requires n <= |events| && AllJoin(Fresh(accounts, problems, start), events, n)
    ensures MarkersFit(Fresh(accounts, problems, start), events, n)
  {
    var world := Fresh(accounts, problems, start);
    hide Run, MarkerFits, JoinsItsRow;
    if n > 0 {
      JoiningIsEnough(accounts, problems, start, events, n - 1);
      FreshScan(accounts, problems, start);
      AllReached(world, events, n - 1);
      var before, last := Run(world, events[..n - 1]), events[n - 1];
      assert JoinsItsRow(before, last.at, last.step);
      hide Reached, ScanInv;
      JoiningIsFitting(before, last.at, last.step);
    }
  }

  lemma {:induction false} SoleMarkers(world: World, events: seq<Event>, n: nat)
    requires ScanInv(world) && SoleInv(world) && (forall a :: Reached(world, a))
    requires n <= |events| && SoleWriter(events, n)
    ensures MarkersFit(world, events, n) <==> MarkersTimely(world, events, n)
  {
    hide Run, MarkerFits, MarkerTimely, Reached, ScanInv, SoleInv;
    if n > 0 {
      SoleMarkers(world, events, n - 1);
      if MarkersFit(world, events, n - 1) {
        RunKeepsSole(world, events, n - 1);
        AllReached(world, events, n - 1);
        SoleFits(Run(world, events[..n - 1]), events[n - 1].at, events[n - 1].step);
      }
    }
  }

  /**
   * When nobody pages the stream but the service, the condition needs no other scan: a completing page
   * fits exactly when its marker is no newer than the first page of its own scan.
   */
  lemma NoGapWithoutOtherPages(accounts: set<AccountId>, problems: map<Key, bool>, start: Instant, events: seq<Event>,
                               n: nat)
    requires n <= |events| && SoleWriter(events, n)
    ensures NeverAGap(Fresh(accounts, problems, start), events, n) <==>
      MarkersTimely(Fresh(accounts, problems, start), events, n)
  {
    FreshScan(accounts, problems, start);
    NoHistoryGapExactlyWhen(accounts, problems, start, events, n);
    SoleMarkers(Fresh(accounts, problems, start), events, n);
  }

  // ---- A rule a caller can check before the claim ---------------------------------------------

  /** No claim resumes an old scan before a requested reconciliation committed its first page. */
  ghost predicate RestartFirst(world: World, step: Step) {
    step.ClaimStep? && step.purpose == History(false) && Resumable(world.db, step.a) ==> step.a !in world.restarts
  }

  ghost predicate RestartsFirst(world: World, events: seq<Event>, n: nat)
    requires n <= |events|
  {
    forall i | 0 <= i < n :: RestartFirst(Run(world, events[..i]), events[i].step)
  }

  /** No pass that owns its row resumes a scan that a reconciliation is to replace. */
  ghost predicate NoEarlyResume(world: World) {
    forall o | o in world.passes && Owns(world.db, o, world.passes[o].account)
      && world.passes[o].purpose.History? && world.passes[o].plan.mode.ContinueScan?
      && Resumable(world.db, world.passes[o].account) :: world.passes[o].account !in world.restarts
  }

  lemma StepNoEarlyResume(world: World, at: Instant, step: Step)
    requires NoEarlyResume(world) && RestartFirst(world, step) && !step.OtherPageStep?
    ensures NoEarlyResume(Next(world, at, step))
  {
    var after, later := Next(world, at, step), world.(now := Max(world.now, at));
    forall o | o in after.passes && Owns(after.db, o, after.passes[o].account)
      && after.passes[o].purpose.History? && after.passes[o].plan.mode.ContinueScan?
      && Resumable(after.db, after.passes[o].account)
      ensures after.passes[o].account !in after.restarts
    {
      if Outside(step) || step.owner != o {
        OthersLeaveOwned(world, at, step, o);
        OthersSameHistory(world, at, step, o);
      } else if step.ClaimStep? {
        ClaimResumes(later, step);
      } else {
        OwnPassOwned(later, step);
        OwnNoEarlyResume(later, step);
      }
    }
  }

  lemma ClaimResumes(world: World, step: Step)
    requires step.ClaimStep? && RestartFirst(world, step) && step.owner in TakeClaim(world, step).passes
    requires var pass := TakeClaim(world, step).passes[step.owner];
             pass.purpose.History? && pass.plan.mode.ContinueScan?
    requires Owns(TakeClaim(world, step).db, step.owner, TakeClaim(world, step).passes[step.owner].account)
    ensures TakeClaim(world, step).passes[step.owner].account !in TakeClaim(world, step).restarts
  {
  }

  lemma OwnNoEarlyResume(world: World, step: Step)
    requires !step.ClaimStep? && !Outside(step) && step.owner in world.passes
    requires Owns(world.db, step.owner, world.passes[step.owner].account) && NoEarlyResume(world)
    requires var after := Act(world, world.passes[step.owner], step);
             && step.owner in after.passes && after.passes[step.owner].account == world.passes[step.owner].account
             && after.passes[step.owner].purpose.History? && after.passes[step.owner].plan.mode.ContinueScan?
             && Resumable(after.db, after.passes[step.owner].account)
    ensures world.passes[step.owner].account !in Act(world, world.passes[step.owner], step).restarts
  {
    var pass := world.passes[step.owner];
    if step.PageStep? {
      if !PageTaken(world, pass, step) {
        PageRefusedSame(world, pass, step, pass.account);
        OwnPlanKept(world, pass, step);
      } else if pass.plan.mode.ContinueScan? {
        ContinuedWasResumable(world, pass, step);
      }
    } else {
      ActSameHistory(world, pass, step, pass.account);
      OwnPlanKept(world, pass, step);
    }
  }

  lemma ContinuedWasResumable(world: World, pass: Pass, step: Step)
    requires PageTaken(world, pass, step) && pass.plan.mode.ContinueScan?
    ensures Resumable(world.db, pass.account)
  {
  }

  lemma NoEarlyResumeTimely(world: World, at: Instant, step: Step)
    requires ScanInv(world) && SoleInv(world) && NoEarlyResume(world)
    ensures MarkerTimely(world, at, step)
  {
    hide PageTaken, ScanInv, SoleInv;
    if CommitsPage(world, at, step) {
      var pass, later := world.passes[step.owner], world.(now := Max(world.now, at));
      TakenUnderMarker(world, at, step);
      TakenSole(world, at, step);
      TakenJoins(later, pass, step);
    }
  }

  lemma {:induction false} RunNoEarlyResume(world: World, events: seq<Event>, n: nat)
    requires NoEarlyResume(world) && n <= |events| && RestartsFirst(world, events, n) && SoleWriter(events, n)
    ensures NoEarlyResume(Run(world, events[..n]))
  {
    hide Run, Next, NoEarlyResume, RestartFirst;
    if n == 0 {
      RunNone(world, events);
    } else {
      RunNoEarlyResume(world, events, n - 1);
      RunNext(world, events, n);
      assert RestartFirst(Run(world, events[..n - 1]), events[n - 1].step);
      StepNoEarlyResume(Run(world, events[..n - 1]), events[n - 1].at, events[n - 1].step);
    }
  }

  /** When every resume waits for a reserved reconciliation, every marker is timely. */
  lemma RestartsFirstIsEnough(accounts: set<AccountId>, problems: map<Key, bool>, start: Instant, events: seq<Event>,
                              n: nat)
    requires n <= |events| && SoleWriter(events, n) && RestartsFirst(Fresh(accounts, problems, start), events, n)
    ensures MarkersTimely(Fresh(accounts, problems, start), events, n)
  {
    var world := Fresh(accounts, problems, start);
    FreshScan(accounts, problems, start);
    forall i | 0 <= i < n ensures MarkerTimely(Run(world, events[..i]), events[i].at, events[i].step) {
      assert RestartsFirst(world, events, i);
      RunKeepsSole(world, events, i);
      RunNoEarlyResume(world, events, i);
      NoEarlyResumeTimely(Run(world, events[..i]), events[i].at, events[i].step);
    }
  }

  /**
   * In particular no submission up to a recorded scan start is missing in any run of the service alone
   * whose resumes wait for a reserved reconciliation.
   */
  lemma NoHistoryGap(platform: iset<Submission>, accounts: set<AccountId>, problems: map<Key, bool>, start: Instant,
                     events: seq<Event>, a: AccountId)
    requires HonestUntil(platform, Fresh(accounts, problems, start), events, |events|)
    requires SoleWriter(events, |events|) && RestartsFirst(Fresh(accounts, problems, start), events, |events|)
    ensures var db := Run(Fresh(accounts, problems, start), events).db;
            RowOf(db, a).lastScanStartedAt.Some? ==> Covered(platform, db, a, RowOf(db, a).lastScanStartedAt.value)
  {
    var world := Fresh(accounts, problems, start);
    RestartsFirstIsEnough(accounts, problems, start, events, |events|);
    NoGapWithoutOtherPages(accounts, problems, start, events, |events|);
    assert events[..|events|] == events;
    assert Watermark(platform, Run(world, events[..|events|]), a);
  }
}
