/** Concrete runs in which the history loses a submission, and one in which it does not although the row suggests it. */
module LuoguGaps {
  import opened Prelude
  import opened LuoguSyncState
  import opened SyncPages
  import opened LuoguSync
  import opened LuoguLease
  import opened LuoguHistory
  import opened LuoguSoleWriter

  // ---- What happens without the restart hypothesis --------------------------------------------

  const FIRST_PAGE := Page(None, None, [], Some(1), 1)
  const LAST_PAGE := Page(Some(1), None, [], None, 21)
  const LATE := Submission(0, 7, 3, 5)

  /** A scan is interrupted, a reconciliation is reserved but never reads, and a resume finishes the old scan. */
  const RESUMED_TOO_EARLY: seq<Event> := [
    Event(0, ClaimStep(1, 7, History(false), 0, 5)),
    Event(0, RoomStep(1)),
    Event(1, PageStep(1, None, FIRST_PAGE, 5)),
    Event(10, ClaimStep(1, 7, History(true), 10, 5)),
    Event(20, ClaimStep(2, 7, History(false), 20, 5)),
    Event(20, RoomStep(2)),
    Event(21, PageStep(2, Some(Checkpoint(Some(1), None, 1)), LAST_PAGE, 5))]

  ghost predicate OldChain(world: World) {
    ChainOf(world, 7) == [] || ChainOf(world, 7)[0].fetchedAt == 1
  }

  const W0 := Fresh({7}, map[], 0)
  const R1 := SyncRow(Backfill, false, Some(0), None, [], [], Some(1), Some(5))
  const R3 := SyncRow(Backfill, false, Some(0), None, [], [], Some(1), Some(6))
  const R4 := SyncRow(Reconcile, false, Some(10), None, [], [], Some(1), Some(15))
  const R5 := SyncRow(Reconcile, false, Some(10), None, [], [], Some(2), Some(25))
  const R7 := SyncRow(Incremental, true, None, Some(10), [], [], Some(2), Some(26))
  const P1 := Pass(7, History(false), Plan(StartScan, None), 0, false, None, [])
  const P3 := Pass(7, History(false), Plan(ContinueScan, None), 1, false, None, [])
  const P4 := Pass(7, History(true), Plan(RestartScan, None), 10, false, None, [])
  const P5 := Pass(7, History(false), Plan(ContinueScan, None), 20, false, None, [])
  const P7 := Pass(7, Drain, Plan(ContinueScan, None), 21, false, None, [])

  function Stored(row: SyncRow, checkpoints: map<AccountId, Checkpoint>): Db {
    Db({7}, map[7 := row], checkpoints, {}, map[], map[])
  }

  const HALF := map[7 := Checkpoint(Some(1), None, 1)]
  const W1 := World(Stored(R1, map[]), 0, map[1 := P1], map[], {}, map[])
  const W2 := World(Stored(R1, map[]), 0, map[1 := P1.(roomChecked := true)], map[], {}, map[])
  const W3 := World(Stored(R3, HALF), 1, map[1 := P3], map[7 := [FIRST_PAGE]], {}, map[])
  const W4 := World(Stored(R4, HALF), 10, map[1 := P4], map[7 := [FIRST_PAGE]], {7}, map[])
  const W5 := World(Stored(R5, HALF), 20, map[1 := P4, 2 := P5], map[7 := [FIRST_PAGE]], {7}, map[])
  const W6 := World(Stored(R5, HALF), 20, map[1 := P4, 2 := P5.(roomChecked := true)], map[7 := [FIRST_PAGE]], {7},
                    map[])
  const W7 := World(Stored(R7, map[7 := Checkpoint(None, None, 21)]), 21, map[1 := P4, 2 := P7],
                    map[7 := [FIRST_PAGE, LAST_PAGE]], {7}, map[7 := 1])

  lemma FirstClaim()
    ensures Next(W0, 0, RESUMED_TOO_EARLY[0].step) == W1
  {
  }

  lemma FirstRoom()
    ensures Next(W1, 0, RESUMED_TOO_EARLY[1].step) == W2
  {
  }

  lemma FirstPage()
    ensures Next(W2, 1, RESUMED_TOO_EARLY[2].step) == W3
  {
    assert Missing([], Visible(W2.db)) == [];
    assert (set s | s in FIRST_PAGE.items) == {};
    assert [] + [FIRST_PAGE] == [FIRST_PAGE];
    assert CommitPage(W2.db, 1, 7, P1.plan, None, FIRST_PAGE, 5, 1) == PageCommitted(W3.db);
  }

  lemma Reservation()
    ensures Next(W3, 10, RESUMED_TOO_EARLY[3].step) == W4
  {
  }

  lemma EarlyResume()
    ensures Next(W4, 20, RESUMED_TOO_EARLY[4].step) == W5
  {
  }

  lemma SecondRoom()
    ensures Next(W5, 20, RESUMED_TOO_EARLY[5].step) == W6
  {
  }

  lemma SecondCommit()
    ensures CommitPage(W6.db, 2, 7, P5.plan, Some(Checkpoint(Some(1), None, 1)), LAST_PAGE, 5, 21)
         == PageCommitted(W7.db)
  {
    assert Missing([], Visible(W6.db)) == [];
    assert (set s | s in LAST_PAGE.items) == {};
  }

  lemma SecondPage()
    ensures Next(W6, 21, RESUMED_TOO_EARLY[6].step) == W7
  {
    hide CommitPage;
    SecondCommit();
    assert [FIRST_PAGE] + [LAST_PAGE] == [FIRST_PAGE, LAST_PAGE];
  }

  /** One event further along the run. */
  lemma Reach(n: nat, from: World, to: World)
    requires n < |RESUMED_TOO_EARLY| && Run(W0, RESUMED_TOO_EARLY[..n]) == from
    requires Next(from, RESUMED_TOO_EARLY[n].at, RESUMED_TOO_EARLY[n].step) == to
    ensures Run(W0, RESUMED_TOO_EARLY[..n + 1]) == to
  {
    RunNext(W0, RESUMED_TOO_EARLY, n + 1);
  }

  lemma RunStates()
    ensures forall n | 0 <= n <= 7 :: OldChain(Run(W0, RESUMED_TOO_EARLY[..n]))
    ensures Run(W0, RESUMED_TOO_EARLY[..4]) == W4 && Run(W0, RESUMED_TOO_EARLY) == W7
  {
    hide Next;
    assert RESUMED_TOO_EARLY[..0] == [] && RESUMED_TOO_EARLY[..7] == RESUMED_TOO_EARLY;
    FirstClaim(); Reach(0, W0, W1);
    FirstRoom(); Reach(1, W1, W2);
    FirstPage(); Reach(2, W2, W3);
    Reservation(); Reach(3, W3, W4);
    EarlyResume(); Reach(4, W4, W5);
    SecondRoom(); Reach(5, W5, W6);
    SecondPage(); Reach(6, W6, W7);
    forall n | 0 <= n <= 7 ensures OldChain(Run(W0, RESUMED_TOO_EARLY[..n])) {
      assert n == 0 || n == 1 || n == 2 || n == 3 || n == 4 || n == 5 || n == 6 || n == 7;
    }
  }

  /**
   * Without the hypothesis the watermark lies: an honest platform, and yet a submission older than the
   * recorded scan start is not stored.
   */
  lemma ResumeBeforeRestartLosesHistory()
    ensures var start, platform: iset<Submission> := Fresh({7}, map[], 0), iset{LATE};
            && HonestUntil(platform, start, RESUMED_TOO_EARLY, |RESUMED_TOO_EARLY|)
            && !RestartsFirst(start, RESUMED_TOO_EARLY, |RESUMED_TOO_EARLY|)
            && RowOf(Run(start, RESUMED_TOO_EARLY).db, 7).lastScanStartedAt == Some(10)
            && !Covered(platform, Run(start, RESUMED_TOO_EARLY).db, 7, 10)
  {
    RunStates();
    hide Run;
    OldChainsAreHonest();
    MissingLate();
    assert !RestartFirst(W4, RESUMED_TOO_EARLY[4].step);
  }

  lemma OldChainsAreHonest()
    requires forall n | 0 <= n <= 7 :: OldChain(Run(W0, RESUMED_TOO_EARLY[..n]))
    ensures HonestUntil(iset{LATE}, W0, RESUMED_TOO_EARLY, 7)
  {
    hide Run;
    forall n, a | 0 <= n <= 7 ensures ReadHonestly(iset{LATE}, a, ChainOf(Run(W0, RESUMED_TOO_EARLY[..n]), a)) {
      assert OldChain(Run(W0, RESUMED_TOO_EARLY[..n]));
    }
  }

  lemma MissingLate()
    ensures !Covered(iset{LATE}, W7.db, 7, 10)
  {
    assert LATE in iset{LATE} && LATE !in W7.db.submissions;
  }

  // ---- A scan begun without the lease ----------------------------------------------------------

  const BEGUN := Page(None, Some(50), [], Some(1), 110)
  const ENDED := Page(Some(1), Some(50), [], None, 210)
  const EARLY := Submission(0, 7, 3, 20)

  /** A marker is set, the pass crashes, the page route starts a bounded scan, and a resume finishes it. */
  function FinishedForAnother(before: Option<Checkpoint>): seq<Event> {
    [Event(100, ClaimStep(1, 7, History(false), 100, 5)),
     Event(110, OtherPageStep(7, StartScan, Bound(Some(50)), 50, before, BEGUN)),
     Event(200, ClaimStep(2, 7, History(false), 200, 50)),
     Event(200, RoomStep(2)),
     Event(210, PageStep(2, Some(Checkpoint(Some(1), Some(50), 110)), ENDED, 50))]
  }

  /** What the stream held before: nothing, or a full scan somebody walked to its end. */
  datatype Earlier = Earlier(checkpoints: map<AccountId, Checkpoint>, chains: map<AccountId, seq<Page>>,
                             covered: map<AccountId, Instant>)

  const UNREAD := Earlier(map[], map[], map[])
  const WHOLE := Page(None, None, [], None, 60)
  const READ := Earlier(map[7 := Checkpoint(None, None, 60)], map[7 := [WHOLE]], map[7 := 60])

  predicate AtRest(earlier: Earlier) {
    earlier == UNREAD || earlier == READ
  }

  function EarlierCheckpoint(earlier: Earlier): Option<Checkpoint> {
    if 7 in earlier.checkpoints then Some(earlier.checkpoints[7]) else None
  }

  function World0(earlier: Earlier, now: Instant): World {
    World(Db({7}, map[], earlier.checkpoints, {}, map[], map[]), now, map[], earlier.chains, {}, earlier.covered)
  }

  const MARKED := SyncRow(Backfill, false, Some(100), None, [], [], Some(1), Some(105))
  const RESUMED := SyncRow(Backfill, false, Some(100), None, [], [], Some(2), Some(250))
  const FINISHED := SyncRow(Incremental, true, None, Some(100), [], [], Some(2), Some(260))
  const OPENING := Pass(7, History(false), Plan(StartScan, None), 100, false, None, [])
  const RESUMING := Pass(7, History(false), Plan(ContinueScan, Some(50)), 200, false, None, [])
  const DONE := Pass(7, Drain, Plan(ContinueScan, Some(50)), 210, false, None, [])

  function Marked(earlier: Earlier): World {
    World0(earlier, 100).(db := World0(earlier, 100).db.(rows := map[7 := MARKED]), passes := map[1 := OPENING])
  }

  function Begun(earlier: Earlier): World {
    World(Db({7}, map[7 := MARKED], map[7 := Checkpoint(Some(1), Some(50), 110)], {}, map[], map[]), 110,
          map[1 := OPENING], map[7 := [BEGUN]], {}, earlier.covered)
  }

  function Resumed(earlier: Earlier, checked: bool): World {
    Begun(earlier).(db := Begun(earlier).db.(rows := map[7 := RESUMED]), now := 200,
                    passes := map[1 := OPENING, 2 := RESUMING.(roomChecked := checked)])
  }

  function Finished(earlier: Earlier): World {
    World(Db({7}, map[7 := FINISHED], map[7 := Checkpoint(None, Some(50), 210)], {}, map[], map[]), 210,
          map[1 := OPENING, 2 := DONE], map[7 := [BEGUN, ENDED]], {},
          if earlier == READ then map[7 := 110] else map[])
  }

  lemma Mark(earlier: Earlier, now: Instant)
    requires AtRest(earlier) && now <= 100
    ensures Next(World0(earlier, now), 100, ClaimStep(1, 7, History(false), 100, 5)) == Marked(earlier)
  {
    assert map[7 := MARKED] == map[][7 := MARKED];
  }

  lemma Begin(earlier: Earlier)
    requires AtRest(earlier)
    ensures Next(Marked(earlier), 110,
                 OtherPageStep(7, StartScan, Bound(Some(50)), 50, EarlierCheckpoint(earlier), BEGUN)) == Begun(earlier)
  {
    assert (set s | s in BEGUN.items) == {};
    assert [] + [BEGUN] == [BEGUN];
    assert earlier.checkpoints[7 := Checkpoint(Some(1), Some(50), 110)]
      == map[7 := Checkpoint(Some(1), Some(50), 110)];
    assert earlier.chains[7 := [BEGUN]] == map[7 := [BEGUN]];
  }

  lemma Resume(earlier: Earlier)
    requires AtRest(earlier)
    ensures Next(Begun(earlier), 200, ClaimStep(2, 7, History(false), 200, 50)) == Resumed(earlier, false)
    ensures Next(Resumed(earlier, false), 200, RoomStep(2)) == Resumed(earlier, true)
  {
  }

  lemma FinishCommits(earlier: Earlier)
    requires AtRest(earlier)
    ensures CommitPage(Resumed(earlier, true).db, 2, 7, RESUMING.plan, Some(Checkpoint(Some(1), Some(50), 110)), ENDED,
                       50, 210)
         == PageCommitted(Finished(earlier).db)
  {
    assert Missing([], Visible(Resumed(earlier, true).db)) == [];
    assert (set s | s in ENDED.items) == {};
  }

  lemma Finish(earlier: Earlier)
    requires AtRest(earlier)
    ensures Next(Resumed(earlier, true), 210, PageStep(2, Some(Checkpoint(Some(1), Some(50), 110)), ENDED, 50))
         == Finished(earlier)
  {
    hide CommitPage;
    FinishCommits(earlier);
    assert [BEGUN] + [ENDED] == [BEGUN, ENDED];
  }

  /** The states a run passes through whose events after the first `k` are these. */
  lemma FinishedStates(start: World, events: seq<Event>, k: nat, earlier: Earlier, now: Instant)
    requires AtRest(earlier) && now <= 100 && |events| == k + 5
    requires Run(start, events[..k]) == World0(earlier, now)
    requires events[k..] == FinishedForAnother(EarlierCheckpoint(earlier))
    ensures Run(start, events[..k + 1]) == Marked(earlier)
    ensures Run(start, events[..k + 2]) == Begun(earlier)
    ensures Run(start, events[..k + 3]) == Resumed(earlier, false)
    ensures Run(start, events[..k + 4]) == Resumed(earlier, true)
    ensures Run(start, events) == Run(start, events[..k + 5]) == Finished(earlier)
  {
    hide Run, Next;
    assert events[..k + 5] == events;
    var tail := FinishedForAnother(EarlierCheckpoint(earlier));
    assert events[k] == tail[0] && events[k + 1] == tail[1] && events[k + 2] == tail[2] && events[k + 3] == tail[3]
      && events[k + 4] == tail[4];
    RunNext(start, events, k + 1); Mark(earlier, now);
    RunNext(start, events, k + 2); Begin(earlier);
    RunNext(start, events, k + 3); Resume(earlier);
    RunNext(start, events, k + 4);
    RunNext(start, events, k + 5); Finish(earlier);
  }

  const BOUNDED_RUN: seq<Event> := FinishedForAnother(None)

  lemma BoundedStates()
    ensures var start := Fresh({7}, map[], 0);
            && Run(start, BOUNDED_RUN[..0]) == start && Run(start, BOUNDED_RUN[..1]) == Marked(UNREAD)
            && Run(start, BOUNDED_RUN[..2]) == Begun(UNREAD) && Run(start, BOUNDED_RUN[..3]) == Resumed(UNREAD, false)
            && Run(start, BOUNDED_RUN[..4]) == Resumed(UNREAD, true)
            && Run(start, BOUNDED_RUN[..5]) == Run(start, BOUNDED_RUN) == Finished(UNREAD)
  {
    hide Next;
    assert BOUNDED_RUN[..0] == [] && BOUNDED_RUN[0..] == BOUNDED_RUN;
    RunNone(Fresh({7}, map[], 0), BOUNDED_RUN);
    hide Run;
    FinishedStates(Fresh({7}, map[], 0), BOUNDED_RUN, 0, UNREAD, 0);
  }

  /** Every scan of the account was asked for nothing before 50. */
  ghost predicate Bounded(world: World) {
    ChainOf(world, 7) != [] ==> ChainOf(world, 7)[0].since == Some(50)
  }

  lemma EarlyIsHonest(world: World, a: AccountId)
    requires Bounded(world)
    ensures ReadHonestly(iset{EARLY}, a, ChainOf(world, a))
  {
    hide LinkedAt, Returned;
  }

  lemma StatesAreBounded()
    ensures Bounded(Fresh({7}, map[], 0)) && Bounded(Marked(UNREAD)) && Bounded(Begun(UNREAD))
    ensures Bounded(Resumed(UNREAD, false)) && Bounded(Resumed(UNREAD, true)) && Bounded(Finished(UNREAD))
  {
  }

  lemma BoundedIsHonest()
    ensures HonestUntil(iset{EARLY}, Fresh({7}, map[], 0), BOUNDED_RUN, 5)
  {
    var start := Fresh({7}, map[], 0);
    hide Run, Marked, Begun, Resumed, Finished;
    BoundedStates();
    StatesAreBounded();
    hide ReadHonestly, Bounded, Fresh;
    forall i, a | 0 <= i <= 5 ensures ReadHonestly(iset{EARLY}, a, ChainOf(Run(start, BOUNDED_RUN[..i]), a)) {
      assert i == 0 || i == 1 || i == 2 || i == 3 || i == 4 || i == 5;
      EarlyIsHonest(Run(start, BOUNDED_RUN[..i]), a);
    }
  }

  lemma OnlyPagesComplete(world: World, at: Instant, step: Step)
    requires !step.PageStep?
    ensures MarkerTimely(world, at, step) && MarkerFits(world, at, step)
  {
  }

  lemma FinishIsTimely(earlier: Earlier)
    ensures MarkerTimely(Resumed(earlier, true), 210, FinishedForAnother(EarlierCheckpoint(earlier))[4].step)
  {
    hide PageTaken;
    assert NewChain(Resumed(earlier, true), 7, ContinueScan, ENDED)[0] == BEGUN;
  }

  /** When only the last of the events is a page of the service, it decides about all of them. */
  lemma LastDecides(start: World, events: seq<Event>, n: nat)
    requires n < |events| && forall i | 0 <= i < n :: !events[i].step.PageStep?
    ensures MarkerTimely(Run(start, events[..n]), events[n].at, events[n].step) ==> MarkersTimely(start, events, n + 1)
    ensures MarkerFits(Run(start, events[..n]), events[n].at, events[n].step) ==> MarkersFit(start, events, n + 1)
    ensures !JoinsItsRow(Run(start, events[..n]), events[n].at, events[n].step) ==> !AllJoin(start, events, n + 1)
  {
    hide Run, MarkerTimely, MarkerFits, JoinsItsRow;
    forall i | 0 <= i < n
      ensures MarkerTimely(Run(start, events[..i]), events[i].at, events[i].step)
      ensures MarkerFits(Run(start, events[..i]), events[i].at, events[i].step)
    {
      OnlyPagesComplete(Run(start, events[..i]), events[i].at, events[i].step);
    }
  }

  lemma BoundedIsTimely()
    ensures MarkersTimely(Fresh({7}, map[], 0), BOUNDED_RUN, 5)
  {
    hide Run, MarkerTimely, MarkersTimely, MarkersFit, AllJoin;
    LastDecides(Fresh({7}, map[], 0), BOUNDED_RUN, 4);
    BoundedStates();
    FinishIsTimely(UNREAD);
  }

  lemma EarlyIsMissing()
    ensures !Covered(iset{EARLY}, Finished(UNREAD).db, 7, 100)
  {
    assert EARLY in iset{EARLY} && EARLY !in Finished(UNREAD).db.submissions;
  }

  /**
   * The marker is older than the first page of the scan and the history counts as complete, and yet a
   * submission from before the bound was never asked for.
   */
  lemma AnothersBoundLosesHistory()
    ensures var start, platform: iset<Submission> := Fresh({7}, map[], 0), iset{EARLY};
            && HonestUntil(platform, start, BOUNDED_RUN, 5) && MarkersTimely(start, BOUNDED_RUN, 5)
            && RowOf(Run(start, BOUNDED_RUN).db, 7).historyComplete
            && RowOf(Run(start, BOUNDED_RUN).db, 7).lastScanStartedAt == Some(100)
            && !Covered(platform, Run(start, BOUNDED_RUN).db, 7, 100)
  {
    BoundedStates();
    hide Run, HonestUntil, MarkersTimely, Covered;
    BoundedIsHonest();
    BoundedIsTimely();
    EarlyIsMissing();
  }

  // ---- A scan that joins what another one read -------------------------------------------------

  /** The same events after a full scan by the page route. */
  const JOINED_RUN: seq<Event> :=
    [Event(60, OtherPageStep(7, StartScan, Unspecified, 50, None, WHOLE))]
      + FinishedForAnother(Some(Checkpoint(None, None, 60)))

  lemma Whole()
    ensures Next(Fresh({7}, map[], 0), 60, JOINED_RUN[0].step) == World0(READ, 60)
  {
    assert (set s | s in WHOLE.items) == {};
    assert [] + [WHOLE] == [WHOLE];
  }

  lemma JoinedStates()
    ensures var start := Fresh({7}, map[], 0);
            && Run(start, JOINED_RUN[..5]) == Resumed(READ, true) && Run(start, JOINED_RUN[..6]) == Finished(READ)
  {
    hide Next;
    var start := Fresh({7}, map[], 0);
    assert JOINED_RUN[..0] == [] && JOINED_RUN[1..] == FinishedForAnother(Some(Checkpoint(None, None, 60)));
    RunNext(start, JOINED_RUN, 1);
    Whole();
    FinishedStates(start, JOINED_RUN, 1, READ, 60);
  }

  lemma FinishJoins()
    ensures var step := FinishedForAnother(Some(Checkpoint(None, None, 60)))[4].step;
            MarkerFits(Resumed(READ, true), 210, step) && !JoinsItsRow(Resumed(READ, true), 210, step)
  {
    var step := FinishedForAnother(Some(Checkpoint(None, None, 60)))[4].step;
    FinishCommits(READ);
    hide CommitPage;
    assert NewChain(Resumed(READ, true), 7, ContinueScan, ENDED)[0] == BEGUN;
    assert CommitsPage(Resumed(READ, true), 210, step);
  }

  lemma JoinedFits()
    ensures MarkersFit(Fresh({7}, map[], 0), JOINED_RUN, 6) && !AllJoin(Fresh({7}, map[], 0), JOINED_RUN, 6)
  {
    hide Run, MarkerFits, MarkerTimely, MarkersTimely, MarkersFit, AllJoin, JoinsItsRow;
    LastDecides(Fresh({7}, map[], 0), JOINED_RUN, 5);
    JoinedStates();
    FinishJoins();
  }

  /**
   * The row records no earlier scan, so its own check fails; but somebody else's full scan reached
   * beyond the bound, and nothing is lost.
   */
  lemma AnothersScanIsJoined()
    ensures var start := Fresh({7}, map[], 0);
            && NeverAGap(start, JOINED_RUN, 6) && MarkersFit(start, JOINED_RUN, 6) && !AllJoin(start, JOINED_RUN, 6)
            && RowOf(Run(start, JOINED_RUN[..6]).db, 7).lastScanStartedAt == Some(100)
  {
    hide Run, MarkersFit, AllJoin, NeverAGap;
    JoinedStates();
    JoinedFits();
    NoHistoryGapExactlyWhen({7}, map[], 0, JOINED_RUN, 6);
  }
}
