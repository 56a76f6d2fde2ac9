/**
 * The missing-metadata backlogs: the queues stay within their bounds in every run, and no key referenced
 * by the stored history is lost but those that pages without the service's hook bring.
 */
module LuoguBacklog {
  import opened Prelude
  import opened LuoguSyncState
  import opened SyncPages
  import opened LuoguSync
  import opened LuoguLease

  /** The key's problem is stored, or some account will fetch it, or the user disposed of it. */
  ghost predicate Tracked(db: Db, key: Key) {
    || key in db.problems
    || key in db.dispositions
    || exists a | a in db.rows :: key in db.rows[a].backlog
  }

  ghost predicate AllTracked(db: Db) {
    forall s | s in db.submissions :: Tracked(db, s.key)
  }

  ghost predicate QueuesValid(db: Db) {
    forall a | a in db.rows :: ValidQueue(db.rows[a])
  }

  /** A queue that may be written over a row. */
  ghost predicate Writable(queue: seq<Key>, issues: seq<Issue>) {
    NoDuplicates(queue) && |queue| <= MAX_BACKLOG && IssueKeys(issues) <= KeySet(queue)
  }

  /** What a pass knows of its row while it owns it: its queue misses nothing of the durable one. */
  ghost predicate PassQueue(world: World, pass: Pass) {
    var row := RowOf(world.db, pass.account);
    && (pass.purpose.RepairOp? ==> pass.queue.None?)
    && (pass.queue.Some? ==>
          Writable(pass.queue.value, pass.issues) && forall k | k in row.backlog :: k in pass.queue.value)
    && (pass.roomChecked ==> pass.purpose.History? && pass.queue.None? && |row.backlog| + PAGE_SIZE <= MAX_BACKLOG)
  }

  ghost predicate BacklogInv(world: World) {
    && world.db.rows.Keys <= world.db.accounts
    && QueuesValid(world.db)
    && (forall o | o in world.passes && Owns(world.db, o, world.passes[o].account) :: PassQueue(world, world.passes[o]))
  }

  ghost predicate BacklogKept(db: Db, next: Db) {
    QueuesValid(next) && (AllTracked(db) ==> AllTracked(next))
  }

  // ---- Each transaction ----------------------------------------------------------------------

  /** A row may be rewritten when its queue stays valid and every key it drops is stored or disposed of. */
  lemma RowWriteKeeps(db: Db, a: AccountId, row: SyncRow, problems: map<Key, bool>)
    requires QueuesValid(db)
    requires ValidQueue(row) && db.problems.Keys <= problems.Keys
    requires a in db.rows ==>
      forall k | k in db.rows[a].backlog :: k in row.backlog || k in problems || k in db.dispositions
    ensures BacklogKept(db, db.(rows := db.rows[a := row], problems := problems))
  {
    var next := db.(rows := db.rows[a := row], problems := problems);
    forall s | s in next.submissions && AllTracked(db) ensures Tracked(next, s.key) {
      assert Tracked(db, s.key);
      if s.key !in problems && s.key !in db.dispositions {
        var b :| b in db.rows && s.key in db.rows[b].backlog;
        assert b in next.rows && s.key in next.rows[if b == a then a else b].backlog;
      }
    }
  }

  lemma ClaimKeeps(db: Db, owner: Owner, a: AccountId, purpose: Purpose, leaseMs: int, at: Instant)
    requires QueuesValid(db) && Claim(db, owner, a, purpose, leaseMs, at).Some?
    ensures BacklogKept(db, Claim(db, owner, a, purpose, leaseMs, at).value.0)
  {
    var row := ClaimedRow(db, a, purpose, at).0;
    assert row.backlog == RowOf(db, a).backlog && row.issues == RowOf(db, a).issues;
    RowWriteKeeps(db, a, row.Leased(owner, at + leaseMs), db.problems);
  }

  lemma LeaseWritesKeep(db: Db, owner: Owner, a: AccountId, leaseMs: int, at: Instant)
    requires QueuesValid(db)
    ensures BacklogKept(db, Release(db, owner, a))
    ensures forall next | Renew(db, owner, a, leaseMs, at) == Some(next) :: BacklogKept(db, next)
  {
    if a in db.rows {
      RowWriteKeeps(db, a, db.rows[a].Released(), db.problems);
      RowWriteKeeps(db, a, db.rows[a].Leased(owner, at + leaseMs), db.problems);
    }
  }

  lemma ItemKeeps(db: Db, owner: Owner, a: AccountId, key: Key, leaseMs: int, at: Instant)
    requires QueuesValid(db)
    ensures forall next | CommitItem(db, owner, a, key, leaseMs, at) == Some(next) :: BacklogKept(db, next)
  {
    if Queued(db, owner, a, key, at) {
      var row := db.rows[a];
      RowWriteKeeps(db, a, row.(backlog := Without(row.backlog, {key}), issues := ClearIssues(row.issues, {key}))
                              .Leased(owner, at + leaseMs), db.problems[key := true]);
    }
  }

  lemma RetryKeeps(db: Db, owner: Owner, a: AccountId, key: Key, code: nat, leaseMs: int, at: Instant)
    requires QueuesValid(db)
    ensures forall next | RecordFailedRetry(db, owner, a, key, code, leaseMs, at) == Some(next) :: BacklogKept(db, next)
  {
    if Queued(db, owner, a, key, at) {
      var row := db.rows[a];
      var issue := Issue(key, code, at, NextAttempts(row.issues, key));
      RowWriteKeeps(db, a, row.(issues := UpsertIssue(row.issues, issue)).Leased(owner, at + leaseMs), db.problems);
    }
  }

  /** The pass may write back its queue rotated, or without a head the user disposed of. */
  lemma ProgressKeeps(db: Db, owner: Owner, a: AccountId, queue: seq<Key>, issues: seq<Issue>, leaseMs: int,
                      at: Instant)
    requires QueuesValid(db) && Holds(db, owner, a, at) && Writable(queue, issues)
    requires forall k | k in db.rows[a].backlog :: k in queue || k in db.dispositions
    ensures BacklogKept(db, SaveProgress(db, owner, a, queue, issues, leaseMs, at).value)
  {
    RowWriteKeeps(db, a, db.rows[a].(backlog := queue, issues := issues).Leased(owner, at + leaseMs), db.problems);
  }

  lemma PageKeeps(db: Db, owner: Owner, a: AccountId, plan: Plan, before: Option<Checkpoint>, page: Page, leaseMs: int,
                  at: Instant)
    requires QueuesValid(db)
    requires CommitPage(db, owner, a, plan, before, page, leaseMs, at).PageCommitted?
    ensures BacklogKept(db, CommitPage(db, owner, a, plan, before, page, leaseMs, at).db)
  {
    var next := CommitPage(db, owner, a, plan, before, page, leaseMs, at).db;
    var missing := Missing(page.items, Visible(db));
    assert missing[..|missing|] == missing;
    var backlog := Enqueued(db.rows[a].backlog, missing, db.dispositions.Keys).value;
    var middle := db.(rows := next.rows);
    RowWriteKeeps(db, a, next.rows[a], db.problems);
    forall s | s in next.submissions && AllTracked(db) ensures Tracked(next, s.key) {
      if s in db.submissions {
        assert Tracked(middle, s.key);
      } else if s.key !in Visible(db) && s.key !in db.dispositions {
        assert s.key in missing;
        assert s.key in next.rows[a].backlog;
      }
    }
  }

  lemma ManageKeeps(db: Db, owner: Owner, a: AccountId, request: ManageRequest, at: Instant)
    requires QueuesValid(db) && db.rows.Keys <= db.accounts
    requires Manage(db, owner, a, request, at).Some?
    ensures BacklogKept(db, Manage(db, owner, a, request, at).value)
  {
    var next := Manage(db, owner, a, request, at).value;
    var keys := KeySet(request.keys);
    forall b | b in next.rows ensures ValidQueue(next.rows[b]) {
      var cleaned := CleanedRow(db.rows[b], keys);
      assert ValidQueue(db.rows[b]);
      assert ValidQueue(cleaned);
    }
    forall s | s in next.submissions && AllTracked(db) ensures Tracked(next, s.key) {
      assert Tracked(db, s.key);
      ManageTracks(db, owner, a, request, at, s.key);
    }
  }

  lemma ManageTracks(db: Db, owner: Owner, a: AccountId, request: ManageRequest, at: Instant, key: Key)
    requires db.rows.Keys <= db.accounts && Tracked(db, key)
    requires Manage(db, owner, a, request, at).Some?
    ensures Tracked(Manage(db, owner, a, request, at).value, key)
  {
    var next := Manage(db, owner, a, request, at).value;
    if key in db.problems {
    } else if key in KeySet(request.keys) {
      if request.action.Restore? { assert key in next.rows[a].backlog; }
    } else if key !in db.dispositions {
      var b :| b in db.rows && key in db.rows[b].backlog;
      assert key in next.rows[b].backlog;
    }
  }

  // ---- Steps ---------------------------------------------------------------------------------

  lemma Rotation(queue: seq<Key>)
    requires queue != [] && NoDuplicates(queue)
    ensures NoDuplicates(queue[1..] + [queue[0]])
    ensures forall k :: k in queue[1..] + [queue[0]] <==> k in queue
    ensures NoDuplicates(queue[1..]) && forall k :: k in queue[1..] <==> k in queue && k != queue[0]
  {
    assert queue == [queue[0]] + queue[1..];
  }

  lemma ActQueues(world: World, pass: Pass, step: Step)
    requires BacklogInv(world) && !step.ClaimStep? && !Outside(step)
    requires step.owner in world.passes && world.passes[step.owner] == pass
    ensures BacklogKept(world.db, Act(world, pass, step).db)
  {
    hide ValidQueue, AllTracked, QueuesValid;
    var db, w, a, now := world.db, step.owner, pass.account, world.now;
    match step
    case RenewStep(_, reading, leaseMs) => LeaseWritesKeep(db, w, a, leaseMs, Min(reading, now));
    case ReleaseStep(_) => LeaseWritesKeep(db, w, a, 0, now);
    case PageStep(_, before, page, leaseMs) =>
      if CommitPage(db, w, a, pass.plan, before, page, leaseMs, now).PageCommitted? {
        PageKeeps(db, w, a, pass.plan, before, page, leaseMs, now);
      }
    case ItemFetchedStep(_, leaseMs) =>
      if pass.queue.Some? && pass.queue.value != [] { ItemKeeps(db, w, a, pass.queue.value[0], leaseMs, now); }
    case ItemFailedStep(_, code, leaseMs) =>
      if pass.queue.Some? && pass.queue.value != [] && Holds(db, w, a, now) { FailedKeeps(world, pass, step); }
    case ItemDisposedStep(_, leaseMs) =>
      if pass.queue.Some? && pass.queue.value != [] && Holds(db, w, a, now) { DisposedKeeps(world, pass, step); }
    case RetriedStep(_, key, leaseMs) => ItemKeeps(db, w, a, key, leaseMs, now);
    case RetryFailedStep(_, key, code, leaseMs) => RetryKeeps(db, w, a, key, code, leaseMs, now);
    case ManageStep(_, request) =>
      if Manage(db, w, a, request, now).Some? { ManageKeeps(db, w, a, request, now); }
    case _ =>
  }

  lemma FailedKeeps(world: World, pass: Pass, step: Step)
    requires BacklogInv(world) && step.ItemFailedStep? && step.owner in world.passes && world.passes[step.owner] == pass
    requires pass.queue.Some? && pass.queue.value != [] && Holds(world.db, step.owner, pass.account, world.now)
    ensures BacklogKept(world.db, Act(world, pass, step).db)
  {
    var queue := pass.queue.value;
    assert PassQueue(world, pass);
    Rotation(queue);
    var issues := UpsertIssue(pass.issues, Issue(queue[0], step.code, world.now, NextAttempts(pass.issues, queue[0])));
    ProgressKeeps(world.db, step.owner, pass.account, queue[1..] + [queue[0]], issues, step.leaseMs, world.now);
  }

  lemma DisposedKeeps(world: World, pass: Pass, step: Step)
    requires BacklogInv(world) && step.ItemDisposedStep? && step.owner in world.passes
      && world.passes[step.owner] == pass
    requires pass.queue.Some? && pass.queue.value != [] && Holds(world.db, step.owner, pass.account, world.now)
    ensures BacklogKept(world.db, Act(world, pass, step).db)
  {
    var queue := pass.queue.value;
    assert PassQueue(world, pass);
    Rotation(queue);
    if queue[0] in world.db.dispositions {
      ProgressKeeps(world.db, step.owner, pass.account, queue[1..], ClearIssues(pass.issues, {queue[0]}), step.leaseMs,
                    world.now);
    }
  }

  /** A step of a pass that owns its row and still runs afterwards. */
  ghost predicate OwnStep(world: World, pass: Pass, step: Step) {
    && !step.ClaimStep? && !Outside(step)
    && PassQueue(world, pass) && Owns(world.db, step.owner, pass.account)
    && ValidQueue(world.db.rows[pass.account])
    && step.owner in world.passes && world.passes[step.owner] == pass
    && step.owner in Act(world, pass, step).passes
  }

  lemma RotatedWritable(queue: seq<Key>, issues: seq<Issue>, issue: Issue)
    requires queue != [] && Writable(queue, issues) && issue.key == queue[0]
    ensures Writable(queue[1..] + [queue[0]], UpsertIssue(issues, issue))
    ensures Writable(queue[1..], ClearIssues(issues, {queue[0]}))
  {
    Rotation(queue);
    assert KeySet(queue[1..] + [queue[0]]) == KeySet(queue) == KeySet(queue[1..]) + {queue[0]};
  }

  lemma OwnItem(world: World, pass: Pass, step: Step)
    requires OwnStep(world, pass, step)
    requires step.ItemFetchedStep? || step.ItemFailedStep? || step.ItemDisposedStep?
    ensures PassQueue(Act(world, pass, step), Act(world, pass, step).passes[step.owner])
  {
    if pass.queue.Some? && pass.queue.value != [] {
      var queue := pass.queue.value;
      Rotation(queue);
      RotatedWritable(queue, pass.issues, Issue(queue[0], if step.ItemFailedStep? then step.code else 0, world.now,
                                                NextAttempts(pass.issues, queue[0])));
      hide Writable, ClearIssues, UpsertIssue, NextAttempts, NoDuplicates, IssueKeys, KeySet;
    }
  }

  lemma OwnRepair(world: World, pass: Pass, step: Step)
    requires OwnStep(world, pass, step)
    requires step.RetriedStep? || step.RetryFailedStep? || step.ManageStep?
    ensures PassQueue(Act(world, pass, step), Act(world, pass, step).passes[step.owner])
  {
  }

  lemma OwnOther(world: World, pass: Pass, step: Step)
    requires OwnStep(world, pass, step)
    requires step.RenewStep? || step.RoomStep? || step.PageStep? || step.BeginRepairStep? || step.ReleaseStep?
      || step.CrashStep?
    ensures PassQueue(Act(world, pass, step), Act(world, pass, step).passes[step.owner])
  {
  }

  /** The acting pass still knows its row afterwards. */
  lemma OwnQueue(world: World, pass: Pass, step: Step)
    requires BacklogInv(world) && !step.ClaimStep? && !Outside(step)
    requires step.owner in world.passes && world.passes[step.owner] == pass
    requires var after := Act(world, pass, step);
             step.owner in after.passes && Owns(after.db, step.owner, after.passes[step.owner].account)
    ensures PassQueue(Act(world, pass, step), Act(world, pass, step).passes[step.owner])
  {
    OwnPassOwned(world, step);
    assert PassQueue(world, pass);
    assert OwnStep(world, pass, step);
    hide PassQueue;
    if step.ItemFetchedStep? || step.ItemFailedStep? || step.ItemDisposedStep? { OwnItem(world, pass, step); }
    else if step.RetriedStep? || step.RetryFailedStep? || step.ManageStep? { OwnRepair(world, pass, step); }
    else { OwnOther(world, pass, step); }
  }

  /** A step of another service at most removes keys from the queue of an owned account. */
  lemma OthersShrink(world: World, at: Instant, step: Step, o: Owner)
    requires Outside(step) || step.owner != o
    requires o in Next(world, at, step).passes
      && Owns(Next(world, at, step).db, o, Next(world, at, step).passes[o].account)
    ensures o in world.passes && Next(world, at, step).passes[o] == world.passes[o]
    ensures Owns(world.db, o, world.passes[o].account)
    ensures var before, after := RowOf(world.db, world.passes[o].account).backlog,
                                 RowOf(Next(world, at, step).db, world.passes[o].account).backlog;
            |after| <= |before| && forall k | k in after :: k in before
  {
    OthersLeaveOwned(world, at, step, o);
    var a, later := world.passes[o].account, world.(now := Max(world.now, at));
    if !step.ClaimStep? && !Outside(step) && step.owner in world.passes
      && world.passes[step.owner].account != a {
      if step.ManageStep? {
        ManageShrinks(later, world.passes[step.owner], step, a);
      } else {
        ActFrame(later, world.passes[step.owner], step, a);
      }
    }
  }

  lemma ManageShrinks(world: World, pass: Pass, step: Step, a: AccountId)
    requires step.ManageStep? && pass.account != a
    ensures var before, after := RowOf(world.db, a).backlog, RowOf(Act(world, pass, step).db, a).backlog;
            |after| <= |before| && forall k | k in after :: k in before
  {
    hide BatchAccepted, Enqueued, ClearIssues, AppliedDispositions, Repaired;
  }

  lemma StepKeepsBacklog(world: World, at: Instant, step: Step)
    requires BacklogInv(world)
    ensures BacklogInv(Next(world, at, step))
  {
    var later, after := world.(now := Max(world.now, at)), Next(world, at, step);
    RowsStayStored(world, at, step);
    assert BacklogInv(later);
    StepKeepsQueues(world, later, step);
    forall o | o in after.passes && Owns(after.db, o, after.passes[o].account)
      ensures PassQueue(after, after.passes[o]) {
      StepKeepsPass(world, at, step, o);
    }
  }

  lemma StepKeepsQueues(world: World, later: World, step: Step)
    requires BacklogInv(later) && later == world.(now := later.now) && world.now <= later.now
    ensures QueuesValid(Next(world, later.now, step).db)
    ensures AllTracked(world.db) && !step.OtherPageStep? ==> AllTracked(Next(world, later.now, step).db)
  {
    if step.ClaimStep? {
      var reading := Min(step.reading, later.now);
      if Claim(later.db, step.owner, step.a, step.purpose, step.leaseMs, reading).Some? {
        ClaimKeeps(later.db, step.owner, step.a, step.purpose, step.leaseMs, reading);
      }
    } else if Outside(step) {
      AsideQueues(later, step);
    } else if step.owner in world.passes {
      ActQueues(later, world.passes[step.owner], step);
    }
  }

  lemma AsideQueues(world: World, step: Step)
    requires Outside(step) && QueuesValid(world.db)
    ensures QueuesValid(Aside(world, step).db)
    ensures AllTracked(world.db) && !step.OtherPageStep? ==> AllTracked(Aside(world, step).db)
  {
    var db, next := world.db, Aside(world, step).db;
    assert ValidQueue(EMPTY_ROW);
    forall a | a in next.rows ensures ValidQueue(next.rows[a]) {
      assert a in db.rows || RowOf(db, a) == EMPTY_ROW;
    }
    forall s | s in next.submissions && AllTracked(db) && !step.OtherPageStep? ensures Tracked(next, s.key) {
      if s in db.submissions {
        assert Tracked(db, s.key);
        if s.key !in db.problems && s.key !in db.dispositions {
          var a :| a in db.rows && s.key in db.rows[a].backlog;
          assert a in next.rows && s.key in next.rows[a].backlog;
        }
      } else {
        assert s in step.items && s.key in next.problems;
      }
    }
  }

  lemma StepKeepsPass(world: World, at: Instant, step: Step, o: Owner)
    requires BacklogInv(world)
    requires var after := Next(world, at, step); o in after.passes && Owns(after.db, o, after.passes[o].account)
    ensures PassQueue(Next(world, at, step), Next(world, at, step).passes[o])
  {
    var later := world.(now := Max(world.now, at));
    if Outside(step) || step.owner != o {
      OthersShrink(world, at, step, o);
      assert PassQueue(world, world.passes[o]);
    } else if !step.ClaimStep? {
      assert BacklogInv(later);
      OwnQueue(later, world.passes[o], step);
    }
  }

  lemma {:induction false} RunKeepsBacklog(world: World, events: seq<Event>)
    requires BacklogInv(world)
    ensures BacklogInv(Run(world, events))
  {
    if events != [] {
      RunKeepsBacklog(world, events[..|events| - 1]);
      StepKeepsBacklog(Run(world, events[..|events| - 1]), events[|events| - 1].at, events[|events| - 1].step);
    }
  }

  // ---- Pages committed without the lease ------------------------------------------------------

  /** A page committed without the service's hook brings no key that nobody would fetch. */
  ghost predicate BringsTracked(world: World, at: Instant, step: Step) {
    step.OtherPageStep? && Timely(step.before, step.page, Max(world.now, at))
      && CommitOtherPage(world.db, step.a, step.mode, step.requested, step.limit, step.before, step.page,
                         Max(world.now, at)).Some? ==>
      forall s | s in step.page.items :: Tracked(world.db, s.key)
  }

  lemma AsidePageTracks(world: World, step: Step)
    requires step.OtherPageStep? && AllTracked(world.db)
    ensures AllTracked(Aside(world, step).db) <==> BringsTracked(world, world.now, step)
  {
    hide StreamRefusal;
    var db, next := world.db, Aside(world, step).db;
    assert forall key :: Tracked(next, key) <==> Tracked(db, key);
    if CommitOtherPage(db, step.a, step.mode, step.requested, step.limit, step.before, step.page, world.now).Some?
      && Timely(step.before, step.page, world.now) {
      assert forall s :: s in next.submissions <==> s in db.submissions || s in step.page.items;
    }
  }

  lemma StepTracks(world: World, at: Instant, step: Step)
    requires BacklogInv(world) && AllTracked(world.db)
    ensures AllTracked(Next(world, at, step).db) <==> BringsTracked(world, at, step)
  {
    hide Tracked;
    var later := world.(now := Max(world.now, at));
    if step.OtherPageStep? {
      AsidePageTracks(later, step);
    } else {
      assert BacklogInv(later);
      hide AllTracked, BacklogInv;
      StepKeepsQueues(world, later, step);
    }
  }

  ghost predicate AllTrackedUntil(world: World, events: seq<Event>, n: nat)
    requires n <= |events|
  {
    forall i | 0 <= i <= n :: AllTracked(Run(world, events[..i]).db)
  }

  ghost predicate BringTracked(world: World, events: seq<Event>, n: nat)
    requires n <= |events|
  {
    forall i | 0 <= i < n :: BringsTracked(Run(world, events[..i]), events[i].at, events[i].step)
  }

  lemma {:induction false} RunTracks(world: World, events: seq<Event>, n: nat)
    requires BacklogInv(world) && AllTracked(world.db) && n <= |events|
    ensures AllTrackedUntil(world, events, n) <==> BringTracked(world, events, n)
  {
    hide Run, Next, BacklogInv, AllTracked, BringsTracked;
    if n == 0 {
      RunNone(world, events);
    } else {
      RunTracks(world, events, n - 1);
      RunKeepsBacklog(world, events[..n - 1]);
      RunNext(world, events, n);
      if AllTracked(Run(world, events[..n - 1]).db) {
        StepTracks(Run(world, events[..n - 1]), events[n - 1].at, events[n - 1].step);
      }
    }
  }

  // ---- Main results --------------------------------------------------------------------------

  /**
   * Up to any point of a run every problem key of the stored history has its problem stored, or waits
   * in some account's backlog, or carries a disposition of the user, exactly when every page that was
   * committed without the service's hook brought only such keys.
   */
  lemma NoKeyIsLostExactlyWhen(accounts: set<AccountId>, problems: map<Key, bool>, start: Instant, events: seq<Event>,
                               n: nat)
    requires n <= |events|
    ensures AllTrackedUntil(Fresh(accounts, problems, start), events, n) <==>
      BringTracked(Fresh(accounts, problems, start), events, n)
  {
    RunTracks(Fresh(accounts, problems, start), events, n);
  }

  /** So no key is ever lost while only the service pages. */
  lemma NoKeyIsLost(accounts: set<AccountId>, problems: map<Key, bool>, start: Instant, events: seq<Event>)
    requires SoleWriter(events, |events|)
    ensures var db := Run(Fresh(accounts, problems, start), events).db;
            forall s | s in db.submissions ::
              || s.key in db.problems
              || s.key in db.dispositions
              || exists a | a in db.rows :: s.key in db.rows[a].backlog
  {
    NoKeyIsLostExactlyWhen(accounts, problems, start, events, |events|);
    assert events[..|events|] == events;
    var db := Run(Fresh(accounts, problems, start), events).db;
    assert AllTracked(db);
    forall s | s in db.submissions ensures Tracked(db, s.key) {
    }
  }

  /** One page of a stored account, committed by the page route: its submission is stored and its key queued nowhere. */
  const LOST: seq<Event> :=
    [Event(10, OtherPageStep(7, StartScan, Unspecified, 50, None,
                             Page(None, None, [Submission(0, 7, 3, 5)], None, 10)))]

  lemma APageWithoutTheHookLosesAKey()
    ensures var db := Run(Fresh({7}, map[], 0), LOST).db;
            && Submission(0, 7, 3, 5) in db.submissions
            && 3 !in db.problems && 3 !in db.dispositions && db.rows == map[]
  {
    var start := Fresh({7}, map[], 0);
    assert LOST[..0] == [] && LOST[..1] == LOST;
    RunNext(start, LOST, 1);
    assert Run(start, LOST[..0]) == start;
    hide Run;
    assert Submission(0, 7, 3, 5) in LOST[0].step.page.items;
  }

  /** Backlogs never repeat a key or outgrow their bound, and every diagnostic names a queued key. */
  lemma BacklogsStayValid(accounts: set<AccountId>, problems: map<Key, bool>, start: Instant, events: seq<Event>,
                          a: AccountId)
    ensures var row := RowOf(Run(Fresh(accounts, problems, start), events).db, a);
            && NoDuplicates(row.backlog) && |row.backlog| <= MAX_BACKLOG
            && forall e | e in row.issues :: e.key in row.backlog
  {
    RunKeepsBacklog(Fresh(accounts, problems, start), events);
    var row := RowOf(Run(Fresh(accounts, problems, start), events).db, a);
    forall e | e in row.issues ensures e.key in row.backlog {
      assert e.key in IssueKeys(row.issues);
    }
  }

  /** The two refusals of a page that would drop keys can never happen: the check before the page left room. */
  lemma PagesNeverDropKeys(accounts: set<AccountId>, problems: map<Key, bool>, start: Instant, events: seq<Event>,
                           step: Step)
    requires step.PageStep?
    requires var world := Run(Fresh(accounts, problems, start), events);
             step.owner in world.passes && world.passes[step.owner].roomChecked
    ensures var world := Run(Fresh(accounts, problems, start), events);
            var pass := world.passes[step.owner];
            var outcome := CommitPage(world.db, step.owner, pass.account, pass.plan, step.before, step.page,
                                      step.leaseMs, world.now);
            outcome != PageRefused(KeysTruncated) && outcome != PageRefused(BacklogFull)
  {
    RunKeepsBacklog(Fresh(accounts, problems, start), events);
    var world := Run(Fresh(accounts, problems, start), events);
    var pass := world.passes[step.owner];
    if Owns(world.db, step.owner, pass.account) { assert PassQueue(world, pass); }
  }
}
