/**
 * The queue a repair pass works through is the durable backlog of its account, exactly until a step
 * outdates it.
 */
module LuoguDurable {
  import opened Prelude
  import opened LuoguSyncState
  import opened SyncPages
  import opened LuoguSync
  import opened LuoguLease
  import opened LuoguBacklog

  // ---- The queue of a repair pass --------------------------------------------------------------

  /** The queue of a pass that holds its lease is the durable one. */
  ghost predicate QueueDurable(world: World, pass: Pass) {
    var row := RowOf(world.db, pass.account);
    pass.queue.Some? ==> pass.queue.value == row.backlog && pass.issues == row.issues
  }

  ghost predicate HoldersDurable(world: World) {
    forall o | o in world.passes && Holds(world.db, o, world.passes[o].account, world.now) ::
      QueueDurable(world, world.passes[o])
  }

  /** No disposed key waits in a backlog. */
  ghost predicate NoneDisposed(db: Db) {
    forall a, k | a in db.rows && k in db.rows[a].backlog :: k !in db.dispositions
  }

  ghost predicate RepairOpsQueueNothing(world: World) {
    forall o | o in world.passes :: world.passes[o].purpose.RepairOp? ==> world.passes[o].queue.None?
  }

  ghost predicate DurableInv(world: World) {
    NoneDisposed(world.db) && RepairOpsQueueNothing(world) && HoldersDurable(world)
  }

  /**
   * A renewal takes a lapsed lease up again for a pass whose row was changed meanwhile, with a deadline
   * that still lies ahead.
   */
  ghost predicate RenewsOutdated(world: World, at: Instant, step: Step) {
    && LapsedRenewal(world, at, step)
    && RenewalReading(world, at, step) + step.leaseMs > Max(world.now, at)
    && !QueueDurable(world, world.passes[step.owner])
  }

  ghost predicate QueuesOneOf(world: World, o: Owner, keys: seq<Key>, at: Instant) {
    && o in world.passes && Holds(world.db, o, world.passes[o].account, at)
    && world.passes[o].queue.Some? && exists k | k in keys :: k in world.passes[o].queue.value
  }

  /** A disposition takes a key out of a backlog that the holder of another live lease is working through. */
  ghost predicate OutdatesHolder(world: World, at: Instant, step: Step) {
    && step.ManageStep? && step.owner in world.passes && world.passes[step.owner].purpose.RepairOp?
    && Manage(world.db, step.owner, world.passes[step.owner].account, step.request, Max(world.now, at)).Some?
    && exists o | o != step.owner :: QueuesOneOf(world, o, step.request.keys, Max(world.now, at))
  }

  ghost predicate Outdates(world: World, at: Instant, step: Step) {
    RenewsOutdated(world, at, step) || OutdatesHolder(world, at, step)
  }

  lemma OwnDurable(world: World, pass: Pass, step: Step)
    requires !step.ClaimStep? && !Outside(step) && step.owner in world.passes
      && world.passes[step.owner] == pass
    requires QueueDurable(world, pass) && (pass.purpose.RepairOp? ==> pass.queue.None?)
    requires Owns(world.db, step.owner, pass.account) && ValidQueue(world.db.rows[pass.account])
    requires step.owner in Act(world, pass, step).passes
    ensures QueueDurable(Act(world, pass, step), Act(world, pass, step).passes[step.owner])
  {
    if step.ItemFetchedStep? && pass.queue.Some? && pass.queue.value != [] { WithoutHead(pass.queue.value); }
  }

  lemma OnlyRepairOpsManage(world: World, pass: Pass, step: Step)
    requires !step.ClaimStep? && !Outside(step) && step.owner in world.passes
      && world.passes[step.owner] == pass
    requires pass.purpose.RepairOp? ==> pass.queue.None?
    ensures step.owner in Act(world, pass, step).passes ==>
      (Act(world, pass, step).passes[step.owner].purpose.RepairOp? ==>
       Act(world, pass, step).passes[step.owner].queue.None?)
  {
  }

  lemma ActNoneDisposed(world: World, pass: Pass, step: Step)
    requires !step.ClaimStep? && !Outside(step) && world.db.rows.Keys <= world.db.accounts
      && NoneDisposed(world.db)
    requires pass.queue.Some? && Holds(world.db, step.owner, pass.account, world.now) ==>
      pass.queue.value == world.db.rows[pass.account].backlog
    ensures NoneDisposed(Act(world, pass, step).db)
  {
    hide ClearIssues, UpsertIssue, NextAttempts, BatchAccepted, Missing, Visible, ScanPosition, Repaired;
    if step.ManageStep? {
      ManageNoneDisposed(world.db, step.owner, pass.account, step.request, world.now);
    } else if step.ItemFailedStep? && pass.queue.Some? && pass.queue.value != [] {
      assert pass.queue.value == [pass.queue.value[0]] + pass.queue.value[1..];
    }
  }

  lemma ManageNoneDisposed(db: Db, owner: Owner, a: AccountId, request: ManageRequest, at: Instant)
    requires db.rows.Keys <= db.accounts && NoneDisposed(db)
    ensures Manage(db, owner, a, request, at).Some? ==> NoneDisposed(Manage(db, owner, a, request, at).value)
  {
    hide ClearIssues, BatchAccepted, Repaired;
  }

  lemma StepKeepsDurable(world: World, at: Instant, step: Step)
    requires BacklogInv(world) && DurableInv(world) && !Outdates(world, at, step)
    ensures DurableInv(Next(world, at, step))
  {
    hide Outdates, HoldersDurable, RepairOpsQueueNothing, NoneDisposed, Next;
    StepNoneDisposed(world, at, step);
    StepRepairOps(world, at, step);
    StepHolders(world, at, step);
  }

  lemma StepHolders(world: World, at: Instant, step: Step)
    requires BacklogInv(world) && DurableInv(world) && !Outdates(world, at, step)
    ensures HoldersDurable(Next(world, at, step))
  {
    var after := Next(world, at, step);
    hide Next, Outdates, QueueDurable, BacklogInv, DurableInv;
    forall o | o in after.passes && Holds(after.db, o, after.passes[o].account, after.now)
      ensures QueueDurable(after, after.passes[o]) {
      StepDurablePass(world, at, step, o);
    }
  }

  lemma StepNoneDisposed(world: World, at: Instant, step: Step)
    requires BacklogInv(world) && DurableInv(world)
    ensures NoneDisposed(Next(world, at, step).db)
  {
    var later := world.(now := Max(world.now, at));
    if step.ClaimStep? {
      hide SourceBusy;
    } else if Outside(step) {
      AsideNoneDisposed(later, step);
    } else if step.owner in world.passes {
      var pass := world.passes[step.owner];
      assert Holds(later.db, step.owner, pass.account, later.now) ==>
        Holds(world.db, step.owner, pass.account, world.now);
      ActNoneDisposed(later, pass, step);
      hide Act;
    }
  }

  lemma AsideNoneDisposed(world: World, step: Step)
    requires Outside(step) && NoneDisposed(world.db)
    ensures NoneDisposed(Aside(world, step).db)
  {
  }

  lemma StepRepairOps(world: World, at: Instant, step: Step)
    requires RepairOpsQueueNothing(world)
    ensures RepairOpsQueueNothing(Next(world, at, step))
  {
    var after, later := Next(world, at, step), world.(now := Max(world.now, at));
    forall o | o in after.passes ensures after.passes[o].purpose.RepairOp? ==> after.passes[o].queue.None? {
      if Outside(step) || step.owner != o {
        OthersKeepPass(world, at, step, o);
      } else if !step.ClaimStep? {
        OnlyRepairOpsManage(later, world.passes[o], step);
        hide Act;
      }
    }
  }

  lemma StepDurablePass(world: World, at: Instant, step: Step, o: Owner)
    requires BacklogInv(world) && DurableInv(world) && !Outdates(world, at, step)
    requires o in Next(world, at, step).passes
    requires Holds(Next(world, at, step).db, o, Next(world, at, step).passes[o].account, Next(world, at, step).now)
    ensures QueueDurable(Next(world, at, step), Next(world, at, step).passes[o])
  {
    var after, later := Next(world, at, step), world.(now := Max(world.now, at));
    ClockMovesOn(world, at, step);
    if Outside(step) || step.owner != o {
      OthersKeepQueue(world, at, step, o);
    } else if !step.ClaimStep? {
      OwnDurablePass(world, later, step);
    }
  }

  lemma OwnDurablePass(world: World, later: World, step: Step)
    requires BacklogInv(world) && DurableInv(world) && later == world.(now := Max(world.now, later.now))
    requires !step.ClaimStep? && !Outside(step) && step.owner in world.passes
    requires !RenewsOutdated(world, later.now, step)
    requires var after := Act(later, world.passes[step.owner], step);
             step.owner in after.passes && Holds(after.db, step.owner, after.passes[step.owner].account, later.now)
    ensures var after := Act(later, world.passes[step.owner], step);
            QueueDurable(after, after.passes[step.owner])
  {
    var pass := world.passes[step.owner];
    OwnPassOwned(later, step);
    if LapsedRenewal(world, later.now, step) {
      RenewedSame(later, pass, step);
    } else {
      OwnHeld(later, step);
      OwnDurable(later, pass, step);
    }
    hide Act;
  }

  /** A renewal moves no queue, and leaves the deadline it wrote. */
  lemma RenewedSame(world: World, pass: Pass, step: Step)
    requires LapsedRenewal(world, world.now, step) && world.passes[step.owner] == pass
    ensures var after := Act(world, pass, step);
            && after.passes == world.passes
            && (QueueDurable(after, pass) <==> QueueDurable(world, pass))
            && (Holds(after.db, step.owner, pass.account, world.now) <==>
                  RenewalReading(world, world.now, step) + step.leaseMs > world.now)
  {
  }

  lemma OwnHeld(world: World, step: Step)
    requires !step.ClaimStep? && !Outside(step) && step.owner in world.passes
    requires !LapsedRenewal(world, world.now, step)
    requires var pass, after := world.passes[step.owner], Act(world, world.passes[step.owner], step);
             Holds(after.db, step.owner, pass.account, world.now)
    ensures Holds(world.db, step.owner, world.passes[step.owner].account, world.now)
  {
    var pass := world.passes[step.owner];
    if Act(world, pass, step).db != world.db { ActKeepsLeases(world, pass, step); }
    hide Act;
  }

  /** Waiting makes nobody a holder and no queue different. */
  lemma LaterSame(world: World, at: Instant, step: Step)
    requires BacklogInv(world) && HoldersDurable(world)
    ensures var later := world.(now := Max(world.now, at));
            && QueuesValid(later.db) && HoldersDurable(later)
            && (OutdatesHolder(later, later.now, step) ==> OutdatesHolder(world, at, step))
  {
    var later := world.(now := Max(world.now, at));
    hide Manage, ValidQueue;
    if OutdatesHolder(later, later.now, step) {
      var o :| o != step.owner && QueuesOneOf(later, o, step.request.keys, later.now);
      assert QueuesOneOf(world, o, step.request.keys, later.now);
    }
  }

  /** A step of another service leaves the queue of a holder alone, unless it disposes of one of its keys. */
  lemma OthersKeepQueue(world: World, at: Instant, step: Step, o: Owner)
    requires BacklogInv(world) && HoldersDurable(world) && !OutdatesHolder(world, at, step)
    requires (Outside(step) || step.owner != o) && o in Next(world, at, step).passes
    requires Holds(Next(world, at, step).db, o, Next(world, at, step).passes[o].account, Max(world.now, at))
    ensures QueueDurable(Next(world, at, step), Next(world, at, step).passes[o])
  {
    hide BacklogInv, OutdatesHolder, HoldersDurable, Act, Aside, TakeClaim;
    var later, after := world.(now := Max(world.now, at)), Next(world, at, step);
    OthersLeaveOwned(world, at, step, o);
    LaterSame(world, at, step);
    var a := world.passes[o].account;
    if !Outside(step) && step.ManageStep? && step.owner in world.passes && world.passes[step.owner].account != a {
      ManageKeepsQueue(later, world.passes[step.owner], step, o);
    } else {
      OthersKeepRow(world, at, step, o);
      HolderWasDurable(world, after, o);
    }
  }

  /** Anything but a disposition leaves the row of a holder as it is. */
  lemma OthersKeepRow(world: World, at: Instant, step: Step, o: Owner)
    requires Outside(step) || step.owner != o
    requires var after := Next(world, at, step);
             && o in after.passes && o in world.passes && after.passes[o] == world.passes[o]
             && Owns(after.db, o, world.passes[o].account) && Owns(world.db, o, world.passes[o].account)
    requires step.ManageStep? && step.owner in world.passes ==>
      world.passes[step.owner].account == world.passes[o].account
    ensures SameRow(world, Next(world, at, step), world.passes[o].account)
  {
    hide Act, Aside;
    var later, a := world.(now := Max(world.now, at)), world.passes[o].account;
    OthersLeaveOwned(world, at, step, o);
    if Outside(step) {
      AsideUntouched(later, step, a);
    } else if step.ClaimStep? {
      hide SourceBusy, ClaimedRow;
    } else if step.owner in world.passes && world.passes[step.owner].account != a {
      ActFrame(later, world.passes[step.owner], step, a);
    }
  }

  lemma HolderWasDurable(world: World, after: World, o: Owner)
    requires HoldersDurable(world) && o in world.passes && SameRow(world, after, world.passes[o].account)
    requires exists later :: later >= world.now && Holds(after.db, o, world.passes[o].account, later)
    ensures QueueDurable(after, world.passes[o])
  {
    var later :| later >= world.now && Holds(after.db, o, world.passes[o].account, later);
    assert Holds(world.db, o, world.passes[o].account, world.now);
  }

  lemma ManageKeepsQueue(world: World, pass: Pass, step: Step, o: Owner)
    requires step.ManageStep? && step.owner in world.passes && world.passes[step.owner] == pass && o != step.owner
    requires o in world.passes && Owns(world.db, o, world.passes[o].account) && world.passes[o].account != pass.account
    requires QueuesValid(world.db) && HoldersDurable(world) && !OutdatesHolder(world, world.now, step)
    requires Holds(Act(world, pass, step).db, o, world.passes[o].account, world.now)
    ensures Holds(world.db, o, world.passes[o].account, world.now)
    ensures QueueDurable(Act(world, pass, step), world.passes[o])
  {
    hide BatchAccepted, Enqueued, AppliedDispositions, Repaired, LocallyKnown;
    var db, a, request := world.db, world.passes[o].account, step.request;
    if pass.purpose.RepairOp? && Manage(db, step.owner, pass.account, request, world.now).Some? {
      assert Holds(db, o, a, world.now);
      assert QueueDurable(world, world.passes[o]);
      if world.passes[o].queue.Some? {
        assert !QueuesOneOf(world, o, request.keys, world.now);
        assert ValidQueue(db.rows[a]);
        CleaningNothing(db.rows[a], KeySet(request.keys));
      }
    }
  }

  /** Cleaning a row of keys it does not queue leaves it as it is. */
  lemma CleaningNothing(row: SyncRow, keys: set<Key>)
    requires ValidQueue(row) && forall k | k in keys :: k !in row.backlog
    ensures CleanedRow(row, keys) == row
  {
    WithoutNothing(row.backlog, keys);
    assert forall e | e in row.issues :: e.key in IssueKeys(row.issues);
    ClearNothing(row.issues, keys);
  }

  lemma {:induction false} WithoutNothing(keys: seq<Key>, dropped: set<Key>)
    requires forall k | k in dropped :: k !in keys
    ensures Without(keys, dropped) == keys
  {
    hide NoDuplicates;
    if keys != [] {
      WithoutNothing(keys[..|keys| - 1], dropped);
      assert keys[|keys| - 1] in keys && keys == keys[..|keys| - 1] + [keys[|keys| - 1]];
    }
  }

  lemma {:induction false} ClearNothing(issues: seq<Issue>, dropped: set<Key>)
    requires forall e | e in issues :: e.key !in dropped
    ensures ClearIssues(issues, dropped) == issues
  {
    hide IssueKeys;
    if issues != [] {
      ClearNothing(issues[..|issues| - 1], dropped);
      assert issues[|issues| - 1] in issues && issues == issues[..|issues| - 1] + [issues[|issues| - 1]];
    }
  }

  // ---- A step that outdates a queue ------------------------------------------------------------

  lemma StepOutdates(world: World, at: Instant, step: Step)
    requires BacklogInv(world) && DurableInv(world) && Outdates(world, at, step)
    ensures !HoldersDurable(Next(world, at, step))
  {
    var later := world.(now := Max(world.now, at));
    hide BacklogInv;
    if RenewsOutdated(world, at, step) {
      var pass := world.passes[step.owner];
      RenewedSame(later, pass, step);
      ActKeepsClock(later, pass, step);
      hide Act;
    } else {
      var o :| o != step.owner && QueuesOneOf(world, o, step.request.keys, later.now);
      assert Holds(world.db, o, world.passes[o].account, world.now);
      DisposedUnderHolder(world, later, step, o);
      ActKeepsClock(later, world.passes[step.owner], step);
      hide Act;
    }
  }

  lemma DisposedUnderHolder(world: World, later: World, step: Step, o: Owner)
    requires BacklogInv(world) && later == world.(now := later.now) && OutdatesHolder(world, later.now, step)
    requires world.now <= later.now && o != step.owner && QueuesOneOf(world, o, step.request.keys, later.now)
    requires QueueDurable(world, world.passes[o])
    ensures var after := Act(later, world.passes[step.owner], step);
            && o in after.passes && after.passes[o] == world.passes[o]
            && Holds(after.db, o, world.passes[o].account, later.now)
            && !QueueDurable(after, world.passes[o])
  {
    hide BatchAccepted, Enqueued, AppliedDispositions, Repaired, LocallyKnown, ClearIssues;
    var a := world.passes[o].account;
    var k :| k in step.request.keys && k in world.passes[o].queue.value;
    assert k in world.db.rows[a].backlog && k in KeySet(step.request.keys);
  }

  lemma OthersKeepPass(world: World, at: Instant, step: Step, o: Owner)
    requires (Outside(step) || step.owner != o) && o in Next(world, at, step).passes
    ensures o in world.passes && Next(world, at, step).passes[o] == world.passes[o]
  {
    if !step.ClaimStep? && !Outside(step) && step.owner in world.passes {
      ActLeavesPasses(world.(now := Max(world.now, at)), world.passes[step.owner], step, o);
      hide Act;
    }
  }

  // ---- Runs --------------------------------------------------------------------------------------

  ghost predicate NeverOutdated(world: World, events: seq<Event>, n: nat)
    requires n <= |events|
  {
    forall i | 0 <= i < n :: !Outdates(Run(world, events[..i]), events[i].at, events[i].step)
  }

  ghost predicate DurableUntil(world: World, events: seq<Event>, n: nat)
    requires n <= |events|
  {
    forall i | 0 <= i <= n :: HoldersDurable(Run(world, events[..i]))
  }

  lemma {:induction false} RunKeepsDurable(world: World, events: seq<Event>, n: nat)
    requires BacklogInv(world) && DurableInv(world) && n <= |events| && NeverOutdated(world, events, n)
    ensures BacklogInv(Run(world, events[..n])) && DurableInv(Run(world, events[..n]))
  {
    hide Run, Next, BacklogInv, DurableInv, Outdates;
    if n == 0 {
      RunNone(world, events);
    } else {
      RunKeepsDurable(world, events, n - 1);
      RunNext(world, events, n);
      StepKeepsBacklog(Run(world, events[..n - 1]), events[n - 1].at, events[n - 1].step);
      StepKeepsDurable(Run(world, events[..n - 1]), events[n - 1].at, events[n - 1].step);
    }
  }

  lemma {:induction false} RunDurableExactlyWhen(world: World, events: seq<Event>, n: nat)
    requires BacklogInv(world) && DurableInv(world) && n <= |events|
    ensures DurableUntil(world, events, n) <==> NeverOutdated(world, events, n)
  {
    hide Run, Next, BacklogInv, HoldersDurable, NoneDisposed, RepairOpsQueueNothing, Outdates;
    if n == 0 {
      RunNone(world, events);
    } else {
      RunDurableExactlyWhen(world, events, n - 1);
      RunNext(world, events, n);
      if NeverOutdated(world, events, n - 1) { RunKeepsDurable(world, events, n - 1); }
      var before, last := Run(world, events[..n - 1]), events[n - 1];
      if NeverOutdated(world, events, n - 1) {
        if Outdates(before, last.at, last.step) { StepOutdates(before, last.at, last.step); }
        else { StepKeepsDurable(before, last.at, last.step); }
      }
    }
  }

  lemma FreshBacklog(accounts: set<AccountId>, problems: map<Key, bool>, start: Instant)
    ensures BacklogInv(Fresh(accounts, problems, start)) && DurableInv(Fresh(accounts, problems, start))
  {
  }

  /**
   * Up to any point of a run the queue of every repair pass that holds its lease is the durable backlog,
   * exactly when no renewal took up a lapsed lease over a changed row and no disposition took a key from
   * a queue that the holder of another live lease was working through.
   */
  lemma RepairQueueIsDurableExactlyWhen(accounts: set<AccountId>, problems: map<Key, bool>, start: Instant,
                                        events: seq<Event>, n: nat)
    requires n <= |events|
    ensures DurableUntil(Fresh(accounts, problems, start), events, n) <==>
      NeverOutdated(Fresh(accounts, problems, start), events, n)
  {
    FreshBacklog(accounts, problems, start);
    RunDurableExactlyWhen(Fresh(accounts, problems, start), events, n);
  }

  /** So while a repair pass holds its lease, the queue it works through is the durable backlog. */
  lemma RepairQueueIsDurable(accounts: set<AccountId>, problems: map<Key, bool>, start: Instant, events: seq<Event>,
                             o: Owner)
    requires NeverOutdated(Fresh(accounts, problems, start), events, |events|)
    requires var world := Run(Fresh(accounts, problems, start), events);
             && o in world.passes && world.passes[o].queue.Some?
             && Holds(world.db, o, world.passes[o].account, world.now)
    ensures var world := Run(Fresh(accounts, problems, start), events);
            world.passes[o].queue.value == world.db.rows[world.passes[o].account].backlog
  {
    RepairQueueIsDurableExactlyWhen(accounts, problems, start, events, |events|);
    assert events[..|events|] == events;
    assert HoldersDurable(Run(Fresh(accounts, problems, start), events));
  }

  /** With one lease for the source and live renewals, neither happens. */
  lemma LiveIsNotOutdated(world: World, at: Instant, step: Step)
    requires Exclusive(world.db, world.now) && !LapsedRenewal(world, at, step)
    ensures !Outdates(world, at, step)
  {
    hide Enqueued, BatchAccepted;
    var now := Max(world.now, at);
    if OutdatesHolder(world, at, step) {
      var o :| o != step.owner && QueuesOneOf(world, o, step.request.keys, now);
      HolderIsAlone(world.db, o, world.passes[o].account, now);
    }
  }

  lemma {:induction false} LiveRenewalsKeep(world: World, events: seq<Event>, n: nat)
    requires Exclusive(world.db, world.now) && n <= |events| && NoLapsedRenewal(world, events, n)
    ensures Exclusive(Run(world, events[..n]).db, Run(world, events[..n]).now) && NeverOutdated(world, events, n)
  {
    hide Run, Next, Exclusive, LapsedRenewal, Outdates;
    if n == 0 {
      RunNone(world, events);
    } else {
      LiveRenewalsKeep(world, events, n - 1);
      RunNext(world, events, n);
      var before, last := Run(world, events[..n - 1]), events[n - 1];
      assert !LapsedRenewal(before, last.at, last.step);
      LiveIsNotOutdated(before, last.at, last.step);
      NotLapsedNotStale(before, last.at, last.step);
      StepLease(before, last.at, last.step);
    }
  }

  lemma NotLapsedNotStale(world: World, at: Instant, step: Step)
    requires Exclusive(world.db, world.now) && !LapsedRenewal(world, at, step)
    ensures !StaleRenewal(world, at, step)
  {
    if StaleRenewal(world, at, step) { StaleIsLapsed(world, at, step); }
  }

  /** When every renewal finds its lease still live, no queue is ever outdated. */
  lemma LiveRenewalsAreEnough(accounts: set<AccountId>, problems: map<Key, bool>, start: Instant, events: seq<Event>,
                              n: nat)
    requires n <= |events| && NoLapsedRenewal(Fresh(accounts, problems, start), events, n)
    ensures NeverOutdated(Fresh(accounts, problems, start), events, n)
  {
    FreshExclusive(accounts, problems, start);
    LiveRenewalsKeep(Fresh(accounts, problems, start), events, n);
  }
}
