/**
 * Fair repair over runs: whatever the services do between two items, a key waiting at position `p` of
 * its account's backlog is examined, or leaves the backlog, before `p + 1` keys of it were examined.
 */
module LuoguFairness {
  import opened Prelude
  import opened LuoguSyncState
  import opened LuoguSync
  import opened LuoguLease
  import opened LuoguBacklog
  import opened LuoguDurable
  import opened LuoguRepair

  function Backlog(world: World, a: AccountId): seq<Key> {
    RowOf(world.db, a).backlog
  }

  /** The step is one committed item of a repair pass over this account: it examines the head of the backlog. */
  predicate Examines(world: World, at: Instant, step: Step, a: AccountId) {
    && (step.ItemFetchedStep? || step.ItemFailedStep? || step.ItemDisposedStep?)
    && step.owner in world.passes && world.passes[step.owner].account == a
    && Holds(world.db, step.owner, a, Max(world.now, at))
    && var queue := world.passes[step.owner].queue;
       && queue.Some? && queue.value != []
       && (step.ItemDisposedStep? ==> queue.value[0] in world.db.dispositions)
       && (step.ItemFetchedStep? ==> Queued(world.db, step.owner, a, queue.value[0], Max(world.now, at)))
  }

  /** What the run knows in a reachable state in which no queue was outdated. */
  ghost predicate Sound(world: World) {
    BacklogInv(world) && DurableInv(world)
  }

  /** An examined key leaves the head of the durable backlog, for its end when it failed. */
  lemma ExaminedItem(world: World, at: Instant, step: Step, a: AccountId)
    requires Sound(world) && Examines(world, at, step, a)
    ensures Backlog(world, a) != []
    ensures Backlog(Next(world, at, step), a)
         == Backlog(world, a)[1..] + if step.ItemFailedStep? then [Backlog(world, a)[0]] else []
    ensures Next(world, at, step).db.dispositions == world.db.dispositions
    ensures Backlog(world, a)[0] !in world.db.dispositions
  {
    hide TakePage, Manage, Renew, Release, RecordFailedRetry, UpsertIssue, NextAttempts, ClearIssues, LocallyKnown;
    assert Holds(world.db, step.owner, a, world.now);
    assert QueueDurable(world, world.passes[step.owner]);
    WithoutHead(Backlog(world, a));
  }

  // ---- One step --------------------------------------------------------------------------------

  /** The key waits at `q` or nearer to the head. */
  ghost predicate WaitsBy(backlog: seq<Key>, key: Key, q: int) {
    exists i | 0 <= i < |backlog| :: i <= q && backlog[i] == key
  }

  lemma StillThere(before: seq<Key>, after: seq<Key>, key: Key, q: int)
    requires WaitsBy(before, key, q) && before <= after
    ensures WaitsBy(after, key, q)
  {
    var i :| 0 <= i < |before| && i <= q && before[i] == key;
    assert after[i] == key;
  }

  lemma FilteredAdvances(backlog: seq<Key>, dropped: set<Key>, key: Key, q: int)
    requires WaitsBy(backlog, key, q) && key !in dropped
    ensures WaitsBy(Without(backlog, dropped), key, q)
  {
    var i :| 0 <= i < |backlog| && i <= q && backlog[i] == key;
    WithoutAdvances(backlog, dropped, i);
    var j :| 0 <= j <= i && j < |Without(backlog, dropped)| && Without(backlog, dropped)[j] == key;
  }

  lemma ExaminedAdvances(world: World, at: Instant, step: Step, a: AccountId, key: Key, q: int)
    requires Sound(world) && Examines(world, at, step, a) && WaitsBy(Backlog(world, a), key, q)
    requires Backlog(world, a)[0] != key
    ensures WaitsBy(Backlog(Next(world, at, step), a), key, q - 1)
  {
    ExaminedItem(world, at, step, a);
    var before, after := Backlog(world, a), Backlog(Next(world, at, step), a);
    var i :| 0 <= i < |before| && i <= q && before[i] == key;
    assert after[i - 1] == key;
  }

  lemma ManageAdvances(world: World, pass: Pass, step: Step, a: AccountId, key: Key, q: int)
    requires step.ManageStep? && world.db.rows.Keys <= world.db.accounts && NoneDisposed(world.db)
    requires WaitsBy(Backlog(world, a), key, q) && key in Backlog(Act(world, pass, step), a)
    ensures WaitsBy(Backlog(Act(world, pass, step), a), key, q)
  {
    hide ClearIssues, Repaired, LocallyKnown, TakePage, Enqueued, NoDuplicates;
    var db, request := world.db, step.request;
    if pass.purpose.RepairOp? && Manage(db, step.owner, pass.account, request, world.now).Some? {
      var keys := KeySet(request.keys);
      var cleaned := Without(db.rows[a].backlog, keys);
      assert key in keys && request.action.Restore? ==> key in db.dispositions;
      FilteredAdvances(db.rows[a].backlog, keys, key, q);
      StillThere(cleaned, Backlog(Act(world, pass, step), a), key, q);
    }
  }

  /** Writes of the account's own service that examine nothing. */
  lemma OwnAdvances(world: World, step: Step, a: AccountId, key: Key, q: int)
    requires !step.ClaimStep? && !Outside(step) && !step.ManageStep? && !Examines(world, world.now, step, a)
    requires step.owner in world.passes && world.passes[step.owner].account == a
    requires WaitsBy(Backlog(world, a), key, q) && key in Backlog(Act(world, world.passes[step.owner], step), a)
    ensures WaitsBy(Backlog(Act(world, world.passes[step.owner], step), a), key, q)
  {
    if step.RetriedStep? && step.key != key { FilteredAdvances(Backlog(world, a), {step.key}, key, q); }
    if step.PageStep? { StillThere(Backlog(world, a), Backlog(Act(world, world.passes[step.owner], step), a), key, q); }
  }

  /** Apart from examinations of it, a waiting key never moves back. */
  lemma StepAdvances(world: World, at: Instant, step: Step, a: AccountId, key: Key, q: int)
    requires Sound(world) && !Examines(world, at, step, a)
    requires WaitsBy(Backlog(world, a), key, q) && key in Backlog(Next(world, at, step), a)
    ensures WaitsBy(Backlog(Next(world, at, step), a), key, q)
  {
    var later := world.(now := Max(world.now, at));
    if step.ClaimStep? {
      hide SourceBusy;
    } else if !Outside(step) && step.owner in world.passes {
      var pass := world.passes[step.owner];
      if step.ManageStep? {
        ManageAdvances(later, pass, step, a, key, q);
      } else if pass.account == a {
        OwnAdvances(later, step, a, key, q);
      } else {
        ActFrame(later, pass, step, a);
      }
    }
  }

  // ---- Runs ------------------------------------------------------------------------------------

  /** How many keys of the account a run examines. */
  function Examinations(world: World, events: seq<Event>, a: AccountId): nat {
    if events == [] then 0
    else
      var front, last := events[..|events| - 1], events[|events| - 1];
      Examinations(world, front, a) + if Examines(Run(world, front), last.at, last.step, a) then 1 else 0
  }

  ghost predicate ReachedAt(world: World, events: seq<Event>, n: nat, a: AccountId, key: Key)
    requires n < |events|
  {
    var before := Run(world, events[..n]);
    || (Examines(before, events[n].at, events[n].step, a) && Backlog(before, a) != [] && Backlog(before, a)[0] == key)
    || key !in Backlog(Run(world, events[..n + 1]), a)
  }

  /** Some event examines the key, or the key leaves the backlog. */
  ghost predicate Reached(world: World, events: seq<Event>, a: AccountId, key: Key) {
    exists n | 0 <= n < |events| :: ReachedAt(world, events, n, a, key)
  }

  lemma {:induction false} SoundAfter(world: World, events: seq<Event>, n: nat)
    requires Sound(world) && n <= |events| && NeverOutdated(world, events, n)
    ensures Sound(Run(world, events[..n]))
  {
    RunKeepsDurable(world, events, n);
  }

  /** A key that was not reached moved up by one for every key that was examined. */
  lemma {:induction false} StillWaiting(world: World, events: seq<Event>, a: AccountId, key: Key, q: int, n: nat)
    requires Sound(world) && n <= |events| && NeverOutdated(world, events, n)
    requires WaitsBy(Backlog(world, a), key, q)
    requires NotReached(world, events, n, a, key)
    ensures WaitsBy(Backlog(Run(world, events[..n]), a), key, q - Examinations(world, events[..n], a))
  {
    hide Run, Next, Sound, Examinations, NeverOutdated, NotReached, WaitsBy, Backlog, Examines;
    if n == 0 {
      NothingHappened(world, events, a);
    } else {
      NotReachedBefore(world, events, n, a, key);
      StillWaiting(world, events, a, key, q, n - 1);
      SoundAfter(world, events, n - 1);
      RunNext(world, events, n);
      ExaminationsNext(world, events, a, n);
      MovesUp(Run(world, events[..n - 1]), events[n - 1].at, events[n - 1].step, a, key,
              q - Examinations(world, events[..n - 1], a));
    }
  }

  lemma NothingHappened(world: World, events: seq<Event>, a: AccountId)
    ensures Run(world, events[..0]) == world && Examinations(world, events[..0], a) == 0
  {
  }

  lemma MovesUp(world: World, at: Instant, step: Step, a: AccountId, key: Key, q: int)
    requires Sound(world) && WaitsBy(Backlog(world, a), key, q) && key in Backlog(Next(world, at, step), a)
    requires Examines(world, at, step, a) && Backlog(world, a) != [] ==> Backlog(world, a)[0] != key
    ensures WaitsBy(Backlog(Next(world, at, step), a), key, q - if Examines(world, at, step, a) then 1 else 0)
  {
    hide Next, Sound, WaitsBy, Backlog, Examines;
    if Examines(world, at, step, a) {
      ExaminedItem(world, at, step, a);
      ExaminedAdvances(world, at, step, a, key, q);
    } else {
      StepAdvances(world, at, step, a, key, q);
    }
  }

  ghost predicate NotReached(world: World, events: seq<Event>, n: nat, a: AccountId, key: Key)
    requires n <= |events|
  {
    forall i | 0 <= i < n :: !ReachedAt(world, events, i, a, key)
  }

  lemma NotReachedBefore(world: World, events: seq<Event>, n: nat, a: AccountId, key: Key)
    requires 0 < n <= |events| && NotReached(world, events, n, a, key) && NeverOutdated(world, events, n)
    ensures NotReached(world, events, n - 1, a, key) && NeverOutdated(world, events, n - 1)
    ensures key in Backlog(Run(world, events[..n]), a)
    ensures var before, last := Run(world, events[..n - 1]), events[n - 1];
            Examines(before, last.at, last.step, a) && Backlog(before, a) != [] ==> Backlog(before, a)[0] != key
  {
    assert !ReachedAt(world, events, n - 1, a, key);
    hide Run, Examines;
  }

  lemma ExaminationsNext(world: World, events: seq<Event>, a: AccountId, n: nat)
    requires 0 < n <= |events|
    ensures Examinations(world, events[..n], a) == Examinations(world, events[..n - 1], a)
         + if Examines(Run(world, events[..n - 1]), events[n - 1].at, events[n - 1].step, a) then 1 else 0
  {
    assert events[..n][..n - 1] == events[..n - 1];
  }

  lemma ReachedOrNot(world: World, events: seq<Event>, a: AccountId, key: Key)
    ensures Reached(world, events, a, key) || NotReached(world, events, |events|, a, key)
  {
    hide ReachedAt;
  }

  lemma WaitsNow(backlog: seq<Key>, q: nat)
    requires q < |backlog|
    ensures WaitsBy(backlog, backlog[q], q)
  {
  }

  lemma NobodyWaitsBeforeTheHead(backlog: seq<Key>, key: Key, q: int)
    requires WaitsBy(backlog, key, q)
    ensures q >= 0
  {
  }

  lemma ReachedWhenExamined(world: World, events: seq<Event>, a: AccountId, q: nat)
    requires Sound(world) && NeverOutdated(world, events, |events|)
    requires q < |Backlog(world, a)| && Examinations(world, events, a) > q
    ensures Reached(world, events, a, Backlog(world, a)[q])
  {
    hide Run, Next, Sound, Examinations, NeverOutdated, NotReached, Reached, WaitsBy, Backlog;
    var key, n := Backlog(world, a)[q], |events|;
    assert events[..n] == events;
    ReachedOrNot(world, events, a, key);
    WaitsNow(Backlog(world, a), q);
    if !Reached(world, events, a, key) {
      StillWaiting(world, events, a, key, q, n);
      NobodyWaitsBeforeTheHead(Backlog(Run(world, events[..n]), a), key, q - Examinations(world, events[..n], a));
    }
  }

  lemma {:induction false} RunSplits(world: World, first: seq<Event>, second: seq<Event>)
    ensures Run(world, first + second) == Run(Run(world, first), second)
  {
    hide Next;
    if second == [] {
      assert first + second == first;
    } else {
      assert (first + second)[..|first + second| - 1] == first + second[..|second| - 1];
      RunSplits(world, first, second[..|second| - 1]);
    }
  }

  /** The later part of a run that outdates no queue outdates none either. */
  lemma LaterIsCurrent(world: World, before: seq<Event>, later: seq<Event>)
    requires NeverOutdated(world, before + later, |before + later|)
    ensures NeverOutdated(world, before, |before|)
    ensures NeverOutdated(Run(world, before), later, |later|)
  {
    var all := before + later;
    forall i | 0 <= i < |before| ensures !Outdates(Run(world, before[..i]), before[i].at, before[i].step) {
      assert all[..i] == before[..i] && all[i] == before[i];
    }
    forall i | 0 <= i < |later|
      ensures !Outdates(Run(Run(world, before), later[..i]), later[i].at, later[i].step)
    {
      RunSplits(world, before, later[..i]);
      assert all[..|before| + i] == before + later[..i] && all[|before| + i] == later[i];
    }
    hide Run;
  }

  /** Every reachable state before which no queue was outdated is one the bounds below speak of. */
  lemma ReachableIsSound(accounts: set<AccountId>, problems: map<Key, bool>, start: Instant, events: seq<Event>)
    requires NeverOutdated(Fresh(accounts, problems, start), events, |events|)
    ensures Sound(Run(Fresh(accounts, problems, start), events))
  {
    FreshBacklog(accounts, problems, start);
    RunKeepsDurable(Fresh(accounts, problems, start), events, |events|);
    assert events[..|events|] == events;
  }

  /**
   * Fairness: in every reachable state a key at position `p` of an account's backlog is examined, or
   * leaves the backlog, by the time `p + 1` keys of that account were examined, whatever pages append,
   * other repairs remove and dispositions move in between.
   */
  lemma EveryKeyIsReached(accounts: set<AccountId>, problems: map<Key, bool>, start: Instant, before: seq<Event>,
                          later: seq<Event>, a: AccountId, p: nat)
    requires NeverOutdated(Fresh(accounts, problems, start), before + later, |before + later|)
    requires var world := Run(Fresh(accounts, problems, start), before);
             p < |Backlog(world, a)| && Examinations(world, later, a) > p
    ensures var world := Run(Fresh(accounts, problems, start), before);
            Reached(world, later, a, Backlog(world, a)[p])
  {
    LaterIsCurrent(Fresh(accounts, problems, start), before, later);
    ReachableIsSound(accounts, problems, start, before);
    ReachedWhenExamined(Run(Fresh(accounts, problems, start), before), later, a, p);
  }

  // ---- Passes ----------------------------------------------------------------------------------

  /** Every stretch of the run examines at least `pace` keys of the account, or as many as wait when it begins. */
  ghost predicate Paced(world: World, passes: seq<seq<Event>>, a: AccountId, pace: nat)
    decreases |passes|
  {
    passes == [] ||
      (&& Examinations(world, passes[0], a) >= Min(pace, |Backlog(world, a)|)
       && NeverOutdated(world, passes[0], |passes[0]|)
       && Paced(Run(world, passes[0]), passes[1..], a, pace))
  }

  ghost predicate ReachedWithin(world: World, passes: seq<seq<Event>>, a: AccountId, key: Key)
    decreases |passes|
  {
    passes != [] && (Reached(world, passes[0], a, key) || ReachedWithin(Run(world, passes[0]), passes[1..], a, key))
  }

  lemma {:induction false} PassesReach(world: World, passes: seq<seq<Event>>, a: AccountId, key: Key, q: int, pace: nat)
    requires Sound(world) && pace > 0 && Paced(world, passes, a, pace)
    requires WaitsBy(Backlog(world, a), key, q) && q < |passes| * pace
    ensures ReachedWithin(world, passes, a, key)
    decreases |passes|
  {
    hide Run, Next, Sound, Examinations, NeverOutdated, NotReached, Reached;
    var first, examined := passes[0], Examinations(world, passes[0], a);
    ReachedOrNot(world, first, a, key);
    if !Reached(world, first, a, key) {
      assert first[..|first|] == first;
      SoundAfter(world, first, |first|);
      var i :| 0 <= i < |Backlog(world, a)| && i <= q && Backlog(world, a)[i] == key;
      WaitsNow(Backlog(world, a), i);
      StillWaiting(world, first, a, key, i, |first|);
      NobodyWaitsBeforeTheHead(Backlog(Run(world, first), a), key, i - examined);
      assert examined >= pace;
      assert (|passes| - 1) * pace == |passes| * pace - pace;
      PassesReach(Run(world, first), passes[1..], a, key, i - examined, pace);
    }
  }

  /** With passes that may each stop after one request, position `p` waits at most `p + 1` passes. */
  lemma OneRequestPerPassSuffices(world: World, passes: seq<seq<Event>>, a: AccountId, p: nat)
    requires Sound(world) && Paced(world, passes, a, 1) && p < |Backlog(world, a)| && |passes| == p + 1
    ensures ReachedWithin(world, passes, a, Backlog(world, a)[p])
  {
    assert WaitsBy(Backlog(world, a), Backlog(world, a)[p], p);
    PassesReach(world, passes, a, Backlog(world, a)[p], p, 1);
  }

  lemma CeilingCovers(p: nat, bound: nat)
    requires bound > 0
    ensures p < ((p + bound) / bound) * bound
  {
    assert p + bound == ((p + bound) / bound) * bound + (p + bound) % bound;
  }

  /** With passes that run to the bound, position `p` waits at most the ceiling of `(p + 1) / bound` passes. */
  lemma FullPassesSuffice(world: World, passes: seq<seq<Event>>, a: AccountId, bound: nat, p: nat)
    requires Sound(world) && bound > 0 && Paced(world, passes, a, bound)
    requires p < |Backlog(world, a)| && |passes| == (p + bound) / bound
    ensures ReachedWithin(world, passes, a, Backlog(world, a)[p])
  {
    CeilingCovers(p, bound);
    assert WaitsBy(Backlog(world, a), Backlog(world, a)[p], p);
    PassesReach(world, passes, a, Backlog(world, a)[p], p, bound);
  }

  // ---- The loop and the run --------------------------------------------------------------------

  /** The events are committed items over this account, and the `i`-th answer is the loop's answer for its key. */
  ghost predicate LoopOf(world: World, events: seq<Event>, a: AccountId, queue: seq<Key>, answer: Key -> Answer, n: nat)
    requires n <= |events| && |events| <= |queue|
  {
    forall i | 0 <= i < n ::
      && Examines(Run(world, events[..i]), events[i].at, events[i].step, a)
      && (events[i].step.ItemFailedStep? <==> answer(queue[i]).Failed?)
  }

  /** What `repairMetadata` leaves after `n` keys is what a run leaves that examines them one by one. */
  lemma {:induction false} PassIsARun(world: World, events: seq<Event>, a: AccountId, queue: seq<Key>,
                                      answer: Key -> Answer, n: nat)
    requires Sound(world) && Backlog(world, a) == queue && n <= |events| <= |queue|
    requires NeverOutdated(world, events, n) && LoopOf(world, events, a, queue, answer, n)
    ensures Backlog(Run(world, events[..n]), a) == Remaining(queue, n, answer, world.db.dispositions.Keys)
    ensures Run(world, events[..n]).db.dispositions == world.db.dispositions
  {
    hide Run, Next, Sound, Examines;
    if n == 0 {
      RunNone(world, events);
    } else {
      hide Remaining;
      PassIsARun(world, events, a, queue, answer, n - 1);
      SoundAfter(world, events, n - 1);
      RunNext(world, events, n);
      var before, last := Run(world, events[..n - 1]), events[n - 1];
      assert Examines(before, last.at, last.step, a) && (last.step.ItemFailedStep? <==> answer(queue[n - 1]).Failed?);
      ExaminedItem(before, last.at, last.step, a);
      RemainingNext(queue, n - 1, answer, world.db.dispositions.Keys);
    }
  }
}
