/** The bounded, rotating repair of one account's missing metadata. */
module LuoguRepair {
  import opened Prelude
  import opened LuoguSyncState
  import opened SyncPages
  import opened LuoguSync
  import opened LuoguStore

  /**
   * What the platform answers for one key of this pass, and whether the refusal stops the source.
   * `again` says that the anonymous request was refused for want of a login and the key was requested a
   * second time as the account; the answer is then that of the second request.
   */
  datatype Answer = Fetched(again: bool) | Failed(again: bool, code: nat, stops: bool)

  /** Why a pass ended. */
  datatype Ending = Exhausted | BoundReached | SourceStopped | LeaseWasLost

  /** The failed keys of a stretch of the queue, in attempt order. */
  function Failing(keys: seq<Key>, answer: Key -> Answer, disposed: set<Key>): (kept: seq<Key>)
    ensures forall k :: k in kept <==> k in keys && k !in disposed && answer(k).Failed?
    ensures |kept| <= |keys|
  {
    if keys == [] then []
    else
      var rest := Failing(keys[..|keys| - 1], answer, disposed);
      var last := keys[|keys| - 1];
      assert forall k :: k in keys <==> k in keys[..|keys| - 1] || k == last;
      if last !in disposed && answer(last).Failed? then rest + [last] else rest
  }

  /** The queue after its first `n` keys were examined: the rest, then the failed ones in attempt order. */
  function Remaining(queue: seq<Key>, n: nat, answer: Key -> Answer, disposed: set<Key>): seq<Key>
    requires n <= |queue|
  {
    queue[n..] + Failing(queue[..n], answer, disposed)
  }

  /** Dispatched requests: every examined key without a disposition, plus one that lost its lease midway. */
  predicate Requested(fetched: seq<Key>, queue: seq<Key>, n: nat, disposed: set<Key>, ending: Ending)
    requires n <= |queue|
  {
    || fetched == Without(queue[..n], disposed)
    || (ending.LeaseWasLost? && n < |queue| && fetched == Without(queue[..n], disposed) + [queue[n]])
  }

  /** What one item left behind. */
  datatype ItemEnd = Progressed(queue: seq<Key>, issues: seq<Issue>, requested: bool, stop: bool)
    | Lost(requested: bool)

  /** What the durable backlog holds after one item, and what the item reports. */
  ghost predicate ItemLeft(backlog: seq<Key>, answer: Answer, disposed: set<Key>, problems: map<Key, bool>,
                           left: seq<Key>, end: ItemEnd)
    requires backlog != []
  {
    match end
    case Lost(requested) => left == backlog && (requested ==> backlog[0] !in disposed)
    case Progressed(queue, _, requested, stop) =>
      && left == queue == backlog[1..] + (if requested && answer.Failed? then [backlog[0]] else [])
      && (requested <==> backlog[0] !in disposed)
      && (stop <==> requested && answer.Failed? && answer.stops)
      && (requested && answer.Fetched? ==> backlog[0] in problems && problems[backlog[0]])
  }

  /** The clock readings of one item: before each of its requests, and when its outcome is written. */
  datatype Readings = Readings(asked: Instant, askedAgain: Instant, written: Instant)

  datatype Asking = NotAsked | LostAfterFirst | Asked

  /** The lease is validated and renewed immediately before every request of an item. */
  method Ask(store: SyncStore, owner: Owner, a: AccountId, again: bool, at: Readings, leaseMs: int)
    returns (asking: Asking)
    requires a in store.rows
    modifies store`rows
    ensures a in store.rows && store.rows[a].backlog == old(store.rows)[a].backlog
    ensures OthersSame(old(store.rows), store.rows, a)
    ensures asking.NotAsked? <==> Renew(old(store.Contents()), owner, a, leaseMs, at.asked).None?
    ensures asking.Asked? ==> a in store.rows && store.rows[a].owner == Some(owner)
    ensures asking.LostAfterFirst? ==> again && LeaseExpired(store.rows[a], at.askedAgain)
  {
    var renewed := store.RenewLease(owner, a, leaseMs, at.asked);
    if !renewed { return NotAsked; }
    if again {
      var still := store.RenewLease(owner, a, leaseMs, at.askedAgain);
      if !still { return LostAfterFirst; }
    }
    return Asked;
  }

  /**
   * One key of the loop: dequeued without a request when disposed of, dequeued with its problem when
   * fetched, moved to the end when it failed; the lease is renewed before every request, and a lost one
   * writes nothing.
   */
  method RepairOne(store: SyncStore, owner: Owner, a: AccountId, backlog: seq<Key>, issues: seq<Issue>, answer: Answer,
                   at: Readings, leaseMs: int)
    returns (end: ItemEnd)
    requires a in store.rows && store.rows[a].backlog == backlog && backlog != [] && NoDuplicates(backlog)
    modifies store`rows, store`problems
    ensures a in store.rows && ItemLeft(backlog, answer, store.dispositions.Keys, store.problems,
                                        store.rows[a].backlog, end)
    ensures StatementsKept(old(store.problems), store.problems)
    ensures OthersSame(old(store.rows), store.rows, a)
  {
    var key := backlog[0];
    WithoutHead(backlog);
    if key in store.dispositions {
      var cleared := ClearIssues(issues, {key});
      var saved := store.SaveQueue(owner, a, backlog[1..], cleared, leaseMs, at.written);
      return if saved then Progressed(backlog[1..], cleared, false, false) else Lost(false);
    }
    var asking := Ask(store, owner, a, answer.again, at, leaseMs);
    if !asking.Asked? { return Lost(asking.LostAfterFirst?); }
    end := RecordOutcome(store, owner, a, backlog, issues, answer, at.written, leaseMs);
  }

  /** The outcome of a requested key, written under the lease or not at all. */
  method RecordOutcome(store: SyncStore, owner: Owner, a: AccountId, backlog: seq<Key>, issues: seq<Issue>,
                       answer: Answer, at: Instant, leaseMs: int)
    returns (end: ItemEnd)
    requires a in store.rows && store.rows[a].backlog == backlog && backlog != [] && NoDuplicates(backlog)
    requires backlog[0] !in store.dispositions
    modifies store`rows, store`problems
    ensures a in store.rows && ItemLeft(backlog, answer, store.dispositions.Keys, store.problems,
                                        store.rows[a].backlog, end)
    ensures StatementsKept(old(store.problems), store.problems)
    ensures OthersSame(old(store.rows), store.rows, a)
  {
    var key := backlog[0];
    WithoutHead(backlog);
    match answer {
      case Fetched(_) =>
        var saved := store.CommitRepaired(owner, a, key, leaseMs, at);
        return if saved then Progressed(backlog[1..], ClearIssues(issues, {key}), true, false) else Lost(true);
      case Failed(_, code, stops) =>
        var noted := UpsertIssue(issues, Issue(key, code, at, NextAttempts(issues, key)));
        var saved := store.SaveQueue(owner, a, backlog[1..] + [key], noted, leaseMs, at);
        return if saved then Progressed(backlog[1..] + [key], noted, true, stops) else Lost(true);
    }
  }

  /** Every fetched key of the stretch has its statement stored. */
  ghost predicate RepairedAll(problems: map<Key, bool>, disposed: set<Key>, keys: seq<Key>, answer: Key -> Answer) {
    forall k | k in keys && k !in disposed && answer(k).Fetched? :: k in problems && problems[k]
  }

  ghost predicate StatementsKept(before: map<Key, bool>, after: map<Key, bool>) {
    forall k | k in before && before[k] :: k in after && after[k]
  }

  ghost predicate OthersSame(before: map<AccountId, SyncRow>, after: map<AccountId, SyncRow>, a: AccountId) {
    forall b | b in after && b != a :: b in before && after[b] == before[b]
  }

  lemma OthersSameTransitive(first: map<AccountId, SyncRow>, second: map<AccountId, SyncRow>,
                             third: map<AccountId, SyncRow>, a: AccountId)
    requires OthersSame(first, second, a) && OthersSame(second, third, a)
    ensures OthersSame(first, third, a)
  {
  }

  ghost predicate StoppedBy(fetched: seq<Key>, answer: Key -> Answer) {
    fetched != [] && answer(fetched[|fetched| - 1]).Failed? && answer(fetched[|fetched| - 1]).stops
  }

  /**
   * `repairMetadata`. With distinct queued keys the loop ends having requested each key at most once
   * and at most `bound` of them; the durable backlog is always the keys it did not reach, then the
   * failed ones in attempt order: nothing else left it but what was repaired or disposed of. It stops
   * early only for a source-level refusal or a lost lease.
   */
  method RepairMetadata(store: SyncStore, owner: Owner, a: AccountId, bound: nat, answer: Key -> Answer,
                        clock: Key -> Readings, leaseMs: int)
    returns (fetched: seq<Key>, examined: nat, ending: Ending)
    requires a in store.rows && NoDuplicates(store.rows[a].backlog)
    modifies store`rows, store`problems
    ensures a in store.rows && examined <= |old(store.rows)[a].backlog|
    ensures store.rows[a].backlog == Remaining(old(store.rows)[a].backlog, examined, answer, store.dispositions.Keys)
    ensures Requested(fetched, old(store.rows)[a].backlog, examined, store.dispositions.Keys, ending)
    ensures NoDuplicates(fetched) && |fetched| <= bound
    ensures ending.Exhausted? ==> examined == |old(store.rows)[a].backlog|
    ensures ending.BoundReached? ==> |fetched| == bound
    ensures ending.SourceStopped? ==> StoppedBy(fetched, answer)
    ensures RepairedAll(store.problems, store.dispositions.Keys, old(store.rows)[a].backlog[..examined], answer)
    ensures OthersSame(old(store.rows), store.rows, a)
  {
    ghost var queue := store.rows[a].backlog;
    ghost var disposed := store.dispositions.Keys;
    NothingExamined(queue, answer, disposed, store.problems, store.rows, a);
    hide Examined, Remaining, Requested, RepairedAll, OthersSame, StatementsKept, StoppedBy, NoDuplicates, ItemLeft;
    var backlog, issues := store.rows[a].backlog, store.rows[a].issues;
    var attempted: set<Key> := {};
    var stopped := false;
    fetched, examined := [], 0;
    while |fetched| < bound && backlog != [] && backlog[0] !in attempted && !stopped
      invariant a in store.rows && examined <= |queue| && |fetched| <= bound && backlog == store.rows[a].backlog
      invariant Examined(queue, examined, answer, disposed, backlog, fetched, attempted, stopped)
      invariant RepairedAll(store.problems, disposed, queue[..examined], answer)
      invariant OthersSame(old(store.rows), store.rows, a)
      decreases |queue| - examined
    {
      HeadIsNext(queue, examined, answer, disposed, backlog, fetched, attempted);
      var key := backlog[0];
      ghost var rows, problems := store.rows, store.problems;
      var end := RepairOne(store, owner, a, backlog, issues, answer(key), clock(key), leaseMs);
      OthersSameTransitive(old(store.rows), rows, store.rows, a);
      match end {
        case Lost(requested) =>
          ItemLost(queue, examined, answer, disposed, backlog, problems, store.problems, store.rows[a].backlog,
                   requested);
          WhatIsLeft(queue, examined, answer, disposed, backlog, fetched, attempted, false, requested);
          return if requested then fetched + [key] else fetched, examined, LeaseWasLost;
        case Progressed(rest, noted, requested, stop) =>
          ItemTaken(queue, examined, answer, disposed, backlog, fetched, attempted, problems, store.problems,
                    store.rows[a].backlog, end);
          backlog, issues, stopped := rest, noted, stop;
          if requested { fetched, attempted := fetched + [key], attempted + {key}; }
          examined := examined + 1;
      }
    }
    WhatIsLeft(queue, examined, answer, disposed, backlog, fetched, attempted, stopped, false);
    if stopped { return fetched, examined, SourceStopped; }
    if |fetched| == bound { return fetched, examined, BoundReached; }
    return fetched, examined, Exhausted;
  }

  /** What the loop knows: which keys are left, which were requested, and which were attempted. */
  ghost predicate Examined(queue: seq<Key>, n: nat, answer: Key -> Answer, disposed: set<Key>, backlog: seq<Key>,
                           fetched: seq<Key>, attempted: set<Key>, stopped: bool)
    requires n <= |queue|
  {
    && backlog == Remaining(queue, n, answer, disposed)
    && fetched == Without(queue[..n], disposed)
    && (forall k :: k in attempted <==> k in fetched)
    && (stopped ==> StoppedBy(fetched, answer))
  }

  lemma NothingExamined(queue: seq<Key>, answer: Key -> Answer, disposed: set<Key>, problems: map<Key, bool>,
                        rows: map<AccountId, SyncRow>, a: AccountId)
    ensures Examined(queue, 0, answer, disposed, queue, [], {}, false)
    ensures RepairedAll(problems, disposed, queue[..0], answer) && OthersSame(rows, rows, a)
  {
  }

  lemma RemainingDistinct(queue: seq<Key>, n: nat, answer: Key -> Answer, disposed: set<Key>)
    requires n <= |queue| && NoDuplicates(queue)
    ensures NoDuplicates(Remaining(queue, n, answer, disposed))
  {
    var left, kept, rest := Remaining(queue, n, answer, disposed), Failing(queue[..n], answer, disposed), |queue| - n;
    FailingDistinct(queue[..n], answer, disposed);
    forall i, m | 0 <= i < m < |left| ensures left[i] != left[m] {
      if m < rest {
        assert left[i] == queue[n + i] && left[m] == queue[n + m];
      } else if i < rest {
        assert left[i] == queue[n + i] && left[m] == kept[m - rest] && left[m] in kept;
        assert left[m] in queue[..n];
      } else {
        assert left[i] == kept[i - rest] && left[m] == kept[m - rest];
      }
    }
  }

  /** A head that was not attempted yet is the next unexamined key. */
  lemma HeadIsNext(queue: seq<Key>, n: nat, answer: Key -> Answer, disposed: set<Key>, backlog: seq<Key>,
                   fetched: seq<Key>, attempted: set<Key>)
    requires n <= |queue| && NoDuplicates(queue)
      && Examined(queue, n, answer, disposed, backlog, fetched, attempted, false)
    requires backlog != [] && backlog[0] !in attempted
    ensures n < |queue| && backlog[0] == queue[n] && NoDuplicates(backlog)
  {
    var head := backlog[0];
    RemainingDistinct(queue, n, answer, disposed);
    assert backlog == queue[n..] + Failing(queue[..n], answer, disposed) && head in backlog;
    assert head in Failing(queue[..n], answer, disposed) ==> head in fetched;
  }

  /** An item that lost its lease left the queue and every repaired statement alone. */
  lemma ItemLost(queue: seq<Key>, n: nat, answer: Key -> Answer, disposed: set<Key>, backlog: seq<Key>,
                 before: map<Key, bool>, after: map<Key, bool>, left: seq<Key>, requested: bool)
    requires n < |queue| && backlog != [] && backlog[0] == queue[n]
    requires ItemLeft(backlog, answer(queue[n]), disposed, after, left, Lost(requested))
    requires RepairedAll(before, disposed, queue[..n], answer) && StatementsKept(before, after)
    ensures left == backlog && (requested ==> queue[n] !in disposed)
    ensures RepairedAll(after, disposed, queue[..n], answer)
  {
  }

  /** Examining the head advances the remaining queue, the requested keys and the repaired stretch by one. */
  lemma ItemTaken(queue: seq<Key>, n: nat, answer: Key -> Answer, disposed: set<Key>, backlog: seq<Key>,
                  fetched: seq<Key>,
                  attempted: set<Key>, before: map<Key, bool>, after: map<Key, bool>, left: seq<Key>, end: ItemEnd)
    requires n < |queue| && Examined(queue, n, answer, disposed, backlog, fetched, attempted, false)
    requires backlog != [] && backlog[0] == queue[n] && end.Progressed?
    requires ItemLeft(backlog, answer(queue[n]), disposed, after, left, end)
    requires RepairedAll(before, disposed, queue[..n], answer) && StatementsKept(before, after)
    ensures Examined(queue, n + 1, answer, disposed, end.queue,
                     if end.requested then fetched + [queue[n]] else fetched,
                     if end.requested then attempted + {queue[n]} else attempted, end.stop)
    ensures left == end.queue && RepairedAll(after, disposed, queue[..n + 1], answer)
  {
    RemainingNext(queue, n, answer, disposed);
    assert queue[..n + 1] == queue[..n] + [queue[n]] && queue[..n + 1][..n] == queue[..n];
    hide Remaining;
  }

  /** Examining one more key takes it from the head and keeps it at the end when it failed. */
  lemma RemainingNext(queue: seq<Key>, n: nat, answer: Key -> Answer, disposed: set<Key>)
    requires n < |queue|
    ensures var left := Remaining(queue, n, answer, disposed);
            && left != [] && left[0] == queue[n]
            && Remaining(queue, n + 1, answer, disposed)
                 == left[1..] + if queue[n] !in disposed && answer(queue[n]).Failed? then [queue[n]] else []
  {
    var head, kept := queue[..n + 1], Failing(queue[..n], answer, disposed);
    var tail := if queue[n] !in disposed && answer(queue[n]).Failed? then [queue[n]] else [];
    assert head[..n] == queue[..n] && head[n] == queue[n];
    assert queue[n..] == [queue[n]] + queue[n + 1..];
    assert Failing(head, answer, disposed) == kept + tail;
    assert (queue[n..] + kept)[1..] == queue[n + 1..] + kept;
  }

  /** What the method reports at its end, with one more request when the lease was lost in the middle of an item. */
  lemma WhatIsLeft(queue: seq<Key>, n: nat, answer: Key -> Answer, disposed: set<Key>, backlog: seq<Key>,
                   fetched: seq<Key>, attempted: set<Key>, stopped: bool, lost: bool)
    requires n <= |queue| && NoDuplicates(queue)
      && Examined(queue, n, answer, disposed, backlog, fetched, attempted, stopped)
    requires lost ==> n < |queue| && queue[n] !in disposed
    ensures backlog == Remaining(queue, n, answer, disposed)
    ensures forall ending :: Requested(fetched, queue, n, disposed, ending)
    ensures NoDuplicates(fetched) && (stopped ==> StoppedBy(fetched, answer))
    ensures lost ==>
      && Requested(fetched + [queue[n]], queue, n, disposed, LeaseWasLost)
      && NoDuplicates(fetched + [queue[n]])
    ensures backlog == [] || backlog[0] in attempted ==> n == |queue|
  {
    assert NoDuplicates(queue[..n]);
    if lost { assert queue[n] !in queue[..n]; }
    assert n < |queue| ==> backlog != [] && backlog[0] == queue[n] && queue[n] !in queue[..n];
  }

  lemma {:induction false} FailingDistinct(keys: seq<Key>, answer: Key -> Answer, disposed: set<Key>)
    requires NoDuplicates(keys)
    ensures NoDuplicates(Failing(keys, answer, disposed))
  {
    if keys != [] { FailingDistinct(keys[..|keys| - 1], answer, disposed); }
  }

  /** A pass examines at least one key, and at least its bound unless it stopped early or ran out of keys. */
  lemma PassesKeepPace(fetched: seq<Key>, queue: seq<Key>, n: nat, disposed: set<Key>, bound: nat, ending: Ending)
    requires n <= |queue| && bound > 0 && Requested(fetched, queue, n, disposed, ending) && !ending.LeaseWasLost?
    requires ending.Exhausted? ==> n == |queue|
    requires ending.BoundReached? ==> |fetched| == bound
    requires ending.SourceStopped? ==> fetched != []
    ensures n >= Min(1, |queue|)
    ensures !ending.SourceStopped? ==> n >= Min(bound, |queue|)
  {
  }
}
