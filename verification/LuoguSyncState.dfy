/** The durable synchronization row of one account and its pure updates (src/application/luogu-sync-types.ts). */
module LuoguSyncState {
  import opened Prelude

  type AccountId = nat
  type Key = nat
  type Cursor = nat

  const MAX_BACKLOG := 2000
  const PAGE_SIZE := 50
  const MISSING_KEY_LIMIT := 50
  const OVERLAP_MS := 7 * 24 * 60 * 60 * 1000
  const MAX_ISSUE_ATTEMPTS := 1000000
  const MAX_DISPOSITION_BATCH := 50

  datatype Submission = Submission(id: nat, account: AccountId, key: Key, at: Instant)

  datatype Issue = Issue(key: Key, code: nat, at: Instant, attempts: nat)

  datatype Phase = Backfill | Incremental | Reconcile

  datatype SyncRow = SyncRow(
    phase: Phase,
    historyComplete: bool,
    scanStartedAt: Option<Instant>,
    lastScanStartedAt: Option<Instant>,
    backlog: seq<Key>,
    issues: seq<Issue>,
    owner: Option<Owner>,
    leaseExpiresAt: Option<Instant>)
  {
    function Leased(holder: Owner, until: Instant): SyncRow {
      this.(owner := Some(holder), leaseExpiresAt := Some(until))
    }

    function Released(): SyncRow {
      this.(owner := None, leaseExpiresAt := None)
    }
  }

  const EMPTY_ROW: SyncRow := SyncRow(Backfill, false, None, None, [], [], None, None)

  predicate LeaseExpired(row: SyncRow, at: Instant) {
    row.owner.None? || row.leaseExpiresAt.None? || row.leaseExpiresAt.value <= at
  }

  /** `owner` absent asks whether anyone holds the lease. */
  predicate LeaseLive(row: SyncRow, owner: Option<Owner>, at: Instant) {
    !LeaseExpired(row, at) && (owner.None? || row.owner == owner)
  }

  predicate HeldByAnother(row: SyncRow, owner: Owner, at: Instant) {
    LeaseLive(row, None, at) && row.owner != Some(owner)
  }

  /** A lease is free, ours or another's: exactly one, at every instant. */
  lemma LeaseIsFreeOursOrTheirs(row: SyncRow, owner: Owner, at: Instant)
    ensures LeaseExpired(row, at) || LeaseLive(row, Some(owner), at) || HeldByAnother(row, owner, at)
    ensures !(LeaseExpired(row, at) && LeaseLive(row, None, at))
    ensures !(LeaseLive(row, Some(owner), at) && HeldByAnother(row, owner, at))
  {
  }

  /** The keys outside `dropped`, in order. */
  function Without(keys: seq<Key>, dropped: set<Key>): (kept: seq<Key>)
    ensures forall k :: k in kept <==> k in keys && k !in dropped
    ensures |kept| <= |keys|
    ensures NoDuplicates(keys) ==> NoDuplicates(kept)
  {
    if keys == [] then []
    else
      var rest := Without(keys[..|keys| - 1], dropped);
      var last := keys[|keys| - 1];
      assert forall k :: k in keys <==> k in keys[..|keys| - 1] || k == last;
      if last in dropped then rest else rest + [last]
  }

  /** Dropping the first of distinct keys leaves the rest. */
  lemma {:induction false} WithoutHead(queue: seq<Key>)
    requires queue != [] && NoDuplicates(queue)
    ensures Without(queue, {queue[0]}) == queue[1..]
  {
    if |queue| > 1 {
      var front := queue[..|queue| - 1];
      WithoutHead(front);
      assert front[1..] + [queue[|queue| - 1]] == queue[1..];
    }
  }

  /** Dropping other keys never moves a key back. */
  lemma {:induction false} WithoutAdvances(keys: seq<Key>, dropped: set<Key>, p: nat)
    requires p < |keys| && keys[p] !in dropped
    ensures exists q :: 0 <= q <= p && q < |Without(keys, dropped)| && Without(keys, dropped)[q] == keys[p]
  {
    var front := keys[..|keys| - 1];
    if p < |front| {
      WithoutAdvances(front, dropped, p);
      var q :| 0 <= q <= p && q < |Without(front, dropped)| && Without(front, dropped)[q] == keys[p];
      assert Without(keys, dropped)[q] == keys[p];
    } else {
      assert Without(keys, dropped) == Without(front, dropped) + [keys[p]];
      assert Without(keys, dropped)[|Without(front, dropped)|] == keys[p];
    }
  }

  function IssueKeys(issues: seq<Issue>): set<Key> {
    set i | 0 <= i < |issues| :: issues[i].key
  }

  lemma IssueKeysOfLast(issues: seq<Issue>, last: Issue)
    ensures IssueKeys(issues + [last]) == IssueKeys(issues) + {last.key}
  {
    var all := issues + [last];
    forall k | k in IssueKeys(issues) + {last.key} ensures k in IssueKeys(all) {
      if k == last.key {
        assert all[|issues|].key == k;
      } else {
        var i :| 0 <= i < |issues| && issues[i].key == k;
        assert all[i].key == k;
      }
    }
  }

  function ClearIssues(issues: seq<Issue>, dropped: set<Key>): (kept: seq<Issue>)
    ensures forall e :: e in kept <==> e in issues && e.key !in dropped
    ensures IssueKeys(kept) == IssueKeys(issues) - dropped
  {
    if issues == [] then []
    else
      var rest := ClearIssues(issues[..|issues| - 1], dropped);
      var last := issues[|issues| - 1];
      assert forall e :: e in issues <==> e in issues[..|issues| - 1] || e == last;
      assert issues == issues[..|issues| - 1] + [last];
      IssueKeysOfLast(issues[..|issues| - 1], last);
      IssueKeysOfLast(rest, last);
      if last.key in dropped then rest else rest + [last]
  }

  /** One entry per key: a new diagnostic replaces the old one and moves to the end. */
  function UpsertIssue(issues: seq<Issue>, issue: Issue): (kept: seq<Issue>)
    ensures IssueKeys(kept) == IssueKeys(issues) + {issue.key}
    ensures forall e | e in kept :: e == issue || (e in issues && e.key != issue.key)
  {
    var rest := ClearIssues(issues, {issue.key});
    IssueKeysOfLast(rest, issue);
    rest + [issue]
  }

  function AttemptsOf(issues: seq<Issue>, key: Key): nat {
    if issues == [] then 0
    else if issues[|issues| - 1].key == key then issues[|issues| - 1].attempts
    else AttemptsOf(issues[..|issues| - 1], key)
  }

  /** The next bounded attempt count of one diagnostic: it saturates instead of failing the save. */
  function NextAttempts(issues: seq<Issue>, key: Key): nat {
    Min(MAX_ISSUE_ATTEMPTS, AttemptsOf(issues, key) + 1)
  }

  /** What every stored row satisfies beside its lease. */
  ghost predicate ValidQueue(row: SyncRow) {
    && NoDuplicates(row.backlog)
    && |row.backlog| <= MAX_BACKLOG
    && IssueKeys(row.issues) <= (set k | k in row.backlog)
  }

  /** Keys appended to a backlog, skipping suppressed and queued ones; `None` when one does not fit. */
  function Enqueued(backlog: seq<Key>, keys: seq<Key>, suppressed: set<Key>): (next: Option<seq<Key>>)
    ensures next.Some? ==>
      && (forall k :: k in next.value <==> k in backlog || (k in keys && k !in suppressed))
      && backlog <= next.value && |next.value| <= |backlog| + |keys|
      && (NoDuplicates(backlog) ==> NoDuplicates(next.value))
      && (|backlog| <= MAX_BACKLOG ==> |next.value| <= MAX_BACKLOG)
    ensures |backlog| + |keys| <= MAX_BACKLOG ==> next.Some?
  {
    if keys == [] then Some(backlog)
    else
      var rest := Enqueued(backlog, keys[..|keys| - 1], suppressed);
      var last := keys[|keys| - 1];
      assert forall k :: k in keys <==> k in keys[..|keys| - 1] || k == last;
      if rest.None? then None
      else if last in suppressed || last in rest.value then rest
      else if |rest.value| >= MAX_BACKLOG then None
      else Some(rest.value + [last])
  }
}
