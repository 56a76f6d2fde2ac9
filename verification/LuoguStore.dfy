/**
 * The service's transactions as methods on one mutable store, and the repair loop that drives them.
 */
module LuoguStore {
  import opened Prelude
  import opened LuoguSyncState
  import opened SyncPages
  import opened LuoguSync

  class SyncStore {
    var accounts: set<AccountId>
    var rows: map<AccountId, SyncRow>
    var checkpoints: map<AccountId, Checkpoint>
    var submissions: set<Submission>
    var problems: map<Key, bool>
    var dispositions: map<Key, Disposition>

    constructor (db: Db)
      ensures Contents() == db
    {
      accounts, rows, checkpoints := db.accounts, db.rows, db.checkpoints;
      submissions, problems, dispositions := db.submissions, db.problems, db.dispositions;
    }

    function Contents(): Db
      reads this
    {
      Db(accounts, rows, checkpoints, submissions, problems, dispositions)
    }

    /** `claim`: scans every account of the source before it writes its one row. */
    method TakeLease(owner: Owner, a: AccountId, purpose: Purpose, leaseMs: int, at: Instant)
      returns (plan: Option<Plan>)
      modifies this`rows
      ensures plan.Some? <==> Claim(old(Contents()), owner, a, purpose, leaseMs, at).Some?
      ensures plan.Some? ==> Claim(old(Contents()), owner, a, purpose, leaseMs, at) == Some((Contents(), plan.value))
      ensures plan.None? ==> rows == old(rows)
    {
      var left := accounts;
      var found := false;
      while left != {}
        invariant left <= accounts && (found <==> a in accounts - left)
        invariant forall b | b in rows && b in accounts - left && b != a :: !LeaseLive(rows[b], None, at)
      {
        var candidate :| candidate in left;
        left := left - {candidate};
        if candidate == a {
          found := true;
        } else if candidate in rows && LeaseLive(rows[candidate], None, at) {
          return None;
        }
      }
      if !found || HeldByAnother(RowOf(Contents(), a), owner, at) { return None; }
      var (row, planned) := ClaimedRow(Contents(), a, purpose, at);
      rows := rows[a := row.Leased(owner, at + leaseMs)];
      return Some(planned);
    }

    method RenewLease(owner: Owner, a: AccountId, leaseMs: int, at: Instant) returns (live: bool)
      modifies this`rows
      ensures live <==> Renew(old(Contents()), owner, a, leaseMs, at).Some?
      ensures live ==> Renew(old(Contents()), owner, a, leaseMs, at) == Some(Contents())
      ensures !live ==> rows == old(rows)
    {
      live := a in rows && rows[a].owner == Some(owner) && !LeaseExpired(rows[a], at);
      if live { rows := rows[a := rows[a].Leased(owner, at + leaseMs)]; }
    }

    method ReleaseLease(owner: Owner, a: AccountId)
      modifies this`rows
      ensures Contents() == Release(old(Contents()), owner, a)
    {
      if a in rows && rows[a].owner == Some(owner) { rows := rows[a := rows[a].Released()]; }
    }

    /** The backlog loop of `commitPage`. */
    method PushMissing(backlog: seq<Key>, keys: seq<Key>) returns (next: Option<seq<Key>>)
      ensures next == Enqueued(backlog, keys, dispositions.Keys)
    {
      var queue := backlog;
      for i := 0 to |keys|
        invariant Enqueued(backlog, keys[..i], dispositions.Keys) == Some(queue)
      {
        assert keys[..i + 1][..i] == keys[..i];
        if keys[i] in dispositions || keys[i] in queue {
        } else if |queue| >= MAX_BACKLOG {
          OneTooMany(backlog, keys, dispositions.Keys, i + 1);
          return None;
        } else {
          queue := queue + [keys[i]];
        }
      }
      assert keys[..|keys|] == keys;
      return Some(queue);
    }

    /** One page of `syncPage` with the service's hook: rows, checkpoint and progress commit together. */
    method CommitOnePage(owner: Owner, a: AccountId, plan: Plan, before: Option<Checkpoint>, page: Page, leaseMs: int,
                         at: Instant)
      returns (refused: Option<PageRefusal>)
      modifies this
      ensures refused.None? ==>
        CommitPage(old(Contents()), owner, a, plan, before, page, leaseMs, at) == PageCommitted(Contents())
      ensures refused.Some? ==>
        && CommitPage(old(Contents()), owner, a, plan, before, page, leaseMs, at) == PageRefused(refused.value)
        && Contents() == old(Contents())
    {
      var position := ScanPosition(plan.mode, Bound(plan.since), before);
      if position.None? { return Some(NoPosition); }
      if Position(page.cursor, page.since) != position.value || |page.items| > PAGE_SIZE
        || (exists s | s in page.items :: s.account != a) { return Some(ForeignPage); }
      if page.next.Some? && page.next == page.cursor { return Some(ZeroProgress); }
      if CheckpointOf(Contents(), a) != before { return Some(CheckpointMoved); }
      var named, reported := CountMissing(page.items, Visible(Contents()));
      if reported > |named| { return Some(KeysTruncated); }
      if a !in rows || rows[a].owner != Some(owner) || LeaseExpired(rows[a], at) { return Some(LeaseLost); }
      var backlog := PushMissing(rows[a].backlog, named);
      if backlog.None? { return Some(BacklogFull); }
      submissions := submissions + set s | s in page.items;
      checkpoints := checkpoints[a := Checkpoint(page.next, page.since, at)];
      rows := rows[a := PagedRow(rows[a], backlog.value, page.next.None?, owner, at + leaseMs, at)];
      return None;
    }

    method CommitRepaired(owner: Owner, a: AccountId, key: Key, leaseMs: int, at: Instant) returns (saved: bool)
      modifies this`rows, this`problems
      ensures saved <==> CommitItem(old(Contents()), owner, a, key, leaseMs, at).Some?
      ensures saved ==> CommitItem(old(Contents()), owner, a, key, leaseMs, at) == Some(Contents())
      ensures !saved ==> Contents() == old(Contents())
    {
      saved := Queued(Contents(), owner, a, key, at);
      if saved {
        var row := rows[a];
        problems := problems[key := true];
        rows := rows[a := row.(backlog := Without(row.backlog, {key}), issues := ClearIssues(row.issues, {key}))
                            .Leased(owner, at + leaseMs)];
      }
    }

    method SaveQueue(owner: Owner, a: AccountId, queue: seq<Key>, issues: seq<Issue>, leaseMs: int, at: Instant)
      returns (saved: bool)
      modifies this`rows
      ensures saved <==> SaveProgress(old(Contents()), owner, a, queue, issues, leaseMs, at).Some?
      ensures saved ==> SaveProgress(old(Contents()), owner, a, queue, issues, leaseMs, at) == Some(Contents())
      ensures !saved ==> rows == old(rows)
    {
      saved := Holds(Contents(), owner, a, at);
      if saved { rows := rows[a := rows[a].(backlog := queue, issues := issues).Leased(owner, at + leaseMs)]; }
    }

    /** `cleanupDispositionQueues`: every account's queue drops the keys. */
    method CleanQueues(keys: set<Key>)
      modifies this`rows
      ensures rows == map b | b in old(rows) ::
        if b in accounts then CleanedRow(old(rows)[b], keys) else old(rows)[b]
    {
      var left := accounts;
      while left != {}
        invariant left <= accounts
        invariant rows == map b | b in old(rows) ::
          if b in accounts - left then CleanedRow(old(rows)[b], keys) else old(rows)[b]
      {
        var candidate :| candidate in left;
        left := left - {candidate};
        if candidate in rows { rows := rows[candidate := CleanedRow(rows[candidate], keys)]; }
      }
    }

    /** `recoverDurableSync`: every account gets its row, and a lease that is over is cleared. */
    method RecoverLeases(at: Instant)
      modifies this`rows
      ensures Contents() == Recover(old(Contents()), at)
    {
      var left := accounts;
      while left != {}
        invariant left <= accounts
        invariant rows == map b | b in (accounts - left) + old(rows).Keys ::
          if b in accounts - left then RecoveredRow(RowOf(old(Contents()), b), at) else old(rows)[b]
      {
        var candidate :| candidate in left;
        left := left - {candidate};
        if candidate !in rows {
          rows := rows[candidate := EMPTY_ROW];
        } else if rows[candidate].owner.Some? && LeaseExpired(rows[candidate], at) {
          rows := rows[candidate := rows[candidate].Released()];
        }
      }
    }

    /** `manageProblems`: the disposition batch and the queue cleanup commit together or not at all. */
    method ManageProblems(owner: Owner, a: AccountId, request: ManageRequest, at: Instant) returns (applied: bool)
      modifies this`rows, this`dispositions
      ensures applied <==> Manage(old(Contents()), owner, a, request, at).Some?
      ensures applied ==> Manage(old(Contents()), owner, a, request, at) == Some(Contents())
      ensures !applied ==> Contents() == old(Contents())
    {
      var before := Contents();
      if !Holds(before, owner, a, at) || !BatchAccepted(before, request) { return false; }
      dispositions := AppliedDispositions(before, request);
      CleanQueues(KeySet(request.keys));
      if request.action.Restore? && a in accounts {
        var restored := Enqueued(rows[a].backlog, request.keys, Repaired(before));
        if restored.None? {
          rows, dispositions := before.rows, before.dispositions;
          return false;
        }
        rows := rows[a := rows[a].(backlog := restored.value)];
      }
      return true;
    }
  }

  lemma {:induction false} OneTooMany(backlog: seq<Key>, keys: seq<Key>, suppressed: set<Key>, n: nat)
    requires n <= |keys| && Enqueued(backlog, keys[..n], suppressed).None?
    ensures Enqueued(backlog, keys, suppressed).None?
    decreases |keys| - n
  {
    if n == |keys| {
      assert keys[..n] == keys;
    } else {
      assert keys[..n + 1][..n] == keys[..n];
      OneTooMany(backlog, keys, suppressed, n + 1);
    }
  }
}
