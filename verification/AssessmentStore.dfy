/** The assessment transactions on one mutable table, each proved to leave what its specification says. */
module AssessmentStore {
  import opened Prelude
  import opened RollingQuota
  import opened Assessment

  class AttemptTable {
    var rows: map<RequestId, Attempt>
    var settings: Option<Settings>
    var sources: map<AccountId, Hash>

    constructor ()
      ensures Contents() == Db(map[], None, map[])
    {
      rows, settings, sources := map[], None, map[];
    }

    function Contents(): Db
      reads this
    {
      Db(rows, settings, sources)
    }

    /** What other processes made of the table while this one waited. */
    method Others(left: Db)
      modifies this
      ensures Contents() == left
    {
      rows, settings, sources := left.rows, left.settings, left.sources;
    }

    /**
     * Reads the settings, then captures the evidence, then inserts in a transaction that looks for the id
     * again; `afterSettings` and `afterCapture` are what the others left after each read.
     */
    method PrepareOwned(id: RequestId, account: AccountId, afterSettings: Db, afterCapture: Db, at: Instant)
      modifies this
      ensures id in old(rows) || old(settings).None? ==> Contents() == old(Contents())
      ensures id !in old(rows) && old(settings).Some? ==>
        Contents() == Prepare(afterCapture, id, account, old(settings).value, SourceOf(afterSettings, account), at)
    {
      if id in rows || settings.None? { return; }
      var read := settings.value;
      Others(afterSettings);
      var source := SourceOf(Contents(), account);
      Others(afterCapture);
      if id in rows { return; }
      rows := rows[id := PreparedRow(read, account, source, at)];
    }

    /** Walks the reserved rows: expired ones become uncertain, the others are still in flight. */
    method RecoverExpired(at: Instant) returns (active: set<RequestId>, recovered: set<RequestId>)
      modifies this`rows
      ensures rows == Recover(old(rows), at)
      ensures active == set id | id in old(rows) && old(rows)[id].status.Reserved? && old(rows)[id].expiresAt > at
      ensures recovered == set id | id in old(rows) && ExpiredReservation(old(rows)[id], at)
    {
      var page := set id | id in rows && rows[id].status.Reserved?;
      var left := page;
      active, recovered := {}, {};
      while left != {}
        invariant left <= page
        invariant rows == map id | id in old(rows) ::
          if id in page - left && ExpiredReservation(old(rows)[id], at) then RecoveredRow(old(rows)[id], at)
            else old(rows)[id]
        invariant active == set id | id in page - left && old(rows)[id].expiresAt > at
        invariant recovered == set id | id in page - left && old(rows)[id].expiresAt <= at
      {
        var id :| id in left;
        left := left - {id};
        if rows[id].expiresAt > at {
          active := active + {id};
        } else {
          rows := rows[id := RecoveredRow(rows[id], at)];
          recovered := recovered + {id};
        }
      }
    }

    method ReserveOwned(id: RequestId, at: Instant, joined: bool) returns (outcome: Reservation)
      modifies this`rows
      ensures (Contents(), outcome) == Reserve(old(Contents()), id, at, joined)
    {
      if id !in rows { return Thrown; }
      var current := rows[id];
      if !current.status.Prepared? { return Existing; }
      if settings.None? || settings.value.revision != current.settingsRevision || settings.value.model != current.model
        || !settings.value.approved { return SettingsRefusal; }
      var before := rows;
      var active, _ := RecoverExpired(at);
      if active != {} {
        var blocking :| blocking in active;
        assert rows[blocking].status.Reserved? && rows[blocking].expiresAt > at;
      }
      if Busy(rows, at) {
        var other :| other in rows && rows[other].status.Reserved? && rows[other].expiresAt > at;
        assert other in active;
      }
      if active != {} { return BusyRefusal; }
      if |ChargedSince(rows, at - WINDOW_MS)| >= settings.value.maxCalls { return QuotaRefusal; }
      if !joined || SourceOf(Contents(), current.account) != current.sourceHash {
        rows := before;
        return Thrown;
      }
      rows := rows[id := ReservedRow(current, settings.value.timeoutMs, at)];
      return Granted;
    }

    /** A row that another path recovered or settled meanwhile is never rewritten. */
    method CommitSettlement(id: RequestId, outcome: Outcome, now: Instant) returns (written: bool)
      modifies this`rows
      ensures Contents() == Settle(old(Contents()), id, outcome, now)
      ensures written <==> id in old(rows) && old(rows)[id].status.Reserved?
    {
      written := id in rows && rows[id].status.Reserved?;
      if written { rows := rows[id := SettledRow(Contents(), rows[id], outcome, now)]; }
    }

    method CancelOwned(id: RequestId, now: Instant)
      modifies this`rows
      ensures Contents() == Cancel(old(Contents()), id, now)
    {
      if id !in rows || !rows[id].status.Prepared? { return; }
      var next := CancelledRow(rows[id], now);
      if ValidShape(next) && LegalChange(rows[id], next) { rows := rows[id := next]; }
    }
  }
}
