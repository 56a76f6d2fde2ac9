/** The coaching transactions on one mutable table. */
module CoachingStore {
  import opened Prelude
  import opened RollingQuota
  import opened Coaching

  class AttemptTable {
    var rows: map<RequestId, Attempt>
    var heads: map<ProblemKey, SnapshotId>
    var settings: Option<Settings>

    constructor ()
      ensures Contents() == Db(map[], map[], None)
    {
      rows, heads, settings := map[], map[], None;
    }

    function Contents(): Db
      reads this
    {
      Db(rows, heads, settings)
    }

    /** Expired reservations become uncertain; the others are returned as still active. */
    method RecoverExpiredReservations(at: Instant) returns (active: set<RequestId>)
      modifies this`rows
      ensures rows == Recover(old(rows), at)
      ensures active == ReservedIds(rows)
    {
      var reserved := ReservedIds(rows);
      var left := reserved;
      active := {};
      while left != {}
        invariant left <= reserved
        invariant rows == map id | id in old(rows) ::
          if id in reserved - left && ExpiredReservation(old(rows)[id], at) then RecoveredRow(old(rows)[id], at)
            else old(rows)[id]
        invariant active == set id | id in reserved - left && old(rows)[id].expiresAt > at
      {
        var id :| id in left;
        left := left - {id};
        if rows[id].expiresAt > at {
          active := active + {id};
        } else {
          rows := rows[id := RecoveredRow(rows[id], at)];
        }
      }
    }

    /** One walk of the settled rows; a later success of a level replaces an earlier one. */
    method LowerLevelSuccesses(listing: seq<RequestId>, ask: Ask, snapshot: SnapshotId)
      returns (successes: map<HintNumber, RequestId>)
      ensures forall n: HintNumber :: n in successes <==> LatestSuccess(rows, listing, ask, snapshot, n).Some?
      ensures forall n | n in successes :: LatestSuccess(rows, listing, ask, snapshot, n) == Some(successes[n])
    {
      successes := map[];
      for i := 0 to |listing|
        invariant forall n: HintNumber :: n in successes <==> LatestSuccess(rows, listing[..i], ask, snapshot, n).Some?
        invariant forall n | n in successes :: LatestSuccess(rows, listing[..i], ask, snapshot, n) == Some(successes[n])
      {
        assert listing[..i + 1][..i] == listing[..i];
        var id := listing[i];
        if id in rows && rows[id].level.Hint? && Earned(rows[id], ask, snapshot, rows[id].level.number) {
          successes := successes[rows[id].level.number := id];
        }
      }
      assert listing[..|listing|] == listing;
    }

    /** The earlier hints sent with a request, lowest level first. */
    method BuildHints(successes: map<HintNumber, RequestId>, listing: seq<RequestId>, ask: Ask, snapshot: SnapshotId)
      returns (hints: seq<PreviousHint>)
      requires forall n: HintNumber :: n in successes <==> LatestSuccess(rows, listing, ask, snapshot, n).Some?
      requires forall n | n in successes :: LatestSuccess(rows, listing, ask, snapshot, n) == Some(successes[n])
      ensures hints == HintsFrom(rows, listing, ask, snapshot, LevelsBelow(ask.level))
    {
      var levels := LevelsBelow(ask.level);
      hints := [];
      for i := 0 to |levels|
        invariant hints == HintsFrom(rows, listing, ask, snapshot, levels[..i])
      {
        assert levels[..i + 1][..i] == levels[..i];
        if levels[i] in successes {
          hints := hints + [PreviousHint(levels[i], rows[successes[levels[i]]].text.value)];
        }
      }
      assert levels[..|levels|] == levels;
    }

    method ReserveOwned(id: RequestId, ask: Ask, snapshot: SnapshotId, listing: seq<RequestId>, scanBound: nat,
                        at: Instant)
      returns (outcome: Reservation)
      modifies this`rows
      ensures (Contents(), outcome) == Reserve(old(Contents()), id, ask, snapshot, listing, scanBound, at)
    {
      if |ReservedIds(rows)| > scanBound { return Overflow; }
      var before := rows;
      var active := RecoverExpiredReservations(at);
      if id in rows { return Existing; }
      if ask.expected.Some? && (settings.None? || settings.value.revision != ask.expected.value) {
        return SettingsChanged;
      }
      var current := if settings.Some? then settings.value else DEFAULTS;
      if ask.problem !in heads || heads[ask.problem] != snapshot { return StaleSnapshot; }
      if active != {} && |active| >= current.maxConcurrent { return ConcurrentCall; }
      if |CountedSince(rows, at - WINDOW_MS)| >= current.maxCalls { return QuotaExhausted; }
      if |listing| > scanBound {
        rows := before;
        return Overflow;
      }
      var successes := LowerLevelSuccesses(listing, ask, snapshot);
      if exists n | n in RequiredLevels(ask.level) :: n !in successes { return LevelNotEarned; }
      var hints := BuildHints(successes, listing, ask, snapshot);
      rows := rows[id := NewRow(ask, snapshot, current.timeoutMs, at)];
      return Granted(hints);
    }

    method SaveSettlement(id: RequestId, outcome: Outcome, now: Instant) returns (saved: bool)
      modifies this`rows
      ensures Contents() == Settle(old(Contents()), id, outcome, now)
    {
      saved := false;
      if id !in rows { return; }
      var next := SettledRow(Contents(), rows[id], outcome, now);
      saved := ValidShape(next) && (rows[id] == next || LegalChange(rows[id], next));
      if saved { rows := rows[id := next]; }
    }
  }
}
