/**
 * Paid coaching hints (src/application/coaching-service.ts, coaching-types.ts, coaching-generation.ts):
 * bounded concurrency, a rolling quota, and hints that must be earned level by level.
 */
module Coaching {
  import opened Prelude
  import opened RollingQuota

  type RequestId = nat
  type ProblemKey = nat
  type SnapshotId = nat

  /** A hint text is represented by its length; a blank text has length zero. */
  type Text = nat

  const MAX_RESPONSE_CHARS := 200000
  const MAX_PREVIOUS_HINTS := 3
  const LEASE_MARGIN_MS := 30000

  type HintNumber = n: nat | 1 <= n <= 3 witness 1

  datatype Level = Hint(number: HintNumber) | FullSolution

  datatype Status = Reserved | Uncertain | Settled

  datatype Attempt = Attempt(
    account: Option<nat>,
    problem: ProblemKey,
    snapshot: SnapshotId,
    level: Level,
    requestedAt: Instant,
    expiresAt: Instant,
    finishedAt: Option<Instant>,
    status: Status,
    usage: Option<nat>,
    text: Option<Text>,
    failed: bool)

  /** `expected` is the settings revision the caller read, if it names one. */
  datatype Ask = Ask(account: Option<nat>, problem: ProblemKey, level: Level, expected: Option<nat>)

  datatype Settings = Settings(revision: nat, maxConcurrent: int, maxCalls: int, timeoutMs: nat)

  /** Without a stored record the defaults apply. */
  const DEFAULTS := Settings(0, 1, 10, 180000)

  datatype Db = Db(rows: map<RequestId, Attempt>, heads: map<ProblemKey, SnapshotId>, settings: Option<Settings>)

  // ---- Record rules --------------------------------------------------------------------------

  predicate ValidText(text: Text) {
    1 <= text <= MAX_RESPONSE_CHARS
  }

  predicate ValidShape(row: Attempt) {
    && row.requestedAt < row.expiresAt
    && (row.finishedAt.Some? ==> row.requestedAt <= row.finishedAt.value)
    && (row.text.Some? ==> ValidText(row.text.value))
    && match row.status
       case Reserved => row.finishedAt.None? && row.usage.None? && row.text.None? && !row.failed
       case Uncertain => row.finishedAt.Some? && row.usage.None? && row.text.None? && row.failed
       case Settled => row.finishedAt.Some? && row.usage.Some? && row.text.Some? != row.failed
  }

  predicate SameRequest(before: Attempt, after: Attempt) {
    && after.account == before.account && after.problem == before.problem && after.snapshot == before.snapshot
    && after.level == before.level && after.requestedAt == before.requestedAt && after.expiresAt == before.expiresAt
  }

  /** Forward only; a late settlement may still replace an uncertain row, a settled one never changes. */
  predicate LegalChange(before: Attempt, after: Attempt) {
    && SameRequest(before, after)
    && !before.status.Settled?
    && (if before.status.Reserved? then after.status.Uncertain? || after.status.Settled? else after.status.Settled?)
  }

  function Saved(db: Db, id: RequestId, next: Attempt): Option<Db> {
    if !ValidShape(next) then None
    else if id !in db.rows || db.rows[id] == next || LegalChange(db.rows[id], next)
    then Some(db.(rows := db.rows[id := next]))
    else None
  }

  // ---- Reservation ---------------------------------------------------------------------------

  predicate ExpiredReservation(row: Attempt, at: Instant) {
    row.status.Reserved? && row.expiresAt <= at
  }

  function RecoveredRow(row: Attempt, at: Instant): Attempt {
    row.(status := Uncertain, finishedAt := Some(at), failed := true)
  }

  function Recover(rows: map<RequestId, Attempt>, at: Instant): map<RequestId, Attempt> {
    map id | id in rows :: if ExpiredReservation(rows[id], at) then RecoveredRow(rows[id], at) else rows[id]
  }

  function ReservedIds(rows: map<RequestId, Attempt>): set<RequestId> {
    set id | id in rows && rows[id].status.Reserved?
  }

  /** The coaching count has no status filter: every row counts. */
  function CountedSince(rows: map<RequestId, Attempt>, since: Instant): set<RequestId> {
    set id | id in rows && rows[id].requestedAt >= since
  }

  /** A settled answer of hint `n` for the same account, problem and snapshot. */
  predicate Earned(row: Attempt, ask: Ask, snapshot: SnapshotId, n: HintNumber) {
    && row.account == ask.account && row.problem == ask.problem && row.snapshot == snapshot
    && row.level == Hint(n) && row.status.Settled? && row.text.Some?
  }

  /** The last success of one level in a listing of the settled rows. */
  function LatestSuccess(rows: map<RequestId, Attempt>, listing: seq<RequestId>, ask: Ask, snapshot: SnapshotId,
                         n: HintNumber)
    : (found: Option<RequestId>)
    ensures found.Some? ==> found.value in listing && found.value in rows && Earned(rows[found.value], ask, snapshot, n)
    ensures found.None? ==> forall id | id in listing && id in rows :: !Earned(rows[id], ask, snapshot, n)
  {
    if listing == [] then None
    else
      var last := listing[|listing| - 1];
      assert forall id :: id in listing <==> id in listing[..|listing| - 1] || id == last;
      if last in rows && Earned(rows[last], ask, snapshot, n) then Some(last)
      else LatestSuccess(rows, listing[..|listing| - 1], ask, snapshot, n)
  }

  /** The store's page order: requested instant first, then id. */
  predicate NotAfter(rows: map<RequestId, Attempt>, id: RequestId, other: RequestId)
    requires id in rows && other in rows
  {
    rows[id].requestedAt < rows[other].requestedAt || (rows[id].requestedAt == rows[other].requestedAt && id <= other)
  }

  /** Over a complete, ordered listing a level counts as earned exactly when it is, and its newest answer is used. */
  lemma {:induction false} LatestSuccessIsNewest(rows: map<RequestId, Attempt>, listing: seq<RequestId>, ask: Ask,
                                                 snapshot: SnapshotId, n: HintNumber)
    requires forall id | id in listing :: id in rows
    requires forall i, j | 0 <= i < j < |listing| :: NotAfter(rows, listing[i], listing[j])
    ensures var found := LatestSuccess(rows, listing, ask, snapshot, n);
            && (found.Some? <==> exists id :: id in listing && Earned(rows[id], ask, snapshot, n))
            && (found.Some? ==> forall id | id in listing && Earned(rows[id], ask, snapshot, n) ::
                NotAfter(rows, id, found.value))
  {
    if listing != [] {
      var front, last := listing[..|listing| - 1], listing[|listing| - 1];
      LatestSuccessIsNewest(rows, front, ask, snapshot, n);
      assert forall id | id in front :: NotAfter(rows, id, last);
    }
  }

  predicate Below(n: HintNumber, level: Level) {
    level.FullSolution? || n < level.number
  }

  /** The levels below one; `full` stands above all three. */
  function LevelsBelow(level: Level): (levels: seq<HintNumber>)
    ensures forall n: HintNumber :: n in levels <==> Below(n, level)
    ensures |levels| <= 3 && forall i, j | 0 <= i < j < |levels| :: levels[i] < levels[j]
  {
    if level.FullSolution? then [1, 2, 3]
    else if level.number == 1 then []
    else if level.number == 2 then [1]
    else [1, 2]
  }

  /** The levels that must be settled before this one may be asked: none before the full solution. */
  function RequiredLevels(level: Level): seq<HintNumber> {
    if level.FullSolution? then [] else LevelsBelow(level)
  }

  predicate LevelEarned(rows: map<RequestId, Attempt>, listing: seq<RequestId>, ask: Ask, snapshot: SnapshotId) {
    forall n | n in RequiredLevels(ask.level) :: LatestSuccess(rows, listing, ask, snapshot, n).Some?
  }

  datatype PreviousHint = PreviousHint(level: HintNumber, text: Text)

  function HintsFrom(rows: map<RequestId, Attempt>, listing: seq<RequestId>, ask: Ask, snapshot: SnapshotId,
                     levels: seq<HintNumber>)
    : (hints: seq<PreviousHint>)
  {
    if levels == [] then []
    else
      var rest := HintsFrom(rows, listing, ask, snapshot, levels[..|levels| - 1]);
      var n := levels[|levels| - 1];
      var found := LatestSuccess(rows, listing, ask, snapshot, n);
      if found.None? then rest else rest + [PreviousHint(n, rows[found.value].text.value)]
  }

  function NewRow(ask: Ask, snapshot: SnapshotId, timeoutMs: nat, at: Instant): Attempt {
    Attempt(ask.account, ask.problem, snapshot, ask.level, at, at + timeoutMs + LEASE_MARGIN_MS, None, Reserved, None,
            None, false)
  }

  datatype Reservation =
    | Granted(hints: seq<PreviousHint>)
    | Existing
    | SettingsChanged | StaleSnapshot | ConcurrentCall | QuotaExhausted | LevelNotEarned
    | Overflow

  /**
   * `reserve`. A refusal commits the recoveries; a truncated walk over `scanBound` rows rolls them back.
   * `listing` is the store's page order of the settled rows of this account and problem.
   */
  function Reserve(db: Db, id: RequestId, ask: Ask, snapshot: SnapshotId, listing: seq<RequestId>, scanBound: nat,
                   at: Instant)
    : (Db, Reservation)
  {
    var rows := Recover(db.rows, at);
    var recovered := db.(rows := rows);
    var settings := if db.settings.Some? then db.settings.value else DEFAULTS;
    if |ReservedIds(db.rows)| > scanBound then (db, Overflow)
    else if id in db.rows then (recovered, Existing)
    else if ask.expected.Some? && (db.settings.None? || db.settings.value.revision != ask.expected.value)
    then (recovered, SettingsChanged)
    else if ask.problem !in db.heads || db.heads[ask.problem] != snapshot then (recovered, StaleSnapshot)
    else if ReservedIds(rows) != {} && |ReservedIds(rows)| >= settings.maxConcurrent then (recovered, ConcurrentCall)
    else if |CountedSince(rows, at - WINDOW_MS)| >= settings.maxCalls then (recovered, QuotaExhausted)
    else if |listing| > scanBound then (db, Overflow)
    else if !LevelEarned(rows, listing, ask, snapshot) then (recovered, LevelNotEarned)
    else (db.(rows := rows[id := NewRow(ask, snapshot, settings.timeoutMs, at)]),
          Granted(HintsFrom(rows, listing, ask, snapshot, LevelsBelow(ask.level))))
  }

  // ---- Settlement ----------------------------------------------------------------------------

  datatype Outcome =
    | Answered(paid: nat, text: Text, cancelled: bool)
    | Refused(usage: Option<nat>)
    | Threw
    | NotDispatched

  /** Staleness wins over cancellation; an answer is stored only while its snapshot is still the head. */
  function SettledRow(db: Db, row: Attempt, outcome: Outcome, now: Instant): Attempt {
    var done := row.(finishedAt := Some(now), usage := None, text := None, failed := true);
    match outcome
    case NotDispatched => done.(status := Settled, usage := Some(0))
    case Threw => done.(status := Uncertain)
    case Refused(usage) => done.(status := if usage.None? then Uncertain else Settled, usage := usage)
    case Answered(paid, text, cancelled) =>
      var current := row.problem in db.heads && db.heads[row.problem] == row.snapshot;
      if !current || cancelled then done.(status := Settled, usage := Some(paid))
      else done.(status := Settled, usage := Some(paid), text := Some(text), failed := false)
  }

  function Settle(db: Db, id: RequestId, outcome: Outcome, now: Instant): Db {
    if id !in db.rows then db
    else
      var saved := Saved(db, id, SettledRow(db, db.rows[id], outcome, now));
      if saved.Some? then saved.value else db
  }

  // ---- The pre-dispatch contract -------------------------------------------------------------

  datatype GenerationProblem = FullNotExplicit | UnexpectedExplicit | TooManyHints | RepeatedLevel | BadText | NotBelow

  /** `coachingGenerationProblem`, apart from the plain field checks. */
  method CheckGeneration(level: Level, explicitFull: bool, hints: seq<PreviousHint>)
    returns (problem: Option<GenerationProblem>)
    ensures problem.None? <==> WellFormed(level, explicitFull, hints)
  {
    if level.FullSolution? && !explicitFull { return Some(FullNotExplicit); }
    if !level.FullSolution? && explicitFull { return Some(UnexpectedExplicit); }
    if |hints| > MAX_PREVIOUS_HINTS { return Some(TooManyHints); }
    var seen: set<HintNumber> := {};
    for i := 0 to |hints|
      invariant forall n :: n in seen <==> exists j :: 0 <= j < i && hints[j].level == n
      invariant forall j | 0 <= j < i :: ValidText(hints[j].text) && Below(hints[j].level, level)
      invariant forall j, k | 0 <= j < k < i :: hints[j].level != hints[k].level
    {
      var hint := hints[i];
      if hint.level in seen { return Some(RepeatedLevel); }
      seen := seen + {hint.level};
      if !ValidText(hint.text) { return Some(BadText); }
      if !level.FullSolution? && hint.level >= level.number { return Some(NotBelow); }
    }
    return None;
  }

  /** What the generator may be asked: distinct, strictly lower hints with a text, at most three. */
  ghost predicate WellFormed(level: Level, explicitFull: bool, hints: seq<PreviousHint>) {
    && (explicitFull <==> level.FullSolution?)
    && |hints| <= MAX_PREVIOUS_HINTS
    && (forall i, j | 0 <= i < j < |hints| :: hints[i].level != hints[j].level)
    && (forall i | 0 <= i < |hints| :: ValidText(hints[i].text) && Below(hints[i].level, level))
  }

  lemma {:induction false} HintsAreLower(rows: map<RequestId, Attempt>, listing: seq<RequestId>, ask: Ask,
                                         snapshot: SnapshotId, levels: seq<HintNumber>)
    requires forall id | id in rows :: ValidShape(rows[id])
    requires forall i, j | 0 <= i < j < |levels| :: levels[i] < levels[j]
    ensures var hints := HintsFrom(rows, listing, ask, snapshot, levels);
            && |hints| <= |levels|
            && (forall i | 0 <= i < |hints| :: hints[i].level in levels && ValidText(hints[i].text))
            && (forall i, j | 0 <= i < j < |hints| :: hints[i].level != hints[j].level)
  {
    if levels != [] {
      var front := levels[..|levels| - 1];
      HintsAreLower(rows, listing, ask, snapshot, front);
      assert forall n | n in front :: n in levels && n < levels[|levels| - 1];
    }
  }

  /** Every request a granted reservation leads to is one the generator accepts. */
  lemma GrantedRequestsAreWellFormed(db: Db, id: RequestId, ask: Ask, snapshot: SnapshotId, listing: seq<RequestId>,
                                     scanBound: nat, at: Instant)
    requires forall other | other in db.rows :: ValidShape(db.rows[other])
    requires Reserve(db, id, ask, snapshot, listing, scanBound, at).1.Granted?
    ensures WellFormed(ask.level, ask.level.FullSolution?,
                       Reserve(db, id, ask, snapshot, listing, scanBound, at).1.hints)
  {
    var rows := Recover(db.rows, at);
    forall other | other in rows ensures ValidShape(rows[other]) {
      assert ValidShape(db.rows[other]);
    }
    HintsAreLower(rows, listing, ask, snapshot, LevelsBelow(ask.level));
  }
}
