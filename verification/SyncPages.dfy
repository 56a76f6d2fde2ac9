/**
 * Paged synchronization of one stream with an optimistic checkpoint (`ImportService.syncPage`).
 *
 * Any number of writers read the checkpoint, fetch a page while others commit, and commit only if the
 * checkpoint is still the one they read.
 */
module SyncPages {
  import opened Prelude
  import opened LuoguSyncState

  datatype ScanMode = StartScan | ContinueScan | RestartScan

  /** `Unspecified` asks for no bound of its own; `Bound(None)` asks for a full scan. */
  datatype Requested = Unspecified | Bound(since: Option<Instant>)

  datatype Checkpoint = Checkpoint(cursor: Option<Cursor>, since: Option<Instant>, updatedAt: Instant)

  datatype Position = Position(cursor: Option<Cursor>, since: Option<Instant>)

  function ScanPosition(mode: ScanMode, requested: Requested, before: Option<Checkpoint>): Option<Position> {
    match mode
    case ContinueScan =>
      if before.None? || before.value.cursor.None? then None
      else if requested.Bound? && requested.since != before.value.since then None
      else Some(Position(before.value.cursor, before.value.since))
    case StartScan =>
      if before.Some? && before.value.cursor.Some? then None
      else Some(Position(None, if requested.Bound? then requested.since else None))
    case RestartScan =>
      Some(Position(None, if requested.Bound? then requested.since
                          else if before.Some? then before.value.since else None))
  }

  /** One committed page: how it was asked for, what was asked, and where it leads. */
  datatype Commit = Commit(writer: nat, mode: ScanMode, at: Position, next: Option<Cursor>) {
    predicate Complete() { next.None? }
  }

  /** A writer between its read and its commit. */
  datatype Flight = Flight(mode: ScanMode, before: Option<Checkpoint>, at: Position)

  datatype Stream = Stream(checkpoint: Option<Checkpoint>, flights: map<nat, Flight>, log: seq<Commit>)

  const NEW_STREAM: Stream := Stream(None, map[], [])

  datatype StreamStep =
    | ReadStep(writer: nat, mode: ScanMode, requested: Requested)
    | CommitStep(writer: nat, next: Option<Cursor>, storedAt: Instant, hookAccepts: bool)
    | AbandonStep(writer: nat)

  /** The page a flight returns with may be committed. */
  predicate Commits(stream: Stream, writer: nat, next: Option<Cursor>, hookAccepts: bool) {
    && writer in stream.flights
    && !(next.Some? && next == stream.flights[writer].at.cursor)
    && stream.checkpoint == stream.flights[writer].before
    && hookAccepts
  }

  function NextStream(stream: Stream, step: StreamStep): Stream {
    match step
    case ReadStep(writer, mode, requested) =>
      var at := ScanPosition(mode, requested, stream.checkpoint);
      if at.None? then stream.(flights := stream.flights - {writer})
      else stream.(flights := stream.flights[writer := Flight(mode, stream.checkpoint, at.value)])
    case CommitStep(writer, next, storedAt, hookAccepts) =>
      if !Commits(stream, writer, next, hookAccepts) then stream.(flights := stream.flights - {writer})
      else
        var flight := stream.flights[writer];
        Stream(Some(Checkpoint(next, flight.at.since, storedAt)), stream.flights - {writer},
               stream.log + [Commit(writer, flight.mode, flight.at, next)])
    case AbandonStep(writer) => stream.(flights := stream.flights - {writer})
  }

  function RunStream(stream: Stream, steps: seq<StreamStep>): Stream {
    if steps == [] then stream else NextStream(RunStream(stream, steps[..|steps| - 1]), steps[|steps| - 1])
  }

  /** What page `i` must have been asked for, given everything committed before it. */
  ghost predicate FollowsPrevious(log: seq<Commit>, i: nat)
    requires i < |log|
  {
    match log[i].mode
    case ContinueScan =>
      && i > 0 && log[i - 1].next.Some?
      && log[i].at == Position(log[i - 1].next, log[i - 1].at.since)
      && log[i].next != log[i].at.cursor
    case StartScan => log[i].at.cursor.None? && (i > 0 ==> log[i - 1].Complete())
    case RestartScan => log[i].at.cursor.None?
  }

  ghost predicate Chained(log: seq<Commit>) {
    forall i | 0 <= i < |log| :: FollowsPrevious(log, i)
  }

  ghost predicate StreamInv(stream: Stream) {
    && Chained(stream.log)
    && (stream.checkpoint.None? <==> stream.log == [])
    && (stream.log != [] ==>
          && stream.checkpoint.value.cursor == stream.log[|stream.log| - 1].next
          && stream.checkpoint.value.since == stream.log[|stream.log| - 1].at.since)
    && (forall w | w in stream.flights ::
          exists requested :: ScanPosition(stream.flights[w].mode, requested, stream.flights[w].before)
            == Some(stream.flights[w].at))
  }

  lemma StepKeeps(stream: Stream, step: StreamStep)
    requires StreamInv(stream)
    ensures StreamInv(NextStream(stream, step)) && stream.log <= NextStream(stream, step).log
  {
    if step.CommitStep? && Commits(stream, step.writer, step.next, step.hookAccepts) {
      var after := NextStream(stream, step);
      forall i | 0 <= i < |after.log| ensures FollowsPrevious(after.log, i) {
        if i < |stream.log| {
          assert FollowsPrevious(stream.log, i);
        }
      }
    }
  }

  /**
   * However many writers start, continue and restart one stream, every committed continue page was
   * fetched with exactly the cursor and bound the previous commit left, never with the cursor it
   * returned; a start follows only a finished scan.
   */
  lemma {:induction false} EveryPageFollowsThePrevious(steps: seq<StreamStep>)
    ensures StreamInv(RunStream(NEW_STREAM, steps))
    ensures Chained(RunStream(NEW_STREAM, steps).log)
  {
    if steps != [] {
      EveryPageFollowsThePrevious(steps[..|steps| - 1]);
      StepKeeps(RunStream(NEW_STREAM, steps[..|steps| - 1]), steps[|steps| - 1]);
    }
  }

  /** Index of the page that opened the scan page `i` belongs to. */
  function ScanStart(log: seq<Commit>, i: nat): (first: nat)
    requires i < |log|
    ensures first <= i
    ensures forall n | first < n <= i :: log[n].mode.ContinueScan?
    ensures first == 0 || !log[first].mode.ContinueScan?
  {
    if i == 0 || !log[i].mode.ContinueScan? then i else ScanStart(log, i - 1)
  }

  /** Page `n` begins where the page before it ended. */
  ghost predicate Joined(log: seq<Commit>, n: nat)
    requires 0 < n < |log|
  {
    log[n].at.cursor == log[n - 1].next && log[n - 1].next.Some?
  }

  /**
   * The pages since the latest start or restart are one unbroken chain: it opens without a cursor,
   * each page begins where the one before ended under one bound, and only its end can be complete.
   */
  lemma {:induction false} ScanIsOneChain(steps: seq<StreamStep>, i: nat)
    requires i < |RunStream(NEW_STREAM, steps).log|
    ensures var log := RunStream(NEW_STREAM, steps).log;
            var first := ScanStart(log, i);
            && log[first].at.cursor.None?
            && (forall n | first < n <= i :: Joined(log, n))
            && (forall n | first <= n <= i :: log[n].at.since == log[first].at.since)
            && (forall n | first <= n < i :: !log[n].Complete())
  {
    var log := RunStream(NEW_STREAM, steps).log;
    EveryPageFollowsThePrevious(steps);
    var first := ScanStart(log, i);
    assert FollowsPrevious(log, first);
    forall n | first < n <= i ensures Joined(log, n) {
      assert FollowsPrevious(log, n);
    }
    forall n | first <= n < i ensures !log[n].Complete() {
      assert Joined(log, n + 1);
    }
    OneBound(log, first, i);
  }

  lemma {:induction false} OneBound(log: seq<Commit>, first: nat, i: nat)
    requires Chained(log) && first <= i < |log|
    requires forall n | first < n <= i :: log[n].mode.ContinueScan?
    ensures forall n | first <= n <= i :: log[n].at.since == log[first].at.since
  {
    if i > first {
      OneBound(log, first, i - 1);
      assert FollowsPrevious(log, i);
    }
  }

  // ---- The rows of one submission page -------------------------------------------------------

  /** Keys of the items whose problem is not visible, first occurrence first. */
  function Missing(items: seq<Submission>, known: set<Key>): (keys: seq<Key>)
    ensures forall k :: k in keys <==> k !in known && exists s :: s in items && s.key == k
    ensures NoDuplicates(keys) && |keys| <= |items|
  {
    if items == [] then []
    else
      var rest := Missing(items[..|items| - 1], known);
      var last := items[|items| - 1];
      assert forall s :: s in items <==> s in items[..|items| - 1] || s == last;
      if last.key in known || last.key in rest then rest else rest + [last.key]
  }

  /** `writeSubmissions`: how many referenced problems are missing, and the first keys of them. */
  method CountMissing(items: seq<Submission>, known: set<Key>) returns (named: seq<Key>, reported: nat)
    ensures reported == |Missing(items, known)|
    ensures named == Missing(items, known)[..Min(reported, MISSING_KEY_LIMIT)]
  {
    hide Missing, NoDuplicates;
    var checked: set<Key> := {};
    named, reported := [], 0;
    MissingNone(items, known);
    for i := 0 to |items|
      invariant reported == |Missing(items[..i], known)|
      invariant named == Missing(items[..i], known)[..Min(reported, MISSING_KEY_LIMIT)]
      invariant forall k :: k in checked <==> exists n :: 0 <= n < i && items[n].key == k
    {
      MissingNext(items, i, known);
      var key := items[i].key;
      ghost var seen := checked;
      if key !in checked {
        checked := checked + {key};
        if key !in known {
          reported := reported + 1;
          if |named| < MISSING_KEY_LIMIT { named := named + [key]; }
        }
      }
      forall k ensures k in checked <==> exists n :: 0 <= n < i + 1 && items[n].key == k {
        if k in seen {
          var n :| 0 <= n < i && items[n].key == k;
        }
        assert k == key ==> items[i].key == k;
      }
    }
    assert items[..|items|] == items;
  }

  lemma MissingNone(items: seq<Submission>, known: set<Key>)
    ensures Missing(items[..0], known) == []
  {
  }

  /** One more item adds its key exactly when the key is unknown and new. */
  lemma MissingNext(items: seq<Submission>, i: nat, known: set<Key>)
    requires i < |items|
    ensures var seen := exists n :: 0 <= n < i && items[n].key == items[i].key;
            var added := if items[i].key in known || seen then [] else [items[i].key];
            Missing(items[..i + 1], known) == Missing(items[..i], known) + added
  {
    var earlier, key := items[..i], items[i].key;
    assert items[..i + 1][..i] == earlier;
    if exists n :: 0 <= n < i && items[n].key == key {
      var n :| 0 <= n < i && items[n].key == key;
      assert items[n] in earlier;
    }
    if key in Missing(earlier, known) {
      var s :| s in earlier && s.key == key;
      var n :| 0 <= n < i && earlier[n] == s;
      assert items[n].key == key;
    }
  }

  // ---- One call of `syncPage` ----------------------------------------------------------------

  datatype Report = Report(at: Position, next: Option<Cursor>, complete: bool)

  class StreamStore {
    var checkpoint: Option<Checkpoint>
    var log: seq<Commit>
    var submissions: set<Submission>

    ghost predicate Valid()
      reads this
    {
      StreamInv(Stream(checkpoint, map[], log))
    }

    /** The stream as its checkpoint and its log tell it, with nobody waiting for a page. */
    function AtRest(): Stream
      reads this
    {
      Stream(checkpoint, map[], log)
    }

    /** What other writers commit while this one waits for its page. */
    method Others(steps: seq<StreamStep>)
      requires Valid()
      modifies this
      ensures Valid() && old(log) <= log && submissions == old(submissions)
      ensures var left := RunStream(old(AtRest()), steps); checkpoint == left.checkpoint && log == left.log
    {
      var after := RunStream(Stream(checkpoint, map[], log), steps);
      RunKeeps(Stream(checkpoint, map[], log), steps);
      checkpoint, log := after.checkpoint, after.log;
    }

    /**
     * Reads the checkpoint, fetches while `during` happens, and commits rows, checkpoint and hook
     * together or not at all: exactly when the request has a position, the page moves on, the others
     * left the checkpoint that was read and the hook accepts. A refused call leaves what the others
     * left; a reported page is the next of its chain, and completion is reported exactly at its end.
     */
    method SyncPage(writer: nat, mode: ScanMode, requested: Requested, items: set<Submission>, next: Option<Cursor>,
                    storedAt: Instant, during: seq<StreamStep>, hookAccepts: bool) returns (report: Option<Report>)
      requires Valid()
      modifies this
      ensures Valid() && old(log) <= log
      ensures var at, left := ScanPosition(mode, requested, old(checkpoint)), RunStream(old(AtRest()), during);
              report.Some? <==>
                (&& at.Some? && !(next.Some? && next == at.value.cursor)
                 && left.checkpoint == old(checkpoint) && hookAccepts)
      ensures var at, left := ScanPosition(mode, requested, old(checkpoint)), RunStream(old(AtRest()), during);
              report.None? ==>
                && submissions == old(submissions)
                && AtRest() == if at.None? then old(AtRest()) else Stream(left.checkpoint, map[], left.log)
      ensures report.Some? ==>
        && submissions == old(submissions) + items
        && log == RunStream(old(AtRest()), during).log + [Commit(writer, mode, report.value.at, next)]
        && Some(report.value.at) == ScanPosition(mode, requested, old(checkpoint))
        && checkpoint == Some(Checkpoint(next, report.value.at.since, storedAt))
        && report.value.next == next && (report.value.complete <==> next.None?)
    {
      var before := checkpoint;
      var at := ScanPosition(mode, requested, before);
      if at.None? { return None; }
      Others(during);
      if next.Some? && next == at.value.cursor { return None; }
      if checkpoint != before || !hookAccepts { return None; }
      hide RunStream;
      ghost var flight := Stream(checkpoint, map[writer := Flight(mode, before, at.value)], log);
      StepKeeps(flight, CommitStep(writer, next, storedAt, hookAccepts));
      submissions := submissions + items;
      checkpoint := Some(Checkpoint(next, at.value.since, storedAt));
      log := log + [Commit(writer, mode, at.value, next)];
      return Some(Report(at.value, next, next.None?));
    }
  }

  lemma {:induction false} RunKeeps(stream: Stream, steps: seq<StreamStep>)
    requires StreamInv(stream)
    ensures StreamInv(RunStream(stream, steps)) && stream.log <= RunStream(stream, steps).log
  {
    if steps != [] {
      RunKeeps(stream, steps[..|steps| - 1]);
      StepKeeps(RunStream(stream, steps[..|steps| - 1]), steps[|steps| - 1]);
    }
  }
}
