/**
 * The source-wide operation gate (src/application/luogu-source-gate.ts): one operation at a time, in
 * arrival order, spaced by a floor and by every delay the provider declared.
 */
module SourceGate {
  import opened Prelude

  const SOURCE_MIN_INTERVAL_MS := 2000

  /** A Retry-After as the runtime sees it: absent, not a finite number, or a number of milliseconds. */
  datatype RetryAfter = Missing | NotFinite | Delay(ms: real)

  /** Rounding to the nearest integer, halves up. */
  function Rounded(ms: real): int {
    (ms + 0.5).Floor
  }

  function DeclaredDeadline(answer: RetryAfter, readAt: Instant): Option<Instant> {
    if answer.Delay? && answer.ms > 0.0 then Some(readAt + Rounded(answer.ms)) else None
  }

  function Later(left: Option<Instant>, right: Option<Instant>): (later: Option<Instant>)
    ensures later.None? <==> left.None? && right.None?
    ensures left.Some? ==> later.value >= left.value
    ensures right.Some? ==> later.value >= right.value
    ensures later.Some? ==> later == left || later == right
  {
    if left.None? then right else if right.None? then left else Some(Max(left.value, right.value))
  }

  function EffectiveInterval(configured: nat): (interval: nat)
    ensures interval >= SOURCE_MIN_INTERVAL_MS && interval >= configured
  {
    Max(SOURCE_MIN_INTERVAL_MS, configured)
  }

  /** `waiting` is the promise chain: the calls that arrived and have not had their turn. */
  datatype Gate = Gate(interval: nat, lastCompletedAt: Option<Instant>, notBeforeAt: Option<Instant>, waiting: seq<nat>)

  /** When the next operation may start. */
  function Target(gate: Gate): Option<Instant> {
    Later(if gate.lastCompletedAt.None? then None
          else Some(gate.lastCompletedAt.value + gate.interval), gate.notBeforeAt)
  }

  /**
   * One turn: the clock read before the wait, the clock after it, the clock when the answer's delay
   * was recorded and when the operation ended, and where a cancelled token was seen.
   */
  datatype Turn = Turn(cancelledFirst: bool, reading: Instant, started: Instant, cancelledAfter: bool,
                       answer: RetryAfter, recordedAt: Instant, ended: Instant)

  /** The clock never runs back during an operation, and the timer waits as long as it was asked to. */
  predicate HonestTurn(gate: Gate, turn: Turn) {
    Runs(turn) ==>
    && turn.reading <= turn.started <= turn.recordedAt <= turn.ended
    && (Target(gate).Some? && Target(gate).value > turn.reading ==>
          turn.started >= turn.reading + (Target(gate).value - turn.reading))
  }

  predicate Runs(turn: Turn) {
    !turn.cancelledFirst && !turn.cancelledAfter
  }

  function Served(gate: Gate, turn: Turn): Gate
    requires gate.waiting != []
  {
    if !Runs(turn) then gate.(waiting := gate.waiting[1..])
    else Gate(gate.interval, Some(turn.ended), Later(gate.notBeforeAt, DeclaredDeadline(turn.answer, turn.recordedAt)),
              gate.waiting[1..])
  }

  // ---- Runs of the gate ----------------------------------------------------------------------

  datatype Event = Arrive(call: nat) | Serve(turn: Turn)

  /** One operation that ran: whose it was, when, and what deadline its answer declared. */
  datatype Slot = Slot(call: nat, started: Instant, ended: Instant, declared: Option<Instant>)

  /** `arrivals` and `turns` are the calls in arrival order and in the order of their turns. */
  datatype World = World(gate: Gate, arrivals: seq<nat>, turns: seq<nat>, slots: seq<Slot>)

  function Next(world: World, event: Event): World {
    match event
    case Arrive(call) => world.(gate := world.gate.(waiting := world.gate.waiting + [call]),
                                arrivals := world.arrivals + [call])
    case Serve(turn) =>
      if world.gate.waiting == [] || !HonestTurn(world.gate, turn) then world
      else
        var call := world.gate.waiting[0];
        World(Served(world.gate, turn), world.arrivals, world.turns + [call],
              if Runs(turn)
              then world.slots + [Slot(call, turn.started, turn.ended, DeclaredDeadline(turn.answer, turn.recordedAt))]
              else world.slots)
  }

  function Run(world: World, events: seq<Event>): World {
    if events == [] then world else Next(Run(world, events[..|events| - 1]), events[|events| - 1])
  }

  function NewGate(configured: nat): World {
    World(Gate(EffectiveInterval(configured), None, None, []), [], [], [])
  }

  /** Operation `later` keeps its distance from operation `earlier`. */
  ghost predicate Spaced(earlier: Slot, later: Slot, interval: nat) {
    && earlier.started <= earlier.ended
    && later.started >= earlier.ended + interval
    && (earlier.declared.Some? ==> later.started >= earlier.declared.value)
  }

  /** The gate's two instants stand for every operation that ran. */
  ghost predicate GateInv(world: World) {
    var gate, slots := world.gate, world.slots;
    && world.arrivals == world.turns + gate.waiting
    && (forall i, j | 0 <= i < j < |slots| :: Spaced(slots[i], slots[j], gate.interval))
    && (forall i | 0 <= i < |slots| ::
          && slots[i].started <= slots[i].ended
          && gate.lastCompletedAt.Some? && slots[i].ended <= gate.lastCompletedAt.value
          && (slots[i].declared.Some? ==> gate.notBeforeAt.Some? && slots[i].declared.value <= gate.notBeforeAt.value))
  }

  lemma StepKeeps(world: World, event: Event)
    requires GateInv(world)
    ensures GateInv(Next(world, event))
    ensures Next(world, event).gate.interval == world.gate.interval
    ensures world.gate.notBeforeAt.Some? ==>
      Next(world, event).gate.notBeforeAt.Some?
        && Next(world, event).gate.notBeforeAt.value >= world.gate.notBeforeAt.value
  {
    var after := Next(world, event);
    if event.Serve? && after.slots != world.slots {
      forall i, j | 0 <= i < j < |after.slots| ensures Spaced(after.slots[i], after.slots[j], after.gate.interval) {
        if j < |world.slots| {
          assert Spaced(world.slots[i], world.slots[j], world.gate.interval);
        }
      }
    }
  }

  lemma {:induction false} RunKeeps(world: World, events: seq<Event>)
    requires GateInv(world)
    ensures GateInv(Run(world, events)) && Run(world, events).gate.interval == world.gate.interval
    ensures world.gate.notBeforeAt.Some? ==>
      Run(world, events).gate.notBeforeAt.Some?
        && Run(world, events).gate.notBeforeAt.value >= world.gate.notBeforeAt.value
  {
    if events != [] {
      RunKeeps(world, events[..|events| - 1]);
      StepKeeps(Run(world, events[..|events| - 1]), events[|events| - 1]);
    }
  }

  /**
   * Over every sequence of arrivals, successes, refusals and cancellations, an operation starts at
   * least the interval after every earlier one ended and not before any deadline an earlier one
   * declared; in particular no two overlap.
   */
  lemma OperationsAreSpaced(configured: nat, events: seq<Event>, i: nat, j: nat)
    requires i < j < |Run(NewGate(configured), events).slots|
    ensures var slots := Run(NewGate(configured), events).slots;
            && slots[j].started >= slots[i].ended + Max(SOURCE_MIN_INTERVAL_MS, configured)
            && slots[i].ended >= slots[i].started
            && (slots[i].declared.Some? ==> slots[j].started >= slots[i].declared.value)
  {
    RunKeeps(NewGate(configured), events);
    var world := Run(NewGate(configured), events);
    assert Spaced(world.slots[i], world.slots[j], world.gate.interval);
  }

  /** Calls have their turns in the order they arrived, and nobody loses a turn. */
  lemma TurnsAreFirstInFirstOut(configured: nat, events: seq<Event>)
    ensures var world := Run(NewGate(configured), events);
            world.turns + world.gate.waiting == world.arrivals
  {
    RunKeeps(NewGate(configured), events);
  }

  /** The provider's deadline never moves back. */
  lemma DeadlineOnlyMovesForward(configured: nat, events: seq<Event>, later: seq<Event>)
    ensures var before, after := Run(NewGate(configured), events).gate,
      Run(Run(NewGate(configured), events), later).gate;
            before.notBeforeAt.Some? ==> after.notBeforeAt.Some? && after.notBeforeAt.value >= before.notBeforeAt.value
  {
    RunKeeps(NewGate(configured), events);
    RunKeeps(Run(NewGate(configured), events), later);
  }

  /** A cancelled waiter gives up its place and changes nothing else. */
  lemma CancelledWaiterChangesNothing(world: World, turn: Turn)
    requires world.gate.waiting != [] && (turn.cancelledFirst || turn.cancelledAfter)
    ensures var after := Next(world, Serve(turn));
            && after.gate == world.gate.(waiting := world.gate.waiting[1..])
            && Target(after.gate) == Target(world.gate) && after.slots == world.slots
  {
  }

  /** Rounding honours the declared delay in full exactly when it has no fraction below one half. */
  lemma RoundingIsFaithfulExactlyWhen(ms: real)
    requires ms > 0.0
    ensures Rounded(ms) as real >= ms <==> ms == ms.Floor as real || ms - ms.Floor as real >= 0.5
    ensures Rounded(ms) as real >= ms - 0.5
  {
    var whole := ms.Floor;
    if ms - whole as real >= 0.5 {
      assert Rounded(ms) == whole + 1;
    } else {
      assert Rounded(ms) == whole;
    }
  }

  // ---- The gate itself -----------------------------------------------------------------------

  class LuoguSourceGate {
    const interval: nat
    var lastCompletedAt: Option<Instant>
    var notBeforeAt: Option<Instant>
    var tail: seq<nat>

    constructor (configured: nat)
      ensures State() == NewGate(configured).gate
    {
      interval := EffectiveInterval(configured);
      lastCompletedAt, notBeforeAt, tail := None, None, [];
    }

    function State(): Gate
      reads this
    {
      Gate(interval, lastCompletedAt, notBeforeAt, tail)
    }

    /** `run`: the call joins the end of the chain. */
    method Enqueue(call: nat)
      modifies this`tail
      ensures State() == old(State()).(waiting := old(tail) + [call])
    {
      tail := tail + [call];
    }

    method RecordRetryAfter(answer: RetryAfter, readAt: Instant)
      modifies this`notBeforeAt
      ensures notBeforeAt == Later(old(notBeforeAt), DeclaredDeadline(answer, readAt))
    {
      if !answer.Delay? || answer.ms <= 0.0 { return; }
      var deadline := readAt + Rounded(answer.ms);
      notBeforeAt := Some(if notBeforeAt.None? then deadline else Max(notBeforeAt.value, deadline));
    }

    /** The turn of the head of the chain; `delay` is what the timer was asked for. */
    method TakeTurn(turn: Turn) returns (delay: int)
      requires tail != [] && HonestTurn(State(), turn)
      modifies this
      ensures State() == Served(old(State()), turn)
      ensures delay > 0 ==> old(Target(State())) == Some(turn.reading + delay)
      ensures Runs(turn) && old(Target(State())).Some? ==> turn.started >= old(Target(State())).value
    {
      delay := 0;
      if !turn.cancelledFirst {
        var floor := if lastCompletedAt.None? then None else Some(lastCompletedAt.value + interval);
        var target := Later(floor, notBeforeAt);
        if target.Some? && target.value > turn.reading { delay := target.value - turn.reading; }
        if !turn.cancelledAfter {
          RecordRetryAfter(turn.answer, turn.recordedAt);
          lastCompletedAt := Some(turn.ended);
        }
      }
      tail := tail[1..];
    }
  }
}
