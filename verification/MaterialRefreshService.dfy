/** The service as an object whose queues, ownership map and flags change step by step. */
module MaterialRefreshService {
  import opened Prelude
  import opened MaterialBatches
  import opened MaterialService

  class BatchService {
    var closing: Closing
    var current: Option<Section>
    var mutations: seq<Section>
    var line: seq<RunId>
    var owned: map<BatchId, RunId>
    var runs: map<RunId, Run>
    var batches: map<BatchId, Batch>

    constructor (stored: map<BatchId, Batch>)
      ensures State() == Fresh(stored)
    {
      closing, current, mutations, line := Open, None, [], [];
      owned, runs, batches := map[], map[], stored;
    }

    function State(): World
      reads this
    {
      World(closing, current, mutations, line, owned, runs, batches)
    }

    method CancelOwned(b: BatchId)
      modifies this`runs
      ensures State() == CancelToken(old(State()), b)
    {
      if b in owned && owned[b] in runs {
        runs := runs[owned[b] := runs[owned[b]].(cancelled := true)];
      }
    }

    /** A public call up to its wait: refused once closing, otherwise queued behind every earlier section. */
    method Submit(api: Api)
      modifies this
      ensures State() == Next(old(State()), CallStep(api))
    {
      if !closing.Open? { return; }
      if api.RetryApi? && api.b in owned { return; }
      if api.CancelApi? { CancelOwned(api.b); }
      mutations := mutations + [ApiSection(api)];
    }

    method SaveRow(b: BatchId, next: Option<Batch>)
      modifies this`batches
      ensures State() == Write(old(State()), b, next)
    {
      if next.Some? { batches := batches[b := next.value]; }
    }

    method ReleaseRun(r: RunId)
      requires r in runs
      modifies this
      ensures State() == End(old(State()), r)
    {
      var b := runs[r].batch;
      runs := runs[r := runs[r].(stage := Ended)];
      if line != [] && line[0] == r { line := line[1..]; }
      if b in owned && owned[b] == r { owned := owned - {b}; }
    }

    /** The critical section of `start`: the durable claim and the ownership are one stretch. */
    method StartSection(b: BatchId, newRun: RunId, rechecked: bool)
      modifies this
      ensures State() == StartEffect(old(State()), b, newRun, rechecked)
    {
      if b !in batches { return; }
      var batch := batches[b];
      if batch.status.Completed? || batch.status.Cancelled? { return; }
      if batch.status.Running? {
        if b !in owned { SaveRow(b, Interrupt(batch)); }
        return;
      }
      if (!closing.Open? && !rechecked) || StartBatch(batch).None? { return; }
      SaveRow(b, StartBatch(batch));
      if b !in owned {
        runs := runs[newRun := Run(b, false, false, Queued)];
        owned := owned[b := newRun];
        line := line + [newRun];
      }
    }

    /** Activation recovery: every running batch this process does not own is made truthful. */
    method RecoverSection()
      modifies this`batches
      ensures State() == old(State()).(batches := RecoverAll(old(State())))
    {
      var running := set b | b in batches && batches[b].status.Running?;
      var left := running;
      while left != {}
        invariant left <= running
        invariant batches.Keys == old(batches).Keys
        invariant forall b | b in old(batches) ::
          batches[b] == if b in running - left && b !in owned && Interrupt(old(batches)[b]).Some?
                        then Interrupt(old(batches)[b]).value else old(batches)[b]
      {
        hide Interrupt;
        var b :| b in left;
        left := left - {b};
        if b !in owned && Interrupt(batches[b]).Some? { batches := batches[b := Interrupt(batches[b]).value]; }
      }
    }

    method FindPending(items: seq<ItemStatus>) returns (i: nat)
      ensures i == FirstPending(items)
    {
      i := 0;
      while i < |items| && !items[i].Pending?
        invariant i <= |items| && forall n | 0 <= n < i :: !items[n].Pending?
      {
        i := i + 1;
      }
      FirstPendingIs(items, i);
    }

    lemma FirstPendingIs(items: seq<ItemStatus>, i: nat)
      requires i <= |items| && (i < |items| ==> items[i].Pending?)
      requires forall n | 0 <= n < i :: !items[n].Pending?
      ensures i == FirstPending(items)
    {
      var first := FirstPending(items);
    }

    /** One turn of `runBatch` inside the mutation queue. */
    method NextItem(r: RunId)
      requires r in runs
      modifies this
      ensures State() == StepEffect(old(State()), r)
    {
      var b := runs[r].batch;
      if b !in batches || !batches[b].status.Running? {
        ReleaseRun(r);
        return;
      }
      var i := FindPending(batches[b].items);
      if i == |batches[b].items| {
        SaveRow(b, SettleRun(batches[b]));
        ReleaseRun(r);
      } else if BeginItem(batches[b], i).None? {
        mutations := mutations + [InterruptSection(r, true)];
      } else {
        SaveRow(b, BeginItem(batches[b], i));
        runs := runs[r := runs[r].(stage := Working(i))];
      }
    }

    method GoOn(r: RunId, outcome: Outcome)
      requires r in runs
      modifies this
      ensures State() == Continue(old(State()), r, outcome)
    {
      if outcome.ItemStopped? { ReleaseRun(r); } else { runs := runs[r := runs[r].(stage := Ready)]; }
    }

    method SettleItem(r: RunId, i: nat, outcome: Outcome)
      requires r in runs
      modifies this
      ensures State() == FinishEffect(old(State()), r, i, outcome)
    {
      var b := runs[r].batch;
      if b in batches {
        var batch := batches[b];
        if batch.status.Cancelled? {
          if outcome.ItemDone? { SaveRow(b, RestoreItem(batch, i)); }
        } else if batch.status.Running? {
          var next := match outcome
                      case ItemDone => CompleteItem(batch, i)
                      case ItemFailed => FailItem(batch, i)
                      case ItemStopped => Interrupt(batch);
          if next.None? {
            mutations := mutations + [InterruptSection(r, true)];
            return;
          }
          SaveRow(b, next);
        }
      }
      GoOn(r, outcome);
    }

    /** `close` sets its flag first and queues the drain behind every admitted call. */
    method Close()
      modifies this
      ensures State() == Next(old(State()), CloseStep)
    {
      if !closing.Open? { return; }
      closing := Draining;
      mutations := mutations + [DrainSection];
    }

    /** After the drain every owned run is cancelled, one after the other. */
    method CancelOwnedRuns(order: seq<RunId>)
      requires closing.Drained? && (set r | r in order) == owned.Values
      modifies this
      ensures State() == Next(old(State()), SnapshotStep(order))
    {
      for i := 0 to |order|
        invariant closing == old(closing) && current == old(current) && mutations == old(mutations)
        invariant line == old(line) && owned == old(owned) && batches == old(batches)
        invariant runs == map r | r in old(runs) ::
          if r in order[..i] then old(runs)[r].(cancelled := true) else old(runs)[r]
      {
        assert forall r :: r in order[..i + 1] <==> r in order[..i] || r == order[i];
        if order[i] in runs { runs := runs[order[i] := runs[order[i]].(cancelled := true)]; }
      }
      assert order[..|order|] == order;
      closing := Waiting(order);
    }

    /** Detach first, then queue the interruption: from here the late promise is inert. */
    method DetachNext()
      requires closing.Detaching?
      modifies this
      ensures State() == Next(old(State()), DetachStep)
    {
      var left := closing.left;
      if left == [] {
        closing := Closed;
      } else if left[0] !in runs || runs[left[0]].stage.Ended? {
        closing := Detaching(left[1..]);
      } else {
        runs := runs[left[0] := runs[left[0]].(detached := true)];
        closing := Interrupting(left[1..]);
        mutations := mutations + [CloseInterrupt(left[0])];
      }
    }
  }
}
