/** The pure transitions of a bulk material refresh (src/application/material-refresh-batch-types.ts). */
module MaterialBatches {
  import opened Prelude

  datatype ItemStatus = Pending | Running | Completed | Attention | Cancelled

  datatype BatchStatus = Prepared | Running | Paused | Completed | Cancelled

  /** `started` stands for a recorded start instant. */
  datatype Batch = Batch(status: BatchStatus, items: seq<ItemStatus>, started: bool)

  predicate WorkLeft(items: seq<ItemStatus>) {
    exists item | item in items :: item.Pending? || item.Running?
  }

  predicate AllCompleted(items: seq<ItemStatus>) {
    forall item | item in items :: item.Completed?
  }

  predicate Valid(batch: Batch) {
    && batch.items != []
    && (batch.status.Running? ==> WorkLeft(batch.items))
    && (batch.status.Completed? ==> AllCompleted(batch.items))
    && (!batch.status.Cancelled? ==> (batch.status.Prepared? <==> !batch.started))
  }

  /** `frozen`: a record that breaks its own rules is refused. */
  function Frozen(batch: Batch): Option<Batch> {
    if Valid(batch) then Some(batch) else None
  }

  predicate LegalItem(before: ItemStatus, after: ItemStatus) {
    match before
    case Pending => after.Pending? || after.Running? || after.Cancelled?
    case Running => !after.Pending?
    case Attention => after.Attention? || after.Pending? || after.Cancelled?
    case Cancelled => after.Cancelled? || after.Pending? || after.Completed?
    case Completed => after.Completed?
  }

  predicate LegalStatus(before: BatchStatus, after: BatchStatus) {
    match before
    case Prepared => after.Prepared? || after.Running? || after.Cancelled?
    case Running => !after.Prepared?
    case Paused => after.Paused? || after.Running? || after.Cancelled?
    case Cancelled => after.Cancelled? || after.Prepared? || after.Paused?
    case Completed => after.Completed?
  }

  /** What the store accepts as the next record of a batch. */
  predicate LegalChange(before: Batch, after: Batch) {
    && LegalStatus(before.status, after.status)
    && |after.items| == |before.items|
    && forall i | 0 <= i < |before.items| :: LegalItem(before.items[i], after.items[i])
  }

  // ---- Transitions; `None` throws --------------------------------------------------------------

  function StartBatch(batch: Batch): Option<Batch> {
    if !batch.status.Prepared? && !batch.status.Paused? then None
    else Frozen(batch.(status := BatchStatus.Running, started := true))
  }

  function BeginItem(batch: Batch, i: nat): Option<Batch> {
    if !batch.status.Running? || i >= |batch.items| || !batch.items[i].Pending? then None
    else Frozen(batch.(items := batch.items[i := ItemStatus.Running]))
  }

  /** The last outcome of a run settles it in the same write. */
  function ReplaceAndSettle(batch: Batch, i: nat, item: ItemStatus): Option<Batch>
    requires i < |batch.items|
  {
    var items := batch.items[i := item];
    if batch.status.Running? && !WorkLeft(items)
    then Frozen(batch.(items := items, status := if AllCompleted(items) then BatchStatus.Completed else Paused))
    else Frozen(batch.(items := items))
  }

  function CompleteItem(batch: Batch, i: nat): Option<Batch> {
    if i >= |batch.items| || !batch.items[i].Running? then None else ReplaceAndSettle(batch, i, ItemStatus.Completed)
  }

  function FailItem(batch: Batch, i: nat): Option<Batch> {
    if i >= |batch.items| || !batch.items[i].Running? then None else ReplaceAndSettle(batch, i, Attention)
  }

  /** A success committed under a cancel wins. */
  function RestoreItem(batch: Batch, i: nat): Option<Batch> {
    if !batch.status.Cancelled? || i >= |batch.items| || !batch.items[i].Cancelled? then None
    else Frozen(batch.(items := batch.items[i := ItemStatus.Completed]))
  }

  function SettleRun(batch: Batch): Option<Batch> {
    if !batch.status.Running? then None
    else Frozen(batch.(status := if AllCompleted(batch.items) then BatchStatus.Completed else Paused))
  }

  function CancelBatch(batch: Batch): Option<Batch> {
    if batch.status.Completed? then None
    else if batch.status.Cancelled? then Some(batch)
    else Frozen(batch.(status := BatchStatus.Cancelled,
                       items := seq(|batch.items|, i requires 0 <= i < |batch.items| =>
                         if batch.items[i].Completed? then batch.items[i] else ItemStatus.Cancelled)))
  }

  function RetryFailed(batch: Batch): Option<Batch> {
    if batch.status.Running? then None
    else if batch.status.Completed? || !(exists item | item in batch.items :: item.Attention? || item.Cancelled?)
      then Some(batch)
    else Frozen(batch.(status := if batch.status.Cancelled? && !batch.started then Prepared else Paused,
                       items := seq(|batch.items|, i requires 0 <= i < |batch.items| =>
                         if batch.items[i].Completed? || batch.items[i].Running? then batch.items[i]
                           else ItemStatus.Pending)))
  }

  function Interrupt(batch: Batch): Option<Batch> {
    if !batch.status.Running? then None
    else Frozen(batch.(status := Paused,
                       items := seq(|batch.items|, i requires 0 <= i < |batch.items| =>
                         if batch.items[i].Running? then Attention else batch.items[i])))
  }

  // ---- Laws ----------------------------------------------------------------------------------

  ghost predicate Lawful(before: Batch, after: Option<Batch>) {
    after.Some? ==> Valid(after.value) && LegalChange(before, after.value)
  }

  /** Every transition the service applies is one the store accepts; completed items never change. */
  lemma TransitionsAreLegal(batch: Batch, i: nat)
    requires Valid(batch)
    ensures Lawful(batch, StartBatch(batch)) && Lawful(batch, BeginItem(batch, i))
    ensures Lawful(batch, CompleteItem(batch, i)) && Lawful(batch, FailItem(batch, i))
      && Lawful(batch, RestoreItem(batch, i))
    ensures Lawful(batch, SettleRun(batch)) && Lawful(batch, CancelBatch(batch))
    ensures Lawful(batch, RetryFailed(batch)) && Lawful(batch, Interrupt(batch))
  {
  }

  /** A running batch can always record the outcome of its item in flight, interrupt or settle. */
  lemma OutcomesAreAlwaysRecorded(batch: Batch, i: nat)
    requires Valid(batch) && batch.status.Running?
    ensures i < |batch.items| && batch.items[i].Running? ==> CompleteItem(batch, i).Some? && FailItem(batch, i).Some?
    ensures Interrupt(batch).Some? && !Interrupt(batch).value.status.Running?
    ensures SettleRun(batch).Some? && !SettleRun(batch).value.status.Running?
    ensures i < |batch.items| && batch.items[i].Pending? ==> BeginItem(batch, i).Some?
  {
    if i < |batch.items| && batch.items[i].Running? {
      LastOutcomeSettles(batch, i, ItemStatus.Completed);
      LastOutcomeSettles(batch, i, Attention);
    }
    if i < |batch.items| && batch.items[i].Pending? {
      assert batch.items[i := ItemStatus.Running][i].Running?;
    }
  }

  /**
   * Recording an outcome keeps the batch running exactly while work is left, and completes it exactly when
   * all is done.
   */
  lemma LastOutcomeSettles(batch: Batch, i: nat, item: ItemStatus)
    requires Valid(batch) && batch.status.Running? && i < |batch.items| && (item.Completed? || item.Attention?)
    ensures ReplaceAndSettle(batch, i, item).Some?
    ensures var after := ReplaceAndSettle(batch, i, item).value;
            && (after.status.Running? <==> WorkLeft(after.items))
            && (after.status.Completed? <==> AllCompleted(after.items))
  {
    var items := batch.items[i := item];
    assert items[i] == item && item in items;
    if WorkLeft(items) {
      var left :| left in items && (left.Pending? || left.Running?);
      assert !AllCompleted(items);
    }
  }

  /** What a retry after a cancel makes of the items: completed ones stay, the rest wait again. */
  function WaitingAgain(items: seq<ItemStatus>): (waiting: seq<ItemStatus>)
    ensures |waiting| == |items|
    ensures forall i | 0 <= i < |items| ::
      waiting[i] == if items[i].Completed? then ItemStatus.Completed else ItemStatus.Pending
  {
    if items == [] then []
    else WaitingAgain(items[..|items| - 1])
           + [if items[|items| - 1].Completed? then ItemStatus.Completed else ItemStatus.Pending]
  }

  /**
   * Any batch that is not over can be cancelled, and retrying it afterwards leaves exactly its unfinished
   * items waiting, as prepared or paused as its history says and ready to start; with nothing unfinished
   * there is nothing to retry. A batch that was at rest without failures comes back as it was.
   */
  lemma RetryUndoesCancel(batch: Batch)
    requires Valid(batch) && !batch.status.Completed? && !batch.status.Cancelled?
    ensures CancelBatch(batch).Some?
    ensures var cancelled, retried := CancelBatch(batch).value, RetryFailed(CancelBatch(batch).value);
            if AllCompleted(batch.items) then retried == Some(cancelled)
            else
              && retried == Some(Batch(if batch.started then Paused else Prepared, WaitingAgain(batch.items),
                                       batch.started))
              && StartBatch(retried.value).Some?
              && (!batch.status.Running? && (forall item | item in batch.items :: item.Pending? || item.Completed?) ==>
                    retried == Some(batch))
  {
    var cancelled := CancelBatch(batch).value;
    if AllCompleted(batch.items) {
      assert forall i | 0 <= i < |batch.items| :: batch.items[i] in batch.items;
    } else {
      var left :| left in batch.items && !left.Completed?;
      var i :| 0 <= i < |batch.items| && batch.items[i] == left;
      RetriedItems(batch, i);
    }
  }

  lemma RetriedItems(batch: Batch, i: nat)
    requires Valid(batch) && !batch.status.Completed? && !batch.status.Cancelled?
    requires i < |batch.items| && !batch.items[i].Completed?
    ensures CancelBatch(batch).Some?
    ensures var retried := RetryFailed(CancelBatch(batch).value);
            && retried == Some(Batch(if batch.started then Paused else Prepared, WaitingAgain(batch.items),
                                     batch.started))
            && StartBatch(retried.value).Some?
    ensures (forall item | item in batch.items :: item.Pending? || item.Completed?) ==>
      WaitingAgain(batch.items) == batch.items
  {
    var cancelled := CancelBatch(batch).value;
    assert cancelled.items[i].Cancelled? && cancelled.items[i] in cancelled.items;
    var retried := RetryFailed(cancelled).value;
    assert retried.items == WaitingAgain(batch.items);
    assert retried.items[i].Pending? && retried.items[i] in retried.items;
    if forall item | item in batch.items :: item.Pending? || item.Completed? {
      forall n | 0 <= n < |batch.items| ensures WaitingAgain(batch.items)[n] == batch.items[n] {
        assert batch.items[n] in batch.items;
      }
    }
  }
}
