/**
 How a transport's requests end, whichever transport it is: settled by a completed
 write along its confirmed prefix, or cut off on the side of the handoff they were on.
 */
module SendSettling {
  import opened Options
  import opened SendAccounting
  import opened SendHistory
  import opened SendFates
  import opened SendPublished
  import opened Queues

  // ------------------------------------------------------------------
  // Completed writes
  // ------------------------------------------------------------------

  lemma {:induction false} SizesAddUp(batch: seq<Item>)
    ensures WireSize(Sizes(batch)) == Bytes(batch)
  {
    if batch != [] {
      var n := |batch| - 1;
      SizesAddUp(batch[..n]);
      assert Sizes(batch)[..n] == Sizes(batch[..n]);
      assert batch == batch[..n] + [batch[n]];
      BytesSnoc(batch[..n], batch[n]);
    }
  }

  /** Item i of a batch has its part of the confirmed prefix, and is written iff it is empty or ends within it. */
  ghost predicate SettledBy(log: seq<Record>, batch: seq<Item>, confirmed: nat, i: nat)
    requires i < |batch|
  {
    var x := batch[i];
    && 1 <= x.id <= |log| && log[x.id - 1].bytes == |x.data|
    && log[x.id - 1].status == Completed(Part(confirmed, Bytes(batch[..i]), |x.data|))
    && (log[x.id - 1].status == Completed(|x.data|) <==> x.data == [] || Bytes(batch[..i + 1]) <= confirmed)
  }

  lemma SettledStays(a: seq<Record>, b: seq<Record>, batch: seq<Item>, confirmed: nat, i: nat)
    requires i < |batch| && SettledBy(a, batch, confirmed, i) && Extends(a, b)
    ensures SettledBy(b, batch, confirmed, i)
  {
    assert Follows(a[batch[i].id - 1], b[batch[i].id - 1]);
  }

  lemma NoneCompletedSelf(rs: seq<Record>)
    ensures NoneCompleted(rs, rs)
  {
  }

  lemma EndCompletesNone(rs: seq<Record>)
    ensures NoneCompleted(rs, EndAll(rs, ConnectionLoss))
  {
  }

  /** Completing a batch settles each of its live items, whatever is ended with it. */
  lemma CompletionSettlesItem(rs: seq<Record>, rs': seq<Record>, batch: seq<Item>, confirmed: nat, i: nat)
    requires OwnSizes(rs, Sizes(batch)) && i < |batch| && IsLive(rs, batch[i].id)
    requires var done := CompleteAll(rs, Sizes(batch), confirmed); rs' == done || rs' == EndAll(done, ConnectionLoss)
    ensures SettledBy(rs', batch, confirmed, i)
  {
    hide CompleteAll, Bytes;
    var items, x := Sizes(batch), batch[i];
    PrefixSettles(rs, items, confirmed, i);
    assert items[..i] == Sizes(batch[..i]);
    SizesAddUp(batch[..i]);
    assert batch[..i + 1] == batch[..i] + [x];
    BytesSnoc(batch[..i], x);
    assert items[i] == (x.id, |x.data|);
  }

  /** And counts them. */
  lemma CompletionCountsItems(rs: seq<Record>, rs': seq<Record>, batch: seq<Item>, confirmed: nat, epoch: nat)
    requires OwnSizes(rs, Sizes(batch))
    requires var done := CompleteAll(rs, Sizes(batch), confirmed); rs' == done || rs' == EndAll(done, ConnectionLoss)
    ensures var a, b := Snapshot(rs, epoch, None), Snapshot(rs', epoch, None);
            && b.written == Plus(a.written, WrittenIn(rs, Sizes(batch), confirmed, epoch, None))
            && b.confirmedWrittenBytes
               == a.confirmedWrittenBytes + ConfirmedIn(rs, Sizes(batch), confirmed, epoch, None)
  {
    hide CompleteAll, Snapshot, Plus;
    CompletePublishes(rs, Sizes(batch), confirmed, epoch, None);
    var done := CompleteAll(rs, Sizes(batch), confirmed);
    EndCompletesNone(done);
    SameWritten(done, EndAll(done, ConnectionLoss), epoch, None);
  }

  // ------------------------------------------------------------------
  // Cut off
  // ------------------------------------------------------------------

  /** A completed record is not cut off, and what is cut off keeps which side of the handoff it was on. */
  lemma {:induction false} CompleteAllOutcome(rs: seq<Record>, items: seq<(nat, nat)>, confirmed: nat, i: nat)
    requires i < |rs|
    ensures var r := CompleteAll(rs, items, confirmed)[i];
            r == rs[i] || (Live(rs[i]) && r == rs[i].(status := r.status) && r.status.Completed?)
    decreases |items|
  {
    if items != [] {
      var part := if confirmed < items[0].1 then confirmed else items[0].1;
      CompleteAllOutcome(At(rs, items[0].0, r => Finished(r, part)), items[1..], confirmed - part, i);
    }
  }

  /** A live request that was cut off was so for that cause, on the side of the handoff it was on. */
  predicate CutAs(r: Record, r': Record, cause: Cause) {
    r'.status.Terminated? ==> r'.status == Terminated(cause, r.status.Active?)
  }

  lemma OpCuts(h: History, op: Op, i: nat, cause: Cause)
    requires i < |h.records| && Live(h.records[i])
    requires op.End? || op.Discard? || op.DiscardWaiting? ==> op.cause == cause
    ensures i < |Apply(h, op).records| && CutAs(h.records[i], Apply(h, op).records[i], cause)
  {
    if op.CompleteBatch? {
      CompleteAllOutcome(h.records, op.items, op.confirmed, i);
    }
  }

  lemma SameCuts(r: Record, cause: Cause)
    requires Live(r)
    ensures CutAs(r, r, cause) && !r.status.Terminated?
  {
  }

  lemma ResetKeeps(h: History)
    ensures Apply(h, Reset).records == h.records
  {
  }

  lemma AdmitCuts(h: History, n: nat, id: nat, i: nat)
    requires i < |h.records| && Live(h.records[i])
    ensures var a := Apply(h, Admit(n, None)).records;
            && i < |a| && CutAs(h.records[i], a[i], ConnectionLoss) && !a[i].status.Terminated?
    ensures var b := Apply(Apply(h, Admit(n, None)), Rollback(id)).records;
            && i < |b| && CutAs(h.records[i], b[i], ConnectionLoss) && !b[i].status.Terminated?
  {
  }

  lemma BeginCuts(h: History, ids: seq<nat>, i: nat)
    requires i < |h.records| && Live(h.records[i])
    ensures var a := Apply(h, BeginBatch(ids)).records;
            i < |a| && CutAs(h.records[i], a[i], ConnectionLoss) && !a[i].status.Terminated?
  {
  }

  lemma DoneCuts(h: History, items: seq<(nat, nat)>, confirmed: nat, i: nat)
    requires i < |h.records| && Live(h.records[i])
    ensures var a := Apply(h, CompleteBatch(items, confirmed));
            && i < |a.records| && !a.records[i].status.Terminated?
            && i < |Apply(a, End(ConnectionLoss)).records|
            && CutAs(h.records[i], a.records[i], ConnectionLoss)
            && CutAs(h.records[i], Apply(a, End(ConnectionLoss)).records[i], ConnectionLoss)
  {
    CompleteAllOutcome(h.records, items, confirmed, i);
  }

  lemma OpActivates(h: History, op: Op, i: nat)
    requires i < |h.records| && !h.records[i].status.Active? && !op.Begin? && !op.BeginBatch?
    ensures i < |Apply(h, op).records| && !Apply(h, op).records[i].status.Active?
  {
    if op.CompleteBatch? {
      CompleteAllOutcome(h.records, op.items, op.confirmed, i);
    }
  }

  predicate Crossed(r: Record) {
    r.status.Active? || (r.status.Terminated? && r.status.active)
  }

  lemma RollbackEnds(h: History, id: nat)
    ensures var rs := Apply(h, Rollback(id)).records;
            |rs| == |h.records| && forall i | 0 <= i < |rs| :: rs[i] == h.records[i] || rs[i].status.Withdrawn?
  {
  }

  // ------------------------------------------------------------------
  // What is reported lost
  // ------------------------------------------------------------------

  /** The requests of an epoch that were cut off for a cause, by whether their item had been given to the socket. */
  ghost function LostIn(rs: seq<Record>, epoch: nat, wire: seq<Item>, cause: Cause, handed: bool): set<nat> {
    set i: nat | i < |rs| && rs[i].epoch == epoch && rs[i].status.Terminated? && rs[i].status.cause == cause
                 && HasItem(wire, i + 1) == handed
  }

  /** The log and the wire agree on which lost requests had been handed over, and on who can be to blame. */
  ghost predicate MarkedByWire(rs: seq<Record>, wire: seq<Item>) {
    forall i | 0 <= i < |rs| && rs[i].status.Terminated? ::
      && (rs[i].status.active <==> HasItem(wire, i + 1))
      && (rs[i].status.cause == ExplicitStop || rs[i].status.cause == ConnectionLoss)
  }

  /**
   The losses, field by field: discardedBeforeWrite counts exactly the lost requests
   whose payload was never given to the socket, abortedDuringWrite those whose payload
   was and, for connection loss, short writes.
   */
  ghost predicate ShowsLosses(a: Accounting, rs: seq<Record>, epoch: nat, wire: seq<Item>) {
    && a.explicitStop.discardedBeforeWrite == Tally(rs, LostIn(rs, epoch, wire, ExplicitStop, false))
    && a.explicitStop.abortedDuringWrite == Tally(rs, LostIn(rs, epoch, wire, ExplicitStop, true))
    && a.connectionLoss.discardedBeforeWrite == Tally(rs, LostIn(rs, epoch, wire, ConnectionLoss, false))
    && a.connectionLoss.abortedDuringWrite
       == Plus(Tally(rs, LostIn(rs, epoch, wire, ConnectionLoss, true)), SendPublished.Count(rs, epoch, None, IsShort))
    && a.queuePressure.discardedBeforeWrite == a.queuePressure.abortedDuringWrite == NO_TOTALS
    && a.sessionExpiry.discardedBeforeWrite == a.sessionExpiry.abortedDuringWrite == NO_TOTALS
  }

  lemma LostIsCut(rs: seq<Record>, epoch: nat, wire: seq<Item>, cause: Cause, handed: bool)
    requires MarkedByWire(rs, wire)
    ensures LostIn(rs, epoch, wire, cause, handed) == Where(rs, epoch, None, IsCut(cause, handed))
    ensures cause == QueuePressure || cause == SessionExpiry ==> LostIn(rs, epoch, wire, cause, handed) == {}
  {
    hide HasItem;
  }

  /** What a snapshot shows lost. */
  lemma LossesShown(rs: seq<Record>, epoch: nat, wire: seq<Item>)
    requires MarkedByWire(rs, wire)
    ensures ShowsLosses(Snapshot(rs, epoch, None), rs, epoch, wire)
  {
    hide LostIn, Snapshot, Plus, Tally, Where, ConfirmedBytes, MarkedByWire;
    FieldsCount(rs, epoch, None);
    TallyNone(rs);
    forall cause: Cause, handed: bool
      ensures SendPublished.Count(rs, epoch, None, IsCut(cause, handed))
              == Tally(rs, LostIn(rs, epoch, wire, cause, handed))
      ensures cause == QueuePressure || cause == SessionExpiry ==> LostIn(rs, epoch, wire, cause, handed) == {}
    {
      LostIsCut(rs, epoch, wire, cause, handed);
    }
  }
}
