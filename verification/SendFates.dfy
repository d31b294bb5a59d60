/**
 Laws about whole runs of a send ledger, stated on its history: a request's
 fate is final, the counters conserve, a reset starts from zero and old
 requests stay invisible to it, and a batch is split along the wire prefix.
 */
module SendFates {
  import opened Options
  import opened SendAccounting
  import opened SendHistory

  /** What a record may become: its identity is fixed, an ended record is frozen, a handoff is not undone. */
  predicate Follows(r: Record, s: Record) {
    && s == r.(status := s.status)
    && (!Live(r) ==> s == r)
    && (r.status.Active? ==> !s.status.Waiting? && (s.status.Terminated? ==> s.status.active))
  }

  /** The request crossed the handoff: it is not waiting and will never count as discarded before the write. */
  predicate CrossedHandoff(r: Record) {
    !r.status.Waiting? && (r.status.Terminated? ==> r.status.active)
  }

  ghost predicate Extends(a: seq<Record>, b: seq<Record>) {
    |a| <= |b| && forall i | 0 <= i < |a| :: Follows(a[i], b[i])
  }

  lemma ExtendsSelf(rs: seq<Record>)
    ensures Extends(rs, rs)
  {
  }

  lemma ExtendsTwice(a: seq<Record>, b: seq<Record>, c: seq<Record>)
    requires Extends(a, b) && Extends(b, c)
    ensures Extends(a, c)
  {
  }

  lemma {:induction false} CompleteAllExtends(rs: seq<Record>, items: seq<(nat, nat)>, confirmed: nat)
    ensures Extends(rs, CompleteAll(rs, items, confirmed))
    ensures Sane(rs) ==> Sane(CompleteAll(rs, items, confirmed))
    decreases |items|
  {
    if items != [] {
      var part := if confirmed < items[0].1 then confirmed else items[0].1;
      CompleteAllExtends(At(rs, items[0].0, r => Finished(r, part)), items[1..], confirmed - part);
    }
  }

  lemma ApplyExtends(h: History, op: Op)
    ensures Extends(h.records, Apply(h, op).records)
    ensures h.epoch <= Apply(h, op).epoch
    ensures Sane(h.records) ==> Sane(Apply(h, op).records)
  {
    if op.CompleteBatch? {
      CompleteAllExtends(h.records, op.items, op.confirmed);
    }
  }

  /** The same requests were withdrawn. */
  predicate SameWithdrawals(a: seq<Record>, b: seq<Record>) {
    |a| <= |b| && forall i | 0 <= i < |a| :: b[i].status.Withdrawn? == a[i].status.Withdrawn?
  }

  lemma {:induction false} CompleteAllWithdrawsNone(rs: seq<Record>, items: seq<(nat, nat)>, confirmed: nat)
    ensures SameWithdrawals(rs, CompleteAll(rs, items, confirmed))
    decreases |items|
  {
    if items != [] {
      var part := if confirmed < items[0].1 then confirmed else items[0].1;
      CompleteAllWithdrawsNone(At(rs, items[0].0, r => Finished(r, part)), items[1..], confirmed - part);
    }
  }

  /** Only a rollback withdraws, and only the request it names. */
  lemma ApplyWithdraws(h: History, op: Op)
    ensures !op.Rollback? ==> SameWithdrawals(h.records, Apply(h, op).records)
    ensures op.Rollback? && op.id > |h.records| ==> Apply(h, op) == h
  {
    if op.CompleteBatch? {
      CompleteAllWithdrawsNone(h.records, op.items, op.confirmed);
    }
  }

  /** A request admitted and rolled back leaves the others alone and is withdrawn. */
  lemma AdmitRollback(h: History, n: nat)
    ensures var id := |h.records| + 1;
            Apply(Apply(h, Admit(n, None)), Rollback(id))
              == h.(records := h.records + [Record(n, h.epoch, None, Withdrawn)])
  {
  }

  /**
   Over every run, from every state: a request that was written, lost or
   withdrawn keeps exactly that fate, bytes and epoch, and a request handed to
   I/O is never later reported as discarded before the write.
   */
  lemma {:induction false} FatesAreFinal(h: History, ops: seq<Op>)
    ensures Extends(h.records, Run(h, ops).records)
    ensures h.epoch <= Run(h, ops).epoch
    ensures Sane(h.records) ==> Sane(Run(h, ops).records)
    decreases |ops|
  {
    if ops != [] {
      FatesAreFinal(h, ops[..|ops| - 1]);
      ApplyExtends(Run(h, ops[..|ops| - 1]), ops[|ops| - 1]);
    }
  }

  /** Conservation and the confirmed-byte bounds in every reachable state, for the totals and every group. */
  lemma ReachableConservation(ops: seq<Op>, epoch: nat, group: Option<nat>)
    ensures var a := Snapshot(Run(EMPTY, ops).records, epoch, group);
            Conserved(a) && ConfirmedWithinWire(a)
  {
    FatesAreFinal(EMPTY, ops);
    ConservationLaw(Run(EMPTY, ops).records, epoch, group);
  }

  // ------------------------------------------------------------------
  // Measurement epochs
  // ------------------------------------------------------------------

  /** No record claims an epoch that has not begun. */
  predicate EpochsBegun(h: History) {
    forall i | 0 <= i < |h.records| :: h.records[i].epoch <= h.epoch
  }

  lemma {:induction false} RunEpochsBegun(h: History, ops: seq<Op>)
    requires EpochsBegun(h)
    ensures EpochsBegun(Run(h, ops))
    decreases |ops|
  {
    if ops != [] {
      RunEpochsBegun(h, ops[..|ops| - 1]);
      ApplyExtends(Run(h, ops[..|ops| - 1]), ops[|ops| - 1]);
    }
  }

  /**
   In every run, after a reset every counter is zero and stays zero, whatever
   still happens to the requests of earlier epochs, until the new epoch admits
   one.
   */
  lemma StaleRequestsStaySilent(before: seq<Op>, after: seq<Op>, group: Option<nat>)
    requires forall i | 0 <= i < |after| :: !after[i].Admit? && !after[i].Reset?
    ensures var zeroed := Apply(Run(EMPTY, before), Reset);
            Snapshot(Run(zeroed, after).records, zeroed.epoch, group) == NOTHING
  {
    hide Snapshot;
    var zeroed := Apply(Run(EMPTY, before), Reset);
    RunEpochsBegun(EMPTY, before);
    NoNewRecords(zeroed, after);
    FatesAreFinal(zeroed, after);
    SnapshotNothing(Run(zeroed, after).records, zeroed.epoch, group);
  }

  lemma {:induction false} NoNewRecords(h: History, ops: seq<Op>)
    requires forall i | 0 <= i < |ops| :: !ops[i].Admit? && !ops[i].Reset?
    ensures |Run(h, ops).records| == |h.records|
    decreases |ops|
  {
    if ops != [] {
      NoNewRecords(h, ops[..|ops| - 1]);
    }
  }

  /** In any epoch, settling a request of an earlier epoch changes no counter, of the totals or of a group. */
  lemma StaleOpIsInvisible(h: History, op: Op, group: Option<nat>)
    requires op.Begin? || op.Complete? || op.Discard? || op.Rollback?
    requires 1 <= op.id <= |h.records| && h.records[op.id - 1].epoch != h.epoch
    ensures Snapshot(Apply(h, op).records, h.epoch, group) == Snapshot(h.records, h.epoch, group)
  {
    var after := Apply(h, op).records;
    assert after == h.records[op.id - 1 := after[op.id - 1]];
    SnapshotSame(h.records, op.id - 1, after[op.id - 1], h.epoch, group);
  }

  // ------------------------------------------------------------------
  // Batches and the wire prefix
  // ------------------------------------------------------------------

  /** Where item i ends on the wire, counted from the start of the batch. */
  function EndOffset(items: seq<(nat, nat)>, i: nat): nat
    requires i < |items|
  {
    if i == 0 then items[0].1 else items[0].1 + EndOffset(items[1..], i - 1)
  }

  predicate DistinctIds(items: seq<(nat, nat)>) {
    forall i, j | 0 <= i < j < |items| :: items[i].0 != items[j].0
  }

  /** Live requests, each with its own wire size. */
  predicate LiveBatch(rs: seq<Record>, items: seq<(nat, nat)>) {
    && DistinctIds(items)
    && forall i | 0 <= i < |items| :: IsLive(rs, items[i].0) && rs[items[i].0 - 1].bytes == items[i].1
  }

  lemma {:induction false} CompleteAllSkips(rs: seq<Record>, items: seq<(nat, nat)>, confirmed: nat, id: nat)
    requires 1 <= id <= |rs| && forall i | 0 <= i < |items| :: items[i].0 != id
    ensures CompleteAll(rs, items, confirmed)[id - 1] == rs[id - 1]
    decreases |items|
  {
    if items != [] {
      var part := if confirmed < items[0].1 then confirmed else items[0].1;
      CompleteAllSkips(At(rs, items[0].0, r => Finished(r, part)), items[1..], confirmed - part, id);
    }
  }

  /**
   The confirmed count is a prefix of the wire: item i is written exactly when
   it ends within the prefix, and is otherwise an abort by connection loss. An
   empty item is written wherever the prefix ends.
   */
  lemma {:induction false} BatchSplitsAtPrefix(rs: seq<Record>, items: seq<(nat, nat)>, confirmed: nat, i: nat)
    requires LiveBatch(rs, items) && i < |items|
    ensures var r := CompleteAll(rs, items, confirmed)[items[i].0 - 1];
            && r.status.Completed?
            && Standing(r)
               == if items[i].1 == 0 || EndOffset(items, i) <= confirmed then Written else Aborted(ConnectionLoss)
    decreases |items|
  {
    var part := if confirmed < items[0].1 then confirmed else items[0].1;
    var rs' := At(rs, items[0].0, r => Finished(r, part));
    if i == 0 {
      CompleteAllSkips(rs', items[1..], confirmed - part, items[0].0);
    } else {
      assert items[1..][i - 1] == items[i];
      BatchSplitsAtPrefix(rs', items[1..], confirmed - part, i - 1);
      EndOffsetCovers(items[1..], i - 1);
    }
  }

  lemma {:induction false} EndOffsetCovers(items: seq<(nat, nat)>, i: nat)
    requires i < |items|
    ensures items[i].1 <= EndOffset(items, i)
  {
    if i > 0 {
      EndOffsetCovers(items[1..], i - 1);
    }
  }

  /** So after a short write an empty request behind the prefix still counts as written. */
  lemma EmptyRequestIsAlwaysWritten()
    ensures var rs := [Record(2, 0, None, Active), Record(0, 0, None, Active)];
            var items := [(1, 2), (2, 0)];
            && EndOffset(items, 1) == 2 > 1
            && Standing(CompleteAll(rs, items, 1)[1]) == Written
  {
    var rs := [Record(2, 0, None, Active), Record(0, 0, None, Active)];
    var items: seq<(nat, nat)> := [(1, 2), (2, 0)];
    assert items[1..] == [(2, 0)];
    var rs' := At(rs, 1, r => Finished(r, 1));
    assert CompleteAll(rs, items, 1) == CompleteAll(rs', items[1..], 0);
    assert CompleteAll(rs', [(2, 0)], 0) == CompleteAll(At(rs', 2, r => Finished(r, 0)), [], 0);
  }
}
