/**
 The reference meaning of a send ledger: a log with one record per admitted
 request and, in each record, what became of it.  Every counter a ledger
 publishes is a tally over this log, so nothing here is ever decremented.
 */
module SendHistory {
  import opened Options
  import opened SendAccounting

  /** Waiting and Active are live; the other three are the ways a request ends. */
  datatype Status =
    | Waiting
    | Active                                    // handed to local I/O
    | Completed(confirmed: nat)                 // the write completed with this prefix of it
    | Terminated(cause: Cause, active: bool)    // cut off, before or after the handoff
    | Withdrawn                                 // the admitting call failed: never accepted

  /** A request admitted in a measurement epoch, optionally for a contributor (group). */
  datatype Record = Record(bytes: nat, epoch: nat, group: Option<nat>, status: Status)

  /** Request id i is records[i - 1]. */
  datatype History = History(records: seq<Record>, epoch: nat)

  const EMPTY := History([], 0)

  predicate Live(r: Record) {
    r.status.Waiting? || r.status.Active?
  }

  predicate IsLive(rs: seq<Record>, id: nat) {
    1 <= id <= |rs| && Live(rs[id - 1])
  }

  function LossBucket(cause: Cause, active: bool): Bucket {
    if active then Aborted(cause) else Discarded(cause)
  }

  /** Where an accepted request stands: exactly one bucket besides Accepted. */
  function Standing(r: Record): Bucket
    requires !r.status.Withdrawn?
  {
    match r.status
    case Waiting => Outstanding
    case Active => Outstanding
    case Completed(n) => if n == r.bytes then Written else Aborted(ConnectionLoss)
    case Terminated(cause, active) => LossBucket(cause, active)
  }

  /** The records one set of counters covers: an epoch, and one group or everybody. */
  predicate Covers(r: Record, epoch: nat, group: Option<nat>) {
    r.epoch == epoch && (group.None? || r.group == group)
  }

  /** The counters of a log holding just this record. */
  function Alone(r: Record, epoch: nat, group: Option<nat>): Accounting {
    if !Covers(r, epoch, group) || r.status.Withdrawn? then NOTHING
    else
      Confirm(Add(Add(NOTHING, Accepted, r.bytes), Standing(r), r.bytes), ConfirmedOf(r))
  }

  function ConfirmedOf(r: Record): nat {
    if r.status.Completed? then r.status.confirmed else 0
  }

  /** What snapshot() must report: the sum over the log. */
  function Snapshot(rs: seq<Record>, epoch: nat, group: Option<nat>): Accounting {
    if rs == [] then NOTHING
    else Accumulate(Snapshot(rs[..|rs| - 1], epoch, group), Alone(rs[|rs| - 1], epoch, group))
  }

  function LiveCount(rs: seq<Record>): nat {
    if rs == [] then 0 else LiveCount(rs[..|rs| - 1]) + (if Live(rs[|rs| - 1]) then 1 else 0)
  }

  // ------------------------------------------------------------------
  // The operations, on the log
  // ------------------------------------------------------------------

  function Begun(r: Record): Record {
    if Live(r) then r.(status := Active) else r
  }

  function Ended(r: Record, cause: Cause): Record {
    if Live(r) then r.(status := Terminated(cause, r.status.Active?)) else r
  }

  function Finished(r: Record, confirmed: nat): Record {
    if Live(r) then r.(status := Completed(if confirmed < r.bytes then confirmed else r.bytes)) else r
  }

  function Undone(r: Record): Record {
    if Live(r) then r.(status := Withdrawn) else r
  }

  predicate WaitingIn(r: Record, group: nat) {
    r.status.Waiting? && r.group == Some(group)
  }

  datatype Op =
    | Admit(bytes: nat, group: Option<nat>)
    | Begin(id: nat)
    | BeginBatch(ids: seq<nat>)
    | Complete(id: nat, confirmed: nat)
    | CompleteBatch(items: seq<(nat, nat)>, confirmed: nat)   // (id, wire size) in wire order
    | Discard(id: nat, cause: Cause)
    | DiscardWaiting(contributor: nat, cause: Cause)
    | End(cause: Cause)
    | Rollback(id: nat)
    | Reset

  function At(rs: seq<Record>, id: nat, f: Record -> Record): (r: seq<Record>)
    ensures |r| == |rs|
  {
    if 1 <= id <= |rs| then rs[id - 1 := f(rs[id - 1])] else rs
  }

  function BeginAll(rs: seq<Record>, ids: seq<nat>): (r: seq<Record>)
    ensures |r| == |rs|
    ensures forall i | 0 <= i < |rs| :: r[i] == if i + 1 in ids then Begun(rs[i]) else rs[i]
    decreases |ids|
  {
    if ids == [] then rs else At(BeginAll(rs, ids[..|ids| - 1]), ids[|ids| - 1], Begun)
  }

  /** begin_batch: all or nothing. */
  predicate CanBegin(rs: seq<Record>, ids: seq<nat>) {
    forall i | 0 <= i < |ids| :: IsLive(rs, ids[i])
  }

  /** complete_batch: hand each item its part of the confirmed wire prefix, in order. */
  function CompleteAll(rs: seq<Record>, items: seq<(nat, nat)>, confirmed: nat): (r: seq<Record>)
    ensures |r| == |rs|
    decreases |items|
  {
    if items == [] then rs
    else
      var part := if confirmed < items[0].1 then confirmed else items[0].1;
      CompleteAll(At(rs, items[0].0, r => Finished(r, part)), items[1..], confirmed - part)
  }

  function EndAll(rs: seq<Record>, cause: Cause): (r: seq<Record>)
    ensures |r| == |rs| && forall i | 0 <= i < |rs| :: r[i] == Ended(rs[i], cause)
  {
    seq(|rs|, i requires 0 <= i < |rs| => Ended(rs[i], cause))
  }

  function ExpireAll(rs: seq<Record>, group: nat, cause: Cause): (r: seq<Record>)
    ensures |r| == |rs|
    ensures forall i | 0 <= i < |rs| :: r[i] == if WaitingIn(rs[i], group) then Ended(rs[i], cause) else rs[i]
  {
    seq(|rs|, i requires 0 <= i < |rs| => if WaitingIn(rs[i], group) then Ended(rs[i], cause) else rs[i])
  }

  function Apply(h: History, op: Op): History {
    match op
    case Admit(bytes, group) => h.(records := h.records + [Record(bytes, h.epoch, group, Waiting)])
    case Begin(id) => h.(records := At(h.records, id, Begun))
    case BeginBatch(ids) => if CanBegin(h.records, ids) then h.(records := BeginAll(h.records, ids)) else h
    case Complete(id, confirmed) => h.(records := At(h.records, id, r => Finished(r, confirmed)))
    case CompleteBatch(items, confirmed) => h.(records := CompleteAll(h.records, items, confirmed))
    case Discard(id, cause) => h.(records := At(h.records, id, r => Ended(r, cause)))
    case DiscardWaiting(group, cause) => h.(records := ExpireAll(h.records, group, cause))
    case End(cause) => h.(records := EndAll(h.records, cause))
    case Rollback(id) => h.(records := At(h.records, id, Undone))
    case Reset => h.(epoch := h.epoch + 1)
  }

  function Run(h: History, ops: seq<Op>): History
    decreases |ops|
  {
    if ops == [] then h else Apply(Run(h, ops[..|ops| - 1]), ops[|ops| - 1])
  }

  /** The largest number of simultaneously live requests in a run. */
  function Peak(h: History, ops: seq<Op>): nat
    decreases |ops|
  {
    if ops == [] then LiveCount(h.records)
    else
      var before := Peak(h, ops[..|ops| - 1]);
      var now := LiveCount(Run(h, ops).records);
      if before < now then now else before
  }

  // ------------------------------------------------------------------
  // Laws of the counters
  // ------------------------------------------------------------------

  /** A record never claims more confirmed bytes than it has. */
  predicate Sane(rs: seq<Record>) {
    forall i | 0 <= i < |rs| :: rs[i].status.Completed? ==> rs[i].status.confirmed <= rs[i].bytes
  }

  /**
   Conservation: for every log, epoch and group, the accepted requests and bytes
   are exactly the written, outstanding and lost ones, and the confirmed bytes
   lie between the written ones and the written plus aborted-by-loss ones.
   */
  lemma {:induction false} ConservationLaw(rs: seq<Record>, epoch: nat, group: Option<nat>)
    requires Sane(rs)
    ensures Conserved(Snapshot(rs, epoch, group))
    ensures ConfirmedWithinWire(Snapshot(rs, epoch, group))
  {
    if rs != [] {
      ConservationLaw(rs[..|rs| - 1], epoch, group);
      AloneIsConserved(rs[|rs| - 1], epoch, group);
      AccumulateConserves(Snapshot(rs[..|rs| - 1], epoch, group), Alone(rs[|rs| - 1], epoch, group));
    }
  }

  lemma AloneIsConserved(r: Record, epoch: nat, group: Option<nat>)
    requires r.status.Completed? ==> r.status.confirmed <= r.bytes
    ensures Conserved(Alone(r, epoch, group))
    ensures ConfirmedWithinWire(Alone(r, epoch, group))
  {
    if Covers(r, epoch, group) && !r.status.Withdrawn? {
      OneConserved(Standing(r), r.bytes, ConfirmedOf(r));
    }
  }

  // ------------------------------------------------------------------
  // Effect of one changed record on the counters
  // ------------------------------------------------------------------

  lemma {:induction false} SnapshotUpdate(rs: seq<Record>, i: nat, r: Record, epoch: nat, group: Option<nat>)
    requires i < |rs|
    ensures Accumulate(Snapshot(rs[i := r], epoch, group), Alone(rs[i], epoch, group))
         == Accumulate(Snapshot(rs, epoch, group), Alone(r, epoch, group))
  {
    hide Alone, Accumulate;
    var n := |rs| - 1;
    var old_, now := Alone(rs[i], epoch, group), Alone(r, epoch, group);
    if i == n {
      assert rs[i := r][..n] == rs[..n];
      AccumulateSwap(Snapshot(rs[..n], epoch, group), now, old_);
    } else {
      assert rs[i := r][..n] == rs[..n][i := r];
      SnapshotUpdate(rs[..n], i, r, epoch, group);
      var last := Alone(rs[n], epoch, group);
      AccumulateSwap(Snapshot(rs[..n][i := r], epoch, group), last, old_);
      AccumulateSwap(Snapshot(rs[..n], epoch, group), now, last);
    }
  }

  lemma SnapshotSnoc(rs: seq<Record>, r: Record, epoch: nat, group: Option<nat>)
    ensures Snapshot(rs + [r], epoch, group) == Accumulate(Snapshot(rs, epoch, group), Alone(r, epoch, group))
  {
    assert (rs + [r])[..|rs + [r]| - 1] == rs;
  }

  /** A live covered record is outstanding and accepted, so removing it there cannot underflow. */
  lemma LiveIsOutstanding(rs: seq<Record>, i: nat, epoch: nat, group: Option<nat>)
    requires i < |rs| && Covers(rs[i], epoch, group) && Live(rs[i])
    ensures var a := Snapshot(rs, epoch, group);
            && a.outstanding.requests >= 1 && a.outstanding.bytes >= rs[i].bytes
            && a.accepted.requests >= 1 && a.accepted.bytes >= rs[i].bytes
  {
    SnapshotUpdate(rs, i, rs[i].(status := Withdrawn), epoch, group);
  }

  /** Adding one covered record, counter by counter. */
  lemma AccumulateAlone(a: Accounting, r: Record, epoch: nat, group: Option<nat>)
    requires Covers(r, epoch, group) && !r.status.Withdrawn?
    ensures Accumulate(a, Alone(r, epoch, group))
         == Confirm(Add(Add(a, Accepted, r.bytes), Standing(r), r.bytes), ConfirmedOf(r))
  {
    var one := Add(NOTHING, Accepted, r.bytes);
    AccumulateNothing(a);
    AccumulateAdd(a, NOTHING, Accepted, r.bytes);
    AccumulateAdd(a, one, Standing(r), r.bytes);
    assert Accumulate(a, Alone(r, epoch, group))
        == Confirm(Accumulate(a, Add(one, Standing(r), r.bytes)), ConfirmedOf(r));
  }

  /**
   Replacing a live covered record by r adds what r stands for and takes the
   record out of the outstanding ones: the shape of every counter update.
   */
  lemma SnapshotSettled(rs: seq<Record>, i: nat, r: Record, epoch: nat, group: Option<nat>)
    requires i < |rs| && Covers(rs[i], epoch, group) && Live(rs[i])
    requires r == rs[i].(status := r.status) && !r.status.Withdrawn?
    ensures var a := Snapshot(rs, epoch, group);
            && a.outstanding.requests >= 1 && a.outstanding.bytes >= r.bytes
            && Snapshot(rs[i := r], epoch, group)
               == Add(Remove(Confirm(a, ConfirmedOf(r)), Outstanding, r.bytes), Standing(r), r.bytes)
  {
    hide Alone, Accumulate, Add, Remove;
    LiveIsOutstanding(rs, i, epoch, group);
    SnapshotUpdate(rs, i, r, epoch, group);
    var a, n := Snapshot(rs, epoch, group), r.bytes;
    var claim := Add(Remove(Confirm(a, ConfirmedOf(r)), Outstanding, n), Standing(r), n);
    assert Accumulate(claim, Alone(rs[i], epoch, group)) == Accumulate(a, Alone(r, epoch, group)) by {
      AccumulateAlone(claim, rs[i], epoch, group);
      AccumulateAlone(a, r, epoch, group);
      MoveRequest(a, Standing(r), n, ConfirmedOf(r));
    }
    AccumulateCancel(Snapshot(rs[i := r], epoch, group), claim, Alone(rs[i], epoch, group));
  }

  lemma SnapshotUndone(rs: seq<Record>, i: nat, epoch: nat, group: Option<nat>)
    requires i < |rs| && Covers(rs[i], epoch, group) && Live(rs[i])
    ensures var a := Snapshot(rs, epoch, group);
            && a.outstanding.requests >= 1 && a.outstanding.bytes >= rs[i].bytes
            && a.accepted.requests >= 1 && a.accepted.bytes >= rs[i].bytes
            && Snapshot(rs[i := Undone(rs[i])], epoch, group)
               == Remove(Remove(a, Accepted, rs[i].bytes), Outstanding, rs[i].bytes)
  {
    hide Accumulate;
    LiveIsOutstanding(rs, i, epoch, group);
    SnapshotUpdate(rs, i, Undone(rs[i]), epoch, group);
    var a, n := Snapshot(rs, epoch, group), rs[i].bytes;
    AccumulateNothing(a);
    var claim := Remove(Remove(a, Accepted, n), Outstanding, n);
    assert Accumulate(claim, Alone(rs[i], epoch, group)) == a by {
      AccumulateAlone(claim, rs[i], epoch, group);
    }
    AccumulateCancel(Snapshot(rs[i := Undone(rs[i])], epoch, group), claim, Alone(rs[i], epoch, group));
  }

  /** A change that leaves a record live, or touches an uncovered one, moves no counter. */
  lemma SnapshotSame(rs: seq<Record>, i: nat, r: Record, epoch: nat, group: Option<nat>)
    requires i < |rs|
    requires r.epoch == rs[i].epoch && r.group == rs[i].group && r.bytes == rs[i].bytes
    requires Covers(rs[i], epoch, group) ==> Live(rs[i]) && Live(r)
    ensures Snapshot(rs[i := r], epoch, group) == Snapshot(rs, epoch, group)
  {
    SnapshotUpdate(rs, i, r, epoch, group);
    assert Alone(rs[i], epoch, group) == Alone(r, epoch, group);
    AccumulateCancel(Snapshot(rs[i := r], epoch, group), Snapshot(rs, epoch, group), Alone(r, epoch, group));
  }

  /** With nothing to cover the counters are zero. */
  lemma {:induction false} SnapshotNothing(rs: seq<Record>, epoch: nat, group: Option<nat>)
    requires forall i | 0 <= i < |rs| :: !Covers(rs[i], epoch, group)
    ensures Snapshot(rs, epoch, group) == NOTHING
  {
    hide Alone, Accumulate;
    if rs != [] {
      SnapshotNothing(rs[..|rs| - 1], epoch, group);
      AloneUncovered(rs[|rs| - 1], epoch, group);
      AccumulateNothing(NOTHING);
    }
  }

  lemma AloneUncovered(r: Record, epoch: nat, group: Option<nat>)
    requires !Covers(r, epoch, group)
    ensures Alone(r, epoch, group) == NOTHING
  {
  }

  lemma SnapshotAdmit(rs: seq<Record>, r: Record, epoch: nat, group: Option<nat>)
    requires r.status.Waiting?
    ensures Snapshot(rs + [r], epoch, group)
         == if Covers(r, epoch, group) then
              Add(Add(Snapshot(rs, epoch, group), Accepted, r.bytes), Outstanding, r.bytes)
            else Snapshot(rs, epoch, group)
  {
    SnapshotSnoc(rs, r, epoch, group);
    if Covers(r, epoch, group) {
      AccumulateAlone(Snapshot(rs, epoch, group), r, epoch, group);
    } else {
      AccumulateNothing(Snapshot(rs, epoch, group));
    }
  }
}
