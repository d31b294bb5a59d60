/**
 What becomes of a session's requests: a completed write settles its batch along the
 confirmed prefix, and every other ending is charged to the event that closed the
 session, before or after the handoff as the wire shows.
 */
module SessionSettling {
  import opened Options
  import opened SendAccounting
  import opened SendHistory
  import opened SendFates
  import SendPublished
  import opened SendSettling
  import opened Queues
  import opened SessionModel
  import opened SessionBytes
  import opened SessionOrder
  import opened SessionFates

  // ------------------------------------------------------------------
  // One step of the ledger
  // ------------------------------------------------------------------

  /** The handler of a completed write is about to run on an open session. */
  predicate Completes(s: State, e: Event) {
    e.Strand? && s.pc.Idle? && s.posted != [] && s.posted[0].WriteDone? && s.admitting.None? && !Closed(s)
  }

  /** The bytes that completion confirms: never more than the write had. */
  function Confirms(s: State): nat
    requires s.posted != [] && s.posted[0].WriteDone?
  {
    if s.posted[0].n < s.posted[0].total then s.posted[0].n else s.posted[0].total
  }

  lemma CompletionStep(s: State, e: Event)
    requires Completes(s, e)
    ensures var done := CompleteAll(s.ledger.records, Sizes(s.lanes.batch), Confirms(s));
            Step(s, e).ledger.records == done || Step(s, e).ledger.records == EndAll(done, ConnectionLoss)
    ensures Step(s, e).past.wire == s.past.wire
  {
    hide CompleteAll, Sizes;
  }

  lemma OthersStep(s: State, e: Event)
    requires !Completes(s, e)
    ensures SendPublished.NoneCompleted(s.ledger.records, Step(s, e).ledger.records)
  {
    hide Apply, SendPublished.NoneCompleted, Verdict, NeedsMutex, Bytes, GatherCount, DecideEnqueue, Sizes, Ids;
    NoneCompletedSelf(s.ledger.records);
    match e
    case Strand(throws) => if !(s.admitting.Some? && NeedsMutex(s, throws)) { OthersStrand(s, throws); }
    case Admitted =>
      if s.admitting.Some? { SendPublished.OthersCompleteNone(s.ledger, Admit(|s.admitting.value.data|, None)); }
    case AdmissionThrows(_) =>
      if s.admitting.Some? {
        var h := Apply(s.ledger, Admit(|s.admitting.value.data|, None));
        SendPublished.OthersCompleteNone(s.ledger, Admit(|s.admitting.value.data|, None));
        SendPublished.OthersCompleteNone(h, Rollback(s.admitting.value.id));
        SendPublished.NoneCompletedTwice(s.ledger.records, h.records, Apply(h, Rollback(s.admitting.value.id)).records);
      }
    case RequestStop => SendPublished.OthersCompleteNone(s.ledger, End(ExplicitStop));
    case AsyncStop => SendPublished.OthersCompleteNone(s.ledger, End(ExplicitStop));
    case ResetStats => SendPublished.OthersCompleteNone(s.ledger, Reset);
    case _ =>
  }

  lemma OthersStrand(s: State, throws: bool)
    requires !Completes(s, Strand(throws)) && !(s.admitting.Some? && NeedsMutex(s, throws))
    ensures SendPublished.NoneCompleted(s.ledger.records, StrandStep(s, throws).ledger.records)
  {
    hide Apply, SendPublished.NoneCompleted, Bytes, GatherCount, DecideEnqueue, Sizes, Ids;
    NoneCompletedSelf(s.ledger.records);
    SendPublished.OthersCompleteNone(s.ledger, End(ConnectionLoss));
    match s.pc
    case Routing(item) => SendPublished.OthersCompleteNone(s.ledger, Discard(item.id, QueuePressure));
    case Kicking(_) =>
      SendPublished.OthersCompleteNone(s.ledger, BeginBatch(Ids(s.lanes.tx[..GatherCount(s.lanes.tx)])));
    case Resuming(_) =>
      SendPublished.OthersCompleteNone(s.ledger, BeginBatch(Ids(s.lanes.tx[..GatherCount(s.lanes.tx)])));
    case _ =>
  }

  // ------------------------------------------------------------------
  // The batch
  // ------------------------------------------------------------------

  /** Every item of the batch has its request, of its size. */
  ghost predicate BatchTracked(s: State) {
    forall i | 0 <= i < |s.lanes.batch| :: Tracked(s.ledger.records, s.lanes.batch[i])
  }

  lemma {:induction false} OfKindHas(items: seq<Item>, kind: Kind, x: Item)
    ensures x in OfKind(items, kind) <==> x in items && x.kind == kind
  {
    if items != [] {
      OfKindHas(items[1..], kind, x);
    }
  }

  /** Whatever is queued was accepted, so it has its request. */
  lemma QueuedIsTracked(s: State, x: Item)
    requires Numbered(s) && InOrder(s, x.kind) && x in s.lanes.tx
    ensures Tracked(s.ledger.records, x)
  {
    hide Queued, Tracked;
    assert x in Backlog(s);
    OfKindHas(Backlog(s), x.kind, x);
    OfKindHas(s.past.accepted, x.kind, x);
    assert x in OfKind(s.past.accepted, x.kind);
    var i :| 0 <= i < |s.past.accepted| && s.past.accepted[i] == x;
    assert Tracked(s.ledger.records, s.past.accepted[i]);
  }

  lemma BatchMoves(s: State, e: Event)
    ensures var b := Step(s, e).lanes.batch;
            b == s.lanes.batch || b == [] || (!s.life.closing && forall x | x in b :: x in s.lanes.tx)
  {
    hide Apply, Verdict, NeedsMutex, Bytes, DecideEnqueue, Sizes, Ids, GatherFrom;
  }

  lemma BatchTrackedStep(s: State, e: Event)
    requires BatchTracked(s) && Numbered(s) && (!s.life.closing ==> InOrder(s, Plain) && InOrder(s, Try))
    ensures BatchTracked(Step(s, e))
  {
    hide Step, Numbered, InOrder;
    var t := Step(s, e);
    LedgerFollows(s, e);
    StepWithdraws(s, e);
    BatchMoves(s, e);
    forall i | 0 <= i < |t.lanes.batch| ensures Tracked(t.ledger.records, t.lanes.batch[i]) {
      var x := t.lanes.batch[i];
      if t.lanes.batch != s.lanes.batch {
        assert x in s.lanes.tx && (x.kind == Plain || x.kind == Try);
        QueuedIsTracked(s, x);
      }
      assert Tracked(s.ledger.records, x);
      assert Follows(s.ledger.records[x.id - 1], t.ledger.records[x.id - 1]);
    }
  }

  lemma {:induction false} BatchAlwaysTracked(threshold: nat, events: seq<Event>)
    ensures BatchTracked(Reach(threshold, events))
    decreases |events|
  {
    hide Step, BatchTracked, Numbered, Settled, Linked, Handed, Sane, Sorted, InOrder;
    if events == [] {
      NoBatch(threshold);
    } else {
      var before := events[..|events| - 1];
      BatchAlwaysTracked(threshold, before);
      LedgerMatchesSession(threshold, before);
      WireFollowsAcceptance(threshold, before, Plain);
      WireFollowsAcceptance(threshold, before, Try);
      BatchTrackedStep(Reach(threshold, before), events[|events| - 1]);
    }
  }

  lemma NoBatch(threshold: nat)
    ensures BatchTracked(Initial(threshold))
  {
  }

  /** An open session's batch: live, each request once, with its own size. */
  lemma BatchIsLive(s: State)
    requires Linked(s) && BatchTracked(s)
    ensures SendPublished.OwnSizes(s.ledger.records, Sizes(s.lanes.batch))
    ensures forall i | 0 <= i < |s.lanes.batch| :: IsLive(s.ledger.records, s.lanes.batch[i].id)
  {
    hide Count;
    var batch := s.lanes.batch;
    forall i | 0 <= i < |batch| ensures IsLive(s.ledger.records, batch[i].id) {
      assert LinkedAt(s, batch[i].id);
      CountPositive(batch, i);
    }
    forall i, j | 0 <= i < j < |batch| ensures batch[i].id != batch[j].id {
      assert LinkedAt(s, batch[i].id);
      if batch[i].id == batch[j].id { CountTwice(batch, i, j); }
    }
    forall i | 0 <= i < |batch| ensures s.ledger.records[batch[i].id - 1].bytes == |batch[i].data| {
      assert Tracked(s.ledger.records, batch[i]);
    }
  }

  // ------------------------------------------------------------------
  // Completions settle along the prefix
  // ------------------------------------------------------------------

  lemma CompletionSettles(s: State, e: Event, i: nat)
    requires Completes(s, e) && Linked(s) && BatchTracked(s) && i < |s.lanes.batch|
    ensures SettledBy(Step(s, e).ledger.records, s.lanes.batch, Confirms(s), i)
  {
    hide Step, Confirms, Linked, BatchTracked, CompleteAll, Bytes;
    BatchIsLive(s);
    CompletionStep(s, e);
    CompletionSettlesItem(s.ledger.records, Step(s, e).ledger.records, s.lanes.batch, Confirms(s), i);
  }

  /** Every write that completed during the run, as the log shows it at the end. */
  ghost predicate CompletionsStand(threshold: nat, events: seq<Event>, log: seq<Record>) {
    forall k, i | 0 <= k < |events| && Completes(Reach(threshold, events[..k]), events[k])
                  && 0 <= i < |Reach(threshold, events[..k]).lanes.batch| ::
      var s := Reach(threshold, events[..k]); SettledBy(log, s.lanes.batch, Confirms(s), i)
  }

  /**
   Over every run: whenever the handler of a write runs on an open session, each item
   of the batch is settled for good by its part of the confirmed prefix.
   */
  lemma CompletionsAreFinal(threshold: nat, events: seq<Event>)
    ensures CompletionsStand(threshold, events, Reach(threshold, events).ledger.records)
  {
    hide Reach, Step, Confirms, SettledBy, Extends;
    var log := Reach(threshold, events).ledger.records;
    forall k, i | 0 <= k < |events| && Completes(Reach(threshold, events[..k]), events[k])
                  && 0 <= i < |Reach(threshold, events[..k]).lanes.batch|
      ensures var s := Reach(threshold, events[..k]); SettledBy(log, s.lanes.batch, Confirms(s), i)
    {
      CompletedAt(threshold, events, k, i);
    }
  }

  lemma CompletedAt(threshold: nat, events: seq<Event>, k: nat, i: nat)
    requires k < |events| && Completes(Reach(threshold, events[..k]), events[k])
    requires i < |Reach(threshold, events[..k]).lanes.batch|
    ensures var s := Reach(threshold, events[..k]);
            SettledBy(Reach(threshold, events).ledger.records, s.lanes.batch, Confirms(s), i)
  {
    hide Step, Confirms, Numbered, Settled, Linked, Handed, Sane, BatchTracked, SettledBy;
    var s := Reach(threshold, events[..k]);
    LedgerMatchesSession(threshold, events[..k]);
    BatchAlwaysTracked(threshold, events[..k]);
    CompletionSettles(s, events[k], i);
    ReachNext(threshold, events, k);
    SessionFatesAreFinal(threshold, events[..k + 1], events[k + 1..]);
    assert events[..k + 1] + events[k + 1..] == events;
    SettledStays(Step(s, events[k]).ledger.records, Reach(threshold, events).ledger.records, s.lanes.batch,
                 Confirms(s), i);
  }

  lemma ReachNext(threshold: nat, events: seq<Event>, k: nat)
    requires k < |events|
    ensures Reach(threshold, events[..k + 1]) == Step(Reach(threshold, events[..k]), events[k])
  {
    hide Step;
    assert events[..k + 1][..k] == events[..k];
  }

  // ------------------------------------------------------------------
  // What the counters say of them
  // ------------------------------------------------------------------

  /** What the completions of a run wrote of an epoch's requests: the items within the confirmed prefixes. */
  ghost function WrittenAlong(threshold: nat, events: seq<Event>, epoch: nat): Totals
    decreases |events|
  {
    if events == [] then NO_TOTALS
    else
      var before, e := events[..|events| - 1], events[|events| - 1];
      var s, sofar := Reach(threshold, before), WrittenAlong(threshold, before, epoch);
      if Completes(s, e) then
        Plus(sofar, SendPublished.WrittenIn(s.ledger.records, Sizes(s.lanes.batch), Confirms(s), epoch, None))
      else sofar
  }

  /** And the bytes they confirmed of them. */
  ghost function ConfirmedAlong(threshold: nat, events: seq<Event>, epoch: nat): nat
    decreases |events|
  {
    if events == [] then 0
    else
      var before, e := events[..|events| - 1], events[|events| - 1];
      var s, sofar := Reach(threshold, before), ConfirmedAlong(threshold, before, epoch);
      if Completes(s, e) then
        sofar + SendPublished.ConfirmedIn(s.ledger.records, Sizes(s.lanes.batch), Confirms(s), epoch, None)
      else sofar
  }

  function Published(s: State, epoch: nat): Accounting {
    Snapshot(s.ledger.records, epoch, None)
  }

  lemma CompletionCounts(s: State, e: Event, epoch: nat)
    requires Completes(s, e) && Linked(s) && BatchTracked(s)
    ensures var rs, items := s.ledger.records, Sizes(s.lanes.batch);
            var a, b := Published(s, epoch), Published(Step(s, e), epoch);
            && b.written == Plus(a.written, SendPublished.WrittenIn(rs, items, Confirms(s), epoch, None))
            && b.confirmedWrittenBytes
               == a.confirmedWrittenBytes + SendPublished.ConfirmedIn(rs, items, Confirms(s), epoch, None)
  {
    hide Step, Confirms, Linked, BatchTracked, CompleteAll, Snapshot, Plus;
    BatchIsLive(s);
    CompletionStep(s, e);
    CompletionCountsItems(s.ledger.records, Step(s, e).ledger.records, s.lanes.batch, Confirms(s), epoch);
  }

  /**
   Every run, every epoch: the published written requests and confirmed bytes are
   exactly those of the writes that completed, along their confirmed prefixes.
   */
  lemma {:induction false} WrittenIsWhatCompleted(threshold: nat, events: seq<Event>, epoch: nat)
    ensures var a := Published(Reach(threshold, events), epoch);
            && a.written == WrittenAlong(threshold, events, epoch)
            && a.confirmedWrittenBytes == ConfirmedAlong(threshold, events, epoch)
    decreases |events|
  {
    hide Step, Completes, Confirms, Numbered, Settled, Linked, Handed, Sane, BatchTracked, Snapshot, Plus;
    if events == [] {
      NothingWritten(threshold, epoch);
    } else {
      var before, e := events[..|events| - 1], events[|events| - 1];
      var s := Reach(threshold, before);
      WrittenIsWhatCompleted(threshold, before, epoch);
      if Completes(s, e) {
        OpenWhenCompleting(s, e);
        LedgerMatchesSession(threshold, before);
        BatchAlwaysTracked(threshold, before);
        CompletionCounts(s, e, epoch);
      } else {
        OthersStep(s, e);
        SendPublished.SameWritten(s.ledger.records, Step(s, e).ledger.records, epoch, None);
      }
    }
  }

  lemma OpenWhenCompleting(s: State, e: Event)
    requires Completes(s, e)
    ensures !s.life.closing
  {
  }

  lemma NothingWritten(threshold: nat, epoch: nat)
    ensures Published(Initial(threshold), epoch) == NOTHING
  {
  }

  /** A completion of a batch of one epoch confirms exactly the bytes written, up to the size of the write. */
  lemma CompletionConfirms(threshold: nat, events: seq<Event>, e: Event, epoch: nat)
    requires var s := Reach(threshold, events);
             Completes(s, e) && forall i, x | 0 <= i < |s.ledger.records| && x in s.lanes.batch ::
                                  x.id == i + 1 ==> s.ledger.records[i].epoch == epoch
    ensures var s := Reach(threshold, events);
            Published(Step(s, e), epoch).confirmedWrittenBytes
            == Published(s, epoch).confirmedWrittenBytes + Confirms(s)
  {
    hide Reach, Step, Numbered, Settled, Linked, Handed, Sane, BatchTracked, Snapshot, Reserved, Moving, Nonempty;
    var s := Reach(threshold, events);
    LedgerMatchesSession(threshold, events);
    BatchAlwaysTracked(threshold, events);
    BytesStayExact(threshold, events);
    BatchIsLive(s);
    CompletionCounts(s, e, epoch);
    var items := Sizes(s.lanes.batch);
    forall i | 0 <= i < |items| ensures SendPublished.Settles(s.ledger.records, items[i].0, epoch, None) {
      assert s.lanes.batch[i] in s.lanes.batch && IsLive(s.ledger.records, s.lanes.batch[i].id);
    }
    SendPublished.WholeBatchConfirmed(s.ledger.records, items, Confirms(s), epoch, None);
    SizesAddUp(s.lanes.batch);
  }

  // ------------------------------------------------------------------
  // Losses and their causes
  // ------------------------------------------------------------------

  function CauseOf(e: Event): Cause {
    if e.RequestStop? || e.AsyncStop? then ExplicitStop else ConnectionLoss
  }

  lemma StepCuts(s: State, e: Event, i: nat)
    requires Reserved(s) && i < |s.ledger.records| && Live(s.ledger.records[i])
    ensures i < |Step(s, e).ledger.records| && CutAs(s.ledger.records[i], Step(s, e).ledger.records[i], CauseOf(e))
    ensures Step(s, e).ledger.records[i].status.Terminated? ==> Step(s, e).life.closing
  {
    hide Apply, Reserved, CutAs, Live, Verdict, NeedsMutex, Bytes, GatherCount, DecideEnqueue, Sizes, Ids, StrandStep;
    SameCuts(s.ledger.records[i], CauseOf(e));
    match e
    case Strand(throws) => if !(s.admitting.Some? && NeedsMutex(s, throws)) { StrandCuts(s, throws, i); }
    case Admitted =>
      if s.admitting.Some? { AdmitCuts(s.ledger, |s.admitting.value.data|, s.admitting.value.id, i); }
    case AdmissionThrows(_) =>
      if s.admitting.Some? { AdmitCuts(s.ledger, |s.admitting.value.data|, s.admitting.value.id, i); }
    case RequestStop => OpCuts(s.ledger, End(ExplicitStop), i, ExplicitStop);
    case AsyncStop => OpCuts(s.ledger, End(ExplicitStop), i, ExplicitStop);
    case ResetStats => ResetKeeps(s.ledger);
    case _ =>
  }

  lemma StrandCuts(s: State, throws: bool, i: nat)
    requires Reserved(s) && i < |s.ledger.records| && Live(s.ledger.records[i])
    ensures var t := StrandStep(s, throws);
            && i < |t.ledger.records| && CutAs(s.ledger.records[i], t.ledger.records[i], ConnectionLoss)
            && (t.ledger.records[i].status.Terminated? ==> t.life.closing)
  {
    hide Apply, CutAs, Live, Bytes, GatherCount, DecideEnqueue, Sizes, Ids, Reserved;
    SameCuts(s.ledger.records[i], ConnectionLoss);
    OpCuts(s.ledger, End(ConnectionLoss), i, ConnectionLoss);
    match s.pc
    case Idle =>
      if s.posted != [] && s.posted[0].WriteDone? {
        var h := s.posted[0];
        DoneCuts(s.ledger, Sizes(s.lanes.batch), if h.n < h.total then h.n else h.total, i);
      }
    case Routing(item) => ReservedWritesAreNeverRejected(s);
    case Kicking(_) => BeginCuts(s.ledger, Ids(s.lanes.tx[..GatherCount(s.lanes.tx)]), i);
    case Resuming(_) => BeginCuts(s.ledger, Ids(s.lanes.tx[..GatherCount(s.lanes.tx)]), i);
    case _ =>
  }

  /** The request is somewhere among the items given to the socket. */
  lemma StepActivates(s: State, e: Event, i: nat)
    requires i < |s.ledger.records| && !s.ledger.records[i].status.Active?
    ensures i < |Step(s, e).ledger.records| && s.past.wire <= Step(s, e).past.wire
    ensures Step(s, e).ledger.records[i].status.Active? ==> HasItem(Step(s, e).past.wire, i + 1)
  {
    hide Apply, Verdict, NeedsMutex, Bytes, GatherCount, DecideEnqueue, Sizes, Ids, StrandStep, HasItem;
    forall op: Op | !op.Begin? && !op.BeginBatch?
      ensures i < |Apply(s.ledger, op).records| && !Apply(s.ledger, op).records[i].status.Active?
    {
      OpActivates(s.ledger, op, i);
    }
    match e
    case Strand(throws) => if !(s.admitting.Some? && NeedsMutex(s, throws)) { StrandActivates(s, throws, i); }
    case AdmissionThrows(_) =>
      if s.admitting.Some? {
        OpActivates(Apply(s.ledger, Admit(|s.admitting.value.data|, None)), Rollback(s.admitting.value.id), i);
      }
    case _ =>
  }

  lemma StrandActivates(s: State, throws: bool, i: nat)
    requires i < |s.ledger.records| && !s.ledger.records[i].status.Active?
    ensures var t := StrandStep(s, throws);
            && i < |t.ledger.records| && s.past.wire <= t.past.wire
            && (t.ledger.records[i].status.Active? ==> HasItem(t.past.wire, i + 1))
  {
    hide Apply, Bytes, GatherCount, DecideEnqueue, Sizes, Ids, HasItem, DoWrite;
    forall op: Op | !op.Begin? && !op.BeginBatch?
      ensures i < |Apply(s.ledger, op).records| && !Apply(s.ledger, op).records[i].status.Active?
    {
      OpActivates(s.ledger, op, i);
    }
    match s.pc
    case Idle =>
      if s.posted != [] && s.posted[0].WriteDone? {
        var h := s.posted[0];
        var op := CompleteBatch(Sizes(s.lanes.batch), if h.n < h.total then h.n else h.total);
        OpActivates(Apply(s.ledger, op), End(ConnectionLoss), i);
      }
    case Kicking(k) => if !s.lanes.writing { DoWriteActivates(s, k, i); }
    case Resuming(k) =>
      DoWriteActivates(s, Done, i);
      DoWriteActivates(s.(lanes := s.lanes.(writing := false)), Done, i);
    case _ =>
  }

  lemma DoWriteActivates(s: State, k: Then, i: nat)
    requires i < |s.ledger.records| && !s.ledger.records[i].status.Active?
    ensures var t := DoWrite(s, k);
            && i < |t.ledger.records| && s.past.wire <= t.past.wire
            && (t.ledger.records[i].status.Active? ==> HasItem(t.past.wire, i + 1))
  {
    hide Bytes, GatherFrom;
    var t := DoWrite(s, k);
    if t.ledger != s.ledger && t.ledger.records[i].status.Active? {
      var batch := s.lanes.tx[..GatherCount(s.lanes.tx)];
      assert i + 1 in Ids(batch);
      var j :| 0 <= j < |batch| && Ids(batch)[j] == i + 1;
      assert t.past.wire[|s.past.wire| + j] == batch[j];
    }
  }

  /** What ended the session, by the event that closed it. */
  ghost function EndedBy(threshold: nat, events: seq<Event>): Option<Cause>
    decreases |events|
  {
    if events == [] then None
    else
      var sofar := EndedBy(threshold, events[..|events| - 1]);
      if sofar.None? && Reach(threshold, events).life.closing then Some(CauseOf(events[|events| - 1])) else sofar
  }

  /** Every request that was cut off has that cause, and on the wire is exactly what had been handed over. */
  ghost predicate Charged(s: State, ended: Option<Cause>) {
    && (ended.Some? <==> s.life.closing)
    && (forall i | 0 <= i < |s.ledger.records| && s.ledger.records[i].status.Terminated? ::
          Some(s.ledger.records[i].status.cause) == ended)
    && (forall i | 0 <= i < |s.ledger.records| && Crossed(s.ledger.records[i]) :: HasItem(s.past.wire, i + 1))
  }

  lemma ChargedStep(s: State, e: Event, ended: Option<Cause>)
    requires Reserved(s) && Settled(s) && Charged(s, ended)
    ensures var t := Step(s, e);
            Charged(t, if ended.None? && t.life.closing then Some(CauseOf(e)) else ended)
  {
    hide Step, Reserved, HasItem;
    var t := Step(s, e);
    ClosingIsForever(s, e);
    LedgerFollows(s, e);
    StepLength(s, e);
    forall i | 0 <= i < |t.ledger.records|
      ensures t.ledger.records[i].status.Terminated? ==>
                Some(t.ledger.records[i].status.cause)
                == if ended.None? && t.life.closing then Some(CauseOf(e)) else ended
      ensures Crossed(t.ledger.records[i]) ==> HasItem(t.past.wire, i + 1)
    {
      if i < |s.ledger.records| {
        ChargedRecord(s, e, ended, i);
      } else {
        NewRecord(s, e);
      }
    }
  }

  lemma NewRecord(s: State, e: Event)
    requires |Step(s, e).ledger.records| > |s.ledger.records|
    ensures var rs := Step(s, e).ledger.records;
            forall i | |s.ledger.records| <= i < |rs| :: !rs[i].status.Terminated? && !rs[i].status.Active?
  {
    hide Apply;
    StepLength(s, e);
    AdmitAppends(s.ledger, |s.admitting.value.data|);
    RollbackEnds(Apply(s.ledger, Admit(|s.admitting.value.data|, None)), s.admitting.value.id);
  }

  lemma ChargedRecord(s: State, e: Event, ended: Option<Cause>, i: nat)
    requires Reserved(s) && Settled(s) && Charged(s, ended) && i < |s.ledger.records|
    ensures var t := Step(s, e);
            && i < |t.ledger.records|
            && (t.ledger.records[i].status.Terminated? ==>
                  Some(t.ledger.records[i].status.cause)
                  == if ended.None? && t.life.closing then Some(CauseOf(e)) else ended)
            && (Crossed(t.ledger.records[i]) ==> HasItem(t.past.wire, i + 1))
  {
    hide Step, Reserved, HasItem;
    var t := Step(s, e);
    ClosingIsForever(s, e);
    LedgerFollows(s, e);
    assert Follows(s.ledger.records[i], t.ledger.records[i]);
    if Live(s.ledger.records[i]) {
      StepCuts(s, e, i);
    }
    WireGrows(s, e);
    if Crossed(s.ledger.records[i]) {
      HasItemStill(s.past.wire, t.past.wire, i + 1);
    } else {
      StepActivates(s, e, i);
    }
  }

  lemma WireGrows(s: State, e: Event)
    ensures s.past.wire <= Step(s, e).past.wire
  {
    hide Apply, Verdict, NeedsMutex, Bytes, Sizes, Ids, DecideEnqueue;
  }

  lemma {:induction false} AlwaysCharged(threshold: nat, events: seq<Event>)
    ensures Charged(Reach(threshold, events), EndedBy(threshold, events))
    decreases |events|
  {
    hide Step, Charged, Reserved, Exact, Moving, Nonempty, Numbered, Settled, Linked, Handed, Sane;
    if events == [] {
      NobodyCharged(threshold);
    } else {
      var before := events[..|events| - 1];
      AlwaysCharged(threshold, before);
      BytesStayExact(threshold, before);
      LedgerMatchesSession(threshold, before);
      ChargedStep(Reach(threshold, before), events[|events| - 1], EndedBy(threshold, before));
    }
  }

  lemma NobodyCharged(threshold: nat)
    ensures Charged(Initial(threshold), None)
  {
  }

  lemma WireMarks(threshold: nat, events: seq<Event>)
    ensures var s := Reach(threshold, events); MarkedByWire(s.ledger.records, s.past.wire)
  {
    hide Reach, EndedBy, Numbered, Settled, Linked, Sane, HasItem;
    var s := Reach(threshold, events);
    AlwaysCharged(threshold, events);
    OnlyTwoCauses(threshold, events);
    LedgerMatchesSession(threshold, events);
    forall i | 0 <= i < |s.ledger.records| && s.ledger.records[i].status.Terminated?
      ensures s.ledger.records[i].status.active <==> HasItem(s.past.wire, i + 1)
      ensures s.ledger.records[i].status.cause == ExplicitStop || s.ledger.records[i].status.cause == ConnectionLoss
    {
      if HasItem(s.past.wire, i + 1) { HandedIsActive(s, i); }
      assert Crossed(s.ledger.records[i]) == s.ledger.records[i].status.active;
    }
  }

  lemma HandedIsActive(s: State, i: nat)
    requires Handed(s.ledger.records, s.past.wire) && HasItem(s.past.wire, i + 1) && i < |s.ledger.records|
    ensures CrossedHandoff(s.ledger.records[i])
  {
    var j :| 0 <= j < |s.past.wire| && s.past.wire[j].id == i + 1;
    assert CrossedHandoff(s.ledger.records[s.past.wire[j].id - 1]);
  }

  /** Every run: the published losses, all charged to what closed the session and to nothing else. */
  lemma LossesAreCharged(threshold: nat, events: seq<Event>)
    ensures var s := Reach(threshold, events);
            && ShowsLosses(Published(s, s.ledger.epoch), s.ledger.records, s.ledger.epoch, s.past.wire)
            && forall cause, handed | EndedBy(threshold, events) != Some(cause) ::
                 LostIn(s.ledger.records, s.ledger.epoch, s.past.wire, cause, handed) == {}
  {
    hide Reach, EndedBy, ShowsLosses, Snapshot, MarkedByWire, HasItem;
    var s := Reach(threshold, events);
    WireMarks(threshold, events);
    LossesShown(s.ledger.records, s.ledger.epoch, s.past.wire);
    AlwaysCharged(threshold, events);
    forall cause, handed | EndedBy(threshold, events) != Some(cause)
      ensures LostIn(s.ledger.records, s.ledger.epoch, s.past.wire, cause, handed) == {}
    {
    }
  }

  lemma {:induction false} OnlyTwoCauses(threshold: nat, events: seq<Event>)
    ensures EndedBy(threshold, events) != Some(QueuePressure) && EndedBy(threshold, events) != Some(SessionExpiry)
    decreases |events|
  {
    hide Reach;
    if events != [] {
      OnlyTwoCauses(threshold, events[..|events| - 1]);
    }
  }

  // ------------------------------------------------------------------
  // Waits and their causes
  // ------------------------------------------------------------------

  /** What a waiting sender is told, by the first event that ends waits. */
  ghost function WaitEnds(threshold: nat, events: seq<Event>): Option<Rejection>
    decreases |events|
  {
    if events == [] then None
    else
      var before, e := events[..|events| - 1], events[|events| - 1];
      var sofar := WaitEnds(threshold, before);
      if sofar.Some? then sofar
      else if Reach(threshold, before).admitting.None? && (e.RequestStop? || e.CancelWait?) then
        Some(CancelledWhileWaiting)
      else if Reach(threshold, events).life.closing then Some(NotReady) else None
  }

  lemma WaitStep(s: State, e: Event)
    requires Settled(s)
    ensures Step(s, e).life.wait
            == if s.life.wait.Some? then s.life.wait
               else if s.admitting.None? && (e.RequestStop? || e.CancelWait?) then Some(CancelledWhileWaiting)
               else if Step(s, e).life.closing then Some(NotReady) else None
  {
    hide Apply, Verdict, NeedsMutex, StrandStep;
    ClosingIsForever(s, e);
    if e.Strand? && Step(s, e) != s { WaitStrand(s, e.throws); }
  }

  lemma WaitStrand(s: State, throws: bool)
    requires s.life.closing ==> s.life.wait.Some?
    ensures var t := StrandStep(s, throws);
            t.life.wait == if s.life.wait.Some? then s.life.wait else if t.life.closing then Some(NotReady) else None
  {
    hide Apply, Bytes, Sizes, Ids, DecideEnqueue, GatherCount;
  }

  /** Every run: a stop or a cancelled wait says so, a loss or an asynchronous stop says not ready; the first counts. */
  lemma {:induction false} WaitsEndWithTheirCause(threshold: nat, events: seq<Event>)
    ensures Reach(threshold, events).life.wait == WaitEnds(threshold, events)
    decreases |events|
  {
    hide Step, Numbered, Settled, Linked, Handed, Sane;
    if events != [] {
      var before := events[..|events| - 1];
      WaitsEndWithTheirCause(threshold, before);
      LedgerMatchesSession(threshold, before);
      WaitStep(Reach(threshold, before), events[|events| - 1]);
    }
  }
}
