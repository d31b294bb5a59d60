/**
 TcpServerSession as an object: its fields, with the real ledger inside, changed
 by one method per atomic section of the source. Every method is the matching
 step of SessionModel, so whatever is proved of the model's runs holds of the
 object's.
 */
module Session {
  import opened Options
  import opened Octets
  import opened SendAccounting
  import opened SendHistory
  import opened Queues
  import opened SessionModel
  import SendLedger
  import SendPublished
  import SessionBytes
  import SessionOrder
  import SessionFates
  import SendSettling
  import SessionSettling

  class TcpServerSession {
    const bounds: Bounds
    const ledger: SendLedger.Ledger
    var alive: bool
    var closing: bool
    var cleanupDone: bool
    var waitEndedBy: Option<Rejection>
    var queueBytes: nat
    var pendingBytes: nat
    var inflightBytes: nat
    var backpressureActive: bool
    var tx: seq<Item>
    var pending: seq<Item>
    var batch: seq<Item>
    var writing: bool
    // The strand, the socket and the submission mutex.
    var posted: seq<Handler>
    var io: Option<nat>
    var admitting: Option<Item>
    var pc: Pc
    ghost var past: Past

    ghost predicate Valid()
      reads this, ledger
    {
      ledger.Valid() && (admitting.Some? ==> admitting.value.id == |ledger.View().records| + 1)
    }

    ghost function View(): State
      reads this, ledger
    {
      State(bounds, Life(alive, closing, cleanupDone, waitEndedBy), ledger.View(),
            Counters(queueBytes, pendingBytes, inflightBytes, backpressureActive),
            Lanes(tx, pending, batch, writing, io), posted, admitting, pc, past)
    }

    constructor (threshold: nat)
      ensures Valid() && fresh(ledger) && View() == Initial(threshold)
    {
      bounds := SessionBounds(threshold);
      ledger := new SendLedger.Ledger();
      alive, closing, cleanupDone, waitEndedBy := false, false, false, None;
      queueBytes, pendingBytes, inflightBytes, backpressureActive := 0, 0, 0, false;
      tx, pending, batch, writing := [], [], [], false;
      posted, io, admitting, pc := [], None, None, Pc.Idle;
      past := Past([], [], []);
    }

    // ---- callers -----------------------------------------------------

    /** write_* and try_write_* up to the reservation. */
    method Write(data: seq<Byte>, kind: Kind) returns (r: Option<Rejection>)
      requires Valid() && admitting.None?
      modifies this
      ensures Valid() && r == Verdict(old(View()), data, kind)
      ensures View() == Submit(old(View()), data, kind)
    {
      hide SendLedger.CountersAgree, SendLedger.RingHolds, SendLedger.SparseHolds, SendLedger.Shape;
      var n := |data|;
      if !alive || closing { return Some(NotReady); }
      if n == 0 { return Some(InvalidArgument); }
      if n > MAX_BUFFER_SIZE { return Some(TooLarge); }
      if kind == Plain {
        if !MayReserve(bounds, queueBytes, pendingBytes, inflightBytes, n) { return Some(WouldBlock); }
        inflightBytes := inflightBytes + n;
      } else {
        if !MayTry(bounds, queueBytes, pendingBytes, inflightBytes, backpressureActive, n) { return Some(WouldBlock); }
        queueBytes := queueBytes + n;
      }
      admitting := Some(Item(ledger.nextId + 1, data, kind));
      return None;
    }

    /** ... and the rest of it: the ledger entry, the post, the commit. */
    method Post()
      requires Valid() && admitting.Some?
      modifies this, ledger
      ensures Valid() && View() == SessionModel.Post(old(View()))
    {
      hide SendLedger.Ledger.Valid, SendLedger.Ledger.View;
      hide Apply;
      var item := admitting.value;
      var _ := ledger.Admit(|item.data|, None);
      posted := posted + [if item.kind == Plain then RouteWrite(item) else RouteTry(item)];
      past := past.(accepted := past.accepted + [item]);
      admitting := None;
    }

    /** ... or an exception between the reservation and the post: ~Admission, and nothing else. */
    method AbandonAdmission(entered: bool)
      requires Valid() && admitting.Some?
      modifies this, ledger
      ensures Valid() && View() == Abandon(old(View()), entered)
    {
      hide SendLedger.Ledger.Valid, SendLedger.Ledger.View, Apply;
      var item := admitting.value;
      if entered {
        var _ := ledger.Admit(|item.data|, None);
        ledger.Rollback(item.id);
      }
      past := past.(failed := past.failed + [item]);
      admitting := None;
    }

    /** The section every stop and loss runs under the submission mutex. */
    method Terminate(cause: Cause, r: Rejection)
      requires Valid()
      modifies this`closing, this`waitEndedBy, ledger
      ensures Valid() && View() == SessionModel.Terminate(old(View()), cause, r)
      ensures ledger.epoch == old(ledger.epoch) && ledger.totals.written == old(ledger.totals.written)
      ensures ledger.totals.confirmedWrittenBytes == old(ledger.totals.confirmedWrittenBytes)
    {
      hide SendLedger.Ledger.Valid, SendLedger.Ledger.View, SendPublished.Count;
      hide Apply;
      SessionFates.ApplyLength(ledger.View(), End(cause));
      ledger.End(cause);
      closing := true;
      if waitEndedBy.None? { waitEndedBy := Some(r); }
    }

    method AsyncStop()
      requires Valid()
      modifies this, ledger
      ensures Valid() && View() == StopAsync(old(View()))
    {
      hide SendLedger.Ledger.Valid, SendLedger.Ledger.View;
      hide Apply, SessionModel.Terminate;
      Terminate(ExplicitStop, NotReady);
      posted := posted + [Cleanup];
    }

    method CancelWriteWait()
      requires Valid()
      modifies this`waitEndedBy
      ensures Valid() && View() == old(View()).(life := EndWait(old(View()).life, CancelledWhileWaiting))
    {
      hide SendLedger.Ledger.Valid, SendLedger.Ledger.View;
      if waitEndedBy.None? { waitEndedBy := Some(CancelledWhileWaiting); }
    }

    method ResetStats()
      requires Valid()
      modifies ledger
      ensures Valid() && View() == old(View()).(ledger := Apply(old(View()).ledger, Reset))
    {
      hide SendLedger.Ledger.Valid, SendLedger.Ledger.View;
      hide Apply;
      SessionFates.ApplyLength(ledger.View(), Reset);
      ledger.Reset();
    }

    // ---- the strand --------------------------------------------------

    /** The next posted handler. */
    method RunHandler()
      requires Valid() && pc.Idle? && posted != []
      modifies this, ledger
      ensures Valid() && View() == StepIdle(old(View()))
    {
      hide SendLedger.Ledger.Valid, SendLedger.Ledger.View;
      hide Apply, SessionModel.Terminate;
      var h := posted[0];
      posted := posted[1..];
      match h
      case RouteWrite(item) =>
        if !alive || closing {
          inflightBytes := Release(inflightBytes, |item.data|);
        } else {
          pc := Routing(item);
        }
      case RouteTry(item) =>
        if !alive || closing {
          queueBytes := Release(queueBytes, |item.data|);
        } else {
          tx := tx + [item];
          pc := Reporting(0, AfterRoute);
        }
      case WriteDone(total, n, failed) => CompleteWrite(total, n, failed);
      case Cleanup => pc := Closing(Done);
    }

    /** The completion handler of a gather write. */
    method CompleteWrite(total: nat, n: nat, failed: bool)
      requires Valid()
      modifies this, ledger
      ensures Valid() && View() == RunDone(old(View()), total, n, failed)
      ensures old(alive && !closing) && SendPublished.OwnSizes(old(ledger.log), Sizes(old(batch))) ==>
                var confirmed := if n < total then n else total;
                && ledger.totals.written
                   == Plus(old(ledger.totals.written),
                           SendPublished.WrittenIn(old(ledger.log), Sizes(old(batch)), confirmed, ledger.epoch, None))
                && ledger.totals.confirmedWrittenBytes
                   == old(ledger.totals.confirmedWrittenBytes)
                      + SendPublished.ConfirmedIn(old(ledger.log), Sizes(old(batch)), confirmed, ledger.epoch, None)
    {
      hide SendLedger.Ledger.Valid, SendLedger.Ledger.View;
      hide Apply, SessionModel.Terminate;
      hide SendPublished.OwnSizes, SendPublished.WrittenIn, SendPublished.ShortIn, SendPublished.ConfirmedIn;
      if closing || !alive {
        batch := [];
        return;
      }
      var confirmed := if n < total then n else total;
      SessionFates.ApplyLength(ledger.View(), CompleteBatch(Sizes(batch), confirmed));
      ledger.CompleteBatch(Sizes(batch), confirmed);
      batch := [];
      if failed || n != total {
        Terminate(ConnectionLoss, NotReady);
        pc := Closing(Done);
      } else {
        pc := Finishing(total);
      }
    }

    method RouteEnqueuedBuffer()
      requires Valid() && pc.Routing?
      modifies this, ledger
      ensures Valid() && View() == StepRouting(old(View()))
    {
      hide SendLedger.Ledger.Valid, SendLedger.Ledger.View;
      hide Apply;
      var item, added := pc.item, |pc.item.data|;
      var decision := DecideEnqueue(bounds, queueBytes, pendingBytes, backpressureActive, added);
      match decision
      case Rejected =>
        inflightBytes := Release(inflightBytes, added);
        SessionFates.ApplyLength(ledger.View(), Discard(item.id, QueuePressure));
        ledger.Discard(item.id, QueuePressure);
        pc := Reporting(added, Done);
      case Pending =>
        Commit(item, true);
        pc := Pc.Idle;
      case Immediate =>
        Commit(item, false);
        pc := Reporting(0, AfterRoute);
    }

    /** commit_reserved_limit_bytes into the pending or the send queue, and the buffer with it. */
    method Commit(item: Item, wait: bool)
      modifies this`inflightBytes, this`queueBytes, this`pendingBytes, this`tx, this`pending
      ensures inflightBytes == Release(old(inflightBytes), |item.data|)
      ensures pending == old(pending) + (if wait then [item] else [])
      ensures tx == old(tx) + (if wait then [] else [item])
      ensures pendingBytes == old(pendingBytes) + (if wait then |item.data| else 0)
      ensures queueBytes == old(queueBytes) + (if wait then 0 else |item.data|)
    {
      inflightBytes := Release(inflightBytes, |item.data|);
      if wait {
        pendingBytes := pendingBytes + |item.data|;
        pending := pending + [item];
      } else {
        queueBytes := queueBytes + |item.data|;
        tx := tx + [item];
      }
    }

    method ReleaseWritten()
      requires Valid() && pc.Finishing?
      modifies this
      ensures Valid() && View() == StepFinishing(old(View()))
    {
      hide SendLedger.Ledger.Valid, SendLedger.Ledger.View;
      queueBytes := Release(queueBytes, pc.total);
      pc := Reporting(0, AfterCompletion);
    }

    /** report_backpressure up to its first callback, with the loop that flushes pending into tx. */
    method ReportBackpressure()
      requires Valid() && pc.Reporting?
      modifies this
      ensures Valid() && View() == StepReporting(old(View()))
    {
      hide SendLedger.Ledger.Valid, SendLedger.Ledger.View;
      hide SendLedger.CountersAgree, SendLedger.RingHolds, SendLedger.SparseHolds, SendLedger.Shape;
      var queued, k := queueBytes + pc.extra, pc.k;
      if closing || !alive {
        pc := Resuming(k);
        return;
      }
      if !backpressureActive && queued >= bounds.high {
        backpressureActive := true;
        pc := Resuming(k);
        return;
      }
      if backpressureActive && queued <= bounds.low {
        FlushPending();
        backpressureActive := false;
        pc := Rearming(k);
        return;
      }
      pc := Resuming(k);
    }

    /** Under the reservation lock: every pending buffer moves behind tx, with its bytes. */
    method FlushPending()
      modifies this`tx, this`pending, this`queueBytes, this`pendingBytes
      ensures tx == old(tx + pending) && pending == []
      ensures queueBytes == old(queueBytes + pendingBytes) && pendingBytes == 0
    {
      var moved := pendingBytes;
      pendingBytes := 0;
      while pending != []
        invariant tx + pending == old(tx + pending)
        invariant queueBytes == old(queueBytes) && pendingBytes == 0
        decreases |pending|
      {
        assert tx + pending == (tx + [pending[0]]) + pending[1..];
        tx := tx + [pending[0]];
        pending := pending[1..];
      }
      queueBytes := queueBytes + moved;
    }

    method Rearm()
      requires Valid() && pc.Rearming?
      modifies this
      ensures Valid() && View() == StepRearming(old(View()))
    {
      hide SendLedger.Ledger.Valid, SendLedger.Ledger.View;
      if queueBytes >= bounds.high { backpressureActive := true; }
      pc := Kicking(pc.k);
    }

    /** do_write up to the unlock before initiation. */
    method BeginWrite(k: Then)
      requires Valid()
      modifies this, ledger
      ensures Valid() && View() == DoWrite(old(View()), k)
      ensures pc.Initiating? ==> Gathered(old(tx), batch, tx) && pc.total == Bytes(batch)
    {
      hide SendLedger.Ledger.Valid, SendLedger.Ledger.View;
      hide Apply, Bytes, GatherFrom, Gathered;
      if closing || !alive || tx == [] || writing {
        pc := Resuming(k);
        return;
      }
      var total := TakeBatch();
      SessionFates.ApplyLength(ledger.View(), BeginBatch(Ids(batch)));
      var _ := ledger.BeginBatch(Ids(batch));
      past := past.(wire := past.wire + batch);
      pc := Initiating(total, k);
    }

    method TakeBatch() returns (total: nat)
      modifies this`writing, this`batch, this`tx
      ensures writing && batch == old(tx[..GatherCount(tx)]) && tx == old(tx[GatherCount(tx)..])
      ensures Gathered(old(tx), batch, tx) && total == Bytes(batch)
    {
      writing := true;
      batch, tx, total := TakeGatherBatch(tx);
    }

    method KickWrite()
      requires Valid() && pc.Kicking?
      modifies this, ledger
      ensures Valid() && View() == StepKicking(old(View()))
    {
      hide SendLedger.Ledger.Valid, SendLedger.Ledger.View;
      hide Apply, DoWrite;
      if writing { pc := Resuming(pc.k); } else { BeginWrite(pc.k); }
    }

    /** What follows report_backpressure in the handler that called it. */
    method Resume()
      requires Valid() && pc.Resuming?
      modifies this, ledger
      ensures Valid() && View() == StepResuming(old(View()))
    {
      hide SendLedger.Ledger.Valid, SendLedger.Ledger.View;
      hide Apply, DoWrite;
      match pc.k
      case Done => pc := Pc.Idle;
      case AfterRoute => if writing { pc := Pc.Idle; } else { BeginWrite(Done); }
      case AfterCompletion =>
        writing := false;
        BeginWrite(Done);
    }

    /** async_write, which may throw. */
    method Initiate(throws: bool)
      requires Valid() && pc.Initiating?
      modifies this, ledger
      ensures Valid() && View() == StepInitiating(old(View()), throws)
    {
      hide SendLedger.Ledger.Valid, SendLedger.Ledger.View;
      hide Apply, SessionModel.Terminate;
      var total, k := pc.total, pc.k;
      if throws {
        Terminate(ConnectionLoss, NotReady);
        pc := Closing(k);
      } else {
        io := Some(total);
        pc := Resuming(k);
      }
    }

    /** do_close up to its unlock. */
    method DoClose()
      requires Valid() && pc.Closing?
      modifies this, ledger
      ensures Valid() && View() == StepClosing(old(View()))
    {
      hide SendLedger.Ledger.Valid, SendLedger.Ledger.View;
      hide Apply;
      var k := pc.k;
      if cleanupDone {
        pc := Resuming(k);
        return;
      }
      cleanupDone := true;
      Terminate(ConnectionLoss, NotReady);
      alive := false;
      pc := Draining(k);
    }

    /** drain_and_clear_backpressure. */
    method Drain()
      requires Valid() && pc.Draining?
      modifies this`tx, this`pending, this`queueBytes, this`pendingBytes, this`backpressureActive, this`pc
      ensures Valid() && View() == StepDraining(old(View()))
    {
      hide SendLedger.Ledger.Valid, SendLedger.Ledger.View;
      ClearQueues();
      backpressureActive := false;
      pc := Resuming(pc.k);
    }

    method ClearQueues()
      modifies this`tx, this`pending, this`queueBytes, this`pendingBytes
      ensures tx == [] && pending == [] && queueBytes == pendingBytes == 0
    {
      tx, queueBytes := [], 0;
      pending, pendingBytes := [], 0;
    }

    // ---- events ------------------------------------------------------

    method RunStrand(throws: bool)
      requires Valid()
      modifies this, ledger
      ensures Valid() && View() == StrandStep(old(View()), throws)
    {
      hide SendLedger.Ledger.Valid, SendLedger.Ledger.View;
      hide Apply, StepIdle, StepRouting, StepFinishing, StepReporting, StepRearming, StepKicking, StepResuming,
        StepInitiating, StepClosing, StepDraining;
      match pc
      case Idle =>
        NothingPosted(View());
        if posted != [] { RunHandler(); }
      case Routing(_) => RouteEnqueuedBuffer();
      case Finishing(_) => ReleaseWritten();
      case Reporting(_, _) => ReportBackpressure();
      case Rearming(_) => Rearm();
      case Kicking(_) => KickWrite();
      case Resuming(_) => Resume();
      case Initiating(_, _) => Initiate(throws);
      case Closing(_) => DoClose();
      case Draining(_) => Drain();
    }

    /** Whether the strand's next section takes the submission mutex. */
    predicate TakesMutex(throws: bool)
      reads this, ledger
      ensures TakesMutex(throws) == NeedsMutex(View(), throws)
    {
      match pc
      case Idle => posted != [] && posted[0].WriteDone?
      case Kicking(_) => !writing
      case Resuming(k) => k.AfterCompletion? || (k.AfterRoute? && !writing)
      case Initiating(_, _) => throws
      case Closing(_) => !cleanupDone
      case _ => false
    }

    lemma NothingPosted(s: State)
      ensures s.posted == [] ==> StepIdle(s) == s
    {
    }

    /** One event; what takes the submission mutex waits while a caller holds it. */
    method Handle(e: Event)
      requires Valid()
      modifies this, ledger
      ensures Valid() && View() == SessionModel.Step(old(View()), e)
    {
      hide SendLedger.Ledger.Valid, SendLedger.Ledger.View;
      hide Apply, StrandStep, Submit, SessionModel.Post, Abandon, SessionModel.Terminate, StopAsync;
      match e
      case Start => alive := true;
      case Admitted => if admitting.Some? { Post(); }
      case AdmissionThrows(entered) => if admitting.Some? { AbandonAdmission(entered); }
      case IoDone(n, error) =>
        if io.Some? {
          posted := posted + [WriteDone(io.value, n, error)];
          io := None;
        }
      case Lost => if pc.Idle? && !closing && alive { pc := Closing(Done); }
      case Strand(throws) => if admitting.None? || !TakesMutex(throws) { RunStrand(throws); }
      case Write(data, kind) => if admitting.None? { var _ := Write(data, kind); }
      case RequestStop => if admitting.None? { Terminate(ExplicitStop, CancelledWhileWaiting); }
      case AsyncStop => if admitting.None? { AsyncStop(); }
      case CancelWait => if admitting.None? { CancelWriteWait(); }
      case ResetStats => if admitting.None? { ResetStats(); }
    }

    // ---- what every run keeps ----------------------------------------

    /** The counters stay within the limit and are exact, failed admissions counted. */
    ghost predicate CountersExact()
      reads this
    {
      && queueBytes + pendingBytes + inflightBytes <= bounds.limit
      && pendingBytes == Bytes(pending)
      && inflightBytes == SessionBytes.PostedBytes(posted, Plain) + SessionBytes.HeldBytes(pc)
                          + SessionBytes.AdmittingBytes(admitting, Plain) + SessionBytes.Leaked(past.failed, Plain)
      && (!closing ==>
            queueBytes == Bytes(tx) + Bytes(batch) + SessionBytes.PostedBytes(posted, Try)
              + SessionBytes.UnreleasedBytes(pc)
                          + SessionBytes.AdmittingBytes(admitting, Try) + SessionBytes.Leaked(past.failed, Try))
    }

    /** With nothing due and a bearable leak, nothing is queued and backpressure is off. */
    ghost predicate NothingStranded()
      reads this
    {
      alive && !closing && pc.Idle? && posted == [] && io.None? && admitting.None?
      && SessionBytes.Bearable(bounds, SessionBytes.Leaked(past.failed, Try)) ==>
        && tx == [] && pending == [] && batch == [] && !backpressureActive
        && queueBytes == SessionBytes.Leaked(past.failed, Try) && pendingBytes == 0
        && inflightBytes == SessionBytes.Leaked(past.failed, Plain)
    }

    /** Each kind of write reaches the wire in acceptance order, and until closing the rest is queued in that order. */
    ghost predicate InOrder(kind: Kind)
      reads this
    {
      && OfKind(past.wire, kind) <= OfKind(past.accepted, kind)
      && (!closing ==>
            OfKind(past.wire, kind) + OfKind(tx + pending + SessionOrder.Held(pc) + SessionOrder.Queued(posted), kind)
            == OfKind(past.accepted, kind))
    }

    /**
     Every accepted write has its request; what crossed to I/O never counts as
     discarded; closing leaves nothing open.
     */
    ghost predicate FatesSettled()
      reads this, ledger
    {
      && (forall i | 0 <= i < |past.accepted| :: SessionFates.Tracked(ledger.log, past.accepted[i]))
      && SessionFates.Handed(ledger.log, past.wire)
      && (closing ==> waitEndedBy.Some? && forall i | 0 <= i < |ledger.log| :: !Live(ledger.log[i]))
    }

    /** Each completed write settled its batch along the confirmed prefix, and the totals say exactly that. */
    ghost predicate WritesSettled(threshold: nat, events: seq<Event>)
      reads this, ledger
    {
      && SessionSettling.CompletionsStand(threshold, events, ledger.log)
      && ledger.totals.written == SessionSettling.WrittenAlong(threshold, events, ledger.epoch)
      && ledger.totals.confirmedWrittenBytes == SessionSettling.ConfirmedAlong(threshold, events, ledger.epoch)
    }

    /** The losses are charged to what closed the session, and the wait ended for what ended it. */
    ghost predicate LossesCharged(threshold: nat, events: seq<Event>)
      reads this, ledger
    {
      && SendSettling.ShowsLosses(ledger.totals, ledger.log, ledger.epoch, past.wire)
      && (forall cause, handed | SessionSettling.EndedBy(threshold, events) != Some(cause) ::
            SendSettling.LostIn(ledger.log, ledger.epoch, past.wire, cause, handed) == {})
      && waitEndedBy == SessionSettling.WaitEnds(threshold, events)
    }

    lemma SettlingHolds(threshold: nat, events: seq<Event>)
      requires ledger.Valid() && View() == Reach(threshold, events)
      ensures WritesSettled(threshold, events) && LossesCharged(threshold, events)
    {
      hide Reach, SendLedger.RingHolds, SendLedger.SparseHolds, SendLedger.Shape, Snapshot;
      hide SessionSettling.CompletionsStand, SessionSettling.WrittenAlong, SessionSettling.ConfirmedAlong;
      hide SendSettling.ShowsLosses, SessionSettling.EndedBy, SendSettling.LostIn, SessionSettling.WaitEnds;
      SessionSettling.CompletionsAreFinal(threshold, events);
      SessionSettling.WrittenIsWhatCompleted(threshold, events, ledger.epoch);
      SessionSettling.LossesAreCharged(threshold, events);
      SessionSettling.WaitsEndWithTheirCause(threshold, events);
    }

    lemma CountersHold(threshold: nat, events: seq<Event>)
      requires View() == Reach(threshold, events)
      ensures CountersExact() && NothingStranded()
    {
      hide Reach, SessionBytes.Moving, SessionBytes.Leaked, SessionBytes.PostedBytes, SessionBytes.Bearable;
      SessionBytes.BytesStayExact(threshold, events);
      if SessionBytes.AtRest(View()) && SessionBytes.Bearable(bounds, SessionBytes.Leaked(past.failed, Try)) {
        SessionBytes.RestIsDrained(threshold, events);
      }
    }

    lemma OrderHolds(threshold: nat, events: seq<Event>, kind: Kind)
      requires View() == Reach(threshold, events)
      ensures InOrder(kind)
    {
      hide Reach, OfKind, SessionOrder.Sorted, SessionOrder.Queued;
      SessionOrder.WireFollowsAcceptance(threshold, events, kind);
    }

    lemma FatesHold(threshold: nat, events: seq<Event>)
      requires View() == Reach(threshold, events)
      ensures FatesSettled()
    {
      hide Reach, SessionFates.Linked, SessionFates.Handed, SessionFates.Tracked, Sane, Live;
      SessionFates.LedgerMatchesSession(threshold, events);
    }
  }

  /** Every run of the object is the model's run. */
  method RunEvents(threshold: nat, events: seq<Event>) returns (s: TcpServerSession)
    ensures s.Valid() && s.View() == Reach(threshold, events)
  {
    s := new TcpServerSession(threshold);
    var k := 0;
    assert events[..0] == [];
    while k < |events|
      invariant 0 <= k <= |events| && fresh(s) && fresh(s.ledger)
      invariant s.Valid() && s.View() == Reach(threshold, events[..k])
    {
      hide Step, SendLedger.Ledger.Valid;
      assert events[..k + 1][..k] == events[..k] && events[..k + 1][k] == events[k];
      s.Handle(events[k]);
      k := k + 1;
    }
    assert events[..k] == events;
  }

  /**
   From a fresh session, any events in any order leave the object, ring ledger and
   all, with exact counters, nothing stranded, each kind of write in order, fates
   settled, completed writes settled along their prefixes, losses and waits charged to
   their causes, and published totals that are the tally of the log and conserve.
   */
  method Replay(threshold: nat, events: seq<Event>) returns (s: TcpServerSession)
    ensures s.Valid() && s.View() == Reach(threshold, events)
    ensures s.CountersExact() && s.NothingStranded() && s.InOrder(Plain) && s.InOrder(Try) && s.FatesSettled()
    ensures s.WritesSettled(threshold, events) && s.LossesCharged(threshold, events)
    ensures s.ledger.totals == Snapshot(s.ledger.log, s.ledger.epoch, None)
    ensures Conserved(s.ledger.totals) && ConfirmedWithinWire(s.ledger.totals)
  {
    hide TcpServerSession.CountersExact, TcpServerSession.NothingStranded, TcpServerSession.InOrder,
      TcpServerSession.FatesSettled, TcpServerSession.WritesSettled, TcpServerSession.LossesCharged;
    hide Reach, Conserved, ConfirmedWithinWire, SendLedger.RingHolds, SendLedger.SparseHolds, SendLedger.Shape;
    s := RunEvents(threshold, events);
    s.CountersHold(threshold, events);
    s.OrderHolds(threshold, events, Plain);
    s.OrderHolds(threshold, events, Try);
    s.FatesHold(threshold, events);
    s.SettlingHolds(threshold, events);
    SessionFates.SessionStatsConserve(threshold, events);
  }
}
