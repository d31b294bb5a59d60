/**
 TcpClient::Impl as an object: its fields, grouped as the model groups them, with
 the real ledger inside, changed by one method per atomic section of the source.
 Every method is the matching step of ClientModel, so what is proved of the
 model's runs holds of the object's.
 */
module Client {
  import opened Options
  import opened Octets
  import opened SendAccounting
  import opened SendHistory
  import opened Queues
  import opened ClientModel
  import SendLedger
  import SessionFates
  import ClientPinning
  import ClientSockets
  import ClientBytes
  import ClientOrder
  import SendSettling
  import ClientSettling
  import ClientFlow
  import ClientReconnect

  class TcpClient {
    const bounds: Bounds
    const ledger: SendLedger.Ledger
    var seqs: Seqs
    var life: Life
    var net: Net
    var bytes: Counters
    var lanes: Lanes
    // The socket's outstanding writes, the strand, and the submission mutex.
    var flights: seq<Flight>
    var posted: seq<Handler>
    var admitting: Option<Admission>
    var pc: Pc
    ghost var past: Past

    ghost predicate Valid()
      reads this, ledger
    {
      ledger.Valid() && (admitting.Some? ==> admitting.value.item.id == |ledger.View().records| + 1)
    }

    ghost function View(): State
      reads this, ledger
    {
      State(bounds, seqs, life, net, ledger.View(), bytes, lanes, flights, posted, admitting, pc, past)
    }

    constructor (threshold: nat)
      ensures Valid() && fresh(ledger) && View() == Initial(threshold)
    {
      bounds := ClientBounds(threshold);
      ledger := new SendLedger.Ledger();
      seqs := Seqs(0, 0, 0, 0, 0, 0);
      life := Life(false, false, false, Unstarted, false);
      net, bytes, lanes := Net([], [], false), Counters(0, 0, 0, false), Lanes([], [], None, false);
      flights, posted, admitting, pc := [], [], None, Ready;
      past := Past([], [], [], []);
    }

    // ---- callers -----------------------------------------------------

    /** write_* and try_write_* up to the reservation. */
    method Write(data: seq<Byte>, kind: Kind, expected: Option<nat>) returns (accepted: bool)
      requires Valid() && admitting.None?
      modifies this
      ensures Valid() && accepted == Accepts(old(View()), data, kind, expected)
      ensures View() == if accepted then Reserve(old(View()), data, kind) else old(View())
    {
      hide SendLedger.CountersAgree, SendLedger.RingHolds, SendLedger.SparseHolds, SendLedger.Shape;
      var n, c := |data|, bytes;
      if life.stopping || seqs.current == 0 { return false; }
      if expected.Some? && expected.value != seqs.conn { return false; }
      if Terminal(life.link) || !life.connected { return false; }
      if n == 0 || n > MAX_BUFFER_SIZE { return false; }
      if kind == Plain {
        if !MayReserve(bounds, c.queue, c.pending, c.inflight, n) { return false; }
        bytes := c.(inflight := c.inflight + n);
      } else {
        if !MayTry(bounds, c.queue, c.pending, c.inflight, c.active, n) { return false; }
        bytes := c.(queue := c.queue + n);
      }
      admitting := Some(Admission(Item(ledger.nextId + 1, data, kind), seqs.current, seqs.conn, seqs.socket));
      return true;
    }

    /** ... and the ledger entry, the post and the commit. */
    method Post()
      requires Valid() && admitting.Some?
      modifies this, ledger
      ensures Valid() && View() == ClientModel.Post(old(View()))
    {
      hide SendLedger.Ledger.Valid, SendLedger.Ledger.View, Apply;
      var a := admitting.value;
      var _ := ledger.Admit(|a.item.data|, None);
      posted := posted + [if a.item.kind == Plain then RouteWrite(a) else RouteTry(a)];
      past := past.(admitted := past.admitted + [a], accepted := past.accepted + [a]);
      admitting := None;
    }

    /** ... or an exception between the reservation and the post. */
    method AbandonAdmission(entered: bool)
      requires Valid() && admitting.Some?
      modifies this, ledger
      ensures Valid() && View() == Abandon(old(View()), entered)
    {
      hide SendLedger.Ledger.Valid, SendLedger.Ledger.View, Apply;
      var a := admitting.value;
      past := past.(failed := past.failed + [a]);
      if entered {
        var _ := ledger.Admit(|a.item.data|, None);
        ledger.Rollback(a.item.id);
        past := past.(admitted := past.admitted + [a]);
      }
      admitting := None;
    }

    /** mark_disconnected_locked. */
    method MarkDisconnected()
      requires Valid()
      modifies this`life, this`seqs, ledger
      ensures Valid() && View() == Disconnect(old(View()))
    {
      hide SendLedger.Ledger.Valid, SendLedger.Ledger.View, Apply;
      if !life.connected { return; }
      SessionFates.ApplyLength(ledger.View(), End(ConnectionLoss));
      life := life.(connected := false);
      ledger.End(ConnectionLoss);
      seqs := seqs.(conn := seqs.conn + 1);
    }

    method DisconnectThen(next: Pc)
      requires Valid()
      modifies this`life, this`seqs, this`pc, ledger
      ensures Valid() && View() == Disconnect(old(View())).(pc := next)
    {
      hide SendLedger.Ledger.Valid, SendLedger.Ledger.View, Disconnect;
      MarkDisconnected();
      pc := next;
    }

    /** transition_to. */
    method TransitionTo(next: Link)
      modifies this`life
      ensures life == Transition(old(life), next)
    {
      if Terminal(next) {
        if Terminal(life.link) || life.notified { return; }
        life := life.(notified := true);
      }
      life := life.(link := next);
    }

    /** stop(). */
    method Stop()
      requires Valid()
      modifies this, ledger
      ensures Valid() && View() == RequestStop(old(View()))
    {
      hide SendLedger.Ledger.Valid, SendLedger.Ledger.View, Apply, ClientModel.StartCleanup, ClientModel.FinishCleanup;
      if life.stopping { return; }
      SessionFates.ApplyLength(ledger.View(), End(ExplicitStop));
      life := life.(stopping := true);
      ledger.End(ExplicitStop);
      seqs := seqs.(stopped := seqs.current);
      if seqs.current == 0 {
        StartCleanup();
        FinishCleanup();
      } else {
        posted := posted + [StopCleanup];
      }
    }

    /** start(): reset_start_state and the dispatch. */
    method Start()
      requires Valid()
      modifies this, ledger
      ensures Valid() && View() == RequestStart(old(View()))
    {
      hide SendLedger.Ledger.Valid, SendLedger.Ledger.View, Apply, Disconnect;
      if life.link.Connecting? || life.link.Connected? || !Interruptible(pc) { return; }
      var run := seqs.lifecycle + 1;
      seqs := seqs.(lifecycle := run, current := run);
      life := life.(stopping := false, cleaning := false, notified := false);
      MarkDisconnected();
      lanes := lanes.(pending := [], writing := false);
      bytes := Counters(0, 0, 0, false);
      life := life.(link := Unstarted);
      net := net.(pending := false);
      posted := posted + [StartRun(run)];
    }

    method ResetStats()
      requires Valid()
      modifies ledger
      ensures Valid() && View() == old(View()).(ledger := Apply(old(View()).ledger, Reset))
    {
      hide SendLedger.Ledger.Valid, SendLedger.Ledger.View, Apply;
      SessionFates.ApplyLength(ledger.View(), Reset);
      ledger.Reset();
    }

    // ---- the strand: writes ------------------------------------------

    /** The next posted handler. */
    method RunHandler()
      requires Valid() && posted != []
      modifies this, ledger
      ensures Valid() && View() == ClientModel.RunHandler(old(View()))
    {
      hide SendLedger.Ledger.Valid, SendLedger.Ledger.View, ClientModel.StartCleanup, Apply;
      var h := posted[0];
      posted := posted[1..];
      match h
      case RouteWrite(a) =>
        if a.run != seqs.current { return; }
        if a.conn != seqs.conn {
          bytes := bytes.(inflight := Release(bytes.inflight, |a.item.data|));
        } else {
          pc := Routing(a.item);
        }
      case RouteTry(a) =>
        if a.run != seqs.current || a.conn != seqs.conn { return; }
        if life.stopping || Terminal(life.link) {
          bytes := bytes.(queue := Release(bytes.queue, |a.item.data|));
        } else {
          lanes := lanes.(tx := lanes.tx + [a.item]);
          pc := Reporting(0, AfterRoute);
        }
      case StartRun(run) => if run > seqs.stopped { pc := Starting(run); }
      case KickWrite(run, conn) =>
        if run == seqs.current && conn == seqs.conn && !lanes.writing { pc := Writing(Done); }
      case StopCleanup => if !life.cleaning { StartCleanup(); }
    }

    method RouteEnqueuedBuffer()
      requires Valid() && pc.Routing?
      modifies this, ledger
      ensures Valid() && View() == StepRouting(old(View()))
    {
      hide SendLedger.Ledger.Valid, SendLedger.Ledger.View, Apply;
      var item, added := pc.item, |pc.item.data|;
      var decision := DecideEnqueue(bounds, bytes.queue, bytes.pending, bytes.active, added);
      bytes := bytes.(inflight := Release(bytes.inflight, added));
      if life.stopping || Terminal(life.link) {
        pc := Ready;
        return;
      }
      match decision
      case Rejected =>
        SessionFates.ApplyLength(ledger.View(), Discard(item.id, QueuePressure));
        ledger.Discard(item.id, QueuePressure);
        pc := Reporting(added, Done);
      case Pending =>
        bytes := bytes.(pending := bytes.pending + added);
        lanes := lanes.(pending := lanes.pending + [item]);
        pc := Ready;
      case Immediate =>
        bytes := bytes.(queue := bytes.queue + added);
        lanes := lanes.(tx := lanes.tx + [item]);
        pc := Reporting(0, AfterRoute);
    }

    method ReportBackpressure()
      requires Valid() && pc.Reporting?
      modifies this`bytes, this`lanes, this`pc
      ensures Valid() && View() == StepReporting(old(View()))
    {
      hide SendLedger.Ledger.Valid, SendLedger.Ledger.View;
      var queued, k := bytes.queue + pc.extra, pc.k;
      pc := Resuming(k);
      if life.stopping { return; }
      if !bytes.active && queued >= bounds.high {
        bytes := bytes.(active := true);
        return;
      }
      if bytes.active && queued <= bounds.low {
        FlushPending();
        bytes := bytes.(queue := bytes.queue + bytes.pending, pending := 0, active := false);
        pc := Rearming(k);
      }
    }

    method FlushPending()
      modifies this`lanes
      ensures lanes == old(lanes).(tx := old(lanes.tx + lanes.pending), pending := [])
    {
      while lanes.pending != []
        invariant lanes.tx + lanes.pending == old(lanes.tx + lanes.pending)
        invariant lanes.active == old(lanes.active) && lanes.writing == old(lanes.writing)
        decreases |lanes.pending|
      {
        assert lanes.tx + lanes.pending == (lanes.tx + [lanes.pending[0]]) + lanes.pending[1..];
        lanes := lanes.(tx := lanes.tx + [lanes.pending[0]], pending := lanes.pending[1..]);
      }
    }

    method Rearm()
      requires Valid() && pc.Rearming?
      modifies this`bytes, this`pc
      ensures Valid() && View() == StepRearming(old(View()))
    {
      hide SendLedger.Ledger.Valid, SendLedger.Ledger.View;
      if bytes.queue >= bounds.high { bytes := bytes.(active := true); }
      pc := Kicking(pc.k);
    }

    method Resume()
      requires Valid() && pc.Resuming?
      modifies this`lanes, this`pc
      ensures Valid() && View() == StepResuming(old(View()))
    {
      hide SendLedger.Ledger.Valid, SendLedger.Ledger.View;
      match pc.k
      case Done => pc := Ready;
      case AfterRoute => pc := if lanes.writing then Ready else Writing(Done);
      case AfterCompletion =>
        if life.stopping || Terminal(life.link) {
          lanes := lanes.(writing := false);
          pc := Ready;
        } else {
          pc := Writing(Done);
        }
      case AfterAbort =>
        lanes := lanes.(writing := false);
        pc := Ready;
    }

    /** do_write up to taking the batch. */
    method DoWrite()
      requires Valid() && pc.Writing?
      modifies this`lanes, this`bytes, this`pc
      ensures Valid() && View() == StepWriting(old(View()))
      ensures pc.Beginning? ==> Gathered(old(lanes.tx), pc.batch, lanes.tx)
    {
      hide SendLedger.Ledger.Valid, SendLedger.Ledger.View, Bytes, GatherFrom, Gathered;
      var k := pc.k;
      pc := Resuming(k);
      if life.stopping {
        ClearQueues();
      } else if !life.connected || lanes.tx == [] || Terminal(life.link) {
        lanes := lanes.(writing := false);
      } else {
        var batch, rest, _ := TakeGatherBatch(lanes.tx);
        lanes := lanes.(tx := rest, writing := true);
        pc := Beginning(batch, k);
      }
    }

    method ClearQueues()
      modifies this`lanes, this`bytes
      ensures lanes == old(lanes).(tx := [], pending := [], writing := false)
      ensures bytes == old(bytes).(queue := 0, pending := 0)
    {
      lanes := lanes.(tx := [], pending := [], writing := false);
      bytes := bytes.(queue := 0, pending := 0);
    }

    /** begin_batch, and return_gather_batch when the ledger refuses. */
    method BeginWrite()
      requires Valid() && pc.Beginning?
      modifies this, ledger
      ensures Valid() && View() == StepBeginning(old(View()))
    {
      hide SendLedger.Ledger.Valid, Apply, CanBegin;
      var batch, k := pc.batch, pc.k;
      var begun := false;
      if !life.stopping {
        SessionFates.ApplyLength(ledger.View(), BeginBatch(Ids(batch)));
        BeginRefused(ledger.View(), Ids(batch));
        begun := ledger.BeginBatch(Ids(batch));
      }
      if begun {
        lanes := lanes.(active := Some(batch));
        past := past.(wire := past.wire + Handoffs(batch, seqs));
        pc := Initiating(batch, k);
      } else {
        var tx := ReturnGatherBatch(lanes.tx, batch);
        lanes := lanes.(tx := tx, writing := false);
        pc := Resuming(k);
      }
    }

    /** async_write, which may throw. */
    method Initiate(throws: bool)
      requires Valid() && pc.Initiating?
      modifies this`flights, this`pc
      ensures Valid() && View() == StepInitiating(old(View()), throws)
    {
      hide SendLedger.Ledger.Valid, SendLedger.Ledger.View, Bytes;
      var batch, k := pc.batch, pc.k;
      if throws {
        pc := Closing(Close, k);
      } else {
        flights := flights + [Flight(batch, Bytes(batch), seqs.current, seqs.conn)];
        pc := Resuming(k);
      }
    }

    /** on_write: the completion of one async_write. */
    method OnWrite(i: nat, n: nat, outcome: Outcome)
      requires Valid() && i < |flights|
      modifies this, ledger
      ensures Valid() && View() == ClientModel.OnWrite(old(View()), i, n, outcome)
    {
      hide SendLedger.Ledger.Valid, SendLedger.Ledger.View, Apply, Disconnect;
      var f := flights[i];
      var current, own := f.conn == seqs.conn, f.run == seqs.current;
      flights := flights[..i] + flights[i + 1..];
      SessionFates.ApplyLength(ledger.View(), CompleteBatch(Sizes(f.items), n));
      ledger.CompleteBatch(Sizes(f.items), n);
      if current && outcome.Error? && own {
        DisconnectFrame(View());
        MarkDisconnected();
      }
      if !current { return; }
      SettleWrite(f, own, outcome);
    }

    /** What the completion of the current connection's write leads to. */
    method SettleWrite(f: Flight, own: bool, outcome: Outcome)
      modifies this`lanes, this`bytes, this`pc
      ensures outcome.Error? && own ==>
                && lanes == old(lanes).(active := None, tx := f.items + old(lanes.tx), writing := false)
                && bytes == old(bytes) && pc == Closing(Close, Done)
      ensures !(outcome.Error? && own) ==>
                && lanes == old(lanes).(active := None)
                && bytes == old(bytes).(queue := Release(old(bytes.queue), f.bytes))
                && pc == Reporting(0, if outcome.Ok? && own then AfterCompletion else AfterAbort)
    {
      lanes := lanes.(active := None);
      if outcome.OperationAborted? || !own {
        bytes := bytes.(queue := Release(bytes.queue, f.bytes));
        pc := Reporting(0, AfterAbort);
      } else if outcome.Error? {
        var tx := ReturnGatherBatch(lanes.tx, f.items);
        lanes := lanes.(tx := tx, writing := false);
        pc := Closing(Close, Done);
      } else {
        bytes := bytes.(queue := Release(bytes.queue, f.bytes));
        pc := Reporting(0, AfterCompletion);
      }
    }

    // ---- the strand: connections -------------------------------------

    /** discard_connection_writes. */
    method DiscardConnectionWrites()
      requires Valid() && pc.Discarding?
      modifies this`lanes, this`bytes, this`pc
      ensures Valid() && View() == StepDiscarding(old(View()))
    {
      hide SendLedger.Ledger.Valid, SendLedger.Ledger.View;
      lanes := Lanes([], [], None, false);
      bytes := bytes.(queue := 0, pending := 0, active := false);
      pc := Leaving(pc.reason, pc.k);
    }

    /** The tail of handle_close and handle_idle_timeout. */
    method Leave()
      requires Valid() && pc.Leaving?
      modifies this`life, this`pc
      ensures Valid() && View() == StepLeaving(old(View()))
    {
      hide SendLedger.Ledger.Valid, SendLedger.Ledger.View;
      var down := if pc.reason.Close? then life.stopping || life.link.Down? else !pc.reason.reconnect;
      if down {
        TransitionTo(Down);
        pc := Resuming(pc.k);
      } else {
        TransitionTo(Connecting);
        pc := Retrying(pc.k);
      }
    }

    /** schedule_retry. */
    method ScheduleRetry(again: bool)
      requires Valid() && pc.Retrying?
      modifies this, ledger
      ensures Valid() && View() == StepRetrying(old(View()), again)
    {
      hide SendLedger.Ledger.Valid, SendLedger.Ledger.View, Apply, Disconnect;
      DisconnectFrame(View());
      MarkDisconnected();
      pc := Resuming(pc.k);
      if life.stopping || net.pending { return; }
      if again {
        TransitionTo(Connecting);
        net := net.(retries := net.retries + [seqs.current], pending := true);
      } else {
        TransitionTo(Failed);
      }
    }

    method Announce()
      requires Valid() && pc.Announcing?
      modifies this`life, this`posted, this`pc
      ensures Valid() && View() == StepAnnouncing(old(View()))
    {
      hide SendLedger.Ledger.Valid, SendLedger.Ledger.View;
      TransitionTo(Connected);
      posted := posted + [KickWrite(pc.run, seqs.conn)];
      pc := Ready;
    }

    /** reset_io_objects and the first connect attempt. */
    method BeginRun()
      requires Valid() && pc.Resetting?
      modifies this
      ensures Valid() && View() == StepResetting(old(View()))
    {
      hide SendLedger.Ledger.Valid, SendLedger.Ledger.View;
      var run := pc.run;
      ClearQueues();
      bytes := bytes.(active := false);
      net := net.(attempts := net.attempts + [run]);
      TransitionTo(Connecting);
      seqs := seqs.(begun := run);
      pc := Ready;
    }

    /** perform_stop_cleanup up to its lock ... */
    method StartCleanup()
      requires Valid()
      modifies this`lanes, this`bytes, this`life, this`pc
      ensures Valid() && View() == ClientModel.StartCleanup(old(View()))
    {
      hide SendLedger.Ledger.Valid, SendLedger.Ledger.View;
      ClearQueues();
      life := life.(cleaning := true);
      lanes := lanes.(active := None);
      pc := Cleaning;
    }

    /** ... and from it on. */
    method FinishCleanup()
      requires Valid()
      modifies this, ledger
      ensures Valid() && View() == ClientModel.FinishCleanup(old(View()))
    {
      hide SendLedger.Ledger.Valid, SendLedger.Ledger.View, Apply, Disconnect;
      MarkDisconnected();
      bytes := bytes.(active := false);
      TransitionTo(Down);
      pc := Ready;
    }

    // ---- events ------------------------------------------------------

    method RunStrand(choice: bool)
      requires Valid()
      modifies this, ledger
      ensures Valid() && View() == StrandStep(old(View()), choice)
    {
      hide SendLedger.Ledger.Valid, SendLedger.Ledger.View, Apply, Disconnect, ClientModel.RunHandler, StepRouting,
        StepReporting, StepRearming, StepResuming, StepWriting, StepBeginning, StepInitiating, StepDiscarding,
        StepLeaving, StepRetrying, StepAnnouncing, StepResetting, ClientModel.FinishCleanup;
      match pc
      case Ready =>
        NothingPosted(View());
        if posted != [] { RunHandler(); }
      case Routing(_) => RouteEnqueuedBuffer();
      case Reporting(_, _) => ReportBackpressure();
      case Rearming(_) => Rearm();
      case Kicking(k) => pc := if lanes.writing then Resuming(k) else Writing(k);
      case Resuming(_) => Resume();
      case Writing(_) => DoWrite();
      case Beginning(_, _) => BeginWrite();
      case Initiating(_, _) => Initiate(choice);
      case _ => RunConnection(choice);
    }

    /** The sections that begin and end connections and runs. */
    method RunConnection(choice: bool)
      requires Valid()
      requires pc.Closing? || pc.Discarding? || pc.Leaving? || pc.Retrying? || pc.Announcing? || pc.Starting?
               || pc.Resetting? || pc.Cleaning?
      modifies this, ledger
      ensures Valid() && View() == StrandStep(old(View()), choice)
    {
      hide SendLedger.Ledger.Valid, SendLedger.Ledger.View, Apply, Disconnect, ClientModel.RunHandler, StepRouting,
        StepReporting, StepRearming, StepResuming, StepWriting, StepBeginning, StepInitiating, StepDiscarding,
        StepLeaving, StepRetrying, StepAnnouncing, StepResetting, ClientModel.FinishCleanup;
      match pc
      case Closing(reason, k) => DisconnectThen(Discarding(reason, k));
      case Discarding(_, _) => DiscardConnectionWrites();
      case Leaving(_, _) => Leave();
      case Retrying(_) => ScheduleRetry(choice);
      case Announcing(_) => Announce();
      case Starting(run) => DisconnectThen(Resetting(run));
      case Resetting(_) => BeginRun();
      case Cleaning => FinishCleanup();
    }

    /** The socket's and timers' events, taken between strand handlers. */
    method OnNetwork(e: Event)
      requires Valid() && (e.ConnectSucceeded? || e.ConnectFailed? || e.RetryEnded? || e.ConnectionClosed?
                           || e.IdleTimedOut?)
      modifies this`net, this`life, this`seqs, this`pc
      ensures Valid() && View() == ClientModel.Step(old(View()), e)
    {
      hide SendLedger.Ledger.Valid, SendLedger.Ledger.View;
      if !pc.Ready? { return; }
      match e
      case ConnectSucceeded(i) =>
        if i >= |net.attempts| || admitting.Some? { return; }
        var run := net.attempts[i];
        net := net.(attempts := Without(net.attempts, i));
        if run == seqs.current && !life.stopping {
          life := life.(connected := true);
          seqs := seqs.(socket := seqs.socket + 1);
          pc := Announcing(run);
        }
      case ConnectFailed(i, aborted) =>
        if i >= |net.attempts| { return; }
        var run := net.attempts[i];
        net := net.(attempts := Without(net.attempts, i));
        if !aborted && run == seqs.current && !life.stopping { pc := Retrying(Done); }
      case RetryEnded(i, aborted) =>
        if i >= |net.retries| { return; }
        var run := net.retries[i];
        net := net.(retries := Without(net.retries, i), pending := false);
        if !aborted && run == seqs.current && !life.stopping { net := net.(attempts := net.attempts + [run]); }
      case ConnectionClosed(run) =>
        if run == seqs.current && 1 <= run <= seqs.begun { pc := Closing(Close, Done); }
      case IdleTimedOut(reconnect) =>
        if !life.stopping && life.connected { pc := Closing(IdleExpiry(reconnect), Done); }
    }

    method Handle(e: Event)
      requires Valid()
      modifies this, ledger
      ensures Valid() && View() == ClientModel.Step(old(View()), e)
    {
      hide SendLedger.Ledger.Valid, SendLedger.Ledger.View, Apply, StrandStep, ClientModel.OnWrite, RequestStop,
        RequestStart, Accepts, Reserve, ClientModel.Post, Abandon, FinishConnect, FailConnect, Retry;
      match e
      case Write(data, kind, expected) => if admitting.None? { var _ := Write(data, kind, expected); }
      case Admitted => if admitting.Some? { Post(); }
      case AdmissionThrows(entered) => if admitting.Some? { AbandonAdmission(entered); }
      case Stop => if admitting.None? { Stop(); }
      case Start => if admitting.None? { Start(); }
      case ResetStats => if admitting.None? { ResetStats(); }
      case Strand(choice) => if admitting.None? || !NeedsMutex(pc) { RunStrand(choice); }
      case WriteCompleted(i, n, outcome) =>
        if pc.Ready? && i < |flights| && (admitting.None? || outcome.Ok?) { OnWrite(i, n, outcome); }
      case _ => OnNetwork(e);
    }

    // ---- what every run keeps ----------------------------------------

    /** The connection number an item was admitted under. */
    ghost function ConnOf(x: Item): nat
      reads this
    {
      if 1 <= x.id <= |past.admitted| then past.admitted[x.id - 1].conn else 0
    }

    /** The item is in tx, pending or the active batch. */
    ghost predicate Queued(x: Item)
      reads this
    {
      x in lanes.tx || x in lanes.pending || (lanes.active.Some? && x in lanes.active.value)
    }

    /** Every handoff went out under the connection number that admitted the item. */
    ghost predicate HandoffsPinned()
      reads this
    {
      forall i | 0 <= i < |past.wire| :: past.wire[i].conn == ConnOf(past.wire[i].item)
    }

    /** What is queued and can still be handed over was admitted on the current connection. */
    ghost predicate LiveIsPinned()
      reads this, ledger
    {
      forall x | Queued(x) && IsLive(ledger.log, x.id) :: ConnOf(x) == seqs.conn
    }

    /** Between handlers, everything queued was. */
    ghost predicate QueuesPinned()
      reads this
    {
      pc.Ready? ==> forall x | Queued(x) :: ConnOf(x) == seqs.conn
    }

    /** Every handoff went to the very socket that was up when the item was admitted. */
    ghost predicate SocketsKept()
      reads this
    {
      forall i | 0 <= i < |past.wire| ::
        && 1 <= past.wire[i].item.id <= |past.admitted|
        && past.wire[i].socket == past.admitted[past.wire[i].item.id - 1].socket
    }

    lemma SocketsHold(threshold: nat, events: seq<Event>)
      requires View() == Reach(threshold, events) && ClientSockets.NeverReplaced(threshold, events)
      ensures SocketsKept()
    {
      hide Reach, ClientSockets.NeverReplaced;
      ClientSockets.HandoffsKeepTheirSocket(threshold, events);
    }

    lemma PinningHolds(threshold: nat, events: seq<Event>)
      requires View() == Reach(threshold, events)
      ensures HandoffsPinned() && LiveIsPinned()
      ensures ClientPinning.NeverOvertaken(threshold, events) ==> QueuesPinned()
    {
      hide Reach, ClientPinning.Runs, ClientPinning.LiveIsCurrent, ClientPinning.Sourced,
        ClientPinning.NeverOvertaken, Sane;
      ClientPinning.ConnectionPinning(threshold, events);
      forall x | Queued(x) && IsLive(ledger.log, x.id) ensures ConnOf(x) == seqs.conn {
        ClientPinning.LiveQueuesBelongToConnection(threshold, events, x);
      }
      if ClientPinning.NeverOvertaken(threshold, events) && pc.Ready? {
        forall x | Queued(x) ensures ConnOf(x) == seqs.conn {
          ClientPinning.QueuesBelongToConnection(threshold, events, x);
        }
      }
    }

    /**
     Under each connection number each kind of write is handed over in acceptance
     order without gaps; unless stopping, the rest of the current number is queued in
     that order.
     */
    ghost predicate WritesInOrder(kind: Kind)
      reads this
    {
      && (forall conn ::
            ClientOrder.PickWire(past.wire, kind, conn) <= ClientOrder.PickAccepted(past.accepted, kind, conn))
      && (!life.stopping ==>
            ClientOrder.PickWire(past.wire, kind, seqs.conn)
            + ClientOrder.Pick(past.admitted, ClientOrder.Taken(pc) + lanes.tx + lanes.pending + ClientOrder.Held(pc)
                                              + ClientOrder.Queued(posted), kind, seqs.conn)
            == ClientOrder.PickAccepted(past.accepted, kind, seqs.conn))
    }

    lemma OrderHolds(threshold: nat, events: seq<Event>, kind: Kind)
      requires View() == Reach(threshold, events)
      ensures WritesInOrder(kind)
    {
      hide Reach, ClientOrder.PickWire, ClientOrder.Pick, ClientOrder.PickAccepted, ClientOrder.Queued;
      ClientOrder.ClientWireFollowsAcceptance(threshold, events, kind);
    }

    /** The counters together are within the hard limit. */
    ghost predicate WithinLimit()
      reads this
    {
      bytes.queue + bytes.pending + bytes.inflight <= bounds.limit
    }

    /** Each completed write settled what was live of its batch along the confirmed prefix; the totals say just that. */
    ghost predicate WritesSettled(threshold: nat, events: seq<Event>)
      reads this, ledger
    {
      && ClientSettling.CompletionsStand(threshold, events, ledger.log)
      && ledger.totals.written == ClientSettling.WrittenAlong(threshold, events, ledger.epoch)
      && ledger.totals.confirmedWrittenBytes == ClientSettling.ConfirmedAlong(threshold, events, ledger.epoch)
    }

    /** The losses are charged to the stop or loss that caused them, by what the wire was given. */
    ghost predicate LossesCharged(threshold: nat, events: seq<Event>)
      reads this, ledger
    {
      && ClientSettling.LossesStand(threshold, events, ledger.log)
      && SendSettling.ShowsLosses(ledger.totals, ledger.log, ledger.epoch, ClientSettling.WireItems(past.wire))
    }

    lemma SettlingHolds(threshold: nat, events: seq<Event>)
      requires ledger.Valid() && View() == Reach(threshold, events)
      ensures WithinLimit() && WritesSettled(threshold, events) && LossesCharged(threshold, events)
    {
      hide Reach, SendLedger.RingHolds, SendLedger.SparseHolds, SendLedger.Shape, Snapshot, DecideEnqueue,
        ClientBytes.Within;
      hide ClientSettling.CompletionsStand, ClientSettling.WrittenAlong, ClientSettling.ConfirmedAlong;
      hide ClientSettling.LossesStand, SendSettling.ShowsLosses;
      ClientBytes.ClientStaysWithinLimit(threshold, events);
      ClientSettling.ClientCompletionsAreFinal(threshold, events);
      ClientSettling.ClientWrittenIsWhatCompleted(threshold, events, ledger.epoch);
      ClientSettling.ClientLossesAreCharged(threshold, events);
    }

    /** With nothing due and a bearable leak, nothing is queued or in flight and backpressure is off. */
    ghost predicate NothingStranded()
      reads this
    {
      var leak := ClientFlow.LeakedOn(past.failed, seqs.conn);
      && life.connected && !life.stopping && pc.Ready? && posted == [] && admitting.None?
      && (forall i | 0 <= i < |flights| :: flights[i].conn != seqs.conn) && ClientFlow.Bearable(bounds, leak) ==>
        && lanes == Lanes([], [], None, false) && !bytes.active && bytes.queue == leak && bytes.pending == 0
    }

    lemma FlowHolds(threshold: nat, events: seq<Event>)
      requires View() == Reach(threshold, events) && ClientFlow.Calm(threshold, events)
      ensures NothingStranded()
    {
      hide Reach, ClientFlow.Calm, ClientFlow.LeakedOn, ClientFlow.Exact, ClientFlow.Bearable;
      ClientFlow.NothingIsStranded(threshold, events);
    }

    /** Started, not stopping, no terminal state reported: between handlers it is up, connecting or waiting to retry. */
    ghost predicate NotForgotten()
      reads this
    {
      seqs.current > 0 && !life.stopping && !life.notified && pc.Ready? && posted == [] ==>
        life.connected || seqs.current in net.attempts || seqs.current in net.retries
    }

    lemma PursuitHolds(threshold: nat, events: seq<Event>)
      requires View() == Reach(threshold, events) && ClientReconnect.NeverCancelled(threshold, events)
      ensures NotForgotten()
    {
      hide Reach, ClientReconnect.NeverCancelled, ClientReconnect.Tracked;
      ClientReconnect.NeverForgotten(threshold, events);
    }

    /** Stopped and nothing posted: cleaned up, no connection up, no request outstanding. */
    ghost predicate StopCarriedOut()
      reads this, ledger
    {
      life.stopping && pc.Ready? && posted == [] ==>
        life.cleaning && !life.connected && forall i | 0 <= i < |ledger.log| :: !Live(ledger.log[i])
    }

    lemma StopHolds(threshold: nat, events: seq<Event>)
      requires View() == Reach(threshold, events) && ClientReconnect.NeverLate(threshold, events)
      ensures StopCarriedOut()
    {
      hide Reach, ClientReconnect.NeverLate, Live;
      ClientReconnect.StopIsCarriedOut(threshold, events);
    }

    lemma TotalsConserve(threshold: nat, events: seq<Event>)
      requires ledger.Valid() && View() == Reach(threshold, events)
      ensures Conserved(ledger.totals) && ConfirmedWithinWire(ledger.totals)
    {
      hide Reach, ClientPinning.Runs, ClientPinning.LiveIsCurrent, ClientPinning.Sourced, ClientPinning.WirePinned,
        Snapshot, SendLedger.RingHolds, SendLedger.SparseHolds, SendLedger.Shape, Conserved, ConfirmedWithinWire;
      ClientPinning.ConnectionPinning(threshold, events);
      ConservationLaw(ledger.log, ledger.epoch, None);
    }
  }

  lemma NothingPosted(s: State)
    ensures s.posted == [] ==> ClientModel.RunHandler(s) == s
  {
  }

  /** A refused batch leaves the ledger alone. */
  lemma BeginRefused(h: History, ids: seq<nat>)
    ensures !CanBegin(h.records, ids) ==> Apply(h, BeginBatch(ids)) == h
  {
  }

  lemma DisconnectFrame(s: State)
    ensures var t := Disconnect(s); t == s.(life := t.life, ledger := t.ledger, seqs := t.seqs)
    ensures Disconnect(s).life.stopping == s.life.stopping && Disconnect(s).seqs.current == s.seqs.current
  {
  }

  /** Every run of the object is the model's run. */
  method RunEvents(threshold: nat, events: seq<Event>) returns (s: TcpClient)
    ensures s.Valid() && s.View() == Reach(threshold, events)
  {
    s := new TcpClient(threshold);
    var k := 0;
    assert events[..0] == [];
    while k < |events|
      invariant 0 <= k <= |events| && fresh(s) && fresh(s.ledger)
      invariant s.Valid() && s.View() == Reach(threshold, events[..k])
    {
      hide ClientModel.Step, SendLedger.Ledger.Valid;
      assert events[..k + 1][..k] == events[..k] && events[..k + 1][k] == events[k];
      s.Handle(events[k]);
      k := k + 1;
    }
    assert events[..k] == events;
  }

  /**
   On every run of the object: whatever was handed to I/O went out
   under the connection number that admitted it, and to that very socket unless a
   second connect replaced one; what can still be handed over belongs to the
   current number, so does everything queued unless a connection was overtaken; each
   kind of write is in acceptance order; the counters are within the limit; completed
   writes are settled along their prefixes and losses charged to their causes; nothing
   is stranded on a calm run; the client is not forgotten unless a connect or retry is
   cancelled; a stop is carried out unless a cleanup came late; and the published totals
   are the tally of the log and conserve.
   */
  method Replay(threshold: nat, events: seq<Event>) returns (s: TcpClient)
    ensures s.Valid() && s.View() == Reach(threshold, events)
    ensures s.HandoffsPinned() && s.LiveIsPinned()
    ensures ClientPinning.NeverOvertaken(threshold, events) ==> s.QueuesPinned()
    ensures ClientSockets.NeverReplaced(threshold, events) ==> s.SocketsKept()
    ensures s.WritesInOrder(Plain) && s.WritesInOrder(Try) && s.WithinLimit()
    ensures s.WritesSettled(threshold, events) && s.LossesCharged(threshold, events)
    ensures ClientFlow.Calm(threshold, events) ==> s.NothingStranded()
    ensures ClientReconnect.NeverCancelled(threshold, events) ==> s.NotForgotten()
    ensures ClientReconnect.NeverLate(threshold, events) ==> s.StopCarriedOut()
    ensures s.ledger.totals == Snapshot(s.ledger.log, s.ledger.epoch, None)
    ensures Conserved(s.ledger.totals) && ConfirmedWithinWire(s.ledger.totals)
  {
    hide TcpClient.HandoffsPinned, TcpClient.LiveIsPinned, TcpClient.QueuesPinned, TcpClient.SocketsKept;
    hide TcpClient.WritesInOrder, TcpClient.WithinLimit, TcpClient.WritesSettled, TcpClient.LossesCharged;
    hide TcpClient.NothingStranded, TcpClient.NotForgotten, TcpClient.StopCarriedOut, ClientReconnect.NeverLate;
    hide ClientPinning.NeverOvertaken, ClientSockets.NeverReplaced, ClientFlow.Calm, ClientReconnect.NeverCancelled;
    hide Reach, Conserved, ConfirmedWithinWire, SendLedger.RingHolds, SendLedger.SparseHolds, SendLedger.Shape;
    s := RunEvents(threshold, events);
    s.PinningHolds(threshold, events);
    if ClientSockets.NeverReplaced(threshold, events) { s.SocketsHold(threshold, events); }
    s.OrderHolds(threshold, events, Plain);
    s.OrderHolds(threshold, events, Try);
    s.SettlingHolds(threshold, events);
    if ClientFlow.Calm(threshold, events) { s.FlowHolds(threshold, events); }
    if ClientReconnect.NeverCancelled(threshold, events) { s.PursuitHolds(threshold, events); }
    if ClientReconnect.NeverLate(threshold, events) { s.StopHolds(threshold, events); }
    s.TotalsConserve(threshold, events);
  }
}
