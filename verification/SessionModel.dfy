/**
 TcpServerSession's write path (wirestead/transport/tcp_server/tcp_server_session.cc)
 as a transition system.

 Callers and the strand interleave at every step below.  A caller's admission is
 two steps, with the submission mutex held in between (`admitting`): the byte
 reservation, then the ledger entry and the post.  A strand handler runs as a
 sequence of steps recorded in `pc`; the steps are cut where a mutex is taken or
 released, where a user callback runs, and around socket initiation.
 */
module SessionModel {
  import opened Options
  import opened SendAccounting
  import opened SendHistory
  import opened Octets
  import opened Queues

  datatype Rejection = NotReady | InvalidArgument | TooLarge | WouldBlock | CancelledWhileWaiting

  datatype Handler =
    | RouteWrite(item: Item)                         // posted by write_*
    | RouteTry(item: Item)                           // posted by try_write_*
    | WriteDone(total: nat, n: nat, failed: bool)    // posted by the socket's write completion
    | Cleanup                                        // posted by async_stop

  /** What a strand handler does once report_backpressure (or do_close) returns. */
  datatype Then = Done | AfterRoute | AfterCompletion

  datatype Pc =
    | Idle
    | Routing(item: Item)              // route_enqueued_buffer entered, not yet decided
    | Finishing(total: nat)            // completion recorded, bytes not yet released
    | Reporting(extra: nat, k: Then)   // about to run report_backpressure(queue_bytes + extra)
    | Rearming(k: Then)                // OFF transition done and reported
    | Kicking(k: Then)                 // kick_write
    | Resuming(k: Then)                // report_backpressure returned
    | Initiating(total: nat, k: Then)  // batch begun, socket not yet called
    | Closing(k: Then)                 // do_close entered
    | Draining(k: Then)                // do_close past its lock

  /** alive_, closing_, cleanup_done_ and wait_ended_by_. */
  datatype Life = Life(alive: bool, closing: bool, cleaned: bool, wait: Option<Rejection>)

  /** tx_, pending_, current_write_batch_, writing_, and the size of a write the socket has not completed. */
  datatype Lanes = Lanes(tx: seq<Item>, pending: seq<Item>, batch: seq<Item>, writing: bool, io: Option<nat>)

  /** History: what callers were told is accepted, what was handed to local I/O, and admissions that threw, in order. */
  datatype Past = Past(accepted: seq<Item>, wire: seq<Item>, failed: seq<Item>)

  datatype State = State(
    bounds: Bounds,
    life: Life,
    ledger: History,
    bytes: Counters,
    lanes: Lanes,
    posted: seq<Handler>,          // the strand's FIFO
    admitting: Option<Item>,       // a caller between reservation and post, holding the mutex
    pc: Pc,
    past: Past)

  function Initial(threshold: nat): State {
    State(SessionBounds(threshold), Life(false, false, false, None), EMPTY, Counters(0, 0, 0, false),
          Lanes([], [], [], false, None), [], None, Idle, Past([], [], []))
  }

  predicate Closed(s: State) {
    s.life.closing || !s.life.alive
  }

  // ------------------------------------------------------------------
  // Callers
  // ------------------------------------------------------------------

  /** The verdict of write_* or try_write_*; None is acceptance. */
  function Verdict(s: State, data: seq<Byte>, kind: Kind): Option<Rejection> {
    var c := s.bytes;
    if Closed(s) then Some(NotReady)
    else if |data| == 0 then Some(InvalidArgument)
    else if |data| > MAX_BUFFER_SIZE then Some(TooLarge)
    else if kind == Plain && !MayReserve(s.bounds, c.queue, c.pending, c.inflight, |data|) then Some(WouldBlock)
    else if kind == Try && !MayTry(s.bounds, c.queue, c.pending, c.inflight, c.active, |data|) then Some(WouldBlock)
    else None
  }

  /** First half of an accepted write: reserve the bytes. */
  function Reserve(s: State, data: seq<Byte>, kind: Kind): State {
    var item := Item(|s.ledger.records| + 1, data, kind);
    var c := s.bytes;
    s.(bytes := if kind == Plain then c.(inflight := c.inflight + |data|) else c.(queue := c.queue + |data|),
       admitting := Some(item))
  }

  /** Second half: enter the request in the ledger and post its handler. */
  function Post(s: State): State
    requires s.admitting.Some?
  {
    var item := s.admitting.value;
    s.(ledger := Apply(s.ledger, Admit(|item.data|, None)),
       posted := s.posted + [if item.kind == Plain then RouteWrite(item) else RouteTry(item)],
       past := s.past.(accepted := s.past.accepted + [item]),
       admitting := None)
  }

  /**
   The second half throws: the payload copy, the ledger or the post ran out of
   memory. Only the ledger entry is rolled back, if there was one; the reserved
   bytes stay in their counter.
   */
  function Abandon(s: State, entered: bool): State
    requires s.admitting.Some?
  {
    var item := s.admitting.value;
    var h := Apply(s.ledger, Admit(|item.data|, None));
    s.(ledger := if entered then Apply(h, Rollback(item.id)) else s.ledger,
       past := s.past.(failed := s.past.failed + [item]),
       admitting := None)
  }

  function EndWait(l: Life, r: Rejection): Life {
    if l.wait.Some? then l else l.(wait := Some(r))
  }

  /** The terminal boundary shared by stop and loss. */
  function Terminate(s: State, cause: Cause, r: Rejection): State {
    s.(ledger := Apply(s.ledger, End(cause)), life := EndWait(s.life.(closing := true), r))
  }

  // ------------------------------------------------------------------
  // The strand
  // ------------------------------------------------------------------

  function DoWrite(s: State, k: Then): State {
    var q := s.lanes;
    if Closed(s) || q.tx == [] || q.writing then s.(pc := Resuming(k))
    else
      var g := GatherCount(q.tx);
      var batch := q.tx[..g];
      s.(lanes := q.(tx := q.tx[g..], batch := batch, writing := true),
         ledger := Apply(s.ledger, BeginBatch(Ids(batch))),
         past := s.past.(wire := s.past.wire + batch),
         pc := Initiating(Bytes(batch), k))
  }

  /** The handler a plain write posts. */
  function RunWrite(s: State, item: Item): State {
    if Closed(s) then s.(bytes := s.bytes.(inflight := Release(s.bytes.inflight, |item.data|)))
    else s.(pc := Routing(item))
  }

  /** The handler a try-write posts. */
  function RunTry(s: State, item: Item): State {
    if Closed(s) then s.(bytes := s.bytes.(queue := Release(s.bytes.queue, |item.data|)))
    else s.(lanes := s.lanes.(tx := s.lanes.tx + [item]), pc := Reporting(0, AfterRoute))
  }

  /** The handler a completed gather write posts. */
  function RunDone(s: State, total: nat, n: nat, failed: bool): State {
    var settled := s.(lanes := s.lanes.(batch := []));
    if Closed(s) then settled
    else
      var confirmed := if n < total then n else total;
      var counted := settled.(ledger := Apply(s.ledger, CompleteBatch(Sizes(s.lanes.batch), confirmed)));
      if failed || n != total then Terminate(counted, ConnectionLoss, NotReady).(pc := Closing(Done))
      else counted.(pc := Finishing(total))
  }

  /** Run the next posted handler. */
  function StepIdle(s: State): State {
    if s.posted == [] then s
    else
      var rest := s.(posted := s.posted[1..]);
      match s.posted[0]
      case RouteWrite(item) => RunWrite(rest, item)
      case RouteTry(item) => RunTry(rest, item)
      case WriteDone(total, n, failed) => RunDone(rest, total, n, failed)
      case Cleanup => rest.(pc := Closing(Done))
  }

  /** route_enqueued_buffer after the liveness check. */
  function StepRouting(s: State): State
    requires s.pc.Routing?
  {
    var item, n, c := s.pc.item, |s.pc.item.data|, s.bytes.(inflight := Release(s.bytes.inflight, |s.pc.item.data|));
    match DecideEnqueue(s.bounds, s.bytes.queue, s.bytes.pending, s.bytes.active, n)
    case Rejected =>
      s.(ledger := Apply(s.ledger, Discard(item.id, QueuePressure)), bytes := c, pc := Reporting(n, Done))
    case Pending =>
      s.(bytes := c.(pending := c.pending + n), lanes := s.lanes.(pending := s.lanes.pending + [item]), pc := Idle)
    case Immediate =>
      s.(bytes := c.(queue := c.queue + n), lanes := s.lanes.(tx := s.lanes.tx + [item]),
         pc := Reporting(0, AfterRoute))
  }

  function StepFinishing(s: State): State
    requires s.pc.Finishing?
  {
    s.(bytes := s.bytes.(queue := Release(s.bytes.queue, s.pc.total)), pc := Reporting(0, AfterCompletion))
  }

  /** report_backpressure up to its first callback. */
  function StepReporting(s: State): State
    requires s.pc.Reporting?
  {
    var queued, k, c := s.bytes.queue + s.pc.extra, s.pc.k, s.bytes;
    if Closed(s) then s.(pc := Resuming(k))
    else if !c.active && queued >= s.bounds.high then s.(bytes := c.(active := true), pc := Resuming(k))
    else if c.active && queued <= s.bounds.low then
      s.(lanes := s.lanes.(tx := s.lanes.tx + s.lanes.pending, pending := []),
         bytes := c.(queue := c.queue + c.pending, pending := 0, active := false),
         pc := Rearming(k))
    else s.(pc := Resuming(k))
  }

  /** The re-arm check after the OFF callback. */
  function StepRearming(s: State): State
    requires s.pc.Rearming?
  {
    s.(bytes := s.bytes.(active := s.bytes.active || s.bytes.queue >= s.bounds.high), pc := Kicking(s.pc.k))
  }

  function StepKicking(s: State): State
    requires s.pc.Kicking?
  {
    if s.lanes.writing then s.(pc := Resuming(s.pc.k)) else DoWrite(s, s.pc.k)
  }

  function StepResuming(s: State): State
    requires s.pc.Resuming?
  {
    match s.pc.k
    case Done => s.(pc := Idle)
    case AfterRoute => if s.lanes.writing then s.(pc := Idle) else DoWrite(s, Done)
    case AfterCompletion => DoWrite(s.(lanes := s.lanes.(writing := false)), Done)
  }

  /** Socket initiation, which may throw. */
  function StepInitiating(s: State, throws: bool): State
    requires s.pc.Initiating?
  {
    if throws then Terminate(s, ConnectionLoss, NotReady).(pc := Closing(s.pc.k))
    else s.(lanes := s.lanes.(io := Some(s.pc.total)), pc := Resuming(s.pc.k))
  }

  function StepClosing(s: State): State
    requires s.pc.Closing?
  {
    if s.life.cleaned then s.(pc := Resuming(s.pc.k))
    else
      var t := Terminate(s, ConnectionLoss, NotReady);
      t.(life := t.life.(cleaned := true, alive := false), pc := Draining(s.pc.k))
  }

  /** drain_and_clear_backpressure. */
  function StepDraining(s: State): State
    requires s.pc.Draining?
  {
    s.(lanes := s.lanes.(tx := [], pending := []),
       bytes := s.bytes.(queue := 0, pending := 0, active := false),
       pc := Resuming(s.pc.k))
  }

  /** Does the next strand step take the submission mutex? */
  predicate NeedsMutex(s: State, throws: bool) {
    match s.pc
    case Idle => s.posted != [] && s.posted[0].WriteDone?
    case Kicking(_) => !s.lanes.writing
    case Resuming(k) => k.AfterCompletion? || (k.AfterRoute? && !s.lanes.writing)
    case Initiating(_, _) => throws
    case Closing(_) => !s.life.cleaned
    case _ => false
  }

  function StrandStep(s: State, throws: bool): State {
    match s.pc
    case Idle => StepIdle(s)
    case Routing(_) => StepRouting(s)
    case Finishing(_) => StepFinishing(s)
    case Reporting(_, _) => StepReporting(s)
    case Rearming(_) => StepRearming(s)
    case Kicking(_) => StepKicking(s)
    case Resuming(_) => StepResuming(s)
    case Initiating(_, _) => StepInitiating(s, throws)
    case Closing(_) => StepClosing(s)
    case Draining(_) => StepDraining(s)
  }

  datatype Event =
    | Start
    | Write(data: seq<Byte>, kind: Kind)
    | Admitted                          // the caller holding the mutex posts and returns
    | AdmissionThrows(entered: bool)    // or leaves by an exception, before or after its ledger entry
    | RequestStop
    | AsyncStop
    | CancelWait
    | ResetStats
    | IoDone(n: nat, error: bool)       // the socket completes the write in flight
    | Lost                              // read error, failed handshake or idle expiry handled on the strand
    | Strand(throws: bool)              // next strand step; `throws`: socket initiation fails

  function Finish(s: State, n: nat, error: bool): State {
    if s.lanes.io.None? then s
    else s.(lanes := s.lanes.(io := None), posted := s.posted + [WriteDone(s.lanes.io.value, n, error)])
  }

  function Lose(s: State): State {
    if s.pc.Idle? && !Closed(s) then s.(pc := Closing(Done)) else s
  }

  function Submit(s: State, data: seq<Byte>, kind: Kind): State {
    if Verdict(s, data, kind).None? then Reserve(s, data, kind) else s
  }

  function StopAsync(s: State): State {
    var t := Terminate(s, ExplicitStop, NotReady);
    t.(posted := t.posted + [Cleanup])
  }

  /** One atomic step; an event that is not enabled leaves the state alone. */
  function Step(s: State, e: Event): State {
    match e
    case IoDone(n, error) => Finish(s, n, error)
    case Lost => Lose(s)
    case Strand(throws) => if s.admitting.Some? && NeedsMutex(s, throws) then s else StrandStep(s, throws)
    case Start => s.(life := s.life.(alive := true))
    case Admitted => if s.admitting.Some? then Post(s) else s
    case AdmissionThrows(entered) => if s.admitting.Some? then Abandon(s, entered) else s
    // The rest take the submission mutex.
    case Write(data, kind) => if s.admitting.Some? then s else Submit(s, data, kind)
    case RequestStop => if s.admitting.Some? then s else Terminate(s, ExplicitStop, CancelledWhileWaiting)
    case AsyncStop => if s.admitting.Some? then s else StopAsync(s)
    case CancelWait => if s.admitting.Some? then s else s.(life := EndWait(s.life, CancelledWhileWaiting))
    case ResetStats => if s.admitting.Some? then s else s.(ledger := Apply(s.ledger, Reset))
  }

  function Reach(threshold: nat, events: seq<Event>): State
    decreases |events|
  {
    if events == [] then Initial(threshold)
    else Step(Reach(threshold, events[..|events| - 1]), events[|events| - 1])
  }
}
