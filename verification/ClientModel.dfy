/**
 The write, loss, stop and restart paths of the reconnecting TCP client
 (wirestead/transport/tcp_client/tcp_client.cc) as a transition system.

 As in the session, callers and the strand interleave at every step.  Here the
 handoff to I/O takes no admission mutex: only the ledger fences it.  Handlers
 and I/O completions of earlier runs and connections may arrive at any time.
 start() writes strand-confined fields, so its caller side is one step taken
 between strand handlers or from the last callback of one.
 */
module ClientModel {
  import opened Options
  import opened SendAccounting
  import opened SendHistory
  import opened Octets
  import opened Queues

  /** An admitted item with the run and connection the admitting call captured, and the socket that was up. */
  datatype Admission = Admission(item: Item, run: nat, conn: nat, socket: nat)

  datatype Handler =
    | RouteWrite(a: Admission)
    | RouteTry(a: Admission)
    | StartRun(run: nat)                 // dispatched by start()
    | KickWrite(run: nat, conn: nat)     // posted by finish_connect
    | StopCleanup                        // posted by stop()

  /** LinkState; Down is Closed and Failed is Error. */
  datatype Link = Unstarted | Connecting | Connected | Down | Failed

  /** An async_write the network has not completed. */
  datatype Flight = Flight(items: seq<Item>, bytes: nat, run: nat, conn: nat)

  datatype Outcome = Ok | OperationAborted | Error

  /** What a strand handler does once report_backpressure, do_write or handle_close returns. */
  datatype Then = Done | AfterRoute | AfterCompletion | AfterAbort

  /** Why handle_close's tail runs: a close, or an idle timeout with its configured action. */
  datatype Reason = Close | IdleExpiry(reconnect: bool)

  datatype Pc =
    | Ready
    | Routing(item: Item)
    | Reporting(extra: nat, k: Then)
    | Rearming(k: Then)
    | Kicking(k: Then)
    | Resuming(k: Then)
    | Writing(k: Then)                          // do_write entered
    | Beginning(batch: seq<Item>, k: Then)      // batch taken, ledger not yet asked
    | Initiating(batch: seq<Item>, k: Then)     // batch begun, socket not yet called
    | Closing(reason: Reason, k: Then)          // about to mark the connection lost
    | Discarding(reason: Reason, k: Then)       // lost, queues not yet discarded
    | Leaving(reason: Reason, k: Then)          // discarded, link state not yet changed
    | Retrying(k: Then)                         // schedule_retry
    | Announcing(run: nat)                      // finish_connect past its lock
    | Starting(run: nat)                        // start's strand part, before mark_disconnected
    | Resetting(run: nat)                       // and after it
    | Cleaning                                  // perform_stop_cleanup past clearing the queues

  /**
   lifecycle_seq_, current_seq_, connection_seq_, stop_seq_ and the last run whose
   strand part has begun. The source does not number its sockets: `socket` counts
   the connects that took effect.
   */
  datatype Seqs = Seqs(lifecycle: nat, current: nat, conn: nat, stopped: nat, begun: nat, socket: nat)

  /** connected_, stop_requested_ (with stopping_), cleanup_started_, state_ and terminal_state_notified_. */
  datatype Life = Life(connected: bool, stopping: bool, cleaning: bool, link: Link, notified: bool)

  /**
   The runs of outstanding connect attempts and of outstanding retry waits, and
   reconnect_pending_. Cancelling retracts neither: a completion already queued
   still arrives.
   */
  datatype Net = Net(attempts: seq<nat>, retries: seq<nat>, pending: bool)

  /** tx_, pending_, active_write_ and writing_. */
  datatype Lanes = Lanes(tx: seq<Item>, pending: seq<Item>, active: Option<seq<Item>>, writing: bool)

  /** An item given to async_write, and the connection and socket it was given to. */
  datatype Handoff = Handoff(item: Item, conn: nat, socket: nat)

  /**
   History: everything entered in the ledger, what callers were told is accepted,
   admissions that threw, and everything handed to I/O.
   */
  datatype Past = Past(admitted: seq<Admission>, accepted: seq<Admission>, failed: seq<Admission>, wire: seq<Handoff>)

  datatype State = State(
    bounds: Bounds,
    seqs: Seqs,
    life: Life,
    net: Net,
    ledger: History,
    bytes: Counters,
    lanes: Lanes,
    flights: seq<Flight>,
    posted: seq<Handler>,
    admitting: Option<Admission>,   // a caller between reservation and post, holding the mutex
    pc: Pc,
    past: Past)

  function Initial(threshold: nat): State {
    State(ClientBounds(threshold), Seqs(0, 0, 0, 0, 0, 0), Life(false, false, false, Unstarted, false),
          Net([], [], false), EMPTY, Counters(0, 0, 0, false), Lanes([], [], None, false), [], [], None, Ready,
          Past([], [], [], []))
  }

  predicate Terminal(link: Link) {
    link.Down? || link.Failed?
  }

  // ------------------------------------------------------------------
  // Callers
  // ------------------------------------------------------------------

  /** admission_rejection and the size and capacity checks of the write entry points. */
  predicate Accepts(s: State, data: seq<Byte>, kind: Kind, expected: Option<nat>) {
    && !s.life.stopping && s.seqs.current != 0
    && (expected.Some? ==> expected.value == s.seqs.conn)
    && !Terminal(s.life.link) && s.life.connected
    && 0 < |data| <= MAX_BUFFER_SIZE
    && (kind == Plain ==> MayReserve(s.bounds, s.bytes.queue, s.bytes.pending, s.bytes.inflight, |data|))
    && (kind == Try ==> MayTry(s.bounds, s.bytes.queue, s.bytes.pending, s.bytes.inflight, s.bytes.active, |data|))
  }

  function Reserve(s: State, data: seq<Byte>, kind: Kind): State {
    var item := Item(|s.ledger.records| + 1, data, kind);
    var c := s.bytes;
    s.(bytes := if kind == Plain then c.(inflight := c.inflight + |data|) else c.(queue := c.queue + |data|),
       admitting := Some(Admission(item, s.seqs.current, s.seqs.conn, s.seqs.socket)))
  }

  function Post(s: State): State
    requires s.admitting.Some?
  {
    var a := s.admitting.value;
    s.(ledger := Apply(s.ledger, Admit(|a.item.data|, None)),
       posted := s.posted + [if a.item.kind == Plain then RouteWrite(a) else RouteTry(a)],
       past := s.past.(admitted := s.past.admitted + [a], accepted := s.past.accepted + [a]),
       admitting := None)
  }

  /** An exception between the reservation and the post: the ledger entry, if any, is rolled back. */
  function Abandon(s: State, entered: bool): State
    requires s.admitting.Some?
  {
    var a := s.admitting.value;
    var past := s.past.(failed := s.past.failed + [a]);
    if !entered then s.(past := past, admitting := None)
    else
      s.(ledger := Apply(Apply(s.ledger, Admit(|a.item.data|, None)), Rollback(a.item.id)),
         past := past.(admitted := s.past.admitted + [a]),
         admitting := None)
  }

  /** mark_disconnected_locked. */
  function Disconnect(s: State): State {
    if !s.life.connected then s
    else s.(life := s.life.(connected := false), ledger := Apply(s.ledger, End(ConnectionLoss)),
            seqs := s.seqs.(conn := s.seqs.conn + 1))
  }

  /** transition_to, with its once-only terminal notification. */
  function Transition(l: Life, next: Link): (r: Life)
    ensures r == l.(link := r.link, notified := r.notified)
    ensures Terminal(next) ==> r.notified || Terminal(l.link)
  {
    if !Terminal(next) then l.(link := next)
    else if Terminal(l.link) || l.notified then l
    else l.(link := next, notified := true)
  }

  function ClearQueues(s: State): State {
    s.(lanes := s.lanes.(tx := [], pending := [], writing := false), bytes := s.bytes.(queue := 0, pending := 0))
  }

  /** stop(): the caller's half. */
  function RequestStop(s: State): State {
    if s.life.stopping then s
    else
      var t := s.(life := s.life.(stopping := true), ledger := Apply(s.ledger, End(ExplicitStop)),
                  seqs := s.seqs.(stopped := s.seqs.current));
      if s.seqs.current == 0 then FinishCleanup(StartCleanup(t)) else t.(posted := t.posted + [StopCleanup])
  }

  /** The strand is between handlers, or a handler is about to return from its last callback. */
  predicate Interruptible(pc: Pc) {
    pc.Ready? || pc.Resuming?
  }

  /** start(): the caller's half, refused while connecting or connected. */
  function RequestStart(s: State): State {
    if s.life.link.Connecting? || s.life.link.Connected? || !Interruptible(s.pc) then s
    else
      var run := s.seqs.lifecycle + 1;
      var t := s.(seqs := s.seqs.(lifecycle := run, current := run),
                  life := s.life.(stopping := false, cleaning := false, notified := false));
      var u := Disconnect(t);
      u.(lanes := u.lanes.(pending := [], writing := false),
         bytes := Counters(0, 0, 0, false),
         life := u.life.(link := Unstarted),
         net := u.net.(pending := false),
         posted := u.posted + [StartRun(run)])
  }

  // ------------------------------------------------------------------
  // Strand handlers
  // ------------------------------------------------------------------

  function RunHandler(s: State): State {
    if s.posted == [] then s
    else
      var rest := s.(posted := s.posted[1..]);
      match s.posted[0]
      case RouteWrite(a) =>
        if a.run != s.seqs.current then rest
        else if a.conn != s.seqs.conn then
          rest.(bytes := s.bytes.(inflight := Release(s.bytes.inflight, |a.item.data|)))
        else rest.(pc := Routing(a.item))
      case RouteTry(a) => RunTry(rest, a)
      case StartRun(run) => if run <= s.seqs.stopped then rest else rest.(pc := Starting(run))
      case KickWrite(run, conn) =>
        if run != s.seqs.current || conn != s.seqs.conn || s.lanes.writing then rest else rest.(pc := Writing(Done))
      case StopCleanup => if s.life.cleaning then rest else StartCleanup(rest)
  }

  function RunTry(s: State, a: Admission): State {
    if a.run != s.seqs.current || a.conn != s.seqs.conn then s
    else if s.life.stopping || Terminal(s.life.link) then
      s.(bytes := s.bytes.(queue := Release(s.bytes.queue, |a.item.data|)))
    else s.(lanes := s.lanes.(tx := s.lanes.tx + [a.item]), pc := Reporting(0, AfterRoute))
  }

  function StepRouting(s: State): State
    requires s.pc.Routing?
  {
    var item, n, c := s.pc.item, |s.pc.item.data|, s.bytes.(inflight := Release(s.bytes.inflight, |s.pc.item.data|));
    if s.life.stopping || Terminal(s.life.link) then s.(bytes := c, pc := Ready)
    else match DecideEnqueue(s.bounds, s.bytes.queue, s.bytes.pending, s.bytes.active, n)
    case Rejected =>
      s.(ledger := Apply(s.ledger, Discard(item.id, QueuePressure)), bytes := c, pc := Reporting(n, Done))
    case Pending =>
      s.(bytes := c.(pending := c.pending + n), lanes := s.lanes.(pending := s.lanes.pending + [item]), pc := Ready)
    case Immediate =>
      s.(bytes := c.(queue := c.queue + n), lanes := s.lanes.(tx := s.lanes.tx + [item]),
         pc := Reporting(0, AfterRoute))
  }

  function StepReporting(s: State): State
    requires s.pc.Reporting?
  {
    var queued, k, c := s.bytes.queue + s.pc.extra, s.pc.k, s.bytes;
    if s.life.stopping then s.(pc := Resuming(k))
    else if !c.active && queued >= s.bounds.high then s.(bytes := c.(active := true), pc := Resuming(k))
    else if c.active && queued <= s.bounds.low then
      s.(lanes := s.lanes.(tx := s.lanes.tx + s.lanes.pending, pending := []),
         bytes := c.(queue := c.queue + c.pending, pending := 0, active := false),
         pc := Rearming(k))
    else s.(pc := Resuming(k))
  }

  function StepRearming(s: State): State
    requires s.pc.Rearming?
  {
    s.(bytes := s.bytes.(active := s.bytes.active || s.bytes.queue >= s.bounds.high), pc := Kicking(s.pc.k))
  }

  function StepResuming(s: State): State
    requires s.pc.Resuming?
  {
    match s.pc.k
    case Done => s.(pc := Ready)
    case AfterRoute => s.(pc := if s.lanes.writing then Ready else Writing(Done))
    case AfterCompletion =>
      if s.life.stopping || Terminal(s.life.link) then s.(lanes := s.lanes.(writing := false), pc := Ready)
      else s.(pc := Writing(Done))
    case AfterAbort => s.(lanes := s.lanes.(writing := false), pc := Ready)
  }

  /** do_write up to taking the batch. */
  function StepWriting(s: State): State
    requires s.pc.Writing?
  {
    var k, q := s.pc.k, s.lanes;
    if s.life.stopping then ClearQueues(s).(pc := Resuming(k))
    else if !s.life.connected || q.tx == [] || Terminal(s.life.link) then
      s.(lanes := q.(writing := false), pc := Resuming(k))
    else
      var g := GatherCount(q.tx);
      s.(lanes := q.(tx := q.tx[g..], writing := true), pc := Beginning(q.tx[..g], k))
  }

  /** The handoff, fenced by the ledger alone. */
  function StepBeginning(s: State): State
    requires s.pc.Beginning?
  {
    var batch, k := s.pc.batch, s.pc.k;
    if s.life.stopping || !CanBegin(s.ledger.records, Ids(batch)) then
      s.(lanes := s.lanes.(tx := batch + s.lanes.tx, writing := false), pc := Resuming(k))
    else
      s.(ledger := Apply(s.ledger, BeginBatch(Ids(batch))), lanes := s.lanes.(active := Some(batch)),
         past := s.past.(wire := s.past.wire + Handoffs(batch, s.seqs)),
         pc := Initiating(batch, k))
  }

  function Handoffs(batch: seq<Item>, seqs: Seqs): (r: seq<Handoff>)
    ensures |r| == |batch| && forall i | 0 <= i < |r| :: r[i] == Handoff(batch[i], seqs.conn, seqs.socket)
  {
    seq(|batch|, i requires 0 <= i < |batch| => Handoff(batch[i], seqs.conn, seqs.socket))
  }

  function StepInitiating(s: State, throws: bool): State
    requires s.pc.Initiating?
  {
    var batch, k := s.pc.batch, s.pc.k;
    if throws then s.(pc := Closing(Close, k))
    else s.(flights := s.flights + [Flight(batch, Bytes(batch), s.seqs.current, s.seqs.conn)], pc := Resuming(k))
  }

  /** discard_connection_writes. */
  function StepDiscarding(s: State): State
    requires s.pc.Discarding?
  {
    s.(lanes := Lanes([], [], None, false), bytes := s.bytes.(queue := 0, pending := 0, active := false),
       pc := Leaving(s.pc.reason, s.pc.k))
  }

  function StepLeaving(s: State): State
    requires s.pc.Leaving?
  {
    var k := s.pc.k;
    var down := if s.pc.reason.Close? then s.life.stopping || s.life.link.Down? else !s.pc.reason.reconnect;
    if down then s.(life := Transition(s.life, Down), pc := Resuming(k))
    else s.(life := Transition(s.life, Connecting), pc := Retrying(k))
  }

  /** schedule_retry; the reconnect policy decides `again`. */
  function StepRetrying(s: State, again: bool): State
    requires s.pc.Retrying?
  {
    var t := Disconnect(s).(pc := Resuming(s.pc.k));
    if s.life.stopping || s.net.pending then t
    else if again then
      t.(life := Transition(t.life, Connecting),
         net := t.net.(retries := t.net.retries + [s.seqs.current], pending := true))
    else t.(life := Transition(t.life, Failed))
  }

  function StepAnnouncing(s: State): State
    requires s.pc.Announcing?
  {
    s.(life := Transition(s.life, Connected), posted := s.posted + [KickWrite(s.pc.run, s.seqs.conn)], pc := Ready)
  }

  /** reset_io_objects and the first connect attempt of a run. */
  function StepResetting(s: State): State
    requires s.pc.Resetting?
  {
    var t := ClearQueues(s);
    t.(bytes := t.bytes.(active := false), net := t.net.(attempts := t.net.attempts + [s.pc.run]),
       life := Transition(t.life, Connecting), seqs := t.seqs.(begun := s.pc.run), pc := Ready)
  }

  function StartCleanup(s: State): State {
    var t := ClearQueues(s);
    t.(life := t.life.(cleaning := true), lanes := t.lanes.(active := None), pc := Cleaning)
  }

  function FinishCleanup(s: State): State {
    var t := Disconnect(s);
    t.(bytes := t.bytes.(active := false), life := Transition(t.life, Down), pc := Ready)
  }

  /** Does the next strand step take the submission mutex? */
  predicate NeedsMutex(pc: Pc) {
    pc.Closing? || pc.Retrying? || pc.Starting? || pc.Cleaning?
  }

  function StrandStep(s: State, choice: bool): State {
    match s.pc
    case Ready => RunHandler(s)
    case Routing(_) => StepRouting(s)
    case Reporting(_, _) => StepReporting(s)
    case Rearming(_) => StepRearming(s)
    case Kicking(k) => s.(pc := if s.lanes.writing then Resuming(k) else Writing(k))
    case Resuming(_) => StepResuming(s)
    case Writing(_) => StepWriting(s)
    case Beginning(_, _) => StepBeginning(s)
    case Initiating(_, _) => StepInitiating(s, choice)
    case Closing(reason, k) => Disconnect(s).(pc := Discarding(reason, k))
    case Discarding(_, _) => StepDiscarding(s)
    case Leaving(_, _) => StepLeaving(s)
    case Retrying(_) => StepRetrying(s, choice)
    case Announcing(_) => StepAnnouncing(s)
    case Starting(run) => Disconnect(s).(pc := Resetting(run))
    case Resetting(_) => StepResetting(s)
    case Cleaning => FinishCleanup(s)
  }

  // ------------------------------------------------------------------
  // I/O handlers, entered between other handlers
  // ------------------------------------------------------------------

  /** on_write. */
  function OnWrite(s: State, i: nat, n: nat, outcome: Outcome): State
    requires i < |s.flights|
  {
    var f := s.flights[i];
    var current := f.conn == s.seqs.conn;
    var t := s.(flights := s.flights[..i] + s.flights[i + 1..],
                ledger := Apply(s.ledger, CompleteBatch(Sizes(f.items), n)));
    var u := if current && outcome.Error? && f.run == s.seqs.current then Disconnect(t) else t;
    if !current then u
    else
      var v := u.(lanes := u.lanes.(active := None));
      var released := v.(bytes := v.bytes.(queue := Release(v.bytes.queue, f.bytes)));
      if outcome.OperationAborted? || f.run != s.seqs.current then released.(pc := Reporting(0, AfterAbort))
      else if outcome.Error? then
        v.(lanes := v.lanes.(tx := f.items + v.lanes.tx, writing := false), pc := Closing(Close, Done))
      else released.(pc := Reporting(0, AfterCompletion))
  }

  function Without(runs: seq<nat>, i: nat): seq<nat>
    requires i < |runs|
  {
    runs[..i] + runs[i + 1..]
  }

  /** finish_connect; it does not look whether a connection is up already. */
  function FinishConnect(s: State, i: nat): State
    requires i < |s.net.attempts|
  {
    var run, t := s.net.attempts[i], s.(net := s.net.(attempts := Without(s.net.attempts, i)));
    if run != s.seqs.current || s.life.stopping then t
    else
      t.(life := t.life.(connected := true), seqs := t.seqs.(socket := t.seqs.socket + 1), pc := Announcing(run))
  }

  /** A resolve, connect or handshake that failed; an aborted one says nothing. */
  function FailConnect(s: State, i: nat, aborted: bool): State
    requires i < |s.net.attempts|
  {
    var run, t := s.net.attempts[i], s.(net := s.net.(attempts := Without(s.net.attempts, i)));
    if aborted || run != s.seqs.current || s.life.stopping then t else t.(pc := Retrying(Done))
  }

  /** The retry timer's wait ends; even a stale one clears reconnect_pending_. */
  function Retry(s: State, i: nat, aborted: bool): State
    requires i < |s.net.retries|
  {
    var run, t := s.net.retries[i], s.(net := s.net.(retries := Without(s.net.retries, i), pending := false));
    if aborted || run != s.seqs.current || s.life.stopping then t
    else t.(net := t.net.(attempts := t.net.attempts + [run]))
  }

  datatype Event =
    | Write(data: seq<Byte>, kind: Kind, expected: Option<nat>)
    | Admitted                                        // the caller holding the mutex posts and returns
    | AdmissionThrows(entered: bool)                  // or leaves by an exception
    | Stop
    | Start
    | ResetStats
    | Strand(choice: bool)                            // next strand step; choice: initiation throws, policy retries
    | WriteCompleted(i: nat, n: nat, outcome: Outcome)
    | ConnectSucceeded(i: nat)
    | ConnectFailed(i: nat, aborted: bool)
    | RetryEnded(i: nat, aborted: bool)
    | ConnectionClosed(run: nat)                      // read error, connect timeout or receive overflow
    | IdleTimedOut(reconnect: bool)

  /** One atomic step; an event that is not enabled leaves the state alone. */
  function Step(s: State, e: Event): State {
    var locked := s.admitting.Some?;
    match e
    case Write(data, kind, expected) =>
      if !locked && Accepts(s, data, kind, expected) then Reserve(s, data, kind) else s
    case Admitted => if locked then Post(s) else s
    case AdmissionThrows(entered) => if locked then Abandon(s, entered) else s
    case Stop => if locked then s else RequestStop(s)
    case Start => if locked then s else RequestStart(s)
    case ResetStats => if locked then s else s.(ledger := Apply(s.ledger, Reset))
    case Strand(choice) => if locked && NeedsMutex(s.pc) then s else StrandStep(s, choice)
    case WriteCompleted(i, n, outcome) =>
      if !s.pc.Ready? || i >= |s.flights| || (locked && !outcome.Ok?) then s else OnWrite(s, i, n, outcome)
    case ConnectSucceeded(i) => if !s.pc.Ready? || i >= |s.net.attempts| || locked then s else FinishConnect(s, i)
    case ConnectFailed(i, aborted) => if !s.pc.Ready? || i >= |s.net.attempts| then s else FailConnect(s, i, aborted)
    case RetryEnded(i, aborted) => if !s.pc.Ready? || i >= |s.net.retries| then s else Retry(s, i, aborted)
    case ConnectionClosed(run) =>
      // A handler carries a run only once that run's strand part has begun.
      if !s.pc.Ready? || run != s.seqs.current || !(1 <= run <= s.seqs.begun) then s else s.(pc := Closing(Close, Done))
    case IdleTimedOut(reconnect) =>
      if !s.pc.Ready? || s.life.stopping || !s.life.connected then s else s.(pc := Closing(IdleExpiry(reconnect), Done))
  }

  function Reach(threshold: nat, events: seq<Event>): State
    decreases |events|
  {
    if events == [] then Initial(threshold)
    else Step(Reach(threshold, events[..|events| - 1]), events[|events| - 1])
  }
}
