/**
 Nothing the client accepted is stranded: while a connection is up its queue counter is
 exact, queued data has a write in flight or a handler about to start one, and
 backpressure has something that will lift it. A run must not give a connection up
 without discarding its queues, nor abort a write of the connection that is up.
 */
module ClientFlow {
  import opened Options
  import opened SendAccounting
  import opened SendHistory
  import opened SendFates
  import SendPublished
  import opened SendSettling
  import opened Octets
  import opened Queues
  import opened ClientModel
  import opened ClientPinning
  import opened ClientBytes
  import opened ClientOrder
  import opened ClientSettling

  // ------------------------------------------------------------------
  // Calm runs
  // ------------------------------------------------------------------

  /** schedule_retry finds a connection up and gives it up without discarding its queues. */
  predicate GivesUp(s: State, e: Event) {
    e.Strand? && s.pc.Retrying? && s.admitting.None? && s.life.connected
  }

  /** A write of the current connection number completes as aborted. */
  predicate Aborts(s: State, e: Event) {
    Completes(s, e) && e.outcome.OperationAborted? && s.flights[e.i].conn == s.seqs.conn
  }

  ghost predicate Calm(threshold: nat, events: seq<Event>) {
    forall k | 0 <= k < |events| ::
      !GivesUp(Reach(threshold, events[..k]), events[k]) && !Aborts(Reach(threshold, events[..k]), events[k])
  }

  // ------------------------------------------------------------------
  // What belongs to which connection
  // ------------------------------------------------------------------

  /** The strand is in the middle of a handler of the connection that is up. */
  predicate Mid(pc: Pc) {
    pc.Routing? || pc.Reporting? || pc.Rearming? || pc.Kicking? || pc.Announcing?
  }

  /** Flights, kicks and failed admissions of the current number exist only while it is up. */
  ghost predicate Tied(s: State) {
    && (forall i | 0 <= i < |s.flights| ::
          s.flights[i].conn <= s.seqs.conn
          && (s.flights[i].conn == s.seqs.conn ==> s.life.connected && s.flights[i].run == s.seqs.current))
    && (forall i | 0 <= i < |s.posted| && s.posted[i].KickWrite? ::
          s.posted[i].conn <= s.seqs.conn && (s.posted[i].conn == s.seqs.conn ==> s.life.connected))
    && (forall i | 0 <= i < |s.past.failed| :: Placed(s, s.past.failed[i]))
    && (Mid(s.pc) ==> s.life.connected)
  }

  lemma FlightSource(s: State, e: Event, i: nat)
    requires i < |Step(s, e).flights|
    ensures var t := Step(s, e);
            (exists j | 0 <= j < |s.flights| :: s.flights[j] == t.flights[i])
            || (s.pc.Initiating? && t.flights[i].conn == s.seqs.conn && t.flights[i].run == s.seqs.current
                && Context(t) == Context(s))
  {
    hide Apply, Accepts, Sizes, Release, StrandStep;
    var t := Step(s, e);
    if e.Strand? { StrandTraffic(s, e.choice); StrandContext(s, e.choice); }
    if t.flights == s.flights {
      assert s.flights[i] == t.flights[i];
    } else if e.WriteCompleted? {
      assert t.flights[i] == if i < e.i then s.flights[i] else s.flights[i + 1];
    } else if i < |s.flights| {
      assert s.flights[i] == t.flights[i];
    }
  }

  lemma KickSource(s: State, e: Event, i: nat)
    requires i < |Step(s, e).posted| && Step(s, e).posted[i].KickWrite?
    ensures var t := Step(s, e);
            (exists j | 0 <= j < |s.posted| :: s.posted[j] == t.posted[i])
            || (s.pc.Announcing? && t.posted[i].conn == s.seqs.conn && Context(t) == Context(s))
  {
    hide Apply, Accepts, Sizes, Release, StrandStep;
    var t := Step(s, e);
    if e.Strand? { StrandTraffic(s, e.choice); StrandContext(s, e.choice); }
    if i < |s.posted| && t.posted[i] == s.posted[i] {
    } else if i + 1 < |s.posted| && t.posted[i] == s.posted[i + 1] {
    }
  }

  lemma FailureSource(s: State, e: Event, i: nat)
    requires i < |Step(s, e).past.failed|
    ensures var t := Step(s, e);
            (exists j | 0 <= j < |s.past.failed| :: s.past.failed[j] == t.past.failed[i])
            || (s.admitting.Some? && t.past.failed[i] == s.admitting.value && Context(t) == Context(s))
  {
    hide Apply, Accepts, Sizes, Release, StrandStep;
    var t := Step(s, e);
    FailuresStay(s, e);
    if i < |s.past.failed| { assert t.past.failed[i] == s.past.failed[i]; }
  }

  lemma FailuresStay(s: State, e: Event)
    ensures Step(s, e).past.failed
            == s.past.failed + if e.AdmissionThrows? && s.admitting.Some? then [s.admitting.value] else []
  {
    hide Apply, Accepts, Sizes, Release, Bytes, GatherCount, CanBegin, Ids, Handoffs, DecideEnqueue, Transition;
  }

  /** Strand handlers in the middle of their work belong to the connection that is up. */
  lemma MidMoves(s: State, e: Event)
    requires AllPlaced(s) && Sourced(s) && Tied(s) && Runs(s)
    ensures var t := Step(s, e);
            Mid(t.pc) ==> t.life.connected
  {
    hide Apply, Accepts, Sizes, StrandStep, RequestStart, RequestStop, OnWrite, Sourced, AllPlaced, Runs;
    match e
    case Strand(choice) => MidStrand(s, choice);
    case Stop => MidStop(s);
    case Start => MidStart(s);
    case WriteCompleted(i, n, outcome) => if i < |s.flights| { MidOnWrite(s, i, n, outcome); }
    case _ =>
  }

  lemma MidStop(s: State)
    requires Mid(s.pc) ==> s.life.connected
    ensures var t := RequestStop(s);
            Mid(t.pc) ==> t.life.connected
  {
    hide Apply;
  }

  lemma MidStart(s: State)
    requires Mid(s.pc) ==> s.life.connected
    ensures var t := RequestStart(s);
            Mid(t.pc) ==> t.life.connected
  {
    hide Apply;
  }

  lemma MidOnWrite(s: State, i: nat, n: nat, outcome: Outcome)
    requires Tied(s) && i < |s.flights|
    ensures var t := OnWrite(s, i, n, outcome);
            t.pc == s.pc || t.pc.Closing? || (t.pc.Reporting? && (t.life.connected || s.pc.Reporting?))
  {
    hide Apply, Sizes, Release;
  }

  lemma MidStrand(s: State, choice: bool)
    requires AllPlaced(s) && Sourced(s) && Tied(s) && Runs(s)
    ensures var t := StrandStep(s, choice);
            Mid(t.pc) ==> t.life.connected
  {
    hide Apply, Sourced, AllPlaced, Runs, RunHandler, Bytes, GatherCount, CanBegin, Ids, Handoffs, DecideEnqueue,
      Release;
    if s.pc.Ready? { MidHandler(s); }
  }

  lemma MidHandler(s: State)
    requires AllPlaced(s) && Sourced(s) && s.pc.Ready?
    ensures var t := RunHandler(s); Mid(t.pc) ==> t.life.connected
  {
    hide Release;
    if s.posted != [] && Routes(s.posted[0]) {
      var a := s.posted[0].a;
      assert Known(s.past.admitted, a.item) && s.past.admitted[a.item.id - 1] == a;
      assert Placed(s, s.past.admitted[a.item.id - 1]);
    }
  }

  lemma TiedStep(s: State, e: Event)
    requires Runs(s) && LiveIsCurrent(s) && Sourced(s) && AllPlaced(s) && Tied(s)
    ensures Tied(Step(s, e))
  {
    hide Step, Numbered, Sourced, AllPlaced, StartRunsWithin;
    var t := Step(s, e);
    MidMoves(s, e);
    ConnectionMoves(s, e);
    forall i | 0 <= i < |t.flights|
      ensures t.flights[i].conn <= t.seqs.conn
              && (t.flights[i].conn == t.seqs.conn ==> t.life.connected && t.flights[i].run == t.seqs.current)
    {
      FlightSource(s, e, i);
    }
    forall i | 0 <= i < |t.posted| && t.posted[i].KickWrite?
      ensures t.posted[i].conn <= t.seqs.conn && (t.posted[i].conn == t.seqs.conn ==> t.life.connected)
    {
      KickSource(s, e, i);
    }
    forall i | 0 <= i < |t.past.failed| ensures Placed(t, t.past.failed[i]) {
      FailureSource(s, e, i);
    }
  }

  // ------------------------------------------------------------------
  // A client that is down holds nothing
  // ------------------------------------------------------------------

  const NO_LANES := Lanes([], [], None, false)

  predicate Clean(s: State) {
    s.lanes == NO_LANES && s.bytes.queue == 0 && !s.bytes.active
  }

  /** Once a loss has been dealt with nothing is queued or counted; a cleanup has emptied the queues. */
  predicate Lowered(s: State) {
    && (!s.life.connected && !Discards(s.pc) ==> Clean(s))
    && (s.pc.Cleaning? ==> s.lanes == NO_LANES && s.bytes.queue == 0 && (s.life.stopping || !s.life.connected))
  }

  lemma LoweredStep(s: State, e: Event)
    requires Ground(s) && Tied(s) && Lowered(s) && !GivesUp(s, e)
    ensures Lowered(Step(s, e))
  {
    hide Ground, Tied, Apply, Accepts, Sizes, StrandStep, RequestStart, RequestStop, OnWrite, Reserve, Lowered;
    match e
    case Strand(choice) => if Step(s, e) != s { LoweredStrand(s, choice); }
    case Stop => if s.admitting.None? { LoweredStop(s); }
    case Start => if s.admitting.None? { LoweredStart(s); }
    case WriteCompleted(i, n, outcome) => if s.pc.Ready? && i < |s.flights| { LoweredOnWrite(s, i, n, outcome); }
    case Write(data, kind, expected) => LoweredWrite(s, data, kind, expected);
    case _ => LoweredFrame(s, Step(s, e));
  }

  lemma LoweredFrame(s: State, t: State)
    requires Lowered(s) && t.lanes == s.lanes && t.bytes == s.bytes && t.life.stopping == s.life.stopping
    requires (s.life.connected ==> t.life.connected) && (Discards(s.pc) ==> Discards(t.pc))
    requires t.pc.Cleaning? ==> t.pc == s.pc && t.life.connected == s.life.connected
    ensures Lowered(t)
  {
  }

  lemma LoweredWrite(s: State, data: seq<Byte>, kind: Kind, expected: Option<nat>)
    requires Lowered(s)
    ensures Lowered(Step(s, Write(data, kind, expected)))
  {
    hide MayReserve, MayTry;
  }

  lemma LoweredStop(s: State)
    requires Lowered(s)
    ensures Lowered(RequestStop(s))
  {
    hide Apply;
  }

  lemma LoweredStart(s: State)
    requires Ground(s) && Lowered(s)
    ensures Lowered(RequestStart(s))
  {
    hide Apply, LiveIsCurrent, Sourced, WirePinned, Within, AllPlaced, StopsAhead, Sorted, StartRunsWithin;
  }

  lemma LoweredOnWrite(s: State, i: nat, n: nat, outcome: Outcome)
    requires Tied(s) && Lowered(s) && s.pc.Ready? && i < |s.flights|
    ensures Lowered(OnWrite(s, i, n, outcome))
  {
    hide Apply, Sizes, Release;
  }

  lemma LoweredStrand(s: State, choice: bool)
    requires Ground(s) && Tied(s) && Lowered(s) && !(s.pc.Retrying? && s.life.connected)
    ensures Lowered(StrandStep(s, choice))
  {
    hide Ground, Tied, Apply, RunHandler, Bytes, GatherCount, CanBegin, Ids, Handoffs, DecideEnqueue, Release;
    if s.pc.Ready? {
      LoweredHandler(s);
    } else {
      DownShape(s);
    }
  }

  lemma DownShape(s: State)
    requires Ground(s) && Tied(s)
    ensures s.pc.Beginning? || s.pc.Initiating? || Mid(s.pc) ==> s.life.connected
    ensures s.pc.Starting? || s.pc.Resetting? || s.pc.Leaving? || s.pc.Discarding? ==> !s.life.connected
  {
    hide LiveIsCurrent, Sourced, WirePinned, Within, AllPlaced, StopsAhead, Sorted, StartRunsWithin;
  }

  lemma LoweredHandler(s: State)
    requires Ground(s) && Tied(s) && Lowered(s) && s.pc.Ready?
    ensures Lowered(RunHandler(s))
  {
    hide Ground, Release;
    if s.posted != [] {
      if Up(s) { NoCleanupWhileUp(s); }
      if Routes(s.posted[0]) { RouteNeedsUp(s); }
    }
  }

  lemma RouteNeedsUp(s: State)
    requires Ground(s) && s.posted != [] && Routes(s.posted[0])
    ensures s.posted[0].a.conn == s.seqs.conn ==> s.life.connected
  {
    hide LiveIsCurrent, Runs, WirePinned, Within, Sorted, StopsAhead;
    var a := s.posted[0].a;
    assert Known(s.past.admitted, a.item) && s.past.admitted[a.item.id - 1] == a;
    assert Placed(s, s.past.admitted[a.item.id - 1]);
  }

  // ------------------------------------------------------------------
  // While a connection is up
  // ------------------------------------------------------------------

  /** Bytes that posted try-writes of a connection number have reserved. */
  function TryBytes(posted: seq<Handler>, conn: nat): nat {
    if posted == [] then 0
    else
      (if posted[0].RouteTry? && posted[0].a.conn == conn then |posted[0].a.item.data| else 0)
      + TryBytes(posted[1..], conn)
  }

  lemma {:induction false} TryBytesSnoc(posted: seq<Handler>, h: Handler, conn: nat)
    ensures TryBytes(posted + [h], conn)
            == TryBytes(posted, conn) + if h.RouteTry? && h.a.conn == conn then |h.a.item.data| else 0
  {
    if posted == [] {
      assert [h][1..] == [] && posted + [h] == [h];
    } else {
      assert (posted + [h])[1..] == posted[1..] + [h];
      TryBytesSnoc(posted[1..], h, conn);
    }
  }

  lemma TryBytesPop(posted: seq<Handler>, conn: nat)
    requires posted != []
    ensures TryBytes(posted, conn)
            == (if posted[0].RouteTry? && posted[0].a.conn == conn then |posted[0].a.item.data| else 0)
               + TryBytes(posted[1..], conn)
  {
  }

  lemma {:induction false} NoTryBytes(posted: seq<Handler>, conn: nat)
    requires forall i | 0 <= i < |posted| && Routes(posted[i]) :: posted[i].a.conn != conn
    ensures TryBytes(posted, conn) == 0
  {
    if posted != [] {
      NoTryBytes(posted[1..], conn);
    }
  }

  /** Bytes that try-admissions of a connection number left reserved when they threw. */
  function LeakedOn(failed: seq<Admission>, conn: nat): nat {
    if failed == [] then 0
    else
      var a := failed[|failed| - 1];
      LeakedOn(failed[..|failed| - 1], conn) + if a.item.kind == Try && a.conn == conn then |a.item.data| else 0
  }

  lemma LeakedOnSnoc(failed: seq<Admission>, a: Admission, conn: nat)
    ensures LeakedOn(failed + [a], conn)
            == LeakedOn(failed, conn) + if a.item.kind == Try && a.conn == conn then |a.item.data| else 0
  {
    assert (failed + [a])[..|failed|] == failed;
  }

  lemma {:induction false} NothingLeakedOn(failed: seq<Admission>, conn: nat)
    requires forall i | 0 <= i < |failed| :: failed[i].conn != conn
    ensures LeakedOn(failed, conn) == 0
  {
    if failed != [] {
      NothingLeakedOn(failed[..|failed| - 1], conn);
    }
  }

  function AdmittingTry(s: State): nat {
    if s.admitting.Some? && s.admitting.value.item.kind == Try then |s.admitting.value.item.data| else 0
  }

  /** The batch on the wire. */
  function InFlight(s: State): seq<Item> {
    if s.lanes.active.Some? then s.lanes.active.value else []
  }

  /** The queue counter is exactly what is queued, in flight or posted, and what throwing admissions left. */
  ghost predicate Exact(s: State) {
    s.bytes.queue
    == Bytes(Taken(s.pc)) + Bytes(s.lanes.tx) + Bytes(InFlight(s)) + TryBytes(s.posted, s.seqs.conn) + AdmittingTry(s)
       + LeakedOn(s.past.failed, s.seqs.conn)
  }

  predicate Current(s: State, i: nat) {
    i < |s.flights| && s.flights[i].conn == s.seqs.conn
  }

  predicate Reports(pc: Pc) {
    pc.Reporting? || pc.Rearming? || pc.Kicking?
  }

  /** The strand is inside the handler of a completion. */
  predicate Completing(pc: Pc) {
    (Reports(pc) || pc.Resuming?) && pc.k.AfterCompletion?
  }

  /** Continuations are what their handlers left. */
  predicate Continues(pc: Pc) {
    && (Reports(pc) ==> pc.k.AfterRoute? || pc.k.AfterCompletion?)
    && (pc.Reporting? ==> pc.extra == 0)
    && (pc.Resuming? ==> !pc.k.AfterAbort?)
    && (pc.Writing? || pc.Beginning? || pc.Initiating? ==> pc.k.Done? || pc.k.AfterRoute?)
  }

  /** One write at a time, and writing_ says so. */
  ghost predicate Carried(s: State) {
    && (forall i: nat | Current(s, i) ::
          s.lanes.active == Some(s.flights[i].items) && s.flights[i].bytes == Bytes(s.flights[i].items))
    && (forall i: nat, j: nat | Current(s, i) && Current(s, j) :: i == j)
    && (s.lanes.active.Some? ==>
          s.lanes.writing && ((exists i: nat :: Current(s, i))
                              || (s.pc.Initiating? && s.lanes.active == Some(s.pc.batch))))
    && (s.pc.Initiating? ==> s.lanes.active == Some(s.pc.batch) && forall i: nat :: !Current(s, i))
    && (s.pc.Beginning? || Completing(s.pc) ==> s.lanes.writing)
    && (s.pc.Beginning? || s.pc.Writing? || Completing(s.pc) ==> s.lanes.active.None?)
    && (s.lanes.writing ==> s.lanes.active.Some? || s.pc.Beginning? || s.pc.Writing? || Completing(s.pc))
    && Continues(s.pc)
  }

  /** The running handler will look at tx before it returns. */
  predicate WillLook(pc: Pc) {
    pc.Writing? || ((Reports(pc) || pc.Resuming?) && pc.k.AfterRoute?)
  }

  /** The strand is about to choose the next batch. */
  predicate Choosing(pc: Pc) {
    pc.Writing? || ((pc.Rearming? || pc.Kicking? || pc.Resuming?) && pc.k.AfterCompletion?)
  }

  /** What throwing try-admissions may leave in the counter without harm. */
  predicate Bearable(b: Bounds, leak: nat) {
    leak < b.high && leak <= b.low
  }

  /** Queued data is about to move, and backpressure has something to lift it unless the leak is unbearable. */
  ghost predicate Moving(s: State) {
    && (s.lanes.tx != [] && !s.lanes.writing ==> WillLook(s.pc))
    && (s.bytes.active ==>
          || s.lanes.tx != [] || TryBytes(s.posted, s.seqs.conn) > 0 || (s.lanes.writing && !Choosing(s.pc))
          || !Bearable(s.bounds, LeakedOn(s.past.failed, s.seqs.conn) + AdmittingTry(s)))
  }

  /** Whatever is queued on the current number is still waiting for its handoff. */
  ghost predicate Waits(s: State) {
    forall x | x in Backlog(s) && From(s.past.admitted, x, s.seqs.conn) ::
      x.id <= |s.ledger.records| && s.ledger.records[x.id - 1].status.Waiting?
  }

  ghost predicate Flows(s: State) {
    Up(s) && !s.pc.Closing? ==> Carried(s) && Exact(s) && Moving(s) && Waits(s)
  }

  // ------------------------------------------------------------------
  // Coming up
  // ------------------------------------------------------------------

  lemma ComesUp(s: State, e: Event)
    requires Runs(s) && !Up(s) && Up(Step(s, e))
    ensures e.ConnectSucceeded? && !s.life.connected && s.pc.Ready?
    ensures var t := Step(s, e);
            && t == s.(net := t.net, life := t.life, seqs := s.seqs.(socket := t.seqs.socket), pc := t.pc)
            && t.pc.Announcing?
  {
    hide Apply, Accepts, StrandStep, Sizes, StartRunsWithin, Release, RequestStart, RequestStop;
    match e
    case Strand(choice) => StrandNeverComesUp(s, choice);
    case Stop => StopEnds(s); StopNeverComesUp(s);
    case Start => StartEnds(s);
    case _ =>
  }

  lemma StopNeverComesUp(s: State)
    ensures RequestStop(s).life.stopping || RequestStop(s) == s
  {
    hide Apply;
  }

  lemma StrandNeverComesUp(s: State, choice: bool)
    ensures Up(StrandStep(s, choice)) ==> Up(s)
  {
    hide Apply;
    StrandContext(s, choice);
    if NeedsMutex(s.pc) { MutexContext(s, choice); }
  }

  lemma FlowsFresh(s: State, e: Event)
    requires Ground(s) && Tied(s) && Lowered(s) && !Up(s) && Up(Step(s, e)) && Ground(Step(s, e)) && Tied(Step(s, e))
    ensures Flows(Step(s, e))
  {
    hide Step, Runs, LiveIsCurrent, Sourced, WirePinned, Within, StopsAhead, Sorted, TryBytes, LeakedOn, Bytes,
      Queued, Pick;
    var t := Step(s, e);
    assert Runs(s);
    ComesUp(s, e);
    NoBytes();
    UnusedNow(s);
    NoTryBytes(s.posted, s.seqs.conn);
    NothingLeakedOn(s.past.failed, s.seqs.conn);
    NoAdmission(s);
    assert Clean(s);
    assert Carried(t) && Exact(t) && Moving(t) && Waits(t);
  }

  lemma NoAdmission(s: State)
    requires Ground(s) && !s.life.connected
    ensures s.admitting.None?
  {
    hide Runs, Sourced, WirePinned, Within, StopsAhead, Sorted, AllPlaced;
  }

  /** While nothing is up, nothing is of the current number. */
  lemma UnusedNow(s: State)
    requires Ground(s) && Tied(s) && !s.life.connected
    ensures forall i | 0 <= i < |s.past.admitted| :: s.past.admitted[i].conn != s.seqs.conn
    ensures forall i | 0 <= i < |s.past.failed| :: s.past.failed[i].conn != s.seqs.conn
    ensures forall i | 0 <= i < |s.flights| :: s.flights[i].conn != s.seqs.conn
    ensures forall i | 0 <= i < |s.posted| && Routes(s.posted[i]) :: s.posted[i].a.conn != s.seqs.conn
  {
    hide Runs, LiveIsCurrent, WirePinned, Within, StopsAhead, Sorted;
    forall i | 0 <= i < |s.posted| && Routes(s.posted[i]) ensures s.posted[i].a.conn != s.seqs.conn {
      var a := s.posted[i].a;
      assert Known(s.past.admitted, a.item) && s.past.admitted[a.item.id - 1] == a;
      assert Placed(s, s.past.admitted[a.item.id - 1]);
    }
  }

  // ------------------------------------------------------------------
  // Staying up
  // ------------------------------------------------------------------

  ghost predicate Smooth(s: State) {
    Carried(s) && Exact(s) && Moving(s)
  }

  /** pc values that carry nothing and promise nothing. */
  predicate Neutral(pc: Pc) {
    pc.Ready? || pc.Retrying? || pc.Announcing? || pc.Routing? || (pc.Resuming? && pc.k.Done?)
  }

  lemma SmoothFrame(s: State, t: State)
    requires Smooth(s) && t.lanes == s.lanes && t.bytes == s.bytes && t.flights == s.flights && t.bounds == s.bounds
    requires t.seqs.conn == s.seqs.conn && t.past.failed == s.past.failed && t.admitting == s.admitting
    requires TryBytes(t.posted, s.seqs.conn) == TryBytes(s.posted, s.seqs.conn)
    requires t.pc == s.pc || (Neutral(s.pc) && Neutral(t.pc))
    ensures Smooth(t)
  {
    hide TryBytes, LeakedOn, Bytes;
    assert forall i: nat :: Current(t, i) <==> Current(s, i);
  }

  lemma SmoothWrite(s: State, data: seq<Byte>, kind: Kind, expected: Option<nat>)
    requires Smooth(s) && Up(s) && !s.pc.Closing?
    ensures Smooth(Step(s, Write(data, kind, expected)))
  {
    hide TryBytes, LeakedOn, Bytes;
    var t := Step(s, Write(data, kind, expected));
    assert forall i: nat :: Current(t, i) <==> Current(s, i);
  }

  lemma SmoothPost(s: State)
    requires Ground(s) && Smooth(s) && s.admitting.Some? && s.admitting.value.item.data != []
    ensures Smooth(Post(s))
  {
    hide Apply, TryBytes, LeakedOn, Bytes, Runs, Sourced, WirePinned, Within, StopsAhead, Sorted, AllPlaced;
    var t := Post(s);
    TryBytesSnoc(s.posted, t.posted[|s.posted|], s.seqs.conn);
    assert forall i: nat :: Current(t, i) <==> Current(s, i);
  }

  lemma SmoothAbandon(s: State, entered: bool)
    requires Ground(s) && Smooth(s) && s.admitting.Some?
    ensures Smooth(Abandon(s, entered))
  {
    hide Apply, TryBytes, LeakedOn, Bytes, Runs, Sourced, WirePinned, Within, StopsAhead, Sorted, AllPlaced;
    var t := Abandon(s, entered);
    LeakedOnSnoc(s.past.failed, s.admitting.value, s.seqs.conn);
    assert forall i: nat :: Current(t, i) <==> Current(s, i);
  }

  /** A completion: of another connection it only leaves the flights; of this one it releases its bytes. */
  lemma SmoothOnWrite(s: State, i: nat, n: nat, outcome: Outcome)
    requires Smooth(s) && Tied(s) && Up(s) && s.pc.Ready? && i < |s.flights|
    requires s.flights[i].conn == s.seqs.conn ==> !outcome.OperationAborted?
    requires OnWrite(s, i, n, outcome).life.connected
    ensures Smooth(OnWrite(s, i, n, outcome))
  {
    hide Apply, Sizes, TryBytes, LeakedOn, Bytes, Tied;
    var t := OnWrite(s, i, n, outcome);
    TiedFlight(s, i);
    NoBytes();
    forall j: nat ensures Current(t, j) <==> Current(s, if j < i then j else j + 1) {
      if j < |t.flights| { assert t.flights[j] == s.flights[if j < i then j else j + 1]; }
    }
    if s.flights[i].conn == s.seqs.conn {
      assert Current(s, i);
    } else {
      SmoothShift(s, t, i);
    }
  }

  lemma TiedFlight(s: State, i: nat)
    requires Tied(s) && i < |s.flights|
    ensures s.flights[i].conn == s.seqs.conn ==> s.flights[i].run == s.seqs.current
  {
  }

  lemma SmoothShift(s: State, t: State, i: nat)
    requires Smooth(s) && i < |s.flights| && s.flights[i].conn != s.seqs.conn
             && t.flights == s.flights[..i] + s.flights[i + 1..]
    requires t == s.(flights := t.flights, ledger := t.ledger)
    ensures Smooth(t)
  {
    hide TryBytes, LeakedOn, Bytes;
    forall j: nat ensures Current(t, j) <==> Current(s, if j < i then j else j + 1) {
      if j < |t.flights| { assert t.flights[j] == s.flights[if j < i then j else j + 1]; }
    }
    if exists k: nat :: Current(s, k) {
      var k: nat :| Current(s, k);
      assert Current(t, if k < i then k else k - 1);
    }
  }

  lemma SmoothRouting(s: State)
    requires Ground(s) && Smooth(s) && Up(s) && s.pc.Routing?
    ensures Smooth(StepRouting(s))
  {
    hide Apply, TryBytes, LeakedOn, Bytes, LiveIsCurrent, Sourced, WirePinned, AllPlaced, StopsAhead, StartRunsWithin,
      RunBytes;
    NeverRejected(s);
    BytesSnoc(s.lanes.tx, s.pc.item);
    var t := StepRouting(s);
    assert forall i: nat :: Current(t, i) <==> Current(s, i);
  }

  lemma SmoothReporting(s: State)
    requires Within(s) && Smooth(s) && Up(s) && s.pc.Reporting?
    ensures Smooth(StepReporting(s))
  {
    hide TryBytes, LeakedOn, Bytes, RunBytes, LeakedInRun;
    BytesConcat(s.lanes.tx, s.lanes.pending);
    NoBytes();
    var t := StepReporting(s);
    assert forall i: nat :: Current(t, i) <==> Current(s, i);
  }

  lemma SmoothRearming(s: State)
    requires Smooth(s) && s.pc.Rearming?
    ensures Smooth(StepRearming(s))
  {
    hide TryBytes, LeakedOn, Bytes;
    NoBytes();
    var t := StepRearming(s);
    assert forall i: nat :: Current(t, i) <==> Current(s, i);
  }

  lemma SmoothOnward(s: State, choice: bool)
    requires Smooth(s) && Up(s) && s.life.link.Connected? && (s.pc.Kicking? || s.pc.Resuming?)
    ensures Smooth(StrandStep(s, choice))
  {
    hide TryBytes, LeakedOn, Bytes;
    var t := StrandStep(s, choice);
    assert forall i: nat :: Current(t, i) <==> Current(s, i);
  }

  lemma SmoothWriting(s: State)
    requires Smooth(s) && Up(s) && s.life.link.Connected? && s.pc.Writing?
    ensures Smooth(StepWriting(s))
  {
    hide TryBytes, LeakedOn, Bytes, GatherFrom;
    NoBytes();
    var t, tx, g := StepWriting(s), s.lanes.tx, GatherCount(s.lanes.tx);
    BytesConcat(tx[..g], tx[g..]);
    assert tx == tx[..g] + tx[g..];
    assert forall i: nat :: Current(t, i) <==> Current(s, i);
  }

  lemma SmoothBeginning(s: State)
    requires Smooth(s) && Up(s) && s.pc.Beginning? && CanBegin(s.ledger.records, Ids(s.pc.batch))
    ensures Smooth(StepBeginning(s))
  {
    hide Apply, TryBytes, LeakedOn, Bytes, CanBegin, Ids, Handoffs;
    NoBytes();
    var t := StepBeginning(s);
    assert forall i: nat :: Current(t, i) <==> Current(s, i);
  }

  lemma SmoothInitiating(s: State)
    requires Smooth(s) && Up(s) && s.pc.Initiating?
    ensures Smooth(StepInitiating(s, false))
  {
    hide TryBytes, LeakedOn, Bytes;
    NoBytes();
    var t := StepInitiating(s, false);
    assert Current(t, |s.flights|);
    assert forall i: nat | i < |s.flights| :: t.flights[i] == s.flights[i] && (Current(t, i) ==> Current(s, i));
  }

  lemma SmoothHandler(s: State)
    requires Ground(s) && Tied(s) && Smooth(s) && Up(s) && s.pc.Ready?
    ensures Smooth(RunHandler(s))
  {
    hide Ground, Tied, TryBytes, LeakedOn, Bytes, Release, Smooth;
    if s.posted != [] {
      var t := RunHandler(s);
      NoCleanupWhileUp(s);
      NoStartWhileUp(s);
      LinkIsUp(s);
      TryBytesPop(s.posted, s.seqs.conn);
      match s.posted[0]
      case RouteTry(a) =>
        if a.conn == s.seqs.conn {
          RouteIsCurrent(s);
          SmoothTry(s, t, a.item);
        } else {
          SmoothFrame(s, t);
        }
      case RouteWrite(a) => SmoothWriteHandler(s, t);
      case KickWrite(_, _) => SmoothKick(s, t);
    }
  }

  /** A run whose strand part has not begun has no connection up. */
  lemma NoStartWhileUp(s: State)
    requires Ground(s) && Up(s) && s.pc.Ready? && s.posted != []
    ensures !s.posted[0].StartRun?
  {
    hide LiveIsCurrent, Sourced, WirePinned, AllPlaced, Within, Sorted, StopsAhead;
  }

  lemma SmoothWriteHandler(s: State, t: State)
    requires Smooth(s) && s.pc.Ready? && (t.pc.Ready? || t.pc.Routing?) && t.lanes == s.lanes && t.flights == s.flights
    requires t.bytes == s.bytes.(inflight := t.bytes.inflight) && t.bounds == s.bounds && t.seqs == s.seqs
    requires t.past == s.past && t.admitting == s.admitting
             && TryBytes(t.posted, s.seqs.conn) == TryBytes(s.posted, s.seqs.conn)
    ensures Smooth(t)
  {
    hide TryBytes, LeakedOn, Bytes;
    assert forall i: nat :: Current(t, i) <==> Current(s, i);
  }

  lemma SmoothTry(s: State, t: State, item: Item)
    requires Smooth(s) && s.pc.Ready? && t.pc == Reporting(0, AfterRoute) && t.flights == s.flights
             && t.bytes == s.bytes
    requires t.lanes == s.lanes.(tx := s.lanes.tx + [item]) && t.bounds == s.bounds && t.seqs == s.seqs
    requires t.past == s.past && t.admitting == s.admitting
    requires TryBytes(s.posted, s.seqs.conn) == |item.data| + TryBytes(t.posted, s.seqs.conn)
    ensures Smooth(t)
  {
    hide TryBytes, LeakedOn, Bytes;
    BytesSnoc(s.lanes.tx, item);
    assert forall i: nat :: Current(t, i) <==> Current(s, i);
  }

  lemma SmoothKick(s: State, t: State)
    requires Smooth(s) && s.pc.Ready? && t.lanes == s.lanes && t.flights == s.flights && t.bytes == s.bytes
    requires t.pc == s.pc || (t.pc == Writing(Done) && !s.lanes.writing)
    requires t.bounds == s.bounds && t.seqs == s.seqs && t.past == s.past && t.admitting == s.admitting
    requires TryBytes(t.posted, s.seqs.conn) == TryBytes(s.posted, s.seqs.conn)
    ensures Smooth(t)
  {
    hide TryBytes, LeakedOn, Bytes;
    assert forall i: nat :: Current(t, i) <==> Current(s, i);
  }

  // ------------------------------------------------------------------
  // Requests that wait
  // ------------------------------------------------------------------

  /** Everything the flow rests on. */
  ghost predicate Base(s: State) {
    && Ground(s) && Tied(s) && Lowered(s) && AcceptedInOrder(s) && Marked(s) && FlightsWired(s) && Pinned(s)
    && (!s.life.stopping ==> InOrder(s, Plain) && InOrder(s, Try))
    && (s.admitting.Some? ==> s.admitting.value.item.data != [])
  }

  /** What is in flight was handed over. */
  ghost predicate FlightsWired(s: State) {
    && (forall i, k | 0 <= i < |s.flights| && 0 <= k < |s.flights[i].items| ::
          HasItem(WireItems(s.past.wire), s.flights[i].items[k].id))
    && (s.pc.Initiating? ==> forall k | 0 <= k < |s.pc.batch| :: HasItem(WireItems(s.past.wire), s.pc.batch[k].id))
  }

  lemma FlightsWiredStep(s: State, e: Event)
    requires FlightsWired(s)
    ensures FlightsWired(Step(s, e))
  {
    hide Step, HasItem, WireItems;
    var t := Step(s, e);
    WireGrows(s, e);
    InitiatingMoves(s, e);
    if t.pc.Initiating? {
      forall k | 0 <= k < |t.pc.batch| ensures HasItem(WireItems(t.past.wire), t.pc.batch[k].id) {
        if t.pc == s.pc {
          HasItemStill(WireItems(s.past.wire), WireItems(t.past.wire), t.pc.batch[k].id);
        } else {
          BatchIsWired(s, e, k);
        }
      }
    }
    forall i, k | 0 <= i < |t.flights| && 0 <= k < |t.flights[i].items|
      ensures HasItem(WireItems(t.past.wire), t.flights[i].items[k].id)
    {
      FlightsMove(s, e, i);
      HasItemStill(WireItems(s.past.wire), WireItems(t.past.wire), t.flights[i].items[k].id);
    }
  }

  lemma BatchIsWired(s: State, e: Event, k: nat)
    requires s.pc.Beginning? && Step(s, e).pc.Initiating? && Step(s, e).pc.batch == s.pc.batch && k < |s.pc.batch|
    ensures HasItem(WireItems(Step(s, e).past.wire), s.pc.batch[k].id)
  {
    hide Apply, Accepts, Sizes, Bytes, Release, DecideEnqueue, GatherCount, CanBegin, Ids, HasItem;
    var t := Step(s, e);
    assert t.past.wire == s.past.wire + Handoffs(s.pc.batch, s.seqs);
    assert WireItems(t.past.wire)[|s.past.wire| + k] == s.pc.batch[k];
    FoundAt(WireItems(t.past.wire), |s.past.wire| + k);
  }

  lemma FoundAt(items: seq<Item>, i: nat)
    requires i < |items|
    ensures HasItem(items, items[i].id)
  {
  }

  /** A request of the current number is queued once. */
  lemma BacklogOnce(s: State, i: nat, j: nat)
    requires Ground(s) && AcceptedInOrder(s) && InOrder(s, Plain) && InOrder(s, Try)
    requires i < j < |Backlog(s)| && From(s.past.admitted, Backlog(s)[i], s.seqs.conn)
    ensures Backlog(s)[i].id != Backlog(s)[j].id
  {
    hide Runs, LiveIsCurrent, WirePinned, Within, AllPlaced, StopsAhead, Sorted, Sourced, Pick, PickWire,
      PickAccepted, Backlog, Count;
    var x, all, conn := Backlog(s)[i], Backlog(s), s.seqs.conn;
    forall k | 0 <= k < |all| ensures Known(s.past.admitted, all[k]) { BacklogIsKnown(s, k); }
    assert x.kind == Plain || x.kind == Try;
    PickCount(s.past.admitted, all, x, conn);
    AcceptedOnce(s.past.accepted, x.kind, conn, x.id);
    CountConcat(PickWire(s.past.wire, x.kind, conn), Pick(s.past.admitted, all, x.kind, conn), x.id);
    if all[j].id == x.id { CountTwice(all, i, j); }
  }

  /** No request is touched but those of a batch that begins or completes. */
  lemma RecordStays(s: State, e: Event, id: nat)
    requires Ground(s) && Up(s) && Up(Step(s, e)) && Step(s, e).seqs.conn == s.seqs.conn
    requires 1 <= id <= |s.ledger.records|
    requires Completes(s, e) ==> forall k | 0 <= k < |s.flights[e.i].items| :: s.flights[e.i].items[k].id != id
    requires e.Strand? && s.pc.Beginning? ==> id !in Ids(s.pc.batch)
    ensures id <= |Step(s, e).ledger.records| && Step(s, e).ledger.records[id - 1] == s.ledger.records[id - 1]
  {
    hide Ground, Apply, Accepts, StrandStep, OnWrite, RequestStart, RequestStop, Sizes;
    match e
    case Strand(choice) => if Step(s, e) != s { RecordStaysStrand(s, choice, id); }
    case Admitted => if s.admitting.Some? { AdmitAppends(s.ledger, |s.admitting.value.item.data|); }
    case AdmissionThrows(_) =>
      if s.admitting.Some? { NumberedHere(s); AdmitRollback(s.ledger, |s.admitting.value.item.data|); }
    case ResetStats => ResetKeeps(s.ledger);
    case Start => StartEnds(s);
    case Stop => StopEnds(s);
    case WriteCompleted(i, n, outcome) =>
      if Completes(s, e) { RecordStaysDone(s, i, n, outcome, id); }
    case _ =>
  }

  lemma NumberedHere(s: State)
    requires Ground(s)
    ensures s.admitting.Some? ==> s.admitting.value.item.id == |s.ledger.records| + 1
  {
    hide Runs, WirePinned, Within, AllPlaced, StopsAhead, Sorted, Sourced;
  }

  lemma AdmitAppends(h: History, n: nat)
    ensures Apply(h, Admit(n, None)).records == h.records + [Record(n, h.epoch, None, Waiting)]
  {
  }

  lemma RecordStaysDone(s: State, i: nat, n: nat, outcome: Outcome, id: nat)
    requires Up(s) && i < |s.flights| && OnWrite(s, i, n, outcome).seqs.conn == s.seqs.conn
             && 1 <= id <= |s.ledger.records|
    requires forall k | 0 <= k < |s.flights[i].items| :: s.flights[i].items[k].id != id
    ensures var rs := OnWrite(s, i, n, outcome).ledger.records;
            id <= |rs| && rs[id - 1] == s.ledger.records[id - 1]
  {
    hide CompleteAll, Release;
    CompleteAllSkips(s.ledger.records, Sizes(s.flights[i].items), n, id);
  }

  lemma RecordStaysStrand(s: State, choice: bool, id: nat)
    requires Ground(s) && Up(s) && StrandStep(s, choice).seqs.conn == s.seqs.conn && 1 <= id <= |s.ledger.records|
    requires s.pc.Beginning? ==> id !in Ids(s.pc.batch)
    ensures var rs := StrandStep(s, choice).ledger.records;
            id <= |rs| && rs[id - 1] == s.ledger.records[id - 1]
  {
    hide Runs, LiveIsCurrent, WirePinned, AllPlaced, StopsAhead, Sorted, Sourced, RunHandler, Bytes, GatherCount,
      DecideEnqueue, Handoffs;
    if s.pc.Routing? { NeverRejected(s); }
    if s.pc.Ready? { HandlerKeepsLedger(s); }
  }

  lemma HandlerKeepsLedger(s: State)
    ensures RunHandler(s).ledger == s.ledger
  {
    hide Release;
  }

  /** The item is somewhere in the backlog. */
  predicate Listed(s: State, x: Item) {
    x in Taken(s.pc) || x in s.lanes.tx || x in s.lanes.pending || x in Held(s.pc) || x in Queued(s.posted)
  }

  lemma ListedBacklog(s: State, x: Item)
    ensures Listed(s, x) <==> x in Backlog(s)
  {
    hide Queued;
  }

  /** Nothing joins the backlog but what is accepted. */
  lemma BacklogMoves(s: State, e: Event, x: Item)
    requires Up(s) && Up(Step(s, e)) && Step(s, e).seqs.conn == s.seqs.conn && x in Backlog(Step(s, e))
    ensures x in Backlog(s) || (e.Admitted? && s.admitting.Some? && x == s.admitting.value.item)
  {
    hide Apply, Accepts, StrandStep, OnWrite, RequestStart, RequestStop, Queued, Backlog;
    ListedBacklog(s, x);
    ListedBacklog(Step(s, e), x);
    match e
    case Strand(choice) => if Step(s, e) != s { ListedStrand(s, choice, x); }
    case Admitted => if s.admitting.Some? { QueuedSnoc(s.posted, Post(s).posted[|s.posted|]); }
    case Start => StartEnds(s);
    case Stop => StopEnds(s);
    case WriteCompleted(i, n, outcome) =>
      if s.pc.Ready? && i < |s.flights| && Step(s, e) != s { OnWriteKeeps(s, i, n, outcome); }
    case _ =>
  }

  lemma ListedStrand(s: State, choice: bool, x: Item)
    requires Listed(StrandStep(s, choice), x)
    ensures Listed(s, x)
  {
    hide Listed, Apply, RunHandler;
    match s.pc
    case Ready => ListedHandler(s, x);
    case Writing(_) => ListedWriting(s, x);
    case Beginning(_, _) => ListedWriting(s, x);
    case Announcing(_) => ListedAnnouncing(s, x);
    case _ => ListedRest(s, choice, x);
  }

  lemma ListedHandler(s: State, x: Item)
    requires s.pc.Ready? && Listed(RunHandler(s), x)
    ensures Listed(s, x)
  {
    hide Queued, Release;
    if s.posted != [] { QueuedPop(s.posted); }
  }

  lemma ListedWriting(s: State, x: Item)
    ensures s.pc.Writing? && Listed(StepWriting(s), x) ==> Listed(s, x)
    ensures s.pc.Beginning? && Listed(StepBeginning(s), x) ==> Listed(s, x)
  {
    hide Apply, Queued, GatherFrom, CanBegin, Ids, Handoffs;
  }

  lemma ListedAnnouncing(s: State, x: Item)
    requires s.pc.Announcing? && Listed(StepAnnouncing(s), x)
    ensures Listed(s, x)
  {
    hide Queued;
    QueuedSnoc(s.posted, KickWrite(s.pc.run, s.seqs.conn));
  }

  lemma ListedRest(s: State, choice: bool, x: Item)
    requires !s.pc.Ready? && !s.pc.Writing? && !s.pc.Beginning? && !s.pc.Announcing? && Listed(StrandStep(s, choice), x)
    ensures Listed(s, x)
  {
    hide Apply, Queued, Bytes, DecideEnqueue, Release, Transition, RunHandler, StepWriting, StepBeginning,
      StepAnnouncing;
  }

  lemma WaitsStep(s: State, e: Event)
    requires Base(s) && Waits(s) && Up(s) && Up(Step(s, e)) && Step(s, e).seqs.conn == s.seqs.conn
    ensures Waits(Step(s, e))
  {
    hide Step, Base, Backlog;
    var t := Step(s, e);
    forall x | x in Backlog(t) && From(t.past.admitted, x, t.seqs.conn)
      ensures x.id <= |t.ledger.records| && t.ledger.records[x.id - 1].status.Waiting?
    {
      WaitsItem(s, e, x);
    }
  }

  lemma WaitsItem(s: State, e: Event, x: Item)
    requires Base(s) && Waits(s) && Up(s) && Up(Step(s, e)) && Step(s, e).seqs.conn == s.seqs.conn
    requires x in Backlog(Step(s, e)) && From(Step(s, e).past.admitted, x, s.seqs.conn)
    ensures var t := Step(s, e); x.id <= |t.ledger.records| && t.ledger.records[x.id - 1].status.Waiting?
  {
    hide Step, Backlog, Ground, Tied, Lowered, AcceptedInOrder, Marked, FlightsWired, Pinned, InOrder;
    BacklogMoves(s, e, x);
    if x !in Backlog(s) {
      PostedWaits(s);
    } else {
      WasWaiting(s, e, x);
      if Completes(s, e) {
        forall k | 0 <= k < |s.flights[e.i].items| ensures s.flights[e.i].items[k].id != x.id {
          FlightsDoNotWait(s, e.i, k);
        }
      }
      if e.Strand? && s.pc.Beginning? {
        BeginningStep(s, e);
        RestIsNotBegun(s, e, x);
      }
      RecordStays(s, e, x.id);
    }
  }

  lemma BeginningStep(s: State, e: Event)
    requires e.Strand? && s.pc.Beginning?
    ensures Step(s, e) == StepBeginning(s)
  {
    hide StepBeginning;
  }

  lemma PostedWaits(s: State)
    requires Base(s) && s.admitting.Some?
    ensures var t, id := Step(s, Admitted), s.admitting.value.item.id;
            id <= |t.ledger.records| && 1 <= id && t.ledger.records[id - 1].status.Waiting?
  {
    hide Tied, Lowered, AcceptedInOrder, Marked, FlightsWired, Pinned, InOrder, Runs, WirePinned, Within, AllPlaced,
      StopsAhead, Sorted, Sourced;
    AdmitAppends(s.ledger, |s.admitting.value.item.data|);
  }

  lemma WasWaiting(s: State, e: Event, x: Item)
    requires Base(s) && Waits(s) && x in Backlog(s) && From(Step(s, e).past.admitted, x, s.seqs.conn)
    ensures From(s.past.admitted, x, s.seqs.conn)
    ensures 1 <= x.id <= |s.ledger.records| && s.ledger.records[x.id - 1].status.Waiting?
  {
    hide Step, Backlog, Tied, Lowered, AcceptedInOrder, Marked, FlightsWired, Pinned, InOrder, Runs, WirePinned,
      Within, AllPlaced, StopsAhead, Sorted;
    var i :| 0 <= i < |Backlog(s)| && Backlog(s)[i] == x;
    BacklogIsKnown(s, i);
    LiveImpliesNumbered(s);
    AcceptedGrows(s, e);
  }

  lemma FlightsDoNotWait(s: State, i: nat, k: nat)
    requires Base(s) && i < |s.flights| && k < |s.flights[i].items|
    ensures var id := s.flights[i].items[k].id;
            1 <= id <= |s.ledger.records| && !s.ledger.records[id - 1].status.Waiting?
  {
    hide Ground, Tied, Lowered, AcceptedInOrder, Pinned, InOrder, WireItems;
    var id, wire := s.flights[i].items[k].id, WireItems(s.past.wire);
    assert HasItem(wire, id);
    var j :| 0 <= j < |wire| && wire[j].id == id;
    WireItemAt(s.past.wire, j);
    assert CrossedHandoff(s.ledger.records[s.past.wire[j].item.id - 1]);
  }

  lemma WireItemAt(wire: seq<Handoff>, j: nat)
    requires j < |wire|
    ensures WireItems(wire)[j] == wire[j].item
  {
  }

  /** Everything taken from tx is pinned and waiting, so the ledger lets it through. */
  lemma BatchCanBegin(s: State)
    requires Base(s) && Waits(s) && Up(s) && s.pc.Beginning?
    ensures CanBegin(s.ledger.records, Ids(s.pc.batch))
  {
    hide Tied, Lowered, AcceptedInOrder, Marked, FlightsWired, InOrder, Runs, WirePinned, Within, AllPlaced,
      StopsAhead, Sorted, LiveIsCurrent, Queued;
    var batch := s.pc.batch;
    forall k | 0 <= k < |batch| ensures IsLive(s.ledger.records, Ids(batch)[k]) {
      var x := batch[k];
      assert x in Taken(s.pc) && Backlog(s)[k] == x;
      assert Holds(s, x) && Known(s.past.admitted, x);
    }
  }

  lemma RestIsNotBegun(s: State, e: Event, x: Item)
    requires Base(s) && Waits(s) && Up(s) && e.Strand? && s.pc.Beginning? && Step(s, e) == StepBeginning(s)
    requires x in Backlog(Step(s, e)) && From(s.past.admitted, x, s.seqs.conn)
    ensures x.id !in Ids(s.pc.batch)
  {
    hide Tied, Lowered, Marked, FlightsWired, Pinned, InOrder, Runs, WirePinned, Within, AllPlaced, StopsAhead,
      Sorted, LiveIsCurrent, Queued, Apply, Handoffs, CanBegin, Sourced, AcceptedInOrder, Waits;
    var t, batch := StepBeginning(s), s.pc.batch;
    BatchCanBegin(s);
    assert Backlog(s) == batch + Backlog(t);
    var k :| 0 <= k < |Backlog(t)| && Backlog(t)[k] == x;
    if x.id in Ids(batch) {
      var j :| 0 <= j < |batch| && Ids(batch)[j] == x.id;
      assert Backlog(s)[j] == batch[j] && Backlog(s)[|batch| + k] == x;
      SameConnSameItem(s, j, |batch| + k);
      BacklogOnce(s, j, |batch| + k);
    }
  }

  lemma SameConnSameItem(s: State, i: nat, j: nat)
    requires Ground(s) && i < |Backlog(s)| && j < |Backlog(s)| && Backlog(s)[i].id == Backlog(s)[j].id
    ensures Backlog(s)[i] == Backlog(s)[j]
  {
    hide Runs, LiveIsCurrent, WirePinned, Within, AllPlaced, StopsAhead, Sorted, Sourced, Backlog;
    BacklogIsKnown(s, i);
    BacklogIsKnown(s, j);
  }

  // ------------------------------------------------------------------
  // Whole runs
  // ------------------------------------------------------------------

  /** Events at a connection that is about to be closed leave it about to be closed. */
  lemma ClosingStays(s: State, e: Event)
    requires s.pc.Closing? && Up(s) && Up(Step(s, e)) && Step(s, e).seqs.conn == s.seqs.conn
    ensures Step(s, e).pc.Closing?
  {
    hide Apply, Accepts, Sizes, RequestStart, RequestStop;
    if e.Start? { StartKeepsPc(s); }
    if e.Stop? { StopEnds(s); }
  }

  lemma StartKeepsPc(s: State)
    ensures RequestStart(s).pc == s.pc
  {
    hide Apply;
  }

  lemma SmoothStrand(s: State, choice: bool)
    requires Base(s) && Smooth(s) && Waits(s) && Up(s) && !s.pc.Closing? && !s.pc.Retrying?
    requires Up(StrandStep(s, choice)) && !StrandStep(s, choice).pc.Closing?
    ensures Smooth(StrandStep(s, choice))
  {
    hide Base, Smooth, Waits, Apply, RunHandler, StepRouting, StepReporting, StepWriting, StepBeginning, StepRearming,
      Disconnect, FinishCleanup, Bytes, TryBytes;
    BaseGround(s);
    DownShape(s);
    match s.pc
    case Ready => SmoothHandler(s);
    case Routing(_) => SmoothRouting(s);
    case Reporting(_, _) => GroundWithin(s); SmoothReporting(s);
    case Rearming(_) => SmoothRearming(s);
    case Kicking(_) => UpLink(s); SmoothOnward(s, choice);
    case Resuming(_) => UpLink(s); SmoothOnward(s, choice);
    case Writing(_) => UpLink(s); SmoothWriting(s);
    case Beginning(_, _) => BatchCanBegin(s); SmoothBeginning(s);
    case Initiating(_, _) => SmoothInitiating(s);
    case Announcing(run) =>
      TryBytesSnoc(s.posted, KickWrite(run, s.seqs.conn), s.seqs.conn);
      SmoothFrame(s, StrandStep(s, choice));
    case Cleaning => CleaningEnds(s);
    case _ =>
  }

  lemma BaseGround(s: State)
    requires Base(s)
    ensures Ground(s) && Tied(s) && Lowered(s)
  {
    hide Ground, Tied, Lowered, AcceptedInOrder, Marked, FlightsWired, Pinned, InOrder;
  }

  lemma GroundWithin(s: State)
    requires Ground(s)
    ensures Within(s)
  {
    hide Runs, LiveIsCurrent, WirePinned, Within, AllPlaced, StopsAhead, Sorted, Sourced;
  }

  lemma UpLink(s: State)
    requires Ground(s) && Up(s) && !s.pc.Announcing?
    ensures s.life.link.Connected?
  {
    hide LiveIsCurrent, Sourced, WirePinned, AllPlaced, Within, Sorted, StopsAhead, StartRunsWithin;
  }

  lemma CleaningEnds(s: State)
    requires s.life.connected
    ensures !FinishCleanup(s).life.connected
  {
    hide Apply;
  }

  lemma SmoothSame(s: State, e: Event)
    requires Base(s) && Smooth(s) && Waits(s) && Up(s) && !s.pc.Closing? && !GivesUp(s, e) && !Aborts(s, e)
    requires Up(Step(s, e)) && Step(s, e).seqs.conn == s.seqs.conn && !Step(s, e).pc.Closing?
    ensures Smooth(Step(s, e))
  {
    hide Base, Smooth, Waits, Apply, Accepts, StrandStep, OnWrite, RequestStart, RequestStop, TryBytes, Reserve, Post,
      Abandon;
    BaseGround(s);
    match e
    case Strand(choice) =>
      if Step(s, e) != s { SmoothStrand(s, choice); }
    case Write(data, kind, expected) => SmoothWrite(s, data, kind, expected);
    case Admitted => if s.admitting.Some? { CallerHasData(s); SmoothPost(s); }
    case AdmissionThrows(entered) => if s.admitting.Some? { SmoothAbandon(s, entered); }
    case Start => StartEnds(s);
    case Stop => StopEnds(s);
    case WriteCompleted(i, n, outcome) => if Completes(s, e) { SmoothOnWrite(s, i, n, outcome); }
    case _ => SmoothQuiet(s, e);
  }

  lemma SmoothQuiet(s: State, e: Event)
    requires Smooth(s) && !Step(s, e).pc.Closing?
    requires e.ResetStats? || e.ConnectSucceeded? || e.ConnectFailed? || e.RetryEnded? || e.ConnectionClosed?
             || e.IdleTimedOut?
    ensures Smooth(Step(s, e))
  {
    hide Smooth, Apply, TryBytes;
    SmoothFrame(s, Step(s, e));
  }

  lemma CallerHasData(s: State)
    requires Base(s)
    ensures s.admitting.Some? ==> s.admitting.value.item.data != []
  {
    hide Ground, Tied, Lowered, AcceptedInOrder, Marked, FlightsWired, Pinned, InOrder;
  }

  lemma FlowsStep(s: State, e: Event)
    requires Base(s) && Base(Step(s, e)) && Flows(s) && !GivesUp(s, e) && !Aborts(s, e)
    ensures Flows(Step(s, e))
  {
    hide Step, Base, Waits, Carried, Exact, Moving;
    var t := Step(s, e);
    BaseGround(s);
    BaseGround(t);
    if Up(t) && !t.pc.Closing? {
      if !Up(s) {
        FlowsFresh(s, e);
      } else {
        GroundRuns(s);
        ConnectionMoves(s, e);
        if s.pc.Closing? { ClosingStays(s, e); }
        SmoothSame(s, e);
        WaitsStep(s, e);
      }
    }
  }

  lemma GroundRuns(s: State)
    requires Ground(s)
    ensures Runs(s) && LiveIsCurrent(s) && Sourced(s) && AllPlaced(s)
  {
    hide Runs, LiveIsCurrent, WirePinned, Within, AllPlaced, StopsAhead, Sorted, Sourced;
  }

  lemma CallersHaveData(s: State, e: Event)
    requires s.admitting.Some? ==> s.admitting.value.item.data != []
    ensures Step(s, e).admitting.Some? ==> Step(s, e).admitting.value.item.data != []
  {
    hide Apply, StrandStep, OnWrite, RequestStart, RequestStop, MayReserve, MayTry;
    match e
    case Strand(choice) => StrandContext(s, choice);
    case Stop => StopKeepsCallers(s);
    case Start => StopKeepsCallers(s);
    case WriteCompleted(i, n, outcome) => if i < |s.flights| { OnWriteKeepsCallers(s, i, n, outcome); }
    case _ =>
  }

  lemma StopKeepsCallers(s: State)
    ensures RequestStop(s).admitting == s.admitting && RequestStart(s).admitting == s.admitting
  {
    hide Apply;
  }

  lemma OnWriteKeepsCallers(s: State, i: nat, n: nat, outcome: Outcome)
    requires i < |s.flights|
    ensures OnWrite(s, i, n, outcome).admitting == s.admitting
  {
    hide Apply, Sizes, Release;
  }

  lemma CalmBefore(threshold: nat, events: seq<Event>)
    requires Calm(threshold, events)
    ensures NeverOvertaken(threshold, events)
    ensures events != [] ==> Calm(threshold, events[..|events| - 1])
  {
    hide Reach;
    if events != [] {
      var before := events[..|events| - 1];
      assert forall k | 0 <= k < |before| :: before[k] == events[k] && before[..k] == events[..k];
    }
    forall k | 0 <= k < |events| ensures !Overtakes(Reach(threshold, events[..k]), events[k]) {
      assert !GivesUp(Reach(threshold, events[..k]), events[k]);
    }
  }

  lemma {:induction false} AlwaysBased(threshold: nat, events: seq<Event>)
    requires Calm(threshold, events)
    ensures Base(Reach(threshold, events))
    decreases |events|
  {
    hide Step, Calm, Ground, Tied, Lowered, AcceptedInOrder, Marked, FlightsWired, Pinned, InOrder, Prefixes,
      NeverOvertaken, FlightsDistinct, OwnRecords, Aborts, GivesUp;
    CalmBefore(threshold, events);
    AlwaysGround(threshold, events);
    FlightsAreOwn(threshold, events);
    AlwaysMarked(threshold, events);
    ClientWireFollowsAcceptance(threshold, events, Plain);
    ClientWireFollowsAcceptance(threshold, events, Try);
    QueuesArePinned(threshold, events);
    assert events[..|events|] == events && Pinned(Reach(threshold, events[..|events|]));
    if events == [] {
      FreshBase(threshold);
    } else {
      var n := |events| - 1;
      var before, e := events[..n], events[n];
      var s := Reach(threshold, before);
      AlwaysBased(threshold, before);
      CalmAt(threshold, events, n);
      GroundRuns(s);
      TiedStep(s, e);
      LoweredStep(s, e);
      FlightsWiredStep(s, e);
      CallersHaveData(s, e);
    }
  }

  lemma CalmAt(threshold: nat, events: seq<Event>, k: nat)
    requires Calm(threshold, events) && k < |events|
    ensures !GivesUp(Reach(threshold, events[..k]), events[k]) && !Aborts(Reach(threshold, events[..k]), events[k])
  {
    hide Reach;
  }

  lemma FreshBase(threshold: nat)
    ensures var s := Initial(threshold); Tied(s) && Lowered(s) && FlightsWired(s) && s.admitting.None?
  {
  }

  lemma {:induction false} AlwaysFlows(threshold: nat, events: seq<Event>)
    requires Calm(threshold, events)
    ensures Flows(Reach(threshold, events))
    decreases |events|
  {
    hide Step, Calm, Base, Flows, Aborts, GivesUp, NeverOvertaken;
    if events == [] {
      FreshFlows(threshold);
    } else {
      var n := |events| - 1;
      CalmBefore(threshold, events);
      AlwaysFlows(threshold, events[..n]);
      AlwaysBased(threshold, events[..n]);
      AlwaysBased(threshold, events);
      CalmAt(threshold, events, n);
      FlowsStep(Reach(threshold, events[..n]), events[n]);
    }
  }

  lemma FreshFlows(threshold: nat)
    ensures Flows(Initial(threshold))
  {
  }

  /** Connected, not stopping, and nothing due: no handler, no write of this connection, no caller half way. */
  ghost predicate AtRest(s: State) {
    Up(s) && s.pc.Ready? && s.posted == [] && s.admitting.None? && forall i: nat :: !Current(s, i)
  }

  /**
   Every calm run: while a connection is up its queue counter is exact, and whenever the
   client comes to rest with a bearable leak nothing is queued or in flight,
   backpressure is off, and the counter holds just the leak.
   */
  lemma NothingIsStranded(threshold: nat, events: seq<Event>)
    requires Calm(threshold, events)
    ensures var s := Reach(threshold, events);
            && (Up(s) && !s.pc.Closing? ==> Exact(s))
            && (AtRest(s) && Bearable(s.bounds, LeakedOn(s.past.failed, s.seqs.conn)) ==>
                  && s.lanes == NO_LANES && !s.bytes.active
                  && s.bytes.queue == LeakedOn(s.past.failed, s.seqs.conn) && s.bytes.pending == 0)
  {
    hide Reach, Calm, LeakedOn, Bytes;
    AlwaysFlows(threshold, events);
    AlwaysGround(threshold, events);
    RestIsDrained(Reach(threshold, events));
  }

  lemma RestIsDrained(s: State)
    requires Ground(s) && Flows(s)
    ensures AtRest(s) && Bearable(s.bounds, LeakedOn(s.past.failed, s.seqs.conn)) ==>
              && s.lanes == NO_LANES && !s.bytes.active
              && s.bytes.queue == LeakedOn(s.past.failed, s.seqs.conn) && s.bytes.pending == 0
  {
    hide LeakedOn, Bytes, Runs, LiveIsCurrent, WirePinned, AllPlaced, StopsAhead, Sourced, RunBytes, LeakedInRun;
    NoBytes();
  }
}
