/**
 Order on the client's wire: on every connection number each kind of write is handed
 over in acceptance order without gaps, and as long as the client is not stopping what
 was accepted on the current number and not yet handed over is queued in that order.
 */
module ClientOrder {
  import opened Options
  import opened SendHistory
  import opened SendFates
  import opened Octets
  import opened Queues
  import opened ClientModel
  import opened ClientPinning
  import opened ClientBytes

  // ------------------------------------------------------------------
  // One kind of write on one connection number
  // ------------------------------------------------------------------

  /** The item was admitted under that connection number. */
  predicate From(admitted: seq<Admission>, x: Item, conn: nat) {
    1 <= x.id <= |admitted| && admitted[x.id - 1].conn == conn
  }

  /** The items of one kind admitted under one number, in order. */
  function Pick(admitted: seq<Admission>, items: seq<Item>, kind: Kind, conn: nat): seq<Item> {
    if items == [] then []
    else
      (if items[0].kind == kind && From(admitted, items[0], conn) then [items[0]] else [])
      + Pick(admitted, items[1..], kind, conn)
  }

  /** What was accepted of them. */
  function PickAccepted(accepted: seq<Admission>, kind: Kind, conn: nat): seq<Item> {
    if accepted == [] then []
    else
      var a := accepted[|accepted| - 1];
      PickAccepted(accepted[..|accepted| - 1], kind, conn)
      + if a.item.kind == kind && a.conn == conn then [a.item] else []
  }

  /** What was handed over. */
  function PickWire(wire: seq<Handoff>, kind: Kind, conn: nat): seq<Item> {
    if wire == [] then []
    else
      var h := wire[|wire| - 1];
      PickWire(wire[..|wire| - 1], kind, conn) + if h.item.kind == kind && h.conn == conn then [h.item] else []
  }

  lemma {:induction false} PickConcat(admitted: seq<Admission>, a: seq<Item>, b: seq<Item>, kind: Kind, conn: nat)
    ensures Pick(admitted, a + b, kind, conn) == Pick(admitted, a, kind, conn) + Pick(admitted, b, kind, conn)
  {
    if a == [] {
      assert a + b == b;
    } else {
      assert (a + b)[1..] == a[1..] + b;
      PickConcat(admitted, a[1..], b, kind, conn);
    }
  }

  lemma PickOne(admitted: seq<Admission>, x: Item, kind: Kind, conn: nat)
    ensures Pick(admitted, [x], kind, conn) == if x.kind == kind && From(admitted, x, conn) then [x] else []
    ensures Pick(admitted, [], kind, conn) == []
  {
    assert [x][1..] == [];
  }

  lemma {:induction false} PickNone(admitted: seq<Admission>, items: seq<Item>, kind: Kind, conn: nat)
    requires forall i | 0 <= i < |items| :: items[i].kind == kind ==> !From(admitted, items[i], conn)
    ensures Pick(admitted, items, kind, conn) == []
  {
    if items != [] {
      PickNone(admitted, items[1..], kind, conn);
    }
  }

  lemma {:induction false} PickGrows(a: seq<Admission>, b: seq<Admission>, items: seq<Item>, kind: Kind, conn: nat)
    requires a <= b && forall i | 0 <= i < |items| :: items[i].id <= |a|
    ensures Pick(b, items, kind, conn) == Pick(a, items, kind, conn)
  {
    if items != [] {
      PickGrows(a, b, items[1..], kind, conn);
    }
  }

  lemma {:induction false} PickAcceptedNone(accepted: seq<Admission>, kind: Kind, conn: nat)
    requires forall i | 0 <= i < |accepted| :: accepted[i].conn != conn
    ensures PickAccepted(accepted, kind, conn) == []
  {
    if accepted != [] {
      PickAcceptedNone(accepted[..|accepted| - 1], kind, conn);
    }
  }

  lemma {:induction false} PickWireNone(wire: seq<Handoff>, kind: Kind, conn: nat)
    requires forall i | 0 <= i < |wire| :: wire[i].conn != conn
    ensures PickWire(wire, kind, conn) == []
  {
    if wire != [] {
      PickWireNone(wire[..|wire| - 1], kind, conn);
    }
  }

  lemma PickAcceptedSnoc(accepted: seq<Admission>, a: Admission, kind: Kind, conn: nat)
    ensures PickAccepted(accepted + [a], kind, conn)
            == PickAccepted(accepted, kind, conn) + if a.item.kind == kind && a.conn == conn then [a.item] else []
  {
    assert (accepted + [a])[..|accepted|] == accepted;
  }

  /** A batch whose items were all admitted under the current number, handed over. */
  lemma {:induction false} PickHandoffs(admitted: seq<Admission>, wire: seq<Handoff>, batch: seq<Item>, seqs: Seqs,
                                        kind: Kind)
    requires forall i | 0 <= i < |batch| :: From(admitted, batch[i], seqs.conn)
    ensures PickWire(wire + Handoffs(batch, seqs), kind, seqs.conn)
            == PickWire(wire, kind, seqs.conn) + Pick(admitted, batch, kind, seqs.conn)
    decreases |batch|
  {
    hide Pick, PickWire;
    if batch == [] {
      assert wire + Handoffs(batch, seqs) == wire;
      PickOne(admitted, Item(0, [], kind), kind, seqs.conn);
    } else {
      var n := |batch| - 1;
      var x := batch[n];
      PickHandoffs(admitted, wire, batch[..n], seqs, kind);
      assert batch == batch[..n] + [x];
      PickConcat(admitted, batch[..n], [x], kind, seqs.conn);
      PickOne(admitted, x, kind, seqs.conn);
      var init, h := wire + Handoffs(batch[..n], seqs), Handoff(x, seqs.conn, seqs.socket);
      assert wire + Handoffs(batch, seqs) == init + [h];
      PickWireSnoc(init, h, kind, seqs.conn);
    }
  }

  lemma PickWireSnoc(wire: seq<Handoff>, h: Handoff, kind: Kind, conn: nat)
    ensures PickWire(wire + [h], kind, conn)
            == PickWire(wire, kind, conn) + if h.item.kind == kind && h.conn == conn then [h.item] else []
  {
    assert (wire + [h])[..|wire|] == wire;
  }

  lemma {:induction false} PickHandoffsElsewhere(wire: seq<Handoff>, batch: seq<Item>, seqs: Seqs, kind: Kind,
                                                 conn: nat)
    requires conn != seqs.conn
    ensures PickWire(wire + Handoffs(batch, seqs), kind, conn) == PickWire(wire, kind, conn)
    decreases |batch|
  {
    var all := wire + Handoffs(batch, seqs);
    if batch == [] {
      assert all == wire;
    } else {
      PickHandoffsElsewhere(wire, batch[..|batch| - 1], seqs, kind, conn);
      assert all[..|all| - 1] == wire + Handoffs(batch[..|batch| - 1], seqs);
    }
  }

  // ------------------------------------------------------------------
  // The backlog
  // ------------------------------------------------------------------

  function ItemsOf(h: Handler): seq<Item> {
    if Routes(h) then [h.a.item] else []
  }

  /** The items still waiting in posted handlers. */
  function Queued(posted: seq<Handler>): seq<Item> {
    if posted == [] then [] else ItemsOf(posted[0]) + Queued(posted[1..])
  }

  lemma {:induction false} QueuedSnoc(posted: seq<Handler>, h: Handler)
    ensures Queued(posted + [h]) == Queued(posted) + ItemsOf(h)
  {
    if posted == [] {
      assert [h][1..] == [] && posted + [h] == [h];
    } else {
      assert (posted + [h])[1..] == posted[1..] + [h];
      QueuedSnoc(posted[1..], h);
    }
  }

  lemma QueuedPop(posted: seq<Handler>)
    requires posted != []
    ensures Queued(posted) == ItemsOf(posted[0]) + Queued(posted[1..])
  {
  }

  lemma {:induction false} QueuedIsPosted(posted: seq<Handler>, x: Item)
    requires x in Queued(posted)
    ensures exists i | 0 <= i < |posted| :: Routes(posted[i]) && posted[i].a.item == x
  {
    if x in ItemsOf(posted[0]) {
      assert Routes(posted[0]) && posted[0].a.item == x;
    } else {
      QueuedIsPosted(posted[1..], x);
      var i :| 0 <= i < |posted[1..]| && Routes(posted[1..][i]) && posted[1..][i].a.item == x;
      assert posted[i + 1] == posted[1..][i];
    }
  }

  function Held(pc: Pc): seq<Item> {
    if pc.Routing? then [pc.item] else []
  }

  /** A batch taken from tx that the ledger has not been asked about. */
  function Taken(pc: Pc): seq<Item> {
    if pc.Beginning? then pc.batch else []
  }

  /** Everything not yet handed over, in the order in which it will be. */
  function Backlog(s: State): seq<Item> {
    Taken(s.pc) + s.lanes.tx + s.lanes.pending + Held(s.pc) + Queued(s.posted)
  }

  predicate AllPlain(items: seq<Item>) {
    forall i | 0 <= i < |items| :: items[i].kind == Plain
  }

  /** Only plain writes wait in pending, only under backpressure; handlers carry the kind they were posted for. */
  predicate Sorted(s: State) {
    && AllPlain(s.lanes.pending) && AllPlain(Held(s.pc))
    && (s.lanes.pending != [] ==> s.bytes.active) && (s.pc.Cleaning? ==> s.lanes.pending == [])
    && (forall i | 0 <= i < |s.posted| ::
          && (s.posted[i].RouteWrite? ==> s.posted[i].a.item.kind == Plain)
          && (s.posted[i].RouteTry? ==> s.posted[i].a.item.kind == Try))
  }

  /** Each kind accepted on the current number is on the wire or in the backlog, in order. */
  ghost predicate InOrder(s: State, kind: Kind) {
    PickWire(s.past.wire, kind, s.seqs.conn) + Pick(s.past.admitted, Backlog(s), kind, s.seqs.conn)
    == PickAccepted(s.past.accepted, kind, s.seqs.conn)
  }

  // ------------------------------------------------------------------
  // What every step keeps
  // ------------------------------------------------------------------

  lemma SortedStep(s: State, e: Event)
    requires Sorted(s)
    ensures Sorted(Step(s, e))
  {
    hide Apply, Accepts, StrandStep, RequestStop, RequestStart, OnWrite, Sorted;
    match e
    case Strand(choice) => SortedStrand(s, choice);
    case Admitted => if s.admitting.Some? { SortedPost(s); }
    case Stop => SortedStop(s);
    case Start => SortedStart(s);
    case WriteCompleted(i, n, outcome) => if i < |s.flights| && s.pc.Ready? { SortedOnWrite(s, i, n, outcome); }
    case _ => SortedFrame(s, Step(s, e));
  }

  /** Sorted reads pending, backpressure, the handlers and the shape of pc. */
  lemma SortedFrame(s: State, t: State)
    requires Sorted(s) && t.lanes.pending == s.lanes.pending && t.posted == s.posted
    requires (t.bytes.active == s.bytes.active || t.lanes.pending == [])
    requires (t.pc == s.pc || !t.pc.Routing?) && (t.pc.Cleaning? ==> t.pc == s.pc)
    ensures Sorted(t)
  {
  }

  lemma SortedPost(s: State)
    requires Sorted(s) && s.admitting.Some?
    ensures Sorted(Post(s))
  {
    hide Apply;
    assert forall i | 0 <= i < |s.posted| :: Post(s).posted[i] == s.posted[i];
  }

  lemma SortedStop(s: State)
    requires Sorted(s)
    ensures Sorted(RequestStop(s))
  {
    hide Apply;
    assert forall i | 0 <= i < |s.posted| :: RequestStop(s).posted[i] == s.posted[i];
  }

  lemma DisconnectFrame(s: State)
    ensures var t := Disconnect(s); t == s.(life := t.life, ledger := t.ledger, seqs := t.seqs)
  {
    hide Apply;
  }

  lemma SortedStart(s: State)
    requires Sorted(s)
    ensures Sorted(RequestStart(s))
  {
    hide Apply;
    assert forall i | 0 <= i < |s.posted| :: RequestStart(s).posted[i] == s.posted[i];
  }

  lemma SortedOnWrite(s: State, i: nat, n: nat, outcome: Outcome)
    requires Sorted(s) && s.pc.Ready? && i < |s.flights|
    ensures Sorted(OnWrite(s, i, n, outcome))
  {
    hide Apply, Sizes, Release, Sorted;
    SortedFrame(s, OnWrite(s, i, n, outcome));
  }

  lemma SortedStrand(s: State, choice: bool)
    requires Sorted(s)
    ensures Sorted(StrandStep(s, choice))
  {
    hide Apply, RunHandler, Sorted;
    match s.pc
    case Ready => SortedHandler(s);
    case Routing(_) => SortedQueues(s, choice);
    case Reporting(_, _) => SortedQueues(s, choice);
    case Rearming(_) => SortedQueues(s, choice);
    case Announcing(_) => SortedQueues(s, choice);
    case _ => SortedRest(s, choice);
  }

  lemma SortedHandler(s: State)
    requires Sorted(s) && s.pc.Ready?
    ensures Sorted(RunHandler(s))
  {
    hide Release;
    if s.posted != [] {
      assert forall i | 0 <= i < |s.posted| - 1 :: s.posted[1..][i] == s.posted[i + 1];
    }
  }

  lemma SortedQueues(s: State, choice: bool)
    requires Sorted(s) && (s.pc.Routing? || s.pc.Reporting? || s.pc.Rearming? || s.pc.Announcing?)
    ensures Sorted(StrandStep(s, choice))
  {
    hide Apply, RunHandler, Release, Bytes;
  }

  lemma SortedRest(s: State, choice: bool)
    requires Sorted(s) && !s.pc.Ready? && !s.pc.Routing? && !s.pc.Reporting? && !s.pc.Rearming? && !s.pc.Announcing?
    ensures Sorted(StrandStep(s, choice))
  {
    hide Apply, RunHandler, StepRouting, StepReporting, StepRearming, StepAnnouncing, Release, Bytes, GatherCount,
      CanBegin, Ids, Handoffs, Transition, Disconnect;
    DisconnectFrame(s);
  }

  /** Nothing was admitted under a number to come; under the current one only while it is up, in the current run. */
  predicate Placed(s: State, a: Admission) {
    a.conn <= s.seqs.conn && (a.conn == s.seqs.conn ==> s.life.connected && a.run == s.seqs.current)
  }

  ghost predicate AllPlaced(s: State) {
    && (forall i | 0 <= i < |s.past.admitted| :: Placed(s, s.past.admitted[i]))
    && (forall i | 0 <= i < |s.past.accepted| :: Placed(s, s.past.accepted[i]))
  }

  /** How the connection number, the run and the connection move. */
  lemma ConnectionMoves(s: State, e: Event)
    requires Runs(s)
    ensures var t := Step(s, e);
            || (t.seqs.conn == s.seqs.conn && t.seqs.current == s.seqs.current
                && (s.life.connected ==> t.life.connected))
            || (t.seqs.conn == s.seqs.conn + 1 && !t.life.connected)
            || (t.seqs.conn == s.seqs.conn && !s.life.connected && !t.life.connected)
  {
    hide Apply, Accepts, StrandStep, Sizes, StartRunsWithin, Transition, Release;
    match e
    case Strand(choice) =>
      StrandContext(s, choice);
      if NeedsMutex(s.pc) { MutexContext(s, choice); }
    case Stop => StopMoves(s);
    case _ =>
  }

  lemma StopMoves(s: State)
    ensures var t := RequestStop(s);
            || (t.seqs.conn == s.seqs.conn && t.seqs.current == s.seqs.current && t.life.connected == s.life.connected)
            || (t.seqs.conn == s.seqs.conn + 1 && !t.life.connected)
  {
    hide Apply;
  }

  /** What is recorded as admitted and as accepted. */
  lemma RecordMoves(s: State, e: Event)
    ensures var t := Step(s, e);
            && (t.past.admitted == s.past.admitted
                || (Enters(e) && s.admitting.Some? && t.past.admitted == s.past.admitted + [s.admitting.value]))
            && (t.past.accepted == s.past.accepted
                || (e.Admitted? && s.admitting.Some? && t.past.accepted == s.past.accepted + [s.admitting.value]))
            && (Enters(e) && s.admitting.Some? ==> Context(t) == Context(s))
  {
    hide Apply, Accepts, StrandStep, Sizes, Transition, Release;
    if e.Strand? { StrandContext(s, e.choice); }
  }

  lemma PlacedStep(s: State, e: Event)
    requires Runs(s) && LiveIsCurrent(s) && AllPlaced(s)
    ensures AllPlaced(Step(s, e))
  {
    hide Step, Runs, Numbered;
    ConnectionMoves(s, e);
    RecordMoves(s, e);
  }

  /** A cleanup left from before a restart runs before that restart's strand part. */
  ghost predicate StopsAhead(s: State) {
    !s.life.stopping ==>
      forall i | 0 <= i < |s.posted| && s.posted[i].StopCleanup? ::
        exists j | i < j < |s.posted| :: s.posted[j] == StartRun(s.seqs.current)
  }

  lemma StopsAheadFrame(s: State, t: State)
    requires StopsAhead(s) && (t.life.stopping == s.life.stopping || t.life.stopping)
             && t.seqs.current == s.seqs.current
    requires t.posted == s.posted
             || (exists h: Handler | !h.StopCleanup? :: t.posted == s.posted + [h])
    ensures StopsAhead(t)
  {
    if !t.life.stopping {
      forall i | 0 <= i < |t.posted| && t.posted[i].StopCleanup?
        ensures exists j | i < j < |t.posted| :: t.posted[j] == StartRun(t.seqs.current)
      {
        var j :| i < j < |s.posted| && s.posted[j] == StartRun(s.seqs.current);
        assert t.posted[j] == s.posted[j];
      }
    }
  }

  lemma StopsAheadPop(s: State, t: State)
    requires StopsAhead(s) && Runs(s) && s.posted != [] && t.posted == s.posted[1..]
    requires t.life.stopping == s.life.stopping && t.seqs.current == s.seqs.current
    ensures StopsAhead(t)
  {
    if !t.life.stopping {
      forall i | 0 <= i < |t.posted| && t.posted[i].StopCleanup?
        ensures exists j | i < j < |t.posted| :: t.posted[j] == StartRun(t.seqs.current)
      {
        assert s.posted[i + 1] == t.posted[i];
        var j :| i + 1 < j < |s.posted| && s.posted[j] == StartRun(s.seqs.current);
        assert t.posted[j - 1] == s.posted[j];
      }
    }
  }

  lemma StopsAheadStep(s: State, e: Event)
    requires Runs(s) && StopsAhead(s)
    ensures StopsAhead(Step(s, e))
  {
    hide Apply, Accepts, StrandStep, OnWrite, Runs, RequestStart, RequestStop;
    match e
    case Strand(choice) => StopsAheadStrand(s, choice);
    case Admitted =>
      if s.admitting.Some? {
        var a := s.admitting.value;
        var h := if a.item.kind == Plain then RouteWrite(a) else RouteTry(a);
        assert !h.StopCleanup? && Post(s).posted == s.posted + [h];
        StopsAheadFrame(s, Post(s));
      }
    case Stop => StopsAheadStop(s);
    case Start => StopsAheadStart(s);
    case WriteCompleted(i, n, outcome) =>
      if i < |s.flights| { OnWriteFrame(s, i, n, outcome); StopsAheadFrame(s, OnWrite(s, i, n, outcome)); }
    case _ => StopsAheadFrame(s, Step(s, e));
  }

  lemma OnWriteFrame(s: State, i: nat, n: nat, outcome: Outcome)
    requires i < |s.flights|
    ensures var t := OnWrite(s, i, n, outcome);
            t.posted == s.posted && t.life.stopping == s.life.stopping && t.seqs.current == s.seqs.current
  {
    hide Apply, Sizes, Release;
  }

  lemma StopsAheadStop(s: State)
    requires StopsAhead(s)
    ensures StopsAhead(RequestStop(s))
  {
    hide Apply, Transition;
  }

  lemma StopsAheadStart(s: State)
    requires StopsAhead(s)
    ensures StopsAhead(RequestStart(s))
  {
    hide Apply;
    var t := RequestStart(s);
    if t != s {
      assert t.posted[|s.posted|] == StartRun(t.seqs.current);
    }
  }

  lemma StopsAheadStrand(s: State, choice: bool)
    requires Runs(s) && StopsAhead(s)
    ensures StopsAhead(StrandStep(s, choice))
  {
    hide StopsAhead, Runs, StrandStep;
    var t := StrandStep(s, choice);
    StrandTraffic(s, choice);
    StrandKeepsRun(s, choice);
    if s.posted != [] && t.posted == s.posted[1..] {
      StopsAheadPop(s, t);
    } else {
      StopsAheadFrame(s, t);
    }
  }

  lemma StrandKeepsRun(s: State, choice: bool)
    ensures var t := StrandStep(s, choice); t.life.stopping == s.life.stopping && t.seqs.current == s.seqs.current
  {
    hide Context;
    StrandContext(s, choice);
    if NeedsMutex(s.pc) { MutexContext(s, choice); }
    ContextHas(s, StrandStep(s, choice));
  }

  lemma ContextHas(s: State, t: State)
    ensures Context(t) == Context(s) || Context(t) == Context(Disconnect(s)) ==>
              t.life.stopping == s.life.stopping && t.seqs.current == s.seqs.current
  {
    hide Apply;
  }

  // ------------------------------------------------------------------
  // One step
  // ------------------------------------------------------------------

  /** What the order rests on. */
  ghost predicate Ground(s: State) {
    && Runs(s) && LiveIsCurrent(s) && Sourced(s) && WirePinned(s) && Within(s)
    && AllPlaced(s) && StopsAhead(s) && Sorted(s)
  }

  predicate Up(s: State) {
    s.life.connected && !s.life.stopping
  }

  /** Nothing was admitted under the current number. */
  ghost predicate Unused(s: State) {
    && (forall i | 0 <= i < |s.past.admitted| :: s.past.admitted[i].conn != s.seqs.conn)
    && (forall i | 0 <= i < |s.past.accepted| :: s.past.accepted[i].conn != s.seqs.conn)
  }

  lemma UnusedInOrder(s: State, kind: Kind)
    requires WirePinned(s) && Unused(s)
    ensures InOrder(s, kind)
  {
    hide Backlog;
    PickNone(s.past.admitted, Backlog(s), kind, s.seqs.conn);
    PickAcceptedNone(s.past.accepted, kind, s.seqs.conn);
    PickWireNone(s.past.wire, kind, s.seqs.conn);
  }

  /** Whoever is up in both states, under the same number, was up all along; otherwise the number is unused. */
  lemma UpOrUnused(s: State, e: Event)
    requires Runs(s) && LiveIsCurrent(s) && AllPlaced(s) && AllPlaced(Step(s, e)) && !Step(s, e).life.stopping
    ensures (Up(s) && Up(Step(s, e)) && Step(s, e).seqs.conn == s.seqs.conn) || Unused(Step(s, e))
  {
    hide Step, Runs, Numbered;
    ConnectionMoves(s, e);
    RecordMoves(s, e);
    StopIsUndoneByStart(s, e);
  }

  lemma StopIsUndoneByStart(s: State, e: Event)
    ensures s.life.stopping && !Step(s, e).life.stopping ==> !Step(s, e).life.connected
  {
    hide Apply, Accepts, StrandStep, Sizes, Release;
    if e.Strand? { StrandKeepsRun(s, e.choice); }
  }

  lemma BacklogIsKnown(s: State, i: nat)
    requires Sourced(s) && i < |Backlog(s)|
    ensures Known(s.past.admitted, Backlog(s)[i])
  {
    hide Queued;
    var x := Backlog(s)[i];
    if x in Queued(s.posted) {
      QueuedIsPosted(s.posted, x);
    } else {
      assert Holds(s, x);
    }
  }

  lemma SameBacklog(s: State, t: State, kind: Kind)
    requires InOrder(s, kind) && t.past == s.past && t.seqs.conn == s.seqs.conn && Backlog(t) == Backlog(s)
    ensures InOrder(t, kind)
  {
  }

  lemma InOrderSame(s: State, e: Event, kind: Kind)
    requires Ground(s) && InOrder(s, kind) && Up(s) && Up(Step(s, e)) && Step(s, e).seqs.conn == s.seqs.conn
    ensures InOrder(Step(s, e), kind)
  {
    hide Ground, InOrder, Apply, Accepts, StrandStep, OnWrite, Pick, PickWire, PickAccepted, Queued, RequestStart,
      RequestStop;
    match e
    case Strand(choice) => if Step(s, e) != s { InOrderStrand(s, choice, kind); }
    case Admitted => if s.admitting.Some? { InOrderPost(s, kind); }
    case AdmissionThrows(entered) => if s.admitting.Some? { InOrderAbandon(s, entered, kind); }
    case WriteCompleted(i, n, outcome) =>
      if s.pc.Ready? && i < |s.flights| && Step(s, e) != s {
        OnWriteKeeps(s, i, n, outcome);
        SameBacklog(s, OnWrite(s, i, n, outcome), kind);
      }
    case Start => StartEnds(s);
    case Stop => StopEnds(s);
    case _ => SameBacklog(s, Step(s, e), kind);
  }

  lemma StartEnds(s: State)
    ensures RequestStart(s) == s || !RequestStart(s).life.connected
  {
    hide Apply;
  }

  lemma StopEnds(s: State)
    ensures !s.life.stopping ==> RequestStop(s).life.stopping
  {
    hide Apply;
  }

  lemma OnWriteKeeps(s: State, i: nat, n: nat, outcome: Outcome)
    requires s.pc.Ready? && i < |s.flights| && s.life.connected && OnWrite(s, i, n, outcome).life.connected
    ensures var t := OnWrite(s, i, n, outcome);
            t.past == s.past && t.seqs.conn == s.seqs.conn && Backlog(t) == Backlog(s)
  {
    hide Apply, Sizes, Release, Queued;
  }

  lemma InOrderPost(s: State, kind: Kind)
    requires Ground(s) && InOrder(s, kind) && s.admitting.Some?
    ensures InOrder(Post(s), kind)
  {
    hide Apply, Pick, PickWire, PickAccepted, Queued, Within, Runs, StopsAhead, Sorted, WirePinned, AllPlaced;
    var t, a := Post(s), s.admitting.value;
    var item, conn := a.item, s.seqs.conn;
    QueuedSnoc(s.posted, t.posted[|s.posted|]);
    assert Backlog(t) == Backlog(s) + [item];
    PickConcat(t.past.admitted, Backlog(s), [item], kind, conn);
    PickOne(t.past.admitted, item, kind, conn);
    forall i | 0 <= i < |Backlog(s)| ensures Backlog(s)[i].id <= |s.past.admitted| { BacklogIsKnown(s, i); }
    PickGrows(s.past.admitted, t.past.admitted, Backlog(s), kind, conn);
    PickAcceptedSnoc(s.past.accepted, a, kind, conn);
    assert t.past.admitted[item.id - 1] == a;
  }

  lemma InOrderAbandon(s: State, entered: bool, kind: Kind)
    requires Ground(s) && InOrder(s, kind) && s.admitting.Some?
    ensures InOrder(Abandon(s, entered), kind)
  {
    hide Apply, Pick, PickWire, PickAccepted, Queued, Within, Runs, StopsAhead, Sorted, WirePinned, AllPlaced;
    var t := Abandon(s, entered);
    assert Backlog(t) == Backlog(s);
    forall i | 0 <= i < |Backlog(s)| ensures Backlog(s)[i].id <= |s.past.admitted| { BacklogIsKnown(s, i); }
    PickGrows(s.past.admitted, t.past.admitted, Backlog(s), kind, s.seqs.conn);
  }

  lemma InOrderStrand(s: State, choice: bool, kind: Kind)
    requires Ground(s) && InOrder(s, kind) && Up(s) && Up(StrandStep(s, choice))
    ensures InOrder(StrandStep(s, choice), kind)
  {
    hide Ground, InOrder, Apply, RunHandler, StepRouting, StepReporting, StepWriting, StepBeginning, Disconnect,
      FinishCleanup, Pick, PickWire, PickAccepted, Queued;
    match s.pc
    case Ready => InOrderHandler(s, kind);
    case Routing(_) => InOrderRouting(s, kind);
    case Reporting(_, _) => InOrderReporting(s, kind);
    case Writing(_) => InOrderWriting(s, kind);
    case Beginning(_, _) => InOrderBeginning(s, kind);
    case _ => InOrderRest(s, choice, kind);
  }

  lemma InOrderReporting(s: State, kind: Kind)
    requires InOrder(s, kind) && s.pc.Reporting?
    ensures InOrder(StepReporting(s), kind)
  {
    hide InOrder, Queued;
    assert Backlog(StepReporting(s)) == Backlog(s);
    SameBacklog(s, StepReporting(s), kind);
  }

  lemma InOrderWriting(s: State, kind: Kind)
    requires InOrder(s, kind) && s.pc.Writing? && !s.life.stopping
    ensures InOrder(StepWriting(s), kind)
  {
    hide InOrder, Queued, GatherFrom;
    assert Backlog(StepWriting(s)) == Backlog(s);
    SameBacklog(s, StepWriting(s), kind);
  }

  /** A reserved write is routed behind everything of its kind. */
  lemma InOrderRouting(s: State, kind: Kind)
    requires Ground(s) && InOrder(s, kind) && Up(s) && s.pc.Routing?
    ensures InOrder(StepRouting(s), kind)
  {
    hide InOrder, Apply, Queued, LiveIsCurrent, Sourced, WirePinned, AllPlaced, StopsAhead, StartRunsWithin;
    NeverRejected(s);
    assert Backlog(StepRouting(s)) == Backlog(s);
    SameBacklog(s, StepRouting(s), kind);
  }

  /** The handoff: whatever the ledger lets through was admitted under the current number. */
  lemma InOrderBeginning(s: State, kind: Kind)
    requires Ground(s) && InOrder(s, kind) && s.pc.Beginning?
    ensures InOrder(StepBeginning(s), kind)
  {
    hide Apply, Queued, Pick, PickWire, PickAccepted, Handoffs, Runs, Sourced, Within, AllPlaced, StopsAhead, Sorted,
      WirePinned;
    var t, batch := StepBeginning(s), s.pc.batch;
    if t.past.wire == s.past.wire {
      hide InOrder;
      assert Backlog(t) == Backlog(s) by { BatchReturned(s); }
      SameBacklog(s, t, kind);
    } else {
      assert Backlog(s) == batch + Backlog(t);
      PickConcat(s.past.admitted, batch, Backlog(t), kind, s.seqs.conn);
      forall i | 0 <= i < |batch| ensures From(s.past.admitted, batch[i], s.seqs.conn) {
        assert Ids(batch)[i] == batch[i].id && IsLive(s.ledger.records, batch[i].id);
      }
      PickHandoffs(s.past.admitted, s.past.wire, batch, s.seqs, kind);
    }
  }

  lemma BatchReturned(s: State)
    requires s.pc.Beginning? && StepBeginning(s).past.wire == s.past.wire
    ensures Backlog(StepBeginning(s)) == Backlog(s)
  {
    hide Apply, Queued, CanBegin;
    var t := StepBeginning(s);
    if t.pc.Initiating? {
      assert |t.past.wire| == |s.past.wire| + |Handoffs(s.pc.batch, s.seqs)|;
      assert s.pc.batch == [];
    }
  }

  lemma InOrderRest(s: State, choice: bool, kind: Kind)
    requires Ground(s) && InOrder(s, kind) && Up(s) && Up(StrandStep(s, choice))
    requires !s.pc.Ready? && !s.pc.Routing? && !s.pc.Reporting? && !s.pc.Writing? && !s.pc.Beginning?
    ensures InOrder(StrandStep(s, choice), kind)
  {
    hide InOrder, Apply, StrandStep, LiveIsCurrent, Sourced, WirePinned, AllPlaced, StopsAhead, StartRunsWithin,
      Within, Sorted;
    if NeedsMutex(s.pc) {
      MutexContext(s, choice);
    } else if !Losing(s.pc) {
      RestKeeps(s, choice);
      SameBacklog(s, StrandStep(s, choice), kind);
    }
  }

  lemma RestKeeps(s: State, choice: bool)
    requires s.pc.Rearming? || s.pc.Kicking? || s.pc.Resuming? || s.pc.Initiating? || s.pc.Announcing?
    ensures var t := StrandStep(s, choice);
            t.past == s.past && t.seqs.conn == s.seqs.conn && Backlog(t) == Backlog(s)
  {
    hide Queued, Bytes, Transition;
    if s.pc.Announcing? { QueuedSnoc(s.posted, KickWrite(s.pc.run, s.seqs.conn)); }
  }

  lemma InOrderHandler(s: State, kind: Kind)
    requires Ground(s) && InOrder(s, kind) && Up(s) && s.pc.Ready?
    ensures InOrder(RunHandler(s), kind)
  {
    hide Ground, InOrder, Queued, Release;
    if s.posted != [] {
      var t := RunHandler(s);
      QueuedPop(s.posted);
      NoCleanupWhileUp(s);
      LinkIsUp(s);
      if Routes(s.posted[0]) && s.posted[0].a.conn != s.seqs.conn {
        StaleIsDropped(s, t, kind);
      } else if s.posted[0].RouteTry? {
        RouteIsCurrent(s);
        OvertakesPlain(s, t, kind);
      } else {
        if s.posted[0].RouteWrite? { RouteIsCurrent(s); }
        assert Backlog(t) == Backlog(s);
        SameBacklog(s, t, kind);
      }
    }
  }

  /** A cleanup of an earlier run never meets a connection that is up. */
  lemma NoCleanupWhileUp(s: State)
    requires Ground(s) && Up(s) && s.posted != []
    ensures !s.posted[0].StopCleanup?
  {
    hide LiveIsCurrent, Sourced, WirePinned, AllPlaced, Within, Sorted;
  }

  lemma LinkIsUp(s: State)
    requires Ground(s) && Up(s) && s.pc.Ready?
    ensures s.life.link.Connected?
  {
    hide LiveIsCurrent, Sourced, WirePinned, AllPlaced, Within, Sorted, StopsAhead, StartRunsWithin;
  }

  /** A handler of the current number is one of the current run. */
  lemma RouteIsCurrent(s: State)
    requires Ground(s) && s.posted != [] && Routes(s.posted[0]) && s.posted[0].a.conn == s.seqs.conn
    ensures s.posted[0].a.run == s.seqs.current
  {
    hide LiveIsCurrent, Runs, WirePinned, Within, Sorted, StopsAhead;
    var a := s.posted[0].a;
    assert Known(s.past.admitted, a.item) && s.past.admitted[a.item.id - 1] == a;
    assert Placed(s, s.past.admitted[a.item.id - 1]);
  }

  lemma StaleIsDropped(s: State, t: State, kind: Kind)
    requires Ground(s) && InOrder(s, kind) && s.pc.Ready? && s.posted != [] && Routes(s.posted[0])
    requires s.posted[0].a.conn != s.seqs.conn && Queued(s.posted) == [s.posted[0].a.item] + Queued(t.posted)
    requires t.past == s.past && t.seqs == s.seqs && t.lanes == s.lanes && t.pc == s.pc
    ensures InOrder(t, kind)
  {
    hide LiveIsCurrent, Runs, WirePinned, Within, Sorted, StopsAhead, AllPlaced, Queued, Pick, PickWire, PickAccepted;
    var a, front, conn := s.posted[0].a, s.lanes.tx + s.lanes.pending, s.seqs.conn;
    assert Backlog(s) == (front + [a.item]) + Queued(t.posted) && Backlog(t) == front + Queued(t.posted);
    PickConcat(s.past.admitted, front + [a.item], Queued(t.posted), kind, conn);
    PickConcat(s.past.admitted, front, [a.item], kind, conn);
    PickConcat(s.past.admitted, front, Queued(t.posted), kind, conn);
    PickOne(s.past.admitted, a.item, kind, conn);
    assert Known(s.past.admitted, a.item) && s.past.admitted[a.item.id - 1] == a;
  }

  /** A try-write goes to tx past the pending plain writes: neither kind notices. */
  lemma OvertakesPlain(s: State, t: State, kind: Kind)
    requires Ground(s) && InOrder(s, kind) && s.pc.Ready? && s.posted != [] && s.posted[0].RouteTry?
    requires Queued(s.posted) == [s.posted[0].a.item] + Queued(t.posted) && !t.pc.Routing? && !t.pc.Beginning?
    requires t.past == s.past && t.seqs == s.seqs && t.lanes == s.lanes.(tx := s.lanes.tx + [s.posted[0].a.item])
    ensures InOrder(t, kind)
  {
    hide LiveIsCurrent, Runs, WirePinned, Within, StopsAhead, AllPlaced, Sourced, Queued, Pick, PickWire, PickAccepted;
    var x, tx, pending, rest := s.posted[0].a.item, s.lanes.tx, s.lanes.pending, Queued(t.posted);
    var admitted, conn := s.past.admitted, s.seqs.conn;
    assert Backlog(s) == tx + ((pending + [x]) + rest) && Backlog(t) == tx + (([x] + pending) + rest);
    PickConcat(admitted, tx, (pending + [x]) + rest, kind, conn);
    PickConcat(admitted, tx, ([x] + pending) + rest, kind, conn);
    PickConcat(admitted, pending + [x], rest, kind, conn);
    PickConcat(admitted, [x] + pending, rest, kind, conn);
    PickConcat(admitted, pending, [x], kind, conn);
    PickConcat(admitted, [x], pending, kind, conn);
    PickOne(admitted, x, kind, conn);
    if kind == Try { PickNone(admitted, pending, kind, conn); }
  }

  // ------------------------------------------------------------------
  // Whole runs
  // ------------------------------------------------------------------

  lemma {:induction false} AlwaysGround(threshold: nat, events: seq<Event>)
    ensures Ground(Reach(threshold, events))
    decreases |events|
  {
    hide Step, Runs, LiveIsCurrent, Sourced, WirePinned, Sane, Within, AllPlaced, StopsAhead, Sorted, RunBytes;
    ConnectionPinning(threshold, events);
    ClientStaysWithinLimit(threshold, events);
    if events == [] {
      FreshGround(threshold);
    } else {
      var before := events[..|events| - 1];
      var s, e := Reach(threshold, before), events[|events| - 1];
      AlwaysGround(threshold, before);
      PlacedStep(s, e);
      StopsAheadStep(s, e);
      SortedStep(s, e);
    }
  }

  lemma FreshGround(threshold: nat)
    ensures var s := Initial(threshold); AllPlaced(s) && StopsAhead(s) && Sorted(s)
  {
  }

  /** Under every number what was handed over is a beginning of what was accepted. */
  ghost predicate Prefixes(s: State, kind: Kind) {
    forall conn :: PickWire(s.past.wire, kind, conn) <= PickAccepted(s.past.accepted, kind, conn)
  }

  lemma PrefixesStep(s: State, e: Event, kind: Kind)
    requires Prefixes(s, kind) && (!s.life.stopping ==> InOrder(s, kind))
    requires !Step(s, e).life.stopping ==> InOrder(Step(s, e), kind)
    ensures Prefixes(Step(s, e), kind)
  {
    hide Step, Pick, PickWire, PickAccepted, Backlog;
    var t := Step(s, e);
    WireStep(s, e);
    RecordMoves(s, e);
    HandoffNeedsUp(s, e);
    forall conn ensures PickWire(t.past.wire, kind, conn) <= PickAccepted(t.past.accepted, kind, conn) {
      assert PickWire(s.past.wire, kind, conn) <= PickAccepted(s.past.accepted, kind, conn);
      if t.past.accepted != s.past.accepted {
        PickAcceptedSnoc(s.past.accepted, s.admitting.value, kind, conn);
      }
      if t.past.wire != s.past.wire && conn != s.seqs.conn {
        PickHandoffsElsewhere(s.past.wire, s.pc.batch, s.seqs, kind, conn);
      }
    }
  }

  /** A step that hands something over neither stops, connects nor accepts. */
  lemma HandoffNeedsUp(s: State, e: Event)
    ensures var t := Step(s, e);
            t.past.wire != s.past.wire ==>
              !t.life.stopping && t.seqs.conn == s.seqs.conn && t.past.accepted == s.past.accepted
  {
    hide Apply, Accepts, Sizes, Bytes, Release, DecideEnqueue, GatherCount, CanBegin, Ids, Handoffs, Transition;
  }

  /**
   Every run: under each connection number, each kind of write reaches the wire in
   acceptance order, with no gap. Unless the client is stopping, what was accepted
   under the current number and not handed over is exactly the backlog of it, in that
   order.
   */
  lemma {:induction false} ClientWireFollowsAcceptance(threshold: nat, events: seq<Event>, kind: Kind)
    ensures var s := Reach(threshold, events);
            && Prefixes(s, kind)
            && (!s.life.stopping ==> InOrder(s, kind))
    decreases |events|
  {
    hide Step, Ground, InOrder, Prefixes;
    if events == [] {
      FreshInOrder(threshold, kind);
    } else {
      var before := events[..|events| - 1];
      var s, e := Reach(threshold, before), events[|events| - 1];
      ClientWireFollowsAcceptance(threshold, before, kind);
      AlwaysGround(threshold, before);
      AlwaysGround(threshold, events);
      if !Step(s, e).life.stopping { InOrderStep(s, e, kind); }
      PrefixesStep(s, e, kind);
    }
  }

  lemma InOrderStep(s: State, e: Event, kind: Kind)
    requires Ground(s) && Ground(Step(s, e)) && !Step(s, e).life.stopping && (!s.life.stopping ==> InOrder(s, kind))
    ensures InOrder(Step(s, e), kind)
  {
    hide Step, InOrder, Runs, LiveIsCurrent, Sourced, WirePinned, Within, AllPlaced, StopsAhead, Sorted, Unused;
    UpOrUnused(s, e);
    if Unused(Step(s, e)) {
      UnusedInOrder(Step(s, e), kind);
    } else {
      InOrderSame(s, e, kind);
    }
  }

  lemma FreshInOrder(threshold: nat, kind: Kind)
    ensures var s := Initial(threshold); Prefixes(s, kind) && InOrder(s, kind)
  {
  }
}
