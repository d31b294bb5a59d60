/**
 Connection pinning: over every run of connects, losses, idle timeouts, stops and
 restarts, with stale handlers and completions arriving at any time, a request
 is handed to I/O only under the connection number that admitted it.
 */
module ClientPinning {
  import opened Options
  import opened SendAccounting
  import opened SendHistory
  import opened SendFates
  import opened Stepwise
  import opened Octets
  import opened Queues
  import opened ClientModel

  // ------------------------------------------------------------------
  // Runs and connection attempts
  // ------------------------------------------------------------------

  predicate StartRunsWithin(posted: seq<Handler>, low: nat, high: nat) {
    && (forall i | 0 <= i < |posted| && posted[i].StartRun? :: low < posted[i].run <= high)
    && (forall i, j | 0 <= i < j < |posted| && posted[i].StartRun? && posted[j].StartRun? ::
        posted[i].run < posted[j].run)
  }

  /** The last run whose strand part has begun or is beginning. */
  function LastBegun(s: State): nat {
    if s.pc.Starting? || s.pc.Resetting? then s.pc.run else s.seqs.begun
  }

  /** The strand is in a handler that belongs to the current run. */
  predicate InRun(pc: Pc) {
    pc.Beginning? || pc.Initiating? || pc.Closing? || pc.Discarding? || pc.Leaving? || pc.Retrying? || pc.Announcing?
  }

  /** The strand is between losing the connection and choosing what to do about it. */
  predicate Losing(pc: Pc) {
    pc.Discarding? || pc.Leaving? || pc.Starting? || pc.Resetting?
  }

  predicate AllWithin(runs: seq<nat>, high: nat) {
    forall i | 0 <= i < |runs| :: runs[i] <= high
  }

  predicate FlightsWithin(flights: seq<Flight>, high: nat) {
    forall i | 0 <= i < |flights| :: flights[i].run <= high
  }

  lemma FlightsDrop(flights: seq<Flight>, i: nat, high: nat)
    requires FlightsWithin(flights, high) && i < |flights|
    ensures FlightsWithin(flights[..i] + flights[i + 1..], high) && flights[i].run <= high
  {
  }

  lemma FlightsAdd(flights: seq<Flight>, f: Flight, high: nat)
    requires FlightsWithin(flights, high) && f.run <= high
    ensures FlightsWithin(flights + [f], high)
  {
  }

  /** Whatever connects, retries, flies or is up belongs to a run that has begun. */
  predicate Runs(s: State) {
    && s.seqs.current == s.seqs.lifecycle
    && s.seqs.begun <= LastBegun(s) <= s.seqs.current
    && (s.pc.Starting? || s.pc.Resetting? ==> s.seqs.begun < s.pc.run)
    && StartRunsWithin(s.posted, LastBegun(s), s.seqs.current)
    && AllWithin(s.net.attempts, s.seqs.begun) && AllWithin(s.net.retries, s.seqs.begun)
    && FlightsWithin(s.flights, s.seqs.begun)
    && (s.life.connected ==> s.seqs.current <= s.seqs.begun && (s.life.link.Connected? || s.pc.Announcing?))
    && (Losing(s.pc) ==> !s.life.connected)
    && (s.pc.Beginning? || s.pc.Initiating? ==> s.life.connected)
    && (InRun(s.pc) ==> s.seqs.current <= s.seqs.begun)
  }

  /** Runs reads only the sequence numbers, life, network, handlers, flights and the shape of pc. */
  predicate SameRun(s: State, t: State) {
    t.seqs == s.seqs && t.life == s.life && t.net == s.net && t.flights == s.flights && t.posted == s.posted
  }

  /** pc conditions of Runs. */
  predicate PcFits(s: State, pc: Pc) {
    && !pc.Starting? && !pc.Resetting?
    && (s.life.connected && !s.life.link.Connected? ==> pc.Announcing?)
    && (Losing(pc) ==> !s.life.connected)
    && (pc.Beginning? || pc.Initiating? ==> s.life.connected)
    && (InRun(pc) ==> s.seqs.current <= s.seqs.begun)
  }

  lemma RunsFrame(s: State, t: State)
    requires Runs(s) && SameRun(s, t) && !s.pc.Starting? && !s.pc.Resetting? && PcFits(s, t.pc)
    ensures Runs(t)
  {
  }

  lemma RunsStep(s: State, e: Event)
    requires Runs(s)
    ensures Runs(Step(s, e))
  {
    hide Runs, Apply, Accepts, StrandStep, RequestStop, RequestStart, OnWrite, Sizes, Bytes;
    match e
    case Strand(choice) => RunsStrand(s, choice);
    case Start => RunsStart(s);
    case Stop => RunsStop(s);
    case Admitted => if s.admitting.Some? { RunsPost(s); }
    case WriteCompleted(i, n, outcome) =>
      if s.pc.Ready? && i < |s.flights| { RunsComplete(s, i, n, outcome); }
    case _ => RunsNetwork(s, e);
  }

  lemma RunsNetwork(s: State, e: Event)
    requires Runs(s) && !e.Strand? && !e.Start? && !e.Stop? && !e.Admitted? && !e.WriteCompleted?
    ensures Runs(Step(s, e))
  {
    hide Apply, Accepts, StartRunsWithin;
  }

  lemma RunsPost(s: State)
    requires Runs(s) && s.admitting.Some?
    ensures Runs(Post(s))
  {
    hide Apply;
    var t := Post(s);
    assert forall i | 0 <= i < |s.posted| :: t.posted[i] == s.posted[i];
  }

  lemma RunsStop(s: State)
    requires Runs(s)
    ensures Runs(RequestStop(s))
  {
    hide Apply;
    var t := RequestStop(s);
    assert forall i | 0 <= i < |s.posted| :: t.posted[i] == s.posted[i];
  }

  lemma RunsComplete(s: State, i: nat, n: nat, outcome: Outcome)
    requires Runs(s) && s.pc.Ready? && i < |s.flights|
    ensures Runs(OnWrite(s, i, n, outcome))
  {
    hide Apply, Sizes, StartRunsWithin, FlightsWithin, AllWithin, Release;
    FlightsDrop(s.flights, i, s.seqs.begun);
  }

  lemma RunsStart(s: State)
    requires Runs(s)
    ensures Runs(RequestStart(s))
  {
    hide Apply;
    if Interruptible(s.pc) && !s.life.link.Connecting? && !s.life.link.Connected? {
      var t := RequestStart(s);
      forall i | 0 <= i < |t.posted| && t.posted[i].StartRun? ensures LastBegun(t) < t.posted[i].run <= t.seqs.current {
        if i < |s.posted| { assert t.posted[i] == s.posted[i]; }
      }
    }
  }

  lemma RunsStrand(s: State, choice: bool)
    requires Runs(s)
    ensures Runs(StrandStep(s, choice))
  {
    hide Runs, Apply, RunHandler, StepRouting, StepReporting, StepRearming, StepResuming, StepWriting, StepBeginning,
      StepInitiating, StepDiscarding, StepLeaving, StepRetrying, StepAnnouncing, StepResetting, FinishCleanup,
      Disconnect;
    match s.pc
    case Ready => RunsHandler(s);
    case Initiating(_, _) => RunsInitiating(s, choice);
    case Announcing(_) => RunsAnnouncing(s);
    case Routing(_) => RunsQuiet(s, choice);
    case Reporting(_, _) => RunsQuiet(s, choice);
    case Rearming(_) => RunsQuiet(s, choice);
    case Kicking(_) => RunsQuiet(s, choice);
    case Resuming(_) => RunsQuiet(s, choice);
    case Writing(_) => RunsQuiet(s, choice);
    case Beginning(_, _) => RunsQuiet(s, choice);
    case _ => RunsLoss(s, choice);
  }

  lemma RunsQuiet(s: State, choice: bool)
    requires Runs(s)
    requires s.pc.Routing? || s.pc.Reporting? || s.pc.Rearming? || s.pc.Kicking? || s.pc.Resuming? || s.pc.Writing?
             || s.pc.Beginning?
    ensures Runs(StrandStep(s, choice))
  {
    hide Apply, CanBegin, Bytes, GatherCount, DecideEnqueue, Ids, Handoffs, StartRunsWithin, FlightsWithin, AllWithin;
    var t := StrandStep(s, choice);
    assert SameRun(s, t);
    RunsFrame(s, t);
  }

  lemma RunsInitiating(s: State, choice: bool)
    requires Runs(s) && s.pc.Initiating?
    ensures Runs(StepInitiating(s, choice))
  {
    hide Bytes, StartRunsWithin, FlightsWithin, AllWithin;
    if !choice {
      FlightsAdd(s.flights, Flight(s.pc.batch, Bytes(s.pc.batch), s.seqs.current, s.seqs.conn), s.seqs.begun);
    }
  }

  lemma RunsAnnouncing(s: State)
    requires Runs(s) && s.pc.Announcing?
    ensures Runs(StepAnnouncing(s))
  {
    var t := StepAnnouncing(s);
    assert forall i | 0 <= i < |s.posted| :: t.posted[i] == s.posted[i];
  }

  lemma RunsLoss(s: State, choice: bool)
    requires Runs(s)
    ensures s.pc.Closing? ==> Runs(Disconnect(s).(pc := Discarding(s.pc.reason, s.pc.k)))
    ensures s.pc.Discarding? ==> Runs(StepDiscarding(s))
    ensures s.pc.Leaving? ==> Runs(StepLeaving(s))
    ensures s.pc.Retrying? ==> Runs(StepRetrying(s, choice))
    ensures s.pc.Starting? ==> Runs(Disconnect(s).(pc := Resetting(s.pc.run)))
    ensures s.pc.Resetting? ==> Runs(StepResetting(s))
    ensures s.pc.Cleaning? ==> Runs(FinishCleanup(s))
  {
    hide Apply, StartRunsWithin;
  }

  lemma RunsHandler(s: State)
    requires Runs(s) && s.pc.Ready?
    ensures Runs(RunHandler(s))
  {
    hide Apply, StartRunsWithin;
    if s.posted != [] {
      StartRunsPop(s.posted, LastBegun(s), s.seqs.current);
    }
  }

  lemma StartRunsPop(posted: seq<Handler>, low: nat, high: nat)
    requires posted != [] && StartRunsWithin(posted, low, high)
    ensures StartRunsWithin(posted[1..], low, high)
    ensures posted[0].StartRun? ==> low < posted[0].run <= high && StartRunsWithin(posted[1..], posted[0].run, high)
  {
    assert forall i | 0 <= i < |posted| - 1 :: posted[1..][i] == posted[i + 1];
  }

  // ------------------------------------------------------------------
  // The ledger
  // ------------------------------------------------------------------

  /** The event puts the request being admitted into the ledger, for good or to be rolled back. */
  predicate Enters(e: Event) {
    e.Admitted? || (e.AdmissionThrows? && e.entered)
  }

  /** The ledger operation a step performs, if any (OnWrite may perform a second, the end of the connection). */
  lemma LedgerFollows(s: State, e: Event)
    ensures Extends(s.ledger.records, Step(s, e).ledger.records)
    ensures |Step(s, e).ledger.records| == |s.ledger.records| + (if Enters(e) && s.admitting.Some? then 1 else 0)
    ensures Sane(s.ledger.records) ==> Sane(Step(s, e).ledger.records)
  {
    hide Apply, Extends, Sane, Accepts, StrandStep, Bytes, GatherCount, DecideEnqueue, Sizes, Ids, Handoffs;
    ExtendsSelf(s.ledger.records);
    LedgerOp(s.ledger, End(ConnectionLoss));
    match e
    case Strand(choice) => LedgerFollowsStrand(s, choice);
    case Admitted => if s.admitting.Some? { LedgerOp(s.ledger, Admit(|s.admitting.value.item.data|, None)); }
    case AdmissionThrows(_) =>
      if s.admitting.Some? {
        var n, id := |s.admitting.value.item.data|, s.admitting.value.item.id;
        var h := Apply(s.ledger, Admit(n, None));
        LedgerOp(s.ledger, Admit(n, None));
        LedgerOp(h, Rollback(id));
        ExtendsTwice(s.ledger.records, h.records, Apply(h, Rollback(id)).records);
      }
    case Stop => LedgerFollowsStop(s);
    case ResetStats => LedgerOp(s.ledger, Reset);
    case WriteCompleted(i, n, outcome) =>
      if i < |s.flights| {
        var op := CompleteBatch(Sizes(s.flights[i].items), n);
        LedgerOp(s.ledger, op);
        LedgerOp(Apply(s.ledger, op), End(ConnectionLoss));
        ExtendsTwice(s.ledger.records, Apply(s.ledger, op).records,
                     Apply(Apply(s.ledger, op), End(ConnectionLoss)).records);
      }
    case _ =>
  }

  lemma LedgerFollowsStop(s: State)
    ensures Extends(s.ledger.records, RequestStop(s).ledger.records)
    ensures |RequestStop(s).ledger.records| == |s.ledger.records|
    ensures Sane(s.ledger.records) ==> Sane(RequestStop(s).ledger.records)
  {
    hide Apply, Extends, Sane;
    ExtendsSelf(s.ledger.records);
    var h := Apply(s.ledger, End(ExplicitStop));
    LedgerOp(s.ledger, End(ExplicitStop));
    LedgerOp(h, End(ConnectionLoss));
    ExtendsTwice(s.ledger.records, h.records, Apply(h, End(ConnectionLoss)).records);
  }

  lemma LedgerFollowsStrand(s: State, choice: bool)
    ensures Extends(s.ledger.records, StrandStep(s, choice).ledger.records)
    ensures |StrandStep(s, choice).ledger.records| == |s.ledger.records|
    ensures Sane(s.ledger.records) ==> Sane(StrandStep(s, choice).ledger.records)
  {
    hide Apply, Extends, Sane, Bytes, GatherCount, DecideEnqueue, Ids, Handoffs, CanBegin;
    ExtendsSelf(s.ledger.records);
    LedgerOp(s.ledger, End(ConnectionLoss));
    match s.pc
    case Routing(item) => LedgerOp(s.ledger, Discard(item.id, QueuePressure));
    case Beginning(batch, _) => LedgerOp(s.ledger, BeginBatch(Ids(batch)));
    case _ =>
  }

  lemma LedgerOp(h: History, op: Op)
    ensures Extends(h.records, Apply(h, op).records)
    ensures |Apply(h, op).records| == |h.records| + (if op.Admit? then 1 else 0)
    ensures Sane(h.records) ==> Sane(Apply(h, op).records)
  {
    ApplyExtends(h, op);
  }

  predicate NoneLive(rs: seq<Record>) {
    forall i | 0 <= i < |rs| :: !Live(rs[i])
  }

  lemma EndLeavesNone(h: History, cause: Cause)
    ensures NoneLive(Apply(h, End(cause)).records)
  {
  }

  /** Requests are numbered in admission order. */
  ghost predicate Numbered(s: State) {
    && |s.past.admitted| == |s.ledger.records|
    && (forall i | 0 <= i < |s.past.admitted| :: s.past.admitted[i].item.id == i + 1)
    && (s.admitting.Some? ==> s.admitting.value.item.id == |s.ledger.records| + 1)
  }

  /** The connection is up, not stopping, and is the one `a` was admitted on. */
  predicate OnCurrent(s: State, a: Admission) {
    s.life.connected && !s.life.stopping && a.conn == s.seqs.conn && a.run == s.seqs.current
  }

  /** The fence: a request is live only while the number it was admitted under is current, up and not stopping. */
  ghost predicate LiveIsCurrent(s: State) {
    && Numbered(s)
    && (forall i | 0 <= i < |s.ledger.records| && Live(s.ledger.records[i]) :: OnCurrent(s, s.past.admitted[i]))
    && (s.admitting.Some? ==> OnCurrent(s, s.admitting.value))
  }

  /** What LiveIsCurrent reads of the connection. */
  function Context(s: State): (bool, bool, nat, nat) {
    (s.life.connected, s.life.stopping, s.seqs.conn, s.seqs.current)
  }

  lemma LiveFrame(s: State, t: State)
    requires LiveIsCurrent(s) && Context(t) == Context(s)
    requires t.past.admitted == s.past.admitted && t.admitting == s.admitting
    requires Extends(s.ledger.records, t.ledger.records) && |t.ledger.records| == |s.ledger.records|
    ensures LiveIsCurrent(t)
  {
  }

  lemma LiveNone(s: State, t: State)
    requires Numbered(s) && s.admitting.None? && NoneLive(t.ledger.records)
    requires t.past.admitted == s.past.admitted && t.admitting == s.admitting
             && |t.ledger.records| == |s.ledger.records|
    ensures LiveIsCurrent(t)
  {
  }

  /** A disconnected or stopping client has nothing live. */
  lemma DownMeansNone(s: State)
    requires LiveIsCurrent(s) && (!s.life.connected || s.life.stopping)
    ensures NoneLive(s.ledger.records) && s.admitting.None?
  {
  }

  lemma LiveStep(s: State, e: Event)
    requires Runs(s) && LiveIsCurrent(s)
    ensures LiveIsCurrent(Step(s, e))
  {
    hide Runs, LiveIsCurrent, Extends, Apply, Accepts, StrandStep, RequestStop, RequestStart, OnWrite, OnCurrent,
      NoneLive;
    LedgerFollows(s, e);
    match e
    case Strand(choice) => LiveStrand(s, choice);
    case Write(data, kind, expected) => LiveReserve(s, data, kind, expected);
    case Admitted => if s.admitting.Some? { LivePost(s); }
    case AdmissionThrows(entered) => if s.admitting.Some? { LiveAbandon(s, entered); }
    case Stop => if s.admitting.None? { LiveStop(s); }
    case Start => if s.admitting.None? { LiveStart(s); }
    case WriteCompleted(i, n, outcome) =>
      if s.pc.Ready? && i < |s.flights| && !(s.admitting.Some? && !outcome.Ok?) { LiveOnWrite(s, i, n, outcome); }
    case ConnectSucceeded(i) => if s.admitting.None? { LiveConnect(s, i); }
    case _ => LiveFrame(s, Step(s, e));
  }

  lemma LiveReserve(s: State, data: seq<Byte>, kind: Kind, expected: Option<nat>)
    requires LiveIsCurrent(s)
    ensures s.admitting.None? && Accepts(s, data, kind, expected) ==> LiveIsCurrent(Reserve(s, data, kind))
  {
  }

  lemma LivePost(s: State)
    requires LiveIsCurrent(s) && s.admitting.Some?
    ensures LiveIsCurrent(Post(s))
  {
    assert Post(s).ledger.records
           == s.ledger.records + [Record(|s.admitting.value.item.data|, s.ledger.epoch, None, Waiting)];
  }

  lemma LiveAbandon(s: State, entered: bool)
    requires LiveIsCurrent(s) && s.admitting.Some?
    ensures LiveIsCurrent(Abandon(s, entered))
  {
    hide Apply;
    AdmitRollback(s.ledger, |s.admitting.value.item.data|);
  }

  lemma LiveStop(s: State)
    requires LiveIsCurrent(s) && s.admitting.None?
    ensures LiveIsCurrent(RequestStop(s))
  {
    hide Extends, Apply, NoneLive, Live, OnCurrent;
    if !s.life.stopping {
      var h := Apply(s.ledger, End(ExplicitStop));
      EndLeavesNone(s.ledger, ExplicitStop);
      EndLeavesNone(h, ConnectionLoss);
      LedgerFollowsStop(s);
      LiveNone(s, RequestStop(s));
    }
  }

  lemma LiveStart(s: State)
    requires Runs(s) && LiveIsCurrent(s) && s.admitting.None?
    ensures LiveIsCurrent(RequestStart(s))
  {
    hide Extends, Apply, NoneLive, Live, OnCurrent, StartRunsWithin;
    if Interruptible(s.pc) && !s.life.link.Connecting? && !s.life.link.Connected? {
      DownMeansNone(s);
      LiveNone(s, RequestStart(s));
    }
  }

  lemma LiveConnect(s: State, i: nat)
    requires Runs(s) && LiveIsCurrent(s) && s.admitting.None?
    ensures LiveIsCurrent(Step(s, ConnectSucceeded(i)))
  {
    hide Extends, Apply, NoneLive, Live, OnCurrent, StartRunsWithin;
    var t := Step(s, ConnectSucceeded(i));
    ExtendsSelf(s.ledger.records);
    if Context(t) == Context(s) {
      LiveFrame(s, t);
    } else {
      DownMeansNone(s);
      LiveNone(s, t);
    }
  }

  lemma LiveDisconnect(s: State, t: State)
    requires LiveIsCurrent(s) && s.admitting.None?
    requires t.past.admitted == s.past.admitted && t.admitting == s.admitting && t.ledger == Disconnect(s).ledger
    requires Context(t) == Context(Disconnect(s))
    ensures LiveIsCurrent(t)
  {
    hide Extends, Apply, NoneLive, Live, OnCurrent;
    ExtendsSelf(s.ledger.records);
    LedgerOp(s.ledger, End(ConnectionLoss));
    EndLeavesNone(s.ledger, ConnectionLoss);
    if s.life.connected {
      LiveNone(s, t);
    } else {
      LiveFrame(s, t);
    }
  }

  lemma LiveOnWrite(s: State, i: nat, n: nat, outcome: Outcome)
    requires LiveIsCurrent(s) && i < |s.flights| && (s.admitting.Some? ==> outcome.Ok?)
    ensures LiveIsCurrent(OnWrite(s, i, n, outcome))
  {
    hide LiveIsCurrent, Extends, Apply, NoneLive, Live, OnCurrent, Sizes;
    var op := CompleteBatch(Sizes(s.flights[i].items), n);
    var u := s.(ledger := Apply(s.ledger, op));
    LedgerOp(s.ledger, op);
    LiveFrame(s, u);
    var t := OnWrite(s, i, n, outcome);
    if t.ledger != u.ledger || Context(t) != Context(u) {
      LiveDisconnect(u, t);
    } else {
      ExtendsSelf(u.ledger.records);
      LiveFrame(u, t);
    }
  }

  /** Only the steps under the mutex change the connection, and no strand step admits anything. */
  lemma StrandContext(s: State, choice: bool)
    ensures !NeedsMutex(s.pc) ==> Context(StrandStep(s, choice)) == Context(s)
    ensures var t := StrandStep(s, choice);
            t.past.admitted == s.past.admitted && t.past.accepted == s.past.accepted && t.admitting == s.admitting
  {
    hide Apply, Bytes, RunHandler, GatherCount, DecideEnqueue, Ids, Handoffs, CanBegin, Release;
    if s.pc.Ready? {
      HandlerFrame(s);
    } else if NeedsMutex(s.pc) {
      MutexFrame(s, choice);
    } else {
      QuietFrame(s, choice);
    }
  }

  lemma QuietFrame(s: State, choice: bool)
    requires !s.pc.Ready? && !NeedsMutex(s.pc)
    ensures var t := StrandStep(s, choice);
            && Context(t) == Context(s)
            && t.past.admitted == s.past.admitted && t.past.accepted == s.past.accepted && t.admitting == s.admitting
  {
    hide Apply, Bytes, RunHandler, GatherCount, DecideEnqueue, Ids, Handoffs, CanBegin, Release, Disconnect,
      FinishCleanup;
  }

  lemma MutexFrame(s: State, choice: bool)
    requires NeedsMutex(s.pc)
    ensures StrandStep(s, choice).past == s.past && StrandStep(s, choice).admitting == s.admitting
  {
    hide Apply;
  }

  lemma MutexContext(s: State, choice: bool)
    requires NeedsMutex(s.pc)
    ensures Context(StrandStep(s, choice)) == Context(Disconnect(s))
            && StrandStep(s, choice).ledger == Disconnect(s).ledger
  {
    hide Apply;
  }

  lemma LiveStrand(s: State, choice: bool)
    requires LiveIsCurrent(s)
    ensures !(s.admitting.Some? && NeedsMutex(s.pc)) ==> LiveIsCurrent(StrandStep(s, choice))
  {
    hide LiveIsCurrent, Extends, StrandStep, Context;
    var t := StrandStep(s, choice);
    LedgerFollowsStrand(s, choice);
    StrandContext(s, choice);
    if NeedsMutex(s.pc) {
      MutexContext(s, choice);
      if s.admitting.None? { LiveDisconnect(s, t); }
    } else {
      LiveFrame(s, t);
    }
  }

  // ------------------------------------------------------------------
  // Where queued items come from
  // ------------------------------------------------------------------

  function PcItems(pc: Pc): seq<Item> {
    if pc.Routing? then [pc.item] else if pc.Beginning? || pc.Initiating? then pc.batch else []
  }

  /** The item is in tx, pending, the active batch, or in the hands of the running handler. */
  predicate Holds(s: State, x: Item) {
    x in s.lanes.tx || x in s.lanes.pending || (s.lanes.active.Some? && x in s.lanes.active.value) || x in PcItems(s.pc)
  }

  predicate Routes(h: Handler) {
    h.RouteWrite? || h.RouteTry?
  }

  /** The next handler brings x in, and its captured run and connection are current. */
  predicate Brings(s: State, x: Item) {
    s.posted != [] && Routes(s.posted[0]) && s.posted[0].a.item == x && s.posted[0].a.conn == s.seqs.conn
  }

  lemma HoldsStep(s: State, e: Event, x: Item)
    requires Holds(Step(s, e), x)
    ensures Holds(s, x) || (e.Strand? && s.pc.Ready? && Brings(s, x))
            || (e.WriteCompleted? && e.i < |s.flights| && x in s.flights[e.i].items && Step(s, e).pc.Closing?)
  {
    hide Apply, Accepts, StrandStep, Sizes, Release;
    match e
    case Strand(choice) => if Step(s, e) != s { HoldsStrand(s, choice, x); }
    case _ =>
  }

  lemma HoldsStrand(s: State, choice: bool, x: Item)
    requires Holds(StrandStep(s, choice), x)
    ensures Holds(s, x) || (s.pc.Ready? && Brings(s, x))
  {
    hide Holds, Apply, RunHandler, StepRouting, StepReporting, StepRearming, StepResuming, StepWriting, StepBeginning,
      StepInitiating, StepDiscarding, StepLeaving, StepRetrying, StepAnnouncing, StepResetting, FinishCleanup,
      Disconnect;
    match s.pc
    case Ready => HoldsHandler(s, x);
    case Routing(_) => HoldsRouting(s, x);
    case Reporting(_, _) => HoldsRouting(s, x);
    case Writing(_) => HoldsWriting(s, x);
    case Beginning(_, _) => HoldsWriting(s, x);
    case _ => HoldsRest(s, choice, x);
  }

  lemma HoldsHandler(s: State, x: Item)
    requires Holds(RunHandler(s), x) && s.pc.Ready?
    ensures Holds(s, x) || Brings(s, x)
  {
    hide Release;
  }

  lemma HoldsRouting(s: State, x: Item)
    ensures s.pc.Routing? && Holds(StepRouting(s), x) ==> Holds(s, x)
    ensures s.pc.Reporting? && Holds(StepReporting(s), x) ==> Holds(s, x)
  {
    hide Apply, DecideEnqueue, Release;
  }

  lemma HoldsWriting(s: State, x: Item)
    ensures s.pc.Writing? && Holds(StepWriting(s), x) ==> Holds(s, x)
    ensures s.pc.Beginning? && Holds(StepBeginning(s), x) ==> Holds(s, x)
  {
    hide Apply, GatherFrom, CanBegin, Ids, Handoffs;
  }

  lemma HoldsRest(s: State, choice: bool, x: Item)
    requires !s.pc.Ready? && !s.pc.Routing? && !s.pc.Reporting? && !s.pc.Writing? && !s.pc.Beginning?
    requires Holds(StrandStep(s, choice), x)
    ensures Holds(s, x)
  {
    hide Apply, Bytes;
  }

  // ------------------------------------------------------------------
  // Pinning
  // ------------------------------------------------------------------

  /** x is the item admitted under its id. */
  predicate Known(accepted: seq<Admission>, x: Item) {
    1 <= x.id <= |accepted| && accepted[x.id - 1].item == x
  }

  /** Everything queued, in flight or posted was admitted, and handlers carry what their admission captured. */
  ghost predicate Sourced(s: State) {
    && (forall x | Holds(s, x) :: Known(s.past.admitted, x))
    && (forall i, x | 0 <= i < |s.flights| && x in s.flights[i].items :: Known(s.past.admitted, x))
    && (forall i | 0 <= i < |s.posted| && Routes(s.posted[i]) ::
          Known(s.past.admitted, s.posted[i].a.item) && s.past.admitted[s.posted[i].a.item.id - 1] == s.posted[i].a)
  }

  /** The strand has lost the connection and not yet discarded its queues. */
  predicate Discards(pc: Pc) {
    pc.Closing? || pc.Discarding?
  }

  /** Every held item was admitted on the current connection. */
  ghost predicate Pinned(s: State) {
    && (!Discards(s.pc) ==> forall x | Holds(s, x) && Known(s.past.admitted, x) ::
        s.past.admitted[x.id - 1].conn == s.seqs.conn)
    && (s.pc.Cleaning? ==> forall x :: !Holds(s, x))
  }

  lemma KnownGrows(a: seq<Admission>, b: seq<Admission>, x: Item)
    requires a <= b && Known(a, x)
    ensures Known(b, x) && b[x.id - 1] == a[x.id - 1]
  {
  }

  lemma SourcedStep(s: State, e: Event)
    requires Sourced(s) && Numbered(s)
    ensures Sourced(Step(s, e))
  {
    hide Step, Holds, Numbered;
    var t := Step(s, e);
    AcceptedGrows(s, e);
    forall x | Holds(t, x) ensures Known(t.past.admitted, x) {
      HoldsStep(s, e, x);
      assert Known(s.past.admitted, x);
      KnownGrows(s.past.admitted, t.past.admitted, x);
    }
    forall i, x | 0 <= i < |t.flights| && x in t.flights[i].items ensures Known(t.past.admitted, x) {
      FlightsStep(s, e, i, x);
      KnownGrows(s.past.admitted, t.past.admitted, x);
    }
    forall i | 0 <= i < |t.posted| && Routes(t.posted[i])
      ensures Known(t.past.admitted, t.posted[i].a.item) && t.past.admitted[t.posted[i].a.item.id - 1] == t.posted[i].a
    {
      PostedStep(s, e, i);
    }
  }

  lemma AcceptedGrows(s: State, e: Event)
    requires Numbered(s)
    ensures s.past.admitted <= Step(s, e).past.admitted
    ensures Enters(e) && s.admitting.Some? ==> Step(s, e).past.admitted == s.past.admitted + [s.admitting.value]
  {
    hide Apply, Accepts, StrandStep, Sizes;
    if e.Strand? { StrandContext(s, e.choice); }
  }

  lemma StrandTraffic(s: State, choice: bool)
    ensures var t := StrandStep(s, choice);
            && (t.flights == s.flights
                || (s.pc.Initiating?
                    && t.flights == s.flights + [Flight(s.pc.batch, Bytes(s.pc.batch), s.seqs.current, s.seqs.conn)]))
            && (t.posted == s.posted || (s.posted != [] && t.posted == s.posted[1..])
                || (s.pc.Announcing? && t.posted == s.posted + [KickWrite(s.pc.run, s.seqs.conn)]))
  {
    hide Apply, Bytes, RunHandler, Release, DecideEnqueue, GatherCount, CanBegin, Ids, Handoffs;
    if s.pc.Ready? {
      HandlerFrame(s);
    } else if NeedsMutex(s.pc) || Losing(s.pc) || s.pc.Announcing? {
      LossTraffic(s, choice);
    } else {
      WriteTraffic(s, choice);
    }
  }

  lemma LossTraffic(s: State, choice: bool)
    requires NeedsMutex(s.pc) || Losing(s.pc) || s.pc.Announcing?
    ensures var t := StrandStep(s, choice);
            && t.flights == s.flights
            && t.posted == s.posted + if s.pc.Announcing? then [KickWrite(s.pc.run, s.seqs.conn)] else []
  {
    hide Apply, Transition;
  }

  lemma WriteTraffic(s: State, choice: bool)
    requires !s.pc.Ready? && !NeedsMutex(s.pc) && !Losing(s.pc) && !s.pc.Announcing?
    ensures var t := StrandStep(s, choice);
            && (t.flights == s.flights
                || (s.pc.Initiating?
                    && t.flights == s.flights + [Flight(s.pc.batch, Bytes(s.pc.batch), s.seqs.current, s.seqs.conn)]))
            && t.posted == s.posted
  {
    hide Apply, Bytes, RunHandler, Release, DecideEnqueue, GatherCount, CanBegin, Ids, Handoffs, Disconnect,
      FinishCleanup, Transition;
  }

  /** A posted handler is taken off the strand; it admits nothing and puts nothing in flight. */
  lemma HandlerFrame(s: State)
    ensures var t := RunHandler(s);
            && t.flights == s.flights && t.past == s.past && t.admitting == s.admitting && Context(t) == Context(s)
            && (t.posted == s.posted || (s.posted != [] && t.posted == s.posted[1..]))
  {
    hide Release;
  }

  lemma FlightsStep(s: State, e: Event, i: nat, x: Item)
    requires var t := Step(s, e); i < |t.flights| && x in t.flights[i].items
    ensures Holds(s, x) || exists j | 0 <= j < |s.flights| :: x in s.flights[j].items
  {
    hide Apply, Accepts, Sizes, Release, StrandStep;
    var t := Step(s, e);
    if e.Strand? { StrandTraffic(s, e.choice); }
    if e.WriteCompleted? && t != s {
      assert t.flights[i] == if i < e.i then s.flights[i] else s.flights[i + 1];
    }
  }

  lemma PostedStep(s: State, e: Event, i: nat)
    requires var t := Step(s, e); i < |t.posted| && Routes(t.posted[i])
    requires Sourced(s) && Numbered(s)
    ensures var t := Step(s, e);
            Known(t.past.admitted, t.posted[i].a.item) && t.past.admitted[t.posted[i].a.item.id - 1] == t.posted[i].a
  {
    hide Apply, Accepts, Sizes, Release, StrandStep, Holds;
    var t := Step(s, e);
    AcceptedGrows(s, e);
    if e.Strand? { StrandTraffic(s, e.choice); }
    if i < |s.posted| && t.posted[i] == s.posted[i] {
      KnownGrows(s.past.admitted, t.past.admitted, s.posted[i].a.item);
    } else if i + 1 < |s.posted| && t.posted[i] == s.posted[i + 1] {
      KnownGrows(s.past.admitted, t.past.admitted, s.posted[i + 1].a.item);
    }
  }

  /**
   A connect attempt fails while the connection of an earlier attempt is up and
   holds something: schedule_retry marks the loss but leaves the queues alone.
   */
  ghost predicate Overtakes(s: State, e: Event) {
    e.Strand? && s.pc.Retrying? && s.admitting.None? && s.life.connected && exists x :: Holds(s, x)
  }

  /** When connection_seq_ moves: only while up, into a state that discards, with empty hands, or overtaken. */
  lemma ConnMoves(s: State, e: Event)
    requires Runs(s)
    ensures || Step(s, e).seqs.conn == s.seqs.conn || Discards(Step(s, e).pc) || s.pc.Cleaning? || e.Stop?
            || (e.Strand? && s.pc.Retrying? && s.admitting.None? && s.life.connected)
  {
    hide Apply, Accepts, StrandStep, Sizes, StartRunsWithin;
    if e.Strand? {
      StrandContext(s, e.choice);
      if NeedsMutex(s.pc) { MutexContext(s, e.choice); StrandDiscards(s, e.choice); }
    }
  }

  lemma StrandDiscards(s: State, choice: bool)
    ensures s.pc.Closing? ==> StrandStep(s, choice).pc.Discarding?
  {
    hide Apply;
  }

  lemma Emptied(s: State, choice: bool, x: Item)
    requires s.pc.Discarding?
    ensures !Holds(StrandStep(s, choice), x)
  {
  }

  lemma EntersCleaning(s: State, e: Event, x: Item)
    requires Step(s, e).pc.Cleaning? && !s.pc.Cleaning?
    ensures !Holds(Step(s, e), x)
  {
    hide Apply, Accepts, Sizes, Bytes, Release, DecideEnqueue, GatherCount, CanBegin, Ids, Handoffs;
  }

  lemma LeavesDiscarding(s: State, e: Event)
    requires Discards(s.pc) && !Discards(Step(s, e).pc)
    ensures (e.Strand? && s.pc.Discarding? && Step(s, e) == StrandStep(s, e.choice)) || (e.Stop? && s.seqs.current == 0)
  {
    hide Apply, Accepts, Sizes;
  }

  /** An overtaken connection leaves its items behind. */
  lemma OvertakenIsLost(s: State, e: Event)
    requires Sourced(s) && Pinned(s) && Overtakes(s, e)
    ensures !Pinned(Step(s, e))
  {
    hide Apply;
    var x :| Holds(s, x);
    var t := Step(s, e);
    assert Known(s.past.admitted, x) && s.past.admitted[x.id - 1].conn == s.seqs.conn;
    assert Holds(t, x) && t.past.admitted == s.past.admitted && t.seqs.conn == s.seqs.conn + 1;
  }

  /** One step keeps the queues pinned, unless it overtakes a connection that holds something. */
  lemma PinnedIff(s: State, e: Event)
    requires Runs(s) && Sourced(s) && Numbered(s) && Pinned(s)
    ensures Pinned(Step(s, e)) <==> !Overtakes(s, e)
  {
    hide Step, Runs, Sourced, Numbered, Pinned, Overtakes;
    if Overtakes(s, e) {
      OvertakenIsLost(s, e);
    } else {
      PinnedStep(s, e);
    }
  }

  lemma PinnedStep(s: State, e: Event)
    requires Runs(s) && Sourced(s) && Numbered(s) && Pinned(s) && !Overtakes(s, e)
    ensures Pinned(Step(s, e))
  {
    hide Step, Holds, Runs, Sourced, Numbered;
    var t := Step(s, e);
    AcceptedGrows(s, e);
    if !Discards(t.pc) {
      forall x | Holds(t, x) && Known(t.past.admitted, x) ensures t.past.admitted[x.id - 1].conn == t.seqs.conn {
        PinnedItem(s, e, x);
      }
    }
    if t.pc.Cleaning? {
      forall x ensures !Holds(t, x) {
        if s.pc.Cleaning? && Holds(t, x) {
          StaysCleaning(s, e, x);
        } else if Holds(t, x) {
          EntersCleaning(s, e, x);
        }
      }
    }
  }

  lemma StaysCleaning(s: State, e: Event, x: Item)
    requires s.pc.Cleaning? && Step(s, e).pc.Cleaning? && Holds(Step(s, e), x)
    ensures Holds(s, x)
  {
    hide Apply, Accepts, Sizes;
  }

  lemma PinnedItem(s: State, e: Event, x: Item)
    requires Runs(s) && Sourced(s) && Numbered(s) && Pinned(s) && !Overtakes(s, e)
    requires Holds(Step(s, e), x) && !Discards(Step(s, e).pc)
    ensures var t := Step(s, e);
            Known(t.past.admitted, x) && t.past.admitted[x.id - 1].conn == t.seqs.conn
  {
    hide Step, Holds, Runs, Numbered;
    var t := Step(s, e);
    AcceptedGrows(s, e);
    HoldsStep(s, e, x);
    ConnMoves(s, e);
    if Holds(s, x) {
      assert Known(s.past.admitted, x);
      KnownGrows(s.past.admitted, t.past.admitted, x);
    }
    if Discards(s.pc) {
      LeavesDiscarding(s, e);
      if e.Strand? && s.pc.Discarding? { Emptied(s, e.choice, x); }
    }
    if e.Stop? { StopHolds(s, x); }
  }

  lemma StopHolds(s: State, x: Item)
    requires Holds(Step(s, Stop), x)
    ensures Step(s, Stop).seqs.conn == s.seqs.conn && Step(s, Stop).pc == s.pc
  {
    hide Apply;
  }

  /** Every handoff went out under the connection number that admitted the item. */
  ghost predicate WirePinned(s: State) {
    forall i | 0 <= i < |s.past.wire| ::
      && Known(s.past.admitted, s.past.wire[i].item)
      && s.past.admitted[s.past.wire[i].item.id - 1].conn == s.past.wire[i].conn
  }

  lemma WireStep(s: State, e: Event)
    ensures var t := Step(s, e);
            || t.past.wire == s.past.wire
            || (e.Strand? && s.pc.Beginning? && CanBegin(s.ledger.records, Ids(s.pc.batch))
                && t.past.wire == s.past.wire + Handoffs(s.pc.batch, s.seqs))
  {
    hide Apply, Accepts, Sizes, Bytes, Release, DecideEnqueue, GatherCount, CanBegin, Ids, Handoffs;
  }

  /** The ledger fence at work: begin_batch succeeds only for requests of the current connection. */
  lemma WirePinnedStep(s: State, e: Event)
    requires Sourced(s) && LiveIsCurrent(s) && WirePinned(s)
    ensures WirePinned(Step(s, e))
  {
    hide Step, Holds, Numbered, Sourced;
    var t := Step(s, e);
    AcceptedGrows(s, e);
    WireStep(s, e);
    forall i | 0 <= i < |t.past.wire|
      ensures Known(t.past.admitted, t.past.wire[i].item)
              && t.past.admitted[t.past.wire[i].item.id - 1].conn == t.past.wire[i].conn
    {
      if i < |s.past.wire| {
        assert t.past.wire[i] == s.past.wire[i];
        KnownGrows(s.past.admitted, t.past.admitted, s.past.wire[i].item);
      } else {
        var x := s.pc.batch[i - |s.past.wire|];
        assert Ids(s.pc.batch)[i - |s.past.wire|] == x.id && IsLive(s.ledger.records, x.id);
        BatchIsKnown(s, x);
        KnownGrows(s.past.admitted, t.past.admitted, x);
      }
    }
  }

  lemma BatchIsKnown(s: State, x: Item)
    requires Sourced(s) && s.pc.Beginning? && x in s.pc.batch
    ensures Known(s.past.admitted, x)
  {
    assert Holds(s, x);
  }

  /**
   Connection pinning, for every run: what was handed to I/O went out under the
   connection number that admitted it, and a request is live only under the number
   that admitted it, while a connection is up and not stopping. A number may stand
   for two sockets in turn: ClientSockets says when.
   */
  lemma {:induction false} ConnectionPinning(threshold: nat, events: seq<Event>)
    ensures var s := Reach(threshold, events);
            && Runs(s) && LiveIsCurrent(s) && Sourced(s) && WirePinned(s) && Sane(s.ledger.records)
    decreases |events|
  {
    hide Step, Runs, LiveIsCurrent, Sourced, WirePinned, Sane, Extends;
    if events == [] {
      InitialPinned(threshold);
    } else {
      var before := events[..|events| - 1];
      var s, e := Reach(threshold, before), events[|events| - 1];
      ConnectionPinning(threshold, before);
      LiveImpliesNumbered(s);
      RunsStep(s, e);
      LiveStep(s, e);
      SourcedStep(s, e);
      WirePinnedStep(s, e);
      LedgerFollows(s, e);
    }
  }

  /** No attempt of the run fails while the connection of another holds something. */
  ghost predicate NeverOvertaken(threshold: nat, events: seq<Event>) {
    forall k | 0 <= k < |events| :: !Overtakes(Reach(threshold, events[..k]), events[k])
  }

  ghost predicate AlwaysPinned(threshold: nat, events: seq<Event>) {
    forall k | 0 <= k <= |events| :: Pinned(Reach(threshold, events[..k]))
  }

  /**
   Everything in tx, pending and the active batch belongs to the current
   connection in every state of a run (while a loss is being handled aside)
   exactly when the run never overtakes a connection that holds something.
   */
  lemma QueuesArePinned(threshold: nat, events: seq<Event>)
    ensures AlwaysPinned(threshold, events) <==> NeverOvertaken(threshold, events)
  {
    hide Pinned, Overtakes, Step, Reach;
    var good := (k: nat) => k <= |events| && Pinned(Reach(threshold, events[..k]));
    var bad := (k: nat) => k < |events| && Overtakes(Reach(threshold, events[..k]), events[k]);
    FreshIsPinned(threshold);
    assert events[..0] == [];
    forall k | 0 <= k < |events| && good(k) ensures good(k + 1) <==> !bad(k) {
      ReachSnoc(threshold, events, k);
      PinnedAfter(threshold, events[..k], events[k]);
    }
    AlwaysIffNever(|events|, good, bad);
    assert forall k | 0 <= k <= |events| :: good(k) <==> Pinned(Reach(threshold, events[..k]));
    assert forall k | 0 <= k < |events| :: bad(k) <==> Overtakes(Reach(threshold, events[..k]), events[k]);
  }

  lemma ReachSnoc(threshold: nat, events: seq<Event>, k: nat)
    requires k < |events|
    ensures Reach(threshold, events[..k + 1]) == Step(Reach(threshold, events[..k]), events[k])
  {
    hide Step;
    assert events[..k + 1][..k] == events[..k];
  }

  lemma FreshIsPinned(threshold: nat)
    ensures Pinned(Reach(threshold, []))
  {
    InitialPinned(threshold);
  }

  lemma PinnedAfter(threshold: nat, events: seq<Event>, e: Event)
    requires Pinned(Reach(threshold, events))
    ensures Pinned(Step(Reach(threshold, events), e)) <==> !Overtakes(Reach(threshold, events), e)
  {
    hide Pinned, Overtakes, Step, Reach, Runs, Sourced, LiveIsCurrent, WirePinned, Sane;
    ConnectionPinning(threshold, events);
    LiveImpliesNumbered(Reach(threshold, events));
    PinnedIff(Reach(threshold, events), e);
  }

  lemma LiveImpliesNumbered(s: State)
    requires LiveIsCurrent(s)
    ensures Numbered(s)
  {
  }

  lemma InitialPinned(threshold: nat)
    ensures var s := Initial(threshold);
            Runs(s) && LiveIsCurrent(s) && Sourced(s) && Pinned(s) && WirePinned(s) && Sane(s.ledger.records)
  {
  }

  /** Between handlers of such a run, an item in any queue was admitted on the current connection_seq_. */
  lemma QueuesBelongToConnection(threshold: nat, events: seq<Event>, x: Item)
    requires NeverOvertaken(threshold, events)
    requires var s := Reach(threshold, events); s.pc.Ready? && Holds(s, x)
    ensures var s := Reach(threshold, events);
            Known(s.past.admitted, x) && s.past.admitted[x.id - 1].conn == s.seqs.conn
  {
    hide Reach, Runs, LiveIsCurrent, WirePinned, Sane, Holds, NeverOvertaken;
    ConnectionPinning(threshold, events);
    QueuesArePinned(threshold, events);
    assert AlwaysPinned(threshold, events) && events[..|events|] == events;
    assert Pinned(Reach(threshold, events));
  }

  /** On every run whatever is queued and can still be handed over was admitted on the current connection. */
  lemma LiveQueuesBelongToConnection(threshold: nat, events: seq<Event>, x: Item)
    requires var s := Reach(threshold, events); Holds(s, x) && IsLive(s.ledger.records, x.id)
    ensures var s := Reach(threshold, events);
            Known(s.past.admitted, x) && s.past.admitted[x.id - 1].conn == s.seqs.conn
  {
    hide Reach, Runs, WirePinned, Sane, Holds;
    ConnectionPinning(threshold, events);
  }

  /** Stop and loss are final for the client too: no later event revises a settled request. */
  lemma {:induction false} ClientFatesAreFinal(threshold: nat, events: seq<Event>, more: seq<Event>)
    ensures Extends(Reach(threshold, events).ledger.records, Reach(threshold, events + more).ledger.records)
    decreases |more|
  {
    hide Extends, Step, Sane;
    if more == [] {
      assert events + more == events;
      ExtendsSelf(Reach(threshold, events).ledger.records);
    } else {
      var init := more[..|more| - 1];
      ClientFatesAreFinal(threshold, events, init);
      assert (events + more)[..|events + more| - 1] == events + init;
      assert (events + more)[|events + more| - 1] == more[|more| - 1];
      var t := Reach(threshold, events + init);
      LedgerFollows(t, more[|more| - 1]);
      ExtendsTwice(Reach(threshold, events).ledger.records, t.ledger.records,
                   Reach(threshold, events + more).ledger.records);
    }
  }
}
