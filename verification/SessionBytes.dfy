/**
 Byte accounting and liveness of the session's write path, over every
 interleaving: the hard limit is never exceeded; until the session closes each
 counter is the bytes it stands for plus those of admissions that threw; reserved
 writes are never rejected; and nothing accepted is stranded as long as what
 failed try-writes left behind is bearable.
 */
module SessionBytes {
  import opened Options
  import opened SendHistory
  import opened Octets
  import opened Queues
  import opened SessionModel

  function Size(h: Handler, kind: Kind): nat {
    if h.RouteWrite? && kind == Plain then |h.item.data|
    else if h.RouteTry? && kind == Try then |h.item.data| else 0
  }

  /** Bytes reserved by posted handlers of one kind. */
  function PostedBytes(posted: seq<Handler>, kind: Kind): nat {
    if posted == [] then 0 else Size(posted[0], kind) + PostedBytes(posted[1..], kind)
  }

  lemma {:induction false} PostedBytesSnoc(posted: seq<Handler>, h: Handler, kind: Kind)
    ensures PostedBytes(posted + [h], kind) == PostedBytes(posted, kind) + Size(h, kind)
  {
    if posted == [] {
      assert [h][1..] == [];
    } else {
      assert (posted + [h])[1..] == posted[1..] + [h];
      PostedBytesSnoc(posted[1..], h, kind);
    }
  }

  lemma PostedBytesPop(posted: seq<Handler>, kind: Kind)
    requires posted != []
    ensures PostedBytes(posted, kind) == Size(posted[0], kind) + PostedBytes(posted[1..], kind)
  {
  }

  function DoneCount(posted: seq<Handler>): nat {
    if posted == [] then 0 else (if posted[0].WriteDone? then 1 else 0) + DoneCount(posted[1..])
  }

  lemma {:induction false} DoneCountSnoc(posted: seq<Handler>, h: Handler)
    ensures DoneCount(posted + [h]) == DoneCount(posted) + (if h.WriteDone? then 1 else 0)
  {
    if posted == [] {
      assert [h][1..] == [];
    } else {
      assert (posted + [h])[1..] == posted[1..] + [h];
      DoneCountSnoc(posted[1..], h);
    }
  }

  function AdmittingBytes(admitting: Option<Item>, kind: Kind): nat {
    if admitting.Some? && admitting.value.kind == kind then |admitting.value.data| else 0
  }

  /** Bytes that admissions of one kind left reserved when they threw. */
  function Leaked(failed: seq<Item>, kind: Kind): nat {
    Bytes(OfKind(failed, kind))
  }

  lemma LeakedSnoc(failed: seq<Item>, item: Item, kind: Kind)
    ensures Leaked(failed + [item], kind) == Leaked(failed, kind) + if item.kind == kind then |item.data| else 0
  {
    OfKindConcat(failed, [item], kind);
    BytesConcat(OfKind(failed, kind), OfKind([item], kind));
    assert [item][1..] == [];
  }

  function HeldBytes(pc: Pc): nat {
    if pc.Routing? then |pc.item.data| else 0
  }

  function UnreleasedBytes(pc: Pc): nat {
    if pc.Finishing? then pc.total else 0
  }

  // ------------------------------------------------------------------
  // Reservations, in every state
  // ------------------------------------------------------------------

  /** The reservations add up and stay within the hard limit, closing or not. */
  predicate Reserved(s: State) {
    && s.bytes.queue + s.bytes.pending + s.bytes.inflight <= s.bounds.limit
    && s.bytes.inflight == PostedBytes(s.posted, Plain) + HeldBytes(s.pc) + AdmittingBytes(s.admitting, Plain)
                           + Leaked(s.past.failed, Plain)
    && s.bytes.pending == Bytes(s.lanes.pending)
    && (s.pc.Reporting? ==> s.pc.extra == 0)
    && (s.lanes.pending != [] ==> s.bytes.active)
  }

  lemma ReservedStep(s: State, e: Event)
    requires Reserved(s)
    ensures Reserved(Step(s, e)) && Step(s, e).bounds == s.bounds
  {
    hide StrandStep, NeedsMutex, Verdict, Apply, Leaked, PostedBytes, Bytes;
    match e
    case Strand(throws) => ReservedStrand(s, throws);
    case Write(data, kind) => if s.admitting.None? { ReservedSubmit(s, data, kind); }
    case Admitted => if s.admitting.Some? { PostedBytesSnoc(s.posted, Post(s).posted[|s.posted|], Plain); }
    case AdmissionThrows(_) => if s.admitting.Some? { LeakedSnoc(s.past.failed, s.admitting.value, Plain); }
    case AsyncStop => PostedBytesSnoc(s.posted, Cleanup, Plain);
    case IoDone(n, error) =>
      if s.lanes.io.Some? { PostedBytesSnoc(s.posted, WriteDone(s.lanes.io.value, n, error), Plain); }
    case _ =>
  }

  lemma ReservedSubmit(s: State, data: seq<Byte>, kind: Kind)
    requires Reserved(s) && s.admitting.None?
    ensures Reserved(Submit(s, data, kind)) && Submit(s, data, kind).bounds == s.bounds
  {
    hide Leaked, PostedBytes, Bytes;
  }

  lemma ReservedStrand(s: State, throws: bool)
    requires Reserved(s)
    ensures Reserved(StrandStep(s, throws)) && StrandStep(s, throws).bounds == s.bounds
  {
    hide Reserved, StepIdle, StepRouting, StepReporting, StepResuming, StepClosing, StepKicking, StepFinishing,
      StepRearming, StepInitiating, StepDraining;
    match s.pc
    case Idle => ReservedIdle(s);
    case Routing(item) => ReservedRouting(s);
    case Kicking(k) => ReservedKicking(s);
    case Resuming(_) => ReservedResuming(s);
    case _ => ReservedRest(s, throws);
  }

  lemma ReservedIdle(s: State)
    requires Reserved(s) && s.pc.Idle?
    ensures Reserved(StepIdle(s)) && StepIdle(s).bounds == s.bounds
  {
    hide Apply, Leaked, PostedBytes, Bytes, RunDone;
    if s.posted != [] {
      PostedBytesPop(s.posted, Plain);
      var h := s.posted[0];
      if h.WriteDone? { DoneFrame(s.(posted := s.posted[1..]), h.total, h.n, h.failed); }
    }
  }

  /** A completion touches the batch, the ledger and the life of the session, not the counters. */
  lemma DoneFrame(s: State, total: nat, n: nat, failed: bool)
    ensures var t := RunDone(s, total, n, failed);
            && t == s.(lanes := s.lanes.(batch := []), ledger := t.ledger, life := t.life, pc := t.pc)
            && (t.pc == s.pc || t.pc.Finishing? || t.pc.Closing?)
  {
    hide Apply, Sizes, Terminate;
    TerminateFrame();
  }

  /** Stop and loss leave queues, counters and handlers alone. */
  lemma TerminateFrame()
    ensures forall s: State, cause: SendAccounting.Cause, r: Rejection ::
              Terminate(s, cause, r) == s.(ledger := Apply(s.ledger, End(cause)), life := Terminate(s, cause, r).life)
  {
  }

  lemma ReservedRouting(s: State)
    requires Reserved(s) && s.pc.Routing?
    ensures Reserved(StepRouting(s)) && StepRouting(s).bounds == s.bounds
  {
    hide Apply, Leaked, PostedBytes, Bytes;
    BytesSnoc(s.lanes.pending, s.pc.item);
  }

  lemma ReservedRest(s: State, throws: bool)
    requires Reserved(s)
    ensures s.pc.Finishing? ==> Reserved(StepFinishing(s)) && StepFinishing(s).bounds == s.bounds
    ensures s.pc.Reporting? ==> Reserved(StepReporting(s)) && StepReporting(s).bounds == s.bounds
    ensures s.pc.Rearming? ==> Reserved(StepRearming(s)) && StepRearming(s).bounds == s.bounds
    ensures s.pc.Initiating? ==> Reserved(StepInitiating(s, throws)) && StepInitiating(s, throws).bounds == s.bounds
    ensures s.pc.Closing? ==> Reserved(StepClosing(s)) && StepClosing(s).bounds == s.bounds
    ensures s.pc.Draining? ==> Reserved(StepDraining(s)) && StepDraining(s).bounds == s.bounds
  {
    hide Apply, Leaked, PostedBytes, Bytes;
    BytesEmpty();
  }

  lemma ReservedDoWrite(s: State, k: Then)
    requires Reserved(s) && HeldBytes(s.pc) == 0
    ensures Reserved(DoWrite(s, k)) && DoWrite(s, k).bounds == s.bounds
  {
    hide Apply, Leaked, PostedBytes, Bytes;
  }

  lemma ReservedKicking(s: State)
    requires Reserved(s) && s.pc.Kicking?
    ensures Reserved(StepKicking(s)) && StepKicking(s).bounds == s.bounds
  {
    hide Leaked, PostedBytes, Bytes, DoWrite;
    ReservedDoWrite(s, s.pc.k);
  }

  lemma ReservedResuming(s: State)
    requires Reserved(s) && s.pc.Resuming?
    ensures Reserved(StepResuming(s)) && StepResuming(s).bounds == s.bounds
  {
    hide Leaked, PostedBytes, Bytes, DoWrite;
    ReservedDoWrite(s, Done);
    ReservedDoWrite(s.(lanes := s.lanes.(writing := false)), Done);
  }

  lemma BytesEmpty()
    ensures Bytes([]) == 0
  {
  }

  /** A reserved write is never turned away when it reaches the strand. */
  lemma ReservedWritesAreNeverRejected(s: State)
    requires Reserved(s) && s.pc.Routing?
    ensures !DecideEnqueue(s.bounds, s.bytes.queue, s.bytes.pending, s.bytes.active, |s.pc.item.data|).Rejected?
  {
  }

  // ------------------------------------------------------------------
  // Exact counters and one write at a time, until the session closes
  // ------------------------------------------------------------------

  /** Writes between the handoff and their completion handler. */
  function OpCount(s: State): nat {
    (if s.lanes.io.Some? then 1 else 0) + DoneCount(s.posted) + (if s.pc.Initiating? then 1 else 0)
  }

  /** The strand is inside the handler of a successful completion. */
  predicate InCompletion(pc: Pc) {
    || pc.Finishing?
    || ((pc.Reporting? || pc.Rearming? || pc.Kicking? || pc.Resuming?) && pc.k.AfterCompletion?)
  }

  /** A session that was never started holds nothing. */
  predicate Fresh(s: State) {
    && s.posted == [] && s.pc.Idle? && s.admitting.None? && s.lanes == Lanes([], [], [], false, None)
    && !s.bytes.active && s.past == Past([], [], []) && s.ledger.records == []
  }

  /** Every captured size is the size of the current batch. */
  predicate SizesKept(s: State) {
    && (s.lanes.io.Some? ==> s.lanes.io.value == Bytes(s.lanes.batch))
    && (s.pc.Initiating? ==> s.pc.total == Bytes(s.lanes.batch))
    && (forall i | 0 <= i < |s.posted| :: s.posted[i].WriteDone? ==> s.posted[i].total == Bytes(s.lanes.batch))
  }

  predicate Exact(s: State) {
    && (!s.life.alive ==> Fresh(s))
    && s.bytes.queue == Bytes(s.lanes.tx) + Bytes(s.lanes.batch) + PostedBytes(s.posted, Try)
                        + UnreleasedBytes(s.pc) + AdmittingBytes(s.admitting, Try) + Leaked(s.past.failed, Try)
    && OpCount(s) + (if InCompletion(s.pc) then 1 else 0) == (if s.lanes.writing then 1 else 0)
    && (OpCount(s) == 0 ==> s.lanes.batch == [])
    && SizesKept(s)
    && !s.pc.Draining?
    && ((s.pc.Closing? || s.pc.Initiating?) ==> !s.pc.k.AfterCompletion?)
    && ((s.pc.Reporting? || s.pc.Rearming? || s.pc.Kicking?) ==> !s.pc.k.Done?)
  }

  lemma ExactStep(s: State, e: Event)
    requires Reserved(s) && !s.life.closing && Exact(s) && !Step(s, e).life.closing
    ensures Exact(Step(s, e))
  {
    hide StrandStep, NeedsMutex, Verdict, Apply, Leaked, PostedBytes, Bytes, DoneCount, Reserved;
    match e
    case Strand(throws) => if !(s.admitting.Some? && NeedsMutex(s, throws)) { ExactStrand(s, throws); }
    case Write(data, kind) => ClosedRefuses(s, data, kind);
    case Admitted =>
      if s.admitting.Some? {
        var h := Post(s).posted[|s.posted|];
        PostedBytesSnoc(s.posted, h, Try);
        DoneCountSnoc(s.posted, h);
      }
    case AdmissionThrows(_) => if s.admitting.Some? { LeakedSnoc(s.past.failed, s.admitting.value, Try); }
    case IoDone(n, error) =>
      if s.lanes.io.Some? {
        var h := WriteDone(s.lanes.io.value, n, error);
        PostedBytesSnoc(s.posted, h, Try);
        DoneCountSnoc(s.posted, h);
      }
    case ResetStats => ResetKeepsRecords(s.ledger);
    case _ =>
  }

  lemma ResetKeepsRecords(h: History)
    ensures Apply(h, Reset).records == h.records
  {
  }

  lemma ClosedRefuses(s: State, data: seq<Byte>, kind: Kind)
    ensures Closed(s) ==> Verdict(s, data, kind).Some?
  {
  }

  lemma ExactStrand(s: State, throws: bool)
    requires Reserved(s) && !s.life.closing && Exact(s) && !StrandStep(s, throws).life.closing
    ensures Exact(StrandStep(s, throws))
  {
    hide Exact, StepIdle, StepRouting, StepReporting, StepResuming, StepClosing, StepKicking, StepFinishing,
      StepRearming, StepInitiating, StepDraining, Reserved;
    match s.pc
    case Idle => ExactIdle(s);
    case Routing(item) => ExactRouting(s);
    case Reporting(_, _) => ExactReporting(s);
    case Kicking(k) => ExactKicking(s);
    case Resuming(_) => ExactResuming(s);
    case _ => ExactRest(s, throws);
  }

  lemma NoDone(posted: seq<Handler>)
    requires DoneCount(posted) == 0
    ensures forall i | 0 <= i < |posted| :: !posted[i].WriteDone?
  {
  }

  lemma DoneCountPop(posted: seq<Handler>)
    requires posted != []
    ensures DoneCount(posted) == (if posted[0].WriteDone? then 1 else 0) + DoneCount(posted[1..])
  {
  }

  lemma ExactIdle(s: State)
    requires !s.life.closing && Exact(s) && s.pc.Idle? && !StepIdle(s).life.closing
    ensures Exact(StepIdle(s))
  {
    hide Apply, Bytes, Leaked, PostedBytes, DoneCount, Sizes, Terminate;
    if s.posted != [] {
      PostedBytesPop(s.posted, Try);
      DoneCountPop(s.posted);
      BytesEmpty();
      match s.posted[0]
      case RouteWrite(item) =>
      case RouteTry(item) => BytesSnoc(s.lanes.tx, item);
      case WriteDone(total, n, failed) => NoDone(s.posted[1..]); ClosedByLoss(s);
      case Cleanup =>
    }
  }

  lemma ClosedByLoss(s: State)
    ensures forall t: State, cause: SendAccounting.Cause, r: Rejection :: Terminate(t, cause, r).life.closing
  {
  }

  lemma ExactRouting(s: State)
    requires Reserved(s) && !s.life.closing && Exact(s) && s.pc.Routing?
    ensures Exact(StepRouting(s))
  {
    hide Apply, Bytes, Leaked, PostedBytes, DoneCount;
    BytesSnoc(s.lanes.tx, s.pc.item);
  }

  lemma ExactReporting(s: State)
    requires Reserved(s) && !s.life.closing && Exact(s) && s.pc.Reporting?
    ensures Exact(StepReporting(s))
  {
    hide Apply, Bytes, Leaked, PostedBytes, DoneCount;
    BytesConcat(s.lanes.tx, s.lanes.pending);
  }

  lemma ExactRest(s: State, throws: bool)
    requires !s.life.closing && Exact(s)
    ensures s.pc.Finishing? ==> Exact(StepFinishing(s))
    ensures s.pc.Rearming? ==> Exact(StepRearming(s))
    ensures s.pc.Initiating? && !StepInitiating(s, throws).life.closing ==> Exact(StepInitiating(s, throws))
    ensures s.pc.Closing? && !StepClosing(s).life.closing ==> Exact(StepClosing(s))
    ensures !s.pc.Draining?
  {
    hide Apply, Bytes, Leaked, PostedBytes, DoneCount;
  }

  lemma ExactDoWrite(s: State, k: Then)
    requires !s.life.closing && !s.lanes.writing && OpCount(s) == 0 && s.lanes.batch == []
    requires s.pc.Kicking? || s.pc.Resuming?
    requires s.life.alive && !k.AfterCompletion?
    requires s.bytes.queue
             == Bytes(s.lanes.tx) + PostedBytes(s.posted, Try) + AdmittingBytes(s.admitting, Try)
                + Leaked(s.past.failed, Try)
    ensures Exact(DoWrite(s, k))
  {
    hide Apply, Leaked, PostedBytes, Bytes, DoneCount;
    NoDone(s.posted);
    var g := GatherCount(s.lanes.tx);
    assert s.lanes.tx == s.lanes.tx[..g] + s.lanes.tx[g..];
    BytesConcat(s.lanes.tx[..g], s.lanes.tx[g..]);
    BytesEmpty();
  }

  lemma ExactKicking(s: State)
    requires !s.life.closing && Exact(s) && s.pc.Kicking?
    ensures Exact(StepKicking(s))
  {
    hide Bytes, Leaked, PostedBytes, DoneCount, DoWrite;
    BytesEmpty();
    if !s.lanes.writing { ExactDoWrite(s, s.pc.k); }
  }

  lemma ExactResuming(s: State)
    requires !s.life.closing && Exact(s) && s.pc.Resuming?
    ensures Exact(StepResuming(s))
  {
    hide Bytes, Leaked, PostedBytes, DoneCount, DoWrite;
    BytesEmpty();
    match s.pc.k
    case Done =>
    case AfterRoute => if !s.lanes.writing { ExactDoWrite(s, Done); }
    case AfterCompletion => ExactDoWrite(s.(lanes := s.lanes.(writing := false)), Done);
  }

  // ------------------------------------------------------------------
  // Nothing accepted is stranded
  // ------------------------------------------------------------------

  /** The running handler will look at tx before it returns. */
  predicate WillLookAtTx(pc: Pc) {
    (pc.Reporting? || pc.Rearming? || pc.Kicking? || pc.Resuming?) && pc.k.AfterRoute?
  }

  /** The strand has reported a completion and is about to choose the next batch. */
  predicate Choosing(pc: Pc) {
    (pc.Rearming? || pc.Kicking? || pc.Resuming?) && pc.k.AfterCompletion?
  }

  /**
   What failed try-writes may leave in the queue counter without harm: backpressure
   can still be lifted and stays off on an empty queue. Backpressure that the limit
   keeps from ever turning on bears anything.
   */
  predicate Bearable(b: Bounds, leak: nat) {
    b.high > b.limit || (leak < b.high && leak <= b.low)
  }

  /** The leak, if the try-write being admitted were to fail as well. */
  function PossibleLeak(s: State): nat {
    Leaked(s.past.failed, Try) + AdmittingBytes(s.admitting, Try)
  }

  /**
   Queued data has a write in flight (or a handler about to start one), and
   backpressure has something to lift it, unless the leak is unbearable.
   */
  predicate Moving(s: State) {
    && (s.lanes.tx != [] && !s.lanes.writing ==> WillLookAtTx(s.pc))
    && (s.bytes.active ==>
          || s.lanes.tx != [] || PostedBytes(s.posted, Try) > 0 || (s.lanes.writing && !Choosing(s.pc))
          || !Bearable(s.bounds, PossibleLeak(s)))
    && (s.bounds.high > s.bounds.limit ==> !s.bytes.active)
  }

  lemma MovingStep(s: State, e: Event)
    requires Reserved(s) && !s.life.closing && Exact(s) && Moving(s) && Nonempty(s) && !Step(s, e).life.closing
    ensures Moving(Step(s, e))
  {
    hide StrandStep, NeedsMutex, Verdict, Apply, Leaked, PostedBytes, Bytes, DoneCount, Reserved;
    match e
    case Strand(throws) => if !(s.admitting.Some? && NeedsMutex(s, throws)) { MovingStrand(s, throws); }
    case Admitted =>
      if s.admitting.Some? { PostedBytesSnoc(s.posted, Post(s).posted[|s.posted|], Try); }
    case AdmissionThrows(_) => if s.admitting.Some? { LeakedSnoc(s.past.failed, s.admitting.value, Try); }
    case Write(data, kind) => TryNeedsRelief(s, data);
    case IoDone(n, error) =>
      if s.lanes.io.Some? { PostedBytesSnoc(s.posted, WriteDone(s.lanes.io.value, n, error), Try); }
    case _ =>
  }

  lemma TryNeedsRelief(s: State, data: seq<Byte>)
    ensures s.bytes.active ==> Verdict(s, data, Try).Some?
  {
  }

  /** Accepted payloads are never empty. */
  predicate Nonempty(s: State) {
    && (s.admitting.Some? ==> s.admitting.value.data != [])
    && (forall i | 0 <= i < |s.past.failed| :: s.past.failed[i].data != [])
  }

  lemma NonemptyStep(s: State, e: Event)
    requires Nonempty(s)
    ensures Nonempty(Step(s, e))
  {
    hide StrandStep, NeedsMutex, MayReserve, MayTry, Apply;
    if e.Strand? { StrandKeepsCallers(s, e.throws); }
  }

  lemma StrandKeepsCallers(s: State, throws: bool)
    ensures StrandStep(s, throws).admitting == s.admitting && StrandStep(s, throws).past.failed == s.past.failed
  {
    hide Apply, Bytes, GatherCount, DecideEnqueue, Sizes, Ids;
  }

  lemma {:induction false} NothingLeaked(failed: seq<Item>)
    requires forall i | 0 <= i < |failed| :: failed[i].data != []
    ensures Leaked(failed, Plain) + Leaked(failed, Try) == 0 <==> failed == []
  {
    if failed != [] {
      var n := |failed| - 1;
      assert failed == failed[..n] + [failed[n]];
      LeakedSnoc(failed[..n], failed[n], Plain);
      LeakedSnoc(failed[..n], failed[n], Try);
    }
  }

  lemma MovingStrand(s: State, throws: bool)
    requires Reserved(s) && !s.life.closing && Exact(s) && Moving(s) && !StrandStep(s, throws).life.closing
    ensures Moving(StrandStep(s, throws))
  {
    hide Exact, Moving, Reserved, StepIdle, StepRouting, StepReporting, StepResuming, StepClosing, StepKicking,
      StepFinishing, StepRearming, StepInitiating, StepDraining;
    match s.pc
    case Idle => MovingIdle(s);
    case Routing(_) => MovingRouting(s);
    case Reporting(_, _) => MovingReporting(s);
    case Kicking(k) => MovingKicking(s);
    case Resuming(_) => MovingResuming(s);
    case _ => MovingRest(s, throws); ExactRest(s, throws);
  }

  lemma MovingIdle(s: State)
    requires !s.life.closing && Exact(s) && Moving(s) && s.pc.Idle? && !StepIdle(s).life.closing
    ensures Moving(StepIdle(s))
  {
    hide Apply, Bytes, Leaked, PostedBytes, DoneCount, Sizes, Terminate;
    if s.posted != [] {
      PostedBytesPop(s.posted, Try);
      DoneCountPop(s.posted);
      ClosedByLoss(s);
    }
  }

  lemma MovingRouting(s: State)
    requires Reserved(s) && Moving(s) && s.pc.Routing? && !s.life.closing && Exact(s)
    ensures Moving(StepRouting(s))
  {
    hide Apply, Bytes, Leaked, PostedBytes, DoneCount;
    ReservedWritesAreNeverRejected(s);
  }

  /** Positive counted bytes are somewhere that keeps the session moving. */
  lemma MovingReporting(s: State)
    requires Reserved(s) && !s.life.closing && Exact(s) && Moving(s) && s.pc.Reporting?
    ensures Moving(StepReporting(s))
  {
    hide Apply, Bytes, Leaked, PostedBytes, DoneCount;
    BytesEmpty();
  }

  lemma MovingRest(s: State, throws: bool)
    requires Reserved(s) && !s.life.closing && Exact(s) && Moving(s)
    ensures s.pc.Finishing? ==> Moving(StepFinishing(s))
    ensures s.pc.Rearming? ==> Moving(StepRearming(s))
    ensures s.pc.Initiating? && !StepInitiating(s, throws).life.closing ==> Moving(StepInitiating(s, throws))
    ensures s.pc.Closing? && !StepClosing(s).life.closing ==> Moving(StepClosing(s))
  {
    hide Apply, Bytes, Leaked, PostedBytes, DoneCount;
    BytesEmpty();
  }

  lemma MovingKicking(s: State)
    requires !s.life.closing && Exact(s) && Moving(s) && s.pc.Kicking?
    ensures Moving(StepKicking(s))
  {
    hide Apply, Bytes, Leaked, PostedBytes, DoneCount;
  }

  lemma MovingResuming(s: State)
    requires !s.life.closing && Exact(s) && Moving(s) && s.pc.Resuming?
    ensures Moving(StepResuming(s))
  {
    hide Apply, Bytes, Leaked, PostedBytes, DoneCount;
  }

  // ------------------------------------------------------------------
  // Whole runs
  // ------------------------------------------------------------------

  /** Once closing, a session stays closing. */
  lemma ClosingIsForever(s: State, e: Event)
    ensures s.life.closing ==> Step(s, e).life.closing
  {
    hide Apply, Verdict, NeedsMutex;
  }

  /**
   Every run, every interleaving, throwing admissions included: the three
   counters together never exceed the hard limit, and until the session closes
   each counter is exactly the bytes it stands for plus the bytes that failed
   admissions left in it.
   */
  lemma {:induction false} BytesStayExact(threshold: nat, events: seq<Event>)
    ensures var s := Reach(threshold, events);
            && s.bounds == SessionBounds(threshold)
            && Reserved(s) && Nonempty(s)
            && (!s.life.closing ==> Exact(s) && Moving(s))
    decreases |events|
  {
    hide Reserved, Exact, Moving, Nonempty, Step;
    if events == [] {
      InitialHolds(threshold);
    } else {
      var s, e := Reach(threshold, events[..|events| - 1]), events[|events| - 1];
      BytesStayExact(threshold, events[..|events| - 1]);
      ReservedStep(s, e);
      NonemptyStep(s, e);
      ClosingIsForever(s, e);
      if !Step(s, e).life.closing {
        ExactStep(s, e);
        MovingStep(s, e);
      }
    }
  }

  lemma InitialHolds(threshold: nat)
    ensures var s := Initial(threshold); Reserved(s) && Exact(s) && Moving(s) && Nonempty(s)
  {
  }

  /** Nothing runs and nothing is due: no handler, no write, no caller half way. */
  predicate Quiet(s: State) {
    s.pc.Idle? && s.posted == [] && s.lanes.io.None? && s.admitting.None?
  }

  /** A started session that nobody closes and in which nothing is due. */
  predicate AtRest(s: State) {
    s.life.alive && !s.life.closing && Quiet(s)
  }

  /** Nothing queued, backpressure off. */
  predicate Drained(s: State) {
    s.lanes.tx == [] && s.lanes.pending == [] && s.lanes.batch == [] && !s.bytes.active
  }

  /** All queues empty, all counters zero, backpressure off. */
  predicate Empty(s: State) {
    Drained(s) && s.bytes.queue == 0 && s.bytes.pending == 0 && s.bytes.inflight == 0
  }

  lemma RestMeansDrained(s: State)
    requires Reserved(s) && Exact(s) && Moving(s) && AtRest(s) && Bearable(s.bounds, Leaked(s.past.failed, Try))
    ensures Drained(s) && s.bytes == Counters(Leaked(s.past.failed, Try), 0, Leaked(s.past.failed, Plain), false)
  {
    hide Leaked;
  }

  /**
   No accepted data is stranded: whenever a run comes to rest with a bearable
   leak, nothing is queued, backpressure is off, and the counters hold exactly
   what failed admissions left there.
   */
  lemma RestIsDrained(threshold: nat, events: seq<Event>)
    requires var s := Reach(threshold, events);
             AtRest(s) && Bearable(s.bounds, Leaked(s.past.failed, Try))
    ensures var s := Reach(threshold, events);
            Drained(s) && s.bytes == Counters(Leaked(s.past.failed, Try), 0, Leaked(s.past.failed, Plain), false)
  {
    hide Reach, Reserved, Exact, Moving, Nonempty, Leaked;
    BytesStayExact(threshold, events);
    RestMeansDrained(Reach(threshold, events));
  }

  /**
   Exactly the positive thresholds are sound: there, every session at rest is
   empty if and only if no admission of it ever threw.
   */
  lemma NothingIsStranded(threshold: nat)
    ensures (forall events :: var s := Reach(threshold, events);
                              AtRest(s) ==> (Empty(s) <==> s.past.failed == []))
            <==> threshold >= 1
  {
    hide Reach, Leaked, AtRest, Empty;
    if threshold >= 1 {
      forall events | AtRest(Reach(threshold, events))
        ensures var s := Reach(threshold, events); Empty(s) <==> s.past.failed == []
      {
        RestIsEmpty(threshold, events);
      }
    } else {
      var events := FullCounterStrands(0, 0);
    }
  }

  lemma RestIsEmpty(threshold: nat, events: seq<Event>)
    requires threshold >= 1 && AtRest(Reach(threshold, events))
    ensures var s := Reach(threshold, events); Empty(s) <==> s.past.failed == []
  {
    hide Reach, Leaked, Moving;
    BytesStayExact(threshold, events);
    var s := Reach(threshold, events);
    NothingLeaked(s.past.failed);
    if s.past.failed == [] {
      RestIsDrained(threshold, events);
    }
  }

  /** Failed try-writes never leave more than the threshold. */
  lemma LeakStep(s: State, e: Event)
    requires PossibleLeak(s) <= s.bounds.high && (!s.life.closing ==> Exact(s))
    ensures PossibleLeak(Step(s, e)) <= s.bounds.high
  {
    hide StrandStep, NeedsMutex, Apply, Leaked, PostedBytes, Bytes, MayReserve;
    match e
    case Strand(throws) => StrandKeepsCallers(s, throws);
    case AdmissionThrows(_) => if s.admitting.Some? { LeakedSnoc(s.past.failed, s.admitting.value, Try); }
    case _ =>
  }

  lemma {:induction false} LeakIsBounded(threshold: nat, events: seq<Event>)
    ensures PossibleLeak(Reach(threshold, events)) <= threshold
    decreases |events|
  {
    hide Reserved, Exact, Moving, Nonempty, Step, PossibleLeak;
    if events == [] {
      NoLeakYet(threshold);
    } else {
      var before := events[..|events| - 1];
      LeakIsBounded(threshold, before);
      BytesStayExact(threshold, before);
      LeakStep(Reach(threshold, before), events[|events| - 1]);
    }
  }

  lemma NoLeakYet(threshold: nat)
    ensures PossibleLeak(Initial(threshold)) == 0
  {
  }

  /** Every run that comes to rest with that leak is drained. */
  ghost predicate AlwaysDrained(threshold: nat, leak: nat) {
    forall events :: var s := Reach(threshold, events);
                     AtRest(s) && Leaked(s.past.failed, Try) == leak ==> Drained(s)
  }

  /**
   The leaks that a session bears, exactly: its runs all drain with the bearable
   ones, and with no other leak that a run can have at all.
   */
  lemma LeakDecides(threshold: nat, leak: nat)
    ensures AlwaysDrained(threshold, leak) <==> Bearable(SessionBounds(threshold), leak) || leak > threshold
  {
    hide Reach, Leaked, AtRest, Drained, SessionBounds, Bearable;
    if Bearable(SessionBounds(threshold), leak) || leak > threshold {
      forall events | var s := Reach(threshold, events); AtRest(s) && Leaked(s.past.failed, Try) == leak
        ensures Drained(Reach(threshold, events))
      {
        BoundsOf(threshold, events);
        LeakIsBounded(threshold, events);
        RestIsDrained(threshold, events);
      }
    } else {
      var events := FullCounterStrands(threshold, leak);
    }
  }

  /**
   When admissions may throw, every threshold that lets backpressure turn on at
   all has a run that comes to rest with accepted data still queued.
   */
  lemma FailuresStrand(threshold: nat)
    ensures (forall events :: var s := Reach(threshold, events); AtRest(s) ==> Drained(s))
            <==> threshold > MAX_BUFFER_SIZE
    ensures (exists events :: var s := Reach(threshold, events); AtRest(s) && s.lanes.pending != [])
            <==> threshold <= MAX_BUFFER_SIZE
  {
    hide Reach, Leaked, AtRest;
    if threshold > MAX_BUFFER_SIZE {
      forall events | AtRest(Reach(threshold, events)) ensures Drained(Reach(threshold, events)) {
        BoundsOf(threshold, events);
        RestIsDrained(threshold, events);
      }
    } else {
      var events := FullCounterStrands(threshold, if threshold == MAX_BUFFER_SIZE then threshold - 1 else threshold);
      BoundsOf(threshold, events);
      assert AtRest(Reach(threshold, events)) && Reach(threshold, events).lanes.pending != [];
    }
  }

  lemma BoundsOf(threshold: nat, events: seq<Event>)
    ensures Reach(threshold, events).bounds == SessionBounds(threshold)
  {
    hide Reach, Reserved, Exact, Moving, Nonempty;
    BytesStayExact(threshold, events);
  }

  // ------------------------------------------------------------------
  // Runs that strand data
  // ------------------------------------------------------------------

  /** What a run has fixed so far: its threshold, and the admissions that threw. */
  datatype Scene = Scene(threshold: nat, failed: seq<Item>)

  /** Everything of a state except the ledger and what was accepted and sent. */
  predicate Looks(s: State, scene: Scene, c: Counters, q: Lanes, posted: seq<Handler>, pc: Pc) {
    && s.bounds == SessionBounds(scene.threshold) && s.life == Life(true, false, false, None)
    && s.past.failed == scene.failed
    && s.bytes == c && s.lanes == q && s.posted == posted && s.admitting.None? && s.pc == pc
  }

  function NoLanes(): Lanes {
    Lanes([], [], [], false, None)
  }

  function Sevens(n: nat): seq<Byte> {
    seq(n, _ => 7)
  }

  /** A try-write of n bytes is admitted by half. */
  lemma LeakOne(s: State, scene: Scene, n: nat, q: Lanes, pc: Pc, item: Item)
    requires 0 < n <= SessionBounds(scene.threshold).high && n <= SessionBounds(scene.threshold).limit
             && n <= MAX_BUFFER_SIZE
    requires Looks(s, scene, Counters(0, 0, 0, false), q, [], pc)
             && item == Item(|s.ledger.records| + 1, Sevens(n), Try)
    ensures Looks(Step(Step(s, Write(Sevens(n), Try)), AdmissionThrows(false)), scene.(failed := scene.failed + [item]),
                  Counters(n, 0, 0, false), q, [], pc)
  {
    hide Apply, SessionBounds;
    assert Step(s, Write(Sevens(n), Try)) == s.(bytes := Counters(n, 0, 0, false), admitting := Some(item));
  }

  /** A plain write is accepted */
  lemma AcceptOne(s: State, scene: Scene, n: nat, active: bool, m: nat, item: Item)
    requires 0 < m <= MAX_BUFFER_SIZE && n + m <= SessionBounds(scene.threshold).limit
    requires Looks(s, scene, Counters(n, 0, 0, active), NoLanes(), [], Idle)
    requires item == Item(|s.ledger.records| + 1, Sevens(m), Plain)
    ensures Looks(Step(Step(s, Write(Sevens(m), Plain)), Admitted), scene, Counters(n, 0, m, active), NoLanes(),
                  [RouteWrite(item)], Idle)
  {
    hide Apply, SessionBounds;
    assert [] + [RouteWrite(item)] == [RouteWrite(item)];
    assert Step(s, Write(Sevens(m), Plain)) == s.(bytes := Counters(n, 0, m, active), admitting := Some(item));
  }

  /** and routed: to pending under backpressure, otherwise to tx, */
  lemma RouteOne(s: State, scene: Scene, n: nat, active: bool, m: nat, item: Item)
    requires |item.data| == m && n + m <= SessionBounds(scene.threshold).limit
    requires Looks(s, scene, Counters(n, 0, m, active), NoLanes(), [RouteWrite(item)], Idle)
    ensures var t := Step(Step(s, Strand(false)), Strand(false));
            if active then Looks(t, scene, Counters(n, m, 0, true), Lanes([], [item], [], false, None), [], Idle)
            else Looks(t, scene, Counters(n + m, 0, 0, false), Lanes([item], [], [], false, None), [],
                       Reporting(0, AfterRoute))
  {
    hide Apply, SessionBounds;
    assert [RouteWrite(item)][1..] == [] && [] + [item] == [item];
    assert Step(s, Strand(false)) == s.(posted := [], pc := Routing(item));
  }

  /** which turns backpressure on when the counter is that high, */
  lemma PressOne(s: State, scene: Scene, n: nat, active: bool, m: nat, item: Item)
    requires |item.data| == m && active == (n >= SessionBounds(scene.threshold).high)
    requires Looks(s, scene, Counters(n, 0, 0, false), Lanes([item], [], [], false, None), [], Reporting(0, AfterRoute))
    ensures Looks(Step(Step(s, Strand(false)), Strand(false)), scene,
                  Counters(n, 0, 0, active), Lanes([], [], [item], true, None), [], Initiating(m, Done))
  {
    hide Apply, SessionBounds;
    BytesSnoc([], item);
    assert [] + [item] == [item] && Bytes([item]) == m;
    assert [item][1..] == [] && [item][..1] == [item] && GatherCount([item]) == 1;
    assert Step(s, Strand(false)) == s.(bytes := Counters(n, 0, 0, active), pc := Resuming(AfterRoute));
  }

  /** and goes out. */
  lemma HandOne(s: State, scene: Scene, n: nat, active: bool, m: nat, item: Item)
    requires Looks(s, scene, Counters(n, 0, 0, active), Lanes([], [], [item], true, None), [], Initiating(m, Done))
    ensures Looks(Step(Step(s, Strand(false)), Strand(false)), scene,
                  Counters(n, 0, 0, active), Lanes([], [], [item], true, Some(m)), [], Idle)
  {
    hide Apply, SessionBounds;
  }

  /** Its completion */
  lemma FinishOne(s: State, scene: Scene, n: nat, active: bool, m: nat, item: Item)
    requires Looks(s, scene, Counters(n, 0, 0, active), Lanes([], [], [item], true, Some(m)), [], Idle)
    ensures Looks(Step(Step(s, IoDone(m, false)), Strand(false)), scene,
                  Counters(n, 0, 0, active), Lanes([], [], [], true, None), [], Finishing(m))
  {
    hide Apply, Sizes, SessionBounds;
    var done := WriteDone(m, m, false);
    assert [] + [done] == [done] && [done][1..] == [];
    assert Step(s, IoDone(m, false)) == s.(lanes := s.lanes.(io := None), posted := [done]);
  }

  /** releases its bytes */
  lemma ReleaseOne(s: State, scene: Scene, n: nat, active: bool, m: nat)
    requires Looks(s, scene, Counters(n + m, 0, 0, active), Lanes([], [], [], true, None), [], Finishing(m))
    ensures Looks(Step(s, Strand(false)), scene,
                  Counters(n, 0, 0, active), Lanes([], [], [], true, None), [], Reporting(0, AfterCompletion))
  {
    hide Apply, SessionBounds;
  }

  /** and leaves backpressure on, lifts it, or turns it on */
  lemma ReportOne(s: State, scene: Scene, n: nat, active: bool)
    requires Looks(s, scene, Counters(n, 0, 0, active), Lanes([], [], [], true, None), [],
                   Reporting(0, AfterCompletion))
    requires !active ==> n >= SessionBounds(scene.threshold).high
    ensures var t := Step(s, Strand(false));
            if active && n <= SessionBounds(scene.threshold).low
            then Looks(t, scene, Counters(n, 0, 0, false), Lanes([], [], [], true, None), [], Rearming(AfterCompletion))
            else Looks(t, scene, Counters(n, 0, 0, true), Lanes([], [], [], true, None), [], Resuming(AfterCompletion))
  {
    hide Apply, SessionBounds;
  }

  /** or turns it on again, */
  lemma RearmOne(s: State, scene: Scene, n: nat)
    requires n >= SessionBounds(scene.threshold).high
    requires Looks(s, scene, Counters(n, 0, 0, false), Lanes([], [], [], true, None), [], Rearming(AfterCompletion))
    ensures Looks(Step(Step(s, Strand(false)), Strand(false)), scene,
                  Counters(n, 0, 0, true), Lanes([], [], [], true, None), [], Resuming(AfterCompletion))
  {
    hide Apply, SessionBounds;
  }

  /** on an empty queue. */
  lemma RestOne(s: State, scene: Scene, n: nat)
    requires Looks(s, scene, Counters(n, 0, 0, true), Lanes([], [], [], true, None), [], Resuming(AfterCompletion))
    ensures Looks(Step(Step(s, Strand(false)), Strand(false)), scene, Counters(n, 0, 0, true), NoLanes(), [], Idle)
  {
    hide Apply, SessionBounds;
  }

  lemma Next(threshold: nat, events: seq<Event>, e: Event) returns (more: seq<Event>)
    ensures Reach(threshold, more) == Step(Reach(threshold, events), e)
  {
    hide Step;
    more := events + [e];
    assert more[..|more| - 1] == events;
  }

  lemma Twice(threshold: nat, events: seq<Event>, e: Event, f: Event) returns (more: seq<Event>)
    ensures Reach(threshold, more) == Step(Step(Reach(threshold, events), e), f)
  {
    hide Step, Reach;
    more := Next(threshold, events, e);
    more := Next(threshold, more, f);
  }

  /** A leak, wherever the strand is. */
  lemma LeakIn(scene: Scene, events: seq<Event>, n: nat, q: Lanes, pc: Pc) returns (more: seq<Event>, after: Scene)
    requires n <= SessionBounds(scene.threshold).high && n <= SessionBounds(scene.threshold).limit
             && n <= MAX_BUFFER_SIZE
    requires Looks(Reach(scene.threshold, events), scene, Counters(0, 0, 0, false), q, [], pc) && scene.failed == []
    ensures Leaked(after.failed, Try) == n && after.threshold == scene.threshold && (n == 0 ==> after.failed == [])
    ensures Looks(Reach(scene.threshold, more), after, Counters(n, 0, 0, false), q, [], pc)
  {
    hide Step, Reach, Looks, SessionBounds, Leaked;
    more, after := events, scene;
    assert Leaked([], Try) == 0 by { NothingLeaked([]); }
    if n > 0 {
      var item := Item(|Reach(scene.threshold, events).ledger.records| + 1, Sevens(n), Try);
      LeakOne(Reach(scene.threshold, events), scene, n, q, pc, item);
      LeakedSnoc([], item, Try);
      more := Twice(scene.threshold, events, Write(Sevens(n), Try), AdmissionThrows(false));
      after := scene.(failed := scene.failed + [item]);
    }
  }

  /** One write of m bytes goes out, and its completion is about to be reported. */
  lemma SendThrough(scene: Scene, events: seq<Event>, n: nat, m: nat, active: bool) returns (more: seq<Event>)
    requires 0 < m <= MAX_BUFFER_SIZE && n + m <= SessionBounds(scene.threshold).limit
    requires active == (n + m >= SessionBounds(scene.threshold).high)
    requires Looks(Reach(scene.threshold, events), scene, Counters(n, 0, 0, false), NoLanes(), [], Idle)
    ensures Looks(Reach(scene.threshold, more), scene,
                  Counters(n, 0, 0, active), Lanes([], [], [], true, None), [], Reporting(0, AfterCompletion))
  {
    hide Step, Reach, Looks, SessionBounds;
    var t := scene.threshold;
    var item := Item(|Reach(t, events).ledger.records| + 1, Sevens(m), Plain);
    AcceptOne(Reach(t, events), scene, n, false, m, item);
    more := Twice(t, events, Write(Sevens(m), Plain), Admitted);
    RouteOne(Reach(t, more), scene, n, false, m, item);
    more := Twice(t, more, Strand(false), Strand(false));
    PressOne(Reach(t, more), scene, n + m, active, m, item);
    more := Twice(t, more, Strand(false), Strand(false));
    HandOne(Reach(t, more), scene, n + m, active, m, item);
    more := Twice(t, more, Strand(false), Strand(false));
    FinishOne(Reach(t, more), scene, n + m, active, m, item);
    more := Twice(t, more, IoDone(m, false), Strand(false));
    ReleaseOne(Reach(t, more), scene, n, active, m);
    more := Next(t, more, Strand(false));
  }

  /** The report leaves backpressure on with nothing in flight. */
  lemma Settle(scene: Scene, events: seq<Event>, n: nat, active: bool) returns (more: seq<Event>)
    requires n >= SessionBounds(scene.threshold).high || (active && n > SessionBounds(scene.threshold).low)
    requires Looks(Reach(scene.threshold, events), scene,
                   Counters(n, 0, 0, active), Lanes([], [], [], true, None), [], Reporting(0, AfterCompletion))
    ensures Looks(Reach(scene.threshold, more), scene, Counters(n, 0, 0, true), NoLanes(), [], Idle)
  {
    hide Step, Reach, Looks, SessionBounds;
    var t := scene.threshold;
    ReportOne(Reach(t, events), scene, n, active);
    more := Next(t, events, Strand(false));
    if active && n <= SessionBounds(t).low {
      RearmOne(Reach(t, more), scene, n);
      more := Twice(t, more, Strand(false), Strand(false));
    }
    RestOne(Reach(t, more), scene, n);
    more := Twice(t, more, Strand(false), Strand(false));
  }

  /** An unbearable leak leaves room for a write that turns backpressure on, or fills the counter. */
  lemma UnbearableFits(threshold: nat, leak: nat)
    requires leak <= threshold && !Bearable(SessionBounds(threshold), leak)
    ensures var b := SessionBounds(threshold);
            && b.high == threshold <= MAX_BUFFER_SIZE && b.high <= b.limit <= MAX_BUFFER_SIZE
            && (leak > b.low || leak >= b.high)
            && (leak >= b.limit ==> leak == b.limit == b.high && b.high > 1)
  {
  }

  /** With that leak in the queue counter, backpressure is on after a write drained, with nothing in flight. */
  lemma StayPressed(threshold: nat, leak: nat) returns (events: seq<Event>, scene: Scene)
    requires leak <= threshold && !Bearable(SessionBounds(threshold), leak)
    ensures scene.threshold == threshold && Leaked(scene.failed, Try) == leak && (leak == 0 ==> scene.failed == [])
    ensures Looks(Reach(threshold, events), scene, Counters(leak, 0, 0, true), NoLanes(), [], Idle)
  {
    hide Step, Looks, SessionBounds, Bearable, Leaked;
    UnbearableFits(threshold, leak);
    var b := SessionBounds(threshold);
    scene := Scene(threshold, []);
    events := Next(threshold, [], Start);
    assert Looks(Reach(threshold, events), scene, Counters(0, 0, 0, false), NoLanes(), [], Idle) by {
      Started(threshold);
    }
    hide Reach;
    if leak < b.limit {
      events, scene := LeakIn(scene, events, leak, NoLanes(), Idle);
      events := SendThrough(scene, events, leak, if leak < b.high then b.high - leak else 1, true);
      events := Settle(scene, events, leak, true);
    } else {
      events := SendThrough(scene, events, 0, 1, false);
      events, scene := LeakIn(scene, events, leak, Lanes([], [], [], true, None), Reporting(0, AfterCompletion));
      events := Settle(scene, events, leak, false);
    }
  }

  lemma Started(threshold: nat)
    ensures Looks(Step(Initial(threshold), Start), Scene(threshold, []), Counters(0, 0, 0, false), NoLanes(), [], Idle)
  {
  }

  /**
   A run that strands data, for every leak that is not bearable: backpressure stays
   on with nothing in flight, so a further write, if the leak leaves room for one,
   waits in pending_ and nothing will ever move it.
   */
  lemma FullCounterStrands(threshold: nat, leak: nat) returns (events: seq<Event>)
    requires leak <= threshold && !Bearable(SessionBounds(threshold), leak)
    ensures var s := Reach(threshold, events);
            && AtRest(s) && !Drained(s) && !Empty(s) && Leaked(s.past.failed, Try) == leak
            && (leak < s.bounds.limit ==> s.lanes.pending != [])
            && (leak == 0 ==> s.past.failed == [])
  {
    hide Step, Reach, SessionBounds, Leaked, Bearable;
    var scene;
    events, scene := StayPressed(threshold, leak);
    if leak < SessionBounds(threshold).limit {
      var item := Item(|Reach(threshold, events).ledger.records| + 1, Sevens(1), Plain);
      AcceptOne(Reach(threshold, events), scene, leak, true, 1, item);
      events := Twice(threshold, events, Write(Sevens(1), Plain), Admitted);
      RouteOne(Reach(threshold, events), scene, leak, true, 1, item);
      events := Twice(threshold, events, Strand(false), Strand(false));
    }
  }
}
