/**
 Order on the wire: for each kind of write, what a session has handed to local
 I/O is at every moment a prefix of what it has accepted, through every pending
 flush, and until it closes the remainder is queued in order behind it.
 */
module SessionOrder {
  import opened SendHistory
  import opened Queues
  import opened SessionModel
  import opened SessionBytes

  function ItemsOf(h: Handler): seq<Item> {
    if h.RouteWrite? || h.RouteTry? then [h.item] else []
  }

  /** The items still waiting in posted handlers. */
  function Queued(posted: seq<Handler>): seq<Item> {
    if posted == [] then [] else ItemsOf(posted[0]) + Queued(posted[1..])
  }

  lemma {:induction false} QueuedSnoc(posted: seq<Handler>, h: Handler)
    ensures Queued(posted + [h]) == Queued(posted) + ItemsOf(h)
  {
    if posted == [] {
      assert [h][1..] == [] && posted + [h] == [h];
    } else {
      assert (posted + [h])[1..] == posted[1..] + [h];
      QueuedSnoc(posted[1..], h);
    }
  }

  lemma QueuedPop(posted: seq<Handler>)
    requires posted != []
    ensures Queued(posted) == ItemsOf(posted[0]) + Queued(posted[1..])
  {
  }

  function Held(pc: Pc): seq<Item> {
    if pc.Routing? then [pc.item] else []
  }

  /** Accepted items not yet handed to I/O, in the order in which the lanes will be emptied. */
  function Backlog(s: State): seq<Item> {
    s.lanes.tx + s.lanes.pending + Held(s.pc) + Queued(s.posted)
  }

  predicate AllOf(items: seq<Item>, kind: Kind) {
    forall i | 0 <= i < |items| :: items[i].kind == kind
  }

  /** Only plain writes wait in pending; handlers carry the kind they were posted for. */
  predicate Sorted(s: State) {
    && AllOf(s.lanes.pending, Plain) && AllOf(Held(s.pc), Plain)
    && forall i | 0 <= i < |s.posted| ::
         && (s.posted[i].RouteWrite? ==> s.posted[i].item.kind == Plain)
         && (s.posted[i].RouteTry? ==> s.posted[i].item.kind == Try)
  }

  lemma SortedStep(s: State, e: Event)
    requires Sorted(s)
    ensures Sorted(Step(s, e))
  {
    hide Apply, Verdict, NeedsMutex, Bytes, GatherCount, Ids, Sizes, DecideEnqueue;
  }

  /** Nothing accepted is missing, and each kind keeps its order. */
  ghost predicate InOrder(s: State, kind: Kind) {
    OfKind(s.past.wire, kind) + OfKind(Backlog(s), kind) == OfKind(s.past.accepted, kind)
  }

  /** OfKind distributes over the lanes. */
  lemma BacklogParts(s: State, kind: Kind)
    ensures OfKind(Backlog(s), kind)
         == OfKind(s.lanes.tx, kind) + OfKind(s.lanes.pending, kind) + OfKind(Held(s.pc), kind)
           + OfKind(Queued(s.posted), kind)
  {
    OfKindConcat(s.lanes.tx, s.lanes.pending, kind);
    OfKindConcat(s.lanes.tx + s.lanes.pending, Held(s.pc), kind);
    OfKindConcat(s.lanes.tx + s.lanes.pending + Held(s.pc), Queued(s.posted), kind);
  }

  lemma InOrderStep(s: State, e: Event, kind: Kind)
    requires Reserved(s) && Exact(s) && Sorted(s) && !s.life.closing && InOrder(s, kind) && !Step(s, e).life.closing
    ensures InOrder(Step(s, e), kind)
  {
    hide StrandStep, NeedsMutex, Verdict, Apply, OfKind, Reserved, Exact, Sorted, Queued;
    match e
    case Strand(throws) => if !(s.admitting.Some? && NeedsMutex(s, throws)) { InOrderStrand(s, throws, kind); }
    case Admitted =>
      if s.admitting.Some? {
        var t, item := Post(s), s.admitting.value;
        QueuedSnoc(s.posted, t.posted[|s.posted|]);
        assert Backlog(t) == Backlog(s) + [item];
        OfKindConcat(Backlog(s), [item], kind);
        OfKindConcat(s.past.accepted, [item], kind);
      }
    case IoDone(n, error) =>
      if s.lanes.io.Some? {
        QueuedSnoc(s.posted, WriteDone(s.lanes.io.value, n, error));
        assert Backlog(Finish(s, n, error)) == Backlog(s);
      }
    case _ =>
  }

  lemma InOrderStrand(s: State, throws: bool, kind: Kind)
    requires Reserved(s) && Exact(s) && Sorted(s) && !s.life.closing && InOrder(s, kind)
             && !StrandStep(s, throws).life.closing
    ensures InOrder(StrandStep(s, throws), kind)
  {
    hide InOrder, StepIdle, StepRouting, StepReporting, StepResuming, StepClosing, StepKicking, StepFinishing,
      StepRearming, StepInitiating, StepDraining, Reserved, Sorted, Exact;
    match s.pc
    case Idle => InOrderIdle(s, kind);
    case Routing(_) => InOrderRouting(s, kind);
    case Kicking(_) => InOrderKicking(s, kind);
    case Resuming(_) => InOrderResuming(s, kind);
    case _ => InOrderRest(s, throws, kind);
  }

  lemma InOrderIdle(s: State, kind: Kind)
    requires Exact(s) && Sorted(s) && !s.life.closing && InOrder(s, kind) && s.pc.Idle? && !StepIdle(s).life.closing
    ensures InOrder(StepIdle(s), kind)
  {
    hide Apply, Bytes, PostedBytes, DoneCount, Sizes, Terminate, OfKind, Queued;
    if s.posted != [] {
      QueuedPop(s.posted);
      ClosedByLoss(s);
      var t := StepIdle(s);
      match s.posted[0]
      case RouteTry(item) => OvertakesPlain(s, t, item, kind);
      case _ => assert Backlog(t) == Backlog(s);
    }
  }

  /** A try-write goes to tx past the pending plain writes: neither kind notices. */
  lemma OvertakesPlain(s: State, t: State, item: Item, kind: Kind)
    requires s.pc.Idle? && AllOf(s.lanes.pending, Plain) && item.kind == Try
    requires Queued(s.posted) == [item] + Queued(t.posted)
    requires t.lanes == s.lanes.(tx := s.lanes.tx + [item]) && !t.pc.Routing?
    ensures OfKind(Backlog(t), kind) == OfKind(Backlog(s), kind)
  {
    hide OfKind, Queued, Backlog;
    BacklogParts(s, kind);
    BacklogParts(t, kind);
    OfKindConcat(s.lanes.tx, [item], kind);
    OfKindConcat([item], Queued(t.posted), kind);
    OfOtherKind([], kind);
    var a, p := OfKind(s.lanes.tx, kind), OfKind(s.lanes.pending, kind);
    var i, r := OfKind([item], kind), OfKind(Queued(t.posted), kind);
    if kind == Try {
      OfOtherKind(s.lanes.pending, kind);
    } else {
      OfOtherKind([item], kind);
    }
    assert (a + i) + p + [] + r == a + p + [] + (i + r);
  }

  lemma InOrderRouting(s: State, kind: Kind)
    requires Reserved(s) && InOrder(s, kind) && s.pc.Routing?
    ensures InOrder(StepRouting(s), kind)
  {
    hide Apply, Bytes, PostedBytes, OfKind, Queued;
    ReservedWritesAreNeverRejected(s);
    assert Backlog(StepRouting(s)) == Backlog(s);
  }

  lemma InOrderRest(s: State, throws: bool, kind: Kind)
    requires InOrder(s, kind) && !s.life.closing && Exact(s)
    ensures s.pc.Finishing? ==> InOrder(StepFinishing(s), kind)
    ensures s.pc.Reporting? ==> InOrder(StepReporting(s), kind)
    ensures s.pc.Rearming? ==> InOrder(StepRearming(s), kind)
    ensures s.pc.Initiating? ==> InOrder(StepInitiating(s, throws), kind)
    ensures s.pc.Closing? ==> InOrder(StepClosing(s), kind)
    ensures !s.pc.Draining?
  {
    hide Apply, Bytes, PostedBytes, OfKind, Queued;
    if s.pc.Reporting? {
      assert Backlog(StepReporting(s)) == Backlog(s);
    }
  }

  lemma InOrderDoWrite(s: State, k: Then, kind: Kind)
    requires InOrder(s, kind) && !s.pc.Routing?
    ensures InOrder(DoWrite(s, k), kind)
  {
    hide Apply, Bytes, Ids, OfKind, Queued;
    var t, g := DoWrite(s, k), GatherCount(s.lanes.tx);
    if t.past.wire != s.past.wire {
      var batch := s.lanes.tx[..g];
      assert Backlog(s) == batch + Backlog(t);
      OfKindConcat(batch, Backlog(t), kind);
      OfKindConcat(s.past.wire, batch, kind);
    } else {
      OfKindConcat(s.past.wire, [], kind);
      assert Backlog(t) == Backlog(s);
    }
  }

  lemma InOrderKicking(s: State, kind: Kind)
    requires InOrder(s, kind) && s.pc.Kicking?
    ensures InOrder(StepKicking(s), kind)
  {
    hide DoWrite, OfKind, Queued;
    InOrderDoWrite(s, s.pc.k, kind);
  }

  lemma InOrderResuming(s: State, kind: Kind)
    requires InOrder(s, kind) && s.pc.Resuming?
    ensures InOrder(StepResuming(s), kind)
  {
    hide DoWrite, OfKind, Queued;
    InOrderDoWrite(s, Done, kind);
    InOrderDoWrite(s.(lanes := s.lanes.(writing := false)), Done, kind);
  }

  /** A closing session hands nothing more to I/O. */
  lemma ClosedWireIsFrozen(s: State, e: Event)
    ensures s.life.closing ==> Step(s, e).past.wire == s.past.wire
    ensures s.past.accepted <= Step(s, e).past.accepted
  {
    hide Apply, Verdict, NeedsMutex, Bytes, Sizes;
  }

  /** Loss and stop may close the session in a step, but never in one that hands something over. */
  lemma ClosingStepKeepsWire(s: State, e: Event)
    ensures Step(s, e).life.closing ==> Step(s, e).past.wire == s.past.wire
  {
    hide Apply, Verdict, NeedsMutex, Bytes, Sizes;
  }

  /**
   Every run: each kind of write reaches the wire in acceptance order, with no
   gap.  Until the session closes, what was accepted and not yet handed over is
   exactly the backlog, in that order.
   */
  lemma {:induction false} WireFollowsAcceptance(threshold: nat, events: seq<Event>, kind: Kind)
    ensures var s := Reach(threshold, events);
            && Sorted(s)
            && OfKind(s.past.wire, kind) <= OfKind(s.past.accepted, kind)
            && (!s.life.closing ==> InOrder(s, kind))
    decreases |events|
  {
    hide Reserved, Exact, Moving, Step, Sorted, Backlog;
    if events == [] {
      InitialInOrder(threshold, kind);
    } else {
      var before := events[..|events| - 1];
      var s, e := Reach(threshold, before), events[|events| - 1];
      WireFollowsAcceptance(threshold, before, kind);
      BytesStayExact(threshold, before);
      SortedStep(s, e);
      ClosingIsForever(s, e);
      ClosedWireIsFrozen(s, e);
      if !Step(s, e).life.closing {
        InOrderStep(s, e, kind);
      } else {
        ClosingStepKeepsWire(s, e);
        PrefixGrows(s.past.accepted, Step(s, e).past.accepted, kind);
      }
    }
  }

  lemma PrefixGrows(a: seq<Item>, b: seq<Item>, kind: Kind)
    requires a <= b
    ensures OfKind(a, kind) <= OfKind(b, kind)
  {
    assert b == a + b[|a|..];
    OfKindConcat(a, b[|a|..], kind);
  }

  lemma InitialInOrder(threshold: nat, kind: Kind)
    ensures Sorted(Initial(threshold)) && InOrder(Initial(threshold), kind)
    ensures OfKind(Initial(threshold).past.wire, kind) <= OfKind(Initial(threshold).past.accepted, kind)
  {
  }
}
