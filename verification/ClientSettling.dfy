/**
 What becomes of the client's requests: a completed write settles what is still live
 of its batch along the confirmed prefix, on whichever connection it was; every other
 ending is charged to a stop or a loss, before or after the handoff as the wire shows.
 */
module ClientSettling {
  import opened Options
  import opened SendAccounting
  import opened SendHistory
  import opened SendFates
  import SendPublished
  import opened SendSettling
  import opened Octets
  import opened Queues
  import opened ClientModel
  import opened ClientPinning
  import opened ClientBytes
  import opened ClientOrder

  // ------------------------------------------------------------------
  // A batch names each request once, with its own size
  // ------------------------------------------------------------------

  predicate Distinct(items: seq<Item>) {
    forall i, j | 0 <= i < j < |items| :: items[i].id != items[j].id
  }

  lemma {:induction false} PickCount(admitted: seq<Admission>, items: seq<Item>, x: Item, conn: nat)
    requires From(admitted, x, conn) && forall k | 0 <= k < |items| && items[k].id == x.id :: items[k] == x
    ensures Count(Pick(admitted, items, x.kind, conn), x.id) >= Count(items, x.id)
  {
    if items != [] {
      PickCount(admitted, items[1..], x, conn);
      assert items == [items[0]] + items[1..];
      PickConcat(admitted, [items[0]], items[1..], x.kind, conn);
      PickOne(admitted, items[0], x.kind, conn);
      CountConcat(Pick(admitted, [items[0]], x.kind, conn), Pick(admitted, items[1..], x.kind, conn), x.id);
      CountOne(items[0], x.id);
    }
  }

  lemma CountOne(x: Item, id: nat)
    ensures Count([x], id) == (if x.id == id then 1 else 0) && Count([], id) == 0
  {
    assert [x][1..] == [];
  }

  /** Requests are accepted in the order of their ids. */
  ghost predicate AcceptedInOrder(s: State) {
    && (forall i, j | 0 <= i < j < |s.past.accepted| :: s.past.accepted[i].item.id < s.past.accepted[j].item.id)
    && (forall i | 0 <= i < |s.past.accepted| :: s.past.accepted[i].item.id <= |s.past.admitted|)
  }

  lemma AcceptedInOrderStep(s: State, e: Event)
    requires Numbered(s) && AcceptedInOrder(s)
    ensures AcceptedInOrder(Step(s, e))
  {
    hide Step;
    RecordMoves(s, e);
    AcceptedGrows(s, e);
  }

  lemma {:induction false} AcceptedBelow(accepted: seq<Admission>, kind: Kind, conn: nat, id: nat)
    requires forall i | 0 <= i < |accepted| :: accepted[i].item.id < id
    ensures Count(PickAccepted(accepted, kind, conn), id) == 0
  {
    hide Count;
    CountOne(Item(0, [], kind), id);
    if accepted != [] {
      var n := |accepted| - 1;
      AcceptedBelow(accepted[..n], kind, conn, id);
      CountOne(accepted[n].item, id);
      CountConcat(PickAccepted(accepted[..n], kind, conn), [accepted[n].item], id);
      CountConcat(PickAccepted(accepted[..n], kind, conn), [], id);
    }
  }

  lemma {:induction false} AcceptedOnce(accepted: seq<Admission>, kind: Kind, conn: nat, id: nat)
    requires forall i, j | 0 <= i < j < |accepted| :: accepted[i].item.id < accepted[j].item.id
    ensures Count(PickAccepted(accepted, kind, conn), id) <= 1
  {
    hide Count;
    CountOne(Item(0, [], kind), id);
    if accepted != [] {
      var n := |accepted| - 1;
      AcceptedOnce(accepted[..n], kind, conn, id);
      CountOne(accepted[n].item, id);
      CountConcat(PickAccepted(accepted[..n], kind, conn), [accepted[n].item], id);
      CountConcat(PickAccepted(accepted[..n], kind, conn), [], id);
      if accepted[n].item.id == id { AcceptedBelow(accepted[..n], kind, conn, id); }
    }
  }

  /** A batch the ledger lets through names each request once, because it is in acceptance order. */
  lemma BatchIsDistinct(s: State)
    requires Ground(s) && AcceptedInOrder(s) && InOrder(s, Plain) && InOrder(s, Try)
    requires s.pc.Beginning? && CanBegin(s.ledger.records, Ids(s.pc.batch))
    ensures Distinct(s.pc.batch)
  {
    hide Ground, InOrder, Pick, PickWire, PickAccepted, Queued, Count;
    var batch := s.pc.batch;
    forall i, j | 0 <= i < j < |batch| ensures batch[i].id != batch[j].id {
      if batch[i].id == batch[j].id { BatchRepeats(s, i, j); }
    }
  }

  lemma BatchRepeats(s: State, i: nat, j: nat)
    requires Ground(s) && AcceptedInOrder(s) && InOrder(s, Plain) && InOrder(s, Try)
    requires s.pc.Beginning? && CanBegin(s.ledger.records, Ids(s.pc.batch)) && i < j < |s.pc.batch|
    ensures s.pc.batch[i].id != s.pc.batch[j].id
  {
    hide Runs, WirePinned, Within, AllPlaced, StopsAhead, Sorted, Pick, PickWire, PickAccepted, Queued, Count;
    var batch, admitted, conn := s.pc.batch, s.past.admitted, s.seqs.conn;
    var x, rest := batch[i], s.lanes.tx + s.lanes.pending + Queued(s.posted);
    forall k | 0 <= k < |batch| ensures Known(admitted, batch[k]) { BatchIsKnown(s, batch[k]); }
    assert Ids(batch)[i] == x.id && IsLive(s.ledger.records, x.id);
    assert From(admitted, x, conn);
    PickCount(admitted, batch, x, conn);
    assert Backlog(s) == batch + rest;
    PickConcat(admitted, batch, rest, x.kind, conn);
    AcceptedOnce(s.past.accepted, x.kind, conn, x.id);
    var wire, picked := PickWire(s.past.wire, x.kind, conn), Pick(admitted, batch, x.kind, conn);
    var others := Pick(admitted, rest, x.kind, conn);
    assert x.kind == Plain || x.kind == Try;
    assert wire + (picked + others) == PickAccepted(s.past.accepted, x.kind, conn);
    CountConcat(wire, picked + others, x.id);
    CountConcat(picked, others, x.id);
    if batch[j].id == x.id { CountTwice(batch, i, j); }
  }

  /** What is in flight, or about to be. */
  ghost predicate FlightsDistinct(s: State) {
    && (forall i | 0 <= i < |s.flights| :: Distinct(s.flights[i].items))
    && (s.pc.Initiating? ==> Distinct(s.pc.batch))
  }

  lemma InitiatingMoves(s: State, e: Event)
    ensures Step(s, e).pc.Initiating? ==>
              Step(s, e).pc == s.pc || (s.pc.Beginning? && Step(s, e).pc.batch == s.pc.batch && !s.life.stopping
                                        && CanBegin(s.ledger.records, Ids(s.pc.batch)))
  {
    hide Apply, Accepts, Sizes, Bytes, Release, DecideEnqueue, GatherCount, CanBegin, Ids, Handoffs, Transition;
  }

  lemma FlightsMove(s: State, e: Event, i: nat)
    requires i < |Step(s, e).flights|
    ensures (exists j | 0 <= j < |s.flights| :: s.flights[j] == Step(s, e).flights[i])
            || (s.pc.Initiating? && Step(s, e).flights[i].items == s.pc.batch)
  {
    hide Apply, Accepts, Sizes, Release, StrandStep;
    var t := Step(s, e);
    if e.Strand? { StrandTraffic(s, e.choice); }
    if t.flights == s.flights {
      assert s.flights[i] == t.flights[i];
    } else if e.WriteCompleted? {
      assert t.flights[i] == if i < e.i then s.flights[i] else s.flights[i + 1];
    } else if i < |s.flights| {
      assert s.flights[i] == t.flights[i];
    }
  }

  lemma FlightsDistinctStep(s: State, e: Event)
    requires Ground(s) && AcceptedInOrder(s) && FlightsDistinct(s)
    requires !s.life.stopping ==> InOrder(s, Plain) && InOrder(s, Try)
    ensures FlightsDistinct(Step(s, e))
  {
    hide Step, Ground, InOrder, Distinct, CanBegin;
    var t := Step(s, e);
    InitiatingMoves(s, e);
    if t.pc.Initiating? && t.pc != s.pc { BatchIsDistinct(s); }
    forall i | 0 <= i < |t.flights| ensures Distinct(t.flights[i].items) { FlightsMove(s, e, i); }
  }

  /** Every request is as large as the item it tracks. */
  ghost predicate OwnRecords(s: State) {
    |s.past.admitted| == |s.ledger.records|
    && forall i | 0 <= i < |s.ledger.records| :: s.ledger.records[i].bytes == |s.past.admitted[i].item.data|
  }

  lemma OwnRecordsStep(s: State, e: Event)
    requires Numbered(s) && OwnRecords(s)
    ensures OwnRecords(Step(s, e))
  {
    hide Step, Numbered;
    LedgerFollows(s, e);
    AcceptedGrows(s, e);
    RecordMoves(s, e);
    if Enters(e) && s.admitting.Some? { EnteredRecord(s, e); }
    var t := Step(s, e);
    forall i | 0 <= i < |t.ledger.records| && i < |s.ledger.records|
      ensures t.ledger.records[i].bytes == |t.past.admitted[i].item.data|
    {
      assert Follows(s.ledger.records[i], t.ledger.records[i]);
    }
  }

  lemma EnteredRecord(s: State, e: Event)
    requires Numbered(s) && Enters(e) && s.admitting.Some?
    ensures var rs := Step(s, e).ledger.records;
            |rs| == |s.ledger.records| + 1 && rs[|s.ledger.records|].bytes == |s.admitting.value.item.data|
            && !rs[|s.ledger.records|].status.Terminated? && !rs[|s.ledger.records|].status.Active?
  {
    AdmitRollback(s.ledger, |s.admitting.value.item.data|);
  }

  /** All of it, in every reachable state. */
  lemma {:induction false} FlightsAreOwn(threshold: nat, events: seq<Event>)
    ensures var s := Reach(threshold, events); AcceptedInOrder(s) && FlightsDistinct(s) && OwnRecords(s)
    decreases |events|
  {
    hide Step, Ground, InOrder, Prefixes, AcceptedInOrder, FlightsDistinct, OwnRecords, Runs, LiveIsCurrent, Sourced,
      WirePinned, Sane;
    if events == [] {
      FreshFlights(threshold);
    } else {
      var before := events[..|events| - 1];
      var s, e := Reach(threshold, before), events[|events| - 1];
      FlightsAreOwn(threshold, before);
      ConnectionPinning(threshold, before);
      LiveImpliesNumbered(s);
      AlwaysGround(threshold, before);
      ClientWireFollowsAcceptance(threshold, before, Plain);
      ClientWireFollowsAcceptance(threshold, before, Try);
      AcceptedInOrderStep(s, e);
      FlightsDistinctStep(s, e);
      OwnRecordsStep(s, e);
    }
  }

  lemma FreshFlights(threshold: nat)
    ensures var s := Initial(threshold); AcceptedInOrder(s) && FlightsDistinct(s) && OwnRecords(s)
  {
  }

  lemma FlightOwnsSizes(s: State, i: nat)
    requires Sourced(s) && FlightsDistinct(s) && OwnRecords(s) && i < |s.flights|
    ensures SendPublished.OwnSizes(s.ledger.records, Sizes(s.flights[i].items))
  {
    hide Holds;
    var items := s.flights[i].items;
    assert Distinct(items);
    forall k | 0 <= k < |items| && IsLive(s.ledger.records, items[k].id)
      ensures s.ledger.records[items[k].id - 1].bytes == |items[k].data|
    {
      assert items[k] in items && Known(s.past.admitted, items[k]);
    }
  }

  // ------------------------------------------------------------------
  // Completions settle along the prefix
  // ------------------------------------------------------------------

  /** The handler of a completed write runs. */
  predicate Completes(s: State, e: Event) {
    e.WriteCompleted? && s.pc.Ready? && e.i < |s.flights| && (s.admitting.Some? ==> e.outcome.Ok?)
  }

  lemma CompletionStep(s: State, e: Event)
    requires Completes(s, e)
    ensures var done := CompleteAll(s.ledger.records, Sizes(s.flights[e.i].items), e.n);
            Step(s, e).ledger.records == done || Step(s, e).ledger.records == EndAll(done, ConnectionLoss)
  {
    hide CompleteAll, Sizes, Release;
  }

  lemma OthersStep(s: State, e: Event)
    requires !Completes(s, e)
    ensures SendPublished.NoneCompleted(s.ledger.records, Step(s, e).ledger.records)
  {
    hide Apply, SendPublished.NoneCompleted, Accepts, StrandStep, Sizes, Transition;
    NoneCompletedSelf(s.ledger.records);
    SendPublished.OthersCompleteNone(s.ledger, End(ConnectionLoss));
    match e
    case Strand(choice) => OthersStrand(s, choice);
    case Admitted =>
      if s.admitting.Some? { SendPublished.OthersCompleteNone(s.ledger, Admit(|s.admitting.value.item.data|, None)); }
    case AdmissionThrows(_) =>
      if s.admitting.Some? {
        var n, id := |s.admitting.value.item.data|, s.admitting.value.item.id;
        var h := Apply(s.ledger, Admit(n, None));
        SendPublished.OthersCompleteNone(s.ledger, Admit(n, None));
        SendPublished.OthersCompleteNone(h, Rollback(id));
        SendPublished.NoneCompletedTwice(s.ledger.records, h.records, Apply(h, Rollback(id)).records);
      }
    case Stop =>
      var h := Apply(s.ledger, End(ExplicitStop));
      SendPublished.OthersCompleteNone(s.ledger, End(ExplicitStop));
      SendPublished.OthersCompleteNone(h, End(ConnectionLoss));
      SendPublished.NoneCompletedTwice(s.ledger.records, h.records, Apply(h, End(ConnectionLoss)).records);
    case ResetStats => SendPublished.OthersCompleteNone(s.ledger, Reset);
    case _ =>
  }

  lemma OthersStrand(s: State, choice: bool)
    ensures SendPublished.NoneCompleted(s.ledger.records, StrandStep(s, choice).ledger.records)
  {
    hide Apply, SendPublished.NoneCompleted, Bytes, GatherCount, DecideEnqueue, Ids, Handoffs, CanBegin;
    NoneCompletedSelf(s.ledger.records);
    SendPublished.OthersCompleteNone(s.ledger, End(ConnectionLoss));
    match s.pc
    case Routing(item) => SendPublished.OthersCompleteNone(s.ledger, Discard(item.id, QueuePressure));
    case Beginning(batch, _) => SendPublished.OthersCompleteNone(s.ledger, BeginBatch(Ids(batch)));
    case _ =>
  }

  /** Every write that completed during the run, as the log shows it at the end: whatever was live then. */
  ghost predicate CompletionsStand(threshold: nat, events: seq<Event>, log: seq<Record>) {
    forall k, i | 0 <= k < |events| && Completes(Reach(threshold, events[..k]), events[k])
                  && 0 <= i < |Reach(threshold, events[..k]).flights[events[k].i].items| ::
      var s := Reach(threshold, events[..k]);
      var batch := s.flights[events[k].i].items;
      IsLive(s.ledger.records, batch[i].id) ==> SettledBy(log, batch, events[k].n, i)
  }

  /**
   Over every run: whenever a write completes, on whichever connection, each item of
   its batch that is still live is settled for good by its part of the confirmed prefix.
   */
  lemma ClientCompletionsAreFinal(threshold: nat, events: seq<Event>)
    ensures CompletionsStand(threshold, events, Reach(threshold, events).ledger.records)
  {
    hide Reach, Step, SettledBy, Extends;
    var log := Reach(threshold, events).ledger.records;
    forall k, i | 0 <= k < |events| && Completes(Reach(threshold, events[..k]), events[k])
                  && 0 <= i < |Reach(threshold, events[..k]).flights[events[k].i].items|
      ensures var s := Reach(threshold, events[..k]);
              var batch := s.flights[events[k].i].items;
              IsLive(s.ledger.records, batch[i].id) ==> SettledBy(log, batch, events[k].n, i)
    {
      var s := Reach(threshold, events[..k]);
      if IsLive(s.ledger.records, s.flights[events[k].i].items[i].id) { CompletedAt(threshold, events, k, i); }
    }
  }

  lemma CompletedAt(threshold: nat, events: seq<Event>, k: nat, i: nat)
    requires k < |events| && Completes(Reach(threshold, events[..k]), events[k])
    requires var s := Reach(threshold, events[..k]);
             i < |s.flights[events[k].i].items| && IsLive(s.ledger.records, s.flights[events[k].i].items[i].id)
    ensures SettledBy(Reach(threshold, events).ledger.records,
                      Reach(threshold, events[..k]).flights[events[k].i].items, events[k].n, i)
  {
    hide Step, Runs, LiveIsCurrent, Sourced, WirePinned, Sane, AcceptedInOrder, FlightsDistinct, OwnRecords,
      SettledBy, CompleteAll;
    var s, e := Reach(threshold, events[..k]), events[k];
    ConnectionPinning(threshold, events[..k]);
    FlightsAreOwn(threshold, events[..k]);
    FlightOwnsSizes(s, e.i);
    CompletionStep(s, e);
    CompletionSettlesItem(s.ledger.records, Step(s, e).ledger.records, s.flights[e.i].items, e.n, i);
    ReachSnoc(threshold, events, k);
    ClientFatesAreFinal(threshold, events[..k + 1], events[k + 1..]);
    assert events[..k + 1] + events[k + 1..] == events;
    SettledStays(Step(s, e).ledger.records, Reach(threshold, events).ledger.records, s.flights[e.i].items, e.n, i);
  }

  // ------------------------------------------------------------------
  // What the counters say of them
  // ------------------------------------------------------------------

  /** What the completions of a run wrote of an epoch's requests: the live items within the confirmed prefixes. */
  ghost function WrittenAlong(threshold: nat, events: seq<Event>, epoch: nat): Totals
    decreases |events|
  {
    if events == [] then NO_TOTALS
    else
      var before, e := events[..|events| - 1], events[|events| - 1];
      var s, sofar := Reach(threshold, before), WrittenAlong(threshold, before, epoch);
      if Completes(s, e) then
        Plus(sofar, SendPublished.WrittenIn(s.ledger.records, Sizes(s.flights[e.i].items), e.n, epoch, None))
      else sofar
  }

  /** And the bytes they confirmed of them. */
  ghost function ConfirmedAlong(threshold: nat, events: seq<Event>, epoch: nat): nat
    decreases |events|
  {
    if events == [] then 0
    else
      var before, e := events[..|events| - 1], events[|events| - 1];
      var s, sofar := Reach(threshold, before), ConfirmedAlong(threshold, before, epoch);
      if Completes(s, e) then
        sofar + SendPublished.ConfirmedIn(s.ledger.records, Sizes(s.flights[e.i].items), e.n, epoch, None)
      else sofar
  }

  function Published(s: State, epoch: nat): Accounting {
    Snapshot(s.ledger.records, epoch, None)
  }

  /**
   Every run, every epoch: the published written requests and confirmed bytes are
   exactly those of the writes that completed while their requests were live.
   */
  lemma {:induction false} ClientWrittenIsWhatCompleted(threshold: nat, events: seq<Event>, epoch: nat)
    ensures var a := Published(Reach(threshold, events), epoch);
            && a.written == WrittenAlong(threshold, events, epoch)
            && a.confirmedWrittenBytes == ConfirmedAlong(threshold, events, epoch)
    decreases |events|
  {
    hide Step, Runs, LiveIsCurrent, Sourced, WirePinned, Sane, AcceptedInOrder, FlightsDistinct, OwnRecords, Snapshot,
      Plus, CompleteAll;
    if events == [] {
      NothingWritten(threshold, epoch);
    } else {
      var before, e := events[..|events| - 1], events[|events| - 1];
      var s := Reach(threshold, before);
      ClientWrittenIsWhatCompleted(threshold, before, epoch);
      if Completes(s, e) {
        ConnectionPinning(threshold, before);
        FlightsAreOwn(threshold, before);
        FlightOwnsSizes(s, e.i);
        CompletionStep(s, e);
        CompletionCountsItems(s.ledger.records, Step(s, e).ledger.records, s.flights[e.i].items, e.n, epoch);
      } else {
        OthersStep(s, e);
        SendPublished.SameWritten(s.ledger.records, Step(s, e).ledger.records, epoch, None);
      }
    }
  }

  lemma NothingWritten(threshold: nat, epoch: nat)
    ensures Published(Initial(threshold), epoch) == NOTHING
  {
  }

  // ------------------------------------------------------------------
  // Losses and their causes
  // ------------------------------------------------------------------

  function CauseOf(e: Event): Cause {
    if e.Stop? then ExplicitStop else ConnectionLoss
  }

  lemma StepCuts(s: State, e: Event, i: nat)
    requires Within(s) && i < |s.ledger.records| && Live(s.ledger.records[i])
    ensures i < |Step(s, e).ledger.records| && CutAs(s.ledger.records[i], Step(s, e).ledger.records[i], CauseOf(e))
  {
    hide Apply, Within, CutAs, Live, Accepts, StrandStep, RequestStop, RequestStart, Sizes, Release;
    SameCuts(s.ledger.records[i], CauseOf(e));
    match e
    case Strand(choice) => StrandCuts(s, choice, i);
    case Admitted =>
      if s.admitting.Some? { AdmitCuts(s.ledger, |s.admitting.value.item.data|, s.admitting.value.item.id, i); }
    case AdmissionThrows(_) =>
      if s.admitting.Some? { AdmitCuts(s.ledger, |s.admitting.value.item.data|, s.admitting.value.item.id, i); }
    case Stop => StopCuts(s, i);
    case Start => StartCuts(s, i);
    case ResetStats => ResetKeeps(s.ledger);
    case WriteCompleted(k, n, outcome) =>
      if k < |s.flights| { DoneCuts(s.ledger, Sizes(s.flights[k].items), n, i); }
    case _ =>
  }

  lemma StopCuts(s: State, i: nat)
    requires i < |s.ledger.records| && Live(s.ledger.records[i])
    ensures i < |RequestStop(s).ledger.records|
    ensures CutAs(s.ledger.records[i], RequestStop(s).ledger.records[i], ExplicitStop)
  {
  }

  lemma StartCuts(s: State, i: nat)
    requires i < |s.ledger.records| && Live(s.ledger.records[i])
    ensures i < |RequestStart(s).ledger.records|
    ensures CutAs(s.ledger.records[i], RequestStart(s).ledger.records[i], ConnectionLoss)
  {
  }

  lemma StrandCuts(s: State, choice: bool, i: nat)
    requires Within(s) && i < |s.ledger.records| && Live(s.ledger.records[i])
    ensures var t := StrandStep(s, choice);
            i < |t.ledger.records| && CutAs(s.ledger.records[i], t.ledger.records[i], ConnectionLoss)
  {
    hide Apply, Within, CutAs, Live, Bytes, GatherCount, DecideEnqueue, Ids, Handoffs, CanBegin, Release, Transition;
    SameCuts(s.ledger.records[i], ConnectionLoss);
    OpCuts(s.ledger, End(ConnectionLoss), i, ConnectionLoss);
    match s.pc
    case Routing(_) => NeverRejected(s);
    case Beginning(batch, _) => BeginCuts(s.ledger, Ids(batch), i);
    case _ =>
  }

  function WireItems(wire: seq<Handoff>): (r: seq<Item>)
    ensures |r| == |wire| && forall i | 0 <= i < |r| :: r[i] == wire[i].item
  {
    seq(|wire|, i requires 0 <= i < |wire| => wire[i].item)
  }

  lemma StepActivates(s: State, e: Event, i: nat)
    requires i < |s.ledger.records| && !s.ledger.records[i].status.Active?
    ensures i < |Step(s, e).ledger.records|
    ensures Step(s, e).ledger.records[i].status.Active? ==> HasItem(WireItems(Step(s, e).past.wire), i + 1)
  {
    hide Apply, Accepts, StrandStep, RequestStop, RequestStart, Sizes, Release, HasItem, WireItems;
    forall op: Op | !op.Begin? && !op.BeginBatch?
      ensures i < |Apply(s.ledger, op).records| && !Apply(s.ledger, op).records[i].status.Active?
    {
      OpActivates(s.ledger, op, i);
    }
    match e
    case Strand(choice) => StrandActivates(s, choice, i);
    case AdmissionThrows(_) =>
      if s.admitting.Some? {
        OpActivates(Apply(s.ledger, Admit(|s.admitting.value.item.data|, None)), Rollback(s.admitting.value.item.id),
                    i);
      }
    case Stop => StopActivates(s, i);
    case Start => StopActivates(s, i);
    case WriteCompleted(k, n, outcome) =>
      if k < |s.flights| {
        OpActivates(Apply(s.ledger, CompleteBatch(Sizes(s.flights[k].items), n)), End(ConnectionLoss), i);
      }
    case _ =>
  }

  lemma StopActivates(s: State, i: nat)
    requires i < |s.ledger.records| && !s.ledger.records[i].status.Active?
    ensures i < |RequestStop(s).ledger.records| && !RequestStop(s).ledger.records[i].status.Active?
    ensures i < |RequestStart(s).ledger.records| && !RequestStart(s).ledger.records[i].status.Active?
  {
  }

  lemma StrandActivates(s: State, choice: bool, i: nat)
    requires i < |s.ledger.records| && !s.ledger.records[i].status.Active?
    ensures var t := StrandStep(s, choice);
            && i < |t.ledger.records|
            && (t.ledger.records[i].status.Active? ==> HasItem(WireItems(t.past.wire), i + 1))
  {
    hide Apply, Bytes, GatherCount, DecideEnqueue, Ids, Handoffs, CanBegin, Release, Transition, HasItem, WireItems,
      StepBeginning;
    forall op: Op | !op.Begin? && !op.BeginBatch?
      ensures i < |Apply(s.ledger, op).records| && !Apply(s.ledger, op).records[i].status.Active?
    {
      OpActivates(s.ledger, op, i);
    }
    if s.pc.Beginning? { BeginActivates(s, i); }
  }

  lemma BeginActivates(s: State, i: nat)
    requires s.pc.Beginning? && i < |s.ledger.records| && !s.ledger.records[i].status.Active?
    ensures var t := StepBeginning(s);
            && i < |t.ledger.records|
            && (t.ledger.records[i].status.Active? ==> HasItem(WireItems(t.past.wire), i + 1))
  {
    var t, batch := StepBeginning(s), s.pc.batch;
    if t.ledger != s.ledger && t.ledger.records[i].status.Active? {
      assert i + 1 in Ids(batch);
      var j :| 0 <= j < |batch| && Ids(batch)[j] == i + 1;
      assert t.past.wire[|s.past.wire| + j] == Handoffs(batch, s.seqs)[j];
      assert WireItems(t.past.wire)[|s.past.wire| + j] == batch[j];
    }
  }

  /** The wire shows exactly which requests crossed the handoff, and only stops and losses cut requests off. */
  ghost predicate Marked(s: State) {
    && (forall i | 0 <= i < |s.ledger.records| && Crossed(s.ledger.records[i]) ::
        HasItem(WireItems(s.past.wire), i + 1))
    && (forall i | 0 <= i < |s.past.wire| ::
          && 1 <= s.past.wire[i].item.id <= |s.ledger.records|
          && CrossedHandoff(s.ledger.records[s.past.wire[i].item.id - 1]))
    && (forall i | 0 <= i < |s.ledger.records| && s.ledger.records[i].status.Terminated? ::
          s.ledger.records[i].status.cause == ExplicitStop || s.ledger.records[i].status.cause == ConnectionLoss)
  }

  lemma WireGrows(s: State, e: Event)
    ensures WireItems(s.past.wire) <= WireItems(Step(s, e).past.wire)
  {
    hide Step, Handoffs;
    WireStep(s, e);
  }

  lemma MarkedRecord(s: State, e: Event, i: nat)
    requires Within(s) && Marked(s) && i < |s.ledger.records|
    ensures var t := Step(s, e);
            && i < |t.ledger.records|
            && (Crossed(t.ledger.records[i]) ==> HasItem(WireItems(t.past.wire), i + 1))
            && (t.ledger.records[i].status.Terminated? ==>
                  || t.ledger.records[i].status.cause == ExplicitStop
                  || t.ledger.records[i].status.cause == ConnectionLoss)
  {
    hide Step, Within, HasItem, WireItems;
    var t := Step(s, e);
    LedgerFollows(s, e);
    assert Follows(s.ledger.records[i], t.ledger.records[i]);
    if Live(s.ledger.records[i]) { StepCuts(s, e, i); }
    WireGrows(s, e);
    if Crossed(s.ledger.records[i]) {
      HasItemStill(WireItems(s.past.wire), WireItems(t.past.wire), i + 1);
    } else {
      StepActivates(s, e, i);
    }
  }

  lemma MarkedStep(s: State, e: Event)
    requires Within(s) && Numbered(s) && Marked(s)
    ensures Marked(Step(s, e))
  {
    hide Step, Within, HasItem, WireItems, Numbered, CrossedHandoff, Crossed;
    var t := Step(s, e);
    LedgerFollows(s, e);
    forall i | 0 <= i < |t.ledger.records|
      ensures Crossed(t.ledger.records[i]) ==> HasItem(WireItems(t.past.wire), i + 1)
      ensures t.ledger.records[i].status.Terminated? ==>
                t.ledger.records[i].status.cause == ExplicitStop || t.ledger.records[i].status.cause == ConnectionLoss
    {
      if i < |s.ledger.records| {
        MarkedRecord(s, e, i);
      } else {
        EnteredRecord(s, e);
        NotCrossed(t.ledger.records[i]);
      }
    }
    forall i | 0 <= i < |t.past.wire|
      ensures 1 <= t.past.wire[i].item.id <= |t.ledger.records|
              && CrossedHandoff(t.ledger.records[t.past.wire[i].item.id - 1])
    {
      WirePasses(s, e, i);
    }
  }

  lemma NotCrossed(r: Record)
    requires !r.status.Terminated? && !r.status.Active?
    ensures !Crossed(r)
  {
  }

  lemma WirePasses(s: State, e: Event, i: nat)
    requires Marked(s) && i < |Step(s, e).past.wire|
    ensures var t := Step(s, e);
            && 1 <= t.past.wire[i].item.id <= |t.ledger.records|
            && CrossedHandoff(t.ledger.records[t.past.wire[i].item.id - 1])
  {
    hide Step, HasItem, WireItems, Crossed;
    var t := Step(s, e);
    WireStep(s, e);
    LedgerFollows(s, e);
    if i < |s.past.wire| {
      var id := s.past.wire[i].item.id;
      assert t.past.wire[i] == s.past.wire[i];
      assert Follows(s.ledger.records[id - 1], t.ledger.records[id - 1]);
    } else {
      HandedIsActive(s, e, i - |s.past.wire|);
    }
  }

  lemma HandedIsActive(s: State, e: Event, j: nat)
    requires e.Strand? && s.pc.Beginning? && CanBegin(s.ledger.records, Ids(s.pc.batch)) && j < |s.pc.batch|
    requires Step(s, e).past.wire == s.past.wire + Handoffs(s.pc.batch, s.seqs)
    ensures var t, x := Step(s, e), s.pc.batch[j];
            && t.past.wire[|s.past.wire| + j].item == x
            && 1 <= x.id <= |t.ledger.records| && t.ledger.records[x.id - 1].status.Active?
  {
    var x := s.pc.batch[j];
    assert Ids(s.pc.batch)[j] == x.id && IsLive(s.ledger.records, x.id);
    assert x.id in Ids(s.pc.batch);
    assert |Step(s, e).past.wire| > |s.past.wire|;
  }

  lemma {:induction false} AlwaysMarked(threshold: nat, events: seq<Event>)
    ensures Marked(Reach(threshold, events))
    decreases |events|
  {
    hide Step, Marked, Runs, LiveIsCurrent, Sourced, WirePinned, Sane, Within, DecideEnqueue;
    if events == [] {
      NobodyMarked(threshold);
    } else {
      var before := events[..|events| - 1];
      AlwaysMarked(threshold, before);
      ClientStaysWithinLimit(threshold, before);
      ConnectionPinning(threshold, before);
      LiveImpliesNumbered(Reach(threshold, before));
      MarkedStep(Reach(threshold, before), events[|events| - 1]);
    }
  }

  lemma NobodyMarked(threshold: nat)
    ensures Marked(Initial(threshold))
  {
  }

  /** Every request cut off during the run is charged, for good, to the event that cut it off. */
  ghost predicate LossesStand(threshold: nat, events: seq<Event>, log: seq<Record>) {
    forall k, i | 0 <= k < |events| && 0 <= i < |Reach(threshold, events[..k]).ledger.records|
                  && i < |Reach(threshold, events[..k + 1]).ledger.records| ::
      var r := Reach(threshold, events[..k]).ledger.records[i];
      Live(r) && Reach(threshold, events[..k + 1]).ledger.records[i].status.Terminated? ==>
        i < |log| && log[i].status == Terminated(CauseOf(events[k]), r.status.Active?)
  }

  lemma LossAt(threshold: nat, events: seq<Event>, k: nat, i: nat)
    requires k < |events| && i < |Reach(threshold, events[..k]).ledger.records|
    requires i < |Reach(threshold, events[..k + 1]).ledger.records|
    requires Live(Reach(threshold, events[..k]).ledger.records[i])
    requires Reach(threshold, events[..k + 1]).ledger.records[i].status.Terminated?
    ensures var log, r := Reach(threshold, events).ledger.records, Reach(threshold, events[..k]).ledger.records[i];
            i < |log| && log[i].status == Terminated(CauseOf(events[k]), r.status.Active?)
  {
    hide Step, Within, DecideEnqueue, Reach;
    ClientStaysWithinLimit(threshold, events[..k]);
    ReachSnoc(threshold, events, k);
    StepCuts(Reach(threshold, events[..k]), events[k], i);
    ClientFatesAreFinal(threshold, events[..k + 1], events[k + 1..]);
    assert events[..k + 1] + events[k + 1..] == events;
    assert Follows(Reach(threshold, events[..k + 1]).ledger.records[i], Reach(threshold, events).ledger.records[i]);
  }

  /**
   Every run: each request that was cut off is charged to a stop if a stop cut it off
   and to connection loss otherwise, and stays so; the published losses show exactly
   that, by what the wire was given.
   */
  lemma ClientLossesAreCharged(threshold: nat, events: seq<Event>)
    ensures var s := Reach(threshold, events);
            && LossesStand(threshold, events, s.ledger.records)
            && ShowsLosses(Published(s, s.ledger.epoch), s.ledger.records, s.ledger.epoch, WireItems(s.past.wire))
  {
    hide Reach, ShowsLosses, Snapshot;
    var s := Reach(threshold, events);
    forall k, i | 0 <= k < |events| && 0 <= i < |Reach(threshold, events[..k]).ledger.records|
                  && i < |Reach(threshold, events[..k + 1]).ledger.records|
      ensures var r := Reach(threshold, events[..k]).ledger.records[i];
              Live(r) && Reach(threshold, events[..k + 1]).ledger.records[i].status.Terminated? ==>
                i < |s.ledger.records| && s.ledger.records[i].status == Terminated(CauseOf(events[k]), r.status.Active?)
    {
      if Live(Reach(threshold, events[..k]).ledger.records[i])
         && Reach(threshold, events[..k + 1]).ledger.records[i].status.Terminated? {
        LossAt(threshold, events, k, i);
      }
    }
    AlwaysMarked(threshold, events);
    MarksShow(s);
    LossesShown(s.ledger.records, s.ledger.epoch, WireItems(s.past.wire));
  }

  lemma MarksShow(s: State)
    requires Marked(s)
    ensures MarkedByWire(s.ledger.records, WireItems(s.past.wire))
  {
    var rs, wire := s.ledger.records, WireItems(s.past.wire);
    forall i | 0 <= i < |rs| && rs[i].status.Terminated?
      ensures rs[i].status.active <==> HasItem(wire, i + 1)
    {
      if HasItem(wire, i + 1) {
        var j :| 0 <= j < |wire| && wire[j].id == i + 1;
        assert CrossedHandoff(rs[s.past.wire[j].item.id - 1]);
      }
      assert Crossed(rs[i]) == rs[i].status.active;
    }
  }
}
