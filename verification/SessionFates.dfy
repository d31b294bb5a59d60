/**
 What the ledger says about a session: while it is open the live requests are
 exactly the items somewhere between admission and completion, handed-over ones
 are the active ones; once it is closing nothing is outstanding; and over whole
 runs each request's fate is set once.
 */
module SessionFates {
  import opened Options
  import opened SendAccounting
  import opened SendHistory
  import opened SendFates
  import opened Queues
  import opened SessionModel
  import opened SessionBytes
  import opened SessionOrder

  // ------------------------------------------------------------------
  // In every state
  // ------------------------------------------------------------------

  /** The request that tracks an accepted item: of its size, and not withdrawn. */
  predicate Tracked(rs: seq<Record>, x: Item) {
    1 <= x.id <= |rs| && rs[x.id - 1].bytes == |x.data| && !rs[x.id - 1].status.Withdrawn?
  }

  /** Accepted items and requests that were not withdrawn match one to one, in order. */
  ghost predicate Numbered(s: State) {
    && (forall i | 0 <= i < |s.past.accepted| :: Tracked(s.ledger.records, s.past.accepted[i]))
    && (forall i, j | 0 <= i < j < |s.past.accepted| :: s.past.accepted[i].id < s.past.accepted[j].id)
    && (forall id | 1 <= id <= |s.ledger.records| && !s.ledger.records[id - 1].status.Withdrawn? ::
        HasItem(s.past.accepted, id))
    && (s.admitting.Some? ==> s.admitting.value.id == |s.ledger.records| + 1)
  }

  /** A closing session has nothing outstanding and has told its waiters why. */
  ghost predicate Settled(s: State) {
    s.life.closing ==>
      && (forall i | 0 <= i < |s.ledger.records| :: !Live(s.ledger.records[i]))
      && s.life.wait.Some? && s.admitting.None?
  }

  /** The ledger moves only by ledger operations. */
  lemma LedgerFollows(s: State, e: Event)
    ensures Extends(s.ledger.records, Step(s, e).ledger.records)
    ensures Sane(s.ledger.records) ==> Sane(Step(s, e).ledger.records)
    ensures s.life.wait.Some? ==> Step(s, e).life.wait == s.life.wait
  {
    hide Apply, Extends, Sane, Verdict, NeedsMutex, Bytes, GatherCount, DecideEnqueue, Sizes, Ids;
    ExtendsSelf(s.ledger.records);
    match e
    case Strand(throws) => LedgerFollowsStrand(s, throws);
    case Admitted => if s.admitting.Some? { ApplyExtends(s.ledger, Admit(|s.admitting.value.data|, None)); }
    case AdmissionThrows(_) =>
      if s.admitting.Some? { AbandonExtends(s.ledger, |s.admitting.value.data|, s.admitting.value.id); }
    case RequestStop => ApplyExtends(s.ledger, End(ExplicitStop));
    case AsyncStop => ApplyExtends(s.ledger, End(ExplicitStop));
    case ResetStats => ApplyExtends(s.ledger, Reset);
    case _ =>
  }

  /** Admitting a request and rolling it back. */
  lemma AbandonExtends(h: History, n: nat, id: nat)
    ensures var a := Apply(h, Admit(n, None));
            var b := Apply(a, Rollback(id));
            Extends(h.records, b.records) && (Sane(h.records) ==> Sane(b.records))
  {
    hide Apply, Extends, Sane;
    var a := Apply(h, Admit(n, None));
    ApplyExtends(h, Admit(n, None));
    ApplyExtends(a, Rollback(id));
    ExtendsTwice(h.records, a.records, Apply(a, Rollback(id)).records);
  }

  lemma LedgerFollowsStrand(s: State, throws: bool)
    ensures Extends(s.ledger.records, StrandStep(s, throws).ledger.records)
    ensures Sane(s.ledger.records) ==> Sane(StrandStep(s, throws).ledger.records)
    ensures s.life.wait.Some? ==> StrandStep(s, throws).life.wait == s.life.wait
  {
    hide Apply, Extends, Sane, Bytes, GatherCount, DecideEnqueue, Sizes, Ids;
    ExtendsSelf(s.ledger.records);
    ApplyExtends(s.ledger, End(ConnectionLoss));
    match s.pc
    case Idle =>
      if s.posted != [] && s.posted[0].WriteDone? {
        var h := s.posted[0];
        var op := CompleteBatch(Sizes(s.lanes.batch), if h.n < h.total then h.n else h.total);
        ApplyExtends(s.ledger, op);
        ApplyExtends(Apply(s.ledger, op), End(ConnectionLoss));
        ExtendsTwice(s.ledger.records, Apply(s.ledger, op).records,
                     Apply(Apply(s.ledger, op), End(ConnectionLoss)).records);
      }
    case Routing(item) => ApplyExtends(s.ledger, Discard(item.id, QueuePressure));
    case Kicking(_) => ApplyExtends(s.ledger, BeginBatch(Ids(s.lanes.tx[..GatherCount(s.lanes.tx)])));
    case Resuming(_) => ApplyExtends(s.ledger, BeginBatch(Ids(s.lanes.tx[..GatherCount(s.lanes.tx)])));
    case _ =>
  }

  /**
   Over every run and every continuation of it: a request that has been written
   or lost keeps that fate, whatever completions, losses or stops still happen,
   and a wait that has ended keeps its cause.
   */
  lemma {:induction false} SessionFatesAreFinal(threshold: nat, events: seq<Event>, more: seq<Event>)
    ensures var s, t := Reach(threshold, events), Reach(threshold, events + more);
            && Extends(s.ledger.records, t.ledger.records)
            && (s.life.wait.Some? ==> t.life.wait == s.life.wait)
    decreases |more|
  {
    hide Extends, Step, Sane;
    if more == [] {
      assert events + more == events;
      ExtendsSelf(Reach(threshold, events).ledger.records);
    } else {
      var init := more[..|more| - 1];
      SessionFatesAreFinal(threshold, events, init);
      assert (events + more)[..|events + more| - 1] == events + init;
      assert (events + more)[|events + more| - 1] == more[|more| - 1];
      var s, t := Reach(threshold, events), Reach(threshold, events + init);
      LedgerFollows(t, more[|more| - 1]);
      ExtendsTwice(s.ledger.records, t.ledger.records, Reach(threshold, events + more).ledger.records);
    }
  }

  lemma ApplyLength(h: History, op: Op)
    ensures |Apply(h, op).records| == |h.records| + (if op.Admit? then 1 else 0)
  {
  }

  /** The event puts the request being admitted into the ledger, for good or to be rolled back. */
  predicate Enters(e: Event) {
    e.Admitted? || (e.AdmissionThrows? && e.entered)
  }

  /** Only an admission adds a request. */
  lemma StepLength(s: State, e: Event)
    ensures |Step(s, e).ledger.records| == |s.ledger.records| + (if Enters(e) && s.admitting.Some? then 1 else 0)
  {
    hide Apply, Verdict, NeedsMutex, Bytes, GatherCount, DecideEnqueue, Sizes, Ids;
    match e
    case Strand(throws) => StrandLength(s, throws);
    case Admitted => if s.admitting.Some? { ApplyLength(s.ledger, Admit(|s.admitting.value.data|, None)); }
    case AdmissionThrows(_) =>
      if s.admitting.Some? {
        var a := Admit(|s.admitting.value.data|, None);
        ApplyLength(s.ledger, a);
        ApplyLength(Apply(s.ledger, a), Rollback(s.admitting.value.id));
      }
    case RequestStop => ApplyLength(s.ledger, End(ExplicitStop));
    case AsyncStop => ApplyLength(s.ledger, End(ExplicitStop));
    case ResetStats => ApplyLength(s.ledger, Reset);
    case _ =>
  }

  lemma StrandLength(s: State, throws: bool)
    ensures |StrandStep(s, throws).ledger.records| == |s.ledger.records|
    ensures StrandStep(s, throws).past.accepted == s.past.accepted && StrandStep(s, throws).admitting == s.admitting
  {
    hide Apply, Bytes, GatherCount, DecideEnqueue, Sizes, Ids;
    ApplyLength(s.ledger, End(ConnectionLoss));
    match s.pc
    case Idle =>
      if s.posted != [] && s.posted[0].WriteDone? {
        var h := s.posted[0];
        var op := CompleteBatch(Sizes(s.lanes.batch), if h.n < h.total then h.n else h.total);
        ApplyLength(s.ledger, op);
        ApplyLength(Apply(s.ledger, op), End(ConnectionLoss));
      }
    case Routing(item) => ApplyLength(s.ledger, Discard(item.id, QueuePressure));
    case Kicking(_) => ApplyLength(s.ledger, BeginBatch(Ids(s.lanes.tx[..GatherCount(s.lanes.tx)])));
    case Resuming(_) => ApplyLength(s.ledger, BeginBatch(Ids(s.lanes.tx[..GatherCount(s.lanes.tx)])));
    case _ =>
  }

  /** No step but the rollback of an admission withdraws a request. */
  lemma StepWithdraws(s: State, e: Event)
    requires Numbered(s)
    ensures SameWithdrawals(s.ledger.records, Step(s, e).ledger.records)
  {
    hide Apply, SameWithdrawals, Verdict, NeedsMutex, Bytes, GatherCount, DecideEnqueue, Sizes, Ids;
    WithdrawsNone(s.ledger.records);
    match e
    case Strand(throws) => StrandWithdraws(s, throws);
    case Admitted => if s.admitting.Some? { ApplyWithdraws(s.ledger, Admit(|s.admitting.value.data|, None)); }
    case AdmissionThrows(_) => if s.admitting.Some? { AbandonWithdraws(s.ledger, |s.admitting.value.data|); }
    case RequestStop => ApplyWithdraws(s.ledger, End(ExplicitStop));
    case AsyncStop => ApplyWithdraws(s.ledger, End(ExplicitStop));
    case ResetStats => ApplyWithdraws(s.ledger, Reset);
    case _ =>
  }

  lemma WithdrawsNone(rs: seq<Record>)
    ensures SameWithdrawals(rs, rs)
  {
  }

  lemma AbandonWithdraws(h: History, n: nat)
    ensures SameWithdrawals(h.records, Apply(Apply(h, Admit(n, None)), Rollback(|h.records| + 1)).records)
  {
    hide Apply;
    AdmitRollback(h, n);
  }

  lemma WithdrawsTwice(a: seq<Record>, b: seq<Record>, c: seq<Record>)
    requires SameWithdrawals(a, b) && SameWithdrawals(b, c)
    ensures SameWithdrawals(a, c)
  {
  }

  lemma StrandWithdraws(s: State, throws: bool)
    ensures SameWithdrawals(s.ledger.records, StrandStep(s, throws).ledger.records)
  {
    hide Apply, SameWithdrawals, Bytes, GatherCount, DecideEnqueue, Sizes, Ids;
    WithdrawsNone(s.ledger.records);
    ApplyWithdraws(s.ledger, End(ConnectionLoss));
    match s.pc
    case Idle =>
      if s.posted != [] && s.posted[0].WriteDone? {
        var h := s.posted[0];
        var op := CompleteBatch(Sizes(s.lanes.batch), if h.n < h.total then h.n else h.total);
        ApplyWithdraws(s.ledger, op);
        ApplyWithdraws(Apply(s.ledger, op), End(ConnectionLoss));
        WithdrawsTwice(s.ledger.records, Apply(s.ledger, op).records,
                       Apply(Apply(s.ledger, op), End(ConnectionLoss)).records);
      }
    case Routing(item) => ApplyWithdraws(s.ledger, Discard(item.id, QueuePressure));
    case Kicking(_) => ApplyWithdraws(s.ledger, BeginBatch(Ids(s.lanes.tx[..GatherCount(s.lanes.tx)])));
    case Resuming(_) => ApplyWithdraws(s.ledger, BeginBatch(Ids(s.lanes.tx[..GatherCount(s.lanes.tx)])));
    case _ =>
  }

  lemma NumberedStep(s: State, e: Event)
    requires Numbered(s)
    ensures Numbered(Step(s, e))
  {
    hide Apply, Verdict, NeedsMutex, StrandStep, HasItem;
    StepLength(s, e);
    LedgerFollows(s, e);
    StepWithdraws(s, e);
    if Enters(e) && s.admitting.Some? {
      NumberedEnter(s, e);
    } else if e.Strand? {
      StrandLength(s, e.throws);
    }
  }

  lemma NumberedEnter(s: State, e: Event)
    requires Numbered(s) && Enters(e) && s.admitting.Some?
    ensures Numbered(Step(s, e))
  {
    hide Apply, HasItem;
    var item, t := s.admitting.value, Step(s, e);
    AdmitAppends(s.ledger, |item.data|);
    AdmitRollback(s.ledger, |item.data|);
    forall id | 1 <= id <= |t.ledger.records| && !t.ledger.records[id - 1].status.Withdrawn?
      ensures HasItem(t.past.accepted, id)
    {
      if id <= |s.ledger.records| {
        HasItemStill(s.past.accepted, t.past.accepted, id);
      } else {
        HasItemLast(s.past.accepted, item);
      }
    }
  }

  lemma AdmitAppends(h: History, n: nat)
    ensures Apply(h, Admit(n, None)).records == h.records + [Record(n, h.epoch, None, Waiting)]
  {
  }

  lemma EndSettles(h: History, cause: Cause)
    ensures forall i | 0 <= i < |Apply(h, End(cause)).records| :: !Live(Apply(h, End(cause)).records[i])
  {
  }

  lemma SettledStep(s: State, e: Event)
    requires Settled(s)
    ensures Settled(Step(s, e))
  {
    hide Apply, Verdict, NeedsMutex, StrandStep, Live;
    StepLength(s, e);
    LedgerFollows(s, e);
    EndSettles(s.ledger, ExplicitStop);
    match e
    case Strand(throws) => if !(s.admitting.Some? && NeedsMutex(s, throws)) { SettledStrand(s, throws); }
    case Write(data, kind) => ClosedRefuses(s, data, kind);
    case _ =>
  }

  lemma SettledStrand(s: State, throws: bool)
    requires Settled(s) && (s.admitting.Some? ==> !NeedsMutex(s, throws))
    ensures Settled(StrandStep(s, throws))
  {
    hide Apply, Bytes, GatherCount, DecideEnqueue, Sizes, Ids, Live;
    StrandLength(s, throws);
    LedgerFollowsStrand(s, throws);
    EndSettles(s.ledger, ConnectionLoss);
    if s.pc.Idle? && s.posted != [] && s.posted[0].WriteDone? {
      var h := s.posted[0];
      EndSettles(Apply(s.ledger, CompleteBatch(Sizes(s.lanes.batch), if h.n < h.total then h.n else h.total)),
                 ConnectionLoss);
    }
  }

  // ------------------------------------------------------------------
  // While the session is open
  // ------------------------------------------------------------------

  /** A request is live exactly when its item is in the batch or the backlog, once; active exactly in the batch. */
  ghost predicate LinkedAt(s: State, id: nat) {
    && Count(s.lanes.batch, id) + Count(Backlog(s), id) == (if IsLive(s.ledger.records, id) then 1 else 0)
    && (IsLive(s.ledger.records, id) ==> (s.ledger.records[id - 1].status.Active? <==> Count(s.lanes.batch, id) > 0))
  }

  ghost predicate Linked(s: State) {
    forall id :: LinkedAt(s, id)
  }

  lemma BacklogCount(s: State, id: nat)
    ensures Count(Backlog(s), id)
         == Count(s.lanes.tx, id) + Count(s.lanes.pending, id) + Count(Held(s.pc), id) + Count(Queued(s.posted), id)
  {
    CountConcat(s.lanes.tx, s.lanes.pending, id);
    CountConcat(s.lanes.tx + s.lanes.pending, Held(s.pc), id);
    CountConcat(s.lanes.tx + s.lanes.pending + Held(s.pc), Queued(s.posted), id);
  }

  /** Steps that only move items between lanes of the backlog. */
  lemma LinkedMove(s: State, t: State, id: nat)
    requires LinkedAt(s, id)
    requires t.ledger.records == s.ledger.records && Count(t.lanes.batch, id) == Count(s.lanes.batch, id)
    requires Count(Backlog(t), id) == Count(Backlog(s), id)
    ensures LinkedAt(t, id)
  {
  }

  lemma LinkedStep(s: State, e: Event, id: nat)
    requires Reserved(s) && Exact(s) && !s.life.closing && Numbered(s) && Linked(s) && !Step(s, e).life.closing
    ensures LinkedAt(Step(s, e), id)
  {
    hide StrandStep, NeedsMutex, Verdict, Apply, Count, Reserved, Exact, Queued, Linked, LinkedAt, Numbered;
    assert LinkedAt(s, id) by { LinkedHere(s, id); }
    var t := Step(s, e);
    match e
    case Strand(throws) =>
      if !(s.admitting.Some? && NeedsMutex(s, throws)) { LinkedStrand(s, throws, id); }
    case Admitted => if s.admitting.Some? { LinkedPost(s, id); }
    case AdmissionThrows(entered) => if s.admitting.Some? { LinkedAbandon(s, entered, id); }
    case IoDone(n, error) =>
      if s.lanes.io.Some? {
        QueuedSnoc(s.posted, WriteDone(s.lanes.io.value, n, error));
        assert Backlog(t) == Backlog(s);
        LinkedMove(s, t, id);
      }
    case ResetStats => ResetKeepsRecords(s.ledger); LinkedMove(s, t, id);
    case RequestStop =>
    case AsyncStop =>
    case _ => LinkedMove(s, t, id);
  }

  lemma LinkedHere(s: State, id: nat)
    requires Linked(s)
    ensures LinkedAt(s, id)
  {
  }

  lemma LinkedPost(s: State, id: nat)
    requires Numbered(s) && Linked(s) && s.admitting.Some?
    ensures LinkedAt(Post(s), id)
  {
    hide Apply, Queued, Linked;
    LinkedHere(s, id);
    var t, item := Post(s), s.admitting.value;
    QueuedSnoc(s.posted, t.posted[|s.posted|]);
    assert Backlog(t) == Backlog(s) + [item];
    CountConcat(Backlog(s), [item], id);
    CountOne(item, id);
    AdmitAppends(s.ledger, |item.data|);
  }

  /** The withdrawn request is in no queue and is not live. */
  lemma LinkedAbandon(s: State, entered: bool, id: nat)
    requires Numbered(s) && Linked(s) && s.admitting.Some?
    ensures LinkedAt(Abandon(s, entered), id)
  {
    hide Apply, Queued, Linked, Count;
    LinkedHere(s, id);
    AdmitRollback(s.ledger, |s.admitting.value.data|);
    assert Backlog(Abandon(s, entered)) == Backlog(s);
  }

  lemma CountOne(item: Item, id: nat)
    ensures Count([item], id) == if item.id == id then 1 else 0
  {
    assert [item][1..] == [];
  }

  lemma LinkedStrand(s: State, throws: bool, id: nat)
    requires Reserved(s) && Exact(s) && !s.life.closing && Linked(s) && !StrandStep(s, throws).life.closing
    ensures LinkedAt(StrandStep(s, throws), id)
  {
    hide Linked, LinkedAt, StepIdle, StepRouting, StepReporting, StepResuming, StepClosing, StepKicking,
      StepFinishing, StepRearming, StepInitiating, StepDraining, Reserved, Exact;
    LinkedHere(s, id);
    match s.pc
    case Idle => LinkedIdle(s, id);
    case Routing(_) => LinkedRouting(s, id);
    case Kicking(_) => LinkedKicking(s, id);
    case Resuming(_) => LinkedResuming(s, id);
    case _ => LinkedRest(s, throws, id);
  }

  lemma LinkedIdle(s: State, id: nat)
    requires Exact(s) && !s.life.closing && Linked(s) && s.pc.Idle? && !StepIdle(s).life.closing
    ensures LinkedAt(StepIdle(s), id)
  {
    hide Apply, Bytes, PostedBytes, DoneCount, Sizes, Terminate, Count, Queued, Linked, LinkedAt;
    LinkedHere(s, id);
    if s.posted != [] {
      QueuedPop(s.posted);
      ClosedByLoss(s);
      var t := StepIdle(s);
      BacklogCount(s, id);
      BacklogCount(t, id);
      match s.posted[0]
      case RouteWrite(item) =>
        assert Backlog(t) == Backlog(s);
        LinkedMove(s, t, id);
      case RouteTry(item) =>
        CountConcat(s.lanes.tx, [item], id);
        CountConcat([item], Queued(t.posted), id);
        LinkedMove(s, t, id);
      case WriteDone(total, n, failed) => LinkedDone(s, t, n, total, id);
      case Cleanup =>
        assert Backlog(t) == Backlog(s);
        LinkedMove(s, t, id);
    }
  }

  /** complete_batch ends every request of the batch and touches no other. */
  lemma {:induction false} CompleteAllEnds(rs: seq<Record>, items: seq<(nat, nat)>, n: nat, i: nat)
    requires i < |items| && 1 <= items[i].0 <= |rs|
    ensures !Live(CompleteAll(rs, items, n)[items[i].0 - 1])
    decreases |items|
  {
    var part := if n < items[0].1 then n else items[0].1;
    var rs' := At(rs, items[0].0, r => Finished(r, part));
    if i == 0 {
      CompleteAllExtends(rs', items[1..], n - part);
    } else {
      CompleteAllEnds(rs', items[1..], n - part, i - 1);
    }
  }

  lemma {:induction false} CountFinds(items: seq<Item>, id: nat) returns (i: nat)
    requires Count(items, id) > 0
    ensures i < |items| && items[i].id == id
  {
    if items[0].id == id {
      i := 0;
    } else {
      i := CountFinds(items[1..], id);
      i := i + 1;
    }
  }

  lemma LinkedDone(s: State, t: State, n: nat, total: nat, id: nat)
    requires LinkedAt(s, id)
    requires t.ledger == Apply(s.ledger, CompleteBatch(Sizes(s.lanes.batch), if n < total then n else total))
    requires t.lanes.batch == [] && Count(Backlog(t), id) == Count(Backlog(s), id)
    ensures LinkedAt(t, id)
  {
    var sizes, c := Sizes(s.lanes.batch), if n < total then n else total;
    if Count(s.lanes.batch, id) > 0 {
      var i := CountFinds(s.lanes.batch, id);
      CompleteAllEnds(s.ledger.records, sizes, c, i);
    } else if 1 <= id <= |s.ledger.records| {
      forall i | 0 <= i < |sizes| ensures sizes[i].0 != id {
        CountPositive(s.lanes.batch, i);
      }
      CompleteAllSkips(s.ledger.records, sizes, c, id);
    }
  }

  lemma LinkedRouting(s: State, id: nat)
    requires Reserved(s) && LinkedAt(s, id) && s.pc.Routing?
    ensures LinkedAt(StepRouting(s), id)
  {
    hide Apply, Bytes, PostedBytes, Count, Queued, LinkedAt;
    ReservedWritesAreNeverRejected(s);
    var t, item := StepRouting(s), s.pc.item;
    BacklogCount(s, id);
    BacklogCount(t, id);
    CountConcat(s.lanes.tx, [item], id);
    CountConcat(s.lanes.pending, [item], id);
    CountNone(id);
    LinkedMove(s, t, id);
  }

  lemma CountNone(id: nat)
    ensures Count([], id) == 0
  {
  }

  lemma LinkedRest(s: State, throws: bool, id: nat)
    requires LinkedAt(s, id) && !s.life.closing && Exact(s) && !StrandStep(s, throws).life.closing
    ensures s.pc.Finishing? ==> LinkedAt(StepFinishing(s), id)
    ensures s.pc.Reporting? ==> LinkedAt(StepReporting(s), id)
    ensures s.pc.Rearming? ==> LinkedAt(StepRearming(s), id)
    ensures s.pc.Initiating? ==> LinkedAt(StepInitiating(s, throws), id)
    ensures s.pc.Closing? ==> LinkedAt(StepClosing(s), id)
    ensures !s.pc.Draining?
  {
    hide Apply, Bytes, PostedBytes, Count, Queued;
    if s.pc.Reporting? {
      assert Backlog(StepReporting(s)) == Backlog(s);
    }
  }

  /** The handoff: every request of the batch was live and waiting, so begin_batch succeeds and marks it active. */
  lemma LinkedDoWrite(s: State, k: Then, id: nat)
    requires Linked(s) && !s.pc.Routing? && s.lanes.batch == []
    ensures LinkedAt(DoWrite(s, k), id)
  {
    hide Bytes, GatherFrom, Queued, Linked, Apply, Count;
    LinkedHere(s, id);
    CountNone(id);
    var t, g := DoWrite(s, k), GatherCount(s.lanes.tx);
    if !Closed(s) && s.lanes.tx != [] && !s.lanes.writing {
      var batch := s.lanes.tx[..g];
      BatchCanBegin(s, g);
      BeginMarks(s.ledger, batch, id);
      assert Backlog(s) == batch + Backlog(t);
      CountConcat(batch, Backlog(t), id);
    } else {
      assert Backlog(t) == Backlog(s);
    }
  }

  lemma BeginMarks(h: History, batch: seq<Item>, id: nat)
    requires CanBegin(h.records, Ids(batch))
    ensures var after := Apply(h, BeginBatch(Ids(batch))).records;
            && IsLive(after, id) == IsLive(h.records, id)
            && (IsLive(h.records, id) ==>
                  (after[id - 1].status.Active? <==> Count(batch, id) > 0 || h.records[id - 1].status.Active?))
  {
    if Count(batch, id) > 0 {
      var i := CountFinds(batch, id);
      assert Ids(batch)[i] == id;
    } else {
      forall i | 0 <= i < |batch| ensures Ids(batch)[i] != id {
        CountPositive(batch, i);
      }
    }
  }

  lemma BatchCanBegin(s: State, g: nat)
    requires Linked(s) && g <= |s.lanes.tx|
    ensures CanBegin(s.ledger.records, Ids(s.lanes.tx[..g]))
  {
    hide Linked;
    forall i | 0 <= i < g ensures IsLive(s.ledger.records, s.lanes.tx[i].id) {
      LinkedHere(s, s.lanes.tx[i].id);
      BacklogCount(s, s.lanes.tx[i].id);
      CountPositive(s.lanes.tx, i);
    }
  }

  lemma LinkedKicking(s: State, id: nat)
    requires Linked(s) && Exact(s) && !s.life.closing && s.pc.Kicking?
    ensures LinkedAt(StepKicking(s), id)
  {
    hide DoWrite, Count, Queued, Linked;
    LinkedHere(s, id);
    if !s.lanes.writing {
      LinkedDoWrite(s, s.pc.k, id);
    }
  }

  lemma LinkedResuming(s: State, id: nat)
    requires Linked(s) && Exact(s) && !s.life.closing && s.pc.Resuming?
    ensures LinkedAt(StepResuming(s), id)
  {
    hide DoWrite, Count, Queued, Linked;
    LinkedHere(s, id);
    match s.pc.k
    case Done =>
    case AfterRoute =>
      if !s.lanes.writing { LinkedDoWrite(s, Done, id); }
    case AfterCompletion =>
      var t := s.(lanes := s.lanes.(writing := false));
      LinkedIdling(s, t);
      LinkedDoWrite(t, Done, id);
  }

  lemma LinkedIdling(s: State, t: State)
    requires Linked(s) && t == s.(lanes := s.lanes.(writing := false))
    ensures Linked(t)
  {
    forall id ensures LinkedAt(t, id) {
      LinkedHere(s, id);
      LinkedMove(s, t, id);
    }
  }

  // ------------------------------------------------------------------
  // What the wire was given, and whole runs
  // ------------------------------------------------------------------

  ghost predicate Handed(records: seq<Record>, wire: seq<Item>) {
    forall i | 0 <= i < |wire| :: 1 <= wire[i].id <= |records| && CrossedHandoff(records[wire[i].id - 1])
  }

  lemma HandedFollows(a: seq<Record>, b: seq<Record>, wire: seq<Item>)
    requires Handed(a, wire) && Extends(a, b)
    ensures Handed(b, wire)
  {
  }

  lemma BeginActivates(h: History, batch: seq<Item>)
    requires CanBegin(h.records, Ids(batch))
    ensures Handed(Apply(h, BeginBatch(Ids(batch))).records, batch)
  {
    forall i | 0 <= i < |batch|
      ensures IsLive(h.records, batch[i].id) && Apply(h, BeginBatch(Ids(batch))).records[batch[i].id - 1].status.Active?
    {
      assert Ids(batch)[i] == batch[i].id && IsLive(h.records, Ids(batch)[i]);
    }
  }

  lemma HandedDoWrite(s: State, k: Then)
    requires Handed(s.ledger.records, s.past.wire) && (!s.life.closing ==> Linked(s))
    ensures Handed(DoWrite(s, k).ledger.records, DoWrite(s, k).past.wire)
  {
    hide Bytes, GatherFrom, Linked, Apply, Extends, CanBegin, Ids, CrossedHandoff;
    var g := GatherCount(s.lanes.tx);
    if !Closed(s) && s.lanes.tx != [] && !s.lanes.writing {
      var batch, t := s.lanes.tx[..g], DoWrite(s, k);
      BatchCanBegin(s, g);
      BeginActivates(s.ledger, batch);
      ApplyExtends(s.ledger, BeginBatch(Ids(batch)));
      HandedFollows(s.ledger.records, t.ledger.records, s.past.wire);
    }
  }

  lemma HandedStep(s: State, e: Event)
    requires Handed(s.ledger.records, s.past.wire) && (!s.life.closing ==> Linked(s))
    ensures Handed(Step(s, e).ledger.records, Step(s, e).past.wire)
  {
    hide Apply, Verdict, NeedsMutex, Linked, Handed, DoWrite, Bytes, Sizes, DecideEnqueue, Extends;
    LedgerFollows(s, e);
    HandedFollows(s.ledger.records, Step(s, e).ledger.records, s.past.wire);
    if e.Strand? && !(s.admitting.Some? && NeedsMutex(s, e.throws)) && (s.pc.Kicking? || s.pc.Resuming?) {
      if s.pc.Kicking? {
        HandedDoWrite(s, s.pc.k);
      } else {
        HandedDoWrite(s, Done);
        var t := s.(lanes := s.lanes.(writing := false));
        if !s.life.closing { LinkedIdling(s, t); }
        HandedDoWrite(t, Done);
      }
    }
  }

  /**
   Every run: requests are numbered in acceptance order; an open session's live
   requests are exactly its batch and backlog; a closing one has none and has
   ended its waits; whatever was handed to I/O never counts as discarded before
   the write; and the published counters conserve.
   */
  lemma {:induction false} LedgerMatchesSession(threshold: nat, events: seq<Event>)
    ensures var s := Reach(threshold, events);
            && Numbered(s) && Settled(s)
            && (!s.life.closing ==> Linked(s))
            && Handed(s.ledger.records, s.past.wire)
            && Sane(s.ledger.records)
    decreases |events|
  {
    hide Reserved, Exact, Moving, Step, Numbered, Settled, Linked, Handed, Sane, Extends;
    if events == [] {
      InitialMatches(threshold);
    } else {
      var before := events[..|events| - 1];
      var s, e := Reach(threshold, before), events[|events| - 1];
      LedgerMatchesSession(threshold, before);
      BytesStayExact(threshold, before);
      NumberedStep(s, e);
      SettledStep(s, e);
      HandedStep(s, e);
      LedgerFollows(s, e);
      ClosingIsForever(s, e);
      if !Step(s, e).life.closing {
        LinkedEverywhere(s, e);
      }
    }
  }

  lemma LinkedEverywhere(s: State, e: Event)
    requires Reserved(s) && Exact(s) && !s.life.closing && Numbered(s) && Linked(s) && !Step(s, e).life.closing
    ensures Linked(Step(s, e))
  {
    hide Reserved, Exact, Step, Numbered, LinkedAt;
    forall id ensures LinkedAt(Step(s, e), id) {
      LinkedStep(s, e, id);
    }
  }

  lemma InitialMatches(threshold: nat)
    ensures var s := Initial(threshold);
            Numbered(s) && Settled(s) && Linked(s) && Handed(s.ledger.records, s.past.wire) && Sane(s.ledger.records)
  {
  }

  /** Discarded before the write means it: the payload was never in a batch given to the socket. */
  lemma DiscardedWasNeverHandedOver(threshold: nat, events: seq<Event>, id: nat, cause: Cause)
    requires var records := Reach(threshold, events).ledger.records;
             1 <= id <= |records| && records[id - 1].status == Terminated(cause, false)
    ensures var wire := Reach(threshold, events).past.wire;
            forall i | 0 <= i < |wire| :: wire[i].id != id
  {
    hide Reach, Numbered, Settled, Linked, Sane;
    LedgerMatchesSession(threshold, events);
  }

  /** What stats() reports of a session conserves in every reachable state. */
  lemma SessionStatsConserve(threshold: nat, events: seq<Event>)
    ensures var h := Reach(threshold, events).ledger;
            var a := Snapshot(h.records, h.epoch, None);
            Conserved(a) && ConfirmedWithinWire(a)
  {
    LedgerMatchesSession(threshold, events);
    var h := Reach(threshold, events).ledger;
    ConservationLaw(h.records, h.epoch, None);
  }
}
