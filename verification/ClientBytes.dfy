/**
 The client's byte reservations: over every run, restarts included, its counters stay
 within the hard limit, the reservations of the current run are exact, and a reserved
 write is never turned away on the strand.
 */
module ClientBytes {
  import opened Options
  import opened SendHistory
  import opened Octets
  import opened Queues
  import opened ClientModel
  import opened ClientPinning

  /** What a posted handler has reserved in the given run. */
  function Reserves(h: Handler, run: nat): nat {
    if h.RouteWrite? && h.a.run == run then |h.a.item.data| else 0
  }

  function RunBytes(posted: seq<Handler>, run: nat): nat {
    if posted == [] then 0 else Reserves(posted[0], run) + RunBytes(posted[1..], run)
  }

  lemma {:induction false} RunBytesSnoc(posted: seq<Handler>, h: Handler, run: nat)
    ensures RunBytes(posted + [h], run) == RunBytes(posted, run) + Reserves(h, run)
  {
    if posted == [] {
      assert [h][1..] == [] && posted + [h] == [h];
    } else {
      assert (posted + [h])[1..] == posted[1..] + [h];
      RunBytesSnoc(posted[1..], h, run);
    }
  }

  lemma RunBytesPop(posted: seq<Handler>, run: nat)
    requires posted != []
    ensures RunBytes(posted, run) == Reserves(posted[0], run) + RunBytes(posted[1..], run)
  {
  }

  lemma {:induction false} NoRunBytes(posted: seq<Handler>, run: nat)
    requires forall i | 0 <= i < |posted| && Routes(posted[i]) :: posted[i].a.run != run
    ensures RunBytes(posted, run) == 0
  {
    if posted != [] {
      NoRunBytes(posted[1..], run);
    }
  }

  /** What the write in the strand's hands, or a caller's, has reserved. */
  function InHand(s: State): nat {
    (if s.pc.Routing? then |s.pc.item.data| else 0)
    + (if s.admitting.Some? && s.admitting.value.item.kind == Plain then |s.admitting.value.item.data| else 0)
  }

  /** Bytes that plain admissions of a run left reserved when they threw. */
  function LeakedInRun(failed: seq<Admission>, run: nat): nat {
    if failed == [] then 0
    else
      var a := failed[|failed| - 1];
      LeakedInRun(failed[..|failed| - 1], run) + if a.item.kind == Plain && a.run == run then |a.item.data| else 0
  }

  lemma LeakedSnoc(failed: seq<Admission>, a: Admission, run: nat)
    ensures LeakedInRun(failed + [a], run)
            == LeakedInRun(failed, run) + if a.item.kind == Plain && a.run == run then |a.item.data| else 0
  {
    assert (failed + [a])[..|failed|] == failed;
  }

  lemma {:induction false} NoneLeaked(failed: seq<Admission>, run: nat)
    requires forall i | 0 <= i < |failed| :: failed[i].run != run
    ensures LeakedInRun(failed, run) == 0
  {
    if failed != [] {
      NoneLeaked(failed[..|failed| - 1], run);
    }
  }

  /** The reservations of the current run are exact, and everything together is within the limit. */
  predicate Within(s: State) {
    && s.bytes.queue + s.bytes.pending + s.bytes.inflight <= s.bounds.limit
    && s.bytes.inflight
       == RunBytes(s.posted, s.seqs.current) + InHand(s) + LeakedInRun(s.past.failed, s.seqs.current)
    && s.bytes.pending == Bytes(s.lanes.pending)
    && (forall i | 0 <= i < |s.past.failed| :: s.past.failed[i].run <= s.seqs.current)
    && (forall i | 0 <= i < |s.posted| && Routes(s.posted[i]) :: 0 < s.posted[i].a.run <= s.seqs.current)
    && (s.admitting.Some? ==> s.admitting.value.run == s.seqs.current)
    && (s.admitting.Some? || s.pc.Routing? ==> s.seqs.current > 0)
  }

  lemma WithinStep(s: State, e: Event)
    requires Runs(s) && Within(s)
    ensures Within(Step(s, e)) && Step(s, e).bounds == s.bounds
  {
    hide Runs, Apply, Accepts, StrandStep, RequestStop, RequestStart, OnWrite, RunBytes, Reserve, LeakedInRun, Bytes,
      Post, Abandon;
    match e
    case Strand(choice) => WithinStrand(s, choice);
    case Write(data, kind, expected) => WithinReserve(s, data, kind, expected);
    case Admitted => if s.admitting.Some? { WithinPost(s); }
    case AdmissionThrows(entered) => if s.admitting.Some? { WithinAbandon(s, entered); }
    case Stop => WithinStop(s);
    case Start => WithinStart(s);
    case WriteCompleted(i, n, outcome) => if i < |s.flights| && s.pc.Ready? { WithinOnWrite(s, i, n, outcome); }
    case _ =>
  }

  lemma WithinReserve(s: State, data: seq<Byte>, kind: Kind, expected: Option<nat>)
    requires Within(s)
    ensures s.admitting.None? && Accepts(s, data, kind, expected) ==> Within(Reserve(s, data, kind))
    ensures Reserve(s, data, kind).bounds == s.bounds
  {
    hide RunBytes;
  }

  lemma WithinPost(s: State)
    requires Within(s) && s.admitting.Some?
    ensures Within(Post(s)) && Post(s).bounds == s.bounds
  {
    hide Apply, RunBytes, LeakedInRun, Bytes;
    var t := Post(s);
    RunBytesSnoc(s.posted, t.posted[|s.posted|], s.seqs.current);
    assert forall i | 0 <= i < |s.posted| :: t.posted[i] == s.posted[i];
  }

  lemma WithinAbandon(s: State, entered: bool)
    requires Within(s) && s.admitting.Some?
    ensures Within(Abandon(s, entered)) && Abandon(s, entered).bounds == s.bounds
  {
    hide Apply, RunBytes, LeakedInRun, Bytes;
    LeakedSnoc(s.past.failed, s.admitting.value, s.seqs.current);
  }

  lemma WithinStop(s: State)
    requires Within(s)
    ensures s.admitting.None? ==> Within(RequestStop(s)) && RequestStop(s).bounds == s.bounds
  {
    hide Apply, RunBytes, LeakedInRun, Bytes, Transition;
    NoBytes();
    var t := RequestStop(s);
    RunBytesSnoc(s.posted, StopCleanup, s.seqs.current);
    assert forall i | 0 <= i < |s.posted| :: t.posted[i] == s.posted[i];
  }

  lemma WithinStart(s: State)
    requires Runs(s) && Within(s)
    ensures s.admitting.None? ==> Within(RequestStart(s)) && RequestStart(s).bounds == s.bounds
  {
    hide Apply, RunBytes, StartRunsWithin;
    var t := RequestStart(s);
    if s.admitting.None? && t != s {
      assert forall i | 0 <= i < |s.posted| :: t.posted[i] == s.posted[i];
      NoRunBytes(t.posted, t.seqs.current);
      NoneLeaked(t.past.failed, t.seqs.current);
    }
  }

  lemma WithinOnWrite(s: State, i: nat, n: nat, outcome: Outcome)
    requires Within(s) && s.pc.Ready? && i < |s.flights|
    ensures Within(OnWrite(s, i, n, outcome)) && OnWrite(s, i, n, outcome).bounds == s.bounds
  {
    hide Apply, RunBytes, Sizes;
  }

  lemma WithinStrand(s: State, choice: bool)
    requires Within(s)
    ensures Within(StrandStep(s, choice)) && StrandStep(s, choice).bounds == s.bounds
  {
    hide Within, Apply, RunHandler, StepRouting, RunBytes;
    match s.pc
    case Ready => WithinHandler(s);
    case Routing(_) => WithinRouting(s);
    case Announcing(_) => WithinAnnouncing(s);
    case _ => WithinRest(s, choice);
  }

  lemma WithinHandler(s: State)
    requires Within(s) && s.pc.Ready?
    ensures Within(RunHandler(s)) && RunHandler(s).bounds == s.bounds
  {
    hide Within;
    if s.posted != [] {
      if s.posted[0].RouteWrite? {
        WithinRouteWrite(s);
      } else {
        WithinOtherHandler(s);
      }
    }
  }

  lemma WithinRouteWrite(s: State)
    requires Within(s) && s.pc.Ready? && s.posted != [] && s.posted[0].RouteWrite?
    ensures Within(RunHandler(s)) && RunHandler(s).bounds == s.bounds
  {
    hide RunBytes, LeakedInRun, Bytes, RunTry, StartCleanup;
    RunBytesPop(s.posted, s.seqs.current);
    assert forall i | 0 <= i < |s.posted| - 1 :: s.posted[1..][i] == s.posted[i + 1];
  }

  lemma WithinOtherHandler(s: State)
    requires Within(s) && s.pc.Ready? && s.posted != [] && !s.posted[0].RouteWrite?
    ensures Within(RunHandler(s)) && RunHandler(s).bounds == s.bounds
  {
    hide RunBytes, LeakedInRun, Bytes;
    NoBytes();
    RunBytesPop(s.posted, s.seqs.current);
    assert forall i | 0 <= i < |s.posted| - 1 :: s.posted[1..][i] == s.posted[i + 1];
  }

  lemma WithinRouting(s: State)
    requires Within(s) && s.pc.Routing?
    ensures Within(StepRouting(s)) && StepRouting(s).bounds == s.bounds
  {
    hide Apply, RunBytes, LeakedInRun;
    BytesSnoc(s.lanes.pending, s.pc.item);
  }

  lemma WithinAnnouncing(s: State)
    requires Within(s) && s.pc.Announcing?
    ensures Within(StepAnnouncing(s)) && StepAnnouncing(s).bounds == s.bounds
  {
    hide RunBytes;
    var t := StepAnnouncing(s);
    RunBytesSnoc(s.posted, KickWrite(s.pc.run, s.seqs.conn), s.seqs.current);
    assert forall i | 0 <= i < |s.posted| :: t.posted[i] == s.posted[i];
  }

  /** Nothing is reserved or routed, and the queues hold no more than before. */
  predicate NoMore(s: State, t: State) {
    && t.bounds == s.bounds && t.posted == s.posted && t.seqs.current == s.seqs.current && t.admitting == s.admitting
    && !s.pc.Routing? && !t.pc.Routing? && t.bytes.inflight == s.bytes.inflight && t.past.failed == s.past.failed
    && ((t.bytes.pending == s.bytes.pending && t.lanes.pending == s.lanes.pending)
        || (t.bytes.pending == 0 && t.lanes.pending == []))
    && t.bytes.queue + t.bytes.pending <= s.bytes.queue + s.bytes.pending
  }

  lemma NoBytes()
    ensures Bytes([]) == 0
  {
  }

  lemma WithinFrame(s: State, t: State)
    requires Within(s) && NoMore(s, t)
    ensures Within(t)
  {
    hide RunBytes, LeakedInRun, Bytes;
    NoBytes();
  }

  lemma RestReservesNothing(s: State, choice: bool)
    requires !s.pc.Ready? && !s.pc.Routing? && !s.pc.Announcing?
    ensures NoMore(s, StrandStep(s, choice))
  {
    hide NoMore, StrandStep;
    if NeedsMutex(s.pc) || Losing(s.pc) {
      LossReservesNothing(s, choice);
    } else {
      WriteReservesNothing(s, choice);
    }
  }

  lemma WriteReservesNothing(s: State, choice: bool)
    requires !s.pc.Ready? && !s.pc.Routing? && !s.pc.Announcing? && !NeedsMutex(s.pc) && !Losing(s.pc)
    ensures NoMore(s, StrandStep(s, choice))
  {
    hide Apply, Bytes, GatherCount, CanBegin, Ids, Handoffs, RunHandler, StepRouting, StepAnnouncing, Transition,
      Disconnect;
  }

  lemma LossReservesNothing(s: State, choice: bool)
    requires NeedsMutex(s.pc) || Losing(s.pc)
    ensures NoMore(s, StrandStep(s, choice))
  {
    hide Apply, Transition;
  }

  lemma WithinRest(s: State, choice: bool)
    requires Within(s) && !s.pc.Ready? && !s.pc.Routing? && !s.pc.Announcing?
    ensures Within(StrandStep(s, choice)) && StrandStep(s, choice).bounds == s.bounds
  {
    hide Within, StrandStep;
    RestReservesNothing(s, choice);
    WithinFrame(s, StrandStep(s, choice));
  }

  /** A write that was reserved is never rejected when it is routed. */
  lemma NeverRejected(s: State)
    requires Within(s) && s.pc.Routing?
    ensures !DecideEnqueue(s.bounds, s.bytes.queue, s.bytes.pending, s.bytes.active, |s.pc.item.data|).Rejected?
  {
    hide RunBytes;
  }

  /**
   Every run of the client, over any number of connections and restarts: the three
   counters together never exceed the hard limit; the in-flight counter is exactly the
   writes of the current run not yet routed plus what throwing admissions left; the
   pending counter is exactly the pending queue; and no write that was accepted is
   rejected for queue pressure when the strand routes it.
   */
  lemma {:induction false} ClientStaysWithinLimit(threshold: nat, events: seq<Event>)
    ensures var s := Reach(threshold, events);
            && s.bounds == ClientBounds(threshold) && Within(s)
            && s.bytes.queue + s.bytes.pending + s.bytes.inflight <= s.bounds.limit
            && s.bytes.inflight
               == RunBytes(s.posted, s.seqs.current) + InHand(s) + LeakedInRun(s.past.failed, s.seqs.current)
            && s.bytes.pending == Bytes(s.lanes.pending)
            && (s.pc.Routing? ==>
                  !DecideEnqueue(s.bounds, s.bytes.queue, s.bytes.pending, s.bytes.active, |s.pc.item.data|).Rejected?)
    decreases |events|
  {
    hide Step, RunBytes, Runs, LiveIsCurrent, Sourced, WirePinned, Sane, DecideEnqueue;
    if events == [] {
      FreshIsWithin(threshold);
    } else {
      var before := events[..|events| - 1];
      ClientStaysWithinLimit(threshold, before);
      ConnectionPinning(threshold, before);
      WithinStep(Reach(threshold, before), events[|events| - 1]);
    }
    if Reach(threshold, events).pc.Routing? { NeverRejected(Reach(threshold, events)); }
  }

  lemma FreshIsWithin(threshold: nat)
    ensures Within(Initial(threshold))
  {
  }
}
