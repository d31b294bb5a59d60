/**
 Runs of the client in which it falls short.

 In two of them a second attempt meets a connection that is up: a
 connect attempt times out, but its success was already queued and brings the
 connection up late; the retry then starts a second attempt while the first
 connection takes a write. If the second attempt fails, the write stays queued
 under a connection number that has moved on. If it succeeds, the write is handed
 to a socket it was not admitted on, under a number that has not moved.

 In the third a write completes as aborted on a connection that stays up: the write
 behind it is left in tx_ with nothing to send it. In the fourth a client that failed is
 stopped and started again before the stop's cleanup ran; the cleanup comes late, and the
 next stop has none.
 */
module ClientOvertaken {
  import opened Options
  import opened SendHistory
  import opened Octets
  import opened Queues
  import opened ClientModel
  import opened ClientPinning
  import opened ClientSockets
  import ClientFlow
  import ClientReconnect

  predicate Entered(records: seq<Record>, n: nat) {
    |records| == n && forall i | 0 <= i < n :: records[i].status.Waiting?
  }

  /** Everything of a state that its next steps read, before anything is handed over. */
  predicate Looks(
    s: State, admitted: seq<Admission>, seqs: Seqs, life: Life, net: Net, c: Counters, q: Lanes,
    posted: seq<Handler>, pc: Pc)
  {
    && s.past == Past(admitted, admitted, [], []) && Entered(s.ledger.records, |admitted|)
    && s.flights == [] && s.past.failed == []
    && s.bounds == Bounds(1, 1, DEFAULT_THRESHOLD) && s.seqs == seqs && s.life == life && s.net == net
    && s.bytes == c && s.lanes == q && s.posted == posted && s.admitting.None? && s.pc == pc
  }

  /** The first run and connection number, with the given number of connects so far. */
  function First(sockets: nat): Seqs {
    Seqs(1, 1, 0, 0, 1, sockets)
  }

  function Dialling(): Life {
    Life(false, false, false, Connecting, false)
  }

  function Up(): Life {
    Life(true, false, false, Connected, false)
  }

  function NoBytes(): Counters {
    Counters(0, 0, 0, false)
  }

  function NoLanes(): Lanes {
    Lanes([], [], None, false)
  }

  /** Before the write: nothing admitted, nothing queued. */
  predicate Bare(s: State, seqs: Seqs, life: Life, net: Net, posted: seq<Handler>, pc: Pc) {
    Looks(s, [], seqs, life, net, NoBytes(), NoLanes(), posted, pc)
  }

  /** The one write, admitted on the first socket. */
  function Sole(x: Item): Admission {
    Admission(x, 1, 0, 1)
  }

  /** From its admission on: the second attempt is under way or has won. */
  predicate Busy(s: State, x: Item, won: bool, c: Counters, q: Lanes, posted: seq<Handler>, pc: Pc) {
    if won then Looks(s, [Sole(x)], First(2), Up(), Net([], [], false), c, q, posted, pc)
    else Looks(s, [Sole(x)], First(1), Up(), Net([1], [], false), c, q, posted, pc)
  }

  /** What a second attempt that won has posted behind the write. */
  function Kick(won: bool): seq<Handler> {
    if won then [KickWrite(1, 0)] else []
  }

  // ------------------------------------------------------------------
  // The first attempt times out
  // ------------------------------------------------------------------

  lemma Begin(s: State)
    requires s == Step(Initial(1), Start)
    ensures Bare(Step(s, Strand(true)), Seqs(1, 1, 0, 0, 0, 0), Life(false, false, false, Unstarted, false),
                 Net([], [], false), [], Starting(1))
  {
    hide Apply;
    assert [] + [StartRun(1)] == [StartRun(1)] && [StartRun(1)][1..] == [];
  }

  lemma Attempt(s: State)
    requires Bare(s, Seqs(1, 1, 0, 0, 0, 0), Life(false, false, false, Unstarted, false), Net([], [], false), [],
                  Starting(1))
    ensures Bare(Step(Step(s, Strand(true)), Strand(true)), First(0), Dialling(), Net([1], [], false), [], Ready)
  {
    hide Apply;
    assert [] + [1] == [1];
    assert Step(s, Strand(true)) == s.(pc := Resetting(1));
  }

  lemma TimeOut(s: State)
    requires Bare(s, First(0), Dialling(), Net([1], [], false), [], Ready)
    ensures Bare(Step(Step(s, ConnectionClosed(1)), Strand(true)), First(0), Dialling(), Net([1], [], false), [],
                 Discarding(Close, Done))
  {
    hide Apply;
    assert Step(s, ConnectionClosed(1)) == s.(pc := Closing(Close, Done));
  }

  lemma Leave(s: State)
    requires Bare(s, First(0), Dialling(), Net([1], [], false), [], Discarding(Close, Done))
    ensures Bare(Step(Step(s, Strand(true)), Strand(true)), First(0), Dialling(), Net([1], [], false), [],
                 Retrying(Done))
  {
    hide Apply;
    assert Bare(Step(s, Strand(true)), First(0), Dialling(), Net([1], [], false), [], Leaving(Close, Done));
  }

  lemma ScheduleRetry(s: State)
    requires Bare(s, First(0), Dialling(), Net([1], [], false), [], Retrying(Done))
    ensures Bare(Step(Step(s, Strand(true)), Strand(true)), First(0), Dialling(), Net([1], [1], true), [], Ready)
  {
    hide Apply;
    assert [] + [1] == [1];
    assert Bare(Step(s, Strand(true)), First(0), Dialling(), Net([1], [1], true), [], Resuming(Done));
  }

  // ------------------------------------------------------------------
  // and succeeds late, while the retry starts the second one
  // ------------------------------------------------------------------

  lemma ComeUp(s: State)
    requires Bare(s, First(0), Dialling(), Net([1], [1], true), [], Ready)
    ensures Bare(Step(Step(s, ConnectSucceeded(0)), Strand(true)), First(1), Up(), Net([], [1], true),
                 [KickWrite(1, 0)], Ready)
  {
    hide Apply;
    assert Without([1], 0) == [] && [] + [KickWrite(1, 0)] == [KickWrite(1, 0)];
    assert Bare(Step(s, ConnectSucceeded(0)), First(1), Life(true, false, false, Connecting, false),
                Net([], [1], true), [], Announcing(1));
  }

  lemma RetryAnyway(s: State)
    requires Bare(s, First(1), Up(), Net([], [1], true), [KickWrite(1, 0)], Ready)
    ensures Bare(Step(Step(s, RetryEnded(0, false)), Strand(true)), First(1), Up(), Net([1], [], false), [],
                 Writing(Done))
  {
    hide Apply;
    assert Without([1], 0) == [] && [] + [1] == [1] && [KickWrite(1, 0)][1..] == [];
    assert Bare(Step(s, RetryEnded(0, false)), First(1), Up(), Net([1], [], false), [KickWrite(1, 0)], Ready);
  }

  lemma NothingToWrite(s: State)
    requires Bare(s, First(1), Up(), Net([1], [], false), [], Writing(Done))
    ensures Bare(Step(Step(s, Strand(true)), Strand(true)), First(1), Up(), Net([1], [], false), [], Ready)
  {
    hide Apply, GatherCount;
    assert Bare(Step(s, Strand(true)), First(1), Up(), Net([1], [], false), [], Resuming(Done));
  }

  // ------------------------------------------------------------------
  // A write is accepted on the late connection
  // ------------------------------------------------------------------

  lemma AcceptOne(s: State, x: Item)
    requires Bare(s, First(1), Up(), Net([1], [], false), [], Ready) && x == Item(1, [7], Plain)
    ensures Busy(Step(Step(s, Write([7], Plain, None)), Admitted), x, false, Counters(0, 0, 1, false), NoLanes(),
                 [RouteWrite(Sole(x))], Ready)
  {
    var a := Sole(x);
    assert [] + [RouteWrite(a)] == [RouteWrite(a)] && [] + [a] == [a];
    assert Step(s, Write([7], Plain, None)) == s.(bytes := Counters(0, 0, 1, false), admitting := Some(a));
  }

  /** The second attempt succeeds too, before the write is routed. */
  lemma WinSecond(s: State, x: Item)
    requires Busy(s, x, false, Counters(0, 0, 1, false), NoLanes(), [RouteWrite(Sole(x))], Ready)
    ensures Replaces(s, ConnectSucceeded(0))
    ensures Busy(Step(Step(s, ConnectSucceeded(0)), Strand(true)), x, true, Counters(0, 0, 1, false), NoLanes(),
                 [RouteWrite(Sole(x))] + Kick(true), Ready)
  {
    hide Apply;
    assert Live(s.ledger.records[0]);
    assert Without([1], 0) == [];
    assert Step(s, ConnectSucceeded(0)) == s.(net := Net([], [], false), seqs := First(2), pc := Announcing(1));
  }

  lemma RouteOne(s: State, x: Item, won: bool)
    requires |x.data| == 1
    requires Busy(s, x, won, Counters(0, 0, 1, false), NoLanes(), [RouteWrite(Sole(x))] + Kick(won), Ready)
    ensures Busy(Step(Step(s, Strand(true)), Strand(true)), x, won, Counters(1, 0, 0, false),
                 Lanes([x], [], None, false), Kick(won), Reporting(0, AfterRoute))
  {
    hide Apply;
    assert ([RouteWrite(Sole(x))] + Kick(won))[1..] == Kick(won) && [] + [x] == [x];
    assert Busy(Step(s, Strand(true)), x, won, Counters(0, 0, 1, false), NoLanes(), Kick(won), Routing(x));
  }

  lemma QueueOne(s: State, x: Item, won: bool)
    requires Busy(s, x, won, Counters(1, 0, 0, false), Lanes([x], [], None, false), Kick(won), Reporting(0, AfterRoute))
    ensures Busy(Step(Step(s, Strand(true)), Strand(true)), x, won, Counters(1, 0, 0, true),
                 Lanes([x], [], None, false), Kick(won), Writing(Done))
  {
    hide Apply;
    assert Busy(Step(s, Strand(true)), x, won, Counters(1, 0, 0, true), Lanes([x], [], None, false), Kick(won),
                Resuming(AfterRoute));
  }

  lemma TakeOne(s: State, x: Item, won: bool)
    requires Busy(s, x, won, Counters(1, 0, 0, true), Lanes([x], [], None, false), Kick(won), Writing(Done))
    ensures Busy(Step(s, Strand(true)), x, won, Counters(1, 0, 0, true), Lanes([], [], None, true), Kick(won),
                 Beginning([x], Done))
  {
    hide Apply;
    assert GatherCount([x]) == 1 && [x][1..] == [] && [x][..1] == [x];
  }

  /** The write is in the active batch, handed to the socket that is up. */
  predicate Handed(s: State, x: Item, won: bool) {
    && s.past == Past([Sole(x)], [Sole(x)], [], [Handoff(x, 0, if won then 2 else 1)]) && s.lanes.active == Some([x])
    && s.seqs == First(if won then 2 else 1) && s.admitting.None? && s.life == Up()
    && s.net == Net(if won then [] else [1], [], false)
  }

  lemma BeginOne(s: State, x: Item, won: bool)
    requires x.id == 1
    requires Busy(s, x, won, Counters(1, 0, 0, true), Lanes([], [], None, true), Kick(won), Beginning([x], Done))
    ensures var t := Step(s, Strand(false)); Handed(t, x, won) && t.pc == Initiating([x], Done)
  {
    hide Apply;
    assert Ids([x]) == [1] && CanBegin(s.ledger.records, [1]);
    assert Handoffs([x], s.seqs) == [Handoff(x, 0, s.seqs.socket)];
  }

  lemma InitiateOne(s: State, x: Item)
    requires Handed(s, x, false) && s.pc == Initiating([x], Done)
    ensures var t := Step(Step(s, Strand(false)), Strand(false)); Handed(t, x, false) && t.pc.Ready?
  {
    hide Bytes;
    assert Handed(Step(s, Strand(false)), x, false) && Step(s, Strand(false)).pc == Resuming(Done);
  }

  // ------------------------------------------------------------------
  // The second attempt fails
  // ------------------------------------------------------------------

  lemma FailSecond(s: State, x: Item)
    requires Handed(s, x, false) && s.pc.Ready?
    ensures var t := Step(s, ConnectFailed(0, false));
            Overtakes(t, Strand(true)) && t.pc == Retrying(Done) && Later(t, x, 0)
  {
    assert Without([1], 0) == [];
    assert Holds(Step(s, ConnectFailed(0, false)), x);
  }

  /** The write is still in the active batch under the given connection number. */
  predicate Later(s: State, x: Item, conn: nat) {
    s.past.admitted == [Sole(x)] && s.lanes.active == Some([x]) && s.seqs.conn == conn
  }

  lemma AfterOvertaking(s: State, x: Item)
    requires s.pc == Retrying(Done) && s.admitting.None? && s.life.connected && Later(s, x, 0)
    ensures Later(Step(s, Strand(true)), x, 1)
  {
    hide Apply;
  }

  lemma Next(events: seq<Event>, e: Event) returns (more: seq<Event>)
    ensures Reach(1, more) == Step(Reach(1, events), e) && more == events + [e]
  {
    hide Step;
    more := events + [e];
    assert more[..|more| - 1] == events;
  }

  lemma Twice(events: seq<Event>, e: Event, f: Event) returns (more: seq<Event>)
    ensures Reach(1, more) == Step(Step(Reach(1, events), e), f) && more == events + [e, f]
  {
    hide Step, Reach;
    more := Next(events, e);
    more := Next(more, f);
  }

  /** The late connection is up, with the second attempt under way. */
  lemma LateConnection() returns (events: seq<Event>)
    ensures Bare(Reach(1, events), First(1), Up(), Net([1], [], false), [], Ready)
  {
    hide Bare, Step;
    Begin(Step(Reach(1, []), Start));
    events := Twice([], Start, Strand(true));
    hide Reach;
    Attempt(Reach(1, events));
    events := Twice(events, Strand(true), Strand(true));
    TimeOut(Reach(1, events));
    events := Twice(events, ConnectionClosed(1), Strand(true));
    Leave(Reach(1, events));
    events := Twice(events, Strand(true), Strand(true));
    ScheduleRetry(Reach(1, events));
    events := Twice(events, Strand(true), Strand(true));
    ComeUp(Reach(1, events));
    events := Twice(events, ConnectSucceeded(0), Strand(true));
    RetryAnyway(Reach(1, events));
    events := Twice(events, RetryEnded(0, false), Strand(true));
    NothingToWrite(Reach(1, events));
    events := Twice(events, Strand(true), Strand(true));
  }

  /** A write is accepted on it, and the second attempt may win before the write is routed. */
  lemma WriteAccepted(x: Item, won: bool) returns (events: seq<Event>)
    requires x == Item(1, [7], Plain)
    ensures Busy(Reach(1, events), x, won, Counters(0, 0, 1, false), NoLanes(), [RouteWrite(Sole(x))] + Kick(won),
                 Ready)
    ensures won ==> !NeverReplaced(1, events)
  {
    hide Bare, Busy, Step, Reach, Replaces;
    events := LateConnection();
    AcceptOne(Reach(1, events), x);
    events := Twice(events, Write([7], Plain, None), Admitted);
    assert [RouteWrite(Sole(x))] + Kick(false) == [RouteWrite(Sole(x))];
    if won {
      var k := |events|;
      WinSecond(Reach(1, events), x);
      var before := events;
      events := Twice(events, ConnectSucceeded(0), Strand(true));
      assert events[..k] == before && events[k] == ConnectSucceeded(0);
    }
  }

  /** It is taken from tx. */
  lemma WriteTaken(x: Item, won: bool) returns (events: seq<Event>)
    requires x == Item(1, [7], Plain)
    ensures Busy(Reach(1, events), x, won, Counters(1, 0, 0, true), Lanes([], [], None, true), Kick(won),
                 Beginning([x], Done))
    ensures won ==> !NeverReplaced(1, events)
  {
    hide Bare, Busy, Step, Reach, NeverReplaced;
    events := WriteAccepted(x, won);
    ghost var run := events;
    RouteOne(Reach(1, events), x, won);
    events := Twice(events, Strand(true), Strand(true));
    QueueOne(Reach(1, events), x, won);
    events := Twice(events, Strand(true), Strand(true));
    TakeOne(Reach(1, events), x, won);
    events := Next(events, Strand(true));
    if won { StaysReplaced(1, run, events); }
  }

  /** It is handed to the socket that is up, whichever that is. */
  lemma WriteHanded(x: Item, won: bool) returns (events: seq<Event>)
    requires x == Item(1, [7], Plain)
    ensures Handed(Reach(1, events), x, won) && Reach(1, events).pc == Initiating([x], Done)
    ensures won ==> !NeverReplaced(1, events)
  {
    hide Busy, Handed, Step, Reach, NeverReplaced;
    events := WriteTaken(x, won);
    ghost var run := events;
    BeginOne(Reach(1, events), x, won);
    events := Next(events, Strand(false));
    if won { StaysReplaced(1, run, events); }
  }

  lemma StaysReplaced(threshold: nat, before: seq<Event>, events: seq<Event>)
    requires before <= events && !NeverReplaced(threshold, before)
    ensures !NeverReplaced(threshold, events)
  {
    hide Reach, Replaces;
    var k :| 0 <= k < |before| && Replaces(Reach(threshold, before[..k]), before[k]);
    assert before[..k] == events[..k] && before[k] == events[k];
  }

  /**
   The second attempt fails: the next strand step overtakes the connection, and
   the item stays queued under a connection number that has moved on.
   */
  lemma Overtaken() returns (events: seq<Event>, x: Item)
    ensures Overtakes(Reach(1, events), Strand(true)) && !NeverOvertaken(1, events + [Strand(true)])
    ensures var s := Reach(1, events + [Strand(true)]);
            Holds(s, x) && Known(s.past.admitted, x) && s.past.admitted[x.id - 1].conn != s.seqs.conn
  {
    hide Step, Reach;
    x := Item(1, [7], Plain);
    events := WriteHanded(x, false);
    InitiateOne(Reach(1, events), x);
    events := Twice(events, Strand(false), Strand(false));
    FailSecond(Reach(1, events), x);
    events := Next(events, ConnectFailed(0, false));
    assert Overtakes(Reach(1, events), Strand(true));
    AfterOvertaking(Reach(1, events), x);
    var more := Next(events, Strand(true));
    assert more[..|events|] == events && more[|events|] == Strand(true);
  }

  /**
   The second attempt succeeds: the write is handed to its socket, though it was
   admitted on the first one. Both go by one connection number.
   */
  lemma Replaced() returns (events: seq<Event>, x: Item)
    ensures !NeverReplaced(1, events)
    ensures var p := Reach(1, events).past;
            && Known(p.admitted, x)
            && exists h :: h in p.wire && h.item == x
                           && p.admitted[x.id - 1].socket != h.socket && p.admitted[x.id - 1].conn == h.conn
  {
    hide Step, Reach, NeverReplaced;
    x := Item(1, [7], Plain);
    events := WriteHanded(x, true);
    assert Handoff(x, 0, 2) in Reach(1, events).past.wire;
  }

  // ------------------------------------------------------------------
  // A write is aborted
  // ------------------------------------------------------------------

  /** The first write is on the wire. */
  predicate Flying(s: State, x: Item, c: Counters, pending: seq<Item>, posted: seq<Handler>, pc: Pc) {
    && s.lanes == Lanes([], pending, Some([x]), true) && s.flights == [Flight([x], 1, 1, 0)]
    && Besides(s, c, posted, pc)
  }

  /** What does not change from here on, and the rest of the state but the ledger. */
  predicate Besides(s: State, c: Counters, posted: seq<Handler>, pc: Pc) {
    && s.bounds == Bounds(1, 1, DEFAULT_THRESHOLD) && s.seqs == First(1) && s.life == Up() && s.past.failed == []
    && s.bytes == c && s.posted == posted && s.admitting.None? && s.pc == pc
  }

  lemma TakeOff(s: State, x: Item)
    requires x.id == 1 && |x.data| == 1
    requires Busy(s, x, false, Counters(1, 0, 0, true), Lanes([], [], None, true), [], Beginning([x], Done))
    ensures Flying(Step(Step(Step(s, Strand(false)), Strand(false)), Strand(false)), x, Counters(1, 0, 0, true), [],
                   [], Ready)
  {
    hide Apply, Bytes;
    assert Ids([x]) == [1] && CanBegin(s.ledger.records, [1]);
    BytesSnoc([], x);
    assert [] + [x] == [x] && Bytes([x]) == 1 by { NoBytesYet(); }
    var t := Step(s, Strand(false));
    assert t.lanes == Lanes([], [], Some([x]), true) && t.flights == []
           && Besides(t, Counters(1, 0, 0, true), [], Initiating([x], Done));
    assert Flying(Step(t, Strand(false)), x, Counters(1, 0, 0, true), [], [], Resuming(Done));
  }

  lemma NoBytesYet()
    ensures Bytes([]) == 0
  {
  }

  lemma AcceptSecond(s: State, x: Item, a: Admission)
    requires Flying(s, x, Counters(1, 0, 0, true), [], [], Ready)
    requires a == Admission(Item(|s.ledger.records| + 1, [8], Plain), 1, 0, 1)
    ensures Flying(Step(Step(s, Write([8], Plain, None)), Admitted), x, Counters(1, 0, 1, true), [], [RouteWrite(a)],
                   Ready)
  {
    hide Apply;
    assert [] + [RouteWrite(a)] == [RouteWrite(a)];
    assert Step(s, Write([8], Plain, None)) == s.(bytes := Counters(1, 0, 1, true), admitting := Some(a));
  }

  lemma ParkSecond(s: State, x: Item, a: Admission)
    requires |a.item.data| == 1 && a.run == 1 && a.conn == 0
    requires Flying(s, x, Counters(1, 0, 1, true), [], [RouteWrite(a)], Ready)
    ensures Flying(Step(Step(s, Strand(true)), Strand(true)), x, Counters(1, 1, 0, true), [a.item], [], Ready)
  {
    hide Apply;
    assert [RouteWrite(a)][1..] == [] && [] + [a.item] == [a.item];
    assert Flying(Step(s, Strand(true)), x, Counters(1, 0, 1, true), [], [], Routing(a.item));
  }

  /** The abort releases the first write and clears writing_ behind the second. */
  lemma AbortFirst(s: State, x: Item, y: Item)
    requires |y.data| == 1 && Flying(s, x, Counters(1, 1, 0, true), [y], [], Ready)
    ensures var t := Step(Step(s, WriteCompleted(0, 1, OperationAborted)), Strand(true));
            && t.lanes == Lanes([y], [], None, true) && t.flights == []
            && Besides(t, Counters(1, 0, 0, false), [], Rearming(AfterAbort))
  {
    hide Apply, Sizes;
    assert [] + [y] == [y];
    var t := Step(s, WriteCompleted(0, 1, OperationAborted));
    assert t.lanes == Lanes([], [y], None, true) && t.flights == []
           && Besides(t, Counters(0, 1, 0, true), [], Reporting(0, AfterAbort));
  }

  lemma LeaveSecond(s: State, y: Item)
    requires s.lanes == Lanes([y], [], None, true) && s.flights == []
    requires Besides(s, Counters(1, 0, 0, false), [], Rearming(AfterAbort))
    ensures var t := Step(Step(Step(s, Strand(true)), Strand(true)), Strand(true));
            t.lanes == Lanes([y], [], None, false) && t.flights == [] && Besides(t, Counters(1, 0, 0, true), [], Ready)
  {
    hide Apply;
  }

  /** A client at rest, connected and without any leak, with an accepted write that nothing will send. */
  lemma AbortedWriteStrands() returns (events: seq<Event>)
    ensures var s := Reach(1, events);
            ClientFlow.AtRest(s) && ClientFlow.LeakedOn(s.past.failed, s.seqs.conn) == 0 && s.lanes.tx != []
  {
    hide Busy, Step, Reach, NeverReplaced;
    var x := Item(1, [7], Plain);
    events := WriteTaken(x, false);
    TakeOff(Reach(1, events), x);
    events := Twice(events, Strand(false), Strand(false));
    events := Next(events, Strand(false));
    var a := Admission(Item(|Reach(1, events).ledger.records| + 1, [8], Plain), 1, 0, 1);
    AcceptSecond(Reach(1, events), x, a);
    events := Twice(events, Write([8], Plain, None), Admitted);
    ParkSecond(Reach(1, events), x, a);
    events := Twice(events, Strand(true), Strand(true));
    AbortFirst(Reach(1, events), x, a.item);
    events := Twice(events, WriteCompleted(0, 1, OperationAborted), Strand(true));
    LeaveSecond(Reach(1, events), a.item);
    events := Twice(events, Strand(true), Strand(true));
    events := Next(events, Strand(true));
  }

  // ------------------------------------------------------------------
  // A cleanup comes late
  // ------------------------------------------------------------------

  function NoNet(): Net {
    Net([], [], false)
  }

  /** Nothing queued or counted; the ledger aside, all that the next steps read. */
  predicate Still(s: State, seqs: Seqs, life: Life, net: Net, posted: seq<Handler>, pc: Pc) {
    && s.bytes == NoBytes() && s.lanes == NoLanes() && s.seqs == seqs && s.life == life && s.net == net
    && s.posted == posted && s.admitting.None? && s.pc == pc
  }

  lemma GiveUp(s: State)
    requires Still(s, First(0), Dialling(), Net([1], [], false), [], Ready)
    ensures Still(Step(Step(s, ConnectFailed(0, false)), Strand(false)), First(0),
                  Life(false, false, false, Failed, true), NoNet(), [], Resuming(Done))
  {
    hide Apply;
    assert Without([1], 0) == [];
    assert Still(Step(s, ConnectFailed(0, false)), First(0), Dialling(), NoNet(), [], Retrying(Done));
  }

  lemma StopAfterwards(s: State)
    requires Still(s, First(0), Life(false, false, false, Failed, true), NoNet(), [], Resuming(Done))
    ensures Still(Step(Step(s, Strand(true)), Stop), Seqs(1, 1, 0, 1, 1, 0), Life(false, true, false, Failed, true),
                  NoNet(), [StopCleanup], Ready)
  {
    hide Apply;
    assert [] + [StopCleanup] == [StopCleanup];
    assert Still(Step(s, Strand(true)), First(0), Life(false, false, false, Failed, true), NoNet(), [], Ready);
  }

  /** Started again, with the cleanup still posted: it runs now, */
  lemma StartAgain(s: State)
    requires Still(s, Seqs(1, 1, 0, 1, 1, 0), Life(false, true, false, Failed, true), NoNet(), [StopCleanup], Ready)
    ensures var t := Step(s, Start);
            && ClientReconnect.Late(t, Strand(true))
            && Still(Step(t, Strand(true)), Seqs(2, 2, 0, 1, 1, 0), Life(false, false, true, Unstarted, false),
                     NoNet(), [StartRun(2)], Cleaning)
  {
    hide Apply;
    assert [StopCleanup] + [StartRun(2)] == [StopCleanup, StartRun(2)]
        && [StopCleanup, StartRun(2)][1..] == [StartRun(2)];
    assert Still(Step(s, Start), Seqs(2, 2, 0, 1, 1, 0), Life(false, false, false, Unstarted, false), NoNet(),
                 [StopCleanup, StartRun(2)], Ready);
  }

  lemma CleanUpLate(s: State)
    requires Still(s, Seqs(2, 2, 0, 1, 1, 0), Life(false, false, true, Unstarted, false), NoNet(), [StartRun(2)],
                   Cleaning)
    ensures Still(Step(Step(s, Strand(true)), Strand(true)), Seqs(2, 2, 0, 1, 1, 0),
                  Life(false, false, true, Down, true), NoNet(), [], Starting(2))
  {
    hide Apply;
    assert [StartRun(2)][1..] == [];
    assert Still(Step(s, Strand(true)), Seqs(2, 2, 0, 1, 1, 0), Life(false, false, true, Down, true), NoNet(),
                 [StartRun(2)], Ready);
  }

  lemma DialAgain(s: State)
    requires Still(s, Seqs(2, 2, 0, 1, 1, 0), Life(false, false, true, Down, true), NoNet(), [], Starting(2))
    ensures Still(Step(Step(s, Strand(true)), Strand(true)), Seqs(2, 2, 0, 1, 2, 0),
                  Life(false, false, true, Connecting, true), Net([2], [], false), [], Ready)
  {
    hide Apply;
    assert [] + [2] == [2];
    assert Still(Step(s, Strand(true)), Seqs(2, 2, 0, 1, 1, 0), Life(false, false, true, Down, true), NoNet(), [],
                 Resetting(2));
  }

  lemma ConnectAgain(s: State)
    requires Still(s, Seqs(2, 2, 0, 1, 2, 0), Life(false, false, true, Connecting, true), Net([2], [], false), [],
                   Ready)
    ensures Still(Step(Step(s, ConnectSucceeded(0)), Strand(true)), Seqs(2, 2, 0, 1, 2, 1),
                  Life(true, false, true, Connected, true), NoNet(), [KickWrite(2, 0)], Ready)
  {
    hide Apply;
    assert Without([2], 0) == [] && [] + [KickWrite(2, 0)] == [KickWrite(2, 0)];
    assert Still(Step(s, ConnectSucceeded(0)), Seqs(2, 2, 0, 1, 2, 1), Life(true, false, true, Connecting, true),
                 NoNet(), [], Announcing(2));
  }

  lemma KickedIdle(s: State)
    requires Still(s, Seqs(2, 2, 0, 1, 2, 1), Life(true, false, true, Connected, true), NoNet(), [KickWrite(2, 0)],
                   Ready)
    ensures Still(Step(Step(Step(s, Strand(true)), Strand(true)), Strand(true)), Seqs(2, 2, 0, 1, 2, 1),
                  Life(true, false, true, Connected, true), NoNet(), [], Ready)
  {
    hide Apply, GatherCount;
    assert [KickWrite(2, 0)][1..] == [];
    var t := Step(s, Strand(true));
    assert Still(t, Seqs(2, 2, 0, 1, 2, 1), Life(true, false, true, Connected, true), NoNet(), [], Writing(Done));
    assert Still(Step(t, Strand(true)), Seqs(2, 2, 0, 1, 2, 1), Life(true, false, true, Connected, true), NoNet(), [],
                 Resuming(Done));
  }

  lemma StopInVain(s: State)
    requires Still(s, Seqs(2, 2, 0, 1, 2, 1), Life(true, false, true, Connected, true), NoNet(), [], Ready)
    ensures Still(Step(Step(s, Stop), Strand(true)), Seqs(2, 2, 0, 2, 2, 1), Life(true, true, true, Connected, true),
                  NoNet(), [], Ready)
  {
    hide Apply;
    assert [] + [StopCleanup] == [StopCleanup] && [StopCleanup][1..] == [];
    assert Still(Step(s, Stop), Seqs(2, 2, 0, 2, 2, 1), Life(true, true, true, Connected, true), NoNet(),
                 [StopCleanup], Ready);
  }

  /** A stopped client with nothing posted that is still connected. */
  lemma LateCleanupDefeatsStop() returns (events: seq<Event>)
    ensures var s := Reach(1, events); s.life.stopping && s.life.connected && s.pc.Ready? && s.posted == []
    ensures !ClientReconnect.NeverLate(1, events)
  {
    hide Bare, Step;
    Begin(Step(Reach(1, []), Start));
    events := Twice([], Start, Strand(true));
    hide Reach, Still, ClientReconnect.Late;
    Attempt(Reach(1, events));
    events := Twice(events, Strand(true), Strand(true));
    BareIsStill(Reach(1, events));
    GiveUp(Reach(1, events));
    events := Twice(events, ConnectFailed(0, false), Strand(false));
    StopAfterwards(Reach(1, events));
    events := Twice(events, Strand(true), Stop);
    StartAgain(Reach(1, events));
    events := Next(events, Start);
    var before := events;
    events := Next(events, Strand(true));
    CleanUpLate(Reach(1, events));
    events := Twice(events, Strand(true), Strand(true));
    DialAgain(Reach(1, events));
    events := Twice(events, Strand(true), Strand(true));
    ConnectAgain(Reach(1, events));
    events := Twice(events, ConnectSucceeded(0), Strand(true));
    KickedIdle(Reach(1, events));
    events := Twice(events, Strand(true), Strand(true));
    events := Next(events, Strand(true));
    StopInVain(Reach(1, events));
    events := Twice(events, Stop, Strand(true));
    StillConnected(Reach(1, events));
    assert events[..|before|] == before && events[|before|] == Strand(true);
  }

  lemma BareIsStill(s: State)
    requires Bare(s, First(0), Dialling(), Net([1], [], false), [], Ready)
    ensures Still(s, First(0), Dialling(), Net([1], [], false), [], Ready)
  {
  }

  lemma StillConnected(s: State)
    requires Still(s, Seqs(2, 2, 0, 2, 2, 1), Life(true, true, true, Connected, true), NoNet(), [], Ready)
    ensures s.life.stopping && s.life.connected && s.pc.Ready? && s.posted == []
  {
  }
}
