/**
 A started client is never forgotten: until it stops or reports a terminal state, it is
 connected, connecting, waiting to retry, or about to. A stop is carried out, unless a
 cleanup left over from an earlier stop ran first. What the client takes from a caller
 and when is stated here too.
 */
module ClientReconnect {
  import opened Options
  import opened SendAccounting
  import opened SendHistory
  import opened Stepwise
  import opened Octets
  import opened Queues
  import opened ClientModel
  import opened ClientPinning
  import opened ClientBytes
  import opened ClientOrder

  // ------------------------------------------------------------------
  // Taking a write
  // ------------------------------------------------------------------

  /**
   What a client takes: only while connected, not stopping and not in a terminal state,
   for the connection the caller expects, within the size and byte limits. An accepted
   write has exactly its bytes reserved and captures run, number and socket; a refused
   one changes nothing.
   */
  lemma ClientWritesAreJudged(s: State, data: seq<Byte>, kind: Kind, expected: Option<nat>)
    requires s.admitting.None?
    ensures var n, t := |data|, Step(s, Write(data, kind, expected));
            var taken := && s.seqs.current > 0 && s.life.connected && !s.life.stopping && !Terminal(s.life.link)
                         && (expected.None? || expected == Some(s.seqs.conn)) && 0 < n <= MAX_BUFFER_SIZE
                         && s.bytes.queue + s.bytes.pending + s.bytes.inflight + n <= s.bounds.limit
                         && (kind == Try ==> !s.bytes.active && s.bytes.queue + n <= s.bounds.high);
            if taken then
              && t == s.(bytes := t.bytes,
                         admitting := Some(Admission(Item(|s.ledger.records| + 1, data, kind),
                                                     s.seqs.current, s.seqs.conn, s.seqs.socket)))
              && t.bytes.inflight == s.bytes.inflight + (if kind == Plain then n else 0)
              && t.bytes.queue == s.bytes.queue + (if kind == Try then n else 0)
              && t.bytes.pending == s.bytes.pending && t.bytes.active == s.bytes.active
            else t == s
  {
  }

  // ------------------------------------------------------------------
  // Never forgotten
  // ------------------------------------------------------------------

  /** A connect or a retry wait of the current run ends as aborted. */
  predicate Cancels(s: State, e: Event) {
    && s.pc.Ready?
    && ((e.ConnectFailed? && e.aborted && e.i < |s.net.attempts| && s.net.attempts[e.i] == s.seqs.current)
        || (e.RetryEnded? && e.aborted && e.i < |s.net.retries| && s.net.retries[e.i] == s.seqs.current))
  }

  ghost predicate NeverCancelled(threshold: nat, events: seq<Event>) {
    forall k | 0 <= k < |events| :: !Cancels(Reach(threshold, events[..k]), events[k])
  }

  /** The strand is dealing with a loss, or with the beginning of the current run. */
  predicate Working(s: State) {
    || s.pc.Closing? || s.pc.Discarding? || s.pc.Leaving? || s.pc.Retrying?
    || ((s.pc.Starting? || s.pc.Resetting?) && s.pc.run == s.seqs.current)
  }

  ghost predicate Pursued(s: State) {
    || s.life.connected || s.seqs.current in s.net.attempts || s.seqs.current in s.net.retries
    || StartRun(s.seqs.current) in s.posted || Working(s)
  }

  ghost predicate Tracked(s: State) {
    && (s.net.pending ==> s.seqs.current in s.net.retries)
    && (Terminal(s.life.link) ==> s.life.notified || s.seqs.current == 0)
    && (!s.life.stopping && s.seqs.current > 0 ==> s.seqs.stopped < s.seqs.current)
    && s.seqs.stopped <= s.seqs.current
    && (s.seqs.current > 0 && !s.life.stopping && !s.life.notified ==> Pursued(s))
  }

  lemma TrackedStep(s: State, e: Event)
    requires Runs(s) && StopsAhead(s) && Tracked(s) && !Cancels(s, e)
    ensures Tracked(Step(s, e))
  {
    hide Runs, StopsAhead, Tracked, Apply, Accepts, StrandStep, OnWrite, RequestStart, RequestStop, Sizes;
    match e
    case Strand(choice) => TrackedStrand(s, choice);
    case Stop => TrackedStop(s);
    case Start => TrackedStart(s);
    case WriteCompleted(i, n, outcome) => if s.pc.Ready? && i < |s.flights| { TrackedOnWrite(s, i, n, outcome); }
    case _ => TrackedNetwork(s, e);
  }

  lemma TrackedStop(s: State)
    requires Tracked(s)
    ensures Tracked(RequestStop(s))
  {
    hide Apply;
    assert forall h | h in s.posted :: h in RequestStop(s).posted;
  }

  lemma TrackedStart(s: State)
    requires Runs(s) && Tracked(s)
    ensures Tracked(RequestStart(s))
  {
    hide Apply, StartRunsWithin;
    var t := RequestStart(s);
    if t != s { assert t.posted[|s.posted|] == StartRun(t.seqs.current); }
  }

  lemma TrackedOnWrite(s: State, i: nat, n: nat, outcome: Outcome)
    requires Tracked(s) && s.pc.Ready? && i < |s.flights|
    ensures Tracked(OnWrite(s, i, n, outcome))
  {
    hide Apply, Sizes, Release;
  }

  lemma StillThere(runs: seq<nat>, i: nat, run: nat)
    requires i < |runs| && run in runs && runs[i] != run
    ensures run in Without(runs, i)
  {
    var j :| 0 <= j < |runs| && runs[j] == run;
    assert Without(runs, i)[if j < i then j else j - 1] == run;
  }

  lemma TrackedNetwork(s: State, e: Event)
    requires Tracked(s) && !Cancels(s, e) && !e.Strand? && !e.Stop? && !e.Start? && !e.WriteCompleted?
    ensures Tracked(Step(s, e))
  {
    hide Apply, Accepts;
    var t := Step(s, e);
    assert forall h | h in s.posted :: h in t.posted;
    if e.ConnectSucceeded? || e.ConnectFailed? {
      if e.i < |s.net.attempts| && s.seqs.current in s.net.attempts && s.net.attempts[e.i] != s.seqs.current {
        StillThere(s.net.attempts, e.i, s.seqs.current);
      }
    }
    if e.RetryEnded? {
      assert forall r | r in s.net.attempts :: r in t.net.attempts;
      if e.i < |s.net.retries| && s.seqs.current in s.net.retries && s.net.retries[e.i] != s.seqs.current {
        StillThere(s.net.retries, e.i, s.seqs.current);
      }
    }
  }

  lemma TrackedStrand(s: State, choice: bool)
    requires Runs(s) && StopsAhead(s) && Tracked(s)
    ensures Tracked(StrandStep(s, choice))
  {
    hide Apply, RunHandler, StartRunsWithin, Bytes, GatherCount, CanBegin, Ids, Handoffs, DecideEnqueue, Release,
      StopsAhead, Runs;
    if s.pc.Ready? {
      TrackedHandler(s);
    } else if NeedsMutex(s.pc) || Losing(s.pc) || s.pc.Announcing? {
      TrackedLoss(s, choice);
    } else {
      TrackedQuiet(s, choice);
    }
  }

  lemma TrackedQuiet(s: State, choice: bool)
    requires Runs(s) && Tracked(s) && !s.pc.Ready? && !NeedsMutex(s.pc) && !Losing(s.pc) && !s.pc.Announcing?
    ensures Tracked(StrandStep(s, choice))
  {
    hide Apply, RunHandler, StartRunsWithin, Bytes, GatherCount, CanBegin, Ids, Handoffs, DecideEnqueue, Release,
      Disconnect, Transition;
  }

  lemma TrackedLoss(s: State, choice: bool)
    requires Runs(s) && Tracked(s) && (NeedsMutex(s.pc) || Losing(s.pc) || s.pc.Announcing?)
    ensures Tracked(StrandStep(s, choice))
  {
    hide Tracked, Runs, Apply, Disconnect;
    match s.pc
    case Retrying(_) => TrackedRetrying(s, choice);
    case Resetting(_) => TrackedResetting(s);
    case _ => TrackedElse(s, choice);
  }

  lemma TrackedRetrying(s: State, choice: bool)
    requires Tracked(s) && s.pc.Retrying?
    ensures Tracked(StepRetrying(s, choice))
  {
    hide Apply, Disconnect;
    DisconnectFrame(s);
    DisconnectLife(s);
    var t := StepRetrying(s, choice);
    assert forall r | r in s.net.retries :: r in t.net.retries;
    if t.net.retries != s.net.retries { assert t.net.retries[|s.net.retries|] == s.seqs.current; }
  }

  lemma TrackedResetting(s: State)
    requires Tracked(s) && s.pc.Resetting?
    ensures Tracked(StepResetting(s))
  {
    var t := StepResetting(s);
    assert forall r | r in s.net.attempts :: r in t.net.attempts;
    assert t.net.attempts[|s.net.attempts|] == s.pc.run;
  }

  lemma TrackedElse(s: State, choice: bool)
    requires Runs(s) && Tracked(s) && (NeedsMutex(s.pc) || Losing(s.pc) || s.pc.Announcing?)
    requires !s.pc.Retrying? && !s.pc.Resetting?
    ensures Tracked(StrandStep(s, choice))
  {
    hide Apply, StartRunsWithin, Disconnect;
    DisconnectFrame(s);
    DisconnectLife(s);
    assert forall h | h in s.posted :: h in StrandStep(s, choice).posted;
  }

  lemma TrackedHandler(s: State)
    requires Runs(s) && StopsAhead(s) && Tracked(s) && s.pc.Ready?
    ensures Tracked(RunHandler(s))
  {
    hide Release, StartRunsWithin;
    if s.posted != [] {
      var t := RunHandler(s);
      assert forall h | h in s.posted && h != s.posted[0] :: h in s.posted[1..];
      StartComesOnce(s);
    }
  }

  /** A run's strand part is posted once, and a skipped one is of a stopped run. */
  lemma StartComesOnce(s: State)
    requires Runs(s) && StopsAhead(s) && s.posted != []
    ensures s.posted[0].StopCleanup? && !s.life.stopping ==> StartRun(s.seqs.current) in s.posted[1..]
  {
    if s.posted[0].StopCleanup? && !s.life.stopping {
      var j :| 0 < j < |s.posted| && s.posted[j] == StartRun(s.seqs.current);
      assert s.posted[1..][j - 1] == s.posted[j];
    }
  }

  /**
   Every run in which no connect and no retry wait of its current run is cancelled: a
   started client that is not stopping and has not reported a terminal state is, between
   handlers, connected, connecting or waiting to retry.
   */
  lemma {:induction false} NeverForgotten(threshold: nat, events: seq<Event>)
    requires NeverCancelled(threshold, events)
    ensures var s := Reach(threshold, events);
            && Tracked(s)
            && (s.seqs.current > 0 && !s.life.stopping && !s.life.notified && s.pc.Ready? && s.posted == [] ==>
                  s.life.connected || s.seqs.current in s.net.attempts || s.seqs.current in s.net.retries)
    decreases |events|
  {
    hide Step, Cancels, Ground;
    if events == [] {
      FreshTracked(threshold);
    } else {
      var n := |events| - 1;
      var before := events[..n];
      assert forall k | 0 <= k < n :: before[k] == events[k] && before[..k] == events[..k];
      NeverForgotten(threshold, before);
      AlwaysGround(threshold, before);
      GroundHas(Reach(threshold, before));
      TrackedStep(Reach(threshold, before), events[n]);
    }
  }

  lemma GroundHas(s: State)
    requires Ground(s)
    ensures Runs(s) && StopsAhead(s)
  {
    hide Runs, LiveIsCurrent, WirePinned, Within, AllPlaced, StopsAhead, Sorted, Sourced;
  }

  lemma FreshTracked(threshold: nat)
    ensures Tracked(Initial(threshold))
  {
  }

  /**
   A connection that is up and is closed by the peer, by an error or by an idle timeout
   is taken down under the next number with its queues discarded; then the client
   retries, unless the idle timeout says not to, when it reports that it is closed.
   */
  lemma LossesAreDealtWith(s: State, e: Event, choice: bool)
    requires s.pc.Ready? && s.admitting.None? && s.life.connected && !s.life.stopping && s.life.link.Connected?
    requires e.IdleTimedOut? || (e.ConnectionClosed? && e.run == s.seqs.current && 1 <= e.run <= s.seqs.begun)
    ensures var t := Step(Step(Step(Step(s, e), Strand(choice)), Strand(choice)), Strand(choice));
            && !t.life.connected && t.seqs.conn == s.seqs.conn + 1
            && t.lanes == Lanes([], [], None, false) && t.bytes.queue == 0 && t.bytes.pending == 0 && !t.bytes.active
            && (forall i | 0 <= i < |t.ledger.records| :: !Live(t.ledger.records[i]))
            && if e.IdleTimedOut? && !e.reconnect
               then t.pc == Resuming(Done) && (t.life.link == if s.life.notified then Connected else Down)
               else t.pc == Retrying(Done) && t.life.link == Connecting
  {
    hide Step, Apply;
    var reason := if e.IdleTimedOut? then IdleExpiry(e.reconnect) else Close;
    LossIsMarked(s, e, reason, choice);
    LossIsDiscarded(Step(Step(s, e), Strand(choice)), reason, choice);
  }

  lemma LossIsMarked(s: State, e: Event, reason: Reason, choice: bool)
    requires s.pc.Ready? && s.admitting.None? && s.life.connected && !s.life.stopping
    requires || (e.IdleTimedOut? && reason == IdleExpiry(e.reconnect))
             || (e.ConnectionClosed? && e.run == s.seqs.current && 1 <= e.run <= s.seqs.begun && reason == Close)
    ensures var t := Step(Step(s, e), Strand(choice));
            && t.pc == Discarding(reason, Done) && t.admitting.None? && t.life == s.life.(connected := false)
            && t.seqs.conn == s.seqs.conn + 1
            && forall i | 0 <= i < |t.ledger.records| :: !Live(t.ledger.records[i])
  {
    hide Apply;
    EndLeavesNone(s.ledger, ConnectionLoss);
    assert Step(s, e) == s.(pc := Closing(reason, Done));
  }

  lemma LossIsDiscarded(s: State, reason: Reason, choice: bool)
    requires s.pc == Discarding(reason, Done) && !s.life.stopping && s.life.link.Connected?
    ensures var t := Step(Step(s, Strand(choice)), Strand(choice));
            && t == s.(lanes := Lanes([], [], None, false),
                       bytes := s.bytes.(queue := 0, pending := 0, active := false),
                       life := t.life, pc := t.pc)
            && t.life.connected == s.life.connected
            && if reason == IdleExpiry(false)
               then t.pc == Resuming(Done) && (t.life.link == if s.life.notified then Connected else Down)
               else t.pc == Retrying(Done) && t.life.link == Connecting
  {
    hide Apply;
    var a := Step(s, Strand(choice));
    assert a == s.(lanes := Lanes([], [], None, false), bytes := s.bytes.(queue := 0, pending := 0, active := false),
                   pc := Leaving(reason, Done));
  }

  // ------------------------------------------------------------------
  // A stop is carried out
  // ------------------------------------------------------------------

  /** The cleanup of an earlier stop begins in a run that is not being stopped. */
  predicate Late(s: State, e: Event) {
    e.Strand? && s.pc.Ready? && s.posted != [] && s.posted[0].StopCleanup? && !s.life.stopping && !s.life.cleaning
  }

  /** cleanup_started_ says that a stop is being carried out. */
  predicate Timely(s: State) {
    s.life.cleaning ==> s.life.stopping
  }

  lemma TimelyIff(s: State, e: Event)
    requires Timely(s)
    ensures Timely(Step(s, e)) <==> !Late(s, e)
  {
    hide Apply, Accepts, Sizes, Release, StrandStep;
    if e.Strand? {
      StrandKeepsRun(s, e.choice);
      if s.pc.Ready? { HandlerCleans(s); } else { WorkKeepsPosts(s, e.choice); }
    }
  }

  lemma HandlerCleans(s: State)
    requires s.pc.Ready?
    ensures RunHandler(s).life.cleaning == (s.life.cleaning || (s.posted != [] && s.posted[0].StopCleanup?))
    ensures StrandStep(s, true) == StrandStep(s, false) == RunHandler(s)
  {
    hide Release;
  }

  /** In the middle of a handler nothing is taken off the strand and no cleanup begins. */
  lemma WorkKeepsPosts(s: State, choice: bool)
    requires !s.pc.Ready?
    ensures var t := StrandStep(s, choice);
            s.posted <= t.posted && t.life.cleaning == s.life.cleaning && !t.pc.Cleaning?
  {
    hide Apply, RunHandler, Bytes, GatherCount, CanBegin, Ids, Handoffs, DecideEnqueue, Release;
    if NeedsMutex(s.pc) || Losing(s.pc) || s.pc.Announcing? {
      LossKeepsPosts(s, choice);
    }
  }

  lemma LossKeepsPosts(s: State, choice: bool)
    requires NeedsMutex(s.pc) || Losing(s.pc) || s.pc.Announcing?
    ensures var t := StrandStep(s, choice);
            s.posted <= t.posted && t.life.cleaning == s.life.cleaning && !t.pc.Cleaning?
  {
    hide Apply, Transition, Disconnect;
    DisconnectFrame(s);
    DisconnectLife(s);
  }

  lemma DisconnectLife(s: State)
    ensures Disconnect(s).life == s.life.(connected := false)
            && Disconnect(s).seqs == s.seqs.(conn := Disconnect(s).seqs.conn)
  {
    hide Apply;
  }

  ghost predicate AlwaysTimely(threshold: nat, events: seq<Event>) {
    forall k | 0 <= k <= |events| :: Timely(Reach(threshold, events[..k]))
  }

  ghost predicate NeverLate(threshold: nat, events: seq<Event>) {
    forall k | 0 <= k < |events| :: !Late(Reach(threshold, events[..k]), events[k])
  }

  /** Throughout a run cleanup_started_ means a stop, exactly when no cleanup of the run comes late. */
  lemma CleanupsAreTimely(threshold: nat, events: seq<Event>)
    ensures AlwaysTimely(threshold, events) <==> NeverLate(threshold, events)
  {
    hide Timely, Late, Step, Reach;
    var good := (k: nat) => k <= |events| && Timely(Reach(threshold, events[..k]));
    var bad := (k: nat) => k < |events| && Late(Reach(threshold, events[..k]), events[k]);
    FreshTimely(threshold);
    assert events[..0] == [];
    forall k | 0 <= k < |events| && good(k) ensures good(k + 1) <==> !bad(k) {
      ReachSnoc(threshold, events, k);
      TimelyIff(Reach(threshold, events[..k]), events[k]);
    }
    AlwaysIffNever(|events|, good, bad);
    assert forall k | 0 <= k <= |events| :: good(k) <==> Timely(Reach(threshold, events[..k]));
    assert forall k | 0 <= k < |events| :: bad(k) <==> Late(Reach(threshold, events[..k]), events[k]);
  }

  lemma FreshTimely(threshold: nat)
    ensures Timely(Reach(threshold, []))
  {
  }

  /** A stop's cleanup is posted, under way, or has taken the connection down. */
  ghost predicate Ending(s: State) {
    && (s.pc.Cleaning? ==> s.life.cleaning)
    && (s.life.cleaning && !s.pc.Cleaning? ==> !s.life.connected)
    && (s.life.stopping ==> s.life.cleaning || StopCleanup in s.posted)
  }

  lemma EndingStep(s: State, e: Event)
    requires Timely(s) && Ending(s) && Timely(Step(s, e))
    ensures Ending(Step(s, e))
  {
    hide Apply, Accepts, StrandStep, OnWrite, RequestStart, RequestStop, Sizes, Ending;
    match e
    case Strand(choice) => EndingStrand(s, choice);
    case Stop => EndingStop(s);
    case Start => EndingStart(s);
    case WriteCompleted(i, n, outcome) => if s.pc.Ready? && i < |s.flights| { EndingOnWrite(s, i, n, outcome); }
    case _ => EndingRest(s, e);
  }

  lemma EndingStop(s: State)
    requires Timely(s) && Ending(s)
    ensures Ending(RequestStop(s))
  {
    hide Apply;
    assert forall h | h in s.posted :: h in RequestStop(s).posted;
    if !s.life.stopping && s.seqs.current != 0 { assert RequestStop(s).posted[|s.posted|] == StopCleanup; }
  }

  lemma EndingStart(s: State)
    requires Ending(s)
    ensures Ending(RequestStart(s))
  {
    hide Apply;
  }

  lemma EndingOnWrite(s: State, i: nat, n: nat, outcome: Outcome)
    requires Ending(s) && s.pc.Ready? && i < |s.flights|
    ensures Ending(OnWrite(s, i, n, outcome))
  {
    hide Apply, Sizes, Release;
  }

  lemma EndingRest(s: State, e: Event)
    requires Timely(s) && Ending(s) && !e.Strand? && !e.Stop? && !e.Start? && !e.WriteCompleted?
    ensures Ending(Step(s, e))
  {
    hide Apply, Accepts;
    assert forall h | h in s.posted :: h in Step(s, e).posted;
  }

  lemma EndingStrand(s: State, choice: bool)
    requires Ending(s)
    ensures Ending(StrandStep(s, choice))
  {
    hide StrandStep, Disconnect;
    if s.pc.Ready? {
      HandlerCleans(s);
      EndingHandler(s);
    } else {
      WorkKeepsPosts(s, choice);
      StrandKeepsRun(s, choice);
      StrandContext(s, choice);
      if NeedsMutex(s.pc) {
        MutexContext(s, choice);
        DownAfter(s);
      }
    }
  }

  lemma DownAfter(s: State)
    ensures !Disconnect(s).life.connected
  {
    hide Apply;
  }

  lemma EndingHandler(s: State)
    requires Ending(s) && s.pc.Ready?
    ensures Ending(RunHandler(s))
  {
    hide Release;
    if s.posted != [] {
      assert forall h | h in s.posted && h != s.posted[0] :: h in s.posted[1..];
    }
  }

  lemma {:induction false} AlwaysEnding(threshold: nat, events: seq<Event>)
    requires AlwaysTimely(threshold, events)
    ensures Ending(Reach(threshold, events))
    decreases |events|
  {
    hide Step, Ending, Timely;
    if events == [] {
      FreshEnding(threshold);
    } else {
      var n := |events| - 1;
      var before := events[..n];
      assert forall k | 0 <= k <= n :: before[..k] == events[..k];
      AlwaysEnding(threshold, before);
      assert events[..n + 1] == events;
      assert Timely(Reach(threshold, events[..n])) && Timely(Reach(threshold, events[..n + 1]));
      EndingStep(Reach(threshold, before), events[n]);
    }
  }

  lemma FreshEnding(threshold: nat)
    ensures Ending(Initial(threshold))
  {
  }

  /**
   Every run without a late cleanup: once nothing is posted, a stopped client has been
   cleaned up, no connection is up and no request is outstanding.
   */
  lemma StopIsCarriedOut(threshold: nat, events: seq<Event>)
    requires NeverLate(threshold, events)
    ensures var s := Reach(threshold, events);
            s.life.stopping && s.pc.Ready? && s.posted == [] ==>
              && s.life.cleaning && !s.life.connected
              && forall i | 0 <= i < |s.ledger.records| :: !Live(s.ledger.records[i])
  {
    hide Reach, Runs, Sourced, WirePinned, Sane, NeverLate, AlwaysTimely;
    CleanupsAreTimely(threshold, events);
    AlwaysEnding(threshold, events);
    ConnectionPinning(threshold, events);
  }
}
