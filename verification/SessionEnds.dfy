/**
 How a session takes writes and how it ends: what exactly is accepted, that stops and
 losses close it, and that a session told to end comes to rest cleaned up and empty.
 */
module SessionEnds {
  import opened Options
  import opened SendAccounting
  import opened SendHistory
  import opened Octets
  import opened Queues
  import opened SessionModel
  import opened SessionBytes
  import opened SessionFates
  import opened SessionSettling

  // ------------------------------------------------------------------
  // Taking a write
  // ------------------------------------------------------------------

  predicate Open(s: State) {
    s.life.alive && !s.life.closing
  }

  /** The bytes fit: a plain write under the limit, a try-write under the threshold too, and not under backpressure. */
  predicate Fits(s: State, n: nat, kind: Kind) {
    && s.bytes.queue + s.bytes.pending + s.bytes.inflight + n <= s.bounds.limit
    && (kind == Try ==> !s.bytes.active && s.bytes.queue + n <= s.bounds.high)
  }

  /** What a caller is told, and that an accepted write has exactly its bytes reserved and nothing else changed. */
  lemma WritesAreJudged(s: State, data: seq<Byte>, kind: Kind)
    requires s.admitting.None?
    ensures var n, t := |data|, Step(s, Write(data, kind));
            if !Open(s) then Verdict(s, data, kind) == Some(NotReady) && t == s
            else if n == 0 then Verdict(s, data, kind) == Some(InvalidArgument) && t == s
            else if n > MAX_BUFFER_SIZE then Verdict(s, data, kind) == Some(TooLarge) && t == s
            else if !Fits(s, n, kind) then Verdict(s, data, kind) == Some(WouldBlock) && t == s
            else
              && Verdict(s, data, kind) == None
              && t.bytes.inflight == s.bytes.inflight + (if kind == Plain then n else 0)
              && t.bytes.queue == s.bytes.queue + (if kind == Try then n else 0)
              && t == s.(bytes := t.bytes, admitting := Some(Item(|s.ledger.records| + 1, data, kind)))
              && t.bytes.pending == s.bytes.pending && t.bytes.active == s.bytes.active
  {
  }

  // ------------------------------------------------------------------
  // Closing
  // ------------------------------------------------------------------

  /** In every reachable state a stop closes at once, and a loss with the next strand step. */
  lemma EndsClose(threshold: nat, events: seq<Event>, e: Event, throws: bool)
    requires Reach(threshold, events).admitting.None?
    ensures var s := Reach(threshold, events);
            && (e.RequestStop? || e.AsyncStop? ==> Step(s, e).life.closing)
            && (e.Lost? && Open(s) && s.pc.Idle? ==>
                  var t := Step(Step(s, e), Strand(throws)); t.life.closing && t.life.cleaned)
  {
    hide Apply, Reach;
    CleanedIsEmpty(threshold, events);
  }

  /** A completed write closes the session exactly when it failed or was short, and a write that cannot start does. */
  lemma FailedWritesClose(s: State, throws: bool)
    requires Open(s) && s.admitting.None?
    ensures Completes(s, Strand(throws)) ==>
              (Step(s, Strand(throws)).life.closing <==> s.posted[0].failed || s.posted[0].n != s.posted[0].total)
    ensures s.pc.Initiating? ==> (Step(s, Strand(throws)).life.closing <==> throws)
  {
    hide Apply, Sizes;
  }

  /** The cleanup has been done, is being done, or is due. */
  ghost predicate CleanupDue(s: State) {
    s.life.cleaned || s.pc.Closing? || exists i :: 0 <= i < |s.posted| && s.posted[i].Cleanup?
  }

  lemma DueStays(s: State, e: Event)
    requires CleanupDue(s)
    ensures CleanupDue(Step(s, e))
  {
    hide Apply, Verdict, NeedsMutex, StrandStep;
    var t := Step(s, e);
    if s.life.cleaned {
      CleanedStays(s, e);
    } else if e.Strand? {
      if t != s { DueStaysStrand(s, e.throws); }
    } else if !s.pc.Closing? {
      var i :| 0 <= i < |s.posted| && s.posted[i].Cleanup?;
      assert t.posted[i] == s.posted[i];
    }
  }

  lemma CleanedStays(s: State, e: Event)
    requires s.life.cleaned
    ensures Step(s, e).life.cleaned
  {
    hide Apply, Verdict, NeedsMutex, Bytes, Sizes, Ids, DecideEnqueue, GatherCount;
  }

  lemma DueStaysStrand(s: State, throws: bool)
    requires CleanupDue(s) && !s.life.cleaned
    ensures CleanupDue(StrandStep(s, throws))
  {
    hide Apply, Bytes, Sizes, Ids, DecideEnqueue, GatherCount;
    var t := StrandStep(s, throws);
    if !s.pc.Closing? {
      var i :| 0 <= i < |s.posted| && s.posted[i].Cleanup?;
      if s.pc.Idle? {
        if i > 0 { assert t.posted[i - 1] == s.posted[i]; }
      } else {
        assert t.posted[i] == s.posted[i];
      }
    }
  }

  /** Whatever closes the session, but for a bare request_stop, makes the cleanup due. */
  lemma ClosingMakesDue(s: State, e: Event)
    requires !s.life.closing && Step(s, e).life.closing && !e.RequestStop?
    ensures CleanupDue(Step(s, e))
  {
    hide Apply, Verdict, NeedsMutex, Bytes, Sizes, Ids, DecideEnqueue, GatherCount;
    var t := Step(s, e);
    if e.AsyncStop? { assert t.posted[|s.posted|].Cleanup?; }
  }

  lemma StopMakesDue(s: State)
    requires s.admitting.None?
    ensures CleanupDue(Step(s, AsyncStop))
  {
    hide Apply;
    assert Step(s, AsyncStop).posted[|s.posted|].Cleanup?;
  }

  /** The session was told to end for good: an asynchronous stop, or a loss. */
  ghost predicate ToldToEnd(threshold: nat, events: seq<Event>) {
    || EndedBy(threshold, events) == Some(ConnectionLoss)
    || exists k :: 0 <= k < |events| && events[k].AsyncStop? && Reach(threshold, events[..k]).admitting.None?
  }

  lemma {:induction false} EndIsDue(threshold: nat, events: seq<Event>)
    requires ToldToEnd(threshold, events)
    ensures CleanupDue(Reach(threshold, events))
    decreases |events|
  {
    hide Step, CleanupDue, Charged;
    var n := |events| - 1;
    var before, e := events[..n], events[n];
    var s := Reach(threshold, before);
    assert forall k | 0 <= k < n :: before[k] == events[k] && before[..k] == events[..k];
    AlwaysCharged(threshold, before);
    ClosedMeans(s, EndedBy(threshold, before));
    if ToldToEnd(threshold, before) {
      EndIsDue(threshold, before);
      DueStays(s, e);
    } else if e.AsyncStop? && s.admitting.None? {
      StopMakesDue(s);
    } else {
      ClosingMakesDue(s, e);
    }
  }

  lemma ClosedMeans(s: State, ended: Option<Cause>)
    requires Charged(s, ended)
    ensures ended.Some? <==> s.life.closing
  {
  }

  // ------------------------------------------------------------------
  // Cleaned up
  // ------------------------------------------------------------------

  /** A cleaned session has nothing queued and nothing counted, and never again will. */
  predicate Emptied(s: State) {
    s.life.cleaned ==>
      && s.life.closing
      && (s.pc.Idle? || s.pc.Closing? || s.pc.Draining? || s.pc.Resuming?)
      && (!s.pc.Draining? ==>
            && s.lanes.tx == [] && s.lanes.pending == [] && !s.bytes.active
            && s.bytes.queue == 0 && s.bytes.pending == 0)
  }

  lemma EmptiedStep(s: State, e: Event)
    requires Emptied(s)
    ensures Emptied(Step(s, e))
  {
    hide Apply, Verdict, NeedsMutex, Bytes, Sizes, Ids, DecideEnqueue, GatherCount;
    if e.Write? { ClosedRefuses(s, e.data, e.kind); }
  }

  lemma {:induction false} CleanedIsEmpty(threshold: nat, events: seq<Event>)
    ensures Emptied(Reach(threshold, events))
    decreases |events|
  {
    hide Step, Emptied;
    if events == [] {
      FreshIsEmptied(threshold);
    } else {
      CleanedIsEmpty(threshold, events[..|events| - 1]);
      EmptiedStep(Reach(threshold, events[..|events| - 1]), events[|events| - 1]);
    }
  }

  lemma FreshIsEmptied(threshold: nat)
    ensures Emptied(Initial(threshold))
  {
  }

  /**
   Every run: a session that was stopped asynchronously or lost, once nothing is due,
   has been cleaned up: its queues are empty, its counters zero but for what throwing
   admissions left reserved, and no request is outstanding.
   */
  lemma EndedSessionsAreEmpty(threshold: nat, events: seq<Event>)
    requires ToldToEnd(threshold, events) && Quiet(Reach(threshold, events))
    ensures var s := Reach(threshold, events);
            && s.life.cleaned && s.lanes.tx == [] && s.lanes.pending == []
            && s.bytes == Counters(0, 0, Leaked(s.past.failed, Plain), false)
            && forall i | 0 <= i < |s.ledger.records| :: !Live(s.ledger.records[i])
  {
    hide Reach, ToldToEnd, Exact, Moving, Nonempty, Numbered, Linked, Handed, Sane, Leaked;
    EndIsDue(threshold, events);
    CleanedIsEmpty(threshold, events);
    BytesStayExact(threshold, events);
    LedgerMatchesSession(threshold, events);
  }
}
