/**
 Pinning to the socket. connection_seq_ moves when a connection is lost, not when
 one comes up, so two connects that succeed one after the other share a number.
 Requests stay with the socket they were admitted on exactly as long as no
 connect succeeds while another is up and has live requests.
 */
module ClientSockets {
  import opened Options
  import opened SendHistory
  import opened SendFates
  import opened Stepwise
  import opened Queues
  import opened ClientModel
  import opened ClientPinning

  /** Whatever can still be handed over was admitted on the socket that is up now. */
  ghost predicate OnSocket(s: State) {
    && (forall i | 0 <= i < |s.ledger.records| && i < |s.past.admitted| && Live(s.ledger.records[i]) ::
          s.past.admitted[i].socket == s.seqs.socket)
    && (s.admitting.Some? ==> s.admitting.value.socket == s.seqs.socket)
  }

  /** The connect takes effect: its run is current, not stopping, and no caller holds the mutex. */
  predicate Connects(s: State, e: Event) {
    && e.ConnectSucceeded? && s.pc.Ready? && s.admitting.None?
    && e.i < |s.net.attempts| && s.net.attempts[e.i] == s.seqs.current && !s.life.stopping
  }

  /** A second connect succeeds while a connection with live requests is up. */
  ghost predicate Replaces(s: State, e: Event) {
    Connects(s, e) && s.life.connected && exists i :: 0 <= i < |s.ledger.records| && Live(s.ledger.records[i])
  }

  /** Only a connect that takes effect brings up another socket, and it touches no request. */
  lemma SocketMoves(s: State, e: Event)
    ensures var t := Step(s, e);
            if Connects(s, e) then
              && t.seqs.socket == s.seqs.socket + 1
              && t.ledger == s.ledger && t.past == s.past && t.admitting == s.admitting
            else t.seqs.socket == s.seqs.socket
  {
    hide Apply, Accepts, StrandStep, RequestStop, RequestStart, OnWrite;
    match e
    case Strand(choice) => StrandSocket(s, choice);
    case Stop => StopSocket(s);
    case Start => StartSocket(s);
    case WriteCompleted(i, n, outcome) => if i < |s.flights| { CompletionSocket(s, i, n, outcome); }
    case _ =>
  }

  lemma StrandSocket(s: State, choice: bool)
    ensures StrandStep(s, choice).seqs.socket == s.seqs.socket
  {
    hide Apply, Bytes, Release, DecideEnqueue, GatherCount, CanBegin, Ids, Handoffs;
  }

  lemma StopSocket(s: State)
    ensures RequestStop(s).seqs.socket == s.seqs.socket && RequestStop(s).admitting == s.admitting
  {
    hide Apply;
  }

  lemma StartSocket(s: State)
    ensures RequestStart(s).seqs.socket == s.seqs.socket && RequestStart(s).admitting == s.admitting
  {
    hide Apply;
  }

  lemma CompletionSocket(s: State, i: nat, n: nat, outcome: Outcome)
    requires i < |s.flights|
    ensures var t := OnWrite(s, i, n, outcome); t.seqs.socket == s.seqs.socket && t.admitting == s.admitting
  {
    hide Apply, Sizes, Release;
  }

  /** The admission a caller is in the middle of keeps what it captured. */
  lemma CallersFrame(s: State, e: Event)
    ensures var a := Step(s, e).admitting;
            a == s.admitting || a.None? || (e.Write? && a.value.socket == s.seqs.socket)
  {
    hide Apply, Accepts, StrandStep, RequestStop, RequestStart, OnWrite;
    match e
    case Strand(choice) => StrandContext(s, choice);
    case Stop => StopSocket(s);
    case Start => StartSocket(s);
    case WriteCompleted(i, n, outcome) => if i < |s.flights| { CompletionSocket(s, i, n, outcome); }
    case _ =>
  }

  lemma OnSocketFrame(s: State, e: Event)
    requires LiveIsCurrent(s) && OnSocket(s) && !Connects(s, e)
    ensures OnSocket(Step(s, e))
  {
    hide Step, Connects, OnCurrent, Live;
    var t := Step(s, e);
    SocketMoves(s, e);
    CallersFrame(s, e);
    LedgerFollows(s, e);
    AcceptedGrows(s, e);
    forall i | 0 <= i < |t.ledger.records| && i < |t.past.admitted| && Live(t.ledger.records[i])
      ensures t.past.admitted[i].socket == t.seqs.socket
    {
      if i < |s.ledger.records| {
        assert Follows(s.ledger.records[i], t.ledger.records[i]);
        assert t.past.admitted[i] == s.past.admitted[i];
      }
    }
  }

  /** One step keeps live requests on their socket, unless it replaces that socket. */
  lemma OnSocketIff(s: State, e: Event)
    requires LiveIsCurrent(s) && OnSocket(s)
    ensures OnSocket(Step(s, e)) <==> !Replaces(s, e)
  {
    hide Step, OnCurrent, Live;
    if Connects(s, e) {
      SocketMoves(s, e);
      if !s.life.connected { DownMeansNone(s); }
    } else {
      OnSocketFrame(s, e);
    }
  }

  ghost predicate AlwaysOnSocket(threshold: nat, events: seq<Event>) {
    forall k | 0 <= k <= |events| :: OnSocket(Reach(threshold, events[..k]))
  }

  /** No connect of the run succeeds while a connection with live requests is up. */
  ghost predicate NeverReplaced(threshold: nat, events: seq<Event>) {
    forall k | 0 <= k < |events| :: !Replaces(Reach(threshold, events[..k]), events[k])
  }

  lemma OnSocketAfter(threshold: nat, events: seq<Event>, e: Event)
    requires OnSocket(Reach(threshold, events))
    ensures OnSocket(Step(Reach(threshold, events), e)) <==> !Replaces(Reach(threshold, events), e)
  {
    hide OnSocket, Replaces, Step, Reach, Runs, Sourced, LiveIsCurrent, WirePinned, Sane;
    ConnectionPinning(threshold, events);
    OnSocketIff(Reach(threshold, events), e);
  }

  lemma FreshOnSocket(threshold: nat)
    ensures OnSocket(Reach(threshold, []))
  {
  }

  /**
   In every state of a run each live request was admitted on the socket that is
   up, exactly when no connect of the run replaces a socket with live requests.
   */
  lemma SocketsArePinned(threshold: nat, events: seq<Event>)
    ensures AlwaysOnSocket(threshold, events) <==> NeverReplaced(threshold, events)
  {
    hide OnSocket, Replaces, Step, Reach;
    var good := (k: nat) => k <= |events| && OnSocket(Reach(threshold, events[..k]));
    var bad := (k: nat) => k < |events| && Replaces(Reach(threshold, events[..k]), events[k]);
    FreshOnSocket(threshold);
    assert events[..0] == [];
    forall k | 0 <= k < |events| && good(k) ensures good(k + 1) <==> !bad(k) {
      ReachSnoc(threshold, events, k);
      OnSocketAfter(threshold, events[..k], events[k]);
    }
    AlwaysIffNever(|events|, good, bad);
    assert forall k | 0 <= k <= |events| :: good(k) <==> OnSocket(Reach(threshold, events[..k]));
    assert forall k | 0 <= k < |events| :: bad(k) <==> Replaces(Reach(threshold, events[..k]), events[k]);
  }

  /** Every handoff went to the socket that admitted the item. */
  ghost predicate WireOnSocket(s: State) {
    forall i | 0 <= i < |s.past.wire| ::
      && Known(s.past.admitted, s.past.wire[i].item)
      && s.past.admitted[s.past.wire[i].item.id - 1].socket == s.past.wire[i].socket
  }

  lemma WireOnSocketStep(s: State, e: Event)
    requires Sourced(s) && LiveIsCurrent(s) && OnSocket(s) && WireOnSocket(s)
    ensures WireOnSocket(Step(s, e))
  {
    hide Step, Holds, Sourced, OnCurrent;
    var t := Step(s, e);
    AcceptedGrows(s, e);
    WireStep(s, e);
    forall i | 0 <= i < |t.past.wire|
      ensures && Known(t.past.admitted, t.past.wire[i].item)
              && t.past.admitted[t.past.wire[i].item.id - 1].socket == t.past.wire[i].socket
    {
      if i < |s.past.wire| {
        assert t.past.wire[i] == s.past.wire[i];
        KnownGrows(s.past.admitted, t.past.admitted, s.past.wire[i].item);
      } else {
        var x := s.pc.batch[i - |s.past.wire|];
        assert Ids(s.pc.batch)[i - |s.past.wire|] == x.id && IsLive(s.ledger.records, x.id);
        BatchIsKnown(s, x);
        KnownGrows(s.past.admitted, t.past.admitted, x);
      }
    }
  }

  /** On such a run everything handed to I/O went to the very socket it was admitted on. */
  lemma {:induction false} HandoffsKeepTheirSocket(threshold: nat, events: seq<Event>)
    requires NeverReplaced(threshold, events)
    ensures WireOnSocket(Reach(threshold, events))
    decreases |events|
  {
    hide Step, Replaces, OnSocket, Runs, Sourced, LiveIsCurrent, WirePinned, Sane;
    if events != [] {
      var n := |events| - 1;
      var before := events[..n];
      assert forall k | 0 <= k < n :: before[k] == events[k] && before[..k] == events[..k];
      HandoffsKeepTheirSocket(threshold, before);
      SocketsArePinned(threshold, before);
      assert before[..n] == before && OnSocket(Reach(threshold, before[..n]));
      ConnectionPinning(threshold, before);
      WireOnSocketStep(Reach(threshold, before), events[n]);
    }
  }
}
