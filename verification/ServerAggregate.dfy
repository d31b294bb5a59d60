/**
 TcpServer's send accounting (wirestead/transport/tcp_server/tcp_server.cc): what
 every session it ever had contributed, across disconnects, stop and restart.

 A session is the run of the session model so far. The server's own steps are
 the sections under sessions_mutex_; a session's steps interleave with them.
 */
module ServerAggregate {
  import opened Options
  import opened SendAccounting
  import opened SendHistory
  import opened SendFates
  import SessionModel
  import SessionBytes
  import SessionFates

  // ------------------------------------------------------------------
  // Model
  // ------------------------------------------------------------------

  /** In sessions_, in retiring_sessions_, or already added to closed_send_accounting_. */
  datatype Place = Live | Retiring | Absorbed

  /** `mark` is how many requests the session had admitted at the last reset or restart of the server. */
  datatype Member = Member(events: seq<SessionModel.Event>, place: Place, mark: nat)

  /** Down: not started, or cleaned up. Stopping: stopping_ set. Cleaning: perform_cleanup ran. */
  datatype Phase = Down | Up | Stopping | Cleaning

  datatype Server = Server(threshold: nat, members: seq<Member>, absorbed: Accounting, phase: Phase)

  function Start(threshold: nat): Server {
    Server(threshold, [], NOTHING, Down)
  }

  function SessionOf(threshold: nat, m: Member): SessionModel.State {
    SessionModel.Reach(threshold, m.events)
  }

  /** The session's own stats(). */
  function Published(threshold: nat, m: Member): Accounting {
    var h := SessionOf(threshold, m).ledger;
    Snapshot(h.records, h.epoch, None)
  }

  datatype Event =
    | Restart                                            // start()
    | Accept
    | Session(i: nat, step: SessionModel.Event)          // a session's own step
    | Disconnect(i: nat)                                 // the handler posted by on_close
    | Stop
    | Cleanup                                            // perform_cleanup
    | Retired(i: nat)                                    // the handler posted when async_stop completed
    | Reset

  predicate InPlace(s: Server, i: nat, p: Place) {
    i < |s.members| && s.members[i].place == p
  }

  predicate Nobody(s: Server, p: Place) {
    forall i | 0 <= i < |s.members| :: s.members[i].place != p
  }

  /** absorb_session and the erase. */
  function Absorb(s: Server, i: nat): Server
    requires i < |s.members|
  {
    s.(absorbed := Accumulate(s.absorbed, Published(s.threshold, s.members[i])),
       members := s.members[i := s.members[i].(place := Absorbed)])
  }

  function Advance(m: Member, e: SessionModel.Event): Member {
    m.(events := m.events + [e])
  }

  function Retire(m: Member): Member {
    if m.place == Live then m.(place := Retiring) else m
  }

  /** Counting starts over; sessions in the maps are told so, absorbed ones are forgotten. */
  function Zeroed(threshold: nat, m: Member): Member {
    var n := |SessionOf(threshold, m).ledger.records|;
    (if m.place == Absorbed then m else Advance(m, SessionModel.ResetStats)).(mark := n)
  }

  function ZeroAll(threshold: nat, ms: seq<Member>): (r: seq<Member>)
    ensures |r| == |ms| && forall i | 0 <= i < |ms| :: r[i] == Zeroed(threshold, ms[i])
  {
    seq(|ms|, i requires 0 <= i < |ms| => Zeroed(threshold, ms[i]))
  }

  function RetireAll(ms: seq<Member>): (r: seq<Member>)
    ensures |r| == |ms| && forall i | 0 <= i < |ms| :: r[i] == Retire(ms[i])
  {
    seq(|ms|, i requires 0 <= i < |ms| => Retire(ms[i]))
  }

  /** reset_stats waits for each session's submission mutex. */
  predicate MayReset(s: Server) {
    forall i | 0 <= i < |s.members| ::
      s.members[i].place == Absorbed || SessionOf(s.threshold, s.members[i]).admitting.None?
  }

  predicate Cleaned(s: Server, i: nat) {
    i < |s.members| && SessionOf(s.threshold, s.members[i]).life.cleaned
  }

  /** finish_cleanup once the last retiring session is gone. */
  function Finish(s: Server): Server {
    if Nobody(s, Retiring) then s.(phase := Down) else s
  }

  /**
   The handlers of accept and on_close look at stopping_ before they take
   sessions_mutex_, so they may come in after it is set; perform_cleanup shares
   their strand.
   */
  predicate Open(p: Phase) {
    p == Up || p == Stopping
  }

  function Step(s: Server, e: Event): Server {
    match e
    case Restart =>
      if s.phase == Down then s.(members := ZeroAll(s.threshold, s.members), absorbed := NOTHING, phase := Up) else s
    case Accept =>
      if Open(s.phase) then s.(members := s.members + [Member([SessionModel.Start], Live, 0)]) else s
    case Session(i, step) =>
      if i < |s.members| && !step.ResetStats? then s.(members := s.members[i := Advance(s.members[i], step)]) else s
    case Disconnect(i) =>
      if Open(s.phase) && InPlace(s, i, Live) && Cleaned(s, i) then Absorb(s, i) else s
    case Stop => if s.phase == Up then s.(phase := Stopping) else s
    case Cleanup =>
      if s.phase == Stopping then Finish(s.(members := RetireAll(s.members), phase := Cleaning)) else s
    case Retired(i) =>
      if s.phase == Cleaning && InPlace(s, i, Retiring) && Cleaned(s, i) then Finish(Absorb(s, i)) else s
    case Reset =>
      if MayReset(s) then s.(members := ZeroAll(s.threshold, s.members), absorbed := NOTHING) else s
  }

  function Run(threshold: nat, events: seq<Event>): Server
    decreases |events|
  {
    if events == [] then Start(threshold)
    else Step(Run(threshold, events[..|events| - 1]), events[|events| - 1])
  }

  // ------------------------------------------------------------------
  // Sums over sessions
  // ------------------------------------------------------------------

  function Fold(total: Accounting, ms: seq<Member>, f: Member -> Accounting): Accounting {
    if ms == [] then total else Accumulate(Fold(total, ms[..|ms| - 1], f), f(ms[|ms| - 1]))
  }

  lemma {:induction false} FoldFrom(total: Accounting, x: Accounting, ms: seq<Member>, f: Member -> Accounting)
    ensures Fold(Accumulate(total, x), ms, f) == Accumulate(Fold(total, ms, f), x)
  {
    hide Accumulate;
    if ms != [] {
      var n := |ms| - 1;
      FoldFrom(total, x, ms[..n], f);
      AccumulateSwap(Fold(total, ms[..n], f), x, f(ms[n]));
    }
  }

  lemma {:induction false} FoldUpdate(total: Accounting, ms: seq<Member>, i: nat, m: Member, f: Member -> Accounting)
    requires i < |ms|
    ensures Accumulate(Fold(total, ms[i := m], f), f(ms[i])) == Accumulate(Fold(total, ms, f), f(m))
  {
    hide Accumulate;
    var n := |ms| - 1;
    if i == n {
      assert ms[i := m][..n] == ms[..n];
      AccumulateSwap(Fold(total, ms[..n], f), f(m), f(ms[n]));
    } else {
      assert ms[i := m][..n] == ms[..n][i := m];
      FoldUpdate(total, ms[..n], i, m, f);
      AccumulateSwap(Fold(total, ms[..n][i := m], f), f(ms[n]), f(ms[i]));
      AccumulateSwap(Fold(total, ms[..n], f), f(m), f(ms[n]));
    }
  }

  lemma FoldAppend(total: Accounting, ms: seq<Member>, m: Member, f: Member -> Accounting)
    ensures Fold(total, ms + [m], f) == Accumulate(Fold(total, ms, f), f(m))
  {
    assert (ms + [m])[..|ms|] == ms;
  }

  lemma {:induction false} FoldNothing(total: Accounting, ms: seq<Member>, f: Member -> Accounting)
    requires forall i | 0 <= i < |ms| :: f(ms[i]) == NOTHING
    ensures Fold(total, ms, f) == total
  {
    hide Accumulate;
    if ms != [] {
      FoldNothing(total, ms[..|ms| - 1], f);
      AccumulateNothing(total);
    }
  }

  lemma {:induction false} FoldSame(total: Accounting, ms: seq<Member>, ns: seq<Member>, f: Member -> Accounting,
                                    g: Member -> Accounting)
    requires |ms| == |ns| && forall i | 0 <= i < |ms| :: f(ms[i]) == g(ns[i])
    ensures Fold(total, ms, f) == Fold(total, ns, g)
  {
    if ms != [] {
      FoldSame(total, ms[..|ms| - 1], ns[..|ns| - 1], f, g);
    }
  }

  // ------------------------------------------------------------------
  // What the server reports, and what it should report
  // ------------------------------------------------------------------

  function PublishedIn(threshold: nat, p: Place): Member -> Accounting {
    (m: Member) => if m.place == p then Published(threshold, m) else NOTHING
  }

  /** stats(): the retained totals and the sessions of both maps. */
  function Report(s: Server): Accounting {
    Fold(Fold(s.absorbed, s.members, PublishedIn(s.threshold, Live)), s.members, PublishedIn(s.threshold, Retiring))
  }

  /** One request, whatever its epoch. */
  function One(r: Record): Accounting {
    Alone(r, r.epoch, None)
  }

  /** The requests of a log from `mark` on. */
  function Since(rs: seq<Record>, mark: nat): Accounting {
    if |rs| <= mark then NOTHING else Accumulate(Since(rs[..|rs| - 1], mark), One(rs[|rs| - 1]))
  }

  /** What a session contributed since the server's last reset or restart. */
  function Owed(threshold: nat): Member -> Accounting {
    (m: Member) => Since(SessionOf(threshold, m).ledger.records, m.mark)
  }

  function OwedIn(threshold: nat, p: Place): Member -> Accounting {
    (m: Member) => if m.place == p then Owed(threshold)(m) else NOTHING
  }

  /** The sum over all sessions the server ever had. */
  function Everything(s: Server): Accounting {
    Fold(NOTHING, s.members, Owed(s.threshold))
  }

  // ------------------------------------------------------------------
  // One session
  // ------------------------------------------------------------------

  /** The session's measurement epoch began at the mark. */
  predicate Marked(h: History, mark: nat) {
    mark <= |h.records| && forall k | 0 <= k < |h.records| :: h.records[k].epoch == h.epoch <==> mark <= k
  }

  lemma {:induction false} SnapshotIsSince(rs: seq<Record>, epoch: nat, mark: nat)
    requires forall k | 0 <= k < |rs| :: rs[k].epoch == epoch <==> mark <= k
    ensures Snapshot(rs, epoch, None) == Since(rs, mark)
  {
    hide Accumulate, Alone;
    if |rs| <= mark {
      SnapshotNothing(rs, epoch, None);
    } else {
      SnapshotIsSince(rs[..|rs| - 1], epoch, mark);
    }
  }

  lemma ApplyEpoch(h: History, op: Op)
    ensures Apply(h, op).epoch == h.epoch + if op.Reset? then 1 else 0
  {
  }

  /** Only reset_stats starts a new epoch. */
  lemma StepEpoch(s: SessionModel.State, e: SessionModel.Event)
    requires !e.ResetStats?
    ensures SessionModel.Step(s, e).ledger.epoch == s.ledger.epoch
  {
    hide Apply, SessionModel.Verdict, SessionModel.NeedsMutex;
    ApplyEpoch(s.ledger, End(ExplicitStop));
    match e
    case Strand(throws) => StrandEpoch(s, throws);
    case Admitted => if s.admitting.Some? { ApplyEpoch(s.ledger, Admit(|s.admitting.value.data|, None)); }
    case AdmissionThrows(_) =>
      if s.admitting.Some? {
        var op := Admit(|s.admitting.value.data|, None);
        ApplyEpoch(s.ledger, op);
        ApplyEpoch(Apply(s.ledger, op), Rollback(s.admitting.value.id));
      }
    case _ =>
  }

  lemma StrandEpoch(s: SessionModel.State, throws: bool)
    ensures SessionModel.StrandStep(s, throws).ledger.epoch == s.ledger.epoch
  {
    hide Apply;
    forall op: Op ensures Apply(s.ledger, op).epoch == s.ledger.epoch + if op.Reset? then 1 else 0 {
      ApplyEpoch(s.ledger, op);
    }
    forall op: Op ensures Apply(Apply(s.ledger, op), End(ConnectionLoss)).epoch == Apply(s.ledger, op).epoch {
      ApplyEpoch(Apply(s.ledger, op), End(ConnectionLoss));
    }
  }

  lemma MarkedKept(s: SessionModel.State, e: SessionModel.Event, mark: nat)
    requires Marked(s.ledger, mark) && !e.ResetStats?
    ensures Marked(SessionModel.Step(s, e).ledger, mark)
  {
    hide SessionModel.Step;
    StepEpoch(s, e);
    SessionFates.StepLength(s, e);
    SessionFates.LedgerFollows(s, e);
    if SessionFates.Enters(e) && s.admitting.Some? {
      EnteredEpoch(s, e);
    }
  }

  /** A closing session's ledger is final, but for a new epoch. */
  lemma FinalLedger(threshold: nat, events: seq<SessionModel.Event>, e: SessionModel.Event)
    requires SessionModel.Reach(threshold, events).life.closing
    ensures var s, t := SessionModel.Reach(threshold, events), SessionModel.Reach(threshold, events + [e]);
            t.ledger.records == s.ledger.records && t.life.closing
  {
    hide SessionModel.Step, SessionFates.Linked, SessionFates.Handed, SessionFates.Numbered, Sane;
    var s := SessionModel.Reach(threshold, events);
    assert (events + [e])[..|events + [e]| - 1] == events;
    SessionFates.LedgerMatchesSession(threshold, events);
    SessionFates.StepLength(s, e);
    SessionFates.LedgerFollows(s, e);
    SessionBytes.ClosingIsForever(s, e);
    var t := SessionModel.Step(s, e);
    forall k | 0 <= k < |s.ledger.records| ensures t.ledger.records[k] == s.ledger.records[k] {
      assert Follows(s.ledger.records[k], t.ledger.records[k]);
    }
  }

  lemma {:induction false} CleanedIsClosing(threshold: nat, events: seq<SessionModel.Event>)
    ensures var s := SessionModel.Reach(threshold, events); s.life.cleaned ==> s.life.closing
    decreases |events|
  {
    hide SessionModel.Step;
    if events != [] {
      CleanedIsClosing(threshold, events[..|events| - 1]);
      StepCleaned(SessionModel.Reach(threshold, events[..|events| - 1]), events[|events| - 1]);
    }
  }

  lemma StepCleaned(s: SessionModel.State, e: SessionModel.Event)
    requires s.life.cleaned ==> s.life.closing
    ensures SessionModel.Step(s, e).life.cleaned ==> SessionModel.Step(s, e).life.closing
  {
    hide Apply, SessionModel.Verdict, SessionModel.NeedsMutex;
    SessionBytes.ClosingIsForever(s, e);
  }

  // ------------------------------------------------------------------
  // Every step keeps the books
  // ------------------------------------------------------------------

  /** A session in a map counts from its mark; an absorbed one is final. */
  predicate Kept(threshold: nat, m: Member) {
    var s := SessionOf(threshold, m);
    if m.place == Absorbed then s.life.closing && m.mark <= |s.ledger.records| else Marked(s.ledger, m.mark)
  }

  predicate AllKept(s: Server) {
    forall i | 0 <= i < |s.members| :: Kept(s.threshold, s.members[i])
  }

  /** The maps are used one after the other. */
  predicate Phased(s: Server) {
    match s.phase
    case Down => Nobody(s, Live) && Nobody(s, Retiring)
    case Up => Nobody(s, Retiring)
    case Stopping => Nobody(s, Retiring)
    case Cleaning => Nobody(s, Live)
  }

  /** The retained totals are what absorbed sessions contributed. */
  predicate Retained(s: Server) {
    s.absorbed == Fold(NOTHING, s.members, OwedIn(s.threshold, Absorbed))
  }

  predicate Books(s: Server) {
    AllKept(s) && Phased(s) && Retained(s)
  }

  lemma PublishedIsOwed(threshold: nat, m: Member)
    requires Kept(threshold, m) && m.place != Absorbed
    ensures Published(threshold, m) == Owed(threshold)(m)
  {
    hide SessionModel.Reach, Snapshot, Since;
    var h := SessionOf(threshold, m).ledger;
    SnapshotIsSince(h.records, h.epoch, m.mark);
  }

  lemma PhasedKept(s: Server, e: Event)
    requires Phased(s)
    ensures Phased(Step(s, e))
  {
    hide SessionModel.Reach, Accumulate, Snapshot;
  }

  lemma AdvanceKeeps(threshold: nat, m: Member, e: SessionModel.Event)
    requires Kept(threshold, m) && !e.ResetStats?
    ensures Kept(threshold, Advance(m, e))
    ensures m.place == Absorbed ==> Owed(threshold)(Advance(m, e)) == Owed(threshold)(m)
  {
    hide SessionModel.Step, Since, Marked;
    var s := SessionOf(threshold, m);
    assert (m.events + [e])[..|m.events + [e]| - 1] == m.events;
    if m.place == Absorbed {
      FinalLedger(threshold, m.events, e);
    } else {
      MarkedKept(s, e, m.mark);
    }
  }

  lemma EpochBegins(threshold: nat, events: seq<SessionModel.Event>)
    ensures EpochsBegun(SessionModel.Reach(threshold, events).ledger)
    decreases |events|
  {
    hide SessionModel.Step, Apply;
    if events != [] {
      var before, e := events[..|events| - 1], events[|events| - 1];
      var s := SessionModel.Reach(threshold, before);
      EpochBegins(threshold, before);
      SessionFates.StepLength(s, e);
      SessionFates.LedgerFollows(s, e);
      if e.ResetStats? {
        ResetEpoch(s);
      } else {
        StepEpoch(s, e);
        if SessionFates.Enters(e) && s.admitting.Some? {
          EnteredEpoch(s, e);
        }
      }
    }
  }

  lemma ResetEpoch(s: SessionModel.State)
    ensures SessionModel.Step(s, SessionModel.ResetStats).ledger
            == if s.admitting.Some? then s.ledger else s.ledger.(epoch := s.ledger.epoch + 1)
  {
  }

  /** A new request belongs to the current epoch, also one that is rolled back at once. */
  lemma EnteredEpoch(s: SessionModel.State, e: SessionModel.Event)
    requires s.admitting.Some? && SessionFates.Enters(e)
    ensures var t := SessionModel.Step(s, e);
            |t.ledger.records| == |s.ledger.records| + 1 && t.ledger.records[|s.ledger.records|].epoch == s.ledger.epoch
  {
  }

  /** Starting over leaves nothing owed. */
  lemma ZeroedOwesNothing(threshold: nat, m: Member)
    requires Kept(threshold, m) && (m.place == Absorbed || SessionOf(threshold, m).admitting.None?)
    ensures Kept(threshold, Zeroed(threshold, m)) && Owed(threshold)(Zeroed(threshold, m)) == NOTHING
  {
    hide SessionModel.Step;
    if m.place != Absorbed {
      EpochBegins(threshold, m.events);
      var events := m.events + [SessionModel.ResetStats];
      assert events[..|events| - 1] == m.events;
      ResetEpoch(SessionOf(threshold, m));
    }
  }

  lemma ZeroAllKeeps(s: Server)
    requires AllKept(s) && MayReset(s)
    ensures var t := s.(members := ZeroAll(s.threshold, s.members), absorbed := NOTHING);
            AllKept(t) && Retained(t)
  {
    hide Kept, SessionModel.Reach, Zeroed, SessionOf;
    var t := s.(members := ZeroAll(s.threshold, s.members), absorbed := NOTHING);
    forall i | 0 <= i < |t.members|
      ensures Kept(t.threshold, t.members[i]) && Owed(t.threshold)(t.members[i]) == NOTHING
    {
      ZeroedOwesNothing(s.threshold, s.members[i]);
    }
    FoldNothing(NOTHING, t.members, OwedIn(t.threshold, Absorbed));
  }

  lemma AbsorbKeeps(s: Server, i: nat)
    requires AllKept(s) && Retained(s) && Cleaned(s, i) && s.members[i].place != Absorbed
    ensures AllKept(Absorb(s, i)) && Retained(Absorb(s, i))
  {
    hide SessionModel.Reach, Fold, Accumulate, Snapshot, Since;
    var m := s.members[i];
    var f := OwedIn(s.threshold, Absorbed);
    CleanedIsClosing(s.threshold, m.events);
    PublishedIsOwed(s.threshold, m);
    FoldUpdate(NOTHING, s.members, i, m.(place := Absorbed), f);
    AccumulateNothing(Fold(NOTHING, s.members[i := m.(place := Absorbed)], f));
  }

  lemma SessionKeeps(s: Server, i: nat, e: SessionModel.Event)
    requires AllKept(s) && Retained(s) && i < |s.members| && !e.ResetStats?
    ensures var t := s.(members := s.members[i := Advance(s.members[i], e)]);
            AllKept(t) && Retained(t)
  {
    hide SessionModel.Reach, Fold, Accumulate, Since, Kept;
    var m := s.members[i];
    var f := OwedIn(s.threshold, Absorbed);
    AdvanceKeeps(s.threshold, m, e);
    FoldUpdate(NOTHING, s.members, i, Advance(m, e), f);
    AccumulateCancel(Fold(NOTHING, s.members[i := Advance(m, e)], f), Fold(NOTHING, s.members, f), f(m));
  }

  lemma RetireKeeps(s: Server)
    requires AllKept(s) && Retained(s)
    ensures var t := s.(members := RetireAll(s.members), phase := Cleaning);
            AllKept(t) && Retained(t)
  {
    hide SessionModel.Reach, Fold, Since, Marked;
    var f := OwedIn(s.threshold, Absorbed);
    FoldSame(NOTHING, s.members, RetireAll(s.members), f, f);
  }

  lemma AcceptKeeps(s: Server)
    requires AllKept(s) && Retained(s)
    ensures var t := s.(members := s.members + [Member([SessionModel.Start], Live, 0)]);
            AllKept(t) && Retained(t)
  {
    hide Fold, Since, Accumulate;
    var m := Member([SessionModel.Start], Live, 0);
    assert [SessionModel.Start][..0] == [];
    FoldAppend(NOTHING, s.members, m, OwedIn(s.threshold, Absorbed));
    AccumulateNothing(Fold(NOTHING, s.members, OwedIn(s.threshold, Absorbed)));
  }

  lemma BooksKept(s: Server, e: Event)
    requires Books(s)
    ensures Books(Step(s, e))
  {
    hide AllKept, Retained, Phased, SessionModel.Reach, Absorb, ZeroAll, RetireAll, Advance, MayReset, Cleaned;
    assert Phased(Step(s, e)) by { PhasedKept(s, e); }
    match e
    case Restart => if s.phase == Down { RestartKeeps(s); }
    case Accept => if Open(s.phase) { AcceptKeeps(s); }
    case Session(i, step) => if i < |s.members| && !step.ResetStats? { SessionKeeps(s, i, step); }
    case Disconnect(i) => if InPlace(s, i, Live) && Cleaned(s, i) { AbsorbKeeps(s, i); }
    case Stop => SameBooks(s, Step(s, e));
    case Cleanup =>
      if s.phase == Stopping {
        RetireKeeps(s);
        SameBooks(s.(members := RetireAll(s.members), phase := Cleaning), Step(s, e));
      }
    case Retired(i) =>
      if InPlace(s, i, Retiring) && Cleaned(s, i) { AbsorbKeeps(s, i); SameBooks(Absorb(s, i), Finish(Absorb(s, i))); }
    case Reset => if MayReset(s) { ZeroAllKeeps(s); }
  }

  lemma RestartKeeps(s: Server)
    requires Books(s) && s.phase == Down
    ensures AllKept(Step(s, Restart)) && Retained(Step(s, Restart))
  {
    hide SessionModel.Reach, Fold, ZeroAll, Kept, Zeroed, Retained;
    assert MayReset(s);
    ZeroAllKeeps(s);
    SameBooks(s.(members := ZeroAll(s.threshold, s.members), absorbed := NOTHING), Step(s, Restart));
  }

  lemma SameBooks(s: Server, t: Server)
    requires t.members == s.members && t.absorbed == s.absorbed && t.threshold == s.threshold
    ensures AllKept(s) ==> AllKept(t)
    ensures Retained(s) ==> Retained(t)
  {
  }

  lemma {:induction false} Reachable(threshold: nat, events: seq<Event>)
    ensures Books(Run(threshold, events)) && Run(threshold, events).threshold == threshold
    decreases |events|
  {
    hide Step, AllKept, Retained, Phased;
    if events == [] {
      StartsEmpty(threshold);
    } else {
      var s := Run(threshold, events[..|events| - 1]);
      Reachable(threshold, events[..|events| - 1]);
      BooksKept(s, events[|events| - 1]);
      ThresholdStays(s, events[|events| - 1]);
    }
  }

  lemma StartsEmpty(threshold: nat)
    ensures Books(Start(threshold))
  {
  }

  lemma ThresholdStays(s: Server, e: Event)
    ensures Step(s, e).threshold == s.threshold
  {
    hide SessionModel.Reach;
  }

  // ------------------------------------------------------------------
  // The report is exact
  // ------------------------------------------------------------------

  lemma {:induction false} FoldSplit(threshold: nat, ms: seq<Member>)
    ensures Fold(Fold(Fold(NOTHING, ms, OwedIn(threshold, Absorbed)), ms, OwedIn(threshold, Live)), ms,
                 OwedIn(threshold, Retiring))
            == Fold(NOTHING, ms, Owed(threshold))
  {
    hide Accumulate, SessionModel.Reach, Since;
    if ms != [] {
      var a, l, r := OwedIn(threshold, Absorbed), OwedIn(threshold, Live), OwedIn(threshold, Retiring);
      var p, m := ms[..|ms| - 1], ms[|ms| - 1];
      FoldSplit(threshold, p);
      var x := Owed(threshold)(m);
      var sa := Fold(NOTHING, p, a);
      var sl := Fold(sa, p, l);
      AccumulateNothing(sa);
      AccumulateNothing(sl);
      AccumulateNothing(Fold(sl, p, r));
      AccumulateNothing(Fold(Accumulate(sa, x), p, l));
      AccumulateNothing(Fold(Accumulate(sl, x), p, r));
      FoldFrom(sa, x, p, l);
      FoldFrom(sl, x, p, r);
    }
  }

  lemma StatsIsOwed(s: Server)
    requires Books(s)
    ensures Report(s) == Everything(s)
  {
    hide Accumulate, SessionModel.Reach, Fold, Since, Snapshot, Kept;
    forall i | 0 <= i < |s.members| && s.members[i].place != Absorbed
      ensures Published(s.threshold, s.members[i]) == Owed(s.threshold)(s.members[i])
    {
      PublishedIsOwed(s.threshold, s.members[i]);
    }
    FoldSame(s.absorbed, s.members, s.members, PublishedIn(s.threshold, Live), OwedIn(s.threshold, Live));
    var live := Fold(s.absorbed, s.members, OwedIn(s.threshold, Live));
    FoldSame(live, s.members, s.members, PublishedIn(s.threshold, Retiring), OwedIn(s.threshold, Retiring));
    FoldSplit(s.threshold, s.members);
  }

  lemma {:induction false} SinceConserves(rs: seq<Record>, mark: nat)
    requires Sane(rs)
    ensures Conserved(Since(rs, mark)) && ConfirmedWithinWire(Since(rs, mark))
  {
    if |rs| > mark {
      var r := rs[|rs| - 1];
      SinceConserves(rs[..|rs| - 1], mark);
      AloneIsConserved(r, r.epoch, None);
      AccumulateConserves(Since(rs[..|rs| - 1], mark), One(r));
    }
  }

  lemma MemberConserves(threshold: nat, m: Member)
    ensures Conserved(Owed(threshold)(m)) && ConfirmedWithinWire(Owed(threshold)(m))
  {
    hide SessionModel.Reach, Since, SessionFates.Numbered, SessionFates.Settled, SessionFates.Linked,
      SessionFates.Handed;
    SessionFates.LedgerMatchesSession(threshold, m.events);
    SinceConserves(SessionOf(threshold, m).ledger.records, m.mark);
  }

  predicate Lawful(a: Accounting) {
    Conserved(a) && ConfirmedWithinWire(a)
  }

  lemma {:induction false} FoldLawful(ms: seq<Member>, f: Member -> Accounting)
    requires forall m :: Lawful(f(m))
    ensures Lawful(Fold(NOTHING, ms, f))
  {
    hide Accumulate, Conserved, ConfirmedWithinWire;
    if ms == [] {
      NothingLawful();
    } else {
      FoldLawful(ms[..|ms| - 1], f);
      AccumulateLawful(Fold(NOTHING, ms[..|ms| - 1], f), f(ms[|ms| - 1]));
    }
  }

  lemma AccumulateLawful(x: Accounting, y: Accounting)
    requires Lawful(x) && Lawful(y)
    ensures Lawful(Accumulate(x, y))
  {
    hide Accumulate, Conserved, ConfirmedWithinWire;
    AccumulateConserves(x, y);
  }

  lemma NothingLawful()
    ensures Lawful(NOTHING)
  {
    hide Conserved, ConfirmedWithinWire;
    ConservationLaw([], 0, None);
  }

  lemma OwedConserves(threshold: nat, ms: seq<Member>)
    ensures Lawful(Fold(NOTHING, ms, Owed(threshold)))
  {
    hide Fold, Owed;
    forall m ensures Lawful(Owed(threshold)(m)) {
      MemberConserves(threshold, m);
    }
    FoldLawful(ms, Owed(threshold));
  }

  /**
   In every reachable state of every server: stats() is exactly the sum, over
   all sessions the server ever accepted, of the requests they admitted since
   the last reset or restart, and it obeys the conservation law.
   */
  lemma StatsAreExact(threshold: nat, events: seq<Event>)
    ensures var s := Run(threshold, events);
            && Report(s) == Everything(s)
            && Conserved(Report(s)) && ConfirmedWithinWire(Report(s))
  {
    hide Run, Books, Report, Fold;
    Reachable(threshold, events);
    var s := Run(threshold, events);
    StatsIsOwed(s);
    OwedConserves(threshold, s.members);
  }

  // ------------------------------------------------------------------
  // Sessions move while stats() walks over them
  // ------------------------------------------------------------------

  /** The session some steps of its own later. */
  predicate Later(m: Member, n: Member) {
    && m.events <= n.events && n == m.(events := n.events)
    && forall k | |m.events| <= k < |n.events| :: !n.events[k].ResetStats?
  }

  /** Steps of one session can be taken on their own. */
  lemma {:induction false} AdvanceOne(threshold: nat, events: seq<Event>, i: nat, n: Member) returns (more: seq<Event>)
    requires var s := Run(threshold, events); i < |s.members| && Later(s.members[i], n)
    ensures var s := Run(threshold, events);
            Run(threshold, events + more) == s.(members := s.members[i := n])
    decreases |n.events|
  {
    hide Step;
    var s := Run(threshold, events);
    var m := s.members[i];
    if n.events == m.events {
      more := [];
      assert events + more == events && s.members[i := n] == s.members;
    } else {
      var before, last := n.(events := n.events[..|n.events| - 1]), n.events[|n.events| - 1];
      more := AdvanceOne(threshold, events, i, before);
      var t := Run(threshold, events + more);
      assert (events + (more + [Session(i, last)]))[..|events + more|] == events + more;
      assert events + (more + [Session(i, last)]) == events + more + [Session(i, last)];
      StepOne(t, i, last);
      assert n.events == before.events + [last];
      assert s.members[i := before][i := n] == s.members[i := n];
      more := more + [Session(i, last)];
    }
  }

  lemma StepOne(s: Server, i: nat, e: SessionModel.Event)
    requires i < |s.members| && !e.ResetStats?
    ensures Step(s, Session(i, e)) == s.(members := s.members[i := Advance(s.members[i], e)])
  {
  }

  /**
   Sessions are independent: any of their later states, taken together, are the
   sessions of one reachable state of the server.
   */
  lemma {:induction false} AnyCutIsReachable(threshold: nat, events: seq<Event>, ms: seq<Member>, i: nat)
    returns (more: seq<Event>)
    requires var s := Run(threshold, events);
             |ms| == |s.members| && i <= |ms| && forall k | 0 <= k < |ms| :: Later(s.members[k], ms[k])
    ensures var s := Run(threshold, events);
            Run(threshold, events + more) == s.(members := ms[..i] + s.members[i..])
    decreases i
  {
    hide Later, Run;
    var s := Run(threshold, events);
    if i == 0 {
      more := [];
      assert events + more == events && ms[..0] + s.members[0..] == s.members;
    } else {
      more := AnyCutIsReachable(threshold, events, ms, i - 1);
      CutAt(ms, s.members, i);
      var last := AdvanceOne(threshold, events + more, i - 1, ms[i - 1]);
      assert events + (more + last) == events + more + last;
      more := more + last;
    }
  }

  lemma CutAt(ms: seq<Member>, ns: seq<Member>, i: nat)
    requires |ms| == |ns| && 0 < i <= |ms|
    ensures var cut := ms[..i - 1] + ns[i - 1..];
            |cut| == |ms| && cut[i - 1] == ns[i - 1] && cut[i - 1 := ms[i - 1]] == ms[..i] + ns[i..]
  {
  }

  /** While only sessions step, the server changes by their steps alone. */
  lemma {:induction false} OnlySessions(threshold: nat, events: seq<Event>, during: seq<Event>, i: nat)
    requires (forall k | 0 <= k < |during| :: during[k].Session?) && i < |Run(threshold, events).members|
    ensures var s, t := Run(threshold, events), Run(threshold, events + during);
            |t.members| == |s.members| && Later(s.members[i], t.members[i])
    decreases |during|
  {
    if during == [] {
      assert events + during == events;
    } else {
      var before := during[..|during| - 1];
      OnlySessions(threshold, events, before, i);
      assert (events + during)[..|events + during| - 1] == events + before;
      assert (events + during)[|events + during| - 1] == during[|during| - 1];
    }
  }

  /** Each session as it was when the walk came to it. */
  function Seen(threshold: nat, events: seq<Event>, during: seq<Event>, times: seq<nat>): seq<Member>
    requires |times| == |Run(threshold, events).members|
    requires forall i | 0 <= i < |times| ::
               times[i] <= |during| && i < |Run(threshold, events + during[..times[i]]).members|
  {
    seq(|times|, i requires 0 <= i < |times| => Run(threshold, events + during[..times[i]]).members[i])
  }

  /**
   stats() holds the session map still but not the sessions: it may see each of
   them at a different moment. What it reports is exact all the same, for the
   sessions as it saw them, and conserves.
   */
  lemma WalksAreExact(threshold: nat, events: seq<Event>, during: seq<Event>, times: seq<nat>)
    requires forall k | 0 <= k < |during| :: during[k].Session?
    requires |times| == |Run(threshold, events).members|
    requires forall i | 0 <= i < |times| ::
               times[i] <= |during| && i < |Run(threshold, events + during[..times[i]]).members|
    ensures var s := Run(threshold, events).(members := Seen(threshold, events, during, times));
            && Report(s) == Everything(s)
            && Conserved(Report(s)) && ConfirmedWithinWire(Report(s))
  {
    hide Run, Report, Fold, Conserved, ConfirmedWithinWire, Later;
    var ms := Seen(threshold, events, during, times);
    var s := Run(threshold, events);
    forall i | 0 <= i < |ms| ensures Later(s.members[i], ms[i]) {
      OnlySessions(threshold, events, during[..times[i]], i);
    }
    var more := AnyCutIsReachable(threshold, events, ms, |ms|);
    assert ms[..|ms|] + s.members[|ms|..] == ms;
    StatsAreExact(threshold, events + more);
  }

  /** A session is absorbed once, and only after nothing of it can change any more. */
  lemma {:induction false} AbsorbedIsFinal(threshold: nat, events: seq<Event>, more: seq<Event>, i: nat)
    requires InPlace(Run(threshold, events), i, Absorbed)
    ensures var s, t := Run(threshold, events), Run(threshold, events + more);
            && InPlace(t, i, Absorbed)
            && SessionOf(threshold, t.members[i]).ledger.records == SessionOf(threshold, s.members[i]).ledger.records
            && forall k | 0 <= k < |SessionOf(threshold, s.members[i]).ledger.records| ::
                 !SendHistory.Live(SessionOf(threshold, s.members[i]).ledger.records[k])
    decreases |more|
  {
    hide SessionModel.Reach, Step, SendHistory.Live, SessionFates.Numbered, SessionFates.Linked, SessionFates.Handed;
    var s := Run(threshold, events);
    Reachable(threshold, events);
    SessionFates.LedgerMatchesSession(threshold, s.members[i].events);
    if more == [] {
      assert events + more == events;
    } else {
      var init, e := more[..|more| - 1], more[|more| - 1];
      AbsorbedIsFinal(threshold, events, init, i);
      assert (events + more)[..|events + more| - 1] == events + init;
      assert (events + more)[|events + more| - 1] == e;
      Reachable(threshold, events + init);
      AbsorbedStays(Run(threshold, events + init), e, i);
    }
  }

  lemma AbsorbedStays(s: Server, e: Event, i: nat)
    requires AllKept(s) && InPlace(s, i, Absorbed)
    ensures InPlace(Step(s, e), i, Absorbed)
    ensures SessionOf(s.threshold, Step(s, e).members[i]).ledger.records
            == SessionOf(s.threshold, s.members[i]).ledger.records
  {
    hide SessionModel.Reach, Accumulate, Snapshot;
    if e.Session? && e.i == i {
      FinalLedger(s.threshold, s.members[i].events, e.step);
    }
  }

  // ------------------------------------------------------------------
  // A stop is carried out
  // ------------------------------------------------------------------

  lemma RunNext(threshold: nat, events: seq<Event>, e: Event)
    ensures Run(threshold, events + [e]) == Step(Run(threshold, events), e)
  {
    hide Step;
    assert (events + [e])[..|events|] == events;
  }

  function RetireFirst(n: nat): (r: seq<Event>)
    ensures |r| == n && forall i | 0 <= i < n :: r[i] == Retired(i)
  {
    seq(n, i requires 0 <= i < n => Retired(i))
  }

  /** The first k sessions are out of the retiring map, the others as they were when cleanup began. */
  predicate RetiredUpTo(s: Server, t: Server, k: nat) {
    && t.threshold == s.threshold && |t.members| == |s.members| && k <= |s.members|
    && (forall i | 0 <= i < k :: t.members[i].place == Absorbed)
    && (forall i | k <= i < |s.members| :: t.members[i] == Retire(s.members[i]))
    && t.phase == if Nobody(t, Retiring) then Down else Cleaning
  }

  lemma RetireOne(s: Server, t: Server, k: nat)
    requires RetiredUpTo(s, t, k) && k < |s.members| && Cleaned(s, k)
    ensures RetiredUpTo(s, Step(t, Retired(k)), k + 1)
  {
    hide SessionModel.Reach, Published, Accumulate;
    assert t.members[k].events == s.members[k].events;
    if t.members[k].place == Retiring {
      assert !Nobody(t, Retiring);
    }
  }

  lemma {:induction false} RetireMany(threshold: nat, events: seq<Event>, k: nat)
    requires var s := Run(threshold, events);
             && s.phase == Up && Nobody(s, Retiring) && k <= |s.members|
             && forall i | 0 <= i < |s.members| :: Cleaned(s, i)
    ensures RetiredUpTo(Run(threshold, events), Run(threshold, events + [Stop, Cleanup] + RetireFirst(k)), k)
    decreases k
  {
    hide SessionModel.Reach, Run, Cleaned, Published;
    var s := Run(threshold, events);
    if k == 0 {
      assert events + [Stop, Cleanup] + RetireFirst(0) == events + [Stop] + [Cleanup];
      RunNext(threshold, events, Stop);
      RunNext(threshold, events + [Stop], Cleanup);
    } else {
      RetireMany(threshold, events, k - 1);
      assert RetireFirst(k) == RetireFirst(k - 1) + [Retired(k - 1)];
      assert events + [Stop, Cleanup] + RetireFirst(k)
             == (events + [Stop, Cleanup] + RetireFirst(k - 1)) + [Retired(k - 1)];
      RunNext(threshold, events + [Stop, Cleanup] + RetireFirst(k - 1), Retired(k - 1));
      RetireOne(s, Run(threshold, events + [Stop, Cleanup] + RetireFirst(k - 1)), k - 1);
    }
  }

  /**
   From every reachable state in which the server is up and its sessions have ended, a
   stop is carried out: every session is absorbed, the server is down, and stats() is
   still the sum over all of them.
   */
  lemma StopIsCarriedOut(threshold: nat, events: seq<Event>)
    requires var s := Run(threshold, events); s.phase == Up && forall i | 0 <= i < |s.members| :: Cleaned(s, i)
    ensures var s := Run(threshold, events);
            var t := Run(threshold, events + [Stop, Cleanup] + RetireFirst(|s.members|));
            && t.phase == Down && |t.members| == |s.members|
            && (forall i | 0 <= i < |t.members| :: t.members[i].place == Absorbed)
            && t.absorbed == Everything(t) && Conserved(t.absorbed)
  {
    hide SessionModel.Reach, Run, Cleaned, Published, Everything, AllKept, Retained, Conserved, ConfirmedWithinWire;
    var s := Run(threshold, events);
    Reachable(threshold, events);
    RetireMany(threshold, events, |s.members|);
    var more := events + [Stop, Cleanup] + RetireFirst(|s.members|);
    StatsAreExact(threshold, more);
    AllAbsorbed(Run(threshold, more));
  }

  lemma AllAbsorbed(s: Server)
    requires forall i | 0 <= i < |s.members| :: s.members[i].place == Absorbed
    ensures Report(s) == s.absorbed
  {
    hide Fold, Published;
    FoldNothing(s.absorbed, s.members, PublishedIn(s.threshold, Live));
    FoldNothing(s.absorbed, s.members, PublishedIn(s.threshold, Retiring));
  }

  /** A server that may take connections does, and a session that ended leaves its map with its totals kept. */
  lemma SessionsComeAndGo(threshold: nat, events: seq<Event>, i: nat)
    requires Open(Run(threshold, events).phase)
    ensures var s, t := Run(threshold, events), Run(threshold, events + [Accept]);
            InPlace(t, |s.members|, Live) && |t.members| == |s.members| + 1 && t.members[..|s.members|] == s.members
    ensures var s, t := Run(threshold, events), Run(threshold, events + [Disconnect(i)]);
            InPlace(s, i, Live) && Cleaned(s, i) ==> InPlace(t, i, Absorbed) && Everything(t) == Everything(s)
  {
    hide SessionModel.Reach, Run, Cleaned, Published, Fold, Accumulate, Since;
    RunNext(threshold, events, Accept);
    RunNext(threshold, events, Disconnect(i));
    var s := Run(threshold, events);
    if InPlace(s, i, Live) && Cleaned(s, i) {
      var t := Run(threshold, events + [Disconnect(i)]);
      FoldSame(NOTHING, s.members, t.members, Owed(s.threshold), Owed(t.threshold));
    }
  }

  // ------------------------------------------------------------------
  // The server
  // ------------------------------------------------------------------

  function SumSet(total: Accounting, books: seq<Accounting>, ids: set<nat>): Accounting {
    if books == [] then total
    else
      var n := |books| - 1;
      var sum := SumSet(total, books[..n], ids);
      if n in ids then Accumulate(sum, books[n]) else sum
  }

  /** A map may be walked in any order. */
  lemma {:induction false} SumSetPick(total: Accounting, books: seq<Accounting>, ids: set<nat>, id: nat)
    requires id in ids
    ensures SumSet(total, books, ids)
            == SumSet(if id < |books| then Accumulate(total, books[id]) else total, books, ids - {id})
  {
    hide Accumulate;
    if books != [] {
      var n := |books| - 1;
      SumSetPick(total, books[..n], ids, id);
      if id == n {
        SumSetFrom(total, books[n], books[..n], ids - {id});
      }
    }
  }

  lemma {:induction false} SumSetFrom(total: Accounting, x: Accounting, books: seq<Accounting>, ids: set<nat>)
    ensures SumSet(Accumulate(total, x), books, ids) == Accumulate(SumSet(total, books, ids), x)
  {
    hide Accumulate;
    if books != [] {
      var n := |books| - 1;
      SumSetFrom(total, x, books[..n], ids);
      AccumulateSwap(SumSet(total, books[..n], ids), x, books[n]);
    }
  }

  lemma {:induction false} SumSetNone(total: Accounting, books: seq<Accounting>)
    ensures SumSet(total, books, {}) == total
  {
    if books != [] {
      SumSetNone(total, books[..|books| - 1]);
    }
  }

  lemma {:induction false} FoldIsSumSet(total: Accounting, threshold: nat, ms: seq<Member>, books: seq<Accounting>,
                                        ids: set<nat>, p: Place)
    requires |books| == |ms| && forall i | 0 <= i < |ms| :: books[i] == Published(threshold, ms[i])
    requires forall i | 0 <= i < |ms| :: i in ids <==> ms[i].place == p
    ensures Fold(total, ms, PublishedIn(threshold, p)) == SumSet(total, books, ids)
  {
    hide Accumulate, Published;
    if ms != [] {
      var n := |ms| - 1;
      FoldIsSumSet(total, threshold, ms[..n], books[..n], ids, p);
      AccumulateNothing(SumSet(total, books[..n], ids));
    }
  }

  function PlaceOf(sessions: set<nat>, retiring: set<nat>, id: nat): Place {
    if id in sessions then Live else if id in retiring then Retiring else Absorbed
  }

  function MembersOf(runs: seq<seq<SessionModel.Event>>, sessions: set<nat>, retiring: set<nat>,
                     marks: seq<nat>): (ms: seq<Member>)
    requires |marks| == |runs|
    ensures |ms| == |runs| && forall i | 0 <= i < |ms| ::
              ms[i] == Member(runs[i], PlaceOf(sessions, retiring, i), marks[i])
  {
    seq(|runs|, i requires 0 <= i < |runs| => Member(runs[i], PlaceOf(sessions, retiring, i), marks[i]))
  }

  function PublishedBy(threshold: nat, ms: seq<Member>): (books: seq<Accounting>)
    ensures |books| == |ms| && forall i | 0 <= i < |ms| :: books[i] == Published(threshold, ms[i])
  {
    seq(|ms|, i requires 0 <= i < |ms| => Published(threshold, ms[i]))
  }

  /** How many requests each session has admitted. */
  function AdmittedBy(threshold: nat, runs: seq<seq<SessionModel.Event>>): (r: seq<nat>)
    ensures |r| == |runs| && forall i | 0 <= i < |r| :: r[i] == |SessionModel.Reach(threshold, runs[i]).ledger.records|
  {
    seq(|runs|, i requires 0 <= i < |runs| => |SessionModel.Reach(threshold, runs[i]).ledger.records|)
  }

  /** sessions_ and retiring_sessions_ by client id, and closed_send_accounting_; each session is its run so far. */
  class TcpServer {
    const threshold: nat
    var runs: seq<seq<SessionModel.Event>>
    var sessions: set<nat>
    var retiring: set<nat>
    var closed: Accounting
    var phase: Phase
    ghost var marks: seq<nat>

    ghost predicate Valid()
      reads this
    {
      && |marks| == |runs| && sessions !! retiring
      && (forall id | id in sessions :: id < |runs|) && (forall id | id in retiring :: id < |runs|)
    }

    ghost function Members(): seq<Member>
      requires |marks| == |runs|
      reads this
    {
      MembersOf(runs, sessions, retiring, marks)
    }

    ghost function View(): Server
      requires Valid()
      reads this
    {
      Server(threshold, Members(), closed, phase)
    }

    constructor (t: nat)
      ensures Valid() && View() == Start(t)
    {
      threshold := t;
      runs, sessions, retiring, closed, phase := [], {}, {}, NOTHING, Down;
      marks := [];
    }

    /** The session's stats(). */
    function StatsOf(id: nat): (a: Accounting)
      requires Valid() && id < |runs|
      reads this
      ensures a == Published(threshold, Members()[id])
    {
      var h := SessionModel.Reach(threshold, runs[id]).ledger;
      Snapshot(h.records, h.epoch, None)
    }

    /** do_close is past its lock. */
    predicate IsCleaned(id: nat)
      reads this
    {
      id < |runs| && SessionModel.Reach(threshold, runs[id]).life.cleaned
    }

    method Accept()
      requires Valid()
      modifies this
      ensures Valid() && View() == Step(old(View()), Event.Accept)
    {
      hide SessionModel.Reach, Published;
      if !Open(phase) { return; }
      sessions := sessions + {|runs|};
      runs := runs + [[SessionModel.Start]];
      marks := marks + [0];
      assert View().members == old(View()).members + [Member([SessionModel.Start], Live, 0)];
    }

    method StepSession(id: nat, e: SessionModel.Event)
      requires Valid()
      modifies this`runs
      ensures Valid() && View() == Step(old(View()), Session(id, e))
    {
      hide SessionModel.Reach, Published;
      if id >= |runs| || e.ResetStats? { return; }
      runs := runs[id := runs[id] + [e]];
      assert View().members == old(View()).members[id := Advance(old(View()).members[id], e)];
    }

    /** absorb_session and the erase, whichever map holds it. */
    method AbsorbSession(id: nat)
      requires Valid() && id in sessions + retiring
      modifies this`closed, this`sessions, this`retiring
      ensures Valid() && View() == Absorb(old(View()), id)
      ensures id in old(sessions) ==> retiring == old(retiring)
    {
      hide SessionModel.Reach, Published, Accumulate;
      closed := Accumulate(closed, StatsOf(id));
      sessions, retiring := sessions - {id}, retiring - {id};
      assert View().members == old(View()).members[id := old(View()).members[id].(place := Absorbed)];
    }

    /** The handler on_close posts. */
    method OnClose(id: nat)
      requires Valid()
      modifies this
      ensures Valid() && View() == Step(old(View()), Disconnect(id))
    {
      hide SessionModel.Reach, Absorb, Published;
      if Open(phase) && id in sessions && IsCleaned(id) {
        AbsorbSession(id);
      }
    }

    method Stop()
      requires Valid()
      modifies this`phase
      ensures Valid() && View() == Step(old(View()), Event.Stop)
    {
      hide SessionModel.Reach, Published;
      if phase == Up { phase := Stopping; }
    }

    /** perform_cleanup, and finish_cleanup when there is nobody to wait for. */
    method PerformCleanup()
      requires Valid() && Phased(View())
      modifies this
      ensures Valid() && View() == Step(old(View()), Cleanup)
    {
      hide SessionModel.Reach, Published;
      if phase != Stopping { return; }
      RetiringIs(old(View()));
      sessions, retiring := retiring, sessions;
      phase := Cleaning;
      assert View().members == RetireAll(old(View()).members);
      FinishCleanup();
    }

    /** Before cleanup nobody is retiring. */
    lemma RetiringIs(s: Server)
      requires Valid() && s == View() && Phased(s) && s.phase == Stopping
      ensures retiring == {}
    {
      hide MembersOf;
      forall id: nat ensures id !in retiring {
        RetiringIsListed(id);
      }
    }

    lemma RetiringIsListed(id: nat)
      requires Valid()
      ensures id in retiring ==> !Nobody(View(), Retiring)
    {
      if id in retiring {
        assert View().members[id].place == Retiring;
      }
    }

    method FinishCleanup()
      requires Valid()
      modifies this`phase
      ensures Valid() && View() == Finish(old(View()))
    {
      hide SessionModel.Reach, Published;
      if retiring == {} {
        phase := Down;
      } else {
        ghost var id :| id in retiring;
        assert View().members[id].place == Retiring;
      }
    }

    /** The handler posted when a session's async_stop completed. */
    method OnRetired(id: nat)
      requires Valid()
      modifies this
      ensures Valid() && View() == Step(old(View()), Retired(id))
    {
      hide SessionModel.Reach, Absorb, Published, Finish;
      if phase == Cleaning && id in retiring && IsCleaned(id) {
        AbsorbSession(id);
        FinishCleanup();
      }
    }

    method Stats() returns (total: Accounting)
      requires Valid()
      ensures total == Report(View())
    {
      hide Accumulate, Fold, SumSet, Published;
      ghost var ms := Members();
      ghost var books := PublishedBy(threshold, ms);
      total := AddAll(closed, sessions, books);
      FoldIsSumSet(closed, threshold, ms, books, sessions, Live);
      FoldIsSumSet(total, threshold, ms, books, retiring, Retiring);
      total := AddAll(total, retiring, books);
    }

    /** One of the two loops of stats(). */
    method AddAll(start: Accounting, ids: set<nat>, ghost books: seq<Accounting>) returns (total: Accounting)
      requires Valid() && ids <= sessions + retiring
      requires |books| == |runs| && forall i | 0 <= i < |runs| :: books[i] == StatsOf(i)
      ensures total == SumSet(start, books, ids)
    {
      hide Accumulate, SumSet, Published, SessionModel.Reach;
      total := start;
      var todo := ids;
      while todo != {}
        invariant todo <= ids
        invariant SumSet(total, books, todo) == SumSet(start, books, ids)
      {
        var id :| id in todo;
        SumSetPick(total, books, todo, id);
        total := Accumulate(total, StatsOf(id));
        todo := todo - {id};
      }
      SumSetNone(total, books);
    }

    /** reset_stats, which waits for every session's submission mutex. */
    method ResetStats()
      requires Valid()
      modifies this
      ensures Valid() && View() == Step(old(View()), Event.Reset)
    {
      hide SessionModel.Reach, Published;
      var free := forall id | id in sessions + retiring :: SessionModel.Reach(threshold, runs[id]).admitting.None?;
      FreeMeans(View());
      if !free { return; }
      Zero();
    }

    lemma FreeMeans(s: Server)
      requires Valid() && s == View()
      ensures MayReset(s) <==> forall id | id in sessions + retiring ::
                SessionModel.Reach(threshold, runs[id]).admitting.None?
    {
      hide SessionModel.Reach;
      forall id | id in sessions + retiring
        ensures s.members[id].events == runs[id] && s.members[id].place != Absorbed
      {
      }
    }

    /** Everything starts over: the retained totals, and every session in the maps. */
    method Zero()
      requires Valid()
      modifies this`closed, this`runs, this`marks
      ensures Valid() && View() == old(View()).(members := ZeroAll(threshold, old(View()).members), absorbed := NOTHING)
    {
      hide SessionModel.Reach, Published;
      closed := NOTHING;
      marks := AdmittedBy(threshold, runs);
      ResetEach(sessions + retiring);
      assert View().members == ZeroAll(threshold, old(View()).members);
    }

    /** The loops of reset_stats. */
    method ResetEach(ids: set<nat>)
      requires forall id | id in ids :: id < |runs|
      modifies this`runs
      ensures |runs| == |old(runs)|
      ensures forall i | 0 <= i < |runs| ::
                runs[i] == if i in ids then old(runs)[i] + [SessionModel.ResetStats] else old(runs)[i]
    {
      var todo := ids;
      while todo != {}
        invariant todo <= ids && |runs| == |old(runs)|
        invariant forall i | 0 <= i < |runs| ::
                    runs[i] == if i in ids - todo then old(runs)[i] + [SessionModel.ResetStats] else old(runs)[i]
      {
        var id :| id in todo;
        runs := runs[id := runs[id] + [SessionModel.ResetStats]];
        todo := todo - {id};
      }
    }

    /** start(). */
    method Restart()
      requires Valid() && Phased(View())
      modifies this
      ensures Valid() && View() == Step(old(View()), Event.Restart)
    {
      hide SessionModel.Reach, Published, Zeroed;
      if phase != Down { return; }
      Zero();
      phase := Up;
    }

    method Handle(e: Event)
      requires Valid() && Phased(View())
      modifies this
      ensures Valid() && View() == Step(old(View()), e)
    {
      hide Step;
      match e
      case Restart => Restart();
      case Accept => Accept();
      case Session(i, step) => StepSession(i, step);
      case Disconnect(i) => OnClose(i);
      case Stop => Stop();
      case Cleanup => PerformCleanup();
      case Retired(i) => OnRetired(i);
      case Reset => ResetStats();
    }
  }

  /**
   Every run of the server object is the model's run, and what its stats() then
   returns is the sum over all sessions it ever had, and conserves.
   */
  method Replay(threshold: nat, events: seq<Event>) returns (s: TcpServer, total: Accounting)
    ensures s.Valid() && s.View() == Run(threshold, events)
    ensures total == Everything(Run(threshold, events)) && Conserved(total) && ConfirmedWithinWire(total)
  {
    s := new TcpServer(threshold);
    var k := 0;
    assert events[..0] == [];
    while k < |events|
      invariant 0 <= k <= |events| && fresh(s)
      invariant s.Valid() && s.View() == Run(threshold, events[..k])
    {
      hide Step, AllKept, Retained;
      assert events[..k + 1][..k] == events[..k] && events[..k + 1][k] == events[k];
      Reachable(threshold, events[..k]);
      s.Handle(events[k]);
      k := k + 1;
    }
    hide Run, Report, Everything, Conserved, ConfirmedWithinWire;
    assert events[..k] == events;
    total := s.Stats();
    StatsAreExact(threshold, events);
  }
}
