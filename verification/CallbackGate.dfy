/**
 CallbackGate (wirestead/wrapper/callback_guard.hpp): admission of user callbacks
 by run, and the wait that ends a run. Every operation holds the gate's mutex, so
 a run of the gate is any sequence of them.
 */
module CallbackGate {
  import opened Options
  import opened Stepwise

  type ThreadId = nat

  /** running_, closed_, generation_ and threads_. */
  datatype Gate = Gate(running: int, closed: bool, generation: nat, threads: seq<ThreadId>)

  const NEW_GATE := Gate(0, false, 0, [])

  // ------------------------------------------------------------------
  // The operations
  // ------------------------------------------------------------------

  predicate Admits(g: Gate, generation: nat) {
    !g.closed && generation == g.generation
  }

  function Entered(g: Gate, thread: ThreadId, generation: nat): Gate {
    if Admits(g, generation) then g.(running := g.running + 1, threads := g.threads + [thread]) else g
  }

  function Erased(threads: seq<ThreadId>, thread: ThreadId): seq<ThreadId> {
    if threads == [] then []
    else if threads[0] == thread then threads[1..]
    else [threads[0]] + Erased(threads[1..], thread)
  }

  /** Erasing the first occurrence, by position. */
  lemma {:induction false} ErasedAt(threads: seq<ThreadId>, thread: ThreadId, i: nat)
    requires i <= |threads| && forall j | 0 <= j < i :: threads[j] != thread
    ensures i == |threads| ==> Erased(threads, thread) == threads
    ensures i < |threads| && threads[i] == thread ==> Erased(threads, thread) == threads[..i] + threads[i + 1..]
  {
    if i > 0 {
      ErasedAt(threads[1..], thread, i - 1);
      assert threads == [threads[0]] + threads[1..];
      if i < |threads| {
        assert threads[1..][i..] == threads[i + 1..];
        assert threads[..i] == [threads[0]] + threads[1..][..i - 1];
      }
    }
  }

  /** ~Lease on the releasing thread. */
  function Left(g: Gate, thread: ThreadId): Gate {
    g.(running := g.running - 1, threads := Erased(g.threads, thread))
  }

  class CallbackGate {
    var running: int
    var closed: bool
    var generation: nat
    var threads: seq<ThreadId>

    ghost function View(): Gate
      reads this
    {
      Gate(running, closed, generation, threads)
    }

    constructor ()
      ensures View() == NEW_GATE
    {
      running, closed, generation, threads := 0, false, 0, [];
    }

    method Enter(thread: ThreadId, run: nat) returns (admitted: bool)
      modifies this
      ensures admitted == Admits(old(View()), run)
      ensures View() == Entered(old(View()), thread, run)
    {
      if closed || run != generation { return false; }
      running := running + 1;
      threads := threads + [thread];
      return true;
    }

    /** Releases an admitted lease: std::find and erase. */
    method Leave(thread: ThreadId)
      modifies this
      ensures View() == Left(old(View()), thread)
    {
      running := running - 1;
      var i := 0;
      while i < |threads| && threads[i] != thread
        invariant 0 <= i <= |threads|
        invariant forall j | 0 <= j < i :: threads[j] != thread
      {
        i := i + 1;
      }
      ErasedAt(threads, thread, i);
      if i < |threads| {
        threads := threads[..i] + threads[i + 1..];
      }
    }

    method Close()
      modifies this`closed
      ensures closed
    {
      closed := true;
    }

    method OpenNewGeneration() returns (run: nat)
      modifies this`closed, this`generation
      ensures !closed && run == generation == old(generation) + 1
    {
      closed := false;
      generation := generation + 1;
      return generation;
    }

    method ActiveOn(thread: ThreadId) returns (active: bool)
      ensures active == (thread in threads)
    {
      active := thread in threads;
    }

    method IsIdle() returns (idle: bool)
      ensures idle == (running == 0)
    {
      idle := running == 0;
    }
  }

  // ------------------------------------------------------------------
  // Runs
  // ------------------------------------------------------------------

  /** One admitted callback: the run it was admitted for, the thread that entered, and whether it still runs. */
  datatype Lease = Lease(generation: nat, thread: ThreadId, held: bool)

  datatype State = State(gate: Gate, leases: seq<Lease>)

  datatype Event =
    | Enter(thread: ThreadId, generation: nat)
    | Leave(lease: nat, thread: ThreadId)
    | Close
    | Open

  function Step(s: State, e: Event): State {
    match e
    case Enter(thread, generation) =>
      if Admits(s.gate, generation) then
        State(Entered(s.gate, thread, generation), s.leases + [Lease(generation, thread, true)])
      else s
    case Leave(i, thread) =>
      if i < |s.leases| && s.leases[i].held then
        State(Left(s.gate, thread), s.leases[i := s.leases[i].(held := false)])
      else s
    case Close => s.(gate := s.gate.(closed := true))
    case Open => s.(gate := s.gate.(closed := false, generation := s.gate.generation + 1))
  }

  function Run(events: seq<Event>): State
    decreases |events|
  {
    if events == [] then State(NEW_GATE, []) else Step(Run(events[..|events| - 1]), events[|events| - 1])
  }

  function HeldCount(leases: seq<Lease>): nat {
    if leases == [] then 0
    else HeldCount(leases[..|leases| - 1]) + (if leases[|leases| - 1].held then 1 else 0)
  }

  lemma {:induction false} HeldUpdate(leases: seq<Lease>, i: nat)
    requires i < |leases| && leases[i].held
    ensures HeldCount(leases[i := leases[i].(held := false)]) == HeldCount(leases) - 1
  {
    var n := |leases| - 1;
    if i < n {
      assert leases[i := leases[i].(held := false)][..n] == leases[..n][i := leases[i].(held := false)];
      HeldUpdate(leases[..n], i);
    } else {
      assert leases[i := leases[i].(held := false)][..n] == leases[..n];
    }
  }

  lemma {:induction false} NoneHeld(leases: seq<Lease>, i: nat)
    requires HeldCount(leases) == 0 && i < |leases|
    ensures !leases[i].held
  {
    if i < |leases| - 1 {
      NoneHeld(leases[..|leases| - 1], i);
    }
  }

  /** The running count always equals the outstanding leases. */
  lemma {:induction false} RunningCountsLeases(events: seq<Event>)
    ensures Run(events).gate.running == HeldCount(Run(events).leases)
    decreases |events|
  {
    if events != [] {
      var s, e := Run(events[..|events| - 1]), events[|events| - 1];
      RunningCountsLeases(events[..|events| - 1]);
      match e
      case Enter(thread, generation) =>
        assert (s.leases + [Lease(generation, thread, true)])[..|s.leases|] == s.leases;
      case Leave(i, thread) =>
        if i < |s.leases| && s.leases[i].held {
          HeldUpdate(s.leases, i);
        }
      case _ =>
    }
  }

  /**
   Every run of the gate object is a run of the model, so its count is the
   outstanding leases; it is idle when none is held, and if every lease was
   released where it was taken it knows which threads are inside a callback.
   */
  method Replay(events: seq<Event>, who: ThreadId)
    returns (gate: CallbackGate, leases: seq<Lease>, idle: bool, active: bool)
    ensures fresh(gate) && State(gate.View(), leases) == Run(events)
    ensures gate.running == HeldCount(leases)
    ensures idle <==> forall i | 0 <= i < |leases| :: !leases[i].held
    ensures OwnThread(events) ==> (active <==> Inside(leases, who))
  {
    hide Erased, HeldCount;
    gate := new CallbackGate();
    leases := [];
    var k := 0;
    assert events[..0] == [];
    while k < |events|
      invariant 0 <= k <= |events| && fresh(gate)
      invariant State(gate.View(), leases) == Run(events[..k])
    {
      assert events[..k + 1][..k] == events[..k] && events[..k + 1][k] == events[k];
      match events[k] {
        case Enter(thread, generation) =>
          var admitted := gate.Enter(thread, generation);
          if admitted { leases := leases + [Lease(generation, thread, true)]; }
        case Leave(i, thread) =>
          if i < |leases| && leases[i].held {
            gate.Leave(thread);
            leases := leases[i := leases[i].(held := false)];
          }
        case Close => gate.Close();
        case Open => var _ := gate.OpenNewGeneration();
      }
      k := k + 1;
    }
    assert events[..k] == events;
    RunningCountsLeases(events);
    idle := gate.IsIdle();
    IdleMeansNoneHeld(leases);
    active := gate.ActiveOn(who);
    if OwnThread(events) { ActiveIsExact(events, who); }
  }

  lemma {:induction false} IdleMeansNoneHeld(leases: seq<Lease>)
    ensures HeldCount(leases) == 0 <==> forall i | 0 <= i < |leases| :: !leases[i].held
  {
    if leases != [] {
      IdleMeansNoneHeld(leases[..|leases| - 1]);
      assert forall i | 0 <= i < |leases| - 1 :: leases[..|leases| - 1][i] == leases[i];
    }
  }

  /** How many runs were opened. */
  function Opens(events: seq<Event>): nat {
    if events == [] then 0
    else Opens(events[..|events| - 1]) + (if events[|events| - 1].Open? then 1 else 0)
  }

  /** The gate was closed and not opened since. */
  predicate Shut(events: seq<Event>) {
    events != [] &&
    var e := events[|events| - 1];
    e.Close? || (!e.Open? && Shut(events[..|events| - 1]))
  }

  /**
   A callback is admitted exactly when it belongs to the run opened last and that
   run was not closed: then it is counted and held; otherwise nothing happens.
   */
  lemma AdmissionIsExact(events: seq<Event>, thread: ThreadId, run: nat)
    ensures var s, t := Run(events), Run(events + [Enter(thread, run)]);
            if run == Opens(events) && !Shut(events) then
              t.leases == s.leases + [Lease(run, thread, true)] && t.gate.running == s.gate.running + 1
            else t == s
  {
    hide Erased;
    assert (events + [Enter(thread, run)])[..|events|] == events;
    RunTracksOpens(events);
  }

  lemma {:induction false} RunTracksOpens(events: seq<Event>)
    ensures Run(events).gate.generation == Opens(events) && Run(events).gate.closed == Shut(events)
    decreases |events|
  {
    hide Erased;
    if events != [] {
      RunTracksOpens(events[..|events| - 1]);
    }
  }

  /** Generations up to `sealed` are over: leases numbered from `from` on belong to later runs. */
  predicate Sealed(s: State, sealed: nat, from: nat) {
    && from <= |s.leases|
    && (s.gate.generation > sealed || (s.gate.generation == sealed && s.gate.closed))
    && forall i | from <= i < |s.leases| :: s.leases[i].generation > sealed
  }

  /** Later states of a run: leases are only added, and a released one stays released. */
  predicate Grew(s: State, t: State) {
    |s.leases| <= |t.leases| && forall i | 0 <= i < |s.leases| :: t.leases[i].held ==> s.leases[i].held
  }

  lemma {:induction false} Forever(events: seq<Event>, i: nat, sealed: nat, from: nat)
    requires i <= |events| && Sealed(Run(events[..i]), sealed, from)
    ensures Sealed(Run(events), sealed, from) && Grew(Run(events[..i]), Run(events))
    decreases |events|
  {
    if i < |events| {
      var n := |events| - 1;
      assert events[..n][..i] == events[..i];
      Forever(events[..n], i, sealed, from);
    } else {
      assert events[..i] == events;
    }
  }

  /**
   Shutdown is complete: once the gate was closed (after `closing` events) and a
   later wait saw it idle (after `idle` events), no callback admitted for that
   run or an earlier one runs in any later state, whatever is opened meanwhile;
   and none was admitted after the close.
   */
  lemma ShutdownIsComplete(events: seq<Event>, closing: nat, idle: nat, lease: nat)
    requires closing <= idle <= |events|
    requires Run(events[..closing]).gate.closed && Run(events[..idle]).gate.running == 0
    requires lease < |Run(events).leases|
    requires Run(events).leases[lease].generation <= Run(events[..closing]).gate.generation
    ensures lease < |Run(events[..closing]).leases|
    ensures !Run(events).leases[lease].held
  {
    var shut, seen := Run(events[..closing]), Run(events[..idle]);
    var sealed, from := shut.gate.generation, |shut.leases|;
    assert events[..idle][..closing] == events[..closing];
    Forever(events, closing, sealed, from);
    Forever(events[..idle], closing, sealed, from);
    Forever(events, idle, sealed, from);
    RunningCountsLeases(events[..idle]);
    if lease < |seen.leases| {
      NoneHeld(seen.leases, lease);
    }
  }

  // ------------------------------------------------------------------
  // Who is inside a callback
  // ------------------------------------------------------------------

  /** A lease that is still held is released by the thread that entered. */
  predicate OwnStep(s: State, e: Event) {
    e.Leave? && e.lease < |s.leases| && s.leases[e.lease].held ==> s.leases[e.lease].thread == e.thread
  }

  /** Every release of the run is by the thread that entered. */
  ghost predicate OwnThread(events: seq<Event>) {
    forall k | 0 <= k < |events| :: OwnStep(Run(events[..k]), events[k])
  }

  /** How many callbacks a thread is inside of. */
  function Depth(leases: seq<Lease>, thread: ThreadId): nat {
    if leases == [] then 0
    else
      var last := leases[|leases| - 1];
      Depth(leases[..|leases| - 1], thread) + (if last.held && last.thread == thread then 1 else 0)
  }

  lemma {:induction false} DepthUpdate(leases: seq<Lease>, i: nat, thread: ThreadId)
    requires i < |leases| && leases[i].held
    ensures Depth(leases[i := leases[i].(held := false)], thread)
            == Depth(leases, thread) - if leases[i].thread == thread then 1 else 0
  {
    var n := |leases| - 1;
    if i < n {
      assert leases[i := leases[i].(held := false)][..n] == leases[..n][i := leases[i].(held := false)];
      DepthUpdate(leases[..n], i, thread);
    } else {
      assert leases[i := leases[i].(held := false)][..n] == leases[..n];
    }
  }

  lemma {:induction false} ErasedOnce(threads: seq<ThreadId>, thread: ThreadId)
    ensures multiset(Erased(threads, thread)) == multiset(threads) - multiset{thread}
  {
    if threads != [] {
      assert threads == [threads[0]] + threads[1..];
      ErasedOnce(threads[1..], thread);
    }
  }

  /** threads_ lists each thread as often as it is inside a callback. */
  ghost predicate ListedExactly(s: State) {
    forall who: ThreadId :: Listed(s, who)
  }

  predicate Listed(s: State, who: ThreadId) {
    multiset(s.gate.threads)[who] == Depth(s.leases, who)
  }

  /** One step from an exact list leaves it exact, except a release by another thread. */
  lemma ListedStep(s: State, e: Event)
    requires ListedExactly(s)
    ensures ListedExactly(Step(s, e)) <==> OwnStep(s, e)
  {
    hide Depth, Erased, ListedExactly;
    if e.Leave? && e.lease < |s.leases| && s.leases[e.lease].held && !OwnStep(s, e) {
      ListedLeave(s, e, s.leases[e.lease].thread);
      NotListed(Step(s, e), s.leases[e.lease].thread);
    } else {
      forall who: ThreadId ensures Listed(Step(s, e), who) {
        if e.Leave? {
          ListedLeave(s, e, who);
        } else {
          ListedEnter(s, e, who);
        }
      }
      AllListed(Step(s, e));
    }
  }

  lemma AllListed(s: State)
    requires forall who: ThreadId :: Listed(s, who)
    ensures ListedExactly(s)
  {
  }

  lemma NotListed(s: State, who: ThreadId)
    requires !Listed(s, who)
    ensures !ListedExactly(s)
  {
  }

  lemma ListedEnter(s: State, e: Event, who: ThreadId)
    requires ListedExactly(s) && !e.Leave?
    ensures Listed(Step(s, e), who)
  {
    assert Listed(s, who);
    if e.Enter? {
      assert (s.leases + [Lease(e.generation, e.thread, true)])[..|s.leases|] == s.leases;
    }
  }

  lemma ListedLeave(s: State, e: Event, who: ThreadId)
    requires ListedExactly(s) && e.Leave?
    ensures var held := e.lease < |s.leases| && s.leases[e.lease].held;
            && (OwnStep(s, e) ==> Listed(Step(s, e), who))
            && (held && !OwnStep(s, e) && who == s.leases[e.lease].thread ==> !Listed(Step(s, e), who))
  {
    hide Depth, Erased;
    assert Listed(s, who);
    if e.lease < |s.leases| && s.leases[e.lease].held {
      DepthUpdate(s.leases, e.lease, who);
      HeldIsDeep(s.leases, e.lease);
      ErasedOnce(s.gate.threads, e.thread);
    }
  }

  lemma {:induction false} HeldIsDeep(leases: seq<Lease>, i: nat)
    requires i < |leases| && leases[i].held
    ensures Depth(leases, leases[i].thread) > 0
  {
    if i < |leases| - 1 {
      HeldIsDeep(leases[..|leases| - 1], i);
    }
  }

  ghost predicate AlwaysListed(events: seq<Event>) {
    forall k | 0 <= k <= |events| :: ListedExactly(Run(events[..k]))
  }

  /**
   The list of threads is exact in every state of a run exactly when every
   release of the run is by the thread that entered.
   */
  lemma ThreadsAreInside(events: seq<Event>)
    ensures AlwaysListed(events) <==> OwnThread(events)
  {
    hide ListedExactly, OwnStep, Step;
    var good := (k: nat) => k <= |events| && ListedExactly(Run(events[..k]));
    var bad := (k: nat) => k < |events| && !OwnStep(Run(events[..k]), events[k]);
    NobodyListed();
    assert events[..0] == [];
    forall k | 0 <= k < |events| && good(k) ensures good(k + 1) <==> !bad(k) {
      RunSnoc(events, k);
      ListedStep(Run(events[..k]), events[k]);
    }
    AlwaysIffNever(|events|, good, bad);
    assert forall k | 0 <= k <= |events| :: good(k) <==> ListedExactly(Run(events[..k]));
    assert forall k | 0 <= k < |events| :: bad(k) <==> !OwnStep(Run(events[..k]), events[k]);
  }

  lemma RunSnoc(events: seq<Event>, k: nat)
    requires k < |events|
    ensures Run(events[..k + 1]) == Step(Run(events[..k]), events[k])
  {
    assert events[..k + 1][..k] == events[..k];
  }

  lemma NobodyListed()
    ensures ListedExactly(Run([]))
  {
  }

  predicate Inside(leases: seq<Lease>, thread: ThreadId) {
    exists i | 0 <= i < |leases| :: leases[i].held && leases[i].thread == thread
  }

  lemma {:induction false} DepthMeans(leases: seq<Lease>, thread: ThreadId)
    ensures Depth(leases, thread) > 0 <==> Inside(leases, thread)
  {
    if leases != [] {
      var n := |leases| - 1;
      DepthMeans(leases[..n], thread);
      if Inside(leases[..n], thread) {
        var i :| 0 <= i < n && leases[..n][i].held && leases[..n][i].thread == thread;
        assert leases[i].held && leases[i].thread == thread;
      }
    }
  }

  /** active_on_this_thread is right for every thread, so no thread waits for its own callback. */
  lemma ActiveIsExact(events: seq<Event>, thread: ThreadId)
    requires OwnThread(events)
    ensures thread in Run(events).gate.threads <==> Inside(Run(events).leases, thread)
  {
    ThreadsAreInside(events);
    assert AlwaysListed(events) && events[..|events|] == events;
    assert ListedExactly(Run(events)) && Listed(Run(events), thread);
    DepthMeans(Run(events).leases, thread);
    assert thread in Run(events).gate.threads <==> thread in multiset(Run(events).gate.threads);
  }

  /** A lease moved to another thread and released there leaves its entry behind. */
  lemma MovedLeaseLeavesItsThread()
    ensures var s := Run([Enter(1, 0), Leave(0, 2)]);
            s.gate.running == 0 && 1 in s.gate.threads
  {
    var events := [Enter(1, 0), Leave(0, 2)];
    assert events[..1] == [Enter(1, 0)] && events[..1][..0] == [];
    assert Run(events[..1]) == State(Gate(1, false, 0, [1]), [Lease(0, 1, true)]);
  }
}
