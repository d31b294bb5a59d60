/**
 The receive budget (wirestead/wrapper/receive_budget.hpp) at the grain of its
 atomic operations: any number of threads reserve, release, merge, shrink and
 open or close sessions, interleaved after every load, compare-exchange, add and
 subtract.
 */
module ReceiveBudget {

  const WORD: nat := 0x1_0000_0000_0000_0000

  /** size_t arithmetic. */
  function Plus(a: nat, b: nat): nat {
    (a + b) % WORD
  }

  function Minus(a: nat, b: nat): nat {
    (a - b) % WORD
  }

  /** ReceiveLimits. */
  datatype Limits = Limits(maxBytes: nat, maxSessions: nat)

  predicate ValidLimits(l: Limits) {
    0 < l.maxBytes < WORD && 0 < l.maxSessions < WORD
  }

  /** A ReceiveCharge; a destroyed one holds nothing. */
  datatype Charge = Charge(scope: nat, bytes: nat, live: bool)

  /** A ReceiveScope: its used_ and whether it still exists. */
  datatype Scope = Scope(used: nat, open: bool)

  /** What a thread is in the middle of. */
  datatype Thread =
    | Idle
      // ReceiveScope::reserve
    | Loaded(scope: nat, bytes: nat, seen: nat)     // used_ was read
    | Acquired(scope: nat, bytes: nat)              // the budget has the bytes
    | Scoped(scope: nat, bytes: nat)                // so has the scope; no charge object yet
      // ReceiveScope::release
    | Releasing(scope: nat, bytes: nat)
    | Released(scope: nat, bytes: nat)              // off the scope, still on the budget
      // ReceiveBudget::open_scope
    | Counting(seen: nat)
    | Counted                                       // sessions_ has the session; no scope object yet

  datatype State = State(limits: Limits, used: nat, sessions: nat, scopes: seq<Scope>, charges: seq<Charge>,
                         threads: seq<Thread>)

  function Start(limits: Limits, threads: nat): State {
    State(limits, 0, 0, [], [], seq(threads, _ => Idle))
  }

  datatype Event =
    | Reserve(t: nat, scope: nat, bytes: nat)
    | Acquire(t: nat, spurious: bool)
    | AddToScope(t: nat)
    | MakeCharge(t: nat, fails: bool)
    | Destroy(t: nat, charge: nat)
    | Shrink(t: nat, charge: nat, bytes: nat)
    | SubtractFromScope(t: nat)
    | SubtractFromBudget(t: nat)
    | Merge(charge: nat, other: nat)
    | OpenScope(t: nat)
    | CountSession(t: nat, spurious: bool)
    | MakeScope(t: nat, fails: bool)
    | CloseScope(scope: nat)

  // ------------------------------------------------------------------
  // Steps
  // ------------------------------------------------------------------

  predicate At(s: State, t: nat) {
    t < |s.threads|
  }

  function Set(s: State, t: nat, thread: Thread): State
    requires At(s, t)
  {
    s.(threads := s.threads[t := thread])
  }

  /** A scope object cannot go away while a charge or a running call refers to it. */
  predicate Unreferenced(s: State, k: nat) {
    && (forall i | 0 <= i < |s.charges| :: s.charges[i].live ==> s.charges[i].scope != k)
    && (forall t | 0 <= t < |s.threads| :: !Mentions(s.threads[t], k))
  }

  predicate Mentions(thread: Thread, k: nat) {
    Refers(thread) && thread.scope == k
  }

  predicate Refers(thread: Thread) {
    thread.Loaded? || thread.Acquired? || thread.Scoped? || thread.Releasing? || thread.Released?
  }

  predicate Exists(s: State, k: nat) {
    k < |s.scopes| && s.scopes[k].open
  }

  predicate Live(s: State, i: nat) {
    i < |s.charges| && s.charges[i].live
  }

  /** One atomic operation; an event that cannot happen in this state changes nothing. */
  function Step(s: State, e: Event): State {
    match e
    case Reserve(t, k, bytes) =>
      if At(s, t) && s.threads[t].Idle? && Exists(s, k) && bytes < WORD then Set(s, t, Loaded(k, bytes, s.used)) else s
    case Acquire(t, spurious) =>
      if At(s, t) && s.threads[t].Loaded? then StepAcquire(s, t, s.threads[t], spurious) else s
    case AddToScope(t) =>
      if At(s, t) && s.threads[t].Acquired? then StepAddToScope(s, t, s.threads[t].scope, s.threads[t].bytes) else s
    case MakeCharge(t, fails) =>
      if At(s, t) && s.threads[t].Scoped? then
        StepMakeCharge(s, t, s.threads[t].scope, s.threads[t].bytes, fails)
      else s
    case Destroy(t, i) =>
      if At(s, t) && s.threads[t].Idle? && Live(s, i) then StepLower(s, t, i, 0, false) else s
    case Shrink(t, i, bytes) =>
      if At(s, t) && s.threads[t].Idle? && Live(s, i) && bytes <= s.charges[i].bytes then
        StepLower(s, t, i, bytes, true)
      else s
    case SubtractFromScope(t) =>
      if At(s, t) && s.threads[t].Releasing? then
        StepSubtractFromScope(s, t, s.threads[t].scope, s.threads[t].bytes)
      else s
    case SubtractFromBudget(t) =>
      if At(s, t) && s.threads[t].Released? then Set(s, t, Idle).(used := Minus(s.used, s.threads[t].bytes)) else s
    case Merge(i, j) =>
      if Live(s, i) && Live(s, j) && i != j && s.charges[i].scope == s.charges[j].scope then StepMerge(s, i, j) else s
    case OpenScope(t) =>
      if At(s, t) && s.threads[t].Idle? then Set(s, t, Counting(s.sessions)) else s
    case CountSession(t, spurious) =>
      if At(s, t) && s.threads[t].Counting? then StepCount(s, t, s.threads[t].seen, spurious) else s
    case MakeScope(t, fails) =>
      if !(At(s, t) && s.threads[t].Counted?) then s
      else if fails then Set(s, t, Idle).(sessions := Minus(s.sessions, 1))
      else Set(s, t, Idle).(scopes := s.scopes + [Scope(0, true)])
    case CloseScope(k) =>
      if Exists(s, k) && Unreferenced(s, k) then
        s.(scopes := s.scopes[k := s.scopes[k].(open := false)], sessions := Minus(s.sessions, 1))
      else s
  }

  /** One round of acquire: refuse, take the bytes, or see a newer value. */
  function StepAcquire(s: State, t: nat, thread: Thread, spurious: bool): State
    requires At(s, t) && thread.Loaded?
  {
    if thread.bytes > Minus(s.limits.maxBytes, thread.seen) then Set(s, t, Idle)
    else if spurious || thread.seen != s.used then Set(s, t, thread.(seen := s.used))
    else Set(s, t, Acquired(thread.scope, thread.bytes)).(used := Plus(s.used, thread.bytes))
  }

  function StepAddToScope(s: State, t: nat, k: nat, bytes: nat): State
    requires At(s, t)
  {
    if k < |s.scopes| then
      Set(s, t, Scoped(k, bytes)).(scopes := s.scopes[k := s.scopes[k].(used := Plus(s.scopes[k].used, bytes))])
    else s
  }

  /** The charge object, or its allocation fails and the bytes go back. */
  function StepMakeCharge(s: State, t: nat, k: nat, bytes: nat, fails: bool): State
    requires At(s, t)
  {
    if fails then Set(s, t, Releasing(k, bytes))
    else Set(s, t, Idle).(charges := s.charges + [Charge(k, bytes, true)])
  }

  /** A charge destroyed or shrunk; its size is only read by its owner, so it is lowered at once. */
  function StepLower(s: State, t: nat, i: nat, bytes: nat, live: bool): State
    requires At(s, t) && i < |s.charges| && bytes <= s.charges[i].bytes
  {
    var c := s.charges[i];
    Set(s, t, Releasing(c.scope, c.bytes - bytes)).(charges := s.charges[i := Charge(c.scope, bytes, live)])
  }

  function StepSubtractFromScope(s: State, t: nat, k: nat, bytes: nat): State
    requires At(s, t)
  {
    if k < |s.scopes| then
      Set(s, t, Released(k, bytes)).(scopes := s.scopes[k := s.scopes[k].(used := Minus(s.scopes[k].used, bytes))])
    else s
  }

  function StepMerge(s: State, i: nat, j: nat): State
    requires i < |s.charges| && j < |s.charges|
  {
    var a, b := s.charges[i], s.charges[j];
    s.(charges := s.charges[i := a.(bytes := Plus(a.bytes, b.bytes))][j := b.(bytes := 0)])
  }

  function StepCount(s: State, t: nat, seen: nat, spurious: bool): State
    requires At(s, t)
  {
    if seen >= s.limits.maxSessions then Set(s, t, Idle)
    else if spurious || seen != s.sessions then Set(s, t, Counting(s.sessions))
    else Set(s, t, Counted).(sessions := Plus(s.sessions, 1))
  }

  function Run(s: State, events: seq<Event>): State
    decreases |events|
  {
    if events == [] then s else Step(Run(s, events[..|events| - 1]), events[|events| - 1])
  }

  // ------------------------------------------------------------------
  // Sums
  // ------------------------------------------------------------------

  function Total<T>(s: seq<T>, f: T -> nat): nat {
    if s == [] then 0 else Total(s[..|s| - 1], f) + f(s[|s| - 1])
  }

  lemma {:induction false} TotalUpdate<T>(s: seq<T>, i: nat, x: T, f: T -> nat)
    requires i < |s|
    ensures Total(s[i := x], f) + f(s[i]) == Total(s, f) + f(x)
  {
    var n := |s| - 1;
    if i < n {
      assert s[i := x][..n] == s[..n][i := x];
      TotalUpdate(s[..n], i, x, f);
    } else {
      assert s[i := x][..n] == s[..n];
    }
  }

  lemma TotalAppend<T>(s: seq<T>, x: T, f: T -> nat)
    ensures Total(s + [x], f) == Total(s, f) + f(x)
  {
    assert (s + [x])[..|s|] == s;
  }

  lemma {:induction false} TotalCovers<T>(s: seq<T>, i: nat, f: T -> nat)
    requires i < |s|
    ensures f(s[i]) <= Total(s, f)
  {
    if i < |s| - 1 {
      TotalCovers(s[..|s| - 1], i, f);
    }
  }

  lemma {:induction false} TotalZero<T>(s: seq<T>, f: T -> nat)
    requires forall i | 0 <= i < |s| :: f(s[i]) == 0
    ensures Total(s, f) == 0
  {
    if s != [] {
      TotalZero(s[..|s| - 1], f);
    }
  }

  lemma {:induction false} TotalGap<T>(s: seq<T>, t: nat, f: T -> nat, g: T -> nat)
    requires t < |s| && forall i | 0 <= i < |s| :: f(s[i]) <= g(s[i])
    ensures Total(s, f) + g(s[t]) - f(s[t]) <= Total(s, g)
  {
    var n := |s| - 1;
    if t < n {
      TotalGap(s[..n], t, f, g);
    } else if n > 0 {
      TotalGap(s[..n], 0, f, g);
    }
  }

  lemma NoWrap(a: nat, b: nat)
    ensures a + b < WORD ==> Plus(a, b) == a + b
    ensures b <= a < WORD ==> Minus(a, b) == a - b
  {
  }

  // ------------------------------------------------------------------
  // The books
  // ------------------------------------------------------------------

  function Bytes(c: Charge): nat {
    c.bytes
  }

  function BytesIn(k: nat): Charge -> nat {
    (c: Charge) => if c.scope == k then c.bytes else 0
  }

  /** Bytes a running call holds on the budget. */
  function OnBudget(thread: Thread): nat {
    match thread
    case Acquired(_, b) => b
    case Scoped(_, b) => b
    case Releasing(_, b) => b
    case Released(_, b) => b
    case _ => 0
  }

  /** Bytes a running call holds on its scope. */
  function OnScope(thread: Thread): nat {
    match thread
    case Scoped(_, b) => b
    case Releasing(_, b) => b
    case _ => 0
  }

  function OnScopeIn(k: nat): Thread -> nat {
    (thread: Thread) => if Mentions(thread, k) then OnScope(thread) else 0
  }

  function Used(scope: Scope): nat {
    scope.used
  }

  function IsOpen(scope: Scope): nat {
    if scope.open then 1 else 0
  }

  function IsCounted(thread: Thread): nat {
    if thread.Counted? then 1 else 0
  }

  /** Everything refers to scopes that exist, and destroyed charges hold nothing. */
  predicate References(s: State) {
    ChargesRefer(s) && ThreadsRefer(s)
  }

  predicate ChargesRefer(s: State) {
    forall i | 0 <= i < |s.charges| ::
      if s.charges[i].live then Exists(s, s.charges[i].scope) else s.charges[i].bytes == 0
  }

  predicate ThreadsRefer(s: State) {
    forall t | 0 <= t < |s.threads| :: Referring(s, s.threads[t])
  }

  predicate Referring(s: State, thread: Thread) {
    Refers(thread) ==> Exists(s, thread.scope)
  }

  /** Values read from used_ were within the limit when read. */
  predicate Reads(s: State) {
    forall t | 0 <= t < |s.threads| ::
      s.threads[t].Loaded? ==> s.threads[t].seen <= s.limits.maxBytes && s.threads[t].bytes < WORD
  }

  /** The budget and all scopes together. */
  predicate BytesBalance(s: State) {
    && s.used == Total(s.charges, Bytes) + Total(s.threads, OnBudget) <= s.limits.maxBytes
    && Total(s.scopes, Used) == Total(s.charges, Bytes) + Total(s.threads, OnScope)
  }

  /** One scope. */
  predicate ScopeBalances(s: State, k: nat)
    requires k < |s.scopes|
  {
    s.scopes[k].used == Total(s.charges, BytesIn(k)) + Total(s.threads, OnScopeIn(k))
  }

  predicate ScopesBalance(s: State) {
    forall k | 0 <= k < |s.scopes| :: ScopeBalances(s, k)
  }

  predicate SessionsBalance(s: State) {
    s.sessions == Total(s.scopes, IsOpen) + Total(s.threads, IsCounted) <= s.limits.maxSessions
  }

  predicate Law(s: State) {
    ValidLimits(s.limits) && References(s) && Reads(s) && BytesBalance(s) && ScopesBalance(s) && SessionsBalance(s)
  }

  // ------------------------------------------------------------------
  // Every step keeps them
  // ------------------------------------------------------------------

  lemma ScopesStay(s: State, e: Event, k: nat)
    requires Exists(s, k) && (e == CloseScope(k) ==> !Unreferenced(s, k))
    ensures Exists(Step(s, e), k)
  {
    hide Plus, Minus;
  }

  lemma ChargesReferStill(s: State, e: Event)
    requires References(s)
    ensures ChargesRefer(Step(s, e))
  {
    hide Plus, Minus, Exists;
    var s' := Step(s, e);
    forall i | 0 <= i < |s'.charges|
      ensures if s'.charges[i].live then Exists(s', s'.charges[i].scope) else s'.charges[i].bytes == 0
    {
      if s'.charges[i].live {
        assert Exists(s, s'.charges[i].scope);
        ScopesStay(s, e, s'.charges[i].scope);
      }
    }
  }

  lemma ThreadsReferStill(s: State, e: Event)
    requires References(s)
    ensures ThreadsRefer(Step(s, e))
  {
    hide Plus, Minus, Exists;
    var s' := Step(s, e);
    forall t | 0 <= t < |s'.threads| ensures Referring(s', s'.threads[t]) {
      if Refers(s'.threads[t]) {
        assert Exists(s, s'.threads[t].scope);
        ScopesStay(s, e, s'.threads[t].scope);
      }
    }
  }

  lemma ReadsKept(s: State, e: Event)
    requires Law(s)
    ensures Reads(Step(s, e)) && Step(s, e).limits == s.limits
  {
    hide Total, Plus, Minus, ScopesBalance, SessionsBalance, References;
  }

  lemma SetTotals(s: State, t: nat, thread: Thread)
    requires At(s, t)
    ensures Total(Set(s, t, thread).threads, OnBudget) + OnBudget(s.threads[t])
            == Total(s.threads, OnBudget) + OnBudget(thread)
    ensures Total(Set(s, t, thread).threads, OnScope) + OnScope(s.threads[t])
            == Total(s.threads, OnScope) + OnScope(thread)
    ensures Total(Set(s, t, thread).threads, IsCounted) + IsCounted(s.threads[t])
            == Total(s.threads, IsCounted) + IsCounted(thread)
  {
    hide Total;
    TotalUpdate(s.threads, t, thread, OnBudget);
    TotalUpdate(s.threads, t, thread, OnScope);
    TotalUpdate(s.threads, t, thread, IsCounted);
  }

  /** What a running call holds is part of what the budget and its scope count. */
  lemma Backed(s: State, t: nat)
    requires Law(s) && At(s, t)
    ensures OnBudget(s.threads[t]) <= s.used < WORD
    ensures Total(s.scopes, Used) + OnBudget(s.threads[t]) - OnScope(s.threads[t]) <= s.used
    ensures Refers(s.threads[t]) ==>
              var k := s.threads[t].scope;
              Exists(s, k) && OnScope(s.threads[t]) <= s.scopes[k].used <= Total(s.scopes, Used)
  {
    hide Total, SessionsBalance, ChargesRefer, Reads;
    TotalCovers(s.threads, t, OnBudget);
    TotalGap(s.threads, t, OnScope, OnBudget);
    assert Referring(s, s.threads[t]);
    if Refers(s.threads[t]) {
      var k := s.threads[t].scope;
      TotalCovers(s.scopes, k, Used);
      TotalCovers(s.threads, t, OnScopeIn(k));
      assert ScopeBalances(s, k);
    }
  }

  lemma AcquireBalances(s: State, t: nat, spurious: bool)
    requires Law(s) && At(s, t) && s.threads[t].Loaded?
    ensures BytesBalance(StepAcquire(s, t, s.threads[t], spurious))
  {
    hide Total, Plus, Minus, SessionsBalance, ScopesBalance, References;
    var thread := s.threads[t];
    NoWrap(s.limits.maxBytes, thread.seen);
    NoWrap(s.used, thread.bytes);
    SetTotals(s, t, Idle);
    SetTotals(s, t, thread.(seen := s.used));
    SetTotals(s, t, Acquired(thread.scope, thread.bytes));
  }

  lemma AddToScopeBalances(s: State, t: nat)
    requires Law(s) && At(s, t) && s.threads[t].Acquired?
    ensures BytesBalance(StepAddToScope(s, t, s.threads[t].scope, s.threads[t].bytes))
    ensures Plus(s.scopes[s.threads[t].scope].used, s.threads[t].bytes)
            == s.scopes[s.threads[t].scope].used + s.threads[t].bytes
  {
    hide Total, Plus, SessionsBalance, ScopesBalance, References, Reads;
    var k, b := s.threads[t].scope, s.threads[t].bytes;
    Backed(s, t);
    NoWrap(s.scopes[k].used, b);
    SetTotals(s, t, Scoped(k, b));
    TotalUpdate(s.scopes, k, s.scopes[k].(used := s.scopes[k].used + b), Used);
  }

  lemma SubtractFromScopeBalances(s: State, t: nat)
    requires Law(s) && At(s, t) && s.threads[t].Releasing?
    ensures BytesBalance(StepSubtractFromScope(s, t, s.threads[t].scope, s.threads[t].bytes))
    ensures Minus(s.scopes[s.threads[t].scope].used, s.threads[t].bytes)
            == s.scopes[s.threads[t].scope].used - s.threads[t].bytes
  {
    hide Total, Minus, SessionsBalance, ScopesBalance, References, Reads;
    var k, b := s.threads[t].scope, s.threads[t].bytes;
    Backed(s, t);
    NoWrap(s.scopes[k].used, b);
    SetTotals(s, t, Released(k, b));
    TotalUpdate(s.scopes, k, s.scopes[k].(used := s.scopes[k].used - b), Used);
  }

  lemma SubtractFromBudgetBalances(s: State, t: nat)
    requires Law(s) && At(s, t) && s.threads[t].Released?
    ensures BytesBalance(Step(s, SubtractFromBudget(t)))
  {
    hide Total, Minus, SessionsBalance, ScopesBalance, References, Reads;
    Backed(s, t);
    NoWrap(s.used, s.threads[t].bytes);
    SetTotals(s, t, Idle);
  }

  lemma MakeChargeBalances(s: State, t: nat, fails: bool)
    requires Law(s) && At(s, t) && s.threads[t].Scoped?
    ensures BytesBalance(StepMakeCharge(s, t, s.threads[t].scope, s.threads[t].bytes, fails))
  {
    hide Total, SessionsBalance, ScopesBalance, References, Reads;
    var k, b := s.threads[t].scope, s.threads[t].bytes;
    SetTotals(s, t, Idle);
    SetTotals(s, t, Releasing(k, b));
    TotalAppend(s.charges, Charge(k, b, true), Bytes);
  }

  lemma LowerBalances(s: State, t: nat, i: nat, bytes: nat, live: bool)
    requires Law(s) && At(s, t) && s.threads[t].Idle? && Live(s, i) && bytes <= s.charges[i].bytes
    ensures BytesBalance(StepLower(s, t, i, bytes, live))
  {
    hide Total, SessionsBalance, ScopesBalance, References, Reads;
    var c := s.charges[i];
    SetTotals(s, t, Releasing(c.scope, c.bytes - bytes));
    TotalUpdate(s.charges, i, Charge(c.scope, bytes, live), Bytes);
  }

  lemma MergeTotal(charges: seq<Charge>, i: nat, j: nat, f: Charge -> nat)
    requires i < |charges| && j < |charges| && i != j
    requires var a, b := charges[i], charges[j];
             f(a.(bytes := a.bytes + b.bytes)) == f(a) + f(b) && f(b.(bytes := 0)) == 0
    ensures var a, b := charges[i], charges[j];
            Total(charges[i := a.(bytes := a.bytes + b.bytes)][j := b.(bytes := 0)], f) == Total(charges, f)
  {
    hide Total;
    var a, b := charges[i], charges[j];
    TotalUpdate(charges, i, a.(bytes := a.bytes + b.bytes), f);
    TotalUpdate(charges[i := a.(bytes := a.bytes + b.bytes)], j, b.(bytes := 0), f);
  }

  /** A merged charge never exceeds the limit, so its size does not wrap. */
  lemma MergeFits(s: State, i: nat, j: nat)
    requires Law(s) && i < |s.charges| && j < |s.charges| && i != j
    ensures Plus(s.charges[i].bytes, s.charges[j].bytes) == s.charges[i].bytes + s.charges[j].bytes
  {
    hide Total, Plus, SessionsBalance, ScopesBalance, References, Reads;
    var a, b := s.charges[i], s.charges[j];
    var merged := s.charges[i := a.(bytes := a.bytes + b.bytes)][j := b.(bytes := 0)];
    MergeTotal(s.charges, i, j, Bytes);
    TotalCovers(merged, i, Bytes);
    NoWrap(a.bytes, b.bytes);
  }

  lemma MergeBalances(s: State, i: nat, j: nat)
    requires Law(s) && i < |s.charges| && j < |s.charges| && i != j
    ensures BytesBalance(StepMerge(s, i, j))
  {
    hide Total, Plus, SessionsBalance, ScopesBalance, References, Reads;
    MergeFits(s, i, j);
    MergeTotal(s.charges, i, j, Bytes);
  }

  /** Opening and closing sessions does not move bytes. */
  lemma SessionEventsBalance(s: State, e: Event)
    requires Law(s) && (e.OpenScope? || e.CountSession? || e.MakeScope? || e.CloseScope? || e.Reserve?)
    ensures BytesBalance(Step(s, e))
  {
    hide Total, Plus, Minus, SessionsBalance, ScopesBalance, References, Reads, Unreferenced;
    match e
    case Reserve(t, k, bytes) => if At(s, t) { SetTotals(s, t, Loaded(k, bytes, s.used)); }
    case OpenScope(t) => if At(s, t) { SetTotals(s, t, Counting(s.sessions)); }
    case CountSession(t, _) =>
      if At(s, t) {
        SetTotals(s, t, Idle);
        SetTotals(s, t, Counted);
        SetTotals(s, t, Counting(s.sessions));
      }
    case MakeScope(t, _) =>
      if At(s, t) {
        SetTotals(s, t, Idle);
        TotalAppend(s.scopes, Scope(0, true), Used);
      }
    case CloseScope(k) =>
      if k < |s.scopes| {
        TotalUpdate(s.scopes, k, s.scopes[k].(open := false), Used);
      }
    case _ =>
  }

  lemma BytesKept(s: State, e: Event)
    requires Law(s)
    ensures BytesBalance(Step(s, e))
  {
    hide Total, Plus, Minus, SessionsBalance, ScopesBalance, References, Reads, BytesBalance, Unreferenced,
      StepAcquire, StepAddToScope, StepMakeCharge, StepLower, StepSubtractFromScope, StepMerge, StepCount;
    match e
    case Acquire(t, spurious) => if At(s, t) && s.threads[t].Loaded? { AcquireBalances(s, t, spurious); }
    case AddToScope(t) => if At(s, t) && s.threads[t].Acquired? { AddToScopeBalances(s, t); }
    case MakeCharge(t, fails) => if At(s, t) && s.threads[t].Scoped? { MakeChargeBalances(s, t, fails); }
    case Destroy(t, i) => if At(s, t) && s.threads[t].Idle? && Live(s, i) { LowerBalances(s, t, i, 0, false); }
    case Shrink(t, i, bytes) =>
      if At(s, t) && s.threads[t].Idle? && Live(s, i) && bytes <= s.charges[i].bytes {
        LowerBalances(s, t, i, bytes, true);
      }
    case SubtractFromScope(t) => if At(s, t) && s.threads[t].Releasing? { SubtractFromScopeBalances(s, t); }
    case SubtractFromBudget(t) => if At(s, t) && s.threads[t].Released? { SubtractFromBudgetBalances(s, t); }
    case Merge(i, j) => if Live(s, i) && Live(s, j) && i != j { MergeBalances(s, i, j); }
    case _ => SessionEventsBalance(s, e);
  }

  // One scope's books

  lemma SetTotalIn(s: State, t: nat, thread: Thread, k: nat)
    requires At(s, t)
    ensures Total(Set(s, t, thread).threads, OnScopeIn(k)) + OnScopeIn(k)(s.threads[t])
            == Total(s.threads, OnScopeIn(k)) + OnScopeIn(k)(thread)
  {
    hide Total;
    TotalUpdate(s.threads, t, thread, OnScopeIn(k));
  }

  /** A scope nobody refers to holds nothing. */
  lemma UnusedIsEmpty(s: State, k: nat)
    requires References(s) && (k < |s.scopes| ==> Unreferenced(s, k))
    ensures Total(s.charges, BytesIn(k)) == 0 && Total(s.threads, OnScopeIn(k)) == 0
  {
    hide Total;
    TotalZero(s.charges, BytesIn(k));
    assert forall t | 0 <= t < |s.threads| :: Referring(s, s.threads[t]);
    TotalZero(s.threads, OnScopeIn(k));
  }

  lemma ThreadEventInScope(s: State, e: Event, k: nat)
    requires Law(s) && k < |s.scopes|
    requires e.Acquire? || e.AddToScope? || e.SubtractFromScope? || e.SubtractFromBudget?
    ensures |Step(s, e).scopes| == |s.scopes| && ScopeBalances(Step(s, e), k)
  {
    hide Total, Plus, Minus, SessionsBalance, BytesBalance, ScopesBalance, Reads, ChargesRefer;
    var t := e.t;
    assert ScopeBalances(s, k) by { ScopeOf(s, k); }
    if At(s, t) {
      var now := s.threads[t];
      SetTotalIn(s, t, Idle, k);
      if now.Loaded? {
        SetTotalIn(s, t, now.(seen := s.used), k);
        SetTotalIn(s, t, Acquired(now.scope, now.bytes), k);
      } else if now.Acquired? {
        SetTotalIn(s, t, Scoped(now.scope, now.bytes), k);
        AddToScopeBalances(s, t);
      } else if now.Releasing? {
        SetTotalIn(s, t, Released(now.scope, now.bytes), k);
        SubtractFromScopeBalances(s, t);
      }
    }
  }

  lemma ScopeOf(s: State, k: nat)
    requires ScopesBalance(s) && k < |s.scopes|
    ensures ScopeBalances(s, k)
  {
  }

  lemma ChargeEventInScope(s: State, e: Event, k: nat)
    requires Law(s) && k < |s.scopes| && (e.MakeCharge? || e.Destroy? || e.Shrink? || e.Merge?)
    ensures |Step(s, e).scopes| == |s.scopes| && ScopeBalances(Step(s, e), k)
  {
    hide Total, Plus, SessionsBalance, BytesBalance, ScopesBalance, Reads, References;
    ScopeOf(s, k);
    match e
    case MakeCharge(t, _) =>
      if At(s, t) && s.threads[t].Scoped? {
        var m, b := s.threads[t].scope, s.threads[t].bytes;
        SetTotalIn(s, t, Idle, k);
        SetTotalIn(s, t, Releasing(m, b), k);
        TotalAppend(s.charges, Charge(m, b, true), BytesIn(k));
      }
    case Destroy(t, i) => if At(s, t) && Live(s, i) { LowerInScope(s, t, i, 0, false, k); }
    case Shrink(t, i, bytes) =>
      if At(s, t) && Live(s, i) && bytes <= s.charges[i].bytes { LowerInScope(s, t, i, bytes, true, k); }
    case Merge(i, j) =>
      if Live(s, i) && Live(s, j) && i != j && s.charges[i].scope == s.charges[j].scope {
        MergeFits(s, i, j);
        MergeTotal(s.charges, i, j, BytesIn(k));
      }
  }

  lemma LowerInScope(s: State, t: nat, i: nat, bytes: nat, live: bool, k: nat)
    requires k < |s.scopes| && ScopeBalances(s, k) && At(s, t) && Live(s, i) && bytes <= s.charges[i].bytes
    ensures s.threads[t].Idle? ==> ScopeBalances(StepLower(s, t, i, bytes, live), k)
  {
    hide Total;
    var c := s.charges[i];
    SetTotalIn(s, t, Releasing(c.scope, c.bytes - bytes), k);
    TotalUpdate(s.charges, i, Charge(c.scope, bytes, live), BytesIn(k));
  }

  lemma SessionEventInScope(s: State, e: Event, k: nat)
    requires Law(s) && (e.OpenScope? || e.CountSession? || e.MakeScope? || e.CloseScope? || e.Reserve?)
    requires k < |Step(s, e).scopes|
    ensures ScopeBalances(Step(s, e), k)
  {
    hide Total, Plus, Minus, SessionsBalance, BytesBalance, ScopesBalance, Reads, References, Unreferenced;
    if k < |s.scopes| {
      ScopeOf(s, k);
    } else {
      UnusedIsEmpty(s, k);
    }
    match e
    case Reserve(t, m, bytes) => if At(s, t) { SetTotalIn(s, t, Loaded(m, bytes, s.used), k); }
    case OpenScope(t) => if At(s, t) { SetTotalIn(s, t, Counting(s.sessions), k); }
    case CountSession(t, _) =>
      if At(s, t) {
        SetTotalIn(s, t, Idle, k);
        SetTotalIn(s, t, Counted, k);
        SetTotalIn(s, t, Counting(s.sessions), k);
      }
    case MakeScope(t, _) => if At(s, t) { SetTotalIn(s, t, Idle, k); }
    case CloseScope(m) =>
  }

  lemma ScopesKept(s: State, e: Event)
    requires Law(s)
    ensures ScopesBalance(Step(s, e))
  {
    hide Step, ScopeBalances, Law;
    forall k | 0 <= k < |Step(s, e).scopes| ensures ScopeBalances(Step(s, e), k) {
      if e.OpenScope? || e.CountSession? || e.MakeScope? || e.CloseScope? || e.Reserve? {
        SessionEventInScope(s, e, k);
      } else {
        SameScopes(s, e);
        if e.MakeCharge? || e.Destroy? || e.Shrink? || e.Merge? {
          ChargeEventInScope(s, e, k);
        } else {
          ThreadEventInScope(s, e, k);
        }
      }
    }
  }

  lemma SameScopes(s: State, e: Event)
    requires !e.MakeScope?
    ensures |Step(s, e).scopes| == |s.scopes|
  {
    hide Plus, Minus, Unreferenced;
  }

  /** Bytes moving does not change who is open or being opened. */
  lemma OthersKeepSessions(s: State, e: Event)
    requires Law(s) && !e.MakeScope? && !e.CloseScope? && !e.CountSession? && !e.Merge?
    ensures SessionsBalance(Step(s, e))
  {
    hide Total, Plus, Minus, BytesBalance, ScopesBalance, Reads, References, Unreferenced;
    var s', t := Step(s, e), e.t;
    if At(s, t) {
      assert s'.threads == s.threads[t := s'.threads[t]];
      TotalUpdate(s.threads, t, s'.threads[t], IsCounted);
      if (e.AddToScope? || e.SubtractFromScope?) && Refers(s.threads[t]) && s.threads[t].scope < |s.scopes| {
        var k := s.threads[t].scope;
        assert s'.scopes == s.scopes[k := s'.scopes[k]];
        TotalUpdate(s.scopes, k, s'.scopes[k], IsOpen);
      }
    }
  }

  lemma CountingKept(s: State, e: Event)
    requires Law(s) && (e.MakeScope? || e.CloseScope? || e.CountSession?)
    ensures SessionsBalance(Step(s, e))
  {
    hide Total, Plus, Minus, BytesBalance, ScopesBalance, Reads, References, Unreferenced;
    NoWrap(s.sessions, 1);
    match e
    case CountSession(t, _) =>
      if At(s, t) {
        SetTotals(s, t, Idle);
        SetTotals(s, t, Counted);
        SetTotals(s, t, Counting(s.sessions));
      }
    case MakeScope(t, _) =>
      if At(s, t) {
        SetTotals(s, t, Idle);
        TotalAppend(s.scopes, Scope(0, true), IsOpen);
      }
    case CloseScope(k) =>
      if k < |s.scopes| {
        TotalUpdate(s.scopes, k, s.scopes[k].(open := false), IsOpen);
      }
  }

  lemma LawKept(s: State, e: Event)
    requires Law(s)
    ensures Law(Step(s, e))
  {
    hide Step, References, Reads, BytesBalance, ScopesBalance, SessionsBalance;
    assert References(Step(s, e)) by { ReferencesKept(s, e); }
    ReadsKept(s, e);
    BytesKept(s, e);
    ScopesKept(s, e);
    if e.MakeScope? || e.CloseScope? || e.CountSession? {
      CountingKept(s, e);
    } else if e.Merge? {
      MergeKeepsSessions(s, e.charge, e.other);
    } else {
      OthersKeepSessions(s, e);
    }
  }

  lemma ReferencesKept(s: State, e: Event)
    requires Law(s)
    ensures References(Step(s, e))
  {
    hide Step, ChargesRefer, ThreadsRefer;
    ChargesReferStill(s, e);
    ThreadsReferStill(s, e);
  }

  lemma MergeKeepsSessions(s: State, i: nat, j: nat)
    requires Law(s)
    ensures SessionsBalance(Step(s, Merge(i, j)))
  {
    hide Total, Plus;
  }

  // ------------------------------------------------------------------
  // Every reachable state
  // ------------------------------------------------------------------

  lemma {:induction false} Reachable(limits: Limits, threads: nat, events: seq<Event>)
    requires ValidLimits(limits)
    ensures Law(Run(Start(limits, threads), events))
    ensures Run(Start(limits, threads), events).limits == limits
    decreases |events|
  {
    hide Step, Law;
    if events == [] {
      assert Law(Start(limits, threads)) by { StartIsLawful(limits, threads); }
    } else {
      var before := Run(Start(limits, threads), events[..|events| - 1]);
      Reachable(limits, threads, events[..|events| - 1]);
      LawKept(before, events[|events| - 1]);
      LimitsStay(before, events[|events| - 1]);
    }
  }

  lemma LimitsStay(s: State, e: Event)
    ensures Step(s, e).limits == s.limits
  {
    hide Plus, Minus, Unreferenced;
  }

  lemma StartIsLawful(limits: Limits, threads: nat)
    requires ValidLimits(limits)
    ensures Law(Start(limits, threads))
  {
    var s := Start(limits, threads);
    TotalZero(s.threads, OnBudget);
    TotalZero(s.threads, OnScope);
    TotalZero(s.threads, IsCounted);
  }

  /** No reserve or release is midway. */
  predicate Quiet(s: State) {
    forall t | 0 <= t < |s.threads| :: OnBudget(s.threads[t]) == 0
  }

  /**
   At every atomic step of every run: the scopes together never count more than
   the budget, the budget never more than max_bytes, and sessions stay within
   max_sessions; with no reserve or release midway, the budget, the scopes
   together and each scope alone equal the live charges.
   */
  lemma BudgetIsExact(limits: Limits, threads: nat, events: seq<Event>)
    requires ValidLimits(limits)
    ensures var s := Run(Start(limits, threads), events);
            && Total(s.scopes, Used) <= s.used <= limits.maxBytes
            && Total(s.scopes, IsOpen) <= s.sessions <= limits.maxSessions
            && (Quiet(s) ==>
                  && s.used == Total(s.charges, Bytes) == Total(s.scopes, Used)
                  && forall k | 0 <= k < |s.scopes| :: s.scopes[k].used == Total(s.charges, BytesIn(k)))
  {
    hide Total, Run, Start, References, Reads;
    Reachable(limits, threads, events);
    var s := Run(Start(limits, threads), events);
    if |s.threads| > 0 {
      TotalGap(s.threads, 0, OnScope, OnBudget);
    } else {
      TotalZero(s.threads, OnScope);
    }
    if Quiet(s) {
      TotalZero(s.threads, OnBudget);
      forall k | 0 <= k < |s.scopes| ensures s.scopes[k].used == Total(s.charges, BytesIn(k)) {
        assert ScopeBalances(s, k);
        TotalZero(s.threads, OnScopeIn(k));
      }
    }
  }

  /** No subtraction and no addition ever wraps: each operand is covered when it is applied. */
  lemma NothingWraps(limits: Limits, threads: nat, events: seq<Event>, t: nat)
    requires ValidLimits(limits) && At(Run(Start(limits, threads), events), t)
    ensures var s := Run(Start(limits, threads), events);
            match s.threads[t]
            case Loaded(_, _, seen) => seen <= limits.maxBytes
            case Acquired(k, bytes) => k < |s.scopes| && s.scopes[k].used + bytes <= limits.maxBytes
            case Releasing(k, bytes) => k < |s.scopes| && bytes <= s.scopes[k].used
            case Released(_, bytes) => bytes <= s.used
            case _ => true
  {
    hide Total, Run, Start;
    Reachable(limits, threads, events);
    Backed(Run(Start(limits, threads), events), t);
  }

  /** A scope that no longer exists counts nothing. */
  lemma ClosedScopesAreEmpty(limits: Limits, threads: nat, events: seq<Event>, k: nat)
    requires ValidLimits(limits)
    ensures var s := Run(Start(limits, threads), events);
            k < |s.scopes| && !s.scopes[k].open ==> s.scopes[k].used == 0
  {
    hide Total, Run, Start, Reads, BytesBalance, SessionsBalance;
    Reachable(limits, threads, events);
    var s := Run(Start(limits, threads), events);
    if k < |s.scopes| && !s.scopes[k].open {
      ScopeOf(s, k);
      assert forall t | 0 <= t < |s.threads| :: Referring(s, s.threads[t]);
      UnusedIsEmpty(s, k);
    }
  }

  // ------------------------------------------------------------------
  // Whatever fits is granted
  // ------------------------------------------------------------------

  lemma RunMore(s: State, events: seq<Event>, more: seq<Event>, e: Event)
    ensures Run(s, events + more + [e]) == Step(Run(s, events + more), e)
    ensures Run(s, events + []) == Run(s, events)
  {
    hide Step;
    assert (events + more + [e])[..|events + more|] == events + more;
    assert events + [] == events;
  }

  /** Three steps in a row. */
  lemma RunThree(s: State, events: seq<Event>, a: Event, b: Event, c: Event)
    ensures Run(s, events + [a, b, c]) == Step(Step(Step(Run(s, events), a), b), c)
  {
    hide Step, Run;
    assert events + [] + [a] == events + [a] && events + [a] + [b] == events + [a, b];
    assert events + [a, b] + [c] == events + [a, b, c];
    RunMore(s, events, [], a);
    RunMore(s, events, [a], b);
    RunMore(s, events, [a, b], c);
  }

  lemma RunFour(s: State, events: seq<Event>, a: Event, b: Event, c: Event, d: Event)
    ensures Run(s, events + [a, b, c, d]) == Step(Step(Step(Step(Run(s, events), a), b), c), d)
  {
    hide Step, Run;
    RunThree(s, events, a, b, c);
    assert events + [a, b, c] + [d] == events + [a, b, c, d];
    RunMore(s, events, [a, b, c], d);
  }

  /** One live charge more, on the budget and on its scope. */
  function Granted(s: State, k: nat, bytes: nat): State
    requires k < |s.scopes|
  {
    s.(used := s.used + bytes,
       scopes := s.scopes[k := s.scopes[k].(used := s.scopes[k].used + bytes)],
       charges := s.charges + [Charge(k, bytes, true)])
  }

  /**
   From every reachable state a reservation that nothing disturbs is granted exactly
   when its bytes fit under max_bytes; a refused one changes nothing.
   */
  lemma WhatFitsIsGranted(limits: Limits, threads: nat, events: seq<Event>, t: nat, k: nat, bytes: nat)
    requires ValidLimits(limits) && bytes < WORD
    requires var s := Run(Start(limits, threads), events); At(s, t) && s.threads[t].Idle? && Exists(s, k)
    ensures var s := Run(Start(limits, threads), events);
            Run(Start(limits, threads),
                events + [Reserve(t, k, bytes), Acquire(t, false), AddToScope(t), MakeCharge(t, false)])
            == if s.used + bytes <= limits.maxBytes then Granted(s, k, bytes) else s
  {
    hide Run, Start, Total, Law;
    var s := Run(Start(limits, threads), events);
    RunFour(Start(limits, threads), events, Reserve(t, k, bytes), Acquire(t, false), AddToScope(t),
            MakeCharge(t, false));
    Reachable(limits, threads, events);
    UsedFits(s);
    var a := Step(s, Reserve(t, k, bytes));
    assert a == Set(s, t, Loaded(k, bytes, s.used));
    NoWrap(limits.maxBytes, s.used);
    NoWrap(s.used, bytes);
    var b := Step(a, Acquire(t, false));
    if s.used + bytes <= limits.maxBytes {
      assert b == Set(s, t, Acquired(k, bytes)).(used := s.used + bytes);
      ScopeUnderBudget(s, k);
      NoWrap(s.scopes[k].used, bytes);
      assert s.threads[t := Idle] == s.threads;
    } else {
      assert b == s;
    }
  }

  lemma UsedFits(s: State)
    requires Law(s)
    ensures s.used <= s.limits.maxBytes < WORD && s.sessions <= s.limits.maxSessions < WORD
  {
    hide Total;
  }

  lemma ScopeUnderBudget(s: State, k: nat)
    requires Law(s) && k < |s.scopes|
    ensures s.scopes[k].used <= s.used
  {
    hide Total;
    TotalCovers(s.scopes, k, Used);
    if |s.threads| > 0 {
      TotalGap(s.threads, 0, OnScope, OnBudget);
    } else {
      TotalZero(s.threads, OnScope);
    }
  }

  /** The charge holds `bytes` bytes from now on, and budget and scope have the rest back. */
  function Lowered(s: State, i: nat, bytes: nat, live: bool): State
    requires i < |s.charges| && s.charges[i].scope < |s.scopes| && bytes <= s.charges[i].bytes
    requires s.charges[i].bytes <= s.scopes[s.charges[i].scope].used && s.charges[i].bytes <= s.used
  {
    var c := s.charges[i];
    var back := c.bytes - bytes;
    s.(used := s.used - back,
       scopes := s.scopes[c.scope := s.scopes[c.scope].(used := s.scopes[c.scope].used - back)],
       charges := s.charges[i := Charge(c.scope, bytes, live)])
  }

  /** A live charge is on its scope and on the budget. */
  lemma ChargeIsCounted(s: State, i: nat)
    requires Law(s) && Live(s, i)
    ensures Exists(s, s.charges[i].scope)
    ensures s.charges[i].bytes <= s.scopes[s.charges[i].scope].used && s.charges[i].bytes <= s.used
  {
    hide Total, Reads, BytesBalance, SessionsBalance;
    var k := s.charges[i].scope;
    assert Exists(s, k);
    TotalCovers(s.charges, i, BytesIn(k));
    ScopeOf(s, k);
    ScopeUnderBudget(s, k);
  }

  /** From every reachable state: a destroyed charge gives all its bytes back, a shrunk one the difference. */
  lemma WhatIsReleasedComesBack(limits: Limits, threads: nat, events: seq<Event>, t: nat, i: nat, bytes: nat,
                                live: bool)
    requires ValidLimits(limits)
    requires var s := Run(Start(limits, threads), events);
             At(s, t) && s.threads[t].Idle? && Live(s, i) && bytes <= s.charges[i].bytes && (!live ==> bytes == 0)
    ensures var s := Run(Start(limits, threads), events);
            && s.charges[i].scope < |s.scopes| && s.charges[i].bytes <= s.scopes[s.charges[i].scope].used
            && s.charges[i].bytes <= s.used
            && Run(Start(limits, threads),
                   events + [if live then Shrink(t, i, bytes) else Destroy(t, i),
                             SubtractFromScope(t), SubtractFromBudget(t)])
               == Lowered(s, i, bytes, live)
  {
    hide Run, Start, Total, Law;
    var s, e := Run(Start(limits, threads), events), if live then Shrink(t, i, bytes) else Destroy(t, i);
    RunThree(Start(limits, threads), events, e, SubtractFromScope(t), SubtractFromBudget(t));
    Reachable(limits, threads, events);
    UsedFits(s);
    ChargeIsCounted(s, i);
    var k, back := s.charges[i].scope, s.charges[i].bytes - bytes;
    ScopeUnderBudget(s, k);
    NoWrap(s.scopes[k].used, back);
    NoWrap(s.used, back);
    var a := Step(s, e);
    assert a == Set(s, t, Releasing(k, back)).(charges := s.charges[i := Charge(k, bytes, live)]);
    assert s.threads[t := Idle] == s.threads;
  }

  /** From every reachable state a session that nothing disturbs is opened exactly when max_sessions allows one more. */
  lemma SessionsAreAdmitted(limits: Limits, threads: nat, events: seq<Event>, t: nat)
    requires ValidLimits(limits)
    requires var s := Run(Start(limits, threads), events); At(s, t) && s.threads[t].Idle?
    ensures var s := Run(Start(limits, threads), events);
            Run(Start(limits, threads), events + [OpenScope(t), CountSession(t, false), MakeScope(t, false)])
            == if s.sessions < limits.maxSessions
               then s.(sessions := s.sessions + 1, scopes := s.scopes + [Scope(0, true)]) else s
  {
    hide Run, Start, Total, Law;
    var s := Run(Start(limits, threads), events);
    RunThree(Start(limits, threads), events, OpenScope(t), CountSession(t, false), MakeScope(t, false));
    Reachable(limits, threads, events);
    UsedFits(s);
    NoWrap(s.sessions, 1);
    assert Step(s, OpenScope(t)) == Set(s, t, Counting(s.sessions));
    assert s.threads[t := Idle] == s.threads;
  }

  /** A scope that nothing refers to can be destroyed, and that frees exactly its session. */
  lemma ClosingFreesASession(limits: Limits, threads: nat, events: seq<Event>, k: nat)
    requires ValidLimits(limits)
    requires var s := Run(Start(limits, threads), events); Exists(s, k) && Unreferenced(s, k)
    ensures var s := Run(Start(limits, threads), events);
            && s.sessions >= 1
            && Step(s, CloseScope(k)) == s.(scopes := s.scopes[k := Scope(0, false)], sessions := s.sessions - 1)
  {
    hide Run, Start, Total, Unreferenced;
    var s := Run(Start(limits, threads), events);
    Reachable(limits, threads, events);
    UsedFits(s);
    TotalCovers(s.scopes, k, IsOpen);
    NoWrap(s.sessions, 1);
    ClosedIsEmpty(s, k);
  }

  lemma ClosedIsEmpty(s: State, k: nat)
    requires Law(s) && Exists(s, k) && Unreferenced(s, k)
    ensures s.scopes[k].used == 0
  {
    hide Total;
    ScopeOf(s, k);
    UnusedIsEmpty(s, k);
  }

  /** Merging moves the other charge's bytes over, and nothing else. */
  lemma MergingMovesBytes(limits: Limits, threads: nat, events: seq<Event>, i: nat, j: nat)
    requires ValidLimits(limits)
    requires var s := Run(Start(limits, threads), events);
             Live(s, i) && Live(s, j) && i != j && s.charges[i].scope == s.charges[j].scope
    ensures var s := Run(Start(limits, threads), events);
            var a, b := s.charges[i], s.charges[j];
            Step(s, Merge(i, j))
            == s.(charges := s.charges[i := Charge(a.scope, a.bytes + b.bytes, true)][j := Charge(b.scope, 0, true)])
  {
    hide Run, Start, Total, Law;
    var s := Run(Start(limits, threads), events);
    Reachable(limits, threads, events);
    MergeFits(s, i, j);
  }

  /**
   One round of a reservation or of opening a session that other threads disturb: it
   succeeds, by exactly its amount, only on the current value, and a compare-exchange
   that fails has read the current value instead.
   */
  lemma RoundsAreExact(limits: Limits, threads: nat, events: seq<Event>, t: nat, spurious: bool)
    requires ValidLimits(limits) && At(Run(Start(limits, threads), events), t)
    ensures var s := Run(Start(limits, threads), events);
            match s.threads[t]
            case Loaded(k, bytes, seen) =>
              Step(s, Acquire(t, spurious))
              == (if seen + bytes > limits.maxBytes then Set(s, t, Idle)
                  else if spurious || seen != s.used then Set(s, t, Loaded(k, bytes, s.used))
                  else Set(s, t, Acquired(k, bytes)).(used := s.used + bytes))
            case Counting(seen) =>
              Step(s, CountSession(t, spurious))
              == (if seen >= limits.maxSessions then Set(s, t, Idle)
                  else if spurious || seen != s.sessions then Set(s, t, Counting(s.sessions))
                  else Set(s, t, Counted).(sessions := s.sessions + 1))
            case _ => true
  {
    hide Run, Start, Total, Law;
    var s := Run(Start(limits, threads), events);
    Reachable(limits, threads, events);
    UsedFits(s);
    ReadFits(s, t);
    match s.threads[t]
    case Loaded(k, bytes, seen) =>
      NoWrap(limits.maxBytes, seen);
      NoWrap(s.used, bytes);
    case Counting(seen) => NoWrap(s.sessions, 1);
    case _ =>
  }

  lemma ReadFits(s: State, t: nat)
    requires Law(s) && At(s, t)
    ensures s.threads[t].Loaded? ==> s.threads[t].seen <= s.limits.maxBytes && s.threads[t].bytes < WORD
  {
    hide Total;
  }

  /** The value was in the counter at some moment of the run. */
  ghost predicate Once(limits: Limits, threads: nat, events: seq<Event>, thread: Thread) {
    match thread
    case Loaded(_, _, seen) => exists j | 0 <= j <= |events| :: Run(Start(limits, threads), events[..j]).used == seen
    case Counting(seen) => exists j | 0 <= j <= |events| :: Run(Start(limits, threads), events[..j]).sessions == seen
    case _ => true
  }

  lemma OnceStill(limits: Limits, threads: nat, events: seq<Event>, thread: Thread)
    requires events != [] && Once(limits, threads, events[..|events| - 1], thread)
    ensures Once(limits, threads, events, thread)
  {
    hide Run, Start;
    var before := events[..|events| - 1];
    assert forall j | 0 <= j <= |before| :: before[..j] == events[..j];
  }

  /** Whatever a thread compares with is a value it has read. */
  lemma ReadsAreReal(s: State, e: Event, t: nat)
    requires At(Step(s, e), t)
    ensures At(s, t)
    ensures Step(s, e).threads[t] == s.threads[t] || (
              match Step(s, e).threads[t]
              case Loaded(_, _, seen) => seen == s.used
              case Counting(seen) => seen == s.sessions
              case _ => true)
  {
    hide Plus, Minus, Unreferenced;
  }

  lemma {:induction false} SeenWasThere(limits: Limits, threads: nat, events: seq<Event>, t: nat)
    requires At(Run(Start(limits, threads), events), t)
    ensures Once(limits, threads, events, Run(Start(limits, threads), events).threads[t])
    decreases |events|
  {
    hide Step, Once;
    if events == [] {
      assert Once(limits, threads, events, Idle) by { NothingSeen(limits, threads, events); }
    } else {
      var before, e := events[..|events| - 1], events[|events| - 1];
      var s := Run(Start(limits, threads), before);
      var thread := Step(s, e).threads[t];
      ReadsAreReal(s, e, t);
      if thread == s.threads[t] {
        SeenWasThere(limits, threads, before, t);
        OnceStill(limits, threads, events, thread);
      } else {
        SeenNow(limits, threads, events, thread);
      }
    }
  }

  lemma NothingSeen(limits: Limits, threads: nat, events: seq<Event>)
    ensures Once(limits, threads, events, Idle)
  {
  }

  lemma SeenNow(limits: Limits, threads: nat, events: seq<Event>, thread: Thread)
    requires events != []
    requires var s := Run(Start(limits, threads), events[..|events| - 1]);
             match thread
             case Loaded(_, _, seen) => seen == s.used
             case Counting(seen) => seen == s.sessions
             case _ => true
    ensures Once(limits, threads, events, thread)
  {
    hide Run, Start;
  }

  /**
   Under any interference, whoever is refused had a reason: at some moment of the
   run the bytes did not fit, or all sessions were taken.
   */
  lemma RefusalsHaveCauses(limits: Limits, threads: nat, events: seq<Event>, t: nat, spurious: bool)
    requires ValidLimits(limits) && At(Run(Start(limits, threads), events), t)
    ensures var start, s := Start(limits, threads), Run(Start(limits, threads), events);
            match s.threads[t]
            case Loaded(_, bytes, _) =>
              Step(s, Acquire(t, spurious)).threads[t].Idle? ==>
                exists j | 0 <= j <= |events| :: Run(start, events[..j]).used + bytes > limits.maxBytes
            case Counting(_) =>
              Step(s, CountSession(t, spurious)).threads[t].Idle? ==>
                exists j | 0 <= j <= |events| :: Run(start, events[..j]).sessions == limits.maxSessions
            case _ => true
  {
    hide Run, Start, Total, Law, Step;
    RoundsAreExact(limits, threads, events, t, spurious);
    SeenWasThere(limits, threads, events, t);
    forall j | 0 <= j <= |events| ensures Run(Start(limits, threads), events[..j]).sessions <= limits.maxSessions {
      Reachable(limits, threads, events[..j]);
      UsedFits(Run(Start(limits, threads), events[..j]));
    }
  }
}
