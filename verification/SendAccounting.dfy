/**
 The counters a transport publishes about its sends
 (wirestead/wrapper/send_accounting.hpp), and the law they must obey.

 Counters are natural numbers: a subtraction that would underflow in the C++
 does not type-check here.
 */
module SendAccounting {

  /** Requests and the sum of their full payload sizes. */
  datatype Totals = Totals(requests: nat, bytes: nat)

  datatype Losses = Losses(discardedBeforeWrite: Totals, abortedDuringWrite: Totals)

  datatype Accounting = Accounting(
    accepted: Totals,
    written: Totals,
    outstanding: Totals,
    explicitStop: Losses,
    connectionLoss: Losses,
    queuePressure: Losses,
    sessionExpiry: Losses,
    confirmedWrittenBytes: nat)

  datatype Cause = ExplicitStop | ConnectionLoss | QueuePressure | SessionExpiry

  /** Names the request counters of an Accounting. */
  datatype Bucket = Accepted | Written | Outstanding | Discarded(cause: Cause) | Aborted(cause: Cause)

  const NO_TOTALS := Totals(0, 0)
  const NO_LOSSES := Losses(NO_TOTALS, NO_TOTALS)
  const NOTHING := Accounting(NO_TOTALS, NO_TOTALS, NO_TOTALS, NO_LOSSES, NO_LOSSES, NO_LOSSES, NO_LOSSES, 0)

  function Plus(s: Totals, t: Totals): Totals {
    Totals(s.requests + t.requests, s.bytes + t.bytes)
  }

  function LossesOf(a: Accounting, cause: Cause): Losses {
    match cause
    case ExplicitStop => a.explicitStop
    case ConnectionLoss => a.connectionLoss
    case QueuePressure => a.queuePressure
    case SessionExpiry => a.sessionExpiry
  }

  function Of(a: Accounting, b: Bucket): Totals {
    match b
    case Accepted => a.accepted
    case Written => a.written
    case Outstanding => a.outstanding
    case Discarded(c) => LossesOf(a, c).discardedBeforeWrite
    case Aborted(c) => LossesOf(a, c).abortedDuringWrite
  }

  function WithLosses(a: Accounting, cause: Cause, l: Losses): Accounting {
    match cause
    case ExplicitStop => a.(explicitStop := l)
    case ConnectionLoss => a.(connectionLoss := l)
    case QueuePressure => a.(queuePressure := l)
    case SessionExpiry => a.(sessionExpiry := l)
  }

  function With(a: Accounting, b: Bucket, t: Totals): Accounting {
    match b
    case Accepted => a.(accepted := t)
    case Written => a.(written := t)
    case Outstanding => a.(outstanding := t)
    case Discarded(c) => WithLosses(a, c, LossesOf(a, c).(discardedBeforeWrite := t))
    case Aborted(c) => WithLosses(a, c, LossesOf(a, c).(abortedDuringWrite := t))
  }

  /** Replacing one counter replaces that counter only. */
  lemma WithOf(a: Accounting, b: Bucket, t: Totals)
    ensures forall c :: Of(With(a, b, t), c) == if c == b then t else Of(a, c)
    ensures With(a, b, t).confirmedWrittenBytes == a.confirmedWrittenBytes
  {
  }

  /** One more request of `bytes` bytes in bucket b. */
  function Add(a: Accounting, b: Bucket, bytes: nat): Accounting {
    With(a, b, Plus(Of(a, b), Totals(1, bytes)))
  }

  /** One request fewer in bucket b; there must be one to take. */
  function Remove(a: Accounting, b: Bucket, bytes: nat): Accounting
    requires Of(a, b).requests >= 1 && Of(a, b).bytes >= bytes
  {
    With(a, b, Totals(Of(a, b).requests - 1, Of(a, b).bytes - bytes))
  }

  /** Two accountings that agree on every counter are the same. */
  lemma SameBuckets(x: Accounting, y: Accounting)
    requires forall b :: Of(x, b) == Of(y, b)
    requires x.confirmedWrittenBytes == y.confirmedWrittenBytes
    ensures x == y
  {
    assert Of(x, Accepted) == Of(y, Accepted) && Of(x, Written) == Of(y, Written);
    assert Of(x, Outstanding) == Of(y, Outstanding);
    forall c: Cause ensures LossesOf(x, c) == LossesOf(y, c) {
      assert Of(x, Discarded(c)) == Of(y, Discarded(c)) && Of(x, Aborted(c)) == Of(y, Aborted(c));
    }
    assert LossesOf(x, ExplicitStop) == LossesOf(y, ExplicitStop);
    assert LossesOf(x, ConnectionLoss) == LossesOf(y, ConnectionLoss);
    assert LossesOf(x, QueuePressure) == LossesOf(y, QueuePressure);
    assert LossesOf(x, SessionExpiry) == LossesOf(y, SessionExpiry);
  }

  function LostRequests(l: Losses): nat {
    l.discardedBeforeWrite.requests + l.abortedDuringWrite.requests
  }

  function LostBytes(l: Losses): nat {
    l.discardedBeforeWrite.bytes + l.abortedDuringWrite.bytes
  }

  /**
   The conservation law, for requests and for bytes: what was accepted was
   written, is outstanding, or was lost for one recorded cause.
   */
  predicate Conserved(a: Accounting) {
    && a.accepted.requests == a.written.requests + a.outstanding.requests
         + LostRequests(a.explicitStop) + LostRequests(a.connectionLoss)
         + LostRequests(a.queuePressure) + LostRequests(a.sessionExpiry)
    && a.accepted.bytes == a.written.bytes + a.outstanding.bytes
         + LostBytes(a.explicitStop) + LostBytes(a.connectionLoss)
         + LostBytes(a.queuePressure) + LostBytes(a.sessionExpiry)
  }

  /** Confirmed bytes cover every written request and stay inside what was handed to the wire. */
  predicate ConfirmedWithinWire(a: Accounting) {
    a.written.bytes <= a.confirmedWrittenBytes
      <= a.written.bytes + a.connectionLoss.abortedDuringWrite.bytes
  }

  /** accumulate_send_accounting: add every counter of `source` to `total`. */
  function Accumulate(total: Accounting, source: Accounting): Accounting {
    Accounting(
      Plus(total.accepted, source.accepted),
      Plus(total.written, source.written),
      Plus(total.outstanding, source.outstanding),
      AddLosses(total.explicitStop, source.explicitStop),
      AddLosses(total.connectionLoss, source.connectionLoss),
      AddLosses(total.queuePressure, source.queuePressure),
      AddLosses(total.sessionExpiry, source.sessionExpiry),
      total.confirmedWrittenBytes + source.confirmedWrittenBytes)
  }

  function AddLosses(l: Losses, m: Losses): Losses {
    Losses(Plus(l.discardedBeforeWrite, m.discardedBeforeWrite), Plus(l.abortedDuringWrite, m.abortedDuringWrite))
  }

  /** Contributors that each obey the law obey it together. */
  lemma AccumulateConserves(x: Accounting, y: Accounting)
    requires Conserved(x) && Conserved(y)
    requires ConfirmedWithinWire(x) && ConfirmedWithinWire(y)
    ensures Conserved(Accumulate(x, y))
    ensures ConfirmedWithinWire(Accumulate(x, y))
  {
  }

  lemma AccumulateOf(x: Accounting, y: Accounting, b: Bucket)
    ensures Of(Accumulate(x, y), b) == Plus(Of(x, b), Of(y, b))
  {
    match b
    case Accepted =>
    case Written =>
    case Outstanding =>
    case Discarded(c) =>
      match c { case ExplicitStop => case ConnectionLoss => case QueuePressure => case SessionExpiry => }
    case Aborted(c) =>
      match c { case ExplicitStop => case ConnectionLoss => case QueuePressure => case SessionExpiry => }
  }

  /** The order in which contributors are added does not matter. */
  lemma AccumulateSwap(x: Accounting, y: Accounting, z: Accounting)
    ensures Accumulate(Accumulate(x, y), z) == Accumulate(Accumulate(x, z), y)
  {
    var l, r := Accumulate(Accumulate(x, y), z), Accumulate(Accumulate(x, z), y);
    forall b: Bucket ensures Of(l, b) == Of(r, b) {
      AccumulateOf(Accumulate(x, y), z, b);
      AccumulateOf(x, y, b);
      AccumulateOf(Accumulate(x, z), y, b);
      AccumulateOf(x, z, b);
    }
    SameBuckets(l, r);
  }

  /** A contribution can be cancelled: the rest is determined. */
  lemma AccumulateCancel(x: Accounting, y: Accounting, z: Accounting)
    requires Accumulate(x, z) == Accumulate(y, z)
    ensures x == y
  {
    forall b: Bucket ensures Of(x, b) == Of(y, b) {
      AccumulateOf(x, z, b);
      AccumulateOf(y, z, b);
    }
    SameBuckets(x, y);
  }

  lemma AccumulateNothing(x: Accounting)
    ensures Accumulate(x, NOTHING) == x
  {
  }

  /** One request of the second contributor, counted on its own. */
  lemma AccumulateAdd(x: Accounting, y: Accounting, b: Bucket, n: nat)
    ensures Accumulate(x, Add(y, b, n)) == Add(Accumulate(x, y), b, n)
  {
    var l, r := Accumulate(x, Add(y, b, n)), Add(Accumulate(x, y), b, n);
    WithOf(y, b, Plus(Of(y, b), Totals(1, n)));
    WithOf(Accumulate(x, y), b, Plus(Of(Accumulate(x, y), b), Totals(1, n)));
    AccumulateOf(x, y, b);
    forall c: Bucket ensures Of(l, c) == Of(r, c) {
      AccumulateOf(x, Add(y, b, n), c);
      AccumulateOf(x, y, c);
    }
    SameBuckets(l, r);
  }

  /** Confirmed bytes are independent of the request counters. */
  function Confirm(a: Accounting, n: nat): Accounting {
    a.(confirmedWrittenBytes := a.confirmedWrittenBytes + n)
  }

  /** Moving a request out of Outstanding and back in again, in any order, is no change. */
  lemma MoveRequest(a: Accounting, to: Bucket, n: nat, confirmed: nat)
    requires a.outstanding.requests >= 1 && a.outstanding.bytes >= n
    ensures var moved := Add(Remove(Confirm(a, confirmed), Outstanding, n), to, n);
            Confirm(Add(Add(moved, Accepted, n), Outstanding, n), 0)
            == Confirm(Add(Add(a, Accepted, n), to, n), confirmed)
  {
  }

  /** A single accepted request, wherever it stands, obeys the law. */
  lemma OneConserved(to: Bucket, n: nat, confirmed: nat)
    requires to != Accepted
    requires confirmed == (if to == Written then n else 0) || (to == Aborted(ConnectionLoss) && confirmed <= n)
    ensures Conserved(Confirm(Add(Add(NOTHING, Accepted, n), to, n), confirmed))
    ensures ConfirmedWithinWire(Confirm(Add(Add(NOTHING, Accepted, n), to, n), confirmed))
  {
    hide Conserved, ConfirmedWithinWire;
    match to
    case Written => OpenConserved(to, n, confirmed);
    case Outstanding => OpenConserved(to, n, confirmed);
    case Discarded(c) => LossConserved(c, Losses(Totals(1, n), NO_TOTALS), n, confirmed);
    case Aborted(c) => LossConserved(c, Losses(NO_TOTALS, Totals(1, n)), n, confirmed);
  }

  lemma OpenConserved(to: Bucket, n: nat, confirmed: nat)
    requires (to == Written && confirmed == n) || (to == Outstanding && confirmed == 0)
    ensures var a := Confirm(Add(Add(NOTHING, Accepted, n), to, n), confirmed); Conserved(a) && ConfirmedWithinWire(a)
  {
  }

  lemma LossConserved(c: Cause, l: Losses, n: nat, confirmed: nat)
    requires LostRequests(l) == 1 && LostBytes(l) == n
    requires confirmed == 0 || (c == ConnectionLoss && confirmed <= l.abortedDuringWrite.bytes)
    ensures var a := Confirm(WithLosses(NOTHING.(accepted := Totals(1, n)), c, l), confirmed);
            Conserved(a) && ConfirmedWithinWire(a)
  {
  }
}
