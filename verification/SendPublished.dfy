/**
 What each published field counts, field by field, and what every ledger operation
 does to the fields.
 */
module SendPublished {
  import opened Options
  import opened SendAccounting
  import opened SendHistory
  import opened SendFates

  // ------------------------------------------------------------------
  // Tallies
  // ------------------------------------------------------------------

  function If(condition: bool, r: Record): Totals {
    if condition then Totals(1, r.bytes) else NO_TOTALS
  }

  /** One request of that size more, if the condition holds. */
  function Bump(t: Totals, condition: bool, bytes: nat): Totals {
    if condition then Totals(t.requests + 1, t.bytes + bytes) else t
  }

  /** Requests and bytes of the records at the picked positions. */
  function Tally(rs: seq<Record>, picked: set<nat>): Totals {
    if rs == [] then NO_TOTALS
    else
      var n := |rs| - 1;
      Bump(Tally(rs[..n], picked), n in picked, rs[n].bytes)
  }

  lemma PlusNothing(t: Totals)
    ensures Plus(t, NO_TOTALS) == t && Plus(NO_TOTALS, t) == t
  {
  }

  lemma {:induction false} TallySame(rs: seq<Record>, p: set<nat>, q: set<nat>)
    requires forall i | 0 <= i < |rs| :: i in p <==> i in q
    ensures Tally(rs, p) == Tally(rs, q)
  {
    if rs != [] {
      TallySame(rs[..|rs| - 1], p, q);
    }
  }

  lemma {:induction false} TallyNone(rs: seq<Record>)
    ensures Tally(rs, {}) == NO_TOTALS
  {
    if rs != [] {
      TallyNone(rs[..|rs| - 1]);
    }
  }

  /** What may be asked about a record. */
  datatype Question =
    | IsAccepted                           // admitted and not rolled back
    | IsWaiting
    | IsActive
    | IsWritten                            // completed with every byte confirmed
    | IsShort                              // completed with a byte missing
    | IsCut(cause: Cause, handed: bool)    // cut off, before or after the handoff

  predicate Answers(r: Record, q: Question) {
    match q
    case IsAccepted => !r.status.Withdrawn?
    case IsWaiting => r.status.Waiting?
    case IsActive => r.status.Active?
    case IsWritten => r.status == Completed(r.bytes)
    case IsShort => r.status.Completed? && r.status.confirmed != r.bytes
    case IsCut(cause, handed) => r.status == Terminated(cause, handed)
  }

  /** The positions of an epoch's (and a group's) records that answer the question. */
  ghost function Where(rs: seq<Record>, epoch: nat, group: Option<nat>, q: Question): set<nat> {
    set i: nat | i < |rs| && Covers(rs[i], epoch, group) && Answers(rs[i], q)
  }

  ghost function Count(rs: seq<Record>, epoch: nat, group: Option<nat>, q: Question): Totals {
    Tally(rs, Where(rs, epoch, group, q))
  }

  lemma CountNone(epoch: nat, group: Option<nat>, q: Question)
    ensures Count([], epoch, group, q) == NO_TOTALS
  {
  }

  lemma CountLast(rs: seq<Record>, epoch: nat, group: Option<nat>, q: Question)
    requires rs != []
    ensures var n := |rs| - 1;
            Count(rs, epoch, group, q)
            == Bump(Count(rs[..n], epoch, group, q), Covers(rs[n], epoch, group) && Answers(rs[n], q), rs[n].bytes)
  {
    var n := |rs| - 1;
    TallySame(rs[..n], Where(rs, epoch, group, q), Where(rs[..n], epoch, group, q));
  }

  function ConfirmedBytes(rs: seq<Record>, epoch: nat, group: Option<nat>): nat {
    if rs == [] then 0
    else
      var r := rs[|rs| - 1];
      ConfirmedBytes(rs[..|rs| - 1], epoch, group)
      + if Covers(r, epoch, group) && r.status.Completed? then r.status.confirmed else 0
  }

  // ------------------------------------------------------------------
  // The fields
  // ------------------------------------------------------------------

  /**
   Every field is a tally of the log: a request cut off before the handoff is under
   discardedBeforeWrite of its cause and of no other, one cut off after it, or
   confirmed in part, under abortedDuringWrite.
   */
  ghost predicate Publishes(a: Accounting, rs: seq<Record>, epoch: nat, group: Option<nat>) {
    && a.accepted == Count(rs, epoch, group, IsAccepted)
    && a.written == Count(rs, epoch, group, IsWritten)
    && a.outstanding == Plus(Count(rs, epoch, group, IsWaiting), Count(rs, epoch, group, IsActive))
    && a.explicitStop.discardedBeforeWrite == Count(rs, epoch, group, IsCut(ExplicitStop, false))
    && a.explicitStop.abortedDuringWrite == Count(rs, epoch, group, IsCut(ExplicitStop, true))
    && a.queuePressure.discardedBeforeWrite == Count(rs, epoch, group, IsCut(QueuePressure, false))
    && a.queuePressure.abortedDuringWrite == Count(rs, epoch, group, IsCut(QueuePressure, true))
    && a.sessionExpiry.discardedBeforeWrite == Count(rs, epoch, group, IsCut(SessionExpiry, false))
    && a.sessionExpiry.abortedDuringWrite == Count(rs, epoch, group, IsCut(SessionExpiry, true))
    && a.connectionLoss.discardedBeforeWrite == Count(rs, epoch, group, IsCut(ConnectionLoss, false))
    && a.connectionLoss.abortedDuringWrite
       == Plus(Count(rs, epoch, group, IsCut(ConnectionLoss, true)), Count(rs, epoch, group, IsShort))
    && a.confirmedWrittenBytes == ConfirmedBytes(rs, epoch, group)
  }

  /** What a snapshot publishes, for every log, epoch and group. */
  lemma {:induction false} FieldsCount(rs: seq<Record>, epoch: nat, group: Option<nat>)
    ensures Publishes(Snapshot(rs, epoch, group), rs, epoch, group)
  {
    hide Alone, Accumulate, Publishes;
    if rs == [] {
      assert Publishes(NOTHING, [], epoch, group) by { NothingPublished(epoch, group); }
    } else {
      FieldsCount(rs[..|rs| - 1], epoch, group);
      PublishesMore(Snapshot(rs[..|rs| - 1], epoch, group), rs, epoch, group);
    }
  }

  lemma NothingPublished(epoch: nat, group: Option<nat>)
    ensures Publishes(NOTHING, [], epoch, group)
  {
    hide Count, Plus;
    PlusNothing(NO_TOTALS);
    forall q: Question ensures Count([], epoch, group, q) == NO_TOTALS {
      CountNone(epoch, group, q);
    }
  }

  lemma PlusIf(t: Totals, condition: bool, r: Record)
    ensures Plus(t, If(condition, r)) == Bump(t, condition, r.bytes)
  {
  }

  lemma PlusIfs(t: Totals, u: Totals, c: bool, d: bool, r: Record)
    ensures Plus(Plus(t, u), Plus(If(c, r), If(d, r))) == Plus(Bump(t, c, r.bytes), Bump(u, d, r.bytes))
  {
    hide Plus, If, Bump;
    PlusSwap(t, u, If(c, r), If(d, r));
    PlusIf(t, c, r);
    PlusIf(u, d, r);
  }

  lemma PlusSwap(t: Totals, u: Totals, v: Totals, w: Totals)
    ensures Plus(Plus(t, u), Plus(v, w)) == Plus(Plus(t, v), Plus(u, w))
  {
  }

  /** A record answers at most one of two questions. */
  lemma IfEither(c: bool, d: bool, r: Record)
    requires !(c && d)
    ensures If(c || d, r) == Plus(If(c, r), If(d, r))
  {
    hide Plus;
    PlusNothing(If(c, r));
    PlusNothing(If(d, r));
  }

  predicate Picks(r: Record, epoch: nat, group: Option<nat>, q: Question) {
    Covers(r, epoch, group) && Answers(r, q)
  }

  /** One record more, for one question. */
  lemma CountMore(rs: seq<Record>, epoch: nat, group: Option<nat>, q: Question)
    requires rs != []
    ensures var n := |rs| - 1;
            Plus(Count(rs[..n], epoch, group, q), If(Picks(rs[n], epoch, group, q), rs[n]))
            == Count(rs, epoch, group, q)
  {
    hide Count;
    CountLast(rs, epoch, group, q);
    PlusIf(Count(rs[..|rs| - 1], epoch, group, q), Picks(rs[|rs| - 1], epoch, group, q), rs[|rs| - 1]);
  }

  /** One record more, for two questions whose counts one field adds up. */
  lemma CountsMore(rs: seq<Record>, epoch: nat, group: Option<nat>, p: Question, q: Question)
    requires rs != []
    ensures var n := |rs| - 1;
            Plus(Plus(Count(rs[..n], epoch, group, p), Count(rs[..n], epoch, group, q)),
                 Plus(If(Picks(rs[n], epoch, group, p), rs[n]), If(Picks(rs[n], epoch, group, q), rs[n])))
            == Plus(Count(rs, epoch, group, p), Count(rs, epoch, group, q))
  {
    hide Count;
    var n := |rs| - 1;
    CountLast(rs, epoch, group, p);
    CountLast(rs, epoch, group, q);
    PlusIfs(Count(rs[..n], epoch, group, p), Count(rs[..n], epoch, group, q),
            Picks(rs[n], epoch, group, p), Picks(rs[n], epoch, group, q), rs[n]);
  }

  lemma PublishesMore(a: Accounting, rs: seq<Record>, epoch: nat, group: Option<nat>)
    requires rs != [] && Publishes(a, rs[..|rs| - 1], epoch, group)
    ensures Publishes(Accumulate(a, Alone(rs[|rs| - 1], epoch, group)), rs, epoch, group)
  {
    hide Count, Alone, Covers, Plus, If, Picks;
    var r := rs[|rs| - 1];
    OneRecord(r, epoch, group);
    PicksOne(r, epoch, group);
    IfEither(Picks(r, epoch, group, IsWaiting), Picks(r, epoch, group, IsActive), r);
    IfEither(Picks(r, epoch, group, IsCut(ConnectionLoss, true)), Picks(r, epoch, group, IsShort), r);
    CountMore(rs, epoch, group, IsAccepted);
    CountMore(rs, epoch, group, IsWritten);
    CountsMore(rs, epoch, group, IsWaiting, IsActive);
    CountsMore(rs, epoch, group, IsCut(ConnectionLoss, true), IsShort);
    forall cause: Cause, handed: bool
      ensures var n, q := |rs| - 1, IsCut(cause, handed);
              Plus(Count(rs[..n], epoch, group, q), If(Picks(rs[n], epoch, group, q), rs[n]))
              == Count(rs, epoch, group, q)
    {
      CountMore(rs, epoch, group, IsCut(cause, handed));
    }
  }

  /** The fields of a single record. */
  ghost predicate OnlyThis(a: Accounting, r: Record, epoch: nat, group: Option<nat>) {
    && a.accepted == If(Picks(r, epoch, group, IsAccepted), r)
    && a.written == If(Picks(r, epoch, group, IsWritten), r)
    && a.outstanding == If(Picks(r, epoch, group, IsWaiting) || Picks(r, epoch, group, IsActive), r)
    && a.explicitStop.discardedBeforeWrite == If(Picks(r, epoch, group, IsCut(ExplicitStop, false)), r)
    && a.explicitStop.abortedDuringWrite == If(Picks(r, epoch, group, IsCut(ExplicitStop, true)), r)
    && a.queuePressure.discardedBeforeWrite == If(Picks(r, epoch, group, IsCut(QueuePressure, false)), r)
    && a.queuePressure.abortedDuringWrite == If(Picks(r, epoch, group, IsCut(QueuePressure, true)), r)
    && a.sessionExpiry.discardedBeforeWrite == If(Picks(r, epoch, group, IsCut(SessionExpiry, false)), r)
    && a.sessionExpiry.abortedDuringWrite == If(Picks(r, epoch, group, IsCut(SessionExpiry, true)), r)
    && a.connectionLoss.discardedBeforeWrite == If(Picks(r, epoch, group, IsCut(ConnectionLoss, false)), r)
    && a.connectionLoss.abortedDuringWrite
       == If(Picks(r, epoch, group, IsCut(ConnectionLoss, true)) || Picks(r, epoch, group, IsShort), r)
    && a.confirmedWrittenBytes == if Covers(r, epoch, group) && r.status.Completed? then r.status.confirmed else 0
  }

  lemma PicksOne(r: Record, epoch: nat, group: Option<nat>)
    ensures !(Picks(r, epoch, group, IsWaiting) && Picks(r, epoch, group, IsActive))
    ensures !(Picks(r, epoch, group, IsCut(ConnectionLoss, true)) && Picks(r, epoch, group, IsShort))
  {
  }

  lemma OneRecord(r: Record, epoch: nat, group: Option<nat>)
    ensures OnlyThis(Alone(r, epoch, group), r, epoch, group)
  {
    hide Covers, Alone, If;
    var a := Alone(r, epoch, group);
    forall b: Bucket
      ensures Of(a, b) == If(Covers(r, epoch, group) && !r.status.Withdrawn? && (b == Accepted || b == Standing(r)), r)
    {
      AloneOf(r, epoch, group, b);
    }
    AloneConfirms(r, epoch, group);
    assert a.accepted == Of(a, Accepted) && a.written == Of(a, Written) && a.outstanding == Of(a, Outstanding);
    assert a.explicitStop == Losses(Of(a, Discarded(ExplicitStop)), Of(a, Aborted(ExplicitStop)));
    assert a.connectionLoss == Losses(Of(a, Discarded(ConnectionLoss)), Of(a, Aborted(ConnectionLoss)));
    assert a.queuePressure == Losses(Of(a, Discarded(QueuePressure)), Of(a, Aborted(QueuePressure)));
    assert a.sessionExpiry == Losses(Of(a, Discarded(SessionExpiry)), Of(a, Aborted(SessionExpiry)));
  }

  /** A record stands in two buckets: accepted, and where it stands. */
  lemma AloneOf(r: Record, epoch: nat, group: Option<nat>, b: Bucket)
    ensures Of(Alone(r, epoch, group), b)
            == If(Covers(r, epoch, group) && !r.status.Withdrawn? && (b == Accepted || b == Standing(r)), r)
  {
    hide Covers, With, Of, Plus;
    NothingAnywhere(b);
    if Covers(r, epoch, group) && !r.status.Withdrawn? {
      NothingAnywhere(Standing(r));
      NothingAnywhere(Accepted);
      PlusNothing(Totals(1, r.bytes));
      WithOf(NOTHING, Accepted, Totals(1, r.bytes));
      var one := Add(NOTHING, Accepted, r.bytes);
      assert Of(one, Standing(r)) == NO_TOTALS;
      WithOf(one, Standing(r), Totals(1, r.bytes));
      ConfirmKeeps(Add(one, Standing(r), r.bytes), ConfirmedOf(r), b);
    }
  }

  lemma NothingAnywhere(b: Bucket)
    ensures Of(NOTHING, b) == NO_TOTALS
  {
  }

  lemma ConfirmKeeps(a: Accounting, n: nat, b: Bucket)
    ensures Of(Confirm(a, n), b) == Of(a, b)
  {
  }

  lemma AloneConfirms(r: Record, epoch: nat, group: Option<nat>)
    ensures Alone(r, epoch, group).confirmedWrittenBytes
            == if Covers(r, epoch, group) && r.status.Completed? then r.status.confirmed else 0
  {
    hide Covers, With, Of, Plus;
    if Covers(r, epoch, group) && !r.status.Withdrawn? {
      WithOf(NOTHING, Accepted, Plus(Of(NOTHING, Accepted), Totals(1, r.bytes)));
      var one := Add(NOTHING, Accepted, r.bytes);
      WithOf(one, Standing(r), Plus(Of(one, Standing(r)), Totals(1, r.bytes)));
    }
  }

  // ------------------------------------------------------------------
  // Requests that are cut off
  // ------------------------------------------------------------------

  /**
   Exactly the two fields of that cause have grown, by what was waiting and by what
   had been handed over; those requests are outstanding no more.
   */
  ghost predicate LostTo(a: Accounting, b: Accounting, cause: Cause, before: Totals, during: Totals) {
    && b.accepted == a.accepted && b.written == a.written && b.confirmedWrittenBytes == a.confirmedWrittenBytes
    && a.outstanding == Plus(b.outstanding, Plus(before, during))
    && b.explicitStop.discardedBeforeWrite == Grown(a.explicitStop.discardedBeforeWrite, cause == ExplicitStop, before)
    && b.explicitStop.abortedDuringWrite == Grown(a.explicitStop.abortedDuringWrite, cause == ExplicitStop, during)
    && b.connectionLoss.discardedBeforeWrite
       == Grown(a.connectionLoss.discardedBeforeWrite, cause == ConnectionLoss, before)
    && b.connectionLoss.abortedDuringWrite
       == Grown(a.connectionLoss.abortedDuringWrite, cause == ConnectionLoss, during)
    && b.queuePressure.discardedBeforeWrite
       == Grown(a.queuePressure.discardedBeforeWrite, cause == QueuePressure, before)
    && b.queuePressure.abortedDuringWrite == Grown(a.queuePressure.abortedDuringWrite, cause == QueuePressure, during)
    && b.sessionExpiry.discardedBeforeWrite
       == Grown(a.sessionExpiry.discardedBeforeWrite, cause == SessionExpiry, before)
    && b.sessionExpiry.abortedDuringWrite == Grown(a.sessionExpiry.abortedDuringWrite, cause == SessionExpiry, during)
  }

  function Grown(t: Totals, grows: bool, more: Totals): Totals {
    if grows then Plus(t, more) else t
  }

  /** The live requests at the given positions end for that cause. */
  ghost predicate CutOff(rs: seq<Record>, rs': seq<Record>, cause: Cause, cut: set<nat>) {
    && |rs'| == |rs| && (forall i | i in cut :: 0 <= i < |rs| && Live(rs[i]))
    && forall i | 0 <= i < |rs| ::
         rs'[i] == if i in cut then rs[i].(status := Terminated(cause, rs[i].status.Active?)) else rs[i]
  }

  lemma {:induction false} TallyUnion(rs: seq<Record>, p: set<nat>, q: set<nat>)
    requires p !! q
    ensures Tally(rs, p + q) == Plus(Tally(rs, p), Tally(rs, q))
  {
    hide Plus;
    PlusNothing(NO_TOTALS);
    if rs != [] {
      var n := |rs| - 1;
      TallyUnion(rs[..n], p, q);
      PlusBump(Tally(rs[..n], p), Tally(rs[..n], q), n in p, n in q, rs[n].bytes);
    }
  }

  lemma PlusBump(t: Totals, u: Totals, c: bool, d: bool, bytes: nat)
    requires !(c && d)
    ensures Plus(Bump(t, c, bytes), Bump(u, d, bytes)) == Bump(Plus(t, u), c || d, bytes)
  {
  }

  /** A tally reads only the sizes. */
  lemma {:induction false} TallyBytes(rs: seq<Record>, rs': seq<Record>, p: set<nat>)
    requires |rs| == |rs'| && forall i | 0 <= i < |rs| :: rs[i].bytes == rs'[i].bytes
    ensures Tally(rs, p) == Tally(rs', p)
  {
    if rs != [] {
      TallyBytes(rs[..|rs| - 1], rs'[..|rs| - 1], p);
    }
  }

  lemma CutCounts(rs: seq<Record>, rs': seq<Record>, cause: Cause, cut: set<nat>, epoch: nat, group: Option<nat>)
    requires CutOff(rs, rs', cause, cut)
    ensures var waiting, active := Where(rs, epoch, group, IsWaiting) * cut, Where(rs, epoch, group, IsActive) * cut;
            && Count(rs, epoch, group, IsWaiting) == Plus(Count(rs', epoch, group, IsWaiting), Tally(rs, waiting))
            && Count(rs, epoch, group, IsActive) == Plus(Count(rs', epoch, group, IsActive), Tally(rs, active))
            && Count(rs', epoch, group, IsCut(cause, false))
               == Plus(Count(rs, epoch, group, IsCut(cause, false)), Tally(rs, waiting))
            && Count(rs', epoch, group, IsCut(cause, true))
               == Plus(Count(rs, epoch, group, IsCut(cause, true)), Tally(rs, active))
  {
    hide Tally, Plus, Covers;
    CutMoves(rs, rs', cause, cut, epoch, group, IsWaiting, IsCut(cause, false));
    CutMoves(rs, rs', cause, cut, epoch, group, IsActive, IsCut(cause, true));
  }

  lemma CutMoves(rs: seq<Record>, rs': seq<Record>, cause: Cause, cut: set<nat>, epoch: nat, group: Option<nat>,
                 from: Question, to: Question)
    requires CutOff(rs, rs', cause, cut)
    requires (from == IsWaiting && to == IsCut(cause, false)) || (from == IsActive && to == IsCut(cause, true))
    ensures var moved := Where(rs, epoch, group, from) * cut;
            && Count(rs, epoch, group, from) == Plus(Count(rs', epoch, group, from), Tally(rs, moved))
            && Count(rs', epoch, group, to) == Plus(Count(rs, epoch, group, to), Tally(rs, moved))
  {
    hide Tally, Plus;
    var moved := Where(rs, epoch, group, from) * cut;
    assert Where(rs, epoch, group, from) == Where(rs', epoch, group, from) + moved;
    TallyUnion(rs, Where(rs', epoch, group, from), moved);
    TallyBytes(rs, rs', Where(rs', epoch, group, from));
    assert Where(rs', epoch, group, to) == Where(rs, epoch, group, to) + moved;
    TallyUnion(rs, Where(rs, epoch, group, to), moved);
    TallyBytes(rs, rs', Where(rs', epoch, group, to));
  }

  /** No other question has another answer. */
  lemma CutKeeps(rs: seq<Record>, rs': seq<Record>, cause: Cause, cut: set<nat>, epoch: nat, group: Option<nat>,
                 q: Question)
    requires CutOff(rs, rs', cause, cut) && !q.IsWaiting? && !q.IsActive? && (q.IsCut? ==> q.cause != cause)
    ensures Count(rs', epoch, group, q) == Count(rs, epoch, group, q)
  {
    hide Tally;
    assert Where(rs', epoch, group, q) == Where(rs, epoch, group, q);
    TallyBytes(rs, rs', Where(rs, epoch, group, q));
  }

  lemma {:induction false} CutConfirms(rs: seq<Record>, rs': seq<Record>, cause: Cause, epoch: nat, group: Option<nat>)
    requires |rs'| == |rs|
    requires forall i | 0 <= i < |rs| ::
               rs'[i] == rs[i] || (Live(rs[i]) && rs'[i] == rs[i].(status := Terminated(cause, rs[i].status.Active?)))
    ensures ConfirmedBytes(rs', epoch, group) == ConfirmedBytes(rs, epoch, group)
  {
    if rs != [] {
      CutConfirms(rs[..|rs| - 1], rs'[..|rs| - 1], cause, epoch, group);
    }
  }

  /** What cutting requests off does to the fields, for the totals and for every group. */
  lemma CutPublishes(rs: seq<Record>, rs': seq<Record>, cause: Cause, cut: set<nat>, epoch: nat, group: Option<nat>)
    requires CutOff(rs, rs', cause, cut)
    ensures LostTo(Snapshot(rs, epoch, group), Snapshot(rs', epoch, group), cause,
                   Tally(rs, Where(rs, epoch, group, IsWaiting) * cut),
                   Tally(rs, Where(rs, epoch, group, IsActive) * cut))
  {
    hide Count, Tally, Plus, Snapshot, ConfirmedBytes, Where;
    FieldsCount(rs, epoch, group);
    FieldsCount(rs', epoch, group);
    CutConfirms(rs, rs', cause, epoch, group);
    CutCounts(rs, rs', cause, cut, epoch, group);
    forall q: Question | !q.IsWaiting? && !q.IsActive? && (q.IsCut? ==> q.cause != cause)
      ensures Count(rs', epoch, group, q) == Count(rs, epoch, group, q)
    {
      CutKeeps(rs, rs', cause, cut, epoch, group, q);
    }
    var before := Tally(rs, Where(rs, epoch, group, IsWaiting) * cut);
    var during := Tally(rs, Where(rs, epoch, group, IsActive) * cut);
    PlusSwap(Count(rs', epoch, group, IsWaiting), before, Count(rs', epoch, group, IsActive), during);
    PlusLast(Count(rs, epoch, group, IsCut(ConnectionLoss, true)), during, Count(rs, epoch, group, IsShort));
  }

  lemma PlusLast(t: Totals, u: Totals, v: Totals)
    ensures Plus(Plus(t, u), v) == Plus(Plus(t, v), u)
  {
  }

  /** end(): everything waiting was discarded before the write, everything handed over aborted during it. */
  lemma EndPublishes(h: History, cause: Cause, group: Option<nat>)
    ensures LostTo(Snapshot(h.records, h.epoch, group), Snapshot(Apply(h, End(cause)).records, h.epoch, group), cause,
                   Count(h.records, h.epoch, group, IsWaiting), Count(h.records, h.epoch, group, IsActive))
  {
    hide Tally, Snapshot, LostTo;
    var rs, rs' := h.records, Apply(h, End(cause)).records;
    var cut := set i: nat | i < |rs| && Live(rs[i]);
    CutPublishes(rs, rs', cause, cut, h.epoch, group);
    assert Where(rs, h.epoch, group, IsWaiting) * cut == Where(rs, h.epoch, group, IsWaiting);
    assert Where(rs, h.epoch, group, IsActive) * cut == Where(rs, h.epoch, group, IsActive);
  }

  /** The request with that id, if it is covered and answers the question. */
  function Lone(h: History, id: nat, group: Option<nat>, q: Question): Totals {
    if 1 <= id <= |h.records| && Picks(h.records[id - 1], h.epoch, group, q) then Totals(1, h.records[id - 1].bytes)
    else NO_TOTALS
  }

  lemma {:induction false} TallyLone(rs: seq<Record>, p: set<nat>, i: nat)
    requires i < |rs| && forall k | k in p :: k == i
    ensures Tally(rs, p) == if i in p then Totals(1, rs[i].bytes) else NO_TOTALS
  {
    var n := |rs| - 1;
    if i < n {
      TallyLone(rs[..n], p, i);
    } else {
      TallySame(rs[..n], p, {});
      TallyNone(rs[..n]);
    }
  }

  /** discard(): a live request moves to the field its handoff decides; a retired one changes nothing. */
  lemma DiscardPublishes(h: History, id: nat, cause: Cause, group: Option<nat>)
    ensures LostTo(Snapshot(h.records, h.epoch, group), Snapshot(Apply(h, Discard(id, cause)).records, h.epoch, group),
                   cause, Lone(h, id, group, IsWaiting), Lone(h, id, group, IsActive))
  {
    hide Tally, Snapshot, LostTo;
    var rs, rs' := h.records, Apply(h, Discard(id, cause)).records;
    var cut: set<nat> := if IsLive(rs, id) then {id - 1} else {};
    CutPublishes(rs, rs', cause, cut, h.epoch, group);
    var waiting, active := Where(rs, h.epoch, group, IsWaiting) * cut, Where(rs, h.epoch, group, IsActive) * cut;
    if IsLive(rs, id) {
      TallyLone(rs, waiting, id - 1);
      TallyLone(rs, active, id - 1);
    } else {
      TallyNone(rs);
      assert waiting == {} && active == {};
    }
  }

  /** discard_waiting(): the contributor's waiting requests were discarded before the write; no other changes. */
  lemma DiscardWaitingPublishes(h: History, contributor: nat, cause: Cause, group: Option<nat>)
    ensures LostTo(Snapshot(h.records, h.epoch, group),
                   Snapshot(Apply(h, DiscardWaiting(contributor, cause)).records, h.epoch, group), cause,
                   Tally(h.records, WaitingOf(h, contributor, group)), NO_TOTALS)
  {
    hide Tally, Snapshot, LostTo;
    var rs, rs' := h.records, Apply(h, DiscardWaiting(contributor, cause)).records;
    var cut := set i: nat | i < |rs| && rs[i].status.Waiting? && rs[i].group == Some(contributor);
    CutPublishes(rs, rs', cause, cut, h.epoch, group);
    assert Where(rs, h.epoch, group, IsWaiting) * cut == WaitingOf(h, contributor, group);
    assert Where(rs, h.epoch, group, IsActive) * cut == {};
    TallyNone(rs);
  }

  ghost function WaitingOf(h: History, contributor: nat, group: Option<nat>): set<nat> {
    set i: nat | i < |h.records| && Covers(h.records[i], h.epoch, group) && h.records[i].status.Waiting?
                 && h.records[i].group == Some(contributor)
  }

  // ------------------------------------------------------------------
  // Requests that complete
  // ------------------------------------------------------------------

  /** Written and aborted requests and confirmed bytes have grown by that much, and nothing else has. */
  ghost predicate DoneTo(a: Accounting, b: Accounting, written: Totals, short: Totals, confirmed: nat) {
    && b.accepted == a.accepted && a.outstanding == Plus(b.outstanding, Plus(written, short))
    && b.written == Plus(a.written, written)
    && b.connectionLoss.abortedDuringWrite == Plus(a.connectionLoss.abortedDuringWrite, short)
    && b.connectionLoss.discardedBeforeWrite == a.connectionLoss.discardedBeforeWrite
    && b.explicitStop == a.explicitStop && b.queuePressure == a.queuePressure && b.sessionExpiry == a.sessionExpiry
    && b.confirmedWrittenBytes == a.confirmedWrittenBytes + confirmed
  }

  function WireSize(items: seq<(nat, nat)>): nat {
    if items == [] then 0 else WireSize(items[..|items| - 1]) + items[|items| - 1].1
  }

  /** What a prefix of `confirmed` wire bytes holds of an item that starts at `start`. */
  function Part(confirmed: nat, start: nat, size: nat): nat {
    if confirmed <= start then 0 else if confirmed - start < size then confirmed - start else size
  }

  /** complete_batch, from the back: the last item gets what the others left of the prefix. */
  lemma {:induction false} CompleteAllSnoc(rs: seq<Record>, items: seq<(nat, nat)>, x: (nat, nat), confirmed: nat)
    ensures var done, part := CompleteAll(rs, items, confirmed), Part(confirmed, WireSize(items), x.1);
            CompleteAll(rs, items + [x], confirmed)
            == if 1 <= x.0 <= |rs| then done[x.0 - 1 := Finished(done[x.0 - 1], part)] else done
    decreases |items|
  {
    if items == [] {
      assert items + [x] == [x] && [x][1..] == [];
    } else {
      var part := if confirmed < items[0].1 then confirmed else items[0].1;
      assert (items + [x])[0] == items[0] && (items + [x])[1..] == items[1..] + [x];
      CompleteAllSnoc(At(rs, items[0].0, r => Finished(r, part)), items[1..], x, confirmed - part);
      WireSizeHead(items);
    }
  }

  lemma {:induction false} WireSizeHead(items: seq<(nat, nat)>)
    requires items != []
    ensures WireSize(items) == items[0].1 + WireSize(items[1..])
  {
    var n := |items| - 1;
    if n > 0 {
      WireSizeHead(items[..n]);
      assert items[..n][1..] == items[1..][..n - 1];
    }
  }

  /** The request is live and covered: completing it moves the counters. */
  predicate Settles(rs: seq<Record>, id: nat, epoch: nat, group: Option<nat>) {
    IsLive(rs, id) && Covers(rs[id - 1], epoch, group)
  }

  /** The items that are empty or end within the prefix, among those that settle. */
  function WrittenIn(rs: seq<Record>, items: seq<(nat, nat)>, confirmed: nat, epoch: nat, group: Option<nat>): Totals {
    if items == [] then NO_TOTALS
    else
      var n := |items| - 1;
      var x := items[n];
      Bump(WrittenIn(rs, items[..n], confirmed, epoch, group),
           Settles(rs, x.0, epoch, group) && (x.1 == 0 || WireSize(items) <= confirmed), x.1)
  }

  /** The others. */
  function ShortIn(rs: seq<Record>, items: seq<(nat, nat)>, confirmed: nat, epoch: nat, group: Option<nat>): Totals {
    if items == [] then NO_TOTALS
    else
      var n := |items| - 1;
      var x := items[n];
      Bump(ShortIn(rs, items[..n], confirmed, epoch, group),
           Settles(rs, x.0, epoch, group) && x.1 > 0 && WireSize(items) > confirmed, x.1)
  }

  /** The part of the prefix that lies in items that settle. */
  function ConfirmedIn(rs: seq<Record>, items: seq<(nat, nat)>, confirmed: nat, epoch: nat, group: Option<nat>): nat {
    if items == [] then 0
    else
      var n := |items| - 1;
      ConfirmedIn(rs, items[..n], confirmed, epoch, group)
      + if Settles(rs, items[n].0, epoch, group) then Part(confirmed, WireSize(items[..n]), items[n].1) else 0
  }

  /** Requests are named once, with their own size. */
  ghost predicate OwnSizes(rs: seq<Record>, items: seq<(nat, nat)>) {
    && DistinctIds(items)
    && forall i | 0 <= i < |items| && IsLive(rs, items[i].0) :: rs[items[i].0 - 1].bytes == items[i].1
  }

  /** What complete_batch does to the fields, whichever of its requests have already ended. */
  lemma {:induction false} CompletePublishes(rs: seq<Record>, items: seq<(nat, nat)>, confirmed: nat,
                                             epoch: nat, group: Option<nat>)
    requires OwnSizes(rs, items)
    ensures DoneTo(Snapshot(rs, epoch, group), Snapshot(CompleteAll(rs, items, confirmed), epoch, group),
                   WrittenIn(rs, items, confirmed, epoch, group), ShortIn(rs, items, confirmed, epoch, group),
                   ConfirmedIn(rs, items, confirmed, epoch, group))
    decreases |items|
  {
    hide Snapshot, DoneTo, CompleteAll, Covers;
    if items == [] {
      DoneNothing(rs, epoch, group);
      assert CompleteAll(rs, [], confirmed) == rs by { CompleteNothing(rs, confirmed); }
    } else {
      var n := |items| - 1;
      var x, init := items[n], items[..n];
      CompletePublishes(rs, init, confirmed, epoch, group);
      assert items == init + [x];
      CompleteAllSnoc(rs, init, x, confirmed);
      if 1 <= x.0 <= |rs| {
        CompleteAllSkips(rs, init, confirmed, x.0);
        FinishPublishes(CompleteAll(rs, init, confirmed), x.0 - 1, Part(confirmed, WireSize(init), x.1), epoch, group);
      }
      if Settles(rs, x.0, epoch, group) {
        DoneOneMore(Snapshot(rs, epoch, group), Snapshot(CompleteAll(rs, init, confirmed), epoch, group),
                    Snapshot(CompleteAll(rs, items, confirmed), epoch, group),
                    WrittenIn(rs, init, confirmed, epoch, group), ShortIn(rs, init, confirmed, epoch, group),
                    ConfirmedIn(rs, init, confirmed, epoch, group),
                    Part(confirmed, WireSize(init), x.1) == x.1, x.1, Part(confirmed, WireSize(init), x.1));
      }
    }
  }

  /** One request more was settled. */
  ghost predicate OneDone(a: Accounting, b: Accounting, written: bool, bytes: nat, confirmed: nat) {
    && b.accepted == a.accepted && a.outstanding == Bump(b.outstanding, true, bytes)
    && b.written == Bump(a.written, written, bytes)
    && b.connectionLoss.abortedDuringWrite == Bump(a.connectionLoss.abortedDuringWrite, !written, bytes)
    && b.connectionLoss.discardedBeforeWrite == a.connectionLoss.discardedBeforeWrite
    && b.explicitStop == a.explicitStop && b.queuePressure == a.queuePressure && b.sessionExpiry == a.sessionExpiry
    && b.confirmedWrittenBytes == a.confirmedWrittenBytes + confirmed
  }

  lemma DoneOneMore(a: Accounting, b: Accounting, c: Accounting, written: Totals, short: Totals, confirmed: nat,
                    whole: bool, bytes: nat, part: nat)
    requires DoneTo(a, b, written, short, confirmed) && OneDone(b, c, whole, bytes, part)
    ensures DoneTo(a, c, Bump(written, whole, bytes), Bump(short, !whole, bytes), confirmed + part)
  {
  }

  lemma FinishPublishes(rs: seq<Record>, i: nat, part: nat, epoch: nat, group: Option<nat>)
    requires i < |rs|
    ensures var a, b := Snapshot(rs, epoch, group), Snapshot(rs[i := Finished(rs[i], part)], epoch, group);
            if Live(rs[i]) && Covers(rs[i], epoch, group) then
              OneDone(a, b, part >= rs[i].bytes, rs[i].bytes, if part < rs[i].bytes then part else rs[i].bytes)
            else a == b
  {
    hide Snapshot, Covers;
    var r := Finished(rs[i], part);
    if !Live(rs[i]) {
      assert rs[i := r] == rs;
    } else if Covers(rs[i], epoch, group) {
      SnapshotSettled(rs, i, r, epoch, group);
    } else {
      SnapshotSame(rs, i, r, epoch, group);
    }
  }

  lemma CompleteNothing(rs: seq<Record>, confirmed: nat)
    ensures CompleteAll(rs, [], confirmed) == rs
  {
  }

  lemma DoneNothing(rs: seq<Record>, epoch: nat, group: Option<nat>)
    ensures var a := Snapshot(rs, epoch, group); DoneTo(a, a, NO_TOTALS, NO_TOTALS, 0)
  {
    hide Plus;
    var a := Snapshot(rs, epoch, group);
    PlusNothing(NO_TOTALS);
    PlusNothing(a.outstanding);
    PlusNothing(a.written);
    PlusNothing(a.connectionLoss.abortedDuringWrite);
  }

  /** When every item settles, all of the prefix that lies in the batch is confirmed. */
  lemma {:induction false} WholeBatchConfirmed(rs: seq<Record>, items: seq<(nat, nat)>, confirmed: nat,
                                               epoch: nat, group: Option<nat>)
    requires forall i | 0 <= i < |items| :: Settles(rs, items[i].0, epoch, group)
    ensures ConfirmedIn(rs, items, confirmed, epoch, group)
            == if confirmed < WireSize(items) then confirmed else WireSize(items)
  {
    hide Settles;
    if items != [] {
      WholeBatchConfirmed(rs, items[..|items| - 1], confirmed, epoch, group);
    }
  }

  /** Each request of the batch that is live gets its part of the prefix. */
  lemma {:induction false} PrefixSettles(rs: seq<Record>, items: seq<(nat, nat)>, confirmed: nat, i: nat)
    requires DistinctIds(items) && i < |items| && 1 <= items[i].0 <= |rs|
    ensures CompleteAll(rs, items, confirmed)[items[i].0 - 1]
            == Finished(rs[items[i].0 - 1], Part(confirmed, WireSize(items[..i]), items[i].1))
    decreases |items|
  {
    hide CompleteAll, Finished, Part;
    var n := |items| - 1;
    var x, init := items[n], items[..n];
    assert items == init + [x];
    CompleteAllSnoc(rs, init, x, confirmed);
    if i < n {
      PrefixSettles(rs, init, confirmed, i);
      assert init[..i] == items[..i];
    } else {
      CompleteAllSkips(rs, init, confirmed, x.0);
    }
  }

  // ------------------------------------------------------------------
  // Everything else leaves what was written alone
  // ------------------------------------------------------------------

  /** No request was completed in between. */
  ghost predicate NoneCompleted(rs: seq<Record>, rs': seq<Record>) {
    && |rs| <= |rs'|
    && (forall i | 0 <= i < |rs| ::
          rs'[i] == rs[i] || (Live(rs[i]) && !rs'[i].status.Completed? && rs'[i] == rs[i].(status := rs'[i].status)))
    && (forall i | |rs| <= i < |rs'| :: !rs'[i].status.Completed?)
  }

  lemma NoneCompletedTwice(a: seq<Record>, b: seq<Record>, c: seq<Record>)
    requires NoneCompleted(a, b) && NoneCompleted(b, c)
    ensures NoneCompleted(a, c)
  {
  }

  lemma OthersCompleteNone(h: History, op: Op)
    requires !op.Complete? && !op.CompleteBatch?
    ensures NoneCompleted(h.records, Apply(h, op).records)
  {
  }

  lemma {:induction false} TallyMore(rs: seq<Record>, rs': seq<Record>, p: set<nat>)
    requires |rs| <= |rs'| && forall i | 0 <= i < |rs| :: rs[i].bytes == rs'[i].bytes
    requires forall i | i in p :: i < |rs|
    ensures Tally(rs', p) == Tally(rs, p)
    decreases |rs'|
  {
    if |rs| < |rs'| {
      TallyMore(rs, rs'[..|rs'| - 1], p);
    } else {
      TallyBytes(rs, rs', p);
    }
  }

  lemma {:induction false} ConfirmedSame(rs: seq<Record>, rs': seq<Record>, epoch: nat, group: Option<nat>)
    requires NoneCompleted(rs, rs')
    ensures ConfirmedBytes(rs', epoch, group) == ConfirmedBytes(rs, epoch, group)
    decreases |rs'|
  {
    if |rs| < |rs'| {
      ConfirmedSame(rs, rs'[..|rs'| - 1], epoch, group);
    } else if rs != [] {
      ConfirmedSame(rs[..|rs| - 1], rs'[..|rs| - 1], epoch, group);
    }
  }

  /** The written requests and the confirmed bytes are the same, in every epoch. */
  lemma SameWritten(rs: seq<Record>, rs': seq<Record>, epoch: nat, group: Option<nat>)
    requires NoneCompleted(rs, rs')
    ensures var a, b := Snapshot(rs, epoch, group), Snapshot(rs', epoch, group);
            b.written == a.written && b.confirmedWrittenBytes == a.confirmedWrittenBytes
  {
    hide Tally, Snapshot, ConfirmedBytes;
    FieldsCount(rs, epoch, group);
    FieldsCount(rs', epoch, group);
    ConfirmedSame(rs, rs', epoch, group);
    assert Where(rs', epoch, group, IsWritten) == Where(rs, epoch, group, IsWritten);
    TallyMore(rs, rs', Where(rs, epoch, group, IsWritten));
  }
}
