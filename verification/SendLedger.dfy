/**
 SendAccountingLedger (wirestead/diagnostics/send_accounting.hpp): the fast form
 of a send history.  Requests live in a power-of-two ring indexed by id, older
 survivors in a sparse map, and the counters are kept incrementally.

 A ledger lock makes every public operation one step, so each is one method.
 */
module SendLedger {
  import opened Options
  import opened SendAccounting
  import opened SendHistory
  import SendFates
  import opened SendPublished

  datatype Entry = Entry(bytes: nat, epoch: nat, active: bool, live: bool, group: Option<nat>)

  const VACANT := Entry(0, 0, false, false, None)

  /** A contributor's counters, valid only for the epoch they were last used in. */
  datatype Group = Group(totals: Accounting, epoch: nat)

  function GroupOf(groups: map<nat, Group>, g: nat): Group {
    if g in groups then groups[g] else Group(NOTHING, 0)
  }

  // ------------------------------------------------------------------
  // The ring
  // ------------------------------------------------------------------

  predicate PowerOfTwo(n: nat) {
    n == 1 || (n > 1 && n % 2 == 0 && PowerOfTwo(n / 2))
  }

  /** Index (head + i) & (n - 1), written without division; see MaskWraps. */
  function Pos(head: nat, i: nat, n: nat): (p: nat)
    requires head < n && i <= n
    ensures p < n
  {
    if head + i < n then head + i else head + i - n
  }

  function BitAnd(x: nat, y: nat): nat {
    if x == 0 || y == 0 then 0 else 2 * BitAnd(x / 2, y / 2) + (if x % 2 == 1 && y % 2 == 1 then 1 else 0)
  }

  lemma {:induction false} MaskIsRemainder(x: nat, n: nat)
    requires PowerOfTwo(n)
    ensures BitAnd(x, n - 1) == x % n
    decreases x
  {
    hide BitAnd;
    if n == 1 || x == 0 {
      BitAndZero(x, n - 1);
    } else {
      var m := n / 2;
      assert n == 2 * m;
      assert BitAnd(x / 2, m - 1) == x / 2 % m by { MaskIsRemainder(x / 2, m); }
      assert BitAnd(x, n - 1) == 2 * (x / 2 % m) + x % 2 by { BitAndOfMask(x, m); }
      assert x % n == 2 * (x / 2 % m) + x % 2 by { HalfRemainder(x, m); }
    }
  }

  lemma BitAndZero(x: nat, y: nat)
    requires x == 0 || y == 0
    ensures BitAnd(x, y) == 0
  {
  }

  lemma BitAndOfMask(x: nat, m: nat)
    requires x > 0 && m > 0
    ensures BitAnd(x, 2 * m - 1) == 2 * BitAnd(x / 2, m - 1) + x % 2
  {
    assert (2 * m - 1) / 2 == m - 1 && (2 * m - 1) % 2 == 1;
  }

  lemma HalfRemainder(x: nat, m: nat)
    requires m > 0
    ensures x % (2 * m) == 2 * (x / 2 % m) + x % 2
  {
    var q := x / 2 / m;
    assert x / 2 == m * q + x / 2 % m;
    assert 2 * (m * q) == (2 * m) * q;
    Remainder(x, 2 * m, q, 2 * (x / 2 % m) + x % 2);
  }

  lemma Remainder(x: nat, n: nat, q: nat, r: nat)
    requires n > 0 && x == n * q + r && r < n
    ensures x % n == r
  {
    var d := x / n - q;
    assert x == n * (x / n) + x % n;
    assert n * d == r - x % n;
    assert -(n as int) < n * d < n;
    NoMultipleBetween(n, d);
  }

  lemma NoMultipleBetween(n: int, d: int)
    requires -n < n * d < n
    ensures d == 0
  {
  }

  /** The index the C++ computes with a mask is the wrapped index used here. */
  lemma MaskWraps(head: nat, i: nat, n: nat)
    requires PowerOfTwo(n) && head < n && i <= n
    ensures BitAnd(head + i, n - 1) == Pos(head, i, n)
  {
    MaskIsRemainder(head + i, n);
    if head + i < n {
      Remainder(head + i, n, 0, head + i);
    } else {
      Remainder(head + i, n, 1, head + i - n);
    }
  }

  /** An entry holds exactly what a live record says, and is dead when the record is. */
  predicate Matches(e: Entry, r: Record) {
    && e.live == Live(r)
    && (e.live ==> e.bytes == r.bytes && e.epoch == r.epoch && e.group == r.group && e.active == r.status.Active?)
  }

  predicate Shape(slots: seq<Entry>, head: nat, count: nat, base: nat, nextId: nat) {
    && (slots == [] || (16 <= |slots| && PowerOfTwo(|slots|)))
    && count <= |slots|
    && head <= |slots|
    && (head == |slots| ==> slots == [])
    && 1 <= base
    && base + count == nextId + 1
  }

  /** slot(i) is request base + i; `except` names one id whose slot is being changed (0: none). */
  ghost predicate RingHolds(slots: seq<Entry>, head: nat, count: nat, base: nat, log: seq<Record>, except: nat) {
    && count <= |slots| && (count > 0 ==> head < |slots|)
    && 1 <= base && base + count == |log| + 1
    && forall i | 0 <= i < count && base + i != except :: Matches(slots[Pos(head, i, |slots|)], log[base + i - 1])
  }

  /** The sparse map holds exactly the live ids below base. */
  ghost predicate SparseHolds(sparse: map<nat, Entry>, base: nat, log: seq<Record>, except: nat) {
    && 1 <= base <= |log| + 1
    && (forall k | k in sparse :: 1 <= k < base)
    && (forall k | k in sparse && k != except :: Live(log[k - 1]) && Matches(sparse[k], log[k - 1]))
    && (forall k | 1 <= k < base && k != except && Live(log[k - 1]) :: k in sparse)
  }

  /** The incremental counters are the tallies over the log. */
  ghost predicate CountersAgree(totals: Accounting, groups: map<nat, Group>, epoch: nat, log: seq<Record>) {
    && totals == Snapshot(log, epoch, None)
    && (forall g :: GroupOf(groups, g).epoch <= epoch)
    && (forall g | GroupOf(groups, g).epoch == epoch :: GroupOf(groups, g).totals == Snapshot(log, epoch, Some(g)))
    && (forall i | 0 <= i < |log| :: log[i].epoch <= epoch)
    && (forall i | 0 <= i < |log| && log[i].epoch == epoch && log[i].group.Some? ::
          GroupOf(groups, log[i].group.value).epoch == epoch)
  }

  function Max(x: nat, y: nat): nat {
    if x < y then y else x
  }

  lemma {:induction false} LiveCountSlice(rs: seq<Record>, lo: nat, hi: nat)
    requires lo <= hi <= |rs|
    ensures LiveCount(rs[lo..hi]) <= LiveCount(rs)
    decreases |rs|
  {
    if lo == hi {
      assert rs[lo..hi] == [];
    } else if hi < |rs| {
      assert rs[lo..hi] == rs[..|rs| - 1][lo..hi];
      LiveCountSlice(rs[..|rs| - 1], lo, hi);
    } else {
      assert rs[lo..hi][..hi - lo - 1] == rs[..|rs| - 1][lo..hi - 1];
      LiveCountSlice(rs[..|rs| - 1], lo, hi - 1);
    }
  }

  lemma {:induction false} SameLiveCount(rs: seq<Record>, qs: seq<Record>)
    requires |rs| == |qs| && forall i | 0 <= i < |rs| :: Live(rs[i]) == Live(qs[i])
    ensures LiveCount(rs) == LiveCount(qs)
  {
    if rs != [] {
      SameLiveCount(rs[..|rs| - 1], qs[..|qs| - 1]);
    }
  }

  lemma {:induction false} LiveCountEnded(rs: seq<Record>, i: nat, r: Record)
    requires i < |rs| && !Live(r)
    ensures LiveCount(rs[i := r]) <= LiveCount(rs)
  {
    var n := |rs| - 1;
    if i == n {
      assert rs[i := r][..n] == rs[..n];
    } else {
      assert rs[i := r][..n] == rs[..n][i := r];
      LiveCountEnded(rs[..n], i, r);
    }
  }

  // ------------------------------------------------------------------
  // Counter updates
  // ------------------------------------------------------------------

  function Settled(a: Accounting, bytes: nat, to: Bucket, confirmed: nat): Accounting
    requires a.outstanding.requests >= 1 && a.outstanding.bytes >= bytes
  {
    Add(Remove(Confirm(a, confirmed), Outstanding, bytes), to, bytes)
  }

  /** Changing a live record to r, counted as the code counts it, keeps the counters exact. */
  lemma SettleAgrees(totals: Accounting, groups: map<nat, Group>, epoch: nat, log: seq<Record>, i: nat, r: Record,
                     totals': Accounting, groups': map<nat, Group>)
    requires CountersAgree(totals, groups, epoch, log)
    requires i < |log| && r == log[i].(status := r.status)
    requires log[i].epoch != epoch ==> totals' == totals && groups' == groups
    requires log[i].epoch == epoch ==> totals' == Snapshot(log[i := r], epoch, None)
    requires log[i].epoch == epoch && log[i].group.None? ==> groups' == groups
    requires log[i].epoch == epoch && log[i].group.Some? ==>
               var g := log[i].group.value;
               groups' == groups[g := Group(Snapshot(log[i := r], epoch, Some(g)), epoch)]
    ensures CountersAgree(totals', groups', epoch, log[i := r])
  {
    hide Snapshot;
    var after := log[i := r];
    assert forall j | 0 <= j < |log| :: after[j].epoch == log[j].epoch && after[j].group == log[j].group;
    if log[i].epoch != epoch {
      SnapshotSame(log, i, r, epoch, None);
    }
    forall g | GroupOf(groups', g).epoch == epoch
      ensures GroupOf(groups', g).totals == Snapshot(log[i := r], epoch, Some(g))
    {
      if !Covers(log[i], epoch, Some(g)) {
        SnapshotSame(log, i, r, epoch, Some(g));
      }
    }
    forall g ensures GroupOf(groups', g).epoch <= epoch {
      assert GroupOf(groups, g).epoch <= epoch;
    }
  }

  /** The log with the given ids ended. */
  ghost function EndSome(rs: seq<Record>, done: set<nat>, cause: Cause): (r: seq<Record>)
    ensures |r| == |rs|
  {
    seq(|rs|, i requires 0 <= i < |rs| => if i + 1 in done then Ended(rs[i], cause) else rs[i])
  }

  lemma EndSomeMore(rs: seq<Record>, done: set<nat>, cause: Cause, id: nat)
    requires 1 <= id <= |rs|
    ensures EndSome(rs, done + {id}, cause) == EndSome(rs, done, cause)[id - 1 := Ended(rs[id - 1], cause)]
    ensures id !in done ==> EndSome(rs, done, cause)[id - 1] == rs[id - 1]
  {
  }

  lemma EndSomeIsEndAll(rs: seq<Record>, done: set<nat>, cause: Cause)
    requires forall k | 1 <= k <= |rs| && Live(rs[k - 1]) :: k in done
    ensures EndSome(rs, done, cause) == EndAll(rs, cause)
  {
  }

  /** The ids below `bound` that discard_waiting ends. */
  ghost predicate Expired(rs: seq<Record>, done: set<nat>, group: nat, bound: nat) {
    && bound <= |rs| + 1
    && (forall k | k in done :: 1 <= k < bound && WaitingIn(rs[k - 1], group))
    && (forall k | 1 <= k < bound && WaitingIn(rs[k - 1], group) :: k in done)
  }

  lemma EndSomeIsExpireAll(rs: seq<Record>, done: set<nat>, group: nat, cause: Cause)
    requires Expired(rs, done, group, |rs| + 1)
    ensures EndSome(rs, done, cause) == ExpireAll(rs, group, cause)
  {
    forall k | 0 <= k < |rs| ensures k + 1 in done <==> WaitingIn(rs[k], group) {
      assert rs[k + 1 - 1] == rs[k];
    }
  }

  /** Progress of discard_waiting through the sparse map: `done` are the seen ids that were waiting. */
  ghost predicate Sifted(rs: seq<Record>, base: nat, group: nat, todo: set<nat>, seen: set<nat>, done: set<nat>) {
    && 1 <= base <= |rs| + 1
    && todo !! seen && done <= seen
    && (forall k | k in seen || k in todo :: 1 <= k < base && Live(rs[k - 1]))
    && (forall k | 1 <= k < base && Live(rs[k - 1]) :: k in seen || k in todo)
    && (forall k | k in seen :: k in done <==> WaitingIn(rs[k - 1], group))
  }

  lemma SiftStart(sparse: map<nat, Entry>, rs: seq<Record>, base: nat, group: nat)
    requires SparseHolds(sparse, base, rs, 0)
    ensures Sifted(rs, base, group, sparse.Keys, {}, {})
  {
  }

  lemma SiftMore(rs: seq<Record>, base: nat, group: nat, todo: set<nat>, seen: set<nat>, done: set<nat>, id: nat)
    requires Sifted(rs, base, group, todo, seen, done) && id in todo
    ensures 1 <= id < base && id !in done
    ensures WaitingIn(rs[id - 1], group) ==> Sifted(rs, base, group, todo - {id}, seen + {id}, done + {id})
    ensures !WaitingIn(rs[id - 1], group) ==> Sifted(rs, base, group, todo - {id}, seen + {id}, done)
  {
  }

  lemma SiftEnd(rs: seq<Record>, base: nat, group: nat, seen: set<nat>, done: set<nat>)
    requires Sifted(rs, base, group, {}, seen, done)
    ensures Expired(rs, done, group, base)
  {
  }

  lemma SparseAt(sparse: map<nat, Entry>, base: nat, log: seq<Record>, id: nat)
    requires SparseHolds(sparse, base, log, 0) && id in sparse
    ensures 1 <= id < base <= |log| + 1 && Live(log[id - 1]) && Matches(sparse[id], log[id - 1])
  {
  }

  // ------------------------------------------------------------------
  // Storage under single changes
  // ------------------------------------------------------------------

  lemma RingExcept(slots: seq<Entry>, head: nat, count: nat, base: nat, log: seq<Record>, id: nat, r: Record)
    requires RingHolds(slots, head, count, base, log, 0) && 1 <= id <= |log|
    ensures RingHolds(slots, head, count, base, log[id - 1 := r], id)
  {
  }

  lemma SparseExcept(sparse: map<nat, Entry>, base: nat, log: seq<Record>, id: nat, r: Record)
    requires SparseHolds(sparse, base, log, 0) && 1 <= id <= |log|
    ensures SparseHolds(sparse, base, log[id - 1 := r], id)
  {
  }

  /** Storing one id's entry anew, wherever it lives, completes the picture again. */
  lemma RingStore(slots: seq<Entry>, head: nat, count: nat, base: nat, log: seq<Record>, id: nat, e: Entry)
    requires RingHolds(slots, head, count, base, log, id) && base <= id <= |log|
    requires Matches(e, log[id - 1])
    ensures RingHolds(slots[Pos(head, id - base, |slots|) := e], head, count, base, log, 0)
  {
    var p := Pos(head, id - base, |slots|);
    forall i | 0 <= i < count ensures Matches(slots[p := e][Pos(head, i, |slots|)], log[base + i - 1]) {
      if base + i != id {
        assert Pos(head, i, |slots|) != p;
      }
    }
  }

  lemma RingElsewhere(slots: seq<Entry>, head: nat, count: nat, base: nat, log: seq<Record>, id: nat)
    requires RingHolds(slots, head, count, base, log, id) && id < base
    ensures RingHolds(slots, head, count, base, log, 0)
  {
  }

  lemma SparseElsewhere(sparse: map<nat, Entry>, base: nat, log: seq<Record>, id: nat)
    requires SparseHolds(sparse, base, log, id) && base <= id
    ensures SparseHolds(sparse, base, log, 0)
  {
  }

  lemma RingAdmit(slots: seq<Entry>, head: nat, count: nat, base: nat, log: seq<Record>, e: Entry, r: Record)
    requires RingHolds(slots, head, count, base, log, 0) && count < |slots| && head < |slots|
    requires Matches(e, r)
    ensures RingHolds(slots[Pos(head, count, |slots|) := e], head, count + 1, base, log + [r], 0)
  {
    var p := Pos(head, count, |slots|);
    forall i | 0 <= i < count + 1 ensures Matches(slots[p := e][Pos(head, i, |slots|)], (log + [r])[base + i - 1]) {
      if i < count {
        assert Matches(slots[Pos(head, i, |slots|)], log[base + i - 1]);
      }
    }
  }

  lemma SparseAdmit(sparse: map<nat, Entry>, base: nat, log: seq<Record>, r: Record)
    requires SparseHolds(sparse, base, log, 0)
    ensures SparseHolds(sparse, base, log + [r], 0)
  {
  }

  class Ledger {
    var slots: seq<Entry>
    var sparse: map<nat, Entry>
    var head: nat
    var count: nat
    var base: nat
    var nextId: nat
    var epoch: nat
    var totals: Accounting
    var groups: map<nat, Group>   // the Group objects behind the handles
    ghost var log: seq<Record>
    ghost var peak: nat           // most requests ever live at once

    ghost predicate Valid()
      reads this
    {
      && Stored(0)
      && (count > 0 ==> slots[head].live)
      && CountersAgree(totals, groups, epoch, log)
      && Bounded()
    }

    /** Ring and sparse map together hold the live records, except possibly one. */
    ghost predicate Stored(except: nat)
      reads this
    {
      && nextId == |log|
      && Shape(slots, head, count, base, nextId)
      && RingHolds(slots, head, count, base, log, except)
      && SparseHolds(sparse, base, log, except)
    }

    ghost predicate Bounded()
      reads this
    {
      |slots| <= Max(16, 4 * peak) && LiveCount(log) <= peak
    }

    ghost function View(): History
      reads this
    {
      History(log, epoch)
    }

    constructor ()
      ensures Valid() && View() == EMPTY && peak == 0
    {
      slots, sparse, head, count, base, nextId := [], map[], 0, 0, 1, 0;
      epoch, totals, groups := 0, NOTHING, map[];
      log, peak := [], 0;
      new;
      forall g: nat ensures Snapshot([], 0, Some(g)) == NOTHING {
      }
    }

    // ---- lookups -----------------------------------------------------

    function Slot(i: nat): Entry
      requires i < count <= |slots| && head < |slots|
      reads this
    {
      slots[Pos(head, i, |slots|)]
    }

    /** find: the live entry of an id, if any. */
    function Find(id: nat): (e: Option<Entry>)
      requires Stored(0)
      reads this
      ensures e.Some? <==> IsLive(log, id)
      ensures e.Some? ==> e.value.live && Matches(e.value, log[id - 1])
    {
      if id < base then
        if id in sparse then Some(sparse[id]) else None
      else if id - base >= count then None
      else if Slot(id - base).live then Some(Slot(id - base)) else None
    }

    function Contains(id: nat): (b: bool)
      requires Stored(0)
      reads this
      ensures b <==> IsLive(log, id)
    {
      if id < base then id in sparse else id - base < count && Slot(id - base).live
    }

    function SnapshotAll(): (a: Accounting)
      requires Valid()
      reads this
      ensures a == Snapshot(log, epoch, None)
    {
      totals
    }

    function SnapshotOf(g: nat): (a: Accounting)
      requires Valid()
      reads this
      ensures a == Snapshot(log, epoch, Some(g))
    {
      var group := GroupOf(groups, g);
      assert group.epoch != epoch ==> Snapshot(log, epoch, Some(g)) == NOTHING by {
        if group.epoch != epoch { SnapshotNothing(log, epoch, Some(g)); }
      }
      if group.epoch == epoch then group.totals else NOTHING
    }

    // ---- storage -----------------------------------------------------

    /** compact: drop dead slots at the head.  The represented requests do not change. */
    method Compact()
      requires Stored(0)
      modifies this`head, this`count, this`base
      ensures Stored(0) && (count > 0 ==> slots[head].live)
    {
      while count > 0 && !slots[head].live
        invariant Stored(0)
        decreases count
      {
        assert !Live(log[base - 1]) by { assert Matches(slots[Pos(head, 0, |slots|)], log[base + 0 - 1]); }
        ghost var head0, base0, count0 := head, base, count;
        head := if head + 1 == |slots| then 0 else head + 1;
        count := count - 1;
        base := base + 1;
        forall i | 0 <= i < count ensures Matches(slots[Pos(head, i, |slots|)], log[base + i - 1]) {
          assert Matches(slots[Pos(head0, i + 1, |slots|)], log[base0 + (i + 1) - 1]);
        }
      }
    }

    /** erase: forget an id whose record has already ended. */
    method Erase(id: nat)
      requires Stored(id) && 1 <= id <= nextId && !Live(log[id - 1])
      requires id != base && count > 0 ==> slots[head].live
      modifies this`slots, this`sparse, this`head, this`count, this`base
      ensures Stored(0) && (count > 0 ==> slots[head].live)
      ensures |slots| == old(|slots|)
    {
      hide RingHolds, Pos;
      if id < base {
        sparse := sparse - {id};
        RingElsewhere(slots, head, count, base, log, id);
      } else {
        assert head < |slots|;
        var p := Pos(head, id - base, |slots|);
        var e := slots[p].(live := false, group := None);
        RingStore(slots, head, count, base, log, id, e);
        SparseElsewhere(sparse, base, log, id);
        slots := slots[p := e];
        Compact();
      }
    }

    method CountLive() returns (live: nat)
      requires Stored(0)
      ensures live == LiveCount(log[base - 1..])
    {
      live := 0;
      var i := 0;
      assert log[base - 1..base - 1 + 0] == [];
      while i < count
        invariant 0 <= i <= count
        invariant live == LiveCount(log[base - 1..base - 1 + i])
      {
        assert log[base - 1..base - 1 + (i + 1)] == log[base - 1..base - 1 + i] + [log[base + i - 1]];
        assert log[base - 1..base - 1 + (i + 1)][..i] == log[base - 1..base - 1 + i];
        assert Matches(slots[Pos(head, i, |slots|)], log[base + i - 1]);
        if Slot(i).live { live := live + 1; }
        i := i + 1;
      }
      assert log[base - 1..base - 1 + count] == log[base - 1..];
    }

    /** make_room, first half: move the survivors to the sparse map and restart the ring. */
    method Promote()
      requires Stored(0) && slots != []
      modifies this`slots, this`sparse, this`head, this`count, this`base
      ensures Stored(0) && count == 0 && |slots| == old(|slots|)
    {
      var staged := sparse;
      var i := 0;
      while i < count
        invariant 0 <= i <= count
        invariant forall k | k in staged ::
                    1 <= k < base + i && Live(log[k - 1]) && Matches(staged[k], log[k - 1])
        invariant forall k | 1 <= k < base + i && Live(log[k - 1]) :: k in staged
      {
        assert Matches(slots[Pos(head, i, |slots|)], log[base + i - 1]);
        if Slot(i).live { staged := staged[base + i := Slot(i)]; }
        i := i + 1;
      }
      sparse := staged;
      slots := seq(|slots|, _ => VACANT);
      head := 0;
      count := 0;
      base := nextId + 1;
    }

    /** make_room, second half: double the ring and lay its entries out from index 0. */
    method Grow()
      requires Stored(0)
      modifies this`slots, this`head
      ensures Stored(0) && count < |slots|
      ensures |slots| == if old(slots) == [] then 16 else 2 * old(|slots|)
      ensures old(count > 0 ==> slots[head].live) ==> (count > 0 ==> slots[head].live)
    {
      var larger := seq(if slots == [] then 16 else 2 * |slots|, _ => VACANT);
      assert PowerOfTwo(16) by { assert PowerOfTwo(8) && PowerOfTwo(4) && PowerOfTwo(2) && PowerOfTwo(1); }
      assert slots != [] ==> PowerOfTwo(|larger|);
      var i := 0;
      while i < count
        invariant 0 <= i <= count
        invariant |larger| == if slots == [] then 16 else 2 * |slots|
        invariant forall j | 0 <= j < i :: larger[j] == Slot(j)
      {
        larger := larger[i := Slot(i)];
        i := i + 1;
      }
      ghost var was, from := slots, head;
      assert count > 0 ==> larger[0] == slots[head];
      slots := larger;
      head := 0;
      forall j | 0 <= j < count ensures Matches(slots[Pos(head, j, |slots|)], log[base + j - 1]) {
        assert slots[j] == was[Pos(from, j, |was|)];
      }
    }

    /** make_room: promotion or growth; neither changes any request, and growth stays within 4 x peak. */
    method MakeRoom()
      requires Stored(0) && Bounded() && count == |slots|
      requires count > 0 ==> slots[head].live
      modifies this`slots, this`sparse, this`head, this`count, this`base
      ensures Stored(0) && Bounded() && count < |slots|
      ensures count > 0 ==> slots[head].live
    {
      if slots != [] {
        var live := CountLive();
        if live <= count / 2 {
          Promote();
          return;
        }
        LiveCountSlice(log, base - 1, |log|);
        assert log[base - 1..] == log[base - 1..|log|];
        assert |slots| % 2 == 0;
      }
      Grow();
    }

    // ---- counters ----------------------------------------------------

    /** update() for terminate and complete: out of outstanding, into `to`. */
    method Settle(entry: Entry, to: Bucket, confirmed: nat, ghost i: nat, ghost r: Record)
      requires CountersAgree(totals, groups, epoch, log)
      requires i < |log| && Live(log[i]) && Matches(entry, log[i])
      requires r == log[i].(status := r.status) && !Live(r) && !r.status.Withdrawn?
      requires Standing(r) == to && ConfirmedOf(r) == confirmed
      modifies this`totals, this`groups, this`log
      ensures CountersAgree(totals, groups, epoch, log)
      ensures log == old(log)[i := r]
    {
      ghost var totals0, groups0 := totals, groups;
      if entry.epoch == epoch {
        SnapshotSettled(log, i, r, epoch, None);
        totals := Settled(totals, entry.bytes, to, confirmed);
        if entry.group.Some? {
          var g := entry.group.value;
          SnapshotSettled(log, i, r, epoch, Some(g));
          groups := groups[g := Group(Settled(GroupOf(groups, g).totals, entry.bytes, to, confirmed), epoch)];
        }
      }
      SettleAgrees(totals0, groups0, epoch, log, i, r, totals, groups);
      log := log[i := r];
    }

    /** update() for rollback: as if the request had never been accepted. */
    method Unaccept(entry: Entry, ghost i: nat)
      requires CountersAgree(totals, groups, epoch, log)
      requires i < |log| && Live(log[i]) && Matches(entry, log[i])
      modifies this`totals, this`groups, this`log
      ensures CountersAgree(totals, groups, epoch, log)
      ensures log == old(log)[i := Undone(old(log)[i])]
    {
      ghost var totals0, groups0 := totals, groups;
      if entry.epoch == epoch {
        SnapshotUndone(log, i, epoch, None);
        totals := Remove(Remove(totals, Accepted, entry.bytes), Outstanding, entry.bytes);
        if entry.group.Some? {
          var g := entry.group.value;
          SnapshotUndone(log, i, epoch, Some(g));
          var totals := Remove(Remove(GroupOf(groups, g).totals, Accepted, entry.bytes), Outstanding, entry.bytes);
          groups := groups[g := Group(totals, epoch)];
        }
      }
      SettleAgrees(totals0, groups0, epoch, log, i, Undone(log[i]), totals, groups);
      log := log[i := Undone(log[i])];
    }

    lemma StoredExcept(id: nat, r: Record)
      requires Stored(0) && IsLive(log, id)
      ensures RingHolds(slots, head, count, base, log[id - 1 := r], id)
      ensures SparseHolds(sparse, base, log[id - 1 := r], id)
    {
      RingExcept(slots, head, count, base, log, id, r);
      SparseExcept(sparse, base, log, id, r);
    }

    // ---- operations --------------------------------------------------

    method Admit(bytes: nat, group: Option<nat>) returns (id: nat)
      requires Valid()
      modifies this
      ensures Valid()
      ensures id == old(nextId) + 1 == nextId
      ensures View() == Apply(old(View()), SendHistory.Admit(bytes, group))
      ensures peak == Max(old(peak), LiveCount(log))
    {
      hide RingHolds, SparseHolds, LiveCount, CountersAgree, GroupOf, Shape;
      id := nextId + 1;
      EnrolGroup(group);
      StoreNew(Entry(bytes, epoch, false, true, group), Record(bytes, epoch, group, Waiting));
      CountAdmitted(bytes, group);
    }

    /** Put a new live entry behind the ring, making room first if it is full. */
    method StoreNew(e: Entry, ghost r: Record)
      requires Stored(0) && Bounded() && (count > 0 ==> slots[head].live)
      requires Matches(e, r) && e.live
      modifies this`slots, this`sparse, this`head, this`count, this`base, this`nextId
      ensures nextId == old(nextId) + 1 && count > 0 && head < |slots| && slots[head].live
      ensures |slots| <= Max(16, 4 * peak)
      ensures Shape(slots, head, count, base, nextId)
      ensures RingHolds(slots, head, count, base, log + [r], 0)
      ensures SparseHolds(sparse, base, log + [r], 0)
    {
      hide RingHolds, SparseHolds, LiveCount, Pos, PowerOfTwo;
      if count == |slots| {
        MakeRoom();
      }
      var p := Pos(head, count, |slots|);
      RingAdmit(slots, head, count, base, log, e, r);
      SparseAdmit(sparse, base, log, r);
      NewHead(head, count, |slots|);
      slots := slots[p := e];
      count := count + 1;
      nextId := nextId + 1;
    }

    lemma NewHead(head: nat, count: nat, n: nat)
      requires head < n && count < n
      ensures (Pos(head, count, n) == head) <==> count == 0
    {
    }

    /** A group last used in an earlier epoch starts again from zero. */
    method EnrolGroup(group: Option<nat>)
      requires CountersAgree(totals, groups, epoch, log)
      modifies this`groups
      ensures CountersAgree(totals, groups, epoch, log)
      ensures group.Some? ==> GroupOf(groups, group.value).epoch == epoch
    {
      if group.Some? && GroupOf(groups, group.value).epoch != epoch {
        hide Snapshot;
        ghost var groups0 := groups;
        var g := group.value;
        SnapshotNothing(log, epoch, Some(g));
        groups := groups[g := Group(NOTHING, epoch)];
        forall k ensures GroupOf(groups, k).epoch <= epoch {
          assert GroupOf(groups0, k).epoch <= epoch;
        }
      }
    }

    /** The counter part of admit: one more accepted and outstanding request. */
    method CountAdmitted(bytes: nat, group: Option<nat>)
      requires CountersAgree(totals, groups, epoch, log)
      requires group.Some? ==> GroupOf(groups, group.value).epoch == epoch
      modifies this`totals, this`groups, this`log, this`peak
      ensures CountersAgree(totals, groups, epoch, log)
      ensures log == old(log) + [Record(bytes, epoch, group, Waiting)]
      ensures peak == Max(old(peak), LiveCount(log))
    {
      hide Snapshot;
      ghost var r := Record(bytes, epoch, group, Waiting);
      ghost var groups0 := groups;
      SnapshotAdmit(log, r, epoch, None);
      totals := Add(Add(totals, Accepted, bytes), Outstanding, bytes);
      if group.Some? {
        var g := group.value;
        groups := groups[g := Group(Add(Add(GroupOf(groups, g).totals, Accepted, bytes), Outstanding, bytes), epoch)];
      }
      forall g ensures GroupOf(groups, g).epoch <= epoch {
        assert GroupOf(groups0, g).epoch <= epoch;
      }
      forall g | GroupOf(groups, g).epoch == epoch
        ensures GroupOf(groups, g).totals == Snapshot(log + [r], epoch, Some(g))
      {
        SnapshotAdmit(log, r, epoch, Some(g));
      }
      log := log + [r];
      peak := Max(peak, LiveCount(log));
    }

    /** begin_locked: mark a live request as handed to I/O. */
    method Begin(id: nat) returns (ok: bool)
      requires Valid()
      modifies this`slots, this`sparse, this`log, this`peak
      ensures Valid()
      ensures ok == IsLive(old(log), id)
      ensures View() == Apply(old(View()), SendHistory.Begin(id))
      ensures peak == Max(old(peak), LiveCount(log))
    {
      hide RingHolds, SparseHolds, LiveCount, CountersAgree, Pos;
      var found := Find(id);
      ok := found.Some?;
      if ok {
        ghost var r := Begun(log[id - 1]);
        SettleAgreesLive(id - 1, r);
        StoreActive(id, r);
        ghost var before := log;
        log := log[id - 1 := r];
        SameLiveCount(before, log);
      }
      peak := Max(peak, LiveCount(log));
    }

    method StoreActive(id: nat, ghost r: Record)
      requires Stored(0) && IsLive(log, id) && r == Begun(log[id - 1])
      requires count > 0 ==> slots[head].live
      modifies this`slots, this`sparse
      ensures |slots| == old(|slots|)
      ensures count > 0 ==> slots[head].live
      ensures Shape(slots, head, count, base, nextId)
      ensures RingHolds(slots, head, count, base, log[id - 1 := r], 0)
      ensures SparseHolds(sparse, base, log[id - 1 := r], 0)
    {
      RingExcept(slots, head, count, base, log, id, r);
      SparseExcept(sparse, base, log, id, r);
      if id < base {
        RingElsewhere(slots, head, count, base, log[id - 1 := r], id);
        sparse := sparse[id := sparse[id].(active := true)];
      } else {
        var p := Pos(head, id - base, |slots|);
        var e := slots[p].(active := true);
        assert Matches(slots[Pos(head, id - base, |slots|)], log[base + (id - base) - 1]);
        RingStore(slots, head, count, base, log[id - 1 := r], id, e);
        SparseElsewhere(sparse, base, log[id - 1 := r], id);
        slots := slots[p := e];
      }
    }

    lemma SettleAgreesLive(i: nat, r: Record)
      requires CountersAgree(totals, groups, epoch, log)
      requires i < |log| && r == log[i].(status := r.status) && Live(log[i]) && Live(r)
      ensures CountersAgree(totals, groups, epoch, log[i := r])
    {
      hide Snapshot;
      SnapshotSame(log, i, r, epoch, None);
      forall g ensures Snapshot(log[i := r], epoch, Some(g)) == Snapshot(log, epoch, Some(g)) {
        SnapshotSame(log, i, r, epoch, Some(g));
      }
      assert forall j | 0 <= j < |log| :: log[i := r][j].epoch == log[j].epoch && log[i := r][j].group == log[j].group;
    }

    /** begin_batch: all requests of the batch, or none if any has already ended. */
    method BeginBatch(ids: seq<nat>) returns (ok: bool)
      requires Valid()
      modifies this`slots, this`sparse, this`log, this`peak
      ensures Valid()
      ensures ok == CanBegin(old(log), ids)
      ensures View() == Apply(old(View()), SendHistory.BeginBatch(ids))
      ensures peak == Max(old(peak), LiveCount(log))
    {
      hide RingHolds, SparseHolds, LiveCount, CountersAgree, Shape, Pos;
      var k := 0;
      while k < |ids|
        invariant 0 <= k <= |ids|
        invariant forall j | 0 <= j < k :: IsLive(log, ids[j])
      {
        if Find(ids[k]).None? {
          peak := Max(peak, LiveCount(log));
          return false;
        }
        k := k + 1;
      }
      ok := true;
      k := 0;
      ghost var before := log;
      ghost var highest := peak;
      while k < |ids|
        invariant 0 <= k <= |ids|
        invariant Valid()
        invariant log == BeginAll(before, ids[..k])
        invariant peak == highest
      {
        assert ids[..k + 1][..k] == ids[..k] && ids[..k + 1][k] == ids[k];
        var _ := Begin(ids[k]);
        BegunStaysWithin(before, ids[..k + 1]);
        k := k + 1;
      }
      assert ids[..k] == ids;
      peak := Max(peak, LiveCount(log));
    }

    lemma BegunStaysWithin(rs: seq<Record>, ids: seq<nat>)
      ensures LiveCount(BeginAll(rs, ids)) == LiveCount(rs)
    {
      SameLiveCount(rs, BeginAll(rs, ids));
    }

    /** complete_locked: settle a live request with its part of the wire prefix. */
    method Complete(id: nat, confirmed: nat)
      requires Valid()
      modifies this
      ensures Valid()
      ensures View() == Apply(old(View()), SendHistory.Complete(id, confirmed))
      ensures peak == old(peak)
    {
      hide RingHolds, SparseHolds, LiveCount, CountersAgree;
      var found := Find(id);
      if found.Some? {
        var entry := found.value;
        var part := if confirmed < entry.bytes then confirmed else entry.bytes;
        StoredExcept(id, Finished(log[id - 1], confirmed));
        LiveCountEnded(log, id - 1, Finished(log[id - 1], confirmed));
        var fate := if part == entry.bytes then Written else Aborted(ConnectionLoss);
        Settle(entry, fate, part, id - 1, Finished(log[id - 1], confirmed));
        Erase(id);
      }
    }

    /** complete_batch: what lies within the confirmed prefix was written, the rest aborted by connection loss. */
    method CompleteBatch(items: seq<(nat, nat)>, confirmed: nat)
      requires Valid()
      modifies this
      ensures Valid()
      ensures View() == Apply(old(View()), SendHistory.CompleteBatch(items, confirmed))
      ensures epoch == old(epoch)
      ensures OwnSizes(old(log), items) ==>
                DoneTo(old(totals), totals, WrittenIn(old(log), items, confirmed, epoch, None),
                       ShortIn(old(log), items, confirmed, epoch, None),
                       ConfirmedIn(old(log), items, confirmed, epoch, None))
      ensures peak == old(peak)
    {
      hide RingHolds, SparseHolds, LiveCount, CountersAgree, Shape, DoneTo, OwnSizes, WrittenIn, ShortIn, ConfirmedIn,
        Snapshot;
      ghost var rs := log;
      TotalsAreTally();
      CompleteEntries(items, confirmed);
      TotalsAreTally();
      if OwnSizes(rs, items) { CompletePublishes(rs, items, confirmed, epoch, None); }
    }

    /** Consume the confirmed bytes in wire order. */
    method CompleteEntries(items: seq<(nat, nat)>, confirmed: nat)
      requires Valid()
      modifies this
      ensures Valid()
      ensures View() == Apply(old(View()), SendHistory.CompleteBatch(items, confirmed))
      ensures peak == old(peak)
    {
      hide RingHolds, SparseHolds, LiveCount, CountersAgree, Shape;
      var k, rest := 0, confirmed;
      ghost var before := log;
      while k < |items|
        invariant 0 <= k <= |items|
        invariant Valid() && epoch == old(epoch) && peak == old(peak)
        invariant CompleteAll(before, items, confirmed) == CompleteAll(log, items[k..], rest)
      {
        assert items[k..][0] == items[k] && items[k..][1..] == items[k + 1..];
        var part := if rest < items[k].1 then rest else items[k].1;
        Complete(items[k].0, part);
        rest := rest - part;
        k := k + 1;
      }
    }

    /** What the totals are, in every valid state. */
    lemma TotalsAreTally()
      requires Valid()
      ensures totals == Snapshot(log, epoch, None)
    {
      hide RingHolds, SparseHolds, LiveCount, Shape, Snapshot;
    }

    /** discard: the field of the cause grows by the request, the one that its handoff decides. */
    method Discard(id: nat, cause: Cause)
      requires Valid()
      modifies this
      ensures Valid()
      ensures View() == Apply(old(View()), SendHistory.Discard(id, cause))
      ensures LostTo(old(totals), totals, cause, Lone(old(View()), id, None, IsWaiting),
                     Lone(old(View()), id, None, IsActive))
      ensures peak == Max(old(peak), LiveCount(log))
    {
      hide RingHolds, SparseHolds, LiveCount, CountersAgree, Shape, LostTo, Lone, Snapshot;
      ghost var h := View();
      TotalsAreTally();
      DiscardEntry(id, cause);
      TotalsAreTally();
      DiscardPublishes(h, id, cause, None);
    }

    method DiscardEntry(id: nat, cause: Cause)
      requires Valid()
      modifies this
      ensures Valid()
      ensures View() == Apply(old(View()), SendHistory.Discard(id, cause))
      ensures peak == Max(old(peak), LiveCount(log))
    {
      hide RingHolds, SparseHolds, LiveCount, CountersAgree;
      var found := Find(id);
      if found.Some? {
        StoredExcept(id, Ended(log[id - 1], cause));
        Settle(found.value, LossBucket(cause, found.value.active), 0, id - 1, Ended(log[id - 1], cause));
        Erase(id);
      }
      peak := Max(peak, LiveCount(log));
    }

    method Rollback(id: nat)
      requires Valid()
      modifies this
      ensures Valid()
      ensures View() == Apply(old(View()), SendHistory.Rollback(id))
      ensures peak == Max(old(peak), LiveCount(log))
    {
      hide RingHolds, SparseHolds, LiveCount, CountersAgree;
      var found := Find(id);
      if found.Some? {
        StoredExcept(id, Undone(log[id - 1]));
        Unaccept(found.value, id - 1);
        Erase(id);
      }
      peak := Max(peak, LiveCount(log));
    }

    /** end: everything waiting was discarded before the write, everything handed over aborted during it. */
    method End(cause: Cause)
      requires Valid()
      modifies this
      ensures Valid()
      ensures View() == Apply(old(View()), SendHistory.End(cause))
      ensures epoch == old(epoch)
      ensures LostTo(old(totals), totals, cause,
                     Count(old(log), epoch, None, IsWaiting), Count(old(log), epoch, None, IsActive))
      ensures peak == Max(old(peak), LiveCount(log))
    {
      hide RingHolds, SparseHolds, LiveCount, CountersAgree, Shape, LostTo, Count, Snapshot;
      ghost var h := View();
      TotalsAreTally();
      EndEntries(cause);
      TotalsAreTally();
      EndPublishes(h, cause, None);
    }

    /** Terminate everything outstanding and restart the ring. */
    method EndEntries(cause: Cause)
      requires Valid()
      modifies this
      ensures Valid()
      ensures View() == Apply(old(View()), SendHistory.End(cause))
      ensures peak == Max(old(peak), LiveCount(log))
    {
      hide LiveCount, CountersAgree, EndSome, RingHolds, SparseHolds;
      ghost var before := log;
      EndSparse(cause);
      EndRing(cause, before);
      sparse := map[];
      NothingStored(seq(|slots|, _ => VACANT), log);
      slots := seq(|slots|, _ => VACANT);
      head := 0;
      count := 0;
      base := nextId + 1;
      peak := Max(peak, LiveCount(log));
    }
    lemma NothingStored(vacant: seq<Entry>, rs: seq<Record>)
      requires forall k | 0 <= k < |rs| :: !Live(rs[k])
      ensures RingHolds(vacant, 0, 0, |rs| + 1, rs, 0)
      ensures SparseHolds(map[], |rs| + 1, rs, 0)
    {
    }

    method EndSparse(cause: Cause)
      requires CountersAgree(totals, groups, epoch, log) && SparseHolds(sparse, base, log, 0)
      modifies this`totals, this`groups, this`log
      ensures CountersAgree(totals, groups, epoch, log)
      ensures log == EndSome(old(log), sparse.Keys, cause)
    {
      hide CountersAgree, EndSome, SparseHolds;
      ghost var before := log;
      ghost var done: set<nat> := {};
      var todo := sparse.Keys;
      EndNone(log, cause);
      while todo != {}
        invariant todo !! done && todo + done == sparse.Keys
        invariant CountersAgree(totals, groups, epoch, log)
        invariant log == EndSome(before, done, cause)
        decreases |todo|
      {
        var id :| id in todo;
        SparseAt(sparse, base, before, id);
        EndSomeMore(before, done, cause, id);
        Settle(sparse[id], LossBucket(cause, sparse[id].active), 0, id - 1, Ended(log[id - 1], cause));
        todo := todo - {id};
        done := done + {id};
      }
    }

    lemma EndNone(rs: seq<Record>, cause: Cause)
      ensures EndSome(rs, {}, cause) == rs
    {
    }

    method EndRing(cause: Cause, ghost before: seq<Record>)
      requires CountersAgree(totals, groups, epoch, log)
      requires RingHolds(slots, head, count, base, before, 0) && SparseHolds(sparse, base, before, 0)
      requires log == EndSome(before, sparse.Keys, cause)
      modifies this`totals, this`groups, this`log
      ensures CountersAgree(totals, groups, epoch, log)
      ensures log == EndAll(before, cause)
    {
      hide CountersAgree, EndSome;
      var i := 0;
      ghost var done: set<nat> := sparse.Keys;
      while i < count
        invariant 0 <= i <= count
        invariant CountersAgree(totals, groups, epoch, log)
        invariant forall k | k in done :: k < base + i
        invariant forall k | 1 <= k < base + i && Live(before[k - 1]) :: k in done
        invariant log == EndSome(before, done, cause)
      {
        assert Matches(slots[Pos(head, i, |slots|)], before[base + i - 1]);
        if Slot(i).live {
          EndSomeMore(before, done, cause, base + i);
          Settle(Slot(i), LossBucket(cause, Slot(i).active), 0, base + i - 1, Ended(log[base + i - 1], cause));
          done := done + {base + i};
        }
        i := i + 1;
      }
      EndSomeIsEndAll(before, done, cause);
    }

    /** discard_waiting: a group's requests that have not been handed to I/O were discarded before the write. */
    method DiscardWaiting(group: nat, cause: Cause)
      requires Valid()
      modifies this
      ensures Valid()
      ensures View() == Apply(old(View()), SendHistory.DiscardWaiting(group, cause))
      ensures LostTo(old(totals), totals, cause, Tally(old(log), WaitingOf(old(View()), group, None)), NO_TOTALS)
      ensures peak == Max(old(peak), LiveCount(log))
    {
      hide RingHolds, SparseHolds, LiveCount, CountersAgree, Shape, LostTo, Tally, WaitingOf, Snapshot;
      ghost var h := View();
      TotalsAreTally();
      ExpireEntries(group, cause);
      TotalsAreTally();
      DiscardWaitingPublishes(h, group, cause, None);
    }

    method ExpireEntries(group: nat, cause: Cause)
      requires Valid()
      modifies this
      ensures Valid()
      ensures View() == Apply(old(View()), SendHistory.DiscardWaiting(group, cause))
      ensures peak == Max(old(peak), LiveCount(log))
    {
      hide LiveCount, CountersAgree, Shape, RingHolds, SparseHolds, EndSome;
      ghost var before := log;
      ghost var done := ExpireSparse(group, cause);
      done := ExpireRing(group, cause, before, done);
      EndSomeIsExpireAll(before, done, group, cause);
      Compact();
      peak := Max(peak, LiveCount(log));
    }

    method ExpireSparse(group: nat, cause: Cause) returns (ghost done: set<nat>)
      requires Stored(0) && CountersAgree(totals, groups, epoch, log)
      modifies this`sparse, this`totals, this`groups, this`log
      ensures Stored(0) && CountersAgree(totals, groups, epoch, log)
      ensures Expired(old(log), done, group, base)
      ensures log == EndSome(old(log), done, cause)
    {
      hide CountersAgree, RingHolds, SparseHolds, EndSome, Shape, Sifted;
      ghost var before := log;
      done := {};
      ghost var seen: set<nat> := {};
      var todo := sparse.Keys;
      EndNone(log, cause);
      SiftStart(sparse, before, base, group);
      while todo != {}
        invariant todo <= sparse.Keys
        invariant Sifted(before, base, group, todo, seen, done)
        invariant Stored(0) && CountersAgree(totals, groups, epoch, log)
        invariant log == EndSome(before, done, cause)
        decreases |todo|
      {
        var id :| id in todo;
        SiftMore(before, base, group, todo, seen, done, id);
        EndSomeMore(before, done, cause, id);
        SparseAt(sparse, base, log, id);
        if sparse[id].group == Some(group) && !sparse[id].active {
          ExpireOne(id, cause);
          done := done + {id};
        }
        todo := todo - {id};
        seen := seen + {id};
      }
      SiftEnd(before, base, group, seen, done);
    }

    method ExpireOne(id: nat, cause: Cause)
      requires Stored(0) && CountersAgree(totals, groups, epoch, log) && id in sparse
      modifies this`sparse, this`totals, this`groups, this`log
      ensures Stored(0) && CountersAgree(totals, groups, epoch, log)
      ensures sparse == old(sparse) - {id}
      ensures 1 <= id <= |old(log)| && log == old(log)[id - 1 := Ended(old(log)[id - 1], cause)]
    {
      hide CountersAgree;
      StoredExcept(id, Ended(log[id - 1], cause));
      Settle(sparse[id], LossBucket(cause, sparse[id].active), 0, id - 1, Ended(log[id - 1], cause));
      RingElsewhere(slots, head, count, base, log, id);
      sparse := sparse - {id};
    }

    method ExpireRing(group: nat, cause: Cause, ghost before: seq<Record>, ghost done0: set<nat>)
      returns (ghost done: set<nat>)
      requires Stored(0) && CountersAgree(totals, groups, epoch, log)
      requires Expired(before, done0, group, base) && log == EndSome(before, done0, cause)
      modifies this`slots, this`totals, this`groups, this`log
      ensures Stored(0) && CountersAgree(totals, groups, epoch, log)
      ensures |slots| == old(|slots|)
      ensures Expired(before, done, group, |before| + 1) && log == EndSome(before, done, cause)
    {
      hide CountersAgree, SparseHolds, Pos, EndSome;
      var i := 0;
      done := done0;
      while i < count
        invariant 0 <= i <= count && |slots| == old(|slots|)
        invariant Stored(0) && CountersAgree(totals, groups, epoch, log)
        invariant Expired(before, done, group, base + i) && log == EndSome(before, done, cause)
      {
        var e := Slot(i);
        assert Matches(slots[Pos(head, i, |slots|)], log[base + i - 1]);
        EndSomeMore(before, done, cause, base + i);
        if e.live && e.group == Some(group) && !e.active {
          ExpireSlot(i, cause);
          done := done + {base + i};
        }
        i := i + 1;
      }
    }

    method ExpireSlot(i: nat, cause: Cause)
      requires Stored(0) && CountersAgree(totals, groups, epoch, log) && i < count && Slot(i).live
      modifies this`slots, this`totals, this`groups, this`log
      ensures Stored(0) && CountersAgree(totals, groups, epoch, log)
      ensures |slots| == old(|slots|)
      ensures log == old(log)[base + i - 1 := Ended(old(log)[base + i - 1], cause)]
    {
      hide CountersAgree;
      var e := Slot(i);
      assert Matches(slots[Pos(head, i, |slots|)], log[base + i - 1]);
      StoredExcept(base + i, Ended(log[base + i - 1], cause));
      Settle(e, LossBucket(cause, e.active), 0, base + i - 1, Ended(log[base + i - 1], cause));
      RingStore(slots, head, count, base, log, base + i, e.(live := false, group := None));
      SparseElsewhere(sparse, base, log, base + i);
      slots := slots[Pos(head, i, |slots|) := e.(live := false, group := None)];
    }

    method Reset()
      requires Valid()
      modifies this`epoch, this`totals, this`peak
      ensures Valid()
      ensures View() == Apply(old(View()), SendHistory.Reset)
      ensures peak == Max(old(peak), LiveCount(log))
    {
      hide RingHolds, SparseHolds, LiveCount, Snapshot, Shape, Pos;
      forall g ensures GroupOf(groups, g).epoch < epoch + 1 {
      }
      epoch := epoch + 1;
      SnapshotNothing(log, epoch, None);
      totals := NOTHING;
      peak := Max(peak, LiveCount(log));
    }
  }

  /** One operation of the reference log, run on the ledger. */
  method Step(l: Ledger, op: Op)
    requires l.Valid()
    modifies l
    ensures l.Valid()
    ensures l.View() == Apply(old(l.View()), op)
    ensures l.peak == Max(old(l.peak), LiveCount(l.log))
  {
    hide LiveCount, CountersAgree, RingHolds, SparseHolds, Shape, Apply;
    match op
    case Admit(bytes, group) => var _ := l.Admit(bytes, group);
    case Begin(id) => var _ := l.Begin(id);
    case BeginBatch(ids) => var _ := l.BeginBatch(ids);
    case Complete(id, confirmed) => l.Complete(id, confirmed);
    case CompleteBatch(items, confirmed) => l.CompleteBatch(items, confirmed);
    case Discard(id, cause) => l.Discard(id, cause);
    case DiscardWaiting(group, cause) => l.DiscardWaiting(group, cause);
    case End(cause) => l.End(cause);
    case Rollback(id) => l.Rollback(id);
    case Reset => l.Reset();
  }

  /**
   Every run: the ring and sparse map stand for the reference log, the counters
   are its tallies and conserve, and the ring is a power of two within 4 x the
   peak number of live requests, however many ids were retired.
   */
  method Replay(ops: seq<Op>) returns (l: Ledger)
    ensures l.Valid() && fresh(l)
    ensures l.View() == Run(EMPTY, ops)
    ensures l.totals == Snapshot(Run(EMPTY, ops).records, l.epoch, None) && Conserved(l.totals)
            && ConfirmedWithinWire(l.totals)
    ensures Publishes(l.totals, Run(EMPTY, ops).records, l.epoch, None)
    ensures l.slots == [] || (PowerOfTwo(|l.slots|) && |l.slots| <= Max(16, 4 * Peak(EMPTY, ops)))
  {
    l := new Ledger();
    var k := 0;
    assert ops[..0] == [];
    while k < |ops|
      invariant 0 <= k <= |ops|
      invariant l.Valid() && fresh(l)
      invariant l.View() == Run(EMPTY, ops[..k]) && l.peak == Peak(EMPTY, ops[..k])
    {
      hide LiveCount, CountersAgree, RingHolds, SparseHolds, Shape, Apply;
      assert ops[..k + 1][..k] == ops[..k] && ops[..k + 1][k] == ops[k];
      Step(l, ops[k]);
      k := k + 1;
    }
    assert ops[..k] == ops;
    hide Publishes;
    SendFates.ReachableConservation(ops, l.epoch, None);
    FieldsCount(Run(EMPTY, ops).records, l.epoch, None);
  }
}
