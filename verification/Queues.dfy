/**
 Tracked buffers and the byte-reservation rules shared by the stream transports
 (wirestead/transport/base/bp_utils.hpp and bp_state_machine.hpp).
 */
module Queues {
  import opened Octets

  /** Plain writes may wait in the pending queue; try-writes are refused instead. */
  datatype Kind = Plain | Try

  /** A payload and the ledger request that tracks it. */
  datatype Item = Item(id: nat, data: seq<Byte>, kind: Kind)

  function Bytes(items: seq<Item>): nat {
    if items == [] then 0 else |items[0].data| + Bytes(items[1..])
  }

  lemma {:induction false} BytesConcat(a: seq<Item>, b: seq<Item>)
    ensures Bytes(a + b) == Bytes(a) + Bytes(b)
  {
    if a == [] {
      assert a + b == b;
    } else {
      assert (a + b)[1..] == a[1..] + b;
      BytesConcat(a[1..], b);
    }
  }

  lemma BytesSnoc(a: seq<Item>, x: Item)
    ensures Bytes(a + [x]) == Bytes(a) + |x.data|
  {
    BytesConcat(a, [x]);
    assert [x][1..] == [];
  }

  function Ids(items: seq<Item>): (r: seq<nat>)
    ensures |r| == |items| && forall i | 0 <= i < |items| :: r[i] == items[i].id
  {
    seq(|items|, i requires 0 <= i < |items| => items[i].id)
  }

  /** How often an id occurs. */
  function Count(items: seq<Item>, id: nat): nat {
    if items == [] then 0 else (if items[0].id == id then 1 else 0) + Count(items[1..], id)
  }

  lemma {:induction false} CountConcat(a: seq<Item>, b: seq<Item>, id: nat)
    ensures Count(a + b, id) == Count(a, id) + Count(b, id)
  {
    if a == [] {
      assert a + b == b;
    } else {
      assert (a + b)[1..] == a[1..] + b;
      CountConcat(a[1..], b, id);
    }
  }

  lemma {:induction false} CountPositive(items: seq<Item>, i: nat)
    requires i < |items|
    ensures Count(items, items[i].id) >= 1
  {
    if i > 0 {
      CountPositive(items[1..], i - 1);
    }
  }

  predicate HasItem(items: seq<Item>, id: nat) {
    exists i | 0 <= i < |items| :: items[i].id == id
  }

  lemma HasItemStill(a: seq<Item>, b: seq<Item>, id: nat)
    requires a <= b && HasItem(a, id)
    ensures HasItem(b, id)
  {
    var i :| 0 <= i < |a| && a[i].id == id;
    assert b[i] == a[i];
  }

  lemma HasItemLast(a: seq<Item>, item: Item)
    ensures HasItem(a + [item], item.id)
  {
    assert (a + [item])[|a|] == item;
  }

  lemma {:induction false} CountTwice(items: seq<Item>, i: nat, j: nat)
    requires i < j < |items| && items[i].id == items[j].id
    ensures Count(items, items[i].id) >= 2
  {
    if i == 0 {
      CountPositive(items[1..], j - 1);
    } else {
      CountTwice(items[1..], i - 1, j - 1);
    }
  }

  /** The items of one kind, in order. */
  function OfKind(items: seq<Item>, k: Kind): seq<Item> {
    if items == [] then []
    else if items[0].kind == k then [items[0]] + OfKind(items[1..], k) else OfKind(items[1..], k)
  }

  lemma {:induction false} OfKindConcat(a: seq<Item>, b: seq<Item>, k: Kind)
    ensures OfKind(a + b, k) == OfKind(a, k) + OfKind(b, k)
  {
    if a == [] {
      assert a + b == b;
    } else {
      assert (a + b)[1..] == a[1..] + b;
      OfKindConcat(a[1..], b, k);
    }
  }

  lemma {:induction false} OfOtherKind(items: seq<Item>, k: Kind)
    requires forall i | 0 <= i < |items| :: items[i].kind != k
    ensures OfKind(items, k) == []
  {
    if items != [] {
      OfOtherKind(items[1..], k);
    }
  }

  /** Request and wire size of each item, as complete_batch projects them. */
  function Sizes(batch: seq<Item>): (r: seq<(nat, nat)>)
    ensures |r| == |batch| && forall i | 0 <= i < |r| :: r[i] == (batch[i].id, |batch[i].data|)
  {
    seq(|batch|, i requires 0 <= i < |batch| => (batch[i].id, |batch[i].data|))
  }

  // ------------------------------------------------------------------
  // Thresholds
  // ------------------------------------------------------------------

  const MAX_BUFFER_SIZE: nat := 64 * 1024 * 1024
  const DEFAULT_THRESHOLD: nat := 1024 * 1024
  const MAX_GATHER_BUFFERS: nat := 16
  const MAX_GATHER_BYTES: nat := 256 * 1024

  datatype Bounds = Bounds(high: nat, low: nat, limit: nat)

  /** The bounds a server session derives from its threshold.  high may exceed limit. */
  function SessionBounds(threshold: nat): Bounds {
    var wanted := if threshold * 4 > DEFAULT_THRESHOLD then threshold * 4 else DEFAULT_THRESHOLD;
    var half := if threshold > 1 then threshold / 2 else threshold;
    Bounds(threshold, if half == 0 then 1 else half, if wanted < MAX_BUFFER_SIZE then wanted else MAX_BUFFER_SIZE)
  }

  /** The reconnecting client's bounds: the same, with the limit raised to the threshold. */
  function ClientBounds(threshold: nat): Bounds {
    var b := SessionBounds(threshold);
    if b.limit < b.high then b.(limit := b.high) else b
  }

  // ------------------------------------------------------------------
  // Reservations
  // ------------------------------------------------------------------

  /** try_reserve_limit_bytes: a plain write counts everything accepted so far against the limit. */
  predicate MayReserve(b: Bounds, queue: nat, pending: nat, inflight: nat, n: nat): (granted: bool)
    ensures granted <==> 0 < n && queue + pending + inflight + n <= b.limit
  {
    && n != 0 && n <= b.limit
    && queue <= b.limit
    && pending <= b.limit - queue
    && inflight <= b.limit - queue - pending
    && n <= b.limit - queue - pending - inflight
  }

  /** The try-write gate: the caller's precheck and the reservation under the lock. */
  predicate MayTry(b: Bounds, queue: nat, pending: nat, inflight: nat, active: bool, n: nat): (granted: bool)
    ensures granted <==> !active && 0 < n && queue + n <= b.high && queue + pending + inflight + n <= b.limit
  {
    && !active && queue + n <= b.high && queue + pending + n <= b.limit
    && inflight <= b.limit
    && n != 0 && n <= b.limit - inflight
    && queue <= b.high && n <= b.high - queue
    && queue <= b.limit - inflight
    && pending <= b.limit - inflight - queue
    && n <= b.limit - inflight - queue - pending
  }

  /** queue_bytes_, pending_bytes_, inflight_bytes_ and backpressure_active_. */
  datatype Counters = Counters(queue: nat, pending: nat, inflight: nat, active: bool)

  /** Releasing clamps at zero. */
  function Release(counter: nat, n: nat): nat {
    if counter > n then counter - n else 0
  }

  datatype Decision = Immediate | Pending | Rejected

  function DecideEnqueue(b: Bounds, queue: nat, pending: nat, active: bool, added: nat): (d: Decision)
    ensures d.Rejected? <==> queue + pending + added > b.limit
    ensures d.Pending? <==> active && queue + pending + added <= b.limit
  {
    if queue > b.limit || pending > b.limit - queue || added > b.limit - queue - pending then Rejected
    else if active then Pending else Immediate
  }

  /**
   A gathered batch is the front of the queue, within the buffer cap and below the
   byte cap but for its last buffer, and it is short only where a cap stops it.
   */
  predicate Gathered(tx: seq<Item>, batch: seq<Item>, rest: seq<Item>) {
    && batch + rest == tx && |batch| <= MAX_GATHER_BUFFERS
    && (batch != [] ==> Bytes(batch[..|batch| - 1]) < MAX_GATHER_BYTES)
    && (rest == [] || |batch| == MAX_GATHER_BUFFERS || Bytes(batch) >= MAX_GATHER_BYTES)
  }

  /** How many buffers take_gather_batch moves, having moved n of them with `total` bytes. */
  function GatherFrom(tx: seq<Item>, n: nat, total: nat): (g: nat)
    requires n <= |tx|
    ensures n <= g <= |tx|
    ensures n < |tx| && n < MAX_GATHER_BUFFERS && total < MAX_GATHER_BYTES ==> n < g
    ensures n <= MAX_GATHER_BUFFERS ==> g <= MAX_GATHER_BUFFERS
    decreases |tx| - n
  {
    if n < |tx| && n < MAX_GATHER_BUFFERS && total < MAX_GATHER_BYTES
    then GatherFrom(tx, n + 1, total + |tx[n].data|) else n
  }

  function GatherCount(tx: seq<Item>): (g: nat)
    ensures g <= |tx| && g <= MAX_GATHER_BUFFERS
    ensures tx != [] ==> g >= 1
  {
    GatherFrom(tx, 0, 0)
  }

  lemma {:induction false} GatherFromMeans(tx: seq<Item>, n: nat, total: nat)
    requires n <= |tx| && n <= MAX_GATHER_BUFFERS && total == Bytes(tx[..n])
    requires n > 0 ==> Bytes(tx[..n - 1]) < MAX_GATHER_BYTES
    ensures var g := GatherFrom(tx, n, total); Gathered(tx, tx[..g], tx[g..])
    decreases |tx| - n
  {
    hide Gathered, Bytes;
    if n < |tx| && n < MAX_GATHER_BUFFERS && total < MAX_GATHER_BYTES {
      assert tx[..n + 1] == tx[..n] + [tx[n]];
      BytesSnoc(tx[..n], tx[n]);
      GatherFromMeans(tx, n + 1, total + |tx[n].data|);
    } else {
      GatherStops(tx, n);
    }
  }

  lemma GatherStops(tx: seq<Item>, n: nat)
    requires n <= |tx| && n <= MAX_GATHER_BUFFERS && (n > 0 ==> Bytes(tx[..n - 1]) < MAX_GATHER_BYTES)
    requires n == |tx| || n == MAX_GATHER_BUFFERS || Bytes(tx[..n]) >= MAX_GATHER_BYTES
    ensures Gathered(tx, tx[..n], tx[n..])
  {
    hide Bytes;
    if n > 0 { assert tx[..n][..n - 1] == tx[..n - 1]; }
  }

  lemma GatherCountMeans(tx: seq<Item>)
    ensures var g := GatherCount(tx); Gathered(tx, tx[..g], tx[g..])
  {
    GatherFromMeans(tx, 0, 0);
  }

  /** Nothing else is a gathered batch. */
  lemma GatheredIsUnique(tx: seq<Item>, batch: seq<Item>, rest: seq<Item>, batch': seq<Item>, rest': seq<Item>)
    requires Gathered(tx, batch, rest) && Gathered(tx, batch', rest')
    ensures batch == batch' && rest == rest'
  {
    GatheredIsLongest(tx, batch, rest, batch', rest');
    GatheredIsLongest(tx, batch', rest', batch, rest);
    assert batch == tx[..|batch|] && batch' == tx[..|batch'|];
    assert rest == tx[|batch|..] && rest' == tx[|batch'|..];
  }

  lemma GatheredIsLongest(tx: seq<Item>, batch: seq<Item>, rest: seq<Item>, batch': seq<Item>, rest': seq<Item>)
    requires Gathered(tx, batch, rest) && Gathered(tx, batch', rest')
    ensures |batch'| <= |batch|
  {
    if |batch| < |batch'| {
      var most, k := batch'[..|batch'| - 1], |batch|;
      assert batch == tx[..k] && most == tx[..|batch'| - 1] && most == batch + most[k..];
      BytesConcat(batch, most[k..]);
    }
  }

  /** take_gather_batch: move buffers from the front of tx while the caps allow. */
  method TakeGatherBatch(tx: seq<Item>) returns (batch: seq<Item>, rest: seq<Item>, total: nat)
    ensures Gathered(tx, batch, rest) && total == Bytes(batch)
    ensures batch == tx[..GatherCount(tx)] && rest == tx[GatherCount(tx)..]
  {
    batch, rest, total := [], tx, 0;
    while rest != [] && |batch| < MAX_GATHER_BUFFERS && total < MAX_GATHER_BYTES
      invariant |batch| <= |tx| && batch == tx[..|batch|] && rest == tx[|batch|..]
      invariant |batch| <= MAX_GATHER_BUFFERS && total == Bytes(batch)
      invariant batch != [] ==> Bytes(batch[..|batch| - 1]) < MAX_GATHER_BYTES
      decreases |rest|
    {
      BytesSnoc(batch, rest[0]);
      assert rest[0] == tx[|batch|] && (batch + [rest[0]])[..|batch|] == batch;
      total := total + |rest[0].data|;
      batch := batch + [rest[0]];
      rest := rest[1..];
    }
    ghost var g := GatherCount(tx);
    GatherCountMeans(tx);
    GatheredIsUnique(tx, batch, rest, tx[..g], tx[g..]);
  }

  /** return_gather_batch: put a failed batch back in front, in order. */
  method ReturnGatherBatch(tx: seq<Item>, batch: seq<Item>) returns (r: seq<Item>)
    ensures r == batch + tx
  {
    r := tx;
    var k := |batch|;
    while k > 0
      invariant 0 <= k <= |batch|
      invariant r == batch[k..] + tx
    {
      k := k - 1;
      r := [batch[k]] + r;
    }
  }

  /** Taking a batch and returning it restores the queue. */
  method TakeThenReturn(tx: seq<Item>) returns (r: seq<Item>)
    ensures r == tx
  {
    var batch, rest, _ := TakeGatherBatch(tx);
    r := ReturnGatherBatch(rest, batch);
  }
}
