/**
 prepare_receive (wirestead/wrapper/bounded_receive.hpp): a whole input is
 decoded on a copy of the framer under byte charges, and committed by a swap or
 dropped without a trace.
 */
module BoundedReceive {
  import opened Options
  import opened Octets
  import LineFraming
  import LengthPrefix
  import PacketFraming

  // ------------------------------------------------------------------
  // The built-in framers as values
  // ------------------------------------------------------------------

  /** Everything a built-in framer remembers, with its configuration. */
  datatype Value =
    | OfLine(line: LineFraming.Config, held: LineFraming.State)
    | OfLength(length: LengthPrefix.Config, bytes: seq<Byte>)
    | OfPacket(packet: PacketFraming.Config, state: PacketFraming.State)

  predicate Proper(v: Value) {
    match v
    case OfLine(c, s) => LineFraming.ValidConfig(c) && s.scanned <= |s.buffer|
    case OfLength(c, _) => LengthPrefix.ValidConfig(c)
    case OfPacket(c, s) => PacketFraming.ValidConfig(c) && PacketFraming.Sane(c, s)
  }

  function Buffer(v: Value): seq<Byte> {
    match v
    case OfLine(_, s) => s.buffer
    case OfLength(_, b) => b
    case OfPacket(_, s) => s.buffer
  }

  datatype Pushed = Pushed(value: Value, messages: seq<Message>)

  /** push_bytes of whichever framer it is. */
  function Push(v: Value, data: seq<Byte>): (r: Pushed)
    requires Proper(v)
    ensures Proper(r.value)
  {
    match v
    case OfLine(c, s) =>
      var p := LineFraming.Push(c, s, data);
      Pushed(OfLine(c, p.state), p.messages)
    case OfLength(c, b) =>
      var p := LengthPrefix.Parse(c, b + data);
      Pushed(OfLength(c, p.rest), p.messages)
    case OfPacket(c, s) =>
      var p := PacketFraming.Push(c, s, data);
      Pushed(OfPacket(c, p.state), p.messages)
  }

  function Feed(v: Value, pieces: seq<seq<Byte>>): (r: Pushed)
    requires Proper(v)
    ensures Proper(r.value)
    decreases |pieces|
  {
    if pieces == [] then Pushed(v, [])
    else
      var first := Push(v, pieces[0]);
      var later := Feed(first.value, pieces[1..]);
      Pushed(later.value, first.messages + later.messages)
  }

  lemma {:induction false} FeedInTwo(v: Value, a: seq<seq<Byte>>, b: seq<seq<Byte>>)
    requires Proper(v)
    ensures var first := Feed(v, a);
            var second := Feed(first.value, b);
            Feed(v, a + b) == Pushed(second.value, first.messages + second.messages)
    decreases |a|
  {
    hide Push, Proper;
    if a == [] {
      assert a + b == b;
      assert [] + Feed(v, b).messages == Feed(v, b).messages;
    } else {
      assert (a + b)[0] == a[0] && (a + b)[1..] == a[1..] + b;
      FeedInTwo(Push(v, a[0]).value, a[1..], b);
    }
  }

  lemma FeedOne(v: Value, data: seq<Byte>)
    requires Proper(v)
    ensures Feed(v, [data]) == Push(v, data)
  {
    hide Push, Proper;
    assert [data][1..] == [];
    assert Push(v, data).messages + [] == Push(v, data).messages;
  }

  lemma {:induction false} ConcatInTwo(a: seq<seq<Byte>>, b: seq<seq<Byte>>)
    ensures Concat(a + b) == Concat(a) + Concat(b)
  {
    if a == [] {
      assert a + b == b;
    } else {
      assert (a + b)[0] == a[0] && (a + b)[1..] == a[1..] + b;
      ConcatInTwo(a[1..], b);
    }
  }

  lemma ConcatOne(data: seq<Byte>)
    ensures Concat([data]) == data
  {
    assert [data][1..] == [];
  }

  // ------------------------------------------------------------------
  // What a framer means, whole-stream
  // ------------------------------------------------------------------

  predicate Blank(v: Value) {
    match v
    case OfLine(c, s) => s == LineFraming.EMPTY
    case OfLength(c, b) => b == []
    case OfPacket(c, s) => s == PacketFraming.EMPTY
  }

  /** The messages of a stream by each framer's whole-stream rule. */
  function Meaning(v: Value, stream: seq<Byte>): seq<Message>
    requires Proper(v)
  {
    match v
    case OfLine(c, _) => LineFraming.Kept(c, LineFraming.Lines(c, stream).lines)
    case OfLength(c, _) => LengthPrefix.Parse(c, stream).messages
    case OfPacket(c, _) => PacketFraming.Packets(c, stream).packets
  }

  /** The streams on which the framer follows that rule under every cutting. */
  predicate Regular(v: Value, stream: seq<Byte>)
    requires Proper(v)
  {
    match v
    case OfLine(c, _) => LineFraming.Exact(c, stream)
    case OfLength(c, _) => LengthPrefix.Parse(c, stream).clean
    case OfPacket(c, _) => PacketFraming.Fits(c, stream)
  }

  lemma {:induction false} FeedOfLine(c: LineFraming.Config, s: LineFraming.State, pieces: seq<seq<Byte>>)
    requires LineFraming.ValidConfig(c) && s.scanned <= |s.buffer|
    ensures Feed(OfLine(c, s), pieces).messages == LineFraming.Feed(c, s, pieces).messages
    decreases |pieces|
  {
    if pieces != [] {
      FeedOfLine(c, LineFraming.Push(c, s, pieces[0]).state, pieces[1..]);
    }
  }

  lemma {:induction false} FeedOfLength(c: LengthPrefix.Config, b: seq<Byte>, pieces: seq<seq<Byte>>)
    requires LengthPrefix.ValidConfig(c)
    ensures Feed(OfLength(c, b), pieces).messages == LengthPrefix.Feed(c, b, pieces).messages
    decreases |pieces|
  {
    if pieces != [] {
      FeedOfLength(c, LengthPrefix.Parse(c, b + pieces[0]).rest, pieces[1..]);
    }
  }

  lemma {:induction false} FeedOfPacket(c: PacketFraming.Config, s: PacketFraming.State, pieces: seq<seq<Byte>>)
    requires PacketFraming.ValidConfig(c) && PacketFraming.Sane(c, s)
    ensures Feed(OfPacket(c, s), pieces).messages == PacketFraming.Feed(c, s, pieces).messages
    decreases |pieces|
  {
    if pieces != [] {
      FeedOfPacket(c, PacketFraming.Push(c, s, pieces[0]).state, pieces[1..]);
    }
  }

  /** Every framer delivers the meaning of the stream, however it is cut. */
  lemma AnyCuttingMeans(v: Value, pieces: seq<seq<Byte>>)
    requires Proper(v) && Blank(v) && Regular(v, Concat(pieces))
    ensures Feed(v, pieces).messages == Meaning(v, Concat(pieces))
  {
    match v
    case OfLine(c, s) =>
      FeedOfLine(c, s, pieces);
      LineFraming.FramesWholeStream(c, pieces);
    case OfLength(c, b) =>
      FeedOfLength(c, b, pieces);
      assert [] + Concat(pieces) == Concat(pieces);
      LengthPrefix.AnyCutting(c, b, pieces);
    case OfPacket(c, s) =>
      FeedOfPacket(c, s, pieces);
      PacketFraming.FramesWholeStream(c, pieces);
  }

  // ------------------------------------------------------------------
  // The framers as objects
  // ------------------------------------------------------------------

  /** What ReceiveFramerAccess::visit tells apart. */
  datatype Handle =
    | Line(line: LineFraming.Framer)
    | Length(length: LengthPrefix.Framer)
    | Packet(packet: PacketFraming.Framer)
  {
    ghost function Repr(): set<object> {
      match this
      case Line(f) => {f}
      case Length(f) => {f}
      case Packet(f) => {f}
    }

    ghost predicate Valid()
      reads Repr()
    {
      match this
      case Line(f) => f.Valid()
      case Length(f) => f.Valid()
      case Packet(f) => f.Valid()
    }

    ghost function View(): (v: Value)
      requires Valid()
      reads Repr()
      ensures Proper(v)
    {
      match this
      case Line(f) => OfLine(f.config, f.View())
      case Length(f) => OfLength(f.config, f.buffer)
      case Packet(f) => OfPacket(f.config, f.View())
    }

    function Capacity(): nat
      reads Repr()
    {
      match this
      case Line(f) => f.capacity
      case Length(f) => f.capacity
      case Packet(f) => f.capacity
    }

    function Size(): (n: nat)
      reads Repr()
      ensures Valid() ==> n == |Buffer(View())| <= Capacity()
    {
      match this
      case Line(f) => |f.buffer|
      case Length(f) => |f.buffer|
      case Packet(f) => |f.buffer|
    }

    predicate SameKind(other: Handle) {
      match this
      case Line(f) => other.Line? && other.line.config == f.config
      case Length(f) => other.Length? && other.length.config == f.config
      case Packet(f) => other.Packet? && other.packet.config == f.config
    }

    /** ReceiveFramerAccess::clone: the contents, without the growth headroom. */
    method Clone() returns (copy: Handle)
      requires Valid()
      ensures fresh(copy.Repr()) && copy.Valid() && SameKind(copy)
      ensures copy.View() == View() && copy.Capacity() == Size()
    {
      if Line? {
        var g := new LineFraming.Framer.Copy(line);
        copy := Line(g);
      } else if Length? {
        var g := new LengthPrefix.Framer.Copy(length);
        copy := Length(g);
      } else {
        var g := new PacketFraming.Framer.Copy(packet);
        copy := Packet(g);
      }
    }

    /** ReceiveFramerAccess::reserve_exact. */
    method ReserveExact(n: nat)
      requires Valid()
      modifies Repr()
      ensures Valid() && View() == old(View())
      ensures Capacity() == if n <= old(Capacity()) then old(Capacity()) else n
    {
      if n <= Capacity() { return; }
      match this
      case Line(f) => f.capacity := n;
      case Length(f) => f.capacity := n;
      case Packet(f) => f.capacity := n;
    }

    method PushBytes(data: seq<Byte>) returns (out: seq<Message>)
      requires Valid()
      modifies Repr()
      ensures Valid()
      ensures Pushed(View(), out) == Push(old(View()), data)
      ensures old(Size()) + |data| <= old(Capacity()) ==> Capacity() == old(Capacity())
    {
      match this
      case Line(f) => out := f.PushBytes(data);
      case Length(f) => out := f.PushBytes(data);
      case Packet(f) => out := f.PushBytes(data);
    }

    /** ReceiveFramerAccess::commit: swap the state of two framers of one kind. */
    method Commit(source: Handle)
      requires Valid() && source.Valid() && SameKind(source) && Repr() !! source.Repr()
      modifies Repr(), source.Repr()
      ensures Valid() && View() == old(source.View()) && Capacity() == old(source.Capacity())
      ensures source.Valid() && source.View() == old(View()) && source.Capacity() == old(Capacity())
    {
      match this
      case Line(p) =>
        var q := source.line;
        p.buffer, q.buffer := q.buffer, p.buffer;
        p.capacity, q.capacity := q.capacity, p.capacity;
        p.scanned, q.scanned := q.scanned, p.scanned;
        p.discarding, q.discarding := q.discarding, p.discarding;
      case Length(p) =>
        var q := source.length;
        p.buffer, q.buffer := q.buffer, p.buffer;
        p.capacity, q.capacity := q.capacity, p.capacity;
      case Packet(p) =>
        var q := source.packet;
        p.buffer, q.buffer := q.buffer, p.buffer;
        p.capacity, q.capacity := q.capacity, p.capacity;
        p.scanned, q.scanned := q.scanned, p.scanned;
        p.collecting, q.collecting := q.collecting, p.collecting;
    }
  }

  // ------------------------------------------------------------------
  // Charges
  // ------------------------------------------------------------------

  /** ReceiveLimits with the record allowance of retain_received. */
  datatype Limits = Limits(maxBytes: nat, maxFrame: nat, records: nat)

  /** ReceiveLimits::validate. */
  predicate ValidLimits(l: Limits) {
    0 < l.maxFrame <= l.maxBytes
  }

  datatype Reason = ByteLimit | FrameLimit

  function MessageCharge(l: Limits, message: Message): nat {
    |message| + l.records
  }

  function TotalCharge(l: Limits, messages: seq<Message>): nat {
    if messages == [] then 0
    else TotalCharge(l, messages[..|messages| - 1]) + MessageCharge(l, messages[|messages| - 1])
  }

  lemma {:induction false} TotalChargeConcat(l: Limits, a: seq<Message>, b: seq<Message>)
    ensures TotalCharge(l, a + b) == TotalCharge(l, a) + TotalCharge(l, b)
    decreases |b|
  {
    if b == [] {
      assert a + b == a;
    } else {
      assert (a + b)[..|a + b| - 1] == a + b[..|b| - 1];
      TotalChargeConcat(l, a, b[..|b| - 1]);
    }
  }

  /** What messages hold once retained: every payload byte, and a record for each. */
  function Retained(l: Limits, messages: seq<Message>): nat {
    |Concat(messages)| + |messages| * l.records
  }

  lemma {:induction false} TotalChargeIsRetained(l: Limits, messages: seq<Message>)
    ensures TotalCharge(l, messages) == Retained(l, messages)
  {
    if messages != [] {
      var n := |messages| - 1;
      TotalChargeIsRetained(l, messages[..n]);
      assert messages == messages[..n] + [messages[n]];
      ConcatInTwo(messages[..n], [messages[n]]);
      ConcatOne(messages[n]);
      assert (n + 1) * l.records == n * l.records + l.records;
    }
  }

  lemma RetainedInTwo(l: Limits, a: seq<Message>, b: seq<Message>)
    ensures Retained(l, a + b) == Retained(l, a) + Retained(l, b)
  {
    TotalChargeConcat(l, a, b);
    TotalChargeIsRetained(l, a + b);
    TotalChargeIsRetained(l, a);
    TotalChargeIsRetained(l, b);
  }

  lemma RetainedOne(l: Limits, message: Message)
    ensures Retained(l, [message]) == |message| + l.records && Retained(l, []) == 0
  {
    ConcatOne(message);
  }

  /**
   One session's ReceiveScope. A reservation can be refused at any time, because
   other sessions draw on the same budget.
   */
  class Scope {
    const limits: Limits
    var used: nat
    ghost var refusals: nat   // how many reservations were refused

    ghost predicate Valid()
      reads this
    {
      ValidLimits(limits) && used <= limits.maxBytes
    }

    constructor (l: Limits)
      requires ValidLimits(l)
      ensures Valid() && limits == l && used == 0
    {
      limits, used := l, 0;
      refusals := 0;
    }

    method Reserve(bytes: nat) returns (granted: bool)
      requires Valid()
      modifies this
      ensures Valid()
      ensures used == old(used) + if granted then bytes else 0
      ensures refusals == old(refusals) + if granted then 0 else 1
    {
      granted := *;
      granted := granted && used + bytes <= limits.maxBytes;
      if granted {
        used := used + bytes;
      } else {
        refusals := refusals + 1;
      }
    }

    /** The destructors of charges. */
    method Release(bytes: nat)
      requires Valid() && bytes <= used
      modifies this`used
      ensures Valid() && used == old(used) - bytes
    {
      used := used - bytes;
    }
  }

  /** ReceiveState: the scope and the charge for the framer's own buffer. */
  class ReceiveState {
    const scope: Scope
    var frameStorage: Option<nat>

    ghost predicate Valid()
      reads this, scope
    {
      scope.Valid() && Held(frameStorage) <= scope.used
    }

    constructor (s: Scope)
      requires s.Valid()
      ensures Valid() && scope == s && frameStorage == None
    {
      scope, frameStorage := s, None;
    }
  }

  function Held(charge: Option<nat>): nat {
    if charge.Some? then charge.value else 0
  }

  // ------------------------------------------------------------------
  // prepare_receive
  // ------------------------------------------------------------------

  function Min(a: nat, b: nat): nat {
    if a < b then a else b
  }

  /** The capacity to ask for first: it doubles, unless the limit or the need says otherwise. */
  function Growth(limit: nat, current: nat, needed: nat): (target: nat)
    requires current < needed <= limit
    ensures needed <= target <= limit
    ensures target == limit || target >= 2 * current
  {
    var doubled := if current > limit / 2 then limit else current * 2;
    Min(limit, if needed < doubled then doubled else needed)
  }

  /** Make room for `needed` bytes, geometrically up to the limit; exactly, when the budget has no headroom. */
  method MakeRoom(scope: Scope, work: Handle, needed: nat, charge: nat) returns (ok: bool, charge': nat)
    requires scope.Valid() && work.Valid() && charge <= scope.used
    requires needed <= scope.limits.maxFrame
    requires work.Capacity() <= charge && work.Capacity() <= scope.limits.maxFrame
    modifies scope, work.Repr()
    ensures scope.Valid() && work.Valid() && work.View() == old(work.View())
    ensures charge' <= scope.used && scope.used - charge' == old(scope.used) - charge
    ensures ok ==> needed <= work.Capacity() && work.Capacity() <= charge' && work.Capacity() <= scope.limits.maxFrame
    ensures scope.refusals >= old(scope.refusals) + if ok then 0 else 1
    ensures ok && needed > old(work.Capacity()) ==>
              || work.Capacity() == needed || work.Capacity() == scope.limits.maxFrame
              || work.Capacity() >= 2 * old(work.Capacity())
  {
    hide Handle.View, Handle.Valid, Handle.Capacity, Proper, Growth;
    ok, charge' := true, charge;
    var limit, current := scope.limits.maxFrame, work.Capacity();
    if needed <= current { return; }
    var target := Growth(limit, current, needed);
    var granted := false;
    if target > needed {
      granted := scope.Reserve(target);
    }
    if !granted {
      target := needed;
      granted := scope.Reserve(needed);
      if !granted {
        ok := false;
        return;
      }
    }
    work.ReserveExact(target);
    scope.Release(charge);
    charge' := target;
  }

  /** retain_received for each message of a push; `charged` is what they hold even when one is refused. */
  method RetainAll(scope: Scope, messages: seq<Message>) returns (ok: bool, charged: nat)
    requires scope.Valid()
    modifies scope
    ensures scope.Valid() && scope.used == old(scope.used) + charged
    ensures ok ==> charged == TotalCharge(scope.limits, messages)
    ensures scope.refusals >= old(scope.refusals) + if ok then 0 else 1
  {
    ok, charged := true, 0;
    var i := 0;
    while i < |messages|
      invariant i <= |messages| && scope.Valid() && scope.refusals == old(scope.refusals)
      invariant scope.used == old(scope.used) + charged
      invariant charged == TotalCharge(scope.limits, messages[..i])
    {
      assert messages[..i + 1][..i] == messages[..i];
      var granted := scope.Reserve(MessageCharge(scope.limits, messages[i]));
      if !granted {
        ok := false;
        return;
      }
      charged := charged + MessageCharge(scope.limits, messages[i]);
      i := i + 1;
    }
    assert messages[..i] == messages;
  }

  /** Nonempty pieces of at most 4096 bytes. */
  predicate Chunks(pieces: seq<seq<Byte>>) {
    forall i | 0 <= i < |pieces| :: 0 < |pieces[i]| <= 4096
  }

  /** How far the pieces took the copy when the call ended. */
  ghost predicate Progress(v: Value, pieces: seq<seq<Byte>>, upTo: seq<Byte>, now: Value, staged: seq<Message>)
    requires Proper(v)
  {
    Chunks(pieces) && Concat(pieces) == upTo && Feed(v, pieces) == Pushed(now, staged)
  }

  lemma ProgressStep(v: Value, pieces: seq<seq<Byte>>, input: seq<Byte>, offset: nat, n: nat, now: Value,
                     staged: seq<Message>)
    requires Proper(v) && Proper(now) && offset + n <= |input| && 0 < n <= 4096
    requires Progress(v, pieces, input[..offset], now, staged)
    ensures var next := Push(now, input[offset..offset + n]);
            Progress(v, pieces + [input[offset..offset + n]], input[..offset + n], next.value, staged + next.messages)
  {
    hide Push, Proper;
    var piece := input[offset..offset + n];
    FeedInTwo(v, pieces, [piece]);
    FeedOne(now, piece);
    ConcatInTwo(pieces, [piece]);
    ConcatOne(piece);
    assert input[..offset] + piece == input[..offset + n];
  }

  lemma ProgressStart(v: Value)
    requires Proper(v)
    ensures Progress(v, [], [], v, [])
  {
  }

  datatype Staging = Staged(messages: seq<Message>) | Failed(reason: Reason)

  /** The chunk loop of prepare_receive, on the copy; `charged` is what the messages hold. */
  method Stage(scope: Scope, work: Handle, input: seq<Byte>, charge: nat)
    returns (r: Staging, charge': nat, charged: nat, ghost pieces: seq<seq<Byte>>)
    requires scope.Valid() && work.Valid() && charge <= scope.used
    requires work.Capacity() <= charge && work.Capacity() <= scope.limits.maxFrame
    modifies scope, work.Repr()
    ensures scope.Valid() && work.Valid()
    ensures charge' + charged <= scope.used && scope.used - charge' - charged == old(scope.used) - charge
    ensures r.Staged? ==>
              && Progress(old(work.View()), pieces, input, work.View(), r.messages)
              && work.Capacity() <= charge' && work.Capacity() <= scope.limits.maxFrame
              && charged == TotalCharge(scope.limits, r.messages)
    ensures r == Failed(FrameLimit) ==>
              && Chunks(pieces) && Concat(pieces) < input
              && |Buffer(Feed(old(work.View()), pieces).value)| >= scope.limits.maxFrame
    ensures scope.refusals >= old(scope.refusals) + if r == Failed(ByteLimit) then 1 else 0
  {
    hide Progress, Chunks, Concat, Feed, Push, Proper, Buffer, TotalCharge;
    charge', charged, pieces := charge, 0, [];
    var limit := scope.limits.maxFrame;
    var offset := 0;
    var staged: seq<Message> := [];
    ghost var start := work.View();
    ProgressStart(start);
    assert input[..0] == [];
    NoCharge(scope.limits);
    while offset < |input|
      invariant offset <= |input| && scope.Valid() && work.Valid() && scope.refusals >= old(scope.refusals)
      invariant charge' + charged <= scope.used && scope.used - charge' - charged == old(scope.used) - charge
      invariant work.Capacity() <= charge' && work.Capacity() <= limit
      invariant charged == TotalCharge(scope.limits, staged)
      invariant Progress(start, pieces, input[..offset], work.View(), staged)
    {
      var used := work.Size();
      if used >= limit {
        ProgressMeans(start, pieces, input[..offset], work.View(), staged);
        assert input[..offset] < input;
        r := Failed(FrameLimit);
        return;
      }
      var n := Min(Min(|input| - offset, limit - used), 4096);
      var ok;
      ok, charge' := MakeRoom(scope, work, used + n, charge');
      if !ok {
        r := Failed(ByteLimit);
        return;
      }
      ProgressStep(start, pieces, input, offset, n, work.View(), staged);
      var messages := work.PushBytes(input[offset..offset + n]);
      pieces := pieces + [input[offset..offset + n]];
      TotalChargeConcat(scope.limits, staged, messages);
      staged := staged + messages;
      var more;
      ok, more := RetainAll(scope, messages);
      charged := charged + more;
      if !ok {
        r := Failed(ByteLimit);
        return;
      }
      offset := offset + n;
    }
    assert input[..offset] == input;
    r := Staged(staged);
  }

  lemma NoCharge(l: Limits)
    ensures TotalCharge(l, []) == 0
  {
  }

  lemma ProgressMeans(v: Value, pieces: seq<seq<Byte>>, upTo: seq<Byte>, now: Value, staged: seq<Message>)
    requires Proper(v) && Progress(v, pieces, upTo, now, staged)
    ensures Chunks(pieces) && Concat(pieces) == upTo && Feed(v, pieces) == Pushed(now, staged)
  {
  }

  /** What prepare_receive does with the framer: charge, copy, stage on the copy, commit. */
  method Decode(state: ReceiveState, f: Handle, input: seq<Byte>)
    returns (r: Staging, ghost pieces: seq<seq<Byte>>)
    requires state.Valid() && f.Valid() && {state, state.scope} !! f.Repr()
    modifies state, state.scope, f.Repr()
    ensures state.Valid() && f.Valid()
    ensures r.Failed? ==>
              && f.View() == old(f.View()) && f.Capacity() == old(f.Capacity())
              && (state.frameStorage == old(state.frameStorage)
                  || (old(state.frameStorage) == None && state.frameStorage == Some(f.Capacity())))
              && state.scope.used - Held(state.frameStorage) == old(state.scope.used) - old(Held(state.frameStorage))
    ensures r == Failed(FrameLimit) ==>
              || f.Capacity() > state.scope.limits.maxFrame
              || (&& Chunks(pieces) && Concat(pieces) < input
                  && |Buffer(Feed(old(f.View()), pieces).value)| >= state.scope.limits.maxFrame)
    ensures r.Staged? ==>
              && Progress(old(f.View()), pieces, input, f.View(), r.messages)
              && f.Capacity() <= Held(state.frameStorage) && f.Capacity() <= state.scope.limits.maxFrame
              && state.scope.used - Held(state.frameStorage)
                 == old(state.scope.used) - old(Held(state.frameStorage)) + TotalCharge(state.scope.limits, r.messages)
    ensures state.scope.refusals >= old(state.scope.refusals) + if r == Failed(ByteLimit) then 1 else 0
  {
    hide Feed, Proper, Concat, Chunks, Buffer, Push, TotalCharge, Progress;
    hide Handle.View, Handle.Valid, Handle.Capacity, Handle.Size, Handle.SameKind;
    pieces := [];
    if f.Capacity() > state.scope.limits.maxFrame {
      return Failed(FrameLimit), [];
    }
    var granted := ChargeStorage(state, f.Capacity());
    if !granted { return Failed(ByteLimit), []; }
    granted := state.scope.Reserve(f.Size());
    if !granted { return Failed(ByteLimit), []; }
    var work := f.Clone();
    var charge, charged;
    r, charge, charged, pieces := Stage(state.scope, work, input, f.Size());
    if r.Failed? {
      state.scope.Release(charge + charged);
    } else {
      f.Commit(work);
      ReplaceStorage(state, charge);
    }
  }

  /** The framer's buffer is charged once, when it first holds one. */
  method ChargeStorage(state: ReceiveState, capacity: nat) returns (granted: bool)
    requires state.Valid()
    modifies state, state.scope
    ensures state.Valid()
    ensures state.scope.used - Held(state.frameStorage) == old(state.scope.used) - old(Held(state.frameStorage))
    ensures state.frameStorage == old(state.frameStorage)
            || (old(state.frameStorage) == None && state.frameStorage == Some(capacity))
    ensures state.scope.refusals == old(state.scope.refusals) + if granted then 0 else 1
  {
    granted := true;
    if state.frameStorage == None && capacity > 0 {
      granted := state.scope.Reserve(capacity);
      if granted {
        state.frameStorage := Some(capacity);
      }
    }
  }

  /** The committed buffer's charge takes the place of the old one. */
  method ReplaceStorage(state: ReceiveState, charge: nat)
    requires state.Valid() && charge + Held(state.frameStorage) <= state.scope.used
    modifies state, state.scope`used
    ensures state.Valid() && state.frameStorage == Some(charge)
    ensures state.scope.used == old(state.scope.used) - old(Held(state.frameStorage))
  {
    state.scope.Release(Held(state.frameStorage));
    state.frameStorage := Some(charge);
  }

  /** `raw` is what a batch handler keeps of the input; `messages` are staged for delivery. */
  datatype Outcome =
    | Ready(raw: Option<Message>, messages: seq<Message>)
    | Overflow(reason: Reason)

  /**
   prepare_receive with a built-in framer.

   On overflow the framer is exactly as before, and nothing stays charged that
   was not (a first charge for its existing buffer aside); a byte overflow comes
   from a refused reservation, a frame overflow from a buffer at the limit while
   input is left. On success framer and
   messages are those of pushing the input in the pieces named; the buffer lies
   within the charge kept for it and within the frame limit; and the charges held
   are exactly that one and those of the result.
   */
  method PrepareReceive(state: ReceiveState, f: Handle, input: seq<Byte>, rawBatch: bool)
    returns (r: Outcome, ghost pieces: seq<seq<Byte>>)
    requires state.Valid() && f.Valid() && {state, state.scope} !! f.Repr()
    modifies state, state.scope, f.Repr()
    ensures state.Valid() && f.Valid()
    ensures r.Overflow? ==>
              && f.View() == old(f.View()) && f.Capacity() == old(f.Capacity())
              && (state.frameStorage == old(state.frameStorage)
                  || (old(state.frameStorage) == None && state.frameStorage == Some(f.Capacity())))
    ensures r == Overflow(FrameLimit) ==>
              || f.Capacity() > state.scope.limits.maxFrame
              || (&& Chunks(pieces) && Concat(pieces) < input
                  && |Buffer(Feed(old(f.View()), pieces).value)| >= state.scope.limits.maxFrame)
    ensures r.Ready? ==>
              && Chunks(pieces) && Concat(pieces) == input
              && Pushed(f.View(), r.messages) == Feed(old(f.View()), pieces)
              && r.raw == (if rawBatch then Some(input) else None)
              && f.Capacity() <= Held(state.frameStorage) && f.Capacity() <= state.scope.limits.maxFrame
    ensures state.scope.used - Held(state.frameStorage)
            == old(state.scope.used) - old(Held(state.frameStorage))
               + if r.Overflow? then 0
                 else Retained(state.scope.limits, r.messages)
                      + if rawBatch then |input| + state.scope.limits.records else 0
    ensures state.scope.refusals >= old(state.scope.refusals) + if r == Overflow(ByteLimit) then 1 else 0
  {
    hide Feed, Proper, Concat, Chunks, Buffer, Push, TotalCharge, Progress, Retained;
    var scope, rawCharge := state.scope, 0;
    ghost var start := f.View();
    pieces := [];
    if rawBatch {
      rawCharge := MessageCharge(scope.limits, input);
      var granted := scope.Reserve(rawCharge);
      if !granted { return Overflow(ByteLimit), []; }
    }
    var staging;
    staging, pieces := Decode(state, f, input);
    if staging.Failed? {
      scope.Release(rawCharge);
      r := Overflow(staging.reason);
    } else {
      ProgressMeans(start, pieces, input, f.View(), staging.messages);
      TotalChargeIsRetained(scope.limits, staging.messages);
      r := Ready(if rawBatch then Some(input) else None, staging.messages);
    }
  }

  // ------------------------------------------------------------------
  // A session's receive path
  // ------------------------------------------------------------------

  /** The inputs that did not overflow, in order. */
  function Taken(inputs: seq<seq<Byte>>, outcomes: seq<Outcome>): seq<seq<Byte>>
    requires |inputs| == |outcomes|
  {
    if inputs == [] then []
    else
      var n := |inputs| - 1;
      Taken(inputs[..n], outcomes[..n]) + if outcomes[n].Ready? then [inputs[n]] else []
  }

  /** Their staged messages, in order. */
  function Deliveries(outcomes: seq<Outcome>): seq<Message> {
    if outcomes == [] then []
    else
      var n := |outcomes| - 1;
      Deliveries(outcomes[..n]) + if outcomes[n].Ready? then outcomes[n].messages else []
  }

  function ByteOverflows(outcomes: seq<Outcome>): nat {
    if outcomes == [] then 0
    else
      var n := |outcomes| - 1;
      ByteOverflows(outcomes[..n]) + if outcomes[n] == Overflow(ByteLimit) then 1 else 0
  }

  /** After what was taken before it, some beginning of the input fills the framer's buffer while input is left. */
  ghost predicate Overfills(v: Value, taken: seq<seq<Byte>>, input: seq<Byte>, limit: nat)
    requires Proper(v)
  {
    exists pieces, k ::
      && 0 <= k < |input| && Concat(pieces) == Concat(taken) + input[..k]
      && |Buffer(Feed(v, pieces).value)| >= limit
  }

  /** Every frame overflow of a run has that cause, unless the buffer was too large to begin with. */
  ghost predicate FramesExplained(v: Value, inputs: seq<seq<Byte>>, outcomes: seq<Outcome>, limit: nat)
    requires Proper(v) && |inputs| == |outcomes|
  {
    forall i | 0 <= i < |inputs| && outcomes[i] == Overflow(FrameLimit) ::
      Overfills(v, Taken(inputs[..i], outcomes[..i]), inputs[i], limit)
  }

  lemma TakenSnoc(inputs: seq<seq<Byte>>, outcomes: seq<Outcome>, i: nat, r: Outcome)
    requires i < |inputs| && |outcomes| == i
    ensures Taken(inputs[..i + 1], outcomes + [r])
            == Taken(inputs[..i], outcomes) + if r.Ready? then [inputs[i]] else []
    ensures Deliveries(outcomes + [r]) == Deliveries(outcomes) + if r.Ready? then r.messages else []
    ensures ByteOverflows(outcomes + [r]) == ByteOverflows(outcomes) + if r == Overflow(ByteLimit) then 1 else 0
  {
    assert inputs[..i + 1][..i] == inputs[..i] && (outcomes + [r])[..i] == outcomes;
  }

  lemma ExplainedSnoc(v: Value, inputs: seq<seq<Byte>>, outcomes: seq<Outcome>, i: nat, r: Outcome, limit: nat)
    requires Proper(v) && i < |inputs| && |outcomes| == i && FramesExplained(v, inputs[..i], outcomes, limit)
    requires r == Overflow(FrameLimit) ==> Overfills(v, Taken(inputs[..i], outcomes), inputs[i], limit)
    ensures FramesExplained(v, inputs[..i + 1], outcomes + [r], limit)
  {
    hide Taken, Overfills;
    var ins, outs := inputs[..i + 1], outcomes + [r];
    forall k | 0 <= k <= i && outs[k] == Overflow(FrameLimit)
      ensures Overfills(v, Taken(ins[..k], outs[..k]), ins[k], limit)
    {
      assert ins[..k] == inputs[..i][..k] && outs[..k] == outcomes[..k];
      if k == i {
        assert inputs[..i][..i] == inputs[..i] && outcomes[..i] == outcomes;
      } else {
        assert ins[k] == inputs[..i][k] && outs[k] == outcomes[k];
      }
    }
  }

  lemma FeedOverfills(v: Value, pieces: seq<seq<Byte>>, taken: seq<seq<Byte>>, chunks: seq<seq<Byte>>,
                      input: seq<Byte>, limit: nat)
    requires Proper(v) && Concat(pieces) == Concat(taken) && Concat(chunks) < input
    requires |Buffer(Feed(Feed(v, pieces).value, chunks).value)| >= limit
    ensures Overfills(v, taken, input, limit)
  {
    hide Feed, Buffer, Proper, Concat;
    FeedInTwo(v, pieces, chunks);
    ConcatInTwo(pieces, chunks);
    var k := |Concat(chunks)|;
    assert input[..k] == Concat(chunks);
    assert Concat(pieces + chunks) == Concat(taken) + input[..k];
  }

  /**
   Each input is prepared and, unless it overflows, delivered. Rejected inputs
   leave no trace: what is delivered is what the framer delivers for the taken
   inputs alone, by its whole-stream rule on every stream the rule covers. No
   input is rejected without a cause: a byte overflow for each needs a refused
   reservation of its own, a frame overflow a filled buffer.
   */
  method ReceiveEach(state: ReceiveState, f: Handle, inputs: seq<seq<Byte>>, rawBatch: bool)
    returns (delivered: seq<Message>, outcomes: seq<Outcome>)
    requires state.Valid() && f.Valid() && {state, state.scope} !! f.Repr()
    modifies state, state.scope, f.Repr()
    ensures state.Valid() && f.Valid()
    ensures |outcomes| == |inputs| && delivered == Deliveries(outcomes)
    ensures exists pieces ::
              && Concat(pieces) == Concat(Taken(inputs, outcomes))
              && Feed(old(f.View()), pieces) == Pushed(f.View(), delivered)
    ensures Blank(old(f.View())) && Regular(old(f.View()), Concat(Taken(inputs, outcomes))) ==>
              delivered == Meaning(old(f.View()), Concat(Taken(inputs, outcomes)))
    ensures state.scope.used - Held(state.frameStorage)
            == old(state.scope.used) - old(Held(state.frameStorage)) + Retained(state.scope.limits, delivered)
               + if rawBatch then Retained(state.scope.limits, Taken(inputs, outcomes)) else 0
    ensures state.scope.refusals >= old(state.scope.refusals) + ByteOverflows(outcomes)
    ensures old(f.Capacity()) <= state.scope.limits.maxFrame ==>
              FramesExplained(old(f.View()), inputs, outcomes, state.scope.limits.maxFrame)
  {
    hide Feed, Proper, Concat, Push, Regular, Meaning, Blank, Retained, Taken, Deliveries, ByteOverflows, Buffer,
      Chunks;
    hide Overfills, FramesExplained, Handle.View, Handle.Valid, Handle.Capacity;
    outcomes, delivered := [], [];
    ghost var start, limit, fits := f.View(), state.scope.limits.maxFrame, f.Capacity() <= state.scope.limits.maxFrame;
    ghost var pieces: seq<seq<Byte>> := [];
    NothingReceived(start, inputs, limit);
    RetainedOne(state.scope.limits, []);
    var i := 0;
    while i < |inputs|
      invariant i <= |inputs| && |outcomes| == i
      invariant state.Valid() && f.Valid() && (fits ==> f.Capacity() <= limit)
      invariant Concat(pieces) == Concat(Taken(inputs[..i], outcomes)) && delivered == Deliveries(outcomes)
      invariant Feed(start, pieces) == Pushed(f.View(), delivered)
      invariant state.scope.refusals >= old(state.scope.refusals) + ByteOverflows(outcomes)
      invariant fits ==> FramesExplained(start, inputs[..i], outcomes, limit)
      invariant state.scope.used - Held(state.frameStorage)
                == old(state.scope.used) - old(Held(state.frameStorage)) + Retained(state.scope.limits, delivered)
                   + if rawBatch then Retained(state.scope.limits, Taken(inputs[..i], outcomes)) else 0
    {
      ghost var taken := Taken(inputs[..i], outcomes);
      var r;
      ghost var chunks;
      r, chunks := PrepareReceive(state, f, inputs[i], rawBatch);
      TakenSnoc(inputs, outcomes, i, r);
      if r.Ready? {
        FeedInTwo(start, pieces, chunks);
        ConcatInTwo(pieces, chunks);
        ConcatInTwo(taken, [inputs[i]]);
        ConcatOne(inputs[i]);
        RetainedInTwo(state.scope.limits, delivered, r.messages);
        RetainedInTwo(state.scope.limits, taken, [inputs[i]]);
        RetainedOne(state.scope.limits, inputs[i]);
        pieces := pieces + chunks;
        delivered := delivered + r.messages;
      } else {
        assert taken + [] == taken && delivered + [] == delivered;
        if r == Overflow(FrameLimit) && fits {
          FeedOverfills(start, pieces, taken, chunks, inputs[i], limit);
        }
      }
      if fits { ExplainedSnoc(start, inputs, outcomes, i, r, limit); }
      outcomes := outcomes + [r];
      i := i + 1;
    }
    assert inputs[..i] == inputs;
    if Blank(start) && Regular(start, Concat(pieces)) {
      AnyCuttingMeans(start, pieces);
    }
  }

  lemma NothingReceived(v: Value, inputs: seq<seq<Byte>>, limit: nat)
    requires Proper(v)
    ensures Feed(v, []) == Pushed(v, []) && Concat([]) == [] && Concat(Taken(inputs[..0], [])) == []
    ensures Taken(inputs[..0], []) == [] && Deliveries([]) == [] && ByteOverflows([]) == 0
            && FramesExplained(v, inputs[..0], [], limit)
  {
    assert inputs[..0] == [];
  }
}
