/**
 PacketFramer (wirestead/framer/packet_framer.cc): packets between a start and
 an end pattern, with a zero-copy path, a Sync/Collect loop over the buffer and
 a resume index for the end pattern.
 */
module PacketFraming {
  import opened Options
  import opened Octets

  /** start_pattern_, end_pattern_ and max_length_. */
  datatype Config = Config(start: seq<Byte>, end: seq<Byte>, max: nat)

  /** What the constructor insists on. */
  predicate ValidConfig(c: Config) {
    c.start != [] || c.end != []
  }

  datatype State = State(buffer: seq<Byte>, collecting: bool, scanned: nat)

  const EMPTY := State([], false, 0)

  /** A collected packet begins with the start pattern, and the resume index lies in the buffer. */
  predicate Sane(c: Config, s: State) {
    && (s.collecting ==> c.start <= s.buffer)
    && (s.collecting || c.start == [] ==> s.scanned <= |s.buffer|)
  }

  datatype Pushed = Pushed(state: State, messages: seq<Message>)

  // ------------------------------------------------------------------
  // What the code does
  // ------------------------------------------------------------------

  /** How many bytes without a start pattern are worth keeping. */
  function Keep(c: Config): nat {
    if |c.start| > 1 then |c.start| - 1 else 0
  }

  function Trim(c: Config, rest: seq<Byte>): seq<Byte> {
    if |rest| > Keep(c) then rest[|rest| - Keep(c)..] else rest
  }

  function Allowed(c: Config, packet: Message): seq<Message> {
    if |packet| <= c.max then [packet] else []
  }

  datatype Scanned = Scanned(messages: seq<Message>, processed: nat)

  /** The zero-copy loop over fresh data. */
  function Fast(c: Config, data: seq<Byte>, processed: nat): (r: Scanned)
    requires ValidConfig(c) && processed <= |data|
    ensures processed <= r.processed <= |data|
    decreases |data| - processed
  {
    if processed == |data| then Scanned([], processed)
    else
      var start := Find(data, c.start, processed);
      if start.None? then
        Scanned([], if |data| - processed > Keep(c) then |data| - Keep(c) else processed)
      else
        var body := start.value + |c.start|;
        if c.end == [] then
          var tail := Fast(c, data, body);
          Scanned([data[start.value..body]] + tail.messages, tail.processed)
        else
          var end := Find(data, c.end, body);
          if end.None? then Scanned([], start.value)
          else
            var stop := end.value + |c.end|;
            var tail := Fast(c, data, stop);
            Scanned(Allowed(c, data[start.value..stop]) + tail.messages, tail.processed)
  }

  /** What the zero-copy path leaves in the framer. */
  function Stash(c: Config, s: State, rest: seq<Byte>): State {
    if rest == [] then s
    else
      var begun := !s.collecting && c.start <= rest;
      var collecting := s.collecting || begun;
      if collecting && |rest| > c.max then EMPTY
      else State(rest, collecting, if begun then |c.start| else s.scanned)
  }

  /** Where the search for the end pattern resumes. */
  function SearchOffset(c: Config, s: State): (r: nat)
    ensures |c.start| <= r
    ensures s.scanned <= |s.buffer| && |c.start| <= |s.buffer| ==> r <= |s.buffer|
  {
    var offset := if s.scanned > |c.start| then s.scanned else |c.start|;
    var overlap := if |c.end| > 1 then |c.end| - 1 else 0;
    var backed :=
      if offset <= |c.start| then offset
      else if offset >= overlap then offset - overlap
      else 0;
    if backed < |c.start| then |c.start| else backed
  }

  /** The loop over the buffer; each round shortens it or leaves Sync. */
  function Loop(c: Config, s: State): (r: Pushed)
    requires ValidConfig(c) && Sane(c, s)
    ensures Sane(c, r.state)
    decreases |s.buffer|, if s.collecting then 0 else 1
  {
    if !s.collecting then
      if c.start == [] then Loop(c, s.(collecting := true))
      else
        var start := Find(s.buffer, c.start, 0);
        if start.None? then Pushed(s.(buffer := Trim(c, s.buffer)), [])
        else
          StartsThere(c, s.buffer);
          Loop(c, State(s.buffer[start.value..], true, |c.start|))
    else if c.end == [] then
      var tail := Loop(c, State(s.buffer[|c.start|..], false, s.scanned));
      Pushed(tail.state, [s.buffer[..|c.start|]] + tail.messages)
    else
      var end := Find(s.buffer, c.end, SearchOffset(c, s));
      if end.None? then
        if |s.buffer| > c.max then Pushed(EMPTY, []) else Pushed(s.(scanned := |s.buffer|), [])
      else
        var stop := end.value + |c.end|;
        var tail := Loop(c, State(s.buffer[stop..], false, 0));
        Pushed(tail.state, Allowed(c, s.buffer[..stop]) + tail.messages)
  }

  lemma StartsThere(c: Config, data: seq<Byte>)
    requires Find(data, c.start, 0).Some?
    ensures c.start <= data[Find(data, c.start, 0).value..]
  {
    hide Find;
    var i := Find(data, c.start, 0).value;
    FindFirst(data, c.start, 0);
    assert data[i..][..|c.start|] == data[i..i + |c.start|];
  }

  /** push_bytes. */
  function Push(c: Config, s: State, data: seq<Byte>): (r: Pushed)
    requires ValidConfig(c) && Sane(c, s)
    ensures Sane(c, r.state)
  {
    if data == [] then Pushed(s, [])
    else if s.buffer == [] then
      var r := Fast(c, data, 0);
      Pushed(Stash(c, s, data[r.processed..]), r.messages)
    else
      Loop(c, s.(buffer := s.buffer + data))
  }

  function Feed(c: Config, s: State, pieces: seq<seq<Byte>>): (r: Pushed)
    requires ValidConfig(c) && Sane(c, s)
    ensures Sane(c, r.state)
    decreases |pieces|
  {
    if pieces == [] then Pushed(s, [])
    else
      var first := Push(c, s, pieces[0]);
      var later := Feed(c, first.state, pieces[1..]);
      Pushed(later.state, first.messages + later.messages)
  }

  // ------------------------------------------------------------------
  // What it should do: first start, first end behind it, over the whole stream
  // ------------------------------------------------------------------

  /** Complete packets, and what follows the last of them. */
  datatype Split = Split(packets: seq<Message>, rest: seq<Byte>)

  datatype Span = Span(from: nat, to: nat)

  /** Where the first packet stands, if it is complete. */
  function First(c: Config, stream: seq<Byte>): (r: Option<Span>)
    ensures r.Some? ==> r.value.from + |c.start| + |c.end| <= r.value.to <= |stream|
  {
    var start := Find(stream, c.start, 0);
    if start.None? then None
    else
      var end := Find(stream, c.end, start.value + |c.start|);
      if end.None? then None else Some(Span(start.value, end.value + |c.end|))
  }

  function Packets(c: Config, stream: seq<Byte>): Split
    requires ValidConfig(c)
    decreases |stream|
  {
    var first := First(c, stream);
    if first.None? then Split([], stream)
    else
      var Span(from, to) := first.value;
      var later := Packets(c, stream[to..]);
      Split([stream[from..to]] + later.packets, later.rest)
  }

  lemma PacketsStep(c: Config, stream: seq<Byte>)
    requires ValidConfig(c)
    ensures First(c, stream).None? ==> Packets(c, stream) == Split([], stream)
    ensures First(c, stream).Some? ==>
              var Span(from, to) := First(c, stream).value;
              var later := Packets(c, stream[to..]);
              Packets(c, stream) == Split([stream[from..to]] + later.packets, later.rest)
  {
    hide First;
  }

  /** The packets that are delivered; max_length is not applied to bare start patterns. */
  function Kept(c: Config, packets: seq<Message>): seq<Message> {
    if packets == [] then []
    else (if c.end == [] then [packets[0]] else Allowed(c, packets[0])) + Kept(c, packets[1..])
  }

  /** The part of an unfinished rest that still matters: an open packet, or a possible beginning of one. */
  function Kernel(c: Config, rest: seq<Byte>): seq<Byte> {
    var start := Find(rest, c.start, 0);
    if start.None? then Trim(c, rest) else rest[start.value..]
  }

  predicate Open(c: Config, rest: seq<Byte>) {
    Find(rest, c.start, 0).Some?
  }

  // ------------------------------------------------------------------
  // Bytes in front of the first start pattern do not matter
  // ------------------------------------------------------------------

  lemma FirstOfSuffix(c: Config, stream: seq<Byte>, d: nat)
    requires d <= |stream| && Find(stream, c.start, 0) == Find(stream, c.start, d)
    ensures Open(c, stream) == Open(c, stream[d..])
    ensures Open(c, stream) ==> Find(stream, c.start, 0).value == d + Find(stream[d..], c.start, 0).value
    ensures First(c, stream).Some? == First(c, stream[d..]).Some?
    ensures First(c, stream).Some? ==>
              First(c, stream).value == Span(d + First(c, stream[d..]).value.from, d + First(c, stream[d..]).value.to)
  {
    hide Find;
    FindInSuffix(stream, c.start, d, 0);
    if Open(c, stream) {
      var body := Find(stream, c.start, 0).value + |c.start|;
      FindInSuffix(stream, c.end, d, body - d);
    }
  }

  lemma KernelOfSuffix(c: Config, rest: seq<Byte>, d: nat)
    requires d <= |rest| && Find(rest, c.start, 0) == Find(rest, c.start, d)
    requires Open(c, rest) || d == 0 || |rest| - d >= Keep(c)
    ensures Kernel(c, rest) == Kernel(c, rest[d..])
  {
    hide Find;
    FirstOfSuffix(c, rest, d);
    if Open(c, rest) {
      var i := Find(rest, c.start, 0).value;
      assert rest[d..][i - d..] == rest[i..];
    } else if d > 0 {
      assert rest[d..][|rest| - d - Keep(c)..] == rest[|rest| - Keep(c)..];
    } else {
      assert rest[0..] == rest;
    }
  }

  lemma Drop(c: Config, stream: seq<Byte>, d: nat)
    requires ValidConfig(c) && d <= |stream| && Find(stream, c.start, 0) == Find(stream, c.start, d)
    requires Open(c, stream) || d == 0 || |stream| - d >= Keep(c)
    ensures var all, cut := Packets(c, stream), Packets(c, stream[d..]);
            && all.packets == cut.packets
            && Kernel(c, all.rest) == Kernel(c, cut.rest)
            && Open(c, all.rest) == Open(c, cut.rest)
  {
    hide Find, First, Open, Kernel, Packets;
    FirstOfSuffix(c, stream, d);
    PacketsStep(c, stream);
    PacketsStep(c, stream[d..]);
    if First(c, stream).Some? {
      var Span(from, to) := First(c, stream).value;
      assert stream[d..][to - d..] == stream[to..];
      assert stream[d..][from - d..to - d] == stream[from..to];
    } else {
      KernelOfSuffix(c, stream, d);
    }
  }

  // ------------------------------------------------------------------
  // Splitting in two
  // ------------------------------------------------------------------

  lemma FirstInPrefix(c: Config, a: seq<Byte>, b: seq<Byte>)
    ensures First(c, a).Some? ==> First(c, a + b) == First(c, a)
  {
    hide Find;
    FindInPrefix(a, b, c.start, 0);
    if Open(c, a) {
      FindInPrefix(a, b, c.end, Find(a, c.start, 0).value + |c.start|);
    }
  }

  /** Splitting may stop and continue from the rest. */
  lemma {:induction false} PacketsInTwo(c: Config, a: seq<Byte>, b: seq<Byte>)
    requires ValidConfig(c)
    ensures var first := Packets(c, a);
            var second := Packets(c, first.rest + b);
            Packets(c, a + b) == Split(first.packets + second.packets, second.rest)
    decreases |a|
  {
    hide First;
    FirstInPrefix(c, a, b);
    if First(c, a).Some? {
      var Span(from, to) := First(c, a).value;
      assert (a + b)[to..] == a[to..] + b;
      assert (a + b)[from..to] == a[from..to];
      PacketsInTwo(c, a[to..], b);
      var first := Packets(c, a[to..]);
      var second := Packets(c, first.rest + b);
      assert [a[from..to]] + (first.packets + second.packets) == ([a[from..to]] + first.packets) + second.packets;
    } else {
      assert [] + Packets(c, a + b).packets == Packets(c, a + b).packets;
    }
  }

  lemma {:induction false} RestHasNone(c: Config, stream: seq<Byte>)
    requires ValidConfig(c)
    ensures First(c, Packets(c, stream).rest).None?
    decreases |stream|
  {
    hide First;
    if First(c, stream).Some? {
      RestHasNone(c, stream[First(c, stream).value.to..]);
    }
  }

  // ------------------------------------------------------------------
  // The framer follows the splitting
  // ------------------------------------------------------------------

  /** The framer holds the rest's kernel, collecting exactly when a packet is open. */
  predicate Follows(c: Config, rest: seq<Byte>, s: State) {
    && s.buffer == Kernel(c, rest)
    && (if !Open(c, rest) then !s.collecting
        else if s.buffer == [] then s.scanned == 0
        else s.collecting && s.scanned <= |s.buffer| <= c.max)
  }

  predicate TooLong(c: Config, rest: seq<Byte>) {
    Open(c, rest) && |Kernel(c, rest)| > c.max
  }

  /** Where one push ends: following, unless the open packet was given up for its length. */
  predicate Ends(c: Config, rest: seq<Byte>, s: State) {
    if TooLong(c, rest) then s == EMPTY else Follows(c, rest, s)
  }

  lemma FollowsIsSane(c: Config, rest: seq<Byte>, s: State)
    requires Follows(c, rest, s)
    ensures Sane(c, s)
  {
    hide Find;
    if Open(c, rest) {
      StartsThere(c, rest);
    } else {
      assert c.start != [] by {
        if c.start == [] {
          EmptyPatternFound(rest, 0);
        }
      }
    }
  }

  lemma EmptyPatternFound(data: seq<Byte>, from: nat)
    requires from <= |data|
    ensures Find(data, [], from) == Some(from)
  {
  }

  lemma FoundAtOnce(data: seq<Byte>, pattern: seq<Byte>)
    requires pattern <= data
    ensures Find(data, pattern, 0) == Some(0)
  {
  }

  /** No end pattern was skipped over by the resume index. */
  predicate Resumable(c: Config, s: State) {
    (s.collecting || c.start == []) && c.end != [] ==>
      Find(s.buffer, c.end, SearchOffset(c, s)) == Find(s.buffer, c.end, |c.start|)
  }

  lemma FirstWhenCollecting(c: Config, buffer: seq<Byte>)
    requires c.start <= buffer
    ensures Open(c, buffer) && Kernel(c, buffer) == buffer
    ensures c.end == [] ==> First(c, buffer) == Some(Span(0, |c.start|))
    ensures var end := Find(buffer, c.end, |c.start|);
            First(c, buffer) == if end.None? then None else Some(Span(0, end.value + |c.end|))
  {
    hide Find;
    FoundAtOnce(buffer, c.start);
    EmptyPatternFound(buffer, |c.start|);
    assert buffer[0..] == buffer;
  }

  /** The loop splits what is in the buffer. */
  lemma {:induction false} LoopIsSplitting(c: Config, s: State)
    requires ValidConfig(c) && Sane(c, s) && Resumable(c, s)
    ensures var split := Packets(c, s.buffer);
            && Loop(c, s).messages == Kept(c, split.packets)
            && Ends(c, split.rest, Loop(c, s).state)
    decreases |s.buffer|, if s.collecting then 0 else 1, 1
  {
    hide Find, First, Kernel, Open;
    if !s.collecting {
      if c.start == [] {
        LoopIsSplitting(c, s.(collecting := true));
      } else {
        LoopInSync(c, s);
      }
    } else {
      LoopCollecting(c, s);
    }
  }

  lemma {:induction false} LoopInSync(c: Config, s: State)
    requires ValidConfig(c) && Sane(c, s) && !s.collecting && c.start != []
    ensures var split := Packets(c, s.buffer);
            && Loop(c, s).messages == Kept(c, split.packets)
            && Ends(c, split.rest, Loop(c, s).state)
    decreases |s.buffer|, 1, 0
  {
    hide Find;
    var start := Find(s.buffer, c.start, 0);
    if start.Some? {
      StartsThere(c, s.buffer);
      FindLaterIsSame(s.buffer, c.start);
      Drop(c, s.buffer, start.value);
      LoopIsSplitting(c, State(s.buffer[start.value..], true, |c.start|));
    }
  }

  lemma FindLaterIsSame(data: seq<Byte>, pattern: seq<Byte>)
    requires Find(data, pattern, 0).Some?
    ensures Find(data, pattern, Find(data, pattern, 0).value) == Find(data, pattern, 0)
  {
    hide Find;
    FindFirst(data, pattern, 0);
    FindLater(data, pattern, 0, Find(data, pattern, 0).value);
  }

  lemma {:induction false} LoopCollecting(c: Config, s: State)
    requires ValidConfig(c) && Sane(c, s) && Resumable(c, s) && s.collecting
    ensures var split := Packets(c, s.buffer);
            && Loop(c, s).messages == Kept(c, split.packets)
            && Ends(c, split.rest, Loop(c, s).state)
    decreases |s.buffer|, 0, 0
  {
    hide Find, First, Kernel, Open;
    FirstWhenCollecting(c, s.buffer);
    if First(c, s.buffer).Some? {
      var to := First(c, s.buffer).value.to;
      var next := State(s.buffer[to..], false, if c.end == [] then s.scanned else 0);
      var later := Packets(c, s.buffer[to..]);
      assert ([s.buffer[0..to]] + later.packets)[1..] == later.packets;
      assert s.buffer[0..to] == s.buffer[..to];
      LoopIsSplitting(c, next);
    }
  }

  lemma FirstFrom(c: Config, data: seq<Byte>, p: nat)
    requires p <= |data|
    ensures var start := Find(data, c.start, p);
            if start.None? then !Open(c, data[p..]) && First(c, data[p..]).None?
            else
              var end := Find(data, c.end, start.value + |c.start|);
              && Open(c, data[p..]) && Find(data[p..], c.start, 0).value == start.value - p
              && First(c, data[p..]) == if end.None? then None else Some(Span(start.value - p, end.value + |c.end| - p))
  {
    hide Find;
    FindInSuffix(data, c.start, p, 0);
    var start := Find(data, c.start, p);
    if start.Some? {
      FindInSuffix(data, c.end, p, start.value + |c.start| - p);
    }
  }

  lemma NothingInNothing(c: Config)
    requires ValidConfig(c)
    ensures Packets(c, []) == Split([], []) && Kernel(c, []) == []
  {
  }

  /** The zero-copy loop splits the data and leaves the kernel of the rest. */
  lemma {:induction false} FastIsSplitting(c: Config, data: seq<Byte>, p: nat)
    requires ValidConfig(c) && p <= |data|
    ensures var r, split := Fast(c, data, p), Packets(c, data[p..]);
            && r.messages == Kept(c, split.packets)
            && data[r.processed..] == Kernel(c, split.rest)
    decreases |data| - p
  {
    hide Find, First, Packets, Open;
    var rest := data[p..];
    FirstFrom(c, data, p);
    PacketsStep(c, rest);
    if p == |data| {
      NothingInNothing(c);
      assert rest == [];
    } else if First(c, rest).Some? {
      EmptyPatternFound(data, p + First(c, rest).value.from + |c.start|);
      FastPastPacket(c, data, p);
    } else {
      FastAtEnd(c, data, p);
    }
  }

  lemma FastAtEnd(c: Config, data: seq<Byte>, p: nat)
    requires ValidConfig(c) && p < |data| && First(c, data[p..]).None?
    ensures var r := Fast(c, data, p);
            r.messages == [] && data[r.processed..] == Kernel(c, data[p..])
  {
    hide Find, First;
    FirstFrom(c, data, p);
    var start := Find(data, c.start, p);
    if start.Some? {
      EmptyPatternFound(data, start.value + |c.start|);
      assert data[p..][start.value - p..] == data[start.value..];
    } else if |data| - p > Keep(c) {
      assert data[p..][|data| - p - Keep(c)..] == data[|data| - Keep(c)..];
    }
  }

  lemma {:induction false} FastPastPacket(c: Config, data: seq<Byte>, p: nat)
    requires ValidConfig(c) && p < |data| && First(c, data[p..]).Some?
    ensures var r, split := Fast(c, data, p), Packets(c, data[p..]);
            && r.messages == Kept(c, split.packets)
            && data[r.processed..] == Kernel(c, split.rest)
    decreases |data| - p, 0
  {
    hide Find, First, Packets, Kernel, Open;
    var rest := data[p..];
    FirstFrom(c, data, p);
    PacketsStep(c, rest);
    var Span(from, to) := First(c, rest).value;
    EmptyPatternFound(data, p + from + |c.start|);
    assert rest[from..to] == data[p + from..p + to];
    assert rest[to..] == data[p + to..];
    FastIsSplitting(c, data, p + to);
    var later := Packets(c, rest[to..]);
    assert ([rest[from..to]] + later.packets)[1..] == later.packets;
  }

  lemma StashEnds(c: Config, rest: seq<Byte>, s: State)
    requires ValidConfig(c) && s.buffer == [] && (if c.start == [] then s.scanned == 0 else !s.collecting)
    ensures Ends(c, rest, Stash(c, s, Kernel(c, rest)))
  {
    hide Find;
    if Open(c, rest) {
      StartsThere(c, rest);
    } else if c.start == [] {
      EmptyPatternFound(rest, 0);
    }
  }

  /** Only the kernel of what is held matters for what comes next. */
  lemma KernelSuffices(c: Config, rest: seq<Byte>, data: seq<Byte>)
    requires ValidConfig(c)
    ensures var all, cut := Packets(c, rest + data), Packets(c, Kernel(c, rest) + data);
            && all.packets == cut.packets
            && Kernel(c, all.rest) == Kernel(c, cut.rest)
            && Open(c, all.rest) == Open(c, cut.rest)
  {
    hide Find, First, Packets;
    var d := |rest| - |Kernel(c, rest)|;
    assert (rest + data)[d..] == Kernel(c, rest) + data;
    if Open(c, rest) {
      FindInPrefix(rest, data, c.start, 0);
      FindLaterIsSame(rest + data, c.start);
    } else if d > 0 {
      FindAcross(rest, data, c.start, 0, d);
    }
    Drop(c, rest + data, d);
  }

  lemma NoEndInKernel(c: Config, rest: seq<Byte>)
    requires Open(c, rest) && First(c, rest).None?
    ensures c.start <= Kernel(c, rest) && Find(Kernel(c, rest), c.end, |c.start|).None?
  {
    hide Find, First;
    StartsThere(c, rest);
    FindLaterIsSame(rest, c.start);
    FirstOfSuffix(c, rest, Find(rest, c.start, 0).value);
    FirstWhenCollecting(c, Kernel(c, rest));
  }

  /** Backing up by one less than the end pattern is enough. */
  lemma OffsetIsEarly(c: Config, s: State, data: seq<Byte>)
    requires c.end != [] && s.scanned <= |s.buffer| && |c.start| <= |s.buffer|
    requires Find(s.buffer, c.end, |c.start|).None?
    ensures Find(s.buffer + data, c.end, SearchOffset(c, s)) == Find(s.buffer + data, c.end, |c.start|)
  {
    hide Find;
    if SearchOffset(c, s) > |c.start| {
      FindAcross(s.buffer, data, c.end, |c.start|, SearchOffset(c, s));
    }
  }

  lemma ResumesWell(c: Config, rest: seq<Byte>, s: State, data: seq<Byte>)
    requires ValidConfig(c) && Follows(c, rest, s) && First(c, rest).None? && s.buffer != []
    ensures Sane(c, s.(buffer := s.buffer + data)) && Resumable(c, s.(buffer := s.buffer + data))
  {
    hide Find, First, Kernel, SearchOffset;
    FollowsIsSane(c, rest, s);
    if Open(c, rest) {
      NoEndInKernel(c, rest);
      if c.end != [] {
        OffsetIsEarly(c, s, data);
        assert SearchOffset(c, s.(buffer := s.buffer + data)) == SearchOffset(c, s) by {
          OffsetIgnoresBuffer(c, s, s.buffer + data);
        }
      }
    } else if c.start == [] {
      EmptyPatternFound(rest, 0);
    }
  }

  lemma OffsetIgnoresBuffer(c: Config, s: State, buffer: seq<Byte>)
    ensures SearchOffset(c, s.(buffer := buffer)) == SearchOffset(c, s)
  {
  }

  lemma PushStep(c: Config, rest: seq<Byte>, s: State, data: seq<Byte>)
    requires ValidConfig(c) && Follows(c, rest, s) && First(c, rest).None? && Sane(c, s)
    ensures var r, split := Push(c, s, data), Packets(c, rest + data);
            r.messages == Kept(c, split.packets) && Ends(c, split.rest, r.state)
  {
    hide Find, First, Packets, Fast, Loop, Stash;
    if data == [] {
      assert rest + data == rest;
      PacketsStep(c, rest);
    } else {
      KernelSuffices(c, rest, data);
      var split := Packets(c, s.buffer + data);
      if s.buffer == [] {
        assert s.buffer + data == data && data[0..] == data;
        FastIsSplitting(c, data, 0);
        EmptyKernel(c, rest, s);
        StashEnds(c, split.rest, s);
      } else {
        ResumesWell(c, rest, s, data);
        LoopIsSplitting(c, s.(buffer := s.buffer + data));
      }
    }
  }

  lemma EmptyKernel(c: Config, rest: seq<Byte>, s: State)
    requires Follows(c, rest, s) && s.buffer == []
    ensures if c.start == [] then s.scanned == 0 else !s.collecting
  {
    if Open(c, rest) {
      StartsThere(c, rest);
    }
  }

  // ------------------------------------------------------------------
  // Every cutting
  // ------------------------------------------------------------------

  /** The framer after `stream`, and whether every packet and the open one fit. */
  ghost predicate Tracks(c: Config, stream: seq<Byte>, s: State)
    requires ValidConfig(c)
  {
    Follows(c, Packets(c, stream).rest, s) && Sane(c, s)
  }

  predicate AllFit(c: Config, packets: seq<Message>) {
    forall i | 0 <= i < |packets| :: |packets[i]| <= c.max
  }

  /** The streams max_length does not touch; without an end pattern, all of them. */
  predicate Fits(c: Config, stream: seq<Byte>)
    requires ValidConfig(c)
  {
    c.end == [] || (AllFit(c, Packets(c, stream).packets) && !TooLong(c, Packets(c, stream).rest))
  }

  /** An open packet is never longer than what becomes of it. */
  lemma OpenGrows(c: Config, rest: seq<Byte>, data: seq<Byte>)
    requires ValidConfig(c) && First(c, rest).None? && TooLong(c, rest)
    ensures var split := Packets(c, rest + data);
            TooLong(c, split.rest) || !AllFit(c, split.packets)
  {
    hide Find, First, Packets;
    var all := rest + data;
    FindInPrefix(rest, data, c.start, 0);
    PacketsStep(c, all);
    if First(c, all).Some? {
      FirstOutgrows(c, rest, data);
      var packet := all[First(c, all).value.from..First(c, all).value.to];
      assert Packets(c, all).packets[0] == packet;
    }
  }

  lemma FirstOutgrows(c: Config, rest: seq<Byte>, data: seq<Byte>)
    requires First(c, rest).None? && Open(c, rest) && First(c, rest + data).Some?
    ensures First(c, rest + data).value.to > |rest|
    ensures First(c, rest + data).value.from == Find(rest, c.start, 0).value
  {
    hide Find;
    FindInPrefix(rest, data, c.start, 0);
    var body := Find(rest, c.start, 0).value + |c.start|;
    var end := Find(rest + data, c.end, body).value;
    FindFirst(rest, c.end, body);
    FindFirst(rest + data, c.end, body);
    if end + |c.end| <= |rest| {
      MatchInPrefix(rest, data, c.end, end);
    }
  }

  lemma NeverOpenWithoutEnd(c: Config, rest: seq<Byte>)
    requires c.end == [] && First(c, rest).None?
    ensures !Open(c, rest)
  {
    if Open(c, rest) {
      EmptyPatternFound(rest, Find(rest, c.start, 0).value + |c.start|);
    }
  }

  lemma FitsPrefix(c: Config, a: seq<Byte>, b: seq<Byte>)
    requires ValidConfig(c) && Fits(c, a + b)
    ensures Fits(c, a)
  {
    hide Packets, TooLong;
    PacketsInTwo(c, a, b);
    RestHasNone(c, a);
    var first := Packets(c, a);
    var second := Packets(c, first.rest + b);
    if c.end != [] {
      assert forall i | 0 <= i < |first.packets| :: first.packets[i] == (first.packets + second.packets)[i];
      assert forall i | 0 <= i < |second.packets| ::
          second.packets[i] == (first.packets + second.packets)[|first.packets| + i];
      if TooLong(c, first.rest) {
        OpenGrows(c, first.rest, b);
      }
    }
  }

  lemma {:induction false} KeptAll(c: Config, packets: seq<Message>)
    requires c.end == [] || AllFit(c, packets)
    ensures Kept(c, packets) == packets
  {
    if packets != [] {
      KeptAll(c, packets[1..]);
      assert packets == [packets[0]] + packets[1..];
    }
  }

  lemma StreamStep(c: Config, stream: seq<Byte>, s: State, data: seq<Byte>)
    requires ValidConfig(c) && Tracks(c, stream, s) && Fits(c, stream + data)
    ensures Tracks(c, stream + data, Push(c, s, data).state)
    ensures Packets(c, stream + data).packets == Packets(c, stream).packets + Push(c, s, data).messages
  {
    hide Packets, Push, Follows, TooLong;
    var rest := Packets(c, stream).rest;
    var split := Packets(c, rest + data);
    PacketsInTwo(c, stream, data);
    RestHasNone(c, stream);
    RestHasNone(c, rest + data);
    PushStep(c, rest, s, data);
    if c.end == [] {
      NeverOpenWithoutEnd(c, split.rest);
      NotTooLong(c, split.rest);
    } else {
      var first := Packets(c, stream).packets;
      assert forall i | 0 <= i < |split.packets| :: split.packets[i] == (first + split.packets)[|first| + i];
    }
    KeptAll(c, split.packets);
  }

  lemma NotTooLong(c: Config, rest: seq<Byte>)
    requires !Open(c, rest)
    ensures !TooLong(c, rest)
  {
  }

  lemma {:induction false} FeedStep(c: Config, stream: seq<Byte>, s: State, pieces: seq<seq<Byte>>)
    requires ValidConfig(c) && Tracks(c, stream, s) && Sane(c, s) && Fits(c, stream + Concat(pieces))
    ensures Tracks(c, stream + Concat(pieces), Feed(c, s, pieces).state)
    ensures Packets(c, stream + Concat(pieces)).packets == Packets(c, stream).packets + Feed(c, s, pieces).messages
    decreases |pieces|
  {
    hide Packets, Push, Tracks, Fits, Sane;
    if pieces == [] {
      assert stream + Concat(pieces) == stream;
    } else {
      assert (stream + pieces[0]) + Concat(pieces[1..]) == stream + Concat(pieces);
      FitsPrefix(c, stream + pieces[0], Concat(pieces[1..]));
      StreamStep(c, stream, s, pieces[0]);
      FeedStep(c, stream + pieces[0], Push(c, s, pieces[0]).state, pieces[1..]);
    }
  }

  /**
   Whole-stream splitting under every cutting: for streams whose packets and
   open packet fit max_length (every stream, without an end pattern), the framer
   delivers exactly the packets of the first-start/first-end rule and holds
   exactly the kernel of the rest.
   */
  lemma FramesWholeStream(c: Config, pieces: seq<seq<Byte>>)
    requires ValidConfig(c) && Fits(c, Concat(pieces))
    ensures Feed(c, EMPTY, pieces).messages == Packets(c, Concat(pieces)).packets
    ensures Follows(c, Packets(c, Concat(pieces)).rest, Feed(c, EMPTY, pieces).state)
  {
    hide Find, First, Packets, Push, Follows, Fits;
    NothingInNothing(c);
    FreshFollows(c);
    assert [] + Concat(pieces) == Concat(pieces);
    FeedStep(c, [], EMPTY, pieces);
    assert [] + Feed(c, EMPTY, pieces).messages == Feed(c, EMPTY, pieces).messages;
  }

  lemma FreshFollows(c: Config)
    requires ValidConfig(c)
    ensures Follows(c, [], EMPTY) && First(c, []).None?
  {
  }

  /** One push into an empty framer delivers exactly the packets that fit, on every input. */
  lemma OnePush(c: Config, data: seq<Byte>)
    requires ValidConfig(c)
    ensures Push(c, EMPTY, data).messages == Kept(c, Packets(c, data).packets)
  {
    FreshFollows(c);
    assert [] + data == data;
    PushStep(c, [], EMPTY, data);
  }

  // ------------------------------------------------------------------
  // The bound, on every input
  // ------------------------------------------------------------------

  /** At rest an open packet is within max_length and anything else is shorter than the start pattern. */
  predicate Bounded(c: Config, s: State) {
    |s.buffer| <= if s.collecting then c.max else Keep(c)
  }

  lemma {:induction false} LoopIsBounded(c: Config, s: State)
    requires ValidConfig(c) && Sane(c, s)
    ensures Bounded(c, Loop(c, s).state)
    decreases |s.buffer|, if s.collecting then 0 else 1
  {
    hide Find;
    if !s.collecting {
      if c.start == [] {
        LoopIsBounded(c, s.(collecting := true));
      } else if Find(s.buffer, c.start, 0).Some? {
        StartsThere(c, s.buffer);
        LoopIsBounded(c, State(s.buffer[Find(s.buffer, c.start, 0).value..], true, |c.start|));
      }
    } else if c.end == [] {
      LoopIsBounded(c, State(s.buffer[|c.start|..], false, s.scanned));
    } else {
      var end := Find(s.buffer, c.end, SearchOffset(c, s));
      if end.Some? {
        LoopIsBounded(c, State(s.buffer[end.value + |c.end|..], false, 0));
      }
    }
  }

  lemma FastIsBounded(c: Config, s: State, data: seq<Byte>)
    requires ValidConfig(c) && s.buffer == []
    ensures Bounded(c, Stash(c, s, data[Fast(c, data, 0).processed..]))
  {
    hide Find, Fast, Packets;
    assert data[0..] == data;
    FastIsSplitting(c, data, 0);
    var rest := Packets(c, data).rest;
    if Open(c, rest) {
      StartsThere(c, rest);
    }
  }

  lemma {:induction false} BufferIsBounded(c: Config, s: State, pieces: seq<seq<Byte>>)
    requires ValidConfig(c) && Sane(c, s) && Bounded(c, s)
    ensures Bounded(c, Feed(c, s, pieces).state)
    decreases |pieces|
  {
    hide Fast, Loop, Stash, Sane, Bounded;
    if pieces != [] {
      var next := Push(c, s, pieces[0]).state;
      assert Bounded(c, next) by {
        PushIsBounded(c, s, pieces[0]);
      }
      BufferIsBounded(c, next, pieces[1..]);
    }
  }

  lemma PushIsBounded(c: Config, s: State, data: seq<Byte>)
    requires ValidConfig(c) && Sane(c, s) && Bounded(c, s)
    ensures Bounded(c, Push(c, s, data).state)
  {
    hide Fast, Loop, Stash, Bounded;
    if data != [] {
      if s.buffer == [] {
        FastIsBounded(c, s, data);
      } else {
        LoopIsBounded(c, s.(buffer := s.buffer + data));
      }
    }
  }

  // ------------------------------------------------------------------
  // The framer
  // ------------------------------------------------------------------

  lemma FastStep(c: Config, data: seq<Byte>, p: nat)
    requires ValidConfig(c) && p < |data|
    ensures var r, start := Fast(c, data, p), Find(data, c.start, p);
            if start.None? then r == Scanned([], if |data| - p > Keep(c) then |data| - Keep(c) else p)
            else
              var body := start.value + |c.start|;
              var end := Find(data, c.end, body);
              if c.end == [] then
                var tail := Fast(c, data, body);
                r.processed == tail.processed && r.messages == [data[start.value..body]] + tail.messages
              else if end.None? then r == Scanned([], start.value)
              else
                var tail := Fast(c, data, end.value + |c.end|);
                && r.processed == tail.processed
                && r.messages == Allowed(c, data[start.value..end.value + |c.end|]) + tail.messages
  {
    hide Find;
  }

  lemma LoopStep(c: Config, s: State)
    requires ValidConfig(c) && Sane(c, s)
    ensures !s.collecting && c.start == [] ==> Loop(c, s) == Loop(c, s.(collecting := true))
    ensures !s.collecting && c.start != [] ==>
              var start := Find(s.buffer, c.start, 0);
              if start.None? then Loop(c, s) == Pushed(s.(buffer := Trim(c, s.buffer)), [])
              else
                var next := State(s.buffer[start.value..], true, |c.start|);
                Sane(c, next) && Loop(c, s) == Loop(c, next)
    ensures s.collecting && c.end == [] ==>
              var tail := Loop(c, State(s.buffer[|c.start|..], false, s.scanned));
              Loop(c, s) == Pushed(tail.state, [s.buffer[..|c.start|]] + tail.messages)
    ensures s.collecting && c.end != [] ==>
              var end := Find(s.buffer, c.end, SearchOffset(c, s));
              if end.None? then
                Loop(c, s) == Pushed(if |s.buffer| > c.max then EMPTY else s.(scanned := |s.buffer|), [])
              else
                var stop := end.value + |c.end|;
                var tail := Loop(c, State(s.buffer[stop..], false, 0));
                Loop(c, s) == Pushed(tail.state, Allowed(c, s.buffer[..stop]) + tail.messages)
  {
    hide Find, Trim, Allowed;
    if !s.collecting && c.start != [] && Find(s.buffer, c.start, 0).Some? {
      StartsThere(c, s.buffer);
    }
  }

  class Framer {
    const config: Config
    var buffer: seq<Byte>
    var collecting: bool
    var scanned: nat
    var capacity: nat

    ghost predicate Valid()
      reads this
    {
      ValidConfig(config) && Sane(config, View()) && |buffer| <= capacity
    }

    ghost function View(): State
      reads this
    {
      State(buffer, collecting, scanned)
    }

    /** The constructor throws when both patterns are empty. */
    constructor (c: Config)
      requires ValidConfig(c)
      ensures Valid() && View() == EMPTY && config == c && capacity == 0
    {
      config := c;
      buffer, collecting, scanned, capacity := [], false, 0, 0;
    }

    constructor Copy(other: Framer)
      requires other.Valid()
      ensures Valid() && config == other.config && View() == other.View() && capacity == |buffer|
    {
      config, capacity := other.config, |other.buffer|;
      buffer, collecting, scanned := other.buffer, other.collecting, other.scanned;
    }

    /** append_bytes. */
    method Append(data: seq<Byte>)
      requires |buffer| <= capacity
      modifies this`buffer, this`capacity
      ensures buffer == old(buffer) + data && |buffer| <= capacity
      ensures capacity == Enlarge(old(capacity), |buffer|)
    {
      buffer := buffer + data;
      capacity := Enlarge(capacity, |buffer|);
    }

    /** The zero-copy loop of push_bytes. */
    method FastPath(data: seq<Byte>) returns (out: seq<Message>, processed: nat)
      requires ValidConfig(config)
      ensures Scanned(out, processed) == Fast(config, data, 0)
    {
      hide Fast, Find;
      out, processed := [], 0;
      while processed < |data|
        invariant processed <= |data|
        invariant Fast(config, data, 0).messages == out + Fast(config, data, processed).messages
        invariant Fast(config, data, 0).processed == Fast(config, data, processed).processed
      {
        FastStep(config, data, processed);
        var start := Search(data, config.start, processed);
        if start.None? {
          var remaining := |data| - processed;
          var keep := if |config.start| > 1 then |config.start| - 1 else 0;
          if remaining > keep {
            processed := |data| - keep;
          }
          return;
        }
        var body := start.value + |config.start|;
        if config.end == [] {
          out := out + [data[start.value..body]];
          processed := body;
          continue;
        }
        var end := Search(data, config.end, body);
        if end.None? {
          processed := start.value;
          return;
        }
        var stop := end.value + |config.end|;
        if stop - start.value <= config.max {
          out := out + [data[start.value..stop]];
        }
        processed := stop;
      }
      FastDone(config, data);
    }

    /** The Sync/Collect loop of push_bytes. */
    method Run() returns (out: seq<Message>)
      requires Valid()
      modifies this`buffer, this`collecting, this`scanned
      ensures Valid()
      ensures Pushed(View(), out) == Loop(config, old(View()))
    {
      hide Loop, Find, SearchOffset;
      out := [];
      while true
        invariant Valid()
        invariant Loop(config, old(View())).messages == out + Loop(config, View()).messages
        invariant Loop(config, old(View())).state == Loop(config, View()).state
        decreases |buffer|, if collecting then 0 else 1
      {
        LoopStep(config, View());
        if !collecting {
          if config.start == [] {
            collecting := true;
            continue;
          }
          var start := Search(buffer, config.start, 0);
          if start.None? {
            KeepPartial();
            return;
          }
          buffer, collecting, scanned := buffer[start.value..], true, |config.start|;
        } else {
          if config.end == [] {
            out := out + [buffer[..|config.start|]];
            buffer, collecting := buffer[|config.start|..], false;
            continue;
          }
          var offset := Offset();
          if |buffer| < offset {
            assert false;  // should not happen if Sync worked correctly
          }
          var end := Search(buffer, config.end, offset);
          if end.None? {
            scanned := |buffer|;
            if |buffer| > config.max {
              buffer, collecting, scanned := [], false, 0;
            }
            return;
          }
          var stop := end.value + |config.end|;
          if stop <= config.max {
            out := out + [buffer[..stop]];
          }
          buffer, collecting, scanned := buffer[stop..], false, 0;
        }
      }
    }

    /** Keep what may be the beginning of a start pattern. */
    method KeepPartial()
      modifies this`buffer
      ensures buffer == Trim(config, old(buffer))
    {
      if |config.start| > 1 {
        var keep := |config.start| - 1;
        if |buffer| > keep {
          buffer := buffer[|buffer| - keep..];
        }
      } else {
        buffer := [];
      }
    }

    /** Where to search for the end pattern: behind the start, never skipping a split end pattern. */
    method Offset() returns (offset: nat)
      requires Valid() && collecting
      ensures offset == SearchOffset(config, View()) <= |buffer|
    {
      offset := if scanned > |config.start| then scanned else |config.start|;
      if offset > |config.start| {
        var overlap := if |config.end| > 1 then |config.end| - 1 else 0;
        offset := if offset >= overlap then offset - overlap else 0;
      }
      if offset < |config.start| {
        offset := |config.start|;
      }
    }

    method PushBytes(data: seq<Byte>) returns (out: seq<Message>)
      requires Valid()
      modifies this
      ensures Valid()
      ensures Pushed(View(), out) == Push(config, old(View()), data)
      ensures old(|buffer|) + |data| <= old(capacity) ==> capacity == old(capacity)
    {
      hide Fast, Loop;
      out := [];
      if data == [] { return; }
      if buffer == [] {
        var processed;
        out, processed := FastPath(data);
        if processed < |data| {
          Append(data[processed..]);
          if !collecting && config.start <= buffer {
            collecting, scanned := true, |config.start|;
          }
          if collecting && |buffer| > config.max {
            buffer, collecting, scanned := [], false, 0;
          }
        }
        return;
      }
      Append(data);
      out := Run();
    }

    method Reset()
      requires Valid()
      modifies this
      ensures Valid() && View() == EMPTY && capacity == old(capacity)
    {
      buffer, collecting, scanned := [], false, 0;
    }
  }

  lemma FastDone(c: Config, data: seq<Byte>)
    requires ValidConfig(c)
    ensures Fast(c, data, |data|) == Scanned([], |data|)
  {
  }
}
