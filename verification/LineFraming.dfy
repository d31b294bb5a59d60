/**
 LineFramer (wirestead/framer/line_framer.cc): messages ended by a delimiter,
 with a zero-copy path, a resume index and a discard mode for oversized lines.
 */
module LineFraming {
  import opened Options
  import opened Octets

  /** delimiter_, include_delimiter_ and max_length_. */
  datatype Config = Config(delimiter: seq<Byte>, inclusive: bool, max: nat)

  /** The constructor replaces an empty delimiter by a newline. */
  function Configure(delimiter: seq<Byte>, inclusive: bool, max: nat): (c: Config)
    ensures ValidConfig(c)
  {
    Config(if delimiter == [] then [10] else delimiter, inclusive, max)
  }

  predicate ValidConfig(c: Config) {
    c.delimiter != []
  }

  datatype State = State(buffer: seq<Byte>, scanned: nat, discarding: bool)

  const EMPTY := State([], 0, false)

  /** max_partial_length: content plus the leading bytes of a split delimiter. */
  function MaxPartial(c: Config): nat
    requires ValidConfig(c)
  {
    c.max + |c.delimiter| - 1
  }

  function Payload(c: Config, content: Message): Message {
    if c.inclusive then content + c.delimiter else content
  }

  // ------------------------------------------------------------------
  // What the code does
  // ------------------------------------------------------------------

  /** Messages delivered so far and how much of the data is done with. */
  datatype Scanned = Scanned(messages: seq<Message>, processed: nat)

  /** scan_and_process, from a search position at or behind the end of the last line. */
  function Scan(c: Config, data: seq<Byte>, processed: nat, cursor: nat): (r: Scanned)
    requires ValidConfig(c) && processed <= cursor <= |data|
    ensures processed <= r.processed <= |data|
    decreases |data| - cursor
  {
    var found := Find(data, c.delimiter, cursor);
    if found.None? then Scanned([], processed)
    else
      var i := found.value;
      var end := i + |c.delimiter|;
      var tail := Scan(c, data, end, end);
      var kept := if i - processed <= c.max then [Payload(c, data[processed..i])] else [];
      Scanned(kept + tail.messages, tail.processed)
  }

  datatype Pushed = Pushed(state: State, messages: seq<Message>)

  /** Keep an unfinished line, or give it up when it is already too long. */
  function Retain(c: Config, rest: seq<Byte>): State
    requires ValidConfig(c)
  {
    if |rest| > MaxPartial(c) then State([], 0, true) else State(rest, |rest|, false)
  }

  /** Where the slow path resumes searching. */
  function Resume(c: Config, scanned: nat): nat {
    if scanned >= |c.delimiter| then scanned - (|c.delimiter| - 1) else 0
  }

  /** push_bytes_internal once the framer is not discarding. */
  function Absorb(c: Config, s: State, data: seq<Byte>): (r: Pushed)
    requires ValidConfig(c) && s.scanned <= |s.buffer|
    ensures r.state.scanned <= |r.state.buffer|
  {
    if data == [] then Pushed(s.(discarding := false), [])
    else if s.buffer == [] then
      var r := Scan(c, data, 0, 0);
      Pushed(Retain(c, data[r.processed..]), r.messages)
    else
      var all := s.buffer + data;
      var r := Scan(c, all, 0, Resume(c, s.scanned));
      Pushed(Retain(c, all[r.processed..]), r.messages)
  }

  /** push_bytes_internal. */
  function PushChunk(c: Config, s: State, data: seq<Byte>): (r: Pushed)
    requires ValidConfig(c) && s.scanned <= |s.buffer|
    ensures r.state.scanned <= |r.state.buffer|
  {
    if data == [] then Pushed(s, [])
    else if s.discarding then
      var found := Find(data, c.delimiter, 0);
      if found.None? then Pushed(s, []) else Absorb(c, s, data[found.value + |c.delimiter|..])
    else Absorb(c, s, data)
  }

  function ChunkLimit(c: Config): nat {
    if c.max < 4096 then 4096 else c.max
  }

  /** push_bytes: the data in chunks. */
  function Push(c: Config, s: State, data: seq<Byte>): (r: Pushed)
    requires ValidConfig(c) && s.scanned <= |s.buffer|
    ensures r.state.scanned <= |r.state.buffer|
    decreases |data|
  {
    if data == [] then Pushed(s, [])
    else
      var n := if |data| < ChunkLimit(c) then |data| else ChunkLimit(c);
      var first := PushChunk(c, s, data[..n]);
      var later := Push(c, first.state, data[n..]);
      Pushed(later.state, first.messages + later.messages)
  }

  function Feed(c: Config, s: State, pieces: seq<seq<Byte>>): Pushed
    requires ValidConfig(c) && s.scanned <= |s.buffer|
    decreases |pieces|
  {
    if pieces == [] then Pushed(s, [])
    else
      var first := Push(c, s, pieces[0]);
      var later := Feed(c, first.state, pieces[1..]);
      Pushed(later.state, first.messages + later.messages)
  }

  lemma ScanStep(c: Config, data: seq<Byte>, processed: nat, cursor: nat)
    requires ValidConfig(c) && processed <= cursor <= |data|
    ensures var found, r := Find(data, c.delimiter, cursor), Scan(c, data, processed, cursor);
            if found.None? then r == Scanned([], processed)
            else
              var end := found.value + |c.delimiter|;
              var tail := Scan(c, data, end, end);
              && r.processed == tail.processed
              && r.messages
                 == (if found.value - processed <= c.max then [Payload(c, data[processed..found.value])] else [])
                    + tail.messages
  {
    hide Find, Payload;
  }

  // ------------------------------------------------------------------
  // What it should do: split the whole stream
  // ------------------------------------------------------------------

  /** Contents of the complete lines, and the unfinished tail. */
  datatype Split = Split(lines: seq<Message>, tail: seq<Byte>)

  function Lines(c: Config, stream: seq<Byte>): Split
    requires ValidConfig(c)
    decreases |stream|
  {
    var found := Find(stream, c.delimiter, 0);
    if found.None? then Split([], stream)
    else
      var rest := Lines(c, stream[found.value + |c.delimiter|..]);
      Split([stream[..found.value]] + rest.lines, rest.tail)
  }

  lemma LinesStep(c: Config, stream: seq<Byte>)
    requires ValidConfig(c)
    ensures var found := Find(stream, c.delimiter, 0);
            if found.None? then Lines(c, stream) == Split([], stream)
            else
              var rest := Lines(c, stream[found.value + |c.delimiter|..]);
              Lines(c, stream) == Split([stream[..found.value]] + rest.lines, rest.tail)
  {
    hide Find;
  }

  /** The messages of the lines that are not too long. */
  function Kept(c: Config, lines: seq<Message>): seq<Message> {
    if lines == [] then []
    else (if |lines[0]| <= c.max then [Payload(c, lines[0])] else []) + Kept(c, lines[1..])
  }

  lemma {:induction false} KeptConcat(c: Config, a: seq<Message>, b: seq<Message>)
    ensures Kept(c, a + b) == Kept(c, a) + Kept(c, b)
  {
    if a == [] {
      assert a + b == b;
    } else {
      assert (a + b)[1..] == a[1..] + b;
      KeptConcat(c, a[1..], b);
    }
  }

  /** Splitting may stop and continue from the tail. */
  lemma {:induction false} LinesInTwo(c: Config, a: seq<Byte>, b: seq<Byte>)
    requires ValidConfig(c)
    ensures var first := Lines(c, a);
            var second := Lines(c, first.tail + b);
            Lines(c, a + b) == Split(first.lines + second.lines, second.tail)
    decreases |a|
  {
    hide Find;
    var found := Find(a, c.delimiter, 0);
    FindInPrefix(a, b, c.delimiter, 0);
    if found.Some? {
      var end := found.value + |c.delimiter|;
      assert (a + b)[end..] == a[end..] + b;
      assert (a + b)[..found.value] == a[..found.value];
      LinesInTwo(c, a[end..], b);
      var first := Lines(c, a[end..]);
      var second := Lines(c, first.tail + b);
      assert [a[..found.value]] + (first.lines + second.lines) == ([a[..found.value]] + first.lines) + second.lines;
    } else {
      assert [] + Lines(c, a + b).lines == Lines(c, a + b).lines;
    }
  }

  lemma {:induction false} TailHasNoDelimiter(c: Config, stream: seq<Byte>)
    requires ValidConfig(c)
    ensures Find(Lines(c, stream).tail, c.delimiter, 0).None?
    decreases |stream|
  {
    var found := Find(stream, c.delimiter, 0);
    if found.Some? {
      TailHasNoDelimiter(c, stream[found.value + |c.delimiter|..]);
    }
  }

  /** Scanning from a resume point is splitting, as long as no delimiter was skipped. */
  lemma {:induction false} ScanIsSplitting(c: Config, data: seq<Byte>, processed: nat, cursor: nat)
    requires ValidConfig(c) && processed <= cursor <= |data|
    requires Find(data, c.delimiter, cursor) == Find(data, c.delimiter, processed)
    ensures var r, split := Scan(c, data, processed, cursor), Lines(c, data[processed..]);
            r.messages == Kept(c, split.lines) && data[r.processed..] == split.tail
    decreases |data| - cursor
  {
    hide Find, Payload, Lines, Scan, Kept;
    FindInSuffix(data, c.delimiter, processed, 0);
    ScanStep(c, data, processed, cursor);
    LinesStep(c, data[processed..]);
    var found := Find(data, c.delimiter, cursor);
    if found.Some? {
      var i := found.value;
      var end := i + |c.delimiter|;
      ScanIsSplitting(c, data, end, end);
      assert data[processed..][i - processed + |c.delimiter|..] == data[end..];
      assert data[processed..][..i - processed] == data[processed..i];
      KeptCons(c, data[processed..i], Lines(c, data[end..]).lines);
    } else {
      NoneKept(c);
    }
  }

  lemma KeptCons(c: Config, line: Message, lines: seq<Message>)
    ensures Kept(c, [line] + lines) == (if |line| <= c.max then [Payload(c, line)] else []) + Kept(c, lines)
  {
    assert ([line] + lines)[1..] == lines;
  }

  lemma NoneKept(c: Config)
    ensures Kept(c, []) == []
  {
  }

  // ------------------------------------------------------------------
  // The framer follows the splitting
  // ------------------------------------------------------------------

  /** The framer holds the stream's unfinished line, or is discarding it because it is too long. */
  predicate Follows(c: Config, stream: seq<Byte>, s: State)
    requires ValidConfig(c)
  {
    var tail := Lines(c, stream).tail;
    if s.discarding then s.buffer == [] && s.scanned == 0 && |tail| > MaxPartial(c)
    else s.buffer == tail && s.scanned == |tail| && |tail| <= MaxPartial(c)
  }

  predicate AllFit(c: Config, lines: seq<Message>) {
    forall i | 0 <= i < |lines| :: |lines[i]| <= c.max
  }

  /** The streams on which the framer is exact: all of them for a one-byte delimiter. */
  predicate Exact(c: Config, stream: seq<Byte>)
    requires ValidConfig(c)
  {
    |c.delimiter| == 1 || AllFit(c, Lines(c, stream).lines)
  }

  lemma ExactPrefix(c: Config, a: seq<Byte>, b: seq<Byte>)
    requires ValidConfig(c) && Exact(c, a + b)
    ensures Exact(c, a)
  {
    LinesInTwo(c, a, b);
    var first, all := Lines(c, a), Lines(c, a + b);
    assert forall i | 0 <= i < |first.lines| :: first.lines[i] == all.lines[i];
  }

  /** From an unfinished line, new bytes are split together with it. */
  lemma AbsorbStep(c: Config, tail: seq<Byte>, s: State, data: seq<Byte>)
    requires ValidConfig(c) && s.buffer == tail && s.scanned == |tail| <= MaxPartial(c)
             && Find(tail, c.delimiter, 0).None?
    ensures var split := Lines(c, tail + data);
            Absorb(c, s, data) == Pushed(Retain(c, split.tail), Kept(c, split.lines))
  {
    hide Find, Scan;
    if data == [] {
      assert tail + data == tail;
    } else if tail == [] {
      assert tail + data == data && data[0..] == data;
      ScanIsSplitting(c, data, 0, 0);
    } else {
      var all := tail + data;
      assert all[0..] == all;
      if |tail| >= |c.delimiter| {
        FindAcross(tail, data, c.delimiter, 0, Resume(c, |tail|));
      }
      ScanIsSplitting(c, all, 0, Resume(c, |tail|));
    }
  }

  /** A delimiter that completes a line longer than MaxPartial completes an oversized line. */
  lemma LateDelimiter(c: Config, tail: seq<Byte>, data: seq<Byte>)
    requires ValidConfig(c) && Find(tail, c.delimiter, 0).None? && |tail| > MaxPartial(c)
    requires Find(tail + data, c.delimiter, 0).Some?
    ensures Find(tail + data, c.delimiter, 0).value > c.max
  {
    var i := Find(tail + data, c.delimiter, 0).value;
    FindFirst(tail + data, c.delimiter, 0);
    FindFirst(tail, c.delimiter, 0);
    if i + |c.delimiter| <= |tail| {
      MatchInPrefix(tail, data, c.delimiter, i);
    }
  }

  /** With a one-byte delimiter nothing can straddle: searching the new bytes is enough. */
  lemma OneByteSearch(c: Config, tail: seq<Byte>, data: seq<Byte>)
    requires |c.delimiter| == 1 && Find(tail, c.delimiter, 0).None?
    ensures var all, new_ := Find(tail + data, c.delimiter, 0), Find(data, c.delimiter, 0);
            all.Some? == new_.Some? && (all.Some? ==> all.value == |tail| + new_.value)
  {
    FindAcross(tail, data, c.delimiter, 0, |tail|);
    assert (tail + data)[|tail|..] == data;
    FindInSuffix(tail + data, c.delimiter, |tail|, 0);
  }

  /** While discarding, the framer ends up where splitting the whole line together with the new bytes would. */
  lemma DiscardStep(c: Config, tail: seq<Byte>, s: State, data: seq<Byte>)
    requires ValidConfig(c) && s == State([], 0, true) && Find(tail, c.delimiter, 0).None? && |tail| > MaxPartial(c)
    requires data != [] && (|c.delimiter| == 1 || AllFit(c, Lines(c, tail + data).lines))
    ensures var split := Lines(c, tail + data);
            PushChunk(c, s, data) == Pushed(Retain(c, split.tail), Kept(c, split.lines))
  {
    hide Find, Absorb;
    var all, here := Find(tail + data, c.delimiter, 0), Find(data, c.delimiter, 0);
    if all.Some? {
      LateDelimiter(c, tail, data);
      var line := (tail + data)[..all.value];
      assert Lines(c, tail + data).lines[0] == line && |line| > c.max;
      OneByteSearch(c, tail, data);
      var rest := data[here.value + 1..];
      assert (tail + data)[all.value + 1..] == rest;
      EmptyHasNone(c.delimiter);
      assert [] + rest == rest;
      AbsorbStep(c, [], s, rest);
      var lines := Lines(c, rest).lines;
      assert ([line] + lines)[1..] == lines && [] + Kept(c, lines) == Kept(c, lines);
    } else {
      NoneInSuffix(c, tail, data);
    }
  }

  lemma EmptyHasNone(pattern: seq<Byte>)
    requires pattern != []
    ensures Find([], pattern, 0).None?
  {
  }

  lemma NoneInSuffix(c: Config, tail: seq<Byte>, data: seq<Byte>)
    requires Find(tail + data, c.delimiter, 0).None?
    ensures Find(data, c.delimiter, 0).None?
  {
    FindFirst(tail + data, c.delimiter, 0);
    FindFirst(tail + data, c.delimiter, |tail|);
    assert (tail + data)[|tail|..] == data;
    FindInSuffix(tail + data, c.delimiter, |tail|, 0);
  }

  lemma ChunkStep(c: Config, stream: seq<Byte>, s: State, data: seq<Byte>)
    requires ValidConfig(c) && Follows(c, stream, s) && Exact(c, stream + data)
    ensures var r := PushChunk(c, s, data);
            && Follows(c, stream + data, r.state)
            && Kept(c, Lines(c, stream + data).lines) == Kept(c, Lines(c, stream).lines) + r.messages
  {
    hide Find, Absorb, Scan;
    var tail := Lines(c, stream).tail;
    LinesInTwo(c, stream, data);
    TailHasNoDelimiter(c, stream);
    if data == [] {
      assert stream + data == stream;
    } else {
      var split := Lines(c, tail + data);
      KeptConcat(c, Lines(c, stream).lines, split.lines);
      if s.discarding {
        LastLinesFit(c, Lines(c, stream).lines, split.lines);
        DiscardStep(c, tail, s, data);
      } else {
        AbsorbStep(c, tail, s, data);
      }
    }
  }

  lemma LastLinesFit(c: Config, a: seq<Message>, b: seq<Message>)
    ensures AllFit(c, a + b) ==> AllFit(c, b)
  {
    assert forall i | 0 <= i < |b| :: b[i] == (a + b)[|a| + i];
  }

  lemma {:induction false} PushStep(c: Config, stream: seq<Byte>, s: State, data: seq<Byte>)
    requires ValidConfig(c) && Follows(c, stream, s) && Exact(c, stream + data)
    ensures var r := Push(c, s, data);
            && Follows(c, stream + data, r.state)
            && Kept(c, Lines(c, stream + data).lines) == Kept(c, Lines(c, stream).lines) + r.messages
    decreases |data|
  {
    hide PushChunk, Lines, Kept, Exact, Follows;
    if data == [] {
      assert stream + data == stream;
    } else {
      var n := if |data| < ChunkLimit(c) then |data| else ChunkLimit(c);
      assert (stream + data[..n]) + data[n..] == stream + data;
      ExactPrefix(c, stream + data[..n], data[n..]);
      FollowsMeans(c, stream, s);
      ChunkStep(c, stream, s, data[..n]);
      PushStep(c, stream + data[..n], PushChunk(c, s, data[..n]).state, data[n..]);
    }
  }

  lemma FollowsMeans(c: Config, stream: seq<Byte>, s: State)
    requires ValidConfig(c) && Follows(c, stream, s)
    ensures s.scanned <= |s.buffer|
  {
  }

  lemma {:induction false} FeedStep(c: Config, stream: seq<Byte>, s: State, pieces: seq<seq<Byte>>)
    requires ValidConfig(c) && Follows(c, stream, s) && Exact(c, stream + Concat(pieces))
    ensures var r := Feed(c, s, pieces);
            && Follows(c, stream + Concat(pieces), r.state)
            && Kept(c, Lines(c, stream + Concat(pieces)).lines) == Kept(c, Lines(c, stream).lines) + r.messages
    decreases |pieces|
  {
    hide Push, Lines, Kept, Exact, Follows;
    FollowsMeans(c, stream, s);
    if pieces == [] {
      assert stream + Concat(pieces) == stream;
    } else {
      assert (stream + pieces[0]) + Concat(pieces[1..]) == stream + Concat(pieces);
      ExactPrefix(c, stream + pieces[0], Concat(pieces[1..]));
      PushStep(c, stream, s, pieces[0]);
      FeedStep(c, stream + pieces[0], Push(c, s, pieces[0]).state, pieces[1..]);
    }
  }

  /**
   Whole-stream splitting under every cutting: with a one-byte delimiter for
   every stream, and with any delimiter when every complete line fits, the
   framer delivers exactly the lines of content at most max_length, and holds
   exactly the unfinished line (or is discarding it, when it is too long).
   */
  lemma FramesWholeStream(c: Config, pieces: seq<seq<Byte>>)
    requires ValidConfig(c) && Exact(c, Concat(pieces))
    ensures Feed(c, EMPTY, pieces).messages == Kept(c, Lines(c, Concat(pieces)).lines)
    ensures Follows(c, Concat(pieces), Feed(c, EMPTY, pieces).state)
  {
    hide Lines, Exact, Push;
    assert [] + Concat(pieces) == Concat(pieces);
    NothingYet(c);
    FeedStep(c, [], EMPTY, pieces);
    assert [] + Feed(c, EMPTY, pieces).messages == Feed(c, EMPTY, pieces).messages;
  }

  lemma NothingYet(c: Config)
    requires ValidConfig(c)
    ensures Lines(c, []) == Split([], []) && Follows(c, [], EMPTY) && Kept(c, []) == []
  {
  }

  // ------------------------------------------------------------------
  // The bound, on every input
  // ------------------------------------------------------------------

  /** Held bytes after any pushes whatever: at most max_length plus a split delimiter. */
  lemma {:induction false} BufferIsBounded(c: Config, s: State, pieces: seq<seq<Byte>>)
    requires ValidConfig(c) && s.scanned <= |s.buffer| <= MaxPartial(c)
    ensures |Feed(c, s, pieces).state.buffer| <= MaxPartial(c)
    decreases |pieces|
  {
    if pieces != [] {
      PushIsBounded(c, s, pieces[0]);
      BufferIsBounded(c, Push(c, s, pieces[0]).state, pieces[1..]);
    }
  }

  lemma {:induction false} PushIsBounded(c: Config, s: State, data: seq<Byte>)
    requires ValidConfig(c) && s.scanned <= |s.buffer| <= MaxPartial(c)
    ensures |Push(c, s, data).state.buffer| <= MaxPartial(c)
    decreases |data|
  {
    hide Find, Scan;
    if data != [] {
      var n := if |data| < ChunkLimit(c) then |data| else ChunkLimit(c);
      PushIsBounded(c, PushChunk(c, s, data[..n]).state, data[n..]);
    }
  }

  // ------------------------------------------------------------------
  // Exact for every stream: one-byte delimiters only
  // ------------------------------------------------------------------

  /** An oversized line of a byte the delimiter does not begin with. */
  function Filler(c: Config): seq<Byte>
    requires ValidConfig(c)
  {
    seq(MaxPartial(c) + 1, _ => if c.delimiter[0] == 0 then 1 else 0)
  }

  lemma FillerDoesNotMatch(c: Config, more: seq<Byte>, i: nat)
    requires ValidConfig(c) && i < |Filler(c)|
    ensures !MatchAt(Filler(c) + more, c.delimiter, i)
  {
    var all := Filler(c) + more;
    assert i + |c.delimiter| <= |all| ==> all[i..i + |c.delimiter|][0] == all[i];
  }

  lemma FillerHasNone(c: Config, more: seq<Byte>)
    requires ValidConfig(c)
    ensures |more| < |c.delimiter| ==> Find(Filler(c) + more, c.delimiter, 0).None?
    ensures c.delimiter <= more ==> Find(Filler(c) + more, c.delimiter, 0) == Some(|Filler(c)|)
  {
    hide Filler;
    var n, all := |Filler(c)|, Filler(c) + more;
    forall i | 0 <= i < n ensures !MatchAt(all, c.delimiter, i) {
      FillerDoesNotMatch(c, more, i);
    }
    FindLater(all, c.delimiter, 0, n);
    if c.delimiter <= more {
      assert all[n..n + |c.delimiter|] == c.delimiter;
    }
  }

  /** While discarding, no more bytes than one delimiter deliver nothing. */
  lemma {:induction false} DiscardingIsSilent(c: Config, s: State, data: seq<Byte>)
    requires ValidConfig(c) && s.buffer == [] && s.scanned == 0 && |data| <= |c.delimiter|
    requires s.discarding || data == []
    ensures Push(c, s, data).messages == []
    ensures |data| < |c.delimiter| ==> Push(c, s, data).state == s
    decreases |data|
  {
    if data != [] {
      var n := if |data| < ChunkLimit(c) then |data| else ChunkLimit(c);
      var first := PushChunk(c, s, data[..n]);
      DiscardingIsSilent(c, first.state, data[n..]);
    }
  }

  /**
   A longer delimiter split between two pushes while discarding is missed, so
   the line after an oversized one is lost too.
   */
  lemma SplitDelimiterLosesALine(c: Config) returns (pieces: seq<seq<Byte>>)
    requires ValidConfig(c) && |c.delimiter| > 1
    ensures Feed(c, EMPTY, pieces).messages == []
    ensures Kept(c, Lines(c, Concat(pieces)).lines) == [Payload(c, [])]
  {
    hide Filler, Find, Lines, Push, Kept;
    var d := c.delimiter;
    var head, last := Filler(c) + d[..|d| - 1], d[|d| - 1..];
    pieces := [head, last, d];
    LostLineDelivered(c, head, last);
    LostLineSpecified(c);
    ConcatOfThree(head, last, d);
    assert d[..|d| - 1] + d[|d| - 1..] == d;
    assert head + last + d == Filler(c) + d + d;
  }

  lemma ConcatOfThree(x: seq<Byte>, y: seq<Byte>, z: seq<Byte>)
    ensures Concat([x, y, z]) == x + y + z
  {
    assert [x, y, z][1..] == [y, z] && [y, z][1..] == [z];
    assert Concat([z]) == z;
  }

  lemma LostLineDelivered(c: Config, head: seq<Byte>, last: seq<Byte>)
    requires ValidConfig(c) && |c.delimiter| > 1
    requires head == Filler(c) + c.delimiter[..|c.delimiter| - 1] && |last| == 1
    ensures Feed(c, EMPTY, [head, last, c.delimiter]).messages == []
  {
    hide Push, Find;
    FillerHasNone(c, c.delimiter[..|c.delimiter| - 1]);
    NothingYet(c);
    assert [] + head == head;
    PushStep(c, [], EMPTY, head);
    var s := Push(c, EMPTY, head).state;
    assert s == State([], 0, true) && Push(c, EMPTY, head).messages == [];
    DiscardingIsSilent(c, s, last);
    DiscardingIsSilent(c, s, c.delimiter);
    var pieces := [head, last, c.delimiter];
    assert pieces[1..] == [last, c.delimiter] && [last, c.delimiter][1..] == [c.delimiter];
    assert Feed(c, s, [c.delimiter]).messages == [];
    assert Feed(c, s, [last, c.delimiter]).messages == [];
  }

  lemma LostLineSpecified(c: Config)
    requires ValidConfig(c)
    ensures Kept(c, Lines(c, Filler(c) + c.delimiter + c.delimiter).lines) == [Payload(c, [])]
  {
    hide Find;
    var d, n := c.delimiter, |Filler(c)|;
    var stream := Filler(c) + d + d;
    assert stream == Filler(c) + (d + d);
    FillerHasNone(c, d + d);
    assert stream[n + |d|..] == d;
    FindFirst(d, d, 0);
    assert d[0..0 + |d|] == d && MatchAt(d, d, 0);
    assert d[|d|..] == [];
    EmptyHasNone(d);
    var rest := Lines(c, d);
    assert rest.lines == [d[..0]] + Lines(c, []).lines && d[..0] == [];
    assert Lines(c, stream).lines == [stream[..n]] + rest.lines;
    assert Lines(c, stream).lines[1..] == rest.lines && rest.lines[1..] == [];
    assert Kept(c, rest.lines) == [Payload(c, [])];
  }

  /** The framer equals whole-stream splitting for every stream and cutting exactly when the delimiter is one byte. */
  lemma ExactForEveryStream(c: Config)
    requires ValidConfig(c)
    ensures (forall pieces :: Feed(c, EMPTY, pieces).messages == Kept(c, Lines(c, Concat(pieces)).lines))
            <==> |c.delimiter| == 1
  {
    if |c.delimiter| == 1 {
      forall pieces ensures Feed(c, EMPTY, pieces).messages == Kept(c, Lines(c, Concat(pieces)).lines) {
        FramesWholeStream(c, pieces);
      }
    } else {
      var pieces := SplitDelimiterLosesALine(c);
      assert Feed(c, EMPTY, pieces).messages != Kept(c, Lines(c, Concat(pieces)).lines);
    }
  }

  // ------------------------------------------------------------------
  // The framer
  // ------------------------------------------------------------------

  /** The delivered span is the content, with the delimiter if it is included. */
  lemma FoundPayload(c: Config, data: seq<Byte>, processed: nat, cursor: nat)
    requires processed <= cursor && Find(data, c.delimiter, cursor).Some?
    ensures var i := Find(data, c.delimiter, cursor).value;
            && data[processed..i + if c.inclusive then |c.delimiter| else 0] == Payload(c, data[processed..i])
  {
    hide Find;
    FindFirst(data, c.delimiter, cursor);
    var i := Find(data, c.delimiter, cursor).value;
    var end := i + |c.delimiter|;
    assert data[processed..end] == data[processed..i] + data[i..end];
  }

  lemma AbsorbIgnoresMode(c: Config, s: State, data: seq<Byte>)
    requires ValidConfig(c) && s.scanned <= |s.buffer|
    ensures Absorb(c, s, data) == Absorb(c, s.(discarding := false), data)
    ensures Absorb(c, s, []) == Pushed(s.(discarding := false), [])
  {
  }

  lemma PushAhead(c: Config, s: State, data: seq<Byte>, offset: nat, n: nat)
    requires ValidConfig(c) && s.scanned <= |s.buffer| && offset < |data|
    requires n == if |data| - offset < ChunkLimit(c) then |data| - offset else ChunkLimit(c)
    ensures var all, first := Push(c, s, data[offset..]), PushChunk(c, s, data[offset..offset + n]);
            var later := Push(c, first.state, data[offset + n..]);
            all.state == later.state && all.messages == first.messages + later.messages
  {
    hide PushChunk;
    assert data[offset..][..n] == data[offset..offset + n] && data[offset..][n..] == data[offset + n..];
  }

  lemma PushNothing(c: Config, s: State)
    requires ValidConfig(c) && s.scanned <= |s.buffer|
    ensures Push(c, s, []) == Pushed(s, [])
  {
  }

  class Framer {
    const config: Config
    var buffer: seq<Byte>
    var scanned: nat
    var discarding: bool
    var capacity: nat

    ghost predicate Valid()
      reads this
    {
      ValidConfig(config) && scanned <= |buffer| <= capacity
    }

    ghost function View(): State
      reads this
    {
      State(buffer, scanned, discarding)
    }

    constructor (delimiter: seq<Byte>, inclusive: bool, max: nat)
      ensures Valid() && View() == EMPTY && capacity == 0 && config == Configure(delimiter, inclusive, max)
    {
      config := Configure(delimiter, inclusive, max);
      buffer, scanned, discarding, capacity := [], 0, false, 0;
    }

    constructor Copy(other: Framer)
      requires other.Valid()
      ensures Valid() && config == other.config && View() == other.View() && capacity == |buffer|
    {
      config, capacity := other.config, |other.buffer|;
      buffer, scanned, discarding := other.buffer, other.scanned, other.discarding;
    }

    /** skip_until_delimiter: where the data resumes behind the first delimiter. */
    method SkipUntilDelimiter(data: seq<Byte>) returns (r: Option<nat>)
      requires Valid()
      ensures r.Some? == Find(data, config.delimiter, 0).Some?
      ensures r.Some? ==> r.value == Find(data, config.delimiter, 0).value + |config.delimiter| <= |data|
    {
      var found := Search(data, config.delimiter, 0);
      r := if found.None? then None else Some(found.value + |config.delimiter|);
    }

    /** scan_and_process: deliver the lines found from `start` on; how much of the data is done with. */
    method ScanAndProcess(data: seq<Byte>, start: nat) returns (out: seq<Message>, processed: nat)
      requires Valid() && start <= |data|
      ensures Scanned(out, processed) == Scan(config, data, 0, start)
    {
      hide Scan, Find;
      out, processed := [], 0;
      var cursor := start;
      while true
        invariant processed <= cursor <= |data|
        invariant Scan(config, data, 0, start).messages == out + Scan(config, data, processed, cursor).messages
        invariant Scan(config, data, 0, start).processed == Scan(config, data, processed, cursor).processed
        decreases |data| - cursor
      {
        var found := Search(data, config.delimiter, cursor);
        ScanStep(config, data, processed, cursor);
        if found.None? { return; }
        var end := found.value + |config.delimiter|;
        var contentLength := end - processed - |config.delimiter|;
        if contentLength <= config.max {
          var payloadLength := if config.inclusive then end - processed else contentLength;
          out := out + [data[processed..processed + payloadLength]];
          FoundPayload(config, data, processed, cursor);
        }
        processed := end;
        cursor := processed;
      }
    }

    /** push_bytes_internal. */
    method PushBytesInternal(input: seq<Byte>) returns (out: seq<Message>)
      requires Valid()
      modifies this
      ensures Valid()
      ensures Pushed(View(), out) == PushChunk(config, old(View()), input)
      ensures |buffer| <= old(|buffer|) + |input| && old(capacity) <= capacity
      ensures old(|buffer|) + |input| <= old(capacity) ==> capacity == old(capacity)
    {
      hide Absorb, Find;
      out := [];
      var data := input;
      if data == [] { return; }
      if discarding {
        var consumed := SkipUntilDelimiter(data);
        if consumed.None? { return; }
        discarding := false;
        data := data[consumed.value..];
        AbsorbIgnoresMode(config, old(View()), data);
        if data == [] { return; }
      }
      if buffer == [] {
        out := FastPath(data);
      } else {
        out := SlowPath(data);
      }
    }

    /** Lines straight from the data; only an unfinished one is copied. */
    method FastPath(data: seq<Byte>) returns (out: seq<Message>)
      requires Valid() && buffer == [] && !discarding && data != []
      modifies this
      ensures Valid()
      ensures Pushed(View(), out) == Absorb(config, old(View()), data)
      ensures |buffer| <= |data| && old(capacity) <= capacity
      ensures |data| <= old(capacity) ==> capacity == old(capacity)
    {
      hide Scan, Find;
      var processed;
      out, processed := ScanAndProcess(data, 0);
      if processed < |data| {
        Append(data[processed..]);
        scanned := |buffer|;
        GiveUpIfTooLong();
      } else {
        scanned := 0;
      }
    }

    /** Lines from what was held together with the data, searching only where one may end. */
    method SlowPath(data: seq<Byte>) returns (out: seq<Message>)
      requires Valid() && buffer != [] && !discarding && data != []
      modifies this
      ensures Valid()
      ensures Pushed(View(), out) == Absorb(config, old(View()), data)
      ensures |buffer| <= old(|buffer|) + |data| && old(capacity) <= capacity
      ensures old(|buffer|) + |data| <= old(capacity) ==> capacity == old(capacity)
    {
      hide Scan, Find;
      Append(data);
      var start := scanned;
      if start >= |config.delimiter| {
        start := start - (|config.delimiter| - 1);
      } else {
        start := 0;
      }
      var processed;
      out, processed := ScanAndProcess(buffer, start);
      if processed > 0 {
        buffer := buffer[processed..];
      }
      scanned := |buffer|;
      GiveUpIfTooLong();
    }

    /** append_bytes. */
    method Append(data: seq<Byte>)
      requires |buffer| <= capacity
      modifies this`buffer, this`capacity
      ensures buffer == old(buffer) + data && |buffer| <= capacity
      ensures capacity == Enlarge(old(capacity), |buffer|)
    {
      buffer := buffer + data;
      capacity := Enlarge(capacity, |buffer|);
    }

    /** The limit on an unfinished line: drop it and skip to its end. */
    method GiveUpIfTooLong()
      requires ValidConfig(config) && scanned == |buffer| && !discarding
      modifies this`buffer, this`scanned, this`discarding
      ensures View() == Retain(config, old(buffer))
    {
      if |buffer| > MaxPartial(config) {
        buffer, scanned, discarding := [], 0, true;
      }
    }

    /** push_bytes: in chunks of at most max(max_length, 4096). */
    method PushBytes(data: seq<Byte>) returns (out: seq<Message>)
      requires Valid()
      modifies this
      ensures Valid()
      ensures Pushed(View(), out) == Push(config, old(View()), data)
      ensures old(|buffer|) + |data| <= old(capacity) ==> capacity == old(capacity)
    {
      hide PushChunk, Push;
      out := [];
      var offset := 0;
      assert data[0..] == data;
      while offset < |data|
        invariant offset <= |data| && Valid()
        invariant |buffer| <= old(|buffer|) + offset
        invariant old(|buffer|) + |data| <= old(capacity) ==> capacity == old(capacity)
        invariant Push(config, old(View()), data).state == Push(config, View(), data[offset..]).state
        invariant Push(config, old(View()), data).messages == out + Push(config, View(), data[offset..]).messages
      {
        var n := if |data| - offset < ChunkLimit(config) then |data| - offset else ChunkLimit(config);
        PushAhead(config, View(), data, offset, n);
        var messages := PushBytesInternal(data[offset..offset + n]);
        out := out + messages;
        offset := offset + n;
      }
      assert data[offset..] == [];
      PushNothing(config, View());
    }

    method Reset()
      requires Valid()
      modifies this
      ensures Valid() && View() == EMPTY && capacity == old(capacity)
    {
      buffer, scanned, discarding := [], 0, false;
    }
  }
}
