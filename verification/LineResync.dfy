/**
 What a line framer may deliver when it resynchronises behind an oversized line.
 A delimiter cut in two by a push boundary is missed then, so lines can be lost;
 whether anything else than a line can be delivered depends on the delimiter.
 */
module LineResync {
  import opened Options
  import opened Octets
  import opened LineFraming
  import opened LineRoots

  /** `a` is `b` with some messages left out. */
  predicate Sub(a: seq<Message>, b: seq<Message>)
    decreases |b|
  {
    a == [] || (b != [] && ((a[0] == b[0] && Sub(a[1..], b[1..])) || Sub(a, b[1..])))
  }

  lemma {:induction false} SubSelf(a: seq<Message>)
    ensures Sub(a, a)
  {
    if a != [] {
      SubSelf(a[1..]);
    }
  }

  lemma {:induction false} SubSkip(a: seq<Message>, p: seq<Message>, b: seq<Message>)
    requires Sub(a, b)
    ensures Sub(a, p + b)
    decreases |p|
  {
    if p == [] {
      assert p + b == b;
    } else {
      assert (p + b)[1..] == p[1..] + b;
      SubSkip(a, p[1..], b);
    }
  }

  lemma {:induction false} SubConcat(a: seq<Message>, b: seq<Message>, x: seq<Message>, y: seq<Message>)
    requires Sub(a, b) && Sub(x, y)
    ensures Sub(a + x, b + y)
    decreases |b|
  {
    if a == [] {
      assert a + x == x;
      SubSkip(x, b, y);
    } else {
      assert (b + y)[1..] == b[1..] + y && (a + x)[1..] == a[1..] + x;
      if a[0] == b[0] && Sub(a[1..], b[1..]) {
        SubConcat(a[1..], b[1..], x, y);
      } else {
        SubConcat(a, b[1..], x, y);
      }
    }
  }

  // ------------------------------------------------------------------
  // Without a border every occurrence ends a line
  // ------------------------------------------------------------------

  lemma {:induction false} OccurrenceEndsALine(c: Config, x: seq<Byte>, p: nat)
    requires ValidConfig(c) && Borderless(c.delimiter) && MatchAt(x, c.delimiter, p)
    ensures Lines(c, x[..p + |c.delimiter|]).tail == []
    decreases |x|
  {
    hide Find, Borderless;
    var d := c.delimiter;
    var head := x[..p + |d|];
    assert head + x[p + |d|..] == x;
    MatchInPrefix(head, x[p + |d|..], d, p);
    FindFirst(head, d, 0);
    var i := Find(head, d, 0).value;
    MatchInPrefix(head, x[p + |d|..], d, i);
    if i == p {
      assert head[i + |d|..] == [];
      NothingYet(c);
    } else {
      NoOverlap(x, d, i, p);
      var end := i + |d|;
      MatchInSuffix(x, d, end, p - end);
      OccurrenceEndsALine(c, x[end..], p - end);
      assert x[end..][..p - end + |d|] == head[end..];
    }
  }

  /**
   The delimiters that are safe: without a border; or longer than any chunk that
   push_bytes scans, so that discard mode never ends; or, when only empty lines
   are delivered at all, with borders that come in complementary pairs.
   */
  predicate Safe(c: Config) {
    || Borderless(c.delimiter) || |c.delimiter| > ChunkLimit(c)
    || (c.max == 0 && Symmetric(c.delimiter))
  }

  /** Safe whatever the lines are. */
  predicate AlwaysSafe(c: Config) {
    Borderless(c.delimiter) || |c.delimiter| > ChunkLimit(c)
  }

  // ------------------------------------------------------------------
  // Then nothing but lines is delivered
  // ------------------------------------------------------------------

  /** Outside discard mode the framer holds the unfinished line. */
  predicate Aligned(c: Config, stream: seq<Byte>, s: State)
    requires ValidConfig(c)
  {
    var tail := Lines(c, stream).tail;
    if s.discarding then s.buffer == [] && s.scanned == 0
    else s.buffer == tail && s.scanned == |tail| <= MaxPartial(c)
  }

  /** How one chunk extends what is delivered and what should have been. */
  ghost predicate Loses(c: Config, before: seq<Byte>, after: seq<Byte>, messages: seq<Message>)
    requires ValidConfig(c)
  {
    exists due ::
      Kept(c, Lines(c, after).lines) == Kept(c, Lines(c, before).lines) + due && Sub(messages, due)
  }

  lemma ResyncStep(c: Config, stream: seq<Byte>, s: State, data: seq<Byte>)
    requires ValidConfig(c) && Borderless(c.delimiter) && s == State([], 0, true)
    requires Find(data, c.delimiter, 0).Some?
    ensures var r := PushChunk(c, s, data);
            Aligned(c, stream + data, r.state) && Loses(c, stream, stream + data, r.messages)
  {
    hide Find, Absorb, Lines, Kept, Sub, Borderless;
    var i, all := Find(data, c.delimiter, 0).value, stream + data;
    var end := i + |c.delimiter|;
    FindFirst(data, c.delimiter, 0);
    assert all[|stream|..] == data;
    MatchInSuffix(all, c.delimiter, |stream|, i);
    OccurrenceEndsALine(c, all, |stream| + i);
    var head, rest := all[..|stream| + end], data[end..];
    assert head + rest == all && head == stream + data[..end];
    LinesInTwo(c, head, rest);
    LinesInTwo(c, stream, data[..end]);
    assert [] + rest == rest;
    EmptyHasNone(c.delimiter);
    AbsorbStep(c, [], s, rest);
    var skipped, later := Lines(c, Lines(c, stream).tail + data[..end]).lines, Lines(c, rest).lines;
    KeptConcat(c, Lines(c, stream).lines, skipped);
    KeptConcat(c, Lines(c, head).lines, later);
    SubSelf(Kept(c, later));
    SubSkip(Kept(c, later), Kept(c, skipped), Kept(c, later));
    var due := Kept(c, skipped) + Kept(c, later);
    assert Kept(c, Lines(c, all).lines) == Kept(c, Lines(c, stream).lines) + due;
  }

  lemma ChunkLoses(c: Config, stream: seq<Byte>, s: State, data: seq<Byte>)
    requires ValidConfig(c) && AlwaysSafe(c) && |data| <= ChunkLimit(c) && Aligned(c, stream, s)
    ensures var r := PushChunk(c, s, data);
            Aligned(c, stream + data, r.state) && Loses(c, stream, stream + data, r.messages)
  {
    hide Find, Absorb, Lines, Kept, Sub, Borderless;
    var tail := Lines(c, stream).tail;
    LinesInTwo(c, stream, data);
    var split := Lines(c, tail + data);
    KeptConcat(c, Lines(c, stream).lines, split.lines);
    var due := Kept(c, split.lines);
    assert Kept(c, Lines(c, stream + data).lines) == Kept(c, Lines(c, stream).lines) + due;
    SubNothing(due);
    if data == [] {
      assert stream + data == stream;
    } else if s.discarding {
      if Find(data, c.delimiter, 0).Some? {
        ResyncStep(c, stream, s, data);
      }
    } else {
      TailHasNoDelimiter(c, stream);
      AbsorbStep(c, tail, s, data);
      SubSelf(due);
    }
  }

  lemma SubNothing(b: seq<Message>)
    ensures Sub([], b)
  {
  }

  lemma {:induction false} PushLoses(c: Config, stream: seq<Byte>, s: State, data: seq<Byte>, out: seq<Message>)
    requires ValidConfig(c) && AlwaysSafe(c) && Aligned(c, stream, s) && s.scanned <= |s.buffer|
    requires Sub(out, Kept(c, Lines(c, stream).lines))
    ensures var r := Push(c, s, data);
            Aligned(c, stream + data, r.state) && Sub(out + r.messages, Kept(c, Lines(c, stream + data).lines))
    decreases |data|
  {
    hide PushChunk, Lines, Kept, Sub, AlwaysSafe, Aligned;
    if data == [] {
      assert stream + data == stream && out + [] == out;
    } else {
      var n := if |data| < ChunkLimit(c) then |data| else ChunkLimit(c);
      var first := PushChunk(c, s, data[..n]);
      assert (stream + data[..n]) + data[n..] == stream + data;
      ChunkLoses(c, stream, s, data[..n]);
      var due :| && Kept(c, Lines(c, stream + data[..n]).lines) == Kept(c, Lines(c, stream).lines) + due
                 && Sub(first.messages, due);
      SubConcat(out, Kept(c, Lines(c, stream).lines), first.messages, due);
      PushLoses(c, stream + data[..n], first.state, data[n..], out + first.messages);
      var later := Push(c, first.state, data[n..]);
      assert (out + first.messages) + later.messages == out + (first.messages + later.messages);
    }
  }

  lemma {:induction false} FeedLoses(c: Config, stream: seq<Byte>, s: State, pieces: seq<seq<Byte>>, out: seq<Message>)
    requires ValidConfig(c) && AlwaysSafe(c) && Aligned(c, stream, s) && s.scanned <= |s.buffer|
    requires Sub(out, Kept(c, Lines(c, stream).lines))
    ensures Sub(out + Feed(c, s, pieces).messages, Kept(c, Lines(c, stream + Concat(pieces)).lines))
    decreases |pieces|
  {
    hide Push, Lines, Kept, Sub, AlwaysSafe, Aligned;
    if pieces == [] {
      assert stream + Concat(pieces) == stream && out + [] == out;
    } else {
      var first := Push(c, s, pieces[0]);
      assert (stream + pieces[0]) + Concat(pieces[1..]) == stream + Concat(pieces);
      PushLoses(c, stream, s, pieces[0], out);
      FeedLoses(c, stream + pieces[0], first.state, pieces[1..], out + first.messages);
      var later := Feed(c, first.state, pieces[1..]);
      assert (out + first.messages) + later.messages == out + (first.messages + later.messages);
    }
  }

  lemma LinesOnly(c: Config, pieces: seq<seq<Byte>>)
    requires ValidConfig(c) && AlwaysSafe(c)
    ensures Sub(Feed(c, EMPTY, pieces).messages, Kept(c, Lines(c, Concat(pieces)).lines))
  {
    hide Push, Lines, Sub, AlwaysSafe;
    NothingYet(c);
    SubNothing([]);
    assert [] + Concat(pieces) == Concat(pieces);
    FeedLoses(c, [], EMPTY, pieces, []);
    assert [] + Feed(c, EMPTY, pieces).messages == Feed(c, EMPTY, pieces).messages;
  }

  // ------------------------------------------------------------------
  // Only empty lines: counting them
  // ------------------------------------------------------------------

  predicate AllAre(messages: seq<Message>, m: Message) {
    forall i | 0 <= i < |messages| :: messages[i] == m
  }

  lemma {:induction false} SubOfSame(a: seq<Message>, b: seq<Message>, m: Message)
    requires AllAre(a, m) && AllAre(b, m)
    ensures Sub(a, b) <==> |a| <= |b|
    decreases |b|
  {
    if a != [] && b != [] {
      SubOfSame(a[1..], b[1..], m);
      SubOfSame(a, b[1..], m);
    }
  }

  /** With max_length 0 a kept line is an empty one. */
  lemma {:induction false} KeptEmpties(c: Config, lines: seq<Message>)
    requires c.max == 0
    ensures |Kept(c, lines)| == Empties(lines) && AllAre(Kept(c, lines), Payload(c, []))
  {
    if lines != [] {
      KeptEmpties(c, lines[1..]);
    }
  }

  /** The framer has delivered no more empty lines than there were, and reads on from behind. */
  ghost predicate Trails(c: Config, r: seq<Byte>, q: nat, stream: seq<Byte>, s: State, out: seq<Message>)
    requires ValidConfig(c)
  {
    var split := Lines(c, stream);
    && AllAre(out, Payload(c, []))
    && if s.discarding then s.buffer == [] && s.scanned == 0 && |out| <= Empties(split.lines)
       else
         && s.scanned == |s.buffer| <= MaxPartial(c) && Find(s.buffer, c.delimiter, 0).None?
         && exists w :: TrailsBy(c, r, q, split, s, |out|, w)
  }

  predicate TrailsBy(c: Config, r: seq<Byte>, q: nat, split: Split, s: State, delivered: nat, w: Reading) {
    && split.tail == Power(r, w.m) + w.rest && s.buffer == Power(r, w.k) + w.rest
    && Behind(q, Empties(split.lines), w.m, delivered, w.k)
  }

  /** Reading on: where the framer is after absorbing data, given where the stream is. */
  lemma TrailsOn(c: Config, r: seq<Byte>, q: nat, stream: seq<Byte>, s: State, out: seq<Message>, data: seq<Byte>,
                 w: Reading)
    requires ValidConfig(c) && c.max == 0 && Rooted(c, r, q) && AllAre(out, Payload(c, []))
    requires s.scanned == |s.buffer| <= MaxPartial(c) && Find(s.buffer, c.delimiter, 0).None?
    requires TrailsBy(c, r, q, Lines(c, stream), s, |out|, w)
    ensures var p := Absorb(c, s, data);
            Trails(c, r, q, stream + data, p.state, out + p.messages)
  {
    hide Absorb, Lines, Find, Power, Empties, Behind, Kept, Payload;
    var split := Lines(c, stream);
    LinesInTwo(c, stream, data);
    AbsorbStep(c, s.buffer, s, data);
    var z := w.rest + data;
    assert split.tail + data == Power(r, w.m) + z && s.buffer + data == Power(r, w.k) + z;
    var all, part := Lines(c, split.tail + data), Lines(c, s.buffer + data);
    var v := StaysBehind(c, r, q, Empties(split.lines), w.m, |out|, w.k, z);
    EmptiesConcat(split.lines, all.lines);
    KeptEmpties(c, part.lines);
    TailHasNoDelimiter(c, s.buffer + data);
    var p := Absorb(c, s, data);
    assert p == Pushed(Retain(c, part.tail), Kept(c, part.lines));
    assert AllAre(out + p.messages, Payload(c, []));
    if p.state.discarding {
      BehindCounts(q, Empties(split.lines) + Empties(all.lines), v.m, |out| + Empties(part.lines), v.k);
    } else {
      assert TrailsBy(c, r, q, Lines(c, stream + data), p.state, |out + p.messages|, v);
    }
  }

  lemma TrailsResync(c: Config, r: seq<Byte>, q: nat, stream: seq<Byte>, s: State, out: seq<Message>, data: seq<Byte>)
    requires ValidConfig(c) && c.max == 0 && Rooted(c, r, q) && Trails(c, r, q, stream, s, out) && s.discarding
    requires Find(data, c.delimiter, 0).Some?
    ensures var p := PushChunk(c, s, data);
            Trails(c, r, q, stream + data, p.state, out + p.messages)
  {
    hide Absorb, Lines, Find, Power, Behind, Empties;
    var i, all := Find(data, c.delimiter, 0).value, stream + data;
    var end := i + |c.delimiter|;
    FindFirst(data, c.delimiter, 0);
    assert all[|stream|..] == data;
    MatchInSuffix(all, c.delimiter, |stream|, i);
    var m := OccurrenceEndsRoots(c, r, q, all, |stream| + i);
    var head, rest := all[..|stream| + end], data[end..];
    assert head + rest == all && head == stream + data[..end];
    LinesInTwo(c, stream, data[..end]);
    EmptiesConcat(Lines(c, stream).lines, Lines(c, Lines(c, stream).tail + data[..end]).lines);
    var w := Reading(m, 0, []);
    NoRoots(r, []);
    assert Power(r, m) + [] == Power(r, m);
    StartBehind(q, Empties(Lines(c, head).lines), m, |out|);
    EmptyHasNone(c.delimiter);
    TrailsOn(c, r, q, head, s, out, rest, w);
  }

  lemma StartBehind(q: nat, e: nat, m: nat, f: nat)
    requires m < q && f <= e
    ensures Behind(q, e, m, f, 0)
  {
    MulMono(q, f, e);
  }

  lemma TrailsChunk(c: Config, r: seq<Byte>, q: nat, stream: seq<Byte>, s: State, out: seq<Message>, data: seq<Byte>)
    requires ValidConfig(c) && c.max == 0 && Rooted(c, r, q) && Trails(c, r, q, stream, s, out)
             && s.scanned <= |s.buffer|
    ensures var p := PushChunk(c, s, data);
            Trails(c, r, q, stream + data, p.state, out + p.messages)
  {
    hide Absorb, Lines, Find, Power, Behind, Empties, TrailsBy;
    if data == [] {
      assert stream + data == stream && out + [] == out;
    } else if !s.discarding {
      var w :| TrailsBy(c, r, q, Lines(c, stream), s, |out|, w);
      TrailsOn(c, r, q, stream, s, out, data, w);
    } else if Find(data, c.delimiter, 0).Some? {
      TrailsResync(c, r, q, stream, s, out, data);
    } else {
      LinesInTwo(c, stream, data);
      EmptiesConcat(Lines(c, stream).lines, Lines(c, Lines(c, stream).tail + data).lines);
      assert out + [] == out;
    }
  }

  lemma {:induction false} TrailsPush(c: Config, r: seq<Byte>, q: nat, stream: seq<Byte>, s: State, out: seq<Message>,
                                      data: seq<Byte>)
    requires ValidConfig(c) && c.max == 0 && Rooted(c, r, q) && Trails(c, r, q, stream, s, out)
             && s.scanned <= |s.buffer|
    ensures var p := Push(c, s, data);
            Trails(c, r, q, stream + data, p.state, out + p.messages)
    decreases |data|
  {
    hide PushChunk, Trails, Rooted;
    if data == [] {
      assert stream + data == stream && out + [] == out;
    } else {
      var n := if |data| < ChunkLimit(c) then |data| else ChunkLimit(c);
      var first := PushChunk(c, s, data[..n]);
      assert (stream + data[..n]) + data[n..] == stream + data;
      TrailsChunk(c, r, q, stream, s, out, data[..n]);
      TrailsPush(c, r, q, stream + data[..n], first.state, out + first.messages, data[n..]);
      var later := Push(c, first.state, data[n..]);
      assert (out + first.messages) + later.messages == out + (first.messages + later.messages);
    }
  }

  lemma {:induction false} TrailsFeed(c: Config, r: seq<Byte>, q: nat, stream: seq<Byte>, s: State, out: seq<Message>,
                                      pieces: seq<seq<Byte>>)
    requires ValidConfig(c) && c.max == 0 && Rooted(c, r, q) && Trails(c, r, q, stream, s, out)
             && s.scanned <= |s.buffer|
    ensures var p := Feed(c, s, pieces);
            Trails(c, r, q, stream + Concat(pieces), p.state, out + p.messages)
    decreases |pieces|
  {
    hide Push, Trails, Rooted;
    if pieces == [] {
      assert stream + Concat(pieces) == stream && out + [] == out;
    } else {
      var first := Push(c, s, pieces[0]);
      assert (stream + pieces[0]) + Concat(pieces[1..]) == stream + Concat(pieces);
      TrailsPush(c, r, q, stream, s, out, pieces[0]);
      TrailsFeed(c, r, q, stream + pieces[0], first.state, out + first.messages, pieces[1..]);
      var later := Feed(c, first.state, pieces[1..]);
      assert (out + first.messages) + later.messages == out + (first.messages + later.messages);
    }
  }

  lemma TrailsFresh(c: Config, r: seq<Byte>, q: nat)
    requires ValidConfig(c) && Rooted(c, r, q)
    ensures Trails(c, r, q, [], EMPTY, [])
  {
    NothingYet(c);
    StartBehind(q, 0, 0, 0);
    assert TrailsBy(c, r, q, Lines(c, []), EMPTY, 0, Reading(0, 0, []));
  }

  lemma TrailsMeans(c: Config, r: seq<Byte>, q: nat, stream: seq<Byte>, s: State, out: seq<Message>)
    requires ValidConfig(c) && Trails(c, r, q, stream, s, out)
    ensures AllAre(out, Payload(c, [])) && |out| <= Empties(Lines(c, stream).lines)
  {
    hide Find, Lines, Empties;
    if !s.discarding {
      var w :| TrailsBy(c, r, q, Lines(c, stream), s, |out|, w);
      BehindCounts(q, Empties(Lines(c, stream).lines), w.m, |out|, w.k);
    }
  }

  /** With max_length 0 and paired borders, no empty line is delivered too many. */
  lemma EmptyLinesOnly(c: Config, pieces: seq<seq<Byte>>)
    requires ValidConfig(c) && c.max == 0 && Symmetric(c.delimiter)
    ensures Sub(Feed(c, EMPTY, pieces).messages, Kept(c, Lines(c, Concat(pieces)).lines))
  {
    hide Feed, Lines, Kept, Sub, Symmetric, Trails, Concat, Empties, Payload;
    var r, q := RootOf(c.delimiter);
    TrailsFresh(c, r, q);
    TrailsFeed(c, r, q, [], EMPTY, [], pieces);
    var out, stream := Feed(c, EMPTY, pieces), Concat(pieces);
    assert [] + stream == stream && [] + out.messages == out.messages;
    TrailsMeans(c, r, q, stream, out.state, out.messages);
    KeptEmpties(c, Lines(c, stream).lines);
    SubOfSame(out.messages, Kept(c, Lines(c, stream).lines), Payload(c, []));
  }

  /** On every stream and cutting: lines may be lost behind an oversized one, but nothing else is delivered. */
  lemma OnlyLinesAreDelivered(c: Config, pieces: seq<seq<Byte>>)
    requires ValidConfig(c) && Safe(c)
    ensures Sub(Feed(c, EMPTY, pieces).messages, Kept(c, Lines(c, Concat(pieces)).lines))
  {
    hide Feed, Lines, Kept, Sub, Concat, Borderless, Symmetric;
    if AlwaysSafe(c) {
      LinesOnly(c, pieces);
    } else {
      EmptyLinesOnly(c, pieces);
    }
  }

  // ------------------------------------------------------------------
  // With a border something else can be
  // ------------------------------------------------------------------

  function Third(a: Byte, b: Byte): (z: Byte)
    ensures z != a && z != b
  {
    if a != 0 && b != 0 then 0 else if a != 1 && b != 1 then 1 else 2
  }

  /** A line of one byte, neither the delimiter's first nor the one behind its border. */
  function Short(d: seq<Byte>, n: nat): (m: Message)
    requires 0 < n < |d|
    ensures |m| == 1
  {
    [Third(d[0], d[n])]
  }

  lemma FindShort(d: seq<Byte>, n: nat)
    requires 0 < n < |d|
    ensures Find(Short(d, n) + d, d, 0) == Some(1)
  {
    hide Find, Short;
    var x := Short(d, n) + d;
    FindFirst(x, d, 0);
    assert x[1..1 + |d|] == d;
    assert MatchAt(x, d, 1);
    ShortIsOther(d, n);
  }

  lemma ShortIsOther(d: seq<Byte>, n: nat)
    requires 0 < n < |d|
    ensures !MatchAt(Short(d, n) + d, d, 0)
  {
    var x := Short(d, n) + d;
    assert x[0..0 + |d|][0] == x[0];
  }

  /** Resynchronised inside the delimiter, the framer takes the next line from there. */
  lemma DeliveredShort(c: Config, n: nat)
    requires ValidConfig(c) && 0 < n < |c.delimiter| <= ChunkLimit(c) && c.max >= 1
    ensures var d := c.delimiter;
            Feed(c, EMPTY, [Filler(c) + d[..|d| - n], d, Short(d, n) + d]).messages == [Payload(c, Short(d, n))]
  {
    hide Push, Find, Filler, Short;
    var d := c.delimiter;
    var head, line := Filler(c) + d[..|d| - n], Short(d, n) + d;
    SkipsFiller(c, n);
    FindsAtOnce(c);
    var s := State([], 0, true);
    NothingYet(c);
    assert [] + line == line;
    FindShort(d, n);
    OneLine(c, line, 1);
    assert line[..1] == Short(d, n);
    PushStep(c, [], EMPTY, line);
    assert [line][1..] == [] && [d, line][1..] == [line] && [head, d, line][1..] == [d, line];
    assert Feed(c, EMPTY, [line]).messages == [Payload(c, Short(d, n))];
    assert Feed(c, s, [d, line]).messages == [Payload(c, Short(d, n))];
  }

  /** A stream that ends with its only delimiter. */
  lemma OneLine(c: Config, x: seq<Byte>, j: nat)
    requires ValidConfig(c) && Find(x, c.delimiter, 0) == Some(j) && |x| < j + 2 * |c.delimiter|
    ensures Lines(c, x).lines == [x[..j]]
    ensures Kept(c, [x[..j]]) == if j <= c.max then [Payload(c, x[..j])] else []
  {
    hide Payload;
    var rest := x[j + |c.delimiter|..];
    assert Find(rest, c.delimiter, 0).None?;
    assert [x[..j]][1..] == [];
  }

  lemma SkipsFiller(c: Config, n: nat)
    requires ValidConfig(c) && 0 < n < |c.delimiter|
    ensures Push(c, EMPTY, Filler(c) + c.delimiter[..|c.delimiter| - n]) == Pushed(State([], 0, true), [])
  {
    hide Push, Find;
    var head := Filler(c) + c.delimiter[..|c.delimiter| - n];
    FillerHasNone(c, c.delimiter[..|c.delimiter| - n]);
    NothingYet(c);
    assert [] + head == head;
    PushStep(c, [], EMPTY, head);
  }

  lemma FindsAtOnce(c: Config)
    requires ValidConfig(c) && |c.delimiter| <= ChunkLimit(c)
    ensures Push(c, State([], 0, true), c.delimiter) == Pushed(EMPTY, [])
  {
    var d := c.delimiter;
    assert d[..|d|] == d && d[|d|..] == [];
    assert Find(d, d, 0) == Some(0);
    assert PushChunk(c, State([], 0, true), d) == Pushed(EMPTY, []);
    assert Push(c, EMPTY, []) == Pushed(EMPTY, []);
  }

  /** In the stream itself that byte is only part of a line beginning otherwise. */
  lemma FindBehindBorder(d: seq<Byte>, n: nat)
    requires 0 < n < |d| && d[..n] == d[|d| - n..]
    ensures var x := d[n..] + Short(d, n) + d;
            Find(x, d, 0).Some? && 1 <= Find(x, d, 0).value <= |d| - n + 1
  {
    hide Find, Short;
    var x, p := d[n..] + Short(d, n) + d, |d| - n;
    FindFirst(x, d, 0);
    assert x[p + 1..p + 1 + |d|] == d;
    assert MatchAt(x, d, p + 1);
    assert !MatchAt(x, d, 0) by { NotAtBorder(d, n); }
  }

  lemma NotAtBorder(d: seq<Byte>, n: nat)
    requires 0 < n < |d| && d[..n] == d[|d| - n..]
    ensures !MatchAt(d[n..] + Short(d, n) + d, d, 0)
  {
    var x, p := d[n..] + Short(d, n) + d, |d| - n;
    assert d[p] == d[|d| - n..][0] == d[..n][0] == d[0];
    assert x[p] == Short(d, n)[0];
    assert x[0..0 + |d|][p] == x[p];
  }

  lemma SpecifiedOtherwise(c: Config, n: nat)
    requires var d := c.delimiter; ValidConfig(c) && 0 < n < |d| && d[..n] == d[|d| - n..]
    ensures var d := c.delimiter;
            !Sub([Payload(c, Short(d, n))], Kept(c, Lines(c, Filler(c) + d + (d[n..] + Short(d, n) + d)).lines))
  {
    hide Find, Filler;
    var d := c.delimiter;
    var y := d[n..] + Short(d, n) + d;
    var stream := Filler(c) + d + y;
    assert stream == Filler(c) + (d + y);
    FillerHasNone(c, d + y);
    assert stream[|Filler(c)| + |d|..] == y;
    FindBehindBorder(d, n);
    var j := Find(y, d, 0).value;
    OneLine(c, y, j);
    var first := stream[..|Filler(c)|];
    assert Lines(c, stream).lines == [first] + [y[..j]];
    assert ([first] + [y[..j]])[1..] == [y[..j]];
    FillerIsLong(c);
    assert Kept(c, Lines(c, stream).lines) == Kept(c, [y[..j]]);
    assert Payload(c, y[..j])[0] == d[n] != Payload(c, Short(d, n))[0];
  }

  lemma FillerIsLong(c: Config)
    requires ValidConfig(c)
    ensures |Filler(c)| > c.max
  {
  }

  lemma BorderMisdelivers(c: Config, n: nat) returns (pieces: seq<seq<Byte>>)
    requires ValidConfig(c) && 0 < n < |c.delimiter| <= ChunkLimit(c) && c.max >= 1
    requires c.delimiter[..n] == c.delimiter[|c.delimiter| - n..]
    ensures !Sub(Feed(c, EMPTY, pieces).messages, Kept(c, Lines(c, Concat(pieces)).lines))
  {
    hide Filler, Find, Lines, Push, Kept, Sub, Short, Feed;
    var d := c.delimiter;
    var p := |d| - n;
    pieces := [Filler(c) + d[..p], d, Short(d, n) + d];
    DeliveredShort(c, n);
    SpecifiedOtherwise(c, n);
    ConcatOfThree(Filler(c) + d[..p], d, Short(d, n) + d);
    Regroup(Filler(c), d, n, Short(d, n));
  }

  lemma Regroup(f: seq<Byte>, d: seq<Byte>, n: nat, z: seq<Byte>)
    requires 0 < n < |d| && d[..n] == d[|d| - n..]
    ensures f + d[..|d| - n] + d + (z + d) == f + d + (d[n..] + z + d)
  {
    var p := |d| - n;
    assert d[..p] + d == d[..p] + d[p..] + d[n..];
    assert d[..p] + d[p..] == d;
    assert f + d[..p] + d + (z + d) == f + (d[..p] + d) + (z + d);
    assert f + d + (d[n..] + z + d) == f + (d + d[n..]) + (z + d);
  }

  /** With max_length 0, a border without its counterpart lets one empty line be delivered too many. */
  lemma EmptyLineTooMany(c: Config, n: nat) returns (pieces: seq<seq<Byte>>)
    requires ValidConfig(c) && |c.delimiter| <= ChunkLimit(c) && c.max == 0
    requires Border(c.delimiter, n) && !Border(c.delimiter, |c.delimiter| - n)
    ensures !Sub(Feed(c, EMPTY, pieces).messages, Kept(c, Lines(c, Concat(pieces)).lines))
  {
    hide Filler, Find, Lines, Push, Kept, Feed, Sub, Concat;
    var d := c.delimiter;
    var p := |d| - n;
    pieces := [Filler(c) + d[..p], d, d];
    DeliveredEmpty(c, n);
    NothingSpecified(c, n);
    ConcatOfThree(Filler(c) + d[..p], d, d);
    RegroupTwo(Filler(c), d, n);
    NotSubOfNothing(Payload(c, []));
  }

  lemma NotSubOfNothing(m: Message)
    ensures !Sub([m], [])
  {
  }

  lemma RegroupTwo(f: seq<Byte>, d: seq<Byte>, n: nat)
    requires Border(d, n)
    ensures f + d[..|d| - n] + d + d == f + d + (d[n..] + d)
  {
    Regroup(f, d, n, []);
    assert [] + d == d && d[n..] + [] + d == d[n..] + d;
  }

  lemma DeliveredEmpty(c: Config, n: nat)
    requires ValidConfig(c) && 0 < n < |c.delimiter| <= ChunkLimit(c)
    ensures var d := c.delimiter;
            Feed(c, EMPTY, [Filler(c) + d[..|d| - n], d, d]).messages == [Payload(c, [])]
  {
    hide Push, Find, Filler;
    var d := c.delimiter;
    var head := Filler(c) + d[..|d| - n];
    SkipsFiller(c, n);
    FindsAtOnce(c);
    var s := State([], 0, true);
    NothingYet(c);
    assert [] + d == d;
    assert d[0..0 + |d|] == d;
    FindAtFront(d, d);
    OneLine(c, d, 0);
    PushStep(c, [], EMPTY, d);
    assert [d][1..] == [] && [d, d][1..] == [d] && [head, d, d][1..] == [d, d];
    assert Feed(c, EMPTY, [d]).messages == [Payload(c, [])];
    assert Feed(c, s, [d, d]).messages == [Payload(c, [])];
  }

  lemma NothingSpecified(c: Config, n: nat)
    requires ValidConfig(c) && c.max == 0 && Border(c.delimiter, n) && !Border(c.delimiter, |c.delimiter| - n)
    ensures var d := c.delimiter;
            Kept(c, Lines(c, Filler(c) + d + (d[n..] + d)).lines) == []
  {
    hide Find, Filler;
    var d := c.delimiter;
    var y := d[n..] + d;
    var stream := Filler(c) + d + y;
    assert stream == Filler(c) + (d + y);
    FillerHasNone(c, d + y);
    assert stream[|Filler(c)| + |d|..] == y;
    FindBesideBorder(d, n);
    var j := Find(y, d, 0).value;
    OneLine(c, y, j);
    var first := stream[..|Filler(c)|];
    assert Lines(c, stream).lines == [first] + [y[..j]];
    assert ([first] + [y[..j]])[1..] == [y[..j]];
    FillerIsLong(c);
    assert Kept(c, Lines(c, stream).lines) == Kept(c, [y[..j]]);
  }

  lemma FindBesideBorder(d: seq<Byte>, n: nat)
    requires Border(d, n) && !Border(d, |d| - n)
    ensures var y := d[n..] + d;
            Find(y, d, 0).Some? && 1 <= Find(y, d, 0).value <= |d| - n
  {
    hide Find, MatchAt, Border;
    BorderLength(d, n);
    FindFirst(d[n..] + d, d, 0);
    EndsWith(d[n..], d);
    NotBesideBorder(d, n);
  }

  lemma EndsWith(a: seq<Byte>, d: seq<Byte>)
    ensures MatchAt(a + d, d, |a|)
  {
    assert (a + d)[|a|..|a| + |d|] == d;
  }

  lemma NotBesideBorder(d: seq<Byte>, n: nat)
    requires Border(d, n) && !Border(d, |d| - n)
    ensures !MatchAt(d[n..] + d, d, 0)
  {
    var y, p := d[n..] + d, |d| - n;
    assert y[0..0 + |d|][..p] == d[n..];
  }

  /**
   The framer delivers nothing but the stream's own lines, in order, on every
   stream and cutting, exactly when its delimiter is safe.
   */
  lemma NeverMisdelivers(c: Config)
    requires ValidConfig(c)
    ensures (forall pieces :: Sub(Feed(c, EMPTY, pieces).messages, Kept(c, Lines(c, Concat(pieces)).lines)))
            <==> Safe(c)
  {
    hide Feed, Lines, Kept, Sub, Concat;
    if Safe(c) {
      forall pieces ensures Sub(Feed(c, EMPTY, pieces).messages, Kept(c, Lines(c, Concat(pieces)).lines)) {
        OnlyLinesAreDelivered(c, pieces);
      }
    } else if c.max == 0 {
      var n :| 0 < n < |c.delimiter| && Border(c.delimiter, n) && !Border(c.delimiter, |c.delimiter| - n);
      var pieces := EmptyLineTooMany(c, n);
    } else {
      var n :| 0 < n < |c.delimiter| && Border(c.delimiter, n);
      var pieces := BorderMisdelivers(c, n);
    }
  }
}
