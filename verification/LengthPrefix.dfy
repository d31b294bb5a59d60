/**
 LengthPrefixFramer (wirestead/framer/length_prefix_framer.cc): messages carried
 behind a 1, 2 or 4 byte length, in either byte order and either convention.
 */
module LengthPrefix {
  import opened Octets

  /** The constructor's parameters; it throws unless they are valid. */
  datatype Config = Config(prefix: nat, big: bool, max: nat, includesPrefix: bool)

  predicate ValidConfig(c: Config) {
    (c.prefix == 1 || c.prefix == 2 || c.prefix == 4) && c.max > 0
  }

  // ------------------------------------------------------------------
  // Lengths
  // ------------------------------------------------------------------

  function Big(b: seq<Byte>): nat {
    if b == [] then 0 else Big(b[..|b| - 1]) * 256 + b[|b| - 1]
  }

  function Reversed(b: seq<Byte>): (r: seq<Byte>)
    ensures |r| == |b| && forall i | 0 <= i < |b| :: r[i] == b[|b| - 1 - i]
  {
    seq(|b|, i requires 0 <= i < |b| => b[|b| - 1 - i])
  }

  function Value(c: Config, header: seq<Byte>): nat {
    Big(if c.big then header else Reversed(header))
  }

  function Digits(n: nat, width: nat): (r: seq<Byte>)
    ensures |r| == width
  {
    if width == 0 then [] else Digits(n / 256, width - 1) + [n % 256]
  }

  function Power(width: nat): nat {
    if width == 0 then 1 else 256 * Power(width - 1)
  }

  lemma {:induction false} BigOfDigits(n: nat, width: nat)
    requires n < Power(width)
    ensures Big(Digits(n, width)) == n
  {
    if width > 0 {
      BigOfDigits(n / 256, width - 1);
      assert Digits(n, width)[..width - 1] == Digits(n / 256, width - 1);
    }
  }

  // ------------------------------------------------------------------
  // Parsing
  // ------------------------------------------------------------------

  datatype Scan = Wait | Corrupt | Frame(payload: Message, rest: seq<Byte>)

  /** What the front of the buffer holds. */
  function Next(c: Config, buffer: seq<Byte>): (r: Scan)
    ensures r.Frame? ==> |r.rest| + c.prefix + |r.payload| == |buffer|
    ensures r.Wait? ==> |buffer| < c.prefix + c.max || |buffer| < c.prefix
  {
    if |buffer| < c.prefix then Wait
    else
      var declared := Value(c, buffer[..c.prefix]);
      if c.includesPrefix && declared < c.prefix then Corrupt
      else
        var n := if c.includesPrefix then declared - c.prefix else declared;
        if n > c.max then Corrupt
        else if |buffer| < c.prefix + n then Wait
        else Frame(buffer[c.prefix..c.prefix + n], buffer[c.prefix + n..])
  }

  /** `clean` is false when a corrupt header made the framer drop its buffer. */
  datatype Parsed = Parsed(messages: seq<Message>, rest: seq<Byte>, clean: bool)

  /** The whole-stream meaning: frames from the front until more bytes are needed. */
  function Parse(c: Config, buffer: seq<Byte>): (r: Parsed)
    requires ValidConfig(c)
    ensures |r.rest| < c.prefix + c.max
    decreases |buffer|
  {
    match Next(c, buffer)
    case Wait => Parsed([], buffer, true)
    case Corrupt => Parsed([], [], false)
    case Frame(payload, rest) =>
      var tail := Parse(c, rest);
      tail.(messages := [payload] + tail.messages)
  }

  lemma ParseStep(c: Config, buffer: seq<Byte>)
    requires ValidConfig(c)
    ensures Next(c, buffer).Wait? ==> Parse(c, buffer) == Parsed([], buffer, true)
    ensures Next(c, buffer).Corrupt? ==> Parse(c, buffer) == Parsed([], [], false)
    ensures Next(c, buffer).Frame? ==>
              var tail := Parse(c, Next(c, buffer).rest);
              Parse(c, buffer) == Parsed([Next(c, buffer).payload] + tail.messages, tail.rest, tail.clean)
  {
  }

  /** Pushing pieces one after another: messages delivered, bytes held, and whether the buffer was ever dropped. */
  function Feed(c: Config, buffer: seq<Byte>, pieces: seq<seq<Byte>>): Parsed
    requires ValidConfig(c)
    decreases |pieces|
  {
    if pieces == [] then Parsed([], buffer, true)
    else
      var now := Parse(c, buffer + pieces[0]);
      var later := Feed(c, now.rest, pieces[1..]);
      Parsed(now.messages + later.messages, later.rest, now.clean && later.clean)
  }

  lemma NextOfPrefix(c: Config, b: seq<Byte>, d: seq<Byte>)
    requires ValidConfig(c)
    ensures Next(c, b).Corrupt? ==> Next(c, b + d).Corrupt?
    ensures Next(c, b).Frame? ==> Next(c, b + d) == Frame(Next(c, b).payload, Next(c, b).rest + d)
  {
    if |b| >= c.prefix {
      assert (b + d)[..c.prefix] == b[..c.prefix];
      if Next(c, b).Frame? {
        var n := |Next(c, b).payload|;
        assert (b + d)[c.prefix..c.prefix + n] == b[c.prefix..c.prefix + n];
        assert (b + d)[c.prefix + n..] == b[c.prefix + n..] + d;
      }
    }
  }

  /** Parsing a clean prefix first and going on from what it left is the same as parsing everything. */
  lemma {:induction false} ParseInTwo(c: Config, b: seq<Byte>, d: seq<Byte>)
    requires ValidConfig(c)
    ensures !Parse(c, b).clean ==> !Parse(c, b + d).clean
    ensures Parse(c, b).clean ==>
              var first, all := Parse(c, b), Parse(c, b + d);
              var second := Parse(c, first.rest + d);
              all == second.(messages := first.messages + second.messages)
    decreases |b|
  {
    hide Next;
    NextOfPrefix(c, b, d);
    match Next(c, b)
    case Wait =>
      var second := Parse(c, b + d);
      assert [] + second.messages == second.messages;
    case Corrupt =>
    case Frame(payload, rest) =>
      ParseInTwo(c, rest, d);
      if Parse(c, rest).clean {
        var m1, m2 := Parse(c, rest).messages, Parse(c, Parse(c, rest).rest + d).messages;
        assert ([payload] + m1) + m2 == [payload] + (m1 + m2);
      }
  }

  /**
   Any cutting: if the whole stream holds no corrupt header, pushing it in any
   pieces delivers exactly its messages and holds exactly its unfinished tail.
   */
  lemma {:induction false} AnyCutting(c: Config, buffer: seq<Byte>, pieces: seq<seq<Byte>>)
    requires ValidConfig(c) && Next(c, buffer).Wait?
    requires Parse(c, buffer + Concat(pieces)).clean
    ensures Feed(c, buffer, pieces) == Parse(c, buffer + Concat(pieces))
    decreases |pieces|
  {
    if pieces == [] {
      assert buffer + Concat(pieces) == buffer;
    } else {
      var b, d := buffer + pieces[0], Concat(pieces[1..]);
      assert buffer + Concat(pieces) == b + d;
      ParseInTwo(c, b, d);
      RestWaits(c, b);
      AnyCutting(c, Parse(c, b).rest, pieces[1..]);
    }
  }

  lemma {:induction false} RestWaits(c: Config, b: seq<Byte>)
    requires ValidConfig(c)
    ensures Next(c, Parse(c, b).rest).Wait?
    decreases |b|
  {
    if Next(c, b).Frame? {
      RestWaits(c, Next(c, b).rest);
    }
  }

  /** Whatever is pushed, corrupt or not, the buffer at rest stays below one header and one payload. */
  lemma {:induction false} BufferIsBounded(c: Config, buffer: seq<Byte>, pieces: seq<seq<Byte>>)
    requires ValidConfig(c) && |buffer| < c.prefix + c.max
    ensures |Feed(c, buffer, pieces).rest| < c.prefix + c.max
    decreases |pieces|
  {
    if pieces != [] {
      BufferIsBounded(c, Parse(c, buffer + pieces[0]).rest, pieces[1..]);
    }
  }

  // ------------------------------------------------------------------
  // Round trip
  // ------------------------------------------------------------------

  function LengthField(c: Config, n: nat): nat {
    if c.includesPrefix then n + c.prefix else n
  }

  /** The payload may be sent: within max_length and its length fits the field. */
  predicate Fits(c: Config, payload: Message) {
    |payload| <= c.max && LengthField(c, |payload|) < Power(c.prefix)
  }

  function Encode(c: Config, payload: Message): seq<Byte> {
    var digits := Digits(LengthField(c, |payload|), c.prefix);
    (if c.big then digits else Reversed(digits)) + payload
  }

  function EncodeAll(c: Config, payloads: seq<Message>): seq<Byte> {
    if payloads == [] then [] else Encode(c, payloads[0]) + EncodeAll(c, payloads[1..])
  }

  lemma NextOfEncoded(c: Config, payload: Message, more: seq<Byte>)
    requires ValidConfig(c) && Fits(c, payload)
    ensures Next(c, Encode(c, payload) + more) == Frame(payload, more)
  {
    var digits := Digits(LengthField(c, |payload|), c.prefix);
    var header := if c.big then digits else Reversed(digits);
    var buffer := Encode(c, payload) + more;
    assert buffer[..c.prefix] == header;
    assert (if c.big then header else Reversed(header)) == digits;
    BigOfDigits(LengthField(c, |payload|), c.prefix);
    var n := |payload|;
    assert buffer[c.prefix..c.prefix + n] == payload;
    assert buffer[c.prefix + n..] == more;
  }

  lemma {:induction false} ParseOfEncoded(c: Config, payloads: seq<Message>)
    requires ValidConfig(c) && forall i | 0 <= i < |payloads| :: Fits(c, payloads[i])
    ensures Parse(c, EncodeAll(c, payloads)) == Parsed(payloads, [], true)
    decreases |payloads|
  {
    if payloads != [] {
      NextOfEncoded(c, payloads[0], EncodeAll(c, payloads[1..]));
      ParseOfEncoded(c, payloads[1..]);
      assert payloads == [payloads[0]] + payloads[1..];
    }
  }

  /**
   Round trip: any list of payloads that fit, encoded and pushed in any pieces,
   comes out as exactly that list, with nothing left in the buffer.
   */
  lemma RoundTrip(c: Config, payloads: seq<Message>, pieces: seq<seq<Byte>>)
    requires ValidConfig(c) && forall i | 0 <= i < |payloads| :: Fits(c, payloads[i])
    requires Concat(pieces) == EncodeAll(c, payloads)
    ensures Feed(c, [], pieces) == Parsed(payloads, [], true)
  {
    ParseOfEncoded(c, payloads);
    assert [] + Concat(pieces) == Concat(pieces);
    AnyCutting(c, [], pieces);
  }

  // ------------------------------------------------------------------
  // The framer
  // ------------------------------------------------------------------

  class Framer {
    const config: Config
    var buffer: seq<Byte>
    var capacity: nat

    ghost predicate Valid()
      reads this
    {
      ValidConfig(config) && |buffer| <= capacity
    }

    /** The constructor throws unless the parameters are valid. */
    constructor (c: Config)
      requires ValidConfig(c)
      ensures Valid() && config == c && buffer == [] && capacity == 0
    {
      config, buffer, capacity := c, [], 0;
    }

    constructor Copy(other: Framer)
      requires other.Valid()
      ensures Valid() && config == other.config && buffer == other.buffer && capacity == |buffer|
    {
      config, buffer, capacity := other.config, other.buffer, |other.buffer|;
    }

    /** read_length: accumulate the length field at `offset`, if it is all there. */
    method ReadLength(offset: nat) returns (whole: bool, value: nat)
      requires offset <= |buffer|
      ensures whole == (|buffer| - offset >= config.prefix)
      ensures whole ==> value == Value(config, buffer[offset..][..config.prefix])
    {
      value := 0;
      whole := |buffer| - offset >= config.prefix;
      if !whole { return; }
      ghost var header := buffer[offset..][..config.prefix];
      ghost var digits := if config.big then header else Reversed(header);
      var i := 0;
      while i < config.prefix
        invariant 0 <= i <= config.prefix
        invariant value == Big(digits[..i])
      {
        var index := if config.big then offset + i else offset + (config.prefix - 1 - i);
        assert digits[..i + 1][..i] == digits[..i] && digits[..i + 1][i] == buffer[index];
        value := value * 256 + buffer[index];
        i := i + 1;
      }
      assert digits[..i] == digits;
    }

    /** One round of the loop: does a whole frame start at `consumed`, and where does it end? */
    method FrameAt(consumed: nat) returns (scan: Scan, frameEnd: nat)
      requires ValidConfig(config) && consumed <= |buffer|
      ensures scan == Next(config, buffer[consumed..])
      ensures scan.Frame? ==>
                && consumed + config.prefix <= frameEnd <= |buffer|
                && scan == Frame(buffer[consumed + config.prefix..frameEnd], buffer[frameEnd..])
    {
      hide Value;
      frameEnd := consumed;
      ghost var left := buffer[consumed..];
      var whole, declared := ReadLength(consumed);
      if !whole { return Wait, consumed; }
      var n := declared;
      if config.includesPrefix {
        if declared < config.prefix { return Corrupt, consumed; }
        n := declared - config.prefix;
      }
      if n > config.max { return Corrupt, consumed; }
      frameEnd := consumed + config.prefix + n;
      if |buffer| < frameEnd { return Wait, consumed; }
      scan := Frame(buffer[consumed + config.prefix..frameEnd], buffer[frameEnd..]);
      assert left[config.prefix..config.prefix + n] == buffer[consumed + config.prefix..frameEnd];
      assert left[config.prefix + n..] == buffer[frameEnd..];
    }

    /** push_bytes: deliver every whole frame, keep the rest; a corrupt header drops everything. */
    method PushBytes(data: seq<Byte>) returns (out: seq<Message>)
      requires Valid()
      modifies this
      ensures Valid()
      ensures out == Parse(config, old(buffer) + data).messages
      ensures buffer == Parse(config, old(buffer) + data).rest
      ensures old(|buffer|) + |data| <= old(capacity) ==> capacity == old(capacity)
    {
      hide Parse, Next;
      buffer := buffer + data;
      capacity := Enlarge(capacity, |buffer|);
      out := [];
      var consumed := 0;
      assert buffer[0..] == buffer;
      while true
        invariant buffer == old(buffer) + data && consumed <= |buffer|
        invariant capacity == Enlarge(old(capacity), |buffer|)
        invariant Parse(config, buffer).messages == out + Parse(config, buffer[consumed..]).messages
        invariant Parse(config, buffer).rest == Parse(config, buffer[consumed..]).rest
        decreases |buffer| - consumed
      {
        ParseStep(config, buffer[consumed..]);
        var scan, frameEnd := FrameAt(consumed);
        if scan.Wait? { break; }
        if scan.Corrupt? {
          buffer := [];
          return;
        }
        out := out + [buffer[consumed + config.prefix..frameEnd]];
        consumed := frameEnd;
      }
      buffer := buffer[consumed..];
    }

    method Reset()
      requires Valid()
      modifies this`buffer
      ensures Valid() && buffer == []
    {
      buffer := [];
    }
  }
}
