/** Bytes, byte streams cut into pieces, and searching them. */
module Octets {
  import opened Options

  type Byte = x: int | 0 <= x < 256

  type Message = seq<Byte>

  function Concat(pieces: seq<seq<Byte>>): seq<Byte> {
    if pieces == [] then [] else pieces[0] + Concat(pieces[1..])
  }

  predicate MatchAt(data: seq<Byte>, pattern: seq<Byte>, i: nat) {
    i + |pattern| <= |data| && data[i..i + |pattern|] == pattern
  }

  /** std::search from `from`: the first match at or after it. */
  function Find(data: seq<Byte>, pattern: seq<Byte>, from: nat): (r: Option<nat>)
    ensures r.Some? ==> from <= r.value && r.value + |pattern| <= |data|
    decreases |data| - from
  {
    if from + |pattern| > |data| then None
    else if MatchAt(data, pattern, from) then Some(from)
    else Find(data, pattern, from + 1)
  }

  /** What Find returns: a match, and the first one. */
  lemma {:induction false} FindFirst(data: seq<Byte>, pattern: seq<Byte>, from: nat)
    ensures var r := Find(data, pattern, from);
            && (r.Some? ==> MatchAt(data, pattern, r.value))
            && forall i | from <= i && (r.Some? ==> i < r.value) :: !MatchAt(data, pattern, i)
    decreases |data| - from
  {
    if from + |pattern| <= |data| && !MatchAt(data, pattern, from) {
      FindFirst(data, pattern, from + 1);
    }
  }

  /** Skipping positions without a match does not change the result. */
  lemma FindLater(data: seq<Byte>, pattern: seq<Byte>, from: nat, later: nat)
    requires from <= later && forall i | from <= i < later :: !MatchAt(data, pattern, i)
    ensures Find(data, pattern, later) == Find(data, pattern, from)
  {
    FindFirst(data, pattern, from);
    FindFirst(data, pattern, later);
  }

  /** A match inside the data is the same match after more data arrives. */
  lemma MatchInPrefix(data: seq<Byte>, more: seq<Byte>, pattern: seq<Byte>, i: nat)
    requires i + |pattern| <= |data|
    ensures MatchAt(data + more, pattern, i) == MatchAt(data, pattern, i)
  {
    assert (data + more)[i..i + |pattern|] == data[i..i + |pattern|];
  }

  /** The same position seen from the front of a suffix. */
  lemma MatchInSuffix(data: seq<Byte>, pattern: seq<Byte>, p: nat, i: nat)
    requires p <= |data|
    ensures MatchAt(data[p..], pattern, i) == MatchAt(data, pattern, p + i)
  {
    if p + i + |pattern| <= |data| {
      assert data[p..][i..i + |pattern|] == data[p + i..p + i + |pattern|];
    }
  }

  lemma FindInPrefix(data: seq<Byte>, more: seq<Byte>, pattern: seq<Byte>, from: nat)
    ensures Find(data, pattern, from).Some? ==> Find(data + more, pattern, from) == Find(data, pattern, from)
  {
    var a, b := Find(data, pattern, from), Find(data + more, pattern, from);
    FindFirst(data, pattern, from);
    FindFirst(data + more, pattern, from);
    if a.Some? {
      MatchInPrefix(data, more, pattern, a.value);
      if b.value < a.value {
        MatchInPrefix(data, more, pattern, b.value);
      }
    }
  }

  /** Searching a suffix is searching from its start. */
  lemma FindInSuffix(data: seq<Byte>, pattern: seq<Byte>, p: nat, from: nat)
    requires p <= |data|
    ensures Find(data[p..], pattern, from).Some? == Find(data, pattern, p + from).Some?
    ensures Find(data[p..], pattern, from).Some?
            ==> Find(data, pattern, p + from).value == p + Find(data[p..], pattern, from).value
  {
    var a, b := Find(data[p..], pattern, from), Find(data, pattern, p + from);
    FindFirst(data[p..], pattern, from);
    FindFirst(data, pattern, p + from);
    if a.Some? { MatchInSuffix(data, pattern, p, a.value); }
    if b.Some? { MatchInSuffix(data, pattern, p, b.value - p); }
  }

  /** With no match inside `data`, a match in data + more cannot start before its last |pattern| - 1 bytes. */
  lemma FindAcross(data: seq<Byte>, more: seq<Byte>, pattern: seq<Byte>, from: nat, resume: nat)
    requires Find(data, pattern, from).None? && from <= resume && resume + |pattern| <= |data| + 1
    ensures Find(data + more, pattern, resume) == Find(data + more, pattern, from)
  {
    FindFirst(data, pattern, from);
    forall i | from <= i < resume ensures !MatchAt(data + more, pattern, i) {
      MatchInPrefix(data, more, pattern, i);
    }
    FindLater(data + more, pattern, from, resume);
  }

  /** std::search and std::memchr. */
  method Search(data: seq<Byte>, pattern: seq<Byte>, from: nat) returns (r: Option<nat>)
    ensures r == Find(data, pattern, from)
  {
    var i := from;
    while i + |pattern| <= |data|
      invariant from <= i
      invariant Find(data, pattern, i) == Find(data, pattern, from)
      decreases |data| - i
    {
      if data[i..i + |pattern|] == pattern { return Some(i); }
      i := i + 1;
    }
    return None;
  }

  /** The capacity of a vector after it grew to `size` elements: unchanged as long as they fit. */
  function Enlarge(capacity: nat, size: nat): (r: nat)
    ensures size <= r && capacity <= r
    ensures size <= capacity ==> r == capacity
  {
    if size <= capacity then capacity else if size < 2 * capacity then 2 * capacity else size
  }
}
