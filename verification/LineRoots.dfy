/**
 Delimiters that repeat a root. When a delimiter overlaps itself only by whole
 repetitions of a root without a border, every way to read a stretch of roots
 from one of them on finds no more empty lines than reading it from the start.
 */
module LineRoots {
  import opened Options
  import opened Octets
  import opened LineFraming

  /** A proper prefix of the pattern that is also a suffix. */
  predicate Border(d: seq<Byte>, n: nat) {
    0 < n < |d| && d[..n] == d[|d| - n..]
  }

  predicate Borderless(d: seq<Byte>) {
    forall n | 0 < n < |d| :: !Border(d, n)
  }

  /** What is left of the pattern beside a border is a border too. */
  predicate Symmetric(d: seq<Byte>) {
    forall n | 0 < n < |d| && Border(d, n) :: Border(d, |d| - n)
  }

  function Power(r: seq<Byte>, k: nat): seq<Byte> {
    if k == 0 then [] else r + Power(r, k - 1)
  }

  lemma {:induction false} PowerSnoc(r: seq<Byte>, k: nat)
    ensures Power(r, k + 1) == Power(r, k) + r
  {
    if k > 0 {
      PowerSnoc(r, k - 1);
      assert r + (Power(r, k - 1) + r) == (r + Power(r, k - 1)) + r;
    } else {
      assert r + [] == [] + r;
    }
  }

  lemma {:induction false} PowerSplit(r: seq<Byte>, a: nat, b: nat)
    ensures Power(r, a + b) == Power(r, a) + Power(r, b)
  {
    if a > 0 {
      PowerSplit(r, a - 1, b);
      assert r + (Power(r, a - 1) + Power(r, b)) == (r + Power(r, a - 1)) + Power(r, b);
    } else {
      assert [] + Power(r, b) == Power(r, b);
    }
  }

  // ------------------------------------------------------------------
  // A symmetric pattern is a power of a root without a border
  // ------------------------------------------------------------------

  lemma {:induction false} LargestBorder(d: seq<Byte>, below: nat) returns (n: nat)
    requires below <= |d| && exists m :: 0 < m < below && Border(d, m)
    ensures n < below && Border(d, n) && forall m | n < m < below :: !Border(d, m)
    decreases below
  {
    if Border(d, below - 1) {
      n := below - 1;
    } else {
      n := LargestBorder(d, below - 1);
    }
  }

  /** A border leaves a period, whose multiples leave borders. */
  lemma {:induction false} PeriodBorders(d: seq<Byte>, p: nat, k: nat)
    requires 0 < p < |d| && Border(d, |d| - p) && 0 < k && k * p < |d|
    ensures Border(d, |d| - k * p)
    decreases k
  {
    if k > 1 {
      var j := (k - 1) * p;
      assert k * p == j + p;
      PeriodBorders(d, p, k - 1);
      assert d[..|d| - p] == d[p..] && d[..|d| - j] == d[j..];
      assert d[j + p..] == d[p..][j..] == d[..|d| - p][j..];
      assert d[..|d| - p][j..] == d[j..][..|d| - p - j] == d[..|d| - j][..|d| - p - j];
      assert d[..|d| - j][..|d| - p - j] == d[..|d| - p - j];
    }
  }

  lemma PeriodGoesOn(d: seq<Byte>, p: nat)
    requires 0 < p && 2 * p <= |d| && d[p..] == d[..|d| - p]
    ensures d[p..][p..] == d[p..][..|d[p..]| - p] && d[p..][..p] == d[..p]
  {
    var e := d[p..];
    assert e[p..] == d[..|d| - p][p..] == d[p..][..|d| - 2 * p];
    assert e[..p] == d[..|d| - p][..p];
  }

  lemma {:induction false} PeriodIsPower(d: seq<Byte>, p: nat, q: nat)
    requires 0 < p && 0 < q && |d| == q * p && p <= |d| && d[p..] == d[..|d| - p]
    ensures d == Power(d[..p], q)
    decreases q
  {
    var r := d[..p];
    assert d == r + d[p..];
    if q == 1 {
      assert d[p..] == [];
    } else {
      MulStep(q, p);
      MulStep(q - 1, p);
      PeriodGoesOn(d, p);
      PeriodIsPower(d[p..], p, q - 1);
    }
  }

  lemma MulStep(q: nat, p: nat)
    requires q >= 1
    ensures q * p == (q - 1) * p + p
  {
  }

  /** How many whole periods fit in front of the last one. */
  lemma LastPeriod(n: nat, p: nat) returns (k: nat)
    requires 0 < p < n
    ensures 0 < k && k * p < n <= k * p + p
  {
    k := (n - 1) / p;
    assert n - 1 == k * p + (n - 1) % p;
  }

  /** With n the largest border, no border is shorter than what n leaves. */
  lemma NoShortBorder(d: seq<Byte>, n: nat, s: nat)
    requires Symmetric(d) && Border(d, n) && (forall m | n < m < |d| :: !Border(d, m)) && Border(d, s)
    ensures s >= |d| - n
  {
    assert Border(d, |d| - s);
  }

  lemma RootOf(d: seq<Byte>) returns (r: seq<Byte>, q: nat)
    requires d != [] && Symmetric(d)
    ensures r != [] && q >= 1 && Borderless(r) && d == Power(r, q)
  {
    if Borderless(d) {
      r, q := d, 1;
      assert Power(d, 1) == d + Power(d, 0) == d;
    } else {
      var n := LargestBorder(d, |d|);
      var p := |d| - n;
      var k := LastPeriod(|d|, p);
      PeriodBorders(d, p, k);
      NoShortBorder(d, n, |d| - k * p);
      r, q := d[..p], k + 1;
      MulStep(q, p);
      PeriodIsPower(d, p, q);
      RootHasNoBorder(d, n);
    }
  }

  /** A border of a border is a border. */
  lemma BorderOfBorder(d: seq<Byte>, p: nat, b: nat)
    requires Border(d, p) && Border(d[..p], b)
    ensures Border(d, b)
  {
    var r := d[..p];
    assert r == d[|d| - p..];
    assert d[..b] == r[..b] && r[p - b..] == d[|d| - b..];
  }

  lemma RootHasNoBorder(d: seq<Byte>, n: nat)
    requires Symmetric(d) && Border(d, n) && forall m | n < m < |d| :: !Border(d, m)
    ensures Borderless(d[..|d| - n])
  {
    hide Border;
    var p := |d| - n;
    BorderLength(d, n);
    assert Border(d, p);
    forall b | 0 < b < |d[..p]| ensures !Border(d[..p], b) {
      if Border(d[..p], b) {
        BorderOfBorder(d, p, b);
        NoShortBorder(d, n, b);
      }
    }
  }

  lemma BorderLength(d: seq<Byte>, n: nat)
    requires Border(d, n)
    ensures 0 < n < |d|
  {
  }

  // ------------------------------------------------------------------
  // Where a power can occur
  // ------------------------------------------------------------------

  /** Overlapping occurrences make a border. */
  lemma Overlap(x: seq<Byte>, d: seq<Byte>, i: nat, p: nat)
    requires MatchAt(x, d, i) && MatchAt(x, d, p) && i < p < i + |d|
    ensures Border(d, i + |d| - p)
  {
    assert d[..i + |d| - p] == x[p..i + |d|] && d[p - i..] == x[p..i + |d|];
  }

  lemma NoOverlap(x: seq<Byte>, d: seq<Byte>, i: nat, p: nat)
    requires Borderless(d) && MatchAt(x, d, i) && MatchAt(x, d, p) && i < p
    ensures i + |d| <= p
  {
    if p < i + |d| {
      Overlap(x, d, i, p);
    }
  }

  lemma PowerLonger(r: seq<Byte>, a: nat, b: nat)
    requires a <= b
    ensures |Power(r, a)| <= |Power(r, b)|
    ensures a < b ==> |Power(r, a)| + |r| <= |Power(r, b)|
  {
    PowerSplit(r, a, b - a);
  }

  /** Every root of an occurring power occurs. */
  lemma RootOccurs(x: seq<Byte>, r: seq<Byte>, q: nat, i: nat, a: nat)
    requires MatchAt(x, Power(r, q), i) && a < q
    ensures MatchAt(x, r, i + |Power(r, a)|)
  {
    hide Power, MatchAt;
    PowerSplit(r, a, q - a);
    PowerCons(r, q - a - 1);
    FrontBehind(Power(r, a), r, Power(r, q - a - 1));
    SliceOf(x, Power(r, q), i, |Power(r, a)|, r);
  }

  lemma PowerCons(r: seq<Byte>, k: nat)
    ensures Power(r, k + 1) == r + Power(r, k)
  {
  }

  lemma FrontBehind(a: seq<Byte>, r: seq<Byte>, b: seq<Byte>)
    ensures var d := a + (r + b); |a| <= |d| && r <= d[|a|..]
  {
    assert (a + (r + b))[|a|..] == r + b;
  }

  lemma SliceOf(x: seq<Byte>, d: seq<Byte>, i: nat, n: nat, r: seq<Byte>)
    requires MatchAt(x, d, i) && n <= |d| && r <= d[n..]
    ensures MatchAt(x, r, i + n)
  {
    var y, e := x[i..i + |d|], d[n..];
    assert forall k | 0 <= k < |r| :: r[k] == e[k] == d[n + k] == y[n + k] == x[i + n + k];
  }

  /** Which root of a power a position falls in. */
  lemma {:induction false} RootAt(r: seq<Byte>, q: nat, n: nat) returns (a: nat)
    requires n < |Power(r, q)|
    ensures a < q && |Power(r, a)| <= n < |Power(r, a)| + |r|
    decreases q
  {
    PowerSnoc(r, q - 1);
    if n >= |Power(r, q - 1)| {
      a := q - 1;
    } else {
      a := RootAt(r, q - 1, n);
    }
  }

  /** An occurrence of the root inside the power is one of its roots. */
  lemma OverlapsByRoots(x: seq<Byte>, r: seq<Byte>, q: nat, i: nat, p: nat) returns (a: nat)
    requires r != [] && Borderless(r) && MatchAt(x, Power(r, q), i) && i <= p < i + |Power(r, q)| && MatchAt(x, r, p)
    ensures a < q && p == i + |Power(r, a)|
  {
    hide Power, MatchAt;
    a := RootAt(r, q, p - i);
    RootOccurs(x, r, q, i, a);
    if i + |Power(r, a)| < p {
      NoOverlap(x, r, i + |Power(r, a)|, p);
    }
  }

  /** Behind fewer than q roots, the power occurs only further on. */
  lemma NoEarlyMatch(r: seq<Byte>, q: nat, m: nat, z: seq<Byte>, i: nat)
    requires r != [] && Borderless(r) && m < q && !(r <= z) && i <= |Power(r, m)|
    ensures !MatchAt(Power(r, m) + z, Power(r, q), i)
  {
    hide Power, MatchAt;
    var x, n := Power(r, m) + z, |Power(r, m)|;
    BehindRoots(r, m, z);
    if MatchAt(x, Power(r, q), i) {
      if i == n {
        FirstRoot(x, r, q, i);
      } else {
        var k := MatchInRoots(r, q, m, z, i);
        RootOccurs(x, r, q, i, m - k);
        PowerSplit(r, k, m - k);
      }
    }
  }

  lemma FirstRoot(x: seq<Byte>, r: seq<Byte>, q: nat, i: nat)
    requires MatchAt(x, Power(r, q), i) && 0 < q
    ensures MatchAt(x, r, i)
  {
    RootOccurs(x, r, q, i, 0);
  }

  /** Behind the roots stands the rest. */
  lemma BehindRoots(r: seq<Byte>, m: nat, z: seq<Byte>)
    ensures MatchAt(Power(r, m) + z, r, |Power(r, m)|) ==> r <= z
    ensures MatchAt(Power(r, m) + z, Power(r, m), 0)
  {
    var x, n := Power(r, m) + z, |Power(r, m)|;
    assert x[0..0 + n] == Power(r, m);
    assert n + |r| <= |x| ==> x[n..n + |r|] == z[..|r|];
  }

  /** An occurrence of the power that begins inside the roots begins with one of them. */
  lemma MatchInRoots(r: seq<Byte>, q: nat, m: nat, z: seq<Byte>, i: nat) returns (k: nat)
    requires r != [] && Borderless(r) && 0 < q && i < |Power(r, m)| && MatchAt(Power(r, m) + z, Power(r, q), i)
    ensures k < m && i == |Power(r, k)|
  {
    hide Power, MatchAt;
    var x := Power(r, m) + z;
    FirstRoot(x, r, q, i);
    BehindRoots(r, m, z);
    k := OverlapsByRoots(x, r, m, 0, i);
  }

  // ------------------------------------------------------------------
  // Reading roots
  // ------------------------------------------------------------------

  /** The delimiter is a power of a root without a border. */
  predicate Rooted(c: Config, r: seq<Byte>, q: nat) {
    r != [] && q >= 1 && Borderless(r) && c.delimiter == Power(r, q)
  }

  function Empties(lines: seq<Message>): nat {
    if lines == [] then 0 else (if lines[0] == [] then 1 else 0) + Empties(lines[1..])
  }

  lemma {:induction false} EmptiesConcat(a: seq<Message>, b: seq<Message>)
    ensures Empties(a + b) == Empties(a) + Empties(b)
  {
    if a == [] {
      assert a + b == b;
    } else {
      assert (a + b)[1..] == a[1..] + b;
      EmptiesConcat(a[1..], b);
    }
  }

  /** One more root behind m of them completes the delimiter or not. */
  lemma TokenStep(c: Config, r: seq<Byte>, q: nat, m: nat, z: seq<Byte>)
    requires ValidConfig(c) && Rooted(c, r, q) && m < q
    ensures m + 1 < q ==> Power(r, m) + (r + z) == Power(r, m + 1) + z
    ensures m + 1 == q ==>
              var split, rest := Lines(c, Power(r, m) + (r + z)), Lines(c, z);
              split.tail == rest.tail && Empties(split.lines) == 1 + Empties(rest.lines)
  {
    hide Power, Find;
    PowerSnoc(r, m);
    var x := Power(r, m) + (r + z);
    assert x == Power(r, m + 1) + z;
    if m + 1 == q {
      var d := c.delimiter;
      assert x[0..0 + |d|] == d && x[|d|..] == z;
      FindAtFront(x, d);
      var rest := Lines(c, z);
      assert Lines(c, x).lines == [x[..0]] + rest.lines;
      assert ([x[..0]] + rest.lines)[1..] == rest.lines;
    }
  }

  lemma FindAtFront(x: seq<Byte>, d: seq<Byte>)
    requires |d| <= |x| && x[0..0 + |d|] == d
    ensures Find(x, d, 0) == Some(0)
  {
  }

  /** Behind m roots and something else, the delimiter is where it is without the roots. */
  lemma FindBehindRoots(c: Config, r: seq<Byte>, q: nat, m: nat, z: seq<Byte>)
    requires ValidConfig(c) && Rooted(c, r, q) && m < q && !(r <= z)
    ensures var x, n := Power(r, m) + z, |Power(r, m)|;
            var f, g := Find(x, c.delimiter, 0), Find(z, c.delimiter, 0);
            f.Some? == g.Some? && (g.Some? ==> g.value >= 1 && f.value == n + g.value)
  {
    hide Power, Find;
    var x, n := Power(r, m) + z, |Power(r, m)|;
    forall i | 0 <= i < n + 1 ensures !MatchAt(x, c.delimiter, i) {
      NoEarlyMatch(r, q, m, z, i);
    }
    FindLater(x, c.delimiter, 0, n + 1);
    FindLater(x, c.delimiter, n, n + 1);
    assert x[n..] == z;
    FindInSuffix(x, c.delimiter, n, 0);
    if Find(z, c.delimiter, 0) == Some(0) {
      FindFirst(z, c.delimiter, 0);
      MatchInSuffix(x, c.delimiter, n, 0);
    }
  }

  /** After something else, how many roots came before it no longer matters. */
  lemma BreakStep(c: Config, r: seq<Byte>, q: nat, m: nat, z: seq<Byte>)
    requires ValidConfig(c) && Rooted(c, r, q) && m < q && !(r <= z)
    ensures var split, g := Lines(c, Power(r, m) + z), Find(z, c.delimiter, 0);
            if g.None? then split == Split([], Power(r, m) + z)
            else
              var rest := Lines(c, z[g.value + |c.delimiter|..]);
              split.tail == rest.tail && Empties(split.lines) == Empties(rest.lines)
  {
    hide Power, Find, Lines, Empties;
    FindBehindRoots(c, r, q, m, z);
    var x, g := Power(r, m) + z, Find(z, c.delimiter, 0);
    if g.Some? {
      var j := |Power(r, m)| + g.value;
      assert x[j + |c.delimiter|..] == z[g.value + |c.delimiter|..];
      LinesStep(c, x);
      EmptiesCons(x[..j], Lines(c, z[g.value + |c.delimiter|..]).lines);
    } else {
      LinesStep(c, x);
    }
  }

  lemma EmptiesCons(line: Message, lines: seq<Message>)
    ensures Empties([line] + lines) == (if line == [] then 1 else 0) + Empties(lines)
  {
    assert ([line] + lines)[1..] == lines;
  }

  /** Two readings of the same bytes: e empty lines and m roots begun, against f and k. */
  predicate Behind(q: nat, e: nat, m: nat, f: nat, k: nat) {
    m < q && k < q && q * f + k <= q * e + m
  }

  lemma MulMono(n: nat, a: nat, b: nat)
    ensures a <= b ==> n * a <= n * b
  {
  }

  lemma BehindCounts(q: nat, e: nat, m: nat, f: nat, k: nat)
    requires Behind(q, e, m, f, k)
    ensures f <= e
  {
    MulMono(q, e + 1, f);
    assert q * (e + 1) == q * e + q;
  }

  lemma BehindToken(q: nat, e: nat, m: nat, f: nat, k: nat)
    requires Behind(q, e, m, f, k)
    ensures var (e', m') := if m + 1 < q then (e, m + 1) else (e + 1, 0);
            var (f', k') := if k + 1 < q then (f, k + 1) else (f + 1, 0);
            Behind(q, e', m', f', k')
  {
    assert q * (e + 1) == q * e + q && q * (f + 1) == q * f + q;
  }

  lemma BehindMore(q: nat, e: nat, f: nat, n: nat)
    requires q >= 1 && f <= e
    ensures Behind(q, e + n, 0, f + n, 0)
  {
    assert q * (f + n) <= q * (e + n);
  }

  /** How two readings of z go on behind m and behind k roots. */
  datatype Reading = Reading(m: nat, k: nat, rest: seq<Byte>)

  ghost predicate Reads(c: Config, r: seq<Byte>, q: nat, e: nat, x: seq<Byte>, f: nat, y: seq<Byte>, w: Reading)
    requires ValidConfig(c)
  {
    var all, part := Lines(c, x), Lines(c, y);
    && all.tail == Power(r, w.m) + w.rest && part.tail == Power(r, w.k) + w.rest
    && Behind(q, e + Empties(all.lines), w.m, f + Empties(part.lines), w.k)
  }

  /** The reading that is behind stays behind. */
  lemma {:induction false} StaysBehind(c: Config, r: seq<Byte>, q: nat, e: nat, m: nat, f: nat, k: nat, z: seq<Byte>)
    returns (w: Reading)
    requires ValidConfig(c) && Rooted(c, r, q) && Behind(q, e, m, f, k)
    ensures Reads(c, r, q, e, Power(r, m) + z, f, Power(r, k) + z, w)
    decreases |z|
  {
    hide Power, Find, Lines, Behind, Empties;
    BehindRange(q, e, m, f, k);
    if r <= z {
      var z' := z[|r|..];
      assert z == r + z';
      BehindToken(q, e, m, f, k);
      TokenStep(c, r, q, m, z');
      TokenStep(c, r, q, k, z');
      NoRoots(r, z');
      var e', m' := if m + 1 < q then e else e + 1, if m + 1 < q then m + 1 else 0;
      var f', k' := if k + 1 < q then f else f + 1, if k + 1 < q then k + 1 else 0;
      w := StaysBehind(c, r, q, e', m', f', k', z');
    } else {
      w := ReadsBroken(c, r, q, e, m, f, k, z);
    }
  }

  lemma BehindRange(q: nat, e: nat, m: nat, f: nat, k: nat)
    requires Behind(q, e, m, f, k)
    ensures m < q && k < q
  {
  }

  lemma NoRoots(r: seq<Byte>, z: seq<Byte>)
    ensures Power(r, 0) + z == z
  {
  }

  lemma ReadsBroken(c: Config, r: seq<Byte>, q: nat, e: nat, m: nat, f: nat, k: nat, z: seq<Byte>) returns (w: Reading)
    requires ValidConfig(c) && Rooted(c, r, q) && Behind(q, e, m, f, k) && !(r <= z)
    ensures Reads(c, r, q, e, Power(r, m) + z, f, Power(r, k) + z, w)
  {
    hide Power, Find, Lines, Behind;
    BehindRange(q, e, m, f, k);
    BreakStep(c, r, q, m, z);
    BreakStep(c, r, q, k, z);
    var g := Find(z, c.delimiter, 0);
    if g.None? {
      w := Reading(m, k, z);
    } else {
      var rest := Lines(c, z[g.value + |c.delimiter|..]);
      NoRoots(r, rest.tail);
      BehindCounts(q, e, m, f, k);
      BehindMore(q, e, f, Empties(rest.lines));
      w := Reading(0, 0, rest.tail);
    }
  }

  /** Behind any occurrence of the delimiter, fewer than q roots are begun. */
  lemma OccurrenceEndsRoots(c: Config, r: seq<Byte>, q: nat, x: seq<Byte>, p: nat) returns (m: nat)
    requires ValidConfig(c) && Rooted(c, r, q) && MatchAt(x, c.delimiter, p)
    ensures m < q && Lines(c, x[..p + |c.delimiter|]).tail == Power(r, m)
  {
    hide Power, Find, MatchAt, Lines;
    var d := c.delimiter;
    MatchMeans(x, d, p);
    var u := x[..p];
    assert x[..p + |d|] == u + d;
    LinesInTwo(c, u, d);
    TailHasNoDelimiter(c, u);
    m := DelimiterBehind(c, r, q, Lines(c, u).tail);
  }

  lemma MatchMeans(x: seq<Byte>, d: seq<Byte>, p: nat)
    requires MatchAt(x, d, p)
    ensures p + |d| <= |x| && x[p..p + |d|] == d
  {
  }

  lemma DelimiterBehind(c: Config, r: seq<Byte>, q: nat, t: seq<Byte>) returns (m: nat)
    requires ValidConfig(c) && Rooted(c, r, q) && Find(t, c.delimiter, 0).None?
    ensures m < q && Lines(c, t + c.delimiter).tail == Power(r, m)
  {
    hide Power, Find;
    var d, x := c.delimiter, t + c.delimiter;
    FindFirst(x, d, 0);
    FindFirst(t, d, 0);
    assert x[|t|..|t| + |d|] == d;
    assert MatchAt(x, d, |t|);
    var i := Find(x, d, 0).value;
    if i + |d| <= |t| {
      MatchInPrefix(t, d, d, i);
    }
    FirstRoot(x, r, q, |t|);
    m := OverlapsByRoots(x, r, q, i, |t|);
    PowerSplit(r, q - m, m);
    PowerSplit(r, m, q - m);
    var rest := x[i + |d|..];
    assert |rest| == |Power(r, m)|;
    assert rest == d[|d| - |rest|..] == Power(r, m);
    ShortHasNone(c, r, q, m);
  }

  /** Fewer than q roots hold no delimiter. */
  lemma ShortHasNone(c: Config, r: seq<Byte>, q: nat, m: nat)
    requires ValidConfig(c) && Rooted(c, r, q) && m < q
    ensures Lines(c, Power(r, m)) == Split([], Power(r, m))
  {
    PowerLonger(r, m, q);
  }
}
