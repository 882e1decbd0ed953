/** Weighted round-robin seen from one kind of request when the counter is shared: its picks are
    made at every `d`-th value of the counter, and the exact condition under which their shares
    still follow the weights. */
module StridedPicks {
  import opened Common
  import opened WeightedRoundRobin

  /** How many of `n` picks made with counter values `start`, `start + d`, `start + 2d`, ...
      choose `host`. */
  function Strided(ring: seq<nat>, start: nat, d: nat, n: nat, host: nat): nat
    requires ring != []
    decreases n
  {
    if n == 0 then 0 else Bit(ring[start % |ring|] == host) + Strided(ring, start + d, d, n - 1, host)
  }

  // ---- greatest common divisors --------------------------------------------

  function Gcd(a: nat, b: nat): nat
    decreases b
  {
    if b == 0 then a else Gcd(b, a % b)
  }

  lemma GcdStep(a: nat, b: nat)
    requires b > 0
    ensures Gcd(a, b) == Gcd(b, a % b) && Gcd(a, 0) == a
  {
  }

  lemma {:induction false} Bezout(a: nat, b: nat) returns (m: nat, n: nat, x: int, y: int)
    ensures a == m * Gcd(a, b) && b == n * Gcd(a, b) && Gcd(a, b) == x * a + y * b
    decreases b
  {
    if b == 0 {
      m, n, x, y := 1, 0, 1, 0;
    } else {
      var q, r := a / b, a % b;
      GcdStep(a, b);
      Division(a, b);
      hide Gcd;
      var m1, n1, x1, y1 := Bezout(b, r);
      m, n, x, y := q * m1 + n1, m1, y1, x1 - y1 * q;
      BackSubstitute(a, b, q, r, Gcd(b, r), m1, n1, x1, y1);
    }
  }

  lemma BackSubstitute(a: nat, b: nat, q: nat, r: nat, g: nat, m: nat, n: nat, x: int, y: int)
    requires a == q * b + r && b == m * g && r == n * g && g == x * b + y * r
    ensures a == (q * m + n) * g && g == y * a + (x - y * q) * b
  {
    assert q * (m * g) == q * m * g;
    assert y * (q * b) == y * q * b;
  }

  lemma GcdPositive(a: nat, b: nat)
    requires a > 0 || b > 0
    ensures Gcd(a, b) > 0
  {
    var m, n, x, y := Bezout(a, b);
    assert Gcd(a, b) == 0 ==> m * Gcd(a, b) == 0 && n * Gcd(a, b) == 0;
  }

  /** Gcd is what it is called: a common divisor that every common divisor divides. */
  lemma GcdIsGreatest(a: nat, b: nat, c: nat)
    requires a > 0 || b > 0
    ensures Gcd(a, b) > 0 && a % Gcd(a, b) == 0 && b % Gcd(a, b) == 0
    ensures c > 0 && a % c == 0 && b % c == 0 ==> Gcd(a, b) % c == 0
  {
    hide Gcd;
    GcdPositive(a, b);
    var m, n, x, y := Bezout(a, b);
    MultipleModulo(m, Gcd(a, b));
    MultipleModulo(n, Gcd(a, b));
    if c > 0 && a % c == 0 && b % c == 0 {
      CommonDivisor(a, b, c, x, y);
    }
  }

  lemma CommonDivisor(a: nat, b: nat, c: nat, x: int, y: int)
    requires c > 0 && a % c == 0 && b % c == 0 && x * a + y * b >= 0
    ensures (x * a + y * b) % c == 0
  {
    var u, v := a / c, b / c;
    var q := x * u + y * v;
    Division(a, c);
    Division(b, c);
    assert x * (u * c) == x * u * c && y * (v * c) == y * v * c;
    assert q * c == x * u * c + y * v * c;
    NegativeProduct(q, c);
    MultipleModulo(q, c);
  }

  lemma {:induction false} NegativeProduct(q: int, c: nat)
    requires c > 0
    ensures q < 0 ==> q * c < 0
    decreases -q
  {
    if q < 0 {
      assert q * c == (q + 1) * c - c;
      NegativeProduct(q + 1, c);
    }
  }

  lemma MultipleModulo(q: nat, d: nat)
    requires d > 0
    ensures q * d % d == 0
  {
    RemainderIs(q * d, d, q, 0);
  }

  // ---- what a stride shares with its shifts --------------------------------

  lemma StridedFirst(ring: seq<nat>, start: nat, d: nat, n: nat, host: nat)
    requires ring != []
    ensures Strided(ring, start, d, n, host)
            == if n == 0 then 0 else Bit(ring[start % |ring|] == host) + Strided(ring, start + d, d, n - 1, host)
  {
  }

  lemma {:induction false} StridedLast(ring: seq<nat>, start: nat, d: nat, n: nat, host: nat)
    requires ring != []
    ensures Strided(ring, start, d, n + 1, host)
            == Strided(ring, start, d, n, host) + Bit(ring[(start + n * d) % |ring|] == host)
    decreases n
  {
    if n > 0 {
      StridedLast(ring, start + d, d, n - 1, host);
      assert start + d + (n - 1) * d == start + n * d by {
        assert (n - 1) * d + d == n * d;
      }
    }
  }

  lemma SameRemainder(start: nat, c: nat, w: nat)
    requires w > 0
    ensures (start + c * w) % w == start % w
  {
    var q := start / w;
    assert start + c * w == w * (q + c) + start % w;
    RemainderIs(start + c * w, w, q + c, start % w);
  }

  /** A stride that comes back to where it started may start one step later. */
  lemma ShiftByStride(ring: seq<nat>, start: nat, d: nat, n: nat, c: nat, host: nat)
    requires ring != [] && n * d == c * |ring|
    ensures Strided(ring, start + d, d, n, host) == Strided(ring, start, d, n, host)
  {
    StridedLast(ring, start, d, n, host);
    SameRemainder(start, c, |ring|);
  }

  lemma {:induction false} ShiftByRing(ring: seq<nat>, start: nat, d: nat, n: nat, c: nat, host: nat)
    requires ring != []
    ensures Strided(ring, start + c * |ring|, d, n, host) == Strided(ring, start, d, n, host)
    decreases n
  {
    if n > 0 {
      ShiftByRing(ring, start + d, d, n - 1, c, host);
      SameRemainder(start, c, |ring|);
      assert start + c * |ring| + d == start + d + c * |ring|;
    }
  }

  lemma {:induction false} ShiftByStrides(ring: seq<nat>, start: nat, d: nat, n: nat, c: nat, host: nat, k: nat)
    requires ring != [] && n * d == c * |ring|
    ensures Strided(ring, start + k * d, d, n, host) == Strided(ring, start, d, n, host)
    decreases k
  {
    if k > 0 {
      ShiftByStrides(ring, start, d, n, c, host, k - 1);
      ShiftByStride(ring, start + (k - 1) * d, d, n, c, host);
      assert (k - 1) * d + d == k * d;
    }
  }

  /** A whole cycle of strides may start one common divisor later. */
  lemma ShiftByGcd(ring: seq<nat>, start: nat, d: nat, host: nat)
    requires ring != []
    ensures var w := |ring|; Strided(ring, start + Gcd(d, w), d, w, host) == Strided(ring, start, d, w, host)
  {
    var w := |ring|;
    var m, n, x, y := Bezout(d, w);
    var a, b := NonNegative(d, w, x, y);
    assert w * d == d * w;
    ShiftByStrides(ring, start, d, w, d, host, a);
    if b >= 0 {
      ShiftByRing(ring, start + a * d, d, w, b, host);
    } else {
      ShiftByRing(ring, start + Gcd(d, w), d, w, -b, host);
      assert (-b) * w == -(b * w);
      assert start + Gcd(d, w) + (-b) * w == start + a * d;
    }
  }

  lemma NonNegative(d: nat, w: nat, x: int, y: int) returns (a: nat, b: int)
    requires w > 0
    ensures a * d + b * w == x * d + y * w
  {
    var k := if x < 0 then -x else 0;
    assert k * w >= k;
    a, b := x + k * w, y - k * d;
    assert (x + k * w) * d == x * d + k * w * d && (y - k * d) * w == y * w - k * d * w;
    assert k * w * d == k * d * w;
  }

  // ---- double counting -----------------------------------------------------

  /** The picks of `n` strides, begun at `start`, `start + e`, `start + 2e`, ... */
  function Rows(ring: seq<nat>, start: nat, e: nat, n: nat, d: nat, k: nat, host: nat): nat
    requires ring != []
    decreases n
  {
    if n == 0 then 0 else Strided(ring, start, d, k, host) + Rows(ring, start + e, e, n - 1, d, k, host)
  }

  lemma {:induction false} RowsEmpty(ring: seq<nat>, start: nat, e: nat, n: nat, d: nat, host: nat)
    requires ring != []
    ensures Rows(ring, start, e, n, d, 0, host) == 0
    decreases n
  {
    if n > 0 {
      RowsEmpty(ring, start + e, e, n - 1, d, host);
    }
  }

  lemma {:induction false} FirstColumn(ring: seq<nat>, start: nat, e: nat, n: nat, d: nat, k: nat, host: nat)
    requires ring != [] && k > 0
    ensures Rows(ring, start, e, n, d, k, host) == Strided(ring, start, e, n, host) + Rows(ring, start + d, e, n, d, k - 1, host)
    decreases n
  {
    if n > 0 {
      FirstColumn(ring, start + e, e, n - 1, d, k, host);
      assert start + e + d == start + d + e;
    }
  }

  lemma {:induction false} RowsAreColumns(ring: seq<nat>, start: nat, e: nat, n: nat, d: nat, k: nat, host: nat)
    requires ring != []
    ensures Rows(ring, start, e, n, d, k, host) == Rows(ring, start, d, k, e, n, host)
    decreases k
  {
    if k == 0 {
      RowsEmpty(ring, start, e, n, d, host);
    } else {
      FirstColumn(ring, start, e, n, d, k, host);
      RowsAreColumns(ring, start + d, e, n, d, k - 1, host);
    }
  }

  lemma {:induction false} EqualRows(ring: seq<nat>, start: nat, e: nat, n: nat, d: nat, k: nat, host: nat)
    requires ring != []
    requires forall s: nat :: Strided(ring, s + e, d, k, host) == Strided(ring, s, d, k, host)
    ensures Rows(ring, start, e, n, d, k, host) == n * Strided(ring, start, d, k, host)
    decreases n
  {
    if n > 0 {
      EqualRows(ring, start + e, e, n - 1, d, k, host);
      OneMore(n - 1, Strided(ring, start, d, k, host));
    }
  }

  lemma {:induction false} CancelFactor(n: nat, a: nat, b: nat)
    requires n > 0 && n * a == n * b
    ensures a == b
  {
    ProductGap(n, a, b);
    ProductGap(n, b, a);
  }

  /** As many picks with stride `d` as the ring is long are `g` rounds with stride `g`, the
      greatest common divisor. */
  lemma StrideIsRounds(ring: seq<nat>, start: nat, d: nat, n: nat, host: nat)
    requires ring != [] && |ring| == n * Gcd(d, |ring|)
    ensures Strided(ring, start, d, |ring|, host) == Gcd(d, |ring|) * Strided(ring, start, Gcd(d, |ring|), n, host)
  {
    hide Strided, Rows, Gcd;
    var w, g := |ring|, Gcd(d, |ring|);
    var m, n1, x, y := Bezout(d, w);
    var f, s := Strided(ring, start, d, w, host), Strided(ring, start, g, n, host);
    assert Rows(ring, start, g, n, d, w, host) == n * f by {
      forall u: nat ensures Strided(ring, u + g, d, w, host) == Strided(ring, u, d, w, host) {
        ShiftByGcd(ring, u, d, host);
      }
      EqualRows(ring, start, g, n, d, w, host);
    }
    assert Rows(ring, start, d, w, g, n, host) == w * s by {
      forall u: nat ensures Strided(ring, u + d, g, n, host) == Strided(ring, u, g, n, host) {
        ShiftByStrides(ring, u, g, n, 1, host, m);
      }
      EqualRows(ring, start, d, w, g, n, host);
    }
    RowsAreColumns(ring, start, g, n, d, w, host);
    assert n * g * s == n * (g * s);
    CancelFactor(n, f, g * s);
  }

  // ---- a block of the ring -------------------------------------------------

  /** Where the block of candidate `i` begins in the expanded list. */
  function Offset(cs: seq<Candidate>, i: nat): nat
    requires i < |cs|
  {
    if i == 0 then 0 else cs[0].weight + Offset(cs[1..], i - 1)
  }

  /** The places of a candidate in the expanded list are one stretch, as long as its weight. */
  lemma {:induction false} BlockOf(cs: seq<Candidate>, i: nat, x: nat)
    requires DistinctHosts(cs) && i < |cs| && x < |Expand(cs)|
    ensures Offset(cs, i) + cs[i].weight <= |Expand(cs)|
    ensures Expand(cs)[x] == cs[i].host <==> Offset(cs, i) <= x < Offset(cs, i) + cs[i].weight
  {
    var w := cs[0].weight;
    BlockFits(cs, i);
    if x >= w {
      assert Expand(cs)[x] == Expand(cs[1..])[x - w];
      if i == 0 {
        var j := ExpandMembers(cs[1..], x - w);
        assert cs[j + 1].host != cs[0].host;
      } else {
        BlockOf(cs[1..], i - 1, x - w);
      }
    } else {
      assert Expand(cs)[x] == cs[0].host;
    }
  }

  lemma {:induction false} BlockFits(cs: seq<Candidate>, i: nat)
    requires i < |cs|
    ensures Offset(cs, i) + cs[i].weight <= |Expand(cs)|
  {
    if i > 0 {
      BlockFits(cs[1..], i - 1);
    }
  }

  /** How many of the `n` numbers `r`, `r + g`, `r + 2g`, ... lie in `[from, until)`. */
  function InStretch(r: nat, g: nat, n: nat, from: nat, until: nat): nat
    decreases n
  {
    if n == 0 then 0 else Bit(from <= r < until) + InStretch(r + g, g, n - 1, from, until)
  }

  lemma {:induction false} InStretchNone(r: nat, g: nat, n: nat, from: nat, until: nat)
    requires until <= r || until <= from
    ensures InStretch(r, g, n, from, until) == 0
    decreases n
  {
    if n > 0 {
      InStretchNone(r + g, g, n - 1, from, until);
    }
  }

  lemma {:induction false} InStretchSplit(r: nat, g: nat, n: nat, from: nat, mid: nat, until: nat)
    requires from <= mid <= until
    ensures InStretch(r, g, n, from, until) == InStretch(r, g, n, from, mid) + InStretch(r, g, n, mid, until)
    decreases n
  {
    if n > 0 {
      InStretchSplit(r + g, g, n - 1, from, mid, until);
    }
  }

  /** A stretch as long as the stride holds exactly one of them. */
  lemma {:induction false} InStretchOne(r: nat, g: nat, n: nat, from: nat)
    requires g > 0 && r < from + g && r + n * g >= from + g
    ensures InStretch(r, g, n, from, from + g) == 1
    decreases n
  {
    if n == 0 {
      assert false;
    }
    if r < from {
      OneMore(n - 1, g);
      InStretchOne(r + g, g, n - 1, from);
    } else {
      InStretchNone(r + g, g, n - 1, from, from + g);
    }
  }

  lemma {:induction false} InStretchMany(r: nat, g: nat, n: nat, from: nat, q: nat)
    requires g > 0 && r < g && r + n * g >= from + q * g
    ensures InStretch(r, g, n, from, from + q * g) == q
    decreases q
  {
    if q == 0 {
      InStretchNone(r, g, n, from, from);
    } else {
      OneMore(q - 1, g);
      var mid := from + (q - 1) * g;
      InStretchMany(r, g, n, from, q - 1);
      InStretchOne(r, g, n, mid);
      InStretchSplit(r, g, n, from, mid, mid + g);
    }
  }

  /** While it does not wrap around, a stride counts places in the block of its host. */
  lemma {:induction false} StridedInBlock(cs: seq<Candidate>, i: nat, r: nat, g: nat, n: nat)
    requires DistinctHosts(cs) && i < |cs| && Expand(cs) != []
    requires g > 0 && (n > 0 ==> r + (n - 1) * g < |Expand(cs)|)
    ensures Strided(Expand(cs), r, g, n, cs[i].host) == InStretch(r, g, n, Offset(cs, i), Offset(cs, i) + cs[i].weight)
    decreases n
  {
    if n > 0 {
      assert (n - 1) * g >= 0;
      BlockOf(cs, i, r);
      SmallRemainder(r, |Expand(cs)|);
      if n > 1 {
        OneMore(n - 2, g);
      }
      StridedInBlock(cs, i, r + g, g, n - 1);
    }
  }

  lemma SmallRemainder(r: nat, w: nat)
    requires r < w
    ensures r % w == r
  {
  }

  // ---- the exact condition -------------------------------------------------

  /** One round with stride `g`, a divisor of the ring's length, meets a block whose length is a
      multiple of `g` that many times, wherever it starts. */
  lemma RoundInBlock(cs: seq<Candidate>, start: nat, g: nat, n: nat, i: nat, q: nat)
    requires DistinctHosts(cs) && i < |cs| && Expand(cs) != []
    requires g > 0 && |Expand(cs)| == n * g && cs[i].weight == q * g
    ensures Strided(Expand(cs), start, g, n, cs[i].host) == q
  {
    hide Strided, InStretch, Offset, Expand, DistinctHosts;
    var ring, r := Expand(cs), start % g;
    assert start == r + start / g * g;
    assert n * g == 1 * |ring|;
    ShiftByStrides(ring, r, g, n, 1, cs[i].host, start / g);
    assert n > 0 && (n - 1) * g + g == n * g;
    StridedInBlock(cs, i, r, g, n);
    BlockFits(cs, i);
    InStretchMany(r, g, n, Offset(cs, i), q);
  }

  /** Served at every `d`-th value of a shared counter, from a ring of length W, a host gets
      exactly its weight over W picks if and only if its weight is a multiple of gcd(d, W),
      whatever the counter was. */
  lemma StrideFollowsWeightIff(cs: seq<Candidate>, start: nat, d: nat, i: nat)
    requires DistinctHosts(cs) && i < |cs| && Expand(cs) != []
    ensures Gcd(d, |Expand(cs)|) > 0
    ensures Strided(Expand(cs), start, d, |Expand(cs)|, cs[i].host) == cs[i].weight
            <==> cs[i].weight % Gcd(d, |Expand(cs)|) == 0
  {
    hide Strided, Gcd, Expand, DistinctHosts;
    var ring, weight := Expand(cs), cs[i].weight;
    var g := Gcd(d, |ring|);
    var m, n, x, y := Bezout(d, |ring|);
    GcdIsGreatest(d, |ring|, 1);
    StrideIsRounds(ring, start, d, n, cs[i].host);
    var round := Strided(ring, start, g, n, cs[i].host);
    assert Strided(ring, start, d, |ring|, cs[i].host) == g * round == round * g;
    MultipleModulo(round, g);
    if weight % g == 0 {
      assert weight == weight / g * g;
      RoundInBlock(cs, start, g, n, i, weight / g);
      assert weight / g * g == g * (weight / g);
    }
  }

  lemma GcdOfSame(w: nat)
    requires w > 0
    ensures Gcd(w, w) == w
  {
    GcdStep(w, w);
  }

  /** With two kinds taking turns the divisor is one or two. */
  lemma GcdOfTwo(w: nat)
    requires w > 0
    ensures Gcd(2, w) == if w % 2 == 0 then 2 else 1
  {
    hide Gcd;
    GcdStep(2, w);
    if w > 2 {
      SmallRemainder(2, w);
      GcdStep(w, 2);
    }
    GcdStep(2, 1);
    GcdStep(1, 1);
    if w == 2 {
      GcdStep(2, 2);
    }
  }
}
