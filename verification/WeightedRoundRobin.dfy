/** The deterministic weighted round-robin of routing.py as arithmetic on a counter. */
module WeightedRoundRobin {
  import opened Common

  datatype Candidate = Candidate(host: nat, weight: nat)

  function Repeat(host: nat, times: nat): (r: seq<nat>)
    ensures |r| == times
  {
    seq(times, _ => host)
  }

  /** The weight-expanded list: every candidate as often as its weight, in order. */
  function Expand(cs: seq<Candidate>): seq<nat> {
    if cs == [] then [] else Repeat(cs[0].host, cs[0].weight) + Expand(cs[1..])
  }

  function Occurrences(s: seq<nat>, host: nat): nat {
    if s == [] then 0 else Bit(s[0] == host) + Occurrences(s[1..], host)
  }

  /** How many of the `n` picks made with counter values `start`, `start + 1`, ... choose `host`. */
  function Picks(ring: seq<nat>, start: nat, n: nat, host: nat): nat
    requires ring != []
    decreases n
  {
    if n == 0 then 0 else Bit(ring[start % |ring|] == host) + Picks(ring, start + 1, n - 1, host)
  }

  ghost predicate DistinctHosts(cs: seq<Candidate>) {
    forall i, j :: 0 <= i < j < |cs| ==> cs[i].host != cs[j].host
  }

  lemma {:induction false} OccurrencesAppend(a: seq<nat>, b: seq<nat>, host: nat)
    ensures Occurrences(a + b, host) == Occurrences(a, host) + Occurrences(b, host)
  {
    if a == [] {
      assert a + b == b;
    } else {
      assert (a + b)[1..] == a[1..] + b;
      OccurrencesAppend(a[1..], b, host);
    }
  }

  lemma {:induction false} OccurrencesRepeat(h: nat, times: nat, host: nat)
    ensures Occurrences(Repeat(h, times), host) == if h == host then times else 0
  {
    if times > 0 {
      assert Repeat(h, times)[1..] == Repeat(h, times - 1);
      OccurrencesRepeat(h, times - 1, host);
    }
  }

  lemma {:induction false} OccurrencesAbsent(cs: seq<Candidate>, host: nat)
    requires forall i :: 0 <= i < |cs| ==> cs[i].host != host
    ensures Occurrences(Expand(cs), host) == 0
  {
    if cs != [] {
      OccurrencesAbsent(cs[1..], host);
      OccurrencesRepeat(cs[0].host, cs[0].weight, host);
      OccurrencesAppend(Repeat(cs[0].host, cs[0].weight), Expand(cs[1..]), host);
    }
  }

  /** Each candidate stands in the expanded list exactly as often as its weight says. */
  lemma {:induction false} ExpandHasWeights(cs: seq<Candidate>, i: nat)
    requires DistinctHosts(cs) && i < |cs|
    ensures Occurrences(Expand(cs), cs[i].host) == cs[i].weight
  {
    var host := cs[i].host;
    OccurrencesRepeat(cs[0].host, cs[0].weight, host);
    OccurrencesAppend(Repeat(cs[0].host, cs[0].weight), Expand(cs[1..]), host);
    if i == 0 {
      OccurrencesAbsent(cs[1..], host);
    } else {
      ExpandHasWeights(cs[1..], i - 1);
    }
  }

  lemma {:induction false} ExpandMembers(cs: seq<Candidate>, j: nat) returns (i: nat)
    requires j < |Expand(cs)|
    ensures i < |cs| && Expand(cs)[j] == cs[i].host
  {
    if j < cs[0].weight {
      i := 0;
    } else {
      i := ExpandMembers(cs[1..], j - cs[0].weight);
      i := i + 1;
    }
  }

  // ---- counter arithmetic --------------------------------------------------

  lemma {:induction false} ProductGap(d: nat, a: nat, b: nat)
    ensures a < b ==> d * a + d <= d * b
  {
    if a < b {
      assert d * (b - 1) + d == d * b;
      ProductGap(d, a, b - 1);
    }
  }

  lemma RemainderIs(x: nat, d: nat, q: nat, r: nat)
    requires r < d && x == d * q + r
    ensures x % d == r && x / d == q
  {
    ProductGap(d, x / d, q);
    ProductGap(d, q, x / d);
  }

  lemma {:induction false} PicksSplit(ring: seq<nat>, start: nat, a: nat, b: nat, host: nat)
    requires ring != []
    ensures Picks(ring, start, a + b, host) == Picks(ring, start, a, host) + Picks(ring, start + a, b, host)
    decreases a
  {
    if a > 0 {
      PicksSplit(ring, start + 1, a - 1, b, host);
    }
  }

  /** Counter values that run through positions i..j of the ring pick that stretch of it. */
  lemma {:induction false} PicksStretch(ring: seq<nat>, start: nat, i: nat, j: nat, host: nat)
    requires ring != [] && start % |ring| == i && i <= j <= |ring|
    ensures Picks(ring, start, j - i, host) == Occurrences(ring[i..j], host)
    decreases j - i
  {
    if i < j {
      assert ring[i..j][1..] == ring[i + 1..j];
      if i + 1 < |ring| {
        RemainderIs(start + 1, |ring|, start / |ring|, i + 1);
        PicksStretch(ring, start + 1, i + 1, j, host);
      }
    }
  }

  /** As many picks as the ring is long choose each host as often as it stands in the ring,
      whatever the counter was. */
  lemma OneRound(ring: seq<nat>, start: nat, host: nat)
    requires ring != []
    ensures Picks(ring, start, |ring|, host) == Occurrences(ring, host)
  {
    hide Picks, Occurrences;
    var i := start % |ring|;
    PicksSplit(ring, start, |ring| - i, i, host);
    PicksStretch(ring, start, i, |ring|, host);
    RemainderIs(start + |ring| - i, |ring|, start / |ring| + 1, 0);
    PicksStretch(ring, start + |ring| - i, 0, i, host);
    OccurrencesAppend(ring[..i], ring[i..], host);
    assert ring[..i] + ring[i..] == ring;
    assert ring[i..|ring|] == ring[i..] && ring[0..i] == ring[..i];
  }

  lemma {:induction false} Rounds(ring: seq<nat>, start: nat, q: nat, host: nat)
    requires ring != []
    ensures Picks(ring, start, q * |ring|, host) == q * Occurrences(ring, host)
    decreases q
  {
    if q > 0 {
      hide Picks, Occurrences;
      OneRound(ring, start, host);
      PicksSplit(ring, start, |ring|, (q - 1) * |ring|, host);
      Rounds(ring, start + |ring|, q - 1, host);
      OneMore(q - 1, |ring|);
      OneMore(q - 1, Occurrences(ring, host));
    }
  }

  /** `q` full rounds and `r` picks more. */
  lemma RoundsAndRest(ring: seq<nat>, start: nat, q: nat, r: nat, host: nat)
    requires ring != [] && r < |ring|
    ensures q * Occurrences(ring, host) <= Picks(ring, start, q * |ring| + r, host)
    ensures Picks(ring, start, q * |ring| + r, host) <= q * Occurrences(ring, host) + (if r == 0 then 0 else Occurrences(ring, host))
  {
    var rest := start + q * |ring|;
    Rounds(ring, start, q, host);
    PicksSplit(ring, start, q * |ring|, r, host);
    OneRound(ring, rest, host);
    PicksSplit(ring, rest, r, |ring| - r, host);
  }

  /** Any `n` consecutive picks choose a host between floor(n / W) and ceil(n / W) times its
      weight, W being the total weight; W picks choose it exactly its weight times. */
  lemma WeightedShare(cs: seq<Candidate>, start: nat, n: nat, i: nat)
    requires DistinctHosts(cs) && i < |cs| && Expand(cs) != []
    ensures Picks(Expand(cs), start, |Expand(cs)|, cs[i].host) == cs[i].weight
    ensures (n / |Expand(cs)|) * cs[i].weight <= Picks(Expand(cs), start, n, cs[i].host)
    ensures Picks(Expand(cs), start, n, cs[i].host) <= CeilDiv(n, |Expand(cs)|) * cs[i].weight
  {
    var host := cs[i].host;
    ExpandHasWeights(cs, i);
    OneRound(Expand(cs), start, host);
    Division(n, |Expand(cs)|);
    RoundsAndRest(Expand(cs), start, n / |Expand(cs)|, n % |Expand(cs)|, host);
    OneMore(n / |Expand(cs)|, cs[i].weight);
  }

  lemma Division(n: nat, d: nat)
    requires d > 0
    ensures n / d >= 0 && 0 <= n % d < d && n == (n / d) * d + n % d
  {
  }

  lemma OneMore(q: nat, w: nat)
    ensures (q + 1) * w == q * w + w
  {
  }

  function CeilDiv(n: nat, d: nat): nat
    requires d > 0
  {
    if n % d == 0 then n / d else n / d + 1
  }
}
