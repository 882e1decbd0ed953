/** Small datatypes shared by the other modules. */
module Common {

  datatype Option<+T> = None | Some(value: T)

  /** The three priority tiers, in the order in which a worker scans them. */
  datatype Tier = High | Normal | Low

  const TIERS: seq<Tier> := [High, Normal, Low]

  /** A dictionary with exactly the three tiers as its keys. */
  datatype PerTier<T> = PerTier(high: T, normal: T, low: T) {
    function Get(t: Tier): T {
      match t
      case High => high
      case Normal => normal
      case Low => low
    }

    function Set(t: Tier, v: T): PerTier<T> {
      match t
      case High => this.(high := v)
      case Normal => this.(normal := v)
      case Low => this.(low := v)
    }
  }

  function Each<T>(v: T): PerTier<T> {
    PerTier(v, v, v)
  }

  function Bump(counters: PerTier<nat>, t: Tier): PerTier<nat> {
    counters.Set(t, counters.Get(t) + 1)
  }

  function Bit(b: bool): nat {
    if b then 1 else 0
  }

  function Max(a: int, b: int): int {
    if a < b then b else a
  }

  /** No element occurs twice. */
  predicate Distinct<T(==)>(s: seq<T>) {
    s == [] || (s[0] !in s[1..] && Distinct(s[1..]))
  }

  lemma {:induction false} DistinctAppend<T>(s: seq<T>, v: T)
    requires Distinct(s) && v !in s
    ensures Distinct(s + [v])
  {
    if s != [] {
      DistinctAppend(s[1..], v);
      assert (s + [v])[1..] == s[1..] + [v];
    }
  }
}
