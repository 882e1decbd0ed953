/** One counter for all candidate lists, routing.py: how the picks for one kind of request are
    shared out while other requests are served in between. */
module SharedCounter {
  import opened Common
  import opened WeightedRoundRobin
  import opened StridedPicks
  import opened Routing

  /** The table after requests for these models were routed one after another. */
  function PickAll(strategy: Strategy, t: Table, wanted: seq<Option<string>>): Table
    decreases |wanted|
  {
    if wanted == [] then t else PickAll(strategy, Pick(strategy, t, wanted[0]).0, wanted[1..])
  }

  /** Requests for `model` are routed one by one, each followed by the requests of one entry of
      `others`: how many of them go to host `k`. */
  function Served(strategy: Strategy, t: Table, model: Option<string>, others: seq<seq<Option<string>>>, k: nat): nat
    decreases |others|
  {
    if others == [] then 0
    else
      var (t1, picked) := Pick(strategy, t, model);
      Bit(picked == Some(k)) + Served(strategy, PickAll(strategy, t1, others[0]), model, others[1..], k)
  }

  /** The expanded list from which requests for `model` are served. */
  function RingFor(strategy: Strategy, hosts: seq<Host>, model: Option<string>): seq<nat> {
    Ring(hosts, Pool(strategy, hosts, model).0)
  }

  /** A pick changes the counters alone, and moves the one that all lists share. */
  lemma PickMoves(strategy: Strategy, t: Table, model: Option<string>)
    requires Weighted(t.hosts) && t.hosts != []
    ensures RingFor(strategy, t.hosts, model) != []
    ensures var ring := RingFor(strategy, t.hosts, model);
            var (t1, picked) := Pick(strategy, t, model);
            t1.hosts == t.hosts && t1.rr == t.rr + 1 && picked == Some(ring[t.rr % |ring|])
  {
    PoolFacts(strategy, t.hosts, model);
    hide Pool, Ring;
    RingNonEmpty(t.hosts, Pool(strategy, t.hosts, model).0);
  }

  lemma {:induction false} PicksMove(strategy: Strategy, t: Table, wanted: seq<Option<string>>)
    requires Weighted(t.hosts) && t.hosts != []
    ensures PickAll(strategy, t, wanted).hosts == t.hosts && PickAll(strategy, t, wanted).rr == t.rr + |wanted|
    decreases |wanted|
  {
    if wanted != [] {
      PickMoves(strategy, t, wanted[0]);
      hide Pick;
      PicksMove(strategy, Pick(strategy, t, wanted[0]).0, wanted[1..]);
    }
  }

  lemma {:induction false} ServedIsStrided(strategy: Strategy, t: Table, model: Option<string>,
                                           others: seq<seq<Option<string>>>, d: nat, k: nat)
    requires Weighted(t.hosts) && t.hosts != [] && RingFor(strategy, t.hosts, model) != []
    requires forall wanted :: wanted in others ==> |wanted| + 1 == d
    ensures Served(strategy, t, model, others, k) == Strided(RingFor(strategy, t.hosts, model), t.rr, d, |others|, k)
    decreases |others|
  {
    hide *;
    var ring := RingFor(strategy, t.hosts, model);
    StridedFirst(ring, t.rr, d, |others|, k);
    ServedFirst(strategy, t, model, others, k);
    if others != [] {
      PickMoves(strategy, t, model);
      var t1 := Pick(strategy, t, model).0;
      assert others[0] in others && forall wanted :: wanted in others[1..] ==> wanted in others;
      PicksMove(strategy, t1, others[0]);
      var t2 := PickAll(strategy, t1, others[0]);
      ServedIsStrided(strategy, t2, model, others[1..], d, k);
      assert t2.rr == t.rr + d && RingFor(strategy, t2.hosts, model) == ring;
    }
  }

  lemma ServedFirst(strategy: Strategy, t: Table, model: Option<string>, others: seq<seq<Option<string>>>, k: nat)
    ensures Served(strategy, t, model, others, k)
            == if others == [] then 0
               else Bit(Pick(strategy, t, model).1 == Some(k))
                    + Served(strategy, PickAll(strategy, Pick(strategy, t, model).0, others[0]), model, others[1..], k)
  {
    hide Pick, PickAll;
  }

  /** When one kind of request is served at every `d`-th pick, `W` picks give a host of its list
      exactly its weight if and only if the weight is a multiple of gcd(d, W), W being the length
      of the weight-expanded list: whatever the counter was, and whatever the other requests
      asked for. */
  lemma SharedPicksFollowWeightIff(strategy: Strategy, t: Table, model: Option<string>,
                                   others: seq<seq<Option<string>>>, d: nat, k: nat)
    requires Weighted(t.hosts) && k in Pool(strategy, t.hosts, model).0
    requires |others| == |RingFor(strategy, t.hosts, model)| && forall wanted :: wanted in others ==> |wanted| + 1 == d
    ensures k < |t.hosts| && Gcd(d, |others|) > 0
    ensures Served(strategy, t, model, others, k) == t.hosts[k].weight <==> t.hosts[k].weight % Gcd(d, |others|) == 0
  {
    var cs := Pool(strategy, t.hosts, model).0;
    PoolFacts(strategy, t.hosts, model);
    hide Pool;
    RingNonEmpty(t.hosts, cs);
    ServedIsStrided(strategy, t, model, others, d, k);
    var i := WeighedCandidate(t.hosts, cs, k);
    StrideFollowsWeightIff(Weigh(t.hosts, cs), t.rr, d, i);
  }

  lemma WeighedCandidate(hosts: seq<Host>, cs: seq<nat>, k: nat) returns (i: nat)
    requires InRange(hosts, cs) && Ascending(cs) && k in cs
    ensures i < |cs| && k < |hosts| && Weigh(hosts, cs)[i] == Candidate(k, hosts[k].weight)
    ensures DistinctHosts(Weigh(hosts, cs))
  {
    i :| 0 <= i < |cs| && cs[i] == k;
    var w := Weigh(hosts, cs);
    forall a, b | 0 <= a < b < |w| ensures w[a].host != w[b].host {
      AscendingOrder(cs, a, b);
    }
  }

  /** The documented ratio, for requests of one kind among others: it is exact for all hosts of
      the list if and only if gcd(d, W) divides every one of their weights. */
  lemma SharedPicksAreExactIff(strategy: Strategy, t: Table, model: Option<string>, others: seq<seq<Option<string>>>, d: nat)
    requires Weighted(t.hosts) && t.hosts != []
    requires |others| == |RingFor(strategy, t.hosts, model)| && forall wanted :: wanted in others ==> |wanted| + 1 == d
    ensures var cs := Pool(strategy, t.hosts, model).0;
            Gcd(d, |others|) > 0 && InRange(t.hosts, cs)
            && ((forall i :: 0 <= i < |cs| ==> Served(strategy, t, model, others, cs[i]) == t.hosts[cs[i]].weight)
                <==> forall i :: 0 <= i < |cs| ==> t.hosts[cs[i]].weight % Gcd(d, |others|) == 0)
  {
    var cs := Pool(strategy, t.hosts, model).0;
    PickMoves(strategy, t, model);
    GcdPositive(d, |others|);
    hide Pool, Served, Gcd, RingFor;
    forall i | 0 <= i < |cs|
      ensures Served(strategy, t, model, others, cs[i]) == t.hosts[cs[i]].weight <==> t.hosts[cs[i]].weight % Gcd(d, |others|) == 0
    {
      SharedPicksFollowWeightIff(strategy, t, model, others, d, cs[i]);
    }
  }

  /** Two kinds of request taking turns: the ratio is exact if and only if the total weight is odd
      or every weight is even. */
  lemma AlternationIsExactIff(strategy: Strategy, t: Table, model: Option<string>, others: seq<seq<Option<string>>>)
    requires Weighted(t.hosts) && t.hosts != []
    requires |others| == |RingFor(strategy, t.hosts, model)| && forall wanted :: wanted in others ==> |wanted| == 1
    ensures var cs := Pool(strategy, t.hosts, model).0;
            InRange(t.hosts, cs)
            && ((forall i :: 0 <= i < |cs| ==> Served(strategy, t, model, others, cs[i]) == t.hosts[cs[i]].weight)
                <==> |others| % 2 == 1 || forall i :: 0 <= i < |cs| ==> t.hosts[cs[i]].weight % 2 == 0)
  {
    PickMoves(strategy, t, model);
    GcdOfTwo(|others|);
    hide Pool, Served, Gcd, RingFor;
    SharedPicksAreExactIff(strategy, t, model, others, 2);
  }

  // ---- any requests in between ----------------------------------------------

  lemma {:induction false} SoleHostIsServed(strategy: Strategy, t: Table, model: Option<string>,
                                            others: seq<seq<Option<string>>>, k: nat)
    requires Weighted(t.hosts) && t.hosts != []
    requires forall x :: x in RingFor(strategy, t.hosts, model) ==> x == k
    ensures Served(strategy, t, model, others, k) == |others|
    decreases |others|
  {
    PickMoves(strategy, t, model);
    hide Pick, RingFor, Weighted, PickAll;
    ServedFirst(strategy, t, model, others, k);
    if others != [] {
      var ring := RingFor(strategy, t.hosts, model);
      assert ring[t.rr % |ring|] in ring;
      var t1 := Pick(strategy, t, model).0;
      PicksMove(strategy, t1, others[0]);
      SoleHostIsServed(strategy, PickAll(strategy, t1, others[0]), model, others[1..], k);
    }
  }

  /** A list of one host is its weight long, and holds nothing else. */
  lemma SoleRing(hosts: seq<Host>, cs: seq<nat>)
    requires InRange(hosts, cs) && |cs| == 1
    ensures |Ring(hosts, cs)| == hosts[cs[0]].weight && forall x :: x in Ring(hosts, cs) ==> x == cs[0]
  {
    var w := Weigh(hosts, cs);
    assert w[1..] == [] && Expand(w[1..]) == [];
    assert Expand(w) == Repeat(cs[0], w[0].weight) + [];
  }

  /** A list of two hosts or more is longer than the weight of each. */
  lemma WeightBelowRing(hosts: seq<Host>, cs: seq<nat>)
    requires InRange(hosts, cs) && Weighted(hosts) && |cs| >= 2
    ensures 0 < hosts[cs[0]].weight < |Ring(hosts, cs)|
  {
    var w := Weigh(hosts, cs);
    assert w[1..][0] == w[1] && w[1].weight >= 1;
    assert |Expand(w)| == w[0].weight + |Expand(w[1..])| && |Expand(w[1..])| == w[1].weight + |Expand(w[1..][1..])|;
  }

  /** `n` gaps of `d` requests that name no model. */
  function Gaps(n: nat, d: nat): (r: seq<seq<Option<string>>>)
    ensures |r| == n && forall wanted :: wanted in r ==> |wanted| == d
  {
    seq(n, _ => seq(d, _ => None))
  }

  /** W picks for one kind of request give every host of its list its weight, whatever is served in
      between, however many requests of whatever kinds, if and only if the list is a single host. */
  lemma AlwaysExactIffSole(strategy: Strategy, t: Table, model: Option<string>)
    requires Weighted(t.hosts) && t.hosts != []
    ensures InRange(t.hosts, Pool(strategy, t.hosts, model).0)
    ensures (forall others :: |others| == |RingFor(strategy, t.hosts, model)| ==> AllExact(strategy, t, model, others))
            <==> |Pool(strategy, t.hosts, model).0| == 1
  {
    var cs := Pool(strategy, t.hosts, model).0;
    PoolFacts(strategy, t.hosts, model);
    var w := |RingFor(strategy, t.hosts, model)|;
    hide Pool, Weighted;
    if |cs| == 1 {
      SoleRing(t.hosts, cs);
      forall others: seq<seq<Option<string>>> | |others| == w ensures AllExact(strategy, t, model, others) {
        SoleHostIsServed(strategy, t, model, others, cs[0]);
      }
    } else {
      NotAlwaysExact(strategy, t, model);
    }
  }

  /** Every host of the list gets exactly its weight. */
  ghost predicate AllExact(strategy: Strategy, t: Table, model: Option<string>, others: seq<seq<Option<string>>>) {
    forall k :: k in Pool(strategy, t.hosts, model).0 ==> k < |t.hosts| && Served(strategy, t, model, others, k) == t.hosts[k].weight
  }

  /** With W - 1 requests in every gap the counter always comes back to the same host. */
  lemma NotAlwaysExact(strategy: Strategy, t: Table, model: Option<string>)
    requires Weighted(t.hosts) && |Pool(strategy, t.hosts, model).0| >= 2
    ensures var w := |RingFor(strategy, t.hosts, model)|; w > 0 && !AllExact(strategy, t, model, Gaps(w, w - 1))
  {
    var cs, w := Pool(strategy, t.hosts, model).0, |RingFor(strategy, t.hosts, model)|;
    PoolFacts(strategy, t.hosts, model);
    hide Pool;
    WeightBelowRing(t.hosts, cs);
    hide Weighted, Served;
    var k := cs[0];
    assert k in cs;
    SharedPicksFollowWeightIff(strategy, t, model, Gaps(w, w - 1), w, k);
    GcdOfSame(w);
    SmallRemainder(t.hosts[k].weight, w);
  }

  // ---- starvation ----------------------------------------------------------

  /** `n` rounds in which one other request, for `model`, is served. */
  function Turns(n: nat, model: string): (r: seq<seq<Option<string>>>)
    ensures |r| == n && forall wanted :: wanted in r ==> wanted == [Some(model)]
  {
    seq(n, _ => [Some(model)])
  }

  lemma {:induction false} EvenStrides(ring: seq<nat>, start: nat, n: nat, host: nat)
    requires |ring| == 1 || |ring| == 2
    ensures Strided(ring, start, 2, n, host) == if ring[start % |ring|] == host then n else 0
    decreases n
  {
    if n > 0 {
      assert (start + 2) % |ring| == start % |ring|;
      EvenStrides(ring, start + 2, n - 1, host);
    }
  }

  /** The exactness can fail altogether. Hosts 0 and 1 both have model "x", host 2 alone has "z": if
      requests for "x" and "z" take turns, host 1 is never picked at all. Here W is 2 and the
      weights are odd. */
  lemma AlternatingStarves(t: Table, n: nat)
    requires |t.hosts| == 3 && t.rr % 2 == 0
    requires forall k :: 0 <= k < 3 ==> t.hosts[k].reachable && t.hosts[k].weight == 1
    requires t.hosts[0].models == {"x"} && t.hosts[1].models == {"x"} && t.hosts[2].models == {"z"}
    ensures RingFor(ModelAware, t.hosts, Some("x")) == [0, 1]
    ensures Served(ModelAware, t, Some("x"), Turns(n, "z"), 0) == n
    ensures Served(ModelAware, t, Some("x"), Turns(n, "z"), 1) == 0
    ensures Served(ModelAware, Pick(ModelAware, t, Some("x")).0, Some("z"), Turns(n, "x"), 2) == n
  {
    StarvingPools(t.hosts);
    var t1 := Pick(ModelAware, t, Some("x")).0;
    ServedIsStrided(ModelAware, t, Some("x"), Turns(n, "z"), 2, 0);
    ServedIsStrided(ModelAware, t, Some("x"), Turns(n, "z"), 2, 1);
    ServedIsStrided(ModelAware, t1, Some("z"), Turns(n, "x"), 2, 2);
    hide *;
    EvenStrides([0, 1], t.rr, n, 0);
    EvenStrides([0, 1], t.rr, n, 1);
    EvenStrides([2], t1.rr, n, 2);
  }

  lemma WithModelOfThree(hosts: seq<Host>, model: string)
    requires |hosts| == 3
    ensures WithModel(hosts, [0, 1, 2], model)
            == (if model in hosts[0].models then [0] else []) + ((if model in hosts[1].models then [1] else [])
               + (if model in hosts[2].models then [2] else []))
  {
    assert [0, 1, 2][1..] == [1, 2] && [1, 2][1..] == [2] && [2][1..] == [];
    assert WithModel(hosts, [2], model) == (if model in hosts[2].models then [2] else []) + WithModel(hosts, [], model);
    assert WithModel(hosts, [1, 2], model) == (if model in hosts[1].models then [1] else []) + WithModel(hosts, [2], model);
  }

  lemma StarvingPools(hosts: seq<Host>)
    requires |hosts| == 3
    requires forall k :: 0 <= k < 3 ==> hosts[k].reachable && hosts[k].weight == 1
    requires hosts[0].models == {"x"} && hosts[1].models == {"x"} && hosts[2].models == {"z"}
    ensures Pool(ModelAware, hosts, Some("x")).0 == [0, 1] && Ring(hosts, [0, 1]) == [0, 1]
    ensures Pool(ModelAware, hosts, Some("z")).0 == [2] && Ring(hosts, [2]) == [2]
  {
    ReachableOfThree(hosts);
    assert Candidates(hosts) == [0, 1, 2];
    assert "x"[0] != "z"[0];
    assert "x" in hosts[0].models && "x" in hosts[1].models && "z" in hosts[2].models;
    WithModelOfThree(hosts, "x");
    WithModelOfThree(hosts, "z");
    OnesRing(hosts, [0, 1]);
    OnesRing(hosts, [2]);
  }
}
