/** What the two strategies do, stated on the hosts themselves: who is picked how often, and which
    decision counter moves. And what the table knows: the latest observation of each host. */
module RoutingShares {
  import opened Common
  import opened Routing
  import opened SharedCounter

  // ---- who is served from --------------------------------------------------

  /** A host that is reachable, or any host while none is. */
  ghost predicate Live(hosts: seq<Host>, k: nat) {
    k < |hosts| && (hosts[k].reachable || forall j :: 0 <= j < |hosts| ==> !hosts[j].reachable)
  }

  /** Does the strategy look for this model, and has a live host got it? */
  ghost predicate Matched(strategy: Strategy, hosts: seq<Host>, model: Option<string>) {
    strategy == ModelAware && model.Some? && model.value != ""
    && exists j :: 0 <= j < |hosts| && Live(hosts, j) && model.value in hosts[j].models
  }

  /** The hosts that share the requests for a model: the live ones, or those of them that have the
      model if the strategy looks for it and some have. */
  ghost predicate Eligible(strategy: Strategy, hosts: seq<Host>, model: Option<string>, k: nat) {
    Live(hosts, k) && (Matched(strategy, hosts, model) ==> model.value in hosts[k].models)
  }

  lemma LiveIsCandidate(hosts: seq<Host>, k: nat)
    ensures Live(hosts, k) <==> k in Candidates(hosts)
  {
    CandidatesFacts(hosts);
    hide Candidates;
  }

  lemma PoolIsEligible(strategy: Strategy, hosts: seq<Host>, model: Option<string>, k: nat)
    ensures k in Pool(strategy, hosts, model).0 <==> Eligible(strategy, hosts, model, k)
    ensures Pool(strategy, hosts, model).1 == Match <==> Matched(strategy, hosts, model)
    ensures Pool(strategy, hosts, model).1 == Plain <==> !(strategy == ModelAware && model.Some? && model.value != "")
  {
    CandidatesFacts(hosts);
    CandidatesInRange(hosts);
    var cs := Candidates(hosts);
    forall j: nat ensures Live(hosts, j) <==> j in cs {
      LiveIsCandidate(hosts, j);
    }
    if model.Some? {
      WithModelFacts(hosts, cs, model.value);
      HeadIsMember(WithModel(hosts, cs, model.value));
    }
    hide Candidates, WithModel, Live;
  }

  // ---- shares --------------------------------------------------------------

  /** The total weight of the eligible hosts from `i` on. */
  ghost function EligibleWeight(strategy: Strategy, hosts: seq<Host>, model: Option<string>, i: nat): nat
    requires i <= |hosts|
    decreases |hosts| - i
  {
    if i == |hosts| then 0
    else (if Eligible(strategy, hosts, model, i) then hosts[i].weight else 0) + EligibleWeight(strategy, hosts, model, i + 1)
  }

  /** The same over the hosts that a list names. */
  function ListedWeight(hosts: seq<Host>, cs: seq<nat>, i: nat): nat
    requires i <= |hosts|
    decreases |hosts| - i
  {
    if i == |hosts| then 0 else (if i in cs then hosts[i].weight else 0) + ListedWeight(hosts, cs, i + 1)
  }

  lemma {:induction false} ListedTail(hosts: seq<Host>, cs: seq<nat>, i: nat)
    requires i <= |hosts| && cs != [] && cs[0] < i
    ensures ListedWeight(hosts, cs, i) == ListedWeight(hosts, cs[1..], i)
    decreases |hosts| - i
  {
    if i < |hosts| {
      assert i in cs <==> i in cs[1..];
      ListedTail(hosts, cs, i + 1);
    }
  }

  lemma {:induction false} RingLength(hosts: seq<Host>, cs: seq<nat>, i: nat)
    requires i <= |hosts| && InRange(hosts, cs) && Ascending(cs) && forall k :: k in cs ==> i <= k
    ensures |Ring(hosts, cs)| == ListedWeight(hosts, cs, i)
    decreases |hosts| - i
  {
    HeadIsMember(cs);
    if i == |hosts| {
    } else if i in cs {
      AscendingStart(cs, i);
      var rest := cs[1..];
      assert Weigh(hosts, cs)[1..] == Weigh(hosts, rest);
      ListedTail(hosts, cs, i + 1);
      RingLength(hosts, rest, i + 1);
    } else {
      RingLength(hosts, cs, i + 1);
    }
  }

  lemma AscendingStart(cs: seq<nat>, i: nat)
    requires Ascending(cs) && i in cs && forall k :: k in cs ==> i <= k
    ensures cs[0] == i && forall k :: k in cs[1..] ==> i + 1 <= k
  {
    assert cs[0] in cs && forall k :: k in cs ==> k == cs[0] || k in cs[1..];
  }

  lemma {:induction false} ListedIsEligible(strategy: Strategy, hosts: seq<Host>, model: Option<string>, i: nat)
    requires i <= |hosts|
    ensures ListedWeight(hosts, Pool(strategy, hosts, model).0, i) == EligibleWeight(strategy, hosts, model, i)
    decreases |hosts| - i
  {
    if i < |hosts| {
      PoolIsEligible(strategy, hosts, model, i);
      hide Pool, Eligible;
      ListedIsEligible(strategy, hosts, model, i + 1);
    }
  }

  lemma PoolWeight(strategy: Strategy, hosts: seq<Host>, model: Option<string>)
    ensures |RingFor(strategy, hosts, model)| == EligibleWeight(strategy, hosts, model, 0)
  {
    PoolFacts(strategy, hosts, model);
    hide Pool, Ring;
    RingLength(hosts, Pool(strategy, hosts, model).0, 0);
    ListedIsEligible(strategy, hosts, model, 0);
  }

  /** How many of the requests for these models go to host `k`. */
  function Share(strategy: Strategy, t: Table, wanted: seq<Option<string>>, k: nat): nat
    decreases |wanted|
  {
    if wanted == [] then 0
    else
      var (t1, picked) := Pick(strategy, t, wanted[0]);
      Bit(picked == Some(k)) + Share(strategy, t1, wanted[1..], k)
  }

  lemma {:induction false} ShareIsTimesPicked(strategy: Strategy, t: Table, model: Option<string>, wanted: seq<Option<string>>, k: nat)
    requires forall m :: m in wanted ==> Pool(strategy, t.hosts, m) == Pool(strategy, t.hosts, model)
    ensures Share(strategy, t, wanted, k) == TimesPicked(strategy, t, model, |wanted|, k)
    decreases |wanted|
  {
    if wanted != [] {
      assert wanted[0] in wanted;
      assert Pick(strategy, t, wanted[0]) == Pick(strategy, t, model);
      hide Pick, Pool;
      assert forall m :: m in wanted[1..] ==> m in wanted;
      ShareIsTimesPicked(strategy, Pick(strategy, t, model).0, model, wanted[1..], k);
    }
  }

  lemma {:induction false} OthersNeverPicked(strategy: Strategy, t: Table, model: Option<string>, n: nat, k: nat)
    requires Weighted(t.hosts) && t.hosts != [] && k !in Pool(strategy, t.hosts, model).0
    ensures TimesPicked(strategy, t, model, n, k) == 0
    decreases n
  {
    if n > 0 {
      PickMoves(strategy, t, model);
      var ring := RingFor(strategy, t.hosts, model);
      RingInRange(t.hosts, Pool(strategy, t.hosts, model).0, t.rr % |ring|);
      hide Pick, Pool, Weighted;
      OthersNeverPicked(strategy, Pick(strategy, t, model).0, model, n - 1, k);
    }
  }

  /** For requests that are served alike: over as many of them as the weights of the eligible hosts
      sum to, each eligible host gets exactly its weight and no other host gets any. */
  lemma ExactShares(strategy: Strategy, t: Table, model: Option<string>, wanted: seq<Option<string>>, k: nat)
    requires Weighted(t.hosts) && k < |t.hosts| && |wanted| == EligibleWeight(strategy, t.hosts, model, 0)
    requires forall m :: m in wanted ==> Pool(strategy, t.hosts, m) == Pool(strategy, t.hosts, model)
    ensures Share(strategy, t, wanted, k) == if Eligible(strategy, t.hosts, model, k) then t.hosts[k].weight else 0
  {
    PoolWeight(strategy, t.hosts, model);
    PoolIsEligible(strategy, t.hosts, model, k);
    ShareIsTimesPicked(strategy, t, model, wanted, k);
    hide Pool, Eligible, EligibleWeight, Weighted;
    if k in Pool(strategy, t.hosts, model).0 {
      PicksFollowWeights(strategy, t, model, |wanted|, k);
    } else {
      OthersNeverPicked(strategy, t, model, |wanted|, k);
    }
  }

  // ---- round_robin ---------------------------------------------------------

  /** The total weight of the reachable hosts from `i` on, or of all hosts if `all`. */
  function LiveWeight(hosts: seq<Host>, all: bool, i: nat): nat
    requires i <= |hosts|
    decreases |hosts| - i
  {
    if i == |hosts| then 0 else (if all || hosts[i].reachable then hosts[i].weight else 0) + LiveWeight(hosts, all, i + 1)
  }

  lemma {:induction false} LiveWeightIsEligible(hosts: seq<Host>, model: Option<string>, i: nat)
    requires i <= |hosts|
    ensures LiveWeight(hosts, !AnyReachable(hosts), i) == EligibleWeight(RoundRobin, hosts, model, i)
    decreases |hosts| - i
  {
    if i < |hosts| {
      assert Eligible(RoundRobin, hosts, model, i) <==> hosts[i].reachable || !AnyReachable(hosts);
      LiveWeightIsEligible(hosts, model, i + 1);
    }
  }

  /** Under round_robin the model of a request makes no difference at all. */
  lemma RoundRobinIgnoresModels(t: Table, m1: Option<string>, m2: Option<string>)
    ensures Pick(RoundRobin, t, m1) == Pick(RoundRobin, t, m2)
  {
    assert Pool(RoundRobin, t.hosts, m1) == Pool(RoundRobin, t.hosts, m2);
    hide Pool, Ring;
  }

  /** Under round_robin, over as many requests as the weights of the reachable hosts sum to (of all
      hosts if none is reachable), for whatever models, each of these hosts gets exactly its weight
      and no other host gets any. */
  lemma RoundRobinShares(t: Table, wanted: seq<Option<string>>, k: nat)
    requires Weighted(t.hosts) && k < |t.hosts| && |wanted| == LiveWeight(t.hosts, !AnyReachable(t.hosts), 0)
    ensures Share(RoundRobin, t, wanted, k) == if t.hosts[k].reachable || !AnyReachable(t.hosts) then t.hosts[k].weight else 0
  {
    LiveWeightIsEligible(t.hosts, None, 0);
    forall m | m in wanted ensures Pool(RoundRobin, t.hosts, m) == Pool(RoundRobin, t.hosts, None) {
    }
    hide Pool, EligibleWeight, LiveWeight, Weighted;
    ExactShares(RoundRobin, t, None, wanted, k);
  }

  // ---- model_aware ---------------------------------------------------------

  /** Under model_aware, for requests of one model: the live hosts that have it share them, or all
      live hosts if none has it, each by its weight. */
  lemma ModelAwareShares(t: Table, model: string, wanted: seq<Option<string>>, k: nat)
    requires Weighted(t.hosts) && k < |t.hosts| && model != "" && forall m :: m in wanted ==> m == Some(model)
    requires |wanted| == EligibleWeight(ModelAware, t.hosts, Some(model), 0)
    ensures var served := Live(t.hosts, k)
                          && (model in t.hosts[k].models || forall j :: 0 <= j < |t.hosts| && Live(t.hosts, j) ==> model !in t.hosts[j].models);
            Share(ModelAware, t, wanted, k) == if served then t.hosts[k].weight else 0
  {
    hide Pool, EligibleWeight, Weighted, Live;
    ExactShares(ModelAware, t, Some(model), wanted, k);
  }

  /** Which decision counter a pick moves, and by one; the shared counter moves with it. */
  lemma BookedIff(strategy: Strategy, t: Table, model: Option<string>)
    requires Weighted(t.hosts) && t.hosts != []
    ensures var d, d1 := t.decisions, Pick(strategy, t, model).0.decisions;
            var looks := strategy == ModelAware && model.Some? && model.value != "";
            && Pick(strategy, t, model).0.rr == t.rr + 1
            && d1.roundRobin == d.roundRobin + Bit(!looks)
            && d1.modelMatch == d.modelMatch + Bit(looks && Matched(strategy, t.hosts, model))
            && d1.fallback == d.fallback + Bit(looks && !Matched(strategy, t.hosts, model))
  {
    PickMoves(strategy, t, model);
    PoolIsEligible(strategy, t.hosts, model, 0);
    hide Pool, Ring, Matched, Eligible, Weighted;
  }

  // ---- observations --------------------------------------------------------

  /** The latest of these events that tells whether `k` can be reached, if one does. */
  function LastWord(events: seq<Event>, k: nat): Option<bool>
    decreases |events|
  {
    if events == [] then None
    else
      var e := events[|events| - 1];
      if e.At? && e.k == k && e.change.PolledUp? then Some(true)
      else if e.At? && e.k == k && (e.change.PolledDown? || e.change.Failed?) then Some(false)
      else LastWord(events[..|events| - 1], k)
  }

  /** The models that `k` has after these events: those of the last poll that found it up, without
      those that were reported missing since. */
  function KnownModels(first: set<string>, events: seq<Event>, k: nat): set<string>
    decreases |events|
  {
    if events == [] then first
    else
      var e := events[|events| - 1];
      var before := KnownModels(first, events[..|events| - 1], k);
      if e.At? && e.k == k && e.change.PolledUp? then e.change.models
      else if e.At? && e.k == k && e.change.ModelMissing? then before - {e.change.model}
      else before
  }

  function HandledIn(events: seq<Event>, k: nat): nat
    decreases |events|
  {
    if events == [] then 0 else HandledIn(events[..|events| - 1], k) + Bit(events[|events| - 1] == At(k, Handled))
  }

  lemma {:induction false} AppliedLast(strategy: Strategy, t: Table, events: seq<Event>)
    requires events != []
    ensures ApplyAll(strategy, t, events) == Apply(strategy, ApplyAll(strategy, t, events[..|events| - 1]), events[|events| - 1])
    decreases |events|
  {
    hide Apply;
    var t1 := Apply(strategy, t, events[0]);
    if |events| == 1 {
      assert events[1..] == [] && events[..0] == [];
      assert ApplyAll(strategy, t1, []) == t1;
    } else {
      var rest := events[1..];
      AppliedLast(strategy, t1, rest);
      assert rest[..|rest| - 1] == events[..|events| - 1][1..] && rest[|rest| - 1] == events[|events| - 1];
    }
  }

  /** The table is the latest observation: a host is marked reachable as the last poll or failure
      says, has the models of its last good poll but those reported missing since, and counts the
      responses reported for it; its name and weight never change. Picks change none of this. */
  lemma {:induction false} TableIsLatest(strategy: Strategy, t: Table, events: seq<Event>, k: nat)
    requires k < |t.hosts|
    ensures var h0, h := t.hosts[k], ApplyAll(strategy, t, events).hosts[k];
            && h.reachable == (match LastWord(events, k) case Some(up) => up case None => h0.reachable)
            && h.models == KnownModels(h0.models, events, k)
            && h.handled == h0.handled + HandledIn(events, k)
            && h.name == h0.name && h.weight == h0.weight
    decreases |events|
  {
    if events != [] {
      var before, e := events[..|events| - 1], events[|events| - 1];
      AppliedLast(strategy, t, events);
      TableIsLatest(strategy, t, before, k);
      hide ApplyAll, Apply;
      AfterOne(strategy, ApplyAll(strategy, t, before), e, k);
    }
  }

  /** One event at one host. */
  lemma AfterOne(strategy: Strategy, t: Table, e: Event, k: nat)
    requires k < |t.hosts|
    ensures var h0, h := t.hosts[k], Apply(strategy, t, e).hosts[k];
            && h.reachable == (if e.At? && e.k == k && e.change.PolledUp? then true
                               else if e.At? && e.k == k && (e.change.PolledDown? || e.change.Failed?) then false
                               else h0.reachable)
            && h.models == (if e.At? && e.k == k && e.change.PolledUp? then e.change.models
                            else if e.At? && e.k == k && e.change.ModelMissing? then h0.models - {e.change.model}
                            else h0.models)
            && h.handled == h0.handled + Bit(e == At(k, Handled))
            && h.name == h0.name && h.weight == h0.weight
  {
    hide Pick;
  }
}
