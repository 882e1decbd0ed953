/** Host state and host selection, routing.py: the table as a value with the functions that
    pick from it, and the classes that do so in place. A host is named by its index in the
    configured order. */
module Routing {
  import opened Common
  import opened WeightedRoundRobin

  datatype Host = Host(name: string, weight: nat, models: set<string>, reachable: bool, handled: nat, failures: nat)

  datatype Strategy = RoundRobin | ModelAware

  datatype Decisions = Decisions(modelMatch: nat, roundRobin: nat, fallback: nat)

  datatype Table = Table(hosts: seq<Host>, rr: nat, decisions: Decisions)

  /** config.py rejects a weight below one. */
  predicate Weighted(hosts: seq<Host>) {
    forall k :: 0 <= k < |hosts| ==> hosts[k].weight >= 1
  }

  function AllFrom(hosts: seq<Host>, i: nat): seq<nat>
    requires i <= |hosts|
    decreases |hosts| - i
  {
    if i == |hosts| then [] else [i] + AllFrom(hosts, i + 1)
  }

  function ReachableFrom(hosts: seq<Host>, i: nat): seq<nat>
    requires i <= |hosts|
    decreases |hosts| - i
  {
    if i == |hosts| then []
    else (if hosts[i].reachable then [i] else []) + ReachableFrom(hosts, i + 1)
  }

  /** The reachable hosts, or all of them when none is. */
  function Candidates(hosts: seq<Host>): seq<nat> {
    if ReachableFrom(hosts, 0) != [] then ReachableFrom(hosts, 0) else AllFrom(hosts, 0)
  }

  predicate InRange(hosts: seq<Host>, cs: seq<nat>) {
    forall i :: 0 <= i < |cs| ==> cs[i] < |hosts|
  }

  function WithModel(hosts: seq<Host>, cs: seq<nat>, model: string): (r: seq<nat>)
    requires InRange(hosts, cs)
    ensures InRange(hosts, r)
  {
    if cs == [] then []
    else (if model in hosts[cs[0]].models then [cs[0]] else []) + WithModel(hosts, cs[1..], model)
  }

  /** The candidates with their weights, and the expanded list that is picked from. */
  function Weigh(hosts: seq<Host>, cs: seq<nat>): seq<Candidate>
    requires InRange(hosts, cs)
  {
    seq(|cs|, i requires 0 <= i < |cs| => Candidate(cs[i], hosts[cs[i]].weight))
  }

  function Ring(hosts: seq<Host>, cs: seq<nat>): seq<nat>
    requires InRange(hosts, cs)
  {
    Expand(Weigh(hosts, cs))
  }

  datatype Reason = Match | Plain | Fallback

  /** The candidate list a request is served from, and the counter that the pick is booked on. */
  function Pool(strategy: Strategy, hosts: seq<Host>, model: Option<string>): (r: (seq<nat>, Reason))
    ensures InRange(hosts, r.0)
  {
    CandidatesInRange(hosts);
    var cs := Candidates(hosts);
    if strategy.ModelAware? && model.Some? && model.value != "" then
      var matching := WithModel(hosts, cs, model.value);
      if matching != [] then (matching, Match) else (cs, Fallback)
    else (cs, Plain)
  }

  function Book(d: Decisions, reason: Reason): Decisions {
    match reason
    case Match => d.(modelMatch := d.modelMatch + 1)
    case Plain => d.(roundRobin := d.roundRobin + 1)
    case Fallback => d.(fallback := d.fallback + 1)
  }

  function Pick(strategy: Strategy, t: Table, model: Option<string>): (r: (Table, Option<nat>))
    ensures r.0.hosts == t.hosts
    ensures r.1.Some? ==> r.1.value < |t.hosts|
  {
    var (cs, reason) := Pool(strategy, t.hosts, model);
    var ring := Ring(t.hosts, cs);
    if ring == [] then (t, None)
    else
      RingInRange(t.hosts, cs, t.rr % |ring|);
      (t.(rr := t.rr + 1, decisions := Book(t.decisions, reason)), Some(ring[t.rr % |ring|]))
  }

  /** What can happen to one host: the outcome of a poll, or of a request. */
  datatype Change = PolledUp(models: set<string>) | PolledDown | Failed | Handled | ModelMissing(model: string)

  function HostAfter(h: Host, c: Change): Host {
    match c
    case PolledUp(models) => h.(reachable := true, models := models)
    case PolledDown => h.(reachable := false)
    case Failed => h.(reachable := false, failures := h.failures + 1)
    case Handled => h.(handled := h.handled + 1)
    case ModelMissing(model) => h.(models := h.models - {model})
  }

  function OnHost(t: Table, k: nat, c: Change): (r: Table)
    ensures |r.hosts| == |t.hosts|
  {
    if k < |t.hosts| then t.(hosts := t.hosts[k := HostAfter(t.hosts[k], c)]) else t
  }

  /** Everything that can happen to the table: another request's pick, or a change at a host. */
  datatype Event = Picked(wanted: Option<string>) | At(k: nat, change: Change)

  function Apply(strategy: Strategy, t: Table, e: Event): (r: Table)
    ensures |r.hosts| == |t.hosts|
  {
    match e
    case Picked(wanted) => Pick(strategy, t, wanted).0
    case At(k, change) => OnHost(t, k, change)
  }

  function ApplyAll(strategy: Strategy, t: Table, events: seq<Event>): (r: Table)
    ensures |r.hosts| == |t.hosts|
    decreases |events|
  {
    if events == [] then t else ApplyAll(strategy, Apply(strategy, t, events[0]), events[1..])
  }

  // ---- candidate lists -----------------------------------------------------

  predicate Ascending(cs: seq<nat>) {
    cs == [] || ((forall k :: k in cs[1..] ==> cs[0] < k) && Ascending(cs[1..]))
  }

  lemma {:induction false} AscendingOrder(cs: seq<nat>, i: nat, j: nat)
    requires Ascending(cs) && i < j < |cs|
    ensures cs[i] < cs[j]
  {
    if i == 0 {
      assert cs[j] == cs[1..][j - 1];
      assert cs[j] in cs[1..];
    } else {
      AscendingOrder(cs[1..], i - 1, j - 1);
    }
  }

  lemma {:induction false} AllFromFacts(hosts: seq<Host>, i: nat)
    requires i <= |hosts|
    ensures var r := AllFrom(hosts, i);
            && Ascending(r) && (forall k :: k in r <==> i <= k < |hosts|)
    decreases |hosts| - i
  {
    if i < |hosts| {
      AllFromFacts(hosts, i + 1);
      assert AllFrom(hosts, i)[1..] == AllFrom(hosts, i + 1);
    }
  }

  lemma AscendingCons(i: nat, rest: seq<nat>)
    requires Ascending(rest) && forall k :: k in rest ==> i < k
    ensures Ascending([i] + rest)
  {
    assert ([i] + rest)[1..] == rest;
  }

  lemma {:induction false} ReachableFromFacts(hosts: seq<Host>, i: nat)
    requires i <= |hosts|
    ensures var r := ReachableFrom(hosts, i);
            && Ascending(r) && (forall k :: k in r <==> i <= k < |hosts| && hosts[k].reachable)
    decreases |hosts| - i
  {
    if i < |hosts| {
      ReachableFromFacts(hosts, i + 1);
      hide Ascending;
      var rest := ReachableFrom(hosts, i + 1);
      if hosts[i].reachable {
        AscendingCons(i, rest);
      } else {
        assert [] + rest == rest;
      }
    }
  }

  ghost predicate AnyReachable(hosts: seq<Host>) {
    exists k :: 0 <= k < |hosts| && hosts[k].reachable
  }

  lemma HeadIsMember(s: seq<nat>)
    ensures s != [] ==> exists k :: k in s
  {
    if s != [] {
      assert s[0] in s;
    }
  }

  lemma CandidatesFacts(hosts: seq<Host>)
    ensures Ascending(Candidates(hosts))
    ensures forall k :: k in Candidates(hosts) <==>
              0 <= k < |hosts| && (hosts[k].reachable || !AnyReachable(hosts))
    ensures Candidates(hosts) == [] <==> hosts == []
  {
    ReachableFromFacts(hosts, 0);
    AllFromFacts(hosts, 0);
    var r := ReachableFrom(hosts, 0);
    if AnyReachable(hosts) {
      var k :| 0 <= k < |hosts| && hosts[k].reachable;
      assert k in r;
    } else {
      HeadIsMember(r);
    }
    if hosts != [] {
      assert 0 in AllFrom(hosts, 0);
    }
  }

  lemma CandidatesInRange(hosts: seq<Host>)
    ensures InRange(hosts, Candidates(hosts))
  {
    CandidatesFacts(hosts);
    var cs := Candidates(hosts);
    forall i | 0 <= i < |cs| ensures cs[i] < |hosts| {
      assert cs[i] in cs;
    }
  }

  lemma {:induction false} WithModelFacts(hosts: seq<Host>, cs: seq<nat>, model: string)
    requires InRange(hosts, cs) && Ascending(cs)
    ensures Ascending(WithModel(hosts, cs, model))
    ensures forall k :: k in WithModel(hosts, cs, model) <==> k in cs && model in hosts[k].models
  {
    if cs != [] {
      WithModelFacts(hosts, cs[1..], model);
      var rest := WithModel(hosts, cs[1..], model);
      if model in hosts[cs[0]].models {
        assert ([cs[0]] + rest)[1..] == rest;
      } else {
        assert [] + rest == rest;
      }
      assert forall k :: k in cs <==> k == cs[0] || k in cs[1..];
    }
  }

  lemma RingInRange(hosts: seq<Host>, cs: seq<nat>, j: nat)
    requires InRange(hosts, cs) && j < |Ring(hosts, cs)|
    ensures Ring(hosts, cs)[j] in cs && Ring(hosts, cs)[j] < |hosts|
  {
    var i := ExpandMembers(Weigh(hosts, cs), j);
    assert Weigh(hosts, cs)[i].host == cs[i];
  }

  lemma RingNonEmpty(hosts: seq<Host>, cs: seq<nat>)
    requires InRange(hosts, cs) && Weighted(hosts)
    ensures Ring(hosts, cs) == [] <==> cs == []
  {
    if cs != [] {
      var w := Weigh(hosts, cs);
      assert w[0].weight >= 1 && |Expand(w)| == w[0].weight + |Expand(w[1..])|;
    }
  }

  lemma PoolFacts(strategy: Strategy, hosts: seq<Host>, model: Option<string>)
    ensures var (cs, reason) := Pool(strategy, hosts, model);
            && Ascending(cs) && (cs == [] <==> hosts == [])
            && (forall k :: k in cs ==> k < |hosts| && k in Candidates(hosts))
            && (reason.Match? ==> forall k :: k in cs ==> model.value in hosts[k].models)
            && (strategy.ModelAware? && model.Some? && model.value != "" && !reason.Match? ==>
                  forall k :: k in Candidates(hosts) ==> model.value !in hosts[k].models)
  {
    CandidatesFacts(hosts);
    CandidatesInRange(hosts);
    if strategy.ModelAware? && model.Some? && model.value != "" {
      WithModelFacts(hosts, Candidates(hosts), model.value);
      var matching := WithModel(hosts, Candidates(hosts), model.value);
      assert forall k :: k in Candidates(hosts) && model.value in hosts[k].models ==> k in matching;
    }
  }

  // ---- what a pick guarantees ----------------------------------------------

  /** A pick fails only when no host is configured; it is a reachable host whenever one exists,
      and under model_aware a host with the model whenever a reachable one has it. */
  lemma PickIsSound(strategy: Strategy, t: Table, model: Option<string>)
    requires Weighted(t.hosts)
    ensures var (t1, picked) := Pick(strategy, t, model);
            && (picked.None? <==> t.hosts == [])
            && (picked.Some? && AnyReachable(t.hosts) ==> t.hosts[picked.value].reachable)
            && (picked.Some? && strategy.ModelAware? && model.Some? && model.value != ""
                && (exists k :: 0 <= k < |t.hosts| && t.hosts[k].reachable && model.value in t.hosts[k].models) ==>
                  t.hosts[picked.value].reachable && model.value in t.hosts[picked.value].models)
  {
    var (cs, reason) := Pool(strategy, t.hosts, model);
    PoolFacts(strategy, t.hosts, model);
    CandidatesFacts(t.hosts);
    RingNonEmpty(t.hosts, cs);
    var ring := Ring(t.hosts, cs);
    if ring != [] {
      RingInRange(t.hosts, cs, t.rr % |ring|);
    }
  }

  /** The round-robin counter is the number of routing decisions ever counted. */
  predicate Counted(t: Table) {
    t.rr == t.decisions.modelMatch + t.decisions.roundRobin + t.decisions.fallback
  }

  lemma {:induction false} EventsKeepCounted(strategy: Strategy, t: Table, events: seq<Event>)
    requires Counted(t) && Weighted(t.hosts)
    ensures Counted(ApplyAll(strategy, t, events)) && Weighted(ApplyAll(strategy, t, events).hosts)
    decreases |events|
  {
    if events != [] {
      EventsKeepCounted(strategy, Apply(strategy, t, events[0]), events[1..]);
    }
  }

  // ---- shares over many picks ----------------------------------------------

  /** How many of `n` picks in a row, for requests with the same model, go to host `k`. */
  function TimesPicked(strategy: Strategy, t: Table, model: Option<string>, n: nat, k: nat): nat
    decreases n
  {
    if n == 0 then 0
    else
      var (t1, picked) := Pick(strategy, t, model);
      Bit(picked == Some(k)) + TimesPicked(strategy, t1, model, n - 1, k)
  }

  lemma {:induction false} TimesPickedIsPicks(strategy: Strategy, t: Table, model: Option<string>, n: nat, k: nat)
    requires Ring(t.hosts, Pool(strategy, t.hosts, model).0) != []
    ensures TimesPicked(strategy, t, model, n, k) == Picks(Ring(t.hosts, Pool(strategy, t.hosts, model).0), t.rr, n, k)
    decreases n
  {
    hide Pool, Ring;
    if n > 0 {
      TimesPickedIsPicks(strategy, Pick(strategy, t, model).0, model, n - 1, k);
    }
  }

  /** Weighted round-robin is exact while the candidates stay the same: over any `n` picks a
      candidate gets between the floor and the ceiling of its share, and over as many picks as
      the total weight exactly its weight. */
  lemma PicksFollowWeights(strategy: Strategy, t: Table, model: Option<string>, n: nat, k: nat)
    requires Weighted(t.hosts) && k in Pool(strategy, t.hosts, model).0
    ensures k < |t.hosts| && Ring(t.hosts, Pool(strategy, t.hosts, model).0) != []
    ensures var total := |Ring(t.hosts, Pool(strategy, t.hosts, model).0)|;
            && TimesPicked(strategy, t, model, total, k) == t.hosts[k].weight
            && (n / total) * t.hosts[k].weight <= TimesPicked(strategy, t, model, n, k)
            && TimesPicked(strategy, t, model, n, k) <= CeilDiv(n, total) * t.hosts[k].weight
  {
    var cs := Pool(strategy, t.hosts, model).0;
    PoolFacts(strategy, t.hosts, model);
    RingNonEmpty(t.hosts, cs);
    var i :| 0 <= i < |cs| && cs[i] == k;
    var w := Weigh(t.hosts, cs);
    assert w[i] == Candidate(k, t.hosts[k].weight);
    forall a, b | 0 <= a < b < |w| ensures w[a].host != w[b].host {
      AscendingOrder(cs, a, b);
    }
    TimesPickedIsPicks(strategy, t, model, n, k);
    TimesPickedIsPicks(strategy, t, model, |Expand(w)|, k);
    WeightedShare(w, t.rr, n, i);
  }

  lemma ReachableOfThree(hosts: seq<Host>)
    requires |hosts| == 3
    ensures ReachableFrom(hosts, 0)
            == (if hosts[0].reachable then [0] else []) + (if hosts[1].reachable then [1] else []) + (if hosts[2].reachable then [2] else [])
  {
    assert ReachableFrom(hosts, 3) == [];
    assert ReachableFrom(hosts, 2) == (if hosts[2].reachable then [2] else []);
    assert ReachableFrom(hosts, 1) == (if hosts[1].reachable then [1] else []) + ReachableFrom(hosts, 2);
  }

  /** With weights of one the expanded list is the candidate list. */
  lemma {:induction false} OnesRing(hosts: seq<Host>, cs: seq<nat>)
    requires InRange(hosts, cs) && forall k :: 0 <= k < |hosts| ==> hosts[k].weight == 1
    ensures Ring(hosts, cs) == cs
  {
    if cs != [] {
      OnesRing(hosts, cs[1..]);
      assert Weigh(hosts, cs)[1..] == Weigh(hosts, cs[1..]);
      assert Repeat(cs[0], 1) == [cs[0]];
    }
  }

  // ---- the classes ---------------------------------------------------------

  /** HostRoutingState. */
  class HostState {
    const name: string
    const weight: nat
    var models: set<string>
    var reachable: bool
    var handled: nat
    var failures: nat

    function View(): Host
      reads this
    {
      Host(name, weight, models, reachable, handled, failures)
    }

    constructor (name: string, weight: nat)
      ensures View() == Host(name, weight, {}, true, 0, 0)
    {
      this.name, this.weight := name, weight;
      models, reachable, handled, failures := {}, true, 0, 0;
    }
  }

  /** RoutingTable: the host objects are shared with the request path, which changes them
      through the methods below. */
  class RoutingTable {
    const strategy: Strategy
    const hosts: seq<HostState>
    var rr: nat
    var decisions: Decisions

    ghost predicate Valid() {
      forall i, j :: 0 <= i < j < |hosts| ==> hosts[i] != hosts[j]
    }

    function HostViews(): (r: seq<Host>)
      reads hosts
      ensures |r| == |hosts|
    {
      seq(|hosts|, i requires 0 <= i < |hosts| reads hosts => hosts[i].View())
    }

    function View(): Table
      reads this, hosts
    {
      Table(HostViews(), rr, decisions)
    }

    constructor (strategy: Strategy, hosts: seq<HostState>)
      requires forall i, j :: 0 <= i < j < |hosts| ==> hosts[i] != hosts[j]
      ensures Valid() && this.hosts == hosts && this.strategy == strategy
      ensures rr == 0 && decisions == Decisions(0, 0, 0)
    {
      this.strategy, this.hosts := strategy, hosts;
      rr, decisions := 0, Decisions(0, 0, 0);
    }

    method MarkUnhealthy(k: nat)
      requires Valid() && k < |hosts|
      modifies hosts[k]
      ensures View() == OnHost(old(View()), k, Failed)
    {
      var state := hosts[k];
      state.reachable := false;
      state.failures := state.failures + 1;
      assert HostViews() == OnHost(old(View()), k, Failed).hosts;
    }

    method RecordHandled(k: nat)
      requires Valid() && k < |hosts|
      modifies hosts[k]
      ensures View() == OnHost(old(View()), k, Handled)
    {
      var state := hosts[k];
      state.handled := state.handled + 1;
      assert HostViews() == OnHost(old(View()), k, Handled).hosts;
    }

    method Invalidate(k: nat, model: string)
      requires Valid() && k < |hosts|
      modifies hosts[k]
      ensures View() == OnHost(old(View()), k, ModelMissing(model))
    {
      var state := hosts[k];
      state.models := state.models - {model};
      assert HostViews() == OnHost(old(View()), k, ModelMissing(model)).hosts;
    }

    /** The state updates of a finished poll: the models it found, or None for a failed one. */
    method PollHost(k: nat, found: Option<set<string>>)
      requires Valid() && k < |hosts|
      modifies hosts[k]
      ensures View() == OnHost(old(View()), k, if found.Some? then PolledUp(found.value) else PolledDown)
    {
      var state := hosts[k];
      if found.Some? {
        state.models := found.value;
        state.reachable := true;
        assert HostViews() == OnHost(old(View()), k, PolledUp(found.value)).hosts;
      } else {
        state.reachable := false;
        assert HostViews() == OnHost(old(View()), k, PolledDown).hosts;
      }
    }

    method PickRoundRobin(candidates: seq<nat>) returns (picked: Option<nat>)
      requires InRange(HostViews(), candidates)
      modifies this`rr
      ensures var ring := Ring(HostViews(), candidates);
              if ring == [] then picked == None && rr == old(rr)
              else picked == Some(ring[old(rr) % |ring|]) && rr == old(rr) + 1
    {
      ghost var w := Weigh(HostViews(), candidates);
      var weighted: seq<nat> := [];
      for i := 0 to |candidates|
        invariant weighted + Expand(w[i..]) == Expand(w)
      {
        assert w[i..][1..] == w[i + 1..];
        assert w[i] == Candidate(candidates[i], hosts[candidates[i]].weight);
        weighted := weighted + Repeat(candidates[i], hosts[candidates[i]].weight);
      }
      if weighted == [] {
        return None;
      }
      var idx := rr % |weighted|;
      rr := rr + 1;
      return Some(weighted[idx]);
    }

    /** A pick from one candidate list, booked on the counter for `reason`. */
    method PickAndBook(candidates: seq<nat>, reason: Reason) returns (picked: Option<nat>)
      requires InRange(HostViews(), candidates)
      modifies this
      ensures var ring := Ring(HostViews(), candidates);
              if ring == [] then picked == None && View() == old(View())
              else picked == Some(ring[old(rr) % |ring|])
                   && View() == Table(old(HostViews()), old(rr) + 1, Book(old(decisions), reason))
    {
      picked := PickRoundRobin(candidates);
      if picked.Some? {
        decisions := Book(decisions, reason);
      }
    }

    method PickHost(model: Option<string>) returns (picked: Option<nat>)
      modifies this
      ensures (View(), picked) == Pick(strategy, old(View()), model)
    {
      var views := HostViews();
      CandidatesInRange(views);
      var candidates := Candidates(views);
      if strategy.ModelAware? && model.Some? && model.value != "" {
        var withModel := WithModel(views, candidates, model.value);
        if withModel != [] {
          picked := PickAndBook(withModel, Match);
          return;
        }
        picked := PickAndBook(candidates, Fallback);
        return;
      }
      picked := PickAndBook(candidates, Plain);
    }

    /** One event of the environment. */
    method Happen(e: Event)
      requires Valid()
      modifies this, hosts
      ensures View() == Apply(strategy, old(View()), e)
    {
      match e {
        case Picked(wanted) => var _ := PickHost(wanted);
        case At(k, change) =>
          if k < |hosts| {
            match change {
              case PolledUp(models) => PollHost(k, Some(models));
              case PolledDown => PollHost(k, None);
              case Failed => MarkUnhealthy(k);
              case Handled => RecordHandled(k);
              case ModelMissing(model) => Invalidate(k, model);
            }
          }
      }
    }
  }
}
