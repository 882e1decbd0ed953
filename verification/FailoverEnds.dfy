/** When failover stops although a host is left to try: the exact conditions, for one turn of the
    loop, for a whole request, and for a configuration. */
module FailoverEnds {
  import opened Common
  import opened WeightedRoundRobin
  import opened Routing
  import opened SharedCounter
  import opened Failover

  // ---- one turn ------------------------------------------------------------

  lemma {:induction false} ExpandHolds(cs: seq<Candidate>, i: nat) returns (j: nat)
    requires i < |cs| && cs[i].weight >= 1
    ensures j < |Expand(cs)| && Expand(cs)[j] == cs[i].host
  {
    if i == 0 {
      j := 0;
    } else {
      j := ExpandHolds(cs[1..], i - 1);
      j := cs[0].weight + j;
    }
  }

  /** Every host of the pool stands somewhere in the list that is picked from. */
  lemma PoolInRing(strategy: Strategy, hosts: seq<Host>, model: Option<string>, k: nat) returns (j: nat)
    requires Weighted(hosts) && k in Pool(strategy, hosts, model).0
    ensures j < |RingFor(strategy, hosts, model)| && RingFor(strategy, hosts, model)[j] == k
  {
    var cs := Pool(strategy, hosts, model).0;
    PoolFacts(strategy, hosts, model);
    hide Pool;
    var i := WeighedCandidate(hosts, cs, k);
    j := ExpandHolds(Weigh(hosts, cs), i);
  }

  /** With this counter the loop gives up exactly when the counter points at a host that was
      tried before. */
  lemma GivesUpAtCounterIff(strategy: Strategy, t: Table, model: Option<string>, attempted: set<nat>, a: Attempt)
    requires Weighted(t.hosts) && t.hosts != []
    ensures RingFor(strategy, t.hosts, model) != []
    ensures var ring := RingFor(strategy, t.hosts, model);
            NextTurn(strategy, t, model, attempted, a).GiveUp? <==> ring[t.rr % |ring|] in attempted
  {
    PickMoves(strategy, t, model);
    hide Pick, RingFor, ApplyAll;
  }

  /** A counter value from which the list is picked at index `j`, reached by more picks. */
  lemma ReachIndex(rr: nat, w: nat, j: nat) returns (c: nat)
    requires j < w
    ensures (rr + c) % w == j
  {
    c := j + (w - 1) * rr;
    assert rr + c == w * rr + j by {
      assert (w - 1) * rr == w * rr - rr;
    }
    RemainderIs(rr + c, w, rr, j);
  }

  /** Can the loop give up in this turn? For some value of the shared counter exactly when the
      pool holds a host that was tried. */
  lemma CanGiveUpIff(strategy: Strategy, t: Table, model: Option<string>, attempted: set<nat>, a: Attempt)
    requires Weighted(t.hosts) && t.hosts != []
    ensures (exists c: nat :: NextTurn(strategy, t.(rr := c), model, attempted, a).GiveUp?)
            <==> exists k :: k in Pool(strategy, t.hosts, model).0 && k in attempted
  {
    hide NextTurn, Weighted;
    if k :| k in Pool(strategy, t.hosts, model).0 && k in attempted {
      var j := PoolInRing(strategy, t.hosts, model, k);
      var c := ReachIndex(0, |RingFor(strategy, t.hosts, model)|, j);
      GivesUpAtCounterIff(strategy, t.(rr := c), model, attempted, a);
      assert NextTurn(strategy, t.(rr := c), model, attempted, a).GiveUp?;
    }
    if c: nat :| NextTurn(strategy, t.(rr := c), model, attempted, a).GiveUp? {
      GivesUpAtCounterIff(strategy, t.(rr := c), model, attempted, a);
      var ring := RingFor(strategy, t.hosts, model);
      RingInRange(t.hosts, Pool(strategy, t.hosts, model).0, c % |ring|);
      assert ring[c % |ring|] in Pool(strategy, t.hosts, model).0;
    }
  }

  // ---- a whole request -----------------------------------------------------

  /** A host that was not tried: with `live` any that is marked reachable, whether the pool holds it
      or not; without, one of the pool, which may be the pool of last resort. */
  predicate LeftToTry(strategy: Strategy, hosts: seq<Host>, model: Option<string>, live: bool, tried: set<nat>, k: nat) {
    k !in tried && (if live then k < |hosts| && hosts[k].reachable else k in Pool(strategy, hosts, model).0)
  }

  /** The pool holds a host that was tried while one is left to try. */
  ghost predicate Mixed(strategy: Strategy, hosts: seq<Host>, model: Option<string>, live: bool, attempted: set<nat>) {
    && (exists a :: a in Pool(strategy, hosts, model).0 && a in attempted)
    && (exists b :: LeftToTry(strategy, hosts, model, live, attempted, b))
  }

  /** Does some turn of the loop meet a mixed pool? */
  ghost predicate MeetsMixed(strategy: Strategy, t: Table, model: Option<string>, live: bool, attempted: set<nat>, n: nat,
                             script: nat -> Attempt)
    decreases Indices(|t.hosts|) - attempted
  {
    Mixed(strategy, t.hosts, model, live, attempted)
    || match NextTurn(strategy, t, model, attempted, script(n))
       case Again(t1, k) =>
         (assert k in Indices(|t.hosts|) - attempted;
          MeetsMixed(strategy, t1, model, live, attempted + {k}, n + 1, script))
       case _ => false
  }

  /** The loop is exhausted with a host left to try. */
  ghost predicate EndsEarly(strategy: Strategy, t: Table, model: Option<string>, live: bool, attempted: set<nat>, n: nat,
                            script: nat -> Attempt)
  {
    var r := Dispatch(strategy, t, model, attempted, n, script);
    r.verdict.Exhausted? && exists k :: LeftToTry(strategy, r.table.hosts, model, live, attempted + Members(r.tried), k)
  }

  function Members(s: seq<nat>): set<nat> {
    set k | k in s
  }

  lemma NextTurnFacts(strategy: Strategy, t: Table, model: Option<string>, attempted: set<nat>, a: Attempt)
    requires Weighted(t.hosts) && t.hosts != []
    ensures var turn := NextTurn(strategy, t, model, attempted, a);
            && |turn.table.hosts| == |t.hosts| && Weighted(turn.table.hosts)
            && (turn.GiveUp? ==> turn.table.hosts == t.hosts) && (turn.End? ==> !turn.verdict.Exhausted?)
            && (turn.Again? ==> turn.k < |t.hosts| && turn.k !in attempted
                                && turn.table == OnHost(ApplyAll(strategy, Pick(strategy, t, model).0, a.during), turn.k, Failed))
  {
    PickIsSound(strategy, t, model);
    var (t1, picked) := Pick(strategy, t, model);
    TurnKeepsWeighted(strategy, t1, picked, model, attempted, a);
    hide Pick, ApplyAll, Weighted;
  }

  /** A request that ends early has met a mixed pool. */
  lemma {:induction false} EarlyEndMeetsMixed(strategy: Strategy, t: Table, model: Option<string>, live: bool,
                                              attempted: set<nat>, n: nat, script: nat -> Attempt)
    requires Weighted(t.hosts) && t.hosts != []
    requires EndsEarly(strategy, t, model, live, attempted, n, script)
    ensures MeetsMixed(strategy, t, model, live, attempted, n, script)
    decreases Indices(|t.hosts|) - attempted
  {
    hide NextTurn, Dispatch, LeftToTry, Mixed, Weighted, Pool;
    var turn := NextTurn(strategy, t, model, attempted, script(n));
    var r := Dispatch(strategy, t, model, attempted, n, script);
    var left :| LeftToTry(strategy, r.table.hosts, model, live, attempted + Members(r.tried), left);
    NextTurnFacts(strategy, t, model, attempted, script(n));
    DispatchUnfolds(strategy, t, model, attempted, n, script);
    match turn
    case GiveUp(t1) =>
      GiveUpIsMixed(strategy, t, model, live, attempted, script(n), left);
    case End(_, _) =>
    case Again(t1, k) =>
      var rest := Dispatch(strategy, t1, model, attempted + {k}, n + 1, script);
      assert attempted + Members([k] + rest.tried) == attempted + {k} + Members(rest.tried);
      assert k in Indices(|t.hosts|) - attempted;
      EarlyEndMeetsMixed(strategy, t1, model, live, attempted + {k}, n + 1, script);
  }

  lemma GiveUpIsMixed(strategy: Strategy, t: Table, model: Option<string>, live: bool, attempted: set<nat>, a: Attempt, left: nat)
    requires Weighted(t.hosts) && t.hosts != [] && NextTurn(strategy, t, model, attempted, a).GiveUp?
    requires LeftToTry(strategy, t.hosts, model, live, attempted + Members([]), left)
    ensures Mixed(strategy, t.hosts, model, live, attempted)
  {
    GivesUpAtCounterIff(strategy, t, model, attempted, a);
    hide NextTurn, Pool, Weighted;
    var ring := RingFor(strategy, t.hosts, model);
    RingInRange(t.hosts, Pool(strategy, t.hosts, model).0, t.rr % |ring|);
    assert attempted + Members([]) == attempted;
    assert LeftToTry(strategy, t.hosts, model, live, attempted, left);
  }

  // ---- picks by others -----------------------------------------------------

  /** The same script with `pads(n)` more picks by other requests at the end of attempt `n`. */
  function Padded(script: nat -> Attempt, pads: nat -> nat): nat -> Attempt {
    (n: nat) => Attempt(script(n).during + OtherPicks(pads(n)), script(n).outcome)
  }

  function OtherPicks(c: nat): seq<Event> {
    seq(c, _ => Picked(None))
  }

  lemma {:induction false} ApplyAppend(strategy: Strategy, t: Table, a: seq<Event>, b: seq<Event>)
    ensures ApplyAll(strategy, t, a + b) == ApplyAll(strategy, ApplyAll(strategy, t, a), b)
    decreases |a|
  {
    hide Apply;
    if a == [] {
      assert a + b == b;
    } else {
      assert (a + b)[1..] == a[1..] + b;
      ApplyAppend(strategy, Apply(strategy, t, a[0]), a[1..], b);
    }
  }

  lemma {:induction false} OtherPicksMove(strategy: Strategy, t: Table, c: nat)
    requires Weighted(t.hosts) && t.hosts != []
    ensures var t1 := ApplyAll(strategy, t, OtherPicks(c)); t1.hosts == t.hosts && t1.rr == t.rr + c
    decreases c
  {
    if c > 0 {
      PickMoves(strategy, t, None);
      hide Pick, Weighted;
      assert OtherPicks(c)[1..] == OtherPicks(c - 1);
      OtherPicksMove(strategy, Apply(strategy, t, Picked(None)), c - 1);
    }
  }

  /** A padded attempt that fails leaves the same hosts, and the counter further on. */
  lemma PaddedTurn(strategy: Strategy, t: Table, model: Option<string>, attempted: set<nat>, script: nat -> Attempt,
                   pads: nat -> nat, n: nat)
    requires Weighted(t.hosts) && t.hosts != [] && NextTurn(strategy, t, model, attempted, script(n)).Again?
    ensures var turn := NextTurn(strategy, t, model, attempted, script(n));
            var padded := NextTurn(strategy, t, model, attempted, Padded(script, pads)(n));
            && padded.Again? && padded.k == turn.k
            && padded.table.hosts == turn.table.hosts && padded.table.rr == turn.table.rr + pads(n)
  {
    hide Pick, ApplyAll, Weighted;
    var t1 := Pick(strategy, t, model).0;
    var t2 := ApplyAll(strategy, t1, script(n).during);
    ApplyAppend(strategy, t1, script(n).during, OtherPicks(pads(n)));
    assert Weighted(t2.hosts) && |t2.hosts| == |t.hosts| by {
      EventsKeepWeighted(strategy, t1, script(n).during);
    }
    OtherPicksMove(strategy, t2, pads(n));
    hide OtherPicks;
  }

  /** The loop looks at the script from its `n`-th attempt on. */
  lemma {:induction false} SameFrom(strategy: Strategy, t: Table, model: Option<string>, attempted: set<nat>, n: nat,
                                    script: nat -> Attempt, other: nat -> Attempt)
    requires forall i :: i >= n ==> script(i) == other(i)
    ensures Dispatch(strategy, t, model, attempted, n, script) == Dispatch(strategy, t, model, attempted, n, other)
    decreases Indices(|t.hosts|) - attempted
  {
    hide Dispatch, NextTurn;
    DispatchUnfolds(strategy, t, model, attempted, n, script);
    DispatchUnfolds(strategy, t, model, attempted, n, other);
    AgainFacts(strategy, t, model, attempted, script(n));
    var turn := NextTurn(strategy, t, model, attempted, script(n));
    if turn.Again? {
      assert turn.k in Indices(|t.hosts|) - attempted;
      SameFrom(strategy, turn.table, model, attempted + {turn.k}, n + 1, script, other);
    }
  }

  lemma AgainFacts(strategy: Strategy, t: Table, model: Option<string>, attempted: set<nat>, a: Attempt)
    ensures var turn := NextTurn(strategy, t, model, attempted, a);
            turn.Again? ==> |turn.table.hosts| == |t.hosts| && turn.k < |t.hosts| && turn.k !in attempted
  {
    hide Pick, ApplyAll;
  }

  lemma EndsEarlyLater(strategy: Strategy, t: Table, model: Option<string>, live: bool, attempted: set<nat>, n: nat,
                       script: nat -> Attempt, turn: Turn)
    requires turn == NextTurn(strategy, t, model, attempted, script(n)) && turn.Again?
    requires EndsEarly(strategy, turn.table, model, live, attempted + {turn.k}, n + 1, script)
    ensures EndsEarly(strategy, t, model, live, attempted, n, script)
  {
    DispatchUnfolds(strategy, t, model, attempted, n, script);
    hide Dispatch, NextTurn, LeftToTry;
    var rest := Dispatch(strategy, turn.table, model, attempted + {turn.k}, n + 1, script);
    assert attempted + Members([turn.k] + rest.tried) == attempted + {turn.k} + Members(rest.tried);
  }

  /** In a turn with a mixed pool whose counter points at a tried host, the request ends early. */
  lemma MixedTurnEnds(strategy: Strategy, t: Table, model: Option<string>, live: bool, attempted: set<nat>, n: nat,
                      script: nat -> Attempt)
    requires Weighted(t.hosts) && t.hosts != [] && Mixed(strategy, t.hosts, model, live, attempted)
    requires RingFor(strategy, t.hosts, model) != []
    requires var ring := RingFor(strategy, t.hosts, model); ring[t.rr % |ring|] in attempted
    ensures EndsEarly(strategy, t, model, live, attempted, n, script)
  {
    GivesUpAtCounterIff(strategy, t, model, attempted, script(n));
    NextTurnFacts(strategy, t, model, attempted, script(n));
    DispatchUnfolds(strategy, t, model, attempted, n, script);
    hide Dispatch, NextTurn, LeftToTry, Pool, RingFor, Weighted;
    var b :| LeftToTry(strategy, t.hosts, model, live, attempted, b);
    var r := Dispatch(strategy, t, model, attempted, n, script);
    assert r.tried == [] && r.table.hosts == t.hosts;
    assert attempted + Members([]) == attempted;
    assert LeftToTry(strategy, r.table.hosts, model, live, attempted + Members(r.tried), b);
  }

  /** A request that meets a mixed pool after its first turn can end early: a few picks by other
      requests in between are enough. */
  lemma {:induction false} MixedCanEndEarly(strategy: Strategy, t: Table, model: Option<string>, live: bool, attempted: set<nat>,
                                            n: nat, script: nat -> Attempt) returns (pads: nat -> nat)
    requires Weighted(t.hosts) && t.hosts != [] && !Mixed(strategy, t.hosts, model, live, attempted)
    requires MeetsMixed(strategy, t, model, live, attempted, n, script)
    ensures EndsEarly(strategy, t, model, live, attempted, n, Padded(script, pads))
    decreases Indices(|t.hosts|) - attempted
  {
    hide NextTurn, EndsEarly, Mixed, Weighted, Padded, Pool;
    var turn := NextTurn(strategy, t, model, attempted, script(n));
    NextTurnFacts(strategy, t, model, attempted, script(n));
    var t1, k := turn.table, turn.k;
    assert k in Indices(|t.hosts|) - attempted;
    assert MeetsMixed(strategy, t1, model, live, attempted + {k}, n + 1, script);
    if Mixed(strategy, t1.hosts, model, live, attempted + {k}) {
      pads := MixedNextCanEndEarly(strategy, t, model, live, attempted, n, script);
    } else {
      var later := MixedCanEndEarly(strategy, t1, model, live, attempted + {k}, n + 1, script);
      pads := (i: nat) => if i <= n then 0 else later(i);
      PadLater(script, pads, later, n);
      SameEnd(strategy, t1, model, live, attempted + {k}, n + 1, Padded(script, later), Padded(script, pads));
      EndsEarlyLater(strategy, t, model, live, attempted, n, Padded(script, pads), turn);
    }
  }

  lemma MixedNextCanEndEarly(strategy: Strategy, t: Table, model: Option<string>, live: bool, attempted: set<nat>,
                             n: nat, script: nat -> Attempt) returns (pads: nat -> nat)
    requires Weighted(t.hosts) && t.hosts != [] && NextTurn(strategy, t, model, attempted, script(n)).Again?
    requires var turn := NextTurn(strategy, t, model, attempted, script(n));
             Mixed(strategy, turn.table.hosts, model, live, attempted + {turn.k})
    ensures EndsEarly(strategy, t, model, live, attempted, n, Padded(script, pads))
  {
    hide NextTurn, EndsEarly, Weighted, Padded, RingFor, Pool, LeftToTry;
    var turn := NextTurn(strategy, t, model, attempted, script(n));
    NextTurnFacts(strategy, t, model, attempted, script(n));
    var hosts := turn.table.hosts;
    var a :| a in Pool(strategy, hosts, model).0 && a in attempted + {turn.k};
    var j := PoolInRing(strategy, hosts, model, a);
    var c := ReachIndex(turn.table.rr, |RingFor(strategy, hosts, model)|, j);
    pads := (i: nat) => if i == n then c else 0;
    PaddedTurn(strategy, t, model, attempted, script, pads, n);
    hide Mixed;
    var padded := NextTurn(strategy, t, model, attempted, Padded(script, pads)(n));
    MixedTurnEnds(strategy, padded.table, model, live, attempted + {turn.k}, n + 1, Padded(script, pads));
    EndsEarlyLater(strategy, t, model, live, attempted, n, Padded(script, pads), padded);
  }

  lemma PadLater(script: nat -> Attempt, pads: nat -> nat, later: nat -> nat, n: nat)
    requires pads(n) == 0 && forall i :: i > n ==> pads(i) == later(i)
    ensures Padded(script, pads)(n) == script(n)
    ensures forall i :: i >= n + 1 ==> Padded(script, later)(i) == Padded(script, pads)(i)
  {
    assert script(n).during + OtherPicks(0) == script(n).during;
  }

  lemma SameEnd(strategy: Strategy, t: Table, model: Option<string>, live: bool, attempted: set<nat>, n: nat,
                script: nat -> Attempt, other: nat -> Attempt)
    requires forall i :: i >= n ==> script(i) == other(i)
    requires EndsEarly(strategy, t, model, live, attempted, n, script)
    ensures EndsEarly(strategy, t, model, live, attempted, n, other)
  {
    SameFrom(strategy, t, model, attempted, n, script, other);
    hide Dispatch, LeftToTry;
  }

  /** Whatever the polls and the upstream do, a request can end early, given suitable picks by
      other requests during its attempts, if and only if, given suitable picks, some turn of it
      meets a pool that holds a tried host while a host is left to try. */
  lemma CanEndEarlyIff(strategy: Strategy, t: Table, model: Option<string>, live: bool, script: nat -> Attempt)
    requires Weighted(t.hosts) && t.hosts != []
    ensures (exists pads :: EndsEarly(strategy, t, model, live, {}, 0, Padded(script, pads)))
            <==> exists pads :: MeetsMixed(strategy, t, model, live, {}, 0, Padded(script, pads))
  {
    hide EndsEarly, MeetsMixed, Weighted, Padded;
    if pads: nat -> nat :| EndsEarly(strategy, t, model, live, {}, 0, Padded(script, pads)) {
      EarlyEndMeetsMixed(strategy, t, model, live, {}, 0, Padded(script, pads));
    }
    if pads: nat -> nat :| MeetsMixed(strategy, t, model, live, {}, 0, Padded(script, pads)) {
      NothingTriedIsNotMixed(strategy, t.hosts, model, live);
      var more := MixedCanEndEarly(strategy, t, model, live, {}, 0, Padded(script, pads));
      var sum := (i: nat) => pads(i) + more(i);
      PadTwice(script, pads, more, sum);
      SameEnd(strategy, t, model, live, {}, 0, Padded(Padded(script, pads), more), Padded(script, sum));
    }
  }

  lemma NothingTriedIsNotMixed(strategy: Strategy, hosts: seq<Host>, model: Option<string>, live: bool)
    ensures !Mixed(strategy, hosts, model, live, {})
  {
  }

  lemma PadTwice(script: nat -> Attempt, pads: nat -> nat, more: nat -> nat, sum: nat -> nat)
    requires forall i :: sum(i) == pads(i) + more(i)
    ensures forall i :: Padded(Padded(script, pads), more)(i) == Padded(script, sum)(i)
  {
    forall i: nat ensures Padded(Padded(script, pads), more)(i) == Padded(script, sum)(i) {
      assert script(i).during + OtherPicks(pads(i)) + OtherPicks(more(i)) == script(i).during + OtherPicks(sum(i));
    }
  }

  // ---- a configuration -----------------------------------------------------

  lemma {:induction false} AllTriedNeverMixed(strategy: Strategy, t: Table, model: Option<string>, live: bool, attempted: set<nat>,
                                              n: nat, script: nat -> Attempt)
    requires forall k :: 0 <= k < |t.hosts| ==> k in attempted
    ensures !MeetsMixed(strategy, t, model, live, attempted, n, script)
  {
    PoolFacts(strategy, t.hosts, model);
    hide Pool, Pick;
    assert !Mixed(strategy, t.hosts, model, live, attempted);
  }

  /** Where a live host is in the pool the whole pool is live. */
  lemma LivePool(strategy: Strategy, hosts: seq<Host>, model: Option<string>, a: nat, b: nat)
    requires a in Pool(strategy, hosts, model).0 && b < |hosts| && hosts[b].reachable
    ensures a < |hosts| && hosts[a].reachable
  {
    PoolFacts(strategy, hosts, model);
    CandidatesFacts(hosts);
  }

  /** With one or two hosts no pool holds a tried host while a live one is untried. */
  lemma TwoHostsNeverMixed(strategy: Strategy, t: Table, model: Option<string>, script: nat -> Attempt)
    requires Weighted(t.hosts) && 0 < |t.hosts| <= 2
    ensures !MeetsMixed(strategy, t, model, true, {}, 0, script)
  {
    hide NextTurn, MeetsMixed, Mixed, Weighted, Indices;
    var first := NextTurn(strategy, t, model, {}, script(0));
    NextTurnFacts(strategy, t, model, {}, script(0));
    NothingTriedIsNotMixed(strategy, t.hosts, model, true);
    MeetsMixedUnfolds(strategy, t, model, true, {}, 0, script);
    if first.Again? {
      assert {} + {first.k} == {first.k};
      assert !first.table.hosts[first.k].reachable;
      OneTriedOfTwo(strategy, first.table, model, first.k, script);
    }
  }

  lemma MeetsMixedUnfolds(strategy: Strategy, t: Table, model: Option<string>, live: bool, attempted: set<nat>, n: nat,
                          script: nat -> Attempt)
    ensures MeetsMixed(strategy, t, model, live, attempted, n, script)
            <==> || Mixed(strategy, t.hosts, model, live, attempted)
                 || (match NextTurn(strategy, t, model, attempted, script(n))
                     case Again(t1, k) => MeetsMixed(strategy, t1, model, live, attempted + {k}, n + 1, script)
                     case _ => false)
  {
    var turn := NextTurn(strategy, t, model, attempted, script(n));
    if turn.Again? {
      assert turn.k in Indices(|t.hosts|) - attempted && |turn.table.hosts| == |t.hosts|;
    }
    hide NextTurn, Mixed;
  }

  lemma OneTriedOfTwo(strategy: Strategy, t: Table, model: Option<string>, k: nat, script: nat -> Attempt)
    requires Weighted(t.hosts) && k < |t.hosts| <= 2 && !t.hosts[k].reachable
    ensures !MeetsMixed(strategy, t, model, true, {k}, 1, script)
  {
    hide NextTurn, MeetsMixed, Mixed, Weighted;
    FailedIsNotMixed(strategy, t, model, k);
    var turn := NextTurn(strategy, t, model, {k}, script(1));
    NextTurnFacts(strategy, t, model, {k}, script(1));
    MeetsMixedUnfolds(strategy, t, model, true, {k}, 1, script);
    if turn.Again? {
      assert forall x :: 0 <= x < |turn.table.hosts| ==> x in {k} + {turn.k};
      AllTriedNeverMixed(strategy, turn.table, model, true, {k} + {turn.k}, 2, script);
    }
  }

  lemma FailedIsNotMixed(strategy: Strategy, t: Table, model: Option<string>, k: nat)
    requires k < |t.hosts| && !t.hosts[k].reachable
    ensures !Mixed(strategy, t.hosts, model, true, {k})
  {
    if b :| LeftToTry(strategy, t.hosts, model, true, {k}, b) {
      if k in Pool(strategy, t.hosts, model).0 {
        LivePool(strategy, t.hosts, model, k, b);
      }
    }
  }

  /** Polls that find every host up, with no models. */
  function AllUp(n: nat): seq<Event> {
    if n == 0 then [] else AllUp(n - 1) + [At(n - 1, PolledUp({}))]
  }

  lemma ApplyOne(strategy: Strategy, t: Table, k: nat, change: Change)
    ensures ApplyAll(strategy, t, [At(k, change)]) == OnHost(t, k, change)
  {
    hide OnHost;
    assert [At(k, change)][1..] == [];
    assert ApplyAll(strategy, Apply(strategy, t, At(k, change)), []) == Apply(strategy, t, At(k, change));
  }

  lemma {:induction false} AllUpLifts(strategy: Strategy, t: Table, n: nat)
    requires n <= |t.hosts|
    ensures forall k :: 0 <= k < n ==>
              ApplyAll(strategy, t, AllUp(n)).hosts[k].reachable && ApplyAll(strategy, t, AllUp(n)).hosts[k].models == {}
  {
    if n > 0 {
      hide ApplyAll, Apply;
      var e := At(n - 1, PolledUp({}));
      var t1 := ApplyAll(strategy, t, AllUp(n - 1));
      ApplyAppend(strategy, t, AllUp(n - 1), [e]);
      AllUpLifts(strategy, t, n - 1);
      ApplyOne(strategy, t1, n - 1, PolledUp({}));
      var t2 := ApplyAll(strategy, t, AllUp(n));
      assert AllUp(n) == AllUp(n - 1) + [e];
      assert t2 == OnHost(t1, n - 1, PolledUp({}));
    }
  }

  /** Without any models the pool is the candidates. */
  lemma PoolWithoutModels(strategy: Strategy, hosts: seq<Host>, model: Option<string>)
    requires forall k :: 0 <= k < |hosts| ==> hosts[k].models == {}
    ensures Pool(strategy, hosts, model).0 == Candidates(hosts)
  {
    CandidatesFacts(hosts);
    CandidatesInRange(hosts);
    if model.Some? {
      WithModelFacts(hosts, Candidates(hosts), model.value);
      var matching := WithModel(hosts, Candidates(hosts), model.value);
      hide Candidates;
      HeadIsMember(matching);
    }
  }

  /** All hosts but `down` are up, and none reports a model. */
  ghost predicate OneDown(hosts: seq<Host>, down: nat) {
    forall k :: 0 <= k < |hosts| ==> hosts[k].models == {} && (hosts[k].reachable <==> k != down)
  }

  lemma UpTurn(strategy: Strategy, t: Table, model: Option<string>, attempted: set<nat>)
    requires Weighted(t.hosts) && t.hosts != []
    ensures var turn := NextTurn(strategy, t, model, attempted, Attempt(AllUp(|t.hosts|), Caught));
            !turn.GiveUp? ==> turn.Again? && OneDown(turn.table.hosts, turn.k)
  {
    hide Pick, ApplyAll, AllUp, Weighted;
    var (t1, picked) := Pick(strategy, t, model);
    var ups := AllUp(|t.hosts|);
    var t2 := ApplyAll(strategy, t1, ups);
    AllUpLifts(strategy, t1, |t.hosts|);
    if picked.Some? && picked.value !in attempted {
      assert NextTurn(strategy, t, model, attempted, Attempt(ups, Caught)) == Again(OnHost(t2, picked.value, Failed), picked.value);
      hide NextTurn, TurnOf;
      assert forall k :: 0 <= k < |t2.hosts| ==> t2.hosts[k].reachable && t2.hosts[k].models == {};
    }
  }

  lemma OneDownPool(strategy: Strategy, hosts: seq<Host>, model: Option<string>, down: nat)
    requires OneDown(hosts, down) && |hosts| >= 2
    ensures forall k :: k in Pool(strategy, hosts, model).0 <==> 0 <= k < |hosts| && k != down
  {
    PoolWithoutModels(strategy, hosts, model);
    CandidatesFacts(hosts);
    var up := if down == 0 then 1 else 0;
    assert hosts[up].reachable;
    hide Pool, Candidates;
  }

  /** With three hosts or more some run of polls makes a request meet a mixed pool: each poll round
      revives the host tried before. */
  lemma ThreeHostsMixed(strategy: Strategy, t: Table, model: Option<string>) returns (script: nat -> Attempt)
    requires Weighted(t.hosts) && |t.hosts| >= 3
    ensures MeetsMixed(strategy, t, model, true, {}, 0, script)
  {
    hide NextTurn, Pool, AllUp, Weighted;
    var round := Attempt(AllUp(|t.hosts|), Caught);
    script := (n: nat) => round;
    var first := NextTurn(strategy, t, model, {}, round);
    UpTurn(strategy, t, model, {});
    NextTurnFacts(strategy, t, model, {}, round);
    NothingTriedNoGiveUp(strategy, t, model, round);
    var t1, k1 := first.table, first.k;
    OneDownPool(strategy, t1.hosts, model, k1);
    var second := NextTurn(strategy, t1, model, {k1}, round);
    UpTurn(strategy, t1, model, {k1});
    NextTurnFacts(strategy, t1, model, {k1}, round);
    PoolUntriedNoGiveUp(strategy, t1, model, {k1}, round);
    var t2, k2 := second.table, second.k;
    OneDownPool(strategy, t2.hosts, model, k2);
    var k3 := if k1 != 0 && k2 != 0 then 0 else if k1 != 1 && k2 != 1 then 1 else 2;
    assert LeftToTry(strategy, t2.hosts, model, true, {k1} + {k2}, k3);
    assert Mixed(strategy, t2.hosts, model, true, {k1} + {k2});
    assert MeetsMixed(strategy, t2, model, true, {k1} + {k2}, 2, script);
    assert MeetsMixed(strategy, t1, model, true, {k1}, 1, script);
    assert {} + {k1} == {k1};
  }

  lemma PoolUntriedNoGiveUp(strategy: Strategy, t: Table, model: Option<string>, attempted: set<nat>, a: Attempt)
    requires Weighted(t.hosts) && t.hosts != []
    requires forall k :: k in attempted ==> k !in Pool(strategy, t.hosts, model).0
    ensures !NextTurn(strategy, t, model, attempted, a).GiveUp?
  {
    GivesUpAtCounterIff(strategy, t, model, attempted, a);
    hide NextTurn, Pool, Weighted;
    var ring := RingFor(strategy, t.hosts, model);
    RingInRange(t.hosts, Pool(strategy, t.hosts, model).0, t.rr % |ring|);
  }

  lemma NothingTriedNoGiveUp(strategy: Strategy, t: Table, model: Option<string>, a: Attempt)
    requires Weighted(t.hosts) && t.hosts != []
    ensures !NextTurn(strategy, t, model, {}, a).GiveUp?
  {
    GivesUpAtCounterIff(strategy, t, model, {}, a);
  }

  /** A configuration in which the loop can be exhausted, whatever the strategy, the model and the
      state of the table, while a live host is untried: exactly one with at least three hosts. */
  lemma LiveHostCanBeLeftIff(strategy: Strategy, t: Table, model: Option<string>)
    requires Weighted(t.hosts) && t.hosts != []
    ensures (exists script :: EndsEarly(strategy, t, model, true, {}, 0, script)) <==> |t.hosts| >= 3
  {
    hide EndsEarly, MeetsMixed, Weighted, Padded;
    if |t.hosts| >= 3 {
      var script := ThreeHostsMixed(strategy, t, model);
      NothingTriedIsNotMixed(strategy, t.hosts, model, true);
      var pads := MixedCanEndEarly(strategy, t, model, true, {}, 0, script);
      assert EndsEarly(strategy, t, model, true, {}, 0, Padded(script, pads));
    } else if script: nat -> Attempt :| EndsEarly(strategy, t, model, true, {}, 0, script) {
      EarlyEndMeetsMixed(strategy, t, model, true, {}, 0, script);
      TwoHostsNeverMixed(strategy, t, model, script);
    }
  }

  /** The run of RevivalEndsFailoverEarly is an instance. */
  lemma RevivalEndsEarly() returns (t: Table, script: nat -> Attempt)
    ensures Weighted(t.hosts) && |t.hosts| == 3
    ensures EndsEarly(RoundRobin, t, None, true, {}, 0, script)
    ensures MeetsMixed(RoundRobin, t, None, true, {}, 0, script)
  {
    t, script := RevivalEndsFailoverEarly();
    hide Dispatch, Weighted;
    var r := Dispatch(RoundRobin, t, None, {}, 0, script);
    CandidatesFacts(r.table.hosts);
    assert LeftToTry(RoundRobin, r.table.hosts, None, true, {} + Members(r.tried), 1);
    EarlyEndMeetsMixed(RoundRobin, t, None, true, {}, 0, script);
  }

  lemma OneEvent(strategy: Strategy, t: Table, k: nat, change: Change)
    ensures ApplyAll(strategy, t, []) == t && ApplyAll(strategy, t, [At(k, change)]) == OnHost(t, k, change)
  {
    ApplyOne(strategy, t, k, change);
  }

  /** Under model_aware the host left behind need not be in any pool that holds a tried one. Host 0
      alone has the model. It fails, another host fails, meanwhile a poll revives host 0: the pool
      is host 0 again, and the third host stays untried though it is up. This happens whatever the
      counter was. */
  lemma HiddenHostLeft(rr: nat, decisions: Decisions) returns (t: Table, script: nat -> Attempt)
    ensures Weighted(t.hosts) && |t.hosts| == 3 && t.rr == rr && t.decisions == decisions
    ensures forall k :: 0 <= k < 3 ==> t.hosts[k].reachable
    ensures EndsEarly(ModelAware, t, Some("m"), true, {}, 0, script)
    ensures MeetsMixed(ModelAware, t, Some("m"), true, {}, 0, script)
  {
    var h := Host("a", 1, {"m"}, true, 0, 0);
    t := Table([h, h.(name := "b", models := {}), h.(name := "c", models := {})], rr, decisions);
    script := (n: nat) => Attempt(if n == 1 then [At(0, PolledUp({"m"}))] else [], Caught);
    hide EndsEarly, MeetsMixed;
    HostZeroHides(t, script);
  }

  /** The same for every table in which host 0 alone has the model. */
  lemma HostZeroHides(t: Table, script: nat -> Attempt)
    requires ZeroHasModel(t.hosts, None)
    requires script(0) == Attempt([], Caught) && script(1) == Attempt([At(0, PolledUp({"m"}))], Caught)
    ensures EndsEarly(ModelAware, t, Some("m"), true, {}, 0, script)
    ensures MeetsMixed(ModelAware, t, Some("m"), true, {}, 0, script)
  {
    hide Dispatch, NextTurn, EndsEarly, MeetsMixed, Weighted, Pool;
    var t1 := HostZeroFails(t, script(0));
    var t2, k := HostZeroReturns(t1, script(1));
    LastTurnGivesUp(t2, {} + {0} + {k}, script);
    assert LeftToTry(ModelAware, t2.hosts, Some("m"), true, {} + {0} + {k}, 3 - k);
    EndsAtOnce(ModelAware, t2, Some("m"), true, {} + {0} + {k}, 2, script, 3 - k);
    EndsEarlyLater(ModelAware, t1, Some("m"), true, {} + {0}, 1, script, Again(t2, k));
    EndsEarlyLater(ModelAware, t, Some("m"), true, {}, 0, script, Again(t1, 0));
    EarlyEndMeetsMixed(ModelAware, t, Some("m"), true, {}, 0, script);
  }

  /** Three hosts, of which host 0 alone has the model; `down` is not reachable. */
  ghost predicate ZeroHasModel(hosts: seq<Host>, down: Option<nat>) {
    && |hosts| == 3 && Weighted(hosts) && hosts[0].models == {"m"} && hosts[1].models == hosts[2].models == {}
    && forall k :: 0 <= k < 3 ==> (hosts[k].reachable <==> down != Some(k))
  }

  lemma HostZeroFails(t: Table, a: Attempt) returns (t1: Table)
    requires ZeroHasModel(t.hosts, None) && a == Attempt([], Caught)
    ensures NextTurn(ModelAware, t, Some("m"), {}, a) == Again(t1, 0) && ZeroHasModel(t1.hosts, Some(0))
  {
    var p0 := Pick(ModelAware, t, Some("m")).0;
    PickIsSound(ModelAware, t, Some("m"));
    hide Pick;
    assert t.hosts[0].reachable && "m" in t.hosts[0].models;
    t1 := OnHost(p0, 0, Failed);
    OneEvent(ModelAware, p0, 0, Failed);
  }

  lemma HostZeroReturns(t: Table, a: Attempt) returns (t2: Table, k: nat)
    requires ZeroHasModel(t.hosts, Some(0)) && a == Attempt([At(0, PolledUp({"m"}))], Caught)
    ensures NextTurn(ModelAware, t, Some("m"), {} + {0}, a) == Again(t2, k)
    ensures (k == 1 || k == 2) && ZeroHasModel(t2.hosts, Some(k))
  {
    var (p1, picked) := Pick(ModelAware, t, Some("m"));
    PickIsSound(ModelAware, t, Some("m"));
    hide Pick;
    assert t.hosts[1].reachable;
    OneEvent(ModelAware, p1, 0, PolledUp({"m"}));
    k := picked.value;
    t2 := OnHost(OnHost(p1, 0, PolledUp({"m"})), k, Failed);
  }

  lemma LastTurnGivesUp(t: Table, attempted: set<nat>, script: nat -> Attempt)
    requires Weighted(t.hosts) && t.hosts != [] && 0 in attempted && t.hosts[0].reachable && "m" in t.hosts[0].models
    requires forall k :: 0 < k < |t.hosts| ==> "m" !in t.hosts[k].models
    ensures NextTurn(ModelAware, t, Some("m"), attempted, script(2)).GiveUp?
  {
    PickIsSound(ModelAware, t, Some("m"));
    hide Pick;
  }

  lemma EndsAtOnce(strategy: Strategy, t: Table, model: Option<string>, live: bool, attempted: set<nat>, n: nat,
                   script: nat -> Attempt, left: nat)
    requires Weighted(t.hosts) && t.hosts != [] && NextTurn(strategy, t, model, attempted, script(n)).GiveUp?
    requires LeftToTry(strategy, t.hosts, model, live, attempted, left)
    ensures EndsEarly(strategy, t, model, live, attempted, n, script)
  {
    NextTurnFacts(strategy, t, model, attempted, script(n));
    DispatchUnfolds(strategy, t, model, attempted, n, script);
    hide Dispatch, NextTurn, LeftToTry, Weighted;
    var r := Dispatch(strategy, t, model, attempted, n, script);
    assert attempted + Members(r.tried) == attempted;
    assert LeftToTry(strategy, r.table.hosts, model, live, attempted + Members(r.tried), left);
  }

  // ---- exceptions that are not caught ----------------------------------------

  /** An exception that the loop does not catch ends the request as well, without a retry. It can
      leave a live host untried exactly from two hosts on. */
  lemma EscapeLeavesLiveHostIff(strategy: Strategy, t: Table, model: Option<string>)
    requires Weighted(t.hosts) && t.hosts != []
    ensures (exists script :: EscapesEarly(strategy, t, model, script)) <==> |t.hosts| >= 2
  {
    hide EscapesEarly, Weighted;
    if |t.hosts| >= 2 {
      var script := UpAndRaise(strategy, t, model);
      assert EscapesEarly(strategy, t, model, script);
    } else if script: nat -> Attempt :| EscapesEarly(strategy, t, model, script) {
      OneHostIsTried(strategy, t, model, script);
    }
  }

  lemma OneHostIsTried(strategy: Strategy, t: Table, model: Option<string>, script: nat -> Attempt)
    requires |t.hosts| == 1
    ensures !EscapesEarly(strategy, t, model, script)
  {
    hide Dispatch;
    VerdictIsTried(strategy, t, model, {}, 0, script);
    TriedAreNew(strategy, t, model, {}, 0, script);
    var r := Dispatch(strategy, t, model, {}, 0, script);
    assert r.verdict.Escaped? ==> r.verdict.k == 0 && 0 in r.tried;
  }

  /** The request ends with an exception while a live host is untried. */
  ghost predicate EscapesEarly(strategy: Strategy, t: Table, model: Option<string>, script: nat -> Attempt) {
    var r := Dispatch(strategy, t, model, {}, 0, script);
    r.verdict.Escaped? && exists k :: 0 <= k < |r.table.hosts| && r.table.hosts[k].reachable && k !in r.tried
  }

  lemma UpAndRaise(strategy: Strategy, t: Table, model: Option<string>) returns (script: nat -> Attempt)
    requires Weighted(t.hosts) && |t.hosts| >= 2
    ensures EscapesEarly(strategy, t, model, script)
  {
    script := (n: nat) => Attempt(AllUp(|t.hosts|), Raised);
    DispatchUnfolds(strategy, t, model, {}, 0, script);
    PickIsSound(strategy, t, model);
    hide Dispatch, Pick, ApplyAll;
    var (t1, picked) := Pick(strategy, t, model);
    AllUpLifts(strategy, t1, |t.hosts|);
    var t2 := ApplyAll(strategy, t1, AllUp(|t.hosts|));
    assert Dispatch(strategy, t, model, {}, 0, script) == Result(t2, [picked.value], Escaped(picked.value));
    var other := if picked.value == 0 then 1 else 0;
    assert t2.hosts[other].reachable;
  }
}
