/** What a request does to the routing table, and what decides its verdict, read off the hosts that
    it tried and the way each attempt ended. */
module FailoverEffects {
  import opened Common
  import opened Routing
  import opened RoutingShares
  import opened Failover
  import opened FailoverEnds

  /** What the request itself reports about the host of one attempt. */
  function Reported(k: nat, outcome: Outcome, model: Option<string>): seq<Event> {
    match outcome
    case Response(missing) =>
      if missing && model.Some? && model.value != "" then [At(k, Handled), At(k, ModelMissing(model.value))] else [At(k, Handled)]
    case Unreadable => [At(k, Handled)]
    case Raised => []
    case Caught => [At(k, Failed)]
  }

  /** Everything that happens to the table while the hosts `tried` are tried, from attempt `n` on:
      each pick, what others do meanwhile, and what the attempt reports. */
  function Trace(tried: seq<nat>, n: nat, script: nat -> Attempt, model: Option<string>): seq<Event>
    decreases |tried|
  {
    if tried == [] then []
    else [Picked(model)] + script(n).during + Reported(tried[0], script(n).outcome, model) + Trace(tried[1..], n + 1, script, model)
  }

  lemma ApplyThree(strategy: Strategy, t: Table, model: Option<string>, during: seq<Event>, own: seq<Event>)
    ensures ApplyAll(strategy, t, [Picked(model)] + during + own)
            == ApplyAll(strategy, ApplyAll(strategy, Pick(strategy, t, model).0, during), own)
  {
    hide Pick;
    ApplyAppend(strategy, t, [Picked(model)] + during, own);
    ApplyAppend(strategy, t, [Picked(model)], during);
    assert [Picked(model)][1..] == [];
    assert ApplyAll(strategy, Apply(strategy, t, Picked(model)), []) == Pick(strategy, t, model).0;
  }

  lemma OwnReports(strategy: Strategy, t: Table, k: nat, outcome: Outcome, model: Option<string>)
    ensures ApplyAll(strategy, t, Reported(k, outcome, model))
            == match outcome
               case Response(missing) => AfterResponse(t, k, model, missing)
               case Unreadable => AfterResponse(t, k, model, false)
               case Raised => t
               case Caught => OnHost(t, k, Failed)
  {
    hide OnHost;
    OneEvent(strategy, t, k, Failed);
    OneEvent(strategy, t, k, Handled);
    if model.Some? {
      var missing := At(k, ModelMissing(model.value));
      ApplyAppend(strategy, t, [At(k, Handled)], [missing]);
      OneEvent(strategy, OnHost(t, k, Handled), k, ModelMissing(model.value));
      assert [At(k, Handled)] + [missing] == [At(k, Handled), missing];
    }
  }

  /** Table `t1` is `t` after the pick, what others did meanwhile, and the report on host `k`. */
  predicate Traced(strategy: Strategy, t: Table, model: Option<string>, a: Attempt, k: nat, t1: Table) {
    t1 == ApplyAll(strategy, t, [Picked(model)] + a.during + Reported(k, a.outcome, model))
  }

  /** One attempt as events. */
  lemma TurnIsTraced(strategy: Strategy, t: Table, model: Option<string>, attempted: set<nat>, a: Attempt)
    ensures var turn := NextTurn(strategy, t, model, attempted, a);
            && (turn.GiveUp? ==> turn.table == Pick(strategy, t, model).0)
            && (turn.Again? ==> a.outcome == Caught && Traced(strategy, t, model, a, turn.k, turn.table))
            && (turn.End? ==> a.outcome != Caught && !turn.verdict.Exhausted? && turn.verdict.Served? == a.outcome.Response?)
            && (turn.End? ==> Traced(strategy, t, model, a, turn.verdict.k, turn.table))
  {
    var turn := NextTurn(strategy, t, model, attempted, a);
    if !turn.GiveUp? {
      var k := if turn.Again? then turn.k else turn.verdict.k;
      ApplyThree(strategy, t, model, a.during, Reported(k, a.outcome, model));
      OwnReports(strategy, ApplyAll(strategy, Pick(strategy, t, model).0, a.during), k, a.outcome, model);
      hide Pick, ApplyAll, Reported, AfterResponse, OnHost;
    }
  }

  lemma TraceStep(strategy: Strategy, t: Table, t1: Table, k: nat, rest: seq<nat>, n: nat, script: nat -> Attempt,
                  model: Option<string>, last: seq<Event>)
    requires t1 == ApplyAll(strategy, t, [Picked(model)] + script(n).during + Reported(k, script(n).outcome, model))
    ensures ApplyAll(strategy, t, Trace([k] + rest, n, script, model) + last)
            == ApplyAll(strategy, t1, Trace(rest, n + 1, script, model) + last)
  {
    hide ApplyAll, Trace, Reported;
    var first := [Picked(model)] + script(n).during + Reported(k, script(n).outcome, model);
    var later := Trace(rest, n + 1, script, model);
    TraceUnfolds(k, rest, n, script, model);
    assert (first + later) + last == first + (later + last);
    ApplyAppend(strategy, t, first, later + last);
  }

  lemma TraceUnfolds(k: nat, rest: seq<nat>, n: nat, script: nat -> Attempt, model: Option<string>)
    ensures Trace([k] + rest, n, script, model)
            == [Picked(model)] + script(n).during + Reported(k, script(n).outcome, model) + Trace(rest, n + 1, script, model)
  {
    hide Reported;
    assert ([k] + rest)[1..] == rest;
  }

  /** The table after a request is the one it met after exactly these events: for each host tried its
      pick, what others did meanwhile and the report of its attempt, and, if the loop gave up, one
      pick more. */
  lemma {:induction false} RequestIsTraced(strategy: Strategy, t: Table, model: Option<string>, attempted: set<nat>, n: nat,
                                           script: nat -> Attempt)
    ensures var r := Dispatch(strategy, t, model, attempted, n, script);
            r.table == ApplyAll(strategy, t, Trace(r.tried, n, script, model) + (if r.verdict.Exhausted? then [Picked(model)] else []))
    decreases Indices(|t.hosts|) - attempted
  {
    var turn := NextTurn(strategy, t, model, attempted, script(n));
    DispatchUnfolds(strategy, t, model, attempted, n, script);
    TurnIsTraced(strategy, t, model, attempted, script(n));
    AgainFacts(strategy, t, model, attempted, script(n));
    hide Dispatch, NextTurn, Reported, Pick;
    match turn
    case GiveUp(t1) =>
      assert [] + [Picked(model)] == [Picked(model)] && [Picked(model)][1..] == [];
      assert ApplyAll(strategy, Apply(strategy, t, Picked(model)), []) == t1;
      assert Trace([], n, script, model) == [];
    case End(t1, verdict) =>
      TraceStep(strategy, t, t1, verdict.k, [], n, script, model, []);
      assert [verdict.k] + [] == [verdict.k];
      assert Trace([], n + 1, script, model) + [] == [];
    case Again(t1, k) =>
      assert k in Indices(|t.hosts|) - attempted;
      RequestIsTraced(strategy, t1, model, attempted + {k}, n + 1, script);
      var rest := Dispatch(strategy, t1, model, attempted + {k}, n + 1, script);
      TraceStep(strategy, t, t1, k, rest.tried, n, script, model, if rest.verdict.Exhausted? then [Picked(model)] else []);
  }

  /** The verdict: every attempt but the last failed in a way that is caught. The request is served
      by the last host if that one responded with a body that can be read, an exception escapes if it
      did not, and the loop is exhausted if the last attempt failed as well, or none was made. */
  lemma {:induction false} VerdictIsTheLast(strategy: Strategy, t: Table, model: Option<string>, attempted: set<nat>, n: nat,
                                            script: nat -> Attempt)
    ensures var r := Dispatch(strategy, t, model, attempted, n, script);
            var m := |r.tried|;
            && (forall i :: n <= i < n + m - 1 ==> script(i).outcome == Caught)
            && (r.verdict.Exhausted? <==> m == 0 || script(n + m - 1).outcome == Caught)
            && (r.verdict.Served? <==> m > 0 && script(n + m - 1).outcome.Response?)
            && (!r.verdict.Exhausted? ==> r.verdict.k == r.tried[m - 1])
    decreases Indices(|t.hosts|) - attempted
  {
    var turn := NextTurn(strategy, t, model, attempted, script(n));
    DispatchUnfolds(strategy, t, model, attempted, n, script);
    TurnIsTraced(strategy, t, model, attempted, script(n));
    AgainFacts(strategy, t, model, attempted, script(n));
    hide Dispatch, NextTurn, Reported, Pick, ApplyAll;
    if turn.Again? {
      assert turn.k in Indices(|t.hosts|) - attempted;
      VerdictIsTheLast(strategy, turn.table, model, attempted + {turn.k}, n + 1, script);
      var rest := Dispatch(strategy, turn.table, model, attempted + {turn.k}, n + 1, script);
      assert rest.tried != [] ==> ([turn.k] + rest.tried)[|rest.tried|] == rest.tried[|rest.tried| - 1];
    }
  }

  /** After a 404 that says so, the host that sent it no longer has the model. */
  lemma MissingModelIsForgotten(strategy: Strategy, t: Table, model: string, n: nat, script: nat -> Attempt)
    requires model != ""
    ensures var r := Dispatch(strategy, t, Some(model), {}, n, script);
            r.verdict.Served? && r.verdict.k < |r.table.hosts| && script(n + |r.tried| - 1).outcome == Response(true) ==>
              model !in r.table.hosts[r.verdict.k].models
  {
    var r := Dispatch(strategy, t, Some(model), {}, n, script);
    RequestIsTraced(strategy, t, Some(model), {}, n, script);
    VerdictIsTheLast(strategy, t, Some(model), {}, n, script);
    hide Dispatch;
    if r.verdict.Served? && r.verdict.k < |r.table.hosts| && script(n + |r.tried| - 1).outcome == Response(true) {
      var trace := Trace(r.tried, n, script, Some(model));
      assert trace + [] == trace;
      TraceEnds(r.tried, n, script, Some(model));
      hide Trace, ApplyAll, KnownModels, LastWord, HandledIn;
      TableIsLatest(strategy, t, trace, r.verdict.k);
      LastMissing(t.hosts[r.verdict.k].models, trace, r.verdict.k, model);
    }
  }

  lemma LastMissing(first: set<string>, events: seq<Event>, k: nat, model: string)
    requires events != [] && events[|events| - 1] == At(k, ModelMissing(model))
    ensures model !in KnownModels(first, events, k)
  {
  }

  lemma {:induction false} TraceEnds(tried: seq<nat>, n: nat, script: nat -> Attempt, model: Option<string>)
    requires tried != [] && script(n + |tried| - 1).outcome == Response(true) && model.Some? && model.value != ""
    ensures var trace := Trace(tried, n, script, model);
            trace != [] && trace[|trace| - 1] == At(tried[|tried| - 1], ModelMissing(model.value))
    decreases |tried|
  {
    if |tried| == 1 {
      assert Trace(tried[1..], n + 1, script, model) == [];
    } else {
      TraceEnds(tried[1..], n + 1, script, model);
    }
  }
}
