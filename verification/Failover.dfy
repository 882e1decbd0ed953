/** The failover loop of proxy.py over the routing table, while polls and other requests
    change the table during every upstream call. */
module Failover {
  import opened Common
  import opened Routing

  /** How one upstream call ends: a response (a 404 that says the model is missing, or not), a
      response whose body cannot be read, a failure that the loop catches (connection,
      timeout, status), or any other exception. */
  datatype Outcome = Response(missing: bool) | Unreadable | Caught | Raised

  /** What happens to the table during one upstream call, and how the call ends. */
  datatype Attempt = Attempt(during: seq<Event>, outcome: Outcome)

  datatype Verdict = Served(k: nat) | Escaped(k: nat) | Exhausted

  /** `tried` lists the hosts that were sent the request, in order. */
  datatype Result = Result(table: Table, tried: seq<nat>, verdict: Verdict)

  function Indices(n: nat): (r: set<nat>)
    ensures forall k: nat :: k in r <==> k < n
  {
    if n == 0 then {} else Indices(n - 1) + {n - 1}
  }

  function AfterResponse(t: Table, k: nat, model: Option<string>, missing: bool): (r: Table)
    ensures |r.hosts| == |t.hosts|
  {
    var t1 := OnHost(t, k, Handled);
    if missing && model.Some? && model.value != "" then OnHost(t1, k, ModelMissing(model.value)) else t1
  }

  /** One turn of the loop: it gives up, ends with this host, or goes round again. */
  datatype Turn = GiveUp(table: Table) | End(table: Table, verdict: Verdict) | Again(table: Table, k: nat)

  function TurnOf(strategy: Strategy, t1: Table, picked: Option<nat>, model: Option<string>, attempted: set<nat>, a: Attempt): (r: Turn)
    ensures |r.table.hosts| == |t1.hosts|
    ensures r.End? ==> !r.verdict.Exhausted? && picked == Some(r.verdict.k) && r.verdict.k !in attempted
    ensures r.Again? ==> picked == Some(r.k) && r.k !in attempted
  {
    if picked == None || picked.value in attempted then GiveUp(t1)
    else
      var k := picked.value;
      var t2 := ApplyAll(strategy, t1, a.during);
      match a.outcome
      case Response(missing) => End(AfterResponse(t2, k, model, missing), Served(k))
      case Unreadable => End(AfterResponse(t2, k, model, false), Escaped(k))
      case Raised => End(t2, Escaped(k))
      case Caught => Again(OnHost(t2, k, Failed), k)
  }

  /** The loop, from its `n`-th attempt on. `script` supplies what each attempt meets. */
  function Dispatch(strategy: Strategy, t: Table, model: Option<string>, attempted: set<nat>, n: nat,
                    script: nat -> Attempt): (r: Result)
    ensures |r.table.hosts| == |t.hosts|
    decreases Indices(|t.hosts|) - attempted
  {
    var (picks, picked) := Pick(strategy, t, model);
    match TurnOf(strategy, picks, picked, model, attempted, script(n))
    case GiveUp(t1) => Result(t1, [], Exhausted)
    case End(t1, verdict) => Result(t1, [verdict.k], verdict)
    case Again(t1, k) =>
      assert k in Indices(|t.hosts|) - attempted;
      var rest := Dispatch(strategy, t1, model, attempted + {k}, n + 1, script);
      rest.(tried := [k] + rest.tried)
  }

  /** The turn that the loop takes from table `t`. */
  function NextTurn(strategy: Strategy, t: Table, model: Option<string>, attempted: set<nat>, a: Attempt): Turn {
    var (picks, picked) := Pick(strategy, t, model);
    TurnOf(strategy, picks, picked, model, attempted, a)
  }

  /** The body of the loop; no host means that it gives up. */
  method LoopTurn(table: RoutingTable, model: Option<string>, attempted: set<nat>, attempt: Attempt)
    returns (host: Option<nat>, verdict: Verdict, ghost turn: Turn)
    requires table.Valid()
    modifies table, table.hosts
    ensures turn == NextTurn(table.strategy, old(table.View()), model, attempted, attempt)
    ensures table.View() == turn.table
    ensures verdict == if turn.End? then turn.verdict else Exhausted
    ensures host == match turn case GiveUp(_) => None case End(_, v) => Some(v.k) case Again(_, k) => Some(k)
    ensures host.Some? ==> host.value < |table.hosts| && host.value !in attempted
  {
    host := table.PickHost(model);
    turn := TurnOf(table.strategy, table.View(), host, model, attempted, attempt);
    if host == None || host.value in attempted {
      return None, Exhausted, turn;
    }
    verdict := Attempted(table, host.value, model, attempt, turn);
  }

  /** One unfolding of the loop's definition. */
  lemma DispatchUnfolds(strategy: Strategy, t: Table, model: Option<string>, attempted: set<nat>, n: nat, script: nat -> Attempt)
    ensures Dispatch(strategy, t, model, attempted, n, script)
            == match NextTurn(strategy, t, model, attempted, script(n))
               case GiveUp(t1) => Result(t1, [], Exhausted)
               case End(t1, verdict) => Result(t1, [verdict.k], verdict)
               case Again(t1, k) =>
                 var rest := Dispatch(strategy, t1, model, attempted + {k}, n + 1, script);
                 rest.(tried := [k] + rest.tried)
  {
    hide Pick, TurnOf;
  }

  /** The result of the whole loop, `tried` being the hosts it has tried so far. */
  ghost function Resumed(strategy: Strategy, t: Table, model: Option<string>, attempted: set<nat>, tried: seq<nat>,
                         script: nat -> Attempt): Result
  {
    var rest := Dispatch(strategy, t, model, attempted, |tried|, script);
    rest.(tried := tried + rest.tried)
  }

  /** One turn of the loop does not change where it is going. */
  lemma TurnResumes(strategy: Strategy, t: Table, model: Option<string>, attempted: set<nat>, tried: seq<nat>,
                    script: nat -> Attempt, turn: Turn)
    requires turn == NextTurn(strategy, t, model, attempted, script(|tried|))
    ensures Resumed(strategy, t, model, attempted, tried, script)
            == match turn
               case GiveUp(t1) => Result(t1, tried, Exhausted)
               case End(t1, verdict) => Result(t1, tried + [verdict.k], verdict)
               case Again(t1, k) => Resumed(strategy, t1, model, attempted + {k}, tried + [k], script)
  {
    hide Pick, TurnOf;
    match turn
    case GiveUp(_) => assert tried + [] == tried;
    case End(_, _) =>
    case Again(t1, k) =>
      var rest := Dispatch(strategy, t1, model, attempted + {k}, |tried + [k]|, script);
      assert tried + ([k] + rest.tried) == (tried + [k]) + rest.tried;
  }

  lemma OneFewer(all: set<nat>, attempted: set<nat>, k: nat)
    requires k in all && k !in attempted
    ensures all - (attempted + {k}) < all - attempted
  {
    assert k in all - attempted;
  }

  /** One turn of the loop with its bookkeeping; `done` says that the loop ends with it. */
  method Round(table: RoutingTable, model: Option<string>, attempted: set<nat>, tried: seq<nat>, script: nat -> Attempt)
    returns (attempted1: set<nat>, tried1: seq<nat>, verdict: Verdict, done: bool)
    requires table.Valid()
    modifies table, table.hosts
    ensures done ==> Result(table.View(), tried1, verdict) == Resumed(table.strategy, old(table.View()), model, attempted, tried, script)
    ensures !done ==> Resumed(table.strategy, table.View(), model, attempted1, tried1, script)
                      == Resumed(table.strategy, old(table.View()), model, attempted, tried, script)
    ensures !done ==> Indices(|table.hosts|) - attempted1 < Indices(|table.hosts|) - attempted
  {
    hide Dispatch, Resumed, Pick, TurnOf, Indices, RoutingTable.View, RoutingTable.HostViews;
    ghost var before := table.View();
    var host;
    ghost var turn;
    host, verdict, turn := LoopTurn(table, model, attempted, script(|tried|));
    TurnResumes(table.strategy, before, model, attempted, tried, script, turn);
    if host == None {
      return attempted, tried, verdict, true;
    }
    OneFewer(Indices(|table.hosts|), attempted, host.value);
    attempted1, tried1, done := attempted + {host.value}, tried + [host.value], !verdict.Exhausted?;
  }

  /** dispatch_request's loop, on the shared table. */
  method DispatchRequest(table: RoutingTable, model: Option<string>, script: nat -> Attempt)
    returns (tried: seq<nat>, verdict: Verdict)
    requires table.Valid()
    modifies table, table.hosts
    ensures Result(table.View(), tried, verdict) == Dispatch(table.strategy, old(table.View()), model, {}, 0, script)
  {
    var attempted: set<nat> := {};
    tried, verdict := [], Exhausted;
    ghost var whole := Dispatch(table.strategy, table.View(), model, {}, 0, script);
    assert whole == Resumed(table.strategy, table.View(), model, attempted, tried, script);
    hide Dispatch, Resumed, Indices, RoutingTable.View, RoutingTable.HostViews;
    while true
      invariant whole == Resumed(table.strategy, table.View(), model, attempted, tried, script)
      decreases Indices(|table.hosts|) - attempted
    {
      var done;
      attempted, tried, verdict, done := Round(table, model, attempted, tried, script);
      if done {
        return;
      }
    }
  }

  /** One attempt on host `k`: the upstream call and what follows it, `turn` being the turn
      of the loop that it is part of. */
  method Attempted(table: RoutingTable, k: nat, model: Option<string>, attempt: Attempt, ghost turn: Turn)
    returns (verdict: Verdict)
    requires table.Valid() && k < |table.hosts|
    requires var t2 := ApplyAll(table.strategy, table.View(), attempt.during);
             match attempt.outcome
             case Response(missing) => turn == End(AfterResponse(t2, k, model, missing), Served(k))
             case Unreadable => turn == End(AfterResponse(t2, k, model, false), Escaped(k))
             case Raised => turn == End(t2, Escaped(k))
             case Caught => turn == Again(OnHost(t2, k, Failed), k)
    modifies table, table.hosts
    ensures table.View() == turn.table
    ensures verdict == if turn.End? then turn.verdict else Exhausted
  {
    Interfere(table, attempt.during);
    match attempt.outcome {
      case Response(missing) =>
        table.RecordHandled(k);
        if missing && model.Some? && model.value != "" {
          table.Invalidate(k, model.value);
        }
        verdict := Served(k);
      case Unreadable =>
        table.RecordHandled(k);
        verdict := Escaped(k);
      case Raised =>
        verdict := Escaped(k);
      case Caught =>
        table.MarkUnhealthy(k);
        verdict := Exhausted;
    }
  }

  /** The other tasks run while this one waits for the upstream. */
  method Interfere(table: RoutingTable, events: seq<Event>)
    requires table.Valid()
    modifies table, table.hosts
    ensures table.View() == ApplyAll(table.strategy, old(table.View()), events)
  {
    for i := 0 to |events|
      invariant ApplyAll(table.strategy, old(table.View()), events) == ApplyAll(table.strategy, table.View(), events[i..])
    {
      assert events[i..][1..] == events[i + 1..];
      table.Happen(events[i]);
    }
  }

  // ---- every host at most once ---------------------------------------------

  /** The hosts that are sent the request are configured, and are not among those that had
      been tried before. */
  lemma {:induction false} TriedAreNew(strategy: Strategy, t: Table, model: Option<string>, attempted: set<nat>, n: nat,
                                       script: nat -> Attempt)
    ensures forall k :: k in Dispatch(strategy, t, model, attempted, n, script).tried ==> k < |t.hosts| && k !in attempted
    ensures Distinct(Dispatch(strategy, t, model, attempted, n, script).tried)
    decreases Indices(|t.hosts|) - attempted
  {
    var (picks, picked) := Pick(strategy, t, model);
    match TurnOf(strategy, picks, picked, model, attempted, script(n))
    case Again(t1, k) =>
      assert k in Indices(|t.hosts|) - attempted;
      TriedAreNew(strategy, t1, model, attempted + {k}, n + 1, script);
      var rest := Dispatch(strategy, t1, model, attempted + {k}, n + 1, script).tried;
      assert Dispatch(strategy, t, model, attempted, n, script).tried == [k] + rest;
      assert ([k] + rest)[1..] == rest;
    case _ =>
  }

  lemma {:induction false} DistinctBound(s: seq<nat>, all: set<nat>)
    requires Distinct(s) && forall k :: k in s ==> k in all
    ensures |s| <= |all|
  {
    if s != [] {
      assert s[0] in s && forall k :: k in s[1..] ==> k in s;
      DistinctBound(s[1..], all - {s[0]});
    }
  }

  /** Whatever polls and other requests do meanwhile, the loop ends, sends the request to no
      host twice, and to at most as many hosts as there are. */
  lemma EachHostOnce(strategy: Strategy, t: Table, model: Option<string>, script: nat -> Attempt)
    ensures var tried := Dispatch(strategy, t, model, {}, 0, script).tried;
            && (forall i, j :: 0 <= i < j < |tried| ==> tried[i] != tried[j])
            && (forall k :: k in tried ==> k < |t.hosts|)
            && |tried| <= |t.hosts|
  {
    TriedAreNew(strategy, t, model, {}, 0, script);
    var tried := Dispatch(strategy, t, model, {}, 0, script).tried;
    DistinctBound(tried, Indices(|t.hosts|));
    IndicesSize(|t.hosts|);
    forall i, j | 0 <= i < j < |tried| ensures tried[i] != tried[j] {
      DistinctApart(tried, i, j);
    }
  }

  lemma {:induction false} DistinctApart(s: seq<nat>, i: nat, j: nat)
    requires Distinct(s) && i < j < |s|
    ensures s[i] != s[j]
  {
    if i == 0 {
      assert s[j] == s[1..][j - 1];
      assert s[j] in s[1..];
    } else {
      DistinctApart(s[1..], i - 1, j - 1);
    }
  }

  lemma {:induction false} IndicesSize(n: nat)
    ensures |Indices(n)| == n
  {
    if n > 0 {
      IndicesSize(n - 1);
    }
  }

  // ---- failure counts ------------------------------------------------------

  function FailuresIn(events: seq<Event>, k: nat): nat {
    if events == [] then 0 else Bit(events[0] == At(k, Failed)) + FailuresIn(events[1..], k)
  }

  /** Failures of `k` that other requests report during attempts n, n+1, ..., n+m-1. */
  function FailuresDuring(script: nat -> Attempt, n: nat, m: nat, k: nat): nat
    decreases m
  {
    if m == 0 then 0 else FailuresIn(script(n).during, k) + FailuresDuring(script, n + 1, m - 1, k)
  }

  lemma {:induction false} EventsCountFailures(strategy: Strategy, t: Table, events: seq<Event>, k: nat)
    requires k < |t.hosts|
    ensures ApplyAll(strategy, t, events).hosts[k].failures == t.hosts[k].failures + FailuresIn(events, k)
    decreases |events|
  {
    if events != [] {
      EventsCountFailures(strategy, Apply(strategy, t, events[0]), events[1..], k);
    }
  }

  /** This request's own failed attempts on `k`. */
  function OwnFailures(r: Result, k: nat): nat {
    Bit(k in r.tried && r.verdict != Served(k) && r.verdict != Escaped(k))
  }

  lemma TurnCountsFailures(strategy: Strategy, t: Table, picked: Option<nat>, model: Option<string>, attempted: set<nat>,
                           a: Attempt, k: nat)
    requires k < |t.hosts|
    ensures var turn := TurnOf(strategy, t, picked, model, attempted, a);
            turn.table.hosts[k].failures == t.hosts[k].failures
              + (if turn.GiveUp? then 0 else FailuresIn(a.during, k)) + Bit(turn.Again? && turn.k == k)
  {
    hide Apply;
    EventsCountFailures(strategy, t, a.during, k);
  }

  /** The failure counter of every host grows by one for this request's failed attempt on it,
      if there was one, and by what other requests report, and by nothing else. */
  lemma {:induction false} FailuresAreCounted(strategy: Strategy, t: Table, model: Option<string>, attempted: set<nat>, n: nat,
                                              script: nat -> Attempt, k: nat)
    requires k < |t.hosts|
    ensures var r := Dispatch(strategy, t, model, attempted, n, script);
            r.table.hosts[k].failures
            == t.hosts[k].failures + OwnFailures(r, k) + FailuresDuring(script, n, |r.tried|, k)
    decreases Indices(|t.hosts|) - attempted
  {
    var (picks, picked) := Pick(strategy, t, model);
    TurnCountsFailures(strategy, picks, picked, model, attempted, script(n), k);
    match TurnOf(strategy, picks, picked, model, attempted, script(n))
    case GiveUp(_) =>
    case End(_, _) =>
      assert FailuresDuring(script, n, 1, k) == FailuresIn(script(n).during, k) + FailuresDuring(script, n + 1, 0, k);
    case Again(t1, h) =>
      assert h in Indices(|t.hosts|) - attempted;
      var rest := Dispatch(strategy, t1, model, attempted + {h}, n + 1, script);
      FailuresAreCounted(strategy, t1, model, attempted + {h}, n + 1, script, k);
      RetryCounts(strategy, t1, model, attempted + {h}, n + 1, script, h, k);
      FailuresAgain(t.hosts[k].failures, t1.hosts[k].failures, rest, h, n, script, k);
  }

  lemma FailuresAgain(before: nat, between: nat, rest: Result, h: nat, n: nat, script: nat -> Attempt, k: nat)
    requires k < |rest.table.hosts|
    requires between == before + FailuresIn(script(n).during, k) + Bit(h == k)
    requires rest.table.hosts[k].failures == between + OwnFailures(rest, k) + FailuresDuring(script, n + 1, |rest.tried|, k)
    requires OwnFailures(rest.(tried := [h] + rest.tried), k) == OwnFailures(rest, k) + Bit(h == k)
    ensures var r := rest.(tried := [h] + rest.tried);
            r.table.hosts[k].failures == before + OwnFailures(r, k) + FailuresDuring(script, n, |r.tried|, k)
  {
  }

  /** The failed attempt on `h` in front of a run that does not touch `h` again. */
  lemma RetryCounts(strategy: Strategy, t: Table, model: Option<string>, attempted: set<nat>, n: nat,
                    script: nat -> Attempt, h: nat, k: nat)
    requires h in attempted
    ensures var rest := Dispatch(strategy, t, model, attempted, n, script);
            OwnFailures(rest.(tried := [h] + rest.tried), k) == OwnFailures(rest, k) + Bit(h == k)
  {
    TriedAreNew(strategy, t, model, attempted, n, script);
    VerdictIsTried(strategy, t, model, attempted, n, script);
  }

  lemma {:induction false} VerdictIsTried(strategy: Strategy, t: Table, model: Option<string>, attempted: set<nat>, n: nat,
                                          script: nat -> Attempt)
    ensures var r := Dispatch(strategy, t, model, attempted, n, script);
            !r.verdict.Exhausted? ==> r.verdict.k in r.tried
    decreases Indices(|t.hosts|) - attempted
  {
    var (picks, picked) := Pick(strategy, t, model);
    match TurnOf(strategy, picks, picked, model, attempted, script(n))
    case Again(t1, k) =>
      assert k in Indices(|t.hosts|) - attempted;
      VerdictIsTried(strategy, t1, model, attempted + {k}, n + 1, script);
    case _ =>
  }

  // ---- giving up -----------------------------------------------------------

  lemma {:induction false} EventsKeepWeighted(strategy: Strategy, t: Table, events: seq<Event>)
    requires Weighted(t.hosts)
    ensures Weighted(ApplyAll(strategy, t, events).hosts)
    decreases |events|
  {
    if events != [] {
      EventsKeepWeighted(strategy, Apply(strategy, t, events[0]), events[1..]);
    }
  }

  lemma TurnKeepsWeighted(strategy: Strategy, t: Table, picked: Option<nat>, model: Option<string>, attempted: set<nat>, a: Attempt)
    requires Weighted(t.hosts)
    ensures Weighted(TurnOf(strategy, t, picked, model, attempted, a).table.hosts)
  {
    EventsKeepWeighted(strategy, t, a.during);
  }

  /** Is one of the hosts in `ks` marked reachable? */
  ghost predicate LiveAmong(hosts: seq<Host>, attempted: set<nat>, tried: seq<nat>) {
    exists k :: 0 <= k < |hosts| && (k in attempted || k in tried) && hosts[k].reachable
  }

  /** When the loop gives up, live hosts are left if and only if one of the hosts it had
      already tried is live again: it stops at the first pick of a host it has tried, and the
      pick prefers live hosts. */
  lemma {:induction false} GivesUpOnLiveHostsIff(strategy: Strategy, t: Table, model: Option<string>, attempted: set<nat>, n: nat,
                                                 script: nat -> Attempt)
    requires Weighted(t.hosts)
    ensures var r := Dispatch(strategy, t, model, attempted, n, script);
            r.verdict.Exhausted? ==> (AnyReachable(r.table.hosts) <==> LiveAmong(r.table.hosts, attempted, r.tried))
    decreases Indices(|t.hosts|) - attempted
  {
    hide Pick, ApplyAll, Weighted;
    var (picks, picked) := Pick(strategy, t, model);
    PickIsSound(strategy, t, model);
    TurnKeepsWeighted(strategy, picks, picked, model, attempted, script(n));
    match TurnOf(strategy, picks, picked, model, attempted, script(n))
    case GiveUp(t1) =>
      assert t1.hosts == t.hosts;
      if AnyReachable(t1.hosts) {
        assert LiveAmong(t1.hosts, attempted, []);
      }
    case End(_, _) =>
    case Again(t1, k) =>
      assert k in Indices(|t.hosts|) - attempted;
      GivesUpOnLiveHostsIff(strategy, t1, model, attempted + {k}, n + 1, script);
      var rest := Dispatch(strategy, t1, model, attempted + {k}, n + 1, script);
      assert forall h :: h in attempted + {k} || h in rest.tried <==> h in attempted || h in [k] + rest.tried;
  }

  predicate Revives(e: Event) {
    e.At? && e.change.PolledUp?
  }

  /** No poll finds a host up while the request is under way. */
  ghost predicate NoRevival(script: nat -> Attempt) {
    forall n :: forall i :: 0 <= i < |script(n).during| ==> !Revives(script(n).during[i])
  }

  /** Does somebody else report `k` down? */
  predicate Down(e: Event, k: nat) {
    e == At(k, PolledDown) || e == At(k, Failed)
  }

  ghost predicate ReportedDown(events: seq<Event>, k: nat) {
    exists i :: 0 <= i < |events| && Down(events[i], k)
  }

  /** Without polls that find a host up, reachability only falls, and only where reported. */
  lemma {:induction false} EventsOnlyLower(strategy: Strategy, t: Table, events: seq<Event>, k: nat)
    requires k < |t.hosts| && forall i :: 0 <= i < |events| ==> !Revives(events[i])
    ensures var h := ApplyAll(strategy, t, events).hosts[k];
            && (h.reachable ==> t.hosts[k].reachable)
            && (t.hosts[k].reachable && !h.reachable ==> ReportedDown(events, k))
    decreases |events|
  {
    if events != [] {
      EventsOnlyLower(strategy, Apply(strategy, t, events[0]), events[1..], k);
      if ReportedDown(events[1..], k) {
        var i :| 0 <= i < |events[1..]| && Down(events[1..][i], k);
        assert Down(events[i + 1], k);
      }
      if t.hosts[k].reachable && !Apply(strategy, t, events[0]).hosts[k].reachable {
        assert Down(events[0], k);
      }
    }
  }

  ghost predicate DownDuring(script: nat -> Attempt, n: nat, m: nat, k: nat) {
    exists i :: n <= i < n + m && ReportedDown(script(i).during, k)
  }

  /** Completeness of failover. If no poll finds a host up meanwhile, giving up means that no
      host is marked reachable any more, and that every host reachable at the start was either
      tried or reported down by somebody else during the attempts. */
  lemma {:induction false} GivesUpOnlyAfterAll(strategy: Strategy, t: Table, model: Option<string>, attempted: set<nat>, n: nat,
                                               script: nat -> Attempt, h: nat)
    requires Weighted(t.hosts) && NoRevival(script) && h < |t.hosts|
    requires forall k :: k in attempted ==> k < |t.hosts| && !t.hosts[k].reachable
    ensures var r := Dispatch(strategy, t, model, attempted, n, script);
            r.verdict.Exhausted? ==>
              && !r.table.hosts[h].reachable
              && (t.hosts[h].reachable ==> h in r.tried || DownDuring(script, n, |r.tried|, h))
    decreases Indices(|t.hosts|) - attempted
  {
    hide Pick, ApplyAll, Weighted;
    var (picks, picked) := Pick(strategy, t, model);
    PickIsSound(strategy, t, model);
    TurnKeepsWeighted(strategy, picks, picked, model, attempted, script(n));
    match TurnOf(strategy, picks, picked, model, attempted, script(n))
    case GiveUp(_) =>
    case End(_, _) =>
    case Again(t1, k) =>
      assert k in Indices(|t.hosts|) - attempted;
      FailedTurnLowers(strategy, picks, script(n).during, k, attempted);
      assert t1 == OnHost(ApplyAll(strategy, picks, script(n).during), k, Failed);
      GivesUpOnlyAfterAll(strategy, t1, model, attempted + {k}, n + 1, script, h);
      FailedTurnLeaves(strategy, picks, script(n).during, k, h);
      var rest := Dispatch(strategy, t1, model, attempted + {k}, n + 1, script);
      if rest.verdict.Exhausted? {
        AllTriedAgain(t.hosts[h].reachable, t1.hosts[h].reachable, rest, k, n, script, h);
      }
  }

  /** A host that a failed attempt on `k` finds reachable and leaves unreachable is `k`, or was
      reported down meanwhile. */
  lemma FailedTurnLeaves(strategy: Strategy, t: Table, events: seq<Event>, k: nat, h: nat)
    requires k < |t.hosts| && h < |t.hosts| && forall i :: 0 <= i < |events| ==> !Revives(events[i])
    ensures var t1 := OnHost(ApplyAll(strategy, t, events), k, Failed);
            t.hosts[h].reachable && !t1.hosts[h].reachable ==> h == k || ReportedDown(events, h)
  {
    EventsOnlyLower(strategy, t, events, h);
  }

  lemma AllTriedAgain(before: bool, between: bool, rest: Result, k: nat, n: nat, script: nat -> Attempt, h: nat)
    requires before && !between ==> h == k || ReportedDown(script(n).during, h)
    requires between ==> h in rest.tried || DownDuring(script, n + 1, |rest.tried|, h)
    ensures before ==> h in [k] + rest.tried || DownDuring(script, n, |[k] + rest.tried|, h)
  {
    DownDuringStep(script, n, |rest.tried|, h);
  }

  /** After a failed attempt on `k`, no host that was tried is marked reachable. */
  lemma FailedTurnLowers(strategy: Strategy, t: Table, events: seq<Event>, k: nat, attempted: set<nat>)
    requires k < |t.hosts| && forall i :: 0 <= i < |events| ==> !Revives(events[i])
    requires forall x :: x in attempted ==> x < |t.hosts| && !t.hosts[x].reachable
    ensures var t1 := OnHost(ApplyAll(strategy, t, events), k, Failed);
            forall x :: x in attempted + {k} ==> x < |t1.hosts| && !t1.hosts[x].reachable
  {
    forall x | x in attempted ensures !ApplyAll(strategy, t, events).hosts[x].reachable {
      EventsOnlyLower(strategy, t, events, x);
    }
  }

  lemma DownDuringStep(script: nat -> Attempt, n: nat, m: nat, k: nat)
    ensures ReportedDown(script(n).during, k) || DownDuring(script, n + 1, m, k) ==> DownDuring(script, n, m + 1, k)
  {
  }

  /** Left alone, a request that is answered 503 has been sent to every host that was
      reachable when it started, for both strategies and any counter. */
  lemma QuietFailoverTriesAll(strategy: Strategy, t: Table, model: Option<string>, script: nat -> Attempt, h: nat)
    requires Weighted(t.hosts) && h < |t.hosts| && t.hosts[h].reachable
    requires forall n :: script(n).during == []
    ensures var r := Dispatch(strategy, t, model, {}, 0, script);
            r.verdict.Exhausted? ==> h in r.tried && forall k :: 0 <= k < |t.hosts| ==> !r.table.hosts[k].reachable
  {
    var r := Dispatch(strategy, t, model, {}, 0, script);
    assert forall n :: script(n).during == [];
    forall k | 0 <= k < |t.hosts| ensures r.verdict.Exhausted? ==> !r.table.hosts[k].reachable {
      GivesUpOnlyAfterAll(strategy, t, model, {}, 0, script, k);
    }
    GivesUpOnlyAfterAll(strategy, t, model, {}, 0, script, h);
    assert !DownDuring(script, 0, |r.tried|, h);
  }

  /** With a poll in between it can give up early: hosts 0 and 2 fail, a poll revives host 0
      during the second attempt, the counter lands on host 0 again, and the request ends in
      503 although host 1 is up and was never tried. */
  lemma RevivalEndsFailoverEarly() returns (t: Table, script: nat -> Attempt)
    ensures Weighted(t.hosts) && |t.hosts| == 3
    ensures var r := Dispatch(RoundRobin, t, None, {}, 0, script);
            r.verdict.Exhausted? && r.tried == [0, 2] && r.table.hosts[1].reachable
  {
    hide Candidates, Ring, WithModel;
    var h := Host("h", 1, {}, true, 0, 0);
    t := Table([h, h.(name := "i"), h.(name := "j")], 0, Decisions(0, 0, 0));
    script := n => Attempt(if n == 1 then [At(0, PolledUp({}))] else [], Caught);
    ThreeUp(t.hosts);
    var (p0, first) := Pick(RoundRobin, t, None);
    assert first == Some(0) && p0.rr == 1;
    var t1 := OnHost(p0, 0, Failed);
    LastTwoUp(t1.hosts);
    var (p1, second) := Pick(RoundRobin, t1, None);
    assert second == Some(2) && p1.rr == 2;
    var revived := OnHost(p1, 0, PolledUp({}));
    assert ApplyAll(RoundRobin, p1, script(1).during) == revived by {
      assert script(1).during[1..] == [];
      assert Apply(RoundRobin, p1, At(0, PolledUp({}))) == revived;
    }
    var t2 := OnHost(revived, 2, Failed);
    FirstTwoUp(t2.hosts);
    var (p2, third) := Pick(RoundRobin, t2, None);
    assert third == Some(0);
    assert Dispatch(RoundRobin, t2, None, {} + {0} + {2}, 2, script) == Result(p2, [], Exhausted);
    assert Dispatch(RoundRobin, t1, None, {} + {0}, 1, script) == Result(p2, [2], Exhausted);
  }

  lemma ThreeUp(hosts: seq<Host>)
    requires |hosts| == 3 && forall k :: 0 <= k < 3 ==> hosts[k].reachable && hosts[k].weight == 1
    ensures Candidates(hosts) == [0, 1, 2] && Ring(hosts, [0, 1, 2]) == [0, 1, 2]
  {
    ReachableOfThree(hosts);
    OnesRing(hosts, [0, 1, 2]);
  }

  lemma LastTwoUp(hosts: seq<Host>)
    requires |hosts| == 3 && !hosts[0].reachable && hosts[1].reachable && hosts[2].reachable
    requires forall k :: 0 <= k < 3 ==> hosts[k].weight == 1
    ensures Candidates(hosts) == [1, 2] && Ring(hosts, [1, 2]) == [1, 2]
  {
    ReachableOfThree(hosts);
    OnesRing(hosts, [1, 2]);
  }

  lemma FirstTwoUp(hosts: seq<Host>)
    requires |hosts| == 3 && hosts[0].reachable && hosts[1].reachable && !hosts[2].reachable
    requires forall k :: 0 <= k < 3 ==> hosts[k].weight == 1
    ensures Candidates(hosts) == [0, 1] && Ring(hosts, [0, 1]) == [0, 1]
  {
    ReachableOfThree(hosts);
    OnesRing(hosts, [0, 1]);
  }
}
