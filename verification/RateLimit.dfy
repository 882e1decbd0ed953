/** Authentication with its limit on failures, auth.py: the pruned list of failure times per
    address, against the full history it stands for. */
module RateLimit {
  import opened Common

  /** `keys` maps each configured key to its client id. */
  datatype AuthConfig = AuthConfig(enabled: bool, keys: map<string, string>, maxFailures: int, windowSeconds: int)

  datatype Reply = Open | TooManyFailures | MissingHeader | InvalidKey | Accepted(client: string)

  /** A request: its address, its Authorization header, and the clock when the limit is
      checked and when a failure would be recorded. */
  datatype Request = Request(ip: string, header: string, checked: real, recorded: real)

  type Failures = map<string, seq<real>>

  const BEARER := "Bearer "

  function Of(failures: Failures, ip: string): seq<real> {
    if ip in failures then failures[ip] else []
  }

  function Recent(times: seq<real>, now: real, window: int): seq<real> {
    if times == [] then []
    else (if now - times[0] < window as real then [times[0]] else []) + Recent(times[1..], now, window)
  }

  /** The reply to a request that is not limited. */
  function Credentials(cfg: AuthConfig, header: string): Reply {
    if !(BEARER <= header) then MissingHeader
    else if header[|BEARER|..] !in cfg.keys then InvalidKey
    else Accepted(cfg.keys[header[|BEARER|..]])
  }

  /** What one address's list becomes once a request was let past the limit. */
  function Recorded(times: seq<real>, reply: Reply, now: real): seq<real> {
    match reply
    case Accepted(_) => []
    case MissingHeader => times + [now]
    case InvalidKey => times + [now]
    case _ => times
  }

  function Authenticate(cfg: AuthConfig, failures: Failures, r: Request): (Failures, Reply) {
    if !cfg.enabled then (failures, Open)
    else
      var recent := Recent(Of(failures, r.ip), r.checked, cfg.windowSeconds);
      if |recent| >= cfg.maxFailures then (failures[r.ip := recent], TooManyFailures)
      else
        var reply := Credentials(cfg, r.header);
        (failures[r.ip := Recorded(recent, reply, r.recorded)], reply)
  }

  /** The plain rule: keep every failure since the last success, and count the recent ones. */
  function AuthenticatePlainly(cfg: AuthConfig, history: Failures, r: Request): (Failures, Reply) {
    if !cfg.enabled then (history, Open)
    else if |Recent(Of(history, r.ip), r.checked, cfg.windowSeconds)| >= cfg.maxFailures then (history, TooManyFailures)
    else
      var reply := Credentials(cfg, r.header);
      (history[r.ip := Recorded(Of(history, r.ip), reply, r.recorded)], reply)
  }

  /** The comprehension that drops the failures outside the window. */
  method Prune(times: seq<real>, now: real, window: int) returns (recent: seq<real>)
    ensures recent == Recent(times, now, window)
  {
    recent := [];
    for i := 0 to |times|
      invariant recent == Recent(times[..i], now, window)
    {
      RecentExtends(times, i, now, window);
      if now - times[i] < window as real {
        recent := recent + [times[i]];
      }
    }
    assert times[..|times|] == times;
  }

  /** AuthManager. */
  class AuthManager {
    const cfg: AuthConfig
    var failures: Failures

    constructor (cfg: AuthConfig)
      ensures this.cfg == cfg && failures == map[]
    {
      this.cfg := cfg;
      failures := map[];
    }

    method IsRateLimited(ip: string, now: real) returns (limited: bool)
      modifies this
      ensures failures == old(failures)[ip := Recent(Of(old(failures), ip), now, cfg.windowSeconds)]
      ensures limited == (|failures[ip]| >= cfg.maxFailures)
    {
      var recent := Prune(Of(failures, ip), now, cfg.windowSeconds);
      failures := failures[ip := recent];
      return |recent| >= cfg.maxFailures;
    }

    method RecordFailure(ip: string, now: real)
      modifies this
      ensures failures == old(failures)[ip := Of(old(failures), ip) + [now]]
    {
      failures := failures[ip := Of(failures, ip) + [now]];
    }

    method AuthenticateRequest(r: Request) returns (reply: Reply)
      modifies this
      ensures (failures, reply) == Authenticate(cfg, old(failures), r)
    {
      if !cfg.enabled {
        return Open;
      }
      ghost var recent := Recent(Of(failures, r.ip), r.checked, cfg.windowSeconds);
      var limited := IsRateLimited(r.ip, r.checked);
      if limited {
        return TooManyFailures;
      }
      if !(BEARER <= r.header) {
        RecordFailure(r.ip, r.recorded);
        assert failures == old(failures)[r.ip := recent + [r.recorded]];
        return MissingHeader;
      }
      var provided := r.header[|BEARER|..];
      if provided !in cfg.keys {
        RecordFailure(r.ip, r.recorded);
        assert failures == old(failures)[r.ip := recent + [r.recorded]];
        return InvalidKey;
      }
      failures := failures[r.ip := []];
      assert failures == old(failures)[r.ip := []];
      return Accepted(cfg.keys[provided]);
    }
  }

  // ---- pruning -------------------------------------------------------------

  lemma {:induction false} RecentAppend(a: seq<real>, b: seq<real>, now: real, window: int)
    ensures Recent(a + b, now, window) == Recent(a, now, window) + Recent(b, now, window)
  {
    if a == [] {
      assert a + b == b;
    } else {
      assert (a + b)[1..] == a[1..] + b;
      RecentAppend(a[1..], b, now, window);
    }
  }

  lemma RecentExtends(times: seq<real>, i: nat, now: real, window: int)
    requires i < |times|
    ensures Recent(times[..i + 1], now, window)
            == if now - times[i] < window as real then Recent(times[..i], now, window) + [times[i]]
               else Recent(times[..i], now, window)
  {
    assert times[..i + 1] == times[..i] + [times[i]];
    RecentAppend(times[..i], [times[i]], now, window);
  }

  /** What an earlier pruning dropped, a later one would drop too. */
  lemma {:induction false} PruneTwice(times: seq<real>, earlier: real, later: real, window: int)
    requires earlier <= later
    ensures Recent(Recent(times, earlier, window), later, window) == Recent(times, later, window)
  {
    if times != [] {
      PruneTwice(times[1..], earlier, later, window);
      var rest := Recent(times[1..], earlier, window);
      if earlier - times[0] < window as real {
        assert ([times[0]] + rest)[1..] == rest;
      } else {
        assert [] + rest == rest;
      }
    }
  }

  /** Pruned list and history agree on everything that matters from `since` on. */
  ghost predicate Agree(pruned: seq<real>, history: seq<real>, window: int, since: real) {
    forall now :: now >= since ==> Recent(pruned, now, window) == Recent(history, now, window)
  }

  lemma AgreeAfterPruning(pruned: seq<real>, history: seq<real>, window: int, since: real, now: real)
    requires Agree(pruned, history, window, since) && since <= now
    ensures Agree(Recent(pruned, now, window), history, window, now)
  {
    forall later | later >= now ensures Recent(Recent(pruned, now, window), later, window) == Recent(history, later, window) {
      PruneTwice(pruned, now, later, window);
    }
  }

  lemma AgreeAfterRecording(pruned: seq<real>, history: seq<real>, window: int, since: real, reply: Reply, now: real)
    requires Agree(pruned, history, window, since) && since <= now
    ensures Agree(Recorded(pruned, reply, now), Recorded(history, reply, now), window, now)
  {
    forall later | later >= now
      ensures Recent(Recorded(pruned, reply, now), later, window) == Recent(Recorded(history, reply, now), later, window)
    {
      RecentAppend(pruned, [now], later, window);
      RecentAppend(history, [now], later, window);
    }
  }

  // ---- how dense the failures can be ---------------------------------------

  predicate Ordered(times: seq<real>) {
    forall i, j :: 0 <= i < j < |times| ==> times[i] <= times[j]
  }

  /** Any failure lies a whole window after the `limit`-th failure before it. */
  predicate Spread(times: seq<real>, limit: int, window: int) {
    forall i, j :: 0 <= i <= j < |times| && j - i >= limit ==> times[j] - times[i] >= window as real
  }

  lemma {:induction false} RecentCount(times: seq<real>, i: nat, now: real, window: int)
    requires Ordered(times) && i < |times| && now - times[i] < window as real
    ensures |Recent(times, now, window)| >= |times| - i
  {
    if i > 0 {
      RecentCount(times[1..], i - 1, now, window);
    } else {
      RecentAll(times, now, window);
    }
  }

  lemma {:induction false} RecentAll(times: seq<real>, now: real, window: int)
    requires forall i :: 0 <= i < |times| ==> now - times[i] < window as real
    ensures Recent(times, now, window) == times
  {
    if times != [] {
      RecentAll(times[1..], now, window);
    }
  }

  lemma RecordingKeepsSpread(times: seq<real>, checked: real, recorded: real, limit: int, window: int)
    requires Ordered(times) && Spread(times, limit, window) && checked <= recorded
    requires |Recent(times, checked, window)| < limit
    ensures Spread(times + [recorded], limit, window)
  {
    var longer := times + [recorded];
    forall i, j | 0 <= i <= j < |longer| && j - i >= limit ensures longer[j] - longer[i] >= window as real {
      if j == |times| && checked - times[i] < window as real {
        RecentCount(times, i, checked, window);
      }
    }
  }

  function CountIn(times: seq<real>, from: real, until: real): nat {
    if times == [] then 0 else Bit(from <= times[0] < until) + CountIn(times[1..], from, until)
  }

  lemma {:induction false} CountInAppend(a: seq<real>, b: seq<real>, from: real, until: real)
    ensures CountIn(a + b, from, until) == CountIn(a, from, until) + CountIn(b, from, until)
  {
    if a == [] {
      assert a + b == b;
    } else {
      assert (a + b)[1..] == a[1..] + b;
      CountInAppend(a[1..], b, from, until);
    }
  }

  lemma {:induction false} CountInNone(times: seq<real>, from: real, until: real)
    requires forall i :: 0 <= i < |times| ==> !(from <= times[i] < until)
    ensures CountIn(times, from, until) == 0
  {
    if times != [] {
      CountInNone(times[1..], from, until);
    }
  }

  lemma {:induction false} CountInBound(times: seq<real>, from: real, until: real)
    ensures CountIn(times, from, until) <= |times|
  {
    if times != [] {
      CountInBound(times[1..], from, until);
    }
  }

  /** No window of time holds more than `limit` failures that are spread. */
  lemma {:induction false} WindowHoldsFew(times: seq<real>, limit: int, window: int, from: real)
    requires Ordered(times) && Spread(times, limit, window) && limit >= 1
    ensures CountIn(times, from, from + window as real) <= limit
  {
    var until := from + window as real;
    if times == [] || |times| <= limit {
      CountInBound(times, from, until);
    } else if times[0] < from {
      WindowHoldsFew(times[1..], limit, window, from);
    } else {
      assert times == times[..limit] + times[limit..];
      CountInAppend(times[..limit], times[limit..], from, until);
      CountInBound(times[..limit], from, until);
      forall i | 0 <= i < |times[limit..]| ensures !(from <= times[limit..][i] < until) {
        assert times[limit + i] - times[0] >= window as real;
      }
      CountInNone(times[limit..], from, until);
    }
  }

  // ---- whole runs ----------------------------------------------------------

  /** The clock does not go backwards, from `since` on. */
  predicate ClockRuns(requests: seq<Request>, since: real) {
    requests == []
    || (since <= requests[0].checked <= requests[0].recorded && ClockRuns(requests[1..], requests[0].recorded))
  }

  function Run(cfg: AuthConfig, failures: Failures, requests: seq<Request>): (Failures, seq<Reply>)
    decreases |requests|
  {
    if requests == [] then (failures, [])
    else
      var (f1, reply) := Authenticate(cfg, failures, requests[0]);
      var (f2, replies) := Run(cfg, f1, requests[1..]);
      (f2, [reply] + replies)
  }

  function RunPlainly(cfg: AuthConfig, history: Failures, requests: seq<Request>): (Failures, seq<Reply>)
    decreases |requests|
  {
    if requests == [] then (history, [])
    else
      var (h1, reply) := AuthenticatePlainly(cfg, history, requests[0]);
      var (h2, replies) := RunPlainly(cfg, h1, requests[1..]);
      (h2, [reply] + replies)
  }

  ghost predicate AllAgree(failures: Failures, history: Failures, window: int, since: real) {
    forall ip :: Agree(Of(failures, ip), Of(history, ip), window, since)
  }

  lemma AddressAgrees(cfg: AuthConfig, pruned: seq<real>, full: seq<real>, r: Request, since: real)
    requires Agree(pruned, full, cfg.windowSeconds, since) && since <= r.checked <= r.recorded
    ensures Recent(pruned, r.checked, cfg.windowSeconds) == Recent(full, r.checked, cfg.windowSeconds)
    ensures Agree(Recent(pruned, r.checked, cfg.windowSeconds), full, cfg.windowSeconds, r.recorded)
    ensures var reply := Credentials(cfg, r.header);
            Agree(Recorded(Recent(pruned, r.checked, cfg.windowSeconds), reply, r.recorded),
                  Recorded(full, reply, r.recorded), cfg.windowSeconds, r.recorded)
  {
    var recent := Recent(pruned, r.checked, cfg.windowSeconds);
    AgreeAfterPruning(pruned, full, cfg.windowSeconds, since, r.checked);
    AgreeLater(recent, full, cfg.windowSeconds, r.checked, r.recorded);
    AgreeAfterRecording(recent, full, cfg.windowSeconds, r.checked, Credentials(cfg, r.header), r.recorded);
  }

  lemma AgreeLater(pruned: seq<real>, history: seq<real>, window: int, since: real, later: real)
    requires Agree(pruned, history, window, since) && since <= later
    ensures Agree(pruned, history, window, later)
  {
  }

  lemma StepAgrees(cfg: AuthConfig, failures: Failures, history: Failures, r: Request, since: real)
    requires AllAgree(failures, history, cfg.windowSeconds, since) && since <= r.checked <= r.recorded
    ensures Authenticate(cfg, failures, r).1 == AuthenticatePlainly(cfg, history, r).1
    ensures AllAgree(Authenticate(cfg, failures, r).0, AuthenticatePlainly(cfg, history, r).0, cfg.windowSeconds, r.recorded)
  {
    AddressAgrees(cfg, Of(failures, r.ip), Of(history, r.ip), r, since);
    var f1, h1 := Authenticate(cfg, failures, r).0, AuthenticatePlainly(cfg, history, r).0;
    forall ip ensures Agree(Of(f1, ip), Of(h1, ip), cfg.windowSeconds, r.recorded) {
      AgreeLater(Of(failures, ip), Of(history, ip), cfg.windowSeconds, since, r.recorded);
      if ip != r.ip {
        assert Of(f1, ip) == Of(failures, ip) && Of(h1, ip) == Of(history, ip);
      }
    }
  }

  /** Pruning is invisible: over every run of requests from any addresses the replies are
      those of the plain rule on the full history. */
  lemma {:induction false} PruningIsInvisible(cfg: AuthConfig, failures: Failures, history: Failures,
                                              requests: seq<Request>, since: real)
    requires AllAgree(failures, history, cfg.windowSeconds, since) && ClockRuns(requests, since)
    ensures Run(cfg, failures, requests).1 == RunPlainly(cfg, history, requests).1
    decreases |requests|
  {
    if requests != [] {
      StepAgrees(cfg, failures, history, requests[0], since);
      PruningIsInvisible(cfg, Authenticate(cfg, failures, requests[0]).0,
                         AuthenticatePlainly(cfg, history, requests[0]).0, requests[1..], requests[0].recorded);
    }
  }

  /** From a fresh start. */
  lemma FreshRunsAgree(cfg: AuthConfig, requests: seq<Request>, since: real)
    requires ClockRuns(requests, since)
    ensures Run(cfg, map[], requests).1 == RunPlainly(cfg, map[], requests).1
  {
    PruningIsInvisible(cfg, map[], map[], requests, since);
  }

  /** One address's failures: in order, spread, none later than `since`. */
  predicate SpreadUpTo(cfg: AuthConfig, times: seq<real>, since: real) {
    && Ordered(times) && Spread(times, cfg.maxFailures, cfg.windowSeconds)
    && (forall i :: 0 <= i < |times| ==> times[i] <= since)
    && (cfg.maxFailures < 1 ==> times == [])
  }

  ghost predicate WellSpread(cfg: AuthConfig, history: Failures, since: real) {
    forall ip :: SpreadUpTo(cfg, Of(history, ip), since)
  }

  lemma RecordingKeepsSpreadUpTo(cfg: AuthConfig, times: seq<real>, since: real, r: Request)
    requires SpreadUpTo(cfg, times, since) && since <= r.checked <= r.recorded
    requires |Recent(times, r.checked, cfg.windowSeconds)| < cfg.maxFailures
    ensures SpreadUpTo(cfg, times + [r.recorded], r.recorded)
  {
    RecordingKeepsSpread(times, r.checked, r.recorded, cfg.maxFailures, cfg.windowSeconds);
  }

  lemma StepKeepsSpread(cfg: AuthConfig, history: Failures, r: Request, since: real)
    requires WellSpread(cfg, history, since) && since <= r.checked <= r.recorded
    ensures WellSpread(cfg, AuthenticatePlainly(cfg, history, r).0, r.recorded)
  {
    var before := Of(history, r.ip);
    var h1 := AuthenticatePlainly(cfg, history, r).0;
    if |Recent(before, r.checked, cfg.windowSeconds)| < cfg.maxFailures {
      RecordingKeepsSpreadUpTo(cfg, before, since, r);
    }
    forall ip ensures SpreadUpTo(cfg, Of(h1, ip), r.recorded) {
      assert SpreadUpTo(cfg, Of(history, ip), since);
    }
  }

  lemma {:induction false} RunKeepsSpread(cfg: AuthConfig, history: Failures, requests: seq<Request>, since: real)
      returns (last: real)
    requires WellSpread(cfg, history, since) && ClockRuns(requests, since)
    ensures WellSpread(cfg, RunPlainly(cfg, history, requests).0, last)
    decreases |requests|
  {
    last := since;
    if requests != [] {
      StepKeepsSpread(cfg, history, requests[0], since);
      last := RunKeepsSpread(cfg, AuthenticatePlainly(cfg, history, requests[0]).0, requests[1..], requests[0].recorded);
    }
  }

  /** The failures of one address since its last success, read off a run's requests and replies:
      those answered as unauthorised, at the times of their recording. */
  function FailuresOf(earlier: seq<real>, requests: seq<Request>, replies: seq<Reply>, ip: string): seq<real>
    requires |requests| == |replies|
    decreases |requests|
  {
    if requests == [] then earlier
    else
      var now := if requests[0].ip != ip then earlier
                 else match replies[0]
                      case Accepted(_) => []
                      case MissingHeader => earlier + [requests[0].recorded]
                      case InvalidKey => earlier + [requests[0].recorded]
                      case _ => earlier;
      FailuresOf(now, requests[1..], replies[1..], ip)
  }

  lemma {:induction false} HistoryIsFailures(cfg: AuthConfig, history: Failures, requests: seq<Request>, ip: string)
    ensures |RunPlainly(cfg, history, requests).1| == |requests|
    ensures Of(RunPlainly(cfg, history, requests).0, ip)
            == FailuresOf(Of(history, ip), requests, RunPlainly(cfg, history, requests).1, ip)
    decreases |requests|
  {
    if requests != [] {
      var (h1, reply) := AuthenticatePlainly(cfg, history, requests[0]);
      var rest := RunPlainly(cfg, h1, requests[1..]);
      HistoryIsFailures(cfg, h1, requests[1..], ip);
      assert ([reply] + rest.1)[1..] == rest.1;
      PlainStep(cfg, history, requests[0], ip);
    }
  }

  lemma PlainStep(cfg: AuthConfig, history: Failures, r: Request, ip: string)
    ensures var (h1, reply) := AuthenticatePlainly(cfg, history, r);
            Of(h1, ip) == if r.ip != ip then Of(history, ip)
                          else match reply
                               case Accepted(_) => []
                               case MissingHeader => Of(history, ip) + [r.recorded]
                               case InvalidKey => Of(history, ip) + [r.recorded]
                               case _ => Of(history, ip)
  {
    hide Recent;
  }

  /** The limit means what it says: over every run of the code, no stretch of `window_seconds` holds
      more than `max_failures` of the failures recorded for an address since its last success. */
  lemma WindowsNeverOverfull(cfg: AuthConfig, requests: seq<Request>, since: real, ip: string, from: real)
    requires ClockRuns(requests, since)
    ensures |Run(cfg, map[], requests).1| == |requests|
    ensures var failures := FailuresOf([], requests, Run(cfg, map[], requests).1, ip);
            CountIn(failures, from, from + cfg.windowSeconds as real) <= Max(0, cfg.maxFailures)
  {
    FreshRunsAgree(cfg, requests, since);
    HistoryIsFailures(cfg, map[], requests, ip);
    hide Run, RunPlainly, FailuresOf, Spread, Ordered, CountIn;
    var last := RunKeepsSpread(cfg, map[], requests, since);
    var history := Of(RunPlainly(cfg, map[], requests).0, ip);
    assert SpreadUpTo(cfg, history, last);
    if cfg.maxFailures >= 1 {
      WindowHoldsFew(history, cfg.maxFailures, cfg.windowSeconds, from);
    } else {
      CountInBound(history, from, from + cfg.windowSeconds as real);
    }
  }

  /** Requests from one address never touch another's list. */
  lemma AddressesAreIndependent(cfg: AuthConfig, failures: Failures, r: Request, ip: string)
    requires ip != r.ip
    ensures Of(Authenticate(cfg, failures, r).0, ip) == Of(failures, ip)
  {
  }
}
