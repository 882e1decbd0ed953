/** Who is let in, auth.py: each reply of a run, decided by the header, the configured keys and the
    failures that the earlier replies recorded. */
module AuthReplies {
  import opened Common
  import opened RateLimit

  /** How many of these failures are less than `window` seconds old. */
  function Fresh(times: seq<real>, now: real, window: int): nat {
    if times == [] then 0 else Bit(times[0] > now - window as real) + Fresh(times[1..], now, window)
  }

  lemma {:induction false} RecentIsFresh(times: seq<real>, now: real, window: int)
    ensures |Recent(times, now, window)| == Fresh(times, now, window)
  {
    if times != [] {
      RecentIsFresh(times[1..], now, window);
    }
  }

  /** At least `max_failures` of the failures of the address since its last success are fresh. */
  predicate Limited(cfg: AuthConfig, failures: seq<real>, r: Request) {
    Fresh(failures, r.checked, cfg.windowSeconds) >= cfg.maxFailures
  }

  /** The header carries this key. */
  predicate Carries(header: string, key: string) {
    header == "Bearer " + key
  }

  lemma CarriesIff(header: string)
    ensures (exists key :: Carries(header, key)) <==> BEARER <= header
    ensures BEARER <= header ==> Carries(header, header[|BEARER|..])
    ensures forall key :: Carries(header, key) ==> key == header[|BEARER|..]
  {
    if BEARER <= header {
      assert header == BEARER + header[|BEARER|..];
      assert Carries(header, header[|BEARER|..]);
    }
    forall key | Carries(header, key) ensures BEARER <= header && key == header[|BEARER|..] {
      assert header == BEARER + key;
    }
  }

  /** What a reply says about the request, with these failures of its address before it. */
  ghost predicate Right(cfg: AuthConfig, failures: seq<real>, r: Request, reply: Reply) {
    && reply != Open
    && (reply == TooManyFailures <==> Limited(cfg, failures, r))
    && (reply == MissingHeader <==> !Limited(cfg, failures, r) && forall key :: !Carries(r.header, key))
    && (reply == InvalidKey <==> !Limited(cfg, failures, r) && exists key :: Carries(r.header, key) && key !in cfg.keys)
    && (forall c :: reply == Accepted(c) <==>
          !Limited(cfg, failures, r) && exists key :: Carries(r.header, key) && key in cfg.keys && cfg.keys[key] == c)
  }

  lemma PlainReplyIsRight(cfg: AuthConfig, history: Failures, r: Request)
    requires cfg.enabled
    ensures Right(cfg, Of(history, r.ip), r, AuthenticatePlainly(cfg, history, r).1)
  {
    RecentIsFresh(Of(history, r.ip), r.checked, cfg.windowSeconds);
    CarriesIff(r.header);
    hide Recent, Fresh, Carries;
  }

  lemma {:induction false} PlainRepliesAreRight(cfg: AuthConfig, history: Failures, requests: seq<Request>, i: nat)
    requires cfg.enabled && i < |requests|
    ensures |RunPlainly(cfg, history, requests).1| == |requests|
    ensures var replies := RunPlainly(cfg, history, requests).1;
            Right(cfg, FailuresOf(Of(history, requests[i].ip), requests[..i], replies[..i], requests[i].ip), requests[i], replies[i])
    decreases |requests|
  {
    var r, ip := requests[0], requests[i].ip;
    var (h1, reply) := AuthenticatePlainly(cfg, history, r);
    var rest := RunPlainly(cfg, h1, requests[1..]).1;
    var replies := RunPlainly(cfg, history, requests).1;
    HistoryIsFailures(cfg, history, requests, ip);
    HistoryIsFailures(cfg, h1, requests[1..], ip);
    assert replies == [reply] + rest;
    if i == 0 {
      PlainReplyIsRight(cfg, history, r);
      assert requests[..0] == [] && replies[..0] == [];
      hide Right, AuthenticatePlainly, RunPlainly;
    } else {
      PlainRepliesAreRight(cfg, h1, requests[1..], i - 1);
      PlainStep(cfg, history, r, ip);
      assert requests[..i][1..] == requests[1..][..i - 1] && replies[..i][1..] == rest[..i - 1];
      hide Right, AuthenticatePlainly, RunPlainly;
      FailuresStep(Of(history, ip), Of(h1, ip), requests[..i], replies[..i], ip);
    }
  }

  lemma FailuresStep(earlier: seq<real>, now: seq<real>, requests: seq<Request>, replies: seq<Reply>, ip: string)
    requires |requests| == |replies| > 0
    requires now == if requests[0].ip != ip then earlier
                    else match replies[0]
                         case Accepted(_) => []
                         case MissingHeader => earlier + [requests[0].recorded]
                         case InvalidKey => earlier + [requests[0].recorded]
                         case _ => earlier
    ensures FailuresOf(earlier, requests, replies, ip) == FailuresOf(now, requests[1..], replies[1..], ip)
  {
  }

  /** Over every run with authentication on, each reply is right: too many failures exactly when the
      address is over its limit; otherwise accepted, as client `c`, exactly when the header carries a
      configured key of `c`; an invalid key exactly when it carries another; a missing header exactly
      when it carries none; and nobody is waved through. The failures are those that the earlier
      replies of the run recorded for the address since its last success. */
  lemma RepliesAreRight(cfg: AuthConfig, requests: seq<Request>, since: real, i: nat)
    requires cfg.enabled && ClockRuns(requests, since) && i < |requests|
    ensures |Run(cfg, map[], requests).1| == |requests|
    ensures var replies := Run(cfg, map[], requests).1;
            Right(cfg, FailuresOf([], requests[..i], replies[..i], requests[i].ip), requests[i], replies[i])
  {
    FreshRunsAgree(cfg, requests, since);
    hide Run, Right;
    PlainRepliesAreRight(cfg, map[], requests, i);
  }

  /** With authentication off every request is waved through and nothing is recorded. */
  lemma {:induction false} OpenWhenDisabled(cfg: AuthConfig, failures: Failures, requests: seq<Request>)
    requires !cfg.enabled
    ensures Run(cfg, failures, requests).0 == failures && |Run(cfg, failures, requests).1| == |requests|
    ensures forall reply :: reply in Run(cfg, failures, requests).1 ==> reply == Open
    decreases |requests|
  {
    if requests != [] {
      OpenWhenDisabled(cfg, failures, requests[1..]);
    }
  }
}
