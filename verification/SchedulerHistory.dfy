/** Order, bytes, counters, futures and permits over whole runs of the scheduler. */
module SchedulerHistory {
  import opened Common
  import opened Queue
  import opened Concurrency
  import opened Scheduler
  import opened SchedulerInvariant

  // ---- histories only grow -------------------------------------------------

  /** From `a` to `b`: same admissions or more, same departures or more, no future forgotten,
      and a future that is done keeps its outcome. */
  ghost predicate Grows(a: QState, b: QState) {
    && (forall t: Tier :: a.hist.admitted.Get(t) <= b.hist.admitted.Get(t))
    && (forall t: Tier :: a.hist.departed.Get(t) <= b.hist.departed.Get(t))
    && a.hist.flushedBytes <= b.hist.flushedBytes
    && (forall id :: id in a.futures ==>
          id in b.futures && (a.futures[id] == Pending || b.futures[id] == a.futures[id]))
  }

  lemma FlushOneGrows(q: QState, t: Tier)
    requires q.queues.Get(t) != []
    ensures Grows(q, FlushOne(q, t)) && FlushOne(q, t).hist.admitted == q.hist.admitted
    ensures forall u :: u != t ==> FlushOne(q, t).queues.Get(u) == q.queues.Get(u)
    ensures |FlushOne(q, t).queues.Get(t)| < |q.queues.Get(t)|
  {
  }

  lemma {:induction false} FlushTierGrows(q: QState, t: Tier)
    ensures Grows(q, FlushTier(q, t).q) && FlushTier(q, t).q.hist.admitted == q.hist.admitted
    ensures forall u :: u != t ==> FlushTier(q, t).q.queues.Get(u) == q.queues.Get(u)
    decreases |q.queues.Get(t)|
  {
    if q.queues.Get(t) != [] {
      FlushOneGrows(q, t);
      hide FlushOne;
      if IsPending(q.futures, q.queues.Get(t)[0].id) {
        FlushTierGrows(FlushOne(q, t), t);
      }
    }
  }

  lemma {:induction false} FlushTiersGrows(q: QState, tiers: seq<Tier>)
    ensures Grows(q, FlushTiers(q, tiers).q) && FlushTiers(q, tiers).q.hist.admitted == q.hist.admitted
    decreases |tiers|
  {
    if tiers != [] {
      FlushTierGrows(q, tiers[0]);
      FlushTiersGrows(FlushTier(q, tiers[0]).q, tiers[1..]);
    }
  }

  lemma TurnGrows(cfg: Config, s: State, w: nat, now: real)
    requires Enabled(cfg, s, RunWorker(w, now))
    ensures Grows(s.q, RunStep(cfg, s, w, now).q)
    ensures RunStep(cfg, s, w, now).q.hist.admitted == s.q.hist.admitted
  {
    if !(s.workers[w].Ready? && !s.q.hasItems) && NextTier(s.q.queues).Some? {
      hide RunStep;
      RunShape(cfg, s, w, now);
    }
  }

  lemma ArriveGrows(cfg: Config, s: State, item: Item)
    requires item.id !in s.q.futures
    ensures Grows(s.q, ArriveStep(cfg, s, item).q)
  {
    assert ArriveStep(cfg, s, item).q == Enqueue(cfg, s.q, item);
  }

  lemma FinishGrows(s: State, w: nat, ok: bool)
    requires w < |s.workers| && s.workers[w].Upstream?
    ensures Grows(s.q, FinishStep(s, w, ok).q) && FinishStep(s, w, ok).q.hist.admitted == s.q.hist.admitted
  {
    assert FinishStep(s, w, ok).q == Complete(s.q, s.workers[w].item, ok);
  }

  lemma StepGrows(cfg: Config, s: State, e: Step)
    requires Enabled(cfg, s, e)
    ensures Grows(s.q, Next(cfg, s, e).q)
    ensures !e.Arrive? ==> Next(cfg, s, e).q.hist.admitted == s.q.hist.admitted
  {
    hide RunStep, ArriveStep, FinishStep, FlushTiers;
    match e
    case Arrive(item) => ArriveGrows(cfg, s, item);
    case RunWorker(w, now) => TurnGrows(cfg, s, w, now);
    case UpstreamReturns(w, ok) => FinishGrows(s, w, ok);
    case FlushCall(which) => FlushTiersGrows(s.q, TiersOf(which));
    case _ =>
  }

  /** Over every run: nothing admitted or departed is rewritten, and every future that has
      been resolved stays as it was resolved, so nobody is answered twice. */
  lemma {:induction false} RunGrows(cfg: Config, s: State, steps: seq<Step>)
    requires ValidRun(cfg, s, steps)
    ensures Grows(s.q, RunFrom(cfg, s, steps).q)
    decreases |steps|
  {
    if steps != [] {
      StepGrows(cfg, s, steps[0]);
      RunGrows(cfg, Next(cfg, s, steps[0]), steps[1..]);
    }
  }

  ghost predicate IdsDistinct(q: QState) {
    forall t: Tier :: DistinctIds(q.hist.admitted.Get(t))
  }

  lemma {:induction false} RunKeepsIdsDistinct(cfg: Config, s: State, steps: seq<Step>)
    requires Inv(cfg, s) && IdsDistinct(s.q) && ValidRun(cfg, s, steps)
    ensures IdsDistinct(RunFrom(cfg, s, steps).q)
    decreases |steps|
  {
    if steps != [] {
      var s1 := Next(cfg, s, steps[0]);
      StepGrows(cfg, s, steps[0]);
      StepKeepsInv(cfg, s, steps[0]);
      if steps[0].Arrive? {
        ArriveKeepsIdsDistinct(cfg, s, steps[0].item);
      }
      RunKeepsIdsDistinct(cfg, s1, steps[1..]);
    }
  }

  predicate DistinctIds(items: seq<Item>) {
    forall i, j :: 0 <= i < j < |items| ==> items[i].id != items[j].id
  }

  lemma ArriveKeepsIdsDistinct(cfg: Config, s: State, item: Item)
    requires HistoryInv(cfg, s.q) && IdsDistinct(s.q) && item.id !in s.q.futures
    ensures IdsDistinct(ArriveStep(cfg, s, item).q)
  {
    var before, after := s.q.hist.admitted, ArriveStep(cfg, s, item).q.hist.admitted;
    forall t: Tier ensures DistinctIds(after.Get(t)) {
      assert DistinctIds(before.Get(t));
      if after.Get(t) != before.Get(t) {
        assert after.Get(t) == before.Get(t) + [item];
        forall i | 0 <= i < |before.Get(t)| ensures before.Get(t)[i].id != item.id {
          assert before.Get(t)[i] in before.Get(t);
        }
      }
    }
  }

  lemma ReachableIdsDistinct(cfg: Config, s: State)
    requires Reachable(cfg, s)
    ensures IdsDistinct(s.q)
  {
    var steps :| ValidRun(cfg, Init(cfg), steps) && RunFrom(cfg, Init(cfg), steps) == s;
    InitInv(cfg);
    RunKeepsIdsDistinct(cfg, Init(cfg), steps);
  }

  // ---- order ---------------------------------------------------------------

  /** Each tier is first in, first out over whole runs: what was admitted is exactly what has
      departed followed by what still waits, in that order. */
  lemma TierIsFifo(cfg: Config, s: State, t: Tier)
    requires Reachable(cfg, s)
    ensures s.q.hist.admitted.Get(t) == s.q.hist.departed.Get(t) + s.q.queues.Get(t)
    ensures cfg.maxDepth.Get(t) > 0 ==> |s.q.queues.Get(t)| <= cfg.maxDepth.Get(t)
  {
    ReachableInv(cfg, s);
  }

  /** The position handed out on admission is truthful whatever happens next, flushes
      included: the item is the `position`-th of its tier to leave from then on. */
  lemma PositionIsTruthful(cfg: Config, s: State, item: Item, steps: seq<Step>)
    requires Reachable(cfg, s) && Enabled(cfg, s, Arrive(item))
    requires EnqueueOutcomeOf(cfg, s.q, item).Admitted?
    requires ValidRun(cfg, Next(cfg, s, Arrive(item)), steps)
    ensures var p := EnqueueOutcomeOf(cfg, s.q, item).position;
            var t := item.tier;
            var q2 := RunFrom(cfg, Next(cfg, s, Arrive(item)), steps).q;
            var left := |q2.hist.departed.Get(t)| - |s.q.hist.departed.Get(t)|;
            && 0 <= left
            && (item in q2.queues.Get(t) <==> left < p)
            && (left < p ==> p - 1 - left < |q2.queues.Get(t)| && q2.queues.Get(t)[p - 1 - left] == item)
            && (left >= p ==> q2.hist.departed.Get(t)[|s.q.hist.departed.Get(t)| + p - 1] == item)
  {
    hide Reachable, ValidRun, RunFrom, ArriveStep;
    var s1 := Next(cfg, s, Arrive(item));
    AdmissionFacts(cfg, s, item);
    var q2 := RunFrom(cfg, s1, steps).q;
    TierOverRun(cfg, s1, steps, item.tier);
    var n := |s.q.hist.departed.Get(item.tier)| + |s.q.queues.Get(item.tier)|;
    PlaceInLine(q2.hist.admitted.Get(item.tier), q2.hist.departed.Get(item.tier), q2.queues.Get(item.tier), n, item);
  }

  lemma AdmissionFacts(cfg: Config, s: State, item: Item)
    requires Reachable(cfg, s) && Enabled(cfg, s, Arrive(item))
    requires EnqueueOutcomeOf(cfg, s.q, item).Admitted?
    ensures var t := item.tier;
            var s1 := Next(cfg, s, Arrive(item));
            var n := |s.q.hist.departed.Get(t)| + |s.q.queues.Get(t)|;
            && Reachable(cfg, s1) && s1.q.hist.departed.Get(t) == s.q.hist.departed.Get(t)
            && n < |s1.q.hist.admitted.Get(t)| && s1.q.hist.admitted.Get(t)[n] == item
  {
    ReachableInv(cfg, s);
    ReachableStep(cfg, s, Arrive(item));
  }

  lemma TierOverRun(cfg: Config, s: State, steps: seq<Step>, t: Tier)
    requires Reachable(cfg, s) && ValidRun(cfg, s, steps)
    ensures var q2 := RunFrom(cfg, s, steps).q;
            && s.q.hist.admitted.Get(t) <= q2.hist.admitted.Get(t)
            && s.q.hist.departed.Get(t) <= q2.hist.departed.Get(t)
            && q2.hist.admitted.Get(t) == q2.hist.departed.Get(t) + q2.queues.Get(t)
            && DistinctIds(q2.hist.admitted.Get(t))
  {
    ReachableExtends(cfg, s, steps);
    RunGrows(cfg, s, steps);
    TierIsFifo(cfg, RunFrom(cfg, s, steps), t);
    ReachableIdsDistinct(cfg, RunFrom(cfg, s, steps));
  }

  lemma PlaceInLine(admitted: seq<Item>, departed: seq<Item>, queue: seq<Item>, n: nat, item: Item)
    requires admitted == departed + queue && DistinctIds(admitted)
    requires n < |admitted| && admitted[n] == item
    ensures item in queue <==> |departed| <= n
    ensures |departed| <= n ==> n - |departed| < |queue| && queue[n - |departed|] == item
    ensures |departed| > n ==> departed[n] == item
  {
    if item in queue {
      var i :| 0 <= i < |queue| && queue[i] == item;
      assert admitted[|departed| + i] == item;
    }
  }

  predicate Above(u: Tier, t: Tier) {
    (u.High? && !t.High?) || (u.Normal? && t.Low?)
  }

  /** A worker takes the oldest waiting item of its tier, and only when everything that was
      ever admitted to a higher tier has left it. */
  lemma HighestTierFirst(cfg: Config, s: State, w: nat, now: real, t: Tier)
    requires Reachable(cfg, s) && Enabled(cfg, s, RunWorker(w, now))
    requires Next(cfg, s, RunWorker(w, now)).q.hist.departed.Get(t) != s.q.hist.departed.Get(t)
    ensures forall u :: Above(u, t) ==> s.q.hist.departed.Get(u) == s.q.hist.admitted.Get(u)
    ensures var d := s.q.hist.departed.Get(t);
            && |d| < |s.q.hist.admitted.Get(t)|
            && Next(cfg, s, RunWorker(w, now)).q.hist.departed.Get(t) == d + [s.q.hist.admitted.Get(t)[|d|]]
  {
    hide ClientsInv, PlacesInv, CountersInv, BytesInv, Reachable;
    ReachableInv(cfg, s);
    assert !(s.workers[w].Ready? && !s.q.hasItems) && NextTier(s.q.queues).Some?;
    RunShape(cfg, s, w, now);
    var q2 := RunStep(cfg, s, w, now).q;
    assert q2.hist.departed == Pop(s.q, NextTier(s.q.queues).value).hist.departed;
    assert NextTier(s.q.queues) == Some(t);
    forall u | Above(u, t) ensures s.q.hist.departed.Get(u) == s.q.hist.admitted.Get(u) {
      assert s.q.queues.Get(u) == [];
    }
  }

  // ---- bytes ---------------------------------------------------------------

  /** The memory ceiling: the bytes waiting stay under it, or a single item waits. The counter
      is the bytes waiting plus every byte ever flushed, and taking an item never clamps it. */
  lemma ByteCeiling(cfg: Config, s: State)
    requires Reachable(cfg, s)
    ensures WaitingBytes(s.q) <= cfg.maxBytes || Waiting(s.q) <= 1
    ensures s.q.bytes == WaitingBytes(s.q) + s.q.hist.flushedBytes
    ensures forall t :: s.q.queues.Get(t) != [] ==> s.q.queues.Get(t)[0].nbytes <= s.q.bytes
  {
    ReachableInv(cfg, s);
    forall t | s.q.queues.Get(t) != [] ensures s.q.queues.Get(t)[0].nbytes <= s.q.bytes {
      PopFacts(s.q, t);
    }
  }

  /** Would the ceiling refuse a body of `n` bytes, and does the rule as documented, on the
      bytes really waiting, refuse it? */
  predicate RefusedForBytes(cfg: Config, q: QState, n: nat) {
    q.bytes + n > cfg.maxBytes && !AllEmpty(q.queues)
  }

  predicate OverDocumentedCeiling(cfg: Config, q: QState, n: nat) {
    WaitingBytes(q) + n > cfg.maxBytes && !AllEmpty(q.queues)
  }

  /** The ceiling is applied as documented, to every size of body, if and only if nothing has
      ever been flushed, or nothing waits, or the single waiting item is over the ceiling. */
  lemma CeilingIsExactIff(cfg: Config, s: State)
    requires Reachable(cfg, s)
    ensures (forall n: nat :: RefusedForBytes(cfg, s.q, n) <==> OverDocumentedCeiling(cfg, s.q, n))
            <==> s.q.hist.flushedBytes == 0 || AllEmpty(s.q.queues) || WaitingBytes(s.q) > cfg.maxBytes
  {
    ReachableInv(cfg, s);
    if s.q.hist.flushedBytes > 0 && !AllEmpty(s.q.queues) && WaitingBytes(s.q) <= cfg.maxBytes {
      var n: nat := cfg.maxBytes - WaitingBytes(s.q);
      assert RefusedForBytes(cfg, s.q, n) && !OverDocumentedCeiling(cfg, s.q, n);
    }
  }

  // ---- counters and futures ------------------------------------------------

  /** Every admitted item of a tier is counted exactly once: waiting, held by a worker,
      processed, expired, failed or flushed. */
  lemma TierIsConserved(cfg: Config, s: State, t: Tier)
    requires Reachable(cfg, s)
    ensures |s.q.hist.admitted.Get(t)|
            == |s.q.queues.Get(t)| + Count(s.workers, KTier(t))
               + s.q.stats.Get(t).processed + s.q.stats.Get(t).expired
               + s.q.hist.failed.Get(t) + s.q.hist.flushed.Get(t) + s.q.hist.aborted.Get(t)
  {
    ReachableInv(cfg, s);
    assert |s.q.hist.admitted.Get(t)| == Accounted(s.q, s.workers, t);
  }

  /** No request is lost or duplicated: a request without an answer is in exactly one place,
      and a request that got one from the proxy is in none. */
  lemma UnansweredIsHeldOnce(cfg: Config, s: State, id: nat)
    requires Reachable(cfg, s)
    ensures id in s.q.futures && s.q.futures[id] != Cancelled ==>
              (IsPending(s.q.futures, id) <==> Places(s.q.queues, s.workers, id) == 1)
    ensures id in s.q.futures && s.q.futures[id] !in {Pending, Cancelled} ==>
              Places(s.q.queues, s.workers, id) == 0
    ensures id !in s.q.futures ==> Places(s.q.queues, s.workers, id) == 0
  {
    ReachableInv(cfg, s);
    assert PlaceOk(s.q.queues, s.workers, s.q.futures, id);
  }

  // ---- permits -------------------------------------------------------------

  /** The books of a client: its counters say how many workers are upstream for it and how
      many are in its semaphore, and no permit is made or lost except by a bypass. */
  lemma PermitAccounting(cfg: Config, s: State, id: string)
    requires Reachable(cfg, s) && id in cfg.caps
    ensures id in s.clients && id in s.bypasses
    ensures s.clients[id].inflight == Count(s.workers, KUpstreamFor(id))
    ensures s.clients[id].capWaiting == Count(s.workers, KWaitsFor(id)) + Count(s.workers, KGrantedFor(id))
    ensures cfg.caps[id] > 0 ==>
              s.clients[id].permits + s.clients[id].inflight + s.clients[id].granted == cfg.caps[id] + s.bypasses[id]
  {
    ReachableInv(cfg, s);
  }

  /** The clamps at zero never fire: whoever releases is in flight, whoever resumes waited. */
  lemma ClampsNeverFire(cfg: Config, s: State, w: nat)
    requires Reachable(cfg, s) && w < |s.workers|
    ensures s.workers[w].Upstream? && Known(s, s.workers[w].item.client) ==>
              s.clients[s.workers[w].item.client.value].inflight > 0
    ensures s.workers[w].Granted? && Known(s, s.workers[w].item.client) ==>
              s.clients[s.workers[w].item.client.value].capWaiting > 0
  {
    hide HistoryInv, PlacesInv, CountersInv, BytesInv, WaitersOk, Reachable;
    ReachableInv(cfg, s);
    if (s.workers[w].Upstream? || s.workers[w].Granted?) && Known(s, s.workers[w].item.client) {
      var id := s.workers[w].item.client.value;
      CountBound(s.workers, KUpstreamFor(id), w);
      CountBound(s.workers, KGrantedFor(id), w);
    }
  }

  /** The client whose books an internal step may change. */
  function ServedClient(s: State, e: Step): Option<string>
    requires Internal(e)
  {
    match e
    case RunWorker(_, _) => (match Take(s.q).1 case Some(item) => item.client case None => None)
    case ResumeWorker(w) => if w < |s.workers| then ClientOf(s.workers[w]) else None
    case UpstreamReturns(w, _) => if w < |s.workers| then ClientOf(s.workers[w]) else None
    case _ => None
  }

  /** Semaphores are independent: a step for one client leaves every other client's alone. */
  lemma OtherClientsUntouched(cfg: Config, s: State, e: Step, id: string)
    requires Enabled(cfg, s, e) && id in s.clients
    requires Internal(e) ==> ServedClient(s, e) != Some(id)
    ensures id in Next(cfg, s, e).clients && Next(cfg, s, e).clients[id] == s.clients[id]
  {
    match e
    case RunWorker(w, now) =>
      if !(s.workers[w].Ready? && !s.q.hasItems) && NextTier(s.q.queues).Some? {
        RunShape(cfg, s, w, now);
      }
    case _ =>
  }

  /** No admitted request has been deferred often enough to bypass its cap. */
  ghost predicate NoBypass(cfg: Config, s: State) {
    && (forall t: Tier, item :: item in s.q.hist.admitted.Get(t) ==> item.reentries < FAIRNESS_MAX_REENTRIES)
    && (forall id :: id in s.bypasses ==> s.bypasses[id] == 0)
  }

  lemma TurnKeepsNoBypass(cfg: Config, s: State, w: nat, now: real)
    requires HistoryInv(cfg, s.q) && NoBypass(cfg, s) && Enabled(cfg, s, RunWorker(w, now))
    ensures NoBypass(cfg, RunStep(cfg, s, w, now))
  {
    TurnGrows(cfg, s, w, now);
    if !(s.workers[w].Ready? && !s.q.hasItems) && NextTier(s.q.queues).Some? {
      var t := NextTier(s.q.queues).value;
      assert s.q.queues.Get(t)[0] == s.q.hist.admitted.Get(t)[|s.q.hist.departed.Get(t)|];
      RunShape(cfg, s, w, now);
    }
  }

  lemma StepKeepsNoBypass(cfg: Config, s: State, e: Step)
    requires HistoryInv(cfg, s.q) && NoBypass(cfg, s) && Enabled(cfg, s, e)
    requires e.Arrive? ==> e.item.reentries < FAIRNESS_MAX_REENTRIES
    ensures NoBypass(cfg, Next(cfg, s, e))
  {
    StepGrows(cfg, s, e);
    match e
    case RunWorker(w, now) => TurnKeepsNoBypass(cfg, s, w, now);
    case _ =>
  }

  lemma {:induction false} RunKeepsNoBypass(cfg: Config, s: State, steps: seq<Step>)
    requires Inv(cfg, s) && NoBypass(cfg, s) && ValidRun(cfg, s, steps)
    requires forall e :: e in steps && e.Arrive? ==> e.item.reentries < FAIRNESS_MAX_REENTRIES
    ensures NoBypass(cfg, RunFrom(cfg, s, steps))
    decreases |steps|
  {
    if steps != [] {
      StepKeepsNoBypass(cfg, s, steps[0]);
      StepKeepsInv(cfg, s, steps[0]);
      RunKeepsNoBypass(cfg, Next(cfg, s, steps[0]), steps[1..]);
    }
  }

  /** The cap holds over every run of requests as the proxy makes them, with `reentries` 0. */
  lemma CapIsRespected(cfg: Config, steps: seq<Step>, id: string)
    requires ValidRun(cfg, Init(cfg), steps)
    requires forall e :: e in steps && e.Arrive? ==> e.item.reentries < FAIRNESS_MAX_REENTRIES
    requires id in cfg.caps && cfg.caps[id] > 0
    ensures Count(RunFrom(cfg, Init(cfg), steps).workers, KUpstreamFor(id)) <= cfg.caps[id]
  {
    var s := RunFrom(cfg, Init(cfg), steps);
    InitInv(cfg);
    RunKeepsNoBypass(cfg, Init(cfg), steps);
    assert Reachable(cfg, s);
    PermitAccounting(cfg, s, id);
  }
}
