/** What the scheduler guarantees over whole runs. */
module SchedulerTheorems {
  import opened Common
  import opened Queue
  import opened Concurrency
  import opened Scheduler
  import opened SchedulerInvariant

  // ---- wake-ups and concurrency --------------------------------------------

  /** No lost wake-up: while any tier holds an item, no worker sleeps on the event. */
  lemma NoLostWakeUp(cfg: Config, s: State, w: nat)
    requires Reachable(cfg, s) && w < |s.workers| && !AllEmpty(s.q.queues)
    ensures s.q.hasItems && !s.workers[w].Parked?
  {
    ReachableInv(cfg, s);
    CountBound(s.workers, KParked, w);
  }

  /** At most `max_concurrent` items are held by workers, `_active` counts them and the dead
      workers, and the worker semaphore never makes a runnable worker wait. */
  lemma BoundedConcurrency(cfg: Config, s: State)
    requires Reachable(cfg, s)
    ensures |s.workers| == cfg.workers
    ensures 0 <= Count(s.workers, KBusy) <= s.q.active <= cfg.workers
    ensures s.q.active == Count(s.workers, KBusy) + Count(s.workers, KCrashed)
    ensures forall w, now :: 0 <= w < |s.workers| && (s.workers[w].Ready? || s.workers[w].Woken?) ==>
              Enabled(cfg, s, RunWorker(w, now))
  {
    ReachableInv(cfg, s);
    BusyAndCrashed(s.workers);
    forall w, now | 0 <= w < |s.workers| && (s.workers[w].Ready? || s.workers[w].Woken?)
      ensures Enabled(cfg, s, RunWorker(w, now))
    {
      CountBound(s.workers, KBusy, w);
    }
  }

  lemma {:induction false} BusyAndCrashed(ws: seq<Phase>)
    ensures Count(ws, KBusy) + Count(ws, KCrashed) <= |ws|
  {
    if ws != [] {
      BusyAndCrashed(ws[1..]);
    }
  }

  // ---- deadlock ------------------------------------------------------------

  /** A worker that holds a place in a semaphore has been handed its permit: it can go on. */
  lemma GrantedCanResume(cfg: Config, s: State, w: nat)
    requires Inv(cfg, s) && w < |s.workers| && s.workers[w].Granted?
    ensures Enabled(cfg, s, ResumeWorker(w))
  {
    assert InSemaphore(cfg, s.workers[w]);
    var id := s.workers[w].item.client.value;
    assert id in s.clients;
    CountBound(s.workers, KGrantedFor(id), w);
  }

  /** Somebody waits, in a tier or on a client cap. */
  ghost predicate SomebodyWaits(s: State) {
    !AllEmpty(s.q.queues) || exists w :: 0 <= w < |s.workers| && s.workers[w].CapWait?
  }

  /** The proxy itself can take no step, and no upstream call is under way. */
  ghost predicate Quiescent(cfg: Config, s: State) {
    forall e :: Internal(e) ==> !Enabled(cfg, s, e)
  }

  /** Waiting on a cap means that somebody of the same client can move or is upstream. */
  lemma CapWaiterHasCompany(cfg: Config, s: State, w: nat)
    requires Inv(cfg, s) && w < |s.workers| && s.workers[w].CapWait?
    ensures !Quiescent(cfg, s)
    ensures var id := s.workers[w].item.client.value;
            id in s.clients && (s.clients[id].granted > 0 ||
              (s.clients[id].permits == 0 && s.clients[id].inflight == s.clients[id].cap + s.bypasses[id]))
  {
    assert InSemaphore(cfg, s.workers[w]);
    var id := s.workers[w].item.client.value;
    var c := s.clients[id];
    CountBound(s.workers, KWaitsFor(id), w);
    if c.granted > 0 {
      var v := CountWitness(s.workers, KGrantedFor(id));
      GrantedCanResume(cfg, s, v);
      assert Internal(ResumeWorker(v));
    } else {
      var v := CountWitness(s.workers, KUpstreamFor(id));
      assert Internal(UpstreamReturns(v, true)) && Enabled(cfg, s, UpstreamReturns(v, true));
    }
  }

  /** Deadlock freedom, with its exact limit: somebody waits and nothing can move if and only
      if an item is queued and every worker has been killed. */
  lemma StuckIffAllWorkersCrashed(cfg: Config, s: State)
    requires Reachable(cfg, s)
    ensures SomebodyWaits(s) && Quiescent(cfg, s)
            <==> !AllEmpty(s.q.queues) && forall w :: 0 <= w < |s.workers| ==> s.workers[w].Crashed?
  {
    hide ClientsInv, HistoryInv, PlacesInv, CountersInv, BytesInv, Reachable;
    ReachableInv(cfg, s);
    if SomebodyWaits(s) && Quiescent(cfg, s) {
      forall w | 0 <= w < |s.workers| ensures s.workers[w].Crashed? || (s.workers[w].Parked? && AllEmpty(s.q.queues)) {
        assert Internal(RunWorker(w, 0.0)) && Internal(ResumeWorker(w)) && Internal(UpstreamReturns(w, true));
        CountBound(s.workers, KBusy, w);
        CountBound(s.workers, KParked, w);
        if s.workers[w].Granted? {
          GrantedCanResume(cfg, s, w);
        } else if s.workers[w].CapWait? {
          CapWaiterHasCompany(cfg, s, w);
        }
      }
    }
  }

  /** A waiter on client `c`'s cap: either every permit is in use upstream, or a permit has
      been handed over and its holder is about to run. */
  lemma CapWaiterMeansCapInUse(cfg: Config, s: State, w: nat)
    requires Reachable(cfg, s) && w < |s.workers| && s.workers[w].CapWait?
    ensures s.workers[w].item.client.Some? && s.workers[w].item.client.value in cfg.caps
    ensures s.workers[w].item.client.value in s.bypasses
    ensures var id := s.workers[w].item.client.value;
            Count(s.workers, KGrantedFor(id)) > 0
            || Count(s.workers, KUpstreamFor(id)) == cfg.caps[id] + s.bypasses[id]
  {
    ReachableInv(cfg, s);
    CapWaiterHasCompany(cfg, s, w);
  }

  // ---- when a worker dies --------------------------------------------------

  /** A turn kills its worker exactly when the oldest item of the first non-empty tier is over
      age and its future is already done. */
  lemma TurnKillsWorkerIff(cfg: Config, s: State, w: nat, now: real)
    requires Enabled(cfg, s, RunWorker(w, now))
    ensures Next(cfg, s, RunWorker(w, now)).workers[w].Crashed?
            <==> && !(s.workers[w].Ready? && !s.q.hasItems)
                 && NextTier(s.q.queues).Some?
                 && var item := s.q.queues.Get(NextTier(s.q.queues).value)[0];
                    TooOld(cfg, item, now) && !IsPending(s.q.futures, item.id)
  {
  }

  /** Is this a turn that kills its worker? */
  predicate Kills(cfg: Config, s: State, e: Step)
    requires Enabled(cfg, s, e)
  {
    && e.RunWorker? && !(s.workers[e.w].Ready? && !s.q.hasItems) && NextTier(s.q.queues).Some?
    && var item := s.q.queues.Get(NextTier(s.q.queues).value)[0];
       TooOld(cfg, item, e.now) && !IsPending(s.q.futures, item.id)
  }

  function KillsIn(cfg: Config, s: State, steps: seq<Step>): nat
    requires ValidRun(cfg, s, steps)
    decreases |steps|
  {
    if steps == [] then 0 else Bit(Kills(cfg, s, steps[0])) + KillsIn(cfg, Next(cfg, s, steps[0]), steps[1..])
  }

  lemma GrantKeepsCrashed(ws: seq<Phase>, w: nat, p: Phase, woken: Option<nat>)
    requires w < |ws| && !ws[w].Crashed? && !p.Crashed?
    ensures Count(ws[w := p], KCrashed) == Count(ws, KCrashed) == Count(Grant(ws[w := p], woken), KCrashed)
  {
    CountUpdate(ws, w, p, KCrashed);
    var ws1 := ws[w := p];
    if woken.Some? && woken.value < |ws1| && ws1[woken.value].CapWait? {
      CountUpdate(ws1, woken.value, Granted(ws1[woken.value].item), KCrashed);
    }
  }

  lemma TurnCrashes(cfg: Config, s: State, w: nat, now: real)
    requires Enabled(cfg, s, RunWorker(w, now))
    ensures Count(RunStep(cfg, s, w, now).workers, KCrashed) == Count(s.workers, KCrashed) + Bit(Kills(cfg, s, RunWorker(w, now)))
  {
    var idle := (s.workers[w].Ready? && !s.q.hasItems) || NextTier(s.q.queues) == None;
    if idle {
      CountUpdate(s.workers, w, if s.workers[w].Ready? && !s.q.hasItems then Parked else Ready, KCrashed);
    } else {
      RunShape(cfg, s, w, now);
      TurnKillsWorkerIff(cfg, s, w, now);
      hide RunStep, TooOld;
      CountUpdate(s.workers, w, RunStep(cfg, s, w, now).workers[w], KCrashed);
    }
  }

  lemma StepCrashes(cfg: Config, s: State, e: Step)
    requires Enabled(cfg, s, e)
    ensures Count(Next(cfg, s, e).workers, KCrashed) == Count(s.workers, KCrashed) + Bit(Kills(cfg, s, e))
  {
    hide RunStep, FlushTiers, Awakened, ResumeWaiter, ReleaseClient, Count, Grant;
    match e
    case Arrive(_) => CountWakeParked(s.workers, KCrashed);
    case RunWorker(w, now) => TurnCrashes(cfg, s, w, now);
    case ResumeWorker(w) =>
      var c := s.clients[s.workers[w].item.client.value];
      GrantKeepsCrashed(s.workers, w, Upstream(s.workers[w].item), Awakened(c, ResumeWaiter(c)));
    case UpstreamReturns(w, _) =>
      var item := s.workers[w].item;
      if Known(s, item.client) {
        var c := s.clients[item.client.value];
        GrantKeepsCrashed(s.workers, w, Ready, Awakened(c, ReleaseClient(c)));
      } else {
        GrantKeepsCrashed(s.workers, w, Ready, None);
      }
    case _ =>
  }

  /** Over every run: the dead workers are as many as the turns that killed one. */
  lemma {:induction false} CrashedAreKilled(cfg: Config, s: State, steps: seq<Step>)
    requires ValidRun(cfg, s, steps)
    ensures Count(RunFrom(cfg, s, steps).workers, KCrashed) == Count(s.workers, KCrashed) + KillsIn(cfg, s, steps)
    decreases |steps|
  {
    if steps != [] {
      StepCrashes(cfg, s, steps[0]);
      hide Next, Enabled, Kills, Count;
      CrashedAreKilled(cfg, Next(cfg, s, steps[0]), steps[1..]);
    }
  }

  ghost predicate Uncancelled(s: State) {
    && (forall id :: id in s.q.futures ==> s.q.futures[id] != Cancelled)
    && (forall w :: 0 <= w < |s.workers| ==> !s.workers[w].Crashed?)
  }

  lemma HeadIsPending(cfg: Config, s: State, t: Tier)
    requires Inv(cfg, s) && Uncancelled(s) && s.q.queues.Get(t) != []
    ensures IsPending(s.q.futures, s.q.queues.Get(t)[0].id)
  {
    var id := s.q.queues.Get(t)[0].id;
    assert PlaceOk(s.q.queues, s.workers, s.q.futures, id);
    assert CountId(s.q.queues.Get(t), id) >= 1;
  }

  lemma {:induction false} FlushKeepsUncancelled(q: QState, t: Tier)
    requires forall id :: id in q.futures ==> q.futures[id] != Cancelled
    ensures forall id :: id in FlushTier(q, t).q.futures ==> FlushTier(q, t).q.futures[id] != Cancelled
    decreases |q.queues.Get(t)|
  {
    if q.queues.Get(t) != [] && IsPending(q.futures, q.queues.Get(t)[0].id) {
      FlushKeepsUncancelled(FlushOne(q, t), t);
    }
  }

  lemma {:induction false} FlushesKeepUncancelled(q: QState, tiers: seq<Tier>)
    requires forall id :: id in q.futures ==> q.futures[id] != Cancelled
    ensures forall id :: id in FlushTiers(q, tiers).q.futures ==> FlushTiers(q, tiers).q.futures[id] != Cancelled
    decreases |tiers|
  {
    if tiers != [] {
      FlushKeepsUncancelled(q, tiers[0]);
      FlushesKeepUncancelled(FlushTier(q, tiers[0]).q, tiers[1..]);
    }
  }

  predicate NoneCrashed(ws: seq<Phase>) {
    forall w :: 0 <= w < |ws| ==> !ws[w].Crashed?
  }

  lemma RunKeepsUncancelled(cfg: Config, s: State, w: nat, now: real)
    requires Uncancelled(s) && Enabled(cfg, s, RunWorker(w, now))
    requires NextTier(s.q.queues).Some? ==>
               IsPending(s.q.futures, s.q.queues.Get(NextTier(s.q.queues).value)[0].id)
    ensures Uncancelled(RunStep(cfg, s, w, now))
  {
    if NextTier(s.q.queues).Some? && !(s.workers[w].Ready? && !s.q.hasItems) {
      RunShape(cfg, s, w, now);
    }
  }

  lemma MoveKeepsNoneCrashed(ws: seq<Phase>, w: nat, p: Phase, woken: Option<nat>)
    requires NoneCrashed(ws) && w < |ws| && !p.Crashed?
    ensures NoneCrashed(ws[w := p]) && NoneCrashed(Grant(ws[w := p], woken))
  {
  }

  lemma FinishKeepsUncancelled(s: State, w: nat, ok: bool)
    requires Uncancelled(s) && w < |s.workers| && s.workers[w].Upstream?
    ensures Uncancelled(FinishStep(s, w, ok))
  {
    var item := s.workers[w].item;
    if Known(s, item.client) {
      var c := s.clients[item.client.value];
      MoveKeepsNoneCrashed(s.workers, w, Ready, Awakened(c, ReleaseClient(c)));
    }
  }

  lemma StepKeepsUncancelled(cfg: Config, s: State, e: Step)
    requires Inv(cfg, s) && Uncancelled(s) && Enabled(cfg, s, e) && !e.CancelFuture?
    ensures Uncancelled(Next(cfg, s, e))
  {
    hide Inv, RunStep, FinishStep, FlushTiers;
    match e
    case RunWorker(w, now) =>
      if NextTier(s.q.queues).Some? {
        HeadIsPending(cfg, s, NextTier(s.q.queues).value);
      }
      RunKeepsUncancelled(cfg, s, w, now);
    case ResumeWorker(w) =>
      var c := s.clients[s.workers[w].item.client.value];
      MoveKeepsNoneCrashed(s.workers, w, Upstream(s.workers[w].item), Awakened(c, ResumeWaiter(c)));
    case UpstreamReturns(w, ok) => FinishKeepsUncancelled(s, w, ok);
    case FlushCall(which) => FlushesKeepUncancelled(s.q, TiersOf(which));
    case _ =>
  }

  /** As long as no waiting request is cancelled, no worker ever dies, so by
      StuckIffAllWorkersCrashed the scheduler cannot deadlock. */
  lemma {:induction false} NoCancellationNoCrash(cfg: Config, s: State, steps: seq<Step>)
    requires Inv(cfg, s) && Uncancelled(s) && ValidRun(cfg, s, steps)
    requires forall e :: e in steps ==> !e.CancelFuture?
    ensures Uncancelled(RunFrom(cfg, s, steps))
    decreases |steps|
  {
    if steps != [] {
      StepKeepsUncancelled(cfg, s, steps[0]);
      StepKeepsInv(cfg, s, steps[0]);
      NoCancellationNoCrash(cfg, Next(cfg, s, steps[0]), steps[1..]);
    }
  }

  /** From the start: whatever arrives, is flushed, paused or resumed, and in whatever order
      the workers run, somebody who waits always has somebody who can move. */
  lemma UncancelledRunsNeverStick(cfg: Config, steps: seq<Step>)
    requires cfg.workers > 0 && ValidRun(cfg, Init(cfg), steps)
    requires forall e :: e in steps ==> !e.CancelFuture?
    ensures var s := RunFrom(cfg, Init(cfg), steps);
            SomebodyWaits(s) ==> exists e :: Internal(e) && Enabled(cfg, s, e)
  {
    var s := RunFrom(cfg, Init(cfg), steps);
    InitInv(cfg);
    NoCancellationNoCrash(cfg, Init(cfg), steps);
    assert Reachable(cfg, s);
    ReachableInv(cfg, s);
    StuckIffAllWorkersCrashed(cfg, s);
    assert !s.workers[0].Crashed?;
    assert !(SomebodyWaits(s) && Quiescent(cfg, s));
  }

  // ---- draining ------------------------------------------------------------

  function Weight(p: Phase): nat {
    match p
    case CapWait(_) => 5
    case Granted(_) => 4
    case Upstream(_) => 3
    case Woken => 2
    case Ready => 1
    case Parked => 0
    case Crashed => 0
  }

  function WorkerWork(ws: seq<Phase>): nat {
    5 * Count(ws, KWaits) + 4 * Count(ws, KGranted) + 3 * Count(ws, KUpstream)
    + 2 * Count(ws, KWoken) + Count(ws, KReady)
  }

  /** Work left: each internal step strictly lowers it. */
  function Measure(s: State): nat {
    6 * Waiting(s.q) + WorkerWork(s.workers) + Bit(s.q.hasItems)
  }

  lemma WorkUpdate(ws: seq<Phase>, w: nat, p: Phase)
    requires w < |ws|
    ensures WorkerWork(ws[w := p]) == WorkerWork(ws) - Weight(ws[w]) + Weight(p)
  {
    CountUpdates(ws, w, p);
  }

  lemma GrantLowersWork(ws: seq<Phase>, woken: Option<nat>)
    ensures WorkerWork(Grant(ws, woken)) <= WorkerWork(ws)
  {
    if woken.Some? && woken.value < |ws| && ws[woken.value].CapWait? {
      WorkUpdate(ws, woken.value, Granted(ws[woken.value].item));
    }
  }

  lemma RunLowersMeasure(cfg: Config, s: State, w: nat, now: real)
    requires Enabled(cfg, s, RunWorker(w, now))
    requires s.workers[w].Woken? || s.q.hasItems || AllEmpty(s.q.queues)
    ensures Measure(RunStep(cfg, s, w, now)) < Measure(s)
  {
    if (s.workers[w].Ready? && !s.q.hasItems) || NextTier(s.q.queues) == None {
      hide WorkerWork, Count;
      WorkUpdate(s.workers, w, if s.workers[w].Ready? && !s.q.hasItems then Parked else Ready);
    } else {
      hide RunStep, WorkerWork, Count;
      var s2 := RunStep(cfg, s, w, now);
      RunShape(cfg, s, w, now);
      WorkUpdate(s.workers, w, s2.workers[w]);
      PopFacts(s.q, NextTier(s.q.queues).value);
      assert Waiting(s2.q) == Waiting(Pop(s.q, NextTier(s.q.queues).value));
    }
  }

  lemma ResumeLowersMeasure(s: State, w: nat)
    requires w < |s.workers| && s.workers[w].Granted?
    requires Known(s, s.workers[w].item.client) && s.clients[s.workers[w].item.client.value].granted > 0
    ensures Measure(ResumeStep(s, w)) < Measure(s)
  {
    var id := s.workers[w].item.client.value;
    WorkUpdate(s.workers, w, Upstream(s.workers[w].item));
    GrantLowersWork(s.workers[w := Upstream(s.workers[w].item)], Awakened(s.clients[id], ResumeWaiter(s.clients[id])));
  }

  lemma FinishLowersMeasure(s: State, w: nat, ok: bool)
    requires w < |s.workers| && s.workers[w].Upstream?
    ensures Measure(FinishStep(s, w, ok)) < Measure(s)
  {
    var item := s.workers[w].item;
    WorkUpdate(s.workers, w, Ready);
    if Known(s, item.client) {
      var c := s.clients[item.client.value];
      GrantLowersWork(s.workers[w := Ready], Awakened(c, ReleaseClient(c)));
    }
  }

  lemma InternalStepLowersMeasure(cfg: Config, s: State, e: Step)
    requires WakeInv(s.q, s.workers) && Internal(e) && Enabled(cfg, s, e)
    ensures Measure(Next(cfg, s, e)) < Measure(s)
  {
    match e
    case RunWorker(w, now) => RunLowersMeasure(cfg, s, w, now);
    case ResumeWorker(w) => ResumeLowersMeasure(s, w);
    case UpstreamReturns(w, ok) => FinishLowersMeasure(s, w, ok);
  }

  /** With no request from outside, every run of the proxy ends, within a bound that is linear
      in the waiting items and the workers. */
  lemma {:induction false} DrainTerminates(cfg: Config, s: State, steps: seq<Step>)
    requires Inv(cfg, s) && ValidRun(cfg, s, steps)
    requires forall e :: e in steps ==> Internal(e)
    ensures |steps| + Measure(RunFrom(cfg, s, steps)) <= Measure(s) <= 6 * Waiting(s.q) + 5 * cfg.workers + 1
    decreases |steps|
  {
    WorkBound(s.workers);
    if steps != [] {
      InternalStepLowersMeasure(cfg, s, steps[0]);
      StepKeepsInv(cfg, s, steps[0]);
      DrainTerminates(cfg, Next(cfg, s, steps[0]), steps[1..]);
    }
  }

  lemma {:induction false} WorkBound(ws: seq<Phase>)
    ensures WorkerWork(ws) <= 5 * |ws|
  {
    if ws != [] {
      WorkBound(ws[1..]);
    }
  }

  /** Where such a run can end: unless every worker has died, nothing waits, no worker holds
      an item, and no request that was ever admitted is left without an answer. */
  lemma DrainedAtTheEnd(cfg: Config, s: State, w: nat)
    requires Reachable(cfg, s) && Quiescent(cfg, s)
    requires w < |s.workers| && !s.workers[w].Crashed?
    ensures AllEmpty(s.q.queues) && Count(s.workers, KBusy) == 0
    ensures forall t: Tier, item :: item in s.q.hist.admitted.Get(t) ==>
              item.id in s.q.futures && !IsPending(s.q.futures, item.id)
  {
    hide ClientsInv, CountersInv, BytesInv, Reachable;
    ReachableInv(cfg, s);
    StuckIffAllWorkersCrashed(cfg, s);
    assert AllEmpty(s.q.queues);
    forall v | 0 <= v < |s.workers| ensures !s.workers[v].Busy() {
      assert Internal(ResumeWorker(v)) && Internal(UpstreamReturns(v, true));
      if s.workers[v].Granted? {
        GrantedCanResume(cfg, s, v);
      }
    }
    forall k: Kind | k == KBusy || k.KHolds? ensures Count(s.workers, k) == 0 {
      CountNone(s.workers, k);
    }
    forall t: Tier, item | item in s.q.hist.admitted.Get(t)
      ensures item.id in s.q.futures && !IsPending(s.q.futures, item.id)
    {
      assert PlaceOk(s.q.queues, s.workers, s.q.futures, item.id);
    }
  }

  /** From every reachable state the proxy, left alone, can finish all its work. */
  lemma {:induction false} DrainExists(cfg: Config, s: State) returns (steps: seq<Step>)
    requires Inv(cfg, s)
    ensures ValidRun(cfg, s, steps) && Quiescent(cfg, RunFrom(cfg, s, steps))
    ensures forall e :: e in steps ==> Internal(e)
    decreases Measure(s)
  {
    if Quiescent(cfg, s) {
      steps := [];
    } else {
      var e :| Internal(e) && Enabled(cfg, s, e);
      InternalStepLowersMeasure(cfg, s, e);
      StepKeepsInv(cfg, s, e);
      var rest := DrainExists(cfg, Next(cfg, s, e));
      steps := [e] + rest;
      assert steps[1..] == rest;
    }
  }

  /** Draining, in one statement: every uninterrupted run is bounded, and one that can go no
      further with a worker alive has answered every request ever admitted. */
  lemma DrainAnswersEverybody(cfg: Config, s: State, steps: seq<Step>, w: nat)
    requires Reachable(cfg, s) && ValidRun(cfg, s, steps)
    requires forall e :: e in steps ==> Internal(e)
    ensures |steps| <= 6 * Waiting(s.q) + 5 * cfg.workers + 1
    ensures var s2 := RunFrom(cfg, s, steps);
            Quiescent(cfg, s2) && w < |s2.workers| && !s2.workers[w].Crashed? ==>
              && AllEmpty(s2.q.queues) && Count(s2.workers, KBusy) == 0
              && forall t: Tier, item :: item in s2.q.hist.admitted.Get(t) ==>
                   item.id in s2.q.futures && !IsPending(s2.q.futures, item.id)
  {
    ReachableInv(cfg, s);
    DrainTerminates(cfg, s, steps);
    var s2 := RunFrom(cfg, s, steps);
    if Quiescent(cfg, s2) && w < |s2.workers| && !s2.workers[w].Crashed? {
      ReachableExtends(cfg, s, steps);
      DrainedAtTheEnd(cfg, s2, w);
    }
  }
}
