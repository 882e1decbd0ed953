/** Where the scheduler does less than its comments and its documentation say: for each claim
    a concrete run that breaks it, and the exact condition under which it holds. */
module SchedulerLimits {
  import opened Common
  import opened Queue
  import opened Concurrency
  import opened Scheduler
  import opened SchedulerInvariant
  import opened SchedulerTheorems
  import opened SchedulerCaps
  import opened SchedulerFlush

  // ---- "a capped client never blocks another client" ------------------------

  /** Two batch requests arrive. */
  lemma BatchArrives(cfg: Config, b1: Item, b2: Item) returns (s: State)
    requires cfg == Config(2, Each(10), Each(100), 1000, map["batch" := 1])
    requires b1 == Item(0, Normal, 0.0, 1, Some("batch"), 0) && b2 == Item(1, Normal, 0.0, 1, Some("batch"), 0)
    ensures Reachable(cfg, s)
    ensures s.q.queues.high == [] && s.q.queues.normal == [b1, b2] && s.q.queues.low == [] && s.workers == [Ready, Ready] && s.q.bytes == 2
    ensures s.q.slots == 2 && s.q.hasItems && s.q.paused == {} && s.q.futures == map[0 := Pending, 1 := Pending]
    ensures s.clients == map["batch" := Client(1, 1, [], 0, 0, 0)] && s.bypasses == map["batch" := 0]
  {
    hide Reachable, ValidRun, RunFrom, FlushTiers;
    var s0 := Init(cfg);
    assert s0.workers == [Ready, Ready];
    InitReachable(cfg);
    ReachableStep(cfg, s0, Arrive(b1));
    var s1 := Next(cfg, s0, Arrive(b1));
    assert s1.q.queues.high == [] && s1.q.queues.normal == [b1] && s1.q.queues.low == [] && s1.workers == [Ready, Ready] && s1.q.bytes == 1;
    ReachableStep(cfg, s1, Arrive(b2));
    s := Next(cfg, s1, Arrive(b2));
  }

  /** Two workers pick them up. */
  lemma BatchTakesBothWorkers(cfg: Config, b1: Item, b2: Item) returns (s4: State)
    requires cfg == Config(2, Each(10), Each(100), 1000, map["batch" := 1])
    requires b1 == Item(0, Normal, 0.0, 1, Some("batch"), 0) && b2 == Item(1, Normal, 0.0, 1, Some("batch"), 0)
    ensures Reachable(cfg, s4)
    ensures s4.workers == [Upstream(b1), CapWait(b2)] && s4.q.paused == {} && s4.q.bytes == 0
    ensures s4.q.queues.high == [] && s4.q.queues.normal == [] && s4.q.queues.low == [] && 2 !in s4.q.futures
  {
    hide Reachable, ValidRun, RunFrom, FlushTiers;
    var s2 := BatchArrives(cfg, b1, b2);
    var s3 := Next(cfg, s2, RunWorker(0, 0.0));
    ReachableStep(cfg, s2, RunWorker(0, 0.0));
    assert s3.workers == [Upstream(b1), Ready] && s3.clients == map["batch" := Client(1, 0, [], 0, 1, 0)];
    assert s3.q.queues.high == [] && s3.q.queues.normal == [b2] && s3.q.queues.low == [] && s3.q.slots == 1 && s3.q.futures == s2.q.futures;
    assert s3.q.hasItems && s3.q.bytes == 1 && s3.q.paused == {} && s3.bypasses == map["batch" := 0];
    s4 := SecondWorkerBlocks(cfg, s3, b1, b2);
  }

  lemma SecondWorkerBlocks(cfg: Config, s3: State, b1: Item, b2: Item) returns (s4: State)
    requires Reachable(cfg, s3) && cfg.maxWait == Each(100)
    requires b2 == Item(1, Normal, 0.0, 1, Some("batch"), 0)
    requires s3.workers == [Upstream(b1), Ready] && s3.clients == map["batch" := Client(1, 0, [], 0, 1, 0)]
    requires s3.q.queues.high == [] && s3.q.queues.normal == [b2] && s3.q.queues.low == [] && s3.q.slots == 1 && 2 !in s3.q.futures
    requires s3.q.hasItems && s3.q.bytes == 1 && s3.q.paused == {} && s3.bypasses == map["batch" := 0]
    ensures Reachable(cfg, s4)
    ensures s4.workers == [Upstream(b1), CapWait(b2)] && s4.q.paused == {} && s4.q.bytes == 0
    ensures s4.q.queues.high == [] && s4.q.queues.normal == [] && s4.q.queues.low == [] && 2 !in s4.q.futures
  {
    hide Reachable, ValidRun, RunFrom, FlushTiers;
    ReachableStep(cfg, s3, RunWorker(1, 0.0));
    s4 := Next(cfg, s3, RunWorker(1, 0.0));
  }

  /** With two workers and a cap of one on "batch", two batch requests hold both workers, one
      of them in the semaphore: a high-priority request of another client then waits although
      only one upstream call is under way. */
  lemma CappedClientBlocksAnother() returns (cfg: Config, s: State)
    ensures Reachable(cfg, s)
    ensures cfg.workers == 2 && cfg.caps == map["batch" := 1]
    ensures |s.q.queues.high| == 1 && s.q.queues.high[0].client == Some("interactive")
    ensures Count(s.workers, KUpstream) == 1 && NoTurnPossible(cfg, s)
  {
    hide Reachable, ValidRun, RunFrom, FlushTiers;
    cfg := Config(2, Each(10), Each(100), 1000, map["batch" := 1]);
    var b1, b2 := Item(0, Normal, 0.0, 1, Some("batch"), 0), Item(1, Normal, 0.0, 1, Some("batch"), 0);
    var s4 := BatchTakesBothWorkers(cfg, b1, b2);
    var i := Item(2, High, 0.0, 1, Some("interactive"), 0);
    s := Next(cfg, s4, Arrive(i));
    assert s.q.queues.high == [i] && s.workers == [Upstream(b1), CapWait(b2)];
    ReachableStep(cfg, s4, Arrive(i));
    assert s.workers[1..] == [CapWait(b2)] && Count([CapWait(b2)], KUpstream) == 0;
  }

  /** A worker that is taken but not upstream: dead, or in the semaphore of a client whose cap is
      below the number of workers. */
  predicate HeldUp(cfg: Config, p: Phase) {
    p.Crashed?
    || ((p.CapWait? || p.Granted?) && p.item.client.Some? && p.item.client.value in cfg.caps
        && 0 < cfg.caps[p.item.client.value] < cfg.workers)
  }

  /** Items wait, no worker can take one, and yet fewer upstream calls than `max_concurrent` are
      under way: exactly when every worker is taken and one of them is held up. */
  lemma BlockedWithSpareCapacityIff(cfg: Config, s: State)
    requires Reachable(cfg, s) && !AllEmpty(s.q.queues)
    ensures NoTurnPossible(cfg, s) && Count(s.workers, KUpstream) < cfg.workers
            <==> && (forall w :: 0 <= w < |s.workers| ==> s.workers[w].Busy() || s.workers[w].Crashed?)
                 && (exists w :: 0 <= w < |s.workers| && HeldUp(cfg, s.workers[w]))
  {
    hide Reachable;
    BoundedConcurrency(cfg, s);
    if NoTurnPossible(cfg, s) {
      forall w | 0 <= w < |s.workers| ensures s.workers[w].Busy() || s.workers[w].Crashed? {
        assert !Enabled(cfg, s, RunWorker(w, 0.0));
        NoLostWakeUp(cfg, s, w);
      }
    }
    if w :| 0 <= w < |s.workers| && !s.workers[w].Upstream? {
      CountBound(s.workers, KUpstream, w);
      if s.workers[w].CapWait? || s.workers[w].Granted? {
        OnlyNarrowCapsMakeWait(cfg, s, w);
      }
      assert s.workers[w].Busy() || s.workers[w].Crashed? ==> HeldUp(cfg, s.workers[w]);
    } else {
      CountAll(s.workers, KUpstream);
    }
  }

  lemma {:induction false} CountAll(ws: seq<Phase>, k: Kind)
    requires forall w :: 0 <= w < |ws| ==> Is(k, ws[w])
    ensures Count(ws, k) == |ws|
  {
    if ws != [] {
      CountAll(ws[1..], k);
    }
  }

  // ---- "bytes are released when an item leaves" ----------------------------

  /** One body of 8 is flushed, one of 1 waits: a body of 5 is then refused under a ceiling
      of 10, although 1 + 5 bytes would wait. */
  lemma FlushLeaksTheCeiling() returns (cfg: Config, s: State, refused: Item)
    ensures Reachable(cfg, s) && refused.id !in s.q.futures
    ensures EnqueueOutcomeOf(cfg, s.q, refused).OverCapacity?
    ensures WaitingBytes(s.q) + refused.nbytes < cfg.maxBytes
  {
    hide Reachable, ValidRun, RunFrom;
    cfg := Config(1, Each(10), Each(100), 10, map[]);
    var a, b := Item(0, Low, 0.0, 8, None, 0), Item(1, Low, 0.0, 1, None, 0);
    refused := Item(2, Low, 0.0, 5, None, 0);
    var s1 := Next(cfg, Init(cfg), Arrive(a));
    assert s1.q.queues.low == [a] && s1.q.bytes == 8;
    assert FlushTier(s1.q, Low) == FlushResult(FlushOne(s1.q, Low), 1, false) by {
      assert FlushTier(FlushOne(s1.q, Low), Low) == FlushResult(FlushOne(s1.q, Low), 0, false);
    }
    assert [Low][1..] == [];
    var s2 := Next(cfg, s1, FlushCall(Some(Low)));
    assert s2.q == FlushOne(s1.q, Low) && s2.q.queues.low == [] && s2.q.bytes == 8;
    s := Next(cfg, s2, Arrive(b));
    assert s.q.queues.low == [b] && s.q.bytes == 9 && Bytes([b]) == 1;
    InitReachable(cfg);
    ReachableStep(cfg, Init(cfg), Arrive(a));
    ReachableStep(cfg, s1, FlushCall(Some(Low)));
    ReachableStep(cfg, s2, Arrive(b));
  }

  // ---- cancelled futures ---------------------------------------------------

  /** A request arrives at an idle one-worker proxy and is cancelled. */
  lemma CancelledWaits(cfg: Config, a: Item) returns (s: State)
    requires cfg == Config(1, Each(10), Each(100), 10, map[]) && a == Item(0, Low, 0.0, 1, None, 0)
    ensures Reachable(cfg, s)
    ensures s.q.queues.high == [] && s.q.queues.normal == [] && s.q.queues.low == [a]
    ensures s.q.bytes == 1 && s.q.hasItems && s.q.active == 0 && s.q.slots == 1
    ensures s.q.paused == {} && s.q.futures == map[0 := Cancelled]
    ensures s.workers == [Ready] && s.clients == map[]
  {
    hide Reachable, ValidRun, RunFrom, FlushTiers;
    var s1 := Next(cfg, Init(cfg), Arrive(a));
    InitReachable(cfg);
    ReachableStep(cfg, Init(cfg), Arrive(a));
    assert s1.q.queues.low == [a] && s1.workers == [Ready];
    s := Next(cfg, s1, CancelFuture(0));
    ReachableStep(cfg, s1, CancelFuture(0));
  }

  /** The same cancelled request breaks off a flush of its tier, and of all tiers. */
  lemma CancelledFlushRaises(which: Option<Tier>) returns (cfg: Config, s: State)
    requires which == None || which == Some(Low)
    ensures Reachable(cfg, s) && FlushTiers(s.q, TiersOf(which)).raised
  {
    cfg := Config(1, Each(10), Each(100), 10, map[]);
    var a := Item(0, Low, 0.0, 1, None, 0);
    s := CancelledWaits(cfg, a);
    hide Reachable, FlushTiers;
    FlushCompletesIff(cfg, s, which);
    assert a in s.q.queues.Get(Low) && Low in TiersOf(which);
  }

  /** The first `k` workers are dead, the others are ready, nothing waits. */
  ghost predicate Killed(cfg: Config, s: State, k: nat) {
    && Reachable(cfg, s) && AllEmpty(s.q.queues) && s.q.paused == {}
    && |s.workers| == cfg.workers && k <= cfg.workers
    && (forall w :: 0 <= w < k ==> s.workers[w].Crashed?)
    && (forall w :: k <= w < cfg.workers ==> s.workers[w].Ready?)
    && (forall x :: x in s.q.futures ==> x < k)
  }

  /** A request arrives, is cancelled while it waits, and is taken over age. */
  lemma KillOneMore(cfg: Config, s: State, k: nat) returns (s3: State)
    requires Killed(cfg, s, k) && k < cfg.workers
    ensures Killed(cfg, s3, k + 1)
  {
    var item := Item(k, High, 0.0, 0, None, 0);
    var now := cfg.maxWait.high as real + 1.0;
    var s2 := ArrivesAndCancels(cfg, s, item);
    hide Reachable, Next, Enabled, Count;
    BoundedConcurrency(cfg, s2);
    s3 := Next(cfg, s2, RunWorker(k, now));
    ReachableStep(cfg, s2, RunWorker(k, now));
    KilledAtOnce(cfg, s2, item, k, now, s3);
  }

  lemma ArrivesAndCancels(cfg: Config, s: State, item: Item) returns (s2: State)
    requires Reachable(cfg, s) && AllEmpty(s.q.queues) && s.q.paused == {} && item.tier == High && item.id !in s.q.futures
    ensures Reachable(cfg, s2)
    ensures s2.q.queues.high == [item] && s2.q.queues.normal == [] && s2.q.queues.low == []
    ensures s2.q.hasItems && s2.q.paused == {} && s2.q.futures == s.q.futures[item.id := Cancelled]
    ensures |s2.workers| == |s.workers|
    ensures forall w :: 0 <= w < |s.workers| && !s.workers[w].Parked? ==> s2.workers[w] == s.workers[w]
  {
    hide Reachable, ArriveStep;
    var s1 := Next(cfg, s, Arrive(item));
    ReachableStep(cfg, s, Arrive(item));
    ArrivesAlone(cfg, s, item);
    s2 := Next(cfg, s1, CancelFuture(item.id));
    ReachableStep(cfg, s1, CancelFuture(item.id));
  }

  lemma KilledAtOnce(cfg: Config, s: State, item: Item, w: nat, now: real, s2: State)
    requires s.q.queues.high == [item] && s.q.queues.normal == [] && s.q.queues.low == [] && item.tier == High
    requires s.q.hasItems && s.q.paused == {} && item.enqueued == 0.0 && now > cfg.maxWait.high as real
    requires !IsPending(s.q.futures, item.id)
    requires Enabled(cfg, s, RunWorker(w, now)) && s.workers[w].Ready? && s2 == Next(cfg, s, RunWorker(w, now))
    ensures AllEmpty(s2.q.queues) && s2.q.paused == {} && s2.q.futures == s.q.futures
    ensures |s2.workers| == |s.workers| && s2.workers[w].Crashed?
    ensures forall v :: 0 <= v < |s.workers| && v != w ==> s2.workers[v] == s.workers[v]
  {
    RunShape(cfg, s, w, now);
    hide RunStep;
    assert TooOld(cfg, item, now);
  }

  lemma {:induction false} KillPool(cfg: Config, k: nat) returns (s: State)
    requires k <= cfg.workers
    ensures Killed(cfg, s, k)
    decreases k
  {
    if k == 0 {
      s := Init(cfg);
      InitReachable(cfg);
    } else {
      s := KillPool(cfg, k - 1);
      s := KillOneMore(cfg, s, k - 1);
    }
  }

  /** A request cancelled while it waits and then found over age kills its worker. Every
      configuration has a run in which that happens to all workers: the next request then waits
      for ever, and `_active` shows every worker busy though none is. */
  lemma CancelledExpiryStopsTheProxy(cfg: Config) returns (s: State)
    ensures Reachable(cfg, s) && SomebodyWaits(s) && Quiescent(cfg, s)
    ensures s.q.active == cfg.workers && Count(s.workers, KBusy) == 0
  {
    var dead := KillPool(cfg, cfg.workers);
    var next := Item(cfg.workers, High, 0.0, 0, None, 0);
    assert Enabled(cfg, dead, Arrive(next));
    hide Reachable, ArriveStep;
    s := Next(cfg, dead, Arrive(next));
    ReachableStep(cfg, dead, Arrive(next));
    ArrivesAlone(cfg, dead, next);
    hide Next, Enabled;
    assert forall w :: 0 <= w < |s.workers| ==> s.workers[w].Crashed?;
    StuckIffAllWorkersCrashed(cfg, s);
    BoundedConcurrency(cfg, s);
    CountAll(s.workers, KCrashed);
    BusyAndCrashed(s.workers);
  }
}
