/** Which per-client caps let a client hold up the requests of others: the exact condition on the
    configuration. */
module SchedulerCaps {
  import opened Common
  import opened Queue
  import opened Concurrency
  import opened Scheduler
  import opened SchedulerInvariant
  import opened SchedulerTheorems
  import opened SchedulerHistory

  /** Does a worker in this phase sit in the semaphore of client `id`? */
  predicate SitsIn(p: Phase, id: string) {
    (p.CapWait? || p.Granted?) && p.item.client == Some(id)
  }

  predicate NobodySits(ws: seq<Phase>, id: string) {
    forall w :: 0 <= w < |ws| ==> !SitsIn(ws[w], id)
  }

  // ---- a cap as large as the pool never makes anybody wait ------------------

  lemma {:induction false} BusyBounds(ws: seq<Phase>, id: string)
    ensures Count(ws, KUpstreamFor(id)) <= Count(ws, KBusy)
  {
    if ws != [] {
      BusyBounds(ws[1..], id);
    }
  }

  lemma NobodyCounts(ws: seq<Phase>, id: string)
    requires NobodySits(ws, id)
    ensures Count(ws, KGrantedFor(id)) == 0 && Count(ws, KWaitsFor(id)) == 0
  {
    forall w | 0 <= w < |ws| ensures !Is(KGrantedFor(id), ws[w]) && !Is(KWaitsFor(id), ws[w]) {
      assert !SitsIn(ws[w], id);
    }
    CountNone(ws, KGrantedFor(id));
    CountNone(ws, KWaitsFor(id));
  }

  /** While nobody sits in the semaphore and a worker is free, a permit is left. */
  lemma WideCapAdmits(ws: seq<Phase>, w: nat, id: string, c: Client, bypasses: nat, reentries: nat)
    requires Books(ws, id, c, bypasses) && NobodySits(ws, id)
    requires w < |ws| && !ws[w].Busy() && c.cap >= |ws|
    ensures !Blocks(c, reentries)
  {
    NobodyCounts(ws, id);
    BusyBounds(ws, id);
    CountBound(ws, KBusy, w);
  }

  lemma MoveKeepsNobody(ws: seq<Phase>, w: nat, p: Phase, woken: Option<nat>, id: string)
    requires NobodySits(ws, id) && w < |ws| && !SitsIn(p, id)
    ensures NobodySits(ws[w := p], id) && NobodySits(Grant(ws[w := p], woken), id)
  {
  }

  lemma DispatchKeepsNobody(cfg: Config, s: State, w: nat, item: Item, id: string)
    requires ClientsInv(cfg, s.workers, s.clients, s.bypasses) && |s.workers| == cfg.workers
    requires w < |s.workers| && !s.workers[w].Busy()
    requires id in cfg.caps && (cfg.caps[id] == 0 || cfg.caps[id] >= cfg.workers)
    requires NobodySits(s.workers, id)
    ensures NobodySits(StartDispatch(s, w, item).workers, id)
  {
    var s2 := StartDispatch(s, w, item);
    assert s2.workers == s.workers[w := s2.workers[w]];
    if Known(s, item.client) && item.client.value == id {
      assert Books(s.workers, id, s.clients[id], s.bypasses[id]);
      if cfg.caps[id] > 0 {
        WideCapAdmits(s.workers, w, id, s.clients[id], s.bypasses[id], item.reentries);
      }
    }
    hide *;
    MoveKeepsNobody(s.workers, w, s2.workers[w], None, id);
  }

  lemma TurnKeepsNobody(cfg: Config, s: State, w: nat, now: real, id: string)
    requires Inv(cfg, s) && Enabled(cfg, s, RunWorker(w, now))
    requires id in cfg.caps && (cfg.caps[id] == 0 || cfg.caps[id] >= cfg.workers)
    requires NobodySits(s.workers, id)
    ensures NobodySits(RunStep(cfg, s, w, now).workers, id)
  {
    hide ClientsInv, HistoryInv, PlacesInv, CountersInv, BytesInv, WakeInv, SemaphoresInv;
    if (s.workers[w].Ready? && !s.q.hasItems) || NextTier(s.q.queues) == None {
      MoveKeepsNobody(s.workers, w, if s.workers[w].Ready? && !s.q.hasItems then Parked else Ready, None, id);
    } else {
      RunShape(cfg, s, w, now);
      hide RunStep;
      var s2 := RunStep(cfg, s, w, now);
      if s2.workers[w].Busy() {
        DispatchKeepsNobody(cfg, s.(q := s2.q), w, Take(s.q).1.value, id);
      } else {
        MoveKeepsNobody(s.workers, w, s2.workers[w], None, id);
      }
    }
  }

  lemma StepKeepsNobody(cfg: Config, s: State, e: Step, id: string)
    requires Inv(cfg, s) && Enabled(cfg, s, e) && NobodySits(s.workers, id)
    requires id in cfg.caps && (cfg.caps[id] == 0 || cfg.caps[id] >= cfg.workers)
    ensures NobodySits(Next(cfg, s, e).workers, id)
  {
    hide Inv, RunStep, FlushTiers, Awakened, ResumeWaiter, ReleaseClient;
    match e
    case RunWorker(w, now) => TurnKeepsNobody(cfg, s, w, now, id);
    case ResumeWorker(w) =>
      var c := s.clients[s.workers[w].item.client.value];
      MoveKeepsNobody(s.workers, w, Upstream(s.workers[w].item), Awakened(c, ResumeWaiter(c)), id);
    case UpstreamReturns(w, _) =>
      var item := s.workers[w].item;
      if Known(s, item.client) {
        var c := s.clients[item.client.value];
        MoveKeepsNobody(s.workers, w, Ready, Awakened(c, ReleaseClient(c)), id);
      } else {
        MoveKeepsNobody(s.workers, w, Ready, None, id);
      }
    case _ =>
  }

  lemma {:induction false} RunKeepsNobody(cfg: Config, s: State, steps: seq<Step>, id: string)
    requires Inv(cfg, s) && ValidRun(cfg, s, steps) && NobodySits(s.workers, id)
    requires id in cfg.caps && (cfg.caps[id] == 0 || cfg.caps[id] >= cfg.workers)
    ensures NobodySits(RunFrom(cfg, s, steps).workers, id)
    decreases |steps|
  {
    if steps != [] {
      StepKeepsNobody(cfg, s, steps[0], id);
      StepKeepsInv(cfg, s, steps[0]);
      RunKeepsNobody(cfg, Next(cfg, s, steps[0]), steps[1..], id);
    }
  }

  lemma WideCapSeatsNobody(cfg: Config, s: State, id: string)
    requires Reachable(cfg, s)
    requires id in cfg.caps && (cfg.caps[id] == 0 || cfg.caps[id] >= cfg.workers)
    ensures NobodySits(s.workers, id)
  {
    var steps :| ValidRun(cfg, Init(cfg), steps) && RunFrom(cfg, Init(cfg), steps) == s;
    InitInv(cfg);
    hide Inv, ValidRun, RunFrom;
    RunKeepsNobody(cfg, Init(cfg), steps, id);
  }

  lemma SeatIsCapped(cfg: Config, s: State, w: nat)
    requires SemaphoresInv(cfg, s.workers) && w < |s.workers| && (s.workers[w].CapWait? || s.workers[w].Granted?)
    ensures var client := s.workers[w].item.client;
            client.Some? && client.value in cfg.caps && 0 < cfg.caps[client.value]
  {
    assert InSemaphore(cfg, s.workers[w]);
  }

  /** Whoever sits in a semaphore is of a client whose cap is below the number of workers. */
  lemma OnlyNarrowCapsMakeWait(cfg: Config, s: State, w: nat)
    requires Reachable(cfg, s) && w < |s.workers| && (s.workers[w].CapWait? || s.workers[w].Granted?)
    ensures var client := s.workers[w].item.client;
            client.Some? && client.value in cfg.caps && 0 < cfg.caps[client.value] < cfg.workers
  {
    hide Reachable, ClientsInv, HistoryInv, PlacesInv, CountersInv, BytesInv, WakeInv, SlotsInv;
    ReachableInv(cfg, s);
    SeatIsCapped(cfg, s, w);
    var id := s.workers[w].item.client.value;
    assert SitsIn(s.workers[w], id);
    if cfg.caps[id] >= cfg.workers {
      WideCapSeatsNobody(cfg, s, id);
    }
  }

  // ---- a smaller cap lets its client fill the pool ---------------------------

  /** The first `k` workers hold items of client `id`, the others are ready, nothing waits. */
  ghost predicate Filled(cfg: Config, s: State, id: string, k: nat) {
    && Reachable(cfg, s) && NoBypass(cfg, s)
    && AllEmpty(s.q.queues) && s.q.paused == {}
    && |s.workers| == cfg.workers && k <= cfg.workers
    && (forall w :: 0 <= w < k ==> s.workers[w].Busy() && s.workers[w].item.client == Some(id))
    && (forall w :: 0 <= w < k ==> IsPending(s.q.futures, s.workers[w].item.id))
    && (forall w :: k <= w < cfg.workers ==> s.workers[w].Ready?)
    && (forall x :: x in s.q.futures ==> x < k)
  }

  /** One more request of the client arrives and the next worker takes it, as late as its
      `max_wait` allows. */
  lemma FillOneMore(cfg: Config, s: State, id: string, k: nat) returns (s2: State)
    requires Filled(cfg, s, id, k) && k < cfg.workers
    ensures Filled(cfg, s2, id, k + 1)
  {
    var item := Item(k, High, 0.0, 0, Some(id), 0);
    var s1 := FillArrives(cfg, s, id, k, item);
    s2 := FillTakes(cfg, s1, id, k, item);
  }

  lemma FillArrives(cfg: Config, s: State, id: string, k: nat, item: Item) returns (s1: State)
    requires Filled(cfg, s, id, k) && k < cfg.workers && item == Item(k, High, 0.0, 0, Some(id), 0)
    ensures OneWaits(cfg, s1, id, k, item)
  {
    assert Enabled(cfg, s, Arrive(item));
    hide Reachable, NoBypass, Next, Enabled;
    s1 := Next(cfg, s, Arrive(item));
    KeptByStep(cfg, s, Arrive(item));
    ArrivesAlone(cfg, s, item);
  }

  /** Between the two steps: `item` alone waits, and `k` workers hold items of the client. */
  ghost predicate OneWaits(cfg: Config, s: State, id: string, k: nat, item: Item) {
    && Reachable(cfg, s) && NoBypass(cfg, s)
    && s.q.queues.high == [item] && s.q.queues.normal == [] && s.q.queues.low == []
    && s.q.hasItems && s.q.paused == {} && |s.workers| == cfg.workers && k <= cfg.workers
    && (forall w :: 0 <= w < k ==> s.workers[w].Busy() && s.workers[w].item.client == Some(id))
    && IsPending(s.q.futures, item.id) && (forall w :: 0 <= w < k ==> IsPending(s.q.futures, s.workers[w].item.id))
    && (forall w :: k <= w < cfg.workers ==> s.workers[w].Ready?)
    && (forall x :: x in s.q.futures ==> x < k + 1)
  }

  lemma FillTakes(cfg: Config, s: State, id: string, k: nat, item: Item) returns (s2: State)
    requires OneWaits(cfg, s, id, k, item) && k < cfg.workers && item == Item(k, High, 0.0, 0, Some(id), 0)
    ensures Filled(cfg, s2, id, k + 1)
  {
    var now := cfg.maxWait.high as real;
    hide Reachable, NoBypass, Next, Enabled, Count;
    BoundedConcurrency(cfg, s);
    s2 := Next(cfg, s, RunWorker(k, now));
    KeptByStep(cfg, s, RunWorker(k, now));
    TakenAtOnce(cfg, s, item, k, now, s2);
  }

  lemma KeptByStep(cfg: Config, s: State, e: Step)
    requires Reachable(cfg, s) && NoBypass(cfg, s) && Enabled(cfg, s, e)
    requires e.Arrive? ==> e.item.reentries == 0
    ensures Reachable(cfg, Next(cfg, s, e)) && NoBypass(cfg, Next(cfg, s, e))
  {
    hide Reachable, NoBypass, Next, Enabled;
    ReachableInv(cfg, s);
    ReachableStep(cfg, s, e);
    StepKeepsNoBypass(cfg, s, e);
  }

  lemma ArrivesAlone(cfg: Config, s: State, item: Item)
    requires AllEmpty(s.q.queues) && s.q.paused == {} && item.tier == High && item.id !in s.q.futures
    ensures var s1 := Next(cfg, s, Arrive(item));
            && s1.q.queues.high == [item] && s1.q.queues.normal == [] && s1.q.queues.low == []
            && s1.q.hasItems && s1.q.paused == {} && s1.q.futures == s.q.futures[item.id := Pending]
            && |s1.workers| == |s.workers|
            && forall w :: 0 <= w < |s.workers| && !s.workers[w].Parked? ==> s1.workers[w] == s.workers[w]
  {
  }

  lemma TakenAtOnce(cfg: Config, s: State, item: Item, w: nat, now: real, s2: State)
    requires s.q.queues.high == [item] && s.q.queues.normal == [] && s.q.queues.low == [] && item.tier == High
    requires s.q.hasItems && s.q.paused == {} && item.enqueued == 0.0 && now == cfg.maxWait.high as real
    requires Enabled(cfg, s, RunWorker(w, now)) && s.workers[w].Ready? && s2 == Next(cfg, s, RunWorker(w, now))
    ensures AllEmpty(s2.q.queues) && s2.q.paused == {} && s2.q.futures == s.q.futures
    ensures |s2.workers| == |s.workers| && s2.workers[w].Busy() && s2.workers[w].item == item
    ensures forall v :: 0 <= v < |s.workers| && v != w ==> s2.workers[v] == s.workers[v]
  {
    RunShape(cfg, s, w, now);
    hide RunStep, StartDispatch;
    assert !TooOld(cfg, item, now);
  }

  lemma {:induction false} FillPool(cfg: Config, id: string, k: nat) returns (s: State)
    requires k <= cfg.workers
    ensures Filled(cfg, s, id, k)
    decreases k
  {
    if k == 0 {
      s := Init(cfg);
      InitReachable(cfg);
    } else {
      s := FillPool(cfg, id, k - 1);
      s := FillOneMore(cfg, s, id, k - 1);
    }
  }

  lemma {:induction false} AllOfOneClient(ws: seq<Phase>, id: string)
    requires forall w :: 0 <= w < |ws| ==> ws[w].Busy() && ws[w].item.client == Some(id)
    ensures Count(ws, KUpstreamFor(id)) + Count(ws, KGrantedFor(id)) + Count(ws, KWaitsFor(id)) == |ws|
  {
    if ws != [] {
      AllOfOneClient(ws[1..], id);
    }
  }

  /** A full pool of one client with a smaller cap: somebody waits in its semaphore. */
  lemma FullPoolWaits(cfg: Config, s: State, id: string) returns (w: nat)
    requires Filled(cfg, s, id, cfg.workers) && id in cfg.caps && 0 < cfg.caps[id] < cfg.workers
    ensures w < |s.workers| && s.workers[w].CapWait? && s.workers[w].item.client == Some(id)
  {
    ReachableInv(cfg, s);
    AllOfOneClient(s.workers, id);
    assert Books(s.workers, id, s.clients[id], s.bypasses[id]);
    w := CountWitness(s.workers, KWaitsFor(id));
  }

  // ---- the exact condition --------------------------------------------------

  /** No worker is free to take another item. */
  ghost predicate NoTurnPossible(cfg: Config, s: State) {
    forall w, now :: !Enabled(cfg, s, RunWorker(w, now))
  }

  /** A worker waits for its client's cap while a request of another client is queued and no
      worker is free to take it. */
  ghost predicate CapBlocksAnother(cfg: Config, s: State) {
    && NoTurnPossible(cfg, s)
    && exists w, t: Tier, i :: 0 <= w < |s.workers| && s.workers[w].CapWait? && 0 <= i < |s.q.queues.Get(t)|
                              && s.q.queues.Get(t)[i].client != s.workers[w].item.client
  }

  /** "A capped client never blocks another client" holds of a configuration if and only if every
      cap is unlimited or at least the number of workers. (A negative `max_wait` for the high tier
      needs a clock that is behind the arrival; any other needs none.) */
  lemma CapsNeverBlockOthersIff(cfg: Config)
    ensures (forall s :: Reachable(cfg, s) ==> !CapBlocksAnother(cfg, s))
            <==> forall id :: id in cfg.caps ==> cfg.caps[id] == 0 || cfg.caps[id] >= cfg.workers
  {
    if id :| id in cfg.caps && 0 < cfg.caps[id] < cfg.workers {
      var s := NarrowCapBlocks(cfg, id);
      assert Reachable(cfg, s) && CapBlocksAnother(cfg, s);
    } else {
      forall s | Reachable(cfg, s) ensures !CapBlocksAnother(cfg, s) {
        WideCapsNeverBlock(cfg, s);
      }
    }
  }

  lemma WideCapsNeverBlock(cfg: Config, s: State)
    requires Reachable(cfg, s) && forall id :: id in cfg.caps ==> cfg.caps[id] == 0 || cfg.caps[id] >= cfg.workers
    ensures !CapBlocksAnother(cfg, s)
  {
    if CapBlocksAnother(cfg, s) {
      var w, t: Tier, i :| 0 <= w < |s.workers| && s.workers[w].CapWait? && 0 <= i < |s.q.queues.Get(t)|
                           && s.q.queues.Get(t)[i].client != s.workers[w].item.client;
      OnlyNarrowCapsMakeWait(cfg, s, w);
    }
  }

  lemma NarrowCapBlocks(cfg: Config, id: string) returns (s: State)
    requires id in cfg.caps && 0 < cfg.caps[id] < cfg.workers
    ensures Reachable(cfg, s) && CapBlocksAnother(cfg, s)
  {
    var full := FillPool(cfg, id, cfg.workers);
    var w := FullPoolWaits(cfg, full, id);
    var other := Item(cfg.workers, High, 0.0, 0, Some(id + "*"), 0);
    assert |id + "*"| > |id|;
    s := Next(cfg, full, Arrive(other));
    ReachableStep(cfg, full, Arrive(other));
    ArrivesAlone(cfg, full, other);
    hide Reachable, Next;
    assert s.q.queues.Get(High)[0].client != s.workers[w].item.client;
    assert forall v, now :: !Enabled(cfg, s, RunWorker(v, now));
  }
}
