/** What holds when `drain` returns, which it does as soon as it finds all tiers empty. */
module SchedulerDrain {
  import opened Queue
  import opened Scheduler
  import opened SchedulerInvariant
  import opened SchedulerCaps

  /** Does a worker hold the item `id`? */
  ghost predicate Held(ws: seq<Phase>, id: nat) {
    exists w :: 0 <= w < |ws| && Is(KHolds(id), ws[w])
  }

  lemma HeldIsCounted(ws: seq<Phase>, id: nat)
    ensures Held(ws, id) <==> Count(ws, KHolds(id)) > 0
  {
    if w :| 0 <= w < |ws| && Is(KHolds(id), ws[w]) {
      CountBound(ws, KHolds(id), w);
    }
    if Count(ws, KHolds(id)) > 0 {
      var w := CountWitness(ws, KHolds(id));
    }
  }

  /** When `drain` returns, the requests without an answer are exactly those that a worker holds and
      that were not cancelled. */
  lemma DrainLeavesTheHeld(cfg: Config, s: State, id: nat)
    requires Reachable(cfg, s) && AllEmpty(s.q.queues)
    ensures IsPending(s.q.futures, id) <==> Held(s.workers, id) && id in s.q.futures && s.q.futures[id] != Cancelled
  {
    ReachableInv(cfg, s);
    hide Reachable, SlotsInv, WakeInv, SemaphoresInv, ClientsInv, BytesInv, HistoryInv, CountersInv;
    assert PlaceOk(s.q.queues, s.workers, s.q.futures, id);
    HeldIsCounted(s.workers, id);
    hide Count;
  }

  /** Everybody is answered when `drain` returns if and only if no worker holds a request that was
      not cancelled. */
  lemma DrainAnswersAllIff(cfg: Config, s: State)
    requires Reachable(cfg, s) && AllEmpty(s.q.queues)
    ensures (forall id :: id in s.q.futures ==> !IsPending(s.q.futures, id))
            <==> forall w :: 0 <= w < |s.workers| && s.workers[w].Busy() ==> !IsPending(s.q.futures, s.workers[w].item.id)
  {
    forall id | id in s.q.futures
      ensures IsPending(s.q.futures, id) ==> exists w :: 0 <= w < |s.workers| && s.workers[w].Busy() && s.workers[w].item.id == id
    {
      DrainLeavesTheHeld(cfg, s, id);
      hide Reachable;
      if IsPending(s.q.futures, id) {
        var w :| 0 <= w < |s.workers| && Is(KHolds(id), s.workers[w]);
        assert s.workers[w].Busy() && s.workers[w].item.id == id;
      }
    }
  }

  /** For every configuration and every number up to its workers: `drain` can return while so many
      requests are in flight and without an answer. */
  lemma DrainReturnsEarly(cfg: Config, k: nat) returns (s: State)
    requires k <= cfg.workers
    ensures Reachable(cfg, s) && AllEmpty(s.q.queues) && |s.workers| == cfg.workers
    ensures forall w :: 0 <= w < k ==> s.workers[w].Busy() && IsPending(s.q.futures, s.workers[w].item.id)
    ensures Count(s.workers, KBusy) == k
  {
    s := FillPool(cfg, "", k);
    hide Reachable;
    CountPrefix(s.workers, k);
  }

  lemma {:induction false} CountPrefix(ws: seq<Phase>, k: nat)
    requires k <= |ws| && forall w :: 0 <= w < |ws| ==> (ws[w].Busy() <==> w < k)
    ensures Count(ws, KBusy) == k
  {
    if ws != [] {
      CountPrefix(ws[1..], if k == 0 then 0 else k - 1);
    }
  }
}
