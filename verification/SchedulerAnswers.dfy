/** Why a request got the answer it got, what a pause does, and which requests are let in: each
    answer is traced back to the one step that may give it. */
module SchedulerAnswers {
  import opened Common
  import opened Queue
  import opened Scheduler
  import opened SchedulerInvariant
  import opened SchedulerHistory
  import opened SchedulerFlush

  /** Does the request `id` wait in this queue? */
  ghost predicate WaitsIn(queue: seq<Item>, id: nat) {
    exists item :: item in queue && item.id == id
  }

  ghost predicate WaitsInAny(queues: PerTier<seq<Item>>, tiers: seq<Tier>, id: nat) {
    exists t :: t in tiers && WaitsIn(queues.Get(t), id)
  }

  /** The item that a turn of worker `w` would take. */
  function ItemTaken(s: State, w: nat): Option<Item>
    requires w < |s.workers|
  {
    if s.workers[w].Ready? && !s.q.hasItems then None
    else match NextTier(s.q.queues) case None => None case Some(t) => Some(s.q.queues.Get(t)[0])
  }

  // ---- results -------------------------------------------------------------

  /** A waiting request gets a result, or an upstream error, exactly when the worker that holds
      it returns from the upstream with one. */
  lemma UpstreamAnswersIff(cfg: Config, s: State, e: Step, id: nat)
    requires Enabled(cfg, s, e) && IsPending(s.q.futures, id)
    ensures id in Next(cfg, s, e).q.futures
    ensures Next(cfg, s, e).q.futures[id] == Result <==> e.UpstreamReturns? && e.ok && s.workers[e.w].item.id == id
    ensures Next(cfg, s, e).q.futures[id] == Failed <==> e.UpstreamReturns? && !e.ok && s.workers[e.w].item.id == id
  {
    hide RunStep, ArriveStep, FinishStep, FlushTiers;
    StepGrows(cfg, s, e);
    match e
    case Arrive(item) => ArriveAnswers(cfg, s, item, id);
    case RunWorker(w, now) => TurnAnswers(cfg, s, w, now, id);
    case UpstreamReturns(w, ok) => FinishQueue(s, w, ok);
    case FlushCall(which) => FlushesAnswer(s.q, TiersOf(which), id);
    case _ =>
  }

  lemma FinishQueue(s: State, w: nat, ok: bool)
    requires w < |s.workers| && s.workers[w].Upstream?
    ensures FinishStep(s, w, ok).q == Complete(s.q, s.workers[w].item, ok)
  {
  }

  lemma ArriveAnswers(cfg: Config, s: State, item: Item, id: nat)
    requires item.id !in s.q.futures && IsPending(s.q.futures, id)
    ensures IsPending(ArriveStep(cfg, s, item).q.futures, id)
  {
    assert ArriveStep(cfg, s, item).q == Enqueue(cfg, s.q, item);
  }

  /** A turn answers nobody but the item that it takes, and that one only if it is over age. */
  lemma TurnAnswers(cfg: Config, s: State, w: nat, now: real, id: nat)
    requires Enabled(cfg, s, RunWorker(w, now)) && IsPending(s.q.futures, id)
    ensures var after := RunStep(cfg, s, w, now).q.futures;
            && id in after
            && after[id] == if ItemTaken(s, w).Some? && ItemTaken(s, w).value.id == id && TooOld(cfg, ItemTaken(s, w).value, now)
                            then Expired else Pending
  {
    if ItemTaken(s, w).Some? {
      hide RunStep;
      RunShape(cfg, s, w, now);
    }
  }

  // ---- expiry --------------------------------------------------------------

  /** A waiting request expires exactly when a worker takes it after more than its tier's
      `max_wait` since it was enqueued. */
  lemma ExpiresIff(cfg: Config, s: State, e: Step, id: nat)
    requires Enabled(cfg, s, e) && IsPending(s.q.futures, id)
    ensures id in Next(cfg, s, e).q.futures
    ensures Next(cfg, s, e).q.futures[id] == Expired
            <==> e.RunWorker? && ItemTaken(s, e.w).Some? && ItemTaken(s, e.w).value.id == id
                 && TooOld(cfg, ItemTaken(s, e.w).value, e.now)
  {
    hide RunStep, ArriveStep, FinishStep, FlushTiers;
    StepGrows(cfg, s, e);
    match e
    case Arrive(item) => ArriveAnswers(cfg, s, item, id);
    case RunWorker(w, now) => TurnAnswers(cfg, s, w, now, id);
    case UpstreamReturns(w, ok) => FinishQueue(s, w, ok);
    case FlushCall(which) => FlushesAnswer(s.q, TiersOf(which), id);
    case _ =>
  }

  /** No stale work: what a turn hands to the upstream, or to its client's semaphore, is the
      item it took, and that item was not over age. */
  lemma NothingStaleIsDispatched(cfg: Config, s: State, w: nat, now: real)
    requires Enabled(cfg, s, RunWorker(w, now))
    ensures var s2 := RunStep(cfg, s, w, now);
            && w < |s2.workers|
            && (s2.workers[w].Busy() <==> ItemTaken(s, w).Some? && !TooOld(cfg, ItemTaken(s, w).value, now))
            && (s2.workers[w].Busy() ==> s2.workers[w].item == ItemTaken(s, w).value)
  {
    if ItemTaken(s, w).Some? {
      hide RunStep;
      RunShape(cfg, s, w, now);
    }
  }

  // ---- flush ---------------------------------------------------------------

  lemma {:induction false} FlushAnswers(q: QState, t: Tier, id: nat)
    requires IsPending(q.futures, id)
    ensures var r := FlushTier(q, t).q;
            && id in r.futures
            && (r.futures[id] == Pending || (r.futures[id] == Flushed && WaitsIn(q.queues.Get(t), id)))
            && (forall u, x :: WaitsIn(r.queues.Get(u), x) ==> WaitsIn(q.queues.Get(u), x))
    decreases |q.queues.Get(t)|
  {
    var queue := q.queues.Get(t);
    if queue != [] {
      HeadLeaves(q, t);
      assert queue[0] in queue;
      hide FlushOne;
      var q1 := FlushOne(q, t);
      if IsPending(q.futures, queue[0].id) && queue[0].id != id {
        FlushAnswers(q1, t, id);
      } else if queue[0].id == id {
        AnswersStay(q1, t, id);
      }
    }
  }

  lemma HeadLeaves(q: QState, t: Tier)
    requires q.queues.Get(t) != []
    ensures var queue, q1 := q.queues.Get(t), FlushOne(q, t);
            && q1.queues.Get(t) == queue[1..]
            && q1.futures == (if IsPending(q.futures, queue[0].id) then q.futures[queue[0].id := Flushed] else q.futures)
            && (forall u, x :: WaitsIn(q1.queues.Get(u), x) ==> WaitsIn(q.queues.Get(u), x))
  {
    var q1 := FlushOne(q, t);
    forall u, x | WaitsIn(q1.queues.Get(u), x) ensures WaitsIn(q.queues.Get(u), x) {
      var item :| item in q1.queues.Get(u) && item.id == x;
      assert item in q.queues.Get(u);
    }
  }

  lemma {:induction false} AnswersStay(q: QState, t: Tier, id: nat)
    requires id in q.futures && q.futures[id] != Pending
    ensures var r := FlushTier(q, t).q;
            && id in r.futures && r.futures[id] == q.futures[id]
            && (forall u, x :: WaitsIn(r.queues.Get(u), x) ==> WaitsIn(q.queues.Get(u), x))
    decreases |q.queues.Get(t)|
  {
    if q.queues.Get(t) != [] {
      HeadLeaves(q, t);
      hide FlushOne;
      if IsPending(q.futures, q.queues.Get(t)[0].id) {
        AnswersStay(FlushOne(q, t), t, id);
      }
    }
  }

  lemma {:induction false} FlushesAnswer(q: QState, tiers: seq<Tier>, id: nat)
    requires IsPending(q.futures, id)
    ensures var r := FlushTiers(q, tiers).q;
            && id in r.futures
            && (r.futures[id] == Pending || (r.futures[id] == Flushed && WaitsInAny(q.queues, tiers, id)))
    decreases |tiers|
  {
    if tiers != [] {
      FlushAnswers(q, tiers[0], id);
      FlushTiersGrows(FlushTier(q, tiers[0]).q, tiers[1..]);
      hide FlushTier;
      var q1 := FlushTier(q, tiers[0]).q;
      if IsPending(q1.futures, id) {
        FlushesAnswer(q1, tiers[1..], id);
        if WaitsInAny(q1.queues, tiers[1..], id) {
          var t :| t in tiers[1..] && WaitsIn(q1.queues.Get(t), id);
          assert t in tiers && WaitsIn(q.queues.Get(t), id);
        }
      } else {
        assert tiers[0] in tiers;
      }
    }
  }

  /** Only a flush of its own tier flushes a waiting request. */
  lemma FlushedOnlyByFlush(cfg: Config, s: State, e: Step, id: nat)
    requires Enabled(cfg, s, e) && IsPending(s.q.futures, id)
    ensures id in Next(cfg, s, e).q.futures
    ensures Next(cfg, s, e).q.futures[id] == Flushed ==> e.FlushCall? && WaitsInAny(s.q.queues, TiersOf(e.which), id)
  {
    hide RunStep, ArriveStep, FinishStep, FlushTiers;
    StepGrows(cfg, s, e);
    match e
    case Arrive(item) => ArriveAnswers(cfg, s, item, id);
    case RunWorker(w, now) => TurnAnswers(cfg, s, w, now, id);
    case UpstreamReturns(w, ok) => FinishQueue(s, w, ok);
    case FlushCall(which) => FlushesAnswer(s.q, TiersOf(which), id);
    case _ =>
  }

  // ---- whole runs ----------------------------------------------------------

  /** The step that gives the request `id` the answer `f`. */
  ghost predicate Gives(cfg: Config, s: State, e: Step, id: nat, f: Future)
    requires Enabled(cfg, s, e)
  {
    match f
    case Pending => false
    case Result => e.UpstreamReturns? && e.ok && s.workers[e.w].item.id == id
    case Failed => e.UpstreamReturns? && !e.ok && s.workers[e.w].item.id == id
    case Expired =>
      e.RunWorker? && ItemTaken(s, e.w).Some? && ItemTaken(s, e.w).value.id == id && TooOld(cfg, ItemTaken(s, e.w).value, e.now)
    case Flushed => e.FlushCall? && Reaches(s.q, TiersOf(e.which), id)
    case Cancelled => e == CancelFuture(id)
  }

  lemma StepGivesIff(cfg: Config, s: State, e: Step, id: nat, f: Future)
    requires Reachable(cfg, s) && Enabled(cfg, s, e) && IsPending(s.q.futures, id) && f != Pending
    ensures id in Next(cfg, s, e).q.futures && (Next(cfg, s, e).q.futures[id] == f <==> Gives(cfg, s, e, id, f))
  {
    hide Reachable, Reaches, ItemTaken, TooOld;
    match f
    case Result => UpstreamAnswersIff(cfg, s, e, id);
    case Failed => UpstreamAnswersIff(cfg, s, e, id);
    case Expired => ExpiresIff(cfg, s, e, id);
    case Flushed => StepFlushesIff(cfg, s, e, id);
    case Cancelled => StepCancelsIff(cfg, s, e, id);
  }

  lemma StepFlushesIff(cfg: Config, s: State, e: Step, id: nat)
    requires Reachable(cfg, s) && Enabled(cfg, s, e) && IsPending(s.q.futures, id)
    ensures id in Next(cfg, s, e).q.futures
    ensures Next(cfg, s, e).q.futures[id] == Flushed <==> e.FlushCall? && Reaches(s.q, TiersOf(e.which), id)
  {
    FlushedOnlyByFlush(cfg, s, e, id);
    if e.FlushCall? {
      WaitingItemsAreApart(cfg, s);
      hide FlushTiers, Reaches, Reachable, Apart;
      FlushTiersAnswersIff(s.q, TiersOf(e.which), id);
    }
  }

  lemma StepCancelsIff(cfg: Config, s: State, e: Step, id: nat)
    requires Enabled(cfg, s, e) && IsPending(s.q.futures, id)
    ensures id in Next(cfg, s, e).q.futures
    ensures Next(cfg, s, e).q.futures[id] == Cancelled <==> e == CancelFuture(id)
  {
    hide RunStep, ArriveStep, FinishStep, FlushTiers;
    match e
    case Arrive(item) => ArriveAnswers(cfg, s, item, id);
    case RunWorker(w, now) => TurnAnswers(cfg, s, w, now, id);
    case UpstreamReturns(w, ok) => FinishQueue(s, w, ok);
    case FlushCall(which) => FlushesAnswer(s.q, TiersOf(which), id);
    case _ =>
  }

  /** The run holds a step that gives `id` the answer `f`, at a moment when it has none. */
  ghost predicate HoldsGivingStep(cfg: Config, s: State, steps: seq<Step>, id: nat, f: Future)
    requires ValidRun(cfg, s, steps)
    decreases |steps|
  {
    steps != []
    && ((IsPending(s.q.futures, id) && Gives(cfg, s, steps[0], id, f))
        || HoldsGivingStep(cfg, Next(cfg, s, steps[0]), steps[1..], id, f))
  }

  lemma {:induction false} AnsweredOnce(cfg: Config, s: State, steps: seq<Step>, id: nat, f: Future)
    requires ValidRun(cfg, s, steps) && id in s.q.futures && s.q.futures[id] != Pending
    ensures !HoldsGivingStep(cfg, s, steps, id, f)
    decreases |steps|
  {
    if steps != [] {
      StepGrows(cfg, s, steps[0]);
      hide Next, Enabled, Gives;
      AnsweredOnce(cfg, Next(cfg, s, steps[0]), steps[1..], id, f);
    }
  }

  /** Over every run a waiting request ends with the answer `f` if and only if the run holds the
      step that gives it: the worker that holds it returns from the upstream, a turn takes it over
      age, a flush comes to it, or it is cancelled, and until then it has no answer. */
  lemma {:induction false} AnsweredIff(cfg: Config, s: State, steps: seq<Step>, id: nat, f: Future)
    requires Reachable(cfg, s) && ValidRun(cfg, s, steps) && IsPending(s.q.futures, id) && f != Pending
    ensures id in RunFrom(cfg, s, steps).q.futures
    ensures RunFrom(cfg, s, steps).q.futures[id] == f <==> HoldsGivingStep(cfg, s, steps, id, f)
    decreases |steps|
  {
    if steps != [] {
      var s1, rest := Next(cfg, s, steps[0]), steps[1..];
      StepGivesIff(cfg, s, steps[0], id, f);
      ReachableStep(cfg, s, steps[0]);
      RunGrows(cfg, s1, rest);
      hide Next, Enabled, Gives, Reachable;
      if s1.q.futures[id] == Pending {
        AnsweredIff(cfg, s1, rest, id, f);
      } else {
        AnsweredOnce(cfg, s1, rest, id, f);
      }
    }
  }

  // ---- pause ---------------------------------------------------------------

  lemma PauseStep(cfg: Config, s: State, e: Step, t: Tier)
    requires Enabled(cfg, s, e) && t in s.q.paused
    requires e.ResumeCall? ==> t !in TiersOf(e.which)
    ensures t in Next(cfg, s, e).q.paused && Next(cfg, s, e).q.hist.admitted.Get(t) == s.q.hist.admitted.Get(t)
  {
    hide FinishStep, FlushTiers;
    StepGrows(cfg, s, e);
    match e
    case RunWorker(w, now) =>
      if ItemTaken(s, w).Some? {
        hide RunStep;
        RunShape(cfg, s, w, now);
      }
    case UpstreamReturns(w, ok) => FinishQueue(s, w, ok);
    case FlushCall(which) => FlushesKeepPaused(s.q, TiersOf(which));
    case _ =>
  }

  lemma {:induction false} FlushKeepsPaused(q: QState, t: Tier)
    ensures FlushTier(q, t).q.paused == q.paused
    decreases |q.queues.Get(t)|
  {
    if q.queues.Get(t) != [] && IsPending(q.futures, q.queues.Get(t)[0].id) {
      FlushKeepsPaused(FlushOne(q, t), t);
    }
  }

  lemma {:induction false} FlushesKeepPaused(q: QState, tiers: seq<Tier>)
    ensures FlushTiers(q, tiers).q.paused == q.paused
    decreases |tiers|
  {
    if tiers != [] {
      FlushKeepsPaused(q, tiers[0]);
      FlushesKeepPaused(FlushTier(q, tiers[0]).q, tiers[1..]);
    }
  }

  /** From a pause until the tier is resumed nothing is admitted to it, whatever else happens;
      what waits there goes on being served, since DrainExists and InternalStepLowersMeasure do
      not look at the paused tiers. */
  lemma {:induction false} PausedTierAdmitsNothing(cfg: Config, s: State, steps: seq<Step>, t: Tier)
    requires ValidRun(cfg, s, steps) && t in s.q.paused
    requires forall e :: e in steps && e.ResumeCall? ==> t !in TiersOf(e.which)
    ensures t in RunFrom(cfg, s, steps).q.paused
    ensures RunFrom(cfg, s, steps).q.hist.admitted.Get(t) == s.q.hist.admitted.Get(t)
    decreases |steps|
  {
    if steps != [] {
      PauseStep(cfg, s, steps[0], t);
      PausedTierAdmitsNothing(cfg, Next(cfg, s, steps[0]), steps[1..], t);
    }
  }

  // ---- admission -----------------------------------------------------------

  /** What a request is admitted on: its tier is not paused and not full, and its body fits
      under the ceiling beside the bytes waiting and the bytes ever flushed, or nothing waits. */
  lemma AdmittedIff(cfg: Config, s: State, item: Item)
    requires Reachable(cfg, s) && Enabled(cfg, s, Arrive(item))
    ensures var t := item.tier;
            var after := Next(cfg, s, Arrive(item)).q;
            (after.hist.admitted.Get(t) != s.q.hist.admitted.Get(t))
            <==> && t !in s.q.paused
                 && (cfg.maxDepth.Get(t) <= 0 || |s.q.queues.Get(t)| + 1 <= cfg.maxDepth.Get(t))
                 && (Waiting(s.q) == 0 || WaitingBytes(s.q) + s.q.hist.flushedBytes + item.nbytes <= cfg.maxBytes)
  {
    hide Reachable, ClientsInv, PlacesInv, CountersInv, WakeInv, SlotsInv, SemaphoresInv;
    ReachableInv(cfg, s);
    AdmissionShows(cfg, s.q, item);
    assert Next(cfg, s, Arrive(item)).q == Enqueue(cfg, s.q, item);
  }

  lemma AdmissionShows(cfg: Config, q: QState, item: Item)
    ensures var t := item.tier;
            Enqueue(cfg, q, item).hist.admitted.Get(t)
            == if EnqueueOutcomeOf(cfg, q, item).Admitted? then q.hist.admitted.Get(t) + [item] else q.hist.admitted.Get(t)
  {
  }

  /** How many requests were offered to tier `t` while it was not paused. */
  function Offered(cfg: Config, s: State, steps: seq<Step>, t: Tier): nat
    requires ValidRun(cfg, s, steps)
    decreases |steps|
  {
    if steps == [] then 0
    else Bit(steps[0].Arrive? && steps[0].item.tier == t && t !in s.q.paused) + Offered(cfg, Next(cfg, s, steps[0]), steps[1..], t)
  }

  function Counted(q: QState, t: Tier): nat {
    |q.hist.admitted.Get(t)| + q.stats.Get(t).rejected
  }

  lemma StepCounts(cfg: Config, s: State, e: Step, t: Tier)
    requires Enabled(cfg, s, e)
    ensures Counted(Next(cfg, s, e).q, t) == Counted(s.q, t) + Bit(e.Arrive? && e.item.tier == t && t !in s.q.paused)
  {
    hide RunStep, ArriveStep, FinishStep, FlushTiers;
    StepGrows(cfg, s, e);
    match e
    case Arrive(item) => ArriveCounts(cfg, s, item, t);
    case RunWorker(w, now) => TurnRejectsNothing(cfg, s, w, now, t);
    case UpstreamReturns(w, ok) => FinishQueue(s, w, ok);
    case FlushCall(which) => FlushesRejectNothing(s.q, TiersOf(which));
    case _ =>
  }

  lemma ArriveCounts(cfg: Config, s: State, item: Item, t: Tier)
    ensures Counted(ArriveStep(cfg, s, item).q, t) == Counted(s.q, t) + Bit(item.tier == t && t !in s.q.paused)
  {
    assert ArriveStep(cfg, s, item).q == Enqueue(cfg, s.q, item);
  }

  lemma TurnRejectsNothing(cfg: Config, s: State, w: nat, now: real, t: Tier)
    requires Enabled(cfg, s, RunWorker(w, now))
    ensures RunStep(cfg, s, w, now).q.stats.Get(t).rejected == s.q.stats.Get(t).rejected
  {
    if ItemTaken(s, w).Some? {
      hide RunStep;
      RunShape(cfg, s, w, now);
    }
  }

  lemma {:induction false} FlushRejectsNothing(q: QState, t: Tier)
    ensures FlushTier(q, t).q.stats == q.stats
    decreases |q.queues.Get(t)|
  {
    if q.queues.Get(t) != [] && IsPending(q.futures, q.queues.Get(t)[0].id) {
      FlushRejectsNothing(FlushOne(q, t), t);
    }
  }

  lemma {:induction false} FlushesRejectNothing(q: QState, tiers: seq<Tier>)
    ensures FlushTiers(q, tiers).q.stats == q.stats
    decreases |tiers|
  {
    if tiers != [] {
      FlushRejectsNothing(q, tiers[0]);
      FlushesRejectNothing(FlushTier(q, tiers[0]).q, tiers[1..]);
    }
  }

  /** Nothing is refused unseen: over every run the requests offered to a tier while it was not
      paused are those admitted and those that its `rejected` counter shows. */
  lemma {:induction false} OffersAreCounted(cfg: Config, s: State, steps: seq<Step>, t: Tier)
    requires ValidRun(cfg, s, steps)
    ensures Counted(RunFrom(cfg, s, steps).q, t) == Counted(s.q, t) + Offered(cfg, s, steps, t)
    decreases |steps|
  {
    if steps != [] {
      StepCounts(cfg, s, steps[0], t);
      OffersAreCounted(cfg, Next(cfg, s, steps[0]), steps[1..], t);
    }
  }
}
