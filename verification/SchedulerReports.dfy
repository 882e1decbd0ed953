/** Ages, refusals, management calls and counters, each stated on the configuration and the queues
    themselves. */
module SchedulerReports {
  import opened Common
  import opened Queue
  import opened Scheduler
  import opened SchedulerInvariant
  import opened SchedulerHistory
  import opened SchedulerFlush
  import opened SchedulerAnswers

  // ---- age -----------------------------------------------------------------

  /** The item at the head of the highest tier that holds one. */
  function Head(queues: PerTier<seq<Item>>): Item
    requires queues.high != [] || queues.normal != [] || queues.low != []
  {
    if queues.high != [] then queues.high[0] else if queues.normal != [] then queues.normal[0] else queues.low[0]
  }

  /** `max_wait` of the item's own tier. */
  function Limit(cfg: Config, item: Item): real {
    match item.tier
    case High => cfg.maxWait.high as real
    case Normal => cfg.maxWait.normal as real
    case Low => cfg.maxWait.low as real
  }

  /** A turn that takes a pending item answers it with Expired if it is older than its own tier
      allows, and otherwise hands it to the worker. */
  lemma TurnExpiresByOwnTier(cfg: Config, s: State, w: nat, now: real)
    requires Enabled(cfg, s, RunWorker(w, now)) && !(s.workers[w].Ready? && !s.q.hasItems)
    requires s.q.queues.high != [] || s.q.queues.normal != [] || s.q.queues.low != []
    requires IsPending(s.q.futures, Head(s.q.queues).id)
    ensures var item, s2 := Head(s.q.queues), Next(cfg, s, RunWorker(w, now));
            && w < |s2.workers| && item.id in s2.q.futures
            && (s2.q.futures[item.id] == Expired <==> now > item.enqueued + Limit(cfg, item))
            && (s2.q.futures[item.id] == Pending <==> now <= item.enqueued + Limit(cfg, item))
            && (s2.workers[w].Busy() <==> now <= item.enqueued + Limit(cfg, item))
            && (s2.workers[w].Busy() ==> s2.workers[w].item == item)
  {
    var item := Head(s.q.queues);
    assert ItemTaken(s, w) == Some(item);
    TurnAnswers(cfg, s, w, now, item.id);
    NothingStaleIsDispatched(cfg, s, w, now);
    hide RunStep, NextTier, ItemTaken;
  }

  /** The limits of the other tiers do not matter to a turn. */
  lemma OtherLimitsAreIgnored(cfg: Config, maxWait: PerTier<int>, s: State, w: nat, now: real)
    requires Enabled(cfg, s, RunWorker(w, now))
    requires s.q.queues.high != [] || s.q.queues.normal != [] || s.q.queues.low != []
    requires Limit(cfg.(maxWait := maxWait), Head(s.q.queues)) == Limit(cfg, Head(s.q.queues))
    ensures Next(cfg.(maxWait := maxWait), s, RunWorker(w, now)) == Next(cfg, s, RunWorker(w, now))
  {
    var item := Head(s.q.queues);
    assert NextTier(s.q.queues).Some? && s.q.queues.Get(NextTier(s.q.queues).value)[0] == item;
    assert cfg.(maxWait := maxWait).maxWait.Get(item.tier) == cfg.maxWait.Get(item.tier);
    assert TooOld(cfg.(maxWait := maxWait), item, now) <==> TooOld(cfg, item, now);
    hide TooOld, NextTier, StartDispatch;
  }

  // ---- refusals ------------------------------------------------------------

  function Depth(cfg: Config, t: Tier): int {
    match t
    case High => cfg.maxDepth.high
    case Normal => cfg.maxDepth.normal
    case Low => cfg.maxDepth.low
  }

  function Length(queues: PerTier<seq<Item>>, t: Tier): nat {
    match t
    case High => |queues.high|
    case Normal => |queues.normal|
    case Low => |queues.low|
  }

  /** Why a request is refused: its tier is paused; or it is full; or, if neither, the body is too
      large beside what waits and what was ever flushed. */
  lemma RefusedIff(cfg: Config, s: State, item: Item)
    requires Reachable(cfg, s)
    ensures var t, r := item.tier, EnqueueOutcomeOf(cfg, s.q, item);
            var full := 0 < Depth(cfg, t) <= Length(s.q.queues, t);
            var large := Waiting(s.q) > 0 && WaitingBytes(s.q) + s.q.hist.flushedBytes + item.nbytes > cfg.maxBytes;
            && (r == TierPaused <==> t in s.q.paused)
            && (r == TierFull <==> t !in s.q.paused && full)
            && (r == OverCapacity <==> t !in s.q.paused && !full && large)
            && (r == Admitted(Length(s.q.queues, t) + 1) <==> t !in s.q.paused && !full && !large)
  {
    ByteCeiling(cfg, s);
    hide Reachable;
  }

  // ---- pause and resume ----------------------------------------------------

  /** Does the management call name this tier, or all of them? */
  predicate Covers(which: Option<Tier>, t: Tier) {
    which == None || which == Some(t)
  }

  lemma CoversIff(which: Option<Tier>, t: Tier)
    ensures t in TiersOf(which) <==> Covers(which, t)
  {
    assert TIERS[0] == High && TIERS[1] == Normal && TIERS[2] == Low;
    assert TIERS[0] in TIERS && TIERS[1] in TIERS && TIERS[2] in TIERS;
  }

  /** From a pause of the tier, or of all, until a resume of the tier, or of all, nothing is
      admitted to it: over every run. */
  lemma PauseHolds(cfg: Config, s: State, which: Option<Tier>, steps: seq<Step>, t: Tier)
    requires Covers(which, t) && ValidRun(cfg, Next(cfg, s, PauseCall(which)), steps)
    requires forall e :: e in steps && e.ResumeCall? ==> !Covers(e.which, t)
    ensures RunFrom(cfg, Next(cfg, s, PauseCall(which)), steps).q.hist.admitted.Get(t) == s.q.hist.admitted.Get(t)
  {
    CoversIff(which, t);
    forall e | e in steps && e.ResumeCall? ensures t !in TiersOf(e.which) {
      CoversIff(e.which, t);
    }
    hide TiersOf, Covers, ValidRun, RunFrom;
    PausedTierAdmitsNothing(cfg, Next(cfg, s, PauseCall(which)), steps, t);
  }

  /** A resume of the tier, or of all, opens it: what fits is admitted at once. */
  lemma ResumeOpens(cfg: Config, s: State, which: Option<Tier>, item: Item)
    requires Reachable(cfg, s) && Covers(which, item.tier)
    ensures var s1 := Next(cfg, s, ResumeCall(which));
            EnqueueOutcomeOf(cfg, s1.q, item) == TierFull || EnqueueOutcomeOf(cfg, s1.q, item) == OverCapacity
            || EnqueueOutcomeOf(cfg, s1.q, item) == Admitted(Length(s.q.queues, item.tier) + 1)
    ensures Length(s.q.queues, item.tier) == 0 && Waiting(s.q) == 0 ==>
              EnqueueOutcomeOf(cfg, Next(cfg, s, ResumeCall(which)).q, item) == Admitted(1)
  {
    CoversIff(which, item.tier);
    var s1 := Next(cfg, s, ResumeCall(which));
    ReachableStep(cfg, s, ResumeCall(which));
    hide Reachable, TiersOf;
    assert item.tier !in s1.q.paused && s1.q.queues == s.q.queues;
    RefusedIff(cfg, s1, item);
    hide EnqueueOutcomeOf;
  }

  /** A pause or a resume of another tier changes nothing for this one. */
  lemma OtherTiersPauseAlone(cfg: Config, s: State, which: Option<Tier>, item: Item)
    requires !Covers(which, item.tier)
    ensures EnqueueOutcomeOf(cfg, Next(cfg, s, PauseCall(which)).q, item) == EnqueueOutcomeOf(cfg, s.q, item)
    ensures EnqueueOutcomeOf(cfg, Next(cfg, s, ResumeCall(which)).q, item) == EnqueueOutcomeOf(cfg, s.q, item)
  {
    CoversIff(which, item.tier);
  }

  // ---- flush of one tier or of all -----------------------------------------

  /** A flush that comes to its end leaves each tier that it covers empty, and the others alone. */
  lemma FlushCovers(cfg: Config, s: State, which: Option<Tier>)
    requires Reachable(cfg, s) && !FlushTiers(s.q, TiersOf(which)).raised
    ensures var after := Next(cfg, s, FlushCall(which)).q.queues;
            && after.high == (if Covers(which, High) then [] else s.q.queues.high)
            && after.normal == (if Covers(which, Normal) then [] else s.q.queues.normal)
            && after.low == (if Covers(which, Low) then [] else s.q.queues.low)
  {
    FlushCompletesIff(cfg, s, which);
    CoversIff(which, High);
    CoversIff(which, Normal);
    CoversIff(which, Low);
    hide Reachable, FlushTiers, TiersOf, Covers;
    var after := Next(cfg, s, FlushCall(which)).q.queues;
    assert after.Get(High) == after.high && after.Get(Normal) == after.normal && after.Get(Low) == after.low;
  }

  // ---- counters ------------------------------------------------------------

  /** The steps of a run that let an item of tier `t` through: upstream answers. */
  function Successes(cfg: Config, s: State, steps: seq<Step>, t: Tier): nat
    requires ValidRun(cfg, s, steps)
    decreases |steps|
  {
    if steps == [] then 0
    else Bit(steps[0].UpstreamReturns? && steps[0].ok && s.workers[steps[0].w].item.tier == t)
         + Successes(cfg, Next(cfg, s, steps[0]), steps[1..], t)
  }

  /** The turns of a run that find an item of tier `t` over age. */
  function Expiries(cfg: Config, s: State, steps: seq<Step>, t: Tier): nat
    requires ValidRun(cfg, s, steps)
    decreases |steps|
  {
    if steps == [] then 0
    else Bit(FindsOverAge(cfg, s, steps[0], t)) + Expiries(cfg, Next(cfg, s, steps[0]), steps[1..], t)
  }

  predicate FindsOverAge(cfg: Config, s: State, e: Step, t: Tier)
    requires Enabled(cfg, s, e)
  {
    && e.RunWorker? && !(s.workers[e.w].Ready? && !s.q.hasItems)
    && (s.q.queues.high != [] || s.q.queues.normal != [] || s.q.queues.low != [])
    && Head(s.q.queues).tier == t && e.now > Head(s.q.queues).enqueued + Limit(cfg, Head(s.q.queues))
  }

  lemma BeginReports(cfg: Config, q: QState, item: Item, now: real, t: Tier)
    ensures var before, after := q.stats.Get(t), Begin(cfg, q, item, now).stats.Get(t);
            && after.processed == before.processed
            && after.expired == before.expired + Bit(item.tier == t && now > item.enqueued + Limit(cfg, item))
  {
  }

  lemma TurnReports(cfg: Config, s: State, w: nat, now: real, t: Tier)
    requires Enabled(cfg, s, RunWorker(w, now))
    ensures var before, after := s.q.stats.Get(t), RunStep(cfg, s, w, now).q.stats.Get(t);
            && after.processed == before.processed
            && after.expired == before.expired + Bit(FindsOverAge(cfg, s, RunWorker(w, now), t))
  {
    if !(s.workers[w].Ready? && !s.q.hasItems) && NextTier(s.q.queues).Some? {
      var item := s.q.queues.Get(NextTier(s.q.queues).value)[0];
      assert Head(s.q.queues) == item && Take(s.q).1 == Some(item) && Take(s.q).0.stats == s.q.stats;
      RunShape(cfg, s, w, now);
      hide RunStep, Head, Begin, Take, Limit;
      BeginReports(cfg, Take(s.q).0, item, now, t);
    }
  }

  lemma StepReports(cfg: Config, s: State, e: Step, t: Tier)
    requires Enabled(cfg, s, e)
    ensures var before, after := s.q.stats.Get(t), Next(cfg, s, e).q.stats.Get(t);
            && after.processed == before.processed + Bit(e.UpstreamReturns? && e.ok && s.workers[e.w].item.tier == t)
            && after.expired == before.expired + Bit(FindsOverAge(cfg, s, e, t))
  {
    hide RunStep, ArriveStep, FinishStep, FlushTiers, Head;
    match e
    case Arrive(item) => ArriveReports(cfg, s, item, t);
    case RunWorker(w, now) => TurnReports(cfg, s, w, now, t);
    case UpstreamReturns(w, ok) => FinishQueue(s, w, ok);
    case FlushCall(which) => FlushesRejectNothing(s.q, TiersOf(which));
    case _ =>
  }

  lemma ArriveReports(cfg: Config, s: State, item: Item, t: Tier)
    ensures ArriveStep(cfg, s, item).q.stats.Get(t).processed == s.q.stats.Get(t).processed
    ensures ArriveStep(cfg, s, item).q.stats.Get(t).expired == s.q.stats.Get(t).expired
  {
    assert ArriveStep(cfg, s, item).q == Enqueue(cfg, s.q, item);
  }

  /** The statistics tell the truth over every run: `processed` counts the upstream answers of the
      tier, `expired` the turns that found one of its items over age. */
  lemma {:induction false} StatisticsAreTrue(cfg: Config, s: State, steps: seq<Step>, t: Tier)
    requires ValidRun(cfg, s, steps)
    ensures var before, after := s.q.stats.Get(t), RunFrom(cfg, s, steps).q.stats.Get(t);
            && after.processed == before.processed + Successes(cfg, s, steps, t)
            && after.expired == before.expired + Expiries(cfg, s, steps, t)
    decreases |steps|
  {
    if steps != [] {
      StepReports(cfg, s, steps[0], t);
      hide Next, Enabled, FindsOverAge;
      StatisticsAreTrue(cfg, Next(cfg, s, steps[0]), steps[1..], t);
    }
  }

  // ---- re-entries ----------------------------------------------------------

  /** A request deferred three times or more never waits for its client's cap. */
  lemma ThirdReentryNeverWaits(s: State, w: nat, item: Item)
    requires w < |s.workers|
    ensures item.reentries >= 3 ==> StartDispatch(s, w, item).workers[w] == Upstream(item)
    ensures item.reentries <= 2 && Known(s, item.client)
            && s.clients[item.client.value].cap > 0 && s.clients[item.client.value].permits == 0 ==>
              StartDispatch(s, w, item).workers[w] == CapWait(item)
  {
  }
}
