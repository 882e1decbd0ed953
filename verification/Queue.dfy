/** The priority queue manager of queue.py: its state as a value, one function for each
    stretch of code between two suspension points, and the class whose methods do the same
    work in place. */
module Queue {
  import opened Common

  datatype Item = Item(
    id: nat,
    tier: Tier,
    enqueued: real,
    nbytes: nat,
    client: Option<string>,
    reentries: nat)

  /** What is known of an item's asyncio.Future; everything but Pending is `done()`. */
  datatype Future = Pending | Result | Failed | Expired | Flushed | Cancelled

  datatype TierStats = TierStats(processed: nat, rejected: nat, expired: nat)

  /** `caps` gives each configured client its cap, 0 meaning unlimited. */
  datatype Config = Config(
    workers: nat,
    maxDepth: PerTier<int>,
    maxWait: PerTier<int>,
    maxBytes: int,
    caps: map<string, nat>)

  /** History variables: they record what happened and never influence it. */
  datatype History = History(
    admitted: PerTier<seq<Item>>,
    departed: PerTier<seq<Item>>,
    flushedBytes: nat,
    failed: PerTier<nat>,
    flushed: PerTier<nat>,
    aborted: PerTier<nat>)

  /** `slots` is the value of the worker semaphore, `bytes` is `_queued_bytes`. */
  datatype QState = QState(
    queues: PerTier<seq<Item>>,
    bytes: nat,
    hasItems: bool,
    active: int,
    slots: int,
    paused: set<Tier>,
    stats: PerTier<TierStats>,
    futures: map<nat, Future>,
    hist: History)

  datatype EnqueueOutcome = Admitted(position: nat) | TierPaused | TierFull | OverCapacity

  datatype Verdict = Dispatch | Discarded | WorkerDied

  function Start(cfg: Config): QState {
    QState(Each([]), 0, false, 0, cfg.workers, {}, Each(TierStats(0, 0, 0)), map[],
           History(Each([]), Each([]), 0, Each(0), Each(0), Each(0)))
  }

  predicate AllEmpty(queues: PerTier<seq<Item>>) {
    queues.high == [] && queues.normal == [] && queues.low == []
  }

  /** asyncio.Queue.full: a bound of zero or less means no bound. */
  predicate Full(cfg: Config, q: QState, t: Tier) {
    0 < cfg.maxDepth.Get(t) <= |q.queues.Get(t)|
  }

  predicate IsPending(futures: map<nat, Future>, id: nat) {
    id in futures && futures[id] == Pending
  }

  // ---- enqueue -------------------------------------------------------------

  function EnqueueOutcomeOf(cfg: Config, q: QState, item: Item): EnqueueOutcome {
    if item.tier in q.paused then TierPaused
    else if Full(cfg, q, item.tier) then TierFull
    else if q.bytes + item.nbytes > cfg.maxBytes && !AllEmpty(q.queues) then OverCapacity
    else Admitted(|q.queues.Get(item.tier)| + 1)
  }

  function Reject(q: QState, t: Tier): QState {
    var st := q.stats.Get(t);
    q.(stats := q.stats.Set(t, st.(rejected := st.rejected + 1)))
  }

  function Admit(q: QState, item: Item): QState {
    q.(queues := q.queues.Set(item.tier, q.queues.Get(item.tier) + [item]),
       bytes := q.bytes + item.nbytes,
       hasItems := true,
       futures := q.futures[item.id := Pending],
       hist := q.hist.(admitted := q.hist.admitted.Set(item.tier, q.hist.admitted.Get(item.tier) + [item])))
  }

  function Enqueue(cfg: Config, q: QState, item: Item): QState {
    match EnqueueOutcomeOf(cfg, q, item)
    case TierPaused => q
    case TierFull => Reject(q, item.tier)
    case OverCapacity => Reject(q, item.tier)
    case Admitted(_) => Admit(q, item)
  }

  // ---- one turn of a worker ------------------------------------------------

  /** The tier a worker takes from: the first non-empty one in scanning order. */
  function NextTier(queues: PerTier<seq<Item>>): Option<Tier> {
    if queues.high != [] then Some(High)
    else if queues.normal != [] then Some(Normal)
    else if queues.low != [] then Some(Low)
    else None
  }

  /** The head of tier `t` leaves its queue. */
  function Pop(q: QState, t: Tier): QState
    requires q.queues.Get(t) != []
  {
    var item := q.queues.Get(t)[0];
    q.(queues := q.queues.Set(t, q.queues.Get(t)[1..]),
       hist := q.hist.(departed := q.hist.departed.Set(t, q.hist.departed.Get(t) + [item])))
  }

  /** A worker scans the tiers: with an item it keeps the semaphore slot and releases the
      item's bytes, without one it clears the event and gives the slot back. */
  function Take(q: QState): (r: (QState, Option<Item>))
  {
    match NextTier(q.queues)
    case None => (q.(hasItems := false), None)
    case Some(t) =>
      var item := q.queues.Get(t)[0];
      (Pop(q, t).(bytes := Max(0, q.bytes - item.nbytes), slots := q.slots - 1), Some(item))
  }

  predicate TooOld(cfg: Config, item: Item, now: real) {
    now - item.enqueued > cfg.maxWait.Get(item.tier) as real
  }

  function VerdictOf(cfg: Config, q: QState, item: Item, now: real): Verdict {
    if !TooOld(cfg, item, now) then Dispatch
    else if IsPending(q.futures, item.id) then Discarded
    else WorkerDied
  }

  /** After taking `item`. `set_exception` on a future that is already done raises out of the
      worker: the semaphore slot is given back but `_active` keeps counting the dead worker. */
  function Begin(cfg: Config, q: QState, item: Item, now: real): QState {
    var st := q.stats.Get(item.tier);
    var counted := q.stats.Set(item.tier, st.(expired := st.expired + 1));
    match VerdictOf(cfg, q, item, now)
    case Dispatch => q.(active := q.active + 1)
    case Discarded => q.(stats := counted, slots := q.slots + 1, futures := q.futures[item.id := Expired])
    case WorkerDied => q.(stats := counted, slots := q.slots + 1, active := q.active + 1)
  }

  /** The dispatch of `item` came back, with a response (`ok`) or an exception. */
  function Complete(q: QState, item: Item, ok: bool): QState {
    var st := q.stats.Get(item.tier);
    var q1 := q.(active := q.active - 1, slots := q.slots + 1);
    var q2 := if IsPending(q.futures, item.id)
              then q1.(futures := q.futures[item.id := if ok then Result else Failed]) else q1;
    if ok then q2.(stats := q.stats.Set(item.tier, st.(processed := st.processed + 1)))
    else q2.(hist := q.hist.(failed := Bump(q.hist.failed, item.tier)))
  }

  // ---- flush, pause, resume ------------------------------------------------

  datatype FlushResult = FlushResult(q: QState, dropped: nat, raised: bool)

  /** One turn of the flush loop on a non-empty tier; `_queued_bytes` is left alone. */
  function FlushOne(q: QState, t: Tier): QState
    requires q.queues.Get(t) != []
  {
    var item := q.queues.Get(t)[0];
    var q1 := Pop(q, t);
    if IsPending(q.futures, item.id) then
      q1.(futures := q.futures[item.id := Flushed],
          hist := q1.hist.(flushedBytes := q.hist.flushedBytes + item.nbytes, flushed := Bump(q.hist.flushed, t)))
    else
      q1.(hist := q1.hist.(flushedBytes := q.hist.flushedBytes + item.nbytes, aborted := Bump(q.hist.aborted, t)))
  }

  function FlushTier(q: QState, t: Tier): FlushResult
    decreases |q.queues.Get(t)|
  {
    if q.queues.Get(t) == [] then FlushResult(q, 0, false)
    else if !IsPending(q.futures, q.queues.Get(t)[0].id) then FlushResult(FlushOne(q, t), 0, true)
    else
      var rest := FlushTier(FlushOne(q, t), t);
      rest.(dropped := rest.dropped + 1)
  }

  function FlushTiers(q: QState, tiers: seq<Tier>): FlushResult
    decreases |tiers|
  {
    if tiers == [] then FlushResult(q, 0, false)
    else
      var first := FlushTier(q, tiers[0]);
      if first.raised then first
      else
        var rest := FlushTiers(first.q, tiers[1..]);
        rest.(dropped := first.dropped + rest.dropped)
  }

  /** The tiers that a management call names: one of them, or all. */
  function TiersOf(which: Option<Tier>): seq<Tier> {
    match which
    case Some(t) => [t]
    case None => TIERS
  }

  function PauseTiers(q: QState, which: Option<Tier>): QState {
    q.(paused := q.paused + set t | t in TiersOf(which))
  }

  function ResumeTiers(q: QState, which: Option<Tier>): QState {
    q.(paused := q.paused - set t | t in TiersOf(which))
  }

  // ---- the class -----------------------------------------------------------

  /** PriorityQueueManager: the same stretches of code, updating the fields in place. */
  class PriorityQueueManager {
    const cfg: Config
    var queues: PerTier<seq<Item>>
    var bytes: nat
    var hasItems: bool
    var active: int
    var slots: int
    var paused: set<Tier>
    var stats: PerTier<TierStats>
    var futures: map<nat, Future>
    ghost var hist: History

    ghost function Abs(): QState
      reads this
    {
      QState(queues, bytes, hasItems, active, slots, paused, stats, futures, hist)
    }

    constructor (cfg: Config)
      ensures this.cfg == cfg && Abs() == Start(cfg)
    {
      this.cfg := cfg;
      queues, bytes, hasItems, active, slots := Each([]), 0, false, 0, cfg.workers;
      paused, stats, futures := {}, Each(TierStats(0, 0, 0)), map[];
      hist := History(Each([]), Each([]), 0, Each(0), Each(0), Each(0));
    }

    method EnqueueItem(item: Item) returns (r: EnqueueOutcome)
      modifies this
      ensures r == EnqueueOutcomeOf(cfg, old(Abs()), item)
      ensures Abs() == Enqueue(cfg, old(Abs()), item)
    {
      var tier := item.tier;
      var q := queues.Get(tier);
      if tier in paused {
        return TierPaused;
      }
      var st := stats.Get(tier);
      if 0 < cfg.maxDepth.Get(tier) <= |q| {
        stats := stats.Set(tier, st.(rejected := st.rejected + 1));
        return TierFull;
      }
      if bytes + item.nbytes > cfg.maxBytes && !AllEmpty(queues) {
        stats := stats.Set(tier, st.(rejected := st.rejected + 1));
        return OverCapacity;
      }
      var position := |q| + 1;
      queues := queues.Set(tier, q + [item]);
      futures := futures[item.id := Pending];
      bytes := bytes + item.nbytes;
      hasItems := true;
      hist := hist.(admitted := hist.admitted.Set(tier, hist.admitted.Get(tier) + [item]));
      return Admitted(position);
    }

    method TakeNext() returns (got: Option<Item>)
      modifies this
      ensures (Abs(), got) == Take(old(Abs()))
    {
      slots := slots - 1;
      got := None;
      var i := 0;
      while i < |TIERS|
        invariant 0 <= i <= 3 && got == None
        invariant Abs() == old(Abs()).(slots := old(slots) - 1)
        invariant forall j :: 0 <= j < i ==> queues.Get(TIERS[j]) == []
      {
        var tier := TIERS[i];
        if queues.Get(tier) != [] {
          got := Some(queues.Get(tier)[0]);
          assert NextTier(queues) == Some(tier) by {
            assert forall j :: 0 <= j < i ==> queues.Get(TIERS[j]) == [];
            assert i > 0 ==> queues.Get(TIERS[0]) == [];
            assert i > 1 ==> queues.Get(TIERS[1]) == [];
          }
          queues := queues.Set(tier, queues.Get(tier)[1..]);
          hist := hist.(departed := hist.departed.Set(tier, hist.departed.Get(tier) + [got.value]));
          break;
        }
        i := i + 1;
      }
      if got.Some? {
        bytes := Max(0, bytes - got.value.nbytes);
        return;
      }
      assert NextTier(queues) == None by {
        assert queues.Get(TIERS[0]) == [] && queues.Get(TIERS[1]) == [] && queues.Get(TIERS[2]) == [];
      }
      if AllEmpty(queues) {
        hasItems := false;
      }
      slots := slots + 1;
    }

    method BeginItem(item: Item, now: real) returns (v: Verdict)
      modifies this
      ensures v == VerdictOf(cfg, old(Abs()), item, now)
      ensures Abs() == Begin(cfg, old(Abs()), item, now)
    {
      active := active + 1;
      var age := now - item.enqueued;
      if age > cfg.maxWait.Get(item.tier) as real {
        var st := stats.Get(item.tier);
        stats := stats.Set(item.tier, st.(expired := st.expired + 1));
        slots := slots + 1;
        if !(item.id in futures && futures[item.id] == Pending) {
          return WorkerDied;
        }
        futures := futures[item.id := Expired];
        active := active - 1;
        return Discarded;
      }
      return Dispatch;
    }

    method CompleteItem(item: Item, ok: bool)
      modifies this
      ensures Abs() == Complete(old(Abs()), item, ok)
    {
      if item.id in futures && futures[item.id] == Pending {
        futures := futures[item.id := if ok then Result else Failed];
      }
      if ok {
        var st := stats.Get(item.tier);
        stats := stats.Set(item.tier, st.(processed := st.processed + 1));
      } else {
        hist := hist.(failed := Bump(hist.failed, item.tier));
      }
      active := active - 1;
      slots := slots + 1;
    }

    method FlushTierInPlace(t: Tier) returns (dropped: nat, raised: bool)
      modifies this
      ensures FlushResult(Abs(), dropped, raised) == FlushTier(old(Abs()), t)
    {
      dropped, raised := 0, false;
      while queues.Get(t) != []
        invariant FlushTier(old(Abs()), t) ==
                  var rest := FlushTier(Abs(), t); rest.(dropped := rest.dropped + dropped)
        decreases |queues.Get(t)|
      {
        ghost var before := Abs();
        var item := queues.Get(t)[0];
        queues := queues.Set(t, queues.Get(t)[1..]);
        if !(item.id in futures && futures[item.id] == Pending) {
          hist := FlushOne(before, t).hist;
          raised := true;
          assert Abs() == FlushOne(before, t);
          return;
        }
        futures := futures[item.id := Flushed];
        dropped := dropped + 1;
        hist := FlushOne(before, t).hist;
        assert Abs() == FlushOne(before, t);
      }
    }

    method Flush(which: Option<Tier>) returns (dropped: nat, raised: bool)
      modifies this
      ensures FlushResult(Abs(), dropped, raised) == FlushTiers(old(Abs()), TiersOf(which))
    {
      var tiers := TiersOf(which);
      dropped, raised := 0, false;
      var i := 0;
      while i < |tiers|
        invariant 0 <= i <= |tiers|
        invariant FlushTiers(old(Abs()), tiers) ==
                  var rest := FlushTiers(Abs(), tiers[i..]); rest.(dropped := rest.dropped + dropped)
      {
        assert tiers[i..][1..] == tiers[i + 1..];
        var n;
        n, raised := FlushTierInPlace(tiers[i]);
        dropped := dropped + n;
        if raised {
          return;
        }
        i := i + 1;
      }
    }

    method Pause(which: Option<Tier>)
      modifies this
      ensures Abs() == PauseTiers(old(Abs()), which)
    {
      var tiers := TiersOf(which);
      for i := 0 to |tiers|
        invariant Abs() == old(Abs()).(paused := old(paused) + set t | t in tiers[..i])
      {
        paused := paused + {tiers[i]};
        assert tiers[..i + 1] == tiers[..i] + [tiers[i]];
      }
      assert tiers[..|tiers|] == tiers;
    }

    method Resume(which: Option<Tier>)
      modifies this
      ensures Abs() == ResumeTiers(old(Abs()), which)
    {
      var tiers := TiersOf(which);
      for i := 0 to |tiers|
        invariant Abs() == old(Abs()).(paused := old(paused) - set t | t in tiers[..i])
      {
        paused := paused - {tiers[i]};
        assert tiers[..i + 1] == tiers[..i] + [tiers[i]];
      }
      assert tiers[..|tiers|] == tiers;
    }
  }
}
