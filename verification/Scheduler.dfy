/** The admission scheduler as a step machine: the queue manager, its worker tasks, and the
    per-client permits that a worker takes while it holds its slot. One step is the code
    between two suspension points of the event loop. */
module Scheduler {
  import opened Common
  import opened Queue
  import opened Concurrency

  /** Where a worker task is suspended. Ready: at the top of its loop, about to wait for the
      event. Parked: in the event's waiters. Woken: released by the event, not yet run.
      CapWait: in its client's semaphore. Granted: handed a permit there, not yet run.
      Upstream: inside the upstream call. Crashed: ended by an exception. */
  datatype Phase =
    | Ready
    | Parked
    | Woken
    | CapWait(item: Item)
    | Granted(item: Item)
    | Upstream(item: Item)
    | Crashed
  {
    predicate Busy() {
      CapWait? || Granted? || Upstream?
    }
  }

  /** `bypasses` counts, per client, the acquisitions that took no permit. */
  datatype State = State(
    q: QState,
    workers: seq<Phase>,
    clients: map<string, Client>,
    bypasses: map<string, nat>)

  datatype Step =
    | Arrive(item: Item)
    | RunWorker(w: nat, now: real)
    | ResumeWorker(w: nat)
    | UpstreamReturns(w: nat, ok: bool)
    | FlushCall(which: Option<Tier>)
    | PauseCall(which: Option<Tier>)
    | ResumeCall(which: Option<Tier>)
    | CancelFuture(id: nat)

  /** The steps the proxy takes by itself; the others are requests from outside. */
  predicate Internal(e: Step) {
    e.RunWorker? || e.ResumeWorker? || e.UpstreamReturns?
  }

  function Init(cfg: Config): State {
    State(Start(cfg), seq(cfg.workers, _ => Ready),
          map id | id in cfg.caps :: NewClient(cfg.caps[id]),
          map id | id in cfg.caps :: 0)
  }

  predicate Known(s: State, client: Option<string>) {
    client.Some? && client.value in s.clients && client.value in s.bypasses
  }

  // ---- steps ---------------------------------------------------------------

  /** asyncio.Event.set: every parked worker becomes runnable. */
  function WakeParked(ws: seq<Phase>): seq<Phase> {
    seq(|ws|, i requires 0 <= i < |ws| => if ws[i].Parked? then Woken else ws[i])
  }

  function ArriveStep(cfg: Config, s: State, item: Item): State {
    var s1 := s.(q := Enqueue(cfg, s.q, item));
    if EnqueueOutcomeOf(cfg, s.q, item).Admitted? then s1.(workers := WakeParked(s.workers)) else s1
  }

  /** dispatch_fn up to its first suspension: the client's cap, then the upstream call. */
  function StartDispatch(s: State, w: nat, item: Item): State
    requires w < |s.workers|
  {
    if !Known(s, item.client) then s.(workers := s.workers[w := Upstream(item)])
    else
      var id := item.client.value;
      var c := s.clients[id];
      s.(workers := s.workers[w := if Blocks(c, item.reentries) then CapWait(item) else Upstream(item)],
         clients := s.clients[id := Acquire(c, item.reentries, w)],
         bypasses := s.bypasses[id := s.bypasses[id] + Bit(Bypasses(c, item.reentries))])
  }

  function RunStep(cfg: Config, s: State, w: nat, now: real): State
    requires w < |s.workers|
  {
    if s.workers[w].Ready? && !s.q.hasItems then s.(workers := s.workers[w := Parked])
    else
      var (q1, got) := Take(s.q);
      match got
      case None => s.(q := q1, workers := s.workers[w := Ready])
      case Some(item) =>
        var s1 := s.(q := Begin(cfg, q1, item, now));
        match VerdictOf(cfg, q1, item, now)
        case Dispatch => StartDispatch(s1, w, item)
        case Discarded => s1.(workers := s.workers[w := Ready])
        case WorkerDied => s1.(workers := s.workers[w := Crashed])
  }

  /** The worker whose turn in a semaphore has come can run again. */
  function Grant(ws: seq<Phase>, woken: Option<nat>): seq<Phase> {
    if woken.Some? && woken.value < |ws| && ws[woken.value].CapWait?
    then ws[woken.value := Granted(ws[woken.value].item)] else ws
  }

  function ResumeStep(s: State, w: nat): State
    requires w < |s.workers| && s.workers[w].Granted?
    requires Known(s, s.workers[w].item.client) && s.clients[s.workers[w].item.client.value].granted > 0
  {
    var item := s.workers[w].item;
    var id := item.client.value;
    var c := ResumeWaiter(s.clients[id]);
    s.(workers := Grant(s.workers[w := Upstream(item)], Awakened(s.clients[id], c)),
       clients := s.clients[id := c])
  }

  function FinishStep(s: State, w: nat, ok: bool): State
    requires w < |s.workers| && s.workers[w].Upstream?
  {
    var item := s.workers[w].item;
    var s1 := s.(q := Complete(s.q, item, ok), workers := s.workers[w := Ready]);
    if !Known(s, item.client) then s1
    else
      var id := item.client.value;
      var c := ReleaseClient(s.clients[id]);
      s1.(workers := Grant(s1.workers, Awakened(s.clients[id], c)), clients := s.clients[id := c])
  }

  predicate Enabled(cfg: Config, s: State, e: Step) {
    match e
    case Arrive(item) => item.id !in s.q.futures
    case RunWorker(w, _) =>
      w < |s.workers| && (s.workers[w].Ready? || s.workers[w].Woken?) && s.q.slots > 0
    case ResumeWorker(w) =>
      && w < |s.workers| && s.workers[w].Granted? && Known(s, s.workers[w].item.client)
      && s.clients[s.workers[w].item.client.value].granted > 0
    case UpstreamReturns(w, _) => w < |s.workers| && s.workers[w].Upstream?
    case CancelFuture(id) => IsPending(s.q.futures, id)
    case _ => true
  }

  function Next(cfg: Config, s: State, e: Step): State
    requires Enabled(cfg, s, e)
  {
    match e
    case Arrive(item) => ArriveStep(cfg, s, item)
    case RunWorker(w, now) => RunStep(cfg, s, w, now)
    case ResumeWorker(w) => ResumeStep(s, w)
    case UpstreamReturns(w, ok) => FinishStep(s, w, ok)
    case FlushCall(which) => s.(q := FlushTiers(s.q, TiersOf(which)).q)
    case PauseCall(which) => s.(q := PauseTiers(s.q, which))
    case ResumeCall(which) => s.(q := ResumeTiers(s.q, which))
    case CancelFuture(id) => s.(q := s.q.(futures := s.q.futures[id := Cancelled]))
  }

  // ---- runs ----------------------------------------------------------------

  predicate ValidRun(cfg: Config, s: State, steps: seq<Step>)
    decreases |steps|
  {
    steps == [] || (Enabled(cfg, s, steps[0]) && ValidRun(cfg, Next(cfg, s, steps[0]), steps[1..]))
  }

  function RunFrom(cfg: Config, s: State, steps: seq<Step>): State
    requires ValidRun(cfg, s, steps)
    decreases |steps|
  {
    if steps == [] then s else RunFrom(cfg, Next(cfg, s, steps[0]), steps[1..])
  }

  ghost predicate Reachable(cfg: Config, s: State) {
    exists steps :: ValidRun(cfg, Init(cfg), steps) && RunFrom(cfg, Init(cfg), steps) == s
  }

  lemma {:induction false} RunsCompose(cfg: Config, s: State, a: seq<Step>, b: seq<Step>)
    requires ValidRun(cfg, s, a) && ValidRun(cfg, RunFrom(cfg, s, a), b)
    ensures ValidRun(cfg, s, a + b) && RunFrom(cfg, s, a + b) == RunFrom(cfg, RunFrom(cfg, s, a), b)
    decreases |a|
  {
    if a == [] {
      assert a + b == b;
    } else {
      assert (a + b)[1..] == a[1..] + b;
      RunsCompose(cfg, Next(cfg, s, a[0]), a[1..], b);
    }
  }

  lemma ReachableExtends(cfg: Config, s: State, steps: seq<Step>)
    requires Reachable(cfg, s) && ValidRun(cfg, s, steps)
    ensures Reachable(cfg, RunFrom(cfg, s, steps))
  {
    var before :| ValidRun(cfg, Init(cfg), before) && RunFrom(cfg, Init(cfg), before) == s;
    RunsCompose(cfg, Init(cfg), before, steps);
  }

  lemma ReachableStep(cfg: Config, s: State, e: Step)
    requires Reachable(cfg, s) && Enabled(cfg, s, e)
    ensures Reachable(cfg, Next(cfg, s, e))
  {
    assert [e][1..] == [];
    assert RunFrom(cfg, Next(cfg, s, e), [e][1..]) == Next(cfg, s, e);
    assert ValidRun(cfg, s, [e]) && RunFrom(cfg, s, [e]) == Next(cfg, s, e);
    ReachableExtends(cfg, s, [e]);
  }

  lemma InitReachable(cfg: Config)
    ensures Reachable(cfg, Init(cfg))
  {
    assert ValidRun(cfg, Init(cfg), []) && RunFrom(cfg, Init(cfg), []) == Init(cfg);
  }

  // ---- counting workers ----------------------------------------------------

  datatype Kind =
    | KReady | KParked | KWoken | KCrashed | KBusy
    | KWaits | KGranted | KUpstream
    | KWaitsFor(client: string) | KGrantedFor(client: string) | KUpstreamFor(client: string)
    | KTier(t: Tier) | KHolds(id: nat)

  predicate Is(k: Kind, p: Phase) {
    match k
    case KReady => p.Ready?
    case KParked => p.Parked?
    case KWoken => p.Woken?
    case KCrashed => p.Crashed?
    case KBusy => p.Busy()
    case KWaits => p.CapWait?
    case KGranted => p.Granted?
    case KUpstream => p.Upstream?
    case KWaitsFor(c) => p.CapWait? && p.item.client == Some(c)
    case KGrantedFor(c) => p.Granted? && p.item.client == Some(c)
    case KUpstreamFor(c) => p.Upstream? && p.item.client == Some(c)
    case KTier(t) => p.Busy() && p.item.tier == t
    case KHolds(id) => p.Busy() && p.item.id == id
  }

  function Count(ws: seq<Phase>, k: Kind): nat {
    if ws == [] then 0 else Bit(Is(k, ws[0])) + Count(ws[1..], k)
  }

  function CountId(items: seq<Item>, id: nat): nat {
    if items == [] then 0 else Bit(items[0].id == id) + CountId(items[1..], id)
  }

  function Bytes(items: seq<Item>): nat {
    if items == [] then 0 else items[0].nbytes + Bytes(items[1..])
  }

  function WaitingBytes(q: QState): nat {
    Bytes(q.queues.high) + Bytes(q.queues.normal) + Bytes(q.queues.low)
  }

  function Waiting(q: QState): nat {
    |q.queues.high| + |q.queues.normal| + |q.queues.low|
  }

  /** How many places hold the item `id`: waiting in a tier, or held by a worker. */
  function Places(queues: PerTier<seq<Item>>, ws: seq<Phase>, id: nat): nat {
    CountId(queues.high, id) + CountId(queues.normal, id) + CountId(queues.low, id) + Count(ws, KHolds(id))
  }

  lemma {:induction false} CountUpdate(ws: seq<Phase>, w: nat, p: Phase, k: Kind)
    requires w < |ws|
    ensures Count(ws[w := p], k) == Count(ws, k) - Bit(Is(k, ws[w])) + Bit(Is(k, p))
  {
    if w == 0 {
      assert ws[w := p][1..] == ws[1..];
    } else {
      assert ws[w := p][1..] == ws[1..][w - 1 := p];
      CountUpdate(ws[1..], w - 1, p, k);
    }
  }

  lemma CountUpdates(ws: seq<Phase>, w: nat, p: Phase)
    requires w < |ws|
    ensures forall k :: Count(ws[w := p], k) == Count(ws, k) - Bit(Is(k, ws[w])) + Bit(Is(k, p))
  {
    forall k ensures Count(ws[w := p], k) == Count(ws, k) - Bit(Is(k, ws[w])) + Bit(Is(k, p)) {
      CountUpdate(ws, w, p, k);
    }
  }

  lemma {:induction false} CountBound(ws: seq<Phase>, k: Kind, w: nat)
    requires w < |ws|
    ensures 0 <= Count(ws, k) <= |ws|
    ensures Is(k, ws[w]) ==> Count(ws, k) >= 1
    ensures !Is(k, ws[w]) ==> Count(ws, k) < |ws|
  {
    if |ws| > 1 {
      CountBound(ws[1..], k, if w == 0 then 0 else w - 1);
    }
  }

  lemma {:induction false} CountWitness(ws: seq<Phase>, k: Kind) returns (w: nat)
    requires Count(ws, k) > 0
    ensures w < |ws| && Is(k, ws[w])
  {
    if Is(k, ws[0]) {
      w := 0;
    } else {
      w := CountWitness(ws[1..], k);
      w := w + 1;
    }
  }

  lemma {:induction false} CountWakeParked(ws: seq<Phase>, k: Kind)
    ensures k == KParked ==> Count(WakeParked(ws), k) == 0
    ensures k == KWoken ==> Count(WakeParked(ws), k) == Count(ws, KWoken) + Count(ws, KParked)
    ensures k != KParked && k != KWoken ==> Count(WakeParked(ws), k) == Count(ws, k)
  {
    if ws != [] {
      assert WakeParked(ws)[1..] == WakeParked(ws[1..]);
      CountWakeParked(ws[1..], k);
    }
  }

  lemma {:induction false} CountNone(ws: seq<Phase>, k: Kind)
    requires forall w :: 0 <= w < |ws| ==> !Is(k, ws[w])
    ensures Count(ws, k) == 0
  {
    if ws != [] {
      CountNone(ws[1..], k);
    }
  }

  lemma {:induction false} CountIdAppend(a: seq<Item>, b: seq<Item>, id: nat)
    ensures CountId(a + b, id) == CountId(a, id) + CountId(b, id)
  {
    if a == [] {
      assert a + b == b;
    } else {
      assert (a + b)[1..] == a[1..] + b;
      CountIdAppend(a[1..], b, id);
    }
  }

  lemma {:induction false} BytesAppend(a: seq<Item>, b: seq<Item>)
    ensures Bytes(a + b) == Bytes(a) + Bytes(b)
  {
    if a == [] {
      assert a + b == b;
    } else {
      assert (a + b)[1..] == a[1..] + b;
      BytesAppend(a[1..], b);
    }
  }
}
