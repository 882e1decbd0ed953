/** What every step of the scheduler keeps, group by group. */
module SchedulerInvariant {
  import opened Common
  import opened Queue
  import opened Concurrency
  import opened Scheduler

  /** The worker semaphore counts idle workers; `_active` counts busy and crashed ones. */
  predicate SlotsInv(cfg: Config, q: QState, ws: seq<Phase>) {
    && |ws| == cfg.workers
    && q.slots + Count(ws, KBusy) == cfg.workers
    && q.active == Count(ws, KBusy) + Count(ws, KCrashed)
  }

  /** Nobody sleeps on the event while a tier holds an item. */
  predicate WakeInv(q: QState, ws: seq<Phase>) {
    && (!AllEmpty(q.queues) ==> q.hasItems)
    && (q.hasItems ==> Count(ws, KParked) == 0)
  }

  /** A semaphore's queue lists distinct workers that wait for this client. */
  predicate WaitersOk(ws: seq<Phase>, id: string, waiting: seq<nat>) {
    && (forall v :: v in waiting ==> v < |ws| && Is(KWaitsFor(id), ws[v]))
    && Distinct(waiting)
  }

  /** One client's books agree with the phases of the workers. */
  predicate Books(ws: seq<Phase>, id: string, c: Client, bypasses: nat) {
    && c.inflight == Count(ws, KUpstreamFor(id))
    && c.granted == Count(ws, KGrantedFor(id))
    && |c.waiting| == Count(ws, KWaitsFor(id))
    && c.capWaiting == c.granted + |c.waiting|
    && (if c.cap > 0 then c.permits + c.inflight + c.granted == c.cap + bypasses
        else c.permits == 0 && c.waiting == [] && c.granted == 0 && bypasses == 0)
    && WaitersOk(ws, id, c.waiting)
  }

  /** A permit lies idle beside a waiter only while another waiter is about to run. */
  predicate NoIdlePermit(c: Client) {
    c.permits > 0 && c.waiting != [] ==> c.granted > 0
  }

  /** Only workers serving a capped client are ever inside a semaphore. */
  predicate SemaphoresInv(cfg: Config, ws: seq<Phase>) {
    forall w :: 0 <= w < |ws| ==> InSemaphore(cfg, ws[w])
  }

  predicate ClientsInv(cfg: Config, ws: seq<Phase>, clients: map<string, Client>, bypasses: map<string, nat>) {
    && clients.Keys == cfg.caps.Keys && bypasses.Keys == cfg.caps.Keys
    && forall id :: id in clients ==>
         clients[id].cap == cfg.caps[id] && Books(ws, id, clients[id], bypasses[id]) && NoIdlePermit(clients[id])
  }

  predicate BytesInv(cfg: Config, q: QState) {
    && q.bytes == WaitingBytes(q) + q.hist.flushedBytes
    && (WaitingBytes(q) <= cfg.maxBytes || Waiting(q) <= 1)
  }

  /** Per tier: what was admitted is what left, followed by what still waits. */
  predicate HistoryInv(cfg: Config, q: QState) {
    forall t: Tier ::
      && q.hist.admitted.Get(t) == q.hist.departed.Get(t) + q.queues.Get(t)
      && (forall item :: item in q.hist.admitted.Get(t) ==> item.tier == t && item.id in q.futures)
      && (cfg.maxDepth.Get(t) > 0 ==> |q.queues.Get(t)| <= cfg.maxDepth.Get(t))
  }

  /** An item is in one place at most, and in one place exactly while its future is pending. */
  predicate PlaceOk(queues: PerTier<seq<Item>>, ws: seq<Phase>, futures: map<nat, Future>, id: nat) {
    && Places(queues, ws, id) <= 1
    && (IsPending(futures, id) ==> Places(queues, ws, id) == 1)
    && (Places(queues, ws, id) == 1 ==> id in futures && (futures[id].Pending? || futures[id].Cancelled?))
  }

  ghost predicate PlacesInv(queues: PerTier<seq<Item>>, ws: seq<Phase>, futures: map<nat, Future>) {
    forall id: nat :: PlaceOk(queues, ws, futures, id)
  }

  function Accounted(q: QState, ws: seq<Phase>, t: Tier): nat {
    |q.queues.Get(t)| + Count(ws, KTier(t)) + q.stats.Get(t).processed + q.stats.Get(t).expired
    + q.hist.failed.Get(t) + q.hist.flushed.Get(t) + q.hist.aborted.Get(t)
  }

  predicate CountersInv(q: QState, ws: seq<Phase>) {
    forall t: Tier :: |q.hist.admitted.Get(t)| == Accounted(q, ws, t)
  }

  ghost predicate Inv(cfg: Config, s: State) {
    && SlotsInv(cfg, s.q, s.workers)
    && WakeInv(s.q, s.workers)
    && SemaphoresInv(cfg, s.workers)
    && ClientsInv(cfg, s.workers, s.clients, s.bypasses)
    && BytesInv(cfg, s.q)
    && HistoryInv(cfg, s.q)
    && PlacesInv(s.q.queues, s.workers, s.q.futures)
    && CountersInv(s.q, s.workers)
  }

  lemma InitInv(cfg: Config)
    ensures Inv(cfg, Init(cfg))
  {
    var s := Init(cfg);
    InitCounts(s.workers);
    InitClientsInv(cfg, s.workers, s.clients, s.bypasses);
    InitPlaces(s.q, s.workers);
  }

  lemma InitCounts(ws: seq<Phase>)
    requires forall w :: 0 <= w < |ws| ==> ws[w].Ready?
    ensures forall k :: k != KReady ==> Count(ws, k) == 0
  {
    forall k: Kind | k != KReady ensures Count(ws, k) == 0 {
      CountNone(ws, k);
    }
  }

  lemma InitClientsInv(cfg: Config, ws: seq<Phase>, clients: map<string, Client>, bypasses: map<string, nat>)
    requires forall k :: k != KReady ==> Count(ws, k) == 0
    requires clients.Keys == cfg.caps.Keys && forall id :: id in clients ==> clients[id] == NewClient(cfg.caps[id])
    requires bypasses.Keys == cfg.caps.Keys && forall id :: id in bypasses ==> bypasses[id] == 0
    ensures ClientsInv(cfg, ws, clients, bypasses)
  {
    hide Count;
    forall id | id in clients ensures Books(ws, id, clients[id], bypasses[id]) && NoIdlePermit(clients[id]) {
      assert Count(ws, KUpstreamFor(id)) == 0 && Count(ws, KGrantedFor(id)) == 0 && Count(ws, KWaitsFor(id)) == 0;
    }
  }

  lemma InitPlaces(q: QState, ws: seq<Phase>)
    requires AllEmpty(q.queues) && q.futures == map[] && forall k :: k != KReady ==> Count(ws, k) == 0
    ensures PlacesInv(q.queues, ws, q.futures)
  {
    forall id: nat ensures PlaceOk(q.queues, ws, q.futures, id) {
      assert Count(ws, KHolds(id)) == 0;
    }
  }

  // ---- one client's books --------------------------------------------------

  /** The client in whose books the phase shows. */
  function ClientOf(p: Phase): Option<string> {
    if p.Busy() then p.item.client else None
  }

  predicate InSemaphore(cfg: Config, p: Phase) {
    p.CapWait? || p.Granted? ==>
      p.item.client.Some? && p.item.client.value in cfg.caps && cfg.caps[p.item.client.value] > 0
  }

  lemma BooksUntouched(ws: seq<Phase>, w: nat, p: Phase, id: string, c: Client, bypasses: nat)
    requires Books(ws, id, c, bypasses) && w < |ws|
    requires ClientOf(ws[w]) != Some(id) && ClientOf(p) != Some(id)
    ensures Books(ws[w := p], id, c, bypasses)
  {
    CountUpdate(ws, w, p, KUpstreamFor(id));
    CountUpdate(ws, w, p, KGrantedFor(id));
    CountUpdate(ws, w, p, KWaitsFor(id));
  }

  /** An arriving item enters its client's books: in flight, or waiting for a permit. */
  lemma BooksAcquire(ws: seq<Phase>, w: nat, item: Item, id: string, c: Client, bypasses: nat)
    requires Books(ws, id, c, bypasses) && NoIdlePermit(c) && w < |ws| && !ws[w].Busy()
    requires item.client == Some(id)
    ensures var p := if Blocks(c, item.reentries) then CapWait(item) else Upstream(item);
            && Books(ws[w := p], id, Acquire(c, item.reentries, w), bypasses + Bit(Bypasses(c, item.reentries)))
            && NoIdlePermit(Acquire(c, item.reentries, w))
  {
    var p := if Blocks(c, item.reentries) then CapWait(item) else Upstream(item);
    CountUpdate(ws, w, p, KUpstreamFor(id));
    CountUpdate(ws, w, p, KGrantedFor(id));
    CountUpdate(ws, w, p, KWaitsFor(id));
    DistinctAppend(c.waiting, w);
  }

  /** Handing a permit to the oldest waiter keeps the books and leaves no idle permit. */
  lemma BooksWake(ws: seq<Phase>, id: string, c: Client, bypasses: nat)
    requires Books(ws, id, c, bypasses) && c.permits > 0
    ensures Books(Grant(ws, Awakened(c, WakeNext(c))), id, WakeNext(c), bypasses)
    ensures NoIdlePermit(WakeNext(c))
    ensures c.waiting != [] ==>
              c.waiting[0] < |ws| && Is(KWaitsFor(id), ws[c.waiting[0]])
              && Grant(ws, Awakened(c, WakeNext(c))) == ws[c.waiting[0] := Granted(ws[c.waiting[0]].item)]
    ensures c.waiting == [] ==> Grant(ws, Awakened(c, WakeNext(c))) == ws
  {
    if c.waiting != [] {
      var v := c.waiting[0];
      assert v in c.waiting;
      var p := Granted(ws[v].item);
      CountUpdate(ws, v, p, KUpstreamFor(id));
      CountUpdate(ws, v, p, KGrantedFor(id));
      CountUpdate(ws, v, p, KWaitsFor(id));
      assert forall x :: x in c.waiting[1..] ==> x in c.waiting && x != v;
    }
  }

  /** The client after its granted waiter went ahead, before it passes a spare permit on. */
  function Resumed(c: Client): Client
    requires c.granted > 0
  {
    c.(granted := c.granted - 1, capWaiting := Max(0, c.capWaiting - 1), inflight := c.inflight + 1)
  }

  lemma BooksResume(ws: seq<Phase>, w: nat, id: string, c: Client, bypasses: nat)
    requires Books(ws, id, c, bypasses) && w < |ws| && Is(KGrantedFor(id), ws[w])
    ensures c.granted > 0 && Books(ws[w := Upstream(ws[w].item)], id, Resumed(c), bypasses)
  {
    var p := Upstream(ws[w].item);
    CountBound(ws, KGrantedFor(id), w);
    CountUpdate(ws, w, p, KUpstreamFor(id));
    CountUpdate(ws, w, p, KGrantedFor(id));
    CountUpdate(ws, w, p, KWaitsFor(id));
  }

  /** The client after a dispatch gave its permit back, before it goes to the next waiter. */
  function Returned(c: Client): Client {
    var c1 := c.(inflight := Max(0, c.inflight - 1));
    if c.cap == 0 then c1 else c1.(permits := c.permits + 1)
  }

  lemma BooksReturn(ws: seq<Phase>, w: nat, id: string, c: Client, bypasses: nat)
    requires Books(ws, id, c, bypasses) && w < |ws| && Is(KUpstreamFor(id), ws[w])
    ensures c.inflight > 0 && Books(ws[w := Ready], id, Returned(c), bypasses)
    ensures c.cap == 0 ==> c.waiting == []
  {
    CountBound(ws, KUpstreamFor(id), w);
    CountUpdate(ws, w, Ready, KUpstreamFor(id));
    CountUpdate(ws, w, Ready, KGrantedFor(id));
    CountUpdate(ws, w, Ready, KWaitsFor(id));
  }

  // ---- all clients ---------------------------------------------------------

  lemma ClientsUntouched(cfg: Config, ws: seq<Phase>, w: nat, p: Phase, clients: map<string, Client>, bypasses: map<string, nat>)
    requires ClientsInv(cfg, ws, clients, bypasses) && w < |ws|
    requires ClientOf(ws[w]).Some? ==> ClientOf(ws[w]).value !in clients
    requires ClientOf(p).Some? ==> ClientOf(p).value !in clients
    ensures ClientsInv(cfg, ws[w := p], clients, bypasses)
  {
    forall id | id in clients ensures Books(ws[w := p], id, clients[id], bypasses[id]) {
      BooksUntouched(ws, w, p, id, clients[id], bypasses[id]);
    }
  }

  lemma ClientsTouchedOnce(cfg: Config, ws: seq<Phase>, w: nat, p: Phase, id: string, c: Client, b: nat,
                           clients: map<string, Client>, bypasses: map<string, nat>)
    requires ClientsInv(cfg, ws, clients, bypasses) && w < |ws| && id in clients
    requires (ClientOf(ws[w]) == None || ClientOf(ws[w]) == Some(id)) && (ClientOf(p) == None || ClientOf(p) == Some(id))
    requires c.cap == clients[id].cap && Books(ws[w := p], id, c, b)
    ensures forall x :: x in clients && x != id ==> Books(ws[w := p], x, clients[x], bypasses[x])
    ensures NoIdlePermit(c) ==> ClientsInv(cfg, ws[w := p], clients[id := c], bypasses[id := b])
  {
    hide Books, NoIdlePermit, ClientOf;
    forall x | x in clients && x != id ensures Books(ws[w := p], x, clients[x], bypasses[x]) {
      BooksUntouched(ws, w, p, x, clients[x], bypasses[x]);
    }
  }

  /** Same counts for every kind that does not look inside the semaphores. */
  ghost predicate SameOutside(a: seq<Phase>, b: seq<Phase>) {
    && |a| == |b|
    && Count(a, KBusy) == Count(b, KBusy) && Count(a, KCrashed) == Count(b, KCrashed)
    && Count(a, KParked) == Count(b, KParked)
    && (forall t :: Count(a, KTier(t)) == Count(b, KTier(t)))
    && (forall id :: Count(a, KHolds(id)) == Count(b, KHolds(id)))
  }

  lemma BusyMoves(ws: seq<Phase>, w: nat, p: Phase)
    requires w < |ws| && ws[w].Busy() && p.Busy() && p.item == ws[w].item
    ensures SameOutside(ws, ws[w := p])
  {
    CountUpdates(ws, w, p);
  }

  /** One worker of client `id` moves from waiting to granted: the others do not notice. */
  lemma WakeOthers(ws: seq<Phase>, v: nat, id: string, x: string, c: Client, bypasses: nat)
    requires v < |ws| && Is(KWaitsFor(id), ws[v]) && x != id && Books(ws, x, c, bypasses)
    ensures Books(ws[v := Granted(ws[v].item)], x, c, bypasses)
  {
    BooksUntouched(ws, v, Granted(ws[v].item), x, c, bypasses);
  }

  /** Once the books of `id` show a permit to give away, waking its next waiter restores
      the whole invariant. */
  lemma WakeClients(cfg: Config, ws: seq<Phase>, id: string, c: Client, clients: map<string, Client>, bypasses: map<string, nat>)
    requires clients.Keys == cfg.caps.Keys && bypasses.Keys == cfg.caps.Keys && id in clients
    requires forall x :: x in clients ==> clients[x].cap == cfg.caps[x]
    requires forall x :: x in clients && x != id ==> Books(ws, x, clients[x], bypasses[x]) && NoIdlePermit(clients[x])
    requires c.cap == clients[id].cap && Books(ws, id, c, bypasses[id]) && c.permits > 0
    ensures ClientsInv(cfg, Grant(ws, Awakened(c, WakeNext(c))), clients[id := WakeNext(c)], bypasses)
  {
    hide Books, NoIdlePermit, Grant, Awakened;
    var ws2 := Grant(ws, Awakened(c, WakeNext(c)));
    var clients2 := clients[id := WakeNext(c)];
    BooksWake(ws, id, c, bypasses[id]);
    forall x | x in clients2
      ensures clients2[x].cap == cfg.caps[x] && Books(ws2, x, clients2[x], bypasses[x]) && NoIdlePermit(clients2[x])
    {
      if x != id && c.waiting != [] {
        WakeOthers(ws, c.waiting[0], id, x, clients[x], bypasses[x]);
      }
    }
  }

  lemma WakeOutside(cfg: Config, ws: seq<Phase>, id: string, c: Client, bypasses: nat)
    requires Books(ws, id, c, bypasses) && c.permits > 0 && SemaphoresInv(cfg, ws)
    ensures SemaphoresInv(cfg, Grant(ws, Awakened(c, WakeNext(c))))
    ensures SameOutside(ws, Grant(ws, Awakened(c, WakeNext(c))))
  {
    BooksWake(ws, id, c, bypasses);
    if c.waiting != [] {
      var v := c.waiting[0];
      assert InSemaphore(cfg, ws[v]);
      BusyMoves(ws, v, Granted(ws[v].item));
    }
  }

  /** A step that moves worker `w` and leaves a permit in `id`'s semaphore, then wakes. */
  lemma MoveAndWake(cfg: Config, ws: seq<Phase>, w: nat, p: Phase, id: string, c: Client,
                    clients: map<string, Client>, bypasses: map<string, nat>)
    requires ClientsInv(cfg, ws, clients, bypasses) && w < |ws| && id in clients
    requires (ClientOf(ws[w]) == None || ClientOf(ws[w]) == Some(id)) && (ClientOf(p) == None || ClientOf(p) == Some(id))
    requires c.cap == clients[id].cap && Books(ws[w := p], id, c, bypasses[id]) && c.permits > 0
    requires SemaphoresInv(cfg, ws[w := p])
    ensures var ws2 := Grant(ws[w := p], Awakened(c, WakeNext(c)));
            && ClientsInv(cfg, ws2, clients[id := WakeNext(c)], bypasses)
            && SemaphoresInv(cfg, ws2) && SameOutside(ws[w := p], ws2)
  {
    hide Books, NoIdlePermit, ClientOf, Grant, Awakened, WakeNext, SameOutside;
    ClientsTouchedOnce(cfg, ws, w, p, id, c, bypasses[id], clients, bypasses);
    WakeClients(cfg, ws[w := p], id, c, clients, bypasses);
    WakeOutside(cfg, ws[w := p], id, c, bypasses[id]);
  }

  // ---- queue-side pieces ---------------------------------------------------

  /** How popping the head of tier `t` changes the queue-side measures. */
  lemma PopFacts(q: QState, t: Tier)
    requires q.queues.Get(t) != []
    ensures var q1 := Pop(q, t); var item := q.queues.Get(t)[0];
            && WaitingBytes(q1) == WaitingBytes(q) - item.nbytes
            && Waiting(q1) == Waiting(q) - 1
  {
  }

  lemma PopPlaces(q: QState, t: Tier, ws: seq<Phase>, w: nat, p: Phase, id: nat)
    requires q.queues.Get(t) != [] && w < |ws| && !ws[w].Busy()
    ensures Places(Pop(q, t).queues, ws, id) == Places(q.queues, ws, id) - Bit(q.queues.Get(t)[0].id == id)
    ensures Places(Pop(q, t).queues, ws[w := p], id)
            == Places(q.queues, ws, id) - Bit(q.queues.Get(t)[0].id == id) + Bit(Is(KHolds(id), p))
  {
    CountUpdate(ws, w, p, KHolds(id));
  }

  /** Popping keeps the history invariant; whatever else the step does to the queue state
      must leave queues, histories and the set of known futures alone. */
  lemma PopHistory(cfg: Config, q: QState, t: Tier, q2: QState)
    requires HistoryInv(cfg, q) && q.queues.Get(t) != []
    requires q2.queues == Pop(q, t).queues
    requires q2.hist.admitted == q.hist.admitted && q2.hist.departed == Pop(q, t).hist.departed
    requires q.futures.Keys <= q2.futures.Keys
    ensures HistoryInv(cfg, q2)
    ensures q.queues.Get(t)[0].tier == t && q.queues.Get(t)[0].id in q.futures
  {
    var item := q.queues.Get(t)[0];
    assert item in q.hist.admitted.Get(t) by {
      assert item == q.hist.admitted.Get(t)[|q.hist.departed.Get(t)|];
    }
    forall u: Tier ensures q2.hist.admitted.Get(u) == q2.hist.departed.Get(u) + q2.queues.Get(u) {
      if u == t {
        assert q.queues.Get(t) == [item] + q.queues.Get(t)[1..];
      }
    }
  }

  // ---- arrivals ------------------------------------------------------------

  lemma AdmitKeepsBytes(cfg: Config, q: QState, item: Item)
    requires BytesInv(cfg, q) && EnqueueOutcomeOf(cfg, q, item).Admitted?
    ensures BytesInv(cfg, Admit(q, item))
  {
    BytesAppend(q.queues.Get(item.tier), [item]);
    assert Bytes([item]) == item.nbytes;
    assert WaitingBytes(Admit(q, item)) == WaitingBytes(q) + item.nbytes;
  }

  lemma AdmitKeepsHistory(cfg: Config, q: QState, item: Item)
    requires HistoryInv(cfg, q) && EnqueueOutcomeOf(cfg, q, item).Admitted?
    ensures HistoryInv(cfg, Admit(q, item))
  {
    var t := item.tier;
    var q1 := Admit(q, item);
    forall u: Tier ensures q1.hist.admitted.Get(u) == q1.hist.departed.Get(u) + q1.queues.Get(u) {
      if u == t {
        assert q.hist.admitted.Get(t) + [item] == q.hist.departed.Get(t) + (q.queues.Get(t) + [item]);
      }
    }
  }

  lemma AdmitPlaces(q: QState, item: Item, ws: seq<Phase>, id: nat)
    ensures Places(Admit(q, item).queues, ws, id) == Places(q.queues, ws, id) + Bit(item.id == id)
  {
    CountIdAppend(q.queues.Get(item.tier), [item], id);
  }

  lemma BooksWakeParked(ws: seq<Phase>, id: string, c: Client, bypasses: nat)
    requires Books(ws, id, c, bypasses)
    ensures Books(WakeParked(ws), id, c, bypasses)
  {
    CountWakeParked(ws, KUpstreamFor(id));
    CountWakeParked(ws, KGrantedFor(id));
    CountWakeParked(ws, KWaitsFor(id));
  }

  lemma ClientsWakeParked(cfg: Config, ws: seq<Phase>, clients: map<string, Client>, bypasses: map<string, nat>)
    requires ClientsInv(cfg, ws, clients, bypasses)
    ensures ClientsInv(cfg, WakeParked(ws), clients, bypasses)
  {
    forall id | id in clients ensures Books(WakeParked(ws), id, clients[id], bypasses[id]) {
      BooksWakeParked(ws, id, clients[id], bypasses[id]);
    }
  }

  lemma ParkedWake(ws: seq<Phase>)
    ensures SameBut(ws, WakeParked(ws)) && Count(WakeParked(ws), KParked) == 0
  {
    forall k ensures k == KParked ==> Count(WakeParked(ws), k) == 0
             ensures k != KParked && k != KWoken ==> Count(WakeParked(ws), k) == Count(ws, k)
    {
      CountWakeParked(ws, k);
    }
  }

  ghost predicate SameBut(a: seq<Phase>, b: seq<Phase>) {
    |a| == |b| && forall k :: k != KParked && k != KWoken ==> Count(a, k) == Count(b, k)
  }

  lemma AdmitKeepsPlaces(q: QState, item: Item, ws: seq<Phase>, ws2: seq<Phase>)
    requires PlacesInv(q.queues, ws, q.futures) && item.id !in q.futures && SameBut(ws, ws2)
    ensures var q2 := Admit(q, item); PlacesInv(q2.queues, ws2, q2.futures)
  {
    hide CountId;
    var q2 := Admit(q, item);
    forall id: nat ensures PlaceOk(q2.queues, ws2, q2.futures, id) {
      assert PlaceOk(q.queues, ws, q.futures, id);
      assert PlaceOk(q.queues, ws, q.futures, item.id);
      AdmitPlaces(q, item, ws, id);
      assert Count(ws2, KHolds(id)) == Count(ws, KHolds(id));
    }
  }

  lemma AdmitKeepsCounters(q: QState, item: Item, ws: seq<Phase>, ws2: seq<Phase>)
    requires CountersInv(q, ws) && SameBut(ws, ws2)
    ensures CountersInv(Admit(q, item), ws2)
  {
    var q2 := Admit(q, item);
    forall t: Tier ensures |q2.hist.admitted.Get(t)| == Accounted(q2, ws2, t) {
      assert |q.hist.admitted.Get(t)| == Accounted(q, ws, t);
      assert Count(ws2, KTier(t)) == Count(ws, KTier(t));
    }
  }

  lemma ArriveKeepsInv(cfg: Config, s: State, item: Item)
    requires Inv(cfg, s) && item.id !in s.q.futures
    ensures Inv(cfg, ArriveStep(cfg, s, item))
  {
    hide Books, NoIdlePermit, Places, Full, HistoryInv, BytesInv, PlacesInv, CountersInv, ClientsInv;
    var s2 := ArriveStep(cfg, s, item);
    if EnqueueOutcomeOf(cfg, s.q, item).Admitted? {
      ParkedWake(s.workers);
      ClientsWakeParked(cfg, s.workers, s.clients, s.bypasses);
      AdmitKeepsBytes(cfg, s.q, item);
      AdmitKeepsHistory(cfg, s.q, item);
      AdmitKeepsPlaces(s.q, item, s.workers, s2.workers);
      AdmitKeepsCounters(s.q, item, s.workers, s2.workers);
    } else {
      SideStep(cfg, s, s2);
    }
  }

  /** A step that only touches refusal counts or the paused set. */
  lemma SideStep(cfg: Config, s: State, s2: State)
    requires Inv(cfg, s)
    requires s2.workers == s.workers && s2.clients == s.clients && s2.bypasses == s.bypasses
    requires s2.q.queues == s.q.queues && s2.q.bytes == s.q.bytes && s2.q.hasItems == s.q.hasItems
    requires s2.q.active == s.q.active && s2.q.slots == s.q.slots
    requires s2.q.futures == s.q.futures && s2.q.hist == s.q.hist
    requires forall t :: s2.q.stats.Get(t).processed == s.q.stats.Get(t).processed
                         && s2.q.stats.Get(t).expired == s.q.stats.Get(t).expired
    ensures Inv(cfg, s2)
  {
    forall t: Tier ensures |s2.q.hist.admitted.Get(t)| == Accounted(s2.q, s2.workers, t) {
      assert |s.q.hist.admitted.Get(t)| == Accounted(s.q, s.workers, t);
    }
  }

  // ---- a worker's turn -----------------------------------------------------

  lemma IdleKeepsHistory(cfg: Config, q: QState, q2: QState)
    requires HistoryInv(cfg, q) && q2 == q.(hasItems := q2.hasItems)
    ensures HistoryInv(cfg, q2)
  {
    assert q2.hist == q.hist && q2.queues == q.queues && q2.futures == q.futures;
  }

  lemma IdleKeepsPlaces(q: QState, q2: QState, ws: seq<Phase>, w: nat, p: Phase)
    requires w < |ws| && !ws[w].Busy() && !p.Busy() && q2 == q.(hasItems := q2.hasItems)
    requires PlacesInv(q.queues, ws, q.futures) && CountersInv(q, ws)
    ensures PlacesInv(q2.queues, ws[w := p], q2.futures) && CountersInv(q2, ws[w := p])
  {
    var ws2 := ws[w := p];
    forall id: nat ensures PlaceOk(q2.queues, ws2, q2.futures, id) {
      assert PlaceOk(q.queues, ws, q.futures, id);
      CountUpdate(ws, w, p, KHolds(id));
    }
    forall t: Tier ensures |q2.hist.admitted.Get(t)| == Accounted(q2, ws2, t) {
      assert |q.hist.admitted.Get(t)| == Accounted(q, ws, t);
      CountUpdate(ws, w, p, KTier(t));
    }
  }

  /** The turn finds nothing: the worker parks, or clears the event and loops. */
  lemma IdleTurnKeepsInv(cfg: Config, s: State, w: nat, now: real)
    requires Inv(cfg, s) && Enabled(cfg, s, RunWorker(w, now))
    requires (s.workers[w].Ready? && !s.q.hasItems) || NextTier(s.q.queues) == None
    ensures Inv(cfg, RunStep(cfg, s, w, now))
  {
    hide ClientsInv, PlacesInv, CountersInv, HistoryInv;
    var s2 := RunStep(cfg, s, w, now);
    var p := if s.workers[w].Ready? && !s.q.hasItems then Parked else Ready;
    CountUpdates(s.workers, w, p);
    ClientsUntouched(cfg, s.workers, w, p, s.clients, s.bypasses);
    IdleKeepsHistory(cfg, s.q, s2.q);
    IdleKeepsPlaces(s.q, s2.q, s.workers, w, p);
  }

  /** Worker `w` takes the next item and ends its turn in phase `p`, leaving queue state `q2`. */
  predicate TakingTurn(cfg: Config, q: QState, ws: seq<Phase>, w: nat, now: real, p: Phase, q2: QState) {
    && w < |ws| && (ws[w].Ready? || ws[w].Woken?)
    && NextTier(q.queues).Some?
    && q2 == Begin(cfg, Take(q).0, Take(q).1.value, now)
    && match VerdictOf(cfg, Take(q).0, Take(q).1.value, now)
       case Dispatch => p.Busy() && p.item == Take(q).1.value
       case Discarded => p.Ready?
       case WorkerDied => p.Crashed?
  }

  lemma TakingTurnQueue(cfg: Config, q: QState, ws: seq<Phase>, w: nat, now: real, p: Phase, q2: QState)
    requires TakingTurn(cfg, q, ws, w, now, p, q2)
    requires SlotsInv(cfg, q, ws) && WakeInv(q, ws) && BytesInv(cfg, q) && HistoryInv(cfg, q)
    ensures SlotsInv(cfg, q2, ws[w := p]) && WakeInv(q2, ws[w := p]) && BytesInv(cfg, q2) && HistoryInv(cfg, q2)
  {
    var t := NextTier(q.queues).value;
    CountUpdate(ws, w, p, KBusy);
    CountUpdate(ws, w, p, KCrashed);
    CountUpdate(ws, w, p, KParked);
    PopFacts(q, t);
    PopHistory(cfg, q, t, q2);
    assert WaitingBytes(q2) == WaitingBytes(Pop(q, t)) && Waiting(q2) == Waiting(Pop(q, t));
  }

  lemma TakingTurnPlaces(cfg: Config, q: QState, ws: seq<Phase>, w: nat, now: real, p: Phase, q2: QState)
    requires TakingTurn(cfg, q, ws, w, now, p, q2)
    requires PlacesInv(q.queues, ws, q.futures)
    ensures PlacesInv(q2.queues, ws[w := p], q2.futures)
  {
    var t := NextTier(q.queues).value;
    var item := q.queues.Get(t)[0];
    assert q2.queues == Pop(q, t).queues;
    var ws2 := ws[w := p];
    forall id: nat ensures PlaceOk(q2.queues, ws2, q2.futures, id) {
      assert PlaceOk(q.queues, ws, q.futures, id);
      PopPlaces(q, t, ws, w, p, id);
    }
  }

  lemma TakingTurnCounters(cfg: Config, q: QState, ws: seq<Phase>, w: nat, now: real, p: Phase, q2: QState)
    requires TakingTurn(cfg, q, ws, w, now, p, q2)
    requires HistoryInv(cfg, q) && CountersInv(q, ws)
    ensures CountersInv(q2, ws[w := p])
  {
    hide TooOld, IsPending, Count, HistoryInv;
    var t := NextTier(q.queues).value;
    PopHistory(cfg, q, t, Pop(q, t));
    forall u: Tier ensures |q2.hist.admitted.Get(u)| == Accounted(q2, ws[w := p], u) {
      assert |q.hist.admitted.Get(u)| == Accounted(q, ws, u);
      CountUpdate(ws, w, p, KTier(u));
    }
  }

  lemma SemaphoresUpdate(cfg: Config, ws: seq<Phase>, w: nat, p: Phase)
    requires SemaphoresInv(cfg, ws) && w < |ws| && InSemaphore(cfg, p)
    ensures SemaphoresInv(cfg, ws[w := p])
  {
  }

  lemma DispatchKnown(cfg: Config, ws: seq<Phase>, w: nat, item: Item, p: Phase, id: string, c2: Client, b2: nat,
                      clients: map<string, Client>, bypasses: map<string, nat>)
    requires ClientsInv(cfg, ws, clients, bypasses)
    requires w < |ws| && !ws[w].Busy() && id in clients && item.client == Some(id)
    requires p == if Blocks(clients[id], item.reentries) then CapWait(item) else Upstream(item)
    requires c2 == Acquire(clients[id], item.reentries, w)
    requires b2 == bypasses[id] + Bit(Bypasses(clients[id], item.reentries))
    ensures ClientsInv(cfg, ws[w := p], clients[id := c2], bypasses[id := b2])
  {
    assert c2.cap == clients[id].cap && ClientOf(p) == Some(id) && ClientOf(ws[w]) == None;
    assert Books(ws[w := p], id, c2, b2) && NoIdlePermit(c2) by {
      BooksAcquire(ws, w, item, id, clients[id], bypasses[id]);
    }
    ClientsTouchedOnce(cfg, ws, w, p, id, c2, b2, clients, bypasses);
  }

  lemma StartDispatchKeepsClients(cfg: Config, s: State, w: nat, item: Item)
    requires SemaphoresInv(cfg, s.workers) && ClientsInv(cfg, s.workers, s.clients, s.bypasses)
    requires w < |s.workers| && !s.workers[w].Busy()
    ensures var s2 := StartDispatch(s, w, item);
            SemaphoresInv(cfg, s2.workers) && ClientsInv(cfg, s2.workers, s2.clients, s2.bypasses)
  {
    var s2 := StartDispatch(s, w, item);
    var p := s2.workers[w];
    assert s2.workers == s.workers[w := p];
    if Known(s, item.client) {
      var id := item.client.value;
      assert s2.clients == s.clients[id := s2.clients[id]] && s2.bypasses == s.bypasses[id := s2.bypasses[id]];
      assert InSemaphore(cfg, p);
      DispatchKnown(cfg, s.workers, w, item, p, id, s2.clients[id], s2.bypasses[id], s.clients, s.bypasses);
    } else {
      ClientsUntouched(cfg, s.workers, w, p, s.clients, s.bypasses);
    }
    SemaphoresUpdate(cfg, s.workers, w, p);
  }

  /** The parts of a turn that takes an item. */
  lemma RunShape(cfg: Config, s: State, w: nat, now: real)
    requires w < |s.workers| && (s.workers[w].Ready? || s.workers[w].Woken?)
    requires !(s.workers[w].Ready? && !s.q.hasItems) && NextTier(s.q.queues).Some?
    ensures var s2 := RunStep(cfg, s, w, now);
            && |s2.workers| == |s.workers| && s2.workers == s.workers[w := s2.workers[w]]
            && TakingTurn(cfg, s.q, s.workers, w, now, s2.workers[w], s2.q)
            && (s2.workers[w].Busy() ==> s2 == StartDispatch(s.(q := s2.q), w, Take(s.q).1.value))
            && (!s2.workers[w].Busy() ==> s2.clients == s.clients && s2.bypasses == s.bypasses)
  {
  }

  lemma RunKeepsClients(cfg: Config, s: State, w: nat, now: real, s2: State)
    requires SemaphoresInv(cfg, s.workers) && ClientsInv(cfg, s.workers, s.clients, s.bypasses)
    requires w < |s.workers| && (s.workers[w].Ready? || s.workers[w].Woken?)
    requires |s2.workers| == |s.workers| && s2.workers == s.workers[w := s2.workers[w]]
    requires !s2.workers[w].Busy() ==> s2.clients == s.clients && s2.bypasses == s.bypasses
    requires s2.workers[w].Busy() ==> s2 == StartDispatch(s.(q := s2.q), w, s2.workers[w].item)
    ensures SemaphoresInv(cfg, s2.workers) && ClientsInv(cfg, s2.workers, s2.clients, s2.bypasses)
  {
    hide Books, NoIdlePermit, StartDispatch;
    if s2.workers[w].Busy() {
      StartDispatchKeepsClients(cfg, s.(q := s2.q), w, s2.workers[w].item);
    } else {
      ClientsUntouched(cfg, s.workers, w, s2.workers[w], s.clients, s.bypasses);
    }
  }

  lemma RunKeepsInv(cfg: Config, s: State, w: nat, now: real)
    requires Inv(cfg, s) && Enabled(cfg, s, RunWorker(w, now))
    ensures Inv(cfg, RunStep(cfg, s, w, now))
  {
    if (s.workers[w].Ready? && !s.q.hasItems) || NextTier(s.q.queues) == None {
      IdleTurnKeepsInv(cfg, s, w, now);
    } else {
      RunShape(cfg, s, w, now);
      var s2 := RunStep(cfg, s, w, now);
      RunKeepsClients(cfg, s, w, now, s2);
      TakingTurnQueue(cfg, s.q, s.workers, w, now, s2.workers[w], s2.q);
      TakingTurnPlaces(cfg, s.q, s.workers, w, now, s2.workers[w], s2.q);
      TakingTurnCounters(cfg, s.q, s.workers, w, now, s2.workers[w], s2.q);
    }
  }

  // ---- leaving a semaphore, leaving the upstream ---------------------------

  lemma OutsideUnchanged(cfg: Config, q: QState, ws: seq<Phase>, ws2: seq<Phase>)
    requires SameOutside(ws, ws2)
    requires SlotsInv(cfg, q, ws) && WakeInv(q, ws) && PlacesInv(q.queues, ws, q.futures) && CountersInv(q, ws)
    ensures SlotsInv(cfg, q, ws2) && WakeInv(q, ws2) && PlacesInv(q.queues, ws2, q.futures) && CountersInv(q, ws2)
  {
    forall id: nat ensures PlaceOk(q.queues, ws2, q.futures, id) {
      assert PlaceOk(q.queues, ws, q.futures, id);
      assert Count(ws, KHolds(id)) == Count(ws2, KHolds(id));
    }
    forall t: Tier ensures |q.hist.admitted.Get(t)| == Accounted(q, ws2, t) {
      assert |q.hist.admitted.Get(t)| == Accounted(q, ws, t);
      assert Count(ws, KTier(t)) == Count(ws2, KTier(t));
    }
  }

  lemma ResumeShape(s: State, w: nat)
    requires w < |s.workers| && s.workers[w].Granted?
    requires Known(s, s.workers[w].item.client) && s.clients[s.workers[w].item.client.value].granted > 0
    ensures var id := s.workers[w].item.client.value;
            var c1 := Resumed(s.clients[id]);
            var ws1 := s.workers[w := Upstream(s.workers[w].item)];
            var s2 := ResumeStep(s, w);
            && s2.bypasses == s.bypasses
            && (if c1.permits > 0
                then s2.workers == Grant(ws1, Awakened(c1, WakeNext(c1))) && s2.clients == s.clients[id := WakeNext(c1)]
                else s2.workers == ws1 && s2.clients == s.clients[id := c1])
  {
  }

  lemma ResumeKeepsClients(cfg: Config, s: State, w: nat)
    requires SemaphoresInv(cfg, s.workers) && ClientsInv(cfg, s.workers, s.clients, s.bypasses)
    requires Enabled(cfg, s, ResumeWorker(w))
    ensures var s2 := ResumeStep(s, w);
            && SemaphoresInv(cfg, s2.workers) && ClientsInv(cfg, s2.workers, s2.clients, s2.bypasses)
            && SameOutside(s.workers[w := Upstream(s.workers[w].item)], s2.workers)
  {
    hide Books, Grant, Awakened, WakeNext, ResumeStep, InSemaphore;
    var id := s.workers[w].item.client.value;
    var p := Upstream(s.workers[w].item);
    var c1 := Resumed(s.clients[id]);
    BooksResume(s.workers, w, id, s.clients[id], s.bypasses[id]);
    ResumeShape(s, w);
    SemaphoresUpdate(cfg, s.workers, w, p);
    if c1.permits > 0 {
      MoveAndWake(cfg, s.workers, w, p, id, c1, s.clients, s.bypasses);
    } else {
      ClientsTouchedOnce(cfg, s.workers, w, p, id, c1, s.bypasses[id], s.clients, s.bypasses);
      assert s.bypasses[id := s.bypasses[id]] == s.bypasses;
    }
  }

  lemma ResumeKeepsInv(cfg: Config, s: State, w: nat)
    requires Inv(cfg, s) && Enabled(cfg, s, ResumeWorker(w))
    ensures Inv(cfg, ResumeStep(s, w))
  {
    hide SlotsInv, WakeInv, SemaphoresInv, ClientsInv, BytesInv, HistoryInv, PlacesInv, CountersInv;
    var p := Upstream(s.workers[w].item);
    ResumeKeepsClients(cfg, s, w);
    BusyMoves(s.workers, w, p);
    OutsideUnchanged(cfg, s.q, s.workers, ResumeStep(s, w).workers);
  }

  /** The completion itself: the worker gives up its item, whose future is then done. */
  lemma CompleteKeepsRest(cfg: Config, q: QState, ws: seq<Phase>, w: nat, ok: bool)
    requires w < |ws| && ws[w].Upstream?
    requires SlotsInv(cfg, q, ws) && WakeInv(q, ws) && BytesInv(cfg, q) && HistoryInv(cfg, q)
    ensures var q2 := Complete(q, ws[w].item, ok);
            SlotsInv(cfg, q2, ws[w := Ready]) && WakeInv(q2, ws[w := Ready]) && BytesInv(cfg, q2) && HistoryInv(cfg, q2)
  {
    CountUpdate(ws, w, Ready, KBusy);
    CountUpdate(ws, w, Ready, KCrashed);
    CountUpdate(ws, w, Ready, KParked);
    var q2 := Complete(q, ws[w].item, ok);
    assert q2.queues == q.queues && q2.hist.admitted == q.hist.admitted && q2.hist.departed == q.hist.departed;
  }

  lemma CompleteKeepsPlaces(q: QState, ws: seq<Phase>, w: nat, ok: bool)
    requires w < |ws| && ws[w].Upstream?
    requires PlacesInv(q.queues, ws, q.futures)
    ensures var q2 := Complete(q, ws[w].item, ok); PlacesInv(q2.queues, ws[w := Ready], q2.futures)
  {
    var item := ws[w].item;
    var q2 := Complete(q, item, ok);
    CountBound(ws, KHolds(item.id), w);
    var ws2 := ws[w := Ready];
    forall id: nat ensures PlaceOk(q2.queues, ws2, q2.futures, id) {
      assert PlaceOk(q.queues, ws, q.futures, id);
      CountUpdate(ws, w, Ready, KHolds(id));
    }
  }

  lemma CompleteKeepsCounters(q: QState, ws: seq<Phase>, w: nat, ok: bool)
    requires w < |ws| && ws[w].Upstream? && CountersInv(q, ws)
    ensures CountersInv(Complete(q, ws[w].item, ok), ws[w := Ready])
  {
    hide IsPending;
    var q2 := Complete(q, ws[w].item, ok);
    forall t: Tier ensures |q2.hist.admitted.Get(t)| == Accounted(q2, ws[w := Ready], t) {
      assert |q.hist.admitted.Get(t)| == Accounted(q, ws, t);
      CountUpdate(ws, w, Ready, KTier(t));
    }
  }

  lemma FinishShape(s: State, w: nat, ok: bool)
    requires w < |s.workers| && s.workers[w].Upstream? && Known(s, s.workers[w].item.client)
    requires var c := s.clients[s.workers[w].item.client.value]; c.cap == 0 ==> c.waiting == []
    ensures var id := s.workers[w].item.client.value;
            var c1 := Returned(s.clients[id]);
            var ws1 := s.workers[w := Ready];
            var s2 := FinishStep(s, w, ok);
            && s2.bypasses == s.bypasses
            && (if c1.cap > 0
                then c1.permits > 0 && s2.workers == Grant(ws1, Awakened(c1, WakeNext(c1))) && s2.clients == s.clients[id := WakeNext(c1)]
                else s2.workers == ws1 && s2.clients == s.clients[id := c1])
  {
  }

  lemma FinishKeepsClients(cfg: Config, s: State, w: nat, ok: bool)
    requires SemaphoresInv(cfg, s.workers) && ClientsInv(cfg, s.workers, s.clients, s.bypasses)
    requires w < |s.workers| && s.workers[w].Upstream?
    ensures var s2 := FinishStep(s, w, ok);
            && SemaphoresInv(cfg, s2.workers) && ClientsInv(cfg, s2.workers, s2.clients, s2.bypasses)
            && SameOutside(s.workers[w := Ready], s2.workers)
  {
    hide Books, Grant, Awakened, WakeNext;
    var item := s.workers[w].item;
    SemaphoresUpdate(cfg, s.workers, w, Ready);
    if !Known(s, item.client) {
      ClientsUntouched(cfg, s.workers, w, Ready, s.clients, s.bypasses);
    } else {
      var id := item.client.value;
      var c1 := Returned(s.clients[id]);
      BooksReturn(s.workers, w, id, s.clients[id], s.bypasses[id]);
      FinishShape(s, w, ok);
      if c1.cap > 0 {
        MoveAndWake(cfg, s.workers, w, Ready, id, c1, s.clients, s.bypasses);
      } else {
        ClientsTouchedOnce(cfg, s.workers, w, Ready, id, c1, s.bypasses[id], s.clients, s.bypasses);
        assert s.bypasses[id := s.bypasses[id]] == s.bypasses;
      }
    }
  }

  lemma FinishKeepsInv(cfg: Config, s: State, w: nat, ok: bool)
    requires Inv(cfg, s) && Enabled(cfg, s, UpstreamReturns(w, ok))
    ensures Inv(cfg, FinishStep(s, w, ok))
  {
    hide SlotsInv, WakeInv, SemaphoresInv, ClientsInv, BytesInv, HistoryInv, PlacesInv, CountersInv;
    var s2 := FinishStep(s, w, ok);
    FinishKeepsClients(cfg, s, w, ok);
    CompleteKeepsRest(cfg, s.q, s.workers, w, ok);
    CompleteKeepsPlaces(s.q, s.workers, w, ok);
    CompleteKeepsCounters(s.q, s.workers, w, ok);
    OutsideUnchanged(cfg, s2.q, s.workers[w := Ready], s2.workers);
  }

  // ---- flush and cancellation ----------------------------------------------

  lemma FlushOneKeepsInv(cfg: Config, s: State, t: Tier)
    requires Inv(cfg, s) && s.q.queues.Get(t) != []
    ensures Inv(cfg, s.(q := FlushOne(s.q, t)))
  {
    var q2 := FlushOne(s.q, t);
    PopFacts(s.q, t);
    PopHistory(cfg, s.q, t, q2);
    assert q2.queues == Pop(s.q, t).queues;
    assert WaitingBytes(q2) == WaitingBytes(Pop(s.q, t)) && Waiting(q2) == Waiting(Pop(s.q, t));
    FlushOnePlaces(s.q, s.workers, t);
    FlushOneCounters(s.q, s.workers, t);
  }

  lemma FlushOnePlaces(q: QState, ws: seq<Phase>, t: Tier)
    requires q.queues.Get(t) != []
    requires PlacesInv(q.queues, ws, q.futures)
    ensures var q2 := FlushOne(q, t); PlacesInv(q2.queues, ws, q2.futures)
  {
    hide Count;
    var q2 := FlushOne(q, t);
    forall id: nat ensures PlaceOk(q2.queues, ws, q2.futures, id) {
      assert PlaceOk(q.queues, ws, q.futures, id);
    }
  }

  lemma FlushOneCounters(q: QState, ws: seq<Phase>, t: Tier)
    requires q.queues.Get(t) != [] && CountersInv(q, ws)
    ensures CountersInv(FlushOne(q, t), ws)
  {
    hide Count;
    var q2 := FlushOne(q, t);
    forall u: Tier ensures |q2.hist.admitted.Get(u)| == Accounted(q2, ws, u) {
      assert |q.hist.admitted.Get(u)| == Accounted(q, ws, u);
    }
  }

  lemma {:induction false} FlushTierKeepsInv(cfg: Config, s: State, t: Tier)
    requires Inv(cfg, s)
    ensures Inv(cfg, s.(q := FlushTier(s.q, t).q))
    decreases |s.q.queues.Get(t)|
  {
    if s.q.queues.Get(t) == [] {
      assert s.(q := FlushTier(s.q, t).q) == s;
    } else {
      FlushOneKeepsInv(cfg, s, t);
      var s1 := s.(q := FlushOne(s.q, t));
      if IsPending(s.q.futures, s.q.queues.Get(t)[0].id) {
        FlushTierKeepsInv(cfg, s1, t);
        assert s1.(q := FlushTier(s1.q, t).q) == s.(q := FlushTier(s.q, t).q);
      } else {
        assert s1 == s.(q := FlushTier(s.q, t).q);
      }
    }
  }

  lemma {:induction false} FlushTiersKeepsInv(cfg: Config, s: State, tiers: seq<Tier>)
    requires Inv(cfg, s)
    ensures Inv(cfg, s.(q := FlushTiers(s.q, tiers).q))
    decreases |tiers|
  {
    if tiers == [] {
      assert s.(q := FlushTiers(s.q, tiers).q) == s;
    } else {
      var first := FlushTier(s.q, tiers[0]);
      var s1 := s.(q := first.q);
      FlushTierKeepsInv(cfg, s, tiers[0]);
      if first.raised {
        assert s.(q := FlushTiers(s.q, tiers).q) == s1;
      } else {
        FlushTiersKeepsInv(cfg, s1, tiers[1..]);
        assert s1.(q := FlushTiers(s1.q, tiers[1..]).q) == s.(q := FlushTiers(s.q, tiers).q);
      }
    }
  }

  lemma CancelKeepsInv(cfg: Config, s: State, id: nat)
    requires Inv(cfg, s) && IsPending(s.q.futures, id)
    ensures Inv(cfg, Next(cfg, s, CancelFuture(id)))
  {
    hide Count;
    var s2 := Next(cfg, s, CancelFuture(id));
    forall x: nat ensures PlaceOk(s2.q.queues, s2.workers, s2.q.futures, x) {
      assert PlaceOk(s.q.queues, s.workers, s.q.futures, x);
    }
    forall t: Tier ensures |s2.q.hist.admitted.Get(t)| == Accounted(s2.q, s2.workers, t) {
      assert |s.q.hist.admitted.Get(t)| == Accounted(s.q, s.workers, t);
    }
  }

  // ---- all steps, all runs -------------------------------------------------

  lemma StepKeepsInv(cfg: Config, s: State, e: Step)
    requires Inv(cfg, s) && Enabled(cfg, s, e)
    ensures Inv(cfg, Next(cfg, s, e))
  {
    hide SlotsInv, WakeInv, SemaphoresInv, ClientsInv, BytesInv, HistoryInv, PlacesInv, CountersInv, RunStep, ArriveStep, ResumeStep, FinishStep;
    match e
    case Arrive(item) => ArriveKeepsInv(cfg, s, item);
    case RunWorker(w, now) => RunKeepsInv(cfg, s, w, now);
    case ResumeWorker(w) => ResumeKeepsInv(cfg, s, w);
    case UpstreamReturns(w, ok) => FinishKeepsInv(cfg, s, w, ok);
    case FlushCall(which) => FlushTiersKeepsInv(cfg, s, TiersOf(which));
    case PauseCall(_) => SideStep(cfg, s, Next(cfg, s, e));
    case ResumeCall(_) => SideStep(cfg, s, Next(cfg, s, e));
    case CancelFuture(id) => CancelKeepsInv(cfg, s, id);
  }

  lemma {:induction false} RunKeepsInvariant(cfg: Config, s: State, steps: seq<Step>)
    requires Inv(cfg, s) && ValidRun(cfg, s, steps)
    ensures Inv(cfg, RunFrom(cfg, s, steps))
    decreases |steps|
  {
    if steps != [] {
      StepKeepsInv(cfg, s, steps[0]);
      RunKeepsInvariant(cfg, Next(cfg, s, steps[0]), steps[1..]);
    }
  }

  lemma ReachableInv(cfg: Config, s: State)
    requires Reachable(cfg, s)
    ensures Inv(cfg, s)
  {
    var steps :| ValidRun(cfg, Init(cfg), steps) && RunFrom(cfg, Init(cfg), steps) == s;
    InitInv(cfg);
    RunKeepsInvariant(cfg, Init(cfg), steps);
  }
}
