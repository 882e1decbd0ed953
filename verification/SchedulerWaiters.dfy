/** The order in which the workers that wait for a client's cap are served, over whole runs. */
module SchedulerWaiters {
  import opened Common
  import opened Queue
  import opened Concurrency
  import opened Scheduler
  import opened SchedulerInvariant

  /** The worker that starts to wait in the semaphore of client `id` in this step, if one does. */
  function Joined(before: seq<Phase>, after: seq<Phase>, e: Step, id: string): seq<nat> {
    if e.RunWorker? && e.w < |before| && e.w < |after| && !Is(KWaitsFor(id), before[e.w]) && Is(KWaitsFor(id), after[e.w])
    then [e.w] else []
  }

  /** The workers from `i` on that are handed a permit of client `id` between the two states. */
  function Handed(before: seq<Phase>, after: seq<Phase>, id: string, i: nat): seq<nat>
    requires i <= |before| == |after|
    decreases |before| - i
  {
    if i == |before| then []
    else (if Is(KWaitsFor(id), before[i]) && Is(KGrantedFor(id), after[i]) then [i] else []) + Handed(before, after, id, i + 1)
  }

  lemma {:induction false} HandedNone(before: seq<Phase>, after: seq<Phase>, id: string, i: nat)
    requires i <= |before| == |after|
    requires forall w :: i <= w < |before| ==> !(Is(KWaitsFor(id), before[w]) && Is(KGrantedFor(id), after[w]))
    ensures Handed(before, after, id, i) == []
    decreases |before| - i
  {
    if i < |before| {
      HandedNone(before, after, id, i + 1);
    }
  }

  lemma {:induction false} HandedOne(before: seq<Phase>, after: seq<Phase>, id: string, i: nat, v: nat)
    requires i <= |before| == |after| && i <= v < |before|
    requires forall w :: i <= w < |before| ==> (Is(KWaitsFor(id), before[w]) && Is(KGrantedFor(id), after[w]) <==> w == v)
    ensures Handed(before, after, id, i) == [v]
    decreases |before| - i
  {
    if i == v {
      HandedNone(before, after, id, i + 1);
    } else {
      HandedOne(before, after, id, i + 1, v);
    }
  }

  /** The semaphore's queue is first in, first out between the two states. */
  ghost predicate InOrder(a: State, b: State, e: Step, id: string) {
    && id in a.clients && id in b.clients && |a.workers| == |b.workers|
    && a.clients[id].waiting + Joined(a.workers, b.workers, e, id)
       == Handed(a.workers, b.workers, id, 0) + b.clients[id].waiting
  }

  /** A step that moves only worker `w`, which is not handed a permit, and keeps the queue. */
  lemma QuietStep(a: State, b: State, e: Step, id: string)
    requires id in a.clients && id in b.clients && |a.workers| == |b.workers|
    requires b.clients[id].waiting == a.clients[id].waiting && Joined(a.workers, b.workers, e, id) == []
    requires forall v :: 0 <= v < |a.workers| ==> !(Is(KWaitsFor(id), a.workers[v]) && Is(KGrantedFor(id), b.workers[v]))
    ensures InOrder(a, b, e, id)
  {
    HandedNone(a.workers, b.workers, id, 0);
  }

  lemma StartInOrder(s: State, w: nat, item: Item, now: real, id: string)
    requires w < |s.workers| && !s.workers[w].Busy() && id in s.clients && id in s.bypasses
    ensures InOrder(s, StartDispatch(s, w, item), RunWorker(w, now), id)
  {
    var s2 := StartDispatch(s, w, item);
    assert s2.workers == s.workers[w := s2.workers[w]];
    HandedNone(s.workers, s2.workers, id, 0);
  }

  lemma TurnInOrder(cfg: Config, s: State, w: nat, now: real, id: string)
    requires Enabled(cfg, s, RunWorker(w, now)) && id in s.clients && id in s.bypasses
    ensures InOrder(s, RunStep(cfg, s, w, now), RunWorker(w, now), id)
  {
    var s2 := RunStep(cfg, s, w, now);
    if (s.workers[w].Ready? && !s.q.hasItems) || NextTier(s.q.queues) == None {
      QuietStep(s, s2, RunWorker(w, now), id);
    } else {
      RunShape(cfg, s, w, now);
      hide RunStep;
      if s2.workers[w].Busy() {
        StartInOrder(s.(q := s2.q), w, Take(s.q).1.value, now, id);
      } else {
        QuietStep(s, s2, RunWorker(w, now), id);
      }
    }
  }

  /** Waking the head of client `own`'s queue, after worker `w` of that client moved on. */
  lemma WakeInOrder(s: State, s2: State, e: Step, w: nat, p: Phase, own: string, c: Client, id: string)
    requires !e.RunWorker? && w < |s.workers| && !s.workers[w].CapWait? && !p.CapWait? && !p.Granted?
    requires own in s.clients && id in s.clients && c.permits > 0 && c.waiting == s.clients[own].waiting
    requires c.waiting != [] ==>
               c.waiting[0] < |s.workers| && c.waiting[0] != w && Is(KWaitsFor(own), s.workers[c.waiting[0]])
    requires s2.workers == Grant(s.workers[w := p], Awakened(c, WakeNext(c))) && s2.clients == s.clients[own := WakeNext(c)]
    ensures InOrder(s, s2, e, id)
  {
    if c.waiting == [] {
      QuietStep(s, s2, e, id);
    } else {
      var v := c.waiting[0];
      assert s2.workers == s.workers[w := p][v := Granted(s.workers[v].item)];
      if id == own {
        HandedOne(s.workers, s2.workers, id, 0, v);
        assert c.waiting == [v] + c.waiting[1..];
      } else {
        QuietStep(s, s2, e, id);
      }
    }
  }

  /** The head of a client's queue is a waiting worker of that client. */
  lemma HeadWaits(cfg: Config, s: State, own: string)
    requires ClientsInv(cfg, s.workers, s.clients, s.bypasses) && own in s.clients
    ensures var c := s.clients[own];
            && (c.waiting != [] ==> c.waiting[0] < |s.workers| && Is(KWaitsFor(own), s.workers[c.waiting[0]]))
            && (c.cap == 0 ==> c.waiting == [])
  {
    var c := s.clients[own];
    assert Books(s.workers, own, c, s.bypasses[own]);
    assert c.waiting != [] ==> c.waiting[0] in c.waiting;
    hide Count, NoIdlePermit;
  }

  lemma ResumeInOrder(cfg: Config, s: State, w: nat, id: string)
    requires ClientsInv(cfg, s.workers, s.clients, s.bypasses) && Enabled(cfg, s, ResumeWorker(w)) && id in s.clients
    ensures InOrder(s, ResumeStep(s, w), ResumeWorker(w), id)
  {
    var own := s.workers[w].item.client.value;
    var c1 := Resumed(s.clients[own]);
    HeadWaits(cfg, s, own);
    ResumeShape(s, w);
    hide ResumeStep, ClientsInv, Grant, Awakened, WakeNext, InOrder;
    if c1.permits > 0 {
      WakeInOrder(s, ResumeStep(s, w), ResumeWorker(w), w, Upstream(s.workers[w].item), own, c1, id);
    } else {
      QuietStep(s, ResumeStep(s, w), ResumeWorker(w), id);
    }
  }

  lemma UnknownFinishes(s: State, w: nat, ok: bool)
    requires w < |s.workers| && s.workers[w].Upstream? && !Known(s, s.workers[w].item.client)
    ensures FinishStep(s, w, ok).clients == s.clients && FinishStep(s, w, ok).workers == s.workers[w := Ready]
  {
  }

  lemma FinishInOrder(cfg: Config, s: State, w: nat, ok: bool, id: string)
    requires ClientsInv(cfg, s.workers, s.clients, s.bypasses) && id in s.clients
    requires w < |s.workers| && s.workers[w].Upstream?
    ensures InOrder(s, FinishStep(s, w, ok), UpstreamReturns(w, ok), id)
  {
    hide FinishStep, ClientsInv, Grant, Awakened, WakeNext, InOrder;
    var s2, e := FinishStep(s, w, ok), UpstreamReturns(w, ok);
    if Known(s, s.workers[w].item.client) {
      var own := s.workers[w].item.client.value;
      var c1 := Returned(s.clients[own]);
      HeadWaits(cfg, s, own);
      FinishShape(s, w, ok);
      if c1.cap > 0 {
        WakeInOrder(s, s2, e, w, Ready, own, c1, id);
      } else {
        QuietStep(s, s2, e, id);
      }
    } else {
      UnknownFinishes(s, w, ok);
      QuietStep(s, s2, e, id);
    }
  }

  /** The steps that move no worker. */
  lemma SideStepInOrder(cfg: Config, s: State, e: Step, id: string)
    requires Enabled(cfg, s, e) && id in s.clients
    requires e.FlushCall? || e.PauseCall? || e.ResumeCall? || e.CancelFuture?
    ensures InOrder(s, Next(cfg, s, e), e, id)
  {
    hide FlushTiers, PauseTiers, ResumeTiers, InOrder;
    QuietStep(s, Next(cfg, s, e), e, id);
  }

  lemma StepInOrder(cfg: Config, s: State, e: Step, id: string)
    requires ClientsInv(cfg, s.workers, s.clients, s.bypasses) && Enabled(cfg, s, e) && id in s.clients
    ensures InOrder(s, Next(cfg, s, e), e, id)
  {
    assert id in s.bypasses;
    hide RunStep, ArriveStep, ResumeStep, FinishStep, FlushTiers, PauseTiers, ResumeTiers, InOrder, ClientsInv;
    match e
    case RunWorker(w, now) => TurnInOrder(cfg, s, w, now, id);
    case ResumeWorker(w) => ResumeInOrder(cfg, s, w, id);
    case UpstreamReturns(w, ok) => FinishInOrder(cfg, s, w, ok, id);
    case Arrive(item) => ArriveInOrder(cfg, s, item, id);
    case _ => SideStepInOrder(cfg, s, e, id);
  }

  lemma ArriveInOrder(cfg: Config, s: State, item: Item, id: string)
    requires id in s.clients
    ensures InOrder(s, ArriveStep(cfg, s, item), Arrive(item), id)
  {
    QuietStep(s, ArriveStep(cfg, s, item), Arrive(item), id);
  }

  /** Who joined the semaphore's queue over a run, and who was handed a permit, each in order. */
  function JoinedOver(cfg: Config, s: State, steps: seq<Step>, id: string): seq<nat>
    requires ValidRun(cfg, s, steps)
    decreases |steps|
  {
    if steps == [] then []
    else
      var s1 := Next(cfg, s, steps[0]);
      Joined(s.workers, s1.workers, steps[0], id) + JoinedOver(cfg, s1, steps[1..], id)
  }

  function HandedOver(cfg: Config, s: State, steps: seq<Step>, id: string): seq<nat>
    requires ValidRun(cfg, s, steps)
    decreases |steps|
  {
    if steps == [] then []
    else
      var s1 := Next(cfg, s, steps[0]);
      (if |s1.workers| == |s.workers| then Handed(s.workers, s1.workers, id, 0) else []) + HandedOver(cfg, s1, steps[1..], id)
  }

  lemma Chain(w: seq<nat>, j: seq<nat>, h: seq<nat>, w1: seq<nat>, js: seq<nat>, hs: seq<nat>, w2: seq<nat>)
    requires w + j == h + w1 && w1 + js == hs + w2
    ensures w + (j + js) == (h + hs) + w2
  {
    assert w + (j + js) == (w + j) + js == (h + w1) + js == h + (w1 + js) == h + (hs + w2) == (h + hs) + w2;
  }

  /** A client's waiters are served in the order in which they came: over every run those who waited,
      followed by those who joined, are those who were handed a permit, followed by those who
      still wait. */
  lemma {:induction false} WaitersAreFifo(cfg: Config, s: State, steps: seq<Step>, id: string)
    requires Inv(cfg, s) && ValidRun(cfg, s, steps) && id in cfg.caps
    ensures id in s.clients && id in RunFrom(cfg, s, steps).clients
    ensures s.clients[id].waiting + JoinedOver(cfg, s, steps, id)
            == HandedOver(cfg, s, steps, id) + RunFrom(cfg, s, steps).clients[id].waiting
    decreases |steps|
  {
    assert id in s.clients;
    if steps != [] {
      var s1, rest := Next(cfg, s, steps[0]), steps[1..];
      StepInOrder(cfg, s, steps[0], id);
      StepKeepsInv(cfg, s, steps[0]);
      hide Next, Enabled, Inv, Joined, Handed;
      WaitersAreFifo(cfg, s1, rest, id);
      Chain(s.clients[id].waiting, Joined(s.workers, s1.workers, steps[0], id), Handed(s.workers, s1.workers, id, 0),
            s1.clients[id].waiting, JoinedOver(cfg, s1, rest, id), HandedOver(cfg, s1, rest, id),
            RunFrom(cfg, s1, rest).clients[id].waiting);
    }
  }

  // ---- the configured caps -------------------------------------------------

  /** A client id that is configured more than once has the cap of its last entry. */
  lemma {:induction false} LastCapWins(keys: seq<(string, nat)>, i: nat)
    requires i < |keys| && forall j :: i < j < |keys| ==> keys[j].0 != keys[i].0
    ensures keys[i].0 in InitialClients(keys) && InitialClients(keys)[keys[i].0] == NewClient(keys[i].1)
  {
    if i < |keys| - 1 {
      LastCapWins(keys[..|keys| - 1], i);
    }
  }
}
