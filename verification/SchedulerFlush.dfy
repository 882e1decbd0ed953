/** The management flush, queue.py: what it does up to the first cancelled request, and when it
    comes to its end. */
module SchedulerFlush {
  import opened Common
  import opened Queue
  import opened Scheduler
  import opened SchedulerInvariant
  import opened SchedulerHistory

  /** The number of items at the front of `queue` whose futures are still pending. */
  function PendingPrefix(queue: seq<Item>, futures: map<nat, Future>): (k: nat)
    ensures k <= |queue|
    ensures forall i :: 0 <= i < k ==> IsPending(futures, queue[i].id)
    ensures k < |queue| ==> !IsPending(futures, queue[k].id)
  {
    if queue == [] || !IsPending(futures, queue[0].id) then 0 else 1 + PendingPrefix(queue[1..], futures)
  }

  lemma {:induction false} PrefixFramed(queue: seq<Item>, before: map<nat, Future>, after: map<nat, Future>)
    requires forall item :: item in queue ==> (IsPending(before, item.id) <==> IsPending(after, item.id))
    ensures PendingPrefix(queue, after) == PendingPrefix(queue, before)
  {
    if queue != [] {
      assert queue[0] in queue && forall item :: item in queue[1..] ==> item in queue;
      PrefixFramed(queue[1..], before, after);
    }
  }

  // ---- one tier --------------------------------------------------------------

  lemma FlushOneFacts(q: QState, t: Tier)
    requires var queue := q.queues.Get(t); queue != [] && IsPending(q.futures, queue[0].id)
    ensures var queue, q1 := q.queues.Get(t), FlushOne(q, t);
            && q1.queues == q.queues.Set(t, queue[1..]) && q1.queues.Get(t) == queue[1..]
            && q1.futures == q.futures[queue[0].id := Flushed] && q1.bytes == q.bytes
            && (forall later :: q1.queues.Set(t, later) == q.queues.Set(t, later))
  {
  }

  /** The step that the proofs below repeat: behind a pending head the same items are pending as
      before it was flushed. */
  lemma BehindTheHead(q: QState, t: Tier)
    requires var queue := q.queues.Get(t); queue != [] && IsPending(q.futures, queue[0].id) && DistinctIds(queue)
    ensures var queue, q1 := q.queues.Get(t), FlushOne(q, t);
            && q1.queues.Get(t) == queue[1..] && DistinctIds(queue[1..])
            && PendingPrefix(queue[1..], q1.futures) == PendingPrefix(queue[1..], q.futures)
            && PendingPrefix(queue, q.futures) == 1 + PendingPrefix(queue[1..], q.futures)
  {
    FlushOneFacts(q, t);
    hide FlushOne;
    var rest := q.queues.Get(t)[1..];
    forall item | item in rest
      ensures IsPending(q.futures, item.id) <==> IsPending(FlushOne(q, t).futures, item.id)
    {
      var i :| 0 <= i < |rest| && rest[i] == item;
    }
    PrefixFramed(rest, q.futures, FlushOne(q, t).futures);
  }

  /** How many requests a flush answers, and whether it raises. */
  lemma {:induction false} FlushTierCount(q: QState, t: Tier)
    requires DistinctIds(q.queues.Get(t))
    ensures var queue := q.queues.Get(t);
            var k := PendingPrefix(queue, q.futures);
            FlushTier(q, t).dropped == k && (FlushTier(q, t).raised <==> k < |queue|)
    decreases |q.queues.Get(t)|
  {
    if q.queues.Get(t) != [] && IsPending(q.futures, q.queues.Get(t)[0].id) {
      BehindTheHead(q, t);
      hide FlushOne, PendingPrefix, DistinctIds;
      FlushTierCount(FlushOne(q, t), t);
    }
  }

  /** What it leaves queued; the byte counter does not move. */
  lemma {:induction false} FlushTierQueues(q: QState, t: Tier)
    requires DistinctIds(q.queues.Get(t))
    ensures var queue := q.queues.Get(t);
            var k := PendingPrefix(queue, q.futures);
            && FlushTier(q, t).q.queues == q.queues.Set(t, if k < |queue| then queue[k + 1..] else [])
            && FlushTier(q, t).q.bytes == q.bytes
    decreases |q.queues.Get(t)|
  {
    var queue := q.queues.Get(t);
    if queue != [] && IsPending(q.futures, queue[0].id) {
      BehindTheHead(q, t);
      FlushOneFacts(q, t);
      hide FlushOne, PendingPrefix, DistinctIds;
      FlushTierQueues(FlushOne(q, t), t);
      var k := PendingPrefix(queue, q.futures);
      assert k < |queue| ==> queue[k + 1..] == queue[1..][k..];
    }
  }

  /** Flushing a tier answers the items before the first cancelled one. It stops there with an
      exception, losing that item and leaving the rest queued; with none cancelled it empties
      the tier and counts every item. The byte counter does not move. */
  lemma FlushTierOutcome(q: QState, t: Tier)
    requires DistinctIds(q.queues.Get(t))
    ensures var queue := q.queues.Get(t);
            var k := PendingPrefix(queue, q.futures);
            var r := FlushTier(q, t);
            && r.dropped == k && (r.raised <==> k < |queue|)
            && r.q.queues == q.queues.Set(t, if r.raised then queue[k + 1..] else [])
            && r.q.bytes == q.bytes
  {
    hide FlushTier, PendingPrefix, DistinctIds;
    FlushTierCount(q, t);
    FlushTierQueues(q, t);
  }

  /** The futures of the items before the first cancelled one become Flushed, and no other
      future changes. */
  lemma {:induction false} FlushTierFutures(q: QState, t: Tier)
    requires DistinctIds(q.queues.Get(t))
    ensures var queue := q.queues.Get(t);
            var k := PendingPrefix(queue, q.futures);
            var after := FlushTier(q, t).q.futures;
            && after.Keys == q.futures.Keys
            && (forall i :: 0 <= i < k ==> after[queue[i].id] == Flushed)
            && (forall id :: id in q.futures && (forall i :: 0 <= i < k ==> queue[i].id != id) ==>
                  after[id] == q.futures[id])
    decreases |q.queues.Get(t)|
  {
    var queue := q.queues.Get(t);
    if queue != [] && IsPending(q.futures, queue[0].id) {
      BehindTheHead(q, t);
      FlushOneFacts(q, t);
      assert forall i :: 0 <= i < |queue[1..]| ==> queue[1..][i].id != queue[0].id;
      hide FlushOne, DistinctIds;
      FlushTierFutures(FlushOne(q, t), t);
      FuturesAfterHead(queue, PendingPrefix(queue[1..], q.futures), q.futures, FlushTier(q, t).q.futures);
    }
  }

  lemma FuturesAfterHead(queue: seq<Item>, k: nat, before: map<nat, Future>, after: map<nat, Future>)
    requires queue != [] && k < |queue| && queue[0].id in before && after.Keys == before.Keys
    requires forall i :: 0 <= i < k ==> queue[1..][i].id in before && queue[1..][i].id != queue[0].id
    requires forall i :: 0 <= i < k ==> after[queue[1..][i].id] == Flushed
    requires forall id :: id in before && (forall i :: 0 <= i < k ==> queue[1..][i].id != id) ==>
               after[id] == before[queue[0].id := Flushed][id]
    ensures forall i :: 0 <= i < k + 1 ==> queue[i].id in before && after[queue[i].id] == Flushed
    ensures forall id :: id in before && (forall i :: 0 <= i < k + 1 ==> queue[i].id != id) ==> after[id] == before[id]
  {
    forall i | 0 <= i < k + 1 ensures queue[i].id in before && after[queue[i].id] == Flushed {
      if i > 0 {
        assert queue[1..][i - 1] == queue[i];
      }
    }
    forall id | id in before && (forall i :: 0 <= i < k + 1 ==> queue[i].id != id) ensures after[id] == before[id] {
      assert forall i :: 0 <= i < k ==> queue[1..][i] == queue[i + 1];
    }
  }

  // ---- several tiers -----------------------------------------------------------

  /** No request waits twice, in one tier or in two. */
  ghost predicate Apart(queues: PerTier<seq<Item>>) {
    && (forall t: Tier :: DistinctIds(queues.Get(t)))
    && (forall t: Tier, u: Tier, a, b :: t != u && a in queues.Get(t) && b in queues.Get(u) ==> a.id != b.id)
  }

  lemma {:induction false} CountIdMember(items: seq<Item>, item: Item)
    requires item in items
    ensures CountId(items, item.id) >= 1
  {
    if items[0] != item {
      CountIdMember(items[1..], item);
    }
  }

  lemma TierIsDistinct(cfg: Config, s: State, t: Tier)
    requires Reachable(cfg, s)
    ensures DistinctIds(s.q.queues.Get(t))
  {
    TierIsFifo(cfg, s, t);
    ReachableIdsDistinct(cfg, s);
    hide Reachable;
    var admitted, d := s.q.hist.admitted.Get(t), |s.q.hist.departed.Get(t)|;
    assert DistinctIds(admitted);
    assert forall i :: 0 <= i < |s.q.queues.Get(t)| ==> s.q.queues.Get(t)[i] == admitted[d + i];
  }

  lemma TwoPlaces(queues: PerTier<seq<Item>>, ws: seq<Phase>, t: Tier, u: Tier, a: Item, b: Item)
    requires t != u && a in queues.Get(t) && b in queues.Get(u) && a.id == b.id
    ensures Places(queues, ws, a.id) >= 2
  {
    CountIdMember(queues.Get(t), a);
    CountIdMember(queues.Get(u), b);
  }

  lemma WaitingItemsAreApart(cfg: Config, s: State)
    requires Reachable(cfg, s)
    ensures Apart(s.q.queues)
  {
    ReachableInv(cfg, s);
    forall t: Tier ensures DistinctIds(s.q.queues.Get(t)) {
      TierIsDistinct(cfg, s, t);
    }
    hide Reachable, ClientsInv, CountersInv, BytesInv, HistoryInv, WakeInv, SlotsInv, SemaphoresInv, Places, DistinctIds;
    forall t: Tier, u: Tier, a, b | t != u && a in s.q.queues.Get(t) && b in s.q.queues.Get(u) ensures a.id != b.id {
      assert PlaceOk(s.q.queues, s.workers, s.q.futures, a.id);
      if a.id == b.id {
        TwoPlaces(s.q.queues, s.workers, t, u, a, b);
      }
    }
  }

  /** The place in `tiers` of the first tier in which a cancelled request waits, or the end. */
  function FirstCut(q: QState, tiers: seq<Tier>): (j: nat)
    ensures j <= |tiers|
  {
    if tiers == [] || PendingPrefix(q.queues.Get(tiers[0]), q.futures) < |q.queues.Get(tiers[0])| then 0
    else 1 + FirstCut(q, tiers[1..])
  }

  function Lengths(queues: PerTier<seq<Item>>, tiers: seq<Tier>): nat {
    if tiers == [] then 0 else |queues.Get(tiers[0])| + Lengths(queues, tiers[1..])
  }

  /** A state in which every tier but `t` holds what it held, and is pending as it was. */
  ghost predicate SameElsewhere(a: QState, b: QState, t: Tier) {
    forall u: Tier :: u != t ==>
      a.queues.Get(u) == b.queues.Get(u)
      && PendingPrefix(b.queues.Get(u), b.futures) == PendingPrefix(a.queues.Get(u), a.futures)
  }

  lemma {:induction false} FlushTierSpares(q: QState, t: Tier, id: nat)
    requires forall item :: item in q.queues.Get(t) ==> item.id != id
    ensures IsPending(FlushTier(q, t).q.futures, id) <==> IsPending(q.futures, id)
    decreases |q.queues.Get(t)|
  {
    var queue := q.queues.Get(t);
    if queue != [] && IsPending(q.futures, queue[0].id) {
      FlushOneFacts(q, t);
      hide FlushOne;
      assert queue[0] in queue && forall item :: item in queue[1..] ==> item in queue;
      FlushTierSpares(FlushOne(q, t), t, id);
    }
  }

  lemma FlushTierElsewhere(q: QState, t: Tier)
    requires Apart(q.queues)
    ensures SameElsewhere(q, FlushTier(q, t).q, t)
  {
    FlushTierGrows(q, t);
    hide FlushTier, DistinctIds, IsPending, PendingPrefix, Grows;
    var after := FlushTier(q, t).q.futures;
    forall u: Tier | u != t
      ensures PendingPrefix(q.queues.Get(u), after) == PendingPrefix(q.queues.Get(u), q.futures)
    {
      forall item | item in q.queues.Get(u) ensures IsPending(q.futures, item.id) <==> IsPending(after, item.id) {
        FlushTierSpares(q, t, item.id);
      }
      PrefixFramed(q.queues.Get(u), q.futures, after);
    }
  }

  lemma ApartWithout(a: QState, b: QState, t: Tier)
    requires Apart(a.queues) && SameElsewhere(a, b, t) && b.queues.Get(t) == []
    ensures Apart(b.queues)
  {
    hide PendingPrefix;
    assert DistinctIds([]);
  }

  lemma {:induction false} CutElsewhere(a: QState, b: QState, t: Tier, tiers: seq<Tier>)
    requires SameElsewhere(a, b, t) && t !in tiers
    ensures FirstCut(b, tiers) == FirstCut(a, tiers)
    ensures forall j :: 0 <= j <= |tiers| ==> Lengths(b.queues, tiers[..j]) == Lengths(a.queues, tiers[..j])
  {
    if tiers != [] {
      CutElsewhere(a, b, t, tiers[1..]);
      forall j | 0 <= j <= |tiers| ensures Lengths(b.queues, tiers[..j]) == Lengths(a.queues, tiers[..j]) {
        if j > 0 {
          assert tiers[..j][1..] == tiers[1..][..j - 1];
        }
      }
    }
  }

  /** What a flush of several tiers leaves in each of them. */
  function Left(q: QState, tiers: seq<Tier>, u: Tier): seq<Item> {
    var queue, k := q.queues.Get(u), PendingPrefix(q.queues.Get(u), q.futures);
    if u in tiers[..FirstCut(q, tiers)] then []
    else if FirstCut(q, tiers) < |tiers| && tiers[FirstCut(q, tiers)] == u && k < |queue| then queue[k + 1..]
    else queue
  }

  /** The result `r` of flushing `tiers` answers and counts everything before the first cancelled
      request, and raises if there is one; the byte counter does not move. */
  ghost predicate FlushedUpToCut(q: QState, tiers: seq<Tier>, r: FlushResult) {
    var j := FirstCut(q, tiers);
    && (r.raised <==> j < |tiers|)
    && r.dropped == Lengths(q.queues, tiers[..j])
                    + (if j < |tiers| then PendingPrefix(q.queues.Get(tiers[j]), q.futures) else 0)
    && (forall u: Tier :: r.q.queues.Get(u) == Left(q, tiers, u))
    && r.q.bytes == q.bytes
  }

  /** A flush of several tiers empties those before the first in which a cancelled request
      waits. There it stops with an exception, behind that request; later tiers stay as they
      were. It counts the requests that it answered. */
  lemma {:induction false} FlushTiersOutcome(q: QState, tiers: seq<Tier>)
    requires Apart(q.queues) && Distinct(tiers)
    ensures FlushedUpToCut(q, tiers, FlushTiers(q, tiers))
    decreases |tiers|
  {
    if tiers != [] {
      var t, rest := tiers[0], tiers[1..];
      FlushTierOutcome(q, t);
      hide FlushTier, FlushTiers, SameElsewhere, FlushedUpToCut, PendingPrefix, FirstCut, DistinctIds;
      FlushTiersUnfolds(q, tiers);
      var first := FlushTier(q, t);
      if first.raised {
        FirstTierCut(q, tiers);
      } else {
        FlushTierElsewhere(q, t);
        ApartWithout(q, first.q, t);
        FlushTiersOutcome(first.q, rest);
        OutcomeJoins(q, tiers, first.q, FlushTiers(first.q, rest));
      }
    }
  }

  lemma OutcomeJoins(q: QState, tiers: seq<Tier>, q1: QState, rest: FlushResult)
    requires tiers != [] && Distinct(tiers) && SameElsewhere(q, q1, tiers[0]) && q1.queues.Get(tiers[0]) == []
    requires PendingPrefix(q.queues.Get(tiers[0]), q.futures) == |q.queues.Get(tiers[0])| && q1.bytes == q.bytes
    requires FlushedUpToCut(q1, tiers[1..], rest)
    ensures FlushedUpToCut(q, tiers, rest.(dropped := |q.queues.Get(tiers[0])| + rest.dropped))
  {
    CutElsewhere(q, q1, tiers[0], tiers[1..]);
    LeftBehind(q, q1, tiers[0], tiers);
    hide PendingPrefix, FirstCut, Left, Lengths;
    var j := FirstCut(q1, tiers[1..]);
    if j < |tiers[1..]| {
      assert tiers[1 + j] == tiers[1..][j] && tiers[1..][j] in tiers[1..];
    }
  }

  lemma FlushTiersUnfolds(q: QState, tiers: seq<Tier>)
    requires tiers != []
    ensures var first := FlushTier(q, tiers[0]);
            FlushTiers(q, tiers) == if first.raised then first
                                    else var rest := FlushTiers(first.q, tiers[1..]); rest.(dropped := first.dropped + rest.dropped)
  {
    hide FlushTier;
  }

  lemma FirstTierCut(q: QState, tiers: seq<Tier>)
    requires tiers != [] && FlushTier(q, tiers[0]).raised && DistinctIds(q.queues.Get(tiers[0]))
    ensures FlushedUpToCut(q, tiers, FlushTier(q, tiers[0]))
  {
    FlushTierOutcome(q, tiers[0]);
    hide FlushTier, PendingPrefix, DistinctIds, FlushedUpToCut;
    CutResult(q, tiers, FlushTier(q, tiers[0]));
  }

  lemma CutResult(q: QState, tiers: seq<Tier>, r: FlushResult)
    requires tiers != [] && r.raised && r.q.bytes == q.bytes
    requires var queue, k := q.queues.Get(tiers[0]), PendingPrefix(q.queues.Get(tiers[0]), q.futures);
             k < |queue| && r.dropped == k && r.q.queues == q.queues.Set(tiers[0], queue[k + 1..])
    ensures FlushedUpToCut(q, tiers, r)
  {
    hide PendingPrefix, FirstCut, Lengths, Left;
    CutAtOnce(q, tiers);
    forall u: Tier ensures r.q.queues.Get(u) == Left(q, tiers, u) {
      LeftAtCut(q, tiers, u);
    }
  }

  lemma LeftAtCut(q: QState, tiers: seq<Tier>, u: Tier)
    requires tiers != [] && FirstCut(q, tiers) == 0 && PendingPrefix(q.queues.Get(tiers[0]), q.futures) < |q.queues.Get(tiers[0])|
    ensures var queue := q.queues.Get(tiers[0]);
            Left(q, tiers, u) == if u == tiers[0] then queue[PendingPrefix(queue, q.futures) + 1..] else q.queues.Get(u)
  {
    hide FirstCut, PendingPrefix;
    assert u !in tiers[..0];
  }

  lemma CutAtOnce(q: QState, tiers: seq<Tier>)
    requires tiers != [] && PendingPrefix(q.queues.Get(tiers[0]), q.futures) < |q.queues.Get(tiers[0])|
    ensures FirstCut(q, tiers) == 0 && Lengths(q.queues, tiers[..0]) == 0
  {
    hide PendingPrefix;
  }

  lemma LeftBehind(q: QState, q1: QState, t: Tier, tiers: seq<Tier>)
    requires tiers != [] && tiers[0] == t && t !in tiers[1..]
    requires PendingPrefix(q.queues.Get(t), q.futures) == |q.queues.Get(t)| && q1.queues.Get(t) == []
    requires SameElsewhere(q, q1, t) && FirstCut(q1, tiers[1..]) == FirstCut(q, tiers[1..])
    ensures FirstCut(q, tiers) == 1 + FirstCut(q1, tiers[1..])
    ensures Lengths(q.queues, tiers[..FirstCut(q, tiers)])
            == |q.queues.Get(t)| + Lengths(q.queues, tiers[1..][..FirstCut(q1, tiers[1..])])
    ensures forall u: Tier :: Left(q, tiers, u) == Left(q1, tiers[1..], u)
  {
    hide PendingPrefix, SameElsewhere;
    var j := FirstCut(q1, tiers[1..]);
    assert FirstCut(q, tiers) == 1 + j;
    assert tiers[..1 + j][1..] == tiers[1..][..j];
    forall u: Tier ensures Left(q, tiers, u) == Left(q1, tiers[1..], u) {
      LeftInTier(q, q1, t, tiers, u);
    }
  }

  lemma LeftInTier(q: QState, q1: QState, t: Tier, tiers: seq<Tier>, u: Tier)
    requires tiers != [] && tiers[0] == t && t !in tiers[1..] && q1.queues.Get(t) == []
    requires SameElsewhere(q, q1, t) && FirstCut(q, tiers) == 1 + FirstCut(q1, tiers[1..])
    ensures Left(q, tiers, u) == Left(q1, tiers[1..], u)
  {
    hide PendingPrefix, FirstCut;
    var j := FirstCut(q1, tiers[1..]);
    assert tiers[..1 + j] == [t] + tiers[1..][..j];
    if u == t {
      assert t in tiers[..1 + j] && t !in tiers[1..][..j];
    } else {
      assert u in tiers[..1 + j] <==> u in tiers[1..][..j];
    }
  }

  // ---- who is answered -----------------------------------------------------------

  /** Does the request `id` wait before the first cancelled one? */
  predicate BeforeCancelled(q: QState, t: Tier, id: nat) {
    exists i :: 0 <= i < PendingPrefix(q.queues.Get(t), q.futures) && q.queues.Get(t)[i].id == id
  }

  /** Does a flush of these tiers come to the request `id`? */
  predicate Reaches(q: QState, tiers: seq<Tier>, id: nat)
    decreases |tiers|
  {
    tiers != []
    && (BeforeCancelled(q, tiers[0], id)
        || (PendingPrefix(q.queues.Get(tiers[0]), q.futures) == |q.queues.Get(tiers[0])| && Reaches(q, tiers[1..], id)))
  }

  lemma FlushTierAnswersIff(q: QState, t: Tier, id: nat)
    requires DistinctIds(q.queues.Get(t)) && IsPending(q.futures, id)
    ensures var after := FlushTier(q, t).q.futures;
            id in after && after[id] == if BeforeCancelled(q, t, id) then Flushed else Pending
  {
    FlushTierFutures(q, t);
    hide FlushTier, PendingPrefix, DistinctIds;
    var queue, after := q.queues.Get(t), FlushTier(q, t).q.futures;
    if BeforeCancelled(q, t, id) {
      var i :| 0 <= i < PendingPrefix(queue, q.futures) && queue[i].id == id;
      assert after[queue[i].id] == Flushed;
    }
  }

  lemma {:induction false} ReachesElsewhere(a: QState, b: QState, t: Tier, tiers: seq<Tier>, id: nat)
    requires SameElsewhere(a, b, t) && t !in tiers
    ensures Reaches(b, tiers, id) <==> Reaches(a, tiers, id)
  {
    if tiers != [] {
      hide PendingPrefix;
      ReachesElsewhere(a, b, t, tiers[1..], id);
    }
  }

  /** A flush answers exactly the pending requests that it comes to. */
  lemma {:induction false} FlushTiersAnswersIff(q: QState, tiers: seq<Tier>, id: nat)
    requires Apart(q.queues) && Distinct(tiers) && IsPending(q.futures, id)
    ensures var after := FlushTiers(q, tiers).q.futures;
            id in after && after[id] == if Reaches(q, tiers, id) then Flushed else Pending
    decreases |tiers|
  {
    if tiers != [] {
      var t, rest := tiers[0], tiers[1..];
      FlushTierAnswersIff(q, t, id);
      FlushTierOutcome(q, t);
      FlushTiersUnfolds(q, tiers);
      hide FlushTier, FlushTiers, PendingPrefix, BeforeCancelled;
      var first := FlushTier(q, t);
      if !first.raised {
        FlushTierElsewhere(q, t);
        ApartWithout(q, first.q, t);
        ReachesElsewhere(q, first.q, t, rest, id);
        FlushTiersGrows(first.q, rest);
        if IsPending(first.q.futures, id) {
          FlushTiersAnswersIff(first.q, rest, id);
        }
      }
    }
  }

  // ---- the management call -------------------------------------------------------

  lemma {:induction false} NoCutIff(q: QState, tiers: seq<Tier>)
    ensures FirstCut(q, tiers) == |tiers| <==>
            forall t: Tier, item :: t in tiers && item in q.queues.Get(t) ==> IsPending(q.futures, item.id)
  {
    if tiers != [] {
      NoCutIff(q, tiers[1..]);
      var queue := q.queues.Get(tiers[0]);
      var k := PendingPrefix(queue, q.futures);
      if k == |queue| {
        forall item | item in queue ensures IsPending(q.futures, item.id) {
          var i :| 0 <= i < |queue| && queue[i] == item;
        }
      } else {
        assert queue[k] in queue && tiers[0] in tiers;
      }
      assert forall t :: t in tiers <==> t == tiers[0] || t in tiers[1..];
    }
  }

  /** The answers of a flush that came to its end. */
  lemma {:induction false} AllFlushed(q: QState, tiers: seq<Tier>, t: Tier, item: Item)
    requires Apart(q.queues) && Distinct(tiers) && FirstCut(q, tiers) == |tiers|
    requires t in tiers && item in q.queues.Get(t)
    ensures item.id in FlushTiers(q, tiers).q.futures && FlushTiers(q, tiers).q.futures[item.id] == Flushed
    decreases |tiers|
  {
    var first := FlushTier(q, tiers[0]);
    FlushTierOutcome(q, tiers[0]);
    FlushTiersUnfolds(q, tiers);
    if t == tiers[0] {
      TierFlushed(q, t, item);
      FlushTiersGrows(first.q, tiers[1..]);
      hide FlushTier, FlushTiers, PendingPrefix, Apart;
    } else {
      FlushTierElsewhere(q, tiers[0]);
      ApartWithout(q, first.q, tiers[0]);
      CutElsewhere(q, first.q, tiers[0], tiers[1..]);
      hide FlushTier, FlushTiers, PendingPrefix, Apart;
      AllFlushed(first.q, tiers[1..], t, item);
    }
  }

  lemma TierFlushed(q: QState, t: Tier, item: Item)
    requires DistinctIds(q.queues.Get(t)) && item in q.queues.Get(t)
    requires PendingPrefix(q.queues.Get(t), q.futures) == |q.queues.Get(t)|
    ensures item.id in FlushTier(q, t).q.futures && FlushTier(q, t).q.futures[item.id] == Flushed
  {
    var queue := q.queues.Get(t);
    FlushTierFutures(q, t);
    hide FlushTier, PendingPrefix, DistinctIds;
    var i :| 0 <= i < |queue| && queue[i] == item;
    assert FlushTier(q, t).q.futures[queue[i].id] == Flushed;
  }

  /** A management flush, of one tier or of all, on any reachable state: it runs to its end
      exactly when no request waiting in these tiers has been cancelled. Then they are empty and
      every request that waited there is answered and counted, and the others are untouched. */
  lemma FlushCompletesIff(cfg: Config, s: State, which: Option<Tier>)
    requires Reachable(cfg, s)
    ensures var r := FlushTiers(s.q, TiersOf(which));
            && (!r.raised <==> forall t: Tier, item :: t in TiersOf(which) && item in s.q.queues.Get(t) ==> IsPending(s.q.futures, item.id))
            && (!r.raised ==> forall t: Tier :: r.q.queues.Get(t) == if t in TiersOf(which) then [] else s.q.queues.Get(t))
            && (!r.raised ==> r.dropped == Lengths(s.q.queues, TiersOf(which)))
            && (!r.raised ==> forall t: Tier, item :: t in TiersOf(which) && item in s.q.queues.Get(t) ==>
                  item.id in r.q.futures && r.q.futures[item.id] == Flushed)
  {
    hide Reachable, FlushTiers, FlushTier, DistinctIds, FirstCut, IsPending, PendingPrefix, Apart;
    var tiers := TiersOf(which);
    assert Distinct(tiers);
    assert tiers[..|tiers|] == tiers;
    WaitingItemsAreApart(cfg, s);
    FlushTiersOutcome(s.q, tiers);
    NoCutIff(s.q, tiers);
    if FirstCut(s.q, tiers) == |tiers| {
      forall t: Tier, item | t in tiers && item in s.q.queues.Get(t)
        ensures item.id in FlushTiers(s.q, tiers).q.futures && FlushTiers(s.q, tiers).q.futures[item.id] == Flushed
      {
        AllFlushed(s.q, tiers, t, item);
      }
    }
  }
}
