/** Per-client concurrency caps, concurrency.py: one client's counters and semaphore as a
    value, the functions that change it, and the classes that do so in place. */
module Concurrency {
  import opened Common

  const FAIRNESS_MAX_REENTRIES: nat := 3

  /** `permits` is the semaphore's value. Its deque of waiters is split in two: `granted`
      counts those that were handed a permit and have not resumed yet, `waiting` lists the
      others, oldest first. */
  datatype Client = Client(
    cap: nat,
    permits: nat,
    waiting: seq<nat>,
    granted: nat,
    inflight: nat,
    capWaiting: nat)

  function NewClient(cap: nat): Client {
    Client(cap, cap, [], 0, 0, 0)
  }

  /** asyncio.Semaphore.locked: no permit, or somebody is still in the deque. */
  predicate Locked(c: Client) {
    c.permits == 0 || c.granted > 0 || c.waiting != []
  }

  /** asyncio.Semaphore._wake_up_next, called with a permit to give away. */
  function WakeNext(c: Client): Client
    requires c.permits > 0
  {
    if c.waiting == [] then c
    else c.(permits := c.permits - 1, waiting := c.waiting[1..], granted := c.granted + 1)
  }

  predicate Bypasses(c: Client, reentries: nat) {
    c.cap > 0 && reentries >= FAIRNESS_MAX_REENTRIES
  }

  predicate Blocks(c: Client, reentries: nat) {
    c.cap > 0 && reentries < FAIRNESS_MAX_REENTRIES && Locked(c)
  }

  /** Everything `acquire` does up to its end or its suspension; `who` is the caller's task. */
  function Acquire(c: Client, reentries: nat, who: nat): Client {
    if c.cap == 0 || Bypasses(c, reentries) then c.(inflight := c.inflight + 1)
    else if Locked(c) then c.(capWaiting := c.capWaiting + 1, waiting := c.waiting + [who])
    else c.(permits := c.permits - 1, inflight := c.inflight + 1)
  }

  /** A granted waiter resumes: it leaves the deque, passes a spare permit on, and goes ahead. */
  function ResumeWaiter(c: Client): Client
    requires c.granted > 0
  {
    var c1 := c.(granted := c.granted - 1);
    var c2 := if c1.permits > 0 then WakeNext(c1) else c1;
    c2.(capWaiting := Max(0, c2.capWaiting - 1), inflight := c2.inflight + 1)
  }

  function ReleaseClient(c: Client): Client {
    var c1 := c.(inflight := Max(0, c.inflight - 1));
    if c.cap == 0 then c1 else WakeNext(c1.(permits := c1.permits + 1))
  }

  /** The waiter whose turn comes when `before` becomes `after` by a wake-up, if any. */
  function Awakened(before: Client, after: Client): Option<nat> {
    if |after.waiting| < |before.waiting| then Some(before.waiting[0]) else None
  }

  /** ClientState together with the asyncio.Semaphore it owns. */
  class ClientState {
    const cap: nat
    var permits: nat
    var waiting: seq<nat>
    var granted: nat
    var inflight: nat
    var capWaiting: nat

    ghost function Abs(): Client
      reads this
    {
      Client(cap, permits, waiting, granted, inflight, capWaiting)
    }

    constructor (cap: nat)
      ensures this.cap == cap && Abs() == NewClient(cap)
    {
      this.cap := cap;
      permits, waiting, granted, inflight, capWaiting := cap, [], 0, 0, 0;
    }

    method WakeUpNext()
      requires permits > 0
      modifies this
      ensures Abs() == WakeNext(old(Abs()))
    {
      if waiting != [] {
        permits := permits - 1;
        waiting := waiting[1..];
        granted := granted + 1;
      }
    }

    /** ClientConcurrencyManager.acquire on this client, up to its suspension. */
    method StartAcquire(reentries: nat, who: nat) returns (blocked: bool)
      modifies this
      ensures blocked == Blocks(old(Abs()), reentries)
      ensures Abs() == Acquire(old(Abs()), reentries, who)
    {
      if cap == 0 {
        inflight := inflight + 1;
        return false;
      }
      if reentries >= FAIRNESS_MAX_REENTRIES {
        inflight := inflight + 1;
        return false;
      }
      capWaiting := capWaiting + 1;
      if permits == 0 || granted > 0 || waiting != [] {
        waiting := waiting + [who];
        return true;
      }
      permits := permits - 1;
      capWaiting := Max(0, capWaiting - 1);
      inflight := inflight + 1;
      return false;
    }

    method FinishAcquire()
      requires granted > 0
      modifies this
      ensures Abs() == ResumeWaiter(old(Abs()))
    {
      granted := granted - 1;
      if permits > 0 {
        WakeUpNext();
      }
      capWaiting := Max(0, capWaiting - 1);
      inflight := inflight + 1;
    }

    method ReleaseSlot()
      modifies this
      ensures Abs() == ReleaseClient(old(Abs()))
    {
      inflight := Max(0, inflight - 1);
      if cap > 0 {
        permits := permits + 1;
        WakeUpNext();
      }
    }
  }

  /** The states built from the configured keys; a repeated client id keeps the last cap. */
  function InitialClients(keys: seq<(string, nat)>): map<string, Client> {
    if keys == [] then map[]
    else InitialClients(keys[..|keys| - 1])[keys[|keys| - 1].0 := NewClient(keys[|keys| - 1].1)]
  }

  lemma InitialClientsStep(keys: seq<(string, nat)>, i: nat)
    requires i < |keys|
    ensures InitialClients(keys[..i + 1]) == InitialClients(keys[..i])[keys[i].0 := NewClient(keys[i].1)]
  {
    assert keys[..i + 1][..i] == keys[..i];
  }

  /** ClientConcurrencyManager: the dictionary from client id to state. Distinct ids have
      distinct states, so a call for one client leaves every other client alone. */
  class ClientConcurrencyManager {
    var states: map<string, ClientState>

    ghost predicate Valid()
      reads this
    {
      forall a, b :: a in states && b in states && a != b ==> states[a] != states[b]
    }

    ghost function Abs(): map<string, Client>
      reads this, states.Values
    {
      map id | id in states :: states[id].Abs()
    }

    constructor (keys: seq<(string, nat)>)
      ensures Valid() && fresh(states.Values)
      ensures Abs() == InitialClients(keys)
    {
      states := map[];
      new;
      for i := 0 to |keys|
        invariant Valid() && forall id :: id in states ==> fresh(states[id])
        invariant states.Keys == InitialClients(keys[..i]).Keys
        invariant forall id :: id in states ==> states[id].Abs() == InitialClients(keys[..i])[id]
      {
        hide InitialClients;
        InitialClientsStep(keys, i);
        var state := new ClientState(keys[i].1);
        states := states[keys[i].0 := state];
      }
      assert keys[..|keys|] == keys;
    }

    method Start(clientId: Option<string>, reentries: nat, who: nat) returns (blocked: bool)
      requires Valid()
      modifies states.Values
      ensures Valid() && states == old(states)
      ensures clientId.Some? && clientId.value in states ==>
                && blocked == Blocks(old(Abs())[clientId.value], reentries)
                && Abs() == old(Abs())[clientId.value := Acquire(old(Abs())[clientId.value], reentries, who)]
      ensures !(clientId.Some? && clientId.value in states) ==> !blocked && Abs() == old(Abs())
    {
      if clientId == None || clientId.value !in states {
        return false;
      }
      blocked := states[clientId.value].StartAcquire(reentries, who);
    }

    method Release(clientId: Option<string>)
      requires Valid()
      modifies states.Values
      ensures Valid() && states == old(states)
      ensures clientId.Some? && clientId.value in states ==>
                Abs() == old(Abs())[clientId.value := ReleaseClient(old(Abs())[clientId.value])]
      ensures !(clientId.Some? && clientId.value in states) ==> Abs() == old(Abs())
    {
      if clientId == None || clientId.value !in states {
        return;
      }
      states[clientId.value].ReleaseSlot();
    }
  }
}
