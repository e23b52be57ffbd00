/** The SmartThings API client (lib/SmartThings.js): a per-device status
    cache with a 5-second time-to-live and at most 100 entries, in front of a
    map of outstanding status fetches that makes concurrent callers for one
    device share a single HTTP request.

    The client runs on one event loop, so each `getStatus` call and each
    settling of a fetch is one atomic step. A fetch is named by a ticket;
    it stands for the shared promise object the source hands to every caller. */
module SmartThings {
  import opened JsValue

  type DeviceId = string

  /** `max` of the status cache. */
  const CacheMax: nat := 100
  /** `ttl` of the status cache, in milliseconds. */
  const CacheTtlMs: int := 5000

  /** A cached status and the clock reading at which it was stored. */
  datatype Entry = Entry(data: Value, setAt: int)

  /** An outstanding status fetch and the number of callers awaiting it. */
  datatype Fetch = Fetch(ticket: nat, waiters: nat)

  /** The client's mutable state. `issued` counts the status requests sent so
      far (and is the next ticket); `clock` is the latest time observed. */
  datatype State = State(
    cache: map<DeviceId, Entry>,
    pending: map<DeviceId, Fetch>,
    issued: nat,
    clock: int)

  /** What `getStatus` hands its caller: a cached value, the promise of the
      fetch already outstanding, or the promise of a fetch it just started. */
  datatype Reply = Hit(data: Value) | Joined(ticket: nat) | Started(ticket: nat)

  /** The HTTP response of a request: its body (`res.data`) or a rejection. */
  datatype HttpOutcome = Ok(body: Value) | Failed(cause: string)

  datatype Error =
    | HttpError(cause: string)
    | TypeError
    | StatusFetchError(deviceId: DeviceId)

  datatype Result<T> = Success(value: T) | Failure(error: Error)

  /** What a settled fetch delivers to each of its `waiters` callers. */
  datatype Delivery = Delivery(ticket: nat, waiters: nat, result: Result<Value>)

  /** The cache's expiry rule: an entry is served while its age is at most the
      TTL, and is stale only once its age exceeds it. */
  predicate IsFresh(e: Entry, now: int): (live: bool)
    ensures live <==> now <= e.setAt + CacheTtlMs
    ensures now <= e.setAt ==> live
  {
    now - e.setAt <= CacheTtlMs
  }

  /** `cache.get(id)` at time `now`: the stored value of a fresh entry, else
      `undefined`. A stale entry is not removed by the read. */
  function Lookup(cache: map<DeviceId, Entry>, id: DeviceId, now: int): (v: Value)
    ensures id in cache && IsFresh(cache[id], now) ==> v == cache[id].data
    ensures id !in cache || !IsFresh(cache[id], now) ==> v == Undefined
    ensures Truthy(v) ==> id in cache && now <= cache[id].setAt + CacheTtlMs
  {
    if id in cache && IsFresh(cache[id], now) then cache[id].data else Undefined
  }

  /** The client's invariant. */
  predicate Consistent(s: State) {
    && |s.cache| <= CacheMax
    && (forall id :: id in s.cache ==> s.cache[id].setAt <= s.clock)
    && (forall id :: id in s.pending ==> s.pending[id].ticket < s.issued && s.pending[id].waiters >= 1)
    && (forall a, b :: a in s.pending && b in s.pending && a != b ==> s.pending[a].ticket != s.pending[b].ticket)
    // a device with an outstanding fetch has no value the cache would serve
    && (forall id :: id in s.pending ==> !Truthy(Lookup(s.cache, id, s.clock)))
  }

  /** The initial state of a new client whose clock reads `now`. */
  function Initial(now: int): (s: State)
    ensures Consistent(s)
    ensures s.pending == map[] && s.issued == 0
    ensures forall id, t :: t >= now ==> Lookup(s.cache, id, t) == Undefined
  {
    State(map[], map[], 0, now)
  }

  /** `getStatus(id)` called at time `now`. */
  function GetStatusStep(s: State, id: DeviceId, now: int): (r: (State, Reply))
    // a truthy fresh cached value is returned and nothing else changes
    ensures r.1.Hit? <==> Truthy(Lookup(s.cache, id, now))
    ensures r.1.Hit? ==> id in s.cache && IsFresh(s.cache[id], now) && r.1.data == s.cache[id].data
    ensures r.1.Hit? ==> r.0 == s.(clock := now)
    // otherwise an outstanding fetch is shared: no request is sent
    ensures r.1.Joined? <==> !Truthy(Lookup(s.cache, id, now)) && id in s.pending
    ensures r.1.Joined? ==> r.1.ticket == s.pending[id].ticket && r.0.issued == s.issued
    ensures r.1.Joined? ==>
      r.0.pending == s.pending[id := s.pending[id].(waiters := s.pending[id].waiters + 1)]
    // only when both miss is exactly one new request sent
    ensures r.1.Started? <==> !Truthy(Lookup(s.cache, id, now)) && id !in s.pending
    ensures r.1.Started? ==>
      r.1.ticket == s.issued && r.0.issued == s.issued + 1 && r.0.pending == s.pending[id := Fetch(s.issued, 1)]
    // the cache is never written by a call, and other devices' fetches are untouched
    ensures r.0.cache == s.cache && r.0.clock == now
    ensures forall other :: other != id ==> (other in r.0.pending <==> other in s.pending)
    ensures forall other :: other != id && other in s.pending ==> r.0.pending[other] == s.pending[other]
  {
    var cached := Lookup(s.cache, id, now);
    if Truthy(cached) then
      (s.(clock := now), Hit(cached))
    else if id in s.pending then
      var f := s.pending[id];
      (s.(pending := s.pending[id := f.(waiters := f.waiters + 1)], clock := now), Joined(f.ticket))
    else
      (s.(pending := s.pending[id := Fetch(s.issued, 1)], issued := s.issued + 1, clock := now),
       Started(s.issued))
  }

  /** `res.data.components.main`, or the TypeError of reading a property of
      `undefined`/`null` on the way. */
  function MainComponent(body: Value): (r: Result<Value>)
    ensures r.Failure? <==> Nullish(Get(body, "components"))
    ensures r.Failure? ==> r.error == TypeError
    ensures r.Success? ==> r.value == Get(Get(body, "components"), "main")
  {
    // Get(body, _) is `undefined` when `body` itself is nullish
    var components := Get(body, "components");
    if Nullish(components) then Failure(TypeError) else Success(Get(components, "main"))
  }

  /** Whether a `set` of `id` can keep the cache within its bound by dropping
      `evict`: needed only when `id` is new and the cache is full. The library's
      recency order decides which entry that is; the model takes it as input. */
  predicate CanEvict(cache: map<DeviceId, Entry>, id: DeviceId, evict: DeviceId) {
    id in cache || |cache| < CacheMax || evict in cache
  }

  /** `cache.set(id, e)`: replaces the entry for `id`; on a full cache a new key
      first pushes out one other entry. */
  function CacheSet(cache: map<DeviceId, Entry>, id: DeviceId, e: Entry, evict: DeviceId): (c: map<DeviceId, Entry>)
    requires |cache| <= CacheMax && CanEvict(cache, id, evict)
    ensures id in c && c[id] == e
    ensures |c| <= CacheMax
    ensures c.Keys <= cache.Keys + {id}
    ensures forall k :: k in c && k != id ==> c[k] == cache[k]
    ensures id in cache || |cache| < CacheMax ==> c == cache[id := e]
    ensures !(id in cache || |cache| < CacheMax) ==> c == (cache - {evict})[id := e] && |c| == CacheMax
  {
    if id in cache || |cache| < CacheMax then
      cache[id := e]
    else
      var rest := cache - {evict};
      assert |rest| == |cache| - 1;
      rest[id := e]
  }

  /** The fetch for `id` settles at time `now`: on success it caches and
      delivers `components.main`; on any failure it delivers an error naming
      the device and leaves the cache alone; either way it stops being pending. */
  function SettleStep(s: State, id: DeviceId, outcome: HttpOutcome, now: int, evict: DeviceId): (r: (State, Delivery))
    requires id in s.pending && |s.cache| <= CacheMax && CanEvict(s.cache, id, evict)
    // every waiter of this fetch receives the one result
    ensures r.1.ticket == s.pending[id].ticket && r.1.waiters == s.pending[id].waiters
    // the pending entry goes, and only that one
    ensures r.0.pending == s.pending - {id}
    ensures r.0.issued == s.issued && r.0.clock == now
    ensures r.1.result.Success? <==> outcome.Ok? && MainComponent(outcome.body).Success?
    ensures r.1.result.Success? ==>
      r.1.result.value == Get(Get(outcome.body, "components"), "main")
      && r.0.cache == CacheSet(s.cache, id, Entry(r.1.result.value, now), evict)
    ensures r.1.result.Failure? ==> r.1.result.error == StatusFetchError(id) && r.0.cache == s.cache
  {
    var f := s.pending[id];
    var s1 := s.(pending := s.pending - {id}, clock := now);
    var main := if outcome.Ok? then MainComponent(outcome.body) else Failure(HttpError(outcome.cause));
    match main
    case Success(data) =>
      (s1.(cache := CacheSet(s.cache, id, Entry(data, now), evict)), Delivery(f.ticket, f.waiters, Success(data)))
    case Failure(_) =>
      (s1, Delivery(f.ticket, f.waiters, Failure(StatusFetchError(id))))
  }

  /** `getDevices()` given the response to `GET /devices`: `res.data.items`,
      or `[]` when that is falsy; a failed request rethrows its error
      unchanged, and a nullish `res.data` throws a TypeError. */
  function GetDevices(response: HttpOutcome): (r: Result<Value>)
    ensures response.Failed? ==> r == Failure(HttpError(response.cause))
    ensures response.Ok? && Nullish(response.body) ==> r == Failure(TypeError)
    ensures response.Ok? && !Nullish(response.body) ==> r.Success? && Truthy(r.value)
    ensures response.Ok? && Truthy(Get(response.body, "items")) ==> r == Success(Get(response.body, "items"))
    ensures response.Ok? && !Nullish(response.body) && !Truthy(Get(response.body, "items")) ==> r == Success(Arr([]))
  {
    match response
    case Failed(cause) => Failure(HttpError(cause))
    case Ok(body) =>
      if Nullish(body) then Failure(TypeError) else Success(Or(Get(body, "items"), Arr([])))
  }

  /** A value the cache would not serve at `t0` is not served later either. */
  lemma MissPersists(cache: map<DeviceId, Entry>, id: DeviceId, t0: int, t1: int)
    requires t0 <= t1 && !Truthy(Lookup(cache, id, t0))
    ensures !Truthy(Lookup(cache, id, t1))
  {
  }

  /** `getStatus` keeps the invariant. */
  lemma GetStatusStepConsistent(s: State, id: DeviceId, now: int)
    requires Consistent(s) && s.clock <= now
    ensures Consistent(GetStatusStep(s, id, now).0)
  {
    var s' := GetStatusStep(s, id, now).0;
    forall k | k in s'.pending
      ensures !Truthy(Lookup(s'.cache, k, s'.clock))
    {
      if k != id {
        MissPersists(s.cache, k, s.clock, now);
      }
    }
  }

  /** Settling a fetch keeps the invariant. */
  lemma SettleStepConsistent(s: State, id: DeviceId, outcome: HttpOutcome, now: int, evict: DeviceId)
    requires Consistent(s) && s.clock <= now && id in s.pending && CanEvict(s.cache, id, evict)
    ensures Consistent(SettleStep(s, id, outcome, now, evict).0)
  {
    var s' := SettleStep(s, id, outcome, now, evict).0;
    assert s'.pending == s.pending - {id};
    forall k | k in s'.cache
      ensures s'.cache[k].setAt <= s'.clock
    {
      if k != id {
        assert s'.cache[k] == s.cache[k];
      }
    }
    forall k | k in s'.pending
      ensures !Truthy(Lookup(s'.cache, k, s'.clock))
    {
      assert k != id && k in s.pending;
      MissPersists(s.cache, k, s.clock, now);
      if k in s'.cache {
        assert s'.cache[k] == s.cache[k];
      }
    }
  }

  /** `times` is non-decreasing: the clock never runs backwards. */
  predicate Ascending(times: seq<int>) {
    forall i, j :: 0 <= i <= j < |times| ==> times[i] <= times[j]
  }

  /** A burst of `getStatus(id)` calls at the given times with no fetch
      settling in between: the final state and the replies in order. */
  function GetStatusBurst(s: State, id: DeviceId, times: seq<int>): (State, seq<Reply>)
    decreases |times|
  {
    if times == [] then (s, [])
    else
      var (s1, reply) := GetStatusStep(s, id, times[0]);
      var (s2, replies) := GetStatusBurst(s1, id, times[1..]);
      (s2, [reply] + replies)
  }

  /** While a fetch for `id` is outstanding, every further call that misses
      the cache joins it: no request is sent and the cache is untouched. */
  lemma {:induction false} BurstJoins(s: State, id: DeviceId, times: seq<int>)
    requires id in s.pending && Ascending(times)
    requires |times| > 0 ==> !Truthy(Lookup(s.cache, id, times[0]))
    ensures var (s', replies) := GetStatusBurst(s, id, times);
      && |replies| == |times|
      && (forall k :: 0 <= k < |replies| ==> replies[k] == Joined(s.pending[id].ticket))
      && s'.issued == s.issued && s'.cache == s.cache
      && id in s'.pending && s'.pending[id].ticket == s.pending[id].ticket
      && s'.pending[id].waiters == s.pending[id].waiters + |times|
    decreases |times|
  {
    if times != [] {
      var s1 := GetStatusStep(s, id, times[0]).0;
      if |times| > 1 {
        MissPersists(s.cache, id, times[0], times[1]);
      }
      BurstJoins(s1, id, times[1..]);
    }
  }

  /** Coalescing: N calls for a device that misses the cache and has no fetch
      outstanding send exactly one request; the first caller starts it and
      every later caller shares that same fetch. */
  lemma SingleFlight(s: State, id: DeviceId, times: seq<int>)
    requires id !in s.pending && |times| > 0 && Ascending(times)
    requires !Truthy(Lookup(s.cache, id, times[0]))
    ensures var (s', replies) := GetStatusBurst(s, id, times);
      && |replies| == |times|
      && replies[0] == Started(s.issued)
      && (forall k :: 1 <= k < |replies| ==> replies[k] == Joined(s.issued))
      && s'.issued == s.issued + 1
      && id in s'.pending && s'.pending[id] == Fetch(s.issued, |times|)
  {
    var s1 := GetStatusStep(s, id, times[0]).0;
    if |times| > 1 {
      MissPersists(s.cache, id, times[0], times[1]);
    }
    BurstJoins(s1, id, times[1..]);
  }

  /** Cache TTL: after a successful fetch of a truthy `main`, calls within 5 s
      are served from the cache without a request; the first call after
      that sends a new request. */
  lemma ServedWithinTtl(s: State, id: DeviceId, body: Value, now: int, evict: DeviceId, later: int)
    requires Consistent(s) && s.clock <= now && id in s.pending && CanEvict(s.cache, id, evict)
    requires MainComponent(body).Success? && Truthy(MainComponent(body).value)
    ensures var s' := SettleStep(s, id, Ok(body), now, evict).0;
      var (s'', reply) := GetStatusStep(s', id, later);
      && (now <= later <= now + CacheTtlMs ==> reply == Hit(MainComponent(body).value) && s''.issued == s.issued)
      && (later > now + CacheTtlMs ==> reply == Started(s.issued) && s''.issued == s.issued + 1)
  {
  }

  /** A failed fetch caches nothing: the next call for that device, at any
      later time, does not serve a value and sends a new request. */
  lemma RefetchAfterFailure(s: State, id: DeviceId, outcome: HttpOutcome, now: int, evict: DeviceId, later: int)
    requires Consistent(s) && s.clock <= now && id in s.pending && CanEvict(s.cache, id, evict)
    requires outcome.Failed? || MainComponent(outcome.body).Failure?
    requires now <= later
    ensures var s' := SettleStep(s, id, outcome, now, evict).0;
      GetStatusStep(s', id, later).1 == Started(s.issued)
  {
  }

  /** A falsy cached value (for example a missing `main`) counts as a miss. */
  lemma FalsyCachedValueIsMiss(s: State, id: DeviceId, now: int)
    requires id in s.cache && IsFresh(s.cache[id], now) && !Truthy(s.cache[id].data)
    ensures !GetStatusStep(s, id, now).1.Hit?
    ensures id !in s.pending ==> GetStatusStep(s, id, now).1 == Started(s.issued)
  {
  }

  /** The client object: the cache and pending map are fields that each event
      updates in place. */
  class Client {
    var cache: map<DeviceId, Entry>
    var pending: map<DeviceId, Fetch>
    var issued: nat
    var clock: int

    function Snapshot(): State
      reads this
    {
      State(cache, pending, issued, clock)
    }

    ghost predicate Valid()
      reads this
    {
      Consistent(Snapshot())
    }

    /** `new SmartThings(token, log)`: an empty cache and no pending fetch. */
    constructor (now: int)
      ensures Valid() && Snapshot() == Initial(now)
    {
      cache := map[];
      pending := map[];
      issued := 0;
      clock := now;
    }

    /** `getStatus(deviceId)` at time `now`. */
    method GetStatus(id: DeviceId, now: int) returns (reply: Reply)
      requires Valid() && clock <= now
      modifies this
      ensures Valid()
      ensures (Snapshot(), reply) == GetStatusStep(old(Snapshot()), id, now)
    {
      ghost var step := GetStatusStep(Snapshot(), id, now);
      GetStatusStepConsistent(Snapshot(), id, now);
      clock := now;
      var cached := Lookup(cache, id, now);
      if Truthy(cached) {
        reply := Hit(cached);
      } else if id in pending {
        var f := pending[id];
        pending := pending[id := f.(waiters := f.waiters + 1)];
        reply := Joined(f.ticket);
      } else {
        pending := pending[id := Fetch(issued, 1)];
        reply := Started(issued);
        issued := issued + 1;
      }
      assert (Snapshot(), reply) == step;
    }

    /** The fetch for `id` settles at time `now` with `outcome`; `evict` is the
      entry the cache drops if it is full and `id` is new. */
    method Settle(id: DeviceId, outcome: HttpOutcome, now: int, evict: DeviceId) returns (d: Delivery)
      requires Valid() && clock <= now && id in pending && CanEvict(cache, id, evict)
      modifies this
      ensures Valid()
      ensures (Snapshot(), d) == SettleStep(old(Snapshot()), id, outcome, now, evict)
    {
      ghost var step := SettleStep(Snapshot(), id, outcome, now, evict);
      SettleStepConsistent(Snapshot(), id, outcome, now, evict);
      var f := pending[id];
      var main := if outcome.Ok? then MainComponent(outcome.body) else Failure(HttpError(outcome.cause));
      if main.Success? {
        cache := CacheSet(cache, id, Entry(main.value, now), evict);
        d := Delivery(f.ticket, f.waiters, Success(main.value));
      } else {
        d := Delivery(f.ticket, f.waiters, Failure(StatusFetchError(id)));
      }
      pending := pending - {id};
      clock := now;
      assert (Snapshot(), d) == step;
    }
  }
}
