# SmartThings washer/dryer plugin: status cache, request coalescing and status interpretation

This project models the two pieces of sequential logic in the Homebridge
SmartThings washer/dryer plugin and proves properties about them.

- **The API client** (`lib/SmartThings.js`, module `SmartThings`). `getStatus(deviceId)`
  does three things in order. It serves a truthy value from a status cache with a
  5-second time-to-live and at most 100 entries. Failing that, it hands the caller
  the fetch already outstanding for that device. Otherwise it starts one
  `GET /devices/{id}/status`. That fetch caches and returns `components.main`
  on success. On failure it rejects with an error that names the device (given
  a logger with an `.error` method). Either way it removes its entry from the
  pending map. `getDevices()` returns
  `res.data.items`, or `[]` when that is falsy.
  The client is the class `SmartThings.Client`. Its fields are the cache, the
  pending map, a count of status requests sent and the clock. Each JavaScript
  event is one method: a `getStatus` call is `GetStatus`, and the settling of a
  fetch is `Settle`. Both are proved against the pure step functions
  `GetStatusStep` and `SettleStep`. The lemmas about multi-call behaviour
  (coalescing, TTL, the invariant) are stated over those functions.
- **Status interpretation** (`index.js`, module `WasherStatus`).
  `extractBestComponentStatus` looks at the components `main`, `hca.main` and
  `sub`, in that order. It selects the first one that is present and has a truthy
  job state, operating state, remaining time, remaining-time string or completion
  time. Each of these fields is an `||` chain over capability attributes.
  The loop is a method, proved against the recursive reference function
  `FirstActive`. `mapJobStateToCurrentState` sorts job-state strings into the
  HomeKit values 0, 1 and 2.
- **JavaScript values** (module `JsValue`). Payloads are `Value`s: undefined, null,
  booleans, integers, strings, arrays and objects. The module defines truthiness,
  where `undefined`, `null`, `false`, `0` and `""` are falsy. It also defines
  optional-chaining property access and `||`. An `||` chain yields its first
  truthy operand, or its last operand when none is truthy.

Inputs that the source gets from outside become parameters:

- the HTTP response of each request (`HttpOutcome`: a body, or a rejection);
- the clock reading at each event (`now`, never decreasing);
- the cache entry that lru-cache drops when it is full (`evict`).

Note that the cache holds `res.data.components.main`, not the whole status
body. The error given to waiters names only the device: the code throws a fresh
`Error` and does not keep the cause. The code has no retry, back-off, OAuth
refresh or 401 handling.

## Model

| member | source | states |
|---|---|---|
| JsValue.CoalescePicksFirstTruthy | index.js:91-102 | an `\|\|` chain evaluates to its first truthy operand |
| JsValue.CoalesceAllFalsy | index.js:91-102 | with no truthy operand, an `\|\|` chain evaluates to its last operand |
| JsValue.CoalesceTruthy | index.js:91-104 | an `\|\|` chain is truthy iff one of its operands is |
| WasherStatus.ExtractBestComponentStatus | index.js:85-117 | throws a TypeError exactly when `data.components` is undefined or null; otherwise returns the record of the first active component among main, hca.main, sub, or `{}` (loop proved against `FirstActive`) |
| WasherStatus.FirstActiveSelectsFirst | index.js:86-113 | if key i is the first active one, it is selected; the record's `component` is that key and its `remainingMinutes` is that component's `remaining` |
| WasherStatus.FirstActiveEmptyIff | index.js:87-116 | the result is `{}` iff no key names an active component (so also when all are absent) |
| WasherStatus.FirstActiveSelectedIndex | index.js:88-114 | every selected record comes from an active key with no active key before it |
| WasherStatus.FieldTruthy | index.js:91-102 | a field is truthy iff some capability attribute it reads is truthy |
| WasherStatus.ActiveIffSomeSourceTruthy | index.js:89-104 | a component is selectable iff it is present and one of the twelve attributes read is truthy |
| WasherStatus.JobStatePriority | index.js:91-94 | jobState is the first truthy of dryerOperatingState.dryerJobState, washerOperatingState.washerJobState, samsungce.dryerOperatingState.dryerJobState, samsungce.washerOperatingState.washerJobState |
| WasherStatus.DryerBeforeWasher | index.js:95-102 | opState, remaining, timeStr and completion take the dryer capability's value when truthy, else the washer capability's |
| WasherStatus.IdleDryerShowsNoActivity | index.js:97-104 | a component that reports only `remainingTime: 0` shows no activity |
| WasherStatus.RinsingWasherStatus | index.js:91-112 | a component reporting only washerJobState "rinse" yields jobState "rinse" and undefined elsewhere |
| WasherStatus.SubSelectedWhenOnlyActive | index.js:86-113 | with main and hca.main inactive and sub active, sub's record is selected |
| WasherStatus.ZeroRemainingTimeSkipped | index.js:88-116 | a main component with only `remainingTime: 0` is skipped, and an active sub component after it is selected |
| WasherStatus.MapJobStateToCurrentState | index.js:119-134 | 2 iff the state is one of drying, washing, rinse, spin, run; 0 iff one of none, ready, stop; 1 for every other value; always in {0,1,2} |
| SmartThings.Initial | lib/SmartThings.js:15-20 | a new client has an empty cache, no pending fetch, no requests sent |
| SmartThings.IsFresh | lib/SmartThings.js:17 | an entry is fresh until its age exceeds 5000 ms, and always fresh at the moment it is set |
| SmartThings.Lookup | lib/SmartThings.js:34 | `cache.get` returns the stored value of a present, fresh entry and `undefined` for an absent or stale one; a truthy result comes from an entry set at most 5 s ago |
| SmartThings.GetStatusStep | lib/SmartThings.js:33-59 | a hit (fresh, truthy cached value) returns that value and changes nothing; otherwise a pending fetch is shared with no new request, keeping its ticket and counting one more waiter; only when both miss is exactly one request started and one pending entry added; never writes the cache; other devices untouched |
| SmartThings.MainComponent | lib/SmartThings.js:44-45 | the fetched value is `res.data.components.main`, with a TypeError when `components` is undefined or null |
| SmartThings.CacheSet | lib/SmartThings.js:15-18 | setting a key stores the entry and never lets the cache exceed 100 entries; an existing key or a cache below 100 loses nothing; a new key on a full cache drops exactly the entry `evict` and leaves 100 entries |
| SmartThings.SettleStep | lib/SmartThings.js:43-55 | on success, the device maps to `components.main`, set at now, which every waiter receives; on failure, the cache is unchanged and every waiter gets an error naming the device; in both cases exactly that device's pending entry is removed |
| SmartThings.GetDevices | lib/SmartThings.js:23-31 | returns `items` when truthy, `[]` otherwise; a failed request rethrows its error unchanged (given a logger with `.error`) |
| SmartThings.MissPersists | lib/SmartThings.js:34-35 | a device the cache does not serve at one time is not served at any later time before a new set |
| SmartThings.GetStatusStepConsistent | lib/SmartThings.js:33-59 | getStatus preserves the invariant: at most 100 entries, distinct tickets per pending device, no servable cached value for a pending device |
| SmartThings.SettleStepConsistent | lib/SmartThings.js:43-55 | settling preserves the same invariant |
| SmartThings.BurstJoins | lib/SmartThings.js:39-41 | while a fetch is pending, every further missing call joins it; no request is sent and the cache is untouched |
| SmartThings.SingleFlight | lib/SmartThings.js:39-58 | N calls that miss the cache with nothing pending send exactly one request; the first starts it and all others share it |
| SmartThings.ServedWithinTtl | lib/SmartThings.js:34-48 | after a successful fetch of a truthy value, calls within 5 s are served from the cache with no request; the first call after 5 s starts a new request |
| SmartThings.RefetchAfterFailure | lib/SmartThings.js:49-55 | after a failed fetch, the next call for that device serves nothing and starts a new request |
| SmartThings.FalsyCachedValueIsMiss | lib/SmartThings.js:34-37 | a fresh but falsy cached value is a miss, not a hit |
| SmartThings.Client.constructor | lib/SmartThings.js:6-21 | a new client satisfies the invariant with an empty cache and pending map |
| SmartThings.Client.GetStatus | lib/SmartThings.js:33-59 | the new fields and the reply are exactly `GetStatusStep` of the old fields; the invariant is kept |
| SmartThings.Client.Settle | lib/SmartThings.js:43-55 | the new fields and the delivery are exactly `SettleStep` of the old fields; the invariant is kept |

## Left out

- The HomeKit platform, accessory, service and characteristic registration and the `get` handlers (index.js:36-83) are left out as framework glue.
- `fetchStatus` (index.js:136-150) and the axios client with its base URL, bearer header and 10 s timeout (lib/SmartThings.js:9-13) are network I/O. Their results enter only as `HttpOutcome` inputs.
- OAuth token exchange and refresh, retry with back-off and 401 replay are left out, because no code in these files implements them.
- lru-cache's recency order is not modelled. `CacheSet` takes the entry to drop as the input `evict`, and records only the bound of 100 entries and the 5 s expiry.
- lru-cache's internal bookkeeping is not modelled. Its staleness rule is: an entry is stale only once its age exceeds the ttl, so an entry aged exactly 5000 ms is still served. `IsFresh` states that rule.
- SmartThings.CacheSet: keeps an entry whose value is `undefined`, where lru-cache would delete the key. `getStatus` treats both as a miss, so only the entry count can differ.
- SmartThings.Lookup: expired entries are not removed when read. They are only never served, and they still count toward the 100-entry bound until replaced or evicted.
- The `.then` and `.finally` callbacks of a fetch are modelled as one atomic settle step. The microtask gap between them is not modelled.
- Logging calls, log message text and the wording of the thrown error are omitted. The error is modelled as `StatusFetchError(deviceId)`.
- SmartThings.GetDevices: assumes the client was given a logger with an `.error` method. With the default `console.log` (lib/SmartThings.js:7), `this.log.error` is undefined, so the catch block at lib/SmartThings.js:28 throws a `TypeError` instead of rethrowing the request's error. index.js does not construct the client, so which logger is passed is not part of this model.
- SmartThings.SettleStep: assumes the same logger. With the default `console.log`, the catch block at lib/SmartThings.js:50 throws a `TypeError`, so `getStatus` waiters would get that rather than the error naming the device. The `finally` still runs, so the pending-map and cache results are unaffected.
- The unused `CONSTANTS` table and the `tls`, `fs` and `crypto` imports (index.js:5-27) are not modelled.
- JavaScript numbers are modelled as integers, so NaN, -0 and fractional values are not covered.
- Reading a built-in property of a string or array (such as `length`) is not modelled, because none of the keys the code reads is one.
