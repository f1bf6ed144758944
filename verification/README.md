# Package-stat tracker: a verified model

This project models the stateful core of a small dashboard backend. A client
sends `trackPackage` with a package name. The server looks the package up in
several registries, caches one snapshot per name in a process-wide map, and
starts a one-second interval. Each firing extrapolates the snapshot's download
counters from a per-second rate and emits a `packageUpdate` payload. Disconnect
clears the intervals.

Modules:

- `Wrappers`: the `Option` used for every lookup that may return `null`.
- `Registry`: the shapes of the lookup results. Also the cumulative-downloads
  sum of a ranged response, a left fold as `reduce` computes it, proved equal to
  a reference sum.
- `Snapshots`: the snapshot as a value. `Build` is the mandatory-data gate and
  record construction. `Advance` is one tick's arithmetic. `Project` is the
  emitted payload. The lemmas say what ticks do over time.
- `Tracker`: the in-place state. `Snapshot` is a map entry whose counters
  ticks update in place. `Session` is one connection with its live intervals.
  `Server` holds the shared `packageData` map and the single `currentpackage`
  slot (`current`), with the handlers `TrackPackage`, `Fire` (one interval
  firing) and `Session.Disconnect`.

Quirks of the code the model keeps:

- The elapsed milliseconds of a tick are divided by 10000, so a second of
  wall-clock time adds a tenth of a second's worth of downloads.
  `HundredSecondsOfThousandDaily` illustrates it: a package with 1000 daily
  downloads still emits 1000 after 100 seconds.
- One `currentpackage` slot is shared by every connection. A request for a
  cached name does not set the slot. Any request for an uncached name clears
  it, and the ticks of every session then emit nothing until a build succeeds
  (`FailedRequestSilencesOthers`).
- The cache test is the truthiness of `packageData[packageName]` on a plain
  object, so names inherited from `Object.prototype` (`constructor`,
  `toString`, `__proto__`, ...) count as cached and are never looked up or
  stored (`Tracker.Inherited`, `Server.Cached`).
- The package document is effectively mandatory: when it is missing, reading
  its fields throws before anything is stored and before the interval starts
  (`BuildResult.Threw`).
- A `null` weekly or total counter becomes a number at the first tick: `+=`
  turns `null` into 0 plus the delta (`Coerce`). `Math.floor(null)` is 0 as well.
- Each tick adds only the time since the previous stamp, whichever session
  wrote it, so ticks by several sessions on one shared snapshot add up to a
  single tick at the last instant (`TicksTelescope`).
- Every track request that completes starts a new interval, cached name or
  not. Disconnect clears all of them.

## Model

| member | source | states |
|---|---|---|
| `Registry.TotalDownloads` | index.js:71-75 | the cumulative count is present exactly when the response has a `downloads` array; it is then the sum of the per-day counts (0 for an empty array) |
| `Registry.ReduceIsSum` | index.js:72 | the `reduce` left fold (`Registry.Reduce`) from accumulator `acc` returns `acc` plus the reference sum of the day counts |
| `Snapshots.Build` | index.js:98-122 | a record is built only when both the daily point and the scores are present; with them present and the document missing the handler throws; a built record has every counter equal to its base, `rate * 86400` equal to the daily count, `lastUpdated = now`, and its scores and metadata taken from the lookups |
| `Snapshots.Advance` | index.js:134-139 | one tick adds one common delta (`Gain`) `rate * (now - lastUpdated) / 10000` to the daily, weekly and total counters (`null` as 0, by `Coerce`), sets `lastUpdated = now`, and leaves bases, rate, scores and metadata unchanged |
| `Snapshots.Project` | index.js:141-157 | the emitted `estimatedDownloads`, `weeklyDownloads` and `totalDownloads` are the floors of the counters; the base count, scores, metadata and whole record are passed through |
| `Snapshots.AdvanceMonotone` | index.js:134-138 | with a consistent rate and `now >= lastUpdated`, no counter decreases (the rate itself is unchanged by `Advance`) |
| `Snapshots.AdvanceTwice` | index.js:134-139 | ticking at `t1` then at `t2` gives the same record as one tick at `t2` |
| `Snapshots.TicksTelescope` | index.js:132-139 | any sequence of ticks ends in the record a single tick at the last instant gives: total growth is `rate * (last - lastUpdated) / 10000` |
| `Snapshots.EmittedNonDecreasing` | index.js:143-155 | for ticks at `lastUpdated <= t1 <= t2`, none of the three emitted counters goes down |
| `Snapshots.HundredSecondsOfThousandDaily` | index.js:101-143 | an illustration of the divisor of 10000, not a general property: a fresh record with 1000 daily downloads, ticked 100 s later, still emits an estimate of 1000 |
| `Tracker.Snapshot.constructor` | index.js:102-122 | the stored object holds exactly the built record, and its rate matches its daily base |
| `Tracker.Snapshot.Tick` | index.js:134-139 | the in-place update leaves the entry equal to `Advance` of its previous value |
| `Tracker.Session.constructor` | index.js:82-86 | a new connection is connected and has no interval |
| `Tracker.Session.Disconnect` | index.js:161-164 | every interval the connection started is cleared |
| `Tracker.Server.constructor` | index.js:15-16 | the map starts empty and the slot `null` |
| `Tracker.Server.TrackPackage` | index.js:86-132 | a cached name, stored or inherited from `Object.prototype`, leaves map and slot unchanged. Otherwise the result is `Build` of the lookups, and the slot is cleared. A built record is stored as a fresh entry under the name, no other entry changes, and the slot points at it. Without a build the map is unchanged and the slot stays `null`. An interval starts unless the handler threw |
| `Tracker.Server.Fire` | index.js:132-159 | with no live interval or an empty slot nothing changes and nothing is emitted; otherwise the slot's entry becomes `Advance` of itself and the payload is `Project` of the new value; the map and slot are unchanged |
| `Tracker.DisconnectStopsTicks` | index.js:161-162 | after disconnect, firings at any later instants emit nothing |
| `Tracker.FailedRequestSilencesOthers` | index.js:89-98 | a request from another connection for an uncached name whose daily lookup fails leaves every session's firings silent |

## Left out

- The five HTTP lookups (index.js:18-80) are not modelled. Their results are the
  `Responses` input, with `None` for a failed lookup. A missing
  `downloads` field in the weekly lookup is not told apart from a failed lookup.
- Malformed bodies that would throw while fields are read (`score.detail`,
  `collected.metadata.links`, `time`, `dist-tags`) are not modelled. Those
  lookups are taken to return well-formed records when present.
- `Date.now()` is the `now` parameter. One tick reads the clock twice (index.js:134, 139). The model uses
  one instant for both reads.
- The date string of the ranged lookup (index.js:68) is not modelled.
- Timer scheduling is not modelled: each firing of an interval is an explicit `Server.Fire` call.
- Socket transport, event registration, CORS, `server.listen` and logging are not modelled.
- Floating point: the rate, delta and counters are exact reals. IEEE rounding
  and `NaN` from `undefined` fields are not modelled.
- Concurrency: each `trackPackage` handler runs atomically. Handlers in the
  source can interleave at the lookups' `await`s. Two requests for one
  uncached name can then both build, and the later store wins.
- A disconnect that arrives while a handler is still awaiting its lookups
  happens before that handler registers its disconnect listener. Its interval
  is then never cleared. This interleaving is not modelled.
- `Server.TrackPackage` requires a connected session, because the transport delivers no events on a closed connection.
- Server.TrackPackage: when the package document is missing the handler's
  promise rejects and nothing catches it. The model assumes the process
  survives: nothing is stored, no interval starts, and the other sessions and
  the map carry on. A Node.js runtime that ends the process on an unhandled
  rejection would instead drop every session and the whole map; that outcome
  is not modelled.
