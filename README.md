# ObservableMemcached, modelled in Dafny

campbellcache shields expensive keyed operations from thundering herds, and
reads and writes their results through a distributed memcached cache. This
project models the adapter that does that reading and writing:
`ObservableMemcached` in `lib/observable-memcached.js`. It covers the
adapter's construction, including how client options are defaulted and when
the adapter is forced off. It also covers `isAvailable`, `get`, `set`, `del`,
`flush`, `shutdown` and `setMetricsRecorder`.

Two outside parts are replaced by stand-ins:

- **The memcached client** becomes an in-memory key/value store
  (`InMemoryClient`). Each of its operations takes a `fails` input, so both
  the success and the error branch of every adapter callback are reachable.
  A call that reports an error is taken to have left the store unchanged. A
  key the store does not hold reads back as `undefined` with no error.
- **The metrics recorder** becomes an append-only log (`Metrics`). Each entry
  records which recorder was called and with what: hit, miss, counter
  increment or duration.

JavaScript values are modelled as `JsValues.Value`, along with JavaScript
truthiness. The model needs them because the adapter uses two defaulting
rules: `||` and `getOrDefault`. It also needs them for `if(data)` in `get`.

Layout:

- `values.dfy`: `Wrappers.Option`, JavaScript values, `||` and `getOrDefault`.
- `config.dfy`: resolution of the `memcached` options into the client's options.
- `cache_item.dfy`, `metrics.dfy`, `client.dfy`: the cache item, the recorder
  log and the client stand-in.
- `adapter_spec.dfy`: the adapter as a state machine over a `State` value, one
  function per operation.
- `observable_memcached.dfy`: the `Adapter` class. Its fields `enabled`,
  `client`, `metricsRecorder` and `metrics` are updated in place. Each
  state-changing operation is proved to take the adapter from one state to
  the next exactly as the matching `AdapterSpec` function does.
- `traces.dfy`: properties that hold across any sequence of operations.

The model follows the code in these places, even where a reader might
expect otherwise:

- `flush` on an adapter with no client never calls the caller's callback.
- `flush` still reaches the client after `shutdown`. It also reaches the
  client of an adapter that was asked to be enabled but was forced off for
  lack of hosts.
- A client is built whenever `enabled` was requested, even when an empty host
  list forces the adapter off.
- `shutdown()` with no argument treats the grace period as 1000 when deciding
  between closing now and closing later. The timer itself is still armed with
  the caller's own argument, which is `undefined`. So the deferred close is
  not delayed by 1000 ms.
- A numeric option given as `0` (or as any other falsy value) is replaced by
  its default. Only the four flags keep an explicit falsy value.
- A stored falsy value (`0`, `""`, `false`, `null`) reads back as a miss.

## Model

| member | source | states |
|---|---|---|
| JsValues.GetOrDefault | lib/observable-memcached.js:10-12 | a supplied value is kept unless it is undefined; only undefined yields the fallback |
| JsValues.Or | lib/observable-memcached.js:29-41 | JavaScript's logical or of v and d keeps v exactly when v is truthy, otherwise yields d; the result is truthy iff v or d is |
| JsValues.OrDiffersFromGetOrDefault | lib/observable-memcached.js:29-43 | the two defaulting rules disagree exactly on a defined, falsy value that differs from the default |
| MemcachedConfig.ResolveClientConfig | lib/observable-memcached.js:28-44 | each numeric option is kept if truthy, otherwise set to its default (2500, 10, 0, 120000, 30000, 60000, 1048576, 5000, 10000, 3); each flag is kept if defined, otherwise set to false |
| MemcachedConfig.EmptyOptionsGiveDefaults | lib/observable-memcached.js:15-44 | with no `memcached` options the client receives exactly the documented default table |
| MemcachedConfig.NumericOptionsNeverFalsy | lib/observable-memcached.js:29-41 | every numeric option except `retries` reaches the client truthy; `retries` becomes 0 whenever the supplied value is falsy |
| AdapterSpec.Construct | lib/observable-memcached.js:14-46 | enabled iff requested and the host list is present and non-empty; a client (empty store, not closed, given the hosts and the resolved options) exists iff enabled was requested; the recorder is the supplied one, else the no-op one; the metrics log starts empty |
| AdapterSpec.NoHostsMeansDisabled | lib/observable-memcached.js:18-23 | built with an empty host list, the adapter is unavailable and a get yields CacheItem(key, null, false) with exactly one miss metric |
| AdapterSpec.Get | lib/observable-memcached.js:104-135 | the item has the requested key; it is from the cache iff the adapter is enabled, the read succeeds and the stored value is truthy, and then carries that value, else null; disabled: exactly one miss metric is logged and nothing else changes; enabled: a hit or miss, then one counter increment, then one duration, all on the current recorder |
| AdapterSpec.Set | lib/observable-memcached.js:64-80 | an observer, when given, receives CacheItem(key, value, false) whether the adapter is enabled and whether the write fails; the store gains the key only on an enabled adapter whose write succeeds, otherwise the client is untouched; the client's hosts, options and close requests, the metrics and the flags never change |
| AdapterSpec.Del | lib/observable-memcached.js:83-102 | the result is true iff the adapter is enabled and the delete succeeds, and then the key is gone and nothing else is; otherwise the client is untouched; the client's hosts, options and close requests never change |
| AdapterSpec.Flush | lib/observable-memcached.js:140-148 | no client: nothing changes and the callback is not called; with a client (enabled or not): the callback is called with the flush's error status and a successful flush empties the store; the client's hosts, options and close requests never change |
| AdapterSpec.Shutdown | lib/observable-memcached.js:150-165 | the adapter ends disabled; a client, if any, gets exactly one new close request: immediate iff a grace period ≤ 0 was given, otherwise deferred with the caller's raw argument; the store, recorder and metrics are unchanged |
| AdapterSpec.SetMetricsRecorder | lib/observable-memcached.js:168-170 | the recorder becomes the given one and nothing else changes |
| AdapterSpec.SetThenGet | lib/observable-memcached.js:111-121 | on an enabled adapter, a successful set of a truthy value followed by a successful get of that key yields CacheItem(key, value, true) |
| AdapterSpec.SetFalsyThenGet | lib/observable-memcached.js:116-122 | a falsy value, once written, reads back as CacheItem(key, null, false) |
| AdapterSpec.DelThenGet | lib/observable-memcached.js:87-92 | after a delete that reports true, a get of that key is a miss |
| ObservableMemcached.Adapter.constructor | lib/observable-memcached.js:14-46 | the new object's fields equal AdapterSpec.Construct of the arguments |
| ObservableMemcached.Adapter.IsAvailable | lib/observable-memcached.js:60-62 | reports the adapter's current enabled flag |
| ObservableMemcached.Adapter.Get | lib/observable-memcached.js:104-135 | returns the item and appends the metrics that AdapterSpec.Get gives, and changes nothing else |
| ObservableMemcached.Adapter.Set | lib/observable-memcached.js:64-80 | the observer notice and the new client are those of AdapterSpec.Set |
| ObservableMemcached.Adapter.Del | lib/observable-memcached.js:83-102 | the result and the new client are those of AdapterSpec.Del |
| ObservableMemcached.Adapter.Flush | lib/observable-memcached.js:140-148 | the callback notice and the new client are those of AdapterSpec.Flush |
| ObservableMemcached.Adapter.StopClient | lib/observable-memcached.js:48-55 | records one close request on the client |
| ObservableMemcached.Adapter.Shutdown | lib/observable-memcached.js:150-165 | the new fields are those of AdapterSpec.Shutdown |
| ObservableMemcached.Adapter.SetMetricsRecorder | lib/observable-memcached.js:168-170 | the new fields are those of AdapterSpec.SetMetricsRecorder |
| AdapterTraces.Run | lib/observable-memcached.js:60-170 | over any sequence of operations the invariant "enabled implies a client" holds, a disabled adapter never becomes enabled again, the client is neither built nor dropped, and the metrics log only grows |
| AdapterTraces.EveryGetLogsOneLookup | lib/observable-memcached.js:110-133 | over any sequence of operations, the hit-or-miss events logged equal the number of gets, whether or not the adapter is enabled |
| AdapterTraces.MetricsGoToCurrentRecorder | lib/observable-memcached.js:109-132 | as long as the recorder is not replaced, every metric a sequence of operations logs goes to the recorder held before it |
| AdapterTraces.StoreFrozenWhileDisabled | lib/observable-memcached.js:64-102 | on a disabled adapter, no sequence of gets, sets, deletes, shutdowns or recorder changes alters the store |
| AdapterTraces.UnwrittenKeyStaysAbsent | lib/observable-memcached.js:64-102 | a key absent from the store stays absent across any sequence of operations that does not set it |
| AdapterTraces.NeverSetKeyMisses | lib/observable-memcached.js:111-121 | a key the store does not hold (as on a freshly built adapter) and that no later operation sets reads as CacheItem(key, null, false), whatever reads, deletes, flushes or shutdowns came between |
| AdapterTraces.ShutdownIsFinal | lib/observable-memcached.js:150-165 | after shutdown, whatever operations follow, the adapter is unavailable and every get is a miss |

## Left out

- The memcached wire client is not modelled. Its place is taken by an in-memory map whose operations may fail.
- A client call that reports an error is modelled as having had no effect on the store. The real client can report an error for a write or delete the server did apply (for instance when the `timeout` fires), and a flush across several hosts can succeed on only some of them. So the `Set`, `Del` and `Flush` clauses saying that a failed call leaves the client untouched are about the stand-in, not promises of the real client.
- Objects, arrays and Buffers are not among the modelled values. In JavaScript they are always truthy, so a stored object would read back as a hit. Hosts given as a single string or as memcached's server-weight object are not modelled either; for the object form `hosts.length > 0` is false, so the adapter would be forced off while a client is still built when enabled was requested.
- Entry expiry is not modelled: the ttl is stored with each entry, but no time passes in the model.
- Reactive-stream behaviour is not modelled. The model leaves out laziness ("runs only when subscribed"), `take(1)`, `shareReplay(1)` and asynchronous callback ordering. Each `get` and `del` returns its single result at once.
- The `set` observer and the `flush` callback appear only as the value they receive.
- Timers are not modelled. A deferred close is recorded as a request that carries its delay; the moment it runs is not modelled. The elapsed milliseconds passed to `setDuration` are not modelled either.
- Logging is not modelled.
- Errors thrown by the client's `end()` are not modelled. The source catches them (lib/observable-memcached.js:48-55), and the model records each close request as made.
- The metrics backend is not modelled; only the sequence of calls on recorders is.
- The default no-op recorder is one value, so no two no-op recorders can be told apart.
- JavaScript numbers are integers in the model; NaN, -0 and fractions are left out. Shutdown's grace period is an optional integer, so a non-number argument is left out. The requested `enabled` flag is a boolean, although the source stores whatever value it is given.
- The constructor's write of `memcached: {}` back into the caller's options object is not modelled.
- lib/herdcache.js (request coalescing), lib/cacheitem.js, lib/timer.js, lib/cachemetricstrings.js and lib/noopmetricsrecorder.js are not part of this model. Only the three fields of the cache item and the single distributed-cache metric tag are modelled.
