/** The ObservableMemcached adapter object: its fields are updated in place
    by its methods. Each state-changing operation is proved to take the
    adapter from one state to the next exactly as the matching function of
    AdapterSpec does. */
module ObservableMemcached {
  import opened Wrappers
  import opened JsValues
  import opened MemcachedConfig
  import opened CacheItems
  import opened Metrics
  import opened InMemoryClient
  import AdapterSpec

  class Adapter {
    var enabled: bool
    var client: Option<Client>
    var metricsRecorder: Recorder
    /** The calls made on recorders so far, oldest first. */
    var metrics: seq<Delivery>

    /** The adapter's fields as one value. */
    function Snapshot(): AdapterSpec.State
      reads this
    {
      AdapterSpec.State(enabled, client, metricsRecorder, metrics)
    }

    ghost predicate Valid()
      reads this
    {
      AdapterSpec.WellFormed(Snapshot())
    }

    constructor (enabled: bool, hosts: Option<seq<string>>, opts: Option<AdapterSpec.AdapterOptions>)
      ensures Valid()
      ensures Snapshot() == AdapterSpec.Construct(enabled, hosts, opts)
    {
      var options := if opts.Some? then opts.value else AdapterSpec.AdapterOptions(None, None);
      var memcached := if options.memcached.Some? then options.memcached.value else NoMemcachedOptions;
      metricsRecorder := if options.metricsRecorder.Some? then options.metricsRecorder.value else NoOpRecorder;
      // an empty or missing host list forces the adapter off
      if AdapterSpec.HasHosts(hosts) {
        this.enabled := enabled;
      } else {
        this.enabled := false;
      }
      // the client is built on the requested flag, not the forced one
      if enabled {
        client := Some(NewClient(hosts, ResolveClientConfig(memcached)));
      } else {
        client := None;
      }
      metrics := [];
    }

    method IsAvailable() returns (available: bool)
      ensures available == Snapshot().enabled
    {
      available := enabled;
    }

    method Set(key: string, value: Value, ttl: int, observed: bool, writeFails: bool)
      returns (notice: Option<CacheItem>)
      requires Valid()
      modifies this`client
      ensures Valid()
      ensures AdapterSpec.Outcome(Snapshot(), notice)
              == AdapterSpec.Set(old(Snapshot()), key, value, ttl, observed, writeFails)
    {
      if enabled {
        client := Some(Write(client.value, key, value, ttl, writeFails));
        // the callback runs whether or not the write failed
        notice := if observed then Some(CacheItem(key, value, false)) else None;
      } else {
        notice := if observed then Some(CacheItem(key, value, false)) else None;
      }
    }

    method Del(key: string, deleteFails: bool) returns (deleted: bool)
      requires Valid()
      modifies this`client
      ensures Valid()
      ensures AdapterSpec.Outcome(Snapshot(), deleted)
              == AdapterSpec.Del(old(Snapshot()), key, deleteFails)
    {
      if enabled {
        client := Some(Delete(client.value, key, deleteFails));
        deleted := !deleteFails;
      } else {
        deleted := false;
      }
    }

    method Get(key: string, readFails: bool) returns (item: CacheItem)
      requires Valid()
      modifies this`metrics
      ensures Valid()
      ensures AdapterSpec.Outcome(Snapshot(), item)
              == AdapterSpec.Get(old(Snapshot()), key, readFails)
    {
      if enabled {
        var reply := Read(client.value, key, readFails);
        if reply.ReadError? {
          metrics := metrics + [Delivery(metricsRecorder, CacheMiss(key, DistributedCache))];
          item := CacheItem(key, Null, false);
        } else if Truthy(reply.data) {
          metrics := metrics + [Delivery(metricsRecorder, CacheHit(key, DistributedCache))];
          item := CacheItem(key, reply.data, true);
        } else {
          metrics := metrics + [Delivery(metricsRecorder, CacheMiss(key, DistributedCache))];
          item := CacheItem(key, Null, false);
        }
        metrics := metrics + [Delivery(metricsRecorder, CounterIncremented(DistributedCache))];
        metrics := metrics + [Delivery(metricsRecorder, DurationRecorded(DistributedCache))];
      } else {
        metrics := metrics + [Delivery(metricsRecorder, CacheMiss(key, DistributedCache))];
        item := CacheItem(key, Null, false);
      }
    }

    method Flush(fails: bool) returns (notice: AdapterSpec.FlushNotice)
      requires Valid()
      modifies this`client
      ensures Valid()
      ensures AdapterSpec.Outcome(Snapshot(), notice) == AdapterSpec.Flush(old(Snapshot()), fails)
    {
      notice := AdapterSpec.NotInvoked;
      if client.Some? {
        client := Some(FlushAll(client.value, fails));
        notice := AdapterSpec.Invoked(fails);
      }
    }

    /** Asks the client to close: `end()` now, or from a timer. */
    method StopClient(call: EndCall)
      requires client.Some?
      modifies this`client
      ensures client == Some(old(client).value.(endCalls := old(client).value.endCalls + [call]))
    {
      client := Some(client.value.(endCalls := client.value.endCalls + [call]));
    }

    method Shutdown(gracePeriod: Option<int>)
      requires Valid()
      modifies this
      ensures Valid()
      ensures Snapshot() == AdapterSpec.Shutdown(old(Snapshot()), gracePeriod)
    {
      if client.Some? {
        var graceTtl := gracePeriod;
        if graceTtl.None? {
          graceTtl := Some(AdapterSpec.DefaultGracePeriod);
        }
        if graceTtl.value > 0 {
          // the timer is armed with the caller's argument, not graceTtl
          StopClient(EndAfter(gracePeriod));
        } else {
          StopClient(EndNow);
        }
      }
      enabled := false;
    }

    method SetMetricsRecorder(recorder: Recorder)
      requires Valid()
      modifies this`metricsRecorder
      ensures Valid()
      ensures Snapshot() == AdapterSpec.SetMetricsRecorder(old(Snapshot()), recorder)
    {
      metricsRecorder := recorder;
    }
  }

  /** An enabled in-memory adapter: after a successful set of a truthy value,
      a successful get of the same key is a hit with that value; a key never
      written is a miss. */
  method SetThenGetScenario(value: Value)
    requires Truthy(value)
  {
    var adapter := new Adapter(true, Some(["blah"]), None);
    var available := adapter.IsAvailable();
    assert available;
    var notice := adapter.Set("key", value, 600, true, false);
    assert notice == Some(CacheItem("key", value, false));
    var item := adapter.Get("key", false);
    assert item == CacheItem("key", value, true);
    var other := adapter.Get("notset", false);
    assert other == CacheItem("notset", Null, false);
    adapter.Shutdown(Some(0));
    available := adapter.IsAvailable();
    assert !available;
    item := adapter.Get("key", false);
    assert item == CacheItem("key", Null, false);
  }
}
