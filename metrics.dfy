/** The metrics recorder, reduced to the sequence of calls made on it. */
module Metrics {

  /** The one cache-type tag the adapter attaches to its metrics
      (the distributed-cache tag of the metric-string constants). */
  datatype CacheType = DistributedCache

  /** One call on a recorder: logCacheHit, logCacheMiss, incrementCounter or
      setDuration. The elapsed time passed to setDuration is not modelled. */
  datatype MetricEvent =
    | CacheHit(key: string, hitType: CacheType)
    | CacheMiss(key: string, missType: CacheType)
    | CounterIncremented(counterType: CacheType)
    | DurationRecorded(durationType: CacheType)

  /** A recorder the adapter may hold: the default no-op one, or one the
      caller supplied, told apart by an identity. */
  datatype Recorder = NoOpRecorder | SuppliedRecorder(id: nat)

  /** A call made on a given recorder. */
  datatype Delivery = Delivery(recorder: Recorder, event: MetricEvent)

  /** A hit or a miss: the event that sorts a read. */
  predicate IsLookup(e: MetricEvent) {
    e.CacheHit? || e.CacheMiss?
  }

  /** How many hit-or-miss events a log holds. */
  function LookupCount(log: seq<Delivery>): nat
  {
    if log == [] then 0
    else (if IsLookup(log[0].event) then 1 else 0) + LookupCount(log[1..])
  }

  /** Counting hit-or-miss events distributes over appending logs. */
  lemma {:induction false} LookupCountAppend(a: seq<Delivery>, b: seq<Delivery>)
    ensures LookupCount(a + b) == LookupCount(a) + LookupCount(b)
  {
    if a == [] {
      assert a + b == b;
    } else {
      assert (a + b)[1..] == a[1..] + b;
      LookupCountAppend(a[1..], b);
    }
  }
}
