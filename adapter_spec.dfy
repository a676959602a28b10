/** The distributed-cache adapter as a state machine over values: one
    function per operation, giving the new state and what the caller (or
    the completion callback) receives. The class in module
    ObservableMemcached is proved against these functions. */
module AdapterSpec {
  import opened Wrappers
  import opened JsValues
  import opened MemcachedConfig
  import opened CacheItems
  import opened Metrics
  import opened InMemoryClient

  /** The grace period, in milliseconds, that shutdown assumes when none is given. */
  const DefaultGracePeriod := 1000

  /** The options object of the constructor; an absent property is None.
      `metricsRecorder` stands for the property the source spells
      `metricsrecorder`, all in lower case. */
  datatype AdapterOptions = AdapterOptions(
    memcached: Option<MemcachedOptions>,
    metricsRecorder: Option<Recorder>)

  /** The adapter's fields: `enabled`, `client` (absent when none was built),
      `metricsRecorder`, and the calls made on recorders so far. */
  datatype State = State(
    enabled: bool,
    client: Option<Client>,
    recorder: Recorder,
    metrics: seq<Delivery>)

  /** An operation's new state together with what it hands back. */
  datatype Outcome<T> = Outcome(state: State, result: T)

  /** What a flush does with the caller's callback: nothing, or call it with
      or without an error. */
  datatype FlushNotice = NotInvoked | Invoked(failed: bool)

  /** The adapter's invariant: an enabled adapter always has a client. */
  predicate WellFormed(s: State) {
    s.enabled ==> s.client.Some?
  }

  /** The entries the adapter's client holds; none when there is no client. */
  function Store(s: State): map<string, Entry> {
    if s.client.Some? then s.client.value.store else map[]
  }

  /** `hosts && hosts.length > 0` */
  predicate HasHosts(hosts: Option<seq<string>>) {
    hosts.Some? && |hosts.value| > 0
  }

  /** The metric tag every adapter metric carries. */
  const DC := DistributedCache

  /** The ObservableMemcached constructor. The adapter is enabled only when
      asked to be and given at least one host; a client is built whenever it
      was asked to be enabled, even with no hosts. */
  function Construct(enabled: bool, hosts: Option<seq<string>>, opts: Option<AdapterOptions>): (s: State)
    ensures WellFormed(s)
    ensures s.enabled <==> enabled && HasHosts(hosts)
    ensures s.client.Some? <==> enabled
    ensures s.client.Some? ==> s.client.value.hosts == hosts
    ensures s.client.Some? ==> s.client.value.store == map[] && s.client.value.endCalls == []
    ensures s.client.Some? && (opts.None? || opts.value.memcached.None?) ==>
              s.client.value.config == DefaultClientConfig
    ensures s.client.Some? && opts.Some? && opts.value.memcached.Some? ==>
              s.client.value.config == ResolveClientConfig(opts.value.memcached.value)
    ensures opts.Some? && opts.value.metricsRecorder.Some? ==> s.recorder == opts.value.metricsRecorder.value
    ensures opts.None? || opts.value.metricsRecorder.None? ==> s.recorder == NoOpRecorder
    ensures s.metrics == []
  {
    var options := if opts.Some? then opts.value else AdapterOptions(None, None);
    var memcached := if options.memcached.Some? then options.memcached.value else NoMemcachedOptions;
    var recorder := if options.metricsRecorder.Some? then options.metricsRecorder.value else NoOpRecorder;
    EmptyOptionsGiveDefaults();
    State(
      enabled := if HasHosts(hosts) then enabled else false,
      client := if enabled then Some(NewClient(hosts, ResolveClientConfig(memcached))) else None,
      recorder := recorder,
      metrics := [])
  }

  /** get(key): a disabled adapter reports a miss without touching the
      client; an enabled one reads, reports a hit exactly when the read
      succeeded with truthy data, and then always counts the read and
      records its duration. */
  function Get(s: State, key: string, readFails: bool): (o: Outcome<CacheItem>)
    requires WellFormed(s)
    ensures o.result.key == key
    ensures o.result.fromCache <==> s.enabled && !readFails && key in Store(s) && Truthy(Store(s)[key].value)
    ensures o.result.fromCache ==> o.result.value == Store(s)[key].value
    ensures !o.result.fromCache ==> o.result.value == Null
    ensures o.state.enabled == s.enabled && o.state.client == s.client && o.state.recorder == s.recorder
    ensures !s.enabled ==>
              o.state.metrics == s.metrics + [Delivery(s.recorder, CacheMiss(key, DC))]
    ensures s.enabled ==>
              o.state.metrics == s.metrics + [
                Delivery(s.recorder, if o.result.fromCache then CacheHit(key, DC) else CacheMiss(key, DC)),
                Delivery(s.recorder, CounterIncremented(DC)),
                Delivery(s.recorder, DurationRecorded(DC))]
  {
    if !s.enabled then
      Outcome(s.(metrics := s.metrics + [Delivery(s.recorder, CacheMiss(key, DC))]), CacheItem(key, Null, false))
    else
      var reply := Read(s.client.value, key, readFails);
      var item := if reply.Data? && Truthy(reply.data) then CacheItem(key, reply.data, true)
                  else CacheItem(key, Null, false);
      var lookup := if item.fromCache then CacheHit(key, DC) else CacheMiss(key, DC);
      var calls := [
        Delivery(s.recorder, lookup),
        Delivery(s.recorder, CounterIncremented(DC)),
        Delivery(s.recorder, DurationRecorded(DC))];
      Outcome(s.(metrics := s.metrics + calls), item)
  }

  /** set(key, value, ttl, observer): the store changes only on an enabled
      adapter whose write succeeds; an observer, when given, is told
      CacheItem(key, value, false) whatever happened. */
  function Set(s: State, key: string, value: Value, ttl: int, observed: bool, writeFails: bool): (o: Outcome<Option<CacheItem>>)
    requires WellFormed(s)
    ensures o.result.Some? <==> observed
    ensures observed ==> o.result.value == CacheItem(key, value, false)
    ensures o.state.enabled == s.enabled && o.state.recorder == s.recorder && o.state.metrics == s.metrics
    ensures o.state.client.Some? <==> s.client.Some?
    ensures s.client.Some? ==> o.state.client.value == s.client.value.(store := Store(o.state))
    ensures s.enabled && !writeFails ==> Store(o.state) == Store(s)[key := Entry(value, ttl)]
    ensures !s.enabled || writeFails ==> o.state.client == s.client
  {
    var notice := if observed then Some(CacheItem(key, value, false)) else None;
    if s.enabled then
      Outcome(s.(client := Some(Write(s.client.value, key, value, ttl, writeFails))), notice)
    else
      Outcome(s, notice)
  }

  /** del(key): true exactly when the adapter is enabled and the client's
      delete succeeded, and then the key is gone. */
  function Del(s: State, key: string, deleteFails: bool): (o: Outcome<bool>)
    requires WellFormed(s)
    ensures o.result <==> s.enabled && !deleteFails
    ensures o.state.enabled == s.enabled && o.state.recorder == s.recorder && o.state.metrics == s.metrics
    ensures o.state.client.Some? <==> s.client.Some?
    ensures s.client.Some? ==> o.state.client.value == s.client.value.(store := Store(o.state))
    ensures o.result ==> Store(o.state) == Store(s) - {key} && key !in Store(o.state)
    ensures !o.result ==> o.state.client == s.client
  {
    if s.enabled then
      var c := Delete(s.client.value, key, deleteFails);
      Outcome(s.(client := Some(c)), !deleteFails)
    else
      Outcome(s, false)
  }

  /** flush(cb): whenever a client exists, enabled or not, it is flushed and
      it calls the callback; without a client nothing happens, and the
      callback is never called. */
  function Flush(s: State, fails: bool): (o: Outcome<FlushNotice>)
    ensures s.client.None? ==> o == Outcome(s, NotInvoked)
    ensures s.client.Some? ==> o.result == Invoked(fails)
    ensures o.state.enabled == s.enabled && o.state.recorder == s.recorder && o.state.metrics == s.metrics
    ensures o.state.client.Some? <==> s.client.Some?
    ensures s.client.Some? ==> o.state.client.value == s.client.value.(store := Store(o.state))
    ensures s.client.Some? && !fails ==> Store(o.state) == map[]
    ensures s.client.Some? && fails ==> o.state == s
  {
    if s.client.Some? then
      Outcome(s.(client := Some(FlushAll(s.client.value, fails))), Invoked(fails))
    else
      Outcome(s, NotInvoked)
  }

  /** shutdown(gracePeriod): the adapter is disabled whatever it held. A
      client is asked to close: at once when the grace period (1000 when
      omitted) is not positive, otherwise from a timer that is handed the
      caller's own argument, not the defaulted one. */
  function Shutdown(s: State, gracePeriod: Option<int>): (r: State)
    ensures !r.enabled
    ensures r.recorder == s.recorder && r.metrics == s.metrics
    ensures r.client.Some? <==> s.client.Some?
    ensures s.client.Some? ==>
              var before := s.client.value; var after := r.client.value;
              && after.hosts == before.hosts && after.config == before.config && after.store == before.store
              && |after.endCalls| == |before.endCalls| + 1
              && after.endCalls[..|before.endCalls|] == before.endCalls
              && (after.endCalls[|before.endCalls|] == EndNow <==> gracePeriod.Some? && gracePeriod.value <= 0)
              && (after.endCalls[|before.endCalls|].EndAfter? ==> after.endCalls[|before.endCalls|].delay == gracePeriod)
  {
    var client :=
      if s.client.Some? then
        var graceTtl := if gracePeriod.None? then DefaultGracePeriod else gracePeriod.value;
        var call := if graceTtl > 0 then EndAfter(gracePeriod) else EndNow;
        Some(s.client.value.(endCalls := s.client.value.endCalls + [call]))
      else None;
    s.(enabled := false, client := client)
  }

  /** setMetricsRecorder(recorder): only the recorder changes. */
  function SetMetricsRecorder(s: State, recorder: Recorder): (r: State)
    ensures r.recorder == recorder
    ensures r.enabled == s.enabled && r.client == s.client && r.metrics == s.metrics
  {
    s.(recorder := recorder)
  }

  /** A successful set of a truthy value on an enabled adapter, read back
      without error, is a hit carrying that value. */
  lemma SetThenGet(s: State, key: string, value: Value, ttl: int, observed: bool)
    requires WellFormed(s) && s.enabled && Truthy(value)
    ensures Get(Set(s, key, value, ttl, observed, false).state, key, false).result == CacheItem(key, value, true)
  {
  }

  /** A falsy value, once written, still reads back as a miss with a null value. */
  lemma SetFalsyThenGet(s: State, key: string, value: Value, ttl: int, observed: bool)
    requires WellFormed(s) && s.enabled && !Truthy(value)
    ensures Get(Set(s, key, value, ttl, observed, false).state, key, false).result == CacheItem(key, Null, false)
  {
  }

  /** A key deleted successfully reads back as a miss. */
  lemma DelThenGet(s: State, key: string, deleteFails: bool, readFails: bool)
    requires WellFormed(s)
    ensures var d := Del(s, key, deleteFails);
      d.result ==> Get(d.state, key, readFails).result == CacheItem(key, Null, false)
  {
  }

  /** An adapter built with no hosts is unavailable and every read of it is
      a miss, even when it was asked to be enabled. */
  lemma NoHostsMeansDisabled(enabled: bool, opts: Option<AdapterOptions>, key: string, readFails: bool)
    ensures var s := Construct(enabled, Some([]), opts);
      && !s.enabled
      && Get(s, key, readFails).result == CacheItem(key, Null, false)
      && Get(s, key, readFails).state.metrics == [Delivery(s.recorder, CacheMiss(key, DC))]
  {
  }
}
