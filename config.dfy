/** How the adapter turns the caller's `memcached` options into the options
    object it hands to the memcached client. */
module MemcachedConfig {
  import opened JsValues

  const DefaultTimeout := 2500
  const DefaultPoolSize := 10
  const DefaultRetries := 0
  const DefaultReconnect := 120000
  const DefaultRetry := 30000
  const DefaultIdle := 60000
  const DefaultMaxValue := 1048576
  const DefaultMinTimeout := 5000
  const DefaultMaxTimeout := 10000
  const DefaultFactor := 3

  /** The `memcached` sub-object of the adapter's options, as the caller
      wrote it; a property the caller did not write is Undefined. */
  datatype MemcachedOptions = MemcachedOptions(
    timeout: Value, poolSize: Value, retries: Value, reconnect: Value,
    retry: Value, idle: Value, maxValue: Value, remove: Value,
    keyCompression: Value, minTimeout: Value, maxTimeout: Value,
    factor: Value, randomize: Value, debug: Value)

  /** `{}`: what a missing `memcached` sub-object becomes. */
  const NoMemcachedOptions := MemcachedOptions(
    Undefined, Undefined, Undefined, Undefined, Undefined, Undefined, Undefined,
    Undefined, Undefined, Undefined, Undefined, Undefined, Undefined, Undefined)

  /** The options object passed to the memcached client. */
  datatype ClientConfig = ClientConfig(
    timeout: Value, poolSize: Value, retries: Value, reconnect: Value,
    retry: Value, idle: Value, maxValue: Value, remove: Value,
    keyCompression: Value, minTimeout: Value, maxTimeout: Value,
    factor: Value, randomize: Value, debug: Value)

  /** The documented defaults, written out independently of the resolution. */
  const DefaultClientConfig := ClientConfig(
    Num(2500), Num(10), Num(0), Num(120000), Num(30000), Num(60000), Num(1048576),
    Bool(false), Bool(false), Num(5000), Num(10000), Num(3), Bool(false), Bool(false))

  /** A numeric option: any falsy supplied value, 0 included, yields the default. */
  predicate KeptIfTruthy(supplied: Value, resolved: Value, default: int) {
    && (Truthy(supplied) ==> resolved == supplied)
    && (!Truthy(supplied) ==> resolved == Num(default))
  }

  /** A flag option: any defined supplied value is kept; only undefined yields false. */
  predicate KeptIfDefined(supplied: Value, resolved: Value) {
    && (supplied != Undefined ==> resolved == supplied)
    && (supplied == Undefined ==> resolved == Bool(false))
  }

  /** The client options literal: numeric options through `||`, flags
      through `getOrDefault`. (`retries` is written twice, with the same
      expression both times, so one field carries it.) */
  function ResolveClientConfig(o: MemcachedOptions): (c: ClientConfig)
    ensures KeptIfTruthy(o.timeout, c.timeout, DefaultTimeout)
    ensures KeptIfTruthy(o.poolSize, c.poolSize, DefaultPoolSize)
    ensures KeptIfTruthy(o.retries, c.retries, DefaultRetries)
    ensures KeptIfTruthy(o.reconnect, c.reconnect, DefaultReconnect)
    ensures KeptIfTruthy(o.retry, c.retry, DefaultRetry)
    ensures KeptIfTruthy(o.idle, c.idle, DefaultIdle)
    ensures KeptIfTruthy(o.maxValue, c.maxValue, DefaultMaxValue)
    ensures KeptIfDefined(o.remove, c.remove)
    ensures KeptIfDefined(o.keyCompression, c.keyCompression)
    ensures KeptIfTruthy(o.minTimeout, c.minTimeout, DefaultMinTimeout)
    ensures KeptIfTruthy(o.maxTimeout, c.maxTimeout, DefaultMaxTimeout)
    ensures KeptIfTruthy(o.factor, c.factor, DefaultFactor)
    ensures KeptIfDefined(o.randomize, c.randomize)
    ensures KeptIfDefined(o.debug, c.debug)
  {
    ClientConfig(
      timeout := Or(o.timeout, Num(DefaultTimeout)),
      poolSize := Or(o.poolSize, Num(DefaultPoolSize)),
      retries := Or(o.retries, Num(DefaultRetries)),
      reconnect := Or(o.reconnect, Num(DefaultReconnect)),
      retry := Or(o.retry, Num(DefaultRetry)),
      idle := Or(o.idle, Num(DefaultIdle)),
      maxValue := Or(o.maxValue, Num(DefaultMaxValue)),
      remove := GetOrDefault(o.remove, Bool(false)),
      keyCompression := GetOrDefault(o.keyCompression, Bool(false)),
      minTimeout := Or(o.minTimeout, Num(DefaultMinTimeout)),
      maxTimeout := Or(o.maxTimeout, Num(DefaultMaxTimeout)),
      factor := Or(o.factor, Num(DefaultFactor)),
      randomize := GetOrDefault(o.randomize, Bool(false)),
      debug := GetOrDefault(o.debug, Bool(false)))
  }

  /** With nothing supplied, the client gets exactly the documented defaults. */
  lemma EmptyOptionsGiveDefaults()
    ensures ResolveClientConfig(NoMemcachedOptions) == DefaultClientConfig
  {
  }

  /** Every numeric option except `retries` reaches the client truthy, so the
      client never sees a zero timeout, pool size, interval or factor;
      `retries` resolves to 0 whenever the caller's value is falsy. */
  lemma NumericOptionsNeverFalsy(o: MemcachedOptions)
    ensures var c := ResolveClientConfig(o);
      && Truthy(c.timeout) && Truthy(c.poolSize) && Truthy(c.reconnect)
      && Truthy(c.retry) && Truthy(c.idle) && Truthy(c.maxValue)
      && Truthy(c.minTimeout) && Truthy(c.maxTimeout) && Truthy(c.factor)
    ensures !Truthy(o.retries) ==> ResolveClientConfig(o).retries == Num(0)
  {
  }
}
