/** An in-memory stand-in for the memcached client: a key/value store whose
    operations may fail. Whether a call fails is an input (`fails`), so
    every outcome the real client can report is reachable. */
module InMemoryClient {
  import opened Wrappers
  import opened JsValues
  import opened MemcachedConfig

  /** A stored value with the lifetime, in seconds, it was written with. */
  datatype Entry = Entry(value: Value, ttl: int)

  /** A request to close the client: at once, or from a timer armed with
      the given delay (absent when the caller passed none). */
  datatype EndCall = EndNow | EndAfter(delay: Option<int>)

  /** The client: the hosts and options it was built with, its store, and
      the close requests made on it so far. */
  datatype Client = Client(
    hosts: Option<seq<string>>,
    config: ClientConfig,
    store: map<string, Entry>,
    endCalls: seq<EndCall>)

  /** What the client hands a read callback: an error, or the data (undefined
      for a key it does not hold). */
  datatype ReadReply = ReadError | Data(data: Value)

  /** A freshly built client: it holds nothing and has not been closed. */
  function NewClient(hosts: Option<seq<string>>, config: ClientConfig): (c: Client)
    ensures c.hosts == hosts && c.config == config
    ensures c.store == map[] && c.endCalls == []
  {
    Client(hosts, config, map[], [])
  }

  /** client.get: a failing read reports an error; otherwise the stored
      value, or undefined for a key not stored. */
  function Read(c: Client, key: string, fails: bool): (r: ReadReply)
    ensures r.ReadError? <==> fails
    ensures !fails && key in c.store ==> r == Data(c.store[key].value)
    ensures !fails && key !in c.store ==> r == Data(Undefined)
  {
    if fails then ReadError
    else if key in c.store then Data(c.store[key].value)
    else Data(Undefined)
  }

  /** client.set: a failed write leaves the store as it was; a successful one
      binds the key and touches no other key. */
  function Write(c: Client, key: string, value: Value, ttl: int, fails: bool): (r: Client)
    ensures r.hosts == c.hosts && r.config == c.config && r.endCalls == c.endCalls
    ensures fails ==> r.store == c.store
    ensures !fails ==> key in r.store && r.store[key] == Entry(value, ttl)
    ensures !fails ==> forall k :: k != key ==> (k in r.store <==> k in c.store)
    ensures !fails ==> forall k :: k != key && k in c.store ==> r.store[k] == c.store[k]
  {
    if fails then c else c.(store := c.store[key := Entry(value, ttl)])
  }

  /** client.del: a successful delete leaves the key unbound and every other
      key as it was; a failed one changes nothing. */
  function Delete(c: Client, key: string, fails: bool): (r: Client)
    ensures r.hosts == c.hosts && r.config == c.config && r.endCalls == c.endCalls
    ensures fails ==> r.store == c.store
    ensures !fails ==> key !in r.store
    ensures !fails ==> forall k :: k != key ==> (k in r.store <==> k in c.store)
    ensures !fails ==> forall k :: k in r.store ==> r.store[k] == c.store[k]
  {
    if fails then c else c.(store := c.store - {key})
  }

  /** client.flush: a successful flush empties the whole store. */
  function FlushAll(c: Client, fails: bool): (r: Client)
    ensures r.hosts == c.hosts && r.config == c.config && r.endCalls == c.endCalls
    ensures fails ==> r.store == c.store
    ensures !fails ==> forall k :: k !in r.store
  {
    if fails then c else c.(store := map[])
  }
}
