/** What holds of the adapter across any sequence of its operations. */
module AdapterTraces {
  import opened Wrappers
  import opened JsValues
  import opened CacheItems
  import opened Metrics
  import opened InMemoryClient
  import opened AdapterSpec

  /** One call on the adapter, with the failure choices of the client. */
  datatype Op =
    | GetOp(key: string, readFails: bool)
    | SetOp(key: string, value: Value, ttl: int, observed: bool, writeFails: bool)
    | DelOp(key: string, deleteFails: bool)
    | FlushOp(fails: bool)
    | ShutdownOp(gracePeriod: Option<int>)
    | SetRecorderOp(recorder: Recorder)

  /** The state after one operation. */
  function Step(s: State, op: Op): (r: State)
    requires WellFormed(s)
    ensures WellFormed(r)
    ensures r.enabled ==> s.enabled
    ensures r.client.Some? <==> s.client.Some?
    ensures s.metrics <= r.metrics
  {
    match op
    case GetOp(key, readFails) => Get(s, key, readFails).state
    case SetOp(key, value, ttl, observed, writeFails) => Set(s, key, value, ttl, observed, writeFails).state
    case DelOp(key, deleteFails) => Del(s, key, deleteFails).state
    case FlushOp(fails) => Flush(s, fails).state
    case ShutdownOp(gracePeriod) => Shutdown(s, gracePeriod)
    case SetRecorderOp(recorder) => SetMetricsRecorder(s, recorder)
  }

  /** The state after the operations, in order. No operation ever enables an
      adapter again, none builds or discards the client, and the metrics log
      only grows. */
  function Run(s: State, ops: seq<Op>): (r: State)
    requires WellFormed(s)
    ensures WellFormed(r)
    ensures r.enabled ==> s.enabled
    ensures r.client.Some? <==> s.client.Some?
    ensures s.metrics <= r.metrics
    decreases |ops|
  {
    if ops == [] then s else Run(Step(s, ops[0]), ops[1..])
  }

  /** How many reads the operations issue. */
  function GetCount(ops: seq<Op>): nat
  {
    if ops == [] then 0 else (if ops[0].GetOp? then 1 else 0) + GetCount(ops[1..])
  }

  /** Every read, enabled or not, adds exactly one hit-or-miss event. */
  lemma {:induction false} EveryGetLogsOneLookup(s: State, ops: seq<Op>)
    requires WellFormed(s)
    ensures LookupCount(Run(s, ops).metrics) == LookupCount(s.metrics) + GetCount(ops)
    decreases |ops|
  {
    if ops != [] {
      var t := Step(s, ops[0]);
      var added := t.metrics[|s.metrics|..];
      assert t.metrics == s.metrics + added;
      LookupCountAppend(s.metrics, added);
      EveryGetLogsOneLookup(t, ops[1..]);
      match ops[0]
      case GetOp(key, readFails) =>
        if s.enabled {
          assert LookupCount(added[2..]) == 0;
          assert LookupCount(added) == 1;
        } else {
          assert LookupCount(added[1..]) == 0;
        }
      case SetOp(_, _, _, _, _) => assert added == [];
      case DelOp(_, _) => assert added == [];
      case FlushOp(_) => assert added == [];
      case ShutdownOp(_) => assert added == [];
      case SetRecorderOp(_) => assert added == [];
    }
  }

  /** Every metric logged by the operations goes to the recorder the adapter
      held before them, as long as none of them replaces it. */
  lemma {:induction false} MetricsGoToCurrentRecorder(s: State, ops: seq<Op>)
    requires WellFormed(s)
    requires forall i :: 0 <= i < |ops| ==> !ops[i].SetRecorderOp?
    ensures Run(s, ops).recorder == s.recorder
    ensures forall j :: |s.metrics| <= j < |Run(s, ops).metrics| ==> Run(s, ops).metrics[j].recorder == s.recorder
    decreases |ops|
  {
    if ops != [] {
      var t := Step(s, ops[0]);
      assert t.recorder == s.recorder;
      assert forall j :: |s.metrics| <= j < |t.metrics| ==> t.metrics[j].recorder == s.recorder;
      assert forall i :: 0 <= i < |ops[1..]| ==> !ops[1..][i].SetRecorderOp? by {
        forall i | 0 <= i < |ops[1..]| ensures !ops[1..][i].SetRecorderOp? {
          assert ops[1..][i] == ops[i + 1];
        }
      }
      MetricsGoToCurrentRecorder(t, ops[1..]);
    }
  }

  /** Once disabled, the adapter's store changes only through flush: reads,
      writes and deletes no longer reach the client. */
  lemma {:induction false} StoreFrozenWhileDisabled(s: State, ops: seq<Op>)
    requires WellFormed(s) && !s.enabled
    requires forall i :: 0 <= i < |ops| ==> !ops[i].FlushOp?
    ensures Store(Run(s, ops)) == Store(s)
    decreases |ops|
  {
    if ops != [] {
      var t := Step(s, ops[0]);
      assert Store(t) == Store(s);
      assert forall i :: 0 <= i < |ops[1..]| ==> !ops[1..][i].FlushOp? by {
        forall i | 0 <= i < |ops[1..]| ensures !ops[1..][i].FlushOp? {
          assert ops[1..][i] == ops[i + 1];
        }
      }
      StoreFrozenWhileDisabled(t, ops[1..]);
    }
  }

  /** Whether an operation writes the given key. */
  predicate Writes(op: Op, key: string) {
    op.SetOp? && op.key == key
  }

  /** A key the store does not hold stays absent until something sets it. */
  lemma {:induction false} UnwrittenKeyStaysAbsent(s: State, ops: seq<Op>, key: string)
    requires WellFormed(s) && key !in Store(s)
    requires forall i :: 0 <= i < |ops| ==> !Writes(ops[i], key)
    ensures key !in Store(Run(s, ops))
    decreases |ops|
  {
    if ops != [] {
      var t := Step(s, ops[0]);
      assert key !in Store(t);
      assert forall i :: 0 <= i < |ops[1..]| ==> !Writes(ops[1..][i], key) by {
        forall i | 0 <= i < |ops[1..]| ensures !Writes(ops[1..][i], key) {
          assert ops[1..][i] == ops[i + 1];
        }
      }
      UnwrittenKeyStaysAbsent(t, ops[1..], key);
    }
  }

  /** A key the store does not hold, and that no later operation sets,
      reads as CacheItem(key, null, false); a freshly built adapter holds
      no key at all. */
  lemma NeverSetKeyMisses(s: State, ops: seq<Op>, key: string, readFails: bool)
    requires WellFormed(s) && key !in Store(s)
    requires forall i :: 0 <= i < |ops| ==> !Writes(ops[i], key)
    ensures Get(Run(s, ops), key, readFails).result == CacheItem(key, Null, false)
  {
    UnwrittenKeyStaysAbsent(s, ops, key);
  }

  /** After shutdown, whatever follows, the adapter stays unavailable and
      every read is a miss. */
  lemma ShutdownIsFinal(s: State, gracePeriod: Option<int>, ops: seq<Op>, key: string, readFails: bool)
    requires WellFormed(s)
    ensures var r := Run(Shutdown(s, gracePeriod), ops);
      !r.enabled && Get(r, key, readFails).result == CacheItem(key, Null, false)
  {
  }
}
