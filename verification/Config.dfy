/** Reliable-ack validation and producer wiring (config/config.go). */
module Configuration {
  import opened Wrappers
  import opened Telemetry

  datatype Error =
    | AckNotNeeded(txType: TxType)
    | LoggerCannotAck(txType: TxType)
    | NoRecordMapping(txType: TxType)
    | NotAmongDispatchers(txType: TxType)
    | NotConfigured(dispatcher: Dispatcher)
    | BrokerFailed(dispatcher: Dispatcher)
    | NoDispatchRule(txType: TxType)

  /** A producer as the server sees it: which broker, and the types it must ack. */
  datatype Producer = Producer(kind: Dispatcher, ackTypes: set<TxType>)

  /** A rule whose name has no producer is nil in the wired list. */
  type Rules = map<TxType, seq<Option<Producer>>>

  /** What the environment decides: configured sections and brokers that can be reached. */
  datatype Brokers = Brokers(
    configured: set<Dispatcher>,
    reachable: set<Dispatcher>,
    topicsProvisioned: bool,
    mqttConnects: bool)

  const BROKERS: set<Dispatcher> := {Kafka, Pubsub, Kinesis, ZMQ, MQTT, NATS}

  // ----- Specification -----

  function WithoutLogger(ds: seq<Dispatcher>): (r: seq<Dispatcher>)
    ensures forall d :: d in r <==> d in ds && d != Logger
  {
    if ds == [] then []
    else (if ds[0] != Logger then [ds[0]] else []) + WithoutLogger(ds[1..])
  }

  /** Filtering takes lists apart: it keeps every dispatcher but the logger, in its place. */
  lemma {:induction false} WithoutLoggerIs(a: seq<Dispatcher>, b: seq<Dispatcher>, d: Dispatcher)
    ensures WithoutLogger([]) == []
    ensures WithoutLogger([d]) == if d == Logger then [] else [d]
    ensures WithoutLogger(a + b) == WithoutLogger(a) + WithoutLogger(b)
  {
    assert [d][1..] == [];
    if a == [] {
      assert a + b == b;
    } else {
      assert (a + b)[1..] == a[1..] + b;
      WithoutLoggerIs(a[1..], b, d);
    }
  }

  lemma WithoutLoggerFrom(ds: seq<Dispatcher>, i: nat)
    requires i < |ds|
    ensures WithoutLogger(ds[i..]) == (if ds[i] != Logger then [ds[i]] else []) + WithoutLogger(ds[i + 1..])
  {
    assert ds[i..][1..] == ds[i + 1..];
  }

  predicate ValidSource(records: map<TxType, seq<Dispatcher>>, t: TxType, d: Dispatcher) {
    t != CONNECTIVITY && d != Logger && t in records && d in records[t]
  }

  /** The error names a source of the configuration and the first test it fails. */
  predicate IsReason(records: map<TxType, seq<Dispatcher>>, sources: map<TxType, Dispatcher>, e: Error) {
    match e
    case AckNotNeeded(t) => t in sources && t == CONNECTIVITY
    case LoggerCannotAck(t) => t in sources && t != CONNECTIVITY && sources[t] == Logger
    case NoRecordMapping(t) => t in sources && t != CONNECTIVITY && sources[t] != Logger && t !in records
    case NotAmongDispatchers(t) =>
      t in sources && t != CONNECTIVITY && sources[t] != Logger && t in records && sources[t] !in records[t]
    case _ => false
  }

  ghost predicate ValidSources(records: map<TxType, seq<Dispatcher>>, sources: map<TxType, Dispatcher>) {
    forall t :: t in sources ==> ValidSource(records, t, sources[t])
  }

  /** The record types of each dispatcher. */
  function Inverse(sources: map<TxType, Dispatcher>): map<Dispatcher, set<TxType>> {
    map d | d in sources.Values :: set t | t in sources && sources[t] == d
  }

  /** Dispatchers some record asks for. */
  function Required(records: map<TxType, seq<Dispatcher>>): set<Dispatcher> {
    set t, d | t in records && d in records[t] :: d
  }

  function AckTypes(acks: map<Dispatcher, set<TxType>>, d: Dispatcher): set<TxType> {
    if d in acks then acks[d] else {}
  }

  /** The producer a rule name stands for. */
  function WiredProducer(sources: map<TxType, Dispatcher>, d: Dispatcher): Option<Producer> {
    if d == Logger then Some(Producer(Logger, {}))
    else if Known(d) then Some(Producer(d, AckTypes(Inverse(sources), d)))
    else None
  }

  /** Every broker a record asks for is configured and reachable. */
  ghost predicate BrokersReady(required: set<Dispatcher>, brokers: Brokers) {
    forall d :: d in required && Known(d) && d != Logger ==> d in brokers.configured && d in brokers.reachable
  }

  function WiredList(sources: map<TxType, Dispatcher>, ds: seq<Dispatcher>): seq<Option<Producer>> {
    seq(|ds|, i requires 0 <= i < |ds| => WiredProducer(sources, ds[i]))
  }

  lemma PubsubIsRequired(records: map<TxType, seq<Dispatcher>>, txTypes: seq<TxType>)
    requires forall t :: t in txTypes <==> t in records && Pubsub in records[t]
    ensures |txTypes| > 0 <==> Pubsub in Required(records)
  {
    if |txTypes| > 0 { assert txTypes[0] in txTypes; }
  }

  lemma AllBrokers(visited: set<Dispatcher>, required: set<Dispatcher>, brokers: Brokers)
    requires visited == {} + {Kafka} + {Pubsub} + {Kinesis} + {ZMQ} + {MQTT} + {NATS}
    ensures visited == BROKERS
    ensures BrokersReady(required * visited, brokers) <==> BrokersReady(required, brokers)
  {
    assert forall d :: Known(d) && d != Logger <==> d in visited;
  }

  lemma InverseOneMore(m: map<TxType, Dispatcher>, t: TxType, d: Dispatcher)
    requires t !in m
    ensures Inverse(m[t := d]) == Inverse(m)[d := AckTypes(Inverse(m), d) + {t}]
  {
    var m' := m[t := d];
    assert m'[t] == d;
    assert forall u :: u in m ==> m'[u] == m[u];
    assert m'.Values == m.Values + {d} by {
      forall x | x in m'.Values ensures x in m.Values + {d} {
        var u :| u in m' && m'[u] == x;
        assert u == t || (u in m && m[u] == x);
      }
      forall x | x in m.Values + {d} ensures x in m'.Values {
        if x in m.Values {
          var u :| u in m && m[u] == x;
          assert m'[u] == x;
        }
      }
    }
    forall x | x in m'.Values
      ensures (set u | u in m' && m'[u] == x)
           == if x == d then AckTypes(Inverse(m), d) + {t} else (set u | u in m && m[u] == x)
    {
      if d !in m.Values {
        assert forall u :: u in m ==> m[u] != d;
      }
    }
  }

  // ----- The configuration object -----

  class Config {
    var records: map<TxType, seq<Dispatcher>>
    var reliableAckSources: map<TxType, Dispatcher>

    constructor (records: map<TxType, seq<Dispatcher>>, reliableAckSources: map<TxType, Dispatcher>)
      ensures this.records == records && this.reliableAckSources == reliableAckSources
    {
      this.records, this.reliableAckSources := records, reliableAckSources;
    }

    /** When ConfigureProducers succeeds, in the configuration's own terms. */
    ghost predicate Startable(brokers: Brokers, test: bool)
      reads this
    {
      && ValidSources(records, reliableAckSources)
      && BrokersReady(Required(records), brokers)
      && (forall t :: t in records ==> records[t] != [])
      && (test || Pubsub !in Required(records) || brokers.topicsProvisioned)
      && (test || MQTT !in Required(records) || brokers.mqttConnects)
    }

    /** parseValidDispatchers. */
    method ParseValidDispatchers(input: seq<Dispatcher>) returns (result: seq<Dispatcher>)
      ensures result == WithoutLogger(input)
    {
      result := [];
      var i := 0;
      while i < |input|
        invariant 0 <= i <= |input|
        invariant result + WithoutLogger(input[i..]) == WithoutLogger(input)
      {
        WithoutLoggerFrom(input, i);
        if input[i] != Logger { result := result + [input[i]]; }
        i := i + 1;
      }
    }

    /** The search through a record's valid dispatchers. */
    static method Finds(validDispatchers: seq<Dispatcher>, dispatchRule: Dispatcher) returns (found: bool)
      ensures found <==> dispatchRule in validDispatchers
    {
      found := false;
      var i := 0;
      while i < |validDispatchers| && !found
        invariant 0 <= i <= |validDispatchers|
        invariant found ==> dispatchRule in validDispatchers
        invariant !found ==> dispatchRule !in validDispatchers[..i]
      {
        found := validDispatchers[i] == dispatchRule;
        i := i + 1;
      }
    }

    /**
     * Inverts the configured sources. The types are visited in any order; acceptance and
     * result do not depend on it.
     */
    method ConfigureReliableAckSources() returns (r: Result<map<Dispatcher, set<TxType>>, Error>)
      ensures r.Ok? <==> ValidSources(records, reliableAckSources)
      ensures r.Ok? ==> r.value == Inverse(reliableAckSources)
      // In the configuration's own terms:
      ensures r.Ok? <==>
              forall t :: t in reliableAckSources ==>
                && t != "connectivity" && reliableAckSources[t] != Logger
                && t in records && reliableAckSources[t] in records[t]
      ensures r.Err? ==> IsReason(records, reliableAckSources, r.error)
    {
      var acks: map<Dispatcher, set<TxType>> := map[];
      var todo := reliableAckSources.Keys;
      ghost var done: set<TxType> := {};
      while todo != {}
        invariant done + todo == reliableAckSources.Keys && done !! todo
        invariant forall t :: t in done ==> ValidSource(records, t, reliableAckSources[t])
        invariant acks == Inverse(map t | t in done :: reliableAckSources[t])
        decreases todo
      {
        var txType :| txType in todo;
        var dispatchRule := reliableAckSources[txType];
        if txType == CONNECTIVITY { return Err(AckNotNeeded(txType)); }
        if dispatchRule == Logger { return Err(LoggerCannotAck(txType)); }
        if txType !in records { return Err(NoRecordMapping(txType)); }
        var validDispatchers := ParseValidDispatchers(records[txType]);
        var found := Finds(validDispatchers, dispatchRule);
        if !found { return Err(NotAmongDispatchers(txType)); }
        InverseOneMore(map t | t in done :: reliableAckSources[t], txType, dispatchRule);
        acks := acks[dispatchRule := AckTypes(acks, dispatchRule) + {txType}];
        todo, done := todo - {txType}, done + {txType};
        assert (map t | t in done :: reliableAckSources[t])
            == (map t | t in done - {txType} :: reliableAckSources[t])[txType := dispatchRule];
      }
      assert (map t | t in done :: reliableAckSources[t]) == reliableAckSources;
      return Ok(acks);
    }

    /** One record is added under each of its dispatchers. */
    static method RequireFor(required: map<Dispatcher, seq<TxType>>, recordName: TxType, rules: seq<Dispatcher>)
      returns (required': map<Dispatcher, seq<TxType>>)
      ensures forall d :: d in required' <==> d in required || d in rules
      ensures forall d, t :: d in required' ==>
                (t in required'[d] <==> (d in required && t in required[d]) || (t == recordName && d in rules))
    {
      required' := required;
      var i := 0;
      while i < |rules|
        invariant 0 <= i <= |rules|
        invariant forall d :: d in required' <==> d in required || d in rules[..i]
        invariant forall d, t :: d in required' ==>
          (t in required'[d] <==> (d in required && t in required[d]) || (t == recordName && d in rules[..i]))
      {
        var so := if rules[i] in required' then required'[rules[i]] else [];
        required' := required'[rules[i] := so + [recordName]];
        i := i + 1;
      }
      assert rules[..i] == rules;
    }

    /** The dispatchers some record asks for, with those records, in any order. */
    method RequiredDispatchers() returns (required: map<Dispatcher, seq<TxType>>)
      ensures required.Keys == Required(records)
      ensures forall d :: d in required <==> exists t :: t in records && d in records[t]
      ensures forall d, t :: d in required ==> (t in required[d] <==> t in records && d in records[t])
    {
      required := map[];
      var todo := records.Keys;
      ghost var done: set<TxType> := {};
      while todo != {}
        invariant done + todo == records.Keys && done !! todo
        invariant forall d, t :: d in required ==> (t in required[d] <==> t in done && d in records[t])
        invariant forall d :: d in required <==> exists t :: t in done && d in records[t]
        decreases todo
      {
        var recordName :| recordName in todo;
        required := RequireFor(required, recordName, records[recordName]);
        todo, done := todo - {recordName}, done + {recordName};
      }
      assert done == records.Keys;
    }

    /** The producers after the brokers in `visited` have been dealt with. */
    ghost predicate Established(required: set<Dispatcher>, visited: set<Dispatcher>,
                                producers: map<Dispatcher, Producer>)
      reads this
    {
      && (forall d :: d in producers <==> d == Logger || (d in required && d in visited))
      && (forall d :: d in producers ==> WiredProducer(reliableAckSources, d) == Some(producers[d]))
    }

    /** The step ConfigureProducers takes for one broker. */
    method EstablishOne(kind: Dispatcher, acks: map<Dispatcher, set<TxType>>,
                        required: set<Dispatcher>, brokers: Brokers,
                        producers: map<Dispatcher, Producer>, ghost visited: set<Dispatcher>)
      returns (r: Result<map<Dispatcher, Producer>, Error>)
      requires Known(kind) && kind != Logger && acks == Inverse(reliableAckSources)
      requires Established(required, visited, producers)
      requires BrokersReady(required * visited, brokers)
      ensures r.Ok? ==> Established(required, visited + {kind}, r.value)
      ensures r.Ok? ==> BrokersReady(required * (visited + {kind}), brokers)
      ensures r.Err? ==> !BrokersReady(required, brokers)
      ensures r.Err? ==> r.error == if kind in brokers.configured then BrokerFailed(kind) else NotConfigured(kind)
    {
      if kind !in required { return Ok(producers); }
      if kind !in brokers.configured { return Err(NotConfigured(kind)); }
      if kind !in brokers.reachable { return Err(BrokerFailed(kind)); }
      return Ok(producers[kind := Producer(kind, AckTypes(acks, kind))]);
    }

    /** One producer per required broker, in the order ConfigureProducers visits them. */
    method Establish(acks: map<Dispatcher, set<TxType>>, required: set<Dispatcher>, brokers: Brokers)
      returns (r: Result<map<Dispatcher, Producer>, Error>)
      requires acks == Inverse(reliableAckSources)
      ensures r.Ok? <==> BrokersReady(required, brokers)
      ensures r.Ok? ==> Established(required, BROKERS, r.value)
      ensures r.Ok? <==> forall d :: d in required && d in {Kafka, Pubsub, Kinesis, ZMQ, MQTT, NATS} ==>
                d in brokers.configured && d in brokers.reachable
    {
      ghost var visited: set<Dispatcher> := {};
      var producers :- EstablishOne(Kafka, acks, required, brokers, map[Logger := Producer(Logger, {})], visited);
      visited := visited + {Kafka};
      producers :- EstablishOne(Pubsub, acks, required, brokers, producers, visited);
      visited := visited + {Pubsub};
      producers :- EstablishOne(Kinesis, acks, required, brokers, producers, visited);
      visited := visited + {Kinesis};
      producers :- EstablishOne(ZMQ, acks, required, brokers, producers, visited);
      visited := visited + {ZMQ};
      producers :- EstablishOne(MQTT, acks, required, brokers, producers, visited);
      visited := visited + {MQTT};
      producers :- EstablishOne(NATS, acks, required, brokers, producers, visited);
      visited := visited + {NATS};
      AllBrokers(visited, required, brokers);
      return Ok(producers);
    }

    /** The rule names of one record. */
    method WireRule(producers: map<Dispatcher, Producer>, recordName: TxType, dispatchRules: seq<Dispatcher>,
                    pubsubTxTypes: seq<TxType>)
      returns (dispatchFuncs: seq<Option<Producer>>, pubsubTxTypes': seq<TxType>)
      requires forall d :: d in dispatchRules && Known(d) ==> d in producers
      requires forall d :: d in producers ==> WiredProducer(reliableAckSources, d) == Some(producers[d])
      ensures dispatchFuncs == WiredList(reliableAckSources, dispatchRules)
      ensures forall t :: t in pubsubTxTypes' <==> t in pubsubTxTypes || (t == recordName && Pubsub in dispatchRules)
    {
      dispatchFuncs, pubsubTxTypes' := [], pubsubTxTypes;
      var j := 0;
      while j < |dispatchRules|
        invariant 0 <= j <= |dispatchRules|
        invariant dispatchFuncs == WiredList(reliableAckSources, dispatchRules[..j])
        invariant forall t :: t in pubsubTxTypes' <==>
          t in pubsubTxTypes || (t == recordName && Pubsub in dispatchRules[..j])
      {
        var rule := dispatchRules[j];
        if rule == Pubsub { pubsubTxTypes' := pubsubTxTypes' + [recordName]; }
        dispatchFuncs := dispatchFuncs + [if rule in producers then Some(producers[rule]) else None];
        j := j + 1;
      }
      assert dispatchRules[..j] == dispatchRules;
    }

    /**
     * Each record's rule names are looked up in order; a name without a producer gives nil.
     * Records sent to Pub/Sub are collected for topic provisioning.
     */
    method WireRules(producers: map<Dispatcher, Producer>) returns (r: Result<(Rules, seq<TxType>), Error>)
      requires forall d :: d in Required(records) && Known(d) ==> d in producers
      requires forall d :: d in producers ==> WiredProducer(reliableAckSources, d) == Some(producers[d])
      ensures r.Ok? <==> forall t :: t in records ==> records[t] != []
      ensures r.Ok? ==> r.value.0 == map t | t in records :: WiredList(reliableAckSources, records[t])
      ensures r.Ok? ==> forall t :: t in r.value.1 <==> t in records && Pubsub in records[t]
    {
      var rules: Rules, pubsubTxTypes: seq<TxType> := map[], [];
      var todo := records.Keys;
      while todo != {}
        invariant todo <= records.Keys && rules.Keys == records.Keys - todo
        invariant forall t :: t in rules ==> records[t] != [] && rules[t] == WiredList(reliableAckSources, records[t])
        invariant forall t :: t in pubsubTxTypes <==> t in rules && Pubsub in records[t]
        decreases todo
      {
        var recordName :| recordName in todo;
        var dispatchRules := records[recordName];
        var dispatchFuncs;
        dispatchFuncs, pubsubTxTypes := WireRule(producers, recordName, dispatchRules, pubsubTxTypes);
        if |dispatchFuncs| == 0 { return Err(NoDispatchRule(recordName)); }
        rules := rules[recordName := dispatchFuncs];
        todo := todo - {recordName};
      }
      return Ok((rules, pubsubTxTypes));
    }

    /** What a start takes: valid sources, ready brokers, a rule for every record, and the two late steps. */
    lemma StartableMeans(brokers: Brokers, test: bool)
      ensures Startable(brokers, test) <==>
              && (forall t :: t in reliableAckSources ==>
                    && t != "connectivity" && reliableAckSources[t] != Logger
                    && t in records && reliableAckSources[t] in records[t])
              && (forall d, t :: t in records && d in records[t] && d in {Kafka, Pubsub, Kinesis, ZMQ, MQTT, NATS} ==>
                    d in brokers.configured && d in brokers.reachable)
              && (forall t :: t in records ==> records[t] != [])
              && (test || brokers.topicsProvisioned || forall t :: t in records ==> Pubsub !in records[t])
              && (test || brokers.mqttConnects || forall t :: t in records ==> MQTT !in records[t])
    {
      assert forall d :: d in {Kafka, Pubsub, Kinesis, ZMQ, MQTT, NATS} <==> Known(d) && d != Logger;
      assert BrokersReady(Required(records), brokers) <==>
             forall d, t :: t in records && d in records[t] && d in {Kafka, Pubsub, Kinesis, ZMQ, MQTT, NATS} ==>
               d in brokers.configured && d in brokers.reachable;
      assert Pubsub in Required(records) <==> exists t :: t in records && Pubsub in records[t];
      assert MQTT in Required(records) <==> exists t :: t in records && MQTT in records[t];
    }

    /** The wiring of ConfigureProducers; it succeeds exactly on a startable configuration. */
    method ConfigureProducers(brokers: Brokers, test: bool)
      returns (r: Result<(map<Dispatcher, Producer>, Rules), Error>)
      ensures r.Ok? <==> Startable(brokers, test)
      ensures r.Ok? ==> Established(Required(records), BROKERS, r.value.0)
      ensures r.Ok? ==> r.value.1 == map t | t in records :: WiredList(reliableAckSources, records[t])
    {
      var sources := ConfigureReliableAckSources();
      if sources.Err? { return Err(sources.error); }
      var required := RequiredDispatchers();
      var producers := Establish(sources.value, required.Keys, brokers);
      if producers.Err? { return Err(producers.error); }
      var rules := WireRules(producers.value);
      if rules.Err? { return Err(rules.error); }
      PubsubIsRequired(records, rules.value.1);
      if !test && |rules.value.1| > 0 && !brokers.topicsProvisioned { return Err(BrokerFailed(Pubsub)); }
      if !test && MQTT in producers.value && !brokers.mqttConnects { return Err(BrokerFailed(MQTT)); }
      return Ok((producers.value, rules.value.0));
    }
  }

  // ----- What acceptance guarantees -----

  /** The inverse is exact: dispatchers share no type, and every reliable type belongs to one. */
  lemma InverseIsPartition(sources: map<TxType, Dispatcher>)
    ensures forall d, t :: t in AckTypes(Inverse(sources), d) <==> t in sources && sources[t] == d
    ensures forall a, b :: a != b ==> AckTypes(Inverse(sources), a) !! AckTypes(Inverse(sources), b)
  {
    forall d, t ensures t in AckTypes(Inverse(sources), d) <==> t in sources && sources[t] == d {
      if t in sources && sources[t] == d { assert d in sources.Values; }
    }
  }

  /** The wiring the server runs with. */
  function WiringOf(records: map<TxType, seq<Dispatcher>>, sources: map<TxType, Dispatcher>): Wiring {
    Wiring(records, sources, Inverse(sources))
  }

  /** Validation establishes what the protocol relies on. */
  lemma ValidatedWiring(records: map<TxType, seq<Dispatcher>>, sources: map<TxType, Dispatcher>)
    requires ValidSources(records, sources)
    ensures WiringOf(records, sources).Wired()
  {
    InverseIsPartition(sources);
    var w := WiringOf(records, sources);
    forall d, t ensures w.Acks(d, t) <==> t in w.reliable && w.reliable[t] == d {
      assert w.Acks(d, t) <==> t in AckTypes(Inverse(sources), d);
    }
  }

  /** A wired list has a nil entry exactly where the configuration names no known dispatcher. */
  lemma NilEntries(sources: map<TxType, Dispatcher>, ds: seq<Dispatcher>)
    ensures None in WiredList(sources, ds) <==> exists d :: d in ds && !Known(d)
  {
    var list := WiredList(sources, ds);
    if d :| d in ds && !Known(d) {
      var i :| 0 <= i < |ds| && ds[i] == d;
      assert list[i] == None;
    }
    if None in list {
      var i :| 0 <= i < |list| && list[i] == None;
      assert ds[i] in ds && !Known(ds[i]);
    }
  }

  /** The wired producers behave as the wiring the protocol runs with: same order, same types to ack. */
  lemma WiredIsWiring(records: map<TxType, seq<Dispatcher>>, sources: map<TxType, Dispatcher>, t: TxType, i: nat)
    requires ValidSources(records, sources) && t in records && i < |records[t]| && Known(records[t][i])
    ensures
      var w, p := WiringOf(records, sources), WiredList(sources, records[t])[i];
      && p.Some?
      && p.value.kind == w.rules[t][i]
      && forall x :: x in p.value.ackTypes <==> w.Acks(p.value.kind, x)
  {
    var w, p := WiringOf(records, sources), WiredList(sources, records[t])[i];
    InverseIsPartition(sources);
    forall x ensures x in p.value.ackTypes <==> w.Acks(p.value.kind, x) {
      assert w.Acks(p.value.kind, x) <==> x in AckTypes(Inverse(sources), p.value.kind);
      if x in sources && sources[x] == Logger { assert !ValidSource(records, x, sources[x]); }
    }
  }

  /**
   * Place by place, a rule name stands for a producer of that kind with exactly its types
   * to ack, an unknown one for nil.
   */
  lemma WiredListIs(sources: map<TxType, Dispatcher>, ds: seq<Dispatcher>, i: nat)
    requires i < |ds| && forall t :: t in sources ==> sources[t] != Logger
    ensures |WiredList(sources, ds)| == |ds|
    ensures
      var p := WiredList(sources, ds)[i];
      && (p == None <==> ds[i].Other?)
      && (p.Some? ==>
            p.value.kind == ds[i] && forall t :: t in p.value.ackTypes <==> t in sources && sources[t] == ds[i])
  {
    InverseIsPartition(sources);
    if ds[i] == Logger { assert forall t :: t in sources ==> sources[t] != ds[i]; }
  }

  /** Exactly one distinct producer in the list of a reliable type acks it: the designated one. */
  lemma OneAckingProducer(records: map<TxType, seq<Dispatcher>>, sources: map<TxType, Dispatcher>, t: TxType)
    requires ValidSources(records, sources) && t in sources
    ensures
      var list := WiredList(sources, records[t]);
      forall p :: Some(p) in list && t in p.ackTypes <==> Some(p) == WiredProducer(sources, sources[t])
  {
    InverseIsPartition(sources);
    var list := WiredList(sources, records[t]);
    assert ValidSource(records, t, sources[t]);
    var n :| 0 <= n < |records[t]| && records[t][n] == sources[t];
    assert list[n] == WiredProducer(sources, sources[t]);
    forall p ensures Some(p) in list && t in p.ackTypes <==> Some(p) == WiredProducer(sources, sources[t]) {
      if Some(p) in list && t in p.ackTypes {
        var i :| 0 <= i < |list| && list[i] == Some(p);
        assert t in AckTypes(Inverse(sources), records[t][i]);
      }
    }
  }
}
