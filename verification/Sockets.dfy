/**
 * One socket's read loop and its bookkeeping, and the registry that holds the sockets
 * (server/streaming/socket.go, server/streaming/socket_registry.go and handleAcks).
 * Effects on producers and on the write channel are kept in order in `effects`; their
 * interleaving with other goroutines is the business of the protocol modules.
 */
module Sockets {
  import opened Wrappers
  import opened Telemetry
  import opened Registries
  import Connections

  const SIGNALS_PER_DOLLAR: real := 150000.0

  /** The record types the upstream provider bills, with the cost type they are booked under. */
  const COST_RECORD_TYPES: map<TxType, string> :=
    map["V" := "streaming_data", "alerts" := "streaming_alerts", "errors" := "streaming_errors"]

  /** What NewRecord makes of one message; `signals` and `length` are those of its record. */
  datatype Incoming = Incoming(outcome: Outcome, txType: TxType, vin: string, length: nat, signals: nat)

  /** One ReadMessage, and for a binary message whether the rate limiter refused it. */
  datatype ReadResult = ReadError(err: string) | WrongType | Frame(limited: bool, message: Incoming)

  /** Cost is booked per cost type and authenticated VIN. */
  datatype CostKey = CostKey(costType: string, vin: string)

  // ----- Specification of the bookkeeping -----

  /** The record reaches the dispatcher: parsed, or of unknown type and falling through. */
  predicate Dispatched(m: Incoming) {
    m.outcome.Parsed? || m.outcome.UnknownType?
  }

  function Lookup<K, V>(m: map<K, V>, k: K, default: V): V {
    if k in m then m[k] else default
  }

  function Bumped(stats: map<TxType, int>, m: Incoming): map<TxType, int> {
    if Dispatched(m) then stats[m.txType := Lookup(stats, m.txType, 0) + m.length] else stats
  }

  predicate Billable(m: Incoming) {
    Dispatched(m) && m.txType in COST_RECORD_TYPES && m.signals != 0
  }

  function KeyOf(m: Incoming): CostKey
    requires m.txType in COST_RECORD_TYPES
  {
    CostKey(COST_RECORD_TYPES[m.txType], m.vin)
  }

  function Charged(cost: map<CostKey, real>, m: Incoming): map<CostKey, real> {
    if Billable(m) then
      cost[KeyOf(m) := Lookup(cost, KeyOf(m), 0.0) + m.signals as real / SIGNALS_PER_DOLLAR]
    else cost
  }

  /** The messages a run of reads hands to ParseAndProcessRecord. */
  function Served(script: seq<ReadResult>): seq<Incoming> {
    if script == [] || !script[0].Frame? then []
    else (if script[0].limited then [] else [script[0].message]) + Served(script[1..])
  }

  /** The read error that ends a run, if it is one. */
  function EndError(script: seq<ReadResult>): Option<string> {
    if script == [] then None
    else match script[0]
      case ReadError(err) => Some(err)
      case WrongType => None
      case Frame(_, _) => EndError(script[1..])
  }

  /** All that handling messages changes: effects outside, byte counts and booked cost. */
  datatype Ledger = Ledger(effects: seq<Action>, stats: map<TxType, int>, cost: map<CostKey, real>)

  function Booked(w: Wiring, l: Ledger, m: Incoming): Ledger {
    Ledger(l.effects + Program(w, m.outcome, m.txType), Bumped(l.stats, m), Charged(l.cost, m))
  }

  function BookedAll(w: Wiring, l: Ledger, ms: seq<Incoming>): Ledger
    decreases |ms|
  {
    if ms == [] then l else BookedAll(w, Booked(w, l, ms[0]), ms[1..])
  }

  function Programs(w: Wiring, ms: seq<Incoming>): seq<Action> {
    if ms == [] then [] else Program(w, ms[0].outcome, ms[0].txType) + Programs(w, ms[1..])
  }

  ghost function Sum(m: map<TxType, int>): int {
    if m == map[] then 0 else var k :| k in m; m[k] + Sum(m - {k})
  }

  lemma {:induction false} SumWithout(m: map<TxType, int>, k: TxType)
    requires k in m
    ensures Sum(m) == m[k] + Sum(m - {k})
    decreases |m|
  {
    var j :| j in m && Sum(m) == m[j] + Sum(m - {j});
    if j != k {
      assert |m - {j}| < |m| by { assert (m - {j}).Keys == m.Keys - {j}; }
      assert |m - {k}| < |m| by { assert (m - {k}).Keys == m.Keys - {k}; }
      SumWithout(m - {j}, k);
      SumWithout(m - {k}, j);
      assert m - {j} - {k} == m - {k} - {j};
    }
  }

  // ----- The socket -----

  class SocketManager {
    const uuid: string
    var recordsStats: map<TxType, int>
    var cost: map<CostKey, real>
    var closeReason: string
    var wsClosed: bool
    var stopCloses: nat
    var effects: seq<Action>

    constructor (uuid: string)
      ensures this.uuid == uuid && recordsStats == map[] && cost == map[] && closeReason == ""
      ensures !wsClosed && stopCloses == 0 && effects == []
    {
      this.uuid := uuid;
      recordsStats, cost, closeReason := map[], map[], "";
      wsClosed, stopCloses, effects := false, 0, [];
    }

    ghost function Books(): Ledger
      reads this
    {
      Ledger(effects, recordsStats, cost)
    }

    method RecordCloseReason(err: Option<string>)
      modifies `closeReason
      ensures closeReason == Connections.FirstReason(old(closeReason), err)
      ensures closeReason == if old(closeReason) == "" && err.Some? then err.value else old(closeReason)
    {
      if err.None? { return; }
      if closeReason == "" { closeReason := err.value; }
    }

    method RequestClose()
      modifies `closeReason, `wsClosed
      ensures wsClosed && closeReason == Connections.FirstReason(old(closeReason), Some(Connections.SERVER_SHUTDOWN))
      ensures closeReason == if old(closeReason) == "" then "server_shutdown" else old(closeReason)
    {
      RecordCloseReason(Some(Connections.SERVER_SHUTDOWN));
      wsClosed := true;
    }

    method RespondToVehicle(reply: Reply)
      modifies `effects
      ensures effects == old(effects) + [Respond(reply)]
    {
      effects := effects + [Respond(reply)];
    }

    /** BinarySerializer.Dispatch. */
    method ProcessRecord(w: Wiring, txType: TxType)
      modifies `effects
      ensures effects == old(effects) + Dispatches(w, txType)
    {
      var producers := if txType in w.rules then w.rules[txType] else [];
      var i := 0;
      while i < |producers|
        invariant 0 <= i <= |producers|
        invariant effects == old(effects) + Dispatches(w, txType)[..i]
      {
        effects := effects + [Produce(producers[i])];
        i := i + 1;
      }
    }

    method ReportMetricBytesPerRecords(recordType: TxType, byteSize: nat)
      modifies `recordsStats
      ensures recordsStats == old(recordsStats)[recordType := Lookup(old(recordsStats), recordType, 0) + byteSize]
    {
      recordsStats := recordsStats[recordType := Lookup(recordsStats, recordType, 0) + byteSize];
    }

    method TrackSignalCost(m: Incoming)
      requires Dispatched(m)
      modifies `cost
      ensures cost == Charged(old(cost), m)
    {
      if m.txType !in COST_RECORD_TYPES || m.signals == 0 { return; }
      var key := KeyOf(m);
      cost := cost[key := Lookup(cost, key, 0.0) + m.signals as real / SIGNALS_PER_DOLLAR];
    }

    method ParseAndProcessRecord(w: Wiring, m: Incoming)
      modifies `effects, `recordsStats, `cost
      ensures effects == old(effects) + Program(w, m.outcome, m.txType)
      ensures recordsStats == Bumped(old(recordsStats), m) && cost == Charged(old(cost), m)
      // In the message's own terms:
      ensures
        var rule := if m.txType in w.rules then w.rules[m.txType] else [];
        var calls := seq(|rule|, i requires 0 <= i < |rule| => Produce(rule[i]));
        var last := if m.txType in w.reliable then [] else [Respond(Ack)];
        && (m.outcome.Parsed? ==> effects == old(effects) + (calls + last))
        && (m.outcome.UnknownType? ==> effects == old(effects) + ([Respond(Ack)] + calls + last))
        && (m.outcome.TooBig? || m.outcome.OtherError? ==> effects == old(effects) + [Respond(Error)])
        && (m.outcome.UnauthorizedSender? ==> effects == old(effects) + [Respond(Ack)])
      ensures m.outcome.Parsed? || m.outcome.UnknownType? ==>
                && recordsStats == old(recordsStats)[m.txType :=
                     (if m.txType in old(recordsStats) then old(recordsStats)[m.txType] else 0) + m.length]
      ensures !m.outcome.Parsed? && !m.outcome.UnknownType? ==> recordsStats == old(recordsStats) && cost == old(cost)
    {
      ProgramIs(w, m.outcome, m.txType);
      match m.outcome {
        case TooBig =>
          RespondToVehicle(Error);
          return;
        case UnauthorizedSender =>
          RespondToVehicle(Ack);
          return;
        case UnknownType =>
          // Acked, and then processed like any other record.
          RespondToVehicle(Ack);
        case OtherError =>
          RespondToVehicle(Error);
          return;
        case Parsed =>
      }
      DispatchAndAck(w, m);
    }

    /** The record is counted, billed and dispatched, and acked at once unless its type waits for a producer. */
    method DispatchAndAck(w: Wiring, m: Incoming)
      requires Dispatched(m)
      modifies `effects, `recordsStats, `cost
      ensures effects == old(effects) + Deliver(w, m.txType)
      ensures recordsStats == Bumped(old(recordsStats), m) && cost == Charged(old(cost), m)
    {
      ReportMetricBytesPerRecords(m.txType, m.length);
      TrackSignalCost(m);
      ProcessRecord(w, m.txType);
      if m.txType !in w.reliable {
        RespondToVehicle(Ack);
      }
    }

    /** The totals of the disconnect log; record types are visited in any order. */
    method RecordsStatsToLogInfo() returns (logInfo: map<string, int>)
      ensures logInfo == recordsStats["total" := Sum(recordsStats)]
    {
      var total := 0;
      logInfo := map[];
      var todo := recordsStats.Keys;
      while todo != {}
        invariant todo <= recordsStats.Keys
        invariant logInfo == map k | k in recordsStats && k !in todo :: recordsStats[k]
        invariant total == Sum(logInfo)
        decreases todo
      {
        var key :| key in todo;
        ghost var before := logInfo;
        logInfo := logInfo[key := recordsStats[key]];
        SumWithout(logInfo, key);
        assert logInfo - {key} == before;
        total := total + recordsStats[key];
        todo := todo - {key};
      }
      assert logInfo == recordsStats;
      logInfo := logInfo["total" := total];
    }

    /** The read loop: `i` is the read that ends it, the first that is no binary message. */
    method ReadLoop(w: Wiring, script: seq<ReadResult>) returns (i: nat)
      requires exists i :: 0 <= i < |script| && !script[i].Frame?
      modifies `effects, `recordsStats, `cost
      ensures Books() == Conversed(w, old(Books()), script, 0)
      ensures i < |script| && !script[i].Frame? && forall j :: 0 <= j < i ==> script[j].Frame?
    {
      ghost var end: nat :| end < |script| && !script[end].Frame?;
      ghost var goal := Conversed(w, Books(), script, 0);
      i := 0;
      while script[i].Frame?
        invariant i <= end
        invariant forall j :: 0 <= j < i ==> script[j].Frame?
        invariant Conversed(w, Books(), script, i) == goal
        decreases end - i
      {
        if !script[i].limited {
          ParseAndProcessRecord(w, script[i].message);
        }
        i := i + 1;
      }
    }

    /** The whole life of the read loop, for reads that end it, and its deferred teardown. */
    method ProcessTelemetry(w: Wiring, script: seq<ReadResult>, closeErr: Option<string>)
      returns (logInfo: map<string, int>)
      requires exists i :: 0 <= i < |script| && !script[i].Frame?
      modifies this
      ensures Books() == BookedAll(w, old(Books()), Served(script))
      ensures closeReason ==
              Connections.FirstReason(Connections.FirstReason(old(closeReason), EndError(script)), closeErr)
      ensures old(closeReason) != "" ==> closeReason == old(closeReason)
      ensures old(closeReason) == "" && EndError(script).Some? && EndError(script).value != "" ==>
                closeReason == EndError(script).value
      ensures wsClosed && stopCloses == old(stopCloses) + 1
      ensures logInfo == recordsStats["total" := Sum(recordsStats)]
    {
      ConversedIsBooked(w, Books(), script, 0);
      assert script[0..] == script;
      var i := ReadLoop(w, script);
      EndErrorIs(script, i);
      RecordCloseReason(if script[i].ReadError? then Some(script[i].err) else None);
      logInfo := Close(closeErr);
      stopCloses := stopCloses + 1;
    }

    method Close(closeErr: Option<string>) returns (logInfo: map<string, int>)
      modifies `closeReason, `wsClosed
      ensures wsClosed && closeReason == Connections.FirstReason(old(closeReason), closeErr)
      ensures closeReason == if old(closeReason) == "" && closeErr.Some? then closeErr.value else old(closeReason)
      ensures logInfo == recordsStats["total" := Sum(recordsStats)]
    {
      wsClosed := true;
      RecordCloseReason(closeErr);
      logInfo := RecordsStatsToLogInfo();
    }
  }

  /** What the reads of a script from the `i`-th on make of a ledger. */
  function Conversed(w: Wiring, l: Ledger, script: seq<ReadResult>, i: nat): Ledger
    decreases |script| - i
  {
    if i >= |script| || !script[i].Frame? then l
    else Conversed(w, if script[i].limited then l else Booked(w, l, script[i].message), script, i + 1)
  }

  /** It is what booking the served messages makes of it. */
  lemma {:induction false} ConversedIsBooked(w: Wiring, l: Ledger, script: seq<ReadResult>, i: nat)
    requires i <= |script|
    ensures Conversed(w, l, script, i) == BookedAll(w, l, Served(script[i..]))
    decreases |script| - i
  {
    if i < |script| && script[i].Frame? {
      var rest := Served(script[i + 1..]);
      assert script[i..][1..] == script[i + 1..];
      if script[i].limited {
        assert Served(script[i..]) == rest;
        ConversedIsBooked(w, l, script, i + 1);
      } else {
        assert Served(script[i..]) == [script[i].message] + rest;
        ConversedIsBooked(w, Booked(w, l, script[i].message), script, i + 1);
      }
    }
  }

  lemma {:induction false} EndErrorIs(script: seq<ReadResult>, i: nat)
    requires i < |script| && !script[i].Frame? && forall j :: 0 <= j < i ==> script[j].Frame?
    ensures EndError(script) == if script[i].ReadError? then Some(script[i].err) else None
  {
    if i > 0 { EndErrorIs(script[1..], i - 1); }
  }

  /** A rate-limited message leaves no trace in what is served; any other message is served in its turn. */
  lemma ServedIs(r: ReadResult, rest: seq<ReadResult>)
    ensures Served([]) == []
    ensures r.Frame? && r.limited ==> Served([r] + rest) == Served(rest)
    ensures r.Frame? && !r.limited ==> Served([r] + rest) == [r.message] + Served(rest)
    ensures !r.Frame? ==> Served([r] + rest) == []
  {
    assert ([r] + rest)[1..] == rest;
  }

  // ----- Byte and cost accounting -----

  /** The bytes of the records that reached the dispatcher. */
  function DispatchedBytes(ms: seq<Incoming>): nat {
    if ms == [] then 0 else (if Dispatched(ms[0]) then ms[0].length else 0) + DispatchedBytes(ms[1..])
  }

  lemma SumBumped(stats: map<TxType, int>, m: Incoming)
    requires Dispatched(m)
    ensures Sum(Bumped(stats, m)) == Sum(stats) + m.length
  {
    var stats' := Bumped(stats, m);
    SumWithout(stats', m.txType);
    if m.txType in stats { SumWithout(stats, m.txType); }
    assert stats' - {m.txType} == stats - {m.txType};
    if m.txType !in stats { assert stats - {m.txType} == stats; }
  }

  /** The outside sees one program after the other, in order of arrival. */
  lemma {:induction false} EffectsArePrograms(w: Wiring, l: Ledger, ms: seq<Incoming>)
    ensures BookedAll(w, l, ms).effects == l.effects + Programs(w, ms)
    decreases |ms|
  {
    if ms != [] {
      EffectsArePrograms(w, Booked(w, l, ms[0]), ms[1..]);
    }
  }

  /** `total` in the disconnect log counts every dispatched byte once, whatever the types are called. */
  lemma {:induction false} TotalIsDispatchedBytes(w: Wiring, l: Ledger, ms: seq<Incoming>)
    ensures Sum(BookedAll(w, l, ms).stats) == Sum(l.stats) + DispatchedBytes(ms)
    decreases |ms|
  {
    if ms != [] {
      if Dispatched(ms[0]) { SumBumped(l.stats, ms[0]); }
      TotalIsDispatchedBytes(w, Booked(w, l, ms[0]), ms[1..]);
    }
  }

  /** Billed signals booked under one cost type and VIN. */
  function BilledSignals(ms: seq<Incoming>, key: CostKey): nat {
    if ms == [] then 0
    else (if Billable(ms[0]) && KeyOf(ms[0]) == key then ms[0].signals else 0) + BilledSignals(ms[1..], key)
  }

  /** 150000 times the accumulated cost is the number of billed signals, per cost type and VIN. */
  lemma {:induction false} CostIsBilledSignals(w: Wiring, l: Ledger, ms: seq<Incoming>, key: CostKey)
    ensures SIGNALS_PER_DOLLAR * Lookup(BookedAll(w, l, ms).cost, key, 0.0)
         == SIGNALS_PER_DOLLAR * Lookup(l.cost, key, 0.0) + BilledSignals(ms, key) as real
    decreases |ms|
  {
    if ms != [] {
      CostIsBilledSignals(w, Booked(w, l, ms[0]), ms[1..], key);
    }
  }

  /** The bytes of the parsed, or unknown and passed on, messages of one record type. */
  function BytesOf(ms: seq<Incoming>, t: TxType): nat {
    if ms == [] then 0
    else
      (if (ms[0].outcome.Parsed? || ms[0].outcome.UnknownType?) && ms[0].txType == t then ms[0].length else 0)
      + BytesOf(ms[1..], t)
  }

  /** Every type is booked with its own bytes. */
  lemma {:induction false} BytesPerType(w: Wiring, l: Ledger, ms: seq<Incoming>, t: TxType)
    ensures Lookup(BookedAll(w, l, ms).stats, t, 0) == Lookup(l.stats, t, 0) + BytesOf(ms, t)
    decreases |ms|
  {
    if ms != [] { BytesPerType(w, Booked(w, l, ms[0]), ms[1..], t); }
  }

  /** The total of a table is the sum of its entries. */
  lemma SumIsTotal(m: map<TxType, int>, k: TxType, v: int)
    requires k !in m
    ensures Sum(map[]) == 0
    ensures Sum(m[k := v]) == Sum(m) + v
  {
    SumWithout(m[k := v], k);
    assert m[k := v] - {k} == m;
  }

  /** The signals of the parsed, or unknown and passed on, messages of one record type and VIN. */
  function SignalsOf(ms: seq<Incoming>, t: TxType, vin: string): nat {
    if ms == [] then 0
    else
      (if (ms[0].outcome.Parsed? || ms[0].outcome.UnknownType?) && ms[0].txType == t && ms[0].vin == vin
       then ms[0].signals else 0)
      + SignalsOf(ms[1..], t, vin)
  }

  lemma {:induction false} BilledIs(ms: seq<Incoming>, vin: string)
    ensures BilledSignals(ms, CostKey("streaming_data", vin)) == SignalsOf(ms, "V", vin)
    ensures BilledSignals(ms, CostKey("streaming_alerts", vin)) == SignalsOf(ms, "alerts", vin)
    ensures BilledSignals(ms, CostKey("streaming_errors", vin)) == SignalsOf(ms, "errors", vin)
  {
    if ms != [] { BilledIs(ms[1..], vin); }
  }

  /** A vehicle is billed one dollar for 150000 signals, under one cost type for each billable record type. */
  lemma {:induction false} DollarsPerVehicle(w: Wiring, l: Ledger, ms: seq<Incoming>, vin: string)
    requires l.cost == map[]
    ensures
      var cost := BookedAll(w, l, ms).cost;
      && 150000.0 * Lookup(cost, CostKey("streaming_data", vin), 0.0) == SignalsOf(ms, "V", vin) as real
      && 150000.0 * Lookup(cost, CostKey("streaming_alerts", vin), 0.0) == SignalsOf(ms, "alerts", vin) as real
      && 150000.0 * Lookup(cost, CostKey("streaming_errors", vin), 0.0) == SignalsOf(ms, "errors", vin) as real
  {
    CostIsBilledSignals(w, l, ms, CostKey("streaming_data", vin));
    CostIsBilledSignals(w, l, ms, CostKey("streaming_alerts", vin));
    CostIsBilledSignals(w, l, ms, CostKey("streaming_errors", vin));
    BilledIs(ms, vin);
  }

  // ----- The registry -----

  class SocketRegistry {
    var sockets: map<string, SocketManager>
    var counter: int

    constructor ()
      ensures View() == NoSockets()
    {
      sockets, counter := map[], 0;
    }

    ghost function View(): Registry<SocketManager>
      reads this
    {
      Registry(sockets, counter)
    }

    method RegisterSocket(socket: SocketManager)
      modifies this
      ensures View() == old(View()).Add(socket.uuid, socket)
    {
      sockets := sockets[socket.uuid := socket];
      counter := counter + 1;
    }

    method DeregisterSocket(socket: SocketManager)
      modifies this
      ensures View() == old(View()).Remove(socket.uuid)
    {
      sockets := sockets - {socket.uuid};
      if counter > 0 { counter := counter - 1; }
    }

    method GetSocket(uuid: string) returns (socket: Option<SocketManager>)
      ensures socket == View().Get(uuid)
    {
      socket := if uuid in sockets then Some(sockets[uuid]) else None;
    }

    /** Snapshot first, then close each; the map is not touched and no other field either. */
    method CloseAllSockets()
      modifies sockets.Values`closeReason, sockets.Values`wsClosed
      ensures forall s :: s in sockets.Values ==>
        s.wsClosed && s.closeReason == if old(s.closeReason) == "" then "server_shutdown" else old(s.closeReason)
    {
      var todo := sockets.Values;
      while todo != {}
        invariant todo <= sockets.Values
        invariant forall s :: s in todo ==> s.closeReason == old(s.closeReason)
        invariant forall s :: s in sockets.Values - todo ==>
          s.wsClosed && s.closeReason == Connections.FirstReason(old(s.closeReason), Some(Connections.SERVER_SHUTDOWN))
        modifies sockets.Values`closeReason, sockets.Values`wsClosed
        decreases todo
      {
        var socket :| socket in todo;
        socket.RequestClose();
        todo := todo - {socket};
      }
    }
  }

  // ----- The ack loop -----

  /** What the ack loop looks at in a record. */
  datatype AckRecord = AckRecord(socketId: string, hasSerializer: bool)

  predicate IsFor(r: AckRecord, sockets: map<string, SocketManager>, s: SocketManager) {
    r.hasSerializer && r.socketId in sockets && sockets[r.socketId] == s
  }

  /** The acks a socket gets from a batch of records. */
  function AcksFor(records: seq<AckRecord>, sockets: map<string, SocketManager>, s: SocketManager): seq<Action> {
    if records == [] then []
    else
      var n := |records| - 1;
      AcksFor(records[..n], sockets, s) + if IsFor(records[n], sockets, s) then [Respond(Ack)] else []
  }

  lemma AcksForOneMore(records: seq<AckRecord>, i: nat, sockets: map<string, SocketManager>, s: SocketManager)
    requires i < |records|
    ensures AcksFor(records[..i + 1], sockets, s)
         == AcksFor(records[..i], sockets, s) + if IsFor(records[i], sockets, s) then [Respond(Ack)] else []
  {
    assert records[..i + 1][..i] == records[..i];
  }

  /** A socket under one id gets one ack for every record with that id and a serializer. */
  lemma {:induction false} AcksAreRecords(records: seq<AckRecord>, sockets: map<string, SocketManager>, uuid: string)
    requires uuid in sockets && forall u :: u in sockets && u != uuid ==> sockets[u] != sockets[uuid]
    ensures
      var acks := AcksFor(records, sockets, sockets[uuid]);
      |acks| == multiset(records)[AckRecord(uuid, true)] && forall i :: 0 <= i < |acks| ==> acks[i] == Respond(Ack)
  {
    if records != [] {
      var n := |records| - 1;
      AcksAreRecords(records[..n], sockets, uuid);
      assert records == records[..n] + [records[n]];
    }
  }

  /** How many records of a batch find a socket, and how many look for one in vain. */
  function Found(records: seq<AckRecord>, uuids: set<string>): nat {
    if records == [] then 0
    else
      var n := |records| - 1;
      Found(records[..n], uuids) + if records[n].hasSerializer && records[n].socketId in uuids then 1 else 0
  }

  function Missed(records: seq<AckRecord>, uuids: set<string>): nat {
    if records == [] then 0
    else
      var n := |records| - 1;
      Missed(records[..n], uuids) + if records[n].hasSerializer && records[n].socketId !in uuids then 1 else 0
  }

  /** Every record with a serializer is a hit or a miss. */
  lemma {:induction false} FoundOrMissed(records: seq<AckRecord>, uuids: set<string>)
    requires forall i :: 0 <= i < |records| ==> records[i].hasSerializer
    ensures Found(records, uuids) + Missed(records, uuids) == |records|
  {
    if records != [] { FoundOrMissed(records[..|records| - 1], uuids); }
  }

  /** dispatchConnectivityEvent for an event whose record could, or could not, be built. */
  function ConnectivityCalls(w: Wiring, built: bool): seq<Action> {
    if Connections.Announces(w, built) then Dispatches(w, CONNECTIVITY) else []
  }

  /** All producer calls and responses of one connection's handler. */
  function Life(w: Wiring, connected: bool, served: seq<Incoming>, disconnected: bool): seq<Action> {
    ConnectivityCalls(w, connected) + Programs(w, served) + ConnectivityCalls(w, disconnected)
  }

  /** One more record of a batch, seen by every socket and by the two counters. */
  lemma BatchOneMore(records: seq<AckRecord>, i: nat, sockets: map<string, SocketManager>)
    requires i < |records|
    ensures forall s :: s in sockets.Values ==>
              AcksFor(records[..i + 1], sockets, s)
              == AcksFor(records[..i], sockets, s) + if IsFor(records[i], sockets, s) then [Respond(Ack)] else []
    ensures Found(records[..i + 1], sockets.Keys)
         == Found(records[..i], sockets.Keys)
            + if records[i].hasSerializer && records[i].socketId in sockets.Keys then 1 else 0
    ensures Missed(records[..i + 1], sockets.Keys)
         == Missed(records[..i], sockets.Keys)
            + if records[i].hasSerializer && records[i].socketId !in sockets.Keys then 1 else 0
  {
    assert records[..i + 1][..i] == records[..i];
    forall s | s in sockets.Values
      ensures AcksFor(records[..i + 1], sockets, s)
           == AcksFor(records[..i], sockets, s) + if IsFor(records[i], sockets, s) then [Respond(Ack)] else []
    {
      AcksForOneMore(records, i, sockets, s);
    }
  }

  /** CONNECTED calls come first and DISCONNECTED calls last, each for every producer of the rule, if there is one. */
  lemma LifeIs(w: Wiring, connected: bool, served: seq<Incoming>, disconnected: bool)
    ensures
      var rule := if "connectivity" in w.rules then w.rules["connectivity"] else [];
      var calls := seq(|rule|, i requires 0 <= i < |rule| => Produce(rule[i]));
      Life(w, connected, served, disconnected)
      == (if connected then calls else []) + Programs(w, served) + if disconnected then calls else []
  {
    var rule := if "connectivity" in w.rules then w.rules["connectivity"] else [];
    assert Dispatches(w, CONNECTIVITY) == seq(|rule|, i requires 0 <= i < |rule| => Produce(rule[i]));
  }

  class Server {
    const registry: SocketRegistry
    var hits: nat
    var misses: nat

    constructor (registry: SocketRegistry)
      ensures this.registry == registry && hits == 0 && misses == 0
    {
      this.registry := registry;
      hits, misses := 0, 0;
    }

    /** handleAcks over the records one drain of the channel yields, while nobody comes or goes. */
    method HandleAcks(records: seq<AckRecord>)
      modifies this, registry.sockets.Values`effects
      ensures forall s :: s in registry.sockets.Values ==>
        s.effects == old(s.effects) + AcksFor(records, registry.sockets, s)
      ensures hits == old(hits) + Found(records, registry.sockets.Keys)
      ensures misses == old(misses) + Missed(records, registry.sockets.Keys)
    {
      var i := 0;
      while i < |records|
        invariant 0 <= i <= |records|
        invariant forall s :: s in registry.sockets.Values ==>
          s.effects == old(s.effects) + AcksFor(records[..i], registry.sockets, s)
        invariant hits == old(hits) + Found(records[..i], registry.sockets.Keys)
        invariant misses == old(misses) + Missed(records[..i], registry.sockets.Keys)
        modifies this, registry.sockets.Values`effects
      {
        BatchOneMore(records, i, registry.sockets);
        Handle(records[i]);
        i := i + 1;
      }
      assert records[..i] == records;
    }

    method Handle(record: AckRecord)
      modifies this, registry.sockets.Values`effects
      ensures forall s :: s in registry.sockets.Values ==>
        s.effects == old(s.effects) + if IsFor(record, registry.sockets, s) then [Respond(Ack)] else []
      ensures hits == old(hits) + if record.hasSerializer && record.socketId in registry.sockets then 1 else 0
      ensures misses == old(misses) + if record.hasSerializer && record.socketId !in registry.sockets then 1 else 0
    {
      if record.hasSerializer {
        var found := registry.GetSocket(record.socketId);
        match found {
          case Some(socket) =>
            hits := hits + 1;
            assert socket in registry.sockets.Values;
            socket.RespondToVehicle(Ack);
          case None =>
            misses := misses + 1;
        }
      }
    }

    method DispatchConnectivityEvent(w: Wiring, socket: SocketManager, built: bool)
      modifies socket`effects
      ensures socket.effects == old(socket.effects) + ConnectivityCalls(w, built)
      ensures
        var rule := if built && "connectivity" in w.rules then w.rules["connectivity"] else [];
        socket.effects == old(socket.effects) + seq(|rule|, i requires 0 <= i < |rule| => Produce(rule[i]))
    {
      if CONNECTIVITY !in w.rules || !built { return; }
      socket.ProcessRecord(w, CONNECTIVITY);
    }

    method RegisterSocket(w: Wiring, socket: SocketManager, built: bool)
      modifies registry, socket`effects
      ensures registry.View() == old(registry.View()).Add(socket.uuid, socket)
      ensures socket.effects == old(socket.effects) + ConnectivityCalls(w, built)
    {
      registry.RegisterSocket(socket);
      DispatchConnectivityEvent(w, socket, built);
    }

    method DeregisterSocket(w: Wiring, socket: SocketManager, built: bool)
      modifies registry, socket`effects
      ensures registry.View() == old(registry.View()).Remove(socket.uuid)
      ensures socket.effects == old(socket.effects) + ConnectivityCalls(w, built)
    {
      registry.DeregisterSocket(socket);
      DispatchConnectivityEvent(w, socket, built);
    }

    /** ProcessTelemetry on a socket that has not served yet. */
    method Converse(w: Wiring, socket: SocketManager, script: seq<ReadResult>, closeErr: Option<string>)
      requires exists i :: 0 <= i < |script| && !script[i].Frame?
      requires socket.recordsStats == map[]
      modifies socket
      ensures socket.effects == old(socket.effects) + Programs(w, Served(script))
      ensures Sum(socket.recordsStats) == DispatchedBytes(Served(script))
      ensures socket.closeReason ==
              Connections.FirstReason(Connections.FirstReason(old(socket.closeReason), EndError(script)), closeErr)
      ensures socket.wsClosed && socket.stopCloses == old(socket.stopCloses) + 1
    {
      ghost var books, served := socket.Books(), Served(script);
      EffectsArePrograms(w, books, served);
      TotalIsDispatchedBytes(w, books, served);
      var _ := socket.ProcessTelemetry(w, script, closeErr);
    }

    /**
     * The whole life of one connection, with nobody else coming or going. `admitted` says
     * whether an identity was found and the data connector allows it; `connected` and
     * `disconnected` whether the two event records could be built.
     */
    method ServeBinaryWs(w: Wiring, admitted: bool, uuid: string, connected: bool, script: seq<ReadResult>,
                         closeErr: Option<string>, disconnected: bool)
      returns (socket: Option<SocketManager>)
      requires exists i :: 0 <= i < |script| && !script[i].Frame?
      modifies registry
      ensures socket.Some? <==> admitted
      ensures !admitted ==> registry.View() == old(registry.View())
      ensures admitted ==>
                var s := socket.value;
                && fresh(s) && s.uuid == uuid
                && registry.View() == old(registry.View()).Add(uuid, s).Remove(uuid)
                && s.effects == Life(w, connected, Served(script), disconnected)
                && Sum(s.recordsStats) == DispatchedBytes(Served(script))
                && s.wsClosed && s.stopCloses == 1
                && s.closeReason == (if EndError(script).Some? && EndError(script).value != ""
                                     then EndError(script).value
                                     else if closeErr.Some? then closeErr.value else "")
    {
      if !admitted { return None; }
      var manager := new SocketManager(uuid);
      RegisterSocket(w, manager, connected);
      assert manager.effects == ConnectivityCalls(w, connected);
      Converse(w, manager, script, closeErr);
      DeregisterSocket(w, manager, disconnected);
      return Some(manager);
    }
  }
}
