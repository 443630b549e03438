/**
 * From a websocket message to a record (telemetry/serializer.go, telemetry/record.go).
 * Protobuf and JSON encodings are parameters; marshalling may fail, as for a string that
 * is not valid UTF-8.
 */
module Records {
  import opened Wrappers
  import opened Telemetry
  import opened Payloads
  import Flatbuffers
  import StreamMessages

  const SIZE_LIMIT: nat := 1000000
  const MAX_SECONDS_IN_DURATION: int := 315576000000

  type Bytes = Flatbuffers.Bytes

  datatype Timestamp = Timestamp(seconds: int, nanos: int)

  datatype AlertMessage = AlertMessage(name: string, startedAt: Option<Timestamp>, endedAt: Option<Timestamp>)

  /** The protobuf messages of the four known record types. */
  datatype Proto =
    | Payload(vin: string, data: seq<Datum>)
    | VehicleAlerts(vin: string, alerts: seq<AlertMessage>)
    | VehicleErrors(vin: string, errors: seq<string>)
    | VehicleConnectivity(vin: string, connectionId: string)

  /** The encodings; `json` also renders the absent message of an unknown type. */
  datatype Codec = Codec(
    unmarshal: (TxType, Bytes) -> Option<Proto>,
    marshal: Proto -> Option<Bytes>,
    json: Option<Proto> -> Option<Bytes>)

  datatype RequestIdentity = RequestIdentity(deviceID: string, senderID: string, deviceClientVersion: string)

  datatype RecordError =
    | MessageTooBig
    | UnknownMessageType(txid: Bytes, guessedType: nat)
    | SenderMismatch
    | Recovered
    | TransformFailed

  /** How ParseAndProcessRecord's type switch sees the result of NewRecord. */
  function OutcomeOf(err: Option<RecordError>): Outcome {
    match err
    case None => Parsed
    case Some(MessageTooBig) => TooBig
    case Some(UnknownMessageType(_, _)) => UnknownType
    case Some(_) => OtherError
  }

  // ----- Timestamps -----

  /** Milliseconds sent as seconds are taken for what they are. */
  function ConvertTimestamp(input: Option<Timestamp>): Option<Timestamp> {
    match input
    case None => None
    case Some(t) =>
      if t.seconds < MAX_SECONDS_IN_DURATION then input
      else Some(Timestamp(t.seconds / 1000, t.seconds % 1000 * 1_000_000))
  }

  /** Converting twice changes nothing exactly below a thousand times the threshold. */
  lemma ConvertTwice(t: Timestamp)
    ensures ConvertTimestamp(ConvertTimestamp(Some(t))) == ConvertTimestamp(Some(t))
       <==> t.seconds < 1000 * MAX_SECONDS_IN_DURATION
  {
  }

  /** A conversion keeps the instant: what it takes for milliseconds are those of the result. */
  lemma ConversionKeepsInstant(t: Timestamp)
    ensures ConvertTimestamp(None) == None
    ensures
      var r := ConvertTimestamp(Some(t));
      && r.Some?
      && (t.seconds < 315576000000 ==> r.value == t)
      && (t.seconds >= 315576000000 ==>
            && r.value.seconds * 1000 + r.value.nanos / 1000000 == t.seconds
            && 0 <= r.value.nanos < 1000000000 && r.value.nanos % 1000000 == 0)
  {
  }

  function ConvertAlert(a: AlertMessage): AlertMessage {
    a.(startedAt := ConvertTimestamp(a.startedAt), endedAt := ConvertTimestamp(a.endedAt))
  }

  function ConvertAlerts(alerts: seq<AlertMessage>): seq<AlertMessage> {
    seq(|alerts|, i requires 0 <= i < |alerts| => ConvertAlert(alerts[i]))
  }

  // ----- Transforms -----

  predicate KnownType(t: TxType) {
    t == "alerts" || t == "errors" || t == "V" || t == CONNECTIVITY
  }

  /** What applyProtoRecordTransforms makes of a message; the claimed VIN is always overwritten. */
  function Transformed(lib: Library, version: string, vin: string, m: Proto): Proto {
    match m
    case VehicleAlerts(_, alerts) => VehicleAlerts(vin, ConvertAlerts(alerts))
    case VehicleErrors(_, errors) => VehicleErrors(vin, errors)
    case Payload(_, data) => Payload(vin, AebPass(version, ScientificPass(lib, LocationPass(lib, data))))
    case VehicleConnectivity(_, id) => VehicleConnectivity(vin, id)
  }

  function SignalsCount(m: Option<Proto>): nat {
    match m
    case Some(Payload(_, data)) => |data|
    case Some(VehicleAlerts(_, alerts)) => |alerts|
    case Some(VehicleErrors(_, errors)) => |errors|
    case _ => 0
  }

  /** Transforms neither add nor drop signals, so billing sees what the vehicle sent. */
  lemma TransformsKeepSignals(lib: Library, version: string, vin: string, m: Proto)
    ensures SignalsCount(Some(Transformed(lib, version, vin, m))) == SignalsCount(Some(m))
    ensures SignalsCount(Some(Transformed(lib, version, vin, m))) ==
            match m
            case Payload(_, data) => |data|
            case VehicleAlerts(_, alerts) => |alerts|
            case VehicleErrors(_, errors) => |errors|
            case VehicleConnectivity(_, _) => 0
    ensures SignalsCount(None) == 0
  {
    if m.Payload? { LocationPassLength(lib, m.data); }
  }

  /**
   * What a message becomes, part by part: always the connection's VIN, the same errors and
   * connection id, alerts with their instants kept, and data each changed by one pass at most.
   */
  lemma MessageBecomes(lib: Library, version: string, vin: string, m: Proto)
    ensures
      var m' := Transformed(lib, version, vin, m);
      && m'.vin == vin
      && (m.VehicleErrors? ==> m'.VehicleErrors? && m'.errors == m.errors)
      && (m.VehicleConnectivity? ==> m'.VehicleConnectivity? && m'.connectionId == m.connectionId)
      && (m.VehicleAlerts? ==>
            && m'.VehicleAlerts? && |m'.alerts| == |m.alerts|
            && forall i :: 0 <= i < |m.alerts| ==>
                 && m'.alerts[i].name == m.alerts[i].name
                 && m'.alerts[i].startedAt == ConvertTimestamp(m.alerts[i].startedAt)
                 && m'.alerts[i].endedAt == ConvertTimestamp(m.alerts[i].endedAt))
      && (m.Payload? ==>
            && m'.Payload? && |m'.data| == |m.data|
            && forall i :: 0 <= i < |m.data| ==>
                 && m'.data[i].key == m.data[i].key
                 && Passed(lib, version, m.data[i], IsTheLocation(m.data, i), m'.data[i].value))
  {
    if m.Payload? {
      LocationPassLength(lib, m.data);
      forall i | 0 <= i < |m.data|
        ensures
          var data' := AebPass(version, ScientificPass(lib, LocationPass(lib, m.data)));
          && |data'| == |m.data|
          && data'[i].key == m.data[i].key
          && Passed(lib, version, m.data[i], IsTheLocation(m.data, i), data'[i].value)
      {
        PassesTogether(lib, version, m.data, i);
      }
    }
  }

  // ----- Records -----

  class Record {
    var socketId: string
    var txType: TxType
    var txid: Bytes
    var vin: string
    var deviceClientVersion: string
    var payloadBytes: Bytes
    var rawBytes: Flatbuffers.Wire
    var protoMessage: Option<Proto>

    constructor (socketId: string, rawBytes: Flatbuffers.Wire)
      ensures this.socketId == socketId && this.rawBytes == rawBytes
      ensures txType == "" && txid == "" && vin == "" && deviceClientVersion == "" && payloadBytes == ""
      ensures protoMessage == None
    {
      this.socketId, this.rawBytes := socketId, rawBytes;
      txType, txid, vin, deviceClientVersion, payloadBytes, protoMessage := "", "", "", "", "", None;
    }
  }

  class BinarySerializer {
    const identity: RequestIdentity
    const rules: set<TxType>
    const lib: Library
    const codec: Codec
    var vinMismatchLogged: bool
    var vinWarnings: nat

    constructor (identity: RequestIdentity, rules: set<TxType>, lib: Library, codec: Codec)
      ensures this.identity == identity && this.rules == rules && this.lib == lib && this.codec == codec
      ensures Valid() && vinWarnings == 0
    {
      this.identity, this.rules, this.lib, this.codec := identity, rules, lib, codec;
      vinMismatchLogged, vinWarnings := false, 0;
    }

    /** At most one VIN warning so far, and the flag knows about it. */
    ghost predicate Valid()
      reads this
    {
      vinWarnings == if vinMismatchLogged then 1 else 0
    }

    /** CompareAndSwap(false, true). */
    method ShouldLogVinMismatch() returns (first: bool)
      modifies `vinMismatchLogged
      ensures first == !old(vinMismatchLogged) && vinMismatchLogged
    {
      first := !vinMismatchLogged;
      vinMismatchLogged := true;
    }

    method LogVinMismatch(claimedVin: string)
      requires Valid()
      modifies `vinMismatchLogged, `vinWarnings
      ensures Valid()
      ensures vinWarnings - old(vinWarnings) ==
              if claimedVin != "" && claimedVin != identity.deviceID && !old(vinMismatchLogged) then 1 else 0
    {
      if claimedVin == "" || claimedVin == identity.deviceID { return; }
      var first := ShouldLogVinMismatch();
      if !first { return; }
      vinWarnings := vinWarnings + 1;
    }

    /** The message may come from this connection: its topic has a rule, or its sender matches. */
    predicate Accepts(m: Flatbuffers.Stream) {
      m.topic in rules || m.senderId == identity.senderID || m.senderId == identity.deviceID
    }

    method Deserialize(wire: Flatbuffers.Wire, socketId: string, now: int)
      returns (record: Record, err: Option<RecordError>)
      ensures fresh(record) && record.socketId == socketId
      ensures err == None <==>
              && Flatbuffers.Decode(wire).Ok?
              && var m := Flatbuffers.Decode(wire).value;
                 m.topic in rules || m.senderId == identity.senderID || m.senderId == identity.deviceID
      ensures match Flatbuffers.Decode(wire)
              case Ok(m) => err == if Accepts(m) then None else Some(SenderMismatch)
              case Err(OtherType(n)) => err == Some(UnknownMessageType(record.txid, n))
              case Err(Garbled) => err == Some(Recovered)
              case Err(_) => err == Some(UnknownMessageType("", 0))
      ensures err.Some? && err.value.UnknownMessageType? ==> record.txType == "" && record.payloadBytes == ""
      ensures record.protoMessage == None
      ensures Flatbuffers.Decode(wire).Ok? ==>
                var m := Flatbuffers.Decode(wire).value;
                && record.txType == m.topic && record.txid == m.txid && record.payloadBytes == m.payload
                && record.vin == identity.deviceID && record.deviceClientVersion == identity.deviceClientVersion
                && Flatbuffers.Decode(record.rawBytes) == Flatbuffers.Decode(wire).(
                     value := m.(deliveredAtEpochMs := StreamMessages.EpochMs(now)))
    {
      record := new Record(socketId, wire);
      var message := StreamMessages.StreamMessageFromBytes(wire);
      if message.Err? {
        var failure := ErrorOf(record, wire, message.error);
        return record, Some(failure);
      }
      var m := message.value;
      ghost var sent := m.fields;
      FillFrom(record, m, now);
      assert m.fields.topic == sent.topic && m.fields.senderId == sent.senderId;
      if m.fields.topic in rules { return record, None; }
      if m.fields.senderId != identity.senderID && m.fields.senderId != identity.deviceID {
        return record, Some(SenderMismatch);
      }
      return record, None;
    }

    /** The record takes its fields from the message and the connection; the message is stamped. */
    method FillFrom(record: Record, m: StreamMessages.StreamMessage, now: int)
      requires m.Coherent()
      modifies m, record`rawBytes, record`txType, record`txid, record`vin, record`payloadBytes,
               record`deviceClientVersion
      ensures
        var sent := old(m.fields);
        var stamped := sent.(deliveredAtEpochMs := StreamMessages.EpochMs(now));
        && m.fields == stamped
        && Flatbuffers.Decode(record.rawBytes) == Ok(stamped)
        && record.txType == sent.topic && record.txid == sent.txid && record.payloadBytes == sent.payload
        && record.vin == identity.deviceID && record.deviceClientVersion == identity.deviceClientVersion
    {
      m.SetDeliveredAt(now);
      record.rawBytes := m.ToBytes();
      record.txType := m.fields.topic;
      record.txid := m.fields.txid;
      record.vin := identity.deviceID;
      record.payloadBytes := m.fields.payload;
      record.deviceClientVersion := identity.deviceClientVersion;
    }

    /** What becomes of a message that does not decode. */
    method ErrorOf(record: Record, wire: Flatbuffers.Wire, error: Flatbuffers.DecodeError) returns (err: RecordError)
      requires Flatbuffers.Decode(wire) == Err(error)
      modifies record`txid
      ensures match error
              case OtherType(n) => err == UnknownMessageType(record.txid, n)
              case Garbled => err == Recovered
              case _ => err == UnknownMessageType("", 0)
    {
      // A garbled buffer makes a read panic; the deferred recover turns it into a plain error.
      if error.Garbled? { return Recovered; }
      err := GuessError(record, wire);
    }

    method GuessError(record: Record, wire: Flatbuffers.Wire) returns (err: RecordError)
      modifies record`txid
      ensures match Flatbuffers.Decode(wire)
              case Err(OtherType(n)) => err == UnknownMessageType(record.txid, n)
              case Err(EmptyMessage) => err == UnknownMessageType("", 0)
              case Err(NoUnion) => err == UnknownMessageType("", 0)
              case _ => true
    {
      var tables := Flatbuffers.FlatbuffersEnvelopeFromBytes(wire);
      if tables.Err? { return UnknownMessageType("", 0); }
      var txid, guessed := Flatbuffers.TxidBytes(tables.value.0), Flatbuffers.MessageType(tables.value.0);
      if txid.Err? || guessed.Err? { return Recovered; }
      record.txid := txid.value;
      return UnknownMessageType(record.txid, guessed.value);
    }

    /** What a payload of a known type becomes on this connection. */
    function Overwritten(sent: Proto): Proto {
      Transformed(lib, identity.deviceClientVersion, identity.deviceID, sent)
    }

    /** The payload can be decoded if its type is known, and what it becomes can be encoded. */
    predicate Encodable(t: TxType, payload: Bytes, transmitDecoded: bool) {
      if KnownType(t) then
        var sent := codec.unmarshal(t, payload);
        && sent.Some?
        && codec.marshal(Overwritten(sent.value)).Some?
        && (transmitDecoded ==> codec.json(Some(Overwritten(sent.value))).Some?)
      else transmitDecoded ==> codec.json(None).Some?
    }

    /** A connectivity payload that claims another vehicle's VIN. */
    predicate ClaimsForeignVin(t: TxType, payload: Bytes) {
      && t == CONNECTIVITY
      && codec.unmarshal(t, payload).Some?
      && codec.unmarshal(t, payload).value.vin !in {"", identity.deviceID}
    }

    method ApplyRecordTransforms(record: Record, transmitDecoded: bool) returns (ok: bool)
      requires Valid() && record.vin == identity.deviceID && record.protoMessage == None
      requires record.deviceClientVersion == identity.deviceClientVersion
      modifies record`payloadBytes, record`protoMessage, this`vinMismatchLogged, this`vinWarnings
      ensures Valid()
      ensures vinWarnings - old(vinWarnings) ==
              if ClaimsForeignVin(record.txType, old(record.payloadBytes)) && !old(vinMismatchLogged) then 1 else 0
      ensures ok <==> Encodable(record.txType, old(record.payloadBytes), transmitDecoded)
      ensures ok && KnownType(record.txType) ==>
                var sent := codec.unmarshal(record.txType, old(record.payloadBytes));
                && record.protoMessage == Some(Overwritten(sent.value))
                && Some(record.payloadBytes)
                   == if transmitDecoded then codec.json(record.protoMessage)
                      else codec.marshal(record.protoMessage.value)
      ensures ok && !KnownType(record.txType) ==>
                && record.protoMessage == None
                && (if transmitDecoded then Some(record.payloadBytes) == codec.json(None)
                    else record.payloadBytes == old(record.payloadBytes))
    {
      if KnownType(record.txType) {
        var sent := codec.unmarshal(record.txType, record.payloadBytes);
        if sent.None? { return false; }
        if record.txType == CONNECTIVITY { LogVinMismatch(sent.value.vin); }
        var message := Transform(record, sent.value);
        record.protoMessage := Some(message);
        var encoded := codec.marshal(message);
        if encoded.None? { return false; }
        record.payloadBytes := encoded.value;
      }
      if !transmitDecoded { return true; }
      var decoded := codec.json(record.protoMessage);
      if decoded.None? { return false; }
      record.payloadBytes := decoded.value;
      return true;
    }

    /** The three payload passes run in place over the message's data. */
    method Transform(record: Record, m: Proto) returns (r: Proto)
      ensures r == Transformed(lib, record.deviceClientVersion, record.vin, m)
    {
      match m {
        case Payload(_, sent) =>
          var data := new Datum[|sent|](i requires 0 <= i < |sent| => sent[i]);
          assert data[..] == sent;
          TransformLocation(lib, data);
          TransformScientificNotation(lib, data);
          TransformLegacyAutomaticEmergencyBraking(data, record.deviceClientVersion);
          return Payload(record.vin, data[..]);
        case VehicleAlerts(_, alerts) => return VehicleAlerts(record.vin, ConvertAlerts(alerts));
        case VehicleErrors(_, errors) => return VehicleErrors(record.vin, errors);
        case VehicleConnectivity(_, id) => return VehicleConnectivity(record.vin, id);
      }
    }

    /** NewRecord: `size` is the length of the message in bytes. */
    method NewRecord(wire: Flatbuffers.Wire, size: nat, socketId: string, transmitDecoded: bool, now: int)
      returns (record: Record, err: Option<RecordError>)
      requires Valid()
      modifies `vinMismatchLogged, `vinWarnings
      ensures fresh(record) && Valid() && vinWarnings >= old(vinWarnings)
      ensures size <= 1000000 ==> record.socketId == socketId
      ensures err == Some(MessageTooBig) <==> size > 1000000
      ensures err == None <==>
              && size <= 1000000
              && Flatbuffers.Decode(wire).Ok?
              && var m := Flatbuffers.Decode(wire).value;
                 && (m.topic in rules || m.senderId == identity.senderID || m.senderId == identity.deviceID)
                 && Encodable(m.topic, m.payload, transmitDecoded)
      ensures OutcomeOf(err) ==
              if size > 1000000 then TooBig
              else match Flatbuffers.Decode(wire)
                case Err(Garbled) => OtherError
                case Err(_) => UnknownType
                case Ok(m) => if err == None then Parsed else OtherError
      ensures OutcomeOf(err).TooBig? || OutcomeOf(err).UnknownType? ==> record.txType == "" && record.payloadBytes == ""
      ensures err == None ==>
                && record.txType == Flatbuffers.Decode(wire).value.topic
                && record.vin == identity.deviceID
      ensures err == None && record.txType in {"alerts", "errors", "V", "connectivity"} ==>
                var sent := codec.unmarshal(record.txType, Flatbuffers.Decode(wire).value.payload);
                && sent.Some?
                && record.protoMessage
                   == Some(Transformed(lib, identity.deviceClientVersion, identity.deviceID, sent.value))
                && record.protoMessage.value.vin == identity.deviceID
                && Some(record.payloadBytes)
                   == if transmitDecoded then codec.json(record.protoMessage)
                      else codec.marshal(record.protoMessage.value)
      ensures err == None && record.txType !in {"alerts", "errors", "V", "connectivity"} ==>
                && record.protoMessage == None
                && Some(record.payloadBytes)
                   == if transmitDecoded then codec.json(None) else Some(Flatbuffers.Decode(wire).value.payload)
    {
      if size > SIZE_LIMIT {
        record := new Record("", Flatbuffers.Empty);
        return record, Some(MessageTooBig);
      }
      record, err := Deserialize(wire, socketId, now);
      if err.Some? { return; }
      var ok := ApplyRecordTransforms(record, transmitDecoded);
      if !ok { err := Some(TransformFailed); }
    }
  }
}
