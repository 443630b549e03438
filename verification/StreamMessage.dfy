/** The stream message object with its cached decoded form (messages/stream_message.go). */
module StreamMessages {
  import opened Wrappers
  import opened Flatbuffers
  import Identity

  /** uint64(t.UnixNano() / 1e6): truncated division, then wrapped to 64 bits. */
  function EpochMs(unixNano: int): uint64 {
    (if unixNano >= 0 then unixNano / 1_000_000 else -(-unixNano / 1_000_000)) % 0x1_0000_0000_0000_0000
  }

  /** Full milliseconds since the epoch; an instant before it wraps around, as in Go. */
  lemma EpochMsIs(unixNano: int)
    ensures 0 <= unixNano < 0x1_0000_0000_0000_0000 ==>
              EpochMs(unixNano) * 1000000 <= unixNano < (EpochMs(unixNano) + 1) * 1000000
    ensures -1000000 < unixNano < 0 ==> EpochMs(unixNano) == 0
    ensures -0x1_0000_0000_0000_0000 < unixNano <= -1000000 ==>
              var before := 0x1_0000_0000_0000_0000 - EpochMs(unixNano);
              before * 1000000 <= -unixNano < (before + 1) * 1000000
  {
    if 0 <= unixNano < 0x1_0000_0000_0000_0000 {
      QuotientIs(unixNano);
    } else if -0x1_0000_0000_0000_0000 < unixNano < 0 {
      QuotientIs(-unixNano);
    }
  }

  lemma QuotientIs(n: nat)
    requires n <= 0x1_0000_0000_0000_0000
    ensures n / 1_000_000 * 1_000_000 <= n < (n / 1_000_000 + 1) * 1_000_000
    ensures n / 1_000_000 < 0x1_0000_0000_0000_0000
  {
  }

  /** The setters, on the visible fields. */
  datatype SetOp =
    | SetSenderID(senderId: Bytes)
    | SetIdentity(deviceType: Bytes, deviceId: Bytes)
    | SetMessageID(messageId: Bytes)
    | SetDeliveredAt(unixNano: int)

  function Apply(m: Stream, op: SetOp): Stream {
    match op
    case SetSenderID(id) =>
      var parts := Identity.ParseSenderID(id);
      m.(senderId := id, deviceType := parts.0, deviceId := parts.1)
    case SetIdentity(t, d) => m.(deviceType := t, deviceId := d, senderId := Identity.BuildClientID(t, d))
    case SetMessageID(id) => m.(messageId := id)
    case SetDeliveredAt(at) => m.(deliveredAtEpochMs := EpochMs(at))
  }

  class StreamMessage {
    var fsm: Option<Tab>
    var envelope: Option<Tab>
    var fields: Stream

    /** A non-nil cache agrees with every visible field. */
    ghost predicate Coherent()
      reads this
    {
      fsm.Some? ==> envelope.Some? && Fields(envelope.value, fsm.value) == Ok(fields)
    }

    /** A message built from its fields, with nothing cached. */
    constructor (fields: Stream)
      ensures Coherent() && this.fields == fields
    {
      this.fields, fsm, envelope := fields, None, None;
    }

    constructor Decoded(envelope: Tab, fsm: Tab, fields: Stream)
      requires Fields(envelope, fsm) == Ok(fields)
      ensures Coherent() && this.fields == fields && this.fsm == Some(fsm)
    {
      this.envelope, this.fsm, this.fields := Some(envelope), Some(fsm), fields;
    }

    /** Both branches encode the current fields. */
    method ToBytes() returns (wire: Wire)
      requires Coherent()
      ensures Decode(wire) == Ok(fields)
    {
      if fsm.None? {
        wire := FlatbuffersStreamToBytes(fields);
      } else {
        wire := TablesToBytes(envelope.value, fsm.value);
      }
    }

    method SetSenderID(senderId: Bytes)
      modifies this
      ensures Coherent() && fields == Apply(old(fields), SetOp.SetSenderID(senderId))
      ensures fields == old(fields).(senderId := senderId, deviceType := fields.deviceType, deviceId := fields.deviceId)
      ensures '.' !in fields.deviceType
      ensures senderId == if '.' in senderId then fields.deviceType + "." + fields.deviceId else fields.deviceType
      ensures '.' !in senderId ==> fields.deviceId == ""
    {
      var parts := Identity.ParseSenderID(senderId);
      Identity.BuildParsed(senderId);
      fields := fields.(senderId := senderId);
      fields := fields.(deviceType := parts.0);
      fields := fields.(deviceId := parts.1);
      fsm := None;
    }

    method SetIdentity(deviceType: Bytes, deviceId: Bytes)
      modifies this
      ensures Coherent() && fields == Apply(old(fields), SetOp.SetIdentity(deviceType, deviceId))
      ensures fields == old(fields).(deviceType := deviceType, deviceId := deviceId,
                                     senderId := deviceType + "." + deviceId)
    {
      fields := fields.(deviceType := deviceType);
      fields := fields.(deviceId := deviceId);
      fields := fields.(senderId := Identity.BuildClientID(deviceType, deviceId));
      fsm := None;
    }

    method SetMessageID(messageId: Bytes)
      modifies this
      ensures Coherent() && fields == Apply(old(fields), SetOp.SetMessageID(messageId))
      ensures fields == old(fields).(messageId := messageId)
    {
      fields := fields.(messageId := messageId);
      fsm := None;
    }

    method SetDeliveredAt(unixNano: int)
      modifies this
      ensures Coherent() && fields == Apply(old(fields), SetOp.SetDeliveredAt(unixNano))
      ensures fields == old(fields).(deliveredAtEpochMs := EpochMs(unixNano))
    {
      fields := fields.(deliveredAtEpochMs := EpochMs(unixNano));
      fsm := None;
    }
  }

  /** FlatbuffersStream.ToBytes: every field is read again from the tables. */
  method TablesToBytes(envelope: Tab, fsm: Tab) returns (wire: Wire)
    requires Fields(envelope, fsm).Ok?
    ensures Decode(wire) == Ok(Fields(envelope, fsm).value)
  {
    wire := FlatbuffersStreamToBytes(
      Stream(SenderIdBytes(fsm).value, TopicBytes(envelope).value, TxidBytes(envelope).value, PayloadBytes(fsm).value,
             CreatedAt(fsm).value, MessageIdBytes(envelope).value, DeviceTypeBytes(fsm).value, DeviceIdBytes(fsm).value,
             DeliveredAtEpochMs(fsm).value));
  }

  /** Decoding keeps the tables as cache; a garbled buffer stands for the recovered panic. */
  method StreamMessageFromBytes(wire: Wire) returns (r: Result<StreamMessage, DecodeError>)
    ensures r.Ok? <==> Decode(wire).Ok?
    ensures r.Ok? ==> fresh(r.value) && r.value.Coherent() && r.value.fsm.Some? && Ok(r.value.fields) == Decode(wire)
    ensures r.Err? ==> Decode(wire) == Err(r.error)
  {
    var tables := FlatbuffersEnvelopeFromBytes(wire);
    if tables.Err? { return Err(tables.error); }
    var envelope, union := tables.value.0, tables.value.1;
    var messageType := MessageType(envelope);
    if messageType.Err? { return Err(messageType.error); }
    if messageType.value != MESSAGE_FLATBUFFERS_STREAM {
      if TxidBytes(envelope).Err? { return Err(TxidBytes(envelope).error); }
      if TopicBytes(envelope).Err? { return Err(TopicBytes(envelope).error); }
      return Err(OtherType(messageType.value));
    }
    var fields := Fields(envelope, union);
    if fields.Err? { return Err(fields.error); }
    var m := new StreamMessage.Decoded(envelope, union, fields.value);
    return Ok(m);
  }

  // ----- Any use of a decoded message -----

  function ApplyAll(m: Stream, ops: seq<SetOp>): Stream
    decreases |ops|
  {
    if ops == [] then m else ApplyAll(Apply(m, ops[0]), ops[1..])
  }

  /** Setters called in any order and number keep the cache coherent. */
  method SetAll(m: StreamMessage, ops: seq<SetOp>)
    requires m.Coherent()
    modifies m
    ensures m.Coherent() && m.fields == ApplyAll(old(m.fields), ops)
    decreases |ops|
  {
    if ops == [] { return; }
    match ops[0] {
      case SetSenderID(id) => m.SetSenderID(id);
      case SetIdentity(t, d) => m.SetIdentity(t, d);
      case SetMessageID(id) => m.SetMessageID(id);
      case SetDeliveredAt(at) => m.SetDeliveredAt(at);
    }
    SetAll(m, ops[1..]);
  }

  /** Decode, set, encode: the bytes decode to the current fields, however the message was used. */
  method Rewrite(wire: Wire, ops: seq<SetOp>) returns (r: Result<Wire, DecodeError>)
    ensures r.Ok? <==> Decode(wire).Ok?
    ensures r.Ok? ==> Decode(r.value) == Ok(ApplyAll(Decode(wire).value, ops))
  {
    var message := StreamMessageFromBytes(wire);
    if message.Err? { return Err(message.error); }
    SetAll(message.value, ops);
    var wire' := message.value.ToBytes();
    return Ok(wire');
  }
}
