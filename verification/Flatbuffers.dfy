/**
 * The stream envelope as FlatBuffers tables (messages/tesla). A buffer is its objects:
 * byte vectors and tables. A table is its vtable, one entry per slot, with absent slots
 * for elided defaults and trailing absent slots trimmed; a vtable entry is found at byte
 * offset 4 + 2 * slot. Positions count objects from 1, so no reference is ever zero.
 */
module Flatbuffers {
  import opened Wrappers

  /** Byte strings; a Go string is one. */
  type Bytes = string
  type uint8 = n: nat | n < 0x100
  type uint32 = n: nat | n < 0x1_0000_0000
  type uint64 = n: nat | n < 0x1_0000_0000_0000_0000

  const MESSAGE_FLATBUFFERS_STREAM: uint8 := 4
  const MESSAGE_FLATBUFFERS_STREAM_ACK: uint8 := 5

  datatype Field = Scalar(n: nat) | Ref(pos: nat)

  datatype Object = Vector(bytes: Bytes) | Table(vtable: seq<Option<Field>>)

  /** A received message: nothing at all, or objects with a root. */
  datatype Wire = Empty | Buffer(objects: seq<Object>, root: nat)

  /** Garbled: a read goes out of the buffer or finds an object of another kind. */
  datatype DecodeError = EmptyMessage | NoUnion | OtherType(messageType: nat) | Garbled

  /** All fields of a stream message and its envelope. */
  datatype Stream = Stream(
    senderId: Bytes,
    topic: Bytes,
    txid: Bytes,
    payload: Bytes,
    createdAt: uint32,
    messageId: Bytes,
    deviceType: Bytes,
    deviceId: Bytes,
    deliveredAtEpochMs: uint64)

  // ----- The builder -----

  function Trimmed(slots: seq<Option<Field>>): seq<Option<Field>> {
    if slots != [] && slots[|slots| - 1] == None then Trimmed(slots[..|slots| - 1]) else slots
  }

  /** Trimming only drops absent slots at the end. */
  lemma {:induction false} TrimmedAt(slots: seq<Option<Field>>, slot: nat)
    requires slot < |slots|
    ensures slots[slot] == if slot < |Trimmed(slots)| then Trimmed(slots)[slot] else None
  {
    var n := |slots| - 1;
    if slots[n] == None {
      if slot < n { TrimmedAt(slots[..n], slot); } else { TrimmedShorter(slots[..n]); }
    }
  }

  lemma TrimmedShorter(slots: seq<Option<Field>>)
    ensures |Trimmed(slots)| <= |slots|
  {
  }

  class Builder {
    var objects: seq<Object>
    var slots: seq<Option<Field>>

    constructor ()
      ensures objects == [] && slots == []
    {
      objects, slots := [], [];
    }

    method CreateByteString(bytes: Bytes) returns (pos: nat)
      modifies `objects
      ensures objects == old(objects) + [Vector(bytes)] && pos == |objects|
    {
      objects := objects + [Vector(bytes)];
      pos := |objects|;
    }

    method StartObject(numFields: nat)
      modifies `slots
      ensures |slots| == numFields && forall i :: 0 <= i < numFields ==> slots[i] == None
    {
      slots := seq(numFields, i => None);
    }

    /** PrependByteSlot, PrependUint32Slot and PrependUint64Slot: the default is not stored. */
    method PrependScalarSlot(slot: nat, n: nat, default: nat)
      requires slot < |slots|
      modifies `slots
      ensures slots == if n != default then old(slots)[slot := Some(Scalar(n))] else old(slots)
    {
      if n != default { slots := slots[slot := Some(Scalar(n))]; }
    }

    method PrependUOffsetTSlot(slot: nat, pos: nat, default: nat)
      requires slot < |slots|
      modifies `slots
      ensures slots == if pos != default then old(slots)[slot := Some(Ref(pos))] else old(slots)
    {
      if pos != default { slots := slots[slot := Some(Ref(pos))]; }
    }

    method EndObject() returns (pos: nat)
      modifies `objects
      ensures objects == old(objects) + [Table(Trimmed(slots))] && pos == |objects|
    {
      objects := objects + [Table(Trimmed(slots))];
      pos := |objects|;
    }
  }

  // ----- Reading a table -----

  /** A table of a buffer: `pos` is the position the accessors read from. */
  datatype Tab = Tab(objects: seq<Object>, pos: nat)

  /** Table.Offset: the field whose vtable entry is at `vtableOffset`, if it is present. */
  function Offset(t: Tab, vtableOffset: nat): Result<Option<Field>, DecodeError>
    requires vtableOffset >= 4
  {
    if 0 < t.pos <= |t.objects| && t.objects[t.pos - 1].Table? then
      var vtable := t.objects[t.pos - 1].vtable;
      var slot := (vtableOffset - 4) / 2;
      Ok(if slot < |vtable| then vtable[slot] else None)
    else Err(Garbled)
  }

  /** An absent vector reads as no bytes. */
  function ByteVector(t: Tab, vtableOffset: nat): Result<Bytes, DecodeError>
    requires vtableOffset >= 4
  {
    var o :- Offset(t, vtableOffset);
    match o
    case None => Ok([])
    case Some(Ref(p)) =>
      if 0 < p <= |t.objects| && t.objects[p - 1].Vector? then Ok(t.objects[p - 1].bytes) else Err(Garbled)
    case Some(Scalar(_)) => Err(Garbled)
  }

  /** An absent scalar reads as zero; what is read has the width of the accessor. */
  function ScalarAt(t: Tab, vtableOffset: nat, bound: nat): (r: Result<nat, DecodeError>)
    requires vtableOffset >= 4 && bound > 0
    ensures r.Ok? ==> r.value < bound
  {
    var o :- Offset(t, vtableOffset);
    match o
    case None => Ok(0)
    case Some(Scalar(n)) => if n < bound then Ok(n) else Err(Garbled)
    case Some(Ref(_)) => Err(Garbled)
  }

  // ----- FlatbuffersStream -----

  function CreatedAt(t: Tab): Result<nat, DecodeError> { ScalarAt(t, 4, 0x1_0000_0000) }
  function SenderIdBytes(t: Tab): Result<Bytes, DecodeError> { ByteVector(t, 6) }
  function PayloadBytes(t: Tab): Result<Bytes, DecodeError> { ByteVector(t, 8) }
  function DeviceTypeBytes(t: Tab): Result<Bytes, DecodeError> { ByteVector(t, 10) }
  function DeviceIdBytes(t: Tab): Result<Bytes, DecodeError> { ByteVector(t, 12) }
  function DeliveredAtEpochMs(t: Tab): Result<nat, DecodeError> { ScalarAt(t, 14, 0x1_0000_0000_0000_0000) }

  // ----- FlatbuffersEnvelope -----

  function TxidBytes(t: Tab): Result<Bytes, DecodeError> { ByteVector(t, 4) }
  function TopicBytes(t: Tab): Result<Bytes, DecodeError> { ByteVector(t, 6) }
  function MessageType(t: Tab): Result<nat, DecodeError> { ScalarAt(t, 8, 0x100) }
  function MessageIdBytes(t: Tab): Result<Bytes, DecodeError> { ByteVector(t, 12) }

  /** The union table, if the envelope has one. */
  function Message(t: Tab): Result<Option<Tab>, DecodeError> {
    var o :- Offset(t, 10);
    match o
    case None => Ok(None)
    case Some(Ref(p)) => Ok(Some(Tab(t.objects, p)))
    case Some(Scalar(_)) => Err(Garbled)
  }

  function FlatbuffersEnvelopeFromBytes(wire: Wire): Result<(Tab, Tab), DecodeError> {
    if wire.Empty? then Err(EmptyMessage)
    else
      var envelope := Tab(wire.objects, wire.root);
      var union :- Message(envelope);
      match union
      case None => Err(NoUnion)
      case Some(table) => Ok((envelope, table))
  }

  /** What the two tables of a stream message say, field by field. */
  function Fields(envelope: Tab, fsm: Tab): Result<Stream, DecodeError> {
    var topic :- TopicBytes(envelope);
    var txid :- TxidBytes(envelope);
    var senderId :- SenderIdBytes(fsm);
    var deviceType :- DeviceTypeBytes(fsm);
    var deviceId :- DeviceIdBytes(fsm);
    var deliveredAt :- DeliveredAtEpochMs(fsm);
    var createdAt :- CreatedAt(fsm);
    var payload :- PayloadBytes(fsm);
    var messageId :- MessageIdBytes(envelope);
    Ok(Stream(senderId, topic, txid, payload, createdAt, messageId, deviceType, deviceId, deliveredAt))
  }

  /** StreamMessageFromBytes, as far as its result can be seen. */
  function Decode(wire: Wire): Result<Stream, DecodeError> {
    var tables :- FlatbuffersEnvelopeFromBytes(wire);
    var messageType :- MessageType(tables.0);
    if messageType != MESSAGE_FLATBUFFERS_STREAM then
      // The error message quotes txid and topic.
      var txid :- TxidBytes(tables.0);
      var topic :- TopicBytes(tables.0);
      Err(OtherType(messageType))
    else Fields(tables.0, tables.1)
  }

  // ----- Writing -----

  /** The slots FlatbuffersStreamToBytes fills, given where its vectors are. */
  function StreamSlots(m: Stream, senderId: nat, payload: nat, deviceType: nat, deviceId: nat): seq<Option<Field>> {
    [if m.createdAt != 0 then Some(Scalar(m.createdAt)) else None, Some(Ref(senderId)), Some(Ref(payload)),
     Some(Ref(deviceType)), Some(Ref(deviceId)),
     if m.deliveredAtEpochMs != 0 then Some(Scalar(m.deliveredAtEpochMs)) else None]
  }

  /** The slots FlatbuffersEnvelopeToBytes fills; a zero message type or message is not stored. */
  function EnvelopeSlots(txid: nat, topic: nat, msgType: uint8, msg: nat, messageId: nat): seq<Option<Field>> {
    [Some(Ref(txid)), Some(Ref(topic)), if msgType != 0 then Some(Scalar(msgType)) else None,
     if msg != 0 then Some(Ref(msg)) else None, Some(Ref(messageId))]
  }

  method FlatbuffersEnvelopeToBytes(b: Builder, txid: Bytes, topic: Bytes, msg: nat, messageId: Bytes, msgType: uint8)
    returns (wire: Wire)
    modifies b
    ensures
      var n := |old(b.objects)|;
      wire == Buffer(old(b.objects) + [Vector(txid), Vector(topic), Vector(messageId),
                                       Table(EnvelopeSlots(n + 1, n + 2, msgType, msg, n + 3))],
                     n + 4)
  {
    var txidVector := b.CreateByteString(txid);
    var topicVector := b.CreateByteString(topic);
    var messageIdVector := b.CreateByteString(messageId);
    b.StartObject(5);
    b.PrependUOffsetTSlot(0, txidVector, 0);
    b.PrependUOffsetTSlot(1, topicVector, 0);
    b.PrependScalarSlot(2, msgType, 0);
    b.PrependUOffsetTSlot(3, msg, 0);
    b.PrependUOffsetTSlot(4, messageIdVector, 0);
    assert b.slots == EnvelopeSlots(txidVector, topicVector, msgType, msg, messageIdVector);
    var root := b.EndObject();
    wire := Buffer(b.objects, root);
  }

  /** The stream table with its vectors, in an empty builder. */
  method AddStream(b: Builder, m: Stream) returns (message: nat)
    requires b.objects == []
    modifies b
    ensures message == 5
    ensures b.objects == [Vector(m.senderId), Vector(m.payload), Vector(m.deviceType), Vector(m.deviceId),
                          Table(Trimmed(StreamSlots(m, 1, 2, 3, 4)))]
  {
    var senderId := b.CreateByteString(m.senderId);
    var payload := b.CreateByteString(m.payload);
    var deviceType := b.CreateByteString(m.deviceType);
    var deviceId := b.CreateByteString(m.deviceId);
    b.StartObject(6);
    b.PrependUOffsetTSlot(1, senderId, 0);
    b.PrependScalarSlot(0, m.createdAt, 0);
    b.PrependUOffsetTSlot(2, payload, 0);
    b.PrependUOffsetTSlot(3, deviceType, 0);
    b.PrependUOffsetTSlot(4, deviceId, 0);
    b.PrependScalarSlot(5, m.deliveredAtEpochMs, 0);
    assert b.slots == StreamSlots(m, 1, 2, 3, 4);
    message := b.EndObject();
  }

  /** Every field comes back, zero scalars and empty byte strings included. */
  method FlatbuffersStreamToBytes(m: Stream) returns (wire: Wire)
    ensures Decode(wire) == Ok(m)
    // The layout on the wire, slot by slot:
    ensures wire.Buffer? && wire.root == 9 && |wire.objects| == 9
    ensures wire.objects[8] ==
            Table([Some(Ref(6)), Some(Ref(7)), Some(Scalar(4)), Some(Ref(5)), Some(Ref(8))])
    ensures wire.objects[5] == Vector(m.txid) && wire.objects[6] == Vector(m.topic)
    ensures wire.objects[7] == Vector(m.messageId)
    ensures wire.objects[4].Table?
    ensures
      var stream := wire.objects[4].vtable;
      && 5 <= |stream| <= 6
      && stream[0] == (if m.createdAt == 0 then None else Some(Scalar(m.createdAt)))
      && stream[1] == Some(Ref(1)) && stream[2] == Some(Ref(2))
      && stream[3] == Some(Ref(3)) && stream[4] == Some(Ref(4))
      && (if m.deliveredAtEpochMs == 0 then |stream| == 5
          else |stream| == 6 && stream[5] == Some(Scalar(m.deliveredAtEpochMs)))
    ensures wire.objects[0] == Vector(m.senderId) && wire.objects[1] == Vector(m.payload)
    ensures wire.objects[2] == Vector(m.deviceType) && wire.objects[3] == Vector(m.deviceId)
  {
    var b := new Builder();
    var message := AddStream(b, m);
    wire := FlatbuffersEnvelopeToBytes(b, m.txid, m.topic, message, m.messageId, MESSAGE_FLATBUFFERS_STREAM);
    LayoutDecodes(m, wire.objects);
    StreamTrimmed(m);
  }

  /** Only an absent last slot is trimmed. */
  lemma StreamTrimmed(m: Stream)
    ensures
      var slots := StreamSlots(m, 1, 2, 3, 4);
      Trimmed(slots) == if m.deliveredAtEpochMs == 0 then slots[..5] else slots
  {
    var slots := StreamSlots(m, 1, 2, 3, 4);
    assert slots[..5][4] == Some(Ref(4));
  }

  /** The layout FlatbuffersStreamToBytes produces, read back by the accessors. */
  lemma LayoutDecodes(m: Stream, objects: seq<Object>)
    requires objects ==
             [Vector(m.senderId), Vector(m.payload), Vector(m.deviceType), Vector(m.deviceId),
              Table(Trimmed(StreamSlots(m, 1, 2, 3, 4))), Vector(m.txid), Vector(m.topic), Vector(m.messageId),
              Table([Some(Ref(6)), Some(Ref(7)), Some(Scalar(MESSAGE_FLATBUFFERS_STREAM)), Some(Ref(5)), Some(Ref(8))])]
    ensures Decode(Buffer(objects, 9)) == Ok(m)
  {
    var slots := StreamSlots(m, 1, 2, 3, 4);
    var fsm := Tab(objects, 5);
    TrimmedReadsTheSame(fsm, slots, 0);
    TrimmedReadsTheSame(fsm, slots, 1);
    TrimmedReadsTheSame(fsm, slots, 2);
    TrimmedReadsTheSame(fsm, slots, 3);
    TrimmedReadsTheSame(fsm, slots, 4);
    TrimmedReadsTheSame(fsm, slots, 5);
    assert CreatedAt(fsm) == Ok(m.createdAt);
    assert DeliveredAtEpochMs(fsm) == Ok(m.deliveredAtEpochMs);
  }

  /** Messages that are no stream messages are refused, and say what they are. */
  lemma OthersAreRefused(objects: seq<Object>, txid: Bytes, topic: Bytes, messageId: Bytes, msgType: uint8, msg: nat)
    ensures Decode(Empty) == Err(EmptyMessage)
    ensures
      var n := |objects|;
      var wire := Buffer(objects + [Vector(txid), Vector(topic), Vector(messageId),
                                    Table(EnvelopeSlots(n + 1, n + 2, msgType, msg, n + 3))], n + 4);
      && (msg == 0 ==> Decode(wire) == Err(NoUnion))
      && (msg != 0 && msgType != 4 ==> Decode(wire) == Err(OtherType(msgType)))
  {
    var n := |objects|;
    var all := objects + [Vector(txid), Vector(topic), Vector(messageId),
                          Table(EnvelopeSlots(n + 1, n + 2, msgType, msg, n + 3))];
    assert all[n] == Vector(txid) && all[n + 1] == Vector(topic);
    assert all[n + 3] == Table(EnvelopeSlots(n + 1, n + 2, msgType, msg, n + 3));
    EnvelopeReads(Tab(all, n + 4), n + 1, n + 2, msgType, msg, n + 3);
  }

  lemma EnvelopeReads(t: Tab, txid: nat, topic: nat, msgType: uint8, msg: nat, messageId: nat)
    requires 0 < t.pos <= |t.objects|
    requires t.objects[t.pos - 1] == Table(EnvelopeSlots(txid, topic, msgType, msg, messageId))
    ensures Offset(t, 4) == Ok(Some(Ref(txid))) && Offset(t, 6) == Ok(Some(Ref(topic)))
    ensures MessageType(t) == Ok(msgType)
    ensures Message(t) == Ok(if msg == 0 then None else Some(Tab(t.objects, msg)))
  {
  }

  /** Trimming a vtable changes no read. */
  lemma TrimmedReadsTheSame(t: Tab, slots: seq<Option<Field>>, slot: nat)
    requires 0 < t.pos <= |t.objects| && t.objects[t.pos - 1] == Table(Trimmed(slots)) && slot < |slots|
    ensures Offset(t, 4 + 2 * slot) == Ok(slots[slot])
  {
    TrimmedAt(slots, slot);
  }
}
