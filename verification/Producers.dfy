/**
 * The producers that push to the shared ack channel: Kafka, whose delivery reports come
 * back on a channel of their own (datastore/kafka/kafka.go), and NATS, which knows the
 * outcome at once (datastore/nats/nats.go). `pushed` is what a producer has sent on the
 * ack channel, in order.
 */
module Producers {
  import opened Wrappers
  import opened Telemetry
  import opened Connections
  import Identity
  import Protocol

  // ----- Kafka -----

  /** One event of the delivery channel; a message carries its record back, if nobody lost it. */
  datatype Event = ClientError | Report(failed: bool, carried: Option<Record>) | Ignored

  /** The record a report says was stored. */
  function StoredBy(e: Event): Option<Record> {
    if e.Report? && !e.failed then e.carried else None
  }

  predicate IsError(e: Event) {
    e.ClientError? || (e.Report? && StoredBy(e).None?)
  }

  /** The records a run of delivery events lets the producer ack. */
  function Acked(ackTypes: set<TxType>, events: seq<Event>): seq<Record> {
    if events == [] then []
    else
      var n := |events| - 1;
      var r := StoredBy(events[n]);
      Acked(ackTypes, events[..n]) + if r.Some? && r.value.txType in ackTypes then [r.value] else []
  }

  function Errors(events: seq<Event>): nat {
    if events == [] then 0
    else
      var n := |events| - 1;
      Errors(events[..n]) + if IsError(events[n]) then 1 else 0
  }

  class KafkaProducer {
    const ackTypes: set<TxType>
    var queued: multiset<Record>
    var pushed: seq<Record>
    var errors: nat

    constructor (ackTypes: set<TxType>)
      ensures this.ackTypes == ackTypes && queued == multiset{} && pushed == [] && errors == 0
    {
      this.ackTypes := ackTypes;
      queued, pushed, errors := multiset{}, [], 0;
    }

    /** The client takes the message or refuses it; nothing is acked yet. */
    method Produce(entry: Record, accepted: bool)
      modifies `queued, `errors
      ensures queued == old(queued) + if accepted then multiset{entry} else multiset{}
      ensures errors == old(errors) + if accepted then 0 else 1
    {
      if !accepted {
        errors := errors + 1;
        return;
      }
      queued := queued + multiset{entry};
    }

    method ProcessReliableAck(entry: Record)
      modifies `pushed
      ensures pushed == old(pushed) + if entry.txType in ackTypes then [entry] else []
    {
      if entry.txType in ackTypes { pushed := pushed + [entry]; }
    }

    method HandleProducerEvents(events: seq<Event>)
      modifies `pushed, `errors
      ensures pushed == old(pushed) + Acked(ackTypes, events)
      ensures errors == old(errors) + Errors(events)
    {
      var i := 0;
      while i < |events|
        invariant 0 <= i <= |events|
        invariant pushed == old(pushed) + Acked(ackTypes, events[..i])
        invariant errors == old(errors) + Errors(events[..i])
      {
        assert events[..i + 1][..i] == events[..i];
        match events[i] {
          case ClientError => errors := errors + 1;
          case Report(failed, carried) =>
            if failed || carried.None? {
              errors := errors + 1;
            } else {
              ProcessReliableAck(carried.value);
            }
          case Ignored =>
        }
        i := i + 1;
      }
      assert events[..i] == events;
    }
  }

  /**
   * A record of a type this producer acks is pushed once per report of success, any other
   * record never; with one report per produced record it is pushed at most once.
   */
  lemma {:induction false} AckedPerSuccess(ackTypes: set<TxType>, events: seq<Event>, rec: Record)
    ensures multiset(Acked(ackTypes, events))[rec]
         == if rec.txType in ackTypes then multiset(events)[Report(false, Some(rec))] else 0
  {
    if events != [] {
      var n := |events| - 1;
      AckedPerSuccess(ackTypes, events[..n], rec);
      assert events == events[..n] + [events[n]];
    }
  }

  /** Reports are handled in the order they come, and every event but a success or an ignored one is an error. */
  lemma {:induction false} EventsInOrder(ackTypes: set<TxType>, events: seq<Event>, more: seq<Event>)
    ensures Acked(ackTypes, events + more) == Acked(ackTypes, events) + Acked(ackTypes, more)
    ensures Errors(events + more) == Errors(events) + Errors(more)
    ensures |more| == 1 ==>
              Errors(more) == if more[0] == Ignored || (more[0].Report? && !more[0].failed && more[0].carried.Some?)
                              then 0 else 1
  {
    if more == [] {
      assert events + more == events;
    } else {
      var n := |more| - 1;
      assert (events + more)[..|events| + n] == events + more[..n];
      EventsInOrder(ackTypes, events, more[..n]);
    }
  }

  /** The delivery loop of the protocol is about to push exactly what HandleProducerEvents pushes. */
  lemma DeliveryIsTheLoop(w: Wiring, s: Protocol.State, rec: Record, ok: bool)
    ensures
      var types := if Kafka in w.ackTypes then w.ackTypes[Kafka] else {};
      var toPush := Protocol.Delivered(w, s, rec, ok).delivering;
      Acked(types, [Report(!ok, Some(rec))]) == if toPush.Some? then [toPush.value] else []
  {
    var event := Report(!ok, Some(rec));
    assert [event][..0] == [];
    assert StoredBy(event) == if ok then Some(rec) else None;
  }

  // ----- NATS -----

  datatype Publication = Publication(subject: string, payload: string)

  /** What a producer that knows the outcome at once sends on the ack channel. */
  function PushedBy(ackTypes: set<TxType>, entry: Record, ok: bool): seq<Record> {
    if ok && entry.txType in ackTypes then [entry] else []
  }

  class NatsProducer {
    const namespace: string
    const ackTypes: set<TxType>
    var published: seq<Publication>
    var pushed: seq<Record>
    var closing: bool

    constructor (namespace: string, ackTypes: set<TxType>)
      ensures this.namespace == namespace && this.ackTypes == ackTypes && published == [] && pushed == [] && !closing
    {
      this.namespace, this.ackTypes := namespace, ackTypes;
      published, pushed, closing := [], [], false;
    }

    /** The record is pushed only after its message has been handed over. */
    method Produce(entry: Record, vin: string, payload: string, ok: bool)
      modifies `published, `pushed
      ensures
        var message := Publication(Identity.BuildSubject(namespace, vin, entry.txType), payload);
        published == old(published) + if ok then [message] else []
      ensures pushed == old(pushed) + PushedBy(ackTypes, entry, ok)
      ensures pushed == old(pushed) + if ok && entry.txType in ackTypes then [entry] else []
    {
      var subject := Identity.BuildSubject(namespace, vin, entry.txType);
      if !ok { return; }
      published := published + [Publication(subject, payload)];
      ProcessReliableAck(entry);
    }

    method ProcessReliableAck(entry: Record)
      modifies `pushed
      ensures pushed == old(pushed) + if entry.txType in ackTypes then [entry] else []
    {
      if entry.txType in ackTypes { pushed := pushed + [entry]; }
    }

    /** The flag is set before the connection closes; `fatal` is what the ClosedHandler decides. */
    method Close() returns (fatal: bool)
      modifies `closing
      ensures closing && !fatal
    {
      closing := true;
      fatal := ClosedHandler();
    }

    /** A connection lost without Close takes the server down. */
    method ClosedHandler() returns (fatal: bool)
      ensures fatal <==> !closing
    {
      fatal := !closing;
    }
  }

  /** The records a reader is about to push before it does anything else. */
  function AboutToPush(k: Conn): seq<Record> {
    if NextAct(k, PushAck) then [k.pc.rec] else []
  }

  /**
   * A reader that has called a synchronous producer is about to push exactly what
   * NatsProducer.Produce pushes; the step it takes then is the push of that very record.
   */
  lemma PublishIsProduce(w: Wiring, k: Conn, me: nat, id: nat, ok: bool)
    requires CanMove(k, Publish(ok)) && k.pc.acts[0].to != Kafka
    requires PushAck !in k.pc.acts
    ensures
      var types := if k.pc.acts[0].to in w.ackTypes then w.ackTypes[k.pc.acts[0].to] else {};
      var k' := Published(w, k, ok);
      && AboutToPush(k') == PushedBy(types, k.pc.rec, ok)
      && (AboutToPush(k') != [] ==>
            CanMove(k', Push) && EventOf(w, k', me, id, Push) == Pushed(AboutToPush(k')[0])
            && Moved(w, k', me, id, Push).pc == Running(k.pc.rec, k.pc.acts[1..], k.pc.phase))
      && (AboutToPush(k') == [] ==> k'.pc == Running(k.pc.rec, k.pc.acts[1..], k.pc.phase))
  {
    var rest := k.pc.acts[1..];
    assert ([PushAck] + rest)[1..] == rest;
    if rest != [] { assert rest[0] in k.pc.acts; }
  }
}
