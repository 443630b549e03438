/** Vocabulary shared by the configuration, the socket and the protocol. */
module Telemetry {
  type TxType = string

  /** telemetry/producer.go:10-27; `Other` stands for every name outside that table. */
  datatype Dispatcher = Pubsub | Kafka | Kinesis | Logger | ZMQ | MQTT | NATS | Other(name: string)

  predicate Known(d: Dispatcher) {
    !d.Other?
  }

  const CONNECTIVITY: TxType := "connectivity"

  /** What telemetry.NewRecord reports for one websocket message. */
  datatype Outcome = Parsed | TooBig | UnauthorizedSender | UnknownType | OtherError

  datatype Reply = Ack | Error

  /**
   * One effect of handling a message, in program order. `PushAck` never stands in a
   * program: a producer that succeeded on a type it acks for leaves it behind while it
   * is blocked on the shared ack channel.
   */
  datatype Action = Produce(to: Dispatcher) | PushAck | Respond(reply: Reply)

  /**
   * The wired server: dispatch rules per record type, the configured reliable-ack
   * sources, and the record types each producer was built to ack.
   */
  datatype Wiring = Wiring(
    rules: map<TxType, seq<Dispatcher>>,
    reliable: map<TxType, Dispatcher>,
    ackTypes: map<Dispatcher, set<TxType>>)
  {
    /** ProcessReliableAck's guard: the producer acks this type. */
    predicate Acks(d: Dispatcher, t: TxType) {
      d in ackTypes && t in ackTypes[d]
    }

    /** What start-up validation guarantees; Config.ValidatedWiring proves it. */
    ghost predicate Wired() {
      && (forall d, t :: Acks(d, t) <==> t in reliable && reliable[t] == d)
      && CONNECTIVITY !in reliable
      && (forall t :: t in reliable ==> t in rules && reliable[t] in rules[t] && reliable[t] != Logger)
    }
  }

  /** BinarySerializer.Dispatch: one Produce for every rule of the type, in order. */
  function Dispatches(w: Wiring, t: TxType): (acts: seq<Action>)
    ensures forall i :: 0 <= i < |acts| ==> acts[i].Produce?
  {
    if t in w.rules then seq(|w.rules[t]|, i requires 0 <= i < |w.rules[t]| => Produce(w.rules[t][i])) else []
  }

  /** Everything ParseAndProcessRecord does to the outside, for every result of NewRecord. */
  function Program(w: Wiring, outcome: Outcome, t: TxType): seq<Action> {
    match outcome
    case TooBig => [Respond(Error)]
    case UnauthorizedSender => [Respond(Ack)]
    case OtherError => [Respond(Error)]
    case UnknownType => [Respond(Ack)] + Deliver(w, t)
    case Parsed => Deliver(w, t)
  }

  /** Dispatch, then an immediate ack unless the type waits for its producer. */
  function Deliver(w: Wiring, t: TxType): seq<Action> {
    Dispatches(w, t) + if t in w.reliable then [] else [Respond(Ack)]
  }

  /**
   * Every producer of the rule is called once and in order, and only then comes the ack,
   * unless the type waits for its producer. An unknown type is acked before that as well;
   * anything rejected is answered and goes nowhere.
   */
  lemma ProgramIs(w: Wiring, outcome: Outcome, t: TxType)
    ensures
      var rule := if t in w.rules then w.rules[t] else [];
      var calls := seq(|rule|, i requires 0 <= i < |rule| => Produce(rule[i]));
      var last := if t in w.reliable then [] else [Respond(Ack)];
      Program(w, outcome, t) ==
      match outcome
      case Parsed => calls + last
      case UnknownType => [Respond(Ack)] + calls + last
      case TooBig => [Respond(Error)]
      case OtherError => [Respond(Error)]
      case UnauthorizedSender => [Respond(Ack)]
  {
    var rule := if t in w.rules then w.rules[t] else [];
    assert Dispatches(w, t) == seq(|rule|, i requires 0 <= i < |rule| => Produce(rule[i]));
  }
}
