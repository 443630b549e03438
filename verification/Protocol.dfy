/**
 * The reliable-acknowledgement protocol as a transition system: all connections, the
 * Kafka delivery loop, the server's ack loop and the shutdown sequence, interleaved.
 */
module Protocol {
  import opened Wrappers
  import opened Telemetry
  import opened Registries
  import opened Connections

  /** The server's ack loop, between two receives from the ack channel. */
  datatype Handler = Free | Holding(rec: Record) | Replying(rec: Record, sock: nat)

  /** CloseAllSockets closes a snapshot of the registry; `todo` is what is left of it. */
  datatype Shutdown = Up | Draining(snapshot: set<nat>, todo: set<nat>) | Drained | TimedOut

  /** Connections are indexed by order of acceptance, records by order of creation. */
  datatype State = State(
    conns: seq<Conn>,
    registry: Registry<nat>,
    handler: Handler,
    inflight: multiset<Record>,
    delivering: Option<Record>,
    shutdown: Shutdown,
    past: History)

  /**
   * What has happened: records created, responses enqueued in order, successes producers
   * reported, failures of a producer that owed the ack, ack-loop receives, hits and misses.
   */
  datatype History = History(
    entries: seq<Entry>,
    log: seq<Response>,
    stored: set<Dispatch>,
    failed: multiset<nat>,
    received: seq<nat>,
    hits: nat,
    misses: multiset<nat>)

  const Init: State :=
    State([], NoSockets(), Free, multiset{}, None, Up, History([], [], {}, multiset{}, [], 0, multiset{}))

  datatype Step =
    | Connect(uuid: string)
    | Local(c: nat, move: Move)
    | Delivery(rec: Record, ok: bool)
    | PushFromKafka
    | Lookup
    | ReplyFromServer
    | BeginDrain
    | PollDrain(deadline: bool)

  predicate Enabled(s: State, step: Step) {
    match step
    case Connect(_) => s.shutdown == Up
    case Local(c, m) => c < |s.conns| && CanMove(s.conns[c], m) && MayStep(s, c, m)
    // The delivery loop is one goroutine: it takes no report while it is blocked on the ack channel.
    case Delivery(rec, _) => rec in s.inflight && s.delivering == None
    case PushFromKafka => s.delivering.Some? && s.handler == Free
    case Lookup => s.handler.Holding?
    case ReplyFromServer =>
      s.handler.Replying? && s.handler.sock < |s.conns| && |s.conns[s.handler.sock].buffer| < WRITE_CAPACITY
    case BeginDrain => s.shutdown == Up
    case PollDrain(_) => s.shutdown.Draining? && s.shutdown.todo == {}
  }

  /** The ack channel is unbuffered; only CloseAllSockets asks a socket to close. */
  predicate MayStep(s: State, c: nat, m: Move) {
    match m
    case Push => s.handler == Free
    case RequestClose => s.shutdown.Draining? && c in s.shutdown.todo
    case _ => true
  }

  function Next(w: Wiring, s: State, step: Step): State
    requires Enabled(s, step)
  {
    match step
    case Connect(uuid) => s.(conns := s.conns + [NewConn(uuid)])
    case Local(c, m) => Absorb(w, Acted(w, s, c, m), c, Emitted(w, s, c, m))
    case Delivery(rec, ok) => Delivered(w, s, rec, ok)
    case PushFromKafka => Receive(s.(delivering := None), s.delivering.value)
    case Lookup => LookedUp(s)
    case ReplyFromServer =>
      var sock := s.handler.sock;
      var r := Response(sock, s.handler.rec.id, Ack);
      s.(conns := s.conns[sock := s.conns[sock].(buffer := s.conns[sock].buffer + [r])],
         handler := Free,
         past := s.past.(log := s.past.log + [r]))
    // CloseAllSockets snapshots the registry before it closes anything.
    case BeginDrain => s.(shutdown := Draining(s.registry.sockets.Values, s.registry.sockets.Values))
    case PollDrain(deadline) =>
      s.(shutdown := if s.registry.counter == 0 then Drained else if deadline then TimedOut else s.shutdown)
  }

  /** A connection has moved; the rest of the server has not seen its event yet. */
  function Acted(w: Wiring, s: State, c: nat, m: Move): State
    requires c < |s.conns| && CanMove(s.conns[c], m)
  {
    s.(conns := s.conns[c := Moved(w, s.conns[c], c, |s.past.entries|, m)], shutdown := Asked(s.shutdown, c, m))
  }

  function Emitted(w: Wiring, s: State, c: nat, m: Move): Event
    requires c < |s.conns| && CanMove(s.conns[c], m)
  {
    EventOf(w, s.conns[c], c, |s.past.entries|, m)
  }

  function Asked(sd: Shutdown, c: nat, m: Move): Shutdown {
    if m.RequestClose? && sd.Draining? then sd.(todo := sd.todo - {c}) else sd
  }

  /** What the rest of the server does with a connection's event. */
  function Absorb(w: Wiring, s: State, c: nat, e: Event): State
    requires c < |s.conns|
  {
    match e
    case Silent => s
    case Joined => s.(registry := s.registry.Add(s.conns[c].uuid, c))
    case Left => s.(registry := s.registry.Remove(s.conns[c].uuid))
    case Created(rec, origin) => s.(past := s.past.(entries := s.past.entries + [Entry(rec, origin)]))
    case Answered(r) => s.(past := s.past.(log := s.past.log + [r]))
    case Called(d, rec, ok) =>
      if !ok then s.(past := Failed(s.past, rec.id, w.Acks(d, rec.txType)))
      else if d == Kafka then s.(inflight := s.inflight + multiset{rec})
      else s.(past := Stored(s.past, d, rec))
    case Pushed(rec) => Receive(s, rec)
  }

  /** A producer failure is only logged; history keeps it when that producer owed the ack. */
  function Failed(h: History, id: nat, acks: bool): History {
    if acks then h.(failed := h.failed + multiset{id}) else h
  }

  function Stored(h: History, d: Dispatcher, rec: Record): History {
    h.(stored := h.stored + {Dispatch(d, rec.id)})
  }

  /** The rendezvous on the ack channel. */
  function Receive(s: State, rec: Record): State {
    s.(handler := Holding(rec), past := s.past.(received := s.past.received + [rec.id]))
  }

  /** handleProducerEvents: one delivery report. */
  function Delivered(w: Wiring, s: State, rec: Record, ok: bool): State {
    var acks := w.Acks(Kafka, rec.txType);
    s.(inflight := s.inflight - multiset{rec},
       delivering := if ok && acks then Some(rec) else None,
       past := if ok then Stored(s.past, Kafka, rec) else Failed(s.past, rec.id, acks))
  }

  /** handleAcks between the receive and the send. */
  function LookedUp(s: State): State
    requires s.handler.Holding?
  {
    var rec := s.handler.rec;
    if !rec.hasSerializer then s.(handler := Free)
    else match s.registry.Get(rec.socketId)
      case Some(sock) => s.(handler := Replying(rec, sock), past := s.past.(hits := s.past.hits + 1))
      case None => s.(handler := Free, past := s.past.(misses := s.past.misses + multiset{rec.id}))
  }

  /** The state a sequence of steps leads to, if every one of them was enabled. */
  function Run(w: Wiring, steps: seq<Step>): Option<State> {
    if steps == [] then Some(Init)
    else
      var before := Run(w, steps[..|steps| - 1]);
      var step := steps[|steps| - 1];
      if before.Some? && Enabled(before.value, step) then Some(Next(w, before.value, step)) else None
  }
}
