/**
 * One websocket connection: its HTTP handler with the read loop, and its writer goroutine.
 * Each `Move` is one atomic move of one of them. What the network, the brokers and the
 * rate limiter decide is a parameter of the move; what the rest of the server sees of it
 * is its `Event`.
 */
module Connections {
  import opened Wrappers
  import opened Telemetry

  const WRITE_CAPACITY: nat := 1000
  const SERVER_SHUTDOWN: string := "server_shutdown"

  /** A record by reference: `id` is its identity, `conn` the connection that made it. */
  datatype Record = Record(id: nat, conn: nat, socketId: string, txType: TxType, hasSerializer: bool)

  /** Where a record came from: a vehicle message, one shed by the rate limiter, or the server. */
  datatype Origin = Message(outcome: Outcome) | RateLimited | Connected | Disconnected

  datatype Entry = Entry(rec: Record, origin: Origin)

  /** A response enqueued on the write channel of connection `sock`. */
  datatype Response = Response(sock: nat, id: nat, reply: Reply)

  /** One call of a producer's Produce. */
  datatype Dispatch = Dispatch(to: Dispatcher, id: nat)

  datatype Phase = Connecting | Serving | Disconnecting

  /** Where the HTTP handler stands; `Running` still has `acts` to do for `rec`. */
  datatype Pc =
    | Accepted
    | Registered
    | Running(rec: Record, acts: seq<Action>, phase: Phase)
    | Reading
    | Closing
    | Closed
    | Stopped
    | Deregistered
    | Done

  datatype Writer = NotStarted | Waiting | Writing(response: Response) | Exited

  /** `taken` and `trace` are histories: responses the writer took, producers called. */
  datatype Conn = Conn(
    uuid: string,
    pc: Pc,
    writer: Writer,
    buffer: seq<Response>,
    closeReason: string,
    stopCloses: nat,
    taken: seq<Response>,
    trace: seq<Dispatch>)

  function NewConn(uuid: string): Conn {
    Conn(uuid, Accepted, NotStarted, [], "", 0, [], [])
  }

  datatype Move =
    | Register
    | Announce(built: bool)
    | Finish
    | ReadEnd(err: Option<string>)
    | Shed(txType: TxType)
    | Read(outcome: Outcome, txType: TxType)
    | Enqueue
    | Publish(ok: bool)
    | Push
    | Take
    | Write(err: Option<string>)
    | StopWriter
    | CloseSocket(err: Option<string>)
    | CloseStop
    | Deregister
    | RequestClose

  datatype Event =
    | Silent
    | Joined
    | Left
    | Created(rec: Record, origin: Origin)
    | Answered(response: Response)
    | Called(to: Dispatcher, rec: Record, ok: bool)
    | Pushed(rec: Record)

  /** A registered connection: after RegisterSocket and before DeregisterSocket. */
  predicate Live(pc: Pc) {
    match pc
    case Registered => true
    case Running(_, _, phase) => phase != Disconnecting
    case Reading => true
    case Closing => true
    case Closed => true
    case Stopped => true
    case _ => false
  }

  /** recordCloseReason: the first non-empty reason wins. */
  function FirstReason(reason: string, err: Option<string>): string {
    if err.Some? && reason == "" then err.value else reason
  }

  predicate NextAct(k: Conn, a: Action) {
    k.pc.Running? && k.pc.acts != [] && k.pc.acts[0] == a
  }

  predicate CanMove(k: Conn, m: Move) {
    match m
    case Register => k.pc == Accepted
    case Announce(_) => k.pc == Registered || k.pc == Deregistered
    case Finish => k.pc.Running? && k.pc.acts == []
    case ReadEnd(_) => k.pc == Reading
    case Shed(_) => k.pc == Reading
    // A message NewRecord could not parse far enough has no record type.
    case Read(outcome, t) => k.pc == Reading && (outcome.TooBig? || outcome.UnknownType? ==> t == "")
    case Enqueue => k.pc.Running? && k.pc.acts != [] && k.pc.acts[0].Respond? && |k.buffer| < WRITE_CAPACITY
    case Publish(_) => k.pc.Running? && k.pc.acts != [] && k.pc.acts[0].Produce?
    case Push => NextAct(k, PushAck)
    case Take => k.writer == Waiting && k.buffer != []
    case Write(_) => k.writer.Writing?
    case StopWriter => k.writer == Waiting && k.stopCloses > 0
    case CloseSocket(_) => k.pc == Closing
    case CloseStop => k.pc == Closed
    case Deregister => k.pc == Stopped
    case RequestClose => true
  }

  /** The connection after a move; `me` is its index and `id` the next record identity. */
  function Moved(w: Wiring, k: Conn, me: nat, id: nat, m: Move): Conn
    requires CanMove(k, m)
  {
    match m
    case Register => k.(pc := Registered)
    case Announce(built) => Announced(w, k, me, id, built)
    case Finish => Finished(k)
    case ReadEnd(err) => k.(pc := Closing, closeReason := FirstReason(k.closeReason, err))
    case Shed(_) => k
    case Read(outcome, t) => k.(pc := Running(RecordOf(k, me, id, t), Program(w, outcome, t), Serving))
    case Enqueue => Advance(k).(buffer := k.buffer + [Response(me, k.pc.rec.id, k.pc.acts[0].reply)])
    case Publish(ok) => Published(w, k, ok)
    case Push => Advance(k)
    case Take => k.(writer := Writing(k.buffer[0]), buffer := k.buffer[1..], taken := k.taken + [k.buffer[0]])
    case Write(err) =>
      k.(writer := if err.None? then Waiting else Exited, closeReason := FirstReason(k.closeReason, err))
    case StopWriter => k.(writer := Exited)
    case CloseSocket(err) => k.(pc := Closed, closeReason := FirstReason(k.closeReason, err))
    case CloseStop => k.(pc := Stopped, stopCloses := k.stopCloses + 1)
    case Deregister => k.(pc := Deregistered)
    case RequestClose => k.(closeReason := FirstReason(k.closeReason, Some(SERVER_SHUTDOWN)))
  }

  function EventOf(w: Wiring, k: Conn, me: nat, id: nat, m: Move): Event
    requires CanMove(k, m)
  {
    match m
    case Register => Joined
    case Announce(built) =>
      if Announces(w, built) then
        Created(RecordOf(k, me, id, CONNECTIVITY), if k.pc == Deregistered then Disconnected else Connected)
      else Silent
    case Shed(t) => Created(RecordOf(k, me, id, t), RateLimited)
    case Read(outcome, t) => Created(RecordOf(k, me, id, t), Message(outcome))
    case Enqueue => Answered(Response(me, k.pc.rec.id, k.pc.acts[0].reply))
    case Publish(ok) => Called(k.pc.acts[0].to, k.pc.rec, ok)
    case Push => Pushed(k.pc.rec)
    case Deregister => Left
    case _ => Silent
  }

  function RecordOf(k: Conn, me: nat, id: nat, t: TxType): Record {
    Record(id, me, k.uuid, t, true)
  }

  /** The program counter moves past the action just done. */
  function Advance(k: Conn): Conn
    requires k.pc.Running? && k.pc.acts != []
  {
    k.(pc := k.pc.(acts := k.pc.acts[1..]))
  }

  /** dispatchConnectivityEvent goes ahead if a rule exists and the record could be built. */
  predicate Announces(w: Wiring, built: bool) {
    CONNECTIVITY in w.rules && built
  }

  /** registerSocket and deregisterSocket after the registry has been updated. */
  function Announced(w: Wiring, k: Conn, me: nat, id: nat, built: bool): Conn {
    var leaving := k.pc == Deregistered;
    if Announces(w, built) then
      k.(pc := Running(RecordOf(k, me, id, CONNECTIVITY), Dispatches(w, CONNECTIVITY),
                       if leaving then Disconnecting else Connecting))
    else if leaving then k.(pc := Done)
    else Serve(k)
  }

  /** ProcessTelemetry starts: the writer is spawned and the read loop entered. */
  function Serve(k: Conn): Conn {
    k.(pc := Reading, writer := Waiting)
  }

  function Finished(k: Conn): Conn
    requires k.pc.Running?
  {
    match k.pc.phase
    case Connecting => Serve(k)
    case Serving => k.(pc := Reading)
    case Disconnecting => k.(pc := Done)
  }

  /** After Produce: a producer that knows it succeeded on a type it acks pushes the record. */
  function Published(w: Wiring, k: Conn, ok: bool): Conn
    requires k.pc.Running? && k.pc.acts != [] && k.pc.acts[0].Produce?
  {
    var d, rest := k.pc.acts[0].to, k.pc.acts[1..];
    var pushes := ok && d != Kafka && w.Acks(d, k.pc.rec.txType);
    k.(pc := k.pc.(acts := if pushes then [PushAck] + rest else rest),
       trace := k.trace + [Dispatch(d, k.pc.rec.id)])
  }
}
