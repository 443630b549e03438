/**
 * What every move of a connection keeps, stated on the connection and on the shared
 * history of records (`entries`), responses (`log`) and producer successes (`stored`).
 */
module ConnectionInvariants {
  import opened Telemetry
  import opened Connections

  // ----- What an event adds to the history -----

  function EntriesAdded(e: Event): seq<Entry> {
    if e.Created? then [Entry(e.rec, e.origin)] else []
  }

  function ResponsesAdded(e: Event): seq<Response> {
    if e.Answered? then [e.response] else []
  }

  function StoredAdded(e: Event): set<Dispatch> {
    if e.Called? && e.ok && e.to != Kafka then {Dispatch(e.to, e.rec.id)} else {}
  }

  // ----- Identity -----

  predicate Is(entries: seq<Entry>, rec: Record) {
    rec.id < |entries| && entries[rec.id].rec == rec
  }

  predicate OwnRecord(k: Conn, me: nat, entries: seq<Entry>) {
    k.pc.Running? ==> Is(entries, k.pc.rec) && k.pc.rec.conn == me
  }

  lemma {:induction false} MoveKeepsOwnRecord(w: Wiring, k: Conn, me: nat, m: Move, entries: seq<Entry>)
    requires CanMove(k, m) && OwnRecord(k, me, entries)
    ensures OwnRecord(Moved(w, k, me, |entries|, m), me, entries + EntriesAdded(EventOf(w, k, me, |entries|, m)))
  {
  }

  // ----- The stop channel and the writer -----

  /** ProcessTelemetry has returned. */
  predicate Past(pc: Pc) {
    match pc
    case Stopped => true
    case Deregistered => true
    case Done => true
    case Running(_, _, phase) => phase == Disconnecting
    case _ => false
  }

  /** ProcessTelemetry has not been entered. */
  predicate Before(pc: Pc) {
    match pc
    case Accepted => true
    case Registered => true
    case Running(_, _, phase) => phase == Connecting
    case _ => false
  }

  /** The stop channel is closed exactly once, by the deferred teardown. */
  predicate StopOk(k: Conn) {
    && k.stopCloses == (if Past(k.pc) then 1 else 0)
    && (k.writer == NotStarted <==> Before(k.pc))
  }

  lemma {:induction false} MoveKeepsStop(w: Wiring, k: Conn, me: nat, id: nat, m: Move)
    requires CanMove(k, m) && StopOk(k)
    ensures StopOk(Moved(w, k, me, id, m))
  {
  }

  // ----- The write channel -----

  /** The responses of a log that were enqueued on connection `c`, in order. */
  function ForSock(log: seq<Response>, c: nat): seq<Response> {
    if log == [] then []
    else ForSock(log[..|log| - 1], c) + if log[|log| - 1].sock == c then [log[|log| - 1]] else []
  }

  lemma {:induction false} ForSockOneMore(log: seq<Response>, r: Response, c: nat)
    ensures ForSock(log + [r], c) == ForSock(log, c) + if r.sock == c then [r] else []
  {
    assert (log + [r])[..|log|] == log;
  }

  predicate Fifo(k: Conn, me: nat, log: seq<Response>) {
    k.taken + k.buffer == ForSock(log, me) && |k.buffer| <= WRITE_CAPACITY
  }

  lemma {:induction false} MoveKeepsFifo(w: Wiring, k: Conn, me: nat, id: nat, m: Move, log: seq<Response>)
    requires CanMove(k, m) && Fifo(k, me, log)
    ensures Fifo(Moved(w, k, me, id, m), me, log + ResponsesAdded(EventOf(w, k, me, id, m)))
  {
    var e, k' := EventOf(w, k, me, id, m), Moved(w, k, me, id, m);
    match m
    case Enqueue =>
      ForSockOneMore(log, e.response, me);
      assert k'.taken + k'.buffer == (k.taken + k.buffer) + [e.response];
    case Take =>
      assert k'.taken + k'.buffer == k.taken + k.buffer;
      assert log + [] == log;
    case _ =>
      assert log + [] == log;
  }

  // ----- Calls of producers -----

  /** The producer calls a program still makes for record `id`. */
  function Calls(acts: seq<Action>, id: nat): seq<Dispatch> {
    if acts == [] then []
    else (if acts[0].Produce? then [Dispatch(acts[0].to, id)] else []) + Calls(acts[1..], id)
  }

  lemma {:induction false} CallsOfConcat(a: seq<Action>, b: seq<Action>, id: nat)
    ensures Calls(a + b, id) == Calls(a, id) + Calls(b, id)
  {
    if a == [] {
      assert a + b == b;
    } else {
      CallsOfFirst(a + b, id);
      CallsOfFirst(a, id);
      assert (a + b)[..1] == a[..1] && (a + b)[1..] == a[1..] + b;
      CallsOfConcat(a[1..], b, id);
    }
  }

  lemma {:induction false} CallsOfOne(a: Action, id: nat)
    ensures Calls([a], id) == if a.Produce? then [Dispatch(a.to, id)] else []
  {
    assert [a][1..] == [];
  }

  lemma {:induction false} CallsOfFirst(acts: seq<Action>, id: nat)
    requires acts != []
    ensures Calls(acts, id) == Calls(acts[..1], id) + Calls(acts[1..], id)
  {
    assert acts[..1] == [acts[0]];
    CallsOfOne(acts[0], id);
  }

  /** Only accepted vehicle messages and connectivity events are dispatched. */
  predicate IsDispatched(origin: Origin) {
    match origin
    case Message(outcome) => outcome.Parsed? || outcome.UnknownType?
    case RateLimited => false
    case _ => true
  }

  /** What the dispatch rules ask for one record: every producer of its type, in order. */
  function Wanted(w: Wiring, e: Entry): seq<Dispatch> {
    if IsDispatched(e.origin) && e.rec.txType in w.rules then
      var rule := w.rules[e.rec.txType];
      seq(|rule|, i requires 0 <= i < |rule| => Dispatch(rule[i], e.rec.id))
    else []
  }

  lemma {:induction false} CallsOfProduces(rule: seq<Dispatcher>, id: nat)
    ensures Calls(seq(|rule|, i requires 0 <= i < |rule| => Produce(rule[i])), id)
         == seq(|rule|, i requires 0 <= i < |rule| => Dispatch(rule[i], id))
  {
    if rule != [] {
      var acts := seq(|rule|, i requires 0 <= i < |rule| => Produce(rule[i]));
      var rest := rule[1..];
      assert acts[1..] == seq(|rest|, i requires 0 <= i < |rest| => Produce(rest[i]));
      CallsOfProduces(rest, id);
    }
  }

  function ProgramOf(w: Wiring, e: Entry): seq<Action> {
    match e.origin
    case Message(outcome) => Program(w, outcome, e.rec.txType)
    case RateLimited => []
    case _ => Dispatches(w, e.rec.txType)
  }

  /** The program of a record calls exactly the producers its rules name. */
  lemma {:induction false} ProgramCallsWanted(w: Wiring, e: Entry)
    ensures Calls(ProgramOf(w, e), e.rec.id) == Wanted(w, e)
  {
    var t, id := e.rec.txType, e.rec.id;
    CallsOfDispatches(w, t, id);
    CallsOfReply(Ack, id);
    CallsOfReply(Error, id);
    CallsOfDeliver(w, t, id);
    assert Calls([], id) == [];
  }

  lemma {:induction false} CallsOfDeliver(w: Wiring, t: TxType, id: nat)
    ensures Calls(Deliver(w, t), id) == Calls(Dispatches(w, t), id)
    ensures Calls([Respond(Ack)] + Deliver(w, t), id) == Calls(Dispatches(w, t), id)
  {
    CallsOfReply(Ack, id);
    CallsOfConcat(Dispatches(w, t), if t in w.reliable then [] else [Respond(Ack)], id);
    CallsOfConcat([Respond(Ack)], Deliver(w, t), id);
  }

  lemma {:induction false} CallsOfReply(r: Reply, id: nat)
    ensures Calls([Respond(r)], id) == []
  {
    assert [Respond(r)][1..] == [];
  }

  lemma {:induction false} CallsOfDispatches(w: Wiring, t: TxType, id: nat)
    ensures Calls(Dispatches(w, t), id)
         == if t in w.rules then
              seq(|w.rules[t]|, i requires 0 <= i < |w.rules[t]| => Dispatch(w.rules[t][i], id))
            else []
  {
    if t in w.rules {
      var rule := w.rules[t];
      CallsOfProduces(rule, id);
      assert Dispatches(w, t) == seq(|rule|, i requires 0 <= i < |rule| => Produce(rule[i]));
    }
  }

  /** What the rules ask for all records connection `c` made, in order of creation. */
  function WantedBy(w: Wiring, entries: seq<Entry>, c: nat): seq<Dispatch> {
    if entries == [] then []
    else
      var last := entries[|entries| - 1];
      WantedBy(w, entries[..|entries| - 1], c) + if last.rec.conn == c then Wanted(w, last) else []
  }

  lemma {:induction false} WantedByOneMore(w: Wiring, entries: seq<Entry>, e: Entry, c: nat)
    ensures WantedBy(w, entries + [e], c) == WantedBy(w, entries, c) + if e.rec.conn == c then Wanted(w, e) else []
  {
    assert (entries + [e])[..|entries|] == entries;
  }

  function Pending(pc: Pc): seq<Dispatch> {
    if pc.Running? then Calls(pc.acts, pc.rec.id) else []
  }

  ghost predicate Traced(w: Wiring, k: Conn, me: nat, entries: seq<Entry>) {
    k.trace + Pending(k.pc) == WantedBy(w, entries, me)
  }

  lemma {:induction false} MoveKeepsTrace(w: Wiring, k: Conn, me: nat, m: Move, entries: seq<Entry>)
    requires CanMove(k, m) && Traced(w, k, me, entries)
    ensures Traced(w, Moved(w, k, me, |entries|, m), me, entries + EntriesAdded(EventOf(w, k, me, |entries|, m)))
  {
    var e := EventOf(w, k, me, |entries|, m);
    if e.Created? {
      CreatedIsPending(w, k, me, m, entries);
    } else {
      assert entries + [] == entries;
      if m.Publish? { PublishKeepsCalls(w, k, m.ok); } else { QuietKeepsCalls(w, k, me, |entries|, m); }
    }
  }

  /** No other move touches a producer call. */
  lemma {:induction false} QuietKeepsCalls(w: Wiring, k: Conn, me: nat, id: nat, m: Move)
    requires CanMove(k, m) && !m.Publish? && !EventOf(w, k, me, id, m).Created?
    ensures
      var k' := Moved(w, k, me, id, m);
      k'.trace == k.trace && Pending(k'.pc) == Pending(k.pc)
  {
    if m.Enqueue? || m.Push? { CallsOfFirst(k.pc.acts, k.pc.rec.id); }
  }

  /** A new record's calls are all pending. */
  lemma {:induction false} CreatedIsPending(w: Wiring, k: Conn, me: nat, m: Move, entries: seq<Entry>)
    requires CanMove(k, m) && EventOf(w, k, me, |entries|, m).Created? && Traced(w, k, me, entries)
    ensures Traced(w, Moved(w, k, me, |entries|, m), me, entries + EntriesAdded(EventOf(w, k, me, |entries|, m)))
  {
    var e := EventOf(w, k, me, |entries|, m);
    var entry := Entry(e.rec, e.origin);
    WantedByOneMore(w, entries, entry, me);
    ProgramCallsWanted(w, entry);
    assert k.trace + [] == k.trace;
  }

  /** A producer call moves from what is pending to the trace. */
  lemma {:induction false} PublishKeepsCalls(w: Wiring, k: Conn, ok: bool)
    requires CanMove(k, Publish(ok))
    ensures Published(w, k, ok).trace + Pending(Published(w, k, ok).pc) == k.trace + Pending(k.pc)
  {
    var id := k.pc.rec.id;
    var d, calls := Dispatch(k.pc.acts[0].to, id), Calls(k.pc.acts[1..], id);
    CallsAfterProduce(k.pc.acts, id);
    assert (k.trace + [d]) + calls == k.trace + ([d] + calls);
  }

  lemma {:induction false} CallsAfterProduce(acts: seq<Action>, id: nat)
    requires acts != [] && acts[0].Produce?
    ensures Calls(acts, id) == [Dispatch(acts[0].to, id)] + Calls(acts[1..], id)
    ensures Calls([PushAck] + acts[1..], id) == Calls(acts[1..], id)
  {
    assert ([PushAck] + acts[1..])[1..] == acts[1..];
  }

  // ----- Order of a connection's records -----

  predicate By(entries: seq<Entry>, i: int, c: nat) {
    0 <= i < |entries| && entries[i].rec.conn == c
  }

  /** CONNECTED can only be the first record of a connection and DISCONNECTED only the last. */
  ghost predicate InOrder(entries: seq<Entry>, c: nat) {
    forall i, j :: By(entries, i, c) && By(entries, j, c) && i < j ==>
      entries[j].origin != Connected && entries[i].origin != Disconnected
  }

  ghost predicate OrderOk(pc: Pc, c: nat, entries: seq<Entry>) {
    && InOrder(entries, c)
    && (pc == Accepted || pc == Registered ==> forall i :: !By(entries, i, c))
    && (forall i :: By(entries, i, c) && entries[i].origin == Disconnected ==>
          pc == Done || (pc.Running? && pc.phase == Disconnecting))
  }

  lemma {:induction false} MoveKeepsOrder(w: Wiring, k: Conn, me: nat, m: Move, entries: seq<Entry>)
    requires CanMove(k, m) && OrderOk(k.pc, me, entries)
    ensures OrderOk(Moved(w, k, me, |entries|, m).pc, me, entries + EntriesAdded(EventOf(w, k, me, |entries|, m)))
  {
    var e := EventOf(w, k, me, |entries|, m);
    var entries' := entries + EntriesAdded(e);
    assert forall i :: By(entries', i, me) && i < |entries| ==> By(entries, i, me) && entries'[i] == entries[i];
    if !e.Created? {
      assert entries' == entries;
    }
  }

  /** A later connection's or another connection's records do not matter. */
  lemma {:induction false} OthersKeepOrder(pc: Pc, c: nat, entries: seq<Entry>, e: Entry)
    requires OrderOk(pc, c, entries) && e.rec.conn != c
    ensures OrderOk(pc, c, entries + [e])
  {
    var entries' := entries + [e];
    assert forall i :: By(entries', i, c) ==> By(entries, i, c) && entries'[i] == entries[i];
  }

  // ----- What a program may still do -----

  /** The reply, if any, that the read loop itself owes for a record. */
  predicate MayReply(w: Wiring, e: Entry, reply: Reply) {
    match e.origin
    case Message(outcome) =>
      (match outcome
       case TooBig => reply == Error
       case OtherError => reply == Error
       case UnauthorizedSender => reply == Ack
       case UnknownType => reply == Ack
       case Parsed => reply == Ack && e.rec.txType !in w.reliable)
    case _ => false
  }

  /** The designated producer of a reliable record has reported success for it. */
  predicate Earned(w: Wiring, stored: set<Dispatch>, rec: Record) {
    rec.txType in w.reliable && Dispatch(w.reliable[rec.txType], rec.id) in stored
  }

  predicate ActOk(w: Wiring, e: Entry, stored: set<Dispatch>, a: Action) {
    match a
    case Produce(_) => IsDispatched(e.origin)
    case PushAck => Earned(w, stored, e.rec)
    case Respond(reply) => MayReply(w, e, reply)
  }

  ghost predicate ActsOk(w: Wiring, pc: Pc, entries: seq<Entry>, stored: set<Dispatch>) {
    pc.Running? ==>
      && pc.rec.id < |entries|
      && forall a :: a in pc.acts ==> ActOk(w, entries[pc.rec.id], stored, a)
  }

  lemma {:induction false} ProgramActsOk(w: Wiring, e: Entry, stored: set<Dispatch>)
    ensures forall a :: a in ProgramOf(w, e) ==> ActOk(w, e, stored, a)
  {
  }

  lemma {:induction false} MoveKeepsActs(w: Wiring, k: Conn, me: nat, m: Move,
                                         entries: seq<Entry>, stored: set<Dispatch>)
    requires w.Wired() && CanMove(k, m) && OwnRecord(k, me, entries) && ActsOk(w, k.pc, entries, stored)
    ensures
      var e := EventOf(w, k, me, |entries|, m);
      ActsOk(w, Moved(w, k, me, |entries|, m).pc, entries + EntriesAdded(e), stored + StoredAdded(e))
  {
    var e, k' := EventOf(w, k, me, |entries|, m), Moved(w, k, me, |entries|, m);
    var entries', stored' := entries + EntriesAdded(e), stored + StoredAdded(e);
    if e.Created? {
      ProgramActsOk(w, Entry(e.rec, e.origin), stored');
    }
    if k'.pc.Running? {
      forall a | a in k'.pc.acts
        ensures k'.pc.rec.id < |entries'| && ActOk(w, entries'[k'.pc.rec.id], stored', a)
      {
        if !e.Created? {
          assert k'.pc.rec == k.pc.rec;
          assert a in k.pc.acts || (m.Publish? && a == PushAck);
        }
      }
    }
  }

  // ----- Responses a program still owes -----

  /** An action is worth one response if it replies or may lead to a reliable ack. */
  function Worth(w: Wiring, t: TxType, a: Action): nat {
    match a
    case Produce(d) => if w.Acks(d, t) then 1 else 0
    case PushAck => 1
    case Respond(_) => 1
  }

  function Owed(w: Wiring, t: TxType, acts: seq<Action>): nat {
    if acts == [] then 0 else Worth(w, t, acts[0]) + Owed(w, t, acts[1..])
  }

  lemma {:induction false} OwedConcat(w: Wiring, t: TxType, a: seq<Action>, b: seq<Action>)
    ensures Owed(w, t, a + b) == Owed(w, t, a) + Owed(w, t, b)
  {
    if a == [] {
      assert a + b == b;
    } else {
      assert (a + b)[1..] == a[1..] + b;
      OwedConcat(w, t, a[1..], b);
    }
  }

  /** What connection `k` still owes for record `id`. */
  function OwedBy(w: Wiring, k: Conn, id: nat): nat {
    if k.pc.Running? && k.pc.rec.id == id then Owed(w, k.pc.rec.txType, k.pc.acts) else 0
  }

  /** All a record can ever be answered, counted when it is created. */
  function Budget(w: Wiring, e: Entry): nat {
    Owed(w, e.rec.txType, ProgramOf(w, e))
  }

  /** The part of the debt for `id` that an event moves out of the connection. */
  function Paid(w: Wiring, e: Event, id: nat): nat {
    match e
    case Answered(r) => if r.id == id then 1 else 0
    case Called(d, rec, ok) => if rec.id == id && w.Acks(d, rec.txType) && (!ok || d == Kafka) then 1 else 0
    case Pushed(rec) => if rec.id == id then 1 else 0
    case _ => 0
  }

  /** Every move keeps the books: what leaves the connection is what its event pays. */
  lemma {:induction false} MovePays(w: Wiring, k: Conn, me: nat, m: Move, entries: seq<Entry>, id: nat)
    requires CanMove(k, m)
    ensures
      var e := EventOf(w, k, me, |entries|, m);
      OwedBy(w, Moved(w, k, me, |entries|, m), id) + Paid(w, e, id)
      == OwedBy(w, k, id) + if e.Created? && id == |entries| then Budget(w, Entry(e.rec, e.origin)) else 0
  {
    if m.Publish? && k.pc.rec.id == id {
      var rest := k.pc.acts[1..];
      assert ([PushAck] + rest)[1..] == rest;
    }
  }

  /** How often the designated producer of a type stands in its rule list. */
  function Designated(w: Wiring, t: TxType): nat {
    if t in w.reliable && t in w.rules then multiset(w.rules[t])[w.reliable[t]] else 0
  }

  /** A rule list without duplicates names its designated producer once. */
  lemma {:induction false} DesignatedOnce(w: Wiring, t: TxType)
    requires w.Wired() && t in w.reliable
    requires forall i, j :: 0 <= i < j < |w.rules[t]| ==> w.rules[t][i] != w.rules[t][j]
    ensures Designated(w, t) == 1
  {
    OnceInDistinct(w.rules[t], w.reliable[t]);
  }

  lemma {:induction false} OnceInDistinct(rule: seq<Dispatcher>, d: Dispatcher)
    requires forall i, j :: 0 <= i < j < |rule| ==> rule[i] != rule[j]
    ensures multiset(rule)[d] == if d in rule then 1 else 0
  {
    if rule != [] {
      assert rule == [rule[0]] + rule[1..];
      OnceInDistinct(rule[1..], d);
    }
  }

  lemma {:induction false} OwedForRule(w: Wiring, t: TxType, rule: seq<Dispatcher>)
    requires w.Wired()
    ensures Owed(w, t, seq(|rule|, i requires 0 <= i < |rule| => Produce(rule[i])))
         == if t in w.reliable then multiset(rule)[w.reliable[t]] else 0
  {
    var acts := seq(|rule|, i requires 0 <= i < |rule| => Produce(rule[i]));
    if rule != [] {
      var rest := rule[1..];
      assert acts[1..] == seq(|rest|, i requires 0 <= i < |rest| => Produce(rest[i]));
      OwedForRule(w, t, rest);
      assert rule == [rule[0]] + rest;
      assert w.Acks(rule[0], t) <==> t in w.reliable && w.reliable[t] == rule[0];
    }
  }

  /** The budget in the configuration's own terms. */
  lemma {:induction false} BudgetIs(w: Wiring, e: Entry)
    requires w.Wired()
    ensures Budget(w, e) ==
            match e.origin
            case Message(Parsed) => if e.rec.txType in w.reliable then Designated(w, e.rec.txType) else 1
            case Message(UnknownType) => if e.rec.txType in w.reliable then 1 + Designated(w, e.rec.txType) else 2
            case Message(_) => 1
            case RateLimited => 0
            case _ => Designated(w, e.rec.txType)
  {
    var t := e.rec.txType;
    var ds := Dispatches(w, t);
    if t in w.rules {
      var rule := w.rules[t];
      OwedForRule(w, t, rule);
      assert ds == seq(|rule|, i requires 0 <= i < |rule| => Produce(rule[i]));
    }
    assert forall r :: Owed(w, t, [Respond(r)]) == 1 by {
      forall r ensures Owed(w, t, [Respond(r)]) == 1 {
        assert [Respond(r)][1..] == [];
      }
    }
    OwedConcat(w, t, ds, if t in w.reliable then [] else [Respond(Ack)]);
    OwedConcat(w, t, [Respond(Ack)], Deliver(w, t));
  }
}
