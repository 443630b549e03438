/** The invariants of the whole system, each kept by every step. */
module ProtocolInvariants {
  import opened Wrappers
  import opened Telemetry
  import opened Connections
  import opened ConnectionInvariants
  import opened Protocol

  /** What an event of connection `c` does to the history, whatever else it changes. */
  lemma {:induction false} AbsorbExtends(w: Wiring, s: State, c: nat, e: Event)
    requires c < |s.conns|
    ensures
      var s' := Absorb(w, s, c, e);
      && s'.conns == s.conns
      && s'.shutdown == s.shutdown
      && s'.past.entries == s.past.entries + EntriesAdded(e)
      && s'.past.log == s.past.log + ResponsesAdded(e)
      && s'.past.stored == s.past.stored + StoredAdded(e)
  {
    assert s.past.entries + [] == s.past.entries;
    assert s.past.log + [] == s.past.log;
    assert s.past.stored + {} == s.past.stored;
  }

  /** A connection's step in terms of its move and its event. */
  lemma {:induction false} LocalExtends(w: Wiring, s: State, c: nat, m: Move)
    requires Enabled(s, Local(c, m))
    ensures
      var s', e := Next(w, s, Local(c, m)), Emitted(w, s, c, m);
      && s'.conns == s.conns[c := Moved(w, s.conns[c], c, |s.past.entries|, m)]
      && s'.past.entries == s.past.entries + EntriesAdded(e)
      && s'.past.log == s.past.log + ResponsesAdded(e)
      && s'.past.stored == s.past.stored + StoredAdded(e)
  {
    AbsorbExtends(w, Acted(w, s, c, m), c, Emitted(w, s, c, m));
  }

  // ----- Records -----

  ghost predicate EntriesOk(s: State) {
    forall i :: 0 <= i < |s.past.entries| ==>
      var rec := s.past.entries[i].rec;
      && rec.id == i && rec.conn < |s.conns| && rec.socketId == s.conns[rec.conn].uuid && rec.hasSerializer
      && (s.past.entries[i].origin.Connected? || s.past.entries[i].origin.Disconnected? ==> rec.txType == CONNECTIVITY)
  }

  lemma {:induction false} StepKeepsEntries(w: Wiring, s: State, step: Step)
    requires Enabled(s, step) && EntriesOk(s)
    ensures EntriesOk(Next(w, s, step))
  {
    if step.Local? { LocalExtends(w, s, step.c, step.move); }
  }

  // ----- Connections -----

  ghost predicate ConnOk(w: Wiring, k: Conn, c: nat, h: History) {
    && OwnRecord(k, c, h.entries)
    && StopOk(k)
    && Fifo(k, c, h.log)
    && Traced(w, k, c, h.entries)
    && OrderOk(k.pc, c, h.entries)
    && ActsOk(w, k.pc, h.entries, h.stored)
  }

  ghost predicate ConnsOk(w: Wiring, s: State) {
    forall c :: 0 <= c < |s.conns| ==> ConnOk(w, s.conns[c], c, s.past)
  }

  /** An event of another connection leaves a connection as it was. */
  lemma {:induction false} OthersKeepConn(w: Wiring, k: Conn, c: nat, h: History, h': History, e: Event)
    requires ConnOk(w, k, c, h)
    requires h'.entries == h.entries + EntriesAdded(e) && h'.log == h.log + ResponsesAdded(e) && h.stored <= h'.stored
    requires e.Created? ==> e.rec.conn != c
    requires e.Answered? ==> e.response.sock != c
    ensures ConnOk(w, k, c, h')
  {
    if e.Created? {
      WantedByOneMore(w, h.entries, Entry(e.rec, e.origin), c);
      OthersKeepOrder(k.pc, c, h.entries, Entry(e.rec, e.origin));
      assert h'.log == h.log;
    } else {
      assert h'.entries == h.entries;
      if e.Answered? { ForSockOneMore(h.log, e.response, c); } else { assert h'.log == h.log; }
    }
    ActsOkMonotone(w, k.pc, h.entries, h'.entries, h.stored, h'.stored);
  }

  lemma {:induction false} ActsOkMonotone(w: Wiring, pc: Pc, es: seq<Entry>, es': seq<Entry>,
                                          stored: set<Dispatch>, stored': set<Dispatch>)
    requires ActsOk(w, pc, es, stored) && es <= es' && stored <= stored'
    ensures ActsOk(w, pc, es', stored')
  {
    if pc.Running? {
      forall a | a in pc.acts ensures ActOk(w, es'[pc.rec.id], stored', a) {
        assert ActOk(w, es[pc.rec.id], stored, a);
      }
    }
  }

  lemma {:induction false} MoveKeepsConn(w: Wiring, k: Conn, c: nat, h: History, h': History, m: Move)
    requires w.Wired() && CanMove(k, m) && ConnOk(w, k, c, h)
    requires
      var e := EventOf(w, k, c, |h.entries|, m);
      && h'.entries == h.entries + EntriesAdded(e)
      && h'.log == h.log + ResponsesAdded(e)
      && h'.stored == h.stored + StoredAdded(e)
    ensures ConnOk(w, Moved(w, k, c, |h.entries|, m), c, h')
  {
    MoveKeepsOwnRecord(w, k, c, m, h.entries);
    MoveKeepsStop(w, k, c, |h.entries|, m);
    MoveKeepsFifo(w, k, c, |h.entries|, m, h.log);
    MoveKeepsTrace(w, k, c, m, h.entries);
    MoveKeepsOrder(w, k, c, m, h.entries);
    MoveKeepsActs(w, k, c, m, h.entries, h.stored);
  }

  lemma {:induction false} LocalKeepsConns(w: Wiring, s: State, c: nat, m: Move)
    requires w.Wired() && Enabled(s, Local(c, m)) && ConnsOk(w, s)
    ensures ConnsOk(w, Next(w, s, Local(c, m)))
  {
    var s' := Next(w, s, Local(c, m));
    LocalExtends(w, s, c, m);
    forall o | 0 <= o < |s'.conns| ensures ConnOk(w, s'.conns[o], o, s'.past) {
      if o == c {
        MoveKeepsConn(w, s.conns[c], c, s.past, s'.past, m);
      } else {
        OthersKeepConn(w, s.conns[o], o, s.past, s'.past, Emitted(w, s, c, m));
      }
    }
  }

  /** A connection nobody has mentioned yet starts with an empty past. */
  lemma {:induction false} NewConnOk(w: Wiring, uuid: string, c: nat, h: History)
    requires forall i :: 0 <= i < |h.entries| ==> h.entries[i].rec.conn < c
    requires forall i :: 0 <= i < |h.log| ==> h.log[i].sock < c
    ensures ConnOk(w, NewConn(uuid), c, h)
  {
    NothingOf(w, h.entries, c);
    NothingFor(h.log, c);
  }

  lemma {:induction false} NothingOf(w: Wiring, es: seq<Entry>, c: nat)
    requires forall i :: 0 <= i < |es| ==> es[i].rec.conn < c
    ensures WantedBy(w, es, c) == []
  {
    if es != [] { NothingOf(w, es[..|es| - 1], c); }
  }

  lemma {:induction false} NothingFor(log: seq<Response>, c: nat)
    requires forall i :: 0 <= i < |log| ==> log[i].sock < c
    ensures ForSock(log, c) == []
  {
    if log != [] { NothingFor(log[..|log| - 1], c); }
  }

  lemma {:induction false} ReplyKeepsConns(w: Wiring, s: State)
    requires Enabled(s, ReplyFromServer) && ConnsOk(w, s)
    ensures ConnsOk(w, Next(w, s, ReplyFromServer))
  {
    var s' := Next(w, s, ReplyFromServer);
    var sock := s.handler.sock;
    var r := Response(sock, s.handler.rec.id, Ack);
    forall o | 0 <= o < |s'.conns| ensures ConnOk(w, s'.conns[o], o, s'.past) {
      ForSockOneMore(s.past.log, r, o);
      if o == sock {
        assert s'.conns[o].taken + s'.conns[o].buffer == (s.conns[o].taken + s.conns[o].buffer) + [r];
      }
    }
  }

  lemma {:induction false} StepKeepsConns(w: Wiring, s: State, step: Step)
    requires w.Wired() && Enabled(s, step) && ConnsOk(w, s) && EntriesOk(s) && LogOk(w, s)
    ensures ConnsOk(w, Next(w, s, step))
  {
    match step
    case Local(c, m) => LocalKeepsConns(w, s, c, m);
    case ReplyFromServer => ReplyKeepsConns(w, s);
    case Connect(uuid) => ConnectKeepsConns(w, s, uuid);
    case _ => QuietKeepsConns(w, s, Next(w, s, step));
  }

  lemma {:induction false} ConnectKeepsConns(w: Wiring, s: State, uuid: string)
    requires ConnsOk(w, s) && EntriesOk(s) && LogOk(w, s)
    ensures ConnsOk(w, s.(conns := s.conns + [NewConn(uuid)]))
  {
    var s' := s.(conns := s.conns + [NewConn(uuid)]);
    forall c | 0 <= c < |s'.conns| ensures ConnOk(w, s'.conns[c], c, s'.past) {
      if c == |s.conns| {
        NextConnOk(w, s, uuid);
      } else {
        assert ConnOk(w, s.conns[c], c, s.past);
      }
    }
  }

  lemma {:induction false} NextConnOk(w: Wiring, s: State, uuid: string)
    requires EntriesOk(s) && LogOk(w, s)
    ensures ConnOk(w, NewConn(uuid), |s.conns|, s.past)
  {
    NobodyKnowsTheNext(w, s);
    NewConnOk(w, uuid, |s.conns|, s.past);
  }

  lemma {:induction false} NobodyKnowsTheNext(w: Wiring, s: State)
    requires EntriesOk(s) && LogOk(w, s)
    ensures forall i :: 0 <= i < |s.past.entries| ==> s.past.entries[i].rec.conn < |s.conns|
    ensures forall i :: 0 <= i < |s.past.log| ==> s.past.log[i].sock < |s.conns|
  {
    forall i | 0 <= i < |s.past.log| ensures s.past.log[i].sock < |s.conns| {
      assert ResponseOk(w, s.conns, s.past, s.past.log[i]);
    }
  }

  /** Steps of the server's own goroutines only add producer successes to what connections rely on. */
  lemma {:induction false} QuietKeepsConns(w: Wiring, s: State, s': State)
    requires ConnsOk(w, s) && s'.conns == s.conns
    requires s'.past.entries == s.past.entries && s'.past.log == s.past.log && s.past.stored <= s'.past.stored
    ensures ConnsOk(w, s')
  {
    forall c | 0 <= c < |s'.conns| ensures ConnOk(w, s'.conns[c], c, s'.past) {
      ActsOkMonotone(w, s.conns[c].pc, s.past.entries, s'.past.entries, s.past.stored, s'.past.stored);
    }
  }

  // ----- Responses -----

  /** A response is the read loop's own, or a reliable ack whose producer has reported success. */
  predicate ResponseOk(w: Wiring, conns: seq<Conn>, h: History, r: Response) {
    && r.id < |h.entries|
    && r.sock < |conns|
    && var e := h.entries[r.id];
       || (MayReply(w, e, r.reply) && r.sock == e.rec.conn)
       || (r.reply == Ack && Earned(w, h.stored, e.rec) && conns[r.sock].uuid == e.rec.socketId)
  }

  ghost predicate LogOk(w: Wiring, s: State) {
    forall i :: 0 <= i < |s.past.log| ==> ResponseOk(w, s.conns, s.past, s.past.log[i])
  }

  /** A record a producer may have to ack. */
  predicate MayWait(w: Wiring, e: Entry) {
    IsDispatched(e.origin) && e.rec.txType in w.reliable
  }

  /** Only dispatched records are stored, and only reliable ones among them are lost. */
  ghost predicate HistoryOk(w: Wiring, h: History) {
    && (forall d :: d in h.stored ==> d.id < |h.entries| && IsDispatched(h.entries[d.id].origin))
    && (forall n :: n in h.failed ==> n < |h.entries| && MayWait(w, h.entries[n]))
    && (forall n :: n in h.misses ==> n < |h.entries| && MayWait(w, h.entries[n]))
  }

  lemma {:induction false} StepKeepsHistory(w: Wiring, s: State, step: Step)
    requires w.Wired() && Enabled(s, step) && ConnsOk(w, s) && PipelineOk(w, s) && HistoryOk(w, s.past)
    ensures HistoryOk(w, Next(w, s, step).past)
  {
    match step
    case Local(c, m) =>
      var k := s.conns[c];
      assert ConnOk(w, k, c, s.past);
      if m.Publish? { assert k.pc.acts[0] in k.pc.acts; }
      EventKeepsHistory(w, Acted(w, s, c, m), c, Emitted(w, s, c, m));
    case Delivery(rec, ok) => ProducerKeepsHistory(w, s.past, Kafka, rec, ok);
    case Lookup => LookupKeepsHistory(w, s);
    case _ => assert Next(w, s, step).past.(log := s.past.log, received := s.past.received) == s.past;
  }

  lemma {:induction false} ProducerKeepsHistory(w: Wiring, h: History, d: Dispatcher, rec: Record, ok: bool)
    requires w.Wired() && HistoryOk(w, h) && Is(h.entries, rec) && IsDispatched(h.entries[rec.id].origin)
    ensures HistoryOk(w, if ok then Stored(h, d, rec) else Failed(h, rec.id, w.Acks(d, rec.txType)))
  {
    assert w.Acks(d, rec.txType) ==> rec.txType in w.reliable;
  }

  lemma {:induction false} LookupKeepsHistory(w: Wiring, s: State)
    requires s.handler.Holding? && PipelineOk(w, s) && HistoryOk(w, s.past)
    ensures HistoryOk(w, LookedUp(s).past)
  {
    LookupMovesRecord(s);
  }

  lemma {:induction false} EventKeepsHistory(w: Wiring, s: State, c: nat, e: Event)
    requires w.Wired() && c < |s.conns| && HistoryOk(w, s.past)
    requires e.Called? ==> Is(s.past.entries, e.rec) && IsDispatched(s.past.entries[e.rec.id].origin)
    ensures HistoryOk(w, Absorb(w, s, c, e).past)
  {
    if e.Called? { ProducerKeepsHistory(w, s.past, e.to, e.rec, e.ok); }
  }

  /** Records between a producer's success and the ack loop's reply. */
  function InHand(h: Handler): Option<Record> {
    match h
    case Free => None
    case Holding(rec) => Some(rec)
    case Replying(rec, _) => Some(rec)
  }

  ghost predicate PipelineOk(w: Wiring, s: State) {
    var h := s.past;
    && (forall rec :: rec in s.inflight ==> Is(h.entries, rec) && IsDispatched(h.entries[rec.id].origin))
    && (s.delivering.Some? ==> Is(h.entries, s.delivering.value) && Earned(w, h.stored, s.delivering.value))
    && (InHand(s.handler).Some? ==>
          Is(h.entries, InHand(s.handler).value) && Earned(w, h.stored, InHand(s.handler).value))
    && (forall i :: 0 <= i < |h.received| ==>
          h.received[i] < |h.entries| && Earned(w, h.stored, h.entries[h.received[i]].rec))
  }

  lemma {:induction false} StepKeepsPipeline(w: Wiring, s: State, step: Step)
    requires w.Wired() && Enabled(s, step) && EntriesOk(s) && ConnsOk(w, s) && PipelineOk(w, s)
    ensures PipelineOk(w, Next(w, s, step))
  {
    match step
    case Local(c, m) =>
      assert ConnOk(w, s.conns[c], c, s.past);
      LocalKeepsPipeline(w, s, c, m);
    case Delivery(rec, ok) => DeliveryKeepsPipeline(w, s, rec, ok);
    case Lookup => LookupKeepsPipeline(w, s);
    case PushFromKafka => ReceiveKeepsPipeline(w, s.(delivering := None), s.delivering.value);
    case _ => HandsOffKeepsPipeline(w, s, Next(w, s, step));
  }

  lemma {:induction false} ReceiveKeepsPipeline(w: Wiring, s: State, rec: Record)
    requires PipelineOk(w, s) && Is(s.past.entries, rec) && Earned(w, s.past.stored, rec)
    ensures PipelineOk(w, Receive(s, rec))
  {
  }

  lemma {:induction false} HandsOffKeepsPipeline(w: Wiring, s: State, s': State)
    requires PipelineOk(w, s) && s'.past.(log := s.past.log) == s.past
    requires s'.inflight == s.inflight && s'.delivering == s.delivering
    requires s'.handler == s.handler || s'.handler == Free
    ensures PipelineOk(w, s')
  {
  }

  lemma {:induction false} DeliveryKeepsPipeline(w: Wiring, s: State, rec: Record, ok: bool)
    requires w.Wired() && rec in s.inflight && PipelineOk(w, s)
    ensures PipelineOk(w, Delivered(w, s, rec, ok))
  {
    assert w.Acks(Kafka, rec.txType) <==> rec.txType in w.reliable && w.reliable[rec.txType] == Kafka;
  }

  lemma {:induction false} LookupKeepsPipeline(w: Wiring, s: State)
    requires s.handler.Holding? && PipelineOk(w, s)
    ensures PipelineOk(w, LookedUp(s))
  {
    LookupMovesRecord(s);
  }

  /** A lookup changes the handler, who keeps the record or lets it go, and two counters. */
  lemma {:induction false} LookupMovesRecord(s: State)
    requires s.handler.Holding?
    ensures
      var s' := LookedUp(s);
      && s'.inflight == s.inflight && s'.delivering == s.delivering
      && (InHand(s'.handler) == None || InHand(s'.handler) == InHand(s.handler))
      && s'.past.entries == s.past.entries && s'.past.stored == s.past.stored
      && s'.past.received == s.past.received && s'.past.failed == s.past.failed
      && (s'.past.misses == s.past.misses || s'.past.misses == s.past.misses + multiset{s.handler.rec.id})
  {
  }

  lemma {:induction false} LocalKeepsPipeline(w: Wiring, s: State, c: nat, m: Move)
    requires w.Wired() && Enabled(s, Local(c, m)) && PipelineOk(w, s)
    requires OwnRecord(s.conns[c], c, s.past.entries) && ActsOk(w, s.conns[c].pc, s.past.entries, s.past.stored)
    ensures PipelineOk(w, Next(w, s, Local(c, m)))
  {
    var pc := s.conns[c].pc;
    if m.Push? || m.Publish? { assert pc.acts[0] in pc.acts; }
    EventKeepsPipeline(w, Acted(w, s, c, m), c, Emitted(w, s, c, m));
  }

  lemma {:induction false} EventKeepsPipeline(w: Wiring, s: State, c: nat, e: Event)
    requires w.Wired() && c < |s.conns| && PipelineOk(w, s)
    requires e.Called? ==> Is(s.past.entries, e.rec) && IsDispatched(s.past.entries[e.rec.id].origin)
    requires e.Pushed? ==> Is(s.past.entries, e.rec) && Earned(w, s.past.stored, e.rec)
    ensures PipelineOk(w, Absorb(w, s, c, e))
  {
    match e
    case Created(rec, origin) =>
    case Called(d, rec, ok) => CallKeepsPipeline(w, s, c, e);
    case Pushed(rec) => ReceiveKeepsPipeline(w, s, rec);
    case _ => HandsOffKeepsPipeline(w, s, Absorb(w, s, c, e));
  }

  lemma {:induction false} CallKeepsPipeline(w: Wiring, s: State, c: nat, e: Event)
    requires c < |s.conns| && PipelineOk(w, s)
    requires e.Called? && Is(s.past.entries, e.rec) && IsDispatched(s.past.entries[e.rec.id].origin)
    ensures PipelineOk(w, Absorb(w, s, c, e))
  {
    if e.ok && e.to == Kafka {
      forall rec | rec in s.inflight + multiset{e.rec}
        ensures Is(s.past.entries, rec) && IsDispatched(s.past.entries[rec.id].origin)
      {
        assert rec == e.rec || rec in s.inflight;
      }
    }
  }

  lemma {:induction false} StepKeepsLog(w: Wiring, s: State, step: Step)
    requires w.Wired() && Enabled(s, step) && ConnsOk(w, s) && PipelineOk(w, s) && LogOk(w, s) && RoutedOk(s)
    ensures LogOk(w, Next(w, s, step))
  {
    if step.Local? {
      assert ConnOk(w, s.conns[step.c], step.c, s.past);
      LocalKeepsLog(w, s, step.c, step.move);
    } else {
      OthersKeepLog(w, s, step);
    }
  }

  lemma {:induction false} OthersKeepLog(w: Wiring, s: State, step: Step)
    requires Enabled(s, step) && !step.Local? && PipelineOk(w, s) && LogOk(w, s) && RoutedOk(s)
    ensures LogOk(w, Next(w, s, step))
  {
    if step.ReplyFromServer? {
      LogGrows(w, s, Next(w, s, step), [Response(s.handler.sock, s.handler.rec.id, Ack)]);
    } else {
      OthersKeepResponses(w, s, step);
      LogGrows(w, s, Next(w, s, step), []);
    }
  }

  /** Apart from connections and the ack loop nobody responds. */
  lemma {:induction false} OthersKeepResponses(w: Wiring, s: State, step: Step)
    requires Enabled(s, step) && !step.Local? && !step.ReplyFromServer?
    ensures
      var s' := Next(w, s, step);
      && s'.past.log == s.past.log
      && s'.past.entries == s.past.entries
      && s.past.stored <= s'.past.stored
      && s.conns <= s'.conns
  {
  }

  lemma {:induction false} LocalKeepsLog(w: Wiring, s: State, c: nat, m: Move)
    requires Enabled(s, Local(c, m)) && LogOk(w, s)
    requires OwnRecord(s.conns[c], c, s.past.entries) && ActsOk(w, s.conns[c].pc, s.past.entries, s.past.stored)
    ensures LogOk(w, Next(w, s, Local(c, m)))
  {
    var pc := s.conns[c].pc;
    LocalExtends(w, s, c, m);
    MoveAndLiveness(w, s.conns[c], c, |s.past.entries|, m);
    if m.Enqueue? { assert pc.acts[0] in pc.acts; }
    LogGrows(w, s, Next(w, s, Local(c, m)), ResponsesAdded(Emitted(w, s, c, m)));
  }

  lemma {:induction false} LogGrows(w: Wiring, s: State, s': State, added: seq<Response>)
    requires LogOk(w, s) && s'.past.log == s.past.log + added
    requires s.past.entries <= s'.past.entries && s.past.stored <= s'.past.stored && |s.conns| <= |s'.conns|
    requires forall c :: 0 <= c < |s.conns| ==> s'.conns[c].uuid == s.conns[c].uuid
    requires forall i :: 0 <= i < |added| ==> ResponseOk(w, s'.conns, s'.past, added[i])
    ensures LogOk(w, s')
  {
    forall i | 0 <= i < |s'.past.log| ensures ResponseOk(w, s'.conns, s'.past, s'.past.log[i]) {
      if i < |s.past.log| {
        assert ResponseOk(w, s.conns, s.past, s.past.log[i]);
      } else {
        assert s'.past.log[i] == added[i - |s.past.log|];
      }
    }
  }

  // ----- The registry -----

  ghost function LiveSet(conns: seq<Conn>): set<nat> {
    set c: nat | c < |conns| && Live(conns[c].pc)
  }

  ghost predicate RegistryOk(s: State) {
    && s.registry.counter == |LiveSet(s.conns)|
    && forall u :: u in s.registry.sockets ==>
         s.registry.sockets[u] in LiveSet(s.conns) && s.conns[s.registry.sockets[u]].uuid == u
  }

  /** The ack loop replies to a socket that carries the record's socket id. */
  ghost predicate RoutedOk(s: State) {
    s.handler.Replying? ==> s.handler.sock < |s.conns| && s.conns[s.handler.sock].uuid == s.handler.rec.socketId
  }

  lemma {:induction false} StepKeepsRegistry(w: Wiring, s: State, step: Step)
    requires Enabled(s, step) && RegistryOk(s)
    ensures RegistryOk(Next(w, s, step))
  {
    if step.Local? {
      LocalKeepsRegistry(w, s, step.c, step.move);
    } else {
      OthersKeepLive(w, s, step);
    }
  }

  lemma {:induction false} OthersKeepLive(w: Wiring, s: State, step: Step)
    requires Enabled(s, step) && !step.Local?
    ensures
      var s' := Next(w, s, step);
      && s'.registry == s.registry
      && LiveSet(s'.conns) == LiveSet(s.conns)
      && |s.conns| <= |s'.conns|
      && forall c :: 0 <= c < |s.conns| ==> s'.conns[c].uuid == s.conns[c].uuid
  {
  }

  lemma {:induction false} LocalKeepsRegistry(w: Wiring, s: State, c: nat, m: Move)
    requires Enabled(s, Local(c, m)) && RegistryOk(s)
    ensures RegistryOk(Next(w, s, Local(c, m)))
  {
    var s1, e := Acted(w, s, c, m), Emitted(w, s, c, m);
    MoveAndLiveness(w, s.conns[c], c, |s.past.entries|, m);
    LiveAfterMove(s.conns, c, s1.conns[c], e);
    EventKeepsRegistry(w, s, s1, c, e);
  }

  /** The live set after one connection has moved. */
  lemma {:induction false} LiveAfterMove(conns: seq<Conn>, c: nat, k': Conn, e: Event)
    requires c < |conns| && Live(k'.pc) == (e.Joined? || (Live(conns[c].pc) && !e.Left?))
    requires (e.Joined? ==> !Live(conns[c].pc)) && (e.Left? ==> Live(conns[c].pc))
    ensures
      var before := LiveSet(conns);
      && LiveSet(conns[c := k']) == (if e.Joined? then before + {c} else if e.Left? then before - {c} else before)
      && (e.Joined? ==> c !in before)
      && (e.Left? ==> c in before)
  {
  }

  lemma {:induction false} EventKeepsRegistry(w: Wiring, s: State, s1: State, c: nat, e: Event)
    requires RegistryOk(s) && c < |s.conns| == |s1.conns| && s1.registry == s.registry
    requires forall o :: 0 <= o < |s.conns| ==> s1.conns[o].uuid == s.conns[o].uuid
    requires
      var before := LiveSet(s.conns);
      && LiveSet(s1.conns) == (if e.Joined? then before + {c} else if e.Left? then before - {c} else before)
      && (e.Joined? ==> c !in before)
      && (e.Left? ==> c in before)
    ensures RegistryOk(Absorb(w, s1, c, e))
  {
    AbsorbExtends(w, s1, c, e);
  }

  /** Only registering and deregistering change whether a connection is live. */
  lemma {:induction false} MoveAndLiveness(w: Wiring, k: Conn, me: nat, id: nat, m: Move)
    requires CanMove(k, m)
    ensures
      var k', e := Moved(w, k, me, id, m), EventOf(w, k, me, id, m);
      && k'.uuid == k.uuid
      && Live(k'.pc) == (e.Joined? || (Live(k.pc) && !e.Left?))
      && (e.Joined? ==> !Live(k.pc))
      && (e.Left? ==> Live(k.pc))
  {
  }

  lemma {:induction false} StepKeepsRouted(w: Wiring, s: State, step: Step)
    requires Enabled(s, step) && RegistryOk(s) && RoutedOk(s)
    ensures RoutedOk(Next(w, s, step))
  {
    if step.Local? {
      var c, id := step.c, |s.past.entries|;
      MoveAndLiveness(w, s.conns[c], c, id, step.move);
    }
  }
}
