/** Concrete runs: what the protocol can do, and where its guarantees end. */
module ProtocolRuns {
  import opened Wrappers
  import opened Telemetry
  import opened Connections
  import opened Protocol
  import opened ProtocolInvariants
  import opened ProtocolTheorems
  import opened ProtocolRouting

  lemma {:induction false} Extend(w: Wiring, steps: seq<Step>, s: State, step: Step, s': State)
    requires Run(w, steps) == Some(s) && Enabled(s, step) && Next(w, s, step) == s'
    ensures Run(w, steps + [step]) == Some(s')
  {
    RunOneMore(w, steps, step);
  }

  function Serving(uuid: string): Conn {
    NewConn(uuid).(pc := Reading, writer := Waiting)
  }

  /** A new connection gets as far as its read loop; its CONNECTED record could not be built. */
  lemma {:induction false} Opens(w: Wiring, steps: seq<Step>, s: State, uuid: string)
    returns (steps': seq<Step>, s': State)
    requires Run(w, steps) == Some(s) && s.shutdown == Up
    ensures Run(w, steps') == Some(s')
    ensures s' == s.(conns := s.conns + [Serving(uuid)], registry := s.registry.Add(uuid, |s.conns|))
  {
    var c := |s.conns|;
    var s1 := s.(conns := s.conns + [NewConn(uuid)]);
    Extend(w, steps, s, Connect(uuid), s1);
    var s2 := s1.(conns := s1.conns[c := s1.conns[c].(pc := Registered)], registry := s.registry.Add(uuid, c));
    Extend(w, steps + [Connect(uuid)], s1, Local(c, Register), s2);
    s' := s2.(conns := s2.conns[c := Serving(uuid)]);
    Extend(w, steps + [Connect(uuid)] + [Local(c, Register)], s2, Local(c, Announce(false)), s');
    steps' := steps + [Connect(uuid)] + [Local(c, Register)] + [Local(c, Announce(false))];
    assert s'.conns == s.conns + [Serving(uuid)];
  }

  /** One move of the teardown, seen by nobody else. */
  lemma {:induction false} Hop(w: Wiring, steps: seq<Step>, s: State, c: nat, m: Move, k: Conn)
    returns (steps': seq<Step>)
    requires Run(w, steps) == Some(s) && c < |s.conns|
    requires
      match m
      case ReadEnd(err) => s.conns[c].pc == Reading && err == None && k == s.conns[c].(pc := Closing)
      case CloseSocket(err) => s.conns[c].pc == Closing && err == None && k == s.conns[c].(pc := Closed)
      case CloseStop =>
        s.conns[c].pc == Closed && k == s.conns[c].(pc := Stopped, stopCloses := s.conns[c].stopCloses + 1)
      case _ => false
    ensures Run(w, steps') == Some(s.(conns := s.conns[c := k]))
  {
    steps' := steps + [Local(c, m)];
    Extend(w, steps, s, Local(c, m), s.(conns := s.conns[c := k]));
  }

  /** The read loop ends and the socket is closed. */
  lemma {:induction false} Closes(w: Wiring, steps: seq<Step>, s: State, c: nat) returns (steps': seq<Step>)
    requires Run(w, steps) == Some(s) && c < |s.conns| && s.conns[c].pc == Reading
    ensures Run(w, steps') == Some(s.(conns := s.conns[c := s.conns[c].(pc := Closed)]))
  {
    var k1, k2 := s.conns[c].(pc := Closing), s.conns[c].(pc := Closed);
    steps' := Hop(w, steps, s, c, ReadEnd(None), k1);
    var s1 := s.(conns := s.conns[c := k1]);
    steps' := Hop(w, steps', s1, c, CloseSocket(None), k2);
    assert s1.conns[c := k2] == s.conns[c := k2];
  }

  /** The whole deferred teardown. */
  lemma {:induction false} Stops(w: Wiring, steps: seq<Step>, s: State, c: nat) returns (steps': seq<Step>, s': State)
    requires Run(w, steps) == Some(s) && c < |s.conns| && s.conns[c].pc == Reading
    ensures Run(w, steps') == Some(s')
    ensures s' == s.(conns := s.conns[c := s.conns[c].(pc := Stopped, stopCloses := s.conns[c].stopCloses + 1)])
  {
    var k := s.conns[c].(pc := Stopped, stopCloses := s.conns[c].stopCloses + 1);
    steps' := Closes(w, steps, s, c);
    var s1 := s.(conns := s.conns[c := s.conns[c].(pc := Closed)]);
    steps' := Hop(w, steps', s1, c, CloseStop, k);
    s' := s.(conns := s.conns[c := k]);
    assert s1.conns[c := k] == s'.conns;
  }

  /** A reading connection is closed and deregisters. */
  lemma {:induction false} Leaves(w: Wiring, steps: seq<Step>, s: State, c: nat) returns (steps': seq<Step>, s': State)
    requires Run(w, steps) == Some(s) && c < |s.conns| && s.conns[c].pc == Reading
    ensures Run(w, steps') == Some(s')
    ensures s' == s.(conns := s.conns[c := s.conns[c].(pc := Deregistered, stopCloses := s.conns[c].stopCloses + 1)],
                     registry := s.registry.Remove(s.conns[c].uuid))
  {
    var s1;
    steps', s1 := Stops(w, steps, s, c);
    s' := LeavesRegistry(w, steps', s1, c);
    steps' := steps' + [Local(c, Deregister)];
    assert s'.conns == s.conns[c := s'.conns[c]];
  }

  lemma {:induction false} LeavesRegistry(w: Wiring, steps: seq<Step>, s: State, c: nat) returns (s': State)
    requires Run(w, steps) == Some(s) && c < |s.conns| && s.conns[c].pc == Stopped
    ensures Run(w, steps + [Local(c, Deregister)]) == Some(s')
    ensures s' == s.(conns := s.conns[c := s.conns[c].(pc := Deregistered)],
                     registry := s.registry.Remove(s.conns[c].uuid))
  {
    s' := s.(conns := s.conns[c := s.conns[c].(pc := Deregistered)], registry := s.registry.Remove(s.conns[c].uuid));
    Extend(w, steps, s, Local(c, Deregister), s');
  }

  /** Two sockets under one UUID: when the first leaves, the second is live but out of reach. */
  lemma {:induction false} CollisionHidesLiveSocket(w: Wiring) returns (steps: seq<Step>, s: State)
    ensures Run(w, steps) == Some(s)
    ensures LiveSet(s.conns) == {1} && DistinctLive(s.conns) && s.registry.counter == 1 && s.registry.sockets == map[]
  {
    var s1, s2;
    steps, s1 := Opens(w, [], Init, "u");
    steps, s2 := Opens(w, steps, s1, "u");
    steps, s := Leaves(w, steps, s2, 0);
    assert s.registry.sockets == map[];
  }

  /** A synchronous producer, alone in the rule of a type it acks, stores one record. */
  ghost predicate StoresAlone(w: Wiring, t: TxType, d: Dispatcher) {
    d != Kafka && t in w.rules && w.rules[t] == [d] && t in w.reliable && w.Acks(d, t)
  }

  /** The read loop of `c` right after reading a record of such a type. */
  function Handling(s: State, c: nat, t: TxType, acts: seq<Action>): Conn
    requires c < |s.conns|
  {
    s.conns[c].(pc := Running(RecordOf(s.conns[c], c, |s.past.entries|, t), acts, Phase.Serving))
  }

  lemma {:induction false} ReadsOne(w: Wiring, steps: seq<Step>, s: State, c: nat, t: TxType, d: Dispatcher)
    returns (s': State)
    requires Run(w, steps) == Some(s) && c < |s.conns| && s.conns[c].pc == Reading && StoresAlone(w, t, d)
    ensures Run(w, steps + [Local(c, Read(Parsed, t))]) == Some(s')
    ensures s'.(past := s.past) == s.(conns := s.conns[c := Handling(s, c, t, [Produce(d)])])
  {
    assert Program(w, Parsed, t) == [Produce(d)];
    s' := Next(w, s, Local(c, Read(Parsed, t)));
    Extend(w, steps, s, Local(c, Read(Parsed, t)), s');
  }

  lemma {:induction false} StoresOne(w: Wiring, steps: seq<Step>, s: State, c: nat, rec: Record, d: Dispatcher)
    returns (s': State)
    requires Run(w, steps) == Some(s) && c < |s.conns|
    requires s.conns[c].pc == Running(rec, [Produce(d)], Phase.Serving) && StoresAlone(w, rec.txType, d)
    ensures Run(w, steps + [Local(c, Publish(true))]) == Some(s')
    ensures
      var k := s.conns[c].(pc := Running(rec, [PushAck], Phase.Serving),
                           trace := s.conns[c].trace + [Dispatch(d, rec.id)]);
      s'.(past := s.past) == s.(conns := s.conns[c := k])
  {
    assert [Produce(d)][1..] == [] && [PushAck] + [] == [PushAck];
    s' := Next(w, s, Local(c, Publish(true)));
    Extend(w, steps, s, Local(c, Publish(true)), s');
  }

  lemma {:induction false} HandsOver(w: Wiring, steps: seq<Step>, s: State, c: nat, rec: Record)
    returns (steps': seq<Step>, s': State)
    requires Run(w, steps) == Some(s) && c < |s.conns| && s.handler == Free
    requires s.conns[c].pc == Running(rec, [PushAck], Phase.Serving)
    ensures Run(w, steps') == Some(s')
    ensures s'.(past := s.past) == s.(conns := s.conns[c := s.conns[c].(pc := Reading)], handler := Holding(rec))
  {
    assert [PushAck][1..] == [];
    var s1 := Next(w, s, Local(c, Push));
    Extend(w, steps, s, Local(c, Push), s1);
    assert s1.conns == s.conns[c := s.conns[c].(pc := Running(rec, [], Phase.Serving))];
    s' := s1.(conns := s.conns[c := s.conns[c].(pc := Reading)]);
    assert s1.conns[c := s.conns[c].(pc := Reading)] == s'.conns;
    FinishesServing(w, steps + [Local(c, Push)], s1, c);
    steps' := steps + [Local(c, Push)] + [Local(c, Finish)];
  }

  lemma {:induction false} FinishesServing(w: Wiring, steps: seq<Step>, s: State, c: nat)
    requires Run(w, steps) == Some(s) && c < |s.conns|
    requires s.conns[c].pc.Running? && s.conns[c].pc.acts == [] && s.conns[c].pc.phase == Phase.Serving
    ensures Run(w, steps + [Local(c, Finish)]) == Some(s.(conns := s.conns[c := s.conns[c].(pc := Reading)]))
  {
    Extend(w, steps, s, Local(c, Finish), s.(conns := s.conns[c := s.conns[c].(pc := Reading)]));
  }

  /** A record is stored and taken by the ack loop while its connection goes away. */
  lemma {:induction false} StoredAndGone(w: Wiring, t: TxType, d: Dispatcher) returns (steps: seq<Step>, s: State)
    requires StoresAlone(w, t, d)
    ensures Run(w, steps) == Some(s)
    ensures s.handler == Holding(Record(0, 0, "u", t, true)) && s.shutdown == Up
    ensures |s.conns| == 1 && s.conns[0].pc == Deregistered
  {
    var s1, s2, s3, s4;
    steps, s1 := Opens(w, [], Init, "u");
    s2 := ReadsOne(w, steps, s1, 0, t, d);
    steps := steps + [Local(0, Read(Parsed, t))];
    var rec := Record(0, 0, "u", t, true);
    s3 := StoresOne(w, steps, s2, 0, rec, d);
    steps := steps + [Local(0, Publish(true))];
    steps, s4 := HandsOver(w, steps, s3, 0, rec);
    steps, s := Leaves(w, steps, s4, 0);
  }

  /** A record stored for a connection that then reconnects under its UUID is acked on the new socket. */
  lemma {:induction false} ReconnectGetsTheAck(w: Wiring, t: TxType, d: Dispatcher) returns (steps: seq<Step>, s: State)
    requires StoresAlone(w, t, d)
    ensures Run(w, steps) == Some(s)
    ensures DistinctLive(s.conns) && s.handler.Replying? && s.handler.rec.conn == 0 && s.handler.sock == 1
    ensures Enabled(s, ReplyFromServer) && Next(w, s, ReplyFromServer).past.log == s.past.log + [Response(1, 0, Ack)]
  {
    var s1;
    steps, s1 := StoredAndGone(w, t, d);
    steps, s := Reconnects(w, steps, s1, s1.handler.rec);
  }

  /** The only connection is gone when a new one arrives under the UUID of the record in hand. */
  lemma {:induction false} Reconnects(w: Wiring, steps: seq<Step>, s: State, rec: Record)
    returns (steps': seq<Step>, s': State)
    requires Run(w, steps) == Some(s) && s.handler == Holding(rec) && rec.hasSerializer && s.shutdown == Up
    requires |s.conns| == 1 && s.conns[0].pc == Deregistered
    ensures Run(w, steps') == Some(s')
    ensures DistinctLive(s'.conns) && s'.handler == Replying(rec, 1) && |s'.conns| == 2 && s'.conns[1].buffer == []
  {
    var s1;
    steps', s1 := Opens(w, steps, s, rec.socketId);
    OnlyOneLive(s1.conns);
    steps', s' := FindsSocket(w, steps', s1, 1);
  }

  lemma {:induction false} OnlyOneLive(conns: seq<Conn>)
    requires |conns| == 2 && !Live(conns[0].pc)
    ensures DistinctLive(conns)
  {
  }

  lemma {:induction false} FindsSocket(w: Wiring, steps: seq<Step>, s: State, sock: nat)
    returns (steps': seq<Step>, s': State)
    requires Run(w, steps) == Some(s) && s.handler.Holding? && s.handler.rec.hasSerializer
    requires s.registry.Get(s.handler.rec.socketId) == Some(sock)
    ensures Run(w, steps') == Some(s') && s'.conns == s.conns && s'.handler == Replying(s.handler.rec, sock)
  {
    s' := LookedUp(s);
    steps' := steps + [Lookup];
    Extend(w, steps, s, Lookup, s');
  }
}
