/** Registry, routing and shutdown: which sockets the server can find, in every run. */
module ProtocolRouting {
  import opened Telemetry
  import opened Connections
  import opened ConnectionInvariants
  import opened Protocol
  import opened ProtocolInvariants
  import opened ProtocolTheorems

  // ----- The ack pipeline -----

  /**
   * Every record the ack loop took is a hit, a miss or still being looked up, waits for a
   * producer's ack by configuration, and is never a connectivity record.
   */
  lemma {:induction false} PipelineConservation(w: Wiring, steps: seq<Step>)
    requires w.Wired() && Run(w, steps).Some?
    ensures
      var s := Run(w, steps).value;
      && |s.past.received| == s.past.hits + |s.past.misses| + (if s.handler.Holding? then 1 else 0)
      && (forall i :: 0 <= i < |s.past.received| ==>
            s.past.received[i] < |s.past.entries|
            && s.past.entries[s.past.received[i]].rec.txType in w.reliable
            && s.past.entries[s.past.received[i]].rec.txType != CONNECTIVITY)
  {
    RunKeepsInv(w, steps);
  }

  /** Every response sits on a socket that carries the record's socket id. */
  lemma {:induction false} ResponsesAreRouted(w: Wiring, steps: seq<Step>, i: nat)
    requires w.Wired() && Run(w, steps).Some? && i < |Run(w, steps).value.past.log|
    ensures
      var s := Run(w, steps).value;
      var r := s.past.log[i];
      r.id < |s.past.entries| && r.sock < |s.conns| && s.conns[r.sock].uuid == s.past.entries[r.id].rec.socketId
  {
    RunKeepsInv(w, steps);
    var s := Run(w, steps).value;
    assert ResponseOk(w, s.conns, s.past, s.past.log[i]);
  }

  /** No two live sockets share a UUID. */
  ghost predicate DistinctLive(conns: seq<Conn>) {
    forall a, b :: a in LiveSet(conns) && b in LiveSet(conns) && conns[a].uuid == conns[b].uuid ==> a == b
  }

  /**
   * A lookup that hits finds a live socket under the record's socket id. With distinct
   * live UUIDs it is the originating socket exactly when that one is still live: a client
   * that reconnects under its old UUID is answered for the connection before.
   */
  lemma {:induction false} HitIsOriginIffLive(w: Wiring, steps: seq<Step>)
    requires w.Wired() && Run(w, steps).Some? && Enabled(Run(w, steps).value, Lookup)
    requires Next(w, Run(w, steps).value, Lookup).handler.Replying?
    ensures
      var s := Run(w, steps).value;
      var rec, sock := s.handler.rec, Next(w, s, Lookup).handler.sock;
      && sock in LiveSet(s.conns) && s.conns[sock].uuid == rec.socketId
      && (DistinctLive(s.conns) ==> (sock == rec.conn <==> rec.conn in LiveSet(s.conns)))
  {
    RunKeepsInv(w, steps);
    LookupHits(w, Run(w, steps).value);
  }

  lemma {:induction false} LookupHits(w: Wiring, s: State)
    requires EntriesOk(s) && RegistryOk(s) && s.handler.Holding? && Is(s.past.entries, s.handler.rec)
    requires LookedUp(s).handler.Replying?
    ensures
      var rec, sock := s.handler.rec, LookedUp(s).handler.sock;
      && sock in LiveSet(s.conns) && s.conns[sock].uuid == rec.socketId
      && (DistinctLive(s.conns) ==> (sock == rec.conn <==> rec.conn in LiveSet(s.conns)))
  {
  }

  // ----- The registry -----

  /**
   * NumConnectedSockets counts the live sockets, so the guard in DeregisterSocket never
   * fails; the map only ever holds live sockets, each under its own UUID.
   */
  lemma {:induction false} RegistryTellsLive(w: Wiring, steps: seq<Step>)
    requires w.Wired() && Run(w, steps).Some?
    ensures
      var s := Run(w, steps).value;
      && s.registry.counter == |LiveSet(s.conns)|
      && (forall c :: Enabled(s, Local(c, Deregister)) ==> s.registry.counter > 0)
      && (forall u :: u in s.registry.sockets ==>
            s.registry.sockets[u] in LiveSet(s.conns) && s.conns[s.registry.sockets[u]].uuid == u)
      && |s.registry.sockets| <= s.registry.counter
      && (|s.registry.sockets| == s.registry.counter <==> s.registry.sockets.Values == LiveSet(s.conns))
  {
    RunKeepsInv(w, steps);
    RegistryOkTellsLive(Run(w, steps).value);
  }

  lemma {:induction false} RegistryOkTellsLive(s: State)
    requires RegistryOk(s)
    ensures forall c :: Enabled(s, Local(c, Deregister)) ==> s.registry.counter > 0
    ensures |s.registry.sockets| <= s.registry.counter
    ensures |s.registry.sockets| == s.registry.counter <==> s.registry.sockets.Values == LiveSet(s.conns)
  {
    forall c | Enabled(s, Local(c, Deregister)) ensures s.registry.counter > 0 {
      assert c in LiveSet(s.conns);
    }
    ValuesAsManyAsKeys(s.registry.sockets, s.conns);
    SubsetSize(s.registry.sockets.Values, LiveSet(s.conns));
  }

  lemma {:induction false} ValuesAsManyAsKeys(m: map<string, nat>, conns: seq<Conn>)
    requires forall u :: u in m ==> m[u] < |conns| && conns[m[u]].uuid == u
    ensures |m.Values| == |m|
  {
    if m != map[] {
      var u :| u in m;
      var rest := m - {u};
      forall v | v in m.Values ensures v in rest.Values + {m[u]} {
        var x :| x in m && m[x] == v;
        assert x == u || (x in rest && rest[x] == v);
      }
      assert m.Values == rest.Values + {m[u]};
      assert m[u] !in rest.Values;
      assert m.Keys == rest.Keys + {u};
      assert |m| == |rest| + 1 by { assert |m.Keys| == |rest.Keys| + 1; }
      ValuesAsManyAsKeys(rest, conns);
    }
  }

  lemma {:induction false} SubsetSize(a: set<nat>, b: set<nat>)
    requires a <= b
    ensures |a| <= |b| && (|a| == |b| <==> a == b)
  {
    assert b == a + (b - a);
    assert |b| == |a| + |b - a|;
  }

  /** Live UUIDs were distinct in every state of the run. */
  ghost predicate AlwaysDistinct(w: Wiring, steps: seq<Step>)
    requires Run(w, steps).Some?
  {
    DistinctLive(Run(w, steps).value.conns) && (steps != [] ==> AlwaysDistinct(w, steps[..|steps| - 1]))
  }

  ghost predicate Covers(s: State) {
    forall c :: c in LiveSet(s.conns) ==>
      s.conns[c].uuid in s.registry.sockets && s.registry.sockets[s.conns[c].uuid] == c
  }

  /** Without collisions the map is exactly the live set, so CloseAllSockets reaches every socket. */
  lemma {:induction false} CloseAllReachesAll(w: Wiring, steps: seq<Step>)
    requires w.Wired() && Run(w, steps).Some? && AlwaysDistinct(w, steps)
    ensures Covers(Run(w, steps).value)
    ensures Run(w, steps).value.registry.sockets.Values == LiveSet(Run(w, steps).value.conns)
  {
    if steps != [] {
      var before := steps[..|steps| - 1];
      CloseAllReachesAll(w, before);
      RunKeepsInv(w, before);
      StepKeepsCover(w, Run(w, before).value, steps[|steps| - 1]);
    }
    RunKeepsInv(w, steps);
  }

  /** In every state of the run the map held exactly the live sockets. */
  ghost predicate AlwaysExact(w: Wiring, steps: seq<Step>)
    requires Run(w, steps).Some?
  {
    && Run(w, steps).value.registry.sockets.Values == LiveSet(Run(w, steps).value.conns)
    && (steps != [] ==> AlwaysExact(w, steps[..|steps| - 1]))
  }

  /** The map has been exactly the live set throughout if and only if live UUIDs have been distinct throughout. */
  lemma {:induction false} ExactIffDistinct(w: Wiring, steps: seq<Step>)
    requires w.Wired() && Run(w, steps).Some?
    ensures AlwaysExact(w, steps) <==> AlwaysDistinct(w, steps)
  {
    if AlwaysDistinct(w, steps) { CloseAllReachesAll(w, steps); }
    RunKeepsInv(w, steps);
    if AlwaysExact(w, steps) { ExactIsDistinct(Run(w, steps).value); }
    if steps != [] { ExactIffDistinct(w, steps[..|steps| - 1]); }
  }

  lemma {:induction false} ExactIsDistinct(s: State)
    requires RegistryOk(s) && s.registry.sockets.Values == LiveSet(s.conns)
    ensures DistinctLive(s.conns)
  {
    forall c | c in LiveSet(s.conns)
      ensures s.conns[c].uuid in s.registry.sockets && s.registry.sockets[s.conns[c].uuid] == c
    {
      assert c in s.registry.sockets.Values;
    }
  }

  /** No live connection carries this socket id. */
  ghost predicate Nobody(conns: seq<Conn>, uuid: string) {
    forall c :: c in LiveSet(conns) ==> conns[c].uuid != uuid
  }

  /** With distinct live UUIDs a lookup misses exactly if no live connection carries the record's socket id. */
  lemma {:induction false} MissIffNobody(w: Wiring, steps: seq<Step>)
    requires w.Wired() && Run(w, steps).Some? && AlwaysDistinct(w, steps) && Run(w, steps).value.handler.Holding?
    ensures
      var s := Run(w, steps).value;
      var rec, past' := s.handler.rec, LookedUp(s).past;
      && (past'.misses == s.past.misses + multiset{rec.id} <==> Nobody(s.conns, rec.socketId))
      && (past'.hits == s.past.hits + 1 <==> !Nobody(s.conns, rec.socketId))
  {
    CloseAllReachesAll(w, steps);
    LookupIsSound(w, steps);
    LookupMisses(w, Run(w, steps).value);
  }

  lemma {:induction false} LookupIsSound(w: Wiring, steps: seq<Step>)
    requires w.Wired() && Run(w, steps).Some? && Run(w, steps).value.handler.Holding?
    ensures EntriesOk(Run(w, steps).value) && RegistryOk(Run(w, steps).value)
    ensures Is(Run(w, steps).value.past.entries, Run(w, steps).value.handler.rec)
  {
    RunKeepsInv(w, steps);
  }

  lemma {:induction false} LookupMisses(w: Wiring, s: State)
    requires EntriesOk(s) && RegistryOk(s) && Covers(s) && s.handler.Holding? && Is(s.past.entries, s.handler.rec)
    ensures
      var rec, past' := s.handler.rec, LookedUp(s).past;
      && (past'.misses == s.past.misses + multiset{rec.id} <==> Nobody(s.conns, rec.socketId))
      && (past'.hits == s.past.hits + 1 <==> !Nobody(s.conns, rec.socketId))
  {
    var rec := s.handler.rec;
    if rec.socketId in s.registry.sockets {
      var c := s.registry.sockets[rec.socketId];
      assert c in LiveSet(s.conns) && s.conns[c].uuid == rec.socketId;
      assert |s.past.misses + multiset{rec.id}| == |s.past.misses| + 1;
    }
  }

  lemma {:induction false} StepKeepsCover(w: Wiring, s: State, step: Step)
    requires Enabled(s, step) && RegistryOk(s) && Covers(s)
    requires DistinctLive(s.conns) && DistinctLive(Next(w, s, step).conns)
    ensures Covers(Next(w, s, step))
  {
    var s' := Next(w, s, step);
    match step
    case Local(c, m) => LocalKeepsCover(w, s, c, m);
    case _ => assert LiveSet(s'.conns) == LiveSet(s.conns);
  }

  lemma {:induction false} LocalKeepsCover(w: Wiring, s: State, c: nat, m: Move)
    requires Enabled(s, Local(c, m)) && RegistryOk(s) && Covers(s)
    requires DistinctLive(s.conns) && DistinctLive(Next(w, s, Local(c, m)).conns)
    ensures Covers(Next(w, s, Local(c, m)))
  {
    MoveAndLiveness(w, s.conns[c], c, |s.past.entries|, m);
    LocalExtends(w, s, c, m);
    EventKeepsCover(w, s, Acted(w, s, c, m), c, Emitted(w, s, c, m));
  }

  lemma {:induction false} EventKeepsCover(w: Wiring, s: State, s1: State, c: nat, e: Event)
    requires c < |s.conns| == |s1.conns| && s1.registry == s.registry && Covers(s)
    requires forall o :: 0 <= o < |s.conns| ==>
               s1.conns[o].uuid == s.conns[o].uuid && (o != c ==> s1.conns[o] == s.conns[o])
    requires Live(s1.conns[c].pc) == (e.Joined? || (Live(s.conns[c].pc) && !e.Left?))
    requires e.Left? ==> Live(s.conns[c].pc)
    requires DistinctLive(s.conns) && DistinctLive(s1.conns)
    ensures Covers(Absorb(w, s1, c, e))
  {
    var s' := Absorb(w, s1, c, e);
    AbsorbExtends(w, s1, c, e);
    forall o | o in LiveSet(s'.conns)
      ensures s'.conns[o].uuid in s'.registry.sockets && s'.registry.sockets[s'.conns[o].uuid] == o
    {
      if o != c {
        assert o in LiveSet(s.conns);
        if e.Joined? { assert c in LiveSet(s1.conns) && o in LiveSet(s1.conns); }
        if e.Left? { assert c in LiveSet(s.conns); }
      }
    }
  }

  // ----- Shutdown -----

  /**
   * waitForSocketsDrain returns before its deadline exactly when no registered connection
   * is left: each one has returned from ProcessTelemetry, with its stop channel closed once.
   */
  lemma {:induction false} DrainIsSound(w: Wiring, steps: seq<Step>, deadline: bool)
    requires w.Wired() && Run(w, steps).Some? && Enabled(Run(w, steps).value, PollDrain(deadline))
    ensures
      var s := Run(w, steps).value;
      && (Next(w, s, PollDrain(deadline)).shutdown == Drained <==> LiveSet(s.conns) == {})
      && (Next(w, s, PollDrain(deadline)).shutdown == TimedOut <==> LiveSet(s.conns) != {} && deadline)
      && (LiveSet(s.conns) != {} && !deadline ==> Next(w, s, PollDrain(deadline)) == s)
      && (LiveSet(s.conns) == {} ==>
            forall c :: 0 <= c < |s.conns| ==>
              s.conns[c].pc == Accepted || (Past(s.conns[c].pc) && s.conns[c].stopCloses == 1))
  {
    var s := Run(w, steps).value;
    RunKeepsInv(w, steps);
    if LiveSet(s.conns) == {} {
      forall c | 0 <= c < |s.conns|
        ensures s.conns[c].pc == Accepted || (Past(s.conns[c].pc) && s.conns[c].stopCloses == 1)
      {
        assert ConnOk(w, s.conns[c], c, s.past);
        assert c !in LiveSet(s.conns);
      }
    }
  }
}
