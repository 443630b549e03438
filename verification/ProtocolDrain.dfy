/**
 * What a clean drain leaves behind. waitForSocketsDrain counts registered sockets only: a
 * connection that has just left the registry, or has been upgraded and not entered it yet,
 * goes on calling producers, which are closed right after the drain.
 */
module ProtocolDrain {
  import opened Wrappers
  import opened Telemetry
  import opened Registries
  import opened Connections
  import opened Protocol
  import opened ProtocolInvariants
  import opened ProtocolTheorems
  import opened ProtocolRuns

  /** The last step of the run is the poll that ends the drain before its deadline. */
  ghost predicate Drains(w: Wiring, steps: seq<Step>) {
    && steps != []
    && steps[|steps| - 1].PollDrain?
    && Run(w, steps).Some?
    && Run(w, steps).value.shutdown == Drained
  }

  /** However the run goes on, no producer is called any more. */
  ghost predicate Final(w: Wiring, steps: seq<Step>)
    requires Run(w, steps).Some?
  {
    forall more: seq<Step> :: Run(w, steps + more).Some? ==>
      SameTraces(Run(w, steps).value.conns, Run(w, steps + more).value.conns)
  }

  ghost predicate SameTraces(conns: seq<Conn>, conns': seq<Conn>) {
    |conns'| == |conns| && forall c :: 0 <= c < |conns| ==> conns'[c].trace == conns[c].trace
  }

  /** Leaving the registry is followed by at least one producer call. */
  predicate AnnouncesLeaving(w: Wiring) {
    CONNECTIVITY in w.rules && w.rules[CONNECTIVITY] != []
  }

  /** No record type is sent anywhere. */
  ghost predicate NoRules(w: Wiring) {
    forall t :: t in w.rules ==> w.rules[t] == []
  }

  /** The connection has left the registry and may still call a producer. */
  predicate StillToDispatch(w: Wiring, k: Conn) {
    || (k.pc == Deregistered && AnnouncesLeaving(w))
    || (k.pc.Running? && k.pc.phase == Disconnecting && k.pc.acts != [])
  }

  /** The connection has nothing left to dispatch: it is past that, or no type is sent anywhere. */
  ghost predicate Settled(w: Wiring, k: Conn) {
    !StillToDispatch(w, k) && (k.pc == Accepted ==> NoRules(w))
  }

  // ----- Nothing is called any more -----

  /** No producer call is pending, and none can come to be. */
  ghost predicate Silent(w: Wiring, k: Conn) {
    && (k.pc.Running? ==> k.pc.acts == [] || (NoRules(w) && forall a :: a in k.pc.acts ==> !a.Produce?))
    && (k.pc == Deregistered ==> !AnnouncesLeaving(w))
    && (k.pc == Deregistered || k.pc == Done || (k.pc.Running? && k.pc.phase == Disconnecting) || NoRules(w))
  }

  lemma {:induction false} SilentMove(w: Wiring, k: Conn, me: nat, id: nat, m: Move)
    requires CanMove(k, m) && Silent(w, k)
    ensures Silent(w, Moved(w, k, me, id, m)) && Moved(w, k, me, id, m).trace == k.trace
  {
    if k.pc.Running? && k.pc.acts != [] { assert k.pc.acts[0] in k.pc.acts; }
  }

  lemma {:induction false} SilentStep(w: Wiring, s: State, step: Step)
    requires Enabled(s, step) && s.shutdown == Drained && forall c :: 0 <= c < |s.conns| ==> Silent(w, s.conns[c])
    ensures
      var s' := Next(w, s, step);
      && s'.shutdown == Drained
      && SameTraces(s.conns, s'.conns)
      && forall c :: 0 <= c < |s'.conns| ==> Silent(w, s'.conns[c])
  {
    match step
    case Local(c, m) =>
      LocalExtends(w, s, c, m);
      AbsorbExtends(w, Acted(w, s, c, m), c, Emitted(w, s, c, m));
      SilentMove(w, s.conns[c], c, |s.past.entries|, m);
    case _ =>
  }

  lemma {:induction false} StaysSilent(w: Wiring, steps: seq<Step>, more: seq<Step>)
    requires Run(w, steps).Some? && Run(w, steps).value.shutdown == Drained
    requires forall c :: 0 <= c < |Run(w, steps).value.conns| ==> Silent(w, Run(w, steps).value.conns[c])
    requires Run(w, steps + more).Some?
    ensures
      var s, s' := Run(w, steps).value, Run(w, steps + more).value;
      && s'.shutdown == Drained
      && SameTraces(s.conns, s'.conns)
      && forall c :: 0 <= c < |s'.conns| ==> Silent(w, s'.conns[c])
    decreases |more|
  {
    if more == [] {
      assert steps + more == steps;
    } else {
      var before, step := more[..|more| - 1], more[|more| - 1];
      assert steps + more == (steps + before) + [step];
      LastStep(w, steps + before, step);
      StaysSilent(w, steps, before);
      SilentStep(w, Run(w, steps + before).value, step);
    }
  }

  /** Nobody is registered when the drain ends. */
  lemma {:induction false} DrainedIsEmpty(w: Wiring, steps: seq<Step>)
    requires w.Wired() && Drains(w, steps)
    ensures LiveSet(Run(w, steps).value.conns) == {}
  {
    var before, step := steps[..|steps| - 1], steps[|steps| - 1];
    assert steps == before + [step];
    LastStep(w, before, step);
    RegistryCounts(w, before);
  }

  lemma {:induction false} RegistryCounts(w: Wiring, steps: seq<Step>)
    requires w.Wired() && Run(w, steps).Some?
    ensures RegistryOk(Run(w, steps).value)
  {
    RunKeepsInv(w, steps);
  }

  lemma {:induction false} SettledIsSilent(w: Wiring, steps: seq<Step>, c: nat)
    requires w.Wired() && Drains(w, steps) && c < |Run(w, steps).value.conns|
    requires Settled(w, Run(w, steps).value.conns[c])
    ensures Silent(w, Run(w, steps).value.conns[c])
  {
    DrainedIsEmpty(w, steps);
    assert c !in LiveSet(Run(w, steps).value.conns);
  }

  // ----- A producer may still be called -----

  /** Outside the read loop a connection runs nothing but producer calls. */
  predicate Announcing(k: Conn) {
    k.pc.Running? && k.pc.phase != Serving ==>
      k.pc.rec.txType == CONNECTIVITY && forall i :: 0 <= i < |k.pc.acts| ==> k.pc.acts[i].Produce?
  }

  lemma {:induction false} MoveKeepsAnnouncing(w: Wiring, k: Conn, me: nat, id: nat, m: Move)
    requires w.Wired() && CanMove(k, m) && Announcing(k)
    ensures Announcing(Moved(w, k, me, id, m))
  {
    if m.Publish? { assert w.Acks(k.pc.acts[0].to, CONNECTIVITY) ==> CONNECTIVITY in w.reliable; }
  }

  lemma {:induction false} StepKeepsAnnouncing(w: Wiring, s: State, step: Step, c: nat)
    requires w.Wired() && Enabled(s, step) && c < |Next(w, s, step).conns|
    requires c < |s.conns| ==> Announcing(s.conns[c])
    ensures Announcing(Next(w, s, step).conns[c])
  {
    if step.Local? {
      LocalExtends(w, s, step.c, step.move);
      if c == step.c { MoveKeepsAnnouncing(w, s.conns[c], c, |s.past.entries|, step.move); }
    }
  }

  lemma {:induction false} AlwaysAnnouncing(w: Wiring, steps: seq<Step>, c: nat)
    requires w.Wired() && Run(w, steps).Some? && c < |Run(w, steps).value.conns|
    ensures Announcing(Run(w, steps).value.conns[c])
  {
    if steps != [] {
      var before, step := steps[..|steps| - 1], steps[|steps| - 1];
      if c < |Run(w, before).value.conns| { AlwaysAnnouncing(w, before, c); }
      StepKeepsAnnouncing(w, Run(w, before).value, step, c);
    }
  }

  /** A pending producer call can be made. */
  lemma {:induction false} CallsOneMore(w: Wiring, steps: seq<Step>, more: seq<Step>, s: State, c: nat)
    requires Run(w, steps).Some? && Run(w, steps + more) == Some(s)
    requires c < |Run(w, steps).value.conns| <= |s.conns|
    requires s.conns[c].trace == Run(w, steps).value.conns[c].trace
    requires s.conns[c].pc.Running? && s.conns[c].pc.acts != [] && s.conns[c].pc.acts[0].Produce?
    ensures !Final(w, steps)
  {
    var m := Local(c, Publish(false));
    var s' := Next(w, s, m);
    Extend(w, steps + more, s, m, s');
    assert steps + (more + [m]) == (steps + more) + [m];
    assert |s'.conns[c].trace| == |s.conns[c].trace| + 1;
  }

  /** A connection that has left the registry announces it. */
  lemma {:induction false} AnnouncesAndCalls(w: Wiring, steps: seq<Step>, s: State, c: nat)
    requires Run(w, steps) == Some(s) && c < |s.conns| && s.conns[c].pc == Deregistered && AnnouncesLeaving(w)
    ensures !Final(w, steps)
  {
    var s' := Next(w, s, Local(c, Announce(true)));
    Extend(w, steps, s, Local(c, Announce(true)), s');
    CallsOneMore(w, steps, [Local(c, Announce(true))], s', c);
  }

  /** A connection that has been upgraded registers, reads and dispatches. */
  lemma {:induction false} RegistersAndReads(w: Wiring, steps: seq<Step>, s: State, c: nat, t: TxType)
    returns (more: seq<Step>, s': State)
    requires Run(w, steps) == Some(s) && c < |s.conns| && s.conns[c].pc == Accepted
    ensures Run(w, steps + more) == Some(s')
    ensures |s'.conns| == |s.conns| && s'.shutdown == s.shutdown && s'.conns[c].trace == s.conns[c].trace
    ensures
      var rec := Record(|s.past.entries|, c, s.conns[c].uuid, t, true);
      s'.conns[c].pc == Running(rec, Program(w, Parsed, t), Phase.Serving)
  {
    var s1 := Next(w, s, Local(c, Register));
    Extend(w, steps, s, Local(c, Register), s1);
    var s2 := Next(w, s1, Local(c, Announce(false)));
    Extend(w, steps + [Local(c, Register)], s1, Local(c, Announce(false)), s2);
    s' := Next(w, s2, Local(c, Read(Parsed, t)));
    Extend(w, steps + [Local(c, Register)] + [Local(c, Announce(false))], s2, Local(c, Read(Parsed, t)), s');
    more := [Local(c, Register), Local(c, Announce(false)), Local(c, Read(Parsed, t))];
    assert steps + more == steps + [Local(c, Register)] + [Local(c, Announce(false))] + [Local(c, Read(Parsed, t))];
  }

  lemma {:induction false} ReadsAndCalls(w: Wiring, steps: seq<Step>, s: State, c: nat, t: TxType)
    requires Run(w, steps) == Some(s) && c < |s.conns| && s.conns[c].pc == Accepted
    requires t in w.rules && w.rules[t] != []
    ensures !Final(w, steps)
  {
    var more, s' := RegistersAndReads(w, steps, s, c, t);
    FirstCall(w, t);
    CallsOneMore(w, steps, more, s', c);
  }

  lemma {:induction false} FirstCall(w: Wiring, t: TxType)
    requires t in w.rules && w.rules[t] != []
    ensures Program(w, Parsed, t) != [] && Program(w, Parsed, t)[0] == Produce(w.rules[t][0])
  {
    assert Dispatches(w, t)[0] == Produce(w.rules[t][0]);
  }

  lemma {:induction false} UnsettledCalls(w: Wiring, steps: seq<Step>, c: nat)
    requires w.Wired() && Run(w, steps).Some? && c < |Run(w, steps).value.conns|
    requires !Settled(w, Run(w, steps).value.conns[c])
    ensures !Final(w, steps)
  {
    var s := Run(w, steps).value;
    var k := s.conns[c];
    if k.pc == Accepted {
      var t :| t in w.rules && w.rules[t] != [];
      ReadsAndCalls(w, steps, s, c, t);
    } else if k.pc == Deregistered {
      AnnouncesAndCalls(w, steps, s, c);
    } else {
      AlwaysAnnouncing(w, steps, c);
      assert steps + [] == steps;
      CallsOneMore(w, steps, [], s, c);
    }
  }

  // ----- When a drain is final -----

  /**
   * A clean drain is the end of all producer calls exactly if, when it ends, no connection
   * has left the registry with calls still to make, and none has been upgraded without
   * having registered, unless no record type is sent anywhere.
   */
  lemma {:induction false} FinalIffSettled(w: Wiring, steps: seq<Step>)
    requires w.Wired() && Drains(w, steps)
    ensures
      var conns := Run(w, steps).value.conns;
      Final(w, steps) <==> forall c :: 0 <= c < |conns| ==> Settled(w, conns[c])
  {
    var conns := Run(w, steps).value.conns;
    if c :| 0 <= c < |conns| && !Settled(w, conns[c]) {
      UnsettledCalls(w, steps, c);
    } else {
      AllSettledIsFinal(w, steps);
    }
  }

  lemma {:induction false} AllSettledIsFinal(w: Wiring, steps: seq<Step>)
    requires w.Wired() && Drains(w, steps)
    requires forall c :: 0 <= c < |Run(w, steps).value.conns| ==> Settled(w, Run(w, steps).value.conns[c])
    ensures Final(w, steps)
  {
    forall c | 0 <= c < |Run(w, steps).value.conns| ensures Silent(w, Run(w, steps).value.conns[c]) {
      SettledIsSilent(w, steps, c);
    }
    forall more: seq<Step> | Run(w, steps + more).Some?
      ensures SameTraces(Run(w, steps).value.conns, Run(w, steps + more).value.conns)
    {
      StaysSilent(w, steps, more);
    }
  }

  /** No connection waits between its upgrade and its registration. */
  predicate NoneAccepted(conns: seq<Conn>) {
    forall c :: 0 <= c < |conns| ==> conns[c].pc != Accepted
  }

  /** Every drain that ends with no such connection is final. */
  ghost predicate DrainsAreFinal(w: Wiring) {
    forall steps: seq<Step> :: Drains(w, steps) && NoneAccepted(Run(w, steps).value.conns) ==> Final(w, steps)
  }

  /**
   * A server whose upgraded connections have all registered drains for good exactly if
   * its connectivity rule names no producer.
   */
  lemma {:induction false} DrainsAreFinalIff(w: Wiring)
    requires w.Wired()
    ensures DrainsAreFinal(w) <==> !AnnouncesLeaving(w)
  {
    if AnnouncesLeaving(w) {
      NotAllFinal(w);
    } else {
      forall steps: seq<Step> | Drains(w, steps) && NoneAccepted(Run(w, steps).value.conns) ensures Final(w, steps) {
        LeftIsSettled(w, steps);
        AllSettledIsFinal(w, steps);
      }
    }
  }

  lemma {:induction false} NotAllFinal(w: Wiring)
    requires AnnouncesLeaving(w)
    ensures !DrainsAreFinal(w)
  {
    var steps := AnnouncesAfterDrain(w);
  }

  lemma {:induction false} AnnouncesAfterDrain(w: Wiring) returns (steps: seq<Step>)
    requires AnnouncesLeaving(w)
    ensures Drains(w, steps) && NoneAccepted(Run(w, steps).value.conns) && !Final(w, steps)
  {
    var s;
    steps, s := DrainsBeforeAnnouncing(w);
    AnnouncesAndCalls(w, steps, s, 0);
  }

  lemma {:induction false} LeftIsSettled(w: Wiring, steps: seq<Step>)
    requires w.Wired() && Run(w, steps).Some? && NoneAccepted(Run(w, steps).value.conns) && !AnnouncesLeaving(w)
    ensures forall c :: 0 <= c < |Run(w, steps).value.conns| ==> Settled(w, Run(w, steps).value.conns[c])
  {
    forall c | 0 <= c < |Run(w, steps).value.conns| ensures Settled(w, Run(w, steps).value.conns[c]) {
      SilentLeaving(w, steps, c);
    }
  }

  /** Every drain is final exactly if no record type is sent anywhere. */
  lemma {:induction false} EveryDrainIsFinalIff(w: Wiring)
    requires w.Wired()
    ensures (forall steps: seq<Step> :: Drains(w, steps) ==> Final(w, steps)) <==> NoRules(w)
  {
    if NoRules(w) {
      forall steps: seq<Step> | Drains(w, steps) ensures Final(w, steps) {
        forall c | 0 <= c < |Run(w, steps).value.conns| ensures Settled(w, Run(w, steps).value.conns[c]) {
          SilentLeaving(w, steps, c);
        }
        AllSettledIsFinal(w, steps);
      }
    } else {
      var t :| t in w.rules && w.rules[t] != [];
      var steps, s := DrainsBeforeRegistering(w);
      ReadsAndCalls(w, steps, s, 0, t);
    }
  }

  // ----- Connections that have left -----

  /** Without a connectivity rule a connection that has left the registry has nothing to dispatch. */
  lemma {:induction false} SilentLeaving(w: Wiring, steps: seq<Step>, c: nat)
    requires !AnnouncesLeaving(w) && Run(w, steps).Some? && c < |Run(w, steps).value.conns|
    ensures !StillToDispatch(w, Run(w, steps).value.conns[c])
  {
    if steps != [] {
      var before, step := steps[..|steps| - 1], steps[|steps| - 1];
      if c < |Run(w, before).value.conns| { SilentLeaving(w, before, c); }
      LeavingStep(w, Run(w, before).value, step, c);
    }
  }

  lemma {:induction false} LeavingStep(w: Wiring, s: State, step: Step, c: nat)
    requires !AnnouncesLeaving(w) && Enabled(s, step) && c < |Next(w, s, step).conns|
    requires c < |s.conns| ==> !StillToDispatch(w, s.conns[c])
    ensures !StillToDispatch(w, Next(w, s, step).conns[c])
  {
    if step.Local? {
      LocalExtends(w, s, step.c, step.move);
      if c == step.c { LeavingMove(w, s.conns[c], c, |s.past.entries|, step.move); }
    }
  }

  lemma {:induction false} LeavingMove(w: Wiring, k: Conn, me: nat, id: nat, m: Move)
    requires !AnnouncesLeaving(w) && CanMove(k, m) && !StillToDispatch(w, k)
    ensures !StillToDispatch(w, Moved(w, k, me, id, m))
  {
  }

  // ----- Concrete runs -----

  lemma {:induction false} DrainsAtOnce(w: Wiring, steps: seq<Step>, s: State)
    requires Run(w, steps) == Some(s) && s.shutdown == Up && s.registry == NoSockets()
    ensures Run(w, steps + [BeginDrain] + [PollDrain(false)]) == Some(s.(shutdown := Drained))
    ensures Drains(w, steps + [BeginDrain] + [PollDrain(false)])
  {
    var s1 := s.(shutdown := Draining({}, {}));
    assert s.registry.sockets.Values == {};
    Extend(w, steps, s, BeginDrain, s1);
    Extend(w, steps + [BeginDrain], s1, PollDrain(false), s1.(shutdown := Drained));
  }

  lemma {:induction false} DrainsBeforeAnnouncing(w: Wiring) returns (steps: seq<Step>, s: State)
    ensures Run(w, steps) == Some(s) && Drains(w, steps)
    ensures |s.conns| == 1 && s.conns[0].pc == Deregistered && s.conns[0].uuid == "u" && s.past.entries == []
  {
    var s1, s2;
    steps, s1 := Opens(w, [], Init, "u");
    steps, s2 := Leaves(w, steps, s1, 0);
    assert s2.registry.sockets == map[];
    DrainsAtOnce(w, steps, s2);
    s := s2.(shutdown := Drained);
    steps := steps + [BeginDrain] + [PollDrain(false)];
  }

  /** A connection has been upgraded when the drain begins and ends. */
  lemma {:induction false} DrainsBeforeRegistering(w: Wiring) returns (steps: seq<Step>, s: State)
    ensures Run(w, steps) == Some(s) && Drains(w, steps)
    ensures s.conns == [NewConn("u")] && s.past.entries == []
  {
    var s1 := Init.(conns := [NewConn("u")]);
    Extend(w, [], Init, Connect("u"), s1);
    DrainsAtOnce(w, [] + [Connect("u")], s1);
    steps, s := [] + [Connect("u")] + [BeginDrain] + [PollDrain(false)], s1.(shutdown := Drained);
  }

  /**
   * After a clean drain the DISCONNECTED event of a drained connection may still be to
   * come: the counter is decremented first.
   */
  lemma {:induction false} DrainMayPrecedeDisconnected(w: Wiring) returns (steps: seq<Step>, s: State)
    requires CONNECTIVITY in w.rules
    ensures Run(w, steps) == Some(s) && Drains(w, steps)
    ensures s.shutdown == Drained && |s.conns| == 1 && s.conns[0].pc == Deregistered && s.past.entries == []
    ensures Enabled(s, Local(0, Announce(true)))
    ensures
      var s' := Next(w, s, Local(0, Announce(true)));
      && s'.past.entries == [Entry(Record(0, 0, "u", CONNECTIVITY, true), Disconnected)]
      && s'.conns[0].pc == Running(s'.past.entries[0].rec, Dispatches(w, CONNECTIVITY), Disconnecting)
  {
    steps, s := DrainsBeforeAnnouncing(w);
  }

  /**
   * A connection upgraded before the drain may register after it, and dispatch a record
   * to producers that are being closed.
   */
  lemma {:induction false} DrainMayPrecedeServing(w: Wiring, t: TxType)
    returns (drain: seq<Step>, more: seq<Step>, s: State)
    requires t in w.rules && w.rules[t] != []
    ensures Drains(w, drain) && Run(w, drain + more) == Some(s)
    ensures s.shutdown == Drained && |s.conns| == 1 && Live(s.conns[0].pc) && Enabled(s, Local(0, Publish(true)))
    ensures Next(w, s, Local(0, Publish(true))).conns[0].trace == [Dispatch(w.rules[t][0], 0)]
  {
    var s1;
    drain, s1 := DrainsBeforeRegistering(w);
    more, s := RegistersAndReads(w, drain, s1, 0, t);
    FirstCall(w, t);
  }
}
