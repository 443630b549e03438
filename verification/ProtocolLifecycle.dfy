/** What the life of one connection looks like, in every run of the whole system. */
module ProtocolLifecycle {
  import opened Wrappers
  import opened Telemetry
  import opened Connections
  import opened ConnectionInvariants
  import opened Protocol
  import opened ProtocolInvariants
  import opened ProtocolTheorems
  import opened ProtocolRouting

  // ----- Producer calls -----

  /**
   * Between records, a connection has called exactly the producers its rules name, for
   * its dispatched records in order of creation; within a record it is on the way there.
   */
  lemma {:induction false} DispatchesWhatRulesSay(w: Wiring, steps: seq<Step>, c: nat)
    requires w.Wired() && Run(w, steps).Some? && c < |Run(w, steps).value.conns|
    ensures
      var s := Run(w, steps).value;
      && s.conns[c].trace <= WantedBy(w, s.past.entries, c)
      && (!s.conns[c].pc.Running? ==> s.conns[c].trace == WantedBy(w, s.past.entries, c))
  {
    RunKeepsInv(w, steps);
    var s := Run(w, steps).value;
    assert ConnOk(w, s.conns[c], c, s.past);
    assert s.conns[c].trace <= s.conns[c].trace + Pending(s.conns[c].pc);
    assert s.conns[c].trace + [] == s.conns[c].trace;
  }

  /** WantedBy follows the order of creation. */
  lemma {:induction false} WantedInOrder(w: Wiring, es: seq<Entry>, c: nat, i: nat, j: nat)
    requires i < j < |WantedBy(w, es, c)|
    requires forall n :: 0 <= n < |es| ==> es[n].rec.id == n
    ensures WantedBy(w, es, c)[i].id <= WantedBy(w, es, c)[j].id
  {
    var rest := es[..|es| - 1];
    if j < |WantedBy(w, rest, c)| {
      WantedInOrder(w, rest, c, i, j);
    } else if i < |WantedBy(w, rest, c)| {
      WantedIsDispatched(w, rest, c, i);
    }
  }

  /**
   * Calls for CONNECTED come first, then those for records in order, then those for
   * DISCONNECTED; each of the two events is announced at most once.
   */
  lemma {:induction false} ConnectionTrace(w: Wiring, steps: seq<Step>, c: nat, i: nat, j: nat)
    requires w.Wired() && Run(w, steps).Some? && c < |Run(w, steps).value.conns|
    requires i < j < |Run(w, steps).value.conns[c].trace|
    ensures
      var s := Run(w, steps).value;
      var a, b := s.conns[c].trace[i].id, s.conns[c].trace[j].id;
      && a <= b < |s.past.entries|
      && (a < b ==> s.past.entries[b].origin != Connected && s.past.entries[a].origin != Disconnected)
  {
    var s := Run(w, steps).value;
    RunKeepsInv(w, steps);
    DispatchesWhatRulesSay(w, steps, c);
    TraceIsWanted(w, s, c, i);
    TraceIsWanted(w, s, c, j);
    WantedInOrder(w, s.past.entries, c, i, j);
    assert ConnOk(w, s.conns[c], c, s.past);
    var a, b := s.conns[c].trace[i].id, s.conns[c].trace[j].id;
    assert By(s.past.entries, a, c) && By(s.past.entries, b, c);
  }

  /** The stop channel is closed at most once, and exactly once when ProcessTelemetry has returned. */
  lemma {:induction false} StopClosedOnce(w: Wiring, steps: seq<Step>, c: nat)
    requires w.Wired() && Run(w, steps).Some? && c < |Run(w, steps).value.conns|
    ensures
      var k := Run(w, steps).value.conns[c];
      k.stopCloses <= 1 && (k.stopCloses == 1 <==> Past(k.pc))
  {
    RunKeepsInv(w, steps);
    var s := Run(w, steps).value;
    assert ConnOk(w, s.conns[c], c, s.past);
  }

  // ----- The write channel -----

  /** Responses leave in the order they were enqueued; none is lost, doubled or reordered. */
  lemma {:induction false} WriterFifo(w: Wiring, steps: seq<Step>, c: nat)
    requires w.Wired() && Run(w, steps).Some? && c < |Run(w, steps).value.conns|
    ensures
      var s := Run(w, steps).value;
      && s.conns[c].taken + s.conns[c].buffer == ForSock(s.past.log, c)
      && |s.conns[c].buffer| <= 1000
  {
    RunKeepsInv(w, steps);
    var s := Run(w, steps).value;
    assert ConnOk(w, s.conns[c], c, s.past);
  }

  // ----- What never changes back -----

  /** How a connection may look later in a run. */
  ghost predicate Later(k: Conn, k': Conn) {
    && k'.uuid == k.uuid
    && (k.closeReason != "" ==> k'.closeReason == k.closeReason)
    && (k.writer == Exited ==> k'.writer == Exited && k'.taken == k.taken)
    && k.taken <= k'.taken
    && k.trace <= k'.trace
    && (Past(k.pc) ==> Past(k'.pc))
  }

  lemma {:induction false} MoveIsLater(w: Wiring, k: Conn, me: nat, id: nat, m: Move)
    requires CanMove(k, m) && StopOk(k)
    ensures Later(k, Moved(w, k, me, id, m))
  {
  }

  lemma {:induction false} StepIsLater(w: Wiring, s: State, step: Step, c: nat)
    requires Enabled(s, step) && ConnsOk(w, s) && c < |s.conns|
    ensures c < |Next(w, s, step).conns| && Later(s.conns[c], Next(w, s, step).conns[c])
  {
    if step.Local? {
      var o, m := step.c, step.move;
      LocalExtends(w, s, o, m);
      assert ConnOk(w, s.conns[o], o, s.past);
      if o == c { MoveIsLater(w, s.conns[c], c, |s.past.entries|, m); }
    }
  }

  lemma {:induction false} OneStepLater(w: Wiring, steps: seq<Step>, step: Step, c: nat)
    requires w.Wired() && Run(w, steps).Some? && Enabled(Run(w, steps).value, step) && c < |Run(w, steps).value.conns|
    ensures
      var s, s' := Run(w, steps).value, Next(w, Run(w, steps).value, step);
      c < |s'.conns| && Later(s.conns[c], s'.conns[c])
  {
    RunKeepsInv(w, steps);
    StepIsLater(w, Run(w, steps).value, step, c);
  }

  lemma {:induction false} LaterIsTransitive(a: Conn, b: Conn, c: Conn)
    requires Later(a, b) && Later(b, c)
    ensures Later(a, c)
  {
  }

  /**
   * A recorded close reason never changes, whoever recorded it; a writer that has exited
   * takes nothing more.
   */
  lemma {:induction false} NeverUndone(w: Wiring, steps: seq<Step>, more: seq<Step>, c: nat)
    requires w.Wired() && Run(w, steps).Some? && Run(w, steps + more).Some?
    requires c < |Run(w, steps).value.conns|
    ensures
      var s, s' := Run(w, steps).value, Run(w, steps + more).value;
      c < |s'.conns| && Later(s.conns[c], s'.conns[c])
    decreases |more|
  {
    if more == [] {
      assert steps + more == steps;
    } else {
      var before, step := more[..|more| - 1], more[|more| - 1];
      assert steps + more == (steps + before) + [step];
      LastStep(w, steps + before, step);
      NeverUndone(w, steps, before, c);
      OneStepLater(w, steps + before, step, c);
      LaterIsTransitive(Run(w, steps).value.conns[c], Run(w, steps + before).value.conns[c],
                        Run(w, steps + more).value.conns[c]);
    }
  }

  // ----- The writer -----

  /**
   * A writer that fails a write, or sees the stop channel closed, is gone for good: it
   * takes nothing more, however the run goes on.
   */
  lemma {:induction false} WriterEnds(w: Wiring, steps: seq<Step>, c: nat, m: Move, more: seq<Step>)
    requires w.Wired() && Run(w, steps).Some? && Enabled(Run(w, steps).value, Local(c, m))
    requires m.StopWriter? || (m.Write? && m.err.Some?)
    requires Run(w, steps + [Local(c, m)] + more).Some?
    ensures
      var s, s' := Run(w, steps).value, Run(w, steps + [Local(c, m)] + more).value;
      c < |s'.conns| && s'.conns[c].writer == Exited && s'.conns[c].taken == s.conns[c].taken
  {
    var s := Run(w, steps).value;
    RunOneMore(w, steps, Local(c, m));
    LocalExtends(w, s, c, m);
    NeverUndone(w, steps + [Local(c, m)], more, c);
  }

  /** After a successful write the writer takes the next response, if there is one. */
  lemma {:induction false} WriterGoesOn(w: Wiring, s: State, c: nat)
    requires Enabled(s, Local(c, Write(None)))
    ensures
      var s' := Next(w, s, Local(c, Write(None)));
      && s'.conns[c].writer == Waiting
      && s'.conns[c].taken == s.conns[c].taken && s'.conns[c].buffer == s.conns[c].buffer
      && (s.conns[c].buffer != [] ==>
            && Enabled(s', Local(c, Take))
            && var k := Next(w, s', Local(c, Take)).conns[c];
               && k.writer == Writing(s.conns[c].buffer[0])
               && k.taken == s.conns[c].taken + [s.conns[c].buffer[0]]
               && k.buffer == s.conns[c].buffer[1..])
  {
  }

  /** A writer ends in no other way, and the stop channel is closed only after the read loop. */
  lemma {:induction false} WriterEndsOnlySo(w: Wiring, steps: seq<Step>, step: Step, c: nat)
    requires w.Wired() && Run(w, steps).Some? && Enabled(Run(w, steps).value, step) && c < |Run(w, steps).value.conns|
    requires Run(w, steps).value.conns[c].writer != Exited
    requires c < |Next(w, Run(w, steps).value, step).conns|
    requires Next(w, Run(w, steps).value, step).conns[c].writer == Exited
    ensures
      || (step == Local(c, StopWriter) && Past(Run(w, steps).value.conns[c].pc))
      || (step.Local? && step.c == c && step.move.Write? && step.move.err.Some?)
  {
    var s := Run(w, steps).value;
    if step.Local? { LocalExtends(w, s, step.c, step.move); }
    StopClosedOnce(w, steps, c);
  }

  // ----- The close reason -----

  /** The text a move would record, if any. */
  function ReasonOf(m: Move): Option<string> {
    match m
    case ReadEnd(err) => err
    case Write(err) => err
    case CloseSocket(err) => err
    case RequestClose => Some("server_shutdown")
    case _ => None
  }

  /** The first text recorded is the close reason for the rest of the run. */
  lemma {:induction false} FirstReasonStays(w: Wiring, steps: seq<Step>, c: nat, m: Move, more: seq<Step>)
    requires w.Wired() && Run(w, steps).Some? && Enabled(Run(w, steps).value, Local(c, m))
    requires ReasonOf(m).Some? && ReasonOf(m).value != "" && Run(w, steps).value.conns[c].closeReason == ""
    requires Run(w, steps + [Local(c, m)] + more).Some?
    ensures
      var s' := Run(w, steps + [Local(c, m)] + more).value;
      c < |s'.conns| && s'.conns[c].closeReason == ReasonOf(m).value
  {
    var s := Run(w, steps).value;
    RunOneMore(w, steps, Local(c, m));
    LocalExtends(w, s, c, m);
    NeverUndone(w, steps + [Local(c, m)], more, c);
  }

  /** The close reason changes in no other way. */
  lemma {:induction false} ReasonOnlySo(w: Wiring, s: State, step: Step, c: nat)
    requires Enabled(s, step) && c < |s.conns| && c < |Next(w, s, step).conns|
    requires Next(w, s, step).conns[c].closeReason != s.conns[c].closeReason
    ensures step.Local? && step.c == c && s.conns[c].closeReason == ""
    ensures ReasonOf(step.move) == Some(Next(w, s, step).conns[c].closeReason)
  {
    if step.Local? { LocalExtends(w, s, step.c, step.move); }
  }

  // ----- Shutdown -----

  /** Sockets of the snapshot that CloseAllSockets has been to have a close reason. */
  ghost predicate AskedHaveReason(s: State) {
    s.shutdown.Draining? ==>
      forall c: nat :: c in s.shutdown.snapshot && c !in s.shutdown.todo ==>
        c < |s.conns| && s.conns[c].closeReason != ""
  }

  lemma {:induction false} LocalKeepsAsked(w: Wiring, s: State, o: nat, m: Move)
    requires Enabled(s, Local(o, m)) && AskedHaveReason(s)
    ensures AskedHaveReason(Next(w, s, Local(o, m)))
  {
    var s1 := Acted(w, s, o, m);
    AbsorbExtends(w, s1, o, Emitted(w, s, o, m));
    ReasonStays(w, s.conns[o], o, |s.past.entries|, m);
  }

  lemma {:induction false} ReasonStays(w: Wiring, k: Conn, me: nat, id: nat, m: Move)
    requires CanMove(k, m)
    ensures k.closeReason != "" || m.RequestClose? ==> Moved(w, k, me, id, m).closeReason != ""
  {
  }

  lemma {:induction false} StepKeepsAsked(w: Wiring, s: State, step: Step)
    requires Enabled(s, step) && AskedHaveReason(s)
    ensures AskedHaveReason(Next(w, s, step))
  {
    if step.Local? { LocalKeepsAsked(w, s, step.c, step.move); }
  }

  /** Every socket CloseAllSockets has been to, and so every one of the snapshot in the end, is asked to close. */
  lemma {:induction false} DrainAsksEverySocket(w: Wiring, steps: seq<Step>)
    requires Run(w, steps).Some?
    ensures AskedHaveReason(Run(w, steps).value)
    ensures
      var s := Run(w, steps).value;
      Enabled(s, PollDrain(false)) ==>
        forall c :: c in s.shutdown.snapshot ==> c < |s.conns| && s.conns[c].closeReason != ""
  {
    if steps != [] {
      var before := steps[..|steps| - 1];
      DrainAsksEverySocket(w, before);
      StepKeepsAsked(w, Run(w, before).value, steps[|steps| - 1]);
    }
  }

  /** Once a drain has begun its snapshot is fixed. */
  lemma {:induction false} SnapshotStays(w: Wiring, steps: seq<Step>, more: seq<Step>)
    requires Run(w, steps).Some? && Run(w, steps).value.shutdown == Up
    requires Run(w, steps + [BeginDrain] + more).Some?
    ensures
      var sd := Run(w, steps + [BeginDrain] + more).value.shutdown;
      sd != Up && (sd.Draining? ==> sd.snapshot == Run(w, steps).value.registry.sockets.Values)
    decreases |more|
  {
    if more == [] {
      assert steps + [BeginDrain] + more == steps + [BeginDrain];
      LastStep(w, steps, BeginDrain);
    } else {
      var before, step := more[..|more| - 1], more[|more| - 1];
      assert steps + [BeginDrain] + more == (steps + [BeginDrain] + before) + [step];
      LastStep(w, steps + [BeginDrain] + before, step);
      SnapshotStays(w, steps, before);
      ShutdownMovesOn(w, Run(w, steps + [BeginDrain] + before).value, step);
    }
  }

  lemma {:induction false} ShutdownMovesOn(w: Wiring, s: State, step: Step)
    requires Enabled(s, step) && s.shutdown != Up
    ensures
      var sd' := Next(w, s, step).shutdown;
      sd' != Up && (sd'.Draining? ==> s.shutdown.Draining? && sd'.snapshot == s.shutdown.snapshot)
  {
    if step.Local? { AbsorbExtends(w, Acted(w, s, step.c, step.move), step.c, Emitted(w, s, step.c, step.move)); }
  }

  /**
   * With live ids distinct until the drain began, every connection live at that moment has
   * been asked to close when polling starts.
   */
  lemma {:induction false} EveryLiveIsAsked(w: Wiring, steps: seq<Step>, more: seq<Step>, c: nat)
    requires w.Wired() && Run(w, steps).Some? && AlwaysDistinct(w, steps) && Enabled(Run(w, steps).value, BeginDrain)
    requires Run(w, steps + [BeginDrain] + more).Some?
    requires Enabled(Run(w, steps + [BeginDrain] + more).value, PollDrain(false))
    requires c in LiveSet(Run(w, steps).value.conns)
    ensures
      var s' := Run(w, steps + [BeginDrain] + more).value;
      c < |s'.conns| && s'.conns[c].closeReason != ""
  {
    CloseAllReachesAll(w, steps);
    SnapshotStays(w, steps, more);
    DrainAsksEverySocket(w, steps + [BeginDrain] + more);
  }
}
