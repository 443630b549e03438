/**
 * What comes before what, in every run: producer calls before the ack, a producer's report
 * before the record counts as stored, and the stages of a connection one after the other.
 */
module ProtocolOrder {
  import opened Wrappers
  import opened Telemetry
  import opened Connections
  import opened ConnectionInvariants
  import opened Protocol
  import opened ProtocolInvariants
  import opened ProtocolTheorems

  // ----- Calls before the ack -----

  /** The running record is the connection's latest, and for a parsed one the reply comes last. */
  ghost predicate InTurn(k: Conn, c: nat, entries: seq<Entry>) {
    k.pc.Running? ==>
      && Is(entries, k.pc.rec)
      && (forall i :: By(entries, i, c) ==> i <= k.pc.rec.id)
      && (entries[k.pc.rec.id].origin == Message(Parsed) ==>
            forall i :: 0 <= i < |k.pc.acts| - 1 ==> !k.pc.acts[i].Respond?)
  }

  lemma {:induction false} MoveKeepsTurn(w: Wiring, k: Conn, me: nat, m: Move, entries: seq<Entry>)
    requires CanMove(k, m) && InTurn(k, me, entries)
    ensures InTurn(Moved(w, k, me, |entries|, m), me, entries + EntriesAdded(EventOf(w, k, me, |entries|, m)))
  {
    var e := EventOf(w, k, me, |entries|, m);
    var entries' := entries + EntriesAdded(e);
    if e.Created? {
      assert forall i :: By(entries', i, me) ==> i <= |entries|;
      if m.Read? { ReplyComesLast(w, m.txType); }
    } else {
      assert entries' == entries;
    }
  }

  lemma {:induction false} ReplyComesLast(w: Wiring, t: TxType)
    ensures
      var acts := Program(w, Parsed, t);
      forall i :: 0 <= i < |acts| - 1 ==> !acts[i].Respond?
  {
    ProgramIs(w, Parsed, t);
  }

  lemma {:induction false} OthersKeepTurn(k: Conn, c: nat, entries: seq<Entry>, e: Event)
    requires InTurn(k, c, entries) && (e.Created? ==> e.rec.conn != c)
    ensures InTurn(k, c, entries + EntriesAdded(e))
  {
    var entries' := entries + EntriesAdded(e);
    assert forall i :: By(entries', i, c) ==> By(entries, i, c);
  }

  lemma {:induction false} StepKeepsTurn(w: Wiring, s: State, step: Step, c: nat)
    requires Enabled(s, step) && c < |Next(w, s, step).conns|
    requires c < |s.conns| ==> InTurn(s.conns[c], c, s.past.entries)
    ensures InTurn(Next(w, s, step).conns[c], c, Next(w, s, step).past.entries)
  {
    if step.Local? {
      LocalExtends(w, s, step.c, step.move);
      if c == step.c {
        MoveKeepsTurn(w, s.conns[c], c, step.move, s.past.entries);
      } else {
        OthersKeepTurn(s.conns[c], c, s.past.entries, Emitted(w, s, step.c, step.move));
      }
    }
  }

  lemma {:induction false} AlwaysInTurn(w: Wiring, steps: seq<Step>, c: nat)
    requires Run(w, steps).Some? && c < |Run(w, steps).value.conns|
    ensures InTurn(Run(w, steps).value.conns[c], c, Run(w, steps).value.past.entries)
  {
    if steps != [] {
      var before, step := steps[..|steps| - 1], steps[|steps| - 1];
      if c < |Run(w, before).value.conns| { AlwaysInTurn(w, before, c); }
      StepKeepsTurn(w, Run(w, before).value, step, c);
    }
  }

  /** A connection's latest record is what its wanted calls end with. */
  lemma {:induction false} WantedEndsWith(w: Wiring, entries: seq<Entry>, c: nat, id: nat)
    requires By(entries, id, c) && forall i :: By(entries, i, c) ==> i <= id
    ensures WantedBy(w, entries, c) == WantedBy(w, entries[..id], c) + Wanted(w, entries[id])
  {
    var n := |entries| - 1;
    if id < n {
      assert !By(entries, n, c);
      assert forall i :: By(entries[..n], i, c) ==> By(entries, i, c);
      WantedEndsWith(w, entries[..n], c, id);
      assert entries[..n][..id] == entries[..id];
    }
  }

  /**
   * When the reader enqueues its ack of a parsed record, it has just called every producer
   * of the record's rule, in order: its calls so far end with them.
   */
  lemma {:induction false} AckAfterCalls(w: Wiring, steps: seq<Step>, c: nat)
    requires w.Wired() && Run(w, steps).Some? && Enabled(Run(w, steps).value, Local(c, Enqueue))
    requires
      var s := Run(w, steps).value;
      && s.conns[c].pc.rec.id < |s.past.entries|
      && s.past.entries[s.conns[c].pc.rec.id].origin == Message(Parsed)
    ensures
      var k := Run(w, steps).value.conns[c];
      var rule := if k.pc.rec.txType in w.rules then w.rules[k.pc.rec.txType] else [];
      var called := |k.trace| - |rule|;
      && k.pc.rec.txType !in w.reliable
      && called >= 0
      && forall i :: 0 <= i < |rule| ==> k.trace[called + i] == Dispatch(rule[i], k.pc.rec.id)
  {
    var s := Run(w, steps).value;
    ReaderIsOk(w, steps, c);
    AlwaysInTurn(w, steps, c);
    TraceIsComplete(w, s.conns[c], c, s.past.entries, s.past.stored);
  }

  lemma {:induction false} ReaderIsOk(w: Wiring, steps: seq<Step>, c: nat)
    requires w.Wired() && Run(w, steps).Some? && c < |Run(w, steps).value.conns|
    ensures
      var s := Run(w, steps).value;
      && Traced(w, s.conns[c], c, s.past.entries)
      && OwnRecord(s.conns[c], c, s.past.entries)
      && ActsOk(w, s.conns[c].pc, s.past.entries, s.past.stored)
  {
    RunKeepsInv(w, steps);
    assert ConnOk(w, Run(w, steps).value.conns[c], c, Run(w, steps).value.past);
  }

  lemma {:induction false} TraceIsComplete(w: Wiring, k: Conn, c: nat, entries: seq<Entry>, stored: set<Dispatch>)
    requires CanMove(k, Enqueue) && InTurn(k, c, entries) && Traced(w, k, c, entries)
    requires OwnRecord(k, c, entries) && ActsOk(w, k.pc, entries, stored)
    requires entries[k.pc.rec.id].origin == Message(Parsed)
    ensures
      var rule := if k.pc.rec.txType in w.rules then w.rules[k.pc.rec.txType] else [];
      var called := |k.trace| - |rule|;
      && k.pc.rec.txType !in w.reliable
      && called >= 0
      && forall i :: 0 <= i < |rule| ==> k.trace[called + i] == Dispatch(rule[i], k.pc.rec.id)
  {
    var id := k.pc.rec.id;
    assert k.pc.acts[0] in k.pc.acts;
    CallsOfReply(k.pc.acts[0].reply, id);
    assert k.pc.acts == [Respond(k.pc.acts[0].reply)];
    assert k.trace + [] == k.trace;
    WantedEndsWith(w, entries, c, id);
    var before := WantedBy(w, entries[..id], c);
    assert k.trace == before + Wanted(w, entries[id]);
  }

  // ----- A report before the record is stored -----

  /** The step is a report of success for record `id` from producer `d`. */
  predicate Reports(s: State, step: Step, d: Dispatcher, id: nat) {
    match step
    case Local(c, Publish(ok)) =>
      ok && d != Kafka && c < |s.conns| && NextAct(s.conns[c], Produce(d)) && s.conns[c].pc.rec.id == id
    case Delivery(rec, ok) => ok && d == Kafka && rec.id == id
    case _ => false
  }

  /** Some step of the run was such a report. */
  ghost predicate WasReported(w: Wiring, steps: seq<Step>, d: Dispatcher, id: nat) {
    exists i :: 0 <= i < |steps| && Run(w, steps[..i]).Some? && Reports(Run(w, steps[..i]).value, steps[i], d, id)
  }

  lemma {:induction false} StoresByReport(w: Wiring, s: State, step: Step, d: Dispatcher, id: nat)
    requires Enabled(s, step) && Dispatch(d, id) !in s.past.stored && Dispatch(d, id) in Next(w, s, step).past.stored
    ensures Reports(s, step, d, id)
  {
    match step
    case Local(c, m) => LocalExtends(w, s, c, m);
    case _ =>
  }

  /** What counts as stored was reported by that producer for that record. */
  lemma {:induction false} StoredWasReported(w: Wiring, steps: seq<Step>, d: Dispatcher, id: nat)
    requires Run(w, steps).Some? && Dispatch(d, id) in Run(w, steps).value.past.stored
    ensures WasReported(w, steps, d, id)
  {
    if steps != [] {
      var n := |steps| - 1;
      var before := steps[..n];
      if Dispatch(d, id) in Run(w, before).value.past.stored {
        StoredWasReported(w, before, d, id);
        var i :| 0 <= i < n && Run(w, before[..i]).Some? && Reports(Run(w, before[..i]).value, before[i], d, id);
        assert before[..i] == steps[..i];
      } else {
        StoresByReport(w, Run(w, before).value, steps[n], d, id);
      }
    }
  }

  /**
   * Every response to a reliably parsed record is an ack, and its designated producer has
   * reported success for that very record in an earlier step of the run.
   */
  lemma {:induction false} AckWasReported(w: Wiring, steps: seq<Step>, i: nat)
    requires w.Wired() && Run(w, steps).Some? && i < |Run(w, steps).value.past.log|
    ensures
      var s := Run(w, steps).value;
      var r := s.past.log[i];
      && r.id < |s.past.entries|
      && var e := s.past.entries[r.id];
         (e.origin == Message(Parsed) && e.rec.txType in w.reliable ==>
            r.reply == Ack && WasReported(w, steps, w.reliable[e.rec.txType], r.id))
  {
    var s := Run(w, steps).value;
    ResponseIsOk(w, steps, i);
    var r := s.past.log[i];
    var e := s.past.entries[r.id];
    if e.origin == Message(Parsed) && e.rec.txType in w.reliable {
      StoredWasReported(w, steps, w.reliable[e.rec.txType], r.id);
    }
  }

  lemma {:induction false} ResponseIsOk(w: Wiring, steps: seq<Step>, i: nat)
    requires w.Wired() && Run(w, steps).Some? && i < |Run(w, steps).value.past.log|
    ensures
      var s := Run(w, steps).value;
      && ResponseOk(w, s.conns, s.past, s.past.log[i])
      && s.past.entries[s.past.log[i].id].rec.id == s.past.log[i].id
  {
    RunKeepsInv(w, steps);
    assert ResponseOk(w, Run(w, steps).value.conns, Run(w, steps).value.past, Run(w, steps).value.past.log[i]);
  }

  // ----- The stages of a connection -----

  /** Accepted, registered, serving, closing, closed, stopped, deregistered, done. */
  function Stage(pc: Pc): nat {
    match pc
    case Accepted => 0
    case Registered => 1
    case Running(_, _, phase) =>
      (match phase
       case Connecting => 1
       case Serving => 2
       case Disconnecting => 6)
    case Reading => 2
    case Closing => 3
    case Closed => 4
    case Stopped => 5
    case Deregistered => 6
    case Done => 7
  }

  /**
   * Every handler goes through its stages one by one and skips none. Records are read at
   * the serving stage only, where the writer runs from the start; an event that cannot be
   * announced, or has been, ends its stage.
   */
  lemma {:induction false} StagesInOrder(w: Wiring, s: State, c: nat, m: Move)
    requires Enabled(s, Local(c, m))
    ensures
      var pc, k' := s.conns[c].pc, Next(w, s, Local(c, m)).conns[c];
      var announces := m.Announce? && m.built && "connectivity" in w.rules;
      && (m.Register? ==> Stage(pc) == 0)
      && (m.Announce? ==> Stage(pc) == 1 || Stage(pc) == 6)
      && (m.Read? || m.Shed? || m.ReadEnd? ==> Stage(pc) == 2)
      && (m.CloseSocket? ==> Stage(pc) == 3)
      && (m.CloseStop? ==> Stage(pc) == 4)
      && (m.Deregister? ==> Stage(pc) == 5)
      && Stage(k'.pc) == Stage(pc) + (if
             || m.Register? || m.ReadEnd? || m.CloseSocket? || m.CloseStop? || m.Deregister?
             || (m.Announce? && !announces)
             || (m.Finish? && Stage(pc) != 2)
           then 1 else 0)
      && (Stage(pc) == 1 && Stage(k'.pc) == 2 ==> k'.pc == Reading && k'.writer == Waiting)
      && (m.Finish? && Stage(pc) == 2 ==> k'.pc == Reading)
  {
    LocalExtends(w, s, c, m);
  }

  /** Nobody else moves a connection. */
  lemma {:induction false} StagesAreOwn(w: Wiring, s: State, step: Step, c: nat)
    requires Enabled(s, step) && c < |s.conns| && (step.Local? ==> step.c != c)
    ensures c < |Next(w, s, step).conns| && Next(w, s, step).conns[c].pc == s.conns[c].pc
    ensures Next(w, s, step).conns[c].writer == s.conns[c].writer
  {
    if step.Local? { LocalExtends(w, s, step.c, step.move); }
  }

  /** The record a step creates: its connection, socket id, type and where it came from. */
  lemma {:induction false} RecordsAre(w: Wiring, s: State, c: nat, m: Move)
    requires Enabled(s, Local(c, m))
    ensures
      var id, uuid := |s.past.entries|, s.conns[c].uuid;
      Next(w, s, Local(c, m)).past.entries == s.past.entries +
        match m
        case Read(outcome, t) => [Entry(Record(id, c, uuid, t, true), Message(outcome))]
        case Shed(t) => [Entry(Record(id, c, uuid, t, true), RateLimited)]
        case Announce(built) =>
          if built && "connectivity" in w.rules then
            [Entry(Record(id, c, uuid, "connectivity", true),
                   if Stage(s.conns[c].pc) == 1 then Connected else Disconnected)]
          else []
        case _ => []
  {
    LocalExtends(w, s, c, m);
  }
}
