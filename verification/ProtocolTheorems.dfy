/** What holds in every run of the protocol, over every interleaving. */
module ProtocolTheorems {
  import opened Wrappers
  import opened Telemetry
  import opened Connections
  import opened ConnectionInvariants
  import opened Protocol
  import opened ProtocolInvariants
  import opened ProtocolAccounting
  import Configuration

  ghost predicate Inv(w: Wiring, s: State) {
    && EntriesOk(s)
    && ConnsOk(w, s)
    && PipelineOk(w, s)
    && HistoryOk(w, s.past)
    && LogOk(w, s)
    && RegistryOk(s)
    && RoutedOk(s)
    && Books(w, s)
    && Tallied(s)
  }

  lemma {:induction false} StepKeepsInv(w: Wiring, s: State, step: Step)
    requires w.Wired() && Enabled(s, step) && Inv(w, s)
    ensures Inv(w, Next(w, s, step))
  {
    StepKeepsEntries(w, s, step);
    StepKeepsConns(w, s, step);
    StepKeepsPipeline(w, s, step);
    StepKeepsHistory(w, s, step);
    StepKeepsLog(w, s, step);
    StepKeepsRegistry(w, s, step);
    StepKeepsRouted(w, s, step);
    StepKeepsBooks(w, s, step);
    StepKeepsTally(w, s, step);
  }

  /** Every reachable state satisfies the invariants. */
  lemma {:induction false} RunKeepsInv(w: Wiring, steps: seq<Step>)
    requires w.Wired() && Run(w, steps).Some?
    ensures Inv(w, Run(w, steps).value)
  {
    if steps == [] {
      assert LiveSet(Init.conns) == {};
    } else {
      var before := steps[..|steps| - 1];
      RunKeepsInv(w, before);
      StepKeepsInv(w, Run(w, before).value, steps[|steps| - 1]);
    }
  }

  /** A run can be looked at just before its last step. */
  lemma {:induction false} RunOneMore(w: Wiring, steps: seq<Step>, step: Step)
    requires Run(w, steps).Some? && Enabled(Run(w, steps).value, step)
    ensures Run(w, steps + [step]) == Some(Next(w, Run(w, steps).value, step))
  {
    assert (steps + [step])[..|steps|] == steps;
  }

  /** The last step of a run was enabled and led to its state. */
  lemma {:induction false} LastStep(w: Wiring, steps: seq<Step>, step: Step)
    requires Run(w, steps + [step]).Some?
    ensures Run(w, steps).Some? && Enabled(Run(w, steps).value, step)
    ensures Run(w, steps + [step]) == Some(Next(w, Run(w, steps).value, step))
  {
    assert (steps + [step])[..|steps|] == steps;
  }

  // ----- Ack implies stored -----

  /** A successfully parsed vehicle record whose type waits for its producer. */
  predicate ReliablyParsed(w: Wiring, e: Entry) {
    e.origin == Message(Parsed) && e.rec.txType in w.reliable
  }

  /**
   * Whatever step enqueues a response to a reliably parsed record, the response is an ack
   * and the designated producer had already reported success for that very record.
   */
  lemma {:induction false} AckImpliesStored(w: Wiring, steps: seq<Step>, step: Step, r: Response)
    requires w.Wired() && Run(w, steps).Some? && Enabled(Run(w, steps).value, step)
    requires Next(w, Run(w, steps).value, step).past.log == Run(w, steps).value.past.log + [r]
    ensures
      var s := Run(w, steps).value;
      && r.id < |s.past.entries|
      && var e := s.past.entries[r.id];
         ReliablyParsed(w, e) ==> r.reply == Ack && Dispatch(w.reliable[e.rec.txType], r.id) in s.past.stored
  {
    RunKeepsInv(w, steps);
    StepEarnsAck(w, Run(w, steps).value, step, r);
  }

  lemma {:induction false} StepEarnsAck(w: Wiring, s: State, step: Step, r: Response)
    requires Enabled(s, step) && ConnsOk(w, s) && PipelineOk(w, s)
    requires Next(w, s, step).past.log == s.past.log + [r]
    ensures r.id < |s.past.entries|
    ensures
      var e := s.past.entries[r.id];
      ReliablyParsed(w, e) ==> r.reply == Ack && Dispatch(w.reliable[e.rec.txType], r.id) in s.past.stored
  {
    var log' := Next(w, s, step).past.log;
    assert log'[|s.past.log|] == r;
    match step
    case Local(c, m) =>
      assert ConnOk(w, s.conns[c], c, s.past);
      MoveEarnsAck(w, s, c, m, r);
    case ReplyFromServer =>
    case _ => assert false;
  }

  lemma {:induction false} MoveEarnsAck(w: Wiring, s: State, c: nat, m: Move, r: Response)
    requires Enabled(s, Local(c, m)) && OwnRecord(s.conns[c], c, s.past.entries)
    requires ActsOk(w, s.conns[c].pc, s.past.entries, s.past.stored)
    requires Next(w, s, Local(c, m)).past.log == s.past.log + [r]
    ensures r.id < |s.past.entries| && !ReliablyParsed(w, s.past.entries[r.id])
  {
    var k, e := s.conns[c], Emitted(w, s, c, m);
    LocalExtends(w, s, c, m);
    assert s.past.log + ResponsesAdded(e) == s.past.log + [r];
    assert |ResponsesAdded(e)| == 1;
    assert (s.past.log + ResponsesAdded(e))[|s.past.log|] == r;
    assert e.Answered? && e.response == r;
    assert k.pc.acts[0] in k.pc.acts;
  }

  /** With one designated producer in the rule list, its failure means the record is never answered. */
  lemma {:induction false} FailureNeverAcks(w: Wiring, steps: seq<Step>, id: nat)
    requires w.Wired() && Run(w, steps).Some? && id < |Run(w, steps).value.past.entries|
    requires
      var e := Run(w, steps).value.past.entries[id];
      ReliablyParsed(w, e) && Designated(w, e.rec.txType) == 1
    requires id in Run(w, steps).value.past.failed
    ensures
      var s := Run(w, steps).value;
      && (forall i :: 0 <= i < |s.past.log| ==> s.past.log[i].id != id)
      && Travelling(w, s, s.past.entries[id].rec) == 0
  {
    var s := Run(w, steps).value;
    RunKeepsInv(w, steps);
    BudgetIs(w, s.past.entries[id]);
    assert Balanced(w, s, id);
    forall i | 0 <= i < |s.past.log| ensures s.past.log[i].id != id {
      if s.past.log[i].id == id { Counted(s.past.log, i); }
    }
  }

  /** The same for a server started on a validated configuration. */
  lemma {:induction false} ConfiguredAckImpliesStored(records: map<TxType, seq<Dispatcher>>,
                                                      sources: map<TxType, Dispatcher>,
                                                      steps: seq<Step>, step: Step, r: Response)
    requires Configuration.ValidSources(records, sources)
    requires
      var w := Configuration.WiringOf(records, sources);
      && Run(w, steps).Some? && Enabled(Run(w, steps).value, step)
      && Next(w, Run(w, steps).value, step).past.log == Run(w, steps).value.past.log + [r]
    ensures
      var s := Run(Configuration.WiringOf(records, sources), steps).value;
      && r.id < |s.past.entries|
      && var e := s.past.entries[r.id];
         e.origin == Message(Parsed) && e.rec.txType in sources ==>
           r.reply == Ack && Dispatch(sources[e.rec.txType], r.id) in s.past.stored
  {
    Configuration.ValidatedWiring(records, sources);
    AckImpliesStored(Configuration.WiringOf(records, sources), steps, step, r);
  }

  // ----- Response accounting -----

  /** The most responses a record may get, in the configuration's terms. */
  function MostResponses(w: Wiring, e: Entry): nat {
    match e.origin
    case Message(Parsed) => if e.rec.txType in w.reliable then Designated(w, e.rec.txType) else 1
    case Message(UnknownType) => if e.rec.txType in w.reliable then 1 + Designated(w, e.rec.txType) else 2
    case Message(_) => 1
    case _ => 0
  }

  /** The read loop has finished with record `id`. */
  predicate Handled(s: State, id: nat)
    requires id < |s.past.entries| && s.past.entries[id].rec.conn < |s.conns|
  {
    var pc := s.conns[s.past.entries[id].rec.conn].pc;
    !(pc.Running? && pc.rec.id == id)
  }

  /**
   * Never more responses than the budget. Once the read loop is done with a record, what
   * is missing is on its way from a producer, was lost by a producer failure, or was
   * missed by the ack loop; records that wait for no producer miss nothing.
   */
  lemma {:induction false} ResponseAccounting(w: Wiring, steps: seq<Step>, id: nat)
    requires w.Wired() && Run(w, steps).Some? && id < |Run(w, steps).value.past.entries|
    ensures
      var s := Run(w, steps).value;
      var e := s.past.entries[id];
      var n := Count(s.past.log, id);
      && e.rec.conn < |s.conns|
      && n <= MostResponses(w, e)
      && (Handled(s, id) ==> n + Travelling(w, s, e.rec) + s.past.failed[id] + s.past.misses[id] == MostResponses(w, e))
      && (Handled(s, id) && !MayWait(w, e) ==> n == MostResponses(w, e))
  {
    RunKeepsInv(w, steps);
    var s := Run(w, steps).value;
    assert Balanced(w, s, id);
    BudgetIs(w, s.past.entries[id]);
    if !MayWait(w, s.past.entries[id]) { NothingToWaitFor(w, s, id); }
  }

  lemma {:induction false} NothingToWaitFor(w: Wiring, s: State, id: nat)
    requires w.Wired() && EntriesOk(s) && PipelineOk(w, s) && HistoryOk(w, s.past)
    requires id < |s.past.entries| && !MayWait(w, s.past.entries[id])
    ensures Travelling(w, s, s.past.entries[id].rec) == 0 && s.past.failed[id] == 0 && s.past.misses[id] == 0
  {
    var rec := s.past.entries[id].rec;
    assert w.Acks(Kafka, rec.txType) ==> rec.txType in w.reliable;
    assert rec in s.inflight ==> IsDispatched(s.past.entries[id].origin);
  }

  /** Too big and otherwise malformed messages are answered by errors only and reach no producer. */
  lemma {:induction false} RejectedOnlyErrors(w: Wiring, steps: seq<Step>, id: nat)
    requires w.Wired() && Run(w, steps).Some? && id < |Run(w, steps).value.past.entries|
    requires
      var o := Run(w, steps).value.past.entries[id].origin;
      o == Message(TooBig) || o == Message(OtherError)
    ensures
      var s := Run(w, steps).value;
      && (forall i :: 0 <= i < |s.past.log| && s.past.log[i].id == id ==>
            s.past.log[i].reply == Error && s.past.log[i].sock == s.past.entries[id].rec.conn)
      && (forall c, i :: 0 <= c < |s.conns| && 0 <= i < |s.conns[c].trace| ==> s.conns[c].trace[i].id != id)
  {
    RunKeepsInv(w, steps);
    RejectedResponses(w, Run(w, steps).value, id);
    RejectedCalls(w, Run(w, steps).value, id);
  }

  lemma {:induction false} RejectedResponses(w: Wiring, s: State, id: nat)
    requires EntriesOk(s) && LogOk(w, s) && HistoryOk(w, s.past) && id < |s.past.entries|
    requires s.past.entries[id].origin == Message(TooBig) || s.past.entries[id].origin == Message(OtherError)
    ensures forall i :: 0 <= i < |s.past.log| && s.past.log[i].id == id ==>
              s.past.log[i].reply == Error && s.past.log[i].sock == s.past.entries[id].rec.conn
  {
    forall i | 0 <= i < |s.past.log| && s.past.log[i].id == id
      ensures s.past.log[i].reply == Error && s.past.log[i].sock == s.past.entries[id].rec.conn
    {
      assert ResponseOk(w, s.conns, s.past, s.past.log[i]);
    }
  }

  lemma {:induction false} RejectedCalls(w: Wiring, s: State, id: nat)
    requires EntriesOk(s) && ConnsOk(w, s) && id < |s.past.entries| && !IsDispatched(s.past.entries[id].origin)
    ensures forall c, i :: 0 <= c < |s.conns| && 0 <= i < |s.conns[c].trace| ==> s.conns[c].trace[i].id != id
  {
    forall c, i | 0 <= c < |s.conns| && 0 <= i < |s.conns[c].trace| ensures s.conns[c].trace[i].id != id {
      TraceIsWanted(w, s, c, i);
    }
  }

  /** Every producer call belongs to a dispatched record of the calling connection. */
  lemma {:induction false} TraceIsWanted(w: Wiring, s: State, c: nat, i: nat)
    requires EntriesOk(s) && ConnsOk(w, s) && c < |s.conns| && i < |s.conns[c].trace|
    ensures
      var d := s.conns[c].trace[i];
      && d.id < |s.past.entries|
      && IsDispatched(s.past.entries[d.id].origin)
      && s.past.entries[d.id].rec.conn == c
  {
    var k := s.conns[c];
    assert ConnOk(w, k, c, s.past);
    var all := WantedBy(w, s.past.entries, c);
    assert all[i] == k.trace[i] by { assert (k.trace + Pending(k.pc))[i] == k.trace[i]; }
    WantedIsDispatched(w, s.past.entries, c, i);
  }

  lemma {:induction false} WantedIsDispatched(w: Wiring, es: seq<Entry>, c: nat, i: nat)
    requires i < |WantedBy(w, es, c)|
    requires forall j :: 0 <= j < |es| ==> es[j].rec.id == j
    ensures
      var d := WantedBy(w, es, c)[i];
      d.id < |es| && IsDispatched(es[d.id].origin) && es[d.id].rec.conn == c
  {
    var rest := es[..|es| - 1];
    if i < |WantedBy(w, rest, c)| { WantedIsDispatched(w, rest, c, i); }
  }
}
