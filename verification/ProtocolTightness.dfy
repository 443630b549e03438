/**
 * The response bound is met: for every wiring and every kind of message there is a run in
 * which the record gets all the responses it may get. So the bound cannot be lowered.
 */
module ProtocolTightness {
  import opened Wrappers
  import opened Telemetry
  import opened Connections
  import opened ConnectionInvariants
  import opened Protocol
  import opened ProtocolAccounting
  import opened ProtocolTheorems
  import opened ProtocolRuns

  const UUID: string := "u"

  /** The response one action leads to. */
  function Answer(w: Wiring, rec: Record, a: Action): seq<Response> {
    if Worth(w, rec.txType, a) == 1 then [Response(0, rec.id, if a.Respond? then a.reply else Ack)] else []
  }

  /** The responses a program leads to when every producer that owes an ack succeeds. */
  function Responses(w: Wiring, rec: Record, acts: seq<Action>): (log: seq<Response>)
    ensures |log| == Owed(w, rec.txType, acts)
    ensures forall i :: 0 <= i < |log| ==> log[i].id == rec.id
  {
    if acts == [] then [] else Answer(w, rec, acts[0]) + Responses(w, rec, acts[1..])
  }

  /** What matters of a server with a single connection, whose writer is idle. */
  datatype View = View(
    pc: Pc,
    buffer: seq<Response>,
    handler: Handler,
    delivering: Option<Record>,
    entries: seq<Entry>,
    log: seq<Response>,
    failed: multiset<nat>)

  predicate Shows(s: State, v: View) {
    && |s.conns| == 1
    && s.conns[0].writer == Waiting
    && s.registry.Get(UUID) == Some(0)
    && v.pc == s.conns[0].pc && v.buffer == s.conns[0].buffer
    && v.handler == s.handler && v.delivering == s.delivering
    && v.entries == s.past.entries && v.log == s.past.log && v.failed == s.past.failed
  }

  /** The handler is running a program and nothing else is going on. */
  predicate Quiet(v: View, rec: Record, acts: seq<Action>) {
    && v.pc == Running(rec, acts, Phase.Serving)
    && v.buffer == [] && v.handler == Free && v.delivering == None
    && rec.socketId == UUID && rec.hasSerializer
  }

  function Rest(v: View): View
    requires v.pc.Running? && v.pc.acts != []
  {
    v.(pc := v.pc.(acts := v.pc.acts[1..]))
  }

  lemma {:induction false} Takes(w: Wiring, steps: seq<Step>, s: State, v: View) returns (steps': seq<Step>, s': State)
    requires Run(w, steps) == Some(s) && Shows(s, v) && |v.buffer| == 1
    ensures Run(w, steps') == Some(s') && Shows(s', v.(buffer := []))
  {
    var s1 := Next(w, s, Local(0, Take));
    Extend(w, steps, s, Local(0, Take), s1);
    s' := Next(w, s1, Local(0, Write(None)));
    Extend(w, steps + [Local(0, Take)], s1, Local(0, Write(None)), s');
    steps' := steps + [Local(0, Take)] + [Local(0, Write(None))];
  }

  /** The ack loop finds the connection and enqueues the ack. */
  lemma {:induction false} Acks(w: Wiring, steps: seq<Step>, s: State, v: View) returns (steps': seq<Step>, s': State)
    requires Run(w, steps) == Some(s) && Shows(s, v) && v.buffer == [] && v.handler.Holding?
    requires v.handler.rec.hasSerializer && v.handler.rec.socketId == UUID
    ensures Run(w, steps') == Some(s')
    ensures
      var r := Response(0, v.handler.rec.id, Ack);
      Shows(s', v.(handler := Free, buffer := [r], log := v.log + [r]))
  {
    var s1 := Next(w, s, Lookup);
    Extend(w, steps, s, Lookup, s1);
    s' := Next(w, s1, ReplyFromServer);
    Extend(w, steps + [Lookup], s1, ReplyFromServer, s');
    steps' := steps + [Lookup] + [ReplyFromServer];
  }

  lemma {:induction false} PushesAtOnce(w: Wiring, steps: seq<Step>, s: State, v: View, rec: Record, acts: seq<Action>)
    returns (steps': seq<Step>, s': State)
    requires Run(w, steps) == Some(s) && Shows(s, v) && Quiet(v, rec, acts)
    requires acts != [] && acts[0].Produce? && acts[0].to != Kafka && w.Acks(acts[0].to, rec.txType)
    ensures Run(w, steps') == Some(s') && Shows(s', Rest(v).(handler := Holding(rec)))
  {
    assert ([PushAck] + acts[1..])[1..] == acts[1..];
    var s1 := Next(w, s, Local(0, Publish(true)));
    Extend(w, steps, s, Local(0, Publish(true)), s1);
    s' := Next(w, s1, Local(0, Push));
    Extend(w, steps + [Local(0, Publish(true))], s1, Local(0, Push), s');
    steps' := steps + [Local(0, Publish(true))] + [Local(0, Push)];
  }

  lemma {:induction false} Queues(w: Wiring, steps: seq<Step>, s: State, v: View, rec: Record, acts: seq<Action>)
    returns (steps': seq<Step>, s': State)
    requires Run(w, steps) == Some(s) && Shows(s, v) && Quiet(v, rec, acts)
    requires acts != [] && acts[0] == Produce(Kafka)
    ensures Run(w, steps') == Some(s') && Shows(s', Rest(v)) && rec in s'.inflight
  {
    s' := Next(w, s, Local(0, Publish(true)));
    Extend(w, steps, s, Local(0, Publish(true)), s');
    steps' := steps + [Local(0, Publish(true))];
  }

  lemma {:induction false} Delivers(w: Wiring, steps: seq<Step>, s: State, v: View, rec: Record)
    returns (steps': seq<Step>, s': State)
    requires Run(w, steps) == Some(s) && Shows(s, v) && v.handler == Free && v.delivering == None
    requires rec in s.inflight && w.Acks(Kafka, rec.txType)
    ensures Run(w, steps') == Some(s') && Shows(s', v.(handler := Holding(rec)))
  {
    var s1 := Next(w, s, Delivery(rec, true));
    Extend(w, steps, s, Delivery(rec, true), s1);
    s' := Next(w, s1, PushFromKafka);
    Extend(w, steps + [Delivery(rec, true)], s1, PushFromKafka, s');
    steps' := steps + [Delivery(rec, true)] + [PushFromKafka];
  }

  /** A producer that owes the ack stores the record, and the vehicle is told. */
  lemma {:induction false} StoresAndAcks(w: Wiring, steps: seq<Step>, s: State, v: View, rec: Record, acts: seq<Action>)
    returns (steps': seq<Step>, s': State)
    requires Run(w, steps) == Some(s) && Shows(s, v) && Quiet(v, rec, acts)
    requires acts != [] && acts[0].Produce? && w.Acks(acts[0].to, rec.txType)
    ensures Run(w, steps') == Some(s') && Shows(s', Rest(v).(log := v.log + [Response(0, rec.id, Ack)]))
  {
    var v1, r := Rest(v).(handler := Holding(rec)), Response(0, rec.id, Ack);
    var s1;
    if acts[0].to == Kafka {
      steps', s1 := Queues(w, steps, s, v, rec, acts);
      steps', s1 := Delivers(w, steps', s1, Rest(v), rec);
    } else {
      steps', s1 := PushesAtOnce(w, steps, s, v, rec, acts);
    }
    steps', s1 := Acks(w, steps', s1, v1);
    steps', s' := Takes(w, steps', s1, v1.(handler := Free, buffer := [r], log := v.log + [r]));
  }

  lemma {:induction false} Replies(w: Wiring, steps: seq<Step>, s: State, v: View, rec: Record, acts: seq<Action>)
    returns (steps': seq<Step>, s': State)
    requires Run(w, steps) == Some(s) && Shows(s, v) && Quiet(v, rec, acts) && acts != [] && acts[0].Respond?
    ensures Run(w, steps') == Some(s') && Shows(s', Rest(v).(log := v.log + [Response(0, rec.id, acts[0].reply)]))
  {
    var r := Response(0, rec.id, acts[0].reply);
    var s1 := Next(w, s, Local(0, Enqueue));
    Extend(w, steps, s, Local(0, Enqueue), s1);
    steps', s' := Takes(w, steps + [Local(0, Enqueue)], s1, Rest(v).(buffer := [r], log := v.log + [r]));
  }

  /** A producer that owes nothing fails, which only leaves a log line. */
  lemma {:induction false} Skips(w: Wiring, steps: seq<Step>, s: State, v: View, rec: Record, acts: seq<Action>)
    returns (steps': seq<Step>, s': State)
    requires Run(w, steps) == Some(s) && Shows(s, v) && Quiet(v, rec, acts)
    requires acts != [] && acts[0].Produce? && !w.Acks(acts[0].to, rec.txType)
    ensures Run(w, steps') == Some(s') && Shows(s', Rest(v))
  {
    s' := Next(w, s, Local(0, Publish(false)));
    Extend(w, steps, s, Local(0, Publish(false)), s');
    steps' := steps + [Local(0, Publish(false))];
  }

  lemma {:induction false} DoesOne(w: Wiring, steps: seq<Step>, s: State, v: View, rec: Record, acts: seq<Action>)
    returns (steps': seq<Step>, s': State)
    requires Run(w, steps) == Some(s) && Shows(s, v) && Quiet(v, rec, acts) && acts != [] && acts[0] != PushAck
    ensures Run(w, steps') == Some(s')
    ensures Shows(s', Rest(v).(log := v.log + Answer(w, rec, acts[0])))
  {
    if acts[0].Respond? {
      steps', s' := Replies(w, steps, s, v, rec, acts);
    } else if w.Acks(acts[0].to, rec.txType) {
      steps', s' := StoresAndAcks(w, steps, s, v, rec, acts);
    } else {
      steps', s' := Skips(w, steps, s, v, rec, acts);
      assert v.log + [] == v.log;
    }
  }

  predicate NoPush(acts: seq<Action>) {
    forall i :: 0 <= i < |acts| ==> acts[i] != PushAck
  }

  lemma {:induction false} AnswersInOrder(w: Wiring, rec: Record, acts: seq<Action>, log: seq<Response>)
    requires acts != []
    ensures log + Answer(w, rec, acts[0]) + Responses(w, rec, acts[1..]) == log + Responses(w, rec, acts)
  {
    var added, more := Answer(w, rec, acts[0]), Responses(w, rec, acts[1..]);
    assert (log + added) + more == log + (added + more);
  }

  lemma {:induction false} DoesAll(w: Wiring, steps: seq<Step>, s: State, v: View, rec: Record, acts: seq<Action>)
    returns (steps': seq<Step>, s': State)
    requires Run(w, steps) == Some(s) && Shows(s, v) && Quiet(v, rec, acts) && NoPush(acts)
    ensures Run(w, steps') == Some(s')
    ensures s'.past.entries == v.entries && s'.past.failed == v.failed
    ensures s'.past.log == v.log + Responses(w, rec, acts)
    decreases |acts|
  {
    if acts == [] {
      steps', s' := steps, s;
      assert v.log + [] == v.log;
    } else {
      var s1;
      steps', s1 := DoesOne(w, steps, s, v, rec, acts);
      var v1 := Rest(v).(log := v.log + Answer(w, rec, acts[0]));
      steps', s' := DoesAll(w, steps', s1, v1, rec, acts[1..]);
      AnswersInOrder(w, rec, acts, v.log);
    }
  }

  lemma {:induction false} ProgramsNeverPush(w: Wiring, outcome: Outcome, t: TxType)
    ensures NoPush(Program(w, outcome, t))
  {
  }

  /** The only connection right after it has read its first message. */
  function FirstRead(w: Wiring, rec: Record, outcome: Outcome): View {
    View(Running(rec, Program(w, outcome, rec.txType), Phase.Serving), [], Free, None,
         [Entry(rec, Message(outcome))], [], multiset{})
  }

  lemma {:induction false} ReadsFirst(w: Wiring, outcome: Outcome, t: TxType) returns (steps: seq<Step>, s: State)
    requires outcome.TooBig? || outcome.UnknownType? ==> t == ""
    ensures Run(w, steps) == Some(s) && Shows(s, FirstRead(w, Record(0, 0, UUID, t, true), outcome))
  {
    var s1;
    steps, s1 := Opens(w, [], Init, UUID);
    s := Next(w, s1, Local(0, Read(outcome, t)));
    Extend(w, steps, s1, Local(0, Read(outcome, t)), s);
    steps := steps + [Local(0, Read(outcome, t))];
  }

  /** One message, handled to the end with every producer that owes an ack succeeding. */
  lemma {:induction false} HandlesOne(w: Wiring, outcome: Outcome, t: TxType) returns (steps: seq<Step>, s: State)
    requires outcome.TooBig? || outcome.UnknownType? ==> t == ""
    ensures Run(w, steps) == Some(s)
    ensures
      var rec := Record(0, 0, UUID, t, true);
      s.past.entries == [Entry(rec, Message(outcome))] && s.past.log == Responses(w, rec, Program(w, outcome, t))
  {
    var rec, acts := Record(0, 0, UUID, t, true), Program(w, outcome, t);
    ProgramsNeverPush(w, outcome, t);
    var s1;
    steps, s1 := ReadsFirst(w, outcome, t);
    steps, s := DoesAll(w, steps, s1, FirstRead(w, rec, outcome), rec, acts);
    assert [] + Responses(w, rec, acts) == Responses(w, rec, acts);
  }

  lemma {:induction false} CountOfOne(log: seq<Response>, id: nat)
    requires forall i :: 0 <= i < |log| ==> log[i].id == id
    ensures Count(log, id) == |log|
  {
    if log != [] { CountOfOne(log[..|log| - 1], id); }
  }

  /** For every wiring, outcome and type some run answers a message as often as is allowed at all. */
  lemma {:induction false} BoundIsMet(w: Wiring, outcome: Outcome, t: TxType) returns (steps: seq<Step>, s: State)
    requires w.Wired() && (outcome.TooBig? || outcome.UnknownType? ==> t == "")
    ensures Run(w, steps) == Some(s)
    ensures
      && |s.past.entries| == 1
      && s.past.entries[0].origin == Message(outcome) && s.past.entries[0].rec.txType == t
      && Count(s.past.log, 0) == MostResponses(w, s.past.entries[0])
  {
    steps, s := HandlesOne(w, outcome, t);
    CountOfOne(s.past.log, 0);
    BudgetIs(w, s.past.entries[0]);
  }

  /** In every run a parsed record of type `t` gets at most one response. */
  ghost predicate AtMostOne(w: Wiring, t: TxType) {
    forall steps: seq<Step>, id: nat ::
      Run(w, steps).Some? && id < |Run(w, steps).value.past.entries|
      && Run(w, steps).value.past.entries[id].origin == Message(Parsed)
      && Run(w, steps).value.past.entries[id].rec.txType == t
      ==> Count(Run(w, steps).value.past.log, id) <= 1
  }

  /** A reliable type is answered at most once in every run exactly if its rule names the designated producer once. */
  lemma {:induction false} AtMostOneIff(w: Wiring, t: TxType)
    requires w.Wired() && t in w.reliable
    ensures AtMostOne(w, t) <==> Designated(w, t) <= 1
  {
    var steps, s := BoundIsMet(w, Parsed, t);
    if AtMostOne(w, t) {
      assert Count(Run(w, steps).value.past.log, 0) <= 1;
    }
    if Designated(w, t) <= 1 {
      forall steps: seq<Step>, id: nat |
        Run(w, steps).Some? && id < |Run(w, steps).value.past.entries|
        && Run(w, steps).value.past.entries[id].origin == Message(Parsed)
        && Run(w, steps).value.past.entries[id].rec.txType == t
        ensures Count(Run(w, steps).value.past.log, id) <= 1
      {
        ResponseAccounting(w, steps, id);
      }
    }
  }

  /** A rule that names a producer twice makes it ack twice. */
  lemma {:induction false} DuplicateAcksTwice(w: Wiring, t: TxType, d: Dispatcher) returns (steps: seq<Step>, s: State)
    requires t in w.rules && w.rules[t] == [d, d] && t in w.reliable && w.Acks(d, t)
    ensures Run(w, steps) == Some(s)
    ensures s.past.entries == [Entry(Record(0, 0, UUID, t, true), Message(Parsed))]
    ensures s.past.log == [Response(0, 0, Ack), Response(0, 0, Ack)]
  {
    steps, s := HandlesOne(w, Parsed, t);
    var acts := Program(w, Parsed, t);
    assert acts == [Produce(d), Produce(d)];
    assert acts[1..] == [Produce(d)] && acts[1..][1..] == [];
  }

  lemma {:induction false} DesignatedIsNamed(w: Wiring, t: TxType)
    requires w.Wired() && t in w.reliable
    ensures Designated(w, t) >= 1
  {
    assert w.reliable[t] in multiset(w.rules[t]);
  }

  /** In every wired server some run answers a message of unknown type at least twice. */
  lemma {:induction false} UnknownTypeIsAckedAgain(w: Wiring) returns (steps: seq<Step>, s: State)
    requires w.Wired()
    ensures Run(w, steps) == Some(s)
    ensures |s.past.entries| == 1 && s.past.entries[0].origin == Message(UnknownType)
    ensures Count(s.past.log, 0) == if "" in w.reliable then 1 + Designated(w, "") else 2
    ensures Count(s.past.log, 0) >= 2
  {
    steps, s := BoundIsMet(w, UnknownType, "");
    if "" in w.reliable { DesignatedIsNamed(w, ""); }
  }

  // ----- Failures -----

  /** A producer that owes the ack fails. */
  lemma {:induction false} Fails(w: Wiring, steps: seq<Step>, s: State, v: View, rec: Record, acts: seq<Action>)
    returns (steps': seq<Step>, s': State)
    requires Run(w, steps) == Some(s) && Shows(s, v) && Quiet(v, rec, acts)
    requires acts != [] && acts[0].Produce? && w.Acks(acts[0].to, rec.txType)
    ensures Run(w, steps') == Some(s') && Shows(s', Rest(v).(failed := v.failed + multiset{rec.id}))
  {
    s' := Next(w, s, Local(0, Publish(false)));
    Extend(w, steps, s, Local(0, Publish(false)), s');
    steps' := steps + [Local(0, Publish(false))];
  }

  predicate OnlyCalls(acts: seq<Action>) {
    forall i :: 0 <= i < |acts| ==> acts[i].Produce?
  }

  /** The first call that owes the ack fails, and all later ones succeed. */
  lemma {:induction false} FailsOnce(w: Wiring, steps: seq<Step>, s: State, v: View, rec: Record, acts: seq<Action>)
    returns (steps': seq<Step>, s': State)
    requires Run(w, steps) == Some(s) && Shows(s, v) && Quiet(v, rec, acts) && OnlyCalls(acts)
    requires Owed(w, rec.txType, acts) >= 2
    ensures Run(w, steps') == Some(s') && s'.past.entries == v.entries && rec.id in s'.past.failed
    ensures exists i :: 0 <= i < |s'.past.log| && s'.past.log[i].id == rec.id
    decreases |acts|
  {
    var s1;
    if w.Acks(acts[0].to, rec.txType) {
      steps', s1 := Fails(w, steps, s, v, rec, acts);
      var more := Responses(w, rec, acts[1..]);
      steps', s' := DoesAll(w, steps', s1, Rest(v).(failed := v.failed + multiset{rec.id}), rec, acts[1..]);
      assert s'.past.log[|v.log|] == more[0];
    } else {
      steps', s1 := Skips(w, steps, s, v, rec, acts);
      steps', s' := FailsOnce(w, steps', s1, Rest(v), rec, acts[1..]);
    }
  }

  /** With its designated producer named twice, a record can be acked although one of the calls failed. */
  lemma {:induction false} FailedAndAcked(w: Wiring, t: TxType) returns (steps: seq<Step>, s: State)
    requires w.Wired() && t in w.reliable && Designated(w, t) >= 2
    ensures Run(w, steps) == Some(s)
    ensures s.past.entries == [Entry(Record(0, 0, UUID, t, true), Message(Parsed))] && 0 in s.past.failed
    ensures exists i :: 0 <= i < |s.past.log| && s.past.log[i].id == 0
  {
    var rec, acts := Record(0, 0, UUID, t, true), Program(w, Parsed, t);
    var s1;
    steps, s1 := ReadsFirst(w, Parsed, t);
    BudgetIs(w, Entry(rec, Message(Parsed)));
    assert acts == Dispatches(w, t);
    steps, s := FailsOnce(w, steps, s1, FirstRead(w, rec, Parsed), rec, acts);
  }

  /** The record is parsed, of reliable type `t`, and a producer that owes its ack has failed. */
  predicate HasFailed(w: Wiring, s: State, t: TxType, id: nat) {
    && id < |s.past.entries|
    && ReliablyParsed(w, s.past.entries[id]) && s.past.entries[id].rec.txType == t
    && id in s.past.failed
  }

  predicate Answered(s: State, id: nat) {
    exists i :: 0 <= i < |s.past.log| && s.past.log[i].id == id
  }

  /** In every run a record whose producer failed is never answered. */
  ghost predicate FailureIsFinal(w: Wiring, t: TxType) {
    forall steps: seq<Step>, id: nat ::
      Run(w, steps).Some? && HasFailed(w, Run(w, steps).value, t, id) ==> !Answered(Run(w, steps).value, id)
  }

  /** A failure is final in every run exactly if the rule names the designated producer once. */
  lemma {:induction false} FailureIsFinalIff(w: Wiring, t: TxType)
    requires w.Wired() && t in w.reliable
    ensures FailureIsFinal(w, t) <==> Designated(w, t) <= 1
  {
    DesignatedIsNamed(w, t);
    if Designated(w, t) >= 2 {
      var steps, s := FailedAndAcked(w, t);
      assert HasFailed(w, Run(w, steps).value, t, 0) && Answered(Run(w, steps).value, 0);
    } else {
      forall steps: seq<Step>, id: nat | Run(w, steps).Some? && HasFailed(w, Run(w, steps).value, t, id)
        ensures !Answered(Run(w, steps).value, id)
      {
        FailureNeverAcks(w, steps, id);
      }
    }
  }

  // ----- Concrete answers -----

  /** A message of unknown type is acked, handled on, and acked again. */
  lemma {:induction false} UnknownTypeIsAckedTwice(w: Wiring) returns (steps: seq<Step>, s: State)
    requires "" !in w.rules && "" !in w.reliable
    ensures Run(w, steps) == Some(s)
    ensures s.past.entries == [Entry(Record(0, 0, UUID, "", true), Message(UnknownType))]
    ensures s.past.log == [Response(0, 0, Ack), Response(0, 0, Ack)]
  {
    steps, s := HandlesOne(w, UnknownType, "");
    var acts := Program(w, UnknownType, "");
    assert acts == [Respond(Ack), Respond(Ack)];
    assert acts[1..] == [Respond(Ack)] && acts[1..][1..] == [];
  }
}
