/**
 * The books of the protocol: for every record, the responses enqueued, the responses
 * still owed somewhere, and the two ways of losing one always add up to its budget.
 */
module ProtocolAccounting {
  import opened Wrappers
  import opened Telemetry
  import opened Connections
  import opened ConnectionInvariants
  import opened Protocol
  import opened ProtocolInvariants

  /** How many responses a log holds for record `id`. */
  function Count(log: seq<Response>, id: nat): nat {
    if log == [] then 0
    else Count(log[..|log| - 1], id) + if log[|log| - 1].id == id then 1 else 0
  }

  lemma {:induction false} CountOneMore(log: seq<Response>, r: Response, id: nat)
    ensures Count(log + [r], id) == Count(log, id) + if r.id == id then 1 else 0
  {
    assert (log + [r])[..|log|] == log;
  }

  lemma {:induction false} CountOfUnknown(log: seq<Response>, id: nat)
    requires forall i :: 0 <= i < |log| ==> log[i].id != id
    ensures Count(log, id) == 0
  {
    if log != [] { CountOfUnknown(log[..|log| - 1], id); }
  }

  lemma {:induction false} Counted(log: seq<Response>, i: nat)
    requires i < |log|
    ensures Count(log, log[i].id) > 0
  {
    if i < |log| - 1 { Counted(log[..|log| - 1], i); }
  }

  /** Acks on their way from a producer to a socket. */
  function Travelling(w: Wiring, s: State, rec: Record): nat {
    (if w.Acks(Kafka, rec.txType) then s.inflight[rec] else 0)
    + (if s.delivering == Some(rec) then 1 else 0)
    + (if InHand(s.handler) == Some(rec) then 1 else 0)
  }

  /** Everything that has left the connection: travelling, enqueued, failed or missed. */
  function Outside(w: Wiring, s: State, rec: Record): nat {
    Travelling(w, s, rec) + Count(s.past.log, rec.id) + s.past.failed[rec.id] + s.past.misses[rec.id]
  }

  ghost predicate Balanced(w: Wiring, s: State, id: nat)
    requires id < |s.past.entries|
  {
    var e := s.past.entries[id];
    && e.rec.conn < |s.conns|
    && OwedBy(w, s.conns[e.rec.conn], id) + Outside(w, s, e.rec) == Budget(w, e)
  }

  ghost predicate Books(w: Wiring, s: State) {
    forall id :: 0 <= id < |s.past.entries| ==> Balanced(w, s, id)
  }

  /** What an event pays out of the connection arrives outside of it. */
  lemma {:induction false} AbsorbPays(w: Wiring, s: State, c: nat, e: Event, rec: Record)
    requires c < |s.conns|
    requires e.Called? && e.rec.id == rec.id ==> e.rec == rec
    requires e.Pushed? ==> s.handler == Free && (e.rec.id == rec.id ==> e.rec == rec)
    ensures Outside(w, Absorb(w, s, c, e), rec) == Outside(w, s, rec) + Paid(w, e, rec.id)
  {
    match e
    case Answered(r) => CountOneMore(s.past.log, r, rec.id);
    case Called(_, _, _) => CallPays(w, s, c, e, rec);
    case _ =>
  }

  lemma {:induction false} CallPays(w: Wiring, s: State, c: nat, e: Event, rec: Record)
    requires c < |s.conns| && e.Called? && (e.rec.id == rec.id ==> e.rec == rec)
    ensures Outside(w, Absorb(w, s, c, e), rec) == Outside(w, s, rec) + Paid(w, e, rec.id)
  {
  }

  lemma {:induction false} LocalBalances(w: Wiring, s: State, c: nat, m: Move, id: nat)
    requires Enabled(s, Local(c, m)) && EntriesOk(s) && OwnRecord(s.conns[c], c, s.past.entries)
    requires id < |s.past.entries| && Balanced(w, s, id)
    ensures id < |Next(w, s, Local(c, m)).past.entries| && Balanced(w, Next(w, s, Local(c, m)), id)
  {
    var rec := s.past.entries[id].rec;
    LocalExtends(w, s, c, m);
    MovePays(w, s.conns[c], c, m, s.past.entries, id);
    AbsorbPays(w, Acted(w, s, c, m), c, Emitted(w, s, c, m), rec);
    assert Outside(w, Acted(w, s, c, m), rec) == Outside(w, s, rec);
    if c != rec.conn {
      assert OwedBy(w, s.conns[c], id) == 0;
    }
  }

  lemma {:induction false} CreatedBalances(w: Wiring, s: State, c: nat, m: Move)
    requires Enabled(s, Local(c, m)) && Emitted(w, s, c, m).Created? && OwnRecord(s.conns[c], c, s.past.entries)
    requires Outside(w, s, Emitted(w, s, c, m).rec) == 0
    ensures |Next(w, s, Local(c, m)).past.entries| == |s.past.entries| + 1
    ensures Balanced(w, Next(w, s, Local(c, m)), |s.past.entries|)
  {
    var rec := Emitted(w, s, c, m).rec;
    LocalExtends(w, s, c, m);
    MovePays(w, s.conns[c], c, m, s.past.entries, |s.past.entries|);
    AbsorbPays(w, Acted(w, s, c, m), c, Emitted(w, s, c, m), rec);
    assert Outside(w, Acted(w, s, c, m), rec) == Outside(w, s, rec);
  }

  lemma {:induction false} UnknownOutside(w: Wiring, s: State, rec: Record)
    requires PipelineOk(w, s) && HistoryOk(w, s.past) && LogOk(w, s) && rec.id >= |s.past.entries|
    ensures Outside(w, s, rec) == 0
  {
    forall i | 0 <= i < |s.past.log| ensures s.past.log[i].id != rec.id {
      assert ResponseOk(w, s.conns, s.past, s.past.log[i]);
    }
    CountOfUnknown(s.past.log, rec.id);
  }

  lemma {:induction false} DeliveryBalances(w: Wiring, s: State, rec: Record, ok: bool, other: Record)
    requires rec in s.inflight && s.delivering == None && (rec.id == other.id ==> rec == other)
    ensures Outside(w, Delivered(w, s, rec, ok), other) == Outside(w, s, other)
  {
  }

  lemma {:induction false} LookupBalances(w: Wiring, s: State, other: Record)
    requires s.handler.Holding? && s.handler.rec.hasSerializer
    requires s.handler.rec.id == other.id ==> s.handler.rec == other
    ensures Outside(w, LookedUp(s), other) == Outside(w, s, other)
  {
  }

  lemma {:induction false} ReplyBalances(w: Wiring, s: State, id: nat)
    requires Enabled(s, ReplyFromServer) && EntriesOk(s) && PipelineOk(w, s)
    requires id < |s.past.entries| && Balanced(w, s, id)
    ensures Balanced(w, Next(w, s, ReplyFromServer), id)
  {
    ReplyIsCounted(w, s, s.past.entries[id].rec);
  }

  lemma {:induction false} ReplyIsCounted(w: Wiring, s: State, rec: Record)
    requires Enabled(s, ReplyFromServer) && (s.handler.rec.id == rec.id ==> s.handler.rec == rec)
    ensures Outside(w, Next(w, s, ReplyFromServer), rec) == Outside(w, s, rec)
  {
    CountOneMore(s.past.log, Response(s.handler.sock, s.handler.rec.id, Ack), rec.id);
  }

  lemma {:induction false} StepKeepsBooks(w: Wiring, s: State, step: Step)
    requires w.Wired() && Enabled(s, step) && Books(w, s)
    requires EntriesOk(s) && ConnsOk(w, s) && PipelineOk(w, s) && HistoryOk(w, s.past) && LogOk(w, s)
    ensures Books(w, Next(w, s, step))
  {
    if step.Local? {
      LocalKeepsBooks(w, s, step.c, step.move);
    } else {
      OthersKeepBooks(w, s, step);
    }
  }

  lemma {:induction false} OthersKeepBooks(w: Wiring, s: State, step: Step)
    requires Enabled(s, step) && !step.Local? && EntriesOk(s) && PipelineOk(w, s) && Books(w, s)
    ensures Books(w, Next(w, s, step))
  {
    forall id | 0 <= id < |Next(w, s, step).past.entries| ensures Balanced(w, Next(w, s, step), id) {
      OthersCreateNothing(w, s, step);
      assert Balanced(w, s, id);
      OtherBalances(w, s, step, id);
    }
  }

  lemma {:induction false} OthersCreateNothing(w: Wiring, s: State, step: Step)
    requires Enabled(s, step) && !step.Local?
    ensures Next(w, s, step).past.entries == s.past.entries
  {
  }

  lemma {:induction false} OtherBalances(w: Wiring, s: State, step: Step, id: nat)
    requires Enabled(s, step) && !step.Local? && EntriesOk(s) && PipelineOk(w, s)
    requires id < |s.past.entries| && Balanced(w, s, id)
    ensures Next(w, s, step).past.entries == s.past.entries && Balanced(w, Next(w, s, step), id)
  {
    var rec := s.past.entries[id].rec;
    OthersCreateNothing(w, s, step);
    match step
    case Local(_, _) => assert false;
    case Delivery(r, ok) =>
      DeliveryBalances(w, s, r, ok, rec);
      BalanceMoves(w, s, Delivered(w, s, r, ok), id);
    case Lookup =>
      LookupBalances(w, s, rec);
      BalanceMoves(w, s, LookedUp(s), id);
    case ReplyFromServer => ReplyBalances(w, s, id);
    case PushFromKafka =>
      KafkaPushBalances(w, s, rec);
      BalanceMoves(w, s, Next(w, s, step), id);
    case _ => QuietBalances(w, s, step, id);
  }

  /** What only changes places outside keeps the balance. */
  lemma {:induction false} BalanceMoves(w: Wiring, s: State, s': State, id: nat)
    requires id < |s.past.entries| && Balanced(w, s, id)
    requires s'.past.entries == s.past.entries && s'.conns == s.conns
    requires Outside(w, s', s.past.entries[id].rec) == Outside(w, s, s.past.entries[id].rec)
    ensures Balanced(w, s', id)
  {
  }

  lemma {:induction false} QuietBalances(w: Wiring, s: State, step: Step, id: nat)
    requires Enabled(s, step) && (step.Connect? || step.BeginDrain? || step.PollDrain?)
    requires id < |s.past.entries| && Balanced(w, s, id)
    ensures Balanced(w, Next(w, s, step), id)
  {
    assert Next(w, s, step).past == s.past;
  }

  lemma {:induction false} KafkaPushBalances(w: Wiring, s: State, rec: Record)
    requires Enabled(s, PushFromKafka)
    ensures Outside(w, Next(w, s, PushFromKafka), rec) == Outside(w, s, rec)
  {
  }

  lemma {:induction false} LocalKeepsBooks(w: Wiring, s: State, c: nat, m: Move)
    requires w.Wired() && Enabled(s, Local(c, m))
    requires EntriesOk(s) && ConnsOk(w, s) && PipelineOk(w, s) && HistoryOk(w, s.past) && LogOk(w, s) && Books(w, s)
    ensures Books(w, Next(w, s, Local(c, m)))
  {
    LocalExtends(w, s, c, m);
    assert ConnOk(w, s.conns[c], c, s.past);
    forall id | 0 <= id < |Next(w, s, Local(c, m)).past.entries| ensures Balanced(w, Next(w, s, Local(c, m)), id) {
      if id < |s.past.entries| {
        assert Balanced(w, s, id);
        LocalBalances(w, s, c, m, id);
      } else {
        UnknownOutside(w, s, Emitted(w, s, c, m).rec);
        CreatedBalances(w, s, c, m);
      }
    }
  }

  // ----- Receives of the ack loop -----

  /** Every receive becomes a hit or a miss, but for the record the ack loop still looks up. */
  ghost predicate Tallied(s: State) {
    |s.past.received| == s.past.hits + |s.past.misses| + if s.handler.Holding? then 1 else 0
  }

  lemma {:induction false} StepKeepsTally(w: Wiring, s: State, step: Step)
    requires Enabled(s, step) && EntriesOk(s) && PipelineOk(w, s) && Tallied(s)
    ensures Tallied(Next(w, s, step))
  {
    match step
    case Local(c, m) => LocalKeepsTally(w, s, c, m);
    case Lookup => LookupKeepsTally(s);
    case _ =>
  }

  lemma {:induction false} LocalKeepsTally(w: Wiring, s: State, c: nat, m: Move)
    requires Enabled(s, Local(c, m)) && Tallied(s)
    ensures Tallied(Next(w, s, Local(c, m)))
  {
    EventKeepsTally(w, Acted(w, s, c, m), c, Emitted(w, s, c, m));
  }

  lemma {:induction false} EventKeepsTally(w: Wiring, s: State, c: nat, e: Event)
    requires c < |s.conns| && Tallied(s) && (e.Pushed? ==> s.handler == Free)
    ensures Tallied(Absorb(w, s, c, e))
  {
  }

  lemma {:induction false} LookupKeepsTally(s: State)
    requires s.handler.Holding? && s.handler.rec.hasSerializer && Tallied(s)
    ensures Tallied(LookedUp(s))
  {
  }
}
