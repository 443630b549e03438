/** The shared time budget of one publish (datastore/mqtt/mqtt.go). Times are in milliseconds. */
module MqttBudget {
  import opened Wrappers

  const DEFAULT_PUBLISH_TIMEOUT: int := 2500

  /**
   * How one publish token behaves: when it completes, if ever, with or without an error;
   * `tie` decides a completion at the very instant the wait ends. `delay` is the time that
   * passes before the loop gets to this token, `late` how much too late a timer for it fires.
   */
  datatype Token = Token(done: Option<int>, failed: bool, tie: bool, delay: nat, late: nat)

  /** A cancelled context, or the outcome of turning a payload into publications. */
  datatype Prepared = Cancelled | UnknownPayload | ProcessingError | Tokens(tokens: seq<Token>)

  function Max(a: int, b: int): int {
    if a >= b then a else b
  }

  /** The token is done by the instant `limit`. */
  predicate DoneBy(t: Token, limit: int) {
    t.done.Some? && (t.done.value < limit || (t.done.value == limit && t.tie))
  }

  predicate SucceedsBy(t: Token, limit: int) {
    DoneBy(t, limit) && !t.failed
  }

  /** How long a wait of `d` may last: until its timer fires, or not at all if it only polls. */
  function Allowed(t: Token, d: nat): nat {
    if d == 0 then 0 else d + t.late
  }

  /**
   * waitTokenTimeout: started at `now`, it waits until its timer fires; a zero wait only polls.
   * Returns the instant the wait ends and whether the token completed without error.
   */
  method WaitTokenTimeout(t: Token, now: int, d: nat) returns (end: int, ok: bool)
    ensures
      var limit := now + Allowed(t, d);
      && now <= end <= limit
      && (ok <==> SucceedsBy(t, limit))
      && end == if DoneBy(t, limit) then Max(now, t.done.value) else limit
    // In the token's own terms:
    ensures ok ==> t.done.Some? && !t.failed && t.done.value <= now + d + t.late && (d == 0 ==> t.done.value <= now)
    ensures t.done.Some? && !t.failed && t.done.value < now + d ==> ok
    ensures d > 0 && t.done == Some(now + d + t.late) ==> (ok <==> t.tie && !t.failed)
    ensures t.done.Some? && t.done.value < now ==> end == now
    ensures t.done == None ==> end == if d == 0 then now else now + d + t.late
    ensures t.done.Some? && now <= t.done.value < now + d ==> end == t.done.value
  {
    if d == 0 {
      return now, DoneBy(t, now) && !t.failed;
    }
    var fires := now + d + t.late;
    if !DoneBy(t, fires) {
      return fires, false;
    }
    return Max(now, t.done.value), !t.failed;
  }

  /** The last instant at which a token waited for from `now` on can still succeed. */
  function LimitOf(t: Token, now: int, deadline: int): int {
    if now < deadline then deadline + t.late else now
  }

  /** When a wait started at `now` ends; it lasts until the timer for the deadline fires, and polls after it. */
  function EndOf(t: Token, now: int, deadline: int): int {
    var limit := LimitOf(t, now, deadline);
    if DoneBy(t, limit) then Max(now, t.done.value) else limit
  }

  /** The clock when the loop comes to token `i`. */
  function Clock(tokens: seq<Token>, start: int, timeout: int, i: nat): int
    requires i <= |tokens|
  {
    if i == 0 then start
    else EndOf(tokens[i - 1], Clock(tokens, start, timeout, i - 1) + tokens[i - 1].delay, start + timeout)
  }

  /** When the timer for the common deadline fires, or the moment token `i` is polled if that is later. */
  function Limit(tokens: seq<Token>, start: int, timeout: int, i: nat): int
    requires i < |tokens|
  {
    LimitOf(tokens[i], Clock(tokens, start, timeout, i) + tokens[i].delay, start + timeout)
  }

  predicate Succeeds(tokens: seq<Token>, start: int, timeout: int, i: nat)
    requires i < |tokens|
  {
    SucceedsBy(tokens[i], Limit(tokens, start, timeout, i))
  }

  /** The first `n` tokens all succeed. */
  predicate AllSucceed(tokens: seq<Token>, start: int, timeout: int, n: nat)
    requires n <= |tokens|
  {
    n > 0 ==> AllSucceed(tokens, start, timeout, n - 1) && Succeeds(tokens, start, timeout, n - 1)
  }

  lemma {:induction false} AllSucceedIs(tokens: seq<Token>, start: int, timeout: int, n: nat)
    requires n <= |tokens|
    ensures AllSucceed(tokens, start, timeout, n) <==> forall i :: 0 <= i < n ==> Succeeds(tokens, start, timeout, i)
  {
    if n > 0 { AllSucceedIs(tokens, start, timeout, n - 1); }
  }

  /** One wait within what is left of the budget. */
  method AwaitOne(t: Token, now: int, start: int, timeout: int) returns (end: int, ok: bool)
    requires start <= now
    ensures end == EndOf(t, now, start + timeout)
    ensures ok <==> SucceedsBy(t, LimitOf(t, now, start + timeout))
    ensures 0 <= end - now <= Allowed(t, Max(0, timeout - (now - start)))
  {
    var remainingTimeout := timeout - (now - start);
    if remainingTimeout < 0 { remainingTimeout := 0; }
    end, ok := WaitTokenTimeout(t, now, remainingTimeout);
  }

  /**
   * Waits may take the timeout together, and no more than the lateness of one timer over
   * it: with timers that are never late, no more than the timeout.
   */
  predicate InBudget(tokens: seq<Token>, timeout: int, waited: int) {
    waited <= Max(0, timeout) || exists i :: 0 <= i < |tokens| && waited <= timeout + tokens[i].late
  }

  /**
   * The wait loop of Produce. Whatever the tokens do, the waits together stay in the budget,
   * and the record is acked exactly if every token succeeded by the common deadline
   * `start + timeout`, or by the moment it was polled if that was later.
   */
  method AwaitAll(tokens: seq<Token>, start: int, timeout: int) returns (acked: bool, waited: int)
    ensures 0 <= waited && InBudget(tokens, timeout, waited)
    ensures acked <==> forall i :: 0 <= i < |tokens| ==> Succeeds(tokens, start, timeout, i)
    // In the tokens' own terms:
    ensures (forall i :: 0 <= i < |tokens| ==> tokens[i].late == 0) ==> waited <= if timeout < 0 then 0 else timeout
    ensures acked ==> forall i :: 0 <= i < |tokens| ==> tokens[i].done.Some? && !tokens[i].failed
    ensures (forall i :: 0 <= i < |tokens| ==>
               tokens[i].done.Some? && !tokens[i].failed
               && (tokens[i].done.value < start || tokens[i].done.value < start + timeout)) ==> acked
    ensures timeout >= 0 && (forall i :: 0 <= i < |tokens| ==> tokens[i].delay == 0 && tokens[i].late == 0) && acked ==>
              forall i :: 0 <= i < |tokens| ==> tokens[i].done.Some? && tokens[i].done.value <= start + timeout
  {
    var publishError := false;
    var now := start;
    waited := 0;
    var i := 0;
    while i < |tokens|
      invariant 0 <= i <= |tokens|
      invariant now == Clock(tokens, start, timeout, i)
      invariant 0 <= waited <= now - start && InBudget(tokens[..i], timeout, waited)
      invariant publishError <==> !AllSucceed(tokens, start, timeout, i)
    {
      now := now + tokens[i].delay;
      var end, ok := AwaitOne(tokens[i], now, start, timeout);
      if !ok { publishError := true; }
      ghost var before := waited;
      waited := waited + (end - now);
      OneMoreWait(tokens, i, start, timeout, now, before, end - now);
      now := end;
      i := i + 1;
    }
    acked := !publishError;
    AllSucceedIs(tokens, start, timeout, |tokens|);
    assert tokens[..i] == tokens;
    AckedMeans(tokens, start, timeout, acked);
  }

  /** The decision of AwaitAll, in the tokens' own terms. */
  lemma AckedMeans(tokens: seq<Token>, start: int, timeout: int, acked: bool)
    requires acked <==> forall i :: 0 <= i < |tokens| ==> Succeeds(tokens, start, timeout, i)
    ensures acked ==> forall i :: 0 <= i < |tokens| ==> tokens[i].done.Some? && !tokens[i].failed
    ensures (forall i :: 0 <= i < |tokens| ==>
               tokens[i].done.Some? && !tokens[i].failed
               && (tokens[i].done.value < start || tokens[i].done.value < start + timeout)) ==> acked
    ensures timeout >= 0 && (forall i :: 0 <= i < |tokens| ==> tokens[i].delay == 0 && tokens[i].late == 0) && acked ==>
              forall i :: 0 <= i < |tokens| ==> tokens[i].done.Some? && tokens[i].done.value <= start + timeout
  {
    forall i | 0 <= i < |tokens| && acked
      ensures tokens[i].done.Some? && !tokens[i].failed
    {
      assert Succeeds(tokens, start, timeout, i);
    }
    if timeout >= 0 && acked && forall i :: 0 <= i < |tokens| ==> tokens[i].delay == 0 && tokens[i].late == 0 {
      forall i | 0 <= i < |tokens| ensures tokens[i].done.Some? && tokens[i].done.value <= start + timeout {
        assert Succeeds(tokens, start, timeout, i);
        OneDeadline(tokens, start, timeout, i);
      }
    }
    if forall i :: 0 <= i < |tokens| ==>
         tokens[i].done.Some? && !tokens[i].failed
         && (tokens[i].done.value < start || tokens[i].done.value < start + timeout)
    {
      forall i | 0 <= i < |tokens| ensures Succeeds(tokens, start, timeout, i) {
        ClockRuns(tokens, start, timeout, i);
      }
    }
  }

  lemma OneMoreWait(tokens: seq<Token>, i: nat, start: int, timeout: int, now: int, waited: int, more: int)
    requires i < |tokens| && waited <= now - start && InBudget(tokens[..i], timeout, waited)
    requires 0 <= more <= Allowed(tokens[i], Max(0, timeout - (now - start)))
    ensures InBudget(tokens[..i + 1], timeout, waited + more)
  {
    var seen := tokens[..i + 1];
    if more > 0 {
      assert waited + more <= timeout + seen[i].late;
    } else if waited > Max(0, timeout) {
      var j :| 0 <= j < i && waited <= timeout + tokens[..i][j].late;
      assert seen[j] == tokens[..i][j];
    }
  }

  /** NewProducer's default. */
  function ConfiguredTimeout(publishTimeout: int): int {
    if publishTimeout == 0 then DEFAULT_PUBLISH_TIMEOUT else publishTimeout
  }

  /** Produce: `ackTypes` are the record types this producer was built to ack. */
  method Produce(prepared: Prepared, start: int, publishTimeout: int, txType: string, ackTypes: set<string>)
    returns (pushed: bool)
    ensures pushed <==>
            && txType in ackTypes
            && prepared.Tokens?
            && forall i :: 0 <= i < |prepared.tokens| ==>
                 Succeeds(prepared.tokens, start, ConfiguredTimeout(publishTimeout), i)
    // In the tokens' own terms:
    ensures pushed ==>
              && txType in ackTypes && prepared.Tokens?
              && forall i :: 0 <= i < |prepared.tokens| ==> prepared.tokens[i].done.Some? && !prepared.tokens[i].failed
    ensures
      var deadline := start + if publishTimeout == 0 then 2500 else publishTimeout;
      && (txType in ackTypes && prepared.Tokens?
          && (forall i :: 0 <= i < |prepared.tokens| ==>
                prepared.tokens[i].done.Some? && !prepared.tokens[i].failed && prepared.tokens[i].done.value < deadline)
          ==> pushed)
      && (pushed && deadline >= start
          && (forall i :: 0 <= i < |prepared.tokens| ==> prepared.tokens[i].delay == 0 && prepared.tokens[i].late == 0)
          ==> forall i :: 0 <= i < |prepared.tokens| ==>
                prepared.tokens[i].done.Some? && prepared.tokens[i].done.value <= deadline)
  {
    match prepared {
      case Cancelled => return false;
      case UnknownPayload => return false;
      case ProcessingError => return false;
      case Tokens(tokens) =>
        var acked, _ := AwaitAll(tokens, start, ConfiguredTimeout(publishTimeout));
        return acked && txType in ackTypes;
    }
  }

  lemma {:induction false} ClockRuns(tokens: seq<Token>, start: int, timeout: int, i: nat)
    requires i <= |tokens|
    ensures start <= Clock(tokens, start, timeout, i)
  {
    if i > 0 { ClockRuns(tokens, start, timeout, i - 1); }
  }

  /** Without delays and with timers that are never late the per-token budgets are one deadline for all tokens. */
  lemma {:induction false} OneDeadline(tokens: seq<Token>, start: int, timeout: nat, i: nat)
    requires i < |tokens| && forall j :: 0 <= j < |tokens| ==> tokens[j].delay == 0 && tokens[j].late == 0
    ensures Limit(tokens, start, timeout, i) == start + timeout
  {
    if i > 0 { OneDeadline(tokens, start, timeout, i - 1); }
  }

  /** Tokens that succeeded before the loop began count even when the budget is spent or negative. */
  lemma EarlyTokensCount(tokens: seq<Token>, start: int, timeout: int, i: nat)
    requires i < |tokens| && tokens[i].done.Some? && tokens[i].done.value < start && !tokens[i].failed
    ensures Succeeds(tokens, start, timeout, i)
  {
    ClockRuns(tokens, start, timeout, i);
  }
}
