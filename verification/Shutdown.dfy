/** The polling loop of a graceful shutdown (cmd/main.go). */
module GracefulShutdown {
  /**
   * One round of the loop: how many sockets the registry counted, and whether the deadline
   * or the ticker woke the loop after that. When both are ready Go picks either.
   */
  datatype Poll = Poll(connected: nat, deadline: bool)

  predicate Ends(p: Poll) {
    p.connected == 0 || p.deadline
  }

  /** The loop returns at the first round that ends it, and is drained exactly if that one counted none. */
  method WaitForSocketsDrain(polls: seq<Poll>) returns (rounds: nat, drained: bool)
    requires exists i :: 0 <= i < |polls| && Ends(polls[i])
    ensures 0 < rounds <= |polls| && Ends(polls[rounds - 1])
    ensures forall i :: 0 <= i < rounds - 1 ==> !Ends(polls[i])
    ensures drained <==> polls[rounds - 1].connected == 0
    ensures polls[rounds - 1].connected == 0 || polls[rounds - 1].deadline
    ensures forall i :: 0 <= i < rounds - 1 ==> polls[i].connected != 0 && !polls[i].deadline
  {
    ghost var last: nat :| last < |polls| && Ends(polls[last]);
    rounds := 0;
    while true
      invariant rounds <= last
      invariant forall i :: 0 <= i < rounds ==> !Ends(polls[i])
      decreases last - rounds
    {
      var poll := polls[rounds];
      rounds := rounds + 1;
      if poll.connected == 0 { return rounds, true; }
      if poll.deadline { return rounds, false; }
    }
  }
}
