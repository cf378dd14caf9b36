/** client/client.go: the retry recursion over a counter kept in the request. */
module Retry {
  import opened Options
  import opened Headers
  import opened Messages
  import opened RoundTrip
  import opened DummyRuns

  /** What one attempt comes back with: an error, or a response with a status. */
  datatype Attempt = Failure | Success(status: int)

  predicate Retryable(codes: set<int>, a: Attempt) {
    a.Failure? || a.status in codes
  }

  function Max(a: int, b: int): int {
    if a < b then b else a
  }

  class Request {
    var retryCounter: int

    constructor ()
      ensures retryCounter == 0
    {
      retryCounter := 0;
    }
  }

  class Client {
    const retryTimes: int
    const retryHTTPCodes: set<int>
    /** The outcome of the n-th attempt this client makes. */
    const outcome: nat -> Attempt
    var attempts: nat

    constructor (retryTimes: int, codes: set<int>, outcome: nat -> Attempt)
      ensures this.retryTimes == retryTimes && this.retryHTTPCodes == codes && this.outcome == outcome && attempts == 0
    {
      this.retryTimes := retryTimes;
      this.retryHTTPCodes := codes;
      this.outcome := outcome;
      this.attempts := 0;
    }

    /** The attempts made and the counter left. A call that returns an error, or a status
        to be retried, has used up its budget, and every attempt before the last came to
        one of these. */
    method DoRequest(req: Request) returns (resp: Attempt)
      modifies this, req
      ensures var budget := Max(retryTimes - old(req.retryCounter), 0);
        attempts == old(attempts) + Tries(retryHTTPCodes, outcome, old(attempts), budget)
      ensures resp == outcome(attempts - 1)
      ensures resp.Failure? || resp.status in retryHTTPCodes ==> attempts - old(attempts) == Max(retryTimes - old(req.retryCounter), 0) + 1
      ensures forall i: nat :: old(attempts) <= i < attempts - 1 ==> outcome(i).Failure? || outcome(i).status in retryHTTPCodes
      ensures req.retryCounter == old(req.retryCounter) + (attempts - old(attempts)) - 1
      decreases retryTimes - req.retryCounter
    {
      resp := outcome(attempts);
      attempts := attempts + 1;
      // Retry on error.
      if resp.Failure? {
        if req.retryCounter < retryTimes {
          req.retryCounter := req.retryCounter + 1;
          resp := DoRequest(req);
        }
        return;
      }
      // Retry on HTTP status codes.
      if resp.status in retryHTTPCodes {
        if req.retryCounter < retryTimes {
          req.retryCounter := req.retryCounter + 1;
          resp := DoRequest(req);
        }
      }
    }
  }

  /** How many attempts a call makes when the next one is number `from` and `budget`
      retries are left. */
  function Tries(codes: set<int>, outcome: nat -> Attempt, from: nat, budget: nat): (t: nat)
    ensures 1 <= t <= budget + 1
    decreases budget
  {
    if budget == 0 || !Retryable(codes, outcome(from)) then 1
    else 1 + Tries(codes, outcome, from + 1, budget - 1)
  }

  /** The bounded loop the recursion amounts to: the call ends with the first attempt that
      is a response whose status is not to be retried, or with the last one the budget
      allows, and with no other. */
  lemma {:induction false} TriesIsFirstSettled(codes: set<int>, outcome: nat -> Attempt, from: nat, budget: nat, t: nat)
    requires 1 <= t <= budget + 1
    ensures t == Tries(codes, outcome, from, budget) <==>
      (forall i: nat :: from <= i < from + t - 1 ==> outcome(i).Failure? || outcome(i).status in codes) &&
      (t == budget + 1 || (outcome(from + t - 1).Success? && outcome(from + t - 1).status !in codes))
    decreases budget
  {
    if budget > 0 {
      if t > 1 {
        TriesIsFirstSettled(codes, outcome, from + 1, budget - 1, t - 1);
      } else if Retryable(codes, outcome(from)) {
        assert Tries(codes, outcome, from, budget) > 1;
      }
    }
  }

  /** An error or a status to be retried is returned only after the last attempt the budget
      allows; with fewer attempts, a response of another status is. Every attempt before the
      last was an error or had such a status. */
  lemma ReturnsTheSettled(codes: set<int>, outcome: nat -> Attempt, from: nat, budget: nat)
    ensures
      var t := Tries(codes, outcome, from, budget);
      var last := outcome(from + t - 1);
      && (last.Failure? ==> t == budget + 1)
      && (t < budget + 1 ==> last.Success? && last.status !in codes)
      && forall i: nat :: from <= i < from + t - 1 ==> outcome(i).Failure? || outcome(i).status in codes
  {
    TriesIsFirstSettled(codes, outcome, from, budget, Tries(codes, outcome, from, budget));
  }

  /** Attempts made and counter left after `calls` calls that reuse one request. */
  function Reuse(codes: set<int>, outcome: nat -> Attempt, retryTimes: int, calls: nat): (r: (nat, int)) {
    if calls == 0 then (0, 0)
    else
      var (attempts, counter) := Reuse(codes, outcome, retryTimes, calls - 1);
      var t := Tries(codes, outcome, attempts, Max(retryTimes - counter, 0));
      (attempts + t, counter + t - 1)
  }

  /** The retries of all calls together never exceed the limit, even when it is -1. */
  lemma {:induction false} ReuseBound(codes: set<int>, outcome: nat -> Attempt, retryTimes: int, calls: nat)
    ensures var (attempts, counter) := Reuse(codes, outcome, retryTimes, calls);
      attempts == calls + counter && 0 <= counter <= Max(retryTimes, 0) && attempts <= calls + Max(retryTimes, 0)
  {
    if calls > 0 {
      ReuseBound(codes, outcome, retryTimes, calls - 1);
    }
  }

  // ----- over the Dummy cache -----

  function ToAttempt(reply: Reply): Attempt {
    match reply case Failed => Failure case Received(resp) => Success(resp.status)
  }

  /** Attempt number n of a request that goes through a Dummy cache. */
  function ThroughDummy(mark: bool, items: Items, req: Messages.Request, net: nat -> Reply, dumped: nat -> bool): nat -> Attempt {
    (n: nat) => ToAttempt(CallAt(mark, items, req, net, dumped, n).reply)
  }

  /** A stored error is replayed: if the first response to be stored has a retryable status
      and nothing before it ended the call, the call uses up its whole budget, yet no
      attempt after that response reaches the origin, and the status it returns is the
      stored one. */
  lemma StoredErrorIsReplayed(codes: set<int>, mark: bool, items: Items, req: Messages.Request, net: nat -> Reply, dumped: nat -> bool, first: nat, budget: nat)
    requires Cacheable(req) && CacheKey(req) !in items
    requires net(first).Received? && dumped(first) && net(first).resp.status in codes
    requires forall i :: 0 <= i < first ==> (net(i).Failed? || !dumped(i)) && Retryable(codes, ToAttempt(net(i)))
    ensures Tries(codes, ThroughDummy(mark, items, req, net, dumped), 0, budget) == budget + 1
    ensures forall n: nat :: CallAt(mark, items, req, net, dumped, n).contacted <==> n <= first
    ensures budget >= first ==> ThroughDummy(mark, items, req, net, dumped)(budget) == Success(net(first).resp.status)
  {
    var outcome := ThroughDummy(mark, items, req, net, dumped);
    forall n: nat
      ensures Retryable(codes, outcome(n))
      ensures CallAt(mark, items, req, net, dumped, n).contacted <==> n <= first
      ensures n >= first ==> outcome(n) == Success(net(first).resp.status)
    {
      SequentialReplay(mark, items, req, net, dumped, first, n);
    }
    TriesIsFirstSettled(codes, outcome, 0, budget, budget + 1);
  }
}
