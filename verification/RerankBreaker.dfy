/**
 The rerank circuit breaker of the retrieval service with several requests at once.  Checking the
 breaker, calling the reranker and recording the result are separate critical sections, so other
 requests may act in between.
 */
module RerankBreaker {
  import opened Sequences

  /** consecutiveRerankFailures, the requests past the check, the requests inside the call, and how
      often the reranker was called. */
  datatype Breaker = Breaker(failures: nat, checked: nat, calling: nat, calls: nat)

  datatype Move = Check | Call | Succeed | Fail

  function Closed(): Breaker {
    Breaker(0, 0, 0, 0)
  }

  function InFlight(b: Breaker): nat {
    b.checked + b.calling
  }

  /** One move with at most n requests in flight; a move that is not enabled changes nothing. */
  function Step(threshold: nat, n: nat, b: Breaker, m: Move): Breaker {
    match m
    case Check =>
      if b.failures >= threshold || InFlight(b) >= n then b else b.(checked := b.checked + 1)
    case Call =>
      if b.checked == 0 then b else b.(checked := b.checked - 1, calling := b.calling + 1, calls := b.calls + 1)
    case Succeed =>
      if b.calling == 0 then b else b.(calling := b.calling - 1, failures := 0)
    case Fail =>
      if b.calling == 0 then b else b.(calling := b.calling - 1, failures := b.failures + 1)
  }

  function Run(threshold: nat, n: nat, b: Breaker, ms: seq<Move>): Breaker {
    if ms == [] then b else Step(threshold, n, Run(threshold, n, b, ms[..|ms| - 1]), ms[|ms| - 1])
  }

  /** In every interleaving the counter stays below threshold + n, even counting what is in flight. */
  lemma {:induction false} FailuresBounded(threshold: nat, n: nat, ms: seq<Move>)
    requires threshold > 0
    ensures var b := Run(threshold, n, Closed(), ms);
            InFlight(b) <= n && b.failures + InFlight(b) <= threshold - 1 + n
  {
    if ms != [] {
      FailuresBounded(threshold, n, ms[..|ms| - 1]);
    }
  }

  /** Open with nothing in flight is final: no later move calls the reranker or closes the breaker. */
  lemma {:induction false} OpenIsFinal(threshold: nat, n: nat, b: Breaker, ms: seq<Move>)
    requires b.failures >= threshold && InFlight(b) == 0
    ensures Run(threshold, n, b, ms) == b
  {
    if ms != [] {
      OpenIsFinal(threshold, n, b, ms[..|ms| - 1]);
    }
  }

  // ----- What the counter counts -----

  /** The move records a result: some request is inside the call. */
  predicate Records(threshold: nat, n: nat, ms: seq<Move>, j: nat)
    requires j < |ms|
  {
    (ms[j].Succeed? || ms[j].Fail?) && Run(threshold, n, Closed(), ms[..j]).calling > 0
  }

  /** How many results from i on are failures. */
  function FailuresFrom(threshold: nat, n: nat, ms: seq<Move>, i: nat): nat
    requires i <= |ms|
  {
    if i == |ms| then 0
    else
      FailuresFrom(threshold, n, ms[..|ms| - 1], i) +
      if ms[|ms| - 1].Fail? && Records(threshold, n, ms, |ms| - 1) then 1 else 0
  }

  /** In every interleaving the counter is the number of failures recorded since the last recorded success. */
  lemma {:induction false} CounterIsStreak(threshold: nat, n: nat, ms: seq<Move>, i: nat)
    requires i <= |ms| && (i == 0 || (ms[i - 1].Succeed? && Records(threshold, n, ms, i - 1)))
    requires forall j: nat :: i <= j < |ms| && Records(threshold, n, ms, j) ==> ms[j].Fail?
    ensures Run(threshold, n, Closed(), ms).failures == FailuresFrom(threshold, n, ms, i)
  {
    if i < |ms| {
      var front := ms[..|ms| - 1];
      forall j: nat | j < |front|
        ensures Records(threshold, n, front, j) == Records(threshold, n, ms, j)
      {
        assert front[..j] == ms[..j];
      }
      assert i > 0 ==> front[i - 1] == ms[i - 1];
      CounterIsStreak(threshold, n, front, i);
      assert Records(threshold, n, ms, |front|) ==> ms[|front|].Fail?;
    }
  }

  // ----- The bound is reached -----

  lemma {:induction false} RunAppend(threshold: nat, n: nat, b: Breaker, ms: seq<Move>, ms': seq<Move>)
    ensures Run(threshold, n, b, ms + ms') == Run(threshold, n, Run(threshold, n, b, ms), ms')
  {
    if ms' == [] {
      assert ms + ms' == ms;
    } else {
      assert (ms + ms')[..|ms + ms'| - 1] == ms + ms'[..|ms'| - 1];
      RunAppend(threshold, n, b, ms, ms'[..|ms'| - 1]);
    }
  }

  lemma {:induction false} RunTimes(threshold: nat, n: nat, b: Breaker, m: Move, k: nat)
    requires match m
             case Check => b.failures < threshold && InFlight(b) + k <= n
             case Call => k <= b.checked
             case Succeed => k == 0
             case Fail => k <= b.calling
    ensures Run(threshold, n, b, Repeat(m, k)) ==
            match m
            case Check => b.(checked := b.checked + k)
            case Call => b.(checked := b.checked - k, calling := b.calling + k, calls := b.calls + k)
            case Succeed => b
            case Fail => b.(calling := b.calling - k, failures := b.failures + k)
  {
    if k > 0 {
      RunTimes(threshold, n, b, m, k - 1);
      assert Repeat(m, k)[..k - 1] == Repeat(m, k - 1);
    }
  }

  /** Waves of k checks, k calls and k failures. */
  lemma Wave(threshold: nat, n: nat, b: Breaker, k: nat) returns (ms: seq<Move>)
    requires b.failures < threshold && InFlight(b) == 0 && k <= n
    ensures Run(threshold, n, b, ms) == b.(failures := b.failures + k, calls := b.calls + k)
  {
    var b1, checks := b.(checked := k), Repeat(Check, k);
    var b2, calls := b1.(checked := 0, calling := k, calls := b.calls + k), Repeat(Call, k);
    RunTimes(threshold, n, b, Check, k);
    assert Run(threshold, n, b, checks) == b1;
    RunTimes(threshold, n, b1, Call, k);
    RunAppend(threshold, n, b, checks, calls);
    assert Run(threshold, n, b, checks + calls) == b2;
    RunTimes(threshold, n, b2, Fail, k);
    RunAppend(threshold, n, b, checks + calls, Repeat(Fail, k));
    ms := checks + calls + Repeat(Fail, k);
  }

  lemma {:induction false} OneByOne(threshold: nat, n: nat, k: nat) returns (ms: seq<Move>)
    requires k < threshold && n > 0
    ensures Run(threshold, n, Closed(), ms) == Breaker(k, 0, 0, k)
  {
    if k == 0 {
      ms := [];
    } else {
      var front := OneByOne(threshold, n, k - 1);
      var last := Wave(threshold, n, Breaker(k - 1, 0, 0, k - 1), 1);
      RunAppend(threshold, n, Closed(), front, last);
      ms := front + last;
    }
  }

  /** threshold - 1 + n is reached: threshold - 1 failures in a row, then n requests that all pass the
      check before any of them fails. */
  lemma BoundIsTight(threshold: nat, n: nat) returns (ms: seq<Move>)
    requires threshold > 0 && n > 0
    ensures var b := Run(threshold, n, Closed(), ms); b.failures == threshold - 1 + n && InFlight(b) == 0
  {
    var front := OneByOne(threshold, n, threshold - 1);
    var last := Wave(threshold, n, Breaker(threshold - 1, 0, 0, threshold - 1), n);
    RunAppend(threshold, n, Closed(), front, last);
    ms := front + last;
  }
}
