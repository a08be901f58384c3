/**
 The two circuit breakers that a rerank passes through: the one of the retrieval service and,
 behind it, the one of the Portkey adapter with its retries and fallback modes.
 */
module Gateway {
  import opened Contracts
  import Breakers = RerankBreaker
  import opened Ranking

  datatype RerankRequest = RerankRequest(
    tenant: string, requestId: string, queryText: string, candidates: seq<Candidate>, topN: int)

  predicate ValidRequest(r: RerankRequest) {
    r.tenant != "" && r.requestId != "" && r.queryText != "" && r.candidates != [] && r.topN > 0
  }

  function Fallback(r: RerankRequest): seq<Candidate> {
    Top(r.candidates, r.topN)
  }

  // ----- The adapter -----

  datatype FallbackMode = RetrievalOnly | DirectAllowlist | FailClosed

  datatype AdapterConfig = AdapterConfig(retryMax: int, threshold: int, mode: FallbackMode, allowlist: seq<string>)

  /** NewRerankerAdapter's defaults. */
  function WithDefaults(c: AdapterConfig): (d: AdapterConfig)
    ensures d.retryMax >= 0 && d.threshold > 0 && d == c.(retryMax := d.retryMax, threshold := d.threshold)
    ensures (c.retryMax >= 0 ==> d.retryMax == c.retryMax) && (c.retryMax < 0 ==> d.retryMax == 0)
    ensures (c.threshold > 0 ==> d.threshold == c.threshold) && (c.threshold <= 0 ==> d.threshold == 3)
  {
    c.(retryMax := if c.retryMax < 0 then 0 else c.retryMax, threshold := if c.threshold <= 0 then 3 else c.threshold)
  }

  /** The client's answer to each attempt. */
  type Client = nat -> Reply<seq<Candidate>>

  /** The first attempt from a on that succeeds, or the first one past the retries. */
  function FirstSuccess(cfg: AdapterConfig, client: Client, a: nat): (k: nat)
    ensures a <= k && (k <= cfg.retryMax ==> client(k).Ok?)
    ensures forall i: nat :: a <= i < k && i <= cfg.retryMax ==> client(i).Error?
    ensures k <= cfg.retryMax + 1 || k == a
    decreases cfg.retryMax + 1 - a
  {
    if a > cfg.retryMax || client(a).Ok? then a else FirstSuccess(cfg, client, a + 1)
  }

  predicate Allowlisted(cfg: AdapterConfig, tenant: string) {
    tenant in cfg.allowlist
  }

  function FallbackReply(cfg: AdapterConfig, r: RerankRequest): Reply<seq<Candidate>> {
    match cfg.mode
    case RetrievalOnly => Ok(Fallback(r))
    case DirectAllowlist => if Allowlisted(cfg, r.tenant) then Ok(Fallback(r)) else Error
    case FailClosed => Error
  }

  /** Reply, new failure counter and client calls of one adapter call. */
  datatype AdapterStep = AdapterStep(reply: Reply<seq<Candidate>>, failures: nat, calls: nat)

  function AdapterCall(cfg: AdapterConfig, failures: nat, r: RerankRequest, client: Client): AdapterStep {
    if !ValidRequest(r) then AdapterStep(Error, failures, 0)
    else if failures >= cfg.threshold then AdapterStep(FallbackReply(cfg, r), failures, 0)
    else
      var k := FirstSuccess(cfg, client, 0);
      if k <= cfg.retryMax then AdapterStep(client(k), 0, k + 1)
      else AdapterStep(FallbackReply(cfg, r), failures + 1, if cfg.retryMax < 0 then 0 else cfg.retryMax + 1)
  }

  /** All attempts of a request fail. */
  ghost predicate AllAttemptsFail(cfg: AdapterConfig, client: Client) {
    forall a: nat :: a <= cfg.retryMax ==> client(a).Error?
  }

  /** Attempt k is the first that succeeds. */
  ghost predicate SucceedsAt(cfg: AdapterConfig, client: Client, k: nat) {
    k <= cfg.retryMax && client(k).Ok? && forall a: nat :: a < k ==> client(a).Error?
  }

  /** What the adapter does, for every counter and client: the answer of the first attempt that succeeds closes
      the breaker; when all fail, or the breaker is open, the fallback answers. */
  lemma AdapterAnswers(cfg: AdapterConfig, failures: nat, r: RerankRequest, client: Client)
    requires cfg.retryMax >= 0
    ensures var s := AdapterCall(cfg, failures, r, client);
            && (!ValidRequest(r) ==> s == AdapterStep(Error, failures, 0))
            && (ValidRequest(r) && failures >= cfg.threshold ==> s == AdapterStep(FallbackReply(cfg, r), failures, 0))
            && (ValidRequest(r) && failures < cfg.threshold ==>
                  && (AllAttemptsFail(cfg, client) ==>
                        s == AdapterStep(FallbackReply(cfg, r), failures + 1, cfg.retryMax + 1))
                  && (forall k: nat :: SucceedsAt(cfg, client, k) ==> s == AdapterStep(client(k), 0, k + 1)))
  {
    var first := FirstSuccess(cfg, client, 0);
    assert forall k: nat :: SucceedsAt(cfg, client, k) ==> first == k;
  }

  /** What the fallback answers: the best candidates, an error, or either by the allowlist. */
  lemma FallbackAnswers(cfg: AdapterConfig, r: RerankRequest)
    ensures cfg.mode == RetrievalOnly ==> FallbackReply(cfg, r) == Ok(Top(r.candidates, r.topN))
    ensures cfg.mode == FailClosed ==> FallbackReply(cfg, r) == Error
    ensures cfg.mode == DirectAllowlist && r.tenant in cfg.allowlist ==>
              FallbackReply(cfg, r) == Ok(Top(r.candidates, r.topN))
    ensures cfg.mode == DirectAllowlist && r.tenant !in cfg.allowlist ==> FallbackReply(cfg, r) == Error
  {
  }

  class RerankerAdapter {
    const cfg: AdapterConfig
    var failures: nat
    var lastMetadata: (string, string)
    ghost var calls: nat

    constructor (config: AdapterConfig)
      ensures cfg == WithDefaults(config) && failures == 0 && calls == 0
    {
      cfg := WithDefaults(config);
      failures, calls, lastMetadata := 0, 0, ("", "");
    }

    /** RerankerAdapter.Rerank. */
    method Rerank(req: RerankRequest, client: Client) returns (r: Reply<seq<Candidate>>)
      modifies this
      ensures calls >= old(calls) && AdapterStep(r, failures, calls - old(calls)) ==
              AdapterCall(cfg, old(failures), req, client)
      ensures calls > old(calls) ==> lastMetadata == (req.tenant, req.requestId)
      ensures calls == old(calls) ==> lastMetadata == old(lastMetadata)
    {
      if !ValidRequest(req) {
        return Error;
      }
      if failures >= cfg.threshold {
        r := ApplyFallback(req);
        return;
      }
      var attempt: nat := 0;
      while attempt <= cfg.retryMax
        invariant attempt <= cfg.retryMax + 1 || attempt == 0
        invariant failures == old(failures) && calls == old(calls) + attempt
        invariant FirstSuccess(cfg, client, attempt) == FirstSuccess(cfg, client, 0)
        invariant lastMetadata == if attempt == 0 then old(lastMetadata) else (req.tenant, req.requestId)
        decreases cfg.retryMax + 1 - attempt
      {
        lastMetadata := (req.tenant, req.requestId);
        var reply := client(attempt);
        calls := calls + 1;
        if reply.Ok? {
          failures := 0;
          return reply;
        }
        attempt := attempt + 1;
      }
      failures := failures + 1;
      r := ApplyFallback(req);
    }

    method ApplyFallback(req: RerankRequest) returns (r: Reply<seq<Candidate>>)
      ensures r == FallbackReply(cfg, req)
    {
      match cfg.mode
      case RetrievalOnly =>
        var top := TopCandidates(req.candidates, req.topN);
        return Ok(top);
      case DirectAllowlist =>
        var listed := IsAllowlisted(req.tenant);
        if listed {
          var top := TopCandidates(req.candidates, req.topN);
          return Ok(top);
        }
        return Error;
      case FailClosed =>
        return Error;
    }

    method IsAllowlisted(tenant: string) returns (listed: bool)
      ensures listed == Allowlisted(cfg, tenant)
    {
      for i := 0 to |cfg.allowlist|
        invariant tenant !in cfg.allowlist[..i]
      {
        if cfg.allowlist[i] == tenant {
          return true;
        }
      }
      assert cfg.allowlist[..|cfg.allowlist|] == cfg.allowlist;
      return false;
    }
  }

  // ----- The service in front of it -----

  datatype Outcome =
    | Reranked(candidates: seq<Candidate>)
    | Degraded(candidates: seq<Candidate>)  // candidates together with an error
    | Refused

  datatype ServiceStep = ServiceStep(outcome: Outcome, failures: nat, called: bool)

  /** DeterministicRetrievalService.Rerank; `reply` is what the reranker would answer, `Error` also
      standing for a timeout. */
  function ServiceCall(hasReranker: bool, threshold: int, failures: nat, meta: RequestMetadata, r: RerankRequest,
                       reply: Reply<seq<Candidate>>): ServiceStep {
    if !ValidMetadata(meta) || !ValidRequest(r) || meta.tenant != r.tenant then ServiceStep(Refused, failures, false)
    else if !hasReranker then ServiceStep(Reranked(Fallback(r)), failures, false)
    else if failures >= threshold then ServiceStep(Degraded(Fallback(r)), failures, false)
    else match reply
      case Error => ServiceStep(Degraded(Fallback(r)), failures + 1, true)
      case Ok(ranked) => ServiceStep(Reranked(if r.topN >= |ranked| then ranked else ranked[..r.topN]), 0, true)
  }

  /** A complete request for the caller's own tenant. */
  predicate Serviceable(meta: RequestMetadata, r: RerankRequest) {
    && meta.tenant == r.tenant != "" && meta.requestId != "" && r.requestId != "" && r.queryText != ""
    && r.candidates != [] && r.topN > 0
  }

  /** What the service does: it refuses a bad request, passes on the first topN of a reply and closes its breaker,
      and otherwise degrades to the best candidates, counting an error it was given. */
  lemma ServiceAnswers(hasReranker: bool, threshold: int, failures: nat, meta: RequestMetadata, r: RerankRequest,
                       reply: Reply<seq<Candidate>>)
    ensures var s := ServiceCall(hasReranker, threshold, failures, meta, r, reply);
            && (s.outcome.Refused? <==> !Serviceable(meta, r))
            && (s.called <==> Serviceable(meta, r) && hasReranker && failures < threshold)
            && (!s.called ==> s.failures == failures)
            && (s.called && reply.Error? ==>
                  s.failures == failures + 1 && s.outcome == Degraded(Top(r.candidates, r.topN)))
            && (s.called && reply.Ok? ==>
                  && s.failures == 0 && s.outcome.Reranked? && s.outcome.candidates <= reply.value
                  && |s.outcome.candidates| == Min(r.topN, |reply.value|))
            && (Serviceable(meta, r) && !hasReranker ==> s.outcome == Reranked(Top(r.candidates, r.topN)))
            && (Serviceable(meta, r) && hasReranker && failures >= threshold ==>
                  s.outcome == Degraded(Top(r.candidates, r.topN)))
  {
  }

  /** One request alone moves the concurrent breaker like this service. */
  lemma AloneIsServiceCall(threshold: nat, failures: nat, calls: nat, meta: RequestMetadata, r: RerankRequest,
                           reply: Reply<seq<Candidate>>)
    requires Serviceable(meta, r)
    ensures var b := Breakers.Breaker(failures, 0, 0, calls);
            var b1 := Breakers.Step(threshold, 1, b, Breakers.Check);
            var b2 := Breakers.Step(threshold, 1, b1, Breakers.Call);
            var b3 := Breakers.Step(threshold, 1, b2, if reply.Ok? then Breakers.Succeed else Breakers.Fail);
            var s := ServiceCall(true, threshold, failures, meta, r, reply);
            b3 == Breakers.Breaker(s.failures, 0, 0, if s.called then calls + 1 else calls)
  {
  }

  // ----- Both together -----

  datatype Request = Request(meta: RequestMetadata, rerank: RerankRequest, client: Client, timesOut: bool)

  /** Counters of both breakers, and the client calls so far. */
  datatype Nested = Nested(outer: nat, inner: nat, calls: nat)

  predicate Admitted(threshold: int, st: Nested, q: Request) {
    ValidMetadata(q.meta) && ValidRequest(q.rerank) && q.meta.tenant == q.rerank.tenant && st.outer < threshold
  }

  function Serve(threshold: int, cfg: AdapterConfig, st: Nested, q: Request): Nested {
    if !Admitted(threshold, st, q) then st
    else
      var a := AdapterCall(cfg, st.inner, q.rerank, q.client);
      var s := ServiceCall(true, threshold, st.outer, q.meta, q.rerank, if q.timesOut then Error else a.reply);
      Nested(s.failures, a.failures, st.calls + a.calls)
  }

  function ServeAll(threshold: int, cfg: AdapterConfig, qs: seq<Request>): Nested {
    if qs == [] then Nested(0, 0, 0)
    else Serve(threshold, cfg, ServeAll(threshold, cfg, qs[..|qs| - 1]), qs[|qs| - 1])
  }

  ghost predicate ClientNeverAnswers(qs: seq<Request>) {
    forall i :: 0 <= i < |qs| ==> Silent(qs[i].client)
  }

  ghost predicate Silent(client: Client) {
    forall a: nat :: client(a).Error?
  }

  /** Without a client success every failure the adapter counts cost exactly retryMax+1 calls. */
  lemma {:induction false} CallsPerFailure(threshold: int, cfg: AdapterConfig, qs: seq<Request>)
    requires cfg.retryMax >= 0 && cfg.threshold > 0 && ClientNeverAnswers(qs)
    ensures var st := ServeAll(threshold, cfg, qs);
            st.inner <= cfg.threshold && st.calls == st.inner * (cfg.retryMax + 1)
  {
    var n := cfg.retryMax + 1;
    if qs != [] {
      CallsPerFailure(threshold, cfg, qs[..|qs| - 1]);
      var st, q := ServeAll(threshold, cfg, qs[..|qs| - 1]), qs[|qs| - 1];
      assert Silent(q.client);
      assert FirstSuccess(cfg, q.client, 0) > cfg.retryMax;
      assert (st.inner + 1) * n == st.inner * n + n;
    }
  }

  /** So, as it stops calling at its threshold, at most threshold*(retryMax+1) client calls, and then none in
      any later run, also when the client answers again. */
  lemma {:induction false} ClientCallsBounded(threshold: int, cfg: AdapterConfig, qs: seq<Request>)
    requires cfg.retryMax >= 0 && cfg.threshold > 0 && ClientNeverAnswers(qs)
    ensures var st := ServeAll(threshold, cfg, qs);
            && st.inner <= cfg.threshold && st.calls == st.inner * (cfg.retryMax + 1)
            && st.calls <= cfg.threshold * (cfg.retryMax + 1)
    ensures forall later :: ServeAll(threshold, cfg, qs).inner == cfg.threshold ==>
              ServeAll(threshold, cfg, qs + later).calls == cfg.threshold * (cfg.retryMax + 1)
  {
    var inner, n := ServeAll(threshold, cfg, qs).inner, cfg.retryMax + 1;
    CallsPerFailure(threshold, cfg, qs);
    Multiples(inner, cfg.threshold, n);
    forall later | inner == cfg.threshold
      ensures ServeAll(threshold, cfg, qs + later).calls == cfg.threshold * n
    {
      AdapterOpenIsFinal(threshold, cfg, qs, later);
    }
  }

  // ----- What the adapter's counter counts -----

  /** Request j gets past the service and finds the adapter's breaker closed. */
  predicate Reaches(threshold: int, cfg: AdapterConfig, qs: seq<Request>, j: nat)
    requires j < |qs|
  {
    var st := ServeAll(threshold, cfg, qs[..j]);
    Admitted(threshold, st, qs[j]) && st.inner < cfg.threshold
  }

  /** How many requests from i on reach the client. */
  function ReachedFrom(threshold: int, cfg: AdapterConfig, qs: seq<Request>, i: nat): nat
    requires i <= |qs|
  {
    if i == |qs| then 0
    else
      ReachedFrom(threshold, cfg, qs[..|qs| - 1], i) + if Reaches(threshold, cfg, qs, |qs| - 1) then 1 else 0
  }

  /** The run starts at i, or request i-1 reached the client and one of its attempts succeeded. */
  ghost predicate FreshAt(threshold: int, cfg: AdapterConfig, qs: seq<Request>, i: nat)
    requires i <= |qs|
  {
    i == 0 || (Reaches(threshold, cfg, qs, i - 1) && !AllAttemptsFail(cfg, qs[i - 1].client))
  }

  /** Every request from i on that reaches the client fails. */
  ghost predicate FailFrom(threshold: int, cfg: AdapterConfig, qs: seq<Request>, i: nat) {
    forall j: nat :: i <= j < |qs| && Reaches(threshold, cfg, qs, j) ==> AllAttemptsFail(cfg, qs[j].client)
  }

  lemma {:induction false} FrontReaches(threshold: int, cfg: AdapterConfig, qs: seq<Request>, j: nat)
    requires j < |qs| - 1
    ensures Reaches(threshold, cfg, qs[..|qs| - 1], j) == Reaches(threshold, cfg, qs, j)
  {
    assert qs[..|qs| - 1][..j] == qs[..j];
  }

  lemma {:induction false} FirstSuccessExists(cfg: AdapterConfig, client: Client)
    requires cfg.retryMax >= 0
    ensures FirstSuccess(cfg, client, 0) <= cfg.retryMax <==> !AllAttemptsFail(cfg, client)
  {
  }

  /** In every run, whatever the client answers: the adapter's counter is the number of requests that reached the
      client since one last succeeded, all of which failed.  So its breaker is open exactly after
      `threshold` of them. */
  lemma {:induction false} InnerCountsFailures(threshold: int, cfg: AdapterConfig, qs: seq<Request>, i: nat)
    requires cfg.retryMax >= 0 && i <= |qs| && FreshAt(threshold, cfg, qs, i) && FailFrom(threshold, cfg, qs, i)
    ensures ServeAll(threshold, cfg, qs).inner == ReachedFrom(threshold, cfg, qs, i)
  {
    if qs != [] {
      var front, n := qs[..|qs| - 1], |qs| - 1;
      FirstSuccessExists(cfg, qs[n].client);
      if i <= n {
        if i > 0 {
          FrontReachesOr(threshold, cfg, qs, i - 1);
        }
        forall j: nat | i <= j < |front| && Reaches(threshold, cfg, front, j)
          ensures AllAttemptsFail(cfg, front[j].client)
        {
          FrontReaches(threshold, cfg, qs, j);
        }
        InnerCountsFailures(threshold, cfg, front, i);
      }
    }
  }

  /** There is always such a point to count from. */
  lemma {:induction false} FreshPointExists(threshold: int, cfg: AdapterConfig, qs: seq<Request>) returns (i: nat)
    ensures i <= |qs| && FreshAt(threshold, cfg, qs, i) && FailFrom(threshold, cfg, qs, i)
  {
    i := 0;
    if qs != [] {
      var front, n := qs[..|qs| - 1], |qs| - 1;
      i := FreshPointExists(threshold, cfg, front);
      if Reaches(threshold, cfg, qs, n) && !AllAttemptsFail(cfg, qs[n].client) {
        i := |qs|;
      } else {
        if i > 0 {
          FrontReaches(threshold, cfg, qs, i - 1);
        }
        forall j: nat | i <= j < |qs| && Reaches(threshold, cfg, qs, j)
          ensures AllAttemptsFail(cfg, qs[j].client)
        {
          if j < n {
            FrontReaches(threshold, cfg, qs, j);
          }
        }
      }
    }
  }

  lemma {:induction false} FrontReachesOr(threshold: int, cfg: AdapterConfig, qs: seq<Request>, j: nat)
    requires j < |qs| - 1 && Reaches(threshold, cfg, qs, j)
    ensures Reaches(threshold, cfg, qs[..|qs| - 1], j) && qs[..|qs| - 1][j] == qs[j]
  {
    FrontReaches(threshold, cfg, qs, j);
  }

  /** Once the adapter's breaker is open it stays open: no later request, whatever the client would
      answer by then, reaches the client. */
  lemma {:induction false} AdapterOpenIsFinal(threshold: int, cfg: AdapterConfig, qs: seq<Request>, later: seq<Request>)
    requires ServeAll(threshold, cfg, qs).inner >= cfg.threshold
    ensures ServeAll(threshold, cfg, qs + later).inner == ServeAll(threshold, cfg, qs).inner
    ensures ServeAll(threshold, cfg, qs + later).calls == ServeAll(threshold, cfg, qs).calls
  {
    if later == [] {
      assert qs + later == qs;
    } else {
      AdapterOpenIsFinal(threshold, cfg, qs, later[..|later| - 1]);
      assert (qs + later)[..|qs + later| - 1] == qs + later[..|later| - 1];
    }
  }

  lemma Multiples(a: nat, b: nat, n: nat)
    requires a <= b
    ensures a * n <= b * n
  {
  }

  /** In retrieval_only mode, with no service timeout, the service breaker stays at 0 through every
      run, whatever the client answers: the adapter hides every failure. */
  lemma {:induction false} RetrievalOnlyHidesFailures(threshold: int, cfg: AdapterConfig, qs: seq<Request>)
    requires cfg.mode == RetrievalOnly && cfg.retryMax >= 0
    requires forall i :: 0 <= i < |qs| ==> !qs[i].timesOut
    ensures ServeAll(threshold, cfg, qs).outer == 0
  {
    if qs != [] {
      RetrievalOnlyHidesFailures(threshold, cfg, qs[..|qs| - 1]);
      assert !qs[|qs| - 1].timesOut;
    }
  }

  function Min(a: int, b: int): int {
    if a <= b then a else b
  }

  predicate WellFormed(q: Request) {
    ValidMetadata(q.meta) && ValidRequest(q.rerank) && q.meta.tenant == q.rerank.tenant && !q.timesOut
  }

  /** The fallback answers this request, so the service sees no failure. */
  predicate Covered(cfg: AdapterConfig, q: Request) {
    cfg.mode.RetrievalOnly? || (cfg.mode.DirectAllowlist? && q.rerank.tenant in cfg.allowlist)
  }

  /** How many requests at the end of the run in a row the fallback does not answer. */
  function Streak(cfg: AdapterConfig, qs: seq<Request>): nat {
    if qs == [] || Covered(cfg, qs[|qs| - 1]) then 0 else Streak(cfg, qs[..|qs| - 1]) + 1
  }

  /** After n requests, and not before, `threshold` in a row were not answered; n is the whole run when
      that never happens. */
  ghost predicate OpensAfter(threshold: int, cfg: AdapterConfig, qs: seq<Request>, n: nat) {
    && n <= |qs| && (n < |qs| ==> Streak(cfg, qs[..n]) >= threshold)
    && forall k: nat :: k < n ==> Streak(cfg, qs[..k]) < threshold
  }

  lemma OpensAfterFront(threshold: int, cfg: AdapterConfig, qs: seq<Request>, n: nat)
    requires qs != [] && OpensAfter(threshold, cfg, qs, n)
    ensures OpensAfter(threshold, cfg, qs[..|qs| - 1], if n == |qs| then n - 1 else n)
  {
    var front := qs[..|qs| - 1];
    assert forall k: nat :: k <= |front| ==> front[..k] == qs[..k];
  }

  lemma {:induction false} OpeningExists(threshold: int, cfg: AdapterConfig, qs: seq<Request>) returns (n: nat)
    ensures OpensAfter(threshold, cfg, qs, n)
  {
    n := 0;
    if qs != [] {
      var front := qs[..|qs| - 1];
      n := OpeningExists(threshold, cfg, front);
      assert forall k: nat :: k <= |front| ==> front[..k] == qs[..k];
      if Streak(cfg, qs[..n]) < threshold {
        n := |qs|;
      }
    }
  }

  /** An admitted request of an outage costs one round of retries while the adapter's breaker is closed,
      and counts at the service exactly when the fallback does not cover it. */
  lemma OutageStep(threshold: int, cfg: AdapterConfig, st: Nested, q: Request)
    requires cfg.retryMax >= 0 && st.outer < threshold && WellFormed(q) && Silent(q.client)
    ensures var st' := Serve(threshold, cfg, st, q);
            && st'.inner == (if st.inner < cfg.threshold then st.inner + 1 else st.inner)
            && st'.outer == (if Covered(cfg, q) then 0 else st.outer + 1)
  {
    assert FirstSuccess(cfg, q.client, 0) > cfg.retryMax;
  }

  lemma {:induction false} OutageCounters(threshold: int, cfg: AdapterConfig, qs: seq<Request>, n: nat)
    requires cfg.retryMax >= 0 && cfg.threshold > 0 && threshold > 0 && ClientNeverAnswers(qs)
    requires forall i :: 0 <= i < |qs| ==> WellFormed(qs[i])
    requires OpensAfter(threshold, cfg, qs, n)
    ensures ServeAll(threshold, cfg, qs).inner == Min(n, cfg.threshold)
    ensures ServeAll(threshold, cfg, qs).outer == Streak(cfg, qs[..n])
  {
    if qs != [] {
      var front, q := qs[..|qs| - 1], qs[|qs| - 1];
      var n' := if n == |qs| then n - 1 else n;
      OpensAfterFront(threshold, cfg, qs, n);
      OutageCounters(threshold, cfg, front, n');
      assert front[..n'] == qs[..n'] && (n == |qs| ==> qs[..n] == qs);
      assert WellFormed(q) && Silent(q.client);
      if n == |qs| {
        OutageStep(threshold, cfg, ServeAll(threshold, cfg, front), q);
      }
    }
  }

  /** What an outage costs, in every mode: until the service's breaker opens each well-formed request
      costs one round of retryMax+1 calls, up to the adapter's threshold, and the service counts the
      requests in a row that the fallback did not answer. */
  lemma {:induction false} OutageCost(threshold: int, cfg: AdapterConfig, qs: seq<Request>, n: nat)
    requires cfg.retryMax >= 0 && cfg.threshold > 0 && threshold > 0 && ClientNeverAnswers(qs)
    requires forall i :: 0 <= i < |qs| ==> WellFormed(qs[i])
    requires OpensAfter(threshold, cfg, qs, n)
    ensures var st := ServeAll(threshold, cfg, qs);
            && st.inner == Min(n, cfg.threshold) && st.outer == Streak(cfg, qs[..n])
            && st.calls == st.inner * (cfg.retryMax + 1)
  {
    CallsPerFailure(threshold, cfg, qs);
    OutageCounters(threshold, cfg, qs, n);
  }

  lemma {:induction false} StreakPerMode(cfg: AdapterConfig, qs: seq<Request>)
    ensures cfg.mode.RetrievalOnly? ==> Streak(cfg, qs) == 0
    ensures cfg.mode.FailClosed? ==> Streak(cfg, qs) == |qs|
  {
    if qs != [] {
      StreakPerMode(cfg, qs[..|qs| - 1]);
    }
  }

  /** In retrieval_only mode only the adapter's threshold counts; in fail_closed mode the smaller of the two. */
  lemma {:induction false} OutageCostPerMode(threshold: int, cfg: AdapterConfig, qs: seq<Request>)
    requires cfg.retryMax >= 0 && cfg.threshold > 0 && threshold > 0 && ClientNeverAnswers(qs)
    requires forall i :: 0 <= i < |qs| ==> WellFormed(qs[i])
    ensures var st := ServeAll(threshold, cfg, qs);
            && (cfg.mode.RetrievalOnly? ==> st.outer == 0 && st.inner == Min(|qs|, cfg.threshold))
            && (cfg.mode.FailClosed? ==>
                  st.outer == Min(|qs|, threshold) && st.inner == Min(|qs|, Min(threshold, cfg.threshold)))
  {
    var n := OpeningExists(threshold, cfg, qs);
    OutageCost(threshold, cfg, qs, n);
    StreakPerMode(cfg, qs[..n]);
    if n > 0 {
      StreakPerMode(cfg, qs[..n - 1]);
      assert Streak(cfg, qs[..n - 1]) < threshold;
    }
  }
}
