/**
 The per-tenant and global limiter of `internal/ratelimit`: one counter per tenant and one global
 counter, each for the second it was last used in, against the full log of admissions.
 */
module RateLimiter {

  /** windowCounter; a missing tenant reads as Window(0, 0). */
  datatype Window = Window(second: int, count: int)

  datatype Limits = Limits(tenantBurst: int, globalBurst: int)

  datatype Counters = Counters(tenants: map<string, Window>, global: Window)

  datatype Decision = Allowed(remaining: int) | GlobalBurstExceeded | TenantBurstExceeded | InvalidTenant

  datatype Call = Call(tenant: string, second: int)

  function Zero(): Counters {
    Counters(map[], Window(0, 0))
  }

  function NextWindow(c: Window, now: int): Window {
    if c.second != now then Window(now, 0) else c
  }

  function TenantWindow(c: Counters, tenant: string): Window {
    if tenant in c.tenants then c.tenants[tenant] else Window(0, 0)
  }

  function AllowStep(l: Limits, c: Counters, call: Call): (Counters, Decision) {
    if call.tenant == "" then (c, InvalidTenant)
    else
      var g := NextWindow(c.global, call.second);
      var t := NextWindow(TenantWindow(c, call.tenant), call.second);
      if g.count >= l.globalBurst then (c.(global := g), GlobalBurstExceeded)
      else if t.count >= l.tenantBurst then (c.(global := g), TenantBurstExceeded)
      else (Counters(c.tenants[call.tenant := t.(count := t.count + 1)], g.(count := g.count + 1)),
            Allowed(l.tenantBurst - (t.count + 1)))
  }

  /** DefaultTenantBurstRPS and DefaultGlobalBurstRPS. */
  const DEFAULTS := Limits(4, 600)

  /** The bursts are exported fields that a caller may set after construction. */
  class Limiter {
    var limits: Limits
    var tenants: map<string, Window>
    var global: Window

    ghost function Value(): Counters
      reads this
    {
      Counters(tenants, global)
    }

    constructor ()
      ensures limits == DEFAULTS && Value() == Zero()
    {
      limits, tenants, global := DEFAULTS, map[], Window(0, 0);
    }

    /** Limiter.Allow at clock reading nowSec. */
    method Allow(tenant: string, nowSec: int) returns (d: Decision)
      modifies this`tenants, this`global
      ensures (Value(), d) == AllowStep(limits, old(Value()), Call(tenant, nowSec))
    {
      if tenant == "" {
        return InvalidTenant;
      }
      global := NextWindow(global, nowSec);
      if global.count >= limits.globalBurst {
        return GlobalBurstExceeded;
      }
      var tenantCounter := NextWindow(if tenant in tenants then tenants[tenant] else Window(0, 0), nowSec);
      if tenantCounter.count >= limits.tenantBurst {
        return TenantBurstExceeded;
      }
      tenantCounter := tenantCounter.(count := tenantCounter.count + 1);
      tenants := tenants[tenant := tenantCounter];
      global := global.(count := global.count + 1);
      return Allowed(limits.tenantBurst - tenantCounter.count);
    }
  }

  // ----- The full history -----

  /** Counters and the log of admitted calls. */
  datatype History = History(counters: Counters, log: seq<Call>)

  function Record(l: Limits, h: History, call: Call): History {
    var (c, d) := AllowStep(l, h.counters, call);
    History(c, if d.Allowed? then h.log + [call] else h.log)
  }

  function Replay(l: Limits, calls: seq<Call>): History {
    if calls == [] then History(Zero(), []) else Record(l, Replay(l, calls[..|calls| - 1]), calls[|calls| - 1])
  }

  /** Admissions in a second, overall. */
  function CountAll(log: seq<Call>, second: int): nat {
    if log == [] then 0 else CountAll(log[..|log| - 1], second) + if log[|log| - 1].second == second then 1 else 0
  }

  /** Admissions of one tenant in a second. */
  function CountFor(log: seq<Call>, tenant: string, second: int): nat {
    if log == [] then 0
    else CountFor(log[..|log| - 1], tenant, second) + if log[|log| - 1] == Call(tenant, second) then 1 else 0
  }

  lemma {:induction false} CountsSnoc(log: seq<Call>, c: Call, tenant: string, second: int)
    ensures CountAll(log + [c], second) == CountAll(log, second) + if c.second == second then 1 else 0
    ensures CountFor(log + [c], tenant, second) == CountFor(log, tenant, second) +
            if c == Call(tenant, second) then 1 else 0
  {
    assert (log + [c])[..|log|] == log;
  }

  lemma {:induction false} CountsZero(log: seq<Call>, tenant: string, second: int)
    ensures (forall i :: 0 <= i < |log| ==> log[i].second != second) ==> CountAll(log, second) == 0
    ensures (forall i :: 0 <= i < |log| ==> log[i] != Call(tenant, second)) ==> CountFor(log, tenant, second) == 0
  {
    if log != [] {
      CountsZero(log[..|log| - 1], tenant, second);
    }
  }

  // ----- Which clocks -----

  ghost predicate NonDecreasing(calls: seq<Call>) {
    forall i, j :: 0 <= i < j < |calls| ==> calls[i].second <= calls[j].second
  }

  /** A call that reads the clock; a call without a tenant is turned away before. */
  predicate Heard(calls: seq<Call>, i: int) {
    0 <= i < |calls| && calls[i].tenant != ""
  }

  /** No second is read again once another second was read after it. */
  ghost predicate Contiguous(calls: seq<Call>) {
    forall i, j, k :: i < j < k && Heard(calls, i) && Heard(calls, j) && Heard(calls, k) ==>
      calls[i].second == calls[k].second ==> calls[j].second == calls[i].second
  }

  /** The seconds read so far. */
  function Seconds(calls: seq<Call>): set<int> {
    if calls == [] then {}
    else Seconds(calls[..|calls| - 1]) + if calls[|calls| - 1].tenant == "" then {} else {calls[|calls| - 1].second}
  }

  /** The second read last; 0 before the first. */
  function LastSecond(calls: seq<Call>): int {
    if calls == [] then 0
    else if calls[|calls| - 1].tenant == "" then LastSecond(calls[..|calls| - 1])
    else calls[|calls| - 1].second
  }

  /** The call goes back to a second that was left. */
  predicate Returns(calls: seq<Call>, call: Call) {
    call.tenant != "" && call.second in Seconds(calls) && call.second != LastSecond(calls)
  }

  predicate NeverReturns(calls: seq<Call>) {
    calls == [] || (NeverReturns(calls[..|calls| - 1]) && !Returns(calls[..|calls| - 1], calls[|calls| - 1]))
  }

  lemma {:induction false} SecondsHeard(calls: seq<Call>)
    ensures forall i :: Heard(calls, i) ==> calls[i].second in Seconds(calls)
    ensures forall s :: s in Seconds(calls) ==> exists i :: Heard(calls, i) && calls[i].second == s
  {
    if calls != [] {
      var front, n := calls[..|calls| - 1], |calls| - 1;
      SecondsHeard(front);
      assert forall i :: Heard(front, i) ==> Heard(calls, i) && calls[i] == front[i];
      assert forall i :: Heard(calls, i) && i < n ==> Heard(front, i) && calls[i] == front[i];
      assert calls[n].tenant != "" ==> Heard(calls, n);
    }
  }

  /** The last call that read the clock. */
  lemma {:induction false} LastHeard(calls: seq<Call>) returns (p: nat)
    requires Seconds(calls) != {}
    ensures Heard(calls, p) && calls[p].second == LastSecond(calls)
    ensures forall i :: Heard(calls, i) ==> i <= p
  {
    p := |calls| - 1;
    if calls[p].tenant == "" {
      var front := calls[..p];
      p := LastHeard(front);
      assert forall i :: Heard(calls, i) ==> Heard(front, i);
    }
  }

  lemma ContiguousFront(calls: seq<Call>)
    requires calls != [] && Contiguous(calls)
    ensures Contiguous(calls[..|calls| - 1])
  {
    var front := calls[..|calls| - 1];
    assert forall i :: Heard(front, i) ==> Heard(calls, i) && calls[i] == front[i];
  }

  /** A return has an earlier reading of its second and, after that, one of another second. */
  lemma ReturnBreaks(calls: seq<Call>, call: Call)
    requires Returns(calls, call)
    ensures !Contiguous(calls + [call])
  {
    var all := calls + [call];
    SecondsHeard(calls);
    var i :| Heard(calls, i) && calls[i].second == call.second;
    var p := LastHeard(calls);
    assert Heard(all, i) && Heard(all, p) && Heard(all, |calls|);
    assert i < p && all[i] == calls[i] && all[p] == calls[p];
  }

  /** Without a return everything read since the same second is in that second. */
  lemma NoGap(calls: seq<Call>, call: Call, i: int, j: int)
    requires Contiguous(calls) && call.tenant != "" && !Returns(calls, call)
    requires i < j && Heard(calls, i) && Heard(calls, j) && calls[i].second == call.second
    ensures calls[j].second == call.second
  {
    SecondsHeard(calls);
    var p := LastHeard(calls);
    assert j <= p;
  }

  lemma NoReturnExtends(calls: seq<Call>, call: Call)
    requires Contiguous(calls) && !Returns(calls, call)
    ensures Contiguous(calls + [call])
  {
    var all := calls + [call];
    forall i, j, k | i < j < k && Heard(all, i) && Heard(all, j) && Heard(all, k) && all[i].second == all[k].second
      ensures all[j].second == all[i].second
    {
      assert Heard(calls, i) && Heard(calls, j);
      if k == |calls| {
        NoGap(calls, call, i, j);
      } else {
        assert Heard(calls, k);
      }
    }
  }

  lemma {:induction false} ContiguousIffNeverReturns(calls: seq<Call>)
    ensures Contiguous(calls) <==> NeverReturns(calls)
  {
    if calls != [] {
      var front, last := calls[..|calls| - 1], calls[|calls| - 1];
      assert front + [last] == calls;
      ContiguousIffNeverReturns(front);
      if Contiguous(calls) {
        ContiguousFront(calls);
        if Returns(front, last) {
          ReturnBreaks(front, last);
        }
      }
      if NeverReturns(calls) {
        NoReturnExtends(front, last);
      }
    }
  }

  /** A clock that does not go back never returns to a second. */
  lemma NonDecreasingIsContiguous(calls: seq<Call>)
    requires NonDecreasing(calls)
    ensures Contiguous(calls)
  {
  }

  // ----- The counters follow the log -----

  /** The counters are the log's counts for their own seconds; what was used lies in the seconds read,
      and a tenant admitted in the global window's second has its own window there. */
  ghost predicate Faithful(h: History, seconds: set<int>) {
    && h.counters.global.count == CountAll(h.log, h.counters.global.second)
    && TenantsFaithful(h, seconds) && LogFaithful(h, seconds)
  }

  ghost predicate TenantsFaithful(h: History, seconds: set<int>) {
    forall t :: t in h.counters.tenants ==>
      && h.counters.tenants[t].count == CountFor(h.log, t, h.counters.tenants[t].second)
      && h.counters.tenants[t].second in seconds
  }

  ghost predicate LogFaithful(h: History, seconds: set<int>) {
    forall i :: 0 <= i < |h.log| ==>
      && h.log[i].second in seconds && h.log[i].tenant in h.counters.tenants
      && (h.log[i].second == h.counters.global.second ==>
            h.counters.tenants[h.log[i].tenant].second == h.counters.global.second)
  }

  /** The clock reads a new second, or the one it read last. */
  predicate Onward(h: History, seconds: set<int>, now: int) {
    now in seconds ==> now == h.counters.global.second
  }

  /** Then the rolled-over counters are the log's counts for this second. */
  lemma {:induction false} WindowsCountTheLog(h: History, seconds: set<int>, tenant: string, now: int)
    requires Faithful(h, seconds) && Onward(h, seconds, now)
    ensures NextWindow(h.counters.global, now).count == CountAll(h.log, now)
    ensures NextWindow(TenantWindow(h.counters, tenant), now).count == CountFor(h.log, tenant, now)
  {
    CountsZero(h.log, tenant, now);
    var c := h.counters;
    assert c.global.second != now ==> forall i :: 0 <= i < |h.log| ==> h.log[i].second != now;
    if tenant !in c.tenants || c.tenants[tenant].second != now {
      forall i | 0 <= i < |h.log|
        ensures h.log[i] != Call(tenant, now)
      {
        assert h.log[i].second in seconds && h.log[i].tenant in c.tenants;
      }
    }
  }

  /** Both counts of the full history leave room for the call. */
  predicate HasRoom(l: Limits, log: seq<Call>, call: Call) {
    && call.tenant != "" && CountAll(log, call.second) < l.globalBurst
    && CountFor(log, call.tenant, call.second) < l.tenantBurst
  }

  /** The decision is the one the log gives. */
  predicate Agrees(l: Limits, h: History, call: Call) {
    AllowStep(l, h.counters, call).1.Allowed? <==> HasRoom(l, h.log, call)
  }

  /** Admission agrees with the log: fewer than globalBurst admitted overall this second, and fewer
      than tenantBurst for this tenant; a refusal names the global limit first. */
  lemma AllowAgreesWithLog(l: Limits, h: History, seconds: set<int>, call: Call)
    requires Faithful(h, seconds) && Onward(h, seconds, call.second)
    ensures Agrees(l, h, call)
    ensures AllowStep(l, h.counters, call).1.Allowed? ==>
              AllowStep(l, h.counters, call).1.remaining ==
              l.tenantBurst - CountFor(Record(l, h, call).log, call.tenant, call.second)
    ensures AllowStep(l, h.counters, call).1.InvalidTenant? <==> call.tenant == ""
    ensures AllowStep(l, h.counters, call).1.GlobalBurstExceeded? <==>
              call.tenant != "" && CountAll(h.log, call.second) >= l.globalBurst
    ensures AllowStep(l, h.counters, call).1.TenantBurstExceeded? <==>
              && call.tenant != "" && CountAll(h.log, call.second) < l.globalBurst
              && CountFor(h.log, call.tenant, call.second) >= l.tenantBurst
  {
    WindowsCountTheLog(h, seconds, call.tenant, call.second);
    CountsSnoc(h.log, call, call.tenant, call.second);
  }

  /** A refusal only rolls the global window over. */
  lemma RefusalFaithful(h: History, seconds: set<int>, now: int)
    requires Faithful(h, seconds) && Onward(h, seconds, now)
    ensures Faithful(h.(counters := h.counters.(global := NextWindow(h.counters.global, now))), seconds + {now})
  {
    WindowsCountTheLog(h, seconds, "", now);
  }

  /** The counters after an admission. */
  function Admitted(c: Counters, call: Call): Counters {
    var g := NextWindow(c.global, call.second);
    var t := NextWindow(TenantWindow(c, call.tenant), call.second);
    Counters(c.tenants[call.tenant := t.(count := t.count + 1)], g.(count := g.count + 1))
  }

  lemma AdmissionTenantsFaithful(h: History, seconds: set<int>, call: Call)
    requires Faithful(h, seconds) && Onward(h, seconds, call.second)
    ensures TenantsFaithful(History(Admitted(h.counters, call), h.log + [call]), seconds + {call.second})
  {
    WindowsCountTheLog(h, seconds, call.tenant, call.second);
    var tenants := Admitted(h.counters, call).tenants;
    forall u | u in tenants
      ensures tenants[u].count == CountFor(h.log + [call], u, tenants[u].second)
      ensures tenants[u].second in seconds + {call.second}
    {
      CountsSnoc(h.log, call, u, tenants[u].second);
    }
  }

  lemma AdmissionLogFaithful(h: History, seconds: set<int>, call: Call)
    requires Faithful(h, seconds) && Onward(h, seconds, call.second)
    ensures LogFaithful(History(Admitted(h.counters, call), h.log + [call]), seconds + {call.second})
  {
    var c, log := Admitted(h.counters, call), h.log + [call];
    forall i | 0 <= i < |log|
      ensures log[i].second in seconds + {call.second} && log[i].tenant in c.tenants
      ensures log[i].second == c.global.second ==> c.tenants[log[i].tenant].second == c.global.second
    {
      if i < |h.log| {
        assert log[i] == h.log[i] && h.log[i].second in seconds;
      }
    }
  }

  lemma AdmissionFaithful(h: History, seconds: set<int>, call: Call)
    requires Faithful(h, seconds) && Onward(h, seconds, call.second)
    ensures Faithful(History(Admitted(h.counters, call), h.log + [call]), seconds + {call.second})
  {
    WindowsCountTheLog(h, seconds, call.tenant, call.second);
    CountsSnoc(h.log, call, call.tenant, call.second);
    AdmissionTenantsFaithful(h, seconds, call);
    AdmissionLogFaithful(h, seconds, call);
  }

  lemma RecordFaithful(l: Limits, h: History, seconds: set<int>, call: Call)
    requires Faithful(h, seconds) && call.tenant != "" && Onward(h, seconds, call.second)
    ensures Faithful(Record(l, h, call), seconds + {call.second})
  {
    if AllowStep(l, h.counters, call).1.Allowed? {
      AdmissionFaithful(h, seconds, call);
    } else {
      RefusalFaithful(h, seconds, call.second);
    }
  }

  /** The global window stands at the second read last. */
  lemma {:induction false} GlobalIsLastSecond(l: Limits, calls: seq<Call>)
    ensures Replay(l, calls).counters.global.second == LastSecond(calls)
  {
    if calls != [] {
      GlobalIsLastSecond(l, calls[..|calls| - 1]);
    }
  }

  /** In every run that never returns to a second the counters are the log's counts. */
  lemma {:induction false} ReplayFaithful(l: Limits, calls: seq<Call>)
    requires NeverReturns(calls)
    ensures Faithful(Replay(l, calls), Seconds(calls))
  {
    if calls != [] {
      var front, last := calls[..|calls| - 1], calls[|calls| - 1];
      ReplayFaithful(l, front);
      GlobalIsLastSecond(l, front);
      if last.tenant != "" {
        RecordFaithful(l, Replay(l, front), Seconds(front), last);
      }
    }
  }

  // ----- The limiter refines its log -----

  /** Decision n of the run is the one the log up to it gives. */
  predicate AgreesAt(l: Limits, calls: seq<Call>, n: nat)
    requires n < |calls|
  {
    Agrees(l, Replay(l, calls[..n]), calls[n])
  }

  /** Every decision of the run is the one the log up to it gives. */
  ghost predicate AgreesThroughout(l: Limits, calls: seq<Call>) {
    forall n: nat :: n < |calls| ==> AgreesAt(l, calls, n)
  }

  lemma AgreesAtFront(l: Limits, calls: seq<Call>, n: nat)
    requires n < |calls| - 1
    ensures AgreesAt(l, calls[..|calls| - 1], n) == AgreesAt(l, calls, n)
  {
    assert calls[..|calls| - 1][..n] == calls[..n];
  }

  lemma {:induction false} AgreesFront(l: Limits, calls: seq<Call>)
    requires calls != []
    ensures AgreesThroughout(l, calls) <==>
            && AgreesThroughout(l, calls[..|calls| - 1])
            && Agrees(l, Replay(l, calls[..|calls| - 1]), calls[|calls| - 1])
  {
    var front, last := calls[..|calls| - 1], |calls| - 1;
    assert AgreesAt(l, calls, last) == Agrees(l, Replay(l, front), calls[last]);
    if AgreesThroughout(l, calls) {
      forall n: nat | n < |front|
        ensures AgreesAt(l, front, n)
      {
        AgreesAtFront(l, calls, n);
      }
    }
    if AgreesThroughout(l, front) && AgreesAt(l, calls, last) {
      forall n: nat | n < |calls|
        ensures AgreesAt(l, calls, n)
      {
        if n < last {
          AgreesAtFront(l, calls, n);
        }
      }
    }
  }

  lemma {:induction false} NeverReturningAgrees(l: Limits, calls: seq<Call>)
    requires NeverReturns(calls)
    ensures AgreesThroughout(l, calls)
  {
    if calls != [] {
      var front, last := calls[..|calls| - 1], calls[|calls| - 1];
      NeverReturningAgrees(l, front);
      AgreesFront(l, calls);
      if last.tenant != "" {
        ReplayFaithful(l, front);
        GlobalIsLastSecond(l, front);
        AllowAgreesWithLog(l, Replay(l, front), Seconds(front), last);
      }
    }
  }

  lemma {:induction false} TenantPartOfAll(log: seq<Call>, tenant: string, second: int)
    ensures CountFor(log, tenant, second) <= CountAll(log, second) <= |log|
  {
    if log != [] {
      TenantPartOfAll(log[..|log| - 1], tenant, second);
    }
  }

  /** No tenant's window counts more than the calls so far, and no more than that are in the log. */
  lemma {:induction false} CountsWithinCalls(l: Limits, calls: seq<Call>, tenant: string)
    ensures TenantWindow(Replay(l, calls).counters, tenant).count <= |calls| && |Replay(l, calls).log| <= |calls|
  {
    if calls != [] {
      CountsWithinCalls(l, calls[..|calls| - 1], tenant);
      CountsWithinCalls(l, calls[..|calls| - 1], calls[|calls| - 1].tenant);
    }
  }

  /** One admission per second: with the tenant limit out of the way, agreement fills every second read. */
  lemma {:induction false} SecondsAreFilled(m: nat, calls: seq<Call>)
    requires |calls| <= m && AgreesThroughout(Limits(m + 1, 1), calls)
    ensures forall s :: s in Seconds(calls) ==> CountAll(Replay(Limits(m + 1, 1), calls).log, s) >= 1
  {
    if calls != [] {
      var l, front, last := Limits(m + 1, 1), calls[..|calls| - 1], calls[|calls| - 1];
      var h := Replay(l, front);
      AgreesFront(l, calls);
      SecondsAreFilled(m, front);
      CountsWithinCalls(l, front, last.tenant);
      TenantPartOfAll(h.log, last.tenant, last.second);
      forall s | s in Seconds(calls)
        ensures CountAll(Replay(l, calls).log, s) >= 1
      {
        CountsSnoc(h.log, last, last.tenant, s);
        if s !in Seconds(front) {
          assert CountAll(h.log, s) >= 1 || HasRoom(l, h.log, last);
          assert AllowStep(l, h.counters, last).1.Allowed? ==> Replay(l, calls).log == h.log + [last];
        }
      }
    }
  }

  /** The first return is admitted although its second is full. */
  lemma {:induction false} AgreeingNeverReturns(m: nat, calls: seq<Call>)
    requires |calls| <= m && AgreesThroughout(Limits(m + 1, 1), calls)
    ensures NeverReturns(calls)
  {
    if calls != [] {
      var l, front, last := Limits(m + 1, 1), calls[..|calls| - 1], calls[|calls| - 1];
      AgreesFront(l, calls);
      AgreeingNeverReturns(m, front);
      SecondsAreFilled(m, front);
      CountsWithinCalls(l, front, last.tenant);
      GlobalIsLastSecond(l, front);
    }
  }

  /** Exactly when the limiter refines its log: whatever the limits, every call of the run is admitted
      exactly when the log leaves room, if and only if the clock never returns to a second it left. */
  lemma LimiterRefinesLogIff(calls: seq<Call>)
    ensures Contiguous(calls) <==> forall l :: AgreesThroughout(l, calls)
  {
    ContiguousIffNeverReturns(calls);
    if Contiguous(calls) {
      forall l
        ensures AgreesThroughout(l, calls)
      {
        NeverReturningAgrees(l, calls);
      }
    }
    if forall l :: AgreesThroughout(l, calls) {
      AgreeingNeverReturns(|calls|, calls);
    }
  }

  /** In particular after any run under a non-decreasing clock, the next call is admitted exactly when
      both counts of the full history leave room. */
  lemma {:induction false} LimiterRefinesLog(l: Limits, calls: seq<Call>, call: Call)
    requires NonDecreasing(calls + [call])
    ensures AllowStep(l, Replay(l, calls).counters, call).1.Allowed? <==> HasRoom(l, Replay(l, calls).log, call)
  {
    var all := calls + [call];
    NonDecreasingIsContiguous(all);
    LimiterRefinesLogIff(all);
    assert AgreesThroughout(l, all) && all[..|calls|] == calls && all[|calls|] == call;
    assert AgreesAt(l, all, |calls|);
  }

  // ----- The global count is the sum of the tenant counts -----

  function InWindow(w: Window, second: int): int {
    if w.second == second then w.count else 0
  }

  ghost function SumIn(m: map<string, Window>, keys: set<string>, second: int): int
    requires keys <= m.Keys
  {
    if keys == {} then 0
    else
      var k :| k in keys;
      InWindow(m[k], second) + SumIn(m, keys - {k}, second)
  }

  lemma {:induction false} SumTakeOut(m: map<string, Window>, keys: set<string>, second: int, k: string)
    requires keys <= m.Keys && k in keys
    ensures SumIn(m, keys, second) == InWindow(m[k], second) + SumIn(m, keys - {k}, second)
    decreases |keys|
  {
    var p :| p in keys && SumIn(m, keys, second) == InWindow(m[p], second) + SumIn(m, keys - {p}, second);
    if p != k {
      SumTakeOut(m, keys - {p}, second, k);
      SumTakeOut(m, keys - {k}, second, p);
      assert keys - {p} - {k} == keys - {k} - {p};
    }
  }

  lemma {:induction false} SumSame(m: map<string, Window>, m': map<string, Window>, keys: set<string>, second: int,
                                   second': int)
    requires keys <= m.Keys && keys <= m'.Keys
    requires forall k :: k in keys ==> InWindow(m[k], second) == InWindow(m'[k], second')
    ensures SumIn(m, keys, second) == SumIn(m', keys, second')
    decreases |keys|
  {
    if keys != {} {
      var k :| k in keys;
      SumTakeOut(m, keys, second, k);
      SumTakeOut(m', keys, second', k);
      SumSame(m, m', keys - {k}, second, second');
    }
  }

  lemma {:induction false} SumZero(m: map<string, Window>, keys: set<string>, second: int)
    requires keys <= m.Keys && forall k :: k in keys ==> m[k].second != second
    ensures SumIn(m, keys, second) == 0
    decreases |keys|
  {
    if keys != {} {
      var k :| k in keys;
      SumTakeOut(m, keys, second, k);
      assert InWindow(m[k], second) == 0;
      SumZero(m, keys - {k}, second);
    }
  }

  /** The tenant counts whose window is the global window add up to the global count. */
  ghost predicate Adds(c: Counters) {
    c.global.count == SumIn(c.tenants, c.tenants.Keys, c.global.second)
  }

  lemma {:induction false} RollOver(h: History, seconds: set<int>, now: int)
    requires Faithful(h, seconds) && Onward(h, seconds, now) && Adds(h.counters)
    ensures NextWindow(h.counters.global, now).count == SumIn(h.counters.tenants, h.counters.tenants.Keys, now)
  {
    var c := h.counters;
    if c.global.second != now {
      SumZero(c.tenants, c.tenants.Keys, now);
    }
  }

  lemma {:induction false} AdmitAdds(c: Counters, tenant: string, now: int)
    requires var t := NextWindow(TenantWindow(c, tenant), now);
             tenant in c.tenants || t.count == 0
    ensures var t := NextWindow(TenantWindow(c, tenant), now);
            var m := c.tenants[tenant := t.(count := t.count + 1)];
            SumIn(m, m.Keys, now) == SumIn(c.tenants, c.tenants.Keys, now) + 1
  {
    var t := NextWindow(TenantWindow(c, tenant), now);
    var m := c.tenants[tenant := t.(count := t.count + 1)];
    var rest := c.tenants.Keys - {tenant};
    SumTakeOut(m, m.Keys, now, tenant);
    assert m.Keys - {tenant} == rest;
    SumSame(m, c.tenants, rest, now, now);
    if tenant in c.tenants {
      SumTakeOut(c.tenants, c.tenants.Keys, now, tenant);
    } else {
      assert c.tenants.Keys == rest;
    }
  }

  lemma RecordAdds(l: Limits, h: History, seconds: set<int>, call: Call)
    requires Faithful(h, seconds) && Onward(h, seconds, call.second) && Adds(h.counters)
    ensures Adds(Record(l, h, call).counters)
  {
    if call.tenant != "" {
      RollOver(h, seconds, call.second);
      AdmitAdds(h.counters, call.tenant, call.second);
    }
  }

  lemma {:induction false} NeverReturningAdds(l: Limits, calls: seq<Call>)
    requires NeverReturns(calls)
    ensures Adds(Replay(l, calls).counters)
  {
    if calls != [] {
      var front, last := calls[..|calls| - 1], calls[|calls| - 1];
      NeverReturningAdds(l, front);
      if last.tenant != "" {
        ReplayFaithful(l, front);
        GlobalIsLastSecond(l, front);
        RecordAdds(l, Replay(l, front), Seconds(front), last);
      }
    }
  }

  /** In every run that never returns to a second, so under every non-decreasing clock, the global
      count is the sum of the tenant counts of the same second. */
  lemma {:induction false} GlobalIsSumOfTenants(l: Limits, calls: seq<Call>)
    requires Contiguous(calls)
    ensures Adds(Replay(l, calls).counters)
  {
    ContiguousIffNeverReturns(calls);
    NeverReturningAdds(l, calls);
  }

  /** A clock must not come back: stepping back one second and returning resets the tenant's counter,
      and a second admission goes through in a second that was already full. */
  lemma SteppingBackOverAdmits(tenant: string, s: int)
    requires tenant != ""
    ensures var a, b := Call(tenant, s), Call(tenant, s - 1);
            Replay(Limits(1, 10), [a] + [b] + [a]).log == [a] + [b] + [a] && CountFor([a] + [b] + [a], tenant, s) == 2
  {
    var l, a, b := Limits(1, 10), Call(tenant, s), Call(tenant, s - 1);
    ReplaySnoc(l, [], a);
    assert [] + [a] == [a];
    assert Replay(l, [a]) == History(Counters(map[tenant := Window(s, 1)], Window(s, 1)), [] + [a]);
    ReplaySnoc(l, [a], b);
    assert Replay(l, [a] + [b]).log == [a] + [b];
    assert TenantWindow(Replay(l, [a] + [b]).counters, tenant) == Window(s - 1, 1);
    assert Replay(l, [a] + [b]).counters.global == Window(s - 1, 1);
    ReplaySnoc(l, [a] + [b], a);
    CountsSnoc([], a, tenant, s);
    CountsSnoc([a], b, tenant, s);
    CountsSnoc([a] + [b], a, tenant, s);
  }

  lemma {:induction false} ReplaySnoc(l: Limits, calls: seq<Call>, c: Call)
    ensures Replay(l, calls + [c]) == Record(l, Replay(l, calls), c)
  {
    assert (calls + [c])[..|calls|] == calls;
  }
}
