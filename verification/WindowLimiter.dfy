/**
 The fixed-window limiter in front of the API: per key, `limit` requests from the first one until
 a minute has passed.  Times are positive; 0 is Go's zero time, which the code reads as "no window
 yet".
 */
module WindowLimiter {
  import opened Sequences

  /** Nanoseconds in a minute. */
  const MINUTE: int := 60_000_000_000

  datatype Entry = Entry(start: int, count: int)

  datatype Call = Call(key: string, at: int)

  function EntryOf(state: map<string, Entry>, key: string): Entry {
    if key in state then state[key] else Entry(0, 0)
  }

  /** The call opens a window. */
  predicate Opens(state: map<string, Entry>, c: Call) {
    EntryOf(state, c.key).start == 0 || c.at - EntryOf(state, c.key).start >= MINUTE
  }

  predicate Admits(limit: int, state: map<string, Entry>, c: Call) {
    Opens(state, c) || EntryOf(state, c.key).count < limit
  }

  function After(limit: int, state: map<string, Entry>, c: Call): map<string, Entry> {
    if Opens(state, c) then state[c.key := Entry(c.at, 1)]
    else if EntryOf(state, c.key).count >= limit then state
    else state[c.key := EntryOf(state, c.key).(count := EntryOf(state, c.key).count + 1)]
  }

  class Limiter {
    const limit: int
    var state: map<string, Entry>

    constructor (limit: int)
      ensures this.limit == (if limit <= 0 then 120 else limit) && state == map[]
    {
      this.limit := if limit <= 0 then 120 else limit;
      state := map[];
    }

    /** WindowLimiter.Allow at time now. */
    method Allow(key: string, now: int) returns (ok: bool)
      modifies this
      ensures ok == Admits(limit, old(state), Call(key, now)) && state == After(limit, old(state), Call(key, now))
    {
      var cur := if key in state then state[key] else Entry(0, 0);
      if cur.start == 0 || now - cur.start >= MINUTE {
        state := state[key := Entry(now, 1)];
        return true;
      }
      if cur.count >= limit {
        return false;
      }
      state := state[key := cur.(count := cur.count + 1)];
      return true;
    }
  }

  // ----- Runs -----

  datatype History = History(state: map<string, Entry>, log: seq<Call>)

  function Record(limit: int, h: History, c: Call): History {
    History(After(limit, h.state, c), if Admits(limit, h.state, c) then h.log + [c] else h.log)
  }

  function Replay(limit: int, calls: seq<Call>): History {
    if calls == [] then History(map[], []) else Record(limit, Replay(limit, calls[..|calls| - 1]), calls[|calls| - 1])
  }

  ghost predicate Clocked(calls: seq<Call>) {
    && (forall i :: 0 <= i < |calls| ==> calls[i].at > 0)
    && (forall i, j :: 0 <= i < j < |calls| ==> calls[i].at <= calls[j].at)
  }

  /** Admissions of a key in [lo, hi). */
  function CountIn(log: seq<Call>, key: string, lo: int, hi: int): nat {
    if log == [] then 0
    else
      var c := log[|log| - 1];
      CountIn(log[..|log| - 1], key, lo, hi) + if c.key == key && lo <= c.at < hi then 1 else 0
  }

  lemma {:induction false} CountSnoc(log: seq<Call>, c: Call, key: string, lo: int, hi: int)
    ensures CountIn(log + [c], key, lo, hi) == CountIn(log, key, lo, hi) +
            if c.key == key && lo <= c.at < hi then 1 else 0
  {
    assert (log + [c])[..|log|] == log;
  }

  lemma {:induction false} CountSplit(log: seq<Call>, key: string, lo: int, mid: int, hi: int)
    requires lo <= mid <= hi
    ensures CountIn(log, key, lo, hi) == CountIn(log, key, lo, mid) + CountIn(log, key, mid, hi)
  {
    if log != [] {
      CountSplit(log[..|log| - 1], key, lo, mid, hi);
    }
  }

  lemma {:induction false} CountNone(log: seq<Call>, key: string, lo: int, hi: int)
    requires forall i :: 0 <= i < |log| && log[i].key == key ==> !(lo <= log[i].at < hi)
    ensures CountIn(log, key, lo, hi) == 0
  {
    if log != [] {
      CountNone(log[..|log| - 1], key, lo, hi);
    }
  }

  /** Admissions of a key in the half-open minute that starts at x. */
  function PerMinute(log: seq<Call>, key: string, x: int): nat {
    CountIn(log, key, x, x + MINUTE)
  }

  /** Admissions of a key from x up to and including t. */
  function Since(log: seq<Call>, key: string, x: int, t: int): nat {
    CountIn(log, key, x, t + 1)
  }

  /** What the entry of a key says about the log up to time t: its window holds `count` admissions, one
      of them at its start, none is past its end, and in the minute before it there are fewer than `limit`. */
  ghost predicate Tracks(limit: int, e: Entry, log: seq<Call>, key: string, t: int) {
    && 0 < e.start <= t && 1 <= e.count <= limit
    && Since(log, key, e.start, t) == e.count
    && CountIn(log, key, e.start, e.start + 1) >= 1
    && CountIn(log, key, e.start - MINUTE + 1, e.start) <= limit - 1
    && (forall i :: 0 <= i < |log| && log[i].key == key ==> log[i].at < e.start + MINUTE)
  }

  /** Every half-open minute holds at most 2*limit - 1 admissions of the key. */
  ghost predicate Slides(limit: int, log: seq<Call>, key: string) {
    forall x :: PerMinute(log, key, x) <= 2 * limit - 1
  }

  ghost predicate NotAfter(log: seq<Call>, t: int) {
    forall i :: 0 <= i < |log| ==> log[i].at <= t
  }

  ghost predicate Bounded(limit: int, h: History, key: string, t: int) {
    && Slides(limit, h.log, key) && NotAfter(h.log, t)
    && (if key in h.state then Tracks(limit, h.state[key], h.log, key, t)
        else forall i :: 0 <= i < |h.log| ==> h.log[i].key != key)
  }

  /** Time passing without an admission changes nothing. */
  lemma TracksLater(limit: int, e: Entry, log: seq<Call>, key: string, t: int, t': int)
    requires Tracks(limit, e, log, key, t) && t <= t' && NotAfter(log, t)
    ensures Tracks(limit, e, log, key, t')
  {
    CountSplit(log, key, e.start, t + 1, t' + 1);
    CountNone(log, key, t + 1, t' + 1);
  }

  lemma {:induction false} OtherKeyCounts(log: seq<Call>, c: Call, key: string)
    requires c.key != key
    ensures forall lo, hi :: CountIn(log + [c], key, lo, hi) == CountIn(log, key, lo, hi)
  {
    forall lo, hi
      ensures CountIn(log + [c], key, lo, hi) == CountIn(log, key, lo, hi)
    {
      CountSnoc(log, c, key, lo, hi);
    }
  }

  lemma OtherKey(limit: int, h: History, c: Call, key: string, t: int)
    requires Bounded(limit, h, key, t) && t <= c.at && c.key != key
    ensures Bounded(limit, Record(limit, h, c), key, c.at)
  {
    if key in h.state {
      TracksLater(limit, h.state[key], h.log, key, t, c.at);
    }
    OtherKeyCounts(h.log, c, key);
    var h' := Record(limit, h, c);
    assert forall x :: PerMinute(h'.log, key, x) == PerMinute(h.log, key, x);
  }

  /** A new admission keeps the sliding bound when every minute that contains it has room. */
  lemma SlidesSnoc(limit: int, log: seq<Call>, c: Call)
    requires Slides(limit, log, c.key) && NotAfter(log, c.at)
    requires forall x :: c.at - MINUTE < x <= c.at ==> Since(log, c.key, x, c.at) <= 2 * limit - 2
    ensures Slides(limit, log + [c], c.key)
  {
    forall x
      ensures PerMinute(log + [c], c.key, x) <= 2 * limit - 1
    {
      CountSnoc(log, c, c.key, x, x + MINUTE);
      assert PerMinute(log, c.key, x) <= 2 * limit - 1;
      if x <= c.at < x + MINUTE {
        CountSplit(log, c.key, x, c.at + 1, x + MINUTE);
        CountNone(log, c.key, c.at + 1, x + MINUTE);
        assert Since(log, c.key, x, c.at) <= 2 * limit - 2;
      }
    }
  }

  /** When a window opens, the last minute holds at most what the old window does without its start. */
  lemma OpeningRoom(limit: int, h: History, c: Call, t: int, x: int)
    requires limit >= 1 && Bounded(limit, h, c.key, t) && t <= c.at && c.at > 0 && Opens(h.state, c)
    requires c.at - MINUTE < x <= c.at
    ensures Since(h.log, c.key, x, c.at) <= limit - 1
    ensures CountIn(h.log, c.key, c.at, c.at + 1) == 0
  {
    CountNone(h.log, c.key, c.at, c.at + 1);
    if c.key in h.state {
      var e := h.state[c.key];
      TracksLater(limit, e, h.log, c.key, t, c.at);
      CountSplit(h.log, c.key, e.start, e.start + 1, c.at + 1);
      CountSplit(h.log, c.key, e.start + 1, x, c.at + 1);
    } else {
      CountNone(h.log, c.key, x, c.at + 1);
    }
  }

  lemma OpenBounded(limit: int, h: History, c: Call, t: int)
    requires limit >= 1 && Bounded(limit, h, c.key, t) && t <= c.at && c.at > 0 && Opens(h.state, c)
    ensures Bounded(limit, Record(limit, h, c), c.key, c.at)
  {
    var x0 := c.at - MINUTE + 1;
    OpeningRoom(limit, h, c, t, x0);
    CountSplit(h.log, c.key, x0, c.at, c.at + 1);
    CountSnoc(h.log, c, c.key, c.at, c.at + 1);
    CountSnoc(h.log, c, c.key, x0, c.at);
    forall x | c.at - MINUTE < x <= c.at
      ensures Since(h.log, c.key, x, c.at) <= 2 * limit - 2
    {
      OpeningRoom(limit, h, c, t, x);
    }
    SlidesSnoc(limit, h.log, c);
  }

  /** Inside a window, the last minute holds the window so far and part of the minute before it. */
  lemma StayingRoom(limit: int, h: History, c: Call, e: Entry, x: int)
    requires Tracks(limit, e, h.log, c.key, c.at) && e.count < limit && c.at - e.start < MINUTE
    requires c.at - MINUTE < x <= c.at
    ensures Since(h.log, c.key, x, c.at) <= 2 * limit - 2
  {
    if x <= e.start {
      CountSplit(h.log, c.key, x, e.start, c.at + 1);
      CountSplit(h.log, c.key, e.start - MINUTE + 1, x, e.start);
    } else {
      CountSplit(h.log, c.key, e.start, x, c.at + 1);
    }
  }

  lemma StayBounded(limit: int, h: History, c: Call, t: int)
    requires limit >= 1 && Bounded(limit, h, c.key, t) && t <= c.at && c.at > 0 && !Opens(h.state, c)
    ensures Bounded(limit, Record(limit, h, c), c.key, c.at)
  {
    var e := h.state[c.key];
    TracksLater(limit, e, h.log, c.key, t, c.at);
    if e.count < limit {
      CountSnoc(h.log, c, c.key, e.start, c.at + 1);
      CountSnoc(h.log, c, c.key, e.start, e.start + 1);
      CountSnoc(h.log, c, c.key, e.start - MINUTE + 1, e.start);
      forall x | c.at - MINUTE < x <= c.at
        ensures Since(h.log, c.key, x, c.at) <= 2 * limit - 2
      {
        StayingRoom(limit, h, c, e, x);
      }
      SlidesSnoc(limit, h.log, c);
    }
  }

  lemma {:induction false} ReplayBounded(limit: int, calls: seq<Call>, key: string)
    requires limit >= 1 && Clocked(calls)
    ensures Bounded(limit, Replay(limit, calls), key, if calls == [] then 0 else calls[|calls| - 1].at)
  {
    if calls != [] {
      var front, c := calls[..|calls| - 1], calls[|calls| - 1];
      ReplayBounded(limit, front, key);
      var h, t := Replay(limit, front), if front == [] then 0 else front[|front| - 1].at;
      assert t <= c.at && c.at > 0;
      if c.key != key {
        OtherKey(limit, h, c, key, t);
      } else if Opens(h.state, c) {
        OpenBounded(limit, h, c, t);
      } else {
        StayBounded(limit, h, c, t);
      }
    }
  }

  // ----- Every window of the run -----

  /** When the windows of a key were opened during the run. */
  function Openings(limit: int, calls: seq<Call>, key: string): set<int> {
    if calls == [] then {}
    else
      var front, c := calls[..|calls| - 1], calls[|calls| - 1];
      Openings(limit, front, key) + if c.key == key && Opens(Replay(limit, front).state, c) then {c.at} else {}
  }

  /** Each window of the key holds at most `limit`, and is the open one or over before that one starts. */
  ghost predicate WindowsHold(limit: int, h: History, key: string, starts: set<int>) {
    forall a :: a in starts ==>
      && PerMinute(h.log, key, a) <= limit && key in h.state
      && (a == h.state[key].start || a + MINUTE <= h.state[key].start)
  }

  /** The open window holds what its counter says. */
  lemma OpenWindowCount(limit: int, h: History, key: string, t: int)
    requires Bounded(limit, h, key, t) && key in h.state
    ensures PerMinute(h.log, key, h.state[key].start) == h.state[key].count <= limit
  {
    var e := h.state[key];
    var u := if t + 1 >= e.start + MINUTE then t else e.start + MINUTE;
    TracksLater(limit, e, h.log, key, t, u);
    CountSplit(h.log, key, e.start, e.start + MINUTE, u + 1);
    CountNone(h.log, key, e.start + MINUTE, u + 1);
  }

  lemma OtherKeyHolds(limit: int, h: History, c: Call, key: string, starts: set<int>)
    requires WindowsHold(limit, h, key, starts) && c.key != key
    ensures WindowsHold(limit, Record(limit, h, c), key, starts)
  {
    OtherKeyCounts(h.log, c, key);
    assert forall a :: PerMinute(Record(limit, h, c).log, key, a) == PerMinute(h.log, key, a);
  }

  lemma OpenHolds(limit: int, h: History, c: Call, t: int, starts: set<int>)
    requires limit >= 1 && Bounded(limit, h, c.key, t) && t <= c.at && c.at > 0 && Opens(h.state, c)
    requires WindowsHold(limit, h, c.key, starts)
    ensures WindowsHold(limit, Record(limit, h, c), c.key, starts + {c.at})
  {
    var h' := Record(limit, h, c);
    CountNone(h.log, c.key, c.at, c.at + MINUTE);
    forall a | a in starts + {c.at}
      ensures PerMinute(h'.log, c.key, a) <= limit && (a == c.at || a + MINUTE <= c.at)
    {
      CountSnoc(h.log, c, c.key, a, a + MINUTE);
    }
  }

  lemma StayHolds(limit: int, h: History, c: Call, t: int, starts: set<int>)
    requires limit >= 1 && Bounded(limit, h, c.key, t) && t <= c.at && c.at > 0 && !Opens(h.state, c)
    requires WindowsHold(limit, h, c.key, starts)
    ensures WindowsHold(limit, Record(limit, h, c), c.key, starts)
  {
    var h' := Record(limit, h, c);
    OpenWindowCount(limit, h, c.key, t);
    forall a | a in starts
      ensures PerMinute(h'.log, c.key, a) <= limit
    {
      CountSnoc(h.log, c, c.key, a, a + MINUTE);
    }
  }

  lemma {:induction false} ReplayHolds(limit: int, calls: seq<Call>, key: string)
    requires limit >= 1 && Clocked(calls)
    ensures WindowsHold(limit, Replay(limit, calls), key, Openings(limit, calls, key))
  {
    if calls != [] {
      var front, c := calls[..|calls| - 1], calls[|calls| - 1];
      var h, t := Replay(limit, front), if front == [] then 0 else front[|front| - 1].at;
      var starts := Openings(limit, front, key);
      ReplayHolds(limit, front, key);
      ReplayBounded(limit, front, key);
      if c.key != key {
        OtherKeyHolds(limit, h, c, key, starts);
      } else if Opens(h.state, c) {
        OpenHolds(limit, h, c, t, starts);
      } else {
        StayHolds(limit, h, c, t, starts);
      }
    }
  }

  /** In every run, for every key: each window opened during the run holds at most `limit` admissions,
      the open one as many as its counter says, and no half-open minute anywhere holds more than
      2*limit - 1. */
  lemma {:induction false} SlidingBound(limit: int, calls: seq<Call>, key: string, x: int)
    requires limit >= 1 && Clocked(calls)
    ensures var h := Replay(limit, calls);
            && CountIn(h.log, key, x, x + MINUTE) <= 2 * limit - 1
            && (x in Openings(limit, calls, key) ==> CountIn(h.log, key, x, x + MINUTE) <= limit)
            && (key in h.state && x == h.state[key].start ==> CountIn(h.log, key, x, x + MINUTE) == h.state[key].count)
  {
    var h := Replay(limit, calls);
    var t := if calls == [] then 0 else calls[|calls| - 1].at;
    ReplayBounded(limit, calls, key);
    ReplayHolds(limit, calls, key);
    assert PerMinute(h.log, key, x) <= 2 * limit - 1;
    if key in h.state {
      OpenWindowCount(limit, h, key, t);
    }
  }

  /** The entry of a key starts at one of the key's openings, and there is one as soon as there was one. */
  lemma {:induction false} EntryIsOpening(limit: int, calls: seq<Call>, key: string)
    ensures var s, starts := Replay(limit, calls).state, Openings(limit, calls, key);
            (key in s <==> starts != {}) && (key in s ==> s[key].start in starts)
  {
    if calls != [] {
      EntryIsOpening(limit, calls[..|calls| - 1], key);
    }
  }

  /** This is the window opened last. */
  ghost predicate Latest(starts: set<int>, s: int) {
    s in starts && forall a :: a in starts ==> a <= s
  }

  /** In every run a call is admitted exactly when no window of its key is open, or fewer than `limit` calls of
      the key were admitted in the open one: the full history decides. */
  lemma {:induction false} DecidedByLog(limit: int, calls: seq<Call>, c: Call)
    requires limit >= 1 && Clocked(calls + [c])
    ensures var h, starts := Replay(limit, calls), Openings(limit, calls, c.key);
            Admits(limit, h.state, c) <==>
            forall s :: Latest(starts, s) ==> c.at >= s + MINUTE || CountIn(h.log, c.key, s, s + MINUTE) < limit
  {
    var h, starts := Replay(limit, calls), Openings(limit, calls, c.key);
    var t := if calls == [] then 0 else calls[|calls| - 1].at;
    assert forall i :: 0 <= i < |calls| ==> calls[i] == (calls + [c])[i];
    EntryIsOpening(limit, calls, c.key);
    ReplayBounded(limit, calls, c.key);
    ReplayHolds(limit, calls, c.key);
    if c.key in h.state {
      var e := h.state[c.key];
      OpenWindowCount(limit, h, c.key, t);
      assert Latest(starts, e.start);
      assert forall s :: Latest(starts, s) ==> s == e.start;
    }
  }

  // ----- The bound is reached -----

  lemma {:induction false} ReplaySnoc(limit: int, calls: seq<Call>, c: Call)
    ensures Replay(limit, calls + [c]) == Record(limit, Replay(limit, calls), c)
  {
    assert (calls + [c])[..|calls|] == calls;
  }

  /** k more calls at one instant inside an open window that has room for them are all admitted. */
  lemma {:induction false} Fill(limit: int, calls: seq<Call>, c: Call, k: nat)
    requires var s := Replay(limit, calls).state;
             c.key in s && s[c.key].start != 0 && c.at - s[c.key].start < MINUTE && s[c.key].count + k <= limit
    ensures var h, h' := Replay(limit, calls), Replay(limit, calls + Repeat(c, k));
            && c.key in h'.state && h'.state[c.key] == h.state[c.key].(count := h.state[c.key].count + k)
            && h'.log == h.log + Repeat(c, k)
  {
    var h := Replay(limit, calls);
    if k == 0 {
      assert calls + Repeat(c, k) == calls && h.log + Repeat(c, k) == h.log;
    } else {
      Fill(limit, calls, c, k - 1);
      assert Repeat(c, k) == Repeat(c, k - 1) + [c];
      assert calls + Repeat(c, k) == (calls + Repeat(c, k - 1)) + [c];
      ReplaySnoc(limit, calls + Repeat(c, k - 1), c);
      assert h.log + Repeat(c, k) == (h.log + Repeat(c, k - 1)) + [c];
    }
  }

  lemma {:induction false} CountTimes(log: seq<Call>, c: Call, k: nat, lo: int, hi: int)
    requires lo <= c.at < hi
    ensures CountIn(log + Repeat(c, k), c.key, lo, hi) == CountIn(log, c.key, lo, hi) + k
  {
    if k == 0 {
      assert log + Repeat(c, k) == log;
    } else {
      CountTimes(log, c, k - 1, lo, hi);
      assert log + Repeat(c, k) == (log + Repeat(c, k - 1)) + [c];
      CountSnoc(log + Repeat(c, k - 1), c, c.key, lo, hi);
    }
  }

  /** One call at time 1, limit-1 at the end of its window, and limit right after. */
  function Burst(limit: nat, key: string): seq<Call>
    requires limit >= 1
  {
    FirstWindow(limit, key) + [Call(key, MINUTE + 1)] + Repeat(Call(key, MINUTE + 1), limit - 1)
  }

  function FirstWindow(limit: nat, key: string): seq<Call>
    requires limit >= 1
  {
    [Call(key, 1)] + Repeat(Call(key, MINUTE), limit - 1)
  }

  lemma {:induction false} FirstWindowAdmitted(limit: nat, key: string)
    requires limit >= 1
    ensures var h := Replay(limit, FirstWindow(limit, key));
            h.log == FirstWindow(limit, key) && key in h.state && h.state[key] == Entry(1, limit)
  {
    ReplaySnoc(limit, [], Call(key, 1));
    assert [] + [Call(key, 1)] == [Call(key, 1)];
    assert Replay(limit, []) == History(map[], []);
    Fill(limit, [Call(key, 1)], Call(key, MINUTE), limit - 1);
  }

  lemma {:induction false} BurstAdmitted(limit: nat, key: string)
    requires limit >= 1
    ensures Replay(limit, Burst(limit, key)).log == Burst(limit, key)
  {
    var a, next := FirstWindow(limit, key), Call(key, MINUTE + 1);
    FirstWindowAdmitted(limit, key);
    ReplaySnoc(limit, a, next);
    Fill(limit, a + [next], next, limit - 1);
  }

  lemma {:induction false} BurstCount(limit: nat, key: string)
    requires limit >= 1
    ensures CountIn(Burst(limit, key), key, 2, 2 + MINUTE) == 2 * limit - 1
  {
    var a, next := FirstWindow(limit, key), Call(key, MINUTE + 1);
    CountSnoc([], Call(key, 1), key, 2, 2 + MINUTE);
    assert [] + [Call(key, 1)] == [Call(key, 1)];
    CountTimes([Call(key, 1)], Call(key, MINUTE), limit - 1, 2, 2 + MINUTE);
    CountSnoc(a, next, key, 2, 2 + MINUTE);
    CountTimes(a + [next], next, limit - 1, 2, 2 + MINUTE);
  }

  lemma BurstClocked(limit: nat, key: string)
    requires limit >= 1
    ensures Clocked(Burst(limit, key))
  {
    var b := Burst(limit, key);
    assert |FirstWindow(limit, key)| == limit && |b| == 2 * limit;
    forall i | 0 <= i < |b|
      ensures b[i].at == if i == 0 then 1 else if i < limit then MINUTE else MINUTE + 1
    {
    }
  }

  /** The burst is a proper run, all of it is admitted, and 2*limit - 1 of it fall within the minute
      that starts at 2. */
  lemma {:induction false} SlidingBoundIsTight(limit: nat, key: string)
    requires limit >= 1
    ensures Clocked(Burst(limit, key))
    ensures CountIn(Replay(limit, Burst(limit, key)).log, key, 2, 2 + MINUTE) == 2 * limit - 1
  {
    BurstClocked(limit, key);
    BurstAdmitted(limit, key);
    BurstCount(limit, key);
  }
}
