/**
 What every run of a crew of workers keeps besides conservation: the index holds only approved work,
 and the queue drains within a bound, however the workers interleave and whatever fails.
 */
module IngestionCrewRuns {
  import opened Chunking
  import opened Contracts
  import opened IngestionWorker
  import opened IngestionRuns
  import opened IngestionCrew

  // ----- Provenance -----

  /** What is in hand is cleared and within the retry limit. */
  ghost predicate HandsCleared(cfg: Config, c: Crew) {
    forall i :: 0 <= i < |c.slots| && c.slots[i].Busy? ==> MayProcess(cfg, c.shared, c.slots[i].message)
  }

  predicate MayProcess(cfg: Config, s: State, m: QueueMessage) {
    Cleared(s, m.job) && m.attempt <= cfg.maxRetries
  }

  ghost predicate CrewProvenance(cfg: Config, c: Crew) {
    Provenance(cfg, c.shared) && HandsCleared(cfg, c)
  }

  /** Only dead-lettered messages are replayed. */
  predicate FeedsFairly(c: Crew, move: Move) {
    move.Outside? && move.event.Replay? ==> move.event.message in c.shared.dlq
  }

  predicate FairRun(cfg: Config, n: nat, moves: seq<Move>) {
    moves == [] ||
    var front := moves[..|moves| - 1];
    FairRun(cfg, n, front) && FeedsFairly(Work(cfg, Start(n), front), moves[|moves| - 1])
  }

  /** Writing some of the message's records leaves every entry vouched for. */
  lemma WrittenVouched(cfg: Config, s: State, m: QueueMessage, chunks: seq<string>, vectors: seq<Vector>,
                       now: nat, n: nat)
    requires IndexVouched(cfg, s) && MayProcess(cfg, s, m) && |vectors| == |chunks| && n <= |chunks|
    ensures IndexVouched(cfg, s.(index := Upserted(s.index, RecordsOf(m, chunks, vectors, now)[..n])))
  {
    var after := Upserted(s.index, RecordsOf(m, chunks, vectors, now)[..n]);
    forall id | id in after
      ensures after[id].retryCount <= cfg.maxRetries
      ensures exists a :: a in s.ledger.approvals && Vouches(a, after[id])
    {
      WrittenFrom(s.index, m, chunks, vectors, now, n, id);
      if !(id in s.index && after[id] == s.index[id]) {
        assert Vouches(Approval(m.job.tenant, m.job), after[id]);
      }
    }
  }

  /** Whatever a stage writes is vouched for. */
  lemma HandleVouched(cfg: Config, s: State, m: QueueMessage, stage: Stage, w: World)
    requires IndexVouched(cfg, s) && MayProcess(cfg, s, m)
    ensures IndexVouched(cfg, s.(index := Handle(cfg, s, m, stage, w).0.index))
  {
    var r := WriteStage(cfg, s, m, w);
    if stage.Checked? && r.0.index != s.index {
      var chunks, vectors := PayloadChunks(w.blob.value, cfg.chunkSize), w.vectors.value;
      assert r == UpsertStage(cfg, s, m, RecordsOf(m, chunks, vectors, w.now), w);
      UpsertVouched(cfg, s, m, chunks, vectors, w);
    }
  }

  lemma UpsertVouched(cfg: Config, s: State, m: QueueMessage, chunks: seq<string>, vectors: seq<Vector>, w: World)
    requires IndexVouched(cfg, s) && MayProcess(cfg, s, m) && |vectors| == |chunks|
    ensures IndexVouched(cfg, s.(index := UpsertStage(cfg, s, m, RecordsOf(m, chunks, vectors, w.now), w).0.index))
  {
    var rs := RecordsOf(m, chunks, vectors, w.now);
    var n := if w.upsert.UpsertFailed? && w.upsert.written <= |rs| then w.upsert.written else |rs|;
    assert rs[..|rs|] == rs;
    WrittenVouched(cfg, s, m, chunks, vectors, w.now, n);
  }

  /** What a stage puts back is cleared like what it was given. */
  lemma HandleProvenance(cfg: Config, s: State, m: QueueMessage, stage: Stage, w: World)
    requires Provenance(cfg, s) && MayProcess(cfg, s, m)
    ensures Provenance(cfg, Handle(cfg, s, m, stage, w).0)
  {
    var s' := Handle(cfg, s, m, stage, w).0;
    HandleRoutes(cfg, s, m, stage, w);
    HandleVouched(cfg, s, m, stage, w);
    assert IndexVouched(cfg, s');
  }

  lemma AdvanceProvenance(cfg: Config, c: Crew, i: nat, w: World)
    requires CrewProvenance(cfg, c) && i < |c.slots| && c.slots[i].Busy?
    ensures CrewProvenance(cfg, AdvanceMove(cfg, c, i, w))
  {
    var m, stage, c' := c.slots[i].message, c.slots[i].stage, AdvanceMove(cfg, c, i, w);
    assert MayProcess(cfg, c.shared, m);
    HandleProvenance(cfg, c.shared, m, stage, w);
    HandleRoutes(cfg, c.shared, m, stage, w);
    assert c'.shared.ledger.approvals == c.shared.ledger.approvals;
    forall k | 0 <= k < |c'.slots| && c'.slots[k].Busy?
      ensures MayProcess(cfg, c'.shared, c'.slots[k].message)
    {
      assert k != i ==> MayProcess(cfg, c.shared, c.slots[k].message);
    }
  }

  lemma TakeProvenance(cfg: Config, c: Crew, i: nat)
    requires CrewProvenance(cfg, c)
    ensures CrewProvenance(cfg, TakeMove(cfg, c, i))
  {
    var c' := TakeMove(cfg, c, i);
    if c' != c {
      forall k | 0 <= k < |c'.slots| && c'.slots[k].Busy?
        ensures MayProcess(cfg, c'.shared, c'.slots[k].message)
      {
        assert k != i ==> MayProcess(cfg, c.shared, c.slots[k].message);
      }
    }
  }

  lemma StepApproves(cfg: Config, s: State, e: Event)
    ensures s.ledger.approvals <= Step(cfg, s, e).ledger.approvals
  {
    if e.ProcessNext? && cfg.consumer && s.queue != [] {
      ProcessRoutes(cfg, s.(queue := s.queue[1..]), s.queue[0], e.world);
    }
  }

  lemma OutsideProvenance(cfg: Config, c: Crew, e: Event)
    requires cfg.maxRetries >= 0 && CrewProvenance(cfg, c) && FeedsFairly(c, Outside(e))
    ensures CrewProvenance(cfg, Act(cfg, c, Outside(e)))
  {
    var c' := Act(cfg, c, Outside(e));
    StepProvenance(cfg, c.shared, e);
    StepApproves(cfg, c.shared, e);
    forall k | 0 <= k < |c'.slots| && c'.slots[k].Busy?
      ensures MayProcess(cfg, c'.shared, c'.slots[k].message)
    {
      assert MayProcess(cfg, c.shared, c.slots[k].message);
    }
  }

  /** For any number of workers and every interleaving: each index entry states a job approved for its own
      tenant with a retry count within the limit, and so does every message queued, in hand or dead-lettered. */
  lemma {:induction false} CrewKeepsProvenance(cfg: Config, n: nat, moves: seq<Move>)
    requires cfg.maxRetries >= 0 && FairRun(cfg, n, moves)
    ensures CrewProvenance(cfg, Work(cfg, Start(n), moves))
  {
    if moves != [] {
      var c, move := Work(cfg, Start(n), moves[..|moves| - 1]), moves[|moves| - 1];
      CrewKeepsProvenance(cfg, n, moves[..|moves| - 1]);
      match move
      case Outside(e) => OutsideProvenance(cfg, c, e);
      case Take(i) => TakeProvenance(cfg, c, i);
      case Advance(i, w) =>
        if i < |c.slots| && c.slots[i].Busy? {
          AdvanceProvenance(cfg, c, i, w);
        }
    }
  }

  // ----- The crew drains the queue -----

  function SlotLoad(cfg: Config, slot: Slot): int {
    if slot.Idle? then 0 else 5 * (cfg.maxRetries - slot.message.attempt) + StepsLeft(slot.stage)
  }

  function HandLoad(cfg: Config, slots: seq<Slot>): int {
    if slots == [] then 0 else HandLoad(cfg, slots[..|slots| - 1]) + SlotLoad(cfg, slots[|slots| - 1])
  }

  /** The moves that the messages queued and in hand can still take: five per attempt. */
  function Load(cfg: Config, c: Crew): int {
    5 * Budget(cfg, c.shared.queue) + HandLoad(cfg, c.slots)
  }

  ghost predicate Within(cfg: Config, c: Crew) {
    && (forall i :: 0 <= i < |c.shared.queue| ==> c.shared.queue[i].attempt <= cfg.maxRetries)
    && (forall i :: 0 <= i < |c.slots| && c.slots[i].Busy? ==> c.slots[i].message.attempt <= cfg.maxRetries)
  }

  lemma {:induction false} HandLoadUpdate(cfg: Config, slots: seq<Slot>, i: nat, slot: Slot)
    requires i < |slots|
    ensures HandLoad(cfg, slots[i := slot]) == HandLoad(cfg, slots) - SlotLoad(cfg, slots[i]) + SlotLoad(cfg, slot)
  {
    var n := |slots| - 1;
    if i == n {
      assert slots[i := slot][..n] == slots[..n];
    } else {
      HandLoadUpdate(cfg, slots[..n], i, slot);
      assert slots[i := slot][..n] == slots[..n][i := slot];
    }
  }

  lemma AdvanceLowersLoad(cfg: Config, c: Crew, i: nat, w: World)
    requires Within(cfg, c) && i < |c.slots| && c.slots[i].Busy?
    ensures var c' := AdvanceMove(cfg, c, i, w); Load(cfg, c') < Load(cfg, c) && Within(cfg, c')
  {
    var m, stage, q := c.slots[i].message, c.slots[i].stage, c.shared.queue;
    var r, c' := Handle(cfg, c.shared, m, stage, w), AdvanceMove(cfg, c, i, w);
    HandleRoutes(cfg, c.shared, m, stage, w);
    HandLoadUpdate(cfg, c.slots, i, c'.slots[i]);
    assert c'.slots == c.slots[i := c'.slots[i]];
    BudgetSnoc(cfg, q, NextAttempt(m, w.retryAt));
  }

  lemma TakeLowersLoad(cfg: Config, c: Crew, i: nat)
    requires Within(cfg, c) && TakeMove(cfg, c, i) != c
    ensures var c' := TakeMove(cfg, c, i); Load(cfg, c') < Load(cfg, c) && Within(cfg, c')
  {
    var m, rest := c.shared.queue[0], c.shared.queue[1..];
    assert c.shared.queue == [m] + rest;
    BudgetCons(cfg, m, rest);
    HandLoadUpdate(cfg, c.slots, i, Busy(m, Taken));
  }

  /** A move of a worker that does something. */
  predicate Works(cfg: Config, c: Crew, move: Move) {
    !move.Outside? && Act(cfg, c, move) != c
  }

  predicate AllWork(cfg: Config, c: Crew, moves: seq<Move>) {
    moves == [] ||
    var front := moves[..|moves| - 1];
    AllWork(cfg, c, front) && Works(cfg, Work(cfg, c, front), moves[|moves| - 1])
  }

  lemma {:induction false} LoadIsPositive(cfg: Config, c: Crew)
    requires Within(cfg, c)
    ensures Load(cfg, c) >= 0
    decreases |c.shared.queue|, |c.slots|
  {
    var q, slots := c.shared.queue, c.slots;
    if q != [] {
      LoadIsPositive(cfg, c.(shared := c.shared.(queue := q[..|q| - 1])));
    } else if slots != [] {
      LoadIsPositive(cfg, c.(slots := slots[..|slots| - 1]));
    }
  }

  lemma {:induction false} WorkLowersLoad(cfg: Config, c: Crew, moves: seq<Move>)
    requires Within(cfg, c) && AllWork(cfg, c, moves)
    ensures Within(cfg, Work(cfg, c, moves)) && Load(cfg, Work(cfg, c, moves)) <= Load(cfg, c) - |moves|
  {
    if moves != [] {
      var front, move := moves[..|moves| - 1], moves[|moves| - 1];
      WorkLowersLoad(cfg, c, front);
      match move
      case Take(i) => TakeLowersLoad(cfg, Work(cfg, c, front), i);
      case Advance(i, w) => AdvanceLowersLoad(cfg, Work(cfg, c, front), i, w);
    }
  }

  /** However the workers interleave and whatever fails, no more than five moves per message and attempt do
      anything, and when none does any more the queue is empty and all workers are idle. */
  lemma {:induction false} CrewDrains(cfg: Config, c: Crew, moves: seq<Move>)
    requires Within(cfg, c) && AllWork(cfg, c, moves)
    ensures |moves| <= Load(cfg, c)
    ensures AttemptsBounded(cfg, c.shared.queue) && NoneBusy(c.slots) ==>
              |moves| <= 5 * (|c.shared.queue| * (cfg.maxRetries + 1))
    ensures var c' := Work(cfg, c, moves);
            cfg.consumer && c'.slots != [] && (forall move :: !Works(cfg, c', move)) ==>
              c'.shared.queue == [] && NoneBusy(c'.slots)
  {
    var c' := Work(cfg, c, moves);
    WorkLowersLoad(cfg, c, moves);
    LoadIsPositive(cfg, c');
    if AttemptsBounded(cfg, c.shared.queue) && NoneBusy(c.slots) {
      BudgetBounds(cfg, c.shared.queue);
      IdleLoad(cfg, c.slots);
    }
    if cfg.consumer && c'.slots != [] && (forall move :: !Works(cfg, c', move)) {
      StuckIsDrained(cfg, c');
    }
  }

  lemma {:induction false} IdleLoad(cfg: Config, slots: seq<Slot>)
    requires NoneBusy(slots)
    ensures HandLoad(cfg, slots) == 0
  {
    if slots != [] {
      IdleLoad(cfg, slots[..|slots| - 1]);
    }
  }

  lemma BusyWorks(cfg: Config, c: Crew, i: nat) returns (move: Move)
    requires i < |c.slots| && c.slots[i].Busy?
    ensures Works(cfg, c, move)
  {
    var w := World(1, 1, false, Error, Error, UpsertOk, false, {}, false, false);
    HandleRoutes(cfg, c.shared, c.slots[i].message, c.slots[i].stage, w);
    assert AdvanceMove(cfg, c, i, w).slots[i] != c.slots[i];
    move := Advance(i, w);
  }

  lemma IdleWorks(cfg: Config, c: Crew) returns (move: Move)
    requires cfg.consumer && c.slots != [] && c.slots[0].Idle? && c.shared.queue != []
    ensures Works(cfg, c, move)
  {
    assert TakeMove(cfg, c, 0).slots[0].Busy?;
    move := Take(0);
  }

  lemma StuckIsDrained(cfg: Config, c: Crew)
    requires cfg.consumer && c.slots != [] && forall move :: !Works(cfg, c, move)
    ensures c.shared.queue == [] && NoneBusy(c.slots)
  {
    forall i | 0 <= i < |c.slots|
      ensures c.slots[i].Idle?
    {
      if c.slots[i].Busy? {
        var move := BusyWorks(cfg, c, i);
      }
    }
    if c.shared.queue != [] {
      var move := IdleWorks(cfg, c);
    }
  }
}
