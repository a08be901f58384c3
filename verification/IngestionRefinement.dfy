/**
 The crew of workers on the queue refines the interleaving of deliveries, checks, upserts and saves:
 whatever the crew does with a stable blob store, the interleaving can do with the same index, keys
 and upserts.  So what every interleaving keeps holds for the crew.
 */
module IngestionRefinement {
  import opened Chunking
  import opened Contracts
  import opened IngestionWorker
  import opened IngestionRuns
  import Crews = IngestionCrew
  import Free = IngestionInterleaving

  type Crew = Crews.Crew
  type Slot = Crews.Slot
  type Move = Crews.Move
  type Shared = Free.Shared
  type Setting = Free.Setting

  // ----- The relation -----

  /** A message that is past its save is no longer in flight. */
  predicate InFlight(slot: Slot) {
    slot.Busy? && !slot.stage.Saved?
  }

  function FlightOf(slot: Slot): Free.Flight
    requires InFlight(slot)
  {
    match slot.stage
    case Taken => Free.Flight(WithKey(slot.message), Free.Started)
    case Checked => Free.Flight(slot.message, Free.Checked)
    case Written => Free.Flight(slot.message, Free.Stored)
  }

  function FlightsOf(slots: seq<Slot>): map<nat, Free.Flight> {
    map i: nat | i < |slots| && InFlight(slots[i]) :: FlightOf(slots[i])
  }

  ghost predicate Simulates(c: Crew, s: Shared) {
    && s.index == c.shared.index && s.keys == c.shared.keys && s.upserts == c.shared.upserts
    && s.flights == FlightsOf(c.slots)
  }

  lemma FlightsUpdate(slots: seq<Slot>, i: nat, slot: Slot)
    requires i < |slots|
    ensures InFlight(slot) ==> FlightsOf(slots[i := slot]) == FlightsOf(slots)[i := FlightOf(slot)]
    ensures !InFlight(slot) ==> FlightsOf(slots[i := slot]) == FlightsOf(slots) - {i}
  {
  }

  // ----- Which action a move is -----

  /** The payload a worker loads is the one the blob store has for its job. */
  predicate Steady(p: Setting, c: Crew, move: Move) {
    match move
    case Advance(i, w) =>
      i < |c.slots| && c.slots[i].Busy? && w.blob.Ok? ==>
        var job := c.slots[i].message.job; w.blob.value == p.blob(job.tenant, job.sourceUri)
    case Outside(e) => !e.ProcessNext?
    case Take(_) => true
  }

  /** The worker gets as far as the index. */
  predicate Writes(cfg: Config, m: QueueMessage, w: World) {
    && cfg.blobStore && w.blob.Ok? && cfg.embedder && w.vectors.Ok? && cfg.index
    && PayloadChunks(w.blob.value, cfg.chunkSize) != []
    && |w.vectors.value| == |PayloadChunks(w.blob.value, cfg.chunkSize)|
    && AllValid(RecordsOf(m, PayloadChunks(w.blob.value, cfg.chunkSize), w.vectors.value, w.now))
  }

  function WriteAction(cfg: Config, i: nat, m: QueueMessage, w: World): Free.Action {
    if !Writes(cfg, m, w) then Free.Abandon(i)
    else match w.upsert
      case UpsertOk => Free.Upsert(i, w.vectors.value, w.now)
      case UpsertFailed(n) =>
        Free.UpsertFails(i, w.vectors.value, w.now, if n <= |w.vectors.value| then n else |w.vectors.value|)
  }

  function AdvanceActions(cfg: Config, i: nat, slot: Slot, w: World): seq<Free.Action>
    requires slot.Busy?
  {
    match slot.stage
    case Taken => [if !ValidMessage(slot.message) || w.existsFails then Free.Abandon(i) else Free.Check(i)]
    case Checked => [WriteAction(cfg, i, slot.message, w)]
    case Written => [if w.saveFails then Free.Abandon(i) else Free.Save(i)]
    case Saved => []
  }

  /** The action of the interleaving, if any, that a move of the crew amounts to. */
  function ActionsOf(cfg: Config, c: Crew, move: Move): seq<Free.Action> {
    match move
    case Outside(_) => []
    case Take(i) =>
      if !cfg.consumer || i >= |c.slots| || c.slots[i].Busy? || c.shared.queue == [] then []
      else [Free.Deliver(i, c.shared.queue[0])]
    case Advance(i, w) =>
      if i >= |c.slots| || c.slots[i].Idle? then [] else AdvanceActions(cfg, i, c.slots[i], w)
  }

  function Perform(p: Setting, s: Shared, actions: seq<Free.Action>): Shared {
    if actions == [] then s else Free.Act(p, Perform(p, s, actions[..|actions| - 1]), actions[|actions| - 1])
  }

  lemma {:induction false} PerformOne(p: Setting, s: Shared, a: Free.Action)
    ensures Perform(p, s, [a]) == Free.Act(p, s, a)
  {
    assert [a][..0] == [];
  }

  // ----- One move -----

  lemma {:induction false} TakeSimulated(cfg: Config, p: Setting, c: Crew, s: Shared, i: nat)
    requires Simulates(c, s)
    ensures Simulates(Crews.TakeMove(cfg, c, i), Perform(p, s, ActionsOf(cfg, c, Crews.Take(i))))
  {
    if cfg.consumer && i < |c.slots| && c.slots[i].Idle? && c.shared.queue != [] {
      var m := c.shared.queue[0];
      PerformOne(p, s, Free.Deliver(i, m));
      FlightsUpdate(c.slots, i, Crews.Busy(m, Crews.Taken));
    }
  }

  lemma {:induction false} CheckSimulated(cfg: Config, p: Setting, c: Crew, s: Shared, i: nat, w: World)
    requires cfg.idem && Simulates(c, s) && i < |c.slots| && c.slots[i].Busy? && c.slots[i].stage.Taken?
    ensures Simulates(Crews.AdvanceMove(cfg, c, i, w), Perform(p, s, AdvanceActions(cfg, i, c.slots[i], w)))
  {
    var m := c.slots[i].message;
    PerformOne(p, s, AdvanceActions(cfg, i, c.slots[i], w)[0]);
    FlightsUpdate(c.slots, i, Crews.Idle);
    FlightsUpdate(c.slots, i, Crews.Busy(WithKey(m), Crews.Checked));
  }

  lemma {:induction false} SaveSimulated(cfg: Config, p: Setting, c: Crew, s: Shared, i: nat, w: World)
    requires cfg.idem && Simulates(c, s) && i < |c.slots| && c.slots[i].Busy? && c.slots[i].stage.Written?
    ensures Simulates(Crews.AdvanceMove(cfg, c, i, w), Perform(p, s, AdvanceActions(cfg, i, c.slots[i], w)))
  {
    var m := c.slots[i].message;
    PerformOne(p, s, AdvanceActions(cfg, i, c.slots[i], w)[0]);
    FlightsUpdate(c.slots, i, Crews.Idle);
    FlightsUpdate(c.slots, i, Crews.Busy(m, Crews.Saved));
  }

  lemma RetainSimulated(cfg: Config, p: Setting, c: Crew, s: Shared, i: nat, w: World)
    requires Simulates(c, s) && i < |c.slots| && c.slots[i].Busy? && c.slots[i].stage.Saved?
    ensures Simulates(Crews.AdvanceMove(cfg, c, i, w), s)
  {
    FlightsUpdate(c.slots, i, Crews.Idle);
    assert FlightsOf(c.slots) - {i} == FlightsOf(c.slots);
  }

  /** A worker that does not get as far as the index leaves without a trace in it. */
  lemma NoWriteEffect(cfg: Config, s: State, m: QueueMessage, w: World)
    requires !Writes(cfg, m, w)
    ensures var (s', o) := Crews.WriteStage(cfg, s, m, w);
            s'.keys == s.keys && s'.index == s.index && s'.upserts == s.upserts && o.Leaves?
  {
    var r := Crews.WriteStage(cfg, s, m, w);
    assert r == Crews.Left(RetryOrDlq(cfg, s, m, w)) || (r.0 == s && r.1.Leaves?);
  }

  function Records(cfg: Config, m: QueueMessage, w: World): seq<VectorRecord>
    requires Writes(cfg, m, w)
  {
    RecordsOf(m, PayloadChunks(w.blob.value, cfg.chunkSize), w.vectors.value, w.now)
  }

  lemma WriteEffect(cfg: Config, s: State, m: QueueMessage, w: World)
    requires Writes(cfg, m, w)
    ensures var ((s', o), rs) := (Crews.WriteStage(cfg, s, m, w), Records(cfg, m, w));
            && s'.keys == s.keys
            && (w.upsert.UpsertOk? ==>
                  && s'.index == Upserted(s.index, rs) && s'.upserts == s.upserts + [m.key]
                  && o == Crews.Goes(m, Crews.Written))
            && (w.upsert.UpsertFailed? ==>
                  && s'.index == Upserted(s.index, rs[..if w.upsert.written <= |rs| then w.upsert.written else |rs|])
                  && s'.upserts == s.upserts && o.Leaves?)
  {
    assert Crews.WriteStage(cfg, s, m, w) == Crews.UpsertStage(cfg, s, m, Records(cfg, m, w), w);
  }

  /** Worker i holds message m past the check. */
  predicate PastCheck(c: Crew, i: nat, m: QueueMessage) {
    i < |c.slots| && c.slots[i] == Crews.Busy(m, Crews.Checked)
  }

  lemma AbandonSimulated(cfg: Config, p: Setting, c: Crew, s: Shared, i: nat, m: QueueMessage, w: World)
    requires Simulates(c, s) && PastCheck(c, i, m) && !Writes(cfg, m, w)
    ensures Simulates(Crews.AdvanceMove(cfg, c, i, w), Free.Act(p, s, Free.Abandon(i)))
  {
    NoWriteEffect(cfg, c.shared, m, w);
    FlightsUpdate(c.slots, i, Crews.Idle);
  }

  /** The records are the same in both, and the interleaving may write them. */
  lemma SameRecords(cfg: Config, p: Setting, c: Crew, s: Shared, i: nat, m: QueueMessage, w: World)
    requires Simulates(c, s) && PastCheck(c, i, m) && Writes(cfg, m, w)
    requires p.chunkSize == cfg.chunkSize && Steady(p, c, Crews.Advance(i, w))
    ensures Free.ChunksOf(p, m.job) == PayloadChunks(w.blob.value, cfg.chunkSize)
    ensures i in s.flights && s.flights[i] == Free.Flight(m, Free.Checked)
    ensures Free.Ready(p, s, i, w.vectors.value, w.now)
  {
  }

  lemma UpsertSimulated(cfg: Config, p: Setting, c: Crew, s: Shared, i: nat, m: QueueMessage, w: World)
    requires Simulates(c, s) && PastCheck(c, i, m) && Writes(cfg, m, w) && w.upsert.UpsertOk?
    requires p.chunkSize == cfg.chunkSize && Steady(p, c, Crews.Advance(i, w))
    ensures Simulates(Crews.AdvanceMove(cfg, c, i, w), Free.Act(p, s, Free.Upsert(i, w.vectors.value, w.now)))
  {
    SameRecords(cfg, p, c, s, i, m, w);
    WriteEffect(cfg, c.shared, m, w);
    FlightsUpdate(c.slots, i, Crews.Busy(m, Crews.Written));
  }

  lemma FailedUpsertSimulated(cfg: Config, p: Setting, c: Crew, s: Shared, i: nat, m: QueueMessage, w: World, n: nat)
    requires Simulates(c, s) && PastCheck(c, i, m) && Writes(cfg, m, w) && w.upsert.UpsertFailed?
    requires p.chunkSize == cfg.chunkSize && Steady(p, c, Crews.Advance(i, w))
    requires n == if w.upsert.written <= |w.vectors.value| then w.upsert.written else |w.vectors.value|
    ensures Simulates(Crews.AdvanceMove(cfg, c, i, w), Free.Act(p, s, Free.UpsertFails(i, w.vectors.value, w.now, n)))
  {
    SameRecords(cfg, p, c, s, i, m, w);
    WriteEffect(cfg, c.shared, m, w);
    FlightsUpdate(c.slots, i, Crews.Idle);
  }

  lemma {:induction false} WriteSimulated(cfg: Config, p: Setting, c: Crew, s: Shared, i: nat, w: World)
    requires Simulates(c, s) && i < |c.slots| && c.slots[i].Busy? && c.slots[i].stage.Checked?
    requires p.chunkSize == cfg.chunkSize && Steady(p, c, Crews.Advance(i, w))
    ensures Simulates(Crews.AdvanceMove(cfg, c, i, w), Perform(p, s, AdvanceActions(cfg, i, c.slots[i], w)))
  {
    var m := c.slots[i].message;
    var a := WriteAction(cfg, i, m, w);
    PerformOne(p, s, a);
    if !Writes(cfg, m, w) {
      AbandonSimulated(cfg, p, c, s, i, m, w);
    } else if w.upsert.UpsertOk? {
      UpsertSimulated(cfg, p, c, s, i, m, w);
    } else {
      FailedUpsertSimulated(cfg, p, c, s, i, m, w, a.written);
    }
  }

  lemma OutsideSimulated(cfg: Config, c: Crew, s: Shared, e: Event)
    requires Simulates(c, s) && !e.ProcessNext?
    ensures Simulates(Crews.Act(cfg, c, Crews.Outside(e)), s)
  {
  }

  /** Each move of the crew is the action it amounts to, or none. */
  lemma {:induction false} MoveSimulated(cfg: Config, p: Setting, c: Crew, s: Shared, move: Move)
    requires cfg.idem && p.chunkSize == cfg.chunkSize && Simulates(c, s) && Steady(p, c, move)
    ensures Simulates(Crews.Act(cfg, c, move), Perform(p, s, ActionsOf(cfg, c, move)))
  {
    match move
    case Outside(e) =>
      OutsideSimulated(cfg, c, s, e);
    case Take(i) =>
      TakeSimulated(cfg, p, c, s, i);
    case Advance(i, w) =>
      if i < |c.slots| && c.slots[i].Busy? {
        match c.slots[i].stage
        case Taken => CheckSimulated(cfg, p, c, s, i, w);
        case Checked => WriteSimulated(cfg, p, c, s, i, w);
        case Written => SaveSimulated(cfg, p, c, s, i, w);
        case Saved => RetainSimulated(cfg, p, c, s, i, w);
      }
  }

  // ----- Which jobs are stored -----

  /** The jobs that are offered to the queue. */
  predicate Offers(jobs: set<Job>, move: Move) {
    match move
    case Outside(EnqueueJob(_, job, _, _)) => job in jobs
    case Outside(Replay(m, _, _)) => m.job in jobs
    case _ => true
  }

  ghost predicate QueueAmong(jobs: set<Job>, queue: seq<QueueMessage>) {
    forall i :: 0 <= i < |queue| ==> queue[i].job in jobs
  }

  /** What is in hand is of these jobs, and past the upsert it is stored. */
  predicate SlotAmong(jobs: set<Job>, stored: set<Job>, slot: Slot) {
    slot.Busy? ==> slot.message.job in jobs && (slot.stage.Written? || slot.stage.Saved? ==> slot.message.job in stored)
  }

  ghost predicate SlotsAmong(jobs: set<Job>, stored: set<Job>, slots: seq<Slot>) {
    forall i :: 0 <= i < |slots| ==> SlotAmong(jobs, stored, slots[i])
  }

  ghost predicate IndexedAmong(stored: set<Job>, indexed: multiset<Ticket>) {
    forall t :: t in indexed ==> t.job in stored
  }

  /** What the crew counts as indexed is stored in the interleaving. */
  ghost predicate Tracked(jobs: set<Job>, c: Crew, s: Shared) {
    && s.delivered <= jobs && QueueAmong(jobs, c.shared.queue) && SlotsAmong(jobs, s.stored, c.slots)
    && IndexedAmong(s.stored, c.shared.ledger.indexed)
  }

  /** The interleaving never forgets what was stored, and only a delivery delivers. */
  lemma StoredGrows(p: Setting, s: Shared, a: Free.Action)
    ensures s.stored <= Free.Act(p, s, a).stored
    ensures var delivered := Free.Act(p, s, a).delivered;
            delivered == s.delivered || (a.Deliver? && delivered == s.delivered + {a.message.job})
  {
  }

  lemma {:induction false} AdvanceStored(cfg: Config, p: Setting, c: Crew, s: Shared, i: nat, w: World)
    requires Simulates(c, s) && i < |c.slots| && c.slots[i].Busy?
    requires p.chunkSize == cfg.chunkSize && Steady(p, c, Crews.Advance(i, w))
    ensures var (s', slot) := (Perform(p, s, AdvanceActions(cfg, i, c.slots[i], w)), c.slots[i]);
            && s.stored <= s'.stored && s'.delivered == s.delivered
            && (slot.stage.Checked? && Crews.WriteStage(cfg, c.shared, slot.message, w).1.Goes? ==>
                  slot.message.job in s'.stored)
  {
    var slot := c.slots[i];
    var actions := AdvanceActions(cfg, i, slot, w);
    if actions != [] {
      PerformOne(p, s, actions[0]);
      StoredGrows(p, s, actions[0]);
    }
    if slot.stage.Checked? {
      if !Writes(cfg, slot.message, w) {
        NoWriteEffect(cfg, c.shared, slot.message, w);
      } else {
        WriteEffect(cfg, c.shared, slot.message, w);
        SameRecords(cfg, p, c, s, i, slot.message, w);
      }
    }
  }

  lemma SettleTracked(cfg: Config, jobs: set<Job>, c: Crew, s: Shared, s': Shared, i: nat,
                      at: nat, r: (State, Crews.Outcome))
    requires Tracked(jobs, c, s) && i < |c.slots| && c.slots[i].Busy?
    requires s.stored <= s'.stored && s'.delivered == s.delivered
    requires Crews.Handled(cfg, c.shared, c.slots[i].message, c.slots[i].stage, at, r)
    requires c.slots[i].stage.Checked? && r.1.Goes? ==> c.slots[i].message.job in s'.stored
    ensures Tracked(jobs, Crews.Settle(c, i, c.slots[i].message, r), s')
  {
    var m, c' := c.slots[i].message, Crews.Settle(c, i, c.slots[i].message, r);
    assert SlotAmong(jobs, s.stored, c.slots[i]);
    assert QueueAmong(jobs, c'.shared.queue);
    forall k | 0 <= k < |c'.slots|
      ensures SlotAmong(jobs, s'.stored, c'.slots[k])
    {
      assert SlotAmong(jobs, s.stored, c.slots[k]);
    }
  }

  lemma {:induction false} AdvanceTracked(cfg: Config, p: Setting, jobs: set<Job>, c: Crew, s: Shared, i: nat, w: World)
    requires Simulates(c, s) && Tracked(jobs, c, s) && i < |c.slots| && c.slots[i].Busy?
    requires p.chunkSize == cfg.chunkSize && Steady(p, c, Crews.Advance(i, w))
    ensures Tracked(jobs, Crews.AdvanceMove(cfg, c, i, w), Perform(p, s, AdvanceActions(cfg, i, c.slots[i], w)))
  {
    var m, stage := c.slots[i].message, c.slots[i].stage;
    Crews.HandleRoutes(cfg, c.shared, m, stage, w);
    AdvanceStored(cfg, p, c, s, i, w);
    var s' := Perform(p, s, AdvanceActions(cfg, i, c.slots[i], w));
    SettleTracked(cfg, jobs, c, s, s', i, w.retryAt, Crews.Handle(cfg, c.shared, m, stage, w));
  }

  lemma {:induction false} TakeTracked(cfg: Config, p: Setting, jobs: set<Job>, c: Crew, s: Shared, i: nat)
    requires Tracked(jobs, c, s)
    ensures Tracked(jobs, Crews.TakeMove(cfg, c, i), Perform(p, s, ActionsOf(cfg, c, Crews.Take(i))))
  {
    var c' := Crews.TakeMove(cfg, c, i);
    if c' != c {
      var a := Free.Deliver(i, c.shared.queue[0]);
      PerformOne(p, s, a);
      StoredGrows(p, s, a);
      forall k | 0 <= k < |c'.slots|
        ensures SlotAmong(jobs, s.stored, c'.slots[k])
      {
        assert SlotAmong(jobs, s.stored, c.slots[k]);
      }
    }
  }

  lemma OutsideTracked(cfg: Config, jobs: set<Job>, c: Crew, s: Shared, e: Event)
    requires Tracked(jobs, c, s) && !e.ProcessNext? && Offers(jobs, Crews.Outside(e))
    ensures Tracked(jobs, Crews.Act(cfg, c, Crews.Outside(e)), s)
  {
  }

  lemma {:induction false} MoveTracked(cfg: Config, p: Setting, jobs: set<Job>, c: Crew, s: Shared, move: Move)
    requires Simulates(c, s) && Tracked(jobs, c, s) && p.chunkSize == cfg.chunkSize
    requires Steady(p, c, move) && Offers(jobs, move)
    ensures Tracked(jobs, Crews.Act(cfg, c, move), Perform(p, s, ActionsOf(cfg, c, move)))
  {
    match move
    case Outside(e) =>
      OutsideTracked(cfg, jobs, c, s, e);
    case Take(i) =>
      TakeTracked(cfg, p, jobs, c, s, i);
    case Advance(i, w) =>
      if i < |c.slots| && c.slots[i].Busy? {
        AdvanceTracked(cfg, p, jobs, c, s, i, w);
      }
  }

  // ----- Whole runs -----

  /** In the whole run the blob store is stable. */
  predicate SteadyRun(cfg: Config, p: Setting, n: nat, moves: seq<Move>) {
    moves == [] ||
    var front := moves[..|moves| - 1];
    SteadyRun(cfg, p, n, front) && Steady(p, Crews.Work(cfg, Crews.Start(n), front), moves[|moves| - 1])
  }

  /** The interleaving that a run of n workers amounts to. */
  function ActionsOfRun(cfg: Config, n: nat, moves: seq<Move>): seq<Free.Action> {
    if moves == [] then []
    else
      var front := moves[..|moves| - 1];
      ActionsOfRun(cfg, n, front) + ActionsOf(cfg, Crews.Work(cfg, Crews.Start(n), front), moves[|moves| - 1])
  }

  lemma AtMostOneAction(cfg: Config, c: Crew, move: Move)
    ensures |ActionsOf(cfg, c, move)| <= 1
  {
  }

  lemma {:induction false} InterleaveMore(p: Setting, actions: seq<Free.Action>, more: seq<Free.Action>)
    requires |more| <= 1
    ensures Free.Interleave(p, actions + more) == Perform(p, Free.Interleave(p, actions), more)
  {
    if more == [] {
      assert actions + more == actions;
    } else {
      var a := more[0];
      assert more == [a];
      Free.InterleaveSnoc(p, actions, a);
      PerformOne(p, Free.Interleave(p, actions), a);
    }
  }

  lemma {:induction false} StartSimulated(p: Setting, n: nat)
    ensures Simulates(Crews.Start(n), Free.Interleave(p, []))
  {
    assert FlightsOf(Crews.Start(n).slots) == map[];
  }

  /** Refinement: every run of any number of workers on the queue, with retries, dead letters and replays,
      is matched by the interleaving with the same index, keys and upserts. */
  lemma {:induction false} CrewRefines(cfg: Config, p: Setting, n: nat, moves: seq<Move>)
    requires cfg.idem && p.chunkSize == cfg.chunkSize && SteadyRun(cfg, p, n, moves)
    ensures Simulates(Crews.Work(cfg, Crews.Start(n), moves), Free.Interleave(p, ActionsOfRun(cfg, n, moves)))
  {
    if moves == [] {
      StartSimulated(p, n);
    } else {
      var front, move := moves[..|moves| - 1], moves[|moves| - 1];
      var c, actions := Crews.Work(cfg, Crews.Start(n), front), ActionsOfRun(cfg, n, front);
      CrewRefines(cfg, p, n, front);
      MoveSimulated(cfg, p, c, Free.Interleave(p, actions), move);
      AtMostOneAction(cfg, c, move);
      InterleaveMore(p, actions, ActionsOf(cfg, c, move));
    }
  }

  // ----- What is indexed is as after one processing -----

  predicate OffersAll(jobs: set<Job>, moves: seq<Move>) {
    forall i :: 0 <= i < |moves| ==> Offers(jobs, moves[i])
  }

  lemma {:induction false} CrewTracked(cfg: Config, p: Setting, jobs: set<Job>, n: nat, moves: seq<Move>)
    requires cfg.idem && p.chunkSize == cfg.chunkSize && SteadyRun(cfg, p, n, moves) && OffersAll(jobs, moves)
    ensures Tracked(jobs, Crews.Work(cfg, Crews.Start(n), moves), Free.Interleave(p, ActionsOfRun(cfg, n, moves)))
  {
    if moves != [] {
      var front, move := moves[..|moves| - 1], moves[|moves| - 1];
      var c, actions := Crews.Work(cfg, Crews.Start(n), front), ActionsOfRun(cfg, n, front);
      CrewTracked(cfg, p, jobs, n, front);
      CrewRefines(cfg, p, n, front);
      MoveTracked(cfg, p, jobs, c, Free.Interleave(p, actions), move);
      AtMostOneAction(cfg, c, move);
      InterleaveMore(p, actions, ActionsOf(cfg, c, move));
    }
  }

  /** Whatever any number of workers do, each job counted as indexed has in the index exactly the ids and
      chunk texts of one processing alone, if the offered jobs that share record ids share their text. */
  lemma {:induction false} CrewIndexedAsIfOnce(cfg: Config, p: Setting, jobs: set<Job>, n: nat, moves: seq<Move>)
    requires cfg.idem && p.chunkSize == cfg.chunkSize && SteadyRun(cfg, p, n, moves) && OffersAll(jobs, moves)
    requires Free.Coherent(p, jobs)
    ensures var s := Crews.Work(cfg, Crews.Start(n), moves).shared;
            forall t :: t in s.ledger.indexed ==> Free.SameForJob(t.job, s.index, Free.OnceAlone(p, t.job))
  {
    var s, actions := Crews.Work(cfg, Crews.Start(n), moves).shared, ActionsOfRun(cfg, n, moves);
    CrewRefines(cfg, p, n, moves);
    CrewTracked(cfg, p, jobs, n, moves);
    forall t | t in s.ledger.indexed
      ensures Free.SameForJob(t.job, s.index, Free.OnceAlone(p, t.job))
    {
      Free.StoredIsAsIfOnce(p, actions, FreshMessage(t.job, 1), Free.SomeVectors(p, t.job), 1);
    }
  }

  // ----- One worker upserts a key once, two may not -----

  predicate KeepsSaves(move: Move) {
    move.Advance? ==> !move.world.saveFails
  }

  predicate SavesAll(moves: seq<Move>) {
    forall i :: 0 <= i < |moves| ==> KeepsSaves(moves[i])
  }

  function Workers(n: nat): (ws: set<nat>)
    ensures |ws| == n && forall i: nat :: i in ws <==> i < n
  {
    if n == 0 then {} else Workers(n - 1) + {n - 1}
  }

  lemma {:induction false} SlotsStay(cfg: Config, n: nat, moves: seq<Move>)
    ensures |Crews.Work(cfg, Crews.Start(n), moves).slots| == n
  {
    if moves != [] {
      SlotsStay(cfg, n, moves[..|moves| - 1]);
    }
  }

  /** A move that does not lose a save amounts to an action that does not. */
  lemma ActionKeepsSave(cfg: Config, c: Crew, s: Shared, move: Move)
    requires Simulates(c, s) && KeepsSaves(move) && ActionsOf(cfg, c, move) != []
    ensures var a := ActionsOf(cfg, c, move)[0]; a.worker < |c.slots| && !Free.LosesSave(s, a)
  {
  }

  lemma {:induction false} RunIsSchedule(cfg: Config, p: Setting, n: nat, moves: seq<Move>)
    requires cfg.idem && p.chunkSize == cfg.chunkSize && SteadyRun(cfg, p, n, moves) && SavesAll(moves)
    ensures Free.Schedule(p, Workers(n), ActionsOfRun(cfg, n, moves))
  {
    if moves != [] {
      var front, move := moves[..|moves| - 1], moves[|moves| - 1];
      var c, actions := Crews.Work(cfg, Crews.Start(n), front), ActionsOfRun(cfg, n, front);
      RunIsSchedule(cfg, p, n, front);
      CrewRefines(cfg, p, n, front);
      AtMostOneAction(cfg, c, move);
      SlotsStay(cfg, n, front);
      assert KeepsSaves(move);
      if ActionsOf(cfg, c, move) == [] {
        assert actions + [] == actions;
      } else {
        var a := ActionsOf(cfg, c, move)[0];
        ActionKeepsSave(cfg, c, Free.Interleave(p, actions), move);
        assert ActionsOf(cfg, c, move) == [a] && (actions + [a])[..|actions|] == actions;
      }
    }
  }

  /** In every run of n workers that loses no save, with a stable blob store, no key is upserted twice. */
  ghost predicate CrewUpsertsOnce(cfg: Config, p: Setting, n: nat) {
    forall moves :: SteadyRun(cfg, p, n, moves) && SavesAll(moves) ==>
      Free.PairwiseDistinct(Crews.Work(cfg, Crews.Start(n), moves).shared.upserts)
  }

  lemma LoneWorkerUpsertsOnce(cfg: Config, p: Setting, n: nat)
    requires cfg.idem && p.chunkSize == cfg.chunkSize && n <= 1
    ensures CrewUpsertsOnce(cfg, p, n)
  {
    Free.OneWorkerUpsertsOnce(p, Workers(n));
    forall moves | SteadyRun(cfg, p, n, moves) && SavesAll(moves)
      ensures Free.PairwiseDistinct(Crews.Work(cfg, Crews.Start(n), moves).shared.upserts)
    {
      RunIsSchedule(cfg, p, n, moves);
      CrewRefines(cfg, p, n, moves);
    }
  }

  /** A world in which the job is indexed. */
  function GoodWorld(p: Setting, job: Job): World {
    World(1, 1, false, Ok(p.blob(job.tenant, job.sourceUri)), Ok(Free.SomeVectors(p, job)), UpsertOk,
          false, {}, false, false)
  }

  lemma GoodWorldWrites(cfg: Config, p: Setting, job: Job)
    requires AllSet(cfg) && p.chunkSize == cfg.chunkSize && Free.CanBeIndexed(p, job)
    ensures Writes(cfg, FreshMessage(job, 1), GoodWorld(p, job))
  {
    Free.FreshHasKey(job);
  }

  lemma CheckPasses(cfg: Config, c: Crew, i: nat, job: Job, w: World)
    requires i < |c.slots| && c.slots[i] == Crews.Busy(FreshMessage(job, 1), Crews.Taken)
    requires ValidJob(job) && !w.existsFails && c.shared.keys == {}
    ensures Crews.AdvanceMove(cfg, c, i, w) ==
            c.(slots := c.slots[i := Crews.Busy(FreshMessage(job, 1), Crews.Checked)])
  {
    KeysAreNonempty(job);
    Free.FreshHasKey(job);
  }

  lemma WritePasses(cfg: Config, p: Setting, c: Crew, i: nat, job: Job)
    requires AllSet(cfg) && p.chunkSize == cfg.chunkSize && Free.CanBeIndexed(p, job)
    requires i < |c.slots| && c.slots[i] == Crews.Busy(FreshMessage(job, 1), Crews.Checked)
    ensures var c' := Crews.AdvanceMove(cfg, c, i, GoodWorld(p, job));
            && c'.shared.upserts == c.shared.upserts + [IdempotencyKey(job)]
            && c'.slots == c.slots[i := Crews.Busy(FreshMessage(job, 1), Crews.Written)]
  {
    GoodWorldWrites(cfg, p, job);
    WriteEffect(cfg, c.shared, FreshMessage(job, 1), GoodWorld(p, job));
  }

  lemma {:induction false} RunSnoc(cfg: Config, p: Setting, n: nat, moves: seq<Move>, move: Move)
    requires SteadyRun(cfg, p, n, moves) && Steady(p, Crews.Work(cfg, Crews.Start(n), moves), move)
    ensures SteadyRun(cfg, p, n, moves + [move])
    ensures Crews.Work(cfg, Crews.Start(n), moves + [move]) ==
            Crews.Act(cfg, Crews.Work(cfg, Crews.Start(n), moves), move)
  {
    assert (moves + [move])[..|moves|] == moves;
  }

  /** The same job is enqueued twice. */
  function Enqueues(job: Job): seq<Move> {
    var e := EnqueueJob(RequestMetadata(job.tenant, "r"), job, 1, false);
    [Crews.Outside(e)] + [Crews.Outside(e)]
  }

  /** Workers 0 and 1 each take one of the two messages. */
  function Takes(job: Job): seq<Move> {
    Enqueues(job) + [Crews.Take(0)] + [Crews.Take(1)]
  }

  /** Both check, then both write. */
  function BothWrite(p: Setting, job: Job): seq<Move> {
    var w := GoodWorld(p, job);
    Takes(job) + [Crews.Advance(0, w)] + [Crews.Advance(1, w)] + [Crews.Advance(0, w)] + [Crews.Advance(1, w)]
  }

  /** One more enqueue of the job. */
  lemma {:induction false} EnqueueRuns(cfg: Config, p: Setting, n: nat, job: Job, moves: seq<Move>)
    requires AllSet(cfg) && ValidJob(job) && job.decision == Approved && SteadyRun(cfg, p, n, moves)
    ensures var e := Crews.Outside(EnqueueJob(RequestMetadata(job.tenant, "r"), job, 1, false));
            var c, c' := Crews.Work(cfg, Crews.Start(n), moves), Crews.Work(cfg, Crews.Start(n), moves + [e]);
            && c'.slots == c.slots && c'.shared.queue == c.shared.queue + [FreshMessage(job, 1)]
            && c'.shared.keys == c.shared.keys && c'.shared.upserts == c.shared.upserts
            && SteadyRun(cfg, p, n, moves + [e])
  {
    var e := Crews.Outside(EnqueueJob(RequestMetadata(job.tenant, "r"), job, 1, false));
    KeysAreNonempty(job);
    RunSnoc(cfg, p, n, moves, e);
  }

  lemma {:induction false} EnqueuesRun(cfg: Config, p: Setting, n: nat, job: Job)
    requires AllSet(cfg) && ValidJob(job) && job.decision == Approved
    ensures var s, m := Crews.Work(cfg, Crews.Start(n), Enqueues(job)), FreshMessage(job, 1);
            && s.slots == Crews.Start(n).slots && s.shared.queue == [m, m]
            && s.shared.keys == {} && s.shared.upserts == []
    ensures SteadyRun(cfg, p, n, Enqueues(job))
  {
    var e := Crews.Outside(EnqueueJob(RequestMetadata(job.tenant, "r"), job, 1, false));
    EnqueueRuns(cfg, p, n, job, []);
    assert [] + [e] == [e];
    EnqueueRuns(cfg, p, n, job, [e]);
  }

  /** Both workers hold the message, and nothing is saved or upserted yet. */
  ghost predicate BothHold(c: Crew, n: nat, m: QueueMessage, stage: Crews.Stage) {
    && |c.slots| == n >= 2 && c.slots[0] == c.slots[1] == Crews.Busy(m, stage)
    && c.shared.keys == {} && c.shared.upserts == []
  }

  lemma {:induction false} TakesRun(cfg: Config, p: Setting, n: nat, job: Job)
    requires AllSet(cfg) && ValidJob(job) && job.decision == Approved && n >= 2
    ensures BothHold(Crews.Work(cfg, Crews.Start(n), Takes(job)), n, FreshMessage(job, 1), Crews.Taken)
    ensures SteadyRun(cfg, p, n, Takes(job))
  {
    EnqueuesRun(cfg, p, n, job);
    RunSnoc(cfg, p, n, Enqueues(job), Crews.Take(0));
    RunSnoc(cfg, p, n, Enqueues(job) + [Crews.Take(0)], Crews.Take(1));
  }

  lemma {:induction false} ChecksRun(cfg: Config, p: Setting, n: nat, job: Job)
    requires AllSet(cfg) && ValidJob(job) && job.decision == Approved && n >= 2
    ensures var w := GoodWorld(p, job);
            var moves := Takes(job) + [Crews.Advance(0, w)] + [Crews.Advance(1, w)];
            && BothHold(Crews.Work(cfg, Crews.Start(n), moves), n, FreshMessage(job, 1), Crews.Checked)
            && SteadyRun(cfg, p, n, moves)
  {
    var w, taken := GoodWorld(p, job), Takes(job);
    TakesRun(cfg, p, n, job);
    RunSnoc(cfg, p, n, taken, Crews.Advance(0, w));
    CheckPasses(cfg, Crews.Work(cfg, Crews.Start(n), taken), 0, job, w);
    var one := taken + [Crews.Advance(0, w)];
    RunSnoc(cfg, p, n, one, Crews.Advance(1, w));
    CheckPasses(cfg, Crews.Work(cfg, Crews.Start(n), one), 1, job, w);
  }

  /** One job enqueued twice and taken by two workers is upserted twice. */
  lemma {:induction false} CrewUpsertsTwice(cfg: Config, p: Setting, n: nat, job: Job)
    requires AllSet(cfg) && p.chunkSize == cfg.chunkSize && n >= 2
    requires ValidJob(job) && job.decision == Approved && Free.CanBeIndexed(p, job)
    ensures SteadyRun(cfg, p, n, BothWrite(p, job)) && SavesAll(BothWrite(p, job))
    ensures var k := IdempotencyKey(job); Crews.Work(cfg, Crews.Start(n), BothWrite(p, job)).shared.upserts == [k, k]
  {
    var w := GoodWorld(p, job);
    var checked := Takes(job) + [Crews.Advance(0, w)] + [Crews.Advance(1, w)];
    ChecksRun(cfg, p, n, job);
    RunSnoc(cfg, p, n, checked, Crews.Advance(0, w));
    WritePasses(cfg, p, Crews.Work(cfg, Crews.Start(n), checked), 0, job);
    var one := checked + [Crews.Advance(0, w)];
    RunSnoc(cfg, p, n, one, Crews.Advance(1, w));
    WritePasses(cfg, p, Crews.Work(cfg, Crews.Start(n), one), 1, job);
    BothWriteSaves(p, job);
  }

  lemma BothWriteSaves(p: Setting, job: Job)
    ensures SavesAll(BothWrite(p, job))
  {
  }

  /** On the in-memory queue: no run of n workers that loses no save upserts a key twice, if and only if n is
      at most 1. */
  lemma CrewUpsertsOnceIff(cfg: Config, p: Setting, n: nat, job: Job)
    requires AllSet(cfg) && p.chunkSize == cfg.chunkSize
    requires ValidJob(job) && job.decision == Approved && Free.CanBeIndexed(p, job)
    ensures CrewUpsertsOnce(cfg, p, n) <==> n <= 1
  {
    if n <= 1 {
      LoneWorkerUpsertsOnce(cfg, p, n);
    } else {
      CrewUpsertsTwice(cfg, p, n, job);
      var keys := Crews.Work(cfg, Crews.Start(n), BothWrite(p, job)).shared.upserts;
      assert keys[0] == keys[1];
    }
  }
}
