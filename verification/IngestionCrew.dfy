/**
 Conservation with several workers on one queue.  Each worker takes a message and then goes through
 ProcessMessage in the steps that touch shared state: the idempotency check, the upsert, the save
 and the retention stage.  Other workers, enqueues and replays may act between any two of them.
 */
module IngestionCrew {
  import opened Chunking
  import opened Contracts
  import opened IngestionWorker
  import opened IngestionRuns

  /** What a worker has done with its message. */
  datatype Stage = Taken | Checked | Written | Saved

  datatype Slot = Idle | Busy(message: QueueMessage, stage: Stage)

  datatype Crew = Crew(shared: State, slots: seq<Slot>)

  /** An event is an enqueue, a replay, or a whole uninterrupted ProcessNext. */
  datatype Move = Outside(event: Event) | Take(worker: nat) | Advance(worker: nat, world: World)

  /** The message goes on in the same hands, or leaves them. */
  datatype Outcome = Goes(message: QueueMessage, stage: Stage) | Leaves(exit: Exit)

  // ----- The stages of ProcessMessage -----

  function Left(r: (State, Exit)): (State, Outcome) {
    (r.0, Leaves(r.1))
  }

  function CheckStage(cfg: Config, s: State, m: QueueMessage, w: World): (State, Outcome) {
    if !ValidMessage(m) then (s, Leaves(Dropped(InvalidMessage)))
    else if cfg.idem && w.existsFails then (s, Leaves(Dropped(ExistsFailed)))
    else if cfg.idem && WithKey(m).key in s.keys then (s, Leaves(Exit.Skipped))
    else (s, Goes(WithKey(m), Checked))
  }

  function WriteStage(cfg: Config, s: State, m: QueueMessage, w: World): (State, Outcome) {
    if !cfg.blobStore || w.blob.Error? then Left(RetryOrDlq(cfg, s, m, w))
    else
      var chunks := PayloadChunks(w.blob.value, cfg.chunkSize);
      if chunks == [] then Left(RetryOrDlq(cfg, s, m, w))
      else if !cfg.embedder then (s, Leaves(Dropped(NoEmbedder)))
      else if w.vectors.Error? || |w.vectors.value| != |chunks| then Left(RetryOrDlq(cfg, s, m, w))
      else UpsertStage(cfg, s, m, RecordsOf(m, chunks, w.vectors.value, w.now), w)
  }

  function UpsertStage(cfg: Config, s: State, m: QueueMessage, rs: seq<VectorRecord>, w: World): (State, Outcome) {
    if !AllValid(rs) then (s, Leaves(Dropped(InvalidRecord)))
    else if !cfg.index then (s, Leaves(Dropped(NoIndex)))
    else match w.upsert
      case UpsertFailed(n) =>
        var written := rs[..if n <= |rs| then n else |rs|];
        Left(RetryOrDlq(cfg, s.(index := Upserted(s.index, written)), m, w))
      case UpsertOk =>
        (s.(index := Upserted(s.index, rs), upserts := s.upserts + [m.key]), Goes(m, Written))
  }

  function SaveStage(cfg: Config, s: State, m: QueueMessage, w: World): (State, Outcome) {
    if !cfg.idem then (s, Goes(m, Saved))
    else if w.saveFails then (s, Leaves(Dropped(SaveFailed)))
    else (s.(keys := s.keys + {m.key}), Goes(m, Saved))
  }

  function Handle(cfg: Config, s: State, m: QueueMessage, stage: Stage, w: World): (State, Outcome) {
    match stage
    case Taken => CheckStage(cfg, s, m, w)
    case Checked => WriteStage(cfg, s, m, w)
    case Written => SaveStage(cfg, s, m, w)
    case Saved => Left(Retain(cfg, s, m, w))
  }

  // ----- Moves -----

  function TakeMove(cfg: Config, c: Crew, i: nat): Crew {
    if !cfg.consumer || i >= |c.slots| || c.slots[i].Busy? || c.shared.queue == [] then c
    else Crew(c.shared.(queue := c.shared.queue[1..]), c.slots[i := Busy(c.shared.queue[0], Taken)])
  }

  function Settle(c: Crew, i: nat, m: QueueMessage, r: (State, Outcome)): Crew
    requires i < |c.slots|
  {
    match r.1
    case Goes(m', stage) => Crew(r.0, c.slots[i := Busy(m', stage)])
    case Leaves(e) => Crew(r.0.(ledger := Account(r.0.ledger, TicketOf(m), e)), c.slots[i := Idle])
  }

  function AdvanceMove(cfg: Config, c: Crew, i: nat, w: World): Crew {
    if i >= |c.slots| || c.slots[i].Idle? then c
    else Settle(c, i, c.slots[i].message, Handle(cfg, c.shared, c.slots[i].message, c.slots[i].stage, w))
  }

  function Act(cfg: Config, c: Crew, move: Move): Crew {
    match move
    case Outside(e) => c.(shared := Step(cfg, c.shared, e))
    case Take(i) => TakeMove(cfg, c, i)
    case Advance(i, w) => AdvanceMove(cfg, c, i, w)
  }

  function Work(cfg: Config, c: Crew, moves: seq<Move>): Crew {
    if moves == [] then c else Act(cfg, Work(cfg, c, moves[..|moves| - 1]), moves[|moves| - 1])
  }

  // ----- Conservation -----

  function InSlot(slot: Slot): multiset<Ticket> {
    if slot.Idle? then multiset{} else multiset{TicketOf(slot.message)}
  }

  /** The messages in the workers' hands. */
  function InHand(slots: seq<Slot>): multiset<Ticket> {
    if slots == [] then multiset{} else InHand(slots[..|slots| - 1]) + InSlot(slots[|slots| - 1])
  }

  /** Everything accepted is queued, in hand, indexed, skipped, dead-lettered or dropped, counted once. */
  predicate Conserved(c: Crew) {
    BalancedHolding(c.shared, InHand(c.slots))
  }

  /** The number of workers that hold this ticket. */
  function Holders(slots: seq<Slot>, t: Ticket): nat {
    if slots == [] then 0 else Holders(slots[..|slots| - 1], t) + InSlot(slots[|slots| - 1])[t]
  }

  lemma {:induction false} InHandCounts(slots: seq<Slot>, t: Ticket)
    ensures InHand(slots)[t] == Holders(slots, t)
  {
    if slots != [] {
      InHandCounts(slots[..|slots| - 1], t);
    }
  }

  lemma {:induction false} HoldersUpdate(slots: seq<Slot>, i: nat, slot: Slot, t: Ticket)
    requires i < |slots|
    ensures Holders(slots[i := slot], t) + InSlot(slots[i])[t] == Holders(slots, t) + InSlot(slot)[t]
  {
    var n := |slots| - 1;
    if i == n {
      assert slots[i := slot][..n] == slots[..n];
    } else {
      HoldersUpdate(slots[..n], i, slot, t);
      assert slots[i := slot][..n] == slots[..n][i := slot];
    }
  }

  /** Only the changed slot matters. */
  lemma InHandUpdate(slots: seq<Slot>, i: nat, slot: Slot)
    requires i < |slots|
    ensures InSlot(slots[i]) == InSlot(slot) ==> InHand(slots[i := slot]) == InHand(slots)
    ensures slot.Idle? ==> InHand(slots) == InSlot(slots[i]) + InHand(slots[i := slot])
    ensures slots[i].Idle? ==> InHand(slots[i := slot]) == InSlot(slot) + InHand(slots)
  {
    forall t: Ticket
      ensures InHand(slots[i := slot])[t] + InSlot(slots[i])[t] == InHand(slots)[t] + InSlot(slot)[t]
    {
      HoldersUpdate(slots, i, slot, t);
      InHandCounts(slots, t);
      InHandCounts(slots[i := slot], t);
    }
  }

  ghost predicate NoneBusy(slots: seq<Slot>) {
    forall i :: 0 <= i < |slots| ==> slots[i].Idle?
  }

  lemma {:induction false} AllIdle(slots: seq<Slot>)
    requires NoneBusy(slots)
    ensures InHand(slots) == multiset{}
  {
    if slots != [] {
      AllIdle(slots[..|slots| - 1]);
    }
  }

  // ----- What a stage does with its message -----

  /** The steps a message in hand has left in this round. */
  function StepsLeft(stage: Stage): nat {
    match stage
    case Taken => 4
    case Checked => 3
    case Written => 2
    case Saved => 1
  }

  function NextAttempt(m: QueueMessage, at: nat): QueueMessage {
    m.(attempt := m.attempt + 1, enqueuedAt := at)
  }

  /** The message stays in hand one stage further, or it leaves: back to the queue for its next attempt or to
      the dead-letter queue, both only from the write stage, or to neither; and only the last stage lets
      it leave as indexed. */
  ghost predicate Handled(cfg: Config, s: State, m: QueueMessage, stage: Stage, at: nat, r: (State, Outcome)) {
    && r.0.ledger == s.ledger
    && match r.1
       case Goes(m', stage') =>
         && r.0.queue == s.queue && r.0.dlq == s.dlq && m'.attempt == m.attempt && TicketOf(m') == TicketOf(m)
         && StepsLeft(stage') + 1 == StepsLeft(stage)
       case Leaves(e) =>
         && r.0.queue == s.queue + (if e.Requeued? then [NextAttempt(m, at)] else [])
         && r.0.dlq == s.dlq + (if e.DeadLettered? then [m] else [])
         && (e.Requeued? ==> stage.Checked? && m.attempt < cfg.maxRetries) && (e.Indexed? ==> stage.Saved?)
  }

  lemma UpsertHandled(cfg: Config, s: State, m: QueueMessage, rs: seq<VectorRecord>, w: World)
    ensures Handled(cfg, s, m, Checked, w.retryAt, UpsertStage(cfg, s, m, rs, w))
  {
    assert s.queue + [] == s.queue && s.dlq + [] == s.dlq;
  }

  lemma WriteHandled(cfg: Config, s: State, m: QueueMessage, w: World)
    ensures Handled(cfg, s, m, Checked, w.retryAt, WriteStage(cfg, s, m, w))
  {
    var r := WriteStage(cfg, s, m, w);
    assert s.queue + [] == s.queue && s.dlq + [] == s.dlq;
    if r != Left(RetryOrDlq(cfg, s, m, w)) && r != (s, Leaves(Dropped(NoEmbedder))) {
      UpsertHandled(cfg, s, m, RecordsOf(m, PayloadChunks(w.blob.value, cfg.chunkSize), w.vectors.value, w.now), w);
    }
  }

  lemma HandleRoutes(cfg: Config, s: State, m: QueueMessage, stage: Stage, w: World)
    ensures Handled(cfg, s, m, stage, w.retryAt, Handle(cfg, s, m, stage, w))
  {
    assert s.queue + [] == s.queue && s.dlq + [] == s.dlq;
    if stage.Checked? {
      WriteHandled(cfg, s, m, w);
    }
  }

  // ----- Every move conserves -----

  /** Whatever a stage does with the message, its ticket stays counted once. */
  lemma SettleConserves(cfg: Config, c: Crew, i: nat, at: nat, r: (State, Outcome))
    requires Conserved(c) && i < |c.slots| && c.slots[i].Busy?
    requires Handled(cfg, c.shared, c.slots[i].message, c.slots[i].stage, at, r)
    ensures Conserved(Settle(c, i, c.slots[i].message, r))
  {
    var s, m := c.shared, c.slots[i].message;
    match r.1
    case Goes(m', stage) =>
      InHandUpdate(c.slots, i, Busy(m', stage));
    case Leaves(e) =>
      var t, free := TicketOf(m), InHand(c.slots[i := Idle]);
      InHandUpdate(c.slots, i, Idle);
      Regroup(Tickets(s.queue), multiset{t}, free);
      AccountBalances(s.ledger, t, e, Tickets(s.queue), free, Tickets(s.dlq));
      TicketsMaybe(s.queue, NextAttempt(m, at), e.Requeued?);
      TicketsMaybe(s.dlq, m, e.DeadLettered?);
  }

  lemma Regroup(a: multiset<Ticket>, b: multiset<Ticket>, c: multiset<Ticket>)
    ensures a + (b + c) == b + a + c
  {
  }

  lemma TakeConserves(cfg: Config, c: Crew, i: nat)
    requires Conserved(c)
    ensures Conserved(TakeMove(cfg, c, i))
  {
    if cfg.consumer && i < |c.slots| && c.slots[i].Idle? && c.shared.queue != [] {
      var m, rest := c.shared.queue[0], c.shared.queue[1..];
      assert c.shared.queue == [m] + rest;
      TicketsCons(m, rest);
      InHandUpdate(c.slots, i, Busy(m, Taken));
      Regroup(Tickets(rest), multiset{TicketOf(m)}, InHand(c.slots));
    }
  }

  lemma ActConserves(cfg: Config, c: Crew, move: Move)
    requires Conserved(c)
    ensures Conserved(Act(cfg, c, move))
  {
    match move
    case Outside(e) =>
      StepBalanced(cfg, c.shared, e, InHand(c.slots));
    case Take(i) =>
      TakeConserves(cfg, c, i);
    case Advance(i, w) =>
      AdvanceConserves(cfg, c, i, w);
  }

  lemma AdvanceConserves(cfg: Config, c: Crew, i: nat, w: World)
    requires Conserved(c)
    ensures Conserved(AdvanceMove(cfg, c, i, w))
  {
    if i < |c.slots| && c.slots[i].Busy? {
      var m, stage := c.slots[i].message, c.slots[i].stage;
      var r := Handle(cfg, c.shared, m, stage, w);
      HandleRoutes(cfg, c.shared, m, stage, w);
      SettleConserves(cfg, c, i, w.retryAt, r);
      assert AdvanceMove(cfg, c, i, w) == Settle(c, i, m, r);
    }
  }

  /** A crew of n workers before anything happened. */
  function Start(n: nat): (c: Crew)
    ensures |c.slots| == n && forall i :: 0 <= i < n ==> c.slots[i].Idle?
  {
    Crew(Init(), seq(n, i => Idle))
  }

  /** Conservation for any number of workers and every interleaving, whatever fails: at each moment every
      accepted message is queued, in one worker's hands, indexed, skipped, dead-lettered or dropped. */
  lemma {:induction false} CrewConserves(cfg: Config, n: nat, moves: seq<Move>)
    ensures Conserved(Work(cfg, Start(n), moves))
  {
    if moves == [] {
      AllIdle(Start(n).slots);
    } else {
      CrewConserves(cfg, n, moves[..|moves| - 1]);
      ActConserves(cfg, Work(cfg, Start(n), moves[..|moves| - 1]), moves[|moves| - 1]);
    }
  }

  /** Once all workers are idle the books balance as after a sequential run. */
  lemma {:induction false} IdleCrewBalanced(cfg: Config, n: nat, moves: seq<Move>)
    requires NoneBusy(Work(cfg, Start(n), moves).slots)
    ensures Balanced(Work(cfg, Start(n), moves).shared)
  {
    var c := Work(cfg, Start(n), moves);
    CrewConserves(cfg, n, moves);
    AllIdle(c.slots);
    HoldingNothing(c.shared);
  }

  // ----- The stages together are ProcessMessage -----

  /** Worker i is done with its message. */
  function Done(c: Crew, i: nat, m: QueueMessage, r: (State, Exit)): Crew
    requires i < |c.slots|
  {
    Settle(c, i, m, Left(r))
  }

  /** Worker i goes on n times, with the same answers from outside. */
  function Continue(cfg: Config, c: Crew, i: nat, w: World, n: nat): Crew
    decreases n
  {
    if n == 0 then c else Continue(cfg, AdvanceMove(cfg, c, i, w), i, w, n - 1)
  }

  predicate At(c: Crew, i: nat, m: QueueMessage, stage: Stage) {
    i < |c.slots| && c.slots[i] == Busy(m, stage)
  }

  lemma {:induction false} IdleContinues(cfg: Config, c: Crew, i: nat, w: World, n: nat)
    requires i < |c.slots| && c.slots[i].Idle?
    ensures Continue(cfg, c, i, w, n) == c
  {
    if n > 0 {
      IdleContinues(cfg, c, i, w, n - 1);
    }
  }

  /** What comes before in the slot does not matter, nor does the key in the ticket. */
  lemma DoneAfter(c: Crew, i: nat, m: QueueMessage, m': QueueMessage, s: State, slot: Slot, r: (State, Exit))
    requires i < |c.slots| && TicketOf(m) == TicketOf(m')
    ensures Done(Crew(s, c.slots[i := slot]), i, m', r) == Done(c, i, m, r)
  {
    assert c.slots[i := slot][i := Idle] == c.slots[i := Idle];
  }

  lemma {:induction false} FromSaved(cfg: Config, c: Crew, i: nat, m: QueueMessage, w: World)
    requires At(c, i, m, Saved)
    ensures Continue(cfg, c, i, w, 1) == Done(c, i, m, Retain(cfg, c.shared, m, w))
  {
  }

  /** Save and what follows it. */
  function SaveAndRetain(cfg: Config, s: State, m: QueueMessage, w: World): (State, Exit) {
    if !cfg.idem then Retain(cfg, s, m, w)
    else if w.saveFails then (s, Dropped(SaveFailed))
    else Retain(cfg, s.(keys := s.keys + {m.key}), m, w)
  }

  lemma {:induction false} FromWritten(cfg: Config, c: Crew, i: nat, m: QueueMessage, w: World)
    requires At(c, i, m, Written)
    ensures Continue(cfg, c, i, w, 2) == Done(c, i, m, SaveAndRetain(cfg, c.shared, m, w))
  {
    var (s, o) := SaveStage(cfg, c.shared, m, w);
    var c' := AdvanceMove(cfg, c, i, w);
    if o.Goes? {
      FromSaved(cfg, c', i, m, w);
      DoneAfter(c, i, m, m, s, Busy(m, Saved), Retain(cfg, s, m, w));
    } else {
      IdleContinues(cfg, c', i, w, 1);
    }
  }

  /** ProcessMessage once the check has passed. */
  function AfterCheck(cfg: Config, s: State, m: QueueMessage, w: World): (State, Exit) {
    var (s', o) := WriteStage(cfg, s, m, w);
    match o
    case Leaves(e) => (s', e)
    case Goes(_, _) => SaveAndRetain(cfg, s', m, w)
  }

  lemma {:induction false} FromChecked(cfg: Config, c: Crew, i: nat, m: QueueMessage, w: World)
    requires At(c, i, m, Checked)
    ensures Continue(cfg, c, i, w, 3) == Done(c, i, m, AfterCheck(cfg, c.shared, m, w))
  {
    var (s, o) := WriteStage(cfg, c.shared, m, w);
    var c' := AdvanceMove(cfg, c, i, w);
    if o.Goes? {
      assert o == Goes(m, Written);
      FromWritten(cfg, c', i, m, w);
      DoneAfter(c, i, m, m, s, Busy(m, Written), SaveAndRetain(cfg, s, m, w));
    } else {
      IdleContinues(cfg, c', i, w, 2);
    }
  }

  lemma AfterCheckIsProcess(cfg: Config, s: State, m: QueueMessage, w: World)
    requires ValidMessage(m) && !(cfg.idem && (w.existsFails || WithKey(m).key in s.keys))
    ensures AfterCheck(cfg, s, WithKey(m), w) == Process(cfg, s, m, w)
  {
  }

  lemma {:induction false} FromTaken(cfg: Config, c: Crew, i: nat, m: QueueMessage, w: World)
    requires At(c, i, m, Taken)
    ensures Continue(cfg, c, i, w, 4) == Done(c, i, m, Process(cfg, c.shared, m, w))
  {
    var (s, o) := CheckStage(cfg, c.shared, m, w);
    var c', m' := AdvanceMove(cfg, c, i, w), WithKey(m);
    if o.Goes? {
      FromChecked(cfg, c', i, m', w);
      DoneAfter(c, i, m, m', s, Busy(m', Checked), AfterCheck(cfg, s, m', w));
      AfterCheckIsProcess(cfg, s, m, w);
    } else {
      IdleContinues(cfg, c', i, w, 3);
    }
  }

  /** A worker that is not interrupted does exactly what ProcessNext does. */
  lemma {:induction false} TurnIsProcessNext(cfg: Config, c: Crew, i: nat, w: World)
    requires i < |c.slots| && c.slots[i].Idle?
    ensures Continue(cfg, Act(cfg, c, Take(i)), i, w, 4) == Act(cfg, c, Outside(ProcessNext(w)))
  {
    var taken := TakeMove(cfg, c, i);
    if cfg.consumer && c.shared.queue != [] {
      var m := c.shared.queue[0];
      FromTaken(cfg, taken, i, m, w);
      DoneAfter(c, i, m, m, taken.shared, Busy(m, Taken), Process(cfg, taken.shared, m, w));
      assert c.slots[i := Idle] == c.slots;
    } else {
      IdleContinues(cfg, c, i, w, 4);
    }
  }
}
