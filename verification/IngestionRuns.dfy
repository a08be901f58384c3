/**
 What every run of the ingestion worker keeps: nothing is lost without being accounted for, the
 queue drains, a key is upserted once, and the index holds only approved work.
 */
module IngestionRuns {
  import opened Text
  import opened Chunking
  import opened Identity
  import opened Contracts
  import opened IngestionWorker

  // ----- Conservation -----

  function Tickets(ms: seq<QueueMessage>): multiset<Ticket> {
    if ms == [] then multiset{} else Tickets(ms[..|ms| - 1]) + multiset{TicketOf(ms[|ms| - 1])}
  }

  /** Everything accepted is queued, indexed, skipped, dead-lettered or dropped, counted once. */
  predicate Balanced(s: State) {
    BalancedWith(s.ledger, Tickets(s.queue), Tickets(s.dlq))
  }

  /** The same while some accepted messages are held by someone who took them from the queue. */
  predicate BalancedHolding(s: State, held: multiset<Ticket>) {
    BalancedWith(s.ledger, Tickets(s.queue) + held, Tickets(s.dlq))
  }

  predicate BalancedWith(l: Ledger, queued: multiset<Ticket>, dead: multiset<Ticket>) {
    l.entered == queued + l.indexed + l.skipped + dead + l.dropped
  }

  lemma {:induction false} TicketsSnoc(ms: seq<QueueMessage>, m: QueueMessage)
    ensures Tickets(ms + [m]) == Tickets(ms) + multiset{TicketOf(m)}
  {
    assert (ms + [m])[..|ms|] == ms;
  }

  lemma {:induction false} TicketsCons(m: QueueMessage, ms: seq<QueueMessage>)
    ensures Tickets([m] + ms) == multiset{TicketOf(m)} + Tickets(ms)
  {
    if ms == [] {
      assert [m] + ms == [] + [m];
      TicketsSnoc([], m);
    } else {
      assert [m] + ms == ([m] + ms[..|ms| - 1]) + [ms[|ms| - 1]];
      TicketsSnoc([m] + ms[..|ms| - 1], ms[|ms| - 1]);
      TicketsCons(m, ms[..|ms| - 1]);
    }
  }

  /** Where a message that leaves ProcessMessage went. */
  ghost predicate Routed(s: State, m: QueueMessage, at: nat, s': State, e: Exit) {
    && s'.ledger == s.ledger
    && s'.queue == s.queue + (if e.Requeued? then [WithKey(m).(attempt := m.attempt + 1, enqueuedAt := at)] else [])
    && s'.dlq == s.dlq + (if e.DeadLettered? then [WithKey(m)] else [])
  }

  lemma RetryRoutes(cfg: Config, s: State, m: QueueMessage, w: World)
    requires m.key != ""
    ensures Routed(s, m, w.retryAt, RetryOrDlq(cfg, s, m, w).0, RetryOrDlq(cfg, s, m, w).1)
  {
    assert s.queue + [] == s.queue && s.dlq + [] == s.dlq;
  }

  lemma StoreRoutes(cfg: Config, s: State, m: QueueMessage, chunks: seq<string>, vectors: seq<Vector>, w: World)
    requires m.key != "" && |vectors| == |chunks|
    ensures Routed(s, m, w.retryAt, Store(cfg, s, m, chunks, vectors, w).0, Store(cfg, s, m, chunks, vectors, w).1)
  {
    assert s.queue + [] == s.queue && s.dlq + [] == s.dlq;
    if w.upsert.UpsertFailed? {
      var rs := RecordsOf(m, chunks, vectors, w.now);
      var n := if w.upsert.written <= |rs| then w.upsert.written else |rs|;
      RetryRoutes(cfg, s.(index := Upserted(s.index, rs[..n])), m, w);
    }
  }

  /** A message goes back to the queue, to the dead-letter queue, or to neither: never to both, and
      the exit says which. */
  lemma ProcessRoutes(cfg: Config, s: State, m: QueueMessage, w: World)
    ensures Routed(s, m, w.retryAt, Process(cfg, s, m, w).0, Process(cfg, s, m, w).1)
  {
    var r, m' := Process(cfg, s, m, w), WithKey(m);
    KeysAreNonempty(m.job);
    if r == RetryOrDlq(cfg, s, m', w) {
      RetryRoutes(cfg, s, m', w);
    } else if r.0 == s && (r.1.Skipped? || r.1.Dropped?) {
      assert s.queue + [] == s.queue && s.dlq + [] == s.dlq;
    } else {
      StoreRoutes(cfg, s, m', PayloadChunks(w.blob.value, cfg.chunkSize), w.vectors.value, w);
    }
  }

  lemma KeysAreNonempty(job: Job)
    ensures IdempotencyKey(job) != "" && MessageId(job) != ""
  {
    TaggedKeyIsTriple("idem", job.tenant, job.jobId, job.checksum);
    TaggedKeyIsTriple("msg", job.tenant, job.jobId, job.checksum);
  }

  lemma {:induction false} TicketsMaybe(ms: seq<QueueMessage>, m: QueueMessage, b: bool)
    ensures Tickets(ms + if b then [m] else []) == Tickets(ms) + if b then multiset{TicketOf(m)} else multiset{}
  {
    TicketsSnoc(ms, m);
    assert ms + [] == ms;
  }

  /** The exit moves the ticket to exactly one place. */
  lemma AccountBalances(l: Ledger, t: Ticket, e: Exit, q: multiset<Ticket>, held: multiset<Ticket>, d: multiset<Ticket>)
    requires BalancedWith(l, multiset{t} + q + held, d)
    ensures BalancedWith(Account(l, t, e), (q + if e.Requeued? then multiset{t} else multiset{}) + held,
                         d + if e.DeadLettered? then multiset{t} else multiset{})
  {
  }

  lemma RoutedBalanced(s: State, at: nat, t': State, e: Exit, held: multiset<Ticket>)
    requires BalancedHolding(s, held) && s.queue != []
    requires Routed(s.(queue := s.queue[1..]), s.queue[0], at, t', e)
    ensures BalancedHolding(t'.(ledger := Account(t'.ledger, TicketOf(s.queue[0]), e)), held)
  {
    var m, rest := s.queue[0], s.queue[1..];
    var t, dead := TicketOf(m), Tickets(s.dlq);
    assert Tickets(s.queue) == multiset{t} + Tickets(rest) by {
      assert s.queue == [m] + rest;
      TicketsCons(m, rest);
    }
    var q' := Tickets(rest) + if e.Requeued? then multiset{t} else multiset{};
    var d' := dead + if e.DeadLettered? then multiset{t} else multiset{};
    assert BalancedWith(Account(s.ledger, t, e), q' + held, d') by {
      AccountBalances(s.ledger, t, e, Tickets(rest), held, dead);
    }
    assert Tickets(t'.queue) == q' by {
      TicketsMaybe(rest, WithKey(m).(attempt := m.attempt + 1, enqueuedAt := at), e.Requeued?);
    }
    assert Tickets(t'.dlq) == d' by {
      TicketsMaybe(s.dlq, WithKey(m), e.DeadLettered?);
    }
  }

  lemma NextBalanced(cfg: Config, s: State, w: World, held: multiset<Ticket>)
    requires BalancedHolding(s, held)
    ensures BalancedHolding(NextStep(cfg, s, w), held)
  {
    if cfg.consumer && s.queue != [] {
      var m, t := s.queue[0], s.(queue := s.queue[1..]);
      ProcessRoutes(cfg, t, m, w);
      RoutedBalanced(s, w.retryAt, Process(cfg, t, m, w).0, Process(cfg, t, m, w).1, held);
    }
  }

  lemma EnterBalanced(s: State, m: QueueMessage, held: multiset<Ticket>)
    requires BalancedHolding(s, held)
    ensures BalancedHolding(Enter(s, m), held)
  {
    TicketsSnoc(s.queue, m);
  }

  lemma StepBalanced(cfg: Config, s: State, e: Event, held: multiset<Ticket>)
    requires BalancedHolding(s, held)
    ensures BalancedHolding(Step(cfg, s, e), held)
  {
    match e
    case EnqueueJob(meta, job, at, fails) =>
      EnterBalanced(s, FreshMessage(job, at), held);
    case Replay(m, at, fails) =>
      EnterBalanced(s, Replayed(m, at), held);
    case ProcessNext(w) =>
      NextBalanced(cfg, s, w, held);
  }

  lemma HoldingNothing(s: State)
    ensures BalancedHolding(s, multiset{}) <==> Balanced(s)
  {
    assert Tickets(s.queue) + multiset{} == Tickets(s.queue);
  }

  /** Conservation over every run, whatever fails. */
  lemma {:induction false} RunBalanced(cfg: Config, es: seq<Event>)
    ensures Balanced(Run(cfg, Init(), es))
  {
    if es != [] {
      RunBalanced(cfg, es[..|es| - 1]);
      HoldingNothing(Run(cfg, Init(), es[..|es| - 1]));
      StepBalanced(cfg, Run(cfg, Init(), es[..|es| - 1]), es[|es| - 1], multiset{});
      HoldingNothing(Run(cfg, Init(), es));
    }
  }

  // ----- When a message is dropped -----

  predicate AllSet(cfg: Config) {
    cfg.producer && cfg.consumer && cfg.dlq && cfg.blobStore && cfg.embedder && cfg.index && cfg.idem && cfg.retention
  }

  /** Queue, dead-letter queue, idempotency store and retention hook answer without error, and the clock is set. */
  predicate Dependable(w: World) {
    && w.now != 0 && w.retryAt != 0 && !w.existsFails && !w.saveFails && w.retentionFailures == {}
    && !w.enqueueFails && !w.publishFails
  }

  predicate HasEmptyVector(vs: seq<Vector>) {
    exists i :: 0 <= i < |vs| && vs[i] == []
  }

  /** What IngestionJob.Validate does not ask for but later checks do. */
  predicate Storable(job: Job) {
    job.checksum != "" && TrimSpace(job.sourceUri) != "" && TrimSpace(job.jobId) != ""
  }

  /** What the checks on a record ask of its message and time. */
  predicate Complete(m: QueueMessage, now: nat) {
    && m.job.tenant != "" && m.job.jobId != "" && m.job.sourceUri != "" && m.job.checksum != ""
    && m.attempt >= 0 && now != 0
  }

  /** The records of any message are valid exactly when its job is complete and no vector is empty: their ids
      and chunk texts always pass. */
  lemma {:induction false} RecordsValidIff(m: QueueMessage, text: string, chunkSize: int, vectors: seq<Vector>,
                                           now: nat)
    requires |vectors| == |PayloadChunks(text, chunkSize)| > 0
    ensures AllValid(RecordsOf(m, PayloadChunks(text, chunkSize), vectors, now))
            <==> Complete(m, now) && !HasEmptyVector(vectors)
  {
    var chunks := PayloadChunks(text, chunkSize);
    var rs := RecordsOf(m, chunks, vectors, now);
    forall i | 0 <= i < |rs|
      ensures ValidRecord(rs[i]) <==> Complete(m, now) && vectors[i] != []
    {
      ChunkShape(text, PayloadLimit(chunkSize), 0, i);
      RecordIdParts(m.job.tenant, m.job.jobId, m.job.checksum, i);
    }
    if !Complete(m, now) {
      assert !ValidRecord(rs[0]);
    } else if HasEmptyVector(vectors) {
      var i :| 0 <= i < |vectors| && vectors[i] == [];
      assert !ValidRecord(rs[i]);
    }
  }

  lemma RetainDropsIff(cfg: Config, s: State, m: QueueMessage, w: World)
    requires cfg.retention && w.retentionFailures == {} && ValidMessage(m)
    ensures Retain(cfg, s, m, w).1.Dropped? <==> TrimSpace(m.job.sourceUri) == "" || TrimSpace(m.job.jobId) == ""
  {
    var rs := RetentionSet(m, w.now);
    var k := RetentionStop(rs, {}, 0);
    var audit := "governance.ingestion.policy_decision";
    assert !IsSpace(audit[0]) && !IsSpace(audit[|audit| - 1]);
    assert TrimSpace(audit) == audit;
    assert ValidRetention(rs[2]);
    assert ValidRetention(rs[0]) <==> TrimSpace(m.job.sourceUri) != "";
    assert ValidRetention(rs[1]) <==> TrimSpace(m.job.jobId) != "";
  }

  /** The vectors and the payload got as far as the records. */
  predicate ReachesStore(cfg: Config, s: State, m: QueueMessage, w: World) {
    && WithKey(m).key !in s.keys && w.blob.Ok? && PayloadChunks(w.blob.value, cfg.chunkSize) != []
    && w.vectors.Ok? && |w.vectors.value| == |PayloadChunks(w.blob.value, cfg.chunkSize)|
  }

  /** With every provider set and the infrastructure answering, a valid message is dropped exactly when
      its records do not validate, or they were stored and its source or job id is blank. */
  lemma DroppedIff(cfg: Config, s: State, m: QueueMessage, w: World)
    requires AllSet(cfg) && Dependable(w) && ValidMessage(m)
    ensures Process(cfg, s, m, w).1.Dropped? <==>
            && ReachesStore(cfg, s, m, w)
            && (|| m.job.checksum == "" || HasEmptyVector(w.vectors.value)
                || (w.upsert.UpsertOk? && (TrimSpace(m.job.sourceUri) == "" || TrimSpace(m.job.jobId) == "")))
  {
    if ReachesStore(cfg, s, m, w) {
      var m' := WithKey(m);
      var chunks := PayloadChunks(w.blob.value, cfg.chunkSize);
      RecordsValidIff(m', w.blob.value, cfg.chunkSize, w.vectors.value, w.now);
      var rs := RecordsOf(m', chunks, w.vectors.value, w.now);
      var s1 := s.(index := Upserted(s.index, rs), upserts := s.upserts + [m'.key]);
      RetainDropsIff(cfg, s1.(keys := s1.keys + {m'.key}), m', w);
      assert Process(cfg, s, m, w) == Store(cfg, s, m', chunks, w.vectors.value, w);
    }
  }

  predicate CarefulEvent(e: Event) {
    match e
    case EnqueueJob(_, job, _, _) => Storable(job)
    case ProcessNext(w) => Dependable(w) && (w.vectors.Ok? ==> !HasEmptyVector(w.vectors.value))
    case Replay(m, _, _) => Storable(m.job)
  }

  ghost predicate QueueIsStorable(s: State) {
    forall i :: 0 <= i < |s.queue| ==> ValidMessage(s.queue[i]) && Storable(s.queue[i].job)
  }

  ghost predicate NothingDropped(s: State) {
    s.ledger.dropped == multiset{} && QueueIsStorable(s)
  }

  lemma NextDropsNothing(cfg: Config, s: State, w: World)
    requires AllSet(cfg) && CarefulEvent(ProcessNext(w)) && NothingDropped(s)
    ensures NothingDropped(NextStep(cfg, s, w))
  {
    if s.queue != [] {
      var m, t := s.queue[0], s.(queue := s.queue[1..]);
      assert ValidMessage(m) && Storable(m.job);
      DroppedIff(cfg, t, m, w);
      ProcessRoutes(cfg, t, m, w);
    }
  }

  /** Nothing is dropped in a run where infrastructure answers and every job carries what the later checks need. */
  lemma {:induction false} RunDropsNothing(cfg: Config, es: seq<Event>)
    requires AllSet(cfg) && forall i :: 0 <= i < |es| ==> CarefulEvent(es[i])
    ensures NothingDropped(Run(cfg, Init(), es))
  {
    if es != [] {
      RunDropsNothing(cfg, es[..|es| - 1]);
      var s, e := Run(cfg, Init(), es[..|es| - 1]), es[|es| - 1];
      assert CarefulEvent(e);
      if e.ProcessNext? {
        NextDropsNothing(cfg, s, e.world);
      }
    }
  }

  /** An approved job whose source is blank is accepted and passes every check before indexing: its
      records are stored and its key saved, and the call still fails. */
  lemma BlankSourceIsStoredThenDropped(cfg: Config, job: Job, s: State, w: World)
    requires AllSet(cfg) && Dependable(w) && ValidJob(job) && job.decision == Approved && w.upsert.UpsertOk?
    requires job.checksum != "" && TrimSpace(job.sourceUri) == ""
    requires ReachesStore(cfg, s, FreshMessage(job, w.now), w) && !HasEmptyVector(w.vectors.value)
    ensures Accepts(cfg, RequestMetadata(job.tenant, "r"), job, w.now, false)
    ensures var (s', e) := Process(cfg, s, FreshMessage(job, w.now), w);
            e.Dropped? && s'.keys == s.keys + {IdempotencyKey(job)} && s'.upserts == s.upserts + [IdempotencyKey(job)]
  {
    var m := FreshMessage(job, w.now);
    KeysAreNonempty(job);
    DroppedIff(cfg, s, m, w);
    RecordsValidIff(m, w.blob.value, cfg.chunkSize, w.vectors.value, w.now);
  }

  // ----- What an indexed message leaves behind -----

  lemma {:induction false} UpsertedEntries(index: map<string, VectorRecord>, rs: seq<VectorRecord>)
    requires forall i, j :: 0 <= i < j < |rs| ==> rs[i].recordId != rs[j].recordId
    ensures forall i :: 0 <= i < |rs| ==>
        rs[i].recordId in Upserted(index, rs) && Upserted(index, rs)[rs[i].recordId] == rs[i]
    ensures forall id :: id in index && (forall i :: 0 <= i < |rs| ==> rs[i].recordId != id) ==>
              id in Upserted(index, rs) && Upserted(index, rs)[id] == index[id]
  {
    if rs != [] {
      UpsertedEntries(index, rs[..|rs| - 1]);
    }
  }

  lemma RecordIdsDistinct(m: QueueMessage, chunks: seq<string>, vectors: seq<Vector>, now: nat)
    requires |vectors| == |chunks|
    ensures var rs := RecordsOf(m, chunks, vectors, now);
            forall i, j :: 0 <= i < j < |rs| ==> rs[i].recordId != rs[j].recordId
  {
    var rs, job := RecordsOf(m, chunks, vectors, now), m.job;
    forall i, j | 0 <= i < j < |rs|
      ensures rs[i].recordId != rs[j].recordId
    {
      if rs[i].recordId == rs[j].recordId {
        RecordIdInjective(job.tenant, job.jobId, job.checksum, i, job.tenant, job.jobId, job.checksum, j);
      }
    }
  }

  /** Chunk i of the payload is in the index, with vector i of the reply, under the job's own data. */
  ghost predicate HoldsChunk(s: State, m: QueueMessage, i: nat, chunk: string, vector: Vector, now: nat) {
    var id := RecordId(m.job.tenant, m.job.jobId, m.job.checksum, i);
    && id in s.index && s.index[id].chunkText == chunk && s.index[id].embedding == vector
    && s.index[id].retryCount == m.attempt && s.index[id].indexedAt == now && RecordOfJob(s.index[id], m.job)
    && s.index[id].objectKey == m.job.sourceUri
    && Labelled(s.index[id].metadata, m)
  }

  /** The metadata of a record names its tenant, job, source and key, and nothing else. */
  ghost predicate Labelled(metadata: map<string, string>, m: QueueMessage) {
    && metadata.Keys == {"tenant_id", "job_id", "source_uri", "idempotency_key"}
    && metadata["tenant_id"] == m.job.tenant && metadata["job_id"] == m.job.jobId
    && metadata["source_uri"] == m.job.sourceUri && metadata["idempotency_key"] == WithKey(m).key
  }

  /** The three retention records of a job: its payload for 30 days, its chunks for 90, the audit event for 365. */
  ghost predicate RetainsJob(rs: seq<RetentionRecord>, job: Job, now: nat) {
    && |rs| == 3 && (forall i :: 0 <= i < 3 ==> rs[i].tenant == job.tenant && rs[i].jobId == job.jobId)
    && rs[0].kind == RawBlob && rs[0].resource == job.sourceUri && rs[0].retentionUntil == now + 30 * 24 * 3600
    && rs[1].kind == ChunkClass && rs[1].resource == job.jobId && rs[1].retentionUntil == now + 90 * 24 * 3600
    && rs[2].kind == AuditEvent && rs[2].resource == "governance.ingestion.policy_decision"
    && rs[2].retentionUntil == now + 365 * 24 * 3600
  }

  /** The id is not that of any of the job's n chunks. */
  ghost predicate NotOfJob(id: string, job: Job, n: nat) {
    forall i: nat :: i < n ==> RecordId(job.tenant, job.jobId, job.checksum, i) != id
  }

  /** `Indexed` is only reached with the whole payload in the index, every other job's entries
      untouched, the key saved and the three retention records applied. */
  lemma IndexedMeansStored(cfg: Config, s: State, m: QueueMessage, w: World)
    requires Process(cfg, s, m, w).1.Indexed?
    ensures w.blob.Ok? && w.vectors.Ok? && |w.vectors.value| == |PayloadChunks(w.blob.value, cfg.chunkSize)| > 0
    ensures var s', chunks := Process(cfg, s, m, w).0, PayloadChunks(w.blob.value, cfg.chunkSize);
            && (forall i :: 0 <= i < |chunks| ==> HoldsChunk(s', m, i, chunks[i], w.vectors.value[i], w.now))
            && (forall id :: id in s.index && NotOfJob(id, m.job, |chunks|) ==>
                  id in s'.index && s'.index[id] == s.index[id])
            && (cfg.idem ==> WithKey(m).key !in s.keys && s'.keys == s.keys + {WithKey(m).key})
            && s.retained <= s'.retained
            && (cfg.retention ==> RetainsJob(s'.retained[|s.retained|..], m.job, w.now))
  {
    var m', chunks := WithKey(m), PayloadChunks(w.blob.value, cfg.chunkSize);
    var s' := Process(cfg, s, m, w).0;
    StoreIndexed(cfg, s, m', chunks, w.vectors.value, w);
    assert s'.retained[|s.retained|..] == if cfg.retention then RetentionSet(m', w.now) else [];
    RetentionSetRetains(m', w.now);
    EntriesHold(s', s.index, m, chunks, w.vectors.value, w.now);
  }

  lemma RetentionSetRetains(m: QueueMessage, now: nat)
    ensures RetainsJob(RetentionSet(m, now), m.job, now)
  {
  }

  lemma StoreIndexed(cfg: Config, s: State, m: QueueMessage, chunks: seq<string>, vectors: seq<Vector>, w: World)
    requires |vectors| == |chunks| && Store(cfg, s, m, chunks, vectors, w).1.Indexed?
    ensures var s' := Store(cfg, s, m, chunks, vectors, w).0;
            && s'.index == Upserted(s.index, RecordsOf(m, chunks, vectors, w.now))
            && (cfg.idem ==> s'.keys == s.keys + {m.key})
            && s'.retained == s.retained + (if cfg.retention then RetentionSet(m, w.now) else [])
  {
    var rs := RetentionSet(m, w.now);
    assert rs[..|rs|] == rs && s.retained + [] == s.retained;
  }

  lemma {:induction false} EntriesHold(s': State, index: map<string, VectorRecord>, m: QueueMessage,
                                       chunks: seq<string>, vectors: seq<Vector>, now: nat)
    requires |vectors| == |chunks| && s'.index == Upserted(index, RecordsOf(WithKey(m), chunks, vectors, now))
    ensures forall i :: 0 <= i < |chunks| ==> HoldsChunk(s', m, i, chunks[i], vectors[i], now)
    ensures forall id :: id in index && NotOfJob(id, m.job, |chunks|) ==>
              id in s'.index && s'.index[id] == index[id]
  {
    var rs := RecordsOf(WithKey(m), chunks, vectors, now);
    RecordIdsDistinct(WithKey(m), chunks, vectors, now);
    UpsertedEntries(index, rs);
    forall i | 0 <= i < |chunks|
      ensures HoldsChunk(s', m, i, chunks[i], vectors[i], now)
    {
      assert rs[i] == RecordOf(WithKey(m), i, chunks[i], vectors[i], now);
      assert s'.index[rs[i].recordId] == rs[i];
    }
  }

  // ----- At most one upsert per key -----

  ghost predicate UpsertedOnce(s: State) {
    && (forall i :: 0 <= i < |s.upserts| ==> s.upserts[i] in s.keys)
    && (forall k :: k in s.keys ==> k in s.upserts)
    && (forall i, j :: 0 <= i < j < |s.upserts| ==> s.upserts[i] != s.upserts[j])
  }

  /** In a sequential run where Save never fails and keys do not expire, no key is upserted twice, and
      every saved key, on which later messages are skipped, was upserted. */
  lemma {:induction false} RunUpsertsOnce(cfg: Config, es: seq<Event>)
    requires cfg.idem && forall i :: 0 <= i < |es| && es[i].ProcessNext? ==> !es[i].world.saveFails
    ensures UpsertedOnce(Run(cfg, Init(), es))
  {
    if es != [] {
      RunUpsertsOnce(cfg, es[..|es| - 1]);
      var s, e := Run(cfg, Init(), es[..|es| - 1]), es[|es| - 1];
      if e.ProcessNext? && cfg.consumer && s.queue != [] {
        assert !es[|es| - 1].world.saveFails;
        ProcessUpserts(cfg, s.(queue := s.queue[1..]), s.queue[0], e.world);
      }
    }
  }

  lemma StoreUpserts(cfg: Config, s: State, m: QueueMessage, chunks: seq<string>, vectors: seq<Vector>, w: World)
    requires cfg.idem && !w.saveFails && |vectors| == |chunks|
    ensures var s' := Store(cfg, s, m, chunks, vectors, w).0;
            || (s'.upserts == s.upserts && s'.keys == s.keys)
            || (s'.upserts == s.upserts + [m.key] && s'.keys == s.keys + {m.key})
  {
  }

  /** One call adds at most one key to the upserts, and then a key that was not saved before. */
  lemma ProcessUpserts(cfg: Config, s: State, m: QueueMessage, w: World)
    requires cfg.idem && !w.saveFails
    ensures var s' := Process(cfg, s, m, w).0;
            || (s'.upserts == s.upserts && s'.keys == s.keys)
            || (WithKey(m).key !in s.keys
                && s'.upserts == s.upserts + [WithKey(m).key] && s'.keys == s.keys + {WithKey(m).key})
  {
    var r, m' := Process(cfg, s, m, w), WithKey(m);
    if r != RetryOrDlq(cfg, s, m', w) && !(r.0 == s && (r.1.Skipped? || r.1.Dropped?)) {
      StoreUpserts(cfg, s, m', PayloadChunks(w.blob.value, cfg.chunkSize), w.vectors.value, w);
    }
  }

  // ----- The queue drains -----

  ghost predicate AttemptsBounded(cfg: Config, ms: seq<QueueMessage>) {
    forall i :: 0 <= i < |ms| ==> 0 <= ms[i].attempt <= cfg.maxRetries
  }

  /** The calls the queued messages can still take. */
  function Budget(cfg: Config, ms: seq<QueueMessage>): int {
    if ms == [] then 0 else Budget(cfg, ms[..|ms| - 1]) + cfg.maxRetries + 1 - ms[|ms| - 1].attempt
  }

  lemma {:induction false} BudgetSnoc(cfg: Config, ms: seq<QueueMessage>, m: QueueMessage)
    ensures Budget(cfg, ms + [m]) == Budget(cfg, ms) + cfg.maxRetries + 1 - m.attempt
  {
    assert (ms + [m])[..|ms|] == ms;
  }

  lemma {:induction false} BudgetCons(cfg: Config, m: QueueMessage, ms: seq<QueueMessage>)
    ensures Budget(cfg, [m] + ms) == cfg.maxRetries + 1 - m.attempt + Budget(cfg, ms)
  {
    if ms == [] {
      assert [m] + ms == [] + [m];
      BudgetSnoc(cfg, [], m);
    } else {
      assert [m] + ms == ([m] + ms[..|ms| - 1]) + [ms[|ms| - 1]];
      BudgetSnoc(cfg, [m] + ms[..|ms| - 1], ms[|ms| - 1]);
      BudgetCons(cfg, m, ms[..|ms| - 1]);
    }
  }

  lemma {:induction false} BudgetBounds(cfg: Config, ms: seq<QueueMessage>)
    requires AttemptsBounded(cfg, ms)
    ensures |ms| <= Budget(cfg, ms) <= |ms| * (cfg.maxRetries + 1)
  {
    if ms != [] {
      BudgetBounds(cfg, ms[..|ms| - 1]);
    }
  }

  /** Every call on a nonempty queue lowers the budget, whatever the world answers. */
  lemma {:induction false} ProcessNextLowersBudget(cfg: Config, s: State, w: World)
    requires cfg.consumer && s.queue != [] && AttemptsBounded(cfg, s.queue)
    ensures var q := Step(cfg, s, ProcessNext(w)).queue;
            Budget(cfg, q) < Budget(cfg, s.queue) && AttemptsBounded(cfg, q)
  {
    var m, rest := s.queue[0], s.queue[1..];
    assert s.queue == [m] + rest;
    BudgetCons(cfg, m, rest);
    ProcessRoutes(cfg, s.(queue := rest), m, w);
    var m' := WithKey(m).(attempt := m.attempt + 1, enqueuedAt := w.retryAt);
    BudgetSnoc(cfg, rest, m');
    RequeueIsWithinBudget(cfg, s.(queue := rest), m, w);
    assert rest + [] == rest;
  }

  lemma RequeueIsWithinBudget(cfg: Config, s: State, m: QueueMessage, w: World)
    ensures Process(cfg, s, m, w).1.Requeued? ==> m.attempt + 1 <= cfg.maxRetries
  {
  }

  /** In every run from the empty state the queued attempts stay within the retry limit. */
  lemma {:induction false} RunBoundsAttempts(cfg: Config, es: seq<Event>)
    requires cfg.maxRetries >= 0
    ensures AttemptsBounded(cfg, Run(cfg, Init(), es).queue)
  {
    if es != [] {
      RunBoundsAttempts(cfg, es[..|es| - 1]);
      var s, e := Run(cfg, Init(), es[..|es| - 1]), es[|es| - 1];
      if e.ProcessNext? && cfg.consumer && s.queue != [] {
        ProcessNextLowersBudget(cfg, s, e.world);
      }
    }
  }

  /** After as many calls as the budget the queue is empty, so n fresh messages drain in n*(maxRetries+1) calls. */
  lemma {:induction false} QueueDrains(cfg: Config, s: State, es: seq<Event>)
    requires cfg.consumer && AttemptsBounded(cfg, s.queue)
    requires forall i :: 0 <= i < |es| ==> es[i].ProcessNext?
    ensures var q := Run(cfg, s, es).queue;
            && AttemptsBounded(cfg, q)
            && (q == [] || Budget(cfg, q) + |es| <= Budget(cfg, s.queue))
            && (|es| >= |s.queue| * (cfg.maxRetries + 1) ==> q == [])
  {
    BudgetBounds(cfg, s.queue);
    if es != [] {
      QueueDrains(cfg, s, es[..|es| - 1]);
      var t, e := Run(cfg, s, es[..|es| - 1]), es[|es| - 1];
      assert e.ProcessNext?;
      if t.queue != [] {
        ProcessNextLowersBudget(cfg, t, e.world);
      }
    }
    BudgetBounds(cfg, Run(cfg, s, es).queue);
  }

  // ----- Messages that always fail -----

  /** The world makes a valid, unsaved message of this job fail in one of the ways that are retried: no
      blob, no chunks, no embedding, a wrong count of vectors, or a failed upsert. */
  predicate FailsRetryably(cfg: Config, job: Job, w: World) {
    && !w.existsFails && !w.enqueueFails && !w.publishFails && w.retryAt != 0
    && (|| w.blob.Error? || PayloadChunks(w.blob.value, cfg.chunkSize) == []
        || w.vectors.Error? || |w.vectors.value| != |PayloadChunks(w.blob.value, cfg.chunkSize)|
        || (w.upsert.UpsertFailed? && w.now != 0 && job.checksum != "" && !HasEmptyVector(w.vectors.value)))
  }

  ghost predicate FailsAll(cfg: Config, batch: seq<QueueMessage>, e: Event) {
    e.ProcessNext? && forall i :: 0 <= i < |batch| ==> FailsRetryably(cfg, batch[i].job, e.world)
  }

  ghost predicate AllFail(cfg: Config, batch: seq<QueueMessage>, es: seq<Event>) {
    forall i :: 0 <= i < |es| ==> FailsAll(cfg, batch, es[i])
  }

  lemma AllFailFront(cfg: Config, batch: seq<QueueMessage>, es: seq<Event>)
    requires AllFail(cfg, batch, es) && es != []
    ensures AllFail(cfg, batch, es[..|es| - 1]) && FailsAll(cfg, batch, es[|es| - 1])
  {
  }

  function AtAttempt(m: QueueMessage, k: int, at: nat): QueueMessage {
    m.(attempt := k, enqueuedAt := at)
  }

  /** Such a failure is the retry decision on an unchanged queue, with nothing saved or counted as upserted. */
  lemma FailingProcess(cfg: Config, s: State, m: QueueMessage, w: World)
    requires AllSet(cfg) && ValidMessage(m) && m.key != "" && m.key !in s.keys && FailsRetryably(cfg, m.job, w)
    ensures var (s', e) := Process(cfg, s, m, w);
            && s'.keys == s.keys && s'.upserts == s.upserts
            && (m.attempt < cfg.maxRetries ==> e == Requeued) && (m.attempt >= cfg.maxRetries ==> e == DeadLettered)
  {
    if ReachesStore(cfg, s, m, w) {
      RecordsValidIff(m, w.blob.value, cfg.chunkSize, w.vectors.value, w.now);
    }
  }

  /** One such call moves the head to the back with one more attempt, or to the dead-letter queue. */
  lemma FailingStep(cfg: Config, s: State, w: World)
    requires AllSet(cfg) && s.queue != [] && FailsRetryably(cfg, s.queue[0].job, w)
    requires ValidMessage(s.queue[0]) && s.queue[0].key != "" && s.queue[0].key !in s.keys
    ensures var m, s' := s.queue[0], Step(cfg, s, ProcessNext(w));
            && s'.keys == s.keys && s'.upserts == s.upserts
            && (m.attempt < cfg.maxRetries ==>
                  s'.queue == s.queue[1..] + [AtAttempt(m, m.attempt + 1, w.retryAt)] && s'.dlq == s.dlq)
            && (m.attempt >= cfg.maxRetries ==> s'.queue == s.queue[1..] && s'.dlq == s.dlq + [m])
  {
    var m, t := s.queue[0], s.(queue := s.queue[1..]);
    FailingProcess(cfg, t, m, w);
    ProcessRoutes(cfg, t, m, w);
  }

  /** The messages at attempt k. */
  function AtK(ms: seq<QueueMessage>, k: int): (r: seq<QueueMessage>)
    ensures |r| == |ms| && forall i :: 0 <= i < |ms| ==> r[i] == ms[i].(attempt := k)
  {
    seq(|ms|, i requires 0 <= i < |ms| => ms[i].(attempt := k))
  }

  /** r calls into the round at attempt k: the rest of the batch, then what was requeued. */
  function ExpectedQueue(cfg: Config, batch: seq<QueueMessage>, k: int, r: nat): seq<QueueMessage>
    requires r <= |batch|
  {
    AtK(batch[r..], k) + if k < cfg.maxRetries then AtK(batch[..r], k + 1) else []
  }

  function ExpectedDead(cfg: Config, batch: seq<QueueMessage>, k: int, r: nat): seq<QueueMessage>
    requires r <= |batch|
  {
    if k < cfg.maxRetries then [] else AtK(batch[..r], k)
  }

  /** The same message up to the time it was enqueued. */
  predicate SameButTime(m: QueueMessage, m0: QueueMessage) {
    m == m0.(enqueuedAt := m.enqueuedAt) && m.enqueuedAt != 0
  }

  ghost predicate Match(ms: seq<QueueMessage>, ms0: seq<QueueMessage>) {
    |ms| == |ms0| && forall i :: 0 <= i < |ms| ==> SameButTime(ms[i], ms0[i])
  }

  ghost predicate MidRound(cfg: Config, batch: seq<QueueMessage>, k: int, r: nat, s: State, s0: State) {
    && r <= |batch| && s.keys == s0.keys && s.upserts == s0.upserts
    && Match(s.queue, ExpectedQueue(cfg, batch, k, r))
    && s0.dlq <= s.dlq && Match(s.dlq[|s0.dlq|..], ExpectedDead(cfg, batch, k, r))
  }

  ghost predicate Pending(batch: seq<QueueMessage>, s0: State) {
    && s0.queue == batch
    && forall i :: 0 <= i < |batch| ==>
          ValidMessage(batch[i]) && batch[i].attempt == 0 && batch[i].key != "" && batch[i].key !in s0.keys
  }

  lemma ExpectedStep(cfg: Config, batch: seq<QueueMessage>, k: int, r: nat)
    requires r < |batch|
    ensures var q := ExpectedQueue(cfg, batch, k, r);
            && q != [] && q[0] == batch[r].(attempt := k)
            && ExpectedQueue(cfg, batch, k, r + 1) ==
               q[1..] + (if k < cfg.maxRetries then [batch[r].(attempt := k + 1)] else [])
            && ExpectedDead(cfg, batch, k, r + 1) ==
               ExpectedDead(cfg, batch, k, r) + (if k < cfg.maxRetries then [] else [batch[r].(attempt := k)])
  {
    assert AtK(batch[r..], k)[1..] == AtK(batch[r + 1..], k);
    assert AtK(batch[..r + 1], k + 1) == AtK(batch[..r], k + 1) + [batch[r].(attempt := k + 1)];
    assert AtK(batch[..r + 1], k) == AtK(batch[..r], k) + [batch[r].(attempt := k)];
  }

  lemma MatchMoves(ms: seq<QueueMessage>, ms0: seq<QueueMessage>, m: QueueMessage, m0: QueueMessage)
    requires Match(ms, ms0)
    ensures SameButTime(m, m0) ==> Match(ms + [m], ms0 + [m0])
    ensures ms != [] ==> Match(ms[1..], ms0[1..])
  {
  }

  lemma MidRoundStep(cfg: Config, batch: seq<QueueMessage>, k: int, r: nat, s: State, s0: State, e: Event)
    requires AllSet(cfg) && FailsAll(cfg, batch, e) && 0 <= k <= cfg.maxRetries && r < |batch|
    requires Pending(batch, s0) && MidRound(cfg, batch, k, r, s, s0)
    ensures MidRound(cfg, batch, k, r + 1, Step(cfg, s, e), s0)
  {
    var w, s', q := e.world, Step(cfg, s, e), ExpectedQueue(cfg, batch, k, r);
    ExpectedStep(cfg, batch, k, r);
    var m := s.queue[0];
    assert SameButTime(m, q[0]);
    assert FailsRetryably(cfg, batch[r].job, w);
    FailingStep(cfg, s, w);
    MatchMoves(s.queue, q, m, q[0]);
    if k < cfg.maxRetries {
      MatchMoves(s.queue[1..], q[1..], AtAttempt(m, k + 1, w.retryAt), batch[r].(attempt := k + 1));
    } else {
      assert s'.dlq[|s0.dlq|..] == s.dlq[|s0.dlq|..] + [m];
      MatchMoves(s.dlq[|s0.dlq|..], ExpectedDead(cfg, batch, k, r), m, batch[r].(attempt := k));
    }
  }

  /** k rounds of n calls. */
  function Rounds(n: nat, k: int): nat
    decreases k
  {
    if k <= 0 then 0 else Rounds(n, k - 1) + n
  }

  lemma {:induction false} RoundsIsProduct(n: nat, k: nat)
    ensures Rounds(n, k) == n * k
  {
    if k > 0 {
      RoundsIsProduct(n, k - 1);
      assert n * k == n * (k - 1) + n;
    }
  }

  lemma {:induction false} RunThen(cfg: Config, s: State, a: seq<Event>, b: seq<Event>)
    ensures Run(cfg, s, a + b) == Run(cfg, Run(cfg, s, a), b)
  {
    if b == [] {
      assert a + b == a;
    } else {
      assert (a + b)[..|a + b| - 1] == a + b[..|b| - 1];
      RunThen(cfg, s, a, b[..|b| - 1]);
    }
  }

  lemma Halves(es: seq<Event>, i: nat)
    requires i <= |es|
    ensures es == es[..i] + es[i..]
  {
  }

  lemma AllFailHalves(cfg: Config, batch: seq<QueueMessage>, es: seq<Event>, i: nat)
    requires i <= |es| && AllFail(cfg, batch, es)
    ensures es == es[..i] + es[i..] && AllFail(cfg, batch, es[..i]) && AllFail(cfg, batch, es[i..])
  {
    Halves(es, i);
  }

  lemma {:induction false} RunHalves(cfg: Config, s: State, es: seq<Event>, i: nat)
    requires i < |es|
    ensures Run(cfg, s, es) == Run(cfg, Run(cfg, s, es[..i]), es[i..])
    ensures Run(cfg, s, es[..|es| - 1]) == Run(cfg, Run(cfg, s, es[..i]), es[i..][..|es[i..]| - 1])
  {
    var a, b := es[..i], es[i..];
    Halves(es, i);
    RunThen(cfg, s, a, b);
    assert es[..|es| - 1] == a + b[..|b| - 1];
    RunThen(cfg, s, a, b[..|b| - 1]);
  }

  /** Failing calls within one round. */
  lemma {:induction false} RoundProgress(cfg: Config, batch: seq<QueueMessage>, k: int, s: State, s0: State,
                                         es: seq<Event>)
    requires AllSet(cfg) && Pending(batch, s0) && AllFail(cfg, batch, es)
    requires 0 <= k <= cfg.maxRetries && |es| <= |batch| && MidRound(cfg, batch, k, 0, s, s0)
    ensures MidRound(cfg, batch, k, |es|, Run(cfg, s, es), s0)
  {
    if es != [] {
      var front, e := es[..|es| - 1], es[|es| - 1];
      var t := Run(cfg, s, front);
      AllFailFront(cfg, batch, es);
      RoundProgress(cfg, batch, k, s, s0, front);
      MidRoundStep(cfg, batch, k, |front|, t, s0, e);
      assert Run(cfg, s, es) == Step(cfg, t, e);
    }
  }

  /** After k full rounds of failing calls on n fresh messages. */
  lemma {:induction false} FailingRounds(cfg: Config, batch: seq<QueueMessage>, s0: State, es: seq<Event>, k: int)
    requires AllSet(cfg) && Pending(batch, s0) && AllFail(cfg, batch, es)
    requires 0 <= k <= cfg.maxRetries && |es| == Rounds(|batch|, k)
    ensures MidRound(cfg, batch, k, 0, Run(cfg, s0, es), s0)
    decreases k
  {
    if k == 0 {
      FirstRound(cfg, batch, s0);
    } else {
      var front, round := es[..|es| - |batch|], es[|es| - |batch|..];
      FailingRounds(cfg, batch, s0, front, k - 1);
      WholeRound(cfg, batch, k, Run(cfg, s0, front), s0, round);
      Halves(es, |front|);
      RunThen(cfg, s0, front, round);
    }
  }

  lemma FirstRound(cfg: Config, batch: seq<QueueMessage>, s0: State)
    requires cfg.maxRetries >= 0 && Pending(batch, s0)
    ensures MidRound(cfg, batch, 0, 0, s0, s0)
  {
    assert batch[0..] == batch;
  }

  lemma {:induction false} WholeRound(cfg: Config, batch: seq<QueueMessage>, k: int, s: State, s0: State,
                                      es: seq<Event>)
    requires AllSet(cfg) && Pending(batch, s0) && AllFail(cfg, batch, es)
    requires 0 < k <= cfg.maxRetries && |es| == |batch| && MidRound(cfg, batch, k - 1, 0, s, s0)
    ensures MidRound(cfg, batch, k, 0, Run(cfg, s, es), s0)
  {
    RoundProgress(cfg, batch, k - 1, s, s0, es);
    RoundsMeet(cfg, batch, k, Run(cfg, s, es), s0);
  }

  /** A full round at attempt k-1 is the start of the round at attempt k. */
  lemma RoundsMeet(cfg: Config, batch: seq<QueueMessage>, k: int, s: State, s0: State)
    requires 0 < k <= cfg.maxRetries && MidRound(cfg, batch, k - 1, |batch|, s, s0)
    ensures MidRound(cfg, batch, k, 0, s, s0)
  {
    assert batch[|batch|..] == [] && batch[..|batch|] == batch && batch[0..] == batch && batch[..0] == [];
    assert ExpectedQueue(cfg, batch, k - 1, |batch|) == ExpectedQueue(cfg, batch, k, 0);
  }

  /** The whole batch is in the dead-letter queue, once, in order, at attempt maxRetries, and nothing was indexed. */
  ghost predicate AllDead(cfg: Config, batch: seq<QueueMessage>, s: State, s0: State) {
    && s.queue == [] && s.upserts == s0.upserts && s0.dlq <= s.dlq
    && Match(s.dlq[|s0.dlq|..], AtK(batch, cfg.maxRetries))
  }

  /** The last round leaves the batch dead-lettered, and not a call earlier. */
  lemma LastRound(cfg: Config, batch: seq<QueueMessage>, r: nat, s: State, s0: State)
    requires MidRound(cfg, batch, cfg.maxRetries, r, s, s0)
    ensures r == |batch| ==> AllDead(cfg, batch, s, s0)
    ensures r < |batch| ==> s.queue != []
  {
    if r == |batch| {
      assert batch[..r] == batch;
    }
  }

  lemma {:induction false} FinalRound(cfg: Config, batch: seq<QueueMessage>, s: State, s0: State, last: seq<Event>)
    requires AllSet(cfg) && cfg.maxRetries >= 0 && batch != [] && Pending(batch, s0)
    requires AllFail(cfg, batch, last) && |last| == |batch| && MidRound(cfg, batch, cfg.maxRetries, 0, s, s0)
    ensures AllDead(cfg, batch, Run(cfg, s, last), s0)
    ensures Run(cfg, s, last[..|last| - 1]).queue != []
  {
    var n, k := |batch|, cfg.maxRetries;
    RoundProgress(cfg, batch, k, s, s0, last);
    LastRound(cfg, batch, n, Run(cfg, s, last), s0);
    AllFailFront(cfg, batch, last);
    RoundProgress(cfg, batch, k, s, s0, last[..n - 1]);
    LastRound(cfg, batch, n - 1, Run(cfg, s, last[..n - 1]), s0);
  }

  /** n fresh messages that fail every time are processed exactly maxRetries+1 times each: one call
      before the end the queue is not yet empty, and at the end all of them are dead-lettered. */
  lemma {:induction false} AlwaysFailingIsDeadLettered(cfg: Config, batch: seq<QueueMessage>, s0: State, es: seq<Event>)
    requires AllSet(cfg) && cfg.maxRetries >= 0 && batch != [] && Pending(batch, s0)
    requires AllFail(cfg, batch, es) && |es| == |batch| * (cfg.maxRetries + 1)
    ensures es != [] && Run(cfg, s0, es[..|es| - 1]).queue != []
    ensures AllDead(cfg, batch, Run(cfg, s0, es), s0)
  {
    RoundsIsProduct(|batch|, cfg.maxRetries + 1);
    var i := Rounds(|batch|, cfg.maxRetries);
    var rounds, last := es[..i], es[i..];
    AllFailHalves(cfg, batch, es, i);
    FailingRounds(cfg, batch, s0, rounds, cfg.maxRetries);
    FinalRound(cfg, batch, Run(cfg, s0, rounds), s0, last);
    RunHalves(cfg, s0, es, i);
  }

  // ----- Provenance -----

  /** The job was approved for a request of its own tenant. */
  predicate Cleared(s: State, job: Job) {
    job.decision == Approved && Approval(job.tenant, job) in s.ledger.approvals
  }

  ghost predicate FromCleared(s: State, ms: seq<QueueMessage>, cfg: Config) {
    forall i :: 0 <= i < |ms| ==> Cleared(s, ms[i].job) && ms[i].attempt <= cfg.maxRetries
  }

  /** A record states its job truthfully. */
  predicate RecordOfJob(r: VectorRecord, job: Job) {
    r.tenant == job.tenant && r.jobId == job.jobId && r.sourceUri == job.sourceUri && r.checksum == job.checksum
  }

  ghost predicate Provenance(cfg: Config, s: State) {
    FromCleared(s, s.queue, cfg) && FromCleared(s, s.dlq, cfg) && IndexVouched(cfg, s)
  }

  ghost predicate IndexVouched(cfg: Config, s: State) {
    forall id :: id in s.index ==>
      s.index[id].retryCount <= cfg.maxRetries && exists a :: a in s.ledger.approvals && Vouches(a, s.index[id])
  }

  /** An approval, for the job's own tenant, of the job this record states. */
  predicate Vouches(a: Approval, r: VectorRecord) {
    a.job.decision == Approved && a.requestTenant == a.job.tenant && RecordOfJob(r, a.job)
  }

  /** The queue is fed by EnqueueApprovedJob, by retries, and by replays of what was dead-lettered. */
  ghost predicate Fed(cfg: Config, es: seq<Event>) {
    forall i :: 0 <= i < |es| && es[i].Replay? ==> es[i].message in Run(cfg, Init(), es[..i]).dlq
  }

  lemma {:induction false} FedFront(cfg: Config, es: seq<Event>)
    requires es != [] && Fed(cfg, es)
    ensures Fed(cfg, es[..|es| - 1])
    ensures es[|es| - 1].Replay? ==> es[|es| - 1].message in Run(cfg, Init(), es[..|es| - 1]).dlq
  {
    var front := es[..|es| - 1];
    forall i | 0 <= i < |front| && front[i].Replay?
      ensures front[i].message in Run(cfg, Init(), front[..i]).dlq
    {
      assert front[..i] == es[..i] && es[i].Replay?;
    }
  }

  lemma {:induction false} UpsertedFrom(index: map<string, VectorRecord>, rs: seq<VectorRecord>, id: string)
    requires id in Upserted(index, rs)
    ensures (id in index && Upserted(index, rs)[id] == index[id]) || Upserted(index, rs)[id] in rs
  {
    if rs != [] && id != rs[|rs| - 1].recordId {
      UpsertedFrom(index, rs[..|rs| - 1], id);
    }
  }

  lemma StoreIndexes(cfg: Config, s: State, m: QueueMessage, chunks: seq<string>, vectors: seq<Vector>,
                     w: World, id: string)
    requires |vectors| == |chunks| && id in Store(cfg, s, m, chunks, vectors, w).0.index
    ensures var r := Store(cfg, s, m, chunks, vectors, w).0.index[id];
            || (id in s.index && r == s.index[id])
            || (RecordOfJob(r, m.job) && r.retryCount == m.attempt)
  {
    var rs := RecordsOf(m, chunks, vectors, w.now);
    var n := if w.upsert.UpsertOk? || w.upsert.written > |rs| then |rs| else w.upsert.written;
    assert rs[..|rs|] == rs;
    WrittenFrom(s.index, m, chunks, vectors, w.now, n, id);
  }

  lemma {:induction false} WrittenFrom(index: map<string, VectorRecord>, m: QueueMessage, chunks: seq<string>,
                                       vectors: seq<Vector>, now: nat, n: nat, id: string)
    requires |vectors| == |chunks| && n <= |chunks|
    ensures var after := Upserted(index, RecordsOf(m, chunks, vectors, now)[..n]);
            id in after ==> || (id in index && after[id] == index[id])
                            || (RecordOfJob(after[id], m.job) && after[id].retryCount == m.attempt)
  {
    var rs := RecordsOf(m, chunks, vectors, now)[..n];
    if id in Upserted(index, rs) {
      UpsertedFrom(index, rs, id);
    }
  }

  /** An index entry after a call is an old one or a record of the processed message. */
  lemma ProcessIndexes(cfg: Config, s: State, m: QueueMessage, w: World, id: string)
    requires id in Process(cfg, s, m, w).0.index
    ensures var r := Process(cfg, s, m, w).0.index[id];
            || (id in s.index && r == s.index[id])
            || (RecordOfJob(r, m.job) && r.retryCount == m.attempt)
  {
    if w.blob.Ok? && w.vectors.Ok? {
      var chunks, m' := PayloadChunks(w.blob.value, cfg.chunkSize), WithKey(m);
      if |w.vectors.value| == |chunks| && Process(cfg, s, m, w) == Store(cfg, s, m', chunks, w.vectors.value, w) {
        StoreIndexes(cfg, s, m', chunks, w.vectors.value, w, id);
      }
    }
  }

  /** The records a call adds are vouched for like those before it. */
  lemma NextIndexProvenance(cfg: Config, s: State, w: World)
    requires Provenance(cfg, s) && cfg.consumer && s.queue != []
    ensures IndexVouched(cfg, NextStep(cfg, s, w))
  {
    var s' := NextStep(cfg, s, w);
    var m, t := s.queue[0], s.(queue := s.queue[1..]);
    assert Cleared(s, m.job);
    ProcessRoutes(cfg, t, m, w);
    forall id | id in s'.index
      ensures s'.index[id].retryCount <= cfg.maxRetries &&
          exists a :: a in s'.ledger.approvals && Vouches(a, s'.index[id])
    {
      ProcessIndexes(cfg, t, m, w, id);
      if !(id in s.index && s'.index[id] == s.index[id]) {
        var a := Approval(m.job.tenant, m.job);
        assert a in s'.ledger.approvals && Vouches(a, s'.index[id]);
      }
    }
  }

  /** What a call puts back into a queue is cleared like what it took out. */
  lemma NextQueueProvenance(cfg: Config, s: State, w: World)
    requires Provenance(cfg, s) && cfg.consumer && s.queue != []
    ensures var s' := NextStep(cfg, s, w); FromCleared(s', s'.queue, cfg) && FromCleared(s', s'.dlq, cfg)
  {
    var s' := NextStep(cfg, s, w);
    var m, t := s.queue[0], s.(queue := s.queue[1..]);
    assert Cleared(s, m.job);
    ProcessRoutes(cfg, t, m, w);
    RequeueIsWithinBudget(cfg, t, m, w);
    forall i | 0 <= i < |s'.queue|
      ensures Cleared(s', s'.queue[i].job) && s'.queue[i].attempt <= cfg.maxRetries
    {
      if i < |t.queue| {
        assert s'.queue[i] == s.queue[i + 1];
      }
    }
  }

  lemma StepProvenance(cfg: Config, s: State, e: Event)
    requires cfg.maxRetries >= 0 && Provenance(cfg, s) && (e.Replay? ==> e.message in s.dlq)
    ensures Provenance(cfg, Step(cfg, s, e))
  {
    if e.ProcessNext? && cfg.consumer && s.queue != [] {
      NextIndexProvenance(cfg, s, e.world);
      NextQueueProvenance(cfg, s, e.world);
    }
  }

  /** In every such run each indexed record comes from a job approved for its own tenant, with a
      retry count within the limit. */
  lemma {:induction false} RunProvenance(cfg: Config, es: seq<Event>)
    requires cfg.maxRetries >= 0 && Fed(cfg, es)
    ensures Provenance(cfg, Run(cfg, Init(), es))
  {
    if es != [] {
      var front := es[..|es| - 1];
      FedFront(cfg, es);
      RunProvenance(cfg, front);
      StepProvenance(cfg, Run(cfg, Init(), front), es[|es| - 1]);
    }
  }

  /** An approval, for the job's own tenant, of the job this retention record is kept for. */
  predicate VouchesRetention(a: Approval, r: RetentionRecord) {
    && a.job.decision == Approved && a.requestTenant == a.job.tenant
    && r.tenant == a.job.tenant && r.jobId == a.job.jobId
  }

  ghost predicate KeptFor(approvals: set<Approval>, r: RetentionRecord) {
    exists a :: a in approvals && VouchesRetention(a, r)
  }

  ghost predicate RetentionVouched(s: State) {
    forall i :: 0 <= i < |s.retained| ==> KeptFor(s.ledger.approvals, s.retained[i])
  }

  lemma StoreRetains(cfg: Config, s: State, m: QueueMessage, chunks: seq<string>, vectors: seq<Vector>, w: World)
    requires |vectors| == |chunks|
    ensures var s' := Store(cfg, s, m, chunks, vectors, w).0;
            s.retained <= s'.retained && OfJob(s'.retained[|s.retained|..], m.job)
  {
    var s' := Store(cfg, s, m, chunks, vectors, w).0;
    if s'.retained != s.retained {
      var k := RetentionStop(RetentionSet(m, w.now), w.retentionFailures, 0);
      assert s'.retained == s.retained + RetentionSet(m, w.now)[..k];
      RetentionSetRetains(m, w.now);
    }
  }

  ghost predicate OfJob(rs: seq<RetentionRecord>, job: Job) {
    forall i :: 0 <= i < |rs| ==> rs[i].tenant == job.tenant && rs[i].jobId == job.jobId
  }

  /** The retention records a call adds are those of the processed message's job. */
  lemma ProcessRetains(cfg: Config, s: State, m: QueueMessage, w: World)
    ensures var s' := Process(cfg, s, m, w).0;
            s.retained <= s'.retained && OfJob(s'.retained[|s.retained|..], m.job)
  {
    var r, m' := Process(cfg, s, m, w), WithKey(m);
    if r != RetryOrDlq(cfg, s, m', w) && !(r.0 == s && (r.1.Skipped? || r.1.Dropped?)) {
      StoreRetains(cfg, s, m', PayloadChunks(w.blob.value, cfg.chunkSize), w.vectors.value, w);
    }
  }

  lemma NextRetentionVouched(cfg: Config, s: State, w: World)
    requires Provenance(cfg, s) && RetentionVouched(s) && cfg.consumer && s.queue != []
    ensures RetentionVouched(NextStep(cfg, s, w))
  {
    var m, t, s' := s.queue[0], s.(queue := s.queue[1..]), NextStep(cfg, s, w);
    assert Cleared(s, m.job);
    ProcessRoutes(cfg, t, m, w);
    ProcessRetains(cfg, t, m, w);
    forall i | 0 <= i < |s'.retained|
      ensures KeptFor(s'.ledger.approvals, s'.retained[i])
    {
      if i < |s.retained| {
        assert s'.retained[i] == s.retained[i];
      } else {
        assert s'.retained[i] == s'.retained[|s.retained|..][i - |s.retained|];
        assert VouchesRetention(Approval(m.job.tenant, m.job), s'.retained[i]);
      }
    }
  }

  lemma ApprovalsStay(s: State, s': State)
    requires RetentionVouched(s) && s'.retained == s.retained && s.ledger.approvals <= s'.ledger.approvals
    ensures RetentionVouched(s')
  {
    forall i | 0 <= i < |s'.retained|
      ensures KeptFor(s'.ledger.approvals, s'.retained[i])
    {
      assert KeptFor(s.ledger.approvals, s.retained[i]);
      var a :| a in s.ledger.approvals && VouchesRetention(a, s.retained[i]);
      assert a in s'.ledger.approvals;
    }
  }

  /** In every such run each retention record is of a job approved for its own tenant. */
  lemma {:induction false} RunRetentionProvenance(cfg: Config, es: seq<Event>)
    requires cfg.maxRetries >= 0 && Fed(cfg, es)
    ensures RetentionVouched(Run(cfg, Init(), es))
  {
    if es != [] {
      var front, e := es[..|es| - 1], es[|es| - 1];
      var s := Run(cfg, Init(), front);
      FedFront(cfg, es);
      RunRetentionProvenance(cfg, front);
      if e.ProcessNext? && cfg.consumer && s.queue != [] {
        RunProvenance(cfg, front);
        NextRetentionVouched(cfg, s, e.world);
      } else {
        ApprovalsStay(s, Run(cfg, Init(), es));
      }
    }
  }

  // ----- The ledger -----

  /** Every message that left a call, in order, with its exit. */
  function ExitsOf(cfg: Config, es: seq<Event>): seq<(Ticket, Exit)> {
    if es == [] then []
    else
      var front, e := es[..|es| - 1], es[|es| - 1];
      var s := Run(cfg, Init(), front);
      ExitsOf(cfg, front) +
      if !e.ProcessNext? || !cfg.consumer || s.queue == [] then []
      else [(TicketOf(s.queue[0]), Process(cfg, s.(queue := s.queue[1..]), s.queue[0], e.world).1)]
  }

  /** The tickets that left by such an exit. */
  function LeftBy(h: seq<(Ticket, Exit)>, such: Exit -> bool): multiset<Ticket> {
    if h == [] then multiset{}
    else LeftBy(h[..|h| - 1], such) + if such(h[|h| - 1].1) then multiset{h[|h| - 1].0} else multiset{}
  }

  lemma {:induction false} LeftBySnoc(h: seq<(Ticket, Exit)>, x: (Ticket, Exit), such: Exit -> bool)
    ensures LeftBy(h + [x], such) == LeftBy(h, such) + if such(x.1) then multiset{x.0} else multiset{}
  {
    assert (h + [x])[..|h|] == h;
  }

  function LeavesIndexed(): Exit -> bool {
    (e: Exit) => e.Indexed?
  }

  function LeavesSkipped(): Exit -> bool {
    (e: Exit) => e.Skipped?
  }

  function LeavesDropped(): Exit -> bool {
    (e: Exit) => e.Dropped?
  }

  /** The ledger's outcomes are what the exits of the run say, one by one. */
  ghost predicate LedgerTells(l: Ledger, h: seq<(Ticket, Exit)>) {
    && l.indexed == LeftBy(h, LeavesIndexed()) && l.skipped == LeftBy(h, LeavesSkipped())
    && l.dropped == LeftBy(h, LeavesDropped())
  }

  lemma {:induction false} AccountTells(l: Ledger, h: seq<(Ticket, Exit)>, t: Ticket, e: Exit)
    requires LedgerTells(l, h)
    ensures LedgerTells(Account(l, t, e), h + [(t, e)])
  {
    LeftBySnoc(h, (t, e), LeavesIndexed());
    LeftBySnoc(h, (t, e), LeavesSkipped());
    LeftBySnoc(h, (t, e), LeavesDropped());
  }

  lemma {:induction false} RunLedgerTells(cfg: Config, es: seq<Event>)
    ensures LedgerTells(Run(cfg, Init(), es).ledger, ExitsOf(cfg, es))
  {
    if es != [] {
      var front, e := es[..|es| - 1], es[|es| - 1];
      var s, h := Run(cfg, Init(), front), ExitsOf(cfg, front);
      RunLedgerTells(cfg, front);
      if e.ProcessNext? && cfg.consumer && s.queue != [] {
        var m, t := s.queue[0], s.(queue := s.queue[1..]);
        ProcessRoutes(cfg, t, m, e.world);
        AccountTells(s.ledger, h, TicketOf(m), Process(cfg, t, m, e.world).1);
      } else {
        assert h + [] == h;
      }
    }
  }

  // ----- What enters the queue -----

  /** Enqueueing accepts exactly a complete request for its own tenant's complete, approved job, and puts
      attempt 0 of it at the back, with its own id and key. */
  lemma EnqueueLaw(cfg: Config, s: State, meta: RequestMetadata, job: Job, at: nat, fails: bool)
    ensures var s' := Step(cfg, s, EnqueueJob(meta, job, at, fails));
            if && meta.tenant == job.tenant != "" && meta.requestId != "" && job.jobId != "" && job.sourceUri != ""
               && job.createdAt != 0 && job.decision == Approved && at != 0 && cfg.producer && !fails
            then
              && |s'.queue| == |s.queue| + 1 && s'.queue[..|s.queue|] == s.queue
              && s'.ledger.approvals == s.ledger.approvals + {Approval(job.tenant, job)}
              && var m := s'.queue[|s.queue|];
                 && m.job == job && m.attempt == 0 && m.enqueuedAt == at && m.key == IdempotencyKey(job)
                 && m.messageId == TaggedKey("msg", job.tenant, job.jobId, job.checksum)
            else s' == s
  {
    KeysAreNonempty(job);
  }

  /** A replay is accepted exactly when there is a producer that takes it and the message, with a time, is
      complete; it goes to the back of the queue as attempt 0, and the dead-letter queue keeps it. */
  lemma ReplayLaw(cfg: Config, s: State, m: QueueMessage, at: nat, fails: bool)
    ensures var s' := Step(cfg, s, Replay(m, at, fails));
            if cfg.producer && !fails && m.messageId != "" && ValidJob(m.job) && at != 0 then
              && |s'.queue| == |s.queue| + 1 && s'.queue[..|s.queue|] == s.queue && s'.dlq == s.dlq
              && s'.queue[|s.queue|] == QueueMessage(m.messageId, m.job, WithKey(m).key, 0, at)
            else s' == s
  {
  }

  /** A replayed message starts over: failing every time, it takes another maxRetries+1 calls to be
      dead-lettered again. */
  lemma {:induction false} ReplayStartsOver(cfg: Config, s: State, m: QueueMessage, at: nat, es: seq<Event>)
    requires AllSet(cfg) && cfg.maxRetries >= 0 && s.queue == [] && ValidMessage(m) && at != 0
    requires m.key != "" && m.key !in s.keys && |es| == cfg.maxRetries + 1 && AllFail(cfg, [m.(attempt := 0)], es)
    ensures var s0 := Step(cfg, s, Replay(m, at, false));
            && s0.queue == [m.(attempt := 0, enqueuedAt := at)] && s0.dlq == s.dlq
            && Run(cfg, s0, es[..|es| - 1]).queue != [] && AllDead(cfg, s0.queue, Run(cfg, s0, es), s0)
  {
    var s0, batch := Step(cfg, s, Replay(m, at, false)), [m.(attempt := 0, enqueuedAt := at)];
    assert s0.queue == [] + batch;
    forall i | 0 <= i < |es|
      ensures FailsAll(cfg, batch, es[i])
    {
      assert FailsAll(cfg, [m.(attempt := 0)], es[i]);
      assert FailsRetryably(cfg, [m.(attempt := 0)][0].job, es[i].world);
    }
    AlwaysFailingIsDeadLettered(cfg, batch, s0, es);
  }
}
