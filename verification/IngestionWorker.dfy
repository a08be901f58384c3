/**
 `DeterministicAsyncWorker` over the in-memory queue: enqueue of approved jobs, processing with a
 retry budget, dead-lettering, replay, and duplicate suppression.  What the outside world answers
 during one call is a `World`; everything else is deterministic.
 */
module IngestionWorker {
  import opened Chunking
  import opened Identity
  import opened Contracts

  /** Limits, and which providers are set. */
  datatype Config = Config(
    maxRetries: int, chunkSize: int,
    producer: bool, consumer: bool, dlq: bool, blobStore: bool, embedder: bool,
    index: bool, idem: bool, retention: bool)

  /** NewDeterministicAsyncWorker's defaults. */
  function WithDefaults(c: Config): (d: Config)
    ensures d.maxRetries > 0 && d.chunkSize > 0 && d == c.(maxRetries := d.maxRetries, chunkSize := d.chunkSize)
    ensures (c.maxRetries > 0 ==> d.maxRetries == c.maxRetries) && (c.maxRetries <= 0 ==> d.maxRetries == 3)
    ensures (c.chunkSize > 0 ==> d.chunkSize == c.chunkSize) && (c.chunkSize <= 0 ==> d.chunkSize == 200)
  {
    c.(maxRetries := if c.maxRetries <= 0 then 3 else c.maxRetries,
       chunkSize := if c.chunkSize <= 0 then 200 else c.chunkSize)
  }

  datatype UpsertReply =
    | UpsertOk
    | UpsertFailed(written: nat)  // an error after some of the records were written

  /** The answers of the clock and the providers during one call. */
  datatype World = World(
    now: nat, retryAt: nat, existsFails: bool, blob: Reply<string>, vectors: Reply<seq<Vector>>,
    upsert: UpsertReply, saveFails: bool, retentionFailures: set<nat>, enqueueFails: bool, publishFails: bool)

  datatype DropReason =
    | InvalidMessage | ExistsFailed | NoEmbedder | InvalidRecord | NoIndex | SaveFailed
    | InvalidRetention | RetentionFailed | RequeueFailed | NoDeadLetterQueue | PublishFailed

  /** How a dequeued message leaves ProcessMessage. */
  datatype Exit = Indexed | Skipped | Requeued | DeadLettered | Dropped(reason: DropReason)

  /** What a message keeps through retries and replays. */
  datatype Ticket = Ticket(messageId: string, job: Job)

  function TicketOf(m: QueueMessage): Ticket {
    Ticket(m.messageId, m.job)
  }

  datatype Approval = Approval(requestTenant: string, job: Job)

  /** The whole run so far: every acceptance and every final outcome. */
  datatype Ledger = Ledger(
    entered: multiset<Ticket>, indexed: multiset<Ticket>, skipped: multiset<Ticket>, dropped: multiset<Ticket>,
    approvals: set<Approval>)

  datatype State = State(
    queue: seq<QueueMessage>, dlq: seq<QueueMessage>, index: map<string, VectorRecord>, keys: set<string>,
    retained: seq<RetentionRecord>, upserts: seq<string>, ledger: Ledger)

  function Init(): State {
    State([], [], map[], {}, [], [], Ledger(multiset{}, multiset{}, multiset{}, multiset{}, {}))
  }

  // ----- What one message turns into -----

  function IdempotencyKey(job: Job): string {
    TaggedKey("idem", job.tenant, job.jobId, job.checksum)
  }

  function MessageId(job: Job): string {
    TaggedKey("msg", job.tenant, job.jobId, job.checksum)
  }

  function WithKey(m: QueueMessage): QueueMessage {
    if m.key == "" then m.(key := IdempotencyKey(m.job)) else m
  }

  function RecordOf(m: QueueMessage, i: nat, chunk: string, vector: Vector, now: nat): VectorRecord {
    VectorRecord(
      RecordId(m.job.tenant, m.job.jobId, m.job.checksum, i), m.job.tenant, m.job.jobId, chunk, vector,
      map["tenant_id" := m.job.tenant, "job_id" := m.job.jobId,
          "source_uri" := m.job.sourceUri, "idempotency_key" := m.key],
      now, m.job.sourceUri, m.job.sourceUri, m.job.checksum, m.attempt)
  }

  function RecordsOf(m: QueueMessage, chunks: seq<string>, vectors: seq<Vector>, now: nat): (rs: seq<VectorRecord>)
    requires |vectors| == |chunks|
    ensures |rs| == |chunks|
    ensures forall i :: 0 <= i < |chunks| ==> rs[i] == RecordOf(m, i, chunks[i], vectors[i], now)
  {
    seq(|chunks|, i requires 0 <= i < |chunks| => RecordOf(m, i, chunks[i], vectors[i], now))
  }

  predicate AllValid(rs: seq<VectorRecord>) {
    forall i :: 0 <= i < |rs| ==> ValidRecord(rs[i])
  }

  /** A RecordID-keyed index after an upsert. */
  function Upserted(index: map<string, VectorRecord>, rs: seq<VectorRecord>): map<string, VectorRecord> {
    if rs == [] then index
    else Upserted(index, rs[..|rs| - 1])[rs[|rs| - 1].recordId := rs[|rs| - 1]]
  }

  const DAY: nat := 86400

  function RetentionSet(m: QueueMessage, now: nat): seq<RetentionRecord> {
    [RetentionRecord(m.job.tenant, m.job.jobId, RawBlob, m.job.sourceUri, now + 30 * DAY),
     RetentionRecord(m.job.tenant, m.job.jobId, ChunkClass, m.job.jobId, now + 90 * DAY),
     RetentionRecord(m.job.tenant, m.job.jobId, AuditEvent, "governance.ingestion.policy_decision", now + 365 * DAY)]
  }

  /** The first retention record from position i on that is not applied. */
  function RetentionStop(rs: seq<RetentionRecord>, failures: set<nat>, i: nat): (k: nat)
    requires i <= |rs|
    ensures i <= k <= |rs|
    ensures k < |rs| ==> !ValidRetention(rs[k]) || k in failures
    ensures forall p :: i <= p < k ==> ValidRetention(rs[p]) && p !in failures
    decreases |rs| - i
  {
    if i == |rs| || !ValidRetention(rs[i]) || i in failures then i else RetentionStop(rs, failures, i + 1)
  }

  // ----- ProcessMessage as a state transformer -----

  function RetryOrDlq(cfg: Config, s: State, m: QueueMessage, w: World): (State, Exit) {
    if m.attempt + 1 <= cfg.maxRetries && cfg.producer then
      if w.enqueueFails then (s, Dropped(RequeueFailed))
      else (s.(queue := s.queue + [m.(attempt := m.attempt + 1, enqueuedAt := w.retryAt)]), Requeued)
    else if cfg.dlq then
      if w.publishFails then (s, Dropped(PublishFailed)) else (s.(dlq := s.dlq + [m]), DeadLettered)
    else (s, Dropped(NoDeadLetterQueue))
  }

  function Retain(cfg: Config, s: State, m: QueueMessage, w: World): (State, Exit) {
    if !cfg.retention then (s, Indexed)
    else
      var rs := RetentionSet(m, w.now);
      var k := RetentionStop(rs, w.retentionFailures, 0);
      (s.(retained := s.retained + rs[..k]),
       if k == |rs| then Indexed else Dropped(if ValidRetention(rs[k]) then RetentionFailed else InvalidRetention))
  }

  /** From a full set of vectors on. */
  function Store(cfg: Config, s: State, m: QueueMessage, chunks: seq<string>, vectors: seq<Vector>,
                 w: World): (State, Exit)
    requires |vectors| == |chunks|
  {
    var rs := RecordsOf(m, chunks, vectors, w.now);
    if !AllValid(rs) then (s, Dropped(InvalidRecord))
    else if !cfg.index then (s, Dropped(NoIndex))
    else match w.upsert
      case UpsertFailed(n) =>
        RetryOrDlq(cfg, s.(index := Upserted(s.index, rs[..if n <= |rs| then n else |rs|])), m, w)
      case UpsertOk =>
        var s1 := s.(index := Upserted(s.index, rs), upserts := s.upserts + [m.key]);
        if !cfg.idem then Retain(cfg, s1, m, w)
        else if w.saveFails then (s1, Dropped(SaveFailed))
        else Retain(cfg, s1.(keys := s1.keys + {m.key}), m, w)
  }

  function Process(cfg: Config, s: State, m0: QueueMessage, w: World): (State, Exit) {
    var m := WithKey(m0);
    if !ValidMessage(m0) then (s, Dropped(InvalidMessage))
    else if cfg.idem && w.existsFails then (s, Dropped(ExistsFailed))
    else if cfg.idem && m.key in s.keys then (s, Skipped)
    else if !cfg.blobStore || w.blob.Error? then RetryOrDlq(cfg, s, m, w)
    else
      var chunks := PayloadChunks(w.blob.value, cfg.chunkSize);
      if chunks == [] then RetryOrDlq(cfg, s, m, w)
      else if !cfg.embedder then (s, Dropped(NoEmbedder))
      else if w.vectors.Error? || |w.vectors.value| != |chunks| then RetryOrDlq(cfg, s, m, w)
      else Store(cfg, s, m, chunks, w.vectors.value, w)
  }

  // ----- Steps -----

  datatype Event =
    | EnqueueJob(meta: RequestMetadata, job: Job, at: nat, fails: bool)
    | ProcessNext(world: World)
    | Replay(message: QueueMessage, replayedAt: nat, replayFails: bool)

  function FreshMessage(job: Job, at: nat): QueueMessage {
    QueueMessage(MessageId(job), job, IdempotencyKey(job), 0, at)
  }

  predicate Accepts(cfg: Config, meta: RequestMetadata, job: Job, at: nat, fails: bool) {
    && ValidMetadata(meta) && ValidJob(job) && meta.tenant == job.tenant && job.decision == Approved
    && ValidMessage(FreshMessage(job, at)) && cfg.producer && !fails
  }

  function Replayed(m: QueueMessage, at: nat): QueueMessage {
    WithKey(m.(attempt := 0, enqueuedAt := at))
  }

  predicate AcceptsReplay(cfg: Config, m: QueueMessage, at: nat, fails: bool) {
    cfg.producer && ValidMessage(Replayed(m, at)) && !fails
  }

  function Enter(s: State, m: QueueMessage): State {
    s.(queue := s.queue + [m], ledger := s.ledger.(entered := s.ledger.entered + multiset{TicketOf(m)}))
  }

  function Account(l: Ledger, t: Ticket, e: Exit): Ledger {
    match e
    case Indexed => l.(indexed := l.indexed + multiset{t})
    case Skipped => l.(skipped := l.skipped + multiset{t})
    case Requeued => l
    case DeadLettered => l
    case Dropped(_) => l.(dropped := l.dropped + multiset{t})
  }

  function EnqueueStep(cfg: Config, s: State, meta: RequestMetadata, job: Job, at: nat, fails: bool): State {
    if Accepts(cfg, meta, job, at, fails) then
      var s' := Enter(s, FreshMessage(job, at));
      s'.(ledger := s'.ledger.(approvals := s.ledger.approvals + {Approval(meta.tenant, job)}))
    else s
  }

  function NextStep(cfg: Config, s: State, w: World): State {
    if !cfg.consumer || s.queue == [] then s
    else
      var m := s.queue[0];
      var (s', e) := Process(cfg, s.(queue := s.queue[1..]), m, w);
      s'.(ledger := Account(s'.ledger, TicketOf(m), e))
  }

  function ReplayStep(cfg: Config, s: State, m: QueueMessage, at: nat, fails: bool): State {
    if AcceptsReplay(cfg, m, at, fails) then Enter(s, Replayed(m, at)) else s
  }

  function Step(cfg: Config, s: State, e: Event): State {
    match e
    case EnqueueJob(meta, job, at, fails) => EnqueueStep(cfg, s, meta, job, at, fails)
    case ProcessNext(w) => NextStep(cfg, s, w)
    case Replay(m, at, fails) => ReplayStep(cfg, s, m, at, fails)
  }

  function Run(cfg: Config, s: State, es: seq<Event>): State {
    if es == [] then s else Step(cfg, Run(cfg, s, es[..|es| - 1]), es[|es| - 1])
  }

  // ----- The worker -----

  /** InMemoryQueueAdapter. */
  class InMemoryQueue {
    var messages: seq<QueueMessage>
    var dlq: seq<QueueMessage>

    constructor ()
      ensures messages == [] && dlq == []
    {
      messages, dlq := [], [];
    }

    method Enqueue(m: QueueMessage)
      modifies this
      ensures messages == old(messages) + [m] && dlq == old(dlq)
    {
      messages := messages + [m];
    }

    /** Error is ErrQueueEmpty. */
    method Dequeue() returns (r: Reply<QueueMessage>)
      modifies this
      ensures dlq == old(dlq)
      ensures old(messages) == [] ==> r == Error && messages == []
      ensures old(messages) != [] ==> r.Ok? && [r.value] + messages == old(messages)
    {
      if |messages| == 0 {
        return Error;
      }
      r := Ok(messages[0]);
      messages := messages[1..];
    }

    method Publish(m: QueueMessage)
      modifies this
      ensures dlq == old(dlq) + [m] && messages == old(messages)
    {
      dlq := dlq + [m];
    }
  }

  class Worker {
    const cfg: Config
    const queue: InMemoryQueue
    var index: map<string, VectorRecord>
    var keys: set<string>
    var retained: seq<RetentionRecord>
    ghost var upserts: seq<string>
    ghost var ledger: Ledger

    /** The worker with its queue and stores as one value. */
    ghost function Value(): State
      reads this, queue
    {
      State(queue.messages, queue.dlq, index, keys, retained, upserts, ledger)
    }

    constructor (config: Config)
      ensures cfg == WithDefaults(config) && fresh(queue) && Value() == Init()
    {
      cfg := WithDefaults(config);
      queue := new InMemoryQueue();
      index, keys, retained := map[], {}, [];
      upserts, ledger := [], Init().ledger;
    }

    /** EnqueueApprovedJob; `at` is the clock, `enqueueFails` the producer's answer. */
    method EnqueueApprovedJob(meta: RequestMetadata, job: Job, at: nat, enqueueFails: bool)
      returns (r: Reply<QueueMessage>)
      modifies this, queue
      ensures Value() == Step(cfg, old(Value()), EnqueueJob(meta, job, at, enqueueFails))
      ensures r == if Accepts(cfg, meta, job, at, enqueueFails) then Ok(FreshMessage(job, at)) else Error
    {
      if !ValidMetadata(meta) { return Error; }
      if !ValidJob(job) { return Error; }
      if meta.tenant != job.tenant { return Error; }
      if job.decision != Approved { return Error; }
      var message := QueueMessage(MessageId(job), job, IdempotencyKey(job), 0, at);
      if !ValidMessage(message) { return Error; }
      if !cfg.producer { return Error; }
      if enqueueFails { return Error; }
      queue.Enqueue(message);
      ledger := ledger.(entered := ledger.entered + multiset{TicketOf(message)},
                        approvals := ledger.approvals + {Approval(meta.tenant, job)});
      return Ok(message);
    }

    /** ProcessNext; `Error` stands for an empty queue or a missing consumer. */
    method ProcessNext(w: World) returns (r: Reply<Exit>)
      modifies this, queue
      ensures Value() == Step(cfg, old(Value()), Event.ProcessNext(w))
      ensures r.Error? <==> !cfg.consumer || old(queue.messages) == []
    {
      if !cfg.consumer {
        return Error;
      }
      var message := queue.Dequeue();
      if message.Error? {
        return Error;
      }
      assert old(queue.messages)[0] == message.value && old(queue.messages)[1..] == queue.messages;
      var e := ProcessMessage(message.value, w);
      ledger := Account(ledger, TicketOf(message.value), e);
      return Ok(e);
    }

    /** ProcessMessage: checks, then loads, chunks, embeds and stores. */
    method ProcessMessage(m0: QueueMessage, w: World) returns (e: Exit)
      modifies this, queue
      ensures (Value(), e) == Process(cfg, old(Value()), m0, w)
    {
      if !ValidMessage(m0) {
        return Dropped(InvalidMessage);
      }
      var message := m0;
      if message.key == "" {
        message := message.(key := IdempotencyKey(message.job));
      }
      if cfg.idem {
        if w.existsFails {
          return Dropped(ExistsFailed);
        }
        if message.key in keys {
          return Skipped;
        }
      }
      if !cfg.blobStore || w.blob.Error? {
        e := RetryOrDeadLetter(message, w);
        return;
      }
      var chunks := ChunkPayload(w.blob.value, cfg.chunkSize);
      if |chunks| == 0 {
        e := RetryOrDeadLetter(message, w);
        return;
      }
      if !cfg.embedder {
        return Dropped(NoEmbedder);
      }
      if w.vectors.Error? || |w.vectors.value| != |chunks| {
        e := RetryOrDeadLetter(message, w);
        return;
      }
      e := StoreChunks(message, chunks, w.vectors.value, w);
    }

    /** The record loop, the upsert and what follows it. */
    method StoreChunks(message: QueueMessage, chunks: seq<string>, vectors: seq<Vector>, w: World) returns (e: Exit)
      requires |vectors| == |chunks|
      modifies this, queue
      ensures (Value(), e) == Store(cfg, old(Value()), message, chunks, vectors, w)
    {
      ghost var all := RecordsOf(message, chunks, vectors, w.now);
      var records: seq<VectorRecord> := [];
      for i := 0 to |chunks|
        invariant records == all[..i] && AllValid(records)
      {
        var record := RecordOf(message, i, chunks[i], vectors[i], w.now);
        assert record == all[i];
        if !ValidRecord(record) {
          return Dropped(InvalidRecord);
        }
        records := records + [record];
      }
      assert records == all;
      if !cfg.index {
        return Dropped(NoIndex);
      }
      if w.upsert.UpsertFailed? {
        index := Upserted(index, records[..if w.upsert.written <= |records| then w.upsert.written else |records|]);
        e := RetryOrDeadLetter(message, w);
        return;
      }
      index, upserts := Upserted(index, records), upserts + [message.key];
      if cfg.idem {
        if w.saveFails {
          return Dropped(SaveFailed);
        }
        keys := keys + {message.key};
      }
      e := ApplyRetention(message, w);
    }

    /** The retention loop: applies the records up to the first invalid or failing one. */
    method ApplyEach(rs: seq<RetentionRecord>, failures: set<nat>) returns (k: nat)
      modifies this`retained
      ensures k == RetentionStop(rs, failures, 0) && retained == old(retained) + rs[..k]
    {
      k := 0;
      while k < |rs|
        invariant k <= |rs| && RetentionStop(rs, failures, k) == RetentionStop(rs, failures, 0)
        invariant retained == old(retained) + rs[..k]
      {
        if !ValidRetention(rs[k]) || k in failures {
          return;
        }
        retained := retained + [rs[k]];
        k := k + 1;
      }
    }

    /** The retention stage. */
    method ApplyRetention(message: QueueMessage, w: World) returns (e: Exit)
      modifies this`retained
      ensures (Value(), e) == Retain(cfg, old(Value()), message, w)
    {
      if !cfg.retention {
        return Indexed;
      }
      var retentionSet := RetentionSet(message, w.now);
      var k := ApplyEach(retentionSet, w.retentionFailures);
      if k < |retentionSet| {
        return Dropped(if ValidRetention(retentionSet[k]) then RetentionFailed else InvalidRetention);
      }
      return Indexed;
    }

    /** retryOrDLQ. */
    method RetryOrDeadLetter(message: QueueMessage, w: World) returns (e: Exit)
      modifies queue
      ensures (Value(), e) == RetryOrDlq(cfg, old(Value()), message, w)
    {
      var nextAttempt := message.attempt + 1;
      if nextAttempt <= cfg.maxRetries && cfg.producer {
        if w.enqueueFails {
          return Dropped(RequeueFailed);
        }
        queue.Enqueue(message.(attempt := nextAttempt, enqueuedAt := w.retryAt));
        return Requeued;
      }
      if cfg.dlq {
        if w.publishFails {
          return Dropped(PublishFailed);
        }
        queue.Publish(message);
        return DeadLettered;
      }
      return Dropped(NoDeadLetterQueue);
    }

    /** ReplayDLQMessage. */
    method ReplayDLQMessage(m: QueueMessage, at: nat, enqueueFails: bool) returns (ok: bool)
      modifies this, queue
      ensures Value() == Step(cfg, old(Value()), Replay(m, at, enqueueFails))
      ensures ok == AcceptsReplay(cfg, m, at, enqueueFails)
    {
      if !cfg.producer {
        return false;
      }
      var message := m.(attempt := 0, enqueuedAt := at);
      if message.key == "" {
        message := message.(key := IdempotencyKey(message.job));
      }
      if !ValidMessage(message) {
        return false;
      }
      if enqueueFails {
        return false;
      }
      queue.Enqueue(message);
      ledger := ledger.(entered := ledger.entered + multiset{TicketOf(message)});
      return true;
    }
  }
}
