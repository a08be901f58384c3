/**
 Which way out ProcessMessage takes, for every configuration and every combination of answers, and
 what it has done by then.
 */
module IngestionExits {
  import opened Chunking
  import opened Contracts
  import opened IngestionWorker

  // ----- How far a message gets -----

  /** It is valid and not known as a duplicate. */
  predicate Starts(cfg: Config, s: State, m: QueueMessage, w: World) {
    ValidMessage(m) && (cfg.idem ==> !w.existsFails && WithKey(m).key !in s.keys)
  }

  /** Its payload is loaded and not blank. */
  predicate Loads(cfg: Config, w: World) {
    cfg.blobStore && w.blob.Ok? && PayloadChunks(w.blob.value, cfg.chunkSize) != []
  }

  /** There is one vector for each chunk. */
  predicate Embeds(cfg: Config, w: World) {
    && Loads(cfg, w) && cfg.embedder && w.vectors.Ok?
    && |w.vectors.value| == |PayloadChunks(w.blob.value, cfg.chunkSize)|
  }

  function Records(cfg: Config, m: QueueMessage, w: World): seq<VectorRecord>
    requires Embeds(cfg, w)
  {
    RecordsOf(WithKey(m), PayloadChunks(w.blob.value, cfg.chunkSize), w.vectors.value, w.now)
  }

  /** Its records are handed to the index. */
  predicate Upserts(cfg: Config, m: QueueMessage, w: World) {
    Embeds(cfg, w) && AllValid(Records(cfg, m, w)) && cfg.index
  }

  predicate Stores(cfg: Config, m: QueueMessage, w: World) {
    Upserts(cfg, m, w) && w.upsert.UpsertOk?
  }

  predicate Saves(cfg: Config, m: QueueMessage, w: World) {
    Stores(cfg, m, w) && !(cfg.idem && w.saveFails)
  }

  /** The blob, the embedding or the upsert failed: these are tried again. */
  predicate Retries(cfg: Config, m: QueueMessage, w: World) {
    || !Loads(cfg, w)
    || (cfg.embedder && !Embeds(cfg, w))
    || (Upserts(cfg, m, w) && w.upsert.UpsertFailed?)
  }

  /** The retention record at this position is valid and applied. */
  predicate Retained(m: QueueMessage, w: World, i: nat)
    requires i < 3
  {
    ValidRetention(RetentionSet(WithKey(m), w.now)[i]) && i !in w.retentionFailures
  }

  predicate AllRetained(cfg: Config, m: QueueMessage, w: World) {
    cfg.retention ==> Retained(m, w, 0) && Retained(m, w, 1) && Retained(m, w, 2)
  }

  // ----- The exits -----

  /** A message that does not start leaves at once, and nothing has changed. */
  lemma EarlyExits(cfg: Config, s: State, m: QueueMessage, w: World)
    ensures var (s', e) := Process(cfg, s, m, w);
            && (e == Dropped(InvalidMessage) <==> !ValidMessage(m))
            && (e == Dropped(ExistsFailed) <==> ValidMessage(m) && cfg.idem && w.existsFails)
            && (e == Skipped <==> ValidMessage(m) && cfg.idem && !w.existsFails && WithKey(m).key in s.keys)
            && (!Starts(cfg, s, m, w) ==> s' == s)
  {
    if Starts(cfg, s, m, w) && Embeds(cfg, w) {
      var chunks := PayloadChunks(w.blob.value, cfg.chunkSize);
      StoreExit(cfg, s, WithKey(m), chunks, w.vectors.value, w);
      assert Process(cfg, s, m, w) == Store(cfg, s, WithKey(m), chunks, w.vectors.value, w);
    }
  }

  lemma StoreExit(cfg: Config, s: State, m: QueueMessage, chunks: seq<string>, vectors: seq<Vector>, w: World)
    requires |vectors| == |chunks|
    ensures Store(cfg, s, m, chunks, vectors, w).1 !in {Skipped, Dropped(InvalidMessage), Dropped(ExistsFailed)}
  {
  }

  /** What the index holds after the records up to the failure were written. */
  function PartlyWritten(s: State, rs: seq<VectorRecord>, written: nat): map<string, VectorRecord> {
    Upserted(s.index, rs[..if written <= |rs| then written else |rs|])
  }

  lemma RetryIsDecided(cfg: Config, s: State, m: QueueMessage, w: World)
    requires Starts(cfg, s, m, w) && Retries(cfg, m, w)
    ensures !Upserts(cfg, m, w) ==> Process(cfg, s, m, w) == RetryOrDlq(cfg, s, WithKey(m), w)
    ensures Upserts(cfg, m, w) && w.upsert.UpsertFailed? ==>
              Process(cfg, s, m, w) ==
              RetryOrDlq(cfg, s.(index := PartlyWritten(s, Records(cfg, m, w), w.upsert.written)), WithKey(m), w)
  {
  }

  lemma RetryOrDlqExits(cfg: Config, s: State, m: QueueMessage, w: World)
    ensures var (s', e) := RetryOrDlq(cfg, s, m, w);
            var again := m.attempt < cfg.maxRetries && cfg.producer;
            && (e == Requeued <==> again && !w.enqueueFails)
            && (e == Dropped(RequeueFailed) <==> again && w.enqueueFails)
            && (e == DeadLettered <==> !again && cfg.dlq && !w.publishFails)
            && (e == Dropped(PublishFailed) <==> !again && cfg.dlq && w.publishFails)
            && (e == Dropped(NoDeadLetterQueue) <==> !again && !cfg.dlq)
            && s' == s.(queue := s'.queue, dlq := s'.dlq)
  {
  }

  /** A failure that is tried again leaves as the budget and the providers say. */
  lemma RetryExits(cfg: Config, s: State, m: QueueMessage, w: World)
    requires Starts(cfg, s, m, w) && Retries(cfg, m, w)
    ensures var (s', e) := Process(cfg, s, m, w);
            var again := m.attempt < cfg.maxRetries && cfg.producer;
            && (e == Requeued <==> again && !w.enqueueFails)
            && (e == Dropped(RequeueFailed) <==> again && w.enqueueFails)
            && (e == DeadLettered <==> !again && cfg.dlq && !w.publishFails)
            && (e == Dropped(PublishFailed) <==> !again && cfg.dlq && w.publishFails)
            && (e == Dropped(NoDeadLetterQueue) <==> !again && !cfg.dlq)
            && s'.keys == s.keys && s'.upserts == s.upserts && s'.retained == s.retained
            && (!Upserts(cfg, m, w) ==> s'.index == s.index)
            && (Upserts(cfg, m, w) && w.upsert.UpsertFailed? ==>
                  s'.index == PartlyWritten(s, Records(cfg, m, w), w.upsert.written))
  {
    RetryIsDecided(cfg, s, m, w);
    if Upserts(cfg, m, w) && w.upsert.UpsertFailed? {
      RetryOrDlqExits(cfg, s.(index := PartlyWritten(s, Records(cfg, m, w), w.upsert.written)), WithKey(m), w);
    } else {
      RetryOrDlqExits(cfg, s, WithKey(m), w);
    }
  }

  /** A message that neither is tried again nor stored is dropped, and nothing has changed. */
  lemma UnstoredExits(cfg: Config, s: State, m: QueueMessage, w: World)
    requires Starts(cfg, s, m, w) && !Retries(cfg, m, w) && !Stores(cfg, m, w)
    ensures var (s', e) := Process(cfg, s, m, w);
            && s' == s
            && (e == Dropped(NoEmbedder) <==> !cfg.embedder)
            && (e == Dropped(InvalidRecord) <==> Embeds(cfg, w) && !AllValid(Records(cfg, m, w)))
            && (e == Dropped(NoIndex) <==> Embeds(cfg, w) && AllValid(Records(cfg, m, w)) && !cfg.index)
            && e.Dropped?
  {
  }

  /** A stored message has its records in the index and its key among the upserts; the key is saved unless
      saving fails, and only then the retention records are applied, one after the other up to the
      first that is not. */
  lemma StoredExits(cfg: Config, s: State, m: QueueMessage, w: World)
    requires Starts(cfg, s, m, w) && Stores(cfg, m, w)
    ensures var (s', e) := Process(cfg, s, m, w);
            && s'.index == Upserted(s.index, Records(cfg, m, w)) && s'.upserts == s.upserts + [WithKey(m).key]
            && s'.queue == s.queue && s'.dlq == s.dlq
            && s'.keys == s.keys + (if cfg.idem && !w.saveFails then {WithKey(m).key} else {})
            && (e == Dropped(SaveFailed) <==> cfg.idem && w.saveFails)
            && (e == Dropped(SaveFailed) ==> s'.retained == s.retained)
            && (e == Indexed <==> Saves(cfg, m, w) && AllRetained(cfg, m, w))
  {
    var s1 := s.(index := Upserted(s.index, Records(cfg, m, w)), upserts := s.upserts + [WithKey(m).key]);
    StoredIsRetained(cfg, s, m, w);
    RetainExits(cfg, s1, m, w);
    RetainExits(cfg, s1.(keys := s1.keys + {WithKey(m).key}), m, w);
    assert s.keys + {} == s.keys;
  }

  lemma StoredIsRetained(cfg: Config, s: State, m: QueueMessage, w: World)
    requires Starts(cfg, s, m, w) && Stores(cfg, m, w)
    ensures var m' := WithKey(m);
            var s1 := s.(index := Upserted(s.index, Records(cfg, m, w)), upserts := s.upserts + [m'.key]);
            Process(cfg, s, m, w) ==
            if !cfg.idem then Retain(cfg, s1, m', w)
            else if w.saveFails then (s1, Dropped(SaveFailed))
            else Retain(cfg, s1.(keys := s1.keys + {m'.key}), m', w)
  {
  }

  lemma RetainExits(cfg: Config, s: State, m: QueueMessage, w: World)
    ensures var (s', e) := Retain(cfg, s, WithKey(m), w);
            && s' == s.(retained := s'.retained) && e != Dropped(SaveFailed)
            && (e == Indexed <==> AllRetained(cfg, m, w))
  {
    var rs := RetentionSet(WithKey(m), w.now);
    assert |rs| == 3;
    assert RetentionStop(rs, w.retentionFailures, 0) == 3 <==>
           Retained(m, w, 0) && Retained(m, w, 1) && Retained(m, w, 2);
  }

  /** Of the records that fail, the first decides how the message is dropped, and those before it stay. */
  lemma RetentionExits(cfg: Config, s: State, m: QueueMessage, w: World, i: nat)
    requires Starts(cfg, s, m, w) && Saves(cfg, m, w) && cfg.retention
    requires i < 3 && !Retained(m, w, i) && forall j: nat :: j < i ==> Retained(m, w, j)
    ensures var ((s', e), r) := (Process(cfg, s, m, w), RetentionSet(WithKey(m), w.now)[i]);
            && e == Dropped(if ValidRetention(r) then RetentionFailed else InvalidRetention)
            && s'.retained == s.retained + RetentionSet(WithKey(m), w.now)[..i]
  {
    var rs := RetentionSet(WithKey(m), w.now);
    forall j: nat | j < i
      ensures ValidRetention(rs[j]) && j !in w.retentionFailures
    {
      assert Retained(m, w, j);
    }
    StopsAt(rs, w.retentionFailures, i);
    assert Process(cfg, s, m, w) ==
           Store(cfg, s, WithKey(m), PayloadChunks(w.blob.value, cfg.chunkSize), w.vectors.value, w);
  }

  lemma {:induction false} StopsAt(rs: seq<RetentionRecord>, failures: set<nat>, i: nat)
    requires i < |rs| && (!ValidRetention(rs[i]) || i in failures)
    requires forall j: nat :: j < i ==> ValidRetention(rs[j]) && j !in failures
    ensures RetentionStop(rs, failures, 0) == i
  {
  }

  /** Every message takes one of these ways. */
  lemma EveryExit(cfg: Config, s: State, m: QueueMessage, w: World)
    ensures !Starts(cfg, s, m, w) || Retries(cfg, m, w) || Stores(cfg, m, w) ||
            Process(cfg, s, m, w).1 in {Dropped(NoEmbedder), Dropped(InvalidRecord), Dropped(NoIndex)}
    ensures !(Retries(cfg, m, w) && Stores(cfg, m, w))
  {
    if Starts(cfg, s, m, w) && !Retries(cfg, m, w) && !Stores(cfg, m, w) {
      UnstoredExits(cfg, s, m, w);
    }
  }
}
