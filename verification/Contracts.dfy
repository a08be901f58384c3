/**
 The records that cross component boundaries, with the checks their Validate functions make.
 A time is a natural number and 0 is Go's zero time.
 */
module Contracts {
  import opened Text

  datatype Reply<+T> = Ok(value: T) | Error

  /** Components of an embedding. */
  type Vector = seq<real>

  datatype Status = Queued | Approved | Quarantine | Rejected | Indexing | IndexedStatus | Failed

  datatype Job = Job(
    jobId: string, tenant: string, sourceUri: string, checksum: string, decision: Status, createdAt: nat)

  /** IngestionJob.Validate; the checksum is not looked at. */
  predicate ValidJob(j: Job) {
    j.tenant != "" && j.jobId != "" && j.sourceUri != "" && j.createdAt != 0
  }

  datatype QueueMessage = QueueMessage(
    messageId: string, job: Job, key: string, attempt: int, enqueuedAt: nat)

  predicate ValidMessage(m: QueueMessage) {
    m.messageId != "" && ValidJob(m.job) && m.attempt >= 0 && m.enqueuedAt != 0
  }

  datatype RequestMetadata = RequestMetadata(tenant: string, requestId: string)

  predicate ValidMetadata(m: RequestMetadata) {
    m.tenant != "" && m.requestId != ""
  }

  datatype VectorRecord = VectorRecord(
    recordId: string, tenant: string, jobId: string, chunkText: string, embedding: Vector,
    metadata: map<string, string>, indexedAt: nat, sourceUri: string, objectKey: string,
    checksum: string, retryCount: int)

  predicate ValidRecord(r: VectorRecord) {
    && r.recordId != "" && r.tenant != "" && r.jobId != "" && TrimSpace(r.chunkText) != ""
    && r.embedding != [] && r.indexedAt != 0 && r.sourceUri != "" && r.checksum != "" && r.retryCount >= 0
  }

  datatype RetentionClass = RawBlob | ChunkClass | AuditEvent

  datatype RetentionRecord = RetentionRecord(
    tenant: string, jobId: string, kind: RetentionClass, resource: string, retentionUntil: nat)

  /** RetentionRecord.Validate; unlike the other checks it trims the resource first. */
  predicate ValidRetention(r: RetentionRecord) {
    r.tenant != "" && r.jobId != "" && TrimSpace(r.resource) != "" && r.retentionUntil != 0
  }
}
