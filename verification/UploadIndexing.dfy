/**
 The upload path's `indexPayloadArtifacts` from extracted text to records, with the embedding
 client's `Embed` in between: chunks and vectors stay aligned and record ids stay distinct.
 */
module UploadIndexing {
  import opened Sequences
  import opened Text
  import opened Chunking
  import opened Identity
  import opened Contracts

  /** One uploaded object after extraction. */
  datatype Artifact = Artifact(objectKey: string, text: string, sourceUri: string, metadata: map<string, string>)

  datatype PendingChunk = PendingChunk(keyIndex: nat, chunkIndex: nat, text: string)

  datatype Upload = Upload(
    jobId: string, tenant: string, checksum: string, chunkSize: int, overlapWords: int, artifacts: seq<Artifact>)

  // ----- Embed -----

  /** What Embed sends: the chunks trimmed, without the blank ones. */
  function EmbedInput(chunks: seq<string>): seq<string> {
    if chunks == [] then []
    else EmbedInput(chunks[..|chunks| - 1]) +
         if TrimSpace(chunks[|chunks| - 1]) != "" then [TrimSpace(chunks[|chunks| - 1])] else []
  }

  predicate NoneEmpty(vs: seq<Vector>) {
    forall i :: 0 <= i < |vs| ==> vs[i] != []
  }

  /** The service answered with one nonempty vector per input. */
  predicate Answers(reply: Reply<seq<Vector>>, n: nat) {
    reply.Ok? && |reply.value| == n && NoneEmpty(reply.value)
  }

  /** EmbeddingClient.Embed; `service` is the remote model. */
  method Embed(tenant: string, chunks: seq<string>, service: seq<string> -> Reply<seq<Vector>>)
    returns (r: Reply<seq<Vector>>)
    ensures var input := EmbedInput(chunks);
            r == if tenant != "" && input != [] && Answers(service(input), |input|) then service(input) else Error
  {
    if tenant == "" || |chunks| == 0 {
      return Error;
    }
    var input: seq<string> := [];
    for i := 0 to |chunks|
      invariant input == EmbedInput(chunks[..i])
    {
      var trimmed := TrimSpace(chunks[i]);
      assert chunks[..i + 1][..i] == chunks[..i];
      if trimmed != "" {
        input := input + [trimmed];
      }
    }
    assert chunks[..|chunks|] == chunks;
    if |input| == 0 {
      return Error;
    }
    var vectors := service(input);
    if vectors.Error? || |vectors.value| != |input| {
      return Error;
    }
    for i := 0 to |vectors.value|
      invariant NoneEmpty(vectors.value[..i])
    {
      if |vectors.value[i]| == 0 {
        assert !NoneEmpty(vectors.value);
        return Error;
      }
    }
    assert vectors.value[..|vectors.value|] == vectors.value;
    return vectors;
  }

  predicate Clean(chunks: seq<string>) {
    forall i :: 0 <= i < |chunks| ==> chunks[i] != "" && TrimSpace(chunks[i]) == chunks[i]
  }

  /** Clean chunks pass the filter unchanged: nothing is dropped or shifted. */
  lemma {:induction false} CleanInputUnchanged(chunks: seq<string>)
    requires Clean(chunks)
    ensures EmbedInput(chunks) == chunks
  {
    if chunks != [] {
      CleanInputUnchanged(chunks[..|chunks| - 1]);
      assert chunks == chunks[..|chunks| - 1] + [chunks[|chunks| - 1]];
    }
  }

  /** What is sent is each chunk, trimmed, in order, without the blank ones. */
  lemma {:induction false} EmbedInputMeaning(a: seq<string>, c: string, b: seq<string>)
    ensures EmbedInput(a + [c] + b) ==
            EmbedInput(a) + (if TrimSpace(c) != "" then [TrimSpace(c)] else []) + EmbedInput(b)
  {
    if b == [] {
      assert a + [c] + b == a + [c] && (a + [c])[..|a|] == a;
    } else {
      var all := a + [c] + b;
      assert all[..|all| - 1] == a + [c] + b[..|b| - 1];
      EmbedInputMeaning(a, c, b[..|b| - 1]);
    }
  }

  // ----- Pending chunks -----

  function PendingOfChunks(keyIndex: nat, chunks: seq<string>): (ps: seq<PendingChunk>)
    ensures |ps| == |chunks|
    ensures forall i :: 0 <= i < |chunks| ==> ps[i] == PendingChunk(keyIndex, i, chunks[i])
  {
    seq(|chunks|, i requires 0 <= i < |chunks| => PendingChunk(keyIndex, i, chunks[i]))
  }

  function PendingOfArtifact(u: Upload, k: nat): seq<PendingChunk>
    requires k < |u.artifacts|
  {
    if TrimSpace(u.artifacts[k].objectKey) == "" then []
    else PendingOfChunks(k, TextChunks(u.artifacts[k].text, u.chunkSize, u.overlapWords))
  }

  /** The pending chunks of the first n artifacts. */
  function PendingUpTo(u: Upload, n: nat): seq<PendingChunk>
    requires n <= |u.artifacts|
  {
    if n == 0 then [] else PendingUpTo(u, n - 1) + PendingOfArtifact(u, n - 1)
  }

  function PendingTexts(ps: seq<PendingChunk>): (ts: seq<string>)
    ensures |ts| == |ps| && forall i :: 0 <= i < |ps| ==> ts[i] == ps[i].text
  {
    seq(|ps|, i requires 0 <= i < |ps| => ps[i].text)
  }

  /** Pending chunks come in strictly increasing (object, chunk) order and are clean. */
  ghost predicate Ordered(ps: seq<PendingChunk>, n: nat) {
    && (forall i :: 0 <= i < |ps| ==> ps[i].keyIndex < n && ps[i].text != "" && TrimSpace(ps[i].text) == ps[i].text)
    && (forall i, j :: 0 <= i < j < |ps| ==>
          ps[i].keyIndex < ps[j].keyIndex || (ps[i].keyIndex == ps[j].keyIndex && ps[i].chunkIndex < ps[j].chunkIndex))
  }

  lemma {:induction false} PendingOrdered(u: Upload, n: nat)
    requires n <= |u.artifacts|
    ensures Ordered(PendingUpTo(u, n), n)
  {
    if n > 0 {
      PendingOrdered(u, n - 1);
      var more := PendingOfArtifact(u, n - 1);
      forall i | 0 <= i < |more|
        ensures more[i].keyIndex == n - 1 && more[i].chunkIndex == i
        ensures more[i].text != "" && TrimSpace(more[i].text) == more[i].text
      {
        ChunkShape(u.artifacts[n - 1].text, TextLimit(u.chunkSize),
                   if u.overlapWords < 0 then 0 else u.overlapWords, i);
      }
    }
  }

  /** p is a chunk of an object whose key is not blank, at the upload's chunk size and overlap. */
  predicate IsChunkOf(u: Upload, p: PendingChunk) {
    && p.keyIndex < |u.artifacts| && TrimSpace(u.artifacts[p.keyIndex].objectKey) != ""
    && var chunks := TextChunks(u.artifacts[p.keyIndex].text, u.chunkSize, u.overlapWords);
       p.chunkIndex < |chunks| && p.text == chunks[p.chunkIndex]
  }

  lemma OfChunks(k: nat, chunks: seq<string>, p: PendingChunk)
    ensures p in PendingOfChunks(k, chunks) <==>
            p.keyIndex == k && p.chunkIndex < |chunks| && p.text == chunks[p.chunkIndex]
  {
    if p.keyIndex == k && p.chunkIndex < |chunks| && p.text == chunks[p.chunkIndex] {
      assert PendingOfChunks(k, chunks)[p.chunkIndex] == p;
    }
  }

  /** Pending is every chunk of every object whose key is not blank. */
  lemma {:induction false} PendingMeaning(u: Upload, n: nat, p: PendingChunk)
    requires n <= |u.artifacts|
    ensures p in PendingUpTo(u, n) <==> p.keyIndex < n && IsChunkOf(u, p)
  {
    if n > 0 {
      var before, more, chunk := PendingUpTo(u, n - 1), PendingOfArtifact(u, n - 1), IsChunkOf(u, p);
      assert p in before <==> p.keyIndex < n - 1 && chunk by {
        PendingMeaning(u, n - 1, p);
      }
      assert p in more <==> p.keyIndex == n - 1 && chunk by {
        OfArtifact(u, n - 1, p);
      }
      assert p in before + more <==> p.keyIndex < n && chunk by {
        InConcat(before, more, p);
      }
      assert PendingUpTo(u, n) == before + more;
    }
  }

  lemma {:induction false} OfArtifact(u: Upload, k: nat, p: PendingChunk)
    requires k < |u.artifacts|
    ensures p in PendingOfArtifact(u, k) <==> p.keyIndex == k && IsChunkOf(u, p)
  {
    OfChunks(k, TextChunks(u.artifacts[k].text, u.chunkSize, u.overlapWords), p);
  }

  /** What each record of an upload must be: chunk i with vector i under its own id. */
  function UploadRecord(u: Upload, p: PendingChunk, vector: Vector, now: nat): VectorRecord
    requires p.keyIndex < |u.artifacts|
  {
    var a := u.artifacts[p.keyIndex];
    VectorRecord(UploadRecordId(u.jobId, p.keyIndex, p.chunkIndex), u.tenant, u.jobId, p.text, vector, a.metadata, now,
                 a.sourceUri, TrimSpace(a.objectKey), u.checksum, 0)
  }

  /** Record i is chunk i of the upload, and carries the vector the service gave for that very text. */
  ghost predicate Aligned(u: Upload, rs: seq<VectorRecord>, service: seq<string> -> Reply<seq<Vector>>, now: nat) {
    var ps := PendingUpTo(u, |u.artifacts|);
    var reply := service(PendingTexts(ps));
    && |rs| == |ps| && (ps != [] ==> Answers(reply, |ps|))
    && (forall i :: 0 <= i < |ps| ==>
          ps[i].keyIndex < |u.artifacts| && Carries(u, rs[i], ps[i], reply.value[i], now))
  }

  /** The record is that chunk of that object, with this vector, under the upload's own data. */
  ghost predicate Carries(u: Upload, r: VectorRecord, p: PendingChunk, vector: Vector, now: nat)
    requires p.keyIndex < |u.artifacts|
  {
    var a := u.artifacts[p.keyIndex];
    && r.recordId == "vec-" + u.jobId + "-" + Itoa(p.keyIndex) + "-" + Itoa(p.chunkIndex) && r.chunkText == p.text
    && r.embedding == vector && r.tenant == u.tenant && r.jobId == u.jobId && r.checksum == u.checksum
    && r.metadata == a.metadata && r.sourceUri == a.sourceUri && r.objectKey == TrimSpace(a.objectKey)
    && r.indexedAt == now && r.retryCount == 0
  }

  ghost predicate DistinctIds(rs: seq<VectorRecord>) {
    forall i, j :: 0 <= i < j < |rs| ==> rs[i].recordId != rs[j].recordId
  }

  /** Records of one upload never share an id. */
  lemma AlignedIdsDistinct(u: Upload, rs: seq<VectorRecord>, service: seq<string> -> Reply<seq<Vector>>, now: nat)
    requires Aligned(u, rs, service, now)
    ensures DistinctIds(rs)
  {
    var ps := PendingUpTo(u, |u.artifacts|);
    PendingOrdered(u, |u.artifacts|);
    forall i, j | 0 <= i < j < |rs|
      ensures rs[i].recordId != rs[j].recordId
    {
      if rs[i].recordId == rs[j].recordId {
        UploadRecordIdInjective(u.jobId, ps[i].keyIndex, ps[i].chunkIndex, ps[j].keyIndex, ps[j].chunkIndex);
      }
    }
  }

  // ----- indexPayloadArtifacts -----

  /** The inner loop over one object's chunks. */
  method AppendChunks(pending: seq<PendingChunk>, keyIndex: nat, chunks: seq<string>) returns (r: seq<PendingChunk>)
    ensures r == pending + PendingOfChunks(keyIndex, chunks)
  {
    r := pending;
    for chunkIndex := 0 to |chunks|
      invariant |r| == |pending| + chunkIndex
      invariant forall i :: 0 <= i < |pending| ==> r[i] == pending[i]
      invariant forall i :: |pending| <= i < |r| ==> r[i] == PendingOfChunks(keyIndex, chunks)[i - |pending|]
    {
      r := r + [PendingChunk(keyIndex, chunkIndex, chunks[chunkIndex])];
    }
  }

  /** Chunks one object; a blank key is passed over. */
  method AppendArtifact(u: Upload, keyIndex: nat, pending: seq<PendingChunk>) returns (r: seq<PendingChunk>)
    requires keyIndex < |u.artifacts|
    ensures r == pending + PendingOfArtifact(u, keyIndex)
  {
    var key := TrimSpace(u.artifacts[keyIndex].objectKey);
    if key == "" {
      return pending;
    }
    var chunks := ChunkText(u.artifacts[keyIndex].text, u.chunkSize, u.overlapWords);
    r := AppendChunks(pending, keyIndex, chunks);
  }

  /** Chunks every object. */
  method CollectPending(u: Upload) returns (pending: seq<PendingChunk>)
    ensures pending == PendingUpTo(u, |u.artifacts|)
  {
    pending := [];
    for keyIndex := 0 to |u.artifacts|
      invariant pending == PendingUpTo(u, keyIndex)
    {
      pending := AppendArtifact(u, keyIndex, pending);
    }
  }

  method CollectTexts(pending: seq<PendingChunk>) returns (chunkTexts: seq<string>)
    ensures chunkTexts == PendingTexts(pending)
  {
    chunkTexts := [];
    for i := 0 to |pending|
      invariant |chunkTexts| == i && forall k :: 0 <= k < i ==> chunkTexts[k] == pending[k].text
    {
      chunkTexts := chunkTexts + [pending[i].text];
    }
  }

  method AssembleRecords(u: Upload, pending: seq<PendingChunk>, vectors: seq<Vector>, now: nat)
    returns (records: seq<VectorRecord>)
    requires |vectors| == |pending|
    requires forall i :: 0 <= i < |pending| ==> pending[i].keyIndex < |u.artifacts|
    ensures |records| == |pending|
    ensures forall i :: 0 <= i < |pending| ==> records[i] == UploadRecord(u, pending[i], vectors[i], now)
  {
    records := [];
    for i := 0 to |pending|
      invariant |records| == i
      invariant forall k :: 0 <= k < i ==> records[k] == UploadRecord(u, pending[k], vectors[k], now)
    {
      records := records + [UploadRecord(u, pending[i], vectors[i], now)];
    }
  }

  /** There is something to embed and the service answers with one nonempty vector per chunk. */
  predicate Embedded(u: Upload, service: seq<string> -> Reply<seq<Vector>>) {
    var ps := PendingUpTo(u, |u.artifacts|);
    ps != [] && u.tenant != "" && Answers(service(PendingTexts(ps)), |ps|)
  }

  /** From extracted objects to the index: `handed` is what Index.Upsert is given, `upsertFails` its
      answer, and the result the number of indexed chunks. */
  method IndexArtifacts(u: Upload, service: seq<string> -> Reply<seq<Vector>>, upsertFails: seq<VectorRecord> -> bool,
                        now: nat)
    returns (r: Reply<nat>, handed: seq<VectorRecord>)
    ensures Embedded(u, service) ==> Aligned(u, handed, service, now) && DistinctIds(handed)
    ensures !Embedded(u, service) ==> handed == []
    ensures var ps := PendingUpTo(u, |u.artifacts|);
            && (r.Error? <==> ps != [] && (!Embedded(u, service) || upsertFails(handed)))
            && (r.Ok? ==> r.value == |handed| == |ps|)
  {
    PendingOrdered(u, |u.artifacts|);
    var pending := CollectPending(u);
    if |pending| == 0 {
      return Ok(0), [];
    }
    var chunkTexts := CollectTexts(pending);
    CleanInputUnchanged(chunkTexts);
    var vectors := Embed(u.tenant, chunkTexts, service);
    if vectors.Error? || |vectors.value| != |pending| {
      return Error, [];
    }
    var records := AssembleRecords(u, pending, vectors.value, now);
    AlignedIdsDistinct(u, records, service, now);
    if upsertFails(records) {
      return Error, records;
    }
    return Ok(|pending|), records;
  }
}
