# FineRAG core: verified model

A Dafny model of the parts of FineRAG where the behaviour is hard to see from one function: the
ingestion worker protocol, the two chunkers, the retrieval pipeline with its nested circuit
breakers, and the two rate limiters. Imperative code is modelled by classes and methods with
loops; each method is proved against a function of its inputs or its old state, and the lemmas
prove what the source promises about those functions over all inputs, all runs and all
interleavings.

Check the whole project with `dafny verify dfyconfig.toml`.

| file | models |
|---|---|
| `Sequences.dfy` | a repeated element, a map over a sequence |
| `Text.dfy` | strings as Unicode scalars with UTF-8 lengths; TrimSpace, Fields, Join |
| `Chunking.dfy` | `chunkPayload` and `ChunkText` over one family of word windows |
| `Identity.dfy` | `hashParts` keys, worker record ids, upload record ids |
| `Contracts.dfy` | jobs, messages, records and their Validate checks |
| `IngestionWorker.dfy` | the worker and the in-memory queue, as a class and as a step function |
| `IngestionRuns.dfy` | what every run of the worker keeps |
| `IngestionInterleaving.dfy` | several workers acting between each other's check, upsert and save |
| `IngestionExits.dfy` | which way out ProcessMessage takes, for every configuration and answer |
| `IngestionSkips.dfy` | what a skipped message is a duplicate of |
| `IngestionCrew.dfy` | several workers on one queue with retries and dead letters, and what they conserve |
| `IngestionCrewRuns.dfy` | provenance and draining with several workers |
| `IngestionRefinement.dfy` | the crew on the queue refines the interleaving |
| `UploadIndexing.dfy` | the upload path from extracted text to records, with the embedding client's filter |
| `StableSort.dfy` | `sort.SliceStable`, in place |
| `Ranking.dfy` | documents, the two-level order, `TopCandidates` |
| `IntentRanking.dfy` | query-intent ranking and the top vectors |
| `RerankFusion.dfy` | fusing the reranker's order into the documents |
| `FallbackOrder.dfy` | what an outage does to the order of a search |
| `RerankBreaker.dfy` | the service breaker with concurrent requests |
| `Gateway.dfy` | the Portkey adapter's breaker, retries and fallback, behind the service breaker |
| `Retrieval.dfy` | `Search` from the lookups to the cited result |
| `RateLimiter.dfy` | the per-tenant and global limiter against its admission log |
| `WindowLimiter.dfy` | the per-key fixed-window limiter |
| `Similarity.dfy` | `cosineSimilarity` over the reals |

## Modelling decisions

- Text is a sequence of Unicode scalar values and `len` is the UTF-8 length; white space is Go's
  `unicode.IsSpace` list. Scores and vectors are reals, so there is no NaN and no rounding.
- SHA-256 is taken to be injective: the digest of `hashParts` is represented by the joined text.
- A time is a natural number and 0 is Go's zero time. The clock, the blob store, the embedder, the
  index, the idempotency store, the retention hook, the searcher, the reranker and the gateway
  client appear only through their answers, which are parameters and may be anything.
- A failed upsert may have written any prefix of its records.
- A timeout is an `Error` answer.

## What the proofs found

- Dropped messages: besides an empty checksum or an empty embedding, a job whose source or job id is
  blank (but not empty) is dropped, because only `RetentionRecord.Validate` trims. By then its
  records are stored and its key is saved (`DroppedIff`, `BlankSourceIsStoredThenDropped`).
- The defaults of the chunkers differ (200 and 900 bytes), so they agree on all texts exactly for a
  positive limit (`ChunkersAgreeIff`).
- `hashParts` does not escape its separator: a key is unique exactly when tenant, job id and checksum
  hold no `|` (`KeyUniqueIff`).
- Fusion keeps the reranker's order exactly when the fused scores are positive and strictly fall
  (`FusionKeepsOrderIff`); a relevance score that rises by 1 or more from one position to the next breaks it.
- The window limiter admits at most 2*limit - 1 requests in any half-open minute, one less than two
  full windows, and reaches that (`SlidingBound`, `SlidingBoundIsTight`).
- Once the service breaker is open with nothing in flight it never closes again (`OpenIsFinal`).
- The idempotency check does not prevent a double upsert by two workers (`TwoWorkersUpsertTwice`):
  as long as no save is lost, a key is upserted at most once in every schedule exactly when there is
  at most one worker (`UpsertsOnceIff`, on the queue `CrewUpsertsOnceIff`).
- The RecordID-keyed index hides the double upsert exactly when jobs that share record ids share their
  text (`AsIfOnceIff`). Nothing enforces that: the checksum is never compared with the payload, so two
  approved jobs with equal tenant, id and checksum and different sources are both accepted
  (`CollidingJobsAreAccepted`), and the one written first loses its part of the index
  (`CollisionIsSeen`).
- A skipped message is a duplicate when its tenant, job id and checksum hold no `|`
  (`SkippedIsDuplicate`); otherwise it may be skipped because of another tenant's upsert
  (`OtherTenantIsSkipped`).
- In `retrieval_only` mode an outage is taken for a reply: the identity ranking is replaced by vector
  order, exactly so when all scores sent are above -1 (`FallbackFusesIff`, `SearchDuringOutage`).
- The rate limiter agrees with its log, for all limits, exactly when the clock never returns to a
  second after another one was read (`LimiterRefinesLogIff`). A clock that steps back once is
  harmless; one that steps back and comes again admits too much (`SteppingBackOverAdmits`).
- In `direct_allowlist` mode a listed tenant's request resets the service breaker during an outage, so
  that breaker counts unanswered requests in a row, not in total (`OutageCost`).

## Model

| member | source | states |
|---|---|---|
| `Text.FieldsOfJoin` | backend/util/apiutil/text.go:336-363 | splitting joined words gives the same words back |
| `Text.BlankIffNoFields` | internal/services/ingestion/service.go:398-409 | a trimmed text is empty exactly when it has no field, so the two empty checks agree |
| `Text.TrimSpaceMeaning` | backend/util/apiutil/text.go:326 | trimming takes away all white space at both ends and nothing else |
| `Chunking.ChunkPayload` | internal/services/ingestion/service.go:397-429 | the returned chunks are the greedy chunks of the words at the defaulted limit |
| `Chunking.GrowChunks` | internal/services/ingestion/service.go:411-428 | growing `current` word by word yields the texts of the greedy windows |
| `Chunking.ChunkText` | backend/util/apiutil/text.go:325-374 | the returned chunks are the texts of the overlapping windows |
| `Chunking.SlideWindows` | backend/util/apiutil/text.go:340-373 | the window loop terminates and emits exactly the windows' texts for every limit and overlap |
| `Chunking.GrowWindow` | backend/util/apiutil/text.go:343-362 | the inner loop stops at the furthest end that fits |
| `Chunking.FitEndIsMaximal` | backend/util/apiutil/text.go:345-359 | no run from the same start that fits ends later |
| `Chunking.TextsOfWindows` | backend/util/apiutil/text.go:363 | the chunks are the joined words of the windows, one for one |
| `Chunking.ChunkBothWays` | internal/services/ingestion/service.go:411-428 | for every text and positive limit both chunkers, run on it, return the same chunks |
| `Chunking.ChunkersAgreeIff` | internal/services/ingestion/service.go:402-404 | they agree on all texts if and only if the limit is positive |
| `Chunking.WindowsAreMaximal` | backend/util/apiutil/text.go:345-359 | every window fits, and one that is not last cannot take the next word |
| `Chunking.WindowsAreChained` | backend/util/apiutil/text.go:364-371 | starts strictly increase, ends never go back, neighbours share exactly the overlap when the earlier window has more words than that and nothing otherwise, and a window that adds no word is followed by one starting at its end; only the last window reaches the end |
| `Chunking.ChainedWindowsAreUnique` | backend/util/apiutil/text.go:341-372 | no other windows fit, are full and follow each other like this, at any limit and overlap |
| `Chunking.ChunksOverlap` | backend/util/apiutil/text.go:363-371 | when a chunk has more words than the overlap, its last `overlap` words are the first ones of the next chunk |
| `Chunking.FitsMeaning` | internal/services/ingestion/service.go:413-421 | a run may be a chunk exactly when it is one word or its joined words are at most the limit in bytes |
| `Chunking.ChunksAreFull` | backend/util/apiutil/text.go:345-359 | a chunk that does not reach the end is over the limit together with the next word |
| `Chunking.DefaultsMean` | backend/util/apiutil/text.go:330-335 | a limit that is not positive means 200 and 900, a negative overlap 0 |
| `Chunking.WindowsRebuildInput` | backend/util/apiutil/text.go:342-372 | dropping the shared words rebuilds the word list exactly |
| `Chunking.PayloadChunksAreFewest` | internal/services/ingestion/service.go:413-427 | no split into consecutive runs that fit (or single words) has fewer chunks |
| `Chunking.MaximalSplitIsGreedy` | internal/services/ingestion/service.go:413-427 | the split whose chunks cannot take their next word is unique and is this one |
| `Chunking.ChunkShape` | backend/util/apiutil/text.go:363 | each chunk is not blank, unchanged by trimming, made of its window's words, and within the limit unless it is one word |
| `Chunking.NoChunksIffBlank` | internal/services/ingestion/service.go:398-401 | nothing comes out exactly for a blank text |
| `Identity.AtoiItoa` | backend/managers/ingestion.go:335 | decimal printing can be read back |
| `Identity.UploadRecordIdInjective` | backend/managers/ingestion.go:335 | within a job the id determines object and chunk, whatever the job id holds |
| `Identity.KeyUniqueIff` | internal/services/ingestion/service.go:387-395 | a key belongs to one (tenant, job, checksum) exactly when none of them holds a bar |
| `Identity.RecordIdInjective` | internal/services/ingestion/service.go:274 | equal worker record ids come from the same chunk position of the same joined identity |
| `IngestionWorker.WithDefaults` | internal/services/ingestion/service.go:158-165 | retry limit and chunk size end up positive |
| `IngestionWorker.InMemoryQueue.constructor` | internal/services/ingestion/queue_provider.go:73-75 | both queues start empty |
| `IngestionWorker.InMemoryQueue.Enqueue` | internal/services/ingestion/queue_provider.go:77-82 | appends at the back and leaves the dead-letter list alone |
| `IngestionWorker.InMemoryQueue.Dequeue` | internal/services/ingestion/queue_provider.go:84-93 | takes the oldest message, or reports an empty queue |
| `IngestionWorker.InMemoryQueue.Publish` | internal/services/ingestion/queue_provider.go:95-100 | appends to the dead-letter list and leaves the queue alone |
| `IngestionWorker.Worker.constructor` | internal/services/ingestion/service.go:143-185 | a worker with defaulted limits in the initial state |
| `IngestionWorker.Worker.EnqueueApprovedJob` | internal/services/ingestion/service.go:187-218 | accepts exactly valid jobs, approved, for the request's own tenant, and enqueues attempt 0; otherwise nothing changes |
| `IngestionWorker.Worker.ProcessNext` | internal/services/ingestion/service.go:220-229 | the whole new state is one step on the oldest message; fails exactly on an empty queue or missing consumer |
| `IngestionWorker.Worker.ProcessMessage` | internal/services/ingestion/service.go:231-345 | new state and exit for every combination of answers |
| `IngestionWorker.Worker.StoreChunks` | internal/services/ingestion/service.go:270-308 | builds and checks the records in order, upserts, saves |
| `IngestionWorker.Worker.ApplyEach` | internal/services/ingestion/service.go:334-341 | applies the records up to the first invalid or failing one |
| `IngestionWorker.Worker.ApplyRetention` | internal/services/ingestion/service.go:310-342 | the message counts as indexed exactly when all three records were applied |
| `IngestionWorker.Worker.RetryOrDeadLetter` | internal/services/ingestion/service.go:369-385 | requeues with one more attempt while the budget lasts, then publishes once |
| `IngestionWorker.Worker.ReplayDLQMessage` | internal/services/ingestion/service.go:347-360 | enqueues the message at attempt 0 with a key, if it is valid |
| `IngestionRuns.ProcessRoutes` | internal/services/ingestion/service.go:231-385 | a message goes back to the queue, to the dead-letter queue or to neither, as its exit says |
| `IngestionRuns.RunBalanced` | internal/services/ingestion/service.go:220-385 | conservation over every run: what was accepted is exactly queued, indexed, skipped, dead-lettered or dropped |
| `IngestionRuns.RecordsValidIff` | internal/contracts/contracts.go:287-316 | the records of any message validate exactly when its job is complete, its checksum included, the time is set and all vectors are nonempty |
| `IngestionRuns.RetainDropsIff` | internal/contracts/contracts.go:343-360 | the retention stage fails exactly for a blank source or job id |
| `IngestionRuns.DroppedIff` | internal/services/ingestion/service.go:231-345 | with all providers set and infrastructure answering, a valid message is dropped exactly under a condition on its job and vectors |
| `IngestionRuns.RunDropsNothing` | internal/services/ingestion/service.go:220-385 | nothing is dropped in any run whose jobs carry what the later checks need |
| `IngestionRuns.BlankSourceIsStoredThenDropped` | internal/services/ingestion/service.go:310-337 | an approved job with a blank source is accepted, stored and saved, and its call still fails |
| `IngestionRuns.IndexedMeansStored` | internal/services/ingestion/service.go:270-344 | a message counted as indexed has every chunk in the index with its own vector, time and labels, other entries untouched, its key saved, and its three retention records, of its own tenant and job, kept for 30, 90 and 365 days |
| `IngestionRuns.RunUpsertsOnce` | internal/services/ingestion/service.go:239-308 | at most one upsert per key in a sequential run where Save works, and every saved key was upserted |
| `IngestionSkips.SkippedIsDuplicate` | internal/services/ingestion/service.go:239-247 | in every run a message is skipped only after a job with its key was upserted, and without bars that job has the same tenant, id and checksum |
| `IngestionSkips.OtherTenantIsSkipped` | internal/services/ingestion/service.go:387-395 | with a bar in a job id of one tenant and in the name of another, the first message of the second tenant leaves as skipped because of the first tenant's upsert |
| `IngestionRuns.ProcessNextLowersBudget` | internal/services/ingestion/service.go:369-377 | the sum of maxRetries+1-attempt falls on every call with a nonempty queue |
| `IngestionRuns.RunBoundsAttempts` | internal/services/ingestion/service.go:369-373 | queued attempts stay within the retry limit in every run |
| `IngestionRuns.QueueDrains` | internal/services/ingestion/service.go:220-229 | n fresh messages are gone after n*(maxRetries+1) calls, whatever happens in them |
| `IngestionRuns.AlwaysFailingIsDeadLettered` | internal/services/ingestion/service.go:369-385 | n messages that keep failing are processed exactly maxRetries+1 times each and then dead-lettered once, in order, at attempt maxRetries |
| `IngestionRuns.RunProvenance` | internal/services/ingestion/service.go:187-218 | every indexed record states a job approved for its own tenant, with a retry count within the limit |
| `IngestionRuns.RunRetentionProvenance` | internal/services/ingestion/service.go:310-342 | every retention record of every run is of a job approved for its own tenant |
| `IngestionRuns.RunLedgerTells` | internal/services/ingestion/service.go:220-229 | what the ledger counts as indexed, skipped and dropped is what the exits of the run say |
| `IngestionRuns.EnqueueLaw` | internal/services/ingestion/service.go:187-218 | exactly a complete request for its own tenant's complete, approved job is accepted, as attempt 0 with its own id and key |
| `IngestionRuns.ReplayLaw` | internal/services/ingestion/service.go:347-360 | a replay is accepted exactly with a producer that takes it and a complete message, and enters as attempt 0 |
| `IngestionRuns.ReplayStartsOver` | internal/services/ingestion/service.go:347-360 | a replayed message that keeps failing takes another maxRetries+1 calls to be dead-lettered again |
| `IngestionExits.EarlyExits` | internal/services/ingestion/service.go:232-247 | exactly when a message is invalid, cannot be checked or is skipped, with nothing changed |
| `IngestionExits.RetryExits` | internal/services/ingestion/service.go:369-385 | exactly where a failure that is tried again ends, by budget, providers and their answers, and what is in the index by then |
| `IngestionExits.UnstoredExits` | internal/services/ingestion/service.go:259-299 | exactly how a message is dropped before the upsert, with nothing changed |
| `IngestionExits.StoredExits` | internal/services/ingestion/service.go:300-344 | exactly what a stored message leaves in index and keys, and when it counts as indexed |
| `IngestionExits.RetentionExits` | internal/services/ingestion/service.go:334-341 | the first retention record that is invalid or fails decides the drop, and those before it stay |
| `IngestionInterleaving.InterleaveKeeps` | internal/services/ingestion/service.go:239-308 | in every interleaving each index entry is a chunk of a delivered job and stored jobs are complete |
| `IngestionInterleaving.InterleavedIndexIsAsIfOnce` | internal/services/ingestion/service.go:239-308 | when delivered jobs that share record ids share their text, a stored job's ids and texts are those of one processing alone, for any message, vectors and time of that processing |
| `IngestionInterleaving.AsIfOnceIff` | internal/services/ingestion/service.go:239-308 | over all interleavings that deliver only the given jobs, every stored job's part of the index is as after one processing alone, if and only if jobs that share record ids share their text |
| `IngestionInterleaving.CollisionIsSeen` | internal/services/ingestion/service.go:270-308 | two jobs with the same record ids and different text: the one written first ends with foreign chunks or a foreign text |
| `IngestionInterleaving.CollidingJobsAreAccepted` | internal/services/ingestion/service.go:187-218 | two approved jobs that differ only in their source are both accepted and share key and record ids |
| `IngestionInterleaving.TwoWorkersUpsertTwice` | internal/services/ingestion/service.go:239-247 | any two workers that check before either saves both upsert |
| `IngestionInterleaving.UpsertsOnceIff` | internal/services/ingestion/service.go:239-308 | over all schedules that lose no save, no key is upserted twice if and only if there is at most one worker |
| `IngestionCrew.CrewConserves` | internal/services/ingestion/service.go:220-385 | for any number of workers and every interleaving of their steps, each accepted message is queued, in hand, indexed, skipped, dead-lettered or dropped, counted once |
| `IngestionCrew.IdleCrewBalanced` | internal/services/ingestion/service.go:220-385 | when all workers are idle the books balance as after a sequential run |
| `IngestionCrew.TurnIsProcessNext` | internal/services/ingestion/service.go:220-345 | taking a message and going through the stages without interruption is exactly ProcessNext |
| `IngestionCrewRuns.CrewKeepsProvenance` | internal/services/ingestion/service.go:187-218 | for any number of workers every index entry states a job approved for its own tenant, and every message queued, in hand or dead-lettered is of such a job and within the retry limit |
| `IngestionCrewRuns.CrewDrains` | internal/services/ingestion/service.go:369-385 | for any number of workers at most five effective moves per message and attempt, and when none is left the queue is empty and all are idle |
| `IngestionRefinement.CrewRefines` | internal/services/ingestion/service.go:220-345 | every run of workers on the queue with a stable blob store is matched by the interleaving, with the same index, keys and upserts |
| `IngestionRefinement.CrewIndexedAsIfOnce` | internal/services/ingestion/service.go:239-308 | on the queue each job counted as indexed has exactly the ids and texts of one processing alone, if offered jobs that share record ids share their text |
| `IngestionRefinement.CrewUpsertsOnceIff` | internal/services/ingestion/service.go:239-308 | on the queue no run that loses no save upserts a key twice if and only if there is at most one worker |
| `UploadIndexing.Embed` | internal/adapters/gateway/portkey/embeddings.go:70-195 | sends the trimmed nonblank chunks and accepts only one nonempty vector per input |
| `UploadIndexing.CleanInputUnchanged` | internal/adapters/gateway/portkey/embeddings.go:78-84 | chunks that are trimmed and nonblank pass the filter unchanged |
| `UploadIndexing.EmbedInputMeaning` | internal/adapters/gateway/portkey/embeddings.go:78-84 | what is sent is each chunk, trimmed, in order, without the blank ones |
| `UploadIndexing.PendingOrdered` | backend/managers/ingestion.go:323-347 | pending chunks are in strictly increasing (object, chunk) order and clean |
| `UploadIndexing.PendingMeaning` | backend/managers/ingestion.go:246-348 | pending is every chunk, at the upload's size and overlap, of every object whose key is not blank |
| `UploadIndexing.AlignedIdsDistinct` | backend/managers/ingestion.go:335 | records of one upload have pairwise distinct ids |
| `UploadIndexing.CollectPending` | backend/managers/ingestion.go:246-348 | the pending list is the chunks of the objects with nonblank keys, in order |
| `UploadIndexing.IndexArtifacts` | backend/managers/ingestion.go:349-387 | what the index is given: record i is chunk i of its object with the vector given for that text, under the upload's tenant, job and checksum and the object's source, key and metadata, ids distinct; fails exactly when there are chunks and the service does not answer properly or the upsert fails, and otherwise reports the number of chunks |
| `StableSort.SliceStable` | internal/services/retrieval/service.go:357-364 | the slice ends as the insertion sort of what it held |
| `StableSort.SliceStableBy` | backend/util/apiutil/text.go:117-124 | the same when each comparison is evaluated anew, as long as all of them answer by one order |
| `StableSort.SortPermutes` | internal/services/retrieval/service.go:357-364 | sorting permutes |
| `StableSort.SortSorted` | internal/services/retrieval/service.go:357-364 | nothing comes after an element it should precede |
| `StableSort.SortStable` | internal/services/retrieval/service.go:357-364 | tied elements keep their order |
| `StableSort.SortedStableUnique` | internal/services/retrieval/service.go:357-364 | sorted and stable determine the result, so any stable sort returns this one |
| `StableSort.SortIdempotent` | backend/util/apiutil/text.go:117-124 | sorting a sorted list changes nothing |
| `Ranking.RankCopy` | internal/services/retrieval/service.go:450-460 | copying and sorting in place gives the stable order by key |
| `Ranking.RankedMeaning` | internal/services/retrieval/service.go:452-459 | a permutation by descending key, then score, ties in old order; ranking twice is ranking once |
| `Ranking.RankedIsBestFirst` | internal/services/retrieval/service.go:452-459 | ranking by a key puts the higher measure first, then the higher vector score, and keeps equals in order |
| `Ranking.TopCandidates` | internal/contracts/contracts.go:592-602 | the first topN of the stable descending order |
| `Ranking.TopIsBest` | internal/contracts/contracts.go:592-602 | nothing left out scores higher than anything returned, and the result is part of the input |
| `IntentRanking.TokenizeSearchTerms` | backend/util/apiutil/text.go:184-205 | the kept fields of the lowered, unpunctuated query |
| `IntentRanking.SearchTermsAreWords` | backend/util/apiutil/text.go:184-205 | query terms never hold white space |
| `IntentRanking.SearchTermsMeaning` | backend/util/apiutil/text.go:184-205 | the terms are the words of the query, in order, without stop words and words under three bytes |
| `IntentRanking.MetadataOrderIrrelevant` | backend/util/apiutil/text.go:131-145 | a term occurs in the joined metadata exactly when it occurs in one key or value, however the map is walked |
| `IntentRanking.QueryIntentScore` | backend/util/apiutil/text.go:128-166 | the score of one walk over the metadata; for terms that are words it depends on the document and the terms only |
| `IntentRanking.ScoreIgnoresWalk` | backend/util/apiutil/text.go:131-150 | for terms without white space every walk over the map gives the same score |
| `IntentRanking.TermWeights` | backend/util/apiutil/text.go:141-150 | a term is worth 8 in the content, else 5 in the metadata, else 4 in the source |
| `IntentRanking.ScoreMeaning` | backend/util/apiutil/text.go:140-166 | the weights add up, with 20 and 12 for grade queries and 10 for study queries on matching content |
| `IntentRanking.MoreTermsNeverLower` | backend/util/apiutil/text.go:140-166 | one more term adds at least its weight |
| `IntentRanking.WalkedLessIsConsistent` | backend/util/apiutil/text.go:117-124 | the terms of any query are words, so every comparison answers by the score although each one walks both maps in a new order |
| `IntentRanking.ContainsAny` | backend/util/apiutil/text.go:168-182 | true exactly when some value is a term |
| `IntentRanking.RankDocumentsByQueryIntent` | backend/util/apiutil/text.go:104-126 | the stable order by intent score, the same for all walks in all comparisons, with the short-list and no-term exits |
| `IntentRanking.IntentOrderMeaning` | backend/util/apiutil/text.go:104-126 | the higher intent score comes first, then the higher vector score, equals keep their order; without terms nothing moves |
| `IntentRanking.IntentOrderIdempotent` | backend/util/apiutil/text.go:104-126 | ranking permutes, and ranking twice equals ranking once |
| `IntentRanking.BuildTopFilteredVectors` | backend/managers/search.go:234-258 | describes the first `limit` documents of the intent order, ranks counted from 1 |
| `IntentRanking.RankAndShow` | backend/managers/search.go:78-79 | the top vectors are the first five of the ranked documents, in the same order, although the second ranking walks the maps differently |
| `RerankFusion.FuseOrder` | internal/services/retrieval/service.go:350-365 | the stable order by fused score |
| `RerankFusion.FusionKeepsOrder` | internal/services/retrieval/service.go:350-365 | with distinct ids and falling fused scores: named documents in the reranker's order, then the rest by vector score, ties in old order |
| `RerankFusion.GentleScoresDescend` | internal/services/retrieval/service.go:350-353 | scores above -1 that differ by less than 1 give falling fused scores |
| `RerankFusion.FusionKeepsOrderIff` | internal/services/retrieval/service.go:350-365 | the order is kept for every document list if and only if the fused scores are positive and strictly fall |
| `FallbackOrder.FallbackFusesIff` | internal/services/retrieval/service.go:343-365 | fusing the fallback's reply puts what was sent in vector order before everything else in vector order, whatever else there is, if and only if all scores sent are above -1 |
| `FallbackOrder.SearchDuringOutage` | internal/adapters/gateway/portkey/reranker.go:202-205 | in retrieval_only mode without an answer the service sees a success, and the documents Search prepared by identity end in vector order within the candidates and within the rest |
| `RerankBreaker.FailuresBounded` | internal/services/retrieval/service.go:301-310 | with at most n requests in flight the counter never exceeds threshold-1+n |
| `RerankBreaker.CounterIsStreak` | internal/services/retrieval/service.go:391-407 | in every interleaving the counter is the number of failures recorded since the last recorded success |
| `RerankBreaker.BoundIsTight` | internal/services/retrieval/service.go:391-407 | that bound is reached |
| `RerankBreaker.OpenIsFinal` | internal/services/retrieval/service.go:391-407 | open with nothing in flight, no later step calls the reranker or closes the breaker |
| `Gateway.WithDefaults` | internal/adapters/gateway/portkey/reranker.go:71-76 | retries end up non-negative and the threshold positive |
| `Gateway.RerankerAdapter.constructor` | internal/adapters/gateway/portkey/reranker.go:61-96 | defaulted limits, breaker closed |
| `Gateway.RerankerAdapter.Rerank` | internal/adapters/gateway/portkey/reranker.go:110-153 | reply, new failure counter and number of client calls for every sequence of client answers |
| `Gateway.AdapterAnswers` | internal/adapters/gateway/portkey/reranker.go:110-153 | the first successful attempt's answer is the reply and closes the breaker; otherwise the fallback answers; with the exact counter and number of calls |
| `Gateway.InnerCountsFailures` | internal/adapters/gateway/portkey/reranker.go:178-194 | in every run, whatever the client answers, the adapter's counter is the number of requests that reached the client since one succeeded, so it is open exactly after threshold of them |
| `Gateway.FallbackAnswers` | internal/adapters/gateway/portkey/reranker.go:202-214 | the fallback's answer in each mode |
| `Gateway.ServiceAnswers` | internal/services/retrieval/service.go:286-315 | when the service refuses, calls, degrades or passes on the first topN, and its counter |
| `Gateway.AloneIsServiceCall` | internal/services/retrieval/service.go:297-310 | one request alone moves the concurrent breaker like the service |
| `Gateway.RerankerAdapter.ApplyFallback` | internal/adapters/gateway/portkey/reranker.go:202-214 | top candidates or an error, by mode and allowlist |
| `Gateway.RerankerAdapter.IsAllowlisted` | internal/adapters/gateway/portkey/reranker.go:231-238 | true exactly for a listed tenant |
| `Gateway.ClientCallsBounded` | internal/adapters/gateway/portkey/reranker.go:110-153 | without a client success at most threshold*(retryMax+1) client calls in any run, and then none in any later run |
| `Gateway.AdapterOpenIsFinal` | internal/adapters/gateway/portkey/reranker.go:110-153 | once the adapter's breaker is open no later run reaches the client or closes it, also when the client recovers |
| `Gateway.RetrievalOnlyHidesFailures` | internal/adapters/gateway/portkey/reranker.go:202-205 | in retrieval_only mode without timeouts the service breaker stays at 0 through every run |
| `Gateway.OutageCost` | internal/services/retrieval/service.go:297-310 | the exact counters and client calls of a run of requests during an outage, in every mode, by the requests in a row that the fallback does not answer |
| `Gateway.OutageCostPerMode` | internal/services/retrieval/service.go:297-310 | the same in closed form for retrieval_only and fail_closed |
| `Retrieval.SearchDocuments` | internal/services/retrieval/service.go:199-232 | the first occurrences of everything found, failed lookups passed over |
| `Retrieval.FirstOccurrencesMeaning` | internal/services/retrieval/service.go:224-229 | exactly the first document of each id is kept |
| `Retrieval.FirstFoundMeaning` | internal/services/retrieval/service.go:202-229 | being first in everything found is being listed first by the first lookup that lists the id |
| `Retrieval.AllFoundConcat` | internal/services/retrieval/service.go:202-229 | everything found is what the lookups found, one after the other |
| `Retrieval.FirstOccurrencesPrefix` | internal/services/retrieval/service.go:224-229 | what is kept stays in the order in which it was found |
| `Retrieval.DocumentIdentityTerms` | internal/services/retrieval/service.go:477-502 | the identity terms without repetition, each where it occurs first |
| `Retrieval.CountIdentityMatches` | internal/services/retrieval/service.go:463-475 | the number of targeted terms that name the document |
| `Retrieval.ApplyIdentityRanking` | internal/services/retrieval/service.go:424-461 | the stable order by matches with the terms that name some document |
| `Retrieval.IdentityOrderMeaning` | internal/services/retrieval/service.go:424-461 | identity ranking permutes and is idempotent |
| `Retrieval.IdentityOrderByMatches` | internal/services/retrieval/service.go:424-461 | the document that more query terms name comes first, then the higher vector score; without a match nothing moves |
| `Retrieval.IdentitySetMeaning` | internal/services/retrieval/service.go:477-490 | a term names a document as a token of its file name or of one of five metadata values |
| `Retrieval.PreparedMeaning` | internal/services/retrieval/service.go:98-130 | what the reranker sees: the eligible documents, ranked by the first expanded query |
| `Retrieval.RequestMeaning` | internal/services/retrieval/service.go:323-344 | the request holds the first documents, in order, under the query's own tenant, request and text |
| `Retrieval.TenantBranchesNeverFire` | internal/contracts/contracts.go:557-576 | on documents of the right tenant only the missing-id check can fire, exactly when an id is empty |
| `Retrieval.BuildCitations` | internal/services/retrieval/service.go:409-422 | one citation per document, at its position |
| `Retrieval.RetrievalService.constructor` | internal/services/retrieval/service.go:53-81 | defaulted limits, breaker closed |
| `Retrieval.RetrievalService.Rerank` | internal/services/retrieval/service.go:286-315 | outcome and failure counter for every answer |
| `Retrieval.RetrievalService.RerankDocuments` | internal/services/retrieval/service.go:317-366 | fuses a successful reply and leaves the documents alone otherwise |
| `Retrieval.RetrievalService.Search` | internal/services/retrieval/service.go:83-171 | for all lookups and failures: the documents are exactly those of the tenant that some lookup lists first, with distinct ids and their citations; the only result error is an empty document id, exactly when one is eligible |
| `RateLimiter.Limiter.constructor` | internal/ratelimit/limiter.go:45-53 | default bursts, all counters zero |
| `RateLimiter.Limiter.Allow` | internal/ratelimit/limiter.go:55-86 | new counters and decision |
| `RateLimiter.LimiterRefinesLogIff` | internal/ratelimit/limiter.go:55-93 | whatever the limits, every call of a run is admitted exactly when the full log leaves room, if and only if the clock never returns to a second it left |
| `RateLimiter.LimiterRefinesLog` | internal/ratelimit/limiter.go:55-93 | after any run under a non-decreasing clock a call is admitted exactly when the full log leaves room globally and for the tenant |
| `RateLimiter.AllowAgreesWithLog` | internal/ratelimit/limiter.go:66-85 | the same for one call, with the remaining allowance and, on a refusal, which limit is named |
| `RateLimiter.GlobalIsSumOfTenants` | internal/ratelimit/limiter.go:68-82 | the global count is the sum of the tenant counts of the same second, in every run that never returns to a second |
| `RateLimiter.SteppingBackOverAdmits` | internal/ratelimit/limiter.go:88-93 | a clock that steps back and returns lets a full second be used again |
| `WindowLimiter.Limiter.constructor` | backend/util/serverUtil.go:447-452 | defaulted limit, no windows |
| `WindowLimiter.Limiter.Allow` | backend/util/serverUtil.go:454-469 | decision and new windows |
| `WindowLimiter.SlidingBound` | backend/util/serverUtil.go:454-469 | in every run at most `limit` in each window opened during it and at most 2*limit-1 in any half-open minute |
| `WindowLimiter.DecidedByLog` | backend/util/serverUtil.go:454-469 | a call is admitted exactly when no window of its key is open or fewer than `limit` were admitted in it |
| `WindowLimiter.SlidingBoundIsTight` | backend/util/serverUtil.go:454-469 | a run that puts 2*limit-1 admissions into one minute |
| `Similarity.Accumulate` | internal/adapters/vector/stub/adapter.go:123-132 | every iteration keeps dot² <= leftNorm*rightNorm |
| `Similarity.CauchySchwarz` | internal/adapters/vector/stub/adapter.go:123-132 | Cauchy-Schwarz for the common prefix of any two vectors |
| `Similarity.CosineSimilarity` | internal/adapters/vector/stub/adapter.go:115-137 | the similarity is the cosine of the common prefix and lies in [-1, 1] |
| `Similarity.SelfSimilarity` | internal/adapters/vector/stub/adapter.go:115-137 | a vector that is not all zero has similarity 1 with itself, so the bound is reached |
| `Similarity.CosineSymmetric` | internal/adapters/vector/stub/adapter.go:115-137 | swapping the vectors changes nothing, also when their lengths differ |
| `Similarity.CosineOpposite` | internal/adapters/vector/stub/adapter.go:115-137 | turning one vector round turns the sign |
| `Similarity.CosineSign` | internal/adapters/vector/stub/adapter.go:115-137 | the similarity has the sign of the dot product, and is 0 for a vector without length |
| `Similarity.CosinePrefix` | internal/adapters/vector/stub/adapter.go:115-137 | only the common prefix counts |
| `Similarity.DotUnit` | internal/adapters/vector/stub/adapter.go:123-132 | every component counts once |

## Left out

- IngestionRuns.RunUpsertsOnce: idempotency keys never expire in the model; the TTL is not represented.
- IngestionWorker.Worker.ProcessNext: the consumer fails only on an empty queue, as the in-memory queue does.
- IngestionInterleaving.InterleavedIndexIsAsIfOnce: compares ids and chunk texts; embeddings and times of the last writer are not fixed by the source either. It needs that jobs sharing record ids share their text, which the source does not enforce; `AsIfOnceIff` shows that this is exact.
- IngestionInterleaving.UpsertsOnceIff: messages may be delivered to any worker any number of times, which covers more than the in-memory queue does; `CrewRefines` relates the two.
- Text.FieldsOfJoin: input is valid UTF-8; Go's handling of broken byte sequences is not represented.
- Similarity.CosineSimilarity: real arithmetic without rounding, with the square root as a given function.
- IngestionWorker.Worker.constructor: the idempotency TTL and its default are not represented.
- IngestionCrew.CrewConserves: the three retention records of a message are applied in one step, and loading, chunking and embedding, which touch nothing shared, in the step of the upsert.
- RateLimiter.Limiter.constructor: `TenantSteadyRPS`, which Allow never reads, is not represented.
- RateLimiter.GlobalIsSumOfTenants: for clocks that never return to a second, more than the non-decreasing ones; some returning runs keep the sum by chance.
- Retrieval.ApplyIdentityRanking: the identity tokeniser and `path.Base` are given functions.
- IntentRanking.QueryIntentScore: lower-casing and the CGPA pattern are given functions.
- IntentRanking.BuildTopFilteredVectors: the answer snippet is a given function.
- Gateway.RerankerAdapter.constructor: the checks of base URL, key and fallback-mode text are left out; the mode is one of the three.
- Gateway.RerankerAdapter.Rerank: `lastTrace` and the fallback reason text are not represented.
- Retrieval.RetrievalService.constructor: timeout, clock, embedder and rewriter settings are left out; their effects are answers.
- Retrieval.RetrievalService.Search: the trace with its fallback reason is not represented.
- UploadIndexing.CollectPending: reading and extraction are given as text, so their failures are not outcomes.
- UploadIndexing.Embed: the fallback model, retries and pacing are one answer.
- UploadIndexing.IndexArtifacts: reading and extracting objects is given as their text; the fallback embedding model and the client's retries and pacing are one answer.
- The in-process vector index's Upsert, Search and PurgeTenant: appending and filtering by tenant; the searches sort with the same stable sort.
- `SQSQueueAdapter`: delivery and deduplication belong to AWS.
- `buildHeuristicRetrievalQuery`: not called.
- HTTP handlers, authentication, governance checks, logging, configuration, PostgreSQL, S3, Milvus, Cohere, PDF and OCR extraction.
