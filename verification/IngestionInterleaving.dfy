/**
 Several workers process messages at once: the idempotency check, the upsert and the save of one
 message are separate steps, and any other worker may act between them.  Messages may be
 delivered any number of times.  The blob store answers the same payload each time.
 */
module IngestionInterleaving {
  import opened Sequences
  import opened Chunking
  import opened Identity
  import opened Contracts
  import opened IngestionWorker

  /** Chunk size, and the stable content of the blob store by tenant and source. */
  datatype Setting = Setting(chunkSize: int, blob: (string, string) -> string)

  datatype Phase = Started | Checked | Stored

  /** A message some worker is at. */
  datatype Flight = Flight(message: QueueMessage, phase: Phase)

  datatype Shared = Shared(
    index: map<string, VectorRecord>, keys: set<string>, flights: map<nat, Flight>,
    delivered: set<Job>, stored: set<Job>, upserts: seq<string>)

  datatype Action =
    | Deliver(worker: nat, message: QueueMessage)
    | Check(worker: nat)
    | Upsert(worker: nat, vectors: seq<Vector>, now: nat)
    | UpsertFails(worker: nat, vectors: seq<Vector>, now: nat, written: nat)
    | Save(worker: nat)
    | Abandon(worker: nat)

  function ChunksOf(p: Setting, job: Job): seq<string> {
    PayloadChunks(p.blob(job.tenant, job.sourceUri), p.chunkSize)
  }

  predicate AtPhase(s: Shared, worker: nat, phase: Phase) {
    worker in s.flights && s.flights[worker].phase == phase
  }

  /** The worker has records to upsert. */
  predicate Ready(p: Setting, s: Shared, worker: nat, vectors: seq<Vector>, now: nat) {
    && AtPhase(s, worker, Checked)
    && var m := s.flights[worker].message;
       && |vectors| == |ChunksOf(p, m.job)| > 0
       && AllValid(RecordsOf(m, ChunksOf(p, m.job), vectors, now))
  }

  /** One step; a step that is not enabled changes nothing. */
  function Act(p: Setting, s: Shared, a: Action): Shared {
    match a
    case Deliver(worker, m) =>
      if worker in s.flights then s
      else s.(flights := s.flights[worker := Flight(WithKey(m), Started)], delivered := s.delivered + {m.job})
    case Check(worker) =>
      if !AtPhase(s, worker, Started) then s
      else if s.flights[worker].message.key in s.keys then s.(flights := s.flights - {worker})
      else s.(flights := s.flights[worker := s.flights[worker].(phase := Checked)])
    case Upsert(worker, vectors, now) =>
      if !Ready(p, s, worker, vectors, now) then s
      else
        var m := s.flights[worker].message;
        s.(index := Upserted(s.index, RecordsOf(m, ChunksOf(p, m.job), vectors, now)),
           flights := s.flights[worker := Flight(m, Stored)],
           stored := s.stored + {m.job}, upserts := s.upserts + [m.key])
    case UpsertFails(worker, vectors, now, n) =>
      if !Ready(p, s, worker, vectors, now) || n > |vectors| then s
      else
        var m := s.flights[worker].message;
        s.(index := Upserted(s.index, RecordsOf(m, ChunksOf(p, m.job), vectors, now)[..n]),
           flights := s.flights - {worker})
    case Save(worker) =>
      if !AtPhase(s, worker, Stored) then s
      else s.(keys := s.keys + {s.flights[worker].message.key}, flights := s.flights - {worker})
    case Abandon(worker) =>
      s.(flights := s.flights - {worker})
  }

  function Initial(): Shared {
    Shared(map[], {}, map[], {}, {}, [])
  }

  function Interleave(p: Setting, actions: seq<Action>): Shared {
    if actions == [] then Initial()
    else Act(p, Interleave(p, actions[..|actions| - 1]), actions[|actions| - 1])
  }

  function IdOf(job: Job, i: nat): string {
    RecordId(job.tenant, job.jobId, job.checksum, i)
  }

  // ----- What every interleaving keeps -----

  /** Entry `id` is chunk i of this job. */
  predicate IsChunk(p: Setting, job: Job, i: nat, id: string, r: VectorRecord) {
    id == IdOf(job, i) && i < |ChunksOf(p, job)| && r.chunkText == ChunksOf(p, job)[i]
  }

  ghost predicate Genuine(p: Setting, delivered: set<Job>, index: map<string, VectorRecord>) {
    forall id :: id in index ==> exists job, i: nat :: job in delivered && IsChunk(p, job, i, id, index[id])
  }

  ghost predicate Complete(p: Setting, jobs: set<Job>, index: map<string, VectorRecord>) {
    forall job, i: nat :: job in jobs && i < |ChunksOf(p, job)| ==> IdOf(job, i) in index
  }

  ghost predicate Invariant(p: Setting, s: Shared) {
    && Genuine(p, s.delivered, s.index) && Complete(p, s.stored, s.index) && s.stored <= s.delivered
    && (forall w :: w in s.flights ==> s.flights[w].message.job in s.delivered)
  }

  lemma {:induction false} UpsertedKeepsKeys(index: map<string, VectorRecord>, rs: seq<VectorRecord>)
    ensures index.Keys <= Upserted(index, rs).Keys
    ensures forall i :: 0 <= i < |rs| ==> rs[i].recordId in Upserted(index, rs)
  {
    if rs != [] {
      UpsertedKeepsKeys(index, rs[..|rs| - 1]);
    }
  }

  /** Writing any prefix of a delivered job's records leaves only genuine entries. */
  lemma {:induction false} UpsertedGenuine(p: Setting, delivered: set<Job>, index: map<string, VectorRecord>,
                                           m: QueueMessage, vectors: seq<Vector>, now: nat, n: nat)
    requires Genuine(p, delivered, index) && m.job in delivered && |vectors| == |ChunksOf(p, m.job)| && n <= |vectors|
    ensures Genuine(p, delivered, Upserted(index, RecordsOf(m, ChunksOf(p, m.job), vectors, now)[..n]))
  {
    var rs := RecordsOf(m, ChunksOf(p, m.job), vectors, now);
    if n > 0 {
      UpsertedGenuine(p, delivered, index, m, vectors, now, n - 1);
      assert rs[..n][..n - 1] == rs[..n - 1];
      var before := Upserted(index, rs[..n - 1]);
      var after := Upserted(index, rs[..n]);
      assert after == before[rs[n - 1].recordId := rs[n - 1]];
      forall id | id in after
        ensures exists job, i: nat :: job in delivered && IsChunk(p, job, i, id, after[id])
      {
        if id == rs[n - 1].recordId {
          assert IsChunk(p, m.job, n - 1, id, after[id]);
        } else {
          assert after[id] == before[id];
        }
      }
    }
  }

  lemma GenuineGrows(p: Setting, delivered: set<Job>, more: set<Job>, index: map<string, VectorRecord>)
    requires Genuine(p, delivered, index) && delivered <= more
    ensures Genuine(p, more, index)
  {
    forall id | id in index
      ensures exists job, i: nat :: job in more && IsChunk(p, job, i, id, index[id])
    {
      var job, i: nat :| job in delivered && IsChunk(p, job, i, id, index[id]);
      assert job in more;
    }
  }

  lemma UpsertComplete(p: Setting, s: Shared, m: QueueMessage, vectors: seq<Vector>, now: nat)
    requires Complete(p, s.stored, s.index) && |vectors| == |ChunksOf(p, m.job)|
    ensures Complete(p, s.stored + {m.job}, Upserted(s.index, RecordsOf(m, ChunksOf(p, m.job), vectors, now)))
  {
    var rs := RecordsOf(m, ChunksOf(p, m.job), vectors, now);
    UpsertedKeepsKeys(s.index, rs);
    forall job, i: nat | job in s.stored + {m.job} && i < |ChunksOf(p, job)|
      ensures IdOf(job, i) in Upserted(s.index, rs)
    {
      if job == m.job {
        assert rs[i].recordId == IdOf(job, i);
      }
    }
  }

  lemma UpsertKeeps(p: Setting, s: Shared, a: Action)
    requires Invariant(p, s) && a.Upsert? && Ready(p, s, a.worker, a.vectors, a.now)
    ensures Invariant(p, Act(p, s, a))
  {
    var m := s.flights[a.worker].message;
    var rs := RecordsOf(m, ChunksOf(p, m.job), a.vectors, a.now);
    assert rs[..|a.vectors|] == rs;
    UpsertedGenuine(p, s.delivered, s.index, m, a.vectors, a.now, |a.vectors|);
    UpsertComplete(p, s, m, a.vectors, a.now);
  }

  lemma UpsertFailsKeeps(p: Setting, s: Shared, a: Action)
    requires Invariant(p, s) && a.UpsertFails? && Ready(p, s, a.worker, a.vectors, a.now) && a.written <= |a.vectors|
    ensures Invariant(p, Act(p, s, a))
  {
    var m := s.flights[a.worker].message;
    var index' := Upserted(s.index, RecordsOf(m, ChunksOf(p, m.job), a.vectors, a.now)[..a.written]);
    assert Act(p, s, a) == s.(index := index', flights := s.flights - {a.worker});
    UpsertedGenuine(p, s.delivered, s.index, m, a.vectors, a.now, a.written);
    UpsertedKeepsKeys(s.index, RecordsOf(m, ChunksOf(p, m.job), a.vectors, a.now)[..a.written]);
    CompleteGrows(p, s.stored, s.index, index');
  }

  lemma CompleteGrows(p: Setting, jobs: set<Job>, index: map<string, VectorRecord>, index': map<string, VectorRecord>)
    requires Complete(p, jobs, index) && index.Keys <= index'.Keys
    ensures Complete(p, jobs, index')
  {
    forall job, i: nat | job in jobs && i < |ChunksOf(p, job)|
      ensures IdOf(job, i) in index'
    {
      assert IdOf(job, i) in index.Keys;
    }
  }

  lemma ActKeeps(p: Setting, s: Shared, a: Action)
    requires Invariant(p, s)
    ensures Invariant(p, Act(p, s, a))
  {
    match a
    case Deliver(worker, m) =>
      GenuineGrows(p, s.delivered, s.delivered + {m.job}, s.index);
    case Upsert(worker, vectors, now) =>
      if Ready(p, s, worker, vectors, now) {
        UpsertKeeps(p, s, a);
      }
    case UpsertFails(worker, vectors, now, n) =>
      if Ready(p, s, worker, vectors, now) && n <= |vectors| {
        UpsertFailsKeeps(p, s, a);
      }
    case Check(_) =>
    case Save(_) =>
    case Abandon(_) =>
  }

  lemma {:induction false} InterleaveKeeps(p: Setting, actions: seq<Action>)
    ensures Invariant(p, Interleave(p, actions))
  {
    if actions != [] {
      InterleaveKeeps(p, actions[..|actions| - 1]);
      ActKeeps(p, Interleave(p, actions[..|actions| - 1]), actions[|actions| - 1]);
    }
  }

  /** The two jobs write under the same record ids. */
  predicate SameIds(a: Job, b: Job) {
    TaggedKey("vec", a.tenant, a.jobId, a.checksum) == TaggedKey("vec", b.tenant, b.jobId, b.checksum)
  }

  /** Delivered jobs that share their record ids also share their text. */
  ghost predicate Coherent(p: Setting, jobs: set<Job>) {
    forall a, b :: a in jobs && b in jobs && SameIds(a, b) ==> ChunksOf(p, a) == ChunksOf(p, b)
  }

  /** The entries of one job agree, in ids and in chunk texts. */
  ghost predicate SameForJob(job: Job, index: map<string, VectorRecord>, other: map<string, VectorRecord>) {
    forall i: nat :: (IdOf(job, i) in index <==> IdOf(job, i) in other) &&
      (IdOf(job, i) in index ==> index[IdOf(job, i)].chunkText == other[IdOf(job, i)].chunkText)
  }

  /** An index that holds only genuine entries, and all of this job's, is fixed on this job. */
  lemma JobEntries(p: Setting, jobs: set<Job>, index: map<string, VectorRecord>, job: Job, i: nat)
    requires Genuine(p, jobs, index) && Coherent(p, jobs) && job in jobs && Complete(p, {job}, index)
    ensures IdOf(job, i) in index <==> i < |ChunksOf(p, job)|
    ensures IdOf(job, i) in index ==> index[IdOf(job, i)].chunkText == ChunksOf(p, job)[i]
  {
    var id := IdOf(job, i);
    if id in index {
      var job', i': nat :| job' in jobs && IsChunk(p, job', i', id, index[id]);
      RecordIdInjective(job.tenant, job.jobId, job.checksum, i, job'.tenant, job'.jobId, job'.checksum, i');
      assert SameIds(job, job') && ChunksOf(p, job) == ChunksOf(p, job');
    }
  }

  /** However the workers interleave, once a job has been stored its part of the index has the ids and
      chunk texts that one processing alone leaves, even though it may have been upserted many times. */
  lemma {:induction false} InterleavedIndexIsAsIfOnce(p: Setting, actions: seq<Action>, m: QueueMessage,
                                                      vectors: seq<Vector>, now: nat)
    requires |vectors| == |ChunksOf(p, m.job)|
    ensures var s := Interleave(p, actions);
            Coherent(p, s.delivered) && m.job in s.stored ==>
              SameForJob(m.job, s.index, Upserted(map[], RecordsOf(m, ChunksOf(p, m.job), vectors, now)))
  {
    if Coherent(p, Interleave(p, actions).delivered) && m.job in Interleave(p, actions).stored {
      StoredIsAsIfOnce(p, actions, m, vectors, now);
    }
  }

  lemma {:induction false} StoredIsAsIfOnce(p: Setting, actions: seq<Action>, m: QueueMessage, vectors: seq<Vector>,
                                            now: nat)
    requires var s := Interleave(p, actions); Coherent(p, s.delivered) && m.job in s.stored
    requires |vectors| == |ChunksOf(p, m.job)|
    ensures SameForJob(m.job, Interleave(p, actions).index,
                       Upserted(map[], RecordsOf(m, ChunksOf(p, m.job), vectors, now)))
  {
    var s := Interleave(p, actions);
    InterleaveKeeps(p, actions);
    var rs := RecordsOf(m, ChunksOf(p, m.job), vectors, now);
    var alone := Upserted(map[], rs);
    assert rs[..|vectors|] == rs;
    UpsertedGenuine(p, {m.job}, map[], m, vectors, now, |vectors|);
    UpsertComplete(p, Initial(), m, vectors, now);
    assert {} + {m.job} == {m.job};
    forall i: nat
      ensures (IdOf(m.job, i) in s.index <==> IdOf(m.job, i) in alone) &&
              (IdOf(m.job, i) in s.index ==> s.index[IdOf(m.job, i)].chunkText == alone[IdOf(m.job, i)].chunkText)
    {
      JobEntries(p, s.delivered, s.index, m.job, i);
      JobEntries(p, {m.job}, alone, m.job, i);
    }
  }

  // ----- When a key is upserted at most once -----

  /** Two workers take the same message and both look before either has saved. */
  function BothCheck(a: nat, b: nat, m: QueueMessage): seq<Action> {
    [Deliver(a, m)] + [Deliver(b, m)] + [Check(a)] + [Check(b)]
  }

  function BothUpsert(a: nat, b: nat, m: QueueMessage, vectors: seq<Vector>, now: nat): seq<Action> {
    BothCheck(a, b, m) + [Upsert(a, vectors, now)] + [Upsert(b, vectors, now)]
  }

  lemma {:induction false} BothPassTheCheck(p: Setting, a: nat, b: nat, m: QueueMessage)
    requires a != b
    ensures var s := Interleave(p, BothCheck(a, b, m));
            && s.upserts == []
            && s.flights == map[a := Flight(WithKey(m), Checked), b := Flight(WithKey(m), Checked)]
  {
    var d, d' := Deliver(a, m), Deliver(b, m);
    assert Interleave(p, []) == Initial();
    InterleaveSnoc(p, [], d);
    assert [] + [d] == [d];
    InterleaveSnoc(p, [d], d');
    InterleaveSnoc(p, [d] + [d'], Check(a));
    InterleaveSnoc(p, [d] + [d'] + [Check(a)], Check(b));
  }

  /** The message can be indexed with these vectors at this time. */
  predicate Indexable(p: Setting, m: QueueMessage, vectors: seq<Vector>, now: nat) {
    && |vectors| == |ChunksOf(p, m.job)| > 0
    && AllValid(RecordsOf(WithKey(m), ChunksOf(p, m.job), vectors, now))
  }

  /** The idempotency check does not stop this: two workers that both check before either saves both upsert. */
  lemma {:induction false} TwoWorkersUpsertTwice(p: Setting, a: nat, b: nat, m: QueueMessage, vectors: seq<Vector>,
                                                 now: nat)
    requires a != b && Indexable(p, m, vectors, now)
    ensures Interleave(p, BothUpsert(a, b, m, vectors, now)).upserts == [WithKey(m).key, WithKey(m).key]
  {
    var u, u' := Upsert(a, vectors, now), Upsert(b, vectors, now);
    BothPassTheCheck(p, a, b, m);
    var s := Interleave(p, BothCheck(a, b, m));
    UpsertCounts(p, s, a, b, vectors, now);
    UpsertCounts(p, Act(p, s, u), b, a, vectors, now);
    InterleaveSnoc(p, BothCheck(a, b, m), u);
    InterleaveSnoc(p, BothCheck(a, b, m) + [u], u');
  }

  lemma UpsertCounts(p: Setting, s: Shared, worker: nat, other: nat, vectors: seq<Vector>, now: nat)
    requires Ready(p, s, worker, vectors, now) && other in s.flights && other != worker
    ensures var s' := Act(p, s, Upsert(worker, vectors, now));
            && s'.upserts == s.upserts + [s.flights[worker].message.key]
            && other in s'.flights && s'.flights[other] == s.flights[other]
  {
  }

  lemma {:induction false} InterleaveSnoc(p: Setting, actions: seq<Action>, a: Action)
    ensures Interleave(p, actions + [a]) == Act(p, Interleave(p, actions), a)
  {
    assert (actions + [a])[..|actions|] == actions;
  }

  /** The action gives up on a message that is stored but whose key is not yet saved. */
  predicate LosesSave(s: Shared, a: Action) {
    a.Abandon? && AtPhase(s, a.worker, Stored)
  }

  /** A schedule of these workers in which no save is lost. */
  predicate Schedule(p: Setting, workers: set<nat>, actions: seq<Action>) {
    actions == [] ||
    var front, a := actions[..|actions| - 1], actions[|actions| - 1];
    Schedule(p, workers, front) && a.worker in workers && !LosesSave(Interleave(p, front), a)
  }

  ghost predicate PairwiseDistinct(keys: seq<string>) {
    forall i, j :: 0 <= i < j < |keys| ==> keys[i] != keys[j]
  }

  /** What one worker alone keeps: what was upserted is saved, or is the message just stored; a message
      past the check is not saved. */
  ghost predicate Alone(worker: nat, s: Shared) {
    && s.flights.Keys <= {worker} && PairwiseDistinct(s.upserts)
    && (forall i :: 0 <= i < |s.upserts| ==>
          s.upserts[i] in s.keys || (AtPhase(s, worker, Stored) && s.flights[worker].message.key == s.upserts[i]))
    && (AtPhase(s, worker, Checked) ==> s.flights[worker].message.key !in s.keys)
  }

  lemma ActAlone(p: Setting, worker: nat, s: Shared, a: Action)
    requires Alone(worker, s) && a.worker == worker && !LosesSave(s, a)
    ensures Alone(worker, Act(p, s, a))
  {
  }

  lemma {:induction false} ScheduleAlone(p: Setting, worker: nat, actions: seq<Action>)
    requires Schedule(p, {worker}, actions)
    ensures Alone(worker, Interleave(p, actions))
  {
    if actions != [] {
      ScheduleAlone(p, worker, actions[..|actions| - 1]);
      ActAlone(p, worker, Interleave(p, actions[..|actions| - 1]), actions[|actions| - 1]);
    }
  }

  lemma {:induction false} ScheduleWidens(p: Setting, workers: set<nat>, more: set<nat>, actions: seq<Action>)
    requires Schedule(p, workers, actions) && workers <= more
    ensures Schedule(p, more, actions)
  {
    if actions != [] {
      ScheduleWidens(p, workers, more, actions[..|actions| - 1]);
    }
  }

  ghost predicate UpsertsOnce(p: Setting, workers: set<nat>) {
    forall actions :: Schedule(p, workers, actions) ==> PairwiseDistinct(Interleave(p, actions).upserts)
  }

  lemma AtMostOne(workers: set<nat>) returns (worker: nat)
    requires |workers| <= 1
    ensures workers <= {worker}
  {
    worker := 0;
    if w :| w in workers {
      worker := w;
      assert |workers - {w}| == 0;
    }
  }

  lemma TwoOf(workers: set<nat>) returns (a: nat, b: nat)
    requires |workers| > 1
    ensures a in workers && b in workers && a != b
  {
    a :| a in workers;
    assert |workers - {a}| > 0;
    b :| b in workers - {a};
  }

  lemma OneWorkerUpsertsOnce(p: Setting, workers: set<nat>)
    requires |workers| <= 1
    ensures UpsertsOnce(p, workers)
  {
    var worker := AtMostOne(workers);
    forall actions | Schedule(p, workers, actions)
      ensures PairwiseDistinct(Interleave(p, actions).upserts)
    {
      ScheduleWidens(p, workers, {worker}, actions);
      ScheduleAlone(p, worker, actions);
    }
  }

  lemma {:induction false} ScheduleSnoc(p: Setting, workers: set<nat>, actions: seq<Action>, a: Action)
    requires Schedule(p, workers, actions) && a.worker in workers && !a.Abandon?
    ensures Schedule(p, workers, actions + [a])
  {
    assert (actions + [a])[..|actions|] == actions;
  }

  lemma {:induction false} BothUpsertIsSchedule(p: Setting, workers: set<nat>, a: nat, b: nat, m: QueueMessage,
                                                vectors: seq<Vector>, now: nat)
    requires a in workers && b in workers
    ensures Schedule(p, workers, BothUpsert(a, b, m, vectors, now))
  {
    var d, d' := Deliver(a, m), Deliver(b, m);
    assert [] + [d] == [d];
    ScheduleSnoc(p, workers, [], d);
    ScheduleSnoc(p, workers, [d], d');
    ScheduleSnoc(p, workers, [d] + [d'], Check(a));
    ScheduleSnoc(p, workers, [d] + [d'] + [Check(a)], Check(b));
    ScheduleSnoc(p, workers, BothCheck(a, b, m), Upsert(a, vectors, now));
    ScheduleSnoc(p, workers, BothCheck(a, b, m) + [Upsert(a, vectors, now)], Upsert(b, vectors, now));
  }

  /** With something to index, no schedule upserts a key twice if and only if there is at most one worker. */
  lemma UpsertsOnceIff(p: Setting, workers: set<nat>, m: QueueMessage, vectors: seq<Vector>, now: nat)
    requires Indexable(p, m, vectors, now)
    ensures UpsertsOnce(p, workers) <==> |workers| <= 1
  {
    if |workers| <= 1 {
      OneWorkerUpsertsOnce(p, workers);
    } else {
      var a, b := TwoOf(workers);
      BothUpsertIsSchedule(p, workers, a, b, m, vectors, now);
      TwoWorkersUpsertTwice(p, a, b, m, vectors, now);
      var keys := Interleave(p, BothUpsert(a, b, m, vectors, now)).upserts;
      assert keys[0] == keys[1];
    }
  }

  // ----- When the index is as after one processing -----

  /** Vectors for a job's chunks; which ones does not matter here. */
  function SomeVectors(p: Setting, job: Job): seq<Vector> {
    Repeat([1.0], |ChunksOf(p, job)|)
  }

  /** What one processing of the job alone leaves. */
  function OnceAlone(p: Setting, job: Job): map<string, VectorRecord> {
    Upserted(map[], RecordsOf(FreshMessage(job, 1), ChunksOf(p, job), SomeVectors(p, job), 1))
  }

  predicate CanBeIndexed(p: Setting, job: Job) {
    Indexable(p, FreshMessage(job, 1), SomeVectors(p, job), 1)
  }

  predicate DeliversOnly(jobs: set<Job>, actions: seq<Action>) {
    forall i :: 0 <= i < |actions| && actions[i].Deliver? ==> actions[i].message.job in jobs
  }

  /** Every stored job's part of the index is what one processing of it alone leaves. */
  ghost predicate AsIfOnce(p: Setting, s: Shared) {
    forall job :: job in s.stored ==> SameForJob(job, s.index, OnceAlone(p, job))
  }

  ghost predicate AlwaysAsIfOnce(p: Setting, jobs: set<Job>) {
    forall actions :: DeliversOnly(jobs, actions) ==> AsIfOnce(p, Interleave(p, actions))
  }

  lemma {:induction false} DeliveredAmong(p: Setting, jobs: set<Job>, actions: seq<Action>)
    requires DeliversOnly(jobs, actions)
    ensures Interleave(p, actions).delivered <= jobs
  {
    if actions != [] {
      DeliveredAmong(p, jobs, actions[..|actions| - 1]);
    }
  }

  lemma {:induction false} CoherentIsAsIfOnce(p: Setting, jobs: set<Job>, actions: seq<Action>)
    requires Coherent(p, jobs) && DeliversOnly(jobs, actions)
    ensures AsIfOnce(p, Interleave(p, actions))
  {
    var s := Interleave(p, actions);
    DeliveredAmong(p, jobs, actions);
    forall job | job in s.stored
      ensures SameForJob(job, s.index, OnceAlone(p, job))
    {
      StoredIsAsIfOnce(p, actions, FreshMessage(job, 1), SomeVectors(p, job), 1);
    }
  }

  /** Two jobs, each with a worker that checks before the other saves; b is written last. */
  function Collide(p: Setting, a: Job, b: Job): seq<Action> {
    TwoChecks(a, b) + [Upsert(0, SomeVectors(p, a), 1)] + [Upsert(1, SomeVectors(p, b), 1)]
  }

  function TwoChecks(a: Job, b: Job): seq<Action> {
    [Deliver(0, FreshMessage(a, 1))] + [Deliver(1, FreshMessage(b, 1))] + [Check(0)] + [Check(1)]
  }

  function Collided(p: Setting, a: Job, b: Job): map<string, VectorRecord> {
    Upserted(OnceAlone(p, a), RecordsOf(FreshMessage(b, 1), ChunksOf(p, b), SomeVectors(p, b), 1))
  }

  lemma {:induction false} BothChecked(p: Setting, a: Job, b: Job)
    ensures Interleave(p, TwoChecks(a, b)) == Shared(
              map[], {},
              map[0 := Flight(FreshMessage(a, 1), Checked), 1 := Flight(FreshMessage(b, 1), Checked)], {a, b}, {}, [])
  {
    var d, d' := Deliver(0, FreshMessage(a, 1)), Deliver(1, FreshMessage(b, 1));
    FreshHasKey(a);
    FreshHasKey(b);
    assert Interleave(p, []) == Initial();
    InterleaveSnoc(p, [], d);
    assert [] + [d] == [d];
    InterleaveSnoc(p, [d], d');
    InterleaveSnoc(p, [d] + [d'], Check(0));
    InterleaveSnoc(p, [d] + [d'] + [Check(0)], Check(1));
  }

  lemma FreshHasKey(job: Job)
    ensures WithKey(FreshMessage(job, 1)) == FreshMessage(job, 1)
  {
  }

  /** What a worker's upsert of a fresh job changes. */
  lemma UpsertsFresh(p: Setting, s: Shared, worker: nat, job: Job)
    requires worker in s.flights && s.flights[worker] == Flight(FreshMessage(job, 1), Checked) && CanBeIndexed(p, job)
    ensures var s' := Act(p, s, Upsert(worker, SomeVectors(p, job), 1));
            && s'.index == Upserted(s.index, RecordsOf(FreshMessage(job, 1), ChunksOf(p, job), SomeVectors(p, job), 1))
            && s'.stored == s.stored + {job}
            && s'.flights == s.flights[worker := Flight(FreshMessage(job, 1), Stored)]
  {
    FreshHasKey(job);
  }

  lemma {:induction false} CollideRuns(p: Setting, a: Job, b: Job)
    requires CanBeIndexed(p, a) && CanBeIndexed(p, b)
    ensures var s := Interleave(p, Collide(p, a, b)); s.index == Collided(p, a, b) && s.stored == {a, b}
  {
    var checked := TwoChecks(a, b);
    var u, u' := Upsert(0, SomeVectors(p, a), 1), Upsert(1, SomeVectors(p, b), 1);
    BothChecked(p, a, b);
    UpsertsFresh(p, Interleave(p, checked), 0, a);
    InterleaveSnoc(p, checked, u);
    UpsertsFresh(p, Interleave(p, checked + [u]), 1, b);
    InterleaveSnoc(p, checked + [u], u');
  }

  lemma CollideDelivers(p: Setting, jobs: set<Job>, a: Job, b: Job)
    requires a in jobs && b in jobs
    ensures DeliversOnly(jobs, Collide(p, a, b))
  {
  }

  /** One processing alone leaves exactly the job's own chunks. */
  lemma OnceAloneEntries(p: Setting, job: Job, i: nat)
    ensures IdOf(job, i) in OnceAlone(p, job) <==> i < |ChunksOf(p, job)|
    ensures i < |ChunksOf(p, job)| ==> OnceAlone(p, job)[IdOf(job, i)].chunkText == ChunksOf(p, job)[i]
  {
    var m, vectors := FreshMessage(job, 1), SomeVectors(p, job);
    var rs := RecordsOf(m, ChunksOf(p, job), vectors, 1);
    assert rs[..|vectors|] == rs;
    UpsertedGenuine(p, {job}, map[], m, vectors, 1, |vectors|);
    UpsertComplete(p, Initial(), m, vectors, 1);
    assert {} + {job} == {job};
    JobEntries(p, {job}, OnceAlone(p, job), job, i);
  }

  lemma {:induction false} LastWriteWins(index: map<string, VectorRecord>, rs: seq<VectorRecord>, i: nat)
    requires i < |rs| && forall j, k :: 0 <= j < k < |rs| ==> rs[j].recordId != rs[k].recordId
    ensures rs[i].recordId in Upserted(index, rs) && Upserted(index, rs)[rs[i].recordId] == rs[i]
  {
    if i < |rs| - 1 {
      LastWriteWins(index, rs[..|rs| - 1], i);
    }
  }

  /** After the collision the index holds b's chunks. */
  lemma CollidedEntries(p: Setting, a: Job, b: Job, i: nat)
    requires i < |ChunksOf(p, b)|
    ensures IdOf(b, i) in Collided(p, a, b) && Collided(p, a, b)[IdOf(b, i)].chunkText == ChunksOf(p, b)[i]
  {
    var rs := RecordsOf(FreshMessage(b, 1), ChunksOf(p, b), SomeVectors(p, b), 1);
    forall j, k | 0 <= j < k < |rs|
      ensures rs[j].recordId != rs[k].recordId
    {
      if rs[j].recordId == rs[k].recordId {
        RecordIdInjective(b.tenant, b.jobId, b.checksum, j, b.tenant, b.jobId, b.checksum, k);
      }
    }
    LastWriteWins(OnceAlone(p, a), rs, i);
    assert rs[i].recordId == IdOf(b, i);
  }

  lemma SameIdsMeet(a: Job, b: Job, i: nat)
    requires SameIds(a, b)
    ensures IdOf(a, i) == IdOf(b, i)
  {
    RecordIdParts(a.tenant, a.jobId, a.checksum, i);
    RecordIdParts(b.tenant, b.jobId, b.checksum, i);
  }

  /** The failing input: two jobs with the same record ids and different text.  Both are accepted, as
      nothing compares them, and the one written first does not keep its part of the index: it gets
      chunks it does not have, or its text is replaced. */
  lemma {:induction false} CollisionIsSeen(p: Setting, a: Job, b: Job)
    requires CanBeIndexed(p, a) && CanBeIndexed(p, b) && SameIds(a, b)
    requires ChunksOf(p, a) != ChunksOf(p, b) && |ChunksOf(p, a)| <= |ChunksOf(p, b)|
    ensures !AsIfOnce(p, Interleave(p, Collide(p, a, b)))
  {
    var s, ca, cb := Interleave(p, Collide(p, a, b)), ChunksOf(p, a), ChunksOf(p, b);
    CollideRuns(p, a, b);
    var i: nat :| i < |cb| && (i < |ca| ==> ca[i] != cb[i]);
    SameIdsMeet(a, b, i);
    CollidedEntries(p, a, b, i);
    OnceAloneEntries(p, a, i);
    assert a in s.stored && !SameForJob(a, s.index, OnceAlone(p, a));
  }

  /** For jobs that can be indexed: in every interleaving of any workers that deliver only these jobs each
      stored job's part of the index is as after one processing alone, if and only if jobs that share
      their record ids share their text. */
  lemma AsIfOnceIff(p: Setting, jobs: set<Job>)
    requires forall job :: job in jobs ==> CanBeIndexed(p, job)
    ensures AlwaysAsIfOnce(p, jobs) <==> Coherent(p, jobs)
  {
    if Coherent(p, jobs) {
      forall actions | DeliversOnly(jobs, actions)
        ensures AsIfOnce(p, Interleave(p, actions))
      {
        CoherentIsAsIfOnce(p, jobs, actions);
      }
    } else {
      var a, b :| a in jobs && b in jobs && SameIds(a, b) && ChunksOf(p, a) != ChunksOf(p, b);
      if |ChunksOf(p, a)| <= |ChunksOf(p, b)| {
        CollideDelivers(p, jobs, a, b);
        CollisionIsSeen(p, a, b);
      } else {
        CollideDelivers(p, jobs, b, a);
        CollisionIsSeen(p, b, a);
      }
    }
  }

  /** Nothing in the acceptance of a job rules the failing input out: two approved jobs of one tenant with
      the same id and checksum and different sources are both accepted and share their record ids. */
  lemma CollidingJobsAreAccepted(cfg: Config, a: Job, source: string, at: nat)
    requires cfg.producer && ValidJob(a) && a.decision == Approved && source != "" && at != 0
    ensures var b := a.(sourceUri := source);
            && Accepts(cfg, RequestMetadata(a.tenant, "r"), a, at, false)
            && Accepts(cfg, RequestMetadata(b.tenant, "r"), b, at, false)
            && SameIds(a, b) && IdempotencyKey(a) == IdempotencyKey(b)
  {
    TaggedKeyIsTriple("msg", a.tenant, a.jobId, a.checksum);
  }
}
