/**
 What "skipped" means: a message is skipped because its key is saved, and a key is saved by an upsert.
 When the parts of a job's identity hold no bar, that upsert was of the same tenant, job and checksum;
 otherwise it may have been another job's.
 */
module IngestionSkips {
  import opened Chunking
  import opened Identity
  import opened Contracts
  import opened IngestionWorker
  import opened IngestionRuns

  /** ProcessNext in this state upserts the head's records. */
  predicate HeadIsUpserted(cfg: Config, s: State, e: Event) {
    e.ProcessNext? && s.queue != [] && Step(cfg, s, e).upserts != s.upserts
  }

  /** The jobs whose records were upserted in the run. */
  function UpsertedJobs(cfg: Config, es: seq<Event>): set<Job> {
    if es == [] then {}
    else
      var front, e := es[..|es| - 1], es[|es| - 1];
      var s := Run(cfg, Init(), front);
      UpsertedJobs(cfg, front) + if HeadIsUpserted(cfg, s, e) then {s.queue[0].job} else {}
  }

  // ----- Every message carries its own job's key -----

  ghost predicate AllKeyed(ms: seq<QueueMessage>) {
    forall i :: 0 <= i < |ms| ==> ms[i].key == IdempotencyKey(ms[i].job)
  }

  /** A saved key is the key of an upserted job. */
  ghost predicate SavedFrom(keys: set<string>, jobs: set<Job>) {
    forall k :: k in keys ==> exists job :: job in jobs && IdempotencyKey(job) == k
  }

  ghost predicate Keyed(s: State, jobs: set<Job>) {
    AllKeyed(s.queue) && AllKeyed(s.dlq) && SavedFrom(s.keys, jobs)
  }

  lemma StoreSaves(cfg: Config, s: State, m: QueueMessage, chunks: seq<string>, vectors: seq<Vector>, w: World)
    requires |vectors| == |chunks|
    ensures var s' := Store(cfg, s, m, chunks, vectors, w).0;
            s'.keys == s.keys || (s'.keys == s.keys + {m.key} && s'.upserts == s.upserts + [m.key])
  {
  }

  /** A key is saved only together with an upsert, and it is the message's own. */
  lemma ProcessSaves(cfg: Config, s: State, m: QueueMessage, w: World)
    ensures var s', k := Process(cfg, s, m, w).0, WithKey(m).key;
            s'.keys == s.keys || (s'.keys == s.keys + {k} && s'.upserts == s.upserts + [k])
  {
    var r, m' := Process(cfg, s, m, w), WithKey(m);
    if r != RetryOrDlq(cfg, s, m', w) && !(r.0 == s && (r.1.Skipped? || r.1.Dropped?)) {
      StoreSaves(cfg, s, m', PayloadChunks(w.blob.value, cfg.chunkSize), w.vectors.value, w);
    }
  }

  lemma SavedFromMore(keys: set<string>, jobs: set<Job>, job: Job)
    requires SavedFrom(keys, jobs)
    ensures SavedFrom(keys, jobs + {job}) && SavedFrom(keys + {IdempotencyKey(job)}, jobs + {job})
  {
    forall k | k in keys + {IdempotencyKey(job)}
      ensures exists j :: j in jobs + {job} && IdempotencyKey(j) == k
    {
      if k in keys {
        var j :| j in jobs && IdempotencyKey(j) == k;
        assert j in jobs + {job};
      } else {
        assert job in jobs + {job};
      }
    }
  }

  lemma NextQueuesKeyed(cfg: Config, s: State, w: World)
    requires AllKeyed(s.queue) && AllKeyed(s.dlq) && cfg.consumer && s.queue != []
    ensures AllKeyed(NextStep(cfg, s, w).queue) && AllKeyed(NextStep(cfg, s, w).dlq)
  {
    var m, t := s.queue[0], s.(queue := s.queue[1..]);
    assert m.key == IdempotencyKey(m.job);
    ProcessRoutes(cfg, t, m, w);
  }

  lemma NextKeyed(cfg: Config, s: State, w: World, jobs: set<Job>)
    requires Keyed(s, jobs) && cfg.consumer && s.queue != []
    ensures Keyed(NextStep(cfg, s, w),
                  jobs + if HeadIsUpserted(cfg, s, ProcessNext(w)) then {s.queue[0].job} else {})
  {
    var m, t := s.queue[0], s.(queue := s.queue[1..]);
    var s' := NextStep(cfg, s, w);
    NextQueuesKeyed(cfg, s, w);
    assert m.key == IdempotencyKey(m.job);
    ProcessSaves(cfg, t, m, w);
    SavedFromMore(s.keys, jobs, m.job);
    assert jobs + {} == jobs;
    if s'.keys != s.keys {
      assert |s'.upserts| == |s.upserts| + 1;
    }
  }

  lemma EnterKeyed(s: State, m: QueueMessage, jobs: set<Job>)
    requires Keyed(s, jobs) && m.key == IdempotencyKey(m.job)
    ensures Keyed(Enter(s, m), jobs)
  {
  }

  lemma StepKeyed(cfg: Config, s: State, e: Event, jobs: set<Job>)
    requires Keyed(s, jobs) && (e.Replay? ==> e.message in s.dlq)
    ensures Keyed(Step(cfg, s, e), jobs + if HeadIsUpserted(cfg, s, e) then {s.queue[0].job} else {})
  {
    match e
    case EnqueueJob(_, job, at, _) =>
      assert jobs + {} == jobs;
      EnterKeyed(s, FreshMessage(job, at), jobs);
    case Replay(m, at, _) =>
      assert jobs + {} == jobs;
      EnterKeyed(s, Replayed(m, at), jobs);
    case ProcessNext(w) =>
      if cfg.consumer && s.queue != [] {
        NextKeyed(cfg, s, w, jobs);
      } else {
        assert jobs + {} == jobs;
      }
  }

  lemma {:induction false} RunKeyed(cfg: Config, es: seq<Event>)
    requires Fed(cfg, es)
    ensures Keyed(Run(cfg, Init(), es), UpsertedJobs(cfg, es))
  {
    if es != [] {
      FedFront(cfg, es);
      RunKeyed(cfg, es[..|es| - 1]);
      StepKeyed(cfg, Run(cfg, Init(), es[..|es| - 1]), es[|es| - 1], UpsertedJobs(cfg, es[..|es| - 1]));
    }
  }

  // ----- A skipped message is a duplicate -----

  predicate SameIdentity(a: Job, b: Job) {
    a.tenant == b.tenant && a.jobId == b.jobId && a.checksum == b.checksum
  }

  /** In every run, a message is skipped only after a job with its key was upserted; and when its tenant,
      job id and checksum hold no bar, that job has the same three, so the message is a duplicate. */
  lemma {:induction false} SkippedIsDuplicate(cfg: Config, es: seq<Event>, w: World)
    requires Fed(cfg, es) && Run(cfg, Init(), es).queue != []
    requires var s := Run(cfg, Init(), es); Process(cfg, s.(queue := s.queue[1..]), s.queue[0], w).1.Skipped?
    ensures var job := Run(cfg, Init(), es).queue[0].job;
            exists j :: && j in UpsertedJobs(cfg, es) && IdempotencyKey(j) == IdempotencyKey(job)
                        && (BarFree(job.tenant, job.jobId, job.checksum) ==> SameIdentity(j, job))
  {
    var s := Run(cfg, Init(), es);
    var m := s.queue[0];
    RunKeyed(cfg, es);
    assert m.key == IdempotencyKey(m.job);
    KeysAreNonempty(m.job);
    SkippedHasKey(cfg, s.(queue := s.queue[1..]), m, w);
    var j :| j in UpsertedJobs(cfg, es) && IdempotencyKey(j) == m.key;
    KeyUniqueIff("idem", m.job.tenant, m.job.jobId, m.job.checksum);
  }

  lemma SkippedHasKey(cfg: Config, s: State, m: QueueMessage, w: World)
    requires Process(cfg, s, m, w).1.Skipped?
    ensures WithKey(m).key in s.keys
  {
    var r, m' := Process(cfg, s, m, w), WithKey(m);
    if r != RetryOrDlq(cfg, s, m', w) && !(r.0 == s && (r.1.Skipped? || r.1.Dropped?)) {
      StoreNeverSkips(cfg, s, m', PayloadChunks(w.blob.value, cfg.chunkSize), w.vectors.value, w);
    }
  }

  lemma StoreNeverSkips(cfg: Config, s: State, m: QueueMessage, chunks: seq<string>, vectors: seq<Vector>, w: World)
    requires |vectors| == |chunks|
    ensures !Store(cfg, s, m, chunks, vectors, w).1.Skipped?
  {
  }

  // ----- With a bar it may be another job's -----

  /** The world lets this message be stored and its key saved. */
  predicate Stores(cfg: Config, s: State, m: QueueMessage, w: World) {
    && AllSet(cfg) && Dependable(w) && w.upsert.UpsertOk? && ValidMessage(m) && m.job.checksum != ""
    && ReachesStore(cfg, s, m, w) && !HasEmptyVector(w.vectors.value)
  }

  lemma StoresSaves(cfg: Config, s: State, m: QueueMessage, w: World)
    requires Stores(cfg, s, m, w)
    ensures var s' := Process(cfg, s, m, w).0;
            && s'.keys == s.keys + {WithKey(m).key} && s'.upserts == s.upserts + [WithKey(m).key]
            && s'.queue == s.queue && s'.dlq == s.dlq
  {
    RecordsValidIff(WithKey(m), w.blob.value, cfg.chunkSize, w.vectors.value, w.now);
  }

  /** Job a is enqueued and processed, then job b is enqueued. */
  function OneThenOther(a: Job, b: Job, w: World): seq<Event> {
    [EnqueueJob(RequestMetadata(a.tenant, "r"), a, 1, false)] + [ProcessNext(w)] +
    [EnqueueJob(RequestMetadata(b.tenant, "r"), b, 1, false)]
  }

  lemma {:induction false} RunSnoc(cfg: Config, es: seq<Event>, e: Event)
    ensures Run(cfg, Init(), es + [e]) == Step(cfg, Run(cfg, Init(), es), e)
    ensures var s := Run(cfg, Init(), es);
            UpsertedJobs(cfg, es + [e]) ==
            UpsertedJobs(cfg, es) + if HeadIsUpserted(cfg, s, e) then {s.queue[0].job} else {}
  {
    assert (es + [e])[..|es|] == es;
  }

  predicate Acceptable(job: Job) {
    ValidJob(job) && job.decision == Approved
  }

  lemma {:induction false} FirstIsStored(cfg: Config, a: Job, w: World)
    requires Acceptable(a) && Stores(cfg, Init(), FreshMessage(a, 1), w)
    ensures var es := [EnqueueJob(RequestMetadata(a.tenant, "r"), a, 1, false)] + [ProcessNext(w)];
            && Run(cfg, Init(), es).queue == [] && Run(cfg, Init(), es).keys == {IdempotencyKey(a)}
            && UpsertedJobs(cfg, es) == {a}
  {
    var e, m := EnqueueJob(RequestMetadata(a.tenant, "r"), a, 1, false), FreshMessage(a, 1);
    KeysAreNonempty(a);
    RunSnoc(cfg, [], e);
    assert [] + [e] == [e];
    var s := Run(cfg, Init(), [e]);
    assert s.queue == [] + [m] && s.queue[1..] == [] && s.keys == {} && s.upserts == [];
    StoresSaves(cfg, s.(queue := []), m, w);
    RunSnoc(cfg, [e], ProcessNext(w));
    assert HeadIsUpserted(cfg, s, ProcessNext(w));
  }

  /** Two jobs with one key: the second is skipped although nothing of its own was ever upserted. */
  lemma {:induction false} SharedKeyIsSkipped(cfg: Config, a: Job, b: Job, w: World, w': World)
    requires Acceptable(a) && Acceptable(b) && IdempotencyKey(a) == IdempotencyKey(b) && !w'.existsFails
    requires Stores(cfg, Init(), FreshMessage(a, 1), w)
    ensures var s := Run(cfg, Init(), OneThenOther(a, b, w));
            && s.queue == [FreshMessage(b, 1)]
            && Process(cfg, s.(queue := s.queue[1..]), s.queue[0], w').1.Skipped?
    ensures UpsertedJobs(cfg, OneThenOther(a, b, w)) == {a}
  {
    var es := [EnqueueJob(RequestMetadata(a.tenant, "r"), a, 1, false)] + [ProcessNext(w)];
    var e := EnqueueJob(RequestMetadata(b.tenant, "r"), b, 1, false);
    KeysAreNonempty(b);
    FirstIsStored(cfg, a, w);
    RunSnoc(cfg, es, e);
    assert Run(cfg, Init(), es + [e]).queue == [] + [FreshMessage(b, 1)];
  }

  /** The failing input: tenant "a" with job "b|c" and tenant "a|b" with job "c" have one key, so the message
      of one tenant is skipped because of the other tenant's upsert. */
  lemma {:induction false} OtherTenantIsSkipped(cfg: Config, a: Job, b: Job, w: World, w': World)
    requires a.tenant == "a" && a.jobId == "b|c" && b.tenant == "a|b" && b.jobId == "c" && a.checksum == b.checksum
    requires Acceptable(a) && Acceptable(b) && !w'.existsFails && Stores(cfg, Init(), FreshMessage(a, 1), w)
    ensures var s, jobs := Run(cfg, Init(), OneThenOther(a, b, w)), UpsertedJobs(cfg, OneThenOther(a, b, w));
            && s.queue == [FreshMessage(b, 1)]
            && Process(cfg, s.(queue := s.queue[1..]), s.queue[0], w').1.Skipped?
            && forall j :: j in jobs ==> !SameIdentity(j, b)
  {
    TaggedKeyIsTriple("idem", a.tenant, a.jobId, a.checksum);
    TaggedKeyIsTriple("idem", b.tenant, b.jobId, b.checksum);
    var x := a.checksum;
    assert "a" + ['|'] + "b|c" == "a|b" + ['|'] + "c";
    assert Triple("a", "b|c", x) == Triple("a|b", "c", x);
    SharedKeyIsSkipped(cfg, a, b, w, w');
  }
}
