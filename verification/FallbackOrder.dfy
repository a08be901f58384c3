/**
 What the fallback does to the order of a search.  When the gateway adapter falls back it returns the
 candidates by vector score, and the service fuses that reply like a real one: the documents it was
 sent end up in vector order, in front of the others in vector order, and the identity ranking is undone.
 */
module FallbackOrder {
  import opened Sequences
  import opened Contracts
  import opened StableSort
  import opened Ranking
  import opened RerankFusion
  import opened Gateway
  import opened Retrieval

  // ----- Sorting and mapping -----

  lemma {:induction false} InsertMaps<A(!new), B>(less: (A, A) -> bool, less': (B, B) -> bool, f: A -> B, s: seq<A>,
                                                  x: A)
    requires forall a, b :: less'(f(a), f(b)) == less(a, b)
    ensures Mapped(f, Insert(less, s, x)) == Insert(less', Mapped(f, s), f(x))
  {
    if s != [] && less(x, s[|s| - 1]) {
      var front := s[..|s| - 1];
      InsertMaps(less, less', f, front, x);
      assert Mapped(f, s)[..|s| - 1] == Mapped(f, front);
    }
  }

  /** Sorting commutes with a map that keeps the order. */
  lemma {:induction false} SortMaps<A(!new), B>(less: (A, A) -> bool, less': (B, B) -> bool, f: A -> B, s: seq<A>)
    requires forall a, b :: less'(f(a), f(b)) == less(a, b)
    ensures Mapped(f, Sort(less, s)) == Sort(less', Mapped(f, s))
  {
    if s != [] {
      var front := s[..|s| - 1];
      SortMaps(less, less', f, front);
      InsertMaps(less, less', f, Sort(less, front), s[|s| - 1]);
      assert Mapped(f, s)[..|s| - 1] == Mapped(f, front);
    }
  }

  function AsCandidate(): Document -> Candidate {
    (d: Document) => Candidate(d.id, d.content, d.score)
  }

  /** The documents that were sent, as candidates by vector score. */
  function ReplyFor(head: seq<Document>): seq<Candidate> {
    Mapped(AsCandidate(), Sort(ByScore(), head))
  }

  /** The fallback's reply for the first n documents: these documents by vector score. */
  lemma FallbackIsSorted(docs: seq<Document>, n: nat)
    requires n <= |docs|
    ensures Top(CandidatesOf(docs, n), n) == ReplyFor(docs[..n])
  {
    var head := docs[..n];
    assert CandidatesOf(docs, n) == Mapped(AsCandidate(), head);
    SortMaps(ByScore(), Higher(), AsCandidate(), head);
  }

  // ----- Fusing it -----

  ghost predicate AboveMinusOne(docs: seq<Document>) {
    forall i :: 0 <= i < |docs| ==> docs[i].score > -1.0
  }

  /** A reply in falling vector order with scores above -1 has falling positive fused scores. */
  lemma SortedDescends(sorted: seq<Document>)
    requires AboveMinusOne(sorted) && forall i, j :: 0 <= i < j < |sorted| ==> sorted[i].score >= sorted[j].score
    ensures Descending(Mapped(AsCandidate(), sorted))
  {
    var ranked := Mapped(AsCandidate(), sorted);
    forall i, j | 0 <= i < j < |ranked|
      ensures FusedScore(ranked, i) > FusedScore(ranked, j)
    {
      assert sorted[i].score >= sorted[j].score;
      assert (|ranked| - i) as real >= (|ranked| - j) as real + 1.0;
    }
  }

  lemma {:induction false} WithIdUnique(docs: seq<Document>, d: Document)
    requires DistinctDocIds(docs) && d in docs
    ensures WithId(docs, d.id) == [d]
  {
    var front, last := docs[..|docs| - 1], docs[|docs| - 1];
    assert docs == front + [last];
    if last.id == d.id {
      WithIdNone(front, d.id);
      assert d == last;
    } else {
      WithIdUnique(front, d);
    }
  }

  lemma {:induction false} WithIdNone(docs: seq<Document>, id: string)
    requires forall i :: 0 <= i < |docs| ==> docs[i].id != id
    ensures WithId(docs, id) == []
  {
    if docs != [] {
      WithIdNone(docs[..|docs| - 1], id);
    }
  }

  /** The named documents are the sorted ones themselves. */
  lemma {:induction false} NamedAreSorted(docs: seq<Document>, sorted: seq<Document>, i: nat)
    requires DistinctDocIds(docs) && i <= |sorted| && forall k :: 0 <= k < |sorted| ==> sorted[k] in docs
    ensures NamedFrom(docs, Mapped(AsCandidate(), sorted), i) == sorted[i..]
    decreases |sorted| - i
  {
    if i < |sorted| {
      NamedAreSorted(docs, sorted, i + 1);
      WithIdUnique(docs, sorted[i]);
      assert sorted[i..] == [sorted[i]] + sorted[i + 1..];
    }
  }

  lemma {:induction false} UnnamedIsTail(head: seq<Document>, tail: seq<Document>, ranked: seq<Candidate>)
    requires forall i :: 0 <= i < |head| ==> Names(ranked, head[i].id)
    requires forall i :: 0 <= i < |tail| ==> !Names(ranked, tail[i].id)
    ensures Unnamed(head + tail, ranked) == tail
  {
    if tail != [] {
      var front := tail[..|tail| - 1];
      UnnamedIsTail(head, front, ranked);
      assert (head + tail)[..|head + tail| - 1] == head + front;
    } else if head != [] {
      UnnamedIsTail(head[..|head| - 1], [], ranked);
      assert head + tail == head && head[..|head| - 1] + [] == head[..|head| - 1];
    }
  }

  /** What the reply names: exactly the documents that were sent. */
  lemma NamesHead(head: seq<Document>, id: string)
    ensures Names(ReplyFor(head), id) <==> exists i :: 0 <= i < |head| && head[i].id == id
  {
    var sorted := Sort(ByScore(), head);
    var ranked := Mapped(AsCandidate(), sorted);
    SortMembers(ByScore(), head);
    if Names(ranked, id) {
      var k :| 0 <= k < |ranked| && ranked[k].id == id;
      assert sorted[k] in head;
    }
    if exists i :: 0 <= i < |head| && head[i].id == id {
      var i :| 0 <= i < |head| && head[i].id == id;
      assert head[i] in sorted;
      var k :| 0 <= k < |sorted| && sorted[k] == head[i];
      assert ranked[k].id == id;
    }
  }

  lemma {:induction false} SortedHead(head: seq<Document>)
    requires DistinctDocIds(head)
    ensures var sorted := Sort(ByScore(), head);
            && DistinctDocIds(sorted) && (forall d :: d in sorted <==> d in head)
            && (forall i, j :: 0 <= i < j < |sorted| ==> sorted[i].score >= sorted[j].score)
  {
    RankedMeaning(d => 0.0, head);
    SortMembers(ByScore(), head);
    PermutedIdsDistinct(head, Sort(ByScore(), head));
  }

  /** The documents that were sent by vector score, then the others by vector score. */
  function VectorOrder(head: seq<Document>, rest: seq<Document>): seq<Document> {
    Sort(ByScore(), head) + Sort(ByScore(), rest)
  }

  lemma FallbackMeantOrder(head: seq<Document>, rest: seq<Document>)
    requires DistinctDocIds(head + rest)
    ensures RerankerOrder(head + rest, ReplyFor(head)) == VectorOrder(head, rest)
  {
    var docs, sorted := head + rest, Sort(ByScore(), head);
    assert DistinctDocIds(head) by {
      assert forall i :: 0 <= i < |head| ==> docs[i] == head[i];
    }
    SortedHead(head);
    forall k | 0 <= k < |sorted|
      ensures sorted[k] in docs
    {
      assert sorted[k] in head;
    }
    NamedAreSorted(docs, sorted, 0);
    assert sorted[0..] == sorted;
    forall i | 0 <= i < |head|
      ensures Names(ReplyFor(head), head[i].id)
    {
      NamesHead(head, head[i].id);
    }
    forall i | 0 <= i < |rest|
      ensures !Names(ReplyFor(head), rest[i].id)
    {
      NamesHead(head, rest[i].id);
      assert rest[i] == docs[|head| + i] && forall k :: 0 <= k < |head| ==> docs[k] == head[k];
    }
    UnnamedIsTail(head, rest, ReplyFor(head));
  }

  lemma ReplyDescends(head: seq<Document>)
    requires DistinctDocIds(head) && AboveMinusOne(head)
    ensures DistinctCandidateIds(ReplyFor(head)) && Descending(ReplyFor(head))
  {
    var sorted := Sort(ByScore(), head);
    SortedHead(head);
    forall i | 0 <= i < |sorted|
      ensures sorted[i].score > -1.0
    {
      assert sorted[i] in head;
    }
    SortedDescends(sorted);
  }

  lemma FallbackFuses(head: seq<Document>, rest: seq<Document>)
    requires DistinctDocIds(head + rest) && AboveMinusOne(head)
    ensures Fuse(head + rest, ReplyFor(head)) == VectorOrder(head, rest)
  {
    assert DistinctDocIds(head) by {
      assert forall i :: 0 <= i < |head| ==> (head + rest)[i] == head[i];
    }
    ReplyDescends(head);
    FusionKeepsOrder(head + rest, ReplyFor(head));
    FallbackMeantOrder(head, rest);
  }

  /** A document that was sent with a score of -1 or less, and comes last in the reply, is overtaken by one
      that was not sent. */
  lemma LastIsOvertaken(head: seq<Document>, other: Document)
    requires DistinctDocIds(head + [other]) && !AboveMinusOne(head) && other.score > -1.0
    ensures Fuse(head + [other], ReplyFor(head)) != VectorOrder(head, [other])
  {
    var docs, sorted, ranked := head + [other], Sort(ByScore(), head), ReplyFor(head);
    assert DistinctDocIds(head) by {
      assert forall i :: 0 <= i < |head| ==> docs[i] == head[i];
    }
    SortedHead(head);
    var low :| 0 <= low < |head| && head[low].score <= -1.0;
    assert head[low] in sorted;
    var n := |sorted| - 1;
    var last := sorted[n];
    assert last.score <= -1.0 && FusedScore(ranked, n) <= 0.0;
    KeyMeaning(ranked, last);
    NamesHead(head, other.id);
    assert !Names(ranked, other.id) by {
      forall i | 0 <= i < |head|
        ensures head[i].id != other.id
      {
        assert docs[i].id != docs[|head|].id;
      }
    }
    KeyMeaning(ranked, other);
    SortOfOne(other);
    var meant := VectorOrder(head, [other]);
    assert meant[n] == last && meant[n + 1] == other;
    RankedMeaning(KeyOf(Scores(ranked)), docs);
  }

  lemma SortOfOne(d: Document)
    ensures Sort(ByScore(), [d]) == [d]
  {
    assert [d][..0] == [] && Sort(ByScore(), [d][..0]) == [];
  }

  lemma {:induction false} FreshDocId(docs: seq<Document>) returns (id: string)
    ensures forall i :: 0 <= i < |docs| ==> |docs[i].id| < |id|
  {
    id := "x";
    if docs != [] {
      var shorter := FreshDocId(docs[..|docs| - 1]);
      id := shorter + docs[|docs| - 1].id + "x";
    }
  }

  /** The fallback's reply puts the documents that were sent in vector order, in front of all others in
      vector order, whatever those are, if and only if every score that was sent is above -1. */
  lemma FallbackFusesIff(head: seq<Document>)
    requires DistinctDocIds(head)
    ensures AboveMinusOne(head) <==>
            forall rest :: DistinctDocIds(head + rest) ==> Fuse(head + rest, ReplyFor(head)) == VectorOrder(head, rest)
  {
    if AboveMinusOne(head) {
      forall rest | DistinctDocIds(head + rest)
        ensures Fuse(head + rest, ReplyFor(head)) == VectorOrder(head, rest)
      {
        FallbackFuses(head, rest);
      }
    } else {
      var id := FreshDocId(head);
      var other := Plain(id, 0.0);
      assert DistinctDocIds(head + [other]);
      LastIsOvertaken(head, other);
    }
  }

  // ----- In a search -----

  /** The adapter does not get an answer: its breaker is open, or the client stays silent. */
  ghost predicate FallsBack(cfg: AdapterConfig, inner: nat, client: Client) {
    inner >= cfg.threshold || Silent(client)
  }

  lemma AdapterFallsBack(cfg: AdapterConfig, inner: nat, r: RerankRequest, client: Client)
    requires cfg.mode.RetrievalOnly? && cfg.retryMax >= 0 && ValidRequest(r) && FallsBack(cfg, inner, client)
    ensures AdapterCall(cfg, inner, r, client).reply == Ok(Fallback(r))
  {
    if inner < cfg.threshold {
      assert FirstSuccess(cfg, client, 0) > cfg.retryMax;
    }
  }

  /** In retrieval_only mode an outage does not show: the service takes the fallback for a reply, and the
      order that Search had prepared, by identity matches, is replaced by vector order within the
      candidates and within the rest. */
  lemma OutageUndoesPreparedOrder(cfg: AdapterConfig, threshold: int, outer: nat, inner: nat, q: Query,
                                  docs: seq<Document>, topK: Positive, client: Client)
    requires cfg.mode.RetrievalOnly? && cfg.retryMax >= 0 && FallsBack(cfg, inner, client) && outer < threshold
    requires ValidQuery(q) && docs != [] && DistinctDocIds(docs) && AboveMinusOne(docs[..Limit(topK, |docs|)])
    ensures var r, k := RequestFor(q, docs, topK), Limit(topK, |docs|);
            var s := ServiceCall(true, threshold, outer, RequestMetadata(q.tenant, q.requestId), r,
                                 AdapterCall(cfg, inner, r, client).reply);
            && s.outcome.Reranked? && s.failures == 0
            && Fuse(docs, s.outcome.candidates) == VectorOrder(docs[..k], docs[k..])
  {
    var r, k := RequestFor(q, docs, topK), Limit(topK, |docs|);
    AdapterFallsBack(cfg, inner, r, client);
    FallbackIsSorted(docs, k);
    assert docs == docs[..k] + docs[k..];
    FallbackFuses(docs[..k], docs[k..]);
  }

  /** In particular for what Search prepares from any lookups: these are the documents of its result. */
  lemma SearchDuringOutage(cfg: AdapterConfig, threshold: int, outer: nat, inner: nat, lex: Lexicon, q: Query,
                           lookups: seq<Lookup>, topK: Positive, client: Client)
    requires cfg.mode.RetrievalOnly? && cfg.retryMax >= 0 && FallsBack(cfg, inner, client) && outer < threshold
    requires ValidQuery(q) && Prepared(lex, q, lookups) != [] && AboveMinusOne(Prepared(lex, q, lookups))
    ensures var docs := Prepared(lex, q, lookups);
            var r, k := RequestFor(q, docs, topK), Limit(topK, |docs|);
            var s := ServiceCall(true, threshold, outer, RequestMetadata(q.tenant, q.requestId), r,
                                 AdapterCall(cfg, inner, r, client).reply);
            && s.outcome.Reranked? && s.failures == 0
            && Fuse(docs, s.outcome.candidates) == VectorOrder(docs[..k], docs[k..])
  {
    var docs, es := Prepared(lex, q, lookups), Eligible(q.tenant, lookups);
    EligibleMeaning(q.tenant, lookups);
    IdentityOrderMeaning(lex, if lookups == [] then q.text else lookups[0].text, es);
    PermutedIdsDistinct(es, docs);
    OutageUndoesPreparedOrder(cfg, threshold, outer, inner, q, docs, topK, client);
  }
}
