/**
 Documents and candidates, and the two-level descending order that all of the retrieval rankings
 sort by: a ranking key first, the vector score second.
 */
module Ranking {
  import opened StableSort

  datatype Document = Document(
    id: string, tenant: string, content: string, score: real, source: string, metadata: map<string, string>)

  datatype Candidate = Candidate(id: string, text: string, score: real)

  /** Higher key first; equal keys by higher vector score. */
  function ByKey(key: Document -> real): (Document, Document) -> bool {
    (a: Document, b: Document) => if key(a) == key(b) then a.score > b.score else key(a) > key(b)
  }

  function ByScore(): (Document, Document) -> bool {
    ByKey(d => 0.0)
  }

  lemma ByKeyIsOrder(key: Document -> real)
    ensures StrictWeakOrder(ByKey(key))
  {
  }

  /** The documents in stable key order. */
  function Ranked(key: Document -> real, docs: seq<Document>): seq<Document> {
    Sort(ByKey(key), docs)
  }

  /** Copies the slice and sorts the copy in place, as every ranking does. */
  method RankCopy(key: Document -> real, docs: seq<Document>) returns (ordered: seq<Document>)
    ensures ordered == Ranked(key, docs)
  {
    ordered := RankCopyBy((n: nat, a: Document, b: Document) => ByKey(key)(a, b), key, docs);
  }

  /** The same with a comparison that is evaluated anew each time. */
  method RankCopyBy(compare: (nat, Document, Document) -> bool, ghost key: Document -> real, docs: seq<Document>)
    returns (ordered: seq<Document>)
    requires Consistent(compare, ByKey(key))
    ensures ordered == Ranked(key, docs)
  {
    var a := new Document[|docs|](i requires 0 <= i < |docs| => docs[i]);
    assert a[..] == docs;
    SliceStableBy(a, compare, ByKey(key));
    ordered := a[..];
  }

  /** What a ranking means: a permutation, by descending key then score, ties in their old order. */
  lemma RankedMeaning(key: Document -> real, docs: seq<Document>)
    ensures multiset(Ranked(key, docs)) == multiset(docs)
    ensures var r := Ranked(key, docs);
            forall i, j :: 0 <= i < j < |r| ==>
              key(r[i]) > key(r[j]) || (key(r[i]) == key(r[j]) && r[i].score >= r[j].score)
    ensures StableOf(ByKey(key), Ranked(key, docs), docs)
    ensures Ranked(key, Ranked(key, docs)) == Ranked(key, docs)
  {
    ByKeyIsOrder(key);
    SortPermutes(ByKey(key), docs);
    SortSorted(ByKey(key), docs);
    SortStable(ByKey(key), docs);
    SortIdempotent(ByKey(key), docs);
  }

  /** The documents with this measure and vector score, in order. */
  function At(docs: seq<Document>, measure: Document -> real, m: real, score: real): seq<Document> {
    if docs == [] then []
    else
      var d := docs[|docs| - 1];
      At(docs[..|docs| - 1], measure, m, score) + if measure(d) == m && d.score == score then [d] else []
  }

  /** r rearranges docs: a higher measure comes first, then a higher vector score, and documents equal in both
      stay in the order they had. */
  ghost predicate BestFirst(measure: Document -> real, r: seq<Document>, docs: seq<Document>) {
    && multiset(r) == multiset(docs)
    && (forall i, j :: 0 <= i < j < |r| ==>
          measure(r[i]) > measure(r[j]) || (measure(r[i]) == measure(r[j]) && r[i].score >= r[j].score))
    && (forall m, score :: At(r, measure, m, score) == At(docs, measure, m, score))
  }

  lemma {:induction false} AtIsClass(key: Document -> real, measure: Document -> real, x: Document, docs: seq<Document>)
    requires forall d :: key(d) == measure(d)
    ensures At(docs, measure, measure(x), x.score) == Class(ByKey(key), x, docs)
  {
    if docs != [] {
      AtIsClass(key, measure, x, docs[..|docs| - 1]);
    }
  }

  lemma {:induction false} AtNone(measure: Document -> real, m: real, score: real, docs: seq<Document>)
    requires forall i :: 0 <= i < |docs| ==> !(measure(docs[i]) == m && docs[i].score == score)
    ensures At(docs, measure, m, score) == []
  {
    if docs != [] {
      AtNone(measure, m, score, docs[..|docs| - 1]);
    }
  }

  lemma {:induction false} GroupStays(key: Document -> real, measure: Document -> real, docs: seq<Document>, m: real,
                                      score: real)
    requires forall d :: key(d) == measure(d)
    ensures At(Ranked(key, docs), measure, m, score) == At(docs, measure, m, score)
  {
    var r := Ranked(key, docs);
    if x :| x in docs && measure(x) == m && x.score == score {
      AtIsClass(key, measure, x, r);
      AtIsClass(key, measure, x, docs);
      ByKeyIsOrder(key);
      SortStable(ByKey(key), docs);
    } else {
      SortMembers(ByKey(key), docs);
      assert forall i :: 0 <= i < |r| ==> r[i] in docs;
      AtNone(measure, m, score, r);
      AtNone(measure, m, score, docs);
    }
  }

  lemma {:induction false} RankedFalls(key: Document -> real, docs: seq<Document>)
    ensures var r := Ranked(key, docs);
            forall i, j :: 0 <= i < j < |r| ==>
              key(r[i]) > key(r[j]) || (key(r[i]) == key(r[j]) && r[i].score >= r[j].score)
  {
    ByKeyIsOrder(key);
    SortSorted(ByKey(key), docs);
    var r := Ranked(key, docs);
    forall i, j | 0 <= i < j < |r|
      ensures key(r[i]) > key(r[j]) || (key(r[i]) == key(r[j]) && r[i].score >= r[j].score)
    {
      assert !ByKey(key)(r[j], r[i]);
    }
  }

  /** Ranking by a key that is the measure puts the best first. */
  lemma {:induction false} RankedIsBestFirst(key: Document -> real, measure: Document -> real, docs: seq<Document>)
    requires forall d :: key(d) == measure(d)
    ensures BestFirst(measure, Ranked(key, docs), docs)
  {
    SortPermutes(ByKey(key), docs);
    RankedFalls(key, docs);
    forall m, score
      ensures At(Ranked(key, docs), measure, m, score) == At(docs, measure, m, score)
    {
      GroupStays(key, measure, docs, m, score);
    }
  }

  // ----- RerankRequest.TopCandidates -----

  function Higher(): (Candidate, Candidate) -> bool {
    (a: Candidate, b: Candidate) => a.score > b.score
  }

  function Top(candidates: seq<Candidate>, topN: int): seq<Candidate> {
    var s := Sort(Higher(), candidates);
    if topN <= 0 || topN >= |s| then s else s[..topN]
  }

  method TopCandidates(candidates: seq<Candidate>, topN: int) returns (top: seq<Candidate>)
    ensures top == Top(candidates, topN)
  {
    var a := new Candidate[|candidates|](i requires 0 <= i < |candidates| => candidates[i]);
    assert a[..] == candidates;
    SliceStable(a, Higher());
    if topN <= 0 || topN >= a.Length {
      return a[..];
    }
    return a[..topN];
  }

  lemma {:induction false} SortFalls(candidates: seq<Candidate>)
    ensures var s := Sort(Higher(), candidates); forall i, j :: 0 <= i < j < |s| ==> s[i].score >= s[j].score
  {
    SortSorted(Higher(), candidates);
    var s := Sort(Higher(), candidates);
    forall i, j | 0 <= i < j < |s|
      ensures s[i].score >= s[j].score
    {
      assert !Higher()(s[j], s[i]);
    }
  }

  lemma TopSplits(candidates: seq<Candidate>, topN: int) returns (rest: seq<Candidate>)
    ensures var top := Top(candidates, topN);
            && |top| == (if 0 < topN < |candidates| then topN else |candidates|)
            && (forall i, j :: 0 <= i < j < |top| ==> top[i].score >= top[j].score)
            && multiset(candidates) == multiset(top) + multiset(rest)
            && forall i, j :: 0 <= i < |top| && 0 <= j < |rest| ==> rest[j].score <= top[i].score
  {
    var s, top := Sort(Higher(), candidates), Top(candidates, topN);
    SortPermutes(Higher(), candidates);
    SortFalls(candidates);
    rest := s[|top|..];
    assert s == top + rest;
    forall i, j | 0 <= i < |top| && 0 <= j < |rest|
      ensures rest[j].score <= top[i].score
    {
      assert top[i] == s[i] && rest[j] == s[|top| + j];
    }
  }

  /** The returned candidates are the best ones: what is left out scores no higher than any of them,
      and together they are the candidates given. */
  lemma TopIsBest(candidates: seq<Candidate>, topN: int)
    ensures var top := Top(candidates, topN);
            && |top| == (if 0 < topN < |candidates| then topN else |candidates|)
            && (forall i, j :: 0 <= i < j < |top| ==> top[i].score >= top[j].score)
            && multiset(top) <= multiset(candidates)
            && forall t, c :: t in top && c in multiset(candidates) - multiset(top) ==> c.score <= t.score
  {
    var rest := TopSplits(candidates, topN);
    var top := Top(candidates, topN);
    assert multiset(candidates) - multiset(top) == multiset(rest);
    forall t, c | t in top && c in multiset(candidates) - multiset(top)
      ensures c.score <= t.score
    {
      assert c in rest;
    }
  }

  // ----- Identifiers -----

  ghost predicate DistinctDocIds(docs: seq<Document>) {
    forall i, j :: 0 <= i < j < |docs| ==> docs[i].id != docs[j].id
  }

  /** Permuting documents keeps their ids distinct. */
  lemma {:induction false} PermutedIdsDistinct(docs: seq<Document>, r: seq<Document>)
    requires multiset(docs) == multiset(r) && DistinctDocIds(docs)
    ensures DistinctDocIds(r) && |r| == |docs|
  {
    assert |multiset(docs)| == |docs| && |multiset(r)| == |r|;
    forall i, j | 0 <= i < j < |r|
      ensures r[i].id != r[j].id
    {
      assert r[i] in multiset(r) && r[j] in multiset(r);
      assert r[i] in multiset(docs) && r[j] in multiset(docs);
      var a :| 0 <= a < |docs| && docs[a] == r[i];
      var b :| 0 <= b < |docs| && docs[b] == r[j];
      if r[i] == r[j] {
        TwiceInSeq(r, i, j);
        OnceInSeq(docs, a);
      }
    }
  }

  lemma TwiceInSeq(s: seq<Document>, i: nat, j: nat)
    requires i < j < |s| && s[i] == s[j]
    ensures multiset(s)[s[i]] >= 2
  {
    assert s == s[..j] + [s[j]] + s[j + 1..];
    assert s[i] in s[..j];
  }

  lemma {:induction false} OnceInSeq(s: seq<Document>, i: nat)
    requires i < |s| && DistinctDocIds(s)
    ensures multiset(s)[s[i]] == 1
  {
    assert s == s[..i] + [s[i]] + s[i + 1..];
    assert s[i] !in s[..i] && s[i] !in s[i + 1..];
  }
}
