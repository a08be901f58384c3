/**
 Fusing the reranker's order into the document list: `rerankDocuments` gives the candidate at
 position idx the score (len - idx) + candidate.Score, every other document 0, and sorts stably.
 */
module RerankFusion {
  import opened StableSort
  import opened Ranking

  /** The score given to position i of the reply. */
  function FusedScore(ranked: seq<Candidate>, i: nat): real
    requires i < |ranked|
  {
    (|ranked| - i) as real + ranked[i].score
  }

  /** scoreByDocument after the first n candidates; a repeated id overwrites. */
  function ScoresUpTo(ranked: seq<Candidate>, n: nat): map<string, real>
    requires n <= |ranked|
  {
    if n == 0 then map[] else ScoresUpTo(ranked, n - 1)[ranked[n - 1].id := FusedScore(ranked, n - 1)]
  }

  function Scores(ranked: seq<Candidate>): map<string, real> {
    ScoresUpTo(ranked, |ranked|)
  }

  /** A missing entry reads as 0. */
  function KeyOf(scores: map<string, real>): Document -> real {
    (d: Document) => if d.id in scores then scores[d.id] else 0.0
  }

  function Fuse(docs: seq<Document>, ranked: seq<Candidate>): seq<Document> {
    Ranked(KeyOf(Scores(ranked)), docs)
  }

  /** The end of rerankDocuments. */
  method FuseOrder(docs: seq<Document>, ranked: seq<Candidate>) returns (ordered: seq<Document>)
    ensures ordered == Fuse(docs, ranked)
  {
    var scoreByDocument: map<string, real> := map[];
    for idx := 0 to |ranked|
      invariant scoreByDocument == ScoresUpTo(ranked, idx)
    {
      scoreByDocument := scoreByDocument[ranked[idx].id := (|ranked| - idx) as real + ranked[idx].score];
    }
    ordered := RankCopy(KeyOf(scoreByDocument), docs);
  }

  // ----- The order that is meant -----

  function WithId(docs: seq<Document>, id: string): seq<Document> {
    if docs == [] then []
    else if docs[|docs| - 1].id == id then WithId(docs[..|docs| - 1], id) + [docs[|docs| - 1]]
    else WithId(docs[..|docs| - 1], id)
  }

  /** The documents the reply names from position i on, in the reply's order. */
  function NamedFrom(docs: seq<Document>, ranked: seq<Candidate>, i: nat): seq<Document>
    requires i <= |ranked|
    decreases |ranked| - i
  {
    if i == |ranked| then [] else WithId(docs, ranked[i].id) + NamedFrom(docs, ranked, i + 1)
  }

  predicate Names(ranked: seq<Candidate>, id: string) {
    exists i :: 0 <= i < |ranked| && ranked[i].id == id
  }

  function Unnamed(docs: seq<Document>, ranked: seq<Candidate>): seq<Document> {
    if docs == [] then []
    else if Names(ranked, docs[|docs| - 1].id) then Unnamed(docs[..|docs| - 1], ranked)
    else Unnamed(docs[..|docs| - 1], ranked) + [docs[|docs| - 1]]
  }

  /** Named documents in the reranker's order, then the others by vector score, ties in their old order. */
  function RerankerOrder(docs: seq<Document>, ranked: seq<Candidate>): seq<Document> {
    NamedFrom(docs, ranked, 0) + Sort(ByScore(), Unnamed(docs, ranked))
  }

  ghost predicate DistinctCandidateIds(ranked: seq<Candidate>) {
    forall i, j :: 0 <= i < j < |ranked| ==> ranked[i].id != ranked[j].id
  }

  /** Fused scores stay positive and strictly fall along the reply. */
  ghost predicate Descending(ranked: seq<Candidate>) {
    && (forall i :: 0 <= i < |ranked| ==> (|ranked| - i) as real + ranked[i].score > 0.0)
    && (forall i, j :: 0 <= i < j < |ranked| ==>
          (|ranked| - i) as real + ranked[i].score > (|ranked| - j) as real + ranked[j].score)
  }

  // ----- Scores of named documents -----

  lemma {:induction false} ScoresOfNamed(ranked: seq<Candidate>, n: nat)
    requires n <= |ranked| && DistinctCandidateIds(ranked)
    ensures forall i :: 0 <= i < n ==>
              && ranked[i].id in ScoresUpTo(ranked, n)
              && ScoresUpTo(ranked, n)[ranked[i].id] == FusedScore(ranked, i)
    ensures forall id :: id in ScoresUpTo(ranked, n) ==> exists i :: 0 <= i < n && ranked[i].id == id
  {
    if n > 0 {
      ScoresOfNamed(ranked, n - 1);
    }
  }

  lemma KeyMeaning(ranked: seq<Candidate>, d: Document)
    requires DistinctCandidateIds(ranked)
    ensures !Names(ranked, d.id) ==> KeyOf(Scores(ranked))(d) == 0.0
    ensures forall i :: 0 <= i < |ranked| && ranked[i].id == d.id ==> KeyOf(Scores(ranked))(d) == FusedScore(ranked, i)
  {
    ScoresOfNamed(ranked, |ranked|);
  }

  // ----- The meant order is a stable rearrangement -----

  lemma {:induction false} ClassConcat(less: (Document, Document) -> bool, x: Document, s: seq<Document>,
                                       t: seq<Document>)
    ensures Class(less, x, s + t) == Class(less, x, s) + Class(less, x, t)
  {
    if t == [] {
      assert s + t == s;
    } else {
      var t', y := t[..|t| - 1], t[|t| - 1];
      assert s + t == (s + t') + [y];
      ClassSnoc(less, x, s + t', y);
      ClassConcat(less, x, s, t');
    }
  }

  /** Among documents with one id, the class of x is found in that id's documents alone. */
  lemma {:induction false} ClassWithId(less: (Document, Document) -> bool, x: Document, docs: seq<Document>, id: string)
    requires forall d :: d in docs && Tied(less, x, d) ==> d.id == id
    ensures Class(less, x, docs) == Class(less, x, WithId(docs, id))
  {
    if docs != [] {
      var front, y := docs[..|docs| - 1], docs[|docs| - 1];
      ClassWithId(less, x, front, id);
      assert y in docs;
      if y.id == id {
        ClassSnoc(less, x, WithId(front, id), y);
      }
    }
  }

  lemma {:induction false} WithIdMembers(docs: seq<Document>, id: string)
    ensures forall d :: d in WithId(docs, id) <==> d in docs && d.id == id
  {
    if docs != [] {
      WithIdMembers(docs[..|docs| - 1], id);
      assert docs == docs[..|docs| - 1] + [docs[|docs| - 1]];
    }
  }

  lemma {:induction false} ClassNone(less: (Document, Document) -> bool, x: Document, s: seq<Document>)
    requires forall d :: d in s ==> !Tied(less, x, d)
    ensures Class(less, x, s) == []
  {
    if s != [] {
      ClassNone(less, x, s[..|s| - 1]);
      assert s[|s| - 1] in s;
    }
  }

  lemma {:induction false} NamedMembers(docs: seq<Document>, ranked: seq<Candidate>, i: nat)
    requires i <= |ranked|
    ensures forall d :: d in NamedFrom(docs, ranked, i) ==>
              d in docs && exists j :: i <= j < |ranked| && ranked[j].id == d.id
    decreases |ranked| - i
  {
    if i < |ranked| {
      NamedMembers(docs, ranked, i + 1);
      WithIdMembers(docs, ranked[i].id);
    }
  }

  lemma {:induction false} UnnamedMembers(docs: seq<Document>, ranked: seq<Candidate>)
    ensures forall d :: d in Unnamed(docs, ranked) ==> d in docs && !Names(ranked, d.id)
  {
    if docs != [] {
      UnnamedMembers(docs[..|docs| - 1], ranked);
    }
  }

  /** Two named documents tie only when they have one id. */
  lemma TiedNamed(ranked: seq<Candidate>, x: Document, d: Document, k: nat, i: nat)
    requires DistinctCandidateIds(ranked) && Descending(ranked) && k < |ranked| && i < |ranked|
    requires ranked[k].id == x.id && ranked[i].id == d.id && i != k
    ensures !Tied(ByKey(KeyOf(Scores(ranked))), x, d)
  {
    KeyMeaning(ranked, x);
    KeyMeaning(ranked, d);
    assert i < k ==> FusedScore(ranked, i) > FusedScore(ranked, k);
    assert k < i ==> FusedScore(ranked, k) > FusedScore(ranked, i);
  }

  lemma {:induction false} ClassOfOther(docs: seq<Document>, ranked: seq<Candidate>, x: Document, k: nat, i: nat)
    requires DistinctCandidateIds(ranked) && Descending(ranked) && k < |ranked| && i < |ranked|
    requires ranked[k].id == x.id && i != k
    ensures Class(ByKey(KeyOf(Scores(ranked))), x, WithId(docs, ranked[i].id)) == []
  {
    WithIdMembers(docs, ranked[i].id);
    forall d | d in WithId(docs, ranked[i].id)
      ensures !Tied(ByKey(KeyOf(Scores(ranked))), x, d)
    {
      TiedNamed(ranked, x, d, k, i);
    }
    ClassNone(ByKey(KeyOf(Scores(ranked))), x, WithId(docs, ranked[i].id));
  }

  /** If only position k names documents tied with x, the class of x is found there. */
  lemma {:induction false} ClassAcross(less: (Document, Document) -> bool, docs: seq<Document>, ranked: seq<Candidate>,
                                       x: Document, k: nat, i: nat)
    requires i <= |ranked| && k < |ranked|
    requires forall j :: 0 <= j < |ranked| && j != k ==> Class(less, x, WithId(docs, ranked[j].id)) == []
    ensures Class(less, x, NamedFrom(docs, ranked, i)) ==
            if i <= k then Class(less, x, WithId(docs, ranked[k].id)) else []
    decreases |ranked| - i
  {
    if i < |ranked| {
      ClassAcross(less, docs, ranked, x, k, i + 1);
      ClassOfNext(less, docs, ranked, x, i);
      Halves(Class(less, x, WithId(docs, ranked[i].id)), Class(less, x, NamedFrom(docs, ranked, i + 1)));
    }
  }

  lemma ClassOfNext(less: (Document, Document) -> bool,
                    docs: seq<Document>, ranked: seq<Candidate>, x: Document, i: nat)
    requires i < |ranked|
    ensures Class(less, x, NamedFrom(docs, ranked, i)) ==
            Class(less, x, WithId(docs, ranked[i].id)) + Class(less, x, NamedFrom(docs, ranked, i + 1))
  {
    ClassConcat(less, x, WithId(docs, ranked[i].id), NamedFrom(docs, ranked, i + 1));
  }

  lemma Halves<T>(a: seq<T>, b: seq<T>)
    ensures a == [] ==> a + b == b
    ensures b == [] ==> a + b == a
  {
  }

  /** The class of a document tied with the one at position k lies in that position's documents. */
  lemma {:induction false} ClassOfNamed(docs: seq<Document>, ranked: seq<Candidate>, x: Document, k: nat)
    requires DistinctCandidateIds(ranked) && Descending(ranked) && k < |ranked| && ranked[k].id == x.id
    ensures var less := ByKey(KeyOf(Scores(ranked)));
            Class(less, x, NamedFrom(docs, ranked, 0)) == Class(less, x, WithId(docs, x.id))
  {
    forall j | 0 <= j < |ranked| && j != k
      ensures Class(ByKey(KeyOf(Scores(ranked))), x, WithId(docs, ranked[j].id)) == []
    {
      ClassOfOther(docs, ranked, x, k, j);
    }
    ClassAcross(ByKey(KeyOf(Scores(ranked))), docs, ranked, x, k, 0);
  }

  /** For an unnamed x both orders tie x with the same unnamed documents. */
  lemma {:induction false} ClassOfUnnamed(docs: seq<Document>, ranked: seq<Candidate>, x: Document)
    requires DistinctCandidateIds(ranked) && Descending(ranked) && !Names(ranked, x.id)
    ensures Class(ByKey(KeyOf(Scores(ranked))), x, docs) == Class(ByScore(), x, Unnamed(docs, ranked))
  {
    if docs != [] {
      var front, y := docs[..|docs| - 1], docs[|docs| - 1];
      ClassOfUnnamed(front, ranked, x);
      KeyMeaning(ranked, y);
      KeyMeaning(ranked, x);
      if !Names(ranked, y.id) {
        ClassSnoc(ByScore(), x, Unnamed(front, ranked), y);
      }
    }
  }

  lemma {:induction false} SameTies(less: (Document, Document) -> bool, less': (Document, Document) -> bool,
                                    x: Document, s: seq<Document>)
    requires forall d :: d in s ==> (Tied(less, x, d) <==> Tied(less', x, d))
    ensures Class(less, x, s) == Class(less', x, s)
  {
    if s != [] {
      SameTies(less, less', x, s[..|s| - 1]);
      assert s[|s| - 1] in s;
    }
  }

  /** A named document never ties with an unnamed one. */
  lemma NamedAboveUnnamed(ranked: seq<Candidate>, x: Document, d: Document)
    requires DistinctCandidateIds(ranked) && Descending(ranked) && Names(ranked, x.id) && !Names(ranked, d.id)
    ensures KeyOf(Scores(ranked))(x) > 0.0 == KeyOf(Scores(ranked))(d)
    ensures var less := ByKey(KeyOf(Scores(ranked))); less(x, d) && !less(d, x)
  {
    KeyMeaning(ranked, x);
    KeyMeaning(ranked, d);
    var k :| 0 <= k < |ranked| && ranked[k].id == x.id;
    assert FusedScore(ranked, k) > 0.0;
  }

  lemma {:induction false} NamedClassStable(docs: seq<Document>, ranked: seq<Candidate>, x: Document)
    requires DistinctCandidateIds(ranked) && Descending(ranked) && Names(ranked, x.id)
    ensures var less := ByKey(KeyOf(Scores(ranked)));
            && Class(less, x, NamedFrom(docs, ranked, 0)) == Class(less, x, docs)
            && Class(less, x, Sort(ByScore(), Unnamed(docs, ranked))) == []
  {
    var less := ByKey(KeyOf(Scores(ranked)));
    var rest := Sort(ByScore(), Unnamed(docs, ranked));
    var k :| 0 <= k < |ranked| && ranked[k].id == x.id;
    ClassOfNamed(docs, ranked, x, k);
    SortedUnnamedMembers(docs, ranked);
    forall d | d in rest
      ensures !Tied(less, x, d)
    {
      NamedAboveUnnamed(ranked, x, d);
    }
    ClassNone(less, x, rest);
    forall d | d in docs && Tied(less, x, d)
      ensures d.id == x.id
    {
      if !Names(ranked, d.id) {
        NamedAboveUnnamed(ranked, x, d);
      } else {
        var i :| 0 <= i < |ranked| && ranked[i].id == d.id;
        if i != k {
          TiedNamed(ranked, x, d, k, i);
        }
      }
    }
    ClassWithId(less, x, docs, x.id);
  }

  lemma {:induction false} UnnamedClassStable(docs: seq<Document>, ranked: seq<Candidate>, x: Document)
    requires DistinctCandidateIds(ranked) && Descending(ranked) && !Names(ranked, x.id)
    ensures var less := ByKey(KeyOf(Scores(ranked)));
            && Class(less, x, NamedFrom(docs, ranked, 0)) == []
            && Class(less, x, Sort(ByScore(), Unnamed(docs, ranked))) == Class(less, x, docs)
  {
    var less := ByKey(KeyOf(Scores(ranked)));
    var rest := Sort(ByScore(), Unnamed(docs, ranked));
    NamedMembers(docs, ranked, 0);
    forall d | d in NamedFrom(docs, ranked, 0)
      ensures !Tied(less, x, d)
    {
      NamedAboveUnnamed(ranked, d, x);
    }
    ClassNone(less, x, NamedFrom(docs, ranked, 0));
    ClassOfUnnamed(docs, ranked, x);
    ByKeyIsOrder(d => 0.0);
    SortStable(ByScore(), Unnamed(docs, ranked));
    SortedUnnamedMembers(docs, ranked);
    forall d | d in rest
      ensures Tied(less, x, d) <==> Tied(ByScore(), x, d)
    {
      KeyMeaning(ranked, d);
      KeyMeaning(ranked, x);
    }
    SameTies(less, ByScore(), x, rest);
  }

  lemma {:induction false} MeantOrderStable(docs: seq<Document>, ranked: seq<Candidate>, x: Document)
    requires DistinctCandidateIds(ranked) && Descending(ranked)
    ensures var less := ByKey(KeyOf(Scores(ranked)));
            Class(less, x, RerankerOrder(docs, ranked)) == Class(less, x, docs)
  {
    var less := ByKey(KeyOf(Scores(ranked)));
    ClassConcat(less, x, NamedFrom(docs, ranked, 0), Sort(ByScore(), Unnamed(docs, ranked)));
    if Names(ranked, x.id) {
      NamedClassStable(docs, ranked, x);
    } else {
      UnnamedClassStable(docs, ranked, x);
    }
  }

  lemma {:induction false} SortedUnnamedMembers(docs: seq<Document>, ranked: seq<Candidate>)
    ensures forall d :: d in Sort(ByScore(), Unnamed(docs, ranked)) ==> d in docs && !Names(ranked, d.id)
  {
    var rest := Sort(ByScore(), Unnamed(docs, ranked));
    SortPermutes(ByScore(), Unnamed(docs, ranked));
    UnnamedMembers(docs, ranked);
    forall d | d in rest
      ensures d in docs && !Names(ranked, d.id)
    {
      assert d in multiset(rest);
    }
  }

  // ----- The meant order is sorted -----

  lemma {:induction false} WithIdAtMostOne(docs: seq<Document>, id: string)
    requires DistinctDocIds(docs)
    ensures |WithId(docs, id)| <= 1
  {
    if docs != [] {
      var front := docs[..|docs| - 1];
      WithIdAtMostOne(front, id);
      WithIdMembers(front, id);
      assert forall d :: d in WithId(front, id) ==> d in front;
      if WithId(front, id) != [] {
        var d := WithId(front, id)[0];
        assert d in WithId(front, id);
        assert docs[|docs| - 1].id != id;
      }
    }
  }

  /** Documents named earlier come before those named later. */
  lemma {:induction false} NamedInOrder(docs: seq<Document>, ranked: seq<Candidate>, i: nat, a: Document, b: Document)
    requires DistinctCandidateIds(ranked) && Descending(ranked) && i < |ranked|
    requires a in WithId(docs, ranked[i].id) && b in NamedFrom(docs, ranked, i + 1)
    ensures !ByKey(KeyOf(Scores(ranked)))(b, a)
  {
    WithIdMembers(docs, ranked[i].id);
    NamedMembers(docs, ranked, i + 1);
    var j :| i + 1 <= j < |ranked| && ranked[j].id == b.id;
    KeyMeaning(ranked, a);
    KeyMeaning(ranked, b);
    assert FusedScore(ranked, i) > FusedScore(ranked, j);
  }

  lemma {:induction false} NamedSorted(docs: seq<Document>, ranked: seq<Candidate>, i: nat)
    requires DistinctDocIds(docs) && DistinctCandidateIds(ranked) && Descending(ranked) && i <= |ranked|
    ensures Sorted(ByKey(KeyOf(Scores(ranked))), NamedFrom(docs, ranked, i))
    decreases |ranked| - i
  {
    if i < |ranked| {
      NamedSorted(docs, ranked, i + 1);
      WithIdAtMostOne(docs, ranked[i].id);
      forall a, b | a in WithId(docs, ranked[i].id) && b in NamedFrom(docs, ranked, i + 1)
        ensures !ByKey(KeyOf(Scores(ranked)))(b, a)
      {
        NamedInOrder(docs, ranked, i, a, b);
      }
      SortedConcat(ByKey(KeyOf(Scores(ranked))), WithId(docs, ranked[i].id), NamedFrom(docs, ranked, i + 1));
    }
  }

  lemma SortedConcat(less: (Document, Document) -> bool, s: seq<Document>, t: seq<Document>)
    requires Sorted(less, s) && Sorted(less, t)
    requires forall a, b :: a in s && b in t ==> !less(b, a)
    ensures Sorted(less, s + t)
  {
    var u := s + t;
    forall i, j | 0 <= i < j < |u|
      ensures !less(u[j], u[i])
    {
      if i < |s| <= j {
        assert u[i] in s && u[j] in t;
      }
    }
  }

  lemma MeantOrderSorted(docs: seq<Document>, ranked: seq<Candidate>)
    requires DistinctDocIds(docs) && DistinctCandidateIds(ranked) && Descending(ranked)
    ensures Sorted(ByKey(KeyOf(Scores(ranked))), RerankerOrder(docs, ranked))
  {
    var key := KeyOf(Scores(ranked));
    var named, rest := NamedFrom(docs, ranked, 0), Sort(ByScore(), Unnamed(docs, ranked));
    NamedSorted(docs, ranked, 0);
    NamedMembers(docs, ranked, 0);
    SortedUnnamedMembers(docs, ranked);
    ByKeyIsOrder(d => 0.0);
    SortSorted(ByScore(), Unnamed(docs, ranked));
    forall b | b in rest
      ensures key(b) == 0.0
    {
      KeyMeaning(ranked, b);
    }
    assert Sorted(ByKey(key), rest) by {
      forall i, j | 0 <= i < j < |rest|
        ensures !ByKey(key)(rest[j], rest[i])
      {
        assert rest[i] in rest && rest[j] in rest;
        assert !ByScore()(rest[j], rest[i]);
      }
    }
    forall a, b | a in named && b in rest
      ensures !ByKey(key)(b, a)
    {
      NamedAboveUnnamed(ranked, a, b);
    }
    SortedConcat(ByKey(key), named, rest);
  }

  // ----- Fusion keeps the reranker's order -----

  /** With distinct ids and descending fused scores, fusion yields the reranker's order, then the
      unnamed documents by vector score. */
  lemma FusionKeepsOrder(docs: seq<Document>, ranked: seq<Candidate>)
    requires DistinctDocIds(docs) && DistinctCandidateIds(ranked) && Descending(ranked)
    ensures Fuse(docs, ranked) == RerankerOrder(docs, ranked)
  {
    var less := ByKey(KeyOf(Scores(ranked)));
    ByKeyIsOrder(KeyOf(Scores(ranked)));
    MeantOrderSorted(docs, ranked);
    forall x
      ensures Class(less, x, RerankerOrder(docs, ranked)) == Class(less, x, docs)
    {
      MeantOrderStable(docs, ranked, x);
    }
    SortIs(less, docs, RerankerOrder(docs, ranked));
  }

  /** Scores above -1 that differ by less than 1, as relevance scores do, are enough. */
  lemma GentleScoresDescend(ranked: seq<Candidate>)
    requires forall i :: 0 <= i < |ranked| ==> ranked[i].score > -1.0
    requires forall i, j :: 0 <= i < |ranked| && 0 <= j < |ranked| ==> ranked[i].score - ranked[j].score < 1.0
    ensures Descending(ranked)
  {
    forall i, j | 0 <= i < j < |ranked|
      ensures FusedScore(ranked, i) > FusedScore(ranked, j)
    {
      assert ranked[j].score - ranked[i].score < 1.0;
      assert (|ranked| - i) as real >= (|ranked| - j) as real + 1.0;
    }
  }

  // ----- And only then -----

  function Plain(id: string, score: real): Document {
    Document(id, "t", "", score, "", map[])
  }

  lemma {:induction false} FreshId(ranked: seq<Candidate>) returns (id: string)
    ensures forall i :: 0 <= i < |ranked| ==> |ranked[i].id| < |id|
  {
    if ranked == [] {
      id := "";
    } else {
      var shorter := FreshId(ranked[..|ranked| - 1]);
      id := shorter + ranked[|ranked| - 1].id + "x";
    }
  }

  /** Two documents whose fused order is the wrong way round stay the wrong way round. */
  lemma PairStays(a: Document, b: Document, ranked: seq<Candidate>)
    requires !ByKey(KeyOf(Scores(ranked)))(b, a)
    ensures Fuse([a, b], ranked) == [a, b]
  {
    var less := ByKey(KeyOf(Scores(ranked)));
    assert [a, b][..1] == [a] && [a][..0] == [];
    assert Sort(less, [a]) == Insert(less, Sort(less, []), a) == [] + [a];
    assert Sort(less, [a, b]) == Insert(less, Sort(less, [a]), b);
  }

  lemma {:induction false} PairWithId(a: Document, b: Document, id: string)
    ensures WithId([a, b], id) == (if a.id == id then [a] else []) + (if b.id == id then [b] else [])
  {
    assert [a, b][..1] == [a] && [a][..0] == [];
    assert WithId([a], id) == if a.id == id then [] + [a] else [];
  }

  lemma {:induction false} FirstNamed(a: Document, b: Document, ranked: seq<Candidate>, i: nat, k: nat)
    requires DistinctCandidateIds(ranked) && i <= k < |ranked| && ranked[k].id == b.id && a.id != b.id
    requires forall j :: i <= j < k ==> ranked[j].id != a.id
    ensures var n := NamedFrom([a, b], ranked, i); n != [] && n[0] == b
    decreases k - i
  {
    PairWithId(a, b, ranked[i].id);
    if i < k {
      FirstNamed(a, b, ranked, i + 1, k);
      assert [] + NamedFrom([a, b], ranked, i + 1) == NamedFrom([a, b], ranked, i + 1);
    }
  }

  /** A pair in the wrong order: b is named before a, or a is not named, yet fusion does not move it. */
  lemma Misordered(a: Document, b: Document, ranked: seq<Candidate>, k: nat)
    requires DistinctCandidateIds(ranked) && k < |ranked| && ranked[k].id == b.id && a.id != b.id
    requires forall j :: 0 <= j < k ==> ranked[j].id != a.id
    requires !ByKey(KeyOf(Scores(ranked)))(b, a)
    ensures DistinctDocIds([a, b]) && Fuse([a, b], ranked) != RerankerOrder([a, b], ranked)
  {
    PairStays(a, b, ranked);
    FirstNamed(a, b, ranked, 0, k);
    assert RerankerOrder([a, b], ranked)[0] == b;
  }

  /** Fusion keeps the reranker's order for every document list exactly when the fused scores are
      positive and strictly fall: a caller can tell from the reply alone. */
  lemma FusionKeepsOrderIff(ranked: seq<Candidate>)
    requires DistinctCandidateIds(ranked)
    ensures Descending(ranked) <==>
            forall docs :: DistinctDocIds(docs) ==> Fuse(docs, ranked) == RerankerOrder(docs, ranked)
  {
    if Descending(ranked) {
      forall docs | DistinctDocIds(docs)
        ensures Fuse(docs, ranked) == RerankerOrder(docs, ranked)
      {
        FusionKeepsOrder(docs, ranked);
      }
    } else if exists i :: 0 <= i < |ranked| && FusedScore(ranked, i) <= 0.0 {
      var i :| 0 <= i < |ranked| && FusedScore(ranked, i) <= 0.0;
      var other := FreshId(ranked);
      var a, b := Plain(other, 1.0), Plain(ranked[i].id, 0.0);
      KeyMeaning(ranked, a);
      KeyMeaning(ranked, b);
      Misordered(a, b, ranked, i);
    } else {
      assert forall i :: 0 <= i < |ranked| ==> FusedScore(ranked, i) == (|ranked| - i) as real + ranked[i].score;
      var i, j :| 0 <= i < j < |ranked| && FusedScore(ranked, i) <= FusedScore(ranked, j);
      var a, b := Plain(ranked[j].id, 1.0), Plain(ranked[i].id, 0.0);
      KeyMeaning(ranked, a);
      KeyMeaning(ranked, b);
      Misordered(a, b, ranked, i);
    }
  }
}
