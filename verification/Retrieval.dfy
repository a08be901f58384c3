/**
 `DeterministicRetrievalService.Search`: searches for every expanded query, first-occurrence
 deduplication, tenant filter, identity ranking, rerank fusion and citations.
 */
module Retrieval {
  import opened Text
  import opened Contracts
  import opened Ranking
  import opened RerankFusion
  import opened Gateway

  datatype Query = Query(tenant: string, requestId: string, text: string, topK: int)

  predicate ValidQuery(q: Query) {
    q.tenant != "" && q.requestId != "" && q.text != "" && q.topK > 0
  }

  /** What searching for one expanded query came to. */
  datatype Found = EmbeddingFailed | NoVector | SearchFailed | Found(docs: seq<Document>)

  /** One expanded query and its outcome; the first one also steers the identity ranking. */
  datatype Lookup = Lookup(text: string, outcome: Found)

  // ----- Deduplication -----

  function DocsOf(f: Found): seq<Document> {
    if f.Found? then f.docs else []
  }

  function AllFound(ls: seq<Lookup>): seq<Document> {
    if ls == [] then [] else AllFound(ls[..|ls| - 1]) + DocsOf(ls[|ls| - 1].outcome)
  }

  function Ids(docs: seq<Document>): set<string> {
    if docs == [] then {} else Ids(docs[..|docs| - 1]) + {docs[|docs| - 1].id}
  }

  predicate HasId(docs: seq<Document>, id: string) {
    id in Ids(docs)
  }

  lemma {:induction false} HasIdMeaning(docs: seq<Document>, id: string)
    ensures HasId(docs, id) <==> exists d :: d in docs && d.id == id
  {
    if docs != [] {
      HasIdMeaning(docs[..|docs| - 1], id);
      assert docs == docs[..|docs| - 1] + [docs[|docs| - 1]];
      assert docs[|docs| - 1] in docs;
    }
  }

  function FirstOccurrences(docs: seq<Document>): seq<Document> {
    if docs == [] then []
    else
      var front, d := docs[..|docs| - 1], docs[|docs| - 1];
      if HasId(front, d.id) then FirstOccurrences(front) else FirstOccurrences(front) + [d]
  }

  /** d is found, and nothing with its id is found before it. */
  ghost predicate IsFirst(docs: seq<Document>, d: Document) {
    exists i :: 0 <= i < |docs| && docs[i] == d && !HasId(docs[..i], d.id)
  }

  lemma {:induction false} FirstOccurrencesSnoc(docs: seq<Document>, d: Document)
    ensures FirstOccurrences(docs + [d]) ==
            if HasId(docs, d.id) then FirstOccurrences(docs) else FirstOccurrences(docs) + [d]
  {
    assert (docs + [d])[..|docs|] == docs;
  }

  lemma IsFirstSnoc(docs: seq<Document>, e: Document, d: Document)
    ensures IsFirst(docs + [e], d) <==> IsFirst(docs, d) || (d == e && !HasId(docs, e.id))
  {
    var all := docs + [e];
    forall i | 0 <= i <= |docs|
      ensures all[..i] == docs[..i]
    {
    }
    assert docs[..|docs|] == docs;
    if IsFirst(docs, d) {
      var i :| 0 <= i < |docs| && docs[i] == d && !HasId(docs[..i], d.id);
      assert all[i] == d && !HasId(all[..i], d.id);
    }
    if d == e && !HasId(docs, e.id) {
      assert all[|docs|] == d && !HasId(all[..|docs|], d.id);
    }
    if IsFirst(all, d) {
      var i :| 0 <= i < |all| && all[i] == d && !HasId(all[..i], d.id);
      if i < |docs| {
        assert docs[i] == d && !HasId(docs[..i], d.id);
      }
    }
  }

  /** Deduplication keeps exactly the first document of each id, and so distinct ids. */
  lemma {:induction false} FirstOccurrencesMeaning(docs: seq<Document>)
    ensures DistinctDocIds(FirstOccurrences(docs))
    ensures forall d :: d in FirstOccurrences(docs) <==> IsFirst(docs, d)
  {
    if docs != [] {
      var front, e := docs[..|docs| - 1], docs[|docs| - 1];
      FirstOccurrencesMeaning(front);
      assert docs == front + [e];
      FirstOccurrencesSnoc(front, e);
      forall d
        ensures d in FirstOccurrences(docs) <==> IsFirst(docs, d)
      {
        IsFirstSnoc(front, e, d);
      }
      forall i | 0 <= i < |FirstOccurrences(front)|
        ensures HasId(front, FirstOccurrences(front)[i].id)
      {
        var f := FirstOccurrences(front)[i];
        assert f in FirstOccurrences(front) && f in front;
        HasIdMeaning(front, f.id);
      }
    }
  }

  /** What is kept of a part stays, in order, in front of what is kept of the rest. */
  lemma {:induction false} FirstOccurrencesPrefix(docs: seq<Document>, k: nat)
    requires k <= |docs|
    ensures FirstOccurrences(docs[..k]) <= FirstOccurrences(docs)
  {
    if k < |docs| {
      var front := docs[..|docs| - 1];
      FirstOccurrencesPrefix(front, k);
      assert front[..k] == docs[..k];
    } else {
      assert docs[..k] == docs;
    }
  }

  // ----- What the lookups found, lookup by lookup -----

  /** The reply lists a document with this id. */
  ghost predicate Lists(f: Found, id: string) {
    f.Found? && exists j :: 0 <= j < |f.docs| && f.docs[j].id == id
  }

  /** The reply lists d, and nothing with its id before it. */
  ghost predicate ListsFirst(f: Found, d: Document) {
    f.Found? && exists j :: 0 <= j < |f.docs| && f.docs[j] == d && NoIdBefore(f.docs, j, d.id)
  }

  ghost predicate NoIdBefore(docs: seq<Document>, j: nat, id: string)
    requires j <= |docs|
  {
    forall i :: 0 <= i < j ==> docs[i].id != id
  }

  /** Some lookup lists d first, and no earlier lookup lists its id. */
  ghost predicate FirstFound(ls: seq<Lookup>, d: Document) {
    exists i :: 0 <= i < |ls| && ListsFirst(ls[i].outcome, d) && NotListedBefore(ls, i, d.id)
  }

  ghost predicate NotListedBefore(ls: seq<Lookup>, i: nat, id: string)
    requires i <= |ls|
  {
    forall k :: 0 <= k < i ==> !Lists(ls[k].outcome, id)
  }

  lemma {:induction false} ReplyHasId(f: Found, id: string)
    ensures HasId(DocsOf(f), id) <==> Lists(f, id)
  {
    HasIdMeaning(DocsOf(f), id);
    if Lists(f, id) {
      var j :| 0 <= j < |f.docs| && f.docs[j].id == id;
      assert f.docs[j] in DocsOf(f);
    }
  }

  lemma {:induction false} ReplyIsFirst(f: Found, d: Document)
    ensures IsFirst(DocsOf(f), d) <==> ListsFirst(f, d)
  {
    var docs := DocsOf(f);
    forall j | 0 <= j < |docs|
      ensures HasId(docs[..j], d.id) <==> !NoIdBefore(docs, j, d.id)
    {
      HasIdMeaning(docs[..j], d.id);
      if !NoIdBefore(docs, j, d.id) {
        var i :| 0 <= i < j && docs[i].id == d.id;
        assert docs[..j][i] in docs[..j];
      }
    }
  }

  lemma {:induction false} IdsConcat(a: seq<Document>, b: seq<Document>)
    ensures Ids(a + b) == Ids(a) + Ids(b)
  {
    if b == [] {
      assert a + b == a;
    } else {
      assert (a + b)[..|a + b| - 1] == a + b[..|b| - 1];
      IdsConcat(a, b[..|b| - 1]);
    }
  }

  lemma {:induction false} IsFirstConcat(a: seq<Document>, b: seq<Document>, d: Document)
    ensures IsFirst(a + b, d) <==> IsFirst(a, d) || (IsFirst(b, d) && !HasId(a, d.id))
  {
    if b == [] {
      assert a + b == a;
    } else {
      var front, e := b[..|b| - 1], b[|b| - 1];
      assert a + b == (a + front) + [e] && b == front + [e];
      IsFirstSnoc(a + front, e, d);
      IsFirstSnoc(front, e, d);
      IsFirstConcat(a, front, d);
      IdsConcat(a, front);
    }
  }

  lemma {:induction false} AllFoundHasId(ls: seq<Lookup>, id: string)
    ensures HasId(AllFound(ls), id) <==> !NotListedBefore(ls, |ls|, id)
  {
    if ls != [] {
      var front, l := ls[..|ls| - 1], ls[|ls| - 1];
      AllFoundHasId(front, id);
      ReplyHasId(l.outcome, id);
      IdsConcat(AllFound(front), DocsOf(l.outcome));
      assert NotListedBefore(ls, |ls|, id) <==> NotListedBefore(front, |front|, id) && !Lists(l.outcome, id);
    }
  }

  lemma {:induction false} FirstFoundSnoc(front: seq<Lookup>, l: Lookup, d: Document)
    ensures FirstFound(front + [l], d) <==>
            FirstFound(front, d) || (ListsFirst(l.outcome, d) && NotListedBefore(front, |front|, d.id))
  {
    var ls := front + [l];
    assert forall i :: 0 <= i < |front| ==> ls[i] == front[i];
    if FirstFound(front, d) {
      var i :| 0 <= i < |front| && ListsFirst(front[i].outcome, d) && NotListedBefore(front, i, d.id);
      assert ListsFirst(ls[i].outcome, d) && NotListedBefore(ls, i, d.id);
    }
    if ListsFirst(l.outcome, d) && NotListedBefore(front, |front|, d.id) {
      assert ListsFirst(ls[|front|].outcome, d) && NotListedBefore(ls, |front|, d.id);
    }
    if FirstFound(ls, d) {
      var i :| 0 <= i < |ls| && ListsFirst(ls[i].outcome, d) && NotListedBefore(ls, i, d.id);
      if i < |front| {
        assert ListsFirst(front[i].outcome, d) && NotListedBefore(front, i, d.id);
      }
    }
  }

  /** Being first in everything found is being listed first by the first lookup that lists the id. */
  lemma {:induction false} FirstFoundMeaning(ls: seq<Lookup>, d: Document)
    ensures IsFirst(AllFound(ls), d) <==> FirstFound(ls, d)
  {
    if ls != [] {
      var front, l := ls[..|ls| - 1], ls[|ls| - 1];
      assert ls == front + [l];
      FirstFoundMeaning(front, d);
      FirstFoundSnoc(front, l, d);
      IsFirstConcat(AllFound(front), DocsOf(l.outcome), d);
      ReplyIsFirst(l.outcome, d);
      AllFoundHasId(front, d.id);
    }
  }

  /** Everything found is what the lookups found, one after the other. */
  lemma {:induction false} AllFoundConcat(a: seq<Lookup>, b: seq<Lookup>)
    ensures AllFound(a + b) == AllFound(a) + AllFound(b)
  {
    if b == [] {
      assert a + b == a;
    } else {
      assert (a + b)[..|a + b| - 1] == a + b[..|b| - 1];
      AllFoundConcat(a, b[..|b| - 1]);
    }
  }

  lemma {:induction false} AllFoundOne(l: Lookup)
    ensures AllFound([l]) == if l.outcome.Found? then l.outcome.docs else []
  {
    assert [l][..0] == [] && AllFound([l][..0]) == [];
  }

  lemma {:induction false} IdsSnoc(docs: seq<Document>, d: Document)
    ensures Ids(docs + [d]) == Ids(docs) + {d.id}
  {
    assert (docs + [d])[..|docs|] == docs;
  }

  /** The seenDocs loop over one reply. */
  method AddUnseen(allDocs: seq<Document>, seen: set<string>, docs: seq<Document>, ghost before: seq<Document>)
    returns (allDocs': seq<Document>, seen': set<string>)
    requires allDocs == FirstOccurrences(before) && seen == Ids(before)
    ensures allDocs' == FirstOccurrences(before + docs) && seen' == Ids(before + docs)
  {
    allDocs', seen' := allDocs, seen;
    ghost var soFar := before;
    for j := 0 to |docs|
      invariant soFar == before + docs[..j]
      invariant allDocs' == FirstOccurrences(soFar) && seen' == Ids(soFar)
    {
      var d := docs[j];
      FirstOccurrencesSnoc(soFar, d);
      IdsSnoc(soFar, d);
      soFar := soFar + [d];
      if d.id !in seen' {
        seen' := seen' + {d.id};
        allDocs' := allDocs' + [d];
      }
    }
    assert docs[..|docs|] == docs;
  }

  /** searchDocuments: failed lookups are passed over. */
  method SearchDocuments(lookups: seq<Lookup>) returns (allDocs: seq<Document>)
    ensures allDocs == FirstOccurrences(AllFound(lookups))
  {
    allDocs := [];
    var seen: set<string> := {};
    for i := 0 to |lookups|
      invariant allDocs == FirstOccurrences(AllFound(lookups[..i]))
      invariant seen == Ids(AllFound(lookups[..i]))
    {
      assert lookups[..i + 1][..i] == lookups[..i];
      if !lookups[i].outcome.Found? {
        assert AllFound(lookups[..i + 1]) == AllFound(lookups[..i]);
        continue;
      }
      allDocs, seen := AddUnseen(allDocs, seen, lookups[i].outcome.docs, AllFound(lookups[..i]));
    }
    assert lookups[..|lookups|] == lookups;
  }

  // ----- Tenant filter -----

  function ForTenant(tenant: string, docs: seq<Document>): (r: seq<Document>)
    ensures forall i :: 0 <= i < |r| ==> r[i].tenant == tenant && r[i] in docs
  {
    if docs == [] then []
    else
      var front := ForTenant(tenant, docs[..|docs| - 1]);
      if docs[|docs| - 1].tenant == tenant then front + [docs[|docs| - 1]] else front
  }

  lemma {:induction false} ForTenantMeaning(tenant: string, docs: seq<Document>)
    requires DistinctDocIds(docs)
    ensures DistinctDocIds(ForTenant(tenant, docs))
    ensures forall d :: d in ForTenant(tenant, docs) <==> d in docs && d.tenant == tenant
  {
    if docs != [] {
      var front := docs[..|docs| - 1];
      ForTenantMeaning(tenant, front);
      assert docs == front + [docs[|docs| - 1]];
      forall i | 0 <= i < |ForTenant(tenant, front)|
        ensures ForTenant(tenant, front)[i].id != docs[|docs| - 1].id
      {
        assert ForTenant(tenant, front)[i] in front;
      }
    }
  }

  /** The filter keeps the order. */
  lemma {:induction false} ForTenantPrefix(tenant: string, docs: seq<Document>, k: nat)
    requires k <= |docs|
    ensures ForTenant(tenant, docs[..k]) <= ForTenant(tenant, docs)
  {
    if k < |docs| {
      var front := docs[..|docs| - 1];
      ForTenantPrefix(tenant, front, k);
      assert front[..k] == docs[..k];
    } else {
      assert docs[..k] == docs;
    }
  }

  /** What a search may return. */
  function Eligible(tenant: string, lookups: seq<Lookup>): seq<Document> {
    ForTenant(tenant, FirstOccurrences(AllFound(lookups)))
  }

  // ----- Identity ranking -----

  /** tokenizeIdentityTerms and path.Base, which are taken as given. */
  datatype Lexicon = Lexicon(tokenize: string -> seq<string>, base: string -> string)

  const IDENTITY_FIELDS := ["person_hint", "file_name", "relative_path", "source_uri", "object_key"]

  function FieldTerms(lex: Lexicon, doc: Document, n: nat): seq<string>
    requires n <= |IDENTITY_FIELDS|
  {
    if n == 0 then []
    else
      var key := IDENTITY_FIELDS[n - 1];
      FieldTerms(lex, doc, n - 1) +
      if key in doc.metadata && TrimSpace(doc.metadata[key]) != "" then lex.tokenize(doc.metadata[key]) else []
  }

  function SourceTerms(lex: Lexicon, doc: Document): seq<string> {
    if doc.source != "" then lex.tokenize(lex.base(doc.source)) else []
  }

  function TermSet(ts: seq<string>): set<string> {
    if ts == [] then {} else TermSet(ts[..|ts| - 1]) + {ts[|ts| - 1]}
  }

  lemma TermSetSnoc(ts: seq<string>, i: nat)
    requires i < |ts|
    ensures TermSet(ts[..i + 1]) == TermSet(ts[..i]) + {ts[i]}
  {
    assert ts[..i + 1][..i] == ts[..i];
  }

  lemma {:induction false} TermSetMembers(ts: seq<string>)
    ensures forall t :: t in TermSet(ts) <==> t in ts
  {
    if ts != [] {
      TermSetMembers(ts[..|ts| - 1]);
      assert ts == ts[..|ts| - 1] + [ts[|ts| - 1]];
    }
  }

  function IdentityTerms(lex: Lexicon, doc: Document): seq<string> {
    SourceTerms(lex, doc) + FieldTerms(lex, doc, |IDENTITY_FIELDS|)
  }

  function IdentitySet(lex: Lexicon, doc: Document): set<string> {
    TermSet(IdentityTerms(lex, doc))
  }

  ghost predicate NoRepeats(ts: seq<string>) {
    forall i, j :: 0 <= i < j < |ts| ==> ts[i] != ts[j]
  }

  /** The collecting half of documentIdentityTerms. */
  method CollectTerms(lex: Lexicon, doc: Document) returns (terms: seq<string>)
    ensures terms == IdentityTerms(lex, doc)
  {
    terms := SourceTerms(lex, doc);
    for k := 0 to |IDENTITY_FIELDS|
      invariant terms == SourceTerms(lex, doc) + FieldTerms(lex, doc, k)
    {
      var key := IDENTITY_FIELDS[k];
      if key in doc.metadata && TrimSpace(doc.metadata[key]) != "" {
        terms := terms + lex.tokenize(doc.metadata[key]);
      }
    }
  }

  /** Each term where it occurs first. */
  function FirstTerms(ts: seq<string>): seq<string> {
    if ts == [] then []
    else
      var front, t := ts[..|ts| - 1], ts[|ts| - 1];
      if t in TermSet(front) then FirstTerms(front) else FirstTerms(front) + [t]
  }

  /** Its deduplicating half. */
  method WithoutRepeats(terms: seq<string>) returns (out: seq<string>)
    ensures out == FirstTerms(terms) && TermSet(out) == TermSet(terms) && NoRepeats(out)
  {
    var seen: set<string> := {};
    out := [];
    for i := 0 to |terms|
      invariant out == FirstTerms(terms[..i]) && seen == TermSet(out) == TermSet(terms[..i]) && NoRepeats(out)
    {
      TermSetSnoc(terms, i);
      assert terms[..i + 1][..i] == terms[..i];
      if terms[i] in seen {
        continue;
      }
      TermSetMembers(out);
      ghost var before := out;
      seen := seen + {terms[i]};
      out := out + [terms[i]];
      assert out[..|before|] == before;
    }
    assert terms[..|terms|] == terms;
  }

  /** documentIdentityTerms. */
  method DocumentIdentityTerms(lex: Lexicon, doc: Document) returns (out: seq<string>)
    ensures out == FirstTerms(IdentityTerms(lex, doc)) && TermSet(out) == IdentitySet(lex, doc) && NoRepeats(out)
  {
    var terms := CollectTerms(lex, doc);
    out := WithoutRepeats(terms);
  }

  /** countIdentityMatches: how many targeted terms name the document. */
  method CountIdentityMatches(lex: Lexicon, doc: Document, targeted: set<string>) returns (matches: nat)
    ensures matches == |IdentitySet(lex, doc) * targeted|
  {
    var terms := DocumentIdentityTerms(lex, doc);
    matches := CountTargeted(terms, targeted);
  }

  method CountTargeted(terms: seq<string>, targeted: set<string>) returns (matches: nat)
    requires NoRepeats(terms)
    ensures matches == |TermSet(terms) * targeted|
  {
    matches := 0;
    for i := 0 to |terms|
      invariant matches == |TermSet(terms[..i]) * targeted|
    {
      TermSetSnoc(terms, i);
      TermSetMembers(terms[..i]);
      ghost var hits := TermSet(terms[..i]) * targeted;
      if terms[i] in targeted {
        matches := matches + 1;
        assert TermSet(terms[..i + 1]) * targeted == hits + {terms[i]};
      } else {
        assert TermSet(terms[..i + 1]) * targeted == hits;
      }
    }
    assert terms[..|terms|] == terms;
  }

  function KnownTerms(lex: Lexicon, docs: seq<Document>): set<string> {
    if docs == [] then {} else KnownTerms(lex, docs[..|docs| - 1]) + IdentitySet(lex, docs[|docs| - 1])
  }

  lemma {:induction false} KnownMembers(lex: Lexicon, docs: seq<Document>)
    ensures forall t :: t in KnownTerms(lex, docs) <==> exists d :: d in docs && t in IdentitySet(lex, d)
  {
    if docs != [] {
      var front, last := docs[..|docs| - 1], docs[|docs| - 1];
      KnownMembers(lex, front);
      assert docs == front + [last] && last in docs;
    }
  }

  /** The query terms that name some document. */
  function Targeted(lex: Lexicon, text: string, docs: seq<Document>): set<string> {
    TermSet(lex.tokenize(text)) * KnownTerms(lex, docs)
  }

  function IdentityKey(lex: Lexicon, targeted: set<string>): Document -> real {
    (d: Document) => |IdentitySet(lex, d) * targeted| as real
  }

  function IdentityOrder(lex: Lexicon, text: string, docs: seq<Document>): seq<Document> {
    if |docs| < 2 || Targeted(lex, text, docs) == {} then docs
    else Ranked(IdentityKey(lex, Targeted(lex, text, docs)), docs)
  }

  /** The identity terms of all documents. */
  method CollectKnown(lex: Lexicon, docs: seq<Document>) returns (known: set<string>)
    ensures known == KnownTerms(lex, docs)
  {
    known := {};
    for i := 0 to |docs|
      invariant known == KnownTerms(lex, docs[..i])
    {
      var terms := DocumentIdentityTerms(lex, docs[i]);
      assert docs[..i + 1][..i] == docs[..i];
      known := known + TermSet(terms);
    }
    assert docs[..|docs|] == docs;
  }

  /** The query terms among them. */
  method CollectTargeted(queryTerms: seq<string>, known: set<string>) returns (targeted: set<string>)
    ensures targeted == TermSet(queryTerms) * known
  {
    targeted := {};
    for i := 0 to |queryTerms|
      invariant targeted == TermSet(queryTerms[..i]) * known
    {
      TermSetSnoc(queryTerms, i);
      if queryTerms[i] in known {
        targeted := targeted + {queryTerms[i]};
      }
    }
    assert queryTerms[..|queryTerms|] == queryTerms;
  }

  /** applyMetadataIntentRanking. */
  method ApplyIdentityRanking(lex: Lexicon, text: string, docs: seq<Document>) returns (ordered: seq<Document>)
    ensures ordered == IdentityOrder(lex, text, docs)
  {
    if |docs| < 2 {
      return docs;
    }
    var queryTerms := lex.tokenize(text);
    if |queryTerms| == 0 {
      return docs;
    }
    var known := CollectKnown(lex, docs);
    var targeted := CollectTargeted(queryTerms, known);
    if targeted == {} {
      return docs;
    }
    ordered := RankCopy(IdentityKey(lex, targeted), docs);
  }

  lemma SameMembers(s: seq<Document>, t: seq<Document>)
    requires multiset(s) == multiset(t)
    ensures forall d :: d in s <==> d in t
  {
    forall d
      ensures d in s <==> d in t
    {
      assert d in s <==> d in multiset(s);
      assert d in t <==> d in multiset(t);
    }
  }

  /** Identity ranking permutes, and ranking its own result changes nothing. */
  lemma IdentityOrderMeaning(lex: Lexicon, text: string, docs: seq<Document>)
    ensures multiset(IdentityOrder(lex, text, docs)) == multiset(docs)
    ensures IdentityOrder(lex, text, IdentityOrder(lex, text, docs)) == IdentityOrder(lex, text, docs)
  {
    var targeted := Targeted(lex, text, docs);
    var r := IdentityOrder(lex, text, docs);
    RankedMeaning(IdentityKey(lex, targeted), docs);
    SameMembers(r, docs);
    KnownMembers(lex, r);
    KnownMembers(lex, docs);
    assert KnownTerms(lex, r) == KnownTerms(lex, docs);
    assert |r| == |docs|;
  }

  // ----- What the identity ranking means -----

  /** How many terms of the query name the document. */
  function Matches(lex: Lexicon, text: string, d: Document): nat {
    |IdentitySet(lex, d) * TermSet(lex.tokenize(text))|
  }

  /** A term names the document when it is a token of the source's file name or of one of five metadata values. */
  lemma {:induction false} IdentitySetMeaning(lex: Lexicon, d: Document, t: string)
    ensures t in IdentitySet(lex, d) <==>
            || (d.source != "" && t in lex.tokenize(lex.base(d.source)))
            || FieldNames(lex, d, "person_hint", t) || FieldNames(lex, d, "file_name", t)
            || FieldNames(lex, d, "relative_path", t) || FieldNames(lex, d, "source_uri", t)
            || FieldNames(lex, d, "object_key", t)
  {
    TermSetMembers(IdentityTerms(lex, d));
    FieldTermsMeaning(lex, d, |IDENTITY_FIELDS|, t);
    var fs := IDENTITY_FIELDS;
    assert |fs| == 5 && fs[0] == "person_hint" && fs[1] == "file_name" && fs[2] == "relative_path";
    assert fs[3] == "source_uri" && fs[4] == "object_key";
  }

  predicate FieldNames(lex: Lexicon, d: Document, field: string, t: string) {
    field in d.metadata && TrimSpace(d.metadata[field]) != "" && t in lex.tokenize(d.metadata[field])
  }

  lemma {:induction false} FieldTermsMeaning(lex: Lexicon, d: Document, n: nat, t: string)
    requires n <= |IDENTITY_FIELDS|
    ensures t in FieldTerms(lex, d, n) <==>
            exists i :: 0 <= i < n && FieldNames(lex, d, IDENTITY_FIELDS[i], t)
  {
    if n > 0 {
      FieldTermsMeaning(lex, d, n - 1, t);
    }
  }

  /** Counting the targeted terms counts all matches. */
  lemma {:induction false} TargetedCounts(lex: Lexicon, text: string, docs: seq<Document>, d: Document)
    requires d in docs
    ensures |IdentitySet(lex, d) * Targeted(lex, text, docs)| == Matches(lex, text, d)
  {
    KnownMembers(lex, docs);
    assert IdentitySet(lex, d) * Targeted(lex, text, docs) == IdentitySet(lex, d) * TermSet(lex.tokenize(text));
  }

  /** The document that more query terms name comes first, then the one with the higher vector score; when no
      query term names any document, nothing moves. */
  lemma {:induction false} IdentityOrderByMatches(lex: Lexicon, text: string, docs: seq<Document>)
    ensures var r := IdentityOrder(lex, text, docs);
            if exists d :: d in docs && Matches(lex, text, d) > 0
            then forall i, j :: 0 <= i < j < |r| ==>
                   || Matches(lex, text, r[i]) > Matches(lex, text, r[j])
                   || (Matches(lex, text, r[i]) == Matches(lex, text, r[j]) && r[i].score >= r[j].score)
            else r == docs
  {
    var targeted, r := Targeted(lex, text, docs), IdentityOrder(lex, text, docs);
    IdentityOrderMeaning(lex, text, docs);
    SameMembers(r, docs);
    forall d | d in docs
      ensures |IdentitySet(lex, d) * targeted| == Matches(lex, text, d)
    {
      TargetedCounts(lex, text, docs, d);
    }
    TargetedIff(lex, text, docs);
    if targeted != {} && |docs| >= 2 {
      RankedFalls(IdentityKey(lex, targeted), docs);
      forall i, j | 0 <= i < j < |r|
        ensures || Matches(lex, text, r[i]) > Matches(lex, text, r[j])
                || (Matches(lex, text, r[i]) == Matches(lex, text, r[j]) && r[i].score >= r[j].score)
      {
        assert r[i] in r && r[j] in r;
      }
    }
  }

  lemma {:induction false} TargetedIff(lex: Lexicon, text: string, docs: seq<Document>)
    ensures Targeted(lex, text, docs) != {} <==> exists d :: d in docs && Matches(lex, text, d) > 0
  {
    KnownMembers(lex, docs);
    if t :| t in Targeted(lex, text, docs) {
      var d :| d in docs && t in IdentitySet(lex, d);
      assert t in IdentitySet(lex, d) * TermSet(lex.tokenize(text));
    }
    if d :| d in docs && Matches(lex, text, d) > 0 {
      var t :| t in IdentitySet(lex, d) * TermSet(lex.tokenize(text));
      assert t in Targeted(lex, text, docs);
    }
  }

  // ----- Reranking -----

  function Limit(topK: nat, n: nat): nat {
    if topK < n then topK else n
  }

  function CandidatesOf(docs: seq<Document>, n: nat): (cs: seq<Candidate>)
    requires n <= |docs|
    ensures |cs| == n
  {
    seq(n, i requires 0 <= i < n => Candidate(docs[i].id, docs[i].content, docs[i].score))
  }

  function RequestFor(q: Query, docs: seq<Document>, topK: nat): RerankRequest {
    var cs := CandidatesOf(docs, Limit(topK, |docs|));
    RerankRequest(q.tenant, q.requestId, q.text, cs, |cs|)
  }

  /** What the reranker is asked: the first documents, in order, under the query's own tenant, request and text. */
  lemma RequestMeaning(q: Query, docs: seq<Document>, topK: nat)
    ensures var r, n := RequestFor(q, docs, topK), if topK < |docs| then topK else |docs|;
            && r.tenant == q.tenant && r.requestId == q.requestId && r.queryText == q.text && r.topN == n
            && |r.candidates| == n
            && forall i :: 0 <= i < n ==>
                 && r.candidates[i].id == docs[i].id && r.candidates[i].text == docs[i].content
                 && r.candidates[i].score == docs[i].score
  {
  }

  // ----- Result -----

  datatype ResultCheck =
    Fine | MissingTenant | MissingRequest | MissingDocumentId | MissingDocumentTenant | DocumentTenantMismatch

  function CheckDocs(tenant: string, docs: seq<Document>): ResultCheck {
    if docs == [] then Fine
    else if docs[0].id == "" then MissingDocumentId
    else if docs[0].tenant == "" then MissingDocumentTenant
    else if docs[0].tenant != tenant then DocumentTenantMismatch
    else CheckDocs(tenant, docs[1..])
  }

  /** RetrievalResult.Validate. */
  function CheckResult(tenant: string, requestId: string, docs: seq<Document>): ResultCheck {
    if tenant == "" then MissingTenant else if requestId == "" then MissingRequest else CheckDocs(tenant, docs)
  }

  lemma {:induction false} TenantBranchesNeverFire(tenant: string, docs: seq<Document>)
    requires tenant != "" && forall d :: d in docs ==> d.tenant == tenant
    ensures CheckDocs(tenant, docs) == if HasId(docs, "") then MissingDocumentId else Fine
  {
    HasIdMeaning(docs, "");
    if docs != [] {
      assert docs[0] in docs && docs == [docs[0]] + docs[1..];
      TenantBranchesNeverFire(tenant, docs[1..]);
      HasIdMeaning(docs[1..], "");
    }
  }

  function CitationOf(d: Document): string {
    if d.source != "" then d.source else "doc:" + d.id
  }

  /** buildCitations. */
  method BuildCitations(docs: seq<Document>) returns (citations: seq<string>)
    ensures |citations| == |docs|
    ensures forall i :: 0 <= i < |docs| ==> citations[i] == CitationOf(docs[i])
  {
    citations := [];
    for i := 0 to |docs|
      invariant |citations| == i
      invariant forall k :: 0 <= k < i ==> citations[k] == CitationOf(docs[k])
    {
      if docs[i].source != "" {
        citations := citations + [docs[i].source];
        continue;
      }
      citations := citations + ["doc:" + docs[i].id];
    }
  }

  datatype SearchReply =
    | Results(documents: seq<Document>, citations: seq<string>, rerankApplied: bool)
    | InvalidInput
    | InvalidResult(check: ResultCheck)

  /** The documents are the eligible ones rearranged, each cited at its own position. */
  ghost predicate Characterised(q: Query, lookups: seq<Lookup>, documents: seq<Document>, citations: seq<string>) {
    && multiset(documents) == multiset(Eligible(q.tenant, lookups))
    && DistinctDocIds(documents)
    && (forall d :: d in documents <==> FirstFound(lookups, d) && d.tenant == q.tenant)
    && |citations| == |documents|
    && (forall i :: 0 <= i < |documents| ==>
          citations[i] == if documents[i].source != "" then documents[i].source else "doc:" + documents[i].id)
  }

  lemma {:induction false} EligibleMeaning(tenant: string, lookups: seq<Lookup>)
    ensures DistinctDocIds(Eligible(tenant, lookups))
    ensures forall d :: d in Eligible(tenant, lookups) <==> FirstFound(lookups, d) && d.tenant == tenant
  {
    FirstOccurrencesMeaning(AllFound(lookups));
    ForTenantMeaning(tenant, FirstOccurrences(AllFound(lookups)));
    forall d
      ensures d in Eligible(tenant, lookups) <==> FirstFound(lookups, d) && d.tenant == tenant
    {
      FirstFoundMeaning(lookups, d);
    }
  }

  lemma {:induction false} PermutationCharacterised(q: Query, lookups: seq<Lookup>, documents: seq<Document>)
    requires multiset(documents) == multiset(Eligible(q.tenant, lookups))
    ensures DistinctDocIds(documents)
    ensures forall d :: d in documents <==> FirstFound(lookups, d) && d.tenant == q.tenant
    ensures HasId(documents, "") <==> HasId(Eligible(q.tenant, lookups), "")
  {
    var es := Eligible(q.tenant, lookups);
    EligibleMeaning(q.tenant, lookups);
    PermutedIdsDistinct(es, documents);
    SameMembers(documents, es);
    HasIdMeaning(documents, "");
    HasIdMeaning(es, "");
  }

  /** The documents handed to the reranker, in the order it sees them. */
  function Prepared(lex: Lexicon, q: Query, lookups: seq<Lookup>): seq<Document> {
    IdentityOrder(lex, if lookups == [] then q.text else lookups[0].text, Eligible(q.tenant, lookups))
  }

  /** They are what the search may return, the document first that more terms of the first expanded query name. */
  lemma {:induction false} PreparedMeaning(lex: Lexicon, q: Query, lookups: seq<Lookup>)
    ensures var r, text := Prepared(lex, q, lookups), if lookups == [] then q.text else lookups[0].text;
            && multiset(r) == multiset(Eligible(q.tenant, lookups))
            && ((forall d :: d in r ==> Matches(lex, text, d) == 0) ==> r == Eligible(q.tenant, lookups))
            && forall i, j :: 0 <= i < j < |r| ==> Matches(lex, text, r[i]) >= Matches(lex, text, r[j])
  {
    var text, es := if lookups == [] then q.text else lookups[0].text, Eligible(q.tenant, lookups);
    IdentityOrderMeaning(lex, text, es);
    IdentityOrderByMatches(lex, text, es);
    SameMembers(Prepared(lex, q, lookups), es);
  }

  type Positive = n: int | n > 0 witness 1

  class RetrievalService {
    const hasSearcher: bool
    const hasReranker: bool
    const rerankTopK: Positive
    const threshold: int
    var failures: nat

    constructor (searcher: bool, reranker: bool, topK: int, failureThreshold: int)
      ensures hasSearcher == searcher && hasReranker == reranker && failures == 0
      ensures rerankTopK == (if topK <= 0 then 5 else topK) &&
              threshold == (if failureThreshold <= 0 then 3 else failureThreshold)
    {
      hasSearcher, hasReranker, failures := searcher, reranker, 0;
      rerankTopK := if topK <= 0 then 5 else topK;
      threshold := if failureThreshold <= 0 then 3 else failureThreshold;
    }

    /** Rerank; `reply` is what the reranker answers if it is called, `Error` also for a timeout. */
    method Rerank(meta: RequestMetadata, req: RerankRequest, reply: Reply<seq<Candidate>>) returns (o: Outcome)
      modifies this
      ensures var s := ServiceCall(hasReranker, threshold, old(failures), meta, req, reply);
              o == s.outcome && failures == s.failures
    {
      if !ValidMetadata(meta) { return Refused; }
      if !ValidRequest(req) { return Refused; }
      if meta.tenant != req.tenant { return Refused; }
      if !hasReranker {
        var top := TopCandidates(req.candidates, req.topN);
        return Reranked(top);
      }
      if failures >= threshold {
        var top := TopCandidates(req.candidates, req.topN);
        return Degraded(top);
      }
      if reply.Error? {
        failures := failures + 1;
        var top := TopCandidates(req.candidates, req.topN);
        return Degraded(top);
      }
      failures := 0;
      if req.topN >= |reply.value| {
        return Reranked(reply.value);
      }
      return Reranked(reply.value[..req.topN]);
    }

    /** rerankDocuments: fuses a successful reply into the documents; `ok` is the nil error. */
    method RerankDocuments(q: Query, docs: seq<Document>, reply: Reply<seq<Candidate>>)
      returns (ordered: seq<Document>, ok: bool)
      modifies this
      ensures !hasReranker || docs == [] ==> ok && ordered == docs && failures == old(failures)
      ensures hasReranker && docs != [] ==>
                var s := ServiceCall(true, threshold, old(failures), RequestMetadata(q.tenant, q.requestId),
                                     RequestFor(q, docs, rerankTopK), reply);
                && failures == s.failures
                && ok == s.outcome.Reranked?
                && ordered == if ok then Fuse(docs, s.outcome.candidates) else docs
    {
      if !hasReranker {
        return docs, true;
      }
      var limit := |docs|;
      if rerankTopK < limit {
        limit := rerankTopK;
      }
      var candidates: seq<Candidate> := [];
      for i := 0 to limit
        invariant candidates == CandidatesOf(docs, i)
        invariant failures == old(failures)
      {
        candidates := candidates + [Candidate(docs[i].id, docs[i].content, docs[i].score)];
      }
      if |candidates| == 0 {
        return docs, true;
      }
      var o := Rerank(RequestMetadata(q.tenant, q.requestId),
                      RerankRequest(q.tenant, q.requestId, q.text, candidates, |candidates|), reply);
      if !o.Reranked? {
        return docs, false;
      }
      ordered := FuseOrder(docs, o.candidates);
      ok := true;
    }

    /** Search.  For every set of expanded queries and every search, embedding or rerank failure. */
    method Search(lex: Lexicon, meta: RequestMetadata, q: Query, lookups: seq<Lookup>, reply: Reply<seq<Candidate>>)
      returns (r: SearchReply)
      modifies this
      ensures r.InvalidInput? <==>
                !(&& meta.tenant == q.tenant != "" && meta.requestId != "" && q.requestId != "" && q.text != ""
                  && q.topK > 0 && hasSearcher)
      ensures r.InvalidInput? ==> failures == old(failures)
      ensures r.InvalidResult? ==> r.check == MissingDocumentId
      ensures !r.InvalidInput? ==> (r.InvalidResult? <==> HasId(Eligible(q.tenant, lookups), ""))
      ensures r.Results? ==> Characterised(q, lookups, r.documents, r.citations)
      ensures !r.InvalidInput? ==>
                var docs := Prepared(lex, q, lookups);
                if docs == [] then failures == old(failures)
                else
                  var s := ServiceCall(hasReranker, threshold, old(failures), RequestMetadata(q.tenant, q.requestId),
                                       RequestFor(q, docs, rerankTopK), reply);
                  && failures == s.failures
                  && (r.Results? ==> r.documents == if r.rerankApplied then Fuse(docs, s.outcome.candidates) else docs)
                  && (r.Results? ==> (r.rerankApplied <==> hasReranker && s.outcome.Reranked?))
    {
      if !ValidMetadata(meta) { return InvalidInput; }
      if !ValidQuery(q) { return InvalidInput; }
      if meta.tenant != q.tenant { return InvalidInput; }
      if !hasSearcher { return InvalidInput; }
      var prepared := PrepareDocuments(lex, q, lookups);
      var filtered, rerankApplied := prepared, false;
      if |filtered| > 0 {
        var ranked, ok := RerankDocuments(q, filtered, reply);
        if ok {
          filtered := ranked;
          rerankApplied := hasReranker;
        }
      }
      FusePermutes(prepared, filtered);
      r := ConcludeSearch(q, lookups, filtered, rerankApplied);
    }
  }

  /** From the lookups to the documents the reranker sees. */
  method PrepareDocuments(lex: Lexicon, q: Query, lookups: seq<Lookup>) returns (filtered: seq<Document>)
    ensures filtered == Prepared(lex, q, lookups)
    ensures multiset(filtered) == multiset(Eligible(q.tenant, lookups))
  {
    var docs := SearchDocuments(lookups);
    filtered := FilterTenant(q.tenant, docs);
    var rankingQuery := q.text;
    if |lookups| > 0 {
      rankingQuery := lookups[0].text;
    }
    filtered := ApplyIdentityRanking(lex, rankingQuery, filtered);
    IdentityOrderMeaning(lex, rankingQuery, Eligible(q.tenant, lookups));
  }

  /** Citations and the final check. */
  method ConcludeSearch(q: Query, lookups: seq<Lookup>, filtered: seq<Document>, rerankApplied: bool)
    returns (r: SearchReply)
    requires ValidQuery(q) && multiset(filtered) == multiset(Eligible(q.tenant, lookups))
    ensures !r.InvalidInput? && (r.InvalidResult? ==> r.check == MissingDocumentId)
    ensures r.InvalidResult? <==> HasId(Eligible(q.tenant, lookups), "")
    ensures r.Results? ==>
              && r.documents == filtered && r.rerankApplied == rerankApplied
              && Characterised(q, lookups, r.documents, r.citations)
  {
    PermutationCharacterised(q, lookups, filtered);
    TenantBranchesNeverFire(q.tenant, filtered);
    var citations := BuildCitations(filtered);
    var check := CheckResult(q.tenant, q.requestId, filtered);
    if check != Fine {
      return InvalidResult(check);
    }
    return Results(filtered, citations, rerankApplied);
  }

  lemma FusePermutes(docs: seq<Document>, result: seq<Document>)
    requires result == docs || exists ranked :: result == Fuse(docs, ranked)
    ensures multiset(result) == multiset(docs)
  {
    if result != docs {
      var ranked :| result == Fuse(docs, ranked);
      RankedMeaning(KeyOf(Scores(ranked)), docs);
    }
  }

  /** The tenant filter loop. */
  method FilterTenant(tenant: string, docs: seq<Document>) returns (filtered: seq<Document>)
    ensures filtered == ForTenant(tenant, docs)
  {
    filtered := [];
    for i := 0 to |docs|
      invariant filtered == ForTenant(tenant, docs[..i])
    {
      assert docs[..i + 1][..i] == docs[..i];
      if docs[i].tenant == tenant {
        filtered := filtered + [docs[i]];
      }
    }
    assert docs[..|docs|] == docs;
  }
}
