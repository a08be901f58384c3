/**
 Query-intent ranking of the search handlers: tokenising the query, scoring a document against
 the terms, ranking, and the top vectors shown with the answer.  Go iterates a metadata map in
 an arbitrary order; the score is proved not to depend on it.
 */
module IntentRanking {
  import opened Text
  import opened StableSort
  import opened Ranking

  /** strings.ToLower and the CGPA pattern, which are taken as given. */
  datatype Lexis = Lexis(lower: string -> string, cgpaValue: string -> bool)

  // ----- Tokenising -----

  const PUNCTUATION := "?!.,:;()[]{}'\""

  const STOP_WORDS := ["what", "is", "the", "of", "for", "and", "with", "from", "about", "tell", "me"]

  /** Each of fourteen punctuation marks becomes a space. */
  function Blanked(s: string): (r: string)
    ensures |r| == |s|
    ensures forall i :: 0 <= i < |s| ==> r[i] == if s[i] in "?!.,:;()[]{}'\"" then ' ' else s[i]
  {
    seq(|s|, i requires 0 <= i < |s| => if s[i] in PUNCTUATION then ' ' else s[i])
  }

  predicate Kept(p: string) {
    p !in STOP_WORDS && ByteLen(p) >= 3
  }

  function KeptTerms(parts: seq<string>): seq<string> {
    if parts == [] then []
    else if Kept(parts[|parts| - 1]) then KeptTerms(parts[..|parts| - 1]) + [parts[|parts| - 1]]
    else KeptTerms(parts[..|parts| - 1])
  }

  function SearchTerms(lex: Lexis, input: string): seq<string> {
    KeptTerms(Fields(Blanked(lex.lower(TrimSpace(input)))))
  }

  /** TokenizeSearchTerms. */
  method TokenizeSearchTerms(lex: Lexis, input: string) returns (out: seq<string>)
    ensures out == SearchTerms(lex, input)
  {
    var value := lex.lower(TrimSpace(input));
    if value == "" {
      assert Blanked(value) == "";
      return [];
    }
    var parts := Fields(Blanked(value));
    out := [];
    for i := 0 to |parts|
      invariant out == KeptTerms(parts[..i])
    {
      var p := parts[i];
      assert parts[..i + 1][..i] == parts[..i];
      if p in STOP_WORDS {
        continue;
      }
      if ByteLen(p) < 3 {
        continue;
      }
      out := out + [p];
    }
    assert parts[..|parts|] == parts;
  }

  lemma {:induction false} KeptTermsAreWords(parts: seq<string>)
    requires AllWords(parts)
    ensures AllWords(KeptTerms(parts))
  {
    if parts != [] {
      KeptTermsAreWords(parts[..|parts| - 1]);
    }
  }

  /** Query terms never hold white space. */
  lemma SearchTermsAreWords(lex: Lexis, input: string)
    ensures AllWords(SearchTerms(lex, input))
  {
    KeptTermsAreWords(Fields(Blanked(lex.lower(TrimSpace(input)))));
  }

  lemma {:induction false} KeptTermsConcat(a: seq<string>, b: seq<string>)
    ensures KeptTerms(a + b) == KeptTerms(a) + KeptTerms(b)
  {
    if b == [] {
      assert a + b == a;
    } else {
      assert (a + b)[..|a + b| - 1] == a + b[..|b| - 1];
      KeptTermsConcat(a, b[..|b| - 1]);
    }
  }

  /** The terms are the words of the query, lower-cased and without punctuation, in order, that are not stop
      words and have at least three bytes. */
  lemma {:induction false} SearchTermsMeaning(lex: Lexis, input: string, a: seq<string>, w: string, b: seq<string>)
    requires Fields(Blanked(lex.lower(TrimSpace(input)))) == a + [w] + b
    ensures SearchTerms(lex, input) ==
            KeptTerms(a) + (if w !in STOP_WORDS && ByteLen(w) >= 3 then [w] else []) + KeptTerms(b)
  {
    KeptTermsConcat(a + [w], b);
    KeptTermsConcat(a, [w]);
    assert [w][..0] == [] && KeptTerms([w]) == KeptTerms([]) + if Kept(w) then [w] else [];
  }

  // ----- Occurrence -----

  predicate OccursAt(s: string, t: string, i: int) {
    0 <= i <= |s| - |t| && s[i..i + |t|] == t
  }

  /** strings.Contains. */
  predicate Contains(s: string, t: string) {
    exists i :: 0 <= i <= |s| && OccursAt(s, t, i)
  }

  lemma ContainsLeft(a: string, b: string, t: string)
    requires Contains(a, t)
    ensures Contains(a + b, t)
  {
    var i :| 0 <= i <= |a| && OccursAt(a, t, i);
    assert (a + b)[i..i + |t|] == a[i..i + |t|];
    assert OccursAt(a + b, t, i);
  }

  lemma ContainsRight(a: string, b: string, t: string)
    requires Contains(b, t)
    ensures Contains(a + b, t)
  {
    var i :| 0 <= i <= |b| && OccursAt(b, t, i);
    assert (a + b)[|a| + i..|a| + i + |t|] == b[i..i + |t|];
    assert OccursAt(a + b, t, |a| + i);
  }

  /** An occurrence of a word around a space lies wholly on one side of it. */
  lemma OneSide(a: string, b: string, t: string, i: nat)
    requires IsWord(t) && OccursAt(a + " " + b, t, i)
    ensures OccursAt(a, t, i) || OccursAt(b, t, i - |a| - 1)
  {
    var s := a + " " + b;
    assert s[i..i + |t|] == t;
    assert forall j :: i <= j < i + |t| ==> s[j] == t[j - i];
    assert s[|a|] == ' ';
    assert !(i <= |a| < i + |t|);
    if i + |t| <= |a| {
      assert s[i..i + |t|] == a[i..i + |t|];
    } else {
      assert s[i..i + |t|] == b[i - |a| - 1..i - |a| - 1 + |t|];
    }
  }

  /** A word cannot straddle a space. */
  lemma ContainsAcrossSpace(a: string, b: string, t: string)
    requires IsWord(t)
    ensures Contains(a + " " + b, t) <==> Contains(a, t) || Contains(b, t)
  {
    if Contains(a + " " + b, t) {
      var i :| 0 <= i <= |a + " " + b| && OccursAt(a + " " + b, t, i);
      OneSide(a, b, t, i);
    }
    if Contains(a, t) {
      ContainsLeft(a, " ", t);
      ContainsLeft(a + " ", b, t);
    }
    if Contains(b, t) {
      ContainsRight(a + " ", b, t);
    }
  }

  // ----- Metadata -----

  type Items = seq<(string, string)>

  /** The iteration visits every entry of the map, in whatever order. */
  ghost predicate Enumerates(items: Items, m: map<string, string>) {
    && (forall i :: 0 <= i < |items| ==> items[i].0 in m && m[items[i].0] == items[i].1)
    && (forall k :: k in m ==> exists i :: 0 <= i < |items| && items[i].0 == k)
  }

  /** The string the loop over the metadata builds. */
  function MetadataText(lex: Lexis, items: Items): string {
    if items == [] then ""
    else
      var (k, v) := items[|items| - 1];
      MetadataText(lex, items[..|items| - 1]) + " " + lex.lower(k) + " " + lex.lower(v)
  }

  /** The term occurs in a single key or value. */
  predicate InMetadata(lex: Lexis, m: map<string, string>, t: string) {
    exists k :: k in m && (Contains(lex.lower(k), t) || Contains(lex.lower(m[k]), t))
  }

  ghost predicate InItems(lex: Lexis, items: Items, t: string) {
    exists i :: 0 <= i < |items| && (Contains(lex.lower(items[i].0), t) || Contains(lex.lower(items[i].1), t))
  }

  lemma {:induction false} MetadataTextContains(lex: Lexis, items: Items, t: string)
    requires IsWord(t)
    ensures Contains(MetadataText(lex, items), t) <==> InItems(lex, items, t)
  {
    if items != [] {
      var front := items[..|items| - 1];
      var (k, v) := items[|items| - 1];
      MetadataTextContains(lex, front, t);
      ContainsAcrossSpace(MetadataText(lex, front), lex.lower(k), t);
      ContainsAcrossSpace(MetadataText(lex, front) + " " + lex.lower(k), lex.lower(v), t);
      if InItems(lex, front, t) {
        var i :| 0 <= i < |front| && (Contains(lex.lower(front[i].0), t) || Contains(lex.lower(front[i].1), t));
        assert items[i] == front[i];
      }
      if InItems(lex, items, t) {
        var i :| 0 <= i < |items| && (Contains(lex.lower(items[i].0), t) || Contains(lex.lower(items[i].1), t));
        if i < |front| {
          assert items[i] == front[i];
        }
      }
    }
  }

  /** However the map is iterated, a query term occurs in the joined text exactly when it occurs in
      one key or one value. */
  lemma {:induction false} MetadataOrderIrrelevant(lex: Lexis, m: map<string, string>, items: Items, t: string)
    requires IsWord(t) && Enumerates(items, m)
    ensures Contains(MetadataText(lex, items), t) <==> InMetadata(lex, m, t)
  {
    MetadataTextContains(lex, items, t);
    if InItems(lex, items, t) {
      var i :| 0 <= i < |items| && (Contains(lex.lower(items[i].0), t) || Contains(lex.lower(items[i].1), t));
      assert items[i].0 in m;
    }
    if InMetadata(lex, m, t) {
      var k :| k in m && (Contains(lex.lower(k), t) || Contains(lex.lower(m[k]), t));
      var i :| 0 <= i < |items| && items[i].0 == k;
      assert items[i].1 == m[k];
    }
  }

  // ----- Scoring -----

  /** What one term adds. */
  function TermScore(lex: Lexis, doc: Document, t: string): nat {
    if Contains(lex.lower(doc.content), t) then 8
    else if InMetadata(lex, doc.metadata, t) then 5
    else if Contains(lex.lower(doc.source), t) then 4
    else 0
  }

  function TermScores(lex: Lexis, doc: Document, terms: seq<string>): nat {
    if terms == [] then 0 else TermScores(lex, doc, terms[..|terms| - 1]) + TermScore(lex, doc, terms[|terms| - 1])
  }

  predicate AnyOf(terms: seq<string>, values: seq<string>) {
    exists i :: 0 <= i < |values| && values[i] in terms
  }

  predicate ContainsSome(s: string, values: seq<string>) {
    exists i :: 0 <= i < |values| && Contains(s, values[i])
  }

  const GRADES := ["cgpa", "gpa"]
  const STUDIES := ["education", "qualification", "degree"]

  function Bonus(lex: Lexis, doc: Document, terms: seq<string>): nat {
    var content := lex.lower(doc.content);
    (if AnyOf(terms, GRADES) then
         (if ContainsSome(content, GRADES) then 20 else 0) + (if lex.cgpaValue(content) then 12 else 0)
     else 0)
    + (if AnyOf(terms, STUDIES) && ContainsSome(content, STUDIES) then 10 else 0)
  }

  /** The same for one walk over the metadata: the code searches the text that this walk builds. */
  function WalkedTermScore(lex: Lexis, doc: Document, items: Items, t: string): nat {
    if Contains(lex.lower(doc.content), t) then 8
    else if Contains(MetadataText(lex, items), t) then 5
    else if Contains(lex.lower(doc.source), t) then 4
    else 0
  }

  function WalkedTermScores(lex: Lexis, doc: Document, items: Items, terms: seq<string>): nat {
    if terms == [] then 0
    else WalkedTermScores(lex, doc, items, terms[..|terms| - 1]) +
         WalkedTermScore(lex, doc, items, terms[|terms| - 1])
  }

  function WalkedScore(lex: Lexis, terms: seq<string>, doc: Document, items: Items): nat {
    WalkedTermScores(lex, doc, items, terms) + Bonus(lex, doc, terms)
  }

  lemma {:induction false} WalkedTermScoresAgree(lex: Lexis, doc: Document, items: Items, terms: seq<string>)
    requires AllWords(terms) && Enumerates(items, doc.metadata)
    ensures WalkedTermScores(lex, doc, items, terms) == TermScores(lex, doc, terms)
  {
    if terms != [] {
      WalkedTermScoresAgree(lex, doc, items, terms[..|terms| - 1]);
      MetadataOrderIrrelevant(lex, doc.metadata, items, terms[|terms| - 1]);
    }
  }

  /** For terms without white space the score is the same for every walk. */
  lemma ScoreIgnoresWalk(lex: Lexis, terms: seq<string>, doc: Document, items: Items)
    requires AllWords(terms) && Enumerates(items, doc.metadata)
    ensures WalkedScore(lex, terms, doc, items) == IntentScore(lex, terms, doc)
  {
    WalkedTermScoresAgree(lex, doc, items, terms);
  }

  function IntentScore(lex: Lexis, terms: seq<string>, doc: Document): nat {
    TermScores(lex, doc, terms) + Bonus(lex, doc, terms)
  }

  /** A term counts once: 8 when the content has it, else 5 when a metadata key or value has it, else 4 when
      the source has it. */
  lemma TermWeights(lex: Lexis, doc: Document, t: string)
    ensures var n := TermScore(lex, doc, t);
            && (n == 8 <==> Contains(lex.lower(doc.content), t))
            && (n == 5 <==> !Contains(lex.lower(doc.content), t) && InMetadata(lex, doc.metadata, t))
            && (n == 4 <==> && !Contains(lex.lower(doc.content), t) && !InMetadata(lex, doc.metadata, t)
                            && Contains(lex.lower(doc.source), t))
            && n in {0, 4, 5, 8}
  {
  }

  lemma {:induction false} TermScoresConcat(lex: Lexis, doc: Document, a: seq<string>, b: seq<string>)
    ensures TermScores(lex, doc, a + b) == TermScores(lex, doc, a) + TermScores(lex, doc, b)
  {
    if b == [] {
      assert a + b == a;
    } else {
      assert (a + b)[..|a + b| - 1] == a + b[..|b| - 1];
      TermScoresConcat(lex, doc, a, b[..|b| - 1]);
    }
  }

  /** The score of a query: each term's weight, 20 for a grade query on content that mentions grades, 12 more
      for one on content with a grade value, and 10 for a study query on content that mentions studies. */
  lemma {:induction false} ScoreMeaning(lex: Lexis, terms: seq<string>, doc: Document)
    ensures var content := lex.lower(doc.content);
            var grades := "cgpa" in terms || "gpa" in terms;
            var studies := "education" in terms || "qualification" in terms || "degree" in terms;
            IntentScore(lex, terms, doc) ==
            TermScores(lex, doc, terms)
            + (if grades && (Contains(content, "cgpa") || Contains(content, "gpa")) then 20 else 0)
            + (if grades && lex.cgpaValue(content) then 12 else 0)
            + (if studies && (|| Contains(content, "education") || Contains(content, "qualification")
                              || Contains(content, "degree")) then 10 else 0)
  {
    var content := lex.lower(doc.content);
    assert AnyOf(terms, GRADES) <==> GRADES[0] in terms || GRADES[1] in terms;
    assert AnyOf(terms, STUDIES) <==> STUDIES[0] in terms || STUDIES[1] in terms || STUDIES[2] in terms;
    assert ContainsSome(content, GRADES) <==> Contains(content, GRADES[0]) || Contains(content, GRADES[1]);
    assert ContainsSome(content, STUDIES) <==>
           Contains(content, STUDIES[0]) || Contains(content, STUDIES[1]) || Contains(content, STUDIES[2]);
  }

  /** One more term never lowers a score, and adds at least its weight. */
  lemma {:induction false} MoreTermsNeverLower(lex: Lexis, terms: seq<string>, t: string, doc: Document)
    ensures IntentScore(lex, terms + [t], doc) >= IntentScore(lex, terms, doc) + TermScore(lex, doc, t)
  {
    ScoreMeaning(lex, terms, doc);
    ScoreMeaning(lex, terms + [t], doc);
    assert (terms + [t])[..|terms|] == terms;
  }

  /** ContainsAny. */
  method ContainsAny(terms: seq<string>, values: seq<string>) returns (r: bool)
    ensures r == AnyOf(terms, values)
  {
    if |terms| == 0 || |values| == 0 {
      return false;
    }
    var termSet: set<string> := {};
    for i := 0 to |terms|
      invariant forall t :: t in termSet <==> t in terms[..i]
    {
      termSet := termSet + {terms[i]};
      assert terms[..i + 1] == terms[..i] + [terms[i]];
    }
    assert terms[..|terms|] == terms;
    for i := 0 to |values|
      invariant forall j :: 0 <= j < i ==> values[j] !in terms
    {
      if values[i] in termSet {
        return true;
      }
    }
    return false;
  }

  /** queryIntentScore; `items` is the order in which Go happens to walk the metadata.  For terms that
      are words the result is a function of the document and the terms alone. */
  method QueryIntentScore(lex: Lexis, terms: seq<string>, doc: Document, items: Items) returns (score: nat)
    ensures score == WalkedScore(lex, terms, doc, items)
    ensures AllWords(terms) && Enumerates(items, doc.metadata) ==> score == IntentScore(lex, terms, doc)
  {
    var content, source := lex.lower(doc.content), lex.lower(doc.source);
    var metadata := "";
    for i := 0 to |items|
      invariant metadata == MetadataText(lex, items[..i])
    {
      assert items[..i + 1][..i] == items[..i];
      metadata := metadata + " " + lex.lower(items[i].0) + " " + lex.lower(items[i].1);
    }
    assert items[..|items|] == items;
    score := 0;
    for i := 0 to |terms|
      invariant score == WalkedTermScores(lex, doc, items, terms[..i])
    {
      var term := terms[i];
      assert terms[..i + 1][..i] == terms[..i];
      if Contains(content, term) {
        score := score + 8;
      } else if Contains(metadata, term) {
        score := score + 5;
      } else if Contains(source, term) {
        score := score + 4;
      }
    }
    assert terms[..|terms|] == terms;
    var grades := ContainsAny(terms, GRADES);
    if grades {
      assert ContainsSome(content, GRADES) <==> Contains(content, GRADES[0]) || Contains(content, GRADES[1]);
      if Contains(content, "cgpa") || Contains(content, "gpa") {
        score := score + 20;
      }
      if lex.cgpaValue(content) {
        score := score + 12;
      }
    }
    var studies := ContainsAny(terms, STUDIES);
    if studies {
      assert ContainsSome(content, STUDIES) <==>
             Contains(content, STUDIES[0]) || Contains(content, STUDIES[1]) || Contains(content, STUDIES[2]);
      if Contains(content, "education") || Contains(content, "qualification") || Contains(content, "degree") {
        score := score + 10;
      }
    }
    if AllWords(terms) && Enumerates(items, doc.metadata) {
      ScoreIgnoresWalk(lex, terms, doc, items);
    }
  }

  // ----- Ranking -----

  function IntentKey(lex: Lexis, terms: seq<string>): Document -> real {
    (d: Document) => IntentScore(lex, terms, d) as real
  }

  function IntentOrder(lex: Lexis, query: string, docs: seq<Document>): seq<Document> {
    if |docs| <= 1 || SearchTerms(lex, query) == [] then docs
    else Ranked(IntentKey(lex, SearchTerms(lex, query)), docs)
  }

  /** How the metadata of a document is walked in evaluation n: any order, and a new one each time. */
  type Walk = (nat, Document) -> Items

  ghost predicate Walks(walk: Walk) {
    forall n: nat, d: Document :: Enumerates(walk(n, d), d.metadata)
  }

  /** The comparison the sort is given: comparison n scores both documents afresh. */
  function WalkedLess(lex: Lexis, terms: seq<string>, walk: Walk): (nat, Document, Document) -> bool {
    (n: nat, a: Document, b: Document) =>
      var left := WalkedScore(lex, terms, a, walk(2 * n, a));
      var right := WalkedScore(lex, terms, b, walk(2 * n + 1, b));
      if left == right then a.score > b.score else left > right
  }

  lemma WalkedLessIsByScore(lex: Lexis, terms: seq<string>, walk: Walk, n: nat, a: Document, b: Document)
    requires AllWords(terms) && Walks(walk)
    ensures WalkedLess(lex, terms, walk)(n, a, b) == ByKey(IntentKey(lex, terms))(a, b)
  {
    var i, j := walk(2 * n, a), walk(2 * n + 1, b);
    assert WalkedScore(lex, terms, a, i) == IntentScore(lex, terms, a) by {
      ScoreIgnoresWalk(lex, terms, a, i);
    }
    assert WalkedScore(lex, terms, b, j) == IntentScore(lex, terms, b) by {
      ScoreIgnoresWalk(lex, terms, b, j);
    }
  }

  /** Query terms are words, so however the maps are walked each comparison answers by the score. */
  lemma WalkedLessIsConsistent(lex: Lexis, query: string, walk: Walk)
    requires Walks(walk)
    ensures var terms := SearchTerms(lex, query);
            Consistent(WalkedLess(lex, terms, walk), ByKey(IntentKey(lex, terms)))
  {
    var terms := SearchTerms(lex, query);
    SearchTermsAreWords(lex, query);
    forall n: nat, a, b
      ensures WalkedLess(lex, terms, walk)(n, a, b) == ByKey(IntentKey(lex, terms))(a, b)
    {
      WalkedLessIsByScore(lex, terms, walk, n, a, b);
    }
  }

  /** RankDocumentsByQueryIntent: the same order for every way the maps may be walked. */
  method RankDocumentsByQueryIntent(lex: Lexis, query: string, docs: seq<Document>, walk: Walk)
    returns (ordered: seq<Document>)
    requires Walks(walk)
    ensures ordered == IntentOrder(lex, query, docs)
  {
    if |docs| <= 1 {
      return docs;
    }
    var queryTerms := TokenizeSearchTerms(lex, query);
    if |queryTerms| == 0 {
      return docs;
    }
    WalkedLessIsConsistent(lex, query, walk);
    ordered := RankCopyBy(WalkedLess(lex, queryTerms, walk), IntentKey(lex, queryTerms), docs);
  }

  /** What the ranking means: with a usable query the document with the higher intent score comes first, then
      the one with the higher vector score, and documents equal in both keep their order; without one
      nothing moves. */
  lemma {:induction false} IntentOrderMeaning(lex: Lexis, query: string, docs: seq<Document>)
    ensures var terms, r := SearchTerms(lex, query), IntentOrder(lex, query, docs);
            if terms == [] then r == docs
            else
              && BestFirst((d: Document) => IntentScore(lex, terms, d) as real, r, docs)
              && forall i, j :: 0 <= i < j < |r| ==>
                   || IntentScore(lex, terms, r[i]) > IntentScore(lex, terms, r[j])
                   || (IntentScore(lex, terms, r[i]) == IntentScore(lex, terms, r[j]) && r[i].score >= r[j].score)
  {
    var terms := SearchTerms(lex, query);
    var measure := (d: Document) => IntentScore(lex, terms, d) as real;
    if |docs| > 1 {
      RankedIsBestFirst(IntentKey(lex, terms), measure, docs);
    }
    assert terms != [] ==> BestFirst(measure, IntentOrder(lex, query, docs), docs);
  }

  /** Ranking permutes the documents, and ranking a ranked list changes nothing. */
  lemma IntentOrderIdempotent(lex: Lexis, query: string, docs: seq<Document>)
    ensures multiset(IntentOrder(lex, query, docs)) == multiset(docs)
    ensures |IntentOrder(lex, query, docs)| == |docs|
    ensures IntentOrder(lex, query, IntentOrder(lex, query, docs)) == IntentOrder(lex, query, docs)
  {
    RankedMeaning(IntentKey(lex, SearchTerms(lex, query)), docs);
  }

  // ----- Top vectors -----

  datatype TopVector = TopVector(
    rank: nat, documentId: string, source: string, score: real, snippet: string, metadata: map<string, string>)

  /** BuildAnswerSnippet, which is taken as given. */
  type Snippet = (string, string) -> string

  function VectorOf(snippet: Snippet, query: string, d: Document, i: nat): TopVector {
    TopVector(i + 1, d.id, d.source, d.score, snippet(query, d.content), d.metadata)
  }

  function TopLimit(limit: int): int {
    if limit <= 0 then 5 else limit
  }

  /** The first `limit` documents, or the first five when there is no limit. */
  function Cited(docs: seq<Document>, limit: int): (r: seq<Document>)
    ensures r <= docs
    ensures limit > 0 ==> |r| == if |docs| > limit then limit else |docs|
    ensures limit <= 0 ==> |r| == if |docs| > 5 then 5 else |docs|
  {
    if |docs| > TopLimit(limit) then docs[..TopLimit(limit)] else docs
  }

  /** Vector i is document i, ranked i + 1. */
  predicate Describes(snippet: Snippet, query: string, vs: seq<TopVector>, docs: seq<Document>) {
    |vs| == |docs| && forall i :: 0 <= i < |vs| ==> vs[i] == VectorOf(snippet, query, docs[i], i)
  }

  /** buildTopFilteredVectors, which ranks what it is given once more. */
  method BuildTopFilteredVectors(lex: Lexis, snippet: Snippet, query: string, docs: seq<Document>, limit: int,
                                 walk: Walk)
    returns (vectors: seq<TopVector>)
    requires Walks(walk)
    ensures Describes(snippet, query, vectors, Cited(IntentOrder(lex, query, docs), limit))
  {
    IntentOrderIdempotent(lex, query, docs);
    if |docs| == 0 {
      return [];
    }
    var n := limit;
    if n <= 0 {
      n := 5;
    }
    var ranked := RankDocumentsByQueryIntent(lex, query, docs, walk);
    if |ranked| > n {
      ranked := ranked[..n];
    }
    vectors := DescribeAll(snippet, query, ranked);
  }

  method DescribeAll(snippet: Snippet, query: string, ranked: seq<Document>) returns (vectors: seq<TopVector>)
    ensures Describes(snippet, query, vectors, ranked)
  {
    vectors := [];
    for i := 0 to |ranked|
      invariant |vectors| == i
      invariant forall k :: 0 <= k < i ==> vectors[k] == VectorOf(snippet, query, ranked[k], k)
    {
      vectors := vectors + [VectorOf(snippet, query, ranked[i], i)];
    }
  }

  /** The search handlers rank, then build the top vectors from the ranked list: those are exactly the
      first five documents the answer and the citations use, in the same order, although the second
      ranking walks the maps differently. */
  method RankAndShow(lex: Lexis, snippet: Snippet, query: string, docs: seq<Document>, walk: Walk, walk': Walk)
    returns (rankedDocs: seq<Document>, topVectors: seq<TopVector>)
    requires Walks(walk) && Walks(walk')
    ensures rankedDocs == IntentOrder(lex, query, docs)
    ensures Describes(snippet, query, topVectors, Cited(rankedDocs, 5))
  {
    rankedDocs := RankDocumentsByQueryIntent(lex, query, docs, walk);
    topVectors := BuildTopFilteredVectors(lex, snippet, query, rankedDocs, 5, walk');
    IntentOrderIdempotent(lex, query, docs);
  }
}
