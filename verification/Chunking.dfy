/**
 The two chunkers: `chunkPayload` of the ingestion worker, which grows strings, and `ChunkText`
 of the upload path, which moves index windows with a word overlap.  Both are proved against
 one family of windows over the word list.
 */
module Chunking {
  import opened Sequences
  import opened Text

  /** The half-open run of words [start, end). */
  datatype Window = Window(start: nat, end: nat)

  // ----- Lengths of runs -----

  /** Bytes of words[i..j] joined by single spaces. */
  function Span(words: seq<string>, i: nat, j: nat): nat
    requires i <= j <= |words|
    decreases j - i
  {
    if i == j then 0
    else if j == i + 1 then ByteLen(words[i])
    else Span(words, i, j - 1) + 1 + ByteLen(words[j - 1])
  }

  /** words[i..j] joined by single spaces. */
  function RunText(words: seq<string>, i: nat, j: nat): string
    requires i <= j <= |words|
    decreases j - i
  {
    if i == j then ""
    else if j == i + 1 then words[i]
    else RunText(words, i, j - 1) + " " + words[j - 1]
  }

  lemma {:induction false} JoinSnoc(ws: seq<string>, w: string)
    requires ws != []
    ensures Join(ws + [w]) == Join(ws) + " " + w
  {
    assert (ws + [w])[..|ws|] == ws;
  }

  lemma JoinExtends(words: seq<string>, i: nat, j: nat)
    requires i + 1 < j <= |words|
    ensures Join(words[i..j]) == Join(words[i..j - 1]) + " " + words[j - 1]
  {
    assert words[i..j] == words[i..j - 1] + [words[j - 1]];
    JoinSnoc(words[i..j - 1], words[j - 1]);
  }

  lemma JoinShort(words: seq<string>, i: nat, j: nat)
    requires i <= j <= |words| && j <= i + 1
    ensures Join(words[i..j]) == if i == j then "" else words[i]
  {
    if i < j {
      assert words[i..j] == [words[i]];
    }
  }

  /** RunText is what strings.Join returns. */
  lemma {:induction false} RunIsJoin(words: seq<string>, i: nat, j: nat)
    requires i <= j <= |words|
    ensures RunText(words, i, j) == Join(words[i..j])
    decreases j - i
  {
    if j > i + 1 {
      RunIsJoin(words, i, j - 1);
      JoinExtends(words, i, j);
    } else {
      JoinShort(words, i, j);
    }
  }

  /** Span is the length of the run. */
  lemma {:induction false} RunLength(words: seq<string>, i: nat, j: nat)
    requires i <= j <= |words|
    ensures ByteLen(RunText(words, i, j)) == Span(words, i, j)
    decreases j - i
  {
    if j > i + 1 {
      RunLength(words, i, j - 1);
      JoinedLength(RunText(words, i, j - 1), words[j - 1]);
    }
  }

  lemma {:induction false} JoinedLength(s: string, w: string)
    ensures ByteLen(s + " " + w) == ByteLen(s) + 1 + ByteLen(w)
  {
    ByteLenConcat(s + " ", w);
    ByteLenConcat(s, " ");
    assert " "[..0] == "";
  }

  /** A run inside another run is no longer than it. */
  lemma {:induction false} SpanMonotone(words: seq<string>, i: nat, i': nat, j': nat, j: nat)
    requires i <= i' <= j' <= j <= |words| && AllWords(words)
    ensures Span(words, i', j') <= Span(words, i, j)
    ensures j' < j && i < j' ==> Span(words, i', j') < Span(words, i, j)
    decreases j - i
  {
    if j' < j && i < j - 1 {
      SpanMonotone(words, i, i', j', j - 1);
    } else if j' == j && i < i' < j - 1 {
      SpanMonotone(words, i, i', j - 1, j - 1);
    }
  }

  // ----- Greedy windows -----

  /** A run that may be a chunk: within the limit, or a single word. */
  predicate Fits(words: seq<string>, limit: int, i: nat, j: nat) {
    i < j <= |words| && (j == i + 1 || Span(words, i, j) <= limit)
  }

  function Extend(words: seq<string>, limit: int, i: nat, j: nat): (e: nat)
    requires i < j <= |words|
    ensures j <= e <= |words|
    ensures Fits(words, limit, i, j) ==> Fits(words, limit, i, e)
    ensures e < |words| ==> Span(words, i, e + 1) > limit
    decreases |words| - j
  {
    if j < |words| && Span(words, i, j + 1) <= limit then Extend(words, limit, i, j + 1) else j
  }

  /** Where the chunk that starts at word i ends. */
  function FitEnd(words: seq<string>, limit: int, i: nat): (e: nat)
    requires i < |words|
    ensures i < e <= |words| && Fits(words, limit, i, e)
    ensures e < |words| ==> !Fits(words, limit, i, e + 1)
  {
    Extend(words, limit, i, i + 1)
  }

  /** FitEnd is the furthest end that fits. */
  lemma FitEndIsMaximal(words: seq<string>, limit: int, i: nat, j: nat)
    requires AllWords(words) && Fits(words, limit, i, j)
    ensures j <= FitEnd(words, limit, i)
  {
    var e := FitEnd(words, limit, i);
    if e < j {
      SpanMonotone(words, i, i, e + 1, j);
    }
  }

  function NextStart(w: Window, overlap: int): int {
    if w.end - overlap <= w.start then w.end else w.end - overlap
  }

  predicate AllFit(words: seq<string>, limit: int, ws: seq<Window>) {
    forall k :: 0 <= k < |ws| ==> Fits(words, limit, ws[k].start, ws[k].end)
  }

  predicate InRange(words: seq<string>, ws: seq<Window>) {
    forall k :: 0 <= k < |ws| ==> ws[k].start <= ws[k].end <= |words|
  }

  /** All windows from word i on; the overlap is never negative when this is used. */
  function WindowsFrom(words: seq<string>, limit: int, overlap: nat, i: nat): (ws: seq<Window>)
    ensures AllFit(words, limit, ws)
    decreases |words| - i
  {
    if i >= |words| then []
    else
      var w := Window(i, FitEnd(words, limit, i));
      [w] + if w.end >= |words| then [] else WindowsFrom(words, limit, overlap, NextStart(w, overlap))
  }

  function Texts(words: seq<string>, ws: seq<Window>): (ts: seq<string>)
    requires InRange(words, ws)
    ensures |ts| == |ws|
    ensures forall k :: 0 <= k < |ws| ==> ts[k] == RunText(words, ws[k].start, ws[k].end)
  {
    if ws == [] then []
    else [RunText(words, ws[0].start, ws[0].end)] + Texts(words, ws[1..])
  }

  /** The chunks from word i on. */
  function TextsFrom(words: seq<string>, limit: int, overlap: nat, i: nat): seq<string>
    decreases |words| - i
  {
    if i >= |words| then []
    else
      var e := FitEnd(words, limit, i);
      [RunText(words, i, e)] +
      if e >= |words| then [] else TextsFrom(words, limit, overlap, NextStart(Window(i, e), overlap))
  }

  /** The chunks are the texts of the windows. */
  lemma {:induction false} TextsOfWindows(words: seq<string>, limit: int, overlap: nat, i: nat)
    ensures TextsFrom(words, limit, overlap, i) == Texts(words, WindowsFrom(words, limit, overlap, i))
    decreases |words| - i
  {
    if i < |words| {
      var w := Window(i, FitEnd(words, limit, i));
      var ws := WindowsFrom(words, limit, overlap, i);
      assert ws[0] == w;
      if w.end < |words| {
        TextsOfWindows(words, limit, overlap, NextStart(w, overlap));
        assert ws[1..] == WindowsFrom(words, limit, overlap, NextStart(w, overlap));
      }
    }
  }

  /** The chunks of a text for a limit that is already defaulted. */
  function Chunks(text: string, limit: int, overlap: nat): (ts: seq<string>) {
    var words := Fields(text);
    TextsFrom(words, limit, overlap, 0)
  }

  function PayloadLimit(maxChunkSize: int): int {
    if maxChunkSize <= 0 then 200 else maxChunkSize
  }

  function TextLimit(maxLen: int): int {
    if maxLen <= 0 then 900 else maxLen
  }

  function PayloadChunks(text: string, maxChunkSize: int): (ts: seq<string>) {
    Chunks(text, PayloadLimit(maxChunkSize), 0)
  }

  function TextChunks(text: string, maxLen: int, overlapWords: int): (ts: seq<string>) {
    Chunks(text, TextLimit(maxLen), if overlapWords < 0 then 0 else overlapWords)
  }

  // ----- The two algorithms -----

  /** chunkPayload: trims and splits, then grows chunks word by word. */
  method ChunkPayload(payload: string, maxChunkSize: int) returns (chunks: seq<string>)
    ensures chunks == PayloadChunks(payload, maxChunkSize)
  {
    FieldsTrimSpace(payload);
    BlankIffNoFields(payload);
    var text := TrimSpace(payload);
    if text == "" {
      return [];
    }
    var limit := maxChunkSize;
    if limit <= 0 {
      limit := 200;
    }
    var words := Fields(text);
    if |words| == 0 {
      return [];
    }
    chunks := GrowChunks(words, limit);
  }

  /** One more word: it joins `current`, or overflows it and starts a new run. */
  function GrowBy(limit: int, grown: (seq<string>, string), word: string): (seq<string>, string) {
    var (chunks, current) := grown;
    var candidate := if current != "" then current + " " + word else word;
    if ByteLen(candidate) > limit && current != "" then (chunks + [current], word) else (chunks, candidate)
  }

  /** Chunks and `current` after k words. */
  function GrowTo(words: seq<string>, limit: int, k: nat): (seq<string>, string)
    requires k <= |words|
  {
    if k == 0 then ([], "") else GrowBy(limit, GrowTo(words, limit, k - 1), words[k - 1])
  }

  /** The loop of chunkPayload: `current` grows until the next word overflows it. */
  method GrowChunks(words: seq<string>, limit: int) returns (chunks: seq<string>)
    requires AllWords(words)
    ensures chunks == TextsFrom(words, limit, 0, 0)
  {
    chunks := [];
    var current := "";
    for k := 0 to |words|
      invariant (chunks, current) == GrowTo(words, limit, k)
    {
      var word := words[k];
      var candidate := word;
      if current != "" {
        candidate := current + " " + word;
      }
      if ByteLen(candidate) > limit && current != "" {
        chunks := chunks + [current];
        current := word;
        continue;
      }
      current := candidate;
    }
    ghost var st := GrowToIsGrown(words, limit, |words|, (chunks, current));
    GrownAll(words, limit, st, (chunks, current));
    if current != "" {
      chunks := chunks + [current];
    }
  }

  /** `current` is the run from word st up to word k, which fits; it is empty only at the start. */
  ghost predicate Growing(words: seq<string>, limit: int, st: nat, k: nat, current: string) {
    if k == 0 then st == 0 && current == ""
    else Fits(words, limit, st, k) && current == RunText(words, st, k) != ""
  }

  /** Word k either extends the run, or overflows it and starts a run of its own. */
  lemma {:induction false} GrowOne(words: seq<string>, limit: int, st: nat, k: nat, current: string, candidate: string)
    requires AllWords(words) && k < |words| && Growing(words, limit, st, k, current)
    requires candidate == if current != "" then current + " " + words[k] else words[k]
    ensures if ByteLen(candidate) > limit && current != ""
            then st < k && FitEnd(words, limit, st) == k && Growing(words, limit, k, k + 1, words[k])
            else Growing(words, limit, st, k + 1, candidate)
  {
    RunLength(words, st, k + 1);
    assert IsWord(words[k]);
    assert candidate == RunText(words, st, k + 1);
    if ByteLen(candidate) > limit && current != "" {
      SpanBeyond(words, limit, st, k);
    }
  }

  /** The chunks emitted so far are the ones before word i. */
  ghost predicate Emitted(words: seq<string>, limit: int, overlap: nat, i: nat, chunks: seq<string>) {
    chunks + TextsFrom(words, limit, overlap, i) == TextsFrom(words, limit, overlap, 0)
  }

  lemma {:induction false} EmitOne(words: seq<string>, limit: int, overlap: nat, i: nat, next: nat, chunks: seq<string>)
    requires i < |words| && Emitted(words, limit, overlap, i, chunks)
    requires var e := FitEnd(words, limit, i);
             next == if e >= |words| then e else NextStart(Window(i, e), overlap)
    ensures var chunks' := chunks + [RunText(words, i, FitEnd(words, limit, i))];
            && Emitted(words, limit, overlap, next, chunks')
            && (next >= |words| ==> chunks' == TextsFrom(words, limit, overlap, 0))
  {
    var x := RunText(words, i, FitEnd(words, limit, i));
    var rest := TextsFrom(words, limit, overlap, next);
    assert TextsFrom(words, limit, overlap, i) == [x] + rest;
    Regroup(chunks, [x], rest);
    assert rest == [] ==> (chunks + [x]) + rest == chunks + [x];
  }

  /** The chunks are those before word st, and the run from that word is in `current`. */
  ghost predicate Grown(words: seq<string>, limit: int, st: nat, k: nat, grown: (seq<string>, string)) {
    Growing(words, limit, st, k, grown.1) && Emitted(words, limit, 0, st, grown.0)
  }

  lemma GrownNext(words: seq<string>, limit: int, st: nat, j: nat, k: nat, grown: (seq<string>, string),
                  grown': (seq<string>, string))
    returns (st': nat)
    requires AllWords(words) && j < |words| && k == j + 1 && Grown(words, limit, st, j, grown)
    requires grown' == GrowBy(limit, grown, words[j])
    ensures Grown(words, limit, st', k, grown')
  {
    var (chunks, current) := grown;
    var candidate := if current != "" then current + " " + words[j] else words[j];
    GrowOne(words, limit, st, j, current, candidate);
    st' := st;
    if ByteLen(candidate) > limit && current != "" {
      EmitOne(words, limit, 0, st, j, chunks);
      st' := j;
    }
  }

  lemma {:induction false} GrowToIsGrown(words: seq<string>, limit: int, k: nat, grown: (seq<string>, string))
    returns (st: nat)
    requires AllWords(words) && k <= |words| && grown == GrowTo(words, limit, k)
    ensures Grown(words, limit, st, k, grown)
    decreases k
  {
    st := 0;
    if k > 0 {
      var before := GrowTo(words, limit, k - 1);
      st := GrowToIsGrown(words, limit, k - 1, before);
      st := GrownNext(words, limit, st, k - 1, k, before, grown);
    }
  }

  lemma {:induction false} GrownAll(words: seq<string>, limit: int, st: nat, grown: (seq<string>, string))
    requires AllWords(words) && Grown(words, limit, st, |words|, grown)
    ensures TextsFrom(words, limit, 0, 0) == grown.0 + if grown.1 == "" then [] else [grown.1]
  {
    if grown.1 != "" {
      FitEndIsMaximal(words, limit, st, |words|);
      EmitOne(words, limit, 0, st, |words|, grown.0);
    }
  }

  /** A run that overflows ends the greedy chunk. */
  lemma {:induction false} SpanBeyond(words: seq<string>, limit: int, i: nat, k: nat)
    requires i < k < |words| && AllWords(words) && Span(words, i, k + 1) > limit
    requires Fits(words, limit, i, k)
    ensures FitEnd(words, limit, i) == k
  {
    FitEndIsMaximal(words, limit, i, k);
    var e := FitEnd(words, limit, i);
    if e > k {
      SpanMonotone(words, i, i, k + 1, e);
    }
  }

  /** ChunkText: trims, splits and defaults, then slides windows over the words. */
  method ChunkText(text: string, maxLen: int, overlapWords: int) returns (chunks: seq<string>)
    ensures chunks == TextChunks(text, maxLen, overlapWords)
  {
    FieldsTrimSpace(text);
    BlankIffNoFields(text);
    var trimmed := TrimSpace(text);
    if trimmed == "" {
      return [];
    }
    var limit := maxLen;
    if limit <= 0 {
      limit := 900;
    }
    var overlap := overlapWords;
    if overlap < 0 {
      overlap := 0;
    }
    var words := Fields(trimmed);
    if |words| == 0 {
      return [];
    }
    chunks := SlideWindows(words, limit, overlap);
  }

  /** The loops of ChunkText: each next window starts `overlap` words before the last end,
      or at that end when this would not move forward. */
  method SlideWindows(words: seq<string>, limit: int, overlap: nat) returns (chunks: seq<string>)
    requires AllWords(words)
    ensures chunks == TextsFrom(words, limit, overlap, 0)
  {
    chunks := [];
    var start: nat := 0;
    while start < |words|
      invariant start <= |words|
      invariant Emitted(words, limit, overlap, start, chunks)
      decreases |words| - start
    {
      var end := GrowWindow(words, limit, start);
      if end <= start {
        end := start + 1;
      }
      RunIsJoin(words, start, end);
      var chunk := Join(words[start..end]);
      if end >= |words| {
        EmitOne(words, limit, overlap, start, end, chunks);
        chunks := chunks + [chunk];
        break;
      }
      var nextStart := end - overlap;
      if nextStart <= start {
        nextStart := end;
      }
      EmitOne(words, limit, overlap, start, nextStart, chunks);
      chunks := chunks + [chunk];
      start := nextStart;
    }
  }

  /** The inner loop of ChunkText. */
  method GrowWindow(words: seq<string>, maxLen: int, start: nat) returns (end: nat)
    requires start < |words| && AllWords(words)
    ensures end == FitEnd(words, maxLen, start)
  {
    end := start;
    var currentLen := 0;
    while end < |words|
      invariant start <= end <= |words|
      invariant currentLen == Span(words, start, end)
      invariant end > start ==> Fits(words, maxLen, start, end)
    {
      var wordLen := ByteLen(words[end]);
      var candidateLen := currentLen + wordLen;
      if end > start {
        candidateLen := candidateLen + 1;
      }
      if candidateLen > maxLen && end > start {
        SpanBeyond(words, maxLen, start, end);
        return;
      }
      currentLen := candidateLen;
      end := end + 1;
      if currentLen >= maxLen {
        if end < |words| {
          SpanMonotone(words, start, start, end, end + 1);
          SpanBeyond(words, maxLen, start, end);
        } else {
          FitEndIsMaximal(words, maxLen, start, end);
        }
        return;
      }
    }
    FitEndIsMaximal(words, maxLen, start, end);
  }

  // ----- The chunkers agree -----

  /** For every text and positive limit, growing strings and sliding windows end with the same chunks. */
  method ChunkBothWays(text: string, n: int) returns (grown: seq<string>, slid: seq<string>)
    requires n > 0
    ensures grown == slid
  {
    grown := ChunkPayload(text, n);
    slid := ChunkText(text, n, 0);
  }

  lemma {:induction false} AsciiByteLen(s: string)
    requires forall i :: 0 <= i < |s| ==> s[i] == 'a'
    ensures ByteLen(s) == |s|
  {
    if s != [] {
      AsciiByteLen(s[..|s| - 1]);
    }
  }

  /** Two 100-byte words: 201 bytes joined, between the two defaults. */
  function TwoLongWords(): string {
    Repeat('a', 100) + " " + Repeat('a', 100)
  }

  lemma DefaultsSplitDifferently()
    ensures |Chunks(TwoLongWords(), 200, 0)| == 2 && |Chunks(TwoLongWords(), 900, 0)| == 1
  {
    var w := Repeat('a', 100);
    var words := [w, w];
    assert IsWord(w);
    assert words[..1] == [w];
    assert Join([w]) == w && Join(words) == TwoLongWords();
    FieldsOfJoin(words);
    AsciiByteLen(w);
    assert Span(words, 0, 2) == Span(words, 0, 1) + 1 + ByteLen(words[1]) == 201;
    assert FitEnd(words, 200, 0) == 1 by { SpanBeyond(words, 200, 0, 1); }
    assert FitEnd(words, 900, 0) == 2 by { FitEndIsMaximal(words, 900, 0, 2); }
    assert FitEnd(words, 200, 1) == 2;
    assert NextStart(Window(0, 1), 0) == 1;
    assert WindowsFrom(words, 200, 0, 1) == [Window(1, 2)];
    assert WindowsFrom(words, 200, 0, 0) == [Window(0, 1)] + [Window(1, 2)];
    assert WindowsFrom(words, 900, 0, 0) == [Window(0, 2)];
  }

  /** They agree on all texts exactly for positive limits: the defaults 200 and 900 differ. */
  lemma ChunkersAgreeIff(n: int)
    ensures (forall text :: PayloadChunks(text, n) == TextChunks(text, n, 0)) <==> n > 0
  {
    if n <= 0 {
      DefaultsSplitDifferently();
      assert PayloadChunks(TwoLongWords(), n) != TextChunks(TwoLongWords(), n, 0);
    }
  }

  // ----- Overlapped windows -----

  /** Each window fits, and unless it reaches the end it cannot take the next word. */
  ghost predicate Maximal(words: seq<string>, limit: int, ws: seq<Window>) {
    forall k :: 0 <= k < |ws| ==>
      && Fits(words, limit, ws[k].start, ws[k].end)
      && (ws[k].end < |words| ==> !Fits(words, limit, ws[k].start, ws[k].end + 1))
  }

  /** Starts strictly increase and ends never go back; the two windows share exactly `overlap` words when the
      first has more than that, and none otherwise. */
  ghost predicate Follows(overlap: nat, w: Window, w': Window) {
    && w.start < w'.start <= w.end <= w'.end
    && w.end - w'.start == if w.end - w.start > overlap then overlap else 0
  }

  ghost predicate Chained(overlap: nat, ws: seq<Window>) {
    forall k :: 1 <= k < |ws| ==> Follows(overlap, ws[k - 1], ws[k])
  }

  /** A window that adds no new word is followed by one that starts at its end. */
  ghost predicate StallsOnce(ws: seq<Window>) {
    forall k :: 2 <= k < |ws| && ws[k - 1].end == ws[k - 2].end ==> ws[k].start == ws[k - 1].end
  }

  lemma {:induction false} WindowsAreMaximal(words: seq<string>, limit: int, overlap: nat, i: nat)
    ensures Maximal(words, limit, WindowsFrom(words, limit, overlap, i))
    decreases |words| - i
  {
    if i < |words| {
      var w := Window(i, FitEnd(words, limit, i));
      if w.end < |words| {
        WindowsAreMaximal(words, limit, overlap, NextStart(w, overlap));
      }
    }
  }

  /** What holds of all windows from word i on. */
  ghost predicate ChainFrom(words: seq<string>, limit: int, overlap: nat, i: nat, ws: seq<Window>)
    requires i < |words|
  {
    && ws != [] && ws[0] == Window(i, FitEnd(words, limit, i)) && ws[|ws| - 1].end == |words|
    && OnlyLastReaches(words, ws) && Chained(overlap, ws) && StallsOnce(ws)
  }

  /** The first window that reaches the end is the last one. */
  ghost predicate OnlyLastReaches(words: seq<string>, ws: seq<Window>) {
    forall k :: 0 <= k < |ws| - 1 ==> ws[k].end < |words|
  }

  lemma {:induction false} WindowsAreChained(words: seq<string>, limit: int, overlap: nat, i: nat)
    requires AllWords(words) && i < |words|
    ensures ChainFrom(words, limit, overlap, i, WindowsFrom(words, limit, overlap, i))
    decreases |words| - i
  {
    var w := Window(i, FitEnd(words, limit, i));
    if w.end < |words| {
      var next: nat := NextStart(w, overlap);
      WindowsAreChained(words, limit, overlap, next);
      ChainGrows(words, limit, overlap, w, next, WindowsFrom(words, limit, overlap, next));
    }
  }

  lemma ChainGrows(words: seq<string>, limit: int, overlap: nat, w: Window, next: nat, rest: seq<Window>)
    requires AllWords(words) && w.start < |words| && w.end == FitEnd(words, limit, w.start) < |words|
    requires next == NextStart(w, overlap) && ChainFrom(words, limit, overlap, next, rest)
    ensures ChainFrom(words, limit, overlap, w.start, [w] + rest)
  {
    EndsDoNotGoBack(words, limit, w, next);
    ChainOnto(overlap, w, rest);
  }

  lemma ChainOnto(overlap: nat, w: Window, rest: seq<Window>)
    requires rest != [] && Chained(overlap, rest) && StallsOnce(rest)
    requires w.start < w.end <= rest[0].end && rest[0].start == NextStart(w, overlap)
    requires rest[0].start < rest[0].end
    ensures Chained(overlap, [w] + rest) && StallsOnce([w] + rest)
  {
    var all := [w] + rest;
    forall k | 1 <= k < |all|
      ensures Follows(overlap, all[k - 1], all[k])
    {
      if k > 1 {
        assert Follows(overlap, rest[k - 2], rest[k - 1]);
      }
    }
    forall k | 2 <= k < |all| && all[k - 1].end == all[k - 2].end
      ensures all[k].start == all[k - 1].end
    {
      if k > 2 {
        assert rest[k - 2].end == rest[k - 3].end;
      } else {
        assert Follows(overlap, rest[0], rest[1]);
      }
    }
  }

  /** Windows from word i on that fit, cannot take their next word, and follow each other up to the end. */
  ghost predicate ChainedToEnd(words: seq<string>, limit: int, overlap: nat, i: nat, ws: seq<Window>) {
    && ws != [] && ws[0].start == i && ws[|ws| - 1].end == |words|
    && Maximal(words, limit, ws) && Chained(overlap, ws) && OnlyLastReaches(words, ws)
  }

  lemma ChainedTail(words: seq<string>, limit: int, overlap: nat, i: nat, ws: seq<Window>)
    requires ChainedToEnd(words, limit, overlap, i, ws) && |ws| > 1
    ensures ChainedToEnd(words, limit, overlap, ws[1].start, ws[1..])
    ensures ws[0].end < |words| && ws[1].start == NextStart(ws[0], overlap)
  {
    assert Follows(overlap, ws[0], ws[1]);
    forall k | 1 <= k < |ws[1..]|
      ensures Follows(overlap, ws[1..][k - 1], ws[1..][k])
    {
      assert Follows(overlap, ws[k], ws[k + 1]);
    }
  }

  /** Nothing else has these properties: such windows are the ones the code makes. */
  lemma {:induction false} ChainedWindowsAreUnique(words: seq<string>, limit: int, overlap: nat, i: nat,
                                                   ws: seq<Window>)
    requires AllWords(words) && ChainedToEnd(words, limit, overlap, i, ws)
    ensures ws == WindowsFrom(words, limit, overlap, i)
    decreases |ws|
  {
    var e, rest := ws[0].end, ws[1..];
    MaximalTail(words, limit, ws);
    OnlyEnd(words, limit, i, e);
    assert ws == [Window(i, e)] + rest;
    if |ws| > 1 {
      ChainedTail(words, limit, overlap, i, ws);
      ChainedWindowsAreUnique(words, limit, overlap, rest[0].start, rest);
    }
  }

  /** And they have them. */
  lemma {:induction false} WindowsAreChainedToEnd(words: seq<string>, limit: int, overlap: nat, i: nat)
    requires AllWords(words) && i < |words|
    ensures ChainedToEnd(words, limit, overlap, i, WindowsFrom(words, limit, overlap, i))
  {
    WindowsAreMaximal(words, limit, overlap, i);
    WindowsAreChained(words, limit, overlap, i);
  }

  /** Starting later never ends earlier. */
  lemma EndsDoNotGoBack(words: seq<string>, limit: int, w: Window, next: nat)
    requires AllWords(words) && Fits(words, limit, w.start, w.end)
    requires w.start < next <= w.end < |words|
    ensures w.end <= FitEnd(words, limit, next)
  {
    if next < w.end {
      SpanMonotone(words, w.start, next, w.end, w.end);
      FitEndIsMaximal(words, limit, next, w.end);
    }
  }

  /** The words a list of windows covers once each window drops what came before `from`. */
  function Rebuild(words: seq<string>, ws: seq<Window>, from: nat): seq<string>
    requires InRange(words, ws)
  {
    if ws == [] then []
    else
      var lo := if from > ws[0].start then from else ws[0].start;
      (if lo <= ws[0].end then words[lo..ws[0].end] else []) + Rebuild(words, ws[1..], ws[0].end)
  }

  lemma {:induction false} RebuildCons(words: seq<string>, w: Window, rest: seq<Window>, from: nat)
    requires InRange(words, [w] + rest) && InRange(words, rest) && w.start <= from <= w.end <= |words|
    ensures Rebuild(words, [w] + rest, from) == words[from..w.end] + Rebuild(words, rest, w.end)
  {
    assert ([w] + rest)[1..] == rest;
  }

  lemma {:induction false} RebuildFrom(words: seq<string>, limit: int, overlap: nat, i: nat, from: nat)
    requires AllWords(words) && i < |words| && i <= from <= FitEnd(words, limit, i)
    ensures Rebuild(words, WindowsFrom(words, limit, overlap, i), from) == words[from..]
    decreases |words| - i
  {
    var w := Window(i, FitEnd(words, limit, i));
    if w.end < |words| {
      var next: nat := NextStart(w, overlap);
      EndsDoNotGoBack(words, limit, w, next);
      RebuildFrom(words, limit, overlap, next, w.end);
      RebuildCons(words, w, WindowsFrom(words, limit, overlap, next), from);
      CutsMeet(words, from, w.end);
    } else {
      RebuildCons(words, w, [], from);
      CutsMeet(words, from, w.end);
    }
  }

  lemma CutsMeet(words: seq<string>, i: nat, j: nat)
    requires i <= j <= |words|
    ensures words[i..j] + words[j..] == words[i..]
  {
  }

  /** Dropping the shared words rebuilds the input exactly, for every limit and overlap. */
  lemma {:induction false} WindowsRebuildInput(words: seq<string>, limit: int, overlap: nat)
    requires AllWords(words)
    ensures Rebuild(words, WindowsFrom(words, limit, overlap, 0), 0) == words
  {
    if words != [] {
      RebuildFrom(words, limit, overlap, 0, 0);
      assert words[0..] == words;
    }
  }

  // ----- Greedy is optimal without overlap -----

  /** Consecutive runs from word i to the end of the list, each of which may be a chunk. */
  ghost predicate IsSplit(words: seq<string>, limit: int, i: nat, ws: seq<Window>)
    decreases |ws|
  {
    if ws == [] then i == |words|
    else ws[0].start == i && Fits(words, limit, i, ws[0].end) && IsSplit(words, limit, ws[0].end, ws[1..])
  }

  lemma {:induction false} GreedyStaysAhead(words: seq<string>, limit: int, i: nat, j: nat, other: seq<Window>)
    requires AllWords(words) && i <= j <= |words| && IsSplit(words, limit, i, other)
    ensures |WindowsFrom(words, limit, 0, j)| <= |other|
    decreases |words| - j, |other|
  {
    if j < |words| {
      var e, e' := FitEnd(words, limit, j), other[0].end;
      if e' > j {
        SpanMonotone(words, i, j, e', e');
        FitEndIsMaximal(words, limit, j, e');
      }
      assert NextStart(Window(j, e), 0) == e;
      if e < |words| {
        GreedyStaysAhead(words, limit, e', e, other[1..]);
      }
    }
  }

  lemma {:induction false} GreedyIsSplit(words: seq<string>, limit: int, i: nat)
    requires i <= |words|
    ensures IsSplit(words, limit, i, WindowsFrom(words, limit, 0, i))
    decreases |words| - i
  {
    if i < |words| {
      var e := FitEnd(words, limit, i);
      GreedyIsSplit(words, limit, e);
      assert WindowsFrom(words, limit, 0, i)[1..] == WindowsFrom(words, limit, 0, e);
    }
  }

  /** No split of the words into runs that fit uses fewer chunks than chunkPayload. */
  lemma {:induction false} PayloadChunksAreFewest(text: string, maxChunkSize: int, other: seq<Window>)
    requires IsSplit(Fields(text), PayloadLimit(maxChunkSize), 0, other)
    ensures IsSplit(Fields(text), PayloadLimit(maxChunkSize), 0,
                WindowsFrom(Fields(text), PayloadLimit(maxChunkSize), 0, 0))
    ensures |PayloadChunks(text, maxChunkSize)| <= |other|
  {
    TextsOfWindows(Fields(text), PayloadLimit(maxChunkSize), 0, 0);
    GreedyIsSplit(Fields(text), PayloadLimit(maxChunkSize), 0);
    GreedyStaysAhead(Fields(text), PayloadLimit(maxChunkSize), 0, 0, other);
  }

  lemma MaximalTail(words: seq<string>, limit: int, ws: seq<Window>)
    requires ws != [] && Maximal(words, limit, ws)
    ensures Maximal(words, limit, ws[1..]) && Fits(words, limit, ws[0].start, ws[0].end)
    ensures ws[0].end < |words| ==> !Fits(words, limit, ws[0].start, ws[0].end + 1)
  {
  }

  lemma OnlyEnd(words: seq<string>, limit: int, i: nat, e: nat)
    requires AllWords(words) && Fits(words, limit, i, e) && (e < |words| ==> !Fits(words, limit, i, e + 1))
    ensures e == FitEnd(words, limit, i)
  {
    FitEndIsMaximal(words, limit, i, e);
    if e < FitEnd(words, limit, i) {
      SpanMonotone(words, i, i, e + 1, FitEnd(words, limit, i));
    }
  }

  lemma {:induction false} WindowsCons(words: seq<string>, limit: int, i: nat)
    requires i < |words|
    ensures var e := FitEnd(words, limit, i);
            WindowsFrom(words, limit, 0, i) == [Window(i, e)] + WindowsFrom(words, limit, 0, e)
  {
  }

  /** The split where no chunk can take the next word is unique, so those two facts fix the output. */
  lemma {:induction false} MaximalSplitIsGreedy(words: seq<string>, limit: int, i: nat, ws: seq<Window>)
    requires AllWords(words) && IsSplit(words, limit, i, ws) && Maximal(words, limit, ws)
    ensures ws == WindowsFrom(words, limit, 0, i)
    decreases |ws|
  {
    if ws != [] {
      var e, rest := ws[0].end, ws[1..];
      MaximalTail(words, limit, ws);
      OnlyEnd(words, limit, i, e);
      MaximalSplitIsGreedy(words, limit, e, rest);
      WindowsCons(words, limit, i);
      assert ws == [Window(i, e)] + rest;
    }
  }

  // ----- What the chunks look like as strings -----

  /** Chunk k of ChunkText is the text of window k: within the limit unless it is one word,
      never blank, unchanged by trimming, and made of exactly the window's words. */
  lemma {:induction false} ChunkShape(text: string, limit: int, overlap: nat, k: nat)
    requires k < |Chunks(text, limit, overlap)|
    ensures var c := Chunks(text, limit, overlap)[k];
            var ws := WindowsFrom(Fields(text), limit, overlap, 0);
            && c != "" && TrimSpace(c) == c
            && |Chunks(text, limit, overlap)| == |ws|
            && ws[k].start < ws[k].end <= |Fields(text)|
            && Fields(c) == Fields(text)[ws[k].start..ws[k].end]
            && (ByteLen(c) <= limit || |Fields(c)| == 1)
  {
    var words := Fields(text);
    TextsOfWindows(words, limit, overlap, 0);
    var w := WindowsFrom(words, limit, overlap, 0)[k];
    var run := words[w.start..w.end];
    assert Fits(words, limit, w.start, w.end);
    assert AllWords(run);
    JoinIsTrimmed(run);
    FieldsOfJoin(run);
    RunIsJoin(words, w.start, w.end);
    RunLength(words, w.start, w.end);
  }

  /** A run may be a chunk exactly when it is one word or its words, joined, are at most `limit` bytes. */
  lemma {:induction false} FitsMeaning(words: seq<string>, limit: int, i: nat, j: nat)
    ensures Fits(words, limit, i, j) <==>
            i < j <= |words| && (j == i + 1 || ByteLen(Join(words[i..j])) <= limit)
  {
    if i <= j <= |words| {
      RunLength(words, i, j);
      RunIsJoin(words, i, j);
    }
  }

  /** A chunk that does not reach the end of the text is full: with the next word it is over the limit. */
  lemma {:induction false} ChunksAreFull(text: string, limit: int, overlap: nat, k: nat)
    requires k < |WindowsFrom(Fields(text), limit, overlap, 0)|
    ensures var e := WindowsFrom(Fields(text), limit, overlap, 0)[k].end;
            && k < |Chunks(text, limit, overlap)|
            && (e < |Fields(text)| ==> ByteLen(Chunks(text, limit, overlap)[k] + " " + Fields(text)[e]) > limit)
  {
    var words := Fields(text);
    var w := WindowsFrom(words, limit, overlap, 0)[k];
    TextsOfWindows(words, limit, overlap, 0);
    WindowsAreMaximal(words, limit, overlap, 0);
    assert Fits(words, limit, w.start, w.end);
    if w.end < |words| {
      assert !Fits(words, limit, w.start, w.end + 1);
      RunLength(words, w.start, w.end + 1);
      assert RunText(words, w.start, w.end + 1) == RunText(words, w.start, w.end) + " " + words[w.end];
    }
  }

  /** The end of one run is the start of the next. */
  lemma RunsOverlap(words: seq<string>, w: Window, w': Window, overlap: nat)
    requires w.start <= w.end <= w'.end <= |words| && overlap <= w.end - w.start && w'.start == w.end - overlap
    ensures var a, b := words[w.start..w.end], words[w'.start..w'.end]; a[|a| - overlap..] == b[..overlap]
  {
  }

  /** Neighbouring chunks as strings: when chunk k has more than `overlap` words, its last `overlap` words are
      the first ones of chunk k+1. */
  lemma {:induction false} ChunksOverlap(text: string, limit: int, overlap: nat, k: nat)
    requires k + 1 < |Chunks(text, limit, overlap)|
    ensures var a, b := Fields(Chunks(text, limit, overlap)[k]), Fields(Chunks(text, limit, overlap)[k + 1]);
            |a| > overlap ==> |b| >= overlap && a[|a| - overlap..] == b[..overlap]
  {
    var words := Fields(text);
    var ws := WindowsFrom(words, limit, overlap, 0);
    TextsOfWindows(words, limit, overlap, 0);
    ChunkWords(text, limit, overlap, k);
    ChunkWords(text, limit, overlap, k + 1);
    assert Follows(overlap, ws[k], ws[k + 1]) by {
      WindowsAreChained(words, limit, overlap, 0);
    }
    if ws[k].end - ws[k].start > overlap {
      RunsOverlap(words, ws[k], ws[k + 1], overlap);
    }
  }

  lemma {:induction false} ChunkWords(text: string, limit: int, overlap: nat, k: nat)
    requires k < |WindowsFrom(Fields(text), limit, overlap, 0)|
    ensures var w := WindowsFrom(Fields(text), limit, overlap, 0)[k];
            && w.start < w.end <= |Fields(text)| && k < |Chunks(text, limit, overlap)|
            && Fields(Chunks(text, limit, overlap)[k]) == Fields(text)[w.start..w.end]
  {
    TextsOfWindows(Fields(text), limit, overlap, 0);
    ChunkShape(text, limit, overlap, k);
  }

  /** The limits that stand for a missing one, and an overlap below zero. */
  lemma DefaultsMean(text: string, n: int, overlap: int)
    ensures n <= 0 ==> PayloadChunks(text, n) == Chunks(text, 200, 0)
    ensures n > 0 ==> PayloadChunks(text, n) == Chunks(text, n, 0)
    ensures TextChunks(text, n, overlap) ==
            Chunks(text, if n <= 0 then 900 else n, if overlap < 0 then 0 else overlap)
  {
  }

  /** Nothing comes out exactly when the text is blank. */
  lemma NoChunksIffBlank(text: string, limit: int, overlap: nat)
    ensures Chunks(text, limit, overlap) == [] <==> TrimSpace(text) == ""
  {
    BlankIffNoFields(text);
    assert Fields(text) != [] ==> WindowsFrom(Fields(text), limit, overlap, 0) != [];
  }
}
