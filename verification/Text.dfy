/**
 Text as the Go code sees it: a string is a sequence of Unicode scalar values, `len` counts
 UTF-8 bytes, and `strings.TrimSpace`, `strings.Fields` and `strings.Join` work on
 `unicode.IsSpace`.
 */
module Text {
  import opened Sequences

  /** Go's unicode.IsSpace. */
  predicate IsSpace(c: char) {
    var n := c as int;
    || 0x09 <= n <= 0x0D || n == 0x20 || n == 0x85 || n == 0xA0
    || n == 0x1680 || 0x2000 <= n <= 0x200A || n == 0x2028 || n == 0x2029
    || n == 0x202F || n == 0x205F || n == 0x3000
  }

  /** How many scalar values n bytes of UTF-8 can tell apart: 7 bits in one byte, 5n+1 bits in n. */
  function Utf8Capacity(n: nat): nat {
    if n <= 1 then 0x80 else if n == 2 then 0x800 else 32 * Utf8Capacity(n - 1)
  }

  /** Bytes that one scalar value takes in UTF-8: the fewest that hold it. */
  function Utf8Width(c: char): (n: nat)
    ensures 1 <= n <= 4 && c as int < Utf8Capacity(n) && (n > 1 ==> c as int >= Utf8Capacity(n - 1))
  {
    var v := c as int;
    if v < 0x80 then 1 else if v < 0x800 then 2 else if v < 0x1_0000 then 3 else 4
  }

  /** Go's len on a string. */
  function ByteLen(s: string): nat {
    if s == [] then 0 else ByteLen(s[..|s| - 1]) + Utf8Width(s[|s| - 1])
  }

  lemma {:induction false} ByteLenConcat(s: string, t: string)
    ensures ByteLen(s + t) == ByteLen(s) + ByteLen(t)
  {
    if t == [] {
      assert s + t == s;
    } else {
      var t' := t[..|t| - 1];
      assert (s + t)[..|s + t| - 1] == s + t';
      ByteLenConcat(s, t');
    }
  }

  lemma {:induction false} ByteLenOne(c: char)
    ensures ByteLen([c]) == Utf8Width(c)
  {
    assert [c][..0] == [] && ByteLen([c][..0]) == 0;
  }

  predicate SpaceFree(s: string) {
    forall i :: 0 <= i < |s| ==> !IsSpace(s[i])
  }

  /** What strings.Fields yields: nonempty and free of white space. */
  predicate IsWord(w: string) {
    w != [] && SpaceFree(w)
  }

  predicate AllWords(ws: seq<string>) {
    forall i :: 0 <= i < |ws| ==> IsWord(ws[i])
  }

  function TrimLeft(s: string): string {
    if s != [] && IsSpace(s[0]) then TrimLeft(s[1..]) else s
  }

  function TrimRight(s: string): string {
    if s != [] && IsSpace(s[|s| - 1]) then TrimRight(s[..|s| - 1]) else s
  }

  function TrimSpace(s: string): string {
    TrimRight(TrimLeft(s))
  }

  /** Length of the leading run without white space. */
  function WordEnd(s: string): (n: nat)
    ensures n <= |s| && SpaceFree(s[..n])
    ensures n < |s| ==> IsSpace(s[n])
    ensures s != [] && !IsSpace(s[0]) ==> 0 < n
  {
    if s == [] || IsSpace(s[0]) then 0
    else
      var m := WordEnd(s[1..]);
      assert s[..m + 1] == [s[0]] + s[1..][..m];
      m + 1
  }

  function Fields(s: string): (ws: seq<string>)
    ensures AllWords(ws)
    decreases |s|
  {
    if s == [] then []
    else if IsSpace(s[0]) then Fields(s[1..])
    else var n := WordEnd(s); [s[..n]] + Fields(s[n..])
  }

  /** strings.Join(ws, " "). */
  function Join(ws: seq<string>): string {
    if ws == [] then ""
    else if |ws| == 1 then ws[0]
    else Join(ws[..|ws| - 1]) + " " + ws[|ws| - 1]
  }

  lemma {:induction false} WordEndOfWord(w: string, rest: string)
    requires SpaceFree(w) && (rest == [] || IsSpace(rest[0]))
    ensures WordEnd(w + rest) == |w|
  {
    if w == [] {
      assert w + rest == rest;
    } else {
      assert (w + rest)[1..] == w[1..] + rest;
      WordEndOfWord(w[1..], rest);
    }
  }

  /** A leading word followed by a space is the first field. */
  lemma {:induction false} FieldsOfWord(w: string, rest: string)
    requires IsWord(w) && (rest == [] || IsSpace(rest[0]))
    ensures Fields(w + rest) == [w] + Fields(rest)
  {
    WordEndOfWord(w, rest);
    assert (w + rest)[0] == w[0];
    assert (w + rest)[..|w|] == w && (w + rest)[|w|..] == rest;
  }

  /** Fields distributes over a split at a white-space character. */
  lemma {:induction false} FieldsSplit(s: string, t: string)
    requires t == [] || IsSpace(t[0])
    ensures Fields(s + t) == Fields(s) + Fields(t)
    decreases |s|
  {
    if s == [] {
      assert s + t == t;
    } else if IsSpace(s[0]) {
      assert (s + t)[1..] == s[1..] + t;
      FieldsSplit(s[1..], t);
    } else {
      var n := WordEnd(s);
      var w, r := s[..n], s[n..] + t;
      assert s + t == w + r;
      FieldsOfWord(w, r);
      FieldsSplit(s[n..], t);
      Regroup([w], Fields(s[n..]), Fields(t));
    }
  }

  lemma {:induction false} FieldsTrimLeft(s: string)
    ensures Fields(TrimLeft(s)) == Fields(s)
  {
    if s != [] && IsSpace(s[0]) {
      FieldsTrimLeft(s[1..]);
    }
  }

  lemma {:induction false} FieldsTrimRight(s: string)
    ensures Fields(TrimRight(s)) == Fields(s)
    decreases |s|
  {
    if s != [] && IsSpace(s[|s| - 1]) {
      var t := s[|s| - 1..];
      assert s == s[..|s| - 1] + t;
      FieldsSplit(s[..|s| - 1], t);
      assert t[1..] == [];
      assert Fields(t) == Fields(t[1..]) == [];
      FieldsTrimRight(s[..|s| - 1]);
    }
  }

  /** Trimming first, as both chunkers do, never changes the fields. */
  lemma {:induction false} FieldsTrimSpace(s: string)
    ensures Fields(TrimSpace(s)) == Fields(s)
  {
    FieldsTrimLeft(s);
    FieldsTrimRight(TrimLeft(s));
  }

  lemma {:induction false} TrimLeftStarts(s: string)
    ensures TrimLeft(s) != [] ==> !IsSpace(TrimLeft(s)[0])
  {
    if s != [] && IsSpace(s[0]) {
      TrimLeftStarts(s[1..]);
    }
  }

  lemma {:induction false} TrimRightPrefix(s: string)
    ensures TrimRight(s) <= s
    ensures s != [] && !IsSpace(s[0]) ==> TrimRight(s) != []
  {
    if s != [] && IsSpace(s[|s| - 1]) {
      TrimRightPrefix(s[..|s| - 1]);
    }
  }

  predicate AllSpaces(s: string) {
    forall i :: 0 <= i < |s| ==> IsSpace(s[i])
  }

  lemma {:induction false} TrimLeftSplits(s: string) returns (pre: string)
    ensures s == pre + TrimLeft(s) && AllSpaces(pre)
  {
    pre := "";
    if s != [] && IsSpace(s[0]) {
      var rest := TrimLeftSplits(s[1..]);
      pre := [s[0]] + rest;
      assert s == [s[0]] + s[1..];
    }
  }

  lemma {:induction false} TrimRightSplits(s: string) returns (post: string)
    ensures s == TrimRight(s) + post && AllSpaces(post)
    ensures TrimRight(s) != [] ==> !IsSpace(TrimRight(s)[|TrimRight(s)| - 1])
  {
    post := "";
    if s != [] && IsSpace(s[|s| - 1]) {
      var rest := TrimRightSplits(s[..|s| - 1]);
      post := rest + [s[|s| - 1]];
      assert s == s[..|s| - 1] + [s[|s| - 1]];
    }
  }

  /** Trimming takes away white space at both ends, all of it, and nothing else. */
  lemma {:induction false} TrimSpaceMeaning(s: string) returns (pre: string, post: string)
    ensures s == pre + TrimSpace(s) + post && AllSpaces(pre) && AllSpaces(post)
    ensures var t := TrimSpace(s); t != "" ==> !IsSpace(t[0]) && !IsSpace(t[|t| - 1])
  {
    pre := TrimLeftSplits(s);
    post := TrimRightSplits(TrimLeft(s));
    TrimLeftStarts(s);
    assert s == pre + (TrimSpace(s) + post);
  }

  /** A text is blank exactly when it has no field. */
  lemma {:induction false} BlankIffNoFields(s: string)
    ensures TrimSpace(s) == "" <==> Fields(s) == []
  {
    FieldsTrimSpace(s);
    var t := TrimSpace(s);
    TrimLeftStarts(s);
    TrimRightPrefix(TrimLeft(s));
    if t != "" {
      assert t[0] == TrimLeft(s)[0];
      assert Fields(t) == [t[..WordEnd(t)]] + Fields(t[WordEnd(t)..]);
    }
  }

  /** Joined words keep a word at both ends. */
  lemma {:induction false} JoinEnds(ws: seq<string>)
    requires ws != [] && AllWords(ws)
    ensures var s := Join(ws); s != [] && !IsSpace(s[0]) && !IsSpace(s[|s| - 1])
  {
    if |ws| > 1 {
      JoinEnds(ws[..|ws| - 1]);
    }
  }

  /** A chunk made of words is not blank, and trimming leaves it as it is. */
  lemma {:induction false} JoinIsTrimmed(ws: seq<string>)
    requires ws != [] && AllWords(ws)
    ensures Join(ws) != "" && TrimSpace(Join(ws)) == Join(ws)
  {
    JoinEnds(ws);
  }

  /** Splitting joined words gives the words back. */
  lemma {:induction false} FieldsOfJoin(ws: seq<string>)
    requires AllWords(ws)
    ensures Fields(Join(ws)) == ws
  {
    if |ws| == 1 {
      FieldsOfWord(ws[0], "");
      assert ws[0] + "" == ws[0];
    } else if |ws| > 1 {
      var front, w := ws[..|ws| - 1], ws[|ws| - 1];
      FieldsOfJoin(front);
      var tail := " " + w;
      assert Join(ws) == Join(front) + tail;
      FieldsSplit(Join(front), tail);
      assert tail[1..] == w;
      FieldsOfWord(w, "");
      assert w + "" == w;
    }
  }
}
