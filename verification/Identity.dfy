/**
 The identifiers the ingestion code derives: `hashParts` over "|"-joined parts, and the
 `vec-<job>-<key>-<chunk>` record ids of the upload path.  SHA-256 is taken to be injective, so
 the digest is represented by the joined text itself.
 */
module Identity {

  /** Decimal printing of a non-negative int, as strconv.Itoa and "%d" do. */
  function Itoa(n: nat): (s: string)
    ensures s != "" && Digits(s)
  {
    if n < 10 then [Digit(n)] else Itoa(n / 10) + [Digit(n % 10)]
  }

  function Digit(d: nat): (c: char)
    requires d < 10
    ensures '0' <= c <= '9' && c as int - '0' as int == d
  {
    '0' + d as char
  }

  predicate Digits(s: string) {
    forall i :: 0 <= i < |s| ==> '0' <= s[i] <= '9'
  }

  /** Reads decimal digits back. */
  function Atoi(s: string): nat
    requires Digits(s)
  {
    if s == "" then 0 else 10 * Atoi(s[..|s| - 1]) + (s[|s| - 1] as int - '0' as int)
  }

  lemma {:induction false} AtoiItoa(n: nat)
    ensures Atoi(Itoa(n)) == n
  {
    if n < 10 {
      assert Itoa(n)[..0] == "";
    } else {
      AtoiItoa(n / 10);
      assert Itoa(n)[..|Itoa(n)| - 1] == Itoa(n / 10);
    }
  }

  lemma {:induction false} ItoaInjective(a: nat, b: nat)
    requires Itoa(a) == Itoa(b)
    ensures a == b
  {
    AtoiItoa(a);
    AtoiItoa(b);
  }

  /** How often a character occurs. */
  function Count(s: string, c: char): nat {
    if s == "" then 0 else Count(s[..|s| - 1], c) + if s[|s| - 1] == c then 1 else 0
  }

  lemma {:induction false} CountConcat(s: string, t: string, c: char)
    ensures Count(s + t, c) == Count(s, c) + Count(t, c)
  {
    if t == "" {
      assert s + t == s;
    } else {
      assert (s + t)[..|s + t| - 1] == s + t[..|t| - 1];
      CountConcat(s, t[..|t| - 1], c);
    }
  }

  lemma {:induction false} CountZero(s: string, c: char)
    ensures Count(s, c) == 0 <==> c !in s
  {
    if s != "" {
      CountZero(s[..|s| - 1], c);
      assert s == s[..|s| - 1] + [s[|s| - 1]];
    }
  }

  /** The last separator is unambiguous when what follows it holds none. */
  lemma LastSeparator(a: string, b: string, a': string, b': string, sep: char)
    requires a + [sep] + b == a' + [sep] + b'
    requires sep !in b && sep !in b'
    ensures a == a' && b == b'
  {
    LastAt(a, b, sep);
    LastAt(a', b', sep);
    var s, s' := a + [sep] + b, a' + [sep] + b';
    assert s[|a'|] == sep && s[|a|] == sep;
    assert s[..|a|] == a && s'[..|a'|] == a';
    assert s[|a| + 1..] == b && s'[|a'| + 1..] == b';
  }

  lemma LastAt(a: string, b: string, sep: char)
    requires sep !in b
    ensures var s := a + [sep] + b; s[|a|] == sep && forall k :: |a| < k < |s| ==> s[k] != sep
  {
    var s := a + [sep] + b;
    forall k | |a| < k < |s|
      ensures s[k] != sep
    {
      assert s[k] == b[k - |a| - 1];
    }
  }

  lemma NotADigit(s: string, sep: char)
    requires Digits(s) && (sep == '-' || sep == '|')
    ensures sep !in s
  {
  }

  // ----- vec-<job>-<key>-<chunk> -----

  function UploadRecordId(jobId: string, keyIndex: nat, chunkIndex: nat): string {
    "vec-" + jobId + "-" + Itoa(keyIndex) + "-" + Itoa(chunkIndex)
  }

  /** Within a job the id determines the object and the chunk, whatever the job id holds. */
  lemma UploadRecordIdInjective(jobId: string, k: nat, c: nat, k': nat, c': nat)
    requires UploadRecordId(jobId, k, c) == UploadRecordId(jobId, k', c')
    ensures k == k' && c == c'
  {
    var p := "vec-" + jobId;
    NotADigit(Itoa(c), '-');
    NotADigit(Itoa(c'), '-');
    NotADigit(Itoa(k), '-');
    NotADigit(Itoa(k'), '-');
    LastSeparator(p + ['-'] + Itoa(k), Itoa(c), p + ['-'] + Itoa(k'), Itoa(c'), '-');
    LastSeparator(p, Itoa(k), p, Itoa(k'), '-');
    ItoaInjective(k, k');
    ItoaInjective(c, c');
  }

  // ----- hashParts -----

  /** strings.Join(parts, "|"). */
  function HashParts(parts: seq<string>): string {
    if parts == [] then ""
    else if |parts| == 1 then parts[0]
    else HashParts(parts[..|parts| - 1]) + ['|'] + parts[|parts| - 1]
  }

  function Triple(t: string, j: string, c: string): string {
    t + ['|'] + j + ['|'] + c
  }

  /** A key made of a tag, a tenant, a job and a checksum. */
  function TaggedKey(tag: string, t: string, j: string, c: string): string {
    HashParts([tag, t, j, c])
  }

  lemma TaggedKeyIsTriple(tag: string, t: string, j: string, c: string)
    ensures TaggedKey(tag, t, j, c) == tag + ['|'] + Triple(t, j, c)
  {
    var p := [tag, t, j, c];
    assert p[..3] == [tag, t, j] && p[..3][..2] == [tag, t] && p[..3][..2][..1] == [tag];
    assert HashParts([tag]) == tag;
    assert HashParts([tag, t]) == tag + ['|'] + t;
    assert HashParts([tag, t, j]) == tag + ['|'] + t + ['|'] + j;
  }

  lemma {:induction false} TripleBars(t: string, j: string, c: string)
    ensures Count(Triple(t, j, c), '|') == Count(t, '|') + Count(j, '|') + Count(c, '|') + 2
  {
    CountConcat(t, ['|'], '|');
    CountConcat(t + ['|'], j, '|');
    CountConcat(t + ['|'] + j, ['|'], '|');
    CountConcat(t + ['|'] + j + ['|'], c, '|');
    assert ['|'][..0] == "";
    assert Count(['|'], '|') == 1;
  }

  predicate BarFree(t: string, j: string, c: string) {
    '|' !in t && '|' !in j && '|' !in c
  }

  lemma TripleUnique(t: string, j: string, c: string, t': string, j': string, c': string)
    requires BarFree(t, j, c) && Triple(t, j, c) == Triple(t', j', c')
    ensures t == t' && j == j' && c == c'
  {
    TripleBars(t, j, c);
    TripleBars(t', j', c');
    CountZero(t, '|'); CountZero(j, '|'); CountZero(c, '|');
    CountZero(t', '|'); CountZero(j', '|'); CountZero(c', '|');
    LastSeparator(t + ['|'] + j, c, t' + ['|'] + j', c', '|');
    LastSeparator(t, j, t', j', '|');
  }

  /** A job's key is shared with no other (tenant, job, checksum) exactly when none of the three
      holds a '|': the joined text does not escape its separator. */
  lemma KeyUniqueIff(tag: string, t: string, j: string, c: string)
    ensures BarFree(t, j, c) <==>
            forall t', j', c' :: TaggedKey(tag, t, j, c) == TaggedKey(tag, t', j', c') ==> t == t' && j == j' && c == c'
  {
    if BarFree(t, j, c) {
      forall t', j', c' | TaggedKey(tag, t, j, c) == TaggedKey(tag, t', j', c')
        ensures t == t' && j == j' && c == c'
      {
        TaggedKeyIsTriple(tag, t, j, c);
        TaggedKeyIsTriple(tag, t', j', c');
        var k := TaggedKey(tag, t, j, c);
        assert k[|tag| + 1..] == Triple(t, j, c) && k[|tag| + 1..] == Triple(t', j', c');
        TripleUnique(t, j, c, t', j', c');
      }
    } else {
      var t', j', c' := Collision(t, j, c);
      TaggedKeyIsTriple(tag, t, j, c);
      TaggedKeyIsTriple(tag, t', j', c');
      assert TaggedKey(tag, t, j, c) == TaggedKey(tag, t', j', c');
    }
  }

  /** A bar inside a part can be taken for a separator. */
  lemma Collision(t: string, j: string, c: string) returns (t': string, j': string, c': string)
    requires !BarFree(t, j, c)
    ensures Triple(t, j, c) == Triple(t', j', c') && !(t == t' && j == j' && c == c')
  {
    if '|' in t {
      var i :| 0 <= i < |t| && t[i] == '|';
      t', j', c' := t[..i], t[i + 1..] + ['|'] + j, c;
      assert t == t[..i] + ['|'] + t[i + 1..];
    } else if '|' in j {
      var i :| 0 <= i < |j| && j[i] == '|';
      t', j', c' := t + ['|'] + j[..i], j[i + 1..], c;
      assert j == j[..i] + ['|'] + j[i + 1..];
    } else {
      var i :| 0 <= i < |c| && c[i] == '|';
      t', j', c' := t, j + ['|'] + c[..i], c[i + 1..];
      assert c == c[..i] + ['|'] + c[i + 1..];
    }
  }

  // ----- Record ids of the worker -----

  /** hashParts("vec", tenant, job, checksum, i). */
  function RecordId(t: string, j: string, c: string, i: nat): string {
    HashParts(["vec", t, j, c, Itoa(i)])
  }

  lemma {:induction false} RecordIdParts(t: string, j: string, c: string, i: nat)
    ensures RecordId(t, j, c, i) == TaggedKey("vec", t, j, c) + ['|'] + Itoa(i)
    ensures RecordId(t, j, c, i) != ""
  {
    var p := ["vec", t, j, c, Itoa(i)];
    assert p[..4] == ["vec", t, j, c];
  }

  /** Equal record ids come from the same chunk position of the same joined job identity. */
  lemma RecordIdInjective(t: string, j: string, c: string, i: nat, t': string, j': string, c': string, i': nat)
    requires RecordId(t, j, c, i) == RecordId(t', j', c', i')
    ensures i == i' && TaggedKey("vec", t, j, c) == TaggedKey("vec", t', j', c')
  {
    RecordIdParts(t, j, c, i);
    RecordIdParts(t', j', c', i');
    NotADigit(Itoa(i), '|');
    NotADigit(Itoa(i'), '|');
    LastSeparator(TaggedKey("vec", t, j, c), Itoa(i), TaggedKey("vec", t', j', c'), Itoa(i'), '|');
    ItoaInjective(i, i');
  }
}
