/**
 `sort.SliceStable`, used by every ranking of the retrieval path: an in-place stable sort over a
 strict weak order, and the facts that make its result unique.
 */
module StableSort {
  import opened Sequences

  /** What SliceStable asks of its comparison: asymmetric and negatively transitive. */
  ghost predicate StrictWeakOrder<T(!new)>(less: (T, T) -> bool) {
    && (forall a, b :: less(a, b) ==> !less(b, a))
    && (forall a, b, c :: less(a, c) ==> less(a, b) || less(b, c))
  }

  /** Neither comes before the other. */
  predicate Tied<T>(less: (T, T) -> bool, a: T, b: T) {
    !less(a, b) && !less(b, a)
  }

  ghost predicate Sorted<T>(less: (T, T) -> bool, s: seq<T>) {
    forall i, j :: 0 <= i < j < |s| ==> !less(s[j], s[i])
  }

  /** The elements tied with x, in order. */
  function Class<T>(less: (T, T) -> bool, x: T, s: seq<T>): seq<T> {
    if s == [] then []
    else if Tied(less, x, s[|s| - 1]) then Class(less, x, s[..|s| - 1]) + [s[|s| - 1]]
    else Class(less, x, s[..|s| - 1])
  }

  /** Every tied group keeps its elements and their order: a stable rearrangement. */
  ghost predicate StableOf<T(!new)>(less: (T, T) -> bool, s: seq<T>, t: seq<T>) {
    forall x :: Class(less, x, s) == Class(less, x, t)
  }

  function Insert<T>(less: (T, T) -> bool, s: seq<T>, x: T): (r: seq<T>)
    ensures |r| == |s| + 1
  {
    if s != [] && less(x, s[|s| - 1]) then Insert(less, s[..|s| - 1], x) + [s[|s| - 1]] else s + [x]
  }

  function Sort<T>(less: (T, T) -> bool, s: seq<T>): (r: seq<T>)
    ensures |r| == |s|
  {
    if s == [] then [] else Insert(less, Sort(less, s[..|s| - 1]), s[|s| - 1])
  }

  /** However often and whenever it is asked, the comparison answers by this order.  Comparison n may
      look at things that have no fixed value, such as the walk over a map. */
  ghost predicate Consistent<T(!new)>(compare: (nat, T, T) -> bool, less: (T, T) -> bool) {
    forall n: nat, a, b :: compare(n, a, b) == less(a, b)
  }

  method SliceStable<T(!new)>(a: array<T>, less: (T, T) -> bool)
    modifies a
    ensures a[..] == Sort(less, old(a[..]))
  {
    SliceStableBy(a, (n: nat, x: T, y: T) => less(x, y), less);
  }

  /** sort.SliceStable on a slice, with a comparison that is evaluated anew each time. */
  method SliceStableBy<T(!new)>(a: array<T>, compare: (nat, T, T) -> bool, ghost less: (T, T) -> bool)
    requires Consistent(compare, less)
    modifies a
    ensures a[..] == Sort(less, old(a[..]))
  {
    ghost var was := a[..];
    var asked: nat := 0;
    for i := 0 to a.Length
      invariant |was| == a.Length && a[..] == Partly(less, was, i)
    {
      PartlyStep(less, was, i);
      asked := InsertAt(a, compare, less, asked, i);
    }
    assert was[..a.Length] == was && Sort(less, was) + [] == Sort(less, was);
  }

  /** The first i elements sorted, the rest as they were. */
  ghost function Partly<T>(less: (T, T) -> bool, s: seq<T>, i: nat): seq<T>
    requires i <= |s|
  {
    Sort(less, s[..i]) + s[i..]
  }

  ghost function Moved<T>(less: (T, T) -> bool, s: seq<T>, i: nat): seq<T>
    requires i < |s|
  {
    Insert(less, s[..i], s[i]) + s[i + 1..]
  }

  lemma PartlyStep<T>(less: (T, T) -> bool, s: seq<T>, i: nat)
    requires i < |s|
    ensures |Partly(less, s, i)| == |s| && Moved(less, Partly(less, s, i), i) == Partly(less, s, i + 1)
  {
    var c := Partly(less, s, i);
    assert c[..i] == Sort(less, s[..i]) && c[i] == s[i] && c[i + 1..] == s[i + 1..];
    assert s[..i + 1][..i] == s[..i];
  }

  /** x, taken from position i, now stands at position j and what it passed has moved up by one. */
  ghost predicate Shifted<T>(was: seq<T>, now: seq<T>, i: nat, j: nat) {
    && j <= i < |was| == |now|
    && now == was[..j] + [was[i]] + was[j..i] + was[i + 1..]
  }

  lemma ShiftedAt<T>(was: seq<T>, now: seq<T>, i: nat, j: nat)
    requires Shifted(was, now, i, j)
    ensures now[j] == was[i] && (j > 0 ==> now[j - 1] == was[j - 1])
    ensures j > 0 ==> Shifted(was, now[j := now[j - 1]][j - 1 := now[j]], i, j - 1)
  {
  }

  /** Moves a[i] left past everything it comes before. */
  method InsertAt<T(!new)>(a: array<T>, compare: (nat, T, T) -> bool, ghost less: (T, T) -> bool, asked: nat, i: nat)
    returns (asked': nat)
    requires i < a.Length && Consistent(compare, less)
    modifies a
    ensures a[..] == Moved(less, old(a[..]), i)
  {
    ghost var was := a[..];
    var j := i;
    asked' := asked;
    assert Shifted(was, a[..], i, i);
    while j > 0 && compare(asked', a[j], a[j - 1])
      invariant 0 <= j <= i && |was| == a.Length && Shifted(was, a[..], i, j)
      invariant Insert(less, was[..i], was[i]) == Insert(less, was[..j], was[i]) + was[j..i]
    {
      ghost var now := a[..];
      ShiftedAt(was, now, i, j);
      InsertStep(less, was, was[i], i, j);
      a[j], a[j - 1] := a[j - 1], a[j];
      assert a[..] == now[j := now[j - 1]][j - 1 := now[j]];
      j, asked' := j - 1, asked' + 1;
    }
    if j > 0 {
      asked' := asked' + 1;  // the comparison that ended the loop
    }
    ShiftedAt(was, a[..], i, j);
    assert Insert(less, was[..j], was[i]) == was[..j] + [was[i]];
  }

  lemma InsertStep<T>(less: (T, T) -> bool, s: seq<T>, x: T, i: nat, j: nat)
    requires 0 < j <= i <= |s| && less(x, s[j - 1])
    requires Insert(less, s[..i], x) == Insert(less, s[..j], x) + s[j..i]
    ensures Insert(less, s[..i], x) == Insert(less, s[..j - 1], x) + s[j - 1..i]
  {
    var front := Insert(less, s[..j - 1], x);
    assert s[..j][..j - 1] == s[..j - 1];
    assert Insert(less, s[..j], x) == front + [s[j - 1]];
    Regroup(front, [s[j - 1]], s[j..i]);
    assert s[j - 1..i] == [s[j - 1]] + s[j..i];
  }

  // ----- Correctness -----

  lemma {:induction false} InsertPermutes<T>(less: (T, T) -> bool, s: seq<T>, x: T)
    ensures multiset(Insert(less, s, x)) == multiset(s) + multiset{x}
  {
    if s != [] && less(x, s[|s| - 1]) {
      InsertPermutes(less, s[..|s| - 1], x);
      assert s == s[..|s| - 1] + [s[|s| - 1]];
    }
  }

  /** The result is a permutation. */
  lemma {:induction false} SortPermutes<T>(less: (T, T) -> bool, s: seq<T>)
    ensures multiset(Sort(less, s)) == multiset(s)
  {
    if s != [] {
      var front, x := s[..|s| - 1], s[|s| - 1];
      SortPermutes(less, front);
      InsertPermutes(less, Sort(less, front), x);
      MultisetSnoc(s);
    }
  }

  lemma MultisetSnoc<T>(s: seq<T>)
    requires s != []
    ensures multiset(s) == multiset(s[..|s| - 1]) + multiset{s[|s| - 1]}
  {
    assert s == s[..|s| - 1] + [s[|s| - 1]];
  }

  lemma {:induction false} SortMembers<T>(less: (T, T) -> bool, s: seq<T>)
    ensures forall y :: y in Sort(less, s) <==> y in s
  {
    SortPermutes(less, s);
    assert forall y :: y in Sort(less, s) <==> y in multiset(Sort(less, s));
  }

  lemma {:induction false} InsertMembers<T>(less: (T, T) -> bool, s: seq<T>, x: T)
    ensures forall y :: y in Insert(less, s, x) <==> y in s || y == x
  {
    if s != [] && less(x, s[|s| - 1]) {
      InsertMembers(less, s[..|s| - 1], x);
      assert s == s[..|s| - 1] + [s[|s| - 1]];
    }
  }

  lemma {:induction false} InsertSorted<T(!new)>(less: (T, T) -> bool, s: seq<T>, x: T)
    requires StrictWeakOrder(less) && Sorted(less, s)
    ensures Sorted(less, Insert(less, s, x))
  {
    if s != [] && less(x, s[|s| - 1]) {
      var front := s[..|s| - 1];
      InsertSorted(less, front, x);
      InsertMembers(less, front, x);
      var r := Insert(less, front, x);
      forall i | 0 <= i < |r|
        ensures !less(s[|s| - 1], r[i])
      {
        assert r[i] in r;
      }
    } else if s != [] {
      forall i | 0 <= i < |s|
        ensures !less(x, s[i])
      {
        assert i < |s| - 1 ==> !less(s[|s| - 1], s[i]);
      }
    }
  }

  lemma {:induction false} SortSorted<T(!new)>(less: (T, T) -> bool, s: seq<T>)
    requires StrictWeakOrder(less)
    ensures Sorted(less, Sort(less, s))
  {
    if s != [] {
      SortSorted(less, s[..|s| - 1]);
      InsertSorted(less, Sort(less, s[..|s| - 1]), s[|s| - 1]);
    }
  }

  lemma {:induction false} ClassSnoc<T>(less: (T, T) -> bool, x: T, s: seq<T>, y: T)
    ensures Class(less, x, s + [y]) == if Tied(less, x, y) then Class(less, x, s) + [y] else Class(less, x, s)
  {
    assert (s + [y])[..|s|] == s;
  }

  /** Inserting x appends it to its own tied group and leaves the others alone. */
  lemma {:induction false} InsertStable<T(!new)>(less: (T, T) -> bool, s: seq<T>, x: T, z: T)
    requires StrictWeakOrder(less)
    ensures Class(less, z, Insert(less, s, x)) ==
            if Tied(less, z, x) then Class(less, z, s) + [x] else Class(less, z, s)
  {
    if s != [] && less(x, s[|s| - 1]) {
      var y := s[|s| - 1];
      InsertStable(less, s[..|s| - 1], x, z);
      ClassSnoc(less, z, Insert(less, s[..|s| - 1], x), y);
    } else {
      ClassSnoc(less, z, s, x);
    }
  }

  lemma {:induction false} SortStable<T(!new)>(less: (T, T) -> bool, s: seq<T>)
    requires StrictWeakOrder(less)
    ensures StableOf(less, Sort(less, s), s)
  {
    if s != [] {
      SortStable(less, s[..|s| - 1]);
      forall z
        ensures Class(less, z, Sort(less, s)) == Class(less, z, s)
      {
        InsertStable(less, Sort(less, s[..|s| - 1]), s[|s| - 1], z);
      }
    }
  }

  lemma {:induction false} ClassMember<T(!new)>(less: (T, T) -> bool, x: T, s: seq<T>, y: T)
    requires y in Class(less, x, s)
    ensures y in s && Tied(less, x, y)
  {
    if s != [] && !(Tied(less, x, s[|s| - 1]) && y == s[|s| - 1]) {
      ClassMember(less, x, s[..|s| - 1], y);
    }
  }

  /** The last element of a sorted list is tied with the last element of any sorted stable rearrangement. */
  lemma LastTied<T(!new)>(less: (T, T) -> bool, s: seq<T>, t: seq<T>)
    requires StrictWeakOrder(less) && StableOf(less, s, t) && s != [] && Sorted(less, t)
    ensures t != [] && !less(t[|t| - 1], s[|s| - 1])
  {
    var m := s[|s| - 1];
    assert m == Class(less, m, s)[|Class(less, m, s)| - 1];
    ClassMember(less, m, t, m);
    var i :| 0 <= i < |t| && t[i] == m;
  }

  /** Sorted and stable determine the result: any stable sort returns the same list. */
  lemma {:induction false} SortedStableUnique<T(!new)>(less: (T, T) -> bool, s: seq<T>, t: seq<T>)
    requires StrictWeakOrder(less) && Sorted(less, s) && Sorted(less, t) && StableOf(less, s, t)
    ensures s == t
    decreases |s|
  {
    if s == [] {
      if t != [] {
        LastTied(less, t, s);
      }
    } else {
      LastTied(less, s, t);
      LastTied(less, t, s);
      var m, m' := s[|s| - 1], t[|t| - 1];
      var s', t' := s[..|s| - 1], t[..|t| - 1];
      assert Class(less, m, s) == Class(less, m, s') + [m];
      assert Class(less, m, t) == Class(less, m, t') + [m'];
      assert m == Class(less, m, s)[|Class(less, m, s)| - 1] == m';
      forall x
        ensures Class(less, x, s') == Class(less, x, t')
      {
        assert Class(less, x, s) == Class(less, x, t);
        if Tied(less, x, m) {
          assert Class(less, x, s') == Class(less, x, s)[..|Class(less, x, s)| - 1];
          assert Class(less, x, t') == Class(less, x, t)[..|Class(less, x, t)| - 1];
        }
      }
      SortedStableUnique(less, s', t');
      assert s == s' + [m] && t == t' + [m];
    }
  }

  /** Sorting what is sorted changes nothing. */
  lemma {:induction false} SortIdempotent<T(!new)>(less: (T, T) -> bool, s: seq<T>)
    requires StrictWeakOrder(less)
    ensures Sorted(less, s) ==> Sort(less, s) == s
    ensures Sort(less, Sort(less, s)) == Sort(less, s)
  {
    SortSorted(less, s);
    SortSorted(less, Sort(less, s));
    SortStable(less, s);
    SortStable(less, Sort(less, s));
    SortedStableUnique(less, Sort(less, Sort(less, s)), Sort(less, s));
    if Sorted(less, s) {
      SortedStableUnique(less, Sort(less, s), s);
    }
  }

  /** Any sorted stable rearrangement of s is its sort. */
  lemma {:induction false} SortIs<T(!new)>(less: (T, T) -> bool, s: seq<T>, t: seq<T>)
    requires StrictWeakOrder(less) && Sorted(less, t) && StableOf(less, t, s)
    ensures Sort(less, s) == t
  {
    SortSorted(less, s);
    SortStable(less, s);
    SortedStableUnique(less, Sort(less, s), t);
  }
}
