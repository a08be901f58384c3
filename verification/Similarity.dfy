/**
 `cosineSimilarity` of the in-process vector index, over the reals: the loop keeps the
 Cauchy-Schwarz inequality, so the similarity is always between -1 and 1.
 */
module Similarity {

  function Dot(a: seq<real>, b: seq<real>, n: nat): real
    requires n <= |a| && n <= |b|
  {
    if n == 0 then 0.0 else Dot(a, b, n - 1) + a[n - 1] * b[n - 1]
  }

  /** math.Sqrt on non-negative numbers. */
  ghost predicate IsRoot(root: real -> real) {
    forall x: real :: x >= 0.0 ==> root(x) >= 0.0 && root(x) * root(x) == x
  }

  function Shorter(a: seq<real>, b: seq<real>): nat {
    if |b| < |a| then |b| else |a|
  }

  lemma SquareGrows(x: real, y: real)
    requires x > y >= 0.0
    ensures x * x > y * y
  {
    ProductPositive(x - y, x + y);
    assert x * x - y * y == (x - y) * (x + y);
  }

  lemma ProductPositive(a: real, b: real)
    requires a > 0.0 && b > 0.0
    ensures a * b > 0.0
  {
  }

  lemma OverItself(x: real)
    requires x != 0.0
    ensures x / x == 1.0
  {
  }

  lemma SquareMonotone(x: real, y: real)
    requires y >= 0.0 && x * x <= y * y
    ensures -y <= x <= y
  {
    assert (-x) * (-x) == x * x;
    if x > y {
      SquareGrows(x, y);
    } else if -x > y {
      SquareGrows(-x, y);
    }
  }

  lemma ProductMonotone(a: real, b: real, c: real)
    requires a <= b && c >= 0.0
    ensures a * c <= b * c
  {
  }

  /** Twice a mixed product is at most the sum of the products it mixes. */
  lemma Mixed(d: real, ln: real, rn: real, l: real, r: real)
    requires ln >= 0.0 && rn >= 0.0 && d * d <= ln * rn
    ensures 2.0 * d * l * r <= ln * (r * r) + rn * (l * l)
  {
    var p, q := ln * (r * r), rn * (l * l);
    var m := d * (l * r);
    var c := (l * r) * (l * r);
    assert p >= 0.0 && q >= 0.0 && c >= 0.0;
    ProductMonotone(d * d, ln * rn, c);
    assert m * m == (d * d) * c;
    assert p * q == (ln * rn) * c;
    assert (p - q) * (p - q) >= 0.0;
    assert (p + q) * (p + q) == (p - q) * (p - q) + 4.0 * (p * q);
    assert (2.0 * m) * (2.0 * m) == 4.0 * (m * m);
    SquareMonotone(2.0 * m, p + q);
    assert 2.0 * d * l * r == 2.0 * m;
  }

  /** dot² <= leftNorm * rightNorm, with both norms non-negative. */
  ghost predicate Bounded(d: real, ln: real, rn: real) {
    ln >= 0.0 && rn >= 0.0 && d * d <= ln * rn
  }

  /** One iteration keeps dot² <= leftNorm * rightNorm. */
  lemma CauchySchwarzStep(d: real, ln: real, rn: real, l: real, r: real, d': real, ln': real, rn': real)
    requires Bounded(d, ln, rn) && d' == d + l * r && ln' == ln + l * l && rn' == rn + r * r
    ensures Bounded(d', ln', rn')
  {
    Mixed(d, ln, rn, l, r);
    SquareNonNegative(l);
    SquareNonNegative(r);
    assert (d + l * r) * (d + l * r) == d * d + 2.0 * d * l * r + (l * r) * (l * r);
    assert (ln + l * l) * (rn + r * r) == ln * rn + ln * (r * r) + rn * (l * l) + (l * r) * (l * r);
  }

  /** Cauchy-Schwarz for the first n components, whatever the lengths. */
  lemma {:induction false} CauchySchwarz(a: seq<real>, b: seq<real>, n: nat)
    requires n <= |a| && n <= |b|
    ensures Bounded(Dot(a, b, n), Dot(a, a, n), Dot(b, b, n))
  {
    if n > 0 {
      CauchySchwarz(a, b, n - 1);
      CauchySchwarzStep(Dot(a, b, n - 1), Dot(a, a, n - 1), Dot(b, b, n - 1), a[n - 1], b[n - 1],
                        Dot(a, b, n), Dot(a, a, n), Dot(b, b, n));
    }
  }

  function Cosine(a: seq<real>, b: seq<real>, root: real -> real): real {
    var n := Shorter(a, b);
    var ln, rn := Dot(a, a, n), Dot(b, b, n);
    if ln == 0.0 || rn == 0.0 || root(ln) * root(rn) == 0.0 then 0.0 else Dot(a, b, n) / (root(ln) * root(rn))
  }

  lemma RootPositive(root: real -> real, x: real)
    requires IsRoot(root) && x > 0.0
    ensures root(x) > 0.0
  {
    assert root(x) * root(x) == x;
  }

  lemma RootProduct(root: real -> real, x: real, y: real)
    requires IsRoot(root) && x > 0.0 && y > 0.0
    ensures root(x) * root(y) > 0.0 && (root(x) * root(y)) * (root(x) * root(y)) == x * y
  {
    RootPositive(root, x);
    RootPositive(root, y);
    var p, q := root(x), root(y);
    assert p * p == x && q * q == y;
    assert (p * q) * (p * q) == (p * p) * (q * q);
  }

  lemma Quotient(d: real, s: real)
    requires s > 0.0 && -s <= d <= s
    ensures -1.0 <= d / s <= 1.0
  {
    var q := d / s;
    assert q * s == d && (-q) * s == -d;
    if q > 1.0 {
      ProductAbove(q, s);
    } else if -q > 1.0 {
      ProductAbove(-q, s);
    }
  }

  lemma ProductAbove(q: real, s: real)
    requires q > 1.0 && s > 0.0
    ensures q * s > s
  {
    ProductPositive(q - 1.0, s);
    assert q * s - s == (q - 1.0) * s;
  }

  lemma SquareNonNegative(x: real)
    ensures x * x >= 0.0
  {
  }

  /** The accumulator loop; every iteration keeps dot² <= leftNorm * rightNorm. */
  method Accumulate(left: seq<real>, right: seq<real>, n: nat) returns (dot: real, leftNorm: real, rightNorm: real)
    requires n <= |left| && n <= |right|
    ensures dot == Dot(left, right, n) && leftNorm == Dot(left, left, n) && rightNorm == Dot(right, right, n)
    ensures Bounded(dot, leftNorm, rightNorm)
  {
    dot, leftNorm, rightNorm := 0.0, 0.0, 0.0;
    for i := 0 to n
      invariant dot == Dot(left, right, i) && leftNorm == Dot(left, left, i) && rightNorm == Dot(right, right, i)
      invariant Bounded(dot, leftNorm, rightNorm)
    {
      var l, r := left[i], right[i];
      CauchySchwarzStep(dot, leftNorm, rightNorm, l, r, dot + l * r, leftNorm + l * l, rightNorm + r * r);
      dot := dot + l * r;
      leftNorm := leftNorm + l * l;
      rightNorm := rightNorm + r * r;
    }
  }

  /** cosineSimilarity. */
  method CosineSimilarity(left: seq<real>, right: seq<real>, root: real -> real) returns (similarity: real)
    requires IsRoot(root)
    ensures similarity == Cosine(left, right, root)
    ensures -1.0 <= similarity <= 1.0
  {
    if |left| == 0 || |right| == 0 {
      return 0.0;
    }
    var n := |left|;
    if |right| < n {
      n := |right|;
    }
    var dot, leftNorm, rightNorm := Accumulate(left, right, n);
    if leftNorm == 0.0 || rightNorm == 0.0 {
      return 0.0;
    }
    Normalised(dot, leftNorm, rightNorm, root);
    similarity := dot / (root(leftNorm) * root(rightNorm));
  }

  /** Dividing by the roots of the norms brings the product into [-1, 1]. */
  lemma Normalised(dot: real, ln: real, rn: real, root: real -> real)
    requires IsRoot(root) && Bounded(dot, ln, rn) && ln != 0.0 && rn != 0.0
    ensures root(ln) * root(rn) > 0.0 && -1.0 <= dot / (root(ln) * root(rn)) <= 1.0
  {
    RootProduct(root, ln, rn);
    SquareMonotone(dot, root(ln) * root(rn));
    Quotient(dot, root(ln) * root(rn));
  }

  lemma {:induction false} DotSymmetric(a: seq<real>, b: seq<real>, n: nat)
    requires n <= |a| && n <= |b|
    ensures Dot(a, b, n) == Dot(b, a, n)
  {
    if n > 0 {
      DotSymmetric(a, b, n - 1);
    }
  }

  /** A vector that is not all zero has similarity 1 with itself: the bound is reached. */
  lemma {:induction false} SelfSimilarity(a: seq<real>, root: real -> real)
    requires IsRoot(root) && Dot(a, a, |a|) != 0.0
    ensures Cosine(a, a, root) == 1.0
  {
    CauchySchwarz(a, a, |a|);
    var x := Dot(a, a, |a|);
    RootPositive(root, x);
    assert root(x) * root(x) == x;
    OverItself(x);
  }

  /** The order of the arguments does not matter. */
  lemma CosineSymmetric(a: seq<real>, b: seq<real>, root: real -> real)
    ensures Cosine(a, b, root) == Cosine(b, a, root)
  {
    var n := Shorter(a, b);
    DotSymmetric(a, b, n);
    Commutes(root(Dot(a, a, n)), root(Dot(b, b, n)));
  }

  /** The vector that is 1 at position i and 0 elsewhere. */
  function Unit(n: nat, i: nat): (u: seq<real>)
    ensures |u| == n
  {
    seq(n, k => if k == i then 1.0 else 0.0)
  }

  /** The product with a unit vector is that component, so every component counts once. */
  lemma {:induction false} DotUnit(b: seq<real>, n: nat, i: nat, m: nat)
    requires m <= n <= |b|
    ensures Dot(Unit(n, i), b, m) == if i < m then b[i] else 0.0
  {
    if m > 0 {
      DotUnit(b, n, i, m - 1);
    }
  }

  lemma {:induction false} DotPrefix(a: seq<real>, b: seq<real>, k: nat, n: nat)
    requires n <= k <= |a| && k <= |b|
    ensures Dot(a[..k], b[..k], n) == Dot(a, b, n)
  {
    if n > 0 {
      DotPrefix(a, b, k, n - 1);
    }
  }

  /** Of vectors of different length only the common prefix counts. */
  lemma {:induction false} CosinePrefix(a: seq<real>, b: seq<real>, root: real -> real)
    ensures var n := if |a| <= |b| then |a| else |b|;
            Cosine(a, b, root) == Cosine(a[..n], b[..n], root)
  {
    var n := Shorter(a, b);
    DotPrefix(a, b, n, n);
    DotPrefix(a, a, n, n);
    DotPrefix(b, b, n, n);
  }

  /** Every component of the vector times a factor. */
  function Scaled(c: real, b: seq<real>): (s: seq<real>)
    ensures |s| == |b| && forall i :: 0 <= i < |b| ==> s[i] == c * b[i]
  {
    seq(|b|, i requires 0 <= i < |b| => c * b[i])
  }

  lemma {:induction false} DotScaled(a: seq<real>, c: real, b: seq<real>, n: nat)
    requires n <= |a| && n <= |b|
    ensures Dot(a, Scaled(c, b), n) == c * Dot(a, b, n)
    ensures Dot(Scaled(c, b), Scaled(c, b), n) == c * c * Dot(b, b, n)
  {
    if n > 0 {
      DotScaled(a, c, b, n - 1);
      ScaledStep(c, Dot(a, b, n - 1), a[n - 1], b[n - 1]);
      ScaledSquareStep(c, Dot(b, b, n - 1), b[n - 1]);
    }
  }

  lemma ScaledStep(c: real, d: real, x: real, y: real)
    ensures c * d + x * (c * y) == c * (d + x * y)
  {
  }

  lemma ScaledSquareStep(c: real, d: real, y: real)
    ensures c * c * d + (c * y) * (c * y) == c * c * (d + y * y)
  {
    ScaledStep(c * c, d, y, y);
    assert (c * y) * (c * y) == y * (c * c * y);
  }

  /** Turning a vector round turns the sign of its similarity, so -1 is reached too. */
  lemma {:induction false} CosineOpposite(a: seq<real>, b: seq<real>, root: real -> real)
    ensures Cosine(a, Scaled(-1.0, b), root) == -Cosine(a, b, root)
  {
    var n := Shorter(a, b);
    DotScaled(a, -1.0, b, n);
    Negation(Dot(a, b, n), root(Dot(a, a, n)) * root(Dot(b, b, n)));
  }

  lemma Negation(d: real, s: real)
    ensures s != 0.0 ==> (-1.0 * d) / s == -(d / s)
  {
  }

  /** Vectors without length have similarity 0, and others that of their dot product's sign. */
  lemma {:induction false} CosineSign(a: seq<real>, b: seq<real>, root: real -> real)
    requires IsRoot(root)
    ensures var n, c := Shorter(a, b), Cosine(a, b, root);
            if Dot(a, a, n) == 0.0 || Dot(b, b, n) == 0.0 then c == 0.0
            else (c > 0.0 <==> Dot(a, b, n) > 0.0) && (c < 0.0 <==> Dot(a, b, n) < 0.0)
  {
    var n := Shorter(a, b);
    var ln, rn := Dot(a, a, n), Dot(b, b, n);
    CauchySchwarz(a, b, n);
    if ln != 0.0 && rn != 0.0 {
      RootProduct(root, ln, rn);
      SignOfQuotient(Dot(a, b, n), root(ln) * root(rn));
    }
  }

  lemma SignOfQuotient(d: real, s: real)
    requires s > 0.0
    ensures (d / s > 0.0 <==> d > 0.0) && (d / s < 0.0 <==> d < 0.0)
  {
    var q := d / s;
    assert q * s == d;
    if q > 0.0 {
      ProductPositive(q, s);
    } else if q < 0.0 {
      ProductPositive(-q, s);
      assert (-q) * s == -d;
    }
  }

  lemma Commutes(p: real, q: real)
    ensures p * q == q * p
  {
  }
}
