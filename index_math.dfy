/** Row-major flat indexing of small tensors.

    A tensor of shape (A, B, C) is stored as a flat sequence in which the
    element at coordinate (a, b, c) sits at position (a * B + b) * C + c,
    which is how a contiguous torch tensor lays out its elements.  The
    lemmas here say that composing and decomposing such positions are
    inverse to each other, which is all the resampling proofs need.
 */
module IndexMath {

  /** Position of (a, b) in a row-major (_, B) matrix. */
  function Idx2(a: nat, b: nat, B: nat): nat {
    a * B + b
  }

  /** Position of (a, b, c) in a row-major (_, B, C) tensor. */
  function Idx3(a: nat, b: nat, c: nat, B: nat, C: nat): nat {
    Idx2(Idx2(a, b, B), c, C)
  }

  /** The coordinates of position n in a row-major (_, B, C) tensor. */
  function Coords3(n: nat, B: nat, C: nat): (nat, nat, nat)
    requires B > 0 && C > 0
  {
    (n / C / B, (n / C) % B, n % C)
  }

  /** Products regroup to the right. */
  lemma Regroup(a: int, b: int, c: int)
    ensures a * b * c == a * (b * c)
  {
  }

  lemma MulPositive(x: int, d: int)
    requires d > 0 && x >= 1
    ensures x * d >= d
  {
  }

  /** Every factor of a positive product of naturals is positive. */
  lemma FactorsPositive(a: nat, b: nat, c: nat)
    ensures a * b * c > 0 ==> a > 0 && b > 0 && c > 0
  {
    if a * b == 0 {
      assert a * b * c == 0;
    }
  }

  lemma MulMonotone(a: int, b: int, c: int)
    requires a <= b && c >= 0
    ensures a * c <= b * c
  {
  }

  lemma MulStrict(a: int, b: int, c: int)
    requires a < b && c > 0
    ensures a * c < b * c
  {
    MulPositive(b - a, c);
  }

  /** Dividing q * d + r by d gives back q and r when r < d. */
  lemma SplitIdx2(q: nat, r: nat, d: nat)
    requires r < d
    ensures Idx2(q, r, d) / d == q && Idx2(q, r, d) % d == r
  {
    var n := q * d + r;
    var k := n / d - q;
    assert d * k == r - n % d;
    if k >= 1 {
      MulPositive(k, d);
    } else if k <= -1 {
      MulPositive(-k, d);
    }
  }

  /** Recomposing the quotient and the remainder gives back n. */
  lemma JoinIdx2(n: nat, d: nat)
    requires d > 0
    ensures Idx2(n / d, n % d, d) == n
  {
  }

  /** The position of an in-range coordinate is in range. */
  lemma Idx2Bound(a: nat, b: nat, A: nat, B: nat)
    requires a < A && b < B
    ensures Idx2(a, b, B) < A * B
  {
    MulPositive(A - a, B);
    assert (A - a) * B == A * B - a * B;
  }

  /** The quotient of an in-range position is in range. */
  lemma QuotientBound(n: nat, A: nat, d: nat)
    requires d > 0 && n < A * d
    ensures n / d < A
  {
    if n / d >= A {
      MulPositive(n / d - A + 1, d);
    }
  }

  lemma Idx3Bound(a: nat, b: nat, c: nat, A: nat, B: nat, C: nat)
    requires a < A && b < B && c < C
    ensures Idx3(a, b, c, B, C) < A * B * C
  {
    Idx2Bound(a, b, A, B);
    Idx2Bound(Idx2(a, b, B), c, A * B, C);
  }

  lemma Coords3Bound(n: nat, A: nat, B: nat, C: nat)
    requires B > 0 && C > 0 && n < A * B * C
    ensures Coords3(n, B, C).0 < A && Coords3(n, B, C).1 < B && Coords3(n, B, C).2 < C
  {
    QuotientBound(n, A * B, C);
    QuotientBound(n / C, A, B);
  }

  /** Decomposing a composed position gives back its coordinates. */
  lemma SplitIdx3(a: nat, b: nat, c: nat, B: nat, C: nat)
    requires b < B && c < C
    ensures Coords3(Idx3(a, b, c, B, C), B, C) == (a, b, c)
  {
    SplitIdx2(Idx2(a, b, B), c, C);
    SplitIdx2(a, b, B);
  }

  /** Composing the coordinates of a position gives back the position. */
  lemma JoinIdx3(n: nat, B: nat, C: nat)
    requires B > 0 && C > 0
    ensures Idx3(Coords3(n, B, C).0, Coords3(n, B, C).1, Coords3(n, B, C).2, B, C) == n
  {
    JoinIdx2(n / C, B);
    JoinIdx2(n, C);
  }
}
