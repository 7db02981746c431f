/** Sign rules for real products, which the solver does not find unaided. */
module RealArith {

  lemma MulNonNeg(a: real, b: real)
    requires 0.0 <= a && 0.0 <= b
    ensures 0.0 <= a * b
  {
  }

  lemma MulPos(a: real, b: real)
    requires 0.0 < a && 0.0 < b
    ensures 0.0 < a * b
  {
  }

  /** The non-negative root of a positive number is positive. */
  lemma RootPositive(r: real, d: real)
    requires 0.0 <= r && r * r == d && 0.0 < d
    ensures 0.0 < r
  {
    assert r * r > 0.0;
    assert r != 0.0;
  }

  /** Squaring both sides of r * len == v. */
  lemma ScaledSquare(r: real, len: real, v: real)
    requires r * len == v
    ensures v * v == (r * r) * (len * len)
  {
    calc {
      v * v;
      (r * len) * (r * len);
      (r * r) * (len * len);
    }
  }

  /** A factor that maps a non-zero quantity w onto itself is 1. */
  lemma UnitFactor(q: real, w: real, d: real)
    requires d != 0.0 && w == d && q * w == d
    ensures q == 1.0
  {
    assert q * d == d;
    assert (q - 1.0) * d == 0.0;
  }

  /** A square is non-negative, and positive unless its root is 0. */
  lemma Square(a: real)
    ensures 0.0 <= a * a
    ensures a != 0.0 ==> 0.0 < a * a
  {
    if a < 0.0 { MulPos(-a, -a); }
    else if a > 0.0 { MulPos(a, a); }
  }
}

/** Products of naturals in row-major index arithmetic. */
module IntArith {

  lemma MulMono(a: int, b: int, w: int)
    requires a <= b && 0 <= w
    ensures a * w <= b * w
  {
    assert b * w - a * w == (b - a) * w;
  }

  /** Entry x of row z of a grid with rows of width w lies before row n. */
  lemma RowMajorBound(z: int, x: int, n: int, w: int)
    requires 0 <= z < n && 0 <= x < w
    ensures 0 <= z * w + x < n * w
  {
    MulMono(0, z, w);
    MulMono(z + 1, n, w);
    assert (z + 1) * w == z * w + w;
  }

  /** A multiple of 3 leaves no remainder. */
  lemma ThreeDivides(t: int)
    ensures (3 * t) % 3 == 0
  {
  }

  /** Nor does a multiple of 6. */
  lemma SixMultipleDivides(a: int, b: int)
    ensures (6 * a * b) % 3 == 0
  {
    assert 6 * a * b == 3 * (2 * a * b);
    ThreeDivides(2 * a * b);
  }
}
