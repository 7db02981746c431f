/** `hashCode` of the 3D biome page, which turns a seed text that is not a
    number into a seed: the 32-bit rolling hash h = 31 h + c over the UTF-16
    code units of the text, then its magnitude divided by 2^31 - 1. */
module SeedHash {

  /** One UTF-16 code unit, as `charCodeAt` returns it. */
  type CodeUnit = c: int | 0 <= c < 0x1_0000

  const TwoTo32: int := 0x1_0000_0000
  const TwoTo31: int := 0x8000_0000

  predicate IsInt32(v: int)
  {
    -TwoTo31 <= v < TwoTo31
  }

  /** ECMAScript ToInt32: the integer congruent to v modulo 2^32 in
      [-2^31, 2^31). `x << 5` and `x & x` both pass their result through it. */
  function ToInt32(v: int): (r: int)
    ensures IsInt32(r)
    ensures (v - r) % TwoTo32 == 0
    ensures IsInt32(v) ==> r == v
  {
    (v + TwoTo31) % TwoTo32 - TwoTo31
  }

  /** ToInt32 only sees its argument modulo 2^32. */
  lemma ToInt32Shift(v: int, k: int)
    ensures ToInt32(v + k * TwoTo32) == ToInt32(v)
  {
    var a := v + TwoTo31;
    var q, m := a / TwoTo32, a % TwoTo32;
    assert a == q * TwoTo32 + m && 0 <= m < TwoTo32;
    assert a + k * TwoTo32 == (q + k) * TwoTo32 + m;
    DivModUnique(a + k * TwoTo32, q + k, m);
  }

  /** Euclidean remainder by 2^32 is determined by any decomposition. */
  lemma DivModUnique(a: int, q: int, m: int)
    requires a == q * TwoTo32 + m && 0 <= m < TwoTo32
    ensures a % TwoTo32 == m
  {
    var q', m' := a / TwoTo32, a % TwoTo32;
    assert a == q' * TwoTo32 + m';
    assert (q - q') * TwoTo32 == m' - m;
  }

  /** Two values congruent modulo 2^32 wrap to the same 32-bit integer. */
  lemma ToInt32Congruent(v: int, w: int)
    requires (v - w) % TwoTo32 == 0
    ensures ToInt32(v) == ToInt32(w)
  {
    var k := (v - w) / TwoTo32;
    assert v == w + k * TwoTo32;
    ToInt32Shift(w, k);
  }

  /** One pass of the loop: `hash = ((hash << 5) - hash) + c`, then
      `hash = hash & hash`. */
  function HashStep(hash: int, c: CodeUnit): (r: int)
    ensures IsInt32(r)
  {
    ToInt32(ToInt32(hash * 32) - hash + c)
  }

  /** The step is h = 31 h + c in 32-bit two's complement: the intermediate
      wrap of `hash << 5` makes no difference. */
  lemma HashStepWraps(hash: int, c: CodeUnit)
    ensures HashStep(hash, c) == ToInt32(31 * hash + c)
  {
    var s := ToInt32(hash * 32);
    assert ((s - hash + c) - (31 * hash + c)) % TwoTo32 == (s - hash * 32) % TwoTo32;
    ToInt32Congruent(s - hash + c, 31 * hash + c);
  }

  /** The hash after the loop has consumed the whole of s. */
  function RollingHash(s: seq<CodeUnit>): (h: int)
    ensures IsInt32(h)
  {
    if |s| == 0 then 0 else HashStep(RollingHash(s[..|s| - 1]), s[|s| - 1])
  }

  /** The polynomial the hash computes over the unbounded integers:
      s[0] 31^(n-1) + ... + s[n-1]. */
  function Polynomial(s: seq<CodeUnit>): int
  {
    if |s| == 0 then 0 else 31 * Polynomial(s[..|s| - 1]) + s[|s| - 1]
  }

  /** The rolling hash is that polynomial reduced to 32 bits. */
  lemma {:induction false} RollingHashIsPolynomial(s: seq<CodeUnit>)
    ensures RollingHash(s) == ToInt32(Polynomial(s))
  {
    if |s| > 0 {
      var init, c := s[..|s| - 1], s[|s| - 1];
      RollingHashIsPolynomial(init);
      var h, p := RollingHash(init), Polynomial(init);
      HashStepWraps(h, c);
      StepCongruent(h, p, c);
    }
  }

  /** A step from the wrapped value of p wraps to the step from p. */
  lemma StepCongruent(h: int, p: int, c: int)
    requires h == ToInt32(p)
    ensures ToInt32(31 * h + c) == ToInt32(31 * p + c)
  {
    var k := (p - h) / TwoTo32;
    assert p - h == k * TwoTo32;
    var kt := k * TwoTo32;
    assert 31 * h + c == (31 * p + c) - 31 * kt;
    assert -31 * kt == (-31 * k) * TwoTo32;
    ToInt32Shift(31 * p + c, -31 * k);
  }

  /** `Math.abs(v)` */
  function Abs(v: int): nat
  {
    if v < 0 then -v else v
  }

  /** `hashCode(str)`: the loop over the code units, then the magnitude of
      the hash divided by 2^31 - 1. The result lies in [0, 2^31 / (2^31 - 1)]
      and exceeds 1 exactly when the hash is -2^31. */
  method HashCode(s: seq<CodeUnit>) returns (r: real)
    ensures r == Abs(ToInt32(Polynomial(s))) as real / 2147483647.0
    ensures 0.0 <= r
    ensures |s| == 0 ==> r == 0.0
    ensures r <= 1.0 <==> RollingHash(s) != -TwoTo31
  {
    var hash := 0;
    for i := 0 to |s|
      invariant hash == RollingHash(s[..i])
    {
      assert s[..i + 1][..i] == s[..i];
      hash := HashStep(hash, s[i]);
    }
    assert s[..|s|] == s;
    RollingHashIsPolynomial(s);
    r := Abs(hash) as real / 2147483647.0;
  }

  /** Consuming one more code unit is one more step. */
  lemma RollingHashSnoc(s: seq<CodeUnit>, c: CodeUnit)
    ensures RollingHash(s + [c]) == HashStep(RollingHash(s), c)
  {
    assert (s + [c])[..|s|] == s;
  }

  /** A step whose two wraps are given: `hash << 5` is w + k1 2^32 and the
      sum that follows is r + k2 2^32. */
  lemma HashStepValue(hash: int, c: CodeUnit, w: int, k1: int, r: int, k2: int)
    requires IsInt32(w) && hash * 32 == w + k1 * TwoTo32
    requires IsInt32(r) && w - hash + c == r + k2 * TwoTo32
    ensures HashStep(hash, c) == r
  {
    ToInt32Shift(w, k1);
    ToInt32Shift(r, k2);
  }

  /** "xfjfxtf" hashes to -2^31, so its seed is 2^31 / (2^31 - 1) > 1;
      "xfjfxte" hashes to 2^31 - 1 and its seed is exactly 1. */
  lemma HashExtremes()
    ensures RollingHash([120, 102, 106, 102, 120, 116, 102]) == -TwoTo31
    ensures RollingHash([120, 102, 106, 102, 120, 116, 101]) == TwoTo31 - 1
  {
    var s0: seq<CodeUnit> := [];
    RollingHashSnoc(s0, 120);
    HashStepValue(0, 120, 0, 0, 120, 0);
    var s1 := s0 + [120];
    RollingHashSnoc(s1, 102);
    HashStepValue(120, 102, 3840, 0, 3822, 0);
    var s2 := s1 + [102];
    RollingHashSnoc(s2, 106);
    HashStepValue(3822, 106, 122304, 0, 118588, 0);
    var s3 := s2 + [106];
    RollingHashSnoc(s3, 102);
    HashStepValue(118588, 102, 3794816, 0, 3676330, 0);
    var s4 := s3 + [102];
    RollingHashSnoc(s4, 120);
    HashStepValue(3676330, 120, 117642560, 0, 113966350, 0);
    var s5 := s4 + [120];
    RollingHashSnoc(s5, 116);
    HashStepValue(113966350, 116, -648044096, 1, -762010330, 0);
    var s6 := s5 + [116];
    RollingHashSnoc(s6, 102);
    HashStepValue(-762010330, 102, 1385473216, -6, -2147483648, 1);
    RollingHashSnoc(s6, 101);
    HashStepValue(-762010330, 101, 1385473216, -6, 2147483647, 0);
    assert s6 + [102] == [120, 102, 106, 102, 120, 116, 102];
    assert s6 + [101] == [120, 102, 106, 102, 120, 116, 101];
  }
}
