/** The reproducible permutation table of the 3D biome generator:
    `PerlinNoise.generatePermutation` draws each swap partner from a linear
    congruential generator `rng = (rng * 9301 + 49297) % 233280` started at
    the seed. Seeds are JavaScript numbers, so they are modelled as reals. */
module SeededTable {
  import opened PermutationTable

  const Multiplier: real := 9301.0
  const Increment: real := 49297.0
  const Modulus: real := 233280.0

  /** JavaScript's `a % 233280` on numbers: the remainder of truncated
      division, which takes the sign of the dividend. */
  function TruncRem(a: real): (r: real)
    ensures a >= 0.0 ==> 0.0 <= r < Modulus
    ensures a < 0.0 ==> -Modulus < r <= 0.0
    ensures -Modulus < a < Modulus ==> r == a
  {
    if a >= 0.0 then FloorRem(a) else -FloorRem(-a)
  }

  /** The remainder of floored division by 233280: always in [0, 233280). */
  function FloorRem(a: real): (r: real)
    ensures 0.0 <= r < Modulus
    ensures 0.0 <= a < Modulus ==> r == a
  {
    a - (a / Modulus).Floor as real * Modulus
  }

  /** One generator step exactly as the source writes it: a non-negative
      state stays in [0, 233280), while a state below -49297 / 9301 gives a
      state that is not positive. */
  function LcgStepAsWritten(rng: real): (r: real)
    ensures rng >= 0.0 ==> 0.0 <= r < Modulus
    ensures rng * Multiplier + Increment < 0.0 ==> -Modulus < r <= 0.0
  {
    TruncRem(rng * Multiplier + Increment)
  }

  /** One generator step with a floored remainder: the same as the source's
      step whenever the state is non-negative, and never negative. */
  function LcgStep(rng: real): (r: real)
    ensures 0.0 <= r < Modulus
    ensures rng >= 0.0 ==> r == LcgStepAsWritten(rng)
  {
    FloorRem(rng * Multiplier + Increment)
  }

  /** The swap partner `Math.floor((rng / 233280) * (i + 1))`. */
  function SwapIndex(rng: real, i: nat): (j: int)
    ensures 0.0 <= rng < Modulus ==> 0 <= j <= i
  {
    ScaledIndex(rng / Modulus, i)
  }

  /** The generator state after k steps from the seed, as the source computes it. */
  function LcgStateAsWritten(seed: real, k: nat): real
  {
    if k == 0 then seed else LcgStepAsWritten(LcgStateAsWritten(seed, k - 1))
  }

  /** The generator state after k steps from the seed. */
  function LcgState(seed: real, k: nat): (r: real)
    ensures k > 0 ==> 0.0 <= r < Modulus
  {
    if k == 0 then seed else LcgStep(LcgState(seed, k - 1))
  }

  /** For a non-negative seed the two generators never part: every state of
      the source's generator stays in [0, 233280). */
  lemma {:induction false} StatesAgree(seed: real, k: nat)
    requires seed >= 0.0
    ensures LcgStateAsWritten(seed, k) == LcgState(seed, k)
    ensures 0.0 <= LcgStateAsWritten(seed, k)
    ensures k > 0 ==> LcgStateAsWritten(seed, k) < Modulus
  {
    if k > 0 {
      StatesAgree(seed, k - 1);
    }
  }

  /** The partners of the 255 shuffle steps: step k (k = 0..254) works on
      position i = 255 - k after k + 1 generator steps. */
  function SeededSwaps(seed: real): (js: seq<int>)
    ensures |js| == 255 && ValidSwaps(256, js)
  {
    seq(255, k requires 0 <= k < 255 => SwapIndex(LcgState(seed, k + 1), 255 - k))
  }

  /** The table the seed produces: the shuffle of 0..255 followed by its copy. */
  function TableOf(seed: real): (t: seq<int>)
    ensures IsPermutationTable(t)
    ensures ByteTable(t)
  {
    var s := Shuffled(Identity(256), SeededSwaps(seed), 255);
    DoubledShuffleIsTable(SeededSwaps(seed));
    TableCounts(s + s);
    s + s
  }

  /** `generatePermutation`: fill 0..255, shuffle from position 255 down to 1,
      return the table twice over. Identical seeds give identical tables. */
  method GeneratePermutation(seed: real) returns (table: seq<int>)
    ensures table == TableOf(seed)
    ensures IsPermutationTable(table)
  {
    var p := new int[256];
    FillIdentity(p, 256);
    var rng := seed;
    var i := 255;
    ghost var k := 0;
    while i > 0
      invariant 0 <= i <= 255 && k == 255 - i
      invariant rng == LcgState(seed, k)
      invariant p[..256] == Shuffled(Identity(256), SeededSwaps(seed), k)
    {
      rng := ShuffleStep(p, i, rng, seed, k);
      i, k := i - 1, k + 1;
    }
    assert p[..] == p[..256];
    table := p[..] + p[..];
  }

  /** One pass of the shuffle loop: advance the generator, draw the partner
      of position i from the new state and swap the two entries. */
  method ShuffleStep(p: array<int>, i: int, rng: real, ghost seed: real, ghost k: nat) returns (next: real)
    requires p.Length == 256 && 0 < i <= 255 && k == 255 - i
    requires rng == LcgState(seed, k)
    requires p[..256] == Shuffled(Identity(256), SeededSwaps(seed), k)
    modifies p
    ensures next == LcgState(seed, k + 1)
    ensures p[..256] == Shuffled(Identity(256), SeededSwaps(seed), k + 1)
  {
    next := LcgStep(rng);
    var j := SwapIndex(next, i);
    ghost var js := SeededSwaps(seed);
    assert js[k] == j;
    ShuffledStep(Identity(256), js, k);
    assert 256 - k - 1 == i;
    SwapEntries(p, 256, i, j);
  }

  /** For a non-negative seed the model's partners are exactly those of the
      source's generator, so `TableOf` is the table the source builds. */
  lemma NonNegativeSeedAsWritten(seed: real, k: nat)
    requires seed >= 0.0 && k < 255
    ensures SeededSwaps(seed)[k] == SwapIndex(LcgStateAsWritten(seed, k + 1), 255 - k)
    ensures 0 <= SwapIndex(LcgStateAsWritten(seed, k + 1), 255 - k) <= 255 - k
  {
    StatesAgree(seed, k + 1);
  }

  /** With the seed -10 (typed into the seed box, `parseFloat` gives -10) the
      source's first step yields the state -43713 and the swap partner -48:
      not an index of the table. */
  lemma NegativeSeedEscapes()
    ensures LcgStateAsWritten(-10.0, 1) == -43713.0
    ensures SwapIndex(LcgStateAsWritten(-10.0, 1), 255) == -48
  {
    assert LcgStateAsWritten(-10.0, 1) == TruncRem(-43713.0);
    assert FloorRem(43713.0) == 43713.0 by {
      assert (43713.0 / Modulus).Floor == 0;
    }
    assert (-43713.0 / Modulus * 256.0).Floor == -48;
  }
}
