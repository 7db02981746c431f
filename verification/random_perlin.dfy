/** The `PerlinNoise` class of the two plain Perlin pages, which share one
    algorithm: its constructor fills a zeroed `Uint8Array(512)` with 0..255,
    shuffles that half with partners drawn from `Math.random()`, and copies it
    into the upper half. The 255 draws are supplied by the caller. */
module RandomPerlin {
  import opened PermutationTable
  import opened RandomDraws
  import ImprovedNoise

  /** The partners of the 255 shuffle steps: step k works on position
      i = 255 - k with partner `Math.floor(draws[k] * (i + 1))`. */
  function DrawnSwaps(draws: seq<real>): (js: seq<int>)
    requires |draws| == 255 && UnitDraws(draws)
    ensures |js| == 255 && ValidSwaps(256, js)
  {
    seq(255, k requires 0 <= k < 255 => ScaledIndex(draws[k], 255 - k))
  }

  class PerlinNoise {
    const p: array<int>

    ghost predicate Valid()
      reads this, p
    {
      p.Length == 512 && IsPermutationTable(p[..])
    }

    /** The constructor: fill, shuffle and duplicate a zeroed 512-entry table. */
    constructor (draws: seq<real>)
      requires |draws| == 255 && UnitDraws(draws)
      ensures Valid() && fresh(p)
      ensures var s := Shuffled(Identity(256), DrawnSwaps(draws), 255);
              p[..] == s + s
    {
      var a := new int[512](_ => 0);
      FillIdentity(a, 256);
      ShuffleLowerHalf(a, draws);
      CopyLowerHalf(a);
      DoubledShuffleIsTable(DrawnSwaps(draws));
      p := a;
    }

    /** The constructor's last loop: `p[i + 256] = p[i]` for i in 0..255. */
    static method CopyLowerHalf(a: array<int>)
      requires a.Length == 512
      modifies a
      ensures a[..] == old(a[..256]) + old(a[..256])
    {
      ghost var s := a[..256];
      for i := 0 to 256
        invariant a[..256] == s
        invariant forall k :: 0 <= k < i ==> a[k + 256] == a[k]
      {
        a[i + 256] := a[i];
      }
      assert a[..] == s + s;
    }

    /** The constructor's second loop: for i from 255 down to 1, swap entry i
        with entry `Math.floor(Math.random() * (i + 1))`. */
    static method ShuffleLowerHalf(a: array<int>, draws: seq<real>)
      requires a.Length == 512 && |draws| == 255 && UnitDraws(draws)
      modifies a
      ensures a[..256] == Shuffled(old(a[..256]), DrawnSwaps(draws), 255)
      ensures a[256..] == old(a[256..])
    {
      ghost var js := DrawnSwaps(draws);
      ghost var start := a[..256];
      assert |start| == 256;
      var i := 255;
      ghost var k := 0;
      while i > 0
        invariant 0 <= i <= 255 && k == 255 - i
        invariant a[..256] == Shuffled(start, js, k)
        invariant a[256..] == old(a[256..])
      {
        var j := ScaledIndex(draws[255 - i], i);
        assert js[k] == j;
        ShuffledStep(start, js, k);
        assert |start| - k - 1 == i;
        SwapEntries(a, 256, i, j);
        i, k := i - 1, k + 1;
      }
    }

    /** `noise(x, y, z = 0)`, reading the table this object owns; it is 0
        at every lattice point. */
    function Noise(x: real, y: real, z: real): (r: real)
      requires Valid()
      reads this, p
      ensures ImprovedNoise.OnLattice(x, y, z) ==> r == 0.0
    {
      TableCounts(p[..]);
      var r := ImprovedNoise.Noise(p[..], x, y, z);
      if ImprovedNoise.OnLattice(x, y, z) then
        ImprovedNoise.NoiseZeroOnLattice(p[..], x, y, z);
        r
      else r
    }
  }
}
