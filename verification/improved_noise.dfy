/** Ken Perlin's "Improved Noise" (SIGGRAPH 2002) over a 512-entry table:
    the lattice hash, the 12-direction gradient selector, the quintic fade and
    the trilinear interpolation. All three noise classes of the repository
    compute exactly this function of the table and the coordinates; the third
    coordinate defaults to 0 in the two-dimensional callers. */
module ImprovedNoise {
  import opened Vectors
  import opened PermutationTable
  import opened RealArith

  /** Perlin's fade curve 6t^5 - 15t^4 + 10t^3: it fixes 0 and 1 and maps
      the unit interval onto itself. */
  function Fade(t: real): (r: real)
    ensures t == 0.0 ==> r == 0.0
    ensures t == 1.0 ==> r == 1.0
    ensures 0.0 <= t <= 1.0 ==> 0.0 <= r <= 1.0
  {
    var r := t * t * t * (t * (t * 6.0 - 15.0) + 10.0);
    assert 0.0 <= t <= 1.0 ==> 0.0 <= r <= 1.0 by {
      if 0.0 <= t <= 1.0 {
        var s := 1.0 - t;
        assert t * (t * 6.0 - 15.0) + 10.0 == 6.0 * (t - 1.25) * (t - 1.25) + 0.625;
        assert 1.0 - r == s * s * s * (6.0 * t * t + 3.0 * t + 1.0);
        MulNonNeg(t, t); MulNonNeg(t * t, t);
        MulNonNeg(t * t * t, t * (t * 6.0 - 15.0) + 10.0);
        MulNonNeg(s, s); MulNonNeg(s * s, s);
        MulNonNeg(s * s * s, 6.0 * t * t + 3.0 * t + 1.0);
      }
    }
    r
  }

  /** Linear interpolation from a (at t = 0) to b (at t = 1). The repository
      writes it three ways: `lerp(t, a, b)` with `a + t * (b - a)` in the 3D
      biome generator's noise class, `lerp(a, b, t)` with `a + (b - a) * t` for
      its colours, and `lerp(a, b, t)` with `a + t * (b - a)` in both plain
      Perlin files; over the reals these are one function. */
  function Lerp(a: real, b: real, t: real): (r: real)
    ensures t == 0.0 ==> r == a
    ensures t == 1.0 ==> r == b
    ensures 0.0 <= t <= 1.0 && a <= b ==> a <= r <= b
    ensures 0.0 <= t <= 1.0 && b <= a ==> b <= r <= a
  {
    var r := a + t * (b - a);
    assert 0.0 <= t <= 1.0 ==> (a <= b ==> a <= r <= b) && (b <= a ==> b <= r <= a) by {
      if 0.0 <= t <= 1.0 {
        assert r - a == t * (b - a) && b - r == (1.0 - t) * (b - a);
        if a <= b { MulNonNeg(t, b - a); MulNonNeg(1.0 - t, b - a); }
        else { MulNonNeg(t, a - b); MulNonNeg(1.0 - t, a - b); }
      }
    }
    r
  }

  /** The gradient each value of `hash & 15` selects: the twelve midpoints of
      the edges of the cube [-1,1]^3, four of them listed twice. */
  const Gradients: seq<Vec3> := [
    Vec3( 1.0,  1.0,  0.0), Vec3(-1.0,  1.0,  0.0), Vec3( 1.0, -1.0,  0.0), Vec3(-1.0, -1.0,  0.0),
    Vec3( 1.0,  0.0,  1.0), Vec3(-1.0,  0.0,  1.0), Vec3( 1.0,  0.0, -1.0), Vec3(-1.0,  0.0, -1.0),
    Vec3( 0.0,  1.0,  1.0), Vec3( 0.0, -1.0,  1.0), Vec3( 0.0,  1.0, -1.0), Vec3( 0.0, -1.0, -1.0),
    Vec3( 1.0,  1.0,  0.0), Vec3( 0.0, -1.0,  1.0), Vec3(-1.0,  1.0,  0.0), Vec3( 0.0, -1.0, -1.0)
  ]

  /** g is the midpoint of an edge of the cube [-1,1]^3: one component 0, the
      other two +1 or -1. */
  predicate IsEdgeDirection(g: Vec3)
  {
    var unit := (c: real) => c == 1.0 || c == -1.0;
    (g.x == 0.0 && unit(g.y) && unit(g.z)) ||
    (g.y == 0.0 && unit(g.x) && unit(g.z)) ||
    (g.z == 0.0 && unit(g.x) && unit(g.y))
  }

  /** The gradient for a hash value: it depends on the low four bits only
      (for every 32-bit integer `hash & 15` is `hash` modulo 16) and it is
      always an edge direction of the cube. */
  function Gradient(hash: int): (g: Vec3)
    ensures IsEdgeDirection(g)
    ensures g == Gradients[hash % 16]
  {
    Gradients[hash % 16]
  }

  /** `grad(hash, x, y, z)`: u is x for h < 8 and y otherwise; v is y for
      h < 4, x for h = 12 or 14, z otherwise; bit 0 negates u, bit 1 negates
      v. The result is the dot product of the selected gradient with (x, y, z). */
  function Grad(hash: int, x: real, y: real, z: real): (r: real)
    ensures r == Dot(Gradient(hash), Vec3(x, y, z))
  {
    var h := hash % 16;
    var u := if h < 8 then x else y;
    var v := if h < 4 then y else if h == 12 || h == 14 then x else z;
    (if h % 2 == 0 then u else -u) + (if (h / 2) % 2 == 0 then v else -v)
  }

  /** `Math.floor(c) & 255`: the lattice cell modulo 256, in 0..255 for every
      input, negative ones included. */
  function Cell(c: real): (k: int)
    ensures 0 <= k < 256
    ensures (c.Floor - k) % 256 == 0
  {
    c.Floor % 256
  }

  /** `c - Math.floor(c)`: the position inside the cell. */
  function Frac(c: real): (f: real)
    ensures 0.0 <= f < 1.0
    ensures c == c.Floor as real ==> f == 0.0
  {
    c - c.Floor as real
  }

  /** The hashes of the four cube edges parallel to the z axis. */
  datatype Corners = Corners(aa: int, ab: int, ba: int, bb: int)

  /** `A = p[X] + Y`, `AA = p[A] + Z`, `AB = p[A + 1] + Z`, `B = p[X + 1] + Y`,
      `BA = p[B] + Z`, `BB = p[B + 1] + Z`. Every table read here stays in
      bounds, and each corner hash is at most 510, so the reads `p[AA + 1]` ...
      `p[BB + 1]` of the noise function use indices of at most 511. */
  function CornerHashes(p: seq<int>, X: int, Y: int, Z: int): (c: Corners)
    requires ByteTable(p)
    requires 0 <= X < 256 && 0 <= Y < 256 && 0 <= Z < 256
    ensures 0 <= c.aa <= 510 && 0 <= c.ab <= 510
    ensures 0 <= c.ba <= 510 && 0 <= c.bb <= 510
  {
    var A := p[X] + Y;
    var B := p[X + 1] + Y;
    Corners(p[A] + Z, p[A + 1] + Z, p[B] + Z, p[B + 1] + Z)
  }

  /** x, y and z are all integers. */
  predicate OnLattice(x: real, y: real, z: real)
  {
    x == x.Floor as real && y == y.Floor as real && z == z.Floor as real
  }

  /** `noise(x, y, z)`: the gradient contributions of the eight cube corners,
      blended by the faded offsets, z outermost. */
  function Noise(p: seq<int>, x: real, y: real, z: real): real
    requires ByteTable(p)
  {
    var X, Y, Z := Cell(x), Cell(y), Cell(z);
    var fx, fy, fz := Frac(x), Frac(y), Frac(z);
    var u, v, w := Fade(fx), Fade(fy), Fade(fz);
    var c := CornerHashes(p, X, Y, Z);
    Lerp(
      Lerp(
        Lerp(Grad(p[c.aa], fx, fy, fz), Grad(p[c.ba], fx - 1.0, fy, fz), u),
        Lerp(Grad(p[c.ab], fx, fy - 1.0, fz), Grad(p[c.bb], fx - 1.0, fy - 1.0, fz), u),
        v),
      Lerp(
        Lerp(Grad(p[c.aa + 1], fx, fy, fz - 1.0), Grad(p[c.ba + 1], fx - 1.0, fy, fz - 1.0), u),
        Lerp(Grad(p[c.ab + 1], fx, fy - 1.0, fz - 1.0), Grad(p[c.bb + 1], fx - 1.0, fy - 1.0, fz - 1.0), u),
        v),
      w)
  }

  /** The field is exactly 0 at every lattice point: each offset is 0, so
      every fade weight is 0, only the corner at the point itself contributes,
      and its contribution is a gradient dotted with the zero vector. */
  lemma NoiseZeroOnLattice(p: seq<int>, x: real, y: real, z: real)
    requires ByteTable(p) && OnLattice(x, y, z)
    ensures Noise(p, x, y, z) == 0.0
  {
    var c := CornerHashes(p, Cell(x), Cell(y), Cell(z));
    assert Frac(x) == 0.0 && Frac(y) == 0.0 && Frac(z) == 0.0;
    assert Fade(0.0) == 0.0;
    assert Grad(p[c.aa], 0.0, 0.0, 0.0) == 0.0;
  }

  /** The field repeats every 256 units along x: the lattice cell is taken
      modulo 256 and the offset inside the cell is unchanged. */
  lemma NoisePeriodicX(p: seq<int>, x: real, y: real, z: real)
    requires ByteTable(p)
    ensures Noise(p, x + 256.0, y, z) == Noise(p, x, y, z)
  {
    assert (x + 256.0).Floor == x.Floor + 256;
    assert Cell(x + 256.0) == Cell(x);
    assert Frac(x + 256.0) == Frac(x);
  }
}
