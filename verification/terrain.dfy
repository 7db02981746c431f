/** `generateTerrain` of the 3D biome page: a (res + 1)-by-(res + 1) grid of
    vertices over the square [-25, 25]^2, each raised by a six-octave fractal
    height and coloured by the biome classifier, two triangles per grid
    square, and smooth per-vertex normals. The page fixes res at 100. */
module Terrain {
  import opened Vectors
  import opened RealArith
  import opened IntArith
  import opened PermutationTable
  import ImprovedNoise
  import opened Biome
  import opened Mesh
  import SeededTable

  /** `size`: the side of the square the grid covers. */
  const Size: real := 50.0
  /** `resolution`: the number of grid squares along each side. */
  const Resolution: nat := 100

  /** The noise field of a permutation table as a function of the sample
      point; `perlin.noise` and `biomeNoise.noise` of `generateTerrain`. */
  function Sampler(p: seq<int>): (real, real, real) -> real
  {
    (x: real, y: real, z: real) => if ByteTable(p) then ImprovedNoise.Noise(p, x, y, z) else 0.0
  }

  /** The fractal sum of n octaves of a field at (x, z): the first sampled
      at frequency freq with weight amp, each further one at twice the
      frequency and half the weight. The third coordinate is passed on
      unscaled. */
  function Octaves(noise: (real, real, real) -> real, x: real, z: real, c: real, freq: real, amp: real, n: nat): real
    decreases n
  {
    if n == 0 then 0.0
    else noise(x * freq, z * freq, c) * amp + Octaves(noise, x, z, c, freq * 2.0, amp * 0.5, n - 1)
  }

  /** One of the two octave loops of `generateTerrain`: `amplitude` starts
      at 1 and halves, `freq` starts at base and doubles after every octave. */
  method OctaveSum(noise: (real, real, real) -> real, x: real, z: real, c: real, base: real, n: nat) returns (sum: real)
    ensures sum == Octaves(noise, x, z, c, base, 1.0, n)
  {
    sum := 0.0;
    var amplitude := 1.0;
    var freq := base;
    for o := 0 to n
      invariant sum + Octaves(noise, x, z, c, freq, amplitude, n - o) == Octaves(noise, x, z, c, base, 1.0, n)
    {
      sum := sum + noise(x * freq, z * freq, c) * amplitude;
      amplitude := amplitude * 0.5;
      freq := freq * 2.0;
    }
  }

  /** The origin is a lattice point of every table's field at any integer
      depth, so the field is 0 there. */
  lemma SamplerZeroAtOrigin(p: seq<int>, c: real)
    requires ByteTable(p) && c == c.Floor as real
    ensures Sampler(p)(0.0, 0.0, c) == 0.0
  {
    ImprovedNoise.NoiseZeroOnLattice(p, 0.0, 0.0, c);
  }

  /** At the centre of the grid every octave samples the origin, so the
      fractal sum is 0 whatever the frequencies and the number of octaves,
      for any field that is 0 there. */
  lemma {:induction false} OctavesAtOrigin(noise: (real, real, real) -> real, c: real, freq: real, amp: real, n: nat)
    requires noise(0.0, 0.0, c) == 0.0
    ensures Octaves(noise, 0.0, 0.0, c, freq, amp, n) == 0.0
    decreases n
  {
    if n > 0 {
      OctavesAtOrigin(noise, c, freq * 2.0, amp * 0.5, n - 1);
      assert 0.0 * freq == 0.0;
    }
  }

  // ---------------------------------------------------------------- grid

  /** `(i / resolution - 0.5) * size`: grid index i as a world coordinate. */
  function GridCoord(i: nat, res: nat): real
    requires res > 0
  {
    (i as real / res as real - 0.5) * Size
  }

  /** Grid indices 0 .. res span the square from -25 to 25; index 0 and
      index res are its two edges. */
  lemma GridCoordRange(i: nat, res: nat)
    requires 0 < res && i <= res
    ensures -Size / 2.0 <= GridCoord(i, res) <= Size / 2.0
    ensures i == 0 ==> GridCoord(i, res) == -Size / 2.0
    ensures i == res ==> GridCoord(i, res) == Size / 2.0
  {
    var q := i as real / res as real;
    var w := res as real;
    assert q * w == i as real;
    if q < 0.0 { MulPos(-q, w); }
    if q > 1.0 { MulPos(q - 1.0, w); }
    if i == res {
      assert q * w == w;
      UnitFactor(q, w, w);
    }
  }

  /** The inputs the grid depends on: the height and biome permutation
      tables and the three slider values. */
  datatype Field = Field(perlin: seq<int>, biome: seq<int>, waterLevel: real, mountainFreq: real, smoothness: nat)

  /** Both tables can be read by the noise function, and neither blend of
      the classifier divides by zero. */
  predicate Valid(f: Field)
  {
    ByteTable(f.perlin) && ByteTable(f.biome) && f.waterLevel != 0.0 && f.mountainFreq != 0.0
  }

  /** The fractal height at grid point (z, x): six octaves of the height
      table from frequency 0.03 at depth 0. */
  function HeightAt(f: Field, res: nat, z: nat, x: nat): real
    requires res > 0
  {
    Octaves(Sampler(f.perlin), GridCoord(x, res), GridCoord(z, res), 0.0, 0.03, 1.0, 6)
  }

  /** The biome value at grid point (z, x): `smoothness` octaves of the
      biome table from frequency 0.02 at depth 10, moved from [-1, 1] to
      [0, 1]. */
  function BiomeAt(f: Field, res: nat, z: nat, x: nat): real
    requires res > 0
  {
    (Octaves(Sampler(f.biome), GridCoord(x, res), GridCoord(z, res), 10.0, 0.02, 1.0, f.smoothness) + 1.0) / 2.0
  }

  /** The classification of grid point (z, x). */
  function ShadeAt(f: Field, res: nat, z: nat, x: nat): Shade
    requires Valid(f) && res > 0
  {
    Classify(BiomeAt(f, res, z, x), HeightAt(f, res, z, x), f.waterLevel, f.mountainFreq)
  }

  /** What the vertex loop pushes for one grid point: onto `vertices` the
      position, onto `colors` the colour, onto `normals` the placeholder
      normal (0, 1, 0). */
  datatype Attribute = Position | Colour | Upward

  /** The attribute pushed for a grid point at (xPos, zPos) classified as
      shade. */
  function AttributeOf(shade: Shade, xPos: real, zPos: real, a: Attribute): Vec3
  {
    match a
    case Position => Vec3(xPos, shade.height, zPos)
    case Colour => var c := ShadeColor(shade); Vec3(c.r, c.g, c.b)
    case Upward => Vec3(0.0, 1.0, 0.0)
  }

  function AttributeAt(f: Field, res: nat, z: nat, x: nat, a: Attribute): Vec3
    requires Valid(f) && res > 0
  {
    AttributeOf(ShadeAt(f, res, z, x), GridCoord(x, res), GridCoord(z, res), a)
  }

  /** One attribute of every grid point, as a function of (z, x). */
  function Attributes(f: Field, res: nat, a: Attribute): (nat, nat) -> Vec3
  {
    (z: nat, x: nat) => if Valid(f) && res > 0 then AttributeAt(f, res, z, x, a) else Zero
  }

  /** Read at a grid point, the attribute functions give that point's
      attributes. */
  lemma AttributesAt(f: Field, res: nat, z: nat, x: nat)
    requires Valid(f) && res > 0
    ensures Attributes(f, res, Position)(z, x) == AttributeAt(f, res, z, x, Position)
    ensures Attributes(f, res, Colour)(z, x) == AttributeAt(f, res, z, x, Colour)
    ensures Attributes(f, res, Upward)(z, x) == AttributeAt(f, res, z, x, Upward)
  {
  }

  /** The triples pushed for grid points (z, 0) .. (z, n - 1). */
  function Row(cell: (nat, nat) -> Vec3, z: nat, n: nat): (s: seq<real>)
    ensures |s| == 3 * n
  {
    if n == 0 then [] else Row(cell, z, n - 1) + Triple(cell(z, n - 1))
  }

  /** The triples pushed for rows 0 .. n - 1, each of w grid points. */
  function Rows(cell: (nat, nat) -> Vec3, w: nat, n: nat): (s: seq<real>)
    ensures |s| == 3 * (n * w)
  {
    if n == 0 then []
    else
      var prev := Rows(cell, w, n - 1);
      assert n * w == (n - 1) * w + w;
      prev + Row(cell, n - 1, w)
  }

  /** Grid point x of a row is vertex x of that row's triples. */
  lemma {:induction false} RowAt(cell: (nat, nat) -> Vec3, z: nat, n: nat, x: nat)
    requires x < n
    ensures IsVertex(Row(cell, z, n), x)
    ensures TripleAt(Row(cell, z, n), x) == cell(z, x)
  {
    if x < n - 1 {
      RowAt(cell, z, n - 1, x);
    }
  }

  /** Grid point (z, x) is vertex z w + x of the flat list: the row-major
      layout the index list relies on. */
  lemma {:induction false} GridLayout(cell: (nat, nat) -> Vec3, w: nat, n: nat, z: nat, x: nat)
    requires z < n && x < w
    ensures IsVertex(Rows(cell, w, n), z * w + x)
    ensures TripleAt(Rows(cell, w, n), z * w + x) == cell(z, x)
  {
    var prev := Rows(cell, w, n - 1);
    var row := Row(cell, n - 1, w);
    RowMajorBound(z, x, n, w);
    if z < n - 1 {
      GridLayout(cell, w, n - 1, z, x);
    } else {
      RowAt(cell, z, w, x);
      assert z * w == (n - 1) * w;
      assert TripleAt(prev + row, z * w + x) == TripleAt(row, x);
    }
  }

  /** The first half of the inner vertex loop's body: the coordinates of
      grid point (z, x), its two octave sums and its classification. */
  method Shading(f: Field, res: nat, z: nat, x: nat) returns (xPos: real, zPos: real, shade: Shade)
    requires Valid(f) && res > 0
    ensures xPos == GridCoord(x, res) && zPos == GridCoord(z, res)
    ensures shade == ShadeAt(f, res, z, x)
  {
    xPos := GridCoord(x, res);
    zPos := GridCoord(z, res);
    var height, biomeValue := OctaveSums(f, res, z, x);
    shade := Classify(biomeValue, height, f.waterLevel, f.mountainFreq);
  }

  /** The two octave sums at grid point (z, x): the height, and the biome
      value moved to [0, 1]. */
  method OctaveSums(f: Field, res: nat, z: nat, x: nat) returns (height: real, biomeValue: real)
    requires res > 0
    ensures height == HeightAt(f, res, z, x) && biomeValue == BiomeAt(f, res, z, x)
  {
    var xPos := GridCoord(x, res);
    var zPos := GridCoord(z, res);
    height := OctaveSum(Sampler(f.perlin), xPos, zPos, 0.0, 0.03, 6);
    biomeValue := OctaveSum(Sampler(f.biome), xPos, zPos, 10.0, 0.02, f.smoothness);
    biomeValue := (biomeValue + 1.0) / 2.0;
  }

  /** The position, colour and placeholder normal of grid point (z, x), as
      the body of the inner vertex loop computes them. */
  method Vertex(f: Field, res: nat, z: nat, x: nat) returns (position: Vec3, colour: Vec3, normal: Vec3)
    requires Valid(f) && res > 0
    ensures position == AttributeAt(f, res, z, x, Position)
    ensures colour == AttributeAt(f, res, z, x, Colour)
    ensures normal == AttributeAt(f, res, z, x, Upward)
  {
    var xPos, zPos, shade := Shading(f, res, z, x);
    position, colour, normal := Assemble(xPos, zPos, shade);
  }

  /** The second half of the inner vertex loop's body: the position at the
      shaded height, the blended colour and the upward placeholder normal. */
  method Assemble(xPos: real, zPos: real, shade: Shade) returns (position: Vec3, colour: Vec3, normal: Vec3)
    ensures position == AttributeOf(shade, xPos, zPos, Position)
    ensures colour == AttributeOf(shade, xPos, zPos, Colour)
    ensures normal == AttributeOf(shade, xPos, zPos, Upward)
  {
    var color := ShadeColor(shade);
    position := Vec3(xPos, shade.height, zPos);
    colour := Vec3(color.r, color.g, color.b);
    normal := Vec3(0.0, 1.0, 0.0);
  }

  /** One pass of the outer vertex loop: row z of positions, colours and
      placeholder normals. */
  method BuildRow(f: Field, res: nat, z: nat) returns (vs: seq<real>, cs: seq<real>, ns: seq<real>)
    requires Valid(f) && res > 0
    ensures vs == Row(Attributes(f, res, Position), z, res + 1)
    ensures cs == Row(Attributes(f, res, Colour), z, res + 1)
    ensures ns == Row(Attributes(f, res, Upward), z, res + 1)
  {
    vs, cs, ns := [], [], [];
    for x := 0 to res + 1
      invariant vs == Row(Attributes(f, res, Position), z, x)
      invariant cs == Row(Attributes(f, res, Colour), z, x)
      invariant ns == Row(Attributes(f, res, Upward), z, x)
    {
      var position, colour, normal := Vertex(f, res, z, x);
      AttributesAt(f, res, z, x);
      vs := vs + [position.x, position.y, position.z];
      cs := cs + [colour.x, colour.y, colour.z];
      ns := ns + [normal.x, normal.y, normal.z];
    }
  }

  /** One attribute of every vertex of a grid of res squares a side, row by
      row. */
  function Grid(f: Field, res: nat, a: Attribute): (s: seq<real>)
    ensures |s| == 3 * ((res + 1) * (res + 1))
  {
    Rows(Attributes(f, res, a), res + 1, res + 1)
  }

  /** The vertex loops: every row of the grid, row by row. */
  method BuildVertices(f: Field, res: nat) returns (vertices: seq<real>, colors: seq<real>, normals: seq<real>)
    requires Valid(f) && res > 0
    ensures vertices == Grid(f, res, Position)
    ensures colors == Grid(f, res, Colour)
    ensures normals == Grid(f, res, Upward)
  {
    vertices, colors, normals := [], [], [];
    for z := 0 to res + 1
      invariant vertices == Rows(Attributes(f, res, Position), res + 1, z)
      invariant colors == Rows(Attributes(f, res, Colour), res + 1, z)
      invariant normals == Rows(Attributes(f, res, Upward), res + 1, z)
    {
      var vs, cs, ns := BuildRow(f, res, z);
      vertices, colors, normals := vertices + vs, colors + cs, normals + ns;
    }
  }

  /** The centre of an even grid lies at the origin; there both octave sums
      vanish, so its raw height is 0, its biome value is 0.5, and its height
      and colour are those the classifier gives these two, whatever the
      seed. */
  lemma CentreVertex(f: Field)
    requires Valid(f)
    ensures HeightAt(f, Resolution, Resolution / 2, Resolution / 2) == 0.0
    ensures BiomeAt(f, Resolution, Resolution / 2, Resolution / 2) == 0.5
    ensures ShadeAt(f, Resolution, Resolution / 2, Resolution / 2) ==
            Classify(0.5, 0.0, f.waterLevel, f.mountainFreq)
  {
    assert GridCoord(Resolution / 2, Resolution) == 0.0;
    SamplerZeroAtOrigin(f.perlin, 0.0);
    OctavesAtOrigin(Sampler(f.perlin), 0.0, 0.03, 1.0, 6);
    SamplerZeroAtOrigin(f.biome, 10.0);
    OctavesAtOrigin(Sampler(f.biome), 10.0, 0.02, 1.0, f.smoothness);
  }

  // ---------------------------------------------------------------- mesh

  /** The four arrays `generateTerrain` returns. */
  datatype TerrainMesh = TerrainMesh(vertices: seq<real>, normals: seq<real>, colors: seq<real>, indices: seq<int>)

  /** The smooth normals of a vertex list under an index list. */
  function SmoothedNormals(vs: seq<real>, indices: seq<int>, sqrt: real -> real): seq<real>
    requires |indices| % 3 == 0 && IndicesIn(indices, vs)
  {
    NormalizedPrefix(Accumulate(seq(|vs|, _ => 0.0), vs, indices, |indices| / 3), sqrt, |vs| / 3)
  }

  /** Indices below the number of vertices name vertices. */
  lemma IndicesBelowVertexCount(indices: seq<int>, vs: seq<real>, n: nat)
    requires |vs| == 3 * n
    requires forall i :: 0 <= i < |indices| ==> 0 <= indices[i] < n
    ensures IndicesIn(indices, vs)
  {
  }

  /** Everything of `generateTerrain` after the two tables are built, for a
      grid of res squares a side: the vertex and colour lists of the grid,
      its index list, every index naming a vertex, and the smooth normals. */
  method BuildMesh(f: Field, res: nat, sqrt: real -> real) returns (mesh: TerrainMesh)
    requires Valid(f) && res > 0
    ensures mesh.vertices == Grid(f, res, Position)
    ensures mesh.colors == Grid(f, res, Colour)
    ensures mesh.indices == QuadRows(res, res)
    ensures |mesh.vertices| == |mesh.colors| == 3 * ((res + 1) * (res + 1))
    ensures |mesh.indices| == 6 * res * res
    ensures forall i :: 0 <= i < |mesh.indices| ==> 0 <= mesh.indices[i] < (res + 1) * (res + 1)
    ensures |mesh.indices| % 3 == 0 && IndicesIn(mesh.indices, mesh.vertices)
    ensures mesh.normals == SmoothedNormals(mesh.vertices, mesh.indices, sqrt)
    ensures |mesh.normals| == |mesh.vertices|
  {
    var vertices, colors, normals := BuildVertices(f, res);
    var indices := BuildIndices(res);
    ThreeDivides((res + 1) * (res + 1));
    SixMultipleDivides(res, res);
    IndicesBelowVertexCount(indices, vertices, (res + 1) * (res + 1));
    var smooth := SmoothNormals(vertices, indices, sqrt);
    mesh := TerrainMesh(vertices, smooth, colors, indices);
  }

  /** The seed of the biome table: 1.5 times the seed of the height table. */
  function BiomeSeed(seed: real): real
  {
    seed * 1.5
  }

  /** `generateTerrain(waterLevel, mountainFreq, smoothness)` for a seed
      already read: 101 x 101 vertices and colours laid out row by row as
      the grid specifies, two triangles per grid square with every index
      below 10201 (so the 16-bit index buffer holds them all), and normals
      that are the normalised sums of the face normals around each vertex. */
  method GenerateTerrain(waterLevel: real, mountainFreq: real, smoothness: nat, seed: real, sqrt: real -> real)
    returns (mesh: TerrainMesh)
    requires waterLevel != 0.0 && mountainFreq != 0.0
    ensures var f := Field(SeededTable.TableOf(seed), SeededTable.TableOf(BiomeSeed(seed)), waterLevel, mountainFreq, smoothness);
            Valid(f) &&
            mesh.vertices == Grid(f, Resolution, Position) &&
            mesh.colors == Grid(f, Resolution, Colour)
    ensures mesh.indices == QuadRows(Resolution, Resolution)
    ensures |mesh.vertices| == |mesh.colors| == |mesh.normals| == 3 * 101 * 101
    ensures |mesh.indices| == 6 * 100 * 100
    ensures forall i :: 0 <= i < |mesh.indices| ==> 0 <= mesh.indices[i] < 101 * 101 < 65536
    ensures |mesh.indices| % 3 == 0 && IndicesIn(mesh.indices, mesh.vertices)
    ensures mesh.normals == SmoothedNormals(mesh.vertices, mesh.indices, sqrt)
  {
    var perlin := SeededTable.GeneratePermutation(seed);
    var biomeNoise := SeededTable.GeneratePermutation(BiomeSeed(seed));
    var f := Field(perlin, biomeNoise, waterLevel, mountainFreq, smoothness);
    mesh := BuildMesh(f, Resolution, sqrt);
  }
}
