# Random Biome Generator — a verified model of its noise and terrain core

The Random Biome Generator is a set of browser pages that draw procedural
noise and a 3D terrain. Its core, modelled here, has four parts:

- **Gradient noise.** This is Ken Perlin's "Improved Noise" over a 512-entry
  permutation table. The table is a shuffle of 0..255 followed by a copy of
  itself. The 3D biome page draws the shuffle from a seeded linear
  congruential generator; the two plain Perlin pages draw it from
  `Math.random()`.
- **Cellular (Worley) noise.** A set of drifting feature points, the distance
  to the nearest one, and the gap between the nearest and the second nearest.
- **Terrain generation** (`generateTerrain` of the 3D biome page):
  - a 101 x 101 grid of vertices over [-25, 25]^2;
  - six octaves of height noise, plus `smoothness` octaves of biome noise;
  - a five-band biome classifier with a height transform and a colour blend
    per band;
  - two triangles per grid square;
  - smooth per-vertex normals: face normals summed at the corners, then
    normalised.
- **The seed hash** (`hashCode`). A text seed is turned into a number with a
  32-bit rolling hash.

JavaScript numbers are modelled as `real`, and integer wrap-around is written
out explicitly. Operations that loop or update arrays in place are methods,
proved against specification functions; pure computations are functions.

| module | file | models |
|---|---|---|
| `Vectors` | vectors.dfy | `cross`, vector difference and dot product |
| `PermutationTable` | permutation.dfy | identity fill, swap, Durstenfeld shuffle, the doubled table |
| `ImprovedNoise` | improved_noise.dfy | `fade`, `lerp`, `grad`, `noise` (shared by all three noise classes) |
| `SeededTable` | seeded_table.dfy | `generatePermutation` with its LCG |
| `RandomPerlin` | random_perlin.dfy | the `PerlinNoise` class of the two plain Perlin pages |
| `Biome` | biome.dfy | `smoothstep`, colour `lerp`, thresholds and the band classifier |
| `Mesh` | mesh.dfy | index list, normal accumulation, `normalize` and the normalisation loop |
| `Terrain` | terrain.dfy | octave sums, grid vertices, `generateTerrain` |
| `SeedHash` | seed_hash.dfy | `hashCode` |
| `Worley` | worley.dfy | the `WorleyNoise` class |
| `RandomDraws` | draws.dfy | the values `Math.random()` can return |
| `RealArith`, `IntArith` | arith.dfy | sign and product facts used by the proofs |

## Model

| member | source | states |
|---|---|---|
| Vectors.Cross | cases/4.3DBiome/3DBiome.js:226-232 | definition; its properties are in `CrossPerpendicular` and `CrossDegenerate` |
| Vectors.CrossPerpendicular | cases/4.3DBiome/3DBiome.js:226-232 | the cross product is orthogonal to both of its arguments |
| Vectors.CrossDegenerate | cases/4.3DBiome/3DBiome.js:226-232 | a vector crossed with itself or with zero gives zero, so a degenerate face adds no normal |
| PermutationTable.Identity | cases/4.3DBiome/3DBiome.js:9-10 | the fill gives n entries, entry i holding i |
| PermutationTable.IdentityCount | cases/4.3DBiome/3DBiome.js:9-10 | the filled table holds every value of 0..n-1 once and nothing else |
| PermutationTable.Swap | cases/4.3DBiome/3DBiome.js:16 | the destructuring swap exchanges entries i and j, keeps every other entry and the multiset of values |
| PermutationTable.ScaledIndex | cases/PerlinNoise/PerlinNoise.js:14 | `floor(u * (i + 1))` is a legal partner in [0, i] for every draw u in [0, 1) |
| PermutationTable.Shuffled | cases/4.3DBiome/3DBiome.js:13-17 | any number of shuffle steps with legal partners keeps the length and rearranges the values |
| PermutationTable.ShuffledStep | cases/4.3DBiome/3DBiome.js:13-17 | step k + 1 of the shuffle swaps position n - k - 1 with its k-th partner |
| PermutationTable.FillIdentity | cases/4.3DBiome/3DBiome.js:10 | after the fill loop the first n entries are 0..n-1 and the entries from n on are unchanged |
| PermutationTable.SwapEntries | cases/4.3DBiome/3DBiome.js:16 | the in-place swap of two entries below n has the effect of `Swap` on the first n entries and leaves the rest of the array unchanged |
| PermutationTable.DoubledShuffleIsTable | cases/4.3DBiome/3DBiome.js:19 | a shuffle of 0..255 followed by itself has 512 entries: a permutation of 0..255 with entry i + 256 equal to entry i |
| PermutationTable.TableCounts | cases/4.3DBiome/3DBiome.js:19 | every entry of such a table is a byte, and every byte value occurs exactly twice |
| ImprovedNoise.Fade | cases/4.3DBiome/3DBiome.js:22-25 | the fade curve fixes 0 and 1 and maps [0, 1] into [0, 1] |
| ImprovedNoise.Lerp | cases/4.3DBiome/3DBiome.js:27-29 | interpolation gives a at t = 0 and b at t = 1, and stays between a and b for t in [0, 1] |
| ImprovedNoise.Gradient | cases/4.3DBiome/3DBiome.js:31-36 | each hash selects one of the twelve cube-edge directions, by its low four bits only |
| ImprovedNoise.Grad | cases/4.3DBiome/3DBiome.js:31-36 | `grad` is the dot product of the selected edge direction with (x, y, z) |
| ImprovedNoise.Cell | cases/4.3DBiome/3DBiome.js:39-41 | `floor(c) & 255` lies in 0..255 for every input, negatives included, and is floor(c) modulo 256 |
| ImprovedNoise.Frac | cases/4.3DBiome/3DBiome.js:43-45 | the offset inside the cell lies in [0, 1) and is 0 at integers |
| ImprovedNoise.CornerHashes | cases/4.3DBiome/3DBiome.js:51-56 | every table read of the lattice hash is in bounds, and each corner hash is at most 510, so every later read uses an index of at most 511 |
| ImprovedNoise.Noise | cases/4.3DBiome/3DBiome.js:38-69 | definition over a byte table, every read in bounds by `CornerHashes`; its properties are in `NoiseZeroOnLattice` and `NoisePeriodicX` |
| ImprovedNoise.NoiseZeroOnLattice | cases/4.3DBiome/3DBiome.js:38-69 | the noise is exactly 0 at every integer lattice point |
| ImprovedNoise.NoisePeriodicX | cases/4.3DBiome/3DBiome.js:38-69 | the noise repeats with period 256 along x |
| SeededTable.TruncRem | cases/4.3DBiome/3DBiome.js:14 | JavaScript `%` takes the dividend's sign and leaves values inside (-233280, 233280) unchanged |
| SeededTable.FloorRem | cases/4.3DBiome/3DBiome.js:14 | the floored remainder always lies in [0, 233280) |
| SeededTable.LcgStepAsWritten | cases/4.3DBiome/3DBiome.js:14 | the source's step keeps a non-negative state in [0, 233280), and turns a negative sum `rng * 9301 + 49297` into a state in (-233280, 0] |
| SeededTable.LcgStateAsWritten | cases/4.3DBiome/3DBiome.js:12-14 | definition of the source's states; its properties are in `StatesAgree` and `NegativeSeedEscapes` |
| SeededTable.LcgStep | cases/4.3DBiome/3DBiome.js:14 | the generator step agrees with the source's step on every non-negative state and is never negative |
| SeededTable.SwapIndex | cases/4.3DBiome/3DBiome.js:15 | a state in [0, 233280) gives a swap partner in [0, i] |
| SeededTable.LcgState | cases/4.3DBiome/3DBiome.js:12-14 | every state after the seed lies in [0, 233280) |
| SeededTable.StatesAgree | cases/4.3DBiome/3DBiome.js:12-14 | from a non-negative seed the source's generator and the model's coincide at every step and stay in range |
| SeededTable.SeededSwaps | cases/4.3DBiome/3DBiome.js:13-16 | the 255 partners drawn from any seed are legal for positions 255 down to 1 |
| SeededTable.TableOf | cases/4.3DBiome/3DBiome.js:8-20 | the table of every seed is a permutation table of bytes |
| SeededTable.GeneratePermutation | cases/4.3DBiome/3DBiome.js:8-20 | the fill, shuffle and duplicate loops return the seed's table, which is a permutation table (equal seeds give equal tables) |
| SeededTable.ShuffleStep | cases/4.3DBiome/3DBiome.js:13-17 | one pass of the shuffle loop advances the generator one state and the table one shuffle step |
| SeededTable.NonNegativeSeedAsWritten | cases/4.3DBiome/3DBiome.js:12-16 | for a non-negative seed the model's partners are exactly the source's, each in [0, i] |
| SeededTable.NegativeSeedEscapes | cases/4.3DBiome/3DBiome.js:12-15 | seed -10 drives the source's first swap partner to -48, outside the table |
| RandomPerlin.DrawnSwaps | cases/PerlinNoise/PerlinNoise.js:13-16 | 255 draws of `Math.random()` give legal partners for positions 255 down to 1 |
| RandomPerlin.PerlinNoise.constructor | cases/PerlinNoise/PerlinNoise.js:10-18 | the constructed table is the shuffle of 0..255 by the draws, followed by its copy, and is a permutation table |
| RandomPerlin.PerlinNoise.ShuffleLowerHalf | cases/2.PerlinNoise/PerlinNoise.js:17-20 | the in-place shuffle loop leaves the lower half equal to the shuffle of its old contents by the drawn partners, and the upper half unchanged |
| RandomPerlin.PerlinNoise.CopyLowerHalf | cases/2.PerlinNoise/PerlinNoise.js:23 | the copy loop makes the array its old lower half twice over |
| RandomPerlin.PerlinNoise.Noise | cases/2.PerlinNoise/PerlinNoise.js:33-66 | noise of the object's table is 0 at every lattice point |
| Biome.LerpColor | cases/4.3DBiome/3DBiome.js:323-327 | the colour blend gives the first colour at 0, the second at 1, and stays in the unit cube between unit-cube colours |
| Biome.Clamp01 | cases/4.3DBiome/3DBiome.js:248 | the clamp lies in [0, 1], is the identity there and saturates outside |
| Biome.RatioBounds | cases/4.3DBiome/3DBiome.js:248 | for increasing edges the ratio is at most 0 up to edge0 and at least 1 from edge1 |
| Biome.Hermite | cases/4.3DBiome/3DBiome.js:249 | the cubic fixes 0 and 1 and maps [0, 1] into [0, 1] |
| Biome.Smoothstep | cases/4.3DBiome/3DBiome.js:247-250 | smoothstep lies in [0, 1], and for increasing edges is 0 up to edge0 and 1 from edge1 |
| Biome.ThresholdsFor | cases/4.3DBiome/3DBiome.js:311-313 | the beach band is 0.05 wide, the hills band 0.2 wide, and the mountain threshold is 1 minus the mountain frequency |
| Biome.ThresholdsOrdered | cases/4.3DBiome/3DBiome.js:311-313 | the four thresholds are strictly increasing if and only if water level plus mountain frequency is below 0.75 |
| Biome.SelectBand | cases/4.3DBiome/3DBiome.js:319-375 | the chosen band is the first, in test order, whose upper threshold exceeds the biome value |
| Biome.SelectBandUnique | cases/4.3DBiome/3DBiome.js:319-375 | no other band satisfies that description |
| Biome.OceanDepth | cases/4.3DBiome/3DBiome.js:322 | the ocean blend lies in (0, 1] for a non-negative biome value below the water level |
| Biome.Classify | cases/4.3DBiome/3DBiome.js:311-375 | the band is the selected one, the height is that band's transform, every blend weight lies in [0, 1] (the ocean's for non-negative values), and the snow colours are used if and only if a mountain vertex is above height 8 |
| Biome.ClassifiedColorInUnitCube | cases/4.3DBiome/3DBiome.js:316-375 | every colour the classifier gives for a non-negative biome value is a valid RGB colour |
| Terrain.OctaveSum | cases/4.3DBiome/3DBiome.js:287-295 | the octave loop computes the fractal sum with halving amplitude and doubling frequency |
| Terrain.SamplerZeroAtOrigin | cases/4.3DBiome/3DBiome.js:292 | every table's noise is 0 at the origin at any integer depth |
| Terrain.OctavesAtOrigin | cases/4.3DBiome/3DBiome.js:286-306 | the fractal sum at the grid centre is 0 for any number of octaves |
| Terrain.GridCoordRange | cases/4.3DBiome/3DBiome.js:283-284 | grid indices 0..res map into [-25, 25], with 0 and res on the two edges |
| Terrain.Assemble | cases/4.3DBiome/3DBiome.js:377-379 | a classified point pushes its position at the shaded height, the blended colour and the placeholder normal (0, 1, 0) |
| Terrain.RowAt | cases/4.3DBiome/3DBiome.js:282-380 | grid point x of a row is vertex x of the row's triples |
| Terrain.GridLayout | cases/4.3DBiome/3DBiome.js:281-381 | grid point (z, x) is vertex z w + x of the flat lists, the row-major layout the index list relies on |
| Terrain.OctaveSums | cases/4.3DBiome/3DBiome.js:286-308 | the two octave loops give the point's height and its biome value moved to [0, 1] |
| Terrain.Shading | cases/4.3DBiome/3DBiome.js:283-375 | the world coordinates and the classification of grid point (z, x) |
| Terrain.Vertex | cases/4.3DBiome/3DBiome.js:283-379 | the position, colour and placeholder normal the loop body pushes for grid point (z, x) |
| Terrain.BuildRow | cases/4.3DBiome/3DBiome.js:282-380 | one pass of the outer vertex loop pushes row z of the grid |
| Terrain.Grid | cases/4.3DBiome/3DBiome.js:281-381 | each attribute list holds three entries for each of the (res + 1)^2 grid points |
| Terrain.BuildVertices | cases/4.3DBiome/3DBiome.js:281-381 | the vertex loops build the position, colour and normal lists of the whole grid, row by row |
| Terrain.CentreVertex | cases/4.3DBiome/3DBiome.js:283-308 | at the grid centre the raw height is 0 and the biome value 0.5 for every seed, so its shade depends only on the sliders |
| Terrain.BuildMesh | cases/4.3DBiome/3DBiome.js:281-426 | the grid lists, an index list naming only grid vertices, and normals that are the smoothed face normals |
| Terrain.GenerateTerrain | cases/4.3DBiome/3DBiome.js:257-434 | for a seed already read: the two seeded tables (the source's own tables for a seed of at least 0), 101 x 101 vertices and colours, 60000 indices all below 10201 (so they fit 16 bits), and the smoothed normals |
| Mesh.QuadRow | cases/4.3DBiome/3DBiome.js:385-393 | a row of n squares contributes 6 n indices |
| Mesh.QuadRows | cases/4.3DBiome/3DBiome.js:384-394 | n rows of res squares contribute 6 n res indices |
| Mesh.QuadCorners | cases/4.3DBiome/3DBiome.js:386-389 | the bottom corners lie one row of res + 1 below the top ones, and the bottom-right corner is a grid vertex |
| Mesh.AppendQuad | cases/4.3DBiome/3DBiome.js:391-392 | appending a square's two triangles keeps every index on the grid and every triangle non-degenerate |
| Mesh.BuildIndices | cases/4.3DBiome/3DBiome.js:384-394 | the index loops give 6 res^2 indices, every one a grid vertex and no triangle with a repeated corner |
| Mesh.AppendRow | cases/4.3DBiome/3DBiome.js:385-393 | the inner index loop appends row z's squares and keeps both invariants |
| Mesh.AddRounds | cases/4.3DBiome/3DBiome.js:413-417 | the inner j loop keeps the length of the normal array |
| Mesh.Accumulate | cases/4.3DBiome/3DBiome.js:399-418 | the accumulation keeps the length of the normal array |
| Mesh.AddRoundsEffect | cases/4.3DBiome/3DBiome.js:413-417 | a triangle with distinct corners adds its normal once to each corner and leaves every other entry alone |
| Mesh.AddRoundsNext | cases/4.3DBiome/3DBiome.js:414-416 | the three single-entry updates of round j are round j + 1 |
| Mesh.AddAtCorners | cases/4.3DBiome/3DBiome.js:413-417 | the in-place j loop adds the normal at the three corners |
| Mesh.FaceNormalAt | cases/4.3DBiome/3DBiome.js:400-411 | the corners read from the flat vertex list give the triangle's face normal |
| Mesh.AccumulateNormals | cases/4.3DBiome/3DBiome.js:399-418 | the accumulation loop adds every triangle's face normal at its corners |
| Mesh.AddFace | cases/4.3DBiome/3DBiome.js:400-417 | one pass of the accumulation loop adds triangle t |
| Mesh.AccumulateNext | cases/4.3DBiome/3DBiome.js:399-418 | adding the next triangle extends the accumulation by one |
| Mesh.Normalize | cases/4.3DBiome/3DBiome.js:221-224 | definition; its properties are in `NormalizeZero` and `NormalizeUnit` |
| Mesh.NormalizeZero | cases/4.3DBiome/3DBiome.js:221-224 | `normalize` maps the zero vector to zero, whatever the square root gives |
| Mesh.NormalizeUnit | cases/4.3DBiome/3DBiome.js:221-224 | with an exact square root, a non-zero vector becomes a unit vector that gives the vector back when scaled by its length |
| Mesh.NormalizedPrefix | cases/4.3DBiome/3DBiome.js:421-426 | normalising n vertices gives 3 n entries |
| Mesh.NormalizedPrefixAt | cases/4.3DBiome/3DBiome.js:421-426 | vertex k of the output is vertex k of the input, normalised |
| Mesh.NormalizeStep | cases/4.3DBiome/3DBiome.js:422-425 | overwriting vertex t with its normalisation extends the normalised prefix |
| Mesh.NormalizeVertex | cases/4.3DBiome/3DBiome.js:422-425 | one pass of the normalisation loop normalises vertex t in place |
| Mesh.NormalizeAll | cases/4.3DBiome/3DBiome.js:421-426 | the normalisation loop replaces every vertex by its normalisation |
| Mesh.SmoothNormals | cases/4.3DBiome/3DBiome.js:397-426 | the normal pass gives the normalised sums of the face normals, one per vertex |
| SeedHash.ToInt32 | cases/4.3DBiome/3DBiome.js:439-440 | the 32-bit wrap lies in the signed range, is congruent modulo 2^32, and fixes signed 32-bit values |
| SeedHash.HashStep | cases/4.3DBiome/3DBiome.js:439-440 | each step leaves a signed 32-bit integer |
| SeedHash.HashStepWraps | cases/4.3DBiome/3DBiome.js:439-440 | the intermediate wrap of `hash << 5` makes no difference: each step is 31 h + c reduced to 32 bits |
| SeedHash.RollingHash | cases/4.3DBiome/3DBiome.js:437-441 | the hash is always a signed 32-bit integer |
| SeedHash.RollingHashIsPolynomial | cases/4.3DBiome/3DBiome.js:437-441 | the hash is the base-31 polynomial of the code units reduced to 32 bits |
| SeedHash.RollingHashSnoc | cases/4.3DBiome/3DBiome.js:438-440 | one more code unit is one more hash step |
| SeedHash.HashStepValue | cases/4.3DBiome/3DBiome.js:439-440 | a step is evaluated from its two explicit wrap counts |
| SeedHash.HashCode | cases/4.3DBiome/3DBiome.js:436-443 | the seed is the polynomial's magnitude over 2^31 - 1; it is non-negative, 0 for the empty text, and at most 1 exactly when the hash is not -2^31 |
| SeedHash.HashExtremes | cases/4.3DBiome/3DBiome.js:436-443 | "xfjfxtf" hashes to -2^31, giving a seed above 1, and "xfjfxte" to 2^31 - 1, giving exactly 1 |
| Worley.PointFrom | cases/3.WorleyNoise/WorleyNoise.js:13-18 | a point drawn from `Math.random()` values lies in [0, 1)^2 with each velocity component in [-0.0005, 0.0005) |
| Worley.PointsFrom | cases/3.WorleyNoise/WorleyNoise.js:10-20 | n points are drawn |
| Worley.PointsFromAt | cases/3.WorleyNoise/WorleyNoise.js:12-19 | point i is drawn from draws 4i to 4i + 3, in the order x, y, vx, vy |
| Worley.Distances | cases/3.WorleyNoise/WorleyNoise.js:33-34 | there is one distance per point |
| Worley.LowestUnique | cases/3.WorleyNoise/WorleyNoise.js:30-41 | the least distance is determined by the distances |
| Worley.TwoLowestUnique | cases/3.WorleyNoise/WorleyNoise.js:44-60 | the two least distances are determined, and the second is never below the first |
| Worley.NearestValue | cases/3.WorleyNoise/WorleyNoise.js:40 | the capped value lies in [0, 1] for a non-negative distance, and is 1 for Infinity |
| Worley.EdgeValue | cases/3.WorleyNoise/WorleyNoise.js:59 | the capped gap is NaN exactly when both minima are Infinity, -Infinity exactly when only the first is, 1 when only the second is, and in [0, 1] for ordered finite minima |
| Worley.Wrap | cases/3.WorleyNoise/WorleyNoise.js:69-72 | a coordinate in [0, 1] is kept, one in [-1, 2] comes back into [0, 1], and the change is 0, +1 or -1 |
| Worley.WrapStaysInUnit | cases/3.WorleyNoise/WorleyNoise.js:69-72 | a coordinate in [0, 1] moved by at most 1 wraps back into [0, 1] by adding or subtracting 1 at most once; 1 itself is not wrapped |
| Worley.Advance | cases/3.WorleyNoise/WorleyNoise.js:64-72 | a point's velocity is kept when it moves |
| Worley.WorleyNoise.constructor | cases/3.WorleyNoise/WorleyNoise.js:3-7 | the object keeps the count and holds the points drawn from the draws |
| Worley.WorleyNoise.GeneratePoints | cases/3.WorleyNoise/WorleyNoise.js:10-20 | the points are replaced by numPoints fresh points drawn in order |
| Worley.WorleyNoise.Noise | cases/3.WorleyNoise/WorleyNoise.js:30-41 | the running minimum is the least distance; the result is its capped triple, 1 with no points, and in [0, 1] for non-negative distances |
| Worley.WorleyNoise.Noise2 | cases/3.WorleyNoise/WorleyNoise.js:44-60 | the two running minima are the two least distances; the result is NaN with no points, 1 with one point, and in [0, 1] with two or more |
| Worley.WorleyNoise.UpdatePoints | cases/3.WorleyNoise/WorleyNoise.js:63-74 | every point is advanced in place; the count, the order and the velocities are kept |
| Worley.AdvanceStaysInUnit | cases/3.WorleyNoise/WorleyNoise.js:63-74 | a point in the unit square with velocity at most 1 stays in the unit square |
| Worley.GeneratedPointsInUnitSquare | cases/3.WorleyNoise/WorleyNoise.js:10-20 | every generated point lies in [0, 1)^2 with velocity components below 0.0005 in magnitude |

## Left out

- **Reading the seed.** `generateTerrain` reads the seed box (3DBiome.js:265-266), which is DOM input. The seed is a parameter of `Terrain.GenerateTerrain`. `parseFloat` and the `Math.random()` fallback are not modelled; `SeedHash.HashCode` models the hash branch.
- **Random draws.** `Math.random()` draws are parameters: 255 draws for a plain Perlin table, four per point for Worley points.
- **Square roots.** `Math.sqrt` is a parameter.
  - `normalize` takes any function `sqrt`. Its unit-length property is proved where that function is exact (`Mesh.IsRootOf`).
  - The Worley distance is any function of the two points. The range results assume only that it is non-negative.
- **Other Worley motions.** The circular and pulsing animation modes (WorleyNoise.js:104-126) overwrite the point positions with sin/cos formulas. They, the mode timer and the canvas rendering of the Worley page are not modelled.
- **Rendering.** WebGL, the camera, the canvas drawing loops, the UI listeners and the white-noise pages are not modelled.
- **Floating point.** Numbers are exact reals. IEEE rounding, NaN propagation and the final `Float32Array`/`Uint16Array`/`Uint8Array` conversions are not modelled. Only the index bound below 65536 is proved, so the 16-bit index buffer loses nothing.
- **The 3D page's `PerlinNoise` class.** Its object holds the seed and the table (3DBiome.js:3-6), and neither changes after construction. It is modelled by that table, `SeededTable.TableOf` of the seed, and the noise function over it; the stored seed is not modelled separately.
- **Octave sums.** No range is stated for them, since their size grows with the octave count.
- Biome.Smoothstep: requires distinct edges; the source divides by zero for equal edges.
- Biome.Classify: requires `Defined`, which excludes the two divisions by zero in the source. The source's results there are not modelled:
  - water level 0 with a negative biome value: `depth` is +Infinity, so the ocean colour components are -Infinity (3DBiome.js:322-327);
  - mountain frequency 0 in the mountain band: `smoothstep(1, 1, v)` is 1 for v > 1 and NaN for v = 1, and only the non-snow branch uses it (3DBiome.js:358-373). So the source gives a NaN colour only for v = 1 below the snow line.
- Terrain.GenerateTerrain: requires a non-zero water level and a non-zero mountain frequency. This excludes every terrain with either slider at 0, including those in which no grid point meets a division by zero. `smoothness` is a natural number, where the page passes a slider integer.
- Terrain.GenerateTerrain: builds both tables with the corrected generator of `SeededTable.GeneratePermutation`. For a seed of at least 0, the height seed and the biome seed (1.5 times it) are both non-negative, and these are the source's tables (`SeededTable.NonNegativeSeedAsWritten`). For a negative seed, which the seed box can supply (3DBiome.js:266), the source's tables are broken (see Findings), and the model does not describe them.
- **Worley points are values.** The source updates each point object's fields in place. The model replaces element i of the point sequence, which says the same, since no point object is shared.
- **Octave depth.** `generateTerrain` passes the third coordinate to `noise` unscaled: 0 for height, 10 for biome (3DBiome.js:292, 303). The model does the same.
- **`hashCode` range.** The result exceeds 1 when the hash is -2^31 (`SeedHash.HashCode`, `SeedHash.HashExtremes`).

## Findings

| source | as written | input that shows it | evidently intended | confidence | as-written member | corrected member |
|---|---|---|---|---|---|---|
| cases/4.3DBiome/3DBiome.js:14-16 | `rng = (rng * 9301 + 49297) % 233280` keeps the sign of a negative seed, so `j = floor(rng / 233280 * (i + 1))` can be negative and the swap writes outside 0..255 | seed -10, which `parseFloat` gives for the text "-10": the first state is -43713 and the first partner is -48 | every state in [0, 233280), so every partner lies in [0, i] and the table is a permutation | not executed | SeededTable.NegativeSeedEscapes | SeededTable.GeneratePermutation |
