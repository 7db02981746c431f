/** The mesh bookkeeping of `generateTerrain`: the triangle list of a square
    grid, the accumulation of face normals into a flat per-vertex array, and
    the final normalisation. Coordinates are kept flat, three per vertex, as
    the source's `vertices` and `normalArray` arrays keep them. */
module Mesh {
  import opened Vectors
  import opened RealArith
  import opened IntArith

  /** Vertex k has all three coordinates inside the flat list s. */
  predicate IsVertex(s: seq<real>, k: int)
  {
    0 <= k && 3 * k + 2 < |s|
  }

  /** The vertex stored at position k of a flat coordinate list. */
  function TripleAt(s: seq<real>, k: int): Vec3
    requires IsVertex(s, k)
  {
    Vec3(s[3 * k], s[3 * k + 1], s[3 * k + 2])
  }

  /** `v[j]` for a three-element array. */
  function Component(v: Vec3, j: int): real
    requires 0 <= j < 3
  {
    if j == 0 then v.x else if j == 1 then v.y else v.z
  }

  function Triple(v: Vec3): seq<real>
  {
    [v.x, v.y, v.z]
  }

  // ---------------------------------------------------------------- indices

  /** The two triangles of grid square (z, x) on a grid with `res + 1`
      vertices per row: (top-left, bottom-left, top-right) and (top-right,
      bottom-left, bottom-right). */
  function QuadIndices(res: nat, z: nat, x: nat): seq<int>
  {
    var topLeft := z * (res + 1) + x;
    var bottomLeft := (z + 1) * (res + 1) + x;
    [topLeft, bottomLeft, topLeft + 1, topLeft + 1, bottomLeft, bottomLeft + 1]
  }

  /** The squares (z, 0) .. (z, n - 1), in the order the inner loop visits them. */
  function QuadRow(res: nat, z: nat, n: nat): (s: seq<int>)
    ensures |s| == 6 * n
  {
    if n == 0 then [] else QuadRow(res, z, n - 1) + QuadIndices(res, z, n - 1)
  }

  /** Rows 0 .. n - 1 of squares, `res` squares each. */
  function QuadRows(res: nat, n: nat): (s: seq<int>)
    ensures |s| == 6 * n * res
  {
    if n == 0 then [] else QuadRows(res, n - 1) + QuadRow(res, n - 1, res)
  }

  /** Triangle t of a triangle list names three different vertices. */
  predicate TriangleDistinct(s: seq<int>, t: int)
    requires 0 <= t && 3 * t + 2 < |s|
  {
    s[3 * t] != s[3 * t + 1] && s[3 * t + 1] != s[3 * t + 2] && s[3 * t] != s[3 * t + 2]
  }

  /** The corners of square (z, x) of a res-by-res grid of squares: the
      bottom row lies one full row of `res + 1` vertices below the top row,
      and the bottom-right corner is still a vertex of the grid. */
  lemma QuadCorners(res: nat, z: nat, x: nat)
    requires z < res && x < res
    ensures 0 <= z * (res + 1) + x
    ensures (z + 1) * (res + 1) + x == z * (res + 1) + x + res + 1
    ensures (z + 1) * (res + 1) + x + 1 < (res + 1) * (res + 1)
  {
    MulMono(0, z, res + 1);
    RowMajorBound(z + 1, x + 1, res + 1, res + 1);
  }

  /** Every entry of a triangle list is a vertex of a grid of n vertices. */
  predicate IndicesBelow(s: seq<int>, n: int)
  {
    forall i :: 0 <= i < |s| ==> 0 <= s[i] < n
  }

  /** No triangle of a triangle list is degenerate. */
  predicate AllDistinct(s: seq<int>)
  {
    forall t :: 0 <= t < |s| && 3 * t + 2 < |s| ==> TriangleDistinct(s, t)
  }

  /** Appending the two triangles of a grid square keeps every index on the
      grid and every triangle non-degenerate. */
  lemma AppendQuad(s: seq<int>, q: nat, res: nat, z: nat, x: nat)
    requires z < res && x < res && |s| == 6 * q
    requires IndicesBelow(s, (res + 1) * (res + 1)) && AllDistinct(s)
    ensures var s' := s + QuadIndices(res, z, x);
            IndicesBelow(s', (res + 1) * (res + 1)) && AllDistinct(s')
  {
    QuadCorners(res, z, x);
    var s' := s + QuadIndices(res, z, x);
    forall t | 0 <= t < |s'| && 3 * t + 2 < |s'|
      ensures TriangleDistinct(s', t)
    {
      if 3 * t + 2 < |s| {
        assert s'[3 * t] == s[3 * t] && s'[3 * t + 1] == s[3 * t + 1] && s'[3 * t + 2] == s[3 * t + 2];
        assert TriangleDistinct(s, t);
      }
    }
  }

  /** The index loops: 6 res^2 indices, two triangles per grid square, every
      index a vertex of the (res + 1)-by-(res + 1) grid and no triangle
      degenerate. */
  method BuildIndices(res: nat) returns (indices: seq<int>)
    ensures indices == QuadRows(res, res)
    ensures |indices| == 6 * res * res
    ensures forall i :: 0 <= i < |indices| ==> 0 <= indices[i] < (res + 1) * (res + 1)
    ensures forall t :: 0 <= t && 3 * t + 2 < |indices| ==> TriangleDistinct(indices, t)
  {
    indices := [];
    ghost var q := 0;
    for z := 0 to res
      invariant indices == QuadRows(res, z) && |indices| == 6 * q
      invariant IndicesBelow(indices, (res + 1) * (res + 1)) && AllDistinct(indices)
    {
      indices, q := AppendRow(res, z, indices, q);
    }
  }

  /** The inner index loop: the squares of row z appended one by one. */
  method AppendRow(res: nat, z: nat, start: seq<int>, ghost q0: nat) returns (indices: seq<int>, ghost q: nat)
    requires z < res && |start| == 6 * q0
    requires IndicesBelow(start, (res + 1) * (res + 1)) && AllDistinct(start)
    ensures indices == start + QuadRow(res, z, res) && |indices| == 6 * q
    ensures IndicesBelow(indices, (res + 1) * (res + 1)) && AllDistinct(indices)
  {
    indices, q := start, q0;
    for x := 0 to res
      invariant indices == start + QuadRow(res, z, x) && |indices| == 6 * q
      invariant IndicesBelow(indices, (res + 1) * (res + 1)) && AllDistinct(indices)
    {
      var topLeft := z * (res + 1) + x;
      var topRight := topLeft + 1;
      var bottomLeft := (z + 1) * (res + 1) + x;
      var bottomRight := bottomLeft + 1;
      AppendQuad(indices, q, res, z, x);
      ghost var quad := QuadIndices(res, z, x);
      assert [topLeft, bottomLeft, topRight] + [topRight, bottomLeft, bottomRight] == quad;
      ghost var prev := indices;
      indices := indices + [topLeft, bottomLeft, topRight];
      indices := indices + [topRight, bottomLeft, bottomRight];
      assert indices == prev + quad;
      q := q + 1;
    }
  }

  // ---------------------------------------------------------------- normals

  /** Every entry of an index list names a vertex of the flat list vs. */
  predicate IndicesIn(indices: seq<int>, vs: seq<real>)
  {
    forall i :: 0 <= i < |indices| ==> IsVertex(vs, indices[i])
  }

  /** `cross(v1 - v0, v2 - v0)` for the triangle with corners a, b, c. */
  function FaceNormal(vs: seq<real>, a: int, b: int, c: int): Vec3
    requires IsVertex(vs, a) && IsVertex(vs, b) && IsVertex(vs, c)
  {
    var v0 := TripleAt(vs, a);
    Cross(Sub(TripleAt(vs, b), v0), Sub(TripleAt(vs, c), v0))
  }

  /** The inner `j` loop after j rounds: round j' adds component j' of n to
      the same component of vertices a, b and c, in that order. */
  function AddRounds(acc: seq<real>, a: int, b: int, c: int, n: Vec3, j: nat): (r: seq<real>)
    requires IsVertex(acc, a) && IsVertex(acc, b) && IsVertex(acc, c) && j <= 3
    ensures |r| == |acc|
  {
    if j == 0 then acc
    else
      var d := Component(n, j - 1);
      var s := AddRounds(acc, a, b, c, n, j - 1);
      var s1 := s[3 * a + j - 1 := s[3 * a + j - 1] + d];
      var s2 := s1[3 * b + j - 1 := s1[3 * b + j - 1] + d];
      s2[3 * c + j - 1 := s2[3 * c + j - 1] + d]
  }

  /** The outer loop after t triangles of the index list. */
  function Accumulate(acc: seq<real>, vs: seq<real>, indices: seq<int>, t: nat): (r: seq<real>)
    requires |acc| == |vs| && 3 * t <= |indices| && IndicesIn(indices, vs)
    ensures |r| == |acc|
  {
    if t == 0 then acc
    else
      var a, b, c := indices[3 * t - 3], indices[3 * t - 2], indices[3 * t - 1];
      AddRounds(Accumulate(acc, vs, indices, t - 1), a, b, c, FaceNormal(vs, a, b, c), 3)
  }

  /** A triangle with three different corners adds its normal to exactly
      those three vertices, once each, and leaves every other entry alone:
      after j rounds, component r of vertex v has gained component r of n
      when r < j and v is a corner. */
  lemma {:induction false} AddRoundsEffect(acc: seq<real>, a: int, b: int, c: int, n: Vec3, j: nat, v: int, r: int)
    requires IsVertex(acc, a) && IsVertex(acc, b) && IsVertex(acc, c) && j <= 3
    requires a != b && b != c && a != c
    requires IsVertex(acc, v) && 0 <= r < 3
    ensures AddRounds(acc, a, b, c, n, j)[3 * v + r] ==
            acc[3 * v + r] + (if r < j && (v == a || v == b || v == c) then Component(n, r) else 0.0)
  {
    if j > 0 {
      AddRoundsEffect(acc, a, b, c, n, j - 1, v, r);
    }
  }

  /** The inner `j` loop: component j of n added to component j of vertices
      a, b and c, for j = 0, 1, 2. */
  method AddAtCorners(normalArray: array<real>, a: int, b: int, c: int, n: Vec3)
    requires IsVertex(normalArray[..], a) && IsVertex(normalArray[..], b) && IsVertex(normalArray[..], c)
    modifies normalArray
    ensures normalArray[..] == AddRounds(old(normalArray[..]), a, b, c, n, 3)
  {
    ghost var before := normalArray[..];
    for j := 0 to 3
      invariant normalArray[..] == AddRounds(before, a, b, c, n, j)
    {
      var d := Component(n, j);
      ghost var s0 := normalArray[..];
      normalArray[3 * a + j] := normalArray[3 * a + j] + d;
      ghost var s1 := normalArray[..];
      normalArray[3 * b + j] := normalArray[3 * b + j] + d;
      ghost var s2 := normalArray[..];
      normalArray[3 * c + j] := normalArray[3 * c + j] + d;
      AddRoundsNext(before, a, b, c, n, j, s0, s1, s2, normalArray[..]);
    }
  }

  /** Round j of the inner loop, as three successive single-entry updates. */
  lemma AddRoundsNext(acc: seq<real>, a: int, b: int, c: int, n: Vec3, j: nat,
                      s0: seq<real>, s1: seq<real>, s2: seq<real>, s3: seq<real>)
    requires IsVertex(acc, a) && IsVertex(acc, b) && IsVertex(acc, c) && j < 3
    requires s0 == AddRounds(acc, a, b, c, n, j)
    requires s1 == s0[3 * a + j := s0[3 * a + j] + Component(n, j)]
    requires s2 == s1[3 * b + j := s1[3 * b + j] + Component(n, j)]
    requires s3 == s2[3 * c + j := s2[3 * c + j] + Component(n, j)]
    ensures s3 == AddRounds(acc, a, b, c, n, j + 1)
  {
  }

  /** The corners of triangle (a, b, c) read from the vertex list, and the
      cross product of its two edges from corner a. */
  method FaceNormalAt(vs: seq<real>, a: int, b: int, c: int) returns (normal: Vec3)
    requires IsVertex(vs, a) && IsVertex(vs, b) && IsVertex(vs, c)
    ensures normal == FaceNormal(vs, a, b, c)
  {
    var i0, i1, i2 := a * 3, b * 3, c * 3;
    var v0 := Vec3(vs[i0], vs[i0 + 1], vs[i0 + 2]);
    var v1 := Vec3(vs[i1], vs[i1 + 1], vs[i1 + 2]);
    var v2 := Vec3(vs[i2], vs[i2 + 1], vs[i2 + 2]);
    normal := Cross(Sub(v1, v0), Sub(v2, v0));
  }

  /** The normal accumulation loop over `indices`, three entries at a time. */
  method AccumulateNormals(normalArray: array<real>, vs: seq<real>, indices: seq<int>)
    requires normalArray.Length == |vs| && |indices| % 3 == 0 && IndicesIn(indices, vs)
    modifies normalArray
    ensures normalArray[..] == Accumulate(old(normalArray[..]), vs, indices, |indices| / 3)
  {
    ghost var start := normalArray[..];
    ghost var count := |indices| / 3;
    assert |indices| == 3 * count;
    var i, t := 0, 0;
    while i < |indices|
      invariant 0 <= t <= count && i == 3 * t
      invariant normalArray[..] == Accumulate(start, vs, indices, t)
    {
      assert t < count;
      AddFace(normalArray, vs, indices, t, start);
      i, t := i + 3, t + 1;
    }
    assert t == count;
  }

  /** The body of the accumulation loop for triangle t, at entries 3t, 3t + 1
      and 3t + 2 of `indices`: its face normal added at its three corners. */
  method AddFace(normalArray: array<real>, vs: seq<real>, indices: seq<int>, t: nat, ghost start: seq<real>)
    requires normalArray.Length == |vs| == |start| && IndicesIn(indices, vs)
    requires 3 * t + 3 <= |indices|
    requires normalArray[..] == Accumulate(start, vs, indices, t)
    modifies normalArray
    ensures normalArray[..] == Accumulate(start, vs, indices, t + 1)
  {
    var i := 3 * t;
    var a, b, c := indices[i], indices[i + 1], indices[i + 2];
    assert IsVertex(vs, a) && IsVertex(vs, b) && IsVertex(vs, c);
    var normal := FaceNormalAt(vs, a, b, c);
    ghost var before := normalArray[..];
    AddAtCorners(normalArray, a, b, c, normal);
    AccumulateNext(start, vs, indices, t, a, b, c, before, normalArray[..]);
  }

  /** One pass of the accumulation loop adds the next triangle. */
  lemma AccumulateNext(start: seq<real>, vs: seq<real>, indices: seq<int>, t: nat, a: int, b: int, c: int,
                        before: seq<real>, after: seq<real>)
    requires |start| == |vs| && 3 * t + 3 <= |indices| && IndicesIn(indices, vs)
    requires a == indices[3 * t] && b == indices[3 * t + 1] && c == indices[3 * t + 2]
    requires before == Accumulate(start, vs, indices, t)
    requires IsVertex(before, a) && IsVertex(before, b) && IsVertex(before, c)
    requires after == AddRounds(before, a, b, c, FaceNormal(vs, a, b, c), 3)
    ensures after == Accumulate(start, vs, indices, t + 1)
  {
    var u := t + 1;
    assert indices[3 * u - 3] == a && indices[3 * u - 2] == b && indices[3 * u - 1] == c;
  }

  // ---------------------------------------------------------- normalisation

  /** The square root `normalize` takes of its squared length is a
      parameter; `IsRootOf(sqrt, d)` says it is exact at d. */
  predicate IsRootOf(sqrt: real -> real, d: real)
  {
    0.0 <= sqrt(d) && sqrt(d) * sqrt(d) == d
  }

  /** `normalize(v)`: v divided by its length when that is positive, the
      zero vector otherwise. */
  function Normalize(v: Vec3, sqrt: real -> real): Vec3
  {
    var len := sqrt(Dot(v, v));
    if len > 0.0 then Vec3(v.x / len, v.y / len, v.z / len) else Zero
  }

  /** `normalize` leaves the zero vector at zero instead of dividing by its
      length, whatever the square root gives. */
  lemma NormalizeZero(sqrt: real -> real)
    ensures Normalize(Zero, sqrt) == Zero
  {
  }

  /** With an exact square root, `normalize` maps every vector of positive
      squared length to a unit vector that, scaled by the length, gives the
      vector back. */
  lemma NormalizeUnit(v: Vec3, sqrt: real -> real)
    requires IsRootOf(sqrt, Dot(v, v)) && 0.0 < Dot(v, v)
    ensures var len := sqrt(Dot(v, v)); var r := Normalize(v, sqrt);
            0.0 < len && r.x * len == v.x && r.y * len == v.y && r.z * len == v.z
    ensures Dot(Normalize(v, sqrt), Normalize(v, sqrt)) == 1.0
  {
    var d := Dot(v, v);
    var len := sqrt(d);
    RootPositive(len, d);
    var r := Normalize(v, sqrt);
    assert r.x * len == v.x && r.y * len == v.y && r.z * len == v.z;
    ScaledSquare(r.x, len, v.x);
    ScaledSquare(r.y, len, v.y);
    ScaledSquare(r.z, len, v.z);
    assert Dot(r, r) * (len * len) == d;
    UnitFactor(Dot(r, r), len * len, d);
  }

  /** The normalisation loop's output after its first n vertices. */
  function NormalizedPrefix(s: seq<real>, sqrt: real -> real, n: nat): (r: seq<real>)
    requires 3 * n <= |s|
    ensures |r| == 3 * n
  {
    if n == 0 then [] else NormalizedPrefix(s, sqrt, n - 1) + Triple(Normalize(TripleAt(s, n - 1), sqrt))
  }

  /** Vertex k of the normalised prefix is vertex k of the input, normalised. */
  lemma {:induction false} NormalizedPrefixAt(s: seq<real>, sqrt: real -> real, n: nat, k: int)
    requires 3 * n <= |s| && 0 <= k < n
    ensures TripleAt(NormalizedPrefix(s, sqrt, n), k) == Normalize(TripleAt(s, k), sqrt)
  {
    if k < n - 1 {
      NormalizedPrefixAt(s, sqrt, n - 1, k);
    }
  }

  /** One pass of the normalisation loop extends the normalised prefix by
      one vertex. */
  lemma NormalizeStep(start: seq<real>, sqrt: real -> real, t: nat, before: seq<real>, after: seq<real>)
    requires 3 * t + 3 <= |start|
    requires before == NormalizedPrefix(start, sqrt, t) + start[3 * t..]
    requires var n := Normalize(TripleAt(before, t), sqrt);
             after == before[3 * t := n.x][3 * t + 1 := n.y][3 * t + 2 := n.z]
    ensures after == NormalizedPrefix(start, sqrt, t + 1) + start[3 * t + 3..]
  {
    var done := NormalizedPrefix(start, sqrt, t);
    var i := 3 * t;
    assert TripleAt(before, t) == TripleAt(start, t);
    var n := Normalize(TripleAt(start, t), sqrt);
    var rhs := done + Triple(n) + start[i + 3..];
    forall m | 0 <= m < |after|
      ensures after[m] == rhs[m]
    {
      if m < i {
      } else if m >= i + 3 {
      }
    }
  }

  /** One pass of the normalisation loop: vertex t replaced by its
      normalisation, which extends the normalised prefix by one vertex. */
  method NormalizeVertex(normalArray: array<real>, t: nat, sqrt: real -> real, ghost start: seq<real>)
    requires 3 * t + 3 <= normalArray.Length == |start|
    requires normalArray[..] == NormalizedPrefix(start, sqrt, t) + start[3 * t..]
    modifies normalArray
    ensures normalArray[..] == NormalizedPrefix(start, sqrt, t + 1) + start[3 * t + 3..]
  {
    ghost var before := normalArray[..];
    var i := 3 * t;
    var n := Normalize(Vec3(normalArray[i], normalArray[i + 1], normalArray[i + 2]), sqrt);
    assert n == Normalize(TripleAt(before, t), sqrt);
    normalArray[i] := n.x;
    normalArray[i + 1] := n.y;
    normalArray[i + 2] := n.z;
    NormalizeStep(start, sqrt, t, before, normalArray[..]);
  }

  /** The normalisation loop over `normalArray`, three entries at a time:
      every vertex is replaced by its normalisation. */
  method NormalizeAll(normalArray: array<real>, sqrt: real -> real)
    requires normalArray.Length % 3 == 0
    modifies normalArray
    ensures normalArray[..] == NormalizedPrefix(old(normalArray[..]), sqrt, normalArray.Length / 3)
  {
    ghost var start := normalArray[..];
    ghost var count := normalArray.Length / 3;
    NormalizedPrefixEnds(start, sqrt, count);
    var i, t := 0, 0;
    while i < normalArray.Length
      invariant 0 <= t <= count && i == 3 * t
      invariant normalArray[..] == NormalizedPrefix(start, sqrt, t) + start[3 * t..]
    {
      assert t < count;
      NormalizeVertex(normalArray, t, sqrt, start);
      i, t := i + 3, t + 1;
    }
    assert t == count;
  }

  /** The normalisation loop's invariant holds of the untouched list, and
      once it covers all count vertices it is the normalised list itself. */
  lemma NormalizedPrefixEnds(s: seq<real>, sqrt: real -> real, count: nat)
    requires |s| % 3 == 0 && count == |s| / 3
    ensures |s| == 3 * count
    ensures NormalizedPrefix(s, sqrt, 0) + s[0..] == s
    ensures NormalizedPrefix(s, sqrt, count) + s[3 * count..] == NormalizedPrefix(s, sqrt, count)
  {
  }

  /** The normal pass of `generateTerrain`: a zero-filled array as long as
      the vertex list, the face normals added at the corners of every
      triangle, then every vertex normal normalised. */
  method SmoothNormals(vs: seq<real>, indices: seq<int>, sqrt: real -> real) returns (normals: seq<real>)
    requires |vs| % 3 == 0 && |indices| % 3 == 0 && IndicesIn(indices, vs)
    ensures normals == NormalizedPrefix(Accumulate(seq(|vs|, _ => 0.0), vs, indices, |indices| / 3), sqrt, |vs| / 3)
    ensures |normals| == |vs|
  {
    var normalArray := new real[|vs|](_ => 0.0);
    assert normalArray[..] == seq(|vs|, _ => 0.0);
    AccumulateNormals(normalArray, vs, indices);
    NormalizeAll(normalArray, sqrt);
    normals := normalArray[..];
  }
}
