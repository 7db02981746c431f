/** The `WorleyNoise` class of the cellular-noise page: a set of drifting
    feature points in the unit square, the distance from a pixel to the
    nearest of them, and the gap between the nearest and the second nearest.
    `Math.random()` draws are supplied by the caller, and the distance
    function (Euclidean, through `Math.sqrt`) is a parameter. */
module Worley {
  import opened RandomDraws

  /** One feature point: its position and its velocity. */
  datatype FeaturePoint = FeaturePoint(x: real, y: real, vx: real, vy: real)

  /** A running minimum: a distance, or the `Infinity` it starts from. */
  datatype Extended = Finite(v: real) | Infinity

  /** `dist < minDist` */
  predicate Below(d: real, m: Extended)
  {
    m.Infinity? || d < m.v
  }

  /** An outcome of `noise2`, whose subtraction of two running minima can
      meet an infinity. */
  datatype Reading = Value(v: real) | NotANumber | NegativeInfinity

  function Min(a: real, b: real): (m: real)
    ensures m <= a && m <= b && (m == a || m == b)
  {
    if a < b then a else b
  }

  /** Point i of `generatePoints` from draws 4i .. 4i + 3, consumed in the
      order x, y, vx, vy; a velocity is `(Math.random() - 0.5) * 0.001`. */
  function PointFrom(draws: seq<real>, i: nat): (p: FeaturePoint)
    requires 4 * i + 3 < |draws|
    ensures UnitDraws(draws) ==> 0.0 <= p.x < 1.0 && 0.0 <= p.y < 1.0
    ensures UnitDraws(draws) ==> -0.0005 <= p.vx < 0.0005 && -0.0005 <= p.vy < 0.0005
  {
    FeaturePoint(draws[4 * i], draws[4 * i + 1], (draws[4 * i + 2] - 0.5) * 0.001, (draws[4 * i + 3] - 0.5) * 0.001)
  }

  /** The first n points drawn. */
  function PointsFrom(draws: seq<real>, n: nat): (ps: seq<FeaturePoint>)
    requires 4 * n <= |draws|
    ensures |ps| == n
  {
    if n == 0 then [] else PointsFrom(draws, n - 1) + [PointFrom(draws, n - 1)]
  }

  /** Point i of the drawn list is the one drawn from draws 4i .. 4i + 3. */
  lemma {:induction false} PointsFromAt(draws: seq<real>, n: nat, i: nat)
    requires 4 * n <= |draws| && i < n
    ensures PointsFrom(draws, n)[i] == PointFrom(draws, i)
  {
    if i < n - 1 {
      PointsFromAt(draws, n - 1, i);
    }
  }

  /** The distances from (x, y) to the points, in order. */
  function Distances(ps: seq<FeaturePoint>, x: real, y: real, dist: (real, real, real, real) -> real): (ds: seq<real>)
    ensures |ds| == |ps|
  {
    seq(|ps|, i requires 0 <= i < |ps| => dist(x, y, ps[i].x, ps[i].y))
  }

  /** The distance function never returns a negative value, as a square
      root does not. */
  ghost predicate NonNegative(dist: (real, real, real, real) -> real)
  {
    forall x1, y1, x2, y2 :: 0.0 <= dist(x1, y1, x2, y2)
  }

  /** m is the least of ds, and Infinity when ds is empty. */
  ghost predicate Lowest(ds: seq<real>, m: Extended)
  {
    if |ds| == 0 then m == Infinity
    else m.Finite? && (exists k :: 0 <= k < |ds| && ds[k] == m.v) && forall i :: 0 <= i < |ds| ==> m.v <= ds[i]
  }

  /** m1 is the least of ds and m2 the least of what remains once one
      occurrence of m1 is set aside: two equal smallest distances give
      m2 == m1. Each is Infinity when ds has too few entries. */
  ghost predicate TwoLowest(ds: seq<real>, m1: Extended, m2: Extended)
  {
    Lowest(ds, m1) &&
    if |ds| < 2 then m2 == Infinity
    else
      m1.Finite? && m2.Finite? &&
      exists k1, k2 :: 0 <= k1 < |ds| && 0 <= k2 < |ds| && k1 != k2 && ds[k1] == m1.v && ds[k2] == m2.v &&
                       forall i :: 0 <= i < |ds| && i != k1 ==> m2.v <= ds[i]
  }

  /** The least distance is determined by the distances. */
  lemma LowestUnique(ds: seq<real>, m: Extended, m': Extended)
    requires Lowest(ds, m) && Lowest(ds, m')
    ensures m == m'
  {
    if |ds| > 0 {
      var k :| 0 <= k < |ds| && ds[k] == m.v;
      var k' :| 0 <= k' < |ds| && ds[k'] == m'.v;
      assert m.v <= ds[k'] && m'.v <= ds[k];
    }
  }

  /** So are the two least, and the second is never below the first. */
  lemma TwoLowestUnique(ds: seq<real>, m1: Extended, m2: Extended, n1: Extended, n2: Extended)
    requires TwoLowest(ds, m1, m2) && TwoLowest(ds, n1, n2)
    ensures m1 == n1 && m2 == n2
    ensures m1.Finite? && m2.Finite? ==> m1.v <= m2.v
  {
    LowestUnique(ds, m1, n1);
    if |ds| >= 2 {
      var k1, k2 :| 0 <= k1 < |ds| && 0 <= k2 < |ds| && k1 != k2 && ds[k1] == m1.v && ds[k2] == m2.v &&
                    forall i :: 0 <= i < |ds| && i != k1 ==> m2.v <= ds[i];
      var j1, j2 :| 0 <= j1 < |ds| && 0 <= j2 < |ds| && j1 != j2 && ds[j1] == n1.v && ds[j2] == n2.v &&
                    forall i :: 0 <= i < |ds| && i != j1 ==> n2.v <= ds[i];
      // Whichever of ds[k2], ds[j2] is smaller is counted by both.
      if k1 == j1 {
        assert m2.v <= ds[j2] && n2.v <= ds[k2];
      } else {
        // ds[k1] and ds[j1] are both the least; each is the other's second.
        assert m2.v <= ds[j1] && n2.v <= ds[k1];
        assert ds[k1] == ds[j1];
        assert m2.v <= ds[j2] || j2 == k1;
        assert n2.v <= ds[k2] || k2 == j1;
      }
    }
  }

  /** `Math.min(minDist * 3, 1)`; `Infinity * 3` is again Infinity. */
  function NearestValue(m: Extended): (r: real)
    ensures m.Finite? && 0.0 <= m.v ==> 0.0 <= r <= 1.0
    ensures m.Infinity? ==> r == 1.0
  {
    match m
    case Infinity => 1.0
    case Finite(d) => Min(d * 3.0, 1.0)
  }

  /** `Math.min((minDist2 - minDist1) * 10, 1)`: Infinity - Infinity is NaN,
      Infinity - d is Infinity and d - Infinity is -Infinity. */
  function EdgeValue(m1: Extended, m2: Extended): (r: Reading)
    ensures r == NotANumber <==> m1.Infinity? && m2.Infinity?
    ensures r == NegativeInfinity <==> m1.Infinity? && m2.Finite?
    ensures m1.Finite? && m2.Infinity? ==> r == Value(1.0)
    ensures m1.Finite? && m2.Finite? && m1.v <= m2.v ==> r.Value? && 0.0 <= r.v <= 1.0
  {
    match (m1, m2)
    case (Infinity, Infinity) => NotANumber
    case (Finite(_), Infinity) => Value(1.0)
    case (Infinity, Finite(_)) => NegativeInfinity
    case (Finite(a), Finite(b)) => Value(Min((b - a) * 10.0, 1.0))
  }

  /** `x += vx` followed by the two wrap tests `x < 0` and `x > 1`: a
      coordinate in [0, 1] is kept, and one in [-1, 2] is brought back into
      [0, 1] by adding or subtracting 1 at most once. */
  function Wrap(c: real): (r: real)
    ensures 0.0 <= c <= 1.0 ==> r == c
    ensures -1.0 <= c <= 2.0 ==> 0.0 <= r <= 1.0
    ensures r == c || r == c + 1.0 || r == c - 1.0
  {
    var c1 := if c < 0.0 then c + 1.0 else c;
    if c1 > 1.0 then c1 - 1.0 else c1
  }

  /** A coordinate in [0, 1] moved by at most 1 comes back into [0, 1]; the
      boundary 1 itself is not wrapped, as the test is strict. */
  lemma WrapStaysInUnit(c: real, v: real)
    requires 0.0 <= c <= 1.0 && -1.0 <= v <= 1.0
    ensures 0.0 <= Wrap(c + v) <= 1.0
    ensures Wrap(c + v) == c + v || Wrap(c + v) == c + v + 1.0 || Wrap(c + v) == c + v - 1.0
    ensures c + v == 1.0 ==> Wrap(c + v) == 1.0
  {
  }

  /** One point of `updatePoints`: the position moves by the velocity and
      wraps; the velocity is kept. */
  function Advance(p: FeaturePoint): (q: FeaturePoint)
    ensures q.vx == p.vx && q.vy == p.vy
  {
    FeaturePoint(Wrap(p.x + p.vx), Wrap(p.y + p.vy), p.vx, p.vy)
  }

  class WorleyNoise {
    var numPoints: nat
    var points: seq<FeaturePoint>

    /** `new WorleyNoise(numPoints)`: store the count and draw the points. */
    constructor (numPoints: nat, draws: seq<real>)
      requires |draws| == 4 * numPoints
      ensures this.numPoints == numPoints
      ensures points == PointsFrom(draws, numPoints)
    {
      this.numPoints := numPoints;
      points := [];
      new;
      GeneratePoints(draws);
    }

    /** `generatePoints`: replace the points by numPoints fresh ones. */
    method GeneratePoints(draws: seq<real>)
      requires |draws| == 4 * numPoints
      modifies this
      ensures numPoints == old(numPoints)
      ensures points == PointsFrom(draws, numPoints)
    {
      points := [];
      for i := 0 to numPoints
        invariant numPoints == old(numPoints)
        invariant points == PointsFrom(draws, i)
      {
        points := points + [PointFrom(draws, i)];
      }
    }

    /** `noise(x, y)`: the running minimum of the distances to the points,
        tripled and capped at 1. With no points the minimum stays Infinity
        and the value is 1; with a distance that is never negative the value
        lies in [0, 1]. */
    method Noise(x: real, y: real, dist: (real, real, real, real) -> real) returns (r: real)
      ensures exists m :: Lowest(Distances(points, x, y, dist), m) && r == NearestValue(m)
      ensures |points| == 0 ==> r == 1.0
      ensures NonNegative(dist) ==> 0.0 <= r <= 1.0
    {
      ghost var ds := Distances(points, x, y, dist);
      var minDist := Infinity;
      ghost var at := 0;
      for i := 0 to |points|
        invariant i == 0 <==> minDist == Infinity
        invariant minDist.Finite? ==> 0 <= at < i && ds[at] == minDist.v
        invariant minDist.Finite? ==> forall j :: 0 <= j < i ==> minDist.v <= ds[j]
      {
        var d := dist(x, y, points[i].x, points[i].y);
        if Below(d, minDist) {
          minDist, at := Finite(d), i;
        }
      }
      assert ds[..|points|] == ds;
      assert Lowest(ds, minDist);
      r := NearestValue(minDist);
    }

    /** `noise2(x, y)`: the two running minima and ten times their gap,
        capped at 1. No points give NaN, one point gives 1, and two or more
        give a value in [0, 1]. */
    method Noise2(x: real, y: real, dist: (real, real, real, real) -> real) returns (r: Reading)
      ensures exists m1, m2 :: TwoLowest(Distances(points, x, y, dist), m1, m2) && r == EdgeValue(m1, m2)
      ensures |points| == 0 ==> r == NotANumber
      ensures |points| == 1 ==> r == Value(1.0)
      ensures |points| >= 2 ==> r.Value? && 0.0 <= r.v <= 1.0
    {
      ghost var ds := Distances(points, x, y, dist);
      var minDist1, minDist2 := Infinity, Infinity;
      ghost var k1, k2 := 0, 0;
      for i := 0 to |points|
        invariant i == 0 <==> minDist1 == Infinity
        invariant i < 2 <==> minDist2 == Infinity
        invariant minDist1.Finite? ==> 0 <= k1 < i && ds[k1] == minDist1.v
        invariant minDist1.Finite? ==> forall j :: 0 <= j < i ==> minDist1.v <= ds[j]
        invariant minDist2.Finite? ==> 0 <= k2 < i && k2 != k1 && ds[k2] == minDist2.v
        invariant minDist2.Finite? ==> forall j :: 0 <= j < i && j != k1 ==> minDist2.v <= ds[j]
      {
        var d := dist(x, y, points[i].x, points[i].y);
        if Below(d, minDist1) {
          minDist2, k2 := minDist1, k1;
          minDist1, k1 := Finite(d), i;
        } else if Below(d, minDist2) {
          minDist2, k2 := Finite(d), i;
        }
      }
      assert TwoLowest(ds, minDist1, minDist2);
      r := EdgeValue(minDist1, minDist2);
    }

    /** `updatePoints`: every point moves by its velocity and wraps; the
        count, the order and the velocities are kept, and each new point
        depends only on the old point at the same place. */
    method UpdatePoints()
      modifies this
      ensures numPoints == old(numPoints)
      ensures |points| == |old(points)|
      ensures forall i :: 0 <= i < |points| ==> points[i] == Advance(old(points)[i])
    {
      var i := 0;
      while i < |points|
        invariant numPoints == old(numPoints)
        invariant 0 <= i <= |points| == |old(points)|
        invariant forall k :: 0 <= k < i ==> points[k] == Advance(old(points)[k])
        invariant forall k :: i <= k < |points| ==> points[k] == old(points)[k]
      {
        var p := points[i];
        var px := p.x + p.vx;
        var py := p.y + p.vy;
        if px < 0.0 { px := px + 1.0; }
        if px > 1.0 { px := px - 1.0; }
        if py < 0.0 { py := py + 1.0; }
        if py > 1.0 { py := py - 1.0; }
        points := points[i := p.(x := px, y := py)];
        i := i + 1;
      }
    }
  }

  /** A point in the unit square with a velocity of at most 1 in each
      direction stays in the unit square. */
  lemma AdvanceStaysInUnit(p: FeaturePoint)
    requires 0.0 <= p.x <= 1.0 && 0.0 <= p.y <= 1.0
    requires -1.0 <= p.vx <= 1.0 && -1.0 <= p.vy <= 1.0
    ensures var q := Advance(p); 0.0 <= q.x <= 1.0 && 0.0 <= q.y <= 1.0
  {
    WrapStaysInUnit(p.x, p.vx);
    WrapStaysInUnit(p.y, p.vy);
  }

  /** After `generatePoints` from draws of `Math.random()`, every point lies
      in the unit square with a velocity below 0.0005 in each direction. */
  lemma GeneratedPointsInUnitSquare(draws: seq<real>, n: nat, i: nat)
    requires 4 * n <= |draws| && UnitDraws(draws) && i < n
    ensures var p := PointsFrom(draws, n)[i];
            0.0 <= p.x < 1.0 && 0.0 <= p.y < 1.0 &&
            -0.0005 <= p.vx < 0.0005 && -0.0005 <= p.vy < 0.0005
  {
    PointsFromAt(draws, n, i);
  }
}
