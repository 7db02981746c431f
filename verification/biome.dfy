/** The biome classifier inside `generateTerrain`: three thresholds derived
    from the water level and the mountain frequency, five ordered bands, a
    height transform per band and a colour blend per band. */
module Biome {
  import opened RealArith
  import opened ImprovedNoise

  datatype Color = Color(r: real, g: real, b: real)

  const DeepOcean := Color(0.05, 0.15, 0.4)
  const ShallowOcean := Color(0.1, 0.3, 0.6)
  const BeachColor := Color(0.9, 0.85, 0.6)
  const PlainsColor := Color(0.3, 0.7, 0.2)
  const HillsColor := Color(0.35, 0.55, 0.25)
  const MountainsColor := Color(0.5, 0.5, 0.5)
  const SnowPeaksColor := Color(0.9, 0.9, 0.95)

  predicate InUnitCube(c: Color)
  {
    0.0 <= c.r <= 1.0 && 0.0 <= c.g <= 1.0 && 0.0 <= c.b <= 1.0
  }

  /** The component-wise `lerp` the source applies to colour triples. */
  function LerpColor(a: Color, b: Color, t: real): (c: Color)
    ensures t == 0.0 ==> c == a
    ensures t == 1.0 ==> c == b
    ensures 0.0 <= t <= 1.0 && InUnitCube(a) && InUnitCube(b) ==> InUnitCube(c)
  {
    Color(Lerp(a.r, b.r, t), Lerp(a.g, b.g, t), Lerp(a.b, b.b, t))
  }

  /** `Math.max(0, Math.min(1, q))`. */
  function Clamp01(q: real): (t: real)
    ensures 0.0 <= t <= 1.0
    ensures q <= 0.0 ==> t == 0.0
    ensures q >= 1.0 ==> t == 1.0
    ensures 0.0 <= q <= 1.0 ==> t == q
  {
    if q < 0.0 then 0.0 else if q > 1.0 then 1.0 else q
  }

  /** The position of x between two increasing edges, as a fraction of the
      distance between them. */
  lemma RatioBounds(edge0: real, edge1: real, x: real)
    requires edge0 != edge1
    ensures edge0 < edge1 && x <= edge0 ==> (x - edge0) / (edge1 - edge0) <= 0.0
    ensures edge0 < edge1 && x >= edge1 ==> (x - edge0) / (edge1 - edge0) >= 1.0
  {
    var w := edge1 - edge0;
    var q := (x - edge0) / w;
    assert q * w == x - edge0;
    if edge0 < edge1 {
      if q > 0.0 {
        MulPos(q, w);
        assert x > edge0;
      }
      if q < 1.0 {
        BelowOne(q, w, x - edge0);
      }
    }
  }

  /** A fraction below 1 of a positive width is less than the width. */
  lemma BelowOne(q: real, w: real, d: real)
    requires 0.0 < w && q * w == d && q < 1.0
    ensures d < w
  {
    MulPos(1.0 - q, w);
  }

  /** The Hermite cubic t^2 (3 - 2t): it fixes 0 and 1 and maps the unit
      interval onto itself. */
  function Hermite(t: real): (r: real)
    ensures t == 0.0 ==> r == 0.0
    ensures t == 1.0 ==> r == 1.0
    ensures 0.0 <= t <= 1.0 ==> 0.0 <= r <= 1.0
  {
    var r := t * t * (3.0 - 2.0 * t);
    assert 0.0 <= t <= 1.0 ==> 0.0 <= r <= 1.0 by {
      if 0.0 <= t <= 1.0 {
        MulNonNeg(t, t);
        MulNonNeg(t * t, 3.0 - 2.0 * t);
        assert 1.0 - r == (1.0 - t) * (1.0 - t) * (1.0 + 2.0 * t);
        MulNonNeg(1.0 - t, 1.0 - t);
        MulNonNeg((1.0 - t) * (1.0 - t), 1.0 + 2.0 * t);
      }
    }
    r
  }

  /** `smoothstep(edge0, edge1, x)`: the Hermite cubic of the clamped
      position of x between the edges. Its value lies in [0, 1]; for
      increasing edges it is 0 up to edge0 and 1 from edge1 on. Equal edges
      divide by zero in the source (NaN or an infinity), so they are excluded. */
  function Smoothstep(edge0: real, edge1: real, x: real): (r: real)
    requires edge0 != edge1
    ensures 0.0 <= r <= 1.0
    ensures edge0 < edge1 && x <= edge0 ==> r == 0.0
    ensures edge0 < edge1 && x >= edge1 ==> r == 1.0
  {
    RatioBounds(edge0, edge1, x);
    Hermite(Clamp01((x - edge0) / (edge1 - edge0)))
  }

  datatype Thresholds = Thresholds(water: real, beach: real, hill: real, mountain: real)

  /** `mountainThreshold = 1 - mountainFreq`, `hillThreshold =
      mountainThreshold - 0.2`, `beachThreshold = waterLevel + 0.05`. */
  function ThresholdsFor(waterLevel: real, mountainFreq: real): (t: Thresholds)
    ensures t.water == waterLevel
    ensures t.beach - t.water == 0.05 && t.mountain - t.hill == 0.2
    ensures t.mountain + mountainFreq == 1.0
  {
    var mountain := 1.0 - mountainFreq;
    Thresholds(waterLevel, waterLevel + 0.05, mountain - 0.2, mountain)
  }

  /** The thresholds are strictly increasing exactly when the water level and
      the mountain frequency sum to less than 0.75; otherwise the plains band
      is empty and the beach band runs into the hills. */
  lemma ThresholdsOrdered(waterLevel: real, mountainFreq: real)
    ensures var t := ThresholdsFor(waterLevel, mountainFreq);
            t.water < t.beach && t.hill < t.mountain &&
            (t.beach < t.hill <==> waterLevel + mountainFreq < 0.75)
  {
  }

  datatype Band = Ocean | Beach | Plains | Hills | Mountain

  /** The order in which the source tests the bands. */
  function Rank(b: Band): nat
  {
    match b
    case Ocean => 0
    case Beach => 1
    case Plains => 2
    case Hills => 3
    case Mountain => 4
  }

  /** v lies below the band's strict upper bound; the mountain band has none. */
  predicate Below(v: real, b: Band, t: Thresholds)
  {
    match b
    case Ocean => v < t.water
    case Beach => v < t.beach
    case Plains => v < t.hill
    case Hills => v < t.mountain
    case Mountain => true
  }

  /** The `if`/`else if` chain: the first band, in the order ocean, beach,
      plains, hills, mountain, whose upper bound exceeds v. */
  function SelectBand(v: real, t: Thresholds): (b: Band)
    ensures Below(v, b, t)
    ensures forall e :: Rank(e) < Rank(b) ==> !Below(v, e, t)
  {
    if v < t.water then Ocean
    else if v < t.beach then Beach
    else if v < t.hill then Plains
    else if v < t.mountain then Hills
    else Mountain
  }

  /** Exactly one band is chosen: a band that v lies below, after every
      earlier band has been passed over, is the selected one. */
  lemma {:induction false} SelectBandUnique(v: real, t: Thresholds, b: Band)
    requires Below(v, b, t)
    requires forall e :: Rank(e) < Rank(b) ==> !Below(v, e, t)
    ensures b == SelectBand(v, t)
  {
  }

  /** `height * 0.3 - 2`, `height * 0.5 - 0.5`, `height * 2`, `height * 6`,
      `height * 12`. */
  function BandHeight(b: Band, height: real): real
  {
    match b
    case Ocean => height * 0.3 - 2.0
    case Beach => height * 0.5 - 0.5
    case Plains => height * 2.0
    case Hills => height * 6.0
    case Mountain => height * 12.0
  }

  /** The outcome for one grid point: its band, its final height and the
      colour blend `lerp(from, to, weight)` that colours it. */
  datatype Shade = Shade(band: Band, height: real, from: Color, to: Color, weight: real)

  function ShadeColor(s: Shade): Color
  {
    LerpColor(s.from, s.to, s.weight)
  }

  /** The ocean blend `(waterLevel - biomeValue) / waterLevel`: in (0, 1]
      for every non-negative biome value below the water level. */
  function OceanDepth(v: real, waterLevel: real): (d: real)
    requires waterLevel != 0.0
    ensures 0.0 <= v < waterLevel ==> 0.0 < d <= 1.0
  {
    var d := (waterLevel - v) / waterLevel;
    assert 0.0 <= v < waterLevel ==> 0.0 < d <= 1.0 by {
      if 0.0 <= v < waterLevel {
        assert d * waterLevel == waterLevel - v;
        if d <= 0.0 { MulNonNeg(-d, waterLevel); }
        if d > 1.0 { MulPos(d - 1.0, waterLevel); }
      }
    }
    d
  }

  /** The source divides by zero in two places: the ocean depth when the water
      level is 0 (possible only for a negative biome value) and the mountain
      blend when the mountain frequency is 0. Outside these the classifier is
      total. */
  predicate Defined(v: real, waterLevel: real, mountainFreq: real)
  {
    var band := SelectBand(v, ThresholdsFor(waterLevel, mountainFreq));
    (band == Ocean ==> waterLevel != 0.0) && (band == Mountain ==> mountainFreq != 0.0)
  }

  /** Lines 311-375 of `generateTerrain`: select the band, transform the
      height, pick the colour pair and the blend weight. The snow colours
      appear exactly in the mountain band above height 8; every blend weight
      except the ocean's lies in [0, 1], and the ocean's does too for a
      non-negative biome value. */
  function Classify(v: real, height: real, waterLevel: real, mountainFreq: real): (s: Shade)
    requires Defined(v, waterLevel, mountainFreq)
    ensures s.band == SelectBand(v, ThresholdsFor(waterLevel, mountainFreq))
    ensures s.height == BandHeight(s.band, height)
    ensures s.band != Ocean || 0.0 <= v ==> 0.0 <= s.weight <= 1.0
    ensures (s.from == MountainsColor && s.to == SnowPeaksColor) <==> (s.band == Mountain && s.height > 8.0)
  {
    var t := ThresholdsFor(waterLevel, mountainFreq);
    match SelectBand(v, t)
    case Ocean =>
      Shade(Ocean, height * 0.3 - 2.0, ShallowOcean, DeepOcean, OceanDepth(v, waterLevel))
    case Beach =>
      Shade(Beach, height * 0.5 - 0.5, ShallowOcean, BeachColor, Smoothstep(t.water, t.beach, v))
    case Plains =>
      Shade(Plains, height * 2.0, BeachColor, PlainsColor, Smoothstep(t.beach, t.hill, v))
    case Hills =>
      Shade(Hills, height * 6.0, PlainsColor, HillsColor, Smoothstep(t.hill, t.mountain, v))
    case Mountain =>
      var h := height * 12.0;
      var mountainBlend := Smoothstep(t.mountain, 1.0, v);
      if h > 8.0 then Shade(Mountain, h, MountainsColor, SnowPeaksColor, Smoothstep(8.0, 12.0, h))
      else Shade(Mountain, h, HillsColor, MountainsColor, mountainBlend)
  }

  /** Every colour the classifier produces for a non-negative biome value
      lies in the unit cube. */
  lemma ClassifiedColorInUnitCube(v: real, height: real, waterLevel: real, mountainFreq: real)
    requires Defined(v, waterLevel, mountainFreq) && 0.0 <= v
    ensures InUnitCube(ShadeColor(Classify(v, height, waterLevel, mountainFreq)))
  {
    var s := Classify(v, height, waterLevel, mountainFreq);
    assert InUnitCube(s.from) && InUnitCube(s.to);
  }
}
