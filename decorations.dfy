/** The decoration components: the sparkle cap of snow on balls and bells,
    the gift box layout, and the floating star on top of the tree. */
module Decorations {
  import opened MathModel
  import opened Placement
  import App

  // ----- Sparkle cap -----

  /** How far above the item's surface the sparkles sit. */
  const CAP_LIFT: real := 0.01
  /** How far down from the pole the sparkles spread, in units of `1 - cos(phi)`. */
  const CAP_SPREAD: real := 0.35
  /** The sparkle count when none is given, and the one the bell asks for. */
  const DEFAULT_CAP_COUNT: nat := 80
  const BELL_CAP_COUNT: nat := 30
  /** The item radius both the metal balls and the bell pass in. */
  const CAP_ITEM_RADIUS: real := 0.5

  /** The four `Math.random()` values one sparkle consumes. */
  datatype CapDraws = CapDraws(u: real, v: real, random: real, size: real)

  predicate ValidCapDraws(d: CapDraws) {
    IsDraw(d.u) && IsDraw(d.v) && IsDraw(d.random) && IsDraw(d.size)
  }

  /** The sphere the sparkles lie on: just outside the item. */
  function CapRadius(radius: real): real {
    radius + CAP_LIFT
  }

  /** The `acos` argument of a sparkle: within the domain (0.65, 1]. */
  function CapCosine(v: real): (c: real)
    requires IsDraw(v)
    ensures 0.65 < c <= 1.0
  {
    1.0 - v * CAP_SPREAD
  }

  /** The azimuth of a sparkle: a full turn scaled by its draw. */
  function CapAzimuth(m: Math, u: real): real {
    2.0 * m.PI * u
  }

  /** The polar angle of a sparkle, measured from the top of the item. */
  function CapPolar(m: Math, v: real): real
    requires IsDraw(v)
  {
    m.acos(CapCosine(v))
  }

  /** Sparkle position from its two direction draws `d.u` and `d.v`. */
  function CapPoint(m: Math, radius: real, d: CapDraws): (p: Vec3)
    requires ValidCapDraws(d)
  {
    Vec3(CapRadius(radius) * m.sin(CapPolar(m, d.v)) * m.cos(CapAzimuth(m, d.u)),
         CapRadius(radius) * m.cos(CapPolar(m, d.v)),
         CapRadius(radius) * m.sin(CapPolar(m, d.v)) * m.sin(CapAzimuth(m, d.u)))
  }

  /** Every sparkle lies on the sphere of radius `radius + 0.01` around the
      item's centre. */
  lemma {:induction false} CapOnSphere(m: Math, radius: real, d: CapDraws)
    requires TrigLaws(m) && ValidCapDraws(d)
    ensures SquaredNorm(CapPoint(m, radius, d)) == CapRadius(radius) * CapRadius(radius)
  {
    SphericalNorm(m, CapRadius(radius), CapAzimuth(m, d.u), CapPolar(m, d.v));
  }

  /** A sparkle's height is the sphere's radius times `1 - 0.35 v`, so the
      sparkles cover the top cap above 0.65 of the radius. */
  lemma {:induction false} CapOnTop(m: Math, radius: real, d: CapDraws)
    requires AcosLaws(m) && ValidCapDraws(d) && 0.0 < CapRadius(radius)
    ensures CapPoint(m, radius, d).y == CapRadius(radius) * (1.0 - 0.35 * d.v)
    ensures 0.65 * CapRadius(radius) < CapPoint(m, radius, d).y <= CapRadius(radius)
  {
    var c := CapCosine(d.v);
    assert m.cos(m.acos(c)) == c;
    var r := CapRadius(radius);
    var rc := r * c;
    assert r * 0.65 < rc by {
      assert 0.0 < r * (c - 0.65);
    }
    assert rc <= r * 1.0;
  }

  /** A sparkle's point size: in [0.3, 0.7). */
  function CapSize(d: CapDraws): (s: real)
    requires ValidCapDraws(d)
    ensures 0.3 <= s < 0.7
  {
    d.size * 0.4 + 0.3
  }

  /** A sparkle's random phase attribute: a draw of its own. */
  function CapRandom(d: CapDraws): (r: real)
    requires ValidCapDraws(d)
    ensures IsDraw(r) && r == d.random
  {
    d.random
  }

  /** The positions of a list of sparkles, in order. */
  function CapPoints(m: Math, radius: real, draws: seq<CapDraws>): (ps: seq<Vec3>)
    requires forall i :: 0 <= i < |draws| ==> ValidCapDraws(draws[i])
  {
    seq(|draws|, i requires 0 <= i < |draws| && ValidCapDraws(draws[i]) => CapPoint(m, radius, draws[i]))
  }

  /** Fill the sparkle buffers by index: three coordinates, one random phase
      and one size per sparkle. */
  method SparkleCap(m: Math, radius: real, count: nat, draws: seq<CapDraws>)
    returns (positions: array<real>, randoms: array<real>, sizes: array<real>)
    requires |draws| == count
    requires forall i :: 0 <= i < count ==> ValidCapDraws(draws[i])
    ensures fresh(positions) && fresh(randoms) && fresh(sizes)
    ensures positions.Length == 3 * count && randoms.Length == count && sizes.Length == count
    ensures positions[..] == Flatten(CapPoints(m, radius, draws))
    ensures forall i :: 0 <= i < count ==> randoms[i] == CapRandom(draws[i]) && sizes[i] == CapSize(draws[i])
  {
    positions := new real[3 * count](_ => 0.0);
    randoms := new real[count](_ => 0.0);
    sizes := new real[count](_ => 0.0);
    ghost var points := CapPoints(m, radius, draws);
    var i := 0;
    while i < count
      invariant 0 <= i <= count
      invariant positions != randoms && positions != sizes && randoms != sizes
      invariant positions[..3 * i] == Flatten(points[..i])
      invariant forall j :: 0 <= j < i ==> randoms[j] == CapRandom(draws[j]) && sizes[j] == CapSize(draws[j])
    {
      ghost var before := positions[..];
      StoreSparkle(positions, randoms, sizes, i, CapPoint(m, radius, draws[i]), CapRandom(draws[i]), CapSize(draws[i]));
      CapStep(before, positions[..], points, i);
      i := i + 1;
    }
    assert positions[..] == positions[..3 * count];
    assert points[..count] == points;
  }

  /** The writes for sparkle `i`: its coordinates at `3 i .. 3 i + 2`, its
      phase and its size at `i`. */
  method StoreSparkle(positions: array<real>, randoms: array<real>, sizes: array<real>,
                      i: nat, p: Vec3, random: real, size: real)
    requires positions != randoms && positions != sizes && randoms != sizes
    requires 3 * i + 2 < positions.Length && i < randoms.Length && i < sizes.Length
    modifies positions, randoms, sizes
    ensures positions[..] == old(positions[..])[3 * i := p.x][3 * i + 1 := p.y][3 * i + 2 := p.z]
    ensures randoms[i] == random && sizes[i] == size
    ensures forall k :: 0 <= k < randoms.Length && k != i ==> randoms[k] == old(randoms[k])
    ensures forall k :: 0 <= k < sizes.Length && k != i ==> sizes[k] == old(sizes[k])
  {
    positions[i * 3] := p.x;
    positions[i * 3 + 1] := p.y;
    positions[i * 3 + 2] := p.z;
    randoms[i] := random;
    sizes[i] := size;
  }

  /** Writing the three coordinates of point `i` behind a buffer that holds
      the first `i` points extends it to the first `i + 1`. */
  lemma CapStep(before: seq<real>, after: seq<real>, points: seq<Vec3>, i: nat)
    requires i < |points| && |before| == 3 * |points|
    requires before[..3 * i] == Flatten(points[..i])
    requires after == before[3 * i := points[i].x][3 * i + 1 := points[i].y][3 * i + 2 := points[i].z]
    ensures after[..3 * i + 3] == Flatten(points[..i + 1])
  {
    assert points[..i + 1] == points[..i] + [points[i]];
    FlattenPush(points[..i], points[i]);
    assert after[..3 * i + 3] == before[..3 * i] + [points[i].x, points[i].y, points[i].z];
  }

  // ----- Gift box -----

  datatype Box = Box(width: real, height: real, depth: real)

  /** A bow: its position, its roll about z and its uniform scale. */
  datatype Bow = Bow(position: Vec3, roll: real, scale: real)

  /** The meshes of a gift box: the body, two crossing ribbon bands and two
      bows, with the colours they are drawn in. */
  datatype GiftLayout = GiftLayout(
    bodyColor: string, ribbonColor: string,
    body: Box, band1: Box, band2: Box, bow1: Bow, bow2: Bow)

  /** The side of the gift's square footprint. */
  const GIFT_SIDE: real := 0.6
  /** How much the ribbon bands stand out from the body. */
  const BAND_MARGIN: real := 0.02
  /** The band thickness, as a fraction of the body. */
  const BAND_FRACTION: real := 0.2

  function GiftBox(color: string, ribbonColor: string, ratio: real): (g: GiftLayout)
    ensures g.bodyColor == color && g.ribbonColor == ribbonColor
    ensures g.body == Box(GIFT_SIDE, GIFT_SIDE * ratio, GIFT_SIDE)
    // both bands stand 0.02 taller than the body; each is 0.02 larger across
    // one side and a fifth of the body along the other
    ensures g.band1 == Box(g.body.width + BAND_MARGIN, g.body.height + BAND_MARGIN, g.body.depth * BAND_FRACTION)
    ensures g.band2 == Box(g.body.width * BAND_FRACTION, g.body.height + BAND_MARGIN, g.body.depth + BAND_MARGIN)
    // the two bows sit at the centre of the lid, rolled symmetrically
    ensures g.bow1.position == g.bow2.position == Vec3(0.0, g.body.height / 2.0, 0.0)
    ensures g.bow1.roll == -g.bow2.roll == 0.5 && g.bow1.scale == g.bow2.scale == 0.2
  {
    var width, height, depth := GIFT_SIDE, GIFT_SIDE * ratio, GIFT_SIDE;
    GiftLayout(
      color, ribbonColor,
      Box(width, height, depth),
      Box(width + BAND_MARGIN, height + BAND_MARGIN, depth * BAND_FRACTION),
      Box(width * BAND_FRACTION, height + BAND_MARGIN, depth + BAND_MARGIN),
      Bow(Vec3(0.0, height / 2.0, 0.0), 0.5, 0.2),
      Bow(Vec3(0.0, height / 2.0, 0.0), -0.5, 0.2))
  }

  /** The ribbon bands wrap the body: each is wider than the body in one
      horizontal direction, narrower in the other, and taller than it. */
  lemma {:induction false} BandsWrapBody(color: string, ribbonColor: string, ratio: real)
    requires 0.0 < ratio
    ensures var g := GiftBox(color, ribbonColor, ratio);
      && g.body.width < g.band1.width && g.band1.depth < g.body.depth
      && g.band2.width < g.body.width && g.body.depth < g.band2.depth
      && g.body.height < g.band1.height == g.band2.height
      && 0.0 < g.band1.depth && 0.0 < g.band2.width
  {
    var g := GiftBox(color, ribbonColor, ratio);
    assert g.body == Box(GIFT_SIDE, GIFT_SIDE * ratio, GIFT_SIDE);
  }

  /** The box a gift item is drawn with: 0.6 high, or 0.84 for a tall gift,
      and its ribbon never in the colour of its body. */
  lemma {:induction false} GiftItemBox(t: App.ItemType, colour: real, shade: real, tall: real)
    requires t == App.Gift
    ensures var s := App.Style(t, colour, shade, tall);
      var g := GiftBox(s.body, s.ribbon, s.ratio);
      && g.body.height == (if tall > 0.5 then 0.84 else 0.6)
      && g.bodyColor != g.ribbonColor
  {
    var s := App.Style(t, colour, shade, tall);
    assert s.ratio == (if tall > 0.5 then 1.4 else 1.0);
    assert s.body != s.ribbon;
  }

  // ----- Star -----

  /** The height the star floats around, above the apex of the tree. */
  const STAR_HEIGHT: real := 7.8

  /** The star's height at time `elapsed`: a slow bob of amplitude 0.1. */
  function StarBob(m: Math, elapsed: real): (y: real)
    ensures TrigLaws(m) ==> STAR_HEIGHT - 0.1 <= y <= STAR_HEIGHT + 0.1
  {
    SinCosBounded(m, elapsed * 1.5);
    STAR_HEIGHT + m.sin(elapsed * 1.5) * 0.1
  }

  /** The star always floats clear above the tip of the tree. */
  lemma {:induction false} StarAboveTree(m: Math, elapsed: real)
    requires TrigLaws(m)
    ensures ConeHeight(0.0) < StarBob(m, elapsed)
  {
    assert ConeHeight(0.0) == 7.0;
  }

  /** The live transform of the star group. */
  class StarGroup {
    var rotationY: real
    var positionY: real

    constructor ()
      ensures rotationY == 0.0 && positionY == STAR_HEIGHT
    {
      rotationY := 0.0;
      positionY := STAR_HEIGHT;
    }

    /** One frame at time `elapsed`: a steady spin and the bob. */
    method Frame(m: Math, elapsed: real)
      modifies this
      ensures rotationY == elapsed * 0.4
      ensures positionY == StarBob(m, elapsed)
    {
      rotationY := elapsed * 0.4;
      positionY := StarBob(m, elapsed);
    }
  }
}
