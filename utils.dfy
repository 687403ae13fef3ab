/** The shape factories (star outline, candy-cane curve, bell profile) and
    the per-vertex and per-fragment logic of the snow and foliage shaders. */
module Utils {
  import opened MathModel

  // ----- Star outline -----

  /** The number of points of the star; its outline has twice as many vertices. */
  const STAR_POINTS: nat := 5
  const STAR_OUTER_RADIUS: real := 1.0
  const STAR_INNER_RADIUS: real := 0.45

  /** Even vertices are tips, odd ones are notches. */
  function StarRadius(i: nat): (r: real)
    ensures i % 2 == 0 <==> r == STAR_OUTER_RADIUS
    ensures i % 2 == 1 <==> r == STAR_INNER_RADIUS
  {
    if i % 2 == 0 then STAR_OUTER_RADIUS else STAR_INNER_RADIUS
  }

  /** The direction of outline vertex `i`: straight up, turned by `i` fifths
      of pi (`i / 10` of a full turn). */
  function StarAngle(m: Math, i: nat): (a: real)
    ensures a == m.PI / 2.0 + i as real * m.PI / 5.0
  {
    (i as real / (STAR_POINTS * 2) as real) * m.PI * 2.0 + m.PI / 2.0
  }

  /** Outline vertex `i`, at the tip or notch radius in its direction. */
  function StarVertex(m: Math, i: nat): (v: Vec2)
    ensures TrigLaws(m) ==> v.x * v.x + v.y * v.y == StarRadius(i) * StarRadius(i)
  {
    CircleNorm(m, StarRadius(i), StarAngle(m, i));
    Vec2(m.cos(StarAngle(m, i)) * StarRadius(i), m.sin(StarAngle(m, i)) * StarRadius(i))
  }

  /** The first vertex is the top tip of the star, at (0, 1). */
  lemma StarPointsUp(m: Math)
    requires TrigLaws(m)
    ensures StarVertex(m, 0) == Vec2(0.0, STAR_OUTER_RADIUS)
  {
    assert StarAngle(m, 0) == m.PI / 2.0;
  }

  /** A two-dimensional path command, as recorded by a `Shape`. */
  datatype PathCommand = MoveTo(p: Vec2) | LineTo(p: Vec2) | ClosePath

  /** A planar shape, as the list of path commands issued to it. */
  class Shape {
    var commands: seq<PathCommand>

    constructor ()
      ensures commands == []
    {
      commands := [];
    }

    method MoveTo(p: Vec2)
      modifies this
      ensures commands == old(commands) + [PathCommand.MoveTo(p)]
    {
      commands := commands + [PathCommand.MoveTo(p)];
    }

    method LineTo(p: Vec2)
      modifies this
      ensures commands == old(commands) + [PathCommand.LineTo(p)]
    {
      commands := commands + [PathCommand.LineTo(p)];
    }

    method ClosePath()
      modifies this
      ensures commands == old(commands) + [PathCommand.ClosePath]
    {
      commands := commands + [PathCommand.ClosePath];
    }
  }

  /** The star outline: a move to the top tip, a line to each of the other
      nine vertices in turn, and a closing segment. */
  method CreateStarShape(m: Math) returns (shape: Shape)
    ensures fresh(shape)
    ensures |shape.commands| == STAR_POINTS * 2 + 1
    ensures shape.commands[0] == PathCommand.MoveTo(StarVertex(m, 0))
    ensures forall i :: 1 <= i < STAR_POINTS * 2 ==> shape.commands[i] == PathCommand.LineTo(StarVertex(m, i))
    ensures shape.commands[STAR_POINTS * 2] == PathCommand.ClosePath
  {
    shape := new Shape();
    var i := 0;
    while i < STAR_POINTS * 2
      invariant 0 <= i <= STAR_POINTS * 2
      invariant |shape.commands| == i
      invariant 0 < i ==> shape.commands[0] == PathCommand.MoveTo(StarVertex(m, 0))
      invariant forall j :: 1 <= j < i ==> shape.commands[j] == PathCommand.LineTo(StarVertex(m, j))
    {
      var v := StarVertex(m, i);
      if i == 0 {
        shape.MoveTo(v);
      } else {
        shape.LineTo(v);
      }
      i := i + 1;
    }
    shape.ClosePath();
  }

  /** The extrusion settings of the star geometry. */
  datatype ExtrudeSettings = ExtrudeSettings(
    depth: real, bevelEnabled: bool, bevelThickness: real, bevelSize: real, bevelSegments: nat)

  const STAR_EXTRUDE: ExtrudeSettings := ExtrudeSettings(0.3, true, 0.05, 0.05, 2)

  // ----- Candy-cane curve -----

  /** Where the straight shaft ends and the hook begins, as a curve parameter. */
  const CANE_SPLIT: real := 0.6
  /** Radius and centre of the hook's arc. */
  const CANE_HOOK_RADIUS: real := 0.2
  const CANE_HOOK_CENTRE: Vec2 := Vec2(0.2, 1.0)

  /** The arc angle at parameter `t` of the hook: from 0 at the split to pi at
      the end of the curve. */
  function HookAngle(m: Math, t: real): (a: real)
    ensures PiLaw(m) && CANE_SPLIT <= t <= 1.0 ==> 0.0 <= a <= m.PI
  {
    ScaleWithin(m.PI, HookFraction(t));
    HookFraction(t) * m.PI
  }

  /** How far along the hook parameter `t` is: 0 at the split, 1 at the end. */
  function HookFraction(t: real): (f: real)
    ensures CANE_SPLIT <= t <= 1.0 ==> 0.0 <= f <= 1.0
  {
    (t - CANE_SPLIT) / 0.4
  }

  /** The cane's centre line at parameter `t`: a vertical shaft, then a
      half-circle hook. */
  function CanePoint(m: Math, t: real): (p: Vec3)
    // the curve lies in the plane z = 0
    ensures p.z == 0.0
    // the shaft rises along the y axis
    ensures t < CANE_SPLIT ==> p == Vec3(0.0, t * 1.66, 0.0)
  {
    if t < CANE_SPLIT then Vec3(0.0, t * 1.66, 0.0)
    else
      var angle := HookAngle(m, t);
      Vec3(CANE_HOOK_CENTRE.x - m.cos(angle) * CANE_HOOK_RADIUS,
           CANE_HOOK_CENTRE.y + m.sin(angle) * CANE_HOOK_RADIUS, 0.0)
  }

  /** Every point of the hook lies on the circle of radius 0.2 around (0.2, 1),
      on or above the line y = 1. */
  lemma {:induction false} HookOnArc(m: Math, t: real)
    requires TrigLaws(m) && CANE_SPLIT <= t <= 1.0
    ensures var p := CanePoint(m, t);
      var dx, dy := p.x - CANE_HOOK_CENTRE.x, p.y - CANE_HOOK_CENTRE.y;
      dx * dx + dy * dy == CANE_HOOK_RADIUS * CANE_HOOK_RADIUS && CANE_HOOK_CENTRE.y <= p.y
  {
    var angle := HookAngle(m, t);
    var s, c := m.sin(angle), m.cos(angle);
    assert s * s + c * c == 1.0;
    assert 0.0 <= s;
    calc {
      (-(c * 0.2)) * (-(c * 0.2)) + (s * 0.2) * (s * 0.2);
      (s * s + c * c) * 0.04;
      0.04;
    }
  }

  /** The hook starts at (0, 1) and ends at (0.4, 1). */
  lemma HookEnds(m: Math)
    requires TrigLaws(m)
    ensures CanePoint(m, CANE_SPLIT) == Vec3(0.0, 1.0, 0.0)
    ensures CanePoint(m, 1.0) == Vec3(0.4, 1.0, 0.0)
  {
    assert HookAngle(m, CANE_SPLIT) == 0.0;
    assert HookAngle(m, 1.0) == m.PI;
  }

  /** The shaft stays below height 0.996, while the hook starts at height 1:
      the curve jumps at the split. */
  lemma {:induction false} ShaftBelowHook(m: Math, t: real)
    requires TrigLaws(m) && 0.0 <= t < CANE_SPLIT
    ensures CanePoint(m, t).y < 0.996 < CanePoint(m, CANE_SPLIT).y
  {
    HookEnds(m);
  }

  /** The tube swept along the cane curve. */
  datatype TubeSettings = TubeSettings(tubularSegments: nat, radius: real, radialSegments: nat, closed: bool)

  const CANE_TUBE: TubeSettings := TubeSettings(32, 0.15, 8, false)

  // ----- Bell profile -----

  /** The number of sampled points of the bell's flared body. */
  const BELL_SAMPLES: nat := 10
  /** The number of segments of the lathe that turns the profile. */
  const BELL_LATHE_SEGMENTS: nat := 24

  /** Profile point `i` of the body: radius `0.5 * (i/10)^0.6 + 0.1`, height
      `-0.8 + 1.3 * i/10`. */
  function BellPoint(m: Math, i: nat): (v: Vec2)
    ensures v.y == -0.8 + (i as real / 10.0) * 1.3
    ensures PowLaws(m) && i < BELL_SAMPLES ==> 0.1 <= v.x < 0.6
  {
    PowOfDraw(m, i as real / 10.0, 0.6);
    Vec2(0.5 * m.pow(i as real / 10.0, 0.6) + 0.1, -0.8 + i as real / 10.0 * 1.3)
  }

  /** Going up the body the profile rises and widens strictly: the bell flares
      toward its mouth at the top of the list. */
  lemma {:induction false} BellFlares(m: Math, i: nat, j: nat)
    requires PowLaws(m) && i < j < BELL_SAMPLES
    ensures BellPoint(m, i).y < BellPoint(m, j).y
    ensures BellPoint(m, i).x < BellPoint(m, j).x
  {
    var fi, fj := i as real / 10.0, j as real / 10.0;
    assert 0.0 <= fi < fj;
    assert m.pow(fi, 0.6) < m.pow(fj, 0.6);
  }

  /** The bell's lathe profile: ten body points, then the rim at (0.4, -0.9)
      and the axis point (0, -0.9) that closes the bottom. */
  method BellProfile(m: Math) returns (points: seq<Vec2>)
    ensures |points| == BELL_SAMPLES + 2
    ensures forall i :: 0 <= i < BELL_SAMPLES ==> points[i] == BellPoint(m, i)
    ensures points[BELL_SAMPLES] == Vec2(0.4, -0.9)
    ensures points[BELL_SAMPLES + 1] == Vec2(0.0, -0.9)
    // the rim and the axis point lie below all of the body
    ensures forall i :: 0 <= i < BELL_SAMPLES ==> points[BELL_SAMPLES].y < points[i].y
  {
    points := [];
    var i := 0;
    while i < BELL_SAMPLES
      invariant 0 <= i <= BELL_SAMPLES
      invariant |points| == i
      invariant forall j :: 0 <= j < i ==> points[j] == BellPoint(m, j)
    {
      var f := i as real / 10.0;
      points := points + [Vec2(0.5 * m.pow(f, 0.6) + 0.1, -0.8 + f * 1.3)];
      i := i + 1;
    }
    points := points + [Vec2(0.4, -0.9)];
    points := points + [Vec2(0.0, -0.9)];
  }

  // ----- Shaders -----

  datatype Rgb = Rgb(r: real, g: real, b: real)
  datatype Rgba = Rgba(r: real, g: real, b: real, a: real)
  datatype Option<T> = None | Some(value: T)

  function SquaredDistance(a: Vec2, b: Vec2): (d: real)
    ensures 0.0 <= d
  {
    (a.x - b.x) * (a.x - b.x) + (a.y - b.y) * (a.y - b.y)
  }

  /** GLSL `distance` between two points of the plane. */
  function Distance(m: Math, a: Vec2, b: Vec2): real {
    m.sqrt(SquaredDistance(a, b))
  }

  /** The centre of a point sprite, in sprite coordinates. */
  const SPRITE_CENTRE: Vec2 := Vec2(0.5, 0.5)

  /** A point sprite's fragment at `coord` is discarded when it lies farther
      than 0.5 from the sprite's centre. */
  predicate Discards(m: Math, coord: Vec2) {
    Distance(m, coord, SPRITE_CENTRE) > 0.5
  }

  /** The fragments kept are exactly those of the disc of radius 0.5 around
      the sprite's centre. */
  lemma KeepsDisc(m: Math, coord: Vec2)
    ensures SqrtLaw(m) ==> (Discards(m, coord) <==> SquaredDistance(coord, SPRITE_CENTRE) > 0.25)
  {
    if SqrtLaw(m) {
      SqrtExceeds(m, SquaredDistance(coord, SPRITE_CENTRE), 0.5);
    }
  }

  /** The snow vertex shader's displacement: a vertical jitter of at most
      0.02, driven by the clock and the vertex's random attribute. */
  function SnowVertex(m: Math, position: Vec3, uTime: real, aRandom: real): (pos: Vec3)
    ensures pos.x == position.x && pos.z == position.z
    ensures TrigLaws(m) ==> position.y - 0.02 <= pos.y <= position.y + 0.02
  {
    SinCosBounded(m, uTime + aRandom * 100.0);
    position.(y := position.y + m.sin(uTime + aRandom * 100.0) * 0.02)
  }

  /** The snow fragment shader: an opaque fragment of the uniform colour, or
      nothing outside the disc. */
  function SnowFragment(m: Math, coord: Vec2, uColor: Rgb): (c: Option<Rgba>)
    ensures c.None? <==> Discards(m, coord)
    // under the square-root law, exactly the fragments outside the disc are dropped
    ensures SqrtLaw(m) ==> (c.None? <==> SquaredDistance(coord, SPRITE_CENTRE) > 0.25)
    ensures c.Some? ==> c.value == Rgba(uColor.r, uColor.g, uColor.b, 1.0)
  {
    KeepsDisc(m, coord);
    if Discards(m, coord) then None else Some(Rgba(uColor.r, uColor.g, uColor.b, 1.0))
  }

  /** The foliage shader's easing of the progress uniform: a cubic ease-in
      on [0, 0.5) and a cubic ease-out from 0.5 on. */
  function Ease(t: real): (e: real)
    ensures t == 0.0 ==> e == 0.0
    ensures t == 0.5 ==> e == 0.5
    ensures t == 1.0 ==> e == 1.0
  {
    if t < 0.5 then 4.0 * t * t * t else (t - 1.0) * (2.0 * t - 2.0) * (2.0 * t - 2.0) + 1.0
  }

  /** Cubing is strictly increasing. */
  lemma CubeLess(a: real, b: real)
    requires a < b
    ensures a * a * a < b * b * b
    decreases if a < 0.0 then 1 else 0
  {
    if 0.0 <= a {
      SquareLess(a, b);
      var aa, bb := a * a, b * b;
      assert aa * a <= bb * a;
      assert bb * a < bb * b;
    } else if b <= 0.0 {
      CubeLess(-b, -a);
      assert (-b) * (-b) * (-b) == -(b * b * b);
      assert (-a) * (-a) * (-a) == -(a * a * a);
    } else {
      CubeSides(a);
      SquareLess(0.0, b);
      var bb := b * b;
      assert 0.0 < bb * b;
    }
  }

  /** The ease-out branch is a shifted cube. */
  lemma EaseOutCube(t: real)
    ensures (t - 1.0) * (2.0 * t - 2.0) * (2.0 * t - 2.0) + 1.0 == 4.0 * ((t - 1.0) * (t - 1.0) * (t - 1.0)) + 1.0
  {
    var d := t - 1.0;
    assert 2.0 * t - 2.0 == 2.0 * d;
    calc {
      d * (2.0 * d) * (2.0 * d);
      4.0 * (d * d * d);
    }
  }

  /** The easing is strictly increasing. */
  lemma {:induction false} EaseMonotone(a: real, b: real)
    requires a < b
    ensures Ease(a) < Ease(b)
  {
    EaseOutCube(a);
    EaseOutCube(b);
    if b < 0.5 {
      CubeLess(a, b);
    } else if 0.5 <= a {
      CubeLess(a - 1.0, b - 1.0);
    } else {
      CubeLess(a, 0.5);
      if b - 1.0 == -0.5 {
      } else {
        CubeLess(-0.5, b - 1.0);
      }
    }
  }

  /** The easing maps [0, 1] onto [0, 1]. */
  lemma {:induction false} EaseUnit(t: real)
    requires 0.0 <= t <= 1.0
    ensures 0.0 <= Ease(t) <= 1.0
  {
    if 0.0 < t {
      EaseMonotone(0.0, t);
    }
    if t < 1.0 {
      EaseMonotone(t, 1.0);
    }
  }

  /** The easing is point-symmetric about (0.5, 0.5). */
  lemma {:induction false} EaseSymmetric(t: real)
    ensures Ease(1.0 - t) == 1.0 - Ease(t)
  {
    EaseOutCube(t);
    EaseOutCube(1.0 - t);
    var u := 1.0 - t;
    assert (u - 1.0) * (u - 1.0) * (u - 1.0) == -(t * t * t);
    assert (t - 1.0) * (t - 1.0) * (t - 1.0) == -(u * u * u);
  }

  /** GLSL `mix` of two points. */
  function Mix(a: Vec3, b: Vec3, t: real): (r: Vec3)
    ensures t == 0.0 ==> r == a
    ensures t == 1.0 ==> r == b
  {
    Vec3(a.x * (1.0 - t) + b.x * t, a.y * (1.0 - t) + b.y * t, a.z * (1.0 - t) + b.z * t)
  }

  /** The foliage vertex shader's position: blended from chaos to target by
      the eased progress, with a sideways sway that grows with the blend. */
  function FoliageVertex(m: Math, aChaos: Vec3, aTarget: Vec3, uProgress: real, uTime: real): (pos: Vec3)
    // with no progress the particle sits at its chaos position
    ensures uProgress == 0.0 ==> pos == aChaos
    // at full progress it sits at its target, up to the sway in x
    ensures uProgress == 1.0 ==> pos.y == aTarget.y && pos.z == aTarget.z
    ensures uProgress == 1.0 && TrigLaws(m) ==> aTarget.x - 0.1 <= pos.x <= aTarget.x + 0.1
    // in between, only x leaves the blended point, by at most 0.1 times the blend
    ensures var t := Ease(uProgress); var blend := Mix(aChaos, aTarget, t);
      pos.y == blend.y && pos.z == blend.z &&
      (TrigLaws(m) && 0.0 <= t ==> blend.x - 0.1 * t <= pos.x <= blend.x + 0.1 * t)
  {
    var blend := Mix(aChaos, aTarget, Ease(uProgress));
    Vec3(blend.x + FoliageSway(m, blend.y, uTime, Ease(uProgress)), blend.y, blend.z)
  }

  /** The sideways sway of a foliage particle at height `y` and blend `t`:
      none before the blend starts, and at most `0.1 * t` either way. */
  function FoliageSway(m: Math, y: real, uTime: real, t: real): (w: real)
    ensures t == 0.0 ==> w == 0.0
    ensures TrigLaws(m) && 0.0 <= t ==> -0.1 * t <= w <= 0.1 * t
  {
    SinCosBounded(m, uTime * 2.0 + y);
    SwayWithin(m.sin(uTime * 2.0 + y), t);
    m.sin(uTime * 2.0 + y) * 0.1 * t
  }

  /** A sway `s * 0.1 * t` with `s` in [-1, 1] and `t >= 0` is at most `0.1 * t`. */
  lemma SwayWithin(s: real, t: real)
    ensures -1.0 <= s <= 1.0 && 0.0 <= t ==> -0.1 * t <= s * 0.1 * t <= 0.1 * t
  {
    if -1.0 <= s <= 1.0 && 0.0 <= t {
      var st := s * t;
      assert -1.0 * t <= st <= 1.0 * t;
      assert s * 0.1 * t == 0.1 * st;
    }
  }

  /** The foliage particles' opacity: a flicker between 0 and 1. */
  function FoliageAlpha(m: Math, uTime: real, chaosY: real): (alpha: real)
    ensures TrigLaws(m) ==> 0.0 <= alpha <= 1.0
  {
    SinCosBounded(m, uTime * 5.0 + chaosY);
    0.5 + 0.5 * m.sin(uTime * 5.0 + chaosY)
  }

  /** The colour of foliage particles, before their opacity. */
  const FOLIAGE_COLOR: Rgb := Rgb(0.0, 0.5, 0.2)

  /** The foliage fragment shader: the foliage colour at the vertex's opacity,
      or nothing outside the disc. */
  function FoliageFragment(m: Math, coord: Vec2, vAlpha: real): (c: Option<Rgba>)
    ensures c.None? <==> Discards(m, coord)
    // under the square-root law, exactly the fragments outside the disc are dropped
    ensures SqrtLaw(m) ==> (c.None? <==> SquaredDistance(coord, SPRITE_CENTRE) > 0.25)
    ensures c.Some? ==> c.value == Rgba(FOLIAGE_COLOR.r, FOLIAGE_COLOR.g, FOLIAGE_COLOR.b, vAlpha)
  {
    KeepsDisc(m, coord);
    if Discards(m, coord) then None else Some(Rgba(FOLIAGE_COLOR.r, FOLIAGE_COLOR.g, FOLIAGE_COLOR.b, vAlpha))
  }
}
