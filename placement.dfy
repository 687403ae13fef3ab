/** The placement laws shared by the decoration items and the foliage cloud:
    a formation target on the surface of a cone-shaped tree, and a chaos
    position on a sphere around the formation origin. */
module Placement {
  import opened MathModel

  /** Height of a formation target for density parameter `p`: the tree spans
      y in [-7, 7] and `p = 0` is its apex. */
  function ConeHeight(p: real): (y: real)
    ensures 0.0 <= p <= 1.0 ==> -7.0 <= y <= 7.0
    ensures y == 7.0 <==> p == 0.0
    ensures y == -7.0 <==> p == 1.0
  {
    -7.0 + 14.0 * (1.0 - p)
  }

  /** The radius of the cone of base radius `rFactor` at height `y`: zero at
      the apex (y = 7), `rFactor` at the base (y = -7). */
  function ConeRadiusAt(rFactor: real, y: real): real {
    rFactor * (7.0 - y) / 14.0
  }

  /** `v` lies on the surface of the cone of base radius `rFactor`: its
      horizontal distance from the axis is the cone's radius at its height. */
  ghost predicate OnConeSurface(rFactor: real, v: Vec3) {
    v.x * v.x + v.z * v.z == ConeRadiusAt(rFactor, v.y) * ConeRadiusAt(rFactor, v.y)
  }

  /** The formation target of density `p` and angle draw `u` on the cone whose
      radius at the base (y = -7) is `rFactor`. */
  function ConeTarget(m: Math, p: real, rFactor: real, u: real): (t: Vec3)
    requires TrigLaws(m)
    ensures t.y == ConeHeight(p)
    ensures ConeRadiusAt(rFactor, t.y) == rFactor * p
    ensures OnConeSurface(rFactor, t)
  {
    var r := rFactor * p;
    var angle := Turn(m, u);
    CircleNorm(m, r, angle);
    var y := ConeHeight(p);
    assert 7.0 - y == 14.0 * p;
    assert rFactor * (14.0 * p) == 14.0 * r;
    Vec3(m.cos(angle) * r, y, m.sin(angle) * r)
  }

  /** A point at `radius` from the origin, in the direction given by the two
      draws `u` (azimuth) and `v` (polar angle, `acos(2v - 1)`). */
  function ShellPoint(m: Math, radius: real, u: real, v: real): (c: Vec3)
    requires TrigLaws(m)
    ensures SquaredNorm(c) == radius * radius
  {
    var theta := Turn(m, u);
    var phi := m.acos(2.0 * v - 1.0);
    SphericalNorm(m, radius, theta, phi);
    Vec3(radius * m.sin(phi) * m.cos(theta), radius * m.sin(phi) * m.sin(theta), radius * m.cos(phi))
  }

  /** Within the tree's height range, a target's horizontal distance from the
      axis is at most the full radius `rFactor`. */
  lemma {:induction false} TargetWithinSilhouette(m: Math, p: real, rFactor: real, u: real)
    requires TrigLaws(m) && 0.0 <= p <= 1.0 && 0.0 <= rFactor
    ensures var t := ConeTarget(m, p, rFactor, u);
      -7.0 <= t.y <= 7.0 && t.x * t.x + t.z * t.z <= rFactor * rFactor
  {
    ScaleWithin(rFactor, p);
    if rFactor * p < rFactor {
      SquareLess(rFactor * p, rFactor);
    }
  }
}
