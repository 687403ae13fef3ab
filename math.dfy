/** The numeric vocabulary the scene code relies on.

    JavaScript's `Math.sin`, `Math.cos`, `Math.acos`, `Math.pow`, `Math.cbrt`,
    GLSL's `sqrt` (inside `distance`) and the constant `Math.PI` are not
    definable over the reals in Dafny, so they are gathered in one record of
    total functions, `Math`, and every member that uses them asks for a
    `Lawful` record: one obeying the handful of identities and bounds below.
    The true mathematical functions (with `PI` = pi) are such a record.
    Random draws (`Math.random()`) are never part of this record: they are
    explicit `real` parameters in [0, 1).
 */
module MathModel {

  datatype Math = Math(
    PI: real,
    sin: real -> real,
    cos: real -> real,
    acos: real -> real,
    pow: (real, real) -> real,
    cbrt: real -> real,
    sqrt: real -> real)

  /** The laws the model may use about the functions of `m`, grouped so that
      each member can ask for only the ones it needs. */
  ghost predicate Lawful(m: Math) {
    PiLaw(m) && TrigLaws(m) && AcosLaws(m) && PowLaws(m) && CbrtLaw(m) && SqrtLaw(m)
  }

  /** `PI` is pi, to the precision of a double. */
  predicate PiLaw(m: Math) {
    3.141592653589793 < m.PI < 3.141592653589794
  }

  /** Sine and cosine satisfy Pythagoras' identity, take their values at 0,
      pi/2 and pi, and sine is non-negative on [0, pi]. */
  ghost predicate TrigLaws(m: Math) {
    && PiLaw(m)
    && (forall x :: m.sin(x) * m.sin(x) + m.cos(x) * m.cos(x) == 1.0)
    && m.sin(0.0) == 0.0 && m.cos(0.0) == 1.0
    && m.sin(m.PI / 2.0) == 1.0 && m.cos(m.PI / 2.0) == 0.0
    && m.sin(m.PI) == 0.0 && m.cos(m.PI) == -1.0
    && (forall x :: 0.0 <= x <= m.PI ==> 0.0 <= m.sin(x))
  }

  /** On [-1, 1], `acos` is an inverse of `cos` with values in [0, pi]. */
  ghost predicate AcosLaws(m: Math) {
    forall x :: -1.0 <= x <= 1.0 ==> 0.0 <= m.acos(x) <= m.PI && m.cos(m.acos(x)) == x
  }

  /** For a positive exponent, `pow` fixes 0 and 1 and is strictly increasing
      on the non-negative reals. */
  ghost predicate PowLaws(m: Math) {
    && (forall k :: 0.0 < k ==> m.pow(0.0, k) == 0.0 && m.pow(1.0, k) == 1.0)
    && (forall x, y, k :: 0.0 <= x < y && 0.0 < k ==> m.pow(x, k) < m.pow(y, k))
  }

  /** `cbrt` is the inverse of cubing. */
  ghost predicate CbrtLaw(m: Math) {
    forall x :: m.cbrt(x) * m.cbrt(x) * m.cbrt(x) == x
  }

  /** `sqrt` gives the non-negative square root of a non-negative number. */
  ghost predicate SqrtLaw(m: Math) {
    forall x :: 0.0 <= x ==> 0.0 <= m.sqrt(x) && m.sqrt(x) * m.sqrt(x) == x
  }

  /** A value `Math.random()` can return. */
  predicate IsDraw(u: real) {
    0.0 <= u < 1.0
  }

  datatype Vec2 = Vec2(x: real, y: real)
  datatype Vec3 = Vec3(x: real, y: real, z: real)

  function SquaredNorm(v: Vec3): real {
    v.x * v.x + v.y * v.y + v.z * v.z
  }

  /** A `real` whose square is at most 1 lies in [-1, 1]. */
  lemma UnitSquare(s: real)
    requires s * s <= 1.0
    ensures -1.0 <= s <= 1.0
  {
  }

  /** Under the trigonometric laws, sine and cosine values are bounded by 1
      in absolute value. */
  lemma SinCosBounded(m: Math, a: real)
    ensures TrigLaws(m) ==> -1.0 <= m.sin(a) <= 1.0 && -1.0 <= m.cos(a) <= 1.0
  {
    if TrigLaws(m) {
      var s, c := m.sin(a), m.cos(a);
      assert s * s + c * c == 1.0;
      assert 0.0 <= c * c && 0.0 <= s * s;
      UnitSquare(s);
      UnitSquare(c);
    }
  }

  /** `pow(x, k)`, for a draw `x` and a positive exponent, is again in [0, 1). */
  lemma PowOfDraw(m: Math, x: real, k: real)
    ensures PowLaws(m) && IsDraw(x) && 0.0 < k ==> IsDraw(m.pow(x, k))
  {
    if PowLaws(m) && IsDraw(x) && 0.0 < k {
      assert m.pow(0.0, k) == 0.0 && m.pow(1.0, k) == 1.0;
      if 0.0 < x {
        assert m.pow(0.0, k) < m.pow(x, k);
      }
      assert m.pow(x, k) < m.pow(1.0, k);
    }
  }

  /** A number and its cube lie on the same side of 0 and of 1. */
  lemma CubeSides(c: real)
    ensures c < 0.0 ==> c * c * c < 0.0
    ensures 1.0 <= c ==> 1.0 <= c * c * c
  {
    if c < 0.0 {
      assert c * c > 0.0;
      assert (c * c) * c < 0.0;
    }
    if 1.0 <= c {
      assert c * c >= 1.0 * c;
      assert (c * c) * c >= 1.0 * c;
    }
  }

  /** The cube root of a draw is again in [0, 1). */
  lemma CbrtOfDraw(m: Math, x: real)
    requires CbrtLaw(m) && IsDraw(x)
    ensures IsDraw(m.cbrt(x))
  {
    var c := m.cbrt(x);
    assert c * c * c == x;
    CubeSides(c);
  }

  /** Squaring is strictly increasing on the non-negative reals. */
  lemma SquareLess(a: real, b: real)
    requires 0.0 <= a < b
    ensures a * a < b * b
  {
    var aa, ab, bb := a * a, a * b, b * b;
    assert aa <= ab;
    assert ab < bb;
  }

  /** The angle `u * PI * 2` the scene draws from `u`: a full turn scaled by
      the draw. */
  function Turn(m: Math, u: real): (a: real)
    ensures PiLaw(m) && IsDraw(u) ==> 0.0 <= a < m.PI * 2.0
  {
    assert PiLaw(m) ==> 0.0 < m.PI * 2.0;
    DrawTimes(u, m.PI * 2.0);
    u * m.PI * 2.0
  }

  /** A draw times a positive `t` is in [0, t). */
  lemma DrawTimes(u: real, t: real)
    ensures IsDraw(u) && 0.0 < t ==> 0.0 <= u * t < t
  {
    if IsDraw(u) && 0.0 < t {
      var ut := u * t;
      assert ut < 1.0 * t;
    }
  }

  /** Scaling `a >= 0` by a factor in [0, 1] gives a value in [0, a]. */
  lemma ScaleWithin(a: real, p: real)
    ensures 0.0 <= a && 0.0 <= p <= 1.0 ==> 0.0 <= a * p <= a && 0.0 <= p * a <= a
  {
    if 0.0 <= a && 0.0 <= p <= 1.0 {
      var ap := a * p;
      assert ap <= a * 1.0;
      assert p * a == ap;
    }
  }

  /** `sqrt(s) > h` exactly when `s > h * h`, for `s` and `h` non-negative. */
  lemma SqrtExceeds(m: Math, s: real, h: real)
    requires SqrtLaw(m) && 0.0 <= s && 0.0 <= h
    ensures m.sqrt(s) > h <==> s > h * h
  {
    var d := m.sqrt(s);
    assert 0.0 <= d && d * d == s;
    if d > h {
      SquareLess(h, d);
    } else if d < h {
      SquareLess(d, h);
    }
  }

  /** The point `radius * (sin(phi) cos(theta), sin(phi) sin(theta), cos(phi))`
      lies at distance `radius` from the origin. */
  lemma SphericalNorm(m: Math, radius: real, theta: real, phi: real)
    ensures TrigLaws(m) ==>
      SquaredNorm(Vec3(radius * m.sin(phi) * m.cos(theta),
                       radius * m.sin(phi) * m.sin(theta),
                       radius * m.cos(phi))) == radius * radius
  {
    if TrigLaws(m) {
      var st, ct, sp, cp := m.sin(theta), m.cos(theta), m.sin(phi), m.cos(phi);
      assert st * st + ct * ct == 1.0;
      assert sp * sp + cp * cp == 1.0;
      calc {
        (radius * sp * ct) * (radius * sp * ct) + (radius * sp * st) * (radius * sp * st) + (radius * cp) * (radius * cp);
        (radius * radius) * ((sp * sp) * (ct * ct + st * st) + cp * cp);
        (radius * radius) * (sp * sp + cp * cp);
        radius * radius;
      }
    }
  }

  /** The x/z coordinates of a point at `angle` on the circle of radius `r`
      have squared length `r * r`. */
  lemma CircleNorm(m: Math, r: real, angle: real)
    ensures TrigLaws(m) ==>
      (m.cos(angle) * r) * (m.cos(angle) * r) + (m.sin(angle) * r) * (m.sin(angle) * r) == r * r
  {
    if TrigLaws(m) {
      var s, c := m.sin(angle), m.cos(angle);
      assert s * s + c * c == 1.0;
      calc {
        (c * r) * (c * r) + (s * r) * (s * r);
        (s * s + c * c) * (r * r);
        r * r;
      }
    }
  }

  /** Laying out a list of points as a flat `x, y, z, x, y, z, ...` buffer,
      as the scene does for every vertex attribute of item size 3. */
  function Flatten(vs: seq<Vec3>): (r: seq<real>)
    ensures |r| == 3 * |vs|
    ensures forall i :: 0 <= i < |vs| ==> r[3 * i] == vs[i].x && r[3 * i + 1] == vs[i].y && r[3 * i + 2] == vs[i].z
  {
    if vs == [] then [] else
      var r' := Flatten(vs[..|vs| - 1]);
      var v := vs[|vs| - 1];
      r' + [v.x, v.y, v.z]
  }

  /** Pushing one more point appends its three coordinates. */
  lemma {:induction false} FlattenPush(vs: seq<Vec3>, v: Vec3)
    ensures Flatten(vs + [v]) == Flatten(vs) + [v.x, v.y, v.z]
  {
    assert (vs + [v])[..|vs|] == vs;
  }
}
