/** The two particle clouds of the scene: falling snow, animated on the CPU
    one particle at a time, and the foliage cloud whose attribute buffers are
    filled once and then animated by its shader. */
module Environment {
  import opened MathModel
  import opened Config
  import opened Placement

  // ----- Falling snow -----

  /** One snow particle record; the frame loop updates its `y` in place. */
  datatype Snowflake = Snowflake(x: real, y: real, z: real, speed: real, factor: real)

  /** The five `Math.random()` values that create one snowflake. */
  datatype SnowDraws = SnowDraws(x: real, y: real, z: real, speed: real, factor: real)

  predicate ValidSnowDraws(d: SnowDraws) {
    IsDraw(d.x) && IsDraw(d.y) && IsDraw(d.z) && IsDraw(d.speed) && IsDraw(d.factor)
  }

  /** Height below which a flake is recycled, and the height it restarts at. */
  const FLOOR: real := -25.0
  const CEILING: real := 25.0
  /** Uniform scale of every rendered snowflake instance. */
  const FLAKE_SCALE: real := 0.08

  /** The box every snowflake stays in, and the speeds and phases it keeps. */
  predicate InField(p: Snowflake) {
    && -30.0 <= p.x < 30.0
    && FLOOR <= p.y <= CEILING
    && -20.0 <= p.z < 20.0
    && 0.5 <= p.speed < 2.0
    && IsDraw(p.factor)
  }

  /** A new snowflake: x in [-30, 30), y in [-25, 25), z in [-20, 20),
      speed in [0.5, 2.0) and phase factor in [0, 1). */
  function SpawnFlake(d: SnowDraws): (p: Snowflake)
    requires ValidSnowDraws(d)
    ensures InField(p) && p.y < CEILING
    ensures p.factor == d.factor
  {
    Snowflake((d.x - 0.5) * 60.0, (d.y - 0.5) * 50.0, (d.z - 0.5) * 40.0, 0.5 + d.speed * 1.5, d.factor)
  }

  /** A flake after one frame of `delta` seconds: it falls by `speed * delta`
      and is sent back to the ceiling once it drops below the floor. */
  function Fall(p: Snowflake, delta: real): (q: Snowflake)
    // only `y` changes
    ensures q.x == p.x && q.z == p.z && q.speed == p.speed && q.factor == p.factor
    ensures p.y - p.speed * delta >= FLOOR ==> q.y == p.y - p.speed * delta
    ensures p.y - p.speed * delta < FLOOR ==> q.y == CEILING
    // a frame with a non-negative delta keeps the flake in its field
    ensures InField(p) && 0.0 <= delta ==> InField(q)
  {
    var fallen := p.(y := p.y - p.speed * delta);
    if fallen.y < FLOOR then fallen.(y := CEILING) else fallen
  }

  /** A flake after a whole history of frames. */
  function FallAll(p: Snowflake, deltas: seq<real>): Snowflake
    decreases |deltas|
  {
    if deltas == [] then p else FallAll(Fall(p, deltas[0]), deltas[1..])
  }

  /** Over any history of frames with non-negative deltas a flake stays in
      its field and keeps its x, z, speed and phase. */
  lemma {:induction false} FallAllStaysInField(p: Snowflake, deltas: seq<real>)
    requires InField(p)
    decreases |deltas|
    requires forall i :: 0 <= i < |deltas| ==> 0.0 <= deltas[i]
    ensures var q := FallAll(p, deltas);
      InField(q) && q.x == p.x && q.z == p.z && q.speed == p.speed && q.factor == p.factor
  {
    if deltas != [] {
      FallAllStaysInField(Fall(p, deltas[0]), deltas[1..]);
    }
  }

  /** Where a flake is drawn at time `elapsed`: its own height, with a
      horizontal drift of at most 2 in x and in z. */
  function FlakePosition(m: Math, p: Snowflake, elapsed: real): (v: Vec3)
    ensures v.y == p.y
    ensures TrigLaws(m) ==> p.x - 2.0 <= v.x <= p.x + 2.0 && p.z - 2.0 <= v.z <= p.z + 2.0
  {
    SinCosBounded(m, elapsed + p.factor);
    SinCosBounded(m, elapsed * p.factor);
    Vec3(p.x + m.sin(elapsed + p.factor) * 2.0, p.y, p.z + m.cos(elapsed * p.factor) * 2.0)
  }

  /** What `setMatrixAt` stores for one instance: a translation and a uniform
      scale (the rotation is always the identity). */
  datatype InstanceTransform = InstanceTransform(position: Vec3, scale: real)

  /** The snow cloud: its particle records and the instanced mesh's matrix
      buffer, one slot per particle. */
  class FallingSnow {
    const count: nat
    const particles: array<Snowflake>
    const instanceMatrix: array<InstanceTransform>
    var needsUpdate: bool
    /** The instance slots written, in order, during the last frame. */
    ghost var writes: seq<nat>

    ghost predicate Valid()
      reads this, particles
    {
      && particles.Length == count
      && instanceMatrix.Length == count
      && forall i :: 0 <= i < count ==> InField(particles[i])
    }

    /** The particles are created once, from one draw record each. */
    constructor (draws: seq<SnowDraws>)
      requires |draws| == SNOWFLAKE_COUNT
      requires forall i :: 0 <= i < |draws| ==> ValidSnowDraws(draws[i])
      ensures Valid() && fresh(particles) && fresh(instanceMatrix)
      ensures count == SNOWFLAKE_COUNT
      ensures forall i :: 0 <= i < count ==> particles[i] == SpawnFlake(draws[i])
      ensures !needsUpdate && writes == []
    {
      count := |draws|;
      particles := new Snowflake[|draws|](i requires 0 <= i < |draws| => SpawnFlake(draws[i]));
      instanceMatrix := new InstanceTransform[|draws|](_ => InstanceTransform(Vec3(0.0, 0.0, 0.0), 1.0));
      needsUpdate := false;
      writes := [];
    }

    /** One frame of `delta` seconds at time `elapsed`: every particle falls
        (and wraps) in place, then its instance slot gets its drawn transform. */
    method Frame(m: Math, delta: real, elapsed: real)
      requires Valid() && 0.0 <= delta
      modifies particles, instanceMatrix, this`needsUpdate, this`writes
      ensures Valid()
      ensures forall i :: 0 <= i < count ==> particles[i] == Fall(old(particles[i]), delta)
      ensures forall i :: 0 <= i < count ==>
        instanceMatrix[i] == InstanceTransform(FlakePosition(m, particles[i], elapsed), FLAKE_SCALE)
      // every slot is written exactly once, in index order
      ensures writes == seq(count, i => i)
      ensures needsUpdate
    {
      writes := [];
      var i := 0;
      while i < count
        invariant 0 <= i <= count
        invariant writes == seq(i, j => j)
        invariant forall j :: 0 <= j < i ==> particles[j] == Fall(old(particles[j]), delta)
        invariant forall j :: i <= j < count ==> particles[j] == old(particles[j])
        invariant forall j :: 0 <= j < count ==> InField(particles[j])
        invariant forall j :: 0 <= j < i ==>
          instanceMatrix[j] == InstanceTransform(FlakePosition(m, particles[j], elapsed), FLAKE_SCALE)
      {
        var p := particles[i];
        var q := p.(y := p.y - p.speed * delta);
        if q.y < FLOOR {
          q := q.(y := CEILING);
        }
        assert q == Fall(p, delta);
        particles[i] := q;
        instanceMatrix[i] := InstanceTransform(FlakePosition(m, q, elapsed), FLAKE_SCALE);
        writes := writes + [i];
        i := i + 1;
      }
      needsUpdate := true;
    }
  }

  // ----- Foliage -----

  /** Base radius of the foliage cone and the exponent of its density draw. */
  const FOLIAGE_RADIUS: real := 5.5
  const FOLIAGE_EXPONENT: real := 0.7
  /** Largest chaos radius of a foliage particle. */
  const FOLIAGE_CHAOS_RADIUS: real := 25.0

  /** The six `Math.random()` values that create one foliage particle. */
  datatype FoliageDraws = FoliageDraws(
    density: real, angle: real, chaosRadius: real, chaosTheta: real, chaosPhi: real, size: real)

  predicate ValidFoliageDraws(d: FoliageDraws) {
    && IsDraw(d.density) && IsDraw(d.angle) && IsDraw(d.chaosRadius)
    && IsDraw(d.chaosTheta) && IsDraw(d.chaosPhi) && IsDraw(d.size)
  }

  /** A foliage particle's formation position: on the cone of base radius
      5.5, within the tree's height range. */
  function FoliageTarget(m: Math, d: FoliageDraws): (t: Vec3)
    requires TrigLaws(m) && PowLaws(m) && ValidFoliageDraws(d)
    ensures -7.0 <= t.y <= 7.0 && OnConeSurface(FOLIAGE_RADIUS, t)
    ensures t.x * t.x + t.z * t.z <= FOLIAGE_RADIUS * FOLIAGE_RADIUS
  {
    PowOfDraw(m, d.density, FOLIAGE_EXPONENT);
    TargetWithinSilhouette(m, m.pow(d.density, FOLIAGE_EXPONENT), FOLIAGE_RADIUS, d.angle);
    ConeTarget(m, m.pow(d.density, FOLIAGE_EXPONENT), FOLIAGE_RADIUS, d.angle)
  }

  /** A foliage particle's chaos radius, `25 * cbrt(u)`: in [0, 25). */
  function FoliageChaosRadius(m: Math, u: real): (cr: real)
    requires CbrtLaw(m) && IsDraw(u)
    ensures 0.0 <= cr < FOLIAGE_CHAOS_RADIUS
  {
    CbrtOfDraw(m, u);
    FOLIAGE_CHAOS_RADIUS * m.cbrt(u)
  }

  /** A foliage particle's chaos position: inside the ball of radius 25. */
  function FoliageChaos(m: Math, radius: real, theta: real, phi: real): (c: Vec3)
    requires TrigLaws(m) && AcosLaws(m) && CbrtLaw(m) && IsDraw(radius) && IsDraw(phi)
    ensures SquaredNorm(c) < FOLIAGE_CHAOS_RADIUS * FOLIAGE_CHAOS_RADIUS
  {
    var cr := FoliageChaosRadius(m, radius);
    var c := ShellPoint(m, cr, theta, phi);
    SquareLess(cr, FOLIAGE_CHAOS_RADIUS);
    assert SquaredNorm(c) == cr * cr;
    c
  }

  /** The chaos position drawn from a foliage particle's draw record. */
  function FoliageParticleChaos(m: Math, d: FoliageDraws): (c: Vec3)
    requires TrigLaws(m) && AcosLaws(m) && CbrtLaw(m) && ValidFoliageDraws(d)
    ensures SquaredNorm(c) < FOLIAGE_CHAOS_RADIUS * FOLIAGE_CHAOS_RADIUS
  {
    FoliageChaos(m, d.chaosRadius, d.chaosTheta, d.chaosPhi)
  }

  /** A foliage particle's point size: in [0.1, 0.25). */
  function FoliageSize(u: real): (s: real)
    requires IsDraw(u)
    ensures 0.1 <= s < 0.25
  {
    u * 0.15 + 0.1
  }

  /** The formation positions of a list of foliage particles, in order. */
  function FoliageTargets(m: Math, draws: seq<FoliageDraws>): (ts: seq<Vec3>)
    requires TrigLaws(m) && PowLaws(m)
    requires forall i :: 0 <= i < |draws| ==> ValidFoliageDraws(draws[i])
    ensures |ts| == |draws|
    ensures forall i :: 0 <= i < |ts| ==> -7.0 <= ts[i].y <= 7.0 && OnConeSurface(FOLIAGE_RADIUS, ts[i])
  {
    if draws == [] then []
    else FoliageTargets(m, draws[..|draws| - 1]) + [FoliageTarget(m, draws[|draws| - 1])]
  }

  /** The chaos positions of a list of foliage particles, in order. */
  function FoliageChaosPoints(m: Math, draws: seq<FoliageDraws>): (cs: seq<Vec3>)
    requires TrigLaws(m) && AcosLaws(m) && CbrtLaw(m)
    requires forall i :: 0 <= i < |draws| ==> ValidFoliageDraws(draws[i])
    ensures |cs| == |draws|
    ensures forall i :: 0 <= i < |cs| ==> SquaredNorm(cs[i]) < FOLIAGE_CHAOS_RADIUS * FOLIAGE_CHAOS_RADIUS
  {
    if draws == [] then []
    else FoliageChaosPoints(m, draws[..|draws| - 1]) + [FoliageParticleChaos(m, draws[|draws| - 1])]
  }

  /** The point sizes of a list of foliage particles, in order. */
  function FoliageSizes(draws: seq<FoliageDraws>): (ss: seq<real>)
    requires forall i :: 0 <= i < |draws| ==> ValidFoliageDraws(draws[i])
    ensures |ss| == |draws|
    ensures forall i :: 0 <= i < |ss| ==> 0.1 <= ss[i] < 0.25
  {
    if draws == [] then []
    else
      var d := draws[|draws| - 1];
      assert ValidFoliageDraws(d);
      FoliageSizes(draws[..|draws| - 1]) + [FoliageSize(d.size)]
  }

  /** Extending a prefix of the draws by one record appends that particle's
      values to each flattened buffer. */
  lemma FoliagePush(m: Math, draws: seq<FoliageDraws>, i: nat)
    requires TrigLaws(m) && AcosLaws(m) && PowLaws(m) && CbrtLaw(m) && i < |draws|
    requires forall i :: 0 <= i < |draws| ==> ValidFoliageDraws(draws[i])
    ensures var t := FoliageTarget(m, draws[i]);
      Flatten(FoliageTargets(m, draws[..i + 1])) == Flatten(FoliageTargets(m, draws[..i])) + [t.x, t.y, t.z]
    ensures var c := FoliageParticleChaos(m, draws[i]);
      Flatten(FoliageChaosPoints(m, draws[..i + 1])) == Flatten(FoliageChaosPoints(m, draws[..i])) + [c.x, c.y, c.z]
    ensures FoliageSizes(draws[..i + 1]) == FoliageSizes(draws[..i]) + [FoliageSize(draws[i].size)]
  {
    assert draws[..i + 1][..i] == draws[..i];
    FlattenPush(FoliageTargets(m, draws[..i]), FoliageTarget(m, draws[i]));
    FlattenPush(FoliageChaosPoints(m, draws[..i]), FoliageParticleChaos(m, draws[i]));
  }

  /** Every height stored in the position buffer is within the tree, and
      every point size is in [0.1, 0.25). */
  lemma FoliageInRange(m: Math, draws: seq<FoliageDraws>)
    requires TrigLaws(m) && PowLaws(m)
    requires forall i :: 0 <= i < |draws| ==> ValidFoliageDraws(draws[i])
    ensures forall i :: 0 <= i < |draws| ==>
      -7.0 <= Flatten(FoliageTargets(m, draws))[3 * i + 1] <= 7.0 && 0.1 <= FoliageSizes(draws)[i] < 0.25
  {
    var ts := FoliageTargets(m, draws);
    var ss := FoliageSizes(draws);
    var flat := Flatten(ts);
    forall i | 0 <= i < |draws|
      ensures -7.0 <= flat[3 * i + 1] <= 7.0 && 0.1 <= ss[i] < 0.25
    {
      assert flat[3 * i + 1] == ts[i].y;
    }
  }

  /** Fill the foliage attribute buffers, one particle per draw record. */
  method BuildFoliage(m: Math, draws: seq<FoliageDraws>)
    returns (positions: seq<real>, chaos: seq<real>, sizes: seq<real>)
    requires TrigLaws(m) && AcosLaws(m) && PowLaws(m) && CbrtLaw(m) && |draws| == FOLIAGE_COUNT
    requires forall i :: 0 <= i < |draws| ==> ValidFoliageDraws(draws[i])
    ensures |positions| == 3 * FOLIAGE_COUNT && |chaos| == 3 * FOLIAGE_COUNT && |sizes| == FOLIAGE_COUNT
    ensures positions == Flatten(FoliageTargets(m, draws))
    ensures chaos == Flatten(FoliageChaosPoints(m, draws))
    ensures sizes == FoliageSizes(draws)
    ensures forall i :: 0 <= i < FOLIAGE_COUNT ==>
      -7.0 <= positions[3 * i + 1] <= 7.0 && 0.1 <= sizes[i] < 0.25
  {
    var pos: seq<real> := [];
    var ch: seq<real> := [];
    var sz: seq<real> := [];
    var i := 0;
    while i < |draws|
      invariant 0 <= i <= |draws|
      invariant pos == Flatten(FoliageTargets(m, draws[..i]))
      invariant ch == Flatten(FoliageChaosPoints(m, draws[..i]))
      invariant sz == FoliageSizes(draws[..i])
    {
      var t := FoliageTarget(m, draws[i]);
      var c := FoliageParticleChaos(m, draws[i]);
      FoliagePush(m, draws, i);
      pos := pos + [t.x, t.y, t.z];
      ch := ch + [c.x, c.y, c.z];
      sz := sz + [FoliageSize(draws[i].size)];
      i := i + 1;
    }
    assert draws[..i] == draws;
    positions, chaos, sizes := pos, ch, sz;
    FoliageInRange(m, draws);
  }

  /** A buffer attribute of a geometry: a flat buffer read `itemSize` numbers
      per vertex for `count` vertices. */
  datatype Attribute = Attribute(buffer: seq<real>, itemSize: nat, count: nat)

  /** Three.js reads exactly `count * itemSize` numbers from the buffer. */
  predicate Complete(a: Attribute) {
    |a.buffer| == a.count * a.itemSize
  }

  datatype FoliageGeometry = FoliageGeometry(position: Attribute, aTarget: Attribute, aChaos: Attribute, aSize: Attribute)

  /** Attach the three foliage buffers to the points geometry. The position
      buffer is attached twice, so the shader's target attribute is the
      position buffer itself; the geometry is complete exactly when the
      buffers have the lengths the foliage builder gives them. */
  function BindFoliage(positions: seq<real>, chaos: seq<real>, sizes: seq<real>): (g: FoliageGeometry)
    ensures g.aTarget == g.position && g.position.buffer == positions
    ensures g.aChaos.buffer == chaos && g.aSize.buffer == sizes
    ensures g.position.count == g.aChaos.count == g.aSize.count == FOLIAGE_COUNT
    ensures Complete(g.position) && Complete(g.aTarget) && Complete(g.aChaos) && Complete(g.aSize)
      <==> |positions| == 3 * FOLIAGE_COUNT && |chaos| == 3 * FOLIAGE_COUNT && |sizes| == FOLIAGE_COUNT
  {
    var target := Attribute(positions, 3, FOLIAGE_COUNT);
    FoliageGeometry(target, target, Attribute(chaos, 3, FOLIAGE_COUNT), Attribute(sizes, 1, FOLIAGE_COUNT))
  }

  /** The uniforms of the foliage material that the frame loop writes. */
  class FoliageUniforms {
    var uTime: real
    var uProgress: real

    constructor ()
      ensures uTime == 0.0 && uProgress == 0.0
    {
      uTime := 0.0;
      uProgress := 0.0;
    }

    /** One frame: the clock is copied in and the progress is smoothed toward
        the target state by the external `damp(current, target, smoothTime, delta)`. */
    method Frame(elapsed: real, state: real, delta: real, damp: (real, real, real, real) -> real)
      modifies this
      ensures uTime == elapsed
      ensures uProgress == old(damp(uProgress, state, 0.5, delta))
    {
      uTime := elapsed;
      uProgress := damp(uProgress, state, 0.5, delta);
    }
  }
}
