/** The decoration system: how each decoration item is built from its random
    draws, and how the live transform of an item moves every frame. */
module App {
  import opened MathModel
  import opened Config
  import opened Placement

  datatype ItemType = RedBall | GoldBall | Cane | Bell | Gift

  datatype Euler = Euler(x: real, y: real, z: real)

  /** The `Math.random()` values one item consumes, in the order they are
      drawn. `colour`, `shade` and `tall` are only read for gifts. */
  datatype ItemDraws = ItemDraws(
    kind: real, density: real, angle: real,
    chaosRadius: real, chaosTheta: real, chaosPhi: real,
    rotX: real, rotY: real, rotZ: real,
    scale: real, colour: real, shade: real, tall: real)

  predicate ValidDraws(d: ItemDraws) {
    && IsDraw(d.kind) && IsDraw(d.density) && IsDraw(d.angle)
    && IsDraw(d.chaosRadius) && IsDraw(d.chaosTheta) && IsDraw(d.chaosPhi)
    && IsDraw(d.rotX) && IsDraw(d.rotY) && IsDraw(d.rotZ)
    && IsDraw(d.scale) && IsDraw(d.colour) && IsDraw(d.shade) && IsDraw(d.tall)
  }

  datatype Item = Item(
    id: nat, itemType: ItemType, target: Vec3, chaos: Vec3, randRot: Euler,
    scale: real, giftColor: string, ribbonColor: string, giftRatio: real)

  /** Radius of the tree cone at its base for ordinary items. */
  const BASE_R: real := 5.8
  /** Exponent biasing the density draw toward the outer surface. */
  const DENSITY_EXPONENT: real := 0.6

  /** The type of an item, by descending thresholds on its first draw. */
  function Classify(typeRand: real): (t: ItemType)
    ensures t == Gift <==> typeRand > 0.85
    ensures t == Cane <==> 0.70 < typeRand <= 0.85
    ensures t == Bell <==> 0.55 < typeRand <= 0.70
    ensures t == GoldBall <==> 0.30 < typeRand <= 0.55
    ensures t == RedBall <==> typeRand <= 0.30
  {
    if typeRand > 0.85 then Gift
    else if typeRand > 0.70 then Cane
    else if typeRand > 0.55 then Bell
    else if typeRand > 0.30 then GoldBall
    else RedBall
  }

  /** The base radius of the cone an item of type `t` is placed on: canes and
      gifts sit further in, so they do not poke out of the foliage. */
  function RFactor(t: ItemType): (r: real)
    ensures t == Cane ==> r == 4.8
    ensures t == Gift ==> r == 5.3
    ensures t != Cane && t != Gift ==> r == 5.8
    ensures 0.0 < r <= BASE_R
  {
    if t == Cane then BASE_R - 1.0
    else if t == Gift then BASE_R - 0.5
    else BASE_R
  }

  /** The scale of an item of type `t` with scale draw `u`. */
  function ItemScale(t: ItemType, u: real): (s: real)
    requires IsDraw(u)
    ensures t == Cane ==> s == 1.0
    ensures t == Gift ==> s == (u * 0.2 + 0.7) * 0.8 && 0.56 <= s < 0.72
    ensures t != Cane && t != Gift ==> 0.7 <= s < 0.9 && s == u * 0.2 + 0.7
  {
    var base := u * 0.2 + 0.7;
    var scaled := if t == Gift then base * 0.8 else base;
    if t == Cane then 1.0 else scaled
  }

  datatype GiftStyle = GiftStyle(body: string, ribbon: string, ratio: real)

  /** Body colour, ribbon colour and height ratio of an item of type `t`,
      from its colour, shade and tallness draws. */
  function Style(t: ItemType, colour: real, shade: real, tall: real): (g: GiftStyle)
    ensures t != Gift ==> g == GiftStyle(GREEN, GOLD, 1.0)
    ensures t == Gift ==> g.body != g.ribbon
    ensures t == Gift ==> (g.ratio == 1.4 <==> tall > 0.5) && (g.ratio == 1.0 <==> tall <= 0.5)
    ensures t == Gift && colour > 0.3 ==> g.ribbon == RED && (g.body == GREEN || g.body == LIGHT_GREEN)
    ensures t == Gift && 0.15 < colour <= 0.3 ==> g.body == RED && g.ribbon == GOLD
    ensures t == Gift && colour <= 0.15 ==> g.body == GOLD && g.ribbon == RED
  {
    if t != Gift then GiftStyle(GREEN, GOLD, 1.0)
    else
      var ratio := if tall > 0.5 then 1.4 else 1.0;
      if colour > 0.3 then
        GiftStyle(if shade > 0.5 then GREEN else LIGHT_GREEN, RED, ratio)
      else if colour > 0.15 then
        GiftStyle(RED, GOLD, ratio)
      else
        GiftStyle(GOLD, RED, ratio)
  }

  /** The item's formation target lies on the surface of its type's cone,
      within the tree's height range. */
  ghost predicate OnTree(it: Item) {
    -7.0 <= it.target.y <= 7.0 && OnConeSurface(RFactor(it.itemType), it.target)
  }

  /** The item's chaos position lies in the spherical shell of radii [20, 30). */
  ghost predicate InShell(it: Item) {
    400.0 <= SquaredNorm(it.chaos) < 900.0
  }

  /** The formation target of an item of type `t`: on its type's cone, with
      the height drawn with density exponent 0.6. */
  function ItemTarget(m: Math, t: ItemType, density: real, angle: real): (target: Vec3)
    requires TrigLaws(m) && PowLaws(m) && IsDraw(density)
    ensures -7.0 <= target.y <= 7.0 && OnConeSurface(RFactor(t), target)
  {
    var p := m.pow(density, DENSITY_EXPONENT);
    PowOfDraw(m, density, DENSITY_EXPONENT);
    ConeTarget(m, p, RFactor(t), angle)
  }

  /** The chaos position of an item: a radius in [20, 30) in a direction
      drawn uniformly on the sphere. */
  function ItemChaos(m: Math, radius: real, theta: real, phi: real): (chaos: Vec3)
    requires TrigLaws(m) && AcosLaws(m) && IsDraw(radius) && IsDraw(phi)
    ensures 400.0 <= SquaredNorm(chaos) < 900.0
  {
    var cr := ChaosRadius(radius);
    var chaos := ShellPoint(m, cr, theta, phi);
    ShellBounds(cr);
    assert SquaredNorm(chaos) == cr * cr;
    chaos
  }

  /** The chaos radius of an item, from its draw `u`. */
  function ChaosRadius(u: real): (cr: real)
    requires IsDraw(u)
    ensures 20.0 <= cr < 30.0
  {
    20.0 + u * 10.0
  }

  /** The random base rotation of an item: pitch in [0, 0.5), yaw in
      [0, 2 PI), roll in [-0.25, 0.25). */
  function ItemRotation(m: Math, u: real, v: real, w: real): (rot: Euler)
    requires PiLaw(m) && IsDraw(u) && IsDraw(v) && IsDraw(w)
    ensures 0.0 <= rot.x < 0.5 && 0.0 <= rot.y < m.PI * 2.0 && -0.25 <= rot.z < 0.25
  {
    Euler(u * 0.5, Turn(m, v), (w - 0.5) * 0.5)
  }

  /** Item number `i`, built from its draws `d`. */
  function MakeItem(m: Math, i: nat, d: ItemDraws): (it: Item)
    requires Lawful(m) && ValidDraws(d)
    ensures it.id == i && it.itemType == Classify(d.kind)
    ensures OnTree(it) && InShell(it)
    ensures 0.0 <= it.randRot.x < 0.5 && 0.0 <= it.randRot.y < m.PI * 2.0 && -0.25 <= it.randRot.z < 0.25
    ensures it.scale == ItemScale(it.itemType, d.scale)
    ensures GiftStyle(it.giftColor, it.ribbonColor, it.giftRatio) == Style(it.itemType, d.colour, d.shade, d.tall)
  {
    var t := Classify(d.kind);
    var target := ItemTarget(m, t, d.density, d.angle);
    var chaos := ItemChaos(m, d.chaosRadius, d.chaosTheta, d.chaosPhi);
    var rot := ItemRotation(m, d.rotX, d.rotY, d.rotZ);
    var g := Style(t, d.colour, d.shade, d.tall);
    Item(i, t, target, chaos, rot, ItemScale(t, d.scale), g.body, g.ribbon, g.ratio)
  }

  /** A chaos radius in [20, 30) has a square in [400, 900). */
  lemma ShellBounds(cr: real)
    requires 20.0 <= cr < 30.0
    ensures 400.0 <= cr * cr < 900.0
  {
    if 20.0 < cr {
      SquareLess(20.0, cr);
    }
    SquareLess(cr, 30.0);
  }

  /** The whole decoration population: one item per draw record, item `i`
      carrying id `i`. */
  function BuildItems(m: Math, draws: seq<ItemDraws>): (items: seq<Item>)
    requires Lawful(m) && |draws| == ITEM_COUNT
    requires forall i :: 0 <= i < |draws| ==> ValidDraws(draws[i])
    ensures |items| == 480
    ensures forall i :: 0 <= i < |items| ==> items[i] == MakeItem(m, i, draws[i]) && items[i].id == i
    ensures forall i :: 0 <= i < |items| ==> OnTree(items[i]) && InShell(items[i])
  {
    seq(|draws|, i requires 0 <= i < |draws| => MakeItem(m, i, draws[i]))
  }

  // ----- The per-frame motion of one item -----

  /** The endpoint the item's position is smoothed toward: the formation
      target once assembled (`state > 0.5`), otherwise the chaos position. */
  function Goal(it: Item, state: real): (g: Vec3)
    ensures state > 0.5 ==> g == it.target
    ensures state <= 0.5 ==> g == it.chaos
  {
    if state > 0.5 then it.target else it.chaos
  }

  /** The vertical bob added each assembled frame; it stays within 0.005. */
  function Bob(m: Math, it: Item, elapsed: real): (dy: real)
    ensures TrigLaws(m) ==> -0.005 <= dy <= 0.005
  {
    var a := elapsed * 2.0 + it.id as real;
    SinCosBounded(m, a);
    m.sin(a) * 0.005
  }

  /** The rotation an item has after one frame, starting from `rot`. */
  function NextRotation(m: Math, it: Item, state: real, delta: real, elapsed: real, rot: Euler): (r: Euler)
    // assembled canes keep their rotation
    ensures state > 0.5 && it.itemType == Cane ==> r == rot
    // assembled gifts swing their yaw within 0.1 of their own random yaw
    ensures state > 0.5 && it.itemType == Gift ==> r.x == rot.x && r.z == rot.z
    ensures state > 0.5 && it.itemType == Gift && TrigLaws(m) ==>
      it.randRot.y - 0.1 <= r.y <= it.randRot.y + 0.1
    // every other assembled item spins about the vertical axis
    ensures state > 0.5 && it.itemType != Cane && it.itemType != Gift ==>
      r.x == rot.x && r.z == rot.z && r.y == rot.y + 0.8 * delta
    // in chaos every item tumbles about x and z
    ensures state <= 0.5 ==> r.x == rot.x + delta && r.y == rot.y && r.z == rot.z + delta
  {
    if state > 0.5 then
      if it.itemType == Cane then rot
      else if it.itemType == Gift then
        var a := elapsed + it.id as real;
        SinCosBounded(m, a);
        rot.(y := it.randRot.y + m.sin(a) * 0.1)
      else rot.(y := rot.y + delta * 0.8)
    else Euler(rot.x + delta, rot.y, rot.z + delta)
  }

  /** The live transform (a scene-graph group) of one decoration item. */
  class Decoration {
    var position: Vec3
    var rotation: Euler
    const scale: real

    /** The group starts at the chaos position with the item's random rotation. */
    constructor (it: Item)
      ensures position == it.chaos && rotation == it.randRot && scale == it.scale
    {
      position := it.chaos;
      rotation := it.randRot;
      scale := it.scale;
    }

    /** One frame. `damp3(current, goal, smoothTime, delta)` is the external
        smoothing step that moves the position toward the goal. */
    method Frame(m: Math, it: Item, state: real, delta: real, elapsed: real,
                 damp3: (Vec3, Vec3, real, real) -> Vec3)
      modifies this
      ensures rotation == NextRotation(m, it, state, delta, elapsed, old(rotation))
      ensures var damped := old(damp3(position, Goal(it, state), 0.5, delta));
        position == if state > 0.5 then damped.(y := damped.y + Bob(m, it, elapsed)) else damped
    {
      ghost var rot0 := rotation;
      var goal := if state > 0.5 then it.target else it.chaos;
      position := damp3(position, goal, 0.5, delta);
      if state > 0.5 {
        if it.itemType == Cane {
          // canes keep their rotation once assembled
        } else if it.itemType == Gift {
          rotation := rotation.(y := it.randRot.y + m.sin(elapsed + it.id as real) * 0.1);
        } else {
          rotation := rotation.(y := rotation.y + delta * 0.8);
        }
        assert rotation == NextRotation(m, it, state, delta, elapsed, rot0);
        assert m.sin(elapsed * 2.0 + it.id as real) * 0.005 == Bob(m, it, elapsed);
        position := position.(y := position.y + m.sin(elapsed * 2.0 + it.id as real) * 0.005);
      } else {
        rotation := rotation.(x := rotation.x + delta);
        rotation := rotation.(z := rotation.z + delta);
        assert rotation == NextRotation(m, it, state, delta, elapsed, rot0);
      }
    }
  }
}
