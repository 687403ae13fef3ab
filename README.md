# Christmas tree scene — a verified model of its scene logic

The scene shows an animated Christmas tree. It alternates between two states:

- scattered ("chaos"), where every element drifts in a cloud;
- assembled ("formed"), where every element sits on a cone-shaped tree.

The rendering itself is React and Three.js wiring. Underneath it are deterministic rules that turn random draws into scene data, plus a few per-frame updates. This project models those rules in Dafny and proves what they guarantee.

- **Decoration items** (`App.tsx`). Each of the 480 items gets the following from its own random draws:
  - a type (red ball, gold ball, cane, bell or gift);
  - a formation target on the surface of its type's cone;
  - a chaos position in a spherical shell;
  - a random rotation, a scale, and gift colours and proportions.

  Every frame, the item's transform moves toward its goal and its rotation changes by a rule that depends on its type and the state.
- **Falling snow** (`components/Environment.tsx`). 800 particle records are created once. Every frame they are updated in place: each flake falls by its speed and wraps from the floor back to the ceiling. Each flake's instance slot then receives its drawn transform.
- **Foliage** (`components/Environment.tsx`). 12000 particles are laid out once as flat attribute buffers (target, chaos and size). They obey the same cone law as the items.
- **Shape and shader formulas** (`utils.ts`):
  - the star outline;
  - the candy-cane curve;
  - the bell's lathe profile;
  - the vertex and fragment logic of the snow and foliage point shaders, including the cubic easing that drives the chaos-to-formation blend.
- **Decoration components** (`components/Decorations.tsx`):
  - the sparkle cap of snow on every ball and bell, a loop filling three buffers by index;
  - the gift box layout;
  - the floating, spinning star on top of the tree.

## How the model is built

- Every `Math.random()` becomes an explicit `real` parameter in [0, 1). The draws one entity consumes are grouped in one record: `ItemDraws`, `SnowDraws`, `FoliageDraws`, `CapDraws`.
- `Math.sin`, `Math.cos`, `Math.acos`, `Math.pow`, `Math.cbrt`, GLSL's `sqrt` (inside `distance`) and `Math.PI` are fields of a record `MathModel.Math`.
  - Members that depend on their behaviour ask for the laws they need: `PiLaw`, `TrigLaws`, `AcosLaws`, `PowLaws`, `CbrtLaw`, `SqrtLaw`. They ask either in a `requires` or as the premise of an `ensures`.
  - The real functions, with `PI` = pi, satisfy all of these laws.
- Arithmetic is over `real`. Buffers are `seq<real>` where the source `push`es into a JavaScript array, and `array<real>` where the source writes a `Float32Array` by index.
- Per-frame state that the source mutates is modelled as classes:
  - `App.Decoration` is an item's scene-graph group;
  - `Environment.FallingSnow` holds the particle array and the instance buffer;
  - `Environment.FoliageUniforms` holds the foliage shader's uniforms;
  - `Utils.Shape` is the recorded star path;
  - `Decorations.StarGroup` is the star's transform.
- Modules:
  - `MathModel` (`math.dfy`): the function record and its laws, vectors, and buffer flattening;
  - `Config` (`config.dfy`): the colours and counts of `constants.ts`;
  - `Placement` (`placement.dfy`): the cone and shell laws shared by items and foliage;
  - `App`, `Environment`, `Utils` and `Decorations`: one module per source file.

## Model

| member | source | states |
|---|---|---|
| MathModel.Turn | App.tsx:34 | `u * PI * 2` for a draw `u` is an angle in [0, 2 PI) |
| MathModel.PowOfDraw | App.tsx:24 | `pow(u, k)` for a draw `u` and `k > 0` is again in [0, 1) |
| MathModel.CbrtOfDraw | components/Environment.tsx:57 | the cube root of a draw is again in [0, 1) |
| MathModel.SphericalNorm | App.tsx:37-40 | the point `r (sin phi cos theta, sin phi sin theta, cos phi)` is at distance `r` from the origin |
| MathModel.Flatten | components/Environment.tsx:56 | the flat buffer of a point list has length 3n, and point i's coordinates sit at 3i, 3i+1 and 3i+2 |
| MathModel.FlattenPush | components/Environment.tsx:56 | pushing one point appends its three coordinates to the flat buffer |
| Placement.ConeHeight | App.tsx:24-25 | for p in [0, 1] the height is in [-7, 7]; it is 7 exactly at p = 0 and -7 exactly at p = 1 |
| Placement.ConeTarget | App.tsx:27-35 | the target has height `ConeHeight(p)`, and the cone's radius at that height is `rFactor * p`; the target lies on that cone's surface (14 r = rFactor (7 - y)) |
| Placement.ShellPoint | App.tsx:37-40 | the chaos point drawn with `acos(2v - 1)` lies at distance `radius` from the origin |
| Placement.TargetWithinSilhouette | components/Environment.tsx:52-56 | for p in [0, 1] a target is within the tree's height range, and its horizontal distance from the axis is at most `rFactor` |
| App.Classify | App.tsx:16-22 | each of the five types is characterised, in both directions, by its interval of the type draw: gift > 0.85, cane (0.70, 0.85], bell (0.55, 0.70], gold ball (0.30, 0.55], red ball ≤ 0.30 |
| App.RFactor | App.tsx:27-31 | the cone's base radius is 4.8 for canes, 5.3 for gifts and 5.8 otherwise |
| App.ItemScale | App.tsx:48-69 | canes have scale exactly 1; a gift's scale is the base scale `0.2u + 0.7` times 0.8, in [0.56, 0.72); other types keep the base scale `0.2u + 0.7`, in [0.7, 0.9) |
| App.Style | App.tsx:49-66 | non-gifts keep green/gold and ratio 1; a gift's body colour is never its ribbon colour; its ratio is 1.4 exactly when the tall draw exceeds 0.5, else 1; the three colour bands map to green-or-light-green/red, red/gold and gold/red |
| App.ItemTarget | App.tsx:23-35 | an item's target is in the height range [-7, 7] and on its type's cone |
| App.ChaosRadius | App.tsx:37 | the chaos radius `20 + 10u` is in [20, 30) |
| App.ItemChaos | App.tsx:37-40 | an item's chaos position is in the spherical shell of radii [20, 30) |
| App.ItemRotation | App.tsx:42-46 | the random rotation has pitch in [0, 0.5), yaw in [0, 2 PI) and roll in [-0.25, 0.25) |
| App.MakeItem | App.tsx:15-71 | item i has id i and the type its draw classifies to; it is on its cone and in the shell; its rotation bounds hold; its scale is given by the type rule and its colours by the gift palette |
| App.BuildItems | App.tsx:14-72 | exactly 480 items; item i is built from draw record i and has id i; every item is on its tree cone and in its chaos shell |
| App.Bob | App.tsx:100 | the assembled vertical bob is within ±0.005 |
| App.NextRotation | App.tsx:92-103 | when assembled: canes keep their rotation; a gift only changes its yaw, to within 0.1 of its random yaw; every other type spins its yaw by 0.8 delta. In chaos, x and z grow by delta and y is kept |
| App.Decoration.constructor | App.tsx:107 | the group starts at the chaos position with the item's random rotation and its scale |
| App.Decoration.Frame | App.tsx:87-104 | the new rotation is `NextRotation` of the old one; the new position is the external damping step toward `Goal`, plus the bob when assembled |
| Environment.SpawnFlake | components/Environment.tsx:13-19 | a new flake has x in [-30, 30), y in [-25, 25), z in [-20, 20), speed in [0.5, 2) and factor in [0, 1) |
| Environment.Fall | components/Environment.tsx:24-25 | only y changes; it falls by `speed * delta`, or restarts at 25 when that goes below -25; with delta ≥ 0 a flake in its field stays in it |
| Environment.FallAllStaysInField | components/Environment.tsx:21-25 | over any history of non-negative frame times a flake stays in its field and keeps x, z, speed and factor |
| Environment.FlakePosition | components/Environment.tsx:26-30 | the drawn position is at the flake's own height and within ±2 of its x and z |
| Environment.FallingSnow.constructor | components/Environment.tsx:10-19 | 800 particles, particle i spawned from draw record i, all in their field |
| Environment.FallingSnow.Frame | components/Environment.tsx:21-36 | every particle becomes `Fall` of its old record, in place; every instance slot holds its particle's drawn transform at scale 0.08; the slots are written once each, in index order; the field invariant is kept; the buffer is flagged for upload |
| Environment.FoliageTarget | components/Environment.tsx:52-56 | a foliage target has height in [-7, 7], lies on the cone of base radius 5.5, and is within 5.5 of the axis |
| Environment.FoliageChaosRadius | components/Environment.tsx:57 | the chaos radius `25 cbrt(u)` is in [0, 25) |
| Environment.FoliageChaos | components/Environment.tsx:57-60 | a foliage chaos position is strictly inside the ball of radius 25 |
| Environment.FoliageParticleChaos | components/Environment.tsx:57-60 | the same for the chaos position drawn from a particle's draw record |
| Environment.FoliageSize | components/Environment.tsx:61 | a foliage point size is in [0.1, 0.25) |
| Environment.FoliageTargets | components/Environment.tsx:51-56 | one target per draw record, each within the tree's height range and on the 5.5 cone |
| Environment.FoliageChaosPoints | components/Environment.tsx:57-60 | one chaos position per draw record, each inside the ball of radius 25 |
| Environment.FoliageSizes | components/Environment.tsx:61 | one size per draw record, each in [0.1, 0.25) |
| Environment.FoliagePush | components/Environment.tsx:56-61 | one more particle appends its target, chaos and size values to the three buffers |
| Environment.FoliageInRange | components/Environment.tsx:52-61 | every height stored in the position buffer (slot 3i+1) is in [-7, 7], and every size is in [0.1, 0.25) |
| Environment.BuildFoliage | components/Environment.tsx:49-64 | the three buffers have lengths 3N, 3N and N for N = 12000. They are the flattened targets, the flattened chaos positions and the sizes of the draws, in order. Every stored height and size is in range |
| Environment.BindFoliage | components/Environment.tsx:74-79 | the target attribute is the position attribute itself, holding the position buffer; chaos and sizes are bound as they are; all four attributes count 12000 vertices, and they are complete (count × item size numbers each) exactly when the buffers have lengths 36000, 36000 and 12000 |
| Environment.FoliageUniforms.constructor | utils.ts:81 | both uniforms start at 0 |
| Environment.FoliageUniforms.Frame | components/Environment.tsx:66-71 | the time uniform is the clock; the progress is the external damping step toward the state with smoothing time 0.5 |
| Utils.StarRadius | utils.ts:11 | a vertex is at radius 1 exactly when its index is even, and at radius 0.45 exactly when it is odd |
| Utils.StarAngle | utils.ts:12-16 | vertex i points at angle `PI/2 + i PI/5` |
| Utils.StarVertex | utils.ts:11-16 | vertex i lies at distance `StarRadius(i)` from the centre |
| Utils.StarPointsUp | utils.ts:14-18 | vertex 0 is the top tip (0, 1) |
| Utils.Shape.constructor | utils.ts:6 | a new shape has no path commands |
| Utils.Shape.MoveTo | utils.ts:18 | appends one move command |
| Utils.Shape.LineTo | utils.ts:19 | appends one line command |
| Utils.Shape.ClosePath | utils.ts:21 | appends one close command |
| Utils.CreateStarShape | utils.ts:5-21 | the path has 11 commands: a move to vertex 0, a line to each of vertices 1..9 in order, and a close |
| Utils.HookFraction | utils.ts:31 | on the hook (t in [0.6, 1]) the fraction `(t - 0.6) / 0.4` is in [0, 1] |
| Utils.HookAngle | utils.ts:31 | on the hook the arc angle is in [0, PI] |
| Utils.CanePoint | utils.ts:27-37 | the curve lies in the plane z = 0, and the shaft (t < 0.6) is `(0, 1.66 t, 0)` |
| Utils.HookOnArc | utils.ts:31-35 | every hook point lies on the circle of radius 0.2 around (0.2, 1), on or above y = 1 |
| Utils.HookEnds | utils.ts:31-35 | the hook starts at (0, 1, 0) and ends at (0.4, 1, 0) |
| Utils.ShaftBelowHook | utils.ts:28-35 | every shaft point is below 0.996, strictly below the start of the hook at height 1: the curve jumps at t = 0.6 |
| Utils.BellPoint | utils.ts:45-46 | body point i has height `-0.8 + 1.3 i/10`, and for i < 10 a radius in [0.1, 0.6) |
| Utils.BellFlares | utils.ts:44-47 | going up the body, the profile's height and radius both increase strictly |
| Utils.BellProfile | utils.ts:43-50 | 12 points: the ten body points in order, then the rim (0.4, -0.9), then the axis point (0, -0.9); the rim is below every body point |
| Utils.KeepsDisc | utils.ts:73-74 | under the square-root law, a point-sprite fragment is discarded exactly when it lies outside the disc of radius 0.5 around the sprite's centre |
| Utils.SnowVertex | utils.ts:63-64 | the snow vertex keeps its x and z and jitters vertically by at most 0.02 |
| Utils.SnowFragment | utils.ts:72-75 | no colour exactly for discarded fragments, which under the square-root law are exactly those outside the disc of radius 0.5 around the sprite centre; otherwise the uniform colour, opaque |
| Utils.Ease | utils.ts:89 | ease(0) = 0, ease(0.5) = 0.5 (where the two branches meet) and ease(1) = 1 |
| Utils.EaseOutCube | utils.ts:89 | the second branch of the easing is `4 (t - 1)^3 + 1` |
| Utils.EaseMonotone | utils.ts:89 | the easing is strictly increasing on all reals |
| Utils.EaseUnit | utils.ts:89 | the easing maps [0, 1] into [0, 1] |
| Utils.EaseSymmetric | utils.ts:89 | the easing is point-symmetric: ease(1 - t) = 1 - ease(t) |
| Utils.Mix | utils.ts:92 | GLSL `mix` gives its first point at t = 0 and its second at t = 1 |
| Utils.FoliageSway | utils.ts:93 | the sideways sway is 0 when the blend is 0, and at most 0.1 t either way |
| Utils.FoliageVertex | utils.ts:91-93 | at progress 0 the vertex is exactly its chaos position; at progress 1 it is its target in y and z and within 0.1 in x; in between only x leaves the eased blend, by at most 0.1 times the blend |
| Utils.FoliageAlpha | utils.ts:97 | the foliage opacity is in [0, 1] |
| Utils.FoliageFragment | utils.ts:102-104 | no colour exactly for discarded fragments, which under the square-root law are exactly those outside the disc of radius 0.5 around the sprite centre; otherwise the foliage green at the vertex's opacity |
| Decorations.CapCosine | components/Decorations.tsx:37 | the `acos` argument `1 - 0.35 v` is in (0.65, 1], inside its domain |
| Decorations.CapOnSphere | components/Decorations.tsx:35-41 | every sparkle lies on the sphere of radius `radius + 0.01` |
| Decorations.CapOnTop | components/Decorations.tsx:37-40 | a sparkle's height is `(radius + 0.01)(1 - 0.35 v)`, in (0.65 (radius + 0.01), radius + 0.01] |
| Decorations.CapSize | components/Decorations.tsx:42 | a sparkle's size is in [0.3, 0.7) |
| Decorations.CapRandom | components/Decorations.tsx:42 | a sparkle's phase is its own draw, in [0, 1) |
| Decorations.CapStep | components/Decorations.tsx:39-41 | writing point i's coordinates behind the first i points extends the flat buffer to the first i + 1 |
| Decorations.StoreSparkle | components/Decorations.tsx:38-42 | one iteration's writes: the three coordinates at 3i..3i+2, and the phase and the size at i, with every other slot unchanged |
| Decorations.SparkleCap | components/Decorations.tsx:30-44 | fresh buffers of lengths 3·count, count and count; every slot is written; the positions are the flattened sparkle points in order, and slot i holds sparkle i's phase and size |
| Decorations.GiftBox | components/Decorations.tsx:65-94 | the body is 0.6 × 0.6·ratio × 0.6; both bands stand 0.02 taller than the body, each 0.02 larger across one side and a fifth of the body along the other; both bows sit at the lid's centre (0, height/2, 0), rolled ±0.5, at scale 0.2; the body and ribbon colours are the ones passed in |
| Decorations.BandsWrapBody | components/Decorations.tsx:76-83 | for a positive ratio each band is wider than the body one way, narrower the other, and taller |
| Decorations.GiftItemBox | App.tsx:112 | a gift item's box is 0.84 high when its tall draw exceeds 0.5, and 0.6 otherwise; its ribbon is never the colour of its body |
| Decorations.StarBob | components/Decorations.tsx:147 | the star's height stays in [7.7, 7.9] |
| Decorations.StarAboveTree | components/Decorations.tsx:147 | the star always floats above the apex of the tree (y = 7) |
| Decorations.StarGroup.constructor | components/Decorations.tsx:151 | the star group starts at height 7.8 with no spin |
| Decorations.StarGroup.Frame | components/Decorations.tsx:144-148 | the spin is `0.4 * elapsed`, and the height is the bob at that time |

## Left out

- `easing.damp3` and `easing.damp` (App.tsx:90, components/Environment.tsx:69): their smoothing law lives in a library that is not part of this model. `App.Decoration.Frame` and `Environment.FoliageUniforms.Frame` take the step as a function parameter. Nothing is claimed about convergence or frame-rate independence.
- `ExtrudeGeometry`, `TubeGeometry`, `LatheGeometry`, and the box, sphere and torus geometries: these are foreign mesh generators. Only their inputs are modelled:
  - the star path and `STAR_EXTRUDE`;
  - the cane curve and `CANE_TUBE`;
  - the bell profile and `BELL_LATHE_SEGMENTS`;
  - the gift's box dimensions and bow transforms.
- React and JSX, hooks and `useMemo` memoisation. This covers the camera parallax, mouse and touch handlers, lights, post-processing, the loading path, and which decoration mesh each item type selects.
- The canvas stripe texture of the candy cane (components/Decorations.tsx:8-25): 2D canvas drawing.
- Two parts of SparkleCap with no logic to model: its per-frame `uTime` update (components/Decorations.tsx:47, a copy of the clock) and its cap mesh (components/Decorations.tsx:59).
- The ComplexBell and MetalBall meshes (components/Decorations.tsx:97-127). Only their SparkleCap parameters are kept: `CAP_ITEM_RADIUS`, `DEFAULT_CAP_COUNT` and `BELL_CAP_COUNT`.
- GLSL projection and point-size attenuation (utils.ts:65-67, 94-96): they depend on matrices the renderer supplies.
- Random-number generation and the global order of `Math.random()` calls: draws are parameters, grouped per entity. The colour, shade and tall draws of an item record are read only for gifts, while the source draws them only for gifts.
- IEEE double and `Float32Array` rounding: all arithmetic is exact over `real`.
- Facts about `sin`, `cos`, `acos`, `pow`, `cbrt` and `sqrt` beyond the laws in `MathModel`. The following members state their bounds only under the laws they name in their `ensures`: `Environment.FlakePosition`, `App.Bob`, `App.NextRotation`, `Utils.StarVertex`, `Utils.HookAngle`, `Utils.BellPoint`, `Utils.SnowVertex`, `Utils.FoliageVertex`, `Utils.FoliageSway`, `Utils.FoliageAlpha`, `Utils.KeepsDisc`, `Utils.SnowFragment`, `Utils.FoliageFragment` and `Decorations.StarBob`.
- Environment.FallingSnow.Frame: the "written once, in order" property is stated through a ghost log of written slots, not through the instance buffer's own history.
- Utils.CanePoint: its contract does not claim continuity at t = 0.6. The shaft ends near height 0.996 while the hook starts at height 1, as `Utils.ShaftBelowHook` proves.
- The mounted-object guards of the frame callbacks (App.tsx:88, components/Environment.tsx:22 and 67, components/Decorations.tsx:145): every `Frame` method assumes its object exists, so the frames on which the source skips the update are not modelled.
- constants.ts is mirrored as the constants of `Config` and is not modelled otherwise.
