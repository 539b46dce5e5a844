# Block on an inclined plane: a Dafny model of the physics core

The program simulates a block on an inclined plane with friction. The block
slides down, hits the wall at the bottom, bounces up and loses energy on each
bounce, until it settles. This project models three parts of it:

- **Kinematics** (`kinematics.dfy`, from `motion.js`). The closed-form
  inclined-plane formulas: the downhill and uphill accelerations, whether the
  block moves at all, the launch apex, the fly-off warning, the rebound speed
  and the apex ratio. Also the `Motion` segment: constant acceleration from a
  clock origin that `Shift` moves past a pause.
- **Blocks** (`block.dfy`, from `block.js`). The `Block` state machine. At
  each sample it reads its segment and clears both discontinuity flags. It
  then checks for a reversal in flight (`SlideDown`) and after that for an
  impact on the wall (`Bounce`). Last, it replaces any segment that would
  accelerate up the plane by a static one. The block's invariant ties the
  two bounce fields together: `bounceHeight` is the first apex taken through
  `bounces` rebounds.
- **Graphs** (`graph.dfy`, from `graph.js` without drawing). The history
  buffer of each plot. It keeps the last `posX` samples and records the
  sample times where a jump is pending.

`wrappers.dfy` holds the `Option` type. The other modules use it for a
JavaScript NaN and for an option key left out.

Modelling choices:

- Numbers are Dafny `real`. The sine and cosine of the plane's angle are
  settings fields (`sinAngle`, `cosAngle`).
- `Math.sqrt` is a parameter of type `Root`: any function whose results are
  never negative. A `Block` gets it at construction. Lemmas that need an exact
  root say so with `ExactAt`.
- A formula that would give NaN returns `None`. The `|| 0` guards of
  `bounce` turn `None` into 0.
- The wall clock becomes a parameter. The `Motion` constructor takes `now`.
  `SlideDown` and `Bounce` start their new segment at the sample time that
  `UpdateMotion` was called with.
- Block lengths and speeds are in screen units, as in the source: the
  plane-unit formulas multiplied by `scale`.

A behaviour of the source that the contracts keep as written: when
`SlideDown` finds that friction holds the block, it installs a static segment.
It leaves `velocity` at the negative value just sampled, and `direction` stays
`Up`. `UpdateMotion`'s contract states this case explicitly.

## Model

| member | source | states |
|---|---|---|
| `Kinematics.AccelerationUp` | motion.js:17-23 | With non-negative gravity, friction, sine and cosine, the uphill acceleration is never positive and never above the downhill one |
| `Kinematics.AccelerationDown` | motion.js:17-19 | Friction can only slow the slide: in a physical setting the downhill acceleration is never below −g·sinθ. Without friction, or on a vertical plane, it is exactly −g·sinθ |
| `Kinematics.WillMove` | motion.js:25-27 | The block starts to slide exactly when the downhill acceleration is negative |
| `Kinematics.MaxAcceleration` | motion.js:29 | It is the same function as the uphill acceleration; in a physical setting its magnitude bounds the downhill acceleration's |
| `Kinematics.InitialHeight` | motion.js:5-7 | Undefined exactly when the uphill acceleration is 0. Otherwise it is the distance at which a block launched at the initial velocity against that acceleration stops (v² = −2·a·h), and it is non-negative in a physical setting |
| `Kinematics.WillFlyOff` | motion.js:9-11 | True exactly when the launch apex plus the block size exceeds the plane length. An infinite apex flies off and a NaN apex does not. From rest, it is true only if the block is longer than the plane |
| `Kinematics.BounceVelocity` | motion.js:13-15 | The rebound speed is never negative. It is defined, not NaN, whenever restitution beats friction (e·sinθ ≥ μ·cosθ) in a physical setting, from a non-negative height |
| `Kinematics.DistanceMultiplier` | motion.js:1-3 | Undefined exactly when its denominator is 0. In a physical setting it is at most 1 when energy ≤ 1, and non-negative exactly when e·sinθ ≥ μ·cosθ |
| `Kinematics.ReboundReachesNextApex` | motion.js:1-3 | With an exact root, a block launched at the rebound speed against the uphill acceleration stops exactly at the fallen height times the distance multiplier |
| `Kinematics.Motion.constructor` | motion.js:32-38 | The segment keeps the given acceleration, initial position, initial velocity and settings, and its clock origin is the wall-clock time `now` passed in place of `Date.now()` |
| `Kinematics.Motion.Elapsed` | motion.js:43 | Elapsed simulated time is 0 at the origin and whenever timeSpeed is 0; it is non-negative after the origin when timeSpeed ≥ 0 |
| `Kinematics.Motion.VelocityAt` | motion.js:41-45 | Velocity is the initial velocity at the origin, for timeSpeed 0, and for a static segment |
| `Kinematics.Motion.PositionAt` | motion.js:47-51 | Position is the initial position at the origin, for timeSpeed 0, and for a segment with no velocity and no acceleration |
| `Kinematics.Motion.Shift` | motion.js:53-55 | Moves the origin by the delay. Elapsed time, position and velocity at t + delay equal those at t before the shift, so a pause adds no jump |
| `Kinematics.MeanVelocity` | motion.js:41-51 | The distance between two samples is the mean of their velocities times the elapsed time between them |
| `Kinematics.StopsAtApex` | motion.js:41-51 | When a decelerating segment's velocity reaches 0, the distance covered d satisfies v0² = −2·a·d |
| `Blocks.SlideAcceleration` | block.js:99 | With a positive scale, the scaled downhill acceleration is negative exactly when the block will move |
| `Blocks.ClimbAcceleration` | block.js:126 | The scaled uphill acceleration is never positive in a physical setting with a non-negative scale |
| `Blocks.ReversalAfterApex` | block.js:79-81 | On a segment climbing against a negative acceleration, the reversal check fires exactly when the simulated time since the origin exceeds the apex time v0/(−a) |
| `Blocks.AtWallScaled` | block.js:83-85 | With a positive scale, the wall check holds exactly when position ≤ 0 and velocity·scale ≤ 1 |
| `Blocks.ReboundVelocity` | block.js:129 | The speed after a bounce is never negative. It is 0 where the square root would be NaN (a negative radicand), and otherwise it is the plane-unit rebound speed times scale, whatever the signs of the settings. In a physical setting with a non-negative apex and e·sinθ ≥ μ·cosθ it is always the scaled rebound speed |
| `Blocks.ReboundHeight` | block.js:130 | The next apex is 0 when the multiplier is NaN. When the multiplier lies in [0,1], the apex from a non-negative one neither grows nor turns negative. In a physical setting with energy ≤ 1, from a non-negative apex, it does not grow; it is non-negative when e·sinθ ≥ μ·cosθ |
| `Blocks.ApexesNonIncreasing` | block.js:124-130 | When the distance multiplier lies in [0, 1], the apex recorded after n bounces (each one `bounceHeight *= multiplier`) is never negative and never above the apex after any earlier bounce count |
| `Blocks.ElasticApexesConstant` | block.js:124-130 | With a distance multiplier of exactly 1 (no friction, full energy) the recorded apex is the same after every number of bounces |
| `Blocks.ReboundApex` | block.js:124-136 | With an exact root, the new segment after a bounce stops exactly at the new bounceHeight: bounceHeight keeps tracking the apex |
| `Blocks.LaunchApex` | block.js:44-50 | At a launch with initial velocity, the first segment stops exactly at the recorded bounceHeight |
| `Blocks.Block.constructor` | block.js:20-23 | Builds the block in the state `reset` leaves |
| `Blocks.Block.Reset` | block.js:25-52 | running false, no bounces, both flags clear. From rest: at the top, scale·(length − blockSize), velocity 0, direction Down, acceleration clamped to ≤ 0. Launched: at the wall, velocity v0·scale, direction Up, the uphill acceleration, bounceHeight the scaled launch apex. The block invariant holds: bounceHeight is the first apex after 0 bounces |
| `Blocks.Block.ShouldChangeDirection` | block.js:79-81 | True exactly when the block is flying up (direction Up) and its velocity has turned negative |
| `Blocks.Block.HitWall` | block.js:83-85 | With a positive scale, true exactly when position ≤ 0 and velocity·scale ≤ 1. With scale 0 (threshold +Infinity), true exactly when position ≤ 0 |
| `Blocks.Block.WillMove` | block.js:87-89 | The block will move exactly when the downhill acceleration of its settings is negative |
| `Blocks.Block.WillFlyOff` | block.js:91-93 | With a defined launch apex, true exactly when apex + blockSize exceeds the plane length. With an undefined apex (zero denominator), true exactly when the initial velocity is non-zero (an infinite apex). Released from rest, the block flies off only if it is longer than the plane (and the apex is defined) |
| `Blocks.Block.SlideDown` | block.js:95-111 | Moves the block to bounceHeight on a fresh segment with velocity 0. If the scaled downhill acceleration is positive, the segment is static and running goes false, with velocity and direction unchanged. Otherwise it slides with that acceleration, velocity 0, direction Down. The discontinuity flags are outside its frame |
| `Blocks.Block.Bounce` | block.js:113-137 | Below an apex of 1 the block settles: running false, position and velocity 0, static segment, bounces and direction unchanged. Otherwise bounces increases by 1, position 0, direction Up, velocity the rebound speed (≥ 0), bounceHeight the rebound height. The discontinuity flags are outside its frame. The invariant "bounceHeight is the first apex after `bounces` bounces" is kept |
| `Blocks.Block.UpdateMotion` | block.js:54-77 | accelerationDiscontinuous ends true exactly when a reversal or an impact fired, velocityDiscontinuous exactly when an impact fired. The impact is checked on the state slideDown left. bounces rises by 1 exactly on an impact with apex ≥ 1. The final segment's acceleration is never positive. The whole new state is given case by case |
| `Graphs.Merge` | graph.js:20 | The spread `{ ...defaultOptions, ...options }` key by key: each of the ten keys is the caller's value when given and the default when left out |
| `Graphs.MergeExtremes` | graph.js:17-20 | With no keys the options are the defaults; with every key they are exactly the given ones |
| `Graphs.Graph.constructor` | graph.js:17-23 | Options are the defaults overridden key by key. The given data is kept, discontinuities are empty, mouseX is 0 and no jump is pending |
| `Graphs.Window` | graph.js:27 | `slice(-posX)` keeps a suffix: the last min(len, posX) elements for a positive posX, everything for posX 0, and all but the first −posX for a negative posX |
| `Graphs.WindowOfWindow` | graph.js:26-27 | For posX ≥ 0, trimming and then appending gives the same window as appending to the untrimmed sequence, so trimming twice is trimming once |
| `Graphs.Graph.AddNextPoint` | graph.js:25-33 | data becomes the window of old data plus the new point. For posX ≥ 0 that is the window of everything added since the last reset, ending with the new point. A pending jump is recorded at x and cleared; otherwise discontinuities are unchanged |
| `Graphs.Graph.SetMousePosition` | graph.js:35-37 | Only mouseX changes |
| `Graphs.Graph.Reset` | graph.js:39-41 | Only the data is emptied; discontinuities and the pending flag stay |
| `Graphs.Graph.WillBeDiscontinuous` | graph.js:43-45 | Sets the pending flag and changes nothing else |

## Left out

- simulation.js is not part of this model: the animation-frame loop, the pause bookkeeping and the graph set-up. Its one call into the core on resume, `motion.shift(pauseTime)`, is what `Kinematics.Motion.Shift` covers.
- settings.js is not part of this model: DOM inputs, `isDataValid` and `adjustScale`. The one assumption taken from the validator is `scale >= 0`, in `Blocks.Admissible`.
- Drawing (`Block.draw`, `Graph.draw`, helpers.js, plane.js, modal.js, index.js) is rendering only.
- `Math.sin`, `Math.cos` and `Math.sqrt` are not computed. Sine and cosine are settings fields, and the square root is a parameter that returns non-negative values.
- IEEE-754 rounding and the sign of zero are not modelled. The `1/scale` impact threshold is kept as written; with scale 0 it is +Infinity, so the velocity test always passes.
- Kinematics.DistanceMultiplier: a zero denominator gives `None`, read as 0 by `bounce`. This matches the source whenever sine, cosine and friction are non-negative, because the numerator is then 0 too (0/0 is NaN). With other signs the source would get ±Infinity, which is not modelled.
- Kinematics.WillFlyOff: with a zero denominator and a non-zero velocity the apex counts as +Infinity. A negative zero denominator, which gives −Infinity, is not modelled.
- Blocks.Block.constructor: a launch with non-zero initial velocity whose apex has a zero denominator (no gravity, or a flat frictionless plane) gives an infinite bounceHeight in the source. It is excluded by `Blocks.Admissible`.
- Blocks.Block.UpdateMotion: each block, and each of its segments, holds one snapshot of the settings, taken when the block is built. The source shares one mutable settings object instead, and reads it (`timeSpeed`, `scale`) at every query. Two source paths change that object under a live block without rebuilding it, and neither is modelled. A window resize runs `adjustScale` (simulation.js:59-66, settings.js:69-73), which writes a new `scale`. An invalid input is written into the settings before `simulation.reset` returns early (simulation.js:106-111), so the old block keeps running on the new value. The invariant of `Blocks.Block.Valid`, which ties `bounceHeight` to `bounces` through the settings, holds only for the snapshot.
- Graphs.Window: posX is an integer. A fractional posX, which `slice` would truncate, is not modelled.
- Graphs.Graph.constructor: keys outside the ten defaults, and keys passed explicitly as `undefined`, are not modelled. The `discontinuous` flag, which the source leaves undefined (falsy) until first set, starts false.
- Graphs.Graph: the data array given to the constructor is aliased by the source; the model copies it as a value.
- Eventual settling and position ≥ 0 on every sample are not claimed. The core has no loop to argue about, and its segments are driven by wall-clock samples.
