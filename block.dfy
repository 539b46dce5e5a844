/**
 * The block state machine of block.js: at every sample the block reads its
 * current segment, checks for a reversal in flight and then for an impact on
 * the wall, and replaces the segment when either happens.
 *
 * Lengths, velocities and accelerations held by a Block are in screen units:
 * the plane-unit formulas of Kinematics multiplied by `scale`.
 */
module Blocks {
  import opened Wrappers
  import opened Kinematics

  datatype Direction = Down | Up

  /** What the simulation requires of the settings before it builds a Block. */
  predicate Admissible(s: Settings) {
    s.scale >= 0.0 && (s.initialVelocity != 0.0 ==> InitialHeight(s).Some?)
  }

  /** Acceleration of a block sliding down, in screen units. */
  function SlideAcceleration(s: Settings): (a: real)
    ensures s.scale > 0.0 ==> (a < 0.0 <==> WillMove(s))
  {
    var a := AccelerationDown(s) * s.scale;
    assert s.scale > 0.0 && AccelerationDown(s) < 0.0 ==> a < 0.0;
    assert s.scale > 0.0 && AccelerationDown(s) >= 0.0 ==> a >= 0.0 by {
      if s.scale > 0.0 && AccelerationDown(s) >= 0.0 {
        ProductNonNegative(AccelerationDown(s), s.scale);
      }
    }
    a
  }

  /** Acceleration of a block moving up the plane, in screen units: never positive. */
  function ClimbAcceleration(s: Settings): (a: real)
    ensures Physical(s) && s.scale >= 0.0 ==> a <= 0.0
  {
    var a := AccelerationUp(s) * s.scale;
    assert Physical(s) && s.scale >= 0.0 ==> a <= 0.0 by {
      if Physical(s) && s.scale >= 0.0 {
        ProductNonNegative(-AccelerationUp(s), s.scale);
      }
    }
    a
  }

  /** The test of shouldChangeDirection on given values: moving back down while flying up. */
  predicate Reverses(velocity: real, direction: Direction) {
    velocity < 0.0 && direction == Up
  }

  /**
   * The test of hitWall on given values: at or past the wall and not leaving
   * it faster than 1/scale (with scale 0 the threshold is +Infinity).
   */
  predicate AtWall(position: real, velocity: real, scale: real) {
    position <= 0.0 && (scale == 0.0 || velocity <= 1.0 / scale)
  }

  lemma AtWallScaled(position: real, velocity: real, scale: real)
    requires scale > 0.0
    ensures AtWall(position, velocity, scale) <==> position <= 0.0 && velocity * scale <= 1.0
  {
    if velocity <= 1.0 / scale {
      assert velocity * scale <= 1.0 / scale * scale;
    }
    if velocity * scale <= 1.0 {
      assert velocity == velocity * scale / scale;
    }
  }

  /**
   * On a segment that climbs against a negative acceleration, the reversal
   * check fires exactly once the simulated time has passed the apex time
   * initialVelocity / -acceleration.
   */
  lemma ReversalAfterApex(m: Motion, t: real)
    requires m.acceleration < 0.0
    ensures Reverses(m.VelocityAt(t), Up) <==> m.Elapsed(t) > m.initialVelocity / -m.acceleration
  {
    var b, tau, v0 := -m.acceleration, m.Elapsed(t), m.initialVelocity;
    var apex := v0 / b;
    assert apex * b == v0;
    // tau - apex and tau * b - v0 have the same sign, as b is positive
    assert m.VelocityAt(t) == v0 - tau * b;
    assert (tau - apex) * b == tau * b - v0;
    if tau > apex {
      ProductNonNegative(tau - apex, b);
      assert (tau - apex) * b != 0.0 by {
        if (tau - apex) * b == 0.0 {
          assert tau - apex == (tau - apex) * b / b;
        }
      }
    } else {
      ProductNonNegative(apex - tau, b);
      assert (apex - tau) * b == -((tau - apex) * b);
    }
  }

  /**
   * Speed after a bounce from apex `bounceHeight`, in screen units: the
   * rebound speed for bounceHeight / scale plane units, times scale, and 0
   * where the square root would be NaN.
   */
  function ReboundVelocity(s: Settings, sqrt: Root, bounceHeight: real): (v: real)
    requires s.scale > 0.0
    ensures v >= 0.0
    ensures BounceRadicand(s, bounceHeight / s.scale) < 0.0 ==> v == 0.0
    ensures BounceVelocity(s, bounceHeight / s.scale, sqrt).Some?
            ==> v == BounceVelocity(s, bounceHeight / s.scale, sqrt).value * s.scale
    ensures Physical(s) && bounceHeight >= 0.0 && s.energy * s.sinAngle >= s.friction * s.cosAngle
            ==> v == BounceVelocity(s, bounceHeight / s.scale, sqrt).value * s.scale
  {
    match BounceVelocity(s, bounceHeight / s.scale, sqrt)
    case None => 0.0
    case Some(w) => ProductNonNegative(w, s.scale); w * s.scale
  }

  /**
   * The apex recorded for the next excursion: the last one times the
   * distance multiplier, and times 0 where the multiplier would be NaN.
   */
  function ReboundHeight(s: Settings, bounceHeight: real): (h: real)
    ensures DistanceMultiplier(s).None? ==> h == 0.0
    ensures DistanceMultiplier(s).Some? && 0.0 <= DistanceMultiplier(s).value <= 1.0 && bounceHeight >= 0.0
            ==> 0.0 <= h <= bounceHeight
    ensures Physical(s) && s.energy <= 1.0 && bounceHeight >= 0.0 ==> h <= bounceHeight
    ensures Physical(s) && bounceHeight >= 0.0 && s.energy * s.sinAngle >= s.friction * s.cosAngle ==> h >= 0.0
  {
    match DistanceMultiplier(s)
    case None => 0.0
    case Some(m) =>
      assert bounceHeight >= 0.0 && m <= 1.0 ==> bounceHeight * m <= bounceHeight by {
        if bounceHeight >= 0.0 && m <= 1.0 {
          ProductNonNegative(bounceHeight, 1.0 - m);
        }
      }
      assert bounceHeight >= 0.0 && m >= 0.0 ==> bounceHeight * m >= 0.0 by {
        if bounceHeight >= 0.0 && m >= 0.0 {
          ProductNonNegative(bounceHeight, m);
        }
      }
      bounceHeight * m
  }

  /** The apex multiplier is defined and lies in [0, 1]: each rebound loses height. */
  predicate Dissipative(s: Settings) {
    DistanceMultiplier(s).Some? && 0.0 <= DistanceMultiplier(s).value <= 1.0
  }

  /** The apex a block records first: the top of the plane from rest, the launch apex otherwise. */
  function FirstApex(s: Settings): real
    requires s.initialVelocity != 0.0 ==> InitialHeight(s).Some?
  {
    if s.initialVelocity == 0.0 then s.scale * (s.length - s.blockSize)
    else InitialHeight(s).value * s.scale
  }

  /** The apex recorded after `n` rebounds, starting from apex `h`. */
  function ApexAfter(s: Settings, h: real, n: nat): real
  {
    if n == 0 then h else ReboundHeight(s, ApexAfter(s, h, n - 1))
  }

  /**
   * In a dissipative setting the recorded apex never grows from one rebound
   * to a later one, and never drops below 0.
   */
  lemma {:induction false} ApexesNonIncreasing(s: Settings, h: real, k: nat, n: nat)
    requires Dissipative(s) && h >= 0.0 && k <= n
    ensures 0.0 <= ApexAfter(s, h, n) <= ApexAfter(s, h, k)
  {
    if k < n {
      ApexesNonIncreasing(s, h, k, n - 1);
    } else if k > 0 {
      ApexesNonIncreasing(s, h, 0, k);
    }
  }

  /** With a multiplier of exactly 1 (no friction, full energy) every rebound reaches the same apex. */
  lemma {:induction false} ElasticApexesConstant(s: Settings, h: real, n: nat)
    requires DistanceMultiplier(s) == Some(1.0)
    ensures ApexAfter(s, h, n) == h
  {
    if n > 0 {
      ElasticApexesConstant(s, h, n - 1);
    }
  }

  /** The square root is exact where the bounce from `bounceHeight` needs it, and the multiplier is defined. */
  predicate ExactRebound(s: Settings, sqrt: Root, bounceHeight: real) {
    s.scale > 0.0 && DistanceMultiplier(s).Some?
    && BounceRadicand(s, bounceHeight / s.scale) >= 0.0
    && ExactAt(sqrt, BounceRadicand(s, bounceHeight / s.scale))
  }

  /**
   * The new apex is where the new segment stops: a block leaving the wall at
   * ReboundVelocity against ClimbAcceleration comes to rest after exactly
   * ReboundHeight.
   */
  lemma ReboundApex(s: Settings, sqrt: Root, bounceHeight: real)
    requires ExactRebound(s, sqrt, bounceHeight)
    ensures StopsAfter(ReboundVelocity(s, sqrt, bounceHeight), ClimbAcceleration(s), ReboundHeight(s, bounceHeight))
  {
    var k := s.scale;
    var l := bounceHeight / k;
    ReboundReachesNextApex(s, l, sqrt);
    var w := BounceVelocity(s, l, sqrt).value;
    var m := DistanceMultiplier(s).value;
    var a := AccelerationUp(s);
    assert StopsAfter(w, a, l * m);
    assert l * k == bounceHeight;
    calc {
      (w * k) * (w * k);
      (w * w) * (k * k);
      (-2.0 * a * (l * m)) * (k * k);
      -2.0 * (a * k) * ((l * k) * m);
      -2.0 * (a * k) * (bounceHeight * m);
    }
  }

  class Block {
    const settings: Settings
    const sqrt: Root
    var running: bool
    var position: real
    var velocity: real
    var direction: Direction
    var bounceHeight: real
    var bounces: nat
    var velocityDiscontinuous: bool
    var accelerationDiscontinuous: bool
    var motion: Motion

    /**
     * The segment reads the block's settings; a zero scale keeps every apex
     * at 0; and the apex is the first one after `bounces` rebounds.
     */
    ghost predicate Valid()
      reads this, motion
    {
      && Admissible(settings) && motion.settings == settings
      && (settings.scale == 0.0 ==> bounceHeight == 0.0)
      // every counted bounce took the apex one rebound further
      && bounceHeight == ApexAfter(settings, FirstApex(settings), bounces)
    }

    /** The state `reset` leaves, with a segment whose clock starts at `now`. */
    ghost predicate IsFreshRun(now: real)
      reads this, motion
    {
      && Admissible(settings)
      && !running && bounces == 0
      && !velocityDiscontinuous && !accelerationDiscontinuous
      && motion.start == now
      && if settings.initialVelocity == 0.0 then
           // released from rest at the top; a positive slide acceleration is clamped to 0
           && position == bounceHeight == FirstApex(settings)
           && velocity == 0.0 && direction == Down
           && motion.acceleration == (if SlideAcceleration(settings) > 0.0 then 0.0 else SlideAcceleration(settings))
           && motion.initialPosition == position && motion.initialVelocity == 0.0
         else
           // launched up the plane from the wall
           && position == 0.0 && velocity == settings.initialVelocity * settings.scale
           && bounceHeight == FirstApex(settings)
           && direction == Up && motion.acceleration == ClimbAcceleration(settings)
           && motion.initialPosition == 0.0 && motion.initialVelocity == velocity
    }

    constructor (settings: Settings, sqrt: Root, now: real)
      requires Admissible(settings)
      ensures Valid() && fresh(motion) && IsFreshRun(now)
    {
      this.settings := settings;
      this.sqrt := sqrt;
      running := false;
      // a placeholder: Reset installs the first segment
      motion := new Motion(0.0, 0.0, 0.0, settings, now);
      new;
      Reset(now);
    }

    method Reset(now: real)
      requires Admissible(settings)
      modifies this
      ensures Valid() && fresh(motion) && IsFreshRun(now)
      ensures settings.initialVelocity == 0.0 || Physical(settings) ==> motion.acceleration <= 0.0
    {
      var length, blockSize, scale := settings.length, settings.blockSize, settings.scale;
      // the arithmetic the invariant needs, settled before any field changes
      ghost var apex := FirstApex(settings);
      assert scale == 0.0 ==> apex == 0.0;
      assert apex == ApexAfter(settings, apex, 0);
      assert Physical(settings) ==> ClimbAcceleration(settings) <= 0.0;
      velocityDiscontinuous := false;
      accelerationDiscontinuous := false;
      running := false;
      bounces := 0;
      if settings.initialVelocity == 0.0 {
        var acceleration := SlideAcceleration(settings);
        if acceleration > 0.0 {
          acceleration := 0.0;
        }
        position := scale * (length - blockSize);
        motion := new Motion(acceleration, position, 0.0, settings, now);
        velocity := 0.0;
        bounceHeight := position;
        direction := Down;
      } else {
        var acceleration := ClimbAcceleration(settings);
        position := 0.0;
        motion := new Motion(acceleration, position, settings.initialVelocity * scale, settings, now);
        velocity := settings.initialVelocity * scale;
        bounceHeight := InitialHeight(settings).value * scale;
        direction := Up;
      }
      assert bounceHeight == apex;
    }

    /** The block, flying up, has started back down: see ReversalAfterApex for when that happens. */
    function ShouldChangeDirection(): (b: bool)
      reads this
      ensures b <==> direction == Up && velocity < 0.0
    {
      Reverses(velocity, direction)
    }

    /**
     * The block is at the wall and not leaving it: velocity times scale at
     * most 1, and any velocity when the scale is 0.
     */
    function HitWall(): (b: bool)
      reads this
      ensures settings.scale > 0.0 ==> (b <==> position <= 0.0 && velocity * settings.scale <= 1.0)
      ensures settings.scale == 0.0 ==> (b <==> position <= 0.0)
    {
      if settings.scale > 0.0 then
        AtWallScaled(position, velocity, settings.scale);
        AtWall(position, velocity, settings.scale)
      else
        AtWall(position, velocity, settings.scale)
    }

    function WillMove(): (b: bool)
      ensures b <==> AccelerationDown(settings) < 0.0
    {
      Kinematics.WillMove(settings)
    }

    function WillFlyOff(): (b: bool)
      ensures InitialHeight(settings).Some? ==> (b <==> InitialHeight(settings).value + settings.blockSize > settings.length)
      ensures InitialHeight(settings).None? ==> (b <==> settings.initialVelocity != 0.0)
      ensures settings.initialVelocity == 0.0 ==> (b <==> AccelerationUp(settings) != 0.0 && settings.blockSize > settings.length)
    {
      Kinematics.WillFlyOff(settings)
    }

    /**
     * The block has stopped rising: it restarts from its apex, sliding down
     * when it can, and settling there (running off) when friction holds it.
     */
    method SlideDown(now: real)
      requires Valid()
      modifies this`running, this`position, this`velocity, this`direction, this`bounceHeight, this`bounces, this`motion
      ensures Valid() && fresh(motion) && motion.start == now
      ensures position == old(bounceHeight)
      ensures motion.initialPosition == position && motion.initialVelocity == 0.0
      ensures bounceHeight == old(bounceHeight) && bounces == old(bounces)
      ensures motion.acceleration <= 0.0
      ensures if SlideAcceleration(settings) > 0.0 then
                // held by friction: a static segment; velocity and direction are left as they were
                && motion.acceleration == 0.0 && !running
                && velocity == old(velocity) && direction == old(direction)
              else
                && motion.acceleration == SlideAcceleration(settings) && running == old(running)
                && velocity == 0.0 && direction == Down
    {
      position := bounceHeight;
      var acceleration := SlideAcceleration(settings);
      if acceleration > 0.0 {
        motion := new Motion(0.0, position, 0.0, settings, now);
        running := false;
        return;
      }
      motion := new Motion(acceleration, position, 0.0, settings, now);
      velocity := 0.0;
      direction := Down;
    }

    /**
     * The block has reached the wall. Below an apex of 1 it settles there;
     * otherwise it counts a bounce and leaves the wall upwards with the
     * rebound speed, towards the next (smaller) apex.
     */
    method Bounce(now: real)
      requires Valid()
      modifies this`running, this`position, this`velocity, this`direction, this`bounceHeight, this`bounces, this`motion
      ensures Valid() && fresh(motion) && motion.start == now
      ensures position == 0.0 && motion.initialPosition == 0.0 && motion.initialVelocity == velocity
      ensures velocity >= 0.0
      ensures if old(bounceHeight) < 1.0 then
                && !running && velocity == 0.0 && motion.acceleration == 0.0
                && bounces == old(bounces) && direction == old(direction)
                && bounceHeight == old(bounceHeight)
              else
                && running == old(running) && bounces == old(bounces) + 1 && direction == Up
                && velocity == ReboundVelocity(settings, sqrt, old(bounceHeight))
                && bounceHeight == ReboundHeight(settings, old(bounceHeight))
                && motion.acceleration == ClimbAcceleration(settings)
      ensures old(bounceHeight) >= 1.0 && ExactRebound(settings, sqrt, old(bounceHeight))
              ==> StopsAfter(velocity, motion.acceleration, bounceHeight)
    {
      if bounceHeight < 1.0 {
        running := false;
        motion := new Motion(0.0, 0.0, 0.0, settings, now);
        velocity := 0.0;
        position := 0.0;
        return;
      }
      bounces := bounces + 1;
      var acceleration := ClimbAcceleration(settings);
      var v := ReboundVelocity(settings, sqrt, bounceHeight);
      var height := ReboundHeight(settings, bounceHeight);
      assert height == ApexAfter(settings, FirstApex(settings), bounces);
      if ExactRebound(settings, sqrt, bounceHeight) {
        ReboundApex(settings, sqrt, bounceHeight);
        assert StopsAfter(v, acceleration, height);
      }
      bounceHeight := height;
      motion := new Motion(acceleration, 0.0, v, settings, now);
      position := 0.0;
      velocity := v;
      direction := Up;
    }

    /** The reversal check of updateMotion, made on the velocity sampled at `time`. */
    ghost predicate ReversesAt(time: real)
      reads this, motion
    {
      Reverses(motion.VelocityAt(time), direction)
    }

    /** The position the wall check of updateMotion sees: the sample, or the apex after a reversal. */
    ghost function CheckedPosition(time: real): real
      reads this, motion
    {
      if ReversesAt(time) then bounceHeight else motion.PositionAt(time)
    }

    /** The velocity the wall check of updateMotion sees: the sample, or 0 after a reversal that slides. */
    ghost function CheckedVelocity(time: real): real
      reads this, motion
    {
      if ReversesAt(time) && SlideAcceleration(settings) <= 0.0 then 0.0 else motion.VelocityAt(time)
    }

    /** The wall check of updateMotion fires at `time`. */
    ghost predicate ImpactAt(time: real)
      reads this, motion
    {
      AtWall(CheckedPosition(time), CheckedVelocity(time), settings.scale)
    }

    /**
     * One sample: read the segment at `time`, clear both flags, then check
     * for a reversal and after it for an impact, and finally replace a
     * segment that would accelerate up the plane by a static one.
     */
    method UpdateMotion(time: real)
      requires Valid()
      modifies this
      ensures Valid()
      // flags: set exactly when the corresponding event fired in this sample
      ensures accelerationDiscontinuous == (old(ReversesAt(time)) || old(ImpactAt(time)))
      ensures velocityDiscontinuous == old(ImpactAt(time))
      // counters and the recorded apex change only on a rebound
      ensures bounces == old(bounces) + (if old(ImpactAt(time)) && old(bounceHeight) >= 1.0 then 1 else 0)
      ensures bounceHeight == if old(ImpactAt(time)) && old(bounceHeight) >= 1.0
                              then ReboundHeight(settings, old(bounceHeight)) else old(bounceHeight)
      ensures position == if old(ImpactAt(time)) then 0.0 else old(CheckedPosition(time))
      ensures direction == if old(ImpactAt(time)) && old(bounceHeight) >= 1.0 then Up
                           else if old(ReversesAt(time)) && SlideAcceleration(settings) <= 0.0 then Down
                           else old(direction)
      ensures running == if old(ImpactAt(time)) && old(bounceHeight) < 1.0 then false
                         else if old(ReversesAt(time)) && SlideAcceleration(settings) > 0.0 then false
                         else old(running)
      // the segment: kept, or replaced by one whose clock starts now
      ensures motion.acceleration <= 0.0
      ensures motion == old(motion) || (fresh(motion) && motion.start == time && motion.initialPosition == position)
      ensures !old(ReversesAt(time)) && !old(ImpactAt(time)) ==>
                if old(motion.acceleration) > 0.0 then
                  fresh(motion) && motion.acceleration == 0.0 && motion.initialVelocity == 0.0 && velocity == 0.0
                else
                  motion == old(motion) && velocity == old(motion.VelocityAt(time))
      ensures old(ReversesAt(time)) && !old(ImpactAt(time)) ==>
                && fresh(motion) && motion.initialVelocity == 0.0
                && if SlideAcceleration(settings) > 0.0 then
                     motion.acceleration == 0.0 && velocity == old(motion.VelocityAt(time))
                   else
                     motion.acceleration == SlideAcceleration(settings) && velocity == 0.0
      ensures old(ImpactAt(time)) ==>
                && fresh(motion) && motion.initialVelocity == velocity
                && if old(bounceHeight) < 1.0 || ClimbAcceleration(settings) > 0.0 then
                     motion.acceleration == 0.0 && velocity == 0.0
                   else
                     && motion.acceleration == ClimbAcceleration(settings)
                     && velocity == ReboundVelocity(settings, sqrt, old(bounceHeight))
    {
      // what the two checks will see, named in the state the sample starts from
      ghost var reverses, impact := ReversesAt(time), ImpactAt(time);
      ghost var checkedPosition, checkedVelocity := CheckedPosition(time), CheckedVelocity(time);
      velocity := motion.VelocityAt(time);
      position := motion.PositionAt(time);

      accelerationDiscontinuous := false;
      velocityDiscontinuous := false;

      assert ShouldChangeDirection() == reverses;
      if ShouldChangeDirection() {
        accelerationDiscontinuous := true;
        SlideDown(time);
      }

      assert position == checkedPosition && velocity == checkedVelocity;
      if HitWall() {
        accelerationDiscontinuous := true;
        velocityDiscontinuous := true;
        Bounce(time);
      }

      if motion.acceleration > 0.0 {
        velocity := 0.0;
        motion := new Motion(0.0, position, 0.0, settings, time);
        return;
      }
    }
  }

  /**
   * The apex the block records at a launch is where its first segment stops:
   * (v0 * scale)^2 == -2 * ClimbAcceleration * (InitialHeight * scale).
   */
  lemma LaunchApex(s: Settings)
    requires InitialHeight(s).Some?
    ensures StopsAfter(s.initialVelocity * s.scale, ClimbAcceleration(s), InitialHeight(s).value * s.scale)
  {
    var h, a, k, v0 := InitialHeight(s).value, AccelerationUp(s), s.scale, s.initialVelocity;
    assert StopsAfter(v0, a, h);
    calc {
      -2.0 * (a * k) * (h * k);
      (h * (-2.0 * a)) * (k * k);
      (v0 * v0) * (k * k);
      (v0 * k) * (v0 * k);
    }
  }
}
