/**
 * The constant-acceleration segment and the inclined-plane formulas of motion.js.
 *
 * The trigonometric values of the plane's angle are configuration inputs
 * (`sinAngle`, `cosAngle`), and the square root is a parameter of type `Root`.
 * A JavaScript result that would be NaN is `None` here; callers decide what
 * to substitute for it.
 */
module Kinematics {
  import opened Wrappers

  /** A snapshot of the settings the simulation reads (angle given by its sine and cosine). */
  datatype Settings = Settings(
    sinAngle: real,
    cosAngle: real,
    length: real,
    blockSize: real,
    energy: real,
    friction: real,
    timeSpeed: real,
    scale: real,
    gravity: real,
    initialVelocity: real)

  /** A square root: whatever it returns is non-negative. */
  type Root = f: real -> real | forall x :: 0.0 <= f(x) witness (x: real) => 0.0

  /** The square root `sqrt` is exact at `x`. */
  predicate ExactAt(sqrt: Root, x: real) {
    sqrt(x) * sqrt(x) == x
  }

  /**
   * A segment that starts at velocity v with constant acceleration a stops
   * after covering distance d: v * v == -2 * a * d.
   */
  predicate StopsAfter(v: real, a: real, d: real) {
    v * v == -2.0 * a * d
  }

  /** Non-negative gravity and friction on a plane whose angle lies in [0, pi/2]. */
  predicate Physical(s: Settings) {
    s.gravity >= 0.0 && s.friction >= 0.0 && s.sinAngle >= 0.0 && s.cosAngle >= 0.0
  }

  lemma ProductNonNegative(x: real, y: real)
    requires x >= 0.0 && y >= 0.0
    ensures x * y >= 0.0
  {
  }

  /**
   * Acceleration along the plane of a block sliding down (negative: towards
   * the wall). Friction can only slow the slide, and without friction (or on
   * a vertical plane) only gravity's component along the plane is left.
   */
  function AccelerationDown(s: Settings): (a: real)
    ensures Physical(s) ==> a >= -(s.gravity * s.sinAngle)
    ensures s.friction == 0.0 || s.cosAngle == 0.0 ==> a == -(s.gravity * s.sinAngle)
  {
    var r := -(s.gravity * s.sinAngle - s.friction * s.gravity * s.cosAngle);
    assert Physical(s) ==> s.friction * s.gravity * s.cosAngle >= 0.0 by {
      if Physical(s) {
        ProductNonNegative(s.friction, s.gravity);
        ProductNonNegative(s.friction * s.gravity, s.cosAngle);
      }
    }
    r
  }

  /** Acceleration along the plane of a block moving up: gravity and friction both oppose it. */
  function AccelerationUp(s: Settings): (a: real)
    ensures Physical(s) ==> a <= 0.0 && a <= AccelerationDown(s)
  {
    var r := -(s.gravity * s.sinAngle + s.friction * s.gravity * s.cosAngle);
    assert Physical(s) ==> s.friction * s.gravity * s.cosAngle >= 0.0 by {
      if Physical(s) {
        ProductNonNegative(s.friction, s.gravity);
        ProductNonNegative(s.friction * s.gravity, s.cosAngle);
      }
    }
    assert Physical(s) ==> s.gravity * s.sinAngle >= 0.0 by {
      if Physical(s) {
        ProductNonNegative(s.gravity, s.sinAngle);
      }
    }
    r
  }

  /** The block starts to slide: the gravity component beats kinetic friction. */
  function WillMove(s: Settings): (b: bool)
    ensures b <==> AccelerationDown(s) < 0.0
  {
    s.gravity * s.sinAngle > s.friction * s.gravity * s.cosAngle
  }

  /**
   * The acceleration of largest magnitude the block can have: the source
   * exports it as another name for the upward acceleration.
   */
  function MaxAcceleration(s: Settings): (a: real)
    ensures a == AccelerationUp(s)
    ensures Physical(s) ==> -a >= AccelerationDown(s) && -a >= -AccelerationDown(s)
  {
    AccelerationUp(s)
  }

  /**
   * How far up the plane a block launched from the wall with the configured
   * initial velocity gets; `None` when the denominator is zero.
   */
  function InitialHeight(s: Settings): (h: Option<real>)
    ensures h.None? <==> AccelerationUp(s) == 0.0
    ensures h.Some? ==> StopsAfter(s.initialVelocity, AccelerationUp(s), h.value)
    ensures h.Some? && Physical(s) ==> h.value >= 0.0
  {
    var d := 2.0 * s.gravity * s.sinAngle + 2.0 * s.friction * s.gravity * s.cosAngle;
    assert d == -2.0 * AccelerationUp(s);
    if d == 0.0 then None
    else
      var h := s.initialVelocity * s.initialVelocity / d;
      assert h * d == s.initialVelocity * s.initialVelocity;
      Some(h)
  }

  /**
   * The launched block would pass the top of the plane. A zero denominator
   * makes the height infinite when the velocity is non-zero and NaN (which
   * compares false) when it is zero.
   */
  function WillFlyOff(s: Settings): (b: bool)
    ensures InitialHeight(s).Some? ==> (b <==> InitialHeight(s).value > s.length - s.blockSize)
    ensures InitialHeight(s).None? ==> (b <==> s.initialVelocity != 0.0)
    ensures s.initialVelocity == 0.0 ==> (b <==> AccelerationUp(s) != 0.0 && s.blockSize > s.length)
  {
    match InitialHeight(s)
    case Some(h) => h + s.blockSize > s.length
    case None => s.initialVelocity != 0.0
  }

  /** Twice the energy per unit mass left after falling `length` along the plane: the square of the rebound speed. */
  function BounceRadicand(s: Settings, length: real): real {
    2.0 * s.energy * s.gravity * length * s.sinAngle - 2.0 * s.friction * s.gravity * length * s.cosAngle
  }

  /**
   * Speed with which the block leaves the wall after falling from height
   * `length` (in plane units); `None` where Math.sqrt would give NaN.
   */
  function BounceVelocity(s: Settings, length: real, sqrt: Root): (v: Option<real>)
    ensures v.Some? ==> v.value >= 0.0
    ensures Physical(s) && length >= 0.0 && s.energy * s.sinAngle >= s.friction * s.cosAngle ==> v.Some?
  {
    var radicand := BounceRadicand(s, length);
    assert radicand == 2.0 * (s.gravity * length) * (s.energy * s.sinAngle - s.friction * s.cosAngle);
    assert Physical(s) && length >= 0.0 && s.energy * s.sinAngle >= s.friction * s.cosAngle ==> radicand >= 0.0 by {
      if Physical(s) && length >= 0.0 && s.energy * s.sinAngle >= s.friction * s.cosAngle {
        ProductNonNegative(s.gravity, length);
        ProductNonNegative(s.gravity * length, s.energy * s.sinAngle - s.friction * s.cosAngle);
      }
    }
    if radicand < 0.0 then None else Some(sqrt(radicand))
  }

  /**
   * Ratio of the height reached after a bounce to the height fallen from;
   * `None` when the denominator is zero.
   */
  function DistanceMultiplier(s: Settings): (m: Option<real>)
    ensures m.None? <==> s.sinAngle + s.friction * s.cosAngle == 0.0
    ensures m.Some? && Physical(s) && s.energy <= 1.0 ==> m.value <= 1.0
    ensures m.Some? && Physical(s) ==> (m.value >= 0.0 <==> s.energy * s.sinAngle >= s.friction * s.cosAngle)
  {
    var d := s.sinAngle + s.friction * s.cosAngle;
    if d == 0.0 then None
    else
      var n := s.energy * s.sinAngle - s.friction * s.cosAngle;
      var m := n / d;
      assert m * d == n;
      assert Physical(s) ==> d > 0.0 by {
        if Physical(s) {
          ProductNonNegative(s.friction, s.cosAngle);
        }
      }
      assert Physical(s) && s.energy <= 1.0 ==> n <= d by {
        if Physical(s) && s.energy <= 1.0 {
          ProductNonNegative(1.0 - s.energy, s.sinAngle);
          ProductNonNegative(s.friction, s.cosAngle);
        }
      }
      Some(m)
  }

  /**
   * The bounce is energy-consistent: with an exact root, a block launched up
   * the plane at BounceVelocity(s, h) against AccelerationUp(s) stops exactly at
   * h times DistanceMultiplier(s), the next apex the block records.
   */
  lemma ReboundReachesNextApex(s: Settings, h: real, sqrt: Root)
    requires DistanceMultiplier(s).Some? && BounceRadicand(s, h) >= 0.0
    requires ExactAt(sqrt, BounceRadicand(s, h))
    ensures BounceVelocity(s, h, sqrt).Some?
    ensures StopsAfter(BounceVelocity(s, h, sqrt).value, AccelerationUp(s), h * DistanceMultiplier(s).value)
  {
    var d := s.sinAngle + s.friction * s.cosAngle;
    var n := s.energy * s.sinAngle - s.friction * s.cosAngle;
    var m := DistanceMultiplier(s).value;
    assert m * d == n;
    assert -2.0 * AccelerationUp(s) == 2.0 * s.gravity * d;
    calc {
      -2.0 * AccelerationUp(s) * (h * m);
      2.0 * s.gravity * h * (m * d);
      2.0 * s.gravity * h * n;
      BounceRadicand(s, h);
    }
  }

  /**
   * One constant-acceleration segment. `start` is the origin of its clock
   * (the source reads the wall clock for it; here it is a parameter) and the
   * only field that changes: `Shift` moves it past a pause.
   */
  class Motion {
    var start: real
    const acceleration: real
    const initialPosition: real
    const initialVelocity: real
    const settings: Settings

    constructor (acceleration: real, initialPosition: real, initialVelocity: real, settings: Settings, now: real)
      ensures start == now
      ensures this.acceleration == acceleration && this.initialPosition == initialPosition
      ensures this.initialVelocity == initialVelocity && this.settings == settings
    {
      this.start := now;
      this.acceleration := acceleration;
      this.initialPosition := initialPosition;
      this.initialVelocity := initialVelocity;
      this.settings := settings;
    }

    /** Simulated seconds since the origin: wall-clock milliseconds times the speed factor. */
    function Elapsed(time: real): (tau: real)
      reads this
      ensures time == start || settings.timeSpeed == 0.0 ==> tau == 0.0
      ensures settings.timeSpeed >= 0.0 && time >= start ==> tau >= 0.0
    {
      var tau := (time - start) / 1000.0 * settings.timeSpeed;
      assert time == start ==> tau == 0.0 by {
        if time == start {
          assert (time - start) / 1000.0 == 0.0;
        }
      }
      assert settings.timeSpeed >= 0.0 && time >= start ==> tau >= 0.0 by {
        if settings.timeSpeed >= 0.0 && time >= start {
          ProductNonNegative((time - start) / 1000.0, settings.timeSpeed);
        }
      }
      tau
    }

    /** Velocity at `time`; it is the initial velocity until any simulated time has passed. */
    function VelocityAt(time: real): (v: real)
      reads this
      ensures Elapsed(time) == 0.0 ==> v == initialVelocity
      ensures acceleration == 0.0 ==> v == initialVelocity
    {
      initialVelocity + acceleration * Elapsed(time)
    }

    /** Position at `time`; it is the initial position until any simulated time has passed. */
    function PositionAt(time: real): (x: real)
      reads this
      ensures Elapsed(time) == 0.0 ==> x == initialPosition
      ensures acceleration == 0.0 && initialVelocity == 0.0 ==> x == initialPosition
    {
      var tau := Elapsed(time);
      initialPosition + initialVelocity * tau + acceleration / 2.0 * (tau * tau)
    }

    /** Moves the clock's origin by `delay`: the trajectory is the same, `delay` later. */
    method Shift(delay: real)
      modifies this
      ensures start == old(start) + delay
      ensures forall t :: old(Elapsed(t)) == Elapsed(t + delay)
      ensures forall t :: old(PositionAt(t)) == PositionAt(t + delay) && old(VelocityAt(t)) == VelocityAt(t + delay)
    {
      start := start + delay;
    }
  }

  /**
   * Between two samples the distance covered is the mean of the two
   * velocities times the simulated time between them.
   */
  lemma MeanVelocity(m: Motion, t1: real, t2: real)
    ensures m.PositionAt(t2) - m.PositionAt(t1)
            == (m.VelocityAt(t1) + m.VelocityAt(t2)) / 2.0 * (m.Elapsed(t2) - m.Elapsed(t1))
  {
    var a, v0 := m.acceleration, m.initialVelocity;
    var u, w := m.Elapsed(t1), m.Elapsed(t2);
    calc {
      (m.VelocityAt(t1) + m.VelocityAt(t2)) / 2.0 * (w - u);
      (2.0 * v0 + a * u + a * w) / 2.0 * (w - u);
      v0 * (w - u) + a / 2.0 * ((u + w) * (w - u));
      { assert (u + w) * (w - u) == w * w - u * u; }
      v0 * (w - u) + a / 2.0 * (w * w - u * u);
      m.PositionAt(t2) - m.PositionAt(t1);
    }
  }

  /**
   * A segment decelerating from a launch stops where the apex formula says:
   * when the velocity reaches zero, the distance covered d satisfies
   * v0 * v0 == -2 * a * d.
   */
  lemma StopsAtApex(m: Motion, t: real)
    requires m.acceleration != 0.0
    requires m.Elapsed(t) * m.acceleration == -m.initialVelocity
    ensures m.VelocityAt(t) == 0.0
    ensures StopsAfter(m.initialVelocity, m.acceleration, m.PositionAt(t) - m.initialPosition)
  {
    var a, v0, tau := m.acceleration, m.initialVelocity, m.Elapsed(t);
    calc {
      -2.0 * a * (m.PositionAt(t) - m.initialPosition);
      -2.0 * a * (v0 * tau + a / 2.0 * (tau * tau));
      -2.0 * v0 * (a * tau) - (a * tau) * (a * tau);
      2.0 * v0 * v0 - v0 * v0;
    }
  }
}
