/**
 * The integrated body (src/sim/asteroid/asteroid.js): private position,
 * velocity, mass and acceleration, advanced in place by one semi-implicit
 * Euler step. `THREE.Vector3` values become `Vec3` values, so the clones the
 * source takes of its force argument and returns from its getters are
 * implicit: a caller can never reach the fields through them.
 */
module Bodies {
  import opened Vectors

  /** What the four getters return at one moment. */
  datatype BodyState = BodyState(position: Vec3, velocity: Vec3, mass: real, acceleration: Vec3)

  /**
   * One `updateMovement(force, dt)` on a state: the velocity takes the
   * acceleration force/mass over dt, then the position moves by the NEW
   * velocity over dt. Mass and acceleration are untouched.
   */
  function Advance(s: BodyState, force: Vec3, dt: real): (r: BodyState)
    requires s.mass != 0.0
    ensures r.mass == s.mass && r.acceleration == s.acceleration
    ensures r.velocity == Add(s.velocity, Scale(Scale(force, 1.0 / s.mass), dt))
    ensures r.position == Add(s.position, Scale(r.velocity, dt))
  {
    var v := Add(s.velocity, Scale(Scale(force, 1.0 / s.mass), dt));
    s.(velocity := v, position := Add(s.position, Scale(v, dt)))
  }

  /** A zero time step leaves the state as it is. */
  lemma AdvanceZeroStep(s: BodyState, force: Vec3)
    requires s.mass != 0.0
    ensures Advance(s, force, 0.0) == s
  {
  }

  /** A zero force leaves the velocity as it is and moves the body at that velocity. */
  lemma AdvanceZeroForce(s: BodyState, dt: real)
    requires s.mass != 0.0
    ensures Advance(s, Zero, dt).velocity == s.velocity
    ensures Advance(s, Zero, dt).position == Add(s.position, Scale(s.velocity, dt))
  {
  }

  /**
   * Semi-implicit against explicit Euler: the position of a step differs
   * from the explicit-Euler position p + v·dt by exactly (F/m)·dt².
   */
  lemma AdvanceIsSemiImplicit(s: BodyState, force: Vec3, dt: real)
    requires s.mass != 0.0
    ensures Advance(s, force, dt).position
         == Add(Add(s.position, Scale(s.velocity, dt)), Scale(Scale(force, 1.0 / s.mass), dt * dt))
  {
    var a := Scale(force, 1.0 / s.mass);
    assert a.x * dt * dt == a.x * (dt * dt);
    assert a.y * dt * dt == a.y * (dt * dt);
    assert a.z * dt * dt == a.z * (dt * dt);
  }

  /** `n` force-free steps of `dt`. */
  function Coast(s: BodyState, dt: real, n: nat): (r: BodyState)
    requires s.mass != 0.0
    ensures r.mass == s.mass
    decreases n
  {
    if n == 0 then s else Coast(Advance(s, Zero, dt), dt, n - 1)
  }

  /** Without force the body moves in a straight line at constant velocity. */
  lemma {:induction false} CoastIsStraightLine(s: BodyState, dt: real, n: nat)
    requires s.mass != 0.0
    ensures Coast(s, dt, n).velocity == s.velocity
    ensures Coast(s, dt, n).position == Add(s.position, Scale(s.velocity, (n as real) * dt))
    decreases n
  {
    if n > 0 {
      var s1 := Advance(s, Zero, dt);
      AdvanceZeroForce(s, dt);
      CoastIsStraightLine(s1, dt, n - 1);
      assert Coast(s, dt, n) == Coast(s1, dt, n - 1);
      var k := ((n - 1) as real) * dt;
      assert dt + k == (n as real) * dt by {
        assert (n as real) == ((n - 1) as real) + 1.0;
      }
      ScaleDistributes(s.velocity, dt, k);
    }
  }

  class Asteroid {
    var position: Vec3
    var velocity: Vec3
    var mass: real
    var acceleration: Vec3

    /** The values `getPosition`, `getVelocity`, `getMass` and `getAcceleration` return. */
    function State(): BodyState
      reads this
    {
      BodyState(position, velocity, mass, acceleration)
    }

    /** `getPosition`: a copy of the position. */
    function GetPosition(): (p: Vec3)
      reads this
      ensures p == State().position
    {
      position
    }

    /** `getVelocity`: a copy of the velocity. */
    function GetVelocity(): (v: Vec3)
      reads this
      ensures v == State().velocity
    {
      velocity
    }

    /** `getMass`. */
    function GetMass(): (m: real)
      reads this
      ensures m == State().mass
    {
      mass
    }

    /** `getAcceleration`: a copy of the acceleration field. */
    function GetAcceleration(): (a: Vec3)
      reads this
      ensures a == State().acceleration
    {
      acceleration
    }

    /** `new Asteroid(vel, pos, mass)`: the acceleration starts at zero. */
    constructor (vel: Vec3, pos: Vec3, m: real)
      ensures State() == BodyState(pos, vel, m, Zero)
    {
      velocity := vel;
      position := pos;
      mass := m;
      acceleration := Zero;
    }

    /**
     * `updateMovement(F, delta)`: v += (F/m)·delta, then p += v·delta with
     * the updated v. No other field changes.
     */
    method UpdateMovement(force: Vec3, delta: real)
      requires mass != 0.0
      modifies this
      ensures State() == Advance(old(State()), force, delta)
      ensures mass == old(mass) && acceleration == old(acceleration)
    {
      var acc := Scale(Scale(force, 1.0 / mass), delta);
      velocity := Add(velocity, acc);
      position := Add(position, Scale(velocity, delta));
    }
  }
}
