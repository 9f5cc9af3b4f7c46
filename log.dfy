/**
 * The per-step snapshot of src/sim/log.js: position, velocity and
 * acceleration scaled by 0.01, mass unscaled. The function only reads the
 * body through its copying getters, so it changes nothing, and it writes
 * no file (the `fs` import and the csv path are unused).
 */
module SimLog {
  import opened Vectors
  import opened Bodies

  datatype Snapshot = Snapshot(
    x: real, y: real, z: real,
    vx: real, vy: real, vz: real,
    mass: real,
    ax: real, ay: real, az: real)

  const LogScale: real := 0.01

  /** `log(asteroid)` applied to the values the asteroid's getters return. */
  function Log(b: BodyState): (r: Snapshot)
    ensures r.mass == b.mass
  {
    var p := Scale(b.position, LogScale);
    var v := Scale(b.velocity, LogScale);
    var a := Scale(b.acceleration, LogScale);
    Snapshot(p.x, p.y, p.z, v.x, v.y, v.z, b.mass, a.x, a.y, a.z)
  }

  /** Reads a snapshot back into body units (the inverse of the 0.01 scaling). */
  function Unlog(s: Snapshot): BodyState {
    BodyState(Vec3(s.x * 100.0, s.y * 100.0, s.z * 100.0),
              Vec3(s.vx * 100.0, s.vy * 100.0, s.vz * 100.0),
              s.mass,
              Vec3(s.ax * 100.0, s.ay * 100.0, s.az * 100.0))
  }

  /** A snapshot loses nothing: the body state is recovered from it, and back. */
  lemma LogRoundTrip(b: BodyState, s: Snapshot)
    ensures Unlog(Log(b)) == b
    ensures Log(Unlog(s)) == s
  {
  }

  /** A body whose acceleration field is zero (every `Asteroid`) logs zero ax, ay, az. */
  lemma LogOfZeroAcceleration(b: BodyState)
    requires b.acceleration == Zero
    ensures Log(b).ax == 0.0 && Log(b).ay == 0.0 && Log(b).az == 0.0
  {
  }

  /** The logs of a run, one snapshot per visited state, in order. */
  function Logs(states: seq<BodyState>): (r: seq<Snapshot>)
    ensures |r| == |states|
    ensures forall i :: 0 <= i < |states| ==> r[i] == Log(states[i])
  {
    seq(|states|, i requires 0 <= i < |states| => Log(states[i]))
  }
}
