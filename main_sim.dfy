/**
 * The integrator driver of src/sim/main_sim.js: pick a time step by altitude
 * band, log a snapshot, check impact, burn-up and break-up in that order,
 * otherwise apply the gravitational force and count down the budget of
 * 100000 iterations.
 *
 * The five body queries the loop makes (`heightAboveEarthSurface`,
 * `impacted`, `applyMassLoss`, `breakUpInAtmosphere`,
 * `getGravitationalForce`) are not defined by the `Asteroid` class, so they
 * enter the model as a `Physics` record of uninterpreted functions of the
 * body state. `MainSimAsWritten` records what the source does with the class
 * as it stands: the first of these calls throws.
 */
module Integrator {
  import opened Wrappers
  import opened Vectors
  import opened Bodies
  import opened SimLog

  /** The body queries the loop relies on, as functions of the body state. */
  datatype Physics = Physics(
    height: BodyState -> real,
    impacted: BodyState -> bool,
    burnsUp: (BodyState, real) -> bool,
    breaksUp: BodyState -> bool,
    gravity: BodyState -> Vec3)

  const MaxIterations: nat := 100000
  const InitialDt: real := 100.0
  const PositionScale: real := 0.1

  /**
   * The step chosen for height `h`, given the step of the previous
   * iteration: 1 above 10000, 0.25 above 1000, 0.0005 above 100, and the
   * previous step otherwise.
   */
  function NextDt(h: real, dt: real): (r: real)
    ensures h > 10000.0 ==> r == 1.0
    ensures 1000.0 < h <= 10000.0 ==> r == 0.25
    ensures 100.0 < h <= 1000.0 ==> r == 0.0005
    ensures h <= 100.0 ==> r == dt
  {
    if h > 10000.0 then 1.0
    else if h > 1000.0 then 0.25
    else if h > 100.0 then 0.0005
    else dt
  }

  /**
   * The banding is monotone: inside the banded region (above 100) a higher
   * body never gets a smaller step than a lower one.
   */
  lemma NextDtMonotone(h1: real, h2: real, dt1: real, dt2: real)
    requires 100.0 < h1 <= h2
    ensures NextDt(h1, dt1) <= NextDt(h2, dt2)
  {
  }

  /** One iteration keeps the step among 100 (the initial one), 1, 0.25 and 0.0005. */
  lemma NextDtStaysInBands(h: real, dt: real)
    requires dt in {InitialDt, 1.0, 0.25, 0.0005}
    ensures NextDt(h, dt) in {InitialDt, 1.0, 0.25, 0.0005}
    ensures 0.0 < NextDt(h, dt) <= InitialDt
  {
  }

  datatype Outcome = Impacted | BurnedUp | Exploded | NotConverged

  /** The state logged by one iteration, with the step chosen in it. */
  datatype Visit = Visit(state: BodyState, dt: real)

  datatype RunResult = RunResult(outcome: Outcome, visits: seq<Visit>)

  /** The terminal checks of one iteration, in the source's order. */
  function Verdict(p: Physics, v: Visit): (o: Outcome)
    ensures o == Impacted <==> p.impacted(v.state)
    ensures o == BurnedUp <==> !p.impacted(v.state) && p.burnsUp(v.state, v.dt)
    ensures o == Exploded <==> !p.impacted(v.state) && !p.burnsUp(v.state, v.dt) && p.breaksUp(v.state)
  {
    if p.impacted(v.state) then Impacted
    else if p.burnsUp(v.state, v.dt) then BurnedUp
    else if p.breaksUp(v.state) then Exploded
    else NotConverged
  }

  /** The loop from state `s`, previous step `dt` and `budget` iterations left. */
  function Run(p: Physics, s: BodyState, dt: real, budget: nat): RunResult
    requires s.mass != 0.0
    decreases budget
  {
    if budget == 0 then RunResult(NotConverged, [])
    else
      var v := Visit(s, NextDt(p.height(s), dt));
      var o := Verdict(p, v);
      if o != NotConverged then RunResult(o, [v])
      else
        var rest := Run(p, Advance(s, p.gravity(s), v.dt), v.dt, budget - 1);
        RunResult(rest.outcome, [v] + rest.visits)
  }

  function States(vs: seq<Visit>): (r: seq<BodyState>)
    ensures |r| == |vs|
    ensures forall i :: 0 <= i < |vs| ==> r[i] == vs[i].state
  {
    seq(|vs|, i requires 0 <= i < |vs| => vs[i].state)
  }

  /**
   * What a run looks like: at most `budget` iterations, all of them when it
   * does not converge; it converges exactly when the last logged state
   * fires a terminal check, and no earlier state fires one; each state is
   * the gravitational step of the previous one with that iteration's step;
   * the mass never changes.
   */
  lemma {:induction false} RunShape(p: Physics, s: BodyState, dt: real, budget: nat)
    requires s.mass != 0.0
    ensures var r := Run(p, s, dt, budget);
      && |r.visits| <= budget
      && (r.outcome == NotConverged ==> |r.visits| == budget)
      && (r.outcome != NotConverged ==> |r.visits| >= 1 && Verdict(p, r.visits[|r.visits| - 1]) == r.outcome)
      && (forall i :: 0 <= i < |r.visits| - 1 ==> Verdict(p, r.visits[i]) == NotConverged)
      && (r.outcome == NotConverged ==> forall i :: 0 <= i < |r.visits| ==> Verdict(p, r.visits[i]) == NotConverged)
      && (|r.visits| > 0 ==> r.visits[0] == Visit(s, NextDt(p.height(s), dt)))
      && (forall i :: 0 < i < |r.visits| ==>
            r.visits[i].state.mass != 0.0 &&
            r.visits[i].state == Advance(r.visits[i - 1].state, p.gravity(r.visits[i - 1].state), r.visits[i - 1].dt) &&
            r.visits[i].dt == NextDt(p.height(r.visits[i].state), r.visits[i - 1].dt))
      && (forall i :: 0 <= i < |r.visits| ==> r.visits[i].state.mass == s.mass)
    decreases budget
  {
    if budget > 0 {
      var v := Visit(s, NextDt(p.height(s), dt));
      if Verdict(p, v) == NotConverged {
        RunShape(p, Advance(s, p.gravity(s), v.dt), v.dt, budget - 1);
      }
    }
  }

  /** A run started from a state with zero acceleration logs zero acceleration throughout. */
  lemma {:induction false} RunKeepsAcceleration(p: Physics, s: BodyState, dt: real, budget: nat)
    requires s.mass != 0.0
    ensures forall v :: v in Run(p, s, dt, budget).visits ==> v.state.acceleration == s.acceleration
    decreases budget
  {
    if budget > 0 {
      var v := Visit(s, NextDt(p.height(s), dt));
      if Verdict(p, v) == NotConverged {
        RunKeepsAcceleration(p, Advance(s, p.gravity(s), v.dt), v.dt, budget - 1);
      }
    }
  }

  /**
   * Every step a run uses is one of 100, 1, 0.25 and 0.0005 when it starts
   * from one of them, so it is positive and at most 100.
   */
  lemma {:induction false} RunStepsInBands(p: Physics, s: BodyState, dt: real, budget: nat)
    requires s.mass != 0.0 && dt in {InitialDt, 1.0, 0.25, 0.0005}
    ensures forall v :: v in Run(p, s, dt, budget).visits ==>
      v.dt in {InitialDt, 1.0, 0.25, 0.0005} && 0.0 < v.dt <= InitialDt
    decreases budget
  {
    if budget > 0 {
      var v := Visit(s, NextDt(p.height(s), dt));
      NextDtStaysInBands(p.height(s), dt);
      if Verdict(p, v) == NotConverged {
        RunStepsInBands(p, Advance(s, p.gravity(s), v.dt), v.dt, budget - 1);
      }
    }
  }

  /** The simulated time the visits cover: the sum of their steps. */
  function Elapsed(vs: seq<Visit>): real
    decreases |vs|
  {
    if |vs| == 0 then 0.0 else vs[0].dt + Elapsed(vs[1..])
  }

  lemma {:induction false} ElapsedBound(vs: seq<Visit>)
    requires forall v :: v in vs ==> 0.0 < v.dt <= InitialDt
    ensures 0.0 <= Elapsed(vs) <= InitialDt * |vs| as real
    decreases |vs|
  {
    if |vs| > 0 {
      assert vs[0] in vs;
      assert forall v :: v in vs[1..] ==> v in vs;
      ElapsedBound(vs[1..]);
    }
  }

  /**
   * The simulated time of a whole `main_sim` run is positive for every
   * logged step and bounded by the iteration cap: at most 100 · 100000.
   */
  lemma SimulatedTimeBounded(p: Physics, velocity: Vec3, position: Vec3, mass: real)
    requires mass != 0.0
    ensures var run := Run(p, InitialState(velocity, position, mass), InitialDt, MaxIterations);
      0.0 <= Elapsed(run.visits) <= InitialDt * MaxIterations as real
  {
    var s := InitialState(velocity, position, mass);
    var run := Run(p, s, InitialDt, MaxIterations);
    RunStepsInBands(p, s, InitialDt, MaxIterations);
    RunShape(p, s, InitialDt, MaxIterations);
    ElapsedBound(run.visits);
  }

  /** The result `main_sim` returns. */
  datatype SimResult = SimResult(converge: bool, logData: seq<Snapshot>)

  /** A run's result as the job queue sees it: a result, or the message of what it threw. */
  type RunOutcome = Result<SimResult, string>

  /** The body `main_sim` builds: position scaled by 0.1, velocity and mass as given. */
  function InitialState(velocity: Vec3, position: Vec3, mass: real): BodyState {
    BodyState(Scale(position, PositionScale), velocity, mass, Zero)
  }

  /**
   * `main_sim(velocity, position, mass)` as a function: the log of the run
   * from the initial body, and whether it ended in a terminal state.
   */
  function Simulate(p: Physics, velocity: Vec3, position: Vec3, mass: real): SimResult
    requires mass != 0.0
  {
    var run := Run(p, InitialState(velocity, position, mass), InitialDt, MaxIterations);
    SimResult(run.outcome != NotConverged, Logs(States(run.visits)))
  }

  /**
   * The log of a run holds between 1 and 100000 snapshots, exactly 100000
   * when the run does not converge, and `converge` holds exactly when the
   * last logged state fired a terminal check.
   */
  lemma SimulateLogLength(p: Physics, velocity: Vec3, position: Vec3, mass: real)
    requires mass != 0.0
    ensures var r := Simulate(p, velocity, position, mass);
      && 1 <= |r.logData| <= MaxIterations
      && (!r.converge ==> |r.logData| == MaxIterations)
    ensures var run := Run(p, InitialState(velocity, position, mass), InitialDt, MaxIterations);
      Simulate(p, velocity, position, mass).converge <==> Verdict(p, run.visits[|run.visits| - 1]) != NotConverged
  {
    RunShape(p, InitialState(velocity, position, mass), InitialDt, MaxIterations);
  }

  /**
   * The first snapshot is the input body with its position scaled by 0.1;
   * every snapshot carries the input mass and zero acceleration.
   */
  lemma SimulateSnapshots(p: Physics, velocity: Vec3, position: Vec3, mass: real)
    requires mass != 0.0
    ensures var r := Simulate(p, velocity, position, mass);
      && |r.logData| >= 1
      && r.logData[0] == Log(BodyState(Scale(position, 0.1), velocity, mass, Zero))
      && forall i :: 0 <= i < |r.logData| ==>
           r.logData[i].mass == mass && r.logData[i].ax == 0.0 && r.logData[i].ay == 0.0 && r.logData[i].az == 0.0
  {
    var s := InitialState(velocity, position, mass);
    var run := Run(p, s, InitialDt, MaxIterations);
    RunShape(p, s, InitialDt, MaxIterations);
    RunKeepsAcceleration(p, s, InitialDt, MaxIterations);
    forall i | 0 <= i < |run.visits|
      ensures run.visits[i].state.mass == mass && run.visits[i].state.acceleration == Zero
    {
      assert run.visits[i] in run.visits;
    }
  }

  /** `main_sim` against the class as it stands: `heightAboveEarthSurface` is not a method of it. */
  function MainSimAsWritten(velocity: Vec3, position: Vec3, mass: real): RunOutcome {
    Failure("as.heightAboveEarthSurface is not a function")
  }

  /** The `Simulation` holder: it keeps the initial values and builds the body. */
  class Simulation {
    var velInit: Vec3
    var posInit: Vec3
    var mass: real

    constructor (v: Vec3, p: Vec3, m: real)
      ensures velInit == v && posInit == p && mass == m
    {
      velInit := v;
      posInit := p;
      mass := m;
    }

    /** `createAsteroid(v, p, m)`: uses its arguments, not the stored fields. */
    method CreateAsteroid(v: Vec3, p: Vec3, m: real) returns (a: Asteroid)
      ensures fresh(a) && a.State() == BodyState(p, v, m, Zero)
    {
      a := new Asteroid(v, p, m);
    }
  }

  /**
   * One iteration of `Run` behind the states already visited: the visit is
   * logged, then the run either stops with its verdict or goes on from the
   * advanced state.
   */
  lemma RunStep(p: Physics, visited: seq<Visit>, s: BodyState, dt: real, budget: nat)
    requires s.mass != 0.0 && budget > 0
    ensures var v := Visit(s, NextDt(p.height(s), dt));
      After(visited, Run(p, s, dt, budget)) ==
        if Verdict(p, v) != NotConverged then RunResult(Verdict(p, v), visited + [v])
        else After(visited + [v], Run(p, Advance(s, p.gravity(s), v.dt), v.dt, budget - 1))
  {
    var v := Visit(s, NextDt(p.height(s), dt));
    if Verdict(p, v) == NotConverged {
      AfterAfter(visited, [v], Run(p, Advance(s, p.gravity(s), v.dt), v.dt, budget - 1));
    }
  }

  /** An iteration whose checks fire ends the run with the visits so far and this one. */
  lemma StopStep(p: Physics, whole: RunResult, visited: seq<Visit>, s: BodyState, dt: real, budget: nat)
    requires s.mass != 0.0 && budget > 0
    requires whole == After(visited, Run(p, s, dt, budget))
    requires Verdict(p, Visit(s, NextDt(p.height(s), dt))) != NotConverged
    ensures whole.visits == visited + [Visit(s, NextDt(p.height(s), dt))] && whole.outcome != NotConverged
  {
    RunStep(p, visited, s, dt, budget);
  }

  /** An iteration whose checks do not fire continues the run from the advanced state. */
  lemma GoStep(p: Physics, whole: RunResult, visited: seq<Visit>, s: BodyState, dt: real, budget: nat, v: Visit, next: BodyState)
    requires s.mass != 0.0 && budget > 0
    requires whole == After(visited, Run(p, s, dt, budget))
    requires v == Visit(s, NextDt(p.height(s), dt)) && Verdict(p, v) == NotConverged
    requires next == Advance(s, p.gravity(s), v.dt)
    ensures next.mass != 0.0
    ensures whole == After(visited + [v], Run(p, next, v.dt, budget - 1))
  {
    RunStep(p, visited, s, dt, budget);
  }

  /** The rest of a run, preceded by the states already visited. */
  function After(visited: seq<Visit>, rest: RunResult): RunResult {
    RunResult(rest.outcome, visited + rest.visits)
  }

  lemma AfterAfter(a: seq<Visit>, b: seq<Visit>, r: RunResult)
    ensures After(a, After(b, r)) == After(a + b, r)
  {
    assert a + (b + r.visits) == (a + b) + r.visits;
  }

  lemma LogsSnoc(vs: seq<Visit>, v: Visit)
    ensures Logs(States(vs + [v])) == Logs(States(vs)) + [Log(v.state)]
  {
    assert States(vs + [v]) == States(vs) + [v.state];
  }

  /**
   * The driver loop, given the body queries: its result is `Simulate`'s,
   * so `converge` is set exactly when a terminal check fires.
   */
  method MainSim(p: Physics, velocity: Vec3, position: Vec3, mass: real) returns (converge: bool, logData: seq<Snapshot>)
    requires mass != 0.0
    ensures SimResult(converge, logData) == Simulate(p, velocity, position, mass)
  {
    converge := false;
    var pos := Scale(position, PositionScale);
    var sim := new Simulation(velocity, pos, mass);
    var body := sim.CreateAsteroid(velocity, pos, mass);
    var maxIter := MaxIterations;
    logData := [];
    var dt := InitialDt;
    ghost var rest := Run(p, body.State(), dt, maxIter);
    ghost var whole := rest;
    ghost var visited: seq<Visit> := [];
    assert whole == After(visited, rest);
    while maxIter > 0
      invariant body.mass == mass
      invariant rest == Run(p, body.State(), dt, maxIter)
      invariant whole == After(visited, rest)
      invariant logData == Logs(States(visited))
      invariant !converge
      decreases maxIter
    {
      ghost var cur := body.State();
      ghost var dt0 := dt;
      dt := NextDt(p.height(body.State()), dt);
      ghost var v := Visit(cur, dt);
      assert logData + [Log(body.State())] == Logs(States(visited + [v])) by {
        LogsSnoc(visited, v);
      }
      logData := logData + [Log(body.State())];
      assert Verdict(p, v) != NotConverged ==> whole.visits == visited + [v] && whole.outcome != NotConverged by {
        if Verdict(p, v) != NotConverged {
          StopStep(p, whole, visited, cur, dt0, maxIter);
        }
      }
      ghost var before := visited;
      visited := visited + [v];
      if p.impacted(body.State()) {
        converge := true;
        break;
      }
      if p.burnsUp(body.State(), dt) {
        converge := true;
        break;
      }
      if p.breaksUp(body.State()) {
        converge := true;
        break;
      }
      var force := p.gravity(body.State());
      body.UpdateMovement(force, dt);
      assert whole == After(visited, Run(p, body.State(), dt, maxIter - 1)) by {
        GoStep(p, whole, before, cur, dt0, maxIter, v, body.State());
      }
      maxIter := maxIter - 1;
      rest := Run(p, body.State(), dt, maxIter);
    }
    assert whole.visits == visited && (!converge ==> whole.outcome == NotConverged);
  }
}
