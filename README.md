# Komet backend: simulation queue, integrator and close-approach matcher in Dafny

This project models the computational core of the Komet backend:

- **The simulation job queue** (`src/controllers/simulation.js`). It is modelled as the class `JobQueue.Scheduler`:
  - one worker and a FIFO queue of job ids;
  - a status table from id to job record;
  - the `isProcessing` flag, the running job's id and the `nextId` counter.
  - `Submit` validates a body, enqueues the job and dispatches at once, as the source does.
  - `DispatchOne` runs the queue head: QUEUED, then PROCESSING, then COMPLETED or ERROR.
  - `Query` looks a job up by its `parseInt`-ed id; `Respond` is the reply it gives. It writes the reply's fields into the stored record, because the source's reply aliases that record.
  - For a QUEUED job, that write puts the queue place under the record's `position` key, over the submitted coordinates. The queue holds the same record, so a later dispatch hands `main_sim` a number for the position and the body starts at the origin. `Submit` dispatches at once, so a queue that starts empty stays empty between handlers and no query can meet a QUEUED job. Only a job appended with `Push` and not yet dispatched can be overwritten.
  - `View` is the queue report.
  - `Drain` is the `setTimeout` re-dispatch, run as a loop until the queue is empty.
  - The simulation run is a parameter. It returns a result or the message of what it threw.
- **The integrator driver** (`src/sim/main_sim.js`). `Integrator.MainSim` is the `while` loop over a `Bodies.Asteroid` object:
  - it picks a time step by altitude band;
  - it logs a snapshot;
  - it checks impact, burn-up and break-up, in that order;
  - it applies the gravitational force and counts down 100000 iterations.
  - The loop is proved equal to the recursive specification `Integrator.Run`. The lemmas about `Run` state the shape of every run.
- **The body** (`src/sim/asteroid/asteroid.js`). `Bodies.Asteroid` is a class whose `UpdateMovement` advances it in place by one semi-implicit Euler step.
- **The snapshot** (`src/sim/log.js`). `SimLog.Log` is a pure, invertible scaling of the body state.
- **The close-approach matcher** (`src/controllers/processing_sim_data.js`):
  - the FNV-1a hash of UTF-16 code units (`Fnv`), and the fallback seed and longitude derived from it;
  - Meeus' date-to-Julian-Date conversion with exact integer floors (`JulianDate`);
  - the `V` vector helpers (`Vectors`);
  - `toKM` and `buildHypothetical`;
  - the sampling loop that keeps the first strictly smaller angular mismatch;
  - the likelihood arithmetic;
  - the loop over close approaches that produces one match per Earth record (`Matcher`).

Trigonometry, `Math.sqrt`, `Math.acos`, the Kepler propagation and the surface-point geometry are uninterpreted hooks (`Matcher.Numerics`). So are the five body queries that `main_sim` calls (`Integrator.Physics`). `Math.random()` is a sequence of draws in [0, 1) read through a cursor. Numbers are reals: floating-point rounding, NaN and Infinity are not modelled except where an `Option` stands for NaN.

## Model

| member | source | states |
|---|---|---|
| Vectors.Norm | src/controllers/processing_sim_data.js:44-47 | scaling the result back by the length gives the input; a zero-length vector is returned as it is (the `\|\| 1` guard) |
| Vectors.SubAddCancel | src/controllers/processing_sim_data.js:39-40 | `V.sub` undoes `V.add` and back |
| Vectors.CrossOrthogonal | src/controllers/processing_sim_data.js:48-52 | `V.cross(a, b)` is orthogonal to a and to b |
| Vectors.ScaleScale | src/controllers/processing_sim_data.js:41 | scaling twice scales by the product |
| Vectors.ScaleDistributes | src/controllers/processing_sim_data.js:39-41 | scaling distributes over a sum of factors |
| Bodies.Advance | src/sim/asteroid/asteroid.js:12-18 | v' = v + (F/m)·dt, then p' = p + v'·dt with the new velocity; mass and acceleration unchanged |
| Bodies.AdvanceZeroStep | src/sim/asteroid/asteroid.js:15-17 | a zero time step leaves the state unchanged |
| Bodies.AdvanceZeroForce | src/sim/asteroid/asteroid.js:15-17 | a zero force leaves the velocity unchanged and moves the body at it |
| Bodies.AdvanceIsSemiImplicit | src/sim/asteroid/asteroid.js:16-17 | the new position is the explicit-Euler position plus (F/m)·dt², i.e. semi-implicit Euler |
| Bodies.CoastIsStraightLine | src/sim/asteroid/asteroid.js:12-18 | n force-free steps keep the velocity and move the body by v·n·dt |
| Bodies.Asteroid.constructor | src/sim/asteroid/asteroid.js:6-11 | the body holds the given velocity, position and mass, and a zero acceleration |
| Bodies.Asteroid.UpdateMovement | src/sim/asteroid/asteroid.js:12-18 | the new state is `Advance` of the old one; mass and acceleration never change |
| Bodies.Asteroid.GetPosition | src/sim/asteroid/asteroid.js:20-22 | returns the position as a value, so a caller cannot change the body through it |
| Bodies.Asteroid.GetVelocity | src/sim/asteroid/asteroid.js:24-26 | returns the velocity as a value |
| Bodies.Asteroid.GetMass | src/sim/asteroid/asteroid.js:28-30 | returns the mass |
| Bodies.Asteroid.GetAcceleration | src/sim/asteroid/asteroid.js:31-33 | returns the acceleration as a value |
| SimLog.Log | src/sim/log.js:5-11 | the snapshot carries the body mass unscaled |
| SimLog.LogRoundTrip | src/sim/log.js:6-10 | the 0.01 scaling loses nothing: the body state is recovered from the snapshot, and back |
| SimLog.LogOfZeroAcceleration | src/sim/log.js:9 | a body with zero acceleration, which every asteroid has, logs ax = ay = az = 0 |
| SimLog.Logs | src/sim/main_sim.js:50 | one snapshot per visited state, in order |
| Integrator.NextDt | src/sim/main_sim.js:41-47 | the step is 1 above height 10000, 0.25 above 1000, 0.0005 above 100, and the previous step otherwise |
| Integrator.NextDtMonotone | src/sim/main_sim.js:41-47 | inside the banded region a higher body never gets a smaller step |
| Integrator.NextDtStaysInBands | src/sim/main_sim.js:39-47 | one iteration keeps the step among 100, 1, 0.25 and 0.0005 |
| Integrator.RunStepsInBands | src/sim/main_sim.js:39-71 | starting from 100, every step a run uses is 100, 1, 0.25 or 0.0005, so it is positive and at most 100 |
| Integrator.SimulatedTimeBounded | src/sim/main_sim.js:37-71 | the simulated time of a whole run, the sum of its steps, lies between 0 and 100 · 100000: the iteration cap bounds it |
| Integrator.Verdict | src/sim/main_sim.js:51-66 | impact, burn-up and break-up are checked in that order, and a later one counts only when the earlier ones did not fire |
| Integrator.RunShape | src/sim/main_sim.js:40-71 | a run takes at most the budget and all of it when it does not converge; it converges exactly when the last logged state fires a check and no earlier one does; each state is the gravitational step of the previous one with that iteration's step; the mass never changes |
| Integrator.RunKeepsAcceleration | src/sim/main_sim.js:67-69 | every logged state keeps the starting acceleration |
| Integrator.RunStep | src/sim/main_sim.js:40-71 | one iteration: log the visit, then stop with the verdict or continue from the advanced state |
| Integrator.SimulateLogLength | src/sim/main_sim.js:37-76 | the log holds between 1 and 100000 snapshots, exactly 100000 when `converge` is false; `converge` holds exactly when the last logged state fired a terminal check |
| Integrator.SimulateSnapshots | src/sim/main_sim.js:29-36 | the first snapshot is the input body with its position scaled by 0.1; every snapshot carries the input mass and zero acceleration |
| Integrator.Simulation.constructor | src/sim/main_sim.js:8-12 | the holder keeps the initial velocity, position and mass |
| Integrator.Simulation.CreateAsteroid | src/sim/main_sim.js:19-21 | a fresh body from the arguments, with zero acceleration |
| Integrator.MainSim | src/sim/main_sim.js:25-77 | the driver loop's `converge` and `logData` are exactly those of the specification `Simulate` |
| JsParseInt.TrimStart | src/controllers/simulation.js:161 | drops exactly the leading white space |
| JsParseInt.DigitPrefix | src/controllers/simulation.js:161 | the longest prefix of digits of the radix |
| JsParseInt.ParseInt | src/controllers/simulation.js:161 | NaN exactly when no digit of the selected base follows the blanks, the sign and a `0x` prefix; blank text is NaN; the value is negative only after a leading minus and never positive after it |
| JsParseInt.ParseIntOfDecimal | src/controllers/simulation.js:161-166 | `parseInt` reads back the decimal text of every integer, negative ones included |
| JsParseInt.ParseIntNeedsADigit | src/controllers/simulation.js:161-166 | text without a decimal digit is NaN, which is rejected |
| JobQueue.StatusCode | src/controllers/simulation.js:11-16 | QUEUED, PROCESSING, COMPLETED and ERROR are 0, 1, 2 and 3, one to one |
| JobQueue.Validate | src/controllers/simulation.js:88-109 | a missing field gives the missing-parameters error, otherwise a NaN field gives the invalid-numbers error; it succeeds exactly when all seven fields are numbers, with velocity, position and mass taken from them |
| JobQueue.Finish | src/controllers/simulation.js:45-69 | the finished record is rebuilt from the queued record: COMPLETED with `converge` and `logData`, or ERROR with the message |
| JobQueue.FindIndex | src/controllers/simulation.js:186 | the first index holding the id, or -1 exactly when it is absent |
| JobQueue.Annotate | src/controllers/simulation.js:178-206 | a query keeps the job's status, velocity and mass and writes its message; for a QUEUED job it replaces the `position` key with the 1-based queue place, and for any other status it leaves the parameters as they are |
| JobQueue.QueryMovesQueuedJobToOrigin | src/controllers/simulation.js:184-186 | after a query of a QUEUED job, its dispatch runs `main_sim` from the origin with the submitted velocity and mass, since the position key holds a number |
| JobQueue.SubmittedJobRunsFromItsCoordinates | src/controllers/simulation.js:45-49 | a job whose position key still holds coordinates runs from exactly those coordinates |
| JobQueue.QueuedPosition | src/controllers/simulation.js:183-186 | a queued job is reported at its 1-based place in the queue |
| JobQueue.AsWrittenEveryJobFails | src/controllers/simulation.js:60-69 | with `main_sim` as written, every dispatched job ends in ERROR |
| JobQueue.DequeueKeepsConsistent | src/controllers/simulation.js:22-72 | taking the head off and storing its finished record keeps the queue and the table in agreement |
| JobQueue.EnqueueKeepsConsistent | src/controllers/simulation.js:112-124 | appending a QUEUED job with the next id keeps them in agreement, ids increasing along the queue |
| JobQueue.AnnotateKeepsConsistent | src/controllers/simulation.js:178-206 | a query's write-back keeps them in agreement |
| JobQueue.RunAllEffect | src/controllers/simulation.js:21-77 | running the queue finishes each queued job from its stored record and leaves every other record and the set of ids unchanged |
| JobQueue.Scheduler.constructor | src/controllers/simulation.js:4-8 | empty queue and table, idle worker, next id 1 |
| JobQueue.Scheduler.DispatchOne | src/controllers/simulation.js:21-77 | nothing happens on an empty queue; otherwise the head leaves the queue (FIFO) and its record becomes `Finish` of the queued record and the run's outcome; the worker ends idle and the ids are untouched |
| JobQueue.Scheduler.Drain | src/controllers/simulation.js:75 | the jobs run in queue order until the queue is empty; each queued job is finished from its stored record and nothing else changes |
| JobQueue.Scheduler.Push | src/controllers/simulation.js:112-124 | the next id is handed out, stored as QUEUED and appended at the tail |
| JobQueue.Scheduler.Submit | src/controllers/simulation.js:86-138 | a rejected body changes nothing and consumes no id; an accepted one gets the next id, is queued and the dispatcher runs it at once; the reply says QUEUED with the queue length after that dispatch, so a queue that was empty is empty again |
| JobQueue.Respond | src/controllers/simulation.js:152-209 | a missing or empty id and a non-numeric id are rejected with their messages, an unknown id is not found, and a known one comes back annotated for its status, keeping its id and status |
| JobQueue.Scheduler.Query | src/controllers/simulation.js:152-209 | the reply is `Respond`'s; a found job's annotated object replaces the stored one (a QUEUED job losing its coordinates to its queue place), everything else is unchanged, and no status changes |
| JobQueue.Scheduler.View | src/controllers/simulation.js:223-234 | the queued ids in order with status code 0, an idle worker, and the number of jobs ever accepted |
| Fnv.CharUnits | src/controllers/processing_sim_data.js:367-368 | a character is one code unit below U+10000, otherwise a surrogate pair that decodes back to it |
| Fnv.Utf16 | src/controllers/processing_sim_data.js:367 | a string has between one and two code units per character |
| Fnv.Utf16OfBmp | src/controllers/processing_sim_data.js:367-368 | a string of characters below U+10000 is its own code units |
| Fnv.HashString | src/controllers/processing_sim_data.js:365-372 | the loop computes FNV-1a of the code units; the result is below 2^32 and the empty string hashes to 2166136261 |
| Fnv.TestVectorA | src/controllers/processing_sim_data.js:365-372 | the FNV-1a test vector for "a" is 0xE40C292C |
| Fnv.Fnv1aAppend | src/controllers/processing_sim_data.js:367-370 | hashing a concatenation continues from the state the first part leaves |
| Fnv.Seed | src/controllers/processing_sim_data.js:295 | the seed lies in [0, 359] and is the hash modulo 360 |
| Fnv.FallbackLongitude | src/controllers/processing_sim_data.js:295-296 | the fallback longitude lies in [-180, 179] and is the hash shifted by 180, modulo 360 |
| JulianDate.DateToJD | src/controllers/processing_sim_data.js:78-86 | the Julian Date is always an integer plus 0.5 (00:00 UTC) |
| JulianDate.NextDayInMonth | src/controllers/processing_sim_data.js:84 | k more days in the same month give exactly k more |
| JulianDate.YearDaysSplit | src/controllers/processing_sim_data.js:84 | floor(365.25·n) is 365 days a year plus one every fourth year |
| JulianDate.YearDaysStep | src/controllers/processing_sim_data.js:84 | floor(365.25·(y + 4716)) grows by 366 into a year divisible by four and by 365 otherwise |
| JulianDate.CorrectionStep | src/controllers/processing_sim_data.js:82-83 | the Gregorian term 2 − A + ⌊A/4⌋ drops by one into a century year not divisible by 400, and is unchanged otherwise |
| JulianDate.YearLength | src/controllers/processing_sim_data.js:82-84 | a shifted year has 366 days exactly when it ends in a Gregorian leap February |
| JulianDate.MonthStep | src/controllers/processing_sim_data.js:84 | the floored 30.6001 steps give each shifted month its calendar length |
| JulianDate.DateToJDIsDayNumber | src/controllers/processing_sim_data.js:84 | the Julian Date is the integer day count less 1524.5 |
| JulianDate.NextDayNumber | src/controllers/processing_sim_data.js:80-84 | the integer day count of the next calendar day is one more |
| JulianDate.NextDayIsOneLater | src/controllers/processing_sim_data.js:78-86 | the next calendar day is exactly one Julian day later, across month and year ends and leap years |
| JulianDate.Anchors | src/controllers/processing_sim_data.js:78-86 | 2000-01-01 is JD 2451544.5 and 1858-11-17 is JD 2400000.5 |
| Matcher.Resolve | src/controllers/processing_sim_data.js:24-29 | a missing or zero option takes its default (1000 samples, 2000000 km, 3000 kg/m³, factor 1) and any other value given is used as it is |
| Matcher.ToKMInverse | src/controllers/processing_sim_data.js:145-150 | the AU-to-km conversion is undone by the inverse scaling: nothing is lost |
| Matcher.ToKMSub | src/controllers/processing_sim_data.js:278-282 | the difference of converted states is the converted difference |
| Matcher.Clamp | src/controllers/processing_sim_data.js:56 | the cosine is clamped into [-1, 1] and left alone inside it |
| Matcher.EstimateMassKg | src/controllers/processing_sim_data.js:176-181 | no mass exactly for a zero diameter |
| Matcher.MassScalesWithVolume | src/controllers/processing_sim_data.js:176-181 | a positive diameter gives a positive mass, doubling the diameter multiplies the mass by eight, and a 2 m body weighs 4/3·π times the density |
| Matcher.KineticEnergy | src/controllers/processing_sim_data.js:183-187 | no energy exactly for a zero mass; a body at rest carries zero energy |
| Matcher.KineticEnergyQuadruples | src/controllers/processing_sim_data.js:183-187 | a positive mass carries non-negative energy; twice the speed carries four times the energy and twice the mass twice the energy; at 1 km/s the energy is 500000·m joules, as ½·m·v² with the km/s-to-m/s conversion gives |
| Matcher.BuildHypothetical | src/controllers/processing_sim_data.js:190-203 | the impact point and incoming direction come from the geometry hooks; the mass is `estimateMassKg` of the diameter exactly when the diameter is non-zero, and absent otherwise; the energy is `kineticEnergyJoules` of that mass and the speed when the mass is non-zero, and absent otherwise; the diameter is carried through |
| Matcher.BackpropagationReachesImpact | src/controllers/processing_sim_data.js:192-195 | start position + incoming·backprop = impact position; start velocity = impact velocity = incoming·speed |
| Matcher.StraightLineCollision | src/controllers/processing_sim_data.js:189-195 | moving at the start velocity for backprop/speed seconds reaches the impact point |
| Matcher.RandomInRangeBounds | src/controllers/processing_sim_data.js:227 | a draw in [0, 1) lands in [a, b) |
| Matcher.RelSpeed | src/controllers/processing_sim_data.js:208 | the speed is never zero: the length of the relative velocity, or the default |
| Matcher.SampleRanges | src/controllers/processing_sim_data.js:213-216 | every sample has latitude in [-80, 80), longitude in [-180, 180), angle in [0, 60) and azimuth in [0, 360) |
| Matcher.BestUpTo | src/controllers/processing_sim_data.js:211-224 | there is a best exactly when at least one sample was taken |
| Matcher.BestUpToIsFirstMinimum | src/controllers/processing_sim_data.js:211-224 | the kept candidate is the first sample with the smallest mismatch: none is smaller and every earlier one is strictly larger |
| Matcher.SampleLoop | src/controllers/processing_sim_data.js:211-224 | the loop keeps the first minimum of the sampled mismatches, and keeps nothing when no sample is taken |
| Matcher.BestMatchOf | src/controllers/processing_sim_data.js:206-225 | there is no match exactly when the sample count is not positive |
| Matcher.BestMatchIsFirstMinimum | src/controllers/processing_sim_data.js:206-225 | the match is the first of the samples drawn from the cursor with the smallest angle to the wanted direction, and carries that sample |
| Matcher.FindBestMatch | src/controllers/processing_sim_data.js:206-225 | `findBestMatchForCloseApproach` computes the specification `BestMatchOf` |
| Matcher.ClampPct | src/controllers/processing_sim_data.js:320-322 | the likelihood is clamped into [0, 95]: left alone inside it, 0 below and 95 above |
| Matcher.ClampPctMonotone | src/controllers/processing_sim_data.js:320-322 | the clamp is monotone |
| Matcher.AnglePenalty | src/controllers/processing_sim_data.js:317 | 0.9 points per degree up to 60 degrees, then a flat 54; never negative for a non-negative mismatch |
| Matcher.MissPenalty | src/controllers/processing_sim_data.js:318 | one point per million km up to 10; a zero or NaN distance, or one of 10^7 km or more, costs the full 10 |
| Matcher.Score | src/controllers/processing_sim_data.js:319-322 | 100 less the factor times the summed penalties when that lies in [0, 95], 95 above and 0 below; the speed penalty is 0 |
| Matcher.Likelihood | src/controllers/processing_sim_data.js:317-322 | the likelihood lies in [0, 95] and is `Score` of the angle penalty and the miss penalty |
| Matcher.LikelihoodValue | src/controllers/processing_sim_data.js:317-322 | the likelihood is 100 less the factor times the angle and miss penalties when that lies in [0, 95], and the nearer end otherwise |
| Matcher.LikelihoodAntitone | src/controllers/processing_sim_data.js:317-322 | with a non-negative factor a larger mismatch never raises the likelihood |
| Matcher.LikelihoodCapsMismatch | src/controllers/processing_sim_data.js:317 | all mismatches of 60 degrees or more score the same |
| Matcher.RoundHalfUp | src/controllers/processing_sim_data.js:325 | `Math.round` gives the nearest integer, with halves rounded up |
| Matcher.ConservativeBound | src/controllers/processing_sim_data.js:325 | the bound is at least 1 and at most round(0.7·95) = 67; it is 70% of the likelihood, rounded, whenever that is above 1, and 1 otherwise |
| Matcher.MissDistanceKm | src/controllers/processing_sim_data.js:267 | the km field when truthy, else the plain field when truthy, else 0; NaN only from a given field that is not a number |
| Matcher.ApiSpeed | src/controllers/processing_sim_data.js:268 | the km/s field when truthy; else the km/h field converted, so 3600 times the result gives it back; null when neither is given |
| Matcher.Propagated | src/controllers/processing_sim_data.js:274-284 | the heliocentric state is the propagated state converted to km and km/s, and the relative state is that less Earth's |
| Matcher.Fallback | src/controllers/processing_sim_data.js:292-302 | the fallback moves along the incoming line at the hashed longitude, toward Earth at the reported speed or 20 km/s, placed at the miss distance or 10^6 km |
| Matcher.FallbackText | src/controllers/processing_sim_data.js:295 | the date is hashed when present; otherwise a fresh draw's text is hashed and the cursor advances |
| Matcher.NumberOrZero | src/controllers/processing_sim_data.js:239 | a falsy field counts as 0; a given one is what `Number` makes of it |
| Matcher.MeanDiameter | src/controllers/processing_sim_data.js:238-239 | the mean of the two estimates when both are numbers and the mean is not 0; null exactly when a field is NaN or the mean is 0, so never 0 |
| Matcher.MeanDiameterBetween | src/controllers/processing_sim_data.js:239 | the mean diameter lies between the minimum and maximum estimates |
| Matcher.BuildMatch | src/controllers/processing_sim_data.js:306-361 | the match keeps the record's date, orbiting body and miss distance, the relative state, the best candidate, its speed and angular mismatch and the backprop distance; its likelihood is `Likelihood` of the mismatch, the miss distance and the factor, and its bound `ConservativeBound` of that likelihood, so in [0, 95] and [1, 67] |
| Matcher.OrNull | src/controllers/processing_sim_data.js:231-232 | `x \|\| null` keeps exactly the non-empty texts |
| Matcher.StepRecord | src/controllers/processing_sim_data.js:263-361 | an Earth record gives a match with its date, a likelihood in [0, 95] and a bound in [1, 67], and fails exactly when no sample is drawn |
| Matcher.StepRecordUnfold | src/controllers/processing_sim_data.js:274-306 | a record's match is built from its relative state and the best match sampled after it |
| Matcher.EarthRecords | src/controllers/processing_sim_data.js:264 | keeps only Earth records and every one of them; a single record is kept exactly when it is an Earth record |
| Matcher.EarthRecordsAppend | src/controllers/processing_sim_data.js:263-264 | the filter of a concatenation is the concatenation of the filters, so the Earth records keep their input order |
| Matcher.MatchesShape | src/controllers/processing_sim_data.js:263-328 | one match per Earth record, in input order, each with a likelihood in [0, 95] and a bound in [1, 67]; the run throws exactly when there is an Earth record and no sample is drawn |
| Matcher.ProcessRecord | src/controllers/processing_sim_data.js:266-361 | the loop body computes the specification `StepRecord` |
| Matcher.ProcessingSimData | src/controllers/processing_sim_data.js:229-374 | the loop's output is exactly the specification `ProcessingSpec` |

## Left out

- HTTP shaping (`req`, `res`, status codes other than as reply values, the 500 handlers), the Express routes, the network adapters and `geo.js`: plumbing around the core, not computation.
- Timestamps (`queuedTime`, `startTime`, `completedTime`, `generatedAt`) and `console` output: environment effects with no bearing on the states modelled.
- `setTimeout(processNextSimulation, 100)`: modelled by `JobQueue.Scheduler.Drain`, which runs the re-dispatches back to back; interleaving with other handlers during the 100 ms delays is not modelled.
- Matcher.StepRecord, Matcher.MatchesShape and Matcher.BuildMatch: the likelihood bound [0, 95] and the conservative bound [1, 67] hold only on the real-number path. With orbital elements that have a semi-major axis and a date that is empty or has fewer than three numeric parts, `dateToJD` returns NaN without throwing, the propagated relative velocity and every sampled angle are NaN, and the source outputs a NaN likelihood and bound. The model's Kepler hook always returns reals, so that path is not represented.
- Floating point: all numbers are reals. NaN is modelled only where the source tests for it (`Option`/`Field` values); rounding, overflow to Infinity and `toFixed` output formatting are not modelled.
- `Math.PI` is the decimal constant 3.141592653589793 as a real.
- Bodies.Asteroid.UpdateMovement: requires a non-zero mass; with mass 0 the source divides to Infinity or NaN, which reals cannot represent.
- Bodies.Advance: requires a non-zero mass, for the same reason.
- Integrator.Run: requires a non-zero mass, for the same reason.
- Integrator.MainSim: requires a non-zero mass, for the same reason.
- The body queries `heightAboveEarthSurface`, `impacted`, `applyMassLoss`, `breakUpInAtmosphere` and `getGravitationalForce` are uninterpreted (`Integrator.Physics`): the `Asteroid` class does not define them, so there is no formula to model. Any mass loss they would cause is therefore not modelled either.
- `solveKepler`, `stateFromElementsAtJD`, `latLonToECEF`, `incomingDirectionForSurfacePoint`, `Math.sqrt`, `Math.acos`, the `split("-").map(Number)` of a date and `Math.random().toString()` are uninterpreted hooks (`Matcher.Numerics`): they are transcendental or textual float operations.
- `Math.random()` is the function `rand` from draw index to [0, 1), read in the source's order; which values it yields is not modelled.
- A numeric `position` key starting the body at the origin (`JobQueue.StartPosition`) rests on the default arguments of the three.js `Vector3` constructor, which turn undefined components into 0; three.js is not part of this model.
- The sharing of `Vector3` objects between `main_sim`, the `Simulation` holder and the `Asteroid` is not modelled: vectors are values. In the source they hold the same velocity and position objects, and `updateMovement` changes them in place (`add` at src/sim/asteroid/asteroid.js:16-17), so the holder's initial vectors and `main_sim`'s locals move with the body; nothing reads them after src/sim/main_sim.js:36, so no result depends on it.
- Matcher.Resolve: the sample count is an integer; a fractional `samplesPerCloseApproach` (which the source's loop would round up) is not modelled.
- Strings are sequences of Unicode scalar values, so a JavaScript string holding a lone surrogate cannot be represented by `Fnv.CharUnits` and `Fnv.Utf16`; the dates hashed are ASCII text.
- JsParseInt.ParseInt: the value is the exact integer; the loss of precision of doubles beyond 2^53 is not modelled.
- The parsing of the submitted fields by `parseFloat` and of the API's numeric fields by `Number` is abstracted to "a number, or NaN" (`Field`, `NumField`); their text grammars are not modelled.

## Findings

| source | as written | input that shows it | evidently intended | confidence | as-written member | corrected member |
|---|---|---|---|---|---|---|
| src/sim/main_sim.js:41 | the loop calls `as.heightAboveEarthSurface()`, and later `impacted`, `applyMassLoss`, `breakUpInAtmosphere` and `getGravitationalForce`, none of which the `Asteroid` class (src/sim/asteroid/asteroid.js:3-34) defines, so the first call throws a TypeError and the job queue stores every job as ERROR | any accepted submission, e.g. vx=vy=vz=dx=dy=dz=mass=1 | the body answers these five queries and the loop runs to convergence or the iteration cap | high, not executed | JobQueue.AsWrittenEveryJobFails | Integrator.MainSim |
