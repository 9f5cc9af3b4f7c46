/**
 * `processingSimData` of src/controllers/processing_sim_data.js: for each
 * close approach to Earth, an Earth-relative velocity (from the orbital
 * elements when they can be propagated, otherwise from a hash of the date),
 * a best-matching hypothetical impact found by random sampling, and a
 * conservative likelihood.
 *
 * Trigonometry, the Kepler propagation, the date split and the text of
 * `Math.random()` are the `Numerics` hooks; the random draws are the
 * sequence `rand`, read from a cursor that every draw advances.
 */
module Matcher {
  import opened Wrappers
  import opened Vectors
  import opened Fnv
  import opened JulianDate

  /** A value in [0, 1), as `Math.random` returns. */
  type Unit = r: real | 0.0 <= r < 1.0

  const Pi: real := 3.141592653589793
  const EarthRadiusKm: real := 6371.0
  const DefaultSpeedKms: real := 20.0
  const AuKm: real := 149597870.7
  const DaySeconds: real := 86400.0
  const GaussianK: real := 0.01720209895
  const MuSun: real := GaussianK * GaussianK

  /** The orbital elements as the API gives them (text); only `semi_major_axis` is looked at here. */
  datatype OrbitalData = OrbitalData(
    semiMajorAxis: Option<string>, eccentricity: Option<string>, inclination: Option<string>,
    ascendingNodeLongitude: Option<string>, perihelionArgument: Option<string>,
    meanAnomaly: Option<string>, epochOsculation: Option<string>, meanMotion: Option<string>,
    orbitalPeriod: Option<string>)

  /**
   * A numeric input field: `Falsy` is what JavaScript treats as false
   * (absent, null, the empty string); `Given` holds what `Number` makes of
   * it, `None` being NaN.
   */
  datatype NumField = Falsy | Given(value: Option<real>)

  datatype CloseApproach = CloseApproach(
    date: Option<string>, orbitingBody: Option<string>,
    missDistanceKm: NumField, missDistance: NumField,
    relativeVelocityKps: NumField, relativeVelocityKph: NumField)

  datatype AsteroidData = AsteroidData(
    id: Option<string>, name: Option<string>,
    diameterMin: NumField, diameterMax: NumField,
    orbitalData: Option<OrbitalData>,
    closeApproaches: seq<CloseApproach>)

  /** The `opts` fields; `None` or zero means "use the default". */
  datatype Options = Options(
    samplesPerCloseApproach: Option<int>, backpropKm: Option<real>,
    densityKgM3: Option<real>, conservativeFactor: Option<real>)

  datatype Settings = Settings(samples: int, backpropKm: real, densityKgM3: real, conservativeFactor: real)

  /**
   * The helpers kept abstract: `Math.sqrt`, `latLonToECEF`,
   * `incomingDirectionForSurfacePoint`, `Math.acos`, the split of a date
   * into whole numbers (`None` when a part is not one), the Kepler
   * propagation to a Julian Date (`None`: a date the conversion cannot
   * read) giving heliocentric AU and AU/day, and the text of a random number.
   */
  datatype Numerics = Numerics(
    sqrt: real -> real,
    latLonToEcef: (real, real, real) -> Vec3,
    incomingDirection: (Vec3, real, real) -> Vec3,
    acos: real -> real,
    splitDate: string -> Option<(int, int, int)>,
    keplerState: (OrbitalData, Option<real>) -> (Vec3, Vec3),
    randomText: Unit -> string)

  /** JavaScript's `x || d` on a number that may be NaN (`None`). */
  function OrElse(x: Option<real>, d: real): real {
    if x.Some? && x.value != 0.0 then x.value else d
  }

  predicate Truthy(s: Option<string>) {
    s.Some? && s.value != ""
  }

  /** The `opts || default` lines at the top of `processingSimData`. */
  function Resolve(opts: Options): (st: Settings)
    ensures opts.samplesPerCloseApproach.None? || opts.samplesPerCloseApproach == Some(0) ==> st.samples == 1000
    ensures opts.samplesPerCloseApproach.Some? && opts.samplesPerCloseApproach.value != 0 ==> st.samples == opts.samplesPerCloseApproach.value
    ensures st.backpropKm != 0.0 && st.densityKgM3 != 0.0 && st.conservativeFactor != 0.0
    ensures opts.backpropKm.None? || opts.backpropKm == Some(0.0) ==> st.backpropKm == 2000000.0
    ensures opts.backpropKm.Some? && opts.backpropKm.value != 0.0 ==> st.backpropKm == opts.backpropKm.value
    ensures opts.densityKgM3.None? || opts.densityKgM3 == Some(0.0) ==> st.densityKgM3 == 3000.0
    ensures opts.densityKgM3.Some? && opts.densityKgM3.value != 0.0 ==> st.densityKgM3 == opts.densityKgM3.value
    ensures opts.conservativeFactor.None? || opts.conservativeFactor == Some(0.0) ==> st.conservativeFactor == 1.0
    ensures opts.conservativeFactor.Some? && opts.conservativeFactor.value != 0.0 ==> st.conservativeFactor == opts.conservativeFactor.value
  {
    Settings(
      if opts.samplesPerCloseApproach.Some? && opts.samplesPerCloseApproach.value != 0 then opts.samplesPerCloseApproach.value else 1000,
      OrElse(opts.backpropKm, 2000000.0),
      OrElse(opts.densityKgM3, 3000.0),
      OrElse(opts.conservativeFactor, 1.0))
  }

  /** `toKM`: AU to km and AU/day to km/s. */
  function ToKM(posAU: Vec3, velAUPerDay: Vec3): (Vec3, Vec3) {
    (Scale(posAU, AuKm), Vec3(velAUPerDay.x * AuKm / DaySeconds, velAUPerDay.y * AuKm / DaySeconds, velAUPerDay.z * AuKm / DaySeconds))
  }

  /** Dividing back by the AU (and multiplying by the day) recovers the input: nothing is lost. */
  lemma ToKMInverse(posAU: Vec3, velAUPerDay: Vec3)
    ensures Scale(ToKM(posAU, velAUPerDay).0, 1.0 / AuKm) == posAU
    ensures Scale(ToKM(posAU, velAUPerDay).1, DaySeconds / AuKm) == velAUPerDay
  {
  }

  /** The conversion is linear: a difference of converted states is the converted difference. */
  lemma ToKMSub(p: Vec3, v: Vec3, q: Vec3, w: Vec3)
    ensures ToKM(Sub(p, q), Sub(v, w)) == (Sub(ToKM(p, v).0, ToKM(q, w).0), Sub(ToKM(p, v).1, ToKM(q, w).1))
  {
  }

  /** `V.angleBetween` in degrees: the cosine is clamped into [-1, 1] before `acos`. */
  function Clamp(d: real): (c: real)
    ensures -1.0 <= c <= 1.0
    ensures -1.0 <= d <= 1.0 ==> c == d
    ensures d > 1.0 ==> c == 1.0
    ensures d < -1.0 ==> c == -1.0
  {
    if d > 1.0 then 1.0 else if d < -1.0 then -1.0 else d
  }

  function AngleBetweenDeg(num: Numerics, a: Vec3, b: Vec3): real {
    num.acos(Clamp(Dot(Norm(num.sqrt, a), Norm(num.sqrt, b)))) * 180.0 / Pi
  }

  /** `estimateMassKg`: the mass of a sphere of that diameter and density (`Math.pow(r, 3)` as `r * r * r`), or none for a zero diameter. */
  function EstimateMassKg(diameter: real, density: real): (m: Option<real>)
    ensures m.None? <==> diameter == 0.0
  {
    if diameter == 0.0 then None
    else
      var r := diameter / 2.0;
      Some((4.0 / 3.0) * Pi * (r * r * r) * density)
  }

  /**
   * A positive diameter and density give a positive mass, doubling the
   * diameter multiplies it by eight, and a 2 m body (radius 1) weighs
   * 4/3·π times the density: the sphere volume.
   */
  lemma MassScalesWithVolume(diameter: real, density: real)
    requires diameter != 0.0 && density > 0.0
    ensures diameter > 0.0 ==> EstimateMassKg(diameter, density).value > 0.0
    ensures EstimateMassKg(2.0, density) == Some((4.0 / 3.0) * Pi * density)
    ensures EstimateMassKg(2.0 * diameter, density).value == 8.0 * EstimateMassKg(diameter, density).value
  {
    var r := diameter / 2.0;
    var c := (4.0 / 3.0) * Pi;
    assert EstimateMassKg(diameter, density).value == c * (r * r * r) * density;
    if diameter > 0.0 {
      MulPositive(r, r);
      MulPositive(r * r, r);
      MulPositive(c, r * r * r);
      MulPositive(c * (r * r * r), density);
    }
    assert (2.0 * diameter) / 2.0 == 2.0 * r;
    assert (2.0 * r) * (2.0 * r) * (2.0 * r) == 8.0 * (r * r * r);
  }

  lemma MulPositive(x: real, y: real)
    requires x > 0.0 && y > 0.0
    ensures x * y > 0.0
  {
  }

  /** `kineticEnergyJoules`: none for a zero mass; the speed is in km/s, the energy in joules. */
  function KineticEnergy(massKg: real, speedKmS: real): (e: Option<real>)
    ensures e.None? <==> massKg == 0.0
    ensures massKg != 0.0 && speedKmS == 0.0 ==> e == Some(0.0)
  {
    if massKg == 0.0 then None
    else
      var v := speedKmS * 1000.0;
      Some(0.5 * massKg * v * v)
  }

  /**
   * A positive mass carries a non-negative energy; twice the speed carries
   * four times the energy, and twice the mass twice the energy; at 1 km/s
   * (1000 m/s) the energy is ½·m·1000² = 500000·m joules: ½·m·v².
   */
  lemma KineticEnergyQuadruples(massKg: real, speedKmS: real)
    requires massKg != 0.0
    ensures KineticEnergy(massKg, 1.0) == Some(500000.0 * massKg)
    ensures massKg > 0.0 ==> KineticEnergy(massKg, speedKmS).value >= 0.0
    ensures KineticEnergy(massKg, 2.0 * speedKmS).value == 4.0 * KineticEnergy(massKg, speedKmS).value
    ensures KineticEnergy(2.0 * massKg, speedKmS).value == 2.0 * KineticEnergy(massKg, speedKmS).value
  {
    var v := speedKmS * 1000.0;
    assert v * v >= 0.0;
    if massKg > 0.0 {
      ScaleMonotone(0.5 * massKg, 0.0, v * v);
      assert 0.5 * massKg * v * v == (0.5 * massKg) * (v * v);
    }
    assert (2.0 * speedKmS) * 1000.0 == 2.0 * v;
    assert 0.5 * massKg * (2.0 * v) * (2.0 * v) == 4.0 * (0.5 * massKg * v * v);
    assert 0.5 * (2.0 * massKg) * v * v == 2.0 * (0.5 * massKg * v * v);
  }

  datatype Hypothetical = Hypothetical(
    impactLatDeg: real, impactLonDeg: real, impactAngleDeg: real, azimuthDeg: real,
    impactPosKm: Vec3, incomingUnit: Vec3, impactVelocityKmps: Vec3,
    startPosKm: Vec3, startVelKmps: Vec3,
    diameterMetersMean: Option<real>, massKg: Option<real>, kineticEnergyJ: Option<real>)

  /** `buildHypothetical`: an impact point, the direction it is hit from, and a start point back along that line. */
  function BuildHypothetical(num: Numerics, lat: real, lon: real, angle: real, azimuth: real,
                             speedKmS: real, backpropKm: real, diameter: Option<real>, density: real): (h: Hypothetical)
    ensures h.impactPosKm == num.latLonToEcef(lat, lon, EarthRadiusKm)
    ensures h.incomingUnit == num.incomingDirection(h.impactPosKm, angle, azimuth)
    ensures h.massKg.Some? ==> diameter.Some? && h.massKg == EstimateMassKg(diameter.value, density)
    ensures diameter.Some? && diameter.value != 0.0 ==> h.massKg == EstimateMassKg(diameter.value, density)
    ensures diameter.None? || diameter == Some(0.0) ==> h.massKg.None?
    ensures h.kineticEnergyJ == (if h.massKg.Some? && h.massKg.value != 0.0 then KineticEnergy(h.massKg.value, speedKmS) else None)
    ensures h.diameterMetersMean == diameter
  {
    var impactPos := num.latLonToEcef(lat, lon, EarthRadiusKm);
    var incoming := num.incomingDirection(impactPos, angle, azimuth);
    var impactVel := Scale(incoming, speedKmS);
    var startPos := Sub(impactPos, Scale(incoming, backpropKm));
    var massKg := if diameter.Some? && diameter.value != 0.0 then EstimateMassKg(diameter.value, density) else None;
    var kej := if massKg.Some? && massKg.value != 0.0 then KineticEnergy(massKg.value, speedKmS) else None;
    Hypothetical(lat, lon, angle, azimuth, impactPos, incoming, impactVel, startPos, impactVel, diameter, massKg, kej)
  }

  /**
   * The start state lies on the impact line: backpropagation distance
   * along the incoming direction from the start reaches the impact point,
   * and the start velocity is the impact velocity, incoming times speed.
   */
  lemma BackpropagationReachesImpact(num: Numerics, lat: real, lon: real, angle: real, azimuth: real,
                                      speedKmS: real, backpropKm: real, diameter: Option<real>, density: real)
    ensures var h := BuildHypothetical(num, lat, lon, angle, azimuth, speedKmS, backpropKm, diameter, density);
      && Add(h.startPosKm, Scale(h.incomingUnit, backpropKm)) == h.impactPosKm
      && h.startVelKmps == h.impactVelocityKmps == Scale(h.incomingUnit, speedKmS)
  {
    var h := BuildHypothetical(num, lat, lon, angle, azimuth, speedKmS, backpropKm, diameter, density);
    SubAddCancel(h.impactPosKm, Scale(h.incomingUnit, backpropKm));
  }

  /** Moving at the start velocity for backprop/speed seconds hits the impact point: a straight-line collision. */
  lemma StraightLineCollision(num: Numerics, lat: real, lon: real, angle: real, azimuth: real,
                              speedKmS: real, backpropKm: real, diameter: Option<real>, density: real)
    requires speedKmS != 0.0
    ensures var h := BuildHypothetical(num, lat, lon, angle, azimuth, speedKmS, backpropKm, diameter, density);
      Add(h.startPosKm, Scale(h.startVelKmps, backpropKm / speedKmS)) == h.impactPosKm
  {
    var h := BuildHypothetical(num, lat, lon, angle, azimuth, speedKmS, backpropKm, diameter, density);
    BackpropagationReachesImpact(num, lat, lon, angle, azimuth, speedKmS, backpropKm, diameter, density);
    ScaleScale(h.incomingUnit, speedKmS, backpropKm / speedKmS);
    assert speedKmS * (backpropKm / speedKmS) == backpropKm;
  }

  /** A fraction below one of a positive width stays inside it. */
  lemma ProductBelow(u: real, w: real, p: real)
    requires 0.0 <= u < 1.0 && w > 0.0 && p == u * w
    ensures 0.0 <= p < w
  {
    MulNonNegative(u, w);
    MulPositive(1.0 - u, w);
    assert w - u * w == (1.0 - u) * w;
  }

  lemma MulNonNegative(x: real, y: real)
    requires x >= 0.0 && y >= 0.0
    ensures x * y >= 0.0
  {
  }

  lemma ScaleMonotone(f: real, x: real, y: real)
    requires f >= 0.0 && x <= y
    ensures f * x <= f * y
  {
    assert f * y - f * x == f * (y - x);
  }

  /** `randomInRange`: one draw stretched over [a, b). */
  function RandomInRange(a: real, b: real, u: Unit): real {
    a + u * (b - a)
  }

  /** A draw in [0, 1) lands in [a, b), at the same fraction of the way from a to b. */
  lemma RandomInRangeBounds(a: real, b: real, u: Unit)
    requires a < b
    ensures a <= RandomInRange(a, b, u) < b
  {
    ProductBelow(u, b - a, RandomInRange(a, b, u) - a);
  }

  /** The speed of the relative velocity, or the default for a zero one. */
  function RelSpeed(num: Numerics, relVel: Vec3): (s: real)
    ensures s != 0.0
    ensures Len(num.sqrt, relVel) != 0.0 ==> s == Len(num.sqrt, relVel)
  {
    OrElse(Some(Len(num.sqrt, relVel)), DefaultSpeedKms)
  }

  /** The direction from far away toward Earth: the relative velocity, normalised and reversed. */
  function DesiredIncoming(num: Numerics, relVel: Vec3): Vec3 {
    Scale(Norm(num.sqrt, relVel), -1.0)
  }

  /**
   * Sample k of a run whose draws start at the cursor: four draws for
   * latitude, longitude, impact angle and azimuth, and the candidate built from them.
   */
  function SampleAt(num: Numerics, st: Settings, rand: nat -> Unit, cursor: nat, relSpeed: real, diameter: Option<real>, k: nat): Hypothetical {
    var lat := RandomInRange(-80.0, 80.0, rand(cursor + 4 * k));
    var lon := RandomInRange(-180.0, 180.0, rand(cursor + 4 * k + 1));
    var angle := RandomInRange(0.0, 60.0, rand(cursor + 4 * k + 2));
    var az := RandomInRange(0.0, 360.0, rand(cursor + 4 * k + 3));
    BuildHypothetical(num, lat, lon, angle, az, relSpeed, st.backpropKm, diameter, st.densityKgM3)
  }

  /** Every sample lies in the ranges the sampler draws from. */
  lemma SampleRanges(num: Numerics, st: Settings, rand: nat -> Unit, cursor: nat, relSpeed: real, diameter: Option<real>, k: nat)
    ensures var h := SampleAt(num, st, rand, cursor, relSpeed, diameter, k);
      && -80.0 <= h.impactLatDeg < 80.0 && -180.0 <= h.impactLonDeg < 180.0
      && 0.0 <= h.impactAngleDeg < 60.0 && 0.0 <= h.azimuthDeg < 360.0
  {
    RandomInRangeBounds(-80.0, 80.0, rand(cursor + 4 * k));
    RandomInRangeBounds(-180.0, 180.0, rand(cursor + 4 * k + 1));
    RandomInRangeBounds(0.0, 60.0, rand(cursor + 4 * k + 2));
    RandomInRangeBounds(0.0, 360.0, rand(cursor + 4 * k + 3));
  }

  /** The mismatch of a candidate against the wanted incoming direction, in degrees. */
  function Mismatch(num: Numerics, desired: Vec3, cand: Hypothetical): real {
    AngleBetweenDeg(num, cand.incomingUnit, desired)
  }

  /** The best candidate so far: its mismatch, its index and the candidate. */
  datatype Best = Best(angleDeg: real, index: nat, cand: Hypothetical)

  /**
   * One run of the sampling loop: the number of samples, the candidate
   * drawn at each index, and how far a candidate is from the wanted direction.
   */
  datatype Sampler = Sampler(samples: int, draw: nat -> Hypothetical, mismatch: Hypothetical -> real)

  /** The number of samples the loop takes: none when the setting is not positive. */
  function Runs(sp: Sampler): nat {
    if sp.samples > 0 then sp.samples else 0
  }

  /**
   * The best of the first n samples, as the loop keeps it: a candidate
   * replaces the best only when its mismatch is strictly smaller.
   */
  function BestUpTo(sp: Sampler, n: nat): (b: Option<Best>)
    ensures b.None? <==> n == 0
  {
    if n == 0 then None
    else
      var prev := BestUpTo(sp, n - 1);
      var cand := sp.draw(n - 1);
      var ang := sp.mismatch(cand);
      if prev.None? || ang < prev.value.angleDeg then Some(Best(ang, n - 1, cand)) else prev
  }

  /**
   * The best of n samples is the first one with the smallest mismatch:
   * no sample has a smaller one and every earlier sample a larger one.
   */
  lemma {:induction false} BestUpToIsFirstMinimum(sp: Sampler, n: nat)
    requires n > 0
    ensures var b := BestUpTo(sp, n).value;
      && b.index < n && b.cand == sp.draw(b.index) && b.angleDeg == sp.mismatch(b.cand)
      && (forall k :: 0 <= k < n ==> b.angleDeg <= sp.mismatch(sp.draw(k)))
      && (forall k :: 0 <= k < b.index ==> sp.mismatch(sp.draw(k)) > b.angleDeg)
  {
    if n > 1 {
      BestUpToIsFirstMinimum(sp, n - 1);
    }
  }

  /** The loop of `findBestMatchForCloseApproach` over the samples. */
  method SampleLoop(sp: Sampler) returns (best: Option<Best>)
    ensures best == BestUpTo(sp, Runs(sp))
    ensures best.None? <==> sp.samples <= 0
    ensures best.Some? ==>
      && best.value.index < sp.samples
      && best.value.cand == sp.draw(best.value.index)
      && best.value.angleDeg == sp.mismatch(best.value.cand)
      && (forall k :: 0 <= k < sp.samples ==> best.value.angleDeg <= sp.mismatch(sp.draw(k)))
  {
    best := None;
    var s := 0;
    while s < sp.samples
      invariant 0 <= s && (s > 0 ==> s <= sp.samples)
      invariant best == BestUpTo(sp, s)
    {
      var cand := sp.draw(s);
      var angDeg := sp.mismatch(cand);
      if best.None? || angDeg < best.value.angleDeg {
        best := Some(Best(angDeg, s, cand));
      }
      s := s + 1;
    }
    assert s == Runs(sp);
    if s > 0 {
      BestUpToIsFirstMinimum(sp, s);
    }
  }

  /** The sampling run for one close approach: draws from the cursor on, matched against the reversed relative velocity. */
  function SamplerFor(num: Numerics, st: Settings, rand: nat -> Unit, cursor: nat, relVel: Vec3, diameter: Option<real>): Sampler {
    var relSpeed := RelSpeed(num, relVel);
    var desired := DesiredIncoming(num, relVel);
    Sampler(st.samples,
            (k: nat) => SampleAt(num, st, rand, cursor, relSpeed, diameter, k),
            cand => Mismatch(num, desired, cand))
  }

  /** What `findBestMatchForCloseApproach` returns. */
  datatype BestMatch = BestMatch(desiredIncoming: Vec3, relSpeed: real, bestAngleDeg: real, bestIndex: nat, bestCandidate: Hypothetical)

  /**
   * The outcome of the sampling: none when no sample is drawn (the source
   * then reads a field of `null` and throws), otherwise the best candidate.
   */
  function BestMatchOf(num: Numerics, st: Settings, rand: nat -> Unit, cursor: nat, relVel: Vec3, diameter: Option<real>): (r: Option<BestMatch>)
    ensures r.None? <==> st.samples <= 0
  {
    var sp := SamplerFor(num, st, rand, cursor, relVel, diameter);
    match BestUpTo(sp, Runs(sp))
    case None => None
    case Some(b) => Some(BestMatch(DesiredIncoming(num, relVel), RelSpeed(num, relVel), b.angleDeg, b.index, b.cand))
  }

  /**
   * The match found is the first of the samples drawn from the cursor on
   * with the smallest angle to the wanted direction.
   */
  lemma BestMatchIsFirstMinimum(num: Numerics, st: Settings, rand: nat -> Unit, cursor: nat, relVel: Vec3, diameter: Option<real>)
    requires st.samples > 0
    ensures var m := BestMatchOf(num, st, rand, cursor, relVel, diameter).value;
      var speed := RelSpeed(num, relVel);
      var desired := DesiredIncoming(num, relVel);
      && m.bestIndex < st.samples
      && m.bestCandidate == SampleAt(num, st, rand, cursor, speed, diameter, m.bestIndex)
      && m.bestAngleDeg == Mismatch(num, desired, m.bestCandidate)
      && (forall k: nat :: k < st.samples ==> m.bestAngleDeg <= Mismatch(num, desired, SampleAt(num, st, rand, cursor, speed, diameter, k)))
      && (forall k: nat :: k < m.bestIndex ==> Mismatch(num, desired, SampleAt(num, st, rand, cursor, speed, diameter, k)) > m.bestAngleDeg)
  {
    var sp := SamplerFor(num, st, rand, cursor, relVel, diameter);
    var speed := RelSpeed(num, relVel);
    var desired := DesiredIncoming(num, relVel);
    BestUpToIsFirstMinimum(sp, st.samples);
    var b := BestUpTo(sp, st.samples).value;
    assert BestMatchOf(num, st, rand, cursor, relVel, diameter).value == BestMatch(desired, speed, b.angleDeg, b.index, b.cand);
    forall k: nat
      ensures sp.mismatch(sp.draw(k)) == Mismatch(num, desired, SampleAt(num, st, rand, cursor, speed, diameter, k))
    {
    }
  }

  /**
   * `findBestMatchForCloseApproach`: the speed and wanted direction from
   * the relative velocity, then the sampling loop.
   */
  method FindBestMatch(num: Numerics, st: Settings, rand: nat -> Unit, cursor: nat, relVel: Vec3, diameter: Option<real>)
    returns (r: Option<BestMatch>)
    ensures r == BestMatchOf(num, st, rand, cursor, relVel, diameter)
  {
    var relSpeed := RelSpeed(num, relVel);
    var desired := DesiredIncoming(num, relVel);
    var best := SampleLoop(SamplerFor(num, st, rand, cursor, relVel, diameter));
    if best.None? {
      return None;
    }
    r := Some(BestMatch(desired, relSpeed, best.value.angleDeg, best.value.index, best.value.cand));
  }

  /** The angular penalty: 0.9 per degree of mismatch, up to 60 degrees. */
  function AnglePenalty(angMismatchDeg: real): (p: real)
    ensures p <= 54.0
    ensures 0.0 <= angMismatchDeg ==> 0.0 <= p
    ensures angMismatchDeg >= 60.0 ==> p == 54.0
    ensures angMismatchDeg <= 60.0 ==> p == angMismatchDeg * 0.9
  {
    (if angMismatchDeg < 60.0 then angMismatchDeg else 60.0) * 0.9
  }

  /**
   * The miss-distance penalty: up to 10 points, one per million km; a zero
   * or NaN distance counts as 10^7 km, the full penalty.
   */
  function MissPenalty(missKm: Option<real>): (p: real)
    ensures p <= 10.0
    ensures missKm.None? || missKm == Some(0.0) ==> p == 10.0
    ensures missKm.Some? && missKm.value >= 10000000.0 ==> p == 10.0
    ensures missKm.Some? && 0.0 < missKm.value <= 10000000.0 ==> 0.0 < p && p * 1000000.0 == missKm.value
  {
    var missRatio := OrElse(missKm, 10000000.0) / 10000000.0;
    (if missRatio < 1.0 then missRatio else 1.0) * 10.0
  }

  /** The final clamp: never below 0, never above 95. */
  function ClampPct(raw: real): (l: real)
    ensures 0.0 <= l <= 95.0
    ensures 0.0 <= raw <= 95.0 ==> l == raw
    ensures raw > 95.0 ==> l == 95.0
    ensures raw < 0.0 ==> l == 0.0
  {
    var l := if raw > 0.0 then raw else 0.0;
    if l < 95.0 then l else 95.0
  }

  lemma ClampPctMonotone(x: real, y: real)
    requires x <= y
    ensures ClampPct(x) <= ClampPct(y)
  {
  }

  /** `likelihoodPct`: 100 less the weighted penalties, clamped to [0, 95]. */
  function Likelihood(angMismatchDeg: real, missKm: Option<real>, factor: real): (l: real)
    ensures 0.0 <= l <= 95.0
    ensures l == Score(AnglePenalty(angMismatchDeg), MissPenalty(missKm), factor)
  {
    Score(AnglePenalty(angMismatchDeg), MissPenalty(missKm), factor)
  }

  /**
   * 100 less the factor times the penalties, clamped. The speed penalty,
   * min(|0|, 1)·30 since the candidate's speed is the actual speed, is 0
   * and so left out of the sum.
   */
  function Score(anglePenalty: real, missPenalty: real, factor: real): (l: real)
    ensures var raw := 100.0 - factor * (anglePenalty + missPenalty);
      && (0.0 <= raw <= 95.0 ==> l == raw)
      && (raw > 95.0 ==> l == 95.0)
      && (raw < 0.0 ==> l == 0.0)
  {
    ClampPct(100.0 - factor * (anglePenalty + missPenalty))
  }

  /**
   * The likelihood is 100 less the factor times the angle and miss
   * penalties when that lies in [0, 95], and the nearer end otherwise.
   */
  lemma LikelihoodValue(angMismatchDeg: real, missKm: Option<real>, factor: real)
    ensures var raw := 100.0 - factor * (AnglePenalty(angMismatchDeg) + MissPenalty(missKm));
      var l := Likelihood(angMismatchDeg, missKm, factor);
      && (0.0 <= raw <= 95.0 ==> l == raw)
      && (raw > 95.0 ==> l == 95.0)
      && (raw < 0.0 ==> l == 0.0)
  {
    var ap := AnglePenalty(angMismatchDeg);
    var mp := MissPenalty(missKm);
    assert Likelihood(angMismatchDeg, missKm, factor) == Score(ap, mp, factor);
  }

  /** With a non-negative factor a larger mismatch never raises the likelihood. */
  lemma LikelihoodAntitone(a: real, b: real, missKm: Option<real>, factor: real)
    requires a <= b && factor >= 0.0
    ensures Likelihood(b, missKm, factor) <= Likelihood(a, missKm, factor)
  {
    var m := MissPenalty(missKm);
    assert AnglePenalty(a) <= AnglePenalty(b);
    ScaleMonotone(factor, AnglePenalty(a) + m, AnglePenalty(b) + m);
    ClampPctMonotone(100.0 - factor * (AnglePenalty(b) + m), 100.0 - factor * (AnglePenalty(a) + m));
  }

  /** Every mismatch of 60 degrees or more scores the same: the angular penalty is capped. */
  lemma LikelihoodCapsMismatch(a: real, b: real, missKm: Option<real>, factor: real)
    requires 60.0 <= a && 60.0 <= b
    ensures Likelihood(a, missKm, factor) == Likelihood(b, missKm, factor)
  {
    assert AnglePenalty(a) == AnglePenalty(b);
  }

  /** `Math.round`: the nearest integer, halves rounded up. */
  function RoundHalfUp(x: real): (n: int)
    ensures n as real - 0.5 <= x < n as real + 0.5
  {
    (x + 0.5).Floor
  }

  /** `conservativeUpperBoundPct`: 70% of the likelihood, rounded, never below 1. */
  function ConservativeBound(likelihoodPct: real): (c: int)
    ensures c >= 1
    ensures likelihoodPct <= 95.0 ==> c <= 67
    ensures likelihoodPct >= 0.0 && c > 1 ==> c == RoundHalfUp(likelihoodPct * 0.7)
    ensures RoundHalfUp(likelihoodPct * 0.7) > 1 ==> c == RoundHalfUp(likelihoodPct * 0.7)
    ensures RoundHalfUp(likelihoodPct * 0.7) <= 1 ==> c == 1
  {
    var r := RoundHalfUp(likelihoodPct * 0.7);
    if r > 1 then r else 1
  }

  /** The Earth-relative state at the close approach, and where it came from. */
  datatype Relative = Relative(usedPropagation: bool, heliocentric: Option<(Vec3, Vec3)>, relPosKm: Vec3, relVelKms: Vec3)

  /** `miss_distance_km || miss_distance || 0` through `Number`. */
  function MissDistanceKm(ca: CloseApproach): (r: Option<real>)
    ensures ca.missDistanceKm.Given? ==> r == ca.missDistanceKm.value
    ensures ca.missDistanceKm.Falsy? && ca.missDistance.Given? ==> r == ca.missDistance.value
    ensures ca.missDistanceKm.Falsy? && ca.missDistance.Falsy? ==> r == Some(0.0)
    ensures r.None? ==> Given(None) in {ca.missDistanceKm, ca.missDistance}
  {
    match ca.missDistanceKm
    case Given(v) => v
    case Falsy =>
      match ca.missDistance
      case Given(v) => v
      case Falsy => Some(0.0)
  }

  /** `relSpeed_kps_fromAPI`: km/s, or km/h over 3600, or null (`None`, as NaN). */
  function ApiSpeed(ca: CloseApproach): (r: Option<real>)
    ensures ca.relativeVelocityKps.Given? ==> r == ca.relativeVelocityKps.value
    ensures ca.relativeVelocityKps.Falsy? && ca.relativeVelocityKph.Given? && ca.relativeVelocityKph.value.Some? ==>
      r.Some? && r.value * 3600.0 == ca.relativeVelocityKph.value.value
    ensures ca.relativeVelocityKps.Falsy? && ca.relativeVelocityKph.Falsy? ==> r.None?
  {
    match ca.relativeVelocityKps
    case Given(v) => v
    case Falsy =>
      match ca.relativeVelocityKph
      case Given(v) => if v.Some? then Some(v.value / 3600.0) else None
      case Falsy => None
  }

  /** The propagation path is tried when the elements have a semi-major axis; it throws when the date is missing. */
  predicate Propagates(elems: Option<OrbitalData>, ca: CloseApproach) {
    elems.Some? && Truthy(elems.value.semiMajorAxis) && ca.date.Some?
  }

  /** The Julian Date of a date string, when it splits into whole numbers. */
  function JulianOf(num: Numerics, date: string): Option<real> {
    match num.splitDate(date)
    case Some(ymd) => Some(DateToJD(ymd.0, ymd.1, ymd.2))
    case None => None
  }

  /** Earth at 1 AU on +X, moving on a circle along +Y. */
  function EarthState(num: Numerics): (Vec3, Vec3) {
    (Vec3(1.0, 0.0, 0.0), Vec3(0.0, num.sqrt(MuSun / 1.0), 0.0))
  }

  /** The propagation path: the asteroid's heliocentric state less Earth's, in km and km/s. */
  function Propagated(num: Numerics, elems: OrbitalData, date: string): (r: Relative)
    ensures r.usedPropagation
    ensures var au := num.keplerState(elems, JulianOf(num, date));
      r.heliocentric == Some(ToKM(au.0, au.1))
    ensures var au := num.keplerState(elems, JulianOf(num, date));
      (r.relPosKm, r.relVelKms) == ToKM(Sub(au.0, EarthState(num).0), Sub(au.1, EarthState(num).1))
  {
    var au := num.keplerState(elems, JulianOf(num, date));
    var ast := ToKM(au.0, au.1);
    var earth := ToKM(EarthState(num).0, EarthState(num).1);
    ToKMSub(au.0, au.1, EarthState(num).0, EarthState(num).1);
    Relative(true, Some(ast), Sub(ast.0, earth.0), Sub(ast.1, earth.1))
  }

  /**
   * The fallback path: a point on the equator at longitude `seed - 180`,
   * hit at 10 degrees with azimuth `seed`; the asteroid moves along the
   * incoming line toward Earth at the reported speed (or 20 km/s).
   */
  function Fallback(num: Numerics, ca: CloseApproach, hash: nat): (r: Relative)
    ensures !r.usedPropagation && r.heliocentric.None?
    ensures var incoming := num.incomingDirection(num.latLonToEcef(0.0, FallbackLongitude(hash) as real, EarthRadiusKm), 10.0, Seed(hash) as real);
      && r.relVelKms == Scale(incoming, -OrElse(ApiSpeed(ca), DefaultSpeedKms))
      && r.relPosKm == Scale(incoming, OrElse(MissDistanceKm(ca), 1000000.0))
  {
    var speed := OrElse(ApiSpeed(ca), DefaultSpeedKms);
    var seed := Seed(hash);
    var lon := seed - 180;
    var impactPos := num.latLonToEcef(0.0, lon as real, EarthRadiusKm);
    var incoming := num.incomingDirection(impactPos, 10.0, seed as real);
    Relative(false, None, Scale(incoming, OrElse(MissDistanceKm(ca), 1000000.0)), Scale(incoming, -speed))
  }

  /** One entry of `output.matches`. */
  datatype Match = Match(
    closeApproachDate: Option<string>, orbitingBody: Option<string>, missDistanceKm: Option<real>,
    relSpeedEstimate: real, relative: Relative,
    best: Hypothetical, backpropKm: real, kineticEnergyMegatons: Option<real>,
    angularMismatchDeg: real, speedDifferencePercent: real,
    likelihoodPercent: real, conservativeUpperBoundPercent: int)

  function BuildMatch(st: Settings, ca: CloseApproach, rel: Relative, found: BestMatch): (m: Match)
    ensures m.closeApproachDate == ca.date && m.relative == rel && m.best == found.bestCandidate
    ensures 0.0 <= m.likelihoodPercent <= 95.0 && 1 <= m.conservativeUpperBoundPercent <= 67
    ensures m.orbitingBody == ca.orbitingBody && m.missDistanceKm == MissDistanceKm(ca)
    ensures m.relSpeedEstimate == found.relSpeed && m.angularMismatchDeg == found.bestAngleDeg
    ensures m.backpropKm == st.backpropKm && m.speedDifferencePercent == 0.0
    ensures m.likelihoodPercent == Likelihood(found.bestAngleDeg, MissDistanceKm(ca), st.conservativeFactor)
    ensures m.conservativeUpperBoundPercent == ConservativeBound(m.likelihoodPercent)
  {
    var likelihood := Likelihood(found.bestAngleDeg, MissDistanceKm(ca), st.conservativeFactor);
    var kej := found.bestCandidate.kineticEnergyJ;
    Match(ca.date, ca.orbitingBody, MissDistanceKm(ca), found.relSpeed, rel,
          found.bestCandidate, st.backpropKm,
          if kej.Some? && kej.value != 0.0 then Some(kej.value / 4184000000000000.0) else None,
          found.bestAngleDeg, 0.0, likelihood, ConservativeBound(likelihood))
  }

  predicate IsEarth(ca: CloseApproach) {
    ca.orbitingBody == Some("Earth")
  }

  /** `Number(x || 0)`: a falsy field counts as 0; `None` is NaN. */
  function NumberOrZero(f: NumField): (r: Option<real>)
    ensures f.Falsy? ==> r == Some(0.0)
    ensures f.Given? ==> r == f.value
  {
    if f.Given? then f.value else Some(0.0)
  }

  /**
   * `(Number(min || 0) + Number(max || 0)) / 2 || null`: the mean when it
   * is a non-zero number; null when a field is NaN or the mean is 0.
   */
  function MeanDiameter(data: AsteroidData): (d: Option<real>)
    ensures d.Some? ==> d.value != 0.0
    ensures var lo := NumberOrZero(data.diameterMin); var hi := NumberOrZero(data.diameterMax);
      lo.Some? && hi.Some? && (lo.value + hi.value) / 2.0 != 0.0 ==> d == Some((lo.value + hi.value) / 2.0)
    ensures var lo := NumberOrZero(data.diameterMin); var hi := NumberOrZero(data.diameterMax);
      d.None? <==> lo.None? || hi.None? || (lo.value + hi.value) / 2.0 == 0.0
    ensures data.diameterMin.Falsy? && data.diameterMax.Falsy? ==> d.None?
  {
    var lo := NumberOrZero(data.diameterMin);
    var hi := NumberOrZero(data.diameterMax);
    if lo.Some? && hi.Some? && (lo.value + hi.value) / 2.0 != 0.0 then Some((lo.value + hi.value) / 2.0) else None
  }

  /** The mean diameter lies between the minimum and maximum estimates. */
  lemma MeanDiameterBetween(data: AsteroidData, lo: real, hi: real)
    requires data.diameterMin == Given(Some(lo)) && data.diameterMax == Given(Some(hi))
    requires lo <= hi && lo + hi != 0.0
    ensures MeanDiameter(data) == Some((lo + hi) / 2.0)
    ensures lo <= MeanDiameter(data).value <= hi
  {
  }

  const NullBestMessage := "Cannot read properties of null (reading 'angDeg')"

  /** The text the fallback hashes: the date, or the text of a fresh random number. */
  function FallbackText(num: Numerics, ca: CloseApproach, rand: nat -> Unit, cursor: nat): (r: (string, nat))
    ensures Truthy(ca.date) ==> r == (ca.date.value, cursor)
    ensures !Truthy(ca.date) ==> r == (num.randomText(rand(cursor)), cursor + 1)
  {
    if Truthy(ca.date) then (ca.date.value, cursor) else (num.randomText(rand(cursor)), cursor + 1)
  }

  /** The relative state of one Earth record and the cursor after it. */
  function RelativeOf(num: Numerics, data: AsteroidData, ca: CloseApproach, rand: nat -> Unit, cursor: nat): (Relative, nat) {
    if Propagates(data.orbitalData, ca) then (Propagated(num, data.orbitalData.value, ca.date.value), cursor)
    else
      var t := FallbackText(num, ca, rand, cursor);
      (Fallback(num, ca, Fnv1a(Utf16(t.0)) as nat), t.1)
  }

  /** What the output promises of the match built for one Earth record. */
  predicate MatchFor(m: Match, ca: CloseApproach) {
    && m.closeApproachDate == ca.date
    && m.orbitingBody == Some("Earth")
    && 0.0 <= m.likelihoodPercent <= 95.0
    && 1 <= m.conservativeUpperBoundPercent <= 67
  }

  /**
   * One Earth record: its relative state, the sampling, the match, and
   * the cursor after the draws; none when no sample is drawn.
   */
  function StepRecord(num: Numerics, st: Settings, data: AsteroidData, ca: CloseApproach, rand: nat -> Unit, cursor: nat): (r: Option<(Match, nat)>)
    requires IsEarth(ca)
    ensures r.None? <==> st.samples <= 0
    ensures r.Some? ==> MatchFor(r.value.0, ca)
  {
    var rc := RelativeOf(num, data, ca, rand, cursor);
    match BestMatchOf(num, st, rand, rc.1, rc.0.relVelKms, MeanDiameter(data))
    case None => None
    case Some(found) => Some((BuildMatch(st, ca, rc.0, found), rc.1 + 4 * st.samples))
  }

  lemma StepRecordUnfold(num: Numerics, st: Settings, data: AsteroidData, ca: CloseApproach, rand: nat -> Unit, cursor: nat,
                          rel: Relative, next: nat, found: Option<BestMatch>)
    requires IsEarth(ca)
    requires (rel, next) == RelativeOf(num, data, ca, rand, cursor)
    requires found == BestMatchOf(num, st, rand, next, rel.relVelKms, MeanDiameter(data))
    ensures found.None? ==> StepRecord(num, st, data, ca, rand, cursor).None?
    ensures found.Some? ==> StepRecord(num, st, data, ca, rand, cursor) == Some((BuildMatch(st, ca, rel, found.value), next + 4 * st.samples))
  {
  }

  /** The matches of the records from the cursor on, or the error the source throws. */
  function Matches(num: Numerics, st: Settings, data: AsteroidData, cas: seq<CloseApproach>, rand: nat -> Unit, cursor: nat): Result<seq<Match>, string>
    decreases |cas|
  {
    if |cas| == 0 then Success([])
    else if !IsEarth(cas[0]) then Matches(num, st, data, cas[1..], rand, cursor)
    else
      match StepRecord(num, st, data, cas[0], rand, cursor)
      case None => Failure(NullBestMessage)
      case Some(mc) => Prepend([mc.0], Matches(num, st, data, cas[1..], rand, mc.1))
  }

  /** The records the loop does not skip: `orbiting_body !== "Earth"` continues. */
  function EarthRecords(cas: seq<CloseApproach>): (e: seq<CloseApproach>)
    ensures |e| <= |cas|
    ensures forall i :: 0 <= i < |e| ==> IsEarth(e[i])
    ensures forall i :: 0 <= i < |cas| && IsEarth(cas[i]) ==> cas[i] in e
    ensures |cas| == 1 ==> e == (if IsEarth(cas[0]) then cas else [])
  {
    if |cas| == 0 then []
    else if IsEarth(cas[0]) then [cas[0]] + EarthRecords(cas[1..])
    else EarthRecords(cas[1..])
  }

  /**
   * The filter distributes over concatenation; with the single-record case
   * of `EarthRecords`' contract this pins it down: every Earth record is
   * kept, in order, and nothing else.
   */
  lemma {:induction false} EarthRecordsAppend(a: seq<CloseApproach>, b: seq<CloseApproach>)
    ensures EarthRecords(a + b) == EarthRecords(a) + EarthRecords(b)
    decreases |a|
  {
    if |a| == 0 {
      assert a + b == b;
    } else {
      assert (a + b)[0] == a[0];
      assert (a + b)[1..] == a[1..] + b;
      EarthRecordsAppend(a[1..], b);
    }
  }

  /**
   * One match per Earth record, in input order, each with a likelihood in
   * [0, 95] and a conservative bound in [1, 67]; the run fails exactly when
   * there is an Earth record and no sample is drawn.
   */
  lemma {:induction false} MatchesShape(num: Numerics, st: Settings, data: AsteroidData, cas: seq<CloseApproach>, rand: nat -> Unit, cursor: nat)
    ensures var r := Matches(num, st, data, cas, rand, cursor);
      && (r.Failure? <==> st.samples <= 0 && |EarthRecords(cas)| > 0)
      && (r.Success? ==>
        && |r.value| == |EarthRecords(cas)|
        && forall j :: 0 <= j < |r.value| ==> MatchFor(r.value[j], EarthRecords(cas)[j]))
    decreases |cas|
  {
    if |cas| > 0 {
      if !IsEarth(cas[0]) {
        MatchesShape(num, st, data, cas[1..], rand, cursor);
      } else if st.samples > 0 {
        var mc := StepRecord(num, st, data, cas[0], rand, cursor).value;
        MatchesShape(num, st, data, cas[1..], rand, mc.1);
        var rest := Matches(num, st, data, cas[1..], rand, mc.1);
        if rest.Success? {
          var e := EarthRecords(cas);
          assert e == [cas[0]] + EarthRecords(cas[1..]);
          var ms := [mc.0] + rest.value;
          forall j | 0 <= j < |ms|
            ensures MatchFor(ms[j], e[j])
          {
            if j > 0 {
              assert ms[j] == rest.value[j - 1] && e[j] == EarthRecords(cas[1..])[j - 1];
            }
          }
        }
      }
    }
  }

  datatype Output = Output(inputId: Option<string>, name: Option<string>, matches: seq<Match>)

  /** `data.x || null` for a text field. */
  function OrNull(s: Option<string>): (r: Option<string>)
    ensures r.Some? <==> Truthy(s)
    ensures r.Some? ==> r == s
  {
    if Truthy(s) then s else None
  }

  function ProcessingSpec(num: Numerics, data: AsteroidData, opts: Options, rand: nat -> Unit): Result<Output, string> {
    var ms := Matches(num, Resolve(opts), data, data.closeApproaches, rand, 0);
    if ms.Failure? then Failure(ms.error) else Success(Output(OrNull(data.id), OrNull(data.name), ms.value))
  }

  /** `Prepend(done, r)`: the matches already pushed, in front of what the remaining records give. */
  function Prepend(done: seq<Match>, r: Result<seq<Match>, string>): Result<seq<Match>, string> {
    if r.Failure? then r else Success(done + r.value)
  }

  lemma PrependPrepend(a: seq<Match>, b: seq<Match>, r: Result<seq<Match>, string>)
    ensures Prepend(a, Prepend(b, r)) == Prepend(a + b, r)
  {
    if r.Success? {
      assert a + (b + r.value) == (a + b) + r.value;
    }
  }

  /**
   * The body of the loop for one Earth record: the relative state (by
   * propagation, or from the hash of the date or of a random number's
   * text), the sampling, and the match; none when no sample is drawn.
   */
  method ProcessRecord(num: Numerics, st: Settings, data: AsteroidData, diameter: Option<real>,
                       ca: CloseApproach, rand: nat -> Unit, cursor: nat)
    returns (r: Option<(Match, nat)>)
    requires IsEarth(ca) && diameter == MeanDiameter(data)
    ensures r == StepRecord(num, st, data, ca, rand, cursor)
  {
    var rel: Relative;
    var next := cursor;
    if Propagates(data.orbitalData, ca) {
      rel := Propagated(num, data.orbitalData.value, ca.date.value);
    } else {
      var text: string;
      if Truthy(ca.date) {
        text := ca.date.value;
      } else {
        text := num.randomText(rand(cursor));
        next := cursor + 1;
      }
      var hash := HashString(text);
      rel := Fallback(num, ca, hash);
    }
    assert (rel, next) == RelativeOf(num, data, ca, rand, cursor);
    var found := FindBestMatch(num, st, rand, next, rel.relVelKms, diameter);
    StepRecordUnfold(num, st, data, ca, rand, cursor, rel, next, found);
    if found.None? {
      return None;
    }
    r := Some((BuildMatch(st, ca, rel, found.value), next + 4 * st.samples));
  }

  /**
   * `processingSimData`: the loop over the close approaches, pushing one
   * match per Earth record; the draws are read from `rand` in order.
   */
  method ProcessingSimData(num: Numerics, data: AsteroidData, opts: Options, rand: nat -> Unit)
    returns (r: Result<Output, string>)
    ensures r == ProcessingSpec(num, data, opts, rand)
  {
    var st := Resolve(opts);
    var diameter := MeanDiameter(data);
    var cas := data.closeApproaches;
    ghost var whole := Matches(num, st, data, cas, rand, 0);
    var matches: seq<Match> := [];
    var cursor: nat := 0;
    var i := 0;
    assert cas[0..] == cas;
    assert whole.Success? ==> [] + whole.value == whole.value;
    while i < |cas|
      invariant 0 <= i <= |cas|
      invariant whole == Prepend(matches, Matches(num, st, data, cas[i..], rand, cursor))
    {
      var ca := cas[i];
      assert cas[i..][0] == ca && cas[i..][1..] == cas[i + 1..];
      if IsEarth(ca) {
        var step := ProcessRecord(num, st, data, diameter, ca, rand, cursor);
        if step.None? {
          assert Matches(num, st, data, cas[i..], rand, cursor) == Failure(NullBestMessage);
          return Failure(NullBestMessage);
        }
        var m := step.value.0;
        assert Matches(num, st, data, cas[i..], rand, cursor) == Prepend([m], Matches(num, st, data, cas[i + 1..], rand, step.value.1));
        PrependPrepend(matches, [m], Matches(num, st, data, cas[i + 1..], rand, step.value.1));
        matches := matches + [m];
        cursor := step.value.1;
      } else {
        assert Matches(num, st, data, cas[i..], rand, cursor) == Matches(num, st, data, cas[i + 1..], rand, cursor);
      }
      i := i + 1;
    }
    assert cas[i..] == [];
    assert matches + [] == matches;
    r := Success(Output(OrNull(data.id), OrNull(data.name), matches));
  }
}
