/** The plume transport model of `NinhThuanSimulation.run_simulation`: the per-trial
    source strength, the per-day source reduction, the Gaussian-plume centreline
    concentration, radioactive decay of Cs-137, rain scavenging and the conversion to a
    dose rate. The transcendental functions are not computed here: `exp`, `log`, `pi`
    and the `** -0.5` power are supplied as a `Transcendentals` value, of which only
    positivity (and, where stated, monotonicity of `exp`) is assumed. */
module Transport {
  import opened Numerics

  /** Baseline emission rate, Bq/s. */
  const QBase: real := 1.5e10
  /** Effective release height, m. */
  const ReleaseHeight: real := 100.0
  /** Dose conversion factor, mSv/day per Bq/m³. */
  const Gamma: real := 3.26e-5
  /** Wind speed substituted for a sampled speed of exactly zero, m/s. */
  const ZeroWindFloor: real := 1e-6
  /** Nominal core temperature (°C), pressure (MPa) and core damage (%). */
  const NominalTemperature: real := 2800.0
  const NominalPressure: real := 0.84
  const NominalDamage: real := 70.0
  /** Cs-137 half-life in days is `30.17 * 365`. */
  const HalfLifeDays: real := 30.17 * 365.0

  /** The numerical primitives the model calls into: `np.pi`, `np.exp`, `np.log` and
      `y ** -0.5`. */
  datatype Transcendentals = Transcendentals(
    pi: real,
    exp: real -> real,
    ln: real -> real,
    rsqrt: real -> real)
  {
    /** What the model relies on: `pi` and `log(2)` are positive, `exp` is positive
        everywhere and `y ** -0.5` is positive for positive `y`. */
    ghost predicate Valid() {
      && pi > 0.0
      && ln(2.0) > 0.0
      && (forall y :: exp(y) > 0.0)
      && (forall y :: y > 0.0 ==> rsqrt(y) > 0.0)
    }

    /** `exp` never decreases; needed only for the day-by-day monotonicity of the dose. */
    ghost predicate ExpMonotone() {
      forall a, b :: a <= b ==> exp(a) <= exp(b)
    }
  }

  // ---------------------------------------------------------------- source strength

  function TempFactor(coreTemperature: real): (f: real)
    ensures f == coreTemperature / NominalTemperature
    ensures f == 1.0 <==> coreTemperature == NominalTemperature
  {
    1.0 + (coreTemperature - 2800.0) / 2800.0
  }

  function PressureFactor(pressure: real): (f: real)
    ensures f == pressure / NominalPressure
    ensures f == 1.0 <==> pressure == NominalPressure
  {
    1.0 + (pressure - 0.84) / 0.84
  }

  function DamageFactor(coreDamage: real): (f: real)
    ensures f == 1.0 <==> coreDamage == NominalDamage
    ensures f > 0.0 <==> coreDamage > 0.0
  {
    coreDamage / 70.0
  }

  /** `Q_i_base`, the trial's emission rate: the baseline scaled by the ratio of each
      sampled condition to its nominal value. */
  function SourceStrength(coreTemperature: real, pressure: real, coreDamage: real): (q: real)
    ensures q == QBase * (coreTemperature / NominalTemperature) * (pressure / NominalPressure)
                       * (coreDamage / NominalDamage)
    ensures (coreTemperature == NominalTemperature && pressure == NominalPressure
             && coreDamage == NominalDamage) ==> q == QBase
    ensures coreTemperature > 0.0 && pressure > 0.0 && coreDamage > 0.0 ==> q > 0.0
  {
    var tf := TempFactor(coreTemperature);
    var pf := PressureFactor(pressure);
    var df := DamageFactor(coreDamage);
    assert tf * pf * df == (coreTemperature * pressure * coreDamage)
                           / (NominalTemperature * NominalPressure * NominalDamage);
    QBase * tf * pf * df
  }

  /** The wind speed the plume formula divides by: a sampled zero is replaced by a
      negligible positive speed, anything else is used as sampled. */
  function EffectiveWind(windSpeed: real): (u: real)
    ensures u != 0.0
    ensures windSpeed != 0.0 ==> u == windSpeed
    ensures windSpeed >= 0.0 ==> u > 0.0
  {
    if windSpeed == 0.0 then ZeroWindFloor else windSpeed
  }

  // ---------------------------------------------------------------- per-day factors

  /** Source reduction on day `t`: full strength through day 3, then 20 % of the base
      less per day, never below 20 %. */
  function SourceDecay(t: nat): (m: real)
    ensures 0.2 <= m <= 1.0
    ensures m == 1.0 <==> t <= 3
    ensures m == 0.2 <==> t >= 7
    ensures m == if t <= 3 then 1.0 else if t >= 7 then 0.2 else 1.0 - 0.2 * (t - 3) as real
  {
    Max(1.0 - 0.2 * Max(0.0, (t - 3) as real), 0.2)
  }

  /** The source reduction never increases from one day to a later one. */
  lemma SourceDecayNonIncreasing(t1: nat, t2: nat)
    requires t1 <= t2
    ensures SourceDecay(t2) <= SourceDecay(t1)
  {
  }

  /** `decay_constant = log(2) / (30.17 * 365)`, per day. */
  function DecayConstant(tr: Transcendentals): (lambda: real)
    requires tr.Valid()
    ensures lambda > 0.0
    ensures lambda * HalfLifeDays == tr.ln(2.0)
  {
    tr.ln(2.0) / (30.17 * 365.0)
  }

  /** Fraction of Cs-137 activity left after `t` days, `exp(-decay_constant * t)`. */
  function RadioactiveDecay(tr: Transcendentals, t: nat): (f: real)
    requires tr.Valid()
    ensures f > 0.0
    ensures f == tr.exp(-DecayConstant(tr) * t as real)
  {
    tr.exp(-DecayConstant(tr) * t as real)
  }

  /** With a monotone `exp`, later days retain no more activity than earlier ones. */
  lemma RadioactiveDecayNonIncreasing(tr: Transcendentals, t1: nat, t2: nat)
    requires tr.Valid() && tr.ExpMonotone()
    requires t1 <= t2
    ensures RadioactiveDecay(tr, t2) <= RadioactiveDecay(tr, t1)
  {
    var lambda := DecayConstant(tr);
    assert -lambda * t2 as real <= -lambda * t1 as real;
  }

  // ---------------------------------------------------------------- rain scavenging

  /** The scavenging factor before clipping, `1 - 0.05 * rainfall / 4.45`. */
  function RawRainFactor(rainfall: real): real
  {
    1.0 - 0.05 * rainfall / 4.45
  }

  /** The scavenging multiplier, the raw factor clipped to `[0.5, 1]`. */
  function RainMultiplier(rainfall: real): (m: real)
    ensures 0.5 <= m <= 1.0
    ensures m == RawRainFactor(rainfall) <==> 0.0 <= rainfall <= 44.5
    ensures rainfall <= 0.0 ==> m == 1.0
    ensures rainfall >= 44.5 ==> m == 0.5
  {
    Clip(RawRainFactor(rainfall), 0.5, 1.0)
  }

  /** More rain never lets more activity through. */
  lemma {:induction false} RainMultiplierNonIncreasing(r1: real, r2: real)
    requires r1 <= r2
    ensures RainMultiplier(r2) <= RainMultiplier(r1)
  {
    assert RawRainFactor(r2) <= RawRainFactor(r1);
    ClipMonotone(RawRainFactor(r2), RawRainFactor(r1), 0.5, 1.0);
  }

  /** For a clipped rainfall in `[0, 10]` the clip is inactive and the multiplier lies in
      `[1 - 0.5 / 4.45, 1]`. */
  lemma RainMultiplierOnClippedRainfall(rainfall: real)
    requires 0.0 <= rainfall <= 10.0
    ensures RainMultiplier(rainfall) == RawRainFactor(rainfall)
    ensures 1.0 - 0.5 / 4.45 <= RainMultiplier(rainfall) <= 1.0
  {
  }

  // ---------------------------------------------------------------- plume

  /** Horizontal spread at `x` metres downwind, `0.08 x (1 + 0.0001 x) ** -0.5`. */
  function SigmaY(tr: Transcendentals, x: real): (s: real)
    requires tr.Valid() && x > 0.0
    ensures s > 0.0
  {
    0.08 * x * tr.rsqrt(1.0 + 0.0001 * x)
  }

  /** Vertical spread at `x` metres downwind, `0.06 x (1 + 0.0015 x) ** -0.5`. */
  function SigmaZ(tr: Transcendentals, x: real): (s: real)
    requires tr.Valid() && x > 0.0
    ensures s > 0.0
  {
    0.06 * x * tr.rsqrt(1.0 + 0.0015 * x)
  }

  /** `pi u sigma_y sigma_z`, the plume cross-section factor the source rate is divided by. */
  function PlumeDenominator(tr: Transcendentals, u: real, x: real): (d: real)
    requires tr.Valid() && u != 0.0 && x > 0.0
    ensures d != 0.0
    ensures u > 0.0 <==> d > 0.0
  {
    var c := tr.pi * SigmaY(tr, x) * SigmaZ(tr, x);
    assert c > 0.0;
    assert tr.pi * u * SigmaY(tr, x) * SigmaZ(tr, x) == u * c;
    tr.pi * u * SigmaY(tr, x) * SigmaZ(tr, x)
  }

  /** The ground-reflection term `exp(-0.5 (H / sigma_z) ** 2)` for the release height `H`. */
  function Reflection(tr: Transcendentals, x: real): (e: real)
    requires tr.Valid() && x > 0.0
    ensures e > 0.0
  {
    var h := ReleaseHeight / SigmaZ(tr, x);
    tr.exp(-0.5 * (h * h))
  }

  /** The centreline concentration per unit emission rate. */
  function PlumeKernel(tr: Transcendentals, u: real, x: real): (k: real)
    requires tr.Valid() && u != 0.0 && x > 0.0
    ensures u > 0.0 ==> k > 0.0
  {
    Reflection(tr, x) / PlumeDenominator(tr, u, x)
  }

  /** Ground-level centreline concentration of a continuous elevated point source of
      rate `q`, in the order the source writes it: `(q / (pi u sigma_y sigma_z)) * exp(...)`.
      It is linear in the emission rate. */
  function PlumeConcentration(tr: Transcendentals, q: real, u: real, x: real): (c: real)
    requires tr.Valid() && u != 0.0 && x > 0.0
    ensures c == q * PlumeKernel(tr, u, x)
  {
    DivideThenScale(q, PlumeDenominator(tr, u, x), Reflection(tr, x));
    (q / PlumeDenominator(tr, u, x)) * Reflection(tr, x)
  }

  lemma DivideThenScale(q: real, d: real, e: real)
    requires d != 0.0
    ensures (q / d) * e == q * (e / d)
  {
  }

  /** The inner loop body from the plume onwards: a source rate `qi` observed `x` metres
      downwind, multiplied by the fraction `decay` of activity left, by the rain
      multiplier and by the dose conversion factor. */
  function DoseRate(tr: Transcendentals, qi: real, u: real, x: real, decay: real,
                    rainfall: real): (level: real)
    requires tr.Valid() && u != 0.0 && x > 0.0
    ensures level == qi * decay * (PlumeKernel(tr, u, x) * RainMultiplier(rainfall) * Gamma)
  {
    var c := PlumeConcentration(tr, qi, u, x);
    var c := c * decay;
    var c := c * RainMultiplier(rainfall);
    Regroup(qi, PlumeKernel(tr, u, x), decay, RainMultiplier(rainfall), Gamma);
    c * Gamma
  }

  lemma Regroup(q: real, k: real, d: real, m: real, g: real)
    ensures q * k * d * m * g == q * d * (k * m * g)
  {
  }

  /** For a positive wind the dose rate grows with the source rate and with the fraction
      of activity left, as long as both are non-negative. */
  lemma {:induction false} DoseRateMonotone(tr: Transcendentals, q1: real, q2: real, u: real,
                                            x: real, d1: real, d2: real, rainfall: real)
    requires tr.Valid() && u > 0.0 && x > 0.0
    requires 0.0 <= q2 <= q1 && 0.0 <= d2 <= d1
    ensures DoseRate(tr, q2, u, x, d2, rainfall) <= DoseRate(tr, q1, u, x, d1, rainfall)
  {
    var w := PlumeKernel(tr, u, x) * RainMultiplier(rainfall) * Gamma;
    PositiveProduct(PlumeKernel(tr, u, x), RainMultiplier(rainfall), Gamma);
    ProductMonotone(q2, q1, d2, d1);
    ProductMonotone(q2 * d2, q1 * d1, w, w);
  }

  lemma PositiveProduct(a: real, b: real, c: real)
    requires a > 0.0 && b > 0.0 && c > 0.0
    ensures a * b * c > 0.0
  {
    assert a * b > 0.0;
  }

  /** `radiation_level` for one trial, day and distance: the day's source strength
      `Q_i_base * SourceDecay(t)` goes through the plume, then radioactive decay, then
      rain scavenging, then the dose conversion factor. `qBase` is the trial's
      `Q_i_base`, `u` its effective wind speed and `distance` is in km. */
  function RadiationLevel(tr: Transcendentals, qBase: real, u: real, rainfall: real,
                          t: nat, distance: real): (level: real)
    requires tr.Valid() && u != 0.0 && distance > 0.0
    ensures level == qBase * SourceDecay(t) * RadioactiveDecay(tr, t)
                     * (PlumeKernel(tr, u, distance * 1000.0) * RainMultiplier(rainfall) * Gamma)
  {
    DoseRate(tr, qBase * SourceDecay(t), u, distance * 1000.0, RadioactiveDecay(tr, t), rainfall)
  }

  /** For a positive wind the dose has the sign of the trial's emission rate. */
  lemma RadiationLevelSign(tr: Transcendentals, qBase: real, u: real, rainfall: real,
                           t: nat, distance: real)
    requires tr.Valid() && u > 0.0 && distance > 0.0
    ensures RadiationLevel(tr, qBase, u, rainfall, t, distance) > 0.0 <==> qBase > 0.0
    ensures RadiationLevel(tr, qBase, u, rainfall, t, distance) == 0.0 <==> qBase == 0.0
  {
    var w := PlumeKernel(tr, u, distance * 1000.0) * RainMultiplier(rainfall) * Gamma;
    PositiveProduct(PlumeKernel(tr, u, distance * 1000.0), RainMultiplier(rainfall), Gamma);
    var p := SourceDecay(t) * RadioactiveDecay(tr, t);
    assert p * w > 0.0;
    assert RadiationLevel(tr, qBase, u, rainfall, t, distance) == qBase * (p * w);
  }

  /** For a non-negative emission rate and a positive wind, the dose at a fixed distance
      never rises from one day to a later one: both the source reduction and radioactive
      decay only decrease. */
  lemma {:induction false} RadiationNonIncreasingInDay(tr: Transcendentals, qBase: real, u: real,
                                                       rainfall: real, distance: real,
                                                       t1: nat, t2: nat)
    requires tr.Valid() && tr.ExpMonotone()
    requires qBase >= 0.0 && u > 0.0 && distance > 0.0
    requires t1 <= t2
    ensures RadiationLevel(tr, qBase, u, rainfall, t2, distance)
            <= RadiationLevel(tr, qBase, u, rainfall, t1, distance)
  {
    SourceDecayNonIncreasing(t1, t2);
    RadioactiveDecayNonIncreasing(tr, t1, t2);
    ProductMonotone(qBase, qBase, SourceDecay(t2), SourceDecay(t1));
    DoseRateMonotone(tr, qBase * SourceDecay(t1), qBase * SourceDecay(t2), u, distance * 1000.0,
                     RadioactiveDecay(tr, t1), RadioactiveDecay(tr, t2), rainfall);
  }

  /** Products of non-negative reals are monotone in both factors. */
  lemma ProductMonotone(a1: real, a2: real, b1: real, b2: real)
    requires 0.0 <= a1 <= a2 && 0.0 <= b1 <= b2
    ensures a1 * b1 <= a2 * b2
  {
    assert a1 * b1 <= a2 * b1;
    assert a2 * b1 <= a2 * b2;
  }
}
